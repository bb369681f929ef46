/**
 * The older, synchronous revision of the `postgresql` class: every
 * operation runs external programs one after another and stops at the
 * first one that fails. The `$` helper and this revision's `sql` helper
 * are not part of this model; their calls are recorded with the literal
 * arguments their call sites pass.
 */
module SyncPostgresql {
  import opened Wrappers
  import opened Dbtools
  import opened Exec

  /** An external program run made by this revision. */
  datatype Call =
    | Run(program: string, args: seq<string>)       // `exec`: the argument list for the process layer
    | Dollar(program: string, tokens: seq<string>)  // `$(program, tokens...)`
    | Sql(tokens: seq<string>)                       // `sql(tokens...)`

  datatype WaitError =
    | NonzeroExit(program: string, status: int)
    | KilledBySignal(program: string, signal: int)
    | DidNotSucceed(program: string)

  /** The verdict `wait_exec` gives on the child it waited for. */
  function WaitExecOutcome(program: string, exit: ChildState): (r: Outcome<WaitError>)
    ensures r.Pass? <==> exit.code == Exited && exit.status == 0
    ensures r.Fail? ==> r.error.program == program
    ensures r.Fail? && r.error.NonzeroExit? <==> exit.code == Exited && exit.status != 0
    ensures r.Fail? && r.error.KilledBySignal? <==> exit.code == Killed || exit.code == Dumped
    ensures r.Fail? && r.error.DidNotSucceed? <==> exit.code !in {Exited, Killed, Dumped}
    ensures r.Fail? && r.error.NonzeroExit? ==> r.error.status == exit.status
    ensures r.Fail? && r.error.KilledBySignal? ==> r.error.signal == exit.status
  {
    if exit.code == Exited then
      if exit.status == 0 then Pass else Fail(NonzeroExit(program, exit.status))
    else if exit.code == Killed || exit.code == Dumped then Fail(KilledBySignal(program, exit.status))
    else Fail(DidNotSucceed(program))
  }

  /**
   * The two revisions agree on success and on nonzero exits; what the newer
   * one reports as "did not exit properly" the older one splits into a
   * signal and anything else.
   */
  lemma WaitExecRefinesExecOutcome(program: string, exit: ChildState)
    ensures WaitExecOutcome(program, exit).Pass? <==> ExecOutcome(program, exit).Pass?
    ensures WaitExecOutcome(program, exit) == Fail(NonzeroExit(program, exit.status)) <==>
            ExecOutcome(program, exit) == Fail(ExitedWithCode(program, exit.status))
    ensures ExecOutcome(program, exit) == Fail(DidNotExitProperly(program)) <==>
            WaitExecOutcome(program, exit).Fail? && !WaitExecOutcome(program, exit).error.NonzeroExit?
  {
  }

  class Postgresql {
    const opts: Options
    var calls: seq<Call>

    constructor (opts: Options)
      ensures this.opts == opts && calls == []
    {
      this.opts := opts;
      calls := [];
    }

    /** Records `call` and says whether it succeeded; a failure throws in the source. */
    method Perform(call: Call, succeeds: Call -> bool) returns (r: Outcome<Call>)
      modifies this
      ensures calls == old(calls) + [call]
      ensures r == if succeeds(call) then Pass else Fail(call)
    {
      calls := calls + [call];
      r := if succeeds(call) then Pass else Fail(call);
    }

    method Analyze(succeeds: Call -> bool) returns (r: Outcome<Call>)
      modifies this
      ensures calls == old(calls) + [Dollar(opts.clientProgram, ["--command", "ANALYZE"])]
      ensures r == if succeeds(Dollar(opts.clientProgram, ["--command", "ANALYZE"])) then Pass
                   else Fail(Dollar(opts.clientProgram, ["--command", "ANALYZE"]))
    {
      r := Perform(Dollar(opts.clientProgram, ["--command", "ANALYZE"]), succeeds);
    }

    method Dump(file: string, succeeds: Call -> bool) returns (r: Outcome<Call>)
      modifies this
      ensures calls == old(calls) + [Dollar(opts.dumpProgram, ["--format", "custom", "--file", file])]
      ensures r == if succeeds(Dollar(opts.dumpProgram, ["--format", "custom", "--file", file])) then Pass
                   else Fail(Dollar(opts.dumpProgram, ["--format", "custom", "--file", file]))
    {
      r := Perform(Dollar(opts.dumpProgram, ["--format", "custom", "--file", file]), succeeds);
    }

    /** `exec(program, args)`: the connection selector, then the caller's arguments. */
    method Exec(program: string, args: seq<string>)
      modifies this
      ensures calls == old(calls) + [Run(program, ExecArguments(opts.connectionString, args))]
    {
      var arguments := ["--dbname", opts.connectionString];
      arguments := arguments + args;
      calls := calls + [Run(program, arguments)];
    }

    /** `exec(args)`: the same, with the client program. */
    method ExecClient(args: seq<string>)
      modifies this
      ensures calls == old(calls) + [Run(opts.clientProgram, ExecArguments(opts.connectionString, args))]
    {
      Exec(opts.clientProgram, args);
    }

    /** `init()`: the data schema's script, then `update()`. */
    method Init(succeeds: Call -> bool) returns (r: Outcome<Call>)
      modifies this
      ensures var data := Sql(["--file", ScriptPath(opts, DataSchema)]);
              var api := Sql(["--file", ScriptPath(opts, ApiSchema)]);
        && (!succeeds(data) ==> calls == old(calls) + [data] && r == Fail(data))
        && (succeeds(data) ==> calls == old(calls) + [data, api] &&
                               r == (if succeeds(api) then Pass else Fail(api)))
    {
      var path := ScriptPath(opts, DataSchema);
      r := Perform(Sql(["--file", path]), succeeds);
      if r.Fail? {
        return;
      }
      r := Update(succeeds);
    }

    /** `restore(file)`: the restore program, then `analyze()` once it succeeded. */
    method Restore(file: string, succeeds: Call -> bool) returns (r: Outcome<Call>)
      modifies this
      ensures var restore := Dollar(opts.restoreProgram, ["--clean", "--if-exists", file]);
              var analyze := Dollar(opts.clientProgram, ["--command", "ANALYZE"]);
        && (!succeeds(restore) ==> calls == old(calls) + [restore] && r == Fail(restore))
        && (succeeds(restore) ==> calls == old(calls) + [restore, analyze] &&
                                  r == (if succeeds(analyze) then Pass else Fail(analyze)))
    {
      r := Perform(Dollar(opts.restoreProgram, ["--clean", "--if-exists", file]), succeeds);
      if r.Fail? {
        return;
      }
      r := Analyze(succeeds);
    }

    /** `update()`: the api schema's script. */
    method Update(succeeds: Call -> bool) returns (r: Outcome<Call>)
      modifies this
      ensures calls == old(calls) + [Sql(["--file", ScriptPath(opts, ApiSchema)])]
      ensures r == if succeeds(Sql(["--file", ScriptPath(opts, ApiSchema)])) then Pass
                   else Fail(Sql(["--file", ScriptPath(opts, ApiSchema)]))
    {
      var path := ScriptPath(opts, ApiSchema);
      r := Perform(Sql(["--file", path]), succeeds);
    }

    /** `wait_exec(program, args)`: the child runs `exec`; the parent classifies how it ended. */
    method WaitExec(program: string, args: seq<string>, exit: ChildState) returns (r: Outcome<WaitError>)
      modifies this
      ensures calls == old(calls) + [Run(program, ExecArguments(opts.connectionString, args))]
      ensures r == WaitExecOutcome(program, exit)
    {
      Exec(program, args);
      if exit.code == Exited {
        if exit.status == 0 {
          return Pass;
        }
        return Fail(NonzeroExit(program, exit.status));
      }
      if exit.code == Killed || exit.code == Dumped {
        return Fail(KilledBySignal(program, exit.status));
      }
      return Fail(DidNotSucceed(program));
    }
  }
}
