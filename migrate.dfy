/**
 * The migration runner of the asynchronous `postgresql` class: reading and
 * writing the schema-version marker, `migrate_data` (no-op and downgrade
 * checks, the scan of the migration directory, applying the scripts in
 * ascending order with a checkpoint after each), `update` and `migrate`.
 *
 * The database the runner talks to is a state record. Each method of the
 * class is proved to leave exactly the state, and return exactly the
 * outcome, that an effect function computes from the old state; the
 * lemmas after the class state what those effects guarantee.
 */
module Migrate {
  import opened Wrappers
  import opened Versions
  import opened Dbtools
  import opened Catalog

  datatype Error =
    | ParseFailed(text: string)                       // the version library rejected a string
    | DowngradeRejected(recorded: Version, target: Version)
    | NotADirectory(path: string)
    | ProcessFailed(command: Command)                  // a client run did not succeed

  /**
   * What the runner sees of the database and its tools: the schema the
   * session's search path is set to (None until it is set), whether the api schema exists, the text returned by the
   * `data.schema_version()` marker function (None while there is none),
   * and every client-program run so far, in order.
   */
  datatype Database = Database(
    searchPath: Option<string>,
    apiSchema: bool,
    marker: Option<string>,
    invocations: seq<Command>)

  /**
   * Everything outside the runner: the version library's parser (None where
   * it throws) and formatter, what lies at the migration directory's path,
   * and whether the client program exits successfully on a command line.
   */
  datatype Environment = Environment(
    parse: string -> Option<Version>,
    format: Version -> string,
    migrations: Directory,
    succeeds: Command -> bool)

  const MigrationDirectory: string := "migration"

  function SetSearchPath(): (s: string)
    ensures s == "SET search_path TO data"
  {
    "SET search_path TO " + DataSchema
  }

  function MigrationPath(opts: Options): (p: string)
    ensures |p| >= |MigrationDirectory| && p[|p| - |MigrationDirectory|..] == "migration"
    ensures p[..|p| - |MigrationDirectory|] ==
            if opts.sqlDirectory != [] && opts.sqlDirectory[|opts.sqlDirectory| - 1] != '/'
            then opts.sqlDirectory + "/" else opts.sqlDirectory
    ensures opts.sqlDirectory != [] ==> p[|p| - |MigrationDirectory| - 1] == '/'
  {
    Join(opts.sqlDirectory, MigrationDirectory)
  }

  /** The arguments `migrate_data` hands to `sql` for one script. */
  function ScriptArguments(path: string): (a: seq<string>)
    ensures |a| == 5 && a[0] == "--command" && a[1] == SetSearchPath() && a[2] == "--single-transaction"
    ensures a[3..] == ["--file", path]
  {
    ["--command", SetSearchPath(), "--single-transaction", "--file", path]
  }

  /** The client run that applies one script inside its own transaction. */
  function ScriptCommand(opts: Options, path: string): (c: Command)
    ensures c.program == opts.clientProgram
    ensures c.args == ["--dbname", opts.connectionString, "--set", "ON_ERROR_STOP=1", "--quiet",
                       "--command", SetSearchPath(), "--single-transaction", "--file", path]
  {
    SqlCommand(opts, ScriptArguments(path))
  }

  /** The client runs for a sequence of scripts, in the same order. */
  function ScriptCommands(opts: Options, plan: seq<Script>): (cs: seq<Command>)
    ensures |cs| == |plan|
    ensures forall i :: 0 <= i < |plan| ==> cs[i] == ScriptCommand(opts, plan[i].path)
    decreases |plan|
  {
    if plan == [] then []
    else ScriptCommands(opts, plan[..|plan| - 1]) + [ScriptCommand(opts, plan[|plan| - 1].path)]
  }

  /** The client run of `update`: the api schema's script. */
  function UpdateCommand(opts: Options): (c: Command)
    ensures c.program == opts.clientProgram
    ensures c.args == ["--dbname", opts.connectionString, "--set", "ON_ERROR_STOP=1", "--quiet",
                       "--file", ScriptPath(opts, ApiSchema)]
  {
    SqlCommand(opts, ["--file", ScriptPath(opts, ApiSchema)])
  }

  // ---------------------------------------------------------------------
  // The schema-version marker.
  // ---------------------------------------------------------------------

  /** `schema_version()`: None without a marker, else the parsed marker text. */
  function ReadSchemaVersion(db: Database, parse: string -> Option<Version>)
    : (r: Result<Option<Version>, Error>)
    ensures r == Success(None) <==> db.marker.None?
    ensures r.Failure? <==> db.marker.Some? && parse(db.marker.value).None?
    ensures r.Success? && r.value.Some? ==> parse(db.marker.value) == r.value
  {
    match db.marker
    case None => Success(None)
    case Some(text) =>
      match parse(text)
      case None => Failure(ParseFailed(text))
      case Some(v) => Success(Some(v))
  }

  /** `schema_version(v)`: (re)creates the marker function returning the formatted version. */
  function WriteSchemaVersion(db: Database, v: Version, format: Version -> string): (db': Database)
    ensures db'.marker == Some(format(v))
    ensures db'.searchPath == db.searchPath && db'.apiSchema == db.apiSchema
    ensures db'.invocations == db.invocations
  {
    db.(marker := Some(format(v)))
  }

  /** The version the runner starts from: the recorded one, or the default when none is. */
  function RecordedVersion(db: Database, parse: string -> Option<Version>): (v: Version)
    requires ReadSchemaVersion(db, parse).Success?
    ensures db.marker.None? ==> v == DefaultVersion
    ensures db.marker.Some? ==> parse(db.marker.value) == Some(v)
  {
    ReadSchemaVersion(db, parse).value.GetOr(DefaultVersion)
  }

  // ---------------------------------------------------------------------
  // Applying a plan.
  // ---------------------------------------------------------------------

  predicate ScriptSucceeds(opts: Options, env: Environment, s: Script) {
    env.succeeds(ScriptCommand(opts, s.path))
  }

  /** The index of the first script whose run fails, at or after `from`; |plan| when none does. */
  function FirstFailure(opts: Options, plan: seq<Script>, env: Environment, from: nat): (k: nat)
    requires from <= |plan|
    ensures from <= k <= |plan|
    ensures forall j :: from <= j < k ==> ScriptSucceeds(opts, env, plan[j])
    ensures k < |plan| ==> !ScriptSucceeds(opts, env, plan[k])
    decreases |plan| - from
  {
    if from == |plan| || !ScriptSucceeds(opts, env, plan[from]) then from
    else FirstFailure(opts, plan, env, from + 1)
  }

  /**
   * The checkpoint written after the k-th script (counting from 1): its
   * own version, or the target after the last one.
   */
  function Checkpoint(plan: seq<Script>, k: nat, target: Version): (v: Version)
    requires 1 <= k <= |plan|
    ensures k == |plan| ==> v == target
    ensures k < |plan| ==> v == plan[k - 1].version
  {
    if k == |plan| then target else plan[k - 1].version
  }

  /**
   * Applying a plan in order: scripts run up to and including the first
   * that fails, or all of them; the marker holds the checkpoint of the
   * last script that succeeded, and is untouched when none did.
   */
  function ApplyScripts(opts: Options, db: Database, plan: seq<Script>, target: Version,
                        env: Environment): (r: (Outcome<Error>, Database))
    ensures r.1.searchPath == db.searchPath && r.1.apiSchema == db.apiSchema
    ensures |db.invocations| <= |r.1.invocations| && r.1.invocations[..|db.invocations|] == db.invocations
    ensures r.0 == Pass <==> forall j :: 0 <= j < |plan| ==> ScriptSucceeds(opts, env, plan[j])
    ensures r.0.Fail? ==> r.0.error.ProcessFailed?
  {
    var k := FirstFailure(opts, plan, env, 0);
    if k < |plan| then
      (Fail(ProcessFailed(ScriptCommand(opts, plan[k].path))),
       Progress(opts, db, plan, k + 1, k, target, env))
    else (Pass, Progress(opts, db, plan, k, k, target, env))
  }

  /** The database once the first `ran` scripts have run and the first `done` of them succeeded. */
  function Progress(opts: Options, db: Database, plan: seq<Script>, ran: nat, done: nat, target: Version,
                    env: Environment): (p: Database)
    requires done <= ran <= |plan|
    ensures p.searchPath == db.searchPath && p.apiSchema == db.apiSchema
    ensures |p.invocations| == |db.invocations| + ran && p.invocations[..|db.invocations|] == db.invocations
    ensures done == 0 ==> p.marker == db.marker
  {
    db.(invocations := db.invocations + ScriptCommands(opts, plan[..ran]),
        marker := if done == 0 then db.marker else Some(env.format(Checkpoint(plan, done, target))))
  }

  /** `migrate_data(target)`. */
  function MigrateDataEffect(opts: Options, db: Database, target: Version, env: Environment)
    : (r: (Outcome<Error>, Database))
    ensures r.1.searchPath == Some(DataSchema) && r.1.apiSchema == db.apiSchema
    ensures |db.invocations| <= |r.1.invocations| && r.1.invocations[..|db.invocations|] == db.invocations
  {
    var db1 := db.(searchPath := Some(DataSchema));
    match ReadSchemaVersion(db1, env.parse)
    case Failure(e) => (Fail(e), db1)
    case Success(recorded) =>
      var current := recorded.GetOr(DefaultVersion);
      if current == target then (Pass, db1)
      else if Less(target, current) then (Fail(DowngradeRejected(current, target)), db1)
      else match env.migrations
        case Absent => (Pass, db1)
        case NonDirectory => (Fail(NotADirectory(MigrationPath(opts))), db1)
        case Listing(entries) =>
          match Scan(MigrationPath(opts), entries, current, target, env.parse)
          case Failure(stem) => (Fail(ParseFailed(stem)), db1)
          case Success(plan) => ApplyScripts(opts, db1, plan, target, env)
  }

  /** `update(v)`: recreate the api schema, run its script, then record `v`. */
  function UpdateEffect(opts: Options, db: Database, v: Version, env: Environment)
    : (r: (Outcome<Error>, Database))
    ensures r.1.apiSchema && r.1.searchPath == db.searchPath
    ensures r.1.invocations == db.invocations + [UpdateCommand(opts)]
    ensures r.0 == Pass <==> env.succeeds(UpdateCommand(opts))
    ensures r.1.marker == if r.0 == Pass then Some(env.format(v)) else db.marker
  {
    var cmd := UpdateCommand(opts);
    var db1 := db.(apiSchema := true, invocations := db.invocations + [cmd]);
    if !env.succeeds(cmd) then (Fail(ProcessFailed(cmd)), db1)
    else (Pass, WriteSchemaVersion(db1, v, env.format))
  }

  /** `migrate(version)`: parse the target, drop the api schema, migrate the data, update. */
  function MigrateEffect(opts: Options, db: Database, version: string, env: Environment)
    : (r: (Outcome<Error>, Database))
    ensures env.parse(version).None? ==> r == (Fail(ParseFailed(version)), db)
    ensures env.parse(version).Some? ==> r.1.searchPath == Some(DataSchema)
    ensures r.0 == Pass ==> r.1.apiSchema
    ensures |db.invocations| <= |r.1.invocations| && r.1.invocations[..|db.invocations|] == db.invocations
  {
    match env.parse(version)
    case None => (Fail(ParseFailed(version)), db)
    case Some(v) =>
      var (r, db1) := MigrateDataEffect(opts, db.(apiSchema := false), v, env);
      if r.Fail? then (r, db1) else UpdateEffect(opts, db1, v, env)
  }

  lemma FirstFailureIs(opts: Options, plan: seq<Script>, env: Environment, k: nat)
    requires k <= |plan|
    requires forall j :: 0 <= j < k ==> ScriptSucceeds(opts, env, plan[j])
    requires k < |plan| ==> !ScriptSucceeds(opts, env, plan[k])
    ensures FirstFailure(opts, plan, env, 0) == k
  {
  }

  /** ApplyScripts when the run stops at index k (k == |plan| when every script succeeds). */
  lemma ApplyScriptsStopsAt(opts: Options, db: Database, plan: seq<Script>, target: Version,
                            env: Environment, k: nat)
    requires k <= |plan|
    requires forall j :: 0 <= j < k ==> ScriptSucceeds(opts, env, plan[j])
    requires k < |plan| ==> !ScriptSucceeds(opts, env, plan[k])
    ensures k < |plan| ==>
              ApplyScripts(opts, db, plan, target, env) ==
              (Fail(ProcessFailed(ScriptCommand(opts, plan[k].path))),
               Progress(opts, db, plan, k + 1, k, target, env))
    ensures k == |plan| ==>
              ApplyScripts(opts, db, plan, target, env) ==
              (Pass, Progress(opts, db, plan, k, k, target, env))
  {
    FirstFailureIs(opts, plan, env, k);
  }

  /** Running script i and writing its checkpoint extend the progress by one script. */
  lemma ProgressStep(opts: Options, db: Database, plan: seq<Script>, i: nat, target: Version,
                     env: Environment)
    requires i < |plan|
    ensures Progress(opts, db, plan, i + 1, i, target, env) ==
      Progress(opts, db, plan, i, i, target, env).(invocations :=
        Progress(opts, db, plan, i, i, target, env).invocations + [ScriptCommand(opts, plan[i].path)])
    ensures Progress(opts, db, plan, i + 1, i + 1, target, env) ==
      Progress(opts, db, plan, i + 1, i, target, env).(marker :=
        Some(env.format(if i + 1 == |plan| then target else plan[i].version)))
  {
    ScriptCommandsSnoc(opts, plan, i);
  }

  lemma ScriptCommandsSnoc(opts: Options, plan: seq<Script>, i: nat)
    requires i < |plan|
    ensures ScriptCommands(opts, plan[..i + 1]) ==
            ScriptCommands(opts, plan[..i]) + [ScriptCommand(opts, plan[i].path)]
  {
    assert plan[..i + 1][..i] == plan[..i];
  }

  // ---------------------------------------------------------------------
  // The runner.
  // ---------------------------------------------------------------------

  class Postgresql {
    const opts: Options
    var db: Database

    constructor (opts: Options, db: Database)
      ensures this.opts == opts && this.db == db
    {
      this.opts := opts;
      this.db := db;
    }

    method SchemaVersion(parse: string -> Option<Version>) returns (r: Result<Option<Version>, Error>)
      ensures r == ReadSchemaVersion(db, parse)
    {
      if db.marker.None? {
        return Success(None);
      }
      var text := db.marker.value;
      var v := parse(text);
      if v.None? {
        return Failure(ParseFailed(text));
      }
      return Success(Some(v.value));
    }

    method SetSchemaVersion(v: Version, format: Version -> string)
      modifies this
      ensures db == WriteSchemaVersion(old(db), v, format)
    {
      db := db.(marker := Some(format(v)));
    }

    /** `sql(args...)`: one run of the client program. */
    method Sql(args: seq<string>, succeeds: Command -> bool) returns (r: Outcome<Error>)
      modifies this
      ensures db == old(db).(invocations := old(db).invocations + [SqlCommand(opts, args)])
      ensures r == if succeeds(SqlCommand(opts, args)) then Pass
                   else Fail(ProcessFailed(SqlCommand(opts, args)))
    {
      var cmd := SqlCommand(opts, args);
      db := db.(invocations := db.invocations + [cmd]);
      if !succeeds(cmd) {
        return Fail(ProcessFailed(cmd));
      }
      return Pass;
    }

    method DropApiSchema()
      modifies this
      ensures db == old(db).(apiSchema := false)
    {
      db := db.(apiSchema := false);
    }

    method CreateApiSchema()
      modifies this
      ensures db == old(db).(apiSchema := true)
    {
      db := db.(apiSchema := true);
    }

    method MigrateData(target: Version, env: Environment) returns (r: Outcome<Error>)
      modifies this
      ensures (r, db) == MigrateDataEffect(opts, old(db), target, env)
    {
      db := db.(searchPath := Some(DataSchema));
      var recorded := SchemaVersion(env.parse);
      if recorded.Failure? {
        return Fail(recorded.error);
      }
      var current := recorded.value.GetOr(DefaultVersion);
      if current == target {
        return Pass;
      }
      if Less(target, current) {
        return Fail(DowngradeRejected(current, target));
      }
      var dir := MigrationPath(opts);
      if env.migrations.Absent? {
        return Pass;
      }
      if env.migrations.NonDirectory? {
        return Fail(NotADirectory(dir));
      }
      var scanned := ScanMigrations(dir, env.migrations.entries, current, target, env.parse);
      if scanned.Failure? {
        return Fail(ParseFailed(scanned.error));
      }
      r := ApplyPlan(scanned.value, target, env);
    }

    /** One step of the walk: run the script, then, once it succeeded, write `checkpoint`. */
    method RunScript(script: Script, checkpoint: Version, env: Environment) returns (r: Outcome<Error>)
      modifies this
      ensures r == if ScriptSucceeds(opts, env, script) then Pass
                   else Fail(ProcessFailed(ScriptCommand(opts, script.path)))
      ensures db == old(db).(invocations := old(db).invocations + [ScriptCommand(opts, script.path)],
                             marker := if r.Pass? then Some(env.format(checkpoint)) else old(db).marker)
    {
      r := Sql(ScriptArguments(script.path), env.succeeds);
      if r.Pass? {
        SetSchemaVersion(checkpoint, env.format);
      }
    }

    /** The walk over the version-keyed map: run each script, then write its checkpoint. */
    method ApplyPlan(plan: seq<Script>, target: Version, env: Environment) returns (r: Outcome<Error>)
      modifies this
      ensures (r, db) == ApplyScripts(opts, old(db), plan, target, env)
    {
      ghost var db0 := db;
      var i := 0;
      while i < |plan|
        invariant 0 <= i <= |plan|
        invariant forall j :: 0 <= j < i ==> ScriptSucceeds(opts, env, plan[j])
        invariant db == Progress(opts, db0, plan, i, i, target, env)
      {
        ProgressStep(opts, db0, plan, i, target, env);
        r := RunScript(plan[i], if i + 1 == |plan| then target else plan[i].version, env);
        if r.Fail? {
          ApplyScriptsStopsAt(opts, db0, plan, target, env, i);
          return;
        }
        i := i + 1;
      }
      ApplyScriptsStopsAt(opts, db0, plan, target, env, |plan|);
      return Pass;
    }

    method Update(v: Version, env: Environment) returns (r: Outcome<Error>)
      modifies this
      ensures (r, db) == UpdateEffect(opts, old(db), v, env)
    {
      CreateApiSchema();
      var path := ScriptPath(opts, ApiSchema);
      r := Sql(["--file", path], env.succeeds);
      if r.Fail? {
        return;
      }
      SetSchemaVersion(v, env.format);
    }

    method Migrate(version: string, env: Environment) returns (r: Outcome<Error>)
      modifies this
      ensures (r, db) == MigrateEffect(opts, old(db), version, env)
    {
      var parsed := env.parse(version);
      if parsed.None? {
        return Fail(ParseFailed(version));
      }
      var v := parsed.value;
      DropApiSchema();
      r := MigrateData(v, env);
      if r.Fail? {
        return;
      }
      r := Update(v, env);
    }
  }

  // ---------------------------------------------------------------------
  // What the runner guarantees.
  // ---------------------------------------------------------------------

  /** The version library formats `v` into a string it parses back to `v`. */
  predicate FormatsRoundTrip(env: Environment, v: Version) {
    env.parse(env.format(v)) == Some(v)
  }

  /** Writing the marker and reading it back yields the written version. */
  lemma SchemaVersionRoundTrip(db: Database, v: Version, env: Environment)
    requires FormatsRoundTrip(env, v)
    ensures ReadSchemaVersion(WriteSchemaVersion(db, v, env.format), env.parse) == Success(Some(v))
  {
  }

  /** A recorded version equal to the target: nothing runs and nothing is written. */
  lemma MigrateDataNoOp(opts: Options, db: Database, target: Version, env: Environment)
    requires ReadSchemaVersion(db, env.parse).Success?
    requires RecordedVersion(db, env.parse) == target
    ensures MigrateDataEffect(opts, db, target, env) == (Pass, db.(searchPath := Some(DataSchema)))
  {
  }

  /** A recorded version after the target: rejected before any script runs or any marker is written. */
  lemma MigrateDataRejectsDowngrade(opts: Options, db: Database, target: Version, env: Environment)
    requires ReadSchemaVersion(db, env.parse).Success?
    requires Less(target, RecordedVersion(db, env.parse))
    ensures MigrateDataEffect(opts, db, target, env) ==
      (Fail(DowngradeRejected(RecordedVersion(db, env.parse), target)),
       db.(searchPath := Some(DataSchema)))
  {
    LessIrreflexive(target);
  }

  /**
   * Without a migration directory the upgrade succeeds with no script
   * run; a non-directory there is an error.
   */
  lemma MigrateDataWithoutListing(opts: Options, db: Database, target: Version, env: Environment)
    requires ReadSchemaVersion(db, env.parse).Success?
    requires Less(RecordedVersion(db, env.parse), target)
    requires !env.migrations.Listing?
    ensures MigrateDataEffect(opts, db, target, env) ==
      (if env.migrations.Absent? then Pass else Fail(NotADirectory(MigrationPath(opts))),
       db.(searchPath := Some(DataSchema)))
  {
    LessAsymmetric(RecordedVersion(db, env.parse), target);
    LessIrreflexive(target);
  }

  /** `plan` is what `migrate_data` scans from the recorded version of `db` up to `target`. */
  ghost predicate Plans(opts: Options, db: Database, target: Version, env: Environment, plan: seq<Script>) {
    && env.migrations.Listing?
    && ReadSchemaVersion(db, env.parse).Success?
    && Less(RecordedVersion(db, env.parse), target)
    && Scan(MigrationPath(opts), env.migrations.entries, RecordedVersion(db, env.parse), target, env.parse)
       == Success(plan)
  }

  /** With a plan, `migrate_data` is the application of that plan. */
  lemma MigrateDataApplies(opts: Options, db: Database, target: Version, env: Environment,
                           plan: seq<Script>)
    requires Plans(opts, db, target, env, plan)
    ensures MigrateDataEffect(opts, db, target, env) ==
      ApplyScripts(opts, db.(searchPath := Some(DataSchema)), plan, target, env)
  {
    LessAsymmetric(RecordedVersion(db, env.parse), target);
    LessIrreflexive(target);
  }

  /** A successful application ran every script once, in ascending order, and recorded the target. */
  lemma ApplyScriptsSuccess(opts: Options, db: Database, plan: seq<Script>, target: Version,
                            env: Environment)
    requires ApplyScripts(opts, db, plan, target, env).0 == Pass
    ensures var db' := ApplyScripts(opts, db, plan, target, env).1;
      && (forall j :: 0 <= j < |plan| ==> ScriptSucceeds(opts, env, plan[j]))
      && db'.invocations == db.invocations + ScriptCommands(opts, plan)
      && db'.marker == (if plan == [] then db.marker else Some(env.format(target)))
      && db'.searchPath == db.searchPath && db'.apiSchema == db.apiSchema
  {
    assert plan[..|plan|] == plan;
  }

  /**
   * A failed application stopped at the first failing script k: scripts
   * 0..k ran, and the marker holds the version of script k-1, or is
   * untouched when the very first script failed.
   */
  lemma ApplyScriptsFailure(opts: Options, db: Database, plan: seq<Script>, target: Version,
                            env: Environment)
    requires ApplyScripts(opts, db, plan, target, env).0.Fail?
    ensures var k := FirstFailure(opts, plan, env, 0);
      var (r, db') := ApplyScripts(opts, db, plan, target, env);
      && k < |plan|
      && (forall j :: 0 <= j < k ==> ScriptSucceeds(opts, env, plan[j]))
      && !ScriptSucceeds(opts, env, plan[k])
      && r == Fail(ProcessFailed(ScriptCommand(opts, plan[k].path)))
      && db'.invocations == db.invocations + ScriptCommands(opts, plan[..k + 1])
      && db'.marker == (if k == 0 then db.marker else Some(env.format(plan[k - 1].version)))
      && db'.searchPath == db.searchPath && db'.apiSchema == db.apiSchema
  {
  }

  /**
   * For a plan the scan produced (ascending, every version below the
   * target), a checkpoint never passes the target, is at least the version
   * of the script just run, and lies strictly below every script not run yet.
   */
  lemma CheckpointBounds(plan: seq<Script>, k: nat, target: Version)
    requires Ascending(plan) && 1 <= k <= |plan|
    requires forall j :: 0 <= j < |plan| ==> Less(plan[j].version, target)
    ensures LessEq(plan[k - 1].version, Checkpoint(plan, k, target))
    ensures LessEq(Checkpoint(plan, k, target), target)
    ensures forall j :: k <= j < |plan| ==> Less(Checkpoint(plan, k, target), plan[j].version)
  {
  }

  /**
   * Resuming after script k failed (k > 0): the marker reads back as the
   * version of script k-1, and a second `migrate_data`, over the same
   * listing and version library but with client runs that may now succeed
   * (`env2`), applies the plan from script k-1 on. The lower bound is
   * inclusive, so script k-1, which had succeeded, is run again.
   */
  lemma MigrateDataResume(opts: Options, db: Database, target: Version, env: Environment,
                          env2: Environment, plan: seq<Script>)
    requires Plans(opts, db, target, env, plan)
    requires 0 < FirstFailure(opts, plan, env, 0) < |plan|
    requires FormatsRoundTrip(env, plan[FirstFailure(opts, plan, env, 0) - 1].version)
    requires env2.parse == env.parse && env2.format == env.format && env2.migrations == env.migrations
    ensures var k := FirstFailure(opts, plan, env, 0);
      var db' := MigrateDataEffect(opts, db, target, env).1;
      && ReadSchemaVersion(db', env.parse) == Success(Some(plan[k - 1].version))
      && MigrateDataEffect(opts, db', target, env2) ==
         ApplyScripts(opts, db', plan[k - 1..], target, env2)
  {
    var k := FirstFailure(opts, plan, env, 0);
    var entries := env.migrations.entries;
    var current := RecordedVersion(db, env.parse);
    MigrateDataApplies(opts, db, target, env, plan);
    var db' := MigrateDataEffect(opts, db, target, env).1;
    assert db'.marker == Some(env.format(plan[k - 1].version));
    ScanResume(MigrationPath(opts), entries, current, target, env.parse, k - 1);
    ScanSelects(MigrationPath(opts), entries, current, target, env.parse, k - 1);
    assert Plans(opts, db', target, env2, plan[k - 1..]);
    MigrateDataApplies(opts, db', target, env2, plan[k - 1..]);
    assert db'.(searchPath := Some(DataSchema)) == db';
  }

  /**
   * A successful `migrate` leaves the api schema in place and the target
   * recorded, even with no script run.
   */
  lemma MigrateRecordsTarget(opts: Options, db: Database, version: string, env: Environment)
    requires MigrateEffect(opts, db, version, env).0 == Pass
    requires env.parse(version).Some? && FormatsRoundTrip(env, env.parse(version).value)
    ensures var db' := MigrateEffect(opts, db, version, env).1;
      && ReadSchemaVersion(db', env.parse) == Success(Some(env.parse(version).value))
      && db'.apiSchema
      && db'.invocations != [] && db'.invocations[|db'.invocations| - 1] == UpdateCommand(opts)
  {
  }

  /**
   * A `migrate` to an older version fails with the marker and the runs
   * unchanged, but the api schema dropped.
   */
  lemma MigrateRejectsDowngrade(opts: Options, db: Database, version: string, env: Environment)
    requires env.parse(version).Some?
    requires ReadSchemaVersion(db, env.parse).Success?
    requires Less(env.parse(version).value, RecordedVersion(db, env.parse))
    ensures MigrateEffect(opts, db, version, env) ==
      (Fail(DowngradeRejected(RecordedVersion(db, env.parse), env.parse(version).value)),
       db.(apiSchema := false, searchPath := Some(DataSchema)))
  {
    MigrateDataRejectsDowngrade(opts, db.(apiSchema := false), env.parse(version).value, env);
  }

  /** Repeating a successful `migrate` runs no migration script, only the api script again. */
  lemma MigrateIdempotent(opts: Options, db: Database, version: string, env: Environment)
    requires MigrateEffect(opts, db, version, env).0 == Pass
    requires env.parse(version).Some? && FormatsRoundTrip(env, env.parse(version).value)
    ensures var db' := MigrateEffect(opts, db, version, env).1;
      MigrateEffect(opts, db', version, env) ==
      (Pass, db'.(invocations := db'.invocations + [UpdateCommand(opts)]))
  {
    var v := env.parse(version).value;
    var db' := MigrateEffect(opts, db, version, env).1;
    MigrateRecordsTarget(opts, db, version, env);
    MigrateDataNoOp(opts, db'.(apiSchema := false), v, env);
  }
}
