/**
 * The process layer of the asynchronous revision: the NUL-terminated
 * argument vector handed to `execvp`, and the classification of the
 * child's exit state once it has been waited for.
 */
module Exec {
  import opened Wrappers

  const NUL: char := '\0'

  /** A `char*` slot of the vector: null, or the characters of the buffer it points to. */
  type Slot = Option<seq<char>>

  /** A fresh buffer holding the characters of `s` followed by a terminating NUL. */
  function CopyToBuffer(s: string): (b: seq<char>)
    ensures |b| == |s| + 1 && b[..|s|] == s && b[|s|] == NUL
  {
    s + [NUL]
  }

  /** The string a C reader sees in a buffer: the characters before the first NUL. */
  function ReadCString(b: seq<char>): (s: string)
    ensures |s| <= |b| && s == b[..|s|]
    ensures NUL !in s
    ensures |s| < |b| ==> b[|s|] == NUL
  {
    if b == [] || b[0] == NUL then [] else [b[0]] + ReadCString(b[1..])
  }

  /** A copied argument reads back unchanged exactly when it holds no NUL of its own. */
  lemma {:induction false} CStringRoundTrip(s: string)
    ensures ReadCString(CopyToBuffer(s)) == s <==> NUL !in s
  {
    if s != [] && s[0] != NUL {
      assert CopyToBuffer(s)[1..] == CopyToBuffer(s[1..]);
      CStringRoundTrip(s[1..]);
      assert s == [s[0]] + s[1..];
    }
  }

  /** The slots for the arguments, one copied buffer each. */
  function ArgumentSlots(args: seq<string>): (v: seq<Slot>)
    ensures |v| == |args|
    ensures forall i :: 0 <= i < |args| ==> v[i] == Some(CopyToBuffer(args[i]))
  {
    if args == [] then [] else [Some(CopyToBuffer(args[0]))] + ArgumentSlots(args[1..])
  }

  /** The whole vector: the program, each argument, then the null terminator. */
  function ArgvSlots(program: string, args: seq<string>): (v: seq<Slot>)
    ensures |v| == |args| + 2
    ensures v[0] == Some(CopyToBuffer(program))
    ensures forall i :: 1 <= i <= |args| ==> v[i] == Some(CopyToBuffer(args[i - 1]))
    ensures v[|args| + 1] == None
  {
    [Some(CopyToBuffer(program))] + ArgumentSlots(args) + [None]
  }

  /** What `execvp` reads from a vector: the strings of the slots before the first null. */
  function ReadArgv(v: seq<Slot>): (r: seq<string>)
    ensures |r| <= |v|
  {
    if v == [] || v[0].None? then [] else [ReadCString(v[0].value)] + ReadArgv(v[1..])
  }

  /** Only the terminator is null: every slot before it is filled. */
  lemma ArgvNullOnlyAtEnd(program: string, args: seq<string>, i: nat)
    requires i < |args| + 2
    ensures ArgvSlots(program, args)[i].None? <==> i == |args| + 1
  {
  }

  lemma {:induction false} ReadArgumentSlots(args: seq<string>)
    requires forall i :: 0 <= i < |args| ==> NUL !in args[i]
    ensures ReadArgv(ArgumentSlots(args) + [None]) == args
  {
    if args != [] {
      var head, rest := args[0], args[1..];
      assert NUL !in head;
      assert forall i :: 0 <= i < |rest| ==> NUL !in rest[i] by {
        forall i | 0 <= i < |rest| ensures NUL !in rest[i] {
          assert rest[i] == args[i + 1];
        }
      }
      var tail := ArgumentSlots(rest) + [None];
      var v := [Some(CopyToBuffer(head))] + tail;
      assert ArgumentSlots(args) + [None] == v;
      assert v[1..] == tail;
      CStringRoundTrip(head);
      ReadArgumentSlots(rest);
      assert ReadArgv(v) == [head] + ReadArgv(tail);
      assert args == [head] + rest;
    }
  }

  /**
   * The program sees exactly `[program] + args` as its command line, as
   * long as no string holds a NUL of its own (a C reader stops there).
   */
  lemma ArgvMirrorsCommandLine(program: string, args: seq<string>)
    requires NUL !in program
    requires forall i :: 0 <= i < |args| ==> NUL !in args[i]
    ensures ReadArgv(ArgvSlots(program, args)) == [program] + args
  {
    var v := ArgvSlots(program, args);
    CStringRoundTrip(program);
    assert v[1..] == ArgumentSlots(args) + [None];
    ReadArgumentSlots(args);
  }

  /** The argument vector of one `execvp` call. */
  class Argv {
    const handle: array<Slot>

    constructor (program: string, args: seq<string>)
      ensures fresh(handle)
      ensures handle[..] == ArgvSlots(program, args)
    {
      var n := |args|;
      var h := new Slot[n + 2];
      h[n + 1] := None;
      h[0] := Some(CopyToBuffer(program));
      for i := 1 to n + 1
        invariant h[0] == Some(CopyToBuffer(program)) && h[n + 1] == None
        invariant forall j :: 1 <= j < i ==> h[j] == Some(CopyToBuffer(args[j - 1]))
      {
        h[i] := Some(CopyToBuffer(args[i - 1]));
      }
      handle := h;
      assert h[..] == ArgvSlots(program, args);
    }
  }

  /** How the waited-for child ended (the `si_code` of its exit notification). */
  datatype ChildCode = Exited | Killed | Dumped | Trapped | Stopped | Continued

  /** The child's exit state: how it ended and the accompanying status or signal. */
  datatype ChildState = ChildState(code: ChildCode, status: int)

  datatype ExecError =
    | DidNotExitProperly(program: string)
    | ExitedWithCode(program: string, status: int)

  /** The verdict on a waited-for child: only a normal exit with status 0 succeeds. */
  function ExecOutcome(program: string, state: ChildState): (r: Outcome<ExecError>)
    ensures r.Pass? <==> state.code == Exited && state.status == 0
    ensures r.Fail? ==> r.error.program == program
    ensures r.Fail? && r.error.DidNotExitProperly? <==> state.code != Exited
    ensures r.Fail? && r.error.ExitedWithCode? ==> state.code == Exited && r.error.status == state.status
  {
    if state.code != Exited then Fail(DidNotExitProperly(program))
    else if state.status != 0 then Fail(ExitedWithCode(program, state.status))
    else Pass
  }

  /**
   * The state a child leaves when `execvp` fails and it calls `exit(errno)`:
   * `errno` is the value current at `exit`, normally the one `execvp` set
   * (the error message printed in between may change it).
   */
  function StateAfterFailedExec(errno: int): (s: ChildState)
    ensures s.code == Exited && 0 <= s.status < 256
    ensures 0 <= errno < 256 ==> s.status == errno
  {
    ChildState(Exited, errno % 256)
  }

  /** A program that cannot be started is reported as a nonzero exit carrying the error number. */
  lemma FailedExecIsNonzeroExit(program: string, errno: int)
    requires 0 < errno < 256
    ensures ExecOutcome(program, StateAfterFailedExec(errno)) == Fail(ExitedWithCode(program, errno))
  {
  }
}
