/**
 * The declarations of the `postgresql` class header: its options and their
 * defaults, the schema names and script extension, and the argument lists
 * its `exec` and `sql` helpers hand to the external client programs.
 */
module Dbtools {

  /** The connection and tool settings a `postgresql` object is built with. */
  datatype Options = Options(
    clientProgram: string,
    connectionString: string,
    dumpProgram: string,
    restoreProgram: string,
    sqlDirectory: string)

  /** A value-initialised `options`: the three tools by their usual names, nothing else set. */
  function DefaultOptions(): (o: Options)
    ensures o.clientProgram == "psql" && o.dumpProgram == "pg_dump" && o.restoreProgram == "pg_restore"
    ensures o.connectionString == "" && o.sqlDirectory == ""
  {
    Options("psql", "", "pg_dump", "pg_restore", "")
  }

  const ApiSchema: string := "api"
  const DataSchema: string := "data"
  const SqlExtension: string := ".sql"

  /** One run of an external program: the program and its arguments, in order. */
  datatype Command = Command(program: string, args: seq<string>)

  /**
   * `dir / name` for a relative file name: one separator between the two
   * parts, none added when `dir` is empty or already ends in one.
   */
  function Join(dir: string, name: string): (p: string)
    ensures |p| >= |name| && p[|p| - |name|..] == name
    ensures p[..|p| - |name|] == if dir != [] && dir[|dir| - 1] != '/' then dir + "/" else dir
    ensures dir != [] ==> p[|p| - |name| - 1] == '/'
  {
    if dir == [] || dir[|dir| - 1] == '/' then dir + name else dir + "/" + name
  }

  /** Where the bootstrap script of a schema lives: `<sql_directory>/<schema>.sql`. */
  function ScriptPath(opts: Options, schema: string): (p: string)
    ensures p == Join(opts.sqlDirectory, schema + SqlExtension)
    ensures |p| >= |SqlExtension| && p[|p| - |SqlExtension|..] == SqlExtension
  {
    var name := schema + SqlExtension;
    var p := Join(opts.sqlDirectory, name);
    assert name[|schema|..] == SqlExtension;
    assert p[|p| - |SqlExtension|..] == p[|p| - |name|..][|schema|..];
    p
  }

  /** The connection selector followed by the caller's arguments, verbatim and in order. */
  function ExecArguments(connectionString: string, args: seq<string>): (r: seq<string>)
    ensures |r| == |args| + 2
    ensures r[0] == "--dbname" && r[1] == connectionString
    ensures r[2..] == args
  {
    ["--dbname", connectionString] + args
  }

  /** What `exec(program, args...)` runs. */
  function ExecCommand(opts: Options, program: string, args: seq<string>): (c: Command)
    ensures c.program == program
    ensures |c.args| == |args| + 2
    ensures c.args[..2] == ["--dbname", opts.connectionString] && c.args[2..] == args
  {
    Command(program, ExecArguments(opts.connectionString, args))
  }

  /** What `sql(args...)` runs: the client program, stopping at the first SQL error, quietly. */
  function SqlCommand(opts: Options, args: seq<string>): (c: Command)
    ensures c.program == opts.clientProgram
    ensures |c.args| == |args| + 5
    ensures c.args == ["--dbname", opts.connectionString, "--set", "ON_ERROR_STOP=1", "--quiet"] + args
  {
    var c := ExecCommand(opts, opts.clientProgram, ["--set", "ON_ERROR_STOP=1", "--quiet"] + args);
    assert c.args == c.args[..2] + c.args[2..];
    c
  }

  /** Distinct caller arguments give distinct client command lines. */
  lemma SqlCommandInjective(opts: Options, a: seq<string>, b: seq<string>)
    requires SqlCommand(opts, a) == SqlCommand(opts, b)
    ensures a == b
  {
    assert a == SqlCommand(opts, a).args[5..];
    assert b == SqlCommand(opts, b).args[5..];
  }
}
