# dbtools schema migration, modelled in Dafny

This project models the schema-migration core of `dbtools`, a C++ tool that brings a
PostgreSQL database from the schema version it records up to an application version.
The model covers four parts:

- **The migration runner** (`migrate`, `migrate_data`, `update` in `src/libdbtools/migrate.cpp`).
  It reads the recorded version, which it stores as the text returned by a
  `data.schema_version()` function inside the database. It does nothing when that version
  equals the target, and it rejects a downgrade. It scans `<sql_directory>/migration` for
  `.sql` files whose stem names a version `v` with `recorded <= v < target`. It keeps them
  in a `std::map` keyed by version, so they come out sorted and a later file overwrites an
  earlier one with the same version. It runs each script through the SQL client. After each
  script it writes a checkpoint: the script's own version, or the target after the last script.
- **The schema-version store** (`schema_version()` and `schema_version(v)`): read and
  write the marker.
- **The process layer** (`src/libdbtools/exec.cpp`): the NUL-terminated argument vector
  built for `execvp`, and how the waited-for child's exit state is classified.
- **The argument lists** the header's `exec` and `sql` helpers build
  (`include/dbtools/postgresql.h`). The model also covers the older synchronous revision in
  `src/libdbtools/postgresql.cpp`: its `exec` prefixing, its `wait_exec` classification,
  and the order of calls in `init`, `update`, `restore`, `analyze` and `dump`.
  That revision does not link with the header shown. It is modelled on its own, in
  module `SyncPostgresql`.

Layout:

| file | module | models |
|---|---|---|
| `wrappers.dfy` | `Wrappers` | `Option`, `Result`, `Outcome` |
| `versions.dfy` | `Versions` | the version order (a total order on `seq<nat>`, compared component by component) |
| `postgresql_header.dfy` | `Dbtools` | `options` and its defaults, schema names, script paths, `exec`/`sql` argument lists |
| `exec.dfy` | `Exec` | `internal::argv` (a class over an `array`), `detail::exec` exit classification |
| `catalog.dfy` | `Catalog` | the directory listing, the version-keyed `std::map` (an ascending sequence), the scan loop |
| `migrate.dfy` | `Migrate` | the runner class with its methods, the effect functions they are proved equal to, and the lemmas about those effects |
| `sync_postgresql.dfy` | `SyncPostgresql` | the older synchronous `postgresql` class |

Each method that changes the runner's state is proved to leave exactly the state an
*effect* function computes from the old state, and to return exactly the outcome that
function computes. For example, `Migrate.Postgresql.MigrateData` matches
`Migrate.MigrateDataEffect`. The lemmas then state what those effects guarantee.

The database is a record. It holds the schema the session's search path is set to, whether the api schema exists,
and the marker text (`None` while no marker function exists). It also holds the log of
client-program runs. Everything outside the runner is an `Environment` value: the version
library's parser (`None` where it throws) and formatter, what lies at the migration
directory's path (absent, not a directory, or a listing in iteration order), and whether
the client program succeeds on a given command line.

Behaviour of the code that the model makes explicit:

- **Resuming reruns a script.** The lower bound is inclusive, and the checkpoint after a
  script that is not the last is that script's own version. So after a failure at script
  k > 0, a second `migrate_data` plans from script k-1 on. Script k-1 already succeeded,
  and it is applied again (`Migrate.MigrateDataResume`). Script k ran and failed. The
  scripts after it have not run.
- **A rejected downgrade drops the api schema.** `migrate` drops the api schema before it
  calls `migrate_data`. So a downgrade rejection leaves the marker and the script log
  unchanged but the api schema dropped (`Migrate.MigrateRejectsDowngrade`).
- **A program that cannot be started looks like a normal exit.** When `execvp` fails, the
  child prints an error message and calls `exit(errno)`, with the `errno` current at `exit`,
  normally the one `execvp` set. The parent then sees a normal exit with status `errno % 256`,
  and reports "exited with code" rather than a separate start-up failure
  (`Exec.FailedExecIsNonzeroExit`).
- **An embedded NUL truncates an argument.** Each argument is copied verbatim, including
  any NUL it holds. A C reader stops at the first NUL, so the program sees exactly
  `[program] + args` only when no string holds a NUL (`Exec.CStringRoundTrip`,
  `Exec.ArgvMirrorsCommandLine`).

## Model

| member | source | states |
|---|---|---|
| `Wrappers.Option.GetOr` | src/libdbtools/migrate.cpp:27-28 | `value_or`: the held value when there is one, the default otherwise |
| `Versions.LessTrichotomy` | src/libdbtools/migrate.cpp:30-44 | any two versions are equal or one precedes the other, so the equal / greater / upgrade cases of `migrate_data` cover everything |
| `Versions.LessTransitive` | src/libdbtools/migrate.cpp:63-64 | precedence is transitive, as a `std::map` key order must be |
| `Versions.LessIrreflexive` | src/libdbtools/migrate.cpp:63-64 | no version precedes itself |
| `Versions.NotLessIsLessEq` | src/libdbtools/migrate.cpp:78-92 | "not after" is "at most", the form the scan's skip tests rely on |
| `Dbtools.DefaultOptions` | include/dbtools/postgresql.h:14-20 | the default tools are `psql`, `pg_dump` and `pg_restore`, with no connection string and no sql directory |
| `Dbtools.Join` | src/libdbtools/migrate.cpp:46 | `dir / name` for a relative name: the result ends in `name`, preceded by `dir` plus one `/` exactly when `dir` is non-empty and does not already end in `/`, so a non-empty `dir` is always followed by a separator |
| `Dbtools.ScriptPath` | src/libdbtools/migrate.cpp:167-168 | a schema script lives at `<sql_directory>/<schema>.sql` and ends in the `.sql` extension |
| `Dbtools.ExecArguments` | src/libdbtools/postgresql.cpp:25-29 | the list is `--dbname`, the connection string, then the caller's arguments verbatim and in order, `n + 2` in all |
| `Dbtools.ExecCommand` | include/dbtools/postgresql.h:44-51 | `exec` runs the given program with `--dbname <conn>` before the forwarded arguments |
| `Dbtools.SqlCommand` | include/dbtools/postgresql.h:59-66 | `sql` runs the client program with `--dbname <conn> --set ON_ERROR_STOP=1 --quiet` before the caller's arguments, `n + 5` arguments in all |
| `Dbtools.SqlCommandInjective` | include/dbtools/postgresql.h:59-66 | the caller's arguments can be recovered from the command line: distinct arguments give distinct runs |
| `Exec.CopyToBuffer` | src/libdbtools/exec.cpp:18-20 | the buffer holds exactly the string's characters followed by one NUL |
| `Exec.CStringRoundTrip` | src/libdbtools/exec.cpp:22-28 | a copied argument reads back unchanged if and only if it holds no NUL of its own |
| `Exec.ArgvSlots` | src/libdbtools/exec.cpp:14-28 | `n + 2` slots: the program's copy, each argument's copy at slot `i` for `args[i-1]`, and a null last |
| `Exec.ArgvNullOnlyAtEnd` | src/libdbtools/exec.cpp:14-16 | a slot is null if and only if it is the terminator at index `n + 1` |
| `Exec.ArgvMirrorsCommandLine` | src/libdbtools/exec.cpp:56-57 | reading the vector up to its null gives exactly `[program] + args` when no string holds a NUL |
| `Exec.Argv.constructor` | src/libdbtools/exec.cpp:10-29 | the freshly allocated array, filled by the loop, equals `ArgvSlots(program, args)` |
| `Exec.ExecOutcome` | src/libdbtools/exec.cpp:85-99 | success exactly on a normal exit with status 0; "did not exit properly" exactly when the child did not exit normally; otherwise "exited with code" carrying the status |
| `Exec.StateAfterFailedExec` | src/libdbtools/exec.cpp:57-60 | a child whose `execvp` failed exits normally with status `errno` as it stands at `exit`, normally the value `execvp` set (kept to its low 8 bits) |
| `Exec.FailedExecIsNonzeroExit` | src/libdbtools/exec.cpp:57-60 | a program that cannot be started is reported as "exited with code errno" |
| `Catalog.Insert` | src/libdbtools/migrate.cpp:95 | `migrations[ver] = path` keeps keys strictly ascending, maps `ver` to `path` (overwriting) and leaves every other key as it was |
| `Catalog.Eligible` | src/libdbtools/migrate.cpp:69-70 | an entry is a migration script exactly when it is a regular file with extension `.sql` |
| `Catalog.EntryPath` | src/libdbtools/migrate.cpp:67 | an entry's path ends in its file name (stem and extension), preceded by the scanned directory and, unless it is empty, exactly one separator |
| `Catalog.Step` | src/libdbtools/migrate.cpp:69-95 | one iteration: fails with the stem exactly when a regular `.sql` file does not parse; stores the script exactly when its version is in `[current, target)`; otherwise leaves the map as it was |
| `Catalog.Scan` | src/libdbtools/migrate.cpp:63-96 | the map built from the listing always has strictly ascending versions, each at most once |
| `Catalog.KeptIffInRange` | src/libdbtools/migrate.cpp:78-92 | the two skip tests keep a version exactly when `current <= ver < target` |
| `Catalog.ScanFailure` | src/libdbtools/migrate.cpp:69-76 | the scan succeeds if and only if every regular `.sql` file has a parsable stem; otherwise it fails with the first unparsable stem in iteration order |
| `Catalog.ScanContents` | src/libdbtools/migrate.cpp:63-96 | for every version, the map holds the path of the last listed script naming it when the version is in `[current, target)`, and nothing otherwise |
| `Catalog.ScanSelects` | src/libdbtools/migrate.cpp:78-95 | every stored script lies in `[current, target)` and is the last script in the listing naming its version |
| `Catalog.ScanResume` | src/libdbtools/migrate.cpp:78-95 | scanning again from the version of the j-th planned script yields exactly the plan from script j on |
| `Catalog.ScanMigrations` | src/libdbtools/migrate.cpp:63-96 | the loop over the listing returns what `Scan` describes, including the parse failure that aborts it |
| `Migrate.ScriptCommand` | src/libdbtools/migrate.cpp:118-122 | a script runs as `psql --dbname <conn> --set ON_ERROR_STOP=1 --quiet --command "SET search_path TO data" --single-transaction --file <path>` |
| `Migrate.SetSearchPath` | src/libdbtools/migrate.cpp:19-22 | the session statement is `SET search_path TO data` |
| `Migrate.MigrationPath` | src/libdbtools/migrate.cpp:46 | the migration directory is `<sql_directory>/migration`: `sql_directory`, one `/` unless it is empty or already ends in one, then `migration` |
| `Migrate.ScriptArguments` | src/libdbtools/migrate.cpp:118-122 | `sql` receives `--command <set search path> --single-transaction --file <path>` for each script |
| `Migrate.UpdateCommand` | src/libdbtools/migrate.cpp:167-169 | `update` runs `psql --dbname <conn> --set ON_ERROR_STOP=1 --quiet --file <sql_directory>/api.sql` |
| `Migrate.ReadSchemaVersion` | src/libdbtools/migrate.cpp:128-146 | the read gives `None` exactly when there is no marker, fails exactly when the marker text does not parse, and otherwise gives the parsed text |
| `Migrate.WriteSchemaVersion` | src/libdbtools/migrate.cpp:148-162 | the marker is replaced by the formatted version and nothing else changes |
| `Migrate.RecordedVersion` | src/libdbtools/migrate.cpp:27-28 | an absent marker counts as the default version |
| `Migrate.FirstFailure` | src/libdbtools/migrate.cpp:112-122 | the index of the first script whose client run fails: every earlier one succeeded |
| `Migrate.Checkpoint` | src/libdbtools/migrate.cpp:124 | after the last script the checkpoint is the target, after any other script that script's own version |
| `Migrate.CheckpointBounds` | src/libdbtools/migrate.cpp:78-124 | for a scanned plan, a checkpoint is at least the version just run, never passes the target, and lies strictly below every script not run yet |
| `Migrate.ApplyScripts` | src/libdbtools/migrate.cpp:109-125 | applying a plan leaves search path and api schema alone, only appends runs, passes exactly when every script succeeds, and fails only with a failed client run |
| `Migrate.Progress` | src/libdbtools/migrate.cpp:118-124 | after `ran` runs of which `done` succeeded, exactly `ran` runs are appended, nothing else but the marker changes, and the marker is untouched while `done` is 0 |
| `Migrate.MigrateDataEffect` | src/libdbtools/migrate.cpp:16-126 | `migrate_data` always sets the search path to the data schema, leaves the api schema alone and only appends client runs |
| `Migrate.UpdateEffect` | src/libdbtools/migrate.cpp:164-172 | `update` creates the api schema and appends exactly the api script's run; it passes exactly when that run succeeds, and only then records the version |
| `Migrate.MigrateEffect` | src/libdbtools/migrate.cpp:8-14 | an unparsable version fails with nothing changed; otherwise the search path is set, runs are only appended, and success leaves the api schema present |
| `Migrate.SchemaVersionRoundTrip` | src/libdbtools/migrate.cpp:133-161 | writing `v` and reading back gives `v`, given the version library formats and parses `v` consistently |
| `Migrate.MigrateDataNoOp` | src/libdbtools/migrate.cpp:27-35 | a recorded version equal to the target succeeds with no script run and no checkpoint written |
| `Migrate.MigrateDataRejectsDowngrade` | src/libdbtools/migrate.cpp:37-44 | a recorded version after the target fails with a downgrade error before any script runs or any marker is written |
| `Migrate.MigrateDataWithoutListing` | src/libdbtools/migrate.cpp:46-61 | a missing migration directory is success with no script run; a path that is not a directory is an error |
| `Migrate.MigrateDataApplies` | src/libdbtools/migrate.cpp:98-125 | once planned, `migrate_data` is the application of the scanned plan |
| `Migrate.ApplyScriptsSuccess` | src/libdbtools/migrate.cpp:109-125 | on success every script ran once, in ascending order, and the target is recorded, or the marker is untouched when there was no script |
| `Migrate.ApplyScriptsFailure` | src/libdbtools/migrate.cpp:112-125 | on failure exactly scripts 0..k ran and k failed; the marker holds script k-1's version, or is untouched when k = 0 |
| `Migrate.MigrateDataResume` | src/libdbtools/migrate.cpp:78-124 | after a failure at script k > 0 the marker reads back as script k-1's version, and a second run over the same listing, with client runs that may now succeed, applies the plan from script k-1 on |
| `Migrate.MigrateRecordsTarget` | src/libdbtools/migrate.cpp:8-14 | a successful `migrate` leaves the target recorded and the api schema present, with the api script as its last run, even when no migration script ran |
| `Migrate.MigrateRejectsDowngrade` | src/libdbtools/migrate.cpp:8-14 | `migrate` to an older version fails with marker and runs unchanged and the api schema dropped |
| `Migrate.MigrateIdempotent` | src/libdbtools/migrate.cpp:8-14 | repeating a successful `migrate` runs no migration script: the only change is one more run of the api script |
| `Migrate.Postgresql.constructor` | include/dbtools/postgresql.h:70 | the runner keeps the options it is built with and starts from the given database state |
| `Migrate.Postgresql.SchemaVersion` | src/libdbtools/migrate.cpp:128-146 | returns exactly `ReadSchemaVersion` of the current database |
| `Migrate.Postgresql.SetSchemaVersion` | src/libdbtools/migrate.cpp:148-162 | the database becomes `WriteSchemaVersion` of the old one |
| `Migrate.Postgresql.Sql` | include/dbtools/postgresql.h:59-66 | appends the `sql` command line to the run log and fails exactly when that run does not succeed |
| `Migrate.Postgresql.DropApiSchema` | src/libdbtools/migrate.cpp:11 | only the api schema's presence changes, to absent |
| `Migrate.Postgresql.CreateApiSchema` | src/libdbtools/migrate.cpp:165 | only the api schema's presence changes, to present |
| `Migrate.Postgresql.MigrateData` | src/libdbtools/migrate.cpp:16-126 | result and new state are exactly `MigrateDataEffect` of the old state |
| `Migrate.Postgresql.RunScript` | src/libdbtools/migrate.cpp:118-124 | one step of the walk: the script's client run is appended; the checkpoint is written only when that run succeeded, and the outcome says whether it did |
| `Migrate.Postgresql.ApplyPlan` | src/libdbtools/migrate.cpp:109-125 | the walk over the map, with loop invariants on the ran prefix and the checkpoint, gives exactly `ApplyScripts` |
| `Migrate.Postgresql.Update` | src/libdbtools/migrate.cpp:164-172 | result and new state are exactly `UpdateEffect`: api schema created, api script run, target recorded only if it succeeded |
| `Migrate.Postgresql.Migrate` | src/libdbtools/migrate.cpp:8-14 | result and new state are exactly `MigrateEffect`: parse, drop api schema, `migrate_data`, then `update` |
| `SyncPostgresql.WaitExecOutcome` | src/libdbtools/postgresql.cpp:70-91 | success exactly on a normal exit with status 0; a nonzero exit carries its status; killed or dumped carries the signal; anything else "did not succeed" |
| `SyncPostgresql.WaitExecRefinesExecOutcome` | src/libdbtools/postgresql.cpp:70-91 | the older classification agrees with `detail::exec` on success and nonzero exits, and splits its "did not exit properly" into signal and other |
| `SyncPostgresql.Postgresql.constructor` | src/libdbtools/postgresql.cpp:10 | keeps the options; nothing has run yet |
| `SyncPostgresql.Postgresql.Perform` | src/libdbtools/postgresql.cpp:48-51 | each `$` or `sql` call is recorded once, in order, and a failure is reported so the caller stops there, as the exception does |
| `SyncPostgresql.Postgresql.Analyze` | src/libdbtools/postgresql.cpp:12-14 | runs the client program with `--command ANALYZE` |
| `SyncPostgresql.Postgresql.Dump` | src/libdbtools/postgresql.cpp:16-19 | runs the dump program with `--format custom --file <file>` |
| `SyncPostgresql.Postgresql.Exec` | src/libdbtools/postgresql.cpp:21-32 | hands the process layer `--dbname <conn>` followed by the caller's arguments in order |
| `SyncPostgresql.Postgresql.ExecClient` | src/libdbtools/postgresql.cpp:34-38 | the single-list overload always runs the client program |
| `SyncPostgresql.Postgresql.Init` | src/libdbtools/postgresql.cpp:40-46 | runs `<sql_directory>/data.sql`, then, only if that succeeded, `update` |
| `SyncPostgresql.Postgresql.Restore` | src/libdbtools/postgresql.cpp:48-51 | runs the restore program with `--clean --if-exists <file>`, then, only if that succeeded, `ANALYZE` |
| `SyncPostgresql.Postgresql.Update` | src/libdbtools/postgresql.cpp:53-57 | runs `<sql_directory>/api.sql` |
| `SyncPostgresql.Postgresql.WaitExec` | src/libdbtools/postgresql.cpp:59-92 | the child runs `exec(program, args)`; the result is `WaitExecOutcome` of the child's exit state |

## Left out

- Process control: `fork`, `wait`, `execvp`, `sigemptyset`/`sigprocmask`, `exit`. These are operating system calls. The child's exit state, and for `execvp` failures the `errno` current at `exit`, are inputs; whether printing the error message changed `errno` is not modelled.
- The `ext::task` coroutines. Every `co_await` is a sequential call, because the asynchronous machinery is concurrency and the order of calls is what the model keeps.
- The PostgreSQL client (`client()`, `client_storage`, `exec`, `fetch`). It is a foreign library, so the model has no connection errors. Its existence query finds a `schema_version` function in any schema; the model has the one marker in `data`. No SQL text is interpreted.
- SQL quoting of the version text inside the marker function. The version library's output is taken as safe.
- The version library (`verp`). Parsing and formatting are `Environment` functions, and order is component-wise on `seq<nat>`. The default version is written `0.0.0`; only its being a fixed value matters to the proofs.
- `std::filesystem`. It is a library and the listing is an input. `Dbtools.Join` covers relative names only. Entries arrive with stem and extension already split.
- Log output and message text (`TIMBER_*`, `fmt`). Errors carry only their kind and the status, signal, version or command line.
- The `argv` destructor and `data()` accessor. The destructor never runs on the path that matters, because `exit` does not unwind. Its loop tests the cursor rather than the slot. `data()` is direct access to `handle`.
- Argument counts beyond the range of the `int` loop counter in `argv`. They are outside any real command line.
- `create_api_schema`, `drop_api_schema`, `create_schema` and `drop_schema` are not part of this model; their bodies are not in the sources. They are modelled only as making the api schema present or absent, and they never fail.
- `init(version)`, `reset(version)`, `dump`, `restore`, `analyze` and `api_schema_name` of the asynchronous revision are not part of this model; their bodies are not in the sources.
- The `$` helper and the `sql` helper of the synchronous revision are not part of this model; their headers are not in the sources. `SyncPostgresql` records each call with the literal tokens of its call site, plus an abstract success, instead of expanding it.
- SyncPostgresql.Postgresql.Exec: records the argument list handed to `ext::exec` but not that call's own outcome. `ext::exec` is a foreign library.
