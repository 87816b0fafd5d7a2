# database_backup: a verified model of `app.js`

`app.js` is a MySQL backup script. At load time it names a run directory
after the current date and time (`DIR_BACKUPS/YYYY-MM-DD HHmmss`) and creates
it. Then `backup()` runs:

1. It checks the environment variables `DIR_DATABASES` and `DIR_BACKUPS`.
2. It reads and parses the JSON connection file.
3. For every connection, in file order, it normalises the descriptor into a
   record `db`, with defaults and a list of database names gathered from
   `database` and `databases`.
4. For an active connection, it awaits `backupDatabase` once per database,
   in list order. `backupDatabase` creates `run dir/host` and runs
   `mysqldump` into `<dir_bkp>\<database>.sql`.
5. A failed dump is only logged; the promise still resolves.

The model is written in Dafny, one module per part of the script:

- `Wrappers`: `Option` and `Result`.
- `JsStrings`: `String.prototype.split` and `Array.prototype.join` on one
  separator character, with their round trip.
- `JsValues`: the JSON values a connection file can hold. It also gives the
  JavaScript semantics the script relies on: `??`, truthiness, `typeof`,
  property access yielding `undefined`, and `String()` as a template literal
  applies it.
- `Timestamp`: `datetime()` over the clock's components, with a decoder for
  run-directory names. The decoder shows the name carries every component.
- `Paths`: the prefixes `createDir` walks, and `path.join` of two pieces.
- `Directories`: the file system as a `FileSystem` object holding a set of
  paths, and `createDir` as a loop over it.
- `Normalize`: the normalisation block, both as a function and as the
  method that pushes onto `db.databases` step by step.
- `Dump`: the `mysqldump` command line.
- `Orchestrator`:
  - `backupDatabase`, the two nested loops of `backup()`, `backup()` itself
    and the top level of the script;
  - `BackupPlan`, the reference definition of what a run attempts, creates
    and how it settles;
  - the lemmas about order, skipping, failure and positions.

The clock and `mysqldump` are inputs:

- The clock is a `Clock` value.
- `mysqldump` is an oracle `dumpSucceeds: nat -> bool`. It says whether the
  n-th dump of the run succeeds.
- The connection file arrives already read and parsed, as a `ConfigRead`.

`BackupPlan` does not take the oracle. `Backup` is proved to attempt exactly
`BackupPlan`'s dumps, create exactly its directories and settle as it says.
So no dump outcome changes which dumps are attempted or how the run settles.

Behaviour of the code that a reader of its description might not expect, and
that the model follows:

- The run directory is created at load time (app.js:6-7). This happens before
  `backup()` checks `DIR_DATABASES` or reads the file. So a run that rejects
  for a missing variable or a bad file still leaves the run directory behind.
  What it never creates is a host directory.
- With `DIR_BACKUPS` unset, `path.join(undefined, …)` throws at load time.
  `RunScript` returns `StartupCrash`, and nothing is created or attempted.
- The command is exactly `mysqldump -h <host> -u <user> -p<password>
  --skip-column-statistics <database> > "<dir_bkp>\<database>.sql"`.
  It has no other flags. The separator before the file name is a literal
  backslash on every platform.
- `createDir(dir_bkp)` runs once per database, not once per connection. Later
  calls find the directories present and create nothing.
- The script has no retention or pruning of old runs.
- `for … of` over a parsed top-level string visits its characters.
- A `database` or `databases` field that is `null`, or a non-array object,
  makes the spread `push(...x)` throw (app.js:81, 84). A `null` or missing
  connection throws earlier, when `connection.active` is read (app.js:67).
  The loop is outside the `try`, so in both cases `backup()` rejects and the
  dumps of earlier connections stand.
- An active connection with databases whose `host` is not a string makes
  `path.join` throw in `backupDatabase`. `backup()` rejects in the same way.

## Model

| member | source | states |
|---|---|---|
| JsStrings.Split | app.js:35 | `dir.split(sep)` gives at least one piece, and no piece holds the separator |
| JsStrings.Join | app.js:38 | `parts.join(sep)` begins with the first piece; `JoinSplit` and `JoinAppend` state the rest |
| JsStrings.JoinSplit | app.js:35-38 | joining the pieces of `split(sep)` with `sep` gives the path back |
| JsStrings.SplitAppend | app.js:35 | splitting `a + sep + b` gives the pieces of `a` followed by those of `b` |
| JsStrings.SplitWithoutSeparator | app.js:35 | a string with no separator splits into itself alone |
| JsStrings.JoinAppend | app.js:38 | joining two non-empty lists of pieces is joining each and putting one separator between |
| Timestamp.NatText | app.js:25-29 | computes `String(n)` for a natural number: at least one character, all decimal digits; `NatTextRoundTrip` reads it back |
| Timestamp.IntText | app.js:24-31 | computes `${year}`, `String(n)` for any integer: a minus sign before the digits of a negative number |
| Timestamp.TwoDigits | app.js:25-29 | computes `String(n).padStart(2, '0')`; stated by `TwoDigitsRoundTrip` |
| Timestamp.PadStart | app.js:25-29 | `padStart` leaves a string already as wide as asked unchanged, and otherwise puts exactly the missing number of fill characters in front |
| Timestamp.NatTextRoundTrip | app.js:25-31 | the decimal text of a number reads back as that number |
| Timestamp.NatTextLength | app.js:24-31 | a number below 10, 100, 1000 or 10000 is written with 1, 2, 3 or 4 digits |
| Timestamp.TwoDigitsRoundTrip | app.js:25-29 | every number below 100 is padded to exactly two digits that read back as the number |
| Timestamp.DatetimeLength | app.js:21-32 | the run name is 13 characters longer than the year's text, so 17 characters for a four-digit year |
| Timestamp.Datetime | app.js:21-32 | `datetime()`: for a four-digit year the name has the layout `YYYY-MM-DD HHmmss` and a separate decoder reads it back as the year, month + 1, day, hour, minute and second |
| Timestamp.DatetimeInjective | app.js:21-32 | two clocks with four-digit years give the same run name only if they are the same |
| Timestamp.DatetimeCharacters | app.js:21-32 | the run name holds only digits, `-`, and a space, so no path separator |
| Paths.PrefixPaths | app.js:37-38 | `part.slice(0, i).join(sep)` for i = 1 .. `part.length`: one path per piece, the last being the path itself |
| Paths.PathJoin | app.js:99 | `path.join` of two pieces: when both are non-empty, the pieces of the result are the pieces of the first followed by those of the second; an empty piece adds nothing, and two empty pieces give `.` |
| Paths.PrefixPathsAreAncestors | app.js:35-38 | `createDir` visits one path per piece, shortest first; the last is the path itself, each earlier one is a proper prefix of it that stops just before a separator, and every cut of the path just before a separator is visited |
| Paths.CutIsPrefixPath | app.js:35-38 | the path cut just before a separator is the prefix path made of the pieces before that separator |
| Paths.PathJoinSegments | app.js:99 | joining a further name onto a path of non-empty pieces keeps every piece non-empty |
| Directories.FileSystem.Exists | app.js:40 | computes `fs.existsSync(p)`: the path is an entry of the file system |
| Directories.FileSystem.MkDir | app.js:41 | `mkdirSync` adds exactly the one new path |
| Directories.CreateDir | app.js:34-44 | afterwards the file system holds exactly what it held before plus every left-to-right prefix of the path; the path exists; a call whose prefixes all exist changes nothing |
| Normalize.StringPart | app.js:74-79 | computes what a `typeof x == 'string'` push adds: the field itself when it is a string, otherwise nothing |
| Normalize.ListPart | app.js:80-85 | computes what a `typeof x == 'object'` spread push adds: nothing for a non-object, the elements of an array, and a TypeError for `null` or a plain object |
| Normalize.Normalized | app.js:66-85 | the reference definition of the record `db`: a TypeError for a nullish connection or a bad list field, otherwise the `??` defaults and the four sources of database names in push order; stated by `NormalizeDefaults`, `NormalizeFailsIff` and `DatabasesSources` |
| Normalize.NormalizeConnection | app.js:66-85 | the field assignments and the four guarded pushes build exactly the record `Normalized` describes, including the TypeErrors |
| Normalize.NormalizeDefaults | app.js:67-71 | `active` is `active ?? true`, so an absent one becomes `true` and an explicit `false` stays; `host` and `user` are the given value `?? ''`; `title` is `title ?? host ?? ''`; `password` is `password ?? pwd ?? ''` |
| Normalize.NormalizeFailsIff | app.js:66-85 | normalisation throws exactly when the connection is null or undefined, or `database` or `databases` is `null` or an object that is not an array |
| Normalize.DatabasesSources | app.js:73-85 | a value is in `db.databases` exactly when it is a string field or an element of a list field, and the length is the sum of the four contributions, so nothing is dropped |
| Normalize.DuplicatesKept | app.js:73-85 | a name given both as `database` and inside `databases` appears twice |
| Normalize.SingularBeforePlural | app.js:67-85 | `{host db1, user u, password p, database "a", databases ["b","c"]}` becomes an active target titled `db1` with databases a, b, c in that order |
| Normalize.StringsBeforeLists | app.js:73-85 | both string fields come before both list fields, whichever field holds the list |
| Dump.OutputFile | app.js:108 | computes the redirection target `<dir_bkp>\<database>.sql`, with a literal backslash on every platform; stated by `CommandShape` |
| Dump.Command | app.js:108 | computes the command string from host, user, password, database and `dir_bkp`; its layout is stated by `CommandShape` |
| Dump.DumpAttempt | app.js:99-108 | computes the attempt record: the host, the database as text, and the command with user, password and database turned into text as the template literal does; stated through `CommandShape` and `BackupDatabase` |
| Dump.CommandShape | app.js:108 | the command is the fixed head with host, user and password, then the database, then the redirection to `<dir_bkp>\<database>.sql` |
| Dump.CommandDistinct | app.js:108 | two different database names of one connection give different command strings and different output path strings |
| JsValues.Coalesce | app.js:67-71 | computes `a ?? b`: `b` when `a` is `null` or `undefined`, otherwise `a`; stated by `NormalizeDefaults` |
| JsValues.TypeOf | app.js:74-83 | computes `typeof v`: `null`, arrays and objects are all `"object"`; used by `ListPart` and `NormalizeFailsIff` |
| JsValues.Get | app.js:67-84 | computes the property read `v.key` on a value that is not nullish: the field when an object holds it, otherwise `undefined` |
| JsValues.ToText | app.js:103-108 | computes `String(v)` as a template literal applies it: strings as they are, numbers by `String(n)`, `null`, `undefined`, `true`/`false`, arrays joined with "," with `null`/`undefined` elements empty, objects as `[object Object]`; used by `DumpAttempt` |
| JsValues.Truthy | app.js:89 | computes `if (db.active)`: `false`, `null`, `undefined`, `0` and `""` are falsy, everything else (arrays and objects included) truthy; used by `StepConnection` and `InactiveSkipped` |
| Orchestrator.IsSet | app.js:47-54 | computes `!process.env.X` negated: the variable is set and not empty; used by `BackupPlan` and `RejectsBeforeAnyDump` |
| Orchestrator.ConnectionList | app.js:65 | `for (const connection of connections)` succeeds exactly for an array or a string; an array gives its own elements in order, a string one one-character string per character, in order |
| Orchestrator.RunDir | app.js:6 | computes `path.join(DIR_BACKUPS, datetime())` |
| Orchestrator.DumpsOf | app.js:90-93 | computes the dumps of one connection: one `DumpAttempt` per database, in list order; stated by `StepAttempts` |
| Orchestrator.StepConnection | app.js:66-94 | the reference definition of one turn of the loop: a normalisation error rejects; an inactive connection or one without databases does nothing; a non-string host rejects; otherwise the dumps of its databases and the prefixes of `run dir/host`; stated by `StepFailsIff`, `InactiveSkipped` and `StepAttempts` |
| Orchestrator.PlanConnections | app.js:65-95 | the reference definition of the connection loop: the turns in file order, stopping at the first that fails; stated by `FailureSticks`, `CompletesIffAllOk`, `StopsAtFirstBadConnection` and `AttemptPositions` |
| Orchestrator.BackupPlan | app.js:46-96 | the reference definition of `backup()`, with no oracle: the two variable checks, the file, iteration over the document, then the connection loop; stated by `RejectsBeforeAnyDump` |
| Orchestrator.BackupDatabase | app.js:98-119 | with a string host it creates every prefix of `run dir/host`, attempts the command for that directory, and reports the oracle's outcome without failing; with any other host it rejects and changes nothing |
| Orchestrator.BackupConnection | app.js:65-94 | one turn of the connection loop attempts, creates and fails exactly as `StepConnection` says; the outcomes reported are the oracle's, numbered from the dumps already made |
| Orchestrator.BackupConnections | app.js:65-95 | the connection loop attempts, creates and settles exactly as `PlanConnections` of the normalised connections says; the n-th outcome is the oracle's n-th answer |
| Orchestrator.Backup | app.js:46-96 | `backup()` settles, attempts and creates exactly what `BackupPlan` says, which does not depend on any dump's outcome |
| Orchestrator.RunScript | app.js:6-7 | with `DIR_BACKUPS` unset the script crashes before doing anything; otherwise it creates the run directory's prefixes and then does what `BackupPlan` says |
| Orchestrator.NormalizedHostPathOk | app.js:69-100 | the path condition on hosts binds only connections that reach `backupDatabase`: an inactive connection or one without databases meets it whatever its host, and so does any connection whose raw host is absent, not a string, empty or made of non-empty pieces |
| Orchestrator.RejectsBeforeAnyDump | app.js:46-62 | a missing variable or an unreadable or unparsable file rejects with that reason before any host directory is created or any dump attempted |
| Orchestrator.FailureSticks | app.js:65-95 | once a connection has thrown, later connections change nothing |
| Orchestrator.StepFailsIff | app.js:65-99 | one turn fails exactly when its connection does not normalise, or is active with databases and a host that is not a string |
| Orchestrator.CompletesIffAllOk | app.js:65-95 | the loop completes exactly when no connection throws, whatever the dumps do |
| Orchestrator.StopsAtFirstBadConnection | app.js:65-95 | the run keeps the dumps and directories of the connections before the first bad one and rejects with that connection's error |
| Orchestrator.InactiveSkipped | app.js:89 | an inactive connection adds no dump, no directory and no error |
| Orchestrator.StepAttempts | app.js:89-93 | the dumps of one connection are its databases in list order |
| Orchestrator.AttemptCount | app.js:65-95 | a completed run attempts one dump per database of each active connection |
| Orchestrator.AttemptsExtend | app.js:65-95 | the dumps of a completed run begin with the dumps of the run over all but its last connection |
| Orchestrator.AttemptAtLast | app.js:89-93 | in a completed run, the j-th database of the last connection is dump number (dumps of the connections before it) + j |
| Orchestrator.AttemptAt | app.js:65-95 | in a completed run, the j-th database of connection k is dump number (dumps of connections before k) + j |
| Orchestrator.AttemptPositions | app.js:65-95 | a completed run attempts exactly one dump per (active connection, database) pair, connections in file order and databases in list order |

## Left out

- Logging is not modelled: the `console.log` override, the log file `logs.txt` in the run directory, the localised timestamps and the emoji lines (app.js:9-19, 87-88, 102-105, 112-114, 123-131).
- Orchestrator.RunScript: the files the script writes are not entries of the model's file system. These are the log file and the dump files. Only directories are tracked.
- `dotenv` is not modelled. The environment is an `Env` value (app.js:1).
- `fs.readFileSync` and `JSON.parse` are not modelled. Their result is a `ConfigRead`: read failed, parse failed, or a parsed JSON value (app.js:58).
- `new Date()` is not modelled. Its components are a `Clock` value, and the time zone is taken as already applied (app.js:22-29).
- `child_process.exec` and `mysqldump` are not modelled. An oracle indexed by dump number gives each outcome. The output and error text are only logged, so they are left out (app.js:110-117).
- Paths.PathJoin: `path.join`'s normalisation is not modelled, so `PathJoin` joins two pieces with one separator. That normalisation collapses `..`, `.` and repeated separators, and on Windows it also turns `/` into `\`. So with the separator `\`, a host `a/b` is one directory in the model but two nested directories in the script (app.js:99). The one normalisation it does model is that two empty pieces give `.`; the script never reaches that case.
- Directories.CreateDir: `path.sep` is a separator parameter.
- Directories.CreateDir: requires every piece of the path to be non-empty. Only a leading separator (an absolute POSIX path) makes the first prefix `''`, so that `mkdirSync('')` throws; that error path is not modelled. A doubled or trailing separator works in the script, because `existsSync("a/")` finds the directory `a`. Such paths are outside the model, because its set of path strings does not identify `"a/"` with `"a"`.
- Orchestrator.RunScript: requires that DIR_BACKUPS and the string host of every connection that dumps consist of non-empty pieces. This follows from the restriction on `CreateDir`.
- Orchestrator.Backup: requires `HostsPathOk`: the string host of every active connection with databases is empty or made of non-empty pieces. Hosts such as `/db1`, `db1/` or `a//b`, which `path.join` (app.js:99) accepts, are not covered, because `CreateDir` needs non-empty pieces. Inactive connections and connections without databases are not constrained (`NormalizedHostPathOk`).
- Orchestrator.BackupConnections: requires the same host condition as `Backup`, for each connection of the list, for the same reason.
- Orchestrator.BackupConnection: requires the same host condition as `Backup`, for its one connection, for the same reason.
- Orchestrator.BackupDatabase: requires a string host that is empty or made of non-empty pieces, and a run directory made of non-empty pieces, for the same reason.
- `fs.existsSync` finding a plain file where a directory is wanted, and `mkdirSync` failing for permissions, are not modelled.
- A parsed top-level document that is neither an array nor a string (and is therefore not iterable) rejects with `ConnectionsNotIterable`. How JavaScript would iterate another iterable is not modelled, because JSON has none.
- JsValues.ToText: an object with its own `toString` key, or an array holding one, throws "Cannot convert object to primitive value" in a template literal; `ToText` gives `[object Object]` instead. The two lines below say where this reaches the script.
- Orchestrator.BackupDatabase: the model lets no value throw when the script turns it into text. In JavaScript an object from the file with its own `toString` key, or an array holding one, throws "Cannot convert object to primitive value" in a template literal. For `user`, `password` or a database this happens in the log lines after `createDir` (app.js:103-105) or in the command (app.js:108), where the Promise executor turns it into a rejection. A NUL character in a string that reaches the command makes `exec` throw, and in `host` it makes `mkdirSync` throw. In all these cases `backupDatabase` rejects, and so does `backup()`. The model instead shows `[object Object]` and a dump that resolves.
- Orchestrator.InactiveSkipped: the connection's log line (app.js:88) prints `db.title` for inactive connections too, so a title object with its own `toString` key makes `backup()` reject there. The lemma states that such a connection adds no error, because the model does not track that throw (see the line above).
- Dump.CommandDistinct: it is about strings, not files on disk. On a file system that ignores case, as Windows does by default, the databases `Sales` and `sales` write the same `.sql` file, and the later dump overwrites the earlier one. Two different list entries can also print as the same name, such as the string `"1"` and the number `1`, and then the same file is written twice.
- Orchestrator.Backup: the oracle answers every dump. A `mysqldump` that never exits keeps `backup()` from ever settling, because `exec` is called with no timeout (app.js:110). Such a run is not modelled.
- The awaiting itself (promises and the event loop) is modelled as sequential execution. The script never runs two dumps at once.
- Timestamp.Datetime: the read-back is stated for four-digit years only. Other years change the name's length, and `DatetimeLength` covers them.
