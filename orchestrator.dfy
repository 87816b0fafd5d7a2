/** `backup()` and `backupDatabase()`, and the top level of the script, which
    names and creates the run directory before it calls `backup()`. The
    connection file arrives already read and parsed, the clock as its
    components, and `mysqldump` as an oracle that says whether the n-th dump
    of the run succeeds. */
module Orchestrator {
  import opened Wrappers
  import opened JsStrings
  import opened JsValues
  import opened Timestamp
  import opened Paths
  import opened Directories
  import opened Normalize
  import opened Dump

  /** The two values of `path.sep`. */
  type Separator = c: char | c == '/' || c == '\\' witness '/'

  /** DIR_DATABASES and DIR_BACKUPS; None when unset. */
  datatype Env = Env(dirDatabases: Option<string>, dirBackups: Option<string>)

  /** What `JSON.parse(fs.readFileSync(DIR_DATABASES, 'utf-8'))` gave. */
  datatype ConfigRead = ReadFailed | ParseFailed | Parsed(doc: Value)

  /** Why `backup()` rejects. */
  datatype Failure =
    | MissingDirDatabases
    | MissingDirBackups
    | ConfigError
    | ConnectionsNotIterable
    | BadConnection(index: nat, reason: NormalizeError)
    | HostNotString(index: nat)

  /** How the promise of `backup()` settles. */
  datatype Outcome = Resolved | Rejected(failure: Failure)

  /** How the script ends: `path.join` throwing at load time, or `backup()` settling. */
  datatype ScriptOutcome = StartupCrash | Finished(outcome: Outcome)

  /** What a run does: the dumps it attempts, in order, the directories it
      creates, and the failure that stops it, if any. */
  datatype Plan = Plan(attempts: seq<Attempt>, dirs: set<string>, failure: Option<Failure>)

  function Settle(plan: Plan): Outcome {
    if plan.failure.Some? then Rejected(plan.failure.value) else Resolved
  }

  /** `!process.env.X` is false: the variable is set and not empty. */
  predicate IsSet(v: Option<string>) {
    v.Some? && v.value != ""
  }

  /** `for (const connection of connections)`: an array gives its elements, a
      string its characters, anything else throws. */
  function ConnectionList(doc: Value): (r: Result<seq<Value>, Failure>)
    ensures r.Ok? <==> doc.Arr? || doc.Str?
    ensures doc.Arr? ==> r == Ok(doc.items)
    ensures doc.Str? ==> |r.value| == |doc.s| && forall i :: 0 <= i < |doc.s| ==> r.value[i] == Str([doc.s[i]])
  {
    match doc
    case Arr(items) => Ok(items)
    case Str(s) => Ok(seq(|s|, i requires 0 <= i < |s| => Str([s[i]])))
    case _ => Err(ConnectionsNotIterable)
  }

  /** The connection reaches `backupDatabase` with a string host: it
      normalises, is active and has databases. */
  predicate DumpsIntoHost(r: Result<Target, NormalizeError>) {
    r.Ok? && Truthy(r.value.active) && r.value.databases != [] && r.value.host.Str?
  }

  /** The host a connection hands to `backupDatabase`, if it does, is a path
      `createDir` can create below the run directory: empty, or made of
      non-empty pieces. Connections that never get there are unconstrained. */
  predicate HostPathOk(r: Result<Target, NormalizeError>, sep: char) {
    DumpsIntoHost(r) ==> r.value.host.s == "" || NoEmptySegment(Split(r.value.host.s, sep))
  }

  predicate HostsPathOk(config: ConfigRead, sep: char) {
    config.Parsed? && ConnectionList(config.doc).Ok? ==>
      forall i :: 0 <= i < |ConnectionList(config.doc).value| ==>
        HostPathOk(Normalized(ConnectionList(config.doc).value[i]), sep)
  }

  /** The run directory: the timestamp joined onto DIR_BACKUPS. */
  function RunDir(root: string, now: Clock, sep: char): string
    requires ValidClock(now)
  {
    PathJoin(root, Datetime(now), sep)
  }

  /** The dumps of one connection into `dirBkp`, in the order of its list. */
  function DumpsOf(t: Target, dirBkp: string): seq<Attempt>
    requires t.host.Str?
  {
    seq(|t.databases|, j requires 0 <= j < |t.databases| => DumpAttempt(t, t.databases[j], dirBkp))
  }

  /** The normalisation of each connection, in file order. */
  function NormalizeAll(cs: seq<Value>): (rs: seq<Result<Target, NormalizeError>>)
    ensures |rs| == |cs|
  {
    seq(|cs|, i requires 0 <= i < |cs| => Normalized(cs[i]))
  }

  /** The connection throws nothing in `backup()`: it normalises, and when it
      has dumps to do its host is a string that `path.join` accepts. */
  predicate ConnectionOk(r: Result<Target, NormalizeError>) {
    && r.Ok?
    && (Truthy(r.value.active) && r.value.databases != [] ==> r.value.host.Str?)
  }

  /** What one turn of the connection loop does with the connection at
      `index`, given what its normalisation gave. */
  function StepConnection(r: Result<Target, NormalizeError>, index: nat, runDir: string, sep: char): Plan {
    match r
    case Err(e) => Plan([], {}, Some(BadConnection(index, e)))
    case Ok(t) =>
      if !Truthy(t.active) || t.databases == [] then Plan([], {}, None)
      else if !t.host.Str? then Plan([], {}, Some(HostNotString(index)))
      else
        var dirBkp := PathJoin(runDir, t.host.s, sep);
        Plan(DumpsOf(t, dirBkp), Elems(PrefixPaths(dirBkp, sep)), None)
  }

  /** The connection loop over connections that normalise to `cs`, which
      stops at the first connection that throws. */
  function PlanConnections(cs: seq<Result<Target, NormalizeError>>, runDir: string, sep: char): Plan
    decreases |cs|
  {
    if cs == [] then Plan([], {}, None)
    else
      var before := PlanConnections(cs[..|cs| - 1], runDir, sep);
      if before.failure.Some? then before
      else
        var step := StepConnection(cs[|cs| - 1], |cs| - 1, runDir, sep);
        Plan(before.attempts + step.attempts, before.dirs + step.dirs, step.failure)
  }

  /** The whole of `backup()`: the checks of the environment and the
      configuration, then the connection loop. */
  function BackupPlan(env: Env, config: ConfigRead, runDir: string, sep: char): Plan {
    if !IsSet(env.dirDatabases) then Plan([], {}, Some(MissingDirDatabases))
    else if !IsSet(env.dirBackups) then Plan([], {}, Some(MissingDirBackups))
    else if !config.Parsed? then Plan([], {}, Some(ConfigError))
    else
      match ConnectionList(config.doc)
      case Err(e) => Plan([], {}, Some(e))
      case Ok(cs) => PlanConnections(NormalizeAll(cs), runDir, sep)
  }

  /** How many dumps a connection asks for: its databases when it is active. */
  function DumpCount(r: Result<Target, NormalizeError>): nat {
    if r.Ok? && Truthy(r.value.active) then |r.value.databases| else 0
  }

  /** How many dumps the connections ask for together. */
  function TotalDumps(cs: seq<Result<Target, NormalizeError>>): nat
    decreases |cs|
  {
    if cs == [] then 0 else TotalDumps(cs[..|cs| - 1]) + DumpCount(cs[|cs| - 1])
  }

  /** The number of the first dump of connection k: the dumps asked for by the connections before it. */
  function Offset(cs: seq<Result<Target, NormalizeError>>, k: nat): nat
    requires k <= |cs|
  {
    TotalDumps(cs[..k])
  }

  /** The dump of the j-th database of connection `c`. */
  function DumpAt(c: Result<Target, NormalizeError>, j: nat, runDir: string, sep: char): Attempt
    requires ConnectionOk(c) && j < DumpCount(c)
  {
    DumpsOf(c.value, PathJoin(runDir, c.value.host.s, sep))[j]
  }

  /** `oks` are the oracle's answers for dumps `base`, `base` + 1, ... */
  predicate Answers(oks: seq<bool>, dumpSucceeds: nat -> bool, base: nat) {
    forall i :: 0 <= i < |oks| ==> oks[i] == dumpSucceeds(base + i)
  }

  // ---------------------------------------------------------------------
  // The script

  /** `backupDatabase(db)` with `db.database` set to `database`: it joins the
      host onto the run directory (`path.join` throws, and the promise
      rejects, when the host is not a string), creates that directory,
      builds the command and runs it. The dump's own success or failure is
      only reported: the call completes either way. */
  method BackupDatabase(db: Target, database: Value, runDir: string, sep: char,
                        dumpSucceeds: bool, fs: FileSystem)
    returns (attempt: Option<Attempt>, succeeded: bool)
    requires NoEmptySegment(Split(runDir, sep))
    requires db.host.Str? ==> db.host.s == "" || NoEmptySegment(Split(db.host.s, sep))
    modifies fs
    ensures !db.host.Str? ==> attempt == None && fs.entries == old(fs.entries)
    ensures db.host.Str? ==>
      var dirBkp := PathJoin(runDir, db.host.s, sep);
      && attempt == Some(DumpAttempt(db, database, dirBkp))
      && succeeded == dumpSucceeds
      && fs.entries == old(fs.entries) + Elems(PrefixPaths(dirBkp, sep))
  {
    if !db.host.Str? {
      return None, false;
    }
    var dirBkp := PathJoin(runDir, db.host.s, sep);
    PathJoinSegments(runDir, db.host.s, sep);
    CreateDir(fs, dirBkp, sep);
    var command := Command(db.host.s, ToText(db.user), ToText(db.password), ToText(database), dirBkp);
    // `exec(command, ...)`: the outcome is logged and the promise resolves.
    succeeded := dumpSucceeds;
    attempt := Some(Attempt(db.host.s, ToText(database), command));
  }

  /** The turn of the connection loop for the connection at `index`, whose
      normalisation gave `r`: a normalisation that threw rejects; otherwise,
      when the connection is active, `backupDatabase` for each of its
      databases in turn, awaited one after the other. `base` is the number
      of dumps the run attempted before this connection. */
  method BackupConnection(r: Result<Target, NormalizeError>, index: nat, runDir: string, sep: char,
                          dumpSucceeds: nat -> bool, base: nat, fs: FileSystem)
    returns (attempts: seq<Attempt>, succeeded: seq<bool>, failure: Option<Failure>)
    requires NoEmptySegment(Split(runDir, sep))
    requires HostPathOk(r, sep)
    modifies fs
    ensures var step := StepConnection(r, index, runDir, sep);
      && attempts == step.attempts
      && failure == step.failure
      && fs.entries == old(fs.entries) + step.dirs
    ensures |succeeded| == |attempts|
    ensures Answers(succeeded, dumpSucceeds, base)
  {
    attempts, succeeded, failure := [], [], None;
    if r.Err? {
      return [], [], Some(BadConnection(index, r.error));
    }
    var db := r.value;
    if !Truthy(db.active) {
      return;
    }
    ghost var hostDirs: set<string> :=
      if db.host.Str? then Elems(PrefixPaths(PathJoin(runDir, db.host.s, sep), sep)) else {};
    var j := 0;
    while j < |db.databases|
      invariant 0 <= j <= |db.databases|
      invariant db.host.Str? ==> attempts == DumpsOf(db, PathJoin(runDir, db.host.s, sep))[..j]
      invariant !db.host.Str? ==> j == 0 && attempts == []
      invariant fs.entries == old(fs.entries) + (if j == 0 then {} else hostDirs)
      invariant |succeeded| == |attempts| == j
      invariant forall i :: 0 <= i < |succeeded| ==> succeeded[i] == dumpSucceeds(base + i)
    {
      var attempt, ok := BackupDatabase(db, db.databases[j], runDir, sep, dumpSucceeds(base + j), fs);
      if attempt.None? {
        return [], [], Some(HostNotString(index));
      }
      ghost var dumps := DumpsOf(db, PathJoin(runDir, db.host.s, sep));
      assert dumps[..j + 1] == dumps[..j] + [attempt.value];
      attempts := attempts + [attempt.value];
      succeeded := succeeded + [ok];
      j := j + 1;
    }
    if db.host.Str? {
      ghost var dumps := DumpsOf(db, PathJoin(runDir, db.host.s, sep));
      assert dumps[..|db.databases|] == dumps;
    }
  }

  /** Only the host of a connection that dumps is constrained: a raw host
      that is absent, not a string, empty or made of non-empty pieces always
      qualifies, and so does any host of an inactive connection or of one
      without databases. */
  lemma NormalizedHostPathOk(c: Value, sep: char)
    ensures var r := Normalized(c);
      r.Ok? && (!Truthy(r.value.active) || r.value.databases == []) ==> HostPathOk(r, sep)
    ensures !Nullish(c) && (!Get(c, "host").Str? || Get(c, "host").s == ""
                            || NoEmptySegment(Split(Get(c, "host").s, sep)))
      ==> HostPathOk(Normalized(c), sep)
  {
    if Normalized(c).Ok? {
      NormalizeDefaults(c);
    }
  }

  /** The connection loop of `backup()` over the parsed connections: it
      does exactly what `PlanConnections` says of their normalisations, and
      the n-th outcome reported is the oracle's answer for the n-th dump. */
  method BackupConnections(connections: seq<Value>, runDir: string, sep: char,
                           dumpSucceeds: nat -> bool, fs: FileSystem)
    returns (outcome: Outcome, attempts: seq<Attempt>, succeeded: seq<bool>)
    requires NoEmptySegment(Split(runDir, sep))
    requires forall i :: 0 <= i < |connections| ==> HostPathOk(Normalized(connections[i]), sep)
    modifies fs
    ensures var plan := PlanConnections(NormalizeAll(connections), runDir, sep);
      && outcome == Settle(plan)
      && attempts == plan.attempts
      && fs.entries == old(fs.entries) + plan.dirs
    ensures |succeeded| == |attempts|
    ensures Answers(succeeded, dumpSucceeds, 0)
  {
    attempts, succeeded := [], [];
    ghost var rs := NormalizeAll(connections);
    ghost var done := PlanConnections(rs[..0], runDir, sep);
    var k := 0;
    while k < |connections|
      invariant 0 <= k <= |connections|
      invariant done == PlanConnections(rs[..k], runDir, sep)
      invariant done.failure.None?
      invariant attempts == done.attempts
      invariant fs.entries == old(fs.entries) + done.dirs
      invariant |succeeded| == |attempts|
      invariant Answers(succeeded, dumpSucceeds, 0)
    {
      var r := NormalizeConnection(connections[k]);
      assert r == rs[k];
      PlanStep(rs, k, runDir, sep);
      var dumps, oks, failure := BackupConnection(r, k, runDir, sep, dumpSucceeds, |succeeded|, fs);
      done := PlanConnections(rs[..k + 1], runDir, sep);
      if failure.Some? {
        FailureSticks(rs, k + 1, runDir, sep);
        return Rejected(failure.value), attempts, succeeded;
      }
      AnswersAppend(succeeded, oks, dumpSucceeds, 0, |succeeded|);
      attempts := attempts + dumps;
      succeeded := succeeded + oks;
      k := k + 1;
    }
    assert rs[..k] == rs;
    outcome := Resolved;
  }

  lemma AnswersAppend(a: seq<bool>, b: seq<bool>, dumpSucceeds: nat -> bool, base: nat, next: nat)
    requires next == base + |a|
    requires Answers(a, dumpSucceeds, base) && Answers(b, dumpSucceeds, next)
    ensures Answers(a + b, dumpSucceeds, base)
  {
    forall i | 0 <= i < |a + b| ensures (a + b)[i] == dumpSucceeds(base + i) {
      if i >= |a| {
        assert (a + b)[i] == b[i - |a|];
        assert base + |a| + (i - |a|) == base + i;
      }
    }
  }

  /** One more turn of the connection loop, when the earlier ones threw nothing. */
  lemma PlanStep(rs: seq<Result<Target, NormalizeError>>, k: nat, runDir: string, sep: char)
    requires k < |rs|
    requires PlanConnections(rs[..k], runDir, sep).failure.None?
    ensures var before := PlanConnections(rs[..k], runDir, sep);
      var step := StepConnection(rs[k], k, runDir, sep);
      PlanConnections(rs[..k + 1], runDir, sep)
        == Plan(before.attempts + step.attempts, before.dirs + step.dirs, step.failure)
  {
    assert rs[..k + 1][..k] == rs[..k];
  }

  /** `backup()`: what it attempts, creates and how it settles is exactly
      `BackupPlan`, which does not depend on the dumps' outcomes; the n-th
      outcome reported is the oracle's answer for the n-th dump. */
  method Backup(env: Env, config: ConfigRead, runDir: string, sep: char,
                dumpSucceeds: nat -> bool, fs: FileSystem)
    returns (outcome: Outcome, attempts: seq<Attempt>, succeeded: seq<bool>)
    requires NoEmptySegment(Split(runDir, sep))
    requires HostsPathOk(config, sep)
    modifies fs
    ensures var plan := BackupPlan(env, config, runDir, sep);
      && outcome == Settle(plan)
      && attempts == plan.attempts
      && fs.entries == old(fs.entries) + plan.dirs
    ensures |succeeded| == |attempts|
    ensures Answers(succeeded, dumpSucceeds, 0)
  {
    attempts, succeeded := [], [];
    if !IsSet(env.dirDatabases) {
      return Rejected(MissingDirDatabases), attempts, succeeded;
    }
    if !IsSet(env.dirBackups) {
      return Rejected(MissingDirBackups), attempts, succeeded;
    }
    if !config.Parsed? {
      return Rejected(ConfigError), attempts, succeeded;
    }
    var list := ConnectionList(config.doc);
    if list.Err? {
      return Rejected(list.error), attempts, succeeded;
    }
    outcome, attempts, succeeded := BackupConnections(list.value, runDir, sep, dumpSucceeds, fs);
  }

  /** The script: the run directory `DIR_BACKUPS/<datetime()>` is created at
      load time, before `backup()` checks anything; with DIR_BACKUPS unset,
      `path.join` throws first and nothing happens at all. */
  method RunScript(env: Env, now: Clock, config: ConfigRead, sep: Separator,
                   dumpSucceeds: nat -> bool, fs: FileSystem)
    returns (result: ScriptOutcome, attempts: seq<Attempt>, succeeded: seq<bool>)
    requires ValidClock(now)
    requires env.dirBackups.Some? ==>
      env.dirBackups.value == "" || NoEmptySegment(Split(env.dirBackups.value, sep))
    requires HostsPathOk(config, sep)
    modifies fs
    ensures env.dirBackups.None? ==>
      result == StartupCrash && attempts == [] && fs.entries == old(fs.entries)
    ensures env.dirBackups.Some? ==>
      var runDir := RunDir(env.dirBackups.value, now, sep);
      var plan := BackupPlan(env, config, runDir, sep);
      && result == Finished(Settle(plan))
      && attempts == plan.attempts
      && fs.entries == old(fs.entries) + Elems(PrefixPaths(runDir, sep)) + plan.dirs
    ensures |succeeded| == |attempts|
    ensures Answers(succeeded, dumpSucceeds, 0)
  {
    if env.dirBackups.None? {
      return StartupCrash, [], [];
    }
    var name := Datetime(now);
    var runDir := PathJoin(env.dirBackups.value, name, sep);
    DatetimeCharacters(now);
    DatetimeLength(now);
    assert sep !in name;
    SplitWithoutSeparator(name, sep);
    if env.dirBackups.value != "" {
      PathJoinSegments(env.dirBackups.value, name, sep);
    }
    CreateDir(fs, runDir, sep);
    var outcome;
    outcome, attempts, succeeded := Backup(env, config, runDir, sep, dumpSucceeds, fs);
    result := Finished(outcome);
  }

  // ---------------------------------------------------------------------
  // Properties of a run

  /** Once the loop has stopped on a connection, the later ones change nothing. */
  lemma {:induction false} FailureSticks(cs: seq<Result<Target, NormalizeError>>, m: nat, runDir: string, sep: char)
    requires m <= |cs|
    requires PlanConnections(cs[..m], runDir, sep).failure.Some?
    ensures PlanConnections(cs, runDir, sep) == PlanConnections(cs[..m], runDir, sep)
    decreases |cs|
  {
    if m == |cs| {
      assert cs[..m] == cs;
    } else {
      var init := cs[..|cs| - 1];
      assert init[..m] == cs[..m];
      FailureSticks(init, m, runDir, sep);
    }
  }

  /** A missing environment variable or an unreadable or malformed
      configuration rejects before any directory is created or any dump attempted. */
  lemma RejectsBeforeAnyDump(env: Env, config: ConfigRead, runDir: string, sep: char)
    requires !IsSet(env.dirDatabases) || !IsSet(env.dirBackups) || !config.Parsed?
    ensures var plan := BackupPlan(env, config, runDir, sep);
      && plan.attempts == [] && plan.dirs == {}
      && Settle(plan) == Rejected(
           if !IsSet(env.dirDatabases) then MissingDirDatabases
           else if !IsSet(env.dirBackups) then MissingDirBackups
           else ConfigError)
  {
  }

  /** One turn of the loop fails exactly when its connection throws. */
  lemma StepFailsIff(c: Result<Target, NormalizeError>, index: nat, runDir: string, sep: char)
    ensures StepConnection(c, index, runDir, sep).failure.None? <==> ConnectionOk(c)
  {
  }

  /** The loop completes exactly when no connection throws. */
  lemma {:induction false} CompletesIffAllOk(cs: seq<Result<Target, NormalizeError>>, runDir: string, sep: char)
    ensures PlanConnections(cs, runDir, sep).failure.None? <==>
            forall k :: 0 <= k < |cs| ==> ConnectionOk(cs[k])
    decreases |cs|
  {
    if cs != [] {
      var init, last := cs[..|cs| - 1], cs[|cs| - 1];
      CompletesIffAllOk(init, runDir, sep);
      var before := PlanConnections(init, runDir, sep);
      var step := StepConnection(last, |cs| - 1, runDir, sep);
      assert PlanConnections(cs, runDir, sep).failure
             == if before.failure.Some? then before.failure else step.failure;
      StepFailsIff(last, |cs| - 1, runDir, sep);
      assert (forall k :: 0 <= k < |cs| ==> ConnectionOk(cs[k])) <==>
             (forall k :: 0 <= k < |init| ==> ConnectionOk(init[k])) && ConnectionOk(last)
      by {
        assert forall k :: 0 <= k < |init| ==> init[k] == cs[k];
      }
    }
  }

  /** The loop stops at the first connection that throws: the dumps and
      directories of the connections before it stand, and its error is the
      run's rejection. */
  lemma StopsAtFirstBadConnection(cs: seq<Result<Target, NormalizeError>>, k: nat, runDir: string, sep: char)
    requires k < |cs|
    requires forall i :: 0 <= i < k ==> ConnectionOk(cs[i])
    requires !ConnectionOk(cs[k])
    ensures var before := PlanConnections(cs[..k], runDir, sep);
      PlanConnections(cs, runDir, sep)
        == Plan(before.attempts, before.dirs, StepConnection(cs[k], k, runDir, sep).failure)
    ensures PlanConnections(cs, runDir, sep).failure.Some?
  {
    var prefix := cs[..k + 1];
    assert prefix[..k] == cs[..k];
    CompletesIffAllOk(cs[..k], runDir, sep);
    StepFailsIff(cs[k], k, runDir, sep);
    FailureSticks(cs, k + 1, runDir, sep);
  }

  /** An inactive connection adds no dump, no directory and no error. */
  lemma InactiveSkipped(cs: seq<Result<Target, NormalizeError>>, t: Target, runDir: string, sep: char)
    requires !Truthy(t.active)
    ensures PlanConnections(cs + [Ok(t)], runDir, sep) == PlanConnections(cs, runDir, sep)
  {
    assert (cs + [Ok(t)])[..|cs|] == cs;
  }

  /** The dumps of one connection that throws nothing are its databases in list order. */
  lemma StepAttempts(c: Result<Target, NormalizeError>, index: nat, runDir: string, sep: char)
    requires ConnectionOk(c)
    ensures var step := StepConnection(c, index, runDir, sep);
      && |step.attempts| == DumpCount(c)
      && forall j :: 0 <= j < DumpCount(c) ==> step.attempts[j] == DumpAt(c, j, runDir, sep)
  {
  }

  /** The dumps of the connections before position k, plus those of connection
      k, are no more than the dumps of all. */
  lemma {:induction false} TotalDumpsPrefix(cs: seq<Result<Target, NormalizeError>>, k: nat)
    requires k < |cs|
    ensures TotalDumps(cs[..k]) + DumpCount(cs[k]) <= TotalDumps(cs)
    decreases |cs|
  {
    var init := cs[..|cs| - 1];
    if k == |cs| - 1 {
      assert cs[..k] == init;
    } else {
      assert init[..k] == cs[..k] && init[k] == cs[k];
      TotalDumpsPrefix(init, k);
    }
  }

  /** The last turn of a run that completes: the earlier turns complete, the
      last connection throws nothing, and its dumps follow theirs. */
  lemma PlanSnoc(cs: seq<Result<Target, NormalizeError>>, runDir: string, sep: char)
    requires cs != [] && PlanConnections(cs, runDir, sep).failure.None?
    ensures var init, last := cs[..|cs| - 1], cs[|cs| - 1];
      && PlanConnections(init, runDir, sep).failure.None?
      && ConnectionOk(last)
      && PlanConnections(cs, runDir, sep).attempts
         == PlanConnections(init, runDir, sep).attempts + StepConnection(last, |cs| - 1, runDir, sep).attempts
      && TotalDumps(cs) == TotalDumps(init) + DumpCount(last)
  {
    StepFailsIff(cs[|cs| - 1], |cs| - 1, runDir, sep);
  }

  /** A run that completes attempts as many dumps as its connections ask for. */
  lemma {:induction false} AttemptCount(cs: seq<Result<Target, NormalizeError>>, runDir: string, sep: char)
    requires PlanConnections(cs, runDir, sep).failure.None?
    ensures |PlanConnections(cs, runDir, sep).attempts| == TotalDumps(cs)
    decreases |cs|
  {
    if cs != [] {
      PlanSnoc(cs, runDir, sep);
      AttemptCount(cs[..|cs| - 1], runDir, sep);
      StepAttempts(cs[|cs| - 1], |cs| - 1, runDir, sep);
    }
  }

  /** In a run that completes, the j-th database of connection k is dump
      number Offset(cs, k) + j. */
  lemma {:induction false} AttemptAt(cs: seq<Result<Target, NormalizeError>>, k: nat, j: nat, runDir: string, sep: char)
    requires PlanConnections(cs, runDir, sep).failure.None?
    requires k < |cs| && j < DumpCount(cs[k])
    ensures ConnectionOk(cs[k])
    ensures Offset(cs, k) + j < |PlanConnections(cs, runDir, sep).attempts|
    ensures PlanConnections(cs, runDir, sep).attempts[Offset(cs, k) + j] == DumpAt(cs[k], j, runDir, sep)
    decreases |cs|
  {
    var init := cs[..|cs| - 1];
    if k < |init| {
      AttemptsExtend(cs, runDir, sep);
      assert cs[..k] == init[..k] && cs[k] == init[k];
      AttemptAt(init, k, j, runDir, sep);
      var n := Offset(init, k) + j;
      assert Offset(cs, k) + j == n;
      assert PlanConnections(cs, runDir, sep).attempts[n] == PlanConnections(init, runDir, sep).attempts[n];
    } else {
      assert cs[..k] == init;
      AttemptAtLast(cs, j, runDir, sep);
    }
  }

  /** A run that completes extends the attempts of the run over all but its
      last connection. */
  lemma AttemptsExtend(cs: seq<Result<Target, NormalizeError>>, runDir: string, sep: char)
    requires cs != [] && PlanConnections(cs, runDir, sep).failure.None?
    ensures PlanConnections(cs[..|cs| - 1], runDir, sep).failure.None?
    ensures PlanConnections(cs[..|cs| - 1], runDir, sep).attempts <= PlanConnections(cs, runDir, sep).attempts
  {
    PlanSnoc(cs, runDir, sep);
  }

  /** In a run that completes, the j-th database of the last connection is
      dump number (dumps of the connections before it) + j. */
  lemma AttemptAtLast(cs: seq<Result<Target, NormalizeError>>, j: nat, runDir: string, sep: char)
    requires cs != [] && PlanConnections(cs, runDir, sep).failure.None?
    requires j < DumpCount(cs[|cs| - 1])
    ensures ConnectionOk(cs[|cs| - 1])
    ensures TotalDumps(cs[..|cs| - 1]) + j < |PlanConnections(cs, runDir, sep).attempts|
    ensures PlanConnections(cs, runDir, sep).attempts[TotalDumps(cs[..|cs| - 1]) + j]
      == DumpAt(cs[|cs| - 1], j, runDir, sep)
  {
    var init, last := cs[..|cs| - 1], cs[|cs| - 1];
    PlanSnoc(cs, runDir, sep);
    AttemptCount(init, runDir, sep);
    StepAttempts(last, |cs| - 1, runDir, sep);
    var before := PlanConnections(init, runDir, sep).attempts;
    var step := StepConnection(last, |cs| - 1, runDir, sep).attempts;
    assert (before + step)[|before| + j] == step[j];
  }

  /** A run that completes attempts exactly one dump per (active connection,
      database) pair, connections in file order and databases in list order. */
  lemma AttemptPositions(cs: seq<Result<Target, NormalizeError>>, runDir: string, sep: char)
    requires PlanConnections(cs, runDir, sep).failure.None?
    ensures forall k :: 0 <= k < |cs| ==> ConnectionOk(cs[k])
    ensures |PlanConnections(cs, runDir, sep).attempts| == TotalDumps(cs)
    ensures forall k :: 0 <= k < |cs| ==> Offset(cs, k) + DumpCount(cs[k]) <= TotalDumps(cs)
    ensures forall k, j :: 0 <= k < |cs| && 0 <= j < DumpCount(cs[k]) ==>
      PlanConnections(cs, runDir, sep).attempts[Offset(cs, k) + j] == DumpAt(cs[k], j, runDir, sep)
  {
    CompletesIffAllOk(cs, runDir, sep);
    AttemptCount(cs, runDir, sep);
    forall k | 0 <= k < |cs| ensures Offset(cs, k) + DumpCount(cs[k]) <= TotalDumps(cs) {
      TotalDumpsPrefix(cs, k);
    }
    forall k, j | 0 <= k < |cs| && 0 <= j < DumpCount(cs[k])
      ensures PlanConnections(cs, runDir, sep).attempts[Offset(cs, k) + j] == DumpAt(cs[k], j, runDir, sep)
    {
      AttemptAt(cs, k, j, runDir, sep);
    }
  }
}
