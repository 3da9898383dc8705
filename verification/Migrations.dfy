/**
 * Schema upgrades (src/db/open.ts, migrate and fenceOldWorker; src/worker/lease-clock.ts): any number
 * of processes of one bundle run the upgrade loop at once, each migration in its own write
 * transaction, while workers take, renew and release the lease.
 */
module Migrations {
  import opened Options

  const LATEST: nat := 8
  const STALE_AFTER_MS := 6000
  const FUTURE_SKEW_MS := 60000

  /** A held worker_lease row; a heartbeat that is no number reads as absent. */
  datatype Lease = Lease(owner: string, heartbeatAt: Option<int>)

  predicate Stale(heartbeatAt: Option<int>, now: int) {
    heartbeatAt.None? || now - heartbeatAt.value > STALE_AFTER_MS || heartbeatAt.value - now > FUTURE_SKEW_MS
  }

  /** A row of schema_migrations. */
  datatype Applied = Applied(version: nat, hash: string)

  datatype Database = Database(userVersion: nat, applied: seq<Applied>, lease: Option<Lease>)

  datatype Failure = SchemaAhead | HashMismatch | Busy

  /** Where a migrator is: before its first read, at the loop head with its own copy of the version, or done. */
  datatype Migrator = Starting | AtLoop(index: nat, version: nat) | Returned(version: nat) | Failed(failure: Failure)

  type Bundle = seq<string>

  predicate HashesMatch(applied: seq<Applied>, bundle: Bundle)
    requires |bundle| == LATEST
  {
    forall i :: 0 <= i < |applied| && 1 <= applied[i].version <= LATEST ==> applied[i].hash == bundle[applied[i].version - 1]
  }

  // ---------------------------------------------------------------- one atomic step of a migrator

  datatype Outcome = Outcome(db: Database, migrator: Migrator)

  function Start(db: Database, bundle: Bundle): Migrator
    requires |bundle| == LATEST
  {
    if db.userVersion > LATEST then Failed(SchemaAhead)
    else if !HashesMatch(db.applied, bundle) then Failed(HashMismatch)
    else AtLoop(0, db.userVersion)
  }

  /** One BEGIN IMMEDIATE ... COMMIT: the version is read again, the old worker fenced, one migration applied. */
  function Upgrade(db: Database, bundle: Bundle, index: nat, now: int): Outcome
    requires |bundle| == LATEST && index < LATEST
  {
    var version := index + 1;
    if db.userVersion > LATEST then Outcome(db, Failed(SchemaAhead))
    else if !HashesMatch(db.applied, bundle) then Outcome(db, Failed(HashMismatch))
    else if version <= db.userVersion then Outcome(db, AtLoop(index + 1, db.userVersion))
    else if db.userVersion > 0 && db.lease.Some? && !Stale(db.lease.value.heartbeatAt, now) then Outcome(db,
        Failed(Busy))
    else
      var lease := if db.userVersion > 0 then None else db.lease;
      Outcome(Database(version, db.applied + [Applied(version, bundle[index])], lease), AtLoop(index + 1, version))
  }

  function Advance(db: Database, bundle: Bundle, m: Migrator, now: int): Outcome
    requires |bundle| == LATEST
  {
    match m
    case Starting => Outcome(db, Start(db, bundle))
    case AtLoop(index, version) =>
      if index >= LATEST then Outcome(db, Returned(version))
      else if index + 1 <= version then Outcome(db, AtLoop(index + 1, version))
      else Upgrade(db, bundle, index, now)
    case _ => Outcome(db, m)
  }

  // ---------------------------------------------------------------- every interleaving

  datatype Step = Migrate(process: nat, now: int) | WorkerSetsLease(lease: Option<Lease>)

  datatype System = System(db: Database, migrators: map<nat, Migrator>)

  function MigratorOf(y: System, process: nat): Migrator {
    if process in y.migrators then y.migrators[process] else Starting
  }

  function Next(y: System, bundle: Bundle, step: Step): System
    requires |bundle| == LATEST
  {
    match step
    case Migrate(process, now) =>
      var outcome := Advance(y.db, bundle, MigratorOf(y, process), now);
      System(outcome.db, y.migrators[process := outcome.migrator])
    case WorkerSetsLease(lease) => y.(db := y.db.(lease := lease))
  }

  function At(start: Database, bundle: Bundle, run: seq<Step>): System
    requires |bundle| == LATEST
  {
    if run == [] then System(start, map[])
    else Next(At(start, bundle, run[..|run| - 1]), bundle, run[|run| - 1])
  }

  /** user_version counts the migrations applied, which are 1, 2, ... in that order. */
  ghost predicate Counted(db: Database) {
    |db.applied| == db.userVersion && forall i :: 0 <= i < |db.applied| ==> db.applied[i].version == i + 1
  }

  /** What a migrator remembers is never ahead of the database, nor behind its own loop. */
  ghost predicate Behind(db: Database, m: Migrator) {
    match m
    case AtLoop(index, version) => index <= LATEST && index <= version <= db.userVersion <= LATEST
    case Returned(version) => version == db.userVersion == LATEST
    case _ => true
  }

  ghost predicate Inv(y: System) {
    Counted(y.db) && forall p :: p in y.migrators ==> Behind(y.db, y.migrators[p])
  }

  /** The upgrade step applies the next migration or nothing: versions are never skipped or repeated. */
  lemma AdvanceExtends(db: Database, bundle: Bundle, m: Migrator, now: int)
    requires |bundle| == LATEST && Counted(db) && Behind(db, m)
    ensures var outcome := Advance(db, bundle, m, now);
            && Counted(outcome.db) && Behind(outcome.db, outcome.migrator)
            && (outcome.db == db
                || (outcome.db.userVersion == db.userVersion + 1 <= LATEST
                    && outcome.db.applied == db.applied + [Applied(db.userVersion + 1, bundle[db.userVersion])]))
  {
  }

  lemma {:induction false} RunInvariant(start: Database, bundle: Bundle, run: seq<Step>)
    requires |bundle| == LATEST && Counted(start)
    ensures Inv(At(start, bundle, run))
  {
    if run != [] {
      var before := run[..|run| - 1];
      RunInvariant(start, bundle, before);
      var y := At(start, bundle, before);
      var step := run[|run| - 1];
      if step.Migrate? {
        AdvanceExtends(y.db, bundle, MigratorOf(y, step.process), step.now);
      }
      hide Advance, Counted, At;
      forall p | p in Next(y, bundle, step).migrators ensures Behind(Next(y, bundle, step).db, Next(y, bundle, step).migrators[p]) {
        assert p in y.migrators ==> Behind(y.db, y.migrators[p]);
      }
      hide Next;
    }
  }

  // ---------------------------------------------------------------- main results

  /** user_version always equals the number applied; each migration is applied at most once, in ascending order. */
  lemma {:induction false} AppliedOnceInOrder(start: Database, bundle: Bundle, run: seq<Step>)
    requires |bundle| == LATEST && Counted(start)
    ensures var db := At(start, bundle, run).db;
            && db.userVersion == |db.applied|
            && forall i :: 0 <= i < |db.applied| ==> db.applied[i].version == i + 1
  {
    RunInvariant(start, bundle, run);
  }

  lemma StepGrows(y: System, bundle: Bundle, step: Step)
    requires |bundle| == LATEST && Inv(y)
    ensures var n, z := |y.db.applied|, Next(y, bundle, step);
            z.db.applied == y.db.applied || (n < LATEST && z.db.applied == y.db.applied + [Applied(n + 1, bundle[n])])
  {
    if step.Migrate? {
      AdvanceExtends(y.db, bundle, MigratorOf(y, step.process), step.now);
    }
    hide Advance;
  }

  /** Nothing applied is ever undone or rewritten, and what is added carries this bundle's hash. */
  lemma {:induction false} AppliedOnlyGrows(start: Database, bundle: Bundle, run: seq<Step>)
    requires |bundle| == LATEST && Counted(start)
    ensures var after := At(start, bundle, run).db;
            && start.applied <= after.applied && (|after.applied| <= LATEST || after.applied == start.applied)
            && forall i :: |start.applied| <= i < |after.applied| ==> i < LATEST && after.applied[i] == Applied(i + 1, bundle[i])
  {
    if run != [] {
      var before := run[..|run| - 1];
      AppliedOnlyGrows(start, bundle, before);
      RunInvariant(start, bundle, before);
      hide Inv, Next;
      StepGrows(At(start, bundle, before), bundle, run[|run| - 1]);
    }
  }

  /** A migrator that returns does so at the latest version, with every migration applied. */
  lemma {:induction false} ReturnsAtLatest(start: Database, bundle: Bundle, run: seq<Step>, process: nat)
    requires |bundle| == LATEST && Counted(start)
    requires MigratorOf(At(start, bundle, run), process).Returned?
    ensures var y := At(start, bundle, run);
            MigratorOf(y, process).version == LATEST && y.db.userVersion == LATEST && |y.db.applied| == LATEST
  {
    RunInvariant(start, bundle, run);
  }

  /** No upgrade of an existing schema commits over a live lease, and the fenced worker loses its lease with it. */
  lemma {:induction false} UpgradeFencesWorker(start: Database, bundle: Bundle, run: seq<Step>)
    requires |bundle| == LATEST && Counted(start) && run != []
    ensures var y := At(start, bundle, run[..|run| - 1]);
            var z := At(start, bundle, run);
            y.db.userVersion > 0 && z.db.userVersion != y.db.userVersion ==>
              && run[|run| - 1].Migrate?
              && (y.db.lease.Some? && y.db.lease.value.heartbeatAt.Some? ==>
                    var now, heartbeat := run[|run| - 1].now, y.db.lease.value.heartbeatAt.value;
                    heartbeat < now - 6000 || now + 60000 < heartbeat)
              && z.db.lease.None?
  {
  }

  /** The lease was renewed in the last six seconds, or by a clock at most a minute ahead. */
  predicate Renewed(lease: Option<Lease>, now: int) {
    match lease
    case Some(Lease(_, Some(heartbeat))) => now - 6000 <= heartbeat <= now + 60000
    case _ => false
  }

  /** A migrator gives up with Busy exactly when it would upgrade an existing schema under a live lease. */
  lemma BusyExactly(db: Database, bundle: Bundle, index: nat, version: nat, now: int)
    requires |bundle| == LATEST && Counted(db) && Behind(db, AtLoop(index, version)) && HashesMatch(db.applied, bundle)
    ensures Advance(db, bundle, AtLoop(index, version), now).migrator == Failed(Busy) <==>
              version == index < 8 && db.userVersion == index && index > 0 && Renewed(db.lease, now)
  {
  }

  /** Some migration the bundle knows was applied with another text. */
  ghost predicate Rewritten(db: Database, bundle: Bundle)
    requires |bundle| == LATEST
  {
    exists a :: a in db.applied && 1 <= a.version <= 8 && a.hash != bundle[a.version - 1]
  }

  /** What one transaction of a migrator leaves. */
  ghost predicate MigrateOutcome(db: Database, bundle: Bundle, m: Migrator, now: int, after: Database, next: Migrator)
    requires |bundle| == LATEST
  {
    match m
    case Starting =>
      && after == db
      && next == if db.userVersion > 8 then Failed(SchemaAhead) else if Rewritten(db, bundle) then Failed(HashMismatch)
                 else AtLoop(0, db.userVersion)
    case AtLoop(index, version) =>
      if index >= 8 then after == db && next == Returned(version)
      else if index < version then after == db && next == AtLoop(index + 1, version)
      else if db.userVersion > 8 then after == db && next == Failed(SchemaAhead)
      else if Rewritten(db, bundle) then after == db && next == Failed(HashMismatch)
      else if index < db.userVersion then after == db && next == AtLoop(index + 1, db.userVersion)
      else if db.userVersion > 0 && Renewed(db.lease, now) then after == db && next == Failed(Busy)
      else
        && after == Database(index + 1, db.applied + [Applied(index + 1, bundle[index])], if db.userVersion > 0 then None else db.lease)
        && next == AtLoop(index + 1, index + 1)
    case _ => after == db && next == m
  }

  lemma RewrittenExactly(db: Database, bundle: Bundle)
    requires |bundle| == LATEST
    ensures Rewritten(db, bundle) <==> !HashesMatch(db.applied, bundle)
  {
    if !HashesMatch(db.applied, bundle) {
      var i :| 0 <= i < |db.applied| && 1 <= db.applied[i].version <= LATEST
        && db.applied[i].hash != bundle[db.applied[i].version - 1];
      assert db.applied[i] in db.applied;
    }
  }

  /** Every step of a migrator in every run, by what it reads. */
  lemma StepMeans(start: Database, bundle: Bundle, run: seq<Step>, n: nat)
    requires |bundle| == LATEST && n < |run| && run[n].Migrate?
    ensures var y, z := At(start, bundle, run[..n]), At(start, bundle, run[..n + 1]);
            MigrateOutcome(y.db, bundle, MigratorOf(y, run[n].process), run[n].now, z.db, MigratorOf(z, run[n].process))
  {
    assert run[..n + 1][..n] == run[..n];
    RewrittenExactly(At(start, bundle, run[..n]).db, bundle);
    hide HashesMatch, Rewritten;
  }

  // ---------------------------------------------------------------- the loop itself, among others

  /** Steps of other processes: process 0 is the one whose loop this is. */
  predicate Others(steps: seq<Step>) {
    forall k :: 0 <= k < |steps| ==> steps[k].Migrate? ==> steps[k].process != 0
  }

  lemma {:induction false} OthersLeave(start: Database, bundle: Bundle, run: seq<Step>, others: seq<Step>)
    requires |bundle| == LATEST && Others(others)
    ensures MigratorOf(At(start, bundle, run + others), 0) == MigratorOf(At(start, bundle, run), 0)
  {
    if others == [] {
      assert run + others == run;
    } else {
      var n := |others| - 1;
      OthersLeave(start, bundle, run, others[..n]);
      assert (run + others)[..|run + others| - 1] == run + others[..n];
      assert (run + others)[|run + others| - 1] == others[n];
      hide Advance;
    }
  }

  lemma StepTaken(start: Database, bundle: Bundle, run: seq<Step>, now: int)
    requires |bundle| == LATEST
    ensures var y := At(start, bundle, run);
            var outcome := Advance(y.db, bundle, MigratorOf(y, 0), now);
            var z := At(start, bundle, run + [Migrate(0, now)]);
            z.db == outcome.db && MigratorOf(z, 0) == outcome.migrator
  {
    assert (run + [Migrate(0, now)])[..|run|] == run;
    hide Advance;
  }

  /** One connection's view of the shared database. */
  class Connection {
    var db: Database

    constructor (db: Database)
      ensures this.db == db
    {
      this.db := db;
    }

    /** Between two transactions other migrators and workers may do anything they can do. */
    method OthersRun(start: Database, bundle: Bundle, run: seq<Step>) returns (after: seq<Step>)
      requires |bundle| == LATEST && Counted(start) && db == At(start, bundle, run).db
      modifies this
      ensures run <= after && Others(after[|run|..])
      ensures db == At(start, bundle, after).db && Counted(db)
      ensures MigratorOf(At(start, bundle, after), 0) == MigratorOf(At(start, bundle, run), 0)
    {
      assert Others([]);
      var others: seq<Step> :| Others(others);
      after := run + others;
      OthersLeave(start, bundle, run, others);
      RunInvariant(start, bundle, after);
      db := At(start, bundle, after).db;
    }

    method FenceOldWorker(now: int) returns (busy: bool)
      modifies this
      ensures busy <==> Renewed(old(db).lease, now)
      ensures db == if busy then old(db) else old(db).(lease := None)
    {
      busy := db.lease.Some? && !Stale(db.lease.value.heartbeatAt, now);
      if !busy {
        db := db.(lease := None);
      }
    }

    /**
     * The upgrade loop, and the run in which it took its steps as process 0: it fails, or returns with
     * the schema at the latest version.
     */
    method Migrate(bundle: Bundle, clock: seq<int>) returns (result: Migrator, run: seq<Step>)
      requires |bundle| == LATEST && |clock| == LATEST && Counted(db)
      modifies this
      ensures db == At(old(db), bundle, run).db && MigratorOf(At(old(db), bundle, run), 0) == result
      ensures result.Failed? || result == Returned(LATEST)
      ensures Counted(db) && old(db).applied <= db.applied
      ensures result.Returned? ==> db.userVersion == LATEST
      ensures old(db).userVersion > LATEST ==> result == Failed(SchemaAhead)
    {
      hide HashesMatch, At;
      var start := db;
      NothingRun(start, bundle);
      StepTaken(start, bundle, [], 0);
      run := [] + [Step.Migrate(0, 0)];
      var version: nat := db.userVersion;
      if version > LATEST {
        return Failed(SchemaAhead), run;
      }
      if !HashesMatch(db.applied, bundle) {
        return Failed(HashMismatch), run;
      }
      for index := 0 to LATEST
        invariant Counted(db) && db == At(start, bundle, run).db
        invariant MigratorOf(At(start, bundle, run), 0) == AtLoop(index, version)
        invariant index <= version <= db.userVersion <= LATEST
      {
        if index + 1 <= version {
          StepTaken(start, bundle, run, 0);
          run := run + [Step.Migrate(0, 0)];
          continue;
        }
        run := OthersRun(start, bundle, run);
        RunInvariant(start, bundle, run);
        StepTaken(start, bundle, run, clock[index]);
        run := run + [Step.Migrate(0, clock[index])];
        version := db.userVersion;
        if version > LATEST {
          AppliedOnlyGrows(start, bundle, run);
          return Failed(SchemaAhead), run;
        }
        if !HashesMatch(db.applied, bundle) {
          AppliedOnlyGrows(start, bundle, run);
          return Failed(HashMismatch), run;
        }
        if index + 1 <= version {
          continue;
        }
        if version > 0 {
          var busy := FenceOldWorker(clock[index]);
          if busy {
            AppliedOnlyGrows(start, bundle, run);
            return Failed(Busy), run;
          }
        }
        db := db.(userVersion := index + 1, applied := db.applied + [Applied(index + 1, bundle[index])]);
        version := index + 1;
      }
      StepTaken(start, bundle, run, 0);
      run := run + [Step.Migrate(0, 0)];
      AppliedOnlyGrows(start, bundle, run);
      result := Returned(version);
    }
  }

  lemma NothingRun(start: Database, bundle: Bundle)
    requires |bundle| == LATEST
    ensures At(start, bundle, []) == System(start, map[])
  {
  }
}
