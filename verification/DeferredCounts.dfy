/**
 * Delivery counts: every counted delivery is a delivered attempt of the record, or one that a later
 * deny of the same call overwrote.
 */
module DeferredCounts {
  import opened Options
  import opened Ledger
  import opened Deferred
  import opened DeferredRows
  import opened DeferredRecords
  import opened DeferredRuns
  import opened DeferredSafety

  function One(attempt: Attempt): nat {
    if attempt.delivery.Delivered? then 1 else 0
  }

  function DeliveredIn(attempts: seq<Attempt>): nat {
    if attempts == [] then 0 else DeliveredIn(attempts[..|attempts| - 1]) + One(attempts[|attempts| - 1])
  }

  lemma {:induction false} DeliveredAfterUpdate(attempts: seq<Attempt>, i: nat, attempt: Attempt)
    requires i < |attempts|
    ensures DeliveredIn(attempts[i := attempt]) == DeliveredIn(attempts) - One(attempts[i]) + One(attempt)
  {
    var n := |attempts| - 1;
    if i < n {
      DeliveredAfterUpdate(attempts[..n], i, attempt);
      assert attempts[i := attempt][..n] == attempts[..n][i := attempt];
    } else {
      assert attempts[i := attempt][..n] == attempts[..n];
    }
  }

  lemma {:induction false} DeliveredAfterAppend(attempts: seq<Attempt>, attempt: Attempt)
    ensures DeliveredIn(attempts + [attempt]) == DeliveredIn(attempts) + One(attempt)
  {
    assert (attempts + [attempt])[..|attempts|] == attempts;
  }

  lemma {:induction false} DropWaitingDelivered(attempts: seq<Attempt>)
    ensures DeliveredIn(DropWaiting(attempts)) == DeliveredIn(attempts)
  {
    if attempts != [] {
      var n := |attempts| - 1;
      DropWaitingDelivered(attempts[..n]);
      var dropped := DropWaiting(attempts);
      assert dropped[..n] == DropWaiting(attempts[..n]);
    }
  }

  /** The count equals the delivered attempts plus those a later deny overwrote. */
  ghost predicate Balanced(r: Record, overwritten: nat) {
    r.deliveryCount == DeliveredIn(r.attempts) + overwritten
  }

  ghost predicate CountsBalance(records: map<RecordId, Record>, overwritten: map<RecordId, nat>) {
    forall r :: r in records ==> r in overwritten && Balanced(records[r], overwritten[r])
  }

  ghost predicate EmittedCounted(records: map<RecordId, Record>) {
    forall r :: r in records && records[r].state.Emitted? ==> records[r].deliveryCount >= 1
  }

  /** What a step that is not a deny does to one record's balance. */
  ghost predicate KeepsBalance(before: Record, after: Record) {
    after.deliveryCount - DeliveredIn(after.attempts) == before.deliveryCount - DeliveredIn(before.attempts)
    && (after.state.Emitted? ==> before.state.Emitted? || after.deliveryCount >= 1)
    && after.deliveryCount >= before.deliveryCount
  }

  lemma AttachBalances(s: State, call: CallId, now: int, holds: bool, r: RecordId)
    requires r in s.records && NamesUndelivered(s)
    ensures var t := Attach(s, call, now, holds).state; r in t.records && KeepsBalance(s.records[r], t.records[r])
  {
    CurrentPendingEffect(s, holds, 0);
    DeliveredAfterAppend(s.records[r].attempts, Attempt(call, NotRun, Waiting, now));
    hide CurrentPending, OmitUnrendered, DeliveredIn, PlannedShrinks, OldestLive;
  }

  lemma DeliverCarriedBalances(s: State, id: RecordId, at: nat, execution: Execution, now: int, r: RecordId)
    requires id in s.records && at < |s.records[id].attempts| && r in s.records
    ensures var t := DeliverCarried(s, id, at, execution, now).state; r in t.records && KeepsBalance(s.records[r], t.records[r])
  {
    DeliveredAfterUpdate(s.records[id].attempts, at,
        s.records[id].attempts[at].(execution := execution, delivery := Delivered));
    hide ConfirmRows, DeliveredIn;
  }

  lemma DeliverPrintedBalances(s: State, id: RecordId, pack: PendingPack, call: CallId, execution: Execution,
      now: int, r: RecordId)
    requires id in s.records && r in s.records
    ensures var t := DeliverPrinted(s, id, pack, call, execution, now).state; r in t.records && KeepsBalance(s.records[r], t.records[r])
  {
    DeliveredAfterAppend(s.records[id].attempts, Attempt(call, execution, Delivered, now));
    hide ConfirmRows, DeliveredIn, OmitUnrendered;
  }

  lemma CloseLostBalances(s: State, id: RecordId, record: Record, call: CallId, execution: Execution, now: int,
      r: RecordId)
    requires id in s.records && r in s.records && record.attempts == s.records[id].attempts
    ensures var t := CloseLost(s, id, record, call, execution, now); r in t.records && KeepsBalance(s.records[r], t.records[r])
  {
    DeliveredAfterAppend(record.attempts, Attempt(call, execution, Dropped, now));
    hide DeliveredIn, OmitPlanned;
  }

  lemma DeliverBalances(s: State, call: CallId, execution: Execution, now: int, holds: bool, r: RecordId)
    requires r in s.records && NamesUndelivered(s)
    ensures var t := Deliver(s, call, execution, now, holds).state; r in t.records && KeepsBalance(s.records[r], t.records[r])
  {
    hide CurrentPending, DeliverCarried, DeliverPrinted, CloseLost, DeliveredIn, OldestLive, LatestEmitted,
        PlannedShrinks;
    CurrentPendingEffect(s, holds, 0);
    var read := CurrentPending(s, holds);
    var reported := ReportedRecord(s.records);
    if reported.Some? {
      var id := reported.value;
      var found := FindCall(s.records[id].attempts, call);
      if found.Some? {
        DeliverCarriedBalances(s, id, found.value, execution, now, r);
      } else {
        if read.pending.Some? {
          DeliverPrintedBalances(s, id, read.pending.value, call, execution, now, r);
        }
        CloseLostBalances(read.state, id, s.records[id], call, execution, now, r);
      }
    }
  }

  lemma StopBalances(s: State, saw: bool, r: RecordId)
    requires r in s.records
    ensures var t := Stop(s, saw).state; r in t.records && KeepsBalance(s.records[r], t.records[r])
  {
    DropWaitingDelivered(s.records[r].attempts);
    hide DeliveredIn, OmitPlanned, DropWaiting;
  }

  lemma DenyBalances(s: State, call: CallId, now: int, r: RecordId)
    requires r in s.records
    ensures var t := Deny(s, call, now).state;
            && r in t.records && t.records[r].deliveryCount == s.records[r].deliveryCount && t.records[r].state == s.records[r].state
            && DeliveredIn(t.records[r].attempts) == DeliveredIn(s.records[r].attempts) - (if Overwrites(s, call,
                r) then 1 else 0)
  {
    var reported := ReportedRecord(s.records);
    if reported == Some(r) {
      var found := FindCall(s.records[r].attempts, call);
      if found.Some? {
        DeliveredAfterUpdate(s.records[r].attempts, found.value,
          s.records[r].attempts[found.value].(execution := Denied, delivery := Dropped));
      } else {
        DeliveredAfterAppend(s.records[r].attempts, Attempt(call, Denied, Dropped, now));
      }
    }
    hide DeliveredIn;
  }

  lemma StepBalances(y: System, step: Step, r: RecordId)
    requires FlightsInv(y) && NamesUndelivered(y.ledger) && Enabled(y, step)
    requires r in Next(y, step).ledger.records && r in y.ledger.records && !step.PermissionDenied?
    requires step.Build? ==> step.pack.id != r
    ensures KeepsBalance(y.ledger.records[r], Next(y, step).ledger.records[r])
  {
    hide NextFlights, NextHistory, AddBuilt, Begin, Commit, Attach, Deliver, Stop, DeliveredIn, PlannedShrinks,
        SlotAfterCommit, Rendered, PlanInto;
    var s := y.ledger;
    match step
    case Build(pack, considered, epoch, createdAt) => BuildSteady(s, pack, considered, epoch, createdAt);
    case BeginStore(id, holds) => BeginEffect(s, id, holds, 0);
    case CommitStore(id, _, _, _) => CommitEffect(s, y.flights[id].pack, CommitOf(y, step), 0);
    case PreToolUse(call, now, holds) => AttachBalances(s, call, now, holds, r);
    case PostToolUse(call, execution, now, holds) => DeliverBalances(s, call, execution, now, holds, r);
    case StopHook(saw) => StopBalances(s, saw, r);
    case _ =>
  }

  ghost predicate CountedRecord(records: map<RecordId, Record>, overwritten: map<RecordId, nat>, r: RecordId)
    requires r in records
  {
    r in overwritten && Balanced(records[r], overwritten[r]) && (records[r].state.Emitted? ==> records[r].deliveryCount >= 1)
  }

  lemma DenyCounts(y: System, step: Step, r: RecordId)
    requires step.PermissionDenied? && r in y.ledger.records && CountedRecord(y.ledger.records, y.history.overwritten,
        r)
    ensures r in Next(y, step).ledger.records && CountedRecord(Next(y, step).ledger.records,
        Next(y, step).history.overwritten, r)
  {
    DenyBalances(y.ledger, step.call, step.now, r);
    DenyLedger(y, step);
    hide NextLedger, NextFlights, DeliveredIn, Overwrites;
  }

  lemma OverwrittenKept(y: System, step: Step, r: RecordId)
    requires !step.PermissionDenied? && r in y.history.overwritten && (step.Build? ==> step.pack.id != r)
    ensures r in Next(y, step).history.overwritten && Next(y, step).history.overwritten[r] == y.history.overwritten[r]
  {
    hide NextLedger, NextFlights;
  }

  lemma OtherCounts(y: System, step: Step, r: RecordId)
    requires FlightsInv(y) && NamesUndelivered(y.ledger) && Enabled(y, step)
    requires !step.PermissionDenied? && (step.Build? ==> step.pack.id != r)
    requires r in y.ledger.records && CountedRecord(y.ledger.records, y.history.overwritten, r) && r in Next(y,
        step).ledger.records
    ensures CountedRecord(Next(y, step).ledger.records, Next(y, step).history.overwritten, r)
  {
    hide Next, DeliveredIn, NamesUndelivered, FlightsInv, Enabled;
    StepBalances(y, step, r);
    OverwrittenKept(y, step, r);
  }

  lemma BuiltCounts(y: System, step: Step, r: RecordId)
    requires Enabled(y, step) && step.Build? && step.pack.id == r
    ensures r in Next(y, step).ledger.records && CountedRecord(Next(y, step).ledger.records,
        Next(y, step).history.overwritten, r)
  {
    hide Next, DeliveredIn, Enabled;
    BuiltRecord(y, step, r);
  }

  lemma RecordCounts(y: System, step: Step, r: RecordId)
    requires FlightsInv(y) && NamesUndelivered(y.ledger) && Enabled(y, step)
    requires r in y.ledger.records ==> CountedRecord(y.ledger.records, y.history.overwritten, r)
    requires r in Next(y, step).ledger.records
    ensures CountedRecord(Next(y, step).ledger.records, Next(y, step).history.overwritten, r)
  {
    hide Next, CountedRecord, NamesUndelivered, FlightsInv, Enabled;
    if step.Build? && step.pack.id == r {
      BuiltCounts(y, step, r);
    } else {
      StepRecordIds(y, step);
      if step.PermissionDenied? {
        DenyCounts(y, step, r);
      } else {
        OtherCounts(y, step, r);
      }
    }
  }

  lemma StepKeepsCounts(y: System, step: Step)
    requires FlightsInv(y) && NamesUndelivered(y.ledger) && Enabled(y, step)
    requires CountsBalance(y.ledger.records, y.history.overwritten) && EmittedCounted(y.ledger.records)
    ensures var z := Next(y, step); CountsBalance(z.ledger.records, z.history.overwritten) && EmittedCounted(z.ledger.records)
  {
    var z := Next(y, step);
    hide Next, DeliveredIn, Balanced, NamesUndelivered, FlightsInv, Enabled;
    forall r | r in z.ledger.records ensures CountedRecord(z.ledger.records, z.history.overwritten, r) {
      RecordCounts(y, step, r);
    }
  }

  lemma DenyLedger(y: System, step: Step)
    requires step.PermissionDenied?
    ensures Next(y, step).ledger == Deny(y.ledger, step.call, step.now).state
  {
  }

  lemma StepRecordIds(y: System, step: Step)
    requires FlightsInv(y) && NamesUndelivered(y.ledger) && Enabled(y, step)
    ensures forall r :: r in Next(y, step).ledger.records ==> r in y.ledger.records || (step.Build? && step.pack.id == r)
  {
    hide NextFlights, NextHistory, AddBuilt, Begin, Commit, Attach, Deliver, Stop, Deny, PlannedShrinks,
        SlotAfterCommit, Rendered, PlanInto;
    var s := y.ledger;
    match step
    case Build(pack, considered, epoch, createdAt) => BuildSteady(s, pack, considered, epoch, createdAt);
    case BeginStore(id, holds) => BeginEffect(s, id, holds, 0);
    case CommitStore(id, _, _, _) => CommitEffect(s, y.flights[id].pack, CommitOf(y, step), 0);
    case PreToolUse(call, now, holds) => AttachSteady(s, call, now, holds);
    case PostToolUse(call, execution, now, holds) => DeliverSteady(s, call, execution, now, holds);
    case PermissionDenied(call, now) => DenySteady(s, call, now);
    case StopHook(saw) => StopSteady(s, saw);
    case _ =>
  }

  lemma BuiltRecord(y: System, step: Step, r: RecordId)
    requires Enabled(y, step) && step.Build? && step.pack.id == r
    ensures var z := Next(y, step);
            r in z.ledger.records && z.ledger.records[r].attempts == [] && z.ledger.records[r].deliveryCount == 0
            && z.ledger.records[r].state.Pending? && DeliveredIn([]) == 0
            && r in z.history.overwritten && z.history.overwritten[r] == 0
  {
    BuildSteady(y.ledger, step.pack, step.considered, step.epoch, step.createdAt);
    hide AddBuilt;
  }

  /**
   * Along every run a record's delivery_count is its delivered attempts plus the delivered attempts
   * a deny of the same call overwrote - so they agree exactly when no call was denied after it
   * delivered - and an emitted record has been delivered at least once.
   */
  lemma {:induction false} DeliveriesAreCounted(run: seq<Step>, n: nat)
    requires n <= |run|
    ensures CountsBalance(At(run, n).ledger.records, At(run, n).history.overwritten)
    ensures EmittedCounted(At(run, n).ledger.records)
  {
    if n > 0 {
      DeliveriesAreCounted(run, n - 1);
      RunInvariant(run, n - 1);
      hide Enabled, NextLedger, NextFlights, NextHistory, CountsBalance, EmittedCounted, RowsInv, OneSettled, TextInv;
      if Enabled(At(run, n - 1), run[n - 1]) {
        StepKeepsCounts(At(run, n - 1), run[n - 1]);
      }
    }
  }
}
