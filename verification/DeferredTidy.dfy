/**
 * What the exact conditions give when no other hook uses a pack's record between its build and its
 * own commit: finished records stay finished, the stored text names a live record, a record is
 * emitted exactly when it was delivered, and - with records built in order and no call id used
 * again after a deny - every included row was received.
 */
module DeferredTidy {
  import opened Options
  import opened Ledger
  import opened Deferred
  import opened DeferredRows
  import opened DeferredRecords
  import opened DeferredRuns
  import opened DeferredSafety
  import opened DeferredDelivery
  import opened DeferredCounts
  import opened DeferredExact
  import opened DeferredReceipts

  // ---------------------------------------------------------------- conditions on a run

  /** No tool hook and no other pack touched the record since it was built. */
  ghost predicate Untouched(s: State, id: RecordId) {
    && id in s.records && s.records[id].state.Pending? && s.records[id].attempts == []
    && (s.slot.Some? ==> s.slot.value.owner != id)
  }

  /** A hook begins and commits only a record still untouched. */
  ghost predicate TidyStep(y: System, step: Step) {
    (step.BeginStore? || step.CommitStore?) && Enabled(y, step) ==> Untouched(y.ledger, step.id)
  }

  /** Records are created in the order of their capture times (ties by id). */
  ghost predicate BuildsInOrder(y: System, step: Step) {
    step.Build? ==> forall r :: r in y.ledger.records ==>
      y.ledger.records[r].createdAt < step.createdAt || (y.ledger.records[r].createdAt == step.createdAt && r < step.pack.id)
  }

  /** A call that was denied reports nothing else. */
  ghost predicate NoReuse(y: System, step: Step) {
    step.PreToolUse? || step.PostToolUse? ==> step.call !in y.history.denied
  }

  ghost predicate Tidy(run: seq<Step>, n: nat)
    requires n <= |run|
  {
    forall k :: 0 <= k < n ==> TidyStep(At(run, k), run[k])
  }

  // ---------------------------------------------------------------- tidy steps break nothing

  lemma ReadNames(s: State, holds: bool, id: RecordId)
    requires !Names(s.slot, id)
    ensures !Names(CurrentPending(s, holds).state.slot, id)
  {
  }

  ghost predicate BreaksNothing(y: System, step: Step) {
    && !Orphans(y, step) && !Forgets(y, step)
    && forall r :: r in y.ledger.records && !Live(y.ledger.records[r]) ==> !Leaves(y, step, r) && !Reopens(y, step, r)
  }

  lemma TidyAvoids(y: System, step: Step)
    requires TidyStep(y, step) && FlightsInv(y)
    ensures BreaksNothing(y, step)
  {
    TidyOrphansNothing(y, step);
    hide Orphans, ClosesOwn, CancelledAtBegin, Target, FlightsInv;
  }

  lemma TidyOrphansNothing(y: System, step: Step)
    requires TidyStep(y, step) && FlightsInv(y)
    ensures !Orphans(y, step)
  {
    if Enabled(y, step) && (step.BeginStore? || step.CommitStore?) {
      assert !Names(y.ledger.slot, step.id);
      ReadNames(y.ledger, step.slotGuardHolds, step.id);
      assert step.CommitStore? ==> y.flights[step.id].pack.id == step.id;
    }
    hide CancelledAtBegin, KeepsText, CurrentPending, Carrier, FlightsInv, Names;
  }

  lemma TidyAlong(run: seq<Step>, n: nat)
    requires n <= |run| && Tidy(run, n)
    ensures forall k :: 0 <= k < n ==> !OrphansAt(run, k) && !ForgetsAt(run, k) && BreaksNothing(At(run, k), run[k])
  {
    hide At, TidyStep, Leaves, Reopens, Orphans, Forgets, RowsInv, OneSettled, TextInv, NamesUndelivered, FlightsInv;
    forall k | 0 <= k < n ensures !OrphansAt(run, k) && !ForgetsAt(run, k) && BreaksNothing(At(run, k), run[k]) {
      RunInvariant(run, k);
      TidyAvoids(At(run, k), run[k]);
    }
  }

  lemma StepKeepsFinished(y: System, step: Step, r: RecordId)
    requires Inv(y) && TidyStep(y, step) && Enabled(y, step)
    requires r in y.ledger.records && !Live(y.ledger.records[r])
    ensures r in Next(y, step).ledger.records && Next(y, step).ledger.records[r].state == y.ledger.records[r].state
  {
    StepLeavesExactly(y, step, r);
    TidyAvoids(y, step);
    hide NextLedger, NextFlights, NextHistory, Inv, TidyStep, Enabled, Leaves, Reopens, Orphans, Forgets;
  }

  // ---------------------------------------------------------------- main results of tidy runs

  /** `emitted` and `omitted` are never left. */
  lemma {:induction false} FinishedIsFinal(run: seq<Step>, m: nat, n: nat, r: RecordId)
    requires m <= n <= |run| && Tidy(run, n)
    requires r in At(run, m).ledger.records && !Live(At(run, m).ledger.records[r])
    ensures InState(At(run, n), r, At(run, m).ledger.records[r].state)
  {
    hide At, Leaves, Reopens, Orphans, Forgets, TidyStep;
    if m < n {
      FinishedIsFinal(run, m, n - 1, r);
      TidyAlong(run, n);
      FinishedIsLeftExactly(run, n - 1, r);
    }
  }

  /** A record is emitted exactly when it was delivered at least once. */
  lemma EmittedIffDelivered(run: seq<Step>, n: nat, r: RecordId)
    requires n <= |run| && Tidy(run, n) && r in At(run, n).ledger.records
    ensures At(run, n).ledger.records[r].state.Emitted? <==> At(run, n).ledger.records[r].deliveryCount >= 1
  {
    TidyAlong(run, n);
    NeverForgotten(run, n);
    hide At, Leaves, Reopens, Orphans, Forgets;
  }

  /** The stored text names a live record, and the only one once every pack's hook has committed. */
  lemma {:induction false} StoredTextNamesTheLiveRecord(run: seq<Step>, n: nat)
    requires n <= |run| && Tidy(run, n) && At(run, n).ledger.slot.Some?
    ensures var y := At(run, n);
            var owner := y.ledger.slot.value.owner;
            && LiveExcept(y.ledger.records, owner, None)
            && (forall r :: LiveExcept(y.ledger.records, r, None) && r != owner ==> r in y.flights || owner in y.flights)
  {
    TidyAlong(run, n);
    NeverOrphaned(run, n);
    RunInvariant(run, n);
    var y := At(run, n);
    var owner := y.ledger.slot.value.owner;
    hide RowsInv, FlightsInv, TextInv, At, Leaves, Reopens, Orphans, Forgets, Tidy;
    forall r | LiveExcept(y.ledger.records, r, None) && r != owner ensures r in y.flights || owner in y.flights {
      assert !(Settled(y.ledger.records, y.flights.Keys, r) && Settled(y.ledger.records, y.flights.Keys, owner));
    }
  }

  /** A dropped attempt of an open record belongs to a denied call. */
  ghost predicate DroppedWereDenied(records: map<RecordId, Record>, denied: set<CallId>) {
    forall r, a :: LiveExcept(records, r, None) && 0 <= a < |records[r].attempts| && records[r].attempts[a].delivery.Dropped?
      ==> records[r].attempts[a].call in denied
  }

  lemma TidyDropsWereDenied(run: seq<Step>, n: nat)
    requires n <= |run| && Tidy(run, n)
    ensures DroppedWereDenied(At(run, n).ledger.records, At(run, n).history.denied)
  {
    TidyAlong(run, n);
    hide At, Leaves, Orphans, Forgets, Tidy;
    forall r, a | LiveExcept(At(run, n).ledger.records, r, None) && 0 <= a < |At(run, n).ledger.records[r].attempts|
        && At(run, n).ledger.records[r].attempts[a].delivery.Dropped?
      ensures At(run, n).ledger.records[r].attempts[a].call in At(run, n).history.denied
    {
      DroppedWereDeniedOrReopened(run, n, r, a);
    }
  }

  // -- records built in order: the carried record stays the oldest

  ghost predicate WaitingIsOldest(records: map<RecordId, Record>) {
    forall r :: r in records && Live(records[r]) && AnyWaiting(records[r].attempts) ==> OldestLive(records, None, r)
  }

  lemma StepKeepsCreated(y: System, step: Step, r: RecordId)
    requires Inv(y) && Enabled(y, step) && r in y.ledger.records && r in Next(y, step).ledger.records
    requires step.Build? ==> step.pack.id != r
    ensures Next(y, step).ledger.records[r].createdAt == y.ledger.records[r].createdAt
  {
    hide NextFlights, NextHistory, AddBuilt, Begin, Commit, Attach, Deliver, Deny, Stop, RowsInv, OneSettled, TextInv,
        PlannedShrinks, SlotAfterCommit;
    var s := y.ledger;
    match step
    case Build(pack, considered, epoch, createdAt) => BuildSteady(s, pack, considered, epoch, createdAt);
    case BeginStore(id, holds) => BeginEffect(s, id, holds, 0);
    case CommitStore(id, _, _, _) => CommitEffect(s, y.flights[id].pack, CommitOf(y, step), 0);
    case PreToolUse(call, now, holds) => AttachSteady(s, call, now, holds);
    case PostToolUse(call, execution, now, holds) => DeliverSteady(s, call, execution, now, holds);
    case PermissionDenied(call, now) => DenySteady(s, call, now);
    case StopHook(saw) => StopSteady(s, saw);
    case _ =>
  }

  lemma StepWaits(y: System, step: Step, r: RecordId)
    requires Inv(y) && TidyStep(y, step) && Enabled(y, step) && WaitingIsOldest(y.ledger.records)
    requires var t := Next(y, step).ledger.records; r in t && Live(t[r]) && AnyWaiting(t[r].attempts)
    ensures r in y.ledger.records && OldestLive(y.ledger.records, None, r)
  {
    var s := y.ledger.records;
    if step.PreToolUse? {
      AttachWaits(y, step, r);
    } else {
      hide NextLedger, NextFlights, NextHistory, TidyStep, RowsInv, FlightsInv, OneSettled, TextInv, MergeTarget,
          Enabled;
      StepThaws(y, step, r);
      if !Live(s[r]) {
        StepKeepsFinished(y, step, r);
      }
      assert AnyWaiting(s[r].attempts);
    }
  }

  lemma AttachWaits(y: System, step: Step, r: RecordId)
    requires step.PreToolUse? && NamesUndelivered(y.ledger) && WaitingIsOldest(y.ledger.records)
    requires var t := Next(y, step).ledger.records; r in t && Live(t[r]) && AnyWaiting(t[r].attempts)
    ensures r in y.ledger.records && OldestLive(y.ledger.records, None, r)
  {
    CurrentPendingEffect(y.ledger, step.guardHolds, 0);
    AttachSteady(y.ledger, step.call, step.now, step.guardHolds);
    hide CurrentPending, OmitUnrendered, PlannedShrinks;
  }

  lemma BuildsLater(y: System, step: Step, r: RecordId, o: RecordId)
    requires BuildsInOrder(y, step) && Enabled(y, step) && step.Build? && r in y.ledger.records && o == step.pack.id
    requires o != r
    ensures CreatedBefore(Next(y, step).ledger.records, r, o)
  {
    BuildSteady(y.ledger, step.pack, step.considered, step.epoch, step.createdAt);
    assert Next(y, step).ledger.records[o].createdAt == step.createdAt;
    hide NewRows;
  }

  lemma StepKeepsWaitingOldest(y: System, step: Step)
    requires Inv(y) && TidyStep(y, step) && Enabled(y, step) && BuildsInOrder(y, step)
    requires WaitingIsOldest(y.ledger.records)
    ensures WaitingIsOldest(Next(y, step).ledger.records)
  {
    var s, t := y.ledger.records, Next(y, step).ledger.records;
    StepRecordIds(y, step);
    assert step.Build? ==> step.pack.id !in s;
    hide NextLedger, NextFlights, NextHistory, TidyStep, RowsInv, FlightsInv, OneSettled, TextInv, Enabled,
        BuildsInOrder, WaitingIsOldest;
    forall r | r in t && Live(t[r]) && AnyWaiting(t[r].attempts) ensures OldestLive(t, None, r) {
      StepWaits(y, step, r);
      StepKeepsCreated(y, step, r);
      forall o | LiveExcept(t, o, None) ensures CreatedBefore(t, r, o) {
        if o in s {
          StepKeepsCreated(y, step, o);
          if !Live(s[o]) {
            StepKeepsFinished(y, step, o);
          }
          assert LiveExcept(s, o, None);
        } else {
          BuildsLater(y, step, r, o);
        }
      }
    }
  }

  lemma WaitingOldestAtStart()
    ensures WaitingIsOldest(EMPTY.ledger.records)
  {
  }

  lemma {:induction false} WaitingOldestAlong(run: seq<Step>, n: nat)
    requires n <= |run| && Tidy(run, n) && forall k :: 0 <= k < n ==> BuildsInOrder(At(run, k), run[k])
    ensures WaitingIsOldest(At(run, n).ledger.records)
  {
    hide NextLedger, NextFlights, NextHistory, TidyStep, Inv, Enabled, BuildsInOrder, WaitingIsOldest;
    if n == 0 {
      WaitingOldestAtStart();
    } else {
      WaitingOldestAlong(run, n - 1);
      RunInvariant(run, n - 1);
      if Enabled(At(run, n - 1), run[n - 1]) {
        StepKeepsWaitingOldest(At(run, n - 1), run[n - 1]);
      }
    }
  }

  lemma OldestIsNotMergedUnder(y: System, step: Step)
    requires Inv(y) && WaitingIsOldest(y.ledger.records)
    ensures !MergesUnderCarrier(y, step)
  {
    if step.CommitStore? && Enabled(y, step) {
      var pack := y.flights[step.id].pack;
      var target := MergeTarget(y.ledger, pack, CommitOf(y, step));
      var read := CurrentPending(y.ledger, step.slotGuardHolds).state;
      CurrentPendingEffect(y.ledger, step.slotGuardHolds, 0);
      hide CurrentPending, RowsInv, OneSettled, TextInv, PlanInto, MergedGuard;
      if target.Some? && AnyWaiting(y.ledger.records[target.value].attempts) {
        assert OldestLive(y.ledger.records, None, target.value);
        LiveExceptLess(y.ledger.records, pack.id, target.value);
        LiveRecordIs(y.ledger.records, Some(pack.id), target.value);
      }
    }
  }

  lemma LiveExceptLess(records: map<RecordId, Record>, exclude: RecordId, id: RecordId)
    requires OldestLive(records, None, id) && id != exclude
    ensures OldestLive(records, Some(exclude), id)
  {
    forall other | LiveExcept(records, other, Some(exclude)) ensures CreatedBefore(records, id, other) {
      assert LiveExcept(records, other, None);
    }
  }

  lemma NoLateReceipt(y: System, step: Step)
    requires DroppedWereDenied(y.ledger.records, y.history.denied) && NoReuse(y, step)
    ensures !LateReceipt(y, step)
  {
  }

  /**
   * When records are built in order, no other hook uses a pack before its own hook commits it, and
   * no call id is used again after a deny, a row becomes included only by the receipt of a call that
   * carried its block from PreToolUse or prints it itself - under every interleaving otherwise.
   */
  lemma TidyRunsIncludeOnlyReceived(run: seq<Step>, n: nat, i: ItemId)
    requires n < |run| && Tidy(run, n)
    requires forall k :: 0 <= k <= n ==> BuildsInOrder(At(run, k), run[k]) && NoReuse(At(run, k), run[k])
    requires NewlyIncluded(At(run, n), At(run, n + 1), i)
    ensures Justified(At(run, n), run[n], i)
  {
    hide NextLedger, NextFlights, NextHistory, TidyStep, Inv, Enabled, MergesUnderCarrier, LateReceipt, WaitingIsOldest,
      NewlyIncluded, Justified, DroppedWereDenied, BuildsInOrder, NoReuse;
    forall k | 0 <= k < n ensures !MergesUnderCarrier(At(run, k), run[k]) {
      RunInvariant(run, k);
      WaitingOldestAlong(run, k);
      OldestIsNotMergedUnder(At(run, k), run[k]);
    }
    TidyDropsWereDenied(run, n);
    NoLateReceipt(At(run, n), run[n]);
    IncludedOnlyIfReceived(run, n, i);
  }
}
