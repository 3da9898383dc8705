/**
 * What the model is told it received: a row becomes included only if the call that confirms it
 * carried that row's block or printed it, and deliveries are counted once per attempt.
 */
module DeferredDelivery {
  import opened Options
  import opened PackText
  import opened Ledger
  import opened Deferred
  import opened DeferredRows
  import opened DeferredRecords
  import opened DeferredRuns
  import opened DeferredSafety

  // ---------------------------------------------------------------- the claim

  /** `call` printed `pack` from its PreToolUse, or this step prints it. */
  ghost predicate Received(y: System, step: Step, pack: PendingPack)
    requires step.PostToolUse?
  {
    || (exists record :: Carriage(record, step.call, pack) in y.history.carried)
    || (y.ledger.slot == Some(pack)
        && Deliver(y.ledger, step.call, step.execution, step.now, step.guardHolds).text == Some(pack.text))
  }

  ghost predicate Justified(y: System, step: Step, i: ItemId) {
    step.PostToolUse? && i in y.ledger.items
    && exists pack :: Received(y, step, pack) && y.ledger.items[i].key in KeysOf(pack.blocks)
  }

  ghost predicate NewlyIncluded(y: System, z: System, i: ItemId) {
    && i in z.ledger.items && z.ledger.items[i].decision.Included?
    && !(i in y.ledger.items && y.ledger.items[i].decision.Included?)
  }

  /** The attempt through which a call would confirm the open record. */
  ghost function OpenAttempt(s: State, call: CallId): Option<Attempt> {
    var reported := ReportedRecord(s.records);
    if reported.None? || !Live(s.records[reported.value]) then None
    else
      var found := FindCall(s.records[reported.value].attempts, call);
      if found.None? then None else Some(s.records[reported.value].attempts[found.value])
  }

  /** A call confirms through an attempt that was already dropped, on a record still open. */
  ghost predicate LateReceipt(y: System, step: Step) {
    && step.PostToolUse?
    && OpenAttempt(y.ledger, step.call).Some? && OpenAttempt(y.ledger, step.call).value.delivery.Dropped?
  }

  /** A commit merges into a record whose text a call still carries. */
  ghost predicate MergesUnderCarrier(y: System, step: Step) {
    && step.CommitStore? && Enabled(y, step)
    && var target := MergeTarget(y.ledger, y.flights[step.id].pack, CommitOf(y, step));
       target.Some? && target.value in y.ledger.records && AnyWaiting(y.ledger.records[target.value].attempts)
  }

  // ---------------------------------------------------------------- what a waiting attempt freezes

  ghost predicate PlannedWithin(items: map<ItemId, Item>, r: RecordId, keys: set<Key>) {
    forall i :: i in items && PlannedOf(items[i], r) ==> items[i].key in keys
  }

  ghost predicate CarriedFor(items: map<ItemId, Item>, r: RecordId, call: CallId, carried: set<Carriage>) {
    exists pack :: Carriage(r, call, pack) in carried && PlannedWithin(items, r, KeysOf(pack.blocks))
  }

  /** While an attempt waits, its record's planned rows stay within the text its call carried. */
  ghost predicate Frozen(s: State, carried: set<Carriage>) {
    forall r, a :: r in s.records && 0 <= a < |s.records[r].attempts| && s.records[r].attempts[a].delivery.Waiting?
      ==> CarriedFor(s.items, r, s.records[r].attempts[a].call, carried)
  }

  /** Every waiting attempt was already waiting. */
  ghost predicate WaitingFrom(before: seq<Attempt>, after: seq<Attempt>) {
    forall a :: 0 <= a < |after| && after[a].delivery.Waiting? ==>
      a < |before| && before[a].delivery.Waiting? && before[a].call == after[a].call
  }

  lemma ShrinksWithin(before: map<ItemId, Item>, after: map<ItemId, Item>, r: RecordId, call: CallId,
      carried: set<Carriage>, more: set<Carriage>)
    requires PlannedShrinks(before, after, r) && CarriedFor(before, r, call, carried) && carried <= more
    ensures CarriedFor(after, r, call, more)
  {
    var pack :| Carriage(r, call, pack) in carried && PlannedWithin(before, r, KeysOf(pack.blocks));
    assert PlannedWithin(after, r, KeysOf(pack.blocks));
  }

  lemma FrozenKept(s: State, t: State, carried: set<Carriage>, more: set<Carriage>)
    requires Frozen(s, carried) && carried <= more
    requires forall r :: r in t.records && AnyWaiting(t.records[r].attempts) ==>
      r in s.records && WaitingFrom(s.records[r].attempts, t.records[r].attempts) && PlannedShrinks(s.items, t.items, r)
    ensures Frozen(t, more)
  {
    forall r, a | r in t.records && 0 <= a < |t.records[r].attempts| && t.records[r].attempts[a].delivery.Waiting?
      ensures CarriedFor(t.items, r, t.records[r].attempts[a].call, more)
    {
      assert s.records[r].attempts[a].call == t.records[r].attempts[a].call;
      ShrinksWithin(s.items, t.items, r, t.records[r].attempts[a].call, carried, more);
    }
  }

  lemma AttachFreezes(y: System, step: Step)
    requires step.PreToolUse? && Frozen(y.ledger, y.history.carried) && NamesUndelivered(y.ledger)
    ensures Frozen(Next(y, step).ledger, Next(y, step).history.carried)
  {
    var s := y.ledger;
    var read := CurrentPending(s, step.guardHolds);
    var live := LiveRecord(s.records, None);
    var t := Next(y, step).ledger;
    var more := Next(y, step).history.carried;
    forall r { CurrentPendingEffect(s, step.guardHolds, r); }
    if live.Some? && read.pending.Some? {
      AttachAdds(y, step, live.value);
      hide OmitUnrendered, CurrentPending, PlannedWithin, PlannedShrinks, Attach, OldestLive;
      forall r, a | r in t.records && 0 <= a < |t.records[r].attempts| && t.records[r].attempts[a].delivery.Waiting?
        ensures CarriedFor(t.items, r, t.records[r].attempts[a].call, more)
      {
        if a < |s.records[r].attempts| {
          ShrinksWithin(s.items, t.items, r, t.records[r].attempts[a].call, y.history.carried, more);
        }
      }
    } else {
      FrozenKept(s, t, y.history.carried, more);
    }
  }

  /** A PreToolUse that prints the text: one carriage more, at most one attempt more, and rows only close. */
  lemma AttachAdds(y: System, step: Step, live: RecordId)
    requires step.PreToolUse? && NamesUndelivered(y.ledger) && LiveRecord(y.ledger.records, None) == Some(live)
    requires CurrentPending(y.ledger, step.guardHolds).pending.Some?
    ensures var s, t, more := y.ledger, Next(y, step).ledger, Next(y, step).history.carried;
            && s.slot.Some? && Carriage(live, step.call, s.slot.value) in more && y.history.carried <= more
            && PlannedWithin(t.items, live, KeysOf(s.slot.value.blocks))
            && (forall r :: PlannedShrinks(s.items, t.items, r))
            && t.records.Keys == s.records.Keys
            && (forall r :: r in s.records ==> s.records[r].attempts <= t.records[r].attempts)
            && (forall r, a :: r in s.records && |s.records[r].attempts| <= a < |t.records[r].attempts| ==>
                  r == live && t.records[r].attempts[a].call == step.call)
  {
    forall r { CurrentPendingEffect(y.ledger, step.guardHolds, r); }
    hide CurrentPending, OldestLive;
  }

  lemma {:induction false} ConfirmShrinks(items: map<ItemId, Item>, owner: RecordId, below: nat, r: RecordId)
    requires UniqueIncluded(items)
    ensures PlannedShrinks(items, ConfirmRows(items, owner, below), r)
  {
    ConfirmRowsEffect(items, owner, below);
    hide ConfirmRows, UniqueIncluded, Taken;
  }

  lemma DeliverCarriedThaws(s: State, id: RecordId, at: nat, execution: Execution, now: int, r: RecordId)
    requires UniqueIncluded(s.items) && id in s.records && at < |s.records[id].attempts|
    ensures var t := DeliverCarried(s, id, at, execution, now).state;
            && PlannedShrinks(s.items, t.items, r) && t.records.Keys == s.records.Keys
            && (r in s.records ==> WaitingFrom(s.records[r].attempts, t.records[r].attempts))
  {
    ConfirmShrinks(s.items, id, s.nextItem, r);
    PlannedShrinksRefl(s.items, r);
    hide ConfirmRows, UniqueIncluded, PlannedShrinks;
  }

  lemma UnrenderedShrinks(items: map<ItemId, Item>, id: RecordId, keys: set<Key>, r: RecordId)
    requires UniqueIncluded(items)
    ensures var after := OmitUnrendered(items, id, keys);
            NoneIncluded(items, after) && UniqueIncluded(after) && PlannedShrinks(items, after, r)
  {
    var after := OmitUnrendered(items, id, keys);
    assert NoneIncluded(items, after);
    NoneIncludedUnique(items, after);
    hide UniqueIncluded;
  }

  lemma DeliverPrintedThaws(s: State, id: RecordId, pack: PendingPack, call: CallId, execution: Execution, now: int,
      r: RecordId)
    requires UniqueIncluded(s.items) && id in s.records
    ensures var t := DeliverPrinted(s, id, pack, call, execution, now).state;
            && PlannedShrinks(s.items, t.items, r) && t.records.Keys == s.records.Keys
            && (r in s.records ==> WaitingFrom(s.records[r].attempts, t.records[r].attempts))
  {
    var items := OmitUnrendered(s.items, id, KeysOf(pack.blocks));
    UnrenderedShrinks(s.items, id, KeysOf(pack.blocks), r);
    ConfirmShrinks(items, id, s.nextItem, r);
    PlannedShrinksTrans(s.items, items, ConfirmRows(items, id, s.nextItem), r);
    hide ConfirmRows, UniqueIncluded, OmitUnrendered, PlannedShrinks, NoneIncluded;
  }

  lemma CloseLostThaws(s: State, id: RecordId, record: Record, call: CallId, execution: Execution, now: int,
      r: RecordId)
    requires id in s.records && record.attempts == s.records[id].attempts
    ensures var t := CloseLost(s, id, record, call, execution, now);
            && PlannedShrinks(s.items, t.items, r) && t.records.Keys == s.records.Keys
            && (r in s.records ==> WaitingFrom(s.records[r].attempts, t.records[r].attempts))
  {
  }

  lemma DeliverThaws(s: State, call: CallId, execution: Execution, now: int, holds: bool, r: RecordId)
    requires NamesUndelivered(s) && UniqueIncluded(s.items)
    ensures var t := Deliver(s, call, execution, now, holds).state;
            && PlannedShrinks(s.items, t.items, r) && t.records.Keys == s.records.Keys
            && (r in s.records ==> WaitingFrom(s.records[r].attempts, t.records[r].attempts))
  {
    hide CurrentPending, DeliverCarried, DeliverPrinted, CloseLost, PlannedShrinks, UniqueIncluded, OldestLive,
        LatestEmitted;
    CurrentPendingEffect(s, holds, r);
    PlannedShrinksRefl(s.items, r);
    var read := CurrentPending(s, holds);
    var reported := ReportedRecord(s.records);
    if reported.Some? {
      var id := reported.value;
      var found := FindCall(s.records[id].attempts, call);
      if found.Some? {
        DeliverCarriedThaws(s, id, found.value, execution, now, r);
      } else {
        if read.pending.Some? {
          DeliverPrintedThaws(s, id, read.pending.value, call, execution, now, r);
        }
        CloseLostThaws(read.state, id, s.records[id], call, execution, now, r);
        PlannedShrinksTrans(s.items, read.state.items,
            CloseLost(read.state, id, s.records[id], call, execution, now).items, r);
      }
    }
  }

  /** No step but a PreToolUse makes an attempt wait, and only a merge adds planned rows to its record. */
  lemma StepThaws(y: System, step: Step, r: RecordId)
    requires Inv(y) && Enabled(y, step) && !step.PreToolUse?
    requires r in Next(y, step).ledger.records && AnyWaiting(Next(y, step).ledger.records[r].attempts)
    ensures r in y.ledger.records && WaitingFrom(y.ledger.records[r].attempts, Next(y, step).ledger.records[r].attempts)
    ensures || PlannedShrinks(y.ledger.items, Next(y, step).ledger.items, r)
            || (step.CommitStore? && MergeTarget(y.ledger, y.flights[step.id].pack, CommitOf(y, step)) == Some(r))
  {
    hide AddBuilt, Begin, Commit, Deliver, Deny, Stop, PlannedShrinks, PlanInto, OneSettled, TextInv, UniqueIncluded,
      Rendered, SlotAfterCommit, PassedText, NamesUndelivered, MergeTarget;
    var s := y.ledger;
    match step
    case Build(pack, considered, epoch, createdAt) => BuildSteady(s, pack, considered, epoch, createdAt);
      BuildShrinks(y, step, r);
    case BeginStore(id, holds) => BeginEffect(s, id, holds, r);
    case CommitStore(id, _, _, _) => CommitEffect(s, y.flights[id].pack, CommitOf(y, step), r);
    case PostToolUse(call, execution, now, holds) => DeliverThaws(s, call, execution, now, holds, r);
    case PermissionDenied(call, now) => DenyThaws(s, call, now, r);
    case StopHook(saw) => StopThaws(s, saw, r);
    case _ => PlannedShrinksRefl(s.items, r);
  }

  lemma StepKeepsFrozen(y: System, step: Step)
    requires Inv(y) && Frozen(y.ledger, y.history.carried) && Enabled(y, step) && !MergesUnderCarrier(y, step)
    ensures Frozen(Next(y, step).ledger, Next(y, step).history.carried)
  {
    var z := Next(y, step);
    if step.PreToolUse? {
      AttachFreezes(y, step);
    } else {
      assert y.history.carried <= z.history.carried by { hide NextLedger, NextFlights; }
      hide Frozen, NextLedger, NextFlights, NextHistory, PlannedShrinks, RowsInv, FlightsInv, OneSettled, TextInv,
          MergeTarget;
      forall r | r in z.ledger.records && AnyWaiting(z.ledger.records[r].attempts)
        ensures r in y.ledger.records && WaitingFrom(y.ledger.records[r].attempts, z.ledger.records[r].attempts)
                && PlannedShrinks(y.ledger.items, z.ledger.items, r)
      {
        StepThaws(y, step, r);
      }
      FrozenKept(y.ledger, z.ledger, y.history.carried, z.history.carried);
    }
  }

  lemma PlannedShrinksRefl(items: map<ItemId, Item>, r: RecordId)
    ensures PlannedShrinks(items, items, r)
  {
  }

  lemma BuildShrinks(y: System, step: Step, r: RecordId)
    requires step.Build? && RowsInv(y.ledger) && Enabled(y, step) && r != step.pack.id && FlightsInv(y)
    ensures PlannedShrinks(y.ledger.items, AddBuilt(y.ledger, step.pack, step.considered, step.epoch,
        step.createdAt).items, r)
  {
    BuildKeeps(y.ledger, step.pack, step.considered, step.epoch, step.createdAt);
    hide AddBuilt, UniqueIncluded, Homed;
  }

  lemma DenyThaws(s: State, call: CallId, now: int, r: RecordId)
    ensures var t := Deny(s, call, now).state;
            && PlannedShrinks(s.items, t.items, r) && t.records.Keys == s.records.Keys
            && (r in s.records ==> WaitingFrom(s.records[r].attempts, t.records[r].attempts))
  {
  }

  lemma StopThaws(s: State, saw: bool, r: RecordId)
    ensures var t := Stop(s, saw).state;
            && PlannedShrinks(s.items, t.items, r) && t.records.Keys == s.records.Keys
            && (r in s.records ==> WaitingFrom(s.records[r].attempts, t.records[r].attempts))
  {
  }

  /** A carriage is recorded only when a PreToolUse hook prints exactly the stored text. */
  lemma CarriageMeansPrinted(y: System, step: Step, c: Carriage)
    requires Inv(y) && c in Next(y, step).history.carried && c !in y.history.carried
    ensures step.PreToolUse? && step.call == c.call && y.ledger.slot == Some(c.pack) && Rendered(c.pack)
    ensures Attach(y.ledger, step.call, step.now, step.guardHolds).text == Some(c.pack.text)
    ensures LiveRecord(y.ledger.records, None) == Some(c.record)
  {
    hide RowsInv, FlightsInv, OneSettled, CancelUndelivered;
  }

  // ---------------------------------------------------------------- main result

  lemma CarriedJustifies(y: System, step: Step, id: RecordId, at: nat, i: ItemId)
    requires step.PostToolUse? && Inv(y) && Frozen(y.ledger, y.history.carried)
    requires id in y.ledger.records && at < |y.ledger.records[id].attempts|
    requires y.ledger.records[id].attempts[at].call == step.call && y.ledger.records[id].attempts[at].delivery.Waiting?
    requires i in y.ledger.items && PlannedOf(y.ledger.items[i], id)
    ensures Justified(y, step, i)
  {
    assert CarriedFor(y.ledger.items, id, step.call, y.history.carried);
    var pack :| Carriage(id, step.call, pack) in y.history.carried && PlannedWithin(y.ledger.items, id,
        KeysOf(pack.blocks));
    assert Received(y, step, pack);
  }

  lemma CarriedIncludes(s: State, id: RecordId, at: nat, execution: Execution, now: int, i: ItemId)
    requires UniqueIncluded(s.items) && id in s.records && at < |s.records[id].attempts|
    requires var t := DeliverCarried(s, id, at, execution, now).state; i in t.items && t.items[i].decision.Included?
    requires i in s.items ==> !s.items[i].decision.Included?
    ensures i in s.items && PlannedOf(s.items[i], id) && !s.records[id].state.Emitted?
    ensures !s.records[id].attempts[at].delivery.Delivered?
  {
    ConfirmRowsEffect(s.items, id, s.nextItem);
    hide ConfirmRows, UniqueIncluded, Taken;
  }

  lemma PrintedIncludes(s: State, id: RecordId, pack: PendingPack, call: CallId, execution: Execution, now: int,
      i: ItemId)
    requires UniqueIncluded(s.items) && id in s.records
    requires var t := DeliverPrinted(s, id, pack, call, execution, now).state; i in t.items && t.items[i].decision.Included?
    requires i in s.items ==> !s.items[i].decision.Included?
    ensures i in s.items && PlannedOf(s.items[i], id) && s.items[i].key in KeysOf(pack.blocks)
  {
    var items := OmitUnrendered(s.items, id, KeysOf(pack.blocks));
    assert NoneIncluded(s.items, items);
    NoneIncludedUnique(s.items, items);
    ConfirmRowsEffect(items, id, s.nextItem);
    hide ConfirmRows, UniqueIncluded, Taken;
  }

  lemma LostIncludesNothing(s: State, id: RecordId, record: Record, call: CallId, execution: Execution, now: int,
      i: ItemId)
    requires var t := CloseLost(s, id, record, call, execution, now); i in t.items && t.items[i].decision.Included?
    ensures i in s.items && s.items[i].decision.Included?
  {
  }

  lemma StepJustifies(y: System, step: Step, i: ItemId)
    requires Inv(y) && Frozen(y.ledger, y.history.carried) && Enabled(y, step) && !LateReceipt(y, step)
    requires NewlyIncluded(y, Next(y, step), i)
    ensures Justified(y, step, i)
  {
    StepKeepsRows(y, step);
    hide Homed, FlightsInv, OneSettled, TextInv, UniqueIncluded, Frozen, CurrentPending, DeliverCarried,
        DeliverPrinted, CloseLost;
    assert step.PostToolUse?;
    var s, call := y.ledger, step.call;
    CurrentPendingEffect(s, step.guardHolds, 0);
    CurrentPendingKeeps(s, step.guardHolds);
    var read := CurrentPending(s, step.guardHolds);
    var id := ReportedRecord(s.records).value;
    var found := FindCall(s.records[id].attempts, call);
    if found.Some? {
      CarriedIncludes(s, id, found.value, step.execution, step.now, i);
      CarriedJustifies(y, step, id, found.value, i);
    } else if read.pending.Some? {
      PrintedIncludes(s, id, s.slot.value, call, step.execution, step.now, i);
      PrintedText(s, id, s.slot.value, call, step.execution, step.now);
      assert Received(y, step, s.slot.value);
    } else if !AnyWaiting(s.records[id].attempts) {
      LostIncludesNothing(read.state, id, s.records[id], call, step.execution, step.now, i);
    }
  }

  lemma PrintedText(s: State, id: RecordId, pack: PendingPack, call: CallId, execution: Execution, now: int)
    requires id in s.records
    ensures DeliverPrinted(s, id, pack, call, execution, now).text == Some(pack.text)
  {
  }

  lemma FrozenAtStart()
    ensures Frozen(EMPTY.ledger, EMPTY.history.carried)
  {
  }

  lemma {:induction false} FrozenAlong(run: seq<Step>, n: nat)
    requires n <= |run| && forall k :: 0 <= k < n ==> !MergesUnderCarrier(At(run, k), run[k])
    ensures Frozen(At(run, n).ledger, At(run, n).history.carried)
  {
    hide Frozen, Inv, MergesUnderCarrier, Enabled, NextLedger, NextFlights, NextHistory;
    assert Frozen(EMPTY.ledger, EMPTY.history.carried) by { FrozenAtStart(); }
    if n > 0 {
      FrozenAlong(run, n - 1);
      RunInvariant(run, n - 1);
      if Enabled(At(run, n - 1), run[n - 1]) {
        StepKeepsFrozen(At(run, n - 1), run[n - 1]);
      }
    }
  }

  /**
   * In every interleaving without a merge under a carrier and without a late receipt, a row becomes
   * included only by the receipt of a call that carried its block from PreToolUse or prints it now.
   */
  lemma IncludedOnlyIfReceived(run: seq<Step>, n: nat, i: ItemId)
    requires n < |run|
    requires forall k :: 0 <= k < n ==> !MergesUnderCarrier(At(run, k), run[k])
    requires !LateReceipt(At(run, n), run[n])
    requires NewlyIncluded(At(run, n), At(run, n + 1), i)
    ensures Justified(At(run, n), run[n], i)
  {
    hide Inv, Frozen, Justified, MergesUnderCarrier, LateReceipt, Enabled, NextLedger, NextFlights, NextHistory;
    RunInvariant(run, n);
    FrozenAlong(run, n);
    if Enabled(At(run, n), run[n]) {
      StepJustifies(At(run, n), run[n], i);
    }
  }
}
