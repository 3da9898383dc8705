/**
 * The hooks as they run: a ledger whose rows are selected, looped over and updated in place, one
 * method per transaction of src/injection/deferred.ts. Each is proved equal to the transition the
 * run theorems are about.
 */
module DeferredStore {
  import opened Options
  import opened PackText
  import opened Ledger
  import opened Deferred
  import opened DeferredRows
  import opened DeferredOutcomes

  class LedgerStore {
    var records: map<RecordId, Record>
    var items: map<ItemId, Item>
    var nextItem: nat
    var slot: Option<PendingPack>

    ghost function Value(): State
      reads this
    {
      State(records, items, nextItem, slot)
    }

    constructor ()
      ensures Value() == State(map[], map[], 0, None)
    {
      records, items, nextItem, slot := map[], map[], 0, None;
    }

    // -------------------------------------------------------------- selections

    /** The oldest record not delivered yet, by creation time and then id. */
    method SelectLive(exclude: Option<RecordId>) returns (live: Option<RecordId>)
      ensures live == LiveRecord(records, exclude)
    {
      live := None;
      var rest := records.Keys;
      while rest != {}
        invariant rest <= records.Keys
        invariant live.None? ==> forall r :: r in records && r !in rest ==> !LiveExcept(records, r, exclude)
        invariant live.Some? ==> LiveExcept(records, live.value, exclude)
        invariant live.Some? ==> forall r :: r !in rest && LiveExcept(records, r, exclude) ==> CreatedBefore(records, live.value, r)
        decreases rest
      {
        var id :| id in rest;
        rest := rest - {id};
        if LiveExcept(records, id, exclude) && (live.None? || CreatedBefore(records, id, live.value)) {
          live := Some(id);
        }
      }
      if live.Some? {
        LiveRecordIs(records, exclude, live.value);
      }
    }

    /** The live record, or the one delivered last. */
    method SelectReported() returns (reported: Option<RecordId>)
      ensures reported == ReportedRecord(records)
    {
      reported := SelectLive(None);
      if reported.Some? {
        ReportedRecordIs(records, reported.value);
        return;
      }
      var rest := records.Keys;
      while rest != {}
        invariant rest <= records.Keys
        invariant reported.None? ==> forall r :: r in records && r !in rest ==> !records[r].state.Emitted?
        invariant reported.Some? ==> reported.value in records && records[reported.value].state.Emitted?
        invariant reported.Some? ==> forall r :: r in records && r !in rest && records[r].state.Emitted? ==> EmittedAfter(records, reported.value, r)
        decreases rest
      {
        var id :| id in rest;
        rest := rest - {id};
        if records[id].state.Emitted? && (reported.None? || EmittedAfter(records, id, reported.value)) {
          reported := Some(id);
        }
      }
      if reported.Some? {
        ReportedRecordIs(records, reported.value);
      }
    }

    static method FindAttempt(attempts: seq<Attempt>, call: CallId) returns (found: Option<nat>)
      ensures found == FindCall(attempts, call)
    {
      for i := 0 to |attempts|
        invariant FindCall(attempts[..i], call) == None
      {
        assert attempts[..i + 1][..i] == attempts[..i];
        if attempts[i].call == call {
          FirstMatch(attempts, call, i);
          return Some(i);
        }
      }
      assert attempts[..|attempts|] == attempts;
      return None;
    }

    // -------------------------------------------------------------- row updates

    /** Planned rows whose block was not rendered are closed one by one. */
    method CloseUnrendered(id: RecordId, blocks: seq<Block>)
      modifies this`items
      ensures items == OmitUnrendered(old(items), id, KeysOf(blocks))
    {
      var rendered := KeysOf(blocks);
      var rest := set i | i in items && PlannedOf(items[i], id);
      while rest != {}
        invariant items.Keys == old(items).Keys
        invariant forall i :: i in rest ==> i in old(items) && PlannedOf(old(items)[i], id)
        invariant forall i :: i in old(items) ==>
          items[i] == if i in rest then old(items)[i] else OmitUnrendered(old(items), id, rendered)[i]
        decreases rest
      {
        var i :| i in rest;
        rest := rest - {i};
        if items[i].key !in rendered {
          items := items[i := Omit(items[i], Some(NotDelivered))];
        }
      }
    }

    /** Each planned row becomes included, or a duplicate when the unique index rejects it. */
    method Confirm(id: RecordId, now: int)
      modifies this`items, this`records
      ensures Value() == ConfirmDelivery(old(Value()), id, now)
    {
      for i := 0 to nextItem
        invariant items == ConfirmRows(old(items), id, i)
        invariant records == old(records)
      {
        if i in items && PlannedOf(items[i], id) {
          if Taken(items, items[i]) {
            items := items[i := Omit(items[i], Some(DuplicateInConversation))];
          } else {
            items := items[i := items[i].(decision := Included)];
          }
        }
      }
      if id in records {
        records := records[id := records[id].(state := Emitted, emittedAt := now)];
      }
    }

    method Cancel(id: RecordId)
      modifies this`items, this`records
      ensures Value() == CancelUndelivered(old(Value()), id)
      ensures items.Keys == old(items).Keys && forall i :: i in items ==> !PlannedOf(items[i], id)
      ensures forall i :: i in items && !PlannedOf(old(items)[i], id) ==> items[i] == old(items)[i]
      ensures id in records ==> records[id].state.RecordOmitted?
      ensures records.Keys == old(records).Keys && forall r :: r in records && r != id ==> records[r] == old(records)[r]
    {
      items := OmitPlanned(items, id, Some(NotDelivered));
      records := OmitRecord(records, id, NOT_DELIVERED);
    }

    method Adopt(from: RecordId, to: RecordId)
      modifies this`items, this`records
      ensures Value() == ReparentItems(old(Value()), from, to)
      ensures from != to ==> items.Keys == old(items).Keys
      ensures forall i :: i in items ==>
        items[i] == if old(items)[i].owner == from then old(items)[i].(owner := to) else old(items)[i]
      ensures from !in records && forall r :: r in old(records) && r != from ==> r in records && records[r] == old(records)[r]
    {
      items := Reparent(items, from, to);
      items := Cascade(items, from);
      records := records - {from};
    }

    method ReadCurrent(guardHolds: bool) returns (pending: Option<PendingPack>)
      modifies this
      ensures Reading(Value(), pending) == CurrentPending(old(Value()), guardHolds)
    {
      pending := slot;
      if pending.Some? && pending.value.guard.Some? && !guardHolds {
        if !AnyWaiting(AttemptsOf(records, pending.value.owner)) {
          Cancel(pending.value.owner);
          slot := None;
        }
        pending := None;
      }
    }

    // -------------------------------------------------------------- storing a built pack

    method PreserveCarrier(id: RecordId) returns (carrier: Option<RecordId>)
      modifies this
      ensures carrier == Carrier(old(Value()), id)
      ensures Value() == if carrier.Some? then CancelUndelivered(old(Value()), id) else old(Value())
    {
      carrier := SelectLive(Some(id));
      if carrier.Some? && AnyWaiting(records[carrier.value].attempts) {
        Cancel(id);
      } else {
        carrier := None;
      }
    }

    /** None when no other record is live: the built pack then simply becomes the pending one. */
    method PlanMerge(pack: BuiltPack) returns (live: Option<RecordId>, plan: MergePlan)
      ensures live == LiveRecord(records, Some(pack.id))
      ensures live.Some? ==> plan == PlanInto(records[live.value], slot, pack)
      ensures live.Some? ==> Plans(records[live.value].charBudget, slot, pack, plan)
    {
      live := SelectLive(Some(pack.id));
      plan := MergePlan("", None, [], [], "");
      if live.Some? {
        var line := if slot.Some? then slot.value.repositoryLine else pack.repositoryLine;
        var degraded := if slot.Some? && slot.value.degraded.Some? then slot.value.degraded else pack.degraded;
        var blocks := WithChoices(if slot.Some? then slot.value.blocks else [], pack.choices);
        var budget := records[live.value].charBudget.GetOr(pack.charBudget);
        var merged, omissions, _ := FoldPlanned(pack.items, blocks, budget, |RenderPack(line, blocks, degraded)|);
        plan := MergePlan(line, degraded, merged, omissions, RenderPack(line, merged, degraded));
        PlanMeans(records[live.value], slot, pack);
      }
    }

    method BeginStore(id: RecordId, slotGuardHolds: bool) returns (done: bool)
      modifies this
      ensures Begun(Value(), done) == Begin(old(Value()), id, slotGuardHolds)
      ensures BeginOutcome(old(Value()), id, slotGuardHolds, Value(), done)
    {
      BeginMeans(Value(), id, slotGuardHolds);
      hide BeginOutcome;
      var _ := ReadCurrent(slotGuardHolds);
      var carrier := PreserveCarrier(id);
      done := carrier.Some?;
    }

    method RefusePending(pack: BuiltPack, live: RecordId, rejection: Rejection)
      modifies this
      ensures Value() == Refuse(old(Value()), pack, live, rejection)
    {
      items := OmitPlanned(items, pack.id, RejectionReason(rejection));
      Adopt(pack.id, live);
      if rejection.ControlCharacters? {
        items := OmitPlanned(items, live, Some(NotDelivered));
        records := OmitRecord(records, live, INDEX_UNAVAILABLE);
        slot := None;
      }
    }

    method MergePending(pack: BuiltPack, live: RecordId, plan: MergePlan, stamp: Option<string>)
      modifies this
      ensures Value() == Merge(old(Value()), pack, live, plan, stamp)
    {
      var guard := MergedGuard(slot, pack.guard, stamp);
      if guard.None? {
        RefusePending(pack, live, Secret);
        return;
      }
      for i := 0 to |plan.omissions|
        invariant items == OmitAll(old(items), pack.id, plan.omissions[..i])
        invariant records == old(records) && slot == old(slot) && nextItem == old(nextItem)
      {
        assert plan.omissions[..i + 1][..i] == plan.omissions[..i];
        items := OmitKey(items, pack.id, plan.omissions[i]);
      }
      assert plan.omissions[..|plan.omissions|] == plan.omissions;
      Adopt(pack.id, live);
      if live in records {
        records := records[live := records[live].(degraded := plan.degraded)];
      }
      slot := Some(PendingPack(live, plan.repositoryLine, plan.degraded, plan.blocks, plan.text, guard.value));
    }

    method StoreFirstPending(pack: BuiltPack)
      modifies this
      ensures Value() == StoreFirst(old(Value()), pack)
    {
      records := SetState(records, pack.id, Pending);
      var blocks := if pack.choices != [] then [Block(CHOICE_KEY, pack.choices)] else [];
      var first := blocks;
      for i := 0 to |pack.items|
        invariant blocks == first + PlannedBlocks(pack.items[..i])
        invariant records == SetState(old(records), pack.id, Pending) && unchanged(`items, `nextItem, `slot)
      {
        assert pack.items[..i + 1][..i] == pack.items[..i];
        if pack.items[i].decision.Planned? {
          blocks := blocks + [Block(pack.items[i].key, pack.items[i].lines)];
        }
      }
      assert pack.items[..|pack.items|] == pack.items;
      slot := Some(PendingPack(pack.id, pack.repositoryLine, pack.degraded, blocks, pack.text, pack.guard));
    }

    method CommitStore(pack: BuiltPack, input: CommitInput)
      modifies this
      ensures Value() == Commit(old(Value()), pack, input)
      ensures CommitOutcome(old(Value()), pack, input, Value())
    {
      CommitMeans(Value(), pack, input);
      hide CommitOutcome;
      hide StoreFirst, Merge, Refuse, CurrentPending, CancelUndelivered, PlanInto, ReparentItems, OldestLive;
      var carrier := PreserveCarrier(pack.id);
      if carrier.Some? {
        return;
      }
      var _ := ReadCurrent(input.slotGuardHolds);
      if pack.guard.Some? && !input.packGuardHolds {
        Cancel(pack.id);
        return;
      }
      var live, plan := PlanMerge(pack);
      if live.None? {
        StoreFirstPending(pack);
      } else if input.validated != Some(plan.text) {
        items := OmitPlanned(items, pack.id, Some(NotDelivered));
        Adopt(pack.id, live.value);
      } else if input.rejection.Some? {
        RefusePending(pack, live.value, input.rejection.value);
      } else {
        MergePending(pack, live.value, plan, input.stamp);
      }
    }

    // -------------------------------------------------------------- tool hooks

    method AttachOnPreToolUse(call: CallId, now: int, guardHolds: bool) returns (text: Option<string>)
      modifies this
      ensures Attached(Value(), text) == Attach(old(Value()), call, now, guardHolds)
      ensures AttachOutcome(old(Value()), call, now, guardHolds, Value(), text)
    {
      AttachMeans(Value(), call, now, guardHolds);
      hide AttachOutcome;
      hide CurrentPending;
      var live := SelectLive(None);
      if live.None? {
        return None;
      }
      var attempts := records[live.value].attempts;
      var pending := ReadCurrent(guardHolds);
      if pending.None? {
        return None;
      }
      PendingMeansUntouched(old(Value()), guardHolds);
      CloseUnrendered(live.value, pending.value.blocks);
      var found := FindAttempt(attempts, call);
      if found.None? {
        attempts := attempts + [Attempt(call, NotRun, Waiting, now)];
      }
      records := records[live.value := records[live.value].(state := Attempted, attempts := attempts)];
      text := Some(pending.value.text);
    }

    method DeliverCall(call: CallId, execution: Execution, now: int, guardHolds: bool)
        returns (status: DeliveryStatus, text: Option<string>)
      modifies this
      ensures DeliveryResult(Value(), status, text) == Deliver(old(Value()), call, execution, now, guardHolds)
      ensures RowsInv(old(Value())) ==> DeliverOutcome(old(Value()), call, execution, now, guardHolds, Value(), status, text)
    {
      if RowsInv(Value()) {
        DeliverMeans(Value(), call, execution, now, guardHolds);
      }
      hide RowsInv, DeliverOutcome;
      hide CurrentPending, OldestLive, LatestEmitted, ConfirmDelivery, OmitUnrendered;
      var reported := SelectReported();
      if reported.None? {
        return NoDelivery, None;
      }
      var id := reported.value;
      var record := records[id];
      var found := FindAttempt(record.attempts, call);
      if found.Some? {
        var attempt := record.attempts[found.value];
        if attempt.delivery.Delivered? {
          return Already, None;
        }
        var attempts := record.attempts[found.value := attempt.(execution := execution, delivery := Delivered)];
        records := records[id := records[id].(attempts := attempts, deliveryCount := records[id].deliveryCount + 1)];
        if record.state.Emitted? {
          return Already, None;
        }
        Confirm(id, now);
        slot := None;
        return NewlyEmitted, None;
      }
      if record.state.Emitted? {
        return NoDelivery, None;
      }
      var pending := ReadCurrent(guardHolds);
      if pending.None? {
        if AnyWaiting(record.attempts) {
          return NoDelivery, None;
        }
        if id in records {
          records := records[id := records[id].(attempts := record.attempts + [Attempt(call, execution, Dropped,
              now)])];
        }
        items := OmitPlanned(items, id, Some(NotDelivered));
        records := OmitRecord(records, id, record.degraded.GetOr(NOT_DELIVERED));
        slot := None;
        return ClosedUndelivered, None;
      }
      PendingMeansUntouched(old(Value()), guardHolds);
      var attempts := record.attempts + [Attempt(call, execution, Delivered, now)];
      records := records[id := records[id].(attempts := attempts, deliveryCount := records[id].deliveryCount + 1)];
      CloseUnrendered(id, pending.value.blocks);
      Confirm(id, now);
      slot := None;
      return NewlyEmitted, Some(pending.value.text);
    }

    method MarkDenied(call: CallId, now: int) returns (recorded: bool)
      modifies this
      ensures DenyResult(Value(), recorded) == Deny(old(Value()), call, now)
      ensures DenyOutcome(old(Value()), call, now, Value(), recorded)
    {
      DenyMeans(Value(), call, now);
      hide DenyOutcome;
      hide OldestLive, LatestEmitted;
      var reported := SelectReported();
      if reported.None? {
        return false;
      }
      var record := records[reported.value];
      var attempts := record.attempts;
      var found := FindAttempt(attempts, call);
      if found.None? {
        if record.state.Emitted? {
          return false;
        }
        attempts := attempts + [Attempt(call, Denied, Dropped, now)];
      } else {
        attempts := attempts[found.value := attempts[found.value].(execution := Denied, delivery := Dropped)];
      }
      records := records[reported.value := record.(attempts := attempts)];
      recorded := true;
    }

    method CloseOnStop(sawAnyToolHook: bool) returns (closed: bool)
      modifies this
      ensures StopResult(Value(), closed) == Stop(old(Value()), sawAnyToolHook)
      ensures StopOutcome(old(Value()), sawAnyToolHook, Value(), closed)
    {
      StopMeans(Value(), sawAnyToolHook);
      hide StopOutcome;
      hide OldestLive, LatestEmitted;
      var reported := SelectReported();
      if reported.None? {
        return false;
      }
      var id := reported.value;
      var record := records[id];
      var attempts := record.attempts;
      for i := 0 to |attempts|
        invariant |attempts| == |record.attempts|
        invariant forall k :: 0 <= k < |attempts| ==>
          attempts[k] == if k < i then DropWaiting(record.attempts)[k] else record.attempts[k]
      {
        if attempts[i].delivery.Waiting? {
          attempts := attempts[i := attempts[i].(delivery := Dropped)];
        }
      }
      assert attempts == DropWaiting(record.attempts);
      records := records[id := record.(attempts := attempts)];
      if record.state.Emitted? {
        return false;
      }
      items := OmitPlanned(items, id, Some(NotDelivered));
      records := OmitRecord(records, id, record.degraded.GetOr(if sawAnyToolHook then NOT_DELIVERED else NO_TOOL_CALL));
      slot := None;
      closed := true;
    }
  }

  lemma {:induction false} FirstMatch(attempts: seq<Attempt>, call: CallId, i: nat)
    requires i < |attempts| && attempts[i].call == call && FindCall(attempts[..i], call) == None
    ensures FindCall(attempts, call) == Some(i)
  {
    var n := |attempts| - 1;
    if i < n {
      assert attempts[..n][..i] == attempts[..i];
      FirstMatch(attempts[..n], call, i);
    }
  }

  lemma PendingMeansUntouched(s: State, guardHolds: bool)
    requires CurrentPending(s, guardHolds).pending.Some?
    ensures CurrentPending(s, guardHolds) == Reading(s, s.slot)
  {
  }
}
