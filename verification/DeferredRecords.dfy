/**
 * What storing a pack does to the records, the stored text and the planned rows of each record.
 */
module DeferredRecords {
  import opened Options
  import opened PackText
  import opened Ledger
  import opened Deferred

  /** Records other than `own` stay, keep their attempts, stay emitted and are not reopened. */
  ghost predicate Steady(before: State, after: State, own: Option<RecordId>) {
    && after.records.Keys <= before.records.Keys
    && forall r :: r in before.records && own != Some(r) ==>
         && r in after.records
         && after.records[r].attempts == before.records[r].attempts
         && after.records[r].createdAt == before.records[r].createdAt
         && after.records[r].deliveryCount == before.records[r].deliveryCount
         && (before.records[r].state.Emitted? <==> after.records[r].state.Emitted?)
         && (before.records[r].state.RecordOmitted? ==> after.records[r].state.RecordOmitted?)
         && (Live(after.records[r]) ==> Live(before.records[r]))
  }

  ghost predicate NamesUndelivered(s: State) {
    s.slot.Some? && s.slot.value.owner in s.records ==> !s.records[s.slot.value.owner].state.Emitted?
  }

  /** Every planned row of `r` was already a planned row of `r`. */
  ghost predicate PlannedShrinks(before: map<ItemId, Item>, after: map<ItemId, Item>, r: RecordId) {
    forall i :: i in after && PlannedOf(after[i], r) ==>
      i in before && PlannedOf(before[i], r) && before[i].key == after[i].key
  }

  lemma PlannedShrinksTrans(a: map<ItemId, Item>, b: map<ItemId, Item>, c: map<ItemId, Item>, r: RecordId)
    requires PlannedShrinks(a, b, r) && PlannedShrinks(b, c, r)
    ensures PlannedShrinks(a, c, r)
  {
  }

  lemma CancelEffect(s: State, id: RecordId, r: RecordId)
    ensures var t := CancelUndelivered(s, id);
      && Steady(s, t, Some(id)) && PlannedShrinks(s.items, t.items, r) && t.slot == s.slot
      && t.records.Keys == s.records.Keys
      && (id in t.records ==> t.records[id].state.RecordOmitted? && t.records[id].attempts == s.records[id].attempts
                              && t.records[id].deliveryCount == s.records[id].deliveryCount
                              && t.records[id].createdAt == s.records[id].createdAt)
  {
  }

  lemma CurrentPendingEffect(s: State, holds: bool, r: RecordId)
    requires NamesUndelivered(s)
    ensures var t := CurrentPending(s, holds).state;
      && Steady(s, t, None) && PlannedShrinks(s.items, t.items, r) && t.records.Keys == s.records.Keys
      && (t.slot == s.slot || t.slot.None?) && NamesUndelivered(t)
      && (CurrentPending(s, holds).pending.Some? ==> t == s && CurrentPending(s, holds).pending == s.slot)
  {
    if s.slot.Some? {
      CancelEffect(s, s.slot.value.owner, r);
      hide CancelUndelivered;
    }
  }

  lemma {:induction false} OmitAllShrinks(s: State, owner: RecordId, omissions: seq<Omission>, r: RecordId)
    ensures PlannedShrinks(s.items, OmitAll(s.items, owner, omissions), r)
    ensures OmitAll(s.items, owner, omissions).Keys == s.items.Keys
    ensures forall i :: i in s.items ==> OmitAll(s.items, owner, omissions)[i].owner == s.items[i].owner
  {
    if omissions != [] {
      OmitAllShrinks(s, owner, omissions[..|omissions| - 1], r);
    }
  }

  lemma ReparentOmittedShrinks(s: State, reason: Option<ItemReason>, from: RecordId, to: RecordId, r: RecordId)
    requires from != to
    ensures var t := ReparentItems(s.(items := OmitPlanned(s.items, from, reason)), from, to);
      && PlannedShrinks(s.items, t.items, r) && Steady(s, t, Some(from)) && t.slot == s.slot
      && t.records == s.records - {from}
  {
  }

  lemma ReparentEffect(s: State, from: RecordId, to: RecordId, r: RecordId)
    requires from != to
    ensures var t := ReparentItems(s, from, to);
      && Steady(s, t, Some(from)) && t.slot == s.slot && t.records == s.records - {from}
      && (r != to ==> PlannedShrinks(s.items, t.items, r))
  {
  }

  lemma StoreFirstEffect(s: State, pack: BuiltPack, r: RecordId)
    requires pack.id in s.records
    ensures var t := StoreFirst(s, pack);
      && Steady(s, t, Some(pack.id)) && PlannedShrinks(s.items, t.items, r) && t.records.Keys == s.records.Keys
      && t.slot == Some(FirstPending(pack)) && t.records[pack.id] == s.records[pack.id].(state := Pending)
      && forall o :: LiveExcept(t.records, o, Some(pack.id)) ==> LiveExcept(s.records, o, Some(pack.id))
  {
  }

  lemma GiveUpEffect(s: State, pack: RecordId, live: RecordId, r: RecordId)
    requires pack != live
    ensures var t := GiveUp(s, pack, live);
      && PlannedShrinks(s.items, t.items, r) && Steady(s, t,
          Some(pack)) && t.slot == s.slot && t.records == s.records - {pack}
  {
    ReparentOmittedShrinks(s, Some(NotDelivered), pack, live, r);
    hide ReparentItems, OmitPlanned;
  }

  lemma SteadyFromRead(a: State, b: State, c: State, id: RecordId)
    requires Steady(a, b, None) && Steady(b, c, Some(id))
    ensures Steady(a, c, Some(id))
  {
  }

  lemma RefuseEffect(s: State, pack: BuiltPack, live: RecordId, rejection: Rejection, r: RecordId)
    requires pack.id != live && live in s.records && Live(s.records[live])
    ensures var t := Refuse(s, pack, live, rejection);
      && PlannedShrinks(s.items, t.items, r) && Steady(s, t, Some(pack.id)) && (t.slot == s.slot || t.slot.None?)
      && t.records.Keys == s.records.Keys - {pack.id}
  {
    ReparentOmittedShrinks(s, RejectionReason(rejection), pack.id, live, r);
    hide ReparentItems, OmitPlanned, OmitRecord, PlannedShrinks, Steady;
    var moved := ReparentItems(s.(items := OmitPlanned(s.items, pack.id, RejectionReason(rejection))), pack.id, live);
    CloseEffect(moved, live, r);
    var closed := Closed(moved, live);
    SteadyThen(s, moved, closed, Some(pack.id));
    PlannedShrinksTrans(s.items, moved.items, closed.items, r);
  }

  /** The live record of a text with control characters is closed with its planned rows. */
  function Closed(s: State, live: RecordId): State {
    s.(items := OmitPlanned(s.items, live, Some(NotDelivered)),
       records := OmitRecord(s.records, live, INDEX_UNAVAILABLE),
       slot := None)
  }

  lemma CloseEffect(s: State, live: RecordId, r: RecordId)
    requires live in s.records && Live(s.records[live])
    ensures var t := Closed(s, live);
      PlannedShrinks(s.items, t.items, r) && Steady(s, t, None) && t.slot.None? && t.records.Keys == s.records.Keys
  {
  }

  lemma SteadyThen(a: State, b: State, c: State, own: Option<RecordId>)
    requires Steady(a, b, own) && Steady(b, c, None)
    ensures Steady(a, c, own)
  {
  }

  /** Merging hands the pack's planned rows to the live record and to no other. */
  lemma MergeEffect(s: State, pack: BuiltPack, live: RecordId, plan: MergePlan, stamp: Option<string>, r: RecordId)
    requires pack.id != live && live in s.records && Live(s.records[live])
    ensures var t := Merge(s, pack, live, plan, stamp);
      && Steady(s, t, Some(pack.id)) && t.records.Keys == s.records.Keys - {pack.id}
      && (MergedGuard(s.slot, pack.guard, stamp).None? || r != live ==> PlannedShrinks(s.items, t.items, r))
      && (MergedGuard(s.slot, pack.guard, stamp).None? ==> t.slot == s.slot || t.slot.None?)
      && (MergedGuard(s.slot, pack.guard, stamp).Some? ==>
            Live(t.records[live]) && t.slot == Some(PendingPack(live, plan.repositoryLine, plan.degraded, plan.blocks,
                plan.text,
              MergedGuard(s.slot, pack.guard, stamp).value)))
  {
    hide OmitAll, PlannedShrinks, ReparentItems, Refuse, MergedGuard, LiveRecord;
    RefuseEffect(s, pack, live, Secret, r);
    var omitted := s.(items := OmitAll(s.items, pack.id, plan.omissions));
    OmitAllShrinks(s, pack.id, plan.omissions, r);
    ReparentEffect(omitted, pack.id, live, r);
    if r != live {
      PlannedShrinksTrans(s.items, omitted.items, ReparentItems(omitted, pack.id, live).items, r);
    }
  }

  /** The record whose planned rows a commit adds to, if it gets that far. */
  ghost function MergeTarget(s: State, pack: BuiltPack, input: CommitInput): Option<RecordId> {
    var read := CurrentPending(s, input.slotGuardHolds).state;
    var live := LiveRecord(read.records, Some(pack.id));
    if Carrier(s, pack.id).Some? || (pack.guard.Some? && !input.packGuardHolds) || live.None?
       || input.validated != Some(PlanInto(read.records[live.value], read.slot, pack).text)
       || input.rejection.Some? || MergedGuard(read.slot, pack.guard, input.stamp).None?
    then None else live
  }

  /** The outcomes of a commit for the stored text: kept, cleared, the pack's own, or the validated merge. */
  ghost predicate SlotAfterCommit(s: State, t: State, pack: BuiltPack, input: CommitInput) {
    || t.slot == s.slot
    || t.slot.None?
    || (t.slot == Some(FirstPending(pack)) && OnlyLive(t, pack.id))
    || (t.slot.Some? && input.validated == Some(t.slot.value.text) && input.rejection.None? && Rendered(t.slot.value)
        && MergeTarget(s, pack, input) == Some(t.slot.value.owner)
        && t.slot.value.owner in t.records && Live(t.records[t.slot.value.owner]))
  }

  /** The text is the rendering of exactly these blocks. */
  ghost predicate Rendered(p: PendingPack) {
    p.text == RenderPack(p.repositoryLine, p.blocks, p.degraded)
  }

  lemma PlanIsRendered(live: Record, slot: Option<PendingPack>, pack: BuiltPack)
    ensures var plan := PlanInto(live, slot, pack); plan.text == RenderPack(plan.repositoryLine, plan.blocks, plan.degraded)
  {
  }

  ghost predicate OnlyLive(t: State, id: RecordId) {
    id in t.records && t.records[id].state.Pending? && forall r :: !LiveExcept(t.records, r, Some(id))
  }

  ghost predicate SameDelivery(before: Record, after: Record) {
    after.attempts == before.attempts && after.deliveryCount == before.deliveryCount && after.createdAt == before.createdAt
  }

  ghost predicate OwnAfterCommit(before: Record, t: State, id: RecordId) {
    id in t.records ==>
      && SameDelivery(before, t.records[id])
      && (t.records[id].state.RecordOmitted? || OnlyLive(t, id))
  }

  lemma StoreOrMergeEffect(s: State, read: State, pack: BuiltPack, input: CommitInput, r: RecordId)
    requires pack.id in read.records
    requires read == CurrentPending(s, input.slotGuardHolds).state
    requires Carrier(s, pack.id).None? && !(pack.guard.Some? && !input.packGuardHolds)
    ensures var t := StoreOrMerge(read, pack, input);
      && Steady(read, t, Some(pack.id))
      && read.records.Keys - {pack.id} <= t.records.Keys <= read.records.Keys
      && (MergeTarget(s, pack, input) != Some(r) ==> PlannedShrinks(read.items, t.items, r))
      && (SlotAfterCommit(s, t, pack, input) || t.slot == read.slot)
      && OwnAfterCommit(read.records[pack.id], t, pack.id)
  {
    hide Merge, Refuse, GiveUp, StoreFirst, CurrentPending, PlanInto, PlannedShrinks, MergedGuard, FirstPending,
        Carrier;
    StoreFirstEffect(read, pack, r);
    var live := LiveRecord(read.records, Some(pack.id));
    if live.Some? {
      var plan := PlanInto(read.records[live.value], read.slot, pack);
      GiveUpEffect(read, pack.id, live.value, r);
      if input.rejection.Some? {
        RefuseEffect(read, pack, live.value, input.rejection.value, r);
      }
      MergeEffect(read, pack, live.value, plan, input.stamp, r);
      PlanIsRendered(read.records[live.value], read.slot, pack);
    }
  }

  lemma CommitEffect(s: State, pack: BuiltPack, input: CommitInput, r: RecordId)
    requires NamesUndelivered(s) && pack.id in s.records
    ensures var t := Commit(s, pack, input);
      && Steady(s, t, Some(pack.id))
      && s.records.Keys - {pack.id} <= t.records.Keys <= s.records.Keys
      && (MergeTarget(s, pack, input) != Some(r) ==> PlannedShrinks(s.items, t.items, r))
      && SlotAfterCommit(s, t, pack, input)
      && OwnAfterCommit(s.records[pack.id], t, pack.id)
  {
    hide StoreOrMerge, CurrentPending, CancelUndelivered, PlannedShrinks, MergeTarget, OldestLive;
    CancelEffect(s, pack.id, r);
    var t := Commit(s, pack, input);
    var read := CurrentPending(s, input.slotGuardHolds).state;
    CurrentPendingEffect(s, input.slotGuardHolds, r);
    CancelEffect(read, pack.id, r);
    if Carrier(s, pack.id).None? {
      if pack.guard.Some? && !input.packGuardHolds {
        assert t == CancelUndelivered(read, pack.id);
      } else {
        assert t == StoreOrMerge(read, pack, input);
        StoreOrMergeEffect(s, read, pack, input, r);
      }
      SteadyFromRead(s, read, t, pack.id);
      if PlannedShrinks(read.items, t.items, r) {
        PlannedShrinksTrans(s.items, read.items, t.items, r);
      }
    }
  }

  lemma BeginEffect(s: State, id: RecordId, holds: bool, r: RecordId)
    requires NamesUndelivered(s)
    ensures var t := Begin(s, id, holds).state;
      && Steady(s, t, Some(id)) && PlannedShrinks(s.items, t.items, r) && t.records.Keys == s.records.Keys
      && (t.slot == s.slot || t.slot.None?) && NamesUndelivered(t)
      && (!Begin(s, id, holds).done ==> Steady(s, t, None))
      && (id in s.records ==> SameDelivery(s.records[id], t.records[id]))
      && (Begin(s, id, holds).done && id in s.records ==> t.records[id].state.RecordOmitted?)
  {
    var read := CurrentPending(s, holds).state;
    CurrentPendingEffect(s, holds, r);
    CancelEffect(read, id, r);
    SteadyFromRead(s, read, CancelUndelivered(read, id), id);
    PlannedShrinksTrans(s.items, read.items, CancelUndelivered(read, id).items, r);
    hide CurrentPending, CancelUndelivered, PlannedShrinks;
  }

  // ---------------------------------------------------------------- tool hooks

  /** Tool hooks never create, delete or reopen a record, and write no text. */
  ghost predicate HookSteady(before: State, after: State) {
    && after.records.Keys == before.records.Keys
    && (after.slot == before.slot || after.slot.None?)
    && NamesUndelivered(after)
    && forall r :: r in before.records ==>
         && after.records[r].createdAt == before.records[r].createdAt
         && (before.records[r].state.Emitted? ==> after.records[r].state.Emitted?)
         && (before.records[r].state.RecordOmitted? ==> after.records[r].state.RecordOmitted?)
  }

  lemma AttachSteady(s: State, call: CallId, now: int, holds: bool)
    requires NamesUndelivered(s)
    ensures HookSteady(s, Attach(s, call, now, holds).state)
    ensures Attach(s, call, now, holds).text.Some? ==> s.slot.Some? && LiveRecord(s.records, None).Some?
  {
    CurrentPendingEffect(s, holds, 0);
    hide CurrentPending, PlannedShrinks, OmitUnrendered;
  }

  lemma SameIsSteady(s: State)
    requires NamesUndelivered(s)
    ensures HookSteady(s, s)
  {
  }

  lemma DeliverCarriedSteady(s: State, id: RecordId, at: nat, execution: Execution, now: int)
    requires NamesUndelivered(s) && id in s.records && at < |s.records[id].attempts|
    requires !s.records[id].state.RecordOmitted?
    ensures HookSteady(s, DeliverCarried(s, id, at, execution, now).state)
  {
    hide ConfirmRows;
  }

  lemma DeliverPrintedSteady(s: State, id: RecordId, pack: PendingPack, call: CallId, execution: Execution, now: int)
    requires NamesUndelivered(s) && id in s.records && Live(s.records[id])
    ensures HookSteady(s, DeliverPrinted(s, id, pack, call, execution, now).state)
  {
    hide ConfirmRows, OmitUnrendered;
  }

  lemma CloseLostSteady(s: State, id: RecordId, record: Record, call: CallId, execution: Execution, now: int)
    requires NamesUndelivered(s) && (id in s.records ==> !s.records[id].state.Emitted?)
    ensures HookSteady(s, CloseLost(s, id, record, call, execution, now))
  {
    hide OmitPlanned;
  }

  lemma ReportedIsNotOmitted(s: State)
    ensures var reported := ReportedRecord(s.records);
            reported.Some? ==> reported.value in s.records && !s.records[reported.value].state.RecordOmitted?
  {
  }

  /** A receipt of a call without an attempt, on an open record. */
  lemma DeliverOpenSteady(s: State, id: RecordId, call: CallId, execution: Execution, now: int, holds: bool)
    requires NamesUndelivered(s) && id in s.records && Live(s.records[id])
    ensures var read := CurrentPending(s, holds);
            && HookSteady(s, read.state)
            && (read.pending.Some? ==> HookSteady(s, DeliverPrinted(s, id, read.pending.value, call, execution, now).state) && read.state == s)
            && HookSteady(s, CloseLost(read.state, id, s.records[id], call, execution, now))
  {
    CurrentPendingEffect(s, holds, 0);
    hide CurrentPending, DeliverPrinted, CloseLost, PlannedShrinks;
    var read := CurrentPending(s, holds);
    if read.pending.Some? {
      DeliverPrintedSteady(s, id, read.pending.value, call, execution, now);
    }
    CloseLostSteady(read.state, id, s.records[id], call, execution, now);
  }

  lemma DeliverSteady(s: State, call: CallId, execution: Execution, now: int, holds: bool)
    requires NamesUndelivered(s)
    ensures HookSteady(s, Deliver(s, call, execution, now, holds).state)
  {
    ReportedIsNotOmitted(s);
    hide CurrentPending, DeliverCarried, DeliverPrinted, CloseLost, OldestLive, LatestEmitted, HookSteady, NamesUndelivered;
    SameIsSteady(s);
    var reported := ReportedRecord(s.records);
    if reported.Some? {
      var id := reported.value;
      var found := FindCall(s.records[id].attempts, call);
      if found.Some? {
        DeliverCarriedSteady(s, id, found.value, execution, now);
      } else if !s.records[id].state.Emitted? {
        DeliverOpenSteady(s, id, call, execution, now, holds);
      }
    }
  }

  lemma DenySteady(s: State, call: CallId, now: int)
    requires NamesUndelivered(s)
    ensures HookSteady(s, Deny(s, call, now).state)
  {
  }

  lemma StopSteady(s: State, saw: bool)
    requires NamesUndelivered(s)
    ensures HookSteady(s, Stop(s, saw).state)
  {
    hide OmitPlanned;
  }
}
