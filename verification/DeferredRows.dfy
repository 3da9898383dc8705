/**
 * What each hook does to the item rows of the ledger: which rows it may close, move or include.
 */
module DeferredRows {
  import opened Options
  import opened PackText
  import opened Ledger
  import opened Deferred

  function NewRows(id: RecordId, epoch: nat, rows: seq<PackItem>, from: nat): map<ItemId, Item> {
    if rows == [] then map[]
    else
      var n := |rows| - 1;
      NewRows(id, epoch, rows[..n], from)[from + n := Item(id, epoch, rows[n].key, rows[n].decision, rows[n].reason)]
  }

  /** createInjection and planItems in one transaction; the deferred lane builds the record as pending. */
  function AddBuilt(s: State, pack: BuiltPack, considered: seq<PackItem>, epoch: nat, createdAt: int): State {
    var rows := pack.items + considered;
    s.(records := s.records[pack.id := Record(Pending, [], 0, Some(pack.charBudget), pack.degraded, createdAt, 0)],
       items := s.items + NewRows(pack.id, epoch, rows, s.nextItem),
       nextItem := s.nextItem + |rows|)
  }

  // ---------------------------------------------------------------- what confirming does to rows

  ghost predicate UniqueIncluded(items: map<ItemId, Item>) {
    forall i, j :: i in items && j in items && i != j && items[i].decision.Included? && items[j].decision.Included?
      && items[i].key.memory.Some? && items[i].epoch == items[j].epoch
      ==> items[i].key.memory != items[j].key.memory
  }

  /** A decided row keeps its decision, reason and identity; a planned one is at most decided once. */
  ghost predicate Decided(before: Item, after: Item) {
    && before.epoch == after.epoch && before.key == after.key
    && (!before.decision.Planned? ==> after.decision == before.decision && after.reason == before.reason)
  }

  ghost predicate Confirmed(before: map<ItemId, Item>, after: map<ItemId, Item>, owner: RecordId, below: nat) {
    && after.Keys == before.Keys
    && (forall i :: i in before && !(PlannedOf(before[i], owner) && i < below) ==> after[i] == before[i])
    && (forall i :: i in before && PlannedOf(before[i], owner) && i < below ==>
         || after[i] == before[i].(decision := Included)
         || (after[i] == Omit(before[i], Some(DuplicateInConversation)) && Taken(after, before[i])))
  }

  lemma TakenPersists(items: map<ItemId, Item>, owner: RecordId, i: ItemId, row: Item)
    requires Taken(items, row)
    ensures Taken(ConfirmRow(items, owner, i), row)
  {
    var j :| j in items && items[j].decision.Included? && items[j].epoch == row.epoch && items[j].key.memory == row.key.memory;
    assert ConfirmRow(items, owner, i)[j] == items[j];
  }

  lemma ConfirmRowUnique(items: map<ItemId, Item>, owner: RecordId, i: ItemId)
    requires UniqueIncluded(items)
    ensures UniqueIncluded(ConfirmRow(items, owner, i))
  {
  }

  lemma ConfirmOneMore(items: map<ItemId, Item>, mid: map<ItemId, Item>, owner: RecordId, below: nat)
    requires Confirmed(items, mid, owner, below)
    ensures Confirmed(items, ConfirmRow(mid, owner, below), owner, below + 1)
  {
    var after := ConfirmRow(mid, owner, below);
    forall i | i in items && PlannedOf(items[i], owner) && i < below + 1
      ensures || after[i] == items[i].(decision := Included)
              || (after[i] == Omit(items[i], Some(DuplicateInConversation)) && Taken(after, items[i]))
    {
      if Taken(mid, items[i]) {
        TakenPersists(mid, owner, below, items[i]);
      }
      hide Taken;
    }
    hide Taken;
  }

  lemma ConfirmedNone(items: map<ItemId, Item>, owner: RecordId)
    ensures Confirmed(items, items, owner, 0)
  {
    hide Taken;
  }

  lemma {:induction false} ConfirmRowsEffect(items: map<ItemId, Item>, owner: RecordId, below: nat)
    requires UniqueIncluded(items)
    ensures Confirmed(items, ConfirmRows(items, owner, below), owner, below)
    ensures UniqueIncluded(ConfirmRows(items, owner, below))
  {
    hide UniqueIncluded, ConfirmRow, Confirmed;
    if below == 0 {
      ConfirmedNone(items, owner);
    } else {
      ConfirmRowsEffect(items, owner, below - 1);
      var mid := ConfirmRows(items, owner, below - 1);
      ConfirmRowUnique(mid, owner, below - 1);
      ConfirmOneMore(items, mid, owner, below - 1);
    }
  }

  ghost predicate SameMemory(a: Item, b: Item) {
    a.key.memory.Some? && a.epoch == b.epoch && a.key.memory == b.key.memory
  }

  /** No included row holds the row's memory in its epoch, and no earlier planned row of the record is for it. */
  ghost predicate FirstOfMemory(items: map<ItemId, Item>, owner: RecordId, i: ItemId)
    requires i in items
  {
    && !Taken(items, items[i])
    && forall j :: j in items && j < i && PlannedOf(items[j], owner) ==> !SameMemory(items[i], items[j])
  }

  lemma {:induction false} LaterRowsLeave(items: map<ItemId, Item>, owner: RecordId, below: nat, i: ItemId)
    requires i in items && i < below
    ensures i in ConfirmRows(items, owner, i + 1) && i in ConfirmRows(items, owner, below)
    ensures ConfirmRows(items, owner, below)[i] == ConfirmRows(items, owner, i + 1)[i]
  {
    hide Taken;
    ConfirmKeepsKeys(items, owner, i + 1);
    if i + 1 < below {
      LaterRowsLeave(items, owner, below - 1, i);
    }
  }

  lemma {:induction false} ConfirmKeepsKeys(items: map<ItemId, Item>, owner: RecordId, below: nat)
    ensures ConfirmRows(items, owner, below).Keys == items.Keys
  {
    hide Taken;
    if below > 0 {
      ConfirmKeepsKeys(items, owner, below - 1);
    }
  }

  lemma TakenMidway(items: map<ItemId, Item>, mid: map<ItemId, Item>, owner: RecordId, i: ItemId)
    requires i in items && Confirmed(items, mid, owner, i)
    ensures Taken(mid, items[i]) <==> !FirstOfMemory(items, owner, i)
  {
    if Taken(mid, items[i]) {
      var j :| j in mid && mid[j].decision.Included? && mid[j].epoch == items[i].epoch && mid[j].key.memory == items[i].key.memory;
      assert mid[j] == items[j] || SameMemory(items[i], items[j]);
    }
    if Taken(items, items[i]) {
      var j :| j in items && items[j].decision.Included? && items[j].epoch == items[i].epoch && items[j].key.memory == items[i].key.memory;
      assert mid[j] == items[j];
    }
    if j :| j in items && j < i && PlannedOf(items[j], owner) && SameMemory(items[i], items[j]) {
      assert mid[j].decision.Included? || Taken(mid, items[j]);
    }
  }

  /** A planned row becomes included exactly if the index is free for it when its turn comes. */
  lemma ConfirmIncludesExactly(items: map<ItemId, Item>, owner: RecordId, below: nat, i: ItemId)
    requires UniqueIncluded(items) && i in items && PlannedOf(items[i], owner) && i < below
    ensures i in ConfirmRows(items, owner, below)
    ensures ConfirmRows(items, owner, below)[i].decision.Included? <==> FirstOfMemory(items, owner, i)
  {
    LaterRowsLeave(items, owner, below, i);
    ConfirmRowsEffect(items, owner, i);
    var mid := ConfirmRows(items, owner, i);
    assert mid[i] == items[i];
    hide UniqueIncluded, Taken, FirstOfMemory;
    TakenMidway(items, mid, owner, i);
  }

  /** Rows never dangle, and planned rows belong to live records. */
  ghost predicate Homed(s: State) {
    && (forall i :: i in s.items ==> i < s.nextItem && s.items[i].owner in s.records)
    && (forall i :: i in s.items && s.items[i].decision.Planned? ==> Live(s.records[s.items[i].owner]))
  }

  ghost predicate RowsInv(s: State) {
    Homed(s) && UniqueIncluded(s.items)
  }

  /** Rows are closed, moved or left; none is included, lost or reopened. */
  ghost predicate NoneIncluded(before: map<ItemId, Item>, after: map<ItemId, Item>) {
    && after.Keys == before.Keys
    && forall i :: i in before ==>
         Decided(before[i], after[i]) && (after[i].decision.Included? ==> before[i].decision.Included?)
  }

  lemma NoneIncludedUnique(before: map<ItemId, Item>, after: map<ItemId, Item>)
    requires NoneIncluded(before, after) && UniqueIncluded(before)
    ensures UniqueIncluded(after)
  {
  }

  lemma NoneIncludedTrans(a: map<ItemId, Item>, b: map<ItemId, Item>, c: map<ItemId, Item>)
    requires NoneIncluded(a, b) && NoneIncluded(b, c)
    ensures NoneIncluded(a, c)
  {
  }

  lemma CancelKeeps(s: State, id: RecordId)
    requires Homed(s)
    ensures Homed(CancelUndelivered(s, id)) && NoneIncluded(s.items, CancelUndelivered(s, id).items)
  {
  }

  lemma CurrentPendingKeeps(s: State, holds: bool)
    requires Homed(s)
    ensures Homed(CurrentPending(s, holds).state) && NoneIncluded(s.items, CurrentPending(s, holds).state.items)
  {
    if s.slot.Some? {
      CancelKeeps(s, s.slot.value.owner);
    }
  }

  lemma ReparentKeeps(s: State, from: RecordId, to: RecordId)
    requires Homed(s) && to in s.records && from != to && Live(s.records[to])
    ensures Homed(ReparentItems(s, from, to)) && NoneIncluded(s.items, ReparentItems(s, from, to).items)
  {
  }

  lemma OmitPlannedKeeps(s: State, id: RecordId, reason: Option<ItemReason>)
    requires Homed(s)
    ensures var t := s.(items := OmitPlanned(s.items, id, reason)); Homed(t) && NoneIncluded(s.items, t.items)
  {
  }

  /** A record is closed together with its planned rows. */
  lemma CloseKeeps(s: State, id: RecordId, reason: Option<ItemReason>, why: DegradedReason)
    requires Homed(s)
    ensures var t := s.(items := OmitPlanned(s.items, id, reason), records := OmitRecord(s.records, id, why), slot := None);
            Homed(t) && NoneIncluded(s.items, t.items)
  {
  }

  lemma RefuseKeeps(s: State, pack: BuiltPack, live: RecordId, rejection: Rejection)
    requires Homed(s) && live in s.records && pack.id != live && Live(s.records[live])
    ensures Homed(Refuse(s, pack, live, rejection)) && NoneIncluded(s.items, Refuse(s, pack, live, rejection).items)
  {
    var omitted := s.(items := OmitPlanned(s.items, pack.id, RejectionReason(rejection)));
    OmitPlannedKeeps(s, pack.id, RejectionReason(rejection));
    ReparentKeeps(omitted, pack.id, live);
    var moved := ReparentItems(omitted, pack.id, live);
    CloseKeeps(moved, live, Some(NotDelivered), INDEX_UNAVAILABLE);
    NoneIncludedTrans(s.items, omitted.items, moved.items);
    NoneIncludedTrans(s.items, moved.items, Refuse(s, pack, live, rejection).items);
    hide Homed, NoneIncluded, OmitPlanned, OmitRecord, ReparentItems;
  }

  lemma {:induction false} OmitAllEffect(s: State, owner: RecordId, omissions: seq<Omission>)
    requires Homed(s)
    ensures var t := s.(items := OmitAll(s.items, owner, omissions)); Homed(t) && NoneIncluded(s.items, t.items)
  {
    if omissions != [] {
      OmitAllEffect(s, owner, omissions[..|omissions| - 1]);
    }
  }

  lemma MergeKeeps(s: State, pack: BuiltPack, live: RecordId, plan: MergePlan, stamp: Option<string>)
    requires Homed(s) && live in s.records && pack.id != live && Live(s.records[live])
    ensures Homed(Merge(s, pack, live, plan, stamp)) && NoneIncluded(s.items, Merge(s, pack, live, plan, stamp).items)
  {
    RefuseKeeps(s, pack, live, Secret);
    var omitted := s.(items := OmitAll(s.items, pack.id, plan.omissions));
    OmitAllEffect(s, pack.id, plan.omissions);
    ReparentKeeps(omitted, pack.id, live);
    var moved := ReparentItems(omitted, pack.id, live);
    NoneIncludedTrans(s.items, omitted.items, moved.items);
    DegradeKeeps(moved, live, plan.degraded);
    SlotKeeps(DegradedIn(moved, live, plan.degraded), Merge(s, pack, live, plan, stamp).slot);
    hide Homed, NoneIncluded, Refuse, ReparentItems, OmitAll, MergedGuard;
  }

  function DegradedIn(s: State, id: RecordId, degraded: Option<DegradedReason>): State {
    s.(records := if id in s.records then s.records[id := s.records[id].(degraded := degraded)] else s.records)
  }

  lemma DegradeKeeps(s: State, id: RecordId, degraded: Option<DegradedReason>)
    requires Homed(s)
    ensures Homed(DegradedIn(s, id, degraded))
  {
  }

  lemma SlotKeeps(s: State, slot: Option<PendingPack>)
    requires Homed(s)
    ensures Homed(s.(slot := slot))
  {
  }

  lemma BeginKeeps(s: State, id: RecordId, holds: bool)
    requires Homed(s)
    ensures Homed(Begin(s, id, holds).state) && NoneIncluded(s.items, Begin(s, id, holds).state.items)
  {
    CurrentPendingKeeps(s, holds);
    CancelKeeps(CurrentPending(s, holds).state, id);
  }

  lemma StoreFirstKeeps(s: State, pack: BuiltPack)
    requires Homed(s)
    ensures Homed(StoreFirst(s, pack)) && NoneIncluded(s.items, StoreFirst(s, pack).items)
  {
  }

  lemma GiveUpKeeps(s: State, pack: RecordId, live: RecordId)
    requires Homed(s) && live in s.records && pack != live && Live(s.records[live])
    ensures Homed(GiveUp(s, pack, live)) && NoneIncluded(s.items, GiveUp(s, pack, live).items)
  {
    var omitted := s.(items := OmitPlanned(s.items, pack, Some(NotDelivered)));
    assert Homed(omitted);
    ReparentKeeps(omitted, pack, live);
  }

  lemma CommitKeeps(s: State, pack: BuiltPack, input: CommitInput)
    requires Homed(s)
    ensures Homed(Commit(s, pack, input)) && NoneIncluded(s.items, Commit(s, pack, input).items)
  {
    hide Homed, NoneIncluded, Merge, Refuse, StoreFirst, ReparentItems, OmitPlanned, CurrentPending,
        CancelUndelivered, PlanInto;
    var read := CurrentPending(s, input.slotGuardHolds).state;
    CurrentPendingKeeps(s, input.slotGuardHolds);
    CancelKeeps(s, pack.id);
    CancelKeeps(read, pack.id);
    StoreFirstKeeps(read, pack);
    NoneIncludedTrans(s.items, read.items, CancelUndelivered(read, pack.id).items);
    NoneIncludedTrans(s.items, read.items, StoreFirst(read, pack).items);
    var live := LiveRecord(read.records, Some(pack.id));
    if live.Some? {
      var plan := PlanInto(read.records[live.value], read.slot, pack);
      GiveUpKeeps(read, pack.id, live.value);
      NoneIncludedTrans(s.items, read.items, GiveUp(read, pack.id, live.value).items);
      if input.rejection.Some? {
        RefuseKeeps(read, pack, live.value, input.rejection.value);
        NoneIncludedTrans(s.items, read.items, Refuse(read, pack, live.value, input.rejection.value).items);
      }
      MergeKeeps(read, pack, live.value, plan, input.stamp);
      NoneIncludedTrans(s.items, read.items, Merge(read, pack, live.value, plan, input.stamp).items);
    }
  }

  lemma AttachKeeps(s: State, call: CallId, now: int, holds: bool)
    requires Homed(s)
    ensures var t := Attach(s, call, now, holds).state; Homed(t) && NoneIncluded(s.items, t.items)
  {
    CurrentPendingKeeps(s, holds);
    hide CurrentPending, CancelUndelivered;
  }

  lemma StopKeeps(s: State, saw: bool)
    requires Homed(s)
    ensures var t := Stop(s, saw).state; Homed(t) && NoneIncluded(s.items, t.items)
  {
  }

  lemma CloseLostKeeps(s: State, id: RecordId, record: Record, call: CallId, execution: Execution, now: int)
    requires Homed(s)
    ensures var t := CloseLost(s, id, record, call, execution, now); Homed(t) && NoneIncluded(s.items, t.items)
  {
  }

  lemma CountDeliveryKeeps(s: State, id: RecordId, attempts: seq<Attempt>)
    requires Homed(s)
    ensures Homed(CountDelivery(s, id, attempts)) && CountDelivery(s, id, attempts).items == s.items
  {
  }

  /** Only confirming includes rows: the planned rows of the record, each once per memory. */
  lemma ConfirmKeeps(s: State, id: RecordId, now: int)
    requires RowsInv(s)
    ensures RowsInv(ConfirmDelivery(s, id, now))
    ensures Confirmed(s.items, ConfirmDelivery(s, id, now).items, id, s.nextItem)
  {
    ConfirmRowsEffect(s.items, id, s.nextItem);
    hide UniqueIncluded;
  }

  lemma OmitUnrenderedKeeps(s: State, id: RecordId, keys: set<Key>)
    requires RowsInv(s)
    ensures var t := s.(items := OmitUnrendered(s.items, id, keys)); RowsInv(t) && NoneIncluded(s.items, t.items)
  {
    NoneIncludedUnique(s.items, OmitUnrendered(s.items, id, keys));
    hide UniqueIncluded;
  }

  ghost predicate RowsDecided(before: map<ItemId, Item>, after: map<ItemId, Item>) {
    after.Keys == before.Keys && forall i :: i in before ==> Decided(before[i], after[i])
  }

  lemma DeliverCarriedKeeps(s: State, id: RecordId, at: nat, execution: Execution, now: int)
    requires RowsInv(s) && id in s.records && at < |s.records[id].attempts|
    ensures var t := DeliverCarried(s, id, at, execution, now).state; RowsInv(t) && RowsDecided(s.items, t.items)
  {
    var attempts := s.records[id].attempts[at := s.records[id].attempts[at].(execution := execution,
        delivery := Delivered)];
    CountDeliveryKeeps(s, id, attempts);
    ConfirmKeeps(CountDelivery(s, id, attempts), id, now);
    hide UniqueIncluded, ConfirmDelivery, CountDelivery, ConfirmRows;
  }

  lemma DeliverPrintedKeeps(s: State, id: RecordId, pack: PendingPack, call: CallId, execution: Execution, now: int)
    requires RowsInv(s) && id in s.records
    ensures var t := DeliverPrinted(s, id, pack, call, execution, now).state; RowsInv(t) && RowsDecided(s.items, t.items)
  {
    var counted := CountDelivery(s, id, s.records[id].attempts + [Attempt(call, execution, Delivered, now)]);
    CountDeliveryKeeps(s, id, s.records[id].attempts + [Attempt(call, execution, Delivered, now)]);
    OmitUnrenderedKeeps(counted, id, KeysOf(pack.blocks));
    ConfirmKeeps(counted.(items := OmitUnrendered(counted.items, id, KeysOf(pack.blocks))), id, now);
    hide UniqueIncluded, ConfirmDelivery, CountDelivery, ConfirmRows, OmitUnrendered;
  }

  lemma DeliverKeeps(s: State, call: CallId, execution: Execution, now: int, holds: bool)
    requires RowsInv(s)
    ensures var t := Deliver(s, call, execution, now, holds).state; RowsInv(t) && RowsDecided(s.items, t.items)
  {
    hide UniqueIncluded, Homed, DeliverCarried, DeliverPrinted, CloseLost, CurrentPending, OldestLive, LatestEmitted;
    var reported := ReportedRecord(s.records);
    if reported.Some? {
      var id := reported.value;
      var record := s.records[id];
      var found := FindCall(record.attempts, call);
      if found.Some? {
        DeliverCarriedKeeps(s, id, found.value, execution, now);
      } else {
        var read := CurrentPending(s, holds);
        CurrentPendingKeeps(s, holds);
        NoneIncludedUnique(s.items, read.state.items);
        CloseLostKeeps(read.state, id, record, call, execution, now);
        NoneIncludedUnique(read.state.items, CloseLost(read.state, id, record, call, execution, now).items);
        if read.pending.Some? {
          DeliverPrintedKeeps(s, id, read.pending.value, call, execution, now);
        }
      }
    }
  }

  lemma {:induction false} NewRowsEffect(id: RecordId, epoch: nat, rows: seq<PackItem>, from: nat)
    requires forall i :: 0 <= i < |rows| ==> !rows[i].decision.Included?
    ensures forall i :: i in NewRows(id, epoch, rows, from) ==>
      && from <= i < from + |rows|
      && NewRows(id, epoch, rows, from)[i].owner == id
      && !NewRows(id, epoch, rows, from)[i].decision.Included?
  {
    if rows != [] {
      NewRowsEffect(id, epoch, rows[..|rows| - 1], from);
    }
  }

  lemma BuildKeeps(s: State, pack: BuiltPack, considered: seq<PackItem>, epoch: nat, createdAt: int)
    requires RowsInv(s) && pack.id !in s.records
    requires forall i :: 0 <= i < |pack.items| ==> !pack.items[i].decision.Included?
    requires forall i :: 0 <= i < |considered| ==> considered[i].decision.Omitted?
    ensures var t := AddBuilt(s, pack, considered, epoch, createdAt);
            && RowsInv(t) && s.items.Keys <= t.items.Keys && (forall i :: i in s.items ==> t.items[i] == s.items[i])
            && (forall i :: i in t.items && i !in s.items ==> t.items[i].owner == pack.id && !t.items[i].decision.Included?)
  {
    NewRowsEffect(pack.id, epoch, pack.items + considered, s.nextItem);
  }

  lemma DenyKeeps(s: State, call: CallId, now: int)
    requires RowsInv(s)
    ensures RowsInv(Deny(s, call, now).state) && Deny(s, call, now).state.items == s.items
  {
    hide UniqueIncluded;
  }

  lemma LoseKeeps(s: State)
    requires RowsInv(s)
    ensures RowsInv(s.(slot := None))
  {
  }

  lemma BuildSteady(s: State, pack: BuiltPack, considered: seq<PackItem>, epoch: nat, createdAt: int)
    ensures var t := AddBuilt(s, pack, considered, epoch, createdAt);
            t.records.Keys == s.records.Keys + {pack.id} && t.slot == s.slot && t.records[pack.id].attempts == []
            && t.records[pack.id].state.Pending? && t.records[pack.id].deliveryCount == 0
            && forall r :: r in s.records && r != pack.id ==> t.records[r] == s.records[r]
  {
  }
}
