/**
 * What each deferred delivery hook does, said of the rows, records and stored text it leaves, field by
 * field. Nothing here uses the functions that compute the hooks; every step of every run satisfies it.
 */
module DeferredOutcomes {
  import opened Options
  import opened PackText
  import opened Ledger
  import opened Deferred
  import opened DeferredRows
  import opened DeferredRecords
  import opened DeferredRuns
  import opened DeferredSafety

  // ---------------------------------------------------------------- vocabulary

  predicate Open(s: State, id: RecordId) {
    id in s.records && (s.records[id].state == Pending || s.records[id].state == Attempted)
  }

  /** The open record created first, the lower id first among equals, leaving one record out of account. */
  ghost predicate IsOldest(s: State, exclude: Option<RecordId>, id: RecordId) {
    && Open(s, id) && exclude != Some(id)
    && forall other :: Open(s, other) && exclude != Some(other) && other != id ==>
         || s.records[id].createdAt < s.records[other].createdAt
         || (s.records[id].createdAt == s.records[other].createdAt && id < other)
  }

  /** The oldest open record, or without one the record emitted last, the higher id last among equals. */
  ghost predicate IsReported(s: State, id: RecordId) {
    || IsOldest(s, None, id)
    || (&& id in s.records && s.records[id].state == Emitted && (forall other :: !Open(s, other))
        && forall other :: other in s.records && s.records[other].state == Emitted && other != id ==>
             || s.records[other].emittedAt < s.records[id].emittedAt
             || (s.records[other].emittedAt == s.records[id].emittedAt && other < id))
  }

  ghost predicate NothingReported(s: State) {
    forall id :: id in s.records ==> s.records[id].state == RecordOmitted
  }

  predicate HasWaiting(attempts: seq<Attempt>) {
    exists k :: 0 <= k < |attempts| && attempts[k].delivery == Waiting
  }

  predicate HasCall(attempts: seq<Attempt>, call: CallId) {
    exists k :: 0 <= k < |attempts| && attempts[k].call == call
  }

  predicate FirstOfCall(attempts: seq<Attempt>, call: CallId, at: nat) {
    at < |attempts| && attempts[at].call == call && forall k :: 0 <= k < at ==> attempts[k].call != call
  }

  predicate PlannedFor(s: State, id: RecordId, i: ItemId) {
    i in s.items && s.items[i].owner == id && s.items[i].decision == Planned
  }

  function As(row: Item, decision: Decision, reason: Option<ItemReason>): Item {
    Item(row.owner, row.epoch, row.key, decision, reason)
  }

  /** The planned rows of the record are omitted as not delivered, and no other row changes. */
  ghost predicate RowsClosed(s: State, t: State, id: RecordId) {
    && t.items.Keys == s.items.Keys
    && forall i :: i in s.items ==>
         t.items[i] == if PlannedFor(s, id, i) then As(s.items[i], Omitted, Some(NotDelivered)) else s.items[i]
  }

  function ClosedAs(r: Record, attempts: seq<Attempt>, reason: DegradedReason): Record {
    Record(RecordOmitted, attempts, r.deliveryCount, r.charBudget, Some(reason), r.createdAt, r.emittedAt)
  }

  /** The record and its planned rows close as not delivered. */
  ghost predicate Cancelled(s: State, t: State, id: RecordId) {
    && RowsClosed(s, t, id) && t.nextItem == s.nextItem
    && t.records == if id in s.records
                    then s.records[id := ClosedAs(s.records[id], s.records[id].attempts, NOT_DELIVERED)]
                    else s.records
  }

  /** There is a stored text and its work guard, if any, still holds. */
  predicate Readable(s: State, guardHolds: bool) {
    s.slot.Some? && (s.slot.value.guard.None? || guardHolds)
  }

  /** A text that must not be shown any more goes with its record, unless a call already carries it. */
  ghost predicate DropsStale(s: State, t: State, guardHolds: bool) {
    if s.slot.Some? && !Readable(s, guardHolds)
       && !(s.slot.value.owner in s.records && HasWaiting(s.records[s.slot.value.owner].attempts))
    then Cancelled(s, t, s.slot.value.owner) && t.slot == None
    else t == s
  }

  lemma OldestExactly(s: State, exclude: Option<RecordId>, id: RecordId)
    ensures LiveRecord(s.records, exclude) == Some(id) <==> IsOldest(s, exclude, id)
  {
    if IsOldest(s, exclude, id) {
      LiveRecordIs(s.records, exclude, id);
    }
    if LiveRecord(s.records, exclude) == Some(id) {
      forall other | Open(s, other) && exclude != Some(other) && other != id
        ensures s.records[id].createdAt < s.records[other].createdAt
                || (s.records[id].createdAt == s.records[other].createdAt && id < other)
      {
        assert LiveExcept(s.records, other, exclude);
      }
    }
  }

  lemma NoneOldestExactly(s: State, exclude: Option<RecordId>)
    ensures LiveRecord(s.records, exclude).None? <==> forall id :: id in s.records && Open(s, id) ==> exclude == Some(id)
  {
    var r := LiveRecord(s.records, exclude);
    if r.None? {
      forall id | id in s.records && Open(s, id) ensures exclude == Some(id) {
        assert !LiveExcept(s.records, id, exclude);
      }
    } else {
      assert Open(s, r.value);
    }
  }

  lemma ReportedExactly(s: State, id: RecordId)
    ensures ReportedRecord(s.records) == Some(id) <==> IsReported(s, id)
  {
    OldestExactly(s, None, id);
    NoneOldestExactly(s, None);
    var r := ReportedRecord(s.records);
    if r == Some(id) && !Live(s.records[id]) {
      assert LatestEmitted(s.records, id);
      forall other ensures !Open(s, other) {
        assert !LiveExcept(s.records, other, None);
      }
    }
    if IsReported(s, id) {
      if IsOldest(s, None, id) {
        assert OldestLive(s.records, None, id);
      } else {
        assert LatestEmitted(s.records, id);
        forall other ensures !LiveExcept(s.records, other, None) {
          assert !Open(s, other);
        }
      }
      ReportedRecordIs(s.records, id);
    }
  }

  lemma NothingReportedExactly(s: State)
    ensures ReportedRecord(s.records).None? <==> NothingReported(s)
  {
    var r := ReportedRecord(s.records);
    if r.Some? {
      assert r.value in s.records && !s.records[r.value].state.RecordOmitted?;
    }
  }

  lemma {:induction false} FirstCallExactly(attempts: seq<Attempt>, call: CallId)
    ensures FindCall(attempts, call).None? <==> !HasCall(attempts, call)
    ensures FindCall(attempts, call).Some? ==> FirstOfCall(attempts, call, FindCall(attempts, call).value)
  {
    if attempts != [] {
      var n := |attempts| - 1;
      FirstCallExactly(attempts[..n], call);
      assert forall k :: 0 <= k < n ==> attempts[..n][k] == attempts[k];
    }
  }

  lemma StaleOutcome(s: State, guardHolds: bool)
    ensures DropsStale(s, CurrentPending(s, guardHolds).state, guardHolds)
    ensures CurrentPending(s, guardHolds).pending == if Readable(s, guardHolds) then s.slot else None
  {
  }

  // ---------------------------------------------------------------- receipts

  /** The receipt delivers what its attempt carried, or else the stored text, which holds the row's block. */
  predicate Shown(s: State, id: RecordId, call: CallId, i: ItemId)
    requires id in s.records && i in s.items
  {
    || HasCall(s.records[id].attempts, call)
    || (s.slot.Some? && exists b :: 0 <= b < |s.slot.value.blocks| && s.slot.value.blocks[b].key == s.items[i].key)
  }

  /** No included row of the epoch is for the row's memory, nor is an earlier row this receipt shows. */
  ghost predicate FirstShown(s: State, id: RecordId, call: CallId, i: ItemId)
    requires id in s.records && i in s.items
  {
    s.items[i].key.memory == None
    || forall j :: j in s.items && s.items[j].epoch == s.items[i].epoch && s.items[j].key.memory == s.items[i].key.memory ==>
         s.items[j].decision != Included && !(j < i && PlannedFor(s, id, j) && Shown(s, id, call, j))
  }

  /** Every planned row of the emitted record is decided by what the receipt showed; no other row changes. */
  ghost predicate RowsReceived(s: State, t: State, id: RecordId, call: CallId)
    requires id in s.records
  {
    && t.items.Keys == s.items.Keys
    && forall i :: i in s.items ==>
         t.items[i] ==
           if !PlannedFor(s, id, i) then s.items[i]
           else if !Shown(s, id, call, i) then As(s.items[i], Omitted, Some(NotDelivered))
           else if FirstShown(s, id, call, i) then As(s.items[i], Included, s.items[i].reason)
           else As(s.items[i], Omitted, Some(DuplicateInConversation))
  }

  ghost predicate DeliverOutcome(s: State, call: CallId, execution: Execution, now: int, guardHolds: bool,
      t: State, status: DeliveryStatus, text: Option<string>)
  {
    if NothingReported(s) then t == s && status == NoDelivery && text == None
    else exists id :: IsReported(s, id) && id in s.records && ReceiptOutcome(s, id, call, execution, now, guardHolds, t, status, text)
  }

  ghost predicate ReceiptOutcome(s: State, id: RecordId, call: CallId, execution: Execution, now: int, guardHolds: bool,
      t: State, status: DeliveryStatus, text: Option<string>)
    requires id in s.records
  {
    var r := s.records[id];
    if HasCall(r.attempts, call) then
      text == None && exists at :: FirstOfCall(r.attempts, call, at) && CarriedOutcome(s, id, at, call, execution, now, t, status)
    else if r.state == Emitted then t == s && status == NoDelivery && text == None
    else if Readable(s, guardHolds) then
      && RowsReceived(s, t, id, call) && t.nextItem == s.nextItem && t.slot == None
      && t.records == s.records[id := Record(Emitted, r.attempts + [Attempt(call, execution, Delivered, now)],
           r.deliveryCount + 1, r.charBudget, r.degraded, r.createdAt, now)]
      && status == NewlyEmitted && text == Some(s.slot.value.text)
    else if HasWaiting(r.attempts) then DropsStale(s, t, guardHolds) && status == NoDelivery && text == None
    else
      && (exists read :: DropsStale(s, read, guardHolds) && LostOutcome(read, t, id, r, call, execution, now))
      && status == ClosedUndelivered && text == None
  }

  ghost predicate CarriedOutcome(s: State, id: RecordId, at: nat, call: CallId, execution: Execution, now: int,
      t: State, status: DeliveryStatus)
    requires id in s.records && at < |s.records[id].attempts|
  {
    var r := s.records[id];
    var attempts := r.attempts[at := Attempt(call, execution, Delivered, r.attempts[at].at)];
    if r.attempts[at].delivery == Delivered then t == s && status == Already
    else if r.state == Emitted then
      && t == State(s.records[id := Record(Emitted, attempts, r.deliveryCount + 1, r.charBudget, r.degraded, r.createdAt,
           r.emittedAt)], s.items, s.nextItem, s.slot)
      && status == Already
    else
      && RowsReceived(s, t, id, call) && t.nextItem == s.nextItem && t.slot == None
      && t.records == s.records[id := Record(Emitted, attempts, r.deliveryCount + 1, r.charBudget, r.degraded, r.createdAt,
           now)]
      && status == NewlyEmitted
  }

  /** Nothing was left to hand over: the record closes with the receipt noted as dropped. */
  ghost predicate LostOutcome(read: State, t: State, id: RecordId, r: Record, call: CallId, execution: Execution, now: int) {
    && RowsClosed(read, t, id) && t.nextItem == read.nextItem && t.slot == None
    && t.records == read.records[id := ClosedAs(r, r.attempts + [Attempt(call, execution, Dropped, now)],
         if r.degraded == None then NOT_DELIVERED else r.degraded.value)]
  }

  /** The rows once the planned ones that are not shown are closed. */
  ghost predicate OnlyShown(s: State, items: map<ItemId, Item>, id: RecordId, call: CallId)
    requires id in s.records
  {
    && items.Keys == s.items.Keys
    && forall i :: i in s.items ==>
         items[i] == if PlannedFor(s, id, i) && !Shown(s, id, call, i) then As(s.items[i], Omitted, Some(NotDelivered))
                     else s.items[i]
  }

  /** Among the rows shown, confirming includes exactly the first of each memory. */
  lemma ReceiptRows(s: State, items: map<ItemId, Item>, id: RecordId, call: CallId, t: State)
    requires RowsInv(s) && id in s.records && OnlyShown(s, items, id, call)
    requires t.items == ConfirmRows(items, id, s.nextItem)
    ensures RowsReceived(s, t, id, call)
  {
    assert UniqueIncluded(items);
    ConfirmRowsEffect(items, id, s.nextItem);
    forall i | i in s.items && PlannedFor(s, id, i) && Shown(s, id, call, i)
      ensures t.items[i].decision.Included? <==> FirstShown(s, id, call, i)
    {
      ConfirmIncludesExactly(items, id, s.nextItem, i);
      FirstOfShown(s, items, id, call, i);
    }
    hide ConfirmRows, UniqueIncluded, FirstShown, Shown, Taken;
  }

  lemma FirstOfShown(s: State, items: map<ItemId, Item>, id: RecordId, call: CallId, i: ItemId)
    requires id in s.records && OnlyShown(s, items, id, call) && PlannedFor(s, id, i) && Shown(s, id, call, i)
    ensures FirstOfMemory(items, id, i) <==> FirstShown(s, id, call, i)
  {
    hide Shown;
    if FirstOfMemory(items, id, i) && s.items[i].key.memory.Some? {
      forall j | j in s.items && s.items[j].epoch == s.items[i].epoch && s.items[j].key.memory == s.items[i].key.memory
        ensures s.items[j].decision != Included && !(j < i && PlannedFor(s, id, j) && Shown(s, id, call, j))
      {
        assert items[j].decision.Included? <==> s.items[j].decision.Included?;
        assert SameMemory(items[i], items[j]);
      }
    }
    if FirstShown(s, id, call, i) && s.items[i].key.memory.Some? {
      forall j | j in items && j < i && PlannedOf(items[j], id) ensures !SameMemory(items[i], items[j]) {
        assert PlannedFor(s, id, j) && Shown(s, id, call, j);
      }
    }
  }

  lemma CarriedDelivers(s: State, id: RecordId, at: nat, call: CallId, execution: Execution, now: int)
    requires RowsInv(s) && id in s.records && FirstOfCall(s.records[id].attempts, call, at)
    ensures var d := DeliverCarried(s, id, at, execution, now);
            CarriedOutcome(s, id, at, call, execution, now, d.state, d.status) && d.text == None
  {
    var d := DeliverCarried(s, id, at, execution, now);
    if !s.records[id].attempts[at].delivery.Delivered? && !s.records[id].state.Emitted? {
      ReceiptRows(s, s.items, id, call, d.state);
    }
    hide ConfirmRows, RowsReceived, RowsInv, FirstOfCall;
  }

  lemma PrintedDelivers(s: State, id: RecordId, call: CallId, execution: Execution, now: int)
    requires RowsInv(s) && id in s.records && s.slot.Some? && !HasCall(s.records[id].attempts, call)
    ensures var r, d := s.records[id], DeliverPrinted(s, id, s.slot.value, call, execution, now);
      && RowsReceived(s, d.state, id, call) && d.state.nextItem == s.nextItem && d.state.slot == None
      && d.state.records == s.records[id := Record(Emitted, r.attempts + [Attempt(call, execution, Delivered, now)],
           r.deliveryCount + 1, r.charBudget, r.degraded, r.createdAt, now)]
      && d.status == NewlyEmitted && d.text == Some(s.slot.value.text)
  {
    var d := DeliverPrinted(s, id, s.slot.value, call, execution, now);
    var items := OmitUnrendered(s.items, id, KeysOf(s.slot.value.blocks));
    forall i | i in s.items ensures s.items[i].key in KeysOf(s.slot.value.blocks) <==> Shown(s, id, call, i) {
      KeyShown(s.slot.value.blocks, s.items[i].key);
    }
    assert d.state.items == ConfirmRows(items, id, s.nextItem);
    ReceiptRows(s, items, id, call, d.state);
    hide ConfirmRows, RowsReceived, RowsInv, OmitUnrendered;
  }

  lemma KeyShown(blocks: seq<Block>, key: Key)
    ensures key in KeysOf(blocks) <==> exists b :: 0 <= b < |blocks| && blocks[b].key == key
  {
    if b :| 0 <= b < |blocks| && blocks[b].key == key {
      assert blocks[b] in blocks;
    }
  }

  lemma LostCloses(read: State, id: RecordId, r: Record, call: CallId, execution: Execution, now: int)
    requires id in read.records && (r == read.records[id] || read.records[id] == ClosedAs(r, r.attempts, NOT_DELIVERED))
    ensures LostOutcome(read, CloseLost(read, id, r, call, execution, now), id, r, call, execution, now)
  {
  }

  lemma DeliverMeans(s: State, call: CallId, execution: Execution, now: int, guardHolds: bool)
    requires RowsInv(s)
    ensures var d := Deliver(s, call, execution, now, guardHolds);
            DeliverOutcome(s, call, execution, now, guardHolds, d.state, d.status, d.text)
  {
    NothingReportedExactly(s);
    var reported := ReportedRecord(s.records);
    if reported.Some? {
      var id := reported.value;
      var r := s.records[id];
      ReportedExactly(s, id);
      FirstCallExactly(r.attempts, call);
      StaleOutcome(s, guardHolds);
      var read := CurrentPending(s, guardHolds);
      var found := FindCall(r.attempts, call);
      if found.Some? {
        CarriedDelivers(s, id, found.value, call, execution, now);
      } else if read.pending.Some? {
        PrintedDelivers(s, id, call, execution, now);
      } else {
        LostCloses(read.state, id, r, call, execution, now);
      }
      var d := Deliver(s, call, execution, now, guardHolds);
      hide RowsInv, IsReported, NothingReported, CurrentPending, DeliverCarried, DeliverPrinted, CloseLost, FindCall,
        CarriedOutcome, LostOutcome, RowsReceived, HasCall, DropsStale;
      assert ReceiptOutcome(s, id, call, execution, now, guardHolds, d.state, d.status, d.text);
    }
  }

  // ---------------------------------------------------------------- the other tool hooks

  ghost predicate AttachOutcome(s: State, call: CallId, now: int, guardHolds: bool, t: State, text: Option<string>) {
    if forall id :: id in s.records ==> !Open(s, id) then t == s && text == None
    else if !Readable(s, guardHolds) then DropsStale(s, t, guardHolds) && text == None
    else
      && text == Some(s.slot.value.text) && t.nextItem == s.nextItem && t.slot == s.slot
      && exists id :: IsOldest(s, None, id) && id in s.records && RowsFrozen(s, t, id)
           && t.records == s.records[id := Carrying(s.records[id], call, now)]
  }

  /** The call's attempt is noted once. */
  function Carrying(r: Record, call: CallId, now: int): Record {
    Record(Attempted, if HasCall(r.attempts, call) then r.attempts else r.attempts + [Attempt(call, NotRun, Waiting, now)],
      r.deliveryCount, r.charBudget, r.degraded, r.createdAt, r.emittedAt)
  }

  /** Exactly the record's planned rows with a block in the stored text stay planned. */
  ghost predicate RowsFrozen(s: State, t: State, id: RecordId)
    requires s.slot.Some?
  {
    && t.items.Keys == s.items.Keys
    && forall i :: i in s.items ==>
         t.items[i] ==
           if PlannedFor(s, id, i) && !exists b :: 0 <= b < |s.slot.value.blocks| && s.slot.value.blocks[b].key == s.items[i].key
           then As(s.items[i], Omitted, Some(NotDelivered)) else s.items[i]
  }

  lemma AttachMeans(s: State, call: CallId, now: int, guardHolds: bool)
    ensures var a := Attach(s, call, now, guardHolds); AttachOutcome(s, call, now, guardHolds, a.state, a.text)
  {
    NoneOldestExactly(s, None);
    StaleOutcome(s, guardHolds);
    var live := LiveRecord(s.records, None);
    if live.Some? {
      OldestExactly(s, None, live.value);
      FirstCallExactly(s.records[live.value].attempts, call);
      if Readable(s, guardHolds) {
        assert CurrentPending(s, guardHolds) == Reading(s, s.slot);
        var t := Attach(s, call, now, guardHolds).state;
        forall i | i in s.items {
          KeyShown(s.slot.value.blocks, s.items[i].key);
        }
        hide HasCall, FindCall, CurrentPending, IsOldest, OldestLive, KeysOf;
        assert RowsFrozen(s, t, live.value);
        assert t.records == s.records[live.value := Carrying(s.records[live.value], call, now)];
      }
    }
  }

  ghost predicate DenyOutcome(s: State, call: CallId, now: int, t: State, recorded: bool) {
    if NothingReported(s) then t == s && !recorded
    else exists id :: IsReported(s, id) && id in s.records && DeniedOn(s, id, call, now, t, recorded)
  }

  ghost predicate DeniedOn(s: State, id: RecordId, call: CallId, now: int, t: State, recorded: bool)
    requires id in s.records
  {
    var r := s.records[id];
    if HasCall(r.attempts, call) then recorded && exists at :: FirstOfCall(r.attempts, call, at) && t == NotedAt(s, id, at, call)
    else if r.state == Emitted then t == s && !recorded
    else
      && t == State(s.records[id := Noted(r, r.attempts + [Attempt(call, Denied, Dropped, now)])], s.items, s.nextItem, s.slot)
      && recorded
  }

  function Noted(r: Record, attempts: seq<Attempt>): Record {
    Record(r.state, attempts, r.deliveryCount, r.charBudget, r.degraded, r.createdAt, r.emittedAt)
  }

  function NotedAt(s: State, id: RecordId, at: nat, call: CallId): State
    requires id in s.records && at < |s.records[id].attempts|
  {
    var r := s.records[id];
    State(s.records[id := Noted(r, r.attempts[at := Attempt(call, Denied, Dropped, r.attempts[at].at)])], s.items, s.nextItem, s.slot)
  }

  lemma DenyMeans(s: State, call: CallId, now: int)
    ensures var d := Deny(s, call, now); DenyOutcome(s, call, now, d.state, d.recorded)
  {
    NothingReportedExactly(s);
    var reported := ReportedRecord(s.records);
    if reported.Some? {
      ReportedExactly(s, reported.value);
      FirstCallExactly(s.records[reported.value].attempts, call);
      hide NothingReported, HasCall, FindCall, IsReported;
    }
  }

  /** Exactly the waiting attempts become dropped. */
  ghost predicate WaitingDropped(before: seq<Attempt>, after: seq<Attempt>) {
    && |after| == |before|
    && forall k :: 0 <= k < |before| ==>
         after[k] == Attempt(before[k].call, before[k].execution, if before[k].delivery == Waiting then Dropped else before[k].delivery,
           before[k].at)
  }

  ghost predicate StopOutcome(s: State, sawAnyToolHook: bool, t: State, closed: bool) {
    if NothingReported(s) then t == s && !closed
    else exists id :: IsReported(s, id) && id in s.records && StoppedOn(s, id, sawAnyToolHook, t, closed)
  }

  ghost predicate StoppedOn(s: State, id: RecordId, sawAnyToolHook: bool, t: State, closed: bool)
    requires id in s.records
  {
    var r := s.records[id];
    && closed == (r.state != Emitted) && t.nextItem == s.nextItem
    && exists attempts :: WaitingDropped(r.attempts, attempts)
         && if r.state == Emitted
            then t.records == s.records[id := Noted(r, attempts)] && t.items == s.items && t.slot == s.slot
            else && t.records == s.records[id := ClosedAs(r, attempts, StopReason(r, sawAnyToolHook))]
                 && RowsClosed(s, t, id) && t.slot == None
  }

  function StopReason(r: Record, sawAnyToolHook: bool): DegradedReason {
    if r.degraded != None then r.degraded.value else if sawAnyToolHook then NOT_DELIVERED else NO_TOOL_CALL
  }

  lemma StopMeans(s: State, sawAnyToolHook: bool)
    ensures var c := Stop(s, sawAnyToolHook); StopOutcome(s, sawAnyToolHook, c.state, c.closed)
  {
    NothingReportedExactly(s);
    hide OldestLive, LatestEmitted, ReportedRecord;
    var reported := ReportedRecord(s.records);
    if reported.Some? {
      var id := reported.value;
      ReportedExactly(s, id);
      assert WaitingDropped(s.records[id].attempts, DropWaiting(s.records[id].attempts));
      hide NothingReported, IsReported, WaitingDropped, DropWaiting;
    }
  }

  // ---------------------------------------------------------------- building and storing a pack

  /** A pending record with one row for each item, the considered ones after the pack's own. */
  ghost predicate BuildOutcome(s: State, pack: BuiltPack, considered: seq<PackItem>, epoch: nat, createdAt: int, t: State) {
    var n := |pack.items| + |considered|;
    && t.nextItem == s.nextItem + n && t.slot == s.slot
    && t.records == s.records[pack.id := Record(Pending, [], 0, Some(pack.charBudget), pack.degraded, createdAt, 0)]
    && (forall i :: i in t.items <==> i in s.items || s.nextItem <= i < s.nextItem + n)
    && (forall i :: i in s.items && i < s.nextItem ==> t.items[i] == s.items[i])
    && forall i :: s.nextItem <= i < s.nextItem + n ==>
         t.items[i] == RowFor(pack.id, epoch,
           if i - s.nextItem < |pack.items| then pack.items[i - s.nextItem] else considered[i - s.nextItem - |pack.items|])
  }

  function RowFor(id: RecordId, epoch: nat, item: PackItem): Item {
    Item(id, epoch, item.key, item.decision, item.reason)
  }

  lemma {:induction false} NewRowsAre(id: RecordId, epoch: nat, rows: seq<PackItem>, from: nat)
    ensures forall i :: i in NewRows(id, epoch, rows, from) <==> from <= i < from + |rows|
    ensures forall i :: from <= i < from + |rows| ==> NewRows(id, epoch, rows, from)[i] == RowFor(id, epoch, rows[i - from])
  {
    if rows != [] {
      NewRowsAre(id, epoch, rows[..|rows| - 1], from);
    }
  }

  lemma BuildMeans(s: State, pack: BuiltPack, considered: seq<PackItem>, epoch: nat, createdAt: int)
    ensures BuildOutcome(s, pack, considered, epoch, createdAt, AddBuilt(s, pack, considered, epoch, createdAt))
  {
    NewRowsAre(pack.id, epoch, pack.items + considered, s.nextItem);
    hide NewRows;
  }

  /** Another open record's text is carried by a call, so nothing may be merged into it. */
  ghost predicate CarriedByOther(s: State, pack: RecordId) {
    exists other :: IsOldest(s, Some(pack), other) && other in s.records && HasWaiting(s.records[other].attempts)
  }

  lemma CarrierExactly(s: State, pack: RecordId)
    ensures Carrier(s, pack).Some? <==> CarriedByOther(s, pack)
  {
    var live := LiveRecord(s.records, Some(pack));
    if live.Some? {
      OldestExactly(s, Some(pack), live.value);
    }
    if other :| IsOldest(s, Some(pack), other) && other in s.records && HasWaiting(s.records[other].attempts) {
      OldestExactly(s, Some(pack), other);
    }
    hide IsOldest, OldestLive;
  }

  ghost predicate BeginOutcome(s: State, pack: RecordId, guardHolds: bool, t: State, done: bool) {
    exists read :: DropsStale(s, read, guardHolds) && done == CarriedByOther(read, pack)
      && if done then Cancelled(read, t, pack) && t.slot == read.slot else t == read
  }

  lemma BeginMeans(s: State, pack: RecordId, guardHolds: bool)
    ensures var b := Begin(s, pack, guardHolds); BeginOutcome(s, pack, guardHolds, b.state, b.done)
  {
    var read := CurrentPending(s, guardHolds).state;
    StaleOutcome(s, guardHolds);
    CarrierExactly(read, pack);
    CancelMeans(read, pack);
    hide CurrentPending, DropsStale, CancelUndelivered, Cancelled, CarriedByOther, Carrier;
  }

  lemma CancelMeans(s: State, id: RecordId)
    ensures Cancelled(s, CancelUndelivered(s, id), id) && CancelUndelivered(s, id).slot == s.slot
  {
  }

  // ---------------------------------------------------------------- what a merge would store

  /** The blocks already carried, with the pack's choice lines in front unless the text has some. */
  ghost function Base(stored: seq<Block>, choices: seq<string>): seq<Block> {
    if choices != [] && forall b :: 0 <= b < |stored| ==> stored[b].key != Key(None, None)
    then [Block(Key(None, None), choices)] + stored
    else stored
  }

  /** The plan keeps the stored heading, adds the pack's items by the rules of the fold and renders the result. */
  ghost predicate Plans(budget: Option<int>, slot: Option<PendingPack>, pack: BuiltPack, plan: MergePlan) {
    var base := Base(if slot.Some? then slot.value.blocks else [], pack.choices);
    var limit := if budget.Some? then budget.value else pack.charBudget;
    var used := |RenderPack(plan.repositoryLine, base, plan.degraded)|;
    && plan.repositoryLine == (if slot.Some? then slot.value.repositoryLine else pack.repositoryLine)
    && plan.degraded == (if slot.Some? && slot.value.degraded != None then slot.value.degraded else pack.degraded)
    && plan.text == RenderPack(plan.repositoryLine, plan.blocks, plan.degraded)
    && exists verdicts :: Folded(pack.items, base, limit, used, verdicts, plan.blocks, plan.omissions)
  }

  lemma BaseExactly(stored: seq<Block>, choices: seq<string>)
    ensures WithChoices(stored, choices) == Base(stored, choices)
  {
    if b :| 0 <= b < |stored| && stored[b].key == CHOICE_KEY {
      assert stored[b].key == Key(None, None);
    }
  }

  lemma PlanMeans(live: Record, slot: Option<PendingPack>, pack: BuiltPack)
    ensures Plans(live.charBudget, slot, pack, PlanInto(live, slot, pack))
  {
    var plan := PlanInto(live, slot, pack);
    var base := Base(if slot.Some? then slot.value.blocks else [], pack.choices);
    BaseExactly(if slot.Some? then slot.value.blocks else [], pack.choices);
    var verdicts := FoldDecides(pack.items, base, live.charBudget.GetOr(pack.charBudget),
        |RenderPack(plan.repositoryLine, base, plan.degraded)|);
    hide RenderPack, Folded, FoldItems, WithChoices, Base;
  }

  // ---------------------------------------------------------------- committing a pack

  ghost predicate CommitOutcome(s: State, pack: BuiltPack, input: CommitInput, t: State) {
    if CarriedByOther(s, pack.id) then Cancelled(s, t, pack.id) && t.slot == s.slot
    else exists read :: DropsStale(s, read, input.slotGuardHolds) && ReadOutcome(read, pack, input, t)
  }

  /** What is left of the ledger is read: the pack is given up, becomes the stored text, or joins the oldest record. */
  ghost predicate ReadOutcome(read: State, pack: BuiltPack, input: CommitInput, t: State) {
    if pack.guard != None && !input.packGuardHolds then Cancelled(read, t, pack.id) && t.slot == read.slot
    else if forall id :: id in read.records && Open(read, id) ==> id == pack.id then StoredFirst(read, pack, t)
    else exists live, plan ::
      && IsOldest(read, Some(pack.id), live) && live in read.records && Plans(read.records[live].charBudget, read.slot, pack, plan)
      && JoinOutcome(read, pack, live, plan, input, t)
  }

  function PlannedUpTo(items: seq<PackItem>, n: nat): nat
    requires n <= |items|
  {
    if n == 0 then 0 else PlannedUpTo(items, n - 1) + if items[n - 1].decision == Planned then 1 else 0
  }

  /** The blocks are those of the planned items, in item order. */
  ghost predicate BlocksFor(items: seq<PackItem>, blocks: seq<Block>) {
    && |blocks| == PlannedUpTo(items, |items|)
    && forall k :: 0 <= k < |items| && items[k].decision == Planned ==>
         PlannedUpTo(items, k) < |blocks| && blocks[PlannedUpTo(items, k)] == Block(items[k].key, items[k].lines)
  }

  /** The pack's record is pending and its blocks, the choice lines first, are the stored text's. */
  ghost predicate StoredFirst(s: State, pack: BuiltPack, t: State) {
    && t.items == s.items && t.nextItem == s.nextItem
    && t.records == (if pack.id in s.records then s.records[pack.id := Reopened(s.records[pack.id])] else s.records)
    && var choices := if pack.choices != [] then [Block(Key(None, None), pack.choices)] else [];
       exists blocks :: BlocksFor(pack.items, blocks)
         && t.slot == Some(PendingPack(pack.id, pack.repositoryLine, pack.degraded, choices + blocks, pack.text, pack.guard))
  }

  function Reopened(r: Record): Record {
    Record(Pending, r.attempts, r.deliveryCount, r.charBudget, r.degraded, r.createdAt, r.emittedAt)
  }

  /** The pack's rows become the other record's; planned ones are omitted for this reason. */
  ghost predicate HandsOverClosed(s: State, t: State, from: RecordId, to: RecordId, reason: Option<ItemReason>) {
    && t.items.Keys == s.items.Keys && t.nextItem == s.nextItem
    && forall i :: i in s.items ==> t.items[i] == if s.items[i].owner == from then ClosedFor(s.items[i], to, reason) else s.items[i]
  }

  function ClosedFor(row: Item, to: RecordId, reason: Option<ItemReason>): Item {
    if row.decision == Planned then Item(to, row.epoch, row.key, Omitted, reason)
    else Item(to, row.epoch, row.key, row.decision, row.reason)
  }

  ghost predicate JoinOutcome(s: State, pack: BuiltPack, live: RecordId, plan: MergePlan, input: CommitInput, t: State)
    requires live in s.records
  {
    if input.validated != Some(plan.text) then
      HandsOverClosed(s, t, pack.id, live, Some(NotDelivered)) && t.records == s.records - {pack.id} && t.slot == s.slot
    else if input.rejection.Some? then Refused(s, pack.id, live, input.rejection.value, t)
    else if MergesPrivacy(s.slot, pack.guard) && input.stamp == None then Refused(s, pack.id, live, Secret, t)
    else Merged(s, pack, live, plan, input.stamp, t)
  }

  ghost predicate Refused(s: State, pack: RecordId, live: RecordId, rejection: Rejection, t: State)
    requires live in s.records
  {
    match rejection
    case Secret =>
      HandsOverClosed(s, t, pack, live, Some(SecretDetected)) && t.records == s.records - {pack} && t.slot == s.slot
    case DirectiveFound =>
      HandsOverClosed(s, t, pack, live, Some(Directive)) && t.records == s.records - {pack} && t.slot == s.slot
    case ControlCharacters =>
      && t.items.Keys == s.items.Keys && t.nextItem == s.nextItem && t.slot == None
      && t.records == (s.records - {pack})[live := ClosedAs(s.records[live], s.records[live].attempts, INDEX_UNAVAILABLE)]
      && forall i :: i in s.items ==>
           t.items[i] == if s.items[i].owner == pack then ClosedFor(s.items[i], live, None)
                         else if PlannedFor(s, live, i) then As(s.items[i], Omitted, Some(NotDelivered))
                         else s.items[i]
  }

  /** Both texts were selected under a privacy policy, which must allow their sources together. */
  predicate MergesPrivacy(slot: Option<PendingPack>, guard: Option<WorkGuard>) {
    && guard.Some? && guard.value.privacy.Some?
    && slot.Some? && slot.value.guard.Some? && slot.value.guard.value.privacy.Some?
  }

  predicate FirstOmission(omissions: seq<Omission>, key: Key, k: int) {
    0 <= k < |omissions| && omissions[k].key == key && forall j :: 0 <= j < k ==> omissions[j].key != key
  }

  /** The reason of the plan's first omission for a key. */
  ghost function OmissionFor(omissions: seq<Omission>, key: Key): (r: Option<ItemReason>)
    ensures r == None ==> forall k :: 0 <= k < |omissions| ==> omissions[k].key != key
    ensures r != None ==> exists k :: FirstOmission(omissions, key, k) && r == Some(omissions[k].reason)
  {
    if omissions == [] then None
    else
      var n := |omissions| - 1;
      var before := OmissionFor(omissions[..n], key);
      assert forall k :: FirstOmission(omissions[..n], key, k) ==> FirstOmission(omissions, key, k);
      if before != None then before
      else if omissions[n].key == key then assert FirstOmission(omissions, key, n); Some(omissions[n].reason)
      else None
  }

  /** The pack's rows become the live record's; a planned one the plan leaves out is omitted for its reason. */
  ghost predicate HandsOverMerged(s: State, t: State, from: RecordId, to: RecordId, omissions: seq<Omission>) {
    && t.items.Keys == s.items.Keys && t.nextItem == s.nextItem
    && forall i :: i in s.items ==> t.items[i] == if s.items[i].owner == from then MergedFor(s.items[i], to, omissions) else s.items[i]
  }

  ghost function MergedFor(row: Item, to: RecordId, omissions: seq<Omission>): Item {
    var reason := OmissionFor(omissions, row.key);
    if row.decision == Planned && reason != None then Item(to, row.epoch, row.key, Omitted, reason)
    else Item(to, row.epoch, row.key, row.decision, row.reason)
  }

  ghost predicate Merged(s: State, pack: BuiltPack, live: RecordId, plan: MergePlan, stamp: Option<string>, t: State)
    requires live in s.records && (MergesPrivacy(s.slot, pack.guard) ==> stamp.Some?)
  {
    var r := s.records[live];
    var guard := if MergesPrivacy(s.slot, pack.guard)
      then Some(WorkGuard(pack.guard.value.snapshot,
        Some(Privacy(s.slot.value.guard.value.privacy.value.sources + pack.guard.value.privacy.value.sources, stamp.value))))
      else pack.guard;
    && HandsOverMerged(s, t, pack.id, live, plan.omissions)
    && t.records == (s.records - {pack.id})[live :=
         Record(r.state, r.attempts, r.deliveryCount, r.charBudget, plan.degraded, r.createdAt, r.emittedAt)]
    && t.slot == Some(PendingPack(live, plan.repositoryLine, plan.degraded, plan.blocks, plan.text, guard))
  }

  lemma {:induction false} BlocksForPlanned(items: seq<PackItem>)
    ensures BlocksFor(items, PlannedBlocks(items))
  {
    if items != [] {
      var n := |items| - 1;
      BlocksForPlanned(items[..n]);
      var before, blocks := PlannedBlocks(items[..n]), PlannedBlocks(items);
      forall k | 0 <= k <= n ensures PlannedUpTo(items, k) == PlannedUpTo(items[..n], k) {
        PlannedUpToPrefix(items, n, k);
      }
      assert blocks == before + if items[n].decision.Planned? then [Block(items[n].key, items[n].lines)] else [];
      assert PlannedUpTo(items, |items|) == |blocks|;
      hide PlannedUpTo, PlannedBlocks;
      forall k | 0 <= k < n && items[k].decision == Planned
        ensures PlannedUpTo(items, k) < |blocks| && blocks[PlannedUpTo(items, k)] == Block(items[k].key, items[k].lines)
      {
        assert items[..n][k] == items[k];
      }
    }
  }

  lemma {:induction false} PlannedUpToPrefix(items: seq<PackItem>, n: nat, k: nat)
    requires k <= n <= |items|
    ensures PlannedUpTo(items, k) == PlannedUpTo(items[..n], k)
  {
    if k > 0 {
      PlannedUpToPrefix(items, n, k - 1);
    }
  }

  lemma StoreFirstMeans(s: State, pack: BuiltPack)
    ensures StoredFirst(s, pack, StoreFirst(s, pack))
  {
    BlocksForPlanned(pack.items);
    hide BlocksFor, PlannedBlocks;
  }

  lemma HandsOverMeans(s: State, from: RecordId, to: RecordId, reason: Option<ItemReason>)
    requires from != to
    ensures var t := ReparentItems(s.(items := OmitPlanned(s.items, from, reason)), from, to);
            HandsOverClosed(s, t, from, to, reason) && t.records == s.records - {from} && t.slot == s.slot
  {
  }

  lemma RefuseMeans(s: State, pack: BuiltPack, live: RecordId, rejection: Rejection)
    requires pack.id != live && live in s.records
    ensures Refused(s, pack.id, live, rejection, Refuse(s, pack, live, rejection))
  {
    HandsOverMeans(s, pack.id, live, RejectionReason(rejection));
    hide ReparentItems;
  }

  lemma {:induction false} OmitAllMeans(items: map<ItemId, Item>, owner: RecordId, omissions: seq<Omission>, i: ItemId)
    requires i in items
    ensures OmitAll(items, owner, omissions).Keys == items.Keys
    ensures OmitAll(items, owner, omissions)[i] ==
              var reason := OmissionFor(omissions, items[i].key);
              if PlannedOf(items[i], owner) && reason != None then As(items[i], Omitted, reason) else items[i]
  {
    if omissions != [] {
      OmitAllMeans(items, owner, omissions[..|omissions| - 1], i);
    }
    hide FirstOmission;
  }

  lemma MergeMeans(s: State, pack: BuiltPack, live: RecordId, plan: MergePlan, stamp: Option<string>)
    requires pack.id != live && live in s.records && (MergesPrivacy(s.slot, pack.guard) ==> stamp.Some?)
    ensures Merged(s, pack, live, plan, stamp, Merge(s, pack, live, plan, stamp))
  {
    var t := Merge(s, pack, live, plan, stamp);
    OmitAllHandsOver(s, pack.id, live, plan.omissions);
    assert t.items == ReparentItems(s.(items := OmitAll(s.items, pack.id, plan.omissions)), pack.id, live).items;
    hide OmitAll, HandsOverMerged;
  }

  lemma OmitAllHandsOver(s: State, from: RecordId, to: RecordId, omissions: seq<Omission>)
    requires from != to
    ensures HandsOverMerged(s, ReparentItems(s.(items := OmitAll(s.items, from, omissions)), from, to), from, to, omissions)
  {
    var omitted := OmitAll(s.items, from, omissions);
    var moved := ReparentItems(s.(items := omitted), from, to);
    OmitAllShrinks(s, from, omissions, from);
    ReparentRows(s.(items := omitted), from, to);
    hide ReparentItems, OmitAll, OmissionFor;
    forall i | i in s.items
      ensures moved.items[i] == if s.items[i].owner == from then MergedFor(s.items[i], to, omissions) else s.items[i]
    {
      OmitAllMeans(s.items, from, omissions, i);
    }
  }

  lemma ReparentRows(s: State, from: RecordId, to: RecordId)
    requires from != to
    ensures var t := ReparentItems(s, from, to);
      && t.items.Keys == s.items.Keys && t.nextItem == s.nextItem
      && forall i :: i in s.items ==>
           t.items[i] == Item(if s.items[i].owner == from then to else s.items[i].owner, s.items[i].epoch, s.items[i].key,
             s.items[i].decision, s.items[i].reason)
  {
  }

  lemma JoinMeans(s: State, pack: BuiltPack, live: RecordId, plan: MergePlan, input: CommitInput)
    requires pack.id != live && live in s.records
    ensures JoinOutcome(s, pack, live, plan, input,
      if input.validated != Some(plan.text) then GiveUp(s, pack.id, live)
      else if input.rejection.Some? then Refuse(s, pack, live, input.rejection.value)
      else Merge(s, pack, live, plan, input.stamp))
  {
    HandsOverMeans(s, pack.id, live, Some(NotDelivered));
    RefuseMeans(s, pack, live, Secret);
    if input.rejection.Some? {
      RefuseMeans(s, pack, live, input.rejection.value);
    }
    if MergesPrivacy(s.slot, pack.guard) ==> input.stamp.Some? {
      MergeMeans(s, pack, live, plan, input.stamp);
    }
    hide Refuse, ReparentItems, OmitPlanned, Merged, Refused, HandsOverClosed;
  }

  lemma CommitMeans(s: State, pack: BuiltPack, input: CommitInput)
    ensures CommitOutcome(s, pack, input, Commit(s, pack, input))
  {
    CarrierExactly(s, pack.id);
    CancelMeans(s, pack.id);
    var read := CurrentPending(s, input.slotGuardHolds).state;
    StaleOutcome(s, input.slotGuardHolds);
    ReadMeans(read, pack, input);
    hide CurrentPending, DropsStale, CancelUndelivered, Cancelled, CarriedByOther, Carrier, StoreOrMerge, ReadOutcome;
  }

  lemma ReadMeans(read: State, pack: BuiltPack, input: CommitInput)
    ensures ReadOutcome(read, pack, input,
      if pack.guard.Some? && !input.packGuardHolds then CancelUndelivered(read, pack.id) else StoreOrMerge(read, pack, input))
  {
    CancelMeans(read, pack.id);
    StoreFirstMeans(read, pack);
    NoneOldestExactly(read, Some(pack.id));
    var live := LiveRecord(read.records, Some(pack.id));
    if live.Some? {
      OldestExactly(read, Some(pack.id), live.value);
      PlanMeans(read.records[live.value], read.slot, pack);
      JoinMeans(read, pack, live.value, PlanInto(read.records[live.value], read.slot, pack), input);
    }
    hide CancelUndelivered, Cancelled, StoreFirst, StoredFirst, PlanInto, Plans, JoinOutcome, Refuse, Merge, GiveUp, IsOldest, OldestLive;
  }

  // ---------------------------------------------------------------- along every run

  ghost predicate StepOutcome(y: System, step: Step, t: State)
    requires Enabled(y, step)
  {
    var s := y.ledger;
    match step
    case Build(pack, considered, epoch, createdAt) => BuildOutcome(s, pack, considered, epoch, createdAt, t)
    case BeginStore(id, holds) => exists done :: BeginOutcome(s, id, holds, t, done)
    case Validate(_, _, _, _) => t == s
    case CommitStore(id, _, _, _) => CommitOutcome(s, y.flights[id].pack, CommitOf(y, step), t)
    case PreToolUse(call, now, holds) => exists text :: AttachOutcome(s, call, now, holds, t, text)
    case PostToolUse(call, execution, now, holds) =>
      exists status, text :: DeliverOutcome(s, call, execution, now, holds, t, status, text)
    case PermissionDenied(call, now) => exists recorded :: DenyOutcome(s, call, now, t, recorded)
    case StopHook(saw) => exists closed :: StopOutcome(s, saw, t, closed)
    case LoseText => t == State(s.records, s.items, s.nextItem, None)
  }

  lemma NextMeans(y: System, step: Step)
    requires RowsInv(y.ledger) && Enabled(y, step)
    ensures StepOutcome(y, step, NextLedger(y, step))
  {
    hide RowsInv, AddBuilt, Begin, Commit, Attach, Deliver, Deny, Stop, BuildOutcome, BeginOutcome, CommitOutcome,
      AttachOutcome, DeliverOutcome, DenyOutcome, StopOutcome;
    var s := y.ledger;
    match step
    case Build(pack, considered, epoch, createdAt) => BuildMeans(s, pack, considered, epoch, createdAt);
    case BeginStore(id, holds) => BeginMeans(s, id, holds);
    case CommitStore(id, _, _, _) => CommitMeans(s, y.flights[id].pack, CommitOf(y, step));
    case PreToolUse(call, now, holds) => AttachMeans(s, call, now, holds);
    case PostToolUse(call, execution, now, holds) => DeliverMeans(s, call, execution, now, holds);
    case PermissionDenied(call, now) => DenyMeans(s, call, now);
    case StopHook(saw) => StopMeans(s, saw);
    case _ =>
  }

  /** Every step of every run leaves rows, records and stored text as its outcome says. */
  lemma EveryStepMeans(run: seq<Step>, n: nat)
    requires n < |run| && Enabled(At(run, n), run[n])
    ensures StepOutcome(At(run, n), run[n], At(run, n + 1).ledger)
  {
    RunInvariant(run, n);
    hide Enabled, StepOutcome, NextLedger, NextFlights, NextHistory, RowsInv, FlightsInv, OneSettled, TextInv, NamesUndelivered;
    NextMeans(At(run, n), run[n]);
  }

  /** The call's first attempt has not been delivered yet, or the call has none and there is a text to print. */
  ghost predicate Delivers(s: State, id: RecordId, call: CallId, guardHolds: bool)
    requires id in s.records
  {
    if HasCall(s.records[id].attempts, call)
    then exists at: nat :: FirstOfCall(s.records[id].attempts, call, at) && s.records[id].attempts[at].delivery != Delivered
    else Readable(s, guardHolds)
  }

  /** A receipt emits exactly the reported record, if that is open and the receipt delivers. */
  lemma EmitsExactly(run: seq<Step>, n: nat, id: RecordId)
    requires n < |run| && run[n].PostToolUse? && Enabled(At(run, n), run[n])
    requires id in At(run, n).ledger.records && At(run, n).ledger.records[id].state != Emitted
    ensures var s, t := At(run, n).ledger, At(run, n + 1).ledger;
            && id in t.records
            && (t.records[id].state == Emitted <==>
                  IsReported(s, id) && Open(s, id) && Delivers(s, id, run[n].call, run[n].guardHolds))
  {
    ReceiptStep(run, n);
    var step, s, t := run[n], At(run, n).ledger, At(run, n + 1).ledger;
    var d := Deliver(s, step.call, step.execution, step.now, step.guardHolds);
    hide At, Deliver, ReceiptOutcome, Delivers, IsReported;
    if NothingReported(s) {
      NothingReportedExactly(s);
      ReportedExactly(s, id);
    } else {
      var r :| IsReported(s, r) && r in s.records
        && ReceiptOutcome(s, r, step.call, step.execution, step.now, step.guardHolds, t, d.status, d.text);
      OutcomeEmits(s, r, step.call, step.execution, step.now, step.guardHolds, t, d.status, d.text, id);
      OneReported(s, r, id);
    }
  }

  lemma OneReported(s: State, a: RecordId, b: RecordId)
    requires IsReported(s, a)
    ensures IsReported(s, b) <==> a == b
  {
    ReportedExactly(s, a);
    ReportedExactly(s, b);
  }

  lemma OutcomeEmits(s: State, r: RecordId, call: CallId, execution: Execution, now: int, guardHolds: bool,
      t: State, status: DeliveryStatus, text: Option<string>, id: RecordId)
    requires IsReported(s, r) && r in s.records && ReceiptOutcome(s, r, call, execution, now, guardHolds, t, status, text)
    requires id in s.records && s.records[id].state != Emitted
    ensures id in t.records
    ensures t.records[id].state == Emitted <==> id == r && Open(s, r) && Delivers(s, r, call, guardHolds)
  {
    hide RowsReceived, RowsClosed;
    assert s.records[r].state != Emitted ==> Open(s, r);
    hide IsReported;
    if HasCall(s.records[r].attempts, call) {
      var at :| FirstOfCall(s.records[r].attempts, call, at) && CarriedOutcome(s, r, at, call, execution, now, t, status);
      assert forall k :: FirstOfCall(s.records[r].attempts, call, k) ==> k == at;
      hide FirstOfCall, HasCall;
    } else {
      hide FirstOfCall, HasCall, HasWaiting;
    }
  }

  lemma ReceiptStep(run: seq<Step>, n: nat)
    requires n < |run| && run[n].PostToolUse? && Enabled(At(run, n), run[n])
    ensures var step, s, t := run[n], At(run, n).ledger, At(run, n + 1).ledger;
            var d := Deliver(s, step.call, step.execution, step.now, step.guardHolds);
            DeliverOutcome(s, step.call, step.execution, step.now, step.guardHolds, t, d.status, d.text)
  {
    RunInvariant(run, n);
    DeliverMeans(At(run, n).ledger, run[n].call, run[n].execution, run[n].now, run[n].guardHolds);
    hide DeliverOutcome, Deliver, RowsInv, FlightsInv, OneSettled, TextInv, NamesUndelivered;
  }

  /**
   * A receipt that emits a record decides each row planned for it: included exactly if the receipt
   * shows it and it is the first of its memory shown. A call without an attempt shows the blocks of the
   * text its own hook prints; a call with one shows all that is still planned.
   */
  lemma ReceiptDecidesRows(run: seq<Step>, n: nat, id: RecordId, i: ItemId)
    requires n < |run| && run[n].PostToolUse? && Enabled(At(run, n), run[n])
    requires id in At(run, n).ledger.records && At(run, n).ledger.records[id].state != Emitted
    requires id in At(run, n + 1).ledger.records && At(run, n + 1).ledger.records[id].state == Emitted
    requires PlannedFor(At(run, n).ledger, id, i)
    ensures var step, s, t := run[n], At(run, n).ledger, At(run, n + 1).ledger;
            var text := Deliver(s, step.call, step.execution, step.now, step.guardHolds).text;
            && text == (if HasCall(s.records[id].attempts, step.call) || s.slot == None then None else Some(s.slot.value.text))
            && i in t.items
            && (t.items[i].decision == Included <==> Shown(s, id, step.call, i) && FirstShown(s, id, step.call, i))
            && (t.items[i].decision != Included ==>
                  t.items[i] == As(s.items[i], Omitted,
                    Some(if Shown(s, id, step.call, i) then DuplicateInConversation else NotDelivered)))
  {
    ReceiptStep(run, n);
    EmitsExactly(run, n, id);
    var step, s, t := run[n], At(run, n).ledger, At(run, n + 1).ledger;
    var d := Deliver(s, step.call, step.execution, step.now, step.guardHolds);
    hide At, Deliver, Shown, FirstShown;
    hide ReceiptOutcome, IsReported, Delivers;
    assert !NothingReported(s);
    var r :| IsReported(s, r) && r in s.records
      && ReceiptOutcome(s, r, step.call, step.execution, step.now, step.guardHolds, t, d.status, d.text);
    OneReported(s, r, id);
    OutcomeDecides(s, id, step.call, step.execution, step.now, step.guardHolds, t, d.status, d.text);
  }

  lemma OutcomeDecides(s: State, id: RecordId, call: CallId, execution: Execution, now: int, guardHolds: bool,
      t: State, status: DeliveryStatus, text: Option<string>)
    requires id in s.records && ReceiptOutcome(s, id, call, execution, now, guardHolds, t, status, text)
    requires Open(s, id) && Delivers(s, id, call, guardHolds)
    ensures RowsReceived(s, t, id, call)
    ensures text == if HasCall(s.records[id].attempts, call) || s.slot == None then None else Some(s.slot.value.text)
  {
    hide RowsReceived;
    if HasCall(s.records[id].attempts, call) {
      var at :| FirstOfCall(s.records[id].attempts, call, at) && CarriedOutcome(s, id, at, call, execution, now, t, status);
      assert forall k :: FirstOfCall(s.records[id].attempts, call, k) ==> k == at;
    }
  }

  // ---------------------------------------------------------------- each hook runs once, in order

  ghost predicate BuiltAt(run: seq<Step>, k: int, id: RecordId) {
    0 <= k < |run| && run[k].Build? && run[k].pack.id == id && Enabled(At(run, k), run[k])
  }

  ghost predicate BegunAt(run: seq<Step>, k: int, id: RecordId) {
    0 <= k < |run| && run[k].BeginStore? && run[k].id == id && Enabled(At(run, k), run[k])
  }

  ghost predicate ValidatedAt(run: seq<Step>, k: int, id: RecordId) {
    0 <= k < |run| && run[k].Validate? && run[k].id == id && Enabled(At(run, k), run[k])
  }

  ghost predicate CommittedAt(run: seq<Step>, k: int, id: RecordId) {
    0 <= k < |run| && run[k].CommitStore? && run[k].id == id && Enabled(At(run, k), run[k])
  }

  /** What a hook in flight did so far: its own build, its begin, and the validation its commit will use. */
  ghost predicate FlightDid(run: seq<Step>, n: nat, id: RecordId)
    requires n <= |run|
  {
    id in At(run, n).flights ==>
      && (exists k :: k < n && BuiltAt(run, k, id) && run[k].pack == At(run, n).flights[id].pack)
      && (!At(run, n).flights[id].phase.Built? ==> exists k :: k < n && BegunAt(run, k, id))
      && (At(run, n).flights[id].phase.Validated? ==> exists k :: k < n && ValidatedAt(run, k, id))
  }

  lemma {:induction false} FlightsFollowSteps(run: seq<Step>, n: nat, id: RecordId)
    requires n <= |run|
    ensures FlightDid(run, n, id)
  {
    if n > 0 {
      FlightsFollowSteps(run, n - 1, id);
      var y, step := At(run, n - 1), run[n - 1];
      assert At(run, n) == Next(y, step);
      hide At, NextLedger, NextHistory, Begin, ValidatedText, FirstPending, Rendered;
      assert step.Build? && step.pack.id == id && Enabled(y, step) ==> BuiltAt(run, n - 1, id);
      assert step.BeginStore? && step.id == id && Enabled(y, step) ==> BegunAt(run, n - 1, id);
      assert step.Validate? && step.id == id && Enabled(y, step) ==> ValidatedAt(run, n - 1, id);
      hide BuiltAt, BegunAt, ValidatedAt;
    }
  }

  lemma {:induction false} GoneStaysGone(run: seq<Step>, m: nat, n: nat, id: RecordId)
    requires m <= n <= |run| && id in At(run, m).history.used && id !in At(run, m).flights
    ensures id in At(run, n).history.used && id !in At(run, n).flights
  {
    if m < n {
      GoneStaysGone(run, m, n - 1, id);
      assert At(run, n) == Next(At(run, n - 1), run[n - 1]);
      hide At, NextLedger, Begin, ValidatedText, Attach;
    }
  }

  lemma CommitLands(run: seq<Step>, m: nat, id: RecordId)
    requires CommittedAt(run, m, id)
    ensures id in At(run, m + 1).history.used && id !in At(run, m + 1).flights
  {
    RunInvariant(run, m);
    assert At(run, m + 1) == Next(At(run, m), run[m]);
    hide At, RowsInv, OneSettled, TextInv, NamesUndelivered, NextLedger;
  }

  lemma CommitsFromFlight(run: seq<Step>, n: nat, id: RecordId)
    requires CommittedAt(run, n, id)
    ensures id in At(run, n).flights && At(run, n).flights[id].phase.Validated?
  {
    hide At;
  }

  lemma CommitsOnce(run: seq<Step>, m: nat, n: nat, id: RecordId)
    requires m < n && CommittedAt(run, m, id)
    ensures !CommittedAt(run, n, id)
  {
    if n < |run| {
      CommitLands(run, m, id);
      hide At, CommittedAt;
      GoneStaysGone(run, m + 1, n, id);
      if CommittedAt(run, n, id) {
        CommitsFromFlight(run, n, id);
        assert false;
      }
    }
  }

  /** A pack is committed at most once, after its build, the begin of its hook and a validation of its text. */
  lemma CommitsOnceInOrder(run: seq<Step>, n: nat, id: RecordId)
    requires CommittedAt(run, n, id)
    ensures id in At(run, n).flights && exists k :: k < n && BuiltAt(run, k, id) && run[k].pack == At(run, n).flights[id].pack
    ensures (exists k :: k < n && BegunAt(run, k, id)) && (exists k :: k < n && ValidatedAt(run, k, id))
    ensures forall m :: 0 <= m < n ==> !CommittedAt(run, m, id)
  {
    assert n < |run|;
    FlightsFollowSteps(run, n, id);
    CommitsFromFlight(run, n, id);
    hide At, CommittedAt, BegunAt, ValidatedAt;
    forall m | 0 <= m < n ensures !CommittedAt(run, m, id) {
      if CommittedAt(run, m, id) {
        CommitsOnce(run, m, n, id);
      }
    }
  }
}
