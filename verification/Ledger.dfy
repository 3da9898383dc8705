/**
 * The injection ledger of one conversation as a value: its records, their item rows and the one
 * stored text (src/injection/ledger.ts and the selection queries of src/injection/deferred.ts).
 * Rows of other conversations are never read or written by the modelled statements.
 */
module Ledger {
  import opened Options
  import opened PackText

  type RecordId = nat
  type ItemId = nat
  type CallId = string

  datatype RecordState = Pending | Attempted | Emitted | RecordOmitted

  datatype Execution = NotRun | Ran | Failed | Denied
  datatype Delivery = Waiting | Delivered | Dropped
  datatype Attempt = Attempt(call: CallId, execution: Execution, delivery: Delivery, at: int)

  datatype Record = Record(
    state: RecordState,
    attempts: seq<Attempt>,
    deliveryCount: nat,
    charBudget: Option<int>,
    degraded: Option<DegradedReason>,
    createdAt: int,
    emittedAt: int)

  datatype Item = Item(owner: RecordId, epoch: nat, key: Key, decision: Decision, reason: Option<ItemReason>)

  /** What a work guard remembers: the selection it was built for, and the sources it may show. */
  datatype Privacy = Privacy(sources: set<Key>, stamp: string)
  datatype WorkGuard = WorkGuard(snapshot: string, privacy: Option<Privacy>)

  datatype PendingPack = PendingPack(
    owner: RecordId,
    repositoryLine: string,
    degraded: Option<DegradedReason>,
    blocks: seq<Block>,
    text: string,
    guard: Option<WorkGuard>)

  /** Item ids are row ids: every stored id is below `nextItem`. */
  datatype State = State(
    records: map<RecordId, Record>,
    items: map<ItemId, Item>,
    nextItem: nat,
    slot: Option<PendingPack>)

  const NOT_DELIVERED := DegradedReason("not_delivered",
    "These notes could not be handed over during this turn and stay available for the next one.")
  const NO_TOOL_CALL := DegradedReason("no_tool_call",
    "This turn ran no tool, so these notes could not be handed over.")
  const INDEX_UNAVAILABLE := DegradedReason("index_unavailable",
    "The memory index could not be read this time, so some notes are missing.")

  predicate Live(r: Record) {
    r.state.Pending? || r.state.Attempted?
  }

  // ---------------------------------------------------------------- item updates

  predicate PlannedOf(item: Item, owner: RecordId) {
    item.owner == owner && item.decision.Planned?
  }

  function Omit(item: Item, reason: Option<ItemReason>): Item {
    item.(decision := Omitted, reason := reason)
  }

  function OmitPlanned(items: map<ItemId, Item>, owner: RecordId, reason: Option<ItemReason>): map<ItemId, Item> {
    map i | i in items :: if PlannedOf(items[i], owner) then Omit(items[i], reason) else items[i]
  }

  function OmitKey(items: map<ItemId, Item>, owner: RecordId, o: Omission): map<ItemId, Item> {
    map i | i in items ::
      if PlannedOf(items[i], owner) && items[i].key == o.key then Omit(items[i], Some(o.reason)) else items[i]
  }

  function OmitAll(items: map<ItemId, Item>, owner: RecordId, omissions: seq<Omission>): map<ItemId, Item> {
    if omissions == [] then items
    else OmitKey(OmitAll(items, owner, omissions[..|omissions| - 1]), owner, omissions[|omissions| - 1])
  }

  function KeysOf(blocks: seq<Block>): set<Key> {
    set b | b in blocks :: b.key
  }

  function OmitUnrendered(items: map<ItemId, Item>, owner: RecordId, rendered: set<Key>): map<ItemId, Item> {
    map i | i in items ::
      if PlannedOf(items[i], owner) && items[i].key !in rendered then Omit(items[i], Some(NotDelivered)) else items[i]
  }

  function Reparent(items: map<ItemId, Item>, from: RecordId, to: RecordId): map<ItemId, Item> {
    map i | i in items :: if items[i].owner == from then items[i].(owner := to) else items[i]
  }

  /** Deleting a record deletes the item rows that still point at it (ON DELETE CASCADE). */
  function Cascade(items: map<ItemId, Item>, owner: RecordId): map<ItemId, Item> {
    map i | i in items && items[i].owner != owner :: items[i]
  }

  /** The partial unique index: one included row per epoch and memory. */
  predicate Taken(items: map<ItemId, Item>, row: Item) {
    row.key.memory.Some?
    && exists j :: j in items && items[j].decision.Included? && items[j].epoch == row.epoch && items[j].key.memory == row.key.memory
  }

  ghost function ConfirmRow(items: map<ItemId, Item>, owner: RecordId, i: ItemId): map<ItemId, Item> {
    if i in items && PlannedOf(items[i], owner) then
      if Taken(items, items[i]) then items[i := Omit(items[i], Some(DuplicateInConversation))]
      else items[i := items[i].(decision := Included)]
    else items
  }

  /** Rows are confirmed in row order, each against the index as the earlier rows left it. */
  ghost function ConfirmRows(items: map<ItemId, Item>, owner: RecordId, below: nat): map<ItemId, Item> {
    if below == 0 then items else ConfirmRow(ConfirmRows(items, owner, below - 1), owner, below - 1)
  }

  // ---------------------------------------------------------------- record updates

  function SetState(records: map<RecordId, Record>, id: RecordId, state: RecordState): map<RecordId, Record> {
    if id in records then records[id := records[id].(state := state)] else records
  }

  function OmitRecord(records: map<RecordId, Record>, id: RecordId, reason: DegradedReason): map<RecordId, Record> {
    if id in records then records[id := records[id].(state := RecordOmitted, degraded := Some(reason))] else records
  }

  /** Nothing reached the model: planned rows and the record are closed as not delivered. */
  function CancelUndelivered(s: State, id: RecordId): State {
    s.(items := OmitPlanned(s.items, id, Some(NotDelivered)), records := OmitRecord(s.records, id, NOT_DELIVERED))
  }

  /** The merged-away record hands every row over, then goes. */
  function ReparentItems(s: State, from: RecordId, to: RecordId): State {
    s.(items := Cascade(Reparent(s.items, from, to), from), records := s.records - {from})
  }

  ghost function ConfirmDelivery(s: State, id: RecordId, now: int): State {
    var items := ConfirmRows(s.items, id, s.nextItem);
    if id in s.records
    then s.(items := items, records := s.records[id := s.records[id].(state := Emitted, emittedAt := now)])
    else s.(items := items)
  }

  // ---------------------------------------------------------------- attempts

  predicate AnyWaiting(attempts: seq<Attempt>) {
    exists i :: 0 <= i < |attempts| && attempts[i].delivery.Waiting?
  }

  function AttemptsOf(records: map<RecordId, Record>, id: RecordId): seq<Attempt> {
    if id in records then records[id].attempts else []
  }

  /** The first attempt of a call. */
  function FindCall(attempts: seq<Attempt>, call: CallId): (r: Option<nat>)
    ensures r.Some? ==> r.value < |attempts| && attempts[r.value].call == call
    ensures r.None? ==> forall i :: 0 <= i < |attempts| ==> attempts[i].call != call
  {
    if attempts == [] then None
    else
      var before := FindCall(attempts[..|attempts| - 1], call);
      if before.Some? then before
      else if attempts[|attempts| - 1].call == call then Some(|attempts| - 1)
      else None
  }

  function DropWaiting(attempts: seq<Attempt>): (r: seq<Attempt>)
    ensures |r| == |attempts|
    ensures forall i :: 0 <= i < |attempts| ==>
      r[i] == if attempts[i].delivery.Waiting? then attempts[i].(delivery := Dropped) else attempts[i]
  {
    if attempts == [] then []
    else
      var last := attempts[|attempts| - 1];
      DropWaiting(attempts[..|attempts| - 1]) + [if last.delivery.Waiting? then last.(delivery := Dropped) else last]
  }

  // ---------------------------------------------------------------- which record a hook is about

  predicate CreatedBefore(records: map<RecordId, Record>, a: RecordId, b: RecordId)
    requires a in records && b in records
  {
    records[a].createdAt < records[b].createdAt || (records[a].createdAt == records[b].createdAt && a <= b)
  }

  predicate EmittedAfter(records: map<RecordId, Record>, a: RecordId, b: RecordId)
    requires a in records && b in records
  {
    records[b].emittedAt < records[a].emittedAt || (records[b].emittedAt == records[a].emittedAt && b <= a)
  }

  predicate LiveExcept(records: map<RecordId, Record>, id: RecordId, exclude: Option<RecordId>) {
    id in records && Live(records[id]) && exclude != Some(id)
  }

  ghost predicate OldestLive(records: map<RecordId, Record>, exclude: Option<RecordId>, id: RecordId) {
    LiveExcept(records, id, exclude)
    && forall other :: LiveExcept(records, other, exclude) ==> CreatedBefore(records, id, other)
  }

  ghost predicate LatestEmitted(records: map<RecordId, Record>, id: RecordId) {
    id in records && records[id].state.Emitted?
    && forall other :: other in records && records[other].state.Emitted? ==> EmittedAfter(records, id, other)
  }

  /** The record every later pack merges into: the oldest one not delivered yet. */
  ghost function LiveRecord(records: map<RecordId, Record>, exclude: Option<RecordId>): (r: Option<RecordId>)
    ensures r.Some? ==> OldestLive(records, exclude, r.value)
    ensures r.None? ==> forall id :: !LiveExcept(records, id, exclude)
  {
    if exists id :: OldestLive(records, exclude, id) then
      var id :| OldestLive(records, exclude, id);
      Some(id)
    else
      assert forall id :: !LiveExcept(records, id, exclude) by {
        forall id ensures !LiveExcept(records, id, exclude) {
          if LiveExcept(records, id, exclude) { OldestExists(records, exclude, id); }
        }
      }
      None
  }

  /** The record a tool hook reports about: the live one, or the one delivered last. */
  ghost function ReportedRecord(records: map<RecordId, Record>): (r: Option<RecordId>)
    ensures r.Some? ==> r.value in records
    ensures r.Some? && Live(records[r.value]) ==> OldestLive(records, None, r.value)
    ensures r.Some? && !Live(records[r.value]) ==> LatestEmitted(records, r.value) && forall id :: !LiveExcept(records, id, None)
    ensures r.None? ==> forall id :: id in records ==> records[id].state.RecordOmitted?
  {
    var live := LiveRecord(records, None);
    if live.Some? then live
    else if exists id :: LatestEmitted(records, id) then
      var id :| LatestEmitted(records, id);
      Some(id)
    else
      assert forall id :: id in records ==> records[id].state.RecordOmitted? by {
        forall id | id in records ensures records[id].state.RecordOmitted? {
          assert !LiveExcept(records, id, None);
          if records[id].state.Emitted? { LatestExists(records, id); }
        }
      }
      None
  }

  lemma {:induction false} OldestOf(records: map<RecordId, Record>, ids: set<RecordId>) returns (id: RecordId)
    requires ids != {} && ids <= records.Keys
    ensures id in ids && forall other :: other in ids ==> CreatedBefore(records, id, other)
  {
    var first :| first in ids;
    id := first;
    if ids != {first} {
      var best := OldestOf(records, ids - {first});
      id := if CreatedBefore(records, best, first) then best else first;
      assert forall other :: other in ids ==> other == first || other in ids - {first};
    }
  }

  lemma OldestExists(records: map<RecordId, Record>, exclude: Option<RecordId>, some: RecordId)
    requires LiveExcept(records, some, exclude)
    ensures exists id :: OldestLive(records, exclude, id)
  {
    var live := set id | id in records && LiveExcept(records, id, exclude);
    assert some in live;
    var id := OldestOf(records, live);
    assert OldestLive(records, exclude, id);
  }

  lemma {:induction false} LatestOf(records: map<RecordId, Record>, ids: set<RecordId>) returns (id: RecordId)
    requires ids != {} && ids <= records.Keys
    ensures id in ids && forall other :: other in ids ==> EmittedAfter(records, id, other)
  {
    var first :| first in ids;
    id := first;
    if ids != {first} {
      var best := LatestOf(records, ids - {first});
      id := if EmittedAfter(records, best, first) then best else first;
      assert forall other :: other in ids ==> other == first || other in ids - {first};
    }
  }

  lemma LatestExists(records: map<RecordId, Record>, some: RecordId)
    requires some in records && records[some].state.Emitted?
    ensures exists id :: LatestEmitted(records, id)
  {
    var emitted := set id | id in records && records[id].state.Emitted?;
    assert some in emitted;
    var id := LatestOf(records, emitted);
    assert LatestEmitted(records, id);
  }

  /** The selections are determined by the rows, so a hook that satisfies them names this record. */
  lemma LiveRecordIs(records: map<RecordId, Record>, exclude: Option<RecordId>, id: RecordId)
    requires OldestLive(records, exclude, id)
    ensures LiveRecord(records, exclude) == Some(id)
  {
    var r := LiveRecord(records, exclude);
    assert LiveExcept(records, id, exclude);
    assert CreatedBefore(records, id, r.value) && CreatedBefore(records, r.value, id);
  }

  lemma ReportedRecordIs(records: map<RecordId, Record>, id: RecordId)
    requires || OldestLive(records, None, id)
             || (LatestEmitted(records, id) && forall other :: !LiveExcept(records, other, None))
    ensures ReportedRecord(records) == Some(id)
  {
    if OldestLive(records, None, id) {
      LiveRecordIs(records, None, id);
    } else {
      var r := ReportedRecord(records);
      assert !LiveExcept(records, r.value, None);
      assert EmittedAfter(records, id, r.value) && EmittedAfter(records, r.value, id);
    }
  }
}
