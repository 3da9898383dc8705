/**
 * Concrete runs that show why the conditions of the delivery guarantees are needed.
 */
module DeferredFailures {
  import opened Options
  import opened PackText
  import opened Ledger
  import opened Deferred
  import opened DeferredRows
  import opened DeferredRecords
  import opened DeferredRuns
  import opened DeferredDelivery

  function MemoryKey(memory: string): Key {
    Key(Some(memory), None)
  }

  function Fact(memory: string): Block {
    Block(MemoryKey(memory), [])
  }

  /** A pack of one memory. Its budget leaves room for any merge below. */
  function OneMemoryPack(id: RecordId, memory: string, guard: Option<WorkGuard>): BuiltPack {
    var text := RenderPack("", [Fact(memory)], None);
    BuiltPack(id, "", None, |RenderPack("", [], None)| + 10, [], [PackItem(MemoryKey(memory), Planned, None, [])],
        text, guard)
  }

  function BuiltRecordOf(pack: BuiltPack, createdAt: int): Record {
    Record(Pending, [], 0, Some(pack.charBudget), pack.degraded, createdAt, 0)
  }

  function PlannedRow(owner: RecordId, memory: string): Item {
    Item(owner, 0, MemoryKey(memory), Planned, None)
  }

  lemma FirstPendingOf(id: RecordId, memory: string, guard: Option<WorkGuard>)
    ensures var pack := OneMemoryPack(id, memory, guard);
            FirstPending(pack) == PendingPack(id, "", None, [Fact(memory)], pack.text,
                guard) && Rendered(FirstPending(pack))
  {
    var pack := OneMemoryPack(id, memory, guard);
    assert pack.items[..0] == [];
    assert PlannedBlocks(pack.items) == [Fact(memory)];
    assert [] + [Fact(memory)] == [Fact(memory)];
  }

  lemma {:induction false} EmptyBlocksRenderAlike(blocks: seq<Block>)
    requires forall i :: 0 <= i < |blocks| ==> blocks[i].lines == []
    ensures |RenderPack("", blocks, None)| == |RenderPack("", [], None)|
  {
    if blocks != [] {
      var n := |blocks| - 1;
      EmptyBlocksRenderAlike(blocks[..n]);
      RenderGrowth("", blocks[..n], blocks[n], None);
      assert blocks[..n] + [blocks[n]] == blocks;
    }
  }

  /** Merging a memory the live pack does not carry adds its block. */
  lemma PlanAdds(live: Record, blocks: seq<Block>, slot: Option<PendingPack>, pack: BuiltPack, memory: string)
    requires forall i :: 0 <= i < |blocks| ==> blocks[i].lines == []
    requires live.charBudget == Some(|RenderPack("", [], None)| + 10)
    requires slot.Some? ==> slot.value.blocks == blocks && slot.value.repositoryLine == "" && slot.value.degraded.None?
    requires slot.None? ==> blocks == []
    requires pack == OneMemoryPack(pack.id, memory, pack.guard)
    ensures var plan := PlanInto(live, slot, pack);
            && plan.repositoryLine == "" && plan.degraded.None?
            && (memory !in MemoriesOf(blocks) ==> plan.blocks == blocks + [Fact(memory)] && plan.omissions == [])
            && (memory in MemoriesOf(blocks) ==> plan.blocks == blocks && plan.omissions == [Omission(MemoryKey(memory), DuplicateInConversation)])
            && plan.text == RenderPack("", plan.blocks, None)
  {
    EmptyBlocksRenderAlike(blocks);
    assert pack.items[..0] == [];
    assert FoldItems([], blocks, live.charBudget.value, |RenderPack("", blocks, None)|).omissions == [];
  }

  // ---------------------------------------------------------------- single steps, evaluated

  lemma AtNext(run: seq<Step>, n: nat)
    requires n < |run|
    ensures At(run, n + 1) == Next(At(run, n), run[n])
  {
  }

  lemma BuildStep(y: System, id: RecordId, memory: string, guard: Option<WorkGuard>, createdAt: int)
    requires id !in y.history.used
    ensures var pack := OneMemoryPack(id, memory, guard);
            var z := Next(y, Build(pack, [], 0, createdAt));
            && z.ledger == State(y.ledger.records[id := BuiltRecordOf(pack, createdAt)],
                                 y.ledger.items[y.ledger.nextItem := PlannedRow(id, memory)], y.ledger.nextItem + 1,
                                     y.ledger.slot)
            && z.flights == y.flights[id := Flight(pack, Built)]
            && z.history.carried == y.history.carried && z.history.used == y.history.used + {id}
  {
    var pack := OneMemoryPack(id, memory, guard);
    FirstPendingOf(id, memory, guard);
    assert pack.items + [] == pack.items && pack.items[..0] == [];
    assert NewRows(id, 0, pack.items, y.ledger.nextItem) == map[y.ledger.nextItem := PlannedRow(id, memory)];
    hide RenderPack, Rendered, FirstPending;
  }

  lemma BeginStep(y: System, id: RecordId)
    requires id in y.flights && y.flights[id].phase.Built? && Carrier(y.ledger, id).None?
    ensures var z := Next(y, BeginStore(id, true));
            z.ledger == y.ledger && z.flights == y.flights[id := y.flights[id].(phase := Opened)] && z.history == y.history
  {
  }

  lemma ValidateStep(y: System, id: RecordId, live: Option<Record>, slot: Option<PendingPack>)
    requires id in y.flights && y.flights[id].phase.Opened?
    ensures var z := Next(y, Validate(id, live, slot, None));
            && z.ledger == y.ledger
            && z.flights == y.flights[id := y.flights[id].(phase := Validated(ValidatedText(y.flights[id].pack, live,
                slot), None))]
            && z.history.carried == y.history.carried && z.history.used == y.history.used
  {
  }

  /** The three steps of a hook that finds no other live record. */
  lemma StoreAlone(y: System, id: RecordId, memory: string, guard: Option<WorkGuard>)
    requires id in y.flights && y.flights[id] == Flight(OneMemoryPack(id, memory, guard), Built)
    requires id in y.ledger.records
    requires forall r :: !LiveExcept(y.ledger.records, r, Some(id))
    ensures var z := Next(Next(Next(y, BeginStore(id, true)), Validate(id, None, None, None)), CommitStore(id, true, true, None));
            && z.ledger == y.ledger.(records := SetState(y.ledger.records, id, Pending),
                 slot := Some(PendingPack(id, "", None, [Fact(memory)], OneMemoryPack(id, memory, guard).text, guard)))
            && z.flights == y.flights - {id}
            && z.history.carried == y.history.carried && z.history.used == y.history.used
  {
    BeginStep(y, id);
    var y1 := Next(y, BeginStore(id, true));
    ValidateStep(y1, id, None, None);
    FirstPendingOf(id, memory, guard);
    hide OneMemoryPack, Begin, Rendered, FirstPending;
  }

  /** The three steps of a hook whose pack merges into the live record, with nothing in between. */
  lemma StoreMerged(y: System, id: RecordId, live: RecordId)
    requires id in y.flights && y.flights[id].phase.Built? && y.flights[id].pack.id == id && id in y.ledger.records
    requires OldestLive(y.ledger.records, Some(id), live) && !AnyWaiting(y.ledger.records[live].attempts)
    requires y.flights[id].pack.guard.Some? ==> y.flights[id].pack.guard.value.privacy.None?
    ensures var pack := y.flights[id].pack;
            var record := y.ledger.records[live];
            var z := Next(Next(Next(y, BeginStore(id, true)), Validate(id, Some(record), y.ledger.slot, None)),
                CommitStore(id, true, true, None));
            && z.ledger == Merge(y.ledger, pack, live, PlanInto(record, y.ledger.slot, pack), None)
            && z.flights == y.flights - {id}
            && z.history.carried == y.history.carried && z.history.used == y.history.used
  {
    LiveRecordIs(y.ledger.records, Some(id), live);
    BeginStep(y, id);
    var y1 := Next(y, BeginStore(id, true));
    ValidateStep(y1, id, Some(y.ledger.records[live]), y.ledger.slot);
    hide Merge, PlanInto, Begin, Refuse, GiveUp, StoreFirst, OldestLive;
  }

  /** A call that carries the stored text of the oldest live record, all of whose planned rows it renders. */
  lemma AttachStep(y: System, call: CallId, now: int, live: RecordId)
    requires OldestLive(y.ledger.records, None, live) && y.ledger.slot.Some? && y.ledger.records[live].attempts == []
    requires PlannedWithin(y.ledger.items, live, KeysOf(y.ledger.slot.value.blocks))
    ensures var z := Next(y, PreToolUse(call, now, true));
            && z.ledger == y.ledger.(records := y.ledger.records[live :=
                 y.ledger.records[live].(state := Attempted, attempts := [Attempt(call, NotRun, Waiting, now)])])
            && z.flights == y.flights && z.history.used == y.history.used
            && z.history.carried == y.history.carried + {Carriage(live, call, y.ledger.slot.value)}
  {
    LiveRecordIs(y.ledger.records, None, live);
    assert OmitUnrendered(y.ledger.items, live, KeysOf(y.ledger.slot.value.blocks)) == y.ledger.items;
    assert [] + [Attempt(call, NotRun, Waiting, now)] == [Attempt(call, NotRun, Waiting, now)];
    hide OmitUnrendered, PlannedWithin, OldestLive;
  }

  lemma DenyStep(y: System, call: CallId, now: int, live: RecordId, attempt: Attempt)
    requires OldestLive(y.ledger.records, None, live) && y.ledger.records[live].attempts == [attempt]
    requires attempt.call == call
    ensures var z := Next(y, PermissionDenied(call, now));
            && z.ledger == y.ledger.(records := y.ledger.records[live :=
                 y.ledger.records[live].(attempts := [attempt.(execution := Denied, delivery := Dropped)])])
            && z.flights == y.flights && z.history.used == y.history.used && z.history.carried == y.history.carried
  {
    ReportedRecordIs(y.ledger.records, live);
    FirstAttempt(call, attempt);
    assert [attempt][0 := attempt.(execution := Denied, delivery := Dropped)] == [attempt.(execution := Denied,
        delivery := Dropped)];
    hide LatestEmitted;
  }

  lemma {:induction false} FirstAttempt(call: CallId, attempt: Attempt)
    requires attempt.call == call
    ensures FindCall([attempt], call) == Some(0)
  {
    assert [attempt][..0] == [];
  }

  // ---------------------------------------------------------------- a receipt after a deny

  const P1 := OneMemoryPack(1, "m1", None)
  const P2 := OneMemoryPack(2, "m2", None)
  const R1 := BuiltRecordOf(P1, 0)
  const R1Denied := R1.(state := Attempted, attempts := [Attempt("call", Denied, Dropped, 1)])
  const SLOT1 := PendingPack(1, "", None, [Fact("m1")], P1.text, None)

  const LATE_RECEIPT: seq<Step> := [
    Build(P1, [], 0, 0), BeginStore(1, true), Validate(1, None, None, None), CommitStore(1, true, true, None),
    PreToolUse("call", 1, true), PermissionDenied("call", 2),
    Build(P2, [], 0, 5), BeginStore(2, true), Validate(2, Some(R1Denied), Some(SLOT1), None),
        CommitStore(2, true, true, None),
    PostToolUse("call", Ran, 6, true)]

  /** A run that starts with one undisturbed pack. */
  lemma {:induction false} StoredFirst(run: seq<Step>, id: RecordId, memory: string, createdAt: int)
    requires |run| >= 4
    requires run[0] == Build(OneMemoryPack(id, memory, None), [], 0, createdAt) && run[1] == BeginStore(id, true)
      && run[2] == Validate(id, None, None, None) && run[3] == CommitStore(id, true, true, None)
    ensures var pack := OneMemoryPack(id, memory, None);
            var y := At(run, 4);
            && y.ledger == State(map[id := BuiltRecordOf(pack, createdAt)], map[0 := PlannedRow(id, memory)], 1,
                                 Some(PendingPack(id, "", None, [Fact(memory)], pack.text, None)))
            && y.flights == map[] && y.history.carried == {} && y.history.used == {id}
  {
    hide Next, OneMemoryPack, RenderPack;
    AtNext(run, 0);
    AtNext(run, 1);
    AtNext(run, 2);
    AtNext(run, 3);
    BuildStep(EMPTY, id, memory, None, createdAt);
    var y1 := At(run, 1);
    assert y1.ledger.records == map[id := BuiltRecordOf(OneMemoryPack(id, memory, None), createdAt)];
    assert y1.ledger.items == map[0 := PlannedRow(id, memory)];
    StoreAlone(y1, id, memory, None);
  }

  lemma {:induction false} CarriedThenDenied(run: seq<Step>)
    requires |run| >= 6 && run[4] == PreToolUse("call", 1, true) && run[5] == PermissionDenied("call", 2)
    requires At(run, 4).ledger == State(map[1 := R1], map[0 := PlannedRow(1, "m1")], 1, Some(SLOT1))
      && At(run, 4).flights == map[] && At(run, 4).history.carried == {} && At(run, 4).history.used == {1}
    ensures var y := At(run, 6);
            && y.ledger == State(map[1 := R1Denied], map[0 := PlannedRow(1, "m1")], 1, Some(SLOT1))
            && y.flights == map[] && y.history.carried == {Carriage(1, "call", SLOT1)} && y.history.used == {1}
  {
    hide Next, OneMemoryPack, RenderPack;
    AtNext(run, 4);
    AtNext(run, 5);
    AttachStep(At(run, 4), "call", 1, 1);
    var waiting := Attempt("call", NotRun, Waiting, 1);
    DenyStep(At(run, 5), "call", 2, 1, waiting);
    assert At(run, 6).ledger.records == map[1 := R1Denied];
  }

  /** Merging one planned row into a record that carries another memory. */
  lemma MergeOne(s: State, pack: BuiltPack, live: RecordId, blocks: seq<Block>, text: string, row: ItemId,
      memory: string)
    requires live in s.records && live != pack.id && s.records[live].degraded.None?
    requires MergedGuard(s.slot, pack.guard, None) == Some(pack.guard)
    requires row in s.items && s.items[row] == PlannedRow(pack.id, memory)
    requires forall i :: i in s.items && i != row ==> s.items[i].owner != pack.id
    ensures var t := Merge(s, pack, live, MergePlan("", None, blocks, [], text), None);
            && t.records == s.records - {pack.id} && t.nextItem == s.nextItem
            && t.items == s.items[row := PlannedRow(live, memory)]
            && t.slot == Some(PendingPack(live, "", None, blocks, text, pack.guard))
  {
    assert OmitAll(s.items, pack.id, []) == s.items;
  }

  ghost function Stored(y: System, id: RecordId, live: Record, slot: Option<PendingPack>): System {
    Next(Next(Next(y, BeginStore(id, true)), Validate(id, Some(live), slot, None)), CommitStore(id, true, true, None))
  }

  /** The live record can take one more memory: `blocks` is what the stored text, if any, carries. */
  ghost predicate OpenFor(s: State, live: RecordId, blocks: seq<Block>, memory: string) {
    && live in s.records && !AnyWaiting(s.records[live].attempts) && Roomy(s.records[live]) && s.records[live].degraded.None?
    && Carries(s.slot, blocks) && memory !in MemoriesOf(blocks)
  }

  ghost predicate Roomy(r: Record) {
    r.charBudget == Some(|RenderPack("", [], None)| + 10)
  }

  ghost predicate Carries(slot: Option<PendingPack>, blocks: seq<Block>) {
    && (forall i :: 0 <= i < |blocks| ==> blocks[i].lines == [])
    && (if slot.Some? then slot.value.repositoryLine == "" && slot.value.degraded.None? && slot.value.blocks == blocks
        else blocks == [])
  }

  lemma PlanIntoOpen(live: Record, slot: Option<PendingPack>, blocks: seq<Block>, pack: BuiltPack, memory: string)
    requires Roomy(live) && Carries(slot, blocks) && memory !in MemoriesOf(blocks)
    requires pack == OneMemoryPack(pack.id, memory, pack.guard)
    ensures var merged := blocks + [Fact(memory)];
            PlanInto(live, slot, pack) == MergePlan("", None, merged, [], RenderPack("", merged, None))
  {
    PlanAdds(live, blocks, slot, pack, memory);
  }

  /** A guard without privacy sources never needs a new stamp. */
  predicate PlainGuard(guard: Option<WorkGuard>) {
    guard.Some? ==> guard.value.privacy.None?
  }

  ghost predicate MergeReady(y: System, id: RecordId, memory: string, guard: Option<WorkGuard>, live: RecordId,
      blocks: seq<Block>, row: ItemId) {
    && id in y.ledger.records && id in y.flights && y.flights[id] == Flight(OneMemoryPack(id, memory, guard),
        Built) && PlainGuard(guard)
    && OldestLive(y.ledger.records, Some(id), live) && OpenFor(y.ledger, live, blocks, memory)
    && row in y.ledger.items && y.ledger.items[row] == PlannedRow(id, memory)
    && forall i :: i in y.ledger.items && i != row ==> y.ledger.items[i].owner != id
  }

  /** A hook in flight whose pack of one new memory merges undisturbed. */
  lemma MergesOneMemory(y: System, id: RecordId, memory: string, guard: Option<WorkGuard>, live: RecordId,
      blocks: seq<Block>, row: ItemId)
    requires MergeReady(y, id, memory, guard, live, blocks, row)
    ensures live in y.ledger.records
    ensures var z := Stored(y, id, y.ledger.records[live], y.ledger.slot);
            && z.ledger.records == y.ledger.records - {id}
            && z.ledger.items == y.ledger.items[row := PlannedRow(live,
                memory)] && z.ledger.nextItem == y.ledger.nextItem
            && z.ledger.slot == Some(PendingPack(live, "", None, blocks + [Fact(memory)],
                RenderPack("", blocks + [Fact(memory)], None), guard))
            && z.flights == y.flights - {id}
            && z.history.carried == y.history.carried && z.history.used == y.history.used
  {
    var pack := y.flights[id].pack;
    PackId(id, memory, guard);
    PlanIntoOpen(y.ledger.records[live], y.ledger.slot, blocks, pack, memory);
    assert live != id && live in y.ledger.records && y.ledger.records[live].degraded.None? && !AnyWaiting(y.ledger.records[live].attempts);
    hide Next, RenderPack, OneMemoryPack, PlanInto, Merge, OpenFor, OldestLive;
    StoreMerged(y, id, live);
    var merged := blocks + [Fact(memory)];
    MergeOne(y.ledger, pack, live, merged, RenderPack("", merged, None), row, memory);
  }

  lemma OldestDespiteNew(records: map<RecordId, Record>, live: RecordId, id: RecordId, r: Record)
    requires OldestLive(records, None, live) && id !in records
    ensures OldestLive(records[id := r], Some(id), live)
  {
    var more := records[id := r];
    forall other | LiveExcept(more, other, Some(id)) ensures CreatedBefore(more, live, other) {
      assert LiveExcept(records, other, None);
    }
  }

  lemma PackId(id: RecordId, memory: string, guard: Option<WorkGuard>)
    ensures OneMemoryPack(id, memory, guard).id == id && OneMemoryPack(id, memory, guard).guard == guard
  {
  }

  lemma {:induction false} ConfirmTwo(owner: RecordId, a: string, b: string)
    requires a != b
    ensures ConfirmRows(map[0 := PlannedRow(owner, a), 1 := PlannedRow(owner, b)], owner, 2)
      == map[0 := PlannedRow(owner, a).(decision := Included), 1 := PlannedRow(owner, b).(decision := Included)]
  {
    var items := map[0 := PlannedRow(owner, a), 1 := PlannedRow(owner, b)];
    assert ConfirmRows(items, owner, 0) == items;
    assert ConfirmRows(items, owner, 1) == items[0 := PlannedRow(owner, a).(decision := Included)];
  }

  /**
   * The call carried only m1, was denied, and its receipt includes m2 as well: without the condition
   * on late receipts the guarantee fails on a reachable run.
   */
  lemma LateReceiptIncludesUnreceived()
    ensures var run := LATE_RECEIPT;
            && LateReceipt(At(run, 10), run[10])
            && NewlyIncluded(At(run, 10), At(run, 11), 1) && !Justified(At(run, 10), run[10], 1)
  {
    hide At, OneMemoryPack, RenderPack, Next, LateReceipt, NewlyIncluded, Justified, AnyWaiting;
    var run := LATE_RECEIPT;
    assert !AnyWaiting(R1Denied.attempts) by { DroppedIsNotWaiting(Attempt("call", Denied, Dropped, 1)); }
    PackBudget(1, "m1", None);
    StoredFirst(run, 1, "m1", 0);
    CarriedThenDenied(run);
    MergedAt(run, 6, R1Denied, SLOT1, 5);
    AtNext(run, 10);
    LateReceiptAt(At(run, 10));
  }

  lemma DroppedIsNotWaiting(attempt: Attempt)
    requires !attempt.delivery.Waiting?
    ensures !AnyWaiting([attempt])
  {
  }

  lemma PackBudget(id: RecordId, memory: string, guard: Option<WorkGuard>)
    ensures OneMemoryPack(id, memory, guard).charBudget == |RenderPack("", [], None)| + 10
    ensures OneMemoryPack(id, memory, guard).degraded.None?
  {
  }

  lemma FourSteps(run: seq<Step>, n: nat, id: RecordId, r: Record, slot: Option<PendingPack>)
    requires n + 4 <= |run| && run[n + 1] == BeginStore(id, true)
    requires run[n + 2] == Validate(id, Some(r), slot, None) && run[n + 3] == CommitStore(id, true, true, None)
    ensures At(run, n + 4) == Stored(Next(At(run, n), run[n]), id, r, slot)
  {
    hide Next;
    AtNext(run, n);
    AtNext(run, n + 1);
    AtNext(run, n + 2);
    AtNext(run, n + 3);
    hide At;
  }

  lemma MergedAt(run: seq<Step>, n: nat, r: Record, slot: PendingPack, createdAt: int)
    requires n + 4 <= |run| && run[n] == Build(OneMemoryPack(2, "m2", None), [], 0, createdAt)
    requires run[n + 1] == BeginStore(2, true)
      && run[n + 2] == Validate(2, Some(r), Some(slot), None) && run[n + 3] == CommitStore(2, true, true, None)
    requires At(run, n).ledger == State(map[1 := r], map[0 := PlannedRow(1, "m1")], 1, Some(slot)) && Live(r)
    requires At(run, n).flights == map[] && At(run, n).history.used == {1}
    requires !AnyWaiting(r.attempts) && Roomy(r) && r.degraded.None?
    requires slot.repositoryLine == "" && slot.degraded.None? && slot.blocks == [Fact("m1")]
    ensures var z := At(run, n + 4);
            && z.ledger.records == map[1 := r] && z.ledger.nextItem == 2
            && z.ledger.items == map[0 := PlannedRow(1, "m1"), 1 := PlannedRow(1, "m2")]
            && z.history.carried == At(run, n).history.carried
  {
    var y := At(run, n);
    FourSteps(run, n, 2, r, Some(slot));
    hide At, OneMemoryPack, RenderPack, Next, OldestLive, Stored, OpenFor, FreshFor, Roomy, AnyWaiting;
    ReadyForSecond(y, r, slot);
    BuildsAndMerges(y, 2, "m2", None, createdAt, 1, [Fact("m1")]);
  }

  lemma ReadyForSecond(y: System, r: Record, slot: PendingPack)
    requires y.ledger == State(map[1 := r], map[0 := PlannedRow(1, "m1")], 1, Some(slot)) && Live(r)
    requires y.flights == map[] && y.history.used == {1}
    requires !AnyWaiting(r.attempts) && Roomy(r) && r.degraded.None?
    requires slot.repositoryLine == "" && slot.degraded.None? && slot.blocks == [Fact("m1")]
    ensures OpenFor(y.ledger, 1, [Fact("m1")], "m2") && FreshFor(y, 2) && OldestLive(y.ledger.records, None, 1)
  {
    OnlyRecordIsOldest(1, r);
    hide RenderPack, OldestLive;
  }

  ghost predicate FreshFor(y: System, id: RecordId) {
    && id !in y.history.used && id !in y.ledger.records && id !in y.flights
    && forall i :: i in y.ledger.items ==> i < y.ledger.nextItem && y.ledger.items[i].owner != id
  }

  /** Adding a planned pack's record, row and hook to a ledger with an open record makes it ready to merge. */
  lemma ReadyFrom(y: System, z: System, id: RecordId, memory: string, guard: Option<WorkGuard>, record: Record,
      live: RecordId, blocks: seq<Block>)
    requires FreshFor(y, id) && OldestLive(y.ledger.records, None, live) && OpenFor(y.ledger, live, blocks, memory)
    requires PlainGuard(guard)
    requires z.ledger == State(y.ledger.records[id := record],
        y.ledger.items[y.ledger.nextItem := PlannedRow(id, memory)],
                               y.ledger.nextItem + 1, y.ledger.slot)
    requires z.flights == y.flights[id := Flight(OneMemoryPack(id, memory, guard), Built)]
    ensures MergeReady(z, id, memory, guard, live, blocks, y.ledger.nextItem)
    ensures live in z.ledger.records && z.ledger.records[live] == y.ledger.records[live]
    ensures z.ledger.records - {id} == y.ledger.records && z.flights - {id} == y.flights
  {
    hide OneMemoryPack, OpenFor, OldestLive, CreatedBefore;
    OldestDespiteNew(y.ledger.records, live, id, record);
    LiveIsRecord(y.ledger.records, live);
    OpenDespiteNew(y.ledger, z.ledger, live, blocks, memory);
  }

  lemma BuildMakesReady(y: System, id: RecordId, memory: string, guard: Option<WorkGuard>, createdAt: int,
      live: RecordId, blocks: seq<Block>)
    requires FreshFor(y, id) && OldestLive(y.ledger.records, None, live) && OpenFor(y.ledger, live, blocks, memory)
    requires PlainGuard(guard)
    ensures var z := Next(y, Build(OneMemoryPack(id, memory, guard), [], 0, createdAt));
            && MergeReady(z, id, memory, guard, live, blocks, y.ledger.nextItem)
            && live in z.ledger.records && z.ledger.records[live] == y.ledger.records[live] && z.ledger.slot == y.ledger.slot
            && z.ledger.records - {id} == y.ledger.records && z.flights - {id} == y.flights
            && z.ledger.nextItem == y.ledger.nextItem + 1
            && z.ledger.items == y.ledger.items[y.ledger.nextItem := PlannedRow(id, memory)]
            && z.history.carried == y.history.carried && z.history.used == y.history.used + {id}
  {
    FreshMeans(y, id);
    hide Next, RenderPack, OneMemoryPack, OpenFor, BuiltRecordOf, OldestLive, MergeReady, FreshFor;
    var pack := OneMemoryPack(id, memory, guard);
    BuildStep(y, id, memory, guard, createdAt);
    ReadyFrom(y, Next(y, Build(pack, [], 0, createdAt)), id, memory, guard, BuiltRecordOf(pack, createdAt), live,
        blocks);
  }

  lemma FreshMeans(y: System, id: RecordId)
    requires FreshFor(y, id)
    ensures id !in y.history.used
  {
  }

  lemma LiveIsRecord(records: map<RecordId, Record>, live: RecordId)
    requires OldestLive(records, None, live)
    ensures live in records
  {
  }

  lemma BuildsAndMerges(y: System, id: RecordId, memory: string, guard: Option<WorkGuard>, createdAt: int,
      live: RecordId, blocks: seq<Block>)
    requires FreshFor(y, id) && OldestLive(y.ledger.records, None, live) && OpenFor(y.ledger, live, blocks, memory)
    requires PlainGuard(guard)
    ensures var z := Stored(Next(y, Build(OneMemoryPack(id, memory, guard), [], 0, createdAt)), id, y.ledger.records[live], y.ledger.slot);
            && z.ledger.records == y.ledger.records && z.ledger.nextItem == y.ledger.nextItem + 1
            && z.ledger.items == y.ledger.items[y.ledger.nextItem := PlannedRow(live, memory)]
            && z.ledger.slot == Some(PendingPack(live, "", None, blocks + [Fact(memory)],
                RenderPack("", blocks + [Fact(memory)], None), guard))
            && z.flights == y.flights && z.history.carried == y.history.carried && z.history.used == y.history.used + {id}
  {
    BuildMakesReady(y, id, memory, guard, createdAt, live, blocks);
    hide Next, RenderPack, OneMemoryPack, OpenFor, Stored, MergeReady, FreshFor, OldestLive;
    MergesOneMemory(Next(y, Build(OneMemoryPack(id, memory, guard), [], 0, createdAt)), id, memory, guard, live,
        blocks, y.ledger.nextItem);
  }

  lemma OpenDespiteNew(s: State, t: State, live: RecordId, blocks: seq<Block>, memory: string)
    requires OpenFor(s, live, blocks, memory) && live in t.records && t.records[live] == s.records[live]
    requires t.slot == s.slot
    ensures OpenFor(t, live, blocks, memory)
  {
  }

  lemma LateReceiptAt(y: System)
    requires y.ledger.records == map[1 := R1Denied] && y.ledger.nextItem == 2
    requires y.ledger.items == map[0 := PlannedRow(1, "m1"), 1 := PlannedRow(1, "m2")]
    requires y.history.carried == {Carriage(1, "call", SLOT1)}
    ensures var step := PostToolUse("call", Ran, 6, true);
            LateReceipt(y, step) && NewlyIncluded(y, Next(y, step), 1) && !Justified(y, step, 1)
  {
    hide OneMemoryPack, RenderPack, OldestLive, LatestEmitted, ConfirmRows;
    OnlyRecordIsOldest(1, R1Denied);
    ReportedRecordIs(y.ledger.records, 1);
    FirstAttempt("call", Attempt("call", Denied, Dropped, 1));
    ConfirmTwo(1, "m1", "m2");
    assert KeysOf([Fact("m1")]) == {MemoryKey("m1")};
  }

  lemma OnlyRecordIsOldest(id: RecordId, r: Record)
    requires Live(r)
    ensures OldestLive(map[id := r], None, id)
  {
  }

  // ---------------------------------------------------------------- a record used before its own hook commits it

  const GUARD := Some(WorkGuard("", None))
  const G1 := OneMemoryPack(1, "m1", GUARD)
  const RG1 := BuiltRecordOf(G1, 0)
  const TEXT2 := RenderPack("", [Fact("m2")], None)
  const SLOT2 := PendingPack(1, "", None, [Fact("m2")], TEXT2, None)

  /** Pack 1 is built and its hook is slow; pack 2 is built, and its hook merges it into record 1. */
  const OVERTAKEN: seq<Step> := [
    Build(G1, [], 0, 0), Build(P2, [], 0, 5),
    BeginStore(2, true), Validate(2, Some(RG1), None, None), CommitStore(2, true, true, None)]

  const REOPENED: seq<Step> := OVERTAKEN + [
    PostToolUse("call", Ran, 6, true), BeginStore(1, true), Validate(1, None, None, None),
        CommitStore(1, true, true, None)]

  const ORPHANED: seq<Step> := OVERTAKEN + [BeginStore(1, true), Validate(1, None, None, None),
      CommitStore(1, true, false, None)]

  lemma {:induction false} Overtaken(run: seq<Step>)
    requires |run| >= 5 && forall k :: 0 <= k < 5 ==> run[k] == OVERTAKEN[k]
    ensures 1 in At(run, 2).ledger.records && 2 in At(run, 2).ledger.records
    ensures Live(At(run, 2).ledger.records[1]) && Live(At(run, 2).ledger.records[2])
    ensures var y := At(run, 5);
            && y.ledger == State(map[1 := RG1], map[0 := PlannedRow(1, "m1"), 1 := PlannedRow(1, "m2")], 2, Some(SLOT2))
            && y.flights == map[1 := Flight(G1, Built)] && y.history.carried == {} && y.history.used == {1, 2}
  {
    hide Next, OneMemoryPack, RenderPack, Stored;
    assert run[0] == Build(G1, [], 0, 0) && run[1] == Build(P2, [], 0, 5) && run[2] == BeginStore(2, true);
    assert run[3] == Validate(2, Some(RG1), None, None) && run[4] == CommitStore(2, true, true, None);
    AtNext(run, 0);
    AtNext(run, 1);
    BuildStep(EMPTY, 1, "m1", GUARD, 0);
    var y := At(run, 1);
    assert y.ledger.records == map[1 := RG1] && y.ledger.items == map[0 := PlannedRow(1, "m1")];
    BuildStep(y, 2, "m2", None, 5);
    OnlyRecordIsOldest(1, RG1);
    PackBudget(1, "m1", GUARD);
    FourSteps(run, 1, 2, RG1, None);
    hide At, OldestLive;
    assert OpenFor(y.ledger, 1, [], "m2") && FreshFor(y, 2);
    hide OpenFor, FreshFor;
    BuildsAndMerges(y, 2, "m2", None, 5, 1, []);
    assert [] + [Fact("m2")] == [Fact("m2")];
  }

  /** Pack 2's text, printed for record 1, makes it emitted while its own hook is still to commit. */
  lemma PrintsForRecordOne(y: System)
    requires y.ledger.records == map[1 := RG1] && y.ledger.slot == Some(SLOT2)
    ensures var z := Next(y, PostToolUse("call", Ran, 6, true));
            && z.ledger.records.Keys == {1} && z.ledger.records[1].state.Emitted? && z.ledger.records[1].deliveryCount == 1
            && z.flights == y.flights
  {
    hide OneMemoryPack, RenderPack, OldestLive, LatestEmitted, ConfirmRows, OmitUnrendered;
    OnlyRecordIsOldest(1, RG1);
    ReportedRecordIs(y.ledger.records, 1);
  }

  /**
   * Without the tidy condition `emitted` is left again: the slow hook of pack 1 stores its own text
   * as if nothing had been delivered. Two live records exist on the way.
   */
  lemma EmittedIsReopened()
    ensures var run := REOPENED;
            && LiveExcept(At(run, 2).ledger.records, 1, None) && LiveExcept(At(run, 2).ledger.records, 2, None)
            && 1 in At(run, 6).ledger.records && At(run, 6).ledger.records[1].state.Emitted?
            && 1 in At(run, 9).ledger.records && At(run, 9).ledger.records[1].state.Pending?
            && At(run, 9).ledger.records[1].deliveryCount == 1
  {
    var run := REOPENED;
    hide Next, OneMemoryPack, RenderPack;
    assert forall k :: 0 <= k < 5 ==> run[k] == OVERTAKEN[k];
    assert run[5] == PostToolUse("call", Ran, 6, true) && run[6] == BeginStore(1, true);
    assert run[7] == Validate(1, None, None, None) && run[8] == CommitStore(1, true, true, None);
    Overtaken(run);
    AtNext(run, 5);
    PrintsForRecordOne(At(run, 5));
    AtNext(run, 6);
    AtNext(run, 7);
    AtNext(run, 8);
    hide At;
    StoreAlone(At(run, 6), 1, "m1", GUARD);
  }

  lemma CancelsOwn(y: System, slot: PendingPack)
    requires y.ledger.records == map[1 := RG1] && y.ledger.slot == Some(slot) && slot.guard.None?
    requires y.flights == map[1 := Flight(G1, Validated(None, None))]
    ensures var z := Next(y, CommitStore(1, true, false, None));
            z.ledger.slot == Some(slot) && z.ledger.records.Keys == {1} && z.ledger.records[1].state.RecordOmitted?
  {
    PackId(1, "m1", GUARD);
    hide OneMemoryPack, RenderPack, PlanInto, OldestLive, OmitPlanned;
  }

  lemma OvertakenThenValidated(run: seq<Step>)
    requires run == ORPHANED
    ensures var y := At(run, 7);
            && y.ledger.records == map[1 := RG1] && y.ledger.slot == Some(SLOT2)
            && y.flights == map[1 := Flight(G1, Validated(None, None))]
  {
    hide Next, OneMemoryPack, RenderPack;
    assert forall k :: 0 <= k < 5 ==> run[k] == OVERTAKEN[k];
    assert run[5] == BeginStore(1, true) && run[6] == Validate(1, None, None, None);
    Overtaken(run);
    AtNext(run, 5);
    AtNext(run, 6);
    hide At;
    BeginStep(At(run, 5), 1);
    ValidateStep(At(run, 6), 1, None, None);
  }

  /** And the stored text can be left naming a closed record: pack 2 then belongs to no live record. */
  lemma StoredTextIsOrphaned()
    ensures var y := At(ORPHANED, 8);
            y.ledger.slot.Some? && 1 in y.ledger.records && y.ledger.slot.value.owner == 1 && !Live(y.ledger.records[1])
            && y.flights == map[]
  {
    var run := ORPHANED;
    hide Next, OneMemoryPack, RenderPack;
    assert run[7] == CommitStore(1, true, false, None);
    OvertakenThenValidated(run);
    AtNext(run, 7);
    hide At;
    CancelsOwn(At(run, 7), SLOT2);
    CommitLands(At(run, 7), run[7]);
  }

  lemma CommitLands(y: System, step: Step)
    requires step.CommitStore? && Enabled(y, step)
    ensures Next(y, step).flights == y.flights - {step.id}
  {
  }
}
