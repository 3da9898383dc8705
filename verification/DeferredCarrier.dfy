/**
 * The second way a receipt can include what its call never carried: a commit drops the stored text's
 * own record and merges, with the very text it validated, into another record a call still carries.
 */
module DeferredCarrier {
  import opened Options
  import opened PackText
  import opened Ledger
  import opened Deferred
  import opened DeferredRows
  import opened DeferredRecords
  import opened DeferredRuns
  import opened DeferredDelivery
  import opened DeferredFailures

  const CARRIED := OneMemoryPack(2, "m2", None)
  const OLDER := OneMemoryPack(1, "old", None)
  const GUARDED := OneMemoryPack(3, "m1", GUARD)
  const AGAIN := OneMemoryPack(4, "m1", None)

  const TEXT := RenderPack("", [Fact("m1")], None)
  const WAITING := Attempt("call", NotRun, Waiting, 6)
  const OPEN_OLDER := BuiltRecordOf(OLDER, 0)
  const CARRYING := BuiltRecordOf(CARRIED, 5).(state := Attempted, attempts := [WAITING])
  const CARRIED_SLOT := PendingPack(2, "", None, [Fact("m2")], CARRIED.text, None)
  const GUARDED_SLOT := PendingPack(1, "", None, [Fact("m1")], TEXT, GUARD)

  /**
   * Pack 2 is stored and a call carries it; pack 1, built from an older capture time, takes over as the
   * oldest record; its text is lost, pack 3 stores its text there; pack 4 repeats pack 3's memory and
   * commits when that text's guard no longer holds.
   */
  const RUN: seq<Step> := [
    Build(CARRIED, [], 0, 5), BeginStore(2, true), Validate(2, None, None, None), CommitStore(2, true, true, None),
    PreToolUse("call", 6, true), Build(OLDER, [], 0, 0), LoseText,
    Build(GUARDED, [], 0, 7), BeginStore(3, true), Validate(3, Some(OPEN_OLDER), None, None),
        CommitStore(3, true, true, None),
    Build(AGAIN, [], 0, 8), BeginStore(4, true), Validate(4, Some(OPEN_OLDER), Some(GUARDED_SLOT), None),
        CommitStore(4, false, true, None),
    PostToolUse("call", Ran, 9, true)]

  lemma {:induction false} CarriedAt(run: seq<Step>)
    requires run == RUN
    ensures var y := At(run, 5);
            && y.ledger == State(map[2 := CARRYING], map[0 := PlannedRow(2, "m2")], 1, Some(CARRIED_SLOT))
            && y.flights == map[] && y.history.carried == {Carriage(2, "call", CARRIED_SLOT)} && y.history.used == {2}
  {
    hide Next, OneMemoryPack, RenderPack;
    StoredFirst(run, 2, "m2", 5);
    AtNext(run, 4);
    PackBudget(2, "m2", None);
    OnlyRecordIsOldest(2, BuiltRecordOf(CARRIED, 5));
    AttachStep(At(run, 4), "call", 6, 2);
    assert At(run, 5).ledger.records == map[2 := CARRYING];
  }

  lemma LoseStep(y: System)
    ensures var z := Next(y, LoseText); z.ledger == y.ledger.(slot := None) && z.flights == y.flights && z.history == y.history
  {
  }

  lemma OlderIsOldest()
    ensures OldestLive(map[1 := OPEN_OLDER, 2 := CARRYING], None, 1)
  {
    hide OneMemoryPack;
  }

  lemma {:induction false} TakenOverAt(run: seq<Step>)
    requires run == RUN
    ensures var y := At(run, 7);
            && y.ledger == State(map[1 := OPEN_OLDER, 2 := CARRYING],
                map[0 := PlannedRow(2, "m2"), 1 := PlannedRow(1, "old")], 2, None)
            && y.flights == map[1 := Flight(OLDER, Built)]
            && y.history.carried == {Carriage(2, "call", CARRIED_SLOT)} && y.history.used == {1, 2}
  {
    hide Next, OneMemoryPack, RenderPack;
    CarriedAt(run);
    AtNext(run, 5);
    AtNext(run, 6);
    hide At;
    BuildStep(At(run, 5), 1, "old", None, 0);
    LoseStep(At(run, 6));
    assert At(run, 6).ledger.records == map[1 := OPEN_OLDER, 2 := CARRYING];
  }

  lemma {:induction false} GuardedAt(run: seq<Step>)
    requires run == RUN
    ensures var y := At(run, 11);
            && y.ledger.records == map[1 := OPEN_OLDER, 2 := CARRYING] && y.ledger.nextItem == 3
            && y.ledger.items == map[0 := PlannedRow(2, "m2"), 1 := PlannedRow(1, "old"), 2 := PlannedRow(1, "m1")]
            && y.ledger.slot == Some(GUARDED_SLOT) && y.flights == map[1 := Flight(OLDER, Built)]
            && y.history.carried == {Carriage(2, "call", CARRIED_SLOT)} && y.history.used == {1, 2, 3}
  {
    hide Next, OneMemoryPack, RenderPack, Stored;
    TakenOverAt(run);
    FourSteps(run, 7, 3, OPEN_OLDER, None);
    var y := At(run, 7);
    PackBudget(1, "old", None);
    OlderIsOldest();
    hide At, OldestLive;
    assert OpenFor(y.ledger, 1, [], "m1") && FreshFor(y, 3);
    hide OpenFor, FreshFor;
    BuildsAndMerges(y, 3, "m1", GUARD, 7, 1, []);
    assert [] + [Fact("m1")] == [Fact("m1")];
  }

  /** Pack 4's plan has the same text for the guarded record and for an empty one. */
  lemma SameTextEitherWay()
    ensures PlanInto(OPEN_OLDER, Some(GUARDED_SLOT), AGAIN).text == TEXT
    ensures PlanInto(CARRYING, None, AGAIN) == MergePlan("", None, [Fact("m1")], [], TEXT)
  {
    PackBudget(1, "old", None);
    PackBudget(2, "m2", None);
    PackId(4, "m1", None);
    assert Fact("m1") in [Fact("m1")];
    PlanAdds(OPEN_OLDER, [Fact("m1")], Some(GUARDED_SLOT), AGAIN, "m1");
    PlanIntoOpen(CARRYING, None, [], AGAIN, "m1");
    assert [] + [Fact("m1")] == [Fact("m1")];
  }

  lemma {:induction false} AgainValidatedAt(run: seq<Step>)
    requires run == RUN
    ensures var y := At(run, 14);
            && y.ledger.records == map[1 := OPEN_OLDER, 2 := CARRYING,
                4 := BuiltRecordOf(AGAIN, 8)] && y.ledger.nextItem == 4
            && y.ledger.items == map[0 := PlannedRow(2, "m2"), 1 := PlannedRow(1, "old"), 2 := PlannedRow(1, "m1"),
                3 := PlannedRow(4, "m1")]
            && y.ledger.slot == Some(GUARDED_SLOT)
            && 4 in y.flights && y.flights[4] == Flight(AGAIN, Validated(Some(TEXT), None))
            && y.history.carried == {Carriage(2, "call", CARRIED_SLOT)}
  {
    hide Next, OneMemoryPack, RenderPack, PlanInto;
    GuardedAt(run);
    AtNext(run, 11);
    AtNext(run, 12);
    AtNext(run, 13);
    hide At;
    BuildStep(At(run, 11), 4, "m1", None, 8);
    var y := At(run, 12);
    assert y.ledger.records == map[1 := OPEN_OLDER, 2 := CARRYING, 4 := BuiltRecordOf(AGAIN, 8)];
    OldestOfThree();
    LiveRecordIs(y.ledger.records, Some(4), 1);
    hide OldestLive;
    BeginStep(y, 4);
    ValidateStep(At(run, 13), 4, Some(OPEN_OLDER), Some(GUARDED_SLOT));
    SameTextEitherWay();
  }

  lemma OldestOfThree()
    ensures var records := map[1 := OPEN_OLDER, 2 := CARRYING, 4 := BuiltRecordOf(AGAIN, 8)];
            OldestLive(records, Some(4), 1) && !AnyWaiting(records[1].attempts)
  {
    hide OneMemoryPack;
  }

  lemma OldestWithoutFirst()
    ensures var records := OmitRecord(map[1 := OPEN_OLDER, 2 := CARRYING, 4 := BuiltRecordOf(AGAIN, 8)], 1, NOT_DELIVERED);
            OldestLive(records, Some(4), 2) && records[2] == CARRYING && AnyWaiting(CARRYING.attempts)
  {
    hide OneMemoryPack;
    assert CARRYING.attempts[0].delivery.Waiting?;
  }

  ghost predicate AgainValidated(y: System) {
    && y.ledger.records == map[1 := OPEN_OLDER, 2 := CARRYING, 4 := BuiltRecordOf(AGAIN, 8)] && y.ledger.nextItem == 4
    && y.ledger.items == map[0 := PlannedRow(2, "m2"), 1 := PlannedRow(1, "old"), 2 := PlannedRow(1, "m1"),
        3 := PlannedRow(4, "m1")]
    && y.ledger.slot == Some(GUARDED_SLOT)
    && 4 in y.flights && y.flights[4] == Flight(AGAIN, Validated(Some(TEXT), None))
  }

  lemma CurrentDrops(y: System)
    requires AgainValidated(y)
    ensures var read := CurrentPending(y.ledger, false).state;
            && read.records == OmitRecord(y.ledger.records, 1, NOT_DELIVERED) && read.slot.None? && read.nextItem == 4
            && read.items == OmitPlanned(y.ledger.items, 1, Some(NotDelivered))
  {
    OldestOfThree();
    hide OneMemoryPack, OldestLive;
  }

  lemma NoCarrierFound(y: System)
    requires AgainValidated(y)
    ensures Carrier(y.ledger, 4).None?
  {
    OldestOfThree();
    LiveRecordIs(y.ledger.records, Some(4), 1);
    hide OneMemoryPack, OldestLive;
  }

  lemma TargetIsCarrying(y: System)
    requires AgainValidated(y)
    ensures var read := CurrentPending(y.ledger, false).state;
            && LiveRecord(read.records, Some(4)) == Some(2) && 2 in read.records && read.records[2] == CARRYING
            && AnyWaiting(CARRYING.attempts) && read.slot.None?
  {
    CurrentDrops(y);
    OldestWithoutFirst();
    LiveRecordIs(CurrentPending(y.ledger, false).state.records, Some(4), 2);
    hide OneMemoryPack, OldestLive, CurrentPending;
  }

  lemma CommitsUnderCarrier(y: System)
    requires AgainValidated(y)
    ensures var step := CommitStore(4, false, true, None);
            && MergesUnderCarrier(y, step)
            && Next(y, step).ledger == Merge(CurrentPending(y.ledger, false).state, AGAIN, 2,
                PlanInto(CARRYING, None, AGAIN), None)
            && Next(y, step).history.carried == y.history.carried
  {
    PackId(4, "m1", None);
    NoCarrierFound(y);
    TargetIsCarrying(y);
    SameTextEitherWay();
    hide OneMemoryPack, RenderPack, PlanInto, OldestLive, CurrentPending, Merge, OmitPlanned, OmitRecord, LiveRecord;
  }

  ghost predicate UnderCarrier(y: System) {
    && 2 in y.ledger.records && y.ledger.records[2] == CARRYING && y.ledger.nextItem == 4
    && OldestLive(y.ledger.records, None, 2)
    && y.ledger.items == OmitPlanned(map[0 := PlannedRow(2, "m2"), 1 := PlannedRow(1, "old"),
        2 := PlannedRow(1, "m1")], 1, Some(NotDelivered))[3 := PlannedRow(2, "m1")]
    && y.history.carried == {Carriage(2, "call", CARRIED_SLOT)}
  }

  const DROPPED := OmitPlanned(
    map[0 := PlannedRow(2, "m2"), 1 := PlannedRow(1, "old"), 2 := PlannedRow(1, "m1"), 3 := PlannedRow(4, "m1")], 1,
        Some(NotDelivered))

  lemma MergeAfterDrop(s: State)
    requires s.records == OmitRecord(map[1 := OPEN_OLDER, 2 := CARRYING, 4 := BuiltRecordOf(AGAIN, 8)], 1,
        NOT_DELIVERED)
    requires s.items == DROPPED && s.slot.None?
    ensures var t := Merge(s, AGAIN, 2, MergePlan("", None, [Fact("m1")], [], TEXT), None);
            && 2 in t.records && t.records[2] == CARRYING && t.records == s.records - {4} && t.nextItem == s.nextItem
            && t.items == DROPPED[3 := PlannedRow(2, "m1")]
  {
    PackId(4, "m1", None);
    PackBudget(2, "m2", None);
    hide OneMemoryPack, RenderPack;
    MergeOne(s, AGAIN, 2, [Fact("m1")], TEXT, 3, "m1");
    hide Merge;
  }

  lemma OldestAfterMerge()
    ensures var records := OmitRecord(map[1 := OPEN_OLDER, 2 := CARRYING, 4 := BuiltRecordOf(AGAIN, 8)], 1, NOT_DELIVERED) - {4};
            OldestLive(records, None, 2)
  {
    hide OneMemoryPack;
  }

  lemma DroppedRows()
    ensures DROPPED[3 := PlannedRow(2, "m1")]
      == OmitPlanned(map[0 := PlannedRow(2, "m2"), 1 := PlannedRow(1, "old"), 2 := PlannedRow(1, "m1")], 1,
          Some(NotDelivered))[3 := PlannedRow(2, "m1")]
  {
  }

  lemma MergedUnder(y: System)
    requires AgainValidated(y) && y.history.carried == {Carriage(2, "call", CARRIED_SLOT)}
    ensures UnderCarrier(Next(y, CommitStore(4, false, true, None)))
  {
    hide Next, OneMemoryPack, RenderPack, PlanInto, CurrentPending, MergesUnderCarrier, OldestLive, OmitPlanned,
        Merge, OmitRecord;
    CommitsUnderCarrier(y);
    CurrentDrops(y);
    SameTextEitherWay();
    MergeAfterDrop(CurrentPending(y.ledger, false).state);
    OldestAfterMerge();
    DroppedRows();
  }

  /** The call carried only m2, and its receipt includes m1 as well. */
  lemma CarrierIncludesUnreceived()
    ensures var run := RUN;
            && MergesUnderCarrier(At(run, 14), run[14])
            && !LateReceipt(At(run, 15), run[15])
            && NewlyIncluded(At(run, 15), At(run, 16), 3) && !Justified(At(run, 15), run[15], 3)
  {
    var run := RUN;
    hide At, Next, OneMemoryPack, RenderPack, MergesUnderCarrier, LateReceipt, NewlyIncluded, Justified, UnderCarrier;
    MergedAtFourteen(run);
    AtNext(run, 15);
    ReceiptAt(At(run, 15));
  }

  lemma MergedAtFourteen(run: seq<Step>)
    requires run == RUN
    ensures MergesUnderCarrier(At(run, 14), run[14]) && UnderCarrier(At(run, 15)) && run[15] == PostToolUse("call", Ran, 9, true)
  {
    hide At, Next, OneMemoryPack, RenderPack, MergesUnderCarrier, UnderCarrier;
    AgainValidatedAt(run);
    assert AgainValidated(At(run, 14));
    hide AgainValidated;
    AtNext(run, 14);
    CommitsUnderCarrier(At(run, 14));
    MergedUnder(At(run, 14));
  }

  lemma ReceiptAt(y: System)
    requires UnderCarrier(y)
    ensures var step := PostToolUse("call", Ran, 9, true);
            !LateReceipt(y, step) && NewlyIncluded(y, Next(y, step), 3) && !Justified(y, step, 3)
  {
    hide OneMemoryPack, RenderPack, OldestLive, LatestEmitted, ConfirmRows, OmitPlanned;
    ReportedRecordIs(y.ledger.records, 2);
    FirstAttempt("call", WAITING);
    ConfirmsBoth(y.ledger.items);
    assert KeysOf([Fact("m2")]) == {MemoryKey("m2")};
  }

  lemma {:induction false} ConfirmsBoth(items: map<ItemId, Item>)
    requires items == OmitPlanned(map[0 := PlannedRow(2, "m2"), 1 := PlannedRow(1, "old"), 2 := PlannedRow(1, "m1")],
        1, Some(NotDelivered))[3 := PlannedRow(2, "m1")]
    ensures 3 in items && items[3] == PlannedRow(2, "m1")
    ensures 3 in ConfirmRows(items, 2, 4) && ConfirmRows(items, 2, 4)[3].decision.Included?
  {
    assert ConfirmRows(items, 2, 0) == items;
    assert ConfirmRows(items, 2, 1) == items[0 := PlannedRow(2, "m2").(decision := Included)];
    assert ConfirmRows(items, 2, 2) == ConfirmRows(items, 2, 1);
    assert ConfirmRows(items, 2, 3) == ConfirmRows(items, 2, 1);
  }
}
