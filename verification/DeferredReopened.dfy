/**
 * A run that leaves `omitted`, and through it the third way a receipt can include what its call never
 * carried: nothing is denied, and records are built in the order of their capture times.
 */
module DeferredReopened {
  import opened Options
  import opened PackText
  import opened Ledger
  import opened Deferred
  import opened DeferredRows
  import opened DeferredRecords
  import opened DeferredRuns
  import opened DeferredDelivery
  import opened DeferredFailures
  import opened DeferredExact
  import opened DeferredTidy

  const P3 := OneMemoryPack(3, "m3", None)
  const CALLED := Attempt("call", NotRun, Waiting, 6)
  const DROPPED_CALL := Attempt("call", NotRun, Dropped, 6)
  const CARRYING := RG1.(state := Attempted, attempts := [CALLED])
  const CLOSED := RG1.(state := RecordOmitted, attempts := [DROPPED_CALL], degraded := Some(NOT_DELIVERED))
  const OPEN_AGAIN := CLOSED.(state := Pending)
  const OWN_SLOT := PendingPack(1, "", None, [Fact("m1")], G1.text, GUARD)
  const NOT_CARRIED := Omit(PlannedRow(1, "m1"), Some(NotDelivered))
  const NOT_RUN := Omit(PlannedRow(1, "m2"), Some(NotDelivered))

  /**
   * Record 1 is overtaken by pack 2 and carried with its text; Stop closes it; then its own slow hook
   * stores pack 1 there, pack 3 merges into it, and the call's receipt comes.
   */
  const RUN: seq<Step> := OVERTAKEN + [
    PreToolUse("call", 6, true), StopHook(true),
    BeginStore(1, true), Validate(1, None, None, None), CommitStore(1, true, true, None),
    Build(P3, [], 0, 7), BeginStore(3, true), Validate(3, Some(OPEN_AGAIN), Some(OWN_SLOT), None),
        CommitStore(3, true, true, None),
    PostToolUse("call", Ran, 8, true)]

  lemma CarriesSecond(y: System)
    requires y.ledger == State(map[1 := RG1], map[0 := PlannedRow(1, "m1"), 1 := PlannedRow(1, "m2")], 2, Some(SLOT2))
    requires y.history.carried == {}
    ensures var z := Next(y, PreToolUse("call", 6, true));
            && z.ledger == State(map[1 := CARRYING], map[0 := NOT_CARRIED, 1 := PlannedRow(1, "m2")], 2, Some(SLOT2))
            && z.flights == y.flights && z.history.used == y.history.used && z.history.carried == {Carriage(1, "call",
                SLOT2)}
  {
    OnlyRecordIsOldest(1, RG1);
    LiveRecordIs(y.ledger.records, None, 1);
    assert KeysOf(SLOT2.blocks) == {MemoryKey("m2")};
    assert [] + [CALLED] == [CALLED];
    hide OneMemoryPack, RenderPack, OldestLive;
  }

  lemma StopCloses(y: System)
    requires y.ledger == State(map[1 := CARRYING], map[0 := NOT_CARRIED, 1 := PlannedRow(1, "m2")], 2, Some(SLOT2))
    ensures var z := Next(y, StopHook(true));
            && z.ledger == State(map[1 := CLOSED], map[0 := NOT_CARRIED, 1 := NOT_RUN], 2, None)
            && z.flights == y.flights && z.history == y.history
  {
    OnlyRecordIsOldest(1, CARRYING);
    ReportedRecordIs(y.ledger.records, 1);
    assert DropWaiting([CALLED]) == [DROPPED_CALL];
    hide OneMemoryPack, RenderPack, OldestLive, LatestEmitted;
  }

  lemma {:induction false} ClosedAt(run: seq<Step>)
    requires run == RUN
    ensures var y := At(run, 7);
            && y.ledger == State(map[1 := CLOSED], map[0 := NOT_CARRIED, 1 := NOT_RUN], 2, None)
            && y.flights == map[1 := Flight(G1, Built)]
            && y.history.carried == {Carriage(1, "call", SLOT2)} && y.history.used == {1, 2}
  {
    hide Next, OneMemoryPack, RenderPack;
    assert forall k :: 0 <= k < 5 ==> run[k] == OVERTAKEN[k];
    assert run[5] == PreToolUse("call", 6, true) && run[6] == StopHook(true);
    Overtaken(run);
    AtNext(run, 5);
    AtNext(run, 6);
    hide At;
    CarriesSecond(At(run, 5));
    StopCloses(At(run, 6));
  }

  lemma {:induction false} ReopenedAt(run: seq<Step>)
    requires run == RUN
    ensures var y := At(run, 10);
            && y.ledger == State(map[1 := OPEN_AGAIN], map[0 := NOT_CARRIED, 1 := NOT_RUN], 2, Some(OWN_SLOT))
            && y.flights == map[] && y.history.carried == {Carriage(1, "call", SLOT2)} && y.history.used == {1, 2}
  {
    hide Next, OneMemoryPack, RenderPack;
    ClosedAt(run);
    assert run[7] == BeginStore(1, true) && run[8] == Validate(1, None, None, None) && run[9] == CommitStore(1, true,
        true, None);
    AtNext(run, 7);
    AtNext(run, 8);
    AtNext(run, 9);
    hide At;
    StoreAlone(At(run, 7), 1, "m1", GUARD);
  }

  lemma MoveThird(s: State)
    requires s.records == map[1 := OPEN_AGAIN, 3 := BuiltRecordOf(P3, 7)]
    requires s.items == map[0 := NOT_CARRIED, 1 := NOT_RUN, 2 := PlannedRow(3, "m3")]
    ensures var t := ReparentItems(s, 3, 1);
            && t.records == map[1 := OPEN_AGAIN] && t.nextItem == s.nextItem && t.slot == s.slot
            && t.items == map[0 := NOT_CARRIED, 1 := NOT_RUN, 2 := PlannedRow(1, "m3")]
  {
    hide OneMemoryPack, RenderPack;
  }

  lemma MergeThird(s: State)
    requires s.records == map[1 := OPEN_AGAIN, 3 := BuiltRecordOf(P3, 7)] && s.nextItem == 3 && s.slot == Some(OWN_SLOT)
    requires s.items == map[0 := NOT_CARRIED, 1 := NOT_RUN, 2 := PlannedRow(3, "m3")]
    ensures var t := Merge(s, P3, 1, PlanInto(OPEN_AGAIN, s.slot, P3), None);
            && t.records == map[1 := OPEN_AGAIN.(degraded := None)] && t.nextItem == 3
            && t.items == map[0 := NOT_CARRIED, 1 := NOT_RUN, 2 := PlannedRow(1, "m3")]
  {
    PackBudget(1, "m1", GUARD);
    PackId(3, "m3", None);
    PlanIntoOpen(OPEN_AGAIN, s.slot, [Fact("m1")], P3, "m3");
    assert s.(items := OmitAll(s.items, 3, [])) == s;
    MoveThird(s);
    hide OneMemoryPack, RenderPack, PlanInto, ReparentItems, OmitAll;
  }

  lemma OpenIsOldest()
    ensures OldestLive(map[1 := OPEN_AGAIN, 3 := BuiltRecordOf(P3, 7)], Some(3), 1) && !AnyWaiting(OPEN_AGAIN.attempts)
  {
    hide OneMemoryPack;
  }

  lemma {:induction false} MergedThirdAt(run: seq<Step>)
    requires run == RUN
    ensures var y := At(run, 14);
            && y.ledger.records == map[1 := OPEN_AGAIN.(degraded := None)] && y.ledger.nextItem == 3
            && y.ledger.items == map[0 := NOT_CARRIED, 1 := NOT_RUN, 2 := PlannedRow(1, "m3")]
            && y.history.carried == {Carriage(1, "call", SLOT2)}
  {
    hide Next, OneMemoryPack, RenderPack;
    ReopenedAt(run);
    assert run[10] == Build(P3, [], 0, 7) && run[11] == BeginStore(3, true);
    assert run[12] == Validate(3, Some(OPEN_AGAIN), Some(OWN_SLOT), None) && run[13] == CommitStore(3, true, true,
        None);
    FourSteps(run, 10, 3, OPEN_AGAIN, Some(OWN_SLOT));
    hide At;
    BuildStep(At(run, 10), 3, "m3", None, 7);
    var y := Next(At(run, 10), run[10]);
    PackId(3, "m3", None);
    assert y.ledger.records == map[1 := OPEN_AGAIN, 3 := BuiltRecordOf(P3, 7)];
    assert y.ledger.items == map[0 := NOT_CARRIED, 1 := NOT_RUN, 2 := PlannedRow(3, "m3")];
    OpenIsOldest();
    hide OldestLive, AnyWaiting, Merge, PlanInto;
    StoreMerged(y, 3, 1);
    MergeThird(y.ledger);
  }

  lemma {:induction false} ConfirmsThird(items: map<ItemId, Item>)
    requires items == map[0 := NOT_CARRIED, 1 := NOT_RUN, 2 := PlannedRow(1, "m3")]
    ensures 2 in ConfirmRows(items, 1, 3) && ConfirmRows(items, 1, 3)[2].decision.Included?
  {
    assert ConfirmRows(items, 1, 0) == items;
    assert ConfirmRows(items, 1, 1) == items;
    assert ConfirmRows(items, 1, 2) == items;
  }

  lemma ReceiptIncludesThird(y: System)
    requires y.ledger.records == map[1 := OPEN_AGAIN.(degraded := None)] && y.ledger.nextItem == 3
    requires y.ledger.items == map[0 := NOT_CARRIED, 1 := NOT_RUN, 2 := PlannedRow(1, "m3")]
    requires y.history.carried == {Carriage(1, "call", SLOT2)}
    ensures var step := PostToolUse("call", Ran, 8, true);
            LateReceipt(y, step) && NewlyIncluded(y, Next(y, step), 2) && !Justified(y, step, 2)
  {
    hide OneMemoryPack, RenderPack, OldestLive, LatestEmitted, ConfirmRows;
    OnlyRecordIsOldest(1, OPEN_AGAIN.(degraded := None));
    ReportedRecordIs(y.ledger.records, 1);
    FirstAttempt("call", DROPPED_CALL);
    ConfirmsThird(y.ledger.items);
    assert KeysOf([Fact("m2")]) == {MemoryKey("m2")};
  }

  lemma {:induction false} NothingDenied(run: seq<Step>, n: nat)
    requires n <= |run| && forall k :: 0 <= k < n ==> !run[k].PermissionDenied?
    ensures At(run, n).history.denied == {}
  {
    if n > 0 {
      NothingDenied(run, n - 1);
      hide NextLedger, NextFlights;
    }
  }

  lemma BuiltInOrder()
    ensures forall k :: 0 <= k < |RUN| ==> BuildsInOrder(At(RUN, k), RUN[k])
  {
    var run := RUN;
    hide Next, OneMemoryPack, RenderPack;
    assert forall k :: 0 <= k < |run| && run[k].Build? ==> k == 0 || k == 1 || k == 10;
    assert run[0] == Build(G1, [], 0, 0) && run[1] == Build(P2, [], 0, 5) && run[10] == Build(P3, [], 0, 7);
    AtNext(run, 0);
    BuildStep(EMPTY, 1, "m1", GUARD, 0);
    assert At(run, 1).ledger.records == map[1 := RG1];
    PackId(2, "m2", None);
    PackId(3, "m3", None);
    ReopenedAt(run);
    hide At;
  }

  lemma OwnHookReopens(run: seq<Step>)
    requires run == RUN
    ensures Reopens(At(run, 9), run[9], 1)
  {
    hide Next, OneMemoryPack, RenderPack;
    ClosedAt(run);
    ReopenedAt(run);
    assert run[7] == BeginStore(1, true) && run[8] == Validate(1, None, None, None) && run[9] == CommitStore(1, true,
        true, None);
    AtNext(run, 7);
    AtNext(run, 8);
    hide At, Reopens;
    BeginStep(At(run, 7), 1);
    ValidateStep(At(run, 8), 1, None, None);
    ReopenedExactly(run, 9, 1);
  }

  /** `omitted` is left: Stop closed the record, and its own hook stores its text as the first one. */
  lemma OmittedIsReopened()
    ensures InState(At(RUN, 7), 1, RecordOmitted) && InState(At(RUN, 10), 1, Pending) && Reopens(At(RUN, 9), RUN[9], 1)
  {
    ClosedAt(RUN);
    ReopenedAt(RUN);
    OwnHookReopens(RUN);
    hide At, Next, OneMemoryPack, RenderPack, Reopens;
  }

  /**
   * And then a receipt includes a row its call never carried, although no call was denied and every
   * record was built later than the ones before.
   */
  lemma ReopenedIncludesUnreceived()
    ensures LateReceipt(At(RUN, 14), RUN[14]) && NewlyIncluded(At(RUN, 14), At(RUN, 15), 2) && !Justified(At(RUN, 14),
        RUN[14], 2)
    ensures At(RUN, 15).history.denied == {} && forall k :: 0 <= k < |RUN| ==> BuildsInOrder(At(RUN, k), RUN[k])
  {
    BuiltInOrder();
    NothingDenied(RUN, 15);
    MergedThirdAt(RUN);
    AtNext(RUN, 14);
    hide At, Next, OneMemoryPack, RenderPack, LateReceipt, NewlyIncluded, Justified, BuildsInOrder;
    ReceiptIncludesThird(At(RUN, 14));
  }
}
