/**
 * What every interleaving of the deferred delivery hooks keeps: rows are decided once and never
 * lost, at most one settled live record exists, only validated texts are stored, and delivery
 * counts balance.
 */
module DeferredSafety {
  import opened Options
  import opened PackText
  import opened Ledger
  import opened Deferred
  import opened DeferredRows
  import opened DeferredRecords
  import opened DeferredRuns

  // ---------------------------------------------------------------- rows

  lemma StepKeepsRows(y: System, step: Step)
    requires RowsInv(y.ledger) && FlightsInv(y) && Enabled(y, step)
    ensures var t := NextLedger(y, step);
            && RowsInv(t) && y.ledger.items.Keys <= t.items.Keys
            && (forall i :: i in y.ledger.items ==> Decided(y.ledger.items[i], t.items[i]))
            && (!step.PostToolUse? ==> forall i :: i in t.items && t.items[i].decision.Included? ==>
                  i in y.ledger.items && y.ledger.items[i].decision.Included?)
  {
    hide Homed, UniqueIncluded, AddBuilt, Begin, Commit, Attach, Deliver, Deny, Stop;
    var s := y.ledger;
    match step
    case Build(pack, considered, epoch, createdAt) =>
      BuildKeeps(s, pack, considered, epoch, createdAt);
    case BeginStore(id, holds) =>
      BeginKeeps(s, id, holds);
      NoneIncludedUnique(s.items, Begin(s, id, holds).state.items);
    case Validate(_, _, _, _) =>
    case CommitStore(id, _, _, _) =>
      CommitKeeps(s, y.flights[id].pack, CommitOf(y, step));
      NoneIncludedUnique(s.items, Commit(s, y.flights[id].pack, CommitOf(y, step)).items);
    case PreToolUse(call, now, holds) =>
      AttachKeeps(s, call, now, holds);
      NoneIncludedUnique(s.items, Attach(s, call, now, holds).state.items);
    case PostToolUse(call, execution, now, holds) =>
      DeliverKeeps(s, call, execution, now, holds);
    case PermissionDenied(call, now) =>
      DenyKeeps(s, call, now);
    case StopHook(saw) =>
      StopKeeps(s, saw);
      NoneIncludedUnique(s.items, Stop(s, saw).state.items);
    case LoseText =>
      LoseKeeps(s);
  }

  // ---------------------------------------------------------------- records and the stored text

  lemma CommitNames(s: State, t: State, pack: BuiltPack, input: CommitInput)
    requires NamesUndelivered(s) && pack.id in s.records && Steady(s, t, Some(pack.id))
    requires s.records.Keys - {pack.id} <= t.records.Keys <= s.records.Keys
    requires SlotAfterCommit(s, t, pack, input) && OwnAfterCommit(s.records[pack.id], t, pack.id)
    ensures NamesUndelivered(t)
  {
    hide MergeTarget, Rendered;
  }

  lemma CommitSettles(t: State, s: State, id: RecordId, flying: set<RecordId>)
    requires id in s.records && Steady(s, t, Some(id)) && t.records.Keys <= s.records.Keys
    requires OwnAfterCommit(s.records[id], t, id) && OneSettled(s.records, flying)
    ensures OneSettled(t.records, flying - {id})
  {
    forall a | Settled(t.records, flying - {id}, a)
      ensures if OnlyLive(t, id) then a == id else Settled(s.records, flying, a)
    {
      assert a != id ==> LiveExcept(t.records, a, Some(id));
    }
  }

  lemma FewerLive(before: map<RecordId, Record>, after: map<RecordId, Record>, flying: set<RecordId>,
      others: set<RecordId>)
    requires OneSettled(before, flying)
    requires forall r :: Settled(after, others, r) ==> Settled(before, flying, r)
    ensures OneSettled(after, others)
  {
  }

  lemma StepSettlesFewer(y: System, step: Step)
    requires FlightsInv(y) && NamesUndelivered(y.ledger) && Enabled(y, step) && !step.CommitStore?
    ensures var z := Next(y, step);
            forall r :: Settled(z.ledger.records, z.flights.Keys, r) ==> Settled(y.ledger.records, y.flights.Keys, r)
  {
    hide AddBuilt, NewRows, Begin, Attach, Deliver, Deny, Stop, PlanInto, PlannedShrinks;
    var s := y.ledger;
    match step
    case Build(pack, considered, epoch, createdAt) => BuildSteady(s, pack, considered, epoch, createdAt);
    case BeginStore(id, holds) => BeginEffect(s, id, holds, 0);
    case PreToolUse(call, now, holds) => AttachSteady(s, call, now, holds);
    case PostToolUse(call, execution, now, holds) => DeliverSteady(s, call, execution, now, holds);
    case PermissionDenied(call, now) => DenySteady(s, call, now);
    case StopHook(saw) => StopSteady(s, saw);
    case _ =>
  }

  lemma StepKeepsSettled(y: System, step: Step)
    requires FlightsInv(y) && OneSettled(y.ledger.records, y.flights.Keys) && NamesUndelivered(y.ledger)
    requires Enabled(y, step)
    ensures var z := Next(y, step); OneSettled(z.ledger.records, z.flights.Keys)
  {
    var s, z := y.ledger, Next(y, step);
    hide OneSettled;
    if step.CommitStore? {
      hide FlightsInv, Commit, NextHistory;
      var pack := y.flights[step.id].pack;
      CommitterKnown(y, step);
      CommitEffect(s, pack, CommitOf(y, step), 0);
      CommitSettles(Commit(s, pack, CommitOf(y, step)), s, pack.id, y.flights.Keys);
    } else {
      hide FlightsInv, Next, NamesUndelivered;
      StepSettlesFewer(y, step);
      FewerLive(s.records, z.ledger.records, y.flights.Keys, z.flights.Keys);
    }
  }

  lemma CommitterKnown(y: System, step: Step)
    requires FlightsInv(y) && step.CommitStore? && Enabled(y, step)
    ensures step.id in y.flights && y.flights[step.id].pack.id == step.id && step.id in y.ledger.records
  {
  }

  lemma StepKeepsFlights(y: System, step: Step)
    requires FlightsInv(y) && NamesUndelivered(y.ledger) && Enabled(y, step)
    ensures FlightsInv(Next(y, step)) && NamesUndelivered(Next(y, step).ledger)
  {
    hide AddBuilt, NewRows, Begin, Commit, Attach, Deliver, Deny, Stop, FirstPending, PlanInto, Steady, Rendered,
        RenderPack,
      SlotAfterCommit;
    var s := y.ledger;
    match step
    case Build(pack, considered, epoch, createdAt) => BuildSteady(s, pack, considered, epoch, createdAt);
    case BeginStore(id, holds) => BeginEffect(s, id, holds, 0);
    case CommitStore(id, _, _, _) => CommitLeaves(y, step);
    case PreToolUse(call, now, holds) => AttachSteady(s, call, now, holds);
    case PostToolUse(call, execution, now, holds) => DeliverSteady(s, call, execution, now, holds);
    case PermissionDenied(call, now) => DenySteady(s, call, now);
    case StopHook(saw) => StopSteady(s, saw);
    case _ =>
  }

  lemma CommitLeaves(y: System, step: Step)
    requires FlightsInv(y) && NamesUndelivered(y.ledger) && Enabled(y, step) && step.CommitStore?
    ensures var t := Commit(y.ledger, y.flights[step.id].pack, CommitOf(y, step));
            NamesUndelivered(t) && y.ledger.records.Keys - {step.id} <= t.records.Keys <= y.ledger.records.Keys
  {
    CommitterKnown(y, step);
    hide FlightsInv, Commit, NamesUndelivered, SlotAfterCommit, OwnAfterCommit, Steady, PlannedShrinks;
    var pack := y.flights[step.id].pack;
    CommitEffect(y.ledger, pack, CommitOf(y, step), 0);
    CommitNames(y.ledger, Commit(y.ledger, pack, CommitOf(y, step)), pack, CommitOf(y, step));
  }

  lemma StepKeepsText(y: System, step: Step)
    requires FlightsInv(y) && TextInv(y) && NamesUndelivered(y.ledger) && Enabled(y, step)
    ensures TextInv(Next(y, step))
  {
    hide AddBuilt, Begin, Commit, Attach, Deliver, Deny, Stop, PlanInto, Steady, Rendered, RenderPack;
    var s := y.ledger;
    match step
    case Build(pack, considered, epoch, createdAt) =>
      BuildSteady(s, pack, considered, epoch, createdAt);
    case BeginStore(id, holds) =>
      BeginEffect(s, id, holds, 0);
    case CommitStore(id, _, _, _) =>
      CommitEffect(s, y.flights[id].pack, CommitOf(y, step), 0);
    case PreToolUse(call, now, holds) =>
      AttachSteady(s, call, now, holds);
    case PostToolUse(call, execution, now, holds) =>
      DeliverSteady(s, call, execution, now, holds);
    case PermissionDenied(call, now) =>
      DenySteady(s, call, now);
    case StopHook(saw) =>
      StopSteady(s, saw);
    case _ =>
  }

  /** Storing a pack touches nobody's attempts, counts or creation time. */
  lemma StoringKeepsDelivery(y: System, step: Step, r: RecordId)
    requires FlightsInv(y) && NamesUndelivered(y.ledger) && Enabled(y, step)
    requires step.Build? || step.BeginStore? || step.Validate? || step.CommitStore? || step.LoseText?
    requires r in y.ledger.records && r in Next(y, step).ledger.records
    ensures SameDelivery(y.ledger.records[r], Next(y, step).ledger.records[r])
  {
    hide NextFlights, NextHistory, AddBuilt, Begin, Commit, PlannedShrinks, SlotAfterCommit, Rendered, PlanInto;
    var s := y.ledger;
    match step
    case Build(pack, considered, epoch, createdAt) => BuildSteady(s, pack, considered, epoch, createdAt);
    case BeginStore(id, holds) => BeginEffect(s, id, holds, 0);
    case CommitStore(id, _, _, _) => CommitEffect(s, y.flights[id].pack, CommitOf(y, step), 0);
    case _ =>
  }

  lemma {:induction false} RunInvariant(run: seq<Step>, n: nat)
    requires n <= |run|
    ensures Inv(At(run, n))
  {
    if n > 0 {
      hide Enabled, NextLedger, NextFlights, NextHistory;
      RunInvariant(run, n - 1);
      var y := At(run, n - 1);
      if Enabled(y, run[n - 1]) {
        StepKeepsRows(y, run[n - 1]);
        StepKeepsSettled(y, run[n - 1]);
        StepKeepsFlights(y, run[n - 1]);
        StepKeepsText(y, run[n - 1]);
        hide RowsInv, FlightsInv, OneSettled, TextInv, NamesUndelivered;
      }
    }
  }

  // ---------------------------------------------------------------- main results, every interleaving

  /** A row keeps its place in the ledger for ever, and its decision and reason once it is decided. */
  lemma {:induction false} DecisionsAreFinal(run: seq<Step>, m: nat, n: nat, i: ItemId)
    requires m <= n <= |run| && i in At(run, m).ledger.items
    ensures i in At(run, n).ledger.items
    ensures Decided(At(run, m).ledger.items[i], At(run, n).ledger.items[i])
  {
    if m < n {
      DecisionsAreFinal(run, m, n - 1, i);
      RunInvariant(run, n - 1);
      if Enabled(At(run, n - 1), run[n - 1]) {
        StepKeepsRows(At(run, n - 1), run[n - 1]);
        hide RowsInv, FlightsInv;
      }
    }
  }

  /** A delivered or closed record has no row still waiting, and a memory is included once per epoch. */
  lemma {:induction false} FinishedHasNoPlanned(run: seq<Step>, n: nat, i: ItemId, j: ItemId)
    requires n <= |run| && i in At(run, n).ledger.items && j in At(run, n).ledger.items
    ensures var s := At(run, n).ledger;
            && s.items[i].owner in s.records
            && (!Live(s.records[s.items[i].owner]) ==> !s.items[i].decision.Planned?)
            && (i != j && s.items[i].decision.Included? && s.items[j].decision.Included? && s.items[i].key.memory.Some? ==>
                  (s.items[i].epoch, s.items[i].key.memory) != (s.items[j].epoch, s.items[j].key.memory))
  {
    RunInvariant(run, n);
  }

  /** Two live records at once: one of them is still between its build and its own commit. */
  lemma {:induction false} LiveRecordsAreSettledOnce(run: seq<Step>, n: nat, a: RecordId, b: RecordId)
    requires n <= |run|
    requires LiveExcept(At(run, n).ledger.records, a, None) && LiveExcept(At(run, n).ledger.records, b, None) && a != b
    ensures a in At(run, n).flights || b in At(run, n).flights
  {
    RunInvariant(run, n);
    assert !(Settled(At(run, n).ledger.records, At(run, n).flights.Keys, a)
             && Settled(At(run, n).ledger.records, At(run, n).flights.Keys, b));
  }

  /** Every text ever stored was built as a whole or passed the whole-pack checks. */
  lemma {:induction false} StoredTextWasChecked(run: seq<Step>, n: nat)
    requires n <= |run| && At(run, n).ledger.slot.Some?
    ensures At(run, n).ledger.slot.value.text in At(run, n).history.built + At(run, n).history.passed
    ensures Rendered(At(run, n).ledger.slot.value)
  {
    RunInvariant(run, n);
  }

  /** What a hook puts in `passed` it really validated: a plan's text with no rejection. */
  lemma PassedMeansValidated(y: System, step: Step, text: string)
    requires text in Next(y, step).history.passed && text !in y.history.passed
    ensures step.Validate? && step.verdict.None? && step.live.Some? && step.id in y.flights
    ensures text == PlanInto(step.live.value, step.slot, y.flights[step.id].pack).text
  {
  }

  /** The blocks a merge starts from: those of the text it replaces, with the pack's choices in front if it had none. */
  function MergeBase(slot: Option<PendingPack>, pack: BuiltPack): seq<Block> {
    WithChoices(if slot.Some? then slot.value.blocks else [], pack.choices)
  }

  lemma PlanFits(live: Record, slot: Option<PendingPack>, pack: BuiltPack)
    ensures var plan := PlanInto(live, slot, pack);
            && MergeBase(slot, pack) <= plan.blocks
            && (|plan.text| <= live.charBudget.GetOr(pack.charBudget) || plan.blocks == MergeBase(slot, pack))
  {
    var line := if slot.Some? then slot.value.repositoryLine else pack.repositoryLine;
    var degraded := if slot.Some? && slot.value.degraded.Some? then slot.value.degraded else pack.degraded;
    MergedTextFitsBudget(pack.items, MergeBase(slot, pack), live.charBudget.GetOr(pack.charBudget), line, degraded);
    hide RenderPack, FoldItems, WithChoices;
  }

  lemma MergeStores(s: State, pack: BuiltPack, input: CommitInput, live: RecordId)
    requires MergeTarget(s, pack, input) == Some(live)
    ensures var read := CurrentPending(s, input.slotGuardHolds).state;
            && live in read.records && Commit(s, pack, input).slot.Some?
            && var plan, stored := PlanInto(read.records[live], read.slot, pack), Commit(s, pack, input).slot.value;
               stored.owner == live && stored.blocks == plan.blocks && stored.text == plan.text
  {
    var read := CurrentPending(s, input.slotGuardHolds).state;
    assert OldestLive(read.records, Some(pack.id), live);
    hide CurrentPending, PlanInto, MergedGuard, PlannedShrinks, Merge;
    MergeEffect(read, pack, live, PlanInto(read.records[live], read.slot, pack), input.stamp, 0);
  }

  /**
   * At every moment of every run, a merge stores a text that fits the live record's budget or adds no
   * item to the text it replaces; what was carried before stays in front.
   */
  lemma StoredMergeFits(run: seq<Step>, n: nat, live: RecordId)
    requires n < |run| && run[n].CommitStore? && Enabled(At(run, n), run[n])
    requires MergeTarget(At(run, n).ledger, At(run, n).flights[run[n].id].pack,
        CommitOf(At(run, n), run[n])) == Some(live)
    ensures var s, pack := At(run, n).ledger, At(run, n).flights[run[n].id].pack;
            var base := MergeBase(CurrentPending(s, run[n].slotGuardHolds).state.slot, pack);
            var stored := At(run, n + 1).ledger.slot;
            && stored.Some? && stored.value.owner == live && live in s.records && base <= stored.value.blocks
            && (|stored.value.text| <= s.records[live].charBudget.GetOr(pack.charBudget) || stored.value.blocks == base)
  {
    var y := At(run, n);
    var s, pack, input := y.ledger, y.flights[run[n].id].pack, CommitOf(y, run[n]);
    var read := CurrentPending(s, input.slotGuardHolds).state;
    MergeStores(s, pack, input, live);
    PlanFits(read.records[live], read.slot, pack);
    BudgetStays(s, input.slotGuardHolds, live);
    hide At, MergeTarget, PlanInto, MergeBase, CurrentPending, Commit;
    assert At(run, n + 1).ledger == Commit(s, pack, input) by { CommitsNext(run, n); }
  }

  lemma BudgetStays(s: State, holds: bool, r: RecordId)
    requires r in CurrentPending(s, holds).state.records
    ensures r in s.records && CurrentPending(s, holds).state.records[r].charBudget == s.records[r].charBudget
  {
  }

  lemma CommitsNext(run: seq<Step>, n: nat)
    requires n < |run| && run[n].CommitStore? && Enabled(At(run, n), run[n])
    ensures At(run, n + 1).ledger == Commit(At(run, n).ledger, At(run, n).flights[run[n].id].pack,
        CommitOf(At(run, n), run[n]))
  {
  }
}
