/**
 * Exactly when the properties of records and of the stored text fail: the only steps that do it are
 * builds next to a live record and the two transactions of a hook whose record others used meanwhile.
 */
module DeferredExact {
  import opened Options
  import opened Ledger
  import opened Deferred
  import opened DeferredRows
  import opened DeferredRecords
  import opened DeferredRuns
  import opened DeferredSafety
  import opened DeferredCounts

  // ---------------------------------------------------------------- the properties

  /** The stored text names a live record. */
  ghost predicate SlotLive(s: State) {
    s.slot.Some? ==> s.slot.value.owner in s.records && Live(s.records[s.slot.value.owner])
  }

  ghost predicate AtMostOneLive(records: map<RecordId, Record>) {
    forall a, b :: LiveExcept(records, a, None) && LiveExcept(records, b, None) ==> a == b
  }

  ghost predicate EmittedIsDelivered(records: map<RecordId, Record>) {
    forall r :: r in records ==> (records[r].state.Emitted? <==> records[r].deliveryCount >= 1)
  }

  // ---------------------------------------------------------------- the guards of the steps that break them

  predicate Names(slot: Option<PendingPack>, id: RecordId) {
    slot.Some? && slot.value.owner == id
  }

  /** The commit closes its own record: a call carries another record's text, or the pack's guard fails. */
  ghost predicate ClosesOwn(s: State, pack: BuiltPack, input: CommitInput) {
    Carrier(s, pack.id).Some? || (pack.guard.Some? && !input.packGuardHolds)
  }

  /** The other record the commit would merge into. */
  ghost function Target(s: State, pack: BuiltPack, input: CommitInput): Option<RecordId> {
    LiveRecord(CurrentPending(s, input.slotGuardHolds).state.records, Some(pack.id))
  }

  /** The pack's rows move to another record, and the stored text stays as it is. */
  ghost predicate KeepsText(read: State, pack: BuiltPack, input: CommitInput) {
    var live := LiveRecord(read.records, Some(pack.id));
    live.Some? &&
    ( || input.validated != Some(PlanInto(read.records[live.value], read.slot, pack).text)
      || (input.rejection.Some? && !input.rejection.value.ControlCharacters?)
      || (input.rejection.None? && MergedGuard(read.slot, pack.guard, input.stamp).None?))
  }

  ghost predicate OrphansAtCommit(s: State, pack: BuiltPack, input: CommitInput) {
    if Carrier(s, pack.id).Some? then Names(s.slot, pack.id)
    else
      var read := CurrentPending(s, input.slotGuardHolds).state;
      Names(read.slot, pack.id) && ((pack.guard.Some? && !input.packGuardHolds) || KeepsText(read, pack, input))
  }

  /** The hook is cancelled as it begins: a call carries another record's text. */
  ghost predicate CancelledAtBegin(s: State, id: RecordId, holds: bool) {
    Carrier(CurrentPending(s, holds).state, id).Some?
  }

  /** The step leaves the stored text naming a record that is closed or gone. */
  ghost predicate Orphans(y: System, step: Step) {
    Enabled(y, step) &&
    match step
    case BeginStore(id, holds) => CancelledAtBegin(y.ledger, id,
        holds) && Names(CurrentPending(y.ledger, holds).state.slot, id)
    case CommitStore(id, _, _, _) => OrphansAtCommit(y.ledger, y.flights[id].pack, CommitOf(y, step))
    case _ => false
  }

  /** The step takes a finished record out of the state it finished in. */
  ghost predicate Leaves(y: System, step: Step, r: RecordId) {
    && Enabled(y, step) && r in y.ledger.records
    && match step
       case BeginStore(id, holds) => id == r && y.ledger.records[r].state.Emitted? && CancelledAtBegin(y.ledger, r,
           holds)
       case CommitStore(id, _, _, _) =>
         id == r && (y.ledger.records[r].state.Emitted? || !ClosesOwn(y.ledger, y.flights[r].pack, CommitOf(y, step)))
       case _ => false
  }

  /** The hook of a finished record stores its own text: the record is open again. */
  ghost predicate Reopens(y: System, step: Step, r: RecordId) {
    && Enabled(y, step) && step.CommitStore? && step.id == r && r in y.ledger.records && !Live(y.ledger.records[r])
    && !ClosesOwn(y.ledger, y.flights[r].pack, CommitOf(y, step))
    && Target(y.ledger, y.flights[r].pack, CommitOf(y, step)).None?
  }

  /** A delivered record is closed or reopened by its own hook, and stays in the ledger. */
  ghost predicate Forgets(y: System, step: Step) {
    Enabled(y, step) &&
    match step
    case BeginStore(id, holds) => id in y.ledger.records && y.ledger.records[id].state.Emitted? && CancelledAtBegin(y.ledger, id, holds)
    case CommitStore(id, _, _, _) =>
      && id in y.ledger.records && y.ledger.records[id].state.Emitted?
      && (ClosesOwn(y.ledger, y.flights[id].pack, CommitOf(y, step)) || Target(y.ledger, y.flights[id].pack,
          CommitOf(y, step)).None?)
    case _ => false
  }

  /** A record is built while another one is live. */
  ghost predicate Crowds(y: System, step: Step) {
    step.Build? && Enabled(y, step) && exists r :: LiveExcept(y.ledger.records, r, None)
  }

  // ---------------------------------------------------------------- the record of the committing hook

  lemma StoreOrMergeOwn(read: State, pack: BuiltPack, input: CommitInput)
    requires pack.id in read.records
    ensures var t := StoreOrMerge(read, pack, input);
            && (pack.id in t.records <==> LiveRecord(read.records, Some(pack.id)).None?)
            && (pack.id in t.records ==> t.records[pack.id] == read.records[pack.id].(state := Pending))
  {
    hide Merge, Refuse, GiveUp, PlanInto, MergedGuard, OldestLive, PlannedShrinks, Steady;
    var live := LiveRecord(read.records, Some(pack.id));
    if live.Some? {
      LiveIsOther(read, pack.id, live.value);
      var plan := PlanInto(read.records[live.value], read.slot, pack);
      GiveUpEffect(read, pack.id, live.value, 0);
      if input.rejection.Some? {
        RefuseEffect(read, pack, live.value, input.rejection.value, 0);
      }
      MergeEffect(read, pack, live.value, plan, input.stamp, 0);
    }
  }

  lemma LiveIsOther(s: State, id: RecordId, live: RecordId)
    requires LiveRecord(s.records, Some(id)) == Some(live)
    ensures live != id && live in s.records && Live(s.records[live])
  {
  }

  /** What becomes of the record whose own hook commits: closed, stored as the pending one, or merged away. */
  lemma CommitOwn(s: State, pack: BuiltPack, input: CommitInput)
    requires NamesUndelivered(s) && pack.id in s.records
    ensures var t := Commit(s, pack, input);
            if ClosesOwn(s, pack, input) then pack.id in t.records && t.records[pack.id].state.RecordOmitted?
            else if Target(s, pack, input).None? then pack.id in t.records && t.records[pack.id].state.Pending?
            else pack.id !in t.records
  {
    hide StoreOrMerge, CurrentPending, CancelUndelivered, PlannedShrinks, OldestLive, Steady;
    var read := CurrentPending(s, input.slotGuardHolds).state;
    CancelEffect(s, pack.id, 0);
    CurrentPendingEffect(s, input.slotGuardHolds, 0);
    CancelEffect(read, pack.id, 0);
    StoreOrMergeOwn(read, pack, input);
  }

  // ---------------------------------------------------------------- the stored text

  lemma CurrentPendingSlotLive(s: State, holds: bool)
    requires SlotLive(s)
    ensures SlotLive(CurrentPending(s, holds).state)
  {
  }

  lemma CancelSlotLive(s: State, id: RecordId)
    requires SlotLive(s)
    ensures !SlotLive(CancelUndelivered(s, id)) <==> Names(s.slot, id)
  {
  }

  /** Records other than `id` keep their state and the text stays: it is orphaned exactly if it names `id`. */
  lemma GoneSlotLive(s: State, t: State, id: RecordId)
    requires SlotLive(s) && t.slot == s.slot && t.records == s.records - {id}
    ensures !SlotLive(t) <==> Names(s.slot, id)
  {
  }

  lemma RefuseSlot(s: State, pack: BuiltPack, live: RecordId, rejection: Rejection)
    requires pack.id != live
    ensures var t := Refuse(s, pack, live, rejection);
            if rejection.ControlCharacters? then t.slot.None? else t.slot == s.slot && t.records == s.records - {pack.id}
  {
    hide OmitPlanned, Reparent, Cascade;
  }

  lemma MergeSlotLive(s: State, pack: BuiltPack, live: RecordId, plan: MergePlan, stamp: Option<string>)
    requires SlotLive(s) && pack.id != live && live in s.records && Live(s.records[live])
    ensures !SlotLive(Merge(s, pack, live, plan, stamp)) <==>
              MergedGuard(s.slot, pack.guard, stamp).None? && Names(s.slot, pack.id)
  {
    hide OmitAll, OmitPlanned, Reparent, Cascade, MergedGuard, Refuse;
    RefuseSlot(s, pack, live, Secret);
    if MergedGuard(s.slot, pack.guard, stamp).None? {
      GoneSlotLive(s, Refuse(s, pack, live, Secret), pack.id);
    }
  }

  lemma GiveUpSlotLive(s: State, pack: RecordId, live: RecordId)
    requires SlotLive(s) && pack != live
    ensures !SlotLive(GiveUp(s, pack, live)) <==> Names(s.slot, pack)
  {
    GiveUpEffect(s, pack, live, 0);
    GoneSlotLive(s, GiveUp(s, pack, live), pack);
  }

  lemma StoreOrMergeSlotLive(s: State, pack: BuiltPack, input: CommitInput)
    requires SlotLive(s) && pack.id in s.records
    ensures !SlotLive(StoreOrMerge(s, pack, input)) <==> Names(s.slot, pack.id) && KeepsText(s, pack, input)
  {
    hide Merge, Refuse, GiveUp, PlanInto, MergedGuard, OldestLive, SlotLive, Names;
    var live := LiveRecord(s.records, Some(pack.id));
    if live.Some? {
      LiveIsOther(s, pack.id, live.value);
      var plan := PlanInto(s.records[live.value], s.slot, pack);
      GiveUpSlotLive(s, pack.id, live.value);
      MergeSlotLive(s, pack, live.value, plan, input.stamp);
      if input.rejection.Some? {
        RefusedSlotLive(s, pack, live.value, input.rejection.value);
      }
    } else {
      StoreFirstSlotLive(s, pack);
    }
  }

  lemma RefusedSlotLive(s: State, pack: BuiltPack, live: RecordId, rejection: Rejection)
    requires SlotLive(s) && pack.id != live
    ensures !SlotLive(Refuse(s, pack, live, rejection)) <==> !rejection.ControlCharacters? && Names(s.slot, pack.id)
  {
    hide Refuse;
    RefuseSlot(s, pack, live, rejection);
    if !rejection.ControlCharacters? {
      GoneSlotLive(s, Refuse(s, pack, live, rejection), pack.id);
    }
  }

  lemma StoreFirstSlotLive(s: State, pack: BuiltPack)
    requires pack.id in s.records
    ensures SlotLive(StoreFirst(s, pack))
  {
  }

  /** A commit orphans the stored text exactly if that text names its own record and the record closes or goes. */
  lemma CommitOrphansExactly(s: State, pack: BuiltPack, input: CommitInput)
    requires SlotLive(s) && pack.id in s.records && NamesUndelivered(s)
    ensures !SlotLive(Commit(s, pack, input)) <==> OrphansAtCommit(s, pack, input)
  {
    var read := CurrentPending(s, input.slotGuardHolds).state;
    CurrentPendingEffect(s, input.slotGuardHolds, 0);
    CurrentPendingSlotLive(s, input.slotGuardHolds);
    CancelSlotLive(s, pack.id);
    CancelSlotLive(read, pack.id);
    StoreOrMergeSlotLive(read, pack, input);
    hide StoreOrMerge, CancelUndelivered, CurrentPending, Carrier, SlotLive, KeepsText, Names;
  }

  lemma BeginOrphansExactly(s: State, id: RecordId, holds: bool)
    requires SlotLive(s)
    ensures !SlotLive(Begin(s, id, holds).state) <==>
              CancelledAtBegin(s, id, holds) && Names(CurrentPending(s, holds).state.slot, id)
  {
    CurrentPendingSlotLive(s, holds);
    CancelSlotLive(CurrentPending(s, holds).state, id);
    hide CancelUndelivered, CurrentPending, SlotLive, Names, Carrier;
  }

  lemma AttachSlotLive(s: State, call: CallId, now: int, holds: bool)
    requires SlotLive(s)
    ensures SlotLive(Attach(s, call, now, holds).state)
  {
    CurrentPendingSlotLive(s, holds);
    hide OmitUnrendered, OmitPlanned;
  }

  lemma DeliverSlotLive(s: State, call: CallId, execution: Execution, now: int, holds: bool)
    requires SlotLive(s)
    ensures SlotLive(Deliver(s, call, execution, now, holds).state)
  {
    CurrentPendingSlotLive(s, holds);
    hide OmitUnrendered, OmitPlanned, ConfirmRows, CurrentPending;
  }

  lemma StopSlotLive(s: State, saw: bool)
    requires SlotLive(s)
    ensures SlotLive(Stop(s, saw).state)
  {
    hide OmitPlanned, DropWaiting;
  }

  lemma StepOrphansExactly(y: System, step: Step)
    requires Inv(y) && SlotLive(y.ledger) && Enabled(y, step)
    ensures !SlotLive(Next(y, step).ledger) <==> Orphans(y, step)
  {
    hide NextFlights, NextHistory, AddBuilt, Begin, Commit, Attach, Deliver, Stop, RowsInv, OneSettled, TextInv,
        PlannedShrinks, OrphansAtCommit, CancelledAtBegin;
    var s := y.ledger;
    match step
    case Build(pack, considered, epoch, createdAt) => BuildSteady(s, pack, considered, epoch, createdAt);
    case BeginStore(id, holds) => BeginOrphansExactly(s, id, holds);
    case CommitStore(id, _, _, _) => CommitOrphansExactly(s, y.flights[id].pack, CommitOf(y, step));
    case PreToolUse(call, now, holds) => AttachSlotLive(s, call, now, holds);
    case PostToolUse(call, execution, now, holds) => DeliverSlotLive(s, call, execution, now, holds);
    case StopHook(saw) => StopSlotLive(s, saw);
    case _ =>
  }

  /** At every moment of every run: the text stops naming a live record at exactly these steps. */
  lemma StoredTextIsOrphanedExactly(run: seq<Step>, n: nat)
    requires n < |run| && SlotLive(At(run, n).ledger)
    ensures !SlotLive(At(run, n + 1).ledger) <==> Orphans(At(run, n), run[n])
  {
    RunInvariant(run, n);
    hide NextLedger, NextFlights, NextHistory, Inv, SlotLive;
    if Enabled(At(run, n), run[n]) {
      StepOrphansExactly(At(run, n), run[n]);
    }
  }

  lemma EmptyIsLive()
    ensures SlotLive(EMPTY.ledger)
  {
  }

  ghost predicate TextLiveAt(run: seq<Step>, m: nat)
    requires m <= |run|
  {
    SlotLive(At(run, m).ledger)
  }

  ghost predicate OrphansAt(run: seq<Step>, k: nat)
    requires k < |run|
  {
    Orphans(At(run, k), run[k])
  }

  lemma {:induction false} NeverOrphaned(run: seq<Step>, n: nat)
    requires n <= |run| && forall k :: 0 <= k < n ==> !OrphansAt(run, k)
    ensures TextLiveAt(run, n)
  {
    hide Next, SlotLive, Orphans;
    if n == 0 {
      EmptyIsLive();
    } else {
      NeverOrphaned(run, n - 1);
      assert !OrphansAt(run, n - 1);
      StoredTextIsOrphanedExactly(run, n - 1);
    }
  }

  lemma OrphanedStep(run: seq<Step>, k: nat)
    requires k < |run| && TextLiveAt(run, k) && TextLiveAt(run, k + 1)
    ensures !OrphansAt(run, k)
  {
    StoredTextIsOrphanedExactly(run, k);
    hide At, SlotLive, Orphans;
  }

  /** So it names one throughout a run exactly if no step of the run is one of them. */
  lemma StoredTextNamesALiveRecordExactly(run: seq<Step>, n: nat)
    requires n <= |run|
    ensures (forall m :: 0 <= m <= n ==> TextLiveAt(run, m)) <==> (forall k :: 0 <= k < n ==> !OrphansAt(run, k))
  {
    hide TextLiveAt, OrphansAt;
    if forall k :: 0 <= k < n ==> !OrphansAt(run, k) {
      forall m | 0 <= m <= n ensures TextLiveAt(run, m) {
        NeverOrphaned(run, m);
      }
    }
    if forall m :: 0 <= m <= n ==> TextLiveAt(run, m) {
      forall k | 0 <= k < n ensures !OrphansAt(run, k) {
        OrphanedStep(run, k);
      }
    }
  }

  // ---------------------------------------------------------------- finished records

  lemma BeginOwn(s: State, id: RecordId, holds: bool)
    requires NamesUndelivered(s) && id in s.records && s.records[id].state.Emitted?
    ensures var t := Begin(s, id, holds).state;
            id in t.records && (t.records[id].state.Emitted? <==> !CancelledAtBegin(s, id, holds))
  {
    BeginEffect(s, id, holds, 0);
    hide CurrentPending, CancelUndelivered, PlannedShrinks, OldestLive;
  }

  lemma BeginKeepsOmitted(s: State, id: RecordId, holds: bool)
    requires NamesUndelivered(s) && id in s.records && s.records[id].state.RecordOmitted?
    ensures var t := Begin(s, id, holds).state; id in t.records && t.records[id].state.RecordOmitted?
  {
    BeginEffect(s, id, holds, 0);
    hide CurrentPending, CancelUndelivered, PlannedShrinks, OldestLive, Carrier;
  }

  lemma StepLeavesExactly(y: System, step: Step, r: RecordId)
    requires Inv(y) && Enabled(y, step) && r in y.ledger.records && !Live(y.ledger.records[r])
    ensures var s, t := y.ledger.records, Next(y, step).ledger.records;
            (r !in t || t[r].state != s[r].state) <==> Leaves(y, step, r)
  {
    hide NextFlights, NextHistory, AddBuilt, Begin, Commit, Attach, Deliver, Deny, Stop, RowsInv, OneSettled, TextInv,
      PlannedShrinks, SlotAfterCommit, ClosesOwn, CancelledAtBegin, Target, OwnAfterCommit;
    var s := y.ledger;
    match step
    case Build(pack, considered, epoch, createdAt) => BuildSteady(s, pack, considered, epoch, createdAt);
    case BeginStore(id, holds) =>
      if id == r {
        if s.records[r].state.Emitted? { BeginOwn(s, id, holds); } else { BeginKeepsOmitted(s, id, holds); }
      } else {
        BeginEffect(s, id, holds, 0);
      }
    case CommitStore(id, _, _, _) =>
      if id == r {
        CommitterKnown(y, step);
        CommitOwn(s, y.flights[id].pack, CommitOf(y, step));
      } else {
        CommitEffect(s, y.flights[id].pack, CommitOf(y, step), 0);
      }
    case PreToolUse(call, now, holds) => AttachSteady(s, call, now, holds);
    case PostToolUse(call, execution, now, holds) => DeliverSteady(s, call, execution, now, holds);
    case PermissionDenied(call, now) => DenySteady(s, call, now);
    case StopHook(saw) => StopSteady(s, saw);
    case _ =>
  }

  /** At every moment of every run: a finished record leaves its state, or the ledger, at exactly these steps. */
  lemma FinishedIsLeftExactly(run: seq<Step>, n: nat, r: RecordId)
    requires n < |run| && r in At(run, n).ledger.records && !Live(At(run, n).ledger.records[r])
    ensures var s, t := At(run, n).ledger.records, At(run, n + 1).ledger.records;
            (r !in t || t[r].state != s[r].state) <==> Leaves(At(run, n), run[n], r)
  {
    RunInvariant(run, n);
    hide NextLedger, NextFlights, NextHistory, Inv;
    if Enabled(At(run, n), run[n]) {
      StepLeavesExactly(At(run, n), run[n], r);
    }
  }

  /** An emitted record is left exactly by the last transactions of the hook that built it. */
  lemma EmittedIsLeftExactly(run: seq<Step>, n: nat, r: RecordId)
    requires n < |run| && Enabled(At(run, n), run[n])
    requires InState(At(run, n), r, Emitted)
    ensures !InState(At(run, n + 1), r, Emitted)
            <==> (run[n].CommitStore? && run[n].id == r)
                 || (run[n].BeginStore? && run[n].id == r
                     && Carrier(CurrentPending(At(run, n).ledger, run[n].slotGuardHolds).state, r).Some?)
  {
    FinishedIsLeftExactly(run, n, r);
    hide At, Enabled, Carrier, CurrentPending, ClosesOwn;
  }

  ghost predicate InState(y: System, r: RecordId, state: RecordState) {
    r in y.ledger.records && y.ledger.records[r].state == state
  }

  ghost predicate KeptAt(run: seq<Step>, k: nat, r: RecordId, state: RecordState)
    requires k <= |run|
  {
    InState(At(run, k), r, state)
  }

  ghost predicate LeavesAt(run: seq<Step>, k: nat, r: RecordId)
    requires k < |run|
  {
    Leaves(At(run, k), run[k], r)
  }

  lemma {:induction false} NeverLeft(run: seq<Step>, m: nat, n: nat, r: RecordId, state: RecordState)
    requires m <= n <= |run| && KeptAt(run, m, r, state) && (state.Emitted? || state.RecordOmitted?)
    requires forall k :: m <= k < n ==> !LeavesAt(run, k, r)
    ensures KeptAt(run, n, r, state)
  {
    hide At, Leaves;
    if m < n {
      NeverLeft(run, m, n - 1, r, state);
      assert !LeavesAt(run, n - 1, r);
      FinishedIsLeftExactly(run, n - 1, r);
    }
  }

  lemma KeptStep(run: seq<Step>, k: nat, r: RecordId, state: RecordState)
    requires k < |run| && KeptAt(run, k, r, state) && KeptAt(run, k + 1, r,
        state) && (state.Emitted? || state.RecordOmitted?)
    ensures !LeavesAt(run, k, r)
  {
    FinishedIsLeftExactly(run, k, r);
    hide At, Leaves;
  }

  /** `emitted` and `omitted` are kept over a stretch of a run exactly if it holds none of those steps. */
  lemma FinishedStaysExactly(run: seq<Step>, m: nat, n: nat, r: RecordId, state: RecordState)
    requires m <= n <= |run| && KeptAt(run, m, r, state) && (state.Emitted? || state.RecordOmitted?)
    ensures (forall k :: m <= k <= n ==> KeptAt(run, k, r, state)) <==> (forall k :: m <= k < n ==> !LeavesAt(run, k, r))
  {
    hide KeptAt, LeavesAt;
    if forall k :: m <= k < n ==> !LeavesAt(run, k, r) {
      forall k | m <= k <= n ensures KeptAt(run, k, r, state) {
        NeverLeft(run, m, k, r, state);
      }
    }
    if forall k :: m <= k <= n ==> KeptAt(run, k, r, state) {
      forall k | m <= k < n ensures !LeavesAt(run, k, r) {
        KeptStep(run, k, r, state);
      }
    }
  }

  /** A finished record is open again exactly after its own hook stores its text as if it were the first. */
  lemma ReopenedExactly(run: seq<Step>, n: nat, r: RecordId)
    requires n < |run| && r in At(run, n).ledger.records && !Live(At(run, n).ledger.records[r])
    ensures LiveExcept(At(run, n + 1).ledger.records, r, None) <==> Reopens(At(run, n), run[n], r)
  {
    var y, step := At(run, n), run[n];
    RunInvariant(run, n);
    FinishedIsLeftExactly(run, n, r);
    hide NextFlights, NextHistory, Begin, Commit, PlannedShrinks, ClosesOwn, Target, CancelledAtBegin, RowsInv,
        TextInv, OneSettled, Steady;
    if Leaves(y, step, r) {
      if step.CommitStore? {
        CommitterKnown(y, step);
        CommitOwn(y.ledger, y.flights[r].pack, CommitOf(y, step));
      } else {
        BeginEffect(y.ledger, r, step.slotGuardHolds, 0);
      }
    }
  }

  // ---------------------------------------------------------------- live records

  /** A record live after a step was live before, is the one built, or is the only live one. */
  lemma StepLive(y: System, step: Step, r: RecordId)
    requires Inv(y) && Enabled(y, step) && LiveExcept(Next(y, step).ledger.records, r, None)
    ensures || LiveExcept(y.ledger.records, r, None) || (step.Build? && step.pack.id == r)
            || OnlyLive(Next(y, step).ledger, r)
  {
    hide NextFlights, NextHistory, AddBuilt, Begin, Commit, Attach, Deliver, Deny, Stop, RowsInv, OneSettled, TextInv,
        PlannedShrinks, SlotAfterCommit;
    var s := y.ledger;
    match step
    case Build(pack, considered, epoch, createdAt) => BuildSteady(s, pack, considered, epoch, createdAt);
    case BeginStore(id, holds) => BeginEffect(s, id, holds, 0);
    case CommitStore(id, _, _, _) => CommitEffect(s, y.flights[id].pack, CommitOf(y, step), 0);
    case PreToolUse(call, now, holds) => AttachSteady(s, call, now, holds);
    case PostToolUse(call, execution, now, holds) => DeliverSteady(s, call, execution, now, holds);
    case PermissionDenied(call, now) => DenySteady(s, call, now);
    case StopHook(saw) => StopSteady(s, saw);
    case _ =>
  }

  lemma BuildAddsLive(y: System, step: Step, r: RecordId)
    requires Inv(y) && step.Build? && Enabled(y, step) && LiveExcept(y.ledger.records, r, None)
    ensures var t := Next(y, step).ledger.records;
            r != step.pack.id && LiveExcept(t, r, None) && LiveExcept(t, step.pack.id, None)
  {
    hide RowsInv, TextInv, OneSettled;
  }

  lemma StepCrowdsExactly(y: System, step: Step)
    requires Inv(y) && Enabled(y, step) && AtMostOneLive(y.ledger.records)
    ensures !AtMostOneLive(Next(y, step).ledger.records) <==> Crowds(y, step)
  {
    hide NextLedger, NextFlights, NextHistory, Inv, Enabled;
    var t := Next(y, step).ledger.records;
    if Crowds(y, step) {
      var r :| LiveExcept(y.ledger.records, r, None);
      BuildAddsLive(y, step, r);
    } else {
      forall a, b | LiveExcept(t, a, None) && LiveExcept(t, b, None) ensures a == b {
        StepLive(y, step, a);
        StepLive(y, step, b);
        assert OnlyLive(Next(y, step).ledger, a) && b != a ==> LiveExcept(t, b, Some(a));
        assert OnlyLive(Next(y, step).ledger, b) && b != a ==> LiveExcept(t, a, Some(b));
      }
    }
  }

  /** At every moment of every run: a second live record appears exactly when one is built next to a live one. */
  lemma SecondLiveRecordExactly(run: seq<Step>, n: nat)
    requires n < |run| && AtMostOneLive(At(run, n).ledger.records)
    ensures !AtMostOneLive(At(run, n + 1).ledger.records) <==> Crowds(At(run, n), run[n])
  {
    RunInvariant(run, n);
    hide NextLedger, NextFlights, NextHistory, Inv, AtMostOneLive;
    if Enabled(At(run, n), run[n]) {
      StepCrowdsExactly(At(run, n), run[n]);
    }
  }

  lemma EmptyHasNoLive()
    ensures AtMostOneLive(EMPTY.ledger.records)
  {
  }

  ghost predicate OneLiveAt(run: seq<Step>, m: nat)
    requires m <= |run|
  {
    AtMostOneLive(At(run, m).ledger.records)
  }

  ghost predicate CrowdsAt(run: seq<Step>, k: nat)
    requires k < |run|
  {
    Crowds(At(run, k), run[k])
  }

  lemma {:induction false} NeverCrowded(run: seq<Step>, n: nat)
    requires n <= |run| && forall k :: 0 <= k < n ==> !CrowdsAt(run, k)
    ensures OneLiveAt(run, n)
  {
    hide Next, AtMostOneLive, Crowds;
    if n == 0 {
      EmptyHasNoLive();
    } else {
      NeverCrowded(run, n - 1);
      assert !CrowdsAt(run, n - 1);
      SecondLiveRecordExactly(run, n - 1);
    }
  }

  lemma CrowdedStep(run: seq<Step>, k: nat)
    requires k < |run| && OneLiveAt(run, k) && OneLiveAt(run, k + 1)
    ensures !CrowdsAt(run, k)
  {
    SecondLiveRecordExactly(run, k);
    hide At, AtMostOneLive, Crowds;
  }

  /** So a run has at most one live record throughout exactly if no record is built next to a live one. */
  lemma OneLiveRecordExactly(run: seq<Step>, n: nat)
    requires n <= |run|
    ensures (forall m :: 0 <= m <= n ==> OneLiveAt(run, m)) <==> (forall k :: 0 <= k < n ==> !CrowdsAt(run, k))
  {
    hide OneLiveAt, CrowdsAt;
    if forall k :: 0 <= k < n ==> !CrowdsAt(run, k) {
      forall m | 0 <= m <= n ensures OneLiveAt(run, m) {
        NeverCrowded(run, m);
      }
    }
    if forall m :: 0 <= m <= n ==> OneLiveAt(run, m) {
      forall k | 0 <= k < n ensures !CrowdsAt(run, k) {
        CrowdedStep(run, k);
      }
    }
  }

  // ---------------------------------------------------------------- delivered records

  /** A hook counts a delivery only while making, or finding, the record emitted. */
  ghost predicate CountsEmit(before: Record, after: Record) {
    after.deliveryCount > before.deliveryCount ==> after.state.Emitted?
  }

  /** A record that stays open gains no dropped attempt outside a deny. */
  ghost predicate NoNewDrops(before: Record, after: Record) {
    Live(after) ==> forall a :: 0 <= a < |after.attempts| && after.attempts[a].delivery.Dropped? ==>
      a < |before.attempts| && before.attempts[a] == after.attempts[a]
  }

  lemma DeliverCarriedOutcome(s: State, id: RecordId, at: nat, execution: Execution, now: int, r: RecordId)
    requires id in s.records && at < |s.records[id].attempts| && r in s.records
    ensures var t := DeliverCarried(s, id, at, execution, now).state;
            r in t.records && CountsEmit(s.records[r], t.records[r]) && NoNewDrops(s.records[r], t.records[r])
  {
    hide ConfirmRows;
  }

  lemma DeliverPrintedOutcome(s: State, id: RecordId, pack: PendingPack, call: CallId, execution: Execution, now: int,
      r: RecordId)
    requires id in s.records && r in s.records
    ensures var t := DeliverPrinted(s, id, pack, call, execution, now).state;
            r in t.records && CountsEmit(s.records[r], t.records[r]) && NoNewDrops(s.records[r], t.records[r])
  {
    hide ConfirmRows, OmitUnrendered;
  }

  lemma CloseLostOutcome(s: State, id: RecordId, record: Record, call: CallId, execution: Execution, now: int,
      r: RecordId)
    requires id in s.records && r in s.records && record.attempts == s.records[id].attempts
    ensures var t := CloseLost(s, id, record, call, execution, now);
            r in t.records && CountsEmit(s.records[r], t.records[r]) && NoNewDrops(s.records[r], t.records[r])
  {
    hide OmitPlanned;
  }

  lemma DeliverOutcome(s: State, call: CallId, execution: Execution, now: int, holds: bool, r: RecordId)
    requires r in s.records && NamesUndelivered(s)
    ensures var t := Deliver(s, call, execution, now, holds).state;
            r in t.records && CountsEmit(s.records[r], t.records[r]) && NoNewDrops(s.records[r], t.records[r])
  {
    hide CurrentPending, DeliverCarried, DeliverPrinted, CloseLost, OldestLive, LatestEmitted, PlannedShrinks;
    CurrentPendingEffect(s, holds, 0);
    var read := CurrentPending(s, holds);
    var reported := ReportedRecord(s.records);
    if reported.Some? {
      var id := reported.value;
      var found := FindCall(s.records[id].attempts, call);
      if found.Some? {
        DeliverCarriedOutcome(s, id, found.value, execution, now, r);
      } else {
        if read.pending.Some? {
          DeliverPrintedOutcome(s, id, read.pending.value, call, execution, now, r);
        }
        CloseLostOutcome(read.state, id, s.records[id], call, execution, now, r);
      }
    }
  }

  lemma AttachOutcome(s: State, call: CallId, now: int, holds: bool, r: RecordId)
    requires r in s.records && NamesUndelivered(s)
    ensures var t := Attach(s, call, now, holds).state;
            r in t.records && CountsEmit(s.records[r], t.records[r]) && NoNewDrops(s.records[r], t.records[r])
  {
    CurrentPendingEffect(s, holds, 0);
    hide CurrentPending, OmitUnrendered, OldestLive, PlannedShrinks;
  }

  lemma StopNoNewDrops(s: State, saw: bool, r: RecordId)
    requires r in s.records
    ensures var t := Stop(s, saw).state; r in t.records && NoNewDrops(s.records[r], t.records[r])
  {
    hide OmitPlanned, DropWaiting;
  }

  lemma StepNoNewDrops(y: System, step: Step, r: RecordId)
    requires Inv(y) && Enabled(y, step) && !step.PermissionDenied?
    requires r in y.ledger.records && r in Next(y, step).ledger.records
    ensures NoNewDrops(y.ledger.records[r], Next(y, step).ledger.records[r])
  {
    hide RowsInv, OneSettled, TextInv, FlightsInv, Enabled;
    var s := y.ledger;
    match step
    case PreToolUse(call, now, holds) =>
      AttachOutcome(s, call, now, holds, r);
      hide Attach;
    case PostToolUse(call, execution, now, holds) =>
      DeliverOutcome(s, call, execution, now, holds, r);
      hide Deliver;
    case StopHook(saw) =>
      StopNoNewDrops(s, saw, r);
      hide Stop;
    case _ =>
      StoringKeepsDelivery(y, step, r);
      hide Next;
  }

  lemma StepCountsEmit(y: System, step: Step, r: RecordId)
    requires Inv(y) && Enabled(y, step) && r in y.ledger.records && r in Next(y, step).ledger.records
    ensures CountsEmit(y.ledger.records[r], Next(y, step).ledger.records[r])
  {
    hide RowsInv, OneSettled, TextInv, FlightsInv, Enabled;
    var s := y.ledger;
    match step
    case PreToolUse(call, now, holds) =>
      AttachOutcome(s, call, now, holds, r);
      hide Attach;
    case PostToolUse(call, execution, now, holds) =>
      DeliverOutcome(s, call, execution, now, holds, r);
      hide Deliver;
    case PermissionDenied(_, _) =>
    case StopHook(_) =>
    case _ =>
      StoringKeepsDelivery(y, step, r);
      hide Next;
  }

  /** The record of a forgetting step stays, undelivered, with its count. */
  lemma ForgetsOwn(y: System, step: Step)
    requires Inv(y) && Forgets(y, step) && EmittedIsDelivered(y.ledger.records)
    ensures !EmittedIsDelivered(Next(y, step).ledger.records)
  {
    var s, t, id := y.ledger, Next(y, step).ledger, step.id;
    hide NextFlights, NextHistory, Begin, Commit, PlannedShrinks, ClosesOwn, Target, RowsInv, TextInv, OneSettled,
        SlotAfterCommit;
    if step.CommitStore? {
      CommitterKnown(y, step);
      CommitOwn(s, y.flights[id].pack, CommitOf(y, step));
      CommitEffect(s, y.flights[id].pack, CommitOf(y, step), 0);
    } else {
      BeginOwn(s, id, step.slotGuardHolds);
      BeginEffect(s, id, step.slotGuardHolds, 0);
    }
    assert id in t.records && !t.records[id].state.Emitted? && t.records[id].deliveryCount >= 1;
  }

  /** A delivered record that is left by a step which forgets nothing is gone. */
  lemma LeftIsGone(y: System, step: Step, r: RecordId)
    requires Inv(y) && Enabled(y, step) && Leaves(y, step, r) && y.ledger.records[r].state.Emitted? && !Forgets(y, step)
    ensures r !in Next(y, step).ledger.records
  {
    hide NextFlights, NextHistory, Begin, Commit, PlannedShrinks, ClosesOwn, Target, RowsInv, TextInv, OneSettled;
    CommitterKnown(y, step);
    CommitOwn(y.ledger, y.flights[r].pack, CommitOf(y, step));
  }

  lemma KeptDelivered(y: System, step: Step, r: RecordId)
    requires Inv(y) && Enabled(y, step) && EmittedIsDelivered(y.ledger.records) && !Forgets(y, step)
    requires r in y.ledger.records && r in Next(y, step).ledger.records && Next(y,
        step).ledger.records[r].deliveryCount >= 1
    ensures Next(y, step).ledger.records[r].state.Emitted?
  {
    hide NextLedger, NextFlights, NextHistory, Enabled, RowsInv, OneSettled, TextInv, Forgets, Leaves;
    StepCountsEmit(y, step, r);
    if y.ledger.records[r].deliveryCount >= 1 {
      StepLeavesExactly(y, step, r);
      if Leaves(y, step, r) {
        LeftIsGone(y, step, r);
      }
    }
  }

  lemma StepForgetsExactly(y: System, step: Step)
    requires Inv(y) && Enabled(y, step) && EmittedIsDelivered(y.ledger.records) && EmittedCounted(Next(y,
        step).ledger.records)
    ensures !EmittedIsDelivered(Next(y, step).ledger.records) <==> Forgets(y, step)
  {
    if Forgets(y, step) {
      ForgetsOwn(y, step);
    } else {
      StepRecordIds(y, step);
      var s, t := y.ledger.records, Next(y, step).ledger.records;
      hide NextLedger, NextFlights, NextHistory, Enabled, Inv, Forgets;
      forall r | r in t && t[r].deliveryCount >= 1 ensures t[r].state.Emitted? {
        if r in s {
          KeptDelivered(y, step, r);
        } else {
          BuiltRecord(y, step, r);
        }
      }
    }
  }

  /** At every moment of every run: a delivered record stops being emitted exactly at these steps. */
  lemma DeliveryIsForgottenExactly(run: seq<Step>, n: nat)
    requires n < |run| && EmittedIsDelivered(At(run, n).ledger.records)
    ensures !EmittedIsDelivered(At(run, n + 1).ledger.records) <==> Forgets(At(run, n), run[n])
  {
    RunInvariant(run, n);
    DeliveriesAreCounted(run, n + 1);
    hide NextLedger, NextFlights, NextHistory, Inv, EmittedIsDelivered, EmittedCounted;
    if Enabled(At(run, n), run[n]) {
      StepForgetsExactly(At(run, n), run[n]);
    }
  }

  lemma EmptyForgetsNothing()
    ensures EmittedIsDelivered(EMPTY.ledger.records)
  {
  }

  ghost predicate DeliveredAt(run: seq<Step>, m: nat)
    requires m <= |run|
  {
    EmittedIsDelivered(At(run, m).ledger.records)
  }

  ghost predicate ForgetsAt(run: seq<Step>, k: nat)
    requires k < |run|
  {
    Forgets(At(run, k), run[k])
  }

  lemma {:induction false} NeverForgotten(run: seq<Step>, n: nat)
    requires n <= |run| && forall k :: 0 <= k < n ==> !ForgetsAt(run, k)
    ensures DeliveredAt(run, n)
  {
    hide Next, EmittedIsDelivered, Forgets;
    if n == 0 {
      EmptyForgetsNothing();
    } else {
      NeverForgotten(run, n - 1);
      assert !ForgetsAt(run, n - 1);
      DeliveryIsForgottenExactly(run, n - 1);
    }
  }

  lemma ForgottenStep(run: seq<Step>, k: nat)
    requires k < |run| && DeliveredAt(run, k) && DeliveredAt(run, k + 1)
    ensures !ForgetsAt(run, k)
  {
    DeliveryIsForgottenExactly(run, k);
    hide At, EmittedIsDelivered, Forgets;
  }

  /** So emitted means delivered, both ways, throughout a run exactly if no step of the run is one of them. */
  lemma EmittedIffDeliveredExactly(run: seq<Step>, n: nat)
    requires n <= |run|
    ensures (forall m :: 0 <= m <= n ==> DeliveredAt(run, m)) <==> (forall k :: 0 <= k < n ==> !ForgetsAt(run, k))
  {
    hide DeliveredAt, ForgetsAt;
    if forall k :: 0 <= k < n ==> !ForgetsAt(run, k) {
      forall m | 0 <= m <= n ensures DeliveredAt(run, m) {
        NeverForgotten(run, m);
      }
    }
    if forall m :: 0 <= m <= n ==> DeliveredAt(run, m) {
      forall k | 0 <= k < n ensures !ForgetsAt(run, k) {
        ForgottenStep(run, k);
      }
    }
  }
}
