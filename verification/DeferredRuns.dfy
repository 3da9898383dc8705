/**
 * Every interleaving of the deferred delivery hooks of one conversation. A hook that builds a pack
 * takes three atomic steps after the build (begin, validate outside any transaction, commit) and
 * may be killed between any two; tool hooks take one. Losing the stored text and invalidating a
 * work guard are steps and verdicts of the environment.
 */
module DeferredRuns {
  import opened Options
  import opened PackText
  import opened Ledger
  import opened Deferred
  import opened DeferredRows
  import opened DeferredRecords

  datatype Phase = Built | Opened | Validated(text: Option<string>, rejection: Option<Rejection>)
  datatype Flight = Flight(pack: BuiltPack, phase: Phase)

  /** A PreToolUse hook printed `pack.text` for this call while `record` was the live record. */
  datatype Carriage = Carriage(record: RecordId, call: CallId, pack: PendingPack)

  /** What happened so far, for the statements only; no step reads it except `used` (ids are fresh). */
  datatype History = History(
    used: set<RecordId>,
    built: set<string>,
    passed: set<string>,
    carried: set<Carriage>,
    denied: set<CallId>,
    overwritten: map<RecordId, nat>)

  datatype System = System(ledger: State, flights: map<RecordId, Flight>, history: History)

  datatype Step =
    | Build(pack: BuiltPack, considered: seq<PackItem>, epoch: nat, createdAt: int)
    | BeginStore(id: RecordId, slotGuardHolds: bool)
    | Validate(id: RecordId, live: Option<Record>, slot: Option<PendingPack>, verdict: Option<Rejection>)
    | CommitStore(id: RecordId, slotGuardHolds: bool, packGuardHolds: bool, stamp: Option<string>)
    | PreToolUse(call: CallId, now: int, guardHolds: bool)
    | PostToolUse(call: CallId, execution: Execution, now: int, guardHolds: bool)
    | PermissionDenied(call: CallId, now: int)
    | StopHook(sawAnyToolHook: bool)
    | LoseText

  const EMPTY := System(State(map[], map[], 0, None), map[], History({}, {}, {}, {}, {}, map[]))

  ghost predicate Enabled(y: System, step: Step) {
    match step
    case Build(pack, considered, _, _) =>
      && pack.id !in y.history.used
      && Rendered(FirstPending(pack))
      && (forall i :: 0 <= i < |pack.items| ==> !pack.items[i].decision.Included?)
      && (forall i :: 0 <= i < |considered| ==> considered[i].decision.Omitted?)
    case BeginStore(id, _) => id in y.flights && y.flights[id].phase.Built?
    case Validate(id, _, _, _) => id in y.flights && y.flights[id].phase.Opened?
    case CommitStore(id, _, _, _) => id in y.flights && y.flights[id].phase.Validated?
    case PostToolUse(_, execution, _, _) => execution.Ran? || execution.Failed?
    case _ => true
  }

  ghost function CommitOf(y: System, step: Step): CommitInput
    requires step.CommitStore? && Enabled(y, step)
  {
    var phase := y.flights[step.id].phase;
    CommitInput(phase.text, phase.rejection, step.slotGuardHolds, step.packGuardHolds, step.stamp)
  }

  ghost function NextLedger(y: System, step: Step): State
    requires Enabled(y, step)
  {
    var s := y.ledger;
    match step
    case Build(pack, considered, epoch, createdAt) => AddBuilt(s, pack, considered, epoch, createdAt)
    case BeginStore(id, holds) => Begin(s, id, holds).state
    case Validate(_, _, _, _) => s
    case CommitStore(id, _, _, _) => Commit(s, y.flights[id].pack, CommitOf(y, step))
    case PreToolUse(call, now, holds) => Attach(s, call, now, holds).state
    case PostToolUse(call, execution, now, holds) => Deliver(s, call, execution, now, holds).state
    case PermissionDenied(call, now) => Deny(s, call, now).state
    case StopHook(saw) => Stop(s, saw).state
    case LoseText => s.(slot := None)
  }

  /** The text the validation outside any transaction checks: the plan for whatever rows it read. */
  function ValidatedText(pack: BuiltPack, live: Option<Record>, slot: Option<PendingPack>): Option<string> {
    if live.None? then None else Some(PlanInto(live.value, slot, pack).text)
  }

  ghost function NextFlights(y: System, step: Step): map<RecordId, Flight>
    requires Enabled(y, step)
  {
    match step
    case Build(pack, _, _, _) => y.flights[pack.id := Flight(pack, Built)]
    case BeginStore(id, holds) =>
      if Begin(y.ledger, id, holds).done then y.flights - {id} else y.flights[id := y.flights[id].(phase := Opened)]
    case Validate(id, live, slot, verdict) =>
      var text := ValidatedText(y.flights[id].pack, live, slot);
      y.flights[id := y.flights[id].(phase := Validated(text, if text.None? then None else verdict))]
    case CommitStore(id, _, _, _) => y.flights - {id}
    case _ => y.flights
  }

  /** The delivered attempt a deny overwrites, if it does. */
  ghost predicate Overwrites(s: State, call: CallId, id: RecordId) {
    && ReportedRecord(s.records) == Some(id)
    && var found := FindCall(s.records[id].attempts, call);
       found.Some? && s.records[id].attempts[found.value].delivery.Delivered?
  }

  ghost function NextHistory(y: System, step: Step): History
    requires Enabled(y, step)
  {
    var h := y.history;
    match step
    case Build(pack, _, _, _) =>
      h.(used := h.used + {pack.id}, built := h.built + {pack.text}, overwritten := h.overwritten[pack.id := 0])
    case Validate(id, live, slot, verdict) =>
      var text := ValidatedText(y.flights[id].pack, live, slot);
      if text.Some? && verdict.None? then h.(passed := h.passed + {text.value}) else h
    case PreToolUse(call, now, holds) =>
      var attached := Attach(y.ledger, call, now, holds);
      if attached.text.Some?
      then h.(carried := h.carried + {Carriage(LiveRecord(y.ledger.records, None).value, call, y.ledger.slot.value)})
      else h
    case PermissionDenied(call, _) =>
      h.(denied := h.denied + {call},
         overwritten := map r | r in h.overwritten ::
           if Overwrites(y.ledger, call, r) then h.overwritten[r] + 1 else h.overwritten[r])
    case _ => h
  }

  ghost function Next(y: System, step: Step): System {
    if Enabled(y, step) then System(NextLedger(y, step), NextFlights(y, step), NextHistory(y, step)) else y
  }

  /** The system after the first `n` steps of a run. */
  ghost function At(run: seq<Step>, n: nat): System
    requires n <= |run|
  {
    if n == 0 then EMPTY else Next(At(run, n - 1), run[n - 1])
  }

  // ---------------------------------------------------------------- invariants of every run

  ghost predicate PassedText(phase: Phase, passed: set<string>) {
    phase.Validated? && phase.text.Some? && phase.rejection.None? ==> phase.text.value in passed
  }

  ghost predicate PackKnown(id: RecordId, pack: BuiltPack, built: set<string>) {
    pack.id == id && pack.text in built && Rendered(FirstPending(pack))
  }

  ghost predicate FlightsInv(y: System) {
    && y.flights.Keys <= y.ledger.records.Keys <= y.history.used
    && y.history.overwritten.Keys == y.history.used
    && (forall id :: id in y.flights ==> PackKnown(id, y.flights[id].pack, y.history.built))
    && (forall id :: id in y.flights ==> PassedText(y.flights[id].phase, y.history.passed))
  }

  predicate Settled(records: map<RecordId, Record>, flying: set<RecordId>, id: RecordId) {
    LiveExcept(records, id, None) && id !in flying
  }

  /** At most one live record besides those whose own hook has not committed yet. */
  ghost predicate OneSettled(records: map<RecordId, Record>, flying: set<RecordId>) {
    forall a, b :: Settled(records, flying, a) && Settled(records, flying, b) ==> a == b
  }

  ghost predicate TextInv(y: System) {
    y.ledger.slot.Some? ==>
      y.ledger.slot.value.text in y.history.built + y.history.passed && Rendered(y.ledger.slot.value)
  }

  ghost predicate Inv(y: System) {
    RowsInv(y.ledger) && FlightsInv(y) && OneSettled(y.ledger.records,
        y.flights.Keys) && TextInv(y) && NamesUndelivered(y.ledger)
  }
}
