/**
 * The deferred delivery hooks (src/injection/deferred.ts), each transaction as one function of the
 * ledger. What a hook cannot decide from the ledger - whether a work guard still holds, what the
 * text detectors say, which privacy stamp applies - is a parameter.
 */
module Deferred {
  import opened Options
  import opened PackText
  import opened Ledger

  datatype BuiltPack = BuiltPack(
    id: RecordId,
    repositoryLine: string,
    degraded: Option<DegradedReason>,
    charBudget: int,
    choices: seq<string>,
    items: seq<PackItem>,
    text: string,
    guard: Option<WorkGuard>)

  datatype Rejection = Secret | DirectiveFound | ControlCharacters

  datatype MergePlan = MergePlan(
    repositoryLine: string,
    degraded: Option<DegradedReason>,
    blocks: seq<Block>,
    omissions: seq<Omission>,
    text: string)

  // ---------------------------------------------------------------- reading the stored text

  datatype Reading = Reading(state: State, pending: Option<PendingPack>)

  /** The stored text must still belong to the current selection; a stale one is dropped unless a call carries it. */
  function CurrentPending(s: State, guardHolds: bool): Reading {
    if s.slot.None? || s.slot.value.guard.None? || guardHolds then Reading(s, s.slot)
    else if AnyWaiting(AttemptsOf(s.records, s.slot.value.owner)) then Reading(s, None)
    else Reading(CancelUndelivered(s, s.slot.value.owner).(slot := None), None)
  }

  // ---------------------------------------------------------------- planning a merge

  function WithChoices(blocks: seq<Block>, choices: seq<string>): seq<Block> {
    if choices != [] && !exists i :: 0 <= i < |blocks| && blocks[i].key == CHOICE_KEY
    then [Block(CHOICE_KEY, choices)] + blocks
    else blocks
  }

  function PlanInto(live: Record, slot: Option<PendingPack>, pack: BuiltPack): MergePlan {
    var line := if slot.Some? then slot.value.repositoryLine else pack.repositoryLine;
    var degraded := if slot.Some? && slot.value.degraded.Some? then slot.value.degraded else pack.degraded;
    var blocks := WithChoices(if slot.Some? then slot.value.blocks else [], pack.choices);
    var used := |RenderPack(line, blocks, degraded)|;
    var f := FoldItems(pack.items, blocks, live.charBudget.GetOr(pack.charBudget), used);
    MergePlan(line, degraded, f.blocks, f.omissions, RenderPack(line, f.blocks, degraded))
  }

  // ---------------------------------------------------------------- storing a built pack

  function PlannedBlocks(items: seq<PackItem>): seq<Block> {
    if items == [] then []
    else
      var last := items[|items| - 1];
      PlannedBlocks(items[..|items| - 1]) + if last.decision.Planned? then [Block(last.key, last.lines)] else []
  }

  function FirstPending(pack: BuiltPack): PendingPack {
    PendingPack(pack.id, pack.repositoryLine, pack.degraded,
      (if pack.choices != [] then [Block(CHOICE_KEY, pack.choices)] else []) + PlannedBlocks(pack.items),
      pack.text, pack.guard)
  }

  function StoreFirst(s: State, pack: BuiltPack): State {
    s.(records := SetState(s.records, pack.id, Pending), slot := Some(FirstPending(pack)))
  }

  function RejectionReason(rejection: Rejection): Option<ItemReason> {
    match rejection
    case Secret => Some(SecretDetected)
    case DirectiveFound => Some(Directive)
    case ControlCharacters => None
  }

  /** The merged text is refused: its items are omitted; control characters close the live record too. */
  function Refuse(s: State, pack: BuiltPack, live: RecordId, rejection: Rejection): State {
    var omitted := s.(items := OmitPlanned(s.items, pack.id, RejectionReason(rejection)));
    var moved := ReparentItems(omitted, pack.id, live);
    if rejection.ControlCharacters? then
      moved.(items := OmitPlanned(moved.items, live, Some(NotDelivered)),
             records := OmitRecord(moved.records, live, INDEX_UNAVAILABLE),
             slot := None)
    else moved
  }

  /** None: the joined sources are no longer allowed, so the merge is refused. */
  function MergedGuard(slot: Option<PendingPack>, guard: Option<WorkGuard>,
      stamp: Option<string>): Option<Option<WorkGuard>> {
    if guard.Some? && guard.value.privacy.Some? && slot.Some? && slot.value.guard.Some? && slot.value.guard.value.privacy.Some? then
      if stamp.None? then None
      else
        var sources := slot.value.guard.value.privacy.value.sources + guard.value.privacy.value.sources;
        Some(Some(guard.value.(privacy := Some(Privacy(sources, stamp.value)))))
    else Some(guard)
  }

  function Merge(s: State, pack: BuiltPack, live: RecordId, plan: MergePlan, stamp: Option<string>): State {
    var guard := MergedGuard(s.slot, pack.guard, stamp);
    if guard.None? then Refuse(s, pack, live, Secret)
    else
      var omitted := s.(items := OmitAll(s.items, pack.id, plan.omissions));
      var moved := ReparentItems(omitted, pack.id, live);
      moved.(records := if live in moved.records then moved.records[live := moved.records[live].(degraded := plan.degraded)]
                        else moved.records,
             slot := Some(PendingPack(live, plan.repositoryLine, plan.degraded, plan.blocks, plan.text, guard.value)))
  }

  /** The text to store is not the text that was validated: nothing is merged. */
  function GiveUp(s: State, pack: RecordId, live: RecordId): State {
    ReparentItems(s.(items := OmitPlanned(s.items, pack, Some(NotDelivered))), pack, live)
  }

  /** The live record whose text a call already carries: what it holds is frozen. */
  ghost function Carrier(s: State, pack: RecordId): Option<RecordId> {
    var live := LiveRecord(s.records, Some(pack));
    if live.Some? && AnyWaiting(s.records[live.value].attempts) then live else None
  }

  /** First transaction of storePending; `done` when the pack is given up for a carried one. */
  datatype Begun = Begun(state: State, done: bool)

  ghost function Begin(s: State, pack: RecordId, slotGuardHolds: bool): Begun {
    var read := CurrentPending(s, slotGuardHolds).state;
    if Carrier(read, pack).Some? then Begun(CancelUndelivered(read, pack), true) else Begun(read, false)
  }

  datatype CommitInput = CommitInput(
    validated: Option<string>, rejection: Option<Rejection>,
    slotGuardHolds: bool, packGuardHolds: bool, stamp: Option<string>)

  /** A commit that reads `read` after its own carrier check, for a pack whose guard holds. */
  ghost function StoreOrMerge(read: State, pack: BuiltPack, input: CommitInput): State {
    var live := LiveRecord(read.records, Some(pack.id));
    if live.None? then StoreFirst(read, pack)
    else
      var plan := PlanInto(read.records[live.value], read.slot, pack);
      if input.validated != Some(plan.text) then GiveUp(read, pack.id, live.value)
      else if input.rejection.Some? then Refuse(read, pack, live.value, input.rejection.value)
      else Merge(read, pack, live.value, plan, input.stamp)
  }

  /** Second transaction of storePending. */
  ghost function Commit(s: State, pack: BuiltPack, input: CommitInput): State {
    if Carrier(s, pack.id).Some? then CancelUndelivered(s, pack.id)
    else
      var read := CurrentPending(s, input.slotGuardHolds).state;
      if pack.guard.Some? && !input.packGuardHolds then CancelUndelivered(read, pack.id)
      else StoreOrMerge(read, pack, input)
  }

  // ---------------------------------------------------------------- tool hooks

  function SaveAttempts(s: State, id: RecordId, attempts: seq<Attempt>): State {
    if id in s.records then s.(records := s.records[id := s.records[id].(attempts := attempts)]) else s
  }

  datatype Attached = Attached(state: State, text: Option<string>)

  /** PreToolUse: the call carries the stored text and its attempt is recorded. */
  ghost function Attach(s: State, call: CallId, now: int, guardHolds: bool): Attached {
    var live := LiveRecord(s.records, None);
    if live.None? then Attached(s, None)
    else
      var read := CurrentPending(s, guardHolds);
      if read.pending.None? then Attached(read.state, None)
      else
        var record := s.records[live.value];
        var attempts := if FindCall(record.attempts, call).Some? then record.attempts
                        else record.attempts + [Attempt(call, NotRun, Waiting, now)];
        Attached(
          s.(items := OmitUnrendered(s.items, live.value, KeysOf(read.pending.value.blocks)),
             records := s.records[live.value := record.(state := Attempted, attempts := attempts)]),
          Some(read.pending.value.text))
  }

  datatype DeliveryStatus = NewlyEmitted | Already | NoDelivery | ClosedUndelivered
  datatype DeliveryResult = DeliveryResult(state: State, status: DeliveryStatus, text: Option<string>)

  /** The call had no attempt and its text is gone: the record closes without delivering. */
  function CloseLost(s: State, id: RecordId, record: Record, call: CallId, execution: Execution, now: int): State {
    var saved := SaveAttempts(s, id, record.attempts + [Attempt(call, execution, Dropped, now)]);
    saved.(items := OmitPlanned(saved.items, id, Some(NotDelivered)),
           records := OmitRecord(saved.records, id, record.degraded.GetOr(NOT_DELIVERED)),
           slot := None)
  }

  function CountDelivery(s: State, id: RecordId, attempts: seq<Attempt>): State {
    if id in s.records
    then s.(records := s.records[id := s.records[id].(attempts := attempts,
        deliveryCount := s.records[id].deliveryCount + 1)])
    else s
  }

  /** The call has an attempt: it delivered what it carried from its PreToolUse. */
  ghost function DeliverCarried(s: State, id: RecordId, at: nat, execution: Execution, now: int): DeliveryResult
    requires id in s.records && at < |s.records[id].attempts|
  {
    var record := s.records[id];
    var attempt := record.attempts[at];
    if attempt.delivery.Delivered? then DeliveryResult(s, Already, None)
    else
      var counted := CountDelivery(s, id, record.attempts[at := attempt.(execution := execution,
          delivery := Delivered)]);
      if record.state.Emitted? then DeliveryResult(counted, Already, None)
      else DeliveryResult(ConfirmDelivery(counted, id, now).(slot := None), NewlyEmitted, None)
  }

  /** The call has no attempt on an open record: this hook prints the stored text itself. */
  ghost function DeliverPrinted(s: State, id: RecordId, pack: PendingPack, call: CallId, execution: Execution,
      now: int): DeliveryResult
    requires id in s.records
  {
    var counted := CountDelivery(s, id, s.records[id].attempts + [Attempt(call, execution, Delivered, now)]);
    var rendered := counted.(items := OmitUnrendered(counted.items, id, KeysOf(pack.blocks)));
    DeliveryResult(ConfirmDelivery(rendered, id, now).(slot := None), NewlyEmitted, Some(pack.text))
  }

  /** PostToolUse and PostToolUseFailure: the call ran, so what it carried reached the model. */
  ghost function Deliver(s: State, call: CallId, execution: Execution, now: int, guardHolds: bool): DeliveryResult {
    var reported := ReportedRecord(s.records);
    if reported.None? then DeliveryResult(s, NoDelivery, None)
    else
      var id := reported.value;
      var record := s.records[id];
      var found := FindCall(record.attempts, call);
      if found.Some? then DeliverCarried(s, id, found.value, execution, now)
      else if record.state.Emitted? then DeliveryResult(s, NoDelivery, None)
      else
        var read := CurrentPending(s, guardHolds);
        if read.pending.Some? then DeliverPrinted(s, id, read.pending.value, call, execution, now)
        else if AnyWaiting(record.attempts) then DeliveryResult(read.state, NoDelivery, None)
        else DeliveryResult(CloseLost(read.state, id, record, call, execution, now), ClosedUndelivered, None)
  }

  datatype DenyResult = DenyResult(state: State, recorded: bool)

  /** PermissionDenied: the call delivered nothing; the record stays open. */
  ghost function Deny(s: State, call: CallId, now: int): DenyResult {
    var reported := ReportedRecord(s.records);
    if reported.None? then DenyResult(s, false)
    else
      var record := s.records[reported.value];
      var found := FindCall(record.attempts, call);
      if found.None? && record.state.Emitted? then DenyResult(s, false)
      else
        var attempts :=
          if found.None? then record.attempts + [Attempt(call, Denied, Dropped, now)]
          else record.attempts[found.value := record.attempts[found.value].(execution := Denied, delivery := Dropped)];
        DenyResult(SaveAttempts(s, reported.value, attempts), true)
  }

  datatype StopResult = StopResult(state: State, closed: bool)

  /** Stop: waiting attempts are dropped and an undelivered record is closed. */
  ghost function Stop(s: State, sawAnyToolHook: bool): StopResult {
    var reported := ReportedRecord(s.records);
    if reported.None? then StopResult(s, false)
    else
      var id := reported.value;
      var record := s.records[id];
      var saved := SaveAttempts(s, id, DropWaiting(record.attempts));
      if record.state.Emitted? then StopResult(saved, false)
      else
        var reason := record.degraded.GetOr(if sawAnyToolHook then NOT_DELIVERED else NO_TOOL_CALL);
        StopResult(
          saved.(items := OmitPlanned(saved.items, id, Some(NotDelivered)),
                 records := OmitRecord(saved.records, id, reason),
                 slot := None),
          true)
  }
}
