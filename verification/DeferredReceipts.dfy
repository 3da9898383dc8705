/**
 * What a receipt includes, in terms of the hooks that ran: where a dropped attempt of an open record
 * comes from, how a row gets to a record whose text a call carried before, and exactly which
 * included rows the confirming call never received.
 */
module DeferredReceipts {
  import opened Options
  import opened PackText
  import opened Ledger
  import opened Deferred
  import opened DeferredRows
  import opened DeferredRecords
  import opened DeferredRuns
  import opened DeferredSafety
  import opened DeferredDelivery
  import opened DeferredCounts
  import opened DeferredExact

  // ---------------------------------------------------------------- dropped attempts of open records

  lemma DenyDrops(y: System, step: Step, r: RecordId, a: nat)
    requires step.PermissionDenied? && r in y.ledger.records
    requires var t := Next(y, step).ledger.records;
             r in t && a < |t[r].attempts| && t[r].attempts[a].delivery.Dropped?
    ensures var s, t := y.ledger.records, Next(y, step).ledger.records;
            || t[r].attempts[a].call in Next(y, step).history.denied
            || (a < |s[r].attempts| && s[r].attempts[a] == t[r].attempts[a])
  {
  }

  lemma DeniedGrows(y: System, step: Step)
    ensures y.history.denied <= Next(y, step).history.denied
  {
    hide NextLedger, NextFlights;
  }

  ghost predicate ReopenedBefore(run: seq<Step>, n: nat, r: RecordId)
    requires n <= |run|
  {
    exists k :: 0 <= k < n && Reopens(At(run, k), run[k], r)
  }

  /** The record was live before with the same attempt. */
  ghost predicate SameAttempt(y: System, z: System, r: RecordId, a: nat)
    requires r in z.ledger.records && a < |z.ledger.records[r].attempts|
  {
    && LiveExcept(y.ledger.records, r, None) && a < |y.ledger.records[r].attempts|
    && y.ledger.records[r].attempts[a] == z.ledger.records[r].attempts[a]
  }

  /** Where a dropped attempt of a live record comes from in one step. */
  lemma StepDrops(run: seq<Step>, n: nat, r: RecordId, a: nat)
    requires n < |run| && LiveExcept(At(run, n + 1).ledger.records, r, None)
    requires a < |At(run, n + 1).ledger.records[r].attempts|
    requires At(run, n + 1).ledger.records[r].attempts[a].delivery.Dropped?
    ensures || At(run, n + 1).ledger.records[r].attempts[a].call in At(run, n + 1).history.denied
            || Reopens(At(run, n), run[n], r) || SameAttempt(At(run, n), At(run, n + 1), r, a)
  {
    var y, step := At(run, n), run[n];
    RunInvariant(run, n);
    hide NextLedger, NextFlights, NextHistory, Inv, Reopens;
    if Enabled(y, step) {
      if r !in y.ledger.records {
        StepRecordIds(y, step);
        BuiltRecord(y, step, r);
      } else if !Live(y.ledger.records[r]) {
        ReopenedExactly(run, n, r);
      } else if step.PermissionDenied? {
        DenyDrops(y, step, r, a);
      } else {
        StepNoNewDrops(y, step, r);
      }
    }
  }

  /** An open record's dropped attempt belongs to a denied call, or its own hook reopened the record. */
  lemma {:induction false} DroppedWereDeniedOrReopened(run: seq<Step>, n: nat, r: RecordId, a: nat)
    requires n <= |run| && LiveExcept(At(run, n).ledger.records, r, None)
    requires a < |At(run, n).ledger.records[r].attempts| && At(run, n).ledger.records[r].attempts[a].delivery.Dropped?
    ensures At(run, n).ledger.records[r].attempts[a].call in At(run, n).history.denied || ReopenedBefore(run, n, r)
  {
    hide Next, Reopens;
    if n > 0 {
      StepDrops(run, n - 1, r, a);
      DeniedGrows(At(run, n - 1), run[n - 1]);
      if SameAttempt(At(run, n - 1), At(run, n), r, a) {
        DroppedWereDeniedOrReopened(run, n - 1, r, a);
      }
    }
  }

  // ---------------------------------------------------------------- carriages and adoptions

  /** The step prints `c.pack` for the call, for the record that is live. */
  ghost predicate CarriesAt(y: System, step: Step, c: Carriage) {
    && step.PreToolUse? && step.call == c.call
    && Attach(y.ledger, step.call, step.now, step.guardHolds).text.Some?
    && LiveRecord(y.ledger.records, None) == Some(c.record) && y.ledger.slot == Some(c.pack)
  }

  lemma StepCarries(y: System, step: Step, c: Carriage)
    requires NamesUndelivered(y.ledger)
    ensures c in Next(y, step).history.carried <==> c in y.history.carried || CarriesAt(y, step, c)
  {
    if step.PreToolUse? {
      AttachSteady(y.ledger, step.call, step.now, step.guardHolds);
    }
    hide NextLedger, NextFlights, Attach;
  }

  lemma NamesAlong(run: seq<Step>, n: nat)
    requires n <= |run|
    ensures NamesUndelivered(At(run, n).ledger)
  {
    RunInvariant(run, n);
    hide RowsInv, FlightsInv, OneSettled, TextInv;
  }

  /** The carriages on record are exactly the texts printed so far. */
  lemma {:induction false} CarriedExactly(run: seq<Step>, n: nat, c: Carriage)
    requires n <= |run|
    ensures c in At(run, n).history.carried <==> exists k :: 0 <= k < n && CarriesAt(At(run, k), run[k], c)
  {
    hide Next, CarriesAt;
    if n > 0 {
      CarriedExactly(run, n - 1, c);
      NamesAlong(run, n - 1);
      StepCarries(At(run, n - 1), run[n - 1], c);
      assert At(run, n) == Next(At(run, n - 1), run[n - 1]);
      hide At;
    }
  }

  /** A commit hands this row of its own pack to record `id`. */
  ghost predicate Adopts(y: System, step: Step, id: RecordId, i: ItemId) {
    && step.CommitStore? && Enabled(y, step)
    && MergeTarget(y.ledger, y.flights[step.id].pack, CommitOf(y, step)) == Some(id)
    && i in y.ledger.items && PlannedOf(y.ledger.items[i], step.id)
    && i in Next(y, step).ledger.items && Next(y, step).ledger.items[i].owner == id
  }

  ghost predicate AdoptedSince(run: seq<Step>, k: nat, n: nat, id: RecordId, i: ItemId)
    requires n <= |run|
  {
    exists j :: k < j < n && Adopts(At(run, j), run[j], id, i)
  }

  lemma ReparentFrom(s: State, from: RecordId, to: RecordId, i: ItemId)
    requires var t := ReparentItems(s, from, to).items; i in t && PlannedOf(t[i], to)
    ensures i in s.items && s.items[i].decision.Planned? && s.items[i].owner in {from, to}
    ensures s.items[i].key == ReparentItems(s, from, to).items[i].key
  {
  }

  lemma {:induction false} OmitAllFrom(items: map<ItemId, Item>, owner: RecordId, omissions: seq<Omission>, i: ItemId)
    requires i in OmitAll(items, owner, omissions) && OmitAll(items, owner, omissions)[i].decision.Planned?
    ensures i in items && items[i] == OmitAll(items, owner, omissions)[i]
  {
    if omissions != [] {
      OmitAllFrom(items, owner, omissions[..|omissions| - 1], i);
    }
  }

  /** A row the live record has planned after a merge was planned by it or by the pack before. */
  lemma MergeFrom(s: State, pack: BuiltPack, live: RecordId, plan: MergePlan, stamp: Option<string>, i: ItemId)
    requires MergedGuard(s.slot, pack.guard, stamp).Some?
    requires var t := Merge(s, pack, live, plan, stamp).items; i in t && PlannedOf(t[i], live)
    ensures i in s.items && s.items[i].decision.Planned? && s.items[i].owner in {pack.id, live}
    ensures s.items[i].key == Merge(s, pack, live, plan, stamp).items[i].key
  {
    var omitted := s.(items := OmitAll(s.items, pack.id, plan.omissions));
    ReparentFrom(omitted, pack.id, live, i);
    OmitAllFrom(s.items, pack.id, plan.omissions, i);
    hide OmitAll, Reparent, Cascade;
  }

  lemma CancelFrom(s: State, id: RecordId, i: ItemId)
    requires var t := CancelUndelivered(s, id).items; i in t && t[i].decision.Planned?
    ensures i in s.items && s.items[i] == CancelUndelivered(s, id).items[i]
  {
  }

  lemma CurrentPendingFrom(s: State, holds: bool, i: ItemId)
    requires var t := CurrentPending(s, holds).state.items; i in t && t[i].decision.Planned?
    ensures i in s.items && s.items[i] == CurrentPending(s, holds).state.items[i]
  {
    if s.slot.Some? && CurrentPending(s, holds).state != s {
      CancelFrom(s, s.slot.value.owner, i);
    }
    hide CancelUndelivered;
  }

  lemma CommitFrom(s: State, pack: BuiltPack, input: CommitInput, id: RecordId, i: ItemId)
    requires MergeTarget(s, pack, input) == Some(id)
    requires var t := Commit(s, pack, input).items; i in t && PlannedOf(t[i], id)
    ensures i in s.items && s.items[i].decision.Planned? && s.items[i].owner in {pack.id, id}
    ensures s.items[i].key == Commit(s, pack, input).items[i].key
  {
    hide CurrentPending, Merge, PlanInto, MergedGuard;
    var read := CurrentPending(s, input.slotGuardHolds).state;
    assert OldestLive(read.records, Some(pack.id), id);
    var plan := PlanInto(read.records[id], read.slot, pack);
    MergeFrom(read, pack, id, plan, input.stamp, i);
    CurrentPendingFrom(s, input.slotGuardHolds, i);
  }

  lemma ThawsWhole(y: System, step: Step, r: RecordId)
    requires Inv(y) && Enabled(y, step) && r in y.ledger.records
    ensures || PlannedShrinks(y.ledger.items, Next(y, step).ledger.items, r)
            || (step.CommitStore? && MergeTarget(y.ledger, y.flights[step.id].pack, CommitOf(y, step)) == Some(r))
  {
    hide AddBuilt, Begin, Commit, Attach, Deliver, Deny, Stop, PlannedShrinks, PlanInto, OneSettled, TextInv,
        UniqueIncluded,
      Rendered, SlotAfterCommit, PassedText, NamesUndelivered, MergeTarget;
    var s := y.ledger;
    match step
    case Build(pack, considered, epoch, createdAt) => BuildShrinks(y, step, r);
    case BeginStore(id, holds) => BeginEffect(s, id, holds, r);
    case CommitStore(id, _, _, _) => CommitEffect(s, y.flights[id].pack, CommitOf(y, step), r);
    case PreToolUse(call, now, holds) => AttachShrinks(s, call, now, holds, r);
    case PostToolUse(call, execution, now, holds) => DeliverThaws(s, call, execution, now, holds, r);
    case PermissionDenied(call, now) => DenyThaws(s, call, now, r);
    case StopHook(saw) => StopThaws(s, saw, r);
    case _ => PlannedShrinksRefl(s.items, r);
  }

  lemma AttachShrinks(s: State, call: CallId, now: int, holds: bool, r: RecordId)
    requires NamesUndelivered(s)
    ensures PlannedShrinks(s.items, Attach(s, call, now, holds).state.items, r)
  {
    CurrentPendingEffect(s, holds, r);
    hide CurrentPending;
  }

  /** A row planned for a record after a step was planned for it before, or the step's commit adopts it. */
  lemma StepAdopts(y: System, step: Step, r: RecordId, i: ItemId)
    requires Inv(y) && Enabled(y, step) && r in y.ledger.records
    requires var t := Next(y, step).ledger.items; i in t && PlannedOf(t[i], r)
    ensures i in y.ledger.items && y.ledger.items[i].key == Next(y, step).ledger.items[i].key
    ensures PlannedOf(y.ledger.items[i], r) || Adopts(y, step, r, i)
  {
    ThawsWhole(y, step, r);
    hide AddBuilt, Begin, Attach, Deliver, Deny, Stop, Commit, RowsInv, OneSettled, TextInv, MergeTarget, NextFlights,
        NextHistory;
    if !PlannedShrinks(y.ledger.items, Next(y, step).ledger.items, r) {
      CommitterKnown(y, step);
      CommitFrom(y.ledger, y.flights[step.id].pack, CommitOf(y, step), r, i);
    }
  }

  lemma AttachWithin(y: System, step: Step, c: Carriage, i: ItemId)
    requires NamesUndelivered(y.ledger) && CarriesAt(y, step, c)
    requires var t := Next(y, step).ledger.items; i in t && PlannedOf(t[i], c.record)
    ensures Next(y, step).ledger.items[i].key in KeysOf(c.pack.blocks)
  {
    CurrentPendingEffect(y.ledger, step.guardHolds, c.record);
    hide CurrentPending;
  }

  lemma {:induction false} UsedGrows(run: seq<Step>, m: nat, n: nat)
    requires m <= n <= |run|
    ensures At(run, m).history.used <= At(run, n).history.used
  {
    if m < n {
      UsedGrows(run, m, n - 1);
      hide NextLedger, NextFlights;
    }
  }

  /** Record ids are not reused: a record of an earlier moment that is there now was there in between. */
  lemma KnownRecordStays(run: seq<Step>, k: nat, n: nat, r: RecordId)
    requires k < n < |run| && r in At(run, k).ledger.records && r in At(run, n + 1).ledger.records
    ensures r in At(run, n).ledger.records
  {
    RunInvariant(run, k);
    RunInvariant(run, n);
    UsedGrows(run, k, n);
    if Enabled(At(run, n), run[n]) {
      StepRecordIds(At(run, n), run[n]);
    }
    hide NextLedger, NextFlights, NextHistory, RowsInv, OneSettled, TextInv;
  }

  lemma CarrierKnown(run: seq<Step>, k: nat, n: nat, c: Carriage, i: ItemId)
    requires k < n <= |run| && CarriesAt(At(run, k), run[k], c)
    requires i in At(run, n).ledger.items && PlannedOf(At(run, n).ledger.items[i], c.record)
    ensures c.record in At(run, k).ledger.records && c.record in At(run, n).ledger.records
  {
    RunInvariant(run, n);
    hide At, UniqueIncluded, FlightsInv, OneSettled, TextInv, NamesUndelivered, Attach;
  }

  lemma CarrierStays(run: seq<Step>, k: nat, n: nat, c: Carriage, i: ItemId)
    requires k < n < |run| && CarriesAt(At(run, k), run[k], c)
    requires i in At(run, n + 1).ledger.items && PlannedOf(At(run, n + 1).ledger.items[i], c.record)
    ensures c.record in At(run, n).ledger.records
  {
    hide At, CarriesAt, PlannedOf;
    CarrierKnown(run, k, n + 1, c, i);
    KnownRecordStays(run, k, n, c.record);
  }

  /** One step after a carriage: a row planned for its record was planned for it before, or is adopted. */
  lemma StepPlanned(run: seq<Step>, k: nat, n: nat, c: Carriage, i: ItemId)
    requires k < n < |run| && CarriesAt(At(run, k), run[k], c)
    requires i in At(run, n + 1).ledger.items && PlannedOf(At(run, n + 1).ledger.items[i], c.record)
    ensures i in At(run, n).ledger.items && At(run, n).ledger.items[i].key == At(run, n + 1).ledger.items[i].key
    ensures PlannedOf(At(run, n).ledger.items[i], c.record) || Adopts(At(run, n), run[n], c.record, i)
  {
    RunInvariant(run, n);
    CarrierStays(run, k, n, c, i);
    assert At(run, n + 1) == Next(At(run, n), run[n]);
    hide At, NextLedger, NextFlights, NextHistory, Inv, CarriesAt, Adopts, PlannedOf, Enabled;
    if Enabled(At(run, n), run[n]) {
      StepAdopts(At(run, n), run[n], c.record, i);
    }
  }

  /** After a call carried a text, the planned rows of its record are in that text or were adopted since. */
  lemma {:induction false} PlannedSinceCarriage(run: seq<Step>, k: nat, n: nat, c: Carriage, i: ItemId)
    requires k < n <= |run| && CarriesAt(At(run, k), run[k], c)
    requires i in At(run, n).ledger.items && PlannedOf(At(run, n).ledger.items[i], c.record)
    ensures At(run, n).ledger.items[i].key in KeysOf(c.pack.blocks) || AdoptedSince(run, k, n, c.record, i)
  {
    hide Next, CarriesAt, Adopts, PlannedOf;
    if k == n - 1 {
      NamesAlong(run, k);
      AttachWithin(At(run, k), run[k], c, i);
    } else {
      StepPlanned(run, k, n - 1, c, i);
      if PlannedOf(At(run, n - 1).ledger.items[i], c.record) {
        PlannedSinceCarriage(run, k, n - 1, c, i);
      }
    }
  }

  // ---------------------------------------------------------------- main result

  /** Everything the call printed lacks the row's key. */
  ghost predicate NeverCarried(run: seq<Step>, n: nat, call: CallId, key: Key)
    requires n <= |run|
  {
    forall k, c :: 0 <= k < n && CarriesAt(At(run, k), run[k], c) && c.call == call ==> key !in KeysOf(c.pack.blocks)
  }

  lemma CarriedKeys(run: seq<Step>, n: nat, call: CallId, key: Key)
    requires n <= |run|
    ensures NeverCarried(run, n, call, key) <==>
              !exists record, pack :: Carriage(record, call, pack) in At(run, n).history.carried && key in KeysOf(pack.blocks)
  {
    forall c: Carriage { CarriedExactly(run, n, c); }
    hide CarriesAt, At;
    if record, pack :| Carriage(record, call, pack) in At(run, n).history.carried && key in KeysOf(pack.blocks) {
      var c := Carriage(record, call, pack);
      var k :| 0 <= k < n && CarriesAt(At(run, k), run[k], c);
    }
    if k, c :| 0 <= k < n && CarriesAt(At(run, k), run[k], c) && c.call == call && key in KeysOf(c.pack.blocks) {
      assert Carriage(c.record, call, c.pack) == c;
    }
  }

  /** The row was planned for the record the hook reports about, and the hook printed it or had an attempt. */
  lemma IncludedBy(y: System, step: Step, i: ItemId)
    requires Inv(y) && Enabled(y, step) && step.PostToolUse? && NewlyIncluded(y, Next(y, step), i)
    ensures var reported := ReportedRecord(y.ledger.records);
            reported.Some? && i in y.ledger.items && PlannedOf(y.ledger.items[i], reported.value)
    ensures if OpenAttempt(y.ledger, step.call).Some? then Deliver(y.ledger, step.call, step.execution, step.now,
        step.guardHolds).text.None?
            else Justified(y, step, i)
  {
    hide Homed, FlightsInv, OneSettled, TextInv, UniqueIncluded, CurrentPending, DeliverCarried, DeliverPrinted,
        CloseLost;
    var s, call := y.ledger, step.call;
    CurrentPendingEffect(s, step.guardHolds, 0);
    CurrentPendingKeeps(s, step.guardHolds);
    var read := CurrentPending(s, step.guardHolds);
    var id := ReportedRecord(s.records).value;
    var found := FindCall(s.records[id].attempts, call);
    if found.Some? {
      CarriedIncludes(s, id, found.value, step.execution, step.now, i);
      CarriedPrintsNothing(s, id, found.value, step.execution, step.now);
    } else if read.pending.Some? {
      PrintedIncludes(s, id, s.slot.value, call, step.execution, step.now, i);
      PrintedText(s, id, s.slot.value, call, step.execution, step.now);
      assert Received(y, step, s.slot.value);
    } else if !AnyWaiting(s.records[id].attempts) {
      LostIncludesNothing(read.state, id, s.records[id], call, step.execution, step.now, i);
    }
  }

  lemma CarriedPrintsNothing(s: State, id: RecordId, at: nat, execution: Execution, now: int)
    requires id in s.records && at < |s.records[id].attempts|
    ensures DeliverCarried(s, id, at, execution, now).text.None?
  {
  }

  /**
   * A receipt confirms the row through an attempt of its call: the attempt is on the open record and not
   * delivered yet, and the row is planned for that record with the unique index free for it.
   */
  ghost predicate Confirms(y: System, step: Step, i: ItemId) {
    && step.PostToolUse? && Enabled(y, step) && i in y.ledger.items
    && OpenAttempt(y.ledger, step.call).Some? && !OpenAttempt(y.ledger, step.call).value.delivery.Delivered?
    && var record := ReportedRecord(y.ledger.records).value;
       PlannedOf(y.ledger.items[i], record) && FirstOfMemory(y.ledger.items, record, i)
  }

  lemma CarriedIncludesExactly(s: State, id: RecordId, at: nat, execution: Execution, now: int, i: ItemId)
    requires RowsInv(s) && id in s.records && at < |s.records[id].attempts| && Live(s.records[id])
    requires !s.records[id].attempts[at].delivery.Delivered? && i in s.items && PlannedOf(s.items[i], id)
    ensures var t := DeliverCarried(s, id, at, execution, now).state;
            i in t.items && (t.items[i].decision.Included? <==> FirstOfMemory(s.items, id, i))
  {
    ConfirmIncludesExactly(s.items, id, s.nextItem, i);
    hide ConfirmRows, UniqueIncluded, FirstOfMemory;
  }

  lemma ReceiptCarries(y: System, step: Step)
    requires step.PostToolUse? && Enabled(y, step) && OpenAttempt(y.ledger, step.call).Some?
    ensures var s, id := y.ledger, ReportedRecord(y.ledger.records).value;
            && id in s.records && Live(s.records[id])
            && var found := FindCall(s.records[id].attempts, step.call);
               && found.Some? && OpenAttempt(s, step.call).value == s.records[id].attempts[found.value]
               && Next(y, step).ledger == DeliverCarried(s, id, found.value, step.execution, step.now).state
  {
    hide DeliverCarried, DeliverPrinted, CloseLost, CurrentPending, NextFlights, NextHistory, OldestLive, LatestEmitted;
  }

  lemma StepConfirmsExactly(y: System, step: Step, i: ItemId)
    requires Inv(y) && Enabled(y, step) && step.PostToolUse? && OpenAttempt(y.ledger, step.call).Some?
    ensures NewlyIncluded(y, Next(y, step), i) <==> Confirms(y, step, i)
  {
    ReceiptCarries(y, step);
    var s, id := y.ledger, ReportedRecord(y.ledger.records).value;
    var at := FindCall(s.records[id].attempts, step.call).value;
    hide Next, FindCall, OpenAttempt, ReportedRecord, FlightsInv, OneSettled, TextInv, NamesUndelivered, Enabled, FirstOfMemory;
    if NewlyIncluded(y, Next(y, step), i) {
      CarriedIncludes(s, id, at, step.execution, step.now, i);
    }
    if i in s.items && PlannedOf(s.items[i], id) && !s.records[id].attempts[at].delivery.Delivered? {
      CarriedIncludesExactly(s, id, at, step.execution, step.now, i);
    }
    hide DeliverCarried;
  }

  /** The step includes the row, although the call neither carried its block nor prints it. */
  ghost predicate IncludesUnreceived(run: seq<Step>, n: nat, i: ItemId)
    requires n < |run|
  {
    NewlyIncluded(At(run, n), At(run, n + 1), i) && !Justified(At(run, n), run[n], i)
  }

  /** The same in terms of the state before the step and of what the call's hooks printed. */
  ghost predicate Unreceives(run: seq<Step>, n: nat, i: ItemId)
    requires n < |run|
  {
    && Confirms(At(run, n), run[n], i)
    && NeverCarried(run, n, run[n].call, At(run, n).ledger.items[i].key)
  }

  lemma OnlyReceiptsInclude(run: seq<Step>, n: nat, i: ItemId)
    requires n < |run| && NewlyIncluded(At(run, n), At(run, n + 1), i)
    ensures Enabled(At(run, n), run[n]) && run[n].PostToolUse?
  {
    RunInvariant(run, n);
    hide NextLedger, NextFlights, NextHistory, Inv, Enabled;
    if Enabled(At(run, n), run[n]) {
      StepKeepsRows(At(run, n), run[n]);
    }
  }

  lemma JustifiedByCarriage(y: System, step: Step, i: ItemId)
    requires step.PostToolUse? && Enabled(y, step) && OpenAttempt(y.ledger, step.call).Some? && i in y.ledger.items
    ensures Justified(y, step, i) <==> exists record, pack ::
              Carriage(record, step.call, pack) in y.history.carried && y.ledger.items[i].key in KeysOf(pack.blocks)
  {
    ReceiptPrintsNothing(y, step);
    hide Enabled, OpenAttempt, Deliver, KeysOf;
    if Justified(y, step, i) {
      var pack :| Received(y, step, pack) && y.ledger.items[i].key in KeysOf(pack.blocks);
      var record :| Carriage(record, step.call, pack) in y.history.carried;
    }
    if record, pack :| Carriage(record, step.call, pack) in y.history.carried && y.ledger.items[i].key in KeysOf(pack.blocks) {
      assert Received(y, step, pack);
    }
  }

  lemma ReceiptPrintsNothing(y: System, step: Step)
    requires step.PostToolUse? && Enabled(y, step) && OpenAttempt(y.ledger, step.call).Some?
    ensures Deliver(y.ledger, step.call, step.execution, step.now, step.guardHolds).text.None?
  {
    hide DeliverPrinted, CloseLost, CurrentPending, OldestLive, LatestEmitted, ConfirmDelivery, CountDelivery;
  }

  /**
   * At every moment of every run: a row is included unreceived exactly when a receipt confirms it through
   * an attempt of its call and no text the call carried has the row's key.
   */
  lemma UnreceivedExactly(run: seq<Step>, n: nat, i: ItemId)
    requires n < |run|
    ensures IncludesUnreceived(run, n, i) <==> Unreceives(run, n, i)
  {
    var y, step := At(run, n), run[n];
    RunInvariant(run, n);
    hide NextLedger, NextFlights, NextHistory, Inv, NewlyIncluded, Justified, OpenAttempt, Confirms, NeverCarried, Enabled;
    if NewlyIncluded(y, At(run, n + 1), i) {
      OnlyReceiptsInclude(run, n, i);
      IncludedBy(y, step, i);
    }
    ConfirmsMeans(y, step, i);
    if step.PostToolUse? && Enabled(y, step) && OpenAttempt(y.ledger, step.call).Some? {
      StepConfirmsExactly(y, step, i);
      if i in y.ledger.items {
        JustifiedByCarriage(y, step, i);
        CarriedKeys(run, n, step.call, y.ledger.items[i].key);
      }
    }
  }

  lemma ConfirmsMeans(y: System, step: Step, i: ItemId)
    ensures Confirms(y, step, i) ==>
              step.PostToolUse? && Enabled(y, step) && OpenAttempt(y.ledger, step.call).Some? && i in y.ledger.items
  {
  }

  /**
   * And wherever a text of the receipt's record was carried that lacks the included row's key, a later
   * commit handed the row over.
   */
  lemma IncludedWasAdopted(run: seq<Step>, n: nat, i: ItemId)
    requires n < |run| && NewlyIncluded(At(run, n), At(run, n + 1), i)
    ensures i in At(run, n).ledger.items && ReportedRecord(At(run, n).ledger.records).Some?
    ensures var key, record := At(run, n).ledger.items[i].key, ReportedRecord(At(run, n).ledger.records).value;
            forall k, c :: 0 <= k < n && CarriesAt(At(run, k), run[k], c) && c.record == record && key !in KeysOf(c.pack.blocks)
              ==> AdoptedSince(run, k, n, record, i)
  {
    var y := At(run, n);
    RunInvariant(run, n);
    OnlyReceiptsInclude(run, n, i);
    hide NextLedger, NextFlights, NextHistory, Inv, NewlyIncluded, OpenAttempt, CarriesAt, AdoptedSince, Enabled, Deliver;
    IncludedBy(y, run[n], i);
    var key, record := y.ledger.items[i].key, ReportedRecord(y.ledger.records).value;
    forall k, c | 0 <= k < n && CarriesAt(At(run, k), run[k], c) && c.record == record && key !in KeysOf(c.pack.blocks)
      ensures AdoptedSince(run, k, n, record, i)
    {
      PlannedSinceCarriage(run, k, n, c, i);
    }
  }

  // -- whole runs

  ghost predicate IncludedAt(run: seq<Step>, n: nat, i: ItemId)
    requires n <= |run|
  {
    i in At(run, n).ledger.items && At(run, n).ledger.items[i].decision.Included?
  }

  /** The row became included in a step whose call carried its block or prints it. */
  ghost predicate ReceivedBy(run: seq<Step>, n: nat, i: ItemId)
    requires n <= |run|
  {
    exists k :: 0 <= k < n && IncludedIn(run, k, i) && Justified(At(run, k), run[k], i)
  }

  ghost predicate IncludedIn(run: seq<Step>, k: nat, i: ItemId)
    requires k < |run|
  {
    !IncludedAt(run, k, i) && IncludedAt(run, k + 1, i)
  }

  lemma IncludedStays(run: seq<Step>, m: nat, n: nat, i: ItemId)
    requires m <= n <= |run| && IncludedAt(run, m, i)
    ensures IncludedAt(run, n, i)
  {
    DecisionsAreFinal(run, m, n, i);
    hide At;
  }

  lemma {:induction false} IncludedSometime(run: seq<Step>, n: nat, i: ItemId) returns (k: nat)
    requires n <= |run| && IncludedAt(run, n, i)
    ensures k < n && IncludedIn(run, k, i)
  {
    hide Next;
    if n > 0 {
      k := n - 1;
      if IncludedAt(run, n - 1, i) {
        k := IncludedSometime(run, n - 1, i);
      }
    }
  }

  lemma InclusionIs(run: seq<Step>, k: nat, i: ItemId)
    requires k < |run|
    ensures IncludesUnreceived(run, k, i) <==> IncludedIn(run, k, i) && !Justified(At(run, k), run[k], i)
  {
    hide At, Justified;
  }

  /** Every row included in a run was received exactly if no step of the run is one of them. */
  lemma EveryInclusionReceivedExactly(run: seq<Step>, n: nat)
    requires n <= |run|
    ensures (forall i :: IncludedAt(run, n, i) ==> ReceivedBy(run, n, i)) <==> (forall k, i :: 0 <= k < n ==> !Unreceives(run, k, i))
  {
    hide At, IncludedAt, IncludesUnreceived, Unreceives, Justified;
    if forall k, i :: 0 <= k < n ==> !Unreceives(run, k, i) {
      forall i | IncludedAt(run, n, i) ensures ReceivedBy(run, n, i) {
        var k := IncludedSometime(run, n, i);
        InclusionIs(run, k, i);
        UnreceivedExactly(run, k, i);
        assert !Unreceives(run, k, i);
      }
    }
    if forall i :: IncludedAt(run, n, i) ==> ReceivedBy(run, n, i) {
      forall k, i | 0 <= k < n ensures !Unreceives(run, k, i) {
        UnreceivedExactly(run, k, i);
        if IncludesUnreceived(run, k, i) {
          InclusionIs(run, k, i);
          IncludedStays(run, k + 1, n, i);
          UnreceivedForGood(run, n, k, i);
        }
      }
    }
  }

  lemma IncludedOnce(run: seq<Step>, j: nat, k: nat, i: ItemId)
    requires j < |run| && k < |run| && IncludedIn(run, j, i) && IncludedIn(run, k, i)
    ensures j == k
  {
    hide IncludedAt;
    if j < k {
      IncludedStays(run, j + 1, k, i);
    } else if k < j {
      IncludedStays(run, k + 1, j, i);
    }
  }

  lemma UnreceivedForGood(run: seq<Step>, n: nat, k: nat, i: ItemId)
    requires k < n <= |run| && IncludedIn(run, k, i) && IncludesUnreceived(run, k, i)
    ensures !ReceivedBy(run, n, i)
  {
    InclusionIs(run, k, i);
    hide At, IncludedIn, IncludesUnreceived, Justified;
    forall j | 0 <= j < n && IncludedIn(run, j, i) ensures j == k {
      IncludedOnce(run, j, k, i);
    }
  }
}
