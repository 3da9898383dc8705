/**
 * Storing captured events (src/capture.ts, storeRows and its helpers; src/events.ts, eventIdKey) for
 * one repository: re-deliveries collapse, turns are numbered, an ended session reopens with its next
 * new event, and compactions advance the epoch of the conversation's root.
 */
module CaptureSessions {
  import opened Options
  import Compaction

  // ---------------------------------------------------------------- event identity

  datatype Kind =
    | SessionStart | Prompt | ToolCall | ToolResult | ToolFailure | TurnEnd | SessionEnd
    | CompactionSummary | LastAssistantMessage | Probe

  datatype Source = Startup | Clear | Resume | Compact | Fork | New

  function KindName(kind: Kind): string {
    match kind
    case SessionStart => "session_start"
    case Prompt => "prompt"
    case ToolCall => "tool_call"
    case ToolResult => "tool_result"
    case ToolFailure => "tool_failure"
    case TurnEnd => "turn_end"
    case SessionEnd => "session_end"
    case CompactionSummary => "compaction_summary"
    case LastAssistantMessage => "last_assistant_message"
    case Probe => "probe"
  }

  /** What of a normalized event enters its identity. */
  datatype Event = Event(toolCallId: string, promptId: Option<string>, compactionKey: string, contentHash: string)

  /** A row has a whole event, or only the hash of a payload that could not be read. */
  datatype Identity = OfEvent(event: Event) | OfPayload(eventName: string, payloadHash: string)

  datatype Draft = Draft(
    agent: string, nativeSession: string, kind: Kind, source: Option<Source>, identity: Identity, whole: bool,
        capturedAt: int)

  function Decimal(n: nat): string {
    if n < 10 then ["0123456789"[n]] else Decimal(n / 10) + ["0123456789"[n % 10]]
  }

  function TurnKey(promptId: Option<string>, ordinal: Option<nat>): string {
    if promptId.Some? then promptId.value else if ordinal.Some? then Decimal(ordinal.value) else ""
  }

  /** eventIdKey, or the parts of a metadata row's id; sha256 over the parts is read as injective. */
  function IdKey(d: Draft, ordinal: Option<nat>): seq<string> {
    var base := ["v1", d.agent, d.nativeSession, KindName(d.kind)];
    match d.identity
    case OfPayload(name, hash) => base + [name, hash]
    case OfEvent(e) =>
      if d.kind.ToolCall? || d.kind.ToolResult? || d.kind.ToolFailure? then base + [e.toolCallId]
      else if d.kind.Prompt? && e.promptId.Some? then base + [e.promptId.value]
      else if d.kind.CompactionSummary? && e.compactionKey != "" then base + [e.compactionKey]
      else base + [TurnKey(e.promptId, ordinal), e.contentHash]
  }

  /** The key carries the ordinal of the turn: the event has no stable value of its own. */
  predicate NeedsTurn(d: Draft) {
    && d.identity.OfEvent? && d.identity.event.promptId.None?
    && !d.kind.ToolCall? && !d.kind.ToolResult? && !d.kind.ToolFailure?
    && !(d.kind.CompactionSummary? && d.identity.event.compactionKey != "")
  }

  lemma KeyDependsOnTurnExactly(d: Draft)
    ensures NeedsTurn(d) <==> exists a, b :: IdKey(d, a) != IdKey(d, b)
  {
    if NeedsTurn(d) {
      assert IdKey(d, None)[4] == "" && IdKey(d, Some(1))[4] == "1";
      assert IdKey(d, None) != IdKey(d, Some(1));
    }
  }

  // ---------------------------------------------------------------- tables

  type SessionId = (string, string)

  datatype Session = Session(conversation: SessionId, turnCount: nat, compaction: Compaction.CompactionState,
      ended: bool)

  datatype Turn = Turn(session: SessionId, ordinal: nat, endedAt: Option<int>)

  /** Ids of accepted events name the repository; version-1 ids are still recognised. */
  datatype RowId = RepositoryId(key: seq<string>) | LegacyId(key: seq<string>)
  datatype RawRow = RawRow(id: RowId, session: SessionId, kind: Kind, turn: Option<nat>)

  datatype State = State(sessions: map<SessionId, Session>, turns: seq<Turn>, rows: seq<RawRow>)

  predicate Present(rows: seq<RawRow>, id: RowId) {
    exists i :: 0 <= i < |rows| && rows[i].id == id
  }

  function SessionOf(d: Draft): SessionId {
    (d.agent, d.nativeSession)
  }

  // ---------------------------------------------------------------- the steps of one row

  function NewRoot(d: Draft, known: bool): bool {
    d.agent == "unknown" || d.source == Some(Fork) || d.source == Some(New) || (d.source != Some(Compact) && !known)
  }

  function Upsert(s: State, d: Draft): State {
    var id := SessionOf(d);
    if id !in s.sessions then
      s.(sessions := s.sessions[id := Session(id, 0, Compaction.CompactionState(0, None), false)])
    else if NewRoot(d, true) then s.(sessions := s.sessions[id := s.sessions[id].(conversation := id)])
    else s
  }

  function Reopen(s: State, id: SessionId): State
    requires id in s.sessions
  {
    if s.sessions[id].ended then s.(sessions := s.sessions[id := s.sessions[id].(ended := false)]) else s
  }

  function CompactionEvent(d: Draft): Compaction.Event {
    if d.kind.SessionStart? && d.source == Some(Compact) then Compaction.SessionStartCompact
    else if d.kind.CompactionSummary? && d.identity.OfEvent? then Compaction.CompactionSummary(d.identity.event.compactionKey)
    else Compaction.OtherEvent
  }

  function Flat(key: seq<string>): string {
    if key == [] then "" else key[0] + "\0" + Flat(key[1..])
  }

  /** Only a whole event may move the epoch, and it lives on the root of the conversation. */
  function AdvanceEpoch(s: State, d: Draft, id: SessionId, key: seq<string>): State
    requires id in s.sessions
  {
    var root := s.sessions[id].conversation;
    if !d.whole || root !in s.sessions then s
    else
      var next := Compaction.ApplyCompaction(d.agent == "claude", CompactionEvent(d), s.sessions[root].compaction,
          Flat(key));
      if next.None? then s else s.(sessions := s.sessions[root := s.sessions[root].(compaction := next.value)])
  }

  /** The turn an event attaches to, as its key sees it. */
  function TurnOrdinalOf(kind: Kind, turnCount: nat): Option<nat> {
    if kind.Prompt? then Some(turnCount + 1) else if turnCount == 0 then None else Some(turnCount)
  }

  function EndTurn(turns: seq<Turn>, id: SessionId, ordinal: nat, at: int): seq<Turn> {
    if turns == [] then []
    else
      var last := turns[|turns| - 1];
      EndTurn(turns[..|turns| - 1], id, ordinal, at)
      + [if last.session == id && last.ordinal == ordinal then last.(endedAt := Some(at)) else last]
  }

  function PlaceInTurn(s: State, d: Draft, id: SessionId): State
    requires id in s.sessions
  {
    var count := s.sessions[id].turnCount;
    if d.kind.Prompt? then
      s.(turns := s.turns + [Turn(id, count + 1, None)],
          sessions := s.sessions[id := s.sessions[id].(turnCount := count + 1)])
    else if d.kind.TurnEnd? && count > 0 then s.(turns := EndTurn(s.turns, id, count, d.capturedAt))
    else s
  }

  function Finish(s: State, d: Draft, id: SessionId, key: seq<string>): State
    requires id in s.sessions
  {
    var count := s.sessions[id].turnCount;
    var row := RawRow(RepositoryId(key), id, d.kind, if count == 0 then None else Some(count));
    State(if d.kind.SessionEnd? then s.sessions[id := s.sessions[id].(ended := true)] else s.sessions, s.turns,
        s.rows + [row])
  }

  /** storeCapturedRow: a row this database has not seen. */
  function Capture(s: State, d: Draft, id: SessionId, key: seq<string>): State
    requires id in s.sessions
  {
    var reopened := Reopen(s, id);
    var advanced := AdvanceEpoch(reopened, d, id, key);
    Finish(PlaceInTurn(advanced, d, id), d, id, key)
  }

  /** One turn of the loop in storeRows. */
  function StoreRow(s: State, d: Draft): State {
    var t := Upsert(s, d);
    var id := SessionOf(d);
    var key := IdKey(d, TurnOrdinalOf(d.kind, t.sessions[id].turnCount));
    if Present(t.rows, RepositoryId(key)) || Present(t.rows, LegacyId(key)) then t else Capture(t, d, id, key)
  }

  function StoreRows(s: State, drafts: seq<Draft>): State {
    if drafts == [] then s else StoreRow(StoreRows(s, drafts[..|drafts| - 1]), drafts[|drafts| - 1])
  }

  // ---------------------------------------------------------------- invariants of every run

  /** The ordinals of a session's turns, in the order they were opened. */
  function Ordinals(turns: seq<Turn>, id: SessionId): seq<nat> {
    if turns == [] then []
    else
      var last := turns[|turns| - 1];
      Ordinals(turns[..|turns| - 1], id) + if last.session == id then [last.ordinal] else []
  }

  function UpTo(n: nat): seq<nat> {
    seq(n, i => i + 1)
  }

  function LastKind(rows: seq<RawRow>, id: SessionId): Option<Kind> {
    if rows == [] then None
    else if rows[|rows| - 1].session == id then Some(rows[|rows| - 1].kind)
    else LastKind(rows[..|rows| - 1], id)
  }

  ghost predicate SessionInv(s: State, id: SessionId) {
    if id in s.sessions then
      && Ordinals(s.turns, id) == UpTo(s.sessions[id].turnCount)
      && (s.sessions[id].ended <==> LastKind(s.rows, id) == Some(SessionEnd))
    else Ordinals(s.turns, id) == [] && LastKind(s.rows, id) == None
  }

  ghost predicate Inv(s: State) {
    forall id :: SessionInv(s, id)
  }

  lemma {:induction false} EndTurnKeepsOrdinals(turns: seq<Turn>, id: SessionId, ordinal: nat, at: int,
      other: SessionId)
    ensures |EndTurn(turns, id, ordinal, at)| == |turns|
    ensures Ordinals(EndTurn(turns, id, ordinal, at), other) == Ordinals(turns, other)
  {
    if turns != [] {
      EndTurnKeepsOrdinals(turns[..|turns| - 1], id, ordinal, at, other);
      var ended := EndTurn(turns, id, ordinal, at);
      assert ended[..|ended| - 1] == EndTurn(turns[..|turns| - 1], id, ordinal, at);
    }
  }

  lemma {:induction false} OrdinalsAppend(turns: seq<Turn>, turn: Turn, id: SessionId)
    ensures Ordinals(turns + [turn], id) == Ordinals(turns, id) + if turn.session == id then [turn.ordinal] else []
  {
    assert (turns + [turn])[..|turns|] == turns;
  }

  lemma {:induction false} LastKindAppend(rows: seq<RawRow>, row: RawRow, id: SessionId)
    ensures LastKind(rows + [row], id) == if row.session == id then Some(row.kind) else LastKind(rows, id)
  {
    assert (rows + [row])[..|rows|] == rows;
  }

  lemma UpToNext(n: nat)
    ensures UpTo(n + 1) == UpTo(n) + [n + 1]
  {
  }

  /** Which columns of a session a re-delivery leaves alone: everything but its root. */
  ghost predicate SameProgress(before: Session, after: Session) {
    after.turnCount == before.turnCount && after.compaction == before.compaction && after.ended == before.ended
  }

  lemma UpsertKeeps(s: State, d: Draft, other: SessionId)
    requires SessionInv(s, other)
    ensures var t := Upsert(s, d);
            && SessionInv(t, other) && t.turns == s.turns && t.rows == s.rows && SessionOf(d) in t.sessions
            && (forall id :: id in s.sessions ==> id in t.sessions && SameProgress(s.sessions[id], t.sessions[id]))
  {
  }

  /** What storing a new row does to every session: only its own turns, end and reopening; only epochs of roots. */
  ghost predicate Captured(s: State, t: State, d: Draft, id: SessionId, key: seq<string>)
    requires id in s.sessions
  {
    && t.sessions.Keys == s.sessions.Keys
    && t.rows == s.rows + [RawRow(RepositoryId(key), id, d.kind,
        if t.sessions[id].turnCount == 0 then None else Some(t.sessions[id].turnCount))]
    && (forall x :: x in s.sessions ==> s.sessions[x].compaction.epoch <= t.sessions[x].compaction.epoch)
    && (forall x :: x in s.sessions && x != id ==>
          t.sessions[x].turnCount == s.sessions[x].turnCount && t.sessions[x].ended == s.sessions[x].ended)
    && (t.sessions[id].ended <==> d.kind.SessionEnd?)
    && t.sessions[id].turnCount == s.sessions[id].turnCount + (if d.kind.Prompt? then 1 else 0)
    && t.turns == (if d.kind.Prompt? then s.turns + [Turn(id, s.sessions[id].turnCount + 1, None)]
                   else if d.kind.TurnEnd? && s.sessions[id].turnCount > 0 then EndTurn(s.turns, id,
                       s.sessions[id].turnCount, d.capturedAt)
                   else s.turns)
  }

  /** A step that changes no turn, end or row, and lowers no epoch. */
  ghost predicate OnlyEpochs(s: State, t: State) {
    && t.sessions.Keys == s.sessions.Keys && t.turns == s.turns && t.rows == s.rows
    && forall x :: x in s.sessions ==>
         && s.sessions[x].compaction.epoch <= t.sessions[x].compaction.epoch
         && t.sessions[x].turnCount == s.sessions[x].turnCount && t.sessions[x].ended == s.sessions[x].ended
  }

  lemma AdvanceEffect(s: State, d: Draft, id: SessionId, key: seq<string>)
    requires id in s.sessions
    ensures OnlyEpochs(s, AdvanceEpoch(s, d, id, key))
  {
    hide Flat, CompactionEvent;
  }

  /** Placing a row in its turn and appending it moves no epoch and reopens nothing. */
  lemma PlaceEffect(s: State, d: Draft, id: SessionId, key: seq<string>)
    requires id in s.sessions && !s.sessions[id].ended
    ensures Captured(s, Finish(PlaceInTurn(s, d, id), d, id, key), d, id, key)
  {
    hide EndTurn;
  }

  ghost predicate Reopened(s: State, t: State, id: SessionId)
    requires id in s.sessions
  {
    t == s.(sessions := s.sessions[id := s.sessions[id].(ended := false)])
  }

  lemma ReopenEffect(s: State, id: SessionId)
    requires id in s.sessions
    ensures Reopened(s, Reopen(s, id), id)
  {
    if !s.sessions[id].ended {
      assert s.sessions[id := s.sessions[id].(ended := false)] == s.sessions;
    }
  }

  /** Reopening and moving the epoch touch no turn, no row and no other session's progress. */
  ghost predicate Prepared(s: State, a: State, id: SessionId) {
    && a.sessions.Keys == s.sessions.Keys && a.turns == s.turns && a.rows == s.rows
    && forall x :: x in s.sessions ==>
         && s.sessions[x].compaction.epoch <= a.sessions[x].compaction.epoch
         && a.sessions[x].turnCount == s.sessions[x].turnCount
         && (x != id ==> a.sessions[x].ended == s.sessions[x].ended)
  }

  lemma PreparedBy(s: State, r: State, a: State, id: SessionId)
    requires id in s.sessions && Reopened(s, r, id) && OnlyEpochs(r, a)
    ensures Prepared(s, a, id)
  {
  }

  lemma CapturedThrough(s: State, a: State, t: State, d: Draft, id: SessionId, key: seq<string>)
    requires id in s.sessions && Prepared(s, a, id) && id in a.sessions && Captured(a, t, d, id, key)
    ensures Captured(s, t, d, id, key)
  {
    hide EndTurn;
  }

  lemma CaptureEffect(s: State, d: Draft, id: SessionId, key: seq<string>)
    requires id in s.sessions
    ensures Captured(s, Capture(s, d, id, key), d, id, key)
  {
    var reopened := Reopen(s, id);
    var advanced := AdvanceEpoch(reopened, d, id, key);
    ReopenEffect(s, id);
    AdvanceEffect(reopened, d, id, key);
    assert id in advanced.sessions && !advanced.sessions[id].ended;
    hide AdvanceEpoch, Finish, PlaceInTurn, Captured, Reopened, OnlyEpochs, Reopen, Prepared;
    PreparedBy(s, reopened, advanced, id);
    PlaceEffect(advanced, d, id, key);
    CapturedThrough(s, advanced, Capture(s, d, id, key), d, id, key);
  }

  lemma CaptureKeeps(s: State, d: Draft, id: SessionId, key: seq<string>, other: SessionId)
    requires id in s.sessions && SessionInv(s, other)
    ensures SessionInv(Capture(s, d, id, key), other)
  {
    var t := Capture(s, d, id, key);
    CaptureEffect(s, d, id, key);
    hide Capture;
    LastKindAppend(s.rows, t.rows[|s.rows|], other);
    OrdinalsAppend(s.turns, Turn(id, s.sessions[id].turnCount + 1, None), other);
    EndTurnKeepsOrdinals(s.turns, id, s.sessions[id].turnCount, d.capturedAt, other);
    UpToNext(s.sessions[id].turnCount);
  }

  lemma StoreRowKeeps(s: State, d: Draft)
    requires Inv(s)
    ensures Inv(StoreRow(s, d))
  {
    var t := Upsert(s, d);
    var key := IdKey(d, TurnOrdinalOf(d.kind, StoredTurnCount(s, d)));
    hide SessionInv, Capture, IdKey;
    forall other ensures SessionInv(StoreRow(s, d), other) {
      UpsertKeeps(s, d, other);
      CaptureKeeps(t, d, SessionOf(d), key, other);
    }
  }

  function StoredTurnCount(s: State, d: Draft): nat {
    if SessionOf(d) in s.sessions then s.sessions[SessionOf(d)].turnCount else 0
  }

  lemma {:induction false} RunInvariant(start: State, drafts: seq<Draft>)
    requires Inv(start)
    ensures Inv(StoreRows(start, drafts))
  {
    if drafts != [] {
      RunInvariant(start, drafts[..|drafts| - 1]);
      StoreRowKeeps(StoreRows(start, drafts[..|drafts| - 1]), drafts[|drafts| - 1]);
      hide Inv, StoreRow;
    }
  }

  const EMPTY := State(map[], [], [])

  lemma EmptyInv()
    ensures Inv(EMPTY)
  {
  }

  // ---------------------------------------------------------------- main results

  /** Turns are numbered 1, 2, ... without a gap, and a session is ended exactly by its last new row. */
  lemma {:induction false} TurnsAreNumbered(drafts: seq<Draft>, id: SessionId)
    requires id in StoreRows(EMPTY, drafts).sessions
    ensures var s := StoreRows(EMPTY, drafts);
            && Ordinals(s.turns, id) == UpTo(s.sessions[id].turnCount)
            && (s.sessions[id].ended <==> LastKind(s.rows, id) == Some(SessionEnd))
  {
    EmptyInv();
    RunInvariant(EMPTY, drafts);
    assert SessionInv(StoreRows(EMPTY, drafts), id);
  }

  lemma StoreRowEffect(s: State, d: Draft)
    ensures var t := StoreRow(s, d);
            && SessionOf(d) in t.sessions && s.rows <= t.rows && s.sessions.Keys <= t.sessions.Keys
            && (forall x :: x in s.sessions ==> s.sessions[x].compaction.epoch <= t.sessions[x].compaction.epoch)
            && (!NeedsTurn(d) ==> Present(t.rows, RepositoryId(IdKey(d, None))) || Present(t.rows, LegacyId(IdKey(d, None))))
  {
    var t := Upsert(s, d);
    var key := IdKey(d, TurnOrdinalOf(d.kind, t.sessions[SessionOf(d)].turnCount));
    CaptureEffect(t, d, SessionOf(d), key);
    hide Capture, EndTurn;
    if !NeedsTurn(d) {
      assert key == IdKey(d, None);
    }
    hide IdKey, NeedsTurn;
    var next := StoreRow(s, d);
    if !Present(t.rows, RepositoryId(key)) && !Present(t.rows, LegacyId(key)) {
      assert next.rows[|t.rows|].id == RepositoryId(key);
    }
  }

  /** Between any two moments of a run: epochs never decrease, and no session or raw row is lost. */
  lemma {:induction false} EpochsOnlyGrow(start: State, drafts: seq<Draft>, m: nat)
    requires m <= |drafts|
    ensures var s, t := StoreRows(start, drafts[..m]), StoreRows(start, drafts);
            && s.sessions.Keys <= t.sessions.Keys && s.rows <= t.rows
            && forall x :: x in s.sessions ==> s.sessions[x].compaction.epoch <= t.sessions[x].compaction.epoch
  {
    if m < |drafts| {
      var before := drafts[..|drafts| - 1];
      assert before[..m] == drafts[..m];
      EpochsOnlyGrow(start, before, m);
      StoreRowEffect(StoreRows(start, before), drafts[|drafts| - 1]);
      hide StoreRow, NeedsTurn, Present;
    } else {
      assert drafts[..m] == drafts;
    }
  }

  lemma SeenAgainChangesNothing(s: State, d: Draft)
    requires SessionOf(d) in s.sessions && !NeedsTurn(d)
    requires Present(s.rows, RepositoryId(IdKey(d, None))) || Present(s.rows, LegacyId(IdKey(d, None)))
    ensures var t := StoreRow(s, d);
            && t.turns == s.turns && t.rows == s.rows && t.sessions.Keys == s.sessions.Keys
            && forall x :: x in s.sessions ==> SameProgress(s.sessions[x], t.sessions[x])
  {
    hide Capture;
  }

  /**
   * A stored event whose key needs no turn ordinal, delivered again at any later time, changes no
   * turn, no epoch, no session's status and no raw row.
   */
  lemma {:induction false} RedeliveryChangesNothing(start: State, drafts: seq<Draft>, k: nat)
    requires k < |drafts| && !NeedsTurn(drafts[k])
    ensures var s := StoreRows(start, drafts);
            var t := StoreRow(s, drafts[k]);
            && t.turns == s.turns && t.rows == s.rows && t.sessions.Keys == s.sessions.Keys
            && forall x :: x in s.sessions ==> SameProgress(s.sessions[x], t.sessions[x])
  {
    var d := drafts[k];
    var before := StoreRows(start, drafts[..k]);
    var stored := StoreRow(before, d);
    StoreRowEffect(before, d);
    assert drafts[..k + 1][..k] == drafts[..k];
    assert stored == StoreRows(start, drafts[..k + 1]);
    EpochsOnlyGrow(start, drafts, k + 1);
    var s := StoreRows(start, drafts);
    hide StoreRow, NeedsTurn, IdKey, StoreRows;
    assert forall id :: Present(stored.rows, id) ==> Present(s.rows, id) by {
      forall id | Present(stored.rows, id) ensures Present(s.rows, id) {
        var i :| 0 <= i < |stored.rows| && stored.rows[i].id == id;
        assert s.rows[i] == stored.rows[i];
      }
    }
    SeenAgainChangesNothing(s, d);
  }

  // ---------------------------------------------------------------- the tables, updated in place

  class CaptureTables {
    var sessions: map<SessionId, Session>
    var turns: seq<Turn>
    var rows: seq<RawRow>

    ghost function Value(): State
      reads this
    {
      State(sessions, turns, rows)
    }

    constructor ()
      ensures Value() == EMPTY
    {
      sessions, turns, rows := map[], [], [];
    }

    method UpsertSession(d: Draft) returns (id: SessionId)
      modifies this`sessions
      ensures Value() == Upsert(old(Value()), d) && id == SessionOf(d) && id in sessions
    {
      id := SessionOf(d);
      if id !in sessions {
        sessions := sessions[id := Session(id, 0, Compaction.CompactionState(0, None), false)];
      } else if NewRoot(d, true) && sessions[id].conversation != id {
        sessions := sessions[id := sessions[id].(conversation := id)];
      }
    }

    method ReopenSession(id: SessionId)
      requires id in sessions
      modifies this`sessions
      ensures Value() == Reopen(old(Value()), id)
      ensures id in sessions && !sessions[id].ended && SameProgress(old(sessions)[id].(ended := false), sessions[id])
      ensures sessions.Keys == old(sessions).Keys && forall x :: x in sessions && x != id ==> sessions[x] == old(sessions)[x]
    {
      if sessions[id].ended {
        sessions := sessions[id := sessions[id].(ended := false)];
      }
    }

    method MoveEpoch(d: Draft, id: SessionId, key: seq<string>)
      requires id in sessions
      modifies this`sessions
      ensures Value() == AdvanceEpoch(old(Value()), d, id, key)
      ensures !d.whole ==> sessions == old(sessions)
      ensures OnlyEpochs(old(Value()), Value()) && forall x :: x in sessions && x != old(sessions)[id].conversation ==> sessions[x] == old(sessions)[x]
    {
      if !d.whole {
        return;
      }
      var root := sessions[id].conversation;
      if root in sessions {
        var next := Compaction.ApplyCompaction(d.agent == "claude", CompactionEvent(d), sessions[root].compaction,
            Flat(key));
        if next.Some? {
          sessions := sessions[root := sessions[root].(compaction := next.value)];
        }
      }
    }

    method PlaceTurn(d: Draft, id: SessionId) returns (turn: Option<nat>)
      requires id in sessions
      modifies this`sessions, this`turns
      ensures Value() == PlaceInTurn(old(Value()), d, id) && id in sessions
      ensures turn == if sessions[id].turnCount == 0 then None else Some(sessions[id].turnCount)
    {
      var count := sessions[id].turnCount;
      if d.kind.Prompt? {
        turns := turns + [Turn(id, count + 1, None)];
        sessions := sessions[id := sessions[id].(turnCount := count + 1)];
        return Some(count + 1);
      }
      if count == 0 {
        return None;
      }
      if d.kind.TurnEnd? {
        turns := EndTurn(turns, id, count, d.capturedAt);
      }
      turn := Some(count);
    }

    method StoreCapturedRow(d: Draft, id: SessionId, key: seq<string>)
      requires id in sessions
      modifies this
      ensures Value() == Capture(old(Value()), d, id, key)
    {
      ReopenSession(id);
      MoveEpoch(d, id, key);
      var turn := PlaceTurn(d, id);
      if d.kind.SessionEnd? {
        sessions := sessions[id := sessions[id].(ended := true)];
      }
      rows := rows + [RawRow(RepositoryId(key), id, d.kind, turn)];
    }

    /** The rows of one delivery, in order; a row seen before is skipped. */
    method StoreAll(drafts: seq<Draft>) returns (inserted: nat)
      modifies this
      ensures Value() == StoreRows(old(Value()), drafts)
      ensures |rows| == |old(rows)| + inserted
    {
      inserted := 0;
      for i := 0 to |drafts|
        invariant Value() == StoreRows(old(Value()), drafts[..i])
        invariant |rows| == |old(rows)| + inserted
      {
        hide Capture, Upsert, IdKey;
        assert drafts[..i + 1][..i] == drafts[..i];
        var d := drafts[i];
        var id := UpsertSession(d);
        RowsUntouched(StoreRows(old(Value()), drafts[..i]), d);
        var key := IdKey(d, TurnOrdinalOf(d.kind, sessions[id].turnCount));
        if !Present(rows, RepositoryId(key)) && !Present(rows, LegacyId(key)) {
          CaptureEffect(Value(), d, id, key);
          StoreCapturedRow(d, id, key);
          inserted := inserted + 1;
        }
      }
      assert drafts[..|drafts|] == drafts;
    }
  }

  lemma RowsUntouched(s: State, d: Draft)
    ensures Upsert(s, d).rows == s.rows
  {
  }
}
