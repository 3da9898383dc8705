/**
 * Which captured events are one event, said of their fields, and what a delivery of any events leaves:
 * a row for each event that is not the same as an earlier stored one (src/events.ts, eventIdKey;
 * src/capture.ts, storeRows).
 */
module CaptureIdentity {
  import opened Options
  import Compaction
  import opened CaptureSessions

  // ---------------------------------------------------------------- one event, delivered twice

  predicate IsTool(kind: Kind) {
    kind == ToolCall || kind == ToolResult || kind == ToolFailure
  }

  /** The agent's own value of the turn, or the turn's ordinal in decimal, or nothing. */
  predicate SameTurn(p: Option<string>, turn: Option<nat>, q: Option<string>, otherTurn: Option<nat>) {
    match (p, q)
    case (Some(a), Some(b)) => a == b
    case (None, None) => turn == otherTurn
    case (Some(a), None) => Writes(a, otherTurn)
    case (None, Some(b)) => Writes(b, turn)
  }

  predicate Writes(text: string, turn: Option<nat>) {
    text == if turn == None then "" else Decimal(turn.value)
  }

  /**
   * The rows tell the same event: of the same agent, session and kind, with the same call id for a tool
   * event, the same prompt id for a prompt with one, the same compaction key where it is set, and
   * otherwise the same turn and content; or the same name and hash of an unreadable payload.
   */
  predicate SameEvent(a: Draft, turn: Option<nat>, b: Draft, otherTurn: Option<nat>) {
    && a.agent == b.agent && a.nativeSession == b.nativeSession && a.kind == b.kind
    && match (a.identity, b.identity)
       case (OfEvent(e), OfEvent(f)) =>
         if IsTool(a.kind) then e.toolCallId == f.toolCallId
         else if a.kind == Prompt && (e.promptId != None || f.promptId != None) then e.promptId == f.promptId
         else if a.kind == CompactionSummary && (e.compactionKey != "" || f.compactionKey != "") then e.compactionKey == f.compactionKey
         else SameTurn(e.promptId, turn, f.promptId, otherTurn) && e.contentHash == f.contentHash
       case (OfPayload(name, hash), OfPayload(other, otherHash)) => name == other && hash == otherHash
       case (OfEvent(e), OfPayload(name, hash)) => HasTurn(a) && TurnReads(e.promptId, turn, name) && e.contentHash == hash
       case (OfPayload(name, hash), OfEvent(f)) => HasTurn(b) && TurnReads(f.promptId, otherTurn, name) && f.contentHash == hash
  }

  /** The event has no call id, prompt id or compaction key of its own to go by. */
  predicate HasTurn(d: Draft) {
    && d.identity.OfEvent? && !IsTool(d.kind) && (d.kind == Prompt ==> d.identity.event.promptId == None)
    && (d.kind == CompactionSummary ==> d.identity.event.compactionKey == "")
  }

  predicate TurnReads(p: Option<string>, turn: Option<nat>, text: string) {
    if p != None then text == p.value else Writes(text, turn)
  }

  function Value(digits: string): int {
    if digits == "" then 0 else 10 * Value(digits[..|digits| - 1]) + (digits[|digits| - 1] as int - '0' as int)
  }

  /** The decimal digits of a number read as that number, so two numbers never share them. */
  lemma {:induction false} DecimalReads(n: nat)
    ensures Decimal(n) != "" && Value(Decimal(n)) == n
    ensures forall i :: 0 <= i < |Decimal(n)| ==> '0' <= Decimal(n)[i] <= '9'
  {
    var digit := "0123456789"[n % 10];
    assert digit as int - '0' as int == n % 10;
    if n < 10 {
      assert Decimal(n) == [digit] && Decimal(n)[..0] == "";
    } else {
      DecimalReads(n / 10);
      var more := Decimal(n / 10);
      assert Decimal(n) == more + [digit];
      hide Decimal;
      assert (more + [digit])[..|more|] == more && (more + [digit])[|more|] == digit;
    }
  }

  lemma TurnsMatchExactly(p: Option<string>, turn: Option<nat>, q: Option<string>, otherTurn: Option<nat>)
    ensures TurnKey(p, turn) == TurnKey(q, otherTurn) <==> SameTurn(p, turn, q, otherTurn)
  {
    if turn.Some? {
      DecimalReads(turn.value);
    }
    if otherTurn.Some? {
      DecimalReads(otherTurn.value);
    }
    hide Decimal, Value;
  }

  lemma KindNamesDiffer(a: Kind, b: Kind)
    ensures KindName(a) == KindName(b) <==> a == b
  {
    if KindName(a) == KindName(b) {
      assert |KindName(a)| == |KindName(b)| && KindName(a)[0] == KindName(b)[0];
    }
  }

  /** What a key says beside the agent, the session and the kind. */
  function Own(d: Draft, turn: Option<nat>): (own: seq<string>)
    ensures IdKey(d, turn) == ["v1", d.agent, d.nativeSession, KindName(d.kind)] + own
  {
    IdKey(d, turn)[4..]
  }

  lemma PartsMatch(a: Draft, turn: Option<nat>, b: Draft, otherTurn: Option<nat>)
    ensures IdKey(a, turn) == IdKey(b, otherTurn) <==>
              a.agent == b.agent && a.nativeSession == b.nativeSession && a.kind == b.kind && Own(a, turn) == Own(b, otherTurn)
  {
    KindNamesDiffer(a.kind, b.kind);
    var x, y := Own(a, turn), Own(b, otherTurn);
    hide KindName, IdKey, Own;
    var u, v := ["v1", a.agent, a.nativeSession, KindName(a.kind)] + x, ["v1", b.agent, b.nativeSession, KindName(b.kind)] + y;
    assert u[1] == a.agent && u[2] == a.nativeSession && u[3] == KindName(a.kind) && u[4..] == x;
    assert v[1] == b.agent && v[2] == b.nativeSession && v[3] == KindName(b.kind) && v[4..] == y;
  }

  lemma OwnIs(d: Draft, turn: Option<nat>)
    ensures Own(d, turn) ==
      match d.identity
      case OfPayload(name, hash) => [name, hash]
      case OfEvent(e) =>
        if IsTool(d.kind) then [e.toolCallId]
        else if d.kind == Prompt && e.promptId != None then [e.promptId.value]
        else if d.kind == CompactionSummary && e.compactionKey != "" then [e.compactionKey]
        else [TurnKey(e.promptId, turn), e.contentHash]
  {
    hide KindName, TurnKey;
  }

  lemma PairsEqual(a: string, b: string, c: string, d: string)
    ensures [a, b] == [c, d] <==> a == c && b == d
    ensures [a] != [c, d] && [a, b] != [c] && ([a] == [c] <==> a == c)
  {
    assert [a, b][0] == a && [a, b][1] == b && [c, d][0] == c && [c, d][1] == d && [a][0] == a && [c][0] == c;
  }

  lemma EventsMatch(a: Draft, turn: Option<nat>, b: Draft, otherTurn: Option<nat>)
    requires a.agent == b.agent && a.nativeSession == b.nativeSession && a.kind == b.kind
    ensures Own(a, turn) == Own(b, otherTurn) <==> SameEvent(a, turn, b, otherTurn)
  {
    OwnIs(a, turn);
    OwnIs(b, otherTurn);
    hide Own, TurnKey, SameTurn, Decimal;
    match (a.identity, b.identity)
    case (OfEvent(e), OfEvent(f)) =>
      TurnsMatchExactly(e.promptId, turn, f.promptId, otherTurn);
      PairsEqual(TurnKey(e.promptId, turn), e.contentHash, TurnKey(f.promptId, otherTurn), f.contentHash);
    case (OfPayload(name, hash), OfPayload(other, otherHash)) =>
      PairsEqual(name, hash, other, otherHash);
    case (OfEvent(e), OfPayload(name, hash)) =>
      TurnReadsExactly(e.promptId, turn, name);
      PairsEqual(TurnKey(e.promptId, turn), e.contentHash, name, hash);
    case (OfPayload(name, hash), OfEvent(f)) =>
      TurnReadsExactly(f.promptId, otherTurn, name);
      PairsEqual(name, hash, TurnKey(f.promptId, otherTurn), f.contentHash);
  }

  lemma TurnReadsExactly(p: Option<string>, turn: Option<nat>, text: string)
    ensures TurnKey(p, turn) == text <==> TurnReads(p, turn, text)
  {
  }

  /** Two rows have one key exactly if they tell the same event. */
  lemma KeysMatchExactly(a: Draft, turn: Option<nat>, b: Draft, otherTurn: Option<nat>)
    ensures IdKey(a, turn) == IdKey(b, otherTurn) <==> SameEvent(a, turn, b, otherTurn)
  {
    PartsMatch(a, turn, b, otherTurn);
    if a.agent == b.agent && a.nativeSession == b.nativeSession && a.kind == b.kind {
      EventsMatch(a, turn, b, otherTurn);
    }
    hide IdKey, Own;
  }

  // ---------------------------------------------------------------- which events a run stores

  /** The stored prompts of a session among the first n events. */
  ghost function PromptsBefore(drafts: seq<Draft>, n: nat, id: SessionId): nat
    requires n <= |drafts|
    decreases n, 0
  {
    if n == 0 then 0
    else
      PromptsBefore(drafts, n - 1, id)
      + if drafts[n - 1].kind == Prompt && (drafts[n - 1].agent, drafts[n - 1].nativeSession) == id && Accepted(drafts, n - 1)
        then 1 else 0
  }

  /** The turn the n-th event belongs to: a prompt opens the next one, any other event goes to the last. */
  ghost function TurnAt(drafts: seq<Draft>, n: nat): Option<nat>
    requires n < |drafts|
    decreases n, 1
  {
    var count := PromptsBefore(drafts, n, (drafts[n].agent, drafts[n].nativeSession));
    if drafts[n].kind == Prompt then Some(count + 1) else if count == 0 then None else Some(count)
  }

  /** No earlier stored event is the same event, each in the turn it arrived in. */
  ghost predicate Accepted(drafts: seq<Draft>, n: nat)
    requires n < |drafts|
    decreases n, 2
  {
    !exists k :: 0 <= k < n && Accepted(drafts, k) && SameEvent(drafts[k], TurnAt(drafts, k), drafts[n], TurnAt(drafts, n))
  }

  ghost predicate StoredKey(drafts: seq<Draft>, n: nat, key: seq<string>)
    requires n <= |drafts|
  {
    exists k :: 0 <= k < n && Accepted(drafts, k) && IdKey(drafts[k], TurnAt(drafts, k)) == key
  }

  /** The tables after n events know the stored prompts and exactly the stored events. */
  ghost predicate Follows(drafts: seq<Draft>, n: nat, s: State)
    requires n <= |drafts|
  {
    && (forall id :: TurnsOf(s, id) == PromptsBefore(drafts, n, id))
    && (forall i :: 0 <= i < |s.rows| ==> s.rows[i].id.RepositoryId?)
    && (forall key :: Present(s.rows, RepositoryId(key)) <==> StoredKey(drafts, n, key))
  }

  lemma SeenExactly(drafts: seq<Draft>, n: nat)
    requires n < |drafts|
    ensures StoredKey(drafts, n, IdKey(drafts[n], TurnAt(drafts, n))) <==> !Accepted(drafts, n)
  {
    forall k | 0 <= k < n
      ensures IdKey(drafts[k], TurnAt(drafts, k)) == IdKey(drafts[n], TurnAt(drafts, n)) <==>
                SameEvent(drafts[k], TurnAt(drafts, k), drafts[n], TurnAt(drafts, n))
    {
      KeysMatchExactly(drafts[k], TurnAt(drafts, k), drafts[n], TurnAt(drafts, n));
    }
    hide IdKey, SameEvent, TurnAt, PromptsBefore;
  }

  function TurnsOf(s: State, id: SessionId): nat {
    if id in s.sessions then s.sessions[id].turnCount else 0
  }

  ghost predicate Appends(s: State, t: State, d: Draft, turn: Option<nat>, accepted: bool) {
    t.rows == if accepted then s.rows + [RawRow(RepositoryId(IdKey(d, turn)), (d.agent, d.nativeSession), d.kind, turn)]
              else s.rows
  }

  function TurnNow(s: State, d: Draft): Option<nat> {
    var count := TurnsOf(s, (d.agent, d.nativeSession));
    if d.kind == Prompt then Some(count + 1) else if count == 0 then None else Some(count)
  }

  predicate Seen(s: State, d: Draft) {
    Present(s.rows, RepositoryId(IdKey(d, TurnNow(s, d)))) || Present(s.rows, LegacyId(IdKey(d, TurnNow(s, d))))
  }

  lemma StoreRowAppends(s: State, d: Draft)
    ensures Appends(s, StoreRow(s, d), d, TurnNow(s, d), !Seen(s, d))
    ensures forall id :: TurnsOf(StoreRow(s, d), id) ==
              TurnsOf(s, id) + if !Seen(s, d) && d.kind == Prompt && id == (d.agent, d.nativeSession) then 1 else 0
  {
    var t := Upsert(s, d);
    UpsertTurns(s, d);
    CaptureEffect(t, d, SessionOf(d), IdKey(d, TurnNow(s, d)));
    hide Upsert, Capture, IdKey, EndTurn, Present;
  }

  lemma UpsertTurns(s: State, d: Draft)
    ensures var t := Upsert(s, d);
      && SessionOf(d) in t.sessions && t.rows == s.rows
      && TurnNow(s, d) == TurnOrdinalOf(d.kind, t.sessions[SessionOf(d)].turnCount)
      && forall id :: TurnsOf(t, id) == TurnsOf(s, id)
  {
  }

  lemma TurnFollows(drafts: seq<Draft>, n: nat, s: State)
    requires n < |drafts| && forall id :: TurnsOf(s, id) == PromptsBefore(drafts, n, id)
    ensures TurnNow(s, drafts[n]) == TurnAt(drafts, n)
  {
    hide PromptsBefore, TurnsOf;
  }

  lemma FollowsMeans(drafts: seq<Draft>, n: nat, s: State)
    requires n < |drafts| && Follows(drafts, n, s)
    ensures TurnNow(s, drafts[n]) == TurnAt(drafts, n) && (Seen(s, drafts[n]) <==> !Accepted(drafts, n))
    ensures forall id :: TurnsOf(s, id) == PromptsBefore(drafts, n, id)
  {
    hide IdKey, Accepted, StoredKey, PromptsBefore, TurnAt, TurnNow, Present, TurnsOf;
    TurnFollows(drafts, n, s);
    SeenExactly(drafts, n);
    NoLegacy(s, IdKey(drafts[n], TurnAt(drafts, n)));
  }

  lemma NoLegacy(s: State, key: seq<string>)
    requires forall i :: 0 <= i < |s.rows| ==> s.rows[i].id.RepositoryId?
    ensures !Present(s.rows, LegacyId(key))
  {
  }

  lemma PromptsNext(drafts: seq<Draft>, n: nat, id: SessionId)
    requires n < |drafts|
    ensures PromptsBefore(drafts, n + 1, id) == PromptsBefore(drafts, n, id)
      + if Accepted(drafts, n) && drafts[n].kind == Prompt && id == (drafts[n].agent, drafts[n].nativeSession) then 1 else 0
  {
    hide Accepted;
  }

  lemma StoreRowFollows(drafts: seq<Draft>, n: nat, s: State)
    requires n < |drafts| && Follows(drafts, n, s)
    ensures Appends(s, StoreRow(s, drafts[n]), drafts[n], TurnAt(drafts, n), Accepted(drafts, n))
    ensures forall id :: TurnsOf(StoreRow(s, drafts[n]), id) == PromptsBefore(drafts, n + 1, id)
  {
    StoreRowAppends(s, drafts[n]);
    FollowsMeans(drafts, n, s);
    hide StoreRow, Accepted, Seen, Appends, Follows, TurnAt, TurnNow, PromptsBefore, TurnsOf;
    forall id ensures TurnsOf(StoreRow(s, drafts[n]), id) == PromptsBefore(drafts, n + 1, id) {
      PromptsNext(drafts, n, id);
    }
  }

  lemma PresentAppended(rows: seq<RawRow>, row: RawRow, id: RowId)
    ensures Present(rows + [row], id) <==> Present(rows, id) || row.id == id
  {
    var more := rows + [row];
    if Present(rows, id) {
      var i :| 0 <= i < |rows| && rows[i].id == id;
      assert more[i].id == id;
    }
    assert more[|rows|] == row;
  }

  lemma FollowsNext(drafts: seq<Draft>, n: nat, s: State)
    requires n < |drafts| && Follows(drafts, n, s)
    ensures Follows(drafts, n + 1, StoreRow(s, drafts[n]))
  {
    StoreRowFollows(drafts, n, s);
    var t := StoreRow(s, drafts[n]);
    hide StoreRow, PromptsBefore, TurnAt, Accepted, IdKey, Present, StoredKey;
    forall key ensures Present(t.rows, RepositoryId(key)) <==> StoredKey(drafts, n + 1, key) {
      if Accepted(drafts, n) {
        PresentAppended(s.rows, t.rows[|s.rows|], RepositoryId(key));
      }
      StoredKeyNext(drafts, n, key);
    }
  }

  lemma StoredKeyNext(drafts: seq<Draft>, n: nat, key: seq<string>)
    requires n < |drafts|
    ensures StoredKey(drafts, n + 1, key) <==>
              StoredKey(drafts, n, key) || (Accepted(drafts, n) && IdKey(drafts[n], TurnAt(drafts, n)) == key)
  {
    hide IdKey, TurnAt, Accepted;
  }

  lemma {:induction false} RunFollows(drafts: seq<Draft>, n: nat)
    requires n <= |drafts|
    ensures Follows(drafts, n, StoreRows(EMPTY, drafts[..n]))
  {
    hide Follows, StoreRow;
    if n == 0 {
      assert drafts[..0] == [];
      NothingFollows(drafts);
    } else {
      RunFollows(drafts, n - 1);
      assert drafts[..n][..n - 1] == drafts[..n - 1];
      FollowsNext(drafts, n - 1, StoreRows(EMPTY, drafts[..n - 1]));
    }
  }

  lemma NothingFollows(drafts: seq<Draft>)
    ensures Follows(drafts, 0, EMPTY)
  {
    hide Accepted, IdKey;
  }

  /**
   * An event of a run is stored exactly if it is not the same as an earlier stored one, under the
   * session and turn it arrived in; otherwise no row is added.
   */
  lemma StoredExactly(drafts: seq<Draft>, n: nat)
    requires n < |drafts|
    ensures Appends(StoreRows(EMPTY, drafts[..n]), StoreRows(EMPTY, drafts[..n + 1]), drafts[n], TurnAt(drafts, n),
      Accepted(drafts, n))
  {
    RunFollows(drafts, n);
    assert drafts[..n + 1][..n] == drafts[..n];
    StoreRowFollows(drafts, n, StoreRows(EMPTY, drafts[..n]));
    hide Follows, StoreRow, Appends;
  }

  // ---------------------------------------------------------------- what one event leaves in the tables

  /** The session as the event finds it: new, detached from its root by a new conversation, or as stored. */
  function Joined(s: State, d: Draft): Session {
    var id := (d.agent, d.nativeSession);
    if id !in s.sessions then Session(id, 0, Compaction.CompactionState(0, None), false)
    else if d.agent == "unknown" || d.source == Some(Fork) || d.source == Some(New)
    then Session(id, s.sessions[id].turnCount, s.sessions[id].compaction, s.sessions[id].ended)
    else s.sessions[id]
  }

  /** The epoch after the event, of the session at the root of its conversation. */
  function Moved(d: Draft, state: Compaction.CompactionState, key: seq<string>): Compaction.CompactionState {
    if !d.whole then state
    else if d.kind == SessionStart && d.source == Some(Compact) then
      Compaction.Step(d.agent == "claude", state, Compaction.SessionStartCompact, Flat(key))
    else if d.kind == CompactionSummary && d.identity.OfEvent? then
      Compaction.Step(d.agent == "claude", state, Compaction.CompactionSummary(d.identity.event.compactionKey), Flat(key))
    else state
  }

  /** A prompt opens the session's next turn; a turn end closes its last one. */
  ghost predicate TurnsOutcome(s: State, d: Draft, turns: seq<Turn>) {
    var id, count := (d.agent, d.nativeSession), Joined(s, d).turnCount;
    if d.kind == Prompt then turns == s.turns + [Turn(id, count + 1, None)]
    else
      && |turns| == |s.turns|
      && forall i :: 0 <= i < |turns| ==>
           turns[i] == if d.kind == TurnEnd && count > 0 && s.turns[i].session == id && s.turns[i].ordinal == count
                       then Turn(id, count, Some(d.capturedAt)) else s.turns[i]
  }

  ghost predicate SessionsOutcome(s: State, d: Draft, t: State, key: seq<string>) {
    var id, own := (d.agent, d.nativeSession), Joined(s, d);
    && t.sessions.Keys == s.sessions.Keys + {id}
    && t.sessions[id] == Session(own.conversation, own.turnCount + (if d.kind == Prompt then 1 else 0),
         if own.conversation == id then Moved(d, own.compaction, key) else own.compaction, d.kind == SessionEnd)
    && forall x :: x in s.sessions && x != id ==>
         t.sessions[x] == Session(s.sessions[x].conversation, s.sessions[x].turnCount,
           if x == own.conversation then Moved(d, s.sessions[x].compaction, key) else s.sessions[x].compaction,
           s.sessions[x].ended)
  }

  ghost predicate RowOutcome(s: State, d: Draft, t: State) {
    if Seen(s, d) then t == State(s.sessions[(d.agent, d.nativeSession) := Joined(s, d)], s.turns, s.rows)
    else
      && Appends(s, t, d, TurnNow(s, d), true) && TurnsOutcome(s, d, t.turns)
      && SessionsOutcome(s, d, t, IdKey(d, TurnNow(s, d)))
  }

  lemma {:induction false} EndTurnMeans(turns: seq<Turn>, id: SessionId, ordinal: nat, at: int)
    ensures |EndTurn(turns, id, ordinal, at)| == |turns|
    ensures forall i :: 0 <= i < |turns| ==>
      EndTurn(turns, id, ordinal, at)[i] ==
        if turns[i].session == id && turns[i].ordinal == ordinal then Turn(id, ordinal, Some(at)) else turns[i]
  {
    if turns != [] {
      EndTurnMeans(turns[..|turns| - 1], id, ordinal, at);
    }
  }

  lemma JoinedByUpsert(s: State, d: Draft)
    ensures Upsert(s, d) == State(s.sessions[(d.agent, d.nativeSession) := Joined(s, d)], s.turns, s.rows)
  {
    var id := (d.agent, d.nativeSession);
    assert id in s.sessions ==> s.sessions[id := s.sessions[id]] == s.sessions;
  }

  lemma EpochMoves(s: State, d: Draft, id: SessionId, key: seq<string>)
    requires id in s.sessions
    ensures var t, root := AdvanceEpoch(s, d, id, key), s.sessions[id].conversation;
      && t.turns == s.turns && t.rows == s.rows && t.sessions.Keys == s.sessions.Keys
      && forall x :: x in s.sessions ==>
           t.sessions[x] == Session(s.sessions[x].conversation, s.sessions[x].turnCount,
             if x == root then Moved(d, s.sessions[x].compaction, key) else s.sessions[x].compaction, s.sessions[x].ended)
  {
    hide Flat;
  }

  lemma PlaceMeans(s: State, d: Draft, id: SessionId, key: seq<string>)
    requires id in s.sessions && !s.sessions[id].ended
    ensures var t, own := Finish(PlaceInTurn(s, d, id), d, id, key), s.sessions[id];
      && t.sessions == s.sessions[id := Session(own.conversation, own.turnCount + (if d.kind == Prompt then 1 else 0),
           own.compaction, d.kind == SessionEnd)]
      && t.turns == if d.kind == Prompt then s.turns + [Turn(id, own.turnCount + 1, None)]
                    else if d.kind == TurnEnd && own.turnCount > 0 then EndTurn(s.turns, id, own.turnCount, d.capturedAt)
                    else s.turns
  {
    hide EndTurn;
    assert s.sessions[id := s.sessions[id]] == s.sessions;
  }

  lemma CaptureTurns(s: State, d: Draft, key: seq<string>)
    requires (d.agent, d.nativeSession) in s.sessions && Joined(s, d) == s.sessions[(d.agent, d.nativeSession)]
    ensures TurnsOutcome(s, d, Capture(s, d, (d.agent, d.nativeSession), key).turns)
  {
    var id := (d.agent, d.nativeSession);
    CaptureEffect(s, d, id, key);
    EndTurnMeans(s.turns, id, s.sessions[id].turnCount, d.capturedAt);
    hide Joined, Capture, EndTurn, IdKey;
  }

  /** Reopening, moving the epoch and placing the row, one after the other, for one session. */
  lemma SessionsThrough(s: State, r: State, a: State, t: State, d: Draft, key: seq<string>)
    requires (d.agent, d.nativeSession) in s.sessions && Joined(s, d) == s.sessions[(d.agent, d.nativeSession)]
    requires Reopened(s, r, (d.agent, d.nativeSession)) && a.sessions.Keys == r.sessions.Keys
    requires forall x :: x in r.sessions ==>
               a.sessions[x] == Session(r.sessions[x].conversation, r.sessions[x].turnCount,
                 if x == Joined(s, d).conversation then Moved(d, r.sessions[x].compaction, key) else r.sessions[x].compaction,
                 r.sessions[x].ended)
    requires var id := (d.agent, d.nativeSession);
             t.sessions == a.sessions[id := Session(a.sessions[id].conversation,
               a.sessions[id].turnCount + (if d.kind == Prompt then 1 else 0), a.sessions[id].compaction, d.kind == SessionEnd)]
    ensures SessionsOutcome(s, d, t, key)
  {
    hide Moved, Joined;
  }

  lemma CaptureMeans(s: State, d: Draft, key: seq<string>)
    requires (d.agent, d.nativeSession) in s.sessions && Joined(s, d) == s.sessions[(d.agent, d.nativeSession)]
    ensures SessionsOutcome(s, d, Capture(s, d, (d.agent, d.nativeSession), key), key)
  {
    var id := (d.agent, d.nativeSession);
    var reopened := Reopen(s, id);
    var advanced := AdvanceEpoch(reopened, d, id, key);
    ReopenEffect(s, id);
    EpochMoves(reopened, d, id, key);
    PlaceMeans(advanced, d, id, key);
    hide Moved, Joined, Reopen, AdvanceEpoch, PlaceInTurn, Finish, SessionsOutcome, EndTurn;
    SessionsThrough(s, reopened, advanced, Capture(s, d, id, key), d, key);
  }

  /** Every event, in any tables: what becomes of the sessions, the turns and the rows. */
  lemma StoreRowMeans(s: State, d: Draft)
    ensures RowOutcome(s, d, StoreRow(s, d))
  {
    var t, id, key := Upsert(s, d), (d.agent, d.nativeSession), IdKey(d, TurnNow(s, d));
    StoreRowAppends(s, d);
    UpsertTurns(s, d);
    JoinedByUpsert(s, d);
    hide Upsert, Capture, IdKey, Moved, Present, TurnOrdinalOf, TurnNow, SessionsOutcome, TurnsOutcome, Appends;
    assert Joined(t, d) == Joined(s, d) && Joined(t, d) == t.sessions[id];
    hide Joined;
    CaptureMeans(t, d, key);
    CaptureTurns(t, d, key);
    OutcomeBefore(s, t, d, StoreRow(s, d), key);
  }

  lemma OutcomeBefore(s: State, t: State, d: Draft, u: State, key: seq<string>)
    requires t == State(s.sessions[(d.agent, d.nativeSession) := Joined(s, d)], s.turns, s.rows)
    requires Joined(t, d) == Joined(s, d)
    ensures SessionsOutcome(t, d, u, key) ==> SessionsOutcome(s, d, u, key)
    ensures TurnsOutcome(t, d, u.turns) ==> TurnsOutcome(s, d, u.turns)
  {
    hide Joined, Moved;
  }

  // ---------------------------------------------------------------- the identity a compaction is told by

  /** Keys whose parts have no NUL are told apart by the one text made of them. */
  lemma {:induction false} FlatTellsApart(a: seq<string>, b: seq<string>)
    requires forall i :: 0 <= i < |a| ==> '\0' !in a[i]
    requires forall i :: 0 <= i < |b| ==> '\0' !in b[i]
    ensures Flat(a) == Flat(b) <==> a == b
  {
    if a != [] && b != [] && Flat(a) == Flat(b) {
      FirstPartsEqual(a[0], Flat(a[1..]), b[0], Flat(b[1..]));
      FlatTellsApart(a[1..], b[1..]);
      assert a == [a[0]] + a[1..] && b == [b[0]] + b[1..];
    } else if a != [] && b == [] {
      assert |Flat(a)| > 0;
    } else if a == [] && b != [] {
      assert |Flat(b)| > 0;
    }
  }

  lemma FirstPartsEqual(x: string, restX: string, y: string, restY: string)
    requires '\0' !in x && '\0' !in y && x + "\0" + restX == y + "\0" + restY
    ensures x == y && restX == restY
  {
    var s := x + "\0" + restX;
    assert s == y + "\0" + restY;
    assert s[|x|] == '\0' && s[|y|] == '\0';
    assert forall i :: 0 <= i < |x| ==> s[i] == x[i];
    assert forall i :: 0 <= i < |y| ==> s[i] == y[i];
    assert |x| == |y|;
    assert restX == s[|x| + 1..] && restY == s[|y| + 1..];
  }
}
