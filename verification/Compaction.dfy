/**
 * The context epoch of a conversation (src/capture-compaction.ts): one step per compaction, although
 * Claude Code reports each compaction through two hooks that may commit in either order.
 */
module Compaction {
  import opened Options

  const START_KEY: string := "session_start:compact"
  const POST_PREFIX: string := "post_compact:"

  datatype CompactionState = CompactionState(epoch: nat, lastKey: Option<string>)

  /** The events that matter here; every other kind leaves the epoch alone. */
  datatype Event = SessionStartCompact | CompactionSummary(compactionKey: string) | OtherEvent

  predicate StartsWith(s: string, prefix: string) {
    |prefix| <= |s| && s[..|prefix|] == prefix
  }

  /** The compaction the current epoch belongs to, whichever hook opened it. */
  function OpenedKey(stored: Option<string>): Option<string> {
    if stored.Some? && StartsWith(stored.value, POST_PREFIX) then Some(stored.value[|POST_PREFIX|..]) else stored
  }

  function KeyOf(event: Event, eventIdentity: string): string
    requires event.CompactionSummary?
  {
    if event.compactionKey != "" then event.compactionKey else eventIdentity
  }

  function ApplyCompaction(claude: bool, event: Event, state: CompactionState,
      eventIdentity: string): Option<CompactionState> {
    var current := OpenedKey(state.lastKey);
    if claude && event.SessionStartCompact? then
      if state.lastKey == Some(START_KEY) then None
      else if current != state.lastKey then Some(state.(lastKey := current))
      else Some(CompactionState(state.epoch + 1, Some(START_KEY)))
    else if !event.CompactionSummary? then None
    else
      var key := KeyOf(event, eventIdentity);
      if current == Some(key) then None
      else if claude && state.lastKey == Some(START_KEY) then Some(state.(lastKey := Some(key)))
      else Some(CompactionState(state.epoch + 1, Some(if claude then POST_PREFIX + key else key)))
  }

  function Step(claude: bool, state: CompactionState, event: Event, eventIdentity: string): CompactionState {
    ApplyCompaction(claude, event, state, eventIdentity).GetOr(state)
  }

  // ---------------------------------------------------------------- Claude Code: two hooks, one epoch

  /** How one compaction's hooks commit. PostCompact always arrives; its companion may come first, last or never. */
  datatype Order = StartFirst | PostFirst | PostAlone

  datatype Compaction = Compaction(event: Event, eventIdentity: string, order: Order)

  predicate Plain(key: string) {
    key != START_KEY && !StartsWith(key, POST_PREFIX)
  }

  /** The key a compaction is reported under. */
  function ReportedKey(c: Compaction): Option<string> {
    if c.event.CompactionSummary? then Some(KeyOf(c.event, c.eventIdentity)) else None
  }

  predicate Reports(c: Compaction) {
    ReportedKey(c).Some? && Plain(ReportedKey(c).value)
  }

  function Deliver(state: CompactionState, c: Compaction): CompactionState {
    match c.order
    case StartFirst => Step(true, Step(true, state, SessionStartCompact, ""), c.event, c.eventIdentity)
    case PostFirst => Step(true, Step(true, state, c.event, c.eventIdentity), SessionStartCompact, "")
    case PostAlone => Step(true, state, c.event, c.eventIdentity)
  }

  function DeliverAll(state: CompactionState, cs: seq<Compaction>): CompactionState {
    if cs == [] then state else Deliver(DeliverAll(state, cs[..|cs| - 1]), cs[|cs| - 1])
  }

  /** No hook is waiting for a PostCompact: the key is absent, plain, or marked as waiting for its companion. */
  predicate Ready(state: CompactionState) {
    state.lastKey != Some(START_KEY)
    && (OpenedKey(state.lastKey).Some? ==> Plain(OpenedKey(state.lastKey).value))
  }

  lemma MarkedOpensKey(key: string)
    requires Plain(key)
    ensures StartsWith(POST_PREFIX + key, POST_PREFIX) && OpenedKey(Some(POST_PREFIX + key)) == Some(key)
    ensures POST_PREFIX + key != START_KEY && OpenedKey(Some(key)) == Some(key)
    ensures OpenedKey(Some(START_KEY)) == Some(START_KEY)
  {
    assert (POST_PREFIX + key)[..|POST_PREFIX|] == POST_PREFIX;
    assert START_KEY[0] == 's' && (POST_PREFIX + key)[0] == 'p';
  }

  /** One compaction with a new key: the epoch advances once, whatever the order of its hooks. */
  lemma DeliveryAdvancesOnce(state: CompactionState, c: Compaction)
    requires Ready(state) && Reports(c) && OpenedKey(state.lastKey) != ReportedKey(c)
    ensures var after := Deliver(state, c);
            after.epoch == state.epoch + 1 && Ready(after) && OpenedKey(after.lastKey) == ReportedKey(c)
  {
    MarkedOpensKey(KeyOf(c.event, c.eventIdentity));
    hide StartsWith;
  }

  function KeyAfter(state: CompactionState, cs: seq<Compaction>): Option<string> {
    if cs == [] then OpenedKey(state.lastKey) else ReportedKey(cs[|cs| - 1])
  }

  /** Each compaction has another key than the one before it, the first another than the open one. */
  ghost predicate NeighboursDiffer(state: CompactionState, cs: seq<Compaction>) {
    forall i :: 0 <= i < |cs| ==> KeyAfter(state, cs[..i]) != ReportedKey(cs[i])
  }

  /** n compactions whose neighbouring keys differ advance the epoch by exactly n. */
  lemma {:induction false} EpochCountsCompactions(state: CompactionState, cs: seq<Compaction>)
    requires Ready(state) && NeighboursDiffer(state, cs) && forall i :: 0 <= i < |cs| ==> Reports(cs[i])
    ensures var after := DeliverAll(state, cs);
            after.epoch == state.epoch + |cs| && Ready(after) && OpenedKey(after.lastKey) == KeyAfter(state, cs)
  {
    if cs != [] {
      var n := |cs| - 1;
      assert forall i :: 0 <= i < n ==> cs[..n][..i] == cs[..i];
      EpochCountsCompactions(state, cs[..n]);
      hide Ready, OpenedKey, Deliver, ReportedKey, KeyAfter;
      DeliveryAdvancesOnce(DeliverAll(state, cs[..n]), cs[n]);
      KeyAfterLast(state, cs);
    }
  }

  lemma KeyAfterLast(state: CompactionState, cs: seq<Compaction>)
    requires cs != []
    ensures KeyAfter(state, cs) == ReportedKey(cs[|cs| - 1])
  {
  }

  /** A compaction reported again changes nothing. */
  lemma RepeatChangesNothing(state: CompactionState, c: Compaction)
    requires Reports(c) && OpenedKey(state.lastKey) == ReportedKey(c)
    ensures Step(true, state, c.event, c.eventIdentity) == state
  {
  }

  /** PostCompact must arrive: without it the next compaction does not open an epoch of its own. */
  lemma LostPostCompactMergesEpochs(epoch: nat, next: Compaction)
    requires Reports(next) && next.order.StartFirst?
    ensures var lost := Step(true, CompactionState(epoch, None), SessionStartCompact, "");
            lost.epoch == epoch + 1 && Deliver(lost, next).epoch == epoch + 1
  {
    MarkedOpensKey(KeyOf(next.event, next.eventIdentity));
  }

  // ---------------------------------------------------------------- the other agents

  /** Events of one agent without the companion hook: compactions, and anything else in between. */
  datatype Observed = Observed(event: Event, eventIdentity: string)

  function ObserveAll(state: CompactionState, events: seq<Observed>): CompactionState {
    if events == [] then state
    else Step(false, ObserveAll(state, events[..|events| - 1]), events[|events| - 1].event,
        events[|events| - 1].eventIdentity)
  }

  /** The keys reported, in order. */
  function Keys(events: seq<Observed>): seq<string> {
    if events == [] then []
    else
      var last := events[|events| - 1];
      Keys(events[..|events| - 1]) + if last.event.CompactionSummary? then [KeyOf(last.event,
          last.eventIdentity)] else []
  }

  function LastOf(before: Option<string>, keys: seq<string>): Option<string> {
    if keys == [] then before else Some(keys[|keys| - 1])
  }

  function Changes(before: Option<string>, keys: seq<string>): nat {
    if keys == [] then 0
    else
      var n := |keys| - 1;
      Changes(before, keys[..n]) + if LastOf(before, keys[..n]) == Some(keys[n]) then 0 else 1
  }

  lemma ObservedOnce(state: CompactionState, e: Observed)
    requires state.lastKey.Some? ==> Plain(state.lastKey.value)
    ensures var after := Step(false, state, e.event, e.eventIdentity);
            if e.event.CompactionSummary? then
              && after.lastKey == Some(KeyOf(e.event, e.eventIdentity))
              && after.epoch == state.epoch + if state.lastKey == after.lastKey then 0 else 1
            else after == state
  {
  }

  lemma {:induction false} ChangesOnce(before: Option<string>, keys: seq<string>, key: string)
    ensures Changes(before, keys + [key]) == Changes(before, keys) + if LastOf(before, keys) == Some(key) then 0 else 1
    ensures LastOf(before, keys + [key]) == Some(key)
  {
    assert (keys + [key])[..|keys|] == keys;
  }

  /** One report per compaction: the epoch counts the changes of key. */
  lemma {:induction false} EpochCountsChanges(state: CompactionState, events: seq<Observed>)
    requires state.lastKey.Some? ==> Plain(state.lastKey.value)
    requires forall i :: 0 <= i < |Keys(events)| ==> Plain(Keys(events)[i])
    ensures var after := ObserveAll(state, events);
            && after.epoch == state.epoch + Changes(state.lastKey, Keys(events))
            && after.lastKey == LastOf(state.lastKey, Keys(events))
  {
    if events != [] {
      var n := |events| - 1;
      var before := Keys(events[..n]);
      hide Step, Changes;
      assert Keys(events) == before + if events[n].event.CompactionSummary? then [KeyOf(events[n].event,
          events[n].eventIdentity)] else [];
      assert forall i :: 0 <= i < |before| ==> before[i] == Keys(events)[i];
      EpochCountsChanges(state, events[..n]);
      hide Keys;
      ObservedOnce(ObserveAll(state, events[..n]), events[n]);
      if events[n].event.CompactionSummary? {
        ChangesOnce(state.lastKey, before, KeyOf(events[n].event, events[n].eventIdentity));
      } else {
        assert before + [] == before;
      }
    }
  }

  /** A second report opens another epoch exactly if it tells another key, or without one comes from another event. */
  lemma SecondReportAdvancesExactly(state: CompactionState, key: string, id: string, other: string, otherId: string)
    requires Plain(if key == "" then id else key)
    ensures var once := Step(false, state, CompactionSummary(key), id);
            var twice := Step(false, once, CompactionSummary(other), otherId);
            && (state.lastKey == None ==> once.epoch == state.epoch + 1)
            && twice.epoch == once.epoch + if (if key == "" then id else key) == (if other == "" then otherId else other) then 0 else 1
  {
    var told := if key == "" then id else key;
    assert !StartsWith(told, POST_PREFIX) && OpenedKey(Some(told)) == Some(told);
  }
}
