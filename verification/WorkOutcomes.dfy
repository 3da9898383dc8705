/**
 * What binding a captured source, choosing a work and choosing one for a legacy source leave in the
 * tables (src/work.ts), said of works, bindings and sources field by field.
 */
module WorkOutcomes {
  import opened Options
  import opened WorkBindings

  // ---------------------------------------------------------------- vocabulary

  predicate IsOpen(s: State, session: string, b: BindingId) {
    b in s.bindings && s.bindings[b].session == session && s.bindings[b].closedAt == None
  }

  predicate IsActive(s: State, w: WorkId) {
    w in s.works && s.works[w].state == Active
  }

  /** An active work that started in the context or was bound there. */
  ghost predicate Candidate(s: State, context: string, w: WorkId) {
    && IsActive(s, w)
    && (s.works[w].originContext == context
        || exists b :: b in s.bindings && s.bindings[b].work == Some(w) && s.bindings[b].context == context)
  }

  /** The first 300 characters of the declared purpose, or else of what the user said. */
  predicate SaysPurpose(i: Input, purpose: Option<string>) {
    var text := if i.declaration != None then i.declaration.value else i.direct;
    if text == "" then purpose == None
    else purpose != None && |purpose.value| == (if |text| < 300 then |text| else 300) && purpose.value <= text
  }

  /** The binding, with a late span that reaches past `at` ended there. */
  function Ended(b: Binding, session: string, at: int): Binding {
    if b.session == session && b.reason == LateSource && b.createdAt < at && b.closedAt != None && at < b.closedAt.value
    then Binding(b.session, b.context, b.work, b.createdAt, Some(at), b.reason)
    else b
  }

  function ClosedAt(b: Binding, at: int): Binding {
    Binding(b.session, b.context, b.work, b.createdAt, Some(at), b.reason)
  }

  /** One binding is added; the current one ends and so do late spans of the session. */
  ghost predicate OpensBinding(s: State, t: State, current: Option<BindingId>, session: string, at: int, added: Binding) {
    && t.nextBinding == s.nextBinding + 1 && t.sources == s.sources
    && t.bindings.Keys == s.bindings.Keys + {s.nextBinding} && t.bindings[s.nextBinding] == added
    && forall b :: b in s.bindings && b != s.nextBinding ==>
         t.bindings[b] == if current == Some(b) then ClosedAt(s.bindings[b], at) else Ended(s.bindings[b], session, at)
  }

  ghost predicate SameWorks(s: State, t: State) {
    t.works == s.works && t.nextWork == s.nextWork
  }

  ghost predicate AddsWork(s: State, t: State, context: string, purpose: Option<string>, source: SourceId, state: WorkState, at: int) {
    && t.nextWork == s.nextWork + 1
    && t.works == s.works[s.nextWork := Work(context, state, purpose, if purpose == None then None else Some(source), at)]
  }

  // ---------------------------------------------------------------- a captured source

  predicate SpansCapture(s: State, i: Input, b: BindingId) {
    && b in s.bindings && s.bindings[b].session == i.session && s.bindings[b].context == i.context
    && s.bindings[b].createdAt <= i.capturedAt && (s.bindings[b].closedAt == None || i.capturedAt < s.bindings[b].closedAt.value)
  }

  predicate StartsLater(s: State, i: Input, b: BindingId) {
    && b in s.bindings && s.bindings[b].session == i.session && s.bindings[b].reason != LateSource
    && i.capturedAt < s.bindings[b].createdAt
  }

  /** The two newest bindings that span the capture, newest first, or all if there are fewer. */
  ghost predicate TwoNewest(s: State, i: Input, chosen: seq<BindingId>) {
    && |chosen| <= 2 && (forall k :: 0 <= k < |chosen| ==> SpansCapture(s, i, chosen[k]))
    && (|chosen| == 2 ==> chosen[0] != chosen[1] && s.bindings[chosen[1]].createdAt <= s.bindings[chosen[0]].createdAt)
    && forall b :: SpansCapture(s, i, b) && b !in chosen ==>
         |chosen| == 2 && s.bindings[b].createdAt <= s.bindings[chosen[1]].createdAt
  }

  ghost predicate NextStart(s: State, i: Input, next: Option<int>) {
    if next == None then forall b :: !StartsLater(s, i, b)
    else
      && (exists b :: StartsLater(s, i, b) && s.bindings[b].createdAt == next.value)
      && forall b :: StartsLater(s, i, b) ==> next.value <= s.bindings[b].createdAt
  }

  ghost predicate OnlyCandidate(s: State, context: string, only: Option<WorkId>) {
    if only != None then forall w :: Candidate(s, context, w) <==> w == only.value
    else forall w :: Candidate(s, context, w) ==> exists v :: v != w && Candidate(s, context, v)
  }

  ghost predicate SelectsRows(s: State, i: Input, sel: Selected) {
    TwoNewest(s, i, sel.historical) && NextStart(s, i, sel.next) && OnlyCandidate(s, i.context, sel.only)
  }

  /** A source older than the current binding: a late span it lies in, its only span, or a span of its own. */
  ghost predicate LateOutcome(s: State, i: Input, sel: Selected, t: State, b: BindingId)
    requires SelectsRows(s, i, sel)
  {
    if i.declaration == None && exists k :: 0 <= k < |sel.historical| && s.bindings[sel.historical[k]].reason == LateSource then
      && t == s
      && exists k :: 0 <= k < |sel.historical| && b == sel.historical[k] && s.bindings[b].reason == LateSource
           && forall j :: 0 <= j < k ==> s.bindings[sel.historical[j]].reason != LateSource
    else if i.declaration == None && |sel.historical| == 1 then t == s && b == sel.historical[0]
    else
      && SameWorks(s, t) && b == s.nextBinding
      && OpensBinding(s, t, None, i.session, i.capturedAt,
           Binding(i.session, i.context, None, i.capturedAt,
             Some(if sel.next == None then 9007199254740991 else sel.next.value), LateSource))
  }

  /** The current work has no purpose, and no counted source is bound to it. */
  ghost predicate SaidNothing(s: State, b: BindingId)
    requires b in s.bindings
  {
    && s.bindings[b].work != None && IsActive(s, s.bindings[b].work.value)
    && s.works[s.bindings[b].work.value].purpose == None && s.works[s.bindings[b].work.value].purposeSource == None
    && forall e :: e in s.sources && s.sources[e].counts ==> s.sources[e].binding != Some(b)
  }

  ghost predicate Stays(s: State, i: Input, b: BindingId)
    requires b in s.bindings
  {
    && s.bindings[b].context == i.context
    && (i.declaration == None || SaidNothing(s, b))
    && (s.bindings[b].work != None ==> IsActive(s, s.bindings[b].work.value))
  }

  /** Nothing changes but the purpose of a work that has none. */
  ghost predicate StayOutcome(s: State, i: Input, work: Option<WorkId>, t: State) {
    && t.bindings == s.bindings && t.sources == s.sources && t.nextWork == s.nextWork && t.nextBinding == s.nextBinding
    && exists purpose :: SaysPurpose(i, purpose)
         && t.works ==
              if work != None && work.value in s.works && purpose != None
                 && s.works[work.value].purpose == None && s.works[work.value].purposeSource == None
              then s.works[work.value := Work(s.works[work.value].originContext, s.works[work.value].state, purpose, Some(i.source),
                     s.works[work.value].createdAt)]
              else s.works
  }

  /** A new binding: for a new work if a purpose is declared or no work is active here, else for the only one or none. */
  ghost predicate OpenOutcome(s: State, i: Input, current: Option<BindingId>, t: State, b: BindingId, closedPrevious: bool) {
    && b == s.nextBinding && closedPrevious == current.Some?
    && if i.declaration != None || forall w :: !Candidate(s, i.context, w) then
         && (exists purpose :: SaysPurpose(i, purpose) && AddsWork(s, t, i.context, purpose, i.source, Active, i.capturedAt))
         && OpensBinding(s, t, current, i.session, i.capturedAt,
              Binding(i.session, i.context, Some(s.nextWork), i.capturedAt, None,
                if i.declaration != None then NewPurpose else NewContext))
       else
         && SameWorks(s, t)
         && exists only :: OnlyCandidate(s, i.context, only)
              && OpensBinding(s, t, current, i.session, i.capturedAt,
                   Binding(i.session, i.context, only, i.capturedAt, None, if only != None then OnlyActive else Ambiguous))
  }

  predicate ComesLate(i: Input, b: Binding) {
    i.late || i.capturedAt < b.createdAt || (i.recovered && i.capturedAt == b.createdAt)
  }

  ghost predicate BindOutcome(s: State, i: Input, sel: Selected, t: State, b: BindingId, closedPrevious: bool)
    requires SelectsRows(s, i, sel)
  {
    if forall c :: !IsOpen(s, i.session, c) then OpenOutcome(s, i, None, t, b, closedPrevious)
    else exists c :: IsOpen(s, i.session, c) && CurrentOutcome(s, i, sel, c, t, b, closedPrevious)
  }

  ghost predicate CurrentOutcome(s: State, i: Input, sel: Selected, c: BindingId, t: State, b: BindingId, closedPrevious: bool)
    requires SelectsRows(s, i, sel) && c in s.bindings
  {
    if ComesLate(i, s.bindings[c]) then LateOutcome(s, i, sel, t, b) && !closedPrevious
    else if Stays(s, i, c) then StayOutcome(s, i, s.bindings[c].work, t) && b == c && !closedPrevious
    else OpenOutcome(s, i, Some(c), t, b, closedPrevious)
  }

  // ---------------------------------------------------------------- proofs

  lemma CandidateExactly(s: State, context: string, w: WorkId)
    ensures w in ActiveIn(s, context) <==> Candidate(s, context, w)
  {
  }

  lemma OneCandidate(candidates: set<WorkId>, only: Option<WorkId>)
    requires OnlyOne(candidates, only)
    ensures only.Some? ==> forall w :: w in candidates <==> w == only.value
    ensures only.None? ==> forall w :: w in candidates ==> exists v :: v != w && v in candidates
  {
    if only.None? {
      forall w | w in candidates ensures exists v :: v != w && v in candidates {
        assert |candidates| == |candidates - {w}| + 1;
        var v :| v in candidates - {w};
      }
    }
  }

  lemma HistoricalRows(s: State, i: Input, chosen: seq<BindingId>)
    requires NewestTwo(s, HistoricalOf(s, i), chosen)
    ensures TwoNewest(s, i, chosen)
  {
    var all := HistoricalOf(s, i);
    forall b ensures b in all <==> SpansCapture(s, i, b) {
    }
    hide HistoricalOf, SpansCapture;
    if |all| == 1 {
      assert |all| == |all - {chosen[0]}| + 1;
    }
    assert |all| < 2 ==> forall b :: b in all ==> b in chosen;
  }

  lemma NextRows(s: State, i: Input, next: Option<int>)
    requires Earliest(Starts(s, i), next)
    ensures NextStart(s, i, next)
  {
    forall b | StartsLater(s, i, b) ensures s.bindings[b].createdAt in Starts(s, i) {
    }
  }

  lemma SelectionMeans(s: State, i: Input, sel: Selected)
    requires Selects(s, i, sel)
    ensures SelectsRows(s, i, sel)
  {
    HistoricalRows(s, i, sel.historical);
    NextRows(s, i, sel.next);
    OnlyMeans(s, i.context, sel.only);
    hide NewestTwo, HistoricalOf, Starts, Earliest, OnlyOne, ActiveIn, TwoNewest, NextStart, OnlyCandidate;
  }

  lemma OnlyMeans(s: State, context: string, only: Option<WorkId>)
    requires OnlyOne(ActiveIn(s, context), only)
    ensures OnlyCandidate(s, context, only)
  {
    OneCandidate(ActiveIn(s, context), only);
    forall w ensures w in ActiveIn(s, context) <==> Candidate(s, context, w) {
      CandidateExactly(s, context, w);
    }
    hide ActiveIn, Candidate, OnlyOne;
  }

  lemma PurposeSaid(i: Input)
    ensures SaysPurpose(i, PurposeOf(i))
  {
  }

  lemma VacatedRows(s: State, current: Option<BindingId>, session: string, at: int)
    ensures var t := Vacate(s, current, session, at);
      && SameWorks(s, t) && t.nextBinding == s.nextBinding && t.sources == s.sources && t.bindings.Keys == s.bindings.Keys
      && forall b :: b in s.bindings ==>
           t.bindings[b] == if current == Some(b) then ClosedAt(s.bindings[b], at) else Ended(s.bindings[b], session, at)
  {
  }

  /** Ending the current binding and the late spans, then adding one binding. */
  lemma OpensAfterVacate(s: State, current: Option<BindingId>, session: string, at: int, added: Binding)
    requires Fresh(s)
    ensures OpensBinding(s, Insert(Vacate(s, current, session, at), added), current, session, at, added)
    ensures SameWorks(s, Vacate(s, current, session, at)) && Vacate(s, current, session, at).nextBinding == s.nextBinding
  {
    VacatedRows(s, current, session, at);
    hide Vacate, ClosedAt, Ended;
  }

  /** The late span a source is held by, or its only span. */
  predicate Held(s: State, i: Input, h: seq<BindingId>) {
    i.declaration == None && (|h| == 1 || exists k :: 0 <= k < |h| && h[k] in s.bindings && s.bindings[h[k]].reason == LateSource)
  }

  lemma HeldMeans(s: State, i: Input, sel: Selected)
    requires SelectsRows(s, i, sel) && Held(s, i, sel.historical)
    requires forall k :: 0 <= k < |sel.historical| ==> sel.historical[k] in s.bindings
    ensures var bound := BindLate(s, i, sel.historical, sel.next);
            LateOutcome(s, i, sel, bound.state, bound.binding) && !bound.closedPrevious
  {
    var h := sel.historical;
    assert |h| <= 2;
    hide SelectsRows, CloseLateSpans, OpensBinding;
    if k :| 0 <= k < |h| && s.bindings[h[k]].reason == LateSource {
      assert k == 0 || k == 1;
      assert s.bindings[h[0]].reason == LateSource ==> BindLate(s, i, h, sel.next).binding == h[0];
    }
  }

  lemma NewSpanMeans(s: State, i: Input, sel: Selected)
    requires SelectsRows(s, i, sel) && !Held(s, i, sel.historical) && Fresh(s)
    requires forall k :: 0 <= k < |sel.historical| ==> sel.historical[k] in s.bindings
    ensures var bound := BindLate(s, i, sel.historical, sel.next);
            LateOutcome(s, i, sel, bound.state, bound.binding) && !bound.closedPrevious
  {
    hide SelectsRows;
    var added := Binding(i.session, i.context, None, i.capturedAt, Some(sel.next.GetOr(MAX_SAFE_INTEGER)), LateSource);
    OpensAfterVacate(s, None, i.session, i.capturedAt, added);
    hide OpensBinding;
    assert Vacate(s, None, i.session, i.capturedAt) == s.(bindings := CloseLateSpans(s.bindings, i.session, i.capturedAt));
    hide CloseLateSpans;
  }

  lemma LateMeans(s: State, i: Input, sel: Selected)
    requires Selects(s, i, sel) && SelectsRows(s, i, sel) && Fresh(s)
    ensures var bound := BindLate(s, i, sel.historical, sel.next);
            LateOutcome(s, i, sel, bound.state, bound.binding) && !bound.closedPrevious
  {
    SpansExist(s, i, sel.historical);
    hide Selects, SelectsRows, BindLate, LateOutcome;
    if Held(s, i, sel.historical) {
      HeldMeans(s, i, sel);
    } else {
      NewSpanMeans(s, i, sel);
    }
  }

  lemma SpansExist(s: State, i: Input, h: seq<BindingId>)
    requires forall k :: 0 <= k < |h| ==> SpansCapture(s, i, h[k])
    ensures forall k :: 0 <= k < |h| ==> h[k] in s.bindings
  {
  }

  lemma StayMeans(s: State, i: Input, work: Option<WorkId>)
    ensures StayOutcome(s, i, work, GivePurpose(s, i, work))
  {
    PurposeSaid(i);
    hide PurposeOf, SaysPurpose;
  }

  lemma VacatedCandidates(s: State, current: Option<BindingId>, session: string, at: int, context: string)
    ensures forall w :: w in ActiveIn(Vacate(s, current, session, at), context) <==> Candidate(s, context, w)
  {
    var t := Vacate(s, current, session, at);
    VacatedRows(s, current, session, at);
    hide Vacate;
    assert forall b :: b in s.bindings ==> t.bindings[b].work == s.bindings[b].work && t.bindings[b].context == s.bindings[b].context;
    hide ClosedAt, Ended;
    forall w ensures w in ActiveIn(t, context) <==> Candidate(s, context, w) {
      CandidateExactly(t, context, w);
    }
  }

  /** What opens a binding opens it whatever works were made before. */
  lemma OpensOver(s: State, spans: State, made: State, current: Option<BindingId>, session: string, at: int, added: Binding)
    requires OpensBinding(s, Insert(spans, added), current, session, at, added)
    requires made.bindings == spans.bindings && made.nextBinding == spans.nextBinding && made.sources == spans.sources
    ensures OpensBinding(s, Insert(made, added), current, session, at, added)
  {
  }

  lemma OpenNew(s: State, i: Input, only: Option<WorkId>, current: Option<BindingId>)
    requires Fresh(s) && (i.declaration.Some? || forall w :: !Candidate(s, i.context, w))
    ensures var bound := Rebind(s, i, current, only);
            OpenOutcome(s, i, current, bound.state, bound.binding, bound.closedPrevious)
  {
    var spans := Vacate(s, current, i.session, i.capturedAt);
    VacatedCandidates(s, current, i.session, i.capturedAt, i.context);
    hide Candidate, OpensBinding, AddsWork, SaysPurpose, Vacate, OnlyCandidate, ActiveIn;
    var reason := if i.declaration.Some? then NewPurpose else NewContext;
    VacatedRows(s, current, i.session, i.capturedAt);
    MadeMeans(s, i, current, Binding(i.session, i.context, Some(s.nextWork), i.capturedAt, None, reason));
    assert i.declaration.None? ==> ActiveIn(spans, i.context) == {};
    hide PurposeOf, CreateWork, Insert;
  }

  lemma OpenKnown(s: State, i: Input, only: Option<WorkId>, current: Option<BindingId>)
    requires Fresh(s) && OnlyCandidate(s, i.context, only)
    requires i.declaration.None? && exists w :: Candidate(s, i.context, w)
    ensures var bound := Rebind(s, i, current, only);
            OpenOutcome(s, i, current, bound.state, bound.binding, bound.closedPrevious)
  {
    var spans := Vacate(s, current, i.session, i.capturedAt);
    VacatedCandidates(s, current, i.session, i.capturedAt, i.context);
    hide Candidate, OpensBinding, AddsWork, SaysPurpose, Vacate, OnlyCandidate, ActiveIn, CreateWork, PurposeOf;
    assert ActiveIn(spans, i.context) != {};
    var reason := if only.Some? then OnlyActive else Ambiguous;
    var added := Binding(i.session, i.context, only, i.capturedAt, None, reason);
    OpensAfterVacate(s, current, i.session, i.capturedAt, added);
    assert Rebind(s, i, current, only) == Bound(Insert(spans, added), s.nextBinding, current.Some?);
  }

  lemma OpenMeans(s: State, i: Input, sel: Selected, current: Option<BindingId>)
    requires Selects(s, i, sel) && Fresh(s)
    ensures var bound := Rebind(s, i, current, sel.only);
            OpenOutcome(s, i, current, bound.state, bound.binding, bound.closedPrevious)
  {
    OnlyMeans(s, i.context, sel.only);
    hide Candidate, OnlyCandidate, Rebind, OpenOutcome, Selects;
    if i.declaration.Some? || forall w :: !Candidate(s, i.context, w) {
      OpenNew(s, i, sel.only, current);
    } else {
      OpenKnown(s, i, sel.only, current);
    }
  }

  lemma MadeMeans(s: State, i: Input, current: Option<BindingId>, added: Binding)
    requires Fresh(s)
    ensures var spans := Vacate(s, current, i.session, i.capturedAt);
            var made := CreateWork(spans, i.context, PurposeOf(i), i.source, Active, i.capturedAt);
            && OpensBinding(s, Insert(made, added), current, i.session, i.capturedAt, added) && SaysPurpose(i, PurposeOf(i))
            && AddsWork(s, Insert(made, added), i.context, PurposeOf(i), i.source, Active, i.capturedAt)
  {
    PurposeSaid(i);
    VacatedRows(s, current, i.session, i.capturedAt);
    OpensAfterVacate(s, current, i.session, i.capturedAt, added);
    hide Vacate, PurposeOf, SaysPurpose;
    var spans := Vacate(s, current, i.session, i.capturedAt);
    OpensOver(s, spans, CreateWork(spans, i.context, PurposeOf(i), i.source, Active, i.capturedAt), current, i.session,
      i.capturedAt, added);
    hide OpensBinding;
  }

  /** Binding a captured source does what its selections and the current binding say. */
  lemma BindMeans(s: State, i: Input, sel: Selected)
    requires Selects(s, i, sel) && Fresh(s)
    ensures SelectsRows(s, i, sel)
    ensures var bound := Bind(s, i, sel); BindOutcome(s, i, sel, bound.state, bound.binding, bound.closedPrevious)
  {
    SelectionMeans(s, i, sel);
    var current := Current(s.bindings, i.session);
    hide Selects, SelectsRows;
    if current.None? {
      OpenMeans(s, i, sel, None);
      forall c ensures !IsOpen(s, i.session, c) {
        assert !Open(s.bindings, i.session, c);
      }
      hide OpenOutcome, Rebind;
    } else {
      assert IsOpen(s, i.session, current.value);
      LateMeans(s, i, sel);
      StaysExactly(s, i, current.value);
      StayMeans(s, i, s.bindings[current.value].work);
      OpenMeans(s, i, sel, current);
      hide OpenOutcome, Rebind, BindLate, LateOutcome, StayOutcome, GivePurpose, StaysBound, Stays, Open, Current;
      assert CurrentOutcome(s, i, sel, current.value, Bind(s, i, sel).state, Bind(s, i, sel).binding,
        Bind(s, i, sel).closedPrevious);
    }
  }

  /** The captured row is kept with the binding chosen for it, unless it was there before. */
  lemma CaptureMeans(s: State, i: Input, sel: Selected)
    requires Selects(s, i, sel) && Fresh(s)
    ensures var t, bound := CaptureSource(s, i, sel), Bind(s, i, sel);
      && t.works == bound.state.works && t.bindings == bound.state.bindings
      && t.sources == if i.source in s.sources then s.sources
                      else s.sources[i.source := Source(i.session, Some(bound.binding), i.counts, Some(i.capturedAt), i.selectable)]
  {
    BindKeepsSources(s, i, sel);
    hide Bind, Selects;
  }

  lemma BindKeepsSources(s: State, i: Input, sel: Selected)
    requires Selects(s, i, sel) && Fresh(s)
    ensures Bind(s, i, sel).state.sources == s.sources
  {
    VacatedRows(s, Current(s.bindings, i.session), i.session, i.capturedAt);
    hide Selects, Vacate, ActiveIn, StaysBound, Current;
  }

  lemma StaysExactly(s: State, i: Input, b: BindingId)
    requires b in s.bindings
    ensures StaysBound(s, i, b) <==> Stays(s, i, b)
  {
  }

  // ---------------------------------------------------------------- choosing a work

  /** The binding may still be given a work, and the chosen work exists. */
  predicate MayChoose(s: State, b: BindingId, context: string, choice: Choice) {
    && b in s.bindings && s.bindings[b].context == context && (choice.NewWork? || choice.id in s.works)
    && (s.bindings[b].closedAt == None || (s.bindings[b].reason == LateSource && s.bindings[b].work == None))
  }

  function WithState(w: Work, state: WorkState): Work {
    Work(w.originContext, state, w.purpose, w.purposeSource, w.createdAt)
  }

  /** A new work without a purpose, or the chosen one, active again. */
  ghost predicate WorkChosen(s: State, t: State, context: string, choice: Choice, now: int) {
    match choice
    case NewWork => AddsWork(s, t, context, None, "", Active, now)
    case ExistingWork(w) => w in s.works && t.nextWork == s.nextWork && t.works == s.works[w := WithState(s.works[w], Active)]
  }

  ghost predicate ChooseOutcome(s: State, b: BindingId, context: string, choice: Choice, now: int, t: State,
      chosen: Option<BindingId>)
  {
    if !MayChoose(s, b, context, choice) then t == s && chosen == None
    else
      var target := if choice.NewWork? then s.nextWork else choice.id;
      var was := s.bindings[b];
      && WorkChosen(s, t, context, choice, now)
      && if was.work == Some(target) then
           t.bindings == s.bindings && t.sources == s.sources && t.nextBinding == s.nextBinding && chosen == Some(b)
         else if was.work == None && (choice.ExistingWork? || was.closedAt != None) then
           && t.bindings == s.bindings[b := Binding(was.session, was.context, Some(target), was.createdAt, was.closedAt,
                if was.reason == LateSource then LateSource else Explicit)]
           && t.sources == s.sources && t.nextBinding == s.nextBinding && chosen == Some(b)
         else MovesOn(s, b, target, now, t) && chosen == Some(s.nextBinding)
  }

  /** The binding ends now, with the work if it had none, and one for the work opens in its place. */
  ghost predicate MovesOn(s: State, b: BindingId, target: WorkId, now: int, t: State)
    requires b in s.bindings
  {
    var was := s.bindings[b];
    && t.nextBinding == s.nextBinding + 1 && t.sources == s.sources && t.bindings.Keys == s.bindings.Keys + {s.nextBinding}
    && t.bindings[s.nextBinding] == Binding(was.session, was.context, Some(target), now, None, Explicit)
    && (b != s.nextBinding ==>
          t.bindings[b] ==
            if was.work == None
            then Binding(was.session, was.context, Some(target), was.createdAt, Some(now),
                   if was.reason == LateSource then LateSource else Explicit)
            else ClosedAt(was, now))
    && forall x :: x in s.bindings && x != s.nextBinding && x != b ==> t.bindings[x] == Ended(s.bindings[x], was.session, now)
  }

  lemma ChosenWork(s: State, context: string, choice: Choice, now: int)
    requires Offered(s, choice)
    ensures var t := Resume(s, context, choice, now);
      && WorkChosen(s, t, context, choice, now)
      && t.bindings == s.bindings && t.sources == s.sources && t.nextBinding == s.nextBinding
  {
    if choice.NewWork? {
      var made := CreateWork(s, context, None, "", Active, now);
      assert made.works[s.nextWork := made.works[s.nextWork].(state := Active)] == made.works;
    }
  }

  /** Moving on from a binding changes only bindings: it ends, late spans end and one is added. */
  lemma MoveRows(r: State, b: BindingId, target: WorkId, now: int)
    requires b in r.bindings && b != r.nextBinding
    ensures var t := MoveTo(r, b, target, now);
      && SameWorks(r, t)
      && OpensBinding(r, t, Some(b), r.bindings[b].session, now,
           Binding(r.bindings[b].session, r.bindings[b].context, Some(target), now, None, Explicit))
  {
    VacatedRows(r, Some(b), r.bindings[b].session, now);
    hide Vacate, Ended, ClosedAt;
  }

  lemma MoveMeans(s: State, r: State, b: BindingId, target: WorkId, now: int)
    requires b in s.bindings && b < s.nextBinding
    requires r.bindings == s.bindings && r.sources == s.sources && r.nextBinding == s.nextBinding
    ensures s.bindings[b].work != None ==>
              MovesOn(s, b, target, now, MoveTo(r, b, target, now)) && SameWorks(r, MoveTo(r, b, target, now))
  {
    MoveRows(r, b, target, now);
    hide MoveTo, Ended;
  }

  lemma MoveNamed(s: State, r: State, b: BindingId, target: WorkId, now: int)
    requires b in s.bindings && b < s.nextBinding
    requires r.bindings == s.bindings && r.sources == s.sources && r.nextBinding == s.nextBinding
    ensures s.bindings[b].work == None ==>
              var t := MoveTo(SetWork(r, b, target), b, target, now);
              MovesOn(s, b, target, now, t) && SameWorks(r, t)
  {
    MoveRows(SetWork(r, b, target), b, target, now);
    hide MoveTo, Ended;
  }

  lemma StayChosen(s: State, b: BindingId, context: string, choice: Choice, now: int)
    requires Choosable(s, b, context, choice)
    requires s.bindings[b].work == Some(TargetOf(s, choice))
             || (s.bindings[b].work == None && (choice.ExistingWork? || s.bindings[b].closedAt != None))
    ensures var c := ChooseWork(s, b, context, choice, now); ChooseOutcome(s, b, context, choice, now, c.state, c.binding)
  {
    ChosenWork(s, context, choice, now);
    hide Resume, MoveTo, MovesOn, AddsWork, WithState;
  }

  lemma MoveChosen(s: State, b: BindingId, context: string, choice: Choice, now: int)
    requires Choosable(s, b, context, choice) && Fresh(s)
    requires s.bindings[b].work != Some(TargetOf(s, choice))
    requires !(s.bindings[b].work == None && (choice.ExistingWork? || s.bindings[b].closedAt != None))
    ensures var c := ChooseWork(s, b, context, choice, now); ChooseOutcome(s, b, context, choice, now, c.state, c.binding)
  {
    var r := Resume(s, context, choice, now);
    ChosenWork(s, context, choice, now);
    MoveMeans(s, r, b, TargetOf(s, choice), now);
    MoveNamed(s, r, b, TargetOf(s, choice), now);
    hide Resume, MoveTo, MovesOn, SetWork, AddsWork, WithState;
  }

  /** Choosing a work for a binding. */
  lemma ChooseMeans(s: State, b: BindingId, context: string, choice: Choice, now: int)
    requires Fresh(s)
    ensures var c := ChooseWork(s, b, context, choice, now); ChooseOutcome(s, b, context, choice, now, c.state, c.binding)
  {
    if Choosable(s, b, context, choice) {
      hide ChooseOutcome, ChooseWork;
      if s.bindings[b].work == Some(TargetOf(s, choice))
         || (s.bindings[b].work == None && (choice.ExistingWork? || s.bindings[b].closedAt != None)) {
        StayChosen(s, b, context, choice, now);
      } else {
        MoveChosen(s, b, context, choice, now);
      }
    } else {
      hide Resume, MoveTo, MovesOn;
    }
  }

  /** A selectable source without a binding gets one of its own, closed one millisecond after its capture. */
  ghost predicate SourceOutcome(s: State, source: SourceId, context: string, choice: Choice, now: int, t: State,
      chosen: Option<BindingId>)
  {
    if source !in s.sources || !s.sources[source].selectable || s.sources[source].binding != None
       || (choice.ExistingWork? && choice.id !in s.works)
    then t == s && chosen == None
    else
      var was := s.sources[source];
      var at := if was.capturedAt != None then was.capturedAt.value else now;
      var target := if choice.NewWork? then s.nextWork else choice.id;
      && chosen == Some(s.nextBinding) && t.nextBinding == s.nextBinding + 1
      && t.bindings == s.bindings[s.nextBinding := Binding(was.session, context, Some(target), at, Some(at + 1), Explicit)]
      && t.sources == s.sources[source := Source(was.session, Some(s.nextBinding), was.counts, was.capturedAt, was.selectable)]
      && if choice.NewWork? then AddsWork(s, t, context, None, "", Dormant, now) else SameWorks(s, t)
  }

  lemma SourceMeans(s: State, source: SourceId, context: string, choice: Choice, now: int)
    ensures var c := ChooseSourceWork(s, source, context, choice, now);
            SourceOutcome(s, source, context, choice, now, c.state, c.binding)
  {
  }
}
