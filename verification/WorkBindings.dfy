/**
 * Which work a captured source belongs to (src/work.ts): a session is bound to one work at a time,
 * explicit choices close and open bindings, and sources that arrive late get spans of their own.
 * The tables are those of one repository; ids stand for random UUIDs.
 */
module WorkBindings {
  import opened Options

  type WorkId = nat
  type BindingId = nat
  type SourceId = string

  const MAX_SAFE_INTEGER := 9007199254740991
  const MAX_PURPOSE := 300

  datatype WorkState = Active | Dormant | Completed
  datatype Work = Work(originContext: string, state: WorkState, purpose: Option<string>,
      purposeSource: Option<SourceId>, createdAt: int)

  datatype Reason = NewPurpose | NewContext | OnlyActive | Ambiguous | LateSource | Explicit
  datatype Binding = Binding(session: string, context: string, work: Option<WorkId>, createdAt: int,
      closedAt: Option<int>, reason: Reason)

  /** `counts`: its kind is more than a session start or a probe. `selectable`: it may be chosen for a work by hand. */
  datatype Source = Source(session: string, binding: Option<BindingId>, counts: bool, capturedAt: Option<int>,
      selectable: bool)

  datatype State = State(
    works: map<WorkId, Work>, bindings: map<BindingId, Binding>, sources: map<SourceId, Source>,
    nextWork: nat, nextBinding: nat)

  /** A captured row; `declaration` is the purpose of an explicit "new task" prompt, `direct` the user's own text. */
  datatype Input = Input(
    session: string, context: string, source: SourceId, counts: bool, selectable: bool,
    declaration: Option<string>, direct: string, capturedAt: int, recovered: bool, late: bool)

  function PurposeOf(i: Input): Option<string> {
    var text := i.declaration.GetOr(i.direct);
    var cut := if |text| > MAX_PURPOSE then text[..MAX_PURPOSE] else text;
    if cut == "" then None else Some(cut)
  }

  predicate Open(bindings: map<BindingId, Binding>, session: string, b: BindingId) {
    b in bindings && bindings[b].session == session && bindings[b].closedAt.None?
  }

  predicate Spans(b: Binding, at: int) {
    b.createdAt <= at && (b.closedAt.None? || at < b.closedAt.value)
  }

  /** The open binding of a session; there is at most one. */
  ghost function Current(bindings: map<BindingId, Binding>, session: string): (r: Option<BindingId>)
    ensures r.Some? ==> Open(bindings, session, r.value)
    ensures r.None? ==> forall b :: !Open(bindings, session, b)
  {
    if exists b :: Open(bindings, session, b) then
      var b :| Open(bindings, session, b);
      Some(b)
    else None
  }

  // ---------------------------------------------------------------- row updates

  /** Late spans that reach past `at` end there. */
  function CloseLateSpans(bindings: map<BindingId, Binding>, session: string, at: int): map<BindingId, Binding> {
    map b | b in bindings ::
      if bindings[b].session == session && bindings[b].reason.LateSource? && bindings[b].createdAt < at
         && bindings[b].closedAt.Some? && bindings[b].closedAt.value > at
      then bindings[b].(closedAt := Some(at)) else bindings[b]
  }

  function Insert(s: State, b: Binding): State {
    s.(bindings := s.bindings[s.nextBinding := b], nextBinding := s.nextBinding + 1)
  }

  function CreateWork(s: State, context: string, purpose: Option<string>, source: SourceId, state: WorkState,
      at: int): State {
    var w := Work(context, state, purpose, if purpose.None? then None else Some(source), at);
    s.(works := s.works[s.nextWork := w], nextWork := s.nextWork + 1)
  }

  function Close(s: State, b: Option<BindingId>, at: int): State {
    if b.Some? && b.value in s.bindings then s.(bindings := s.bindings[b.value := s.bindings[b.value].(closedAt := Some(at))]) else s
  }

  // ---------------------------------------------------------------- bindCapturedWork

  datatype Bound = Bound(state: State, binding: BindingId, closedPrevious: bool)

  predicate IsLate(i: Input, current: Binding) {
    i.late || i.capturedAt < current.createdAt || (i.recovered && i.capturedAt == current.createdAt)
  }

  function HistoricalOf(s: State, i: Input): set<BindingId> {
    set b | b in s.bindings && s.bindings[b].session == i.session && s.bindings[b].context == i.context && Spans(s.bindings[b], i.capturedAt)
  }

  /** ORDER BY created_at DESC LIMIT 2: any order among equal times. */
  ghost predicate NewestTwo(s: State, all: set<BindingId>, chosen: seq<BindingId>)
    requires all <= s.bindings.Keys
  {
    && |chosen| == (if |all| < 2 then |all| else 2)
    && (forall k :: 0 <= k < |chosen| ==> chosen[k] in all)
    && (forall j, k :: 0 <= j < k < |chosen| ==> chosen[j] != chosen[k] && s.bindings[chosen[k]].createdAt <= s.bindings[chosen[j]].createdAt)
    && (forall b, k :: b in all && b !in chosen && 0 <= k < |chosen| ==> s.bindings[b].createdAt <= s.bindings[chosen[k]].createdAt)
  }

  /** Starts after this capture, late spans aside. */
  function Starts(s: State, i: Input): set<int> {
    set b | b in s.bindings && s.bindings[b].session == i.session && s.bindings[b].createdAt > i.capturedAt
            && !s.bindings[b].reason.LateSource? :: s.bindings[b].createdAt
  }

  ghost predicate Earliest(times: set<int>, at: Option<int>) {
    if at.None? then times == {} else at.value in times && forall t :: t in times ==> at.value <= t
  }

  /** A source older than the current binding: its old span if that is certain, else a late span of its own. */
  function BindLate(s: State, i: Input, historical: seq<BindingId>, next: Option<int>): Bound
    requires forall k :: 0 <= k < |historical| ==> historical[k] in s.bindings
  {
    if i.declaration.None? && |historical| >= 1 && s.bindings[historical[0]].reason.LateSource? then Bound(s,
        historical[0], false)
    else if i.declaration.None? && |historical| >= 2 && s.bindings[historical[1]].reason.LateSource? then Bound(s,
        historical[1], false)
    else if i.declaration.None? && |historical| == 1 then Bound(s, historical[0], false)
    else
      var closed := s.(bindings := CloseLateSpans(s.bindings, i.session, i.capturedAt));
      var late := Binding(i.session, i.context, None, i.capturedAt, Some(next.GetOr(MAX_SAFE_INTEGER)), LateSource);
      Bound(Insert(closed, late), s.nextBinding, false)
  }

  predicate ActiveWork(s: State, w: WorkId) {
    w in s.works && s.works[w].state.Active?
  }

  /** Nothing was said yet about the current work: it may still take a declared purpose. */
  predicate EmptyWork(s: State, current: BindingId)
    requires current in s.bindings
  {
    && s.bindings[current].work.Some? && ActiveWork(s, s.bindings[current].work.value)
    && s.works[s.bindings[current].work.value].purpose.None? && s.works[s.bindings[current].work.value].purposeSource.None?
    && !exists e :: e in s.sources && s.sources[e].binding == Some(current) && s.sources[e].counts
  }

  predicate StaysBound(s: State, i: Input, current: BindingId)
    requires current in s.bindings
  {
    && s.bindings[current].context == i.context
    && (i.declaration.None? || EmptyWork(s, current))
    && (s.bindings[current].work.Some? ==> ActiveWork(s, s.bindings[current].work.value))
  }

  function GivePurpose(s: State, i: Input, w: Option<WorkId>): State {
    var purpose := PurposeOf(i);
    if w.Some? && w.value in s.works && purpose.Some? && s.works[w.value].purpose.None? && s.works[w.value].purposeSource.None?
    then s.(works := s.works[w.value := s.works[w.value].(purpose := purpose, purposeSource := Some(i.source))])
    else s
  }

  function ActiveIn(s: State, context: string): set<WorkId> {
    set w | w in s.works && s.works[w].state.Active?
            && (s.works[w].originContext == context || exists b :: b in s.bindings && s.bindings[b].work == Some(w) && s.bindings[b].context == context)
  }

  /** The one candidate work, if there is exactly one. */
  ghost predicate OnlyOne(candidates: set<WorkId>, only: Option<WorkId>) {
    if only.Some? then candidates == {only.value} else |candidates| != 1
  }

  /** The current binding ends here, and so do late spans reaching past it. */
  function Vacate(s: State, current: Option<BindingId>, session: string, at: int): State {
    var closed := Close(s, current, at);
    closed.(bindings := CloseLateSpans(closed.bindings, session, at))
  }

  /** A new binding opens: for a new work, the only active one, or none yet. */
  function Rebind(s: State, i: Input, current: Option<BindingId>, only: Option<WorkId>): Bound {
    var spans := Vacate(s, current, i.session, i.capturedAt);
    var candidates := if i.declaration.None? then ActiveIn(spans, i.context) else {};
    if candidates == {} then
      var made := CreateWork(spans, i.context, PurposeOf(i), i.source, Active, i.capturedAt);
      var reason := if i.declaration.Some? then NewPurpose else NewContext;
      Bound(Insert(made, Binding(i.session, i.context, Some(spans.nextWork), i.capturedAt, None, reason)),
          s.nextBinding, current.Some?)
    else
      var reason := if only.Some? then OnlyActive else Ambiguous;
      Bound(Insert(spans, Binding(i.session, i.context, only, i.capturedAt, None, reason)), s.nextBinding,
          current.Some?)
  }

  /** `historical`, `next` and `only` are what the three selections return. */
  datatype Selected = Selected(historical: seq<BindingId>, next: Option<int>, only: Option<WorkId>)

  ghost predicate Selects(s: State, i: Input, sel: Selected) {
    && NewestTwo(s, HistoricalOf(s, i), sel.historical) && Earliest(Starts(s, i), sel.next)
    && OnlyOne(ActiveIn(s, i.context), sel.only)
  }

  ghost function Bind(s: State, i: Input, sel: Selected): Bound
    requires Selects(s, i, sel)
  {
    var current := Current(s.bindings, i.session);
    if current.Some? && IsLate(i, s.bindings[current.value]) then BindLate(s, i, sel.historical, sel.next)
    else if current.Some? && StaysBound(s, i, current.value) then
      Bound(GivePurpose(s, i, s.bindings[current.value].work), current.value, false)
    else Rebind(s, i, current, sel.only)
  }

  /** The row itself is stored with the binding, unless it is there already. */
  ghost function CaptureSource(s: State, i: Input, sel: Selected): State
    requires Selects(s, i, sel)
  {
    var bound := Bind(s, i, sel);
    if i.source in bound.state.sources then bound.state
    else bound.state.(sources := bound.state.sources[i.source := Source(i.session, Some(bound.binding), i.counts,
        Some(i.capturedAt), i.selectable)])
  }

  // ---------------------------------------------------------------- explicit choices

  datatype Choice = NewWork | ExistingWork(id: WorkId)

  datatype Chosen = Chosen(state: State, binding: Option<BindingId>)

  predicate Offered(s: State, choice: Choice) {
    choice.ExistingWork? ==> choice.id in s.works
  }

  function TargetOf(s: State, choice: Choice): WorkId {
    if choice.NewWork? then s.nextWork else choice.id
  }

  /** The chosen work exists and is active again: choosing retained work resumes it. */
  function Resume(s: State, context: string, choice: Choice, now: int): State
    requires Offered(s, choice)
  {
    var made := if choice.NewWork? then CreateWork(s, context, None, "", Active, now) else s;
    var target := TargetOf(s, choice);
    made.(works := made.works[target := made.works[target].(state := Active)])
  }

  function SetWork(s: State, b: BindingId, target: WorkId): State
    requires b in s.bindings
  {
    var reason := if s.bindings[b].reason.LateSource? then LateSource else Explicit;
    s.(bindings := s.bindings[b := s.bindings[b].(work := Some(target), reason := reason)])
  }

  function MoveTo(s: State, b: BindingId, target: WorkId, now: int): State
    requires b in s.bindings
  {
    var next := Binding(s.bindings[b].session, s.bindings[b].context, Some(target), now, None, Explicit);
    Insert(Vacate(s, Some(b), s.bindings[b].session, now), next)
  }

  predicate Choosable(s: State, b: BindingId, context: string, choice: Choice) {
    && b in s.bindings && s.bindings[b].context == context && Offered(s, choice)
    && (s.bindings[b].closedAt.None? || (s.bindings[b].reason.LateSource? && s.bindings[b].work.None?))
  }

  /** chooseWork: only an open binding, or a late one that has no work yet, can be given a work. */
  function ChooseWork(s: State, b: BindingId, context: string, choice: Choice, now: int): Chosen {
    if !Choosable(s, b, context, choice) then Chosen(s, None)
    else
      var t := Resume(s, context, choice, now);
      var target := TargetOf(s, choice);
      var binding := s.bindings[b];
      if binding.work == Some(target) then Chosen(t, Some(b))
      else if binding.work.None? then
        var named := SetWork(t, b, target);
        if choice.ExistingWork? || binding.closedAt.Some? then Chosen(named, Some(b))
        else Chosen(MoveTo(named, b, target, now), Some(s.nextBinding))
      else Chosen(MoveTo(t, b, target, now), Some(s.nextBinding))
  }

  function BindSource(s: State, source: SourceId, b: BindingId): State
    requires source in s.sources
  {
    s.(sources := s.sources[source := s.sources[source].(binding := Some(b))])
  }

  /** chooseSourceWork: a source without a binding becomes one of its own, closed at once. */
  function ChooseSourceWork(s: State, source: SourceId, context: string, choice: Choice, now: int): Chosen {
    if source !in s.sources || !s.sources[source].selectable || s.sources[source].binding.Some? || !Offered(s,
        choice) then Chosen(s, None)
    else
      var made := if choice.NewWork? then CreateWork(s, context, None, "", Dormant, now) else s;
      var at := s.sources[source].capturedAt.GetOr(now);
      var own := Binding(s.sources[source].session, context, Some(TargetOf(s, choice)), at, Some(at + 1), Explicit);
      var t := Insert(made, own);
      Chosen(BindSource(t, source, s.nextBinding), Some(s.nextBinding))
  }

  function CompleteWork(s: State, w: WorkId): State {
    if w in s.works then s.(works := s.works[w := s.works[w].(state := Completed)]) else s
  }

  // ---------------------------------------------------------------- what the late branch leaves alone

  /** Only late spans of this session may end earlier, and one late span may be added. */
  ghost predicate OnlyLateChanges(s: State, t: State, session: string) {
    && t.works == s.works && t.sources == s.sources && s.bindings.Keys <= t.bindings.Keys
    && (forall b :: b in s.bindings && !(s.bindings[b].session == session && s.bindings[b].reason.LateSource? && s.bindings[b].closedAt.Some?)
          ==> t.bindings[b] == s.bindings[b])
    && (forall b :: b in t.bindings && b !in s.bindings ==> t.bindings[b].reason.LateSource? && t.bindings[b].closedAt.Some?)
  }

  ghost predicate Fresh(s: State) {
    (forall b :: b in s.bindings ==> b < s.nextBinding) && (forall w :: w in s.works ==> w < s.nextWork)
  }

  /** The late branch changes no work item, no open binding and no binding that is not late. */
  lemma LateSourceChangesOnlyLateSpans(s: State, i: Input, sel: Selected)
    requires Fresh(s) && Selects(s, i, sel)
    requires var c := Current(s.bindings, i.session); c.Some? && IsLate(i, s.bindings[c.value])
    ensures OnlyLateChanges(s, Bind(s, i, sel).state, i.session)
    ensures forall session, b :: Open(s.bindings, session, b) <==> Open(Bind(s, i, sel).state.bindings, session, b)
  {
    LateChanges(s, i, sel);
    LateKeepsOpen(s, i, sel);
    hide Selects, OnlyLateChanges, BindLate, Rebind, Open;
  }

  lemma LateChanges(s: State, i: Input, sel: Selected)
    requires Fresh(s) && Selects(s, i, sel)
    ensures OnlyLateChanges(s, BindLate(s, i, sel.historical, sel.next).state, i.session)
  {
  }

  lemma LateKeepsOpen(s: State, i: Input, sel: Selected)
    requires Fresh(s) && Selects(s, i, sel)
    ensures forall session, b ::
              Open(s.bindings, session, b) <==> Open(BindLate(s, i, sel.historical, sel.next).state.bindings, session, b)
  {
  }

  ghost predicate SpansCapture(r: Bound, i: Input) {
    && r.binding in r.state.bindings
    && r.state.bindings[r.binding].session == i.session && r.state.bindings[r.binding].context == i.context
    && Spans(r.state.bindings[r.binding], i.capturedAt)
  }

  lemma LateSpansCapture(s: State, i: Input, historical: seq<BindingId>, next: Option<int>)
    requires forall k :: 0 <= k < |historical| ==> historical[k] in s.bindings && historical[k] in HistoricalOf(s, i)
    requires i.capturedAt < MAX_SAFE_INTEGER && (next.Some? ==> i.capturedAt < next.value)
    ensures SpansCapture(BindLate(s, i, historical, next), i)
  {
    hide CloseLateSpans;
  }

  lemma RebindSpansCapture(s: State, i: Input, current: Option<BindingId>, only: Option<WorkId>)
    ensures SpansCapture(Rebind(s, i, current, only), i)
  {
    VacateNext(s, current, i.session, i.capturedAt);
    hide Vacate, ActiveIn, PurposeOf;
  }

  lemma VacateNext(s: State, current: Option<BindingId>, session: string, at: int)
    ensures Vacate(s, current, session, at).nextBinding == s.nextBinding
  {
  }

  /** Whatever branch is taken, the binding returned is the session's, the context's, and spans the capture time. */
  lemma BoundSpansCapture(s: State, i: Input, sel: Selected)
    requires Fresh(s) && Selects(s, i, sel) && i.capturedAt < MAX_SAFE_INTEGER
    ensures SpansCapture(Bind(s, i, sel), i)
  {
    var current := Current(s.bindings, i.session);
    if current.Some? && IsLate(i, s.bindings[current.value]) {
      assert sel.next.Some? ==> i.capturedAt < sel.next.value;
      LateSpansCapture(s, i, sel.historical, sel.next);
    } else {
      RebindSpansCapture(s, i, current, sel.only);
    }
    hide BindLate, Rebind, ActiveIn, EmptyWork, PurposeOf;
  }

  // ---------------------------------------------------------------- every run

  datatype Step =
    | CaptureStep(i: Input, sel: Selected)
    | ChooseStep(b: BindingId, context: string, choice: Choice, now: int)
    | ChooseSourceStep(source: SourceId, context: string, choice: Choice, now: int)
    | CompleteStep(w: WorkId)

  ghost function Next(s: State, step: Step): State {
    match step
    case CaptureStep(i, sel) => if Selects(s, i, sel) then CaptureSource(s, i, sel) else s
    case ChooseStep(b, context, choice, now) => ChooseWork(s, b, context, choice, now).state
    case ChooseSourceStep(source, context, choice, now) => ChooseSourceWork(s, source, context, choice, now).state
    case CompleteStep(w) => CompleteWork(s, w)
  }

  ghost function At(start: State, run: seq<Step>): State {
    if run == [] then start else Next(At(start, run[..|run| - 1]), run[|run| - 1])
  }

  ghost predicate OneOpen(bindings: map<BindingId, Binding>) {
    forall session, a, b :: Open(bindings, session, a) && Open(bindings, session, b) ==> a == b
  }

  /** Late spans are always closed, works exist, and a source is bound within its own session. */
  ghost predicate Homed(s: State) {
    && Fresh(s)
    && (forall b :: b in s.bindings ==>
          && (s.bindings[b].reason.LateSource? ==> s.bindings[b].closedAt.Some?)
          && (s.bindings[b].work.Some? ==> s.bindings[b].work.value in s.works))
    && (forall e :: e in s.sources && s.sources[e].binding.Some? ==>
          s.sources[e].binding.value in s.bindings && s.bindings[s.sources[e].binding.value].session == s.sources[e].session)
  }

  ghost predicate Inv(s: State) {
    Homed(s) && OneOpen(s.bindings)
  }

  /** Bindings keep their session, context and start for ever, and their work once they have one. */
  ghost predicate Kept(s: State, t: State) {
    && s.works.Keys <= t.works.Keys && s.bindings.Keys <= t.bindings.Keys
    && (forall b :: b in s.bindings ==>
          && t.bindings[b].session == s.bindings[b].session && t.bindings[b].context == s.bindings[b].context
          && t.bindings[b].createdAt == s.bindings[b].createdAt
          && (s.bindings[b].work.Some? ==> t.bindings[b].work == s.bindings[b].work)
          && (s.bindings[b].closedAt.Some? ==> t.bindings[b].closedAt.Some?))
    && (forall e :: e in s.sources ==>
          && e in t.sources && t.sources[e].session == s.sources[e].session
          && (s.sources[e].binding.Some? ==> t.sources[e].binding == s.sources[e].binding))
  }

  /** A step that opens at most one binding, and only where none stays open. */
  ghost predicate OpensOne(s: State, t: State) {
    forall session, a, b :: Open(t.bindings, session, a) && Open(t.bindings, session, b) && a != b ==>
      Open(s.bindings, session, a) && Open(s.bindings, session, b)
  }

  /** What every row update keeps. */
  ghost predicate Good(s: State, t: State) {
    Kept(s, t) && OpensOne(s, t) && Homed(t)
  }

  lemma GoodTrans(s: State, t: State, u: State)
    requires Good(s, t) && Good(t, u)
    ensures Good(s, u)
  {
  }

  lemma GoodRefl(s: State)
    requires Homed(s)
    ensures Good(s, s)
  {
  }

  lemma InsertGood(s: State, b: Binding)
    requires Homed(s) && (b.work.Some? ==> b.work.value in s.works) && (b.reason.LateSource? ==> b.closedAt.Some?)
    requires b.closedAt.None? ==> forall other :: !Open(s.bindings, b.session, other)
    ensures Good(s, Insert(s, b)) && s.nextBinding in Insert(s, b).bindings && Insert(s, b).bindings[s.nextBinding] == b
    ensures Insert(s, b).sources == s.sources
  {
    var t := Insert(s, b);
    forall session, other | Open(t.bindings, session, other) && other != s.nextBinding ensures Open(s.bindings, session, other) {
    }
  }

  lemma CloseSpansGood(s: State, session: string, at: int)
    requires Homed(s)
    ensures var t := s.(bindings := CloseLateSpans(s.bindings, session, at));
            Good(s, t) && t.sources == s.sources && forall x, b :: Open(t.bindings, x, b) <==> Open(s.bindings, x, b)
  {
    hide OpensOne;
    var t := s.(bindings := CloseLateSpans(s.bindings, session, at));
    assert OpensOne(s, t) by { SameOpen(s, t); }
  }

  lemma SameOpen(s: State, t: State)
    requires forall x, b :: Open(t.bindings, x, b) ==> Open(s.bindings, x, b)
    ensures OpensOne(s, t)
  {
  }

  lemma CloseKeeps(s: State, b: Option<BindingId>, at: int)
    requires Homed(s)
    ensures Kept(s, Close(s, b, at)) && Homed(Close(s, b, at))
  {
  }

  lemma CloseGood(s: State, b: Option<BindingId>, at: int)
    requires Homed(s)
    ensures var t := Close(s, b, at);
            && Good(s, t) && t.sources == s.sources && t.works == s.works
            && forall x: string, other: BindingId :: Open(t.bindings, x, other) <==> Open(s.bindings, x, other) && b != Some(other)
  {
    CloseKeeps(s, b, at);
    hide OpensOne, Kept, Homed;
    SameOpen(s, Close(s, b, at));
  }

  lemma CreateWorkGood(s: State, context: string, purpose: Option<string>, source: SourceId, state: WorkState, at: int)
    requires Homed(s)
    ensures var t := CreateWork(s, context, purpose, source, state, at);
            && Good(s, t) && t.bindings == s.bindings && t.sources == s.sources && t.nextBinding == s.nextBinding
            && s.nextWork in t.works
  {
    hide OpensOne;
    SameOpen(s, CreateWork(s, context, purpose, source, state, at));
  }

  lemma WorksGood(s: State, works: map<WorkId, Work>)
    requires Homed(s) && works.Keys == s.works.Keys
    ensures Good(s, s.(works := works))
  {
    hide OpensOne;
    SameOpen(s, s.(works := works));
  }

  lemma SetWorkGood(s: State, b: BindingId, target: WorkId)
    requires Homed(s) && b in s.bindings && s.bindings[b].work.None? && target in s.works
    ensures var t := SetWork(s, b, target);
            && Good(s, t) && t.works == s.works && b in t.bindings && t.bindings[b].session == s.bindings[b].session
            && (OneOpen(s.bindings) ==> OneOpen(t.bindings))
            && forall x, other :: Open(t.bindings, x, other) <==> Open(s.bindings, x, other)
  {
    hide OpensOne;
    var t := SetWork(s, b, target);
    assert forall x, other :: Open(t.bindings, x, other) <==> Open(s.bindings, x, other);
    SameOpen(s, t);
    hide Open;
  }

  lemma LateGood(s: State, i: Input, historical: seq<BindingId>, next: Option<int>)
    requires Homed(s) && forall k :: 0 <= k < |historical| ==> historical[k] in s.bindings && historical[k] in HistoricalOf(s, i)
    ensures var r := BindLate(s, i, historical, next);
            && Good(s, r.state) && r.state.sources == s.sources
            && r.binding in r.state.bindings && r.state.bindings[r.binding].session == i.session
  {
    hide Good, Homed;
    GoodRefl(s);
    var closed := s.(bindings := CloseLateSpans(s.bindings, i.session, i.capturedAt));
    CloseSpansGood(s, i.session, i.capturedAt);
    GoodIsHomed(s, closed);
    var late := Binding(i.session, i.context, None, i.capturedAt, Some(next.GetOr(MAX_SAFE_INTEGER)), LateSource);
    InsertGood(closed, late);
    GoodTrans(s, closed, Insert(closed, late));
    hide CloseLateSpans, Insert;
  }

  lemma GoodIsHomed(s: State, t: State)
    requires Good(s, t)
    ensures Homed(t) && s.works.Keys <= t.works.Keys
  {
  }

  /** After the session's open binding is closed, nothing is open in it. */
  lemma VacateGood(s: State, current: Option<BindingId>, session: string, at: int)
    requires Homed(s) && OneOpen(s.bindings)
    requires if current.Some? then Open(s.bindings, session, current.value) else forall b :: !Open(s.bindings, session, b)
    ensures var t := Vacate(s, current, session, at);
            && Good(s, t) && t.sources == s.sources && t.works == s.works && t.nextBinding == s.nextBinding
            && forall b :: !Open(t.bindings, session, b)
  {
    var closed := Close(s, current, at);
    CloseGood(s, current, at);
    assert forall b :: !Open(closed.bindings, session, b);
    hide Good, Homed, OneOpen, CloseLateSpans, Open;
    GoodIsHomed(s, closed);
    CloseSpansGood(closed, session, at);
    GoodTrans(s, closed, Vacate(s, current, session, at));
  }

  lemma RebindGood(s: State, i: Input, current: Option<BindingId>, only: Option<WorkId>)
    requires Homed(s) && OneOpen(s.bindings) && OnlyOne(ActiveIn(s, i.context), only)
    requires if current.Some? then Open(s.bindings, i.session, current.value) else forall b :: !Open(s.bindings, i.session, b)
    ensures var r := Rebind(s, i, current, only);
            && Good(s, r.state) && r.state.sources == s.sources
            && r.binding in r.state.bindings && r.state.bindings[r.binding].session == i.session
  {
    hide Good, Homed, OneOpen, Open, Vacate, ActiveIn, OnlyOne, Insert, CreateWork, PurposeOf;
    var spans := Vacate(s, current, i.session, i.capturedAt);
    VacateGood(s, current, i.session, i.capturedAt);
    OnlyExists(s, i.context, only);
    GoodIsHomed(s, spans);
    if i.declaration.Some? || ActiveIn(spans, i.context) == {} {
      var made := CreateWork(spans, i.context, PurposeOf(i), i.source, Active, i.capturedAt);
      CreateWorkGood(spans, i.context, PurposeOf(i), i.source, Active, i.capturedAt);
      GoodIsHomed(spans, made);
      GoodTrans(s, spans, made);
      var named := if i.declaration.Some? then NewPurpose else NewContext;
      var first := Binding(i.session, i.context, Some(spans.nextWork), i.capturedAt, None, named);
      InsertGood(made, first);
      GoodTrans(s, made, Insert(made, first));
    } else {
      var joined := Binding(i.session, i.context, only, i.capturedAt, None,
          if only.Some? then OnlyActive else Ambiguous);
      InsertGood(spans, joined);
      GoodTrans(s, spans, Insert(spans, joined));
    }
  }

  lemma OnlyExists(s: State, context: string, only: Option<WorkId>)
    requires OnlyOne(ActiveIn(s, context), only)
    ensures only.Some? ==> only.value in s.works
  {
    assert only.Some? ==> only.value in ActiveIn(s, context);
  }

  lemma BindGood(s: State, i: Input, sel: Selected)
    requires Homed(s) && OneOpen(s.bindings) && Selects(s, i, sel)
    ensures var r := Bind(s, i, sel);
            && Good(s, r.state) && r.state.sources == s.sources
            && r.binding in r.state.bindings && r.state.bindings[r.binding].session == i.session
  {
    var current := Current(s.bindings, i.session);
    hide Good, Homed, OneOpen, BindLate, Rebind, StaysBound;
    if current.Some? && IsLate(i, s.bindings[current.value]) {
      LateGood(s, i, sel.historical, sel.next);
    } else if current.Some? && StaysBound(s, i, current.value) {
      WorksGood(s, GivePurpose(s, i, s.bindings[current.value].work).works);
    } else {
      RebindGood(s, i, current, sel.only);
    }
  }

  lemma CaptureGood(s: State, i: Input, sel: Selected)
    requires Homed(s) && OneOpen(s.bindings) && Selects(s, i, sel)
    ensures Good(s, CaptureSource(s, i, sel))
  {
    var r := Bind(s, i, sel);
    BindGood(s, i, sel);
    hide Bind, Selects;
    if i.source !in r.state.sources {
      var bound := Source(i.session, Some(r.binding), i.counts, Some(i.capturedAt), i.selectable);
      SourceGood(r.state, i.source, bound);
      GoodTrans(s, r.state, r.state.(sources := r.state.sources[i.source := bound]));
    }
    hide Good;
  }

  lemma SourceGood(s: State, id: SourceId, source: Source)
    requires Homed(s) && source.binding.Some? && source.binding.value in s.bindings
    requires s.bindings[source.binding.value].session == source.session
    requires id in s.sources ==> s.sources[id].session == source.session && s.sources[id].binding.None?
    ensures Good(s, s.(sources := s.sources[id := source]))
  {
    hide OpensOne;
    SameOpen(s, s.(sources := s.sources[id := source]));
  }

  lemma ResumeGood(s: State, context: string, choice: Choice, now: int)
    requires Homed(s) && Offered(s, choice)
    ensures var t := Resume(s, context, choice, now);
            && Good(s, t) && Homed(t) && t.bindings == s.bindings && TargetOf(s,
                choice) in t.works && t.nextBinding == s.nextBinding
  {
    hide OpensOne;
    SameOpen(s, Resume(s, context, choice, now));
  }

  lemma MoveGood(s: State, b: BindingId, target: WorkId, now: int)
    requires Homed(s) && OneOpen(s.bindings) && b in s.bindings && s.bindings[b].closedAt.None? && target in s.works
    ensures Good(s, MoveTo(s, b, target, now))
  {
    var session := s.bindings[b].session;
    assert Open(s.bindings, session, b);
    hide Good, Homed, OneOpen, Open, Vacate, Insert;
    VacateGood(s, Some(b), session, now);
    var spans := Vacate(s, Some(b), session, now);
    GoodIsHomed(s, spans);
    var next := Binding(session, s.bindings[b].context, Some(target), now, None, Explicit);
    InsertGood(spans, next);
    GoodTrans(s, spans, Insert(spans, next));
  }

  lemma ChooseGood(s: State, b: BindingId, context: string, choice: Choice, now: int)
    requires Homed(s) && OneOpen(s.bindings)
    ensures Good(s, ChooseWork(s, b, context, choice, now).state)
  {
    GoodRefl(s);
    hide Good, Homed, OneOpen, Resume, SetWork, MoveTo, TargetOf;
    if Choosable(s, b, context, choice) {
      var t, target := Resume(s, context, choice, now), TargetOf(s, choice);
      ResumeGood(s, context, choice, now);
      if s.bindings[b].work.None? {
        var named := SetWork(t, b, target);
        SetWorkGood(t, b, target);
        GoodTrans(s, t, named);
        GoodIsHomed(t, named);
        if s.bindings[b].closedAt.None? {
          SetWorkStays(t, b, target);
          MoveGood(named, b, target, now);
          GoodTrans(s, named, MoveTo(named, b, target, now));
        }
      } else if s.bindings[b].work != Some(target) {
        MoveGood(t, b, target, now);
        GoodTrans(s, t, MoveTo(t, b, target, now));
      }
    }
  }

  lemma SetWorkStays(s: State, b: BindingId, target: WorkId)
    requires b in s.bindings
    ensures SetWork(s, b, target).bindings[b].closedAt == s.bindings[b].closedAt
  {
  }

  /** A source without a binding takes a closed one of its own session. */
  lemma OwnBindingGood(s: State, source: SourceId, own: Binding)
    requires Homed(s) && source in s.sources && s.sources[source].binding.None?
    requires own.session == s.sources[source].session
    requires own.closedAt.Some? && own.work.Some? && own.work.value in s.works
    ensures Insert(s, own).sources == s.sources && Good(s, BindSource(Insert(s, own), source, s.nextBinding))
  {
    hide Good, Homed, Insert, BindSource;
    var t := Insert(s, own);
    InsertGood(s, own);
    GoodIsHomed(s, t);
    BindSourceGood(t, source, s.nextBinding);
    GoodTrans(s, t, BindSource(t, source, s.nextBinding));
  }

  lemma ChooseSourceGood(s: State, source: SourceId, context: string, choice: Choice, now: int)
    requires Homed(s)
    ensures Good(s, ChooseSourceWork(s, source, context, choice, now).state)
  {
    hide Good, Homed, CreateWork, Insert, BindSource;
    GoodRefl(s);
    if source in s.sources && s.sources[source].binding.None? && Offered(s, choice) {
      var at := s.sources[source].capturedAt.GetOr(now);
      var own := Binding(s.sources[source].session, context, Some(TargetOf(s, choice)), at, Some(at + 1), Explicit);
      if choice.NewWork? {
        CreateWorkGood(s, context, None, "", Dormant, now);
        var made := CreateWork(s, context, None, "", Dormant, now);
        GoodIsHomed(s, made);
        OwnBindingGood(made, source, own);
        GoodTrans(s, made, BindSource(Insert(made, own), source, s.nextBinding));
      } else {
        OwnBindingGood(s, source, own);
      }
    }
  }

  lemma BindSourceGood(s: State, source: SourceId, b: BindingId)
    requires Homed(s) && source in s.sources && s.sources[source].binding.None?
    requires b in s.bindings && s.bindings[b].session == s.sources[source].session
    ensures Good(s, BindSource(s, source, b))
  {
    hide OpensOne;
    SameOpen(s, BindSource(s, source, b));
  }

  lemma OneOpenStays(s: State, t: State)
    requires Good(s, t) && OneOpen(s.bindings)
    ensures Inv(t)
  {
    hide Open, Kept, Homed;
  }

  lemma {:induction false} StepGood(s: State, step: Step)
    requires Inv(s)
    ensures Good(s, Next(s, step)) && Inv(Next(s, step))
  {
    GoodRefl(s);
    hide Good, Homed, OneOpen, CaptureSource, Selects, ChooseWork, ChooseSourceWork;
    match step {
      case CaptureStep(i, sel) =>
        if Selects(s, i, sel) {
          CaptureGood(s, i, sel);
        }
      case ChooseStep(b, context, choice, now) => ChooseGood(s, b, context, choice, now);
      case ChooseSourceStep(source, context, choice, now) => ChooseSourceGood(s, source, context, choice, now);
      case CompleteStep(w) => WorksGood(s, CompleteWork(s, w).works);
    }
    OneOpenStays(s, Next(s, step));
    hide Inv;
  }

  lemma {:induction false} RunInvariant(start: State, run: seq<Step>)
    requires Inv(start)
    ensures Inv(At(start, run))
  {
    if run != [] {
      RunInvariant(start, run[..|run| - 1]);
      StepGood(At(start, run[..|run| - 1]), run[|run| - 1]);
      hide Inv, Next, Good;
    }
  }

  // ---------------------------------------------------------------- main results

  const EMPTY := State(map[], map[], map[], 0, 0)

  lemma EmptyInv()
    ensures Inv(EMPTY)
  {
  }

  /** A session never has two open bindings, and every bound source is bound within its own session. */
  lemma {:induction false} OneOpenBindingPerSession(run: seq<Step>, session: string, a: BindingId, b: BindingId,
      e: SourceId)
    requires Open(At(EMPTY, run).bindings, session, a) && Open(At(EMPTY, run).bindings, session, b)
    ensures a == b
    ensures var s := At(EMPTY, run);
            e in s.sources && s.sources[e].binding.Some? ==>
              s.sources[e].binding.value in s.bindings && s.bindings[s.sources[e].binding.value].session == s.sources[e].session
  {
    EmptyInv();
    RunInvariant(EMPTY, run);
    hide At;
  }

  /** A binding's work never changes once it is set, nor does its session, context or start; nothing closed reopens. */
  lemma {:induction false} WorkNeverChanges(start: State, run: seq<Step>, m: nat)
    requires Inv(start) && m <= |run|
    ensures Kept(At(start, run[..m]), At(start, run))
  {
    if m == |run| {
      assert run[..m] == run;
    } else {
      var before := run[..|run| - 1];
      assert before[..m] == run[..m];
      WorkNeverChanges(start, before, m);
      RunInvariant(start, before);
      StepGood(At(start, before), run[|run| - 1]);
      hide Inv, Next, OpensOne, Homed;
    }
  }

  // ---------------------------------------------------------------- the tables, updated in place

  class WorkTables {
    var works: map<WorkId, Work>
    var bindings: map<BindingId, Binding>
    var sources: map<SourceId, Source>
    var nextWork: nat
    var nextBinding: nat

    function Value(): State
      reads this
    {
      State(works, bindings, sources, nextWork, nextBinding)
    }

    constructor ()
      ensures Value() == EMPTY && Inv(Value())
    {
      works, bindings, sources, nextWork, nextBinding := map[], map[], map[], 0, 0;
    }

    method CurrentBinding(session: string) returns (current: Option<BindingId>)
      requires OneOpen(bindings)
      ensures current == Current(bindings, session)
    {
      var rest := bindings.Keys;
      while rest != {}
        invariant rest <= bindings.Keys
        invariant forall b :: Open(bindings, session, b) ==> b in rest
        decreases rest
      {
        var b :| b in rest;
        rest := rest - {b};
        if bindings[b].session == session && bindings[b].closedAt.None? {
          assert Open(bindings, session, b);
          return Some(b);
        }
      }
      current := None;
    }

    method Newest(candidates: set<BindingId>) returns (newest: BindingId)
      requires candidates != {} && candidates <= bindings.Keys
      ensures newest in candidates && forall b :: b in candidates ==> bindings[b].createdAt <= bindings[newest].createdAt
    {
      newest :| newest in candidates;
      var rest := candidates - {newest};
      while rest != {}
        invariant rest <= candidates && newest in candidates
        invariant forall b :: b in candidates && b !in rest ==> bindings[b].createdAt <= bindings[newest].createdAt
        decreases rest
      {
        var b :| b in rest;
        rest := rest - {b};
        if bindings[newest].createdAt < bindings[b].createdAt {
          newest := b;
        }
      }
    }

    method SelectHistorical(i: Input) returns (historical: seq<BindingId>)
      ensures NewestTwo(Value(), HistoricalOf(Value(), i), historical)
    {
      var all := set b | b in bindings && bindings[b].session == i.session && bindings[b].context == i.context && Spans(bindings[b], i.capturedAt);
      assert all == HistoricalOf(Value(), i);
      if all == {} {
        return [];
      }
      var first := Newest(all);
      var others := all - {first};
      assert |all| == |others| + 1;
      if others == {} {
        return [first];
      }
      var second := Newest(others);
      historical := [first, second];
    }

    method SelectNext(i: Input) returns (next: Option<int>)
      ensures Earliest(Starts(Value(), i), next)
    {
      next := None;
      ghost var times := Starts(Value(), i);
      var rest := bindings.Keys;
      while rest != {}
        invariant rest <= bindings.Keys
        invariant next.Some? ==> next.value in times
        invariant forall b :: b in bindings && b !in rest && Later(bindings[b], i) ==> next.Some? && next.value <= bindings[b].createdAt
        decreases rest
      {
        var b :| b in rest;
        rest := rest - {b};
        if Later(bindings[b], i) && (next.None? || bindings[b].createdAt < next.value) {
          next := Some(bindings[b].createdAt);
        }
      }
      assert forall t :: t in times ==> exists b :: b in bindings && Later(bindings[b], i) && bindings[b].createdAt == t;
    }

    static predicate Later(b: Binding, i: Input) {
      b.session == i.session && b.createdAt > i.capturedAt && !b.reason.LateSource?
    }

    /** An unplaceable late source is retained without changing the active selection. */
    method BindLateSource(i: Input, historical: seq<BindingId>, next: Option<int>) returns (binding: BindingId)
      requires forall k :: 0 <= k < |historical| ==> historical[k] in bindings
      modifies this`bindings, this`nextBinding
      ensures Bound(Value(), binding, false) == BindLate(old(Value()), i, historical, next)
    {
      if i.declaration.None? {
        if |historical| >= 1 && bindings[historical[0]].reason.LateSource? {
          return historical[0];
        }
        if |historical| >= 2 && bindings[historical[1]].reason.LateSource? {
          return historical[1];
        }
        if |historical| == 1 {
          return historical[0];
        }
      }
      bindings := CloseLateSpans(bindings, i.session, i.capturedAt);
      binding := nextBinding;
      InsertBinding(Binding(i.session, i.context, None, i.capturedAt, Some(next.GetOr(MAX_SAFE_INTEGER)), LateSource));
    }

    /** The current work takes the first thing the user asked for as its purpose. */
    method TakePurpose(i: Input, work: Option<WorkId>)
      modifies this`works
      ensures Value() == GivePurpose(old(Value()), i, work)
    {
      var purpose := PurposeOf(i);
      if work.Some? && work.value in works && purpose.Some? && works[work.value].purpose.None? && works[work.value].purposeSource.None? {
        works := works[work.value := works[work.value].(purpose := purpose, purposeSource := Some(i.source))];
      }
    }

    method VacateSession(current: Option<BindingId>, session: string, at: int)
      modifies this`bindings
      ensures Value() == Vacate(old(Value()), current, session, at)
    {
      if current.Some? && current.value in bindings {
        bindings := bindings[current.value := bindings[current.value].(closedAt := Some(at))];
      }
      bindings := CloseLateSpans(bindings, session, at);
    }

    method NewWorkItem(context: string, purpose: Option<string>, source: SourceId, state: WorkState, at: int)
        returns (id: WorkId)
      modifies this`works, this`nextWork
      ensures Value() == CreateWork(old(Value()), context, purpose, source, state, at) && id == old(nextWork)
    {
      id := nextWork;
      works := works[id := Work(context, state, purpose, if purpose.None? then None else Some(source), at)];
      nextWork := nextWork + 1;
    }

    method RebindSession(i: Input, current: Option<BindingId>, only: Option<WorkId>) returns (binding: BindingId)
      modifies this
      ensures Bound(Value(), binding, current.Some?) == Rebind(old(Value()), i, current, only)
    {
      VacateNext(Value(), current, i.session, i.capturedAt);
      VacateSession(current, i.session, i.capturedAt);
      hide Vacate, ActiveIn;
      var candidates := if i.declaration.None? then ActiveIn(Value(), i.context) else {};
      binding := nextBinding;
      if candidates == {} {
        var work := NewWorkItem(i.context, PurposeOf(i), i.source, Active, i.capturedAt);
        var reason := if i.declaration.Some? then NewPurpose else NewContext;
        InsertBinding(Binding(i.session, i.context, Some(work), i.capturedAt, None, reason));
      } else {
        InsertBinding(Binding(i.session, i.context, only, i.capturedAt, None,
            if only.Some? then OnlyActive else Ambiguous));
      }
    }

    /** Returns the row's binding; `sel` is what the selections found. */
    method BindCapturedWork(i: Input) returns (binding: BindingId, closedPrevious: bool, ghost sel: Selected)
      requires Inv(Value())
      modifies this
      ensures Selects(old(Value()), i, sel)
      ensures Bound(Value(), binding, closedPrevious) == Bind(old(Value()), i, sel)
    {
      hide NewestTwo, Earliest, Homed, HistoricalOf, Starts, EmptyWork, BindLate, Rebind, GivePurpose, ActiveIn,
          OnlyOne;
      var current := CurrentBinding(i.session);
      var historical := SelectHistorical(i);
      HistoricalExists(Value(), i, historical);
      var next := SelectNext(i);
      var only := OneOf(ActiveIn(Value(), i.context));
      sel := Selected(historical, next, only);
      closedPrevious := false;
      if current.Some? && IsLate(i, bindings[current.value]) {
        binding := BindLateSource(i, historical, next);
      } else if current.Some? && StaysBound(Value(), i, current.value) {
        binding := current.value;
        TakePurpose(i, bindings[binding].work);
      } else {
        binding := RebindSession(i, current, only);
        closedPrevious := current.Some?;
      }
    }

    method ChooseForBinding(b: BindingId, context: string, choice: Choice, now: int) returns (chosen: Option<BindingId>)
      modifies this
      ensures Chosen(Value(), chosen) == ChooseWork(old(Value()), b, context, choice, now)
    {
      if !Choosable(Value(), b, context, choice) {
        return None;
      }
      var binding := bindings[b];
      var target := nextWork;
      if choice.NewWork? {
        target := NewWorkItem(context, None, "", Active, now);
      } else {
        target := choice.id;
      }
      works := works[target := works[target].(state := Active)];
      if binding.work == Some(target) {
        return Some(b);
      }
      if binding.work.None? {
        var reason := if binding.reason.LateSource? then LateSource else Explicit;
        bindings := bindings[b := binding.(work := Some(target), reason := reason)];
        if choice.ExistingWork? || binding.closedAt.Some? {
          return Some(b);
        }
      }
      chosen := Some(nextBinding);
      var next := Binding(binding.session, binding.context, Some(target), now, None, Explicit);
      VacateNext(Value(), Some(b), binding.session, now);
      VacateSession(Some(b), binding.session, now);
      hide Vacate;
      InsertBinding(next);
    }

    method ChooseForSource(source: SourceId, context: string, choice: Choice, now: int)
        returns (chosen: Option<BindingId>)
      modifies this
      ensures Chosen(Value(), chosen) == ChooseSourceWork(old(Value()), source, context, choice, now)
    {
      if source !in sources || !sources[source].selectable || sources[source].binding.Some? || !Offered(Value(),
          choice) {
        return None;
      }
      var target := nextWork;
      if choice.NewWork? {
        target := NewWorkItem(context, None, "", Dormant, now);
      } else {
        target := choice.id;
      }
      var at := sources[source].capturedAt.GetOr(now);
      var id := nextBinding;
      InsertBinding(Binding(sources[source].session, context, Some(target), at, Some(at + 1), Explicit));
      sources := sources[source := sources[source].(binding := Some(id))];
      chosen := Some(id);
    }

    method InsertBinding(b: Binding)
      modifies this`bindings, this`nextBinding
      ensures Value() == Insert(old(Value()), b)
    {
      bindings := bindings[nextBinding := b];
      nextBinding := nextBinding + 1;
    }

    static method OneOf(candidates: set<WorkId>) returns (only: Option<WorkId>)
      ensures OnlyOne(candidates, only)
    {
      only := None;
      if candidates != {} {
        var w :| w in candidates;
        if candidates == {w} {
          return Some(w);
        }
        assert candidates - {w} != {};
        assert |candidates| == |candidates - {w}| + 1;
      }
    }
  }

  lemma HistoricalExists(s: State, i: Input, historical: seq<BindingId>)
    requires NewestTwo(s, HistoricalOf(s, i), historical)
    ensures forall k :: 0 <= k < |historical| ==> historical[k] in s.bindings
  {
  }
}
