/**
 * Sharing approvals (src/sharing.ts) and the personal clause readers apply (src/db/queries.ts,
 * visibilityScope): proposals are decided once, approvals of one text share one projection and one
 * grant, and readers of every repository find it. A memory's id stands for its content hash.
 */
module Sharing {
  import opened Options
  import opened SensitivityRaise

  datatype ProposalState = Pending | Approved | Rejected

  datatype Proposal = Proposal(
    repo: string, title: string, body: string, material: string, sensitivity: Rank,
    state: ProposalState, projected: Option<Hash>)

  /**
   * `plain` says that no column makes the row something other than a live projection: it is not
   * superseded, imported, part of a work, derived from a session, batch, parent or source, nor cited.
   */
  datatype Memory = Memory(repo: string, title: string, body: string, material: string, sensitivity: Rank,
      deleted: bool, plain: bool)

  /** `personal` is the grant row of audience personal: the unique index allows one per memory. */
  datatype State = State(proposals: map<string, Proposal>, memories: map<Hash, Memory>, personal: map<Hash, string>)

  function HashOf(p: Proposal): Hash {
    TextHash(p.title, p.body)
  }

  predicate SameText(p: Proposal, m: Memory) {
    p.title == m.title && p.body == m.body && p.material == m.material
  }

  predicate Adoptable(p: Proposal, m: Memory) {
    SameText(p, m) && !m.deleted && m.plain && m.sensitivity != SECRET
  }

  // ---------------------------------------------------------------- transactions

  datatype Decided = Decided(state: State, projected: Option<Hash>)

  /** approveProjection: nothing is written when the text's memory is secret, deleted or something else. */
  function Approve(s: State, id: string, sensitivity: Rank): Decided
    requires id in s.proposals
  {
    var p := s.proposals[id];
    var h := HashOf(p);
    if sensitivity == SECRET || (h in s.memories && !Adoptable(p, s.memories[h])) then Decided(s, None)
    else
      var m := if h in s.memories
               then s.memories[h].(sensitivity := MaxRank(sensitivity, s.memories[h].sensitivity))
               else Memory(p.repo, p.title, p.body, p.material, sensitivity, false, true);
      Decided(State(if p.state.Pending? then s.proposals[id := p.(state := Approved,
          projected := Some(h))] else s.proposals,
                    s.memories[h := m],
                    if h in s.personal then s.personal else s.personal[h := id]),
              Some(h))
  }

  /** The proposal part of recordObservationSharing; an exact direct declaration approves itself. */
  function Record(s: State, id: string, candidate: Proposal, automatic: bool): Decided {
    var t := if id in s.proposals then s else s.(proposals := s.proposals[id := candidate]);
    var p := t.proposals[id];
    if automatic && p.state.Pending? && p.title == candidate.title && p.body == candidate.body && p.material == candidate.material
    then Approve(t, id, candidate.sensitivity)
    else Decided(t, None)
  }

  /** The write transaction of an approval: `snapshot` is the row the privacy checks looked at. */
  function CommitApproval(s: State, id: string, snapshot: Proposal, originSensitivity: Rank): Decided {
    if id in s.proposals && s.proposals[id] == snapshot && snapshot.state.Pending?
    then Approve(s, id, MaxRank(originSensitivity, snapshot.sensitivity))
    else Decided(s, None)
  }

  function Reject(s: State, id: string): State {
    if id in s.proposals && s.proposals[id].state.Pending?
    then s.(proposals := s.proposals[id := s.proposals[id].(state := Rejected)])
    else s
  }

  // ---------------------------------------------------------------- readers

  /** The personal clause of visibilityScope; it names no repository and no work. */
  predicate PersonalClause(s: State, h: Hash) {
    && h in s.memories && h in s.personal && s.personal[h] in s.proposals
    && var p := s.proposals[s.personal[h]];
       p.state.Approved? && p.projected == Some(h) && SameText(p, s.memories[h])
  }

  // ---------------------------------------------------------------- every run

  /** Sharing, and what other parts of the program do to memories. */
  datatype Step =
    | RecordSharing(id: string, candidate: Proposal, automatic: bool)
    | ApproveSharing(id: string, snapshot: Proposal, originSensitivity: Rank)
    | RejectSharing(id: string)
    | AddMemory(hash: Hash, memory: Memory)
    | Tombstone(hash: Hash)
    | Retire(hash: Hash)
    | Harden(hash: Hash, rank: Rank)
    | Redact(hash: Hash)

  predicate Enabled(s: State, step: Step) {
    match step
    case RecordSharing(_, candidate, _) => candidate.state.Pending? && candidate.projected.None?
    case AddMemory(h, _) => h !in s.memories
    case Redact(h) => h in s.memories && (s.memories[h].deleted || s.memories[h].sensitivity == SECRET)
    case Tombstone(h) => h in s.memories
    case Retire(h) => h in s.memories
    case Harden(h, _) => h in s.memories
    case _ => true
  }

  function Next(s: State, step: Step): State {
    if !Enabled(s, step) then s
    else
      match step
      case RecordSharing(id, candidate, automatic) => Record(s, id, candidate, automatic).state
      case ApproveSharing(id, snapshot, origin) => CommitApproval(s, id, snapshot, origin).state
      case RejectSharing(id) => Reject(s, id)
      case AddMemory(h, m) => s.(memories := s.memories[h := m])
      case Tombstone(h) => s.(memories := s.memories[h := s.memories[h].(deleted := true)])
      case Retire(h) => s.(memories := s.memories[h := s.memories[h].(plain := false)])
      case Harden(h, rank) => s.(memories := s.memories[h := s.memories[h].(sensitivity := MaxRank(rank,
          s.memories[h].sensitivity))])
      case Redact(h) => s.(memories := s.memories[h := s.memories[h].(title := "", body := "")])
  }

  /** The ranks an identity was approved with, and those it got in any other way. */
  datatype Ranks = Ranks(approved: set<(Hash, Rank)>, other: set<(Hash, Rank)>)

  function ApprovedNow(s: State, step: Step): Option<(Hash, Rank)> {
    match step
    case RecordSharing(id, candidate, automatic) =>
      if Enabled(s, step) && Record(s, id, candidate, automatic).projected.Some?
      then Some((HashOf(candidate), candidate.sensitivity)) else None
    case ApproveSharing(id, snapshot, origin) =>
      if CommitApproval(s, id, snapshot, origin).projected.Some?
      then Some((HashOf(snapshot), MaxRank(origin, snapshot.sensitivity))) else None
    case _ => None
  }

  function NextRanks(s: State, ranks: Ranks, step: Step): Ranks {
    if ApprovedNow(s, step).Some? then ranks.(approved := ranks.approved + {ApprovedNow(s, step).value})
    else if !Enabled(s, step) then ranks
    else
      match step
      case AddMemory(h, m) => ranks.(other := ranks.other + {(h, m.sensitivity)})
      case Harden(h, rank) => ranks.(other := ranks.other + {(h, rank)})
      case _ => ranks
  }

  const EMPTY := State(map[], map[], map[])

  function At(run: seq<Step>): State {
    if run == [] then EMPTY else Next(At(run[..|run| - 1]), run[|run| - 1])
  }

  function RanksAt(run: seq<Step>): Ranks {
    if run == [] then Ranks({}, {}) else NextRanks(At(run[..|run| - 1]), RanksAt(run[..|run| - 1]), run[|run| - 1])
  }

  // ---------------------------------------------------------------- invariants

  predicate Redacted(m: Memory) {
    m.deleted || m.sensitivity == SECRET
  }

  ghost predicate Projects(s: State, p: Proposal) {
    p.state.Approved? ==>
      && p.projected == Some(HashOf(p)) && HashOf(p) in s.memories && HashOf(p) in s.personal
      && (Redacted(s.memories[HashOf(p)]) || SameText(p, s.memories[HashOf(p)]))
  }

  ghost predicate Granted(s: State, h: Hash) {
    h in s.personal && s.personal[h] in s.proposals && s.proposals[s.personal[h]].state.Approved? && HashOf(s.proposals[s.personal[h]]) == h
  }

  ghost predicate Inv(s: State) {
    && (forall id :: id in s.proposals ==> Projects(s, s.proposals[id]))
    && (forall h :: h in s.personal ==> Granted(s, h))
  }

  /** Every rank is bounded by the memory's, and the memory's is one of them. */
  ghost predicate Strictest(s: State, ranks: Ranks) {
    && (forall x :: x in ranks.approved + ranks.other ==> x.0 in s.memories && x.1 <= s.memories[x.0].sensitivity)
    && (forall h :: h in s.memories ==> (h, s.memories[h].sensitivity) in ranks.approved + ranks.other)
  }

  lemma ApproveKeeps(s: State, id: string, sensitivity: Rank)
    requires Inv(s) && id in s.proposals && s.proposals[id].state.Pending?
    ensures Inv(Approve(s, id, sensitivity).state)
  {
    var t := Approve(s, id, sensitivity).state;
    forall other | other in t.proposals ensures Projects(t, t.proposals[other]) {
      assert Projects(s, s.proposals[other]);
    }
  }

  lemma StepKeeps(s: State, step: Step)
    requires Inv(s)
    ensures Inv(Next(s, step))
  {
    if Enabled(s, step) {
      match step
      case RecordSharing(id, candidate, automatic) =>
        var t := if id in s.proposals then s else s.(proposals := s.proposals[id := candidate]);
        forall other | other in t.proposals ensures Projects(t, t.proposals[other]) {
          assert other in s.proposals ==> Projects(s, s.proposals[other]);
        }
        assert Inv(t);
        if t.proposals[id].state.Pending? {
          ApproveKeeps(t, id, candidate.sensitivity);
        }
        hide Approve, Inv;
      case ApproveSharing(id, snapshot, origin) =>
        if id in s.proposals && s.proposals[id].state.Pending? {
          ApproveKeeps(s, id, MaxRank(origin, snapshot.sensitivity));
        }
        hide Approve, Inv;
      case RejectSharing(id) => OtherKeeps(s, step);
      case _ => OtherKeeps(s, step);
    }
  }

  lemma OtherKeeps(s: State, step: Step)
    requires Inv(s) && Enabled(s, step) && !step.RecordSharing? && !step.ApproveSharing?
    ensures Inv(Next(s, step))
  {
    var t := Next(s, step);
    forall other | other in t.proposals ensures Projects(t, t.proposals[other]) {
      assert Projects(s, s.proposals[other]);
    }
  }

  lemma {:induction false} RunInvariant(run: seq<Step>)
    ensures Inv(At(run))
  {
    if run != [] {
      RunInvariant(run[..|run| - 1]);
      StepKeeps(At(run[..|run| - 1]), run[|run| - 1]);
    }
  }

  // ---------------------------------------------------------------- main results

  lemma StepKeepsDecision(s: State, step: Step, id: string)
    requires id in s.proposals && !s.proposals[id].state.Pending?
    ensures id in Next(s, step).proposals && Next(s, step).proposals[id] == s.proposals[id]
  {
  }

  /** Decisions are final: a decided proposal never changes again. */
  lemma {:induction false} DecisionsAreFinal(run: seq<Step>, m: nat, id: string)
    requires m <= |run| && id in At(run[..m]).proposals && !At(run[..m]).proposals[id].state.Pending?
    ensures id in At(run).proposals && At(run).proposals[id] == At(run[..m]).proposals[id]
  {
    if m < |run| {
      var before := run[..|run| - 1];
      assert before[..m] == run[..m];
      DecisionsAreFinal(before, m, id);
      StepKeepsDecision(At(before), run[|run| - 1], id);
      hide Next;
    } else {
      assert run[..m] == run;
    }
  }

  /** All approvals of one exact text name one projection. */
  lemma {:induction false} OneProjectionPerText(run: seq<Step>, a: string, b: string)
    requires a in At(run).proposals && b in At(run).proposals
    requires var p, q := At(run).proposals[a], At(run).proposals[b];
             p.state.Approved? && q.state.Approved?
    ensures var p, q := At(run).proposals[a], At(run).proposals[b];
            p.projected.Some? && (p.projected == q.projected <==> p.title == q.title && p.body == q.body)
  {
    RunInvariant(run);
    assert Projects(At(run), At(run).proposals[a]) && Projects(At(run), At(run).proposals[b]);
  }

  /**
   * While the projection is not deleted or secret, its one personal grant satisfies readers' personal
   * clause - whichever of its approvals the grant names - and the clause asks for no repository.
   */
  lemma {:induction false} ApprovedIsVisible(run: seq<Step>, id: string)
    requires id in At(run).proposals && At(run).proposals[id].state.Approved?
    ensures var s := At(run);
            var h := HashOf(s.proposals[id]);
            h in s.memories && (!Redacted(s.memories[h]) ==> PersonalClause(s, h))
  {
    RunInvariant(run);
    var s := At(run);
    var h := HashOf(s.proposals[id]);
    assert Projects(s, s.proposals[id]);
    assert Granted(s, h);
    assert Projects(s, s.proposals[s.personal[h]]);
  }

  /** And nothing is visible everywhere without an approval of exactly its text. */
  lemma {:induction false} VisibleWasApproved(run: seq<Step>, h: Hash)
    requires PersonalClause(At(run), h)
    ensures exists id :: id in At(run).proposals && At(run).proposals[id].state.Approved?
              && HashOf(At(run).proposals[id]) == h && SameText(At(run).proposals[id], At(run).memories[h])
  {
    RunInvariant(run);
    var s := At(run);
    assert Granted(s, h);
    assert s.personal[h] in s.proposals;
  }

  /** One identity's rank is raised to, or starts at, a rank it is now known to be given. */
  lemma RankGiven(s: State, t: State, ranks: Ranks, more: Ranks, h: Hash, rank: Rank)
    requires Strictest(s, ranks) && more.approved + more.other == ranks.approved + ranks.other + {(h, rank)}
    requires t.memories.Keys == s.memories.Keys + {h}
    requires forall x :: x in s.memories && x != h ==> t.memories[x].sensitivity == s.memories[x].sensitivity
    requires t.memories[h].sensitivity == if h in s.memories then MaxRank(rank, s.memories[h].sensitivity) else rank
    ensures Strictest(t, more)
  {
  }

  lemma RanksKept(s: State, t: State, ranks: Ranks)
    requires Strictest(s, ranks) && t.memories.Keys == s.memories.Keys
    requires forall x :: x in s.memories ==> t.memories[x].sensitivity == s.memories[x].sensitivity
    ensures Strictest(t, ranks)
  {
  }

  /** What an approval does to the ranks of memories. */
  lemma ApproveRanks(s: State, id: string, sensitivity: Rank)
    requires id in s.proposals
    ensures var d, h := Approve(s, id, sensitivity), HashOf(s.proposals[id]);
            if d.projected.None? then d.state == s
            else
              && d.state.memories.Keys == s.memories.Keys + {h}
              && (forall x :: x in s.memories && x != h ==> d.state.memories[x] == s.memories[x])
              && d.state.memories[h].sensitivity == if h in s.memories then MaxRank(sensitivity,
                  s.memories[h].sensitivity) else sensitivity
  {
  }

  lemma ApprovalKeepsStrictest(s: State, ranks: Ranks, step: Step)
    requires Strictest(s, ranks) && (step.RecordSharing? || step.ApproveSharing?)
    ensures Strictest(Next(s, step), NextRanks(s, ranks, step))
  {
    hide Strictest, Approve;
    var t, more := Next(s, step), NextRanks(s, ranks, step);
    match step
    case RecordSharing(id, candidate, automatic) =>
      var noted := if id in s.proposals then s else s.(proposals := s.proposals[id := candidate]);
      RanksKept(s, noted, ranks);
      ApproveRanks(noted, id, candidate.sensitivity);
      if ApprovedNow(s, step).Some? {
        RankGiven(noted, t, ranks, more, HashOf(candidate), candidate.sensitivity);
      }
    case ApproveSharing(id, snapshot, origin) =>
      if id in s.proposals {
        ApproveRanks(s, id, MaxRank(origin, snapshot.sensitivity));
      }
      if ApprovedNow(s, step).Some? {
        RankGiven(s, t, ranks, more, HashOf(snapshot), MaxRank(origin, snapshot.sensitivity));
      }
  }

  lemma OtherKeepsStrictest(s: State, ranks: Ranks, step: Step)
    requires Strictest(s, ranks) && !step.RecordSharing? && !step.ApproveSharing?
    ensures Strictest(Next(s, step), NextRanks(s, ranks, step))
  {
    var t, more := Next(s, step), NextRanks(s, ranks, step);
    hide Strictest;
    if Enabled(s, step) {
      match step
      case AddMemory(h, m) => RankGiven(s, t, ranks, more, h, m.sensitivity);
      case Harden(h, rank) => RankGiven(s, t, ranks, more, h, rank);
      case _ => RanksKept(s, t, ranks);
    }
  }

  lemma StepKeepsStrictest(s: State, ranks: Ranks, step: Step)
    requires Strictest(s, ranks)
    ensures Strictest(Next(s, step), NextRanks(s, ranks, step))
  {
    if step.RecordSharing? || step.ApproveSharing? {
      ApprovalKeepsStrictest(s, ranks, step);
    } else {
      OtherKeepsStrictest(s, ranks, step);
    }
    hide Strictest, Next, NextRanks;
  }

  /** A memory is exactly as strict as the strictest approval of its text, or of what else it was given. */
  lemma {:induction false} ProjectionIsStrictest(run: seq<Step>)
    ensures Strictest(At(run), RanksAt(run))
  {
    if run != [] {
      ProjectionIsStrictest(run[..|run| - 1]);
      StepKeepsStrictest(At(run[..|run| - 1]), RanksAt(run[..|run| - 1]), run[|run| - 1]);
      hide Strictest, Next, NextRanks;
    }
  }

  // ---------------------------------------------------------------- when a proposal is approved, and what that writes

  /** The rank is not secret, and the text's memory, if there is one, is a live projection of exactly this text. */
  ghost predicate Permits(s: State, p: Proposal, rank: Rank) {
    && rank != SECRET
    && forall h :: h in s.memories && h == TextHash(p.title, p.body) ==>
         && s.memories[h].title == p.title && s.memories[h].body == p.body && s.memories[h].material == p.material
         && !s.memories[h].deleted && s.memories[h].plain && s.memories[h].sensitivity != SECRET
  }

  /** The proposal is approved, its projection is at least this strict, and one personal grant names an approval. */
  ghost predicate Grants(s: State, t: State, id: string, p: Proposal, rank: Rank) {
    var h := TextHash(p.title, p.body);
    && t.proposals == s.proposals[id := Proposal(p.repo, p.title, p.body, p.material, p.sensitivity, Approved, Some(h))]
    && t.personal == (if h in s.personal then s.personal else s.personal[h := id])
    && t.memories == s.memories[h :=
         if h in s.memories
         then Memory(s.memories[h].repo, p.title, p.body, p.material,
                if s.memories[h].sensitivity < rank then rank else s.memories[h].sensitivity, false, true)
         else Memory(p.repo, p.title, p.body, p.material, rank, false, true)]
  }

  /** The stored proposal, or the new one, is pending and has exactly the declared text. */
  ghost predicate Declared(s: State, id: string, candidate: Proposal) {
    id in s.proposals ==>
      && s.proposals[id].state == Pending && s.proposals[id].title == candidate.title && s.proposals[id].body == candidate.body
      && s.proposals[id].material == candidate.material
  }

  function Noted(s: State, id: string, candidate: Proposal): State {
    if id in s.proposals then s else State(s.proposals[id := candidate], s.memories, s.personal)
  }

  ghost predicate ShareOutcome(s: State, step: Step, t: State)
    requires step.RecordSharing? || step.ApproveSharing? || step.RejectSharing?
  {
    match step
    case RecordSharing(id, candidate, automatic) =>
      var noted := Noted(s, id, candidate);
      if automatic && Declared(s, id, candidate) && Permits(s, candidate, candidate.sensitivity)
      then Grants(noted, t, id, noted.proposals[id], candidate.sensitivity) else t == noted
    case ApproveSharing(id, snapshot, origin) =>
      var rank := if origin < snapshot.sensitivity then snapshot.sensitivity else origin;
      if id in s.proposals && s.proposals[id] == snapshot && snapshot.state == Pending && Permits(s, snapshot, rank)
      then Grants(s, t, id, snapshot, rank) else t == s
    case RejectSharing(id) =>
      if id in s.proposals && s.proposals[id].state == Pending then
        var p := s.proposals[id];
        t == State(s.proposals[id := Proposal(p.repo, p.title, p.body, p.material, p.sensitivity, Rejected, p.projected)], s.memories,
               s.personal)
      else t == s
  }

  lemma GrantedIfPermitted(s: State, id: string, rank: Rank)
    requires id in s.proposals && s.proposals[id].state.Pending?
    ensures var d := Approve(s, id, rank);
            if Permits(s, s.proposals[id], rank) then Grants(s, d.state, id, s.proposals[id], rank) else d.state == s
  {
    var p := s.proposals[id];
    var h := TextHash(p.title, p.body);
    assert h in s.memories && Permits(s, p, rank) ==> Adoptable(p, s.memories[h]);
  }

  /** Sharing writes what the outcome says, and nothing else. */
  lemma ShareMeans(s: State, step: Step)
    requires Enabled(s, step) && (step.RecordSharing? || step.ApproveSharing? || step.RejectSharing?)
    ensures ShareOutcome(s, step, Next(s, step))
  {
    match step
    case RecordSharing(id, candidate, automatic) =>
      var noted := Noted(s, id, candidate);
      if noted.proposals[id].state.Pending? {
        GrantedIfPermitted(noted, id, candidate.sensitivity);
      }
      hide Approve, Grants;
    case ApproveSharing(id, snapshot, origin) =>
      if id in s.proposals && s.proposals[id].state.Pending? {
        GrantedIfPermitted(s, id, MaxRank(origin, snapshot.sensitivity));
      }
      hide Approve, Grants;
    case RejectSharing(id) =>
  }

  predicate ApprovedIn(s: State, id: string) {
    id in s.proposals && s.proposals[id].state == Approved
  }

  /** The step approves this proposal: a person decides on what was checked, or an exact declaration is recorded. */
  ghost predicate Approves(s: State, step: Step, id: string) {
    match step
    case RecordSharing(x, candidate, automatic) =>
      && x == id && automatic && candidate.state == Pending && candidate.projected == None
      && Declared(s, id, candidate) && Permits(s, candidate, candidate.sensitivity)
    case ApproveSharing(x, snapshot, origin) =>
      && x == id && id in s.proposals && s.proposals[id] == snapshot && snapshot.state == Pending
      && Permits(s, snapshot, if origin < snapshot.sensitivity then snapshot.sensitivity else origin)
    case _ => false
  }

  /** In every run a proposal becomes approved exactly by such a step; an inferred one never approves itself. */
  lemma ApprovedExactly(run: seq<Step>, n: nat, id: string)
    requires n < |run| && !ApprovedIn(At(run[..n]), id)
    ensures ApprovedIn(At(run[..n + 1]), id) <==> Approves(At(run[..n]), run[n], id)
  {
    var s, step := At(run[..n]), run[n];
    assert run[..n + 1][..n] == run[..n];
    assert At(run[..n + 1]) == Next(s, step);
    if Enabled(s, step) && (step.RecordSharing? || step.ApproveSharing? || step.RejectSharing?) {
      ShareMeans(s, step);
      hide Next, Permits, At;
    } else {
      hide At, Permits;
    }
  }

  // ---------------------------------------------------------------- the tables, updated in place

  class SharingTables {
    var proposals: map<string, Proposal>
    var memories: map<Hash, Memory>
    var personal: map<Hash, string>

    ghost function Value(): State
      reads this
    {
      State(proposals, memories, personal)
    }

    constructor ()
      ensures Value() == EMPTY
    {
      proposals, memories, personal := map[], map[], map[];
    }

    method ApproveProjection(id: string, sensitivity: Rank) returns (projected: Option<Hash>)
      requires id in proposals
      modifies this
      ensures Decided(Value(), projected) == Approve(old(Value()), id, sensitivity)
    {
      if sensitivity == SECRET {
        return None;
      }
      var p := proposals[id];
      var h := HashOf(p);
      if h in memories {
        var prior := memories[h];
        if !SameText(p, prior) || prior.deleted || !prior.plain || prior.sensitivity == SECRET {
          return None;
        }
        memories := memories[h := prior.(sensitivity := MaxRank(sensitivity, prior.sensitivity))];
      } else {
        memories := memories[h := Memory(p.repo, p.title, p.body, p.material, sensitivity, false, true)];
      }
      if p.state.Pending? {
        proposals := proposals[id := p.(state := Approved, projected := Some(h))];
      }
      if h !in personal {
        personal := personal[h := id];
      }
      projected := Some(h);
    }

    method RecordSharing(id: string, candidate: Proposal, automatic: bool) returns (projected: Option<Hash>)
      modifies this
      ensures Decided(Value(), projected) == Record(old(Value()), id, candidate, automatic)
    {
      if id !in proposals {
        proposals := proposals[id := candidate];
      }
      var p := proposals[id];
      projected := None;
      if automatic && p.state.Pending? && p.title == candidate.title && p.body == candidate.body && p.material == candidate.material {
        projected := ApproveProjection(id, candidate.sensitivity);
      }
    }

    method RejectSharing(id: string) returns (changed: bool)
      modifies this
      ensures Value() == Reject(old(Value()), id)
      ensures changed <==> id in old(proposals) && old(proposals)[id].state.Pending?
      ensures changed ==> id in proposals && proposals[id].state.Rejected?
    {
      changed := id in proposals && proposals[id].state.Pending?;
      if changed {
        proposals := proposals[id := proposals[id].(state := Rejected)];
      }
    }

    /**
     * The first read, then the checks outside any transaction while other processes leave `during`,
     * then the write, only if the proposal is still what was checked. A decision that is returned is
     * the one the proposal holds.
     */
    method DecideSharing(repo: string, id: string, approve: bool, checksPass: bool, originSensitivity: Rank, during: State)
        returns (decision: Option<ProposalState>)
      modifies this
      ensures decision.Some? ==> decision == Some(if approve then Approved else Rejected)
      ensures decision.Some? ==> id in proposals && proposals[id].state == decision.value
      ensures id !in old(proposals) || old(proposals)[id].repo != repo ==> decision.None? && Value() == old(Value())
      ensures id in old(proposals) && old(proposals)[id].repo == repo ==>
        if !old(proposals)[id].state.Pending? then
          Value() == old(Value()) && (decision.Some? <==> old(proposals)[id].state.Approved? == approve)
        else if !approve then
          Value() == Reject(during, id) && (decision.Some? <==> id in during.proposals && during.proposals[id].state.Pending?)
        else if checksPass && id in during.proposals && during.proposals[id] == old(proposals)[id] then
          var done := Approve(during, id, MaxRank(originSensitivity, old(proposals)[id].sensitivity));
          Value() == done.state && (decision.Some? <==> done.projected.Some?)
        else Value() == during && decision.None?
    {
      if id !in proposals || proposals[id].repo != repo {
        return None;
      }
      var snapshot := proposals[id];
      var wanted := if approve then Approved else Rejected;
      if !snapshot.state.Pending? {
        return if snapshot.state == wanted then Some(wanted) else None;
      }
      proposals, memories, personal := during.proposals, during.memories, during.personal;
      if !approve {
        var changed := RejectSharing(id);
        return if changed then Some(Rejected) else None;
      }
      if !checksPass || id !in proposals || proposals[id] != snapshot {
        return None;
      }
      var projected := ApproveProjection(id, MaxRank(originSensitivity, snapshot.sensitivity));
      decision := if projected.Some? then Some(Approved) else None;
    }
  }
}
