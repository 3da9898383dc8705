/**
 * Merging the memories of an imported file (src/transfer-merge.ts): two passes over the rows, first
 * those whose identity their own text proves, then redacted personal ones, which may only hold an
 * identity already known to be a personal projection. Ranks only rise and tombstones stay.
 */
module TransferMerge {
  import opened Options
  import opened Graphs
  import opened SensitivityRaise

  const LOCAL_ONLY: Rank := 1

  /** A `memory` row with the repository its origin was mapped to. */
  datatype Row = Row(
    origin: string, repo: string, personal: bool, claimed: Hash, title: string, body: string, material: string,
    deletedAt: Option<int>, sensitivity: Rank)

  datatype LocalRow = LocalRow(repo: string, sensitivity: Rank, deletedAt: Option<int>)

  /** The destination before the merge: `marked` hashes are known locally as personal projections. */
  datatype Destination = Destination(rows: map<Hash, LocalRow>, marked: set<Hash>, lineage: Edges<Hash>)

  /** One row of transfer_targets. */
  datatype Target = Target(repo: string, sensitivity: Rank, deletedAt: Option<int>, owned: bool, personal: bool)
  datatype Existing = Existing(repo: string, sensitivity: Rank, deletedAt: Option<int>, owned: bool)

  datatype Counts = Counts(inserted: nat, updated: nat, tombstones: nat, kept: nat)

  // ---------------------------------------------------------------- identities

  predicate AbsentText(r: Row) {
    r.deletedAt.Some? || r.sensitivity == SECRET
  }

  /** What validateMemory checked before: a personal identity is the hash of its text, if there is text. */
  predicate Validated(r: Row) {
    r.personal && !AbsentText(r) ==> r.claimed == TextHash(r.title, r.body)
  }

  function IdentityOf(r: Row): Hash {
    if r.personal then r.claimed else RepoHash(r.repo, r.material)
  }

  /** Rows become one memory exactly if they agree in repository and material, or in the text of a personal one. */
  lemma IdentitiesMatchExactly(a: Row, b: Row)
    requires Validated(a) && Validated(b) && a.personal == b.personal && (a.personal ==> !AbsentText(a) && !AbsentText(b))
    ensures IdentityOf(a) == IdentityOf(b) <==>
              if a.personal then a.title == b.title && a.body == b.body else a.repo == b.repo && a.material == b.material
  {
  }

  predicate Unverified(r: Row) {
    r.personal && AbsentText(r)
  }

  /** Only projections of approved texts are marked, and those never carry a repository identity. */
  ghost predicate MarkedAreProjections(d: Destination) {
    forall h :: h in d.marked ==> !h.RepoHash?
  }

  // ---------------------------------------------------------------- one row

  function FindExisting(targets: map<Hash, Target>, rows: map<Hash, LocalRow>, marked: set<Hash>, h: Hash,
      unverified: bool): Option<Existing> {
    if h in targets && (unverified ==> targets[h].personal) then
      Some(Existing(targets[h].repo, targets[h].sensitivity, targets[h].deletedAt, targets[h].owned))
    else if h in rows && (unverified ==> h in marked) then
      Some(Existing(rows[h].repo, rows[h].sensitivity, rows[h].deletedAt, false))
    else None
  }

  function NextTarget(existing: Option<Existing>, r: Row): Target {
    match existing
    case None => Target(r.repo, MaxRank(r.sensitivity, LOCAL_ONLY), r.deletedAt, true, r.personal)
    case Some(e) =>
      Target(e.repo, MaxRank(r.sensitivity, e.sensitivity), if e.deletedAt.Some? then e.deletedAt else r.deletedAt,
          e.owned, r.personal)
  }

  /** UPDATE memories SET sensitivity of one row, with its trigger over local descendants. */
  function RaiseRows(rows: map<Hash, LocalRow>, lineage: Edges<Hash>, h: Hash, rank: Rank): map<Hash, LocalRow> {
    if h in rows && rows[h].sensitivity < rank then
      var reached := Descend(lineage, {h});
      map x | x in rows :: if x in reached && rows[x].sensitivity < rank then rows[x].(sensitivity := rank) else rows[x]
    else rows
  }

  function NextRows(existing: Option<Existing>, rows: map<Hash, LocalRow>, lineage: Edges<Hash>, r: Row): map<Hash,
      LocalRow> {
    var h := IdentityOf(r);
    match existing
    case None => rows[h := LocalRow(r.repo, MaxRank(r.sensitivity, LOCAL_ONLY), r.deletedAt)]
    case Some(e) =>
      if e.deletedAt.Some? then rows
      else if r.deletedAt.Some? then (if h in rows then rows[h := rows[h].(deletedAt := r.deletedAt)] else rows)
      else if r.sensitivity > e.sensitivity then RaiseRows(rows, lineage, h, r.sensitivity)
      else rows
  }

  datatype Merged = Merged(targets: map<Hash, Target>, rows: map<Hash, LocalRow>)

  function MergeRow(apply: bool, m: Merged, d: Destination, r: Row): Merged {
    var h := IdentityOf(r);
    var existing := FindExisting(m.targets, m.rows, d.marked, h, Unverified(r));
    if existing.None? && Unverified(r) then m
    else
      Merged(m.targets[h := NextTarget(existing, r)],
             if apply then NextRows(existing, m.rows, d.lineage, r) else m.rows)
  }

  // ---------------------------------------------------------------- the join

  /** A redacted personal row counts only where its identity is a known personal projection. */
  ghost predicate Matched(all: set<Row>, d: Destination, r: Row) {
    || !Unverified(r)
    || (exists v :: v in all && !Unverified(v) && v.personal && IdentityOf(v) == IdentityOf(r))
    || (IdentityOf(r) in d.rows && IdentityOf(r) in d.marked)
  }

  ghost function Counted(all: set<Row>, d: Destination, done: set<Row>, h: Hash): set<Row> {
    set r | r in done && IdentityOf(r) == h && Matched(all, d, r)
  }

  function BaseRank(d: Destination, h: Hash): Rank {
    if h in d.rows then d.rows[h].sensitivity else LOCAL_ONLY
  }

  ghost predicate BoundedBy(d: Destination, h: Hash, t: Target, counted: set<Row>) {
    && BaseRank(d, h) <= t.sensitivity
    && (forall r :: r in counted ==> r.sensitivity <= t.sensitivity)
    && (t.deletedAt.Some? <==> (h in d.rows && d.rows[h].deletedAt.Some?) || exists r :: r in counted && r.deletedAt.Some?)
  }

  ghost predicate Attained(d: Destination, h: Hash, rank: Rank, counted: set<Row>) {
    rank == BaseRank(d, h) || exists r :: r in counted && r.sensitivity == rank
  }

  /** The join of an identity's prior local state and all its matched rows. */
  ghost predicate IsJoin(d: Destination, h: Hash, t: Target, counted: set<Row>) {
    BoundedBy(d, h, t, counted) && Attained(d, h, t.sensitivity, counted)
  }

  /** Lineage columns are foreign keys: only rows of the destination have parents or children. */
  ghost predicate LineageIsLocal(d: Destination) {
    Endpoints(d.lineage) <= d.rows.Keys
  }

  /**
   * Applying `a` can raise the live row of `h` through the trigger while no row of identity `h` has
   * been looked up yet: redacted personal rows come last, so only other redacted ones wait for them.
   */
  ghost predicate Raises(all: set<Row>, d: Destination, a: Row, h: Hash) {
    && Matched(all, d, a) && a.deletedAt.None?
    && IdentityOf(a) in d.rows && d.rows[IdentityOf(a)].deletedAt.None? && d.rows[IdentityOf(a)].sensitivity < a.sensitivity
    && h != IdentityOf(a) && h in Descend(d.lineage, {IdentityOf(a)})
    && (Unverified(a) ==> forall v :: v in all && IdentityOf(v) == h ==> Unverified(v))
  }

  ghost predicate WithinJoin(all: set<Row>, d: Destination, h: Hash, rank: Rank) {
    rank <= BaseRank(d, h) || exists r :: r in Counted(all, d, all, h) && rank <= r.sensitivity
  }

  /** `a` may come before every row of b's identity and then makes its live row stricter than its join. */
  ghost predicate Overtakes(all: set<Row>, d: Destination, a: Row, b: Row) {
    && a in all && b in all && Matched(all, d, b) && Raises(all, d, a, IdentityOf(b))
    && !WithinJoin(all, d, IdentityOf(b), a.sensitivity)
  }

  ghost predicate NothingOvertaken(all: set<Row>, d: Destination) {
    forall a, b :: !Overtakes(all, d, a, b)
  }

  ghost predicate Hardened(before: map<Hash, LocalRow>, after: map<Hash, LocalRow>) {
    forall h :: h in before ==>
      && h in after && before[h].sensitivity <= after[h].sensitivity
      && (before[h].deletedAt.Some? ==> after[h].deletedAt == before[h].deletedAt)
  }

  /** After an apply the destination holds every target, deleted alike and, if not deleted, as strict. */
  ghost predicate Mirrors(m: Merged) {
    forall h :: h in m.targets ==>
      && h in m.rows
      && (m.rows[h].deletedAt.Some? <==> m.targets[h].deletedAt.Some?)
      && (m.targets[h].deletedAt.None? ==> m.targets[h].sensitivity <= m.rows[h].sensitivity)
  }

  ghost predicate Untouched(d: Destination, m: Merged, h: Hash) {
    && (h in m.rows <==> h in d.rows)
    && (h in m.rows ==> m.rows[h].deletedAt == d.rows[h].deletedAt && d.rows[h].sensitivity <= m.rows[h].sensitivity)
  }

  /** What is known of one identity after the rows `done`: a target exactly if a row matched, joined so far. */
  ghost predicate JoinAt(all: set<Row>, d: Destination, done: set<Row>, m: Merged, h: Hash) {
    && (h in m.targets <==> Counted(all, d, done, h) != {})
    && (h in m.targets ==> BoundedBy(d, h, m.targets[h], Counted(all, d, done, h)) && (m.targets[h].personal <==> !h.RepoHash?))
    && (h !in m.targets ==> Untouched(d, m, h))
  }

  ghost predicate Joins(all: set<Row>, d: Destination, done: set<Row>, m: Merged) {
    forall h :: JoinAt(all, d, done, m, h)
  }

  /** A live row not looked up yet has its own rank, or that of a row whose trigger reached it. */
  ghost predicate CausedAt(all: set<Row>, d: Destination, done: set<Row>, m: Merged, h: Hash) {
    h in m.rows && h !in m.targets ==>
      h in d.rows
      && (m.rows[h].sensitivity == d.rows[h].sensitivity
          || exists a :: a in done && Raises(all, d, a, h) && m.rows[h].sensitivity == a.sensitivity)
  }

  ghost predicate RowsCaused(all: set<Row>, d: Destination, done: set<Row>, m: Merged) {
    forall h :: CausedAt(all, d, done, m, h)
  }

  ghost predicate CacheWithin(all: set<Row>, d: Destination, m: Merged) {
    forall h :: h in m.targets ==> WithinJoin(all, d, h, m.targets[h].sensitivity)
  }

  /** Where a live row is stricter than it was, its local descendants are as strict. */
  ghost predicate Spread(d: Destination, rows: map<Hash, LocalRow>) {
    forall x, y :: x in d.rows && x in rows && rows[x].sensitivity > d.rows[x].sensitivity && y in rows && y in Descend(d.lineage, {x})
      ==> rows[x].sensitivity <= rows[y].sensitivity
  }

  /** A live row that became stricter than it was has local children at least as strict. */
  ghost predicate ChildrenFollow(d: Destination, rows: map<Hash, LocalRow>) {
    forall p, c :: (p, c) in d.lineage && p in d.rows && p in rows && c in rows && rows[p].sensitivity > d.rows[p].sensitivity
      ==> rows[p].sensitivity <= rows[c].sensitivity
  }

  lemma SpreadToChildren(d: Destination, rows: map<Hash, LocalRow>)
    requires Spread(d, rows)
    ensures ChildrenFollow(d, rows)
  {
    forall p, c | (p, c) in d.lineage && p in d.rows && p in rows && c in rows && rows[p].sensitivity > d.rows[p].sensitivity
      ensures rows[p].sensitivity <= rows[c].sensitivity
    {
      ChildIn(d.lineage, Descend(d.lineage, {p}), p, c);
    }
  }

  /** Which rows may come next: redacted personal ones only when every other row is done. */
  ghost predicate InOrder(all: set<Row>, done: set<Row>, r: Row) {
    r in all && done <= all && (Unverified(r) ==> forall v :: v in all && !Unverified(v) ==> v in done)
  }

  // ---------------------------------------------------------------- one row keeps the join

  lemma CountedMore(all: set<Row>, d: Destination, done: set<Row>, r: Row, h: Hash)
    ensures Counted(all, d, done + {r}, h) ==
      if IdentityOf(r) == h && Matched(all, d, r) then Counted(all, d, done, h) + {r} else Counted(all, d, done, h)
  {
  }

  /** The lookup finds a redacted personal row's identity exactly when the row counts. */
  lemma FoundIffMatched(all: set<Row>, d: Destination, done: set<Row>, m: Merged, r: Row)
    requires Joins(all, d, done, m) && InOrder(all, done, r) && MarkedAreProjections(d)
    requires forall v :: v in all ==> Validated(v)
    ensures Unverified(r) ==> (FindExisting(m.targets, m.rows, d.marked, IdentityOf(r), true).Some? <==> Matched(all, d, r))
    ensures FindExisting(m.targets, m.rows, d.marked, IdentityOf(r), Unverified(r)).Some? && IdentityOf(r) !in m.targets ==> IdentityOf(r) in d.rows
    ensures Matched(all, d, r) && IdentityOf(r) in m.targets ==> (Unverified(r) ==> m.targets[IdentityOf(r)].personal)
  {
    var h := IdentityOf(r);
    assert JoinAt(all, d, done, m, h);
    if Unverified(r) {
      if v :| v in all && !Unverified(v) && v.personal && IdentityOf(v) == h {
        assert v in Counted(all, d, done, h);
      } else if h in m.targets && m.targets[h].personal {
        var c :| c in Counted(all, d, done, h);
        assert c.personal;
      }
    }
  }

  lemma TargetJoins(all: set<Row>, d: Destination, done: set<Row>, m: Merged, r: Row)
    requires Joins(all, d, done, m) && InOrder(all, done, r) && MarkedAreProjections(d) && Matched(all, d, r)
    requires forall v :: v in all ==> Validated(v)
    ensures var h := IdentityOf(r);
            var existing := FindExisting(m.targets, m.rows, d.marked, h, Unverified(r));
            var t := NextTarget(existing, r);
            && (existing.None? ==> h !in d.rows && h !in m.rows && h !in m.targets && !Unverified(r))
            && (existing.Some? && h in m.targets ==> existing.value.sensitivity == m.targets[h].sensitivity && existing.value.deletedAt == m.targets[h].deletedAt)
            && (existing.Some? && h !in m.targets ==> h in d.rows && h in m.rows && existing.value.sensitivity == m.rows[h].sensitivity && existing.value.deletedAt == m.rows[h].deletedAt)
            && BoundedBy(d, h, t, Counted(all, d, done + {r}, h)) && (t.personal <==> !h.RepoHash?)
  {
    var h := IdentityOf(r);
    FoundIffMatched(all, d, done, m, r);
    CountedMore(all, d, done, r, h);
    assert JoinAt(all, d, done, m, h);
    if h !in m.targets {
      assert Counted(all, d, done, h) == {};
      assert Counted(all, d, done + {r}, h) == {r};
    }
    assert r in Counted(all, d, done + {r}, h);
    if h in m.targets {
      assert forall c :: c in Counted(all, d, done, h) ==> c in Counted(all, d, done + {r}, h);
      assert forall c :: c in Counted(all, d, done + {r}, h) ==> c == r || c in Counted(all, d, done, h);
    }
  }

  /** Writing one row: nothing softens, and only the row's own identity changes existence or deletion. */
  lemma {:induction false} RowsHarden(existing: Option<Existing>, rows: map<Hash, LocalRow>, lineage: Edges<Hash>,
      r: Row)
    requires existing.None? ==> IdentityOf(r) !in rows
    requires existing.Some? ==> IdentityOf(r) in rows && (rows[IdentityOf(r)].deletedAt.Some? <==> existing.value.deletedAt.Some?)
    ensures var after := NextRows(existing, rows, lineage, r);
            var h := IdentityOf(r);
            && Hardened(rows, after) && h in after
            && (forall x :: x != h ==> (x in after <==> x in rows) && (x in rows ==> after[x].deletedAt == rows[x].deletedAt))
            && (after[h].deletedAt.Some? <==> NextTarget(existing, r).deletedAt.Some?)
            && (forall x :: x in rows && x !in Descend(lineage, {h}) ==> after[x] == rows[x])
            && (NextTarget(existing, r).deletedAt.None? && (existing.Some? ==> existing.value.sensitivity <= rows[h].sensitivity) ==>
                  NextTarget(existing, r).sensitivity <= after[h].sensitivity)
  {
    hide Descend;
    var h := IdentityOf(r);
    assert h in Descend(lineage, {h});
  }

  /** One matched row, seen from outside: its own target and row, and what may change elsewhere. */
  ghost predicate Effect(apply: bool, d: Destination, m: Merged, next: Merged, r: Row) {
    var h := IdentityOf(r);
    && next.targets.Keys == m.targets.Keys + {h} && (forall x :: x in m.targets && x != h ==> next.targets[x] == m.targets[x])
    && Hardened(m.rows, next.rows)
    && (forall x :: x != h ==> (x in next.rows <==> x in m.rows) && (x in m.rows ==> next.rows[x].deletedAt == m.rows[x].deletedAt))
    && (forall x :: x in m.rows && x !in Descend(d.lineage, {h}) ==> next.rows[x] == m.rows[x])
    && (apply ==>
          && h in next.rows && (next.rows[h].deletedAt.Some? <==> next.targets[h].deletedAt.Some?)
          && (next.targets[h].deletedAt.None? ==> next.targets[h].sensitivity <= next.rows[h].sensitivity))
    && (!apply ==> next.rows == m.rows)
    && next.targets[h].sensitivity == MaxRank(r.sensitivity,
         if h in m.targets then m.targets[h].sensitivity else if h in m.rows then m.rows[h].sensitivity else LOCAL_ONLY)
  }

  lemma MatchedEffect(apply: bool, all: set<Row>, d: Destination, done: set<Row>, m: Merged, r: Row)
    requires Joins(all, d, done, m) && InOrder(all, done, r) && MarkedAreProjections(d) && (apply ==> Mirrors(m))
    requires (forall v :: v in all ==> Validated(v)) && Matched(all, d, r)
    ensures var next := MergeRow(apply, m, d, r);
            && Effect(apply, d, m, next, r)
            && BoundedBy(d, IdentityOf(r), next.targets[IdentityOf(r)], Counted(all, d, done + {r}, IdentityOf(r)))
            && (next.targets[IdentityOf(r)].personal <==> !IdentityOf(r).RepoHash?)
  {
    TargetJoins(all, d, done, m, r);
    hide Matched, Counted, BoundedBy, NextRows, FindExisting, Joins, Descend, Validated;
    if apply {
      RowsHarden(FindExisting(m.targets, m.rows, d.marked, IdentityOf(r), Unverified(r)), m.rows, d.lineage, r);
    }
  }

  lemma UnmatchedEffect(apply: bool, all: set<Row>, d: Destination, done: set<Row>, m: Merged, r: Row)
    requires Joins(all, d, done, m) && InOrder(all, done, r) && MarkedAreProjections(d)
    requires (forall v :: v in all ==> Validated(v)) && !Matched(all, d, r)
    ensures MergeRow(apply, m, d, r) == m
  {
    FoundIffMatched(all, d, done, m, r);
    hide FindExisting, NextTarget, NextRows, Joins;
  }

  lemma MergeEffect(apply: bool, all: set<Row>, d: Destination, done: set<Row>, m: Merged, r: Row)
    requires Joins(all, d, done, m) && InOrder(all, done, r) && MarkedAreProjections(d) && (apply ==> Mirrors(m))
    requires forall v :: v in all ==> Validated(v)
    ensures var next := MergeRow(apply, m, d, r);
            if Matched(all, d, r) then
              && Effect(apply, d, m, next, r)
              && BoundedBy(d, IdentityOf(r), next.targets[IdentityOf(r)], Counted(all, d, done + {r}, IdentityOf(r)))
              && (next.targets[IdentityOf(r)].personal <==> !IdentityOf(r).RepoHash?)
            else next == m
  {
    hide MergeRow, Matched, Effect, BoundedBy, Counted, Joins, InOrder, Validated, Mirrors, MarkedAreProjections;
    if Matched(all, d, r) {
      MatchedEffect(apply, all, d, done, m, r);
    } else {
      UnmatchedEffect(apply, all, d, done, m, r);
    }
  }

  lemma OtherJoins(apply: bool, all: set<Row>, d: Destination, done: set<Row>, m: Merged, next: Merged, r: Row, x: Hash)
    requires JoinAt(all, d, done, m, x) && Effect(apply, d, m, next, r) && x != IdentityOf(r)
    ensures JoinAt(all, d, done + {r}, next, x)
  {
    CountedMore(all, d, done, r, x);
    hide Counted, BoundedBy, Descend;
  }

  lemma UnmatchedJoins(all: set<Row>, d: Destination, done: set<Row>, m: Merged, r: Row, x: Hash)
    requires JoinAt(all, d, done, m, x) && !Matched(all, d, r)
    ensures JoinAt(all, d, done + {r}, m, x)
  {
    CountedMore(all, d, done, r, x);
    hide Counted, BoundedBy;
  }

  lemma MirrorsKept(d: Destination, m: Merged, next: Merged, r: Row)
    requires Effect(true, d, m, next, r) && Mirrors(m)
    ensures Mirrors(next)
  {
    hide Descend;
  }

  lemma MergeHardens(apply: bool, all: set<Row>, d: Destination, done: set<Row>, m: Merged, r: Row)
    requires Joins(all, d, done, m) && InOrder(all, done, r) && MarkedAreProjections(d) && (apply ==> Mirrors(m))
    requires forall v :: v in all ==> Validated(v)
    ensures Hardened(m.rows, MergeRow(apply, m, d, r).rows) && (apply ==> Mirrors(MergeRow(apply, m, d, r)))
  {
    var next := MergeRow(apply, m, d, r);
    MergeEffect(apply, all, d, done, m, r);
    hide MergeRow, Matched, Counted, BoundedBy, Joins, MarkedAreProjections, Descend;
    if Matched(all, d, r) && apply {
      MirrorsKept(d, m, next, r);
    }
    hide Mirrors;
  }

  lemma MergeJoins(apply: bool, all: set<Row>, d: Destination, done: set<Row>, m: Merged, r: Row)
    requires Joins(all, d, done, m) && InOrder(all, done, r) && MarkedAreProjections(d) && (apply ==> Mirrors(m))
    requires forall v :: v in all ==> Validated(v)
    ensures Joins(all, d, done + {r}, MergeRow(apply, m, d, r))
  {
    var h := IdentityOf(r);
    var next := MergeRow(apply, m, d, r);
    MergeEffect(apply, all, d, done, m, r);
    if Matched(all, d, r) {
      assert r in Counted(all, d, done + {r}, h);
      EffectTargets(apply, d, m, next, r);
      hide Effect, BoundedBy, MergeRow, Matched, Counted;
      assert JoinAt(all, d, done + {r}, next, h);
      forall x ensures JoinAt(all, d, done + {r}, next, x) {
        assert JoinAt(all, d, done, m, x);
        if x != h {
          OtherJoins(apply, all, d, done, m, next, r, x);
        }
        hide JoinAt;
      }
    } else {
      hide Counted, BoundedBy, JoinAt, MergeRow, Matched;
      forall x ensures JoinAt(all, d, done + {r}, next, x) {
        UnmatchedJoins(all, d, done, m, r, x);
      }
    }
  }

  lemma EffectTargets(apply: bool, d: Destination, m: Merged, next: Merged, r: Row)
    requires Effect(apply, d, m, next, r)
    ensures IdentityOf(r) in next.targets
  {
  }

  // -- the cached ranks stay within the join

  /** The rank a first matched row finds is within the join, unless a row overtook its identity. */
  lemma FoundWithin(all: set<Row>, d: Destination, done: set<Row>, m: Merged, r: Row)
    requires Joins(all, d, done, m) && InOrder(all, done, r) && Matched(all, d, r) && RowsCaused(all, d, done, m)
    requires m.rows == d.rows || NothingOvertaken(all, d)
    ensures var h := IdentityOf(r);
            h !in m.targets ==> WithinJoin(all, d, h, if h in m.rows then m.rows[h].sensitivity else LOCAL_ONLY)
  {
    var h := IdentityOf(r);
    assert JoinAt(all, d, done, m, h) && CausedAt(all, d, done, m, h);
    if h !in m.targets && h in m.rows && m.rows[h].sensitivity != d.rows[h].sensitivity {
      var a :| a in done && Raises(all, d, a, h) && m.rows[h].sensitivity == a.sensitivity;
      assert !Overtakes(all, d, a, r);
    }
    hide Matched, Raises, Counted;
  }

  lemma CacheStays(apply: bool, all: set<Row>, d: Destination, done: set<Row>, m: Merged, r: Row)
    requires Joins(all, d, done, m) && InOrder(all, done, r) && MarkedAreProjections(d) && (apply ==> Mirrors(m))
    requires forall v :: v in all ==> Validated(v)
    requires RowsCaused(all, d, done, m) && (m.rows == d.rows || NothingOvertaken(all, d)) && CacheWithin(all, d, m)
    ensures CacheWithin(all, d, MergeRow(apply, m, d, r))
  {
    var h := IdentityOf(r);
    var next := MergeRow(apply, m, d, r);
    MergeEffect(apply, all, d, done, m, r);
    if Matched(all, d, r) {
      FoundWithin(all, d, done, m, r);
      OwnWithin(all, d, r);
      hide MergeRow, BoundedBy, Joins, Matched, Counted, RowsCaused, Mirrors, NothingOvertaken, Descend, WithinJoin;
      CacheNext(apply, all, d, m, next, r);
    }
  }

  lemma CacheNext(apply: bool, all: set<Row>, d: Destination, m: Merged, next: Merged, r: Row)
    requires Effect(apply, d, m, next, r) && CacheWithin(all, d, m) && WithinJoin(all, d, IdentityOf(r), r.sensitivity)
    requires var h := IdentityOf(r);
             h !in m.targets ==> WithinJoin(all, d, h, if h in m.rows then m.rows[h].sensitivity else LOCAL_ONLY)
    ensures CacheWithin(all, d, next)
  {
    hide WithinJoin, Descend, Hardened;
  }

  lemma OwnWithin(all: set<Row>, d: Destination, r: Row)
    requires r in all && Matched(all, d, r)
    ensures WithinJoin(all, d, IdentityOf(r), r.sensitivity)
  {
    assert r in Counted(all, d, all, IdentityOf(r));
    hide Matched;
  }

  // -- live rows are raised by rows of the file only

  lemma {:induction false} DescendLeast(lineage: Edges<Hash>, seen: set<Hash>, closed: set<Hash>)
    requires seen <= closed && Children(lineage, closed) <= closed
    ensures Descend(lineage, seen) <= closed
    decreases Endpoints(lineage) - seen
  {
    var more := Children(lineage, seen) - seen;
    if more != {} {
      var some :| some in more;
      assert some in Endpoints(lineage) - seen && some !in Endpoints(lineage) - (seen + more);
      assert Children(lineage, seen) <= Children(lineage, closed);
      DescendLeast(lineage, seen + more, closed);
    }
  }

  lemma DescendsThrough(lineage: Edges<Hash>, h: Hash, x: Hash, y: Hash)
    requires x in Descend(lineage, {h}) && y in Descend(lineage, {x})
    ensures y in Descend(lineage, {h})
  {
    DescendLeast(lineage, {x}, Descend(lineage, {h}));
  }

  /** Only endpoints of local lineage have descendants, and only such are descendants. */
  lemma DescendEnds(lineage: Edges<Hash>, x: Hash, h: Hash)
    requires h in Descend(lineage, {x}) && h != x
    ensures x in Endpoints(lineage) && h in Endpoints(lineage)
  {
    DescendLeast(lineage, {x}, {x} + Endpoints(lineage));
    if x !in Endpoints(lineage) {
      NoDescendants(lineage, x);
    }
  }

  lemma NoDescendants(lineage: Edges<Hash>, x: Hash)
    requires x !in Endpoints(lineage)
    ensures Descend(lineage, {x}) <= {x}
  {
    assert Children(lineage, {x}) == {};
    DescendLeast(lineage, {x}, {x});
  }

  /** Another identity's live row changes its rank only to the rank of a row that is stricter than its own identity. */
  lemma OtherRaised(apply: bool, m: Merged, d: Destination, r: Row, x: Hash)
    requires var next := MergeRow(apply, m, d, r);
             x != IdentityOf(r) && x in m.rows && x in next.rows && next.rows[x].sensitivity != m.rows[x].sensitivity
    ensures var existing := FindExisting(m.targets, m.rows, d.marked, IdentityOf(r), Unverified(r));
            && existing.Some? && existing.value.deletedAt.None? && r.deletedAt.None? && existing.value.sensitivity < r.sensitivity
            && x in Descend(d.lineage, {IdentityOf(r)}) && MergeRow(apply, m, d, r).rows[x].sensitivity == r.sensitivity
  {
    hide Descend;
  }

  lemma OtherRaisedIsCaused(apply: bool, all: set<Row>, d: Destination, done: set<Row>, m: Merged, r: Row, x: Hash)
    requires Joins(all, d, done, m) && InOrder(all, done, r) && MarkedAreProjections(d) && Matched(all, d, r)
    requires (forall v :: v in all ==> Validated(v)) && LineageIsLocal(d)
    requires x != IdentityOf(r) && x in m.rows && x !in m.targets
    requires var next := MergeRow(apply, m, d, r); x in next.rows && next.rows[x].sensitivity != m.rows[x].sensitivity
    ensures Raises(all, d, r, x) && MergeRow(apply, m, d, r).rows[x].sensitivity == r.sensitivity
  {
    var h := IdentityOf(r);
    OtherRaised(apply, m, d, r, x);
    DescendEnds(d.lineage, h, x);
    FoundIffMatched(all, d, done, m, r);
    assert JoinAt(all, d, done, m, h) && JoinAt(all, d, done, m, x);
    hide MergeRow, Descend, NextRows, MarkedAreProjections;
    if Unverified(r) {
      forall v | v in all && IdentityOf(v) == x ensures Unverified(v) {
        assert !Unverified(v) ==> v in Counted(all, d, done, x);
      }
    }
    hide Counted, Joins;
  }

  lemma RowsStayCaused(apply: bool, all: set<Row>, d: Destination, done: set<Row>, m: Merged, r: Row)
    requires Joins(all, d, done, m) && InOrder(all, done, r) && MarkedAreProjections(d) && (apply ==> Mirrors(m))
    requires (forall v :: v in all ==> Validated(v)) && LineageIsLocal(d) && RowsCaused(all, d, done, m)
    ensures RowsCaused(all, d, done + {r}, MergeRow(apply, m, d, r))
  {
    var next := MergeRow(apply, m, d, r);
    MergeEffect(apply, all, d, done, m, r);
    hide MergeRow, Joins, BoundedBy, Counted, Mirrors, Descend, Raises;
    forall h ensures CausedAt(all, d, done + {r}, next, h) {
      assert CausedAt(all, d, done, m, h);
      if Matched(all, d, r) && h in next.rows && h !in next.targets && next.rows[h].sensitivity != m.rows[h].sensitivity {
        OtherRaisedIsCaused(apply, all, d, done, m, r, h);
      }
      hide Matched;
    }
  }

  // -- where targets and rows come from

  /** A target keeps the local row's repository, tombstone and ownership, or takes them from a matched row. */
  ghost predicate PlacedAt(all: set<Row>, d: Destination, done: set<Row>, m: Merged, h: Hash) {
    h in m.targets ==>
      && (m.targets[h].owned <==> h !in d.rows)
      && (if h in d.rows then m.targets[h].repo == d.rows[h].repo
          else exists r :: r in Counted(all, d, done, h) && m.targets[h].repo == r.repo)
      && (if h in d.rows && d.rows[h].deletedAt.Some? then m.targets[h].deletedAt == d.rows[h].deletedAt
          else m.targets[h].deletedAt.None?
               || exists r :: r in Counted(all, d, done, h) && m.targets[h].deletedAt == r.deletedAt)
  }

  /** A live row keeps its repository, follows its target, and has its own rank or that of a row it descends from. */
  ghost predicate LiveAt(apply: bool, all: set<Row>, d: Destination, done: set<Row>, m: Merged, h: Hash) {
    h in m.rows ==>
      && (h in d.rows ==> m.rows[h].repo == d.rows[h].repo)
      && (apply && h in m.targets ==>
            m.rows[h].repo == m.targets[h].repo && m.rows[h].deletedAt == m.targets[h].deletedAt)
      && (m.rows[h].sensitivity == BaseRank(d, h)
          || exists r :: r in done && Matched(all, d, r) && h in Descend(d.lineage, {IdentityOf(r)})
               && r.sensitivity == m.rows[h].sensitivity)
  }

  ghost predicate Placed(apply: bool, all: set<Row>, d: Destination, done: set<Row>, m: Merged) {
    forall h :: PlacedAt(all, d, done, m, h) && LiveAt(apply, all, d, done, m, h)
  }

  lemma PlacedOther(all: set<Row>, d: Destination, done: set<Row>, m: Merged, next: Merged, r: Row, h: Hash)
    requires PlacedAt(all, d, done, m, h)
    requires (h in next.targets <==> h in m.targets) && (h in m.targets ==> next.targets[h] == m.targets[h])
    ensures PlacedAt(all, d, done + {r}, next, h)
  {
    assert Counted(all, d, done, h) <= Counted(all, d, done + {r}, h);
    hide Counted;
  }

  lemma PlacedOwn(apply: bool, all: set<Row>, d: Destination, done: set<Row>, m: Merged, r: Row)
    requires Joins(all, d, done, m) && InOrder(all, done, r) && MarkedAreProjections(d) && Matched(all, d, r)
    requires (forall v :: v in all ==> Validated(v)) && PlacedAt(all, d, done, m, IdentityOf(r))
    requires LiveAt(apply, all, d, done, m, IdentityOf(r))
    ensures PlacedAt(all, d, done + {r}, MergeRow(apply, m, d, r), IdentityOf(r))
  {
    var h := IdentityOf(r);
    TargetJoins(all, d, done, m, r);
    FoundIffMatched(all, d, done, m, r);
    assert JoinAt(all, d, done, m, h);
    assert r in Counted(all, d, done + {r}, h) && Counted(all, d, done, h) <= Counted(all, d, done + {r}, h);
    hide Counted, Joins, BoundedBy, NextRows, Matched, InOrder, Validated, MarkedAreProjections;
  }

  lemma LiveOther(apply: bool, all: set<Row>, d: Destination, done: set<Row>, m: Merged, r: Row, h: Hash)
    requires LiveAt(apply, all, d, done, m, h) && h != IdentityOf(r) && Matched(all, d, r)
    ensures LiveAt(apply, all, d, done + {r}, MergeRow(apply, m, d, r), h)
  {
    hide Descend, Matched, FindExisting;
  }

  lemma LiveOwn(apply: bool, all: set<Row>, d: Destination, done: set<Row>, m: Merged, r: Row)
    requires Joins(all, d, done, m) && InOrder(all, done, r) && MarkedAreProjections(d) && Matched(all, d, r)
    requires (forall v :: v in all ==> Validated(v)) && LiveAt(apply, all, d, done, m, IdentityOf(r))
    requires apply ==> Mirrors(m)
    ensures LiveAt(apply, all, d, done + {r}, MergeRow(apply, m, d, r), IdentityOf(r))
  {
    var h := IdentityOf(r);
    TargetJoins(all, d, done, m, r);
    FoundIffMatched(all, d, done, m, r);
    assert JoinAt(all, d, done, m, h);
    assert h in Descend(d.lineage, {h});
    hide Counted, Joins, BoundedBy, Matched, InOrder, Validated, MarkedAreProjections, Descend;
  }

  lemma PlacedStays(apply: bool, all: set<Row>, d: Destination, done: set<Row>, m: Merged, r: Row)
    requires Joins(all, d, done, m) && InOrder(all, done, r) && MarkedAreProjections(d) && (apply ==> Mirrors(m))
    requires (forall v :: v in all ==> Validated(v)) && Placed(apply, all, d, done, m)
    ensures Placed(apply, all, d, done + {r}, MergeRow(apply, m, d, r))
  {
    var next := MergeRow(apply, m, d, r);
    MergeEffect(apply, all, d, done, m, r);
    var matched := Matched(all, d, r);
    forall h ensures PlacedAt(all, d, done + {r}, next, h) && LiveAt(apply, all, d, done + {r}, next, h) {
      assert PlacedAt(all, d, done, m, h) && LiveAt(apply, all, d, done, m, h);
      if !matched {
        PlacedOther(all, d, done, m, next, r, h);
        assert LiveAt(apply, all, d, done + {r}, m, h) by { hide MergeRow, Matched, Descend, PlacedAt; }
      } else if h == IdentityOf(r) {
        PlacedOwn(apply, all, d, done, m, r);
        LiveOwn(apply, all, d, done, m, r);
      } else {
        PlacedOther(all, d, done, m, next, r, h);
        LiveOther(apply, all, d, done, m, r, h);
      }
      hide PlacedAt, LiveAt, MergeRow, Matched, Joins, Counted, Mirrors;
    }
  }

  // -- raises reach every local descendant

  lemma RaiseSpreads(d: Destination, rows: map<Hash, LocalRow>, h: Hash, rank: Rank)
    requires Spread(d, rows)
    ensures Spread(d, RaiseRows(rows, d.lineage, h, rank))
  {
    var after := RaiseRows(rows, d.lineage, h, rank);
    forall x, y | x in d.rows && x in after && after[x].sensitivity > d.rows[x].sensitivity && y in after && y in Descend(d.lineage, {x})
      ensures after[x].sensitivity <= after[y].sensitivity
    {
      if x in Descend(d.lineage, {h}) {
        DescendsThrough(d.lineage, h, x, y);
      }
      hide Descend;
    }
  }

  lemma InsertSpreads(d: Destination, rows: map<Hash, LocalRow>, h: Hash, row: LocalRow)
    requires Spread(d, rows) && h !in d.rows && LineageIsLocal(d)
    ensures Spread(d, rows[h := row])
  {
    var after := rows[h := row];
    forall x, y | x in d.rows && x in after && after[x].sensitivity > d.rows[x].sensitivity && y in after && y in Descend(d.lineage, {x})
      ensures after[x].sensitivity <= after[y].sensitivity
    {
      if y == h {
        DescendEnds(d.lineage, x, y);
      }
      hide Descend;
    }
  }

  lemma SpreadStays(apply: bool, all: set<Row>, d: Destination, done: set<Row>, m: Merged, r: Row)
    requires Joins(all, d, done, m) && InOrder(all, done, r) && MarkedAreProjections(d) && LineageIsLocal(d)
    requires (forall v :: v in all ==> Validated(v)) && Spread(d, m.rows)
    ensures Spread(d, MergeRow(apply, m, d, r).rows)
  {
    var h := IdentityOf(r);
    FoundIffMatched(all, d, done, m, r);
    RaiseSpreads(d, m.rows, h, r.sensitivity);
    assert JoinAt(all, d, done, m, h);
    if h !in d.rows && h !in m.rows {
      InsertSpreads(d, m.rows, h, LocalRow(r.repo, MaxRank(r.sensitivity, LOCAL_ONLY), r.deletedAt));
    }
    assert h in m.rows ==> Spread(d, m.rows[h := m.rows[h].(deletedAt := r.deletedAt)]) by { hide Descend; }
    hide Spread, Descend, Joins, Counted, BoundedBy, RaiseRows, LineageIsLocal;
  }

  // ---------------------------------------------------------------- the two passes

  /** mergeMemory: the target table, with `apply` the destination, and one counter. */
  method MergeMemory(apply: bool, m: Merged, d: Destination, r: Row, counts: Counts) returns (next: Merged,
      held: bool, after: Counts)
    ensures next == MergeRow(apply, m, d, r)
    ensures held <==> FindExisting(m.targets, m.rows, d.marked, IdentityOf(r), Unverified(r)).None? && Unverified(r)
    ensures Total(after) == Total(counts) + 1
    ensures var before := FindExisting(m.targets, m.rows, d.marked, IdentityOf(r), Unverified(r));
            var target := NextTarget(before, r);
            var deleted := before.Some? && before.value.deletedAt.Some?;
            && (after.tombstones > counts.tombstones <==> !held && target.deletedAt.Some? && !deleted)
            && (after.inserted > counts.inserted <==> !held && before.None? && target.deletedAt.None?)
            && (after.updated > counts.updated <==>
                  before.Some? && target.deletedAt.None? && target.sensitivity > before.value.sensitivity)
  {
    var h := IdentityOf(r);
    var targets, rows := m.targets, m.rows;
    var existing := FindExisting(targets, rows, d.marked, h, Unverified(r));
    after, held := counts, false;
    if existing.Some? {
      if existing.value.deletedAt.Some? {
        after := counts.(kept := counts.kept + 1);
      } else if r.deletedAt.Some? {
        if apply && h in rows {
          rows := rows[h := rows[h].(deletedAt := r.deletedAt)];
        }
        after := counts.(tombstones := counts.tombstones + 1);
      } else if r.sensitivity > existing.value.sensitivity {
        if apply {
          rows := RaiseRows(rows, d.lineage, h, r.sensitivity);
        }
        after := counts.(updated := counts.updated + 1);
      } else {
        after := counts.(kept := counts.kept + 1);
      }
    } else if Unverified(r) {
      return m, true, counts.(kept := counts.kept + 1);
    } else {
      if apply {
        rows := rows[h := LocalRow(r.repo, MaxRank(r.sensitivity, LOCAL_ONLY), r.deletedAt)];
      }
      after := if r.deletedAt.None? then counts.(inserted := counts.inserted + 1) else counts.(tombstones := counts.tombstones + 1);
    }
    next := Merged(targets[h := NextTarget(existing, r)], rows);
  }

  function Total(c: Counts): nat {
    c.inserted + c.updated + c.tombstones + c.kept
  }

  ghost function RowsOfPass(rows: seq<Row>, n: nat, unverified: bool): set<Row>
    requires n <= |rows|
  {
    set k | 0 <= k < n && Unverified(rows[k]) == unverified :: rows[k]
  }

  ghost function RowSet(rows: seq<Row>): set<Row> {
    set r | r in rows
  }

  /** What holds before and after every row of either pass. */
  ghost predicate Progress(apply: bool, all: set<Row>, d: Destination, done: set<Row>, m: Merged) {
    && Joins(all, d, done, m) && Hardened(d.rows, m.rows) && RowsCaused(all, d, done, m) && Spread(d, m.rows)
    && Placed(apply, all, d, done, m) && (apply ==> Mirrors(m)) && (!apply ==> m.rows == d.rows)
    && (!apply || NothingOvertaken(all, d) ==> CacheWithin(all, d, m))
  }

  ghost predicate WellFormed(all: set<Row>, d: Destination) {
    MarkedAreProjections(d) && LineageIsLocal(d) && forall v :: v in all ==> Validated(v)
  }

  lemma RowProgresses(apply: bool, all: set<Row>, d: Destination, done: set<Row>, m: Merged, r: Row)
    requires Progress(apply, all, d, done, m) && InOrder(all, done, r) && WellFormed(all, d)
    ensures Progress(apply, all, d, done + {r}, MergeRow(apply, m, d, r))
  {
    MergeJoins(apply, all, d, done, m, r);
    MergeHardens(apply, all, d, done, m, r);
    RowsStayCaused(apply, all, d, done, m, r);
    SpreadStays(apply, all, d, done, m, r);
    PlacedStays(apply, all, d, done, m, r);
    if !apply || NothingOvertaken(all, d) {
      CacheStays(apply, all, d, done, m, r);
    }
    assert !apply ==> MergeRow(apply, m, d, r).rows == m.rows;
    hide Joins, RowsCaused, Spread, Placed, CacheWithin, NothingOvertaken, Mirrors, MergeRow, WellFormed;
  }

  /** One pass over the rows in file order. */
  function PassRows(apply: bool, rows: seq<Row>, unverified: bool, d: Destination, start: Merged): Merged {
    if rows == [] then start
    else
      var last := rows[|rows| - 1];
      var m := PassRows(apply, rows[..|rows| - 1], unverified, d, start);
      if Unverified(last) == unverified then MergeRow(apply, m, d, last) else m
  }

  lemma PassNext(apply: bool, rows: seq<Row>, unverified: bool, d: Destination, start: Merged, n: nat)
    requires n < |rows|
    ensures var m := PassRows(apply, rows[..n], unverified, d, start);
            PassRows(apply, rows[..n + 1], unverified, d, start)
              == if Unverified(rows[n]) == unverified then MergeRow(apply, m, d, rows[n]) else m
  {
    assert rows[..n + 1][..n] == rows[..n];
    hide MergeRow;
  }

  /** Verified rows first, then redacted personal ones. */
  function MergeFile(apply: bool, rows: seq<Row>, d: Destination): Merged {
    PassRows(apply, rows, true, d, PassRows(apply, rows, false, d, Merged(map[], d.rows)))
  }

  /** The rows handled before the n-th row of a pass. */
  ghost function DoneBefore(rows: seq<Row>, unverified: bool, n: nat): set<Row>
    requires n <= |rows|
  {
    (if unverified then RowsOfPass(rows, |rows|, false) else {}) + RowsOfPass(rows, n, unverified)
  }

  lemma DoneNext(rows: seq<Row>, unverified: bool, n: nat)
    requires n < |rows|
    ensures if Unverified(rows[n]) == unverified then DoneBefore(rows, unverified, n + 1) == DoneBefore(rows,
        unverified, n) + {rows[n]}
            else DoneBefore(rows, unverified, n + 1) == DoneBefore(rows, unverified, n)
  {
  }

  lemma NextInOrder(rows: seq<Row>, unverified: bool, n: nat)
    requires n < |rows| && Unverified(rows[n]) == unverified
    ensures InOrder(RowSet(rows), DoneBefore(rows, unverified, n), rows[n])
  {
    forall v | unverified && v in RowSet(rows) && !Unverified(v) ensures v in DoneBefore(rows, unverified, n) {
      var k :| 0 <= k < |rows| && rows[k] == v;
    }
  }

  lemma {:induction false} PassProgresses(apply: bool, rows: seq<Row>, unverified: bool, d: Destination,
      start: Merged, n: nat)
    requires n <= |rows| && WellFormed(RowSet(rows), d)
    requires Progress(apply, RowSet(rows), d, DoneBefore(rows, unverified, 0), start)
    ensures Progress(apply, RowSet(rows), d, DoneBefore(rows, unverified, n),
        PassRows(apply, rows[..n], unverified, d, start))
  {
    hide Progress, WellFormed, MergeRow, InOrder, RowSet, DoneBefore;
    if n == 0 {
      assert rows[..n] == [];
    } else {
      PassProgresses(apply, rows, unverified, d, start, n - 1);
      DoneNext(rows, unverified, n - 1);
      PassNext(apply, rows, unverified, d, start, n - 1);
      hide PassRows;
      if Unverified(rows[n - 1]) == unverified {
        NextInOrder(rows, unverified, n - 1);
        RowProgresses(apply, RowSet(rows), d, DoneBefore(rows, unverified, n - 1),
          PassRows(apply, rows[..n - 1], unverified, d, start), rows[n - 1]);
      }
    }
  }

  lemma NothingMergedYet(apply: bool, all: set<Row>, d: Destination)
    ensures Progress(apply, all, d, {}, Merged(map[], d.rows))
  {
    var m := Merged(map[], d.rows);
    hide Raises, Overtakes, Descend;
    forall h ensures JoinAt(all, d, {}, m, h) && CausedAt(all, d, {}, m, h) {
      assert Counted(all, d, {}, h) == {};
    }
    assert Placed(apply, all, d, {}, m);
  }

  lemma DoneAtStart(rows: seq<Row>)
    ensures DoneBefore(rows, false, 0) == {} && DoneBefore(rows, true, 0) == DoneBefore(rows, false, |rows|)
    ensures DoneBefore(rows, true, |rows|) == RowSet(rows)
  {
    forall r | r in rows ensures r in RowsOfPass(rows, |rows|, Unverified(r)) {
      var k :| 0 <= k < |rows| && rows[k] == r;
    }
  }

  /** The first pass from nothing, and the second from what it left. */
  lemma PassesProgress(apply: bool, rows: seq<Row>, d: Destination)
    requires WellFormed(RowSet(rows), d)
    ensures Progress(apply, RowSet(rows), d, DoneBefore(rows, false, 0), Merged(map[], d.rows))
    ensures Progress(apply, RowSet(rows), d, DoneBefore(rows, true, 0),
        PassRows(apply, rows, false, d, Merged(map[], d.rows)))
    ensures Progress(apply, RowSet(rows), d, RowSet(rows), MergeFile(apply, rows, d))
  {
    DoneAtStart(rows);
    NothingMergedYet(apply, RowSet(rows), d);
    hide Progress, WellFormed, PassRows, DoneBefore, RowSet;
    assert rows[..|rows|] == rows;
    PassProgresses(apply, rows, false, d, Merged(map[], d.rows), |rows|);
    PassProgresses(apply, rows, true, d, PassRows(apply, rows, false, d, Merged(map[], d.rows)), |rows|);
  }

  /** The identities remembered for origins are those of matched rows; a held row's origin has none. */
  ghost predicate Named(all: set<Row>, d: Destination, done: set<Row>, hashes: map<string, Hash>) {
    && (forall r :: r in done && Matched(all, d, r) ==> r.origin in hashes)
    && (forall o :: o in hashes ==> exists r :: r in done && r.origin == o && Matched(all, d, r) && hashes[o] == IdentityOf(r))
  }

  lemma NamedNext(all: set<Row>, d: Destination, done: set<Row>, hashes: map<string, Hash>, r: Row)
    requires Named(all, d, done, hashes)
    ensures Named(all, d, done + {r}, if Matched(all, d, r) then hashes[r.origin := IdentityOf(r)] else hashes)
  {
    hide Matched;
  }

  lemma HeldIffUnmatched(apply: bool, all: set<Row>, d: Destination, done: set<Row>, m: Merged, r: Row)
    requires Progress(apply, all, d, done, m) && InOrder(all, done, r) && WellFormed(all, d)
    ensures FindExisting(m.targets, m.rows, d.marked, IdentityOf(r), Unverified(r)).None? && Unverified(r) <==> !Matched(all, d, r)
  {
    FoundIffMatched(all, d, done, m, r);
    hide Joins, FindExisting;
  }

  /** One row of a pass: the origin of a row that is not held gets the row's identity. */
  lemma PassNames(apply: bool, rows: seq<Row>, unverified: bool, d: Destination, start: Merged, n: nat,
      hashes: map<string, Hash>)
    requires n < |rows| && Unverified(rows[n]) == unverified && WellFormed(RowSet(rows), d)
    requires Progress(apply, RowSet(rows), d, DoneBefore(rows, unverified, 0), start)
    requires Named(RowSet(rows), d, DoneBefore(rows, unverified, n), hashes)
    ensures var m, r := PassRows(apply, rows[..n], unverified, d, start), rows[n];
            var held := FindExisting(m.targets, m.rows, d.marked, IdentityOf(r), Unverified(r)).None? && Unverified(r);
            Named(RowSet(rows), d, DoneBefore(rows, unverified, n + 1),
                if held then hashes else hashes[r.origin := IdentityOf(r)])
  {
    hide Progress, WellFormed, Named, MergeRow, DoneBefore, RowSet, Matched, PassRows, FindExisting, InOrder;
    DoneNext(rows, unverified, n);
    PassProgresses(apply, rows, unverified, d, start, n);
    NextInOrder(rows, unverified, n);
    var done, m := DoneBefore(rows, unverified, n), PassRows(apply, rows[..n], unverified, d, start);
    HeldIffUnmatched(apply, RowSet(rows), d, done, m, rows[n]);
    NamedNext(RowSet(rows), d, done, hashes, rows[n]);
  }

  /** The rows of one pass, in file order; `hashes` remembers which identity each matched origin became. */
  method MergePass(apply: bool, rows: seq<Row>, unverified: bool, d: Destination, start: Merged,
      hashesBefore: map<string, Hash>, countsBefore: Counts)
      returns (m: Merged, hashes: map<string, Hash>, counts: Counts)
    requires Progress(apply, RowSet(rows), d, DoneBefore(rows, unverified, 0), start) && WellFormed(RowSet(rows), d)
    requires Named(RowSet(rows), d, DoneBefore(rows, unverified, 0), hashesBefore)
    ensures m == PassRows(apply, rows, unverified, d, start)
    ensures Named(RowSet(rows), d, DoneBefore(rows, unverified, |rows|), hashes)
    ensures Total(counts) == Total(countsBefore) + OfPass(rows, unverified)
  {
    hide Progress, WellFormed, Named, MergeRow, DoneBefore, RowSet, FindExisting, Unverified, NextTarget;
    m, hashes, counts := start, hashesBefore, countsBefore;
    for i := 0 to |rows|
      invariant m == PassRows(apply, rows[..i], unverified, d, start)
      invariant Named(RowSet(rows), d, DoneBefore(rows, unverified, i), hashes)
      invariant Total(counts) == Total(countsBefore) + OfPass(rows[..i], unverified)
    {
      assert rows[..i + 1][..i] == rows[..i];
      var r := rows[i];
      PassNext(apply, rows, unverified, d, start, i);
      DoneNext(rows, unverified, i);
      if Unverified(r) == unverified {
        PassNames(apply, rows, unverified, d, start, i, hashes);
        var held: bool;
        m, held, counts := MergeMemory(apply, m, d, r, counts);
        if !held {
          hashes := hashes[r.origin := IdentityOf(r)];
        }
      }
    }
    assert rows[..|rows|] == rows;
  }

  function OfPass(rows: seq<Row>, unverified: bool): nat {
    if rows == [] then 0
    else OfPass(rows[..|rows| - 1], unverified) + if Unverified(rows[|rows| - 1]) == unverified then 1 else 0
  }

  lemma {:induction false} PassesCoverRows(rows: seq<Row>)
    ensures OfPass(rows, false) + OfPass(rows, true) == |rows|
  {
    if rows != [] {
      PassesCoverRows(rows[..|rows| - 1]);
    }
  }

  /** Dependencies between origins, as edges between the identities those origins became. */
  function EdgesOf(lineage: set<(string, string)>, hashes: map<string, Hash>): set<Dependency> {
    set e | e in lineage && e.0 in hashes && e.1 in hashes && hashes[e.0] != hashes[e.1] :: Dependency(hashes[e.0],
        hashes[e.1])
  }

  function Ranks(targets: map<Hash, Target>): map<Hash, Rank> {
    map h | h in targets :: targets[h].sensitivity
  }

  function LiveRanks(rows: map<Hash, LocalRow>): map<Hash, Rank> {
    map h | h in rows :: rows[h].sensitivity
  }

  /** Every cached rank and tombstone is the join of prior local state and all matched rows. */
  ghost predicate AllJoined(rows: seq<Row>, d: Destination, targets: map<Hash, Target>) {
    forall h :: h in targets ==> IsJoin(d, h, targets[h], Counted(RowSet(rows), d, RowSet(rows), h))
  }

  // -- the file's dependencies, from child to parent

  /** Some dependency of the file names a row of this identity as child and one of that identity as parent. */
  ghost predicate FileStep(lineage: set<(string, string)>, hashes: map<string, Hash>, child: Hash, parent: Hash) {
    exists c, p :: (c, p) in lineage && c in hashes && p in hashes && hashes[c] == child && hashes[p] == parent
  }

  /** From an identity up to one it depends on. */
  ghost predicate FileWalk(lineage: set<(string, string)>, hashes: map<string, Hash>, w: seq<Hash>) {
    w != [] && forall i :: 0 <= i < |w| - 1 ==> FileStep(lineage, hashes, w[i], w[i + 1])
  }

  /** As above, where a step may also follow the destination's own lineage from a row to its parent. */
  ghost predicate AncestorWalk(lineage: set<(string, string)>, hashes: map<string, Hash>, local: Edges<Hash>, w: seq<Hash>) {
    w != [] && forall i :: 0 <= i < |w| - 1 ==> FileStep(lineage, hashes, w[i], w[i + 1]) || (w[i + 1], w[i]) in local
  }

  /** The rank is the strictest the identities reached from `h` had after both passes. */
  ghost predicate StrictestAbove(lineage: set<(string, string)>, hashes: map<string, Hash>, m: Merged, h: Hash, rank: Rank) {
    && (forall w :: FileWalk(lineage, hashes, w) && w[0] == h && w[|w| - 1] in m.targets ==> m.targets[w[|w| - 1]].sensitivity <= rank)
    && (exists w :: FileWalk(lineage, hashes, w) && w[0] == h && w[|w| - 1] in m.targets && m.targets[w[|w| - 1]].sensitivity == rank)
  }

  /** The rank is zero, or one that an identity reached from `h` had after both passes, cached or live. */
  ghost predicate HadAbove(lineage: set<(string, string)>, hashes: map<string, Hash>, local: Edges<Hash>, m: Merged, h: Hash,
      rank: Rank) {
    rank == 0
    || exists w :: AncestorWalk(lineage, hashes, local, w) && w[0] == h
         && ((w[|w| - 1] in m.targets && m.targets[w[|w| - 1]].sensitivity == rank)
             || (w[|w| - 1] in m.rows && m.rows[w[|w| - 1]].sensitivity == rank))
  }

  /** What pushing ranks down the file's dependencies gives, from the ranks both passes left. */
  ghost predicate PushedDown(apply: bool, lineage: set<(string, string)>, hashes: map<string, Hash>, d: Destination, m: Merged,
      cached: map<Hash, Rank>, live: map<Hash, Rank>) {
    && cached.Keys == m.targets.Keys && (forall h :: h in cached ==> m.targets[h].sensitivity <= cached[h])
    && (forall c, p :: (c, p) in lineage && c in hashes && p in hashes ==>
          && hashes[c] in cached && hashes[p] in cached && cached[hashes[p]] <= cached[hashes[c]]
          && (hashes[p] != hashes[c] && hashes[p] in live ==> live[hashes[p]] <= cached[hashes[c]]))
    && if apply then
         && live.Keys == m.rows.Keys && (forall h :: h in live ==> m.rows[h].sensitivity <= live[h])
         && (forall h :: h in cached && h in live && m.targets[h].sensitivity < cached[h] ==> cached[h] <= live[h])
         && LocalFollows(d.lineage, cached, LiveRanks(m.rows), live)
         && (forall h :: h in cached ==> HadAbove(lineage, hashes, d.lineage, m, h, cached[h]))
         && (forall h :: h in live ==> HadAbove(lineage, hashes, d.lineage, m, h, live[h]))
       else forall h :: h in cached ==> StrictestAbove(lineage, hashes, m, h, cached[h])
  }

  function Reverse(w: seq<Hash>): seq<Hash> {
    seq(|w|, i requires 0 <= i < |w| => w[|w| - 1 - i])
  }

  lemma EdgeIsStep(lineage: set<(string, string)>, hashes: map<string, Hash>, child: Hash, parent: Hash)
    ensures Dependency(child, parent) in EdgesOf(lineage, hashes) <==> child != parent && FileStep(lineage, hashes, child, parent)
  {
    if c, p :| (c, p) in lineage && c in hashes && p in hashes && hashes[c] == child && hashes[p] == parent && child != parent {
      var e := (c, p);
      assert e in lineage && e.0 in hashes && e.1 in hashes && hashes[e.0] != hashes[e.1];
    }
  }

  lemma WalkUp(lineage: set<(string, string)>, hashes: map<string, Hash>, local: Edges<Hash>, v: seq<Hash>)
    requires Walk(Graph(EdgesOf(lineage, hashes), local), v)
    ensures AncestorWalk(lineage, hashes, local, Reverse(v)) && (local == {} ==> FileWalk(lineage, hashes, Reverse(v)))
    ensures Reverse(v)[0] == v[|v| - 1] && Reverse(v)[|v| - 1] == v[0]
  {
    var w := Reverse(v);
    forall i | 0 <= i < |w| - 1
      ensures FileStep(lineage, hashes, w[i], w[i + 1]) || (w[i + 1], w[i]) in local
    {
      var k := |v| - 2 - i;
      assert (v[k], v[k + 1]) in Graph(EdgesOf(lineage, hashes), local);
      assert w[i] == v[k + 1] && w[i + 1] == v[k];
      if (v[k], v[k + 1]) !in local {
        var e :| e in EdgesOf(lineage, hashes) && (e.parent, e.child) == (v[k], v[k + 1]);
        EdgeIsStep(lineage, hashes, e.child, e.parent);
      }
    }
    hide FileStep, EdgesOf;
  }

  lemma CausedAbove(lineage: set<(string, string)>, hashes: map<string, Hash>, local: Edges<Hash>, m: Merged, h: Hash, rank: Rank)
    requires Caused(Graph(EdgesOf(lineage, hashes), local), Ranks(m.targets), LiveRanks(m.rows), h, rank)
    ensures HadAbove(lineage, hashes, local, m, h, rank)
  {
    var graph := Graph(EdgesOf(lineage, hashes), local);
    if rank != 0 {
      var x :| Reaches(graph, x, h)
        && ((x in m.targets && m.targets[x].sensitivity == rank) || (x in m.rows && m.rows[x].sensitivity == rank));
      var v :| Walk(graph, v) && v[0] == x && v[|v| - 1] == h;
      hide AncestorWalk, EdgesOf, Graph;
      WalkUp(lineage, hashes, local, v);
      assert |Reverse(v)| == |v|;
    }
  }

  ghost predicate ClosedUp(lineage: set<(string, string)>, hashes: map<string, Hash>, cached: map<Hash, Rank>) {
    forall c, p :: (c, p) in lineage && c in hashes && p in hashes ==>
      hashes[c] in cached && hashes[p] in cached && cached[hashes[p]] <= cached[hashes[c]]
  }

  lemma {:induction false} RanksFallUp(lineage: set<(string, string)>, hashes: map<string, Hash>, cached: map<Hash, Rank>,
      w: seq<Hash>)
    requires ClosedUp(lineage, hashes, cached) && FileWalk(lineage, hashes, w) && w[0] in cached
    ensures w[|w| - 1] in cached && cached[w[|w| - 1]] <= cached[w[0]]
  {
    if |w| > 1 {
      var n := |w| - 1;
      assert FileWalk(lineage, hashes, w[..n]);
      RanksFallUp(lineage, hashes, cached, w[..n]);
      assert FileStep(lineage, hashes, w[n - 1], w[n]);
    }
  }

  lemma StrictestFrom(lineage: set<(string, string)>, hashes: map<string, Hash>, m: Merged, cached: map<Hash, Rank>, h: Hash)
    requires ClosedUp(lineage, hashes, cached) && Grown(Ranks(m.targets), cached) && h in cached
    requires AllCaused(Graph(EdgesOf(lineage, hashes), {}), Ranks(m.targets), map[], cached)
    ensures StrictestAbove(lineage, hashes, m, h, cached[h])
  {
    var graph := Graph(EdgesOf(lineage, hashes), {});
    forall w | FileWalk(lineage, hashes, w) && w[0] == h && w[|w| - 1] in m.targets
      ensures m.targets[w[|w| - 1]].sensitivity <= cached[h]
    {
      RanksFallUp(lineage, hashes, cached, w);
    }
    assert Caused(graph, Ranks(m.targets), map[], h, cached[h]);
    hide EdgesOf, FileStep, ClosedUp;
    if cached[h] == 0 {
      assert FileWalk(lineage, hashes, [h]) && m.targets[h].sensitivity == 0;
    } else {
      var x :| Reaches(graph, x, h) && x in m.targets && m.targets[x].sensitivity == cached[h];
      var v :| Walk(graph, v) && v[0] == x && v[|v| - 1] == h;
      hide Graph, FileWalk;
      WalkUp(lineage, hashes, {}, v);
      assert |Reverse(v)| == |v|;
    }
  }

  lemma ClosedPairs(lineage: set<(string, string)>, hashes: map<string, Hash>, cached: map<Hash, Rank>, live: map<Hash, Rank>)
    requires forall o :: o in hashes ==> hashes[o] in cached
    requires forall e :: e in EdgesOf(lineage, hashes) ==>
               e.child in cached && RankOf(cached, e.parent) <= cached[e.child] && RankOf(live, e.parent) <= cached[e.child]
    ensures ClosedUp(lineage, hashes, cached)
    ensures forall c, p :: (c, p) in lineage && c in hashes && p in hashes && hashes[p] != hashes[c] && hashes[p] in live ==>
              live[hashes[p]] <= cached[hashes[c]]
  {
    forall c, p | (c, p) in lineage && c in hashes && p in hashes
      ensures cached[hashes[p]] <= cached[hashes[c]]
      ensures hashes[p] != hashes[c] && hashes[p] in live ==> live[hashes[p]] <= cached[hashes[c]]
    {
      EdgeIsStep(lineage, hashes, hashes[c], hashes[p]);
    }
  }

  lemma AppliedAbove(lineage: set<(string, string)>, hashes: map<string, Hash>, local: Edges<Hash>, m: Merged,
      table: map<Hash, Rank>)
    requires AllCaused(Graph(EdgesOf(lineage, hashes), local), Ranks(m.targets), LiveRanks(m.rows), table)
    ensures forall h :: h in table ==> HadAbove(lineage, hashes, local, m, h, table[h])
  {
    hide HadAbove, Caused, Graph, EdgesOf;
    forall h | h in table ensures HadAbove(lineage, hashes, local, m, h, table[h]) {
      CausedAbove(lineage, hashes, local, m, h, table[h]);
    }
  }

  lemma PreviewAbove(lineage: set<(string, string)>, hashes: map<string, Hash>, m: Merged, cached: map<Hash, Rank>)
    requires ClosedUp(lineage, hashes, cached) && Grown(Ranks(m.targets), cached)
    requires AllCaused(Graph(EdgesOf(lineage, hashes), {}), Ranks(m.targets), map[], cached)
    ensures forall h :: h in cached ==> StrictestAbove(lineage, hashes, m, h, cached[h])
  {
    hide StrictestAbove, AllCaused, Graph, EdgesOf, ClosedUp, Grown;
    forall h | h in cached ensures StrictestAbove(lineage, hashes, m, h, cached[h]) {
      StrictestFrom(lineage, hashes, m, cached, h);
    }
  }

  /** raiseToParents, with the destination in an apply and without one in a preview. */
  method PushDown(apply: bool, lineage: set<(string, string)>, hashes: map<string, Hash>, d: Destination, m: Merged)
      returns (cached: map<Hash, Rank>, live: map<Hash, Rank>)
    requires forall o :: o in hashes ==> hashes[o] in m.targets
    ensures PushedDown(apply, lineage, hashes, d, m, cached, live)
  {
    hide HadAbove, StrictestAbove, AllCaused, Graph, EndpointsCached, LocalFollows;
    var edges := EdgesOf(lineage, hashes);
    EdgesCached(lineage, hashes, m);
    if apply {
      cached, live := RaiseToParents(edges, d.lineage, Ranks(m.targets), LiveRanks(m.rows));
      ClosedPairs(lineage, hashes, cached, live);
      AppliedAbove(lineage, hashes, d.lineage, m, cached);
      AppliedAbove(lineage, hashes, d.lineage, m, live);
    } else {
      cached, live := RaiseToParents(edges, {}, Ranks(m.targets), map[]);
      ClosedPairs(lineage, hashes, cached, live);
      PreviewAbove(lineage, hashes, m, cached);
    }
    hide EdgesOf;
  }

  lemma EdgesCached(lineage: set<(string, string)>, hashes: map<string, Hash>, m: Merged)
    requires forall o :: o in hashes ==> hashes[o] in m.targets
    ensures EndpointsCached(EdgesOf(lineage, hashes), Ranks(m.targets))
  {
  }

  /**
   * Both passes, then the ranks pushed down the file's dependencies, read as edges between the
   * identities their origins became. Every identity a row matched ends as the join of its prior local
   * state and all its matched rows - in an apply, if no row can overtake another - and the destination
   * only hardens. The ranks then follow every edge, and none appears that no ancestor had.
   */
  method MergeTransferPlan(apply: bool, rows: seq<Row>, lineage: set<(string, string)>, d: Destination)
      returns (m: Merged, hashes: map<string, Hash>, cached: map<Hash, Rank>, live: map<Hash, Rank>, counts: Counts)
    requires WellFormed(RowSet(rows), d)
    ensures m == MergeFile(apply, rows, d)
    ensures forall h :: h in m.targets <==> Counted(RowSet(rows), d, RowSet(rows), h) != {}
    ensures forall h :: h in m.targets ==> BoundedBy(d, h, m.targets[h], Counted(RowSet(rows), d, RowSet(rows), h))
    ensures !apply || NothingOvertaken(RowSet(rows), d) ==> AllJoined(rows, d, m.targets)
    ensures Placed(apply, RowSet(rows), d, RowSet(rows), m)
    ensures Hardened(d.rows, m.rows) && (if apply then Mirrors(m) else m.rows == d.rows)
    ensures ChildrenFollow(d, m.rows)
    ensures Total(counts) == |rows|
    ensures Named(RowSet(rows), d, RowSet(rows), hashes)
    ensures PushedDown(apply, lineage, hashes, d, m, cached, live)
  {
    PassesProgress(apply, rows, d);
    DoneAtStart(rows);
    NothingNamed(RowSet(rows), d);
    hide Progress, WellFormed, PassRows, DoneBefore, RowSet, Hardened, Counted, BoundedBy, AllJoined,
      NothingOvertaken, Mirrors, Named, Placed, ChildrenFollow, PushedDown, EdgesOf;
    m, hashes, counts := MergePass(apply, rows, false, d, Merged(map[], d.rows), map[], Counts(0, 0, 0, 0));
    m, hashes, counts := MergePass(apply, rows, true, d, m, hashes, counts);
    PassesCoverRows(rows);
    ProgressMeans(apply, rows, d, m);
    NamedCached(apply, RowSet(rows), d, m, hashes);
    cached, live := PushDown(apply, lineage, hashes, d, m);
  }

  lemma NothingNamed(all: set<Row>, d: Destination)
    ensures Named(all, d, {}, map[])
  {
  }

  lemma ProgressMeans(apply: bool, rows: seq<Row>, d: Destination, m: Merged)
    requires Progress(apply, RowSet(rows), d, RowSet(rows), m)
    ensures forall h :: h in m.targets <==> Counted(RowSet(rows), d, RowSet(rows), h) != {}
    ensures forall h :: h in m.targets ==> BoundedBy(d, h, m.targets[h], Counted(RowSet(rows), d, RowSet(rows), h))
    ensures !apply || NothingOvertaken(RowSet(rows), d) ==> AllJoined(rows, d, m.targets)
    ensures Placed(apply, RowSet(rows), d, RowSet(rows), m)
    ensures ChildrenFollow(d, m.rows)
    ensures Hardened(d.rows, m.rows) && (if apply then Mirrors(m) else m.rows == d.rows)
  {
    var all := RowSet(rows);
    SpreadToChildren(d, m.rows);
    hide ChildrenFollow, RowsCaused, Spread, Placed, NothingOvertaken, Mirrors, Hardened, RowSet, Counted;
    forall h
      ensures h in m.targets <==> Counted(all, d, all, h) != {}
      ensures h in m.targets ==> BoundedBy(d, h, m.targets[h], Counted(all, d, all, h))
    {
      assert JoinAt(all, d, all, m, h);
    }
  }

  lemma NamedCached(apply: bool, all: set<Row>, d: Destination, m: Merged, hashes: map<string, Hash>)
    requires Progress(apply, all, d, all, m) && Named(all, d, all, hashes)
    ensures forall o :: o in hashes ==> hashes[o] in m.targets
  {
    forall o | o in hashes ensures hashes[o] in m.targets {
      var r :| r in all && r.origin == o && Matched(all, d, r) && hashes[o] == IdentityOf(r);
      assert r in Counted(all, d, all, hashes[o]);
      assert JoinAt(all, d, all, m, hashes[o]);
    }
  }

  // ---------------------------------------------------------------- consequences

  /** The join is determined by the set of rows: files that differ only in order merge alike. */
  lemma OrderDoesNotMatter(d: Destination, rows: seq<Row>, others: seq<Row>, a: Target, b: Target, h: Hash)
    requires multiset(rows) == multiset(others)
    requires IsJoin(d, h, a, Counted(RowSet(rows), d, RowSet(rows), h))
    requires IsJoin(d, h, b, Counted(RowSet(others), d, RowSet(others), h))
    ensures a.sensitivity == b.sensitivity && (a.deletedAt.Some? <==> b.deletedAt.Some?)
  {
    SameRowSet(rows, others);
    hide Counted;
  }

  lemma SameRowSet(rows: seq<Row>, others: seq<Row>)
    requires multiset(rows) == multiset(others)
    ensures RowSet(rows) == RowSet(others)
  {
    forall r ensures r in rows <==> r in others {
      assert r in rows <==> r in multiset(rows);
      assert r in others <==> r in multiset(others);
    }
  }

  /** A redacted personal row never touches a memory that belongs to a repository. */
  lemma RedactedNeverHoldsRepositoryMemory(apply: bool, all: set<Row>, d: Destination, done: set<Row>, m: Merged,
      r: Row)
    requires Joins(all, d, done, m) && InOrder(all, done, r) && MarkedAreProjections(d) && (apply ==> Mirrors(m))
    requires forall v :: v in all ==> Validated(v)
    requires Unverified(r) && r.claimed.RepoHash?
    ensures MergeRow(apply, m, d, r) == m
  {
    assert !Matched(all, d, r);
    MergeEffect(apply, all, d, done, m, r);
  }

  // ---------------------------------------------------------------- in an apply, exactly when the order shows

  /** The identity is at least this strict: in the cache once it is there, in the destination before. */
  ghost predicate Floor(m: Merged, h: Hash, rank: Rank) {
    && h in m.rows && rank <= m.rows[h].sensitivity
    && (h in m.targets ==> rank <= m.targets[h].sensitivity)
  }

  lemma FloorStays(all: set<Row>, d: Destination, done: set<Row>, m: Merged, r: Row, h: Hash, rank: Rank)
    requires Progress(true, all, d, done, m) && InOrder(all, done, r) && WellFormed(all, d) && Floor(m, h, rank)
    ensures Floor(MergeRow(true, m, d, r), h, rank)
  {
    MergeEffect(true, all, d, done, m, r);
    hide MergeRow, Matched, Counted, BoundedBy, Joins, RowsCaused, Spread, CacheWithin, NothingOvertaken, Mirrors,
        Descend;
  }

  /** One row of a pass keeps the floor. */
  lemma RowKeepsFloor(rows: seq<Row>, unverified: bool, d: Destination, start: Merged, n: nat, h: Hash, rank: Rank)
    requires n < |rows| && WellFormed(RowSet(rows), d)
    requires Progress(true, RowSet(rows), d, DoneBefore(rows, unverified, 0), start)
    requires Floor(PassRows(true, rows[..n], unverified, d, start), h, rank)
    ensures Floor(PassRows(true, rows[..n + 1], unverified, d, start), h, rank)
  {
    hide Progress, WellFormed, MergeRow, RowSet, Floor, DoneBefore, InOrder, Unverified;
    PassNext(true, rows, unverified, d, start, n);
    hide PassRows;
    if Unverified(rows[n]) == unverified {
      PassProgresses(true, rows, unverified, d, start, n);
      NextInOrder(rows, unverified, n);
      FloorStays(RowSet(rows), d, DoneBefore(rows, unverified, n), PassRows(true, rows[..n], unverified, d, start),
          rows[n], h, rank);
    }
  }

  lemma {:induction false} PassKeepsFloor(rows: seq<Row>, unverified: bool, d: Destination, start: Merged, from: nat,
      n: nat,
      h: Hash, rank: Rank)
    requires from <= n <= |rows| && WellFormed(RowSet(rows), d)
    requires Progress(true, RowSet(rows), d, DoneBefore(rows, unverified, 0), start)
    requires Floor(PassRows(true, rows[..from], unverified, d, start), h, rank)
    ensures Floor(PassRows(true, rows[..n], unverified, d, start), h, rank)
  {
    hide Progress, WellFormed, RowSet, Floor, DoneBefore, PassRows;
    if from < n {
      PassKeepsFloor(rows, unverified, d, start, from, n - 1, h, rank);
      RowKeepsFloor(rows, unverified, d, start, n - 1, h, rank);
    }
  }

  /** Merged as the first row of its pass, the overtaking row raises the other identity's live row. */
  lemma FirstRaises(all: set<Row>, d: Destination, done: set<Row>, m: Merged, a: Row, b: Row)
    requires Progress(true, all, d, done, m) && InOrder(all, done, a) && WellFormed(all, d) && Overtakes(all, d, a, b)
    requires done == if Unverified(a) then set v | v in all && !Unverified(v) else {}
    ensures Floor(MergeRow(true, m, d, a), IdentityOf(b), a.sensitivity)
  {
    var h, x := IdentityOf(a), IdentityOf(b);
    var next := MergeRow(true, m, d, a);
    MergeEffect(true, all, d, done, m, a);
    MergeHardens(true, all, d, done, m, a);
    SpreadStays(true, all, d, done, m, a);
    MergeJoins(true, all, d, done, m, a);
    DescendEnds(d.lineage, h, x);
    assert JoinAt(all, d, done, m, x) && JoinAt(all, d, done + {a}, next, h);
    assert Counted(all, d, done, x) == {};
    NoneDeletedBefore(all, d, done, a);
    hide MergeRow, Matched, Counted, Joins, RowsCaused, CacheWithin, NothingOvertaken, Descend, Validated,
        MarkedAreProjections, WithinJoin;
    assert h in next.targets && next.targets[h].deletedAt.None? && a.sensitivity <= next.targets[h].sensitivity;
  }

  /** The rows of the overtaking row's identity that come before it are not deleted. */
  lemma NoneDeletedBefore(all: set<Row>, d: Destination, done: set<Row>, a: Row)
    requires a.deletedAt.None? && Matched(all, d, a) && WellFormed(all, d)
    requires done == if Unverified(a) then set v | v in all && !Unverified(v) else {}
    ensures forall v :: v in Counted(all, d, done + {a}, IdentityOf(a)) ==> v.deletedAt.None?
  {
  }

  /**
   * In any file that has an overtaking row first, the overtaken identity's cached rank ends stricter
   * than its join.
   */
  lemma DescendantsShowOrder(d: Destination, rows: seq<Row>, a: Row, b: Row)
    requires rows != [] && rows[0] == a && Overtakes(RowSet(rows), d, a, b) && WellFormed(RowSet(rows), d)
    ensures var m := MergeFile(true, rows, d);
            IdentityOf(b) in m.targets && a.sensitivity <= m.targets[IdentityOf(b)].sensitivity && !AllJoined(rows, d,
                m.targets)
  {
    var x, start, all := IdentityOf(b), Merged(map[], d.rows), RowSet(rows);
    var first := PassRows(true, rows, false, d, start);
    PassesProgress(true, rows, d);
    DoneAtStart(rows);
    var before := if Unverified(a) then first else start;
    VerifiedDone(rows);
    NextInOrder(rows, Unverified(a), 0);
    assert DoneBefore(rows, Unverified(a), 0) == if Unverified(a) then set v | v in all && !Unverified(v) else {};
    FirstRaises(all, d, DoneBefore(rows, Unverified(a), 0), before, a, b);
    assert rows[..1] == [a] && rows[..|rows|] == rows && rows[..0] == [];
    FirstOfPass(rows, Unverified(a), d, before);
    hide Progress, WellFormed, MergeRow, Overtakes, InOrder, RowSet, DoneBefore, PassRows, Floor;
    PassKeepsFloor(rows, Unverified(a), d, before, 1, |rows|, x, a.sensitivity);
    if !Unverified(a) {
      NoRowsYet(rows, true, d, first);
      PassKeepsFloor(rows, true, d, first, 0, |rows|, x, a.sensitivity);
    }
    FloorShows(rows, d, MergeFile(true, rows, d), a, b);
  }

  lemma FirstOfPass(rows: seq<Row>, unverified: bool, d: Destination, start: Merged)
    requires rows != [] && Unverified(rows[0]) == unverified
    ensures PassRows(true, rows[..1], unverified, d, start) == MergeRow(true, start, d, rows[0])
  {
    assert rows[..1][..0] == [];
  }

  lemma NoRowsYet(rows: seq<Row>, unverified: bool, d: Destination, start: Merged)
    ensures PassRows(true, rows[..0], unverified, d, start) == start
  {
  }

  lemma VerifiedDone(rows: seq<Row>)
    ensures DoneBefore(rows, true, 0) == set v | v in RowSet(rows) && !Unverified(v)
  {
    forall v | v in RowSet(rows) && !Unverified(v) ensures v in DoneBefore(rows, true, 0) {
      var k :| 0 <= k < |rows| && rows[k] == v;
    }
  }

  lemma FloorShows(rows: seq<Row>, d: Destination, m: Merged, a: Row, b: Row)
    requires Progress(true, RowSet(rows), d, RowSet(rows), m) && Overtakes(RowSet(rows), d, a, b) && Floor(m,
        IdentityOf(b), a.sensitivity)
    ensures IdentityOf(b) in m.targets && a.sensitivity <= m.targets[IdentityOf(b)].sensitivity && !AllJoined(rows, d,
        m.targets)
  {
    var all, x := RowSet(rows), IdentityOf(b);
    assert b in Counted(all, d, all, x);
    assert JoinAt(all, d, all, m, x);
    hide Raises, RowsCaused, Spread, CacheWithin, NothingOvertaken, Mirrors, Matched, BoundedBy, Counted, RowSet;
    assert !Attained(d, x, m.targets[x].sensitivity, Counted(all, d, all, x));
  }

  /** The same rows with one of them first. */
  function FirstOf(rows: seq<Row>, k: nat): seq<Row>
    requires k < |rows|
  {
    [rows[k]] + rows[..k] + rows[k + 1..]
  }

  lemma FirstOfSame(rows: seq<Row>, k: nat)
    requires k < |rows|
    ensures multiset(FirstOf(rows, k)) == multiset(rows) && FirstOf(rows, k)[0] == rows[k]
  {
    assert rows == rows[..k] + [rows[k]] + rows[k + 1..];
  }

  ghost predicate EveryOrderJoins(rows: seq<Row>, d: Destination) {
    forall order :: multiset(order) == multiset(rows) ==> AllJoined(order, d, MergeFile(true, order, d).targets)
  }

  /**
   * An apply gives every identity the join of its local state and its matched rows, in every order of
   * the file, exactly if no row of the file can overtake another.
   */
  lemma EveryOrderJoinsExactly(rows: seq<Row>, d: Destination)
    requires WellFormed(RowSet(rows), d)
    ensures EveryOrderJoins(rows, d) <==> NothingOvertaken(RowSet(rows), d)
  {
    hide WellFormed, Overtakes, MergeFile, AllJoined, RowSet;
    if NothingOvertaken(RowSet(rows), d) {
      forall order | multiset(order) == multiset(rows) ensures AllJoined(order, d, MergeFile(true, order, d).targets) {
        SameRowSet(order, rows);
        PassesProgress(true, order, d);
        ProgressMeans(true, order, d, MergeFile(true, order, d));
      }
    } else {
      var a, b :| Overtakes(RowSet(rows), d, a, b);
      assert a in rows by { OvertakerInFile(rows, d, a, b); }
      var k :| 0 <= k < |rows| && rows[k] == a;
      var order := FirstOf(rows, k);
      FirstOfSame(rows, k);
      SameRowSet(order, rows);
      DescendantsShowOrder(d, order, a, b);
      assert multiset(order) == multiset(rows) && !AllJoined(order, d, MergeFile(true, order, d).targets);
    }
  }

  lemma OvertakerInFile(rows: seq<Row>, d: Destination, a: Row, b: Row)
    requires Overtakes(RowSet(rows), d, a, b)
    ensures a in rows
  {
  }

  const PARENT := RepoHash("r", "parent")
  const CHILD := RepoHash("r", "child")
  const LINKED := Destination(map[PARENT := LocalRow("r", 0, None), CHILD := LocalRow("r", 0, None)], {},
      {(PARENT, CHILD)})
  const SECRET_PARENT := Row("p", "r", false, PARENT, "", "", "parent", None, SECRET)
  const PLAIN_CHILD := Row("c", "r", false, CHILD, "", "", "child", None, 0)

  lemma ApplyDependsOnOrder()
    ensures var start := Merged(map[], LINKED.rows);
            var parentFirst := MergeRow(true, MergeRow(true, start, LINKED, SECRET_PARENT), LINKED, PLAIN_CHILD);
            var childFirst := MergeRow(true, MergeRow(true, start, LINKED, PLAIN_CHILD), LINKED, SECRET_PARENT);
            parentFirst.targets[CHILD].sensitivity == SECRET && childFirst.targets[CHILD].sensitivity == 0
  {
    assert (PARENT, CHILD) in LINKED.lineage;
    assert CHILD in Children(LINKED.lineage, Descend(LINKED.lineage, {PARENT}));
    hide Descend;
  }
}
