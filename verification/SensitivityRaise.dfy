/**
 * Pushing sensitivity down the dependency graph of an import (src/transfer-merge.ts,
 * raiseToParents): a worklist over content hashes, where the graph may be cyclic because two origins
 * can become one local memory. With a destination database every live raise also runs the
 * memories_provenance_privacy trigger of migration 0005 and feeds its raises back.
 */
module SensitivityRaise {
  import opened Graphs

  /** A content identity: sha256 over what it is derived from, read as an injective function. */
  datatype Hash = RepoHash(repo: string, material: string) | TextHash(title: string,
      body: string) | OtherHash(text: string)

  /** eligible 0, local_only 1, private 2, secret 3 */
  type Rank = r: nat | r <= 3
  const SECRET: Rank := 3

  /** An edge of the file: the child depends on the parent. */
  datatype Dependency = Dependency(child: Hash, parent: Hash)

  function RankOf(table: map<Hash, Rank>, h: Hash): Rank {
    if h in table then table[h] else 0
  }

  function MaxRank(a: Rank, b: Rank): Rank {
    if a < b then b else a
  }

  // ---------------------------------------------------------------- local descendants and the trigger

  function Children(lineage: Edges<Hash>, seen: set<Hash>): set<Hash> {
    set e | e in lineage && e.0 in seen :: e.1
  }

  /** The recursive walk of the trigger: everything reached from `seen` over local lineage. */
  function Descend(lineage: Edges<Hash>, seen: set<Hash>): (r: set<Hash>)
    ensures seen <= r && Children(lineage, r) <= r
    decreases Endpoints(lineage) - seen
  {
    var more := Children(lineage, seen) - seen;
    if more == {} then seen
    else
      var h :| h in more;
      assert Endpoints(lineage) - (seen + more) < Endpoints(lineage) - seen by {
        assert h in Endpoints(lineage) - seen && h !in Endpoints(lineage) - (seen + more);
      }
      Descend(lineage, seen + more)
  }

  /** UPDATE memories SET sensitivity = rank with the trigger: the row and every weaker descendant. */
  function RaiseLive(live: map<Hash, Rank>, lineage: Edges<Hash>, h: Hash, rank: Rank): map<Hash, Rank> {
    var reached := Descend(lineage, {h});
    map x | x in live :: if x in reached && live[x] < rank then rank else live[x]
  }

  // ---------------------------------------------------------------- what the loop establishes

  ghost predicate Grown(before: map<Hash, Rank>, after: map<Hash, Rank>) {
    after.Keys == before.Keys && forall h :: h in before ==> before[h] <= after[h]
  }

  /** The strictest rank known of a parent, in the cache or in the destination. */
  function Known(cached: map<Hash, Rank>, live: map<Hash, Rank>, h: Hash): Rank {
    MaxRank(RankOf(cached, h), RankOf(live, h))
  }

  ghost predicate Settled(edges: set<Dependency>, cached: map<Hash, Rank>, live: map<Hash, Rank>, parent: Hash) {
    forall e :: e in edges && e.parent == parent ==> Known(cached, live, parent) <= RankOf(cached, e.child)
  }

  /** Dependencies and local lineage as one graph, from the stricter side down. */
  function Graph(edges: set<Dependency>, lineage: Edges<Hash>): Edges<Hash> {
    lineage + set e | e in edges :: (e.parent, e.child)
  }

  /** A rank is zero or was there at the start, on this identity or on one it depends on. */
  ghost predicate Caused(graph: Edges<Hash>, cached: map<Hash, Rank>, live: map<Hash, Rank>, h: Hash, rank: Rank) {
    rank == 0 || exists x :: Reaches(graph, x, h) && ((x in cached && cached[x] == rank) || (x in live && live[x] == rank))
  }

  ghost predicate AllCaused(graph: Edges<Hash>, cached0: map<Hash, Rank>, live0: map<Hash, Rank>,
      table: map<Hash, Rank>) {
    forall h :: h in table ==> Caused(graph, cached0, live0, h, table[h])
  }

  /** Where the cache was raised, the live row followed. */
  ghost predicate LiveFollows(cached0: map<Hash, Rank>, cached: map<Hash, Rank>, live: map<Hash, Rank>) {
    forall h :: h in cached && h in cached0 && h in live && cached[h] > cached0[h] ==> live[h] >= cached[h]
  }

  ghost predicate EndpointsCached(edges: set<Dependency>, cached: map<Hash, Rank>) {
    forall e :: e in edges ==> e.child in cached && e.parent in cached
  }

  // ---------------------------------------------------------------- reaching

  /** Whatever holds of the start and passes along lineage holds of every descendant. */
  lemma {:induction false} DescendReaches(graph: Edges<Hash>, lineage: Edges<Hash>, seen: set<Hash>, x: Hash, h: Hash)
    requires lineage <= graph && (forall s :: s in seen ==> Reaches(graph, x, s)) && h in Descend(lineage, seen)
    ensures Reaches(graph, x, h)
    decreases Endpoints(lineage) - seen
  {
    var more := Children(lineage, seen) - seen;
    if more != {} {
      forall s | s in more ensures Reaches(graph, x, s) {
        var e :| e in lineage && e.0 in seen && e.1 == s;
        ReachesStep(graph, x, e.0, s);
      }
      var some :| some in more;
      assert some in Endpoints(lineage) - seen && some !in Endpoints(lineage) - (seen + more);
      DescendReaches(graph, lineage, seen + more, x, h);
    }
  }

  lemma CausePasses(graph: Edges<Hash>, cached: map<Hash, Rank>, live: map<Hash, Rank>, parent: Hash, child: Hash,
      rank: Rank)
    requires Caused(graph, cached, live, parent, rank) && (parent, child) in graph
    ensures Caused(graph, cached, live, child, rank)
  {
    if rank != 0 {
      var x :| Reaches(graph, x, parent) && ((x in cached && cached[x] == rank) || (x in live && live[x] == rank));
      ReachesStep(graph, x, parent, child);
    }
  }

  lemma {:induction false} CauseDescends(graph: Edges<Hash>, lineage: Edges<Hash>, cached: map<Hash, Rank>,
      live: map<Hash, Rank>,
      h: Hash, rank: Rank)
    requires lineage <= graph && Caused(graph, cached, live, h, rank)
    ensures forall d :: d in Descend(lineage, {h}) ==> Caused(graph, cached, live, d, rank)
  {
    if rank != 0 {
      var x :| Reaches(graph, x, h) && ((x in cached && cached[x] == rank) || (x in live && live[x] == rank));
      forall d | d in Descend(lineage, {h}) ensures Caused(graph, cached, live, d, rank) {
        DescendReaches(graph, lineage, {h}, x, d);
      }
    }
  }

  // ---------------------------------------------------------------- termination

  /** What the ranks of a table can still gain. */
  ghost function Room(table: map<Hash, Rank>, keys: set<Hash>): nat
    requires keys <= table.Keys
  {
    if keys == {} then 0
    else
      var h :| h in keys;
      (3 - table[h]) + Room(table, keys - {h})
  }

  lemma {:induction false} RoomAt(table: map<Hash, Rank>, keys: set<Hash>, h: Hash)
    requires h in keys && keys <= table.Keys
    ensures Room(table, keys) == (3 - table[h]) + Room(table, keys - {h})
  {
    var first :| first in keys && Room(table, keys) == (3 - table[first]) + Room(table, keys - {first});
    if first != h {
      RoomAt(table, keys - {first}, h);
      assert keys - {first} - {h} == keys - {h} - {first};
      RoomAt(table, keys - {h}, first);
    }
  }

  lemma {:induction false} RoomShrinks(before: map<Hash, Rank>, after: map<Hash, Rank>, keys: set<Hash>)
    requires keys <= before.Keys && keys <= after.Keys && forall h :: h in keys ==> before[h] <= after[h]
    ensures Room(after, keys) <= Room(before, keys)
    ensures (exists h :: h in keys && before[h] < after[h]) ==> Room(after, keys) < Room(before, keys)
  {
    if keys != {} {
      var h :| h in keys && (before[h] < after[h] || forall k :: k in keys ==> before[k] == after[k]);
      RoomAt(before, keys, h);
      RoomAt(after, keys, h);
      RoomShrinks(before, after, keys - {h});
    }
  }

  // ---------------------------------------------------------------- the worklist

  /** The two tables and the queue of hashes whose children must be looked at again. */
  datatype Tables = Tables(cached: map<Hash, Rank>, live: map<Hash, Rank>, queue: set<Hash>)

  ghost function TotalRoom(t: Tables): nat {
    Room(t.cached, t.cached.Keys) + Room(t.live, t.live.Keys)
  }

  /** Ranks rise, and every hash whose known rank rose is queued. */
  ghost predicate Raised(t: Tables, u: Tables) {
    && Grown(t.cached, u.cached) && Grown(t.live, u.live) && t.queue <= u.queue
    && forall h :: Known(u.cached, u.live, h) > Known(t.cached, t.live, h) ==> h in u.queue
  }

  /** Every parent is queued or settled. */
  ghost predicate Covered(edges: set<Dependency>, t: Tables) {
    forall p :: p in t.queue || Settled(edges, t.cached, t.live, p)
  }

  /** As above, but the parent being visited is settled only for children outside `todo`. */
  ghost predicate CoveredBut(edges: set<Dependency>, t: Tables, parent: Hash, rank: Rank, todo: set<Hash>) {
    && (forall p :: p != parent ==> p in t.queue || Settled(edges, t.cached, t.live, p))
    && (parent in t.queue || Known(t.cached, t.live, parent) == rank)
    && (forall e :: e in edges && e.parent == parent && e.child !in todo ==> rank <= RankOf(t.cached, e.child))
  }

  lemma RaisedTrans(t: Tables, u: Tables, v: Tables)
    requires Raised(t, u) && Raised(u, v)
    ensures Raised(t, v)
  {
    forall h | Known(v.cached, v.live, h) > Known(t.cached, t.live, h) ensures h in v.queue {
      assert Known(u.cached, u.live, h) > Known(t.cached, t.live, h) || Known(v.cached, v.live, h) > Known(u.cached,
          u.live, h);
    }
  }

  lemma KnownGrows(t: Tables, u: Tables, h: Hash)
    requires Raised(t, u)
    ensures Known(t.cached, t.live, h) <= Known(u.cached, u.live, h) && RankOf(t.cached, h) <= RankOf(u.cached, h)
  {
  }

  lemma RaisedKeepsCovered(edges: set<Dependency>, t: Tables, u: Tables, parent: Hash, rank: Rank, todo: set<Hash>)
    requires Raised(t, u) && CoveredBut(edges, t, parent, rank, todo)
    ensures CoveredBut(edges, u, parent, rank, todo)
  {
    forall p | p !in u.queue ensures (if p == parent then Known(u.cached, u.live, p) == rank else Settled(edges, u.cached, u.live, p)) {
      KnownGrows(t, u, p);
      forall e | e in edges && e.parent == p ensures RankOf(t.cached, e.child) <= RankOf(u.cached, e.child) {
        KnownGrows(t, u, e.child);
      }
    }
    forall e | e in edges && e.parent == parent && e.child !in todo ensures rank <= RankOf(u.cached, e.child) {
      KnownGrows(t, u, e.child);
    }
  }

  lemma RoomOf(t: Tables, u: Tables)
    requires Grown(t.cached, u.cached) && Grown(t.live, u.live)
    ensures TotalRoom(u) <= TotalRoom(t)
    ensures (exists h :: h in t.cached && t.cached[h] < u.cached[h]) ==> TotalRoom(u) < TotalRoom(t)
  {
    RoomShrinks(t.cached, u.cached, t.cached.Keys);
    RoomShrinks(t.live, u.live, t.live.Keys);
  }

  /** What the trigger raised is written back to the cache and queued. */
  method FeedBack(cached: map<Hash, Rank>, live: map<Hash, Rank>, queue: set<Hash>, reached: set<Hash>)
      returns (cachedAfter: map<Hash, Rank>, queueAfter: set<Hash>)
    ensures cachedAfter.Keys == cached.Keys
    ensures forall h :: h in cached ==> cachedAfter[h] == if h in reached then MaxRank(cached[h], RankOf(live, h)) else cached[h]
    ensures queue <= queueAfter && forall h :: h in reached && RankOf(live, h) > RankOf(cached, h) ==> h in queueAfter
  {
    cachedAfter, queueAfter := cached, queue;
    var todo := reached;
    while todo != {}
      invariant todo <= reached && cachedAfter.Keys == cached.Keys && queue <= queueAfter
      invariant forall h :: h in cached ==>
        cachedAfter[h] == if h in reached - todo then MaxRank(cached[h], RankOf(live, h)) else cached[h]
      invariant forall h :: h in reached - todo && RankOf(live, h) > RankOf(cached, h) ==> h in queueAfter
      decreases todo
    {
      var h :| h in todo;
      todo := todo - {h};
      if h in live && live[h] > RankOf(cachedAfter, h) {
        if h in cachedAfter {
          cachedAfter := cachedAfter[h := live[h]];
        }
        queueAfter := queueAfter + {h};
      }
    }
  }

  /** What a step keeps about where ranks come from. */
  ghost predicate Sound(graph: Edges<Hash>, start: Tables, t: Tables) {
    && AllCaused(graph, start.cached, start.live, t.cached)
    && AllCaused(graph, start.cached, start.live, t.live)
    && LiveFollows(start.cached, t.cached, t.live)
  }

  /** A live row that was raised has children in the destination as strict, and a cache row as strict. */
  ghost predicate LocalFollows(lineage: Edges<Hash>, cached: map<Hash, Rank>, live0: map<Hash, Rank>, live: map<Hash, Rank>) {
    && (forall p, c :: (p, c) in lineage && p in live && c in live && p in live0 && live[p] > live0[p] ==> live[p] <= live[c])
    && (forall h :: h in live && h in live0 && h in cached && live[h] > live0[h] ==> live[h] <= cached[h])
  }

  lemma ChildFollows(t: Tables, u: Tables, lineage: Edges<Hash>, child: Hash, rank: Rank, start: Tables)
    requires child in t.cached && t.cached[child] < rank && ChildResult(t, u, lineage, child, rank)
    requires LocalFollows(lineage, t.cached, start.live, t.live)
    ensures LocalFollows(lineage, u.cached, start.live, u.live)
  {
    var reached := Descend(lineage, {child});
    forall p, c | (p, c) in lineage && p in u.live && c in u.live && p in start.live && u.live[p] > start.live[p]
      ensures u.live[p] <= u.live[c]
    {
      if p in reached {
        assert c in Children(lineage, reached) by { ChildIn(lineage, reached, p, c); }
      }
    }
    hide Descend;
  }

  lemma ChildIn(lineage: Edges<Hash>, seen: set<Hash>, p: Hash, c: Hash)
    requires (p, c) in lineage && p in seen
    ensures c in Children(lineage, seen)
  {
    var e := (p, c);
    assert e in lineage && e.0 in seen;
  }

  lemma RaiseLiveSound(graph: Edges<Hash>, lineage: Edges<Hash>, start: Tables, live: map<Hash, Rank>, h: Hash,
      rank: Rank)
    requires lineage <= graph && AllCaused(graph, start.cached, start.live, live)
    requires Caused(graph, start.cached, start.live, h, rank)
    ensures AllCaused(graph, start.cached, start.live, RaiseLive(live, lineage, h, rank))
  {
    CauseDescends(graph, lineage, start.cached, start.live, h, rank);
  }

  /** The tables after one child was raised: its cache row, and with a live raise those of its descendants. */
  ghost predicate ChildResult(t: Tables, u: Tables, lineage: Edges<Hash>, child: Hash, rank: Rank)
    requires child in t.cached
  {
    var base := t.cached[child := rank];
    if child in t.live && t.live[child] < rank then
      var reached := Descend(lineage, {child});
      && u.live == RaiseLive(t.live, lineage, child, rank)
      && u.cached.Keys == base.Keys && t.queue + {child} <= u.queue
      && (forall h :: h in base ==> u.cached[h] == if h in reached then MaxRank(base[h], RankOf(u.live, h)) else base[h])
      && (forall h :: h in reached && RankOf(u.live, h) > RankOf(base, h) ==> h in u.queue)
    else u == Tables(base, t.live, t.queue + {child})
  }

  lemma ChildRaises(t: Tables, u: Tables, lineage: Edges<Hash>, child: Hash, rank: Rank)
    requires child in t.cached && t.cached[child] < rank && ChildResult(t, u, lineage, child, rank)
    ensures Raised(t, u) && child in u.cached && rank <= u.cached[child] && TotalRoom(u) < TotalRoom(t)
  {
    RoomOf(t, u);
    hide TotalRoom;
  }

  lemma ChildSound(t: Tables, u: Tables, lineage: Edges<Hash>, child: Hash, rank: Rank, graph: Edges<Hash>,
      start: Tables)
    requires child in t.cached && t.cached[child] < rank && ChildResult(t, u, lineage, child, rank)
    requires lineage <= graph && Sound(graph, start, t) && Caused(graph, start.cached, start.live, child, rank)
    ensures Sound(graph, start, u)
  {
    RaiseLiveSound(graph, lineage, start, t.live, child, rank);
    hide Caused;
  }

  /** One child that is less strict than its parent is raised, with everything that follows from it. */
  method RaiseChild(t: Tables, lineage: Edges<Hash>, child: Hash, rank: Rank) returns (u: Tables)
    requires child in t.cached && t.cached[child] < rank
    ensures ChildResult(t, u, lineage, child, rank)
  {
    var cached := t.cached[child := rank];
    var live := t.live;
    var queue := t.queue + {child};
    if child in live && live[child] < rank {
      live := RaiseLive(live, lineage, child, rank);
      hide RaiseLive;
      cached, queue := FeedBack(cached, live, queue, Descend(lineage, {child}));
    }
    u := Tables(cached, live, queue);
  }

  lemma ChildStep(t: Tables, u: Tables, next: Tables, edges: set<Dependency>, lineage: Edges<Hash>, parent: Hash,
      rank: Rank,
      todo: set<Hash>, child: Hash, start: Tables)
    requires Raised(t, u) && Sound(Graph(edges, lineage), start, u) && CoveredBut(edges, u, parent, rank, todo)
    requires Dependency(child, parent) in edges && Caused(Graph(edges, lineage), start.cached, start.live, parent, rank)
    requires child in u.cached && u.cached[child] < rank && ChildResult(u, next, lineage, child, rank)
    ensures Raised(t, next) && Sound(Graph(edges, lineage), start, next)
    ensures CoveredBut(edges, next, parent, rank, todo - {child})
    ensures TotalRoom(next) < TotalRoom(u)
    ensures LocalFollows(lineage, u.cached, start.live, u.live) ==> LocalFollows(lineage, next.cached, start.live, next.live)
  {
    if LocalFollows(lineage, u.cached, start.live, u.live) {
      ChildFollows(u, next, lineage, child, rank, start);
    }
    hide LocalFollows, Raised, Sound, CoveredBut, ChildResult, Caused, TotalRoom;
    assert (parent, child) in Graph(edges, lineage);
    CausePasses(Graph(edges, lineage), start.cached, start.live, parent, child, rank);
    ChildRaises(u, next, lineage, child, rank);
    ChildSound(u, next, lineage, child, rank, Graph(edges, lineage), start);
    RaisedTrans(t, u, next);
    RaisedKeepsCovered(edges, u, next, parent, rank, todo);
    ChildDone(edges, next, parent, rank, todo, child);
  }

  function ChildrenOf(edges: set<Dependency>, parent: Hash): set<Hash> {
    set e | e in edges && e.parent == parent :: e.child
  }

  method Visit(t: Tables, edges: set<Dependency>, lineage: Edges<Hash>, parent: Hash, rank: Rank,
      ghost start: Tables) returns (u: Tables)
    requires EndpointsCached(edges, t.cached) && Grown(start.cached, t.cached)
    requires Sound(Graph(edges, lineage), start, t)
    requires Caused(Graph(edges, lineage), start.cached, start.live, parent, rank)
    requires rank == Known(t.cached, t.live, parent)
    requires forall p :: p != parent ==> p in t.queue || Settled(edges, t.cached, t.live, p)
    requires LocalFollows(lineage, t.cached, start.live, t.live)
    ensures Raised(t, u) && Sound(Graph(edges, lineage), start, u) && Covered(edges, u)
    ensures TotalRoom(u) < TotalRoom(t) || u == t
    ensures LocalFollows(lineage, u.cached, start.live, u.live)
  {
    u := t;
    var todo := ChildrenOf(edges, parent);
    VisitStarts(t, edges, parent, rank);
    hide Sound, Raised, Caused, CoveredBut, Known, ChildResult, TotalRoom, Graph, Settled, LocalFollows;
    while todo != {}
      invariant todo <= ChildrenOf(edges, parent)
      invariant Raised(t, u) && Sound(Graph(edges, lineage), start, u) && CoveredBut(edges, u, parent, rank, todo)
      invariant TotalRoom(u) < TotalRoom(t) || u == t
      invariant LocalFollows(lineage, u.cached, start.live, u.live)
      decreases todo
    {
      var child :| child in todo;
      assert Dependency(child, parent) in edges && child in t.cached;
      GrownFrom(start, t, u);
      if RankOf(u.cached, child) < rank {
        var next := RaiseChild(u, lineage, child, rank);
        ChildStep(t, u, next, edges, lineage, parent, rank, todo, child, start);
        u := next;
      } else {
        ChildDone(edges, u, parent, rank, todo, child);
      }
      todo := todo - {child};
    }
    VisitEnds(u, edges, parent, rank);
  }

  lemma VisitStarts(t: Tables, edges: set<Dependency>, parent: Hash, rank: Rank)
    requires rank == Known(t.cached, t.live, parent)
    requires forall p :: p != parent ==> p in t.queue || Settled(edges, t.cached, t.live, p)
    ensures Raised(t, t) && CoveredBut(edges, t, parent, rank, ChildrenOf(edges, parent))
  {
  }

  lemma VisitEnds(t: Tables, edges: set<Dependency>, parent: Hash, rank: Rank)
    requires CoveredBut(edges, t, parent, rank, {})
    ensures Covered(edges, t)
  {
  }

  lemma GrownFrom(start: Tables, t: Tables, u: Tables)
    requires Grown(start.cached, t.cached) && Raised(t, u)
    ensures Grown(start.cached, u.cached) && u.cached.Keys == t.cached.Keys
  {
  }

  lemma ChildDone(edges: set<Dependency>, t: Tables, parent: Hash, rank: Rank, todo: set<Hash>, child: Hash)
    requires CoveredBut(edges, t, parent, rank, todo) && rank <= RankOf(t.cached, child)
    ensures CoveredBut(edges, t, parent, rank, todo - {child})
  {
  }

  lemma NothingRaisedYet(graph: Edges<Hash>, t: Tables)
    ensures Sound(graph, t, t)
  {
    forall h | h in t.cached ensures Caused(graph, t.cached, t.live, h, t.cached[h]) {
      ReachesSelf(graph, h);
    }
    forall h | h in t.live ensures Caused(graph, t.cached, t.live, h, t.live[h]) {
      ReachesSelf(graph, h);
    }
  }

  lemma KnownIsCaused(graph: Edges<Hash>, start: Tables, t: Tables, h: Hash)
    requires Sound(graph, start, t)
    ensures Caused(graph, start.cached, start.live, h, Known(t.cached, t.live, h))
  {
  }

  lemma QueuedAtStart(edges: set<Dependency>, cached: map<Hash, Rank>, live: map<Hash, Rank>)
    ensures Covered(edges, Tables(cached, live, set e | e in edges :: e.parent))
  {
    forall p | p !in (set e | e in edges :: e.parent) ensures Settled(edges, cached, live, p) {
    }
  }

  /**
   * The loop ends on every graph, cyclic ones included. Ranks only rise; every child ends at least as
   * strict as its parent's cached and live rank; and no rank appears that no ancestor had.
   */
  method RaiseToParents(edges: set<Dependency>, lineage: Edges<Hash>, cached: map<Hash, Rank>, live: map<Hash, Rank>)
      returns (cachedAfter: map<Hash, Rank>, liveAfter: map<Hash, Rank>)
    requires EndpointsCached(edges, cached)
    ensures Grown(cached, cachedAfter) && Grown(live, liveAfter)
    ensures forall e :: e in edges ==> RankOf(cachedAfter, e.parent) <= cachedAfter[e.child] && RankOf(liveAfter, e.parent) <= cachedAfter[e.child]
    ensures AllCaused(Graph(edges, lineage), cached, live, cachedAfter)
    ensures AllCaused(Graph(edges, lineage), cached, live, liveAfter)
    ensures LiveFollows(cached, cachedAfter, liveAfter)
    ensures LocalFollows(lineage, cachedAfter, live, liveAfter)
  {
    var t := Tables(cached, live, set e | e in edges :: e.parent);
    ghost var graph := Graph(edges, lineage);
    ghost var start := t;
    NothingRaisedYet(graph, t);
    QueuedAtStart(edges, cached, live);
    while t.queue != {}
      invariant Grown(cached, t.cached) && Grown(live, t.live)
      invariant Sound(graph, start, t) && Covered(edges, t)
      invariant LocalFollows(lineage, t.cached, live, t.live)
      decreases TotalRoom(t), |t.queue|
    {
      hide Sound, Known, TotalRoom, Graph, Settled, LocalFollows;
      var parent :| parent in t.queue;
      ghost var before := t;
      t := t.(queue := t.queue - {parent});
      Dequeued(graph, start, before, t);
      KnownIsCaused(graph, start, t, parent);
      t := Visit(t, edges, lineage, parent, Known(t.cached, t.live, parent), start);
    }
    SettledAll(edges, t);
    hide Sound, LocalFollows, Covered, TotalRoom, Known;
    SoundMeans(graph, start, t);
    cachedAfter, liveAfter := t.cached, t.live;
  }

  lemma Dequeued(graph: Edges<Hash>, start: Tables, before: Tables, t: Tables)
    requires t.cached == before.cached && t.live == before.live && Sound(graph, start, before)
    ensures Sound(graph, start, t) && TotalRoom(t) == TotalRoom(before)
  {
  }

  lemma SoundMeans(graph: Edges<Hash>, start: Tables, t: Tables)
    requires Sound(graph, start, t)
    ensures AllCaused(graph, start.cached, start.live, t.cached) && AllCaused(graph, start.cached, start.live, t.live)
    ensures LiveFollows(start.cached, t.cached, t.live)
  {
  }

  lemma SettledAll(edges: set<Dependency>, t: Tables)
    requires Covered(edges, t) && t.queue == {} && EndpointsCached(edges, t.cached)
    ensures forall e :: e in edges ==> RankOf(t.cached, e.parent) <= t.cached[e.child] && RankOf(t.live, e.parent) <= t.cached[e.child]
  {
    forall e | e in edges ensures RankOf(t.cached, e.parent) <= t.cached[e.child] && RankOf(t.live, e.parent) <= t.cached[e.child] {
      assert Settled(edges, t.cached, t.live, e.parent);
    }
  }

  // ---------------------------------------------------------------- preview: the exact maximum

  /** `rank` is the strictest initial rank over the identity and everything it depends on. */
  ghost predicate IsStrictest(edges: set<Dependency>, cached: map<Hash, Rank>, h: Hash, rank: Rank) {
    && (forall x :: x in cached && Reaches(Graph(edges, {}), x, h) ==> cached[x] <= rank)
    && (exists x :: x in cached && Reaches(Graph(edges, {}), x, h) && cached[x] == rank)
  }

  lemma {:induction false} RanksFollowWalk(edges: set<Dependency>, cached: map<Hash, Rank>, w: seq<Hash>)
    requires EndpointsCached(edges, cached) && forall e :: e in edges ==> cached[e.parent] <= cached[e.child]
    requires Walk(Graph(edges, {}), w) && w[0] in cached
    ensures w[|w| - 1] in cached && cached[w[0]] <= cached[w[|w| - 1]]
  {
    if |w| > 1 {
      var n := |w| - 1;
      assert Walk(Graph(edges, {}), w[..n]);
      RanksFollowWalk(edges, cached, w[..n]);
      assert (w[n - 1], w[n]) in Graph(edges, {});
      var e :| e in edges && (e.parent, e.child) == (w[n - 1], w[n]);
    }
  }

  lemma ClosedIsStrictest(edges: set<Dependency>, cached: map<Hash, Rank>, after: map<Hash, Rank>, h: Hash)
    requires EndpointsCached(edges, cached) && Grown(cached, after) && h in cached
    requires forall e :: e in edges ==> after[e.parent] <= after[e.child]
    requires AllCaused(Graph(edges, {}), cached, map[], after)
    ensures IsStrictest(edges, cached, h, after[h])
  {
    forall x | x in cached && Reaches(Graph(edges, {}), x, h) ensures cached[x] <= after[h] {
      var w :| Walk(Graph(edges, {}), w) && w[0] == x && w[|w| - 1] == h;
      RanksFollowWalk(edges, after, w);
    }
    ReachesSelf(Graph(edges, {}), h);
    assert Caused(Graph(edges, {}), cached, map[], h, after[h]);
    if after[h] == 0 {
      assert cached[h] == 0;
    }
  }

  /** Without a destination the result is exactly the strictest rank over each identity's ancestors. */
  method PreviewRaise(edges: set<Dependency>, cached: map<Hash, Rank>) returns (after: map<Hash, Rank>)
    requires EndpointsCached(edges, cached)
    ensures after.Keys == cached.Keys
    ensures forall h :: h in cached ==> IsStrictest(edges, cached, h, after[h])
  {
    var live: map<Hash, Rank>;
    after, live := RaiseToParents(edges, {}, cached, map[]);
    forall h | h in cached ensures IsStrictest(edges, cached, h, after[h]) {
      ClosedIsStrictest(edges, cached, after, h);
    }
  }
}
