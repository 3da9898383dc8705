/**
 * Which part of a captured source the receipts cover (src/fixture/replay-evaluate.ts, sourceStages):
 * the spans of the latest version are merged into separate ranges, and the source is complete when
 * they make up one range from its first byte to its last.
 */
module Coverage {
  import opened Options

  /** One observation receipt; columns of another type than expected read as absent. */
  datatype Receipt = Receipt(
    rawEvent: string, total: Option<int>, hash: Option<string>, portionStart: Option<int>, portionEnd: Option<int>)

  datatype Span = Span(start: int, end: int)

  const MAX_SOURCES := 50

  // ---------------------------------------------------------------- the spans of the latest version

  /** Receipts come newest first; the newest one that knows the total decides the version. */
  function Latest(rows: seq<Receipt>): Option<Receipt> {
    if rows == [] then None else if rows[0].total.Some? then Some(rows[0]) else Latest(rows[1..])
  }

  predicate Usable(row: Receipt, latest: Receipt) {
    && row.hash.Some? && row.hash.value != "" && row.hash == latest.hash && row.total == latest.total
    && row.portionStart.Some? && row.portionEnd.Some? && latest.total.Some?
    && 0 <= row.portionStart.value < row.portionEnd.value <= latest.total.value
  }

  function SpanOf(row: Receipt): Span
    requires row.portionStart.Some? && row.portionEnd.Some?
  {
    Span(row.portionStart.value, row.portionEnd.value)
  }

  function RowsOf(receipts: seq<Receipt>, id: string): seq<Receipt> {
    if receipts == [] then []
    else (if receipts[0].rawEvent == id then [receipts[0]] else []) + RowsOf(receipts[1..], id)
  }

  function SpansOf(rows: seq<Receipt>, latest: Receipt): seq<Span> {
    if rows == [] then []
    else (if Usable(rows[0], latest) then [SpanOf(rows[0])] else []) + SpansOf(rows[1..], latest)
  }

  predicate Inside(s: Span, x: int) {
    s.start <= x < s.end
  }

  ghost predicate Covered(spans: seq<Span>, x: int) {
    exists i :: 0 <= i < |spans| && Inside(spans[i], x)
  }

  /** Some usable receipt of the source covers this offset of its latest version. */
  ghost predicate Received(receipts: seq<Receipt>, id: string, latest: Receipt, x: int) {
    exists r :: r in receipts && r.rawEvent == id && Usable(r, latest) && Inside(SpanOf(r), x)
  }

  lemma ReceivedByRest(receipts: seq<Receipt>, id: string, latest: Receipt, x: int)
    requires receipts != []
    ensures Received(receipts, id, latest, x) <==>
              (receipts[0].rawEvent == id && Usable(receipts[0], latest) && Inside(SpanOf(receipts[0]), x))
              || Received(receipts[1..], id, latest, x)
  {
    hide Usable;
    assert receipts == [receipts[0]] + receipts[1..];
  }

  lemma {:induction false} SpansAreReceived(receipts: seq<Receipt>, id: string, latest: Receipt, x: int)
    ensures Covered(SpansOf(RowsOf(receipts, id), latest), x) <==> Received(receipts, id, latest, x)
  {
    if receipts != [] {
      SpansAreReceived(receipts[1..], id, latest, x);
      var r := receipts[0];
      var tail := SpansOf(RowsOf(receipts[1..], id), latest);
      ReceivedByRest(receipts, id, latest, x);
      assert RowsOf(receipts, id) == if r.rawEvent == id then [r] + RowsOf(receipts[1..],
          id) else RowsOf(receipts[1..], id);
      assert r.rawEvent == id ==> RowsOf(receipts, id)[1..] == RowsOf(receipts[1..], id);
      if r.rawEvent == id && Usable(r, latest) {
        assert SpansOf(RowsOf(receipts, id), latest) == [SpanOf(r)] + tail;
        CoveredBy([SpanOf(r)], tail, x);
        OneSpan(SpanOf(r), x);
      } else {
        assert SpansOf(RowsOf(receipts, id), latest) == [] + tail == tail;
      }
    }
  }

  lemma CoveredBy(a: seq<Span>, b: seq<Span>, x: int)
    ensures Covered(a + b, x) <==> Covered(a, x) || Covered(b, x)
  {
    if i :| 0 <= i < |a| && Inside(a[i], x) {
      assert (a + b)[i] == a[i];
    }
    if i :| 0 <= i < |b| && Inside(b[i], x) {
      assert (a + b)[|a| + i] == b[i];
    }
    if i :| 0 <= i < |a + b| && Inside((a + b)[i], x) {
      assert (a + b)[i] == if i < |a| then a[i] else b[i - |a|];
    }
  }

  ghost predicate Within(spans: seq<Span>, total: int) {
    forall i :: 0 <= i < |spans| ==> 0 <= spans[i].start < spans[i].end <= total
  }

  lemma {:induction false} SpansWithin(rows: seq<Receipt>, latest: Receipt)
    requires latest.total.Some?
    ensures Within(SpansOf(rows, latest), latest.total.value)
  {
    if rows != [] {
      SpansWithin(rows[1..], latest);
    }
  }

  // ---------------------------------------------------------------- sorting by start

  ghost predicate SortedByStart(spans: seq<Span>) {
    forall i, j :: 0 <= i < j < |spans| ==> spans[i].start <= spans[j].start
  }

  function Insert(s: Span, sorted: seq<Span>): seq<Span> {
    if sorted == [] || s.start <= sorted[0].start then [s] + sorted else [sorted[0]] + Insert(s, sorted[1..])
  }

  function SortSpans(spans: seq<Span>): seq<Span> {
    if spans == [] then [] else Insert(spans[0], SortSpans(spans[1..]))
  }

  lemma {:induction false} InsertSame(s: Span, sorted: seq<Span>)
    ensures multiset(Insert(s, sorted)) == multiset(sorted) + multiset{s}
  {
    if sorted != [] && !(s.start <= sorted[0].start) {
      InsertSame(s, sorted[1..]);
      assert sorted == [sorted[0]] + sorted[1..];
    }
  }

  lemma {:induction false} InsertSorts(s: Span, sorted: seq<Span>)
    requires SortedByStart(sorted)
    ensures SortedByStart(Insert(s, sorted))
  {
    if sorted != [] && !(s.start <= sorted[0].start) {
      var first, rest := sorted[0], sorted[1..];
      InsertSorts(s, rest);
      InsertSame(s, rest);
      FirstIsLeast(s, first, rest, Insert(s, rest));
      hide Insert;
      PutFirst(first, Insert(s, rest));
    }
  }

  lemma FirstIsLeast(s: Span, first: Span, rest: seq<Span>, tail: seq<Span>)
    requires first.start <= s.start && multiset(tail) == multiset(rest) + multiset{s}
    requires forall j :: 0 <= j < |rest| ==> first.start <= rest[j].start
    ensures forall j :: 0 <= j < |tail| ==> first.start <= tail[j].start
  {
    forall j | 0 <= j < |tail| ensures first.start <= tail[j].start {
      assert tail[j] in multiset(tail);
      assert tail[j] == s || tail[j] in rest;
    }
  }

  lemma PutFirst(first: Span, tail: seq<Span>)
    requires SortedByStart(tail) && forall j :: 0 <= j < |tail| ==> first.start <= tail[j].start
    ensures SortedByStart([first] + tail)
  {
  }

  lemma {:induction false} SortKeeps(spans: seq<Span>)
    ensures SortedByStart(SortSpans(spans)) && multiset(SortSpans(spans)) == multiset(spans)
  {
    if spans != [] {
      SortKeeps(spans[1..]);
      InsertSorts(spans[0], SortSpans(spans[1..]));
      InsertSame(spans[0], SortSpans(spans[1..]));
      assert spans == [spans[0]] + spans[1..];
    }
  }

  lemma SameSpansCoverAlike(a: seq<Span>, b: seq<Span>, x: int)
    requires multiset(a) == multiset(b)
    ensures Covered(a, x) ==> Covered(b, x)
  {
    if i :| 0 <= i < |a| && Inside(a[i], x) {
      assert a[i] in multiset(a);
      assert a[i] in b;
    }
  }

  // ---------------------------------------------------------------- merging

  /** Ranges in order with a gap between any two. */
  ghost predicate Separated(ranges: seq<Span>) {
    forall i, j :: 0 <= i < j < |ranges| ==> ranges[i].end < ranges[j].start
  }

  function Widened(last: Span, span: Span): Span {
    last.(end := if last.end < span.end then span.end else last.end)
  }

  /** One more span in order: the ranges stay separate, and cover its offsets as well. */
  ghost predicate OneMore(before: seq<Span>, span: Span, after: seq<Span>, total: int) {
    && Separated(after) && Within(after, total) && after != [] && after[|after| - 1].start <= span.start
    && forall x :: Covered(after, x) <==> Covered(before, x) || Inside(span, x)
  }

  lemma WidenLast(before: seq<Span>, span: Span, total: int)
    requires Separated(before) && Within(before, total) && Within([span], total)
    requires before != [] && before[|before| - 1].start <= span.start <= before[|before| - 1].end
    ensures OneMore(before, span, before[|before| - 1 := Widened(before[|before| - 1], span)], total)
  {
    var after := before[|before| - 1 := Widened(before[|before| - 1], span)];
    assert [span][0] == span;
    assert Separated(after) && Within(after, total);
    hide Separated, Within;
    forall x ensures Covered(after, x) <==> Covered(before, x) || Inside(span, x) {
      LastGrows(before, span, after, x);
    }
  }

  lemma AppendSpan(before: seq<Span>, span: Span, total: int)
    requires Separated(before) && Within(before, total) && Within([span], total)
    requires before != [] ==> before[|before| - 1].end < span.start
    ensures OneMore(before, span, before + [span], total)
  {
    assert [span][0] == span;
    assert Separated(before + [span]) && Within(before + [span], total);
    hide Separated, Within;
    forall x ensures Covered(before + [span], x) <==> Covered(before, x) || Inside(span, x) {
      CoveredBy(before, [span], x);
      OneSpan(span, x);
    }
  }

  lemma OneMoreSpan(spans: seq<Span>, i: nat, total: int)
    requires i < |spans| && Within(spans, total)
    ensures Within([spans[i]], total)
    ensures forall x :: Covered(spans[..i + 1], x) <==> Covered(spans[..i], x) || Inside(spans[i], x)
  {
    assert spans[..i + 1] == spans[..i] + [spans[i]];
    forall x ensures Covered(spans[..i + 1], x) <==> Covered(spans[..i], x) || Inside(spans[i], x) {
      CoveredBy(spans[..i], [spans[i]], x);
      OneSpan(spans[i], x);
    }
  }

  /** The last range grows while the next span touches it; otherwise a new range starts. */
  method MergeSpans(spans: seq<Span>, total: int) returns (merged: seq<Span>)
    requires SortedByStart(spans) && Within(spans, total)
    ensures Separated(merged) && Within(merged, total)
    ensures forall x :: Covered(merged, x) <==> Covered(spans, x)
  {
    merged := [];
    for i := 0 to |spans|
      invariant Separated(merged) && Within(merged, total)
      invariant merged == [] <==> i == 0
      invariant i > 0 ==> merged[|merged| - 1].start <= spans[i - 1].start
      invariant forall x :: Covered(merged, x) <==> Covered(spans[..i], x)
    {
      hide Separated, Within, Covered;
      var span := spans[i];
      OneMoreSpan(spans, i, total);
      if merged != [] && span.start <= merged[|merged| - 1].end {
        WidenLast(merged, span, total);
        merged := merged[|merged| - 1 := Widened(merged[|merged| - 1], span)];
      } else {
        AppendSpan(merged, span, total);
        merged := merged + [span];
      }
    }
    assert spans[..|spans|] == spans;
  }

  lemma OneSpan(s: Span, x: int)
    ensures Covered([s], x) <==> Inside(s, x)
  {
    if Inside(s, x) {
      assert [s][0] == s;
    }
  }

  lemma LastGrows(before: seq<Span>, span: Span, after: seq<Span>, x: int)
    requires before != [] && before[|before| - 1].start <= span.start <= before[|before| - 1].end
    requires after == before[|before| - 1 := Widened(before[|before| - 1], span)]
    ensures Covered(after, x) <==> Covered(before, x) || Inside(span, x)
  {
    var n := |before| - 1;
    assert before == before[..n] + [before[n]] && after == before[..n] + [after[n]];
    CoveredBy(before[..n], [before[n]], x);
    CoveredBy(before[..n], [after[n]], x);
    OneSpan(before[n], x);
    OneSpan(after[n], x);
  }

  lemma GapAfterFirst(ranges: seq<Span>)
    requires Separated(ranges) && ranges != []
    ensures !Covered(ranges, ranges[0].end)
  {
    forall i | 0 <= i < |ranges| ensures !Inside(ranges[i], ranges[0].end) {
      assert i == 0 || ranges[0].end < ranges[i].start;
    }
  }

  lemma StartsLater(ranges: seq<Span>, i: nat)
    requires Separated(ranges)
    ensures 0 < i < |ranges| ==> ranges[0].end < ranges[i].start
  {
  }

  lemma FullIsOneRange(ranges: seq<Span>, total: int)
    requires Separated(ranges) && Within(ranges, total) && total > 0
    requires forall x :: 0 <= x < total ==> Covered(ranges, x)
    ensures ranges == [Span(0, total)]
  {
    assert Covered(ranges, 0);
    var first :| 0 <= first < |ranges| && Inside(ranges[first], 0);
    StartsLater(ranges, first);
    GapAfterFirst(ranges);
    assert ranges[0] == Span(0, total);
    StartsLater(ranges, 1);
  }

  /** Separate ranges within the total cover everything exactly when they are the one range from 0 to it. */
  lemma OneRangeIffFull(ranges: seq<Span>, total: int)
    requires Separated(ranges) && Within(ranges, total) && total > 0
    ensures ranges == [Span(0, total)] <==> forall x :: 0 <= x < total ==> Covered(ranges, x)
  {
    if ranges == [Span(0, total)] {
      forall x | 0 <= x < total ensures Covered(ranges, x) {
        OneSpan(Span(0, total), x);
      }
    } else if forall x :: 0 <= x < total ==> Covered(ranges, x) {
      FullIsOneRange(ranges, total);
    }
  }

  // ---------------------------------------------------------------- one source

  datatype SourceRange = SourceRange(total: Option<int>, ranges: seq<Span>)

  predicate IsFull(r: SourceRange) {
    r.total.Some? && r.total.value > 0 && r.ranges == [Span(0, r.total.value)]
  }

  ghost predicate Complete(receipts: seq<Receipt>, id: string) {
    var latest := Latest(RowsOf(receipts, id));
    latest.Some? && latest.value.total.Some? && latest.value.total.value > 0
    && forall x :: 0 <= x < latest.value.total.value ==> Received(receipts, id, latest.value, x)
  }

  /** Some offset of the latest version was received. */
  ghost predicate Started(receipts: seq<Receipt>, id: string) {
    var latest := Latest(RowsOf(receipts, id));
    latest.Some? && exists x :: Received(receipts, id, latest.value, x)
  }

  lemma RangesCover(ranges: seq<Span>, total: int)
    requires Within(ranges, total)
    ensures ranges != [] <==> exists x :: Covered(ranges, x)
  {
    if ranges != [] {
      assert Inside(ranges[0], ranges[0].start);
      assert Covered(ranges, ranges[0].start);
    }
  }

  lemma {:induction false} LatestHasTotal(rows: seq<Receipt>)
    requires Latest(rows).Some?
    ensures Latest(rows).value.total.Some?
  {
    if rows[0].total.None? {
      LatestHasTotal(rows[1..]);
    }
  }

  lemma {:induction false} SortedWithin(spans: seq<Span>, total: int)
    requires Within(spans, total)
    ensures Within(SortSpans(spans), total)
  {
    SortKeeps(spans);
    forall i | 0 <= i < |SortSpans(spans)| ensures 0 <= SortSpans(spans)[i].start < SortSpans(spans)[i].end <= total {
      assert SortSpans(spans)[i] in multiset(SortSpans(spans));
      assert SortSpans(spans)[i] in spans;
    }
  }

  /** Full exactly when every offset of the latest version was received; ranges are what was received. */
  method SourceCoverage(receipts: seq<Receipt>, id: string) returns (r: SourceRange)
    ensures Separated(r.ranges)
    ensures var latest := Latest(RowsOf(receipts, id));
            r.total == (if latest.Some? then latest.value.total else None)
            && forall x :: Covered(r.ranges, x) <==> latest.Some? && Received(receipts, id, latest.value, x)
    ensures IsFull(r) <==> Complete(receipts, id)
    ensures r.ranges != [] <==> Started(receipts, id)
  {
    var rows := RowsOf(receipts, id);
    var latest := Latest(rows);
    if latest.None? {
      return SourceRange(None, []);
    }
    LatestHasTotal(rows);
    var spans := SpansOf(rows, latest.value);
    SpansWithin(rows, latest.value);
    SortKeeps(spans);
    var total := latest.value.total.value;
    SortedWithin(spans, total);
    var merged := MergeSpans(SortSpans(spans), total);
    forall x ensures Covered(merged, x) <==> Received(receipts, id, latest.value, x) {
      SameSpansCoverAlike(spans, SortSpans(spans), x);
      SameSpansCoverAlike(SortSpans(spans), spans, x);
      SpansAreReceived(receipts, id, latest.value, x);
    }
    RangesCover(merged, total);
    hide Received, Covered;
    if total > 0 {
      OneRangeIffFull(merged, total);
    }
    r := SourceRange(latest.value.total, merged);
  }

  // ---------------------------------------------------------------- the same, said of the receipts

  /** The newest receipt of the source that knows its length: its version is the one that counts. */
  ghost predicate Decides(receipts: seq<Receipt>, id: string, n: int) {
    && 0 <= n < |receipts| && receipts[n].rawEvent == id && receipts[n].total != None
    && forall k :: 0 <= k < n && receipts[k].rawEvent == id ==> receipts[k].total == None
  }

  /** The receipt is of the same version, has a hash, and its portion lies in the source and holds the offset. */
  ghost predicate Holds(row: Receipt, id: string, version: Receipt, x: int) {
    && row.rawEvent == id && row.hash == version.hash && row.hash != None && row.hash != Some("")
    && row.total == version.total && version.total != None && row.portionStart != None && row.portionEnd != None
    && 0 <= row.portionStart.value <= x < row.portionEnd.value <= version.total.value
  }

  ghost predicate HeldAt(receipts: seq<Receipt>, id: string, version: Receipt, x: int) {
    exists k :: 0 <= k < |receipts| && Holds(receipts[k], id, version, x)
  }

  lemma ReceivedExactly(receipts: seq<Receipt>, id: string, version: Receipt, x: int)
    ensures Received(receipts, id, version, x) <==> HeldAt(receipts, id, version, x)
  {
    if r :| r in receipts && r.rawEvent == id && Usable(r, version) && Inside(SpanOf(r), x) {
      var k :| 0 <= k < |receipts| && receipts[k] == r;
      assert Holds(receipts[k], id, version, x);
    }
    if k :| 0 <= k < |receipts| && Holds(receipts[k], id, version, x) {
      assert receipts[k] in receipts && Usable(receipts[k], version) && Inside(SpanOf(receipts[k]), x);
    }
  }

  lemma {:induction false} LatestDecides(receipts: seq<Receipt>, id: string) returns (n: int)
    ensures if Latest(RowsOf(receipts, id)).Some? then Decides(receipts, id, n) && Latest(RowsOf(receipts, id)).value == receipts[n]
            else forall k :: !Decides(receipts, id, k)
  {
    n := 0;
    if receipts != [] {
      var r, rest := receipts[0], receipts[1..];
      var more := LatestDecides(rest, id);
      assert RowsOf(receipts, id) == if r.rawEvent == id then [r] + RowsOf(rest, id) else RowsOf(rest, id);
      assert r.rawEvent == id ==> RowsOf(receipts, id)[1..] == RowsOf(rest, id);
      n := if r.rawEvent == id && r.total.Some? then 0 else more + 1;
      DecidesRest(receipts, id);
      hide RowsOf;
    }
  }

  lemma DecidesRest(receipts: seq<Receipt>, id: string)
    requires receipts != []
    ensures forall k :: Decides(receipts, id, k) <==>
              if receipts[0].rawEvent == id && receipts[0].total != None then k == 0 else Decides(receipts[1..], id, k - 1)
  {
    forall k ensures Decides(receipts, id, k) <==>
        if receipts[0].rawEvent == id && receipts[0].total != None then k == 0 else Decides(receipts[1..], id, k - 1)
    {
      assert forall j :: 0 <= j < |receipts| - 1 ==> receipts[1..][j] == receipts[j + 1];
      if Decides(receipts[1..], id, k - 1) && !(receipts[0].rawEvent == id && receipts[0].total != None) {
        forall j | 0 <= j < k && receipts[j].rawEvent == id ensures receipts[j].total == None {
          assert j > 0 ==> receipts[j] == receipts[1..][j - 1];
        }
      }
    }
  }

  lemma OneDecides(receipts: seq<Receipt>, id: string, m: int, n: int)
    requires Decides(receipts, id, m) && Decides(receipts, id, n)
    ensures m == n
  {
  }

  /**
   * A source is complete exactly if receipts of its newest known version hold every offset from 0 to
   * its length, and something of it was received exactly if they hold some offset.
   */
  lemma CompleteExactly(receipts: seq<Receipt>, id: string)
    ensures Complete(receipts, id) <==>
              exists n :: Decides(receipts, id, n) && receipts[n].total.value > 0
                && forall x :: 0 <= x < receipts[n].total.value ==> HeldAt(receipts, id, receipts[n], x)
    ensures Started(receipts, id) <==> exists n, x :: Decides(receipts, id, n) && HeldAt(receipts, id, receipts[n], x)
  {
    var m := LatestDecides(receipts, id);
    if Latest(RowsOf(receipts, id)).Some? {
      forall x ensures Received(receipts, id, receipts[m], x) <==> HeldAt(receipts, id, receipts[m], x) {
        ReceivedExactly(receipts, id, receipts[m], x);
      }
      forall n | Decides(receipts, id, n) ensures n == m {
        OneDecides(receipts, id, m, n);
      }
      assert receipts[m].total != None;
    }
    hide Latest, RowsOf, Received, Decides, HeldAt;
  }

  datatype CoverageStatus = Pass | Partial | Pending

  /**
   * The stage passes exactly when one of the first fifty sources was received completely, and is
   * partial exactly when none was but something of one of them was received.
   */
  method CoverageStage(receipts: seq<Receipt>, ids: seq<string>) returns (status: CoverageStatus)
    ensures status.Pass? <==> exists i :: 0 <= i < |ids| && i < MAX_SOURCES && Complete(receipts, ids[i])
    ensures status.Partial? <==> !status.Pass? && exists i :: 0 <= i < |ids| && i < MAX_SOURCES && Started(receipts, ids[i])
  {
    var considered := if |ids| > MAX_SOURCES then MAX_SOURCES else |ids|;
    var full, partial := false, false;
    hide Complete, Started;
    for i := 0 to considered
      invariant full <==> exists k :: 0 <= k < i && Complete(receipts, ids[k])
      invariant partial <==> exists k :: 0 <= k < i && Started(receipts, ids[k])
    {
      var r := SourceCoverage(receipts, ids[i]);
      full := full || IsFull(r);
      partial := partial || r.ranges != [];
    }
    status := if full then Pass else if partial then Partial else Pending;
  }
}
