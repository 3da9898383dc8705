/**
 * What canonical texts say, without the functions that build them: which values share a text, the
 * order of an object's members, and which characters of a string are escaped.
 */
module CanonicalValues {
  import opened Options
  import opened CanonicalJson

  // ---------------------------------------------------------------- values with one text

  /** The same value up to member order; an undefined member is no member, and any other undefined value is null. */
  ghost predicate Same(v: Json, w: Json)
    decreases v
  {
    match (v, w)
    case (Bool(a), Bool(b)) => a == b
    case (Num(a), Num(b)) => a == b
    case (Str(a), Str(b)) => a == b
    case (Arr(a), Arr(b)) => |a| == |b| && forall i :: 0 <= i < |a| ==> Same(a[i], b[i])
    case (Obj(a), Obj(b)) =>
      && (forall i :: 0 <= i < |a| && a[i].value != Undefined ==> exists j :: 0 <= j < |b| && SameMember(a[i], b[j]))
      && (forall j :: 0 <= j < |b| && b[j].value != Undefined ==> exists i :: 0 <= i < |a| && SameMember(a[i], b[j]))
    case _ => (v == Null || v == Undefined) && (w == Null || w == Undefined)
  }

  ghost predicate SameMember(m: Member, n: Member)
    decreases m
  {
    m.value != Undefined && n.value != Undefined && m.key == n.key && Same(m.value, n.value)
  }

  lemma SortsMatch(a: seq<Entry<Json>>, b: seq<Entry<Json>>)
    requires DistinctKeys(a) && DistinctKeys(b)
    ensures Sort(a) == Sort(b) <==> SameEntries(a, b)
  {
    SortSorts(a);
    SortSorts(b);
    hide Sort, DistinctKeys, Sorted;
    assert forall x :: x in a <==> x in multiset(a);
    assert forall x :: x in b <==> x in multiset(b);
    assert forall x :: x in Sort(a) <==> x in multiset(Sort(a));
    assert forall x :: x in Sort(b) <==> x in multiset(Sort(b));
    if SameEntries(a, b) {
      SortedIsUnique(Sort(a), Sort(b));
    }
  }

  lemma AsMembersInjective(a: seq<Entry<Json>>, b: seq<Entry<Json>>)
    ensures AsMembers(a) == AsMembers(b) <==> a == b
  {
    if AsMembers(a) == AsMembers(b) {
      forall i | 0 <= i < |a| ensures i < |b| && a[i] == b[i] {
        assert AsMembers(a)[i] == AsMembers(b)[i];
      }
    }
  }

  ghost predicate Matches(m: Member, n: Member) {
    m.value != Undefined && n.value != Undefined && m.key == n.key && Norm(m.value) == Norm(n.value)
  }

  /** Every defined member of `a` has a member of `b` with its key and normal value. */
  ghost predicate Covers(a: seq<Member>, b: seq<Member>) {
    forall i :: 0 <= i < |a| && a[i].value != Undefined ==> exists j :: 0 <= j < |b| && Matches(a[i], b[j])
  }

  lemma EntryHeld(members: seq<Member>, i: nat)
    requires i < |members| && members[i].value != Undefined
    ensures EntryOf(members[i]) in NormMembers(members)
  {
    NormMembersOf(members, EntryOf(members[i]));
  }

  lemma EntryFrom(members: seq<Member>, e: Entry<Json>) returns (i: nat)
    requires e in NormMembers(members)
    ensures i < |members| && members[i].value != Undefined && EntryOf(members[i]) == e
  {
    NormMembersOf(members, e);
    var m :| m in members && !m.value.Undefined? && e == EntryOf(m);
    i :| 0 <= i < |members| && members[i] == m;
  }

  ghost predicate Within(a: seq<Entry<Json>>, b: seq<Entry<Json>>) {
    forall e :: e in a ==> e in b
  }

  lemma CoversEntries(a: seq<Member>, b: seq<Member>)
    requires Covers(a, b)
    ensures Within(NormMembers(a), NormMembers(b))
  {
    hide NormMembers, Norm;
    forall e | e in NormMembers(a) ensures e in NormMembers(b) {
      var i := EntryFrom(a, e);
      var j :| 0 <= j < |b| && Matches(a[i], b[j]);
      EntryHeld(b, j);
    }
  }

  lemma EntriesCover(a: seq<Member>, b: seq<Member>)
    requires Within(NormMembers(a), NormMembers(b))
    ensures Covers(a, b)
  {
    hide NormMembers, Norm;
    forall i | 0 <= i < |a| && a[i].value != Undefined ensures exists j :: 0 <= j < |b| && Matches(a[i], b[j]) {
      EntryHeld(a, i);
      var j := EntryFrom(b, EntryOf(a[i]));
      assert Matches(a[i], b[j]);
    }
  }

  lemma CoversExactly(a: seq<Member>, b: seq<Member>)
    ensures Covers(a, b) <==> Within(NormMembers(a), NormMembers(b))
  {
    hide NormMembers, Covers, Within;
    if Covers(a, b) {
      CoversEntries(a, b);
    } else if Within(NormMembers(a), NormMembers(b)) {
      EntriesCover(a, b);
    }
  }

  lemma ObjectsMatch(a: seq<Member>, b: seq<Member>)
    requires Proper(Obj(a)) && Proper(Obj(b))
    ensures Norm(Obj(a)) == Norm(Obj(b)) <==> Covers(a, b) && Covers(b, a)
  {
    NormMembersDistinct(a);
    NormMembersDistinct(b);
    CoversExactly(a, b);
    CoversExactly(b, a);
    SortsMatch(NormMembers(a), NormMembers(b));
    AsMembersInjective(Sort(NormMembers(a)), Sort(NormMembers(b)));
    NormOfObject(a);
    NormOfObject(b);
    hide Norm, NormMembers, Sort, AsMembers, Covers, DistinctKeys, Proper;
  }

  lemma SameObjects(a: seq<Member>, b: seq<Member>)
    requires forall i, j :: 0 <= i < |a| && 0 <= j < |b| ==> (Matches(a[i], b[j]) <==> SameMember(a[i], b[j]))
    ensures Same(Obj(a), Obj(b)) <==> Covers(a, b) && Covers(b, a)
  {
    SameObjectsAre(a, b);
    MatchesBack(a, b);
    hide Same, Matches, SameMember;
  }

  lemma MatchesBack(a: seq<Member>, b: seq<Member>)
    ensures forall i, j :: 0 <= i < |a| && 0 <= j < |b| ==> (Matches(b[j], a[i]) <==> Matches(a[i], b[j]))
  {
  }

  lemma SameObjectsAre(a: seq<Member>, b: seq<Member>)
    ensures Same(Obj(a), Obj(b)) <==>
              && (forall i :: 0 <= i < |a| && a[i].value != Undefined ==> exists j :: 0 <= j < |b| && SameMember(a[i], b[j]))
              && (forall j :: 0 <= j < |b| && b[j].value != Undefined ==> exists i :: 0 <= i < |a| && SameMember(a[i], b[j]))
  {
    hide SameMember;
  }

  lemma SameArrays(a: seq<Json>, b: seq<Json>)
    requires forall i :: 0 <= i < |a| && i < |b| ==> (Norm(a[i]) == Norm(b[i]) <==> Same(a[i], b[i]))
    ensures Same(Arr(a), Arr(b)) <==> Norm(Arr(a)) == Norm(Arr(b))
  {
    ArraysMatch(a, b);
    hide Norm;
  }

  lemma OthersMatch(v: Json, w: Json)
    requires !(v.Arr? && w.Arr?) && !(v.Obj? && w.Obj?)
    ensures Norm(v) == Norm(w) <==> Same(v, w)
  {
    hide NormItems, NormMembers, Sort;
  }

  lemma {:induction false} NormsMatch(v: Json, w: Json)
    requires Proper(v) && Proper(w)
    ensures Norm(v) == Norm(w) <==> Same(v, w)
    decreases v
  {
    hide Norm, Same;
    if v.Arr? && w.Arr? {
      forall i | 0 <= i < |v.items| && i < |w.items| ensures Norm(v.items[i]) == Norm(w.items[i]) <==> Same(v.items[i], w.items[i]) {
        NormsMatch(v.items[i], w.items[i]);
      }
      SameArrays(v.items, w.items);
    } else if v.Obj? && w.Obj? {
      var a, b := v.members, w.members;
      forall i, j | 0 <= i < |a| && 0 <= j < |b| ensures Matches(a[i], b[j]) <==> SameMember(a[i], b[j]) {
        NormsMatch(a[i].value, b[j].value);
      }
      ObjectsMatch(a, b);
      SameObjects(a, b);
    } else {
      OthersMatch(v, w);
    }
  }

  lemma ArraysMatch(a: seq<Json>, b: seq<Json>)
    ensures Norm(Arr(a)) == Norm(Arr(b)) <==> |a| == |b| && forall i :: 0 <= i < |a| ==> Norm(a[i]) == Norm(b[i])
  {
    var x, y := NormItems(a), NormItems(b);
    assert Norm(Arr(a)) == Arr(x) && Norm(Arr(b)) == Arr(y);
    hide Norm, NormItems;
  }

  /** Two values have one canonical text, and so one content hash, exactly if they are the same value. */
  lemma OneTextExactly(v: Json, w: Json)
    requires Proper(v) && Proper(w)
    ensures Canonical(v) == Canonical(w) <==> Same(v, w)
  {
    SameTextIffSameValue(v, w);
    NormsMatch(v, w);
    hide Canonical, Norm, Same, Proper;
  }

  // ---------------------------------------------------------------- member order

  /** A proper prefix, or smaller in the first code unit in which they differ. */
  ghost predicate Earlier(a: Text, b: Text) {
    || (|a| < |b| && a == b[..|a|])
    || exists k :: 0 <= k < |a| && k < |b| && a[..k] == b[..k] && a[k] < b[k]
  }

  lemma {:induction false} BeforeExactly(a: Text, b: Text)
    ensures Before(a, b) <==> Earlier(a, b)
  {
    if a != [] && b != [] {
      BeforeExactly(a[1..], b[1..]);
      if a[0] < b[0] {
        assert a[..0] == b[..0];
      }
      if a[0] == b[0] {
        EarlierTail(a, b);
      } else if Earlier(a, b) {
        EarlierHead(a, b);
      }
    }
  }

  lemma EarlierHead(a: Text, b: Text)
    requires a != [] && b != [] && Earlier(a, b)
    ensures a[0] <= b[0]
  {
    if |a| < |b| && a == b[..|a|] {
      assert b[..|a|][0] == b[0];
    } else {
      var k :| 0 <= k < |a| && k < |b| && a[..k] == b[..k] && a[k] < b[k];
      if k > 0 {
        assert a[..k][0] == a[0] && b[..k][0] == b[0];
      }
    }
  }

  lemma EarlierTail(a: Text, b: Text)
    requires a != [] && b != [] && a[0] == b[0]
    ensures Earlier(a, b) <==> Earlier(a[1..], b[1..])
  {
    assert a == [a[0]] + a[1..] && b == [a[0]] + b[1..];
    if Earlier(a[1..], b[1..]) {
      EarlierAfter(a[0], a[1..], b[1..]);
    }
    if Earlier(a, b) {
      EarlierWithout(a[0], a[1..], b[1..]);
    }
    hide Earlier;
  }

  lemma EarlierAfter(u: Unit, x: Text, y: Text)
    requires Earlier(x, y)
    ensures Earlier([u] + x, [u] + y)
  {
    var a, b := [u] + x, [u] + y;
    if |x| < |y| && x == y[..|x|] {
      assert b[..|a|] == [u] + y[..|x|];
    } else {
      var k :| 0 <= k < |x| && k < |y| && x[..k] == y[..k] && x[k] < y[k];
      assert a[..k + 1] == [u] + x[..k] && b[..k + 1] == [u] + y[..k];
      assert a[k + 1] < b[k + 1];
    }
  }

  lemma EarlierWithout(u: Unit, x: Text, y: Text)
    requires Earlier([u] + x, [u] + y)
    ensures Earlier(x, y)
  {
    var a, b := [u] + x, [u] + y;
    assert x == a[1..] && y == b[1..];
    if |a| < |b| && a == b[..|a|] {
      DropFirst(b, |a|);
    } else {
      var k :| 0 <= k < |a| && k < |b| && a[..k] == b[..k] && a[k] < b[k];
      assert k > 0;
      DropFirst(a, k);
      DropFirst(b, k);
      assert x[k - 1] < y[k - 1];
    }
  }

  lemma DropFirst(a: Text, k: nat)
    requires 0 < k <= |a|
    ensures a[1..][..k - 1] == a[..k][1..]
  {
  }

  /** An object's text lists exactly its defined members, each once, in ascending order of their keys. */
  lemma MembersInOrder(members: seq<Member>) returns (listed: seq<Entry<Text>>)
    requires forall i, j :: 0 <= i < j < |members| ==> members[i].key != members[j].key
    ensures Canonical(Obj(members)) == [OPEN_OBJECT] + Join(MemberTexts(listed)) + [CLOSE_OBJECT]
    ensures forall i, j :: 0 <= i < j < |listed| ==> Earlier(listed[i].key, listed[j].key)
    ensures forall e :: e in listed <==> exists m :: m in members && m.value != Undefined && e == Entry(m.key, Canonical(m.value))
  {
    var entries := CanonicalMembers(members);
    listed := Sort(entries);
    ListedDistinct(members);
    SortSorts(entries);
    SortedIsEarlier(listed);
    assert Canonical(Obj(members)) == [OPEN_OBJECT] + Join(MemberTexts(listed)) + [CLOSE_OBJECT];
    hide Canonical, CanonicalMembers, Sort, Sorted, DistinctKeys, Earlier;
    forall e ensures e in listed <==> exists m :: m in members && m.value != Undefined && e == Entry(m.key, Canonical(m.value)) {
      assert e in listed <==> e in multiset(listed);
      assert e in entries <==> e in multiset(entries);
      ListedMembers(members, e);
    }
  }

  lemma SortedIsEarlier(listed: seq<Entry<Text>>)
    requires Sorted(listed)
    ensures forall i, j :: 0 <= i < j < |listed| ==> Earlier(listed[i].key, listed[j].key)
  {
    forall i, j | 0 <= i < j < |listed| ensures Earlier(listed[i].key, listed[j].key) {
      BeforeExactly(listed[i].key, listed[j].key);
    }
  }

  lemma {:induction false} ListedMembers(members: seq<Member>, e: Entry<Text>)
    ensures e in CanonicalMembers(members) <==>
              exists m :: m in members && m.value != Undefined && e == Entry(m.key, Canonical(m.value))
  {
    hide Canonical;
    if members != [] {
      ListedMembers(members[1..], e);
      assert members == [members[0]] + members[1..];
    }
  }

  lemma {:induction false} ListedDistinct(members: seq<Member>)
    requires forall i, j :: 0 <= i < j < |members| ==> members[i].key != members[j].key
    ensures DistinctKeys(CanonicalMembers(members))
  {
    hide Canonical;
    if members != [] {
      ListedDistinct(members[1..]);
      var tail := CanonicalMembers(members[1..]);
      forall i | 0 <= i < |tail| ensures tail[i].key != members[0].key {
        ListedMembers(members[1..], tail[i]);
      }
    }
  }

  // ---------------------------------------------------------------- escaped characters

  /** The unit stands for itself between quotes: no quote, backslash, control character or surrogate. */
  predicate Plain(u: Unit) {
    0x20 <= u && u != 0x22 && u != 0x5C && !(0xD800 <= u < 0xE000)
  }

  /** A string of plain characters and whole surrogate pairs. */
  predicate Unescaped(s: Text) {
    s == [] || (Plain(s[0]) && Unescaped(s[1..]))
    || (|s| > 1 && 0xD800 <= s[0] < 0xDC00 <= s[1] < 0xE000 && Unescaped(s[2..]))
  }

  /** Exactly the strings without quotes, backslashes, control characters and lone surrogates are printed as they are. */
  lemma {:induction false} PlainTextStays(s: Text)
    ensures Escape(s) == s <==> Unescaped(s)
    ensures |Escape(s)| >= |s|
  {
    hide HexEscape;
    if s != [] {
      if |s| > 1 && High(s[0]) && Low(s[1]) {
        PlainTextStays(s[2..]);
        assert s == [s[0], s[1]] + s[2..];
        PrefixSame([s[0], s[1]], Escape(s[2..]), s[2..]);
        assert Escape(s) == [s[0], s[1]] + Escape(s[2..]);
      } else {
        PlainTextStays(s[1..]);
        assert s == [s[0]] + s[1..];
        PrefixSame([s[0]], Escape(s[1..]), s[1..]);
        assert Escape(s) == EscapeUnit(s[0]) + Escape(s[1..]);
        EscapedIsLonger(s[0]);
      }
    }
  }

  lemma EscapedIsLonger(u: Unit)
    ensures if Plain(u) then EscapeUnit(u) == [u] else |EscapeUnit(u)| > 1
  {
  }

  lemma PrefixSame(p: Text, a: Text, b: Text)
    ensures p + a == p + b <==> a == b
  {
    assert (p + a)[|p|..] == a && (p + b)[|p|..] == b;
  }

  lemma EscapesOne(u: Unit)
    requires u < 0x80 || 0xD800 <= u < 0xE000
    ensures Escape([u]) == EscapeUnit(u)
  {
    assert [u][1..] == [];
  }

  /** The escapes of JSON.stringify: letters where there is one, and lower-case hexadecimal otherwise. */
  lemma EscapesAre()
    ensures Escape([0x22]) == [0x5C, 0x22] && Escape([0x5C]) == [0x5C, 0x5C] && Escape([0x08]) == [0x5C, 0x62]
    ensures Escape([0x09]) == [0x5C, 0x74] && Escape([0x0A]) == [0x5C, 0x6E] && Escape([0x0C]) == [0x5C, 0x66]
    ensures Escape([0x0D]) == [0x5C, 0x72] && Escape([0x1F]) == [0x5C, 0x75, 0x30, 0x30, 0x31, 0x66]
    ensures Escape([0xDEAD]) == [0x5C, 0x75, 0x64, 0x65, 0x61, 0x64]
  {
    hide Escape;
    EscapesOne(0x22);
    EscapesOne(0x5C);
    EscapesOne(0x08);
    EscapesOne(0x09);
    EscapesOne(0x0A);
    EscapesOne(0x0C);
    EscapesOne(0x0D);
    EscapesOne(0x1F);
    EscapesOne(0xDEAD);
  }
}
