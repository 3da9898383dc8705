/**
 * Canonical JSON text (src/events.ts, canonicalJson), the input of every event content hash: members
 * sorted by code units, absent members dropped, strings escaped as JSON.stringify does within
 * section 7 of RFC 8259. A reader undoes it, so equal texts mean equal values up to member order.
 */
module CanonicalJson {
  import opened Options

  /** A UTF-16 code unit, and text as JavaScript sees it. */
  type Unit = u: nat | u < 0x10000
  type Text = seq<Unit>

  /** The integers whose decimal form JSON.stringify prints exactly. */
  type SafeInteger = n: int | -9007199254740991 <= n <= 9007199254740991

  datatype Member = Member(key: Text, value: Json)
  datatype Json =
    | Undefined | Null | Bool(b: bool) | Num(n: SafeInteger) | Str(text: Text)
    | Arr(items: seq<Json>) | Obj(members: seq<Member>)

  const QUOTE: Unit := 0x22
  const BACKSLASH: Unit := 0x5C
  const COMMA: Unit := 0x2C
  const COLON: Unit := 0x3A
  const MINUS: Unit := 0x2D
  const ZERO: Unit := 0x30
  const OPEN_ARRAY: Unit := 0x5B
  const CLOSE_ARRAY: Unit := 0x5D
  const OPEN_OBJECT: Unit := 0x7B
  const CLOSE_OBJECT: Unit := 0x7D
  const LETTER_U: Unit := 0x75
  const NULL_TEXT: Text := [0x6E, 0x75, 0x6C, 0x6C]
  const TRUE_TEXT: Text := [0x74, 0x72, 0x75, 0x65]
  const FALSE_TEXT: Text := [0x66, 0x61, 0x6C, 0x73, 0x65]

  // ---------------------------------------------------------------- strings

  predicate High(u: Unit) {
    0xD800 <= u < 0xDC00
  }

  predicate Low(u: Unit) {
    0xDC00 <= u < 0xE000
  }

  function HexDigit(d: nat): Unit
    requires d < 16
  {
    if d < 10 then 0x30 + d else 0x61 + d - 10
  }

  function HexEscape(u: Unit): Text {
    [BACKSLASH, LETTER_U, HexDigit(u / 4096), HexDigit(u / 256 % 16), HexDigit(u / 16 % 16), HexDigit(u % 16)]
  }

  /** The letter of a two-character escape, if the unit has one. */
  function ShortEscape(u: Unit): Option<Unit> {
    if u == QUOTE then Some(QUOTE)
    else if u == BACKSLASH then Some(BACKSLASH)
    else if u == 8 then Some(0x62)
    else if u == 9 then Some(0x74)
    else if u == 10 then Some(0x6E)
    else if u == 12 then Some(0x66)
    else if u == 13 then Some(0x72)
    else None
  }

  function EscapeUnit(u: Unit): Text {
    if ShortEscape(u).Some? then [BACKSLASH, ShortEscape(u).value]
    else if u < 0x20 || High(u) || Low(u) then HexEscape(u)
    else [u]
  }

  /** A surrogate pair is printed as it is, a lone surrogate as an escape. */
  function Escape(s: Text): Text {
    if s == [] then []
    else if |s| > 1 && High(s[0]) && Low(s[1]) then [s[0], s[1]] + Escape(s[2..])
    else EscapeUnit(s[0]) + Escape(s[1..])
  }

  function Quote(s: Text): Text {
    [QUOTE] + Escape(s) + [QUOTE]
  }

  // ---------------------------------------------------------------- numbers

  function Digits(n: nat): Text {
    if n < 10 then [ZERO + n] else Digits(n / 10) + [ZERO + n % 10]
  }

  function Decimal(n: int): Text {
    if n < 0 then [MINUS] + Digits(-n) else Digits(n)
  }

  // ---------------------------------------------------------------- objects

  /** Order by code units, as `<` on JavaScript strings. */
  predicate Before(a: Text, b: Text) {
    if a == [] then b != []
    else b != [] && (a[0] < b[0] || (a[0] == b[0] && Before(a[1..], b[1..])))
  }

  datatype Entry<+V> = Entry(key: Text, value: V)

  function Insert<V>(e: Entry<V>, sorted: seq<Entry<V>>): seq<Entry<V>> {
    if sorted == [] || Before(e.key, sorted[0].key) then [e] + sorted
    else [sorted[0]] + Insert(e, sorted[1..])
  }

  function Sort<V>(entries: seq<Entry<V>>): seq<Entry<V>> {
    if entries == [] then [] else Insert(entries[0], Sort(entries[1..]))
  }

  // ---------------------------------------------------------------- canonicalJson

  function Join(parts: seq<Text>): Text {
    if parts == [] then [] else if |parts| == 1 then parts[0] else parts[0] + [COMMA] + Join(parts[1..])
  }

  function MemberTexts(entries: seq<Entry<Text>>): seq<Text> {
    seq(|entries|, i requires 0 <= i < |entries| => Quote(entries[i].key) + [COLON] + entries[i].value)
  }

  function Canonical(v: Json): Text {
    match v
    case Undefined => NULL_TEXT
    case Null => NULL_TEXT
    case Bool(b) => if b then TRUE_TEXT else FALSE_TEXT
    case Num(n) => Decimal(n)
    case Str(s) => Quote(s)
    case Arr(items) => [OPEN_ARRAY] + Join(CanonicalItems(items)) + [CLOSE_ARRAY]
    case Obj(members) => [OPEN_OBJECT] + Join(MemberTexts(Sort(CanonicalMembers(members)))) + [CLOSE_OBJECT]
  }

  function CanonicalItems(items: seq<Json>): (r: seq<Text>)
    ensures |r| == |items| && forall i :: 0 <= i < |items| ==> r[i] == Canonical(items[i])
  {
    if items == [] then [] else [Canonical(items[0])] + CanonicalItems(items[1..])
  }

  /** The defined members with their texts, in the order the object holds them. */
  function CanonicalMembers(members: seq<Member>): seq<Entry<Text>> {
    if members == [] then []
    else if members[0].value.Undefined? then CanonicalMembers(members[1..])
    else [Entry(members[0].key, Canonical(members[0].value))] + CanonicalMembers(members[1..])
  }

  // ---------------------------------------------------------------- the value a text stands for

  /** Undefined reads back as null, absent members are gone, and members are in key order. */
  function Norm(v: Json): Json {
    match v
    case Undefined => Null
    case Arr(items) => Arr(NormItems(items))
    case Obj(members) => Obj(AsMembers(Sort(NormMembers(members))))
    case _ => v
  }

  function NormItems(items: seq<Json>): (r: seq<Json>)
    ensures |r| == |items| && forall i :: 0 <= i < |items| ==> r[i] == Norm(items[i])
  {
    if items == [] then [] else [Norm(items[0])] + NormItems(items[1..])
  }

  function NormMembers(members: seq<Member>): seq<Entry<Json>> {
    if members == [] then []
    else if members[0].value.Undefined? then NormMembers(members[1..])
    else [Entry(members[0].key, Norm(members[0].value))] + NormMembers(members[1..])
  }

  function AsMembers(entries: seq<Entry<Json>>): seq<Member> {
    seq(|entries|, i requires 0 <= i < |entries| => Member(entries[i].key, entries[i].value))
  }

  // ---------------------------------------------------------------- a reader

  datatype Read<+V> = Read(value: V, rest: Text)

  function HexValue(u: Unit): Option<nat> {
    if 0x30 <= u < 0x3A then Some(u - 0x30)
    else if 0x61 <= u < 0x67 then Some(u - 0x61 + 10)
    else if 0x41 <= u < 0x47 then Some(u - 0x41 + 10)
    else None
  }

  function ReadHex(t: Text): Option<Unit>
    requires |t| >= 4
  {
    var a, b, c, d := HexValue(t[0]), HexValue(t[1]), HexValue(t[2]), HexValue(t[3]);
    if a.Some? && b.Some? && c.Some? && d.Some? && a.value < 16 && b.value < 16 && c.value < 16 && d.value < 16
    then Some(a.value * 4096 + b.value * 256 + c.value * 16 + d.value) else None
  }

  function Unescape(u: Unit): Option<Unit> {
    if u == QUOTE || u == BACKSLASH || u == 0x2F then Some(u)
    else if u == 0x62 then Some(8)
    else if u == 0x74 then Some(9)
    else if u == 0x6E then Some(10)
    else if u == 0x66 then Some(12)
    else if u == 0x72 then Some(13)
    else None
  }

  /** The rest of a string after its opening quote. */
  function ReadString(t: Text): (r: Option<Read<Text>>)
    ensures r.Some? ==> |r.value.rest| < |t|
  {
    if t == [] then None
    else if t[0] == QUOTE then Some(Read([], t[1..]))
    else if t[0] == BACKSLASH then
      if |t| >= 6 && t[1] == LETTER_U then
        if ReadHex(t[2..]).Some? then Cons(ReadHex(t[2..]).value, ReadString(t[6..])) else None
      else if |t| >= 2 && Unescape(t[1]).Some? then Cons(Unescape(t[1]).value, ReadString(t[2..]))
      else None
    else if t[0] < 0x20 then None
    else Cons(t[0], ReadString(t[1..]))
  }

  function Cons(u: Unit, r: Option<Read<Text>>): Option<Read<Text>> {
    if r.Some? then Some(Read([u] + r.value.value, r.value.rest)) else None
  }

  predicate IsDigit(u: Unit) {
    0x30 <= u < 0x3A
  }

  function ReadDigits(t: Text, value: nat): (r: Read<nat>)
    ensures |r.rest| <= |t|
  {
    if t != [] && IsDigit(t[0]) then ReadDigits(t[1..], value * 10 + (t[0] - ZERO)) else Read(value, t)
  }

  function ReadNumber(t: Text): (r: Option<Read<Json>>)
    ensures r.Some? ==> |r.value.rest| < |t|
  {
    var negative := t != [] && t[0] == MINUS;
    var digits := if negative then t[1..] else t;
    if digits == [] || !IsDigit(digits[0]) then None
    else
      var read := ReadDigits(digits[1..], digits[0] - ZERO);
      var n: int := if negative then -(read.value as int) else read.value;
      if read.value <= 9007199254740991 then Some(Read(Num(n), read.rest)) else None
  }

  function ReadWord(t: Text, word: Text, value: Json): (r: Option<Read<Json>>)
    requires word != []
    ensures r.Some? ==> |r.value.rest| < |t|
  {
    if |t| >= |word| && t[..|word|] == word then Some(Read(value, t[|word|..])) else None
  }

  function ReadValue(t: Text): (r: Option<Read<Json>>)
    ensures r.Some? ==> |r.value.rest| < |t|
    decreases |t|, 1
  {
    if t == [] then None
    else if t[0] == QUOTE then
      var s := ReadString(t[1..]);
      if s.Some? then Some(Read(Str(s.value.value), s.value.rest)) else None
    else if t[0] == OPEN_ARRAY then
      if |t| > 1 && t[1] == CLOSE_ARRAY then Some(Read(Arr([]), t[2..]))
      else
        var items := ReadItems(t[1..]);
        if items.Some? then Some(Read(Arr(items.value.value), items.value.rest)) else None
    else if t[0] == OPEN_OBJECT then
      if |t| > 1 && t[1] == CLOSE_OBJECT then Some(Read(Obj([]), t[2..]))
      else
        var members := ReadMembers(t[1..]);
        if members.Some? then Some(Read(Obj(members.value.value), members.value.rest)) else None
    else if t[0] == NULL_TEXT[0] then ReadWord(t, NULL_TEXT, Null)
    else if t[0] == TRUE_TEXT[0] then ReadWord(t, TRUE_TEXT, Bool(true))
    else if t[0] == FALSE_TEXT[0] then ReadWord(t, FALSE_TEXT, Bool(false))
    else ReadNumber(t)
  }

  /** One or more items up to the closing bracket. */
  function ReadItems(t: Text): (r: Option<Read<seq<Json>>>)
    ensures r.Some? ==> |r.value.rest| < |t|
    decreases |t|, 2
  {
    var first := ReadValue(t);
    if first.None? || first.value.rest == [] then None
    else if first.value.rest[0] == CLOSE_ARRAY then Some(Read([first.value.value], first.value.rest[1..]))
    else if first.value.rest[0] != COMMA then None
    else
      var more := ReadItems(first.value.rest[1..]);
      if more.Some? then Some(Read([first.value.value] + more.value.value, more.value.rest)) else None
  }

  function ReadMember(t: Text): (r: Option<Read<Member>>)
    ensures r.Some? ==> |r.value.rest| < |t|
    decreases |t|, 2
  {
    if t == [] || t[0] != QUOTE then None
    else
      var key := ReadString(t[1..]);
      if key.None? || key.value.rest == [] || key.value.rest[0] != COLON then None
      else
        var value := ReadValue(key.value.rest[1..]);
        if value.Some? then Some(Read(Member(key.value.value, value.value.value), value.value.rest)) else None
  }

  function ReadMembers(t: Text): (r: Option<Read<seq<Member>>>)
    ensures r.Some? ==> |r.value.rest| < |t|
    decreases |t|, 3
  {
    var first := ReadMember(t);
    if first.None? || first.value.rest == [] then None
    else if first.value.rest[0] == CLOSE_OBJECT then Some(Read([first.value.value], first.value.rest[1..]))
    else if first.value.rest[0] != COMMA then None
    else
      var more := ReadMembers(first.value.rest[1..]);
      if more.Some? then Some(Read([first.value.value] + more.value.value, more.value.rest)) else None
  }

  function Parse(t: Text): Option<Json> {
    var r := ReadValue(t);
    if r.Some? && r.value.rest == [] then Some(r.value.value) else None
  }

  // ---------------------------------------------------------------- strings and numbers read back

  lemma HexReadsBack(u: Unit, rest: Text)
    ensures ReadHex((HexEscape(u) + rest)[2..]) == Some(u)
  {
    var t := (HexEscape(u) + rest)[2..];
    assert t[0] == HexDigit(u / 4096) && t[1] == HexDigit(u / 256 % 16) && t[2] == HexDigit(u / 16 % 16) && t[3] == HexDigit(u % 16);
    assert u == u / 16 * 16 + u % 16;
    assert u / 16 == u / 256 * 16 + u / 16 % 16;
    assert u / 256 == u / 4096 * 16 + u / 256 % 16;
  }

  lemma {:induction false} EscapedUnitReadsBack(u: Unit, rest: Text)
    ensures ReadString(EscapeUnit(u) + rest) == Cons(u, ReadString(rest))
  {
    var t := EscapeUnit(u) + rest;
    if ShortEscape(u).Some? {
      assert t[2..] == rest;
    } else if u < 0x20 || High(u) || Low(u) {
      HexReadsBack(u, rest);
      assert t[6..] == rest;
    } else {
      assert t[1..] == rest;
    }
  }

  lemma {:induction false} LiteralReadsBack(u: Unit, rest: Text)
    requires u >= 0x20 && u != QUOTE && u != BACKSLASH
    ensures ReadString([u] + rest) == Cons(u, ReadString(rest))
  {
    assert ([u] + rest)[1..] == rest;
  }

  /** The first unit of a string, or its first surrogate pair, with the text it is printed as. */
  lemma {:induction false} EscapeStep(s: Text)
    requires s != []
    ensures if |s| > 1 && High(s[0]) && Low(s[1]) then Escape(s) == [s[0], s[1]] + Escape(s[2..])
            else Escape(s) == EscapeUnit(s[0]) + Escape(s[1..])
  {
    hide EscapeUnit;
  }

  lemma {:induction false} PairReadsBack(high: Unit, low: Unit, rest: Text)
    requires High(high) && Low(low)
    ensures ReadString([high, low] + rest) == Cons(high, Cons(low, ReadString(rest)))
  {
    LiteralReadsBack(low, rest);
    LiteralReadsBack(high, [low] + rest);
    assert [high, low] + rest == [high] + ([low] + rest);
    hide ReadString;
  }

  lemma Regroup(a: Text, b: Text, c: Text, d: Text)
    ensures (a + b) + c + d == a + (b + c + d)
  {
  }

  lemma Rejoin(s: Text)
    ensures s != [] ==> [s[0]] + s[1..] == s
    ensures |s| > 1 ==> [s[0]] + ([s[1]] + s[2..]) == s
  {
  }

  lemma {:induction false} StringReadsBack(s: Text, rest: Text)
    ensures ReadString(Escape(s) + [QUOTE] + rest) == Some(Read(s, rest))
  {
    if s == [] {
      EmptyReadsBack(rest);
    } else {
      hide ReadString, EscapeUnit, Escape, High, Low;
      EscapeStep(s);
      Rejoin(s);
      if |s| > 1 && High(s[0]) && Low(s[1]) {
        StringReadsBack(s[2..], rest);
        Regroup([s[0], s[1]], Escape(s[2..]), [QUOTE], rest);
        PairReadsBack(s[0], s[1], Escape(s[2..]) + [QUOTE] + rest);
      } else {
        StringReadsBack(s[1..], rest);
        Regroup(EscapeUnit(s[0]), Escape(s[1..]), [QUOTE], rest);
        EscapedUnitReadsBack(s[0], Escape(s[1..]) + [QUOTE] + rest);
      }
    }
  }

  lemma {:induction false} EmptyReadsBack(rest: Text)
    ensures ReadString(Escape([]) + [QUOTE] + rest) == Some(Read([], rest))
  {
    assert Escape([]) + [QUOTE] + rest == [QUOTE] + rest;
    assert ([QUOTE] + rest)[1..] == rest;
  }

  lemma {:induction false} DigitsReadBack(n: nat, rest: Text)
    ensures ReadDigits(Digits(n) + rest, 0) == ReadDigits(rest, n)
    ensures Digits(n) != [] && IsDigit(Digits(n)[0])
  {
    var t := Digits(n) + rest;
    if n < 10 {
      assert t[1..] == rest;
    } else {
      var tail := [ZERO + n % 10] + rest;
      DigitsReadBack(n / 10, tail);
      assert t == Digits(n / 10) + tail;
      assert tail[1..] == rest;
    }
  }

  predicate Ends(rest: Text) {
    rest == [] || !IsDigit(rest[0])
  }

  lemma {:induction false} NumbersStart(t: Text)
    requires t != [] && (t[0] == MINUS || IsDigit(t[0]))
    ensures ReadValue(t) == ReadNumber(t)
  {
  }

  /** Reading the digits of a natural number as the code does: the first one apart. */
  lemma {:induction false} NaturalReadsBack(n: nat, rest: Text)
    requires Ends(rest)
    ensures var t := Digits(n) + rest;
            t != [] && IsDigit(t[0]) && ReadDigits(t[1..], t[0] - ZERO) == Read(n, rest)
  {
    DigitsReadBack(n, rest);
    hide Digits;
  }

  lemma {:induction false} NumberReadsBack(n: SafeInteger, rest: Text)
    requires Ends(rest)
    ensures ReadValue(Decimal(n) + rest) == Some(Read(Num(n), rest))
  {
    hide ReadValue, Digits, ReadDigits;
    var size: nat := if n < 0 then -n else n;
    var digits := Digits(size) + rest;
    NaturalReadsBack(size, rest);
    var t := Decimal(n) + rest;
    if n < 0 {
      assert t == [MINUS] + digits;
      assert t[1..] == digits;
    } else {
      assert t == digits;
    }
    NumbersStart(t);
  }

  // ---------------------------------------------------------------- sorting

  lemma {:induction false} BeforeIsStrictOrder(a: Text, b: Text, c: Text)
    ensures !Before(a, a)
    ensures Before(a, b) && Before(b, c) ==> Before(a, c)
    ensures a == b || Before(a, b) || Before(b, a)
  {
    if a != [] {
      BeforeIsStrictOrder(a[1..], if b == [] then [] else b[1..], if c == [] then [] else c[1..]);
      if b != [] && a[0] == b[0] && a[1..] == b[1..] {
        assert a == [a[0]] + a[1..] == [b[0]] + b[1..] == b;
      }
    }
  }

  ghost predicate Sorted<V>(entries: seq<Entry<V>>) {
    forall i, j :: 0 <= i < j < |entries| ==> Before(entries[i].key, entries[j].key)
  }

  ghost predicate DistinctKeys<V>(entries: seq<Entry<V>>) {
    forall i, j :: 0 <= i < j < |entries| ==> entries[i].key != entries[j].key
  }

  lemma InsertFirst<V>(e: Entry<V>, sorted: seq<Entry<V>>)
    requires Sorted(sorted) && (sorted != [] ==> Before(e.key, sorted[0].key))
    ensures Sorted([e] + sorted)
  {
    forall j | 0 <= j < |sorted| ensures Before(e.key, sorted[j].key) {
      BeforeIsStrictOrder(e.key, sorted[0].key, sorted[j].key);
    }
  }

  lemma InsertLater<V>(first: Entry<V>, e: Entry<V>, sorted: seq<Entry<V>>, tail: seq<Entry<V>>)
    requires Sorted(sorted) && sorted != [] && sorted[0] == first && Sorted(tail) && Before(first.key, e.key)
    requires multiset(tail) == multiset(sorted[1..]) + multiset{e}
    ensures Sorted([first] + tail)
  {
    forall j | 0 <= j < |tail| ensures Before(first.key, tail[j].key) {
      assert tail[j] in multiset(tail);
      assert tail[j] == e || tail[j] in sorted[1..];
    }
  }

  lemma {:induction false} InsertSorts<V>(e: Entry<V>, sorted: seq<Entry<V>>)
    requires Sorted(sorted) && forall i :: 0 <= i < |sorted| ==> sorted[i].key != e.key
    ensures Sorted(Insert(e, sorted)) && multiset(Insert(e, sorted)) == multiset(sorted) + multiset{e}
  {
    if sorted == [] || Before(e.key, sorted[0].key) {
      InsertFirst(e, sorted);
    } else {
      InsertSorts(e, sorted[1..]);
      assert sorted == [sorted[0]] + sorted[1..];
      BeforeIsStrictOrder(e.key, sorted[0].key, []);
      InsertLater(sorted[0], e, sorted, Insert(e, sorted[1..]));
      hide Sorted;
    }
  }

  lemma TailIsDistinct<V>(entries: seq<Entry<V>>, sorted: seq<Entry<V>>)
    requires DistinctKeys(entries) && entries != [] && multiset(sorted) == multiset(entries[1..])
    ensures forall i :: 0 <= i < |sorted| ==> sorted[i].key != entries[0].key
  {
    forall i | 0 <= i < |sorted| ensures sorted[i].key != entries[0].key {
      assert sorted[i] in multiset(sorted);
      assert sorted[i] in entries[1..];
    }
  }

  lemma RestIsDistinct<V>(entries: seq<Entry<V>>)
    requires DistinctKeys(entries) && entries != []
    ensures DistinctKeys(entries[1..])
  {
  }

  lemma SortOneMore<V>(entries: seq<Entry<V>>, tail: seq<Entry<V>>)
    requires DistinctKeys(entries) && entries != [] && Sorted(tail) && multiset(tail) == multiset(entries[1..])
    ensures Sorted(Insert(entries[0], tail)) && multiset(Insert(entries[0], tail)) == multiset(entries)
  {
    TailIsDistinct(entries, tail);
    hide Sorted, DistinctKeys, Insert;
    InsertSorts(entries[0], tail);
    assert entries == [entries[0]] + entries[1..];
  }

  lemma {:induction false} SortSorts<V>(entries: seq<Entry<V>>)
    requires DistinctKeys(entries)
    ensures Sorted(Sort(entries)) && multiset(Sort(entries)) == multiset(entries)
  {
    if entries != [] {
      RestIsDistinct(entries);
      hide Sorted, DistinctKeys, Insert;
      SortSorts(entries[1..]);
      SortOneMore(entries, Sort(entries[1..]));
    }
  }

  ghost predicate SameEntries<V(!new)>(a: seq<Entry<V>>, b: seq<Entry<V>>) {
    forall x :: x in a <==> x in b
  }

  lemma SortedHead<V(!new)>(a: seq<Entry<V>>, b: seq<Entry<V>>)
    requires Sorted(a) && Sorted(b) && SameEntries(a, b) && a != []
    ensures b != [] && a[0] == b[0]
  {
    assert a[0] in b && b[0] in a;
    var i :| 0 <= i < |b| && b[i] == a[0];
    var j :| 0 <= j < |a| && a[j] == b[0];
    BeforeIsStrictOrder(a[0].key, b[0].key, a[0].key);
  }

  lemma SortedTail<V>(a: seq<Entry<V>>, x: Entry<V>)
    requires Sorted(a) && a != []
    ensures x in a[1..] <==> x in a && x != a[0]
  {
    BeforeIsStrictOrder(a[0].key, a[0].key, a[0].key);
    assert a == [a[0]] + a[1..];
  }

  /** Two sorted sequences with the same entries are the same sequence. */
  lemma {:induction false} SortedIsUnique<V(!new)>(a: seq<Entry<V>>, b: seq<Entry<V>>)
    requires Sorted(a) && Sorted(b) && SameEntries(a, b)
    ensures a == b
  {
    if a == [] {
      assert b == [] by { if b != [] { SortedHead(b, a); } }
    } else {
      SortedHead(a, b);
      forall x ensures x in a[1..] <==> x in b[1..] {
        SortedTail(a, x);
        SortedTail(b, x);
      }
      SortedIsUnique(a[1..], b[1..]);
    }
  }

  lemma {:induction false} SortedStays<V(!new)>(entries: seq<Entry<V>>)
    requires Sorted(entries)
    ensures Sort(entries) == entries
  {
    forall i, j | 0 <= i < j < |entries| ensures entries[i].key != entries[j].key {
      BeforeIsStrictOrder(entries[i].key, entries[j].key, []);
    }
    SortSorts(entries);
    forall x ensures x in Sort(entries) <==> x in entries {
      assert x in Sort(entries) <==> x in multiset(Sort(entries));
    }
    SortedIsUnique(Sort(entries), entries);
  }

  // ---------------------------------------------------------------- normal values read back

  /** What JavaScript guarantees of an object: no key twice. */
  ghost predicate Proper(v: Json) {
    match v
    case Arr(items) => forall i :: 0 <= i < |items| ==> Proper(items[i])
    case Obj(members) =>
      && (forall i, j :: 0 <= i < j < |members| ==> members[i].key != members[j].key)
      && (forall i :: 0 <= i < |members| ==> Proper(members[i].value))
    case _ => true
  }

  /** Nothing absent, members in key order. */
  ghost predicate Normal(v: Json) {
    match v
    case Undefined => false
    case Arr(items) => forall i :: 0 <= i < |items| ==> Normal(items[i])
    case Obj(members) =>
      && (forall i, j :: 0 <= i < j < |members| ==> Before(members[i].key, members[j].key))
      && (forall i :: 0 <= i < |members| ==> Normal(members[i].value))
    case _ => true
  }

  ghost predicate NormalMembers(members: seq<Member>) {
    forall i :: 0 <= i < |members| ==> Normal(members[i].value)
  }

  lemma {:induction false} MemberTextsOf(members: seq<Member>)
    requires NormalMembers(members)
    ensures var entries := CanonicalMembers(members);
            && |entries| == |members|
            && forall i :: 0 <= i < |members| ==> entries[i] == Entry(members[i].key, Canonical(members[i].value))
  {
    if members != [] {
      assert Normal(members[0].value);
      MemberTextsOf(members[1..]);
    }
  }

  lemma {:induction false} ObjectTextOf(members: seq<Member>)
    requires Normal(Obj(members))
    ensures Canonical(Obj(members)) == [OPEN_OBJECT] + Join(MemberTexts(CanonicalMembers(members))) + [CLOSE_OBJECT]
  {
    MemberTextsOf(members);
    SortedStays(CanonicalMembers(members));
  }

  lemma {:induction false} StartsValue(v: Json, rest: Text)
    requires Normal(v)
    ensures var t := Canonical(v) + rest; t != [] && t[0] != CLOSE_ARRAY && t[0] != CLOSE_OBJECT
  {
    if v.Num? {
      var size: nat := if v.n < 0 then -v.n else v.n;
      DigitsReadBack(size, rest);
    }
  }

  lemma {:induction false} ItemsReadBack(items: seq<Json>, rest: Text)
    requires items != [] && forall i :: 0 <= i < |items| ==> Normal(items[i])
    ensures ReadItems(Join(CanonicalItems(items)) + [CLOSE_ARRAY] + rest) == Some(Read(items, rest))
    decreases items, 0
  {
    hide Canonical, ReadValue;
    var texts := CanonicalItems(items);
    var t := Join(texts) + [CLOSE_ARRAY] + rest;
    assert Normal(items[0]);
    if |items| == 1 {
      var tail := [CLOSE_ARRAY] + rest;
      assert t == Canonical(items[0]) + tail;
      ValueReadsBack(items[0], tail);
      assert tail[1..] == rest;
      assert items == [items[0]];
    } else {
      var more := Join(texts[1..]) + [CLOSE_ARRAY] + rest;
      var tail := [COMMA] + more;
      assert texts[1..] == CanonicalItems(items[1..]);
      assert t == Canonical(items[0]) + tail;
      ValueReadsBack(items[0], tail);
      assert tail[1..] == more;
      ItemsReadBack(items[1..], rest);
      assert items == [items[0]] + items[1..];
    }
  }

  lemma {:induction false} MemberReads(t: Text, key: Text, afterKey: Text, value: Json, rest: Text)
    requires t != [] && t[0] == QUOTE && ReadString(t[1..]) == Some(Read(key, afterKey))
    requires afterKey != [] && afterKey[0] == COLON && ReadValue(afterKey[1..]) == Some(Read(value, rest))
    ensures ReadMember(t) == Some(Read(Member(key, value), rest))
  {
    hide ReadValue, ReadString;
  }

  lemma {:induction false} MemberReadsBack(m: Member, rest: Text)
    requires Normal(m.value) && Ends(rest)
    ensures ReadMember(Quote(m.key) + [COLON] + Canonical(m.value) + rest) == Some(Read(m, rest))
    decreases m, 0
  {
    hide ReadValue, ReadString, ReadMember, Canonical, Escape;
    var value := Canonical(m.value) + rest;
    var t := Quote(m.key) + [COLON] + Canonical(m.value) + rest;
    var afterKey := [COLON] + value;
    StringReadsBack(m.key, afterKey);
    assert t[1..] == Escape(m.key) + [QUOTE] + afterKey;
    assert afterKey[1..] == value;
    ValueReadsBack(m.value, rest);
    MemberReads(t, m.key, afterKey, m.value, rest);
  }

  lemma {:induction false} MembersReadBack(members: seq<Member>, rest: Text)
    requires members != [] && NormalMembers(members)
    ensures ReadMembers(Join(MemberTexts(CanonicalMembers(members))) + [CLOSE_OBJECT] + rest) == Some(Read(members,
        rest))
    decreases members, 1
  {
    hide Canonical, ReadMember, Escape;
    MemberTextsOf(members);
    var texts := MemberTexts(CanonicalMembers(members));
    var t := Join(texts) + [CLOSE_OBJECT] + rest;
    var first := Quote(members[0].key) + [COLON] + Canonical(members[0].value);
    if |members| == 1 {
      var tail := [CLOSE_OBJECT] + rest;
      assert t == first + tail;
      MemberReadsBack(members[0], tail);
      assert tail[1..] == rest;
      assert members == [members[0]];
    } else {
      MemberTextsOf(members[1..]);
      assert texts[1..] == MemberTexts(CanonicalMembers(members[1..]));
      var more := Join(texts[1..]) + [CLOSE_OBJECT] + rest;
      var tail := [COMMA] + more;
      assert t == first + tail;
      MemberReadsBack(members[0], tail);
      assert tail[1..] == more;
      MembersReadBack(members[1..], rest);
      assert members == [members[0]] + members[1..];
    }
  }

  lemma {:induction false} ArrayReads(body: Text, items: seq<Json>, rest: Text)
    requires body != [] && body[0] != CLOSE_ARRAY && ReadItems(body) == Some(Read(items, rest))
    ensures ReadValue([OPEN_ARRAY] + body) == Some(Read(Arr(items), rest))
  {
    assert ([OPEN_ARRAY] + body)[1..] == body;
    hide ReadItems;
  }

  lemma {:induction false} ObjectReads(body: Text, members: seq<Member>, rest: Text)
    requires body != [] && body[0] != CLOSE_OBJECT && ReadMembers(body) == Some(Read(members, rest))
    ensures ReadValue([OPEN_OBJECT] + body) == Some(Read(Obj(members), rest))
  {
    assert ([OPEN_OBJECT] + body)[1..] == body;
    hide ReadMembers;
  }

  lemma {:induction false} WordReads(v: Json, rest: Text)
    requires v.Null? || v.Bool?
    ensures ReadValue(Canonical(v) + rest) == Some(Read(v, rest))
  {
    var t := Canonical(v) + rest;
    assert t[|Canonical(v)|..] == rest && t[..|Canonical(v)|] == Canonical(v);
    hide ReadItems, ReadMembers, ReadString;
  }

  lemma {:induction false} QuotedReads(s: Text, rest: Text)
    ensures ReadValue(Quote(s) + rest) == Some(Read(Str(s), rest))
  {
    hide Escape, ReadItems, ReadMembers, ReadString;
    StringReadsBack(s, rest);
    assert (Quote(s) + rest)[1..] == Escape(s) + [QUOTE] + rest;
  }

  lemma {:induction false} EmptyReads(rest: Text)
    ensures ReadValue(Canonical(Arr([])) + rest) == Some(Read(Arr([]), rest))
    ensures ReadValue(Canonical(Obj([])) + rest) == Some(Read(Obj([]), rest))
  {
    assert (Canonical(Arr([])) + rest)[2..] == rest && (Canonical(Obj([])) + rest)[2..] == rest;
    hide ReadItems, ReadMembers;
  }

  /** The reader undoes the canonical text of a normal value, whatever follows it. */
  lemma {:induction false} ValueReadsBack(v: Json, rest: Text)
    requires Normal(v) && Ends(rest)
    ensures ReadValue(Canonical(v) + rest) == Some(Read(v, rest))
    decreases v, 1
  {
    hide ReadValue, ReadItems, ReadMembers, Join, Escape, Digits, Sort;
    match v
    case Num(n) => NumberReadsBack(n, rest);
    case Arr(items) =>
      EmptyReads(rest);
      if items != [] {
        var body := Join(CanonicalItems(items)) + [CLOSE_ARRAY] + rest;
        ItemsReadBack(items, rest);
        JoinStarts(items, rest);
        ArrayReads(body, items, rest);
        assert Canonical(v) + rest == [OPEN_ARRAY] + body;
      }
    case Obj(members) =>
      EmptyReads(rest);
      if members != [] {
        var body := Join(MemberTexts(CanonicalMembers(members))) + [CLOSE_OBJECT] + rest;
        ObjectTextOf(members);
        MembersReadBack(members, rest);
        ObjectStarts(members, rest);
        ObjectReads(body, members, rest);
        assert Canonical(v) + rest == [OPEN_OBJECT] + body;
      }
    case Str(text) => QuotedReads(text, rest);
    case _ => WordReads(v, rest);
  }

  lemma {:induction false} ObjectStarts(members: seq<Member>, rest: Text)
    requires members != [] && NormalMembers(members)
    ensures var t := Join(MemberTexts(CanonicalMembers(members))) + [CLOSE_OBJECT] + rest; t[0] == QUOTE
  {
    MemberTextsOf(members);
    hide Canonical, Escape;
  }

  lemma {:induction false} JoinStarts(items: seq<Json>, rest: Text)
    requires items != [] && Normal(items[0])
    ensures var t := Join(CanonicalItems(items)) + [CLOSE_ARRAY] + rest; t != [] && t[0] != CLOSE_ARRAY
  {
    StartsValue(items[0], []);
    assert Canonical(items[0]) + [] == Canonical(items[0]);
    hide Canonical;
  }

  // ---------------------------------------------------------------- canonical texts are texts of normal values

  function Texts(entries: seq<Entry<Json>>): seq<Entry<Text>> {
    seq(|entries|, i requires 0 <= i < |entries| => Entry(entries[i].key, Canonical(entries[i].value)))
  }

  lemma {:induction false} InsertCommutes(e: Entry<Json>, sorted: seq<Entry<Json>>)
    ensures Texts(Insert(e, sorted)) == Insert(Entry(e.key, Canonical(e.value)), Texts(sorted))
  {
    hide Canonical;
    if sorted != [] && !Before(e.key, sorted[0].key) {
      InsertCommutes(e, sorted[1..]);
      assert Texts(sorted)[1..] == Texts(sorted[1..]);
    }
  }

  lemma {:induction false} SortCommutes(entries: seq<Entry<Json>>)
    ensures Texts(Sort(entries)) == Sort(Texts(entries))
  {
    hide Canonical;
    if entries != [] {
      SortCommutes(entries[1..]);
      InsertCommutes(entries[0], Sort(entries[1..]));
      assert Texts(entries)[1..] == Texts(entries[1..]);
    }
  }

  function EntryOf(m: Member): Entry<Json> {
    Entry(m.key, Norm(m.value))
  }

  /** The entries are those of the defined members. */
  lemma {:induction false} NormMembersOf(members: seq<Member>, e: Entry<Json>)
    ensures e in NormMembers(members) <==> exists m :: m in members && !m.value.Undefined? && e == EntryOf(m)
  {
    hide Norm;
    if members != [] {
      NormMembersOf(members[1..], e);
      assert members == [members[0]] + members[1..];
    }
  }

  lemma {:induction false} NormMembersDistinct(members: seq<Member>)
    requires forall i, j :: 0 <= i < j < |members| ==> members[i].key != members[j].key
    ensures DistinctKeys(NormMembers(members))
  {
    hide Norm;
    if members != [] {
      NormMembersDistinct(members[1..]);
      var tail := NormMembers(members[1..]);
      forall i | 0 <= i < |tail| ensures tail[i].key != members[0].key {
        NormMembersOf(members[1..], tail[i]);
      }
    }
  }

  lemma {:induction false} NormMembersTexts(members: seq<Member>)
    requires forall i :: 0 <= i < |members| ==> Canonical(Norm(members[i].value)) == Canonical(members[i].value)
    ensures Texts(NormMembers(members)) == CanonicalMembers(members)
  {
    hide Canonical, Norm;
    if members != [] {
      NormMembersTexts(members[1..]);
    }
  }

  lemma {:induction false} EntriesNormal(members: seq<Member>, sorted: seq<Entry<Json>>)
    requires forall m :: m in members ==> Normal(Norm(m.value))
    requires multiset(sorted) == multiset(NormMembers(members)) && Sorted(sorted)
    ensures Normal(Obj(AsMembers(sorted)))
  {
    forall i | 0 <= i < |sorted| ensures Normal(sorted[i].value) {
      assert sorted[i] in multiset(sorted);
      NormMembersOf(members, sorted[i]);
      var m :| m in members && !m.value.Undefined? && sorted[i] == EntryOf(m);
      hide Norm, Normal;
    }
    ObjectIsNormal(sorted);
    hide Norm, Normal, NormMembers;
  }

  lemma {:induction false} ObjectIsNormal(sorted: seq<Entry<Json>>)
    requires Sorted(sorted) && forall i :: 0 <= i < |sorted| ==> Normal(sorted[i].value)
    ensures Normal(Obj(AsMembers(sorted)))
  {
  }

  lemma {:induction false} NormIsNormal(v: Json)
    requires Proper(v)
    ensures Normal(Norm(v))
  {
    match v
    case Arr(items) =>
      forall i | 0 <= i < |items| ensures Normal(Norm(items[i])) {
        NormIsNormal(items[i]);
      }
    case Obj(members) =>
      forall m | m in members ensures Normal(Norm(m.value)) {
        var i :| 0 <= i < |members| && members[i] == m;
        NormIsNormal(members[i].value);
      }
      NormMembersDistinct(members);
      hide Normal, NormMembers, Sort;
      SortSorts(NormMembers(members));
      EntriesNormal(members, Sort(NormMembers(members)));
    case _ =>
  }

  /** Normalising changes no canonical text. */
  lemma {:induction false} CanonicalOfNorm(v: Json)
    requires Proper(v)
    ensures Canonical(Norm(v)) == Canonical(v)
  {
    match v
    case Arr(items) =>
      forall i | 0 <= i < |items| ensures Canonical(Norm(items[i])) == Canonical(items[i]) {
        CanonicalOfNorm(items[i]);
      }
      assert CanonicalItems(NormItems(items)) == CanonicalItems(items);
    case Obj(members) =>
      forall i | 0 <= i < |members| ensures Canonical(Norm(members[i].value)) == Canonical(members[i].value) {
        CanonicalOfNorm(members[i].value);
      }
      var entries := NormMembers(members);
      NormMembersTexts(members);
      SortCommutes(entries);
      NormIsNormal(v);
      hide Norm;
      var normal := AsMembers(Sort(entries));
      assert Norm(v) == Obj(normal) by { NormOfObject(members); }
      ObjectTextOf(normal);
      MemberTextsOf(normal);
      assert CanonicalMembers(normal) == Texts(Sort(entries));
    case _ =>
  }

  lemma {:induction false} NormOfObject(members: seq<Member>)
    ensures Norm(Obj(members)) == Obj(AsMembers(Sort(NormMembers(members))))
  {
  }

  // ---------------------------------------------------------------- main results

  /** Reading the canonical text gives the value back, up to absent members and member order. */
  lemma {:induction false} ParseUndoesCanonical(v: Json)
    requires Proper(v)
    ensures Parse(Canonical(v)) == Some(Norm(v))
  {
    NormIsNormal(v);
    CanonicalOfNorm(v);
    ValueReadsBack(Norm(v), []);
    assert Canonical(v) + [] == Canonical(v);
    hide Canonical, Norm, ReadValue;
  }

  /** Two values have the same canonical text exactly when they are the same value. */
  lemma {:induction false} SameTextIffSameValue(v: Json, w: Json)
    requires Proper(v) && Proper(w)
    ensures Canonical(v) == Canonical(w) <==> Norm(v) == Norm(w)
  {
    ParseUndoesCanonical(v);
    ParseUndoesCanonical(w);
    CanonicalOfNorm(v);
    CanonicalOfNorm(w);
    hide Canonical, Norm, Parse;
  }

  /** The members of an object may come in any order. */
  lemma {:induction false} MemberOrderDoesNotMatter(members: seq<Member>, others: seq<Member>)
    requires Proper(Obj(members)) && Proper(Obj(others)) && forall m :: m in members <==> m in others
    ensures Canonical(Obj(members)) == Canonical(Obj(others))
  {
    NormMembersDistinct(members);
    NormMembersDistinct(others);
    SortSorts(NormMembers(members));
    SortSorts(NormMembers(others));
    forall e ensures e in Sort(NormMembers(members)) <==> e in Sort(NormMembers(others)) {
      NormMembersOf(members, e);
      NormMembersOf(others, e);
      assert e in Sort(NormMembers(members)) <==> e in multiset(Sort(NormMembers(members)));
      assert e in Sort(NormMembers(others)) <==> e in multiset(Sort(NormMembers(others)));
    }
    SortedIsUnique(Sort(NormMembers(members)), Sort(NormMembers(others)));
    NormOfObject(members);
    NormOfObject(others);
    SameTextIffSameValue(Obj(members), Obj(others));
    hide Canonical, Proper, Norm;
  }
}
