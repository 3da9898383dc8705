/**
 * The chunked secret scan of the replay check (src/fixture/replay-evaluate.ts, secretsInFiles): one
 * buffer for every file, reads as short as the system likes, and only the last bytes that could
 * begin a secret carried into the next chunk.
 */
module SecretScan {
  type Byte = b: nat | b < 256
  type Bytes = seq<Byte>

  datatype Secret = Secret(id: string, bytes: Bytes)

  predicate OccursAt(needle: Bytes, hay: Bytes, k: int) {
    0 <= k <= |hay| - |needle| && hay[k..k + |needle|] == needle
  }

  predicate OccursIn(needle: Bytes, hay: Bytes) {
    exists k :: 0 <= k <= |hay| - |needle| && OccursAt(needle, hay, k)
  }

  /** A secret with this id occurs in the file. */
  ghost predicate Leaked(needles: seq<Secret>, file: Bytes, id: string) {
    exists n :: n in needles && n.id == id && OccursIn(n.bytes, file)
  }

  /** The carry is long enough for every needle but its last byte. */
  predicate Carries(needles: seq<Secret>, carry: nat) {
    forall n :: n in needles ==> 1 <= |n.bytes| <= carry + 1
  }

  function Min(a: nat, b: nat): nat {
    if a < b then a else b
  }

  lemma SliceOfSlice(s: Bytes, a: nat, b: nat, k: nat, length: nat)
    requires a <= k && k + length <= b <= |s|
    ensures s[a..b][k - a..k - a + length] == s[k..k + length]
  {
    var left, right := s[a..b][k - a..k - a + length], s[k..k + length];
    assert |left| == |right| && forall i :: 0 <= i < length ==> left[i] == right[i];
  }

  lemma OccursAtShifted(needle: Bytes, file: Bytes, a: nat, b: nat, k: int)
    requires a <= k <= b - |needle| && b <= |file|
    ensures OccursAt(needle, file[a..b], k - a) <==> OccursAt(needle, file, k)
  {
    SliceOfSlice(file, a, b, k, |needle|);
  }

  /** An occurrence in a slice is an occurrence in the file that lies within the slice. */
  lemma OccursInSlice(needle: Bytes, file: Bytes, a: nat, b: nat)
    requires a <= b <= |file|
    ensures OccursIn(needle, file[a..b]) <==> exists k :: OccursAt(needle, file, k) && a <= k <= b - |needle|
  {
    hide OccursAt;
    if j :| 0 <= j <= b - a - |needle| && OccursAt(needle, file[a..b], j) {
      OccursAtShifted(needle, file, a, b, a + j);
    }
    if k :| OccursAt(needle, file, k) && a <= k <= b - |needle| {
      OccursAtShifted(needle, file, a, b, k);
    }
  }

  /** An occurrence that is new in the longer prefix lies within the carried bytes and the new ones. */
  lemma NewOccurrenceIsInWindow(needle: Bytes, file: Bytes, before: nat, after: nat, kept: nat, carry: nat)
    requires before <= after <= |file| && kept == Min(carry, before) && 1 <= |needle| <= carry + 1
    ensures OccursIn(needle, file[..after]) <==> OccursIn(needle, file[..before]) || OccursIn(needle, file[before - kept..after])
  {
    assert file[0..after] == file[..after] && file[0..before] == file[..before];
    OccursInSlice(needle, file, 0, after);
    OccursInSlice(needle, file, 0, before);
    OccursInSlice(needle, file, before - kept, after);
    hide OccursIn, OccursAt;
    if k :| OccursAt(needle, file, k) && 0 <= k <= after - |needle| {
      assert k <= before - |needle| || before - kept <= k;
    }
  }

  lemma PrefixLeaks(needles: seq<Secret>, file: Bytes, before: nat, after: nat, kept: nat, carry: nat)
    requires before <= after <= |file| && kept == Min(carry, before) && Carries(needles, carry)
    ensures forall id :: Leaked(needles, file[..after], id) <==>
              Leaked(needles, file[..before], id) || Leaked(needles, file[before - kept..after], id)
  {
    forall n | n in needles
      ensures OccursIn(n.bytes, file[..after]) <==> OccursIn(n.bytes, file[..before]) || OccursIn(n.bytes, file[before - kept..after])
    {
      NewOccurrenceIsInWindow(n.bytes, file, before, after, kept, carry);
    }
    hide OccursIn;
  }

  lemma NothingInNothing(needles: seq<Secret>, carry: nat)
    requires Carries(needles, carry)
    ensures forall id :: !Leaked(needles, [], id)
  {
  }

  /** The window is checked for every needle. */
  method CheckWindow(window: Bytes, needles: seq<Secret>, foundBefore: set<string>) returns (found: set<string>)
    ensures forall id :: id in found <==> id in foundBefore || Leaked(needles, window, id)
  {
    found := foundBefore;
    for i := 0 to |needles|
      invariant forall id :: id in found <==> id in foundBefore || Leaked(needles[..i], window, id)
    {
      hide OccursIn;
      assert needles[..i + 1] == needles[..i] + [needles[i]];
      if OccursIn(needles[i].bytes, window) {
        found := found + {needles[i].id};
      }
    }
    assert needles[..|needles|] == needles;
  }

  /** buffer.copyWithin(0, from, from + count) */
  method CopyWithin(buffer: array<Byte>, from: nat, count: nat)
    requires from + count <= buffer.Length
    modifies buffer
    ensures buffer[..count] == old(buffer[from..from + count])
  {
    forall i | 0 <= i < count {
      buffer[i] := buffer[from + i];
    }
  }

  /** read(fd, buffer, at, limit): at least one byte unless the file is at its end, never past the limit. */
  method ReadInto(file: Bytes, position: nat, buffer: array<Byte>, at: nat, limit: nat) returns (read: nat)
    requires position <= |file| && 1 <= limit && at + limit <= buffer.Length
    modifies buffer
    ensures read <= limit && position + read <= |file| && (read == 0 <==> position == |file|)
    ensures buffer[..at + read] == old(buffer[..at]) + file[position..position + read]
  {
    read :| 0 <= read <= limit && position + read <= |file| && (read == 0 <==> position == |file|);
    forall i | 0 <= i < read {
      buffer[at + i] := file[position + i];
    }
  }

  /** Between two reads: the bytes before `position` are scanned, `read` new ones follow the kept ones. */
  ghost predicate Scanning(file: Bytes, position: nat, kept: nat, read: nat, carry: nat, chunkBytes: nat,
      window: Bytes) {
    && read <= chunkBytes && position + read <= |file| && (read == 0 <==> position == |file|)
    && kept == Min(carry, position) && window == file[position - kept..position + read]
  }

  /** Keeps the last `kept` of the first `end` bytes and reads on behind them. */
  method KeepAndRead(file: Bytes, position: nat, buffer: array<Byte>, end: nat, kept: nat, limit: nat)
      returns (read: nat)
    requires position <= |file| && 1 <= limit && kept <= end <= buffer.Length && kept + limit <= buffer.Length
    modifies buffer
    ensures read <= limit && position + read <= |file| && (read == 0 <==> position == |file|)
    ensures buffer[..kept + read] == old(buffer[..end])[end - kept..] + file[position..position + read]
  {
    ghost var tail := buffer[..end][end - kept..];
    assert buffer[end - kept..end - kept + kept] == tail;
    CopyWithin(buffer, end - kept, kept);
    read := ReadInto(file, position, buffer, kept, limit);
  }

  /** The tail of a slice is the slice from there on. */
  lemma TailOfSlice(s: Bytes, a: nat, b: nat, from: nat)
    requires a <= from <= b <= |s|
    ensures s[a..b][from - a..] == s[from..b]
  {
    var left, right := s[a..b][from - a..], s[from..b];
    assert |left| == |right| && forall i :: 0 <= i < |right| ==> left[i] == right[i];
  }

  lemma KeptAfter(position: nat, kept: nat, read: nat, carry: nat)
    requires kept == Min(carry, position)
    ensures Min(carry, kept + read) == Min(carry, position + read) && kept <= position && Min(carry,
        kept + read) <= kept + read
  {
  }

  /** The kept tail of a window ends where the next window's new bytes begin. */
  lemma WindowMoves(file: Bytes, position: nat, kept: nat, read: nat, keptAfter: nat, next: nat)
    requires kept <= position && keptAfter <= kept + read && position + read + next <= |file|
    ensures var after := position + read;
            file[position - kept..after][kept + read - keptAfter..] + file[after..after + next] == file[after - keptAfter..after + next]
  {
    var after := position + read;
    var a, from := position - kept, after - keptAfter;
    assert kept + read - keptAfter == from - a;
    TailOfSlice(file, a, after, from);
    SliceJoins(file, from, after, after + next);
  }

  lemma ScanMoves(file: Bytes, position: nat, kept: nat, read: nat, carry: nat, chunkBytes: nat, window: Bytes,
      next: nat)
    requires Scanning(file, position, kept, read, carry, chunkBytes, window)
    requires next <= chunkBytes && position + read + next <= |file| && (next == 0 <==> position + read == |file|)
    ensures var after, keptAfter := position + read, Min(carry, kept + read);
            && keptAfter <= kept + read == |window|
            && Scanning(file, after, keptAfter, next, carry, chunkBytes,
                 window[kept + read - keptAfter..] + file[after..after + next])
  {
    KeptAfter(position, kept, read, carry);
    var keptAfter := Min(carry, kept + read);
    hide Min;
    WindowMoves(file, position, kept, read, keptAfter, next);
  }

  /** The body of the read loop: scan the window, keep its tail, read on. */
  method ScanChunk(file: Bytes, needles: seq<Secret>, buffer: array<Byte>, carry: nat, chunkBytes: nat,
      position: nat, kept: nat, read: nat, foundBefore: set<string>)
      returns (positionAfter: nat, keptAfter: nat, readAfter: nat, found: set<string>)
    requires Carries(needles, carry) && chunkBytes >= 1 && buffer.Length == carry + chunkBytes && kept <= carry
    requires 1 <= read <= chunkBytes && position + read <= |file| && kept <= position
    requires Scanning(file, position, kept, read, carry, chunkBytes, buffer[..kept + read])
    modifies buffer
    ensures positionAfter == position + read && positionAfter + readAfter <= |file|
    ensures keptAfter <= carry && keptAfter <= positionAfter && readAfter <= chunkBytes
    ensures Scanning(file, positionAfter, keptAfter, readAfter, carry, chunkBytes, buffer[..keptAfter + readAfter])
    ensures forall id :: id in found <==> id in foundBefore || Leaked(needles, file[position - kept..position + read], id)
  {
    ghost var window := buffer[..kept + read];
    assert window == file[position - kept..position + read] && kept == Min(carry, position);
    hide Carries, Leaked, Scanning;
    found := CheckWindow(buffer[..kept + read], needles, foundBefore);
    positionAfter, keptAfter := position + read, Min(carry, kept + read);
    KeptAfter(position, kept, read, carry);
    hide Min;
    readAfter := KeepAndRead(file, positionAfter, buffer, kept + read, keptAfter, chunkBytes);
    assert buffer[..keptAfter + readAfter] == window[kept + read - keptAfter..] + file[positionAfter..positionAfter + readAfter];
    ScanMoves(file, position, kept, read, carry, chunkBytes, window, readAfter);
  }

  method ScanFile(file: Bytes, needles: seq<Secret>, buffer: array<Byte>, carry: nat, chunkBytes: nat,
      foundBefore: set<string>)
      returns (found: set<string>)
    requires Carries(needles, carry) && chunkBytes >= 1 && buffer.Length == carry + chunkBytes
    modifies buffer
    ensures forall id :: id in found <==> id in foundBefore || Leaked(needles, file, id)
  {
    found := foundBefore;
    var kept: nat := 0;
    var position: nat := 0; // the offset the open file keeps
    NothingInNothing(needles, carry);
    assert file[..0] == [];
    hide Leaked, Carries, Min;
    var read := ReadInto(file, 0, buffer, 0, chunkBytes);
    ScanStarts(file, read, carry, chunkBytes, buffer[..read]);
    while read > 0
      invariant 0 <= read <= chunkBytes && 0 <= kept <= carry && kept <= position && position + read <= |file|
      invariant Scanning(file, position, kept, read, carry, chunkBytes, buffer[..kept + read])
      invariant forall id :: id in found <==> id in foundBefore || Leaked(needles, file[..position], id)
      decreases |file| - position
    {
      PrefixLeaks(needles, file, position, position + read, kept, carry);
      position, kept, read, found := ScanChunk(file, needles, buffer, carry, chunkBytes, position, kept, read, found);
    }
    assert file[..position] == file;
  }

  lemma ScanStarts(file: Bytes, read: nat, carry: nat, chunkBytes: nat, window: Bytes)
    requires read <= chunkBytes && read <= |file| && (read == 0 <==> 0 == |file|) && window == file[0..read]
    ensures Scanning(file, 0, 0, read, carry, chunkBytes, window)
  {
  }

  lemma SliceJoins(s: Bytes, a: nat, b: nat, c: nat)
    requires a <= b <= c <= |s|
    ensures s[a..b] + s[b..c] == s[a..c]
  {
  }

  /** Exactly the ids of the non-empty secrets that occur, as a run of bytes, in some file. */
  method SecretsInFiles(files: seq<Bytes>, secrets: seq<Secret>, chunkBytes: nat) returns (found: set<string>)
    requires chunkBytes >= 1
    ensures forall id :: id in found <==>
              exists s, f :: s in secrets && f in files && s.id == id && s.bytes != [] && OccursIn(s.bytes, f)
  {
    var needles: seq<Secret> := [];
    var carry: nat := 0;
    for i := 0 to |secrets|
      invariant forall s :: s in needles <==> s in secrets[..i] && s.bytes != []
      invariant Carries(needles, carry)
    {
      assert secrets[..i + 1] == secrets[..i] + [secrets[i]];
      if secrets[i].bytes != [] {
        needles := needles + [secrets[i]];
        carry := if |secrets[i].bytes| - 1 > carry then |secrets[i].bytes| - 1 else carry;
      }
    }
    assert secrets[..|secrets|] == secrets;
    var buffer := new Byte[carry + chunkBytes];
    found := {};
    for i := 0 to |files|
      invariant forall id :: id in found <==> exists f :: f in files[..i] && Leaked(needles, f, id)
    {
      hide Leaked, Carries;
      assert files[..i + 1] == files[..i] + [files[i]];
      found := ScanFile(files[i], needles, buffer, carry, chunkBytes, found);
    }
    assert files[..|files|] == files;
  }
}
