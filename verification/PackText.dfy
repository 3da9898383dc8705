/**
 * The rendered text of a pack (src/injection/pack-format.ts) and the budgeted fold that adds the
 * items of a new pack to the blocks of the live one (src/injection/deferred.ts, foldPlanned).
 */
module PackText {
  import opened Options

  const HEADER: string := "oboete memory context"
  const FOOTER: string := "end of oboete memory context"

  /** A reason code together with the sentence the pack shows for it. */
  datatype DegradedReason = DegradedReason(code: string, sentence: string)

  /** What an item or a block is about: a memory, a raw event, or neither (a choice line). */
  datatype Key = Key(memory: Option<string>, rawEvent: Option<string>)

  const CHOICE_KEY := Key(None, None)

  datatype Block = Block(key: Key, lines: seq<string>)

  datatype ItemReason =
    | BelowThreshold | Budget | DuplicateInConversation | StalePath | StaleCommit | Retired
    | MmrRedundant | Pinned | Summary | NotDelivered | SecretDetected | Directive

  datatype Decision = Planned | Included | Omitted

  datatype PackItem = PackItem(key: Key, decision: Decision, reason: Option<ItemReason>, lines: seq<string>)

  datatype Omission = Omission(key: Key, reason: ItemReason)

  function JoinLines(lines: seq<string>): string {
    if lines == [] then ""
    else if |lines| == 1 then lines[0]
    else lines[0] + "\n" + JoinLines(lines[1..])
  }

  function Flatten(blocks: seq<Block>): seq<string> {
    if blocks == [] then []
    else Flatten(blocks[..|blocks| - 1]) + blocks[|blocks| - 1].lines
  }

  function GuardLeadingBrace(text: string): string {
    if text != "" && text[0] == '{' then " " + text else text
  }

  function PackLines(repositoryLine: string, blocks: seq<Block>, degraded: Option<DegradedReason>): seq<string> {
    [HEADER, repositoryLine] + Flatten(blocks)
    + (if degraded.Some? then ["> degraded: " + degraded.value.sentence] else [])
    + [FOOTER]
  }

  function RenderPack(repositoryLine: string, blocks: seq<Block>, degraded: Option<DegradedReason>): string {
    GuardLeadingBrace(JoinLines(PackLines(repositoryLine, blocks, degraded)))
  }

  function BlockCost(lines: seq<string>): nat {
    |JoinLines(lines)| + 1
  }

  // ---------------------------------------------------------------- the fold

  /** `known` are the memories already carried, `size` the characters already used. */
  datatype Fold = Fold(blocks: seq<Block>, omissions: seq<Omission>, known: set<string>, size: nat)

  function MemoriesOf(blocks: seq<Block>): set<string> {
    set b | b in blocks && b.key.memory.Some? :: b.key.memory.value
  }

  function FoldItem(f: Fold, item: PackItem, budget: int): Fold {
    if !item.decision.Planned? then f
    else if item.key.memory.Some? && item.key.memory.value in f.known then
      f.(omissions := f.omissions + [Omission(item.key, DuplicateInConversation)])
    else if f.size + BlockCost(item.lines) > budget then
      f.(omissions := f.omissions + [Omission(item.key, Budget)])
    else
      Fold(f.blocks + [Block(item.key, item.lines)], f.omissions,
           if item.key.memory.Some? then f.known + {item.key.memory.value} else f.known,
           f.size + BlockCost(item.lines))
  }

  function FoldItems(items: seq<PackItem>, blocks: seq<Block>, budget: int, used: nat): Fold {
    if items == [] then Fold(blocks, [], MemoriesOf(blocks), used)
    else FoldItem(FoldItems(items[..|items| - 1], blocks, budget, used), items[|items| - 1], budget)
  }

  // ---------------------------------------------------------------- which items are added

  /** What becomes of one item: it was not planned, is left out for one of two reasons, or is added. */
  datatype Verdict = NotPlanned | AsDuplicate | OverBudget | Added

  /** The characters that the items added before the n-th one take, each with its line break. */
  ghost function AddedCost(items: seq<PackItem>, verdicts: seq<Verdict>, n: nat): nat
    requires n <= |items| && n <= |verdicts|
  {
    if n == 0 then 0
    else AddedCost(items, verdicts, n - 1) + if verdicts[n - 1].Added? then |JoinLines(items[n - 1].lines)| + 1 else 0
  }

  /** The item's memory is in the text already, or was added from an earlier item. */
  ghost predicate Carried(items: seq<PackItem>, blocks: seq<Block>, verdicts: seq<Verdict>, i: nat)
    requires i < |items| && i <= |verdicts|
  {
    items[i].key.memory.Some?
    && ( || (exists b :: b in blocks && b.key.memory == items[i].key.memory)
         || (exists j :: 0 <= j < i && verdicts[j].Added? && items[j].key.memory == items[i].key.memory))
  }

  ghost predicate Decides(items: seq<PackItem>, blocks: seq<Block>, budget: int, used: nat, verdicts: seq<Verdict>) {
    |verdicts| == |items|
    && forall i :: 0 <= i < |items| ==>
         verdicts[i] == if !items[i].decision.Planned? then NotPlanned
                        else if Carried(items, blocks, verdicts, i) then AsDuplicate
                        else if used + AddedCost(items, verdicts, i) + |JoinLines(items[i].lines)| + 1 > budget then OverBudget
                        else Added
  }

  /** The blocks of the added items among the first n, in item order. */
  ghost function AddedBlocks(items: seq<PackItem>, verdicts: seq<Verdict>, n: nat): seq<Block>
    requires n <= |items| && n <= |verdicts|
  {
    if n == 0 then []
    else AddedBlocks(items, verdicts, n - 1)
         + if verdicts[n - 1].Added? then [Block(items[n - 1].key, items[n - 1].lines)] else []
  }

  /** The items left out among the first n, in item order. */
  ghost function LeftOut(items: seq<PackItem>, verdicts: seq<Verdict>, n: nat): seq<Omission>
    requires n <= |items| && n <= |verdicts|
  {
    if n == 0 then []
    else LeftOut(items, verdicts, n - 1)
         + match verdicts[n - 1]
           case AsDuplicate => [Omission(items[n - 1].key, DuplicateInConversation)]
           case OverBudget => [Omission(items[n - 1].key, Budget)]
           case _ => []
  }

  /** The result holds what the verdicts say, and they are the ones the rules give. */
  ghost predicate Folded(items: seq<PackItem>, blocks: seq<Block>, budget: int, used: nat, verdicts: seq<Verdict>,
      merged: seq<Block>, omissions: seq<Omission>) {
    && Decides(items, blocks, budget, used, verdicts)
    && merged == blocks + AddedBlocks(items, verdicts, |items|)
    && omissions == LeftOut(items, verdicts, |items|)
  }

  lemma {:induction false} PrefixSame(items: seq<PackItem>, verdicts: seq<Verdict>, more: seq<PackItem>, moreVerdicts: seq<Verdict>,
      n: nat)
    requires n <= |items| <= |more| && n <= |verdicts| <= |moreVerdicts|
    requires items == more[..|items|] && verdicts == moreVerdicts[..|verdicts|]
    ensures AddedCost(items, verdicts, n) == AddedCost(more, moreVerdicts, n)
    ensures AddedBlocks(items, verdicts, n) == AddedBlocks(more, moreVerdicts, n)
    ensures LeftOut(items, verdicts, n) == LeftOut(more, moreVerdicts, n)
  {
    if n > 0 {
      PrefixSame(items, verdicts, more, moreVerdicts, n - 1);
    }
  }

  lemma {:induction false} AddedMemories(items: seq<PackItem>, blocks: seq<Block>, verdicts: seq<Verdict>, n: nat, memory: string)
    requires n <= |items| && n <= |verdicts|
    ensures memory in MemoriesOf(blocks + AddedBlocks(items, verdicts, n)) <==>
              (exists b :: b in blocks && b.key.memory == Some(memory))
              || (exists j :: 0 <= j < n && verdicts[j].Added? && items[j].key.memory == Some(memory))
  {
    if n == 0 {
      assert blocks + AddedBlocks(items, verdicts, 0) == blocks;
    } else {
      AddedMemories(items, blocks, verdicts, n - 1, memory);
      var before := blocks + AddedBlocks(items, verdicts, n - 1);
      if verdicts[n - 1].Added? {
        var b := Block(items[n - 1].key, items[n - 1].lines);
        assert blocks + AddedBlocks(items, verdicts, n) == before + [b];
        MemoriesOneMore(before, b, memory);
      }
    }
  }

  lemma MemoriesOneMore(blocks: seq<Block>, block: Block, memory: string)
    ensures memory in MemoriesOf(blocks + [block]) <==> memory in MemoriesOf(blocks) || block.key.memory == Some(memory)
  {
    if memory in MemoriesOf(blocks) {
      var b :| b in blocks && b.key.memory == Some(memory);
      assert b in blocks + [block];
    }
    assert block in blocks + [block];
  }

  /** What the verdicts know after n items is what the fold tracks. */
  ghost predicate Tracks(items: seq<PackItem>, blocks: seq<Block>, budget: int, used: nat, verdicts: seq<Verdict>, f: Fold) {
    && Folded(items, blocks, budget, used, verdicts, f.blocks, f.omissions)
    && f.size == used + AddedCost(items, verdicts, |items|)
    && f.known == MemoriesOf(f.blocks)
  }

  ghost function VerdictOf(f: Fold, item: PackItem, budget: int): Verdict {
    if !item.decision.Planned? then NotPlanned
    else if item.key.memory.Some? && item.key.memory.value in f.known then AsDuplicate
    else if f.size + BlockCost(item.lines) > budget then OverBudget
    else Added
  }

  lemma CarriedSame(items: seq<PackItem>, blocks: seq<Block>, verdicts: seq<Verdict>, more: seq<PackItem>,
      moreVerdicts: seq<Verdict>, i: nat)
    requires i < |items| <= |more| && i <= |verdicts| <= |moreVerdicts|
    requires items == more[..|items|] && verdicts == moreVerdicts[..|verdicts|]
    ensures Carried(more, blocks, moreVerdicts, i) <==> Carried(items, blocks, verdicts, i)
  {
    assert forall j :: 0 <= j < i ==> items[j] == more[j] && verdicts[j] == moreVerdicts[j];
  }

  lemma DecidesOneMore(items: seq<PackItem>, blocks: seq<Block>, budget: int, used: nat, verdicts: seq<Verdict>, f: Fold,
      item: PackItem)
    requires Tracks(items, blocks, budget, used, verdicts, f)
    ensures Decides(items + [item], blocks, budget, used, verdicts + [VerdictOf(f, item, budget)])
  {
    var more, moreVerdicts := items + [item], verdicts + [VerdictOf(f, item, budget)];
    var n := |items|;
    forall i | 0 <= i <= n
      ensures AddedCost(more, moreVerdicts, i) == AddedCost(items, verdicts, i)
    {
      PrefixSame(items, verdicts, more, moreVerdicts, i);
    }
    CarriedKnown(items, blocks, budget, used, verdicts, f, item, VerdictOf(f, item, budget));
    hide AddedCost, JoinLines, AddedBlocks, LeftOut, Carried, MemoriesOf;
    forall i | 0 <= i < n ensures Carried(more, blocks, moreVerdicts, i) <==> Carried(items, blocks, verdicts, i) {
      CarriedSame(items, blocks, verdicts, more, moreVerdicts, i);
    }
  }

  /** The memories the fold knows after n items decide whether the next one is carried already. */
  lemma CarriedKnown(items: seq<PackItem>, blocks: seq<Block>, budget: int, used: nat, verdicts: seq<Verdict>, f: Fold,
      item: PackItem, verdict: Verdict)
    requires Tracks(items, blocks, budget, used, verdicts, f)
    ensures Carried(items + [item], blocks, verdicts + [verdict], |items|) <==>
              item.key.memory.Some? && item.key.memory.value in f.known
  {
    var n := |items|;
    assert forall j :: 0 <= j < n ==> (items + [item])[j] == items[j] && (verdicts + [verdict])[j] == verdicts[j];
    if item.key.memory.Some? {
      AddedMemories(items, blocks, verdicts, n, item.key.memory.value);
    }
    hide AddedBlocks, MemoriesOf, Decides;
  }

  lemma TracksOneMore(items: seq<PackItem>, blocks: seq<Block>, budget: int, used: nat, verdicts: seq<Verdict>, f: Fold,
      item: PackItem)
    requires Tracks(items, blocks, budget, used, verdicts, f)
    ensures Tracks(items + [item], blocks, budget, used, verdicts + [VerdictOf(f, item, budget)], FoldItem(f, item, budget))
  {
    DecidesOneMore(items, blocks, budget, used, verdicts, f, item);
    hide Decides;
    var verdict := VerdictOf(f, item, budget);
    PrefixSame(items, verdicts, items + [item], verdicts + [verdict], |items|);
    var g := FoldItem(f, item, budget);
    var more, moreVerdicts := items + [item], verdicts + [verdict];
    assert g.blocks == blocks + AddedBlocks(more, moreVerdicts, |more|);
    assert g.omissions == LeftOut(more, moreVerdicts, |more|);
    if verdict.Added? {
      forall m ensures m in g.known <==> m in MemoriesOf(g.blocks) {
        MemoriesOneMore(f.blocks, Block(item.key, item.lines), m);
      }
    }
  }

  /** The fold decides every item by the rules, and holds exactly what they give. */
  lemma {:induction false} FoldDecides(items: seq<PackItem>, blocks: seq<Block>, budget: int, used: nat)
      returns (verdicts: seq<Verdict>)
    ensures Tracks(items, blocks, budget, used, verdicts, FoldItems(items, blocks, budget, used))
  {
    if items == [] {
      verdicts := [];
      assert blocks + [] == blocks;
    } else {
      var n := |items| - 1;
      verdicts := FoldDecides(items[..n], blocks, budget, used);
      var f := FoldItems(items[..n], blocks, budget, used);
      TracksOneMore(items[..n], blocks, budget, used, verdicts, f, items[n]);
      assert items[..n] + [items[n]] == items;
      verdicts := verdicts + [VerdictOf(f, items[n], budget)];
    }
  }

  /** The rules leave no choice: there is one verdict for each item. */
  lemma {:induction false} VerdictsAreDetermined(items: seq<PackItem>, blocks: seq<Block>, budget: int, used: nat,
      a: seq<Verdict>, b: seq<Verdict>, n: nat)
    requires Decides(items, blocks, budget, used, a) && Decides(items, blocks, budget, used, b) && n <= |items|
    ensures a[..n] == b[..n]
  {
    if n > 0 {
      VerdictsAreDetermined(items, blocks, budget, used, a, b, n - 1);
      assert a[..n - 1] == b[..n - 1];
      forall j | 0 <= j < n - 1 ensures a[j] == b[j] {
        assert a[j] == a[..n - 1][j] && b[j] == b[..n - 1][j];
      }
      PrefixSame(items[..n - 1], a[..n - 1], items, a, n - 1);
      PrefixSame(items[..n - 1], b[..n - 1], items, b, n - 1);
      hide AddedCost, AddedBlocks, LeftOut, JoinLines;
      assert Carried(items, blocks, a, n - 1) <==> Carried(items, blocks, b, n - 1);
      assert a[n - 1] == b[n - 1];
      assert a[..n] == a[..n - 1] + [a[n - 1]] && b[..n] == b[..n - 1] + [b[n - 1]];
    }
  }

  /** The loop of foldPlanned: the blocks grow in place while `size` tracks what they cost. */
  method FoldPlanned(items: seq<PackItem>, blocks: seq<Block>, budget: int, used: nat)
    returns (merged: seq<Block>, omissions: seq<Omission>, ghost verdicts: seq<Verdict>)
    ensures merged == FoldItems(items, blocks, budget, used).blocks
    ensures omissions == FoldItems(items, blocks, budget, used).omissions
    ensures Folded(items, blocks, budget, used, verdicts, merged, omissions)
  {
    verdicts := FoldDecides(items, blocks, budget, used);
    var known := MemoriesOf(blocks);
    merged, omissions := blocks, [];
    var size: nat := used;
    for i := 0 to |items|
      invariant Fold(merged, omissions, known, size) == FoldItems(items[..i], blocks, budget, used)
    {
      assert items[..i + 1][..i] == items[..i];
      var item := items[i];
      if item.decision.Planned? {
        var cost := BlockCost(item.lines);
        if item.key.memory.Some? && item.key.memory.value in known {
          omissions := omissions + [Omission(item.key, DuplicateInConversation)];
        } else if size + cost > budget {
          omissions := omissions + [Omission(item.key, Budget)];
        } else {
          size := size + cost;
          merged := merged + [Block(item.key, item.lines)];
          if item.key.memory.Some? {
            known := known + {item.key.memory.value};
          }
        }
      }
    }
    assert items[..|items|] == items;
  }

  // ---------------------------------------------------------------- the budget is kept

  function Weight(lines: seq<string>): nat {
    if lines == [] then 0 else Weight(lines[..|lines| - 1]) + |lines[|lines| - 1]| + 1
  }

  lemma {:induction false} WeightOfConcat(a: seq<string>, b: seq<string>)
    ensures Weight(a + b) == Weight(a) + Weight(b)
  {
    if b == [] {
      assert a + b == a;
    } else {
      var n := |b| - 1;
      assert (a + b)[..|a + b| - 1] == a + b[..n];
      WeightOfConcat(a, b[..n]);
    }
  }

  lemma {:induction false} JoinLength(lines: seq<string>)
    requires lines != []
    ensures |JoinLines(lines)| + 1 == Weight(lines)
  {
    WeightOfConcat([lines[0]], lines[1..]);
    assert [lines[0]] + lines[1..] == lines;
    assert Weight([lines[0]]) == |lines[0]| + 1 by {
      assert [lines[0]][..0] == [];
    }
    if |lines| > 1 {
      JoinLength(lines[1..]);
    }
  }

  /** The header never starts with a brace, so the rendered length is the weight of the lines. */
  lemma RenderLength(repositoryLine: string, blocks: seq<Block>, degraded: Option<DegradedReason>)
    ensures |RenderPack(repositoryLine, blocks, degraded)| + 1 == Weight(PackLines(repositoryLine, blocks, degraded))
    ensures RenderPack(repositoryLine, blocks, degraded) == JoinLines(PackLines(repositoryLine, blocks, degraded))
  {
    var lines := PackLines(repositoryLine, blocks, degraded);
    assert lines[0] == HEADER;
    JoinLength(lines);
    assert JoinLines(lines)[0] == 'o';
  }

  function Top(repositoryLine: string): seq<string> {
    [HEADER, repositoryLine]
  }

  function Tail(degraded: Option<DegradedReason>): seq<string> {
    (if degraded.Some? then ["> degraded: " + degraded.value.sentence] else []) + [FOOTER]
  }

  lemma PackWeight(repositoryLine: string, blocks: seq<Block>, degraded: Option<DegradedReason>)
    ensures |RenderPack(repositoryLine, blocks, degraded)| + 1 == Weight(Top(repositoryLine)) + Weight(Flatten(blocks)) + Weight(Tail(degraded))
  {
    RenderLength(repositoryLine, blocks, degraded);
    var top, middle, tail := Top(repositoryLine), Flatten(blocks), Tail(degraded);
    assert PackLines(repositoryLine, blocks, degraded) == top + middle + tail;
    hide RenderPack, Flatten, Weight, PackLines, Top, Tail;
    WeightOfConcat(top + middle, tail);
    WeightOfConcat(top, middle);
  }

  lemma {:induction false} FlattenAppend(blocks: seq<Block>, block: Block)
    ensures Flatten(blocks + [block]) == Flatten(blocks) + block.lines
  {
    assert (blocks + [block])[..|blocks + [block]| - 1] == blocks;
  }

  lemma RenderGrowth(repositoryLine: string, blocks: seq<Block>, block: Block, degraded: Option<DegradedReason>)
    ensures |RenderPack(repositoryLine, blocks + [block], degraded)|
         == |RenderPack(repositoryLine, blocks, degraded)| + Weight(block.lines)
    ensures Weight(block.lines) <= BlockCost(block.lines)
  {
    PackWeight(repositoryLine, blocks, degraded);
    PackWeight(repositoryLine, blocks + [block], degraded);
    FlattenAppend(blocks, block);
    WeightOfConcat(Flatten(blocks), block.lines);
    hide RenderPack, Flatten;
    if block.lines != [] {
      JoinLength(block.lines);
    }
  }

  /**
   * A merged text never outgrows the budget it was folded under, unless the live text already had:
   * then nothing is added. Blocks that were there stay in front, in order.
   */
  lemma {:induction false} MergedTextFitsBudget(items: seq<PackItem>, blocks: seq<Block>, budget: int,
      repositoryLine: string, degraded: Option<DegradedReason>)
    ensures var used := |RenderPack(repositoryLine, blocks, degraded)|;
            var f := FoldItems(items, blocks, budget, used);
            && blocks <= f.blocks
            && |RenderPack(repositoryLine, f.blocks, degraded)| <= f.size
            && (f.size <= budget || (f.blocks == blocks && f.size == used))
  {
    if items != [] {
      var n := |items| - 1;
      MergedTextFitsBudget(items[..n], blocks, budget, repositoryLine, degraded);
      var f := FoldItems(items[..n], blocks, budget, |RenderPack(repositoryLine, blocks, degraded)|);
      RenderGrowth(repositoryLine, f.blocks, Block(items[n].key, items[n].lines), degraded);
    }
  }

  ghost predicate Accounted(f: Fold, item: PackItem) {
    || Block(item.key, item.lines) in f.blocks
    || exists o :: o in f.omissions && o.key == item.key
  }

  lemma FoldItemAccounts(f: Fold, item: PackItem, budget: int)
    ensures item.decision.Planned? ==> Accounted(FoldItem(f, item, budget), item)
    ensures forall other :: Accounted(f, other) ==> Accounted(FoldItem(f, item, budget), other)
  {
    var g := FoldItem(f, item, budget);
    if item.decision.Planned? {
      if g.blocks == f.blocks {
        assert g.omissions[|g.omissions| - 1].key == item.key;
      } else {
        assert g.blocks[|g.blocks| - 1] == Block(item.key, item.lines);
      }
    }
    forall other | Accounted(f, other) ensures Accounted(g, other) {
      if Block(other.key, other.lines) !in f.blocks {
        var o :| o in f.omissions && o.key == other.key;
        assert o in g.omissions;
      }
    }
  }

  /** No planned item of the new pack disappears: it becomes a block or a recorded omission. */
  lemma {:induction false} FoldAccountsForItems(items: seq<PackItem>, blocks: seq<Block>, budget: int, used: nat,
      i: nat)
    requires i < |items| && items[i].decision.Planned?
    ensures Accounted(FoldItems(items, blocks, budget, used), items[i])
  {
    var n := |items| - 1;
    FoldItemAccounts(FoldItems(items[..n], blocks, budget, used), items[n], budget);
    if i < n {
      FoldAccountsForItems(items[..n], blocks, budget, used, i);
    }
  }

  /** No memory is carried twice: blocks of one memory stay unique when they start unique. */
  ghost predicate MemoriesUnique(blocks: seq<Block>) {
    forall i, j :: 0 <= i < j < |blocks| && blocks[i].key.memory.Some? ==> blocks[i].key.memory != blocks[j].key.memory
  }

  lemma {:induction false} FoldKeepsMemoriesUnique(items: seq<PackItem>, blocks: seq<Block>, budget: int, used: nat)
    requires MemoriesUnique(blocks)
    ensures MemoriesUnique(FoldItems(items, blocks, budget, used).blocks)
    ensures FoldItems(items, blocks, budget, used).known == MemoriesOf(FoldItems(items, blocks, budget, used).blocks)
  {
    if items != [] {
      var n := |items| - 1;
      FoldKeepsMemoriesUnique(items[..n], blocks, budget, used);
      var f := FoldItems(items[..n], blocks, budget, used);
      var g := FoldItems(items, blocks, budget, used);
      forall i, j | 0 <= i < j < |g.blocks| && g.blocks[i].key.memory.Some?
        ensures g.blocks[i].key.memory != g.blocks[j].key.memory
      {
        assert i < |f.blocks| && g.blocks[i] == f.blocks[i] && f.blocks[i] in f.blocks;
      }
    }
  }

  // ---------------------------------------------------------------- the text holds the blocks

  lemma {:induction false} JoinConcat(a: seq<string>, b: seq<string>)
    requires a != [] && b != []
    ensures JoinLines(a + b) == JoinLines(a) + "\n" + JoinLines(b)
  {
    assert (a + b)[0] == a[0];
    if |a| == 1 {
      assert (a + b)[1..] == b;
    } else {
      JoinConcat(a[1..], b);
      assert (a + b)[1..] == a[1..] + b;
    }
  }

  lemma {:induction false} FlattenConcat(a: seq<Block>, b: seq<Block>)
    ensures Flatten(a + b) == Flatten(a) + Flatten(b)
  {
    if b == [] {
      assert a + b == a;
    } else {
      var n := |b| - 1;
      FlattenConcat(a, b[..n]);
      assert (a + b)[..|a + b| - 1] == a + b[..n];
    }
  }

  lemma FlattenAround(blocks: seq<Block>, i: nat)
    requires i < |blocks|
    ensures Flatten(blocks) == Flatten(blocks[..i]) + (blocks[i].lines + Flatten(blocks[i + 1..]))
  {
    FlattenOne(blocks[i]);
    SplitAround(blocks, i);
    hide Flatten;
    FlattenThree(blocks[..i], [blocks[i]], blocks[i + 1..]);
  }

  lemma SplitAround(blocks: seq<Block>, i: nat)
    requires i < |blocks|
    ensures blocks == blocks[..i] + ([blocks[i]] + blocks[i + 1..])
  {
  }

  lemma FlattenThree(a: seq<Block>, b: seq<Block>, c: seq<Block>)
    ensures Flatten(a + (b + c)) == Flatten(a) + (Flatten(b) + Flatten(c))
  {
    FlattenConcat(a, b + c);
    FlattenConcat(b, c);
    hide Flatten;
  }

  lemma FlattenOne(block: Block)
    ensures Flatten([block]) == block.lines
  {
    assert [block][..0] == [] && Flatten([]) == [];
  }

  lemma LinesAround(repositoryLine: string, blocks: seq<Block>, degraded: Option<DegradedReason>, i: nat)
    requires i < |blocks|
    ensures PackLines(repositoryLine, blocks, degraded)
         == (Top(repositoryLine) + Flatten(blocks[..i])) + (blocks[i].lines + (Flatten(blocks[i + 1..]) + Tail(degraded)))
  {
    FlattenAround(blocks, i);
    hide Flatten;
  }

  /** The lines of every block stand in the rendered text, together and in order. */
  lemma BlockIsInText(repositoryLine: string, blocks: seq<Block>, degraded: Option<DegradedReason>, i: nat)
      returns (before: string, after: string)
    requires i < |blocks| && blocks[i].lines != []
    ensures RenderPack(repositoryLine, blocks, degraded) == before + "\n" + JoinLines(blocks[i].lines) + "\n" + after
  {
    var lines := blocks[i].lines;
    var pre, post := Top(repositoryLine) + Flatten(blocks[..i]), Flatten(blocks[i + 1..]) + Tail(degraded);
    RenderLength(repositoryLine, blocks, degraded);
    LinesAround(repositoryLine, blocks, degraded, i);
    hide Flatten, JoinLines, RenderPack, PackLines;
    JoinConcat(pre, lines + post);
    JoinConcat(lines, post);
    before, after := JoinLines(pre), JoinLines(post);
  }

  /** Between the header with the repository line and the footer stand the blocks' lines and the degraded notice. */
  lemma TextIsFramed(repositoryLine: string, blocks: seq<Block>, degraded: Option<DegradedReason>)
    ensures RenderPack(repositoryLine, blocks, degraded) ==
              "oboete memory context\n" + repositoryLine + "\n"
              + ((if Flatten(blocks) == [] then "" else JoinLines(Flatten(blocks)) + "\n")
                 + ((if degraded.Some? then "> degraded: " + degraded.value.sentence + "\n" else "")
                    + "end of oboete memory context"))
  {
    var top, middle, tail := Top(repositoryLine), Flatten(blocks), Tail(degraded);
    RenderLength(repositoryLine, blocks, degraded);
    assert PackLines(repositoryLine, blocks, degraded) == top + (middle + tail);
    TailJoins(degraded);
    TopJoins(repositoryLine);
    hide RenderPack, Flatten, PackLines, Top, Tail, JoinLines;
    JoinConcat(top, middle + tail);
    if middle == [] {
      assert middle + tail == tail;
    } else {
      JoinConcat(middle, tail);
    }
  }

  lemma TopJoins(repositoryLine: string)
    ensures JoinLines(Top(repositoryLine)) + "\n" == "oboete memory context\n" + repositoryLine + "\n"
  {
    JoinConcat([HEADER], [repositoryLine]);
    assert Top(repositoryLine) == [HEADER] + [repositoryLine];
  }

  lemma TailJoins(degraded: Option<DegradedReason>)
    ensures JoinLines(Tail(degraded)) ==
              (if degraded.Some? then "> degraded: " + degraded.value.sentence + "\n" else "") + "end of oboete memory context"
  {
    if degraded.Some? {
      JoinConcat(["> degraded: " + degraded.value.sentence], [FOOTER]);
    }
  }
}
