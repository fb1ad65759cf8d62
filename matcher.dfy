/** The per-function matcher FuncExtent.coverage: which profile blocks are
    credited to a function, and why its early exit is sound on sorted input. */
module Matcher {
  import opened Profiles
  import opened LineCoverage

  /** A function's extent in its source file, as go/token reports the
      declaration's Pos() and End(). */
  datatype FuncExtent = FuncExtent(name: string, startLine: int, startCol: int, endLine: int, endCol: int)
  {
    function Start(): Position { Position(startLine, startCol) }
    function End(): Position { Position(endLine, endCol) }

    /** FuncExtent.coverage: the number of executed statements in blocks that
        overlap this function, scanning the profile's blocks in order and
        stopping at the first block that starts at or past the function's end. */
    method Coverage(profile: Profile) returns (num: int)
      ensures num == OverlapSum(this, profile.blocks[..ScanEnd(this, profile.blocks)])
      ensures SortedByStart(profile.blocks) ==> num == OverlapSum(this, profile.blocks)
      ensures NonNegativeStmts(profile.blocks) ==> 0 <= num <= CoveredStmtsOf(profile.blocks)
    {
      var blocks := profile.blocks;
      var covered := 0;
      var i := 0;
      while i < |blocks|
        invariant i <= ScanEnd(this, blocks)
        invariant covered == OverlapSum(this, blocks[..i])
      {
        var b := blocks[i];
        assert blocks[..i + 1][..i] == blocks[..i];
        if PastEnd(b, this) {
          break;
        }
        if BeforeStart(b, this) {
          i := i + 1;
          continue;
        }
        if b.count > 0 {
          covered := covered + b.numStmt;
        }
        i := i + 1;
      }
      assert i == ScanEnd(this, blocks);
      num := covered;
      if SortedByStart(blocks) {
        ScanSoundWhenSorted(this, blocks);
      }
      if NonNegativeStmts(blocks) {
        ScanResultBounds(this, blocks);
      }
    }
  }

  /** The block starts at or after the function's end: (line, col) comparison
      in which equality counts as past the end. */
  predicate PastEnd(b: ProfileBlock, f: FuncExtent) {
    b.startLine > f.endLine || (b.startLine == f.endLine && b.startCol >= f.endCol)
  }

  /** The block ends at or before the function's start: equality counts as before. */
  predicate BeforeStart(b: ProfileBlock, f: FuncExtent) {
    b.endLine < f.startLine || (b.endLine == f.startLine && b.endCol <= f.startCol)
  }

  /** The block shares part of the function's span. */
  predicate Overlaps(b: ProfileBlock, f: FuncExtent) {
    !PastEnd(b, f) && !BeforeStart(b, f)
  }

  /** What one block adds to a function's covered statements. */
  function Contribution(f: FuncExtent, b: ProfileBlock): int {
    if Overlaps(b, f) && b.count > 0 then b.numStmt else 0
  }

  /** The reference definition: executed statements of every overlapping block,
      wherever it occurs in the sequence. */
  function OverlapSum(f: FuncExtent, blocks: seq<ProfileBlock>): int {
    if blocks == [] then 0
    else OverlapSum(f, blocks[..|blocks| - 1]) + Contribution(f, blocks[|blocks| - 1])
  }

  /** Where the scan stops: the index of the first block past the function's end,
      or the number of blocks when there is none. */
  function ScanEnd(f: FuncExtent, blocks: seq<ProfileBlock>): (k: nat)
    ensures k <= |blocks|
    ensures forall j :: 0 <= j < k ==> !PastEnd(blocks[j], f)
    ensures k < |blocks| ==> PastEnd(blocks[k], f)
  {
    if blocks == [] || PastEnd(blocks[0], f) then 0
    else 1 + ScanEnd(f, blocks[1..])
  }

  /** What the matcher returns for `f` on `blocks`. */
  function ScanResult(f: FuncExtent, blocks: seq<ProfileBlock>): int {
    OverlapSum(f, blocks[..ScanEnd(f, blocks)])
  }

  /** The two skip tests are the lexicographic comparisons of positions. */
  lemma {:induction false} BoundaryTestsAreLexicographic(b: ProfileBlock, f: FuncExtent)
    ensures PastEnd(b, f) <==> PosLe(f.End(), b.Start())
    ensures BeforeStart(b, f) <==> PosLe(b.End(), f.Start())
  {
  }

  lemma {:induction false} OverlapSumAppend(f: FuncExtent, a: seq<ProfileBlock>, b: seq<ProfileBlock>)
    ensures OverlapSum(f, a + b) == OverlapSum(f, a) + OverlapSum(f, b)
    decreases |b|
  {
    if b != [] {
      var b' := b[..|b| - 1];
      assert (a + b)[..|a + b| - 1] == a + b';
      assert (a + b)[|a + b| - 1] == b[|b| - 1];
      OverlapSumAppend(f, a, b');
    } else {
      assert a + b == a;
    }
  }

  /** Blocks that all lie past the function's end add nothing. */
  lemma {:induction false} OverlapSumAllPastEnd(f: FuncExtent, blocks: seq<ProfileBlock>)
    requires forall j :: 0 <= j < |blocks| ==> PastEnd(blocks[j], f)
    ensures OverlapSum(f, blocks) == 0
  {
    if blocks != [] {
      OverlapSumAllPastEnd(f, blocks[..|blocks| - 1]);
    }
  }

  /** The early break is sound: on blocks sorted by start, the scan's result is
      the plain filtered sum over all blocks. */
  lemma {:induction false} ScanSoundWhenSorted(f: FuncExtent, blocks: seq<ProfileBlock>)
    requires SortedByStart(blocks)
    ensures ScanResult(f, blocks) == OverlapSum(f, blocks)
  {
    var k := ScanEnd(f, blocks);
    if k == |blocks| {
      assert blocks[..k] == blocks;
    } else {
      var rest := blocks[k..];
      forall j | 0 <= j < |rest| ensures PastEnd(rest[j], f) {
        assert rest[j] == blocks[k + j];
        assert PosLe(blocks[k].Start(), blocks[k + j].Start()) || j == 0;
      }
      OverlapSumAllPastEnd(f, rest);
      assert blocks == blocks[..k] + rest;
      OverlapSumAppend(f, blocks[..k], rest);
    }
  }

  /** With non-negative statement numbers, the function's overlap sum lies
      between 0 and the profile's covered count. */
  lemma {:induction false} OverlapSumBounds(f: FuncExtent, blocks: seq<ProfileBlock>)
    requires NonNegativeStmts(blocks)
    ensures 0 <= OverlapSum(f, blocks) <= CoveredStmtsOf(blocks)
  {
    if blocks != [] {
      OverlapSumBounds(f, blocks[..|blocks| - 1]);
    }
  }

  /** With non-negative statement numbers, the matcher's result lies between 0
      and the profile's covered count, sorted or not. */
  lemma {:induction false} ScanResultBounds(f: FuncExtent, blocks: seq<ProfileBlock>)
    requires NonNegativeStmts(blocks)
    ensures 0 <= ScanResult(f, blocks) <= CoveredStmtsOf(blocks)
  {
    var k := ScanEnd(f, blocks);
    var pre, post := blocks[..k], blocks[k..];
    assert blocks == pre + post;
    assert NonNegativeStmts(pre) by {
      forall j | 0 <= j < |pre| ensures pre[j].numStmt >= 0 {
        assert pre[j] == blocks[j];
      }
    }
    assert NonNegativeStmts(post) by {
      forall j | 0 <= j < |post| ensures post[j].numStmt >= 0 {
        assert post[j] == blocks[k + j];
      }
    }
    OverlapSumBounds(f, pre);
    CoveredStmtsOfBounds(post);
    StmtsOfAppend(pre, post);
  }

  /** One step of the scan: a past-the-end first block stops it, any other
      first block adds its contribution and the scan goes on. */
  lemma {:induction false} ScanResultCons(f: FuncExtent, b: ProfileBlock, c: seq<ProfileBlock>)
    ensures ScanResult(f, [b] + c) == if PastEnd(b, f) then 0 else Contribution(f, b) + ScanResult(f, c)
  {
    var s := [b] + c;
    if !PastEnd(b, f) {
      assert s[1..] == c;
      var k := ScanEnd(f, c);
      assert s[..ScanEnd(f, s)] == [b] + c[..k];
      OverlapSumAppend(f, [b], c[..k]);
      assert OverlapSum(f, [b]) == Contribution(f, b) by {
        assert [b][..0] == [];
      }
    }
  }

  /** A run of blocks none of which is past the end is summed in full before
      the scan goes on. */
  lemma {:induction false} ScanResultAppend(f: FuncExtent, a: seq<ProfileBlock>, c: seq<ProfileBlock>)
    requires forall j :: 0 <= j < |a| ==> !PastEnd(a[j], f)
    ensures ScanResult(f, a + c) == OverlapSum(f, a) + ScanResult(f, c)
    decreases |a|
  {
    if a == [] {
      assert a + c == c;
    } else {
      var t := a[1..];
      assert a + c == [a[0]] + (t + c);
      ScanResultCons(f, a[0], t + c);
      ScanResultAppend(f, t, c);
      assert a == [a[0]] + t;
      OverlapSumAppend(f, [a[0]], t);
      assert OverlapSum(f, [a[0]]) == Contribution(f, a[0]) by {
        assert [a[0]][..0] == [];
      }
    }
  }

  /** Once some block of `a` is past the end, nothing after `a` matters. */
  lemma {:induction false} ScanResultStops(f: FuncExtent, a: seq<ProfileBlock>, c: seq<ProfileBlock>)
    requires ScanEnd(f, a) < |a|
    ensures ScanResult(f, a + c) == ScanResult(f, a)
  {
    var k := ScanEnd(f, a);
    assert forall j :: 0 <= j <= k ==> (a + c)[j] == a[j];
    assert ScanEnd(f, a + c) == k;
    assert (a + c)[..k] == a[..k];
  }

  /** A block that does not stop the scan and contributes nothing can be removed. */
  lemma {:induction false} ScanIgnoresInertBlock(f: FuncExtent, a: seq<ProfileBlock>, b: ProfileBlock, c: seq<ProfileBlock>)
    requires !PastEnd(b, f) && Contribution(f, b) == 0
    ensures ScanResult(f, a + [b] + c) == ScanResult(f, a + c)
  {
    assert a + [b] + c == a + ([b] + c);
    if ScanEnd(f, a) < |a| {
      ScanResultStops(f, a, [b] + c);
      ScanResultStops(f, a, c);
    } else {
      ScanResultAppend(f, a, [b] + c);
      ScanResultAppend(f, a, c);
      ScanResultCons(f, b, c);
    }
  }

  /** A block with Count <= 0 never adds to a function's covered statements. */
  lemma {:induction false} ZeroCountBlockIgnored(f: FuncExtent, a: seq<ProfileBlock>, b: ProfileBlock, c: seq<ProfileBlock>)
    requires b.count <= 0 && !PastEnd(b, f)
    ensures ScanResult(f, a + [b] + c) == ScanResult(f, a + c)
  {
    ScanIgnoresInertBlock(f, a, b, c);
  }

  /** A block ending at or before the function's start is skipped: it adds nothing. */
  lemma {:induction false} BeforeStartBlockIgnored(f: FuncExtent, a: seq<ProfileBlock>, b: ProfileBlock, c: seq<ProfileBlock>)
    requires BeforeStart(b, f) && !PastEnd(b, f)
    ensures ScanResult(f, a + [b] + c) == ScanResult(f, a + c)
  {
    ScanIgnoresInertBlock(f, a, b, c);
  }

  /** Once the scan meets a block starting at or past the function's end,
      no later block contributes. */
  lemma {:induction false} PastEndBlockStopsScan(f: FuncExtent, a: seq<ProfileBlock>, b: ProfileBlock, c: seq<ProfileBlock>)
    requires PastEnd(b, f)
    ensures ScanResult(f, a + [b] + c) == ScanResult(f, a)
  {
    assert a + [b] + c == a + ([b] + c);
    if ScanEnd(f, a) < |a| {
      ScanResultStops(f, a, [b] + c);
    } else {
      ScanResultAppend(f, a, [b] + c);
      ScanResultCons(f, b, c);
      assert a[..|a|] == a;
    }
  }

  /** A reached block that overlaps the function, even partially, adds its
      statements exactly when it was executed. */
  lemma {:induction false} OverlappingBlockCounted(f: FuncExtent, a: seq<ProfileBlock>, b: ProfileBlock, c: seq<ProfileBlock>)
    requires forall j :: 0 <= j < |a| ==> !PastEnd(a[j], f)
    requires Overlaps(b, f)
    ensures ScanResult(f, a + [b] + c)
         == OverlapSum(f, a) + (if b.count > 0 then b.numStmt else 0) + ScanResult(f, c)
  {
    assert a + [b] + c == a + ([b] + c);
    ScanResultAppend(f, a, [b] + c);
    ScanResultCons(f, b, c);
  }

  /** With non-negative statement numbers, the overlap sum is positive exactly
      when some overlapping block was executed and holds a statement. */
  lemma {:induction false} OverlapSumPositiveIff(f: FuncExtent, blocks: seq<ProfileBlock>)
    requires NonNegativeStmts(blocks)
    ensures OverlapSum(f, blocks) > 0 <==>
      exists i :: 0 <= i < |blocks| && Overlaps(blocks[i], f) && blocks[i].count > 0 && blocks[i].numStmt > 0
  {
    if blocks != [] {
      var init := blocks[..|blocks| - 1];
      assert NonNegativeStmts(init) by {
        forall j | 0 <= j < |init| ensures init[j].numStmt >= 0 {
          assert init[j] == blocks[j];
        }
      }
      OverlapSumPositiveIff(f, init);
      OverlapSumBounds(f, init);
      if exists i :: 0 <= i < |init| && Overlaps(init[i], f) && init[i].count > 0 && init[i].numStmt > 0 {
        var i :| 0 <= i < |init| && Overlaps(init[i], f) && init[i].count > 0 && init[i].numStmt > 0;
        assert blocks[i] == init[i];
      }
      if exists i :: 0 <= i < |blocks| && Overlaps(blocks[i], f) && blocks[i].count > 0 && blocks[i].numStmt > 0 {
        var i :| 0 <= i < |blocks| && Overlaps(blocks[i], f) && blocks[i].count > 0 && blocks[i].numStmt > 0;
        if i < |init| {
          assert init[i] == blocks[i];
        }
      }
    }
  }

  /** On sorted blocks with non-negative statement numbers, a function has a
      positive covered count exactly when an executed block holding a statement
      overlaps it. */
  lemma {:induction false} CoveredIffExecutedOverlap(f: FuncExtent, blocks: seq<ProfileBlock>)
    requires SortedByStart(blocks) && NonNegativeStmts(blocks)
    ensures ScanResult(f, blocks) > 0 <==>
      exists i :: 0 <= i < |blocks| && Overlaps(blocks[i], f) && blocks[i].count > 0 && blocks[i].numStmt > 0
  {
    ScanSoundWhenSorted(f, blocks);
    OverlapSumPositiveIff(f, blocks);
  }

  /** The early exit relies on sorted input: here a block past the function's
      end comes first and hides an executed block inside the function. */
  lemma {:induction false} UnsortedBlocksUndercount()
    ensures var f := FuncExtent("g", 5, 1, 7, 2);
            var blocks := [ProfileBlock(9, 13, 11, 2, 1, 1), ProfileBlock(5, 10, 7, 2, 2, 1)];
            !SortedByStart(blocks) && ScanResult(f, blocks) == 0 && OverlapSum(f, blocks) == 2
  {
    var f := FuncExtent("g", 5, 1, 7, 2);
    var blocks := [ProfileBlock(9, 13, 11, 2, 1, 1), ProfileBlock(5, 10, 7, 2, 2, 1)];
    assert blocks[..1] == [blocks[0]];
    assert blocks[..1][..0] == [];
    assert !PosLe(blocks[0].Start(), blocks[1].Start());
  }
}
