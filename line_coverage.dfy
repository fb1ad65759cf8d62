/** Line coverage: getOverallCoverage and the LineMissed/LineCovered figures
    derived from it. */
module LineCoverage {
  import opened Profiles

  /** Total number of statements in a sequence of blocks. */
  function StmtsOf(blocks: seq<ProfileBlock>): int {
    if blocks == [] then 0
    else StmtsOf(blocks[..|blocks| - 1]) + blocks[|blocks| - 1].numStmt
  }

  /** Number of statements in the blocks that were executed at least once. */
  function CoveredStmtsOf(blocks: seq<ProfileBlock>): int {
    if blocks == [] then 0
    else CoveredStmtsOf(blocks[..|blocks| - 1])
         + (if blocks[|blocks| - 1].count > 0 then blocks[|blocks| - 1].numStmt else 0)
  }

  /** The blocks that were executed, in their original order. */
  function Executed(blocks: seq<ProfileBlock>): (r: seq<ProfileBlock>)
    ensures forall i :: 0 <= i < |r| ==> r[i].count > 0
    ensures forall b :: b in r <==> b in blocks && b.count > 0
  {
    if blocks == [] then []
    else Executed(blocks[..|blocks| - 1])
         + (if blocks[|blocks| - 1].count > 0 then [blocks[|blocks| - 1]] else [])
  }

  /** The blocks that were never executed, in their original order. */
  function Unexecuted(blocks: seq<ProfileBlock>): (r: seq<ProfileBlock>)
    ensures forall i :: 0 <= i < |r| ==> r[i].count <= 0
    ensures forall b :: b in r <==> b in blocks && b.count <= 0
  {
    if blocks == [] then []
    else Unexecuted(blocks[..|blocks| - 1])
         + (if blocks[|blocks| - 1].count > 0 then [] else [blocks[|blocks| - 1]])
  }

  /** Statements over all blocks of all profiles. */
  function TotalStmts(profiles: seq<Profile>): int {
    if profiles == [] then 0
    else TotalStmts(profiles[..|profiles| - 1]) + StmtsOf(profiles[|profiles| - 1].blocks)
  }

  /** Executed statements over all blocks of all profiles. */
  function CoveredStmts(profiles: seq<Profile>): int {
    if profiles == [] then 0
    else CoveredStmts(profiles[..|profiles| - 1]) + CoveredStmtsOf(profiles[|profiles| - 1].blocks)
  }

  /** Never-executed statements over all blocks of all profiles. */
  function MissedStmts(profiles: seq<Profile>): int {
    if profiles == [] then 0
    else MissedStmts(profiles[..|profiles| - 1]) + StmtsOf(Unexecuted(profiles[|profiles| - 1].blocks))
  }

  /** getOverallCoverage: two nested accumulator loops over every block of every profile. */
  method GetOverallCoverage(profiles: seq<Profile>) returns (total: int, covered: int)
    ensures total == TotalStmts(profiles)
    ensures covered == CoveredStmts(profiles)
    ensures AllNonNegativeStmts(profiles) ==> 0 <= covered <= total
    ensures total - covered == MissedStmts(profiles)
  {
    total, covered := 0, 0;
    for i := 0 to |profiles|
      invariant total == TotalStmts(profiles[..i])
      invariant covered == CoveredStmts(profiles[..i])
    {
      var blocks := profiles[i].blocks;
      for j := 0 to |blocks|
        invariant total == TotalStmts(profiles[..i]) + StmtsOf(blocks[..j])
        invariant covered == CoveredStmts(profiles[..i]) + CoveredStmtsOf(blocks[..j])
      {
        assert blocks[..j + 1][..j] == blocks[..j];
        total := total + blocks[j].numStmt;
        if blocks[j].count > 0 {
          covered := covered + blocks[j].numStmt;
        }
      }
      assert blocks[..|blocks|] == blocks;
      assert profiles[..i + 1][..i] == profiles[..i];
    }
    assert profiles[..|profiles|] == profiles;
    if AllNonNegativeStmts(profiles) {
      CoveredAtMostTotal(profiles);
    }
    MissedIsUnexecutedTotal(profiles);
  }

  /** Summing statements distributes over concatenation. */
  lemma {:induction false} StmtsOfAppend(a: seq<ProfileBlock>, b: seq<ProfileBlock>)
    ensures StmtsOf(a + b) == StmtsOf(a) + StmtsOf(b)
    ensures CoveredStmtsOf(a + b) == CoveredStmtsOf(a) + CoveredStmtsOf(b)
    decreases |b|
  {
    if b != [] {
      var b' := b[..|b| - 1];
      assert (a + b)[..|a + b| - 1] == a + b';
      assert (a + b)[|a + b| - 1] == b[|b| - 1];
      StmtsOfAppend(a, b');
    } else {
      assert a + b == a;
    }
  }

  /** The covered count of one profile is the statement total of its executed
      blocks, and the statements of the executed and the unexecuted blocks add
      up to the profile's total: a block with Count == 0 never adds to covered. */
  lemma {:induction false} LineSplit(blocks: seq<ProfileBlock>)
    ensures CoveredStmtsOf(blocks) == StmtsOf(Executed(blocks))
    ensures StmtsOf(blocks) == StmtsOf(Executed(blocks)) + StmtsOf(Unexecuted(blocks))
    ensures CoveredStmtsOf(Unexecuted(blocks)) == 0
  {
    if blocks != [] {
      var init, last := blocks[..|blocks| - 1], blocks[|blocks| - 1];
      LineSplit(init);
      if last.count > 0 {
        assert Executed(blocks) == Executed(init) + [last];
        assert Unexecuted(blocks) == Unexecuted(init);
        StmtsOfAppend(Executed(init), [last]);
      } else {
        assert Executed(blocks) == Executed(init);
        assert Unexecuted(blocks) == Unexecuted(init) + [last];
        StmtsOfAppend(Unexecuted(init), [last]);
      }
    }
  }

  /** With non-negative statement numbers, a profile's covered count lies between 0 and its total. */
  lemma {:induction false} CoveredStmtsOfBounds(blocks: seq<ProfileBlock>)
    requires NonNegativeStmts(blocks)
    ensures 0 <= CoveredStmtsOf(blocks) <= StmtsOf(blocks)
  {
    if blocks != [] {
      CoveredStmtsOfBounds(blocks[..|blocks| - 1]);
    }
  }

  /** With non-negative statement numbers, 0 <= covered <= total over all profiles. */
  lemma {:induction false} CoveredAtMostTotal(profiles: seq<Profile>)
    requires AllNonNegativeStmts(profiles)
    ensures 0 <= CoveredStmts(profiles) <= TotalStmts(profiles)
  {
    if profiles != [] {
      var init := profiles[..|profiles| - 1];
      assert AllNonNegativeStmts(init) by {
        forall i | 0 <= i < |init| ensures NonNegativeStmts(init[i].blocks) {
          assert init[i] == profiles[i];
        }
      }
      CoveredAtMostTotal(init);
      assert NonNegativeStmts(profiles[|profiles| - 1].blocks);
      CoveredStmtsOfBounds(profiles[|profiles| - 1].blocks);
    }
  }

  /** LineMissed = total - covered is exactly the statements of the unexecuted blocks. */
  lemma {:induction false} MissedIsUnexecutedTotal(profiles: seq<Profile>)
    ensures TotalStmts(profiles) - CoveredStmts(profiles) == MissedStmts(profiles)
  {
    if profiles != [] {
      MissedIsUnexecutedTotal(profiles[..|profiles| - 1]);
      LineSplit(profiles[|profiles| - 1].blocks);
    }
  }

  /** Totals over a concatenation of profile lists add up, so partial aggregates
      of separate profile groups can be merged. */
  lemma {:induction false} TotalsAppend(a: seq<Profile>, b: seq<Profile>)
    ensures TotalStmts(a + b) == TotalStmts(a) + TotalStmts(b)
    ensures CoveredStmts(a + b) == CoveredStmts(a) + CoveredStmts(b)
    decreases |b|
  {
    if b != [] {
      var b' := b[..|b| - 1];
      assert (a + b)[..|a + b| - 1] == a + b';
      assert (a + b)[|a + b| - 1] == b[|b| - 1];
      TotalsAppend(a, b');
    } else {
      assert a + b == a;
    }
  }
}
