/** What hunks say, told by their tagged lines and not by computed blocks. */
module HunkMeaning {
  import opened Wrappers
  import opened Hunks
  import opened Sequences

  predicate Points(block: Block, h: Hunk, tag: Tag, f: seq<nat>) {
    |f| == |block| && forall k :: 0 <= k < |f| ==> f[k] < |h| && h[f[k]].tag != tag && block[k] == h[f[k]].text
  }

  predicate Misses(h: Hunk, tag: Tag, f: seq<nat>, i: nat) {
    i < |h| && h[i].tag != tag && i !in f
  }

  /** The indices pick, in order, exactly the lines of the hunk that do not have
    the tag, and the block holds their texts. */
  ghost predicate Picks(block: Block, h: Hunk, tag: Tag, f: seq<nat>) {
    Increasing(f) && Points(block, h, tag, f) && forall i :: !Misses(h, tag, f, i)
  }

  /** The block is the hunk without the lines of one tag. */
  ghost predicate AllBut(block: Block, h: Hunk, tag: Tag) {
    exists f :: Picks(block, h, tag, f)
  }

  function Shifted(g: seq<nat>): (f: seq<nat>)
    ensures |f| == |g| && forall k :: 0 <= k < |g| ==> f[k] == g[k] + 1
  {
    seq(|g|, k requires 0 <= k < |g| => g[k] + 1)
  }

  lemma MissesNext(h: Hunk, tag: Tag, g: seq<nat>, i: nat)
    requires h != []
    ensures Misses(h[1..], tag, g, i) <==> Misses(h, tag, Shifted(g), i + 1)
  {
    if i in g {
      var k :| 0 <= k < |g| && g[k] == i;
      assert Shifted(g)[k] == i + 1;
    }
    if i + 1 in Shifted(g) {
      var k :| 0 <= k < |g| && Shifted(g)[k] == i + 1;
      assert g[k] == i;
    }
  }

  /** A first line with the tag is skipped. */
  lemma PicksSkip(block: Block, h: Hunk, tag: Tag, g: seq<nat>)
    requires h != [] && h[0].tag == tag
    ensures Picks(block, h[1..], tag, g) <==> Picks(block, h, tag, Shifted(g))
  {
    forall i: nat ensures Misses(h[1..], tag, g, i) <==> Misses(h, tag, Shifted(g), i + 1) {
      MissesNext(h, tag, g, i);
    }
    if Picks(block, h, tag, Shifted(g)) {
      forall i: nat ensures !Misses(h[1..], tag, g, i) {
        assert !Misses(h, tag, Shifted(g), i + 1);
      }
    }
    if Picks(block, h[1..], tag, g) {
      forall i: nat ensures !Misses(h, tag, Shifted(g), i) {
        if i > 0 { assert !Misses(h[1..], tag, g, i - 1); }
      }
    }
  }

  /** A first line without the tag is taken. */
  lemma PicksTake(block: Block, h: Hunk, tag: Tag, g: seq<nat>)
    requires h != [] && h[0].tag != tag
    ensures Picks(block, h[1..], tag, g) <==> Picks([h[0].text] + block, h, tag, [0] + Shifted(g))
  {
    var f, all := [0] + Shifted(g), [h[0].text] + block;
    assert f[1..] == Shifted(g);
    forall i: nat ensures Misses(h[1..], tag, g, i) <==> Misses(h, tag, f, i + 1) {
      MissesNext(h, tag, g, i);
      assert i + 1 in f <==> i + 1 in Shifted(g);
    }
    TakePoints(block, h, tag, g);
    TakeIncreasing(g);
    assert f[0] == 0 && 0 in f;
    if Picks(all, h, tag, f) {
      forall i: nat ensures !Misses(h[1..], tag, g, i) {
        assert !Misses(h, tag, f, i + 1);
      }
    }
    if Picks(block, h[1..], tag, g) {
      forall i: nat ensures !Misses(h, tag, f, i) {
        if i > 0 { assert !Misses(h[1..], tag, g, i - 1); }
      }
    }
  }

  lemma TakePoints(block: Block, h: Hunk, tag: Tag, g: seq<nat>)
    requires h != [] && h[0].tag != tag
    ensures Points(block, h[1..], tag, g) <==> Points([h[0].text] + block, h, tag, [0] + Shifted(g))
  {
    var f, all := [0] + Shifted(g), [h[0].text] + block;
    if Points(all, h, tag, f) {
      forall k | 0 <= k < |g| ensures g[k] < |h[1..]| && h[1..][g[k]].tag != tag && block[k] == h[1..][g[k]].text {
        assert f[k + 1] == g[k] + 1 && all[k + 1] == block[k];
      }
    }
  }

  lemma TakeIncreasing(g: seq<nat>)
    ensures Increasing(g) <==> Increasing([0] + Shifted(g))
  {
    var f := [0] + Shifted(g);
    if Increasing(f) {
      forall j, k | 0 <= j < k < |g| ensures g[j] < g[k] {
        assert f[j + 1] < f[k + 1];
      }
    }
  }

  lemma {:induction false} WithoutPicks(h: Hunk, tag: Tag) returns (f: seq<nat>)
    ensures Picks(Without(h, tag), h, tag, f)
  {
    hide Picks;
    if h == [] {
      f := [];
      NothingPicked(tag);
    } else {
      var g := WithoutPicks(h[1..], tag);
      if h[0].tag == tag {
        f := Shifted(g);
        assert Without(h, tag) == Without(h[1..], tag);
        PicksSkip(Without(h[1..], tag), h, tag, g);
      } else {
        f := [0] + Shifted(g);
        PicksTake(Without(h[1..], tag), h, tag, g);
      }
    }
  }

  lemma NothingPicked(tag: Tag)
    ensures Picks([], [], tag, [])
  {
  }

  function Lowered(f: seq<nat>): (g: seq<nat>)
    requires forall k :: 0 <= k < |f| ==> f[k] > 0
    ensures Shifted(g) == f
  {
    seq(|f|, k requires 0 <= k < |f| => f[k] - 1)
  }

  /** Only one block is the hunk without the tag. */
  lemma {:induction false} PicksIsWithout(block: Block, h: Hunk, tag: Tag, f: seq<nat>)
    requires Picks(block, h, tag, f)
    ensures block == Without(h, tag)
  {
    if h != [] {
      if h[0].tag == tag {
        assert forall k :: 0 <= k < |f| ==> f[k] > 0;
        PicksSkip(block, h, tag, Lowered(f));
        PicksIsWithout(block, h[1..], tag, Lowered(f));
      } else {
        assert !Misses(h, tag, f, 0);
        assert f[0] == 0;
        assert f == [0] + f[1..] && block == [h[0].text] + block[1..];
        PicksTake(block[1..], h, tag, Lowered(f[1..]));
        PicksIsWithout(block[1..], h[1..], tag, Lowered(f[1..]));
      }
    }
  }

  /** The expected block is the hunk without its insertions, the replacement the
    hunk without its removals; nothing else is. */
  lemma WithoutMeans(block: Block, h: Hunk, tag: Tag)
    ensures block == Without(h, tag) <==> AllBut(block, h, tag)
  {
    if block == Without(h, tag) {
      var f := WithoutPicks(h, tag);
    }
    if f :| Picks(block, h, tag, f) {
      PicksIsWithout(block, h, tag, f);
    }
  }

  ghost predicate AllButEach(blocks: seq<Block>, hunks: seq<Hunk>, tag: Tag) {
    |blocks| == |hunks| && forall k :: 0 <= k < |hunks| ==> AllBut(blocks[k], hunks[k], tag)
  }

  /** The lines are gaps around the old blocks, each old block the only match in
    what the earlier ones leave, and the result has the new blocks in their place. */
  ghost predicate Replaced(original: Block, hunks: seq<Hunk>, result: Block,
                           gaps: seq<Block>, olds: seq<Block>, news: seq<Block>, tail: Block) {
    && |gaps| == |hunks| && AllButEach(olds, hunks, Insert) && AllButEach(news, hunks, Remove)
    && original == Splice(gaps, olds, tail) && result == Splice(gaps, news, tail)
    && forall k :: 0 <= k < |hunks| ==> OnlyMatch(Splice(gaps[k..], olds[k..], tail), olds[k], |gaps[k]|)
  }

  ghost predicate Patches(original: Block, hunks: seq<Hunk>, result: Block) {
    exists gaps, olds, news, tail :: Replaced(original, hunks, result, gaps, olds, news, tail)
  }

  lemma EachIsBlocks(blocks: seq<Block>, hunks: seq<Hunk>, tag: Tag)
    ensures AllButEach(blocks, hunks, tag) <==> blocks == Blocks(hunks, tag)
  {
    hide Without;
    forall k | 0 <= k < |hunks| && |blocks| == |hunks|
      ensures AllBut(blocks[k], hunks[k], tag) <==> blocks[k] == Blocks(hunks, tag)[k]
    {
      WithoutMeans(blocks[k], hunks[k], tag);
    }
  }

  /** Patching in terms of the tagged lines alone: it succeeds with a result if and
    only if the hunks' lines other than insertions are found, each block in one
    place only, and are replaced by the hunks' lines other than removals. */
  lemma PatchMeansReplacing(original: Block, hunks: seq<Hunk>, result: Block)
    ensures Patch(original, hunks, 1) == Success(result) <==> Patches(original, hunks, result)
  {
    hide Without, OnlyMatch, Splice, Patch;
    PatchMeaning(original, hunks, result);
    EachIsBlocks(Blocks(hunks, Insert), hunks, Insert);
    EachIsBlocks(Blocks(hunks, Remove), hunks, Remove);
    if gaps, tail :| Placed(original, hunks, gaps, tail) && result == Splice(gaps, Blocks(hunks, Remove), tail) {
      assert Replaced(original, hunks, result, gaps, Blocks(hunks, Insert), Blocks(hunks, Remove), tail);
    }
    if gaps, olds, news, tail :| Replaced(original, hunks, result, gaps, olds, news, tail) {
      EachIsBlocks(olds, hunks, Insert);
      EachIsBlocks(news, hunks, Remove);
      assert Placed(original, hunks, gaps, tail);
    }
  }
}
