/** Exact hunk application: each hunk's expected lines must match at exactly
  one place after the previous hunk. */
module Hunks {
  import opened Wrappers

  datatype Tag = Context | Insert | Remove

  datatype HunkLine = HunkLine(tag: Tag, text: string)

  type Hunk = seq<HunkLine>
  type Block = seq<string>

  datatype Reason = NotFound | Ambiguous

  datatype Conflict = Conflict(hunk: nat, reason: Reason)

  function Without(h: Hunk, tag: Tag): Block {
    if h == [] then []
    else (if h[0].tag == tag then [] else [h[0].text]) + Without(h[1..], tag)
  }

  function Expected(h: Hunk): Block { Without(h, Insert) }

  function Replacement(h: Hunk): Block { Without(h, Remove) }

  predicate MatchesAt(lines: Block, block: Block, at: int) {
    0 <= at && at + |block| <= |lines| && lines[at..at + |block|] == block
  }

  /** Every place at or after `from` where the block occurs, in order. */
  function Candidates(lines: Block, block: Block, from: nat): (c: seq<nat>)
    ensures forall i {:trigger i in c} :: i in c <==> from <= i && MatchesAt(lines, block, i)
    ensures forall j, k :: 0 <= j < k < |c| ==> c[j] < c[k]
    decreases |lines| - from
  {
    if from + |block| > |lines| then []
    else
      var later := Candidates(lines, block, from + 1);
      assert forall k :: 0 <= k < |later| ==> later[k] in later;
      (if MatchesAt(lines, block, from) then [from] else []) + later
  }

  ghost predicate OnlyMatch(lines: Block, block: Block, at: nat) {
    MatchesAt(lines, block, at) && forall i :: MatchesAt(lines, block, i) ==> i == at
  }

  lemma OneCandidate(lines: Block, block: Block, from: nat, at: nat)
    ensures Candidates(lines, block, from) == [at] <==>
      from <= at && MatchesAt(lines, block, at) && forall i :: from <= i && MatchesAt(lines, block, i) ==> i == at
  {
    hide Candidates, MatchesAt;
    var c := Candidates(lines, block, from);
    if from <= at && MatchesAt(lines, block, at) && forall i :: from <= i && MatchesAt(lines, block, i) ==> i == at {
      assert at in c;
      assert c[|c| - 1] in c && c[0] in c;
    }
    if c == [at] {
      assert at in c;
      forall i | from <= i && MatchesAt(lines, block, i) ensures i == at {
        assert i in c;
      }
    }
  }

  /** Patching what the earlier hunks left over; `number` is the next hunk's number. */
  function Patch(rest: Block, hunks: seq<Hunk>, number: nat): Result<Block, Conflict>
    decreases |hunks|
  {
    if hunks == [] then Success(rest)
    else
      var expected := Expected(hunks[0]);
      var found := Candidates(rest, expected, 0);
      if found == [] then Failure(Conflict(number, NotFound))
      else if |found| != 1 then Failure(Conflict(number, Ambiguous))
      else
        assert found[0] in found;
        Prefixed(rest[..found[0]] + Replacement(hunks[0]),
                 Patch(rest[found[0] + |expected|..], hunks[1..], number + 1))
  }

  function Prefixed(prefix: Block, r: Result<Block, Conflict>): Result<Block, Conflict> {
    if r.Success? then Success(prefix + r.value) else r
  }

  lemma PrefixedByNothing(r: Result<Block, Conflict>)
    ensures Prefixed([], r) == r
  {
    if r.Success? { assert [] + r.value == r.value; }
  }

  lemma CandidatesInSuffix(lines: Block, block: Block, done: nat, from: nat)
    requires done <= |lines|
    ensures var all, suffix := Candidates(lines, block, done + from), Candidates(lines[done..], block, from);
      |all| == |suffix| && forall i :: 0 <= i < |all| ==> all[i] == done + suffix[i]
    decreases |lines| - done - from
  {
    var rest := lines[done..];
    if done + from + |block| <= |lines| {
      assert rest[from..from + |block|] == lines[done + from..done + from + |block|];
      assert MatchesAt(rest, block, from) == MatchesAt(lines, block, done + from);
      hide MatchesAt;
      CandidatesInSuffix(lines, block, done, from + 1);
    }
  }

  lemma PatchStops(lines: Block, done: nat, hunks: seq<Hunk>, number: nat)
    requires done <= |lines| && hunks != []
    requires |Candidates(lines, Expected(hunks[0]), done)| != 1
    ensures Patch(lines[done..], hunks, number)
      == Failure(Conflict(number, if Candidates(lines, Expected(hunks[0]), done) == [] then NotFound else Ambiguous))
  {
    CandidatesInSuffix(lines, Expected(hunks[0]), done, 0);
  }

  function Spliced(lines: Block, index: nat, count: nat, block: Block): Block
    requires index + count <= |lines|
  {
    lines[..index] + block + lines[index + count..]
  }

  lemma PatchSplices(lines: Block, done: nat, hunks: seq<Hunk>, number: nat, index: nat)
    requires done <= |lines| && hunks != []
    requires Candidates(lines, Expected(hunks[0]), done) == [index]
    ensures done <= index && index + |Expected(hunks[0])| <= |lines|
    ensures var next := Spliced(lines, index, |Expected(hunks[0])|, Replacement(hunks[0]));
      var consumed := index + |Replacement(hunks[0])|;
      Prefixed(lines[..done], Patch(lines[done..], hunks, number))
      == Prefixed(next[..consumed], Patch(next[consumed..], hunks[1..], number + 1))
  {
    hide Candidates, Expected, Replacement;
    var expected, replacement := Expected(hunks[0]), Replacement(hunks[0]);
    assert index in Candidates(lines, expected, done);
    CandidatesInSuffix(lines, expected, done, 0);
    var next := Spliced(lines, index, |expected|, replacement);
    SplicedParts(lines, done, index, |expected|, replacement);
    var tail := Patch(lines[index + |expected|..], hunks[1..], number + 1);
    assert Patch(lines[done..], hunks, number)
      == Prefixed(lines[done..][..index - done] + replacement, tail);
    PrefixedTwice(lines[..done], lines[done..][..index - done] + replacement, tail);
  }

  lemma SplicedParts(lines: Block, done: nat, index: nat, count: nat, block: Block)
    requires done <= index && index + count <= |lines|
    ensures var next := Spliced(lines, index, count, block);
      && lines[done..][index - done + count..] == lines[index + count..]
      && next[index + |block|..] == lines[index + count..]
      && next[..index + |block|] == lines[..done] + (lines[done..][..index - done] + block)
  {
  }

  lemma PrefixedTwice(a: Block, b: Block, r: Result<Block, Conflict>)
    ensures Prefixed(a, Prefixed(b, r)) == Prefixed(a + b, r)
  {
    if r.Success? { assert a + (b + r.value) == a + b + r.value; }
  }

  /** The in-place algorithm of the patch engine. */
  method ApplyHunks(document: Block, hunks: seq<Hunk>) returns (r: Result<Block, Conflict>)
    ensures r == Patch(document, hunks, 1)
  {
    hide Candidates, Expected, Replacement, MatchesAt;
    var lines := document;
    var minimum: nat := 0;
    assert lines[0..] == lines && hunks[0..] == hunks;
    PrefixedByNothing(Patch(lines, hunks, 1));
    for k := 0 to |hunks|
      invariant minimum <= |lines|
      invariant Patch(document, hunks, 1) == Prefixed(lines[..minimum], Patch(lines[minimum..], hunks[k..], k + 1))
    {
      var expected := Expected(hunks[k]);
      var replacement := Replacement(hunks[k]);
      var candidates := Candidates(lines, expected, minimum);
      assert hunks[k..][0] == hunks[k] && hunks[k..][1..] == hunks[k + 1..];
      if |candidates| != 1 {
        PatchStops(lines, minimum, hunks[k..], k + 1);
        return Failure(Conflict(k + 1, if |candidates| == 0 then NotFound else Ambiguous));
      }
      var index := candidates[0];
      PatchSplices(lines, minimum, hunks[k..], k + 1, index);
      lines := lines[..index] + replacement + lines[index + |expected|..];
      minimum := index + |replacement|;
    }
    assert hunks[|hunks|..] == [];
    assert lines == lines[..minimum] + lines[minimum..];
    return Success(lines);
  }

  /** Gaps of untouched lines alternating with one block per hunk. */
  function Splice(gaps: seq<Block>, blocks: seq<Block>, tail: Block): Block
    requires |gaps| == |blocks|
  {
    if gaps == [] then tail else gaps[0] + blocks[0] + Splice(gaps[1..], blocks[1..], tail)
  }

  function Blocks(hunks: seq<Hunk>, tag: Tag): (b: seq<Block>)
    ensures |b| == |hunks|
  {
    seq(|hunks|, i requires 0 <= i < |hunks| => Without(hunks[i], tag))
  }

  /** The original cut into gaps and expected blocks, each block being the only
    match in what the earlier hunks did not consume. */
  ghost predicate Placed(original: Block, hunks: seq<Hunk>, gaps: seq<Block>, tail: Block) {
    && |gaps| == |hunks|
    && original == Splice(gaps, Blocks(hunks, Insert), tail)
    && forall k :: 0 <= k < |hunks| ==>
         OnlyMatch(Splice(gaps[k..], Blocks(hunks, Insert)[k..], tail), Expected(hunks[k]), |gaps[k]|)
  }

  lemma PlacedStep(original: Block, hunks: seq<Hunk>, gaps: seq<Block>, tail: Block)
    requires |gaps| == |hunks| && hunks != []
    ensures Placed(original, hunks, gaps, tail) <==>
      && OnlyMatch(original, Expected(hunks[0]), |gaps[0]|)
      && gaps[0] == original[..|gaps[0]|]
      && Placed(original[|gaps[0]| + |Expected(hunks[0])|..], hunks[1..], gaps[1..], tail)
  {
    var blocks, rest := Blocks(hunks, Insert), Splice(gaps[1..], Blocks(hunks, Insert)[1..], tail);
    assert blocks[1..] == Blocks(hunks[1..], Insert);
    forall k | 0 <= k < |hunks| - 1
      ensures gaps[1..][k..] == gaps[k + 1..] && blocks[1..][k..] == blocks[k + 1..] && hunks[1..][k] == hunks[k + 1]
    {
    }
    assert gaps[0..] == gaps && blocks[0..] == blocks;
    assert (gaps[0] + blocks[0] + rest)[|gaps[0]| + |blocks[0]|..] == rest;
    var n := |gaps[0]| + |Expected(hunks[0])|;
    if OnlyMatch(original, Expected(hunks[0]), |gaps[0]|) && gaps[0] == original[..|gaps[0]|] {
      assert original == gaps[0] + blocks[0] + original[n..];
    }
    if Placed(original, hunks, gaps, tail) {
      assert OnlyMatch(Splice(gaps[0..], blocks[0..], tail), Expected(hunks[0]), |gaps[0]|);
      forall k | 0 <= k < |hunks[1..]|
        ensures OnlyMatch(Splice(gaps[1..][k..], Blocks(hunks[1..], Insert)[k..], tail), Expected(hunks[1..][k]), |gaps[1..][k]|)
      {
        assert OnlyMatch(Splice(gaps[k + 1..], blocks[k + 1..], tail), Expected(hunks[k + 1]), |gaps[k + 1]|);
      }
    }
    if OnlyMatch(original, Expected(hunks[0]), |gaps[0]|) && gaps[0] == original[..|gaps[0]|]
       && Placed(original[n..], hunks[1..], gaps[1..], tail) {
      forall k | 0 <= k < |hunks|
        ensures OnlyMatch(Splice(gaps[k..], blocks[k..], tail), Expected(hunks[k]), |gaps[k]|)
      {
        if k > 0 {
          assert OnlyMatch(Splice(gaps[1..][k - 1..], Blocks(hunks[1..], Insert)[k - 1..], tail),
                           Expected(hunks[1..][k - 1]), |gaps[1..][k - 1]|);
        }
      }
    }
  }

  /** Patching succeeds wherever the blocks have their one place, and then
    replaces exactly those blocks. */
  lemma {:induction false} PatchOfPlaced(original: Block, hunks: seq<Hunk>, gaps: seq<Block>, tail: Block, number: nat)
    requires Placed(original, hunks, gaps, tail)
    ensures Patch(original, hunks, number) == Success(Splice(gaps, Blocks(hunks, Remove), tail))
    decreases |hunks|
  {
    if hunks != [] {
      PlacedStep(original, hunks, gaps, tail);
      var n := |gaps[0]|;
      OneCandidate(original, Expected(hunks[0]), 0, n);
      PatchOfPlaced(original[n + |Expected(hunks[0])|..], hunks[1..], gaps[1..], tail, number + 1);
      assert Blocks(hunks, Remove)[1..] == Blocks(hunks[1..], Remove);
    }
  }

  /** Success means there is such a placement. */
  lemma {:induction false} PlacementOfPatch(original: Block, hunks: seq<Hunk>, number: nat)
    returns (gaps: seq<Block>, tail: Block)
    requires Patch(original, hunks, number).Success?
    ensures Placed(original, hunks, gaps, tail)
    decreases |hunks|
  {
    if hunks == [] {
      gaps, tail := [], original;
    } else {
      var expected := Expected(hunks[0]);
      var at := Candidates(original, expected, 0)[0];
      OneCandidate(original, expected, 0, at);
      var rest, last := PlacementOfPatch(original[at + |expected|..], hunks[1..], number + 1);
      gaps, tail := [original[..at]] + rest, last;
      assert gaps[1..] == rest;
      PlacedStep(original, hunks, gaps, tail);
    }
  }

  /** The result of a patch, characterised without running it. */
  lemma PatchMeaning(original: Block, hunks: seq<Hunk>, result: Block)
    ensures Patch(original, hunks, 1) == Success(result) <==>
      exists gaps, tail :: Placed(original, hunks, gaps, tail) && result == Splice(gaps, Blocks(hunks, Remove), tail)
  {
    if Patch(original, hunks, 1).Success? {
      var gaps, tail := PlacementOfPatch(original, hunks, 1);
      PatchOfPlaced(original, hunks, gaps, tail, 1);
      assert result == Splice(gaps, Blocks(hunks, Remove), tail) ==>
        Placed(original, hunks, gaps, tail) && result == Splice(gaps, Blocks(hunks, Remove), tail);
    }
    if gaps, tail :| Placed(original, hunks, gaps, tail) && result == Splice(gaps, Blocks(hunks, Remove), tail) {
      PatchOfPlaced(original, hunks, gaps, tail, 1);
    }
  }

  /** The undoing hunk: insertions and removals change places. */
  function Reverse(h: Hunk): Hunk {
    if h == [] then []
    else
      var l := h[0];
      [l.(tag := match l.tag case Context => Context case Insert => Remove case Remove => Insert)] + Reverse(h[1..])
  }

  function ReverseAll(hunks: seq<Hunk>): seq<Hunk> {
    if hunks == [] then [] else [Reverse(hunks[0])] + ReverseAll(hunks[1..])
  }

  lemma {:induction false} ReverseSwaps(h: Hunk)
    ensures Expected(Reverse(h)) == Replacement(h)
    ensures Replacement(Reverse(h)) == Expected(h)
  {
    if h != [] {
      ReverseSwaps(h[1..]);
      assert Reverse(h)[1..] == Reverse(h[1..]);
    }
  }

  /** Whenever the reversed hunks apply to the patched lines, they restore the
    original lines. */
  lemma {:induction false} ReverseRestores(original: Block, hunks: seq<Hunk>, number: nat, back: nat)
    requires Patch(original, hunks, number).Success?
    requires Patch(Patch(original, hunks, number).value, ReverseAll(hunks), back).Success?
    ensures Patch(Patch(original, hunks, number).value, ReverseAll(hunks), back) == Success(original)
    decreases |hunks|
  {
    hide Candidates, Reverse, Without;
    if hunks != [] {
      var expected, replacement := Expected(hunks[0]), Replacement(hunks[0]);
      ReverseSwaps(hunks[0]);
      var at := Candidates(original, expected, 0)[0];
      assert at in Candidates(original, expected, 0);
      var rest := original[at + |expected|..];
      var tail := Patch(rest, hunks[1..], number + 1).value;
      var result := original[..at] + replacement + tail;
      assert Patch(original, hunks, number) == Success(result);
      assert ReverseAll(hunks)[1..] == ReverseAll(hunks[1..]);
      Around(original[..at], replacement, tail);
      assert at in Candidates(result, replacement, 0);
      assert Candidates(result, replacement, 0) == [at];
      ReverseRestores(rest, hunks[1..], number + 1, back + 1);
      assert original == original[..at] + expected + rest;
    }
  }

  lemma Around(a: Block, b: Block, c: Block)
    ensures var s := a + b + c;
      s[..|a|] == a && MatchesAt(s, b, |a|) && s[|a| + |b|..] == c
  {
  }
}
