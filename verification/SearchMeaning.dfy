/** What the one-pass result of a search is, told by the places where a line matches. */
module SearchMeaning {
  import opened Wrappers
  import opened SearchPaging

  /** A line of a file that is small enough and decodes. */
  predicate IsLine(cs: seq<Candidate>, p: Cursor) {
    && p.candidate < |cs| && cs[p.candidate].size <= 2_097_152 && cs[p.candidate].lines.Some?
    && p.line < |cs[p.candidate].lines.value|
  }

  function LineAt(cs: seq<Candidate>, p: Cursor): string
    requires IsLine(cs, p)
  {
    cs[p.candidate].lines.value[p.line]
  }

  /** The line matches. */
  predicate Matches(cs: seq<Candidate>, q: Query, p: Cursor) {
    IsLine(cs, p) && q.find(LineAt(cs, p)).Some?
  }

  /** The match names this file, this line and its first matching column, counted
    from one, and shows the preview of the line. */
  predicate Tells(cs: seq<Candidate>, q: Query, p: Cursor, m: Match) {
    && Matches(cs, q, p)
    && m.path == cs[p.candidate].path && m.line == p.line + 1
    && m.column == q.find(LineAt(cs, p)).value + 1
    && m.preview == Preview(LineAt(cs, p), q.previewBytes)
  }

  /** At or after one place, and before another. */
  predicate Within(at: Cursor, end: Cursor, p: Cursor) {
    !After(at, p) && After(end, p)
  }

  predicate TellsAt(cs: seq<Candidate>, q: Query, places: seq<Cursor>, matches: seq<Match>, k: nat) {
    k < |places| == |matches| ==> Tells(cs, q, places[k], matches[k])
  }

  /** The matches tell, in order, of exactly the matching places in a stretch. */
  ghost predicate Lists(cs: seq<Candidate>, q: Query, at: Cursor, end: Cursor, matches: seq<Match>, places: seq<Cursor>) {
    && |places| == |matches|
    && (forall k :: TellsAt(cs, q, places, matches, k))
    && (forall j, k :: 0 <= j < k < |places| ==> After(places[k], places[j]))
    && forall p :: p in places <==> Matches(cs, q, p) && Within(at, end, p)
  }

  lemma ListsBoth(cs: seq<Candidate>, q: Query, at: Cursor, mid: Cursor, end: Cursor,
                  matches: seq<Match>, places: seq<Cursor>, more: seq<Match>, others: seq<Cursor>)
    requires Lists(cs, q, at, mid, matches, places) && Lists(cs, q, mid, end, more, others)
    requires !After(at, mid) && !After(mid, end)
    ensures Lists(cs, q, at, end, matches + more, places + others)
  {
    hide Tells, Matches;
    var all, both := places + others, matches + more;
    forall k: nat ensures TellsAt(cs, q, all, both, k) {
      assert TellsAt(cs, q, places, matches, k);
      if k >= |places| { assert TellsAt(cs, q, others, more, k - |places|); }
    }
    forall j, k | 0 <= j < k < |all| ensures After(all[k], all[j]) {
      if j < |places| <= k {
        assert all[j] in places && all[k] in others;
      }
    }
  }

  lemma NothingListed(cs: seq<Candidate>, q: Query, at: Cursor, end: Cursor)
    requires forall p :: Within(at, end, p) ==> !Matches(cs, q, p)
    ensures Lists(cs, q, at, end, [], [])
  {
  }

  /** One line. */
  lemma LineListed(cs: seq<Candidate>, q: Query, at: Cursor) returns (places: seq<Cursor>)
    requires IsLine(cs, at)
    ensures Lists(cs, q, at, Cursor(at.candidate, at.line + 1),
                  LineMatch(cs[at.candidate].path, cs[at.candidate].lines.value, at.line, q), places)
  {
    var end := Cursor(at.candidate, at.line + 1);
    assert forall p :: Within(at, end, p) <==> p == at;
    PreviewFits(LineAt(cs, at), q.previewBytes);
    places := if q.find(LineAt(cs, at)).Some? then [at] else [];
  }

  lemma {:induction false} LinesListed(cs: seq<Candidate>, q: Query, at: Cursor) returns (places: seq<Cursor>)
    requires at.candidate < |cs| && Readable(cs[at.candidate])
    ensures Lists(cs, q, at, Cursor(at.candidate + 1, 0),
                  LineMatches(cs[at.candidate].path, cs[at.candidate].lines.value, at.line, q), places)
    decreases |cs[at.candidate].lines.value| - at.line
  {
    hide Lists, LineMatch;
    var c, end := cs[at.candidate], Cursor(at.candidate + 1, 0);
    if at.line >= |c.lines.value| {
      places := [];
      NothingListed(cs, q, at, end);
    } else {
      var next := Cursor(at.candidate, at.line + 1);
      var first := LineListed(cs, q, at);
      var rest := LinesListed(cs, q, next);
      places := first + rest;
      ListsBoth(cs, q, at, next, end, LineMatch(c.path, c.lines.value, at.line, q), first,
                LineMatches(c.path, c.lines.value, at.line + 1, q), rest);
    }
  }

  lemma {:induction false} FilesListed(cs: seq<Candidate>, q: Query, at: Cursor) returns (places: seq<Cursor>)
    requires at.candidate <= |cs| && (at.candidate == |cs| ==> at.line == 0)
    ensures Lists(cs, q, at, Cursor(|cs|, 0), MatchesFrom(cs, at, q), places)
    decreases |cs| - at.candidate
  {
    hide Lists, LineMatches;
    if at.candidate == |cs| {
      places := [];
      NothingListed(cs, q, at, Cursor(|cs|, 0));
    } else {
      var next := Cursor(at.candidate + 1, 0);
      var first: seq<Cursor> := [];
      if Readable(cs[at.candidate]) {
        first := LinesListed(cs, q, at);
      } else {
        NothingListed(cs, q, at, next);
      }
      var rest := FilesListed(cs, q, next);
      places := first + rest;
      ListsBoth(cs, q, at, next, Cursor(|cs|, 0), CandidateMatches(cs[at.candidate], at.line, q), first,
                MatchesFrom(cs, next, q), rest);
    }
  }

  /** The one-pass result from a place on: every matching line from there, in
    order, once, and nothing else. */
  lemma MatchesMean(cs: seq<Candidate>, q: Query, at: Cursor) returns (places: seq<Cursor>)
    requires InRange(cs, at)
    ensures |places| == |MatchesFrom(cs, at, q)|
    ensures forall k :: 0 <= k < |places| ==> Tells(cs, q, places[k], MatchesFrom(cs, at, q)[k])
    ensures forall j, k :: 0 <= j < k < |places| ==> After(places[k], places[j])
    ensures forall p :: p in places <==> Matches(cs, q, p) && !After(at, p)
  {
    hide Tells, MatchesFrom;
    places := FilesListed(cs, q, at);
    forall k | 0 <= k < |places| ensures Tells(cs, q, places[k], MatchesFrom(cs, at, q)[k]) {
      assert TellsAt(cs, q, places, MatchesFrom(cs, at, q), k);
    }
  }
}
