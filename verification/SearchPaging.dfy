/** Searching a fixed list of files line by line, a bounded number of matches and
  of scanned bytes at a time. Whether and where a line matches is a parameter. */
module SearchPaging {
  import opened Wrappers
  import Utf8
  import Cursors

  const MAX_FILE_BYTES := 2_097_152
  const MAX_SCANNED_BYTES := 33_554_432
  const MAX_RESULTS := 500

  /** A file: its size, and its lines unless it does not decode as text. */
  datatype Candidate = Candidate(path: string, size: nat, lines: Option<seq<string>>)

  datatype Match = Match(path: string, line: nat, column: nat, preview: string)

  datatype Cursor = Cursor(candidate: nat, line: nat)

  datatype Page = Page(matches: seq<Match>, next: Option<Cursor>, scanned: nat)

  /** What to look for: the column of a line's first match, and how many bytes of it to show. */
  datatype Query = Query(find: string -> Option<nat>, previewBytes: nat)

  function LineMatch(path: string, lines: seq<string>, k: nat, q: Query): seq<Match>
    requires k < |lines|
  {
    match q.find(lines[k])
    case None => []
    case Some(column) => [Match(path, k + 1, column + 1, Utf8.Fitting(lines[k], q.previewBytes))]
  }

  /** The matches of a file from a line on. */
  function LineMatches(path: string, lines: seq<string>, from: nat, q: Query): seq<Match>
    decreases |lines| - from
  {
    if from >= |lines| then [] else LineMatch(path, lines, from, q) + LineMatches(path, lines, from + 1, q)
  }

  function CandidateMatches(c: Candidate, from: nat, q: Query): seq<Match> {
    if !Readable(c) then [] else LineMatches(c.path, c.lines.value, from, q)
  }

  /** The one-pass result from a position on. */
  function MatchesFrom(cs: seq<Candidate>, at: Cursor, q: Query): seq<Match>
    decreases |cs| - at.candidate
  {
    if at.candidate >= |cs| then []
    else CandidateMatches(cs[at.candidate], at.line, q) + MatchesFrom(cs, Cursor(at.candidate + 1, 0), q)
  }

  /** The bytes of the files that a pass from one candidate to another reads. */
  function Scanned(cs: seq<Candidate>, from: nat, upTo: nat): nat
    requires from <= upTo <= |cs|
    decreases upTo
  {
    if from == upTo then 0
    else Scanned(cs, from, upTo - 1) + if cs[upTo - 1].size <= MAX_FILE_BYTES then cs[upTo - 1].size else 0
  }

  predicate After(a: Cursor, b: Cursor) {
    a.candidate > b.candidate || (a.candidate == b.candidate && a.line > b.line)
  }

  /** A cursor the reader itself hands out or accepts without complaint. */
  predicate InRange(cs: seq<Candidate>, at: Cursor) {
    && at.candidate <= |cs| && (at.candidate == |cs| ==> at.line == 0)
    && (at.candidate < |cs| && Readable(cs[at.candidate]) ==> at.line <= |cs[at.candidate].lines.value|)
  }

  predicate Readable(c: Candidate) {
    c.size <= MAX_FILE_BYTES && c.lines.Some?
  }

  function Rest(cs: seq<Candidate>, next: Option<Cursor>, q: Query): seq<Match> {
    if next.None? then [] else MatchesFrom(cs, next.value, q)
  }

  /** A page: the next matches in order, none lost and none twice; it ends early
    only at the limit of matches, or before a file that would exceed the byte budget. */
  ghost predicate IsPage(cs: seq<Candidate>, at: Cursor, q: Query, limit: nat, page: Page) {
    && MatchesFrom(cs, at, q) == page.matches + Rest(cs, page.next, q)
    && |page.matches| <= limit && page.scanned <= MAX_SCANNED_BYTES
    && (page.next.Some? ==>
          var next := page.next.value;
          && After(next, at) && InRange(cs, next) && next.candidate < |cs|
          && (next.line > 0 ==> Readable(cs[next.candidate]))
          && (|page.matches| < limit ==>
                && next.line == 0 && cs[next.candidate].size <= MAX_FILE_BYTES
                && Scanned(cs, at.candidate, next.candidate) + cs[next.candidate].size > MAX_SCANNED_BYTES))
  }

  /** The preview: the encoded line cut at so many bytes, and decoded again. */
  function Preview(line: string, bytes: nat): string {
    var encoded := Utf8.Encode(line);
    Utf8.DecodeIgnore(if bytes <= |encoded| then encoded[..bytes] else encoded)
  }

  /** The preview is the longest whole-character prefix that fits. */
  lemma PreviewFits(line: string, bytes: nat)
    ensures Preview(line, bytes) == Utf8.Fitting(line, bytes)
  {
    var encoded := Utf8.Encode(line);
    if bytes <= |encoded| {
      Utf8.DecodeIgnoreOfCut(line, bytes);
    } else {
      assert encoded[..|encoded|] == encoded;
      Utf8.DecodeIgnoreOfCut(line, |encoded|);
      assert line <= Utf8.Fitting(line, |encoded|);
      assert line <= Utf8.Fitting(line, bytes);
    }
  }

  /** The loop over the lines of one file; it stops at the match that fills the page. */
  method SearchLines(path: string, lines: seq<string>, from: nat, q: Query, room: nat)
    returns (found: seq<Match>, next: nat)
    requires from <= |lines| && room > 0
    ensures from <= next <= |lines| && |found| <= room
    ensures LineMatches(path, lines, from, q) == found + LineMatches(path, lines, next, q)
    ensures |found| < room ==> next == |lines|
    ensures |found| == room ==> next > from
  {
    hide Preview, LineMatches, LineMatch;
    found, next := [], from;
    assert found + LineMatches(path, lines, from, q) == LineMatches(path, lines, from, q);
    while next < |lines|
      invariant from <= next <= |lines| && |found| < room
      invariant LineMatches(path, lines, from, q) == found + LineMatches(path, lines, next, q)
      decreases |lines| - next
    {
      var column := q.find(lines[next]);
      var here := if column.None? then []
        else [Match(path, next + 1, column.value + 1, Preview(lines[next], q.previewBytes))];
      LineSearched(path, lines, next, q, here);
      MatchesAssoc(found, here, LineMatches(path, lines, next + 1, q));
      found := found + here;
      next := next + 1;
      if |found| == room {
        return;
      }
    }
  }

  lemma LineSearched(path: string, lines: seq<string>, k: nat, q: Query, here: seq<Match>)
    requires k < |lines|
    requires here == if q.find(lines[k]).None? then []
      else [Match(path, k + 1, q.find(lines[k]).value + 1, Preview(lines[k], q.previewBytes))]
    ensures LineMatches(path, lines, k, q) == here + LineMatches(path, lines, k + 1, q)
  {
    hide Preview, Utf8.Fitting;
    PreviewFits(lines[k], q.previewBytes);
  }

  lemma MatchesAssoc(a: seq<Match>, b: seq<Match>, c: seq<Match>)
    ensures a + (b + c) == a + b + c
  {
  }

  /** How far a page has got: what it has found, and where the rest starts. */
  ghost predicate Reached(cs: seq<Candidate>, at: Cursor, q: Query, matches: seq<Match>, now: Cursor, scanned: nat) {
    && at.candidate <= now.candidate <= |cs|
    && (now == at || now.candidate > at.candidate)
    && MatchesFrom(cs, at, q) == matches + MatchesFrom(cs, now, q)
    && scanned == Scanned(cs, at.candidate, now.candidate) <= MAX_SCANNED_BYTES
  }

  /** A file that is not read, or read to its end. */
  lemma CandidateDone(cs: seq<Candidate>, at: Cursor, q: Query, matches: seq<Match>, now: Cursor, scanned: nat,
                      found: seq<Match>, read: nat)
    requires Reached(cs, at, q, matches, now, scanned) && now.candidate < |cs|
    requires CandidateMatches(cs[now.candidate], now.line, q) == found
    requires read == (if cs[now.candidate].size <= MAX_FILE_BYTES then cs[now.candidate].size else 0)
    requires scanned + read <= MAX_SCANNED_BYTES
    ensures Reached(cs, at, q, matches + found, Cursor(now.candidate + 1, 0), scanned + read)
  {
    hide CandidateMatches;
    MatchesAssoc(matches, found, MatchesFrom(cs, Cursor(now.candidate + 1, 0), q));
  }

  /** The page is full inside a file. */
  lemma CandidateCut(cs: seq<Candidate>, at: Cursor, q: Query, matches: seq<Match>, now: Cursor, scanned: nat,
                     found: seq<Match>, line: nat)
    requires Reached(cs, at, q, matches, now, scanned) && now.candidate < |cs|
    requires CandidateMatches(cs[now.candidate], now.line, q) == found + CandidateMatches(cs[now.candidate], line, q)
    ensures MatchesFrom(cs, at, q) == matches + found + MatchesFrom(cs, Cursor(now.candidate, line), q)
  {
    hide CandidateMatches;
    var rest := MatchesFrom(cs, Cursor(now.candidate + 1, 0), q);
    MatchesAssoc(found, CandidateMatches(cs[now.candidate], line, q), rest);
    MatchesAssoc(matches, found, CandidateMatches(cs[now.candidate], line, q) + rest);
  }

  lemma AllReached(cs: seq<Candidate>, at: Cursor, q: Query, limit: nat, matches: seq<Match>, now: Cursor, scanned: nat)
    requires Reached(cs, at, q, matches, now, scanned) && now.candidate == |cs| && |matches| <= limit
    ensures IsPage(cs, at, q, limit, Page(matches, None, scanned))
  {
    assert MatchesFrom(cs, now, q) == [];
  }

  /** The page's byte budget is spent. */
  lemma BudgetSpent(cs: seq<Candidate>, at: Cursor, q: Query, limit: nat, matches: seq<Match>, now: Cursor,
                    scanned: nat)
    requires Reached(cs, at, q, matches, now, scanned) && now.candidate < |cs| && |matches| < limit
    requires now.candidate == at.candidate ==> now == at
    requires cs[now.candidate].size <= MAX_FILE_BYTES && scanned + cs[now.candidate].size > MAX_SCANNED_BYTES
    requires now != at ==> now.line == 0
    ensures IsPage(cs, at, q, limit, Page(matches, Some(now), scanned))
  {
    hide MatchesFrom;
    assert Scanned(cs, at.candidate, at.candidate) == 0;
  }

  /** Reading one file: all of it, or up to the match that fills the page. */
  method SearchCandidate(cs: seq<Candidate>, at: Cursor, q: Query, limit: nat, matches: seq<Match>, now: Cursor,
                         scanned: nat)
    returns (more: seq<Match>, page: Option<Page>)
    requires Reached(cs, at, q, matches, now, scanned) && now.candidate < |cs| && |matches| < limit
    requires InRange(cs, now) && Readable(cs[now.candidate])
    requires scanned + cs[now.candidate].size <= MAX_SCANNED_BYTES
    ensures page.Some? ==> IsPage(cs, at, q, limit, page.value)
    ensures page.None? ==> |more| < limit
    ensures page.None? ==> Reached(cs, at, q, more, Cursor(now.candidate + 1, 0), scanned + cs[now.candidate].size)
  {
    hide MatchesFrom, LineMatches, IsPage, Scanned;
    var c := cs[now.candidate];
    var found, line := SearchLines(c.path, c.lines.value, now.line, q, limit - |matches|);
    more := matches + found;
    if line == |c.lines.value| {
      NoLinesLeft(c.path, c.lines.value, q);
      assert found + [] == found;
      CandidateDone(cs, at, q, matches, now, scanned, found, c.size);
    }
    if |more| < limit {
      return more, None;
    }
    if line < |c.lines.value| {
      CandidateCut(cs, at, q, matches, now, scanned, found, line);
      page := Some(Page(more, Some(Cursor(now.candidate, line)), scanned + c.size));
      FullPage(cs, at, q, limit, page.value);
    } else if now.candidate + 1 < |cs| {
      page := Some(Page(more, Some(Cursor(now.candidate + 1, 0)), scanned + c.size));
      FullPage(cs, at, q, limit, page.value);
    } else {
      page := Some(Page(more, None, scanned + c.size));
      AllReached(cs, at, q, limit, more, Cursor(now.candidate + 1, 0), scanned + c.size);
    }
  }

  lemma NoLinesLeft(path: string, lines: seq<string>, q: Query)
    ensures LineMatches(path, lines, |lines|, q) == []
  {
  }

  lemma FullPage(cs: seq<Candidate>, at: Cursor, q: Query, limit: nat, page: Page)
    requires page.next.Some? && |page.matches| == limit && page.scanned <= MAX_SCANNED_BYTES
    requires MatchesFrom(cs, at, q) == page.matches + MatchesFrom(cs, page.next.value, q)
    requires After(page.next.value, at) && InRange(cs, page.next.value) && page.next.value.candidate < |cs|
    requires page.next.value.line > 0 ==> Readable(cs[page.next.value.candidate])
    ensures IsPage(cs, at, q, limit, page)
  {
    hide MatchesFrom;
  }

  datatype SearchError = InvalidRequest | InvalidCursor

  /** The loop of `read_tools.search_text`. */
  method SearchProject(cs: seq<Candidate>, at: Cursor, q: Query, limit: nat) returns (r: Result<Page, SearchError>)
    ensures r == Failure(InvalidRequest) <==> !(1 <= limit <= MAX_RESULTS)
    ensures 1 <= limit <= MAX_RESULTS ==> (r.Success? <==> InRange(cs, at))
    ensures r.Success? ==> IsPage(cs, at, q, limit, r.value)
  {
    hide IsPage, MatchesFrom, Reached, Scanned;
    if !(1 <= limit <= MAX_RESULTS) {
      return Failure(InvalidRequest);
    }
    if at.candidate > |cs| || (at.candidate == |cs| && at.line != 0) {
      return Failure(InvalidCursor);
    }
    var matches: seq<Match> := [];
    var scanned: nat := 0;
    NothingSearched(cs, at, q);
    for k := at.candidate to |cs|
      invariant |matches| < limit && (k > at.candidate ==> InRange(cs, at))
      invariant Reached(cs, at, q, matches, if k == at.candidate then at else Cursor(k, 0), scanned)
    {
      var c := cs[k];
      var now := if k == at.candidate then at else Cursor(k, 0);
      if c.size > MAX_FILE_BYTES {
        assert matches + [] == matches;
        SkippedFits(cs, at, q, matches, now, scanned);
        CandidateDone(cs, at, q, matches, now, scanned, [], 0);
        continue;
      }
      if scanned + c.size > MAX_SCANNED_BYTES {
        FirstFits(cs, at, q, matches, now, scanned);
        BudgetSpent(cs, at, q, limit, matches, now, scanned);
        return Success(Page(matches, Some(now), scanned));
      }
      if c.lines.None? {
        assert matches + [] == matches;
        CandidateDone(cs, at, q, matches, now, scanned, [], c.size);
        scanned := scanned + c.size;
        continue;
      }
      if now.line > |c.lines.value| {
        return Failure(InvalidCursor);
      }
      var page;
      matches, page := SearchCandidate(cs, at, q, limit, matches, now, scanned);
      if page.Some? {
        return Success(page.value);
      }
      scanned := scanned + c.size;
    }
    AllReached(cs, at, q, limit, matches, if |cs| == at.candidate then at else Cursor(|cs|, 0), scanned);
    return Success(Page(matches, None, scanned));
  }

  lemma NothingSearched(cs: seq<Candidate>, at: Cursor, q: Query)
    requires at.candidate <= |cs|
    ensures Reached(cs, at, q, [], at, 0)
  {
    assert [] + MatchesFrom(cs, at, q) == MatchesFrom(cs, at, q);
  }

  lemma SkippedFits(cs: seq<Candidate>, at: Cursor, q: Query, matches: seq<Match>, now: Cursor, scanned: nat)
    requires Reached(cs, at, q, matches, now, scanned)
    ensures scanned <= MAX_SCANNED_BYTES
  {
  }

  /** A page always has room for its first file, so its cursor moves on. */
  lemma FirstFits(cs: seq<Candidate>, at: Cursor, q: Query, matches: seq<Match>, now: Cursor, scanned: nat)
    requires Reached(cs, at, q, matches, now, scanned) && now.candidate < |cs|
    requires cs[now.candidate].size <= MAX_FILE_BYTES && scanned + cs[now.candidate].size > MAX_SCANNED_BYTES
    ensures now != at && now.candidate > at.candidate && scanned > 0
  {
    hide MatchesFrom;
    assert Scanned(cs, at.candidate, at.candidate) == 0;
  }

  /** The loop of `scoped_read_tools._search_text`: the byte budget is checked only
    once something was read, and the page that it ends starts the file afresh. */
  method SearchScoped(cs: seq<Candidate>, at: Cursor, q: Query, limit: nat) returns (r: Result<Page, SearchError>)
    ensures r == Failure(InvalidRequest) <==> !(1 <= limit <= MAX_RESULTS)
    ensures 1 <= limit <= MAX_RESULTS ==> (r.Success? <==> InRange(cs, at))
    ensures r.Success? ==> IsPage(cs, at, q, limit, r.value)
  {
    hide IsPage, MatchesFrom, Reached, Scanned;
    if !(1 <= limit <= MAX_RESULTS) {
      return Failure(InvalidRequest);
    }
    if at.candidate > |cs| || (at.candidate == |cs| && at.line != 0) {
      return Failure(InvalidCursor);
    }
    var matches: seq<Match> := [];
    var scanned: nat := 0;
    NothingSearched(cs, at, q);
    for k := at.candidate to |cs|
      invariant |matches| < limit && (k > at.candidate ==> InRange(cs, at))
      invariant Reached(cs, at, q, matches, if k == at.candidate then at else Cursor(k, 0), scanned)
    {
      var c := cs[k];
      var now := if k == at.candidate then at else Cursor(k, 0);
      if c.size > MAX_FILE_BYTES {
        assert matches + [] == matches;
        SkippedFits(cs, at, q, matches, now, scanned);
        CandidateDone(cs, at, q, matches, now, scanned, [], 0);
        continue;
      }
      if scanned > 0 && scanned + c.size > MAX_SCANNED_BYTES {
        FirstFits(cs, at, q, matches, now, scanned);
        BudgetSpent(cs, at, q, limit, matches, now, scanned);
        return Success(Page(matches, Some(Cursor(k, 0)), scanned));
      }
      if c.lines.None? {
        assert matches + [] == matches;
        CandidateDone(cs, at, q, matches, now, scanned, [], c.size);
        scanned := scanned + c.size;
        continue;
      }
      if now.line > |c.lines.value| {
        return Failure(InvalidCursor);
      }
      var page;
      matches, page := SearchCandidate(cs, at, q, limit, matches, now, scanned);
      if page.Some? {
        return Success(page.value);
      }
      scanned := scanned + c.size;
    }
    AllReached(cs, at, q, limit, matches, if |cs| == at.candidate then at else Cursor(|cs|, 0), scanned);
    return Success(Page(matches, None, scanned));
  }

  // Following the continuations.

  function Concat(pages: seq<seq<Match>>): seq<Match> {
    if pages == [] then [] else pages[0] + Concat(pages[1..])
  }

  lemma {:induction false} ConcatSnoc(pages: seq<seq<Match>>, page: seq<Match>)
    ensures Concat(pages + [page]) == Concat(pages) + page
  {
    if pages == [] {
      assert Concat([page]) == page + Concat([][..]);
    } else {
      ConcatSnoc(pages[1..], page);
      assert (pages + [page])[1..] == pages[1..] + [page] && (pages + [page])[0] == pages[0];
      MatchesAssoc(pages[0], Concat(pages[1..]), page);
    }
  }

  function LinesOf(c: Candidate): nat {
    if c.lines.Some? then |c.lines.value| else 0
  }

  function Sealed(scoped: bool, c: Cursor): string {
    if scoped then Cursors.EncodeReadCursor(c.candidate, c.line) else Cursors.EncodeSearchCursor(c.candidate, c.line)
  }

  function Opened(scoped: bool, value: string): Result<Cursor, SearchError> {
    if scoped && value == "" then Success(Cursor(0, 0))
    else
      match if scoped then Cursors.DecodeReadCursor(value) else Cursors.DecodeSearchCursor(value)
      case Failure(_) => Failure(InvalidCursor)
      case Success(pair) => Success(Cursor(pair.0, pair.1))
  }

  lemma SealedOpens(scoped: bool, c: Cursor)
    ensures Opened(scoped, Sealed(scoped, c)) == Success(c)
    ensures Opened(scoped, "") == Success(Cursor(0, 0))
  {
    hide Cursors.EncodeReadCursor, Cursors.EncodeSearchCursor, Cursors.DecodeReadCursor;
    Cursors.ReadCursorRoundTrip(c.candidate, c.line);
    Cursors.SearchCursorRoundTrip(c.candidate, c.line);
  }

  ghost predicate Increasing(visited: seq<Cursor>) {
    forall i, j :: 0 <= i < j < |visited| ==> After(visited[j], visited[i])
  }

  lemma AfterAll(visited: seq<Cursor>, next: Cursor)
    requires Increasing(visited) && visited != [] && After(next, visited[|visited| - 1])
    ensures Increasing(visited + [next])
  {
    var all := visited + [next];
    forall i, j | 0 <= i < j < |all| ensures After(all[j], all[i]) {
      if j == |visited| && i < |visited| - 1 {
        assert After(visited[|visited| - 1], visited[i]);
      }
    }
  }

  /** Either reader, asked again for each continuation: it comes to an end, its
    cursors only move forward, and the pages are the one-pass list of matches. */
  method FollowSearch(cs: seq<Candidate>, q: Query, limit: nat, scoped: bool)
    returns (pages: seq<seq<Match>>, ghost visited: seq<Cursor>)
    requires 1 <= limit <= MAX_RESULTS
    ensures Concat(pages) == MatchesFrom(cs, Cursor(0, 0), q)
    ensures forall i :: 0 <= i < |pages| ==> |pages[i]| <= limit
    ensures |visited| == |pages| && Increasing(visited)
  {
    hide MatchesFrom, Concat, After, IsPage, Opened, Sealed;
    pages := [];
    var value := "";
    ghost var at := Cursor(0, 0);
    visited := [at];
    SealedOpens(scoped, at);
    NoPages(cs, at, q);
    while true
      invariant Opened(scoped, value) == Success(at) && InRange(cs, at)
      invariant |visited| == |pages| + 1 && visited[|pages|] == at && Increasing(visited)
      invariant Concat(pages) + MatchesFrom(cs, at, q) == MatchesFrom(cs, Cursor(0, 0), q)
      invariant forall i :: 0 <= i < |pages| ==> |pages[i]| <= limit
      decreases |cs| - at.candidate, AheadInFile(cs, at)
    {
      var page := SearchAgain(cs, Opened(scoped, value).value, q, limit, scoped);
      PageTaken(cs, at, q, limit, page, pages);
      pages := pages + [page.matches];
      if page.next.None? {
        assert Concat(pages) + [] == Concat(pages);
        return;
      }
      AfterAll(visited, page.next.value);
      at := page.next.value;
      visited := visited + [at];
      SealedOpens(scoped, at);
      value := Sealed(scoped, page.next.value);
    }
  }

  method SearchAgain(cs: seq<Candidate>, at: Cursor, q: Query, limit: nat, scoped: bool) returns (page: Page)
    requires 1 <= limit <= MAX_RESULTS && InRange(cs, at)
    ensures IsPage(cs, at, q, limit, page)
  {
    hide IsPage;
    var r;
    if scoped {
      r := SearchScoped(cs, at, q, limit);
    } else {
      r := SearchProject(cs, at, q, limit);
    }
    return r.value;
  }

  /** One page more, and the cursor after it. */
  lemma PageTaken(cs: seq<Candidate>, at: Cursor, q: Query, limit: nat, page: Page, pages: seq<seq<Match>>)
    requires IsPage(cs, at, q, limit, page)
    ensures |page.matches| <= limit
    ensures Concat(pages) + MatchesFrom(cs, at, q) == Concat(pages + [page.matches]) + Rest(cs, page.next, q)
    ensures page.next.Some? ==>
      var next := page.next.value;
      && InRange(cs, next) && After(next, at) && next.candidate < |cs|
      && (next.candidate > at.candidate
          || (next.candidate == at.candidate && AheadInFile(cs, next) < AheadInFile(cs, at)))
  {
    hide MatchesFrom, Concat, Scanned;
    ConcatSnoc(pages, page.matches);
    MatchesAssoc(Concat(pages), page.matches, Rest(cs, page.next, q));
  }

  lemma NoPages(cs: seq<Candidate>, at: Cursor, q: Query)
    ensures Concat([]) + MatchesFrom(cs, at, q) == MatchesFrom(cs, at, q)
  {
    assert [] + MatchesFrom(cs, at, q) == MatchesFrom(cs, at, q);
  }

  /** How far the end of its file is from a cursor. */
  function AheadInFile(cs: seq<Candidate>, at: Cursor): nat {
    if at.candidate < |cs| && at.line <= LinesOf(cs[at.candidate]) then LinesOf(cs[at.candidate]) - at.line else 0
  }
}
