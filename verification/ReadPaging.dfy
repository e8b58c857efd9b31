/** Reading a file in pages of at most so many encoded bytes: whole lines while
  they fit, then as much of the next line as fits, found by binary search. */
module ReadPaging {
  import opened Wrappers
  import Utf8
  import TextLines
  import Cursors

  /** The codec a page is measured in. */
  datatype Codec = InUtf8 | InUtf16

  function Width(codec: Codec, c: char): (w: nat)
    ensures 1 <= w <= 4
  {
    if codec.InUtf8? then |Utf8.EncodeChar(c)| else if (c as int) < 0x1_0000 then 2 else 4
  }

  /** The length of the encoded text. */
  function Size(codec: Codec, s: string): nat {
    if s == "" then 0 else Width(codec, s[0]) + Size(codec, s[1..])
  }

  /** The longest prefix whose encoding fits the budget. */
  function Fit(codec: Codec, s: string, budget: int): (p: string)
    ensures p <= s
    ensures Size(codec, p) <= budget || p == ""
  {
    if s == "" || Width(codec, s[0]) > budget then ""
    else
      var rest := Fit(codec, s[1..], budget - Width(codec, s[0]));
      assert ([s[0]] + rest)[1..] == rest;
      [s[0]] + rest
  }

  function Concat(parts: seq<string>): string {
    if parts == [] then "" else parts[0] + Concat(parts[1..])
  }

  // Fitting.

  lemma {:induction false} SizeConcat(codec: Codec, a: string, b: string)
    ensures Size(codec, a + b) == Size(codec, a) + Size(codec, b)
  {
    if a == "" {
      assert a + b == b;
    } else {
      SizeConcat(codec, a[1..], b);
      assert (a + b)[1..] == a[1..] + b;
    }
  }

  /** Every prefix that fits is a prefix of the longest one. */
  lemma {:induction false} FitIsLongest(codec: Codec, s: string, budget: int, k: nat)
    requires k <= |s|
    ensures Size(codec, s[..k]) <= budget ==> k <= |Fit(codec, s, budget)|
    ensures k <= |Fit(codec, s, budget)| ==> Size(codec, s[..k]) <= budget || k == 0
  {
    hide Width;
    if k > 0 {
      assert s[..k][0] == s[0] && s[..k][1..] == s[1..][..k - 1];
      FitIsLongest(codec, s[1..], budget - Width(codec, s[0]), k - 1);
    }
  }

  lemma FitCons(codec: Codec, c: char, s: string, budget: int)
    requires Width(codec, c) <= budget
    ensures Fit(codec, [c] + s, budget) == [c] + Fit(codec, s, budget - Width(codec, c))
  {
    assert ([c] + s)[1..] == s;
  }

  lemma Split(part: string, rest: string)
    requires part != ""
    ensures part + rest == [part[0]] + (part[1..] + rest)
  {
  }

  lemma SizeParts(codec: Codec, s: string)
    ensures s != "" ==> Size(codec, s) == Width(codec, s[0]) + Size(codec, s[1..])
    ensures s == "" ==> Size(codec, s) == 0
  {
  }

  /** A part that fits is taken whole, and the rest gets what is left. */
  lemma {:induction false} FitPast(codec: Codec, part: string, rest: string, budget: int)
    requires Size(codec, part) <= budget
    ensures Fit(codec, part + rest, budget) == part + Fit(codec, rest, budget - Size(codec, part))
  {
    hide Width, Size, Fit;
    SizeParts(codec, part);
    if part == "" {
      assert part + rest == rest;
    } else {
      var w := Width(codec, part[0]);
      FitPast(codec, part[1..], rest, budget - w);
      FitCons(codec, part[0], part[1..] + rest, budget);
      Split(part, rest);
      Split(part, Fit(codec, rest, budget - Size(codec, part)));
    }
  }

  /** A part that does not fit hides everything after it. */
  lemma {:induction false} FitWithin(codec: Codec, part: string, rest: string, budget: int)
    requires Size(codec, part) > budget >= 0
    ensures Fit(codec, part + rest, budget) == Fit(codec, part, budget) && Fit(codec, part, budget) != part
  {
    hide Width;
    if part != "" && Width(codec, part[0]) <= budget {
      FitWithin(codec, part[1..], rest, budget - Width(codec, part[0]));
      assert (part + rest)[1..] == part[1..] + rest;
    }
  }

  /** The binary search inside a line. */
  method LongestFitting(codec: Codec, part: string, budget: nat) returns (low: nat)
    ensures low == |Fit(codec, part, budget)|
  {
    low := 0;
    var high := |part|;
    assert Size(codec, part[..0]) == 0;
    FitIsLongest(codec, part, budget, |part|);
    while low < high
      invariant 0 <= low <= |Fit(codec, part, budget)| <= high <= |part|
    {
      var middle := (low + high + 1) / 2;
      FitIsLongest(codec, part, budget, middle);
      if Size(codec, part[..middle]) <= budget {
        low := middle;
      } else {
        high := middle - 1;
      }
    }
  }

  // Positions.

  predicate WholeLines(lines: seq<string>) {
    forall i :: 0 <= i < |lines| ==> lines[i] != ""
  }

  /** Where a reader may stand: before a character of a line, or at the end. */
  predicate Position(lines: seq<string>, line: nat, character: nat) {
    line <= |lines| && if line == |lines| then character == 0 else character < |lines[line]|
  }

  /** The text between two positions of a file, up to a line that is not read. */
  function Ahead(lines: seq<string>, line: nat, character: nat, stop: nat): string
    requires Position(lines, line, character) && stop <= |lines|
  {
    if line >= stop then "" else lines[line][character..] + Concat(lines[line + 1..stop])
  }

  lemma ConcatFirst(lines: seq<string>, line: nat, stop: nat)
    requires line < stop <= |lines|
    ensures Concat(lines[line..stop]) == lines[line] + Concat(lines[line + 1..stop])
  {
    assert lines[line..stop][0] == lines[line] && lines[line..stop][1..] == lines[line + 1..stop];
  }

  /** One page, and where the next one starts. */
  datatype Page = Page(text: string, nextLine: nat, nextCharacter: nat)

  /** What a page is: as much of the text ahead as fits, and the position after it. */
  ghost predicate IsPage(codec: Codec, lines: seq<string>, line: nat, character: nat, stop: nat, budget: nat,
                         page: Page) {
    && Position(lines, line, character) && line <= stop <= |lines|
    && Position(lines, page.nextLine, page.nextCharacter)
    && line <= page.nextLine <= stop && (page.nextLine == stop ==> page.nextCharacter == 0)
    && page.text == Fit(codec, Ahead(lines, line, character, stop), budget)
    && page.text + Ahead(lines, page.nextLine, page.nextCharacter, stop) == Ahead(lines, line, character, stop)
    && (page.text == "" ==> page.nextLine == line && page.nextCharacter == character)
  }

  /** What a page has so far: the text selected, and the position it has reached. */
  ghost predicate Reached(codec: Codec, all: string, budget: nat, selected: string, ahead: string) {
    && Size(codec, selected) <= budget
    && selected + ahead == all
    && Fit(codec, all, budget) == selected + Fit(codec, ahead, budget - Size(codec, selected))
  }

  lemma NothingReached(codec: Codec, all: string, budget: nat)
    ensures Reached(codec, all, budget, "", all)
  {
    assert "" + all == all;
    assert "" + Fit(codec, all, budget) == Fit(codec, all, budget);
  }

  lemma Assoc(a: string, b: string, c: string)
    ensures a + (b + c) == a + b + c
  {
  }

  lemma WholePartReached(codec: Codec, all: string, budget: nat, selected: string, part: string, rest: string)
    requires Reached(codec, all, budget, selected, part + rest)
    requires Size(codec, part) <= budget - Size(codec, selected)
    ensures Reached(codec, all, budget, selected + part, rest)
    ensures Size(codec, selected + part) == Size(codec, selected) + Size(codec, part)
  {
    hide Fit, Size;
    FitPast(codec, part, rest, budget - Size(codec, selected));
    SizeConcat(codec, selected, part);
    Assoc(selected, part, rest);
    Assoc(selected, part, Fit(codec, rest, budget - Size(codec, selected + part)));
  }

  lemma CutPartReached(codec: Codec, all: string, budget: nat, selected: string, part: string, rest: string, low: nat)
    requires Reached(codec, all, budget, selected, part + rest)
    requires Size(codec, part) > budget - Size(codec, selected)
    requires low == |Fit(codec, part, budget - Size(codec, selected))|
    ensures low < |part| && selected + part[..low] == Fit(codec, all, budget)
    ensures selected + part[..low] + (part[low..] + rest) == all
  {
    hide Size, Fit;
    FitWithin(codec, part, rest, budget - Size(codec, selected));
    assert part[..low] == Fit(codec, part, budget - Size(codec, selected));
    assert part == part[..low] + part[low..];
    Assoc(part[..low], part[low..], rest);
    Assoc(selected, part[..low], part[low..] + rest);
  }

  lemma EverythingReached(codec: Codec, all: string, budget: nat, selected: string)
    requires Reached(codec, all, budget, selected, "")
    ensures selected == Fit(codec, all, budget) && selected + "" == all
  {
    assert Fit(codec, "", budget - Size(codec, selected)) == "";
    assert selected + "" == selected;
  }

  lemma CutIsPage(codec: Codec, lines: seq<string>, line: nat, character: nat, stop: nat, budget: nat,
                  selected: string, at: nat, from: nat, low: nat)
    requires Position(lines, line, character) && line <= at < stop <= |lines| && Position(lines, at, from)
    requires Reached(codec, Ahead(lines, line, character, stop), budget, selected, Ahead(lines, at, from, stop))
    requires Size(codec, lines[at][from..]) > budget - Size(codec, selected)
    requires low == |Fit(codec, lines[at][from..], budget - Size(codec, selected))|
    requires selected == "" ==> (at, from) == (line, character)
    ensures from + low < |lines[at]|
    ensures IsPage(codec, lines, line, character, stop, budget, Page(selected + lines[at][from..][..low], at, from + low))
  {
    hide Fit, Size, Reached;
    var part := lines[at][from..];
    CutPartReached(codec, Ahead(lines, line, character, stop), budget, selected, part, Concat(lines[at + 1..stop]), low);
    assert part[low..] == lines[at][from + low..];
  }

  lemma DoneIsPage(codec: Codec, lines: seq<string>, line: nat, character: nat, stop: nat, budget: nat,
                   selected: string)
    requires Position(lines, line, character) && line <= stop <= |lines| && Position(lines, stop, 0)
    requires Reached(codec, Ahead(lines, line, character, stop), budget, selected, Ahead(lines, stop, 0, stop))
    requires selected == "" ==> (stop, 0) == (line, character)
    ensures IsPage(codec, lines, line, character, stop, budget, Page(selected, stop, 0))
  {
    hide Fit, Size, Reached;
    EverythingReached(codec, Ahead(lines, line, character, stop), budget, selected);
  }

  /** The loop over the lines of a page. */
  method TakePage(codec: Codec, lines: seq<string>, line: nat, character: nat, stop: nat, budget: nat)
    returns (page: Page)
    requires WholeLines(lines) && Position(lines, line, character) && line <= stop <= |lines|
    requires line == stop ==> character == 0
    ensures IsPage(codec, lines, line, character, stop, budget, page)
  {
    hide Fit, Size, Reached, Concat, IsPage;
    var selected := "";
    var consumed := 0;
    var nextLine: nat, nextCharacter: nat := line, character;
    ghost var all := Ahead(lines, line, character, stop);
    NothingReached(codec, all, budget);
    assert Size(codec, "") == 0 by { SizeParts(codec, ""); }
    while nextLine < stop
      invariant line <= nextLine <= stop && Position(lines, nextLine, nextCharacter)
      invariant nextLine == stop ==> nextCharacter == 0
      invariant consumed == Size(codec, selected) <= budget
      invariant selected == "" ==> (nextLine, nextCharacter) == (line, character)
      invariant Reached(codec, all, budget, selected, Ahead(lines, nextLine, nextCharacter, stop))
      decreases stop - nextLine
    {
      var part := lines[nextLine][nextCharacter..];
      if Size(codec, part) <= budget - consumed {
        WholePartReached(codec, all, budget, selected, part, Concat(lines[nextLine + 1..stop]));
        LineDone(lines, nextLine, stop);
        consumed := consumed + Size(codec, part);
        selected := selected + part;
        nextLine, nextCharacter := nextLine + 1, 0;
      } else {
        var low := LongestFitting(codec, part, budget - consumed);
        CutIsPage(codec, lines, line, character, stop, budget, selected, nextLine, nextCharacter, low);
        return Page(selected + part[..low], nextLine, nextCharacter + low);
      }
    }
    DoneIsPage(codec, lines, line, character, stop, budget, selected);
    return Page(selected, nextLine, nextCharacter);
  }

  lemma LineDone(lines: seq<string>, line: nat, stop: nat)
    requires line < stop <= |lines| && WholeLines(lines)
    ensures Position(lines, line + 1, 0)
    ensures Ahead(lines, line + 1, 0, stop) == Concat(lines[line + 1..stop])
  {
    if line + 1 < stop {
      ConcatFirst(lines, line + 1, stop);
      assert lines[line + 1][0..] == lines[line + 1];
    }
  }

  // The two readers.

  const MAX_READ_BYTES := 2_097_152

  datatype Request = Request(startLine: Option<int>, endLine: Option<int>, maxBytes: int, maxLines: Option<int>, cursor: string)

  datatype ReadError = InvalidRequest | InvalidCursor | ResultLimit

  datatype Answer = Answer(text: string, firstLine: nat, continuation: Option<string>)

  /** `splitlines(keepends=True)`. */
  function KeptLines(text: string): (lines: seq<string>)
    ensures WholeLines(lines)
  {
    hide TextLines.FirstLine;
    LinesAreWhole(text);
    Wholes(TextLines.Lines(text))
  }

  function Wholes(ls: seq<TextLines.Line>): (r: seq<string>)
    ensures |r| == |ls| && forall i :: 0 <= i < |ls| ==> r[i] == ls[i].Whole()
  {
    seq(|ls|, i requires 0 <= i < |ls| => ls[i].Whole())
  }

  lemma {:induction false} LinesAreWhole(text: string)
    ensures forall i :: 0 <= i < |TextLines.Lines(text)| ==> TextLines.Lines(text)[i].Whole() != ""
    decreases |text|
  {
    if text != "" {
      LinesAreWhole(text[|TextLines.FirstLine(text).Whole()|..]);
    }
  }

  lemma {:induction false} ConcatWholes(ls: seq<TextLines.Line>)
    ensures Concat(Wholes(ls)) == TextLines.Flatten(ls)
  {
    if ls != [] {
      ConcatWholes(ls[1..]);
      assert Wholes(ls)[1..] == Wholes(ls[1..]);
    }
  }

  lemma KeptLinesJoin(text: string)
    ensures Concat(KeptLines(text)) == text
  {
    TextLines.FlattenLines(text);
    ConcatWholes(TextLines.Lines(text));
  }

  /** The lines kept are those of any split of the text into lines with their breaks. */
  lemma KeptLinesMean(text: string, ls: seq<TextLines.Line>)
    requires TextLines.Splittable(ls) && TextLines.Flatten(ls) == text
    ensures KeptLines(text) == Wholes(ls)
  {
    TextLines.LinesFlatten(ls);
  }

  function Lesser(a: int, b: int): int {
    if a <= b then a else b
  }

  function StopLine(r: Request, count: nat): int {
    if r.endLine.Some? then Lesser(r.endLine.value, count) else count
  }

  function PageStop(r: Request, line: nat, count: nat): int {
    if r.maxLines.Some? then Lesser(StopLine(r, count), line + r.maxLines.value) else StopLine(r, count)
  }

  /** Where a request starts: at its cursor, or at its first line. */
  function Start(r: Request): Result<(nat, nat), ReadError>
    requires r.startLine.Some? ==> r.startLine.value >= 1
  {
    if r.cursor != "" then
      match Cursors.DecodeReadCursor(r.cursor)
      case Failure(_) => Failure(InvalidCursor)
      case Success(position) => Success(position)
    else Success((if r.startLine.Some? then r.startLine.value - 1 else 0, 0))
  }

  /** The position the loop starts from: past a line the cursor has left behind. */
  function Normal(lines: seq<string>, line: nat, character: nat): (nat, nat) {
    if line < |lines| && character >= |lines[line]| then (line + 1, 0) else (line, character)
  }

  predicate InRange(r: Request) {
    && 1 <= r.maxBytes <= MAX_READ_BYTES
    && (r.startLine.Some? ==> r.startLine.value >= 1)
    && (r.endLine.Some? ==> r.endLine.value >= 1 && (r.startLine.Some? ==> r.startLine.value <= r.endLine.value))
  }

  /** What `read_tools.read_file` accepts. */
  predicate ProjectRequest(r: Request) {
    && InRange(r) && (r.maxLines.Some? ==> 1 <= r.maxLines.value <= 2000)
    && (r.cursor != "" ==> r.startLine.None? && r.endLine.None?)
  }

  /** What `scoped_read_tools._read_file` accepts. */
  predicate ScopedRequest(r: Request) {
    && InRange(r) && (r.maxLines.Some? ==> 1 <= r.maxLines.value)
    && (r.cursor != "" ==> r.endLine.None?)
  }

  function Continuation(truncated: bool, page: Page): Option<string> {
    if truncated then Some(Cursors.EncodeReadCursor(page.nextLine, page.nextCharacter)) else None
  }

  /** The answer is a page, and says so when something is left before `limit`. */
  ghost predicate Answers(codec: Codec, lines: seq<string>, line: nat, character: nat, stop: nat, limit: nat,
                          budget: nat, answer: Answer) {
    exists page :: IsPage(codec, lines, line, character, stop, budget, page)
      && answer.text == page.text
      && answer.continuation == Continuation(page.nextLine < limit || page.nextCharacter > 0, page)
  }

  lemma PageAnswers(codec: Codec, lines: seq<string>, line: nat, character: nat, stop: nat, limit: nat, budget: nat,
                    page: Page, answer: Answer)
    requires IsPage(codec, lines, line, character, stop, budget, page)
    requires answer.text == page.text
    requires answer.continuation == Continuation(page.nextLine < limit || page.nextCharacter > 0, page)
    ensures Answers(codec, lines, line, character, stop, limit, budget, answer)
  {
    hide IsPage, Continuation;
  }

  lemma StartsInside(lines: seq<string>, line: nat, character: nat, stop: nat)
    requires WholeLines(lines) && line <= |lines| && (line == |lines| ==> character == 0) && line <= stop <= |lines|
    requires line < |lines| && character > 0 ==> line < stop
    ensures var (from, offset) := Normal(lines, line, character);
      Position(lines, from, offset) && from <= stop && (from == stop ==> offset == 0)
  {
  }

  // A request without a cursor, told by its line numbers.

  function FirstIndex(r: Request): int {
    if r.startLine.Some? then r.startLine.value - 1 else 0
  }

  /** As far as the request goes: to the end of the file, to its last line, or so
    many lines on, whichever comes first. */
  predicate GoesTo(r: Request, first: int, count: nat, stop: int) {
    && first <= stop <= count
    && (r.endLine.Some? ==> stop <= r.endLine.value) && (r.maxLines.Some? ==> stop <= first + r.maxLines.value)
    && (stop == count || r.endLine == Some(stop) || (r.maxLines.Some? && stop == first + r.maxLines.value))
  }

  lemma StopMeans(r: Request, count: nat)
    requires InRange(r) && r.cursor == "" && 0 <= FirstIndex(r) <= count && (r.maxLines.Some? ==> r.maxLines.value >= 1)
    ensures Start(r) == Success((FirstIndex(r), 0))
    ensures GoesTo(r, FirstIndex(r), count, PageStop(r, FirstIndex(r), count))
    ensures GoesTo(r.(maxLines := None), FirstIndex(r), count, StopLine(r, count))
  {
  }

  /** The text of the lines asked for, as much as fits; a continuation exactly when
    some of the text up to the limit is missing. */
  predicate GivesLines(codec: Codec, lines: seq<string>, first: int, stop: int, limit: int, budget: int, answer: Answer) {
    && 0 <= first <= stop <= limit <= |lines|
    && answer.text == Fit(codec, Concat(lines[first..stop]), budget)
    && (answer.continuation == None <==> answer.text == Concat(lines[first..limit]))
    && answer.firstLine == first + 1
  }

  ghost predicate Gives(codec: Codec, lines: seq<string>, r: Request, limited: Request, answer: Answer) {
    exists stop, limit ::
      && GoesTo(r, FirstIndex(r), |lines|, stop) && GoesTo(limited, FirstIndex(r), |lines|, limit)
      && GivesLines(codec, lines, FirstIndex(r), stop, limit, r.maxBytes, answer)
  }

  lemma AheadLines(lines: seq<string>, first: nat, stop: nat)
    requires WholeLines(lines) && first <= stop <= |lines|
    ensures Position(lines, first, 0) && Normal(lines, first, 0) == (first, 0)
    ensures Ahead(lines, first, 0, stop) == Concat(lines[first..stop])
  {
    if first < stop { ConcatFirst(lines, first, stop); }
  }

  lemma {:induction false} ConcatSplits(lines: seq<string>, a: nat, b: nat, c: nat)
    requires a <= b <= c <= |lines|
    ensures Concat(lines[a..c]) == Concat(lines[a..b]) + Concat(lines[b..c])
    decreases b - a
  {
    hide Concat;
    if a == b {
      assert lines[a..b] == [];
      NothingConcat();
    } else {
      ConcatFirst(lines, a, c);
      ConcatFirst(lines, a, b);
      ConcatSplits(lines, a + 1, b, c);
      Assoc(lines[a], Concat(lines[a + 1..b]), Concat(lines[b..c]));
    }
  }

  lemma ConcatNotEmpty(lines: seq<string>, a: nat, b: nat)
    requires WholeLines(lines) && a < b <= |lines|
    ensures Concat(lines[a..b]) != ""
  {
    ConcatFirst(lines, a, b);
  }

  lemma AnswerGives(codec: Codec, lines: seq<string>, first: nat, stop: nat, limit: nat, budget: nat, answer: Answer)
    requires WholeLines(lines) && first <= stop <= limit <= |lines| && answer.firstLine == first + 1
    requires Answers(codec, lines, first, 0, stop, limit, budget, answer)
    ensures GivesLines(codec, lines, first, stop, limit, budget, answer)
  {
    hide Fit, Concat;
    AheadLines(lines, first, stop);
    var page :| IsPage(codec, lines, first, 0, stop, budget, page)
      && answer.text == page.text
      && answer.continuation == Continuation(page.nextLine < limit || page.nextCharacter > 0, page);
    ConcatSplits(lines, first, stop, limit);
    var left := Ahead(lines, page.nextLine, page.nextCharacter, stop);
    if page.nextLine < stop {
      assert left != "";
    } else {
      assert left == "" && page.text == Concat(lines[first..stop]);
      if stop < limit {
        ConcatNotEmpty(lines, stop, limit);
      } else {
        assert lines[stop..limit] == [];
        NothingConcat();
      }
    }
  }

  lemma NothingConcat()
    ensures Concat([]) == ""
  {
  }

  method RefusesRequest(r: Request) returns (refused: bool)
    ensures refused == !ProjectRequest(r)
  {
    if !(1 <= r.maxBytes <= MAX_READ_BYTES) || (r.maxLines.Some? && !(1 <= r.maxLines.value <= 2000)) {
      return true;
    }
    if r.cursor != "" && (r.startLine.Some? || r.endLine.Some?) {
      return true;
    }
    if (r.startLine.Some? && r.startLine.value < 1) || (r.endLine.Some? && r.endLine.value < 1) {
      return true;
    }
    return r.startLine.Some? && r.endLine.Some? && r.endLine.value < r.startLine.value;
  }

  /** `read_tools.read_file`. */
  method ReadFile(text: string, codec: Codec, r: Request) returns (result: Result<Answer, ReadError>)
    ensures result == Failure(InvalidRequest) <==> !ProjectRequest(r)
    ensures ProjectRequest(r) ==>
      var lines := KeptLines(text);
      (result.Success? <==> Start(r).Success? && Start(r).value.0 <= |lines|
                            && (Start(r).value.0 == |lines| ==> Start(r).value.1 == 0))
    ensures result.Success? ==>
      var lines := KeptLines(text);
      var (line, character) := Start(r).value;
      var (from, offset) := Normal(lines, line, character);
      var stop := PageStop(r, line, |lines|);
      && 0 <= stop && Answers(codec, lines, from, offset, stop, stop, r.maxBytes, result.value)
      && result.value.firstLine == line + 1
    ensures ProjectRequest(r) && r.cursor == "" ==>
      if FirstIndex(r) > |KeptLines(text)| then result == Failure(InvalidCursor)
      else result.Success? && Gives(codec, KeptLines(text), r, r, result.value)
  {
    hide KeptLines, Answers, Cursors.DecodeReadCursor, Continuation, Normal, GivesLines;
    var refused := RefusesRequest(r);
    if refused {
      return Failure(InvalidRequest);
    }
    var lines := KeptLines(text);
    var start := Start(r);
    if start.Failure? {
      return Failure(InvalidCursor);
    }
    var (line, character) := start.value;
    if line > |lines| || (line == |lines| && character != 0) {
      return Failure(InvalidCursor);
    }
    var stop := PageStop(r, line, |lines|);
    var (from, offset) := Normal(lines, line, character);
    StartsInside(lines, line, character, stop);
    var page := TakePage(codec, lines, from, offset, stop, r.maxBytes);
    var truncated := page.nextLine < stop || page.nextCharacter > 0;
    var answer := Answer(page.text, line + 1, Continuation(truncated, page));
    PageAnswers(codec, lines, from, offset, stop, stop, r.maxBytes, page, answer);
    if r.cursor == "" {
      StopMeans(r, |lines|);
      AheadLines(lines, line, stop);
      AnswerGives(codec, lines, line, stop, stop, r.maxBytes, answer);
    }
    return Success(answer);
  }

  /** The cursor points past the file, or past its line. */
  predicate Beyond(lines: seq<string>, line: nat, character: nat) {
    line > |lines| || character > if line < |lines| then |lines[line]| else 0
  }

  /** `scoped_read_tools._read_file`: a page that cannot hold the next character is an error. */
  method ReadScopedFile(text: string, codec: Codec, r: Request) returns (result: Result<Answer, ReadError>)
    ensures result == Failure(InvalidRequest) <==> !ScopedRequest(r)
    ensures ScopedRequest(r) ==>
      var lines := KeptLines(text);
      (result == Failure(InvalidCursor) <==> Start(r).Failure? || Beyond(lines, Start(r).value.0, Start(r).value.1))
    ensures result.Success? || result == Failure(ResultLimit) ==>
      var lines := KeptLines(text);
      var (line, character) := Start(r).value;
      var (from, offset) := Normal(lines, line, character);
      var stop := PageStop(r, line, |lines|);
      && 0 <= stop <= |lines| && Position(lines, from, offset)
      && (result.Failure? ==>
            (from, offset) == (line, character) && Ahead(lines, line, character, stop) != ""
            && Fit(codec, Ahead(lines, line, character, stop), r.maxBytes) == "")
      && (result.Success? ==>
            && Answers(codec, lines, from, offset, stop, StopLine(r, |lines|), r.maxBytes, result.value)
            && result.value.firstLine == line + 1
            && (result.value.text == "" && (from, offset) == (line, character) ==> Ahead(lines, line, character, stop) == ""))
    ensures ScopedRequest(r) && r.cursor == "" ==>
      if FirstIndex(r) > |KeptLines(text)| then result == Failure(InvalidCursor)
      else if result.Failure? then result.error == ResultLimit
      else Gives(codec, KeptLines(text), r, r.(maxLines := None), result.value)
  {
    hide KeptLines, Answers, Cursors.DecodeReadCursor, Continuation, Fit, Ahead, IsPage, GivesLines, Normal;
    if !(1 <= r.maxBytes <= MAX_READ_BYTES) || (r.cursor != "" && r.endLine.Some?)
       || (r.startLine.Some? && r.startLine.value < 1)
       || (r.endLine.Some? && r.endLine.value < if r.startLine.Some? then r.startLine.value else 1)
       || (r.maxLines.Some? && r.maxLines.value < 1) {
      return Failure(InvalidRequest);
    }
    var lines := KeptLines(text);
    var start := Start(r);
    if start.Failure? {
      return Failure(InvalidCursor);
    }
    var (line, character) := start.value;
    if line > |lines| || (line == |lines| && character != 0) || (line < |lines| && character > |lines[line]|) {
      return Failure(InvalidCursor);
    }
    var stop := PageStop(r, line, |lines|);
    var (from, offset) := Normal(lines, line, character);
    StartsInside(lines, line, character, stop);
    var page := TakePage(codec, lines, from, offset, stop, r.maxBytes);
    if (page.nextLine, page.nextCharacter) == (line, character) && line < stop {
      StuckHere(codec, lines, line, character, from, offset, stop, r.maxBytes, page);
      return Failure(ResultLimit);
    }
    var truncated := page.nextLine < StopLine(r, |lines|) || page.nextCharacter > 0;
    if (from, offset) == (line, character) {
      MovedPage(codec, lines, from, offset, stop, r.maxBytes, page);
    }
    var answer := Answer(page.text, line + 1, Continuation(truncated, page));
    PageAnswers(codec, lines, from, offset, stop, StopLine(r, |lines|), r.maxBytes, page, answer);
    if r.cursor == "" {
      StopMeans(r, |lines|);
      AheadLines(lines, line, stop);
      AnswerGives(codec, lines, line, stop, StopLine(r, |lines|), r.maxBytes, answer);
    }
    return Success(answer);
  }

  lemma StuckPage(codec: Codec, lines: seq<string>, line: nat, character: nat, stop: nat, budget: nat, page: Page)
    requires WholeLines(lines) && IsPage(codec, lines, line, character, stop, budget, page)
    requires (page.nextLine, page.nextCharacter) == (line, character) && line < stop
    ensures page.text == "" && Ahead(lines, line, character, stop) != ""
  {
    hide Fit, Concat;
  }

  lemma StuckHere(codec: Codec, lines: seq<string>, line: nat, character: nat, from: nat, offset: nat, stop: nat,
                  budget: nat,
                  page: Page)
    requires WholeLines(lines) && (from, offset) == Normal(lines, line, character)
    requires IsPage(codec, lines, from, offset, stop, budget, page)
    requires (page.nextLine, page.nextCharacter) == (line, character) && line < stop
    ensures (from, offset) == (line, character)
    ensures Ahead(lines, line, character, stop) != "" && Fit(codec, Ahead(lines, line, character, stop), budget) == ""
  {
    hide Fit, Concat, Ahead;
    StuckPage(codec, lines, from, offset, stop, budget, page);
  }

  lemma MovedPage(codec: Codec, lines: seq<string>, line: nat, character: nat, stop: nat, budget: nat, page: Page)
    requires WholeLines(lines) && IsPage(codec, lines, line, character, stop, budget, page)
    requires (page.nextLine, page.nextCharacter) != (line, character) || line >= stop
    ensures page.text == "" ==> Ahead(lines, line, character, stop) == ""
  {
    hide Fit, Concat;
  }

  // Reading a whole file by following continuations.

  /** Some character is wider than a whole page. */
  ghost predicate TooWide(codec: Codec, text: string, budget: int) {
    exists i :: 0 <= i < |text| && Width(codec, text[i]) > budget
  }

  lemma {:induction false} FittingIsNarrow(codec: Codec, s: string, budget: int)
    requires Size(codec, s) <= budget
    ensures !TooWide(codec, s, budget)
  {
    hide Width;
    if s != "" {
      FittingIsNarrow(codec, s[1..], budget - Width(codec, s[0]));
      forall i | 0 <= i < |s| ensures Width(codec, s[i]) <= budget {
        if i > 0 { assert s[i] == s[1..][i - 1]; }
      }
    }
  }

  lemma StuckIsTooWide(codec: Codec, s: string, budget: nat)
    requires s != "" && Fit(codec, s, budget) == ""
    ensures TooWide(codec, s, budget)
  {
    assert Width(codec, s[0]) > budget;
  }

  lemma {:induction false} ConcatSnoc(pages: seq<string>, page: string)
    ensures Concat(pages + [page]) == Concat(pages) + page
  {
    if pages == [] {
      assert Concat([page]) == page + Concat([][..]);
    } else {
      ConcatSnoc(pages[1..], page);
      assert (pages + [page])[1..] == pages[1..] + [page];
    }
  }

  lemma {:induction false} ConcatJoin(a: seq<string>, b: seq<string>)
    ensures Concat(a + b) == Concat(a) + Concat(b)
  {
    if a == [] {
      assert a + b == b;
    } else {
      ConcatJoin(a[1..], b);
      assert (a + b)[1..] == a[1..] + b && (a + b)[0] == a[0];
      Assoc(a[0], Concat(a[1..]), Concat(b));
    }
  }

  /** Reading up to a line, and then the rest. */
  lemma AheadSplit(lines: seq<string>, line: nat, character: nat, stop: nat)
    requires Position(lines, line, character) && line <= stop <= |lines| && (line == stop ==> character == 0)
    ensures Ahead(lines, line, character, |lines|) == Ahead(lines, line, character, stop) + Concat(lines[stop..])
  {
    if line < stop {
      ConcatJoin(lines[line + 1..stop], lines[stop..]);
      assert lines[line + 1..stop] + lines[stop..] == lines[line + 1..];
      assert lines[line + 1..|lines|] == lines[line + 1..];
    } else if line < |lines| {
      ConcatFirst(lines, line, |lines|);
      assert lines[line..|lines|] == lines[line..];
    }
  }

  lemma PageLeaves(codec: Codec, lines: seq<string>, line: nat, character: nat, stop: nat, budget: nat, page: Page)
    requires IsPage(codec, lines, line, character, stop, budget, page) && (line == stop ==> character == 0)
    ensures Ahead(lines, line, character, |lines|) == page.text + Ahead(lines, page.nextLine, page.nextCharacter, |lines|)
    ensures Size(codec, page.text) <= budget
  {
    hide Fit, Ahead;
    AheadSplit(lines, line, character, stop);
    AheadSplit(lines, page.nextLine, page.nextCharacter, stop);
    Assoc(page.text, Ahead(lines, page.nextLine, page.nextCharacter, stop), Concat(lines[stop..]));
    FitSize(codec, Ahead(lines, line, character, stop), budget);
  }

  lemma FitSize(codec: Codec, s: string, budget: nat)
    ensures Size(codec, Fit(codec, s, budget)) <= budget
  {
  }

  lemma WholeText(text: string)
    ensures var lines := KeptLines(text);
      Position(lines, 0, 0) && Ahead(lines, 0, 0, |lines|) == text
  {
    KeptLinesJoin(text);
    var lines := KeptLines(text);
    assert lines[0..|lines|] == lines;
    if |lines| > 0 {
      ConcatFirst(lines, 0, |lines|);
    }
  }

  /** Every page fits. */
  ghost predicate PagesFit(codec: Codec, pages: seq<string>, budget: int) {
    forall i :: 0 <= i < |pages| ==> Size(codec, pages[i]) <= budget
  }

  lemma {:induction false} NarrowPages(codec: Codec, pages: seq<string>, budget: int)
    requires PagesFit(codec, pages, budget)
    ensures !TooWide(codec, Concat(pages), budget)
  {
    if pages != [] {
      NarrowPages(codec, pages[1..], budget);
      FittingIsNarrow(codec, pages[0], budget);
      var rest := Concat(pages[1..]);
      forall i | 0 <= i < |Concat(pages)| ensures Width(codec, Concat(pages)[i]) <= budget {
        assert Concat(pages)[i] == if i < |pages[0]| then pages[0][i] else rest[i - |pages[0]|];
      }
    }
  }

  lemma WideTail(codec: Codec, head: string, tail: string, budget: int)
    requires TooWide(codec, tail, budget)
    ensures TooWide(codec, head + tail, budget)
  {
    var i :| 0 <= i < |tail| && Width(codec, tail[i]) > budget;
    assert (head + tail)[|head| + i] == tail[i];
  }

  /** The page an answer was made from; its continuation is the next request's start. */
  lemma NextRequest(r: Request, page: Page)
    ensures Start(r.(startLine := None, endLine := None, cursor := Cursors.EncodeReadCursor(page.nextLine, page.nextCharacter)))
      == Success((page.nextLine, page.nextCharacter))
  {
    hide Cursors.DecodeReadCursor, Cursors.EncodeReadCursor;
    Cursors.ReadCursorRoundTrip(page.nextLine, page.nextCharacter);
  }

  /** Following the continuations of `read_file` gives the whole text, unless a
    character is wider than a page: then, and only then, the reader is sent back
    to the same place for ever. */
  method FollowReadFile(text: string, codec: Codec, maxBytes: int) returns (pages: seq<string>, stuck: bool)
    requires 1 <= maxBytes <= MAX_READ_BYTES
    ensures PagesFit(codec, pages, maxBytes)
    ensures stuck <==> TooWide(codec, text, maxBytes)
    ensures !stuck ==> Concat(pages) == text
    ensures maxBytes >= 4 ==> !stuck
  {
    hide KeptLines, Ahead, Size, Fit, Concat, IsPage, TooWide, Cursors.EncodeReadCursor, Cursors.DecodeReadCursor;
    pages := [];
    var r := Request(None, None, maxBytes, None, "");
    ghost var lines := KeptLines(text);
    ghost var line: nat, character: nat := 0, 0;
    WholeText(text);
    NoPages(text);
    if maxBytes >= 4 { FourBytesHoldAny(codec, text, maxBytes); }
    while true
      invariant r.startLine.None? && r.endLine.None? && r.maxLines.None? && r.maxBytes == maxBytes
      invariant Start(r) == Success((line, character)) && Position(lines, line, character)
      invariant PagesFit(codec, pages, maxBytes)
      invariant Concat(pages) + Ahead(lines, line, character, |lines|) == text
      decreases |Ahead(lines, line, character, |lines|)|
    {
      var answer := ReadFile(text, codec, r);
      ghost var page :| IsPage(codec, lines, line, character, |lines|, maxBytes, page)
        && answer.value.text == page.text
        && answer.value.continuation == Continuation(page.nextLine < |lines| || page.nextCharacter > 0, page);
      PageTaken(codec, lines, line, character, |lines|, maxBytes, page, pages, text);
      pages := pages + [answer.value.text];
      if answer.value.continuation.None? {
        NothingAhead(lines, |lines|);
        NarrowPages(codec, pages, maxBytes);
        return pages, false;
      }
      if answer.value.text == "" {
        StuckAtWide(codec, lines, line, character, |lines|, maxBytes, page, Concat(pages), text);
        return pages, true;
      }
      NextRequest(r, page);
      r := r.(cursor := answer.value.continuation.value);
      line, character := page.nextLine, page.nextCharacter;
    }
  }

  lemma NoPages(text: string)
    ensures Concat([]) == "" && Concat([]) + text == text
  {
  }

  lemma NothingAhead(lines: seq<string>, stop: nat)
    requires stop == |lines|
    ensures Ahead(lines, stop, 0, stop) == "" && forall s: string :: s + "" == s
  {
  }

  /** One page more, and the position after it. */
  lemma PageTaken(codec: Codec, lines: seq<string>, line: nat, character: nat, stop: nat, budget: nat, page: Page,
                  pages: seq<string>, text: string)
    requires IsPage(codec, lines, line, character, stop, budget, page) && (line == stop ==> character == 0)
    requires PagesFit(codec, pages, budget) && Concat(pages) + Ahead(lines, line, character, |lines|) == text
    ensures PagesFit(codec, pages + [page.text], budget)
    ensures Position(lines, page.nextLine, page.nextCharacter)
    ensures Concat(pages + [page.text]) + Ahead(lines, page.nextLine, page.nextCharacter, |lines|) == text
    ensures page.text == "" ==> page.nextLine == line && page.nextCharacter == character
    ensures page.text != "" ==>
      |Ahead(lines, page.nextLine, page.nextCharacter, |lines|)| < |Ahead(lines, line, character, |lines|)|
  {
    hide Ahead, Fit, Size, Concat;
    PageLeaves(codec, lines, line, character, stop, budget, page);
    ConcatSnoc(pages, page.text);
    Assoc(Concat(pages), page.text, Ahead(lines, page.nextLine, page.nextCharacter, |lines|));
  }

  /** A page with nothing on it, and something ahead. */
  lemma StuckAtWide(codec: Codec, lines: seq<string>, line: nat, character: nat, stop: nat, budget: nat, page: Page,
                    before: string, text: string)
    requires WholeLines(lines) && IsPage(codec, lines, line, character, stop, budget, page) && page.text == "" && line < stop
    requires before + Ahead(lines, line, character, |lines|) == text
    ensures TooWide(codec, text, budget)
  {
    hide Ahead, Fit, Concat, TooWide;
    StuckPage(codec, lines, line, character, stop, budget, page);
    StuckIsTooWide(codec, Ahead(lines, line, character, stop), budget);
    AheadSplit(lines, line, character, stop);
    WideHead(codec, Ahead(lines, line, character, stop), Concat(lines[stop..]), budget);
    WideTail(codec, before, Ahead(lines, line, character, |lines|), budget);
  }

  lemma WideHead(codec: Codec, head: string, tail: string, budget: int)
    requires TooWide(codec, head, budget)
    ensures TooWide(codec, head + tail, budget)
  {
    var i :| 0 <= i < |head| && Width(codec, head[i]) > budget;
    assert (head + tail)[i] == head[i];
  }

  lemma FourBytesHoldAny(codec: Codec, text: string, budget: int)
    requires budget >= 4
    ensures !TooWide(codec, text, budget)
  {
  }

  /** Following the continuations of the scoped reader, whatever its limit of
    lines a page: the whole text, unless a character is wider than a page, which
    is an error when its page is asked for. */
  method FollowScopedFile(text: string, codec: Codec, maxBytes: int, maxLines: Option<int>)
    returns (pages: seq<string>, error: Option<ReadError>)
    requires 1 <= maxBytes <= MAX_READ_BYTES && (maxLines.Some? ==> maxLines.value >= 1)
    ensures PagesFit(codec, pages, maxBytes)
    ensures error.None? <==> !TooWide(codec, text, maxBytes)
    ensures error.None? ==> Concat(pages) == text
    ensures error.Some? ==> error.value == ResultLimit
  {
    hide KeptLines, Ahead, Size, Fit, Concat, IsPage, TooWide, Cursors.EncodeReadCursor, Cursors.DecodeReadCursor;
    pages := [];
    var r := Request(None, None, maxBytes, maxLines, "");
    ghost var lines := KeptLines(text);
    ghost var line: nat, character: nat := 0, 0;
    WholeText(text);
    NoPages(text);
    while true
      invariant r == Request(None, None, maxBytes, maxLines, r.cursor)
      invariant Start(r) == Success((line, character)) && Position(lines, line, character)
      invariant PagesFit(codec, pages, maxBytes)
      invariant Concat(pages) + Ahead(lines, line, character, |lines|) == text
      decreases |Ahead(lines, line, character, |lines|)|
    {
      var answer := ReadScopedFile(text, codec, r);
      ghost var stop := PageStop(r, line, |lines|);
      if answer.Failure? {
        assert ScopedRequest(r) && !Beyond(lines, line, character);
        assert answer != Failure(InvalidRequest) && answer != Failure(InvalidCursor);
        assert answer.error.ResultLimit?;
        StuckIsTooWide(codec, Ahead(lines, line, character, stop), maxBytes);
        WideAhead(codec, lines, line, character, stop, maxBytes, Concat(pages), text);
        return pages, Some(answer.error);
      }
      ghost var page :| IsPage(codec, lines, line, character, stop, maxBytes, page)
        && answer.value.text == page.text
        && answer.value.continuation == Continuation(page.nextLine < |lines| || page.nextCharacter > 0, page);
      PageTaken(codec, lines, line, character, stop, maxBytes, page, pages, text);
      pages := pages + [answer.value.text];
      if answer.value.continuation.None? {
        NothingAhead(lines, |lines|);
        NarrowPages(codec, pages, maxBytes);
        return pages, None;
      }
      SomethingAhead(lines, line, character, stop);
      NextRequest(r, page);
      r := r.(cursor := answer.value.continuation.value);
      line, character := page.nextLine, page.nextCharacter;
    }
  }

  lemma WideAhead(codec: Codec, lines: seq<string>, line: nat, character: nat, stop: nat, budget: nat,
                  before: string, text: string)
    requires Position(lines, line, character) && line <= stop <= |lines| && (line == stop ==> character == 0)
    requires TooWide(codec, Ahead(lines, line, character, stop), budget)
    requires before + Ahead(lines, line, character, |lines|) == text
    ensures TooWide(codec, text, budget)
  {
    hide Ahead, Concat, TooWide;
    AheadSplit(lines, line, character, stop);
    WideHead(codec, Ahead(lines, line, character, stop), Concat(lines[stop..]), budget);
    WideTail(codec, before, Ahead(lines, line, character, |lines|), budget);
  }

  lemma SomethingAhead(lines: seq<string>, line: nat, character: nat, stop: nat)
    requires WholeLines(lines) && Position(lines, line, character) && stop <= |lines|
    ensures line < stop ==> Ahead(lines, line, character, stop) != ""
  {
    hide Concat;
  }
}
