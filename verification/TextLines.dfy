/** `str.splitlines`: where a text breaks into lines, and how lines join back. */
module TextLines {
  import opened Wrappers

  /** A line and the break that ends it, which is empty only for an unterminated last line. */
  datatype Line = Line(text: string, ending: string) {
    function Whole(): string { text + ending }
  }

  predicate IsBreak(c: char) {
    || '\U{0A}' <= c <= '\U{0D}'
    || '\U{1C}' <= c <= '\U{1E}'
    || c == '\U{85}' || c == '\U{2028}' || c == '\U{2029}'
  }

  predicate Breakless(s: string) {
    forall i :: 0 <= i < |s| ==> !IsBreak(s[i])
  }

  predicate AllBreakless(lines: seq<string>) {
    forall i :: 0 <= i < |lines| ==> Breakless(lines[i])
  }

  /** The text before the first break. */
  function Head(s: string): (h: string)
    ensures h <= s && Breakless(h)
    ensures |h| < |s| ==> IsBreak(s[|h|])
  {
    if s == "" || IsBreak(s[0]) then "" else [s[0]] + Head(s[1..])
  }

  /** The break a text starts with; a carriage return takes a following line feed along. */
  function LeadingBreak(s: string): (b: string)
    ensures b <= s
    ensures b == "" <==> s == "" || !IsBreak(s[0])
  {
    if s == "" || !IsBreak(s[0]) then ""
    else if |s| > 1 && s[0] == '\r' && s[1] == '\n' then s[..2]
    else s[..1]
  }

  function FirstLine(s: string): (l: Line)
    ensures l.Whole() <= s
    ensures s != "" ==> l.Whole() != ""
  {
    var text := Head(s);
    var ending := LeadingBreak(s[|text|..]);
    assert s == text + s[|text|..];
    Line(text, ending)
  }

  function Lines(s: string): (ls: seq<Line>)
    decreases |s|
  {
    if s == "" then []
    else [FirstLine(s)] + Lines(s[|FirstLine(s).Whole()|..])
  }

  function Flatten(ls: seq<Line>): string {
    if ls == [] then "" else ls[0].Whole() + Flatten(ls[1..])
  }

  function Texts(ls: seq<Line>): (r: seq<string>)
    ensures |r| == |ls|
    ensures forall i :: 0 <= i < |ls| ==> r[i] == ls[i].text
  {
    seq(|ls|, i requires 0 <= i < |ls| => ls[i].text)
  }

  function SplitLines(s: string): seq<string> {
    Texts(Lines(s))
  }

  /** A well-formed line break. */
  predicate IsEnding(b: string) {
    b == "\r\n" || (|b| == 1 && IsBreak(b[0]))
  }

  predicate LineFeedFirst(s: string) {
    s != "" && s[0] == '\n'
  }

  /** A line that can stand before `rest` without merging with it. */
  predicate Separate(l: Line, rest: seq<Line>) {
    && Breakless(l.text)
    && (IsEnding(l.ending) || (rest == [] && l.ending == "" && l.text != ""))
    && (l.ending == "\r" ==> !LineFeedFirst(Flatten(rest)))
  }

  /** Lists of lines that some text splits into: only the last line may be
    unterminated, and then it is not empty; no carriage return meets a line feed. */
  predicate Splittable(ls: seq<Line>) {
    ls == [] || (Separate(ls[0], ls[1..]) && Splittable(ls[1..]))
  }

  /** Splitting loses nothing. */
  lemma {:induction false} FlattenLines(s: string)
    ensures Flatten(Lines(s)) == s
    ensures Splittable(Lines(s))
    decreases |s|
  {
    if s != "" {
      var l := FirstLine(s);
      var rest := s[|l.Whole()|..];
      FlattenLines(rest);
      assert Lines(s)[0] == l && Lines(s)[1..] == Lines(rest);
      assert s == l.Whole() + rest;
      FirstLineSeparate(s);
    }
  }

  lemma FirstLineSeparate(s: string)
    requires s != ""
    ensures var l := FirstLine(s);
      && Breakless(l.text)
      && (IsEnding(l.ending) || (s == l.Whole() && l.ending == "" && l.text != ""))
      && (l.ending == "\r" ==> !LineFeedFirst(s[|l.Whole()|..]))
  {
    var after := s[|Head(s)|..];
    assert s == Head(s) + after;
  }

  /** A splittable list of lines is exactly what its text splits into. */
  lemma {:induction false} LinesFlatten(ls: seq<Line>)
    requires Splittable(ls)
    ensures Lines(Flatten(ls)) == ls
    decreases |ls|
  {
    if ls != [] {
      var l, rest := ls[0], Flatten(ls[1..]);
      LinesFlatten(ls[1..]);
      FirstLineOf(l, rest);
      assert (l.Whole() + rest)[|l.Whole()|..] == rest;
    }
  }

  lemma FirstLineOf(l: Line, rest: string)
    requires Breakless(l.text)
    requires IsEnding(l.ending) || (l.ending == "" && rest == "")
    requires l.ending == "\r" ==> !LineFeedFirst(rest)
    ensures FirstLine(l.Whole() + rest) == l
  {
    var s := l.Whole() + rest;
    assert s == l.text + (l.ending + rest);
    HeadOf(l.text, l.ending + rest);
    assert s[|l.text|..] == l.ending + rest;
  }

  lemma {:induction false} HeadOf(text: string, rest: string)
    requires Breakless(text) && (rest == "" || IsBreak(rest[0]))
    ensures Head(text + rest) == text
  {
    if text == "" {
      assert text + rest == rest;
    } else {
      HeadOf(text[1..], rest);
      assert (text + rest)[1..] == text[1..] + rest;
    }
  }

  /** `separator.join(lines)`. */
  function Join(lines: seq<string>, separator: string): string {
    if lines == [] then ""
    else if |lines| == 1 then lines[0]
    else lines[0] + separator + Join(lines[1..], separator)
  }

  /** The lines of a joined text, with the separator as their break; a last
    empty line leaves no trace unless a final separator follows it. */
  function Terminated(lines: seq<string>, separator: string, final: bool): (ls: seq<Line>)
    ensures forall i :: 0 <= i < |ls| ==> ls[i].ending == separator || ls[i].ending == ""
  {
    if lines == [] then []
    else if |lines| == 1 && !final then
      if lines[0] == "" then [] else [Line(lines[0], "")]
    else [Line(lines[0], separator)] + Terminated(lines[1..], separator, final)
  }

  function Rendered(lines: seq<string>, separator: string, final: bool): string {
    Join(lines, separator) + if final && lines != [] then separator else ""
  }

  lemma {:induction false} RenderedIsFlat(lines: seq<string>, separator: string, final: bool)
    ensures Flatten(Terminated(lines, separator, final)) == Rendered(lines, separator, final)
  {
    if |lines| == 1 {
      assert lines[1..] == [];
      assert Terminated(lines[1..], separator, final) == [];
      assert Flatten([Line(lines[0], "")]) == lines[0];
      assert Flatten([Line(lines[0], separator)]) == lines[0] + separator;
    } else if |lines| > 1 {
      RenderedIsFlat(lines[1..], separator, final);
      var ls := Terminated(lines, separator, final);
      assert ls[1..] == Terminated(lines[1..], separator, final);
    }
  }

  predicate IsNewline(s: string) {
    s == "\r\n" || s == "\n" || s == "\r"
  }

  lemma {:induction false} TerminatedSplittable(lines: seq<string>, separator: string, final: bool)
    requires forall i :: 0 <= i < |lines| ==> Breakless(lines[i])
    requires IsNewline(separator)
    ensures Splittable(Terminated(lines, separator, final))
  {
    if lines == [] || (|lines| == 1 && !final) {
    } else {
      TerminatedSplittable(lines[1..], separator, final);
      var tail := Terminated(lines[1..], separator, final);
      assert Terminated(lines, separator, final)[1..] == tail;
      if tail != [] {
        assert Flatten(tail) == tail[0].text + (tail[0].ending + Flatten(tail[1..]));
      }
    }
  }

  /** The lines of a rendered text. */
  lemma LinesOfRendered(lines: seq<string>, separator: string, final: bool)
    requires forall i :: 0 <= i < |lines| ==> Breakless(lines[i])
    requires IsNewline(separator)
    ensures Lines(Rendered(lines, separator, final)) == Terminated(lines, separator, final)
  {
    RenderedIsFlat(lines, separator, final);
    TerminatedSplittable(lines, separator, final);
    LinesFlatten(Terminated(lines, separator, final));
  }

  lemma {:induction false} TextsOfTerminated(lines: seq<string>, separator: string, final: bool)
    requires lines == [] || final || lines[|lines| - 1] != ""
    ensures Texts(Terminated(lines, separator, final)) == lines
  {
    if lines != [] && (|lines| > 1 || final) {
      if |lines| > 1 || final {
        TextsOfTerminated(lines[1..], separator, final);
      }
    }
  }

  /** Lines without breaks join and split back. */
  lemma SplitJoin(lines: seq<string>, separator: string)
    requires forall i :: 0 <= i < |lines| ==> Breakless(lines[i])
    requires IsNewline(separator)
    requires lines != [] && lines[|lines| - 1] != ""
    ensures SplitLines(Join(lines, separator)) == lines
  {
    LinesOfRendered(lines, separator, false);
    TextsOfTerminated(lines, separator, false);
    assert Join(lines, separator) == Rendered(lines, separator, false);
  }
}
