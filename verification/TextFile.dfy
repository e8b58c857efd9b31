/** How a patch reads a file as lines and writes it back. */
module TextFile {
  import opened Wrappers
  import opened Content
  import opened TextLines
  import Utf8

  datatype Document = Document(lines: seq<string>, newline: string, finalNewline: bool, bom: bool)

  const BOM: Bytes := [0xEF, 0xBB, 0xBF]

  function Body(raw: Bytes): Bytes {
    if BOM <= raw then raw[3..] else raw
  }

  predicate HasCrLf(s: string) {
    exists i :: 0 <= i < |s| - 1 && s[i] == '\r' && s[i + 1] == '\n'
  }

  /** The break written between lines; `platform` is the newline of the host. */
  function Newline(s: string, platform: string): string {
    if HasCrLf(s) then "\r\n"
    else if '\n' in s then "\n"
    else if '\r' in s then "\r"
    else platform
  }

  predicate EndsInNewline(s: string) {
    s != "" && (s[|s| - 1] == '\n' || s[|s| - 1] == '\r')
  }

  function OfText(s: string, bom: bool, platform: string): Document {
    Document(SplitLines(s), Newline(s, platform), EndsInNewline(s), bom)
  }

  function ToText(d: Document): string {
    Rendered(d.lines, d.newline, d.finalNewline)
  }

  /** Nothing for a body that is not valid UTF-8. */
  function Decode(raw: Bytes, platform: string): Option<Document> {
    match Utf8.Decode(Body(raw))
    case None => None
    case Some(s) => Some(OfText(s, BOM <= raw, platform))
  }

  function Encode(d: Document): Bytes {
    (if d.bom then BOM else []) + Utf8.Encode(ToText(d))
  }

  /** Every break in the text is the one that will be written back. */
  predicate Uniform(s: string, newline: string) {
    forall i :: 0 <= i < |Lines(s)| ==> Lines(s)[i].ending == "" || Lines(s)[i].ending == newline
  }

  predicate HasEnding(ls: seq<Line>, ending: string) {
    exists i :: 0 <= i < |ls| && ls[i].ending == ending
  }

  lemma HasEndingStep(ls: seq<Line>, ending: string)
    requires ls != []
    ensures HasEnding(ls, ending) <==> ls[0].ending == ending || HasEnding(ls[1..], ending)
  {
    if HasEnding(ls[1..], ending) {
      var i :| 0 <= i < |ls[1..]| && ls[1..][i].ending == ending;
      assert ls[i + 1].ending == ending;
    }
    if i :| 0 <= i < |ls| && ls[i].ending == ending {
      if i > 0 { assert ls[1..][i - 1].ending == ending; }
    }
  }

  /** The newline search on the text sees exactly the breaks of its lines. */
  lemma {:induction false} BreaksSeen(ls: seq<Line>)
    requires Splittable(ls)
    ensures HasCrLf(Flatten(ls)) <==> HasEnding(ls, "\r\n")
    ensures '\n' in Flatten(ls) <==> HasEnding(ls, "\r\n") || HasEnding(ls, "\n")
    ensures '\r' in Flatten(ls) <==> HasEnding(ls, "\r\n") || HasEnding(ls, "\r")
  {
    if ls != [] {
      var l, rest := ls[0], Flatten(ls[1..]);
      assert Flatten(ls) == l.text + l.ending + rest;
      BreaksSeen(ls[1..]);
      HasEndingStep(ls, "\r\n");
      HasEndingStep(ls, "\n");
      HasEndingStep(ls, "\r");
      CrLfStep(l, rest);
      BreakCharStep(l, rest, '\n');
      BreakCharStep(l, rest, '\r');
    }
  }

  lemma BreakCharStep(l: Line, rest: string, c: char)
    requires Breakless(l.text) && IsBreak(c)
    requires IsEnding(l.ending) || l.ending == ""
    ensures c in l.text + l.ending + rest <==>
      (l.ending == "\r\n" && (c == '\r' || c == '\n')) || l.ending == [c] || c in rest
  {
    assert c in l.text + l.ending + rest <==> c in l.text || c in l.ending || c in rest;
    assert c !in l.text;
  }

  lemma CrLfStep(l: Line, rest: string)
    requires Breakless(l.text)
    requires IsEnding(l.ending) || (l.ending == "" && rest == "")
    requires l.ending == "\r" ==> !LineFeedFirst(rest)
    ensures HasCrLf(l.text + l.ending + rest) <==> l.ending == "\r\n" || HasCrLf(rest)
  {
    var s := l.text + l.ending + rest;
    var n := |l.text| + |l.ending|;
    assert s[n..] == rest;
    if l.ending == "\r\n" {
      assert s[n - 2] == '\r' && s[n - 1] == '\n';
    }
    if HasCrLf(rest) {
      var i :| 0 <= i < |rest| - 1 && rest[i] == '\r' && rest[i + 1] == '\n';
      assert s[n + i] == '\r' && s[n + i + 1] == '\n';
    }
    if i :| 0 <= i < |s| - 1 && s[i] == '\r' && s[i + 1] == '\n' {
      if i >= n {
        assert rest[i - n] == '\r' && rest[i - n + 1] == '\n';
      } else {
        assert i >= |l.text|;
        assert s[i] == l.ending[i - |l.text|];
      }
    }
  }

  /** With one break throughout, that break is the one detected. */
  lemma UniformDetected(s: string, newline: string, platform: string)
    requires IsNewline(newline) && Uniform(s, newline)
    ensures Uniform(s, Newline(s, platform))
  {
    var ls := Lines(s);
    FlattenLines(s);
    BreaksSeen(ls);
    if i :| 0 <= i < |ls| && ls[i].ending != "" {
      assert ls[i].ending == newline;
      OnlyEnding(ls, newline, "\r\n");
      OnlyEnding(ls, newline, "\n");
      OnlyEnding(ls, newline, "\r");
      assert HasEnding(ls, newline);
    }
  }

  lemma OnlyEnding(ls: seq<Line>, newline: string, ending: string)
    requires forall i :: 0 <= i < |ls| ==> ls[i].ending == "" || ls[i].ending == newline
    requires ending != ""
    ensures HasEnding(ls, ending) ==> ending == newline
  {
  }

  lemma {:induction false} TerminatedTexts(ls: seq<Line>, newline: string)
    requires Splittable(ls) && newline != ""
    requires forall i :: 0 <= i < |ls| ==> ls[i].ending == "" || ls[i].ending == newline
    ensures Terminated(Texts(ls), newline, ls != [] && ls[|ls| - 1].ending != "") == ls
  {
    if ls != [] {
      TerminatedTexts(ls[1..], newline);
      assert Texts(ls)[1..] == Texts(ls[1..]);
      assert ls == [ls[0]] + ls[1..];
    }
  }

  lemma {:induction false} LastEnding(ls: seq<Line>)
    requires Splittable(ls) && ls != []
    requires forall i :: 0 <= i < |ls| ==> ls[i].ending == "" || IsNewline(ls[i].ending)
    ensures EndsInNewline(Flatten(ls)) <==> ls[|ls| - 1].ending != ""
  {
    var l, tail := ls[0], ls[1..];
    LastCharOf(l.Whole(), Flatten(tail));
    if tail != [] {
      assert forall i :: 0 <= i < |tail| ==> tail[i] == ls[i + 1];
      LastEnding(tail);
      assert Flatten(tail) == tail[0].Whole() + Flatten(tail[1..]);
    } else {
      LastCharOf(l.text, l.ending);
      BreaklessEnd(l.text);
    }
  }

  lemma LastCharOf(a: string, b: string)
    ensures EndsInNewline(a + b) <==> EndsInNewline(if b == "" then a else b)
  {
    if b != "" {
      assert (a + b)[|a + b| - 1] == b[|b| - 1];
    } else {
      assert a + b == a;
    }
  }

  lemma BreaklessEnd(s: string)
    requires Breakless(s)
    ensures !EndsInNewline(s)
  {
    if s != "" {
      assert !IsBreak(s[|s| - 1]);
    }
  }

  /** Writing back what was read reproduces a text exactly when all its breaks
    are the detected one. */
  lemma TextRoundTrip(s: string, platform: string)
    requires IsNewline(platform)
    ensures ToText(OfText(s, false, platform)) == s <==> Uniform(s, Newline(s, platform))
  {
    RenderedUniform(s, platform);
    if Uniform(s, Newline(s, platform)) {
      UniformReproduced(s, Newline(s, platform));
    }
  }

  lemma UniformReproduced(s: string, newline: string)
    requires IsNewline(newline) && Uniform(s, newline)
    ensures Rendered(SplitLines(s), newline, EndsInNewline(s)) == s
  {
    var ls := Lines(s);
    FlattenLines(s);
    if ls != [] { LastEnding(ls); }
    TerminatedTexts(ls, newline);
    RenderedIsFlat(Texts(ls), newline, EndsInNewline(s));
  }

  lemma {:induction false} LinesAreBreakless(ls: seq<Line>)
    requires Splittable(ls)
    ensures forall i :: 0 <= i < |ls| ==> Breakless(ls[i].text)
  {
    if ls != [] {
      LinesAreBreakless(ls[1..]);
      assert forall i :: 0 < i < |ls| ==> ls[i] == ls[1..][i - 1];
    }
  }

  /** A text written back has one break throughout. */
  lemma RenderedUniform(s: string, platform: string)
    requires IsNewline(platform)
    ensures Uniform(ToText(OfText(s, false, platform)), Newline(s, platform))
  {
    hide Breakless, EndsInNewline, Splittable, Terminated, Flatten;
    FlattenLines(s);
    LinesAreBreakless(Lines(s));
    LinesOfRendered(SplitLines(s), Newline(s, platform), EndsInNewline(s));
  }

  /** Reading and writing back a file reproduces its bytes exactly when every
    line break in it is the one detected for the whole file. */
  lemma DecodeEncode(raw: Bytes, platform: string)
    requires IsNewline(platform) && Decode(raw, platform).Some?
    ensures var s := Utf8.Decode(Body(raw)).value;
      Encode(Decode(raw, platform).value) == raw <==> Uniform(s, Newline(s, platform))
  {
    var s := Utf8.Decode(Body(raw)).value;
    Utf8.EncodeDecode(Body(raw));
    TextRoundTrip(s, platform);
    var t := ToText(OfText(s, false, platform));
    assert t == ToText(Decode(raw, platform).value);
    Utf8.DecodeEncode(t);
    var prefix := if BOM <= raw then BOM else [];
    assert raw == prefix + Body(raw);
    assert (prefix + Utf8.Encode(t))[|prefix|..] == Utf8.Encode(t);
  }

  /** A second read and write changes nothing more. */
  lemma EncodeDecodeIdempotent(raw: Bytes, platform: string)
    requires IsNewline(platform) && Decode(raw, platform).Some?
    ensures var once := Encode(Decode(raw, platform).value);
      && Decode(once, platform).Some?
      && Encode(Decode(once, platform).value) == once
  {
    hide Utf8.Encode, Utf8.Decode, Rendered, SplitLines, EndsInNewline, IsBreak, Uniform;
    var s := Utf8.Decode(Body(raw)).value;
    var t := ToText(OfText(s, BOM <= raw, platform));
    var once := Encode(Decode(raw, platform).value);
    SameBom(raw, s, platform);
    assert Body(once) == Utf8.Encode(t);
    Utf8.DecodeEncode(t);
    RenderedUniform(s, platform);
    UniformDetected(t, Newline(s, platform), platform);
    DecodeEncode(once, platform);
  }

  /** Writing back neither invents nor loses a byte order mark. */
  lemma SameBom(raw: Bytes, s: string, platform: string)
    requires IsNewline(platform)
    requires Utf8.Decode(Body(raw)) == Some(s)
    ensures var t := ToText(OfText(s, BOM <= raw, platform));
      BOM <= (if BOM <= raw then BOM else []) + Utf8.Encode(t) <==> BOM <= raw
  {
    hide Utf8.Encode, Utf8.Decode, Rendered, SplitLines, EndsInNewline, IsBreak;
    assert !IsBreak('\U{FEFF}') by { BomIsNoBreak(); }
    if !(BOM <= raw) {
      Utf8.EncodeDecode(raw);
      BomIsOneChar(s);
      var t := ToText(OfText(s, BOM <= raw, platform));
      BomIsOneChar(t);
      if t != "" && t[0] == '\U{FEFF}' {
        FirstCharKept(s, Newline(s, platform), EndsInNewline(s));
      }
    }
  }

  lemma BomIsNoBreak()
    ensures !IsBreak('\U{FEFF}')
  {
  }

  lemma FirstCharKept(s: string, newline: string, final: bool)
    requires IsNewline(newline)
    requires var t := Rendered(SplitLines(s), newline, final); t != "" && !IsBreak(t[0])
    ensures s != "" && s[0] == Rendered(SplitLines(s), newline, final)[0]
  {
    var lines := SplitLines(s);
    var t := Rendered(lines, newline, final);
    assert lines != [] && s != "";
    assert Lines(s)[0] == FirstLine(s);
    assert lines[0] == FirstLine(s).text;
    assert lines[0] <= t;
    if lines[0] == "" { assert IsBreak(newline[0]); }
  }

  lemma BomIsOneChar(s: string)
    ensures BOM <= Utf8.Encode(s) <==> s != "" && s[0] == '\U{FEFF}'
  {
    if s != "" {
      var e, rest := Utf8.EncodeChar(s[0]), Utf8.Encode(s[1..]);
      assert Utf8.Encode(s) == e + rest;
      var bom: Bytes := Utf8.EncodeChar('\U{FEFF}');
      assert bom == BOM;
      if BOM <= Utf8.Encode(s) {
        Utf8.DecodeFirstOfEncoded(s[0], rest);
        assert Utf8.Encode(s) == bom + Utf8.Encode(s)[3..];
        Utf8.DecodeFirstOfEncoded('\U{FEFF}', Utf8.Encode(s)[3..]);
      }
    }
  }

  /** The break that is detected: the first of CR LF, LF and CR that ends a line,
    else the newline of the host. */
  lemma NewlineMeans(s: string, platform: string)
    ensures var ls := Lines(s);
      Newline(s, platform) ==
        if HasEnding(ls, "\r\n") then "\r\n" else if HasEnding(ls, "\n") then "\n"
        else if HasEnding(ls, "\r") then "\r" else platform
  {
    FlattenLines(s);
    BreaksSeen(Lines(s));
  }

  /** A first line that starts with U+FEFF, which a file without a mark shows as its mark. */
  predicate StartsWithMark(d: Document) {
    d.lines != [] && d.lines[0] != "" && d.lines[0][0] == '\U{FEFF}'
  }

  /** An empty last line without a final newline leaves no trace in a file. */
  predicate LosesLast(d: Document) {
    !d.finalNewline && d.lines != [] && d.lines[|d.lines| - 1] == ""
  }

  function KeptLines(d: Document): seq<string> {
    if LosesLast(d) then d.lines[..|d.lines| - 1] else d.lines
  }

  predicate HasBreak(d: Document) {
    |d.lines| > 1 || (d.finalNewline && d.lines != [])
  }

  lemma FirstOfRendered(d: Document)
    requires IsNewline(d.newline)
    ensures var t := ToText(d); (t != "" && t[0] == '\U{FEFF}') <==> StartsWithMark(d)
  {
    var t := ToText(d);
    if d.lines != [] {
      assert d.lines[0] <= t;
      if d.lines[0] == "" && t != "" {
        assert t[0] == d.newline[0];
      }
    }
  }

  lemma {:induction false} KeptTexts(lines: seq<string>, newline: string, final: bool)
    ensures Texts(Terminated(lines, newline, final)) == KeptLines(Document(lines, newline, final, false))
  {
    if lines != [] && (|lines| > 1 || final) {
      KeptTexts(lines[1..], newline, final);
      if |lines| == 1 {
        assert lines[1..] == [];
      }
    }
  }

  lemma {:induction false} TerminatedEndings(lines: seq<string>, newline: string, final: bool)
    requires newline != ""
    ensures HasEnding(Terminated(lines, newline, final), newline) <==> HasBreak(Document(lines, newline, final, false))
    ensures var ls := Terminated(lines, newline, final);
      ls != [] && ls[|ls| - 1].ending != "" <==>
        (final && lines != []) || (|lines| > 1 && lines[|lines| - 1] == "")
  {
    var ls := Terminated(lines, newline, final);
    if lines != [] && (|lines| > 1 || final) {
      TerminatedEndings(lines[1..], newline, final);
      assert ls[0].ending == newline;
    }
  }

  lemma RenderedNewline(d: Document, platform: string)
    requires AllBreakless(d.lines) && IsNewline(d.newline)
    ensures Newline(ToText(d), platform) == if HasBreak(d) then d.newline else platform
  {
    hide Newline, Breakless, Rendered, Splittable, Terminated, Lines, Flatten;
    var ls := Terminated(d.lines, d.newline, d.finalNewline);
    LinesOfRendered(d.lines, d.newline, d.finalNewline);
    NewlineMeans(ToText(d), platform);
    TerminatedEndings(d.lines, d.newline, d.finalNewline);
    OnlyEnding(ls, d.newline, "\r\n");
    OnlyEnding(ls, d.newline, "\n");
    OnlyEnding(ls, d.newline, "\r");
  }

  lemma RenderedEnd(d: Document)
    requires AllBreakless(d.lines) && IsNewline(d.newline)
    ensures EndsInNewline(ToText(d)) <==>
      (d.finalNewline && d.lines != []) || (|d.lines| > 1 && d.lines[|d.lines| - 1] == "")
  {
    hide Breakless, Rendered, Splittable, Terminated, Lines, EndsInNewline, HasEnding;
    var ls := Terminated(d.lines, d.newline, d.finalNewline);
    LinesOfRendered(d.lines, d.newline, d.finalNewline);
    TerminatedSplittable(d.lines, d.newline, d.finalNewline);
    TerminatedEndings(d.lines, d.newline, d.finalNewline);
    FlattenLines(ToText(d));
    if ls != [] {
      LastEnding(ls);
    } else {
      assert ToText(d) == "";
      BreaklessEnd("");
    }
  }

  /** What a written file shows: its lines, the break they have, the mark and the
    final newline. An empty last line without a final newline is lost, and the
    break before it then is the final newline. */
  function Shown(d: Document, platform: string): Document {
    Document(
      KeptLines(d),
      if HasBreak(d) then d.newline else platform,
      (d.finalNewline && d.lines != []) || (|d.lines| > 1 && d.lines[|d.lines| - 1] == ""),
      d.bom)
  }

  lemma EncodedReads(d: Document, platform: string)
    requires AllBreakless(d.lines) && IsNewline(d.newline)
    requires d.bom || !StartsWithMark(d)
    ensures Decode(Encode(d), platform) == Some(Shown(d, platform))
  {
    hide Utf8.Encode, Utf8.Decode, Rendered, EndsInNewline;
    var t := ToText(d);
    FirstOfRendered(d);
    BomIsOneChar(t);
    assert Body(Encode(d)) == Utf8.Encode(t);
    Utf8.DecodeEncode(t);
    LinesOfRendered(d.lines, d.newline, d.finalNewline);
    KeptTexts(d.lines, d.newline, d.finalNewline);
    RenderedNewline(d, platform);
    RenderedEnd(d);
  }

  /** The document whose bytes these are: a leading U+FEFF and a byte order mark
    are the same bytes. */
  function Marked(d: Document): Document {
    if !d.bom && StartsWithMark(d) then d.(bom := true, lines := d.lines[0 := d.lines[0][1..]]) else d
  }

  /** Exactly what reading gives back of a document that was written. */
  lemma EncodeMeans(d: Document, platform: string)
    requires AllBreakless(d.lines) && IsNewline(d.newline)
    ensures Decode(Encode(d), platform) == Some(Shown(Marked(d), platform))
  {
    hide Encode, Decode, Shown;
    if !d.bom && StartsWithMark(d) {
      MarkIsBom(d);
      assert Breakless(d.lines[0]);
      assert Breakless(d.lines[0][1..]);
    }
    EncodedReads(Marked(d), platform);
  }

  lemma DecodedBreakless(raw: Bytes, platform: string)
    requires IsNewline(platform) && Decode(raw, platform).Some?
    ensures var d := Decode(raw, platform).value; AllBreakless(d.lines) && IsNewline(d.newline)
  {
    hide Utf8.Decode, Breakless, Splittable, Lines, Body;
    var s := Utf8.Decode(Body(raw)).value;
    FlattenLines(s);
    LinesAreBreakless(Lines(s));
    NewlineMeans(s, platform);
  }

  /** A leading U+FEFF and a byte order mark are the same bytes. */
  lemma MarkIsBom(d: Document)
    requires !d.bom && StartsWithMark(d)
    ensures Encode(d) == Encode(Marked(d))
  {
    hide Rendered;
    var rest := d.(bom := true, lines := d.lines[0 := d.lines[0][1..]]);
    var t, u := ToText(d), ToText(rest);
    WithoutFirstChar(d.lines, d.newline, d.finalNewline);
    EncodedMark(t);
  }

  lemma WithoutFirstChar(lines: seq<string>, newline: string, final: bool)
    requires lines != [] && lines[0] != ""
    ensures Rendered(lines, newline, final)
      == [lines[0][0]] + Rendered(lines[0 := lines[0][1..]], newline, final)
  {
    var rest := lines[0 := lines[0][1..]];
    assert rest[1..] == lines[1..];
    assert lines[0] == [lines[0][0]] + rest[0];
    assert Join(lines, newline) == [lines[0][0]] + Join(rest, newline);
  }

  lemma EncodedMark(t: string)
    requires t != "" && t[0] == '\U{FEFF}'
    ensures Utf8.Encode(t) == BOM + Utf8.Encode(t[1..])
  {
    var bom: Bytes := Utf8.EncodeChar('\U{FEFF}');
    assert bom == BOM;
  }
}
