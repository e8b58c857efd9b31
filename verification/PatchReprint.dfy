/** Every accepted document reprints to a document with the same meaning, no longer than it was. */
module PatchReprint {
  import opened Wrappers
  import opened TextLines
  import opened Hunks
  import opened PatchGrammar
  import RelativePath
  import Utf8

  function Size(s: string): nat {
    |Utf8.Encode(s)|
  }

  function Weight(lines: seq<string>): nat {
    if lines == [] then 0 else Size(lines[0]) + Weight(lines[1..])
  }

  lemma {:induction false} WeightConcat(a: seq<string>, b: seq<string>)
    ensures Weight(a + b) == Weight(a) + Weight(b)
  {
    if a == [] {
      assert a + b == b;
    } else {
      WeightConcat(a[1..], b);
      assert (a + b)[1..] == a[1..] + b;
    }
  }

  lemma {:induction false} HunkLinesReprint(lines: seq<string>)
    requires ParseHunkLines(lines).Some? && AllBreakless(lines)
    ensures PrintHunkLines(ParseHunkLines(lines).value) == lines
    ensures forall i :: 0 <= i < |ParseHunkLines(lines).value| ==> Breakless(ParseHunkLines(lines).value[i].text)
  {
    if lines != [] {
      HunkLinesReprint(lines[1..]);
      var h := ParseHunkLines(lines).value;
      assert h[0].text == lines[0][1..] && TagChar(h[0].tag) == lines[0][0];
      assert h[1..] == ParseHunkLines(lines[1..]).value;
      assert lines == [lines[0]] + lines[1..];
      assert lines[0] == [lines[0][0]] + lines[0][1..];
      assert forall i :: 0 <= i < |h[0].text| ==> h[0].text[i] == lines[0][i + 1];
      assert forall i :: 0 < i < |h| ==> h[i] == h[1..][i - 1];
    }
  }

  lemma {:induction false} HunksReprint(content: seq<string>)
    requires ParseHunks(content).Some? && AllBreakless(content)
    ensures PrintHunks(ParseHunks(content).value) == content
    ensures forall i :: 0 <= i < |ParseHunks(content).value| ==> CleanHunk(ParseHunks(content).value[i])
    decreases |content|
  {
    hide UsableHunk, Breakless;
    if content != [] {
      var n := HunkLength(content[1..]);
      var lines := content[1..][..n];
      HunkLinesReprint(lines);
      HunksReprint(content[1 + n..]);
      var hunks := ParseHunks(content).value;
      assert hunks[0] == ParseHunkLines(lines).value;
      assert hunks[1..] == ParseHunks(content[1 + n..]).value;
      assert content == ["@@"] + lines + content[1 + n..];
      assert forall i :: 0 < i < |hunks| ==> hunks[i] == hunks[1..][i - 1];
    }
  }

  lemma ContentReprint(kind: Kind, path: string, destination: Option<string>, content: seq<string>)
    requires ParseContent(kind, path, destination, content).Some? && AllBreakless(content)
    requires CleanPath(path) && (destination.Some? ==> CleanPath(destination.value))
    ensures var s := ParseContent(kind, path, destination, content).value;
      && Clean(s) && Content(s) == content && KindOf(s) == kind && s.path == path
      && (kind.UpdateFile? ==> DestinationOf(s) == destination)
  {
    hide CleanPath, ParseHunks, PrintHunks;
    if kind.UpdateFile? {
      HunksReprint(content);
    } else if kind.AddFile? {
      var s := ParseContent(kind, path, destination, content).value;
      forall i | 0 <= i < |content| ensures "+" + s.lines[i] == content[i] && Breakless(s.lines[i]) {
        assert content[i] == "+" + content[i][1..];
        assert forall j :: 0 <= j < |s.lines[i]| ==> s.lines[i][j] == content[i][j + 1];
      }
      assert Plus(s.lines) == content;
    }
  }

  lemma PathReprint(raw: string)
    requires Breakless(raw) && RelativePath.Validate(raw).Some?
    ensures CleanPath(RelativePath.Validate(raw).value)
    ensures Size(RelativePath.Validate(raw).value) == Size(raw)
  {
    hide RelativePath.Validate;
    RelativePath.ValidateIdempotent(raw);
    SlashesSize(raw);
    assert forall i :: 0 <= i < |raw| ==> !IsBreak(raw[i]);
  }

  lemma {:induction false} SlashesSize(s: string)
    ensures Size(RelativePath.Slashes(s)) == Size(s)
  {
    if s != "" {
      SlashesSize(s[1..]);
      assert RelativePath.Slashes(s)[1..] == RelativePath.Slashes(s[1..]);
    }
  }

  lemma AfterPrefix(prefix: string, line: string)
    requires prefix <= line && Breakless(line)
    ensures line == prefix + line[|prefix|..] && Breakless(line[|prefix|..])
  {
  }

  lemma HeaderReprint(line: string)
    requires Header(line).Some? && Breakless(line)
    ensures var (kind, raw) := Header(line).value; line == HeaderLine(kind, raw) && Breakless(raw)
  {
    hide HeaderPrefix;
    var (kind, raw) := Header(line).value;
    AfterPrefix(HeaderPrefix(kind), line);
  }

  lemma MoveReprint(line: string)
    requires IsMove(line) && Breakless(line)
    ensures line == MoveLine(MoveTarget(line)) && Breakless(MoveTarget(line))
  {
    AfterPrefix(MOVE, line);
  }

  lemma SectionReprint(lines: seq<string>)
    requires lines != [] && AllBreakless(lines) && ParseSection(lines).Success?
    ensures var (s, n) := ParseSection(lines).value;
      && Clean(s)
      && |Heading(s) + Content(s)| == n
      && Weight(Heading(s) + Content(s)) == Weight(lines[..n])
  {
    hide Header, HeaderLine, IsMove, MoveTarget, MoveLine, RelativePath.Validate, ParseContent, Content, Clean,
         CleanPath, Breakless, Size;
    var (kind, raw) := Header(lines[0]).value;
    var (s, n) := ParseSection(lines).value;
    assert Breakless(lines[0]);
    HeaderReprint(lines[0]);
    PathReprint(raw);
    var path := RelativePath.Validate(raw).value;
    HeaderLineSize(kind, raw, path);
    var start := 1;
    var destination: Option<string> := None;
    if kind.UpdateFile? && |lines| > 1 && IsMove(lines[1]) {
      assert Breakless(lines[1]);
      MoveReprint(lines[1]);
      PathReprint(MoveTarget(lines[1]));
      destination := RelativePath.Validate(MoveTarget(lines[1]));
      MoveLineSize(MoveTarget(lines[1]), destination.value);
      start := 2;
    }
    assert ParseSection(lines) == ParseBody(kind, path, destination, lines, start);
    var content := lines[start..n];
    assert content == lines[start..start + ContentLength(lines[start..])];
    assert AllBreakless(content);
    ContentReprint(kind, path, destination, content);
    assert lines[..n] == lines[..start] + content;
    HeadWeight(s, lines[..start], kind, path, destination);
    WeightConcat(lines[..start], content);
    WeightConcat(Heading(s), Content(s));
  }

  lemma HeadWeight(s: Section, head: seq<string>, kind: Kind, path: string, destination: Option<string>)
    requires KindOf(s) == kind && s.path == path && (kind.UpdateFile? ==> DestinationOf(s) == destination)
    requires destination.Some? ==> kind.UpdateFile?
    requires |head| == if destination.Some? then 2 else 1
    requires Size(head[0]) == Size(HeaderLine(kind, path))
    requires destination.Some? ==> Size(head[1]) == Size(MoveLine(destination.value))
    ensures |Heading(s)| == |head| && Weight(Heading(s)) == Weight(head)
  {
    hide Size, HeaderLine, MoveLine;
    assert Heading(s) ==
      if destination.Some? then [HeaderLine(kind, path), MoveLine(destination.value)] else [HeaderLine(kind, path)];
    assert Weight(head[1..]) == if destination.Some? then Size(head[1]) else 0 by {
      if destination.Some? { assert head[1..][1..] == []; }
    }
    assert Heading(s)[1..] == if destination.Some? then [MoveLine(destination.value)] else [];
    if destination.Some? { assert Heading(s)[1..][1..] == []; }
  }

  lemma HeaderLineSize(kind: Kind, a: string, b: string)
    requires Size(a) == Size(b)
    ensures Size(HeaderLine(kind, a)) == Size(HeaderLine(kind, b))
  {
    hide HeaderPrefix;
    Utf8.EncodeConcat(HeaderPrefix(kind), a);
    Utf8.EncodeConcat(HeaderPrefix(kind), b);
  }

  lemma MoveLineSize(a: string, b: string)
    requires Size(a) == Size(b)
    ensures Size(MoveLine(a)) == Size(MoveLine(b))
  {
    Utf8.EncodeConcat(MOVE, a);
    Utf8.EncodeConcat(MOVE, b);
  }

  lemma {:induction false} SectionsReprint(lines: seq<string>)
    requires AllBreakless(lines) && ParseSections(lines).Success?
    ensures var sections := ParseSections(lines).value;
      && AllClean(sections)
      && |PrintSections(sections)| == |lines|
      && Weight(PrintSections(sections)) == Weight(lines)
    decreases |lines|
  {
    hide ParseSection, Clean, Heading, Content, Breakless, Size;
    if lines != [] {
      var (s, n) := ParseSection(lines).value;
      SectionReprint(lines);
      SectionsReprint(lines[n..]);
      var sections := ParseSections(lines).value;
      assert sections[0] == s && sections[1..] == ParseSections(lines[n..]).value;
      assert lines == lines[..n] + lines[n..];
      WeightConcat(lines[..n], lines[n..]);
      WeightConcat(Heading(s) + Content(s), PrintSections(sections[1..]));
      assert forall i :: 0 < i < |sections| ==> sections[i] == sections[1..][i - 1];
    }
  }

  lemma {:induction false} JoinSize(lines: seq<string>)
    requires lines != []
    ensures Size(Join(lines, "\n")) == Weight(lines) + |lines| - 1
  {
    assert lines == [lines[0]] + lines[1..];
    if |lines| == 1 {
      assert lines[1..] == [];
    } else {
      JoinSize(lines[1..]);
      Utf8.EncodeConcat(lines[0] + "\n", Join(lines[1..], "\n"));
      Utf8.EncodeConcat(lines[0], "\n");
      LineFeedSize();
    }
  }

  lemma LineFeedSize()
    ensures Size("\n") == 1
  {
    assert Utf8.Encode("\n") == Utf8.EncodeChar('\n') + Utf8.Encode("\n"[1..]);
  }

  lemma {:induction false} SplitSize(ls: seq<Line>)
    requires Splittable(ls)
    ensures Size(Flatten(ls)) + (if ls == [] then 0 else 1) >= Weight(Texts(ls)) + |ls|
  {
    if ls != [] {
      var l, tail := ls[0], ls[1..];
      SplitSize(tail);
      Utf8.EncodeConcat(l.text + l.ending, Flatten(tail));
      Utf8.EncodeConcat(l.text, l.ending);
      assert Texts(ls)[1..] == Texts(tail);
      if l.ending != "" {
        assert Utf8.Encode(l.ending) == Utf8.EncodeChar(l.ending[0]) + Utf8.Encode(l.ending[1..]);
      }
    }
  }

  /** An accepted document reprints, within the size limit, to one with the same sections. */
  lemma ParseReprint(document: string)
    requires ParseDocument(document).Success?
    ensures ParseDocument(Print(ParseDocument(document).value)) == ParseDocument(document)
    ensures Size(Print(ParseDocument(document).value)) <= Size(document)
  {
    hide Print, PrintSections, ParseSections, SplitLines, Clean, Utf8.Encode;
    var lines := SplitLines(document);
    var body := lines[1..|lines| - 1];
    var sections := ParseDocument(document).value;
    LinesBreakless(document);
    assert AllBreakless(body);
    SectionsReprint(body);
    assert lines == [BEGIN] + body + [END];
    SameSize(document, body, PrintSections(sections));
    PrintIsJoin(sections);
    ParsePrint(sections);
  }

  /** Printing and parsing give a list of sections back exactly when it is a patch:
    well-formed sections, at least one, within the size limit. */
  lemma SurvivesExactly(sections: seq<Section>)
    ensures ParseDocument(Print(sections)) == Success(sections) <==>
      AllClean(sections) && sections != [] && |Utf8.Encode(Print(sections))| <= MAX_PATCH_BYTES
  {
    hide Print, PrintSections, ParseSections, SplitLines, Clean, Utf8.Encode;
    if ParseDocument(Print(sections)) == Success(sections) {
      var lines := SplitLines(Print(sections));
      LinesBreakless(Print(sections));
      SectionsReprint(lines[1..|lines| - 1]);
    }
    if AllClean(sections) { ParsePrint(sections); }
  }

  lemma PrintIsJoin(sections: seq<Section>)
    ensures Print(sections) == Join([BEGIN] + PrintSections(sections) + [END], "\n")
  {
  }

  /** A document is at least as long as its lines joined by line feeds. */
  lemma SameSize(document: string, body: seq<string>, printed: seq<string>)
    requires SplitLines(document) == [BEGIN] + body + [END]
    requires |printed| == |body| && Weight(printed) == Weight(body)
    ensures Size(Join([BEGIN] + printed + [END], "\n")) <= Size(document)
  {
    hide Size, Weight, Join;
    FlattenLines(document);
    SplitSize(Lines(document));
    JoinSize([BEGIN] + printed + [END]);
    FramedWeight(body, BEGIN, END);
    FramedWeight(printed, BEGIN, END);
  }

  lemma LinesBreakless(document: string)
    ensures AllBreakless(SplitLines(document))
  {
    FlattenLines(document);
    BreaklessTexts(Lines(document));
  }

  lemma {:induction false} BreaklessTexts(ls: seq<Line>)
    requires Splittable(ls)
    ensures AllBreakless(Texts(ls))
  {
    hide Breakless;
    if ls != [] {
      BreaklessTexts(ls[1..]);
      assert forall i :: 0 < i < |ls| ==> Texts(ls)[i] == Texts(ls[1..])[i - 1];
    }
  }

  lemma FramedWeight(body: seq<string>, first: string, last: string)
    ensures Weight([first] + body + [last]) == Size(first) + Weight(body) + Size(last)
  {
    hide Size;
    WeightConcat([first] + body, [last]);
    WeightConcat([first], body);
    assert [last][1..] == [] && [first][1..] == [];
  }
}
