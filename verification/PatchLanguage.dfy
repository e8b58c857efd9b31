/** The patch grammar as a relation between lines and sections, in literal terms:
  the parser accepts exactly the documents that are written so, and reads what they say. */
module PatchLanguage {
  import opened Wrappers
  import opened TextLines
  import opened Hunks
  import opened PatchGrammar
  import PatchReprint
  import RelativePath
  import Utf8

  type Lines = seq<string>

  function Flat(parts: seq<Lines>): Lines {
    if parts == [] then [] else parts[0] + Flat(parts[1..])
  }

  predicate Shows(line: string, l: HunkLine) {
    match l.tag
    case Context => line == " " + l.text
    case Insert => line == "+" + l.text
    case Remove => line == "-" + l.text
  }

  predicate ShowsAll(lines: Lines, h: Hunk) {
    |lines| == |h| && forall i :: 0 <= i < |h| ==> Shows(lines[i], h[i])
  }

  predicate HasOther(h: Hunk, tag: Tag) {
    exists i :: 0 <= i < |h| && h[i].tag != tag
  }

  /** A marker and the lines of the hunk, which finds something and changes something. */
  predicate HunkWritten(lines: Lines, h: Hunk) {
    lines != [] && lines[0] == "@@" && ShowsAll(lines[1..], h) && HasOther(h, Insert) && HasOther(h, Context)
  }

  predicate EachHunkWritten(parts: seq<Lines>, hunks: seq<Hunk>) {
    |parts| == |hunks| && forall i :: 0 <= i < |hunks| ==> HunkWritten(parts[i], hunks[i])
  }

  ghost predicate HunksWritten(lines: Lines, hunks: seq<Hunk>) {
    hunks != [] && exists parts :: EachHunkWritten(parts, hunks) && lines == Flat(parts)
  }

  /** A line that names a path, which is valid and kept in normalized form. */
  ghost predicate Names(line: string, prefix: string, path: string) {
    exists raw :: line == prefix + raw && RelativePath.Validate(raw) == Some(path)
  }

  predicate InsertedLines(lines: Lines, texts: seq<string>) {
    texts != [] && |lines| == |texts| && forall i :: 0 <= i < |texts| ==> lines[i] == "+" + texts[i]
  }

  ghost predicate SectionWritten(lines: Lines, s: Section) {
    lines != [] &&
    match s
    case Add(path, texts) => Names(lines[0], "*** Add File: ", path) && InsertedLines(lines[1..], texts)
    case Delete(path) => Names(lines[0], "*** Delete File: ", path) && |lines| == 1
    case Update(path, hunks) => Names(lines[0], "*** Update File: ", path) && HunksWritten(lines[1..], hunks)
    case Move(path, destination, hunks) =>
      && Names(lines[0], "*** Update File: ", path)
      && |lines| > 1 && Names(lines[1], "*** Move to: ", destination) && HunksWritten(lines[2..], hunks)
  }

  ghost predicate EachWritten(parts: seq<Lines>, sections: seq<Section>) {
    |parts| == |sections| && forall i :: 0 <= i < |sections| ==> SectionWritten(parts[i], sections[i])
  }

  /** A document of at most two mebibytes whose lines are the two markers around
    one or more sections. */
  ghost predicate DocumentWritten(document: string, sections: seq<Section>, parts: seq<Lines>) {
    && |Utf8.Encode(document)| <= 2_097_152
    && sections != [] && EachWritten(parts, sections)
    && SplitLines(document) == ["*** Begin Patch"] + Flat(parts) + ["*** End Patch"]
  }

  // Hunks

  lemma {:induction false} ShownLines(lines: Lines, h: Hunk)
    ensures ShowsAll(lines, h) <==> lines == PrintHunkLines(h)
  {
    if h != [] {
      var printed := PrintHunkLines(h);
      if lines != [] {
        ShownLines(lines[1..], h[1..]);
        assert lines == [lines[0]] + lines[1..];
        assert Shows(lines[0], h[0]) <==> lines[0] == printed[0];
        if ShowsAll(lines[1..], h[1..]) && Shows(lines[0], h[0]) {
          forall i | 0 <= i < |h| ensures Shows(lines[i], h[i]) {
            if i > 0 { assert Shows(lines[1..][i - 1], h[1..][i - 1]); }
          }
        }
        if lines == printed { assert lines[1..] == PrintHunkLines(h[1..]); }
      }
    }
  }

  lemma {:induction false} FindsSomething(h: Hunk)
    ensures Expected(h) != [] <==> HasOther(h, Insert)
  {
    if h != [] {
      FindsSomething(h[1..]);
      if HasOther(h[1..], Insert) {
        var i :| 0 <= i < |h[1..]| && h[1..][i].tag != Insert;
        assert h[i + 1].tag != Insert;
      }
      if i :| 0 <= i < |h| && h[i].tag != Insert {
        if i > 0 { assert h[1..][i - 1].tag != Insert; }
      }
    }
  }

  lemma WrittenHunk(lines: Lines, h: Hunk)
    ensures HunkWritten(lines, h) <==> lines == ["@@"] + PrintHunkLines(h) && UsableHunk(h)
  {
    FindsSomething(h);
    if lines != [] {
      ShownLines(lines[1..], h);
      assert lines == [lines[0]] + lines[1..];
    }
    if lines == ["@@"] + PrintHunkLines(h) { assert lines[1..] == PrintHunkLines(h); }
  }

  lemma {:induction false} WrittenHunks(parts: seq<Lines>, hunks: seq<Hunk>)
    requires EachHunkWritten(parts, hunks)
    ensures Flat(parts) == PrintHunks(hunks)
    ensures forall i :: 0 <= i < |hunks| ==> UsableHunk(hunks[i])
  {
    hide HunkWritten, UsableHunk;
    if hunks != [] {
      WrittenHunk(parts[0], hunks[0]);
      WrittenHunks(parts[1..], hunks[1..]);
      assert forall i :: 0 < i < |hunks| ==> hunks[i] == hunks[1..][i - 1];
    }
  }

  lemma {:induction false} HunkParts(hunks: seq<Hunk>) returns (parts: seq<Lines>)
    requires forall i :: 0 <= i < |hunks| ==> UsableHunk(hunks[i])
    ensures EachHunkWritten(parts, hunks) && Flat(parts) == PrintHunks(hunks)
  {
    hide HunkWritten, UsableHunk;
    if hunks == [] {
      parts := [];
    } else {
      var rest := HunkParts(hunks[1..]);
      var first := ["@@"] + PrintHunkLines(hunks[0]);
      WrittenHunk(first, hunks[0]);
      parts := [first] + rest;
      assert parts[1..] == rest;
      forall i | 0 <= i < |hunks| ensures HunkWritten(parts[i], hunks[i]) {
        if i > 0 { assert HunkWritten(rest[i - 1], hunks[1..][i - 1]); }
      }
    }
  }

  /** The hunks of a content are those it writes. */
  lemma HunksMean(content: Lines, hunks: seq<Hunk>)
    requires AllBreakless(content)
    ensures hunks != [] && ParseHunks(content) == Some(hunks) <==> HunksWritten(content, hunks)
  {
    hide EachHunkWritten, ParseHunks, UsableHunk, Breakless;
    if hunks != [] && ParseHunks(content) == Some(hunks) {
      PatchReprint.HunksReprint(content);
      assert forall i :: 0 <= i < |hunks| ==> CleanHunk(hunks[i]);
      var parts := HunkParts(hunks);
    }
    if HunksWritten(content, hunks) {
      var parts :| EachHunkWritten(parts, hunks) && content == Flat(parts);
      WrittenHunks(parts, hunks);
      HunksPrinted(hunks);
    }
  }

  // Sections

  lemma HeaderMeans(line: string, kind: Kind, raw: string)
    ensures Header(line) == Some((kind, raw)) <==> raw != "" && line == (match kind
      case AddFile => "*** Add File: " case UpdateFile => "*** Update File: " case DeleteFile => "*** Delete File: ") + raw
  {
    if raw != "" && line == HeaderPrefix(kind) + raw {
      HeaderOfPrinted(kind, raw);
    }
    if Header(line) == Some((kind, raw)) {
      assert HeaderPrefix(kind) <= line && raw == line[|HeaderPrefix(kind)|..];
    }
  }

  lemma MoveMeans(line: string, raw: string)
    ensures IsMove(line) && MoveTarget(line) == raw <==> line == "*** Move to: " + raw
  {
  }

  ghost predicate ContentWritten(content: Lines, s: Section) {
    match s
    case Add(_, texts) => InsertedLines(content, texts)
    case Delete(_) => content == []
    case Update(_, hunks) => HunksWritten(content, hunks)
    case Move(_, _, hunks) => HunksWritten(content, hunks)
  }

  lemma ContentMeans(kind: Kind, path: string, destination: Option<string>, content: Lines, s: Section)
    requires AllBreakless(content)
    requires destination.Some? ==> kind.UpdateFile?
    ensures ParseContent(kind, path, destination, content) == Some(s) <==>
      KindOf(s) == kind && s.path == path && DestinationOf(s) == destination && ContentWritten(content, s)
  {
    hide HunksWritten, ParseHunks, Breakless;
    if s.Update? || s.Move? {
      HunksMean(content, s.hunks);
    }
    if s.Add? && kind.AddFile? {
      InsertedMeans(content, s.lines);
    }
    if kind.AddFile? && content != [] && AllInserted(content) {
      var texts := seq(|content|, i requires 0 <= i < |content| => content[i][1..]);
      assert ParseContent(kind, path, destination, content) == Some(Add(path, texts));
    }
  }

  lemma InsertedMeans(content: Lines, texts: seq<string>)
    ensures InsertedLines(content, texts) ==> content != [] && AllInserted(content)
    ensures content != [] && AllInserted(content) ==>
      (InsertedLines(content, texts) <==> texts == seq(|content|, i requires 0 <= i < |content| => content[i][1..]))
  {
    if InsertedLines(content, texts) {
      forall i | 0 <= i < |texts| ensures "+" <= content[i] && content[i][1..] == texts[i] {
        assert content[i] == "+" + texts[i];
      }
    }
    if AllInserted(content) {
      forall i | 0 <= i < |content| ensures content[i] == "+" + content[i][1..] {
      }
    }
  }

  lemma ContentOrdinary(content: Lines, s: Section)
    requires ContentWritten(content, s) && AllBreakless(content)
    ensures Ordinary(content)
    ensures !s.Delete? ==> content != []
  {
    hide Header, IsMove, Breakless, HunkWritten, UsableHunk;
    if s.Add? {
      forall i | 0 <= i < |content| ensures Header(content[i]).None? && !IsMove(content[i]) {
        OrdinaryLine('+', s.lines[i]);
        assert content[i] == ['+'] + s.lines[i];
      }
    }
    if s.Update? || s.Move? {
      var parts :| EachHunkWritten(parts, s.hunks) && content == Flat(parts);
      WrittenHunks(parts, s.hunks);
      HunksPrinted(s.hunks);
    }
  }

  function Start(s: Section): nat { if s.Move? then 2 else 1 }

  /** The lines that head a section. */
  ghost predicate Headed(lines: Lines, s: Section) {
    && Start(s) <= |lines|
    && Names(lines[0], HeaderPrefix(KindOf(s)), s.path)
    && (s.Move? ==> Names(lines[1], MOVE, s.destination))
  }

  lemma WrittenIsHeaded(lines: Lines, s: Section)
    ensures SectionWritten(lines, s) <==> Headed(lines, s) && ContentWritten(lines[Start(s)..], s)
  {
    hide HunksWritten, InsertedLines, Names;
  }

  lemma HeadOfNamed(line: string, kind: Kind, path: string) returns (raw: string)
    requires Names(line, HeaderPrefix(kind), path)
    ensures Header(line) == Some((kind, raw)) && RelativePath.Validate(raw) == Some(path)
  {
    hide RelativePath.Validate;
    raw :| line == HeaderPrefix(kind) + raw && RelativePath.Validate(raw) == Some(path);
    RelativePath.ValidateIdempotent(raw);
    HeaderMeans(line, kind, raw);
  }

  /** What is written as a section is read as that section. */
  lemma WrittenParses(lines: Lines, s: Section, rest: Lines)
    requires SectionWritten(lines, s) && AllBreakless(lines) && AtBoundary(rest)
    ensures ParseSection(lines + rest) == Success((s, |lines|))
    ensures AtBoundary(lines + rest)
  {
    hide Header, IsMove, MoveTarget, ParseContent, ContentWritten, Breakless, RelativePath.Validate, HeaderPrefix;
    WrittenIsHeaded(lines, s);
    var start, content, all := Start(s), lines[Start(s)..], lines + rest;
    var raw := HeadOfNamed(lines[0], KindOf(s), s.path);
    ContentOrdinary(content, s);
    ContentLengthOf(content, rest);
    ContentMeans(KindOf(s), s.path, DestinationOf(s), content, s);
    assert all[0] == lines[0];
    assert all[start..] == content + rest;
    assert all[start..start + |content|] == content;
    if s.Move? {
      assert all[1] == lines[1];
      var target :| lines[1] == MOVE + target && RelativePath.Validate(target) == Some(s.destination);
      MoveMeans(lines[1], target);
    } else if s.Update? {
      assert ContentWritten(content, s);
      assert all[1] == content[0];
    }
    assert ParseSection(all) == ParseBody(KindOf(s), s.path, DestinationOf(s), all, start);
  }

  /** What is read as a section is written as that section. */
  lemma ParsedIsWritten(lines: Lines)
    requires lines != [] && AllBreakless(lines) && ParseSection(lines).Success?
    ensures var (s, n) := ParseSection(lines).value; SectionWritten(lines[..n], s)
  {
    hide Header, IsMove, MoveTarget, ParseContent, ContentWritten, Breakless, RelativePath.Validate, HeaderPrefix;
    var (s, n) := ParseSection(lines).value;
    var (kind, raw) := Header(lines[0]).value;
    var path := RelativePath.Validate(raw).value;
    HeaderMeans(lines[0], kind, raw);
    assert lines[0] == HeaderPrefix(kind) + raw by { PrefixIs(kind); }
    var start := 1;
    var destination: Option<string> := None;
    if kind.UpdateFile? && |lines| > 1 && IsMove(lines[1]) {
      var target := MoveTarget(lines[1]);
      MoveMeans(lines[1], target);
      destination := RelativePath.Validate(target);
      assert Names(lines[1], MOVE, destination.value);
      start := 2;
    }
    assert ParseSection(lines) == ParseBody(kind, path, destination, lines, start);
    var content := lines[start..n];
    assert content == lines[start..start + ContentLength(lines[start..])];
    assert AllBreakless(content);
    ContentMeans(kind, path, destination, content, s);
    assert Start(s) == start;
    assert lines[..n][start..] == content;
    assert Headed(lines[..n], s);
    WrittenIsHeaded(lines[..n], s);
  }

  lemma PrefixIs(kind: Kind)
    ensures HeaderPrefix(kind) == match kind
      case AddFile => "*** Add File: " case UpdateFile => "*** Update File: " case DeleteFile => "*** Delete File: "
  {
  }

  lemma {:induction false} AllWrittenParse(parts: seq<Lines>, sections: seq<Section>)
    requires EachWritten(parts, sections) && AllBreakless(Flat(parts))
    ensures ParseSections(Flat(parts)) == Success(sections)
    ensures AtBoundary(Flat(parts))
  {
    hide SectionWritten, ParseSection, Breakless, AtBoundary;
    if sections == [] {
      AtEnd();
    } else {
      var rest := Flat(parts[1..]);
      assert Flat(parts) == parts[0] + rest;
      assert forall i :: 0 <= i < |parts[0]| ==> parts[0][i] == Flat(parts)[i];
      assert forall i :: 0 <= i < |rest| ==> rest[i] == Flat(parts)[|parts[0]| + i];
      AllWrittenParse(parts[1..], sections[1..]);
      assert SectionWritten(parts[0], sections[0]);
      WrittenParses(parts[0], sections[0], rest);
      SectionNotEmpty(parts[0], sections[0]);
      assert Flat(parts)[|parts[0]|..] == rest;
      assert sections == [sections[0]] + sections[1..];
    }
  }

  lemma AtEnd()
    ensures AtBoundary([])
  {
  }

  lemma SectionNotEmpty(lines: Lines, s: Section)
    requires SectionWritten(lines, s)
    ensures lines != []
  {
  }

  lemma {:induction false} AllParsedIsWritten(lines: Lines) returns (parts: seq<Lines>)
    requires AllBreakless(lines) && ParseSections(lines).Success?
    ensures EachWritten(parts, ParseSections(lines).value) && Flat(parts) == lines
    decreases |lines|
  {
    hide SectionWritten, ParseSection, Breakless;
    if lines == [] {
      parts := [];
    } else {
      var (s, n) := ParseSection(lines).value;
      ParsedIsWritten(lines);
      assert forall i :: 0 <= i < |lines[n..]| ==> lines[n..][i] == lines[n + i];
      var rest := AllParsedIsWritten(lines[n..]);
      parts := [lines[..n]] + rest;
      assert parts[1..] == rest && lines == lines[..n] + lines[n..];
      var sections := ParseSections(lines).value;
      assert sections == [s] + ParseSections(lines[n..]).value;
    }
  }

  /** The parser accepts a document exactly when it is written as the grammar
    says, and the sections it reads are the ones written. */
  lemma ParseMeans(document: string, sections: seq<Section>)
    ensures ParseDocument(document) == Success(sections) <==> exists parts :: DocumentWritten(document, sections, parts)
  {
    hide ParseSections, SplitLines, SectionWritten, Utf8.Encode, Breakless;
    var lines := SplitLines(document);
    PatchReprint.LinesBreakless(document);
    if ParseDocument(document) == Success(sections) {
      var body := lines[1..|lines| - 1];
      assert AllBreakless(body);
      var parts := AllParsedIsWritten(body);
      assert lines == [lines[0]] + body + [lines[|lines| - 1]];
      assert DocumentWritten(document, sections, parts);
    }
    if parts :| DocumentWritten(document, sections, parts) {
      var body := Flat(parts);
      assert lines[1..|lines| - 1] == body;
      assert forall i :: 0 <= i < |body| ==> body[i] == lines[1..][i];
      AllWrittenParse(parts, sections);
    }
  }

  /** So a document means one list of sections at most. */
  lemma OneMeaning(document: string, one: seq<Section>, two: seq<Section>, parts: seq<Lines>, others: seq<Lines>)
    requires DocumentWritten(document, one, parts) && DocumentWritten(document, two, others)
    ensures one == two
  {
    hide DocumentWritten, ParseDocument;
    ParseMeans(document, one);
    ParseMeans(document, two);
  }

  // Which error

  predicate IsBadHeader(line: string, raw: string) {
    && raw != "" && RelativePath.Validate(raw).None?
    && (line == "*** Add File: " + raw || line == "*** Update File: " + raw || line == "*** Delete File: " + raw)
  }

  ghost predicate BadHeader(line: string) {
    exists raw :: IsBadHeader(line, raw)
  }

  ghost predicate BadMove(line: string) {
    exists raw :: RelativePath.Validate(raw).None? && line == "*** Move to: " + raw
  }

  /** A section that names a path which is not valid. */
  ghost predicate NamesBadPath(lines: Lines) {
    && lines != []
    && (BadHeader(lines[0])
        || (|lines| > 1 && BadMove(lines[1]) && exists path :: Names(lines[0], "*** Update File: ", path)))
  }

  lemma HeaderError(lines: Lines)
    requires lines != []
    ensures NamesBadPath(lines) <==> ParseSection(lines) == Failure(InvalidPath)
  {
    hide Header, IsMove, MoveTarget, RelativePath.Validate, ParseContent;
    var line := lines[0];
    RelativePath.ValidateIdempotent("");
    if raw :| IsBadHeader(line, raw) {
      HeaderMeans(line, AddFile, raw);
      HeaderMeans(line, UpdateFile, raw);
      HeaderMeans(line, DeleteFile, raw);
    }
    if path :| Names(line, "*** Update File: ", path) {
      var raw := HeadOfNamed(line, UpdateFile, path);
    }
    if |lines| > 1 {
      if raw :| RelativePath.Validate(raw).None? && lines[1] == "*** Move to: " + raw {
        MoveMeans(lines[1], raw);
      }
      if IsMove(lines[1]) { MoveMeans(lines[1], MoveTarget(lines[1])); }
    }
    if Header(line).Some? {
      var (kind, raw) := Header(line).value;
      HeaderMeans(line, kind, raw);
      assert RelativePath.Validate(raw).None? ==> IsBadHeader(line, raw);
      if kind.UpdateFile? && RelativePath.Validate(raw).Some? {
        assert Names(line, "*** Update File: ", RelativePath.Validate(raw).value);
      }
    }
  }

  ghost predicate StopsAt(lines: Lines, parts: seq<Lines>, sections: seq<Section>, rest: Lines) {
    lines == Flat(parts) + rest && EachWritten(parts, sections) && NamesBadPath(rest)
  }

  lemma {:induction false} StopFound(lines: Lines) returns (parts: seq<Lines>, sections: seq<Section>, rest: Lines)
    requires AllBreakless(lines) && ParseSections(lines) == Failure(InvalidPath)
    ensures StopsAt(lines, parts, sections, rest)
    decreases |lines|
  {
    hide SectionWritten, ParseSection, Breakless, NamesBadPath;
    HeaderError(lines);
    if ParseSection(lines).Failure? {
      parts, sections, rest := [], [], lines;
    } else {
      var (s, n) := ParseSection(lines).value;
      ParsedIsWritten(lines);
      assert forall i :: 0 <= i < |lines[n..]| ==> lines[n..][i] == lines[n + i];
      var otherParts, others, end := StopFound(lines[n..]);
      parts, sections, rest := [lines[..n]] + otherParts, [s] + others, end;
      assert parts[1..] == otherParts;
      assert lines == lines[..n] + lines[n..];
    }
  }

  lemma BadIsBoundary(rest: Lines)
    requires NamesBadPath(rest)
    ensures AtBoundary(rest)
  {
    HeaderError(rest);
  }

  lemma {:induction false} StopIsError(lines: Lines, parts: seq<Lines>, sections: seq<Section>, rest: Lines)
    requires AllBreakless(lines) && StopsAt(lines, parts, sections, rest)
    ensures ParseSections(lines) == Failure(InvalidPath) && AtBoundary(lines)
    decreases |parts|
  {
    hide SectionWritten, ParseSection, Breakless, NamesBadPath, AtBoundary;
    if sections == [] {
      assert lines == rest;
      BadNotEmpty(rest);
      HeaderError(rest);
      BadIsBoundary(rest);
    } else {
      var tail := Flat(parts[1..]) + rest;
      assert lines == parts[0] + tail;
      assert forall i :: 0 <= i < |parts[0]| ==> parts[0][i] == lines[i];
      assert forall i :: 0 <= i < |tail| ==> tail[i] == lines[|parts[0]| + i];
      StopIsError(tail, parts[1..], sections[1..], rest);
      WrittenParses(parts[0], sections[0], tail);
      SectionNotEmpty(parts[0], sections[0]);
      assert lines[|parts[0]|..] == tail;
    }
  }

  lemma BadNotEmpty(rest: Lines)
    requires NamesBadPath(rest)
    ensures rest != []
  {
  }

  ghost predicate Framed(document: string, body: Lines) {
    |Utf8.Encode(document)| <= 2_097_152 && SplitLines(document) == ["*** Begin Patch"] + body + ["*** End Patch"]
  }

  /** A rejected document has a bad path when all its sections up to one that
    names such a path are well written; otherwise it is a bad patch. */
  lemma PathErrorMeans(document: string)
    ensures ParseDocument(document) == Failure(InvalidPath) <==>
      exists body, parts, sections, rest :: Framed(document, body) && StopsAt(body, parts, sections, rest)
  {
    hide ParseSections, SplitLines, Utf8.Encode, Breakless, StopsAt;
    var lines := SplitLines(document);
    PatchReprint.LinesBreakless(document);
    if ParseDocument(document) == Failure(InvalidPath) {
      var body := lines[1..|lines| - 1];
      assert AllBreakless(body);
      var parts, sections, rest := StopFound(body);
      assert lines == [lines[0]] + body + [lines[|lines| - 1]];
      assert Framed(document, body);
    }
    if body, parts, sections, rest :| Framed(document, body) && StopsAt(body, parts, sections, rest) {
      assert lines[1..|lines| - 1] == body;
      assert forall i :: 0 <= i < |body| ==> body[i] == lines[1..][i];
      StopIsError(body, parts, sections, rest);
    }
  }
}
