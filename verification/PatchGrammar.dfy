/** The anchored patch grammar: its parser, and a printer that shows what the
  parser keeps of a document. */
module PatchGrammar {
  import opened Wrappers
  import opened TextLines
  import opened Hunks
  import RelativePath
  import Utf8

  const MAX_PATCH_BYTES := 2_097_152

  const BEGIN := "*** Begin Patch"
  const END := "*** End Patch"
  const MOVE := "*** Move to: "

  datatype Kind = AddFile | UpdateFile | DeleteFile

  datatype Section =
    | Add(path: string, lines: seq<string>)
    | Delete(path: string)
    | Update(path: string, hunks: seq<Hunk>)
    | Move(path: string, destination: string, hunks: seq<Hunk>)

  datatype ParseError = InvalidPatch | InvalidPath

  type Parsed = Result<seq<Section>, ParseError>

  function HeaderPrefix(kind: Kind): string {
    match kind
    case AddFile => "*** Add File: "
    case UpdateFile => "*** Update File: "
    case DeleteFile => "*** Delete File: "
  }

  function After(prefix: string, line: string): Option<string> {
    if prefix <= line && |prefix| < |line| then Some(line[|prefix|..]) else None
  }

  /** A section header and the text of its path, which is not empty. */
  function Header(line: string): Option<(Kind, string)> {
    match After(HeaderPrefix(AddFile), line)
    case Some(p) => Some((AddFile, p))
    case None =>
      match After(HeaderPrefix(UpdateFile), line)
      case Some(p) => Some((UpdateFile, p))
      case None =>
        match After(HeaderPrefix(DeleteFile), line)
        case Some(p) => Some((DeleteFile, p))
        case None => None
  }

  predicate IsMove(line: string) {
    MOVE <= line
  }

  function MoveTarget(line: string): string
    requires IsMove(line)
  {
    line[|MOVE|..]
  }

  function MoveLine(path: string): string {
    MOVE + path
  }

  function HeaderLine(kind: Kind, path: string): string {
    HeaderPrefix(kind) + path
  }

  /** How many lines there are before the next section header. */
  function ContentLength(lines: seq<string>): (n: nat)
    ensures n <= |lines|
  {
    if lines == [] || Header(lines[0]).Some? then 0 else 1 + ContentLength(lines[1..])
  }

  /** How many lines there are before the next hunk marker. */
  function HunkLength(lines: seq<string>): (n: nat)
    ensures n <= |lines|
  {
    if lines == [] || lines[0] == "@@" then 0 else 1 + HunkLength(lines[1..])
  }

  function TagOf(c: char): Option<Tag> {
    if c == ' ' then Some(Context) else if c == '+' then Some(Insert) else if c == '-' then Some(Remove) else None
  }

  function TagChar(tag: Tag): char {
    match tag case Context => ' ' case Insert => '+' case Remove => '-'
  }

  function ParseHunkLines(lines: seq<string>): Option<Hunk> {
    if lines == [] then Some([])
    else if lines[0] == "" || TagOf(lines[0][0]).None? then None
    else
      match ParseHunkLines(lines[1..])
      case None => None
      case Some(rest) => Some([HunkLine(TagOf(lines[0][0]).value, lines[0][1..])] + rest)
  }

  predicate Changes(h: Hunk) {
    exists i :: 0 <= i < |h| && h[i].tag != Context
  }

  predicate UsableHunk(h: Hunk) {
    Expected(h) != [] && Changes(h)
  }

  function ParseHunks(content: seq<string>): Option<seq<Hunk>>
    decreases |content|
  {
    if content == [] then Some([])
    else if content[0] != "@@" then None
    else
      var n := HunkLength(content[1..]);
      match ParseHunkLines(content[1..][..n])
      case None => None
      case Some(h) =>
        if !UsableHunk(h) then None
        else
          match ParseHunks(content[1 + n..])
          case None => None
          case Some(rest) => Some([h] + rest)
  }

  predicate AllInserted(content: seq<string>) {
    forall i :: 0 <= i < |content| ==> "+" <= content[i]
  }

  /** The section a header and its content make. */
  function ParseContent(kind: Kind, path: string, destination: Option<string>, content: seq<string>)
    : Option<Section>
  {
    match kind
    case AddFile =>
      if content == [] || !AllInserted(content) then None
      else Some(Add(path, seq(|content|, i requires 0 <= i < |content| => content[i][1..])))
    case DeleteFile => if content == [] then Some(Delete(path)) else None
    case UpdateFile =>
      match ParseHunks(content)
      case None => None
      case Some(hunks) =>
        if hunks == [] then None
        else if destination.Some? then Some(Move(path, destination.value, hunks))
        else Some(Update(path, hunks))
  }

  /** The first section of a list of lines and the number of lines it takes. */
  function ParseSection(lines: seq<string>): (r: Result<(Section, nat), ParseError>)
    requires lines != []
    ensures r.Success? ==> 0 < r.value.1 <= |lines|
  {
    match Header(lines[0])
    case None => Failure(InvalidPatch)
    case Some((kind, raw)) =>
      match RelativePath.Validate(raw)
      case None => Failure(InvalidPath)
      case Some(path) =>
        if kind.UpdateFile? && |lines| > 1 && IsMove(lines[1]) then
          match RelativePath.Validate(MoveTarget(lines[1]))
          case None => Failure(InvalidPath)
          case Some(destination) => ParseBody(kind, path, Some(destination), lines, 2)
        else ParseBody(kind, path, None, lines, 1)
  }

  function ParseBody(kind: Kind, path: string, destination: Option<string>, lines: seq<string>, start: nat)
    : (r: Result<(Section, nat), ParseError>)
    requires 0 < start <= |lines|
    ensures r.Success? ==> start <= r.value.1 <= |lines|
  {
    var n := ContentLength(lines[start..]);
    match ParseContent(kind, path, destination, lines[start..start + n])
    case None => Failure(InvalidPatch)
    case Some(s) => Success((s, start + n))
  }

  function ParseSections(lines: seq<string>): Parsed
    decreases |lines|
  {
    if lines == [] then Success([])
    else
      match ParseSection(lines)
      case Failure(e) => Failure(e)
      case Success((s, n)) => Prepend([s], ParseSections(lines[n..]))
  }

  function Prepend(first: seq<Section>, r: Parsed): Parsed {
    if r.Success? then Success(first + r.value) else r
  }

  /** The language the parser accepts, and what it reads. */
  function ParseDocument(document: string): Parsed {
    var lines := SplitLines(document);
    if |Utf8.Encode(document)| > MAX_PATCH_BYTES then Failure(InvalidPatch)
    else if |lines| < 2 || lines[0] != BEGIN || lines[|lines| - 1] != END then Failure(InvalidPatch)
    else
      var sections := ParseSections(lines[1..|lines| - 1]);
      if sections == Success([]) then Failure(InvalidPatch) else sections
  }

  lemma PrependTwice(a: seq<Section>, b: seq<Section>, r: Parsed)
    ensures Prepend(a, Prepend(b, r)) == Prepend(a + b, r)
    ensures Prepend([], r) == r
  {
    if r.Success? {
      assert a + (b + r.value) == a + b + r.value;
      assert [] + r.value == r.value;
    }
  }

  /** The parser of the patch engine, with its line index. */
  method Parse(document: string) returns (r: Parsed)
    ensures r == ParseDocument(document)
  {
    hide ParseSections, SplitLines;
    if |Utf8.Encode(document)| > MAX_PATCH_BYTES {
      return Failure(InvalidPatch);
    }
    var lines := SplitLines(document);
    if |lines| < 2 || lines[0] != BEGIN || lines[|lines| - 1] != END {
      return Failure(InvalidPatch);
    }
    var sections := ReadSections(lines, |lines| - 1);
    if sections == Success([]) {
      return Failure(InvalidPatch);
    }
    return sections;
  }

  method ReadSections(lines: seq<string>, last: nat) returns (r: Parsed)
    requires 1 <= last <= |lines|
    ensures r == ParseSections(lines[1..last])
  {
    hide ParseSection;
    var sections: seq<Section> := [];
    var index := 1;
    PrependTwice([], [], ParseSections(lines[1..last]));
    while index < last
      invariant 1 <= index <= last
      invariant ParseSections(lines[1..last]) == Prepend(sections, ParseSections(lines[index..last]))
    {
      var section, stop := ReadSection(lines, index, last);
      if section.Failure? {
        return Failure(section.error);
      }
      SubSlice(lines, index, last, stop, stop);
      PrependTwice(sections, [section.value], ParseSections(lines[stop..last]));
      sections := sections + [section.value];
      index := stop;
    }
    assert lines[index..last] == [] && sections + [] == sections;
    return Success(sections);
  }

  method ReadSection(lines: seq<string>, index: nat, last: nat) returns (r: Result<Section, ParseError>, stop: nat)
    requires index < last <= |lines|
    ensures r.Success? ==> index < stop <= last && ParseSection(lines[index..last]) == Success((r.value, stop - index))
    ensures r.Failure? ==> ParseSection(lines[index..last]) == Failure(r.error)
  {
    hide Header, IsMove, MoveTarget, RelativePath.Validate, ParseContent;
    stop := index;
    ghost var rest := lines[index..last];
    assert rest[0] == lines[index];
    var header := Header(lines[index]);
    if header.None? {
      return Failure(InvalidPatch), stop;
    }
    var (kind, raw) := header.value;
    var path := RelativePath.Validate(raw);
    if path.None? {
      return Failure(InvalidPath), stop;
    }
    var start := index + 1;
    var destination: Option<string> := None;
    if start < last { assert rest[1] == lines[start]; }
    if kind.UpdateFile? && start < last && IsMove(lines[start]) {
      destination := RelativePath.Validate(MoveTarget(lines[start]));
      if destination.None? {
        return Failure(InvalidPath), stop;
      }
      start := start + 1;
    }
    stop := FindHeader(lines, start, last);
    SubSlice(lines, index, last, start, stop);
    assert ParseSection(rest) == ParseBody(kind, path.value, destination, rest, start - index);
    var section := ReadContent(kind, path.value, destination, lines[start..stop]);
    if section.None? {
      return Failure(InvalidPatch), stop;
    }
    return Success(section.value), stop;
  }

  lemma SliceOfSlice<T>(s: seq<T>, i: nat, j: nat, a: nat, b: nat)
    requires i <= j <= |s| && a <= b <= j - i
    ensures s[i..j][a..b] == s[i + a..i + b]
  {
    forall k | 0 <= k < b - a ensures s[i..j][a..b][k] == s[i + a..i + b][k] {
    }
  }

  lemma SubSlice(lines: seq<string>, index: nat, last: nat, start: nat, stop: nat)
    requires index <= start <= stop <= last <= |lines|
    ensures lines[index..last][start - index..] == lines[start..last]
    ensures lines[index..last][start - index..stop - index] == lines[start..stop]
    ensures lines[index..last][stop - index..] == lines[stop..last]
  {
    SliceOfSlice(lines, index, last, start - index, last - index);
    SliceOfSlice(lines, index, last, start - index, stop - index);
    SliceOfSlice(lines, index, last, stop - index, last - index);
  }

  method FindHeader(lines: seq<string>, start: nat, last: nat) returns (stop: nat)
    requires start <= last <= |lines|
    ensures start <= stop <= last
    ensures stop == start + ContentLength(lines[start..last])
  {
    stop := start;
    while stop < last && Header(lines[stop]).None?
      invariant start <= stop <= last
      invariant start + ContentLength(lines[start..last]) == stop + ContentLength(lines[stop..last])
    {
      assert lines[stop..last][1..] == lines[stop + 1..last];
      stop := stop + 1;
    }
  }

  method ReadContent(kind: Kind, path: string, destination: Option<string>, content: seq<string>)
    returns (r: Option<Section>)
    ensures r == ParseContent(kind, path, destination, content)
  {
    hide UsableHunk, ParseHunkLines;
    if kind.AddFile? {
      if content == [] || !AllInserted(content) {
        return None;
      }
      return Some(Add(path, seq(|content|, i requires 0 <= i < |content| => content[i][1..])));
    }
    if kind.DeleteFile? {
      return if content == [] then Some(Delete(path)) else None;
    }
    var hunks := ReadHunks(content);
    if hunks.None? || hunks.value == [] {
      return None;
    }
    return Some(if destination.Some? then Move(path, destination.value, hunks.value) else Update(path, hunks.value));
  }

  method ReadHunks(content: seq<string>) returns (r: Option<seq<Hunk>>)
    ensures r == ParseHunks(content)
  {
    hide UsableHunk, ParseHunkLines;
    var hunks: seq<Hunk> := [];
    var cursor := 0;
    assert content[0..] == content;
    PrependHunksTwice([], [], ParseHunks(content));
    while cursor < |content|
      invariant 0 <= cursor <= |content|
      invariant ParseHunks(content) == PrependHunks(hunks, ParseHunks(content[cursor..]))
    {
      ghost var rest := content[cursor..];
      if content[cursor] != "@@" {
        return None;
      }
      var hunk, stop := ReadHunk(content, cursor + 1);
      assert rest[1..] == content[cursor + 1..];
      if hunk.None? || !UsableHunk(hunk.value) {
        return None;
      }
      assert rest[stop - cursor..] == content[stop..];
      assert ParseHunks(rest) == PrependHunks([hunk.value], ParseHunks(content[stop..]));
      PrependHunksTwice(hunks, [hunk.value], ParseHunks(content[stop..]));
      hunks := hunks + [hunk.value];
      cursor := stop;
    }
    assert content[cursor..] == [] && hunks + [] == hunks;
    return Some(hunks);
  }

  method ReadHunk(content: seq<string>, start: nat) returns (r: Option<Hunk>, stop: nat)
    requires start <= |content|
    ensures r == ParseHunkLines(content[start..][..HunkLength(content[start..])])
    ensures r.Some? ==> stop == start + HunkLength(content[start..])
  {
    ghost var n := HunkLength(content[start..]);
    var hunk: Hunk := [];
    stop := start;
    assert content[start..][..n] == content[start..start + n];
    PrependLinesTwice([], [], ParseHunkLines(content[start..start + n]));
    while stop < |content| && content[stop] != "@@"
      invariant start <= stop <= |content|
      invariant start + n == stop + HunkLength(content[stop..])
      invariant ParseHunkLines(content[start..][..n]) == PrependLines(hunk, ParseHunkLines(content[stop..start + n]))
    {
      var line := content[stop];
      assert content[stop..][1..] == content[stop + 1..];
      assert content[stop..start + n][1..] == content[stop + 1..start + n];
      if line == "" || TagOf(line[0]).None? {
        return None, stop;
      }
      PrependLinesTwice(hunk, [HunkLine(TagOf(line[0]).value, line[1..])], ParseHunkLines(content[stop + 1..start + n]));
      hunk := hunk + [HunkLine(TagOf(line[0]).value, line[1..])];
      stop := stop + 1;
    }
    assert content[stop..start + n] == [] && hunk + [] == hunk;
    return Some(hunk), stop;
  }

  lemma PrependHunksTwice(a: seq<Hunk>, b: seq<Hunk>, r: Option<seq<Hunk>>)
    ensures PrependHunks(a, PrependHunks(b, r)) == PrependHunks(a + b, r)
    ensures PrependHunks([], r) == r
  {
    if r.Some? { assert [] + r.value == r.value; assert a + (b + r.value) == a + b + r.value; }
  }

  lemma PrependLinesTwice(a: Hunk, b: Hunk, r: Option<Hunk>)
    ensures PrependLines(a, PrependLines(b, r)) == PrependLines(a + b, r)
    ensures PrependLines([], r) == r
  {
    if r.Some? { assert [] + r.value == r.value; assert a + (b + r.value) == a + b + r.value; }
  }

  function PrependHunks(first: seq<Hunk>, r: Option<seq<Hunk>>): Option<seq<Hunk>> {
    if r.Some? then Some(first + r.value) else None
  }

  function PrependLines(first: Hunk, r: Option<Hunk>): Option<Hunk> {
    if r.Some? then Some(first + r.value) else None
  }

  // Printing

  function PrintHunkLines(h: Hunk): seq<string> {
    if h == [] then [] else [[TagChar(h[0].tag)] + h[0].text] + PrintHunkLines(h[1..])
  }

  function PrintHunks(hunks: seq<Hunk>): seq<string> {
    if hunks == [] then [] else ["@@"] + PrintHunkLines(hunks[0]) + PrintHunks(hunks[1..])
  }

  function Plus(lines: seq<string>): seq<string> {
    seq(|lines|, i requires 0 <= i < |lines| => "+" + lines[i])
  }

  function Heading(s: Section): seq<string> {
    match s
    case Add(path, _) => [HeaderLine(AddFile, path)]
    case Delete(path) => [HeaderLine(DeleteFile, path)]
    case Update(path, _) => [HeaderLine(UpdateFile, path)]
    case Move(path, destination, _) => [HeaderLine(UpdateFile, path), MoveLine(destination)]
  }

  function Content(s: Section): seq<string> {
    match s
    case Add(_, lines) => Plus(lines)
    case Delete(_) => []
    case Update(_, hunks) => PrintHunks(hunks)
    case Move(_, _, hunks) => PrintHunks(hunks)
  }

  function PrintSections(sections: seq<Section>): seq<string> {
    if sections == [] then [] else Heading(sections[0]) + Content(sections[0]) + PrintSections(sections[1..])
  }

  function Print(sections: seq<Section>): string {
    Join([BEGIN] + PrintSections(sections) + [END], "\n")
  }

  predicate CleanPath(path: string) {
    RelativePath.Validate(path) == Some(path) && Breakless(path)
  }

  predicate CleanHunk(h: Hunk) {
    UsableHunk(h) && forall i :: 0 <= i < |h| ==> Breakless(h[i].text)
  }

  predicate CleanHunks(hunks: seq<Hunk>) {
    hunks != [] && forall i :: 0 <= i < |hunks| ==> CleanHunk(hunks[i])
  }

  /** Sections a document can express: normalized paths and lines without line breaks. */
  predicate Clean(s: Section) {
    match s
    case Add(path, lines) => CleanPath(path) && lines != [] && forall i :: 0 <= i < |lines| ==> Breakless(lines[i])
    case Delete(path) => CleanPath(path)
    case Update(path, hunks) => CleanPath(path) && CleanHunks(hunks)
    case Move(path, destination, hunks) => CleanPath(path) && CleanPath(destination) && CleanHunks(hunks)
  }

  predicate AllClean(sections: seq<Section>) {
    forall i :: 0 <= i < |sections| ==> Clean(sections[i])
  }

  /** Content lines never look like a section header. */
  ghost predicate Ordinary(lines: seq<string>) {
    forall i :: 0 <= i < |lines| ==> Header(lines[i]).None? && !IsMove(lines[i])
  }

  ghost predicate AtBoundary(rest: seq<string>) {
    rest == [] || Header(rest[0]).Some?
  }

  function KindOf(s: Section): Kind {
    match s
    case Add(_, _) => AddFile
    case Delete(_) => DeleteFile
    case Update(_, _) => UpdateFile
    case Move(_, _, _) => UpdateFile
  }

  function DestinationOf(s: Section): Option<string> {
    if s.Move? then Some(s.destination) else None
  }

  lemma HeaderOfPrinted(kind: Kind, path: string)
    requires path != ""
    ensures Header(HeaderLine(kind, path)) == Some((kind, path))
  {
    var line := HeaderLine(kind, path);
    assert line[4] == HeaderPrefix(kind)[4];
    assert line[|HeaderPrefix(kind)|..] == path;
  }

  lemma MoveOfPrinted(path: string)
    ensures IsMove(MoveLine(path)) && MoveTarget(MoveLine(path)) == path
  {
  }

  lemma OrdinaryLine(c: char, text: string)
    requires c != '*'
    ensures Header([c] + text).None? && !IsMove([c] + text)
  {
    assert ([c] + text)[0] == c;
  }

  lemma {:induction false} ContentLengthOf(content: seq<string>, rest: seq<string>)
    requires Ordinary(content) && AtBoundary(rest)
    ensures ContentLength(content + rest) == |content|
  {
    if content == [] {
      assert content + rest == rest;
    } else {
      ContentLengthOf(content[1..], rest);
      assert (content + rest)[1..] == content[1..] + rest;
    }
  }

  lemma {:induction false} HunkLinesParsed(h: Hunk)
    ensures ParseHunkLines(PrintHunkLines(h)) == Some(h)
  {
    if h != [] {
      HunkLinesParsed(h[1..]);
      var line := [TagChar(h[0].tag)] + h[0].text;
      assert PrintHunkLines(h)[0] == line && PrintHunkLines(h)[1..] == PrintHunkLines(h[1..]);
      assert line[0] == TagChar(h[0].tag) && line[1..] == h[0].text;
      assert h == [HunkLine(h[0].tag, h[0].text)] + h[1..];
    }
  }

  lemma {:induction false} HunkLengthPrinted(h: Hunk, rest: seq<string>)
    requires rest == [] || rest[0] == "@@"
    ensures HunkLength(PrintHunkLines(h) + rest) == |PrintHunkLines(h)|
  {
    var lines := PrintHunkLines(h);
    if h == [] {
      assert lines + rest == rest;
    } else {
      HunkLengthPrinted(h[1..], rest);
      assert lines[0][0] == TagChar(h[0].tag);
      assert (lines + rest)[0] == lines[0] && (lines + rest)[1..] == lines[1..] + rest;
    }
  }

  lemma {:induction false} HunkLinesOrdinary(h: Hunk)
    ensures Ordinary(PrintHunkLines(h))
  {
    hide Header, IsMove;
    if h != [] {
      HunkLinesOrdinary(h[1..]);
      OrdinaryLine(TagChar(h[0].tag), h[0].text);
      var lines := PrintHunkLines(h);
      assert forall i :: 0 < i < |lines| ==> lines[i] == PrintHunkLines(h[1..])[i - 1];
    }
  }

  lemma {:induction false} HunksPrinted(hunks: seq<Hunk>)
    requires forall i :: 0 <= i < |hunks| ==> UsableHunk(hunks[i])
    ensures ParseHunks(PrintHunks(hunks)) == Some(hunks)
    ensures Ordinary(PrintHunks(hunks))
    ensures hunks != [] ==> PrintHunks(hunks)[0] == "@@"
  {
    hide Header, IsMove, UsableHunk, PrintHunkLines, ParseHunkLines;
    if hunks != [] {
      var h, tail := PrintHunkLines(hunks[0]), PrintHunks(hunks[1..]);
      HunksPrinted(hunks[1..]);
      HunkLinesParsed(hunks[0]);
      HunkLengthPrinted(hunks[0], tail);
      HunkLinesOrdinary(hunks[0]);
      assert hunks == [hunks[0]] + hunks[1..];
      Marked(h, tail);
      OrdinaryLine('@', "@");
      assert ['@'] + "@" == "@@";
      OrdinaryConcat(["@@"], h);
      OrdinaryConcat(["@@"] + h, tail);
    }
  }

  lemma Marked(h: seq<string>, tail: seq<string>)
    ensures var lines := ["@@"] + h + tail;
      lines[0] == "@@" && lines[1..] == h + tail && (h + tail)[..|h|] == h && lines[1 + |h|..] == tail
  {
  }

  lemma OrdinaryConcat(a: seq<string>, b: seq<string>)
    requires Ordinary(a) && Ordinary(b)
    ensures Ordinary(a + b)
  {
  }

  lemma ContentPrinted(s: Section)
    requires Clean(s)
    ensures Ordinary(Content(s))
    ensures ParseContent(KindOf(s), s.path, DestinationOf(s), Content(s)) == Some(s)
    ensures s.Update? ==> Content(s) != [] && !IsMove(Content(s)[0])
  {
    hide Header, IsMove, UsableHunk, CleanPath, AllInserted, Breakless, PrintHunks, ParseHunks;
    match s
    case Add(_, lines) => PlusPrinted(lines);
    case Delete(_) =>
    case Update(_, hunks) => CleanHunksPrinted(hunks);
    case Move(_, _, hunks) => CleanHunksPrinted(hunks);
  }

  lemma CleanHunksPrinted(hunks: seq<Hunk>)
    requires CleanHunks(hunks)
    ensures ParseHunks(PrintHunks(hunks)) == Some(hunks)
    ensures Ordinary(PrintHunks(hunks))
    ensures PrintHunks(hunks) != [] && !IsMove(PrintHunks(hunks)[0])
  {
    hide UsableHunk, Breakless;
    assert forall i :: 0 <= i < |hunks| ==> CleanHunk(hunks[i]);
    HunksPrinted(hunks);
  }

  lemma PlusPrinted(lines: seq<string>)
    ensures Ordinary(Plus(lines)) && AllInserted(Plus(lines))
    ensures seq(|lines|, i requires 0 <= i < |lines| => Plus(lines)[i][1..]) == lines
  {
    hide Header, IsMove;
    var content := Plus(lines);
    forall i | 0 <= i < |content|
      ensures Header(content[i]).None? && !IsMove(content[i]) && content[i][1..] == lines[i] && "+" <= content[i]
    {
      OrdinaryLine('+', lines[i]);
      assert content[i] == ['+'] + lines[i];
    }
  }

  lemma SectionPrinted(s: Section, rest: seq<string>)
    requires Clean(s) && AtBoundary(rest)
    ensures var lines := Heading(s) + Content(s) + rest;
      ParseSection(lines) == Success((s, |Heading(s)| + |Content(s)|)) && lines[|Heading(s)| + |Content(s)|..] == rest
  {
    hide Header, IsMove, MoveTarget, MoveLine, HeaderLine, ParseContent, Content, RelativePath.Validate;
    var lines := Heading(s) + Content(s) + rest;
    var start := |Heading(s)|;
    RelativePath.ValidateIdempotent(s.path);
    HeaderOfPrinted(KindOf(s), s.path);
    ContentPrinted(s);
    ContentLengthOf(Content(s), rest);
    assert lines[0] == HeaderLine(KindOf(s), s.path);
    assert lines[start..] == Content(s) + rest;
    assert lines[start..start + |Content(s)|] == Content(s);
    if s.Move? {
      MoveOfPrinted(s.destination);
      assert lines[1] == MoveLine(s.destination);
    } else if s.Update? {
      assert lines[1] == Content(s)[0];
    }
  }

  lemma {:induction false} SectionsPrinted(sections: seq<Section>)
    requires AllClean(sections)
    ensures ParseSections(PrintSections(sections)) == Success(sections)
    ensures AtBoundary(PrintSections(sections))
  {
    hide Header, HeaderLine, ParseSection, Content, RelativePath.Validate;
    if sections != [] {
      var s, rest := sections[0], PrintSections(sections[1..]);
      SectionsPrinted(sections[1..]);
      SectionPrinted(s, rest);
      RelativePath.ValidateIdempotent(s.path);
      HeaderOfPrinted(KindOf(s), s.path);
      assert PrintSections(sections)[0] == HeaderLine(KindOf(s), s.path);
      assert sections == [s] + sections[1..];
    }
  }

  lemma {:induction false} HunksBreakless(hunks: seq<Hunk>)
    requires forall i :: 0 <= i < |hunks| ==> CleanHunk(hunks[i])
    ensures AllBreakless(PrintHunks(hunks))
  {
    if hunks != [] {
      HunkLinesBreakless(hunks[0]);
      HunksBreakless(hunks[1..]);
    }
  }

  lemma {:induction false} HunkLinesBreakless(h: Hunk)
    requires forall i :: 0 <= i < |h| ==> Breakless(h[i].text)
    ensures AllBreakless(PrintHunkLines(h))
  {
    if h != [] {
      HunkLinesBreakless(h[1..]);
    }
  }

  lemma PrefixBreakless(kind: Kind)
    ensures Breakless(HeaderPrefix(kind))
  {
  }

  lemma MoveBreakless()
    ensures Breakless(MOVE)
  {
  }

  lemma BreaklessConcat(a: string, b: string)
    requires Breakless(a) && Breakless(b)
    ensures Breakless(a + b)
  {
  }

  lemma HeadBreakless(s: Section)
    requires Clean(s)
    ensures AllBreakless(Heading(s))
  {
    hide HeaderPrefix, Breakless, RelativePath.Validate;
    PrefixBreakless(KindOf(s));
    BreaklessConcat(HeaderPrefix(KindOf(s)), s.path);
    MoveBreakless();
    if s.Move? { BreaklessConcat(MOVE, s.destination); }
  }

  lemma ContentBreakless(s: Section)
    requires Clean(s)
    ensures AllBreakless(Content(s))
  {
    if s.Update? { HunksBreakless(s.hunks); }
    if s.Move? { HunksBreakless(s.hunks); }
    if s.Add? {
      forall i | 0 <= i < |s.lines| ensures Breakless("+" + s.lines[i]) {
      }
    }
  }

  lemma {:induction false} SectionsBreakless(sections: seq<Section>)
    requires AllClean(sections)
    ensures AllBreakless(PrintSections(sections))
  {
    hide Clean, Heading, Content, Breakless;
    if sections != [] {
      SectionsBreakless(sections[1..]);
      HeadBreakless(sections[0]);
      ContentBreakless(sections[0]);
    }
  }

  lemma MarkersBreakless()
    ensures Breakless(BEGIN) && Breakless(END) && END != "" && BEGIN != END
  {
    assert BEGIN[4] == 'B' && END[4] == 'E';
  }

  /** The lines of a printed document. */
  lemma PrintedLines(sections: seq<Section>)
    requires AllClean(sections)
    ensures SplitLines(Print(sections)) == [BEGIN] + PrintSections(sections) + [END]
  {
    hide Breakless, PrintSections, SplitLines, Join, Clean;
    var lines := [BEGIN] + PrintSections(sections) + [END];
    SectionsBreakless(sections);
    MarkersBreakless();
    forall i | 0 <= i < |lines| ensures Breakless(lines[i]) {
      if 0 < i < |lines| - 1 { assert lines[i] == PrintSections(sections)[i - 1]; }
    }
    SplitJoin(lines, "\n");
  }

  /** Well-formed sections survive printing and parsing exactly when there are some
    and their document is within the size limit. */
  lemma ParsePrint(sections: seq<Section>)
    requires AllClean(sections)
    ensures ParseDocument(Print(sections)) == Success(sections) <==>
      sections != [] && |Utf8.Encode(Print(sections))| <= MAX_PATCH_BYTES
  {
    hide Print, PrintSections, SplitLines, ParseSections, Clean, Utf8.Encode;
    PrintedLines(sections);
    SectionsPrinted(sections);
    var lines := [BEGIN] + PrintSections(sections) + [END];
    assert lines[1..|lines| - 1] == PrintSections(sections);
  }
}
