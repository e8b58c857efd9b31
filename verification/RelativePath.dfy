/** Validation of untrusted project-relative Windows paths. */
module RelativePath {
  import opened Wrappers
  import opened TextLines

  const RESERVED: set<string> := {
    "CON", "PRN", "AUX", "NUL",
    "COM1", "COM2", "COM3", "COM4", "COM5", "COM6", "COM7", "COM8", "COM9",
    "LPT1", "LPT2", "LPT3", "LPT4", "LPT5", "LPT6", "LPT7", "LPT8", "LPT9"
  }

  function Slashes(s: string): (r: string)
    ensures |r| == |s|
    ensures forall i :: 0 <= i < |s| ==> r[i] == if s[i] == '\\' then '/' else s[i]
  {
    seq(|s|, i requires 0 <= i < |s| => if s[i] == '\\' then '/' else s[i])
  }

  function UpTo(s: string, c: char): (r: string)
    ensures r <= s && c !in r
    ensures |r| < |s| ==> s[|r|] == c
  {
    if s == "" || s[0] == c then "" else [s[0]] + UpTo(s[1..], c)
  }

  function Split(s: string, c: char): (parts: seq<string>)
    ensures parts != []
    decreases |s|
  {
    var first := UpTo(s, c);
    if |first| == |s| then [first] else [first] + Split(s[|first| + 1..], c)
  }

  function Upper(s: string): string {
    seq(|s|, i requires 0 <= i < |s| => if 'a' <= s[i] <= 'z' then (s[i] as int - 32) as char else s[i])
  }

  predicate ForbiddenChar(c: char) {
    c in "<>:\"|?*" || c < ' '
  }

  predicate ValidComponent(part: string) {
    && part !in {"", ".", ".."}
    && part[|part| - 1] != '.' && part[|part| - 1] != ' '
    && (forall i :: 0 <= i < |part| ==> !ForbiddenChar(part[i]))
    && Upper(UpTo(part, '.')) !in RESERVED
  }

  /** The normalized path, or nothing when the path is rejected. */
  function Validate(path: string): Option<string> {
    var parts := Split(Slashes(path), '/');
    if forall i :: 0 <= i < |parts| ==> ValidComponent(parts[i]) then Some(Join(parts, "/")) else None
  }

  lemma {:induction false} JoinSplit(s: string, c: char)
    ensures Join(Split(s, c), [c]) == s
    decreases |s|
  {
    var first := UpTo(s, c);
    if |first| < |s| {
      JoinSplit(s[|first| + 1..], c);
      assert s == first + [c] + s[|first| + 1..];
    }
  }

  /** An accepted path is its own text with forward slashes, and is accepted unchanged again. */
  lemma ValidateIdempotent(path: string)
    ensures Validate(path).Some? ==> Validate(path).value == Slashes(path)
    ensures Validate(path).Some? ==> Validate(Validate(path).value) == Validate(path)
    ensures Validate(path).Some? ==> path != ""
  {
    JoinSplit(Slashes(path), '/');
    assert ['/'] == "/";
    assert Slashes(Slashes(path)) == Slashes(path);
    if path == "" {
      assert Split(Slashes(path), '/') == [""];
    }
  }

  /** The text cut at every separator: no part holds one, and the parts join back. */
  ghost predicate CutAt(s: string, c: char, parts: seq<string>) {
    parts != [] && Join(parts, [c]) == s && forall i :: 0 <= i < |parts| ==> c !in parts[i]
  }

  /** Splitting is the one way to cut a text at a separator. */
  lemma {:induction false} SplitMeans(s: string, c: char, parts: seq<string>)
    ensures parts == Split(s, c) <==> CutAt(s, c, parts)
    decreases |s|
  {
    var first := UpTo(s, c);
    JoinSplit(s, c);
    if |first| < |s| {
      var rest := s[|first| + 1..];
      assert s == first + [c] + rest;
      SplitMeans(rest, c, Split(rest, c));
      if CutAt(s, c, parts) {
        FirstPart(s, c, parts);
        SplitMeans(rest, c, parts[1..]);
      }
    } else if CutAt(s, c, parts) {
      FirstPart(s, c, parts);
    }
  }

  lemma FirstPart(s: string, c: char, parts: seq<string>)
    requires CutAt(s, c, parts)
    ensures UpTo(s, c) == parts[0]
    ensures |parts[0]| < |s| ==> |parts| > 1 && Join(parts[1..], [c]) == s[|parts[0]| + 1..]
    ensures |parts[0]| >= |s| ==> parts == [s]
  {
    var first := UpTo(s, c);
    if |parts| == 1 {
      assert s == parts[0];
    } else {
      var rest := Join(parts[1..], [c]);
      assert s == parts[0] + [c] + rest;
      assert s[|parts[0]|] == c && s[..|parts[0]|] == parts[0];
      assert |first| <= |parts[0]|;
      assert s[..|first|] == parts[0][..|first|];
    }
  }

  /** Two texts with the same characters, up to the case of ASCII letters. */
  predicate SameName(a: string, b: string) {
    && |a| == |b|
    && forall i :: 0 <= i < |a| ==>
         a[i] == b[i] || ('a' <= a[i] <= 'z' && 'A' <= b[i] <= 'Z' && a[i] as int - 'a' as int == b[i] as int - 'A' as int)
  }

  /** The names Windows keeps for devices. */
  predicate DeviceName(name: string) {
    || name == "CON" || name == "PRN" || name == "AUX" || name == "NUL"
    || (|name| == 4 && (name[..3] == "COM" || name[..3] == "LPT") && '1' <= name[3] <= '9')
  }

  predicate HasDeviceStem(part: string, n: nat, name: string) {
    n <= |part| && (n == |part| || part[n] == '.') && '.' !in part[..n] && DeviceName(name) && SameName(part[..n], name)
  }

  /** A component a Windows file may have: not empty, no dot or blank at its end,
    no control or special character, and no device name before its first dot. */
  ghost predicate Allowed(part: string) {
    && part != "" && part[|part| - 1] != '.' && part[|part| - 1] != ' '
    && (forall c | c in part :: c >= ' ' && c !in {'<', '>', ':', '"', '|', '?', '*'})
    && forall n: nat, name :: !HasDeviceStem(part, n, name)
  }

  lemma ReservedMeans(name: string)
    ensures name in RESERVED <==> DeviceName(name)
  {
    if name in RESERVED && |name| == 4 {
      assert name[..3] == "COM" || name[..3] == "LPT";
    }
    if DeviceName(name) && |name| == 4 {
      PortReserved(name);
    }
  }

  lemma PortReserved(name: string)
    requires DeviceName(name) && |name| == 4
    ensures name in RESERVED
  {
    if name[..3] == "COM" {
      assert name[0] == 'C' && name[1] == 'O' && name[2] == 'M';
      assert || name == "COM1" || name == "COM2" || name == "COM3" || name == "COM4" || name == "COM5"
             || name == "COM6" || name == "COM7" || name == "COM8" || name == "COM9";
    } else {
      assert name[..3] == "LPT" && name[0] == 'L' && name[1] == 'P' && name[2] == 'T';
      assert || name == "LPT1" || name == "LPT2" || name == "LPT3" || name == "LPT4" || name == "LPT5"
             || name == "LPT6" || name == "LPT7" || name == "LPT8" || name == "LPT9";
    }
  }

  lemma DeviceIsUpper(name: string)
    requires DeviceName(name)
    ensures forall i :: 0 <= i < |name| ==> !('a' <= name[i] <= 'z')
  {
  }

  lemma UpperMeans(s: string, name: string)
    requires DeviceName(name)
    ensures SameName(s, name) <==> Upper(s) == name
  {
    DeviceIsUpper(name);
    if Upper(s) == name {
      forall i | 0 <= i < |s|
        ensures s[i] == name[i]
          || ('a' <= s[i] <= 'z' && 'A' <= name[i] <= 'Z' && s[i] as int - 'a' as int == name[i] as int - 'A' as int)
      {
        assert Upper(s)[i] == name[i];
      }
    }
    if SameName(s, name) {
      forall i | 0 <= i < |s| ensures Upper(s)[i] == name[i] {
      }
    }
  }

  lemma ComponentMeans(part: string)
    ensures ValidComponent(part) <==> Allowed(part)
  {
    var stem := UpTo(part, '.');
    ReservedMeans(Upper(stem));
    assert stem == part[..|stem|];
    if DeviceName(Upper(stem)) {
      UpperMeans(stem, Upper(stem));
      assert HasDeviceStem(part, |stem|, Upper(stem));
    }
    if n: nat, name :| HasDeviceStem(part, n, name) {
      assert part[..n] == stem;
      UpperMeans(stem, name);
    }
    CharsMean(part);
  }

  lemma CharsMean(part: string)
    ensures (forall i :: 0 <= i < |part| ==> !ForbiddenChar(part[i])) <==>
      forall c | c in part :: c >= ' ' && c !in {'<', '>', ':', '"', '|', '?', '*'}
  {
    assert forall c: char :: c in "<>:\"|?*" <==> c in {'<', '>', ':', '"', '|', '?', '*'};
    if forall c | c in part :: c >= ' ' && c !in {'<', '>', ':', '"', '|', '?', '*'} {
      forall i | 0 <= i < |part| ensures !ForbiddenChar(part[i]) {
        assert part[i] in part;
      }
    }
  }

  /** What validation accepts: a path that slashes and backslashes cut into
    allowed components. It returns the path with forward slashes. */
  lemma ValidateMeans(path: string, result: string)
    ensures Validate(path) == Some(result) <==>
      result == Slashes(path) && exists parts :: CutAt(result, '/', parts) && forall i :: 0 <= i < |parts| ==> Allowed(parts[i])
  {
    hide ValidComponent, Allowed;
    var own := Split(Slashes(path), '/');
    SplitMeans(Slashes(path), '/', own);
    ValidateIdempotent(path);
    forall i | 0 <= i < |own| ensures ValidComponent(own[i]) <==> Allowed(own[i]) {
      ComponentMeans(own[i]);
    }
    if result == Slashes(path) {
      forall parts | CutAt(result, '/', parts) ensures parts == own {
        SplitMeans(result, '/', parts);
      }
    }
  }
}
