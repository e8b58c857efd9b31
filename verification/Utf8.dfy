/** UTF-8 (section 3 of RFC 3629) over Unicode scalar values, as strings of `char`. */
module Utf8 {
  import opened Wrappers
  import opened Content

  function EncodeChar(c: char): (b: Bytes)
    ensures 1 <= |b| <= 4
  {
    var n := c as int;
    if n < 0x80 then [n as byte]
    else if n < 0x800 then [(0xC0 + n / 0x40) as byte, Tail(n)]
    else if n < 0x1_0000 then [(0xE0 + n / 0x1000) as byte, Tail(n / 0x40), Tail(n)]
    else [(0xF0 + n / 0x4_0000) as byte, Tail(n / 0x1000), Tail(n / 0x40), Tail(n)]
  }

  function Tail(n: nat): byte {
    (0x80 + n % 0x40) as byte
  }

  function Encode(s: string): Bytes {
    if s == "" then [] else EncodeChar(s[0]) + Encode(s[1..])
  }

  predicate IsScalar(n: int) {
    0 <= n < 0xD800 || 0xE000 <= n < 0x11_0000
  }

  /** The number of bytes a sequence with this first byte has, or 0 for a byte
    that starts no sequence. */
  function SequenceLength(lead: byte): nat {
    if lead < 0x80 then 1
    else if lead < 0xC0 then 0
    else if lead < 0xE0 then 2
    else if lead < 0xF0 then 3
    else if lead < 0xF8 then 4
    else 0
  }

  function Low(b: byte): int {
    b as int % 0x40
  }

  /** The scalar value a sequence spells, whether or not it is the shortest form. */
  function CodePoint(b: Bytes): int
    requires 1 <= |b| <= 4
  {
    if |b| == 1 then b[0] as int
    else if |b| == 2 then (b[0] as int % 0x20) * 0x40 + Low(b[1])
    else if |b| == 3 then (b[0] as int % 0x10) * 0x1000 + Low(b[1]) * 0x40 + Low(b[2])
    else (b[0] as int % 0x08) * 0x4_0000 + Low(b[1]) * 0x1000 + Low(b[2]) * 0x40 + Low(b[3])
  }

  /** The first character of a byte string and its width, unless the bytes are ill-formed there. */
  function DecodeFirst(b: Bytes): (r: Option<(char, nat)>)
    ensures r.Some? ==> 1 <= r.value.1 <= |b| && EncodeChar(r.value.0) == b[..r.value.1]
  {
    if b == [] then None
    else
      var n := SequenceLength(b[0]);
      if n == 0 || |b| < n then None
      else
        var code := CodePoint(b[..n]);
        if IsScalar(code) && EncodeChar(code as char) == b[..n] then Some((code as char, n)) else None
  }

  function Decode(b: Bytes): (r: Option<string>) {
    if b == [] then Some("")
    else match DecodeFirst(b)
      case None => None
      case Some((c, n)) =>
        match Decode(b[n..])
        case None => None
        case Some(rest) => Some([c] + rest)
  }

  /** Decoding with `errors="ignore"`: ill-formed bytes are dropped. */
  function DecodeIgnore(b: Bytes): string {
    if b == [] then ""
    else match DecodeFirst(b)
      case None => DecodeIgnore(b[1..])
      case Some((c, n)) => [c] + DecodeIgnore(b[n..])
  }

  /** The longest prefix of `s` whose encoding has at most `budget` bytes. */
  function Fitting(s: string, budget: int): (p: string)
    ensures p <= s
    ensures |Encode(p)| <= budget || p == ""
    ensures forall q: string :: q <= s && |Encode(q)| <= budget ==> q <= p
  {
    if s == "" || |EncodeChar(s[0])| > budget then
      assert forall q: string :: q <= s && q != "" ==> |Encode(q)| >= |EncodeChar(s[0])|;
      ""
    else
      var rest := Fitting(s[1..], budget - |EncodeChar(s[0])|);
      assert forall q: string :: q <= s && q != "" ==> q[1..] <= s[1..];
      assert ([s[0]] + rest)[1..] == rest;
      [s[0]] + rest
  }

  lemma Digits(n: nat)
    ensures n == n / 0x40 * 0x40 + n % 0x40
    ensures Low(Tail(n)) == n % 0x40
  {
  }

  lemma CodePointOfChar(c: char)
    ensures CodePoint(EncodeChar(c)) == c as int
    ensures SequenceLength(EncodeChar(c)[0]) == |EncodeChar(c)|
  {
    var n: nat := c as int;
    if n >= 0x1_0000 { FourBytes(c); }
    else if n >= 0x800 { ThreeBytes(c); }
    else if n >= 0x80 {
      hide Tail;
      Digits(n);
      assert 0 <= n / 0x40 < 0x20;
    }
  }

  lemma ThreeBytes(c: char)
    requires 0x800 <= c as int < 0x1_0000
    ensures CodePoint(EncodeChar(c)) == c as int
    ensures SequenceLength(EncodeChar(c)[0]) == |EncodeChar(c)|
  {
    hide Tail;
    var n: nat := c as int;
    Digits(n);
    Digits(n / 0x40);
    QuotientsNest(n);
    assert 0 <= n / 0x1000 < 0x10;
  }

  lemma FourBytes(c: char)
    requires 0x1_0000 <= c as int
    ensures CodePoint(EncodeChar(c)) == c as int
    ensures SequenceLength(EncodeChar(c)[0]) == |EncodeChar(c)|
  {
    hide Tail;
    var n: nat := c as int;
    Digits(n);
    Digits(n / 0x40);
    Digits(n / 0x1000);
    QuotientsNest(n);
    assert 0 <= n / 0x4_0000 < 0x08;
  }

  lemma QuotientsNest(n: nat)
    ensures n / 0x40 / 0x40 == n / 0x1000
    ensures n / 0x1000 / 0x40 == n / 0x4_0000
  {
  }

  lemma DecodeFirstOfEncoded(c: char, rest: Bytes)
    ensures DecodeFirst(EncodeChar(c) + rest) == Some((c, |EncodeChar(c)|))
  {
    CodePointOfChar(c);
    var e := EncodeChar(c);
    assert (e + rest)[..|e|] == e;
  }

  lemma {:induction false} EncodeConcat(a: string, b: string)
    ensures Encode(a + b) == Encode(a) + Encode(b)
  {
    hide EncodeChar;
    if a == "" {
      assert a + b == b;
    } else {
      Uncons(a, b);
      hide *;
      EncodeConcat(a[1..], b);
      EncodeCons(a[0], a[1..] + b);
      EncodeCons(a[0], a[1..]);
    }
  }

  lemma Uncons(a: string, b: string)
    requires a != ""
    ensures a == [a[0]] + a[1..]
    ensures a + b == [a[0]] + (a[1..] + b)
  {
  }

  /** Decoding undoes encoding. */
  lemma {:induction false} DecodeEncode(s: string)
    ensures Decode(Encode(s)) == Some(s)
  {
    if s != "" {
      var e, rest := EncodeChar(s[0]), Encode(s[1..]);
      DecodeFirstOfEncoded(s[0], rest);
      assert (e + rest)[|e|..] == rest;
      DecodeEncode(s[1..]);
      assert [s[0]] + s[1..] == s;
    }
  }

  /** A valid byte string is the encoding of what it decodes to, so decoding is injective. */
  lemma {:induction false} EncodeDecode(b: Bytes)
    requires Decode(b).Some?
    ensures Encode(Decode(b).value) == b
  {
    hide EncodeChar, DecodeFirst;
    if b != [] {
      var (c, n) := DecodeFirst(b).value;
      var rest := Decode(b[n..]).value;
      EncodeDecode(b[n..]);
      EncodeCons(c, rest);
      assert b == b[..n] + b[n..];
    }
  }

  lemma EncodeCons(c: char, rest: string)
    ensures Encode([c] + rest) == EncodeChar(c) + Encode(rest)
  {
    hide EncodeChar;
    assert ([c] + rest)[1..] == rest;
  }

  lemma DecodeIgnoreFirst(c: char, rest: Bytes)
    ensures DecodeIgnore(EncodeChar(c) + rest) == [c] + DecodeIgnore(rest)
  {
    var e := EncodeChar(c);
    hide EncodeChar, DecodeFirst;
    DecodeFirstOfEncoded(c, rest);
    assert (e + rest)[|e|..] == rest;
  }

  lemma CutAfter(e: Bytes, rest: Bytes, budget: nat)
    requires budget <= |e| + |rest|
    ensures if |e| <= budget then (e + rest)[..budget] == e + rest[..budget - |e|] else (e + rest)[..budget] == e[..budget]
  {
  }

  /** Cutting an encoded text anywhere and decoding what is left keeps exactly
    the longest prefix of whole characters. */
  lemma {:induction false} DecodeIgnoreOfCut(s: string, budget: nat)
    requires budget <= |Encode(s)|
    ensures DecodeIgnore(Encode(s)[..budget]) == Fitting(s, budget)
  {
    if s != "" {
      var e, rest := EncodeChar(s[0]), Encode(s[1..]);
      hide EncodeChar, DecodeIgnore;
      CutAfter(e, rest, budget);
      if |e| <= budget {
        DecodeIgnoreFirst(s[0], rest[..budget - |e|]);
        DecodeIgnoreOfCut(s[1..], budget - |e|);
      } else {
        PartialCharIgnored(s[0], budget);
      }
    }
  }

  lemma PartialCharIgnored(c: char, k: nat)
    requires k < |EncodeChar(c)|
    ensures DecodeIgnore(EncodeChar(c)[..k]) == ""
  {
    CodePointOfChar(c);
    if k > 0 {
      var cut := EncodeChar(c)[..k];
      assert DecodeFirst(cut).None?;
      TailsIgnored(cut[1..]);
    }
  }

  lemma {:induction false} TailsIgnored(b: Bytes)
    requires forall i :: 0 <= i < |b| ==> 0x80 <= b[i] < 0xC0
    ensures DecodeIgnore(b) == ""
  {
    if b != [] {
      TailsIgnored(b[1..]);
    }
  }
}
