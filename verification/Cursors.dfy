/** Continuation cursors: numbers in decimal, in base64url without padding
  (section 5 of RFC 4648; section 3.2 for the padding left off). */
module Cursors {
  import opened Wrappers
  import opened Content
  import Utf8

  datatype CursorError = InvalidCursor

  // Base64url.

  function Symbol(v: nat): (c: char)
    requires v < 64
  {
    if v < 26 then 'A' + v as char
    else if v < 52 then 'a' + (v - 26) as char
    else if v < 62 then '0' + (v - 52) as char
    else if v == 62 then '-' else '_'
  }

  function SymbolValue(c: char): (r: Option<nat>)
    ensures r.Some? ==> r.value < 64
  {
    if 'A' <= c <= 'Z' then Some((c - 'A') as nat)
    else if 'a' <= c <= 'z' then Some((c - 'a') as nat + 26)
    else if '0' <= c <= '9' then Some((c - '0') as nat + 52)
    else if c == '-' then Some(62)
    else if c == '_' then Some(63)
    else None
  }

  /** Three bytes as four symbols; the last group is shorter. */
  function ToBase64(b: Bytes): string {
    if b == [] then ""
    else if |b| == 1 then
      [Symbol(b[0] as nat / 4), Symbol(b[0] as nat % 4 * 16)]
    else if |b| == 2 then
      [Symbol(b[0] as nat / 4), Symbol(b[0] as nat % 4 * 16 + b[1] as nat / 16), Symbol(b[1] as nat % 16 * 4)]
    else
      [Symbol(b[0] as nat / 4), Symbol(b[0] as nat % 4 * 16 + b[1] as nat / 16),
       Symbol(b[1] as nat % 16 * 4 + b[2] as nat / 64), Symbol(b[2] as nat % 64)] + ToBase64(b[3..])
  }

  function Values(s: string): (r: Option<seq<nat>>)
    ensures r.Some? ==> |r.value| == |s| && forall i :: 0 <= i < |s| ==> r.value[i] < 64
  {
    if s == "" then Some([])
    else
      var first, rest := SymbolValue(s[0]), Values(s[1..]);
      if first.None? || rest.None? then None else Some([first.value] + rest.value)
  }

  predicate Sextets(v: seq<nat>) {
    forall i :: 0 <= i < |v| ==> v[i] < 64
  }

  /** The bytes that groups of four symbol values spell; left-over bits are dropped. */
  function FromValues(v: seq<nat>): Option<Bytes>
    requires Sextets(v)
  {
    if v == [] then Some([])
    else if |v| == 1 then None
    else if |v| == 2 then Some([First(v)])
    else if |v| == 3 then Some([First(v), Second(v)])
    else
      var rest := FromValues(v[4..]);
      if rest.None? then None else Some([First(v), Second(v), Third(v)] + rest.value)
  }

  function First(v: seq<nat>): byte
    requires Sextets(v) && |v| >= 2
  {
    (v[0] * 4 + v[1] / 16) as byte
  }

  function Second(v: seq<nat>): byte
    requires Sextets(v) && |v| >= 3
  {
    (v[1] % 16 * 16 + v[2] / 4) as byte
  }

  function Third(v: seq<nat>): byte
    requires Sextets(v) && |v| >= 4
  {
    (v[2] % 4 * 64 + v[3]) as byte
  }

  function FromBase64(s: string): Option<Bytes> {
    var values := Values(s);
    if values.None? then None else FromValues(values.value)
  }

  /** The values the symbols of an encoding stand for. */
  function Spelled(b: Bytes): (v: seq<nat>)
    ensures Sextets(v)
  {
    if b == [] then []
    else if |b| == 1 then [b[0] as nat / 4, b[0] as nat % 4 * 16]
    else if |b| == 2 then [b[0] as nat / 4, b[0] as nat % 4 * 16 + b[1] as nat / 16, b[1] as nat % 16 * 4]
    else
      [b[0] as nat / 4, b[0] as nat % 4 * 16 + b[1] as nat / 16,
       b[1] as nat % 16 * 4 + b[2] as nat / 64, b[2] as nat % 64] + Spelled(b[3..])
  }

  lemma SymbolHasValue(v: nat)
    requires v < 64
    ensures SymbolValue(Symbol(v)) == Some(v)
  {
  }

  function Symbols(v: seq<nat>): string
    requires Sextets(v)
  {
    seq(|v|, i requires 0 <= i < |v| => Symbol(v[i]))
  }

  lemma {:induction false} ValuesOfSymbols(v: seq<nat>)
    requires Sextets(v)
    ensures Values(Symbols(v)) == Some(v)
  {
    if v != [] {
      SymbolHasValue(v[0]);
      ValuesOfSymbols(v[1..]);
      assert Symbols(v)[1..] == Symbols(v[1..]);
      assert [v[0]] + v[1..] == v;
    }
  }

  lemma {:induction false} EncodingSpells(b: Bytes)
    ensures ToBase64(b) == Symbols(Spelled(b))
  {
    hide Symbol;
    if |b| >= 3 {
      EncodingSpells(b[3..]);
    }
  }

  lemma BytesOfSextets(x: nat, y: nat, z: nat)
    requires x < 256 && y < 256 && z < 256
    ensures x / 4 * 4 + (x % 4 * 16 + y / 16) / 16 == x
    ensures (x % 4 * 16 + y / 16) % 16 * 16 + (y % 16 * 4 + z / 64) / 4 == y
    ensures (y % 16 * 4 + z / 64) % 4 * 64 + z % 64 == z
  {
  }

  lemma GroupBack(b: Bytes)
    requires |b| >= 3
    ensures var v := Spelled(b);
      && |v| >= 4 && v[4..] == Spelled(b[3..])
      && First(v) == b[0] && Second(v) == b[1] && Third(v) == b[2]
  {
    BytesOfSextets(b[0] as nat, b[1] as nat, b[2] as nat);
  }

  lemma PairBack(b: Bytes)
    requires |b| == 2
    ensures var v := Spelled(b); |v| == 3 && First(v) == b[0] && Second(v) == b[1]
  {
    BytesOfSextets(b[0] as nat, b[1] as nat, 0);
  }

  lemma SingleBack(b: Bytes)
    requires |b| == 1
    ensures var v := Spelled(b); |v| == 2 && First(v) == b[0]
  {
    BytesOfSextets(b[0] as nat, 0, 0);
  }

  lemma {:induction false} SpelledBack(b: Bytes)
    ensures FromValues(Spelled(b)) == Some(b)
  {
    if b == [] {
      return;
    }
    hide First, Second, Third, Spelled;
    if |b| == 1 {
      SingleBack(b);
      assert b == [b[0]];
    } else if |b| == 2 {
      PairBack(b);
      assert b == [b[0], b[1]];
    } else {
      GroupBack(b);
      SpelledBack(b[3..]);
      assert b == [b[0], b[1], b[2]] + b[3..];
    }
  }

  /** Base64url decoding undoes encoding. */
  lemma Base64RoundTrip(b: Bytes)
    ensures FromBase64(ToBase64(b)) == Some(b)
  {
    EncodingSpells(b);
    ValuesOfSymbols(Spelled(b));
    SpelledBack(b);
  }

  // Decimal numbers.

  function Decimal(n: nat): string {
    if n < 10 then ['0' + n as char] else Decimal(n / 10) + ['0' + (n % 10) as char]
  }

  predicate IsDigit(c: char) {
    '0' <= c <= '9'
  }

  predicate AllDigits(s: string) {
    forall i :: 0 <= i < |s| ==> IsDigit(s[i])
  }

  function Number(s: string): nat
    requires AllDigits(s)
  {
    if s == "" then 0 else Number(s[..|s| - 1]) * 10 + (s[|s| - 1] - '0') as nat
  }

  function ParseNumber(s: string): Option<nat> {
    if s != "" && AllDigits(s) then Some(Number(s)) else None
  }

  lemma {:induction false} DecimalDigits(n: nat)
    ensures Decimal(n) != "" && AllDigits(Decimal(n))
  {
    if n >= 10 { DecimalDigits(n / 10); }
  }

  lemma {:induction false} DecimalRoundTrip(n: nat)
    ensures ParseNumber(Decimal(n)) == Some(n)
  {
    DecimalDigits(n);
    if n >= 10 {
      DecimalRoundTrip(n / 10);
      var s := Decimal(n);
      assert s[..|s| - 1] == Decimal(n / 10);
    } else {
      var s := Decimal(n);
      assert |s| == 1 && s[..|s| - 1] == "" && Number("") == 0;
    }
  }

  // The three cursors.

  /** The position of the first colon, or the length. */
  function Colon(s: string): (k: nat)
    ensures k <= |s| && (k < |s| ==> s[k] == ':')
    ensures forall i :: 0 <= i < k ==> s[i] != ':'
  {
    if s == "" || s[0] == ':' then 0 else 1 + Colon(s[1..])
  }

  lemma ColonAfter(a: string, b: string)
    requires forall i :: 0 <= i < |a| ==> a[i] != ':'
    ensures Colon(a + ":" + b) == |a|
  {
    var s := a + ":" + b;
    assert s[|a|] == ':';
    assert forall i :: 0 <= i < |a| ==> s[i] == a[i];
  }

  function Open(value: string): Result<string, CursorError> {
    var raw := FromBase64(value);
    if raw.None? then Failure(InvalidCursor)
    else
      var text := Utf8.Decode(raw.value);
      if text.None? then Failure(InvalidCursor) else Success(text.value)
  }

  function Seal(text: string): string {
    ToBase64(Utf8.Encode(text))
  }

  lemma SealOpens(text: string)
    ensures Open(Seal(text)) == Success(text)
    ensures text != "" ==> Seal(text) != ""
  {
    Base64RoundTrip(Utf8.Encode(text));
    Utf8.DecodeEncode(text);
  }

  function EncodeCursor(offset: nat): string {
    Seal(Decimal(offset))
  }

  /** No cursor at all starts at the beginning. */
  function DecodeCursor(value: string): Result<nat, CursorError> {
    if value == "" then Success(0)
    else match Open(value)
      case Failure(e) => Failure(e)
      case Success(text) =>
        var offset := ParseNumber(text);
        if offset.None? then Failure(InvalidCursor) else Success(offset.value)
  }

  function EncodeReadCursor(line: nat, character: nat): string {
    Seal(Decimal(line) + ":" + Decimal(character))
  }

  function Pair(text: string): Result<(nat, nat), CursorError> {
    var k := Colon(text);
    if k == |text| then Failure(InvalidCursor)
    else
      var line, character := ParseNumber(text[..k]), ParseNumber(text[k + 1..]);
      if line.None? || character.None? then Failure(InvalidCursor) else Success((line.value, character.value))
  }

  function DecodeReadCursor(value: string): Result<(nat, nat), CursorError> {
    match Open(value)
    case Failure(e) => Failure(e)
    case Success(text) => Pair(text)
  }

  const SEARCH_VERSION := "search-v2"

  function EncodeSearchCursor(candidate: nat, line: nat): string {
    Seal(SEARCH_VERSION + ":" + (Decimal(candidate) + ":" + Decimal(line)))
  }

  function DecodeSearchCursor(value: string): Result<(nat, nat), CursorError> {
    if value == "" then Success((0, 0))
    else match Open(value)
      case Failure(e) => Failure(e)
      case Success(text) =>
        var k := Colon(text);
        if k == |text| || text[..k] != SEARCH_VERSION then Failure(InvalidCursor) else Pair(text[k + 1..])
  }

  lemma CursorRoundTrip(offset: nat)
    ensures DecodeCursor(EncodeCursor(offset)) == Success(offset)
  {
    DecimalRoundTrip(offset);
    DecimalDigits(offset);
    SealOpens(Decimal(offset));
  }

  lemma PairRoundTrip(a: nat, b: nat)
    ensures Pair(Decimal(a) + ":" + Decimal(b)) == Success((a, b))
  {
    DecimalRoundTrip(a);
    DecimalRoundTrip(b);
    DecimalDigits(a);
    ColonAfter(Decimal(a), Decimal(b));
    var text := Decimal(a) + ":" + Decimal(b);
    assert text[..|Decimal(a)|] == Decimal(a) && text[|Decimal(a)| + 1..] == Decimal(b);
  }

  lemma ReadCursorRoundTrip(line: nat, character: nat)
    ensures DecodeReadCursor(EncodeReadCursor(line, character)) == Success((line, character))
    ensures EncodeReadCursor(line, character) != ""
  {
    PairRoundTrip(line, character);
    SealOpens(Decimal(line) + ":" + Decimal(character));
  }

  lemma SearchCursorRoundTrip(candidate: nat, line: nat)
    ensures DecodeSearchCursor(EncodeSearchCursor(candidate, line)) == Success((candidate, line))
  {
    hide Decimal, Pair, Open, Seal, Colon;
    var pair := Decimal(candidate) + ":" + Decimal(line);
    PairRoundTrip(candidate, line);
    VersionSplits(pair);
    SealOpens(SEARCH_VERSION + ":" + pair);
  }

  lemma VersionSplits(pair: string)
    ensures var text := SEARCH_VERSION + ":" + pair;
      var k := Colon(text);
      k < |text| && text[..k] == SEARCH_VERSION && text[k + 1..] == pair
  {
    ColonAfter(SEARCH_VERSION, pair);
  }
}
