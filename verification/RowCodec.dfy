/**
  The row format (src/airgap_sync/common/row_codec.py): one row is a JSON array on one line, and
  values that JSON cannot express are objects with one tag (RFC 8259).
 */
module RowCodec {
  import opened Wrappers
  import opened Digest

  type Bytes = seq<byte>

  function Ascii(s: string): (r: Bytes)
    requires forall i :: 0 <= i < |s| ==> s[i] < 128 as char
    ensures |r| == |s| && forall i :: 0 <= i < |s| ==> r[i] == s[i] as byte
  {
    seq(|s|, i requires 0 <= i < |s| => s[i] as byte)
  }

  const QUOTE: byte := 34
  const COMMA: byte := 44
  const MINUS: byte := 45
  const DOT: byte := 46
  const ZERO: byte := 48
  const NINE: byte := 57
  const COLON: byte := 58
  const EQUALS: byte := 61
  const OPEN: byte := 91
  const BACKSLASH: byte := 92
  const CLOSE: byte := 93
  const BRACE: byte := 123
  const UNBRACE: byte := 125

  // --- Values ---

  // A text is its UTF-8 form. A finite float, a decimal, a date and a time are the texts that
  // Python prints for them; a duration is its length.
  datatype Value =
    | Null | Bool(b: bool) | Int(i: int) | Finite(repr: Bytes) | NaN | Infinite(negative: bool)
    | Text(utf8: Bytes) | Decimal(text: Bytes) | Binary(bytes: Bytes)
    | Date(iso: Bytes) | DateTime(iso: Bytes) | Time(iso: Bytes) | Duration(microseconds: int)
    | Nested(json: Json)

  datatype Json =
    | JNull | JBool(b: bool) | JInt(i: int) | JFloat(token: Bytes) | JNaN | JInfinite(negative: bool)
    | JString(utf8: Bytes) | JArray(items: seq<Json>) | JObject(members: seq<(Bytes, Json)>)

  // Parsers of Python's library: each gives the text that is printed for what it parsed, or fails.
  // float fails for a literal that is out of range; str prints a JSON value that is no string.
  datatype Library = Library(
    float: Bytes -> Option<Bytes>, decimal: Bytes -> Option<Bytes>, date: Bytes -> Option<Bytes>,
    dateTime: Bytes -> Option<Bytes>, time: Bytes -> Option<Bytes>, integer: Bytes -> Option<int>, str: Json -> Bytes)

  // --- Numbers ---

  predicate IsDigit(b: byte) {
    ZERO <= b <= NINE
  }

  function NatText(n: nat): (r: Bytes)
    ensures r != [] && (forall i :: 0 <= i < |r| ==> IsDigit(r[i])) && (r[0] == ZERO ==> n == 0 && |r| == 1)
  {
    if n < 10 then [48 + n as byte] else NatText(n / 10) + [48 + (n % 10) as byte]
  }

  function IntText(i: int): Bytes {
    if i < 0 then [MINUS] + NatText(-i) else NatText(i)
  }

  function NatValue(digits: Bytes): nat
    requires forall i :: 0 <= i < |digits| ==> IsDigit(digits[i])
  {
    if digits == [] then 0
    else
      var last := digits[|digits| - 1];
      assert IsDigit(last);
      NatValue(digits[..|digits| - 1]) * 10 + (last - ZERO) as nat
  }

  lemma {:induction false} NatRoundTrip(n: nat)
    ensures NatValue(NatText(n)) == n
  {
    if n >= 10 {
      NatRoundTrip(n / 10);
      assert NatText(n)[..|NatText(n)| - 1] == NatText(n / 10);
    } else {
      assert NatText(n)[..0] == [];
    }
  }

  // Where the digits that start at i end.
  function DigitsEnd(s: Bytes, i: nat): (n: nat)
    requires i <= |s|
    ensures i <= n <= |s| && (forall k :: i <= k < n ==> IsDigit(s[k])) && (n < |s| ==> !IsDigit(s[n]))
    decreases |s| - i
  {
    if i == |s| || !IsDigit(s[i]) then i else DigitsEnd(s, i + 1)
  }

  // After a leading 0 there are no more digits.
  function WholeEnd(s: Bytes, i: nat): (n: nat)
    requires i <= |s|
    ensures i <= n <= |s| && forall k :: i <= k < n ==> IsDigit(s[k])
  {
    if i < |s| && s[i] == ZERO then i + 1 else DigitsEnd(s, i)
  }

  function FractionEnd(s: Bytes, i: nat): (n: nat)
    requires i <= |s|
    ensures i <= n <= |s|
  {
    if i < |s| && s[i] == DOT && DigitsEnd(s, i + 1) > i + 1 then DigitsEnd(s, i + 1) else i
  }

  function ExponentEnd(s: Bytes, i: nat): (n: nat)
    requires i <= |s|
    ensures i <= n <= |s|
  {
    if i == |s| || s[i] !in {69, 101} then i
    else
      var k := if i + 1 < |s| && s[i + 1] in {43, MINUS} then i + 2 else i + 1;
      if DigitsEnd(s, k) > k then DigitsEnd(s, k) else i
  }

  function SignEnd(s: Bytes): nat {
    if s != [] && s[0] == MINUS then 1 else 0
  }

  datatype Parsed<T> = Parsed(value: T, rest: Bytes)

  function ParseNumber(s: Bytes): (r: Option<Parsed<Json>>)
    ensures r.Some? ==> |r.value.rest| < |s|
  {
    var sign := SignEnd(s);
    var whole := WholeEnd(s, sign);
    NumberOf(s, sign, whole, ExponentEnd(s, FractionEnd(s, whole)))
  }

  function NumberOf(s: Bytes, sign: nat, whole: nat, end: nat): (r: Option<Parsed<Json>>)
    requires sign <= whole <= end <= |s| && forall k :: sign <= k < whole ==> IsDigit(s[k])
    ensures r.Some? ==> |r.value.rest| < |s|
  {
    if whole == sign then None
    else if end > whole then Some(Parsed(JFloat(s[..end]), s[end..]))
    else
      var magnitude: int := NatValue(s[sign..whole]);
      Some(Parsed(JInt(if sign == 1 then -magnitude else magnitude), s[whole..]))
  }

  // What follows a value in an array.
  predicate Delimited(rest: Bytes) {
    rest != [] && rest[0] in {COMMA, CLOSE}
  }

  lemma {:induction false} DigitsStop(s: Bytes, rest: Bytes, i: nat)
    requires i <= |s| && Delimited(rest)
    ensures DigitsEnd(s + rest, i) == DigitsEnd(s, i)
    decreases |s| - i
  {
    if i < |s| {
      DigitsStop(s, rest, i + 1);
    } else {
      assert (s + rest)[i] == rest[0];
    }
  }

  lemma WholeStops(s: Bytes, rest: Bytes, i: nat)
    requires i <= |s| && Delimited(rest)
    ensures WholeEnd(s + rest, i) == WholeEnd(s, i)
  {
    DigitsStop(s, rest, i);
  }

  lemma FractionStops(s: Bytes, rest: Bytes, i: nat)
    requires i <= |s| && Delimited(rest)
    ensures FractionEnd(s + rest, i) == FractionEnd(s, i)
  {
    if i < |s| {
      DigitsStop(s, rest, i + 1);
    } else {
      assert (s + rest)[i] == rest[0];
    }
  }

  lemma ExponentStops(s: Bytes, rest: Bytes, i: nat)
    requires i <= |s| && Delimited(rest)
    ensures ExponentEnd(s + rest, i) == ExponentEnd(s, i)
  {
    if i < |s| {
      var k := if i + 1 < |s| && s[i + 1] in {43, MINUS} then i + 2 else i + 1;
      assert i + 1 == |s| ==> (s + rest)[i + 1] == rest[0];
      DigitsStop(s, rest, k);
    } else {
      assert (s + rest)[i] == rest[0];
    }
  }

  // A number ends where its literal ends.
  lemma NumberStops(s: Bytes, rest: Bytes)
    requires Delimited(rest) && ParseNumber(s).Some? && ParseNumber(s).value.rest == []
    ensures ParseNumber(s + rest) == Some(Parsed(ParseNumber(s).value.value, rest))
  {
    var sign := SignEnd(s);
    var whole := WholeEnd(s, sign);
    EndsStop(s, rest);
    NumberOfStops(s, rest, sign, whole, ExponentEnd(s, FractionEnd(s, whole)));
  }

  lemma NumberOfStops(s: Bytes, rest: Bytes, sign: nat, whole: nat, end: nat)
    requires sign <= whole <= end <= |s| && forall k :: sign <= k < whole ==> IsDigit(s[k])
    requires NumberOf(s, sign, whole, end).Some? && NumberOf(s, sign, whole, end).value.rest == []
    ensures NumberOf(s + rest, sign, whole, end) == Some(Parsed(NumberOf(s, sign, whole, end).value.value, rest))
  {
    assert (s + rest)[..|s|] == s && s[..|s|] == s && (s + rest)[|s|..] == rest;
    assert (s + rest)[sign..whole] == s[sign..whole];
  }

  lemma EndsStop(s: Bytes, rest: Bytes)
    requires Delimited(rest) && ParseNumber(s).Some?
    ensures var sign, whole := SignEnd(s), WholeEnd(s, SignEnd(s));
            && SignEnd(s + rest) == sign && WholeEnd(s + rest, sign) == whole
            && ExponentEnd(s + rest, FractionEnd(s + rest, whole)) == ExponentEnd(s, FractionEnd(s, whole))
  {
    var sign := SignEnd(s);
    var whole := WholeEnd(s, sign);
    WholeStops(s, rest, sign);
    FractionStops(s, rest, whole);
    ExponentStops(s, rest, FractionEnd(s, whole));
  }

  lemma {:induction false} AllDigits(s: Bytes, i: nat)
    requires i <= |s| && forall k :: i <= k < |s| ==> IsDigit(s[k])
    ensures DigitsEnd(s, i) == |s|
    decreases |s| - i
  {
    if i < |s| {
      AllDigits(s, i + 1);
    }
  }

  lemma IntParses(i: int)
    ensures ParseNumber(IntText(i)) == Some(Parsed(JInt(i), []))
  {
    var digits, sign, s := NatText(if i < 0 then -i else i), if i < 0 then 1 else 0, IntText(i);
    AllDigits(s, sign);
    NatRoundTrip(if i < 0 then -i else i);
    assert s[sign..|s|] == digits && s[|s|..] == [];
    assert WholeEnd(s, sign) == |s|;
  }

  // --- Strings ---

  const LETTER_U: byte := 117

  function HexDigit(n: nat): byte
    requires n < 16
  {
    if n < 10 then (48 + n) as byte else (87 + n) as byte
  }

  function HexValue(b: byte): Option<nat> {
    if IsDigit(b) then Some((b - 48) as nat)
    else if 97 <= b <= 102 then Some((b - 87) as nat)
    else if 65 <= b <= 70 then Some((b - 55) as nat)
    else None
  }

  // Quotes, backslashes and control characters are escaped, all else is written as it is.
  function EscapeByte(b: byte): (r: Bytes)
    ensures r != [] && forall i :: 0 <= i < |r| ==> r[i] >= 32
  {
    match b
    case 34 => [BACKSLASH, 34]
    case 92 => [BACKSLASH, 92]
    case 10 => [BACKSLASH, 110]
    case 13 => [BACKSLASH, 114]
    case 9 => [BACKSLASH, 116]
    case 12 => [BACKSLASH, 102]
    case 8 => [BACKSLASH, 98]
    case _ => if b < 32 then [BACKSLASH, LETTER_U, ZERO, ZERO, HexDigit(b as nat / 16), HexDigit(b as nat % 16)] else [b]
  }

  function Escape(s: Bytes): (r: Bytes)
    ensures forall i :: 0 <= i < |r| ==> r[i] >= 32
  {
    if s == [] then [] else EscapeByte(s[0]) + Escape(s[1..])
  }

  function Quoted(s: Bytes): Bytes {
    [QUOTE] + Escape(s) + [QUOTE]
  }

  function Hex4(s: Bytes): Option<nat> {
    if |s| < 4 then None
    else
      var a, b, c, d := HexValue(s[0]), HexValue(s[1]), HexValue(s[2]), HexValue(s[3]);
      if a.None? || b.None? || c.None? || d.None? then None
      else Some(a.value * 4096 + b.value * 256 + c.value * 16 + d.value)
  }

  function Utf8(c: nat): Bytes
    requires c < 0x110000
  {
    if c < 0x80 then [c as byte]
    else if c < 0x800 then [(0xC0 + c / 0x40) as byte, (0x80 + c % 0x40) as byte]
    else if c < 0x10000 then [(0xE0 + c / 0x1000) as byte, (0x80 + c / 0x40 % 0x40) as byte, (0x80 + c % 0x40) as byte]
    else [(0xF0 + c / 0x40000) as byte, (0x80 + c / 0x1000 % 0x40) as byte, (0x80 + c / 0x40 % 0x40) as byte, (0x80 + c % 0x40) as byte]
  }

  function Unescape(b: byte): Option<byte> {
    match b
    case 34 => Some(34)
    case 92 => Some(92)
    case 47 => Some(47)
    case 98 => Some(8)
    case 102 => Some(12)
    case 110 => Some(10)
    case 114 => Some(13)
    case 116 => Some(9)
    case _ => None
  }

  function Prepend(prefix: Bytes, r: Option<Parsed<Bytes>>): Option<Parsed<Bytes>> {
    if r.None? then None else Some(Parsed(prefix + r.value.value, r.value.rest))
  }

  // The second half of a character that is escaped as two surrogates.
  function LowSurrogate(s: Bytes): Option<nat> {
    if |s| < 6 || s[0] != BACKSLASH || s[1] != LETTER_U then None
    else
      var c := Hex4(s[2..]);
      if c.Some? && 0xDC00 <= c.value < 0xE000 then c else None
  }

  // The rest of a string, after its opening quote.
  function ParseString(s: Bytes): (r: Option<Parsed<Bytes>>)
    ensures r.Some? ==> |r.value.rest| < |s|
  {
    if s == [] || s[0] < 32 then None
    else if s[0] == QUOTE then Some(Parsed([], s[1..]))
    else if s[0] != BACKSLASH then Prepend([s[0]], ParseString(s[1..]))
    else if |s| == 1 then None
    else if s[1] == LETTER_U then
      var c := Hex4(s[2..]);
      if c.None? then None
      else
        var low := if 0xD800 <= c.value < 0xDC00 then LowSurrogate(s[6..]) else None;
        if low.Some? then
          Prepend(Utf8(0x10000 + (c.value - 0xD800) * 0x400 + (low.value - 0xDC00)), ParseString(s[12..]))
        else Prepend(Utf8(c.value % 0x10000), ParseString(s[6..]))
    else
      var b := Unescape(s[1]);
      if b.None? then None else Prepend([b.value], ParseString(s[2..]))
  }

  lemma HexDigitValue(n: nat)
    requires n < 16
    ensures HexValue(HexDigit(n)) == Some(n)
  {
  }

  lemma ControlParses(b: byte, s: Bytes)
    requires b < 32
    ensures ParseString([BACKSLASH, LETTER_U, ZERO, ZERO, HexDigit(b as nat / 16), HexDigit(b as nat % 16)] + s) == Prepend([b], ParseString(s))
  {
    var e := [BACKSLASH, LETTER_U, ZERO, ZERO, HexDigit(b as nat / 16), HexDigit(b as nat % 16)];
    HexDigitValue(b as nat / 16);
    HexDigitValue(b as nat % 16);
    assert (e + s)[2..][..4] == e[2..];
    assert Hex4((e + s)[2..]) == Some(b as nat);
    assert (e + s)[6..] == s;
  }

  lemma EscapeParses(letter: byte, b: byte, s: Bytes)
    requires letter != LETTER_U && Unescape(letter) == Some(b)
    ensures ParseString([BACKSLASH, letter] + s) == Prepend([b], ParseString(s))
  {
    assert ([BACKSLASH, letter] + s)[2..] == s;
  }

  lemma PlainParses(b: byte, s: Bytes)
    requires b >= 32 && b != QUOTE && b != BACKSLASH
    ensures ParseString([b] + s) == Prepend([b], ParseString(s))
  {
    assert ([b] + s)[1..] == s;
  }

  lemma ByteParses(b: byte, s: Bytes)
    ensures ParseString(EscapeByte(b) + s) == Prepend([b], ParseString(s))
  {
    if b in {34, 92, 10, 13, 9, 12, 8} {
      EscapeParses(EscapeByte(b)[1], b, s);
    } else if b < 32 {
      ControlParses(b, s);
    } else {
      PlainParses(b, s);
    }
  }

  lemma {:induction false} StringParses(t: Bytes, rest: Bytes)
    ensures ParseString(Escape(t) + [QUOTE] + rest) == Some(Parsed(t, rest))
  {
    if t == [] {
      QuoteEnds(rest);
      assert Escape(t) + [QUOTE] + rest == [QUOTE] + rest;
    } else {
      StringParses(t[1..], rest);
      ByteParses(t[0], Escape(t[1..]) + [QUOTE] + rest);
      EscapeSplits(t, rest);
      assert [t[0]] + t[1..] == t;
    }
  }

  lemma QuoteEnds(rest: Bytes)
    ensures ParseString([QUOTE] + rest) == Some(Parsed([], rest))
  {
    assert ([QUOTE] + rest)[1..] == rest;
  }

  lemma EscapeSplits(t: Bytes, rest: Bytes)
    requires t != []
    ensures Escape(t) + [QUOTE] + rest == EscapeByte(t[0]) + (Escape(t[1..]) + [QUOTE] + rest)
  {
  }

  // --- Base64 (RFC 4648, section 4) ---

  function Letter(n: nat): (b: byte)
    requires n < 64
    ensures b >= 43 && b != EQUALS
  {
    if n < 26 then (65 + n) as byte
    else if n < 52 then (71 + n) as byte
    else if n < 62 then (n - 4) as byte
    else if n == 62 then 43
    else 47
  }

  function Sextet(b: byte): (r: Option<nat>)
    ensures r.Some? ==> r.value < 64
  {
    if 65 <= b <= 90 then Some((b - 65) as nat)
    else if 97 <= b <= 122 then Some((b - 71) as nat)
    else if IsDigit(b) then Some((b + 4) as nat)
    else if b == 43 then Some(62)
    else if b == 47 then Some(63)
    else None
  }

  function ToBase64(s: Bytes): (r: Bytes)
    ensures forall i :: 0 <= i < |r| ==> r[i] >= 43
  {
    match |s|
    case 0 => []
    case 1 => var g := Group(s[0], 0, 0); [g[0], g[1], EQUALS, EQUALS]
    case 2 => var g := Group(s[0], s[1], 0); [g[0], g[1], g[2], EQUALS]
    case _ => Group(s[0], s[1], s[2]) + ToBase64(s[3..])
  }

  function Group(a: byte, b: byte, c: byte): (r: Bytes)
    ensures |r| == 4 && forall i :: 0 <= i < 4 ==> r[i] >= 43 && r[i] != EQUALS
  {
    var x, y, z := a as nat, b as nat, c as nat;
    [Letter(x / 4), Letter(x % 4 * 16 + y / 16), Letter(y % 16 * 4 + z / 64), Letter(z % 64)]
  }

  // Four letters stand for three bytes; in the last group padding stands for what is missing.
  function DecodeGroup(g: Bytes, last: bool): Option<Bytes>
    requires |g| == 4
  {
    var a, b, c, d := Sextet(g[0]), Sextet(g[1]), Sextet(g[2]), Sextet(g[3]);
    if a.None? || b.None? then None
    else
      var x := (a.value * 4 + b.value / 16) as byte;
      if last && g[2] == EQUALS && g[3] == EQUALS then Some([x])
      else if c.None? then None
      else
        var y := (b.value % 16 * 16 + c.value / 4) as byte;
        if last && g[3] == EQUALS then Some([x, y])
        else if d.None? then None
        else Some([x, y, (c.value % 4 * 64 + d.value) as byte])
  }

  function FromBase64(t: Bytes): Option<Bytes> {
    if t == [] then Some([])
    else if |t| < 4 then None
    else
      var first := DecodeGroup(t[..4], |t| == 4);
      var rest := FromBase64(t[4..]);
      if first.None? || rest.None? then None else Some(first.value + rest.value)
  }

  lemma LetterSextet(n: nat)
    requires n < 64
    ensures Sextet(Letter(n)) == Some(n)
  {
  }

  lemma GroupSextets(a: byte, b: byte, c: byte)
    ensures var g := Group(a, b, c);
            var p, q, r, s := Sextet(g[0]), Sextet(g[1]), Sextet(g[2]), Sextet(g[3]);
            && p.Some? && q.Some? && r.Some? && s.Some?
            && p.value * 4 + q.value / 16 == a as nat
            && q.value % 16 * 16 + r.value / 4 == b as nat
            && r.value % 4 * 64 + s.value == c as nat
  {
    var x, y, z := a as nat, b as nat, c as nat;
    LetterSextet(x / 4);
    LetterSextet(x % 4 * 16 + y / 16);
    LetterSextet(y % 16 * 4 + z / 64);
    LetterSextet(z % 64);
  }

  lemma GroupDecodes(a: byte, b: byte, c: byte, last: bool)
    ensures DecodeGroup(Group(a, b, c), last) == Some([a, b, c])
  {
    GroupSextets(a, b, c);
    var g := Group(a, b, c);
    assert g[2] != EQUALS && g[3] != EQUALS;
  }

  lemma OneDecodes(a: byte)
    ensures DecodeGroup(ToBase64([a]), true) == Some([a])
  {
    GroupSextets(a, 0, 0);
  }

  lemma TwoDecode(a: byte, b: byte)
    ensures DecodeGroup(ToBase64([a, b]), true) == Some([a, b])
  {
    GroupSextets(a, b, 0);
    assert Group(a, b, 0)[2] != EQUALS;
  }

  lemma OnlyGroup(t: Bytes)
    requires |t| == 4
    ensures FromBase64(t) == DecodeGroup(t, true)
  {
    assert t[..4] == t && t[4..] == [];
    var first := DecodeGroup(t, true);
    assert first.Some? ==> first.value + [] == first.value;
  }

  lemma MoreGroups(g: Bytes, t: Bytes, x: Bytes, y: Bytes)
    requires |g| == 4 && DecodeGroup(g, t == []) == Some(x) && FromBase64(t) == Some(y)
    ensures FromBase64(g + t) == Some(x + y)
  {
    assert (g + t)[..4] == g && (g + t)[4..] == t;
  }

  lemma GroupJoins(a: byte, b: byte, c: byte, t: Bytes, y: Bytes)
    requires FromBase64(t) == Some(y)
    ensures FromBase64(Group(a, b, c) + t) == Some([a, b, c] + y)
  {
    GroupDecodes(a, b, c, t == []);
    MoreGroups(Group(a, b, c), t, [a, b, c], y);
  }

  lemma {:induction false} Base64RoundTrip(s: Bytes)
    ensures FromBase64(ToBase64(s)) == Some(s)
  {
    if |s| == 1 {
      assert s == [s[0]];
      OneDecodes(s[0]);
      OnlyGroup(ToBase64(s));
    } else if |s| == 2 {
      assert s == [s[0], s[1]];
      TwoDecode(s[0], s[1]);
      OnlyGroup(ToBase64(s));
    } else if s != [] {
      Base64RoundTrip(s[3..]);
      GroupJoins(s[0], s[1], s[2], ToBase64(s[3..]), s[3..]);
      assert s == [s[0], s[1], s[2]] + s[3..];
    }
  }

  // --- JSON ---

  predicate IsSpace(b: byte) {
    b in {9, 10, 13, 32}
  }

  function SkipSpace(s: Bytes): (r: Bytes)
    ensures |r| <= |s| && (r != [] ==> !IsSpace(r[0]))
  {
    if s != [] && IsSpace(s[0]) then SkipSpace(s[1..]) else s
  }

  predicate StartsWith(s: Bytes, word: string)
    requires forall i :: 0 <= i < |word| ==> word[i] < 128 as char
  {
    Ascii(word) <= s
  }

  function ParseValue(s: Bytes): (r: Option<Parsed<Json>>)
    ensures r.Some? ==> |r.value.rest| < |s|
    decreases |s|, 0
  {
    if s == [] then None
    else if s[0] == QUOTE then
      var t := ParseString(s[1..]);
      if t.None? then None else Some(Parsed(JString(t.value.value), t.value.rest))
    else if s[0] == BRACE then
      var t := SkipSpace(s[1..]);
      if t != [] && t[0] == UNBRACE then Some(Parsed(JObject([]), t[1..]))
      else
        var members := ParseMembers(t);
        if members.None? then None else Some(Parsed(JObject(members.value.value), members.value.rest))
    else if s[0] == OPEN then
      var t := SkipSpace(s[1..]);
      if t != [] && t[0] == CLOSE then Some(Parsed(JArray([]), t[1..]))
      else
        var items := ParseItems(t);
        if items.None? then None else Some(Parsed(JArray(items.value.value), items.value.rest))
    else if StartsWith(s, "null") then Some(Parsed(JNull, s[4..]))
    else if StartsWith(s, "true") then Some(Parsed(JBool(true), s[4..]))
    else if StartsWith(s, "false") then Some(Parsed(JBool(false), s[5..]))
    else if ParseNumber(s).Some? then ParseNumber(s)
    else if StartsWith(s, "NaN") then Some(Parsed(JNaN, s[3..]))
    else if StartsWith(s, "Infinity") then Some(Parsed(JInfinite(false), s[8..]))
    else if StartsWith(s, "-Infinity") then Some(Parsed(JInfinite(true), s[9..]))
    else None
  }

  // The items of an array up to its closing bracket; there is at least one.
  function ParseItems(s: Bytes): (r: Option<Parsed<seq<Json>>>)
    ensures r.Some? ==> |r.value.rest| < |s|
    decreases |s|, 1
  {
    var item := ParseValue(s);
    if item.None? then None
    else
      var t := SkipSpace(item.value.rest);
      if t == [] then None
      else if t[0] == CLOSE then Some(Parsed([item.value.value], t[1..]))
      else if t[0] != COMMA then None
      else
        var rest := ParseItems(SkipSpace(t[1..]));
        if rest.None? then None else Some(Parsed([item.value.value] + rest.value.value, rest.value.rest))
  }

  // The members of an object up to its closing brace; there is at least one.
  function ParseMembers(s: Bytes): (r: Option<Parsed<seq<(Bytes, Json)>>>)
    ensures r.Some? ==> |r.value.rest| < |s|
    decreases |s|, 1
  {
    if s == [] || s[0] != QUOTE then None
    else
      var key := ParseString(s[1..]);
      if key.None? then None
      else
        var t := SkipSpace(key.value.rest);
        if t == [] || t[0] != COLON then None
        else
          var item := ParseValue(SkipSpace(t[1..]));
          if item.None? then None
          else
            var u := SkipSpace(item.value.rest);
            var member := (key.value.value, item.value.value);
            if u == [] then None
            else if u[0] == UNBRACE then Some(Parsed([member], u[1..]))
            else if u[0] != COMMA then None
            else
              var rest := ParseMembers(SkipSpace(u[1..]));
              if rest.None? then None else Some(Parsed([member] + rest.value.value, rest.value.rest))
  }

  // --- Encoding ---

  datatype CodecError =
    INVALID_JSON | NOT_AN_ARRAY | NOT_ONE_KEY | UNKNOWN_TAG | INVALID_PAYLOAD | UNSUPPORTED_TYPE

  const TAG_BYTES := "$bytes"
  const TAG_DECIMAL := "$decimal"
  const TAG_FLOAT := "$float"
  const TAG_DATE := "$date"
  const TAG_DATETIME := "$datetime"
  const TAG_TIME := "$time"
  const TAG_TIMEDELTA := "$timedelta"

  const SECOND: int := 1000000
  const DAY: int := 86400 * SECOND
  const LAST_DAY: int := 999999999

  // Days may be negative; seconds and microseconds are not.
  function DurationText(microseconds: int): Bytes {
    IntText(microseconds / DAY) + [COLON] + IntText(microseconds % DAY / SECOND) + [COLON] + IntText(microseconds % SECOND)
  }

  datatype Tag = Tag(name: string, payload: Bytes)

  // Values without a JSON form of their own are tagged texts.
  function TagOf(v: Value): (r: Option<Tag>)
    ensures r.Some? ==> forall i :: 0 <= i < |r.value.name| ==> r.value.name[i] < 128 as char
  {
    match v
    case NaN => Some(Tag(TAG_FLOAT, Ascii("nan")))
    case Infinite(negative) => Some(Tag(TAG_FLOAT, if negative then Ascii("-inf") else Ascii("inf")))
    case Decimal(t) => Some(Tag(TAG_DECIMAL, t))
    case Binary(b) => Some(Tag(TAG_BYTES, ToBase64(b)))
    case DateTime(t) => Some(Tag(TAG_DATETIME, t))
    case Date(t) => Some(Tag(TAG_DATE, t))
    case Time(t) => Some(Tag(TAG_TIME, t))
    case Duration(us) => Some(Tag(TAG_TIMEDELTA, DurationText(us)))
    case _ => None
  }

  // The JSON form of a value; None for a type that is not supported.
  function ToJson(v: Value): Option<Json> {
    match v
    case Null => Some(JNull)
    case Bool(b) => Some(JBool(b))
    case Int(i) => Some(JInt(i))
    case Text(t) => Some(JString(t))
    case Finite(repr) => Some(JFloat(repr))
    case Nested(_) => None
    case _ => if TagOf(v).Some? then Some(Tagged(TagOf(v).value.name, TagOf(v).value.payload)) else None
  }

  function Tagged(tag: string, payload: Bytes): Json
    requires forall i :: 0 <= i < |tag| ==> tag[i] < 128 as char
  {
    JObject([(Ascii(tag), JString(payload))])
  }

  // What ToJson gives is printed on one line, without spaces.
  function Print(j: Json): Bytes {
    match j
    case JNull => Ascii("null")
    case JBool(b) => if b then Ascii("true") else Ascii("false")
    case JInt(i) => IntText(i)
    case JFloat(token) => token
    case JString(t) => Quoted(t)
    case JObject(members) =>
      if |members| == 1 && members[0].1.JString?
      then [BRACE] + Quoted(members[0].0) + [COLON] + Quoted(members[0].1.utf8) + [UNBRACE]
      else []
    case _ => []
  }

  function PrintItems(items: seq<Json>): Bytes {
    if items == [] then []
    else if |items| == 1 then Print(items[0])
    else Print(items[0]) + [COMMA] + PrintItems(items[1..])
  }

  function AllToJson(values: seq<Value>): Option<seq<Json>> {
    if values == [] then Some([])
    else
      var first, rest := ToJson(values[0]), AllToJson(values[1..]);
      if first.None? || rest.None? then None else Some([first.value] + rest.value)
  }

  function EncodeRow(values: seq<Value>): Result<Bytes, CodecError> {
    var items := AllToJson(values);
    if items.None? then Err(UNSUPPORTED_TYPE) else Ok([OPEN] + PrintItems(items.value) + [CLOSE])
  }

  // --- Decoding ---

  function Split(s: Bytes, separator: byte): (r: seq<Bytes>)
    ensures r != []
  {
    if s == [] then [[]]
    else
      var rest := Split(s[1..], separator);
      if s[0] == separator then [[]] + rest else [[s[0]] + rest[0]] + rest[1..]
  }

  function ParseDuration(lib: Library, t: Bytes): Option<Value> {
    var parts := Split(t, COLON);
    if |parts| != 3 then None
    else
      var d, s, us := lib.integer(parts[0]), lib.integer(parts[1]), lib.integer(parts[2]);
      if d.None? || s.None? || us.None? then None
      else
        var total := d.value * DAY + s.value * SECOND + us.value;
        if -LAST_DAY <= total / DAY <= LAST_DAY then Some(Duration(total)) else None
  }

  function Construct<T>(parsed: Option<T>, make: T -> Value): Result<Value, CodecError> {
    if parsed.None? then Err(INVALID_PAYLOAD) else Ok(make(parsed.value))
  }

  function DecodeTagged(lib: Library, tag: Bytes, raw: Json): Result<Value, CodecError> {
    var text := if raw.JString? then raw.utf8 else lib.str(raw);
    if tag == Ascii(TAG_BYTES) then Construct(FromBase64(text), b => Binary(b))
    else if tag == Ascii(TAG_DECIMAL) then Construct(lib.decimal(text), t => Decimal(t))
    else if tag == Ascii(TAG_FLOAT) then
      if raw == JString(Ascii("inf")) then Ok(Infinite(false))
      else if raw == JString(Ascii("-inf")) then Ok(Infinite(true))
      else if raw == JString(Ascii("nan")) then Ok(NaN)
      else Err(INVALID_PAYLOAD)
    else if tag == Ascii(TAG_DATETIME) then Construct(lib.dateTime(text), t => DateTime(t))
    else if tag == Ascii(TAG_DATE) then Construct(lib.date(text), t => Date(t))
    else if tag == Ascii(TAG_TIME) then Construct(lib.time(text), t => Time(t))
    else if tag == Ascii(TAG_TIMEDELTA) then Construct(ParseDuration(lib, text), v => v)
    else Err(UNKNOWN_TAG)
  }

  // A repeated key counts once, with its last value.
  function FromJson(lib: Library, j: Json): Result<Value, CodecError> {
    match j
    case JNull => Ok(Null)
    case JBool(b) => Ok(Bool(b))
    case JInt(i) => Ok(Int(i))
    case JFloat(token) =>
      var repr := lib.float(token);
      Ok(if repr.Some? then Finite(repr.value) else Infinite(token != [] && token[0] == MINUS))
    case JNaN => Ok(NaN)
    case JInfinite(negative) => Ok(Infinite(negative))
    case JString(t) => Ok(Text(t))
    case JArray(_) => Ok(Nested(j))
    case JObject(members) =>
      if members == [] || exists i :: 0 <= i < |members| && members[i].0 != members[0].0 then Err(NOT_ONE_KEY)
      else DecodeTagged(lib, members[0].0, members[|members| - 1].1)
  }

  function AllFromJson(lib: Library, items: seq<Json>): Result<seq<Value>, CodecError> {
    if items == [] then Ok([])
    else
      var first := FromJson(lib, items[0]);
      if first.Err? then Err(first.error)
      else
        var rest := AllFromJson(lib, items[1..]);
        if rest.Err? then rest else Ok([first.value] + rest.value)
  }

  function DecodeRow(lib: Library, data: Bytes): Result<seq<Value>, CodecError> {
    var parsed := ParseValue(SkipSpace(data));
    if parsed.None? || SkipSpace(parsed.value.rest) != [] then Err(INVALID_JSON)
    else if !parsed.value.value.JArray? then Err(NOT_AN_ARRAY)
    else AllFromJson(lib, parsed.value.value.items)
  }

  // --- Round trip ---

  // The library's parsers read back what its printers print.
  ghost predicate ReadsBack(lib: Library) {
    forall i :: lib.integer(IntText(i)) == Some(i)
  }

  // A value as the database driver returns it.
  predicate Supported(lib: Library, v: Value) {
    match v
    case Finite(repr) => lib.float(repr) == Some(repr) && ParseNumber(repr) == Some(Parsed(JFloat(repr), []))
    case Decimal(t) => lib.decimal(t) == Some(t)
    case Date(t) => lib.date(t) == Some(t)
    case DateTime(t) => lib.dateTime(t) == Some(t)
    case Time(t) => lib.time(t) == Some(t)
    case Duration(us) => -LAST_DAY <= us / DAY <= LAST_DAY
    case Nested(_) => false
    case _ => true
  }

  lemma WordParses(word: string, rest: Bytes)
    requires word in {"null", "true", "false"}
    ensures ParseValue(Ascii(word) + rest)
         == Some(Parsed(if word == "null" then JNull else JBool(word == "true"), rest))
  {
    var s := Ascii(word) + rest;
    assert s[0] == Ascii(word)[0] == word[0] as byte;
    assert Ascii(word) <= s && s[|word|..] == rest;
    assert word != "null" ==> s[0] != Ascii("null")[0];
    assert word == "false" ==> s[0] != Ascii("true")[0];
  }

  lemma StartsNot(s: Bytes, word: string)
    requires word != "" && forall i :: 0 <= i < |word| ==> word[i] < 128 as char
    requires s != [] && s[0] != word[0] as byte
    ensures !StartsWith(s, word)
  {
  }

  // A byte that begins a number, and nothing else.
  lemma NumberStart(s: Bytes)
    requires ParseNumber(s).Some?
    ensures s != [] && (IsDigit(s[0]) || s[0] == MINUS)
  {
  }

  lemma NumberIsValue(s: Bytes)
    requires ParseNumber(s).Some?
    ensures ParseValue(s) == ParseNumber(s)
  {
    NumberStart(s);
    StartsNot(s, "null");
    StartsNot(s, "true");
    StartsNot(s, "false");
  }

  lemma NumberParses(token: Bytes, rest: Bytes)
    requires Delimited(rest) && ParseNumber(token).Some? && ParseNumber(token).value.rest == []
    ensures ParseValue(token + rest) == Some(Parsed(ParseNumber(token).value.value, rest))
  {
    NumberStops(token, rest);
    NumberIsValue(token + rest);
  }

  lemma QuotedParses(t: Bytes, rest: Bytes)
    ensures ParseValue(Quoted(t) + rest) == Some(Parsed(JString(t), rest))
    ensures ParseString((Quoted(t) + rest)[1..]) == Some(Parsed(t, rest))
  {
    assert (Quoted(t) + rest)[1..] == Escape(t) + [QUOTE] + rest;
    StringParses(t, rest);
  }

  lemma MemberParses(key: Bytes, payload: Bytes, rest: Bytes)
    ensures ParseMembers(Quoted(key) + ([COLON] + (Quoted(payload) + ([UNBRACE] + rest))))
         == Some(Parsed([(key, JString(payload))], rest))
  {
    var afterPayload := [UNBRACE] + rest;
    var afterColon := Quoted(payload) + afterPayload;
    var afterKey := [COLON] + afterColon;
    var s := Quoted(key) + afterKey;
    QuotedParses(key, afterKey);
    QuotedParses(payload, afterPayload);
    assert afterKey[1..] == afterColon && afterPayload[1..] == rest;
    assert SkipSpace(afterKey) == afterKey && SkipSpace(afterColon) == afterColon && SkipSpace(afterPayload) == afterPayload;
    assert ParseValue(afterColon) == Some(Parsed(JString(payload), afterPayload));
  }

  lemma ObjectParses(s: Bytes)
    requires s != [] && s[0] == QUOTE && ParseMembers(s).Some?
    ensures ParseValue([BRACE] + s) == Some(Parsed(JObject(ParseMembers(s).value.value), ParseMembers(s).value.rest))
  {
    assert ([BRACE] + s)[1..] == s && SkipSpace(s) == s;
  }

  lemma PrintedTag(tag: string, payload: Bytes, rest: Bytes)
    requires forall i :: 0 <= i < |tag| ==> tag[i] < 128 as char
    ensures Print(Tagged(tag, payload)) + rest
         == [BRACE] + (Quoted(Ascii(tag)) + ([COLON] + (Quoted(payload) + ([UNBRACE] + rest))))
    ensures Print(Tagged(tag, payload)) != [] && Print(Tagged(tag, payload))[0] == BRACE
  {
    Regroup(Quoted(Ascii(tag)), Quoted(payload), rest);
  }

  lemma Regroup(key: Bytes, value: Bytes, rest: Bytes)
    ensures [BRACE] + key + [COLON] + value + [UNBRACE] + rest == [BRACE] + (key + ([COLON] + (value + ([UNBRACE] + rest))))
  {
  }

  lemma TaggedParses(tag: string, payload: Bytes, rest: Bytes)
    requires forall i :: 0 <= i < |tag| ==> tag[i] < 128 as char
    ensures ParseValue(Print(Tagged(tag, payload)) + rest) == Some(Parsed(Tagged(tag, payload), rest))
  {
    PrintedTag(tag, payload, rest);
    MemberParses(Ascii(tag), payload, rest);
    ObjectParses(Quoted(Ascii(tag)) + ([COLON] + (Quoted(payload) + ([UNBRACE] + rest))));
  }

  lemma ValueParses(lib: Library, v: Value, rest: Bytes)
    requires Supported(lib, v) && Delimited(rest)
    ensures ToJson(v).Some? && ParseValue(Print(ToJson(v).value) + rest) == Some(Parsed(ToJson(v).value, rest))
  {
    if TagOf(v).Some? {
      TaggedParses(TagOf(v).value.name, TagOf(v).value.payload, rest);
    } else if v.Int? {
      IntParses(v.i);
      NumberParses(IntText(v.i), rest);
    } else if v.Finite? {
      NumberParses(v.repr, rest);
    } else if v.Text? {
      QuotedParses(v.utf8, rest);
    } else if v.Null? {
      WordParses("null", rest);
    } else {
      WordParses(if v.b then "true" else "false", rest);
    }
  }

  lemma ValueStarts(lib: Library, v: Value)
    requires Supported(lib, v)
    ensures ToJson(v).Some? && Print(ToJson(v).value) != [] && !IsSpace(Print(ToJson(v).value)[0])
  {
    if TagOf(v).Some? {
      TagStarts(lib, v);
    } else if v.Finite? {
      NumberStart(v.repr);
    } else if v.Int? {
      IntParses(v.i);
      NumberStart(IntText(v.i));
    }
  }

  lemma TagStarts(lib: Library, v: Value)
    requires Supported(lib, v) && TagOf(v).Some?
    ensures ToJson(v).Some? && Print(ToJson(v).value) != [] && Print(ToJson(v).value)[0] == BRACE
  {
    PrintedTag(TagOf(v).value.name, TagOf(v).value.payload, []);
  }

  predicate AllSupported(lib: Library, values: seq<Value>) {
    forall i :: 0 <= i < |values| ==> Supported(lib, values[i])
  }

  lemma {:induction false} AllToJsonWorks(lib: Library, values: seq<Value>)
    requires AllSupported(lib, values)
    ensures AllToJson(values).Some? && |AllToJson(values).value| == |values|
  {
    if values != [] {
      assert Supported(lib, values[0]);
      ValueStarts(lib, values[0]);
      AllToJsonWorks(lib, values[1..]);
    }
  }

  lemma LastItemParses(s: Bytes, j: Json)
    requires ParseValue(s) == Some(Parsed(j, [CLOSE]))
    ensures ParseItems(s) == Some(Parsed([j], []))
  {
    assert SkipSpace([CLOSE]) == [CLOSE];
  }

  lemma NextItemParses(s: Bytes, j: Json, rest: Bytes, items: seq<Json>)
    requires ParseValue(s) == Some(Parsed(j, [COMMA] + rest))
    requires rest != [] && !IsSpace(rest[0]) && ParseItems(rest) == Some(Parsed(items, []))
    ensures ParseItems(s) == Some(Parsed([j] + items, []))
  {
    assert SkipSpace([COMMA] + rest) == [COMMA] + rest && ([COMMA] + rest)[1..] == rest && SkipSpace(rest) == rest;
  }

  lemma PrintedItems(j: Json, items: seq<Json>)
    requires items != []
    ensures PrintItems([j] + items) + [CLOSE] == Print(j) + ([COMMA] + (PrintItems(items) + [CLOSE]))
  {
    assert ([j] + items)[1..] == items;
  }

  // What is printed for the items is not empty, begins with no space, and is read as the items.
  ghost predicate Readable(items: seq<Json>) {
    && PrintItems(items) != [] && !IsSpace(PrintItems(items)[0])
    && ParseItems(PrintItems(items) + [CLOSE]) == Some(Parsed(items, []))
  }

  lemma OneItemReadable(lib: Library, v: Value)
    requires Supported(lib, v)
    ensures ToJson(v).Some? && Readable([ToJson(v).value])
  {
    ValueStarts(lib, v);
    ValueParses(lib, v, [CLOSE]);
    LastItemParses(Print(ToJson(v).value) + [CLOSE], ToJson(v).value);
  }

  lemma MoreItemsReadable(lib: Library, v: Value, more: seq<Json>)
    requires Supported(lib, v) && more != [] && Readable(more)
    ensures ToJson(v).Some? && Readable([ToJson(v).value] + more)
  {
    ValueStarts(lib, v);
    var j, rest := ToJson(v).value, PrintItems(more) + [CLOSE];
    ValueParses(lib, v, [COMMA] + rest);
    NextItemParses(Print(j) + ([COMMA] + rest), j, rest, more);
    PrintedItems(j, more);
    StartsAlike(j, more);
  }

  lemma StartsAlike(j: Json, items: seq<Json>)
    requires Print(j) != [] && items != []
    ensures PrintItems([j] + items) != [] && PrintItems([j] + items)[0] == Print(j)[0]
  {
  }

  lemma {:induction false} ItemsParse(lib: Library, values: seq<Value>, items: seq<Json>)
    requires AllSupported(lib, values) && values != [] && AllToJson(values) == Some(items)
    ensures Readable(items)
  {
    assert Supported(lib, values[0]);
    ValueStarts(lib, values[0]);
    AllToJsonWorks(lib, values[1..]);
    var j, more := ToJson(values[0]).value, AllToJson(values[1..]).value;
    assert items == [j] + more;
    if |values| == 1 {
      OneItemReadable(lib, values[0]);
      assert items == [j];
    } else {
      ItemsParse(lib, values[1..], more);
      MoreItemsReadable(lib, values[0], more);
    }
  }

  lemma {:induction false} SplitAt(s: Bytes, separator: byte, rest: Bytes)
    requires separator !in s
    ensures Split(s + [separator] + rest, separator) == [s] + Split(rest, separator)
  {
    if s == [] {
      assert ([separator] + rest)[1..] == rest;
      assert s + [separator] + rest == [separator] + rest;
    } else {
      SplitAt(s[1..], separator, rest);
      assert (s + [separator] + rest)[1..] == s[1..] + [separator] + rest;
      assert s == [s[0]] + s[1..];
    }
  }

  lemma {:induction false} SplitWhole(s: Bytes, separator: byte)
    requires separator !in s
    ensures Split(s, separator) == [s]
  {
    if s != [] {
      SplitWhole(s[1..], separator);
      assert s == [s[0]] + s[1..];
    }
  }

  lemma DurationDecodes(lib: Library, us: int)
    requires ReadsBack(lib) && -LAST_DAY <= us / DAY <= LAST_DAY
    ensures ParseDuration(lib, DurationText(us)) == Some(Duration(us))
  {
    var d, s, m := IntText(us / DAY), IntText(us % DAY / SECOND), IntText(us % SECOND);
    NoColon(us / DAY);
    NoColon(us % DAY / SECOND);
    NoColon(us % SECOND);
    assert DurationText(us) == d + [COLON] + (s + [COLON] + m);
    SplitAt(d, COLON, s + [COLON] + m);
    SplitAt(s, COLON, m);
    SplitWhole(m, COLON);
    assert Split(DurationText(us), COLON) == [d, s, m];
    DurationParts(us);
  }

  lemma DurationParts(us: int)
    ensures us / DAY * DAY + us % DAY / SECOND * SECOND + us % SECOND == us
  {
  }

  lemma NoColon(i: int)
    ensures COLON !in IntText(i)
  {
    var digits := NatText(if i < 0 then -i else i);
    assert forall b :: b in digits ==> IsDigit(b);
  }

  lemma TagsDiffer()
    ensures Ascii(TAG_BYTES) != Ascii(TAG_FLOAT)
    ensures |Ascii(TAG_DATETIME)| == 9 && |Ascii(TAG_DECIMAL)| == 8 && |Ascii(TAG_TIMEDELTA)| == 10
    ensures |Ascii(TAG_BYTES)| == |Ascii(TAG_FLOAT)| == 6 && |Ascii(TAG_DATE)| == |Ascii(TAG_TIME)| == 5
    ensures Ascii(TAG_DATE) != Ascii(TAG_TIME)
    ensures Ascii("inf") != Ascii("nan")
  {
    assert Ascii(TAG_BYTES)[1] != Ascii(TAG_FLOAT)[1];
    assert Ascii(TAG_DATE)[1] != Ascii(TAG_TIME)[1];
    assert Ascii("inf")[0] != Ascii("nan")[0];
  }

  lemma ValueDecodes(lib: Library, v: Value)
    requires ReadsBack(lib) && Supported(lib, v)
    ensures ToJson(v).Some? && FromJson(lib, ToJson(v).value) == Ok(v)
  {
    TagsDiffer();
    if v.Binary? {
      Base64RoundTrip(v.bytes);
    } else if v.Duration? {
      DurationDecodes(lib, v.microseconds);
    }
  }

  lemma {:induction false} ItemsDecode(lib: Library, values: seq<Value>)
    requires ReadsBack(lib) && AllSupported(lib, values)
    ensures AllToJson(values).Some? && AllFromJson(lib, AllToJson(values).value) == Ok(values)
  {
    if values != [] {
      assert Supported(lib, values[0]);
      ValueDecodes(lib, values[0]);
      ItemsDecode(lib, values[1..]);
      assert values == [values[0]] + values[1..];
    }
  }

  lemma ArrayParses(s: Bytes, items: seq<Json>)
    requires s != [] && !IsSpace(s[0]) && s[0] != CLOSE && ParseItems(s) == Some(Parsed(items, []))
    ensures ParseValue([OPEN] + s) == Some(Parsed(JArray(items), []))
  {
    assert ([OPEN] + s)[1..] == s && SkipSpace(s) == s;
  }

  lemma EmptyArrayParses()
    ensures ParseValue([OPEN, CLOSE]) == Some(Parsed(JArray([]), []))
  {
    assert [OPEN, CLOSE][1..] == [CLOSE] && SkipSpace([CLOSE]) == [CLOSE];
  }

  lemma NoItem(s: Bytes)
    requires s != [] && s[0] == CLOSE
    ensures ParseItems(s).None?
  {
    if ParseNumber(s).Some? {
      NumberStart(s);
    }
  }

  // Every row of supported values is encoded, and decodes to exactly these values.
  lemma RoundTrip(lib: Library, values: seq<Value>)
    requires ReadsBack(lib) && AllSupported(lib, values)
    ensures EncodeRow(values).Ok? && DecodeRow(lib, EncodeRow(values).value) == Ok(values)
  {
    ItemsDecode(lib, values);
    var items := AllToJson(values).value;
    var row := EncodeRow(values).value;
    assert SkipSpace(row) == row;
    if values == [] {
      assert row == [OPEN, CLOSE];
      EmptyArrayParses();
    } else {
      var s := PrintItems(items) + [CLOSE];
      ItemsParse(lib, values, items);
      if s[0] == CLOSE { NoItem(s); }
      ArrayParses(s, items);
      assert row == [OPEN] + s;
    }
  }

  // Rows with different values have different encodings.
  lemma EncodingIdentifies(lib: Library, a: seq<Value>, b: seq<Value>)
    requires ReadsBack(lib) && AllSupported(lib, a) && AllSupported(lib, b)
    ensures EncodeRow(a) == EncodeRow(b) <==> a == b
  {
    RoundTrip(lib, a);
    RoundTrip(lib, b);
  }

  // A row is refused exactly if it has a value of another type.
  lemma {:induction false} EncodesExactlySupportedTypes(values: seq<Value>)
    ensures EncodeRow(values).Err? <==> exists i :: 0 <= i < |values| && values[i].Nested?
  {
    if values != [] {
      EncodesExactlySupportedTypes(values[1..]);
      assert forall i :: 0 < i < |values| ==> values[i] == values[1..][i - 1];
      assert ToJson(values[0]).None? <==> values[0].Nested?;
    }
  }

  // --- One row, one line ---

  predicate OneLine(s: Bytes) {
    forall i :: 0 <= i < |s| ==> s[i] >= 32
  }

  lemma NumberOnOneLine(s: Bytes)
    requires ParseNumber(s).Some? && ParseNumber(s).value.rest == []
    ensures OneLine(s)
  {
    var sign := SignEnd(s);
    var whole := WholeEnd(s, sign);
    var fraction := FractionEnd(s, whole);
    assert ExponentEnd(s, fraction) == |s|;
  }

  lemma QuotedOnOneLine(t: Bytes)
    ensures OneLine(Quoted(t))
  {
  }

  lemma TaggedOnOneLine(tag: string, payload: Bytes)
    requires forall i :: 0 <= i < |tag| ==> tag[i] < 128 as char
    ensures OneLine(Print(Tagged(tag, payload)))
  {
    var key, value := Quoted(Ascii(tag)), Quoted(payload);
    QuotedOnOneLine(Ascii(tag));
    QuotedOnOneLine(payload);
    assert Print(Tagged(tag, payload)) == [BRACE] + key + [COLON] + value + [UNBRACE];
  }

  lemma IntOnOneLine(i: int)
    ensures OneLine(IntText(i))
  {
    var digits := NatText(if i < 0 then -i else i);
    assert forall k :: 0 <= k < |digits| ==> IsDigit(digits[k]);
  }

  lemma ValueOnOneLine(lib: Library, v: Value)
    requires Supported(lib, v)
    ensures ToJson(v).Some? && OneLine(Print(ToJson(v).value))
  {
    if TagOf(v).Some? {
      TaggedOnOneLine(TagOf(v).value.name, TagOf(v).value.payload);
    } else if v.Finite? {
      NumberOnOneLine(v.repr);
    } else if v.Text? {
      QuotedOnOneLine(v.utf8);
    } else if v.Int? {
      IntOnOneLine(v.i);
    } else {
      assert OneLine(Ascii("null")) && OneLine(Ascii("true")) && OneLine(Ascii("false"));
    }
  }

  lemma {:induction false} ItemsOnOneLine(lib: Library, values: seq<Value>)
    requires AllSupported(lib, values)
    ensures AllToJson(values).Some? && OneLine(PrintItems(AllToJson(values).value))
  {
    if values != [] {
      assert Supported(lib, values[0]);
      ValueOnOneLine(lib, values[0]);
      ItemsOnOneLine(lib, values[1..]);
      var items, more := AllToJson(values).value, AllToJson(values[1..]).value;
      assert items[1..] == more;
    }
  }

  // An encoded row has no line break, or any other control character, and ends in a bracket.
  lemma RowOnOneLine(lib: Library, values: seq<Value>)
    requires AllSupported(lib, values)
    ensures EncodeRow(values).Ok?
    ensures var row := EncodeRow(values).value; OneLine(row) && row != [] && row[|row| - 1] == CLOSE
  {
    ItemsOnOneLine(lib, values);
  }
}
