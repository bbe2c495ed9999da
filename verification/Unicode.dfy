// Unicode text as ECMAScript strings hold it, and UTF-8 (section 3 of RFC 3629).

module Unicode {
  import opened Common

  type Unit = u: nat | u < 0x1_0000
  type CodePoint = c: nat | c <= 0x10_FFFF
  type Byte = b: nat | b < 0x100

  predicate IsHigh(c: nat) {
    0xD800 <= c <= 0xDBFF
  }

  predicate IsLow(c: nat) {
    0xDC00 <= c <= 0xDFFF
  }

  predicate IsSurrogate(c: nat) {
    IsHigh(c) || IsLow(c)
  }

  // ----- UTF-16 -----

  predicate PairAt(text: seq<Unit>) {
    |text| > 1 && IsHigh(text[0]) && IsLow(text[1])
  }

  /** The first code point of a text, as iteration over a string yields it: a lone surrogate is one. */
  function First(text: seq<Unit>): CodePoint
    requires text != []
  {
    if PairAt(text) then Pair(text[0], text[1]) else text[0]
  }

  function Pair(high: int, low: int): int {
    0x1_0000 + (high - 0xD800) * 0x400 + (low - 0xDC00)
  }

  function FirstWidth(text: seq<Unit>): (n: nat)
    requires text != []
    ensures 1 <= n <= |text|
  {
    if PairAt(text) then 2 else 1
  }

  function CodePoints(text: seq<Unit>): seq<CodePoint> {
    if text == [] then [] else [First(text)] + CodePoints(text[FirstWidth(text)..])
  }

  function UnitsOf(c: CodePoint): seq<Unit> {
    if c < 0x1_0000 then [c] else [0xD800 + (c - 0x1_0000) / 0x400, 0xDC00 + (c - 0x1_0000) % 0x400]
  }

  function Units(cs: seq<CodePoint>): seq<Unit> {
    if cs == [] then [] else UnitsOf(cs[0]) + Units(cs[1..])
  }

  /** No high surrogate is directly followed by a low one. */
  predicate Separate(cs: seq<CodePoint>) {
    forall k :: 0 <= k < |cs| - 1 ==> !IsHigh(cs[k]) || !IsLow(cs[k + 1])
  }

  lemma FirstUnits(text: seq<Unit>)
    requires text != []
    ensures UnitsOf(First(text)) == text[..FirstWidth(text)]
  {
    if PairAt(text) {
      assert 0 <= text[1] - 0xDC00 < 0x400;
    }
  }

  lemma {:induction false} UnitsOfCodePoints(text: seq<Unit>)
    ensures Units(CodePoints(text)) == text
  {
    if text != [] {
      FirstUnits(text);
      var rest := CodePoints(text[FirstWidth(text)..]);
      UnitsOfCodePoints(text[FirstWidth(text)..]);
      assert CodePoints(text)[1..] == rest;
    }
  }

  lemma {:induction false} CodePointsAreSeparate(text: seq<Unit>)
    ensures Separate(CodePoints(text))
  {
    if text != [] {
      var rest := text[FirstWidth(text)..];
      CodePointsAreSeparate(rest);
      if rest != [] && IsLow(First(rest)) { assert First(rest) == rest[0]; }
    }
  }

  lemma FirstOfUnits(c: CodePoint, more: seq<Unit>)
    requires IsHigh(c) ==> more == [] || !IsLow(more[0])
    ensures First(UnitsOf(c) + more) == c && FirstWidth(UnitsOf(c) + more) == |UnitsOf(c)|
  {
  }

  lemma {:induction false} CodePointsOfUnits(cs: seq<CodePoint>)
    requires Separate(cs)
    ensures CodePoints(Units(cs)) == cs
  {
    if cs != [] {
      var more := Units(cs[1..]);
      assert Separate(cs[1..]);
      if |cs| > 1 { UnitsStart(cs[1..]); }
      FirstOfUnits(cs[0], more);
      CodePointsOfUnits(cs[1..]);
      assert Units(cs)[|UnitsOf(cs[0])|..] == more;
    }
  }

  lemma UnitsStart(cs: seq<CodePoint>)
    requires cs != []
    ensures Units(cs) != [] && (IsLow(Units(cs)[0]) ==> IsLow(cs[0]))
  {
  }

  // ----- UTF-8 -----

  function Utf8(c: CodePoint): (bytes: seq<Byte>)
    ensures 1 <= |bytes| <= 4
  {
    if c < 0x80 then [c]
    else if c < 0x800 then [0xC0 + c / 0x40, 0x80 + c % 0x40]
    else if c < 0x1_0000 then [0xE0 + c / 0x1000, 0x80 + c / 0x40 % 0x40, 0x80 + c % 0x40]
    else [0xF0 + c / 0x4_0000, 0x80 + c / 0x1000 % 0x40, 0x80 + c / 0x40 % 0x40, 0x80 + c % 0x40]
  }

  predicate Tail(b: Byte) {
    0x80 <= b <= 0xBF
  }

  /** Six more bits. */
  function Shift(high: int, tail: int): int {
    high * 0x40 + (tail - 0x80)
  }

  /** The first character of an octet stream and its length, if it is valid UTF-8: no overlong form, no
      surrogate, nothing above U+10FFFF. */
  function DecodeFirst(s: seq<Byte>): (r: Option<(CodePoint, nat)>)
    ensures r.Some? ==> 1 <= r.value.1 <= |s|
  {
    if s == [] then None
    else if s[0] < 0x80 then Some((s[0], 1))
    else if 0xC2 <= s[0] <= 0xDF && |s| > 1 && Tail(s[1]) then
      Some((Shift(s[0] - 0xC0, s[1]), 2))
    else if 0xE0 <= s[0] <= 0xEF && |s| > 2 && Tail(s[1]) && Tail(s[2]) then
      var c := Shift(Shift(s[0] - 0xE0, s[1]), s[2]);
      if c < 0x800 || IsSurrogate(c) then None else Some((c, 3))
    else if 0xF0 <= s[0] <= 0xF4 && |s| > 3 && Tail(s[1]) && Tail(s[2]) && Tail(s[3]) then
      var c := Shift(Shift(Shift(s[0] - 0xF0, s[1]), s[2]), s[3]);
      if c < 0x1_0000 || c > 0x10_FFFF then None else Some((c, 4))
    else None
  }

  function Decode(s: seq<Byte>): Option<seq<CodePoint>> {
    if s == [] then Some([])
    else
      var first := DecodeFirst(s);
      if first.None? then None
      else
        var rest := Decode(s[first.value.1..]);
        if rest.None? then None else Some([first.value.0] + rest.value)
  }

  /** What TextEncoder makes of a code point: a lone surrogate becomes U+FFFD. */
  function Replaced(c: CodePoint): CodePoint {
    if IsSurrogate(c) then 0xFFFD else c
  }

  function ReplaceAll(cs: seq<CodePoint>): seq<CodePoint> {
    seq(|cs|, k requires 0 <= k < |cs| => Replaced(cs[k]))
  }

  function Encode(cs: seq<CodePoint>): seq<Byte> {
    if cs == [] then [] else Utf8(Replaced(cs[0])) + Encode(cs[1..])
  }

  lemma Sextets(c: nat)
    ensures Shift(c / 0x40, 0x80 + c % 0x40) == c
    ensures Shift(Shift(c / 0x1000, 0x80 + c / 0x40 % 0x40), 0x80 + c % 0x40) == c
    ensures Shift(Shift(Shift(c / 0x4_0000, 0x80 + c / 0x1000 % 0x40), 0x80 + c / 0x40 % 0x40), 0x80 + c % 0x40) == c
  {
    assert c / 0x40 / 0x40 == c / 0x1000 && c / 0x1000 / 0x40 == c / 0x4_0000;
  }

  lemma Utf8DecodesFirst(c: CodePoint, more: seq<Byte>)
    requires !IsSurrogate(c)
    ensures DecodeFirst(Utf8(c) + more) == Some((c, |Utf8(c)|))
  {
    hide Shift;
    Sextets(c);
  }

  /** Every encoded text decodes, to itself but for the replaced surrogates. */
  lemma {:induction false} DecodeEncode(cs: seq<CodePoint>)
    ensures Decode(Encode(cs)) == Some(ReplaceAll(cs))
  {
    if cs == [] {
      assert ReplaceAll(cs) == [];
    } else {
      var first, more := Utf8(Replaced(cs[0])), Encode(cs[1..]);
      Utf8DecodesFirst(Replaced(cs[0]), more);
      DecodeEncode(cs[1..]);
      assert (first + more)[|first|..] == more;
      assert ReplaceAll(cs) == [Replaced(cs[0])] + ReplaceAll(cs[1..]);
    }
  }

  lemma {:induction false} EncodeJoin(a: seq<CodePoint>, b: seq<CodePoint>)
    ensures Encode(a + b) == Encode(a) + Encode(b)
  {
    if a == [] {
      assert a + b == b;
    } else {
      assert (a + b)[1..] == a[1..] + b;
      EncodeJoin(a[1..], b);
    }
  }

  lemma {:induction false} UnitsJoin(a: seq<CodePoint>, b: seq<CodePoint>)
    ensures Units(a + b) == Units(a) + Units(b)
  {
    if a == [] {
      assert a + b == b;
    } else {
      assert (a + b)[1..] == a[1..] + b;
      UnitsJoin(a[1..], b);
    }
  }
}
