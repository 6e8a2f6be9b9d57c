/** Strings as the boundary measures them: UTF-16 units, their UTF-8 encoding, and JSON quoting. */
module JsonText {

  newtype Unit = u: int | 0 <= u < 0x1_0000
  newtype Byte = b: int | 0 <= b < 256

  type Utf16 = seq<Unit>

  predicate High(u: Unit) { 0xd800 <= u <= 0xdbff }

  predicate Low(u: Unit) { 0xdc00 <= u <= 0xdfff }

  /** `s` starts with a surrogate pair, one code point of two units. */
  predicate StartsPaired(s: Utf16) { |s| >= 2 && High(s[0]) && Low(s[1]) }

  // ── UTF-8, RFC 3629 section 3 ──

  predicate Scalar(c: int) { 0 <= c <= 0x10_ffff && !(0xd800 <= c <= 0xdfff) }

  /** The code point `s` starts with; a surrogate without its partner reads as U+FFFD. */
  function FirstPoint(s: Utf16): (c: int)
    requires s != []
    ensures Scalar(c)
  {
    if StartsPaired(s) then 0x1_0000 + (s[0] as int - 0xd800) * 0x400 + (s[1] as int - 0xdc00)
    else if High(s[0]) || Low(s[0]) then 0xfffd
    else s[0] as int
  }

  /** How many units the first code point takes. */
  function FirstUnits(s: Utf16): (n: nat)
    requires s != []
    ensures 1 <= n <= |s|
  {
    if StartsPaired(s) then 2 else 1
  }

  function CodePoints(s: Utf16): (points: seq<int>)
    ensures forall c :: c in points ==> Scalar(c)
  {
    if s == [] then [] else [FirstPoint(s)] + CodePoints(s[FirstUnits(s)..])
  }

  function Continuation(c: int): Byte { (0x80 + c % 64) as Byte }

  function EncodePoint(c: int): (bytes: seq<Byte>)
    requires Scalar(c)
    ensures bytes != []
  {
    if c < 0x80 then [c as Byte]
    else if c < 0x800 then [(0xc0 + c / 64) as Byte, Continuation(c)]
    else if c < 0x1_0000 then [(0xe0 + c / 4096) as Byte, Continuation(c / 64), Continuation(c)]
    else [(0xf0 + c / 262144) as Byte, Continuation(c / 4096), Continuation(c / 64), Continuation(c)]
  }

  function Encode(points: seq<int>): seq<Byte>
    requires forall c :: c in points ==> Scalar(c)
  {
    if points == [] then [] else EncodePoint(points[0]) + Encode(points[1..])
  }

  /** The UTF-8 form of a text, as an encoder emits it. */
  function Utf8(s: Utf16): seq<Byte> { Encode(CodePoints(s)) }

  function Weight(s: Utf16): nat { |Utf8(s)| }

  /** How many bytes a sequence takes, by its first byte. */
  function SequenceLength(lead: Byte): nat {
    if lead < 0x80 then 1 else if lead < 0xe0 then 2 else if lead < 0xf0 then 3 else 4
  }

  /** The code point a byte sequence of that length spells. */
  function PointOf(bytes: seq<Byte>): int {
    if |bytes| == 1 then bytes[0] as int
    else if |bytes| == 2 then (bytes[0] as int - 0xc0) * 64 + (bytes[1] as int - 0x80)
    else if |bytes| == 3 then (bytes[0] as int - 0xe0) * 4096 + (bytes[1] as int - 0x80) * 64 + (bytes[2] as int - 0x80)
    else if |bytes| == 4 then
      (bytes[0] as int - 0xf0) * 262144 + (bytes[1] as int - 0x80) * 4096 + (bytes[2] as int - 0x80) * 64 + (bytes[3] as int - 0x80)
    else -1
  }

  /** Reads UTF-8 back into code points. */
  function Decode(bytes: seq<Byte>): seq<int> {
    if bytes == [] then []
    else
      var n := SequenceLength(bytes[0]);
      if n > |bytes| then [-1] else [PointOf(bytes[..n])] + Decode(bytes[n..])
  }

  lemma PointRoundTrip(c: int)
    requires Scalar(c)
    ensures var bytes := EncodePoint(c); SequenceLength(bytes[0]) == |bytes| && PointOf(bytes) == c
  {
    var d := c / 64;
    var e := c / 4096;
    assert e == d / 64 && c / 262144 == e / 64;
    assert c == d * 64 + c % 64 && d == e * 64 + d % 64 && e == (e / 64) * 64 + e % 64;
  }

  /** The encoding loses nothing: reading the bytes gives back the code points. */
  lemma {:induction false} DecodeEncode(points: seq<int>)
    requires forall c :: c in points ==> Scalar(c)
    ensures Decode(Encode(points)) == points
  {
    if points != [] {
      var first, rest := EncodePoint(points[0]), Encode(points[1..]);
      PointRoundTrip(points[0]);
      DecodeEncode(points[1..]);
      assert (first + rest)[..|first|] == first && (first + rest)[|first|..] == rest;
      assert (first + rest)[0] == first[0];
    }
  }

  lemma WeightStep(s: Utf16)
    requires s != []
    ensures Weight(s) == |EncodePoint(FirstPoint(s))| + Weight(s[FirstUnits(s)..])
  {
    var points := CodePoints(s);
    assert points[1..] == CodePoints(s[FirstUnits(s)..]);
  }

  /** Counts the UTF-8 length without encoding anything. */
  method Utf8ByteLength(text: Utf16) returns (bytes: nat)
    ensures bytes == |Encode(CodePoints(text))|
  {
    bytes := 0;
    var i := 0;
    assert text[0..] == text;
    while i < |text|
      invariant 0 <= i <= |text|
      invariant bytes + Weight(text[i..]) == Weight(text)
    {
      ghost var here := text[i..];
      WeightStep(here);
      assert here[FirstUnits(here)..] == text[i + FirstUnits(here)..];
      var u := text[i];
      if u < 0x80 {
        bytes := bytes + 1;
      } else if u < 0x800 {
        bytes := bytes + 2;
      } else if 0xd800 <= u <= 0xdbff && i + 1 < |text| {
        var next := text[i + 1];
        if 0xdc00 <= next <= 0xdfff {
          bytes := bytes + 4;
          i := i + 1;
        } else {
          bytes := bytes + 3;
        }
      } else {
        bytes := bytes + 3;
      }
      i := i + 1;
    }
  }

  /** `s` does not end inside a surrogate pair. */
  predicate Closed(s: Utf16) { s == [] || !High(s[|s| - 1]) }

  lemma FirstOfConcat(a: Utf16, b: Utf16)
    requires a != [] && Closed(a)
    ensures FirstUnits(a + b) == FirstUnits(a) && FirstPoint(a + b) == FirstPoint(a)
    ensures Closed(a[FirstUnits(a)..]) && (a + b)[FirstUnits(a)..] == a[FirstUnits(a)..] + b
  {
    assert (a + b)[0] == a[0];
    if |a| > 1 { assert (a + b)[1] == a[1]; }
  }

  lemma EmptyWeight()
    ensures Weight([]) == 0
  {}

  /** Weights add up wherever no pair is cut. */
  lemma {:induction false} WeightOfConcat(a: Utf16, b: Utf16)
    requires Closed(a)
    ensures Weight(a + b) == Weight(a) + Weight(b)
    decreases |a|
  {
    hide EncodePoint, CodePoints, Encode, FirstPoint, FirstUnits, Weight, Closed;
    if a == [] {
      assert a + b == b;
      EmptyWeight();
    } else {
      WeightStep(a);
      WeightStep(a + b);
      FirstOfConcat(a, b);
      WeightOfConcat(a[FirstUnits(a)..], b);
    }
  }

  /** A unit is at least one byte, so a length above a limit is already a weight above it. */
  lemma {:induction false} WeightAtLeastLength(s: Utf16)
    ensures Weight(s) >= |s|
    decreases |s|
  {
    if s != [] {
      WeightStep(s);
      WeightAtLeastLength(s[FirstUnits(s)..]);
    }
  }

  predicate Ascii(s: Utf16) { forall i :: 0 <= i < |s| ==> s[i] < 0x80 }

  lemma {:induction false} WeightOfAscii(s: Utf16)
    requires Ascii(s)
    ensures Weight(s) == |s| && Closed(s)
  {
    if s != [] {
      WeightStep(s);
      assert FirstUnits(s) == 1 && FirstPoint(s) == s[0] as int;
      WeightOfAscii(s[1..]);
    }
  }

  // ── JSON strings, RFC 8259 section 7 ──

  /** The units of an ASCII literal. */
  function Units(s: string): (t: Utf16)
    requires forall i :: 0 <= i < |s| ==> s[i] as int < 0x80
    ensures |t| == |s| && Ascii(t)
  {
    if s == "" then [] else [s[0] as int as Unit] + Units(s[1..])
  }

  function HexUnit(v: int): (u: Unit)
    requires 0 <= v < 16
    ensures u < 0x80
  {
    if v < 10 then (0x30 + v) as Unit else (0x61 + v - 10) as Unit
  }

  /** `\uXXXX` with lowercase digits. */
  function Spelled(u: Unit): (t: Utf16)
    ensures Ascii(t) && |t| == 6
  {
    var v := u as int;
    [0x5c, 0x75, HexUnit(v / 4096), HexUnit(v / 256 % 16), HexUnit(v / 16 % 16), HexUnit(v % 16)]
  }

  /** One code point inside a JSON string, as `JSON.stringify` writes it. */
  function EscapeFirst(s: Utf16): (t: Utf16)
    requires s != []
    ensures Closed(t) && t != []
  {
    var u := s[0];
    if StartsPaired(s) then s[..2]
    else if u == 0x22 || u == 0x5c then [0x5c, u]
    else if u == 0x08 then [0x5c, 0x62]
    else if u == 0x0c then [0x5c, 0x66]
    else if u == 0x0a then [0x5c, 0x6e]
    else if u == 0x0d then [0x5c, 0x72]
    else if u == 0x09 then [0x5c, 0x74]
    else if u < 0x20 || High(u) || Low(u) then Spelled(u)
    else [u]
  }

  function Escape(s: Utf16): Utf16 {
    if s == [] then [] else EscapeFirst(s) + Escape(s[FirstUnits(s)..])
  }

  function Quote(s: Utf16): Utf16 { [0x22] + Escape(s) + [0x22] }

  lemma {:induction false} EscapeIsClosed(s: Utf16)
    ensures Closed(Escape(s))
    decreases |s|
  {
    if s != [] { EscapeIsClosed(s[FirstUnits(s)..]); }
  }

  /** Escaping never makes a text lighter than its length. */
  lemma {:induction false} EscapeWeight(s: Utf16)
    ensures Weight(Escape(s)) >= |s|
    decreases |s|
  {
    if s != [] {
      var n := FirstUnits(s);
      EscapeWeight(s[n..]);
      WeightOfConcat(EscapeFirst(s), Escape(s[n..]));
      WeightAtLeastLength(EscapeFirst(s));
    }
  }

  lemma QuoteWeight(s: Utf16)
    ensures Weight(Quote(s)) >= |s| + 2 && Closed(Quote(s))
  {
    EscapeWeight(s);
    EscapeIsClosed(s);
    WeightOfAscii([0x22]);
    WeightOfConcat([0x22], Escape(s));
    WeightOfConcat([0x22] + Escape(s), [0x22]);
  }
}
