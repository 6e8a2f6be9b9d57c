/** The NIP-44 padding of the post-quantum envelope. */
module Padding {
  import opened Common

  newtype byte = b: int | 0 <= b < 256

  const MAX_PLAINTEXT_BYTES := 65535

  function Pow2(k: nat): (p: nat)
    ensures p > 0
  {
    if k == 0 then 1 else 2 * Pow2(k - 1)
  }

  /** The exponent of the least power of two above `m`: one more than the logarithm's floor. */
  function ExpAbove(m: nat): nat {
    if m == 0 then 0 else 1 + ExpAbove(m / 2)
  }

  /** `calcPaddedLen` for a positive length. */
  function PaddedLen(len: nat): nat {
    if len <= 32 then 32
    else
      var chunk := ChunkOf(len);
      chunk * ((len - 1) / chunk + 1)
  }

  function ChunkOf(len: nat): (chunk: nat)
    requires len > 32
    ensures chunk >= 32
  {
    var nextPower := Pow2(ExpAbove(len - 1));
    ChunkLarge(len);
    if nextPower <= 256 then 32 else nextPower / 8
  }

  lemma {:induction false} PowerBrackets(m: nat)
    requires m > 0
    ensures Pow2(ExpAbove(m)) <= 2 * m && m < Pow2(ExpAbove(m))
  {
    if m > 1 {
      PowerBrackets(m / 2);
    } else {
      assert ExpAbove(1) == 1 + ExpAbove(0);
      assert Pow2(1) == 2 * Pow2(0);
    }
  }

  lemma {:induction false} ExpMonotone(m: nat, n: nat)
    requires m <= n
    ensures ExpAbove(m) <= ExpAbove(n)
  {
    if m > 0 { ExpMonotone(m / 2, n / 2); }
  }

  lemma {:induction false} PowDoubles(a: nat, b: nat)
    requires a < b
    ensures 2 * Pow2(a) <= Pow2(b)
  {
    if a + 1 < b { PowDoubles(a, b - 1); }
  }

  /** A power of two above 256 is a multiple of eight, and one eighth of it is at least 64. */
  lemma PowEighth(k: nat)
    requires Pow2(k) > 256
    ensures Pow2(k) % 8 == 0 && Pow2(k) / 8 >= 64
  {
    assert Pow2(8) == 256 by {
      assert Pow2(1) == 2 && Pow2(2) == 4 && Pow2(3) == 8 && Pow2(4) == 16 && Pow2(5) == 32 && Pow2(6) == 64 && Pow2(7) == 128;
    }
    if k <= 8 {
      if k < 8 { PowDoubles(k, 8); }
    } else {
      assert Pow2(k) == 2 * Pow2(k - 1) && Pow2(k - 1) == 2 * Pow2(k - 2) && Pow2(k - 2) == 2 * Pow2(k - 3);
      if 9 < k { PowDoubles(9, k); }
      assert Pow2(9) == 2 * Pow2(8);
    }
  }

  lemma ChunkLarge(len: nat)
    requires len > 32
    ensures Pow2(ExpAbove(len - 1)) > 256 ==> Pow2(ExpAbove(len - 1)) / 8 >= 32
  {
    if Pow2(ExpAbove(len - 1)) > 256 { PowEighth(ExpAbove(len - 1)); }
  }

  /** Rounding up to a multiple. */
  lemma RoundsUp(n: nat, c: nat)
    requires n > 0 && c > 0
    ensures var r := c * ((n - 1) / c + 1); n <= r < n + c
  {
    var q := (n - 1) / c;
    assert n - 1 == c * q + (n - 1) % c;
    assert c * (q + 1) == c * q + c;
  }

  lemma MultipleRounds(c: nat, q: nat)
    requires c > 0 && q > 0
    ensures c * ((c * q - 1) / c + 1) == c * q
  {
    assert c * q - 1 == c * (q - 1) + (c - 1);
    DivUnique(c * q - 1, c, q - 1, c - 1);
  }

  lemma DivUnique(n: nat, c: nat, q: nat, r: nat)
    requires c > 0 && r < c && n == c * q + r
    ensures n / c == q
  {
    var d := n / c;
    assert n == c * d + n % c;
    Multiples(c, d, q);
    Multiples(c, q, d);
  }

  lemma {:induction false} Multiples(c: nat, a: nat, b: nat)
    ensures a < b ==> c * a + c <= c * b
    ensures a <= b ==> c * a <= c * b
    decreases b
  {
    if a < b {
      Multiples(c, a, b - 1);
      OneMore(c, b - 1);
    }
  }

  lemma OneMore(c: nat, k: nat)
    ensures c * (k + 1) == c * k + c
  {}

  lemma RoundMonotone(m: nat, n: nat, c: nat)
    requires 0 < m <= n && c > 0
    ensures c * ((m - 1) / c + 1) <= c * ((n - 1) / c + 1)
  {
    var a, b := (m - 1) / c, (n - 1) / c;
    assert m - 1 == c * a + (m - 1) % c && n - 1 == c * b + (n - 1) % c;
    Multiples(c, b, a);
    Multiples(c, a + 1, b + 1);
  }

  /** The chunk divides the power of two above, at least twice over. */
  lemma ChunkDivides(len: nat)
    requires len > 32
    ensures exists q: nat :: q >= 2 && Pow2(ExpAbove(len - 1)) == ChunkOf(len) * q
    ensures len <= Pow2(ExpAbove(len - 1))
  {
    var p := Pow2(ExpAbove(len - 1));
    PowerBrackets(len - 1);
    if p <= 256 {
      SmallPower(ExpAbove(len - 1));
      assert ChunkOf(len) == 32 && p == ChunkOf(len) * (p / 32) && p / 32 >= 2;
    } else {
      PowEighth(ExpAbove(len - 1));
      assert p == ChunkOf(len) * 8;
    }
  }

  lemma SmallPower(k: nat)
    requires 32 < Pow2(k) <= 256
    ensures Pow2(k) == 64 || Pow2(k) == 128 || Pow2(k) == 256
  {
    assert Pow2(0) == 1 && Pow2(1) == 2 && Pow2(2) == 4 && Pow2(3) == 8 && Pow2(4) == 16;
    assert Pow2(5) == 32 && Pow2(6) == 64 && Pow2(7) == 128 && Pow2(8) == 256;
    if k < 5 { PowDoubles(k, 5); }
    if k > 8 { PowDoubles(8, k); }
  }

  /** A padded length never passes the power of two above the message. */
  lemma WithinPower(len: nat)
    requires len > 32
    ensures PaddedLen(len) <= Pow2(ExpAbove(len - 1))
  {
    hide Pow2, ExpAbove;
    ChunkDivides(len);
    var c := ChunkOf(len);
    var p := Pow2(ExpAbove(len - 1));
    var q: nat :| q >= 2 && p == c * q;
    RoundMonotone(len, p, c);
    MultipleRounds(c, q);
  }

  /** Padding never shortens, and adds less than 32 bytes or a quarter of the length, whichever is more. */
  lemma PaddingIsBounded(n: nat)
    requires n >= 1
    ensures n <= PaddedLen(n)
    ensures PaddedLen(n) - n < 32 || 4 * (PaddedLen(n) - n) < n
  {
    hide Pow2, ExpAbove;
    if n > 32 {
      RoundsUp(n, ChunkOf(n));
      PowerBrackets(n - 1);
    }
  }

  lemma PaddingIsMonotone(m: nat, n: nat)
    requires 1 <= m <= n
    ensures PaddedLen(m) <= PaddedLen(n)
  {
    hide Pow2, ExpAbove, ChunkOf;
    if n > 32 {
      PaddingIsBounded(n);
      if m > 32 {
        var a, b := ExpAbove(m - 1), ExpAbove(n - 1);
        ExpMonotone(m - 1, n - 1);
        if a == b {
          SameChunk(m, n);
          RoundMonotone(m, n, ChunkOf(n));
        } else {
          WithinPower(m);
          PowDoubles(a, b);
          PowerBrackets(n - 1);
        }
      }
    }
  }

  lemma SameChunk(m: nat, n: nat)
    requires m > 32 && n > 32 && ExpAbove(m - 1) == ExpAbove(n - 1)
    ensures ChunkOf(m) == ChunkOf(n)
  {
    hide Pow2, ExpAbove;
  }

  /** A padded length is its own padding. */
  lemma PaddingIsFixed(n: nat)
    requires n >= 1
    ensures PaddedLen(PaddedLen(n)) == PaddedLen(n)
  {
    hide Pow2, ExpAbove, ChunkOf;
    if n > 32 {
      var l := PaddedLen(n);
      PaddingIsBounded(n);
      WithinPower(n);
      SameExponent(n, l);
      SameChunk(n, l);
      MultipleRounds(ChunkOf(n), (n - 1) / ChunkOf(n) + 1);
    }
  }

  lemma SameExponent(n: nat, l: nat)
    requires 32 < n <= l <= Pow2(ExpAbove(n - 1))
    ensures ExpAbove(l - 1) == ExpAbove(n - 1)
  {
    hide Pow2, ExpAbove;
    ExpMonotone(n - 1, l - 1);
    PowerBrackets(n - 1);
    PowerBrackets(l - 1);
    if ExpAbove(n - 1) < ExpAbove(l - 1) {
      PowDoubles(ExpAbove(n - 1), ExpAbove(l - 1));
      assert false;
    }
  }

  // ── Padding a message ──

  function Zeros(n: nat): (z: seq<byte>)
    ensures |z| == n
  {
    if n == 0 then [] else Zeros(n - 1) + [0]
  }

  /** `pad`: the length in two bytes, the message, zeros; an empty or overlong message is refused. */
  function Pad(m: seq<byte>): Option<seq<byte>> {
    if m == [] || |m| > MAX_PLAINTEXT_BYTES then None
    else
      PaddingIsBounded(|m|);
      Some([(|m| / 256) as byte, (|m| % 256) as byte] + m + Zeros(PaddedLen(|m|) - |m|))
  }

  /** `unpad`: the declared length must be there, and be padded as the sender would have. */
  function Unpad(padded: seq<byte>): Option<seq<byte>> {
    if |padded| < 2 then None
    else
      var len := padded[0] as int * 256 + padded[1] as int;
      if len == 0 || len > MAX_PLAINTEXT_BYTES || |padded| < 2 + len || |padded| != 2 + PaddedLen(len) then None
      else Some(padded[2..2 + len])
  }

  /** Unpadding undoes padding, for every message of 1 to 65535 bytes. */
  lemma UnpadUndoesPad(m: seq<byte>)
    requires 1 <= |m| <= MAX_PLAINTEXT_BYTES
    ensures Pad(m).Some? && Unpad(Pad(m).value) == Some(m) && |Pad(m).value| == 2 + PaddedLen(|m|)
  {
    hide PaddedLen;
    PaddingIsBounded(|m|);
    var padded := Pad(m).value;
    assert padded[0] as int * 256 + padded[1] as int == |m|;
    assert padded[2..2 + |m|] == m;
  }

  /** What is accepted: the sender's own framing of the result, byte for byte, but for the filler, which is not read. */
  lemma UnpadAcceptsExactly(padded: seq<byte>, m: seq<byte>)
    ensures Unpad(padded) == Some(m) <==>
            && Pad(m).Some? && |padded| == |Pad(m).value| && padded[..2 + |m|] == Pad(m).value[..2 + |m|]
  {
    hide PaddedLen;
    if 1 <= |m| <= MAX_PLAINTEXT_BYTES {
      PaddingIsBounded(|m|);
      UnpadUndoesPad(m);
      var framed := Pad(m).value;
      assert framed[..2 + |m|] == [(|m| / 256) as byte, (|m| % 256) as byte] + m;
      if |padded| == |framed| && padded[..2 + |m|] == framed[..2 + |m|] {
        assert padded[0] == padded[..2 + |m|][0] && padded[1] == padded[..2 + |m|][1];
        assert padded[2..2 + |m|] == padded[..2 + |m|][2..];
      }
      if Unpad(padded) == Some(m) {
        assert padded[..2 + |m|] == [padded[0], padded[1]] + padded[2..2 + |m|];
      }
    }
  }

  /** `pad` as it writes its buffer; `null` for a message it refuses. */
  method PadBuffer(plaintext: array<byte>) returns (result: array?<byte>)
    ensures result == null <==> Pad(plaintext[..]).None?
    ensures result != null ==> fresh(result) && Some(result[..]) == Pad(plaintext[..])
  {
    hide PaddedLen, ChunkOf, Pow2, ExpAbove;
    var len := plaintext.Length;
    if len == 0 || len > MAX_PLAINTEXT_BYTES { return null; }
    PaddingIsBounded(len);
    var size := PaddedLen(len);
    var padded := new byte[2 + size](_ => 0);
    padded[0], padded[1] := (len / 256) as byte, (len % 256) as byte;
    var i := 0;
    while i < len
      invariant 0 <= i <= len && padded[0] == (len / 256) as byte && padded[1] == (len % 256) as byte
      invariant forall k :: 0 <= k < i ==> padded[2 + k] == plaintext[k]
      invariant forall k :: 2 + i <= k < 2 + size ==> padded[k] == 0
    {
      padded[2 + i] := plaintext[i];
      i := i + 1;
    }
    ZerosAreZero(size - len);
    var whole := Pad(plaintext[..]).value;
    assert padded[..] == whole;
    result := padded;
  }

  lemma {:induction false} ZerosAreZero(n: nat)
    ensures forall k :: 0 <= k < n ==> Zeros(n)[k] == 0
  {
    if n > 0 { ZerosAreZero(n - 1); }
  }
}
