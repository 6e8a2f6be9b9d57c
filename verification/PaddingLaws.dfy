/** How long a padded message is, and every byte of it. */
module PaddingLaws {
  import opened Common
  import opened Padding

  /** One, or twice a power of two. */
  predicate PowerOfTwo(p: nat) {
    p == 1 || (p > 0 && p % 2 == 0 && PowerOfTwo(p / 2))
  }

  lemma {:induction false} PowerIs(k: nat)
    ensures PowerOfTwo(Pow2(k))
  {
    if k > 0 { PowerIs(k - 1); }
  }

  lemma {:induction false} PowersApart(p: nat, q: nat)
    requires PowerOfTwo(p) && PowerOfTwo(q) && p < q
    ensures 2 * p <= q
  {
    if p > 1 { PowersApart(p / 2, q / 2); }
  }

  /** The power of two above `len - 1` is the one that brackets the length. */
  lemma Bracket(len: nat, p: nat)
    requires PowerOfTwo(p) && p < len <= 2 * p
    ensures Pow2(ExpAbove(len - 1)) == 2 * p
  {
    hide Pow2, ExpAbove, PowerOfTwo;
    var q := Pow2(ExpAbove(len - 1));
    PowerBrackets(len - 1);
    PowerIs(ExpAbove(len - 1));
    Doubled(p);
    if q < 2 * p {
      PowersApart(q, 2 * p);
    } else if q > 2 * p {
      PowersApart(2 * p, q);
    }
  }

  lemma Doubled(p: nat)
    requires PowerOfTwo(p)
    ensures PowerOfTwo(2 * p) && p > 0
  {
    assert 2 * p % 2 == 0 && 2 * p / 2 == p;
  }

  /** `r` is the least multiple of `c` that is not below `n`. */
  ghost predicate LeastMultiple(r: nat, c: nat, n: nat) {
    c > 0 && r % c == 0 && n <= r < n + c
  }

  lemma LeastIsOne(r: nat, s: nat, c: nat, n: nat)
    requires LeastMultiple(r, c, n) && LeastMultiple(s, c, n)
    ensures r == s
  {
    var a, b := r / c, s / c;
    assert r == c * a && s == c * b;
    Multiples(c, a, b);
    Multiples(c, b, a);
  }

  lemma RoundedIsLeast(n: nat, c: nat)
    requires n > 0 && c > 0
    ensures LeastMultiple(c * ((n - 1) / c + 1), c, n)
  {
    RoundsUp(n, c);
    MultipleHasNoRest(c, (n - 1) / c + 1);
  }

  lemma {:induction false} MultipleHasNoRest(c: nat, q: nat)
    requires c > 0
    ensures c * q % c == 0
  {
    var r := c * q;
    assert r == c * (r / c) + r % c;
    DivUnique(r, c, q, 0);
  }

  /**
   * The padded length: 32 at least, up to 256 the next multiple of 32, and from there on the next multiple of
   * a quarter of the power of two below the length.
   */
  lemma PaddedLenIs(len: nat, p: nat)
    requires len >= 1
    ensures len <= 32 ==> PaddedLen(len) == 32
    ensures 32 < len <= 256 ==> LeastMultiple(PaddedLen(len), 32, len)
    ensures p >= 256 && PowerOfTwo(p) && p < len <= 2 * p ==> LeastMultiple(PaddedLen(len), p / 4, len)
  {
    hide Pow2, ExpAbove, PowerOfTwo, LeastMultiple;
    if 32 < len <= 256 {
      SmallChunk(len);
      RoundedIsLeast(len, 32);
    }
    if p >= 256 && PowerOfTwo(p) && p < len <= 2 * p {
      Bracket(len, p);
      assert ChunkOf(len) == 2 * p / 8 == p / 4;
      RoundedIsLeast(len, p / 4);
    }
  }

  lemma SmallChunk(len: nat)
    requires 32 < len <= 256
    ensures ChunkOf(len) == 32
  {
    hide Pow2, ExpAbove;
    var q := Pow2(ExpAbove(len - 1));
    PowerBrackets(len - 1);
    if q > 256 {
      PowerIs(ExpAbove(len - 1));
      PowerIs(8);
      PowersOf8();
      PowersApart(256, q);
    }
  }

  lemma PowersOf8()
    ensures Pow2(8) == 256
  {
    assert Pow2(1) == 2 && Pow2(2) == 4 && Pow2(3) == 8 && Pow2(4) == 16 && Pow2(5) == 32 && Pow2(6) == 64 && Pow2(7) == 128;
  }

  /** Every byte of a padded message: the length in two bytes, the higher first, then the message, then zeros. */
  lemma PadBytes(m: seq<byte>)
    ensures Pad(m).Some? <==> 1 <= |m| <= 65535
    ensures Pad(m).Some? ==>
              var b := Pad(m).value;
              && |b| == 2 + PaddedLen(|m|) >= 2 + |m|
              && b[0] as int * 256 + b[1] as int == |m|
              && (forall i :: 0 <= i < |m| ==> b[2 + i] == m[i])
              && (forall i :: 2 + |m| <= i < |b| ==> b[i] == 0)
  {
    hide PaddedLen;
    if 1 <= |m| <= 65535 {
      PaddingIsBounded(|m|);
      ZerosAreZero(PaddedLen(|m|) - |m|);
    }
  }

  /** What is read back: the declared number of bytes after the first two, from a message of the one length that declares them. */
  lemma UnpadReads(b: seq<byte>)
    ensures var len := if |b| >= 2 then b[0] as int * 256 + b[1] as int else 0;
            Unpad(b) == if len >= 1 && |b| == 2 + PaddedLen(len) then Some(b[2..2 + len]) else None
  {
    hide PaddedLen;
    if |b| >= 2 {
      var len := b[0] as int * 256 + b[1] as int;
      if len >= 1 { PaddingIsBounded(len); }
    }
  }
}
