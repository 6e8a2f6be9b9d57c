/** Strings as the host parsers use them: splitting, joining, and numbers in a base up to sixteen. */
module Text {
  import opened Common

  /** The index of the first `c` in `s`, or its length when there is none. */
  function IndexOf(s: string, c: char): (i: nat)
    ensures i <= |s| && forall k :: 0 <= k < i ==> s[k] != c
    ensures i < |s| ==> s[i] == c
  {
    if s == "" || s[0] == c then 0 else 1 + IndexOf(s[1..], c)
  }

  lemma IndexOfFirst(a: string, c: char, b: string)
    requires c !in a
    ensures IndexOf(a + [c] + b, c) == |a| && IndexOf(a, c) == |a|
  {
    var s := a + [c] + b;
    assert s[|a|] == c;
    assert forall k :: 0 <= k < |a| ==> s[k] == a[k] && a[k] in a;
  }

  function Split(s: string, c: char): (parts: seq<string>)
    ensures |parts| >= 1
  {
    if s == "" then [""]
    else
      var rest := Split(s[1..], c);
      if s[0] == c then [""] + rest else [[s[0]] + rest[0]] + rest[1..]
  }

  function Join(parts: seq<string>, c: char): string {
    if parts == [] then ""
    else if |parts| == 1 then parts[0]
    else parts[0] + [c] + Join(parts[1..], c)
  }

  lemma {:induction false} SplitFirst(a: string, s: string, c: char)
    requires c !in a
    ensures Split(a + [c] + s, c) == [a] + Split(s, c)
    ensures Split(a, c) == [a]
  {
    if a == "" {
      assert ("" + [c] + s)[1..] == s;
    } else {
      SplitFirst(a[1..], s, c);
      assert (a + [c] + s)[1..] == a[1..] + [c] + s;
      assert [a[0]] + a[1..] == a;
    }
  }

  /** Splitting undoes joining when no part holds the separator. */
  lemma {:induction false} SplitJoin(parts: seq<string>, c: char)
    requires parts != [] && forall i :: 0 <= i < |parts| ==> c !in parts[i]
    ensures Split(Join(parts, c), c) == parts
  {
    if |parts| == 1 {
      SplitFirst(parts[0], "", c);
    } else {
      SplitJoin(parts[1..], c);
      SplitFirst(parts[0], Join(parts[1..], c), c);
    }
  }

  /** Joining undoes splitting. */
  lemma {:induction false} JoinSplit(s: string, c: char)
    ensures Join(Split(s, c), c) == s
  {
    if s != "" {
      JoinSplit(s[1..], c);
      var rest := Split(s[1..], c);
      if s[0] == c {
        assert ([""] + rest)[1..] == rest;
      } else if |rest| == 1 {
        assert [[s[0]] + rest[0]] + rest[1..] == [[s[0]] + rest[0]];
      } else {
        var parts := [[s[0]] + rest[0]] + rest[1..];
        assert parts[1..] == rest[1..];
        assert Join(parts, c) == [s[0]] + (rest[0] + [c] + Join(rest[1..], c));
      }
    }
  }

  /** Every character of a joined text is the separator or comes from a part. */
  lemma {:induction false} JoinChars(parts: seq<string>, c: char)
    ensures forall x :: x in Join(parts, c) ==> x == c || exists i :: 0 <= i < |parts| && x in parts[i]
  {
    if |parts| == 1 {
      forall x | x in parts[0] ensures exists i :: 0 <= i < |parts| && x in parts[i] { assert x in parts[0]; }
    } else if |parts| > 1 {
      JoinChars(parts[1..], c);
      var text := Join(parts, c);
      forall x | x in text && x != c ensures exists i :: 0 <= i < |parts| && x in parts[i] {
        if x !in parts[0] {
          assert x in Join(parts[1..], c);
          var i :| 0 <= i < |parts[1..]| && x in parts[1..][i];
          assert x in parts[i + 1];
        }
      }
    }
  }

  // ── Numbers ──

  predicate DecDigit(c: char) { '0' <= c <= '9' }

  predicate HexLower(c: char) { DecDigit(c) || 'a' <= c <= 'f' }

  predicate HexDigit(c: char) { HexLower(LowerChar(c)) }

  /** The value of a digit, up to hexadecimal, in either case. */
  function DigitValue(c: char): (v: nat)
    ensures DecDigit(c) ==> v < 10
    ensures HexDigit(c) ==> v < 16
  {
    var l := LowerChar(c);
    if DecDigit(l) then l as int - '0' as int
    else if 'a' <= l <= 'f' then l as int - 'a' as int + 10
    else 0
  }

  function DigitChar(v: nat): (c: char)
    requires v < 16
    ensures HexLower(c) && DigitValue(c) == v && (v < 10 ==> DecDigit(c)) && (c == '0' <==> v == 0)
  {
    if v < 10 then ('0' as int + v) as char else ('a' as int + v - 10) as char
  }

  /** `parseInt(s, base)` on a string of digits. */
  function Number(s: string, base: nat): nat {
    if s == "" then 0 else Number(s[..|s| - 1], base) * base + DigitValue(s[|s| - 1])
  }

  /** `n.toString(base)`. */
  function Numeral(n: nat, base: nat): (s: string)
    requires base == 10 || base == 16
    ensures s != "" && (forall c :: c in s ==> HexLower(c)) && (base == 10 ==> forall c :: c in s ==> DecDigit(c))
    decreases n
  {
    if n < base then [DigitChar(n)]
    else if base == 10 then Numeral(n / 10, 10) + [DigitChar(n % 10)]
    else Numeral(n / 16, 16) + [DigitChar(n % 16)]
  }

  /** Reading a printed number gives it back, and only zero is printed with a leading zero. */
  lemma {:induction false} NumberOfNumeral(n: nat, base: nat)
    requires base == 10 || base == 16
    ensures Number(Numeral(n, base), base) == n
    ensures Numeral(n, base)[0] == '0' <==> n == 0
    decreases n
  {
    if n < base {
      NumberLast("", DigitChar(n), base);
    } else {
      if base == 10 {
        NumberOfNumeral(n / 10, 10);
        NumberLast(Numeral(n / 10, 10), DigitChar(n % 10), 10);
      } else {
        NumberOfNumeral(n / 16, 16);
        NumberLast(Numeral(n / 16, 16), DigitChar(n % 16), 16);
      }
    }
  }

  lemma NumberLast(front: string, c: char, base: nat)
    ensures Number(front + [c], base) == Number(front, base) * base + DigitValue(c)
  {
    assert (front + [c])[..|front|] == front;
  }

  function Power(base: nat, w: nat): nat {
    if w == 0 then 1 else base * Power(base, w - 1)
  }

  lemma {:induction false} Width(n: nat, base: nat, w: nat)
    requires (base == 10 || base == 16) && n < Power(base, w) && w > 0
    ensures 1 <= |Numeral(n, base)| <= w
    decreases w
  {
    if n >= base {
      assert Power(base, 1) == base * Power(base, 0) == base;
      assert w > 1;
      if base == 10 {
        assert n / 10 < Power(10, w - 1);
        Width(n / 10, 10, w - 1);
      } else {
        assert n / 16 < Power(16, w - 1);
        Width(n / 16, 16, w - 1);
      }
    }
  }

  /** A number below 65536 takes one to four hexadecimal digits. */
  lemma HexWidth(n: nat)
    requires n < 0x1_0000
    ensures 1 <= |Numeral(n, 16)| <= 4
  {
    assert Power(16, 1) == 16 && Power(16, 2) == 0x100 && Power(16, 3) == 0x1000 && Power(16, 4) == 0x1_0000;
    Width(n, 16, 4);
  }

  /** A number below 100000 takes one to five decimal digits. */
  lemma DecWidth(n: nat)
    requires n < 100000
    ensures 1 <= |Numeral(n, 10)| <= 5
  {
    assert Power(10, 1) == 10 && Power(10, 2) == 100 && Power(10, 3) == 1000 && Power(10, 4) == 10000 && Power(10, 5) == 100000;
    Width(n, 10, 5);
  }
}
