/**
 * Origins and hosts: which spellings name the same one, and the single spelling each is stored
 * under. Addresses follow sections 3.5 and 3.6 of the WHATWG URL Standard and sections 4.1 to 4.3
 * of RFC 5952.
 */
module Scope {
  import opened Common
  import opened Text

  // ── IPv4 ──

  /** A host that is not numeric at all, one that looks numeric but is no address, or an address. */
  datatype V4 = NotNumeric | BadAddress | Address(value: nat)

  predicate HexPart(p: string) {
    |p| >= 2 && p[0] == '0' && LowerChar(p[1]) == 'x' && forall i :: 2 <= i < |p| ==> HexDigit(p[i])
  }

  predicate DecPart(p: string) {
    p != "" && forall c :: c in p ==> DecDigit(c)
  }

  predicate NumericPart(p: string) {
    HexPart(p) || DecPart(p)
  }

  function PartValue(p: string): Option<nat> {
    if !NumericPart(p) then None
    else if HexPart(p) then Some(Number(p[2..], 16))
    else if |p| > 1 && p[0] == '0' then
      if forall c :: c in p ==> '0' <= c <= '7' then Some(Number(p, 8)) else None
    else Some(Number(p, 10))
  }

  function PartValues(parts: seq<string>): (r: Option<seq<nat>>)
    ensures r.Some? ==> |r.value| == |parts|
  {
    if parts == [] then Some([])
    else
      var front, last := PartValues(parts[..|parts| - 1]), PartValue(parts[|parts| - 1]);
      if front.None? || last.None? then None else Some(front.value + [last.value])
  }

  /** A trailing dot makes no label. */
  function Labels(host: string): (labels: seq<string>)
    ensures labels != []
  {
    var parts := Split(host, '.');
    if |parts| > 1 && parts[|parts| - 1] == "" then parts[..|parts| - 1] else parts
  }

  function Pow256(k: nat): (p: nat)
    requires k <= 4
    ensures p > 0
  {
    if k == 0 then 1 else if k == 1 then 0x100 else if k == 2 then 0x1_0000 else if k == 3 then 0x100_0000 else 0x1_0000_0000
  }

  /** The leading numbers, each one byte of the address from the top. */
  function Weighed(front: seq<nat>): nat
    requires |front| <= 4
  {
    if front == [] then 0 else Weighed(front[..|front| - 1]) + front[|front| - 1] * Pow256(4 - |front|)
  }

  function Ipv4(host: string): V4 {
    var parts := Labels(host);
    if !NumericPart(parts[|parts| - 1]) then NotNumeric
    else if |parts| > 4 then BadAddress
    else
      var numbers := PartValues(parts);
      if numbers.None? then BadAddress
      else
        var front, tail := numbers.value[..|parts| - 1], numbers.value[|parts| - 1];
        if exists i :: 0 <= i < |front| && front[i] > 255 then BadAddress
        else if tail >= Pow256(4 - |front|) then BadAddress
        else Address(tail + Weighed(front))
  }

  function Octet(address: nat, k: nat): (v: nat)
    requires k <= 3
    ensures v < 256
  {
    address / Pow256(k) % 256
  }

  function Octets(address: nat): (octets: seq<string>)
    ensures |octets| == 4
  {
    [Numeral(Octet(address, 3), 10), Numeral(Octet(address, 2), 10), Numeral(Octet(address, 1), 10), Numeral(Octet(address, 0), 10)]
  }

  function Quad(address: nat): string {
    Join(Octets(address), '.')
  }

  lemma {:induction false} WeighedBound(front: seq<nat>)
    requires |front| <= 3 && forall i :: 0 <= i < |front| ==> front[i] <= 255
    ensures Weighed(front) + Pow256(4 - |front|) <= 0x1_0000_0000
  {
    if front != [] { WeighedBound(front[..|front| - 1]); }
  }

  /** What is accepted is a 32-bit address. */
  lemma Ipv4Bounded(host: string)
    ensures Ipv4(host).Address? ==> Ipv4(host).value < 0x1_0000_0000
  {
    var parts := Labels(host);
    if Ipv4(host).Address? { WeighedBound(PartValues(parts).value[..|parts| - 1]); }
  }

  lemma OctetPart(v: nat)
    requires v < 256
    ensures PartValue(Numeral(v, 10)) == Some(v) && '.' !in Numeral(v, 10) && Numeral(v, 10) != ""
  {
    NumberOfNumeral(v, 10);
    var p := Numeral(v, 10);
    assert DecPart(p);
    if |p| >= 2 {
      assert DecDigit(p[1]);
      assert p[0] != '0';
    }
  }

  lemma OctetsSum(address: nat)
    requires address < 0x1_0000_0000
    ensures Octet(address, 3) * 0x100_0000 + Octet(address, 2) * 0x1_0000 + Octet(address, 1) * 0x100 + Octet(address, 0) == address
  {
    var b, c, d := address / 0x100, address / 0x1_0000, address / 0x100_0000;
    assert b / 0x100 == c && c / 0x100 == d;
    assert d < 256;
  }

  lemma PartValuesOfFour(parts: seq<string>)
    requires |parts| == 4 && forall i :: 0 <= i < 4 ==> PartValue(parts[i]).Some?
    ensures PartValues(parts) ==
            Some([PartValue(parts[0]).value, PartValue(parts[1]).value, PartValue(parts[2]).value, PartValue(parts[3]).value])
  {
    hide PartValues, PartValue;
    PartValuesNone();
    PartValuesStep(parts, 0);
    PartValuesStep(parts, 1);
    PartValuesStep(parts, 2);
    PartValuesStep(parts, 3);
    assert parts[..4] == parts && parts[..0] == [];
    var a, b, c, d := PartValue(parts[0]).value, PartValue(parts[1]).value, PartValue(parts[2]).value, PartValue(parts[3]).value;
    assert [] + [a] == [a] && [a] + [b] == [a, b] && [a, b] + [c] == [a, b, c] && [a, b, c] + [d] == [a, b, c, d];
  }

  lemma PartValuesNone()
    ensures PartValues([]) == Some([])
  {}

  lemma PartValuesStep(parts: seq<string>, i: nat)
    requires i < |parts|
    ensures PartValues(parts[..i + 1]) ==
            if PartValues(parts[..i]).None? || PartValue(parts[i]).None? then None
            else Some(PartValues(parts[..i]).value + [PartValue(parts[i]).value])
  {
    assert parts[..i + 1][..i] == parts[..i];
  }

  /** Reading a printed address gives it back: the 32-bit value is kept, and distinct addresses print apart. */
  lemma QuadParses(address: nat)
    requires address < 0x1_0000_0000
    ensures Ipv4(Quad(address)) == Address(address)
  {
    hide PartValues, PartValue, Octet, Numeral, NumericPart, Split, Join, Weighed;
    var parts := Octets(address);
    OctetsRead(address);
    var o3, o2, o1, o0 := Octet(address, 3), Octet(address, 2), Octet(address, 1), Octet(address, 0);
    var front := [o3, o2, o1];
    assert PartValues(parts).value[..3] == front;
    WeighedThree(o3, o2, o1);
    OctetsSum(address);
  }

  lemma OctetsRead(address: nat)
    ensures var parts := Octets(address);
            && Labels(Quad(address)) == parts && NumericPart(parts[3])
            && PartValues(parts) == Some([Octet(address, 3), Octet(address, 2), Octet(address, 1), Octet(address, 0)])
  {
    hide PartValues, Octet, Numeral, Split, Join, HexPart, DecPart, Number;
    OctetPart(Octet(address, 3));
    OctetPart(Octet(address, 2));
    OctetPart(Octet(address, 1));
    OctetPart(Octet(address, 0));
    var parts := Octets(address);
    SplitJoin(parts, '.');
    PartValuesOfFour(parts);
  }

  lemma WeighedThree(a: nat, b: nat, c: nat)
    ensures Weighed([a, b, c]) == a * 0x100_0000 + b * 0x1_0000 + c * 0x100
  {
    assert [a, b, c][..2] == [a, b] && [a, b][..1] == [a] && [a][..0] == [];
    assert Weighed([a]) == a * 0x100_0000;
    assert Weighed([a, b]) == a * 0x100_0000 + b * 0x1_0000;
  }

  /** The source's own loops: read the labels left to right, then add up the bytes. */
  method ReadIpv4(host: string) returns (r: V4)
    ensures r == Ipv4(host)
  {
    hide PartValues, PartValue, Labels, NumericPart, Weighed;
    var parts := Labels(host);
    if !NumericPart(parts[|parts| - 1]) { return NotNumeric; }
    if |parts| > 4 { return BadAddress; }
    var numbers: seq<nat>, i := [], 0;
    PartValuesNone();
    assert parts[..0] == [];
    while i < |parts|
      invariant 0 <= i <= |parts| && PartValues(parts[..i]) == Some(numbers)
    {
      var value := PartValue(parts[i]);
      PartValuesStep(parts, i);
      if value.None? {
        NoValues(parts, i + 1);
        return BadAddress;
      }
      numbers, i := numbers + [value.value], i + 1;
    }
    assert parts[..i] == parts;
    var front, tail := numbers[..|numbers| - 1], numbers[|numbers| - 1];
    if exists k :: 0 <= k < |front| && front[k] > 255 { return BadAddress; }
    if tail >= Pow256(4 - |front|) { return BadAddress; }
    var address, k := tail, 0;
    WeighedStart(front);
    while k < |front|
      invariant 0 <= k <= |front| && address == tail + Weighed(front[..k])
    {
      WeighedStep(front, k);
      address := address + front[k] * Pow256(3 - k);
      k := k + 1;
    }
    assert front[..k] == front;
    r := Address(address);
  }

  lemma WeighedStart(front: seq<nat>)
    ensures Weighed(front[..0]) == 0
  {}

  lemma WeighedStep(front: seq<nat>, k: nat)
    requires k < |front| <= 3
    ensures Weighed(front[..k + 1]) == Weighed(front[..k]) + front[k] * Pow256(3 - k)
  {
    assert front[..k + 1][..k] == front[..k];
  }

  lemma {:induction false} NoValues(parts: seq<string>, i: nat)
    requires i <= |parts| && PartValues(parts[..i]).None?
    ensures PartValues(parts).None?
  {
    if i == |parts| {
      assert parts[..i] == parts;
    } else {
      assert parts[..|parts| - 1][..i] == parts[..i];
      NoValues(parts[..|parts| - 1], i);
    }
  }

  // ── IPv6 ──

  /** `toLowerCase` as far as it can reach ASCII: the letters, and the Kelvin sign. */
  function Folded(s: string): (r: string)
    ensures |r| == |s|
    ensures forall i :: 0 <= i < |s| ==> r[i] == (if s[i] == '\U{212A}' then 'k' else LowerChar(s[i]))
  {
    if s == "" then "" else [if s[0] == '\U{212A}' then 'k' else LowerChar(s[0])] + Folded(s[1..])
  }

  /** Where the text after the last colon begins. */
  function AfterColon(text: string): (k: nat)
    ensures k <= |text| && ':' !in text[k..]
    ensures k > 0 ==> text[k - 1] == ':'
  {
    if text == "" then 0
    else if text[|text| - 1] == ':' then |text|
    else
      var k := AfterColon(text[..|text| - 1]);
      assert text[k..] == text[..|text| - 1][k..] + [text[|text| - 1]];
      k
  }

  predicate Dotted(tail: string) {
    var parts := Split(tail, '.');
    |parts| == 4 && forall i :: 0 <= i < 4 ==> DecPart(parts[i])
  }

  /** A dotted-quad tail becomes its two hex groups. */
  function Unquad(text: string): Option<string> {
    var k := AfterColon(text);
    if !Dotted(text[k..]) then Some(text)
    else
      var quad := Ipv4(text[k..]);
      if quad.Address? then Some(text[..k] + Numeral(quad.value / 0x1_0000, 16) + ":" + Numeral(quad.value % 0x1_0000, 16)) else None
  }

  predicate AddressChar(c: char) {
    HexLower(c) || c == ':'
  }

  /** The index of the first double colon, or the length of the text. */
  function DoubleColon(text: string): (i: nat)
    ensures i <= |text|
    ensures i < |text| ==> i + 1 < |text| && text[i] == ':' && text[i + 1] == ':'
    ensures forall j :: 0 <= j < i && j + 1 < |text| ==> !(text[j] == ':' && text[j + 1] == ':')
  {
    if |text| < 2 then |text|
    else if text[0] == ':' && text[1] == ':' then 0
    else
      var i := 1 + DoubleColon(text[1..]);
      assert forall j :: 1 <= j < i && j + 1 < |text| ==> text[j] == text[1..][j - 1] && text[j + 1] == text[1..][j];
      i
  }

  function GroupValues(parts: seq<string>): (r: Option<seq<nat>>)
    ensures r.Some? ==> |r.value| == |parts|
  {
    if parts == [] then Some([])
    else
      var front, last := GroupValues(parts[..|parts| - 1]), parts[|parts| - 1];
      if front.None? || last == "" || |last| > 4 then None else Some(front.value + [Number(last, 16)])
  }

  /** One side of the double colon. */
  function Side(text: string): Option<seq<nat>> {
    if text == "" then Some([]) else GroupValues(Split(text, ':'))
  }

  function Zeros(n: nat): (z: seq<nat>)
    ensures |z| == n && forall i :: 0 <= i < n ==> z[i] == 0
  {
    if n == 0 then [] else Zeros(n - 1) + [0]
  }

  /** The eight groups of an address written between brackets. */
  function Ipv6(inner: string): (r: Option<seq<nat>>)
    ensures r.Some? ==> |r.value| == 8
  {
    var unquad := Unquad(Folded(inner));
    if unquad.None? then None
    else
      var text := unquad.value;
      if text == "" || exists i :: 0 <= i < |text| && !AddressChar(text[i]) then None
      else
        var d := DoubleColon(text);
        if d == |text| then
          var groups := Side(text);
          if groups.Some? && |groups.value| == 8 then groups else None
        else if DoubleColon(text[d + 2..]) < |text[d + 2..]| then None
        else
          var head, tail := Side(text[..d]), Side(text[d + 2..]);
          if head.None? || tail.None? || |head.value| + |tail.value| >= 8 then None
          else Some(head.value + Zeros(8 - |head.value| - |tail.value|) + tail.value)
  }

  // ── The run that is compressed ──

  datatype Run = Run(start: nat, length: nat)

  /** How many zero groups stand from `i` on. */
  function ZeroRun(groups: seq<nat>, i: nat): (n: nat)
    requires i <= |groups|
    ensures i + n <= |groups| && (forall k :: i <= k < i + n ==> groups[k] == 0) && (i + n < |groups| ==> groups[i + n] != 0)
    decreases |groups| - i
  {
    if i == |groups| || groups[i] != 0 then 0 else 1 + ZeroRun(groups, i + 1)
  }

  function BestFrom(groups: seq<nat>, i: nat, best: Run): Run
    requires i <= |groups|
    decreases |groups| - i
  {
    if i == |groups| then best
    else if groups[i] != 0 then BestFrom(groups, i + 1, best)
    else
      var n := ZeroRun(groups, i);
      BestFrom(groups, i + n, if n > best.length && n >= 2 then Run(i, n) else best)
  }

  /** The run to compress; length zero when there is none. */
  function BestRun(groups: seq<nat>): Run {
    BestFrom(groups, 0, Run(0, 0))
  }

  /** `best` is the first longest zero run of two or more among those starting before `i`. */
  ghost predicate FirstLongest(groups: seq<nat>, best: Run, i: nat)
    requires i <= |groups|
  {
    && (best.length == 0 ==> forall k :: 0 <= k < i ==> ZeroRun(groups, k) < 2)
    && (best.length != 0 ==>
          && best.length >= 2 && best.start < i && ZeroRun(groups, best.start) == best.length
          && (forall k :: 0 <= k < i ==> ZeroRun(groups, k) <= best.length)
          && (forall k :: 0 <= k < best.start ==> ZeroRun(groups, k) < best.length))
  }

  lemma {:induction false} WithinRun(groups: seq<nat>, i: nat, k: nat)
    requires i <= k < |groups| && k < i + ZeroRun(groups, i)
    ensures ZeroRun(groups, k) == ZeroRun(groups, i) - (k - i)
    decreases k
  {
    if k > i { WithinRun(groups, i, k - 1); }
  }

  lemma {:induction false} BestFromLongest(groups: seq<nat>, i: nat, best: Run)
    requires i <= |groups| && FirstLongest(groups, best, i)
    ensures FirstLongest(groups, BestFrom(groups, i, best), |groups|)
    decreases |groups| - i
  {
    hide FirstLongest, ZeroRun;
    if i < |groups| {
      if groups[i] != 0 {
        LongestPastGroup(groups, i, best);
        BestFromLongest(groups, i + 1, best);
      } else {
        var n := ZeroRun(groups, i);
        LongestPastRun(groups, i, best);
        BestFromLongest(groups, i + n, if n > best.length && n >= 2 then Run(i, n) else best);
      }
    }
  }

  lemma LongestPastGroup(groups: seq<nat>, i: nat, best: Run)
    requires i < |groups| && groups[i] != 0 && FirstLongest(groups, best, i)
    ensures FirstLongest(groups, best, i + 1)
  {}

  lemma LongestPastRun(groups: seq<nat>, i: nat, best: Run)
    requires i < |groups| && groups[i] == 0 && FirstLongest(groups, best, i)
    ensures var n := ZeroRun(groups, i);
            n > 0 && FirstLongest(groups, if n > best.length && n >= 2 then Run(i, n) else best, i + n)
  {
    var n := ZeroRun(groups, i);
    hide ZeroRun;
    RunStarts(groups, i);
    forall k | i <= k < i + n ensures ZeroRun(groups, k) <= n && (k > i ==> ZeroRun(groups, k) < n) { WithinRun(groups, i, k); }
  }

  lemma RunStarts(groups: seq<nat>, i: nat)
    requires i < |groups| && groups[i] == 0
    ensures ZeroRun(groups, i) > 0
  {}

  /** RFC 5952 section 4.2: the longest run of at least two zero groups, the first of them on a tie. */
  lemma BestRunIsFirstLongest(groups: seq<nat>)
    ensures FirstLongest(groups, BestRun(groups), |groups|)
  {
    BestFromLongest(groups, 0, Run(0, 0));
  }

  /** The scan as the source runs it: two nested loops over the groups. */
  method LongestZeroRun(groups: seq<nat>) returns (best: Run)
    ensures best == BestRun(groups)
    ensures FirstLongest(groups, best, |groups|)
  {
    best := Run(0, 0);
    var i := 0;
    while i < |groups|
      invariant 0 <= i <= |groups| && BestFrom(groups, i, best) == BestRun(groups)
    {
      if groups[i] != 0 {
        i := i + 1;
      } else {
        var j := i;
        while j < |groups| && groups[j] == 0
          invariant i <= j <= |groups| && ZeroRun(groups, i) == j - i + ZeroRun(groups, j)
        {
          j := j + 1;
        }
        if j - i > best.length && j - i >= 2 { best := Run(i, j - i); }
        i := j;
      }
    }
    BestRunIsFirstLongest(groups);
  }

  // ── Printing groups ──

  function Hex(groups: seq<nat>): (hex: seq<string>)
    ensures |hex| == |groups|
    ensures forall i :: 0 <= i < |groups| ==> hex[i] == Numeral(groups[i], 16)
  {
    if groups == [] then [] else Hex(groups[..|groups| - 1]) + [Numeral(groups[|groups| - 1], 16)]
  }

  function Print6(groups: seq<nat>): string {
    var best := BestRun(groups);
    if best.length == 0 || best.start + best.length > |groups| then Join(Hex(groups), ':')
    else Join(Hex(groups[..best.start]), ':') + "::" + Join(Hex(groups[best.start + best.length..]), ':')
  }

  ghost predicate Groups(groups: seq<nat>) {
    forall i :: 0 <= i < |groups| ==> groups[i] < 0x1_0000
  }

  /** No colon at either end, no two in a row. */
  ghost predicate Tight(s: string) {
    && (s != "" ==> s[0] != ':' && s[|s| - 1] != ':')
    && (forall i :: 0 <= i && i + 1 < |s| ==> !(s[i] == ':' && s[i + 1] == ':'))
  }

  lemma {:induction false} JoinTight(groups: seq<nat>)
    ensures Tight(Join(Hex(groups), ':'))
    ensures forall i :: 0 <= i < |Join(Hex(groups), ':')| ==> AddressChar(Join(Hex(groups), ':')[i])
    ensures Join(Hex(groups), ':') == "" <==> groups == []
  {
    if |groups| == 1 {
      var a := Numeral(groups[0], 16);
      assert Join(Hex(groups), ':') == a;
      assert forall i :: 0 <= i < |a| ==> a[i] in a && HexLower(a[i]);
    } else if |groups| > 1 {
      HexFirst(groups);
      JoinTight(groups[1..]);
      var a, b := Numeral(groups[0], 16), Join(Hex(groups[1..]), ':');
      assert Join(Hex(groups), ':') == a + ":" + b;
      GlueTight(a, b);
    }
  }

  lemma GlueTight(a: string, b: string)
    requires a != "" && (forall c :: c in a ==> HexLower(c)) && b != "" && Tight(b)
    ensures Tight(a + ":" + b)
  {
    var s := a + ":" + b;
    forall i | 0 <= i && i + 1 < |s| ensures !(s[i] == ':' && s[i + 1] == ':') {
      if i < |a| {
        assert s[i] == a[i] && s[i] in a;
      } else if i == |a| {
        assert s[i + 1] == b[0];
      } else {
        assert s[i] == b[i - |a| - 1] && s[i + 1] == b[i - |a|];
      }
    }
    assert s[0] == a[0] && s[0] in a;
    assert s[|s| - 1] == b[|b| - 1];
  }

  lemma {:induction false} HexFirst(groups: seq<nat>)
    requires groups != []
    ensures Hex(groups) == [Numeral(groups[0], 16)] + Hex(groups[1..])
  {
    assert |Hex(groups)| == |[Numeral(groups[0], 16)] + Hex(groups[1..])|;
  }

  lemma {:induction false} GroupValuesOfHex(groups: seq<nat>)
    requires Groups(groups)
    ensures GroupValues(Hex(groups)) == Some(groups)
  {
    hide GroupValues, Numeral, Number;
    if groups != [] {
      var front, last := groups[..|groups| - 1], groups[|groups| - 1];
      GroupValuesOfHex(front);
      HexWidth(last);
      NumberOfNumeral(last, 16);
      GroupValuesLast(Hex(front), Numeral(last, 16));
      assert groups == front + [last];
    } else {
      GroupValuesNone();
    }
  }

  lemma GroupValuesNone()
    ensures GroupValues([]) == Some([])
  {}

  lemma GroupValuesLast(front: seq<string>, last: string)
    ensures GroupValues(front + [last]) ==
            if GroupValues(front).None? || last == "" || |last| > 4 then None else Some(GroupValues(front).value + [Number(last, 16)])
  {
    hide Number;
    assert (front + [last])[..|front|] == front;
  }

  lemma SideOfHex(groups: seq<nat>)
    requires Groups(groups)
    ensures Side(Join(Hex(groups), ':')) == Some(groups)
  {
    JoinTight(groups);
    if groups != [] {
      SplitJoin(Hex(groups), ':');
      GroupValuesOfHex(groups);
    }
  }

  lemma {:induction false} FoldedSame(s: string)
    requires forall i :: 0 <= i < |s| ==> AddressChar(s[i])
    ensures Folded(s) == s
  {}

  lemma NoDotNoQuad(text: string)
    requires forall i :: 0 <= i < |text| ==> AddressChar(text[i])
    ensures Unquad(text) == Some(text)
  {
    var tail := text[AfterColon(text)..];
    assert '.' !in tail;
    SplitFirst(tail, "", '.');
  }

  /** The first double colon of a text glued with one. */
  lemma DoubleColonGlued(a: string, b: string)
    requires Tight(a) && Tight(b)
    ensures DoubleColon(a + "::" + b) == |a| && DoubleColon(a) == |a| && DoubleColon(b) == |b|
  {
    var s := a + "::" + b;
    var d := DoubleColon(s);
    assert s[|a|] == ':' && s[|a| + 1] == ':';
    forall j | 0 <= j < |a| ensures !(s[j] == ':' && s[j + 1] == ':') {
      assert s[j] == a[j];
      if j + 1 < |a| { assert s[j + 1] == a[j + 1]; }
    }
  }

  /** Reading a printed address gives its groups back. */
  lemma Print6Parses(groups: seq<nat>)
    requires |groups| == 8 && Groups(groups)
    ensures Ipv6(Print6(groups)) == Some(groups)
    ensures forall i :: 0 <= i < |Print6(groups)| ==> AddressChar(Print6(groups)[i])
  {
    hide Ipv6, Join, Hex, BestRun, ZeroRun, Groups;
    BestRunIsFirstLongest(groups);
    var best := BestRun(groups);
    if best.length == 0 {
      PlainParses(groups);
    } else {
      CompressedParses(groups, best.start, best.length);
    }
  }

  lemma PlainParses(groups: seq<nat>)
    requires |groups| == 8 && Groups(groups)
    ensures var text := Join(Hex(groups), ':');
            Ipv6(text) == Some(groups) && forall i :: 0 <= i < |text| ==> AddressChar(text[i])
  {
    var text := Join(Hex(groups), ':');
    JoinTight(groups);
    FoldedSame(text);
    NoDotNoQuad(text);
    DoubleColonGlued(text, "");
    SideOfHex(groups);
  }

  lemma CompressedParses(groups: seq<nat>, start: nat, length: nat)
    requires |groups| == 8 && Groups(groups) && length >= 1 && start + length <= 8
    requires forall k :: start <= k < start + length ==> groups[k] == 0
    ensures var text := Join(Hex(groups[..start]), ':') + "::" + Join(Hex(groups[start + length..]), ':');
            Ipv6(text) == Some(groups) && forall i :: 0 <= i < |text| ==> AddressChar(text[i])
  {
    hide Hex, Join, Tight, Side, DoubleColon, Unquad, Folded;
    var front, back := groups[..start], groups[start + length..];
    var a, b := Join(Hex(front), ':'), Join(Hex(back), ':');
    var text := a + "::" + b;
    JoinTight(front);
    JoinTight(back);
    GluedChars(a, b);
    FoldedSame(text);
    NoDotNoQuad(text);
    DoubleColonGlued(a, b);
    assert text[..|a|] == a && text[|a| + 2..] == b;
    SideOfHex(front);
    SideOfHex(back);
    assert groups == front + Zeros(8 - |front| - |back|) + back;
  }

  lemma GluedChars(a: string, b: string)
    requires forall i :: 0 <= i < |a| ==> AddressChar(a[i])
    requires forall i :: 0 <= i < |b| ==> AddressChar(b[i])
    ensures forall i :: 0 <= i < |a + "::" + b| ==> AddressChar((a + "::" + b)[i])
  {
    var text := a + "::" + b;
    forall i | 0 <= i < |text| ensures AddressChar(text[i]) {
      if i < |a| { assert text[i] == a[i]; } else if i >= |a| + 2 { assert text[i] == b[i - |a| - 2]; }
    }
  }
}
