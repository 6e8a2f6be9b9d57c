/**
 * What canonical origins are, spelt out: the default ports, the schemes, letter case, the spellings
 * of an address, and the labels an origin reads under.
 */
module OriginLaws {
  import opened Common
  import opened Text
  import opened Scope
  import opened Origin

  /** A scheme, a printed host and the text after it: what parsing makes of them. */
  lemma Reads(scheme: string, host: Host, port: string, ports: Ports)
    requires GoodPorts(ports) && scheme in ports && GoodHost(host)
    requires (port != "" ==> port[0] == ':') && forall i :: 0 <= i < |port| ==> Plain(port[i])
    ensures var number := PortOf(if port == "" then None else Some(port[1..]), ports[scheme]);
            Parse(scheme + "://" + HostText(host) + port, ports) ==
            if number.None? then None else Some(Site(scheme, host, number.value))
  {
    hide HostText, HostOf, GoodHost, PortOf, EndsOf, ShapeOf, Lower;
    HostReads(host);
    EndsRead(host, port);
    var authority := HostText(host) + port;
    assert scheme + "://" + HostText(host) + port == scheme + "://" + authority;
    ShapeReads(scheme, authority, ports);
  }

  /** The four schemes that have a default port, each in its own table. */
  ghost predicate DefaultOf(scheme: string, ports: Ports, default: nat) {
    || (ports == HTTP_PORTS && ((scheme == "http" && default == 80) || (scheme == "https" && default == 443)))
    || (ports == WEB_SOCKET_PORTS && ((scheme == "ws" && default == 80) || (scheme == "wss" && default == 443)))
  }

  lemma SchemeReads(scheme: string, host: Host, port: string, ports: Ports, default: nat)
    requires DefaultOf(scheme, ports, default) && GoodHost(host)
    requires (port != "" ==> port[0] == ':') && forall i :: 0 <= i < |port| ==> Plain(port[i])
    ensures var number := PortOf(if port == "" then None else Some(port[1..]), default);
            Canonical(scheme + "://" + HostText(host) + port, ports) ==
            if number.None? then None
            else Some(scheme + "://" + HostText(host) + if number.value == default then "" else ":" + Numeral(number.value, 10))
  {
    BothTablesGood();
    DefaultIs(scheme, ports, default);
    hide HostText, GoodHost, PortOf, Parse, DefaultOf, Numeral, GoodPorts, HTTP_PORTS, WEB_SOCKET_PORTS, Show, Plain;
    Reads(scheme, host, port, ports);
    var value := scheme + "://" + HostText(host) + port;
    if Parse(value, ports).Some? { ShowsAs(Parse(value, ports).value, ports, default); }
  }

  lemma ShowsAs(site: Site, ports: Ports, default: nat)
    requires site.scheme in ports && ports[site.scheme] == default
    ensures Show(site, ports) == site.scheme + "://" + HostText(site.host) + if site.port == default then "" else ":" + Numeral(site.port, 10)
  {}

  lemma DefaultIs(scheme: string, ports: Ports, default: nat)
    requires DefaultOf(scheme, ports, default)
    ensures scheme in ports && ports[scheme] == default && GoodPorts(ports)
  {
    BothTablesGood();
  }

  /**
   * The text after a host's colon, whatever it is. One to five decimal digits that make no more than
   * 65535 are its port: the scheme's default is dropped, any other is written without leading
   * zeros. Everything else is refused.
   */
  lemma AfterTheColon(scheme: string, host: Host, port: string, ports: Ports, default: nat)
    requires DefaultOf(scheme, ports, default)
    requires GoodHost(host)
    ensures var good := 1 <= |port| <= 5 && (forall i :: 0 <= i < |port| ==> '0' <= port[i] <= '9') && Number(port, 10) <= 65535;
            Canonical(scheme + "://" + HostText(host) + ":" + port, ports) ==
            if good then Some(scheme + "://" + HostText(host) + if Number(port, 10) == default then "" else ":" + Numeral(Number(port, 10), 10))
            else None
  {
    hide HostText, GoodHost, Canonical, Number, Numeral, DefaultOf, Plain;
    var text := ":" + port;
    var value := scheme + "://" + HostText(host) + text;
    assert value == scheme + "://" + HostText(host) + ":" + port;
    if forall i :: 0 <= i < |text| ==> Plain(text[i]) {
      SchemeReads(scheme, host, text, ports, default);
      assert text[1..] == port;
      DigitsOnly(port);
    } else {
      var i :| 0 <= i < |text| && !Plain(text[i]);
      StrayRefused(scheme, HostText(host), port, i, ports, default);
    }
  }

  lemma StrayRefused(scheme: string, host: string, port: string, i: nat, ports: Ports, default: nat)
    requires DefaultOf(scheme, ports, default) && i < |":" + port| && !Plain((":" + port)[i])
    ensures Canonical(scheme + "://" + host + ":" + port, ports) == None
    ensures exists k :: 0 <= k < |port| && !('0' <= port[k] <= '9')
  {
    hide Canonical;
    var text := ":" + port;
    assert port[i - 1] == text[i];
    NotPlainRefused(scheme, host + text, |host| + i, ports);
    assert scheme + "://" + host + ":" + port == scheme + "://" + (host + text);
  }

  lemma DigitsOnly(port: string)
    ensures DecPart(port) <==> port != "" && forall i :: 0 <= i < |port| ==> '0' <= port[i] <= '9'
  {
    if DecPart(port) {
      forall i | 0 <= i < |port| ensures '0' <= port[i] <= '9' { assert DecDigit(port[i]); }
    }
  }

  /** Credentials, a path, a query or a fragment: refused whatever the rest is. */
  lemma NotPlainRefused(scheme: string, authority: string, i: nat, ports: Ports)
    requires ':' !in scheme && i < |authority| && authority[i] in "/?#@"
    ensures Canonical(scheme + "://" + authority, ports) == None
  {
    var value := scheme + "://" + authority;
    assert value == scheme + [':'] + ("//" + authority);
    IndexOfFirst(scheme, ':', "//" + authority);
    assert value[|scheme| + 3..] == authority;
  }

  /** A host alone, its default port written out, and the other scheme's default port. */
  lemma DefaultPorts(host: Host)
    requires GoodHost(host)
    ensures var h := HostText(host);
            && Canonical("https://" + h + ":443", HTTP_PORTS) == Canonical("https://" + h, HTTP_PORTS) == Some("https://" + h)
            && Canonical("https://" + h + ":80", HTTP_PORTS) == Some("https://" + h + ":80")
            && Canonical("http://" + h + ":80", HTTP_PORTS) == Canonical("http://" + h, HTTP_PORTS) == Some("http://" + h)
            && Canonical("http://" + h + ":443", HTTP_PORTS) == Some("http://" + h + ":443")
            && Canonical("wss://" + h + ":443", WEB_SOCKET_PORTS) == Canonical("wss://" + h, WEB_SOCKET_PORTS) == Some("wss://" + h)
            && Canonical("wss://" + h + ":80", WEB_SOCKET_PORTS) == Some("wss://" + h + ":80")
            && Canonical("ws://" + h + ":80", WEB_SOCKET_PORTS) == Canonical("ws://" + h, WEB_SOCKET_PORTS) == Some("ws://" + h)
            && Canonical("ws://" + h + ":443", WEB_SOCKET_PORTS) == Some("ws://" + h + ":443")
  {
    hide HostText, GoodHost, Canonical, Number, Numeral;
    DefaultNumerals();
    Glued();
    AfterTheColon("https", host, "443", HTTP_PORTS, 443);
    AfterTheColon("https", host, "80", HTTP_PORTS, 443);
    AfterTheColon("http", host, "443", HTTP_PORTS, 80);
    AfterTheColon("http", host, "80", HTTP_PORTS, 80);
    AfterTheColon("wss", host, "443", WEB_SOCKET_PORTS, 443);
    AfterTheColon("wss", host, "80", WEB_SOCKET_PORTS, 443);
    AfterTheColon("ws", host, "443", WEB_SOCKET_PORTS, 80);
    AfterTheColon("ws", host, "80", WEB_SOCKET_PORTS, 80);
    Glue(HostText(host));
    NoPortText("https", host, HTTP_PORTS, 443);
    NoPortText("http", host, HTTP_PORTS, 80);
    NoPortText("wss", host, WEB_SOCKET_PORTS, 443);
    NoPortText("ws", host, WEB_SOCKET_PORTS, 80);
  }

  lemma Glued()
    ensures "https" + "://" == "https://" && "http" + "://" == "http://"
    ensures "wss" + "://" == "wss://" && "ws" + "://" == "ws://"
    ensures ":" + "443" == ":443" && ":" + "80" == ":80"
  {}

  lemma Glue(h: string)
    ensures forall s: string {:trigger s + h + ":"} :: s + h + ":" + "443" == s + h + ":443" && s + h + ":" + "80" == s + h + ":80"
    ensures forall s: string {:trigger s + h} :: s + h + "" == s + h
  {
    forall s: string ensures s + h + ":" + "443" == s + h + ":443" && s + h + ":" + "80" == s + h + ":80" {
      assert s + h + ":" + "443" == s + h + (":" + "443") && s + h + ":" + "80" == s + h + (":" + "80");
    }
  }

  lemma NoPortText(scheme: string, host: Host, ports: Ports, default: nat)
    requires DefaultOf(scheme, ports, default)
    requires GoodHost(host)
    ensures Canonical(scheme + "://" + HostText(host), ports) == Some(scheme + "://" + HostText(host))
  {
    hide HostText, GoodHost, Canonical;
    SchemeReads(scheme, host, "", ports, default);
    assert scheme + "://" + HostText(host) + "" == scheme + "://" + HostText(host);
  }

  lemma DefaultNumerals()
    ensures Number("443", 10) == 443 && Number("80", 10) == 80
    ensures Numeral(443, 10) == "443" && Numeral(80, 10) == "80"
  {
    assert "443"[..2] == "44" && "44"[..1] == "4" && "4"[..0] == "" && "80"[..1] == "8" && "8"[..0] == "";
    assert Numeral(4, 10) == "4" && Numeral(44, 10) == "44" && Numeral(8, 10) == "8";
  }

  /** Every port up to 65535 that is not the scheme's own default is kept, in decimal. */
  lemma OtherPortsStay(scheme: string, host: Host, port: nat, ports: Ports, default: nat)
    requires DefaultOf(scheme, ports, default) && GoodHost(host) && port <= 65535 && port != default
    ensures var value := scheme + "://" + HostText(host) + ":" + Numeral(port, 10);
            Canonical(value, ports) == Some(value)
  {
    hide HostText, GoodHost, Canonical, Number, Numeral;
    DecWidth(port);
    NumberOfNumeral(port, 10);
    var digits := Numeral(port, 10);
    forall i | 0 <= i < |digits| ensures '0' <= digits[i] <= '9' { assert digits[i] in digits; assert DecDigit(digits[i]); }
    AfterTheColon(scheme, host, digits, ports, default);
    var origin := scheme + "://" + HostText(host);
    assert origin + (":" + digits) == origin + ":" + digits;
  }

  /** A printed number: no leading zero, and each digit worth ten times the next. */
  lemma DecimalIsPositional(n: nat)
    ensures n < 10 ==> Numeral(n, 10) == [('0' as int + n) as char]
    ensures n >= 10 ==> Numeral(n, 10) == Numeral(n / 10, 10) + [('0' as int + n % 10) as char]
  {}

  // ── Schemes, letter case and labels ──

  /** What is accepted names http or https in some letter case, or the one inherited scheme, and says so in its canonical form. */
  lemma OnlyTheseSchemes(scheme: string, rest: string)
    requires ':' !in scheme && Canonical(scheme + ":" + rest, HTTP_PORTS).Some?
    ensures Lower(scheme) in {"http", "https", "constructor"} && "//" <= rest
    ensures Lower(scheme) + "://" <= Canonical(scheme + ":" + rest, HTTP_PORTS).value
  {
    var value := scheme + ":" + rest;
    IndexOfFirst(scheme, ':', rest);
    assert value == scheme + [':'] + rest && value[..|scheme|] == scheme;
    assert rest[..2] == "//" by { assert rest[0] == value[|scheme| + 1] && rest[1] == value[|scheme| + 2]; }
    hide HostText, EndsOf, HostOf, PortOf, PortText;
    var site := Parse(value, HTTP_PORTS).value;
    assert site.scheme == Lower(scheme);
  }

  /** Letter case never matters. */
  lemma CaseDoesNotMatter(value: string, ports: Ports)
    ensures Canonical(Lower(value), ports) == Canonical(value, ports)
  {
    hide Show, EndsOf, HostOf, PortOf, Lower;
    ShapeInLower(value);
    if ShapeOf(value).Some? {
      var shape := ShapeOf(value).value;
      LowerTwice(shape.scheme);
      LowerHas(shape.authority, '@');
      EndsInLower(shape.authority);
      var ends := EndsOf(shape.authority);
      if ends.Some? {
        HostInLower(ends.value.host);
        if ends.value.port.Some? && Lower(shape.scheme) in ports { PortInLower(ends.value.port.value, ports[Lower(shape.scheme)]); }
      }
    }
  }

  lemma LowerTwice(s: string)
    ensures Lower(Lower(s)) == Lower(s)
  {}

  lemma LowerHas(s: string, c: char)
    requires !('A' <= c <= 'Z') && !('a' <= c <= 'z')
    ensures c in Lower(s) <==> c in s
    ensures IndexOf(Lower(s), c) == IndexOf(s, c)
  {
    if c in s {
      var i :| 0 <= i < |s| && s[i] == c;
      assert Lower(s)[i] == c;
    }
    var i, j := IndexOf(Lower(s), c), IndexOf(s, c);
    assert forall k :: 0 <= k < |s| ==> (Lower(s)[k] == c <==> s[k] == c);
    assert i == |s| || Lower(s)[i] == c;
    assert j == |s| || s[j] == c;
  }

  lemma LowerParts(s: string, i: nat)
    requires i <= |s|
    ensures Lower(s)[..i] == Lower(s[..i]) && Lower(s)[i..] == Lower(s[i..])
  {}

  lemma ShapeInLower(value: string)
    ensures ShapeOf(Lower(value)) ==
            if ShapeOf(value).None? then None
            else Some(Shape(Lower(ShapeOf(value).value.scheme), Lower(ShapeOf(value).value.authority)))
  {
    hide Lower, IndexOf;
    LowerHas(value, ':');
    var i := IndexOf(value, ':');
    if i + 3 <= |value| {
      LowerParts(value, i);
      LowerParts(value, i + 3);
      var scheme, authority := value[..i], value[i + 3..];
      forall k | 0 <= k < |scheme| ensures SchemeChar(Lower(scheme)[k]) <==> SchemeChar(scheme[k]) {}
      LowerHas(authority, '/');
      LowerHas(authority, '?');
      LowerHas(authority, '#');
    }
  }

  lemma EndsInLower(authority: string)
    ensures EndsOf(Lower(authority)) ==
            if EndsOf(authority).None? then None
            else Some(Ends(Lower(EndsOf(authority).value.host),
                           if EndsOf(authority).value.port.None? then None else Some(Lower(EndsOf(authority).value.port.value))))
  {
    hide Lower, IndexOf;
    LowerHas(authority, ']');
    LowerHas(authority, ':');
    var close, colon := IndexOf(authority, ']'), IndexOf(authority, ':');
    if close < |authority| {
      LowerParts(authority, close + 1);
      var rest := authority[close + 1..];
      if rest != "" { LowerParts(rest, 1); }
    }
    LowerParts(authority, colon);
    if colon < |authority| { LowerParts(authority, colon + 1); }
  }

  lemma HostInLower(text: string)
    ensures HostOf(Lower(text)) == HostOf(text)
  {
    hide Ipv4, Domain;
    FoldedOfLower(text);
    if |text| >= 2 {
      var inner := text[1..|text| - 1];
      assert Lower(text)[1..|text| - 1] == Lower(inner);
      FoldedOfLower(inner);
      BracketsInLower(inner);
    }
  }

  lemma BracketsInLower(inner: string)
    requires Folded(Lower(inner)) == Folded(inner)
    ensures Ipv6(Lower(inner)) == Ipv6(inner)
  {
    hide Unquad, Side, DoubleColon, Folded, Lower;
  }

  lemma FoldedOfLower(s: string)
    ensures Folded(Lower(s)) == Folded(s)
  {}

  lemma PortInLower(digits: string, default: nat)
    ensures PortOf(Some(Lower(digits)), default) == PortOf(Some(digits), default)
  {
    hide Number;
    DigitsOnly(digits);
    DigitsOnly(Lower(digits));
    if DecPart(digits) { assert Lower(digits) == digits; }
    if DecPart(Lower(digits)) {
      forall i | 0 <= i < |digits| ensures '0' <= digits[i] <= '9' { assert '0' <= Lower(digits)[i] <= '9'; }
    }
  }

  /** An origin reads under its canonical form and then its bare host; a relay's origin only under itself. */
  lemma OriginLabels(scheme: string, host: Host, port: nat, default: nat)
    requires DefaultOf(scheme, HTTP_PORTS, default) && GoodHost(host) && port <= 65535
    ensures var bare := scheme + "://" + HostText(host);
            var full := bare + ":" + Numeral(port, 10);
            && SiteScopes(bare) == [bare, HostText(host)]
            && SiteScopes(full) == [if port == default then bare else full, HostText(host)]
  {
    hide HostText, GoodHost, Canonical, Number, Numeral, HostnameOf;
    var bare := scheme + "://" + HostText(host);
    NoPortText(scheme, host, HTTP_PORTS, default);
    HostnameIs(scheme, host, default, default);
    assert bare + "" == bare;
    if port == default {
      DefaultNumerals();
      Glued();
      AfterTheColon(scheme, host, Numeral(port, 10), HTTP_PORTS, default);
    } else {
      OtherPortsStay(scheme, host, port, HTTP_PORTS, default);
      HostnameIs(scheme, host, port, default);
      assert bare + (":" + Numeral(port, 10)) == bare + ":" + Numeral(port, 10);
    }
  }

  lemma HostnameIs(scheme: string, host: Host, port: nat, default: nat)
    requires DefaultOf(scheme, HTTP_PORTS, default) && GoodHost(host) && port <= 65535
    ensures HostnameOf(scheme + "://" + HostText(host) + if port == default then "" else ":" + Numeral(port, 10)) == HostText(host)
  {
    hide HostText, GoodHost, Numeral, HostnameOf;
    HostnameOfShow(Site(scheme, host, port));
    ShowsAs(Site(scheme, host, port), HTTP_PORTS, default);
  }

  lemma RelayLabel(scheme: string, rest: string)
    requires scheme in {"ws", "wss"}
    ensures SiteScopes(scheme + ":" + rest) == [scheme + ":" + rest]
  {
    var value := scheme + ":" + rest;
    if Canonical(value, HTTP_PORTS).Some? {
      OnlyTheseSchemes(scheme, rest);
      assert false;
    }
  }

  // ── The spellings of an address ──

  function Octal(v: nat): (s: string)
    ensures s != "" && forall c :: c in s ==> '0' <= c <= '7'
  {
    if v < 8 then [('0' as int + v) as char] else Octal(v / 8) + [('0' as int + v % 8) as char]
  }

  /** Decimal, hexadecimal after `0x`, or octal after `0`. */
  ghost predicate Spelt(p: string, v: nat) {
    p == Numeral(v, 10) || p == "0x" + Numeral(v, 16) || p == "0" + Octal(v)
  }

  lemma {:induction false} NumberOfOctal(v: nat)
    ensures Number(Octal(v), 8) == Number("0" + Octal(v), 8) == v
  {
    var p := "0" + Octal(v);
    if v < 8 {
      NumberLast("", Octal(v)[0], 8);
      NumberLast("", '0', 8);
      NumberLast("0", Octal(v)[0], 8);
      assert p == "0" + [Octal(v)[0]] && "" + "0" == "0" && "" + [Octal(v)[0]] == Octal(v);
    } else {
      NumberOfOctal(v / 8);
      var last := ('0' as int + v % 8) as char;
      NumberLast(Octal(v / 8), last, 8);
      NumberLast("0" + Octal(v / 8), last, 8);
      assert p == "0" + Octal(v / 8) + [last];
    }
  }

  lemma SpeltReads(p: string, v: nat)
    requires Spelt(p, v)
    ensures PartValue(p) == Some(v) && NumericPart(p) && '.' !in p && p != ""
    ensures forall i :: 0 <= i < |p| ==> LabelChar(p[i])
  {
    hide Numeral, Octal, Number;
    NumberOfNumeral(v, 10);
    NumberOfNumeral(v, 16);
    NumberOfOctal(v);
    if p == Numeral(v, 10) {
      forall i | 0 <= i < |p| ensures DecDigit(p[i]) { assert p[i] in p; }
      assert DecPart(p);
      assert !HexPart(p);
      if v == 0 { ZeroNumeral(); }
      assert PartValue(p) == Some(Number(p, 10));
    } else if p == "0x" + Numeral(v, 16) {
      assert p[2..] == Numeral(v, 16);
      forall i | 2 <= i < |p| ensures HexLower(p[i]) { assert p[i] == Numeral(v, 16)[i - 2]; }
      assert HexPart(p);
    } else {
      var digits := Octal(v);
      forall i | 0 <= i < |p| ensures '0' <= p[i] <= '7' {
        if i > 0 { assert p[i] == digits[i - 1] && digits[i - 1] in digits; }
      }
      assert DecPart(p);
      assert !HexPart(p);
    }
  }

  lemma ZeroNumeral()
    ensures Numeral(0, 10) == "0"
  {}

  lemma {:induction false} SpeltValues(parts: seq<string>, values: seq<nat>)
    requires |parts| == |values| && forall i :: 0 <= i < |parts| ==> Spelt(parts[i], values[i])
    ensures PartValues(parts) == Some(values)
  {
    hide Spelt, PartValue;
    if parts != [] {
      SpeltValues(parts[..|parts| - 1], values[..|values| - 1]);
      SpeltReads(parts[|parts| - 1], values[|values| - 1]);
      assert values == values[..|values| - 1] + [values[|values| - 1]];
    }
  }

  /** The address that one to four numbers name: the last fills what the bytes before it leave. */
  ghost function Named(values: seq<nat>): Option<nat>
    requires 1 <= |values| <= 4
  {
    if exists i :: 0 <= i < |values| - 1 && values[i] > 255 then None
    else if |values| == 1 then (if values[0] < 0x1_0000_0000 then Some(values[0]) else None)
    else if |values| == 2 then (if values[1] < 0x100_0000 then Some(values[0] * 0x100_0000 + values[1]) else None)
    else if |values| == 3 then (if values[2] < 0x1_0000 then Some(values[0] * 0x100_0000 + values[1] * 0x1_0000 + values[2]) else None)
    else (if values[3] < 0x100 then Some(values[0] * 0x100_0000 + values[1] * 0x1_0000 + values[2] * 0x100 + values[3]) else None)
  }

  lemma WeighedAll(values: seq<nat>)
    requires 1 <= |values| <= 4
    ensures Weighed(values[..|values| - 1]) ==
            (if |values| > 1 then values[0] * 0x100_0000 else 0) + (if |values| > 2 then values[1] * 0x1_0000 else 0)
            + (if |values| > 3 then values[2] * 0x100 else 0)
  {
    var front := values[..|values| - 1];
    assert front[..0] == [];
    if |front| > 0 { assert front[..1][..0] == []; assert Weighed(front[..1]) == front[0] * 0x100_0000; assert front[..1] == front || |front| > 1; }
    if |front| > 1 { assert front[..2][..1] == front[..1]; assert Weighed(front[..2]) == front[0] * 0x100_0000 + front[1] * 0x1_0000; assert front[..2] == front || |front| > 2; }
    if |front| > 2 { assert front[..3] == front && front[..3][..2] == front[..2]; }
  }

  /** Every way to spell the numbers of an address reads as the address they name, or is refused when they name none. */
  lemma AddressSpellings(parts: seq<string>, values: seq<nat>)
    requires 1 <= |parts| == |values| <= 4 && forall i :: 0 <= i < |parts| ==> Spelt(parts[i], values[i])
    ensures Ipv4(Join(parts, '.')) == (if Named(values).Some? then Address(Named(values).value) else BadAddress)
  {
    hide PartValue, PartValues, NumericPart, Weighed, Spelt, Split;
    forall i | 0 <= i < |parts| ensures '.' !in parts[i] && parts[i] != "" && NumericPart(parts[i]) { SpeltReads(parts[i], values[i]); }
    SplitJoin(parts, '.');
    assert Labels(Join(parts, '.')) == parts;
    SpeltValues(parts, values);
    WeighedAll(values);
    var front := values[..|values| - 1];
    assert forall i :: 0 <= i < |front| ==> front[i] == values[i];
    assert (exists i :: 0 <= i < |front| && front[i] > 255) <==> exists i :: 0 <= i < |values| - 1 && values[i] > 255;
  }

  /** The same for an origin: its canonical form has the four bytes in decimal. */
  lemma AddressOrigins(parts: seq<string>, values: seq<nat>)
    requires 1 <= |parts| == |values| <= 4 && forall i :: 0 <= i < |parts| ==> Spelt(parts[i], values[i])
    ensures Canonical("https://" + Join(parts, '.'), HTTP_PORTS) ==
            if Named(values).None? then None
            else
              var a := Named(values).value;
              Some("https://" + Numeral(a / 0x100_0000 % 0x100, 10) + "." + Numeral(a / 0x1_0000 % 0x100, 10) + "."
                   + Numeral(a / 0x100 % 0x100, 10) + "." + Numeral(a % 0x100, 10))
  {
    hide Ipv4, Numeral, Named, Spelt, Join, Parse, Show;
    AddressSpellings(parts, values);
    var text := Join(parts, '.');
    SpeltDomain(parts, values);
    NumericHost(text);
    if Named(values).Some? { QuadIs("https://", Named(values).value); }
  }

  lemma QuadIs(prefix: string, a: nat)
    ensures prefix + Quad(a) ==
            prefix + Numeral(a / 0x100_0000 % 0x100, 10) + "." + Numeral(a / 0x1_0000 % 0x100, 10) + "."
            + Numeral(a / 0x100 % 0x100, 10) + "." + Numeral(a % 0x100, 10)
  {
    hide Numeral;
    var d, c, b, z := Numeral(a / 0x100_0000 % 0x100, 10), Numeral(a / 0x1_0000 % 0x100, 10), Numeral(a / 0x100 % 0x100, 10), Numeral(a % 0x100, 10);
    var parts := Octets(a);
    assert parts == [d, c, b, z];
    assert parts[1..] == [c, b, z] && [c, b, z][1..] == [b, z] && [b, z][1..] == [z];
    assert Join([b, z], '.') == b + ['.'] + z;
    assert Join([c, b, z], '.') == c + ['.'] + (b + ['.'] + z);
    assert Join(parts, '.') == d + ['.'] + (c + ['.'] + (b + ['.'] + z));
  }

  lemma SpeltDomain(parts: seq<string>, values: seq<nat>)
    requires 1 <= |parts| == |values| <= 4 && forall i :: 0 <= i < |parts| ==> Spelt(parts[i], values[i])
    ensures Domain(Join(parts, '.')) && Folded(Join(parts, '.')) == Join(parts, '.')
  {
    hide Spelt, Join, Split, Folded;
    forall i | 0 <= i < |parts| ensures '.' !in parts[i] && Label(parts[i]) { SpeltReads(parts[i], values[i]); }
    SplitJoin(parts, '.');
    var text := Join(parts, '.');
    assert Labels(text) == parts;
    DomainChars(text);
    LowHost(text);
  }

  lemma LowHost(text: string)
    requires forall i :: 0 <= i < |text| ==> HostChar(text[i])
    ensures Folded(text) == text
  {
    forall i | 0 <= i < |text| ensures Folded(text)[i] == text[i] { assert HostChar(text[i]); }
  }

  lemma NumericHost(text: string)
    requires Domain(text) && Folded(text) == text && !Ipv4(text).NotNumeric?
    ensures Canonical("https://" + text, HTTP_PORTS) == if Ipv4(text).Address? then Some("https://" + Quad(Ipv4(text).value)) else None
  {
    hide Ipv4, Domain, Folded, Quad, EndsOf, HostOf, Plain, Parse, Show;
    NameReads(text);
    PlainEnds(text);
    NumericHostOf(text);
    BareHost(text);
    if Ipv4(text).Address? {
      var quad := Quad(Ipv4(text).value);
      ShowsAs(Site("https", V4Host(Ipv4(text).value), 443), HTTP_PORTS, 443);
      assert "https" + "://" + quad + "" == "https://" + quad;
    }
  }

  lemma BareHost(text: string)
    requires EndsOf(text) == Some(Ends(text, None)) && forall i :: 0 <= i < |text| ==> Plain(text[i])
    ensures Parse("https://" + text, HTTP_PORTS) == if HostOf(text).None? then None else Some(Site("https", HostOf(text).value, 443))
  {
    hide EndsOf, HostOf, HTTP_PORTS, GoodPorts, Parse, Plain;
    DefaultIs("https", HTTP_PORTS, 443);
    ParsesBare("https", text, HTTP_PORTS);
    assert "https" + "://" + text == "https://" + text;
  }

  lemma ParsesBare(scheme: string, text: string, ports: Ports)
    requires GoodPorts(ports) && scheme in ports
    requires EndsOf(text) == Some(Ends(text, None)) && forall i :: 0 <= i < |text| ==> Plain(text[i])
    ensures Parse(scheme + "://" + text, ports) == if HostOf(text).None? then None else Some(Site(scheme, HostOf(text).value, ports[scheme]))
  {
    hide EndsOf, HostOf, GoodPorts, Lower, ShapeOf, Plain;
    ShapeReads(scheme, text, ports);
    NoAt(text);
  }

  lemma NoAt(text: string)
    requires forall i :: 0 <= i < |text| ==> Plain(text[i])
    ensures '@' !in text
  {}

  lemma NumericHostOf(text: string)
    requires Domain(text) && Folded(text) == text && !Ipv4(text).NotNumeric? && text != "" && text[0] != '['
    ensures HostOf(text) == if Ipv4(text).Address? then Some(V4Host(Ipv4(text).value)) else None
  {
    hide Ipv4, Domain, Folded;
  }

  lemma PlainEnds(text: string)
    requires (text == "" || text[0] != '[') && ':' !in text
    ensures EndsOf(text) == Some(Ends(text, None))
  {
    IndexOfFirst(text, ':', "");
    assert text[..|text|] == text;
  }

  /** A dotted quad at the end of a bracketed address stands for its two groups. */
  lemma DottedTail(head: string, address: nat)
    requires address < 0x1_0000_0000 && forall i :: 0 <= i < |head| ==> AddressChar(head[i])
    ensures Ipv6(head + ":" + Quad(address)) ==
            Ipv6(head + ":" + Numeral(address / 0x1_0000, 16) + ":" + Numeral(address % 0x1_0000, 16))
  {
    hide Ipv4, Quad, Numeral, Side, DoubleColon, Folded, Unquad, AfterColon;
    var a, b := head + ":" + Quad(address), head + ":" + Numeral(address / 0x1_0000, 16) + ":" + Numeral(address % 0x1_0000, 16);
    QuadTail(head, address);
    HexTail(head, address / 0x1_0000, address % 0x1_0000);
    assert Unquad(Folded(a)) == Some(b) == Unquad(Folded(b));
    SameUnquad(a, b);
  }

  lemma SameUnquad(a: string, b: string)
    requires Unquad(Folded(a)) == Unquad(Folded(b))
    ensures Ipv6(a) == Ipv6(b)
  {
    hide Unquad, Side, DoubleColon, Folded;
  }

  lemma HexTail(head: string, high: nat, low: nat)
    requires forall i :: 0 <= i < |head| ==> AddressChar(head[i])
    ensures var b := head + ":" + Numeral(high, 16) + ":" + Numeral(low, 16); Unquad(Folded(b)) == Some(b)
  {
    hide Unquad, Folded, Numeral;
    var h, l := Numeral(high, 16), Numeral(low, 16);
    var b := head + ":" + h + ":" + l;
    forall i | 0 <= i < |b| ensures AddressChar(b[i]) {
      if i < |head| { assert b[i] == head[i]; }
      else if |head| < i < |head| + 1 + |h| { assert b[i] == h[i - |head| - 1]; }
      else if i > |head| + 1 + |h| { assert b[i] == l[i - |head| - |h| - 2]; }
    }
    FoldedSame(b);
    NoDotNoQuad(b);
  }

  lemma QuadTail(head: string, address: nat)
    requires address < 0x1_0000_0000 && forall i :: 0 <= i < |head| ==> AddressChar(head[i])
    ensures Unquad(Folded(head + ":" + Quad(address))) ==
            Some(head + ":" + Numeral(address / 0x1_0000, 16) + ":" + Numeral(address % 0x1_0000, 16))
  {
    hide Ipv4, Quad, Numeral, Folded, Dotted, AfterColon;
    QuadDotted(address);
    QuadParses(address);
    TailStart(head, Quad(address));
    TailFolded(head, Quad(address));
  }

  lemma TailStart(head: string, quad: string)
    requires ':' !in quad
    ensures var a := head + ":" + quad; AfterColon(a) == |head| + 1 && a[|head| + 1..] == quad && a[..|head| + 1] == head + ":"
  {
    var a := head + ":" + quad;
    var k := AfterColon(a);
    assert a[|head|] == ':';
    assert forall j :: |head| < j < |a| ==> a[j] == quad[j - |head| - 1] && a[j] != ':';
    forall j | 0 <= j <= |head| ensures ':' in a[j..] { assert a[j..][|head| - j] == ':'; }
  }

  lemma TailFolded(head: string, quad: string)
    requires forall i :: 0 <= i < |head| ==> AddressChar(head[i])
    requires forall i :: 0 <= i < |quad| ==> LowerChar(quad[i]) == quad[i] && quad[i] != '\U{212A}'
    ensures var a := head + ":" + quad; Folded(a) == a
  {
    var a := head + ":" + quad;
    forall i | 0 <= i < |a| ensures Folded(a)[i] == a[i] {
      if i < |head| { assert a[i] == head[i]; } else if i > |head| { assert a[i] == quad[i - |head| - 1]; }
    }
  }

  lemma QuadDotted(address: nat)
    requires address < 0x1_0000_0000
    ensures var quad := Quad(address);
            Dotted(quad) && ':' !in quad && forall i :: 0 <= i < |quad| ==> (LowerChar(quad[i]) == quad[i] && quad[i] != '\U{212A}')
  {
    hide Join, Split, Numeral;
    var parts := Octets(address);
    forall i | 0 <= i < 4 ensures '.' !in parts[i] && DecPart(parts[i]) {
      assert forall c :: c in parts[i] ==> DecDigit(c);
    }
    SplitJoin(parts, '.');
    JoinChars(parts, '.');
    var quad := Quad(address);
    forall i | 0 <= i < |quad| ensures quad[i] == '.' || DecDigit(quad[i]) {
      assert quad[i] in Join(parts, '.');
    }
  }

  // ── Names ──

  /** A dotted name of lowercase letters, digits, `_` and `-` whose last label starts with a letter keeps its spelling, trailing dot included. */
  lemma NamesStay(labels: seq<string>, dot: string)
    requires labels != [] && labels[|labels| - 1] != "" && 'a' <= labels[|labels| - 1][0] <= 'z' && (dot == "" || dot == ".")
    requires forall i :: 0 <= i < |labels| ==>
               labels[i] != "" && forall k :: 0 <= k < |labels[i]| ==> 'a' <= labels[i][k] <= 'z' || '0' <= labels[i][k] <= '9' || labels[i][k] in "_-"
    ensures var origin := "https://" + Join(labels, '.') + dot; Canonical(origin, HTTP_PORTS) == Some(origin)
  {
    hide Join, Split, Parse, Show, HostOf, EndsOf, Plain;
    var name := Join(labels, '.');
    forall i | 0 <= i < |labels| ensures '.' !in labels[i] && Label(labels[i]) {}
    SplitJoin(labels, '.');
    if dot == "." { SplitDotted(name); } else { assert name + dot == name; }
    var text := name + dot;
    assert Labels(text) == labels;
    NameHost(text, labels);
    NameIsKept(text);
    assert "https://" + name + dot == "https://" + text;
  }

  lemma NameIsKept(text: string)
    requires Domain(text) && Folded(text) == text && HostOf(text) == Some(Name(text))
    ensures Canonical("https://" + text, HTTP_PORTS) == Some("https://" + text)
  {
    hide Parse, Show, HostOf, EndsOf, Plain, Domain, Folded;
    NameReads(text);
    PlainEnds(text);
    BareHost(text);
    ShowsAs(Site("https", Name(text), 443), HTTP_PORTS, 443);
    assert "https://" + text == "https" + "://" + text + "";
  }

  lemma {:induction false} SplitDotted(s: string)
    ensures Split(s + ".", '.') == Split(s, '.') + [""]
  {
    if s != "" {
      SplitDotted(s[1..]);
      assert (s + ".")[1..] == s[1..] + ".";
    } else {
      assert s + "." == "." && "."[1..] == "";
    }
  }

  lemma NameHost(text: string, labels: seq<string>)
    requires labels != [] && Labels(text) == labels && forall i :: 0 <= i < |labels| ==> Label(labels[i])
    requires labels[|labels| - 1] != "" && 'a' <= labels[|labels| - 1][0] <= 'z'
    ensures Domain(text) && Folded(text) == text && text != "" && HostOf(text) == Some(Name(text))
  {
    hide Labels, Split, PartValues, Folded;
    DomainChars(text);
    LowHost(text);
    var last := labels[|labels| - 1];
    assert last[0] in last && !DecDigit(last[0]);
    assert text[0] != '[';
  }

  /** Any other character in a host that is not bracketed is refused, and so is an empty host. */
  lemma OtherCharactersRefused(host: string, i: nat)
    requires ':' !in host && (host != "" ==> i < |host| && host[0] != '[' && host[i] != '\U{212A}')
    requires host != "" ==> !('a' <= LowerChar(host[i]) <= 'z' || '0' <= host[i] <= '9' || host[i] in "_-.")
    ensures Canonical("https://" + host, HTTP_PORTS) == None
  {
    hide Parse, Show, Domain, Folded, Plain;
    assert host != "" ==> !HostChar(Folded(host)[i]);
    if Domain(Folded(host)) {
      DomainChars(Folded(host));
      assert false;
    }
    if forall k :: 0 <= k < |host| ==> Plain(host[k]) {
      NoHost(host);
    } else {
      var k :| 0 <= k < |host| && !Plain(host[k]);
      NotPlain(host, k);
      NotPlainRefused("https", host, k, HTTP_PORTS);
      assert "https" + "://" + host == "https://" + host;
    }
  }

  lemma NotPlain(host: string, k: nat)
    requires k < |host| && !Plain(host[k])
    ensures host[k] in "/?#@"
  {}

  lemma NoHost(host: string)
    requires ':' !in host && (host == "" || host[0] != '[') && !Domain(Folded(host)) && forall k :: 0 <= k < |host| ==> Plain(host[k])
    ensures Parse("https://" + host, HTTP_PORTS) == None
  {
    hide Plain, Parse, Domain, Folded, EndsOf;
    PlainEnds(host);
    assert HostOf(host) == None;
    BareHost(host);
  }

  // ── The spellings of a bracketed address ──

  /** One to four lowercase hexadecimal digits. */
  ghost predicate GroupText(p: string) {
    1 <= |p| <= 4 && forall i :: 0 <= i < |p| ==> '0' <= p[i] <= '9' || 'a' <= p[i] <= 'f'
  }

  ghost predicate GroupTexts(parts: seq<string>) {
    forall i :: 0 <= i < |parts| ==> GroupText(parts[i])
  }

  function Values(parts: seq<string>): (values: seq<nat>)
    ensures |values| == |parts| && forall i :: 0 <= i < |parts| ==> values[i] == Number(parts[i], 16)
  {
    if parts == [] then [] else Values(parts[..|parts| - 1]) + [Number(parts[|parts| - 1], 16)]
  }

  lemma {:induction false} GroupValuesAre(parts: seq<string>)
    requires GroupTexts(parts)
    ensures GroupValues(parts) == Some(Values(parts))
  {
    hide Number;
    if parts != [] { GroupValuesAre(parts[..|parts| - 1]); }
  }

  lemma {:induction false} PartsTight(parts: seq<string>)
    requires GroupTexts(parts)
    ensures Tight(Join(parts, ':')) && (Join(parts, ':') == "" <==> parts == [])
    ensures forall i :: 0 <= i < |Join(parts, ':')| ==> AddressChar(Join(parts, ':')[i])
  {
    if |parts| == 1 {
      assert Join(parts, ':') == parts[0];
    } else if |parts| > 1 {
      PartsTight(parts[1..]);
      var a, b := parts[0], Join(parts[1..], ':');
      assert Join(parts, ':') == a + ":" + b;
      forall c | c in a ensures HexLower(c) { var i :| 0 <= i < |a| && a[i] == c; }
      GlueTight(a, b);
    }
  }

  lemma SideOfParts(parts: seq<string>)
    requires GroupTexts(parts)
    ensures Side(Join(parts, ':')) == Some(Values(parts))
  {
    hide GroupValues;
    PartsTight(parts);
    if parts != [] {
      forall i | 0 <= i < |parts| ensures ':' !in parts[i] {}
      SplitJoin(parts, ':');
      GroupValuesAre(parts);
    }
  }

  /** Eight groups in full, and nothing but eight. */
  lemma FullAddress(parts: seq<string>)
    requires GroupTexts(parts)
    ensures Ipv6(Join(parts, ':')) == if |parts| == 8 then Some(Values(parts)) else None
  {
    hide Join, Tight, Side, DoubleColon, Unquad, Folded, Values, GroupTexts;
    var text := Join(parts, ':');
    PartsTight(parts);
    FoldedSame(text);
    NoDotNoQuad(text);
    DoubleColonGlued(text, "") by { NothingTight(); }
    SideOfParts(parts);
  }

  lemma NothingTight()
    ensures Tight("")
  {}

  /** A double colon stands for the groups that are missing, one at least. */
  lemma ShortAddress(front: seq<string>, back: seq<string>)
    requires GroupTexts(front) && GroupTexts(back)
    ensures Ipv6(Join(front, ':') + "::" + Join(back, ':')) ==
            if |front| + |back| < 8 then Some(Values(front) + Zeros(8 - |front| - |back|) + Values(back)) else None
  {
    hide Join, Tight, Side, DoubleColon, Unquad, Folded, Values, GroupTexts, Zeros;
    var a, b := Join(front, ':'), Join(back, ':');
    var text := a + "::" + b;
    PartsTight(front);
    PartsTight(back);
    GluedChars(a, b);
    FoldedSame(text);
    NoDotNoQuad(text);
    DoubleColonGlued(a, b);
    assert text[..|a|] == a && text[|a| + 2..] == b;
    SideOfParts(front);
    SideOfParts(back);
  }

  /** A group longer than four digits makes no address. */
  lemma LongGroupRefused(parts: seq<string>, i: nat)
    requires i < |parts| && |parts[i]| > 4
    requires forall k :: 0 <= k < |parts| ==> parts[k] != "" && forall j :: 0 <= j < |parts[k]| ==> HexLower(parts[k][j])
    ensures Ipv6(Join(parts, ':')) == None
  {
    hide Join, Tight, Side, DoubleColon, Unquad, Folded;
    var text := Join(parts, ':');
    DigitsTight(parts);
    FoldedSame(text);
    NoDotNoQuad(text);
    DoubleColonGlued(text, "") by { NothingTight(); }
    BadSide(parts, i);
  }

  lemma {:induction false} DigitsTight(parts: seq<string>)
    requires parts != [] && forall k :: 0 <= k < |parts| ==> parts[k] != "" && forall j :: 0 <= j < |parts[k]| ==> HexLower(parts[k][j])
    ensures Tight(Join(parts, ':')) && Join(parts, ':') != ""
    ensures forall i :: 0 <= i < |Join(parts, ':')| ==> AddressChar(Join(parts, ':')[i])
  {
    if |parts| == 1 {
      assert Join(parts, ':') == parts[0];
    } else {
      DigitsTight(parts[1..]);
      var a, b := parts[0], Join(parts[1..], ':');
      assert Join(parts, ':') == a + ":" + b;
      forall c | c in a ensures HexLower(c) { var i :| 0 <= i < |a| && a[i] == c; }
      GlueTight(a, b);
    }
  }

  lemma {:induction false} BadValues(parts: seq<string>, i: nat)
    requires i < |parts| && (parts[i] == "" || |parts[i]| > 4)
    ensures GroupValues(parts) == None
  {
    if i < |parts| - 1 { BadValues(parts[..|parts| - 1], i); }
  }

  lemma BadSide(parts: seq<string>, i: nat)
    requires i < |parts| && |parts[i]| > 4 && forall k :: 0 <= k < |parts| ==> ':' !in parts[k]
    ensures Side(Join(parts, ':')) == None
  {
    SplitJoin(parts, ':');
    BadValues(parts, i);
    if Join(parts, ':') == "" { SplitFirst("", "", ':'); }
  }

  /** A text that starts or ends with a colon is no list of groups. */
  lemma StraySide(t: string)
    requires t != "" && (t[0] == ':' || t[|t| - 1] == ':')
    ensures Side(t) == None
  {
    var parts := Split(t, ':');
    if t[0] == ':' {
      BadValues(parts, 0);
    } else {
      var front := t[..|t| - 1];
      SplitEnd(front, ':');
      assert t == front + [':'];
      BadValues(parts, |parts| - 1);
    }
  }

  lemma {:induction false} SplitEnd(s: string, c: char)
    ensures Split(s + [c], c) == Split(s, c) + [""]
  {
    if s != "" {
      SplitEnd(s[1..], c);
      assert (s + [c])[1..] == s[1..] + [c];
    } else {
      assert s + [c] == [c] && [c][1..] == "";
    }
  }

  /** A colon too many beside the groups, or a second double colon, makes no address. */
  lemma StrayColonRefused(a: string, b: string)
    requires (forall i :: 0 <= i < |a| ==> AddressChar(a[i])) && forall i :: 0 <= i < |b| ==> AddressChar(b[i])
    requires DoubleColon(a) == |a| && (a != "" ==> a[|a| - 1] != ':')
    requires (a != "" && a[0] == ':') || (b != "" && (b[0] == ':' || b[|b| - 1] == ':')) || DoubleColon(b) < |b|
    ensures Ipv6(a + "::" + b) == None
  {
    hide Side, DoubleColon, Unquad, Folded;
    var text := a + "::" + b;
    GluedChars(a, b);
    FoldedSame(text);
    NoDotNoQuad(text);
    FirstDouble(a, b);
    assert text[..|a|] == a && text[|a| + 2..] == b;
    if a != "" && a[0] == ':' { StraySide(a); }
    if b != "" && (b[0] == ':' || b[|b| - 1] == ':') { StraySide(b); }
  }

  lemma FirstDouble(a: string, b: string)
    requires DoubleColon(a) == |a| && (a != "" ==> a[|a| - 1] != ':')
    ensures DoubleColon(a + "::" + b) == |a|
  {
    var s := a + "::" + b;
    assert s[|a|] == ':' && s[|a| + 1] == ':';
    forall j | 0 <= j < |a| ensures !(s[j] == ':' && s[j + 1] == ':') {
      assert s[j] == a[j];
      if j + 1 < |a| { assert s[j + 1] == a[j + 1]; }
    }
  }

  /** Without a double colon, one at either end refuses. */
  lemma EndColonRefused(t: string)
    requires t != "" && DoubleColon(t) == |t| && (t[0] == ':' || t[|t| - 1] == ':') && forall i :: 0 <= i < |t| ==> AddressChar(t[i])
    ensures Ipv6(t) == None
  {
    hide Side, DoubleColon, Unquad, Folded;
    FoldedSame(t);
    NoDotNoQuad(t);
    StraySide(t);
  }

  /** The Kelvin sign folds to a `k`, as lowercasing it does. */
  lemma KelvinFolds()
    ensures Canonical("https://\U{212A}", HTTP_PORTS) == Some("https://k")
  {
    var text := "\U{212A}";
    hide Parse;
    PlainEnds(text);
    KelvinHost();
    BareHost(text);
    ShowsAs(Site("https", Name("k"), 443), HTTP_PORTS, 443);
    assert "https://" + text == "https://\U{212A}";
    assert "https" + "://" + "k" + "" == "https://k";
  }

  lemma KelvinHost()
    ensures HostOf("\U{212A}") == Some(Name("k"))
  {
    assert Folded("\U{212A}") == "k";
    SplitFirst("k", "", '.');
    assert Labels("k") == ["k"];
    assert 'k' in "k" && !DecDigit('k');
  }
}
