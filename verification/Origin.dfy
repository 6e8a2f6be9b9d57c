/** The one spelling of an http(s) or ws(s) origin, and the labels a caller's rules are read under. */
module Origin {
  import opened Common
  import opened Text
  import opened Scope

  type Ports = map<string, nat>

  /** Not a port: what the scheme tables hold for the one scheme they inherit from their prototype. */
  const NO_PORT := 65536

  const HTTP_PORTS: Ports := map["http" := 80, "https" := 443, "constructor" := NO_PORT]
  const WEB_SOCKET_PORTS: Ports := map["ws" := 80, "wss" := 443, "constructor" := NO_PORT]

  datatype Host = Name(text: string) | V4Host(address: nat) | V6Host(groups: seq<nat>)

  /** What an origin means: scheme, host and port number, the default port included. */
  datatype Site = Site(scheme: string, host: Host, port: nat)

  predicate Letter(c: char) { 'a' <= LowerChar(c) <= 'z' }

  predicate SchemeChar(c: char) { Letter(c) || DecDigit(c) || c == '+' || c == '.' || c == '-' }

  predicate LabelChar(c: char) { 'a' <= c <= 'z' || DecDigit(c) || c == '_' || c == '-' }

  predicate Label(s: string) { s != "" && forall i :: 0 <= i < |s| ==> LabelChar(s[i]) }

  /** A domain as a page reports it: dotted labels, one trailing dot allowed. */
  predicate Domain(s: string) {
    var labels := Labels(s);
    forall i :: 0 <= i < |labels| ==> Label(labels[i])
  }

  datatype Shape = Shape(scheme: string, authority: string)

  /** `scheme://authority` and nothing after it. */
  function ShapeOf(value: string): Option<Shape> {
    var i := IndexOf(value, ':');
    if |value| < i + 3 || value[i + 1] != '/' || value[i + 2] != '/' then None
    else
      var scheme, authority := value[..i], value[i + 3..];
      if scheme == "" || !Letter(scheme[0]) || exists k :: 0 <= k < |scheme| && !SchemeChar(scheme[k]) then None
      else if '/' in authority || '?' in authority || '#' in authority then None
      else Some(Shape(scheme, authority))
  }

  datatype Ends = Ends(host: string, port: Option<string>)

  /** The host text, brackets included, and the text after the port's colon. */
  function EndsOf(authority: string): Option<Ends> {
    if authority != "" && authority[0] == '[' then
      var close := IndexOf(authority, ']');
      if close == |authority| then None
      else
        var host, rest := authority[..close + 1], authority[close + 1..];
        if rest == "" then Some(Ends(host, None))
        else if rest[0] != ':' then None
        else Some(Ends(host, Some(rest[1..])))
    else
      var colon := IndexOf(authority, ':');
      Some(Ends(authority[..colon], if colon < |authority| then Some(authority[colon + 1..]) else None))
  }

  function HostOf(text: string): Option<Host> {
    if text != "" && text[0] == '[' then
      if |text| < 2 then None
      else
        var groups := Ipv6(text[1..|text| - 1]);
        if groups.None? then None else Some(V6Host(groups.value))
    else
      var lowered := Folded(text);
      if !Domain(lowered) then None
      else
        match Ipv4(lowered)
        case BadAddress => None
        case Address(value) => Some(V4Host(value))
        case NotNumeric => Some(Name(lowered))
  }

  function PortOf(text: Option<string>, default: nat): Option<nat> {
    match text
    case None => Some(default)
    case Some(digits) =>
      if DecPart(digits) && |digits| <= 5 && Number(digits, 10) <= 65535 then Some(Number(digits, 10)) else None
  }

  function Parse(value: string, ports: Ports): Option<Site> {
    var shape := ShapeOf(value);
    if shape.None? || Lower(shape.value.scheme) !in ports || '@' in shape.value.authority then None
    else
      var scheme := Lower(shape.value.scheme);
      var ends := EndsOf(shape.value.authority);
      if ends.None? then None
      else
        var host, port := HostOf(ends.value.host), PortOf(ends.value.port, ports[scheme]);
        if host.None? || port.None? then None else Some(Site(scheme, host.value, port.value))
  }

  function HostText(host: Host): string {
    match host
    case Name(text) => text
    case V4Host(address) => Quad(address)
    case V6Host(groups) => "[" + Print6(groups) + "]"
  }

  function PortText(port: nat, default: nat): string {
    if port == default then "" else ":" + Numeral(port, 10)
  }

  function Show(site: Site, ports: Ports): string {
    site.scheme + "://" + HostText(site.host) + PortText(site.port, if site.scheme in ports then ports[site.scheme] else 0)
  }

  /** `canonicalOrigin`. */
  function Canonical(value: string, ports: Ports): Option<string> {
    var site := Parse(value, ports);
    if site.None? then None else Some(Show(site.value, ports))
  }

  // ── What parsing yields ──

  ghost predicate GoodHost(host: Host) {
    match host
    case Name(text) => Domain(text) && Ipv4(text) == NotNumeric && Folded(text) == text
    case V4Host(address) => address < 0x1_0000_0000
    case V6Host(groups) => |groups| == 8 && Groups(groups)
  }

  ghost predicate GoodSite(site: Site, ports: Ports) {
    site.scheme in ports && GoodHost(site.host) && (site.port <= 65535 || site.port == ports[site.scheme])
  }

  /** Scheme tables like the two in use: lowercase letters, default ports in range or none. */
  ghost predicate GoodPorts(ports: Ports) {
    forall s :: s in ports ==> s != "" && (forall i :: 0 <= i < |s| ==> 'a' <= s[i] <= 'z') && ports[s] <= NO_PORT
  }

  lemma BothTablesGood()
    ensures GoodPorts(HTTP_PORTS) && GoodPorts(WEB_SOCKET_PORTS)
  {}

  lemma {:induction false} FoldedTwice(s: string)
    ensures Folded(Folded(s)) == Folded(s)
  {
    var t := Folded(s);
    assert forall i :: 0 <= i < |s| ==> t[i] != '\U{212A}' && LowerChar(t[i]) == t[i];
    assert Folded(t) == t;
  }

  lemma {:induction false} GroupValuesBound(parts: seq<string>)
    requires GroupValues(parts).Some? && forall i :: 0 <= i < |parts| ==> forall c :: c in parts[i] ==> HexDigit(c)
    ensures Groups(GroupValues(parts).value)
  {
    if parts != [] {
      GroupValuesBound(parts[..|parts| - 1]);
      NumberBound(parts[|parts| - 1]);
    }
  }

  lemma NumberBound(s: string)
    requires |s| <= 4 && forall c :: c in s ==> HexDigit(c)
    ensures Number(s, 16) < 0x1_0000
  {
    if s != "" {
      var s1 := s[..|s| - 1];
      if s1 != "" {
        var s2 := s1[..|s1| - 1];
        if s2 != "" {
          var s3 := s2[..|s2| - 1];
          if s3 != "" { assert Number(s3, 16) == DigitValue(s3[0]) by { assert s3[..0] == ""; } }
          assert Number(s3, 16) < 0x10;
          assert Number(s2, 16) < 0x100;
        }
        assert Number(s1, 16) < 0x1000;
      }
    }
  }

  lemma {:induction false} SplitChars(s: string, c: char)
    ensures forall i, x :: 0 <= i < |Split(s, c)| && x in Split(s, c)[i] ==> x in s && x != c
  {
    if s != "" {
      SplitChars(s[1..], c);
      var rest := Split(s[1..], c);
      assert forall x :: x in s[1..] ==> x in s;
      forall i, x | 0 <= i < |Split(s, c)| && x in Split(s, c)[i] ensures x in s && x != c {
        if s[0] == c {
          assert Split(s, c)[0] == "";
          assert Split(s, c)[i] == rest[i - 1];
          assert x in s[1..];
        } else if i == 0 {
          assert Split(s, c)[0] == [s[0]] + rest[0];
          if x != s[0] {
            assert x in rest[0];
            assert x in s[1..];
          }
          assert s[0] in s;
        } else {
          assert Split(s, c)[i] == rest[i];
          assert x in s[1..];
        }
      }
    }
  }

  lemma SideBound(text: string)
    requires Side(text).Some? && forall i :: 0 <= i < |text| ==> AddressChar(text[i])
    ensures Groups(Side(text).value)
  {
    if text != "" {
      SplitChars(text, ':');
      forall i, x | 0 <= i < |Split(text, ':')| && x in Split(text, ':')[i] ensures HexDigit(x) {
        assert x in text;
      }
      GroupValuesBound(Split(text, ':'));
    }
  }

  lemma Ipv6Bound(inner: string)
    requires Ipv6(inner).Some?
    ensures Groups(Ipv6(inner).value)
  {
    hide Unquad, Folded, AddressChar, Side, DoubleColon, Groups;
    var text := Unquad(Folded(inner)).value;
    var d := DoubleColon(text);
    if d == |text| {
      SideBound(text);
    } else {
      SideBound(text[..d]);
      SideBound(text[d + 2..]);
      FilledBound(Side(text[..d]).value, Side(text[d + 2..]).value);
    }
  }

  lemma FilledBound(head: seq<nat>, tail: seq<nat>)
    requires Groups(head) && Groups(tail) && |head| + |tail| < 8
    ensures Groups(head + Zeros(8 - |head| - |tail|) + tail)
  {
    hide Zeros, Groups;
    var zeros := Zeros(8 - |head| - |tail|);
    ZerosBound(zeros);
    JoinedBound(head, zeros);
    JoinedBound(head + zeros, tail);
  }

  lemma ZerosBound(zeros: seq<nat>)
    requires forall i :: 0 <= i < |zeros| ==> zeros[i] == 0
    ensures Groups(zeros)
  {}

  lemma JoinedBound(a: seq<nat>, b: seq<nat>)
    requires Groups(a) && Groups(b)
    ensures Groups(a + b)
  {}

  lemma ParseGood(value: string, ports: Ports)
    requires GoodPorts(ports) && Parse(value, ports).Some?
    ensures GoodSite(Parse(value, ports).value, ports)
  {
    hide Ipv6, Ipv4, Domain, Groups, Folded, Lower, ShapeOf, Number;
    var ends := EndsOf(ShapeOf(value).value.authority).value;
    var text := ends.host;
    if text != "" && text[0] == '[' {
      Ipv6Bound(text[1..|text| - 1]);
    } else {
      FoldedTwice(text);
      Ipv4Bounded(Folded(text));
    }
  }

  // ── Printing and reading back ──

  predicate HostChar(c: char) { LabelChar(c) || c == '.' }

  lemma DomainChars(s: string)
    requires Domain(s)
    ensures forall i :: 0 <= i < |s| ==> HostChar(s[i])
    ensures s != ""
  {
    var parts := Split(s, '.');
    JoinSplit(s, '.');
    JoinChars(parts, '.');
    forall i | 0 <= i < |s| ensures HostChar(s[i]) {
      assert s[i] in Join(parts, '.');
      if s[i] != '.' {
        var k :| 0 <= k < |parts| && s[i] in parts[k];
        assert k < |Labels(s)| && Labels(s)[k] == parts[k];
        assert Label(Labels(s)[k]);
      }
    }
    assert Label(Labels(s)[0]);
  }

  /** A printed address is itself a domain in shape, so it reads back as a host. */
  lemma QuadDomain(address: nat)
    requires address < 0x1_0000_0000
    ensures Domain(Quad(address)) && Folded(Quad(address)) == Quad(address)
  {
    hide Numeral, Split, Join;
    var parts := Octets(address);
    forall i | 0 <= i < 4 ensures Label(parts[i]) && '.' !in parts[i] {
      forall k | 0 <= k < |parts[i]| ensures LabelChar(parts[i][k]) { assert parts[i][k] in parts[i]; }
      assert forall c :: c in parts[i] ==> DecDigit(c);
    }
    SplitJoin(parts, '.');
    assert Labels(Quad(address)) == parts;
    DomainChars(Quad(address));
    assert forall c :: HostChar(c) ==> LowerChar(c) == c && c != '\U{212A}';
    assert Folded(Quad(address)) == Quad(address);
  }

  ghost predicate Plain(c: char) {
    c != '/' && c != '?' && c != '#' && c != '@'
  }

  /** A printed host: what it is made of, and that it reads back. */
  lemma HostReads(host: Host)
    requires GoodHost(host)
    ensures HostOf(HostText(host)) == Some(host)
    ensures HostText(host) != "" && forall i :: 0 <= i < |HostText(host)| ==> Plain(HostText(host)[i])
    ensures host.V6Host? ==> HostText(host)[0] == '[' && ']' !in HostText(host)[..|HostText(host)| - 1]
    ensures host.V6Host? ==> HostText(host)[|HostText(host)| - 1] == ']'
    ensures !host.V6Host? ==> HostText(host)[0] != '[' && ':' !in HostText(host)
  {
    hide Ipv4, Ipv6, Folded, Print6, Quad, Domain, Groups;
    match host
    case Name(text) => NameReads(text);
    case V4Host(address) =>
      QuadParses(address);
      QuadDomain(address);
      NameReads(Quad(address));
    case V6Host(groups) => BracketsRead(groups);
  }

  lemma NameReads(text: string)
    requires Domain(text) && Folded(text) == text
    ensures text != "" && text[0] != '[' && ':' !in text && forall i :: 0 <= i < |text| ==> Plain(text[i])
  {
    hide Domain, Folded;
    DomainChars(text);
    assert forall i :: 0 <= i < |text| ==> text[i] != ':';
  }

  lemma BracketsRead(groups: seq<nat>)
    requires |groups| == 8 && Groups(groups)
    ensures var text := "[" + Print6(groups) + "]";
            && HostOf(text) == Some(V6Host(groups)) && ']' !in text[..|text| - 1]
            && forall i :: 0 <= i < |text| ==> Plain(text[i])
  {
    hide Ipv4, Ipv6, Folded, Print6, Domain, Groups;
    var inner := Print6(groups);
    var text := "[" + inner + "]";
    Print6Parses(groups);
    assert text[1..|text| - 1] == inner && text[..|text| - 1] == "[" + inner;
    forall i | 1 <= i < |text| - 1 ensures AddressChar(text[i]) { assert text[i] == inner[i - 1]; }
  }

  lemma EndsRead(host: Host, port: string)
    requires GoodHost(host) && (port != "" ==> port[0] == ':')
    ensures EndsOf(HostText(host) + port) == Some(Ends(HostText(host), if port == "" then None else Some(port[1..])))
  {
    hide HostText, HostOf, GoodHost;
    HostReads(host);
    var text := HostText(host);
    var authority := text + port;
    if host.V6Host? {
      IndexOfFirst(text[..|text| - 1], ']', port);
      assert authority == text[..|text| - 1] + [']'] + port;
    } else if port == "" {
      IndexOfFirst(text, ':', "");
      assert authority == text;
    } else {
      IndexOfFirst(text, ':', port[1..]);
      assert authority == text + [':'] + port[1..];
    }
  }

  lemma PortReads(port: nat, default: nat)
    requires port <= 65535 || port == default
    ensures var text := PortText(port, default);
            && (text != "" ==> text[0] == ':')
            && PortOf(if text == "" then None else Some(text[1..]), default) == Some(port)
            && forall i :: 0 <= i < |text| ==> Plain(text[i])
  {
    if port != default {
      DecWidth(port);
      NumberOfNumeral(port, 10);
      var digits := Numeral(port, 10);
      assert PortText(port, default)[1..] == digits;
      forall i | 0 <= i < |digits| ensures DecDigit(digits[i]) { assert digits[i] in digits; }
    }
  }

  lemma ShapeReads(scheme: string, authority: string, ports: Ports)
    requires GoodPorts(ports) && scheme in ports && forall i :: 0 <= i < |authority| ==> Plain(authority[i])
    ensures ShapeOf(scheme + "://" + authority) == Some(Shape(scheme, authority)) && Lower(scheme) == scheme
  {
    var value := scheme + "://" + authority;
    assert value == scheme + [':'] + ("//" + authority);
    assert ':' !in scheme;
    IndexOfFirst(scheme, ':', "//" + authority);
    assert value[|scheme| + 3..] == authority && value[..|scheme|] == scheme;
  }

  /** Reading a printed origin gives the same site back. */
  lemma ShowReads(site: Site, ports: Ports)
    requires GoodPorts(ports) && GoodSite(site, ports)
    ensures Parse(Show(site, ports), ports) == Some(site)
  {
    hide HostText, HostOf, GoodHost, PortText, PortOf, EndsOf, ShapeOf, Lower;
    var host, port := HostText(site.host), PortText(site.port, ports[site.scheme]);
    HostReads(site.host);
    PortReads(site.port, ports[site.scheme]);
    EndsRead(site.host, port);
    var authority := host + port;
    assert Show(site, ports) == site.scheme + "://" + authority;
    ShapeReads(site.scheme, authority, ports);
  }

  /** The lookup of a scheme also finds what its table inherits, so one scheme too many is accepted, with no default port. */
  lemma InheritedSchemeIsAccepted(host: Host)
    requires GoodHost(host)
    ensures Canonical("constructor://" + HostText(host), HTTP_PORTS) == Some("constructor://" + HostText(host))
  {
    hide Parse, HostText, GoodHost;
    var site := Site("constructor", host, NO_PORT);
    BothTablesGood();
    ShowReads(site, HTTP_PORTS);
    assert Show(site, HTTP_PORTS) == "constructor" + "://" + HostText(host) + "" == "constructor://" + HostText(host);
  }

  /** Canonicalising twice is canonicalising once, on everything accepted. */
  lemma CanonicalIsIdempotent(value: string, ports: Ports)
    requires GoodPorts(ports) && Canonical(value, ports).Some?
    ensures Canonical(Canonical(value, ports).value, ports) == Canonical(value, ports)
  {
    hide Parse, Show, GoodSite, GoodPorts;
    ParseGood(value, ports);
    ShowReads(Parse(value, ports).value, ports);
  }

  /** Two accepted spellings get the same canonical form exactly when they name the same scheme, host and port. */
  lemma SameCanonicalSameSite(a: string, b: string, ports: Ports)
    requires GoodPorts(ports) && Canonical(a, ports).Some? && Canonical(b, ports).Some?
    ensures Canonical(a, ports) == Canonical(b, ports) <==> Parse(a, ports) == Parse(b, ports)
  {
    hide Parse, Show, GoodSite, GoodPorts;
    ParseGood(a, ports);
    ParseGood(b, ports);
    ShowReads(Parse(a, ports).value, ports);
    ShowReads(Parse(b, ports).value, ports);
  }

  /** Whatever spelling of an address is accepted, its printed form reads back as the same address. */
  lemma AddressesAreStable(text: string)
    ensures Ipv4(text).Address? ==> Ipv4(Quad(Ipv4(text).value)) == Ipv4(text)
    ensures Ipv6(text).Some? ==> Ipv6(Print6(Ipv6(text).value)) == Ipv6(text)
  {
    hide Ipv4, Ipv6, Quad, Print6, Groups;
    Ipv4Bounded(text);
    if Ipv4(text).Address? { QuadParses(Ipv4(text).value); }
    if Ipv6(text).Some? {
      Ipv6Bound(text);
      Print6Parses(Ipv6(text).value);
    }
  }

  /** `canonicalIpv6` on its own output: the address is kept, and two addresses print alike only when equal. */
  lemma Ipv6RoundTrip(a: seq<nat>, b: seq<nat>)
    requires |a| == 8 && Groups(a) && |b| == 8 && Groups(b)
    ensures Ipv6(Print6(a)) == Some(a)
    ensures Print6(a) == Print6(b) <==> a == b
  {
    hide Print6, Ipv6;
    Print6Parses(a);
    Print6Parses(b);
  }

  // ── The labels a caller's rules are read under ──

  function After(s: string, c: char): (i: nat)
    ensures i <= |s|
  {
    if IndexOf(s, c) < |s| then IndexOf(s, c) + 1 else |s|
  }

  /** The bare host of a canonical origin: what follows `//`, up to the port. */
  function HostnameOf(canonical: string): string {
    var slash := IndexOf(canonical, '/');
    HostIn(if slash + 2 <= |canonical| then canonical[slash + 2..] else "")
  }

  function HostIn(authority: string): string {
    if authority != "" && authority[0] == '[' then authority[..After(authority, ']')] else authority[..IndexOf(authority, ':')]
  }

  /** `siteScopes`: the exact origin, then its hostname; a label that is no origin is only itself. */
  function SiteScopes(origin: string): (scopes: seq<string>)
    ensures 1 <= |scopes| <= 2
  {
    var canonical := Canonical(origin, HTTP_PORTS);
    if canonical.None? then [origin] else [canonical.value, HostnameOf(canonical.value)]
  }

  function StorageLabel(origin: string): string {
    SiteScopes(origin)[0]
  }

  lemma HostnameOfShow(site: Site)
    requires GoodSite(site, HTTP_PORTS)
    ensures HostnameOf(Show(site, HTTP_PORTS)) == HostText(site.host)
  {
    hide HostText, HostOf, GoodHost, PortText, PortOf, HostIn;
    var host, port := HostText(site.host), PortText(site.port, HTTP_PORTS[site.scheme]);
    PortReads(site.port, HTTP_PORTS[site.scheme]);
    var authority := host + port;
    var value := site.scheme + "://" + authority;
    assert Show(site, HTTP_PORTS) == value;
    var head := site.scheme + ":";
    assert '/' !in head;
    assert value == head + ['/'] + ("/" + authority);
    IndexOfFirst(head, '/', "/" + authority);
    assert value[|head| + 2..] == authority;
    HostInAuthority(site.host, port);
  }

  lemma HostInAuthority(h: Host, port: string)
    requires GoodHost(h) && (port != "" ==> port[0] == ':')
    ensures HostIn(HostText(h) + port) == HostText(h)
  {
    hide HostText, HostOf, GoodHost;
    HostReads(h);
    var host := HostText(h);
    var authority := host + port;
    if h.V6Host? {
      IndexOfFirst(host[..|host| - 1], ']', port);
      assert authority == host[..|host| - 1] + [']'] + port;
      assert authority[..|host|] == host;
    } else if port == "" {
      IndexOfFirst(host, ':', "");
      assert authority == host && authority[..|host|] == host;
    } else {
      IndexOfFirst(host, ':', port[1..]);
      assert authority == host + [':'] + port[1..];
      assert authority[..|host|] == host;
    }
  }

  lemma HostIsNoOrigin(host: Host)
    requires GoodHost(host)
    ensures Canonical(HostText(host), HTTP_PORTS) == None
  {
    hide HostText, HostOf, GoodHost;
    HostReads(host);
    var text := HostText(host);
    var i := IndexOf(text, ':');
    if host.V6Host? && i > 0 {
      assert text[..i][0] == '[';
    }
  }

  /**
   * Reading falls at most one level: an origin's hostname is only ever itself, and the label a rule
   * is stored under reads under the same two labels.
   */
  lemma ScopesAreStable(origin: string)
    ensures SiteScopes(StorageLabel(origin)) == SiteScopes(origin)
    ensures |SiteScopes(origin)| == 2 ==>
      SiteScopes(SiteScopes(origin)[1]) == [SiteScopes(origin)[1]] && SiteScopes(origin)[0] != SiteScopes(origin)[1]
  {
    hide Parse, Show, GoodSite, GoodPorts, HostnameOf;
    if Canonical(origin, HTTP_PORTS).Some? {
      BothTablesGood();
      ParseGood(origin, HTTP_PORTS);
      var site := Parse(origin, HTTP_PORTS).value;
      CanonicalIsIdempotent(origin, HTTP_PORTS);
      HostnameOfShow(site);
      SiteHost(site, HTTP_PORTS);
      HostIsNoOrigin(site.host);
    }
  }

  lemma SiteHost(site: Site, ports: Ports)
    requires GoodSite(site, ports)
    ensures GoodHost(site.host)
  {
    hide GoodHost;
  }
}
