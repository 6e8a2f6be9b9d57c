/** What one remembered consent answers, what many answer together, what may be remembered, and what a revocation removes. */
module GrantLaws {
  import opened Common
  import opened Text
  import opened Origin
  import opened OriginLaws
  import opened Grants
  import PermissionStore

  /** What the records alone say, with nobody opted in to backend authentication. */
  function Says(grants: seq<Grant>, account: string, origin: string, auth: Auth): Option<Ruling> {
    DecisionFor(grants, [], map[], account, origin, auth)
  }

  /**
   * A single stored record, whatever it holds. It speaks for its own account and protocol, for its own site, or
   * for every site when it is a relay's under `*`. A relay's record answers for that relay. An HTTP record
   * answers for its exact URL and method; an older one without a URL only ever refuses, and that for its
   * whole destination. A record without a decision allows.
   */
  lemma OneRecord(g: Grant, account: string, origin: string, auth: Auth)
    requires account != "" && origin != ""
    ensures Says([g], account, origin, auth) ==
            if g.account != account then None
            else
              match auth
              case Nip42(relay) =>
                if g.protocol == Relay && g.destination == relay && g.verb == None && (g.origin == StorageLabel(origin) || g.origin == "*")
                then Some(if g.decision == Some(Denied) then Denied else Allowed) else None
              case Nip98(url, destination, verb) =>
                if g.protocol != Http || g.destination != destination || g.verb != Some(verb) || g.origin != StorageLabel(origin) then None
                else if g.decision == Some(Denied) then (if g.resource == None || g.resource == Some(url) then Some(Denied) else None)
                else if g.resource == Some(url) then Some(Allowed) else None
              case LegacyLogin => None
  {
    hide StorageLabel, BackendDefault;
    NoDefault(account, origin, auth);
    var one := [g];
    assert one[0] == g;
    assert SomeDeny(one, account, StorageLabel(origin), auth) <==> Governs(g, account, StorageLabel(origin), auth) && g.decision == Some(Denied);
    assert SomeAllow(one, account, StorageLabel(origin), auth) <==> Governs(g, account, StorageLabel(origin), auth) && g.decision != Some(Denied);
  }

  lemma NoDefault(account: string, origin: string, auth: Auth)
    ensures !BackendDefault([], map[], account, origin, auth)
  {
    hide ExactHttps;
  }

  /** Many records: one that alone denies decides; failing that, one that alone allows. */
  lemma ManyRecords(grants: seq<Grant>, account: string, origin: string, auth: Auth)
    ensures Says(grants, account, origin, auth) == Some(Denied) <==> exists i :: 0 <= i < |grants| && Says([grants[i]], account, origin, auth) == Some(Denied)
    ensures Says(grants, account, origin, auth) == Some(Allowed) <==>
            && (exists i :: 0 <= i < |grants| && Says([grants[i]], account, origin, auth) == Some(Allowed))
            && (forall i :: 0 <= i < |grants| ==> Says([grants[i]], account, origin, auth) != Some(Denied))
  {
    hide StorageLabel, BackendDefault, Governs;
    NoDefault(account, origin, auth);
    forall i | 0 <= i < |grants|
      ensures !auth.LegacyLogin? && account != "" && origin != "" ==>
        && (Says([grants[i]], account, origin, auth) == Some(Denied) <==> Governs(grants[i], account, StorageLabel(origin), auth) && grants[i].decision == Some(Denied))
        && (Says([grants[i]], account, origin, auth) == Some(Allowed) <==> Governs(grants[i], account, StorageLabel(origin), auth) && grants[i].decision != Some(Denied)) {
      assert [grants[i]][0] == grants[i];
    }
  }

  /** The consent just saved over nothing: exactly the request it was given for, from that site, or from every site for a shared relay. */
  lemma OneConsent(account: string, origin: string, auth: Auth, scope: Consent, ruling: Ruling, account': string, origin': string, auth': Auth)
    requires Save([], account, origin, auth, scope, true, ruling).1 == Saved && account' != "" && origin' != ""
    ensures Says(Save([], account, origin, auth, scope, true, ruling).0, account', origin', auth') ==
            if account' == account && auth' == auth
               && (StorageLabel(origin') == StorageLabel(origin) || scope.ConnectedSites? || (auth.Nip42? && StorageLabel(origin) == "*"))
            then Some(ruling) else None
  {
    hide StorageLabel, Says, SomeDeny;
    var g := NewGrant(ruling, account, if scope.ConnectedSites? then SHARED else StorageLabel(origin), auth);
    assert Save([], account, origin, auth, scope, true, ruling).0 == [g];
    OneRecord(g, account', origin', auth');
  }

  /**
   * What may be saved. A site and an account are named and the host still stands by the request. A denial is
   * for one site; an allow for once, for one site, or, for a relay, for all of them; and no allow goes past a
   * denial in force. An allow for once stores nothing.
   */
  lemma SaveAnswers(grants: seq<Grant>, account: string, origin: string, auth: Auth, scope: Consent, current: bool, ruling: Ruling)
    ensures var result := Save(grants, account, origin, auth, scope, current, ruling).1;
            var named := account != "" && origin != "" && current;
            var undenied := ruling == Denied || Says(grants, account, origin, auth) != Some(Denied);
            && (auth.LegacyLogin? ==> result != Saved)
            && (!auth.LegacyLogin? ==>
                  && (result == Saved <==> named && undenied && (scope.Site? || (scope.ConnectedSites? && auth.Nip42? && ruling == Allowed)))
                  && (result == NotStored <==> named && undenied && scope.Once? && ruling == Allowed))
  {
    hide StorageLabel, Governs;
  }

  /** What a save leaves: the new record last, in place of any with its identity; the others as they were, in order. */
  lemma SaveLeaves(grants: seq<Grant>, account: string, origin: string, auth: Auth, scope: Consent, current: bool, ruling: Ruling)
    requires Save(grants, account, origin, auth, scope, current, ruling).1 == Saved
    ensures var grants' := Save(grants, account, origin, auth, scope, current, ruling).0;
            && grants' != []
            && var g := grants'[|grants'| - 1];
            && g.decision == Some(ruling) && g.account == account
            && g.origin == (if scope.ConnectedSites? then "*" else StorageLabel(origin))
            && forall h :: h in grants'[..|grants'| - 1] <==> h in grants && h.id != g.id
  {
    hide StorageLabel, SomeDeny;
    var g := NewGrant(ruling, account, if scope.ConnectedSites? then SHARED else StorageLabel(origin), auth);
    var grants' := Save(grants, account, origin, auth, scope, current, ruling).0;
    assert grants' == WithoutId(grants, g.id) + [g];
    assert grants'[..|grants'| - 1] == WithoutId(grants, g.id);
  }

  /** Two consents replace each other exactly when account, site, protocol and destination agree, for HTTP the URL and method instead. */
  lemma SameIdentity(a: string, o: string, auth: Auth, a': string, o': string, auth': Auth)
    requires !auth.LegacyLogin? && !auth'.LegacyLogin?
    ensures GrantId(a, o, auth) == GrantId(a', o', auth') <==>
            && a == a' && o == o'
            && match auth
               case Nip42(relay) => auth' == Nip42(relay)
               case Nip98(url, _, verb) => auth'.Nip98? && auth'.url == url && auth'.verb == verb
               case LegacyLogin => false
  {}

  /**
   * With no record at all, an account that opted in is allowed to authenticate a secure site to its own
   * origin, or to one registered for it; nobody else is, and nothing but an HTTP request.
   */
  lemma DefaultAllows(registry: seq<Backend>, defaults: map<string, bool>, account: string, site: Host, service: Host, url: string, verb: string)
    requires GoodHost(site) && GoodHost(service) && account != ""
    ensures var o, d := "https://" + HostText(site), "https://" + HostText(service);
            DecisionFor([], registry, defaults, account, o, Nip98(url, d, verb)) ==
            if account in defaults && defaults[account] && (o == d || Backend(o, d) in registry) then Some(Allowed) else None
  {
    hide StorageLabel, Canonical, HostText, GoodHost;
    SecureIsExact(site);
    SecureIsExact(service);
  }

  lemma SecureIsExact(host: Host)
    requires GoodHost(host)
    ensures ExactHttps("https://" + HostText(host))
  {
    hide Canonical, HostText, GoodHost;
    DefaultPorts(host);
  }

  /** A relay, a plain http site and a service spelt in any other way get nothing by default. */
  lemma DefaultRefuses(registry: seq<Backend>, defaults: map<string, bool>, account: string, origin: string, auth: Auth)
    requires !auth.Nip98? || !("https://" <= origin) || !("https://" <= auth.destination)
             || Canonical(origin, HTTP_PORTS) != Some(origin) || Canonical(auth.destination, HTTP_PORTS) != Some(auth.destination)
    ensures DecisionFor([], registry, defaults, account, origin, auth) == None
  {
    hide StorageLabel, Canonical;
  }

  /** The records decide before the default does. */
  lemma RecordsBeforeDefault(grants: seq<Grant>, registry: seq<Backend>, defaults: map<string, bool>, account: string, origin: string, auth: Auth)
    ensures DecisionFor(grants, registry, defaults, account, origin, auth) ==
            if Says(grants, account, origin, auth).Some? then Says(grants, account, origin, auth)
            else DecisionFor([], registry, defaults, account, origin, auth)
  {
    hide StorageLabel, BackendDefault, Governs;
    NoDefault(account, origin, auth);
  }

  // ── Revoking ──

  /** Revoking by account, by identity, or altogether, and what becomes of the defaults; an empty field changes nothing. */
  lemma RevokeLeaves(grants: seq<Grant>, defaults: map<string, bool>, account: string, id: Id, g: Grant)
    ensures account != "" ==>
              && (g in Revoke(grants, RevokeFilter(None, Some(account), None)) <==> g in grants && g.account != account)
              && RevokeDefaults(defaults, RevokeFilter(None, Some(account), None)) == defaults - {account}
    ensures g in Revoke(grants, RevokeFilter(Some(id), None, None)) <==> g in grants && g.id != id
    ensures RevokeDefaults(defaults, RevokeFilter(Some(id), None, None)) == defaults
    ensures (forall h :: h !in Revoke(grants, RevokeFilter(None, None, None))) && RevokeDefaults(defaults, RevokeFilter(None, None, None)) == map[]
    ensures Revoke(grants, RevokeFilter(None, Some(""), None)) == grants && RevokeDefaults(defaults, RevokeFilter(None, Some(""), None)) == defaults
    ensures Revoke(grants, RevokeFilter(None, None, Some(""))) == grants && RevokeDefaults(defaults, RevokeFilter(None, None, Some(""))) == defaults
  {
  }

  /**
   * Revoking a site removes the records of that origin, however either is spelt, and of no other; revoking a
   * host, those of every origin on it. The defaults stay.
   */
  lemma RevokeSite(grants: seq<Grant>, defaults: map<string, bool>, host: Host, scheme: string, other: Host, port: nat, default: nat, g: Grant)
    requires GoodHost(host) && GoodHost(other) && port <= 65535 && DefaultOf(scheme, HTTP_PORTS, default)
    requires g in grants && g.origin == scheme + "://" + HostText(other) + ":" + Numeral(port, 10)
    ensures g in Revoke(grants, RevokeFilter(None, None, Some("https://" + HostText(host) + ":443"))) <==>
            !(scheme == "https" && other == host && port == 443)
    ensures g in Revoke(grants, RevokeFilter(None, None, Some(HostText(host)))) <==> other != host
    ensures RevokeDefaults(defaults, RevokeFilter(None, None, Some(HostText(host)))) == defaults
  {
    hide HostText, GoodHost, SiteScopes, Numeral, Unstruck, HostOf;
    HostReads(host);
    HostReads(other);
    OriginLabels(scheme, other, port, default);
    HttpsLabel(host);
    HostLabel(host);
    HostLabel(other);
    SameShown(scheme, other, port, default, host);
    ShownScopes(scheme, other, port, default);
  }

  lemma HttpsLabel(host: Host)
    requires GoodHost(host)
    ensures StorageLabel("https://" + HostText(host) + ":443") == "https://" + HostText(host)
    ensures |SiteScopes("https://" + HostText(host))| == 2
  {
    hide HostText, GoodHost, SiteScopes, Numeral;
    OriginLabels("https", host, 443, 443);
    DefaultNumerals();
    Glued();
    Glue(HostText(host));
    assert "https" + "://" + HostText(host) == "https://" + HostText(host);
  }

  lemma HostLabel(host: Host)
    requires GoodHost(host)
    ensures SiteScopes(HostText(host)) == [HostText(host)]
  {
    hide HostText, GoodHost, Canonical;
    HostIsNoOrigin(host);
  }

  /** The label of an origin is that of an https host exactly when it is that host's, at the default port. */
  lemma SameShown(scheme: string, other: Host, port: nat, default: nat, host: Host)
    requires GoodHost(host) && GoodHost(other) && port <= 65535 && DefaultOf(scheme, HTTP_PORTS, default)
    ensures var bare := scheme + "://" + HostText(other);
            var shown := if port == default then bare else bare + ":" + Numeral(port, 10);
            shown == "https://" + HostText(host) <==> scheme == "https" && other == host && port == 443
  {
    hide HostText, GoodHost, Numeral, Parse, SiteScopes, HTTP_PORTS, GoodPorts, Show;
    DefaultIs(scheme, HTTP_PORTS, default);
    DefaultIs("https", HTTP_PORTS, 443);
    var site, mine := Site.Site(scheme, other, port), Site.Site("https", host, 443);
    ShowReads(site, HTTP_PORTS);
    ShowReads(mine, HTTP_PORTS);
    ShowsAs(site, HTTP_PORTS, default);
    ShowsAs(mine, HTTP_PORTS, 443);
    var bare := scheme + "://" + HostText(other);
    assert bare + "" == bare && bare + (":" + Numeral(port, 10)) == bare + ":" + Numeral(port, 10);
    assert "https" + "://" + HostText(host) + "" == "https://" + HostText(host);
  }

  lemma ShownScopes(scheme: string, other: Host, port: nat, default: nat)
    requires GoodHost(other) && port <= 65535 && DefaultOf(scheme, HTTP_PORTS, default)
    ensures var bare := scheme + "://" + HostText(other);
            |SiteScopes(if port == default then bare else bare + ":" + Numeral(port, 10))| == 2
  {
    hide HostText, GoodHost, Numeral, SiteScopes;
    OriginLabels(scheme, other, port, default);
  }

  lemma StarIsNoHost(host: Host)
    requires GoodHost(host)
    ensures HostText(host) != "*"
  {
    hide HostText, GoodHost, Canonical;
    NoPortText("https", host, HTTP_PORTS, 443);
    OtherCharactersRefused("*", 0);
    assert "https" + "://" + "*" == "https://" + "*";
  }

  /** The records shared by all sites are out of reach of a site or a host. */
  lemma SharedStay(grants: seq<Grant>, host: Host, g: Grant)
    requires GoodHost(host) && g in grants && g.origin == "*"
    ensures g in Revoke(grants, RevokeFilter(None, None, Some("https://" + HostText(host) + ":443")))
    ensures g in Revoke(grants, RevokeFilter(None, None, Some(HostText(host))))
    ensures g !in Revoke(grants, RevokeFilter(None, None, Some("*")))
  {
    hide HostText, GoodHost, SiteScopes, Unstruck, HostOf;
    PermissionStore.NoColonNoOrigin("*");
    HttpsLabel(host);
    HostLabel(host);
    StarIsNoHost(host);
  }
}
