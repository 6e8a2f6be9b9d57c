/** Remembered consents for authenticating to one destination: a stored list that stands for a map. */
module Grants {
  import opened Common
  import opened Origin

  datatype Ruling = Allowed | Denied

  /** A parsed request. A relay is its own destination; an HTTP call is bound to the exact URL and method. */
  datatype Auth = Nip42(relay: string) | Nip98(url: string, destination: string, verb: string) | LegacyLogin

  datatype Protocol = Relay | Http | Legacy

  /** A grant's identity: the JSON text of these five strings, which is one-to-one with them. */
  datatype Id = Id(account: string, site: string, protocol: Protocol, endpoint: string, verb: string)

  /** A stored record. A decision of `None` is a record older than rejections; `resource` marks endpoint scoping. */
  datatype Grant = Grant(decision: Option<Ruling>, account: string, origin: string, protocol: Protocol, destination: string,
                         resource: Option<string>, verb: Option<string>, id: Id)

  datatype Consent = Once | Site | ConnectedSites

  datatype Backend = Backend(origin: string, destination: string)

  const SHARED := "*"

  function ProtocolOf(auth: Auth): Protocol {
    match auth
    case Nip42(_) => Relay
    case Nip98(_, _, _) => Http
    case LegacyLogin => Legacy
  }

  function DestinationOf(auth: Auth): string {
    match auth
    case Nip42(relay) => relay
    case Nip98(_, destination, _) => destination
    case LegacyLogin => ""
  }

  function VerbOf(auth: Auth): Option<string> {
    match auth
    case Nip98(_, _, verb) => Some(verb)
    case _ => None
  }

  /** `governs`. */
  predicate Governs(g: Grant, account: string, origin: string, auth: Auth) {
    && g.account == account && g.protocol == ProtocolOf(auth) && g.destination == DestinationOf(auth) && g.verb == VerbOf(auth)
    && (g.origin == origin || (auth.Nip42? && g.origin == SHARED))
    && (auth.Nip42? || (if g.resource.Some? then auth.Nip98? && g.resource.value == auth.url else g.decision == Some(Denied)))
  }

  /** `grantId`. */
  function GrantId(account: string, origin: string, auth: Auth): Id {
    match auth
    case Nip42(relay) => Id(account, origin, Relay, relay, "")
    case Nip98(url, _, verb) => Id(account, origin, Http, url, verb)
    case LegacyLogin => Id(account, origin, Legacy, "", "")
  }

  function NewGrant(ruling: Ruling, account: string, origin: string, auth: Auth): Grant {
    Grant(Some(ruling), account, origin, ProtocolOf(auth), DestinationOf(auth), if auth.Nip98? then Some(auth.url) else None,
          VerbOf(auth), GrantId(account, origin, auth))
  }

  predicate ValidScope(auth: Auth, scope: Consent) {
    if auth.LegacyLogin? then scope.Once? else scope.Once? || scope.Site? || auth.Nip42?
  }

  predicate SomeDeny(grants: seq<Grant>, account: string, origin: string, auth: Auth) {
    exists i :: 0 <= i < |grants| && Governs(grants[i], account, origin, auth) && grants[i].decision == Some(Denied)
  }

  predicate SomeAllow(grants: seq<Grant>, account: string, origin: string, auth: Auth) {
    exists i :: 0 <= i < |grants| && Governs(grants[i], account, origin, auth) && grants[i].decision != Some(Denied)
  }

  predicate ExactHttps(value: string) {
    "https://" <= value && Canonical(value, HTTP_PORTS) == Some(value)
  }

  /** The account's opt-in for a site's own backend, or one registered for it. */
  predicate BackendDefault(registry: seq<Backend>, defaults: map<string, bool>, account: string, origin: string, auth: Auth) {
    && auth.Nip98? && ExactHttps(origin) && ExactHttps(auth.destination)
    && (origin == auth.destination || Backend(origin, auth.destination) in registry)
    && account in defaults && defaults[account]
  }

  /** `decisionFor`. */
  function DecisionFor(grants: seq<Grant>, registry: seq<Backend>, defaults: map<string, bool>, account: string, origin: string, auth: Auth): Option<Ruling> {
    if auth.LegacyLogin? || account == "" || origin == "" then None
    else if SomeDeny(grants, account, StorageLabel(origin), auth) then Some(Denied)
    else if SomeAllow(grants, account, StorageLabel(origin), auth) then Some(Allowed)
    else if BackendDefault(registry, defaults, account, origin, auth) then Some(Allowed)
    else None
  }

  datatype SaveResult = Saved | NotStored | Threw

  function WithoutId(grants: seq<Grant>, id: Id): (r: seq<Grant>)
    ensures forall g :: g in r <==> g in grants && g.id != id
  {
    if grants == [] then []
    else
      var front, last := WithoutId(grants[..|grants| - 1], id), grants[|grants| - 1];
      if last.id == id then front else front + [last]
  }

  /** `save`; `current` says whether the host's own re-check inside the lock passed. */
  function Save(grants: seq<Grant>, account: string, origin: string, auth: Auth, scope: Consent, current: bool, ruling: Ruling): (seq<Grant>, SaveResult) {
    if account == "" || origin == "" || !ValidScope(auth, scope) || (ruling.Denied? && !scope.Site?) then (grants, Threw)
    else
      var place := StorageLabel(origin);
      if !current || (ruling.Allowed? && SomeDeny(grants, account, place, auth)) then (grants, Threw)
      else if scope.Once? then (grants, NotStored)
      else
        var g := NewGrant(ruling, account, if scope.ConnectedSites? then SHARED else place, auth);
        (WithoutId(grants, g.id) + [g], Saved)
  }

  datatype RevokeFilter = RevokeFilter(id: Option<Id>, account: Option<string>, origin: Option<string>)

  /** Does `revoke` with this filter remove what has this identity? */
  predicate Strikes(filter: RevokeFilter, id: Id, account: string, site: string) {
    && (filter.id.Some? ==> id == filter.id.value)
    && (filter.account.Some? ==> account == filter.account.value)
    && (filter.origin.Some? ==> StorageLabel(filter.origin.value) in SiteScopes(site))
  }

  predicate EmptyField(filter: RevokeFilter) {
    filter.account == Some("") || filter.origin == Some("")
  }

  function Unstruck(grants: seq<Grant>, filter: RevokeFilter): (r: seq<Grant>)
    ensures forall g :: g in r <==> g in grants && !Strikes(filter, g.id, g.account, g.origin)
  {
    if grants == [] then []
    else
      var front, last := Unstruck(grants[..|grants| - 1], filter), grants[|grants| - 1];
      if Strikes(filter, last.id, last.account, last.origin) then front else front + [last]
  }

  /** `revoke`; an empty text in a field is refused. */
  function Revoke(grants: seq<Grant>, filter: RevokeFilter): seq<Grant> {
    if EmptyField(filter) then grants else Unstruck(grants, filter)
  }

  function RevokeDefaults(defaults: map<string, bool>, filter: RevokeFilter): map<string, bool> {
    if EmptyField(filter) || filter.id.Some? || filter.origin.Some? then defaults
    else if filter.account.Some? then defaults - {filter.account.value}
    else map[]
  }

  // ── The map the list stands for ──

  /** What the parser guarantees: an HTTP destination is the origin of its URL, and a method is named. */
  ghost predicate Parsed(originOf: string -> string, auth: Auth) {
    auth.Nip98? ==> auth.destination == originOf(auth.url) && auth.verb != ""
  }

  /** A record this store wrote. */
  ghost predicate Written(originOf: string -> string, g: Grant) {
    && g.decision.Some?
    && match g.protocol
       case Relay => g.resource.None? && g.verb.None? && g.id == Id(g.account, g.origin, Relay, g.destination, "")
       case Http => g.resource.Some? && g.verb.Some? && g.verb.value != "" && g.destination == originOf(g.resource.value)
                    && g.id == Id(g.account, g.origin, Http, g.resource.value, g.verb.value)
       case Legacy => false
  }

  /** Ids are unique, and the list and the map say the same. */
  ghost predicate Represents(originOf: string -> string, grants: seq<Grant>, m: map<Id, Ruling>) {
    && (forall g :: g in grants ==> Written(originOf, g) && g.id in m && g.decision == Some(m[g.id]))
    && UniqueIds(grants)
    && (forall k :: k in m ==> Holds(grants, k))
  }

  ghost predicate Holds(grants: seq<Grant>, k: Id) {
    exists g :: g in grants && g.id == k
  }

  function RulingAt(m: map<Id, Ruling>, k: Id): Option<Ruling> {
    if k in m then Some(m[k]) else None
  }

  /** The abstract answer: the site's own entry, the shared relay entry, then the backend default; a deny first of all. */
  function Lookup(m: map<Id, Ruling>, registry: seq<Backend>, defaults: map<string, bool>, account: string, origin: string, auth: Auth): Option<Ruling> {
    if auth.LegacyLogin? || account == "" || origin == "" then None
    else
      var own := RulingAt(m, GrantId(account, StorageLabel(origin), auth));
      var shared := if auth.Nip42? then RulingAt(m, GrantId(account, SHARED, auth)) else None;
      if own == Some(Denied) || shared == Some(Denied) then Some(Denied)
      else if own.Some? || shared.Some? then Some(Allowed)
      else if BackendDefault(registry, defaults, account, origin, auth) then Some(Allowed)
      else None
  }

  /** A record of this store governs a request exactly when it is the request's own entry or the shared relay one. */
  lemma GovernsByKey(originOf: string -> string, g: Grant, account: string, place: string, auth: Auth)
    requires Written(originOf, g) && Parsed(originOf, auth)
    ensures Governs(g, account, place, auth) <==>
            g.id == GrantId(account, place, auth) || (auth.Nip42? && g.id == GrantId(account, SHARED, auth))
  {}

  /** The request's own entry, or the shared relay one, says `r`. */
  predicate KeyRules(m: map<Id, Ruling>, account: string, place: string, auth: Auth, r: Ruling) {
    RulingAt(m, GrantId(account, place, auth)) == Some(r) || (auth.Nip42? && RulingAt(m, GrantId(account, SHARED, auth)) == Some(r))
  }

  lemma SomeByKey(originOf: string -> string, grants: seq<Grant>, m: map<Id, Ruling>, account: string, place: string, auth: Auth)
    requires Represents(originOf, grants, m) && Parsed(originOf, auth)
    ensures SomeDeny(grants, account, place, auth) <==> KeyRules(m, account, place, auth, Denied)
    ensures SomeAllow(grants, account, place, auth) <==> KeyRules(m, account, place, auth, Allowed)
  {
    hide Governs, GrantId, Written;
    forall g | g in grants
      ensures Governs(g, account, place, auth) <==>
              g.id == GrantId(account, place, auth) || (auth.Nip42? && g.id == GrantId(account, SHARED, auth)) {
      GovernsByKey(originOf, g, account, place, auth);
    }
    forall r: Ruling ensures KeyRules(m, account, place, auth, r) ==>
                             exists i :: 0 <= i < |grants| && Governs(grants[i], account, place, auth) && grants[i].decision == Some(r) {
      if KeyRules(m, account, place, auth, r) {
        var k := if RulingAt(m, GrantId(account, place, auth)) == Some(r) then GrantId(account, place, auth) else GrantId(account, SHARED, auth);
        assert Holds(grants, k);
        var g :| g in grants && g.id == k;
        var i :| 0 <= i < |grants| && grants[i] == g;
        assert Governs(grants[i], account, place, auth) && grants[i].decision == Some(r);
      }
    }
    if SomeDeny(grants, account, place, auth) {
      var i :| 0 <= i < |grants| && Governs(grants[i], account, place, auth) && grants[i].decision == Some(Denied);
      assert grants[i] in grants;
    }
    if SomeAllow(grants, account, place, auth) {
      var i :| 0 <= i < |grants| && Governs(grants[i], account, place, auth) && grants[i].decision != Some(Denied);
      var g := grants[i];
      assert g in grants && g.decision == Some(m[g.id]);
      assert m[g.id] == Allowed;
    }
  }

  /** The list refines the map: every request is answered as by lookup. */
  lemma ListRefinesMap(originOf: string -> string, grants: seq<Grant>, m: map<Id, Ruling>, registry: seq<Backend>,
                       defaults: map<string, bool>, account: string, origin: string, auth: Auth)
    requires Represents(originOf, grants, m) && Parsed(originOf, auth)
    ensures DecisionFor(grants, registry, defaults, account, origin, auth) == Lookup(m, registry, defaults, account, origin, auth)
  {
    hide StorageLabel, Represents, SomeDeny, SomeAllow, BackendDefault, GrantId;
    if !auth.LegacyLogin? {
      var place := StorageLabel(origin);
      SomeByKey(originOf, grants, m, account, place, auth);
      EitherRuling(RulingAt(m, GrantId(account, place, auth)));
      EitherRuling(RulingAt(m, GrantId(account, SHARED, auth)));
    }
  }

  lemma EitherRuling(r: Option<Ruling>)
    ensures r == None || r == Some(Allowed) || r == Some(Denied)
  {
    if r.Some? {
      match r.value
      case Allowed =>
      case Denied =>
    }
  }

  ghost predicate UniqueIds(grants: seq<Grant>) {
    forall i, j :: 0 <= i < j < |grants| ==> grants[i].id != grants[j].id
  }

  lemma UniqueLast(grants: seq<Grant>, last: Grant)
    requires UniqueIds(grants) && forall g :: g in grants ==> g.id != last.id
    ensures UniqueIds(grants + [last])
  {
    forall i | 0 <= i < |grants| ensures grants[i].id != last.id { assert grants[i] in grants; }
  }

  lemma UniqueFront(grants: seq<Grant>)
    requires UniqueIds(grants) && grants != []
    ensures UniqueIds(grants[..|grants| - 1]) && forall g :: g in grants[..|grants| - 1] ==> g.id != grants[|grants| - 1].id
  {}

  // ── The operations on the map ──

  lemma {:induction false} WithoutIdKeeps(grants: seq<Grant>, id: Id)
    requires UniqueIds(grants)
    ensures UniqueIds(WithoutId(grants, id))
  {
    hide UniqueIds;
    if grants != [] {
      UniqueFront(grants);
      WithoutIdKeeps(grants[..|grants| - 1], id);
      UniqueLast(WithoutId(grants[..|grants| - 1], id), grants[|grants| - 1]);
    } else {
      NothingUnique();
    }
  }

  lemma NothingUnique()
    ensures UniqueIds([])
  {}

  lemma {:induction false} UnstruckKeeps(grants: seq<Grant>, filter: RevokeFilter)
    requires UniqueIds(grants)
    ensures UniqueIds(Unstruck(grants, filter))
  {
    hide Strikes, UniqueIds;
    if grants != [] {
      UniqueFront(grants);
      UnstruckKeeps(grants[..|grants| - 1], filter);
      UniqueLast(Unstruck(grants[..|grants| - 1], filter), grants[|grants| - 1]);
    } else {
      NothingUnique();
    }
  }

  /** A save as the map sees it: what it needs, what stands in its way, and the one entry it writes. */
  function SaveMap(m: map<Id, Ruling>, account: string, origin: string, auth: Auth, scope: Consent, current: bool, ruling: Ruling): (map<Id, Ruling>, SaveResult) {
    if account == "" || origin == "" || !ValidScope(auth, scope) || (ruling.Denied? && !scope.Site?) then (m, Threw)
    else if !current || (ruling.Allowed? && KeyRules(m, account, StorageLabel(origin), auth, Denied)) then (m, Threw)
    else if scope.Once? then (m, NotStored)
    else (m[GrantId(account, if scope.ConnectedSites? then SHARED else StorageLabel(origin), auth) := ruling], Saved)
  }

  /** A save of the list is the save of the map: it answers the same, and what it stores is the same entry. */
  lemma SaveRefines(originOf: string -> string, grants: seq<Grant>, m: map<Id, Ruling>,
                    account: string, origin: string, auth: Auth, scope: Consent, current: bool, ruling: Ruling)
    requires Represents(originOf, grants, m) && Parsed(originOf, auth)
    ensures var (grants', result) := Save(grants, account, origin, auth, scope, current, ruling);
            var (m', result') := SaveMap(m, account, origin, auth, scope, current, ruling);
            result == result' && Represents(originOf, grants', m') && (!result.Saved? ==> grants' == grants)
  {
    hide StorageLabel, SomeDeny, WithoutId, KeyRules;
    SomeByKey(originOf, grants, m, account, StorageLabel(origin), auth);
    if Save(grants, account, origin, auth, scope, current, ruling).1.Saved? {
      var place := if scope.ConnectedSites? then SHARED else StorageLabel(origin);
      ReplaceRepresents(originOf, grants, m, NewGrant(ruling, account, place, auth));
    }
  }

  lemma ReplaceRepresents(originOf: string -> string, grants: seq<Grant>, m: map<Id, Ruling>, g: Grant)
    requires Represents(originOf, grants, m) && Written(originOf, g) && g.decision.Some?
    ensures Represents(originOf, WithoutId(grants, g.id) + [g], m[g.id := g.decision.value])
  {
    hide Written, WithoutId, UniqueIds;
    var rest := WithoutId(grants, g.id);
    var grants' := rest + [g];
    WithoutIdKeeps(grants, g.id);
    UniqueLast(rest, g);
    forall k | k in m && k != g.id ensures Holds(grants', k) {
      assert Holds(grants, k);
      var h :| h in grants && h.id == k;
      assert h in grants';
    }
    assert g in grants';
    assert Holds(grants', g.id);
  }

  function Left(m: map<Id, Ruling>, filter: RevokeFilter): map<Id, Ruling> {
    map k | k in m && (EmptyField(filter) || !Strikes(filter, k, k.account, k.site)) :: m[k]
  }

  lemma WrittenId(originOf: string -> string, g: Grant)
    requires Written(originOf, g)
    ensures g.id.account == g.account && g.id.site == g.origin
  {}

  /** A revocation takes out of the map exactly the entries its filter strikes. */
  lemma RevokeRefines(originOf: string -> string, grants: seq<Grant>, m: map<Id, Ruling>, filter: RevokeFilter)
    requires Represents(originOf, grants, m)
    ensures Represents(originOf, Revoke(grants, filter), Left(m, filter))
  {
    hide Strikes, Unstruck, Written, UniqueIds;
    if EmptyField(filter) {
      assert Left(m, filter) == m;
    } else {
      UnstruckKeeps(grants, filter);
      var m' := Left(m, filter);
      var grants' := Unstruck(grants, filter);
      forall g | g in grants' ensures g.id in m' {
        assert g in grants;
        WrittenId(originOf, g);
      }
      forall k | k in m' ensures Holds(grants', k) {
        assert Holds(grants, k);
        var h :| h in grants && h.id == k;
        WrittenId(originOf, h);
        assert h in grants';
      }
    }
  }

  lemma NothingGranted(originOf: string -> string)
    ensures Represents(originOf, [], map[])
  {}

  // ── Whole runs ──

  datatype Op =
    | DoSave(account: string, origin: string, auth: Auth, scope: Consent, current: bool, ruling: Ruling)
    | DoRevoke(filter: RevokeFilter)

  function Apply(grants: seq<Grant>, op: Op): seq<Grant> {
    match op
    case DoSave(account, origin, auth, scope, current, ruling) => Save(grants, account, origin, auth, scope, current, ruling).0
    case DoRevoke(filter) => Revoke(grants, filter)
  }

  function Run(grants: seq<Grant>, ops: seq<Op>): seq<Grant> {
    if ops == [] then grants else Apply(Run(grants, ops[..|ops| - 1]), ops[|ops| - 1])
  }

  ghost predicate AllParsed(originOf: string -> string, ops: seq<Op>) {
    forall i :: 0 <= i < |ops| && ops[i].DoSave? ==> Parsed(originOf, ops[i].auth)
  }

  function ApplyMap(m: map<Id, Ruling>, op: Op): map<Id, Ruling> {
    match op
    case DoSave(account, origin, auth, scope, current, ruling) => SaveMap(m, account, origin, auth, scope, current, ruling).0
    case DoRevoke(filter) => Left(m, filter)
  }

  function RunMap(m: map<Id, Ruling>, ops: seq<Op>): map<Id, Ruling> {
    if ops == [] then m else ApplyMap(RunMap(m, ops[..|ops| - 1]), ops[|ops| - 1])
  }

  lemma ApplyRefines(originOf: string -> string, grants: seq<Grant>, m: map<Id, Ruling>, op: Op)
    requires Represents(originOf, grants, m) && (op.DoSave? ==> Parsed(originOf, op.auth))
    ensures Represents(originOf, Apply(grants, op), ApplyMap(m, op))
  {
    hide Represents, Save, SaveMap, Revoke, Strikes, StorageLabel, Parsed;
    match op
    case DoSave(account, origin, auth, scope, current, ruling) =>
      SaveRefines(originOf, grants, m, account, origin, auth, scope, current, ruling);
    case DoRevoke(filter) => RevokeRefines(originOf, grants, m, filter);
  }

  /** From an empty store, after any saves and revocations, the list is the map those operations build. */
  lemma {:induction false} RunRefines(originOf: string -> string, ops: seq<Op>)
    requires AllParsed(originOf, ops)
    ensures Represents(originOf, Run([], ops), RunMap(map[], ops))
  {
    hide Represents, Apply, ApplyMap, Parsed;
    if ops == [] {
      NothingGranted(originOf);
    } else {
      RunRefines(originOf, ops[..|ops| - 1]);
      ApplyRefines(originOf, Run([], ops[..|ops| - 1]), RunMap(map[], ops[..|ops| - 1]), ops[|ops| - 1]);
    }
  }

  /** The operation revokes the entry `k`. */
  ghost predicate Withdraws(op: Op, k: Id) {
    op.DoRevoke? && !EmptyField(op.filter) && Strikes(op.filter, k, k.account, k.site)
  }

  lemma DenyStays(m: map<Id, Ruling>, op: Op, k: Id)
    requires RulingAt(m, k) == Some(Denied) && !Withdraws(op, k)
    ensures RulingAt(ApplyMap(m, op), k) == Some(Denied)
  {
    hide Strikes, StorageLabel;
  }

  /**
   * A deny lasts: once an entry says deny, it goes on saying so through any saves, until a revocation
   * whose filter strikes it.
   */
  lemma {:induction false} DenyPersists(ops: seq<Op>, i: nat, j: nat, k: Id)
    requires i <= j <= |ops|
    requires RulingAt(RunMap(map[], ops[..i]), k) == Some(Denied)
    requires forall n :: i <= n < j ==> !Withdraws(ops[n], k)
    ensures RulingAt(RunMap(map[], ops[..j]), k) == Some(Denied)
    decreases j
  {
    hide ApplyMap, Withdraws;
    if i < j {
      DenyPersists(ops, i, j - 1, k);
      DenyStays(RunMap(map[], ops[..j - 1]), ops[j - 1], k);
      assert ops[..j][..j - 1] == ops[..j - 1];
    }
  }

  /**
   * While the entry says deny, so does the store, whatever the shared relay entry or the backend
   * default allow, and an allow is refused at every scope, the one shared by all sites included.
   */
  lemma DenyAnswers(originOf: string -> string, ops: seq<Op>, registry: seq<Backend>, defaults: map<string, bool>,
                    account: string, origin: string, auth: Auth)
    requires AllParsed(originOf, ops) && Parsed(originOf, auth) && !auth.LegacyLogin? && account != "" && origin != ""
    requires RulingAt(RunMap(map[], ops), GrantId(account, StorageLabel(origin), auth)) == Some(Denied)
    ensures DecisionFor(Run([], ops), registry, defaults, account, origin, auth) == Some(Denied)
    ensures forall scope: Consent, current :: Save(Run([], ops), account, origin, auth, scope, current, Allowed) == (Run([], ops), Threw)
  {
    hide Represents, RunMap, Run, StorageLabel, BackendDefault, Parsed, SomeAllow, SomeDeny, GrantId;
    RunRefines(originOf, ops);
    ListRefinesMap(originOf, Run([], ops), RunMap(map[], ops), registry, defaults, account, origin, auth);
    SomeByKey(originOf, Run([], ops), RunMap(map[], ops), account, StorageLabel(origin), auth);
  }

  // ── The store object ──

  class GrantStore {
    const registry: seq<Backend>
    var grants: seq<Grant>
    var defaults: map<string, bool>

    constructor (registry: seq<Backend>)
      ensures grants == [] && defaults == map[] && this.registry == registry
    {
      this.registry, grants, defaults := registry, [], map[];
    }

    method Decide(account: string, origin: string, auth: Auth) returns (r: Option<Ruling>)
      ensures r == DecisionFor(grants, registry, defaults, account, origin, auth)
    {
      hide StorageLabel, BackendDefault, Governs;
      if auth.LegacyLogin? || account == "" || origin == "" { return None; }
      var place := StorageLabel(origin);
      var i, allowed := 0, false;
      while i < |grants|
        invariant 0 <= i <= |grants|
        invariant forall k :: 0 <= k < i ==> !(Governs(grants[k], account, place, auth) && grants[k].decision == Some(Denied))
        invariant allowed <==> exists k :: 0 <= k < i && Governs(grants[k], account, place, auth) && grants[k].decision != Some(Denied)
      {
        if Governs(grants[i], account, place, auth) {
          if grants[i].decision == Some(Denied) { return Some(Denied); }
          allowed := true;
        }
        i := i + 1;
      }
      if allowed { return Some(Allowed); }
      r := if BackendDefault(registry, defaults, account, origin, auth) then Some(Allowed) else None;
    }

    method SaveGrant(account: string, origin: string, auth: Auth, scope: Consent, current: bool, ruling: Ruling) returns (result: SaveResult)
      modifies this`grants
      ensures (grants, result) == Save(old(grants), account, origin, auth, scope, current, ruling)
    {
      hide StorageLabel, Governs;
      if account == "" || origin == "" || !ValidScope(auth, scope) || (ruling.Denied? && !scope.Site?) { return Threw; }
      var place := StorageLabel(origin);
      if !current { return Threw; }
      if ruling.Allowed? && SomeDeny(grants, account, place, auth) { return Threw; }
      if scope.Once? { return NotStored; }
      var g := NewGrant(ruling, account, if scope.ConnectedSites? then SHARED else place, auth);
      var kept: seq<Grant>, i := [], 0;
      while i < |grants|
        modifies {}
        invariant 0 <= i <= |grants| && kept == WithoutId(grants[..i], g.id)
      {
        assert grants[..i + 1][..i] == grants[..i];
        if grants[i].id != g.id { kept := kept + [grants[i]]; }
        i := i + 1;
      }
      assert grants[..i] == grants;
      grants := kept + [g];
      result := Saved;
    }

    method RevokeGrants(filter: RevokeFilter)
      modifies this
      ensures grants == Revoke(old(grants), filter) && defaults == RevokeDefaults(old(defaults), filter)
    {
      hide Strikes;
      if EmptyField(filter) { return; }
      if filter.id.None? && filter.origin.None? {
        defaults := if filter.account.Some? then defaults - {filter.account.value} else map[];
      }
      var kept: seq<Grant>, i := [], 0;
      while i < |grants|
        modifies {}
        invariant 0 <= i <= |grants| && kept == Unstruck(grants[..i], filter)
      {
        assert grants[..i + 1][..i] == grants[..i];
        var g := grants[i];
        if !Strikes(filter, g.id, g.account, g.origin) { kept := kept + [g]; }
        i := i + 1;
      }
      assert grants[..i] == grants;
      grants := kept;
    }

    method SetDefaultBackendAuth(account: string, enabled: bool) returns (ok: bool)
      modifies this`defaults
      ensures ok <==> account != ""
      ensures defaults == if ok then old(defaults)[account := enabled] else old(defaults)
    {
      ok := account != "";
      if ok { defaults := defaults[account := enabled]; }
    }
  }
}
