/** Layered rules, and the two migrations that rewrite the tree without changing what a site may do. */
module PermissionStore {
  import opened Common
  import opened PermissionKey
  import opened Origin

  const GLOBAL := "_global"
  const DEFAULT := "_default"

  type Tree = map<string, map<string, Bucket>>

  function At(tree: Tree, scope: string, id: string): Bucket {
    if scope in tree && id in tree[scope] then tree[scope][id] else map[]
  }

  /** `originPermissionBucket`: the hostname's rules under those of the exact origin. */
  function OriginBucket(tree: Tree, origin: string, id: string): Bucket {
    var scopes := SiteScopes(origin);
    (if |scopes| == 2 then At(tree, scopes[1], id) else map[]) + At(tree, scopes[0], id)
  }

  /** `effectiveOriginPermissions`: shared rules, the account's shared rules, the site's, the account's for the site. */
  function Effective(tree: Tree, origin: string, id: string): Bucket {
    At(tree, GLOBAL, DEFAULT) + At(tree, GLOBAL, id) + OriginBucket(tree, origin, DEFAULT) + OriginBucket(tree, origin, id)
  }

  /** The layering as the source runs it: scopes in reverse, one entry at a time. */
  method ReadOriginBucket(tree: Tree, origin: string, id: string) returns (result: Bucket)
    ensures result == OriginBucket(tree, origin, id)
  {
    hide SiteScopes;
    var scopes := SiteScopes(origin);
    result := map[];
    var i := |scopes|;
    while i > 0
      invariant 0 <= i <= |scopes|
      invariant result == (if |scopes| == 2 && i < 2 then At(tree, scopes[1], id) else map[]) + (if i == 0 then At(tree, scopes[0], id) else map[])
    {
      i := i - 1;
      result := Overlay(result, At(tree, scopes[i], id));
    }
  }

  method Overlay(below: Bucket, layer: Bucket) returns (result: Bucket)
    ensures result == below + layer
  {
    result := below;
    var rest := layer.Keys;
    while rest != {}
      invariant rest <= layer.Keys
      invariant result == below + (layer - rest)
      decreases |rest|
    {
      var key :| key in rest;
      result := result[key := layer[key]];
      rest := rest - {key};
    }
    assert layer - {} == layer;
  }

  // ── Labels ──

  lemma NoColonNoOrigin(place: string)
    requires forall i :: 0 <= i < |place| ==> place[i] != ':'
    ensures SiteScopes(place) == [place]
  {
    hide HostnameOf, EndsOf, HostOf, PortOf, Lower;
  }

  /** The labels of the label a caller is stored under are the caller's own. */
  lemma EffectiveByLabel(tree: Tree, origin: string, id: string)
    ensures Effective(tree, StorageLabel(origin), id) == Effective(tree, origin, id)
    ensures OriginBucket(tree, StorageLabel(origin), id) == OriginBucket(tree, origin, id)
  {
    ScopesAreStable(origin);
    hide SiteScopes;
  }

  // ── Turning on inheritance ──

  function Asks(b: Bucket): Bucket {
    map k | k in b :: Ask
  }

  function InheritedSite(tree: Tree, origin: string, ids: set<string>, shared: bool): map<string, Bucket>
    requires origin in tree
  {
    if shared then (if DEFAULT in tree[origin] then map[DEFAULT := tree[origin][DEFAULT]] else map[])
    else tree[origin] + map id | id in ids :: Asks(OriginBucket(tree, origin, DEFAULT)) + OriginBucket(tree, origin, id)
  }

  /** `migrateToInheritance`, the tree it journals. */
  function Inherit(tree: Tree, ids: set<string>, shared: bool): Tree {
    map origin | origin in tree :: InheritedSite(tree, origin, ids, shared)
  }

  /** What a legacy store answers from: the shared bucket, or the account's own. */
  function Legacy(tree: Tree, shared: bool, origin: string, id: string): Bucket {
    if shared then OriginBucket(tree, origin, DEFAULT) else OriginBucket(tree, origin, id)
  }

  /** The rewriting loop. */
  method InheritTree(original: Tree, ids: set<string>, shared: bool) returns (tree: Tree)
    ensures tree == Inherit(original, ids, shared)
  {
    hide OriginBucket, Asks;
    tree := original;
    var rest := original.Keys;
    while rest != {}
      invariant rest <= original.Keys
      invariant tree.Keys == original.Keys
      invariant forall o :: o in rest ==> tree[o] == original[o]
      invariant forall o :: o in original && o !in rest ==> tree[o] == InheritedSite(original, o, ids, shared)
      decreases |rest|
    {
      var origin :| origin in rest;
      if shared {
        tree := tree[origin := if DEFAULT in original[origin] then map[DEFAULT := original[origin][DEFAULT]] else map[]];
      } else {
        var site := InheritAccounts(original, origin, ids);
        tree := tree[origin := site];
      }
      rest := rest - {origin};
    }
  }

  method InheritAccounts(original: Tree, origin: string, ids: set<string>) returns (site: map<string, Bucket>)
    requires origin in original
    ensures site == InheritedSite(original, origin, ids, false)
  {
    hide OriginBucket, Asks;
    var defaults := OriginBucket(original, origin, DEFAULT);
    site := original[origin];
    var left := ids;
    while left != {}
      invariant left <= ids
      invariant site == original[origin] + map id | id in ids - left :: Asks(defaults) + OriginBucket(original, origin, id)
      decreases |left|
    {
      var id :| id in left;
      site := site[id := Asks(defaults) + OriginBucket(original, origin, id)];
      left := left - {id};
    }
    assert ids - {} == ids;
  }

  lemma InheritAt(tree: Tree, ids: set<string>, shared: bool, scope: string, id: string)
    requires id in ids && DEFAULT !in ids
    ensures At(Inherit(tree, ids, shared), scope, DEFAULT) == At(tree, scope, DEFAULT)
    ensures At(Inherit(tree, ids, shared), scope, id) ==
            if shared || scope !in tree then map[] else Asks(OriginBucket(tree, scope, DEFAULT)) + OriginBucket(tree, scope, id)
  {
    hide OriginBucket, Asks;
  }

  /** Over a stored hostname, the exact origin's account layer covers the hostname's. */
  lemma LayersCover(tree: Tree, origin: string, id: string)
    requires |SiteScopes(origin)| == 2
    ensures var host := SiteScopes(origin)[1];
            && OriginBucket(tree, host, id) == At(tree, host, id)
            && OriginBucket(tree, SiteScopes(origin)[0], id) == OriginBucket(tree, origin, id)
            && At(tree, host, id).Keys <= OriginBucket(tree, origin, id).Keys
  {
    ScopesAreStable(origin);
    hide SiteScopes;
  }

  lemma SingleScope(tree: Tree, origin: string, id: string)
    requires |SiteScopes(origin)| == 1
    ensures OriginBucket(tree, SiteScopes(origin)[0], id) == OriginBucket(tree, origin, id) == At(tree, SiteScopes(origin)[0], id)
  {
    ScopesAreStable(origin);
    hide SiteScopes;
  }

  /** The account layer after the per-account migration. */
  lemma InheritedAccountLayer(tree: Tree, ids: set<string>, origin: string, id: string)
    requires id in ids && DEFAULT !in ids
    ensures OriginBucket(Inherit(tree, ids, false), origin, id) ==
            Asks(OriginBucket(tree, origin, DEFAULT)) + OriginBucket(tree, origin, id)
  {
    var scopes := SiteScopes(origin);
    hide SiteScopes, Inherit, At, Asks;
    InheritAt(tree, ids, false, scopes[0], id);
    UnstoredScope(tree, scopes[0], DEFAULT);
    UnstoredScope(tree, scopes[0], id);
    var d0, a0 := At(tree, scopes[0], DEFAULT), At(tree, scopes[0], id);
    if |scopes| == 2 {
      InheritAt(tree, ids, false, scopes[1], id);
      UnstoredScope(tree, scopes[1], DEFAULT);
      UnstoredScope(tree, scopes[1], id);
      LayersCover(tree, origin, DEFAULT);
      LayersCover(tree, origin, id);
      CoverLaw(At(tree, scopes[1], DEFAULT), d0, At(tree, scopes[1], id), a0);
    } else {
      SingleScope(tree, origin, DEFAULT);
      SingleScope(tree, origin, id);
      CoverLaw(map[], d0, map[], a0);
    }
  }

  lemma UnstoredScope(tree: Tree, scope: string, id: string)
    ensures scope !in tree ==> At(tree, scope, id) == map[]
  {}

  /** Asking for the shared keys of both layers at once covers asking for those of the lower one. */
  lemma CoverLaw(d1: Bucket, d0: Bucket, a1: Bucket, a0: Bucket)
    ensures (Asks(d1) + a1) + (Asks(d1 + d0) + (a1 + a0)) == Asks(d1 + d0) + (a1 + a0)
    ensures Asks(map[]) + map[] + (Asks(d0) + a0) == Asks(d0) + a0
    ensures d0 == map[] && a0 == map[] ==> (Asks(d1) + a1) + map[] == Asks(d1 + d0) + (a1 + a0)
    ensures d1 == map[] && a1 == map[] ==> map[] + (Asks(d1 + d0) + (a1 + a0)) == Asks(d1 + d0) + (a1 + a0)
    ensures d0 == map[] && a0 == map[] && d1 == map[] && a1 == map[] ==> map[] + map[] == Asks(d1 + d0) + (a1 + a0)
  {}

  lemma InheritedDefaults(tree: Tree, ids: set<string>, shared: bool, origin: string, id: string)
    requires id in ids && DEFAULT !in ids
    ensures OriginBucket(Inherit(tree, ids, shared), origin, DEFAULT) == OriginBucket(tree, origin, DEFAULT)
    ensures shared ==> OriginBucket(Inherit(tree, ids, shared), origin, id) == map[]
  {
    hide SiteScopes, Inherit;
    var scopes := SiteScopes(origin);
    InheritAt(tree, ids, shared, scopes[0], id);
    if |scopes| == 2 { InheritAt(tree, ids, shared, scopes[1], id); }
  }

  lemma NoGlobal(tree: Tree, ids: set<string>, shared: bool, id: string)
    requires GLOBAL !in tree
    ensures At(Inherit(tree, ids, shared), GLOBAL, id) == map[]
  {}

  /**
   * What a known account's bucket is after the migration, for every origin, stored or not. In shared
   * mode it is the very bucket answered from before. In per-account mode it is the account's own
   * bucket over an explicit ask for every shared key the account said nothing about.
   */
  lemma InheritanceIsExact(tree: Tree, ids: set<string>, shared: bool, origin: string, id: string)
    requires GLOBAL !in tree && id in ids && DEFAULT !in ids
    ensures Effective(Inherit(tree, ids, shared), origin, id) ==
            if shared then Legacy(tree, true, origin, id)
            else Asks(OriginBucket(tree, origin, DEFAULT)) + Legacy(tree, false, origin, id)
  {
    hide SiteScopes, Inherit, OriginBucket, At;
    NoGlobal(tree, ids, shared, DEFAULT);
    NoGlobal(tree, ids, shared, id);
    InheritedDefaults(tree, ids, shared, origin, id);
    if !shared { InheritedAccountLayer(tree, ids, origin, id); }
  }

  /** Turning on inheritance keeps every known account's decisions, with "absent" read as `ask`. */
  lemma InheritanceKeepsValues(tree: Tree, ids: set<string>, shared: bool, origin: string, id: string)
    requires GLOBAL !in tree && id in ids && DEFAULT !in ids
    ensures SameValues(Legacy(tree, shared, origin, id), Effective(Inherit(tree, ids, shared), origin, id))
  {
    hide SiteScopes, Inherit, OriginBucket, Effective;
    InheritanceIsExact(tree, ids, shared, origin, id);
  }

  /**
   * The full answer survives too, except that in per-account mode an account's broader allow no
   * longer answers for a key the shared bucket named.
   */
  lemma InheritanceKeepsAnswers(tree: Tree, ids: set<string>, shared: bool, origin: string, id: string, method_: string, kind: Kind)
    requires GLOBAL !in tree && id in ids && DEFAULT !in ids
    ensures var before := Legacy(tree, shared, origin, id);
            var keys := ConsultedKeys(method_, kind);
            Resolve(Effective(Inherit(tree, ids, shared), origin, id), method_, kind).decision == Resolve(before, method_, kind).decision <==>
            (shared || Resolve(before, method_, kind).decision == Deny || Ungrantable(method_, kind)
             || (Opens(before, keys, before.Keys) <==> Opens(before, keys, before.Keys + OriginBucket(tree, origin, DEFAULT).Keys)))
  {
    hide SiteScopes, Inherit, OriginBucket, Effective, Resolve, ConsultedKeys, Opens, Ungrantable;
    InheritanceIsExact(tree, ids, shared, origin, id);
    InheritanceKeepsValues(tree, ids, shared, origin, id);
    var before, after := Legacy(tree, shared, origin, id), Effective(Inherit(tree, ids, shared), origin, id);
    SameAnswerExactly(before, after, method_, kind);
    if !shared {
      assert after.Keys == before.Keys + OriginBucket(tree, origin, DEFAULT).Keys;
    }
  }

  /** Whatever changes, turning on inheritance allows nothing that was not allowed. */
  lemma InheritanceNeverGrants(tree: Tree, ids: set<string>, shared: bool, origin: string, id: string, method_: string, kind: Kind)
    requires GLOBAL !in tree && id in ids && DEFAULT !in ids
    requires Resolve(Effective(Inherit(tree, ids, shared), origin, id), method_, kind).decision == Allow
    ensures Resolve(Legacy(tree, shared, origin, id), method_, kind).decision == Allow
  {
    hide SiteScopes, Inherit, OriginBucket, Effective, ConsultedKeys, Opens, FirstDenied, FirstSet;
    InheritanceIsExact(tree, ids, shared, origin, id);
    InheritanceKeepsValues(tree, ids, shared, origin, id);
    var before, after := Legacy(tree, shared, origin, id), Effective(Inherit(tree, ids, shared), origin, id);
    SameValuesSameDenials(before, after, method_, kind);
    AllowMeansOpen(before, method_, kind);
    AllowMeansOpen(after, method_, kind);
    SameOpens(before, after, ConsultedKeys(method_, kind), after.Keys);
    FewerPresent(before, ConsultedKeys(method_, kind), after.Keys, before.Keys);
  }

  lemma FewerPresent(b: Bucket, keys: seq<string>, more: set<string>, fewer: set<string>)
    requires fewer <= more && Opens(b, keys, more)
    ensures Opens(b, keys, fewer)
  {
    var j :| 0 <= j < |keys| && ValueOf(b, keys[j]) == Allow && forall m :: 0 <= m < j && ValueOf(b, keys[m]) == Ask ==> keys[m] !in more;
    assert forall m :: 0 <= m < j && ValueOf(b, keys[m]) == Ask ==> keys[m] !in fewer;
  }

  /** One site: a rule in the shared bucket, which per-account mode never reads, and an account's wildcard allow. */
  const UNREAD_SHARED: Tree := map["a" := map[DEFAULT := map["getPublicKey" := Allow], "me" := map["*" := Allow]]]

  /** In per-account mode the wildcard allow stops answering for the key that only the shared bucket named. */
  lemma WildcardIsNarrowed()
    ensures Resolve(Legacy(UNREAD_SHARED, false, "a", "me"), "getPublicKey", NotInteger).decision == Allow
    ensures Resolve(Effective(Inherit(UNREAD_SHARED, {"me"}, false), "a", "me"), "getPublicKey", NotInteger).decision == Ask
  {
    hide Inherit, Effective, OriginBucket, Resolve;
    UnreadShared();
    InheritanceIsExact(UNREAD_SHARED, {"me"}, false, "a", "me");
    PublicKeyAnswer(map["*" := Allow]);
    PublicKeyAnswer(map["getPublicKey" := Ask, "*" := Allow]);
  }

  lemma UnreadShared()
    ensures OriginBucket(UNREAD_SHARED, "a", DEFAULT) == map["getPublicKey" := Allow]
    ensures OriginBucket(UNREAD_SHARED, "a", "me") == map["*" := Allow]
    ensures Asks(map["getPublicKey" := Allow]) + map["*" := Allow] == map["getPublicKey" := Ask, "*" := Allow]
  {
    NoColonNoOrigin("a");
    hide SiteScopes;
  }

  // ── Consolidating to global rules ──

  /** One of `sites`, other than the global scope, has a shared rule `d` for `k`. */
  predicate SiteDefault(tree: Tree, sites: set<string>, k: string, d: Decision) {
    exists o :: o in sites && o != GLOBAL && k in At(tree, o, DEFAULT) && At(tree, o, DEFAULT)[k] == d
  }

  /** Every key the existing shared rules or a shared bucket of `sites` names. */
  function SharedKeys(tree: Tree, sites: set<string>): set<string> {
    At(tree, GLOBAL, DEFAULT).Keys + set o, k | o in sites && o != GLOBAL && k in At(tree, o, DEFAULT) :: k
  }

  /** The consolidated shared rules: an existing one stands, else the most restrictive any site had. */
  function GlobalsOf(tree: Tree, sites: set<string>): Bucket {
    var existing := At(tree, GLOBAL, DEFAULT);
    map k | k in SharedKeys(tree, sites) ::
      if k in existing then existing[k]
      else if SiteDefault(tree, sites, k, Deny) then Deny
      else if SiteDefault(tree, sites, k, Ask) then Ask
      else Allow
  }

  function Globals(tree: Tree): Bucket {
    GlobalsOf(tree, tree.Keys)
  }

  /** The tree the per-account differences are written into. */
  function Consolidated(tree: Tree): Tree {
    (map o | o in tree && o != GLOBAL :: tree[o] - {DEFAULT})[GLOBAL := map[DEFAULT := Globals(tree)]]
  }

  function Differences(previous: Bucket, next: Bucket): Bucket {
    map k | k in previous.Keys + next.Keys && ValueOf(previous, k) != ValueOf(next, k) :: ValueOf(previous, k)
  }

  function WithBucket(tree: Tree, origin: string, id: string, b: Bucket): Tree {
    tree[origin := (if origin in tree then tree[origin] else map[])[id := b]]
  }

  /** One site and account: write what the new layers would get wrong. */
  function Settle(original: Tree, tree: Tree, origin: string, id: string): Tree {
    var d := Differences(Effective(original, origin, id), Effective(tree, origin, id));
    if d == map[] then tree else WithBucket(tree, origin, id, At(tree, origin, id) + d)
  }

  function SettleAccounts(original: Tree, tree: Tree, origin: string, ids: seq<string>): Tree {
    if ids == [] then tree
    else Settle(original, SettleAccounts(original, tree, origin, ids[..|ids| - 1]), origin, ids[|ids| - 1])
  }

  function SettleSites(original: Tree, tree: Tree, order: seq<string>, ids: seq<string>): Tree {
    if order == [] then tree
    else SettleAccounts(original, SettleSites(original, tree, order[..|order| - 1], ids), order[|order| - 1], ids)
  }

  /** `migrateToGlobalRules`, the tree it journals, for one order of sites and accounts. */
  function Consolidate(original: Tree, order: seq<string>, ids: seq<string>): Tree {
    SettleSites(original, Consolidated(original), order, ids)
  }

  /** Hostnames and other plain labels come before exact origins; the order is otherwise free. */
  ghost predicate Ordered(order: seq<string>) {
    forall i, j :: 0 <= i < j < |order| ==> |SiteScopes(order[i])| <= |SiteScopes(order[j])|
  }

  lemma WithBucketAt(tree: Tree, origin: string, id: string, b: Bucket, scope: string, id': string)
    ensures At(WithBucket(tree, origin, id, b), scope, id') == if scope == origin && id' == id then b else At(tree, scope, id')
  {}

  /** Writing one account's bucket for one label leaves every other effective bucket alone. */
  lemma WriteElsewhere(tree: Tree, place: string, id: string, b: Bucket, origin: string, id': string)
    requires place != GLOBAL && id != DEFAULT && (id' != id || place !in SiteScopes(origin))
    ensures Effective(WithBucket(tree, place, id, b), origin, id') == Effective(tree, origin, id')
  {
    hide SiteScopes, At, WithBucket;
    var scopes := SiteScopes(origin);
    var tree' := WithBucket(tree, place, id, b);
    WithBucketAt(tree, place, id, b, GLOBAL, DEFAULT);
    WithBucketAt(tree, place, id, b, GLOBAL, id');
    WithBucketAt(tree, place, id, b, scopes[0], DEFAULT);
    WithBucketAt(tree, place, id, b, scopes[0], id');
    assert scopes[0] in scopes;
    if |scopes| == 2 {
      WithBucketAt(tree, place, id, b, scopes[1], DEFAULT);
      WithBucketAt(tree, place, id, b, scopes[1], id');
      assert scopes[1] in scopes;
    }
  }

  /** The override lemma: what is written under the exact label is the last word there. */
  lemma WriteHere(tree: Tree, place: string, id: string, d: Bucket)
    requires place != GLOBAL && id != DEFAULT && SiteScopes(place)[0] == place
    ensures Effective(WithBucket(tree, place, id, At(tree, place, id) + d), place, id) == Effective(tree, place, id) + d
  {
    ScopesAreStable(place);
    hide SiteScopes, WithBucket, At;
    var scopes := SiteScopes(place);
    var b := At(tree, place, id) + d;
    WithBucketAt(tree, place, id, b, GLOBAL, DEFAULT);
    WithBucketAt(tree, place, id, b, GLOBAL, id);
    WithBucketAt(tree, place, id, b, scopes[0], DEFAULT);
    WithBucketAt(tree, place, id, b, scopes[0], id);
    var host, shared := map[], At(tree, GLOBAL, DEFAULT) + At(tree, GLOBAL, id) + OriginBucket(tree, place, DEFAULT);
    if |scopes| == 2 {
      WithBucketAt(tree, place, id, b, scopes[1], DEFAULT);
      WithBucketAt(tree, place, id, b, scopes[1], id);
      host := At(tree, scopes[1], id);
    }
    LayerAssociates(host, At(tree, place, id), d);
    LayerAssociates(shared, host + At(tree, place, id), d);
  }

  lemma LayerAssociates(a: Bucket, b: Bucket, c: Bucket)
    ensures a + (b + c) == (a + b) + c
  {}

  lemma DifferencesRepair(previous: Bucket, next: Bucket)
    ensures SameValues(previous, next + Differences(previous, next))
  {}

  lemma SettleHere(original: Tree, tree: Tree, place: string, id: string)
    requires place != GLOBAL && id != DEFAULT && SiteScopes(place)[0] == place
    ensures Effective(Settle(original, tree, place, id), place, id) ==
            Effective(tree, place, id) + Differences(Effective(original, place, id), Effective(tree, place, id))
    ensures SameValues(Effective(original, place, id), Effective(Settle(original, tree, place, id), place, id))
  {
    hide SiteScopes, Effective, WithBucket, Differences, SameValues, At;
    var previous, next := Effective(original, place, id), Effective(tree, place, id);
    DifferencesRepair(previous, next);
    WriteHere(tree, place, id, Differences(previous, next));
  }

  lemma SettleElsewhere(original: Tree, tree: Tree, place: string, id: string, origin: string, id': string)
    requires place != GLOBAL && id != DEFAULT && (id' != id || place !in SiteScopes(origin))
    ensures Effective(Settle(original, tree, place, id), origin, id') == Effective(tree, origin, id')
  {
    hide SiteScopes, Effective, WithBucket, Differences, At;
    WriteElsewhere(tree, place, id,
                   At(tree, place, id) + Differences(Effective(original, place, id), Effective(tree, place, id)), origin, id');
  }

  lemma {:induction false} AccountsElsewhere(original: Tree, tree: Tree, place: string, ids: seq<string>, origin: string, id: string)
    requires place != GLOBAL && DEFAULT !in ids && place !in SiteScopes(origin)
    ensures Effective(SettleAccounts(original, tree, place, ids), origin, id) == Effective(tree, origin, id)
  {
    hide SiteScopes, Effective, Settle;
    if ids != [] {
      AccountsElsewhere(original, tree, place, ids[..|ids| - 1], origin, id);
      SettleElsewhere(original, SettleAccounts(original, tree, place, ids[..|ids| - 1]), place, ids[|ids| - 1], origin, id);
    }
  }

  lemma {:induction false} AccountsHere(original: Tree, tree: Tree, place: string, ids: seq<string>, id: string)
    requires place != GLOBAL && DEFAULT !in ids && id in ids && SiteScopes(place)[0] == place
    ensures SameValues(Effective(original, place, id), Effective(SettleAccounts(original, tree, place, ids), place, id))
  {
    hide SiteScopes, Effective, Settle, SameValues;
    var front, last := ids[..|ids| - 1], ids[|ids| - 1];
    var before := SettleAccounts(original, tree, place, front);
    if last == id {
      SettleHere(original, before, place, id);
    } else {
      AccountsHere(original, tree, place, front, id);
      SettleElsewhere(original, before, place, last, place, id);
    }
  }

  /** A label that comes later in the order is not the hostname of one that came before. */
  lemma LaterIsNoHostname(order: seq<string>, i: nat, j: nat)
    requires Ordered(order) && NoDup(order) && i < j < |order| && SiteScopes(order[i])[0] == order[i]
    ensures order[j] !in SiteScopes(order[i])
  {
    ScopesAreStable(order[i]);
    hide SiteScopes;
  }

  lemma {:induction false} SitesKeepValues(original: Tree, tree: Tree, order: seq<string>, ids: seq<string>, place: string, id: string)
    requires Ordered(order) && NoDup(order) && GLOBAL !in order && DEFAULT !in ids && id in ids
    requires place in order && SiteScopes(place)[0] == place
    ensures SameValues(Effective(original, place, id), Effective(SettleSites(original, tree, order, ids), place, id))
  {
    hide SiteScopes, Effective, SettleAccounts, SameValues;
    var front, last := order[..|order| - 1], order[|order| - 1];
    var before := SettleSites(original, tree, front, ids);
    if last == place {
      AccountsHere(original, before, place, ids, id);
    } else {
      assert order == front + [last];
      SitesKeepValues(original, tree, front, ids, place, id);
      var i :| 0 <= i < |front| && front[i] == place;
      assert order[i] == place;
      LaterIsNoHostname(order, i, |order| - 1);
      AccountsElsewhere(original, before, last, ids, place, id);
    }
  }

  /**
   * Consolidating keeps every known account's decision: for every origin whose own place was listed
   * or stored, every account and every key, the effective value is what it was, with "absent" read
   * as `ask`, whatever the order within each group of labels.
   */
  lemma ConsolidationKeepsValues(original: Tree, order: seq<string>, ids: seq<string>, origin: string, id: string)
    requires Ordered(order) && NoDup(order) && GLOBAL !in order && DEFAULT !in ids && id in ids
    requires StorageLabel(origin) in order
    ensures SameValues(Effective(original, origin, id), Effective(Consolidate(original, order, ids), origin, id))
  {
    var place := StorageLabel(origin);
    ScopesAreStable(origin);
    hide SiteScopes, Effective, SettleSites, SameValues, Consolidated;
    SitesKeepValues(original, Consolidated(original), order, ids, place, id);
    EffectiveByLabel(original, origin, id);
    EffectiveByLabel(Consolidate(original, order, ids), origin, id);
  }

  /** In particular a refusal stays a refusal, and nothing else becomes one. */
  lemma ConsolidationKeepsDenials(original: Tree, order: seq<string>, ids: seq<string>, origin: string, id: string, method_: string, kind: Kind)
    requires Ordered(order) && NoDup(order) && GLOBAL !in order && DEFAULT !in ids && id in ids
    requires StorageLabel(origin) in order
    ensures Resolve(Effective(original, origin, id), method_, kind).decision == Deny <==>
            Resolve(Effective(Consolidate(original, order, ids), origin, id), method_, kind).decision == Deny
  {
    hide StorageLabel, Ordered, NoDup, Effective, Consolidate, SameValues, Resolve;
    ConsolidationKeepsValues(original, order, ids, origin, id);
    SameValuesSameDenials(Effective(original, origin, id), Effective(Consolidate(original, order, ids), origin, id), method_, kind);
  }

  /** Both migrations in a row, from a legacy store to global rules. */
  lemma BothMigrationsKeepValues(tree: Tree, known: set<string>, shared: bool, order: seq<string>, ids: seq<string>, origin: string, id: string)
    requires GLOBAL !in tree && DEFAULT !in known && id in known
    requires Ordered(order) && NoDup(order) && GLOBAL !in order && DEFAULT !in ids && id in ids && StorageLabel(origin) in order
    ensures SameValues(Legacy(tree, shared, origin, id), Effective(Consolidate(Inherit(tree, known, shared), order, ids), origin, id))
  {
    hide StorageLabel, Ordered, NoDup, Effective, Consolidate, Inherit, Legacy;
    InheritanceKeepsValues(tree, known, shared, origin, id);
    ConsolidationKeepsValues(Inherit(tree, known, shared), order, ids, origin, id);
  }
}
