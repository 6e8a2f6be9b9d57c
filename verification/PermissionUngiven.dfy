/**
 * The accounts the migration to global rules does not know: what they are answered before and after,
 * which refusals and which allows they gain, and that they lose no refusal.
 */
module PermissionUngiven {
  import opened Common
  import opened PermissionKey
  import opened PermissionStore
  import opened PermissionMigration
  import opened PermissionJournal
  import opened Origin

  // ── An account nobody settles reads the merged shared rules ──

  lemma {:induction false} AccountsOther(original: Tree, tree: Tree, place: string, ids: seq<string>, origin: string, id: string)
    requires place != GLOBAL && DEFAULT !in ids && id !in ids
    ensures Effective(SettleAccounts(original, tree, place, ids), origin, id) == Effective(tree, origin, id)
  {
    hide SiteScopes, Effective, Settle;
    if ids != [] {
      AccountsOther(original, tree, place, ids[..|ids| - 1], origin, id);
      SettleElsewhere(original, SettleAccounts(original, tree, place, ids[..|ids| - 1]), place, ids[|ids| - 1], origin, id);
    }
  }

  lemma {:induction false} SitesOther(original: Tree, tree: Tree, order: seq<string>, ids: seq<string>, origin: string, id: string)
    requires GLOBAL !in order && DEFAULT !in ids && id !in ids
    ensures Effective(SettleSites(original, tree, order, ids), origin, id) == Effective(tree, origin, id)
  {
    hide SiteScopes, Effective, SettleAccounts;
    if order != [] {
      SitesOther(original, tree, order[..|order| - 1], ids, origin, id);
      AccountsOther(original, SettleSites(original, tree, order[..|order| - 1], ids), order[|order| - 1], ids, origin, id);
    }
  }

  /** Nothing is stored for `id` anywhere. */
  ghost predicate Bucketless(tree: Tree, id: string) {
    forall site :: At(tree, site, id) == map[]
  }

  lemma ConsolidatedReads(tree: Tree, origin: string, id: string)
    requires id != DEFAULT && Bucketless(tree, id)
    ensures Effective(Consolidated(tree), origin, id) == Globals(tree)
  {
    hide SiteScopes, Globals;
    var after := Consolidated(tree);
    assert At(after, GLOBAL, DEFAULT) == Globals(tree);
    forall site ensures At(after, site, id) == map[] && (site != GLOBAL ==> At(after, site, DEFAULT) == map[]) {
      assert At(tree, site, id) == map[];
    }
  }

  lemma UnsettledReadsGlobals(tree: Tree, order: seq<string>, ids: seq<string>, origin: string, id: string)
    requires id != DEFAULT && id !in ids && DEFAULT !in ids && GLOBAL !in order && Bucketless(tree, id)
    ensures Effective(Consolidate(tree, order, ids), origin, id) == Globals(tree)
  {
    hide Effective, SettleSites, Consolidated, Globals, Bucketless;
    SitesOther(tree, Consolidated(tree), order, ids, origin, id);
    ConsolidatedReads(tree, origin, id);
  }

  // ── What the first migration leaves of it ──

  lemma InheritedAt(tree: Tree, ids: set<string>, shared: bool, site: string)
    requires DEFAULT !in ids
    ensures At(Inherit(tree, ids, shared), site, DEFAULT) == At(tree, site, DEFAULT)
    ensures forall id :: id != DEFAULT && id !in ids && !shared ==> At(Inherit(tree, ids, shared), site, id) == At(tree, site, id)
    ensures forall id :: id != DEFAULT && shared ==> At(Inherit(tree, ids, shared), site, id) == map[]
  {
    hide OriginBucket, Asks;
  }

  lemma InheritedGlobals(tree: Tree, ids: set<string>, shared: bool)
    requires DEFAULT !in ids
    ensures Globals(Inherit(tree, ids, shared)) == Globals(tree)
  {
    hide Inherit, At, SiteDefault;
    var after := Inherit(tree, ids, shared);
    InheritedKeys(tree, ids, shared);
    forall site ensures At(after, site, DEFAULT) == At(tree, site, DEFAULT) { InheritedAt(tree, ids, shared, site); }
    forall k, d ensures SiteDefault(after, tree.Keys, k, d) <==> SiteDefault(tree, tree.Keys, k, d) { SameSiteDefault(after, tree, tree.Keys, k, d); }
    assert SharedKeys(after, tree.Keys) == SharedKeys(tree, tree.Keys);
  }

  lemma InheritedKeys(tree: Tree, ids: set<string>, shared: bool)
    ensures Inherit(tree, ids, shared).Keys == tree.Keys
  {
    hide InheritedSite;
  }

  lemma SameSiteDefault(a: Tree, b: Tree, sites: set<string>, k: string, d: Decision)
    requires forall site :: At(a, site, DEFAULT) == At(b, site, DEFAULT)
    ensures SiteDefault(a, sites, k, d) <==> SiteDefault(b, sites, k, d)
  {
    hide At;
  }

  lemma UnknownBucketless(tree: Tree, given: set<string>, shared: bool, id: string)
    requires id != DEFAULT && DEFAULT !in MigrationAccounts(tree, given) && (shared || id !in MigrationAccounts(tree, given))
    ensures Bucketless(Inherit(tree, MigrationAccounts(tree, given), shared), id)
    ensures !shared ==> Bucketless(tree, id)
  {
    hide Inherit, MigrationAccounts;
    var ids := MigrationAccounts(tree, given);
    if !shared { UnstoredAt(tree, given, id); }
    forall site ensures At(Inherit(tree, ids, shared), site, id) == map[] { InheritedAt(tree, ids, shared, site); }
  }

  lemma UnstoredAt(tree: Tree, given: set<string>, id: string)
    requires id != DEFAULT && id !in MigrationAccounts(tree, given)
    ensures Bucketless(tree, id)
  {
    forall site ensures At(tree, site, id) == map[] {}
  }

  lemma BucketlessOrigin(tree: Tree, origin: string, id: string)
    requires Bucketless(tree, id)
    ensures OriginBucket(tree, origin, id) == map[]
  {
    hide SiteScopes, At;
    var scopes := SiteScopes(origin);
    assert At(tree, scopes[0], id) == map[];
    if |scopes| == 2 { assert At(tree, scopes[1], id) == map[]; }
  }

  // ── Before and after, on the store ──

  /** A legacy store, a completed pair of migrations, and an account the second does not know. */
  ghost predicate Ungiven(st: Stored, given: set<string>, order: seq<string>, ids: seq<string>, account: string) {
    && st.pending == None && !st.inherits && !st.globalRules && GLOBAL !in st.tree
    && Nameable(MigrationAccounts(st.tree, given))
    && (forall id :: id in ids <==> id in MigrationAccounts(Inheriting(st, given).tree, given))
    && GLOBAL !in order
    && account != "" && account != DEFAULT
    && account !in given && (st.shared || account !in MigrationAccounts(st.tree, given))
  }

  /** The bucket such an account is answered from before: the shared one in shared mode, none at all otherwise. */
  function ReadBefore(st: Stored, origin: string): Bucket {
    if st.shared then OriginBucket(st.tree, origin, DEFAULT) else map[]
  }

  function Migrated(st: Stored, given: set<string>, order: seq<string>, ids: seq<string>): Stored {
    Globalized(Inheriting(st, given), order, ids)
  }

  /**
   * An account the second migration does not know is answered from the shared rules of its site, or
   * from nothing, before, and from the merged shared rules of all sites after.
   */
  lemma UngivenAnswers(st: Stored, given: set<string>, order: seq<string>, ids: seq<string>, origin: string, method_: string, kind: Kind, account: string)
    requires Ungiven(st, given, order, ids, account)
    ensures Check(st, origin, method_, kind, account) == Says(Resolve(ReadBefore(st, origin), method_, kind))
    ensures Check(Migrated(st, given, order, ids), origin, method_, kind, account) == Says(Resolve(Globals(st.tree), method_, kind))
  {
    hide Resolve, Inherit, Consolidate, Effective, OriginBucket, MigrationAccounts, Globals, Bucketless;
    var accounts := MigrationAccounts(st.tree, given);
    GivenAreKnown(st.tree, given);
    KnownAfterInheriting(st.tree, given, st.shared);
    UnknownBucketless(st.tree, given, st.shared, account);
    if !st.shared { BucketlessOrigin(st.tree, origin, account); }
    InheritedGlobals(st.tree, accounts, st.shared);
    UnsettledReadsGlobals(Inherit(st.tree, accounts, st.shared), order, ids, origin, account);
  }

  /** Some site's shared rules deny a consulted key. */
  ghost predicate DeniedSomewhere(tree: Tree, keys: seq<string>) {
    exists i :: 0 <= i < |keys| && SiteDefault(tree, tree.Keys, keys[i], Deny)
  }

  /** The first consulted key any site shares a rule for is allowed by every site that does. */
  ghost predicate AllowedByAll(tree: Tree, keys: seq<string>) {
    exists j :: 0 <= j < |keys|
      && SiteDefault(tree, tree.Keys, keys[j], Allow) && !SiteDefault(tree, tree.Keys, keys[j], Ask) && !SiteDefault(tree, tree.Keys, keys[j], Deny)
      && forall m :: 0 <= m < j ==> keys[m] !in SharedKeys(tree, tree.Keys)
  }

  /** A merged rule, told from the sites' own. */
  lemma GlobalValue(tree: Tree, k: string)
    requires GLOBAL !in tree
    ensures k in Globals(tree) <==> k in SharedKeys(tree, tree.Keys)
    ensures ValueOf(Globals(tree), k) == Deny <==> SiteDefault(tree, tree.Keys, k, Deny)
    ensures ValueOf(Globals(tree), k) == Allow <==>
            SiteDefault(tree, tree.Keys, k, Allow) && !SiteDefault(tree, tree.Keys, k, Ask) && !SiteDefault(tree, tree.Keys, k, Deny)
  {
    if k in Globals(tree) { GlobalsFromSite(tree, tree.Keys, k); }
    forall d: Decision | SiteDefault(tree, tree.Keys, k, d) ensures k in Globals(tree) { GlobalsHasSite(tree, tree.Keys, k, d); }
    hide SiteDefault, SharedKeys;
  }

  lemma BeforeFromSite(tree: Tree, origin: string, k: string)
    requires GLOBAL !in tree && k in OriginBucket(tree, origin, DEFAULT)
    ensures SiteDefault(tree, tree.Keys, k, OriginBucket(tree, origin, DEFAULT)[k])
  {
    hide SiteScopes;
    var scopes := SiteScopes(origin);
    var site := if k in At(tree, scopes[0], DEFAULT) then scopes[0] else scopes[1];
    assert k in At(tree, site, DEFAULT) && site in tree;
  }

  /**
   * Afterwards it is refused exactly where some site's shared rules refuse, so it loses no refusal,
   * and keeps the answer `deny` alike if and only if it had it or no site refuses.
   */
  lemma UngivenDenials(st: Stored, given: set<string>, order: seq<string>, ids: seq<string>, origin: string, method_: string, kind: Kind, account: string)
    requires Ungiven(st, given, order, ids, account)
    ensures var before := Check(st, origin, method_, kind, account).answer.decision;
            var after := Check(Migrated(st, given, order, ids), origin, method_, kind, account).answer.decision;
            var refused := DeniedSomewhere(st.tree, ConsultedKeys(method_, kind));
            && (after == Deny <==> refused)
            && (before == Deny ==> after == Deny)
            && ((before == Deny <==> after == Deny) <==> before == Deny || !refused)
  {
    hide Resolve, Check, Migrated, OriginBucket, Globals, SiteDefault, ConsultedKeys, Ungiven;
    UngivenAnswers(st, given, order, ids, origin, method_, kind, account);
    UngivenParts(st, given, order, ids, account);
    var keys := ConsultedKeys(method_, kind);
    var b := ReadBefore(st, origin);
    DenyWins(b, method_, kind);
    DenyWins(Globals(st.tree), method_, kind);
    forall i | 0 <= i < |keys|
      ensures ValueOf(Globals(st.tree), keys[i]) == Deny <==> SiteDefault(st.tree, st.tree.Keys, keys[i], Deny)
      ensures ValueOf(b, keys[i]) == Deny ==> SiteDefault(st.tree, st.tree.Keys, keys[i], Deny) {
      GlobalValue(st.tree, keys[i]);
      if keys[i] in b { BeforeFromSite(st.tree, origin, keys[i]); }
    }
  }

  lemma UngivenParts(st: Stored, given: set<string>, order: seq<string>, ids: seq<string>, account: string)
    requires Ungiven(st, given, order, ids, account)
    ensures GLOBAL !in st.tree
  {}

  /** The merged rules allow a request exactly when no site refuses it and all that share its first shared key allow that. */
  lemma GlobalsAllow(tree: Tree, method_: string, kind: Kind)
    requires GLOBAL !in tree
    ensures var keys := ConsultedKeys(method_, kind);
            Resolve(Globals(tree), method_, kind).decision == Allow <==>
            !Ungrantable(method_, kind) && !DeniedSomewhere(tree, keys) && AllowedByAll(tree, keys)
  {
    hide Globals, SiteDefault, ConsultedKeys, SharedKeys, FirstDenied, FirstSet, ValueOf;
    var keys, g := ConsultedKeys(method_, kind), Globals(tree);
    DenyWins(g, method_, kind);
    forall k
      ensures k in g <==> k in SharedKeys(tree, tree.Keys)
      ensures ValueOf(g, k) == Deny <==> SiteDefault(tree, tree.Keys, k, Deny)
      ensures ValueOf(g, k) == Allow <==>
              SiteDefault(tree, tree.Keys, k, Allow) && !SiteDefault(tree, tree.Keys, k, Ask) && !SiteDefault(tree, tree.Keys, k, Deny) {
      GlobalValue(tree, k);
    }
    if !DeniedSomewhere(tree, keys) && !Ungrantable(method_, kind) {
      AllowMeansOpen(g, method_, kind);
      FirstOpens(g, keys);
    }
  }

  /** An allow is reached past no explicit ask exactly when the first key present allows, given that none denies. */
  lemma FirstOpens(b: Bucket, keys: seq<string>)
    requires forall i :: 0 <= i < |keys| ==> ValueOf(b, keys[i]) != Deny
    ensures Opens(b, keys, b.Keys) <==>
            exists j :: 0 <= j < |keys| && ValueOf(b, keys[j]) == Allow && forall m :: 0 <= m < j ==> keys[m] !in b
  {
    if Opens(b, keys, b.Keys) {
      var j :| 0 <= j < |keys| && ValueOf(b, keys[j]) == Allow && forall m :: 0 <= m < j && ValueOf(b, keys[m]) == Ask ==> keys[m] !in b.Keys;
      FirstAllow(b, keys, j);
    }
  }

  lemma {:induction false} FirstAllow(b: Bucket, keys: seq<string>, j: nat)
    requires j < |keys| && ValueOf(b, keys[j]) == Allow
    requires forall m :: 0 <= m < j ==> ValueOf(b, keys[m]) != Deny && (ValueOf(b, keys[m]) == Ask ==> keys[m] !in b)
    ensures exists i :: 0 <= i <= j && ValueOf(b, keys[i]) == Allow && forall m :: 0 <= m < i ==> keys[m] !in b
    decreases j
  {
    if m :| 0 <= m < j && keys[m] in b {
      FirstAllow(b, keys, m);
    } else {
      assert forall m :: 0 <= m < j ==> keys[m] !in b;
    }
  }

  /**
   * Which allows it gains, and when its whole answer stays: read off the tree before migrating.
   */
  lemma UngivenGrants(st: Stored, given: set<string>, order: seq<string>, ids: seq<string>, origin: string, method_: string, kind: Kind, account: string)
    requires Ungiven(st, given, order, ids, account)
    ensures var before := Check(st, origin, method_, kind, account).answer.decision;
            var after := Check(Migrated(st, given, order, ids), origin, method_, kind, account).answer.decision;
            var keys, b := ConsultedKeys(method_, kind), ReadBefore(st, origin);
            var allowed := !Ungrantable(method_, kind) && !DeniedSomewhere(st.tree, keys) && AllowedByAll(st.tree, keys);
            && (after == Allow <==> allowed)
            && (after == Allow && before != Allow <==> allowed && !Opens(b, keys, b.Keys))
            && (before == after <==> before == Deny || (!DeniedSomewhere(st.tree, keys) && (allowed <==> before == Allow)))
  {
    hide Resolve, Check, Migrated, OriginBucket, ReadBefore, Globals, ConsultedKeys, Opens, DeniedSomewhere, AllowedByAll, Ungiven;
    UngivenAnswers(st, given, order, ids, origin, method_, kind, account);
    UngivenParts(st, given, order, ids, account);
    UngivenDenials(st, given, order, ids, origin, method_, kind, account);
    GlobalsAllow(st.tree, method_, kind);
    if Resolve(ReadBefore(st, origin), method_, kind).decision != Deny && !Ungrantable(method_, kind) {
      AllowMeansOpen(ReadBefore(st, origin), method_, kind);
    }
    ThreeDecisions(Check(st, origin, method_, kind, account).answer.decision);
    ThreeDecisions(Check(Migrated(st, given, order, ids), origin, method_, kind, account).answer.decision);
  }

  lemma ThreeDecisions(d: Decision)
    ensures d == Allow || d == Ask || d == Deny
  {}

  // ── An input ──

  /** In shared mode, a site with a shared rule, another without one, and an account the host does not give. */
  const UNGIVEN: Stored :=
    Stored(map["a" := map[DEFAULT := map["getPublicKey" := Allow]], "b" := map["me" := map["getPublicKey" := Ask]]], true, false, false, None)

  /** That account is known to the first migration and not to the second, and is allowed at one site what it had only at the other. */
  lemma UngivenIsGranted()
    ensures "me" in MigrationAccounts(UNGIVEN.tree, {}) && Nameable(MigrationAccounts(UNGIVEN.tree, {}))
    ensures MigrationAccounts(Inheriting(UNGIVEN, {}).tree, {}) == {}
    ensures Check(UNGIVEN, "b", "getPublicKey", NotInteger, "me").answer.decision == Ask
    ensures Check(Globalized(Inheriting(UNGIVEN, {}), ["a", "b"], []), "b", "getPublicKey", NotInteger, "me").answer.decision == Allow
  {
    hide Resolve, Inherit, Consolidate, OriginBucket, MigrationAccounts, Effective;
    UngivenAccounts();
    KnownAfterInheriting(UNGIVEN.tree, {}, true);
    UngivenBuckets();
    AskedAlone(map[]);
    AllowedAlone(map["getPublicKey" := Allow]);
  }

  lemma UngivenAccounts()
    ensures MigrationAccounts(UNGIVEN.tree, {}) == {"me"}
  {
    assert "b" in UNGIVEN.tree && "me" in UNGIVEN.tree["b"];
  }

  lemma UngivenBuckets()
    ensures OriginBucket(UNGIVEN.tree, "b", DEFAULT) == map[]
    ensures Effective(Consolidate(Inherit(UNGIVEN.tree, {"me"}, true), ["a", "b"], []), "b", "me") == map["getPublicKey" := Allow]
  {
    NoColonNoOrigin("b");
    hide SiteScopes, Settle;
    var inherited: Tree := map["a" := map[DEFAULT := map["getPublicKey" := Allow]], "b" := map[]];
    assert Inherit(UNGIVEN.tree, {"me"}, true) == inherited;
    NobodySettled(inherited, ["a", "b"]);
    UngivenConsolidated(inherited);
  }

  lemma {:induction false} NobodySettled(tree: Tree, order: seq<string>)
    ensures Consolidate(tree, order, []) == Consolidated(tree)
  {
    hide Consolidated, Settle;
    if order != [] { NobodySettled(tree, order[..|order| - 1]); }
  }

  lemma UngivenConsolidated(tree: Tree)
    requires tree == map["a" := map[DEFAULT := map["getPublicKey" := Allow]], "b" := map[]]
    ensures Effective(Consolidated(tree), "b", "me") == map["getPublicKey" := Allow]
  {
    NoColonNoOrigin("b");
    hide SiteScopes, Globals;
    UngivenGlobals(tree);
    var after := Consolidated(tree);
    assert At(after, GLOBAL, DEFAULT) == map["getPublicKey" := Allow] && At(after, GLOBAL, "me") == map[];
    assert At(after, "b", DEFAULT) == map[] && At(after, "b", "me") == map[];
  }

  lemma UngivenGlobals(tree: Tree)
    requires tree == map["a" := map[DEFAULT := map["getPublicKey" := Allow]], "b" := map[]]
    ensures Globals(tree) == map["getPublicKey" := Allow]
  {
    assert At(tree, "a", DEFAULT) == map["getPublicKey" := Allow] && At(tree, "b", DEFAULT) == map[] && At(tree, GLOBAL, DEFAULT) == map[];
    assert SharedKeys(tree, tree.Keys) == {"getPublicKey"} by { assert "a" in tree.Keys && "a" != GLOBAL; }
    assert !SiteDefault(tree, tree.Keys, "getPublicKey", Deny) && !SiteDefault(tree, tree.Keys, "getPublicKey", Ask);
  }

  lemma AskedAlone(b: Bucket)
    requires b == map[]
    ensures Resolve(b, "getPublicKey", NotInteger).decision == Ask
  {
    NothingStoredAsks("getPublicKey", NotInteger);
  }

  lemma AllowedAlone(b: Bucket)
    requires b == map["getPublicKey" := Allow]
    ensures Resolve(b, "getPublicKey", NotInteger).decision == Allow
  {
    assert ConsultedKeys("getPublicKey", NotInteger)[0] == "getPublicKey";
    DenyWins(b, "getPublicKey", NotInteger);
  }
}
