/** The consolidation as it runs, and exactly when it keeps a whole answer. */
module PermissionMigration {
  import opened Common
  import opened PermissionKey
  import opened PermissionStore
  import opened Origin

  // ── The loops ──

  function Restrictiveness(d: Decision): nat {
    match d
    case Allow => 1
    case Ask => 2
    case Deny => 3
  }

  /** `globals` after one more site: its rules join in, a more restrictive one replacing what is there. */
  function Merged(globals: Bucket, existing: Bucket, site: Bucket): Bucket {
    map k | k in globals.Keys + site.Keys && (k in globals || k !in existing) ::
      if k in site && k !in existing && (k !in globals || Restrictiveness(site[k]) > Restrictiveness(globals[k])) then site[k] else globals[k]
  }

  lemma MergedGlobals(tree: Tree, sites: set<string>, o: string)
    requires o !in sites
    ensures GlobalsOf(tree, sites + {o}) ==
            if o == GLOBAL then GlobalsOf(tree, sites) else Merged(GlobalsOf(tree, sites), At(tree, GLOBAL, DEFAULT), At(tree, o, DEFAULT))
  {
    hide At, GlobalsOf, Merged;
    var before, after := GlobalsOf(tree, sites), GlobalsOf(tree, sites + {o});
    var merged := Merged(before, At(tree, GLOBAL, DEFAULT), At(tree, o, DEFAULT));
    forall k
      ensures k in after <==> (if o == GLOBAL then k in before else k in merged)
      ensures k in after ==> after[k] == (if o == GLOBAL then before[k] else merged[k])
    {
      MergedKey(tree, sites, o, k);
    }
    if o == GLOBAL { assert after == before; } else { assert after == merged; }
  }

  lemma MergedKey(tree: Tree, sites: set<string>, o: string, k: string)
    requires o !in sites
    ensures var before, after := GlobalsOf(tree, sites), GlobalsOf(tree, sites + {o});
            var merged := Merged(before, At(tree, GLOBAL, DEFAULT), At(tree, o, DEFAULT));
            && (k in after <==> if o == GLOBAL then k in before else k in merged)
            && (k in after ==> after[k] == if o == GLOBAL then before[k] else merged[k])
  {
    hide At, SiteDefault;
    SiteDefaultGrows(tree, sites, o, k, Deny);
    SiteDefaultGrows(tree, sites, o, k, Ask);
    SharedKeysGrow(tree, sites, o, k);
    var before := GlobalsOf(tree, sites);
    if k in before && k !in At(tree, GLOBAL, DEFAULT) {
      GlobalsFromSite(tree, sites, k);
    } else if k !in before {
      forall d ensures !SiteDefault(tree, sites, k, d) {
        if SiteDefault(tree, sites, k, d) {
          GlobalsHasSite(tree, sites, k, d);
          assert false;
        }
      }
    }
  }

  lemma SharedKeysGrow(tree: Tree, sites: set<string>, o: string, k: string)
    ensures k in SharedKeys(tree, sites + {o}) <==> k in SharedKeys(tree, sites) || (o != GLOBAL && k in At(tree, o, DEFAULT))
  {
    hide At;
    if o != GLOBAL && k in At(tree, o, DEFAULT) { assert o in sites + {o}; }
  }

  lemma SiteDefaultGrows(tree: Tree, sites: set<string>, o: string, k: string, d: Decision)
    ensures SiteDefault(tree, sites + {o}, k, d) <==>
            SiteDefault(tree, sites, k, d) || (o != GLOBAL && k in At(tree, o, DEFAULT) && At(tree, o, DEFAULT)[k] == d)
  {
    hide At;
    if o != GLOBAL && k in At(tree, o, DEFAULT) && At(tree, o, DEFAULT)[k] == d {
      assert o in sites + {o};
    }
    if SiteDefault(tree, sites, k, d) {
      var p :| p in sites && p != GLOBAL && k in At(tree, p, DEFAULT) && At(tree, p, DEFAULT)[k] == d;
      assert p in sites + {o};
    }
  }

  lemma GlobalsFromSite(tree: Tree, sites: set<string>, k: string)
    requires k in GlobalsOf(tree, sites) && k !in At(tree, GLOBAL, DEFAULT)
    ensures SiteDefault(tree, sites, k, GlobalsOf(tree, sites)[k])
  {
    hide At;
    var o :| o in sites && o != GLOBAL && k in At(tree, o, DEFAULT);
    assert SiteDefault(tree, sites, k, At(tree, o, DEFAULT)[k]);
  }

  lemma GlobalsHasSite(tree: Tree, sites: set<string>, k: string, d: Decision)
    requires SiteDefault(tree, sites, k, d)
    ensures k in GlobalsOf(tree, sites)
  {
    hide At;
  }

  lemma NothingMerged(globals: Bucket, existing: Bucket, site: Bucket)
    ensures Merged(globals, existing, site - site.Keys) == globals
  {}

  lemma MergedOne(globals: Bucket, existing: Bucket, site: Bucket, rest: set<string>, key: string)
    requires rest <= site.Keys && key in rest
    ensures var before, after := Merged(globals, existing, site - rest), Merged(globals, existing, site - (rest - {key}));
            after == if key !in existing && (key !in before || Restrictiveness(site[key]) > Restrictiveness(before[key]))
                     then before[key := site[key]] else before
  {
    hide Restrictiveness;
    assert site - (rest - {key}) == (site - rest)[key := site[key]];
  }

  method MergeDefaults(globals: Bucket, existing: Bucket, site: Bucket) returns (result: Bucket)
    ensures result == Merged(globals, existing, site)
  {
    hide Merged, Restrictiveness;
    result := globals;
    NothingMerged(globals, existing, site);
    var rest := site.Keys;
    while rest != {}
      invariant rest <= site.Keys
      invariant result == Merged(globals, existing, site - rest)
      decreases |rest|
    {
      var key :| key in rest;
      MergedOne(globals, existing, site, rest, key);
      if key !in existing {
        if key !in result || Restrictiveness(site[key]) > Restrictiveness(result[key]) { result := result[key := site[key]]; }
      }
      rest := rest - {key};
    }
    assert site - {} == site;
  }

  /** The shared rules, whatever order the sites are visited in. */
  method CollectGlobals(tree: Tree) returns (globals: Bucket)
    ensures globals == Globals(tree)
  {
    hide GlobalsOf, At, Merged;
    var existing := At(tree, GLOBAL, DEFAULT);
    globals := existing;
    NoSites(tree);
    var rest := tree.Keys;
    while rest != {}
      invariant rest <= tree.Keys
      invariant globals == GlobalsOf(tree, tree.Keys - rest)
      decreases |rest|
    {
      var origin :| origin in rest;
      MergedGlobals(tree, tree.Keys - rest, origin);
      assert tree.Keys - (rest - {origin}) == (tree.Keys - rest) + {origin};
      if origin != GLOBAL { globals := MergeDefaults(globals, existing, At(tree, origin, DEFAULT)); }
      rest := rest - {origin};
    }
    assert tree.Keys - {} == tree.Keys;
  }

  lemma NoSites(tree: Tree)
    ensures GlobalsOf(tree, tree.Keys - tree.Keys) == At(tree, GLOBAL, DEFAULT)
  {
    hide At;
    assert SharedKeys(tree, tree.Keys - tree.Keys) == At(tree, GLOBAL, DEFAULT).Keys;
  }

  /** One site and account, key by key. */
  method SettleOne(original: Tree, tree: Tree, origin: string, id: string) returns (result: Tree)
    ensures result == Settle(original, tree, origin, id)
  {
    hide Effective, At;
    var previous, next := Effective(original, origin, id), Effective(tree, origin, id);
    ghost var d := Differences(previous, next);
    var written: Bucket := map[];
    var rest := previous.Keys + next.Keys;
    while rest != {}
      invariant rest <= previous.Keys + next.Keys
      invariant written == map k | k in d && k !in rest :: d[k]
      decreases |rest|
    {
      var key :| key in rest;
      if ValueOf(previous, key) != ValueOf(next, key) { written := written[key := ValueOf(previous, key)]; }
      rest := rest - {key};
    }
    assert written == d;
    result := if written == map[] then tree else WithBucket(tree, origin, id, At(tree, origin, id) + written);
  }

  method ConsolidateTree(original: Tree, order: seq<string>, ids: seq<string>) returns (tree: Tree)
    ensures tree == Consolidate(original, order, ids)
  {
    hide Settle, Globals;
    var globals := CollectGlobals(original);
    tree := (map o | o in original && o != GLOBAL :: original[o] - {DEFAULT})[GLOBAL := map[DEFAULT := globals]];
    var i := 0;
    while i < |order|
      invariant 0 <= i <= |order| && tree == SettleSites(original, Consolidated(original), order[..i], ids)
    {
      ghost var before := tree;
      var j := 0;
      while j < |ids|
        invariant 0 <= j <= |ids| && tree == SettleAccounts(original, before, order[i], ids[..j])
      {
        tree := SettleOne(original, tree, order[i], ids[j]);
        assert ids[..j + 1][..j] == ids[..j];
        j := j + 1;
      }
      assert ids[..j] == ids;
      assert order[..i + 1][..i] == order[..i];
      i := i + 1;
    }
    assert order[..i] == order;
  }

  // ── Which keys end up present ──

  /** The account's own keys for a caller: those of its labels, the global scope aside. */
  function OwnKeys(tree: Tree, origin: string, id: string): set<string> {
    set s, k | s in SiteScopes(origin) && s != GLOBAL && k in At(tree, s, id) :: k
  }

  /** The keys that are present for an account after consolidation, among those whose value is `ask`. */
  function KeptKeys(tree: Tree, origin: string, id: string): set<string> {
    Globals(tree).Keys + OwnKeys(tree, origin, id)
  }

  /** What holds of the tree throughout the settling. */
  ghost predicate Settling(original: Tree, tree: Tree) {
    && At(tree, GLOBAL, DEFAULT) == Globals(original)
    && (forall id :: id != DEFAULT ==> At(tree, GLOBAL, id) == map[])
    && (forall s :: s != GLOBAL ==> At(tree, s, DEFAULT) == map[])
    && (forall s, id :: s != GLOBAL && id != DEFAULT ==> At(original, s, id).Keys <= At(tree, s, id).Keys)
  }

  /** A key newly written for a plain label, and shared by nobody, had a decision in the account's global bucket. */
  ghost predicate Justified(original: Tree, tree: Tree) {
    forall s, id, k :: s != GLOBAL && id != DEFAULT && SiteScopes(s) == [s] && NewKey(original, tree, s, id, k) ==>
      ValueOf(At(original, GLOBAL, id), k) != Ask
  }

  ghost predicate NewKey(original: Tree, tree: Tree, s: string, id: string, k: string) {
    k in At(tree, s, id) && k !in At(original, s, id) && k !in Globals(original)
  }

  lemma ConsolidatedSettling(original: Tree)
    ensures Settling(original, Consolidated(original)) && Justified(original, Consolidated(original))
  {
    hide SiteScopes, Globals;
  }

  lemma SharedAreGlobal(tree: Tree, s: string, k: string)
    ensures k !in Globals(tree) ==> k !in At(tree, s, DEFAULT)
  {}

  /** A difference at a plain label that nobody shared came from the account's global bucket. */
  lemma DifferenceSource(original: Tree, tree: Tree, s: string, id: string, k: string)
    requires Settling(original, tree) && s != GLOBAL && id != DEFAULT && SiteScopes(s) == [s]
    requires k in Differences(Effective(original, s, id), Effective(tree, s, id))
    requires k !in At(original, s, id) && k !in At(tree, s, id) && k !in Globals(original)
    ensures ValueOf(At(original, GLOBAL, id), k) != Ask
  {
    hide SiteScopes, Globals, At;
    SharedAreGlobal(original, s, k);
    SharedAreGlobal(original, GLOBAL, k);
  }

  lemma SettleSettling(original: Tree, tree: Tree, place: string, account: string)
    requires Settling(original, tree) && place != GLOBAL && account != DEFAULT
    ensures Settling(original, Settle(original, tree, place, account))
  {
    hide Effective, Differences, Globals, At, WithBucket;
    var tree' := Settle(original, tree, place, account);
    var d := Differences(Effective(original, place, account), Effective(tree, place, account));
    forall s, id ensures At(tree', s, id) == (if s == place && id == account then At(tree, place, account) + d else At(tree, s, id)) {
      WithBucketAt(tree, place, account, At(tree, place, account) + d, s, id);
    }
  }

  lemma SettleJustified(original: Tree, tree: Tree, place: string, account: string)
    requires Settling(original, tree) && Justified(original, tree) && place != GLOBAL && account != DEFAULT
    ensures Justified(original, Settle(original, tree, place, account))
  {
    hide Effective, Differences, Globals, At, WithBucket, SiteScopes, Settling;
    var tree' := Settle(original, tree, place, account);
    var d := Differences(Effective(original, place, account), Effective(tree, place, account));
    forall s, id, k | s != GLOBAL && id != DEFAULT && SiteScopes(s) == [s] && NewKey(original, tree', s, id, k)
      ensures ValueOf(At(original, GLOBAL, id), k) != Ask {
      WithBucketAt(tree, place, account, At(tree, place, account) + d, s, id);
      if k in At(tree, s, id) {
        assert NewKey(original, tree, s, id, k);
      } else {
        DifferenceSource(original, tree, s, id, k);
      }
    }
  }

  lemma {:induction false} AccountsSettling(original: Tree, tree: Tree, place: string, ids: seq<string>)
    requires Settling(original, tree) && Justified(original, tree) && place != GLOBAL && DEFAULT !in ids
    ensures var tree' := SettleAccounts(original, tree, place, ids); Settling(original, tree') && Justified(original, tree')
  {
    hide Settling, Justified, Settle;
    if ids != [] {
      AccountsSettling(original, tree, place, ids[..|ids| - 1]);
      SettleSettling(original, SettleAccounts(original, tree, place, ids[..|ids| - 1]), place, ids[|ids| - 1]);
      SettleJustified(original, SettleAccounts(original, tree, place, ids[..|ids| - 1]), place, ids[|ids| - 1]);
    }
  }

  lemma {:induction false} SitesSettling(original: Tree, tree: Tree, order: seq<string>, ids: seq<string>)
    requires Settling(original, tree) && Justified(original, tree) && GLOBAL !in order && DEFAULT !in ids
    ensures var tree' := SettleSites(original, tree, order, ids); Settling(original, tree') && Justified(original, tree')
  {
    hide Settling, Justified, SettleAccounts;
    if order != [] {
      SitesSettling(original, tree, order[..|order| - 1], ids);
      AccountsSettling(original, SettleSites(original, tree, order[..|order| - 1], ids), order[|order| - 1], ids);
    }
  }

  // Before its own turn a bucket is untouched.

  lemma SettleUntouched(original: Tree, tree: Tree, place: string, account: string, s: string, id: string)
    requires s != place || id != account
    ensures At(Settle(original, tree, place, account), s, id) == At(tree, s, id)
  {
    hide Effective, At, WithBucket, Differences;
    WithBucketAt(tree, place, account, At(tree, place, account) + Differences(Effective(original, place, account), Effective(tree, place, account)), s, id);
  }

  lemma {:induction false} AccountsUntouched(original: Tree, tree: Tree, place: string, ids: seq<string>, s: string, id: string)
    requires s != place || id !in ids
    ensures At(SettleAccounts(original, tree, place, ids), s, id) == At(tree, s, id)
  {
    hide Settle, At;
    if ids != [] {
      AccountsUntouched(original, tree, place, ids[..|ids| - 1], s, id);
      SettleUntouched(original, SettleAccounts(original, tree, place, ids[..|ids| - 1]), place, ids[|ids| - 1], s, id);
    }
  }

  lemma {:induction false} SitesUntouched(original: Tree, tree: Tree, order: seq<string>, ids: seq<string>, s: string, id: string)
    requires s !in order
    ensures At(SettleSites(original, tree, order, ids), s, id) == At(tree, s, id)
  {
    hide SettleAccounts, At;
    if order != [] {
      SitesUntouched(original, tree, order[..|order| - 1], ids, s, id);
      AccountsUntouched(original, SettleSites(original, tree, order[..|order| - 1], ids), order[|order| - 1], ids, s, id);
    }
  }

  lemma ConsolidatedAt(original: Tree, s: string, id: string)
    requires s != GLOBAL && id != DEFAULT
    ensures At(Consolidated(original), s, id) == At(original, s, id)
  {
    hide Globals;
  }

  /** On its turn, an ask-valued key is present in the new layers exactly when it is one of the kept keys. */
  lemma TurnKeys(original: Tree, tree: Tree, place: string, id: string, k: string)
    requires Settling(original, tree) && Justified(original, tree) && place != GLOBAL && id != DEFAULT && SiteScopes(place)[0] == place
    requires At(tree, place, id) == At(original, place, id)
    requires ValueOf(Effective(original, place, id), k) == Ask
    ensures k in Effective(tree, place, id) <==> k in KeptKeys(original, place, id)
  {
    ScopesAreStable(place);
    hide SiteScopes, Globals, At;
    var scopes := SiteScopes(place);
    assert place in scopes;
    SharedAreGlobal(original, GLOBAL, k);
    SharedAreGlobal(original, place, k);
    if |scopes| == 2 {
      var host := scopes[1];
      assert host in scopes;
      SharedAreGlobal(original, host, k);
      if host != GLOBAL && k in At(tree, host, id) && k !in At(original, host, id) && k !in Globals(original) {
        assert NewKey(original, tree, host, id, k);
      }
    }
  }

  lemma TurnPresence(original: Tree, tree: Tree, place: string, id: string, k: string)
    requires Settling(original, tree) && Justified(original, tree) && place != GLOBAL && id != DEFAULT && SiteScopes(place)[0] == place
    requires At(tree, place, id) == At(original, place, id)
    requires ValueOf(Effective(original, place, id), k) == Ask
    ensures k in Effective(Settle(original, tree, place, id), place, id) <==> k in KeptKeys(original, place, id)
  {
    hide SiteScopes, Effective, Settle, Settling, Justified, KeptKeys, At;
    TurnKeys(original, tree, place, id, k);
    SettleHere(original, tree, place, id);
  }

  lemma {:induction false} AccountsPresence(original: Tree, tree: Tree, place: string, ids: seq<string>, id: string, k: string)
    requires Settling(original, tree) && Justified(original, tree) && place != GLOBAL && SiteScopes(place)[0] == place
    requires DEFAULT !in ids && id in ids && NoDup(ids)
    requires At(tree, place, id) == At(original, place, id)
    requires ValueOf(Effective(original, place, id), k) == Ask
    ensures k in Effective(SettleAccounts(original, tree, place, ids), place, id) <==> k in KeptKeys(original, place, id)
  {
    hide SiteScopes, Effective, Settle, Settling, Justified, KeptKeys, At;
    var front, last := ids[..|ids| - 1], ids[|ids| - 1];
    assert ids == front + [last];
    var before := SettleAccounts(original, tree, place, front);
    AccountsSettling(original, tree, place, front);
    if last == id {
      AccountsUntouched(original, tree, place, front, place, id);
      TurnPresence(original, before, place, id, k);
    } else {
      AccountsPresence(original, tree, place, front, id, k);
      SettleElsewhere(original, before, place, last, place, id);
    }
  }

  lemma {:induction false} SitesPresence(original: Tree, order: seq<string>, ids: seq<string>, place: string, id: string, k: string)
    requires Ordered(order) && NoDup(order) && GLOBAL !in order && DEFAULT !in ids && id in ids && NoDup(ids)
    requires place in order && SiteScopes(place)[0] == place
    requires ValueOf(Effective(original, place, id), k) == Ask
    ensures k in Effective(SettleSites(original, Consolidated(original), order, ids), place, id) <==> k in KeptKeys(original, place, id)
  {
    hide SiteScopes, Effective, SettleAccounts, Settling, Justified, KeptKeys, At, Consolidated;
    var front, last := order[..|order| - 1], order[|order| - 1];
    assert order == front + [last];
    var before := SettleSites(original, Consolidated(original), front, ids);
    ConsolidatedSettling(original);
    SitesSettling(original, Consolidated(original), front, ids);
    if last == place {
      SitesUntouched(original, Consolidated(original), front, ids, place, id);
      ConsolidatedAt(original, place, id);
      AccountsPresence(original, before, place, ids, id, k);
    } else {
      SitesPresence(original, front, ids, place, id, k);
      var i :| 0 <= i < |front| && front[i] == place;
      assert order[i] == place;
      LaterIsNoHostname(order, i, |order| - 1);
      AccountsElsewhere(original, before, last, ids, place, id);
    }
  }

  /**
   * The whole answer of a request survives consolidation if and only if a refusal, or no rule,
   * decides it; or an allow was reached past the keys present before exactly when it is reached past
   * the shared keys of any site and the account's own keys for this one. Both sides can be read off
   * the tree before migrating.
   */
  lemma ConsolidationKeepsAnswers(original: Tree, order: seq<string>, ids: seq<string>, origin: string, id: string, method_: string, kind: Kind)
    requires Ordered(order) && NoDup(order) && GLOBAL !in order && DEFAULT !in ids && id in ids && NoDup(ids)
    requires StorageLabel(origin) in order
    ensures var before, keys := Effective(original, origin, id), ConsultedKeys(method_, kind);
            Resolve(Effective(Consolidate(original, order, ids), origin, id), method_, kind).decision == Resolve(before, method_, kind).decision <==>
            (Resolve(before, method_, kind).decision == Deny || Ungrantable(method_, kind)
             || (Opens(before, keys, before.Keys) <==> Opens(before, keys, KeptKeys(original, origin, id))))
  {
    hide SiteScopes, Effective, Consolidate, Resolve, ConsultedKeys, Opens, Ungrantable, KeptKeys, Ordered, NoDup;
    var before, after := Effective(original, origin, id), Effective(Consolidate(original, order, ids), origin, id);
    ConsolidationKeepsValues(original, order, ids, origin, id);
    SameAnswerExactly(before, after, method_, kind);
    forall k | ValueOf(before, k) == Ask ensures k in after.Keys <==> k in KeptKeys(original, origin, id) {
      OriginPresence(original, order, ids, origin, id, k);
    }
    SamePresence(before, ConsultedKeys(method_, kind), after.Keys, KeptKeys(original, origin, id));
  }

  lemma OriginPresence(original: Tree, order: seq<string>, ids: seq<string>, origin: string, id: string, k: string)
    requires Ordered(order) && NoDup(order) && GLOBAL !in order && DEFAULT !in ids && id in ids && NoDup(ids)
    requires StorageLabel(origin) in order && ValueOf(Effective(original, origin, id), k) == Ask
    ensures k in Effective(Consolidate(original, order, ids), origin, id) <==> k in KeptKeys(original, origin, id)
  {
    var place := StorageLabel(origin);
    ScopesAreStable(origin);
    hide SiteScopes, Effective, SettleSites, Consolidated, Globals, Ordered, NoDup;
    EffectiveByLabel(original, origin, id);
    EffectiveByLabel(Consolidate(original, order, ids), origin, id);
    SitesPresence(original, order, ids, place, id, k);
  }

  // ── Both ways the answer can change ──

  const SHARED_ELSEWHERE: Tree := map["a" := map[DEFAULT := map["getPublicKey" := Allow]], "b" := map["me" := map["*" := Allow]]]

  const ASKED_GLOBALLY: Tree := map[GLOBAL := map[DEFAULT := map["*" := Allow], "me" := map["getPublicKey" := Ask]]]

  lemma SharedElsewhereKeys()
    ensures Effective(SHARED_ELSEWHERE, "b", "me") == map["*" := Allow]
    ensures "getPublicKey" in KeptKeys(SHARED_ELSEWHERE, "b", "me")
  {
    NoColonNoOrigin("b");
    hide SiteScopes, KeptKeys, At, Globals;
    SharedElsewhereAt();
    SharedIsGlobal(SHARED_ELSEWHERE, "a", "getPublicKey");
    KeptIfShared(SHARED_ELSEWHERE, "b", "me", "getPublicKey");
  }

  lemma SharedElsewhereAt()
    ensures At(SHARED_ELSEWHERE, GLOBAL, DEFAULT) == map[] && At(SHARED_ELSEWHERE, GLOBAL, "me") == map[]
    ensures At(SHARED_ELSEWHERE, "b", DEFAULT) == map[] && At(SHARED_ELSEWHERE, "b", "me") == map["*" := Allow]
    ensures At(SHARED_ELSEWHERE, "a", DEFAULT) == map["getPublicKey" := Allow]
  {}

  lemma SharedIsGlobal(tree: Tree, o: string, k: string)
    requires o in tree && k in At(tree, o, DEFAULT)
    ensures k in Globals(tree)
  {
    hide At;
  }

  lemma KeptIfShared(tree: Tree, origin: string, id: string, k: string)
    requires k in Globals(tree)
    ensures k in KeptKeys(tree, origin, id)
  {
    hide SiteScopes, Globals;
  }

  lemma AskedGloballyKeys()
    ensures Effective(ASKED_GLOBALLY, "a", "me") == map["*" := Allow, "getPublicKey" := Ask]
    ensures "getPublicKey" !in KeptKeys(ASKED_GLOBALLY, "a", "me")
  {
    NoColonNoOrigin("a");
    hide SiteScopes, At, Globals;
    AskedGloballyAt();
    AskedGloballyGlobals();
  }

  lemma AskedGloballyAt()
    ensures At(ASKED_GLOBALLY, GLOBAL, DEFAULT) == map["*" := Allow] && At(ASKED_GLOBALLY, GLOBAL, "me") == map["getPublicKey" := Ask]
    ensures At(ASKED_GLOBALLY, "a", DEFAULT) == map[] && At(ASKED_GLOBALLY, "a", "me") == map[]
  {}

  lemma AskedGloballyGlobals()
    ensures "getPublicKey" !in Globals(ASKED_GLOBALLY)
  {}

  /** For a key nobody decided beneath a wildcard allow, the answer follows from which keys are present. */
  lemma WildcardAnswers(tree: Tree, order: seq<string>, ids: seq<string>, origin: string, id: string)
    requires Ordered(order) && NoDup(order) && GLOBAL !in order && DEFAULT !in ids && id in ids && NoDup(ids)
    requires StorageLabel(origin) in order
    requires ValueOf(Effective(tree, origin, id), "*") == Allow && ValueOf(Effective(tree, origin, id), "getPublicKey") == Ask
    ensures Resolve(Effective(tree, origin, id), "getPublicKey", NotInteger).decision ==
            if "getPublicKey" in Effective(tree, origin, id) then Ask else Allow
    ensures Resolve(Effective(Consolidate(tree, order, ids), origin, id), "getPublicKey", NotInteger).decision ==
            if "getPublicKey" in KeptKeys(tree, origin, id) then Ask else Allow
  {
    hide SiteScopes, StorageLabel, Ordered, NoDup, Consolidate, Effective, Resolve, ConsultedKeys, Opens, KeptKeys, Ungrantable;
    PublicKeyAnswer(Effective(tree, origin, id));
    ConsolidationKeepsAnswers(tree, order, ids, origin, id, "getPublicKey", NotInteger);
    ConsolidationKeepsDenials(tree, order, ids, origin, id, "getPublicKey", NotInteger);
  }

  /** An account's wildcard allow at one site stops answering for a key that only another site shared. */
  lemma AllowBecomesAsk()
    ensures Resolve(Effective(SHARED_ELSEWHERE, "b", "me"), "getPublicKey", NotInteger).decision == Allow
    ensures Resolve(Effective(Consolidate(SHARED_ELSEWHERE, ["a", "b"], ["me"]), "b", "me"), "getPublicKey", NotInteger).decision == Ask
  {
    NoColonNoOrigin("a");
    NoColonNoOrigin("b");
    hide SiteScopes, Consolidate, Effective, Resolve, KeptKeys;
    SharedElsewhereKeys();
    WildcardAnswers(SHARED_ELSEWHERE, ["a", "b"], ["me"], "b", "me");
  }

  /** An explicit ask in the account's own global bucket is lost, and the shared wildcard allow answers instead. */
  lemma AskBecomesAllow()
    ensures Resolve(Effective(ASKED_GLOBALLY, "a", "me"), "getPublicKey", NotInteger).decision == Ask
    ensures Resolve(Effective(Consolidate(ASKED_GLOBALLY, ["a"], ["me"]), "a", "me"), "getPublicKey", NotInteger).decision == Allow
  {
    NoColonNoOrigin("a");
    hide SiteScopes, Consolidate, Effective, Resolve, KeptKeys;
    AskedGloballyKeys();
    WildcardAnswers(ASKED_GLOBALLY, ["a"], ["me"], "a", "me");
  }
}
