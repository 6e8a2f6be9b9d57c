/**
 * A check that runs while a migration writes. It holds no lock, so its reads of the mode, the journal
 * and the tree fall at different moments of the migration.
 */
module PermissionOverlap {
  import opened Common
  import opened PermissionKey
  import opened PermissionStore
  import opened PermissionJournal
  import opened Origin

  /** The store before a migration (0), once its journal is written (1), and after each further write. */
  function Moment(st: Stored, tree: Tree, toGlobal: bool, t: nat): Stored {
    if t == 0 then st else Written(Started(st, tree, toGlobal), t - 1)
  }

  /** When a check reads the mode, the legacy flag, the journal, the tree and the mode again. */
  datatype Reads = Reads(mode: nat, flag: nat, journal: nat, tree: nat, again: nat)

  predicate InOrder(r: Reads) { r.mode <= r.flag <= r.journal <= r.tree <= r.again }

  /** `check` as `getForOrigin` reads for it, the tree coming from the store. */
  function CheckDuring(st: Stored, tree: Tree, toGlobal: bool, r: Reads, origin: string, method_: string, kind: Kind, account: string): Reply {
    var legacyShared := !Moment(st, tree, toGlobal, r.mode).inherits && Moment(st, tree, toGlobal, r.flag).shared;
    if !legacyShared && account == "" then Says(Resolve(map[], method_, kind))
    else if Moment(st, tree, toGlobal, r.journal).pending.Some? then Throws
    else
      var read := Moment(st, tree, toGlobal, r.tree).tree;
      if Moment(st, tree, toGlobal, r.again).inherits then Says(Resolve(Effective(read, origin, account), method_, kind))
      else Says(Resolve(OriginBucket(read, origin, if legacyShared then DEFAULT else account), method_, kind))
  }

  /** With all its reads at one moment it is the check of that moment. */
  lemma AtOneMoment(st: Stored, tree: Tree, toGlobal: bool, t: nat, origin: string, method_: string, kind: Kind, account: string)
    ensures CheckDuring(st, tree, toGlobal, Reads(t, t, t, t, t), origin, method_, kind, account) ==
            Check(Moment(st, tree, toGlobal, t), origin, method_, kind, account)
  {
    hide Resolve, Effective, OriginBucket, Moment;
  }

  /** The journal is read before the migration, the tree before its write, and the mode after that of inheritance. */
  predicate Torn(r: Reads) { r.journal == 0 && r.tree < 2 && r.again >= 4 }

  /** When the first migration writes an account's layer in per-account mode, that layer is all there is to read. */
  lemma AccountLayerCovers(tree: Tree, ids: set<string>, origin: string, id: string)
    requires GLOBAL !in tree && id in ids && DEFAULT !in ids
    ensures OriginBucket(Inherit(tree, ids, false), origin, id) == Effective(Inherit(tree, ids, false), origin, id)
  {
    hide SiteScopes, Inherit, OriginBucket, Effective;
    InheritedAccountLayer(tree, ids, origin, id);
    InheritanceIsExact(tree, ids, false, origin, id);
  }

  /**
   * A check of a known account that overlaps the first migration throws, answers as before it, or
   * answers as after it, except in one case: torn, it lays the account's bucket over the shared one
   * of the old tree.
   */
  lemma FirstMigrationOverlap(st: Stored, given: set<string>, r: Reads, origin: string, method_: string, kind: Kind, account: string)
    requires st.pending == None && !st.inherits && GLOBAL !in st.tree && InOrder(r)
    requires Nameable(MigrationAccounts(st.tree, given)) && account in MigrationAccounts(st.tree, given)
    ensures var reply := CheckDuring(st, Inherit(st.tree, MigrationAccounts(st.tree, given), st.shared), false, r, origin, method_, kind, account);
            && (Torn(r) ==>
                  reply == Says(Resolve(OriginBucket(st.tree, origin, DEFAULT) + OriginBucket(st.tree, origin, account), method_, kind)))
            && (!Torn(r) ==>
                  || reply == Throws
                  || reply == Check(st, origin, method_, kind, account)
                  || reply == Check(Inheriting(st, given), origin, method_, kind, account))
  {
    hide Resolve, Inherit, OriginBucket, Effective, MigrationAccounts;
    var ids := MigrationAccounts(st.tree, given);
    InheritedDefaults(st.tree, ids, st.shared, origin, account);
    AccountLayerCovers(st.tree, ids, origin, account);
    OldLayers(st.tree, origin, account);
  }

  lemma OldLayers(tree: Tree, origin: string, id: string)
    requires GLOBAL !in tree
    ensures Effective(tree, origin, id) == OriginBucket(tree, origin, DEFAULT) + OriginBucket(tree, origin, id)
  {
    hide OriginBucket;
  }

  /** A check that overlaps the second migration throws, or answers as before it or as after it. */
  lemma SecondMigrationOverlap(st: Stored, order: seq<string>, ids: seq<string>, r: Reads, origin: string, method_: string, kind: Kind, account: string)
    requires st.pending == None && st.inherits && !st.globalRules && InOrder(r)
    ensures var reply := CheckDuring(st, Consolidate(st.tree, order, ids), true, r, origin, method_, kind, account);
            || reply == Throws
            || reply == Check(st, origin, method_, kind, account)
            || reply == Check(Globalized(st, order, ids), origin, method_, kind, account)
  {
    hide Resolve, Consolidate, OriginBucket, Effective;
  }

  /** In per-account mode, a shared rule that is never read, and an account without a bucket. */
  const UNREAD: Stored := Stored(map["a" := map[DEFAULT := map["getPublicKey" := Allow]]], false, false, false, None)

  /** Torn, a check allows what the store allows neither before the migration nor after it. */
  lemma TornAllows()
    ensures var tree := Inherit(UNREAD.tree, MigrationAccounts(UNREAD.tree, {"me"}), false);
            var r := Reads(0, 0, 0, 0, 4);
            && InOrder(r) && Torn(r)
            && Check(UNREAD, "a", "getPublicKey", NotInteger, "me").answer.decision == Ask
            && Check(Inheriting(UNREAD, {"me"}), "a", "getPublicKey", NotInteger, "me").answer.decision == Ask
            && CheckDuring(UNREAD, tree, false, r, "a", "getPublicKey", NotInteger, "me") == Says(Resolve(map["getPublicKey" := Allow], "getPublicKey", NotInteger))
            && Resolve(map["getPublicKey" := Allow], "getPublicKey", NotInteger).decision == Allow
  {
    hide Resolve, Inherit, OriginBucket, Effective, MigrationAccounts, ConsultedKeys;
    UnreadBuckets();
    FirstMigrationOverlap(UNREAD, {"me"}, Reads(0, 0, 0, 0, 4), "a", "getPublicKey", NotInteger, "me");
    InheritanceIsExact(UNREAD.tree, {"me"}, false, "a", "me");
    assert Asks(map["getPublicKey" := Allow]) + map[] == map["getPublicKey" := Ask];
    assert map["getPublicKey" := Allow] + map[] == map["getPublicKey" := Allow];
    OneLevel(map[], Ask);
    OneLevel(map["getPublicKey" := Ask], Ask);
    OneLevel(map["getPublicKey" := Allow], Allow);
  }

  lemma UnreadBuckets()
    ensures MigrationAccounts(UNREAD.tree, {"me"}) == {"me"}
    ensures OriginBucket(UNREAD.tree, "a", DEFAULT) == map["getPublicKey" := Allow] && OriginBucket(UNREAD.tree, "a", "me") == map[]
  {
    NoColonNoOrigin("a");
    hide SiteScopes;
  }

  lemma OneLevel(b: Bucket, d: Decision)
    requires "*" !in b && ValueOf(b, "getPublicKey") == d && d != Deny
    ensures Resolve(b, "getPublicKey", NotInteger).decision == d
  {
    var keys := ConsultedKeys("getPublicKey", NotInteger);
    assert keys == ["getPublicKey", "*"] && keys[1..] == ["*"];
    DenyWins(b, "getPublicKey", NotInteger);
    hide Resolve, ConsultedKeys;
    AllowMeansOpen(b, "getPublicKey", NotInteger);
  }
}
