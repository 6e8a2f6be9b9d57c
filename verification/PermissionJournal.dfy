/** The journal that makes a migration's several writes recoverable, over a store with single-key writes. */
module PermissionJournal {
  import opened Common
  import opened PermissionKey
  import opened PermissionStore
  import opened PermissionMigration
  import opened Origin

  datatype Pending = Pending(tree: Tree, toGlobal: bool)

  /** The stored keys the migrations touch. `shared` is the legacy mode flag, unset counting as on. */
  datatype Stored = Stored(tree: Tree, shared: bool, inherits: bool, globalRules: bool, pending: Option<Pending>)

  // ── Finishing ──

  /** How many single-key writes a pending migration still makes, the journal's removal included. */
  function WritesOf(p: Pending): nat {
    if p.toGlobal then 5 else 4
  }

  /** The store after the first `n` writes of the pending migration. */
  function Written(st: Stored, n: nat): Stored {
    match st.pending
    case None => st
    case Some(p) =>
      var st1 := if n >= 1 then st.(tree := p.tree) else st;
      var st2 := if n >= 2 then st1.(shared := false) else st1;
      var st3 := if n >= 3 then st2.(inherits := true) else st2;
      var st4 := if p.toGlobal && n >= 4 then st3.(globalRules := true) else st3;
      if n >= WritesOf(p) then st4.(pending := None) else st4
  }

  function Finished(st: Stored): Stored {
    match st.pending
    case None => st
    case Some(p) => st.(tree := p.tree, shared := false, inherits := true, globalRules := st.globalRules || p.toGlobal, pending := None)
  }

  /** A run of attempts, each stopped by a failure after some number of writes. */
  function Attempted(st: Stored, stops: seq<nat>): Stored {
    if stops == [] then st else Written(Attempted(st, stops[..|stops| - 1]), stops[|stops| - 1])
  }

  lemma WrittenFinishes(st: Stored, n: nat)
    ensures Finished(Written(st, n)) == Finished(st)
    ensures Written(st, n).pending == None || Written(st, n).pending == st.pending
    ensures st.pending.Some? && n >= WritesOf(st.pending.value) ==> Written(st, n) == Finished(st)
  {}

  /** However often and wherever finishing is interrupted, finishing once more gives what one uninterrupted run would. */
  lemma {:induction false} JournalIsCrashSafe(st: Stored, stops: seq<nat>)
    ensures Finished(Attempted(st, stops)) == Finished(st)
    ensures Attempted(st, stops).pending == None ==> Attempted(st, stops) == Finished(st)
    ensures Attempted(st, stops).pending.Some? ==> Attempted(st, stops).pending == st.pending
  {
    hide Written, Finished;
    if stops != [] {
      var front := Attempted(st, stops[..|stops| - 1]);
      JournalIsCrashSafe(st, stops[..|stops| - 1]);
      WrittenFinishes(front, stops[|stops| - 1]);
    }
    NothingPending(Attempted(st, stops));
  }

  lemma NothingPending(st: Stored)
    ensures st.pending == None ==> Finished(st) == st
  {}

  // ── Answering ──

  datatype Reply = Throws | Says(answer: Answer)

  predicate Denied(r: Reply) { r.Says? && r.answer.decision == Deny }

  /** `check`: which bucket the mode reads, then the tree, which refuses while the journal exists. */
  function Check(st: Stored, origin: string, method_: string, kind: Kind, account: string): Reply {
    var legacyShared := !st.inherits && st.shared;
    if !legacyShared && account == "" then Says(Resolve(map[], method_, kind))
    else if st.pending.Some? then Throws
    else if st.inherits then Says(Resolve(Effective(st.tree, origin, account), method_, kind))
    else Says(Resolve(OriginBucket(st.tree, origin, if legacyShared then DEFAULT else account), method_, kind))
  }

  lemma NothingStoredAsks(method_: string, kind: Kind)
    ensures Resolve(map[], method_, kind) == Answer(Ask, None)
  {
    hide ConsultedKeys;
    NoDenials(ConsultedKeys(method_, kind));
  }

  lemma {:induction false} NoDenials(keys: seq<string>)
    ensures FirstDenied(map[], keys) == None && FirstSet(map[], keys) == None
  {
    if keys != [] { NoDenials(keys[1..]); }
  }

  /**
   * While the journal exists nothing is answered from the half-written store: a check is refused, or,
   * for a caller that names no account, asks without reading the tree.
   */
  lemma HalfWrittenNeverAnswers(st: Stored, stops: seq<nat>, origin: string, method_: string, kind: Kind, account: string)
    requires Attempted(st, stops).pending.Some?
    ensures var reply := Check(Attempted(st, stops), origin, method_, kind, account);
            reply == Throws || (account == "" && reply == Says(Answer(Ask, None)))
  {
    hide Resolve, Attempted;
    NothingStoredAsks(method_, kind);
  }

  // ── The two migrations on the store ──

  function Started(st: Stored, tree: Tree, toGlobal: bool): Stored {
    st.(pending := Some(Pending(tree, toGlobal)))
  }

  /** The accounts a migration knows: those given, and those with a bucket of their own. */
  function MigrationAccounts(tree: Tree, given: set<string>): set<string> {
    given + set site, id | site in tree && id in tree[site] && id != DEFAULT :: id
  }

  /** An empty account id, or the shared bucket's name, refuses the migration. */
  predicate Nameable(ids: set<string>) { "" !in ids && DEFAULT !in ids }

  /** `migrateToInheritance`, uninterrupted. */
  function Inheriting(st: Stored, given: set<string>): Stored {
    var st1 := Finished(st);
    var ids := MigrationAccounts(st1.tree, given);
    if st1.inherits || !Nameable(ids) then st1 else Finished(Started(st1, Inherit(st1.tree, ids, st1.shared), false))
  }

  /** What `migrateToGlobalRules` does after that, for the order its loops take sites and accounts in. */
  function Globalized(st: Stored, order: seq<string>, ids: seq<string>): Stored {
    var st1 := Finished(st);
    if st1.globalRules then st1 else Finished(Started(st1, Consolidate(st1.tree, order, ids), true))
  }

  /**
   * From a legacy store to inheritance, stopped and retried any number of times: once the journal is
   * gone, a known account gets `deny` for exactly the requests it got `deny` for before.
   */
  lemma InheritingKeepsDenials(st: Stored, given: set<string>, stops: seq<nat>, origin: string, method_: string, kind: Kind, account: string)
    requires st.pending == None && !st.inherits && GLOBAL !in st.tree
    requires account in MigrationAccounts(st.tree, given) && Nameable(MigrationAccounts(st.tree, given))
    ensures var after := Attempted(Started(st, Inherit(st.tree, MigrationAccounts(st.tree, given), st.shared), false), stops);
            after.pending == None ==>
              after == Inheriting(st, given) && Check(after, origin, method_, kind, account).Says?
              && (Denied(Check(after, origin, method_, kind, account)) <==> Denied(Check(st, origin, method_, kind, account)))
  {
    hide Resolve, Attempted, Inherit, Effective, OriginBucket, SameValues, MigrationAccounts;
    var ids := MigrationAccounts(st.tree, given);
    var begun := Started(st, Inherit(st.tree, ids, st.shared), false);
    JournalIsCrashSafe(begun, stops);
    InheritanceKeepsValues(st.tree, ids, st.shared, origin, account);
    SameValuesSameDenials(Legacy(st.tree, st.shared, origin, account), Effective(Inherit(st.tree, ids, st.shared), origin, account), method_, kind);
  }

  /** And from inheritance to global rules, for every origin listed or stored. */
  lemma GlobalizingKeepsDenials(st: Stored, order: seq<string>, ids: seq<string>, stops: seq<nat>, origin: string, method_: string, kind: Kind, account: string)
    requires st.pending == None && st.inherits && !st.globalRules
    requires Ordered(order) && NoDup(order) && GLOBAL !in order && StorageLabel(origin) in order
    requires account in ids && account != "" && DEFAULT !in ids
    ensures var after := Attempted(Started(st, Consolidate(st.tree, order, ids), true), stops);
            after.pending == None ==>
              after == Globalized(st, order, ids) && Check(after, origin, method_, kind, account).Says?
              && (Denied(Check(after, origin, method_, kind, account)) <==> Denied(Check(st, origin, method_, kind, account)))
  {
    hide Resolve, Attempted, Consolidate, Effective, OriginBucket, StorageLabel, Ordered, NoDup;
    var begun := Started(st, Consolidate(st.tree, order, ids), true);
    JournalIsCrashSafe(begun, stops);
    ConsolidationKeepsDenials(st.tree, order, ids, origin, account, method_, kind);
  }

  // ── From a legacy store to global rules ──

  /**
   * Whom the second migration still knows after the first: in per-account mode everyone it knew, in
   * shared mode only the accounts the host gives, since the accounts' own buckets are gone.
   */
  lemma KnownAfterInheriting(tree: Tree, given: set<string>, shared: bool)
    requires Nameable(MigrationAccounts(tree, given))
    ensures MigrationAccounts(Inherit(tree, MigrationAccounts(tree, given), shared), given) ==
            if shared then given else MigrationAccounts(tree, given)
  {
    hide OriginBucket, Asks;
    var ids := MigrationAccounts(tree, given);
    forall site, id | site in tree && id in Inherit(tree, ids, shared)[site] && id != DEFAULT ensures !shared && id in ids {}
    if !shared {
      forall id | id in ids && id !in given ensures exists site :: site in tree && id in Inherit(tree, ids, shared)[site] {
        var site :| site in tree && id in tree[site];
      }
    }
  }

  /** Both migrations in a row, on the store: an account the second one still knows is denied exactly what it was. */
  lemma GlobalRulesKeepDenials(st: Stored, given: set<string>, order: seq<string>, ids: seq<string>,
                               origin: string, method_: string, kind: Kind, account: string)
    requires st.pending == None && !st.inherits && !st.globalRules && GLOBAL !in st.tree
    requires Nameable(MigrationAccounts(st.tree, given))
    requires account in given || (!st.shared && account in MigrationAccounts(st.tree, given))
    requires forall id :: id in ids <==> id in MigrationAccounts(Inheriting(st, given).tree, given)
    requires Ordered(order) && NoDup(order) && GLOBAL !in order && StorageLabel(origin) in order
    ensures Denied(Check(Globalized(Inheriting(st, given), order, ids), origin, method_, kind, account)) <==>
            Denied(Check(st, origin, method_, kind, account))
    ensures Check(Globalized(Inheriting(st, given), order, ids), origin, method_, kind, account).Says?
  {
    hide Resolve, Inherit, Consolidate, Effective, OriginBucket, SameValues, MigrationAccounts, StorageLabel, Ordered, NoDup;
    GivenAreKnown(st.tree, given);
    KnownAfterInheriting(st.tree, given, st.shared);
    var accounts := MigrationAccounts(st.tree, given);
    BothMigrationsKeepValues(st.tree, accounts, st.shared, order, ids, origin, account);
    SameValuesSameDenials(Legacy(st.tree, st.shared, origin, account),
                          Effective(Consolidate(Inherit(st.tree, accounts, st.shared), order, ids), origin, account), method_, kind);
  }

  lemma GivenAreKnown(tree: Tree, given: set<string>)
    ensures given <= MigrationAccounts(tree, given)
  {}

  // ── The store object ──

  /** How a migration ended: to the end, at a failed write, or over an account it cannot name. */
  datatype Migration = Completed | Failed | Refused

  /** A store whose writes may fail: each write costs one unit of `budget`, and with none left it fails. */
  class PermissionStorage {
    var tree: Tree
    var shared: bool
    var inherits: bool
    var globalRules: bool
    var pending: Option<Pending>
    var budget: nat

    constructor (st: Stored, budget: nat)
      ensures Abs() == st && this.budget == budget
    {
      tree, shared, inherits, globalRules, pending := st.tree, st.shared, st.inherits, st.globalRules, st.pending;
      this.budget := budget;
    }

    function Abs(): Stored
      reads this
    {
      Stored(tree, shared, inherits, globalRules, pending)
    }

    /** `#finishMigration`: write after write, in this order, until one fails. */
    method FinishMigration() returns (done: bool)
      modifies this
      ensures Abs() == Written(old(Abs()), old(budget))
      ensures done <==> Abs().pending == None
      ensures done ==> Abs() == Finished(old(Abs()))
    {
      if pending.None? { return true; }
      var p := pending.value;
      if budget == 0 { return false; }
      tree, budget := p.tree, budget - 1;
      if budget == 0 { return false; }
      shared, budget := false, budget - 1;
      if budget == 0 { return false; }
      inherits, budget := true, budget - 1;
      if p.toGlobal {
        if budget == 0 { return false; }
        globalRules, budget := true, budget - 1;
      }
      if budget == 0 { return false; }
      pending, budget := None, budget - 1;
      done := true;
    }

    /** `migrateToInheritance`. A failed write leaves the store as it was, or with the journal to finish from. */
    method MigrateToInheritance(given: set<string>) returns (result: Migration)
      modifies this
      ensures result.Completed? ==> Abs() == Inheriting(old(Abs()), given) && Abs().inherits && Abs().pending == None
      ensures result.Refused? <==>
        Abs() == Finished(old(Abs())) && Abs().pending == None && !Abs().inherits && !Nameable(MigrationAccounts(Abs().tree, given))
      ensures result.Failed? ==> Finished(Abs()) == Finished(old(Abs())) || Finished(Abs()) == Inheriting(old(Abs()), given)
    {
      hide Inherit, MigrationAccounts, Nameable;
      var done := FinishMigration();
      WrittenFinishes(old(Abs()), old(budget));
      if !done { return Failed; }
      if inherits { return Completed; }
      var ids := MigrationAccounts(tree, given);
      if !Nameable(ids) { return Refused; }
      var next := InheritTree(tree, ids, shared);
      if budget == 0 { return Failed; }
      pending, budget := Some(Pending(next, false)), budget - 1;
      label Journalled:
      done := FinishMigration();
      WrittenFinishes(old@Journalled(Abs()), old@Journalled(budget));
      result := if done then Completed else Failed;
    }

    /** `migrateToGlobalRules`; `order` and `ids` are what its loops ran over. */
    method MigrateToGlobalRules(given: set<string>, listed: set<string>) returns (result: Migration, order: seq<string>, ids: seq<string>)
      modifies this
      ensures result.Completed? ==>
        var st := Inheriting(old(Abs()), given);
        && Abs() == Globalized(st, order, ids) && Abs().inherits && Abs().globalRules && Abs().pending == None
        && (!st.globalRules ==>
              && Ordered(order) && NoDup(order) && (forall o :: o in order <==> (o in st.tree && o != GLOBAL) || o in listed)
              && NoDup(ids) && (forall id :: id in ids <==> id in MigrationAccounts(st.tree, given)) && Nameable(MigrationAccounts(st.tree, given)))
      ensures result.Refused? ==> Abs() == Inheriting(old(Abs()), given) && !Nameable(MigrationAccounts(Abs().tree, given))
      ensures result.Failed? ==>
        || Finished(Abs()) == Finished(old(Abs())) || Finished(Abs()) == Inheriting(old(Abs()), given)
        || Finished(Abs()) == Globalized(Inheriting(old(Abs()), given), order, ids)
    {
      hide Consolidate, MigrationAccounts, Nameable, Ordered, NoDup, Inheriting;
      order, ids := [], [];
      result := MigrateToInheritance(given);
      RefusedInherits(old(Abs()), given);
      if !result.Completed? { return; }
      label Inherited:
      var done := FinishMigration();
      if !done { return Failed, order, ids; }
      if globalRules { return; }
      var accounts := MigrationAccounts(tree, given);
      if !Nameable(accounts) { return Refused, order, ids; }
      ids := Listed(accounts);
      order := Arranged((set o | o in tree && o != GLOBAL) + listed);
      var next := ConsolidateTree(tree, order, ids);
      if budget == 0 { return Failed, order, ids; }
      pending, budget := Some(Pending(next, true)), budget - 1;
      label Journalled:
      done := FinishMigration();
      WrittenFinishes(old@Journalled(Abs()), old@Journalled(budget));
      result := if done then Completed else Failed;
    }
  }

  lemma RefusedInherits(st: Stored, given: set<string>)
    ensures !Finished(st).inherits && !Nameable(MigrationAccounts(Finished(st).tree, given)) ==> Inheriting(st, given) == Finished(st)
  {}

  /** A set's elements, in some order. */
  method Listed(s: set<string>) returns (list: seq<string>)
    ensures NoDup(list) && forall x :: x in list <==> x in s
  {
    list := [];
    var rest := s;
    while rest != {}
      invariant rest <= s && NoDup(list) && forall x :: x in list <==> x in s && x !in rest
      decreases |rest|
    {
      var x :| x in rest;
      list := list + [x];
      rest := rest - {x};
    }
  }

  /** Labels read under one name first, exact origins after them, each group in some order. */
  method Arranged(s: set<string>) returns (order: seq<string>)
    ensures Ordered(order) && NoDup(order) && forall o :: o in order <==> o in s
  {
    hide SiteScopes;
    var plain := Listed(set o | o in s && |SiteScopes(o)| == 1);
    var exact := Listed(set o | o in s && |SiteScopes(o)| == 2);
    order := plain + exact;
    forall i | 0 <= i < |order| ensures |SiteScopes(order[i])| == if i < |plain| then 1 else 2 {
      if i < |plain| { assert order[i] in plain; } else { assert order[i] == exact[i - |plain|] && order[i] in exact; }
    }
    forall i, j | 0 <= i < j < |order| ensures order[i] != order[j] {
      if i < |plain| <= j { assert order[j] == exact[j - |plain|]; }
    }
    forall o ensures o in order <==> o in s { assert |SiteScopes(o)| == 1 || |SiteScopes(o)| == 2; }
  }
}
