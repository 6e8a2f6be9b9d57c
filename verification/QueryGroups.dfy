/** The multi-kind part of query merging: grouping by authors, and the loop that merges overlapping groups. */
module QueryGroups {
  import opened Common
  import opened QueryFilter

  /** A group under construction. `kinds` and `authors` list a set in insertion order. */
  datatype Group = Group(key: string, kinds: seq<int>, authors: seq<string>, queries: seq<nat>)

  // ── What a list of queries asks for together ──

  function AuthorLists(qs: seq<Filter>): (lists: seq<seq<string>>)
    ensures |lists| == |qs| && forall i :: 0 <= i < |qs| ==> lists[i] == AuthorsOf(qs[i])
  {
    seq(|qs|, i requires 0 <= i < |qs| => AuthorsOf(qs[i]))
  }

  function KindLists(qs: seq<Filter>): (lists: seq<seq<int>>)
    ensures |lists| == |qs| && forall i :: 0 <= i < |qs| ==> lists[i] == KindsOf(qs[i])
  {
    seq(|qs|, i requires 0 <= i < |qs| => KindsOf(qs[i]))
  }

  function IdLists(qs: seq<Filter>): (lists: seq<seq<string>>)
    ensures |lists| == |qs| && forall i :: 0 <= i < |qs| ==> lists[i] == IdsOf(qs[i])
  {
    seq(|qs|, i requires 0 <= i < |qs| => IdsOf(qs[i]))
  }

  /** The lists of the queries in `idx`, one after the other. */
  function Gather<T>(lists: seq<seq<T>>, idx: seq<nat>): seq<T> {
    if idx == [] then []
    else Gather(lists, idx[..|idx| - 1]) + (if idx[|idx| - 1] < |lists| then lists[idx[|idx| - 1]] else [])
  }

  lemma {:induction false} GatherConcat<T>(lists: seq<seq<T>>, a: seq<nat>, b: seq<nat>)
    ensures Gather(lists, a + b) == Gather(lists, a) + Gather(lists, b)
  {
    if b == [] {
      assert a + b == a;
    } else {
      assert (a + b)[..|a + b| - 1] == a + b[..|b| - 1];
      GatherConcat(lists, a, b[..|b| - 1]);
    }
  }

  lemma GatherOne<T>(lists: seq<seq<T>>, i: nat)
    requires i < |lists|
    ensures Gather(lists, [i]) == lists[i]
  {
    assert [i][..0] == [];
    assert Gather(lists, []) == [];
  }

  ghost predicate SomeHolds<T(!new)>(lists: seq<seq<T>>, idx: seq<nat>, x: T) {
    exists k :: 0 <= k < |idx| && idx[k] < |lists| && x in lists[idx[k]]
  }

  /** What is gathered came from one of the queries. */
  lemma {:induction false} GatheredFrom<T(!new)>(lists: seq<seq<T>>, idx: seq<nat>, x: T)
    ensures x in Gather(lists, idx) <==> SomeHolds(lists, idx, x)
  {
    if idx != [] {
      var front, last := idx[..|idx| - 1], idx[|idx| - 1];
      GatheredFrom(lists, front, x);
      if SomeHolds(lists, front, x) {
        var k :| 0 <= k < |front| && front[k] < |lists| && x in lists[front[k]];
        assert idx[k] == front[k];
      }
      if last < |lists| && x in lists[last] { assert idx[|idx| - 1] == last; }
      if SomeHolds(lists, idx, x) {
        var k :| 0 <= k < |idx| && idx[k] < |lists| && x in lists[idx[k]];
        if k < |front| { assert front[k] == idx[k]; }
      }
    }
  }

  // ── Touching and linked queries ──

  /** Two multi-kind queries that share an author, or whose author keys coincide. */
  ghost predicate Touch(qs: seq<Filter>, i: nat, j: nat) {
    && i < |qs| && j < |qs| && ClassOf(qs[i]).Multi? && ClassOf(qs[j]).Multi?
    && (AuthorKey(qs[i]) == AuthorKey(qs[j]) || exists a :: a in AuthorsOf(qs[i]) && a in AuthorsOf(qs[j]))
  }

  ghost predicate Path(qs: seq<Filter>, path: seq<nat>) {
    path != [] && forall k :: 0 <= k < |path| - 1 ==> Touch(qs, path[k], path[k + 1])
  }

  ghost predicate PathBetween(qs: seq<Filter>, path: seq<nat>, i: nat, j: nat) {
    Path(qs, path) && path[0] == i && path[|path| - 1] == j
  }

  /** A chain of touching queries leads from one to the other. */
  ghost predicate Linked(qs: seq<Filter>, i: nat, j: nat) {
    exists path :: PathBetween(qs, path, i, j)
  }

  lemma LinkedSelf(qs: seq<Filter>, i: nat)
    ensures Linked(qs, i, i)
  {
    assert PathBetween(qs, [i], i, i);
  }

  lemma LinkedTouch(qs: seq<Filter>, i: nat, j: nat)
    requires Touch(qs, i, j)
    ensures Linked(qs, i, j)
  {
    hide Touch;
    assert PathBetween(qs, [i, j], i, j);
  }

  lemma LinkedTransitive(qs: seq<Filter>, i: nat, j: nat, k: nat)
    requires Linked(qs, i, j) && Linked(qs, j, k)
    ensures Linked(qs, i, k)
  {
    hide Touch;
    var p :| PathBetween(qs, p, i, j);
    var q :| PathBetween(qs, q, j, k);
    var r := p + q[1..];
    forall n | 0 <= n < |r| - 1 ensures Touch(qs, r[n], r[n + 1]) {
      if n < |p| - 1 {
        assert r[n] == p[n] && r[n + 1] == p[n + 1];
      } else {
        assert r[n] == q[n - |p| + 1] && r[n + 1] == q[n - |p| + 2];
      }
    }
    assert PathBetween(qs, r, i, k);
  }

  /** Two authors' lists that share nobody, in queries without commas in their authors, do not touch. */
  lemma TouchWithoutCommas(qs: seq<Filter>, i: nat, j: nat)
    requires i < |qs| && j < |qs| && ClassOf(qs[i]).Multi? && ClassOf(qs[j]).Multi? && CommaFree(qs[i]) && CommaFree(qs[j])
    ensures Touch(qs, i, j) <==> exists a :: a in AuthorsOf(qs[i]) && a in AuthorsOf(qs[j])
  {
    hide AuthorKey, CommaFree;
    if AuthorKey(qs[i]) == AuthorKey(qs[j]) {
      SameKeySameAuthors(qs[i], qs[j]);
      assert AuthorsOf(qs[i])[0] in AuthorsOf(qs[j]);
    }
  }

  // ── Groups ──

  /** A group of multi-kind queries: exactly their authors and kinds, all linked with one another. */
  ghost predicate GoodGroup(qs: seq<Filter>, bound: nat, g: Group) {
    && g.queries != [] && NoDup(g.queries)
    && (forall q :: q in g.queries ==> q < bound && q < |qs| && ClassOf(qs[q]).Multi?)
    && Alike(g.authors, Gather(AuthorLists(qs), g.queries)) && Alike(g.kinds, Gather(KindLists(qs), g.queries))
    && NoDup(g.authors) && NoDup(g.kinds)
  }

  ghost predicate AllLinked(qs: seq<Filter>, g: Group) {
    forall q, r :: q in g.queries && r in g.queries ==> Linked(qs, q, r)
  }

  /** Two groups hold different queries, and queries with different keys. */
  ghost predicate Apart(qs: seq<Filter>, a: Group, b: Group) {
    forall q, r :: q in a.queries && r in b.queries ==> q != r && (q < |qs| && r < |qs| ==> AuthorKey(qs[q]) != AuthorKey(qs[r]))
  }

  ghost predicate Grouped(qs: seq<Filter>, bound: nat, groups: seq<Group>) {
    && (forall m :: 0 <= m < |groups| ==> GoodGroup(qs, bound, groups[m]) && AllLinked(qs, groups[m]))
    && (forall m, n :: 0 <= m < n < |groups| ==> Apart(qs, groups[m], groups[n]))
    && (forall q: nat :: q < bound && q < |qs| && ClassOf(qs[q]).Multi? ==> InSome(groups, q))
  }

  ghost predicate InSome(groups: seq<Group>, q: nat) {
    exists m :: 0 <= m < |groups| && q in groups[m].queries
  }

  /** Everything two lists hold, first occurrences in order: adding one set to another. */
  function AddAll<T(==, !new)>(set_: seq<T>, more: seq<T>): (r: seq<T>)
    ensures forall x :: x in r <==> x in set_ || x in more
    ensures NoDup(r)
  {
    Dedupe(set_ + more)
  }

  // ── Grouping by author key ──

  method FindKey(groups: seq<Group>, key: string) returns (m: nat)
    ensures m <= |groups|
    ensures m < |groups| ==> groups[m].key == key
    ensures forall n :: 0 <= n < m ==> groups[n].key != key
  {
    m := 0;
    while m < |groups| && groups[m].key != key
      invariant m <= |groups| && forall n :: 0 <= n < m ==> groups[n].key != key
    {
      m := m + 1;
    }
  }

  ghost predicate Keyed(qs: seq<Filter>, groups: seq<Group>) {
    && (forall m :: 0 <= m < |groups| ==> KeyOf(qs, groups[m]))
    && (forall m, n :: 0 <= m < n < |groups| ==> groups[m].key != groups[n].key)
  }

  ghost predicate KeyOf(qs: seq<Filter>, g: Group) {
    forall q :: q in g.queries && q < |qs| ==> AuthorKey(qs[q]) == g.key
  }

  function Joined(g: Group, f: Filter, i: nat): Group {
    Group(g.key, AddAll(g.kinds, KindsOf(f)), AddAll(g.authors, AuthorsOf(f)), g.queries + [i])
  }

  lemma JoinedGood(qs: seq<Filter>, i: nat, g: Group)
    requires i < |qs| && ClassOf(qs[i]).Multi? && GoodGroup(qs, i, g) && KeyOf(qs, g) && g.key == AuthorKey(qs[i]) && AllLinked(qs, g)
    ensures GoodGroup(qs, i + 1, Joined(g, qs[i], i)) && KeyOf(qs, Joined(g, qs[i], i)) && AllLinked(qs, Joined(g, qs[i], i))
  {
    hide AuthorKey, ClassOf, Linked, AddAll;
    var h := Joined(g, qs[i], i);
    GatherConcat(AuthorLists(qs), g.queries, [i]);
    GatherConcat(KindLists(qs), g.queries, [i]);
    GatherOne(AuthorLists(qs), i);
    GatherOne(KindLists(qs), i);
    JoinedLinked(qs, i, g);
  }

  lemma JoinedLinked(qs: seq<Filter>, i: nat, g: Group)
    requires i < |qs| && ClassOf(qs[i]).Multi? && KeyOf(qs, g) && g.key == AuthorKey(qs[i]) && AllLinked(qs, g)
    requires forall q :: q in g.queries ==> q < |qs| && ClassOf(qs[q]).Multi?
    ensures AllLinked(qs, Joined(g, qs[i], i))
  {
    hide AuthorKey, ClassOf, Linked, AddAll;
    var h := Joined(g, qs[i], i);
    forall q, r | q in h.queries && r in h.queries ensures Linked(qs, q, r) {
      if q == r {
        LinkedSelf(qs, q);
      } else if q == i || r == i {
        assert Touch(qs, q, r);
        LinkedTouch(qs, q, r);
      }
    }
  }

  /** A query joins the group with its key. */
  lemma JoinKeeps(qs: seq<Filter>, i: nat, groups: seq<Group>, m: nat)
    requires i < |qs| && ClassOf(qs[i]).Multi? && Grouped(qs, i, groups) && Keyed(qs, groups)
    requires m < |groups| && groups[m].key == AuthorKey(qs[i])
    ensures var next := groups[m := Joined(groups[m], qs[i], i)]; Grouped(qs, i + 1, next) && Keyed(qs, next)
  {
    hide AuthorKey, ClassOf, AllLinked, AddAll, Alike, GoodGroup;
    var next := groups[m := Joined(groups[m], qs[i], i)];
    JoinedGood(qs, i, groups[m]);
    forall n | 0 <= n < |next| ensures GoodGroup(qs, i + 1, next[n]) && AllLinked(qs, next[n]) {
      if n != m { GoodLater(qs, i, groups[n]); }
    }
    forall a, b | 0 <= a < b < |next| ensures Apart(qs, next[a], next[b]) {
      assert Apart(qs, groups[a], groups[b]);
      GoodBelow(qs, i, groups[a]);
      GoodBelow(qs, i, groups[b]);
    }
    forall q: nat | q < i + 1 && q < |qs| && ClassOf(qs[q]).Multi? ensures InSome(next, q) {
      if q < i {
        assert InSome(groups, q);
        var k :| 0 <= k < |groups| && q in groups[k].queries;
        assert q in next[k].queries;
      } else {
        assert q in next[m].queries;
      }
    }
  }

  lemma GoodLater(qs: seq<Filter>, i: nat, g: Group)
    requires GoodGroup(qs, i, g)
    ensures GoodGroup(qs, i + 1, g)
  {
    hide ClassOf, Alike, NoDup;
  }

  lemma GoodBelow(qs: seq<Filter>, i: nat, g: Group)
    requires GoodGroup(qs, i, g)
    ensures forall q :: q in g.queries ==> q < i && q < |qs|
  {
    hide ClassOf, Alike, NoDup;
  }

  function Started(f: Filter, i: nat): Group {
    Group(AuthorKey(f), Dedupe(KindsOf(f)), Dedupe(AuthorsOf(f)), [i])
  }

  lemma AloneGood(qs: seq<Filter>, i: nat)
    requires i < |qs| && ClassOf(qs[i]).Multi?
    ensures GoodGroup(qs, i + 1, Started(qs[i], i)) && KeyOf(qs, Started(qs[i], i)) && AllLinked(qs, Started(qs[i], i))
  {
    hide AuthorKey, ClassOf, Linked;
    GatherOne(AuthorLists(qs), i);
    GatherOne(KindLists(qs), i);
    LinkedSelf(qs, i);
  }

  /** A query with a new key starts a group. */
  lemma StartKeeps(qs: seq<Filter>, i: nat, groups: seq<Group>)
    requires i < |qs| && ClassOf(qs[i]).Multi? && Grouped(qs, i, groups) && Keyed(qs, groups)
    requires forall n :: 0 <= n < |groups| ==> groups[n].key != AuthorKey(qs[i])
    ensures var next := groups + [Started(qs[i], i)]; Grouped(qs, i + 1, next) && Keyed(qs, next)
  {
    hide AuthorKey, ClassOf, AllLinked, Alike, GoodGroup;
    var next := groups + [Started(qs[i], i)];
    AloneGood(qs, i);
    forall n | 0 <= n < |next| ensures GoodGroup(qs, i + 1, next[n]) && AllLinked(qs, next[n]) {
      if n < |groups| { GoodLater(qs, i, groups[n]); }
    }
    forall a, b | 0 <= a < b < |next| ensures Apart(qs, next[a], next[b]) {
      GoodBelow(qs, i, groups[a]);
      if b < |groups| {
        assert Apart(qs, groups[a], groups[b]);
      } else {
        assert KeyOf(qs, groups[a]);
      }
    }
    forall q: nat | q < i + 1 && q < |qs| && ClassOf(qs[q]).Multi? ensures InSome(next, q) {
      if q < i {
        assert InSome(groups, q);
        var k :| 0 <= k < |groups| && q in groups[k].queries;
        assert q in next[k].queries;
      } else {
        assert q in next[|groups|].queries;
      }
    }
  }

  lemma SkipKeeps(qs: seq<Filter>, i: nat, groups: seq<Group>)
    requires i < |qs| && !ClassOf(qs[i]).Multi? && Grouped(qs, i, groups)
    ensures Grouped(qs, i + 1, groups)
  {
    hide AuthorKey, ClassOf, AllLinked, Alike, GoodGroup;
    forall n | 0 <= n < |groups| ensures GoodGroup(qs, i + 1, groups[n]) { GoodLater(qs, i, groups[n]); }
  }

  /** One more multi-kind query: it joins the group with its author key, or starts one. */
  method AddMultiKind(qs: seq<Filter>, i: nat, groups: seq<Group>) returns (next: seq<Group>)
    requires i < |qs| && ClassOf(qs[i]).Multi? && Grouped(qs, i, groups) && Keyed(qs, groups)
    ensures Grouped(qs, i + 1, next) && Keyed(qs, next)
  {
    hide AuthorKey, ClassOf, Grouped, Keyed;
    var m := FindKey(groups, AuthorKey(qs[i]));
    if m < |groups| {
      JoinKeeps(qs, i, groups, m);
      next := groups[m := Joined(groups[m], qs[i], i)];
    } else {
      StartKeeps(qs, i, groups);
      next := groups + [Started(qs[i], i)];
    }
  }

  lemma NothingGrouped(qs: seq<Filter>)
    ensures Grouped(qs, 0, []) && Keyed(qs, [])
  {}

  // ── Merging groups that share an author ──

  ghost predicate ShareAuthor(a: Group, b: Group) {
    exists x :: x in a.authors && x in b.authors
  }

  method Overlaps(a: Group, b: Group) returns (yes: bool)
    ensures yes <==> ShareAuthor(a, b)
  {
    var k := 0;
    while k < |b.authors|
      invariant 0 <= k <= |b.authors| && forall n :: 0 <= n < k ==> b.authors[n] !in a.authors
    {
      if b.authors[k] in a.authors { return true; }
      k := k + 1;
    }
    yes := false;
  }

  function Fused(a: Group, b: Group): Group {
    Group(a.key, AddAll(a.kinds, b.kinds), AddAll(a.authors, b.authors), a.queries + b.queries)
  }

  /** Group `j` joins the earlier group `i` and is spliced out. */
  function Splice(groups: seq<Group>, i: nat, j: nat): (next: seq<Group>)
    requires i < j < |groups|
    ensures |next| == |groups| - 1
    ensures forall n :: 0 <= n < |next| ==> next[n] == (if n == i then Fused(groups[i], groups[j]) else groups[if n < j then n else n + 1])
  {
    groups[i := Fused(groups[i], groups[j])][..j] + groups[j + 1..]
  }

  lemma FusedGood(qs: seq<Filter>, bound: nat, a: Group, b: Group)
    requires GoodGroup(qs, bound, a) && GoodGroup(qs, bound, b) && Apart(qs, a, b)
    ensures GoodGroup(qs, bound, Fused(a, b))
  {
    hide AuthorKey, ClassOf, Gather, AddAll;
    FusedDistinct(qs, a, b);
    GatherConcat(AuthorLists(qs), a.queries, b.queries);
    GatherConcat(KindLists(qs), a.queries, b.queries);
  }

  lemma FusedDistinct(qs: seq<Filter>, a: Group, b: Group)
    requires NoDup(a.queries) && NoDup(b.queries) && Apart(qs, a, b)
    ensures NoDup(a.queries + b.queries)
  {
    hide AuthorKey;
    var s := a.queries + b.queries;
    forall i, j | 0 <= i < j < |s| ensures s[i] != s[j] {
      if i < |a.queries| <= j { assert s[i] in a.queries && s[j] in b.queries; }
    }
  }

  lemma FusedLinked(qs: seq<Filter>, bound: nat, a: Group, b: Group)
    requires GoodGroup(qs, bound, a) && GoodGroup(qs, bound, b) && AllLinked(qs, a) && AllLinked(qs, b) && ShareAuthor(a, b)
    ensures AllLinked(qs, Fused(a, b))
  {
    hide AuthorKey, ClassOf, Linked, AddAll, Gather, NoDup, AuthorLists;
    var x :| x in a.authors && x in b.authors;
    GatheredFrom(AuthorLists(qs), a.queries, x);
    GatheredFrom(AuthorLists(qs), b.queries, x);
    var k :| 0 <= k < |a.queries| && a.queries[k] < |AuthorLists(qs)| && x in AuthorLists(qs)[a.queries[k]];
    var n :| 0 <= n < |b.queries| && b.queries[n] < |AuthorLists(qs)| && x in AuthorLists(qs)[b.queries[n]];
    var p, q := a.queries[k], b.queries[n];
    assert Touch(qs, p, q) && Touch(qs, q, p);
    LinkedTouch(qs, p, q);
    LinkedTouch(qs, q, p);
    forall s, t | s in a.queries && t in b.queries ensures Linked(qs, s, t) && Linked(qs, t, s) {
      LinkedTransitive(qs, s, p, q);
      LinkedTransitive(qs, s, q, t);
      LinkedTransitive(qs, t, q, p);
      LinkedTransitive(qs, t, p, s);
    }
  }

  lemma SpliceKeeps(qs: seq<Filter>, bound: nat, groups: seq<Group>, i: nat, j: nat)
    requires Grouped(qs, bound, groups) && i < j < |groups| && ShareAuthor(groups[i], groups[j])
    ensures Grouped(qs, bound, Splice(groups, i, j))
  {
    hide AuthorKey, ClassOf, AllLinked, AddAll, GoodGroup, ShareAuthor;
    var next := Splice(groups, i, j);
    assert Apart(qs, groups[i], groups[j]);
    FusedGood(qs, bound, groups[i], groups[j]);
    FusedLinked(qs, bound, groups[i], groups[j]);
    forall a, b | 0 <= a < b < |next| ensures Apart(qs, next[a], next[b]) {
      SpliceApart(qs, groups, i, j, a, b);
    }
    forall q: nat | q < bound && q < |qs| && ClassOf(qs[q]).Multi? ensures InSome(next, q) {
      assert InSome(groups, q);
      var k :| 0 <= k < |groups| && q in groups[k].queries;
      var n := if k == j then i else if k < j then k else k - 1;
      assert q in next[n].queries;
    }
  }

  lemma SpliceApart(qs: seq<Filter>, groups: seq<Group>, i: nat, j: nat, a: nat, b: nat)
    requires i < j < |groups| && a < b < |groups| - 1
    requires forall m, n :: 0 <= m < n < |groups| ==> Apart(qs, groups[m], groups[n])
    ensures Apart(qs, Splice(groups, i, j)[a], Splice(groups, i, j)[b])
  {
    hide AuthorKey, AddAll;
    var a0, b0 := if a < j then a else a + 1, if b < j then b else b + 1;
    assert Apart(qs, groups[a0], groups[b0]);
    if a == i {
      if j < b0 { assert Apart(qs, groups[j], groups[b0]); } else { assert Apart(qs, groups[b0], groups[j]); }
    } else if b == i {
      assert Apart(qs, groups[a0], groups[j]);
    }
  }

  /** The first pair, in the order of the loops, that shares an author. */
  method FindOverlap(groups: seq<Group>) returns (found: bool, i: nat, j: nat)
    ensures found ==> i < j < |groups| && ShareAuthor(groups[i], groups[j])
    ensures !found ==> forall a, b :: 0 <= a < b < |groups| ==> !ShareAuthor(groups[a], groups[b])
  {
    hide ShareAuthor;
    i, j := 0, 0;
    while i < |groups|
      invariant 0 <= i <= |groups|
      invariant forall a, b :: 0 <= a < i && a < b < |groups| ==> !ShareAuthor(groups[a], groups[b])
    {
      j := i + 1;
      while j < |groups|
        invariant i < j <= |groups|
        invariant forall b :: i < b < j ==> !ShareAuthor(groups[i], groups[b])
      {
        var overlaps := Overlaps(groups[i], groups[j]);
        if overlaps { return true, i, j; }
        j := j + 1;
      }
      i := i + 1;
    }
    found := false;
  }

  /** The fixpoint loop: it ends because each merge leaves one group fewer. */
  method MergeOverlaps(qs: seq<Filter>, groups: seq<Group>) returns (result: seq<Group>)
    requires Grouped(qs, |qs|, groups)
    ensures Grouped(qs, |qs|, result)
    ensures forall a, b :: 0 <= a < b < |result| ==> !ShareAuthor(result[a], result[b])
  {
    hide ShareAuthor, Grouped;
    result := groups;
    var didMerge := true;
    while didMerge
      invariant Grouped(qs, |qs|, result)
      invariant !didMerge ==> forall a, b :: 0 <= a < b < |result| ==> !ShareAuthor(result[a], result[b])
      decreases |result|, didMerge
    {
      var found, i, j := FindOverlap(result);
      didMerge := found;
      if found {
        SpliceKeeps(qs, |qs|, result, i, j);
        result := Splice(result, i, j);
      }
    }
  }
}
