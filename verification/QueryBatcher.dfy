/** Merging a batch of queries, running the merged filters, and routing the events back. */
module QueryBatcher {
  import opened Common
  import opened QueryFilter
  import opened QueryGroups

  /** A merged filter and the queries it stands for (`merged[m]` and `queryMap.get(m)`). */
  datatype Entry = Entry(filter: Filter, queries: seq<nat>)

  datatype KindGroup = KindGroup(kind: int, authors: seq<string>, queries: seq<nat>)

  function ListFilter(kinds: seq<int>, authors: seq<string>): Filter {
    Filter(None, Some(kinds), Some(authors), None, None, None, map[])
  }

  function IdFilter(ids: seq<string>): Filter {
    Filter(Some(ids), None, None, None, None, None, map[])
  }

  // ── What a merge is ──

  ghost predicate OfClass(qs: seq<Filter>, idx: seq<nat>, c: Class) {
    forall q :: q in idx ==> q < |qs| && ClassOf(qs[q]) == c
  }

  /** The entry's filter asks for exactly what its queries' lists ask for, nothing twice, and its queries are of one class. */
  ghost predicate MergeOf(qs: seq<Filter>, e: Entry, c: Class) {
    && e.queries != [] && NoDup(e.queries) && OfClass(qs, e.queries, c)
    && (!c.Alone? ==> NoDup(KindsOf(e.filter)) && NoDup(AuthorsOf(e.filter)) && NoDup(IdsOf(e.filter)))
    && match c
       case Multi => e.filter == ListFilter(KindsOf(e.filter), AuthorsOf(e.filter))
                     && Alike(KindsOf(e.filter), Gather(KindLists(qs), e.queries)) && Alike(AuthorsOf(e.filter), Gather(AuthorLists(qs), e.queries))
       case Single => e.filter == ListFilter(KindsOf(e.filter), AuthorsOf(e.filter)) && |KindsOf(e.filter)| == 1
                      && Alike(KindsOf(e.filter), Gather(KindLists(qs), e.queries)) && Alike(AuthorsOf(e.filter), Gather(AuthorLists(qs), e.queries))
       case Ids => e.filter == IdFilter(IdsOf(e.filter)) && Alike(IdsOf(e.filter), Gather(IdLists(qs), e.queries))
       case Alone => |e.queries| == 1 && e.queries[0] < |qs| && e.filter == qs[e.queries[0]]
  }

  ghost predicate NoShared(a: seq<nat>, b: seq<nat>) {
    forall q, r :: q in a && r in b ==> q != r
  }

  ghost predicate Entries(qs: seq<Filter>, out: seq<Entry>, c: Class) {
    && (forall m :: 0 <= m < |out| ==> MergeOf(qs, out[m], c))
    && (forall m, n :: 0 <= m < n < |out| ==> NoShared(out[m].queries, out[n].queries))
  }

  ghost predicate Landed(out: seq<Entry>, q: nat) {
    exists m :: 0 <= m < |out| && q in out[m].queries
  }

  /** Every query of class `c` landed. */
  ghost predicate AllLanded(qs: seq<Filter>, out: seq<Entry>, c: Class) {
    forall q: nat :: q < |qs| && ClassOf(qs[q]) == c ==> Landed(out, q)
  }

  /** Multi-kind entries: linked inside, and between two of them neither an author nor a key in common. */
  ghost predicate Components(qs: seq<Filter>, out: seq<Entry>) {
    && (forall m, q, r :: 0 <= m < |out| && q in out[m].queries && r in out[m].queries ==> Linked(qs, q, r))
    && (forall m, n :: 0 <= m < n < |out| ==> Strangers(qs, out[m], out[n]))
  }

  ghost predicate Strangers(qs: seq<Filter>, a: Entry, b: Entry) {
    && (forall x :: x in AuthorsOf(a.filter) ==> x !in AuthorsOf(b.filter))
    && (forall q, r :: q in a.queries && r in b.queries && q < |qs| && r < |qs| ==> AuthorKey(qs[q]) != AuthorKey(qs[r]))
  }

  /** No ids-only query of the batch names an id. */
  ghost predicate NoIds(qs: seq<Filter>) {
    forall r: nat :: r < |qs| && ClassOf(qs[r]).Ids? ==> IdsOf(qs[r]) == []
  }

  /** The merged batch, class by class. */
  datatype Batch = Batch(multi: seq<Entry>, single: seq<Entry>, ids: seq<Entry>, alone: seq<Entry>)

  function All(b: Batch): seq<Entry> {
    b.multi + b.single + b.ids + b.alone
  }

  /** Single-kind entries: one for each kind. */
  ghost predicate KindsApart(out: seq<Entry>) {
    forall m, n :: 0 <= m < n < |out| ==> KindsOf(out[m].filter) != KindsOf(out[n].filter)
  }

  ghost predicate MergedBatch(qs: seq<Filter>, b: Batch) {
    && Entries(qs, b.multi, Multi) && AllLanded(qs, b.multi, Multi) && Components(qs, b.multi)
    && Entries(qs, b.single, Single) && AllLanded(qs, b.single, Single) && KindsApart(b.single)
    && |b.ids| <= 1 && Entries(qs, b.ids, Ids) && (if NoIds(qs) then b.ids == [] else AllLanded(qs, b.ids, Ids))
    && Entries(qs, b.alone, Alone) && AllLanded(qs, b.alone, Alone)
  }

  // ── The kind groups ──

  ghost predicate GoodKind(qs: seq<Filter>, bound: nat, g: KindGroup) {
    && g.queries != [] && NoDup(g.queries)
    && (forall q :: q in g.queries ==> q < bound && q < |qs| && ClassOf(qs[q]).Single? && KindsOf(qs[q]) == [g.kind])
    && g.authors == Gather(AuthorLists(qs), g.queries)
  }

  ghost predicate KindGrouped(qs: seq<Filter>, bound: nat, groups: seq<KindGroup>) {
    && (forall m :: 0 <= m < |groups| ==> GoodKind(qs, bound, groups[m]))
    && (forall m, n :: 0 <= m < n < |groups| ==> groups[m].kind != groups[n].kind)
    && (forall q: nat :: q < bound && q < |qs| && ClassOf(qs[q]).Single? ==> InKind(groups, q))
  }

  ghost predicate InKind(groups: seq<KindGroup>, q: nat) {
    exists m :: 0 <= m < |groups| && q in groups[m].queries
  }

  lemma SingleHasKind(f: Filter)
    requires ClassOf(f).Single?
    ensures KindsOf(f) == [KindsOf(f)[0]]
  {
    hide MultiKind;
  }

  /** One more single-kind query: its authors are appended to its kind's, or start a group. */
  method AddSingle(qs: seq<Filter>, i: nat, groups: seq<KindGroup>) returns (next: seq<KindGroup>)
    requires i < |qs| && ClassOf(qs[i]).Single? && KindGrouped(qs, i, groups)
    ensures KindGrouped(qs, i + 1, next)
  {
    hide ClassOf, Gather, KindGrouped;
    SingleHasKind(qs[i]);
    var kind := KindsOf(qs[i])[0];
    var m := 0;
    while m < |groups| && groups[m].kind != kind
      invariant m <= |groups| && forall n :: 0 <= n < m ==> groups[n].kind != kind
    {
      m := m + 1;
    }
    GatherOne(AuthorLists(qs), i);
    if m < |groups| {
      next := groups[m := KindGroup(kind, groups[m].authors + AuthorsOf(qs[i]), groups[m].queries + [i])];
      KindJoins(qs, i, groups, m);
    } else {
      next := groups + [KindGroup(kind, AuthorsOf(qs[i]), [i])];
      KindStarts(qs, i, groups);
    }
  }

  lemma KindJoins(qs: seq<Filter>, i: nat, groups: seq<KindGroup>, m: nat)
    requires i < |qs| && m < |groups| && ClassOf(qs[i]).Single? && KindsOf(qs[i]) == [groups[m].kind] && KindGrouped(qs, i, groups)
    ensures KindGrouped(qs, i + 1, groups[m := KindGroup(groups[m].kind, groups[m].authors + AuthorsOf(qs[i]), groups[m].queries + [i])])
  {
    hide ClassOf, Gather;
    var next := groups[m := KindGroup(groups[m].kind, groups[m].authors + AuthorsOf(qs[i]), groups[m].queries + [i])];
    GatherOne(AuthorLists(qs), i);
    GatherConcat(AuthorLists(qs), groups[m].queries, [i]);
    forall q: nat | q < i + 1 && q < |qs| && ClassOf(qs[q]).Single? ensures InKind(next, q) {
      if q < i {
        assert InKind(groups, q);
        var k :| 0 <= k < |groups| && q in groups[k].queries;
        assert q in next[k].queries;
      } else {
        assert q in next[m].queries;
      }
    }
  }

  lemma KindStarts(qs: seq<Filter>, i: nat, groups: seq<KindGroup>)
    requires i < |qs| && ClassOf(qs[i]).Single? && KindGrouped(qs, i, groups)
    requires KindsOf(qs[i]) != [] && KindsOf(qs[i]) == [KindsOf(qs[i])[0]]
    requires forall n :: 0 <= n < |groups| ==> groups[n].kind != KindsOf(qs[i])[0]
    ensures KindGrouped(qs, i + 1, groups + [KindGroup(KindsOf(qs[i])[0], AuthorsOf(qs[i]), [i])])
  {
    hide ClassOf, Gather;
    var next := groups + [KindGroup(KindsOf(qs[i])[0], AuthorsOf(qs[i]), [i])];
    GatherOne(AuthorLists(qs), i);
    forall q: nat | q < i + 1 && q < |qs| && ClassOf(qs[q]).Single? ensures InKind(next, q) {
      if q < i {
        assert InKind(groups, q);
        var k :| 0 <= k < |groups| && q in groups[k].queries;
        assert q in next[k].queries;
      } else {
        assert q in next[|groups|].queries;
      }
    }
  }

  lemma KindSkips(qs: seq<Filter>, i: nat, groups: seq<KindGroup>)
    requires i < |qs| && !ClassOf(qs[i]).Single? && KindGrouped(qs, i, groups)
    ensures KindGrouped(qs, i + 1, groups)
  {
    hide ClassOf, Gather, NoDup;
    forall m | 0 <= m < |groups| ensures GoodKind(qs, i + 1, groups[m]) {
      assert GoodKind(qs, i, groups[m]);
    }
  }

  // ── The ids, and what stays alone ──

  /** The indices of one class below a bound, in order. */
  ghost predicate Collected(qs: seq<Filter>, bound: nat, c: Class, idx: seq<nat>) {
    && NoDup(idx) && (forall q :: q in idx ==> q < bound) && OfClass(qs, idx, c)
    && (forall q: nat :: q < bound && q < |qs| && ClassOf(qs[q]) == c ==> q in idx)
  }

  lemma CollectedGrows(qs: seq<Filter>, i: nat, c: Class, idx: seq<nat>)
    requires i < |qs| && Collected(qs, i, c, idx)
    ensures Collected(qs, i + 1, c, if ClassOf(qs[i]) == c then idx + [i] else idx)
  {
    hide ClassOf;
    if ClassOf(qs[i]) == c {
      var next := idx + [i];
      forall a, b | 0 <= a < b < |next| ensures next[a] != next[b] {
        if b == |idx| { assert next[a] in idx; }
      }
      assert next[|idx|] == i;
    }
  }

  // ── From groups to entries ──

  function MultiEntries(groups: seq<Group>): (out: seq<Entry>)
    ensures |out| == |groups|
    ensures forall m :: 0 <= m < |groups| ==> out[m] == Entry(ListFilter(groups[m].kinds, groups[m].authors), groups[m].queries)
  {
    if groups == [] then []
    else
      var g := groups[|groups| - 1];
      MultiEntries(groups[..|groups| - 1]) + [Entry(ListFilter(g.kinds, g.authors), g.queries)]
  }

  function SingleEntries(groups: seq<KindGroup>): (out: seq<Entry>)
    ensures |out| == |groups|
    ensures forall m :: 0 <= m < |groups| ==> out[m] == Entry(ListFilter([groups[m].kind], Dedupe(groups[m].authors)), groups[m].queries)
  {
    if groups == [] then []
    else
      var g := groups[|groups| - 1];
      SingleEntries(groups[..|groups| - 1]) + [Entry(ListFilter([g.kind], Dedupe(g.authors)), g.queries)]
  }

  function AloneEntries(qs: seq<Filter>, idx: seq<nat>): (out: seq<Entry>)
    requires forall k :: 0 <= k < |idx| ==> idx[k] < |qs|
    ensures |out| == |idx| && forall m :: 0 <= m < |idx| ==> out[m] == Entry(qs[idx[m]], [idx[m]])
  {
    if idx == [] then [] else AloneEntries(qs, idx[..|idx| - 1]) + [Entry(qs[idx[|idx| - 1]], [idx[|idx| - 1]])]
  }

  lemma NothingTwice<T>(x: T)
    ensures NoDup<T>([]) && NoDup([x])
  {}

  lemma MultiEntry(qs: seq<Filter>, g: Group)
    requires GoodGroup(qs, |qs|, g)
    ensures MergeOf(qs, Entry(ListFilter(g.kinds, g.authors), g.queries), Multi)
  {
    hide ClassOf, Gather, NoDup, Alike;
    NothingTwice("");
  }

  lemma MultiStrangers(qs: seq<Filter>, a: Group, b: Group)
    requires Apart(qs, a, b) && !ShareAuthor(a, b)
    ensures NoShared(a.queries, b.queries)
    ensures Strangers(qs, Entry(ListFilter(a.kinds, a.authors), a.queries), Entry(ListFilter(b.kinds, b.authors), b.queries))
  {
    hide AuthorKey;
  }

  lemma MultiDone(qs: seq<Filter>, groups: seq<Group>)
    requires Grouped(qs, |qs|, groups) && forall a, b :: 0 <= a < b < |groups| ==> !ShareAuthor(groups[a], groups[b])
    ensures var out := MultiEntries(groups); Entries(qs, out, Multi) && AllLanded(qs, out, Multi) && Components(qs, out)
  {
    hide ClassOf, Linked, GoodGroup, MergeOf, Apart, ShareAuthor, Strangers, NoShared, MultiEntries;
    var out := MultiEntries(groups);
    forall m | 0 <= m < |out| ensures MergeOf(qs, out[m], Multi) { MultiEntry(qs, groups[m]); }
    forall m, n | 0 <= m < n < |out| ensures NoShared(out[m].queries, out[n].queries) && Strangers(qs, out[m], out[n]) {
      MultiStrangers(qs, groups[m], groups[n]);
    }
    forall q: nat | q < |qs| && ClassOf(qs[q]) == Multi ensures Landed(out, q) {
      assert InSome(groups, q);
      var k :| 0 <= k < |groups| && q in groups[k].queries;
      assert q in out[k].queries;
    }
    forall m, q, r | 0 <= m < |out| && q in out[m].queries && r in out[m].queries ensures Linked(qs, q, r) {
      assert AllLinked(qs, groups[m]);
    }
  }

  lemma {:induction false} GatherSame(lists: seq<seq<int>>, idx: seq<nat>, kind: int)
    requires idx != [] && forall k :: 0 <= k < |idx| ==> idx[k] < |lists| && lists[idx[k]] == [kind]
    ensures Alike([kind], Gather(lists, idx))
  {
    var last := idx[|idx| - 1];
    if |idx| > 1 {
      GatherSame(lists, idx[..|idx| - 1], kind);
    } else {
      assert idx == [last];
      GatherOne(lists, last);
    }
  }

  lemma SingleDone(qs: seq<Filter>, groups: seq<KindGroup>)
    requires KindGrouped(qs, |qs|, groups)
    ensures var out := SingleEntries(groups); Entries(qs, out, Single) && AllLanded(qs, out, Single) && KindsApart(out)
  {
    hide ClassOf, Gather, NoDup, SingleEntries;
    var out := SingleEntries(groups);
    forall m | 0 <= m < |out| ensures MergeOf(qs, out[m], Single) {
      var g := groups[m];
      assert GoodKind(qs, |qs|, g);
      forall k | 0 <= k < |g.queries| ensures g.queries[k] < |qs| && KindLists(qs)[g.queries[k]] == [g.kind] {
        assert g.queries[k] in g.queries;
      }
      GatherSame(KindLists(qs), g.queries, g.kind);
      NothingTwice(g.kind);
      NothingTwice("");
    }
    forall m, n | 0 <= m < n < |out|
      ensures NoShared(out[m].queries, out[n].queries) && KindsOf(out[m].filter) != KindsOf(out[n].filter) {
      assert GoodKind(qs, |qs|, groups[m]) && GoodKind(qs, |qs|, groups[n]);
      assert [groups[m].kind][0] != [groups[n].kind][0];
    }
    forall q: nat | q < |qs| && ClassOf(qs[q]) == Single ensures Landed(out, q) {
      assert InKind(groups, q);
      var k :| 0 <= k < |groups| && q in groups[k].queries;
      assert q in out[k].queries;
    }
  }

  lemma AloneDone(qs: seq<Filter>, idx: seq<nat>)
    requires Collected(qs, |qs|, Alone, idx)
    requires forall k :: 0 <= k < |idx| ==> idx[k] < |qs|
    ensures var out := AloneEntries(qs, idx); Entries(qs, out, Alone) && AllLanded(qs, out, Alone)
  {
    hide ClassOf, MergeOf, AloneEntries;
    var out := AloneEntries(qs, idx);
    forall m | 0 <= m < |out| ensures MergeOf(qs, out[m], Alone) {
      assert idx[m] in idx;
      AloneEntry(qs, idx[m]);
    }
    forall q: nat | q < |qs| && ClassOf(qs[q]) == Alone ensures Landed(out, q) {
      var k :| 0 <= k < |idx| && idx[k] == q;
      assert q in out[k].queries;
    }
  }

  lemma AloneEntry(qs: seq<Filter>, q: nat)
    requires q < |qs| && ClassOf(qs[q]) == Alone
    ensures MergeOf(qs, Entry(qs[q], [q]), Alone)
  {
    hide ClassOf;
  }

  /** The ids list is empty exactly when no ids-only query named one, and then there is no ids filter at all. */
  lemma IdsDone(qs: seq<Filter>, idx: seq<nat>)
    requires Collected(qs, |qs|, Ids, idx)
    ensures Gather(IdLists(qs), idx) == [] <==> NoIds(qs)
    ensures !NoIds(qs) ==>
      var out := [Entry(IdFilter(Dedupe(Gather(IdLists(qs), idx))), idx)]; Entries(qs, out, Ids) && AllLanded(qs, out, Ids)
  {
    hide ClassOf, Gather, NoDup, Entries, AllLanded, NoIds;
    IdsGathered(qs, idx);
    if !NoIds(qs) { IdsLanded(qs, idx); }
  }

  lemma IdsGathered(qs: seq<Filter>, idx: seq<nat>)
    requires Collected(qs, |qs|, Ids, idx)
    ensures Gather(IdLists(qs), idx) == [] <==> NoIds(qs)
  {
    hide ClassOf, Gather, NoDup;
    var ids := Gather(IdLists(qs), idx);
    if ids != [] {
      GatheredFrom(IdLists(qs), idx, ids[0]);
      assert ids[0] in ids;
      var k :| 0 <= k < |idx| && idx[k] < |IdLists(qs)| && ids[0] in IdLists(qs)[idx[k]];
      assert idx[k] in idx;
    }
    if !NoIds(qs) {
      var r: nat :| r < |qs| && ClassOf(qs[r]).Ids? && IdsOf(qs[r]) != [];
      var k :| 0 <= k < |idx| && idx[k] == r;
      assert SomeHolds(IdLists(qs), idx, IdsOf(qs[r])[0]);
      GatheredFrom(IdLists(qs), idx, IdsOf(qs[r])[0]);
    }
  }

  lemma IdsLanded(qs: seq<Filter>, idx: seq<nat>)
    requires Collected(qs, |qs|, Ids, idx) && Gather(IdLists(qs), idx) != []
    ensures var out := [Entry(IdFilter(Dedupe(Gather(IdLists(qs), idx))), idx)]; Entries(qs, out, Ids) && AllLanded(qs, out, Ids)
  {
    hide ClassOf, NoDup, IdLists;
    var out := [Entry(IdFilter(Dedupe(Gather(IdLists(qs), idx))), idx)];
    assert idx != [];
    NothingTwice("");
    NothingTwice(0);
    forall q: nat | q < |qs| && ClassOf(qs[q]) == Ids ensures Landed(out, q) { assert q in out[0].queries; }
  }

  // ── The whole merge ──

  /** `_mergeFilters`. */
  method MergeFilters(qs: seq<Filter>) returns (b: Batch)
    ensures MergedBatch(qs, b)
  {
    hide ClassOf, Gather, AuthorKey, Grouped, Keyed, KindGrouped, Collected, GoodGroup, Entries, AllLanded, Components, NoIds, ShareAuthor, KindsApart;
    var multi: seq<Group>, kinds: seq<KindGroup>, ids: seq<string>, idQueries: seq<nat>, alone: seq<nat> := [], [], [], [], [];
    NothingYet(qs);
    var i := 0;
    while i < |qs|
      invariant 0 <= i <= |qs|
      invariant Grouped(qs, i, multi) && Keyed(qs, multi) && KindGrouped(qs, i, kinds)
      invariant Collected(qs, i, Ids, idQueries) && Collected(qs, i, Alone, alone)
      invariant ids == Gather(IdLists(qs), idQueries)
    {
      var f := qs[i];
      CollectedGrows(qs, i, Ids, idQueries);
      CollectedGrows(qs, i, Alone, alone);
      if !ClassOf(f).Multi? { SkipKeeps(qs, i, multi); }
      if !ClassOf(f).Single? { KindSkips(qs, i, kinds); }
      match ClassOf(f) {
        case Multi => multi := AddMultiKind(qs, i, multi);
        case Single => kinds := AddSingle(qs, i, kinds);
        case Ids =>
          GatherConcat(IdLists(qs), idQueries, [i]);
          GatherOne(IdLists(qs), i);
          ids := ids + IdsOf(f);
          idQueries := idQueries + [i];
        case Alone => alone := alone + [i];
      }
      i := i + 1;
    }
    multi := MergeOverlaps(qs, multi);
    MultiDone(qs, multi);
    SingleDone(qs, kinds);
    IdsDone(qs, idQueries);
    AloneInRange(qs, alone);
    AloneDone(qs, alone);
    NoEntries(qs);
    b := Batch(MultiEntries(multi), SingleEntries(kinds), if |ids| > 0 then [Entry(IdFilter(Dedupe(ids)), idQueries)] else [],
               AloneEntries(qs, alone));
  }

  lemma NothingYet(qs: seq<Filter>)
    ensures Grouped(qs, 0, []) && Keyed(qs, []) && KindGrouped(qs, 0, []) && Collected(qs, 0, Ids, []) && Collected(qs, 0, Alone, [])
    ensures Gather(IdLists(qs), []) == []
  {
    NothingGrouped(qs);
  }

  lemma NoEntries(qs: seq<Filter>)
    ensures Entries(qs, [], Ids)
  {}

  lemma AloneInRange(qs: seq<Filter>, idx: seq<nat>)
    requires Collected(qs, |qs|, Alone, idx)
    ensures forall k :: 0 <= k < |idx| ==> idx[k] < |qs|
  {
    hide ClassOf, NoDup;
    forall k | 0 <= k < |idx| ensures idx[k] < |qs| { assert idx[k] in idx; }
  }
}
