/**
 * What a caller receives, field by field of its filter, and which queries of a batch are asked together.
 */
module QueryLaws {
  import opened Common
  import opened QueryFilter
  import opened QueryGroups
  import opened QueryBatcher
  import opened QueryRouting

  // ── What a filter delivers ──

  /** What `RouteEvents` hands to a query with filter `f`. */
  ghost function Received(answers: seq<seq<Event>>, f: Filter): seq<Event> {
    DedupById(Matching(Flatten(answers), f))
  }

  ghost predicate Came(answers: seq<seq<Event>>, e: Event) {
    exists m :: 0 <= m < |answers| && e in answers[m]
  }

  /** Among what the relays answered, an id names one event. */
  ghost predicate IdsName(answers: seq<seq<Event>>) {
    forall e, f :: Came(answers, e) && Came(answers, f) && e.id == f.id ==> e == f
  }

  const ANY: Filter := Filter(None, None, None, None, None, None, map[])

  lemma ReceivedAre(answers: seq<seq<Event>>, f: Filter, e: Event)
    requires IdsName(answers)
    ensures e in Received(answers, f) <==> Came(answers, e) && Matches(e, f)
  {
    hide Matches, DedupById, Matching;
    var all := Flatten(answers);
    forall x ensures x in all <==> Came(answers, x) { InFlatten(answers, x); }
    DedupKeeps((set x | x in all), Matching(all, f), e);
  }

  /** A filter with no field receives everything that came. */
  lemma AnyReceivesAll(answers: seq<seq<Event>>, e: Event)
    requires IdsName(answers)
    ensures e in Received(answers, ANY) <==> Came(answers, e)
  {
    hide Received;
    ReceivedAre(answers, ANY, e);
  }

  /** A lower bound on the time excludes the earlier events, an upper bound the later ones; zero excludes nothing. */
  lemma TimeWindow(answers: seq<seq<Event>>, f: Filter, since: int, until: int, e: Event)
    requires IdsName(answers) && f.since.None? && f.until.None?
    ensures e in Received(answers, f.(since := Some(since))) <==> e in Received(answers, f) && (since == 0 || since <= e.createdAt)
    ensures e in Received(answers, f.(until := Some(until))) <==> e in Received(answers, f) && (until == 0 || e.createdAt <= until)
    ensures e in Received(answers, f.(since := Some(since), until := Some(until))) <==>
            e in Received(answers, f) && (since == 0 || since <= e.createdAt) && (until == 0 || e.createdAt <= until)
  {
    hide Received;
    ReceivedAre(answers, f, e);
    ReceivedAre(answers, f.(since := Some(since)), e);
    ReceivedAre(answers, f.(until := Some(until)), e);
    ReceivedAre(answers, f.(since := Some(since), until := Some(until)), e);
  }

  /** A list of ids, kinds or authors leaves those of the former events that carry a listed value. */
  lemma ListsNarrow(answers: seq<seq<Event>>, f: Filter, ids: seq<string>, kinds: seq<int>, authors: seq<string>, e: Event)
    requires IdsName(answers)
    ensures f.ids.None? ==> (e in Received(answers, f.(ids := Some(ids))) <==> e in Received(answers, f) && e.id in ids)
    ensures f.kinds.None? ==> (e in Received(answers, f.(kinds := Some(kinds))) <==> e in Received(answers, f) && e.kind in kinds)
    ensures f.authors.None? ==> (e in Received(answers, f.(authors := Some(authors))) <==> e in Received(answers, f) && e.pubkey in authors)
  {
    hide Received;
    ReceivedAre(answers, f, e);
    ReceivedAre(answers, f.(ids := Some(ids)), e);
    ReceivedAre(answers, f.(kinds := Some(kinds)), e);
    ReceivedAre(answers, f.(authors := Some(authors)), e);
  }

  /**
   * A field named `#` and one character leaves those with a tag whose first entry is that character and
   * whose second is listed. Any other further field, and a limit, leave everything.
   */
  lemma TagsNarrow(answers: seq<seq<Event>>, f: Filter, key: string, values: seq<string>, limit: int, e: Event)
    requires IdsName(answers) && key !in f.others
    ensures |key| == 2 && key[0] == '#' ==>
              (e in Received(answers, f.(others := f.others[key := values])) <==>
                 e in Received(answers, f)
                 && exists i :: 0 <= i < |e.tags| && |e.tags[i]| >= 2 && e.tags[i][0] == key[1..] && e.tags[i][1] in values)
    ensures |key| != 2 || key[0] != '#' ==> (e in Received(answers, f.(others := f.others[key := values])) <==> e in Received(answers, f))
    ensures e in Received(answers, f.(limit := Some(limit))) <==> e in Received(answers, f)
  {
    var g := f.(others := f.others[key := values]);
    ReceivedAre(answers, f, e);
    ReceivedAre(answers, g, e);
    ReceivedAre(answers, f.(limit := Some(limit)), e);
    if |key| == 2 { assert key[1..] == [key[1]]; }
    forall k | k in f.others ensures k in g.others && g.others[k] == f.others[k] {}
    OneMoreTag(e, f, key, values);
  }

  lemma OneMoreTag(e: Event, f: Filter, key: string, values: seq<string>)
    requires key !in f.others
    ensures Matches(e, f.(others := f.others[key := values])) <==> Matches(e, f) && (TagKey(key) ==> HasTag(e, key[1], values))
  {
    hide HasTag;
    var g := f.(others := f.others[key := values]);
    assert g.others.Keys == f.others.Keys + {key};
    if Matches(e, g) {
      forall k | k in f.others && TagKey(k) ensures HasTag(e, k[1], f.others[k]) { assert k in g.others && g.others[k] == f.others[k]; }
      assert key in g.others && g.others[key] == values;
    }
  }

  /** Where in the answers the received events stand. */
  ghost predicate Placed(events: seq<Event>, received: seq<Event>, places: seq<nat>) {
    && |places| == |received|
    && (forall i :: 0 <= i < |places| ==> places[i] < |events| && events[places[i]] == received[i])
    && (forall i, j :: 0 <= i < j < |places| ==> places[i] < places[j])
  }

  /** Events are received in the order they came in, no id twice. */
  lemma ReceivedInOrder(answers: seq<seq<Event>>, f: Filter)
    ensures exists places :: Placed(Flatten(answers), Received(answers, f), places)
    ensures forall i, j :: 0 <= i < j < |Received(answers, f)| ==> Received(answers, f)[i].id != Received(answers, f)[j].id
  {
    hide Placed, Flatten, DedupById, Matching;
    var all := Flatten(answers);
    var p := MatchingPlaced(all, f);
    var q := DedupPlaced(Matching(all, f));
    PlacedThrough(all, Matching(all, f), Received(answers, f), p, q);
  }

  lemma {:induction false} MatchingPlaced(events: seq<Event>, f: Filter) returns (places: seq<nat>)
    ensures Placed(events, Matching(events, f), places)
  {
    hide Matches;
    places := [];
    if events != [] {
      places := MatchingPlaced(events[..|events| - 1], f);
      if Matches(events[|events| - 1], f) { places := places + [|events| - 1]; }
    }
  }

  lemma {:induction false} DedupPlaced(events: seq<Event>) returns (places: seq<nat>)
    ensures Placed(events, DedupById(events), places)
  {
    places := [];
    if events != [] {
      places := DedupPlaced(events[..|events| - 1]);
      if !HasId(DedupById(events[..|events| - 1]), events[|events| - 1].id) { places := places + [|events| - 1]; }
    }
  }

  lemma PlacedThrough(a: seq<Event>, b: seq<Event>, c: seq<Event>, p: seq<nat>, q: seq<nat>)
    requires Placed(a, b, p) && Placed(b, c, q)
    ensures exists places :: Placed(a, c, places)
  {
    var places := seq(|q|, i requires 0 <= i < |q| => p[q[i]]);
    assert Placed(a, c, places);
  }

  // ── Which queries are asked together ──

  /** Kinds and authors, neither list empty, and no other field. */
  ghost predicate PlainLists(f: Filter) {
    && f == Filter(None, f.kinds, f.authors, None, None, None, map[])
    && f.kinds.Some? && f.kinds.value != [] && f.authors.Some? && f.authors.value != []
  }

  /** One kind, authors, a limit, and no other field. */
  ghost predicate LimitedLists(f: Filter) {
    && f == Filter(None, f.kinds, f.authors, None, None, f.limit, map[])
    && f.kinds.Some? && |f.kinds.value| == 1 && f.authors.Some? && f.authors.value != [] && f.limit.Some?
  }

  /** Ids, and no other field. */
  ghost predicate IdList(f: Filter) {
    f == Filter(f.ids, None, None, None, None, None, map[]) && f.ids.Some?
  }

  lemma Shapes(f: Filter)
    ensures ClassOf(f).Multi? <==> PlainLists(f)
    ensures ClassOf(f).Single? <==> LimitedLists(f)
    ensures ClassOf(f).Ids? <==> IdList(f)
    ensures ClassOf(f).Alone? <==> !PlainLists(f) && !LimitedLists(f) && !IdList(f)
  {
    assert |f.others| == 0 <==> f.others == map[];
  }

  ghost predicate Together(b: Batch, i: nat, j: nat) {
    exists m :: 0 <= m < |All(b)| && i in All(b)[m].queries && j in All(b)[m].queries
  }

  /** Two queries for lists of kinds and authors that have an author in common are asked in one filter. */
  lemma SharedAuthorTogether(qs: seq<Filter>, b: Batch, i: nat, j: nat, author: string)
    requires MergedBatch(qs, b) && i < |qs| && j < |qs| && PlainLists(qs[i]) && PlainLists(qs[j])
    requires author in qs[i].authors.value && author in qs[j].authors.value
    ensures Together(b, i, j)
  {
    hide ClassOf, MergedBatch, AuthorKey;
    Shapes(qs[i]);
    Shapes(qs[j]);
    assert author in AuthorsOf(qs[i]) && author in AuthorsOf(qs[j]);
    assert Touch(qs, i, j);
    LinkedTouch(qs, i, j);
    SharedFilterIffLinked(qs, b, i, j);
    var m :| 0 <= m < |b.multi| && i in b.multi[m].queries && j in b.multi[m].queries;
    assert All(b)[m] == b.multi[m];
  }

  /** Two limited queries are asked in one filter if and only if they are for the same kind. */
  lemma SameKindTogether(qs: seq<Filter>, b: Batch, i: nat, j: nat)
    requires MergedBatch(qs, b) && i < |qs| && j < |qs| && LimitedLists(qs[i]) && LimitedLists(qs[j])
    ensures Together(b, i, j) <==> qs[i].kinds == qs[j].kinds
  {
    hide ClassOf, MergeOf, Components, NoIds, NoShared;
    Shapes(qs[i]);
    Shapes(qs[j]);
    assert Landed(b.single, i) && Landed(b.single, j);
    var m :| 0 <= m < |b.single| && i in b.single[m].queries;
    var n :| 0 <= n < |b.single| && j in b.single[n].queries;
    SingleKindIs(qs, b.single[m], i);
    SingleKindIs(qs, b.single[n], j);
    var m', n' := |b.multi| + m, |b.multi| + n;
    assert All(b)[m'] == b.single[m] && All(b)[n'] == b.single[n];
    assert KindsOf(qs[i]) == KindsOf(qs[j]) ==> m == n;
    if Together(b, i, j) {
      var k :| 0 <= k < |All(b)| && i in All(b)[k].queries && j in All(b)[k].queries;
      SameEntry(qs, b, k, m', i);
      SameEntry(qs, b, k, n', j);
    }
  }

  lemma SingleKindIs(qs: seq<Filter>, e: Entry, q: nat)
    requires MergeOf(qs, e, Single) && q in e.queries && q < |qs| && LimitedLists(qs[q])
    ensures e.filter.kinds == qs[q].kinds
  {
    hide ClassOf, Gather, NoDup, AuthorLists;
    var k :| 0 <= k < |e.queries| && e.queries[k] == q;
    var kind := qs[q].kinds.value[0];
    assert kind in KindLists(qs)[q];
    assert SomeHolds(KindLists(qs), e.queries, kind);
    GatheredFrom(KindLists(qs), e.queries, kind);
    assert kind in KindsOf(e.filter);
    assert KindsOf(e.filter) == [kind] == qs[q].kinds.value;
  }

  /** Two queries for ids alone are asked in one filter, unless all such queries of the batch name no id. */
  lemma IdsTogether(qs: seq<Filter>, b: Batch, i: nat, j: nat, k: nat)
    requires MergedBatch(qs, b) && i < |qs| && j < |qs| && IdList(qs[i]) && IdList(qs[j])
    requires k < |qs| && IdList(qs[k]) && qs[k].ids.value != []
    ensures Together(b, i, j)
  {
    hide ClassOf, MergeOf, Components, NoShared;
    Shapes(qs[i]);
    Shapes(qs[j]);
    Shapes(qs[k]);
    assert !NoIds(qs);
    assert Landed(b.ids, i) && Landed(b.ids, j);
    var m := |b.multi| + |b.single|;
    assert All(b)[m] == b.ids[0];
  }

  /** A query of any other shape is asked alone, as it stands. */
  lemma OthersAlone(qs: seq<Filter>, b: Batch, q: nat)
    requires MergedBatch(qs, b) && q < |qs| && !PlainLists(qs[q]) && !LimitedLists(qs[q]) && !IdList(qs[q])
    ensures exists m :: 0 <= m < |All(b)| && All(b)[m] == Entry(qs[q], [q])
  {
    hide ClassOf, Components, NoIds, NoShared, NoDup, MergeOf;
    Shapes(qs[q]);
    assert Landed(b.alone, q);
    var n :| 0 <= n < |b.alone| && q in b.alone[n].queries;
    AloneIs(qs, b.alone[n], q);
    assert All(b)[|b.multi| + |b.single| + |b.ids| + n] == b.alone[n];
  }

  lemma AloneIs(qs: seq<Filter>, e: Entry, q: nat)
    requires MergeOf(qs, e, Class.Alone) && q in e.queries && q < |qs|
    ensures e == Entry(qs[q], [q])
  {
    hide ClassOf, NoDup;
    assert e.queries == [q];
  }

  /** Queries of different shapes are never asked together. */
  lemma ShapesApart(qs: seq<Filter>, b: Batch, i: nat, j: nat)
    requires MergedBatch(qs, b) && i < |qs| && j < |qs| && Together(b, i, j) && i != j
    ensures (PlainLists(qs[i]) && PlainLists(qs[j])) || (LimitedLists(qs[i]) && LimitedLists(qs[j])) || (IdList(qs[i]) && IdList(qs[j]))
  {
    hide MergedBatch, ClassOf, All, MergeOf, PlainLists, LimitedLists, IdList;
    var m :| 0 <= m < |All(b)| && i in All(b)[m].queries && j in All(b)[m].queries;
    assert All(b)[m] in All(b);
    EntryClass(qs, b, All(b)[m]);
    var c :| MergeOf(qs, All(b)[m], c);
    ClassOfEntry(qs, All(b)[m], c, i);
    ClassOfEntry(qs, All(b)[m], c, j);
    Shapes(qs[i]);
    Shapes(qs[j]);
    if c.Alone? { AloneIs(qs, All(b)[m], i); }
  }

  /** The entry's filter lists the kinds its queries list, each once, and no other; likewise their authors and ids. */
  ghost predicate KindsUnion(qs: seq<Filter>, e: Entry) {
    && e.filter.kinds.Some? && NoDup(e.filter.kinds.value)
    && forall x :: x in e.filter.kinds.value <==> exists q :: q in e.queries && q < |qs| && qs[q].kinds.Some? && x in qs[q].kinds.value
  }

  ghost predicate AuthorsUnion(qs: seq<Filter>, e: Entry) {
    && e.filter.authors.Some? && NoDup(e.filter.authors.value)
    && forall x :: x in e.filter.authors.value <==> exists q :: q in e.queries && q < |qs| && qs[q].authors.Some? && x in qs[q].authors.value
  }

  ghost predicate IdsUnion(qs: seq<Filter>, e: Entry) {
    && e.filter.ids.Some? && NoDup(e.filter.ids.value)
    && forall x :: x in e.filter.ids.value <==> exists q :: q in e.queries && q < |qs| && qs[q].ids.Some? && x in qs[q].ids.value
  }

  /**
   * What a shared filter asks for: either each kind and each author, or each id, that some query it stands
   * for lists, once, and nothing else. It has no time bounds, no limit and no further field.
   */
  lemma SharedFilterIs(qs: seq<Filter>, b: Batch, m: nat)
    requires MergedBatch(qs, b) && m < |All(b)| && |All(b)[m].queries| > 1
    ensures var e := All(b)[m];
            || (e.filter == Filter(None, e.filter.kinds, e.filter.authors, None, None, None, map[]) && KindsUnion(qs, e) && AuthorsUnion(qs, e))
            || (e.filter == Filter(e.filter.ids, None, None, None, None, None, map[]) && IdsUnion(qs, e))
  {
    hide MergedBatch, ClassOf, All, MergeOf, KindsUnion, AuthorsUnion, IdsUnion;
    var e := All(b)[m];
    assert e in All(b);
    EntryClass(qs, b, e);
    var c :| MergeOf(qs, e, c);
    SharedOfClass(qs, e, c);
  }

  lemma SharedOfClass(qs: seq<Filter>, e: Entry, c: Class)
    requires MergeOf(qs, e, c) && |e.queries| > 1
    ensures c.Multi? || c.Single? ==>
              e.filter == Filter(None, e.filter.kinds, e.filter.authors, None, None, None, map[]) && KindsUnion(qs, e) && AuthorsUnion(qs, e)
    ensures c.Ids? ==> e.filter == Filter(e.filter.ids, None, None, None, None, None, map[]) && IdsUnion(qs, e)
    ensures !c.Alone?
  {
    hide ClassOf, Gather, NoDup, KindLists, AuthorLists, IdLists;
    if !c.Ids? {
      forall x ensures x in KindsOf(e.filter) <==> exists q :: q in e.queries && q < |qs| && x in KindsOf(qs[q]) { UnionOf(KindLists(qs), e, x); }
      forall x ensures x in AuthorsOf(e.filter) <==> exists q :: q in e.queries && q < |qs| && x in AuthorsOf(qs[q]) { UnionOf(AuthorLists(qs), e, x); }
    } else {
      forall x ensures x in IdsOf(e.filter) <==> exists q :: q in e.queries && q < |qs| && x in IdsOf(qs[q]) { UnionOf(IdLists(qs), e, x); }
    }
  }

  lemma UnionOf<T(!new)>(lists: seq<seq<T>>, e: Entry, x: T)
    ensures x in Gather(lists, e.queries) <==> exists q :: q in e.queries && q < |lists| && x in lists[q]
  {
    hide Gather;
    GatheredFrom(lists, e.queries, x);
    if q :| q in e.queries && q < |lists| && x in lists[q] {
      var k :| 0 <= k < |e.queries| && e.queries[k] == q;
      assert SomeHolds(lists, e.queries, x);
    }
  }
}
