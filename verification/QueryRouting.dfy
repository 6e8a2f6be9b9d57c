/** What merging means for the callers: where each query lands, and which events it gets back. */
module QueryRouting {
  import opened Common
  import opened QueryFilter
  import opened QueryGroups
  import opened QueryBatcher

  // ── Where a query lands ──

  /** All ids-only queries of the batch name no id at all. */
  ghost predicate Dropped(qs: seq<Filter>, q: nat)
    requires q < |qs|
  {
    ClassOf(qs[q]).Ids? && NoIds(qs)
  }

  ghost predicate InAll(b: Batch, e: Entry) {
    e in b.multi || e in b.single || e in b.ids || e in b.alone
  }

  lemma AllIsFour(b: Batch)
    ensures forall e :: e in All(b) <==> InAll(b, e)
  {}

  lemma EntryClass(qs: seq<Filter>, b: Batch, e: Entry)
    requires MergedBatch(qs, b) && e in All(b)
    ensures exists c :: MergeOf(qs, e, c)
  {
    hide MergeOf, AllLanded, Components, NoIds, NoShared;
    AllIsFour(b);
    var c := if e in b.multi then Multi else if e in b.single then Single else if e in b.ids then Ids else Class.Alone;
    assert MergeOf(qs, e, c);
  }

  lemma ClassOfEntry(qs: seq<Filter>, e: Entry, c: Class, q: nat)
    requires MergeOf(qs, e, c) && q in e.queries
    ensures q < |qs| && ClassOf(qs[q]) == c
  {
    hide ClassOf, Gather, NoDup, Alike;
  }

  /** Two entries with a query in common are one class's, and the same entry. */
  lemma SameEntry(qs: seq<Filter>, b: Batch, m: nat, n: nat, q: nat)
    requires MergedBatch(qs, b) && m < |All(b)| && n < |All(b)| && q in All(b)[m].queries && q in All(b)[n].queries
    ensures m == n
  {
    hide MergeOf, ClassOf, AllLanded, Components, NoIds;
    var m1, m2, m3 := |b.multi|, |b.multi| + |b.single|, |b.multi| + |b.single| + |b.ids|;
    var c := if m < m1 then Multi else if m < m2 then Single else if m < m3 then Ids else Class.Alone;
    var d := if n < m1 then Multi else if n < m2 then Single else if n < m3 then Ids else Class.Alone;
    assert MergeOf(qs, All(b)[m], c) && MergeOf(qs, All(b)[n], d);
    ClassOfEntry(qs, All(b)[m], c, q);
    ClassOfEntry(qs, All(b)[n], d, q);
    var base := if c.Multi? then 0 else if c.Single? then m1 else if c.Ids? then m2 else m3;
    var part := if c.Multi? then b.multi else if c.Single? then b.single else if c.Ids? then b.ids else b.alone;
    assert part[m - base] == All(b)[m] && part[n - base] == All(b)[n];
    EntriesApart(qs, part, c, m - base, n - base, q);
  }

  lemma EntriesApart(qs: seq<Filter>, out: seq<Entry>, c: Class, m: nat, n: nat, q: nat)
    requires Entries(qs, out, c) && m < |out| && n < |out| && q in out[m].queries && q in out[n].queries
    ensures m == n
  {
    hide MergeOf;
  }

  lemma LandedInAll(b: Batch, q: nat)
    ensures Landed(All(b), q) <==> Landed(b.multi, q) || Landed(b.single, q) || Landed(b.ids, q) || Landed(b.alone, q)
  {
    var all := All(b);
    if Landed(all, q) {
      var m :| 0 <= m < |all| && q in all[m].queries;
      AllIsFour(b);
      assert all[m] in all;
      assert InAll(b, all[m]);
    }
    if Landed(b.multi, q) {
      var m :| 0 <= m < |b.multi| && q in b.multi[m].queries;
      assert q in all[m].queries;
    }
    if Landed(b.single, q) {
      var m :| 0 <= m < |b.single| && q in b.single[m].queries;
      assert q in all[|b.multi| + m].queries;
    }
    if Landed(b.ids, q) {
      var m :| 0 <= m < |b.ids| && q in b.ids[m].queries;
      assert q in all[|b.multi| + |b.single| + m].queries;
    }
    if Landed(b.alone, q) {
      var m :| 0 <= m < |b.alone| && q in b.alone[m].queries;
      assert q in all[|b.multi| + |b.single| + |b.ids| + m].queries;
    }
  }

  lemma OnlyOwnClass(qs: seq<Filter>, out: seq<Entry>, c: Class, q: nat)
    requires Entries(qs, out, c) && Landed(out, q)
    ensures q < |qs| && ClassOf(qs[q]) == c
  {
    hide MergeOf, ClassOf, NoShared;
    var m :| 0 <= m < |out| && q in out[m].queries;
    ClassOfEntry(qs, out[m], c, q);
  }

  ghost predicate OnceAt(b: Batch, q: nat, m: nat) {
    && m < |All(b)| && q in All(b)[m].queries && NoDup(All(b)[m].queries)
    && forall n :: 0 <= n < |All(b)| && n != m ==> q !in All(b)[n].queries
  }

  /**
   * Every query lands in exactly one merged filter, and once there, if and only if it is not an
   * ids-only query of a batch whose ids-only queries all name no id. Such a query lands nowhere.
   */
  lemma LandsOnce(qs: seq<Filter>, b: Batch, q: nat)
    requires MergedBatch(qs, b) && q < |qs|
    ensures (exists m :: OnceAt(b, q, m)) <==> !Dropped(qs, q)
    ensures Landed(All(b), q) <==> !Dropped(qs, q)
  {
    hide MergeOf, ClassOf, Components, Entries, NoIds, All;
    LandedInAll(b, q);
    LandedByClass(qs, b, q);
    if Landed(All(b), q) {
      var m :| 0 <= m < |All(b)| && q in All(b)[m].queries;
      forall n | 0 <= n < |All(b)| && n != m ensures q !in All(b)[n].queries {
        if q in All(b)[n].queries {
          SameEntry(qs, b, m, n, q);
        }
      }
      EntryClass(qs, b, All(b)[m]);
      var c :| MergeOf(qs, All(b)[m], c);
      EntryNoDup(qs, All(b)[m], c);
      assert OnceAt(b, q, m);
    }
  }

  lemma EntryNoDup(qs: seq<Filter>, e: Entry, c: Class)
    requires MergeOf(qs, e, c)
    ensures NoDup(e.queries)
  {
    hide NoDup, ClassOf, Gather, Alike;
  }

  lemma LandedByClass(qs: seq<Filter>, b: Batch, q: nat)
    requires MergedBatch(qs, b) && q < |qs|
    ensures (Landed(b.multi, q) || Landed(b.single, q) || Landed(b.ids, q) || Landed(b.alone, q)) <==> !Dropped(qs, q)
  {
    hide MergeOf, ClassOf, Components, Entries, NoIds, Landed;
    if Landed(b.multi, q) { OnlyOwnClass(qs, b.multi, Multi, q); }
    if Landed(b.single, q) { OnlyOwnClass(qs, b.single, Single, q); }
    if Landed(b.alone, q) { OnlyOwnClass(qs, b.alone, Class.Alone, q); }
    NothingLanded(q);
  }

  lemma NothingLanded(q: nat)
    ensures !Landed([], q)
  {}

  /** Two queries for no ids at all: however the batch is merged, neither is asked. */
  lemma EmptyIdsLandNowhere(b: Batch)
    requires MergedBatch([IdFilter([]), IdFilter([])], b)
    ensures All(b) == []
  {
    hide MergedBatch, ClassOf;
    var qs := [IdFilter([]), IdFilter([])];
    EmptyIdsClass();
    if All(b) != [] {
      EntryClass(qs, b, All(b)[0]);
      var c :| MergeOf(qs, All(b)[0], c);
      var q := All(b)[0].queries[0];
      ClassOfEntry(qs, All(b)[0], c, q);
      LandedAt(All(b), 0, q);
      LandsOnce(qs, b, q);
      assert false;
    }
  }

  lemma LandedAt(out: seq<Entry>, m: nat, q: nat)
    requires m < |out| && q in out[m].queries
    ensures Landed(out, q)
  {}

  lemma EmptyIdsClass()
    ensures ClassOf(IdFilter([])).Ids?
  {}

  // ── The merged filter covers its queries ──

  /** An event that matches a query's own filter matches the merged filter the query landed in. */
  lemma EventCovered(qs: seq<Filter>, e: Entry, c: Class, q: nat, ev: Event)
    requires MergeOf(qs, e, c) && q in e.queries && q < |qs| && Matches(ev, qs[q])
    ensures Matches(ev, e.filter)
  {
    hide ClassOf, Gather, NoDup, KindLists, AuthorLists, IdLists, HasTag;
    MergeableShape(qs[q]);
    var k :| 0 <= k < |e.queries| && e.queries[k] == q;
    GatheredFrom(KindLists(qs), e.queries, ev.kind);
    GatheredFrom(AuthorLists(qs), e.queries, ev.pubkey);
    GatheredFrom(IdLists(qs), e.queries, ev.id);
    if c.Multi? || c.Single? {
      assert SomeHolds(KindLists(qs), e.queries, ev.kind) && SomeHolds(AuthorLists(qs), e.queries, ev.pubkey);
    } else if c.Ids? {
      assert SomeHolds(IdLists(qs), e.queries, ev.id);
    }
  }

  // ── Connected components ──

  /** No event matches two of the multi-kind filters: their author sets are disjoint. */
  lemma OneMultiKindFilter(qs: seq<Filter>, b: Batch, m: nat, n: nat, ev: Event)
    requires MergedBatch(qs, b) && m < |b.multi| && n < |b.multi|
    requires Matches(ev, b.multi[m].filter) && Matches(ev, b.multi[n].filter)
    ensures m == n
  {
    hide ClassOf, Gather, NoDup, AllLanded, Alike, Linked, AuthorKey, NoIds, HasTag;
    assert MergeOf(qs, b.multi[m], Multi) && MergeOf(qs, b.multi[n], Multi);
    assert m < n ==> Strangers(qs, b.multi[m], b.multi[n]);
    assert n < m ==> Strangers(qs, b.multi[n], b.multi[m]);
  }

  lemma AuthorsInEntry(qs: seq<Filter>, e: Entry, q: nat, a: string)
    requires MergeOf(qs, e, Multi) && q in e.queries && q < |qs| && a in AuthorsOf(qs[q])
    ensures a in AuthorsOf(e.filter)
  {
    hide ClassOf, Gather, NoDup, KindLists, AuthorLists;
    var k :| 0 <= k < |e.queries| && e.queries[k] == q;
    GatheredFrom(AuthorLists(qs), e.queries, a);
    assert SomeHolds(AuthorLists(qs), e.queries, a);
  }

  lemma TouchStays(qs: seq<Filter>, b: Batch, m: nat, n: nat, i: nat, j: nat)
    requires MergedBatch(qs, b) && m < |b.multi| && n < |b.multi| && i in b.multi[m].queries && j in b.multi[n].queries
    requires Touch(qs, i, j)
    ensures m == n
  {
    hide ClassOf, MergeOf, AllLanded, Linked, AuthorKey, NoIds, NoShared;
    assert MergeOf(qs, b.multi[m], Multi) && MergeOf(qs, b.multi[n], Multi);
    if AuthorKey(qs[i]) != AuthorKey(qs[j]) {
      var a :| a in AuthorsOf(qs[i]) && a in AuthorsOf(qs[j]);
      AuthorsInEntry(qs, b.multi[m], i, a);
      AuthorsInEntry(qs, b.multi[n], j, a);
    }
    assert m < n ==> Strangers(qs, b.multi[m], b.multi[n]);
    assert n < m ==> Strangers(qs, b.multi[n], b.multi[m]);
  }

  lemma {:induction false} PathStays(qs: seq<Filter>, b: Batch, path: seq<nat>, m: nat)
    requires MergedBatch(qs, b) && Path(qs, path) && m < |b.multi| && path[0] in b.multi[m].queries
    ensures path[|path| - 1] in b.multi[m].queries
    decreases |path|
  {
    hide MergedBatch, Touch;
    if |path| > 1 {
      var front := path[..|path| - 1];
      forall k | 0 <= k < |front| - 1 ensures Touch(qs, front[k], front[k + 1]) { assert Touch(qs, path[k], path[k + 1]); }
      PathStays(qs, b, front, m);
      var i, j := path[|path| - 2], path[|path| - 1];
      assert Touch(qs, i, j);
      MultiLands(qs, b, i, j);
      var n :| 0 <= n < |b.multi| && j in b.multi[n].queries;
      TouchStays(qs, b, m, n, i, j);
    }
  }

  lemma MultiLands(qs: seq<Filter>, b: Batch, i: nat, j: nat)
    requires MergedBatch(qs, b) && Touch(qs, i, j)
    ensures Landed(b.multi, j)
  {
    hide ClassOf, Entries, Components, NoIds, AuthorKey, Landed;
  }

  /**
   * Two multi-kind queries share a merged filter exactly when a chain of queries links them, each
   * sharing an author with the next (or, where authors hold commas, having its author key). The
   * chain is a property of the batch alone: the order the queries arrived in plays no part.
   */
  lemma SharedFilterIffLinked(qs: seq<Filter>, b: Batch, i: nat, j: nat)
    requires MergedBatch(qs, b) && i < |qs| && j < |qs| && ClassOf(qs[i]).Multi? && ClassOf(qs[j]).Multi?
    ensures (exists m :: 0 <= m < |b.multi| && i in b.multi[m].queries && j in b.multi[m].queries) <==> Linked(qs, i, j)
  {
    hide ClassOf, Entries, NoIds, Strangers, Touch;
    if Linked(qs, i, j) {
      var path :| PathBetween(qs, path, i, j);
      assert Landed(b.multi, i);
      var m :| 0 <= m < |b.multi| && i in b.multi[m].queries;
      PathStays(qs, b, path, m);
    }
  }

  /** One query for an author named `a,b`, and one for the authors `a` and `b`. */
  const COMMA_QUERIES: seq<Filter> := [KindsAndAuthors([0], ["a,b"]), KindsAndAuthors([3], ["a", "b"])]

  function KindsAndAuthors(kinds: seq<int>, authors: seq<string>): Filter {
    Filter(None, Some(kinds), Some(authors), None, None, None, map[])
  }

  /** They share no author, and however the batch is merged they share a filter, since their author keys are one text. */
  lemma CommasShareAFilter(b: Batch)
    requires MergedBatch(COMMA_QUERIES, b)
    ensures forall a :: a in AuthorsOf(COMMA_QUERIES[0]) ==> a !in AuthorsOf(COMMA_QUERIES[1])
    ensures exists m :: 0 <= m < |b.multi| && 0 in b.multi[m].queries && 1 in b.multi[m].queries
  {
    hide MergedBatch, Linked;
    CommaKeys();
    LinkedTouch(COMMA_QUERIES, 0, 1);
    SharedFilterIffLinked(COMMA_QUERIES, b, 0, 1);
  }

  lemma CommaKeys()
    ensures AuthorKey(COMMA_QUERIES[0]) == AuthorKey(COMMA_QUERIES[1])
    ensures ClassOf(COMMA_QUERIES[0]).Multi? && ClassOf(COMMA_QUERIES[1]).Multi?
  {
    var one, two := ["a,b"], ["a", "b"];
    assert one[..0] == [] && two[..1] == ["a"] && ["a"][..0] == [];
    assert Sort(one) == ["a,b"];
    assert Precedes("a", "b");
    assert Insert("b", ["a"]) == ["a"] + Insert("b", ["a"][1..]) == ["a", "b"];
    assert Sort(two) == ["a", "b"];
    assert Text.Join(["a", "b"], ',') == "a" + [','] + Text.Join(["a", "b"][1..], ',') == "a,b";
  }

  // ── Running and routing ──

  function Flatten(answers: seq<seq<Event>>): seq<Event> {
    if answers == [] then [] else Flatten(answers[..|answers| - 1]) + answers[|answers| - 1]
  }

  function Matching(events: seq<Event>, f: Filter): (r: seq<Event>)
    ensures forall e :: e in r <==> e in events && Matches(e, f)
  {
    if events == [] then []
    else
      var last := events[|events| - 1];
      Matching(events[..|events| - 1], f) + (if Matches(last, f) then [last] else [])
  }

  predicate HasId(events: seq<Event>, id: string) {
    exists i :: 0 <= i < |events| && events[i].id == id
  }

  /** `_dedup`: the first event of each id, in order. */
  function DedupById(events: seq<Event>): (r: seq<Event>)
    ensures forall e :: e in r ==> e in events
    ensures forall id :: HasId(r, id) <==> HasId(events, id)
    ensures forall i, j :: 0 <= i < j < |r| ==> r[i].id != r[j].id
  {
    if events == [] then []
    else
      var front, last := DedupById(events[..|events| - 1]), events[|events| - 1];
      assert forall id :: HasId(events, id) <==> HasId(events[..|events| - 1], id) || last.id == id by {
        HasIdLast(events);
      }
      if HasId(front, last.id) then front else
        assert forall id :: HasId(front + [last], id) <==> HasId(front, id) || last.id == id by { HasIdLast(front + [last]); assert (front + [last])[..|front|] == front; }
        front + [last]
  }

  lemma HasIdLast(events: seq<Event>)
    requires events != []
    ensures forall id :: HasId(events, id) <==> HasId(events[..|events| - 1], id) || events[|events| - 1].id == id
  {
    var front := events[..|events| - 1];
    forall id ensures HasId(events, id) <==> HasId(front, id) || events[|events| - 1].id == id {
      if HasId(front, id) {
        var i :| 0 <= i < |front| && front[i].id == id;
        assert events[i].id == id;
      }
      if HasId(events, id) {
        var i :| 0 <= i < |events| && events[i].id == id;
        if i < |front| { assert front[i].id == id; }
      }
    }
  }

  method Dedup(events: seq<Event>) returns (result: seq<Event>)
    ensures result == DedupById(events)
  {
    var seen: set<string> := {};
    result := [];
    var i := 0;
    while i < |events|
      invariant 0 <= i <= |events| && result == DedupById(events[..i])
      invariant forall id :: id in seen <==> HasId(result, id)
    {
      assert events[..i + 1][..i] == events[..i];
      if events[i].id !in seen {
        HasIdLast(result + [events[i]]);
        assert (result + [events[i]])[..|result|] == result;
        seen := seen + {events[i].id};
        result := result + [events[i]];
      }
      i := i + 1;
    }
    assert events[..i] == events;
  }

  method Select(events: seq<Event>, f: Filter) returns (matching: seq<Event>)
    ensures matching == Matching(events, f)
  {
    hide Matches;
    matching := [];
    var i := 0;
    while i < |events|
      invariant 0 <= i <= |events| && matching == Matching(events[..i], f)
    {
      assert events[..i + 1][..i] == events[..i];
      if Matches(events[i], f) { matching := matching + [events[i]]; }
      i := i + 1;
    }
    assert events[..i] == events;
  }

  /** The routing half of `_executeGroup`, for a batch of several queries: `answers[m]` came back for merged filter `m`. */
  method RouteEvents(qs: seq<Filter>, answers: seq<seq<Event>>) returns (received: seq<seq<Event>>)
    ensures |received| == |qs|
    ensures forall q :: 0 <= q < |qs| ==> received[q] == DedupById(Matching(Flatten(answers), qs[q]))
  {
    hide Matches, DedupById, Matching;
    var all: seq<Event>, m := [], 0;
    while m < |answers|
      invariant 0 <= m <= |answers| && all == Flatten(answers[..m])
    {
      assert answers[..m + 1][..m] == answers[..m];
      all, m := all + answers[m], m + 1;
    }
    assert answers[..m] == answers;
    received := [];
    var q := 0;
    while q < |qs|
      invariant 0 <= q <= |qs| && |received| == q
      invariant forall k :: 0 <= k < q ==> received[k] == DedupById(Matching(all, qs[k]))
    {
      var matching := Select(all, qs[q]);
      var deduped := Dedup(matching);
      received, q := received + [deduped], q + 1;
    }
  }

  ghost predicate Answered(store: set<Event>, f: Filter, events: seq<Event>) {
    forall e :: e in events <==> e in store && Matches(e, f)
  }

  ghost predicate UniqueIds(store: set<Event>) {
    forall e, f :: e in store && f in store && e.id == f.id ==> e == f
  }

  lemma {:induction false} InFlatten(answers: seq<seq<Event>>, e: Event)
    ensures e in Flatten(answers) <==> exists m :: 0 <= m < |answers| && e in answers[m]
  {
    if answers != [] {
      var front := answers[..|answers| - 1];
      InFlatten(front, e);
      if e in Flatten(front) {
        var m :| 0 <= m < |front| && e in front[m];
        assert e in answers[m];
      }
      if exists m :: 0 <= m < |answers| && e in answers[m] {
        var m :| 0 <= m < |answers| && e in answers[m];
        if m < |front| { assert e in front[m]; }
      }
    }
  }

  lemma DedupKeeps(store: set<Event>, events: seq<Event>, e: Event)
    requires UniqueIds(store) && forall x :: x in events ==> x in store
    ensures e in DedupById(events) <==> e in events
  {
    hide DedupById;
    if e in events {
      var i :| 0 <= i < |events| && events[i] == e;
      assert HasId(events, e.id);
      var r := DedupById(events);
      assert HasId(r, e.id);
      var k :| 0 <= k < |r| && r[k].id == e.id;
      assert r[k] in r;
    }
  }

  /** Answers, filter by filter, to everything the batch asks for. */
  ghost predicate AllAnswered(store: set<Event>, b: Batch, answers: seq<seq<Event>>) {
    |answers| == |All(b)| && forall m :: 0 <= m < |answers| ==> Answered(store, All(b)[m].filter, answers[m])
  }

  /** An event that matches a query is among the answers, whether or not the query landed anywhere. */
  lemma MatchIsAnswered(store: set<Event>, qs: seq<Filter>, b: Batch, answers: seq<seq<Event>>, q: nat, e: Event)
    requires MergedBatch(qs, b) && AllAnswered(store, b, answers) && q < |qs| && e in store && Matches(e, qs[q])
    ensures e in Flatten(answers)
  {
    hide MergedBatch, MergeOf, ClassOf, NoIds, All, Matches;
    if Dropped(qs, q) {
      NoIdNoMatch(qs, q, e);
    } else {
      LandsOnce(qs, b, q);
      var m :| 0 <= m < |All(b)| && q in All(b)[m].queries;
      EntryClass(qs, b, All(b)[m]);
      var c :| MergeOf(qs, All(b)[m], c);
      EventCovered(qs, All(b)[m], c, q, e);
      assert Answered(store, All(b)[m].filter, answers[m]);
      InFlatten(answers, e);
    }
  }

  lemma NoIdNoMatch(qs: seq<Filter>, q: nat, e: Event)
    requires q < |qs| && Dropped(qs, q)
    ensures !Matches(e, qs[q])
  {
    hide ClassOf;
    MergeableShape(qs[q]);
  }

  /**
   * If each merged filter is answered with exactly the store's matching events, in any order and with
   * any repetition, then every query, dropped ones included, receives each stored event that matches
   * its own filter exactly once, and nothing else.
   */
  lemma RoutingIsExact(store: set<Event>, qs: seq<Filter>, b: Batch, answers: seq<seq<Event>>, q: nat)
    requires MergedBatch(qs, b) && AllAnswered(store, b, answers) && UniqueIds(store) && q < |qs|
    ensures var received := DedupById(Matching(Flatten(answers), qs[q]));
            && NoDup(received)
            && forall e :: e in received <==> e in store && Matches(e, qs[q])
  {
    hide MergedBatch, Matches, All, DedupById, Matching, Flatten, UniqueIds;
    var matching := Matching(Flatten(answers), qs[q]);
    forall e | e in matching ensures e in store {
      InFlatten(answers, e);
      var m :| 0 <= m < |answers| && e in answers[m];
      assert Answered(store, All(b)[m].filter, answers[m]);
    }
    forall e ensures e in DedupById(matching) <==> e in store && Matches(e, qs[q]) {
      DedupKeeps(store, matching, e);
      if e in store && Matches(e, qs[q]) { MatchIsAnswered(store, qs, b, answers, q, e); }
    }
    DistinctIdsDistinct(DedupById(matching));
  }

  lemma DistinctIdsDistinct(events: seq<Event>)
    requires forall i, j :: 0 <= i < j < |events| ==> events[i].id != events[j].id
    ensures NoDup(events)
  {}
}
