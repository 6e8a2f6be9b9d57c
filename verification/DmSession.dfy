/** A direct-message session as it runs: the maps it mutates, and the subscriber that calls eviction back. */
module DmSession {
  import opened Common
  import opened JsMap
  import opened DmCache
  import opened DmEviction

  // ── Hydration ──

  /** The stored threads laid over the session's own, a stored one taking its partner's place. */
  function Laid(base: Threads, stored: Threads, keys: seq<string>): Threads {
    if keys == [] then base
    else
      var p := keys[|keys| - 1];
      Laid(base, stored, keys[..|keys| - 1]).Put(p, ThreadOf(stored, p))
  }

  /** The same with each stored thread sorted, as `hydrateMessages` does it. */
  function HydratedThreads(base: Threads, stored: Threads, keys: seq<string>): Threads {
    if keys == [] then base
    else
      var p := keys[|keys| - 1];
      HydratedThreads(base, stored, keys[..|keys| - 1]).Put(p, StableSort(ThreadOf(stored, p), Time))
  }

  function IdsOf(msgs: seq<Message>): set<string> {
    set m | m in msgs :: m.id
  }

  function HydratedIds(stored: Threads, keys: seq<string>): set<string> {
    if keys == [] then {} else HydratedIds(stored, keys[..|keys| - 1]) + IdsOf(ThreadOf(stored, keys[|keys| - 1]))
  }

  function HydratedNews(published: map<string, seq<Message>>, stored: Threads, keys: seq<string>): map<string, seq<Message>> {
    published + map p | p in keys :: StableSort(ThreadOf(stored, p), Time)
  }

  function Hydrated(c: Cache, stored: Threads): Cache {
    var threads := HydratedThreads(c.threads, stored, stored.keys);
    Cache(threads, c.seen + HydratedIds(stored, stored.keys), Summary(threads), HydratedNews(c.published, stored, stored.keys))
  }

  lemma PutValid(t: Threads, p: string, msgs: seq<Message>)
    requires t.Valid()
    ensures t.Put(p, msgs).Valid() && t.Put(p, msgs).at == t.at[p := msgs]
  {}

  lemma {:induction false} HydratedAre(base: Threads, stored: Threads, keys: seq<string>)
    requires base.Valid()
    ensures var t := HydratedThreads(base, stored, keys);
            && t.Valid()
            && (forall p :: p in t.at <==> p in base.at || p in keys)
            && (forall p :: p in t.at ==> t.at[p] == if p in keys then StableSort(ThreadOf(stored, p), Time) else base.at[p])
  {
    hide StableSort, Table.Valid, Table.Put;
    if keys != [] {
      var front, p := keys[..|keys| - 1], keys[|keys| - 1];
      assert keys == front + [p];
      HydratedAre(base, stored, front);
      PutValid(HydratedThreads(base, stored, front), p, StableSort(ThreadOf(stored, p), Time));
    }
  }

  lemma {:induction false} LaidAre(base: Threads, stored: Threads, keys: seq<string>)
    requires base.Valid()
    ensures var u := Laid(base, stored, keys);
            && u.Valid()
            && (forall p :: p in u.at <==> p in base.at || p in keys)
            && (forall p :: p in u.at ==> u.at[p] == if p in keys then ThreadOf(stored, p) else base.at[p])
  {
    hide Table.Valid, Table.Put;
    if keys != [] {
      var front, p := keys[..|keys| - 1], keys[|keys| - 1];
      assert keys == front + [p];
      LaidAre(base, stored, front);
      PutValid(Laid(base, stored, front), p, ThreadOf(stored, p));
    }
  }

  lemma {:induction false} HydratedIdsAre(stored: Threads, keys: seq<string>)
    requires NoDup(keys)
    ensures forall id :: id in HydratedIds(stored, keys) <==> exists p :: p in keys && InThread(ThreadOf(stored, p), id)
  {
    if keys != [] {
      var front, p := keys[..|keys| - 1], keys[|keys| - 1];
      assert keys == front + [p];
      HydratedIdsAre(stored, front);
      HydratedLast(stored, front, p);
    }
  }

  lemma HydratedLast(stored: Threads, front: seq<string>, p: string)
    requires forall id :: id in HydratedIds(stored, front) <==> exists q :: q in front && InThread(ThreadOf(stored, q), id)
    ensures forall id :: id in HydratedIds(stored, front + [p]) <==> exists q :: q in front + [p] && InThread(ThreadOf(stored, q), id)
  {
    assert (front + [p])[..|front|] == front;
    forall id ensures id in IdsOf(ThreadOf(stored, p)) <==> InThread(ThreadOf(stored, p), id) {
      var msgs := ThreadOf(stored, p);
      if InThread(msgs, id) {
        var i :| 0 <= i < |msgs| && msgs[i].id == id;
        assert msgs[i] in msgs;
      }
    }
    forall id ensures id in HydratedIds(stored, front + [p]) <==> exists q :: q in front + [p] && InThread(ThreadOf(stored, q), id) {
      if InThread(ThreadOf(stored, p), id) { assert p in front + [p]; }
      if id in HydratedIds(stored, front) {
        var q :| q in front && InThread(ThreadOf(stored, q), id);
        assert q in front + [p];
      }
      if exists q :: q in front + [p] && InThread(ThreadOf(stored, q), id) {
        var q :| q in front + [p] && InThread(ThreadOf(stored, q), id);
        if q != p { assert q in front; }
      }
    }
  }

  /** The ids of one thread, place by place. */
  function IdList(msgs: seq<Message>): (ids: seq<string>)
    ensures |ids| == |msgs| && forall i :: 0 <= i < |msgs| ==> ids[i] == msgs[i].id
  {
    if msgs == [] then [] else IdList(msgs[..|msgs| - 1]) + [msgs[|msgs| - 1].id]
  }

  lemma {:induction false} NoDupByCount<T(!new)>(s: seq<T>)
    requires |set x | x in s| == |s|
    ensures NoDup(s)
  {
    if s != [] {
      var front, last := s[..|s| - 1], s[|s| - 1];
      assert s == front + [last];
      var all, before := set x | x in s, set x | x in front;
      assert all == before + {last};
      AtMostLength(front);
      assert last !in before;
      NoDupByCount(front);
    }
  }

  lemma {:induction false} AtMostLength<T(!new)>(s: seq<T>)
    ensures |set x | x in s| <= |s|
  {
    if s != [] {
      var front, last := s[..|s| - 1], s[|s| - 1];
      assert s == front + [last];
      AtMostLength(front);
      assert (set x | x in s) == (set x | x in front) + {last};
    }
  }

  lemma IdListMembers(msgs: seq<Message>)
    ensures forall id :: id in IdList(msgs) <==> InThread(msgs, id)
  {
    forall id ensures id in IdList(msgs) <==> InThread(msgs, id) {
      if InThread(msgs, id) {
        var i :| 0 <= i < |msgs| && msgs[i].id == id;
        assert IdList(msgs)[i] == id;
      }
    }
  }

  lemma SortedIds(msgs: seq<Message>, id: string)
    ensures InThread(StableSort(msgs, Time), id) <==> InThread(msgs, id)
  {
    hide StableSort;
    var sorted := StableSort(msgs, Time);
    if InThread(sorted, id) {
      var i :| 0 <= i < |sorted| && sorted[i].id == id;
      SortMembers(msgs, Time, sorted[i]);
      var k :| 0 <= k < |msgs| && msgs[k] == sorted[i];
    }
    if InThread(msgs, id) {
      var i :| 0 <= i < |msgs| && msgs[i].id == id;
      SortMembers(msgs, Time, msgs[i]);
      var k :| 0 <= k < |sorted| && sorted[k] == msgs[i];
    }
  }

  /** Sorting a thread neither makes nor removes a repeated id. */
  lemma SortedDistinct(msgs: seq<Message>)
    ensures NoDup(IdList(StableSort(msgs, Time))) <==> NoDup(IdList(msgs))
  {
    hide StableSort, NoDup;
    var a, b := IdList(msgs), IdList(StableSort(msgs, Time));
    SortSorts(msgs, Time);
    IdListMembers(msgs);
    IdListMembers(StableSort(msgs, Time));
    forall id ensures id in a <==> id in b { SortedIds(msgs, id); }
    assert (set x | x in a) == (set x | x in b);
    if NoDup(a) {
      NoDupCardinality(a);
      NoDupByCount(b);
    }
    if NoDup(b) {
      NoDupCardinality(b);
      NoDupByCount(a);
    }
  }

  /** Distinct ids, thread by thread and between threads. */
  lemma DistinctByThread(threads: Threads)
    ensures DistinctIds(threads) <==>
            && (forall p :: p in threads.at ==> NoDup(IdList(threads.at[p])))
            && (forall p, q, id :: p in threads.at && q in threads.at && InThread(threads.at[p], id) && InThread(threads.at[q], id) ==> p == q)
  {
    if DistinctIds(threads) {
      forall p, q, id | p in threads.at && q in threads.at && InThread(threads.at[p], id) && InThread(threads.at[q], id) ensures p == q {
        var i :| 0 <= i < |threads.at[p]| && threads.at[p][i].id == id;
        var j :| 0 <= j < |threads.at[q]| && threads.at[q][j].id == id;
      }
    }
    if (forall p :: p in threads.at ==> NoDup(IdList(threads.at[p])))
       && (forall p, q, id :: p in threads.at && q in threads.at && InThread(threads.at[p], id) && InThread(threads.at[q], id) ==> p == q) {
      forall p, i, q, j | p in threads.at && q in threads.at && 0 <= i < |threads.at[p]| && 0 <= j < |threads.at[q]|
        && threads.at[p][i].id == threads.at[q][j].id ensures p == q && i == j {
        assert InThread(threads.at[p], threads.at[p][i].id) && InThread(threads.at[q], threads.at[q][j].id);
        var ids := IdList(threads.at[p]);
        assert ids[i] == ids[j];
      }
    }
  }

  /** One order of the same ids. */
  ghost predicate Reordered(a: seq<Message>, b: seq<Message>) {
    (NoDup(IdList(a)) <==> NoDup(IdList(b))) && forall id :: InThread(a, id) <==> InThread(b, id)
  }

  lemma SortReorders(msgs: seq<Message>)
    ensures Reordered(StableSort(msgs, Time), msgs) && Reordered(msgs, msgs)
  {
    hide StableSort, InThread, NoDup;
    SortedDistinct(msgs);
    forall id ensures InThread(StableSort(msgs, Time), id) <==> InThread(msgs, id) { SortedIds(msgs, id); }
  }

  lemma ReorderedDistinct(t: Threads, u: Threads)
    requires t.at.Keys == u.at.Keys && forall p :: p in t.at ==> Reordered(t.at[p], u.at[p])
    ensures DistinctIds(t) <==> DistinctIds(u)
  {
    hide DistinctIds, InThread, NoDup;
    DistinctByThread(u);
    DistinctByThread(t);
  }

  lemma HydratedDistinct(base: Threads, stored: Threads)
    requires base.Valid() && stored.Valid()
    ensures DistinctIds(HydratedThreads(base, stored, stored.keys)) <==> DistinctIds(Laid(base, stored, stored.keys))
  {
    hide StableSort, DistinctIds, HydratedThreads, Laid, Reordered, Table.Valid, ThreadOf;
    var t, u := HydratedThreads(base, stored, stored.keys), Laid(base, stored, stored.keys);
    HydratedAre(base, stored, stored.keys);
    LaidAre(base, stored, stored.keys);
    forall p | p in t.at ensures Reordered(t.at[p], u.at[p]) { SortReorders(u.at[p]); }
    ReorderedDistinct(t, u);
  }

  lemma SortedHasId(base: Threads, stored: Threads, id: string)
    requires base.Valid() && stored.Valid()
    ensures HasId(HydratedThreads(base, stored, stored.keys), id) <==> HasId(Laid(base, stored, stored.keys), id)
  {
    hide StableSort, HydratedThreads, Laid, InThread, NoDup, HasId;
    var t, u := HydratedThreads(base, stored, stored.keys), Laid(base, stored, stored.keys);
    HydratedAre(base, stored, stored.keys);
    LaidAre(base, stored, stored.keys);
    HasIdInThread(t, id);
    HasIdInThread(u, id);
    forall p | p in t.at ensures InThread(t.at[p], id) <==> InThread(u.at[p], id) { SortedIds(u.at[p], id); }
  }

  /** Nothing the session knew is lost from sight: every id seen is in a thread still there. */
  ghost predicate NoneLost(c: Cache, stored: Threads) {
    forall id :: id in c.seen ==> HasId(Laid(c.threads, stored, stored.keys), id)
  }

  lemma LaidHasId(c: Cache, stored: Threads, id: string)
    requires c.threads.Valid() && stored.Valid() && SeenExact(c)
    ensures id in HydratedIds(stored, stored.keys) ==> HasId(Laid(c.threads, stored, stored.keys), id)
    ensures HasId(Laid(c.threads, stored, stored.keys), id) ==> id in c.seen || id in HydratedIds(stored, stored.keys)
  {
    hide HydratedThreads, HydratedIds, Laid, InThread, NoDup, HasId;
    var u := Laid(c.threads, stored, stored.keys);
    LaidAre(c.threads, stored, stored.keys);
    HydratedIdsAre(stored, stored.keys);
    HasIdInThread(u, id);
    HasIdInThread(c.threads, id);
    if id in HydratedIds(stored, stored.keys) {
      var p :| p in stored.keys && InThread(ThreadOf(stored, p), id);
      assert p in u.at && InThread(u.at[p], id);
    }
  }

  lemma HydratedSeen(c: Cache, stored: Threads)
    requires c.threads.Valid() && stored.Valid() && SeenExact(c)
    ensures SeenExact(Hydrated(c, stored)) <==> NoneLost(c, stored)
  {
    hide HydratedThreads, HydratedIds, HydratedNews, Laid, NoDup, HasId, Summary, Table.Valid;
    forall id ensures HasId(HydratedThreads(c.threads, stored, stored.keys), id) <==> HasId(Laid(c.threads, stored, stored.keys), id) {
      SortedHasId(c.threads, stored, id);
    }
    forall id
      ensures id in HydratedIds(stored, stored.keys) ==> HasId(Laid(c.threads, stored, stored.keys), id)
      ensures HasId(Laid(c.threads, stored, stored.keys), id) ==> id in c.seen || id in HydratedIds(stored, stored.keys) {
      LaidHasId(c, stored, id);
    }
  }

  lemma HydratedGood(base: Threads, stored: Threads)
    requires GoodThreads(base) && stored.Valid()
    ensures GoodThreads(HydratedThreads(base, stored, stored.keys)) <==> forall p :: p in stored.at ==> stored.at[p] != []
  {
    hide StableSort, HydratedThreads, Laid, NoDup, SortedBy;
    KeysAt(stored);
    HydratedAre(base, stored, stored.keys);
    var t := HydratedThreads(base, stored, stored.keys);
    forall p | p in stored.at ensures p in t.at && SortedBy(t.at[p], Time) && |t.at[p]| == |stored.at[p]| {
      SortSorts(stored.at[p], Time);
    }
  }

  lemma HydratedPublished(c: Cache, stored: Threads)
    requires c.threads.Valid() && Published(c) && stored.Valid()
    ensures Published(Hydrated(c, stored))
  {
    hide StableSort, HydratedThreads, NoDup, Summary, HydratedIds;
    KeysAt(stored);
    HydratedAre(c.threads, stored, stored.keys);
  }

  /**
   * A session that is hydrated, over whatever it holds, agrees afterwards if and only if the threads
   * it ends up with have distinct ids, no stored one is empty, and no message seen before is lost.
   */
  lemma HydrateAgreesExactly(c: Cache, stored: Threads)
    requires Agrees(c) && stored.Valid()
    ensures Agrees(Hydrated(c, stored)) <==>
            && DistinctIds(Laid(c.threads, stored, stored.keys))
            && (forall p :: p in stored.at ==> stored.at[p] != [])
            && NoneLost(c, stored)
  {
    hide DistinctIds, GoodThreads, SeenExact, Published, Summary, HydratedThreads, HydratedIds, HydratedNews, Laid, NoneLost, NoDup, Table.Valid;
    GoodIsValid(c);
    HydratedDistinct(c.threads, stored);
    HydratedSeen(c, stored);
    HydratedGood(c.threads, stored);
    HydratedPublished(c, stored);
  }

  lemma GoodIsValid(c: Cache)
    requires GoodThreads(c.threads)
    ensures c.threads.Valid()
  {}

  /** So a fresh session agrees if and only if the stored ids are distinct and no stored thread is empty. */
  lemma FreshHydrationAgrees(stored: Threads)
    requires stored.Valid()
    ensures Agrees(Hydrated(EMPTY_CACHE, stored)) <==> DistinctIds(stored) && forall p :: p in stored.at ==> stored.at[p] != []
  {
    hide Agrees, Hydrated, DistinctIds, Laid, HasId;
    EmptyAgrees();
    HydrateAgreesExactly(EMPTY_CACHE, stored);
    LaidOverNothing(stored);
  }

  lemma LaidOverNothing(stored: Threads)
    requires stored.Valid()
    ensures DistinctIds(Laid(Empty(), stored, stored.keys)) <==> DistinctIds(stored)
  {
    hide DistinctIds, Laid, HydratedThreads, StableSort, NoDup;
    LaidAre(Empty(), stored, stored.keys);
    KeysAt(stored);
    var u := Laid(Empty(), stored, stored.keys);
    assert u.at == stored.at;
    SameThreadsDistinct(u, stored);
  }

  lemma SameThreadsDistinct(a: Threads, b: Threads)
    requires a.at == b.at
    ensures DistinctIds(a) <==> DistinctIds(b)
  {}

  // ── Pruning one partner at a time ──

  /** The dropped items of the partners already dealt with. */
  function Restrict(drop: seq<Item>, done: set<string>): (r: seq<Item>)
    ensures forall it :: it in r <==> it in drop && it.partner in done
  {
    if drop == [] then []
    else Restrict(drop[..|drop| - 1], done) + (if drop[|drop| - 1].partner in done then [drop[|drop| - 1]] else [])
  }

  lemma RestrictHoles(drop: seq<Item>, done: set<string>, p: string)
    ensures Holes(Restrict(drop, done), p) == if p in done then Holes(drop, p) else {}
  {
    hide Restrict;
  }

  lemma RestrictKept(threads: Threads, drop: seq<Item>, done: set<string>, p: string)
    ensures Kept(threads, Restrict(drop, done), p) == if p in done then Kept(threads, drop, p) else ThreadOf(threads, p)
    ensures Stays(threads, Restrict(drop, done), p) <==> p !in done || Stays(threads, drop, p)
  {
    hide Restrict, Keep, Holes;
    RestrictHoles(drop, done, p);
    NoHolesKeep(ThreadOf(threads, p));
  }

  lemma {:induction false} StayingKeysStep(threads: Threads, drop: seq<Item>, done: set<string>, p: string, keys: seq<string>)
    requires p !in done && NoDup(keys)
    ensures StayingKeys(threads, Restrict(drop, done + {p}), keys) ==
            if Stays(threads, drop, p) then StayingKeys(threads, Restrict(drop, done), keys)
            else Without(StayingKeys(threads, Restrict(drop, done), keys), p)
  {
    hide Restrict, Stays;
    if keys != [] {
      var front, q := keys[..|keys| - 1], keys[|keys| - 1];
      assert keys == front + [q];
      StayingKeysStep(threads, drop, done, p, front);
      RestrictKept(threads, drop, done + {p}, q);
      RestrictKept(threads, drop, done, q);
      var before := StayingKeys(threads, Restrict(drop, done), front);
      WithoutLast(before, q, p);
      if q == p { WithoutAbsent(before, p); }
    }
  }

  lemma WithoutLast(s: seq<string>, last: string, x: string)
    ensures Without(s + [last], x) == if last == x then Without(s, x) else Without(s, x) + [last]
  {
    assert (s + [last])[..|s|] == s;
  }

  lemma PruneStepFacts(threads: Threads, drop: seq<Item>, done: set<string>, p: string, q: string)
    requires p !in done && Holes(drop, p) != {}
    ensures var a, b := Restrict(drop, done), Restrict(drop, done + {p});
            && (Stays(threads, b, q) <==> if q == p then Kept(threads, drop, p) != [] else Stays(threads, a, q))
            && Kept(threads, b, q) == (if q == p then Kept(threads, drop, p) else Kept(threads, a, q))
            && (q == p ==> Stays(threads, a, q) && Kept(threads, a, q) == ThreadOf(threads, q))
  {
    hide Restrict, Kept, Holes, Stays;
    RestrictKept(threads, drop, done + {p}, q);
    RestrictKept(threads, drop, done, q);
    StaysByKept(threads, drop, p);
  }

  lemma PruneStepAt(threads: Threads, drop: seq<Item>, done: set<string>, p: string)
    requires p !in done && p in threads.at && Holes(drop, p) != {}
    ensures var before, after := Pruned(threads, Restrict(drop, done)), Pruned(threads, Restrict(drop, done + {p}));
            && p in before.at && before.at[p] == threads.at[p]
            && after.at == if Kept(threads, drop, p) == [] then before.at - {p} else before.at[p := Kept(threads, drop, p)]
  {
    hide Restrict, Kept, Holes, Stays, StayingKeys;
    forall q | q in threads.at
      ensures var a, b := Restrict(drop, done), Restrict(drop, done + {p});
              && (Stays(threads, b, q) <==> if q == p then Kept(threads, drop, p) != [] else Stays(threads, a, q))
              && Kept(threads, b, q) == (if q == p then Kept(threads, drop, p) else Kept(threads, a, q))
              && (q == p ==> Stays(threads, a, q) && Kept(threads, a, q) == ThreadOf(threads, q)) {
      PruneStepFacts(threads, drop, done, p, q);
    }
  }

  /** Dealing with one more partner deletes its thread or puts back what is left of it. */
  lemma PruneStep(threads: Threads, drop: seq<Item>, done: set<string>, p: string)
    requires threads.Valid() && p !in done && p in threads.at && Holes(drop, p) != {}
    ensures var before := Pruned(threads, Restrict(drop, done));
            && p in before.at && before.at[p] == threads.at[p]
            && Pruned(threads, Restrict(drop, done + {p})) ==
               if Kept(threads, drop, p) == [] then before.Delete(p) else before.Put(p, Kept(threads, drop, p))
  {
    hide Restrict, Kept, Holes, Stays, StayingKeys, Table.Valid, NoDup, Pruned;
    KeysAt(threads);
    PrunedKeys(threads, Restrict(drop, done));
    PrunedKeys(threads, Restrict(drop, done + {p}));
    StayingKeysStep(threads, drop, done, p, threads.keys);
    StaysByKept(threads, drop, p);
    PruneStepAt(threads, drop, done, p);
  }

  lemma StaysByKept(threads: Threads, drop: seq<Item>, p: string)
    requires Holes(drop, p) != {}
    ensures Stays(threads, drop, p) <==> Kept(threads, drop, p) != []
  {
    hide Kept, Holes;
  }

  lemma AnnounceStep(published: map<string, seq<Message>>, threads: Threads, drop: seq<Item>, done: set<string>, p: string)
    requires p !in done && Holes(drop, p) != {}
    ensures Announcements(published, threads, Restrict(drop, done + {p})) ==
            Announcements(published, threads, Restrict(drop, done))[p := Kept(threads, drop, p)]
  {
    hide Restrict, Kept, Holes, Partners;
    var a, b := Restrict(drop, done), Restrict(drop, done + {p});
    forall q ensures q in Partners(b) <==> q in Partners(a) || q == p
             ensures q in Partners(a) ==> q in done
             ensures Kept(threads, b, q) == if q == p then Kept(threads, drop, p) else Kept(threads, a, q) {
      PartnersHaveHoles(a, q);
      PartnersHaveHoles(b, q);
      RestrictHoles(drop, done, q);
      RestrictHoles(drop, done + {p}, q);
      RestrictKept(threads, drop, done, q);
      RestrictKept(threads, drop, done + {p}, q);
    }
  }

  /** The ids of the messages at `holes`. */
  function IdsAt(msgs: seq<Message>, holes: set<nat>, n: nat): set<string>
    requires n <= |msgs|
  {
    set i | 0 <= i < n && i in holes :: msgs[i].id
  }

  lemma DropIdsStep(threads: Threads, drop: seq<Item>, done: set<string>, p: string)
    requires p !in done
    ensures DroppedIds(threads, Restrict(drop, done + {p})) ==
            DroppedIds(threads, Restrict(drop, done)) + IdsAt(ThreadOf(threads, p), Holes(drop, p), |ThreadOf(threads, p)|)
  {
    hide Restrict, ThreadOf;
    var a, b, own := DroppedIds(threads, Restrict(drop, done)), DroppedIds(threads, Restrict(drop, done + {p})),
                     IdsAt(ThreadOf(threads, p), Holes(drop, p), |ThreadOf(threads, p)|);
    forall id ensures id in b <==> id in a || id in own {
      if id in b {
        var it :| it in Restrict(drop, done + {p}) && it.idx < |ThreadOf(threads, it.partner)| && ThreadOf(threads, it.partner)[it.idx].id == id;
        if it.partner == p { assert it.idx in Holes(drop, p); } else { assert it in Restrict(drop, done); }
      }
      if id in a {
        var it :| it in Restrict(drop, done) && it.idx < |ThreadOf(threads, it.partner)| && ThreadOf(threads, it.partner)[it.idx].id == id;
        assert it in Restrict(drop, done + {p});
      }
      if id in own {
        var i :| 0 <= i < |ThreadOf(threads, p)| && i in Holes(drop, p) && ThreadOf(threads, p)[i].id == id;
        var it :| it in drop && it.partner == p && it.idx == i;
        assert it in Restrict(drop, done + {p});
      }
    }
  }

  lemma RestrictNone(drop: seq<Item>)
    ensures Restrict(drop, {}) == []
  {
    if Restrict(drop, {}) != [] { assert Restrict(drop, {})[0] in Restrict(drop, {}); }
  }

  lemma NothingPruned(threads: Threads, published: map<string, seq<Message>>)
    requires threads.Valid()
    ensures Pruned(threads, []) == threads && DroppedIds(threads, []) == {} && Announcements(published, threads, []) == published
  {
    hide NoDup;
    NothingPrunedAt(threads);
    AllStay(threads, threads.keys);
    PrunedKeys(threads, []);
    hide Pruned;
    assert Pruned(threads, []) == Table(Pruned(threads, []).keys, Pruned(threads, []).at);
  }

  lemma NothingPrunedAt(threads: Threads)
    ensures Pruned(threads, []).at == threads.at
  {
    hide Kept, NoDup, StayingKeys;
    forall p ensures Kept(threads, [], p) == ThreadOf(threads, p) && Stays(threads, [], p) { NothingKept(threads, p); }
  }

  lemma NothingKept(threads: Threads, p: string)
    ensures Kept(threads, [], p) == ThreadOf(threads, p)
  {
    NoHolesKeep(ThreadOf(threads, p));
    assert Holes([], p) == {};
  }

  /** Everything one more partner changes. */
  lemma PartnerStep(threads: Threads, published: map<string, seq<Message>>, drop: seq<Item>, done: set<string>, p: string)
    requires threads.Valid() && p !in done && p in Partners(drop)
    requires forall it :: it in drop ==> it.partner in threads.at && it.idx < |ThreadOf(threads, it.partner)|
    requires forall a, b :: a in drop && b in drop && a.partner == b.partner && a.idx == b.idx ==> a == b
    ensures var now, next := Restrict(drop, done), Restrict(drop, done + {p});
            var left := Keep(threads.at[p], Holes(drop, p));
            && p in Pruned(threads, now).at && Pruned(threads, now).at[p] == threads.at[p]
            && Pruned(threads, next) == (if left == [] then Pruned(threads, now).Delete(p) else Pruned(threads, now).Put(p, left))
            && DroppedIds(threads, next) == DroppedIds(threads, now) + IdsAt(threads.at[p], Holes(drop, p), |threads.at[p]|)
            && Announcements(published, threads, next) == Announcements(published, threads, now)[p := left]
            && |PartnerSet(drop, done + {p})| == |PartnerSet(drop, done)| + |Holes(drop, p)|
  {
    PartnerKnown(threads, drop, p);
    hide Pruned, DroppedIds, Announcements, Table.Valid, Restrict, Keep, Holes, Partners, PartnerSet, IdsAt;
    PartnersHaveHoles(drop, p);
    PruneStep(threads, drop, done, p);
    DropIdsStep(threads, drop, done, p);
    AnnounceStep(published, threads, drop, done, p);
    PartnerSetStep(drop, done, p);
  }

  lemma {:induction false} AllStay(threads: Threads, keys: seq<string>)
    ensures StayingKeys(threads, [], keys) == keys
  {
    if keys != [] {
      AllStay(threads, keys[..|keys| - 1]);
      assert keys == keys[..|keys| - 1] + [keys[|keys| - 1]];
    }
  }

  /** What pruning by everybody's holes is. */
  lemma RestrictAll(threads: Threads, published: map<string, seq<Message>>, drop: seq<Item>)
    ensures var all := Restrict(drop, Partners(drop));
            && Pruned(threads, all) == Pruned(threads, drop) && DroppedIds(threads, all) == DroppedIds(threads, drop)
            && Announcements(published, threads, all) == Announcements(published, threads, drop)
  {
    RestrictSame(drop, Partners(drop));
  }

  lemma {:induction false} RestrictSame(drop: seq<Item>, done: set<string>)
    requires forall it :: it in drop ==> it.partner in done
    ensures Restrict(drop, done) == drop
  {
    if drop != [] {
      var front, last := drop[..|drop| - 1], drop[|drop| - 1];
      assert drop == front + [last];
      forall it | it in front ensures it.partner in done { assert it in drop; }
      RestrictSame(front, done);
      assert last in drop;
    }
  }

  // ── The session object ──

  class Session {
    var threads: Threads
    var seen: set<string>
    var conversations: seq<Conversation>
    var published: map<string, seq<Message>>
    /** The registered follow set; `None` until it is known. */
    var follows: Option<set<string>>
    /** The cap the session's subscriber evicts to, once subscribed. */
    var cap: Option<int>

    function Abs(): Cache
      reads this
    {
      Cache(threads, seen, conversations, published)
    }

    ghost predicate Valid()
      reads this
    {
      Agrees(Abs())
    }

    /** The subscriber's re-entry ends: no subscriber, no follow set yet, or a cap that is not negative. */
    predicate Calm()
      reads this
    {
      cap.None? || follows.None? || cap.value >= 0
    }

    constructor ()
      ensures Valid() && Abs() == EMPTY_CACHE && follows == None && cap == None
    {
      threads, seen, conversations, published, follows, cap := Empty(), {}, [], map[], None, None;
      new;
      EmptyAgrees();
    }

    method SetFollowSet(set_: Option<set<string>>)
      modifies this`follows
      ensures follows == set_
    {
      follows := set_;
    }

    /** What `initDMSession` installs on the conversations observable. */
    method Subscribe(limit: int)
      modifies this`cap
      ensures cap == Some(limit)
    {
      cap := Some(limit);
    }

    /** The state once the subscriber, if there is one, has run. */
    function Announced(c: Cache): Cache
      reads this`follows, this`cap
    {
      if cap.Some? then Settled(c, follows, cap.value) else c
    }

    /** `conversations.set`: the observable calls its subscriber, which evicts and may announce again. */
    method SetConversations(convs: seq<Conversation>)
      requires cap.Some? ==> Agrees(Abs().(conversations := convs)) && Calm()
      modifies this`threads, this`seen, this`conversations, this`published
      ensures Abs() == Announced(old(Abs()).(conversations := convs))
      ensures cap.Some? ==> Valid()
      decreases if cap.Some? && follows.Some? && Over(threads, follows.value, cap.value) then 1 else 0, 1
    {
      hide Agrees, Over, Settled;
      conversations := convs;
      if cap.Some? {
        var _ := EvictIfNeeded(cap.value);
      }
    }

    /** `evictIfNeeded`. */
    method EvictIfNeeded(limit: int) returns (dropped: nat)
      requires Valid() && Calm()
      modifies this`threads, this`seen, this`conversations, this`published
      ensures Valid()
      ensures follows.Some? && Over(old(threads), follows.value, limit) ==>
        Abs() == Announced(Evicted(old(Abs()), follows.value, limit)) && dropped == |Doomed(old(threads), follows.value, limit)|
      ensures !(follows.Some? && Over(old(threads), follows.value, limit)) ==> Abs() == old(Abs()) && dropped == 0
      ensures cap == Some(limit) ==> Abs() == Settled(old(Abs()), follows, limit)
      decreases if cap == Some(limit) then (if follows.Some? && Over(threads, follows.value, limit) then 1 else 0) else 2, 0
    {
      hide Agrees, Evictable, Doomed, Summary, Settled, Pruned, DroppedIds, Announcements;
      if follows.None? {
        SettledNothing(Abs(), follows, limit);
        return 0;
      }
      ghost var c := Abs();
      var items := CollectItems(follows.value);
      if |items| <= limit {
        SettledNothing(c, follows, limit);
        return 0;
      }
      var drop := Oldest(items, limit);
      DropIsDoomed(c, follows.value, limit);
      AgreesParts(c);
      var dropIdx := GroupByPartner(drop);
      dropped := PruneThreads(drop, dropIdx);
      var convs := Summarize();
      EvictAgrees(c, follows.value, limit);
      EvictedIs(c, follows.value, limit, drop);
      if cap == Some(limit) { EvictionSettles(c, follows.value, limit); }
      ghost var evicted := Evicted(c, follows.value, limit);
      assert Abs().(conversations := convs) == evicted;
      SetConversations(convs);
      SettledTwice(c, follows.value, limit);
    }

    method CollectItems(known: set<string>) returns (items: seq<Item>)
      ensures items == Evictable(threads, known)
    {
      items := [];
      var k := 0;
      while k < |threads.keys|
        invariant 0 <= k <= |threads.keys| && items == Items(threads, threads.keys[..k], known)
      {
        assert threads.keys[..k + 1][..k] == threads.keys[..k];
        var partner := threads.keys[k];
        if partner !in known {
          var msgs := ThreadOf(threads, partner);
          ghost var before := items;
          var i := 0;
          while i < |msgs|
            invariant 0 <= i <= |msgs| && items == before + ItemsOf(partner, msgs, i)
          {
            items := items + [Item(partner, i, msgs[i].createdAt)];
            i := i + 1;
          }
        }
        k := k + 1;
      }
      assert threads.keys[..k] == threads.keys;
    }

    /** Takes each partner's holes out of its thread; says how many messages went. */
    method PruneThreads(drop: seq<Item>, dropIdx: map<string, set<nat>>) returns (dropped: nat)
      requires threads.Valid() && NoDup(drop)
      requires forall it :: it in drop ==> it.partner in threads.at && it.idx < |ThreadOf(threads, it.partner)|
      requires forall a, b :: a in drop && b in drop && a.partner == b.partner && a.idx == b.idx ==> a == b
      requires dropIdx.Keys == Partners(drop) && forall p :: p in dropIdx ==> dropIdx[p] == Holes(drop, p)
      modifies this`threads, this`seen, this`published
      ensures threads == Pruned(old(threads), drop) && seen == old(seen) - DroppedIds(old(threads), drop)
      ensures published == Announcements(old(published), old(threads), drop)
      ensures dropped == |drop|
    {
      hide Pruned, DroppedIds, Announcements, Table.Valid, NoDup, Restrict, Keep, Holes, Partners, PartnerSet, IdsAt;
      var rest := dropIdx.Keys;
      ghost var t0, s0, p0 := threads, seen, published;
      ghost var done: set<string> := {};
      dropped := 0;
      RestrictNone(drop);
      NothingPruned(threads, published);
      NoPartners(drop);
      while rest != {}
        invariant rest <= dropIdx.Keys && done == dropIdx.Keys - rest
        invariant threads == Pruned(t0, Restrict(drop, done))
        invariant seen == s0 - DroppedIds(t0, Restrict(drop, done))
        invariant published == Announcements(p0, t0, Restrict(drop, done))
        invariant dropped == |PartnerSet(drop, done)|
        decreases |rest|
      {
        var partner :| partner in rest;
        PartnerStep(t0, p0, drop, done, partner);
        var msgs := threads.at[partner];
        var next, gone := KeepOthers(msgs, dropIdx[partner]);
        seen := seen - gone;
        dropped := dropped + |dropIdx[partner]|;
        threads := if next == [] then threads.Delete(partner) else threads.Put(partner, next);
        published := published[partner := next];
        rest := rest - {partner};
        done := done + {partner};
        assert done == dropIdx.Keys - rest;
      }
      assert done == Partners(drop);
      RestrictAll(t0, p0, drop);
      WholePartnerSet(drop);
    }

    method Summarize() returns (convs: seq<Conversation>)
      ensures convs == Summary(threads)
    {
      hide StableSort, Preview;
      convs := [];
      var k := 0;
      while k < |threads.keys|
        invariant 0 <= k <= |threads.keys| && convs == Listed(threads, threads.keys[..k])
      {
        assert threads.keys[..k + 1][..k] == threads.keys[..k];
        var partner := threads.keys[k];
        var msgs := ThreadOf(threads, partner);
        if |msgs| > 0 {
          var last := msgs[|msgs| - 1];
          convs := convs + [Conversation(partner, last.createdAt, Preview(last.content), |msgs|)];
        }
        k := k + 1;
      }
      assert threads.keys[..k] == threads.keys;
      convs := StableSort(convs, Newness);
    }

    /** `ingestMessage`: idempotent, and announced, so the subscriber evicts if that made the cache too large. */
    method IngestMessage(m: Message) returns (isNew: bool)
      requires Valid() && Calm()
      modifies this`threads, this`seen, this`conversations, this`published
      ensures Valid()
      ensures isNew <==> m.id !in old(seen)
      ensures Abs() == if isNew then Announced(Ingested(old(Abs()), m)) else old(Abs())
    {
      hide Agrees, Summary, StableSort, Settled;
      ghost var c := Abs();
      if m.id in seen { return false; }
      IngestAgrees(c, m);
      seen := seen + {m.id};
      var inserted := StableSort(ThreadOf(threads, m.partner) + [m], Time);
      threads := threads.Put(m.partner, inserted);
      published := published[m.partner := inserted];
      var convs := Summarize();
      SetConversations(convs);
      isNew := true;
    }

    /** `hydrateMessages`, over whatever the session holds. A watched session must come out in agreement, for eviction to run on. */
    method HydrateMessages(stored: Threads)
      requires Valid() && Calm() && stored.Valid() && (cap.Some? ==> Agrees(Hydrated(Abs(), stored)))
      modifies this`threads, this`seen, this`conversations, this`published
      ensures Abs() == Announced(Hydrated(old(Abs()), stored))
      ensures cap.Some? ==> Valid()
    {
      hide Agrees, Summary, StableSort, Settled, HydratedThreads, HydratedIds, HydratedNews, Table.Valid, IdsOf;
      ghost var c := Abs();
      HydratedNone(c, stored);
      var k := 0;
      while k < |stored.keys|
        invariant 0 <= k <= |stored.keys|
        invariant threads == HydratedThreads(c.threads, stored, stored.keys[..k])
        invariant seen == c.seen + HydratedIds(stored, stored.keys[..k])
        invariant published == HydratedNews(c.published, stored, stored.keys[..k])
      {
        HydratedStep(c, stored, k);
        var partner := stored.keys[k];
        var msgs := ThreadOf(stored, partner);
        seen := seen + IdsOf(msgs);
        var sorted := StableSort(msgs, Time);
        threads := threads.Put(partner, sorted);
        published := published[partner := sorted];
        k := k + 1;
      }
      assert stored.keys[..k] == stored.keys;
      var convs := Summarize();
      assert Abs().(conversations := convs) == Hydrated(c, stored);
      SetConversations(convs);
    }
  }

  // ── Whole runs ──

  /** A session's contents, follow set and subscribed cap. */
  datatype Live = Live(cache: Cache, follows: Option<set<string>>, cap: Option<int>)

  datatype Op = Ingest(m: Message) | Evict(limit: int) | Follow(follows: Option<set<string>>) | Watch(limit: int)

  function Heard(s: Live, c: Cache): Live {
    s.(cache := if s.cap.Some? then Settled(c, s.follows, s.cap.value) else c)
  }

  /** One call of the session, the subscriber's part included. */
  function Did(s: Live, op: Op): Live {
    match op
    case Ingest(m) => if m.id in s.cache.seen then s else Heard(s, Ingested(s.cache, m))
    case Evict(limit) =>
      if s.follows.Some? && Over(s.cache.threads, s.follows.value, limit)
      then Heard(s, Settled(s.cache, s.follows, limit)) else s
    case Follow(follows) => s.(follows := follows)
    case Watch(limit) => s.(cap := Some(limit))
  }

  function DidAll(s: Live, ops: seq<Op>): Live {
    if ops == [] then s else Did(DidAll(s, ops[..|ops| - 1]), ops[|ops| - 1])
  }

  /** Over any run of ingests and evictions, with the follow set coming and going, the structures agree. */
  lemma {:induction false} RunAgrees(s: Live, ops: seq<Op>)
    requires Agrees(s.cache)
    ensures Agrees(DidAll(s, ops).cache)
  {
    hide Agrees, Settled, Ingested, Over;
    if ops != [] {
      RunAgrees(s, ops[..|ops| - 1]);
      var before := DidAll(s, ops[..|ops| - 1]);
      match ops[|ops| - 1]
      case Ingest(m) =>
        IngestAgrees(before.cache, m);
        if before.cap.Some? { SettledAgrees(Ingested(before.cache, m), before.follows, before.cap.value); }
      case Evict(limit) =>
        SettledAgrees(before.cache, before.follows, limit);
        if before.cap.Some? { SettledAgrees(Settled(before.cache, before.follows, limit), before.follows, before.cap.value); }
      case Follow(_) =>
      case Watch(_) =>
    }
  }

  /** In any run: whenever a new message has gone in, no more than the cap is left that could be evicted. */
  lemma RunStaysWithinCap(s: Live, ops: seq<Op>, m: Message)
    requires Agrees(s.cache) && m.id !in DidAll(s, ops).cache.seen
    ensures var now := Did(DidAll(s, ops), Ingest(m));
            now.follows.Some? && now.cap.Some? && now.cap.value >= 0 ==>
              |Evictable(now.cache.threads, now.follows.value)| <= now.cap.value
  {
    hide Agrees, Ingested, Evicted, Evictable;
    var before := DidAll(s, ops);
    RunAgrees(s, ops);
    IngestAgrees(before.cache, m);
    if before.follows.Some? && before.cap.Some? && before.cap.value >= 0
       && Over(Ingested(before.cache, m).threads, before.follows.value, before.cap.value) {
      EvictionSettles(Ingested(before.cache, m), before.follows.value, before.cap.value);
    }
  }

  // ── The loops' own steps ──

  lemma HydratedNone(c: Cache, stored: Threads)
    ensures HydratedThreads(c.threads, stored, stored.keys[..0]) == c.threads && HydratedIds(stored, stored.keys[..0]) == {}
    ensures HydratedNews(c.published, stored, stored.keys[..0]) == c.published
  {}

  lemma HydratedStep(c: Cache, stored: Threads, k: nat)
    requires k < |stored.keys|
    ensures var p := stored.keys[k];
            var sorted := StableSort(ThreadOf(stored, p), Time);
            && HydratedThreads(c.threads, stored, stored.keys[..k + 1]) == HydratedThreads(c.threads, stored, stored.keys[..k]).Put(p, sorted)
            && HydratedIds(stored, stored.keys[..k + 1]) == HydratedIds(stored, stored.keys[..k]) + IdsOf(ThreadOf(stored, p))
            && HydratedNews(c.published, stored, stored.keys[..k + 1]) == HydratedNews(c.published, stored, stored.keys[..k])[p := sorted]
  {
    hide StableSort, IdsOf, HydratedNews;
    assert stored.keys[..k + 1][..k] == stored.keys[..k];
    assert stored.keys[..k + 1] == stored.keys[..k] + [stored.keys[k]];
    NewsStep(c.published, stored, stored.keys[..k], stored.keys[k]);
  }

  lemma NewsStep(published: map<string, seq<Message>>, stored: Threads, keys: seq<string>, p: string)
    ensures HydratedNews(published, stored, keys + [p]) == HydratedNews(published, stored, keys)[p := StableSort(ThreadOf(stored, p), Time)]
  {
    hide StableSort;
  }

  method Oldest(items: seq<Item>, limit: int) returns (drop: seq<Item>)
    requires |items| > limit
    ensures |StableSort(items, ItemTime)| == |items|
    ensures drop == StableSort(items, ItemTime)[..if limit < 0 then |items| else |items| - limit]
  {
    SortSorts(items, ItemTime);
    drop := StableSort(items, ItemTime)[..if limit < 0 then |items| else |items| - limit];
  }

  method GroupByPartner(drop: seq<Item>) returns (dropIdx: map<string, set<nat>>)
    ensures dropIdx.Keys == Partners(drop) && forall p :: p in dropIdx ==> dropIdx[p] == Holes(drop, p)
  {
    dropIdx := map[];
    var i := 0;
    while i < |drop|
      invariant 0 <= i <= |drop|
      invariant dropIdx.Keys == Partners(drop[..i]) && forall p :: p in dropIdx ==> dropIdx[p] == Holes(drop[..i], p)
    {
      var it := drop[i];
      GroupStep(drop, i);
      PartnersHaveHoles(drop[..i], it.partner);
      dropIdx := dropIdx[it.partner := (if it.partner in dropIdx then dropIdx[it.partner] else {}) + {it.idx}];
      i := i + 1;
    }
    assert drop[..i] == drop;
  }

  lemma GroupStep(drop: seq<Item>, i: nat)
    requires i < |drop|
    ensures Partners(drop[..i + 1]) == Partners(drop[..i]) + {drop[i].partner}
    ensures forall p :: Holes(drop[..i + 1], p) == Holes(drop[..i], p) + (if p == drop[i].partner then {drop[i].idx} else {})
  {
    assert drop[..i + 1] == drop[..i] + [drop[i]];
  }

  /** One thread without its holes, and the ids that went. */
  method KeepOthers(msgs: seq<Message>, holes: set<nat>) returns (next: seq<Message>, gone: set<string>)
    ensures next == Keep(msgs, holes) && gone == IdsAt(msgs, holes, |msgs|)
  {
    next, gone := [], {};
    var i := 0;
    while i < |msgs|
      invariant 0 <= i <= |msgs| && gone == IdsAt(msgs, holes, i)
      invariant |next| == |KeptIdx(holes, i)| && forall k :: 0 <= k < |next| ==> next[k] == msgs[KeptIdx(holes, i)[k]]
    {
      if i in holes {
        gone := gone + {msgs[i].id};
      } else {
        next := next + [msgs[i]];
      }
      i := i + 1;
    }
    KeepPlaces(msgs, holes);
  }

  function PartnerSet(drop: seq<Item>, done: set<string>): set<Item> {
    set it | it in drop && it.partner in done
  }

  lemma NoPartners(drop: seq<Item>)
    ensures PartnerSet(drop, {}) == {}
  {}

  lemma PartnerSetStep(drop: seq<Item>, done: set<string>, p: string)
    requires p !in done
    requires forall a, b :: a in drop && b in drop && a.partner == b.partner && a.idx == b.idx ==> a == b
    ensures |PartnerSet(drop, done + {p})| == |PartnerSet(drop, done)| + |Holes(drop, p)|
  {
    HolesAreItems(drop, p);
    var own := set it | it in drop && it.partner == p;
    assert PartnerSet(drop, done + {p}) == PartnerSet(drop, done) + own;
    assert PartnerSet(drop, done) !! own;
  }

  lemma WholePartnerSet(drop: seq<Item>)
    requires NoDup(drop)
    ensures |PartnerSet(drop, Partners(drop))| == |drop|
  {
    NoDupCardinality(drop);
    assert PartnerSet(drop, Partners(drop)) == set it | it in drop;
  }

  lemma PartnerKnown(threads: Threads, drop: seq<Item>, p: string)
    requires p in Partners(drop) && forall it :: it in drop ==> it.partner in threads.at
    ensures p in threads.at
  {}

  lemma SettledNothing(c: Cache, follows: Option<set<string>>, limit: int)
    requires follows.None? || !Over(c.threads, follows.value, limit)
    ensures Settled(c, follows, limit) == c
  {}

  lemma SettledTwice(c: Cache, follows: set<string>, limit: int)
    requires Over(c.threads, follows, limit)
    ensures Settled(c, Some(follows), limit) == Evicted(c, follows, limit)
    ensures !Over(Evicted(c, follows, limit).threads, follows, limit) ==>
      Settled(Evicted(c, follows, limit), Some(follows), limit) == Evicted(c, follows, limit)
  {
    hide Evicted;
  }

  lemma EvictedIs(c: Cache, follows: set<string>, limit: int, drop: seq<Item>)
    requires Over(c.threads, follows, limit) && drop == Doomed(c.threads, follows, limit)
    ensures Evicted(c, follows, limit) ==
            Cache(Pruned(c.threads, drop), c.seen - DroppedIds(c.threads, drop), Summary(Pruned(c.threads, drop)),
                  Announcements(c.published, c.threads, drop))
  {}

  lemma AgreesParts(c: Cache)
    requires Agrees(c)
    ensures c.threads.Valid()
  {
    hide Table.Valid;
  }

  /** What the loops need to know of the doomed items. */
  lemma DropIsDoomed(c: Cache, follows: set<string>, limit: int)
    requires Agrees(c) && Over(c.threads, follows, limit)
    ensures var items := Evictable(c.threads, follows);
            var drop := Doomed(c.threads, follows, limit);
            && (|StableSort(items, ItemTime)| == |items| ==>
                  drop == StableSort(items, ItemTime)[..if limit < 0 then |items| else |items| - limit])
            && NoDup(drop)
            && (forall it :: it in drop ==> it.partner in c.threads.at && it.idx < |ThreadOf(c.threads, it.partner)|)
            && (forall a, b :: a in drop && b in drop && a.partner == b.partner && a.idx == b.idx ==> a == b)
  {
    var drop := Doomed(c.threads, follows, limit);
    hide Agrees, StableSort, Evictable, NoDup;
    AgreesParts(c);
    DoomedDistinct(c.threads, follows, limit);
    forall it | it in drop
      ensures it.partner in c.threads.at && it.idx < |ThreadOf(c.threads, it.partner)|
              && it.ts == ThreadOf(c.threads, it.partner)[it.idx].createdAt {
      DoomedPlace(c, follows, limit, it);
    }
  }
}
