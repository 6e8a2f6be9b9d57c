/** Follow-aware eviction: what it drops, what it must not touch, and why its own re-entry ends. */
module DmEviction {
  import opened Common
  import opened JsMap
  import opened DmCache

  type Threads = Table<seq<Message>>

  datatype Item = Item(partner: string, idx: nat, ts: int)

  function ItemTime(it: Item): int { it.ts }

  // ── Which messages may be evicted ──

  function ItemsOf(p: string, msgs: seq<Message>, n: nat): (items: seq<Item>)
    requires n <= |msgs|
    ensures |items| == n && forall i :: 0 <= i < n ==> items[i] == Item(p, i, msgs[i].createdAt)
  {
    if n == 0 then [] else ItemsOf(p, msgs, n - 1) + [Item(p, n - 1, msgs[n - 1].createdAt)]
  }

  function Items(threads: Threads, keys: seq<string>, follows: set<string>): seq<Item> {
    if keys == [] then []
    else
      var p := keys[|keys| - 1];
      var msgs := ThreadOf(threads, p);
      Items(threads, keys[..|keys| - 1], follows) + (if p in follows then [] else ItemsOf(p, msgs, |msgs|))
  }

  function Evictable(threads: Threads, follows: set<string>): seq<Item> {
    Items(threads, threads.keys, follows)
  }

  ghost predicate IsItem(threads: Threads, keys: seq<string>, follows: set<string>, it: Item) {
    && it.partner in keys && it.partner !in follows && it.idx < |ThreadOf(threads, it.partner)|
    && it.ts == ThreadOf(threads, it.partner)[it.idx].createdAt
  }

  lemma {:induction false} ItemsAre(threads: Threads, keys: seq<string>, follows: set<string>, it: Item)
    ensures it in Items(threads, keys, follows) <==> IsItem(threads, keys, follows, it)
  {
    if keys != [] {
      var front, p := keys[..|keys| - 1], keys[|keys| - 1];
      ItemsAre(threads, front, follows, it);
      assert keys == front + [p];
      var own := ItemsOf(p, ThreadOf(threads, p), |ThreadOf(threads, p)|);
      if IsItem(threads, keys, follows, it) && it.partner == p { assert own[it.idx] == it; }
    }
  }

  lemma {:induction false} ItemsDistinct(threads: Threads, keys: seq<string>, follows: set<string>)
    requires NoDup(keys)
    ensures NoDup(Items(threads, keys, follows))
  {
    if keys != [] {
      var front, p := keys[..|keys| - 1], keys[|keys| - 1];
      assert keys == front + [p];
      ItemsDistinct(threads, front, follows);
      var a, b := Items(threads, front, follows), ItemsOf(p, ThreadOf(threads, p), |ThreadOf(threads, p)|);
      forall i | 0 <= i < |a| ensures a[i].partner != p {
        ItemsAre(threads, front, follows, a[i]);
        assert a[i] in a;
      }
    }
  }

  // ── What goes ──

  predicate Over(threads: Threads, follows: set<string>, cap: int) {
    |Evictable(threads, follows)| > cap
  }

  /** The oldest evictable messages, as many as there are too many of. */
  function Doomed(threads: Threads, follows: set<string>, cap: int): seq<Item>
    requires Over(threads, follows, cap)
  {
    var items := Evictable(threads, follows);
    SortSorts(items, ItemTime);
    StableSort(items, ItemTime)[..if cap < 0 then |items| else |items| - cap]
  }

  function Holes(drop: seq<Item>, p: string): set<nat> {
    set it | it in drop && it.partner == p :: it.idx
  }

  /** The indices below `n` that are not holes, in order. */
  function KeptIdx(holes: set<nat>, n: nat): (idx: seq<nat>)
    ensures forall i: nat :: i in idx <==> i < n && i !in holes
    ensures forall k :: 0 <= k < |idx| ==> idx[k] < n
    ensures forall i, j :: 0 <= i < j < |idx| ==> idx[i] < idx[j]
  {
    if n == 0 then []
    else if n - 1 in holes then KeptIdx(holes, n - 1)
    else KeptIdx(holes, n - 1) + [n - 1]
  }

  function Pick(msgs: seq<Message>, idx: seq<nat>): (r: seq<Message>)
    requires forall k :: 0 <= k < |idx| ==> idx[k] < |msgs|
    ensures |r| == |idx| && forall k :: 0 <= k < |idx| ==> r[k] == msgs[idx[k]]
  {
    if idx == [] then [] else Pick(msgs, idx[..|idx| - 1]) + [msgs[idx[|idx| - 1]]]
  }

  function Keep(msgs: seq<Message>, holes: set<nat>): seq<Message> {
    var idx := KeptIdx(holes, |msgs|);
    assert forall k :: 0 <= k < |idx| ==> idx[k] in idx;
    Pick(msgs, idx)
  }

  function Kept(threads: Threads, drop: seq<Item>, p: string): seq<Message> {
    Keep(ThreadOf(threads, p), Holes(drop, p))
  }

  predicate Stays(threads: Threads, drop: seq<Item>, p: string) {
    Holes(drop, p) == {} || Kept(threads, drop, p) != []
  }

  function StayingKeys(threads: Threads, drop: seq<Item>, keys: seq<string>): (r: seq<string>)
    ensures forall p :: p in r <==> p in keys && Stays(threads, drop, p)
    ensures NoDup(keys) ==> NoDup(r)
  {
    if keys == [] then []
    else
      var front, p := StayingKeys(threads, drop, keys[..|keys| - 1]), keys[|keys| - 1];
      assert NoDup(keys) ==> p !in keys[..|keys| - 1];
      if Stays(threads, drop, p) then front + [p] else front
  }

  function Pruned(threads: Threads, drop: seq<Item>): Threads {
    Table(StayingKeys(threads, drop, threads.keys),
          map p | p in threads.at && Stays(threads, drop, p) :: Kept(threads, drop, p))
  }

  /** The ids at the dropped places. */
  function DroppedIds(threads: Threads, drop: seq<Item>): set<string> {
    set it | it in drop && it.idx < |ThreadOf(threads, it.partner)| :: ThreadOf(threads, it.partner)[it.idx].id
  }

  function Evicted(c: Cache, follows: set<string>, cap: int): Cache
    requires Over(c.threads, follows, cap)
  {
    var drop := Doomed(c.threads, follows, cap);
    var threads := Pruned(c.threads, drop);
    Cache(threads, c.seen - DroppedIds(c.threads, drop), Summary(threads), Announcements(c.published, c.threads, drop))
  }

  /** Each partner that lost messages is announced with what it has left, nothing included. */
  function Announcements(published: map<string, seq<Message>>, threads: Threads, drop: seq<Item>): map<string, seq<Message>> {
    map p | p in published.Keys + Partners(drop) ::
      if p in Partners(drop) then Kept(threads, drop, p) else published[p]
  }

  function Partners(drop: seq<Item>): set<string> {
    set it | it in drop :: it.partner
  }

  lemma PartnersHaveHoles(drop: seq<Item>, p: string)
    ensures p in Partners(drop) <==> Holes(drop, p) != {}
  {
    if p in Partners(drop) {
      var it :| it in drop && it.partner == p;
      assert it.idx in Holes(drop, p);
    }
    if Holes(drop, p) != {} {
      var i :| i in Holes(drop, p);
      var it :| it in drop && it.partner == p && it.idx == i;
      assert it.partner in Partners(drop);
    }
  }

  /** One call of `evictIfNeeded`; before the follow set is known it does nothing. */
  function Settled(c: Cache, follows: Option<set<string>>, cap: int): Cache {
    if follows.Some? && Over(c.threads, follows.value, cap) then Evicted(c, follows.value, cap) else c
  }

  // ── What is dropped ──

  lemma DoomedAre(threads: Threads, follows: set<string>, cap: int, it: Item)
    requires Over(threads, follows, cap) && it in Doomed(threads, follows, cap)
    ensures IsItem(threads, threads.keys, follows, it)
  {
    var items := Evictable(threads, follows);
    assert it in StableSort(items, ItemTime);
    SortMembers(items, ItemTime, it);
    ItemsAre(threads, threads.keys, follows, it);
  }

  /** Followed partners are never touched. */
  lemma FollowedUntouched(c: Cache, follows: set<string>, cap: int, p: string)
    requires Over(c.threads, follows, cap) && p in follows && Agrees(c)
    ensures ThreadOf(Evicted(c, follows, cap).threads, p) == ThreadOf(c.threads, p)
    ensures p in Evicted(c, follows, cap).threads.at <==> p in c.threads.at
  {
    hide Doomed, Summary, StableSort, Agrees;
    var drop := Doomed(c.threads, follows, cap);
    forall it | it in drop ensures it.partner != p { DoomedAre(c.threads, follows, cap, it); }
    assert Holes(drop, p) == {};
    NoHolesKeep(ThreadOf(c.threads, p));
  }

  lemma NoHolesKeep(msgs: seq<Message>)
    ensures Keep(msgs, {}) == msgs
  {
    NoHolesIdx(|msgs|);
  }

  lemma {:induction false} NoHolesIdx(n: nat)
    ensures |KeptIdx({}, n)| == n && forall i :: 0 <= i < n ==> KeptIdx({}, n)[i] == i
  {
    if n > 0 { NoHolesIdx(n - 1); }
  }

  /** Nothing dropped is newer than an evictable message that is kept. */
  lemma NoneNewerDropped(threads: Threads, follows: set<string>, cap: int, gone: Item, stays: Item)
    requires Over(threads, follows, cap) && gone in Doomed(threads, follows, cap)
    requires IsItem(threads, threads.keys, follows, stays) && stays !in Doomed(threads, follows, cap)
    ensures gone.ts <= stays.ts
  {
    hide StableSort, Items, IsItem, SortedBy;
    var items := Evictable(threads, follows);
    SortSorts(items, ItemTime);
    ItemsAre(threads, threads.keys, follows, stays);
    SortMembers(items, ItemTime, stays);
    PrefixIsOldest(StableSort(items, ItemTime), if cap < 0 then |items| else |items| - cap, gone, stays);
  }

  lemma PrefixIsOldest(sorted: seq<Item>, k: nat, a: Item, b: Item)
    requires SortedBy(sorted, ItemTime) && k <= |sorted| && a in sorted[..k] && b in sorted && b !in sorted[..k]
    ensures ItemTime(a) <= ItemTime(b)
  {
    var prefix := sorted[..k];
    var i :| 0 <= i < |prefix| && prefix[i] == a;
    var j :| 0 <= j < |sorted| && sorted[j] == b;
    assert forall x :: 0 <= x < k ==> prefix[x] == sorted[x];
  }

  // ── How many are left ──

  function Count(threads: Threads, keys: seq<string>, follows: set<string>): nat {
    if keys == [] then 0
    else
      var p := keys[|keys| - 1];
      Count(threads, keys[..|keys| - 1], follows) + (if p in follows then 0 else |ThreadOf(threads, p)|)
  }

  lemma {:induction false} ItemsCount(threads: Threads, keys: seq<string>, follows: set<string>)
    ensures |Items(threads, keys, follows)| == Count(threads, keys, follows)
  {
    if keys != [] { ItemsCount(threads, keys[..|keys| - 1], follows); }
  }

  function HoleCount(drop: seq<Item>, keys: seq<string>): nat {
    if keys == [] then 0 else HoleCount(drop, keys[..|keys| - 1]) + |Holes(drop, keys[|keys| - 1])|
  }

  lemma {:induction false} KeptLength(holes: set<nat>, n: nat)
    requires forall i :: i in holes ==> i < n
    ensures |KeptIdx(holes, n)| == n - |holes|
  {
    hide KeptIdx;
    KeptStep(holes, n);
    if n > 0 {
      var below := holes - {n - 1};
      KeptLength(below, n - 1);
      SameBelow(holes, below, n - 1);
      if n - 1 in holes {
        assert |holes| == |below| + 1 by { assert holes == below + {n - 1}; }
      } else {
        assert below == holes;
      }
    } else {
      assert holes == {};
    }
  }

  lemma KeptStep(holes: set<nat>, n: nat)
    ensures n == 0 ==> KeptIdx(holes, n) == []
    ensures n > 0 ==> |KeptIdx(holes, n)| == |KeptIdx(holes, n - 1)| + (if n - 1 in holes then 0 else 1)
  {}

  lemma {:induction false} SameBelow(a: set<nat>, b: set<nat>, n: nat)
    requires forall i: nat :: i < n ==> (i in a <==> i in b)
    ensures KeptIdx(a, n) == KeptIdx(b, n)
  {
    if n > 0 { SameBelow(a, b, n - 1); }
  }

  function PartnerItems(drop: seq<Item>, keys: seq<string>): set<Item> {
    set it | it in drop && it.partner in keys
  }

  /** Each partner's item is told by its place: a partner has as many holes as dropped items. */
  lemma HolesAreItems(drop: seq<Item>, p: string)
    requires forall a, b :: a in drop && b in drop && a.partner == b.partner && a.idx == b.idx ==> a == b
    ensures |Holes(drop, p)| == |set it | it in drop && it.partner == p|
  {
    var items := set it | it in drop && it.partner == p;
    ImageSize(items, Holes(drop, p));
  }

  lemma {:induction false} ImageSize(items: set<Item>, places: set<nat>)
    requires places == set it | it in items :: it.idx
    requires forall a, b :: a in items && b in items && a.idx == b.idx ==> a == b
    ensures |places| == |items|
    decreases |items|
  {
    if items != {} {
      var it :| it in items;
      var rest := items - {it};
      assert places - {it.idx} == set x | x in rest :: x.idx;
      ImageSize(rest, places - {it.idx});
      assert it.idx in places;
    } else {
      assert places == {};
    }
  }

  lemma {:induction false} HoleCountIs(drop: seq<Item>, keys: seq<string>)
    requires NoDup(keys)
    requires forall a, b :: a in drop && b in drop && a.partner == b.partner && a.idx == b.idx ==> a == b
    ensures HoleCount(drop, keys) == |PartnerItems(drop, keys)|
  {
    if keys != [] {
      var front, p := keys[..|keys| - 1], keys[|keys| - 1];
      assert keys == front + [p];
      HoleCountIs(drop, front);
      HolesAreItems(drop, p);
      var own := set it | it in drop && it.partner == p;
      assert PartnerItems(drop, keys) == PartnerItems(drop, front) + own;
      assert PartnerItems(drop, front) !! own;
    } else {
      assert PartnerItems(drop, keys) == {};
    }
  }

  lemma {:induction false} PrunedCount(threads: Threads, drop: seq<Item>, keys: seq<string>, follows: set<string>)
    requires forall it :: it in drop ==> it.partner !in follows && it.idx < |ThreadOf(threads, it.partner)|
    requires forall p :: p in keys ==> p in threads.at
    ensures Count(Pruned(threads, drop), keys, follows) == Count(threads, keys, follows) - HoleCount(drop, keys)
  {
    if keys != [] {
      var front, p := keys[..|keys| - 1], keys[|keys| - 1];
      assert keys == front + [p];
      PrunedCount(threads, drop, front, follows);
      PrunedThread(threads, drop, p);
      KeptLength(Holes(drop, p), |ThreadOf(threads, p)|);
      if p in follows { assert Holes(drop, p) == {}; }
    }
  }

  lemma PrunedThread(threads: Threads, drop: seq<Item>, p: string)
    requires p in threads.at
    ensures ThreadOf(Pruned(threads, drop), p) == Kept(threads, drop, p)
  {}

  lemma {:induction false} StayingCount(threads: Threads, drop: seq<Item>, keys: seq<string>, follows: set<string>)
    requires forall p :: p in keys ==> p in threads.at
    ensures Count(Pruned(threads, drop), StayingKeys(threads, drop, keys), follows) == Count(Pruned(threads, drop), keys, follows)
  {
    hide Pruned, Stays, Count, StayingKeys;
    if keys != [] {
      var front, p := keys[..|keys| - 1], keys[|keys| - 1];
      assert keys == front + [p];
      assert forall q :: q in front ==> q in keys;
      StayingCount(threads, drop, front, follows);
      LeavesNothing(threads, drop, p);
      StayingLast(threads, drop, front, p);
      CountLast(Pruned(threads, drop), front, p, follows);
      CountLast(Pruned(threads, drop), StayingKeys(threads, drop, front), p, follows);
    } else {
      NothingStays(threads, drop, keys);
    }
  }

  lemma NothingStays(threads: Threads, drop: seq<Item>, keys: seq<string>)
    requires keys == []
    ensures StayingKeys(threads, drop, keys) == keys
  {}

  lemma StayingLast(threads: Threads, drop: seq<Item>, keys: seq<string>, p: string)
    ensures StayingKeys(threads, drop, keys + [p]) ==
            if Stays(threads, drop, p) then StayingKeys(threads, drop, keys) + [p] else StayingKeys(threads, drop, keys)
  {
    hide Stays;
    assert (keys + [p])[..|keys|] == keys;
  }

  lemma CountLast(threads: Threads, keys: seq<string>, p: string, follows: set<string>)
    ensures Count(threads, keys + [p], follows) == Count(threads, keys, follows) + (if p in follows then 0 else |ThreadOf(threads, p)|)
  {
    assert (keys + [p])[..|keys|] == keys;
  }

  lemma LeavesNothing(threads: Threads, drop: seq<Item>, p: string)
    ensures !Stays(threads, drop, p) ==> ThreadOf(Pruned(threads, drop), p) == []
  {}

  lemma DoomedDistinct(threads: Threads, follows: set<string>, cap: int)
    requires Over(threads, follows, cap) && threads.Valid()
    ensures var drop := Doomed(threads, follows, cap);
            && NoDup(drop) && |drop| == |Evictable(threads, follows)| - (if cap < 0 then 0 else cap)
  {
    var items := Evictable(threads, follows);
    ItemsDistinct(threads, threads.keys, follows);
    SortSorts(items, ItemTime);
    var sorted := StableSort(items, ItemTime);
    SameBag(items, sorted);
  }

  lemma SameBag<T(!new)>(a: seq<T>, b: seq<T>)
    requires NoDup(a) && multiset(a) == multiset(b)
    ensures NoDup(b)
  {
    forall i, j | 0 <= i < j < |b| ensures b[i] != b[j] {
      if b[i] == b[j] {
        TwoIn(b, i, j);
        NoDupOnce(a, b[i]);
        assert false;
      }
    }
  }

  lemma TwoIn<T>(b: seq<T>, i: nat, j: nat)
    requires i < j < |b| && b[i] == b[j]
    ensures multiset(b)[b[i]] >= 2
  {
    assert b == b[..j] + b[j..];
    assert b[i] in b[..j] && b[j] in b[j..];
    assert multiset(b) == multiset(b[..j]) + multiset(b[j..]);
  }

  lemma {:induction false} NoDupOnce<T>(a: seq<T>, x: T)
    requires NoDup(a)
    ensures multiset(a)[x] <= 1
  {
    if a != [] {
      var front, last := a[..|a| - 1], a[|a| - 1];
      assert a == front + [last];
      NoDupOnce(front, x);
      if x == last { assert x !in front; }
    }
  }

  /** Exactly `cap` evictable messages are left. */
  lemma ExactlyCapLeft(c: Cache, follows: set<string>, cap: nat)
    requires Over(c.threads, follows, cap) && c.threads.Valid()
    ensures |Evictable(Evicted(c, follows, cap).threads, follows)| == cap
  {
    hide Doomed, Summary, StableSort, Pruned, Table.Valid, NoDup;
    var threads, drop := c.threads, Doomed(c.threads, follows, cap);
    forall it | it in drop ensures IsItem(threads, threads.keys, follows, it) { DoomedAre(threads, follows, cap, it); }
    DoomedDistinct(threads, follows, cap);
    ItemsCount(threads, threads.keys, follows);
    var pruned := Pruned(threads, drop);
    PrunedKeys(threads, drop);
    ItemsCount(pruned, pruned.keys, follows);
    KeysAt(threads);
    StayingCount(threads, drop, threads.keys, follows);
    PrunedCount(threads, drop, threads.keys, follows);
    HoleCountIs(drop, threads.keys);
    NoDupCardinality(drop);
    assert PartnerItems(drop, threads.keys) == set it | it in drop;
  }

  lemma KeysAt(threads: Threads)
    requires threads.Valid()
    ensures NoDup(threads.keys) && forall p :: p in threads.keys <==> p in threads.at
  {}

  lemma PrunedKeys(threads: Threads, drop: seq<Item>)
    ensures Pruned(threads, drop).keys == StayingKeys(threads, drop, threads.keys)
  {}

  // ── The structures still agree ──

  /** A kept thread's messages are the old ones at the kept places, in order. */
  lemma KeepPlaces(msgs: seq<Message>, holes: set<nat>)
    ensures var idx, r := KeptIdx(holes, |msgs|), Keep(msgs, holes);
            |r| == |idx| && forall k :: 0 <= k < |r| ==> idx[k] < |msgs| && r[k] == msgs[idx[k]]
  {
    var idx := KeptIdx(holes, |msgs|);
    assert forall k :: 0 <= k < |idx| ==> idx[k] in idx;
  }

  lemma KeepSorted(msgs: seq<Message>, holes: set<nat>)
    requires SortedBy(msgs, Time)
    ensures SortedBy(Keep(msgs, holes), Time)
  {
    hide Keep, KeptIdx;
    KeepPlaces(msgs, holes);
    var idx := KeptIdx(holes, |msgs|);
    var r := Keep(msgs, holes);
    forall i, j | 0 <= i < j < |r| ensures Time(r[i]) <= Time(r[j]) {
      assert idx[i] < idx[j];
    }
  }

  lemma PrunedGood(threads: Threads, drop: seq<Item>)
    requires GoodThreads(threads)
    ensures GoodThreads(Pruned(threads, drop))
  {
    hide Keep, KeptIdx, NoDup, SortedBy;
    var pruned := Pruned(threads, drop);
    forall p | p in pruned.at ensures pruned.at[p] != [] && SortedBy(pruned.at[p], Time) {
      KeepSorted(threads.at[p], Holes(drop, p));
      NoHolesKeep(threads.at[p]);
    }
  }

  lemma PrunedPlace(threads: Threads, drop: seq<Item>, p: string, k: nat)
    requires p in Pruned(threads, drop).at && k < |Pruned(threads, drop).at[p]|
    ensures p in threads.at
    ensures var idx := KeptIdx(Holes(drop, p), |threads.at[p]|);
            k < |idx| && idx[k] < |threads.at[p]| && idx[k] !in Holes(drop, p)
            && Pruned(threads, drop).at[p][k] == threads.at[p][idx[k]]
  {
    hide Keep, KeptIdx;
    KeepPlaces(threads.at[p], Holes(drop, p));
    var idx := KeptIdx(Holes(drop, p), |threads.at[p]|);
    assert idx[k] in idx;
  }

  lemma IncreasingApart(idx: seq<nat>, i: nat, j: nat)
    requires forall a, b :: 0 <= a < b < |idx| ==> idx[a] < idx[b]
    requires i < |idx| && j < |idx| && idx[i] == idx[j]
    ensures i == j
  {}

  lemma PrunedDistinct(threads: Threads, drop: seq<Item>)
    requires DistinctIds(threads)
    ensures DistinctIds(Pruned(threads, drop))
  {
    hide Pruned, KeptIdx;
    var pruned := Pruned(threads, drop);
    forall p, i, q, j | p in pruned.at && q in pruned.at && 0 <= i < |pruned.at[p]| && 0 <= j < |pruned.at[q]|
      && pruned.at[p][i].id == pruned.at[q][j].id ensures p == q && i == j {
      PrunedPlace(threads, drop, p, i);
      PrunedPlace(threads, drop, q, j);
      var a, b := KeptIdx(Holes(drop, p), |threads.at[p]|), KeptIdx(Holes(drop, q), |threads.at[q]|);
      assert p == q && a[i] == b[j];
      IncreasingApart(a, i, j);
    }
  }

  /** With distinct ids, an id is dropped exactly when its own place is. */
  lemma DroppedPlace(threads: Threads, drop: seq<Item>, p: string, i: nat)
    requires DistinctIds(threads) && forall it :: it in drop ==> it.partner in threads.at && it.idx < |ThreadOf(threads, it.partner)|
    requires p in threads.at && i < |threads.at[p]|
    ensures threads.at[p][i].id in DroppedIds(threads, drop) <==> i in Holes(drop, p)
  {
    var id := threads.at[p][i].id;
    if id in DroppedIds(threads, drop) {
      var it :| it in drop && it.idx < |ThreadOf(threads, it.partner)| && ThreadOf(threads, it.partner)[it.idx].id == id;
      assert it.partner == p && it.idx == i;
    }
    if i in Holes(drop, p) {
      var it :| it in drop && it.partner == p && it.idx == i;
      assert ThreadOf(threads, it.partner)[it.idx].id == id;
    }
  }

  /** An id is still there exactly when it was and its message was not dropped. */
  lemma PrunedIds(threads: Threads, drop: seq<Item>, id: string)
    requires DistinctIds(threads) && forall it :: it in drop ==> it.partner in threads.at && it.idx < |ThreadOf(threads, it.partner)|
    ensures HasId(Pruned(threads, drop), id) <==> HasId(threads, id) && id !in DroppedIds(threads, drop)
  {
    hide Pruned, KeptIdx, Stays, Kept, DroppedIds, Holes;
    var pruned := Pruned(threads, drop);
    if HasId(pruned, id) {
      var p, k :| p in pruned.at && 0 <= k < |pruned.at[p]| && pruned.at[p][k].id == id;
      PrunedPlace(threads, drop, p, k);
      var i := KeptIdx(Holes(drop, p), |threads.at[p]|)[k];
      assert threads.at[p][i].id == id;
      DroppedPlace(threads, drop, p, i);
    }
    if HasId(threads, id) && id !in DroppedIds(threads, drop) {
      var p, i :| p in threads.at && 0 <= i < |threads.at[p]| && threads.at[p][i].id == id;
      DroppedPlace(threads, drop, p, i);
      KeptPlace(threads, drop, p, i);
    }
  }

  lemma KeptPlace(threads: Threads, drop: seq<Item>, p: string, i: nat)
    requires p in threads.at && i < |threads.at[p]| && i !in Holes(drop, p)
    ensures HasId(Pruned(threads, drop), threads.at[p][i].id)
  {
    hide Keep, KeptIdx;
    KeepPlaces(threads.at[p], Holes(drop, p));
    var idx := KeptIdx(Holes(drop, p), |threads.at[p]|);
    var k :| 0 <= k < |idx| && idx[k] == i;
    var pruned := Pruned(threads, drop);
    assert pruned.at[p][k] == threads.at[p][i];
  }

  lemma EvictedPublished(c: Cache, follows: set<string>, cap: int)
    requires Agrees(c) && Over(c.threads, follows, cap)
    ensures Published(Evicted(c, follows, cap))
  {
    hide Doomed, Summary, StableSort, DistinctIds, SeenExact, KeptIdx, Keep, Over, Table.Valid, SortedBy;
    var drop := Doomed(c.threads, follows, cap);
    var c' := Evicted(c, follows, cap);
    forall p | p in c.threads.at && p !in Partners(drop) ensures Kept(c.threads, drop, p) == c.threads.at[p] {
      PartnersHaveHoles(drop, p);
      NoHolesKeep(c.threads.at[p]);
    }
    forall p | p in c'.published && p !in c'.threads.at ensures c'.published[p] == [] {
      PartnersHaveHoles(drop, p);
      if p !in c.threads.at { KeepNothing(Holes(drop, p)); }
    }
  }

  lemma KeepNothing(holes: set<nat>)
    ensures Keep([], holes) == []
  {}

  /** Eviction keeps the structures in agreement, whatever the cap. */
  lemma EvictAgrees(c: Cache, follows: set<string>, cap: int)
    requires Agrees(c) && Over(c.threads, follows, cap)
    ensures Agrees(Evicted(c, follows, cap))
  {
    hide Doomed, Summary, StableSort, DistinctIds, Published, GoodThreads, Over, Pruned, DroppedIds, HasId;
    var threads, drop := c.threads, Doomed(c.threads, follows, cap);
    forall it | it in drop ensures it.partner in threads.at && it.idx < |ThreadOf(threads, it.partner)| {
      DoomedPlace(c, follows, cap, it);
    }
    PrunedGood(threads, drop);
    PrunedDistinct(threads, drop);
    forall id ensures id in Evicted(c, follows, cap).seen <==> HasId(Pruned(threads, drop), id) {
      PrunedIds(threads, drop, id);
    }
    EvictedPublished(c, follows, cap);
  }

  lemma DoomedPlace(c: Cache, follows: set<string>, cap: int, it: Item)
    requires Agrees(c) && Over(c.threads, follows, cap) && it in Doomed(c.threads, follows, cap)
    ensures it.partner in c.threads.at && it.partner !in follows && it.idx < |ThreadOf(c.threads, it.partner)|
    ensures it.ts == ThreadOf(c.threads, it.partner)[it.idx].createdAt
  {
    hide Doomed, Summary, Evictable, DistinctIds, SeenExact, Published, Over;
    DoomedAre(c.threads, follows, cap, it);
  }

  /** In terms of the messages: a dropped one is no newer than a kept one of a partner that is not followed. */
  lemma KeptAreNewest(c: Cache, follows: set<string>, cap: int, p: string, i: nat, q: string, j: nat)
    requires Agrees(c) && Over(c.threads, follows, cap)
    requires var drop := Doomed(c.threads, follows, cap);
             i in Holes(drop, p) && q in c.threads.at && q !in follows && j < |c.threads.at[q]| && j !in Holes(drop, q)
    ensures p in c.threads.at && p !in follows && i < |c.threads.at[p]| && c.threads.at[p][i].createdAt <= c.threads.at[q][j].createdAt
  {
    hide Doomed, Summary, Evictable, DistinctIds, SeenExact, Published, Over, SortedBy;
    var drop := Doomed(c.threads, follows, cap);
    var gone :| gone in drop && gone.partner == p && gone.idx == i;
    DoomedPlace(c, follows, cap, gone);
    var stays := Item(q, j, c.threads.at[q][j].createdAt);
    NoneNewerDropped(c.threads, follows, cap, gone, stays);
  }

  // ── Re-entry ──

  lemma SettledAgrees(c: Cache, follows: Option<set<string>>, cap: int)
    requires Agrees(c)
    ensures Agrees(Settled(c, follows, cap))
  {
    hide Agrees, Evicted, Over;
    if follows.Some? && Over(c.threads, follows.value, cap) { EvictAgrees(c, follows.value, cap); }
  }

  /** With a cap of zero or more, eviction is done after one round. */
  lemma EvictionSettles(c: Cache, follows: set<string>, cap: nat)
    requires Agrees(c) && Over(c.threads, follows, cap)
    ensures !Over(Evicted(c, follows, cap).threads, follows, cap)
  {
    hide Summary, Evicted, Evictable;
    ExactlyCapLeft(c, follows, cap);
  }

  /** The cache after `n` rounds of the subscriber calling eviction, each round announcing and so calling it again. */
  function Rounds(c: Cache, follows: set<string>, cap: int, n: nat): Cache {
    if n == 0 then c else Settled(Rounds(c, follows, cap, n - 1), Some(follows), cap)
  }

  /** Some round finds nothing to evict, and so announces nothing. */
  ghost predicate ReentryEnds(c: Cache, follows: set<string>, cap: int) {
    exists n :: !Over(Rounds(c, follows, cap, n).threads, follows, cap)
  }

  /** Eviction's re-entry through the conversation subscriber ends if and only if the cap is not negative. */
  lemma ReentryEndsExactly(c: Cache, follows: set<string>, cap: int)
    requires Agrees(c)
    ensures ReentryEnds(c, follows, cap) <==> cap >= 0
  {
    hide Agrees, Evicted, Evictable, Rounds;
    RoundsStart(c, follows, cap);
    if cap >= 0 {
      if Over(c.threads, follows, cap) {
        EvictionSettles(c, follows, cap);
        assert !Over(Rounds(c, follows, cap, 1).threads, follows, cap);
      } else {
        assert !Over(Rounds(c, follows, cap, 0).threads, follows, cap);
      }
    }
  }

  lemma RoundsStart(c: Cache, follows: set<string>, cap: int)
    ensures Rounds(c, follows, cap, 0) == c
    ensures Rounds(c, follows, cap, 1) == Settled(c, Some(follows), cap)
  {
    hide Settled;
    assert Rounds(c, follows, cap, 1) == Settled(Rounds(c, follows, cap, 0), Some(follows), cap);
  }
}
