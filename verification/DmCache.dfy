/**
 * The direct-message cache as a value: threads, seen ids, the inbox summary, and what was published,
 * with ingestion, hydration and eviction as functions of it.
 */
module DmCache {
  import opened Common
  import opened JsMap

  datatype Message = Message(id: string, partner: string, createdAt: int, content: string)

  datatype Conversation = Conversation(partner: string, lastMessageAt: int, preview: string, messageCount: nat)

  /** `published` is what the per-partner observable last announced. */
  datatype Cache = Cache(threads: Table<seq<Message>>, seen: set<string>, conversations: seq<Conversation>, published: map<string, seq<Message>>)

  // ── Stable sorting ──

  /** After every element whose key is not larger. */
  function InsertBy<T>(s: seq<T>, x: T, key: T -> int): seq<T> {
    if s == [] || key(s[|s| - 1]) <= key(x) then s + [x] else InsertBy(s[..|s| - 1], x, key) + [s[|s| - 1]]
  }

  function StableSort<T>(s: seq<T>, key: T -> int): seq<T> {
    if s == [] then [] else InsertBy(StableSort(s[..|s| - 1], key), s[|s| - 1], key)
  }

  ghost predicate SortedBy<T>(s: seq<T>, key: T -> int) {
    forall i, j :: 0 <= i < j < |s| ==> key(s[i]) <= key(s[j])
  }

  lemma {:induction false} InsertKeeps<T>(s: seq<T>, x: T, key: T -> int)
    ensures multiset(InsertBy(s, x, key)) == multiset(s) + multiset{x} && |InsertBy(s, x, key)| == |s| + 1
    ensures forall i :: 0 <= i < |InsertBy(s, x, key)| ==> InsertBy(s, x, key)[i] == x || InsertBy(s, x, key)[i] in s
  {
    if s != [] && key(s[|s| - 1]) > key(x) {
      var front, last := s[..|s| - 1], s[|s| - 1];
      assert s == front + [last];
      InsertKeeps(front, x, key);
    }
  }

  lemma {:induction false} InsertSorted<T>(s: seq<T>, x: T, key: T -> int)
    requires SortedBy(s, key)
    ensures SortedBy(InsertBy(s, x, key), key)
  {
    if s != [] && key(s[|s| - 1]) > key(x) {
      var front, last := s[..|s| - 1], s[|s| - 1];
      InsertSorted(front, x, key);
      InsertKeeps(front, x, key);
      var r := InsertBy(front, x, key);
      forall i | 0 <= i < |r| ensures key(r[i]) <= key(last) {
        if r[i] != x {
          var k :| 0 <= k < |front| && front[k] == r[i];
          assert s[k] == r[i];
        }
      }
    }
  }

  /** Sorting orders by the key and keeps every element. */
  lemma {:induction false} SortSorts<T>(s: seq<T>, key: T -> int)
    ensures SortedBy(StableSort(s, key), key) && multiset(StableSort(s, key)) == multiset(s) && |StableSort(s, key)| == |s|
  {
    if s != [] {
      assert s == s[..|s| - 1] + [s[|s| - 1]];
      SortSorts(s[..|s| - 1], key);
      InsertSorted(StableSort(s[..|s| - 1], key), s[|s| - 1], key);
      InsertKeeps(StableSort(s[..|s| - 1], key), s[|s| - 1], key);
    }
  }

  lemma {:induction false} SortOfSorted<T>(s: seq<T>, key: T -> int)
    requires SortedBy(s, key)
    ensures StableSort(s, key) == s
  {
    if s != [] {
      SortOfSorted(s[..|s| - 1], key);
      assert s == s[..|s| - 1] + [s[|s| - 1]];
    }
  }

  lemma SortMembers<T>(s: seq<T>, key: T -> int, x: T)
    ensures x in StableSort(s, key) <==> x in s
  {
    SortSorts(s, key);
    assert x in StableSort(s, key) <==> x in multiset(StableSort(s, key));
    assert x in s <==> x in multiset(s);
  }

  function Time(m: Message): int { m.createdAt }

  function Newness(c: Conversation): int { -c.lastMessageAt }

  // ── The inbox summary ──

  predicate Space(c: char) {
    c == ' ' || '\t' <= c <= '\r' || c == '\U{00A0}' || c == '\U{1680}' || '\U{2000}' <= c <= '\U{200A}'
    || c == '\U{2028}' || c == '\U{2029}' || c == '\U{202F}' || c == '\U{205F}' || c == '\U{3000}' || c == '\U{FEFF}'
  }

  /** White space collapsed to single blanks. */
  function Flat(s: string): string {
    if s == "" then ""
    else
      var front, c := Flat(s[..|s| - 1]), s[|s| - 1];
      if !Space(c) then front + [c]
      else if front != "" && front[|front| - 1] == ' ' then front
      else front + [' ']
  }

  function Trimmed(s: string): string {
    var a := if s != "" && s[0] == ' ' then s[1..] else s;
    if a != "" && a[|a| - 1] == ' ' then a[..|a| - 1] else a
  }

  function Preview(content: string): (p: string)
    ensures |p| <= 80
  {
    var flat := Trimmed(Flat(content));
    if |flat| <= 80 then flat else flat[..79] + ['\U{2026}']
  }

  function ThreadOf(threads: Table<seq<Message>>, p: string): seq<Message> {
    if p in threads.at then threads.at[p] else []
  }

  function Listed(threads: Table<seq<Message>>, keys: seq<string>): seq<Conversation> {
    if keys == [] then []
    else
      var p := keys[|keys| - 1];
      var msgs := ThreadOf(threads, p);
      Listed(threads, keys[..|keys| - 1])
      + (if msgs == [] then [] else [Conversation(p, msgs[|msgs| - 1].createdAt, Preview(msgs[|msgs| - 1].content), |msgs|)])
  }

  /** One entry per thread, newest first; threads of one age in the order they were opened. */
  function Summary(threads: Table<seq<Message>>): seq<Conversation> {
    StableSort(Listed(threads, threads.keys), Newness)
  }

  // ── What always holds ──

  ghost predicate HasId(threads: Table<seq<Message>>, id: string) {
    exists p, i :: p in threads.at && 0 <= i < |threads.at[p]| && threads.at[p][i].id == id
  }

  ghost predicate DistinctIds(threads: Table<seq<Message>>) {
    forall p, i, q, j :: p in threads.at && q in threads.at && 0 <= i < |threads.at[p]| && 0 <= j < |threads.at[q]| ==>
      threads.at[p][i].id == threads.at[q][j].id ==> p == q && i == j
  }

  ghost predicate GoodThreads(threads: Table<seq<Message>>) {
    threads.Valid() && forall p :: p in threads.at ==> threads.at[p] != [] && SortedBy(threads.at[p], Time)
  }

  ghost predicate Published(c: Cache) {
    && (forall p :: p in c.threads.at ==> p in c.published && c.published[p] == c.threads.at[p])
    && (forall p :: p in c.published && p !in c.threads.at ==> c.published[p] == [])
  }

  ghost predicate SeenExact(c: Cache) {
    forall id :: id in c.seen <==> HasId(c.threads, id)
  }

  /** Threads non-empty and sorted, ids distinct and exactly the seen ones, the inbox the threads' summary. */
  ghost predicate Agrees(c: Cache) {
    GoodThreads(c.threads) && DistinctIds(c.threads) && SeenExact(c) && c.conversations == Summary(c.threads) && Published(c)
  }

  const EMPTY_CACHE := Cache(Empty(), {}, [], map[])

  lemma EmptyAgrees()
    ensures Agrees(EMPTY_CACHE)
  {
    assert Listed(Empty(), []) == [];
  }

  // ── Ingesting ──

  function Ingested(c: Cache, m: Message): Cache {
    if m.id in c.seen then c
    else
      var inserted := StableSort(ThreadOf(c.threads, m.partner) + [m], Time);
      var threads := c.threads.Put(m.partner, inserted);
      Cache(threads, c.seen + {m.id}, Summary(threads), c.published[m.partner := inserted])
  }

  /** The thread a new message joins: the message in its place, the others in theirs. */
  lemma IngestedThread(c: Cache, m: Message)
    requires Agrees(c) && m.id !in c.seen
    ensures var t := ThreadOf(Ingested(c, m).threads, m.partner);
            && t == InsertBy(ThreadOf(c.threads, m.partner), m, Time) && SortedBy(t, Time) && t != []
            && multiset(t) == multiset(ThreadOf(c.threads, m.partner)) + multiset{m}
  {
    var old_ := ThreadOf(c.threads, m.partner);
    assert (old_ + [m])[..|old_|] == old_;
    SortOfSorted(old_, Time);
    InsertSorted(old_, m, Time);
    InsertKeeps(old_, m, Time);
  }

  lemma {:induction false} InsertSplits(s: seq<Message>, x: Message)
    ensures exists k :: 0 <= k <= |s| && InsertBy(s, x, Time) == s[..k] + [x] + s[k..]
  {
    if s == [] || Time(s[|s| - 1]) <= Time(x) {
      assert s[..|s|] == s;
      assert InsertBy(s, x, Time) == s[..|s|] + [x] + s[|s|..];
    } else {
      var front := s[..|s| - 1];
      InsertSplits(front, x);
      var k :| 0 <= k <= |front| && InsertBy(front, x, Time) == front[..k] + [x] + front[k..];
      assert front[..k] == s[..k] && s[k..] == front[k..] + [s[|s| - 1]];
      assert InsertBy(s, x, Time) == s[..k] + [x] + s[k..];
    }
  }

  ghost predicate InThread(msgs: seq<Message>, id: string) {
    exists i :: 0 <= i < |msgs| && msgs[i].id == id
  }

  lemma HasIdInThread(threads: Table<seq<Message>>, id: string)
    ensures HasId(threads, id) <==> exists p :: p in threads.at && InThread(threads.at[p], id)
  {
    if HasId(threads, id) {
      var p, i :| p in threads.at && 0 <= i < |threads.at[p]| && threads.at[p][i].id == id;
      assert InThread(threads.at[p], id);
    }
  }

  lemma SplitIds(s: seq<Message>, x: Message, k: nat, id: string)
    requires k <= |s|
    ensures InThread(s[..k] + [x] + s[k..], id) <==> InThread(s, id) || id == x.id
  {
    var r := s[..k] + [x] + s[k..];
    if InThread(s, id) {
      var i :| 0 <= i < |s| && s[i].id == id;
      assert r[if i < k then i else i + 1].id == id;
    }
    assert r[k] == x;
    if InThread(r, id) {
      var i :| 0 <= i < |r| && r[i].id == id;
      if i != k { assert s[if i < k then i else i - 1].id == id; }
    }
  }

  lemma IngestSeen(c: Cache, m: Message)
    requires Agrees(c) && m.id !in c.seen
    ensures SeenExact(Ingested(c, m))
  {
    hide Summary, GoodThreads, DistinctIds, Published, StableSort, HasId, InThread;
    var c' := Ingested(c, m);
    IngestedThread(c, m);
    var s := ThreadOf(c.threads, m.partner);
    InsertSplits(s, m);
    var k :| 0 <= k <= |s| && InsertBy(s, m, Time) == s[..k] + [m] + s[k..];
    NoIds();
    forall id ensures id in c'.seen <==> HasId(c'.threads, id) {
      SplitIds(s, m, k, id);
      HasIdInThread(c.threads, id);
      HasIdInThread(c'.threads, id);
      assert m.partner in c'.threads.at;
      if exists p :: p in c.threads.at && InThread(c.threads.at[p], id) {
        var p :| p in c.threads.at && InThread(c.threads.at[p], id);
        assert p in c'.threads.at && InThread(c'.threads.at[p], id);
      }
    }
  }

  lemma NoIds()
    ensures forall id :: !InThread([], id)
  {}

  lemma IngestDistinct(c: Cache, m: Message)
    requires Agrees(c) && m.id !in c.seen
    ensures DistinctIds(Ingested(c, m).threads)
  {
    hide Summary, GoodThreads, Published, StableSort;
    var c' := Ingested(c, m);
    IngestedThread(c, m);
    var s := ThreadOf(c.threads, m.partner);
    InsertSplits(s, m);
    var k :| 0 <= k <= |s| && InsertBy(s, m, Time) == s[..k] + [m] + s[k..];
    forall p, i, q, j | p in c'.threads.at && q in c'.threads.at && 0 <= i < |c'.threads.at[p]| && 0 <= j < |c'.threads.at[q]|
      && c'.threads.at[p][i].id == c'.threads.at[q][j].id ensures p == q && i == j {
      OldPlace(c, m, k, p, i);
      OldPlace(c, m, k, q, j);
    }
  }

  /** Where a message of the new threads stood before. */
  lemma OldPlace(c: Cache, m: Message, k: nat, p: string, i: nat)
    requires Agrees(c) && m.id !in c.seen && k <= |ThreadOf(c.threads, m.partner)|
    requires var s := ThreadOf(c.threads, m.partner); ThreadOf(Ingested(c, m).threads, m.partner) == s[..k] + [m] + s[k..]
    requires p in Ingested(c, m).threads.at && i < |Ingested(c, m).threads.at[p]|
    ensures var x := Ingested(c, m).threads.at[p][i];
            if p == m.partner && i == k then x == m
            else
              var old_ := if p == m.partner && i > k then i - 1 else i;
              p in c.threads.at && old_ < |c.threads.at[p]| && c.threads.at[p][old_] == x && x.id in c.seen && x.id != m.id
  {
    hide Summary, GoodThreads, DistinctIds, Published, StableSort;
  }

  /** Ingesting keeps the structures in agreement. */
  lemma IngestAgrees(c: Cache, m: Message)
    requires Agrees(c)
    ensures Agrees(Ingested(c, m))
  {
    hide Summary, DistinctIds, SeenExact, StableSort, NoDup;
    if m.id !in c.seen {
      IngestedThread(c, m);
      IngestSeen(c, m);
      IngestDistinct(c, m);
    }
  }
}
