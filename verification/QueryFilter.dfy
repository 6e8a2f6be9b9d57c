/** NIP-01 filters, and which of them may be merged with which. */
module QueryFilter {
  import opened Common
  import opened Text

  /** An absent field is `None`; `others` holds the tag filters and any further key. */
  datatype Filter = Filter(ids: Option<seq<string>>, kinds: Option<seq<int>>, authors: Option<seq<string>>,
                           since: Option<int>, until: Option<int>, limit: Option<int>, others: map<string, seq<string>>)

  datatype Event = Event(id: string, kind: int, pubkey: string, createdAt: int, tags: seq<seq<string>>)

  /** A present zero counts as absent, as it does in the source. */
  function Truthy(n: Option<int>): bool { n.Some? && n.value != 0 }

  predicate HasTag(e: Event, name: char, values: seq<string>) {
    exists i :: 0 <= i < |e.tags| && |e.tags[i]| >= 2 && e.tags[i][0] == [name] && e.tags[i][1] in values
  }

  predicate TagKey(key: string) { |key| == 2 && key[0] == '#' }

  /** `_eventMatchesFilter`; `limit` plays no part. */
  predicate Matches(e: Event, f: Filter) {
    && (f.ids.Some? ==> e.id in f.ids.value)
    && (f.kinds.Some? ==> e.kind in f.kinds.value)
    && (f.authors.Some? ==> e.pubkey in f.authors.value)
    && (Truthy(f.since) ==> e.createdAt >= f.since.value)
    && (Truthy(f.until) ==> e.createdAt <= f.until.value)
    && (forall key :: key in f.others && TagKey(key) ==> HasTag(e, key[1], f.others[key]))
  }

  /** Kinds and authors, and no other key. */
  predicate MultiKind(f: Filter) {
    && f.kinds.Some? && f.kinds.value != [] && f.authors.Some? && f.authors.value != []
    && !Truthy(f.limit) && !Truthy(f.since) && !Truthy(f.until)
    && f.ids.None? && f.since.None? && f.until.None? && f.limit.None? && f.others == map[]
  }

  function KeyCount(f: Filter): nat {
    (if f.ids.Some? then 1 else 0) + (if f.kinds.Some? then 1 else 0) + (if f.authors.Some? then 1 else 0)
    + (if f.since.Some? then 1 else 0) + (if f.until.Some? then 1 else 0) + |f.others|
  }

  /** One kind and its authors, with or without a limit. */
  predicate KindAuthor(f: Filter) {
    && KeyCount(f) == 2
    && f.kinds.Some? && |f.kinds.value| == 1 && f.authors.Some? && f.authors.value != []
    && !Truthy(f.since) && !Truthy(f.until)
  }

  predicate IdsOnly(f: Filter) {
    KeyCount(f) == 1 && f.limit.None? && f.ids.Some?
  }

  datatype Class = Multi | Single | Ids | Alone

  /** The first test a filter passes decides how it is merged. */
  function ClassOf(f: Filter): Class {
    if MultiKind(f) then Multi else if KindAuthor(f) then Single else if IdsOnly(f) then Ids else Alone
  }

  /** What a mergeable filter may hold besides its lists: nothing that narrows a match. */
  lemma MergeableShape(f: Filter)
    ensures ClassOf(f).Multi? || ClassOf(f).Single? ==>
      f.ids.None? && f.kinds.Some? && f.authors.Some? && f.since.None? && f.until.None? && f.others == map[]
    ensures ClassOf(f).Ids? ==>
      f.ids.Some? && f.kinds.None? && f.authors.None? && f.since.None? && f.until.None? && f.others == map[]
  {
    if f.others != map[] {
      var k :| k in f.others;
      assert f.others.Keys != {};
      assert |f.others| > 0;
    }
  }

  function AuthorsOf(f: Filter): seq<string> { if f.authors.Some? then f.authors.value else [] }

  function KindsOf(f: Filter): seq<int> { if f.kinds.Some? then f.kinds.value else [] }

  function IdsOf(f: Filter): seq<string> { if f.ids.Some? then f.ids.value else [] }

  // ── The author key: the authors sorted and joined by commas ──

  predicate Precedes(a: string, b: string) {
    if b == "" then false
    else if a == "" then true
    else a[0] < b[0] || (a[0] == b[0] && Precedes(a[1..], b[1..]))
  }

  function Insert(x: string, s: seq<string>): (r: seq<string>)
    ensures |r| == |s| + 1 && forall y :: y in r <==> y == x || y in s
  {
    if s == [] || !Precedes(s[0], x) then [x] + s else [s[0]] + Insert(x, s[1..])
  }

  function Sort(s: seq<string>): (r: seq<string>)
    ensures |r| == |s| && forall y :: y in r <==> y in s
  {
    if s == [] then [] else Insert(s[|s| - 1], Sort(s[..|s| - 1]))
  }

  function AuthorKey(f: Filter): string {
    Join(Sort(AuthorsOf(f)), ',')
  }

  ghost predicate CommaFree(f: Filter) {
    forall a :: a in AuthorsOf(f) ==> ',' !in a
  }

  /** Without commas in them, authors with one key are the same authors. */
  lemma SameKeySameAuthors(f: Filter, g: Filter)
    requires CommaFree(f) && CommaFree(g) && AuthorsOf(f) != [] && AuthorsOf(g) != [] && AuthorKey(f) == AuthorKey(g)
    ensures forall a :: a in AuthorsOf(f) <==> a in AuthorsOf(g)
  {
    var a, b := Sort(AuthorsOf(f)), Sort(AuthorsOf(g));
    forall i | 0 <= i < |a| ensures ',' !in a[i] { assert a[i] in AuthorsOf(f); }
    forall i | 0 <= i < |b| ensures ',' !in b[i] { assert b[i] in AuthorsOf(g); }
    SplitJoin(a, ',');
    SplitJoin(b, ',');
    assert a == b;
  }
}
