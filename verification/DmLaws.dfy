/** The inbox a user sees, read off the threads, and what ingesting, hydrating and evicting leave in them. */
module DmLaws {
  import opened Common
  import opened Text
  import opened JsMap
  import opened DmCache
  import opened DmEviction
  import opened DmSession

  // ── The inbox ──

  /** The conversation shown for a thread that is not empty. */
  ghost predicate Shows(conv: Conversation, msgs: seq<Message>) {
    && msgs != []
    && conv.messageCount == |msgs|
    && conv.lastMessageAt == msgs[|msgs| - 1].createdAt
    && conv.preview == Preview(msgs[|msgs| - 1].content)
  }

  lemma {:induction false} ListedAre(threads: Threads, keys: seq<string>)
    requires NoDup(keys)
    ensures var l := Listed(threads, keys);
            && (forall i :: 0 <= i < |l| ==> l[i].partner in keys && Shows(l[i], ThreadOf(threads, l[i].partner)))
            && (forall p :: p in keys && ThreadOf(threads, p) != [] ==> exists i :: 0 <= i < |l| && l[i].partner == p)
            && (forall i, j :: 0 <= i < j < |l| ==> Before(keys, l[i].partner, l[j].partner))
  {
    hide Preview, ThreadOf, Before;
    if keys != [] {
      var front, p := keys[..|keys| - 1], keys[|keys| - 1];
      assert keys == front + [p];
      ListedAre(threads, front);
      var l, l' := Listed(threads, front), Listed(threads, keys);
      forall q | q in keys && ThreadOf(threads, q) != [] ensures exists i :: 0 <= i < |l'| && l'[i].partner == q {
        if q in front {
          var i :| 0 <= i < |l| && l[i].partner == q;
          assert l'[i].partner == q;
        } else {
          assert l'[|l'| - 1].partner == q;
        }
      }
      forall i, j | 0 <= i < j < |l'| ensures Before(keys, l'[i].partner, l'[j].partner) {
        if j < |l| {
          assert Before(front, l[i].partner, l[j].partner);
          BeforeGrows(front, p, l[i].partner, l[j].partner);
        } else {
          BeforeLast(front, p, l[i].partner);
        }
      }
    }
  }

  /** `a` stands before `b` in the list. */
  ghost predicate Before(keys: seq<string>, a: string, b: string) {
    exists i, j :: 0 <= i < j < |keys| && keys[i] == a && keys[j] == b
  }

  lemma BeforeGrows(front: seq<string>, p: string, a: string, b: string)
    requires Before(front, a, b)
    ensures Before(front + [p], a, b)
  {
    var i, j :| 0 <= i < j < |front| && front[i] == a && front[j] == b;
    assert (front + [p])[i] == a && (front + [p])[j] == b;
  }

  lemma BeforeLast(front: seq<string>, p: string, a: string)
    requires a in front
    ensures Before(front + [p], a, p)
  {
    var i :| 0 <= i < |front| && front[i] == a;
    assert (front + [p])[i] == a && (front + [p])[|front|] == p;
  }

  /** Newest first, and conversations of one age in the order of the keys. */
  ghost predicate Stably(convs: seq<Conversation>, keys: seq<string>) {
    forall i, j :: 0 <= i < j < |convs| ==>
      || convs[i].lastMessageAt > convs[j].lastMessageAt
      || (convs[i].lastMessageAt == convs[j].lastMessageAt && Before(keys, convs[i].partner, convs[j].partner))
  }

  lemma {:induction false} InsertStably(s: seq<Conversation>, x: Conversation, keys: seq<string>)
    requires Stably(s, keys) && forall y :: y in s ==> Before(keys, y.partner, x.partner)
    ensures Stably(InsertBy(s, x, Newness), keys)
  {
    hide Before;
    if s != [] && Newness(s[|s| - 1]) > Newness(x) {
      var front, last := s[..|s| - 1], s[|s| - 1];
      InsertStably(front, x, keys);
      InsertKeeps(front, x, Newness);
      var r := InsertBy(front, x, Newness);
      forall i | 0 <= i < |r|
        ensures r[i].lastMessageAt > last.lastMessageAt || (r[i].lastMessageAt == last.lastMessageAt && Before(keys, r[i].partner, last.partner)) {
        if r[i] != x {
          var k :| 0 <= k < |front| && front[k] == r[i];
          assert s[k] == r[i];
        }
      }
    }
  }

  lemma {:induction false} SortStably(s: seq<Conversation>, keys: seq<string>)
    requires forall i, j :: 0 <= i < j < |s| ==> Before(keys, s[i].partner, s[j].partner)
    ensures Stably(StableSort(s, Newness), keys)
  {
    hide Before;
    if s != [] {
      var front, last := s[..|s| - 1], s[|s| - 1];
      SortStably(front, keys);
      forall y | y in StableSort(front, Newness) ensures Before(keys, y.partner, last.partner) {
        SortMembers(front, Newness, y);
        var i :| 0 <= i < |front| && front[i] == y;
        assert s[i] == y && s[|s| - 1] == last;
      }
      InsertStably(StableSort(front, Newness), last, keys);
    }
  }

  /** The inbox of any threads: one conversation for each that is not empty, the newest first, equals as they were opened. */
  lemma SummaryIs(threads: Threads)
    requires threads.Valid()
    ensures var convs := Summary(threads);
            && (forall i :: 0 <= i < |convs| ==> convs[i].partner in threads.at && Shows(convs[i], threads.at[convs[i].partner]))
            && (forall p :: p in threads.at && threads.at[p] != [] ==> exists i :: 0 <= i < |convs| && convs[i].partner == p)
            && (forall i, j :: 0 <= i < j < |convs| ==>
                  && convs[i].partner != convs[j].partner
                  && convs[i].lastMessageAt >= convs[j].lastMessageAt
                  && (convs[i].lastMessageAt == convs[j].lastMessageAt ==> Before(threads.keys, convs[i].partner, convs[j].partner)))
  {
    hide Preview, StableSort, Before, NoDup, Shows;
    KeysAt(threads);
    var l, convs := Listed(threads, threads.keys), Summary(threads);
    ListedAre(threads, threads.keys);
    SortStably(l, threads.keys);
    forall c ensures c in convs <==> c in l { SortMembers(l, Newness, c); }
    SortDistinct(threads, l, convs);
    forall p | p in threads.at && threads.at[p] != [] ensures exists i :: 0 <= i < |convs| && convs[i].partner == p {
      assert ThreadOf(threads, p) == threads.at[p];
      var i :| 0 <= i < |l| && l[i].partner == p;
      assert l[i] in convs;
    }
    forall i | 0 <= i < |convs| ensures convs[i].partner in threads.at && Shows(convs[i], threads.at[convs[i].partner]) {
      assert convs[i] in l;
      var k :| 0 <= k < |l| && l[k] == convs[i];
      assert Shows(l[k], ThreadOf(threads, l[k].partner));
    }
  }

  /** Sorting leaves each partner its one place. */
  lemma SortDistinct(threads: Threads, l: seq<Conversation>, convs: seq<Conversation>)
    requires NoDup(threads.keys) && convs == StableSort(l, Newness)
    requires forall i, j :: 0 <= i < j < |l| ==> Before(threads.keys, l[i].partner, l[j].partner)
    ensures forall i, j :: 0 <= i < j < |convs| ==> convs[i].partner != convs[j].partner
  {
    hide StableSort;
    SortSorts(l, Newness);
    SameBag(l, convs);
    forall i, j | 0 <= i < j < |convs| ensures convs[i].partner != convs[j].partner {
      SortMembers(l, Newness, convs[i]);
      SortMembers(l, Newness, convs[j]);
      var k :| 0 <= k < |l| && l[k] == convs[i];
      var m :| 0 <= m < |l| && l[m] == convs[j];
      assert k != m;
      assert k < m ==> Before(threads.keys, l[k].partner, l[m].partner);
      assert m < k ==> Before(threads.keys, l[m].partner, l[k].partner);
    }
  }

  /**
   * The inbox while the structures agree: a conversation for every partner with a thread and for nobody
   * else, one each. It shows the newest time of the thread, the preview of its last message and the number
   * of its messages. The newest conversation comes first.
   */
  lemma InboxIs(c: Cache)
    requires Agrees(c)
    ensures forall p :: p in c.threads.at <==> exists i :: 0 <= i < |c.conversations| && c.conversations[i].partner == p
    ensures forall i, j :: 0 <= i < j < |c.conversations| ==>
              && c.conversations[i].partner != c.conversations[j].partner
              && c.conversations[i].lastMessageAt >= c.conversations[j].lastMessageAt
    ensures forall i :: 0 <= i < |c.conversations| ==>
              var conv, msgs := c.conversations[i], c.threads.at[c.conversations[i].partner];
              && conv.messageCount == |msgs| > 0
              && (exists k :: 0 <= k < |msgs| && msgs[k].createdAt == conv.lastMessageAt)
              && (forall k :: 0 <= k < |msgs| ==> msgs[k].createdAt <= conv.lastMessageAt)
              && conv.preview == Preview(msgs[|msgs| - 1].content)
  {
    hide Summary, Preview, DistinctIds, SeenExact, Published, Before, Table.Valid;
    SummaryIs(c.threads);
    forall i | 0 <= i < |c.conversations|
      ensures var conv, msgs := c.conversations[i], c.threads.at[c.conversations[i].partner];
              && (exists k :: 0 <= k < |msgs| && msgs[k].createdAt == conv.lastMessageAt)
              && (forall k :: 0 <= k < |msgs| ==> msgs[k].createdAt <= conv.lastMessageAt) {
      LastIsNewest(c.threads.at[c.conversations[i].partner]);
    }
  }

  lemma LastIsNewest(msgs: seq<Message>)
    requires SortedBy(msgs, Time) && msgs != []
    ensures forall k :: 0 <= k < |msgs| ==> msgs[k].createdAt <= msgs[|msgs| - 1].createdAt
  {
    forall k | 0 <= k < |msgs| ensures msgs[k].createdAt <= msgs[|msgs| - 1].createdAt {
      if k < |msgs| - 1 { assert Time(msgs[k]) <= Time(msgs[|msgs| - 1]); }
    }
  }

  // ── The preview ──

  /** White space, character by character. */
  ghost predicate White(c: char) {
    c in {'\t', '\n', '\U{000B}', '\U{000C}', '\r', ' ', '\U{00A0}', '\U{1680}', '\U{2000}', '\U{2001}', '\U{2002}', '\U{2003}', '\U{2004}',
          '\U{2005}', '\U{2006}', '\U{2007}', '\U{2008}', '\U{2009}', '\U{200A}', '\U{2028}', '\U{2029}', '\U{202F}', '\U{205F}', '\U{3000}', '\U{FEFF}'}
  }

  lemma WhiteIsSpace(c: char)
    ensures White(c) <==> Space(c)
  {
    if '\U{2000}' <= c <= '\U{200A}' { BetweenSpaces(c as int - 0x2000, c); }
  }

  lemma BetweenSpaces(n: nat, c: char)
    requires n <= 10 && c as int == 0x2000 + n
    ensures White(c)
  {
    assert c == (0x2000 + n) as char;
  }

  lemma {:induction false} FlatWord(s: string, w: string)
    requires forall i :: 0 <= i < |w| ==> !Space(w[i])
    ensures Flat(s + w) == Flat(s) + w
  {
    hide Space;
    if w == "" {
      assert s + w == s;
    } else {
      var front := w[..|w| - 1];
      FlatWord(s, front);
      assert (s + w)[..|s + w| - 1] == s + front;
      assert Flat(s) + front + [w[|w| - 1]] == Flat(s) + w;
    }
  }

  lemma {:induction false} FlatGap(s: string, gap: string)
    requires gap != "" && forall i :: 0 <= i < |gap| ==> Space(gap[i])
    ensures Flat(s + gap) == if Flat(s) != "" && Flat(s)[|Flat(s)| - 1] == ' ' then Flat(s) else Flat(s) + " "
  {
    hide Space;
    var front := gap[..|gap| - 1];
    assert (s + gap)[..|s + gap| - 1] == s + front;
    if front == "" {
      assert s + front == s;
    } else {
      FlatGap(s, front);
    }
  }

  /** A text made of words, with a gap before, between and after them. */
  ghost function Spread(words: seq<string>, gaps: seq<string>): string
    requires |gaps| == |words| + 1
  {
    if words == [] then gaps[0]
    else Spread(words[..|words| - 1], gaps[..|words|]) + words[|words| - 1] + gaps[|words|]
  }

  /** Words without white space, and nothing but white space around them, at least one character of it between two. */
  ghost predicate WordsAndGaps(words: seq<string>, gaps: seq<string>) {
    && |gaps| == |words| + 1
    && (forall i :: 0 <= i < |words| ==> words[i] != "" && forall k :: 0 <= k < |words[i]| ==> !White(words[i][k]))
    && (forall i :: 0 <= i < |gaps| ==> (0 < i < |words| ==> gaps[i] != "") && forall k :: 0 <= k < |gaps[i]| ==> White(gaps[i][k]))
  }

  lemma {:induction false} JoinLast(words: seq<string>, w: string)
    ensures Join(words + [w], ' ') == if words == [] then w else Join(words, ' ') + " " + w
  {
    if words != [] {
      assert (words + [w])[1..] == words[1..] + [w];
      JoinLast(words[1..], w);
      if |words| == 1 { assert words[1..] == []; }
    } else {
      assert words + [w] == [w];
    }
  }

  lemma {:induction false} JoinedEnds(words: seq<string>, gaps: seq<string>)
    requires WordsAndGaps(words, gaps) && words != []
    ensures var t := Join(words, ' '); t != "" && t[0] != ' ' && t[|t| - 1] != ' '
  {
    hide White;
    var front, w := words[..|words| - 1], words[|words| - 1];
    assert words == front + [w];
    JoinLast(front, w);
    Blank(w[0]);
    Blank(w[|w| - 1]);
    if front != [] {
      JoinedEnds(front, gaps[..|words|]);
    }
  }

  lemma Blank(c: char)
    ensures !White(c) ==> c != ' '
  {}

  lemma {:induction false} FlatSpread(words: seq<string>, gaps: seq<string>)
    requires WordsAndGaps(words, gaps)
    ensures Flat(Spread(words, gaps)) == Opening(gaps[0]) + Join(words, ' ') + (if words != [] then Opening(gaps[|words|]) else "")
  {
    hide White, Flat, Opening, Join;
    if words == [] {
      EmptyFlat();
      FlatOpening("", gaps[0]);
      NothingJoined();
      assert "" + gaps[0] == gaps[0] && "" + Opening(gaps[0]) == Opening(gaps[0]) + "" + "";
    } else {
      var n := |words|;
      var front, w := words[..n - 1], words[n - 1];
      assert words == front + [w];
      FlatSpread(front, gaps[..n]);
      JoinLast(front, w);
      FlatLast(Spread(front, gaps[..n]), w, gaps[n]);
      SpacedJoin(Opening(gaps[0]), Join(front, ' '), if front == [] then "" else Opening(gaps[n - 1]), w, Opening(gaps[n]));
      if front == [] { NothingJoined(); } else { OpeningIs(gaps[n - 1]); }
    }
  }

  /** What a gap leaves: a blank, unless it is empty. */
  ghost function Opening(gap: string): string { if gap != "" then " " else "" }

  lemma OpeningIs(gap: string)
    ensures gap != "" ==> Opening(gap) == " "
  {}

  lemma SpacedJoin(a: string, t: string, b: string, w: string, z: string)
    ensures a + t + b + w + z == a + (t + b + w) + z
    ensures a + "" + "" + w + z == a + w + z
  {}

  lemma FlatOpening(s: string, gap: string)
    requires (forall k :: 0 <= k < |gap| ==> White(gap[k])) && (Flat(s) != "" ==> Flat(s)[|Flat(s)| - 1] != ' ')
    ensures Flat(s + gap) == Flat(s) + Opening(gap)
  {
    hide White, Space, Flat;
    forall k | 0 <= k < |gap| ensures Space(gap[k]) { WhiteIsSpace(gap[k]); }
    if gap != "" { FlatGap(s, gap); } else { assert s + gap == s; }
  }

  lemma FlatLast(s: string, w: string, gap: string)
    requires w != "" && (forall k :: 0 <= k < |w| ==> !White(w[k])) && forall k :: 0 <= k < |gap| ==> White(gap[k])
    ensures Flat(s + w + gap) == Flat(s) + w + Opening(gap)
  {
    hide White, Space, Flat, Opening;
    forall k | 0 <= k < |w| ensures !Space(w[k]) { WhiteIsSpace(w[k]); }
    FlatWord(s, w);
    Blank(w[|w| - 1]);
    FlatOpening(s + w, gap);
  }

  lemma EmptyFlat()
    ensures Flat("") == ""
  {}

  /** The preview is the words with one blank between them, cut to 79 characters and an ellipsis when there are more than 80. */
  lemma PreviewIs(words: seq<string>, gaps: seq<string>)
    requires WordsAndGaps(words, gaps)
    ensures var t := Join(words, ' ');
            Preview(Spread(words, gaps)) == if |t| <= 80 then t else t[..79] + "…"
  {
    hide White, Space, Flat, Join, Spread, WordsAndGaps;
    GapsFit(words, gaps);
    FlatSpread(words, gaps);
    var t := Join(words, ' ');
    if words == [] {
      NothingJoined();
    } else {
      JoinedEnds(words, gaps);
      TrimmedIs(t, Opening(gaps[0]), Opening(gaps[|words|]));
    }
  }

  lemma GapsFit(words: seq<string>, gaps: seq<string>)
    requires WordsAndGaps(words, gaps)
    ensures |gaps| == |words| + 1
  {}

  lemma NothingJoined()
    ensures Join([], ' ') == ""
  {}

  lemma TrimmedIs(t: string, a: string, b: string)
    requires t != "" && t[0] != ' ' && t[|t| - 1] != ' ' && (a == "" || a == " ") && (b == "" || b == " ")
    ensures Trimmed(a + t + b) == t
  {
    var s := a + t + b;
    if a == " " { assert s[1..] == t + b; } else { assert s == t + b; }
    assert (t + b)[..|t|] == t;
  }

  /** A content of at most 80 characters without white space is its own preview; a longer one is cut. */
  lemma PlainPreview(content: string)
    requires forall i :: 0 <= i < |content| ==> !White(content[i])
    ensures Preview(content) == if |content| <= 80 then content else content[..79] + "…"
  {
    hide Preview, White;
    if content == "" {
      PreviewIs([], [""]);
      assert Spread([], [""]) == "";
      NothingJoined();
    } else {
      PreviewIs([content], ["", ""]);
      assert [content][..0] == [] && ["", ""][..1] == [""];
      assert Spread([content], ["", ""]) == Spread([], [""]) + content + "" == content;
      JoinLast([], content);
      assert [] + [content] == [content];
    }
  }

  // ── What a call leaves in the threads ──

  /** Ingesting: a message whose id is in some thread changes nothing. A new one joins its partner's thread and no other. */
  lemma IngestLeaves(c: Cache, m: Message, p: string)
    requires Agrees(c)
    ensures (exists q, i :: q in c.threads.at && 0 <= i < |c.threads.at[q]| && c.threads.at[q][i].id == m.id) ==> Ingested(c, m) == c
    ensures !(exists q, i :: q in c.threads.at && 0 <= i < |c.threads.at[q]| && c.threads.at[q][i].id == m.id) ==>
              var after := Ingested(c, m).threads;
              && (p in after.at <==> p in c.threads.at || p == m.partner)
              && (p != m.partner ==> ThreadOf(after, p) == ThreadOf(c.threads, p))
              && (exists k :: 0 <= k <= |ThreadOf(c.threads, m.partner)| && Joins(ThreadOf(c.threads, m.partner), m, k, ThreadOf(after, m.partner)))
  {
    hide Summary, GoodThreads, DistinctIds, Published, StableSort, Table.Valid;
    if m.id !in c.seen {
      IngestedThread(c, m);
      GoodParts(c, m.partner);
      InsertPlace(ThreadOf(c.threads, m.partner), m);
    }
  }

  /** `m` stands at `k`, after everything that is not later and before everything later; the others are as they were. */
  ghost predicate Joins(thread: seq<Message>, m: Message, k: nat, after: seq<Message>)
    requires k <= |thread|
  {
    && after == thread[..k] + [m] + thread[k..]
    && (forall i :: 0 <= i < k ==> thread[i].createdAt <= m.createdAt)
    && (forall i :: k <= i < |thread| ==> m.createdAt < thread[i].createdAt)
  }

  lemma GoodParts(c: Cache, p: string)
    requires Agrees(c)
    ensures SortedBy(ThreadOf(c.threads, p), Time)
  {
    hide Summary, DistinctIds, Published;
  }

  lemma {:induction false} InsertPlace(s: seq<Message>, x: Message)
    requires SortedBy(s, Time)
    ensures exists k :: 0 <= k <= |s| && Joins(s, x, k, InsertBy(s, x, Time))
  {
    hide Joins, SortedBy;
    if s == [] || Time(s[|s| - 1]) <= Time(x) {
      JoinsLast(s, x);
      assert Joins(s, x, |s|, InsertBy(s, x, Time));
    } else {
      var front, last := s[..|s| - 1], s[|s| - 1];
      assert SortedBy(front, Time) by { FrontSorted(s); }
      InsertPlace(front, x);
      var k :| 0 <= k <= |front| && Joins(front, x, k, InsertBy(front, x, Time));
      assert s == front + [last];
      JoinsBefore(front, x, k, InsertBy(front, x, Time), last);
      assert Joins(s, x, k, InsertBy(s, x, Time));
    }
  }

  lemma FrontSorted(s: seq<Message>)
    requires SortedBy(s, Time) && s != []
    ensures SortedBy(s[..|s| - 1], Time)
  {}

  lemma JoinsLast(s: seq<Message>, x: Message)
    requires SortedBy(s, Time) && (s != [] ==> s[|s| - 1].createdAt <= x.createdAt)
    ensures Joins(s, x, |s|, s + [x])
  {
    assert s[..|s|] == s && s[|s|..] == [];
    if s != [] { LastIsNewest(s); }
  }

  lemma JoinsBefore(front: seq<Message>, x: Message, k: nat, after: seq<Message>, last: Message)
    requires k <= |front| && Joins(front, x, k, after) && x.createdAt < last.createdAt
    ensures Joins(front + [last], x, k, after + [last])
  {
    var s := front + [last];
    assert s[..k] == front[..k] && s[k..] == front[k..] + [last];
  }

  /** Hydrating: a stored thread takes its partner's place, in order of time; the others stay. Its ids count as seen. */
  lemma HydrateLeaves(c: Cache, stored: Threads, p: string, id: string)
    requires c.threads.Valid() && stored.Valid()
    ensures var after := Hydrated(c, stored);
            && (p in after.threads.at <==> p in c.threads.at || p in stored.at)
            && (p in stored.at ==>
                  && multiset(after.threads.at[p]) == multiset(stored.at[p])
                  && forall i, j :: 0 <= i < j < |after.threads.at[p]| ==> after.threads.at[p][i].createdAt <= after.threads.at[p][j].createdAt)
            && (p in c.threads.at && p !in stored.at ==> after.threads.at[p] == c.threads.at[p])
            && (id in after.seen <==> id in c.seen || exists q, i :: q in stored.at && 0 <= i < |stored.at[q]| && stored.at[q][i].id == id)
  {
    hide StableSort, HydratedThreads, HydratedIds, NoDup, Summary, SortedBy;
    KeysAt(stored);
    HydratedAre(c.threads, stored, stored.keys);
    HydratedIdsAre(stored, stored.keys);
    if p in stored.at {
      SortSorts(stored.at[p], Time);
      SortedAt(Hydrated(c, stored).threads.at[p]);
    }
    HasIdInThread(stored, id);
    forall q ensures q in stored.at && InThread(ThreadOf(stored, q), id) <==> q in stored.at && exists i :: 0 <= i < |stored.at[q]| && stored.at[q][i].id == id {}
  }

  lemma SortedAt(msgs: seq<Message>)
    requires SortedBy(msgs, Time)
    ensures forall i, j :: 0 <= i < j < |msgs| ==> msgs[i].createdAt <= msgs[j].createdAt
  {
    forall i, j | 0 <= i < j < |msgs| ensures msgs[i].createdAt <= msgs[j].createdAt { assert Time(msgs[i]) <= Time(msgs[j]); }
  }

  /** The places of the messages whose partner is not followed. */
  ghost function Unprotected(threads: Threads, follows: set<string>): set<(string, nat)> {
    set p, i: nat | p in threads.at && p !in follows && i < |threads.at[p]| :: (p, i)
  }

  /** Before the follow set is known, and while the unprotected messages are within the cap, eviction does nothing. */
  lemma NothingEvicted(c: Cache, follows: Option<set<string>>, cap: int)
    requires c.threads.Valid() && (follows.Some? ==> |Unprotected(c.threads, follows.value)| <= cap)
    ensures Settled(c, follows, cap) == c
  {
    hide Evictable, Evicted, Unprotected;
    if follows.Some? { EvictableCount(c.threads, follows.value); }
  }

  lemma EvictableCount(threads: Threads, follows: set<string>)
    requires threads.Valid()
    ensures |Unprotected(threads, follows)| == |Evictable(threads, follows)|
  {
    hide Items, NoDup;
    KeysAt(threads);
    var items := Evictable(threads, follows);
    ItemsDistinct(threads, threads.keys, follows);
    NoDupCardinality(items);
    forall it ensures it in items <==> IsItem(threads, threads.keys, follows, it) { ItemsAre(threads, threads.keys, follows, it); }
    var all := set it | it in items;
    var places := Unprotected(threads, follows);
    forall p: string, i: nat | (p, i) in places ensures (p, i) in (set it: Item | it in all :: (it.partner, it.idx)) {
      var it := Item(p, i, threads.at[p][i].createdAt);
      assert IsItem(threads, threads.keys, follows, it) && it in all;
    }
    forall it | it in all ensures (it.partner, it.idx) in places { assert IsItem(threads, threads.keys, follows, it); }
    assert places == set it: Item | it in all :: (it.partner, it.idx);
    forall a, b | a in all && b in all && a.partner == b.partner && a.idx == b.idx ensures a == b {
      assert IsItem(threads, threads.keys, follows, a) && IsItem(threads, threads.keys, follows, b);
    }
    SamePlaces(all, places);
  }

  lemma {:induction false} SamePlaces(items: set<Item>, places: set<(string, nat)>)
    requires places == set it | it in items :: (it.partner, it.idx)
    requires forall a, b :: a in items && b in items && a.partner == b.partner && a.idx == b.idx ==> a == b
    ensures |places| == |items|
    decreases |items|
  {
    if items != {} {
      var it :| it in items;
      var rest := items - {it};
      assert places - {(it.partner, it.idx)} == set x | x in rest :: (x.partner, x.idx);
      SamePlaces(rest, places - {(it.partner, it.idx)});
      assert (it.partner, it.idx) in places;
    } else {
      assert places == {};
    }
  }

  /** What eviction leaves of a thread is the thread without some of its messages, in the same order; nothing is added anywhere. */
  lemma EvictLeaves(c: Cache, follows: set<string>, cap: int, p: string)
    requires Over(c.threads, follows, cap) && p in Evicted(c, follows, cap).threads.at
    ensures p in c.threads.at
    ensures exists places: seq<nat> ::
              && |places| == |Evicted(c, follows, cap).threads.at[p]|
              && (forall i, j :: 0 <= i < j < |places| ==> places[i] < places[j])
              && (forall i :: 0 <= i < |places| ==>
                    places[i] < |c.threads.at[p]| && Evicted(c, follows, cap).threads.at[p][i] == c.threads.at[p][places[i]])
  {
    hide Doomed, Summary, DroppedIds, Announcements, KeptIdx, Keep;
    var drop := Doomed(c.threads, follows, cap);
    KeepPlaces(c.threads.at[p], Holes(drop, p));
    var places := KeptIdx(Holes(drop, p), |c.threads.at[p]|);
    assert |places| == |Evicted(c, follows, cap).threads.at[p]|;
  }
}
