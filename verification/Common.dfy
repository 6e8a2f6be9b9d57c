/** Small shared vocabulary: optional values, sequences without repetition, ASCII folding. */
module Common {

  datatype Option<+T> = None | Some(value: T)

  ghost predicate NoDup<T>(s: seq<T>) {
    forall i, j :: 0 <= i < j < |s| ==> s[i] != s[j]
  }

  ghost predicate Alike<T(!new)>(a: seq<T>, b: seq<T>) {
    forall x :: x in a <==> x in b
  }

  /** The elements of `s` with later repetitions dropped, first occurrences in order. */
  function Dedupe<T(==, !new)>(s: seq<T>): (r: seq<T>)
    ensures NoDup(r)
    ensures forall x :: x in r <==> x in s
  {
    if s == [] then []
    else
      var rest := Dedupe(s[..|s| - 1]);
      var x := s[|s| - 1];
      if x in rest then rest else rest + [x]
  }

  lemma {:induction false} DedupeOfNoDup<T(!new)>(s: seq<T>)
    requires NoDup(s)
    ensures Dedupe(s) == s
  {
    if s != [] {
      DedupeOfNoDup(s[..|s| - 1]);
      assert s == s[..|s| - 1] + [s[|s| - 1]];
    }
  }

  /** Two repetition-free sequences with the same elements have the same length. */
  lemma NoDupSameElements<T(!new)>(a: seq<T>, b: seq<T>)
    requires NoDup(a) && NoDup(b)
    requires forall x :: x in a <==> x in b
    ensures |a| == |b|
  {
    NoDupCardinality(a);
    NoDupCardinality(b);
    assert (set x | x in a) == (set x | x in b);
  }

  lemma {:induction false} NoDupCardinality<T(!new)>(s: seq<T>)
    requires NoDup(s)
    ensures |set x | x in s| == |s|
  {
    if s != [] {
      var front, x := s[..|s| - 1], s[|s| - 1];
      NoDupCardinality(front);
      assert s == front + [x];
      assert (set y | y in s) == (set y | y in front) + {x};
    }
  }

  /** `s` without the entries equal to `x`. */
  function Without<T(==, !new)>(s: seq<T>, x: T): (r: seq<T>)
    ensures forall y :: y in r <==> y in s && y != x
    ensures NoDup(s) ==> NoDup(r)
  {
    if s == [] then []
    else
      var rest := Without(s[..|s| - 1], x);
      var last := s[|s| - 1];
      assert NoDup(s) ==> last !in s[..|s| - 1];
      if last == x then rest else rest + [last]
  }

  lemma {:induction false} WithoutAbsent<T(!new)>(s: seq<T>, x: T)
    requires x !in s
    ensures Without(s, x) == s
  {
    if s != [] {
      WithoutAbsent(s[..|s| - 1], x);
      assert s == s[..|s| - 1] + [s[|s| - 1]];
    }
  }

  function LowerChar(c: char): char {
    if 'A' <= c <= 'Z' then (c as int + 32) as char else c
  }

  /** ASCII lower case, character by character. */
  function Lower(s: string): (r: string)
    ensures |r| == |s|
    ensures forall i :: 0 <= i < |s| ==> r[i] == LowerChar(s[i])
  {
    if s == "" then "" else [LowerChar(s[0])] + Lower(s[1..])
  }
}

/** A JavaScript `Map` with string keys: a finite map that remembers insertion order. */
module JsMap {
  import opened Common

  datatype Table<V> = Table(keys: seq<string>, at: map<string, V>) {

    ghost predicate Valid() {
      NoDup(keys) && forall k :: k in keys <==> k in at
    }

    /** `map.set`: a known key keeps its place, a new one goes last. */
    function Put(k: string, v: V): (t: Table<V>)
      ensures t.at == at[k := v]
      ensures Valid() ==> t.Valid()
    {
      Table(if k in at then keys else keys + [k], at[k := v])
    }

    /** `map.delete`. */
    function Delete(k: string): (t: Table<V>)
      ensures t.at == at - {k}
      ensures Valid() ==> t.Valid()
    {
      Table(Without(keys, k), at - {k})
    }

    function Size(): nat { |at| }
  }

  function Empty<V>(): (t: Table<V>)
    ensures t.Valid() && t.at == map[]
  {
    Table([], map[])
  }

  /** The number of keys listed is the number of entries held. */
  lemma KeysCount<V>(t: Table<V>)
    requires t.Valid()
    ensures |t.keys| == |t.at|
  {
    NoDupCardinality(t.keys);
    assert (set k | k in t.keys) == t.at.Keys;
  }
}
