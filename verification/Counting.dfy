/** Occurrence counts in sequences. A count is a multiset multiplicity, so that updating one
    position changes two counts by one each. */
module Counting {
  function Count<T(==)>(s: seq<T>, x: T): (c: nat)
    ensures c <= |s|
    ensures c > 0 <==> x in s
  {
    CountBounds(s, x);
    multiset(s)[x]
  }

  lemma {:induction false} CountBounds<T>(s: seq<T>, x: T)
    ensures multiset(s)[x] <= |s|
  {
    if s != [] {
      assert s == s[..|s| - 1] + [s[|s| - 1]];
      CountBounds(s[..|s| - 1], x);
    }
  }

  lemma CountUpdate<T>(s: seq<T>, i: nat, v: T)
    requires i < |s|
    ensures forall x :: Count(s[i := v], x) == Count(s, x) - (if s[i] == x then 1 else 0) + (if v == x then 1 else 0)
  {
    assert s[i] in s;
  }

  lemma CountAppend<T>(s: seq<T>, v: T)
    ensures forall x :: Count(s + [v], x) == Count(s, x) + (if v == x then 1 else 0)
  {
  }

  lemma CountPop<T>(s: seq<T>)
    requires s != []
    ensures forall x :: Count(s, x) == Count(s[1..], x) + (if s[0] == x then 1 else 0)
  {
    assert s == [s[0]] + s[1..];
  }

  /** Occurrences of two different values occupy different positions. */
  lemma {:induction false} CountTwo<T>(s: seq<T>, x: T, y: T)
    requires x != y
    ensures Count(s, x) + Count(s, y) <= |s|
  {
    if s != [] {
      CountPop(s);
      CountTwo(s[1..], x, y);
    }
  }

  lemma {:induction false} CountUniform<T>(s: seq<T>, x: T)
    requires forall i :: 0 <= i < |s| ==> s[i] == x
    ensures Count(s, x) == |s|
  {
    if s != [] {
      CountPop(s);
      CountUniform(s[1..], x);
    }
  }
}
