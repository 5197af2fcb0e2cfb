/** Counting occurrences in a sequence, and the distinct elements of a sequence in
    order of first occurrence. Python's Counter and a JavaScript object used as a
    counting dictionary both keep their keys in this order, so the backend's word
    counts and the frontend's category counts share these definitions. Everything
    is defined from the back of the sequence, matching a loop that consumes the
    input left to right. */
module Tally {

  /** Number of occurrences of x in s. */
  function Occ<T(==)>(s: seq<T>, x: T): (n: nat)
    ensures n <= |s|
  {
    if s == [] then 0
    else Occ(s[..|s| - 1], x) + (if s[|s| - 1] == x then 1 else 0)
  }

  /** The distinct elements of s, in order of first occurrence. */
  function Distinct<T(==)>(s: seq<T>): (d: seq<T>)
    ensures |d| <= |s|
  {
    if s == [] then []
    else
      var d := Distinct(s[..|s| - 1]);
      if s[|s| - 1] in d then d else d + [s[|s| - 1]]
  }

  /** No element appears twice. */
  predicate NoDuplicates<T(==)>(s: seq<T>) {
    forall i, j | 0 <= i < j < |s| :: s[i] != s[j]
  }

  /** Index of the first occurrence of x in s. */
  function FirstIndex<T(==)>(s: seq<T>, x: T): (k: nat)
    requires x in s
    ensures k < |s| && s[k] == x
    ensures forall j | 0 <= j < k :: s[j] != x
  {
    if s[0] == x then 0 else 1 + FirstIndex(s[1..], x)
  }

  /** Sum, over the elements of d, of their number of occurrences in s. */
  function SumOcc<T(==)>(d: seq<T>, s: seq<T>): nat {
    if d == [] then 0 else SumOcc(d[..|d| - 1], s) + Occ(s, d[|d| - 1])
  }

  lemma OccSnoc<T>(s: seq<T>, x: T, y: T)
    ensures Occ(s + [x], y) == Occ(s, y) + (if x == y then 1 else 0)
  {
    assert (s + [x])[..|s|] == s;
  }

  lemma {:induction false} OccPositive<T>(s: seq<T>, x: T)
    ensures Occ(s, x) > 0 <==> x in s
  {
    if s != [] {
      var p := s[..|s| - 1];
      OccPositive(p, x);
      assert s == p + [s[|s| - 1]];
    }
  }

  lemma {:induction false} OccSplit<T>(a: seq<T>, b: seq<T>, x: T)
    ensures Occ(a + b, x) == Occ(a, x) + Occ(b, x)
  {
    if b != [] {
      var b' := b[..|b| - 1];
      assert a + b == (a + b') + [b[|b| - 1]];
      assert b == b' + [b[|b| - 1]];
      OccSnoc(a + b', b[|b| - 1], x);
      OccSnoc(b', b[|b| - 1], x);
      OccSplit(a, b', x);
    } else {
      assert a + b == a;
    }
  }

  /** In a sequence without duplicates, every element occurs exactly once. */
  lemma {:induction false} OccOfDistinct<T>(s: seq<T>, x: T)
    requires NoDuplicates(s) && x in s
    ensures Occ(s, x) == 1
  {
    var p := s[..|s| - 1];
    assert s == p + [s[|s| - 1]];
    if s[|s| - 1] == x {
      assert x !in p;
      OccPositive(p, x);
    } else {
      assert x in p;
      OccOfDistinct(p, x);
    }
  }

  /** Distinct(s) holds exactly the elements of s, each once. */
  lemma {:induction false} DistinctElements<T>(s: seq<T>)
    ensures NoDuplicates(Distinct(s))
    ensures forall x :: x in Distinct(s) <==> x in s
  {
    if s != [] {
      var p := s[..|s| - 1];
      DistinctElements(p);
      assert s == p + [s[|s| - 1]];
    }
  }

  lemma FirstIndexSnoc<T>(s: seq<T>, x: T, y: T)
    requires y in s
    ensures FirstIndex(s + [x], y) == FirstIndex(s, y)
  {
    assert forall j | 0 <= j < |s| :: (s + [x])[j] == s[j];
  }

  lemma FirstIndexOfNew<T>(s: seq<T>, x: T)
    requires x !in s
    ensures FirstIndex(s + [x], x) == |s|
  {
    assert forall j | 0 <= j < |s| :: (s + [x])[j] == s[j];
  }

  lemma DistinctMember<T>(s: seq<T>, i: nat)
    requires i < |Distinct(s)|
    ensures Distinct(s)[i] in s
  {
    DistinctElements(s);
  }

  /** Distinct(s) lists the elements of s in order of their first occurrence. */
  lemma {:induction false} DistinctOrder<T>(s: seq<T>)
    ensures forall i, j | 0 <= i < j < |Distinct(s)| ::
      Distinct(s)[i] in s && Distinct(s)[j] in s &&
      FirstIndex(s, Distinct(s)[i]) < FirstIndex(s, Distinct(s)[j])
  {
    DistinctElements(s);
    if s != [] {
      var p := s[..|s| - 1];
      var x := s[|s| - 1];
      assert s == p + [x];
      DistinctOrder(p);
      DistinctElements(p);
      var d := Distinct(p);
      assert Distinct(s) == if x in d then d else d + [x];
      forall i, j | 0 <= i < j < |Distinct(s)|
        ensures FirstIndex(s, Distinct(s)[i]) < FirstIndex(s, Distinct(s)[j])
      {
        assert i < |d| && Distinct(s)[i] == d[i];
        DistinctMember(p, i);
        FirstIndexSnoc(p, x, d[i]);
        if j < |d| {
          DistinctMember(p, j);
          FirstIndexSnoc(p, x, d[j]);
        } else {
          assert x !in d && Distinct(s)[j] == x;
          FirstIndexOfNew(p, x);
        }
      }
    }
  }

  lemma {:induction false} SumOccSnoc<T>(d: seq<T>, s: seq<T>, x: T)
    ensures SumOcc(d, s + [x]) == SumOcc(d, s) + Occ(d, x)
  {
    if d != [] {
      var d' := d[..|d| - 1];
      SumOccSnoc(d', s, x);
      OccSnoc(s, x, d[|d| - 1]);
      assert d == d' + [d[|d| - 1]];
      OccSnoc(d', d[|d| - 1], x);
    }
  }

  lemma {:induction false} SumOccAppend<T>(d: seq<T>, y: T, s: seq<T>)
    ensures SumOcc(d + [y], s) == SumOcc(d, s) + Occ(s, y)
  {
    assert (d + [y])[..|d|] == d;
  }

  /** Every occurrence in s is counted once by the distinct elements of s. */
  lemma {:induction false} SumOccDistinct<T>(s: seq<T>)
    ensures SumOcc(Distinct(s), s) == |s|
  {
    if s != [] {
      var p := s[..|s| - 1];
      var x := s[|s| - 1];
      var d := Distinct(p);
      assert s == p + [x];
      SumOccDistinct(p);
      DistinctElements(p);
      SumOccSnoc(d, p, x);
      if x in d {
        OccOfDistinct(d, x);
      } else {
        OccPositive(d, x);
        OccPositive(p, x);
        SumOccAppend(d, x, s);
        OccSnoc(p, x, x);
      }
    }
  }
}
