/**
 * Sequence facts shared by the request logs and the worker: duplicate removal
 * that keeps the first occurrence of every element (JavaScript's
 * `[...new Set(xs)]`, and the `includes` test in front of `push`).
 */
module Sequences {

  predicate NoDuplicates<T(==)>(xs: seq<T>)
  {
    forall i, j :: 0 <= i < j < |xs| ==> xs[i] != xs[j]
  }

  /** The position of the first occurrence of `x` in `xs`. */
  function FirstIndex<T(==)>(xs: seq<T>, x: T): (i: nat)
    requires x in xs
    ensures i < |xs| && xs[i] == x && x !in xs[..i]
  {
    if xs[0] == x then 0
    else
      var j := FirstIndex(xs[1..], x);
      assert xs[..j + 1] == [xs[0]] + xs[1..][..j];
      1 + j
  }

  /** An element of a prefix has its first occurrence inside that prefix. */
  lemma FirstIndexInPrefix<T>(xs: seq<T>, k: nat, x: T)
    requires k <= |xs| && x in xs[..k]
    ensures FirstIndex(xs, x) == FirstIndex(xs[..k], x)
  {
    var i, j := FirstIndex(xs, x), FirstIndex(xs[..k], x);
    assert xs[j] == x;
    assert xs[..k][..j] == xs[..j];
  }

  /**
   * `xs` with every element after its first occurrence removed: the array
   * `[...new Set(xs)]` of JavaScript. Defined from the right end, one arrival
   * at a time, the way the request logs are filled.
   */
  function Distinct<T(==)>(xs: seq<T>): seq<T>
  {
    if xs == [] then []
    else
      var init := Distinct(xs[..|xs| - 1]);
      if xs[|xs| - 1] in xs[..|xs| - 1] then init else init + [xs[|xs| - 1]]
  }

  /** The result holds exactly the elements of the input. */
  lemma {:induction false} DistinctMembership<T>(xs: seq<T>)
    ensures forall x :: x in Distinct(xs) ==> x in xs
    ensures forall x :: x in xs ==> x in Distinct(xs)
  {
    if xs != [] {
      var n := |xs| - 1;
      DistinctMembership(xs[..n]);
      assert xs == xs[..n] + [xs[n]];
    }
  }

  /** The result holds each element once. */
  lemma {:induction false} DistinctNoDuplicates<T>(xs: seq<T>)
    ensures NoDuplicates(Distinct(xs))
  {
    if xs != [] {
      var n := |xs| - 1;
      var init := xs[..n];
      DistinctNoDuplicates(init);
      DistinctMembership(init);
    }
  }

  /** The result starts with the input's first element. */
  lemma {:induction false} DistinctHead<T>(xs: seq<T>)
    ensures xs != [] ==> Distinct(xs) != [] && Distinct(xs)[0] == xs[0]
  {
    if xs != [] {
      var n := |xs| - 1;
      var init := xs[..n];
      DistinctHead(init);
      if init != [] {
        assert init[0] == xs[0];
      }
    }
  }

  /** The result lists the elements in the order of their first occurrence in the input. */
  lemma {:induction false} DistinctOrder<T>(xs: seq<T>)
    ensures forall i, j :: 0 <= i < j < |Distinct(xs)| ==>
              Distinct(xs)[i] in xs && Distinct(xs)[j] in xs &&
              FirstIndex(xs, Distinct(xs)[i]) < FirstIndex(xs, Distinct(xs)[j])
  {
    DistinctMembership(xs);
    if xs != [] {
      var n := |xs| - 1;
      var init := xs[..n];
      DistinctOrder(init);
      DistinctMembership(init);
      assert xs == init + [xs[n]];
      var r := Distinct(xs);
      forall i, j | 0 <= i < j < |r|
        ensures FirstIndex(xs, r[i]) < FirstIndex(xs, r[j])
      {
        assert r[i] in Distinct(init);
        FirstIndexInPrefix(xs, n, r[i]);
        if j < |Distinct(init)| {
          assert r[j] in Distinct(init);
          assert r[j] in init;
          FirstIndexInPrefix(xs, n, r[j]);
        } else {
          assert r[j] == xs[n] && xs[n] !in init;
          assert FirstIndex(xs, r[j]) == n;
        }
      }
    }
  }

  /** Extending the input by one element extends the result by that element exactly when it is new. */
  lemma DistinctSnoc<T>(xs: seq<T>, x: T)
    ensures Distinct(xs + [x]) == if x in xs then Distinct(xs) else Distinct(xs) + [x]
  {
    assert (xs + [x])[..|xs|] == xs;
  }

  /** A sequence without duplicates has as many elements as the set of its elements. */
  lemma {:induction false} NoDuplicatesCardinality<T>(xs: seq<T>)
    requires NoDuplicates(xs)
    ensures |set x | x in xs| == |xs|
  {
    if xs != [] {
      var n := |xs| - 1;
      var init := xs[..n];
      assert NoDuplicates(init);
      NoDuplicatesCardinality(init);
      assert xs[n] !in init;
      assert (set x | x in xs) == (set x | x in init) + {xs[n]} by {
        assert xs == init + [xs[n]];
      }
    }
  }

  /** Removing duplicates leaves exactly one entry per distinct element. */
  lemma DistinctCardinality<T>(xs: seq<T>)
    ensures |Distinct(xs)| == |set x | x in xs|
  {
    DistinctMembership(xs);
    DistinctNoDuplicates(xs);
    NoDuplicatesCardinality(Distinct(xs));
    assert (set x | x in Distinct(xs)) == (set x | x in xs) by {
      forall x
        ensures x in Distinct(xs) <==> x in xs
      {
      }
    }
  }
}
