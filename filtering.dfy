/**
 * `Vec::retain` as a function on sequences: keep, in their original order,
 * exactly the elements a predicate accepts.
 */
module Filtering {

  function Filter<T(!new)>(xs: seq<T>, keep: T -> bool): (r: seq<T>)
    ensures |r| <= |xs|
    ensures forall x :: x in r <==> x in xs && keep(x)
    ensures |r| == |xs| <==> forall x :: x in xs ==> keep(x)
    decreases |xs|
  {
    if xs == [] then []
    else
      var rest := Filter(xs[1..], keep);
      assert forall x :: x in xs <==> x == xs[0] || x in xs[1..];
      (if keep(xs[0]) then [xs[0]] else []) + rest
  }

  /** Retaining from a sequence with a known head: one unfolding of `Filter`. */
  lemma FilterCons<T(!new)>(x: T, xs: seq<T>, keep: T -> bool)
    ensures Filter([x] + xs, keep) == (if keep(x) then [x] else []) + Filter(xs, keep)
  {
    assert ([x] + xs)[1..] == xs;
  }

  /** Retaining distributes over concatenation: order is preserved. */
  lemma {:induction false} FilterConcat<T(!new)>(xs: seq<T>, ys: seq<T>, keep: T -> bool)
    ensures Filter(xs + ys, keep) == Filter(xs, keep) + Filter(ys, keep)
    decreases |xs|
  {
    if xs == [] {
      assert xs + ys == ys;
    } else {
      var head := if keep(xs[0]) then [xs[0]] else [];
      calc {
        Filter(xs + ys, keep);
      == { assert xs + ys == [xs[0]] + (xs[1..] + ys); FilterCons(xs[0], xs[1..] + ys, keep); }
        head + Filter(xs[1..] + ys, keep);
      == { FilterConcat(xs[1..], ys, keep); }
        head + (Filter(xs[1..], keep) + Filter(ys, keep));
      ==
        (head + Filter(xs[1..], keep)) + Filter(ys, keep);
      == { assert xs == [xs[0]] + xs[1..]; FilterCons(xs[0], xs[1..], keep); }
        Filter(xs, keep) + Filter(ys, keep);
      }
    }
  }

  /** When every element is kept, retaining is the identity. */
  lemma {:induction false} FilterKeepsAll<T(!new)>(xs: seq<T>, keep: T -> bool)
    requires forall x :: x in xs ==> keep(x)
    ensures Filter(xs, keep) == xs
    decreases |xs|
  {
    if xs != [] {
      assert forall x :: x in xs[1..] ==> x in xs;
      FilterKeepsAll(xs[1..], keep);
    }
  }

  /** Retaining twice with the same predicate is retaining once. */
  lemma FilterIdempotent<T(!new)>(xs: seq<T>, keep: T -> bool)
    ensures Filter(Filter(xs, keep), keep) == Filter(xs, keep)
  {
    FilterKeepsAll(Filter(xs, keep), keep);
  }

  /** No two elements of `xs` share a key. */
  ghost predicate DistinctBy<T(!new), K>(xs: seq<T>, key: T -> K)
  {
    forall i, j :: 0 <= i < j < |xs| ==> key(xs[i]) != key(xs[j])
  }

  /** Appending keeps keys distinct exactly when the new key is not yet used. */
  lemma DistinctByAppend<T(!new), K>(xs: seq<T>, x: T, key: T -> K)
    ensures DistinctBy(xs + [x], key) <==> DistinctBy(xs, key) && forall y :: y in xs ==> key(y) != key(x)
  {
    var ys := xs + [x];
    if DistinctBy(ys, key) {
      forall i, j | 0 <= i < j < |xs| ensures key(xs[i]) != key(xs[j]) {
        assert xs[i] == ys[i] && xs[j] == ys[j];
      }
      forall y | y in xs ensures key(y) != key(x) {
        var k :| 0 <= k < |xs| && xs[k] == y;
        assert ys[k] == y && ys[|xs|] == x;
      }
    }
    if DistinctBy(xs, key) && forall y :: y in xs ==> key(y) != key(x) {
      forall i, j | 0 <= i < j < |ys| ensures key(ys[i]) != key(ys[j]) {
        if j == |xs| {
          assert ys[i] == xs[i] && xs[i] in xs;
        } else {
          assert ys[i] == xs[i] && ys[j] == xs[j];
        }
      }
    }
  }

  lemma DistinctByTail<T(!new), K>(xs: seq<T>, key: T -> K)
    requires xs != [] && DistinctBy(xs, key)
    ensures DistinctBy(xs[1..], key)
    ensures forall y :: y in xs[1..] ==> key(y) != key(xs[0])
  {
  }

  lemma DistinctByCons<T(!new), K>(x: T, ys: seq<T>, key: T -> K)
    requires DistinctBy(ys, key)
    requires forall y :: y in ys ==> key(y) != key(x)
    ensures DistinctBy([x] + ys, key)
  {
  }

  /** Retaining a sub-sequence keeps keys distinct. */
  lemma {:induction false} FilterDistinctBy<T(!new), K>(xs: seq<T>, keep: T -> bool, key: T -> K)
    requires DistinctBy(xs, key)
    ensures DistinctBy(Filter(xs, keep), key)
    decreases |xs|
  {
    if xs != [] {
      DistinctByTail(xs, key);
      FilterDistinctBy(xs[1..], keep, key);
      var fr := Filter(xs[1..], keep);
      if keep(xs[0]) {
        assert Filter(xs, keep) == [xs[0]] + fr;
        DistinctByCons(xs[0], fr, key);
      } else {
        assert Filter(xs, keep) == fr;
      }
    }
  }
}
