/** Shared vocabulary: optional values, first-match search, replacement by predicate,
    and sums over tuples with the facts about appending and replacing one element. */
module Base {

  datatype Option<+T> = None | Some(value: T)

  type Id = string

  /** Microseconds on one clock. */
  type Time = int

  /** The position of the first element that satisfies `p`, or `|xs|` when there is none. */
  function FirstIndex<T>(xs: seq<T>, p: T -> bool): (i: nat)
    ensures i <= |xs|
    ensures i < |xs| ==> p(xs[i])
    ensures forall j :: 0 <= j < i ==> !p(xs[j])
  {
    if |xs| == 0 then 0 else if p(xs[0]) then 0 else 1 + FirstIndex(xs[1..], p)
  }

  /** `next((x for x in xs if p(x)), None)`. */
  function Find<T>(xs: seq<T>, p: T -> bool): (r: Option<T>)
    ensures r.Some? ==> p(r.value) && r.value in xs
    ensures r.None? ==> forall x :: x in xs ==> !p(x)
  {
    var i := FirstIndex(xs, p);
    if i < |xs| then Some(xs[i]) else None
  }

  /** `tuple(v if p(x) else x for x in xs)`. */
  function Substitute<T>(xs: seq<T>, p: T -> bool, v: T): (r: seq<T>)
    ensures |r| == |xs|
    ensures forall i :: 0 <= i < |xs| ==> r[i] == if p(xs[i]) then v else xs[i]
  {
    seq(|xs|, i requires 0 <= i < |xs| => if p(xs[i]) then v else xs[i])
  }

  /** No two positions share a key. */
  ghost predicate Distinct<T, K>(xs: seq<T>, key: T -> K) {
    forall i, j :: 0 <= i < |xs| && 0 <= j < |xs| && key(xs[i]) == key(xs[j]) ==> i == j
  }

  lemma DistinctAppend<T, K>(xs: seq<T>, x: T, key: T -> K)
    requires Distinct(xs, key)
    requires forall y :: y in xs ==> key(y) != key(x)
    ensures Distinct(xs + [x], key)
  {
  }

  lemma DistinctUpdate<T, K>(xs: seq<T>, i: nat, x: T, key: T -> K)
    requires i < |xs| && Distinct(xs, key) && key(x) == key(xs[i])
    ensures Distinct(xs[i := x], key)
  {
  }

  /** When the predicate singles out one element, substitution is one update. */
  lemma SubstituteOne<T>(xs: seq<T>, p: T -> bool, i: nat, v: T)
    requires i < |xs|
    requires forall j :: 0 <= j < |xs| ==> (p(xs[j]) <==> j == i)
    ensures Substitute(xs, p, v) == xs[i := v]
  {
  }

  function Sum<T>(xs: seq<T>, f: T -> int): int {
    if |xs| == 0 then 0 else Sum(xs[..|xs| - 1], f) + f(xs[|xs| - 1])
  }

  lemma SumAppend<T>(xs: seq<T>, x: T, f: T -> int)
    ensures Sum(xs + [x], f) == Sum(xs, f) + f(x)
  {
    assert (xs + [x])[..|xs|] == xs;
  }

  lemma SumOne<T>(x: T, f: T -> int)
    ensures Sum([x], f) == f(x)
  {
    assert [x][..0] == [];
  }

  lemma {:induction false} SumUpdate<T>(xs: seq<T>, i: nat, v: T, f: T -> int)
    requires i < |xs|
    ensures Sum(xs[i := v], f) == Sum(xs, f) - f(xs[i]) + f(v)
  {
    var n := |xs| - 1;
    if i == n {
      assert xs[i := v][..n] == xs[..n];
    } else {
      SumUpdate(xs[..n], i, v, f);
      assert xs[i := v][..n] == xs[..n][i := v];
    }
  }

  lemma {:induction false} SumConcat<T>(xs: seq<T>, ys: seq<T>, f: T -> int)
    ensures Sum(xs + ys, f) == Sum(xs, f) + Sum(ys, f)
  {
    if |ys| == 0 {
      assert xs + ys == xs;
    } else {
      var n := |ys| - 1;
      SumConcat(xs, ys[..n], f);
      assert (xs + ys)[..|xs + ys| - 1] == xs + ys[..n];
    }
  }

  lemma {:induction false} SumOrder<T>(xs: seq<T>, f: T -> int, g: T -> int)
    requires forall x :: x in xs ==> f(x) <= g(x)
    ensures Sum(xs, f) <= Sum(xs, g)
  {
    if |xs| > 0 {
      SumOrder(xs[..|xs| - 1], f, g);
    }
  }

  lemma {:induction false} SumAgree<T>(xs: seq<T>, f: T -> int, g: T -> int)
    requires forall x :: x in xs ==> f(x) == g(x)
    ensures Sum(xs, f) == Sum(xs, g)
  {
    if |xs| > 0 {
      SumAgree(xs[..|xs| - 1], f, g);
    }
  }

  lemma {:induction false} SumNonNegative<T>(xs: seq<T>, f: T -> int)
    requires forall x :: x in xs ==> f(x) >= 0
    ensures Sum(xs, f) >= 0
  {
    if |xs| > 0 {
      SumNonNegative(xs[..|xs| - 1], f);
    }
  }

  lemma {:induction false} SumZero<T>(xs: seq<T>, f: T -> int)
    requires forall x :: x in xs ==> f(x) == 0
    ensures Sum(xs, f) == 0
  {
    if |xs| > 0 {
      SumZero(xs[..|xs| - 1], f);
    }
  }

  /** One non-negative element is at most the sum of them all. */
  lemma {:induction false} SumAtLeast<T>(xs: seq<T>, i: nat, f: T -> int)
    requires i < |xs|
    requires forall x :: x in xs ==> f(x) >= 0
    ensures Sum(xs, f) >= f(xs[i])
  {
    var n := |xs| - 1;
    if i == n {
      SumNonNegative(xs[..n], f);
    } else {
      SumAtLeast(xs[..n], i, f);
    }
  }

  // ----- filtering

  function Filter<T>(xs: seq<T>, p: T -> bool): (r: seq<T>)
    ensures forall x :: x in r ==> x in xs && p(x)
    ensures forall x :: x in xs && p(x) ==> x in r
  {
    if |xs| == 0 then []
    else Filter(xs[..|xs| - 1], p) + if p(xs[|xs| - 1]) then [xs[|xs| - 1]] else []
  }

  lemma FilterLast<T>(xs: seq<T>, x: T, p: T -> bool)
    ensures Filter(xs + [x], p) == Filter(xs, p) + if p(x) then [x] else []
  {
    assert (xs + [x])[..|xs|] == xs;
  }

  lemma {:induction false} FilterAll<T>(xs: seq<T>, p: T -> bool)
    requires forall i :: 0 <= i < |xs| ==> p(xs[i])
    ensures Filter(xs, p) == xs
  {
    if |xs| > 0 {
      var n := |xs| - 1;
      FilterAll(xs[..n], p);
      FilterLast(xs[..n], xs[n], p);
      hide Filter;
      assert xs == xs[..n] + [xs[n]];
    }
  }

  lemma {:induction false} FilterTwice<T>(xs: seq<T>, p: T -> bool, q: T -> bool, both: T -> bool)
    requires forall x :: x in xs ==> (both(x) <==> p(x) && q(x))
    ensures Filter(Filter(xs, p), q) == Filter(xs, both)
  {
    if |xs| > 0 {
      var n := |xs| - 1;
      FilterTwice(xs[..n], p, q, both);
      var kept := Filter(xs[..n], p);
      if p(xs[n]) {
        assert (kept + [xs[n]])[..|kept|] == kept;
      } else {
        assert kept + [] == kept;
      }
    }
  }

  lemma {:induction false} FilterDistinct<T, K>(xs: seq<T>, p: T -> bool, key: T -> K)
    requires Distinct(xs, key)
    ensures Distinct(Filter(xs, p), key)
  {
    if |xs| > 0 {
      var n := |xs| - 1;
      FilterDistinct(xs[..n], p, key);
      assert forall x :: x in Filter(xs[..n], p) ==> x in xs[..n];
      if p(xs[n]) {
        DistinctAppend(Filter(xs[..n], p), xs[n], key);
      }
    }
  }

  /** When the predicate leaves out one element, a sum loses that element's term. */
  lemma {:induction false} FilterOneOut<T>(xs: seq<T>, i: nat, p: T -> bool, f: T -> int)
    requires i < |xs| && forall j :: 0 <= j < |xs| ==> (p(xs[j]) <==> j != i)
    ensures Sum(Filter(xs, p), f) == Sum(xs, f) - f(xs[i])
  {
    var n := |xs| - 1;
    if i == n {
      FilterAll(xs[..n], p);
      assert Filter(xs, p) == xs[..n];
    } else {
      FilterOneOut(xs[..n], i, p, f);
      SumAppend(Filter(xs[..n], p), xs[n], f);
    }
  }

  /** A sum splits into the elements that satisfy a predicate and those that do not. */
  lemma {:induction false} FilterSplitsSum<T>(xs: seq<T>, p: T -> bool, q: T -> bool, f: T -> int)
    requires forall x :: x in xs ==> (q(x) <==> !p(x))
    ensures Sum(Filter(xs, p), f) + Sum(Filter(xs, q), f) == Sum(xs, f)
  {
    if |xs| > 0 {
      var n := |xs| - 1;
      FilterSplitsSum(xs[..n], p, q, f);
      SumAppend(Filter(xs[..n], p), xs[n], f);
      SumAppend(Filter(xs[..n], q), xs[n], f);
      assert Filter(xs, if p(xs[n]) then q else p) == Filter(xs[..n], if p(xs[n]) then q else p);
    }
  }
}
