/** Sums over sequences, and the update laws the accounting proofs are built from. */
module Collections {

  datatype Option<+T> = None | Some(value: T)

  /** The total of `f` over the elements of `xs`. */
  ghost function Sum<T>(xs: seq<T>, f: T -> int): int {
    if xs == [] then 0 else Sum(xs[..|xs| - 1], f) + f(xs[|xs| - 1])
  }

  lemma SumSnoc<T>(xs: seq<T>, x: T, f: T -> int)
    ensures Sum(xs + [x], f) == Sum(xs, f) + f(x)
  {
    assert (xs + [x])[..|xs|] == xs;
  }

  lemma {:induction false} SumAppend<T>(xs: seq<T>, ys: seq<T>, f: T -> int)
    ensures Sum(xs + ys, f) == Sum(xs, f) + Sum(ys, f)
    decreases |ys|
  {
    if ys == [] {
      assert xs + ys == xs;
    } else {
      var last := |ys| - 1;
      SumAppend(xs, ys[..last], f);
      assert xs + ys == (xs + ys[..last]) + [ys[last]];
      SumSnoc(xs + ys[..last], ys[last], f);
    }
  }

  /** Taking the head of a queue takes exactly its weight away. */
  lemma SumHead<T>(xs: seq<T>, f: T -> int)
    requires xs != []
    ensures Sum(xs, f) == f(xs[0]) + Sum(xs[1..], f)
  {
    assert xs == xs[..1] + xs[1..];
    SumAppend(xs[..1], xs[1..], f);
    assert xs[..1] == [] + [xs[0]];
    SumSnoc([], xs[0], f);
  }

  /** Replacing one element changes the sum by the difference of the two weights. */
  lemma {:induction false} SumUpdate<T>(xs: seq<T>, k: nat, x: T, f: T -> int)
    requires k < |xs|
    ensures Sum(xs[k := x], f) == Sum(xs, f) - f(xs[k]) + f(x)
    decreases |xs|
  {
    var last := |xs| - 1;
    if k == last {
      assert xs[k := x][..last] == xs[..last];
    } else {
      SumUpdate(xs[..last], k, x, f);
      assert xs[k := x][..last] == xs[..last][k := x];
    }
  }

  /** A sum of weights that are each at most `cap` is at most `cap` per element. */
  lemma {:induction false} SumAtMost<T>(xs: seq<T>, f: T -> int, cap: int)
    requires forall x :: x in xs ==> f(x) <= cap
    ensures Sum(xs, f) <= cap * |xs|
    decreases |xs|
  {
    if xs != [] {
      var init := xs[..|xs| - 1];
      SumAtMost(init, f, cap);
      assert xs[|xs| - 1] in xs;
      assert cap * |xs| == cap * |init| + cap;
    }
  }

  lemma {:induction false} SumAtLeast<T>(xs: seq<T>, f: T -> int, floor: int)
    requires forall x :: x in xs ==> floor <= f(x)
    ensures floor * |xs| <= Sum(xs, f)
    decreases |xs|
  {
    if xs != [] {
      var init := xs[..|xs| - 1];
      SumAtLeast(init, f, floor);
      assert xs[|xs| - 1] in xs;
      assert floor * |xs| == floor * |init| + floor;
    }
  }

  /** Pointwise equal weights give equal sums. */
  lemma {:induction false} SumSame<T>(xs: seq<T>, f: T -> int, g: T -> int)
    requires forall x :: x in xs ==> f(x) == g(x)
    ensures Sum(xs, f) == Sum(xs, g)
    decreases |xs|
  {
    if xs != [] {
      SumSame(xs[..|xs| - 1], f, g);
      assert xs[|xs| - 1] in xs;
    }
  }

  /** A sum does not depend on the order of the elements. */
  lemma {:induction false} SumPermuted<T>(xs: seq<T>, ys: seq<T>, f: T -> int)
    requires multiset(xs) == multiset(ys)
    ensures Sum(xs, f) == Sum(ys, f)
    decreases |xs|
  {
    assert |multiset(xs)| == |multiset(ys)|;
    if xs != [] {
      var last := |xs| - 1;
      var x := xs[last];
      assert x in multiset(ys);
      var k :| 0 <= k < |ys| && ys[k] == x;
      var rest := ys[..k] + ys[k + 1..];
      assert xs == xs[..last] + [x];
      assert ys == ys[..k] + [x] + ys[k + 1..];
      assert multiset(rest) == multiset(ys) - multiset{x};
      assert multiset(xs[..last]) == multiset(xs) - multiset{x};
      SumPermuted(xs[..last], rest, f);
      SumAppend(ys[..k] + [x], ys[k + 1..], f);
      SumSnoc(ys[..k], x, f);
      SumAppend(ys[..k], ys[k + 1..], f);
    }
  }

  /** One for `x` itself, zero for anything else. */
  ghost function Is<T(!new)>(x: T): T -> int {
    (y: T) => if y == x then 1 else 0
  }

  /** Weighing one element by one counts it. */
  lemma {:induction false} SumCounts<T(!new)>(xs: seq<T>, x: T)
    ensures Sum(xs, Is(x)) == multiset(xs)[x]
    decreases |xs|
  {
    if xs != [] {
      var last := |xs| - 1;
      SumCounts(xs[..last], x);
      assert xs == xs[..last] + [xs[last]];
    }
  }

  /** No element occurs twice. */
  predicate Distinct<T(==)>(xs: seq<T>) {
    forall i, j :: 0 <= i < j < |xs| ==> xs[i] != xs[j]
  }

  /** A duplicate-free list has each of its elements once. */
  lemma {:induction false} DistinctCount<T>(xs: seq<T>, x: T)
    requires Distinct(xs)
    ensures multiset(xs)[x] == if x in xs then 1 else 0
    decreases |xs|
  {
    if xs != [] {
      var last := |xs| - 1;
      DistinctCount(xs[..last], x);
      assert xs == xs[..last] + [xs[last]];
    }
  }

  lemma DistinctTail<T>(xs: seq<T>)
    requires xs != [] && Distinct(xs)
    ensures Distinct(xs[1..]) && xs[0] !in xs[1..]
  {
    assert forall k :: 0 <= k < |xs[1..]| ==> xs[1..][k] == xs[k + 1];
  }
}
