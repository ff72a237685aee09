/** The manager's random choice of items to restock: shuffle a copy of the managed list, keep a prefix. */
module Selection {
  import opened Collections
  import opened Stock
  import System

  function Swapped<T>(s: seq<T>, i: nat, j: nat): (r: seq<T>)
    requires i < |s| && j < |s|
    ensures |r| == |s|
  {
    s[i := s[j]][j := s[i]]
  }

  /** The exchanges of a shuffle from position `i` down; `draws[k]` is the partner drawn for position `k`. */
  function Shuffled<T>(s: seq<T>, draws: seq<nat>, i: nat): (r: seq<T>)
    requires i == 0 || i < |s| == |draws|
    requires forall k :: 0 <= k < |draws| ==> draws[k] <= k
    ensures |r| == |s|
    decreases i
  {
    if i == 0 then s else Shuffled(Swapped(s, i, draws[i]), draws, i - 1)
  }

  lemma SwappedPermutes<T>(s: seq<T>, i: nat, j: nat)
    requires i < |s| && j < |s|
    ensures multiset(Swapped(s, i, j)) == multiset(s)
  {
  }

  lemma {:induction false} ShuffledPermutes<T>(s: seq<T>, draws: seq<nat>, i: nat)
    requires i == 0 || i < |s| == |draws|
    requires forall k :: 0 <= k < |draws| ==> draws[k] <= k
    ensures multiset(Shuffled(s, draws, i)) == multiset(s)
    decreases i
  {
    if i > 0 {
      SwappedPermutes(s, i, draws[i]);
      ShuffledPermutes(Swapped(s, i, draws[i]), draws, i - 1);
    }
  }

  /** A permutation of a duplicate-free list is duplicate-free. */
  lemma PermutedDistinct<T>(s: seq<T>, t: seq<T>)
    requires Distinct(s) && multiset(s) == multiset(t)
    ensures Distinct(t)
  {
    forall i, j | 0 <= i < j < |t| ensures t[i] != t[j] {
      if t[i] == t[j] {
        assert t == t[..i] + [t[i]] + t[i + 1..j] + [t[j]] + t[j + 1..];
        assert multiset(t)[t[i]] >= 2;
        DistinctCount(s, t[i]);
      }
    }
  }

  // ---- every order, each by one outcome of the draws

  predicate Drawable(draws: seq<nat>, n: nat) {
    |draws| == n && forall k :: 0 <= k < n ==> draws[k] <= k
  }

  /** Draws for positions that are not exchanged do not matter. */
  lemma {:induction false} LaterDraws<T>(s: seq<T>, draws: seq<nat>, draws': seq<nat>, i: nat)
    requires i < |s| && Drawable(draws, |s|) && Drawable(draws', |s|)
    requires forall k :: 0 <= k <= i ==> draws[k] == draws'[k]
    ensures Shuffled(s, draws, i) == Shuffled(s, draws', i)
    decreases i
  {
    if i > 0 {
      LaterDraws(Swapped(s, i, draws[i]), draws, draws', i - 1);
    }
  }

  /** Moving the wanted element to position `i` leaves the right ones below it. */
  lemma PlaceOne<T>(s: seq<T>, p: seq<T>, i: nat, j: nat)
    requires 0 < i < |s| == |p| && j <= i && s[j] == p[i]
    requires multiset(s[..i + 1]) == multiset(p[..i + 1]) && s[i + 1..] == p[i + 1..]
    ensures var s' := Swapped(s, i, j); multiset(s'[..i]) == multiset(p[..i]) && s'[i..] == p[i..]
  {
    var s' := Swapped(s, i, j);
    assert s[..i + 1][j := s[i]][i := s[j]] == s'[..i + 1];
    assert s'[..i + 1] == s'[..i] + [p[i]];
    assert p[..i + 1] == p[..i] + [p[i]];
    SwappedPermutes(s[..i + 1], i, j);
    assert s'[..i + 1] == Swapped(s[..i + 1], i, j);
    assert multiset(s'[..i]) + multiset{p[i]} == multiset(p[..i]) + multiset{p[i]};
    assert multiset(s'[..i]) == (multiset(s'[..i]) + multiset{p[i]}) - multiset{p[i]};
    assert s'[i + 1..] == s[i + 1..];
    assert s'[i..] == [p[i]] + s'[i + 1..] && p[i..] == [p[i]] + p[i + 1..];
  }

  lemma {:induction false} DrawsFor<T>(s: seq<T>, p: seq<T>, i: nat) returns (draws: seq<nat>)
    requires i < |s| == |p|
    requires multiset(s[..i + 1]) == multiset(p[..i + 1]) && s[i + 1..] == p[i + 1..]
    ensures Drawable(draws, |s|) && Shuffled(s, draws, i) == p
    decreases i
  {
    if i == 0 {
      draws := seq(|s|, _ => 0);
      assert s[..1] == [s[0]] && p[..1] == [p[0]];
      assert p[0] in multiset(s[..1]);
      assert s == [s[0]] + s[1..] && p == [p[0]] + p[1..];
    } else {
      assert p[..i + 1][i] in multiset(s[..i + 1]);
      var j :| 0 <= j < i + 1 && s[..i + 1][j] == p[i];
      PlaceOne(s, p, i, j);
      assert i - 1 + 1 == i;
      var below := DrawsFor(Swapped(s, i, j), p, i - 1);
      draws := below[i := j];
      LaterDraws(Swapped(s, i, j), below, draws, i - 1);
    }
  }

  /** The shuffle reaches every order of the list. */
  lemma ShuffleReaches<T>(s: seq<T>, p: seq<T>)
    requires s != [] && multiset(p) == multiset(s)
    ensures exists draws :: Drawable(draws, |s|) && Shuffled(s, draws, |s| - 1) == p
  {
    assert |multiset(p)| == |p| && |multiset(s)| == |s|;
    assert s[..|s|] == s && p[..|s|] == p && s[|s|..] == p[|s|..];
    var draws := DrawsFor(s, p, |s| - 1);
  }

  lemma {:induction false} SettledAbove<T>(s: seq<T>, draws: seq<nat>, i: nat, k: nat)
    requires i < |s| && Drawable(draws, |s|) && i < k < |s|
    ensures Shuffled(s, draws, i)[k] == s[k]
    decreases i
  {
    if i > 0 {
      SettledAbove(Swapped(s, i, draws[i]), draws, i - 1, k);
    }
  }

  /** Different outcomes of the draws give different orders of a duplicate-free list. */
  lemma {:induction false} DrawsTold<T>(s: seq<T>, draws: seq<nat>, draws': seq<nat>, i: nat)
    requires i < |s| && Drawable(draws, |s|) && Drawable(draws', |s|) && Distinct(s)
    requires Shuffled(s, draws, i) == Shuffled(s, draws', i)
    ensures forall k :: 0 < k <= i ==> draws[k] == draws'[k]
    decreases i
  {
    if i > 0 {
      var t, t' := Swapped(s, i, draws[i]), Swapped(s, i, draws'[i]);
      SettledAbove(t, draws, i - 1, i);
      SettledAbove(t', draws', i - 1, i);
      assert t[i] == s[draws[i]] && t'[i] == s[draws'[i]];
      PermutedDistinct(s, t) by {
        SwappedPermutes(s, i, draws[i]);
      }
      DrawsTold(t, draws, draws', i - 1);
    }
  }

  /** The members of a list that are not among `items`, in the list's order. */
  function Without<T(==)>(list: seq<T>, items: seq<T>): seq<T> {
    if list == [] then []
    else
      var last := |list| - 1;
      Without(list[..last], items) + if list[last] in items then [] else [list[last]]
  }

  lemma {:induction false} WithoutCounts<T>(list: seq<T>, items: seq<T>, x: T)
    ensures multiset(Without(list, items))[x] == if x in items then 0 else multiset(list)[x]
    decreases |list|
  {
    if list != [] {
      var last := |list| - 1;
      WithoutCounts(list[..last], items, x);
      assert list == list[..last] + [list[last]];
    }
  }

  /** Any duplicate-free list of members is the beginning of some order of a duplicate-free list. */
  lemma Completed<T(!new)>(list: seq<T>, items: seq<T>)
    requires Distinct(list) && Distinct(items) && forall x :: x in items ==> x in list
    ensures multiset(items + Without(list, items)) == multiset(list)
  {
    forall x: T ensures multiset(items + Without(list, items))[x] == multiset(list)[x] {
      WithoutCounts(list, items, x);
      DistinctCount(list, x);
      DistinctCount(items, x);
    }
  }

  ghost predicate Outcome(items: seq<Item>, draws: seq<nat>, count: nat) {
    && Drawable(draws, |MANAGED|) && 1 <= count <= |MANAGED|
    && items == Shuffled(MANAGED, draws, |MANAGED| - 1)[..count]
  }

  /** Every non-empty duplicate-free list of items is the outcome of some draws and some count. */
  lemma EverySelectionPossible(items: seq<Item>)
    requires System.Selectable(items)
    ensures exists draws, count :: Outcome(items, draws, count)
  {
    ManagedDistinct();
    forall x | x in items ensures x in MANAGED {
      NamesDiffer(x, x);
    }
    Completed(MANAGED, items);
    var p := items + Without(MANAGED, items);
    ShuffleReaches(MANAGED, p);
    var draws :| Drawable(draws, |MANAGED|) && Shuffled(MANAGED, draws, |MANAGED| - 1) == p;
    assert p[..|items|] == items;
    assert Outcome(items, draws, |items|);
  }

  method Shuffle(a: array<Item>, draws: seq<nat>)
    requires |draws| == a.Length
    requires forall k :: 0 <= k < |draws| ==> draws[k] <= k
    modifies a
    ensures a.Length > 0 ==> a[..] == Shuffled(old(a[..]), draws, a.Length - 1)
    ensures multiset(a[..]) == multiset(old(a[..]))
  {
    if a.Length == 0 {
      return;
    }
    ghost var before := a[..];
    var i := a.Length - 1;
    while i > 0
      invariant 0 <= i < a.Length
      invariant Shuffled(a[..], draws, i) == Shuffled(before, draws, a.Length - 1)
    {
      ghost var now := a[..];
      var j := draws[i];
      a[i], a[j] := a[j], a[i];
      assert a[..] == Swapped(now, i, j);
      i := i - 1;
    }
    ShuffledPermutes(before, draws, a.Length - 1);
  }

  /** A shuffled copy of a duplicate-free list, cut to `count`. */
  method Pick(list: seq<Item>, draws: seq<nat>, count: nat) returns (items: seq<Item>)
    requires Distinct(list) && 1 <= count <= |list|
    requires |draws| == |list| && forall k :: 0 <= k < |draws| ==> draws[k] <= k
    ensures |items| == count && Distinct(items)
    ensures items == Shuffled(list, draws, |list| - 1)[..count]
    ensures multiset(items) <= multiset(list)
  {
    var copy := new Item[|list|](k requires 0 <= k < |list| => list[k]);
    assert copy[..] == list;
    Shuffle(copy, draws);
    PermutedDistinct(list, copy[..]);
    items := copy[..count];
    assert copy[..] == copy[..count] + copy[count..];
  }

  lemma ManagedDistinct()
    ensures Distinct(MANAGED) && |MANAGED| == 9
  {
  }

  /**
   For every outcome of the shuffle and every count drawn, the result is a selection the step system
   allows: non-empty, duplicate-free, managed items only. The managed list itself is not touched.
   */
  method SelectItemsToRestock(draws: seq<nat>, count: nat) returns (items: seq<Item>)
    requires |draws| == |MANAGED| && forall k :: 0 <= k < |draws| ==> draws[k] <= k
    requires 1 <= count <= |MANAGED|
    ensures System.Selectable(items) && |items| == count
    ensures multiset(items) <= multiset(MANAGED)
  {
    ManagedDistinct();
    items := Pick(MANAGED, draws, count);
  }
}
