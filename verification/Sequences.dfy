/** Subsequences and permutations. */
module Sequences {

  /** `f` picks the elements of `a` out of `b`, left to right. */
  ghost predicate Picks<T(!new)>(f: seq<nat>, a: seq<T>, b: seq<T>) {
    && |f| == |a|
    && (forall i :: 0 <= i < |f| ==> f[i] < |b| && b[f[i]] == a[i])
    && (forall i, j :: 0 <= i < j < |f| ==> f[i] < f[j])
  }

  ghost predicate IsSubsequence<T(!new)>(a: seq<T>, b: seq<T>) { exists f: seq<nat> :: Picks(f, a, b) }

  lemma SubsequenceGrows<T(!new)>(a: seq<T>, b: seq<T>, x: T)
    requires IsSubsequence(a, b)
    ensures IsSubsequence(a, b + [x]) && IsSubsequence(a + [x], b + [x])
  {
    var f: seq<nat> :| Picks(f, a, b);
    assert Picks(f, a, b + [x]);
    assert Picks(f + [|b|], a + [x], b + [x]);
  }

  lemma EmptySubsequence<T(!new)>(b: seq<T>)
    ensures IsSubsequence([], b)
  {
    assert Picks([], [], b);
  }

  /** An order in which `n` things complete. */
  predicate IsOrder(order: seq<nat>, n: nat) {
    && |order| == n
    && (forall i :: 0 <= i < n ==> order[i] < n)
    && (forall i, j :: 0 <= i < j < n ==> order[i] != order[j])
  }

  function Arranged<T>(order: seq<nat>, s: seq<T>): seq<T>
    requires forall i :: 0 <= i < |order| ==> order[i] < |s|
  {
    seq(|order|, i requires 0 <= i < |order| => s[order[i]])
  }

  lemma {:induction false} Bounded(n: nat, s: set<nat>)
    requires forall x :: x in s ==> x < n
    ensures |s| <= n
  {
    if n == 0 {
      assert s == {};
    } else {
      Bounded(n - 1, s - {n - 1});
    }
  }

  ghost function Elements(order: seq<nat>): set<nat> { set x | x in order }

  lemma {:induction false} DistinctSize(order: seq<nat>)
    requires forall i, j :: 0 <= i < j < |order| ==> order[i] != order[j]
    ensures |Elements(order)| == |order|
  {
    if order != [] {
      var n := |order| - 1;
      DistinctSize(order[..n]);
      assert order == order[..n] + [order[n]];
      assert order[n] !in Elements(order[..n]);
      assert Elements(order) == Elements(order[..n]) + {order[n]};
    }
  }

  /** An order hits every position. */
  lemma OrderIsOnto(order: seq<nat>, n: nat, k: nat)
    requires IsOrder(order, n) && k < n
    ensures k in order
  {
    DistinctSize(order);
    if k !in order {
      assert |Elements(order) + {k}| == n + 1;
      Bounded(n, Elements(order) + {k});
    }
  }

  /** Leaving out the last position leaves an order of the others. */
  lemma OrderWithoutLast(order: seq<nat>, n: nat, p: nat)
    requires IsOrder(order, n + 1) && p < |order| && order[p] == n
    ensures IsOrder(order[..p] + order[p + 1..], n)
  {
    var rest := order[..p] + order[p + 1..];
    assert forall i :: 0 <= i < n ==> rest[i] == if i < p then order[i] else order[i + 1];
    forall i | 0 <= i < n ensures rest[i] < n { }
  }

  lemma SplitArranged<T>(order: seq<nat>, s: seq<T>, p: nat)
    requires p < |order| && (forall i :: 0 <= i < |order| ==> order[i] < |s|)
    ensures Arranged(order, s) == Arranged(order[..p], s) + [s[order[p]]] + Arranged(order[p + 1..], s)
  {
  }

  lemma ShortenArranged<T>(left: seq<nat>, right: seq<nat>, s: seq<T>, n: nat)
    requires n <= |s| && (forall i :: 0 <= i < |left| ==> left[i] < n) && (forall i :: 0 <= i < |right| ==> right[i] < n)
    ensures Arranged(left + right, s[..n]) == Arranged(left, s) + Arranged(right, s)
  {
  }

  lemma {:induction false} ArrangedIsPermutation<T>(order: seq<nat>, s: seq<T>)
    requires IsOrder(order, |s|)
    ensures multiset(Arranged(order, s)) == multiset(s)
    decreases |s|
  {
    hide Arranged;
    if s == [] {
      NothingArranged(order, s);
    } else {
      var n := |s| - 1;
      OrderIsOnto(order, |s|, n);
      var p :| 0 <= p < |order| && order[p] == n;
      var left, right := order[..p], order[p + 1..];
      OrderWithoutLast(order, n, p);
      ArrangedIsPermutation(left + right, s[..n]);
      SplitArranged(order, s, p);
      assert forall i :: 0 <= i < |left| ==> left[i] == (left + right)[i];
      assert forall i :: 0 <= i < |right| ==> right[i] == (left + right)[|left| + i];
      ShortenArranged(left, right, s, n);
      assert s == s[..n] + [s[n]];
    }
  }

  lemma NothingArranged<T>(order: seq<nat>, s: seq<T>)
    requires order == [] && s == []
    ensures Arranged(order, s) == s
  {
  }
}
