/**
 * Orders over a finite index range. A completion order of n tasks lists every
 * index 0 .. n-1 exactly once; picking a sequence's elements along such an
 * order is how the model states "the same elements, in some other order".
 */
module Sequences {

  /** The indices 0 .. n-1, ascending. */
  function Indices(n: nat): (r: seq<nat>)
    ensures |r| == n
    ensures forall i :: 0 <= i < n ==> r[i] == i
  {
    if n == 0 then [] else Indices(n - 1) + [n - 1]
  }

  /** Every index below n occurs in `order` exactly once, and nothing else does. */
  predicate IsCompletionOrder(order: seq<nat>, n: nat)
  {
    |order| == n && InRange(order, n) && multiset(order) == multiset(Indices(n))
  }

  predicate InRange(order: seq<nat>, n: nat)
  {
    forall k :: 0 <= k < |order| ==> order[k] < n
  }

  /** No value occurs twice in `s`. */
  predicate NoDuplicates<T(==)>(s: seq<T>)
  {
    forall x | x in multiset(s) :: multiset(s)[x] == 1
  }

  /** The elements of `s` at the positions `order` names, in that order. */
  function Pick<T>(s: seq<T>, order: seq<nat>): (r: seq<T>)
    requires InRange(order, |s|)
    ensures |r| == |order|
    ensures forall k :: 0 <= k < |order| ==> r[k] == s[order[k]]
  {
    if order == [] then [] else [s[order[0]]] + Pick(s, order[1..])
  }

  /** Every index below n appears somewhere in a completion order of n tasks. */
  lemma OrderCovers(order: seq<nat>, n: nat, i: nat)
    requires IsCompletionOrder(order, n) && i < n
    ensures exists k :: 0 <= k < |order| && order[k] == i
  {
    assert Indices(n)[i] == i;
    assert i in multiset(order);
  }

  lemma PickConcat<T>(s: seq<T>, u: seq<nat>, v: seq<nat>)
    requires InRange(u, |s|) && InRange(v, |s|)
    ensures InRange(u + v, |s|) && Pick(s, u + v) == Pick(s, u) + Pick(s, v)
  {
  }

  /** Removing the element at position j takes exactly that element out of the multiset. */
  lemma MultisetRemoveAt<T>(b: seq<T>, j: nat)
    requires j < |b|
    ensures multiset(b[..j] + b[j + 1..]) == multiset(b) - multiset{b[j]}
  {
    assert b == b[..j] + [b[j]] + b[j + 1..];
  }

  /** Moving one index to the front of an order does not change what is picked, as a multiset. */
  lemma PickMoveToFront<T>(s: seq<T>, pre: seq<nat>, x: nat, post: seq<nat>)
    requires InRange(pre, |s|) && x < |s| && InRange(post, |s|)
    ensures InRange(pre + [x] + post, |s|) && InRange(pre + post, |s|)
    ensures multiset(Pick(s, pre + [x] + post)) == multiset{s[x]} + multiset(Pick(s, pre + post))
  {
    PickConcat(s, pre, [x]);
    PickConcat(s, pre + [x], post);
    PickConcat(s, pre, post);
  }

  /** Finds the first index of `a` in `b` and splits `b` around it. */
  lemma SplitAtFirst(a: seq<nat>, b: seq<nat>, n: nat) returns (pre: seq<nat>, post: seq<nat>)
    requires a != [] && multiset(a) == multiset(b) && InRange(b, n)
    ensures b == pre + [a[0]] + post
    ensures multiset(a[1..]) == multiset(pre + post)
    ensures a[0] < n && InRange(pre, n) && InRange(post, n) && InRange(pre + post, n)
  {
    assert a[0] in multiset(a);
    var j :| 0 <= j < |b| && b[j] == a[0];
    pre, post := b[..j], b[j + 1..];
    assert b == pre + [a[0]] + post;
    MultisetRemoveAt(b, j);
    MultisetRemoveAt(a, 0);
  }

  /** Picking along two orders holding the same indices yields the same multiset. */
  lemma {:induction false} PickSameMultiset<T>(s: seq<T>, a: seq<nat>, b: seq<nat>)
    requires InRange(a, |s|) && InRange(b, |s|)
    requires multiset(a) == multiset(b)
    ensures multiset(Pick(s, a)) == multiset(Pick(s, b))
    decreases |a|
  {
    if a == [] {
      assert |b| == |multiset(b)| == 0;
    } else {
      var pre, post := SplitAtFirst(a, b, |s|);
      assert InRange(a[1..], |s|);
      PickSameMultiset(s, a[1..], pre + post);
      PickMoveToFront(s, pre, a[0], post);
      assert Pick(s, a) == [s[a[0]]] + Pick(s, a[1..]);
      assert multiset(Pick(s, a)) == multiset{s[a[0]]} + multiset(Pick(s, a[1..]));
    }
  }

  lemma PickIndices<T>(s: seq<T>)
    ensures InRange(Indices(|s|), |s|) && Pick(s, Indices(|s|)) == s
  {
  }

  /** Picking along a completion order permutes `s`: nothing lost, nothing duplicated. */
  lemma PickPermutes<T>(s: seq<T>, order: seq<nat>)
    requires IsCompletionOrder(order, |s|)
    ensures InRange(order, |s|) && |Pick(s, order)| == |s|
    ensures multiset(Pick(s, order)) == multiset(s)
  {
    PickSameMultiset(s, order, Indices(|s|));
    PickIndices(s);
  }

  lemma NoDuplicatesOfPermutation<T>(s: seq<T>, t: seq<T>)
    requires multiset(s) == multiset(t) && NoDuplicates(s)
    ensures NoDuplicates(t)
  {
  }

  lemma NoDuplicatesTail<T>(s: seq<T>)
    requires s != [] && NoDuplicates(s)
    ensures NoDuplicates(s[1..]) && s[0] !in s[1..]
  {
    assert s == [s[0]] + s[1..];
    assert multiset(s) == multiset([s[0]]) + multiset(s[1..]);
    forall y | y in multiset(s[1..])
      ensures multiset(s[1..])[y] == 1
    {
      assert y in multiset(s);
    }
    assert multiset(s)[s[0]] == 1;
    assert multiset(s[1..])[s[0]] == 0;
  }

  /** `f` applied to each element, in order, as `iter().map(f).collect()` builds it. */
  function Map<A, B>(f: A -> B, s: seq<A>): (r: seq<B>)
    ensures |r| == |s|
    ensures forall i :: 0 <= i < |s| ==> r[i] == f(s[i])
  {
    if s == [] then [] else [f(s[0])] + Map(f, s[1..])
  }

  /** Mapping one more element appends exactly its image. */
  lemma MapAppend<A, B>(f: A -> B, s: seq<A>, x: A)
    ensures Map(f, s + [x]) == Map(f, s) + [f(x)]
  {
  }
}
