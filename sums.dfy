/** Finite sums over sequences, and the fact that a sum does not depend on the order of its terms. */
module Sums {

  /** The sum of a sequence of natural numbers (`torch.sum` of an integer tensor, or a running total). */
  function Sum(xs: seq<nat>): nat
  {
    if |xs| == 0 then 0 else xs[0] + Sum(xs[1..])
  }

  /** Appending one more term adds it to the total. */
  lemma {:induction false} SumAppend(xs: seq<nat>, x: nat)
    ensures Sum(xs + [x]) == Sum(xs) + x
  {
    if |xs| == 0 {
      assert xs + [x] == [x];
    } else {
      assert (xs + [x])[1..] == xs[1..] + [x];
      SumAppend(xs[1..], x);
    }
  }

  /** The real-valued sum of `f` over the elements of `s`, taken from the front. */
  function SumOf<T>(s: seq<T>, f: T -> real): real
  {
    if |s| == 0 then 0.0 else f(s[0]) + SumOf(s[1..], f)
  }

  /** Pairs up two sequences of equal length, position by position. */
  function Zip<A, B>(a: seq<A>, b: seq<B>): seq<(A, B)>
    requires |a| == |b|
  {
    seq(|a|, i requires 0 <= i < |a| => (a[i], b[i]))
  }

  lemma ZipTail<A, B>(a: seq<A>, b: seq<B>)
    requires |a| == |b| && 0 < |a|
    ensures Zip(a, b)[0] == (a[0], b[0]) && Zip(a, b)[1..] == Zip(a[1..], b[1..])
  {
  }

  /** Taking the term at position k out of the sum leaves the sum of the rest. */
  lemma {:induction false} SumOfRemove<T>(s: seq<T>, f: T -> real, k: nat)
    requires k < |s|
    ensures SumOf(s, f) == f(s[k]) + SumOf(s[..k] + s[k + 1..], f)
  {
    if k == 0 {
      assert s[..0] + s[1..] == s[1..];
    } else {
      SumOfRemove(s[1..], f, k - 1);
      var rest := s[..k] + s[k + 1..];
      assert rest[0] == s[0];
      assert rest[1..] == s[1..][..k - 1] + s[1..][k..];
    }
  }

  /** Reordering the terms does not change the sum: only the multiset of terms matters. */
  lemma {:induction false} SumOfPermutation<T>(a: seq<T>, b: seq<T>, f: T -> real)
    requires multiset(a) == multiset(b)
    ensures SumOf(a, f) == SumOf(b, f)
    decreases |a|
  {
    if |a| == 0 {
      assert |b| == |multiset(b)| == 0;
    } else {
      assert a[0] in multiset(b);
      var k :| 0 <= k < |b| && b[k] == a[0];
      var rest := b[..k] + b[k + 1..];
      RemoveOne(a, b, k);
      SumOfPermutation(a[1..], rest, f);
      SumOfRemove(b, f, k);
    }
  }

  /** Applies `f` to every element. */
  function Map<A, B>(s: seq<A>, f: A -> B): seq<B>
  {
    seq(|s|, i requires 0 <= i < |s| => f(s[i]))
  }

  lemma MapConcat<A, B>(x: seq<A>, y: seq<A>, f: A -> B)
    ensures Map(x + y, f) == Map(x, f) + Map(y, f)
  {
  }

  /** Mapping two sequences with the same elements gives two sequences with the same elements. */
  lemma {:induction false} MapPermutation<A, B>(a: seq<A>, b: seq<A>, f: A -> B)
    requires multiset(a) == multiset(b)
    ensures multiset(Map(a, f)) == multiset(Map(b, f))
    decreases |a|
  {
    if |a| == 0 {
      assert |b| == |multiset(b)| == 0;
      assert Map(a, f) == [] == Map(b, f);
    } else {
      assert a[0] in multiset(b);
      var k :| 0 <= k < |b| && b[k] == a[0];
      var rest := b[..k] + b[k + 1..];
      RemoveOne(a, b, k);
      MapPermutation(a[1..], rest, f);
      MapConcat([a[0]], a[1..], f);
      assert a == [a[0]] + a[1..];
      MapConcat(b[..k], [b[k]] + b[k + 1..], f);
      MapConcat([b[k]], b[k + 1..], f);
      assert b == b[..k] + ([b[k]] + b[k + 1..]);
      MapConcat(b[..k], b[k + 1..], f);
      assert Map([a[0]], f) == [f(a[0])];
      assert Map([b[k]], f) == [f(b[k])];
    }
  }

  /** Removing the same element from two sequences with the same elements keeps them so. */
  lemma RemoveOne<A>(a: seq<A>, b: seq<A>, k: nat)
    requires multiset(a) == multiset(b) && 0 < |a| && k < |b| && b[k] == a[0]
    ensures multiset(a[1..]) == multiset(b[..k] + b[k + 1..])
  {
    assert a == [a[0]] + a[1..];
    assert multiset(a) == multiset{a[0]} + multiset(a[1..]);
    assert b == b[..k] + [b[k]] + b[k + 1..];
    assert multiset(b) == multiset(b[..k]) + multiset{b[k]} + multiset(b[k + 1..]);
    assert multiset(a[1..]) == multiset(a) - multiset{a[0]};
    assert multiset(b[..k] + b[k + 1..]) == multiset(b) - multiset{b[k]};
  }
}
