/** The Kotlin collection operations the application uses on `List`:
    `map`, `flatMap`, `filter` and `find`, on Dafny sequences. */
module Lists {
  import opened Optional

  /** `xs.map(f)`: applies `f` to each element, keeping length and order. */
  function Map<A, B>(f: A -> B, xs: seq<A>): (r: seq<B>)
    ensures |r| == |xs|
    ensures forall i :: 0 <= i < |xs| ==> r[i] == f(xs[i])
  {
    if xs == [] then [] else [f(xs[0])] + Map(f, xs[1..])
  }

  /** Mapping with a left inverse, element by element, gives the list back. */
  lemma MapLeftInverse<A, B>(f: A -> B, g: B -> A, xs: seq<A>)
    requires forall i :: 0 <= i < |xs| ==> g(f(xs[i])) == xs[i]
    ensures Map(g, Map(f, xs)) == xs
  {
  }

  /** Mapping two functions that agree on every element gives the same list. */
  lemma MapPointwise<A, B>(f: A -> B, g: A -> B, xs: seq<A>)
    requires forall i :: 0 <= i < |xs| ==> f(xs[i]) == g(xs[i])
    ensures Map(f, xs) == Map(g, xs)
  {
  }

  /** Sum of a list of integers. */
  function Sum(ns: seq<int>): int
  {
    if ns == [] then 0 else ns[0] + Sum(ns[1..])
  }

  /** `xs.flatMap(f)`: the lists `f(x)` of every element `x`, concatenated in order. */
  function FlatMap<A, B>(f: A -> seq<B>, xs: seq<A>): seq<B>
  {
    if xs == [] then [] else f(xs[0]) + FlatMap(f, xs[1..])
  }

  /** `flatMap` distributes over concatenation of its argument. */
  lemma {:induction false} FlatMapAppend<A, B>(f: A -> seq<B>, xs: seq<A>, ys: seq<A>)
    ensures FlatMap(f, xs + ys) == FlatMap(f, xs) + FlatMap(f, ys)
  {
    if xs == [] {
      assert xs + ys == ys;
    } else {
      assert (xs + ys)[1..] == xs[1..] + ys;
      FlatMapAppend(f, xs[1..], ys);
    }
  }

  /** The length of `flatMap` is the sum of the lengths of the pieces, as
      measured by any `size` that gives each piece's length. */
  lemma {:induction false} FlatMapLength<A, B>(f: A -> seq<B>, size: A -> int, xs: seq<A>)
    requires forall i :: 0 <= i < |xs| ==> size(xs[i]) == |f(xs[i])|
    ensures |FlatMap(f, xs)| == Sum(Map(size, xs))
  {
    if xs != [] {
      assert forall i :: 1 <= i < |xs| ==> xs[1..][i - 1] == xs[i];
      FlatMapLength(f, size, xs[1..]);
      assert Map(size, xs)[1..] == Map(size, xs[1..]);
    }
  }

  /** An element is in `flatMap` exactly when it is in the piece of some element. */
  lemma {:induction false} FlatMapMembership<A, B>(f: A -> seq<B>, xs: seq<A>, y: B)
    ensures y in FlatMap(f, xs) <==> exists i :: 0 <= i < |xs| && y in f(xs[i])
  {
    if xs != [] {
      FlatMapMembership(f, xs[1..], y);
      if y in f(xs[0]) {
        assert 0 < |xs| && y in f(xs[0]);
      }
      if exists i :: 0 <= i < |xs| && y in f(xs[i]) {
        var i :| 0 <= i < |xs| && y in f(xs[i]);
        if i > 0 {
          assert xs[1..][i - 1] == xs[i];
        }
      }
    }
  }

  /** Position of the piece of element `i` inside `flatMap`: each piece appears,
      unchanged, right after the pieces of the elements before it. */
  lemma FlatMapBlock<A, B>(f: A -> seq<B>, xs: seq<A>, i: nat)
    requires i < |xs|
    ensures var start := |FlatMap(f, xs[..i])|;
      start + |f(xs[i])| <= |FlatMap(f, xs)| &&
      FlatMap(f, xs)[start .. start + |f(xs[i])|] == f(xs[i])
  {
    assert xs == xs[..i] + ([xs[i]] + xs[i + 1..]);
    FlatMapAppend(f, xs[..i], [xs[i]] + xs[i + 1..]);
    assert ([xs[i]] + xs[i + 1..])[1..] == xs[i + 1..];
  }

  /** `xs.filter(p)`: the elements satisfying `p`, in their original order. */
  function Filter<T>(p: T -> bool, xs: seq<T>): (r: seq<T>)
    ensures |r| <= |xs|
    ensures forall i :: 0 <= i < |r| ==> p(r[i])
  {
    if xs == [] then []
    else if p(xs[0]) then [xs[0]] + Filter(p, xs[1..])
    else Filter(p, xs[1..])
  }

  /** `a` is `b` with some elements removed, the rest in the same order. */
  predicate IsSubsequence<T(==)>(a: seq<T>, b: seq<T>)
  {
    if a == [] then true
    else if b == [] then false
    else if a[0] == b[0] then IsSubsequence(a[1..], b[1..])
    else IsSubsequence(a, b[1..])
  }

  /** Adding an element in front of the longer list keeps the relation. */
  lemma {:induction false} SubsequenceSkip<T>(a: seq<T>, b: seq<T>)
    requires b != []
    requires IsSubsequence(a, b[1..])
    ensures IsSubsequence(a, b)
    decreases |a| + |b|
  {
    if a != [] && a[0] == b[0] {
      SubsequenceTail(a, b[1..]);
    }
  }

  /** Dropping the head of a subsequence keeps it a subsequence. */
  lemma {:induction false} SubsequenceTail<T>(a: seq<T>, b: seq<T>)
    requires IsSubsequence(a, b)
    requires a != []
    ensures IsSubsequence(a[1..], b)
    decreases |a| + |b|
  {
    if a[0] == b[0] {
      if a[1..] != [] {
        SubsequenceTail(a[1..], b[1..]);
        SubsequenceSkip(a[1..], b);
      }
    } else {
      SubsequenceTail(a, b[1..]);
      if a[1..] != [] {
        SubsequenceSkip(a[1..], b);
      }
    }
  }

  /** `filter` keeps the survivors in their original order. */
  lemma {:induction false} FilterIsSubsequence<T>(p: T -> bool, xs: seq<T>)
    ensures IsSubsequence(Filter(p, xs), xs)
  {
    if xs != [] {
      FilterIsSubsequence(p, xs[1..]);
      if !p(xs[0]) && Filter(p, xs[1..]) != [] {
        SubsequenceSkip(Filter(p, xs[1..]), xs);
      }
    }
  }

  /** `filter` keeps every occurrence of a satisfying element and no occurrence
      of any other: as a multiset it is exactly the satisfying part of the input. */
  lemma {:induction false} FilterMultiset<T>(p: T -> bool, xs: seq<T>, x: T)
    ensures multiset(Filter(p, xs))[x] == if p(x) then multiset(xs)[x] else 0
  {
    if xs != [] {
      FilterMultiset(p, xs[1..], x);
      assert xs == [xs[0]] + xs[1..];
      assert multiset(xs) == multiset([xs[0]]) + multiset(xs[1..]);
    }
  }

  /** An element is in `filter` exactly when it is in the input and satisfies `p`. */
  lemma FilterMembership<T>(p: T -> bool, xs: seq<T>, x: T)
    ensures x in Filter(p, xs) <==> x in xs && p(x)
  {
    FilterMultiset(p, xs, x);
    assert x in Filter(p, xs) <==> multiset(Filter(p, xs))[x] > 0;
    assert x in xs <==> multiset(xs)[x] > 0;
  }

  /** `xs.find(p)`: the first element satisfying `p`, or null when none does. */
  function FindFirst<T>(p: T -> bool, xs: seq<T>): (r: Option<T>)
    ensures r.None? <==> forall i :: 0 <= i < |xs| ==> !p(xs[i])
    ensures forall i :: 0 <= i < |xs| && p(xs[i]) && (forall j :: 0 <= j < i ==> !p(xs[j]))
              ==> r == Some(xs[i])
  {
    if xs == [] then None
    else if p(xs[0]) then Some(xs[0])
    else
      var r := FindFirst(p, xs[1..]);
      assert forall i :: 1 <= i < |xs| ==> xs[1..][i - 1] == xs[i];
      r
  }

  /** A found element is an element of the list that satisfies the predicate. */
  lemma FindFirstFound<T>(p: T -> bool, xs: seq<T>)
    ensures FindFirst(p, xs).Some? ==>
      FindFirst(p, xs).value in xs && p(FindFirst(p, xs).value)
  {
    if FindFirst(p, xs).Some? {
      var k :| 0 <= k < |xs| && p(xs[k]);
      FirstWitness(p, xs, k);
    }
  }

  /** If some element satisfies `p`, some element is the first to do so. */
  lemma {:induction false} FirstWitness<T>(p: T -> bool, xs: seq<T>, k: nat)
    requires k < |xs| && p(xs[k])
    ensures exists i :: 0 <= i <= k && p(xs[i]) && (forall j :: 0 <= j < i ==> !p(xs[j]))
  {
    if k > 0 && exists j :: 0 <= j < k && p(xs[j]) {
      var j :| 0 <= j < k && p(xs[j]);
      FirstWitness(p, xs, j);
    }
  }
}
