/** The array operations the components build their state and their views from: `filter`, a
    `reduce` that adds up a number per element, and the order-preserving subsequence relation. */
module Lists {

  /** `xs.filter(p)`: the elements satisfying `p`, in their original order. */
  function Filter<T(!new)>(xs: seq<T>, p: T -> bool): (r: seq<T>)
    ensures |r| <= |xs|
    ensures forall x :: x in r <==> x in xs && p(x)
  {
    if xs == [] then []
    else (if p(xs[0]) then [xs[0]] else []) + Filter(xs[1..], p)
  }

  /** Filtering distributes over concatenation: the kept elements stay in their order. */
  lemma {:induction false} FilterConcat<T(!new)>(a: seq<T>, b: seq<T>, p: T -> bool)
    ensures Filter(a + b, p) == Filter(a, p) + Filter(b, p)
  {
    if a != [] {
      assert (a + b)[0] == a[0] && (a + b)[1..] == a[1..] + b;
      FilterConcat(a[1..], b, p);
    } else {
      assert a + b == b;
    }
  }

  /** A filter that keeps every element returns the list unchanged. */
  lemma {:induction false} FilterKeepsAll<T(!new)>(xs: seq<T>, p: T -> bool)
    requires forall x :: x in xs ==> p(x)
    ensures Filter(xs, p) == xs
  {
    if xs != [] {
      FilterKeepsAll(xs[1..], p);
    }
  }

  /** Filtering with a predicate that no element satisfies leaves nothing. */
  lemma {:induction false} FilterKeepsNone<T(!new)>(xs: seq<T>, p: T -> bool)
    requires forall x :: x in xs ==> !p(x)
    ensures Filter(xs, p) == []
  {
    if xs != [] {
      FilterKeepsNone(xs[1..], p);
    }
  }

  /** `a` is `b` with some elements left out, the rest in the same order. */
  predicate IsSubsequence<T(==)>(a: seq<T>, b: seq<T>) {
    if a == [] then true
    else if b == [] then false
    else if a[0] == b[0] then IsSubsequence(a[1..], b[1..])
    else IsSubsequence(a, b[1..])
  }

  /** Every element of a subsequence comes from the whole. */
  lemma {:induction false} SubsequenceMembers<T>(a: seq<T>, b: seq<T>)
    requires IsSubsequence(a, b)
    ensures forall x :: x in a ==> x in b
  {
    if a != [] && b != [] {
      if a[0] == b[0] {
        SubsequenceMembers(a[1..], b[1..]);
        assert a == [a[0]] + a[1..] && b == [b[0]] + b[1..];
      } else {
        SubsequenceMembers(a, b[1..]);
      }
    }
  }

  /** A filter result is an order-preserving subsequence of its input. */
  lemma {:induction false} FilterIsSubsequence<T(!new)>(xs: seq<T>, p: T -> bool)
    ensures IsSubsequence(Filter(xs, p), xs)
  {
    if xs != [] {
      FilterIsSubsequence(xs[1..], p);
      var rest := Filter(xs[1..], p);
      if p(xs[0]) {
        assert Filter(xs, p) == [xs[0]] + rest;
        assert ([xs[0]] + rest)[1..] == rest;
      } else {
        assert Filter(xs, p) == rest;
        SkipHeadKeepsSubsequence(rest, xs);
      }
    }
  }

  /** A subsequence of the tail of a list is a subsequence of the list. */
  lemma {:induction false} SkipHeadKeepsSubsequence<T>(a: seq<T>, b: seq<T>)
    requires b != [] && IsSubsequence(a, b[1..])
    ensures IsSubsequence(a, b)
    decreases |a| + |b|
  {
    if a != [] && a[0] == b[0] {
      SubsequenceOfTail(a, b[1..]);
    }
  }

  /** Leaving out the first element of a subsequence keeps it a subsequence. */
  lemma {:induction false} SubsequenceOfTail<T>(a: seq<T>, b: seq<T>)
    requires a != [] && IsSubsequence(a, b)
    ensures IsSubsequence(a[1..], b)
    decreases |a| + |b|
  {
    if a[0] == b[0] {
      SkipHeadKeepsSubsequence(a[1..], b);
    } else {
      SubsequenceOfTail(a, b[1..]);
      SkipHeadKeepsSubsequence(a[1..], b);
    }
  }

  /** How many elements satisfy `p`: `xs.filter(p).length`. */
  function Count<T(!new)>(xs: seq<T>, p: T -> bool): (n: nat)
    ensures n <= |xs|
  {
    |Filter(xs, p)|
  }

  /** When the elements fall into three disjoint classes, the three filters together hold each
      element exactly as often as the list does. */
  lemma {:induction false} FilterPartition3<T(!new)>(xs: seq<T>, p: T -> bool, q: T -> bool, r: T -> bool)
    requires forall x :: x in xs ==> (p(x) || q(x) || r(x))
    requires forall x :: x in xs ==> !(p(x) && q(x)) && !(p(x) && r(x)) && !(q(x) && r(x))
    ensures multiset(Filter(xs, p)) + multiset(Filter(xs, q)) + multiset(Filter(xs, r)) == multiset(xs)
  {
    if xs != [] {
      var x, rest := xs[0], xs[1..];
      assert x in xs;
      assert forall y :: y in rest ==> y in xs;
      FilterPartition3(rest, p, q, r);
      assert multiset(xs) == multiset{x} + multiset(rest) by {
        assert xs == [x] + rest;
      }
      FilterHead(xs, p);
      FilterHead(xs, q);
      FilterHead(xs, r);
      PartitionStep(x, p(x), q(x), r(x), multiset(Filter(rest, p)), multiset(Filter(rest, q)),
        multiset(Filter(rest, r)));
    }
  }

  /** Adding one element to exactly one of three parts adds it once to their union. */
  lemma PartitionStep<T>(x: T, px: bool, qx: bool, rx: bool, a: multiset<T>, b: multiset<T>, c: multiset<T>)
    requires px || qx || rx
    requires !(px && qx) && !(px && rx) && !(qx && rx)
    ensures (if px then multiset{x} else multiset{}) + a + ((if qx then multiset{x} else multiset{}) + b)
      + ((if rx then multiset{x} else multiset{}) + c) == multiset{x} + (a + b + c)
  {
  }

  /** The first element is kept or dropped, then the rest is filtered. */
  lemma FilterHead<T(!new)>(xs: seq<T>, p: T -> bool)
    requires xs != []
    ensures multiset(Filter(xs, p)) ==
      (if p(xs[0]) then multiset{xs[0]} else multiset{}) + multiset(Filter(xs[1..], p))
  {
  }

  /** `xs.reduce((sum, x) => sum + f(x), 0)` */
  function Sum<T>(xs: seq<T>, f: T -> int): int {
    if xs == [] then 0 else f(xs[0]) + Sum(xs[1..], f)
  }

  /** With no negative terms, the sum over the elements kept by a filter is at most the whole sum. */
  lemma {:induction false} SumOfFilterBounded<T(!new)>(xs: seq<T>, p: T -> bool, f: T -> int)
    requires forall x :: x in xs ==> f(x) >= 0
    ensures 0 <= Sum(Filter(xs, p), f) <= Sum(xs, f)
  {
    if xs != [] {
      SumOfFilterBounded(xs[1..], p, f);
      assert xs[0] in xs && f(xs[0]) >= 0;
      var rest := Filter(xs[1..], p);
      if p(xs[0]) {
        assert Filter(xs, p) == [xs[0]] + rest;
        assert ([xs[0]] + rest)[0] == xs[0] && ([xs[0]] + rest)[1..] == rest;
      } else {
        assert Filter(xs, p) == rest;
      }
    }
  }

  /** Sums add up over concatenation. */
  lemma {:induction false} SumConcat<T>(a: seq<T>, b: seq<T>, f: T -> int)
    ensures Sum(a + b, f) == Sum(a, f) + Sum(b, f)
  {
    if a != [] {
      assert (a + b)[0] == a[0] && (a + b)[1..] == a[1..] + b;
      SumConcat(a[1..], b, f);
    } else {
      assert a + b == b;
    }
  }

  /** `xs.map(f)` */
  function Map<T, U>(xs: seq<T>, f: T -> U): (r: seq<U>)
    ensures |r| == |xs|
  {
    if xs == [] then [] else [f(xs[0])] + Map(xs[1..], f)
  }

  /** The element at each position of a mapped list is the image of the element there. */
  lemma {:induction false} MapAt<T, U>(xs: seq<T>, f: T -> U, i: int)
    requires 0 <= i < |xs|
    ensures Map(xs, f)[i] == f(xs[i])
  {
    if i > 0 {
      MapAt(xs[1..], f, i - 1);
    }
  }

  /** Mapping with `f` and then with a `g` that undoes `f` on every element gives the list back. */
  lemma {:induction false} MapUndo<T>(xs: seq<T>, f: T -> T, g: T -> T)
    requires forall x :: x in xs ==> g(f(x)) == x
    ensures Map(Map(xs, f), g) == xs
  {
    if xs != [] {
      MapUndo(xs[1..], f, g);
      assert xs[0] in xs;
      assert Map(xs, f)[1..] == Map(xs[1..], f);
    }
  }

  /** A map that keeps every element's term keeps the sum. */
  lemma {:induction false} SumOfMap<T>(xs: seq<T>, f: T -> T, h: T -> int)
    requires forall x :: x in xs ==> h(f(x)) == h(x)
    ensures Sum(Map(xs, f), h) == Sum(xs, h)
  {
    if xs != [] {
      SumOfMap(xs[1..], f, h);
      assert xs[0] in xs;
      assert Map(xs, f)[1..] == Map(xs[1..], f);
    }
  }
}
