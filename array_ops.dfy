/**
 * The JavaScript array primitives the dashboard is built from
 * (`Array.prototype.filter`, `find` and `reduce`), over sequences,
 * together with the arithmetic sum and mean those reductions compute.
 */
module ArrayOps {
  import opened Wrappers

  /** `s.filter(p)`: the elements satisfying `p`, in their original order. */
  function Filter<T>(s: seq<T>, p: T -> bool): (r: seq<T>)
    ensures |r| <= |s|
    ensures forall x :: x in r ==> x in s && p(x)
    ensures forall x :: x in s && p(x) ==> x in r
  {
    if |s| == 0 then [] else (if p(s[0]) then [s[0]] else []) + Filter(s[1..], p)
  }

  /** `s.find(p)`: the first element satisfying `p`, `undefined` when there is none. */
  function Find<T>(s: seq<T>, p: T -> bool): (r: Option<T>)
    ensures r.None? <==> forall x :: x in s ==> !p(x)
    ensures r.Some? ==> r.value in s && p(r.value)
  {
    if |s| == 0 then None else if p(s[0]) then Some(s[0]) else Find(s[1..], p)
  }

  /** `s.map(f)`. */
  function Map<A, B>(s: seq<A>, f: A -> B): (r: seq<B>)
    ensures |r| == |s|
    ensures forall i :: 0 <= i < |s| ==> r[i] == f(s[i])
  {
    if |s| == 0 then [] else [f(s[0])] + Map(s[1..], f)
  }

  /** `s.reduce(f, init)`: a left fold. */
  function Reduce<T>(s: seq<T>, f: (real, T) -> real, init: real): real
  {
    if |s| == 0 then init else Reduce(s[1..], f, f(init, s[0]))
  }

  /** The arithmetic sum of `f` over `s` (the reference definition of a summing reduce). */
  function SumOf<T>(s: seq<T>, f: T -> real): real
  {
    if |s| == 0 then 0.0 else f(s[0]) + SumOf(s[1..], f)
  }

  /** The arithmetic mean of `f` over `s`, 0 for an empty `s`. */
  function MeanOf<T>(s: seq<T>, f: T -> real): real
  {
    if |s| == 0 then 0.0 else SumOf(s, f) / |s| as real
  }

  /** A reduce whose step adds `f` of each element computes `init` plus the sum of `f`. */
  lemma {:induction false} ReduceAddsSum<T>(s: seq<T>, step: (real, T) -> real, f: T -> real, init: real)
    requires forall acc, x :: step(acc, x) == acc + f(x)
    ensures Reduce(s, step, init) == init + SumOf(s, f)
  {
    if |s| > 0 {
      ReduceAddsSum(s[1..], step, f, step(init, s[0]));
    }
  }

  lemma {:induction false} SumOfAppend<T>(a: seq<T>, b: seq<T>, f: T -> real)
    ensures SumOf(a + b, f) == SumOf(a, f) + SumOf(b, f)
  {
    if |a| == 0 {
      assert a + b == b;
    } else {
      assert (a + b)[1..] == a[1..] + b;
      SumOfAppend(a[1..], b, f);
    }
  }

  /** Removing the element at `i` removes one occurrence of it from the multiset. */
  lemma {:induction false} MultisetRemoveAt<T>(b: seq<T>, i: nat)
    requires i < |b|
    ensures multiset(b[..i] + b[i + 1..]) == multiset(b) - multiset{b[i]}
  {
    assert b == b[..i] + [b[i]] + b[i + 1..];
  }

  lemma {:induction false} SumOfCons<T>(x: T, s: seq<T>, f: T -> real)
    ensures SumOf([x] + s, f) == f(x) + SumOf(s, f)
  {
    assert ([x] + s)[0] == x && ([x] + s)[1..] == s;
  }

  /** Removing the element at `i` removes its summand. */
  lemma {:induction false} SumOfRemoveAt<T>(b: seq<T>, i: nat, f: T -> real)
    requires i < |b|
    ensures SumOf(b, f) == f(b[i]) + SumOf(b[..i] + b[i + 1..], f)
  {
    var prefix, suffix := b[..i], b[i + 1..];
    assert b == prefix + ([b[i]] + suffix);
    SumOfAppend(prefix, [b[i]] + suffix, f);
    SumOfCons(b[i], suffix, f);
    SumOfAppend(prefix, suffix, f);
  }

  /** Matching the head of `a` with `b[i]` leaves two permutations of each other. */
  lemma {:induction false} PermutationRemoveHead<T>(a: seq<T>, b: seq<T>, i: nat)
    requires multiset(a) == multiset(b)
    requires 0 < |a| && i < |b| && b[i] == a[0]
    ensures multiset(a[1..]) == multiset(b[..i] + b[i + 1..])
  {
    assert a == [a[0]] + a[1..];
    var ma := multiset(a[1..]);
    assert multiset(a) == multiset{a[0]} + ma;
    MultisetRemoveAt(b, i);
    assert ma == multiset(a) - multiset{a[0]};
  }

  /** A sum does not depend on the order of the summands. */
  lemma {:induction false} SumOfPermutation<T>(a: seq<T>, b: seq<T>, f: T -> real)
    requires multiset(a) == multiset(b)
    ensures SumOf(a, f) == SumOf(b, f)
  {
    if |a| == 0 {
      assert |b| == |multiset(b)| == 0;
    } else {
      assert a[0] in multiset(a);
      var i :| 0 <= i < |b| && b[i] == a[0];
      PermutationRemoveHead(a, b, i);
      SumOfPermutation(a[1..], b[..i] + b[i + 1..], f);
      SumOfRemoveAt(b, i, f);
    }
  }

  /** Every summand in [lo, hi] puts the sum in [lo * |s|, hi * |s|]. */
  lemma {:induction false} SumOfBounds<T>(s: seq<T>, f: T -> real, lo: real, hi: real)
    requires forall x :: x in s ==> lo <= f(x) <= hi
    ensures lo * |s| as real <= SumOf(s, f) <= hi * |s| as real
  {
    if |s| > 0 {
      SumOfBounds(s[1..], f, lo, hi);
    }
  }

  /** Sums of two sequences that agree position by position are equal. */
  lemma {:induction false} SumOfPointwise<A, B>(a: seq<A>, f: A -> real, b: seq<B>, g: B -> real)
    requires |a| == |b|
    requires forall i :: 0 <= i < |a| ==> f(a[i]) == g(b[i])
    ensures SumOf(a, f) == SumOf(b, g)
  {
    if |a| > 0 {
      SumOfPointwise(a[1..], f, b[1..], g);
    }
  }

  /** Scaling every summand by `k` scales the sum by `k`. */
  lemma {:induction false} SumOfScale<T>(s: seq<T>, f: T -> real, g: T -> real, k: real)
    requires forall x :: x in s ==> g(x) == f(x) * k
    ensures SumOf(s, g) == SumOf(s, f) * k
  {
    if |s| > 0 {
      SumOfScale(s[1..], f, g, k);
    }
  }

  /** Non-negative summands give a non-negative sum. */
  lemma {:induction false} SumOfNonNegative<T>(s: seq<T>, f: T -> real)
    requires forall x :: x in s ==> 0.0 <= f(x)
    ensures 0.0 <= SumOf(s, f)
  {
    if |s| > 0 {
      SumOfNonNegative(s[1..], f);
    }
  }

  /** Every value in [lo, hi] puts a non-empty mean in [lo, hi]. */
  lemma {:induction false} MeanOfBounds<T>(s: seq<T>, f: T -> real, lo: real, hi: real)
    requires |s| > 0
    requires forall x :: x in s ==> lo <= f(x) <= hi
    ensures lo <= MeanOf(s, f) <= hi
  {
    SumOfBounds(s, f, lo, hi);
    var n := |s| as real;
    assert SumOf(s, f) / n * n == SumOf(s, f);
  }

  /** Filters by two predicates that agree on every value are the same. */
  lemma {:induction false} FilterSamePredicate<T>(s: seq<T>, p: T -> bool, q: T -> bool)
    requires forall x :: p(x) == q(x)
    ensures Filter(s, p) == Filter(s, q)
  {
    if |s| > 0 {
      FilterSamePredicate(s[1..], p, q);
    }
  }

  /** Finds by two predicates that agree on every value are the same. */
  lemma {:induction false} FindSamePredicate<T>(s: seq<T>, p: T -> bool, q: T -> bool)
    requires forall x :: p(x) == q(x)
    ensures Find(s, p) == Find(s, q)
  {
    if |s| > 0 {
      FindSamePredicate(s[1..], p, q);
    }
  }

  /** Filtering distributes over concatenation. */
  lemma {:induction false} FilterAppend<T>(a: seq<T>, b: seq<T>, p: T -> bool)
    ensures Filter(a + b, p) == Filter(a, p) + Filter(b, p)
  {
    if |a| == 0 {
      assert a + b == b;
    } else {
      var head := if p(a[0]) then [a[0]] else [];
      assert (a + b)[0] == a[0] && (a + b)[1..] == a[1..] + b;
      assert Filter(a + b, p) == head + Filter(a[1..] + b, p);
      FilterAppend(a[1..], b, p);
      assert Filter(a, p) == head + Filter(a[1..], p);
    }
  }

  /** The filter keeps every element satisfying `p` with its multiplicity, and nothing else. */
  lemma {:induction false} FilterMultiset<T>(s: seq<T>, p: T -> bool)
    ensures forall x :: multiset(Filter(s, p))[x] == if p(x) then multiset(s)[x] else 0
  {
    if |s| > 0 {
      FilterMultiset(s[1..], p);
      assert s == [s[0]] + s[1..];
    }
  }

  /** Permuting the input permutes the filter's output. */
  lemma {:induction false} FilterPermutation<T>(a: seq<T>, b: seq<T>, p: T -> bool)
    requires multiset(a) == multiset(b)
    ensures multiset(Filter(a, p)) == multiset(Filter(b, p))
  {
    FilterMultiset(a, p);
    FilterMultiset(b, p);
  }

  /** Filtering twice with the same predicate is filtering once. */
  lemma {:induction false} FilterIdempotent<T>(s: seq<T>, p: T -> bool)
    ensures Filter(Filter(s, p), p) == Filter(s, p)
  {
    if |s| > 0 {
      FilterIdempotent(s[1..], p);
      if p(s[0]) {
        var t := Filter(s, p);
        assert t[0] == s[0] && t[1..] == Filter(s[1..], p);
        assert Filter(t, p) == [t[0]] + Filter(t[1..], p);
      } else {
        assert Filter(s, p) == Filter(s[1..], p);
      }
    }
  }

  /** The filter is empty exactly when no element satisfies `p`. */
  lemma {:induction false} FilterEmpty<T>(s: seq<T>, p: T -> bool)
    ensures |Filter(s, p)| == 0 <==> forall x :: x in s ==> !p(x)
  {
    if |Filter(s, p)| > 0 {
      assert Filter(s, p)[0] in Filter(s, p);
    }
  }

  /** The filter keeps every element exactly when all of them satisfy `p`. */
  lemma {:induction false} FilterKeepsAll<T>(s: seq<T>, p: T -> bool)
    ensures |Filter(s, p)| == |s| <==> forall x :: x in s ==> p(x)
    ensures Filter(s, p) == s <==> forall x :: x in s ==> p(x)
  {
    if |s| > 0 {
      FilterKeepsAll(s[1..], p);
      if !p(s[0]) {
        assert |Filter(s, p)| < |s|;
      } else if forall x :: x in s ==> p(x) {
        assert s == [s[0]] + s[1..];
      }
    }
  }

  /** The positions of `s` whose element satisfies `p`. */
  ghost function Positions<T>(s: seq<T>, p: T -> bool): set<int>
  {
    set i | 0 <= i < |s| && p(s[i])
  }

  /** Appending one element adds its position when it satisfies `p`. */
  lemma {:induction false} PositionsSnoc<T>(s: seq<T>, x: T, p: T -> bool)
    ensures Positions(s + [x], p) == Positions(s, p) + (if p(x) then {|s|} else {})
  {
    var t := s + [x];
    forall i | 0 <= i < |s| ensures t[i] == s[i] { }
    assert t[|s|] == x;
  }

  /** Appending one element lengthens the filter by one exactly when it satisfies `p`. */
  lemma {:induction false} FilterSnoc<T>(s: seq<T>, x: T, p: T -> bool)
    ensures |Filter(s + [x], p)| == |Filter(s, p)| + (if p(x) then 1 else 0)
  {
    FilterAppend(s, [x], p);
    assert [x][1..] == [];
  }

  /** The filter's length counts the positions whose element satisfies `p`. */
  lemma {:induction false} FilterCountsIndices<T>(s: seq<T>, p: T -> bool)
    ensures |Filter(s, p)| == |Positions(s, p)|
  {
    if |s| > 0 {
      var n := |s| - 1;
      FilterCountsIndices(s[..n], p);
      assert s == s[..n] + [s[n]];
      FilterSnoc(s[..n], s[n], p);
      PositionsSnoc(s[..n], s[n], p);
      assert n !in Positions(s[..n], p);
    }
  }

  /** The first element of the filter is the first element of `s` satisfying `p`. */
  lemma {:induction false} FilterFirst<T>(s: seq<T>, p: T -> bool, i: nat)
    requires i < |s| && p(s[i])
    requires forall j :: 0 <= j < i ==> !p(s[j])
    ensures |Filter(s, p)| > 0 && Filter(s, p)[0] == s[i]
  {
    if i > 0 {
      FilterFirst(s[1..], p, i - 1);
    }
  }

  /** `find` passes over a prefix none of whose elements satisfy `p`. */
  lemma {:induction false} FindSkip<T>(s: seq<T>, p: T -> bool, k: nat)
    requires k <= |s|
    requires forall j :: 0 <= j < k ==> !p(s[j])
    ensures Find(s, p) == Find(s[k..], p)
  {
    if k > 0 {
      FindSkip(s[1..], p, k - 1);
      assert s[1..][k - 1..] == s[k..];
    }
  }

  /** `find` returns the first element satisfying `p`, not merely some such element. */
  lemma {:induction false} FindReturnsFirst<T>(s: seq<T>, p: T -> bool, i: nat)
    requires i < |s| && p(s[i])
    requires forall j :: 0 <= j < i ==> !p(s[j])
    ensures Find(s, p) == Some(s[i])
  {
    FindSkip(s, p, i);
    assert s[i..][0] == s[i];
  }

  /** A weaker predicate keeps at least as many elements. */
  lemma {:induction false} FilterWeakerKeepsMore<T>(s: seq<T>, p: T -> bool, q: T -> bool)
    requires forall x :: x in s && p(x) ==> q(x)
    ensures |Filter(s, p)| <= |Filter(s, q)|
  {
    if |s| > 0 {
      FilterWeakerKeepsMore(s[1..], p, q);
    }
  }

  /**
   * Three pairwise exclusive predicates: their filters together hold at most
   * every element, and exactly every element when each element satisfies one.
   */
  lemma {:induction false} FilterCounts3<T>(s: seq<T>, p: T -> bool, q: T -> bool, r: T -> bool)
    requires forall x :: x in s ==> !(p(x) && q(x)) && !(p(x) && r(x)) && !(q(x) && r(x))
    ensures |Filter(s, p)| + |Filter(s, q)| + |Filter(s, r)| <= |s|
    ensures |Filter(s, p)| + |Filter(s, q)| + |Filter(s, r)| == |s| <==> forall x :: x in s ==> p(x) || q(x) || r(x)
  {
    if |s| > 0 {
      FilterCounts3(s[1..], p, q, r);
    }
  }

  /** Two complementary predicates split the elements between their filters. */
  lemma {:induction false} FilterCounts2<T>(s: seq<T>, p: T -> bool, q: T -> bool)
    requires forall x :: x in s ==> p(x) != q(x)
    ensures |Filter(s, p)| + |Filter(s, q)| == |s|
  {
    if |s| > 0 {
      FilterCounts2(s[1..], p, q);
    }
  }
}
