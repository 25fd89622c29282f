/** Sequence helpers shared by every view: the `Array.prototype.filter`
    the components use for searching and counting, and the counts built on it. */
module Seqs {

  /** `s.filter(p)`: the elements of `s` that satisfy `p`, in their original order. */
  function Filter<T>(s: seq<T>, p: T -> bool): (r: seq<T>)
    ensures |r| <= |s|
    ensures forall x :: x in r ==> x in s && p(x)
    ensures forall x :: x in s && p(x) ==> x in r
  {
    if |s| == 0 then []
    else if p(s[0]) then [s[0]] + Filter(s[1..], p)
    else Filter(s[1..], p)
  }

  /** `s.filter(p).length`. */
  function Count<T>(s: seq<T>, p: T -> bool): nat {
    |Filter(s, p)|
  }

  /** `a` can be obtained from `b` by deleting elements: order is preserved. */
  predicate IsSubsequence<T(==)>(a: seq<T>, b: seq<T>)
    decreases |b|
  {
    if |b| == 0 then |a| == 0
    else (|a| > 0 && a[0] == b[0] && IsSubsequence(a[1..], b[1..])) || IsSubsequence(a, b[1..])
  }

  /** A filter never reorders: its result is a subsequence of its input. */
  lemma {:induction false} FilterIsSubsequence<T>(s: seq<T>, p: T -> bool)
    ensures IsSubsequence(Filter(s, p), s)
  {
    if |s| > 0 {
      FilterIsSubsequence(s[1..], p);
      var r := Filter(s, p);
      if p(s[0]) {
        assert r[0] == s[0] && r[1..] == Filter(s[1..], p);
      }
    }
  }

  /** A filter whose predicate holds everywhere returns its input unchanged. */
  lemma {:induction false} FilterKeepsAll<T>(s: seq<T>, p: T -> bool)
    requires forall x :: x in s ==> p(x)
    ensures Filter(s, p) == s
  {
    if |s| > 0 {
      FilterKeepsAll(s[1..], p);
    }
  }

  /** Predicates that agree on the elements filter alike. */
  lemma {:induction false} FilterCongruent<T>(s: seq<T>, p: T -> bool, q: T -> bool)
    requires forall x :: x in s ==> (p(x) <==> q(x))
    ensures Filter(s, p) == Filter(s, q)
  {
    if |s| > 0 {
      FilterCongruent(s[1..], p, q);
    }
  }

  /** Filtering distributes over concatenation. */
  lemma {:induction false} FilterAppend<T>(a: seq<T>, b: seq<T>, p: T -> bool)
    ensures Filter(a + b, p) == Filter(a, p) + Filter(b, p)
  {
    if |a| > 0 {
      assert (a + b)[0] == a[0];
      assert (a + b)[1..] == a[1..] + b;
      FilterAppend(a[1..], b, p);
    } else {
      assert a + b == b;
    }
  }

  /** Counting from position `k`: the element there, then the rest. */
  lemma CountStep<T>(s: seq<T>, k: nat, p: T -> bool)
    requires k < |s|
    ensures Count(s[k..], p) == (if p(s[k]) then 1 else 0) + Count(s[k + 1..], p)
  {
    assert s[k..][0] == s[k];
    assert s[k..][1..] == s[k + 1..];
  }

  /** Counting over a concatenation adds the counts. */
  lemma CountAppend<T>(a: seq<T>, b: seq<T>, p: T -> bool)
    ensures Count(a + b, p) == Count(a, p) + Count(b, p)
  {
    FilterAppend(a, b, p);
  }

  /** When every element satisfies exactly one of two predicates, the two
      counts partition the length. */
  lemma {:induction false} CountPartition2<T>(s: seq<T>, p: T -> bool, q: T -> bool)
    requires forall x :: x in s ==> (p(x) <==> !q(x))
    ensures Count(s, p) + Count(s, q) == |s|
  {
    if |s| > 0 {
      CountPartition2(s[1..], p, q);
    }
  }

  /** When every element satisfies exactly one of three predicates, the three
      counts partition the length. */
  lemma {:induction false} CountPartition3<T>(s: seq<T>, p: T -> bool, q: T -> bool, o: T -> bool)
    requires forall x :: x in s ==> (p(x) || q(x) || o(x))
    requires forall x :: x in s ==> !(p(x) && q(x)) && !(p(x) && o(x)) && !(q(x) && o(x))
    ensures Count(s, p) + Count(s, q) + Count(s, o) == |s|
  {
    if |s| > 0 {
      CountPartition3(s[1..], p, q, o);
    }
  }

  /** A count is zero exactly when no element satisfies the predicate. */
  lemma CountZeroIffNone<T>(s: seq<T>, p: T -> bool)
    ensures Count(s, p) == 0 <==> forall x :: x in s ==> !p(x)
  {
    if Count(s, p) != 0 {
      assert Filter(s, p)[0] in Filter(s, p);
    }
  }

  /** A filter keeps every copy of an element that satisfies the predicate
      and no copy of one that does not. */
  lemma {:induction false} FilterMultiset<T>(s: seq<T>, p: T -> bool)
    ensures forall x :: multiset(Filter(s, p))[x] == if p(x) then multiset(s)[x] else 0
  {
    if |s| > 0 {
      FilterMultiset(s[1..], p);
      assert s == [s[0]] + s[1..];
    }
  }

  /** Counting does not depend on order: two permutations of each other have
      the same count for every predicate. */
  lemma {:induction false} CountPermutation<T>(a: seq<T>, b: seq<T>, p: T -> bool)
    requires multiset(a) == multiset(b)
    ensures Count(a, p) == Count(b, p)
    decreases |a|
  {
    if |a| == 0 {
      assert |b| == |multiset(b)| == 0;
    } else {
      var k := MatchHead(a, b);
      CountPermutation(a[1..], b[..k] + b[k + 1..], p);
      CountRemoveAt(a, 0, p);
      CountRemoveAt(b, k, p);
      assert a[..0] + a[1..] == a[1..];
    }
  }

  /** The head of a non-empty sequence sits at some position `k` of any
      permutation of it, and what remains on both sides is again a permutation. */
  lemma MatchHead<T>(a: seq<T>, b: seq<T>) returns (k: nat)
    requires |a| > 0 && multiset(a) == multiset(b)
    ensures k < |b| && b[k] == a[0]
    ensures multiset(a[1..]) == multiset(b[..k] + b[k + 1..])
  {
    assert a[0] in multiset(b);
    k :| 0 <= k < |b| && b[k] == a[0];
    MultisetRemoveAt(a, 0);
    MultisetRemoveAt(b, k);
    assert a[..0] + a[1..] == a[1..];
  }

  /** Removing the element at `k` removes one occurrence of it. */
  lemma MultisetRemoveAt<T>(s: seq<T>, k: nat)
    requires k < |s|
    ensures multiset(s[..k] + s[k + 1..]) == multiset(s) - multiset{s[k]}
  {
    assert s == s[..k] + [s[k]] + s[k + 1..];
  }

  /** Removing the element at `k` lowers the count by its own contribution. */
  lemma CountRemoveAt<T>(s: seq<T>, k: nat, p: T -> bool)
    requires k < |s|
    ensures Count(s, p) == (if p(s[k]) then 1 else 0) + Count(s[..k] + s[k + 1..], p)
  {
    assert s == s[..k] + s[k..];
    CountAppend(s[..k], s[k..], p);
    CountStep(s, k, p);
    CountAppend(s[..k], s[k + 1..], p);
  }

  /** The sum of a sequence of naturals (`reduce((sum, x) => sum + x, 0)`). */
  function Sum(s: seq<nat>): nat {
    if |s| == 0 then 0 else s[0] + Sum(s[1..])
  }
}
