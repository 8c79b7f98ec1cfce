/** Order-preserving selection over sequences: the model of JavaScript's
    `Array.prototype.filter`, and the subsequence relation it establishes. */
module Seqs {

  /** `a` can be obtained from `b` by deleting elements, keeping the order of the rest. */
  predicate Subseq<T(==,!new)>(a: seq<T>, b: seq<T>)
    decreases |b|
  {
    if a == [] then true
    else if b == [] then false
    else (a[0] == b[0] && Subseq(a[1..], b[1..])) || Subseq(a, b[1..])
  }

  /** The elements of `s` that satisfy `p`, in their original order. */
  function Filter<T(==,!new)>(p: T -> bool, s: seq<T>): (r: seq<T>)
    ensures |r| <= |s|
    ensures forall x :: x in r <==> x in s && p(x)
    ensures Subseq(r, s)
    decreases |s|
  {
    if s == [] then []
    else
      var rest := Filter(p, s[1..]);
      assert s == [s[0]] + s[1..];
      if p(s[0]) then [s[0]] + rest else rest
  }

  /** The number of elements of `s` that satisfy `p`. */
  function Count<T(==,!new)>(p: T -> bool, s: seq<T>): nat
  {
    |Filter(p, s)|
  }

  /** Filtering twice is filtering once by the conjunction. */
  lemma {:induction false} FilterFilter<T(!new)>(p: T -> bool, q: T -> bool, both: T -> bool, s: seq<T>)
    requires forall x :: both(x) == (q(x) && p(x))
    ensures Filter(p, Filter(q, s)) == Filter(both, s)
    decreases |s|
  {
    if s != [] {
      FilterFilter(p, q, both, s[1..]);
    }
  }

  /** Two predicates that never hold together select at most |s| elements between them. */
  lemma {:induction false} DisjointCounts<T(!new)>(p: T -> bool, q: T -> bool, s: seq<T>)
    requires forall x :: !(p(x) && q(x))
    ensures Count(p, s) + Count(q, s) == Count(x => p(x) || q(x), s)
    ensures Count(p, s) + Count(q, s) <= |s|
    decreases |s|
  {
    if s != [] {
      DisjointCounts(p, q, s[1..]);
    }
  }

  /** Every element of `s` is counted by exactly one of `p` and its negation. */
  lemma {:induction false} CountSplit<T(!new)>(p: T -> bool, s: seq<T>)
    ensures Count(p, s) + Count(x => !p(x), s) == |s|
    decreases |s|
  {
    if s != [] {
      CountSplit(p, s[1..]);
    }
  }

  /** Filtering by predicates that agree on every element of `s` gives the same result. */
  lemma {:induction false} FilterCongruent<T(!new)>(p: T -> bool, q: T -> bool, s: seq<T>)
    requires forall i :: 0 <= i < |s| ==> p(s[i]) == q(s[i])
    ensures Filter(p, s) == Filter(q, s)
    decreases |s|
  {
    if s != [] {
      FilterCongruent(p, q, s[1..]);
    }
  }

  /** Filtering distributes over concatenation. */
  lemma {:induction false} FilterAppend<T(!new)>(p: T -> bool, a: seq<T>, b: seq<T>)
    ensures Filter(p, a + b) == Filter(p, a) + Filter(p, b)
    decreases |a|
  {
    if a != [] {
      assert (a + b)[1..] == a[1..] + b;
      FilterAppend(p, a[1..], b);
      assert Filter(p, a + b) == (if p(a[0]) then [a[0]] else []) + Filter(p, a[1..] + b);
      assert Filter(p, a) == (if p(a[0]) then [a[0]] else []) + Filter(p, a[1..]);
    } else {
      assert a + b == b;
    }
  }

  /** Replacing one element changes the count by what left and what arrived. */
  lemma {:induction false} CountUpdate<T(!new)>(p: T -> bool, s: seq<T>, i: nat, x: T)
    requires i < |s|
    ensures Count(p, s[i := x]) + (if p(s[i]) then 1 else 0) == Count(p, s) + (if p(x) then 1 else 0)
    decreases |s|
  {
    var u := s[i := x];
    if i == 0 {
      assert u[1..] == s[1..];
    } else {
      assert u[1..] == s[1..][i - 1 := x];
      CountUpdate(p, s[1..], i - 1, x);
    }
  }

  /** A sequence of `n` copies of `x` has `n` or no elements satisfying `p`. */
  lemma {:induction false} CountConstant<T(!new)>(p: T -> bool, x: T, n: nat)
    ensures Count(p, seq(n, _ => x)) == (if p(x) then n else 0)
    decreases n
  {
    if n > 0 {
      var s := seq(n, _ => x);
      assert s[1..] == seq(n - 1, _ => x);
      CountConstant(p, x, n - 1);
    }
  }

  /** When `q` implies `p`, `q` selects no more elements than `p`, and exactly
      as many precisely when every element satisfying `p` satisfies `q`. */
  lemma {:induction false} CountImplied<T(!new)>(p: T -> bool, q: T -> bool, s: seq<T>)
    requires forall x :: q(x) ==> p(x)
    ensures Count(q, s) <= Count(p, s)
    ensures Count(q, s) == Count(p, s) <==> forall i :: 0 <= i < |s| && p(s[i]) ==> q(s[i])
    decreases |s|
  {
    if s != [] {
      CountImplied(p, q, s[1..]);
      assert forall i :: 1 <= i < |s| ==> s[i] == s[1..][i - 1];
      if forall i :: 0 <= i < |s[1..]| && p(s[1..][i]) ==> q(s[1..][i]) {
        if p(s[0]) ==> q(s[0]) {
          assert forall i :: 0 <= i < |s| && p(s[i]) ==> q(s[i]) by {
            forall i | 0 <= i < |s| && p(s[i])
              ensures q(s[i])
            {
              if i > 0 {
                assert s[i] == s[1..][i - 1];
              }
            }
          }
        }
      }
    }
  }

  /** No element occurs twice. */
  predicate NoDuplicates<T(==)>(s: seq<T>) {
    forall i, j :: 0 <= i < j < |s| ==> s[i] != s[j]
  }

  /** No two positions share a value of `key`. */
  predicate DistinctBy<T, K(==)>(key: T -> K, s: seq<T>) {
    forall i, j :: 0 <= i < j < |s| ==> key(s[i]) != key(s[j])
  }

  /** Filtering keeps the elements' keys pairwise distinct. */
  lemma {:induction false} FilterDistinctBy<T(!new), K>(p: T -> bool, key: T -> K, s: seq<T>)
    requires DistinctBy(key, s)
    ensures DistinctBy(key, Filter(p, s))
    decreases |s|
  {
    if s != [] {
      var t := s[1..];
      assert DistinctBy(key, t) by {
        forall i, j | 0 <= i < j < |t|
          ensures key(t[i]) != key(t[j])
        {
          assert t[i] == s[i + 1] && t[j] == s[j + 1];
        }
      }
      FilterDistinctBy(p, key, t);
      var rest := Filter(p, t);
      if p(s[0]) {
        var r := [s[0]] + rest;
        forall i, j | 0 <= i < j < |r|
          ensures key(r[i]) != key(r[j])
        {
          if i == 0 {
            assert r[j] == rest[j - 1];
            assert rest[j - 1] in t;
            var k :| 0 <= k < |t| && t[k] == rest[j - 1];
            assert t[k] == s[k + 1];
          } else {
            assert r[i] == rest[i - 1] && r[j] == rest[j - 1];
          }
        }
      }
    }
  }

  /** Filtering keeps a duplicate-free sequence duplicate-free. */
  lemma FilterNoDuplicates<T(!new)>(p: T -> bool, s: seq<T>)
    requires NoDuplicates(s)
    ensures NoDuplicates(Filter(p, s))
  {
    FilterDistinctBy(p, x => x, s);
  }

  /** JavaScript `xs.some(x => ys.includes(x))`: the two lists share an element. */
  function Intersects<T(==)>(xs: seq<T>, ys: seq<T>): (r: bool)
    ensures r <==> exists i :: 0 <= i < |xs| && xs[i] in ys
    decreases |xs|
  {
    if xs == [] then false
    else if xs[0] in ys then true
    else
      assert forall i :: 1 <= i < |xs| ==> xs[i] == xs[1..][i - 1];
      Intersects(xs[1..], ys)
  }

  /** JavaScript `xs.every(x => ys.includes(x))`: every element of `xs` is in `ys`. */
  function AllIncluded<T(==)>(xs: seq<T>, ys: seq<T>): (r: bool)
    ensures r <==> forall i :: 0 <= i < |xs| ==> xs[i] in ys
    decreases |xs|
  {
    if xs == [] then true
    else if xs[0] !in ys then false
    else
      assert forall i :: 1 <= i < |xs| ==> xs[i] == xs[1..][i - 1];
      AllIncluded(xs[1..], ys)
  }

  /** Filtering by a predicate every element satisfies changes nothing. */
  lemma {:induction false} FilterAll<T(!new)>(p: T -> bool, s: seq<T>)
    requires forall i :: 0 <= i < |s| ==> p(s[i])
    ensures Filter(p, s) == s
    decreases |s|
  {
    if s != [] {
      FilterAll(p, s[1..]);
      assert s == [s[0]] + s[1..];
    }
  }
}
