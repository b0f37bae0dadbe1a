/**
 * Filters and sums over sequences, the two shapes every repository query and
 * report of the application is built from (a WHERE clause, a SUM, a foreach
 * accumulator).  Both are defined from the END of the sequence, so that a
 * loop that appends one more element extends them by definition.
 */
module Collections {

  /** The elements of `s` that satisfy `p`, in their original order. */
  function Filter<T>(s: seq<T>, p: T -> bool): (r: seq<T>)
    ensures |r| <= |s|
  {
    if s == [] then []
    else Filter(s[..|s| - 1], p) + (if p(s[|s| - 1]) then [s[|s| - 1]] else [])
  }

  /** The sum of `f` over the elements of `s`. */
  function Sum<T>(s: seq<T>, f: T -> int): int
  {
    if s == [] then 0 else Sum(s[..|s| - 1], f) + f(s[|s| - 1])
  }

  /** No two positions of `s` carry the same key. */
  ghost predicate Injective<T, K>(s: seq<T>, key: T -> K)
  {
    forall i, j :: 0 <= i < |s| && 0 <= j < |s| && i != j ==> key(s[i]) != key(s[j])
  }

  lemma {:induction false} FilterAppend<T>(a: seq<T>, b: seq<T>, p: T -> bool)
    ensures Filter(a + b, p) == Filter(a, p) + Filter(b, p)
    decreases |b|
  {
    if b == [] {
      assert a + b == a;
    } else {
      var n := |b| - 1;
      assert (a + b)[..|a + b| - 1] == a + b[..n];
      FilterAppend(a, b[..n], p);
    }
  }

  /** A filter keeps exactly the occurrences of the elements it accepts. */
  lemma {:induction false} FilterCount<T>(s: seq<T>, p: T -> bool, x: T)
    ensures multiset(Filter(s, p))[x] == if p(x) then multiset(s)[x] else 0
    decreases |s|
  {
    if s != [] {
      var n := |s| - 1;
      assert s == s[..n] + [s[n]];
      FilterCount(s[..n], p, x);
    }
  }

  lemma FilterMembership<T>(s: seq<T>, p: T -> bool, x: T)
    ensures x in Filter(s, p) <==> x in s && p(x)
  {
    FilterCount(s, p, x);
    assert x in Filter(s, p) <==> multiset(Filter(s, p))[x] > 0;
    assert x in s <==> multiset(s)[x] > 0;
  }

  /** A filter that accepts every element is the identity. */
  lemma {:induction false} FilterAll<T>(s: seq<T>, p: T -> bool)
    requires forall i :: 0 <= i < |s| ==> p(s[i])
    ensures Filter(s, p) == s
    decreases |s|
  {
    if s != [] {
      var n := |s| - 1;
      FilterAll(s[..n], p);
      assert s[..n] + [s[n]] == s;
    }
  }

  /** A filter that accepts no element is empty. */
  lemma {:induction false} FilterNone<T>(s: seq<T>, p: T -> bool)
    requires forall i :: 0 <= i < |s| ==> !p(s[i])
    ensures Filter(s, p) == []
    decreases |s|
  {
    if s != [] {
      FilterNone(s[..|s| - 1], p);
    }
  }

  /** Filters by two predicates that agree everywhere are the same. */
  lemma {:induction false} FilterEquivalent<T>(s: seq<T>, p: T -> bool, q: T -> bool)
    requires forall x :: p(x) == q(x)
    ensures Filter(s, p) == Filter(s, q)
    decreases |s|
  {
    if s != [] { FilterEquivalent(s[..|s| - 1], p, q); }
  }

  /** Filtering by `p` and then by `q` is filtering once by their conjunction. */
  lemma {:induction false} FilterConjunction<T>(s: seq<T>, p: T -> bool, q: T -> bool, pq: T -> bool)
    requires forall x :: pq(x) == (p(x) && q(x))
    ensures Filter(Filter(s, p), q) == Filter(s, pq)
    decreases |s|
  {
    if s != [] {
      var n := |s| - 1;
      var x := s[n];
      FilterConjunction(s[..n], p, q, pq);
      var ep := if p(x) then [x] else [];
      FilterAppend(Filter(s[..n], p), ep, q);
      assert Filter(ep, q) == (if pq(x) then [x] else []) by {
        if p(x) { assert ep[..0] == []; }
      }
    }
  }

  /** Two filters applied one after the other give the same result in either order. */
  lemma {:induction false} FilterCommute<T>(s: seq<T>, p: T -> bool, q: T -> bool)
    ensures Filter(Filter(s, p), q) == Filter(Filter(s, q), p)
    decreases |s|
  {
    if s != [] {
      var n := |s| - 1;
      var x := s[n];
      FilterCommute(s[..n], p, q);
      var ep := if p(x) then [x] else [];
      var eq := if q(x) then [x] else [];
      FilterAppend(Filter(s[..n], p), ep, q);
      FilterAppend(Filter(s[..n], q), eq, p);
      assert Filter(ep, q) == Filter(eq, p) by {
        if p(x) && q(x) {
          assert [x][..0] == [];
        }
        if p(x) { assert ep[..0] == []; }
        if q(x) { assert eq[..0] == []; }
      }
    }
  }

  lemma {:induction false} SumAppend<T>(a: seq<T>, b: seq<T>, f: T -> int)
    ensures Sum(a + b, f) == Sum(a, f) + Sum(b, f)
    decreases |b|
  {
    if b == [] {
      assert a + b == a;
    } else {
      var n := |b| - 1;
      assert (a + b)[..|a + b| - 1] == a + b[..n];
      SumAppend(a, b[..n], f);
    }
  }

  /** A sum does not depend on the order of its terms. */
  lemma {:induction false} SumPermutation<T>(a: seq<T>, b: seq<T>, f: T -> int)
    requires multiset(a) == multiset(b)
    ensures Sum(a, f) == Sum(b, f)
    decreases |a|
  {
    if a == [] {
      assert |b| == |multiset(b)| == 0;
    } else {
      var n := |a| - 1;
      var x := a[n];
      assert a == a[..n] + [x];
      assert x in multiset(b);
      var j :| 0 <= j < |b| && b[j] == x;
      var rest := b[..j] + b[j + 1..];
      assert b == b[..j] + [x] + b[j + 1..];
      assert multiset(b) == multiset(b[..j]) + multiset{x} + multiset(b[j + 1..]);
      assert multiset(a) == multiset(a[..n]) + multiset{x};
      assert multiset(rest) == multiset(b[..j]) + multiset(b[j + 1..]);
      assert multiset(a[..n]) == multiset(a) - multiset{x};
      assert multiset(rest) == multiset(b) - multiset{x};
      SumPermutation(a[..n], rest, f);
      SumAppend(b[..j] + [x], b[j + 1..], f);
      SumAppend(b[..j], [x], f);
      SumAppend(b[..j], b[j + 1..], f);
      assert Sum([x], f) == f(x) by { assert [x][..0] == []; }
    }
  }

  /** Removing the element at position `j` removes one occurrence of it. */
  lemma MultisetRemove<T>(s: seq<T>, j: nat)
    requires j < |s|
    ensures multiset(s[..j] + s[j + 1..]) == multiset(s) - multiset{s[j]}
  {
    assert s == s[..j] + [s[j]] + s[j + 1..];
    assert multiset(s) == multiset(s[..j]) + multiset{s[j]} + multiset(s[j + 1..]);
  }

  /** Removing one position keeps the other keys distinct and different from the removed one. */
  lemma InjectiveRemove<T, K>(s: seq<T>, j: nat, key: T -> K)
    requires j < |s| && Injective(s, key)
    ensures Injective(s[..j] + s[j + 1..], key)
    ensures forall y :: y in s[..j] + s[j + 1..] ==> key(y) != key(s[j])
  {
    var rest := s[..j] + s[j + 1..];
    assert forall i :: 0 <= i < |rest| ==> rest[i] == s[if i < j then i else i + 1];
  }

  /** Prepending an element whose key is new keeps the keys distinct. */
  lemma InjectiveCons<T, K>(y: T, t: seq<T>, key: T -> K)
    requires Injective(t, key)
    requires forall z :: z in t ==> key(z) != key(y)
    ensures Injective([y] + t, key)
  {
    var s := [y] + t;
    forall i, k | 0 <= i < |s| && 0 <= k < |s| && i != k
      ensures key(s[i]) != key(s[k])
    {
      if i > 0 && k > 0 {
        assert s[i] == t[i - 1] && s[k] == t[k - 1];
      } else if i > 0 {
        assert s[i] == t[i - 1] && s[i] in t;
      } else {
        assert s[k] == t[k - 1] && s[k] in t;
      }
    }
  }

  /** The first element of a permutation of `a` sits somewhere in `a`; removing it there leaves a permutation of the rest. */
  lemma PermutationHead<T>(a: seq<T>, b: seq<T>) returns (j: nat)
    requires multiset(a) == multiset(b) && b != []
    ensures j < |a| && a[j] == b[0]
    ensures multiset(a[..j] + a[j + 1..]) == multiset(b[1..])
  {
    assert b[0] in multiset(a);
    j :| 0 <= j < |a| && a[j] == b[0];
    MultisetRemove(a, j);
    MultisetRemove(b, 0);
    assert b[..0] + b[1..] == b[1..];
  }

  /** Elements of sequences with equal multisets are the same. */
  lemma SameElements<T>(a: seq<T>, b: seq<T>)
    requires multiset(a) == multiset(b)
    ensures forall z :: z in a <==> z in b
  {
    forall z ensures z in a <==> z in b {
      assert z in a <==> z in multiset(a);
      assert z in b <==> z in multiset(b);
    }
  }

  /** Reordering a sequence keeps its keys pairwise distinct. */
  lemma {:induction false} InjectivePermutation<T, K>(a: seq<T>, b: seq<T>, key: T -> K)
    requires multiset(a) == multiset(b)
    requires Injective(a, key)
    ensures Injective(b, key)
    decreases |b|
  {
    if b != [] {
      var j := PermutationHead(a, b);
      var rest := a[..j] + a[j + 1..];
      InjectiveRemove(a, j, key);
      InjectivePermutation(rest, b[1..], key);
      SameElements(rest, b[1..]);
      InjectiveCons(b[0], b[1..], key);
      assert [b[0]] + b[1..] == b;
    }
  }

  /** Appending an element whose key is new keeps the keys distinct. */
  lemma InjectiveSnoc<T, K>(t: seq<T>, y: T, key: T -> K)
    requires Injective(t, key)
    requires forall z :: z in t ==> key(z) != key(y)
    ensures Injective(t + [y], key)
  {
    var s := t + [y];
    forall i, k | 0 <= i < |s| && 0 <= k < |s| && i != k
      ensures key(s[i]) != key(s[k])
    {
      if i < |t| && k < |t| {
        assert s[i] == t[i] && s[k] == t[k];
      } else if i < |t| {
        assert s[i] == t[i] && s[i] in t;
      } else {
        assert s[k] == t[k] && s[k] in t;
      }
    }
  }

  /** Filtering keeps the keys pairwise distinct. */
  lemma {:induction false} FilterInjective<T, K>(s: seq<T>, p: T -> bool, key: T -> K)
    requires Injective(s, key)
    ensures Injective(Filter(s, p), key)
    decreases |s|
  {
    if s != [] {
      var n := |s| - 1;
      var front, x := s[..n], s[n];
      assert Injective(front, key);
      FilterInjective(front, p, key);
      if p(x) {
        var f := Filter(front, p);
        forall z | z in f ensures key(z) != key(x) {
          FilterMembership(front, p, z);
          var i :| 0 <= i < n && front[i] == z;
          assert s[i] == z;
        }
        InjectiveSnoc(f, x, key);
      }
    }
  }

  /** Replacing an element by one with the same key keeps the keys distinct. */
  lemma InjectiveUpdate<T, K>(s: seq<T>, j: nat, x: T, key: T -> K)
    requires Injective(s, key) && j < |s| && key(x) == key(s[j])
    ensures Injective(s[j := x], key)
  {
    assert forall m :: 0 <= m < |s| ==> key(s[j := x][m]) == key(s[m]);
  }

  /** Replacing one element changes the sum by the difference of its terms. */
  lemma SumUpdate<T>(s: seq<T>, j: nat, x: T, f: T -> int)
    requires j < |s|
    ensures Sum(s[j := x], f) == Sum(s, f) - f(s[j]) + f(x)
  {
    assert s == s[..j] + [s[j]] + s[j + 1..];
    assert s[j := x] == s[..j] + [x] + s[j + 1..];
    SumAppend(s[..j] + [s[j]], s[j + 1..], f);
    SumAppend(s[..j] + [x], s[j + 1..], f);
    SumAppend(s[..j], [s[j]], f);
    SumAppend(s[..j], [x], f);
    assert Sum([x], f) == f(x) by { assert [x][..0] == []; }
    assert Sum([s[j]], f) == f(s[j]) by { assert [s[j]][..0] == []; }
  }

  /** Summing over a filter is summing the terms of the accepted elements and 0 for the others. */
  lemma {:induction false} SumFilter<T>(s: seq<T>, p: T -> bool, f: T -> int, g: T -> int)
    requires forall x :: g(x) == if p(x) then f(x) else 0
    ensures Sum(Filter(s, p), f) == Sum(s, g)
    decreases |s|
  {
    if s != [] {
      var n := |s| - 1;
      SumFilter(s[..n], p, f, g);
      SumAppend(Filter(s[..n], p), if p(s[n]) then [s[n]] else [], f);
      assert Sum([s[n]], f) == f(s[n]) by { assert [s[n]][..0] == []; }
    }
  }

  lemma SumSnoc<T>(s: seq<T>, x: T, f: T -> int)
    ensures Sum(s + [x], f) == Sum(s, f) + f(x)
  {
    assert (s + [x])[..|s|] == s;
  }

  /** A filter and its complement split the sequence between them. */
  lemma {:induction false} FilterPartition<T>(s: seq<T>, p: T -> bool, q: T -> bool)
    requires forall x :: q(x) == !p(x)
    ensures |Filter(s, p)| + |Filter(s, q)| == |s|
    decreases |s|
  {
    if s != [] { FilterPartition(s[..|s| - 1], p, q); }
  }
}
