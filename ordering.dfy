/**
 * ORDER BY as a specification.  Every ordered query of the application sorts
 * by a list of integer columns, some ascending and some descending; a row's
 * sort key is that list with the descending columns negated, compared
 * lexicographically.  `SortByKey` is a reference sort on such keys; SQL leaves
 * the order of rows with equal keys unspecified, so what the model promises
 * about a query result is only "sorted by the key" and "a permutation of the
 * rows that match".
 */
module Ordering {

  /** Lexicographic order on integer lists (a proper prefix comes first). */
  predicate LexLe(a: seq<int>, b: seq<int>)
    decreases |a|
  {
    a == [] || (b != [] && (a[0] < b[0] || (a[0] == b[0] && LexLe(a[1..], b[1..]))))
  }

  lemma {:induction false} LexLeReflexive(a: seq<int>)
    ensures LexLe(a, a)
    decreases |a|
  {
    if a != [] { LexLeReflexive(a[1..]); }
  }

  lemma {:induction false} LexLeTotal(a: seq<int>, b: seq<int>)
    ensures LexLe(a, b) || LexLe(b, a)
    decreases |a|
  {
    if a != [] && b != [] && a[0] == b[0] { LexLeTotal(a[1..], b[1..]); }
  }

  lemma {:induction false} LexLeTransitive(a: seq<int>, b: seq<int>, c: seq<int>)
    requires LexLe(a, b) && LexLe(b, c)
    ensures LexLe(a, c)
    decreases |a|
  {
    if a != [] && b != [] && c != [] && a[0] == b[0] == c[0] {
      LexLeTransitive(a[1..], b[1..], c[1..]);
    }
  }

  lemma {:induction false} LexLeAntisymmetric(a: seq<int>, b: seq<int>)
    requires LexLe(a, b) && LexLe(b, a)
    ensures a == b
    decreases |a|
  {
    if a != [] {
      LexLeAntisymmetric(a[1..], b[1..]);
      assert a == [a[0]] + a[1..] && b == [b[0]] + b[1..];
    }
  }

  /** Every row of `s` comes no later, by key, than every row after it. */
  ghost predicate SortedByKey<T>(s: seq<T>, key: T -> seq<int>)
  {
    forall i, j :: 0 <= i < j < |s| ==> LexLe(key(s[i]), key(s[j]))
  }

  /** Puts `x` in front of the first row that does not come before it. */
  function Insert<T>(x: T, s: seq<T>, key: T -> seq<int>): seq<T>
  {
    if s == [] then [x]
    else if LexLe(key(x), key(s[0])) then [x] + s
    else [s[0]] + Insert(x, s[1..], key)
  }

  /** Reference insertion sort by key. */
  function SortByKey<T>(s: seq<T>, key: T -> seq<int>): seq<T>
  {
    if s == [] then [] else Insert(s[0], SortByKey(s[1..], key), key)
  }

  lemma {:induction false} InsertPermutes<T>(x: T, s: seq<T>, key: T -> seq<int>)
    ensures multiset(Insert(x, s, key)) == multiset(s) + multiset{x}
    decreases |s|
  {
    if s != [] {
      assert s == [s[0]] + s[1..];
      if !LexLe(key(x), key(s[0])) {
        InsertPermutes(x, s[1..], key);
      }
    }
  }

  /** A row no later than any of a sorted sequence can go in front of it. */
  lemma ConsSorted<T>(y: T, t: seq<T>, key: T -> seq<int>)
    requires SortedByKey(t, key)
    requires forall k :: 0 <= k < |t| ==> LexLe(key(y), key(t[k]))
    ensures SortedByKey([y] + t, key)
  {
    var r := [y] + t;
    forall i, j | 0 <= i < j < |r|
      ensures LexLe(key(r[i]), key(r[j]))
    {
      assert r[j] == t[j - 1];
      if i > 0 {
        assert r[i] == t[i - 1];
      }
    }
  }

  /** A lower bound of every row of `s` and of `x` bounds every row of a permutation of them. */
  lemma BoundPermutation<T>(y: T, x: T, s: seq<T>, t: seq<T>, key: T -> seq<int>)
    requires multiset(t) == multiset(s) + multiset{x}
    requires LexLe(key(y), key(x))
    requires forall k :: 0 <= k < |s| ==> LexLe(key(y), key(s[k]))
    ensures forall k :: 0 <= k < |t| ==> LexLe(key(y), key(t[k]))
  {
    forall k | 0 <= k < |t|
      ensures LexLe(key(y), key(t[k]))
    {
      assert t[k] in multiset(t);
      if t[k] != x {
        assert t[k] in multiset(s);
        var m :| 0 <= m < |s| && s[m] == t[k];
      }
    }
  }

  lemma {:induction false} InsertSorted<T>(x: T, s: seq<T>, key: T -> seq<int>)
    requires SortedByKey(s, key)
    ensures SortedByKey(Insert(x, s, key), key)
    decreases |s|
  {
    if s == [] {
    } else if LexLe(key(x), key(s[0])) {
      forall k | 0 <= k < |s|
        ensures LexLe(key(x), key(s[k]))
      {
        if k > 0 {
          LexLeTransitive(key(x), key(s[0]), key(s[k]));
        }
      }
      ConsSorted(x, s, key);
    } else {
      LexLeTotal(key(x), key(s[0]));
      var t := Insert(x, s[1..], key);
      InsertSorted(x, s[1..], key);
      InsertPermutes(x, s[1..], key);
      forall k | 0 <= k < |s[1..]|
        ensures LexLe(key(s[0]), key(s[1..][k]))
      {
        assert s[1..][k] == s[k + 1];
      }
      BoundPermutation(s[0], x, s[1..], t, key);
      ConsSorted(s[0], t, key);
    }
  }

  /** The sorted rows are the input rows, with the same multiplicities. */
  lemma {:induction false} SortPermutes<T>(s: seq<T>, key: T -> seq<int>)
    ensures multiset(SortByKey(s, key)) == multiset(s)
    decreases |s|
  {
    if s != [] {
      SortPermutes(s[1..], key);
      InsertPermutes(s[0], SortByKey(s[1..], key), key);
      assert s == [s[0]] + s[1..];
    }
  }

  /** The sorted rows are in key order. */
  lemma {:induction false} SortSorts<T>(s: seq<T>, key: T -> seq<int>)
    ensures SortedByKey(SortByKey(s, key), key)
    decreases |s|
  {
    if s != [] {
      SortSorts(s[1..], key);
      InsertSorted(s[0], SortByKey(s[1..], key), key);
    }
  }
}
