/** `_.sortBy` (a stable ascending sort on a list of criteria, compared one
    criterion after the other) and `Array.prototype.reverse`, over sequences.
    Each element's criteria are given as integers by a key function. */
module Sorting {

  /** Lexicographic order on criteria lists: the first criterion that
      differs decides, and equal lists are in order. */
  predicate LexLeq(a: seq<int>, b: seq<int>)
    decreases |a|
  {
    |a| == 0 || (|b| > 0 && (a[0] < b[0] || (a[0] == b[0] && LexLeq(a[1..], b[1..]))))
  }

  lemma {:induction false} LexReflexive(a: seq<int>)
    ensures LexLeq(a, a)
    decreases |a|
  {
    if |a| > 0 {
      LexReflexive(a[1..]);
    }
  }

  lemma {:induction false} LexTotal(a: seq<int>, b: seq<int>)
    ensures LexLeq(a, b) || LexLeq(b, a)
    decreases |a|
  {
    if |a| > 0 && |b| > 0 && a[0] == b[0] {
      LexTotal(a[1..], b[1..]);
    }
  }

  lemma {:induction false} LexTransitive(a: seq<int>, b: seq<int>, c: seq<int>)
    requires LexLeq(a, b) && LexLeq(b, c)
    ensures LexLeq(a, c)
    decreases |a|
  {
    if |a| > 0 && a[0] == b[0] && b[0] == c[0] {
      LexTransitive(a[1..], b[1..], c[1..]);
    }
  }

  /** On one-criterion lists the order is the order of integers. */
  lemma LexSingle(x: int, y: int)
    ensures LexLeq([x], [y]) <==> x <= y
  {
    assert [x][1..] == [] && [y][1..] == [];
  }

  ghost predicate Ascending<T>(s: seq<T>, key: T -> seq<int>)
  {
    forall i, j :: 0 <= i < j < |s| ==> LexLeq(key(s[i]), key(s[j]))
  }

  ghost predicate Descending<T>(s: seq<T>, key: T -> seq<int>)
  {
    forall i, j :: 0 <= i < j < |s| ==> LexLeq(key(s[j]), key(s[i]))
  }

  /** Insert `x` into the ascending `s` in front of the first element that
      is not smaller, so that it precedes the elements it ties with. */
  function Insert<T>(x: T, s: seq<T>, key: T -> seq<int>): (r: seq<T>)
    ensures |r| == |s| + 1
  {
    if |s| == 0 || LexLeq(key(x), key(s[0])) then [x] + s
    else [s[0]] + Insert(x, s[1..], key)
  }

  /** `_.sortBy(s, criteria)`: ascending and stable, built by inserting each
      element, from the last to the first, into the sorted rest. */
  function SortBy<T>(s: seq<T>, key: T -> seq<int>): (r: seq<T>)
    ensures |r| == |s|
  {
    if |s| == 0 then [] else Insert(s[0], SortBy(s[1..], key), key)
  }

  /** `s.reverse()` on a copy: the k-th element is the k-th from the end. */
  function Reverse<T>(s: seq<T>): (r: seq<T>)
    ensures |r| == |s|
    ensures forall k :: 0 <= k < |s| ==> r[k] == s[|s| - 1 - k]
  {
    if |s| == 0 then [] else Reverse(s[1..]) + [s[0]]
  }

  lemma {:induction false} InsertPermutation<T>(x: T, s: seq<T>, key: T -> seq<int>)
    ensures multiset(Insert(x, s, key)) == multiset(s) + multiset{x}
  {
    if |s| > 0 && !LexLeq(key(x), key(s[0])) {
      InsertPermutation(x, s[1..], key);
      assert s == [s[0]] + s[1..];
    }
  }

  /** Every element of the result that is not `x` was in `s`, and `x` is
      in the result. */
  lemma {:induction false} InsertElements<T>(x: T, s: seq<T>, key: T -> seq<int>, y: T)
    ensures y in Insert(x, s, key) <==> y == x || y in s
  {
    InsertPermutation(x, s, key);
    assert y in Insert(x, s, key) <==> y in multiset(Insert(x, s, key));
  }

  lemma {:induction false} InsertAscending<T>(x: T, s: seq<T>, key: T -> seq<int>)
    requires Ascending(s, key)
    ensures Ascending(Insert(x, s, key), key)
  {
    if |s| > 0 && !LexLeq(key(x), key(s[0])) {
      LexTotal(key(x), key(s[0]));
      var rest := Insert(x, s[1..], key);
      InsertAscending(x, s[1..], key);
      var r := [s[0]] + rest;
      forall j | 0 < j < |r|
        ensures LexLeq(key(s[0]), key(r[j]))
      {
        InsertElements(x, s[1..], key, r[j]);
        if r[j] != x {
          var k :| 0 <= k < |s[1..]| && s[1..][k] == r[j];
          assert s[k + 1] == r[j];
        }
      }
    } else if |s| > 0 {
      var r := [x] + s;
      forall i, j | 0 <= i < j < |r|
        ensures LexLeq(key(r[i]), key(r[j]))
      {
        if i == 0 && j > 1 {
          LexTransitive(key(x), key(s[0]), key(s[j - 1]));
        }
      }
    }
  }

  /** `_.sortBy` returns its input in ascending order... */
  lemma {:induction false} SortByAscending<T>(s: seq<T>, key: T -> seq<int>)
    ensures Ascending(SortBy(s, key), key)
  {
    if |s| > 0 {
      SortByAscending(s[1..], key);
      InsertAscending(s[0], SortBy(s[1..], key), key);
    }
  }

  /** ...and it is a permutation of the input. */
  lemma {:induction false} SortByPermutation<T>(s: seq<T>, key: T -> seq<int>)
    ensures multiset(SortBy(s, key)) == multiset(s)
  {
    if |s| > 0 {
      SortByPermutation(s[1..], key);
      InsertPermutation(s[0], SortBy(s[1..], key), key);
      assert s == [s[0]] + s[1..];
    }
  }

  lemma {:induction false} ReversePermutation<T>(s: seq<T>)
    ensures multiset(Reverse(s)) == multiset(s)
  {
    if |s| > 0 {
      ReversePermutation(s[1..]);
      assert s == [s[0]] + s[1..];
    }
  }

  /** Reversing an ascending sequence gives a descending one. */
  lemma ReverseDescending<T>(s: seq<T>, key: T -> seq<int>)
    requires Ascending(s, key)
    ensures Descending(Reverse(s), key)
  {
    var r := Reverse(s);
    forall i, j | 0 <= i < j < |r|
      ensures LexLeq(key(r[j]), key(r[i]))
    {
      assert r[i] == s[|s| - 1 - i] && r[j] == s[|s| - 1 - j];
    }
  }

  /** The elements of `s` whose criteria are exactly `c`, in their order
      in `s`: a class of elements that the sort treats as ties. */
  function Ties<T>(s: seq<T>, key: T -> seq<int>, c: seq<int>): seq<T>
  {
    if |s| == 0 then []
    else if key(s[0]) == c then [s[0]] + Ties(s[1..], key, c)
    else Ties(s[1..], key, c)
  }

  /** Inserting `x` puts it in front of every element it ties with. */
  lemma {:induction false} InsertTies<T>(x: T, s: seq<T>, key: T -> seq<int>, c: seq<int>)
    ensures Ties(Insert(x, s, key), key, c) == (if key(x) == c then [x] else []) + Ties(s, key, c)
  {
    var r := Insert(x, s, key);
    if |s| == 0 || LexLeq(key(x), key(s[0])) {
      assert r[0] == x && r[1..] == s;
    } else {
      LexReflexive(key(x));
      assert key(s[0]) != key(x);
      assert r[0] == s[0] && r[1..] == Insert(x, s[1..], key);
      InsertTies(x, s[1..], key, c);
    }
  }

  /** `_.sortBy` is stable: elements that tie keep their input order. */
  lemma {:induction false} SortByStable<T>(s: seq<T>, key: T -> seq<int>, c: seq<int>)
    ensures Ties(SortBy(s, key), key, c) == Ties(s, key, c)
  {
    if |s| > 0 {
      SortByStable(s[1..], key, c);
      InsertTies(s[0], SortBy(s[1..], key), key, c);
    }
  }

  /** Reversing reverses every class of ties. */
  lemma {:induction false} ReverseTies<T>(s: seq<T>, key: T -> seq<int>, c: seq<int>)
    ensures Ties(Reverse(s), key, c) == Reverse(Ties(s, key, c))
  {
    if |s| > 0 {
      ReverseTies(s[1..], key, c);
      TiesAppend(Reverse(s[1..]), [s[0]], key, c);
    }
  }

  lemma {:induction false} TiesAppend<T>(s: seq<T>, t: seq<T>, key: T -> seq<int>, c: seq<int>)
    ensures Ties(s + t, key, c) == Ties(s, key, c) + Ties(t, key, c)
  {
    if |s| == 0 {
      assert s + t == t;
    } else {
      assert (s + t)[0] == s[0] && (s + t)[1..] == s[1..] + t;
      TiesAppend(s[1..], t, key, c);
    }
  }

  /** Criteria that agree on every element give the same order. */
  lemma {:induction false} SortBySameCriteria<T>(s: seq<T>, k1: T -> seq<int>, k2: T -> seq<int>)
    requires forall x :: k1(x) == k2(x)
    ensures SortBy(s, k1) == SortBy(s, k2)
  {
    if |s| > 0 {
      SortBySameCriteria(s[1..], k1, k2);
      InsertSameCriteria(s[0], SortBy(s[1..], k1), k1, k2);
    }
  }

  lemma {:induction false} InsertSameCriteria<T>(x: T, s: seq<T>, k1: T -> seq<int>, k2: T -> seq<int>)
    requires forall y :: k1(y) == k2(y)
    ensures Insert(x, s, k1) == Insert(x, s, k2)
  {
    if |s| > 0 {
      InsertSameCriteria(x, s[1..], k1, k2);
    }
  }
}
