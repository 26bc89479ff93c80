/** Python's `sorted(xs, key=k, reverse=True)`: a stable sort by a numeric key,
    largest first, that keeps equal-key elements in their original order. */
module Sorting {

  /** Places `x` in front of the first element whose key is not larger. */
  function Insert<T>(x: T, s: seq<T>, key: T -> real): (r: seq<T>)
    ensures |r| == |s| + 1
    ensures multiset(r) == multiset(s) + multiset{x}
  {
    if s == [] || key(x) >= key(s[0]) then [x] + s
    else
      assert s == [s[0]] + s[1..];
      [s[0]] + Insert(x, s[1..], key)
  }

  function SortDesc<T>(s: seq<T>, key: T -> real): (r: seq<T>)
    ensures |r| == |s|
    ensures multiset(r) == multiset(s)
  {
    if s == [] then []
    else
      assert s == [s[0]] + s[1..];
      Insert(s[0], SortDesc(s[1..], key), key)
  }

  /** `sorted(xs, key=k)`: ascending and stable, which is the descending stable
      sort on the negated key. */
  function SortAsc<T>(s: seq<T>, key: T -> real): seq<T> {
    SortDesc(s, x => -key(x))
  }

  ghost predicate NonIncreasing<T>(s: seq<T>, key: T -> real) {
    forall i, j :: 0 <= i < j < |s| ==> key(s[i]) >= key(s[j])
  }

  /** The elements of `s` whose key is `c`, in order. */
  function WithKey<T>(s: seq<T>, key: T -> real, c: real): seq<T> {
    if s == [] then [] else (if key(s[0]) == c then [s[0]] else []) + WithKey(s[1..], key, c)
  }

  lemma {:induction false} InsertSorted<T>(x: T, s: seq<T>, key: T -> real)
    requires NonIncreasing(s, key)
    ensures NonIncreasing(Insert(x, s, key), key)
    ensures forall y :: y in Insert(x, s, key) ==> y == x || y in s
  {
    if s == [] || key(x) >= key(s[0]) {
      var r := [x] + s;
      forall i, j | 0 <= i < j < |r| ensures key(r[i]) >= key(r[j]) {
        if i > 0 {
          assert r[i] == s[i - 1] && r[j] == s[j - 1];
        } else {
          assert r[j] == s[j - 1];
          assert key(s[0]) >= key(s[j - 1]);
        }
      }
    } else {
      var t := Insert(x, s[1..], key);
      InsertSorted(x, s[1..], key);
      var r := [s[0]] + t;
      forall i, j | 0 <= i < j < |r| ensures key(r[i]) >= key(r[j]) {
        if i > 0 {
          assert r[i] == t[i - 1] && r[j] == t[j - 1];
        } else {
          assert r[j] == t[j - 1];
          assert r[j] == x || r[j] in s[1..];
          if r[j] != x {
            var k :| 0 <= k < |s[1..]| && s[1..][k] == r[j];
            assert s[k + 1] == r[j];
          }
        }
      }
    }
  }

  /** The result is ordered by key, largest first. */
  lemma {:induction false} SortDescSorted<T>(s: seq<T>, key: T -> real)
    ensures NonIncreasing(SortDesc(s, key), key)
  {
    if s != [] {
      SortDescSorted(s[1..], key);
      InsertSorted(s[0], SortDesc(s[1..], key), key);
    }
  }

  lemma {:induction false} InsertWithKey<T>(x: T, s: seq<T>, key: T -> real, c: real)
    requires NonIncreasing(s, key)
    ensures WithKey(Insert(x, s, key), key, c)
         == (if key(x) == c then [x] else []) + WithKey(s, key, c)
  {
    if s == [] || key(x) >= key(s[0]) {
      assert ([x] + s)[1..] == s;
    } else {
      assert NonIncreasing(s[1..], key) by {
        forall i, j | 0 <= i < j < |s[1..]| ensures key(s[1..][i]) >= key(s[1..][j]) {
          assert s[1..][i] == s[i + 1] && s[1..][j] == s[j + 1];
        }
      }
      InsertWithKey(x, s[1..], key, c);
      assert ([s[0]] + Insert(x, s[1..], key))[1..] == Insert(x, s[1..], key);
      if key(s[0]) == c {
        assert key(x) != c;
      }
    }
  }

  /** Stability: the elements sharing any one key keep their original order. */
  lemma {:induction false} SortDescStable<T>(s: seq<T>, key: T -> real, c: real)
    ensures WithKey(SortDesc(s, key), key, c) == WithKey(s, key, c)
  {
    if s != [] {
      SortDescStable(s[1..], key, c);
      SortDescSorted(s[1..], key);
      InsertWithKey(s[0], SortDesc(s[1..], key), key, c);
    }
  }

  /** The ascending sort is ordered smallest first. */
  lemma SortAscSorted<T>(s: seq<T>, key: T -> real)
    ensures forall i, j :: 0 <= i < j < |SortAsc(s, key)| ==> key(SortAsc(s, key)[i]) <= key(SortAsc(s, key)[j])
  {
    SortDescSorted(s, x => -key(x));
  }

  /** `sorted(xs, key=k, reverse=True)[:n]`. */
  function TopN<T>(s: seq<T>, key: T -> real, n: nat): seq<T> {
    var sorted := SortDesc(s, key);
    if |sorted| > n then sorted[..n] else sorted
  }

  /** The first `n` of the sorted list: at most `n` elements of `s`, largest
      first, and all of `s` when it has no more than `n`. */
  lemma TopNProperties<T>(s: seq<T>, key: T -> real, n: nat)
    ensures |TopN(s, key, n)| <= n
    ensures NonIncreasing(TopN(s, key, n), key)
    ensures forall x :: x in TopN(s, key, n) ==> x in s
    ensures |s| <= n ==> multiset(TopN(s, key, n)) == multiset(s)
  {
    var sorted := SortDesc(s, key);
    var r := TopN(s, key, n);
    SortDescSorted(s, key);
    forall i, j | 0 <= i < j < |r| ensures key(r[i]) >= key(r[j]) {
      assert r[i] == sorted[i] && r[j] == sorted[j];
    }
    forall x | x in r ensures x in s {
      assert x in multiset(sorted);
    }
  }
}
