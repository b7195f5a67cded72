/**
 * A stable sort by an integer key, in descending key order. This is the
 * behaviour of Python's `sorted(..., reverse=True)` and, with the key negated,
 * of JavaScript's (stable) `Array.prototype.sort` with a numeric comparator.
 * Elements with equal keys keep their input order.
 */
module StableSort {

  /** Non-increasing keys along the sequence. */
  predicate SortedDesc<T>(s: seq<T>, key: T -> int)
  {
    forall i, j :: 0 <= i < j < |s| ==> key(s[i]) >= key(s[j])
  }

  /** The elements of `s` whose key is `k`, in their order in `s`. */
  function KeyFilter<T>(s: seq<T>, key: T -> int, k: int): seq<T>
    decreases |s|
  {
    if s == [] then []
    else if key(s[0]) == k then [s[0]] + KeyFilter(s[1..], key, k)
    else KeyFilter(s[1..], key, k)
  }

  /** `x` goes in front of the first element whose key is not greater than its own. */
  function Insert<T>(x: T, s: seq<T>, key: T -> int): seq<T>
    decreases |s|
  {
    if s == [] then [x]
    else if key(s[0]) <= key(x) then [x] + s
    else [s[0]] + Insert(x, s[1..], key)
  }

  function SortDesc<T>(s: seq<T>, key: T -> int): seq<T>
    decreases |s|
  {
    if s == [] then [] else Insert(s[0], SortDesc(s[1..], key), key)
  }

  // ---------------------------------------------------------------- Insert

  lemma {:induction false} InsertMultiset<T>(x: T, s: seq<T>, key: T -> int)
    ensures multiset(Insert(x, s, key)) == multiset(s) + multiset{x}
    ensures |Insert(x, s, key)| == |s| + 1
    decreases |s|
  {
    if s != [] && key(s[0]) > key(x) {
      InsertMultiset(x, s[1..], key);
      assert s == [s[0]] + s[1..];
    }
  }

  lemma {:induction false} InsertSorted<T>(x: T, s: seq<T>, key: T -> int)
    requires SortedDesc(s, key)
    ensures SortedDesc(Insert(x, s, key), key)
    decreases |s|
  {
    if s != [] && key(s[0]) > key(x) {
      InsertSorted(x, s[1..], key);
      InsertMultiset(x, s[1..], key);
      var r := Insert(x, s[1..], key);
      forall j | 0 <= j < |r| ensures key(s[0]) >= key(r[j]) {
        assert r[j] in multiset(r);
        assert r[j] in multiset(s[1..]) + multiset{x};
        if r[j] != x {
          assert r[j] in s[1..];
        }
      }
    }
  }

  lemma {:induction false} InsertKeyFilter<T>(x: T, s: seq<T>, key: T -> int, k: int)
    ensures KeyFilter(Insert(x, s, key), key, k) ==
            (if key(x) == k then [x] + KeyFilter(s, key, k) else KeyFilter(s, key, k))
    decreases |s|
  {
    if s == [] {
    } else if key(s[0]) <= key(x) {
      assert ([x] + s)[1..] == s;
    } else {
      InsertKeyFilter(x, s[1..], key, k);
      assert ([s[0]] + Insert(x, s[1..], key))[1..] == Insert(x, s[1..], key);
    }
  }

  // ---------------------------------------------------------------- SortDesc

  lemma {:induction false} SortDescPermutes<T>(s: seq<T>, key: T -> int)
    ensures multiset(SortDesc(s, key)) == multiset(s)
    ensures |SortDesc(s, key)| == |s|
    decreases |s|
  {
    if s != [] {
      var r := SortDesc(s[1..], key);
      SortDescPermutes(s[1..], key);
      InsertMultiset(s[0], r, key);
      assert s == [s[0]] + s[1..];
    }
  }

  lemma {:induction false} SortDescSorted<T>(s: seq<T>, key: T -> int)
    ensures SortedDesc(SortDesc(s, key), key)
    decreases |s|
  {
    if s != [] {
      SortDescSorted(s[1..], key);
      InsertSorted(s[0], SortDesc(s[1..], key), key);
    }
  }

  /** The result is a permutation of the input, sorted by non-increasing key. */
  lemma SortDescCorrect<T>(s: seq<T>, key: T -> int)
    ensures SortedDesc(SortDesc(s, key), key)
    ensures multiset(SortDesc(s, key)) == multiset(s)
    ensures |SortDesc(s, key)| == |s|
  {
    SortDescPermutes(s, key);
    SortDescSorted(s, key);
  }

  /** Stability: for every key value, the elements with that key keep their input order. */
  lemma {:induction false} SortDescStable<T>(s: seq<T>, key: T -> int, k: int)
    ensures KeyFilter(SortDesc(s, key), key, k) == KeyFilter(s, key, k)
    decreases |s|
  {
    if s != [] {
      SortDescStable(s[1..], key, k);
      InsertKeyFilter(s[0], SortDesc(s[1..], key), key, k);
    }
  }

  /** Sorting an already sorted sequence changes nothing. */
  lemma {:induction false} SortDescOfSorted<T>(s: seq<T>, key: T -> int)
    requires SortedDesc(s, key)
    ensures SortDesc(s, key) == s
    decreases |s|
  {
    if s != [] {
      SortDescOfSorted(s[1..], key);
      assert SortDesc(s[1..], key) == s[1..];
      if |s| > 1 {
        assert key(s[1]) <= key(s[0]);
      }
      assert [s[0]] + s[1..] == s;
    }
  }

  // ---------------------------------------------------------------- KeyFilter

  lemma {:induction false} KeyFilterSubset<T>(s: seq<T>, key: T -> int, k: int)
    ensures multiset(KeyFilter(s, key, k)) <= multiset(s)
    ensures forall x :: x in KeyFilter(s, key, k) ==> x in s && key(x) == k
    decreases |s|
  {
    if s != [] {
      KeyFilterSubset(s[1..], key, k);
      assert s == [s[0]] + s[1..];
    }
  }

  /** Selecting the elements with one key keeps any order the sequence had by another key. */
  lemma {:induction false} KeyFilterKeepsSorted<T>(s: seq<T>, key: T -> int, sel: T -> int, k: int)
    requires SortedDesc(s, key)
    ensures SortedDesc(KeyFilter(s, sel, k), key)
    decreases |s|
  {
    if s != [] {
      KeyFilterKeepsSorted(s[1..], key, sel, k);
      KeyFilterSubset(s[1..], sel, k);
      var f := KeyFilter(s[1..], sel, k);
      if sel(s[0]) == k {
        forall j | 0 <= j < |f| ensures key(s[0]) >= key(f[j]) {
          assert f[j] in s[1..];
        }
      }
    }
  }

  lemma {:induction false} KeyFilterAppend<T>(a: seq<T>, b: seq<T>, key: T -> int, k: int)
    ensures KeyFilter(a + b, key, k) == KeyFilter(a, key, k) + KeyFilter(b, key, k)
    decreases |a|
  {
    if a != [] {
      KeyFilterAppend(a[1..], b, key, k);
      assert (a + b)[0] == a[0];
      assert (a + b)[1..] == a[1..] + b;
      if key(a[0]) == k {
        assert KeyFilter(a + b, key, k) == [a[0]] + KeyFilter(a[1..] + b, key, k);
      } else {
        assert KeyFilter(a + b, key, k) == KeyFilter(a[1..] + b, key, k);
      }
    } else {
      assert a + b == b;
    }
  }

  /** Truncating a sequence truncates each of its key groups. */
  lemma KeyFilterPrefix<T>(s: seq<T>, n: nat, key: T -> int, k: int)
    requires n <= |s|
    ensures IsSeqPrefix(KeyFilter(s[..n], key, k), KeyFilter(s, key, k))
  {
    KeyFilterAppend(s[..n], s[n..], key, k);
    assert s[..n] + s[n..] == s;
  }

  predicate IsSeqPrefix<T(==)>(p: seq<T>, s: seq<T>)
  {
    |p| <= |s| && s[..|p|] == p
  }

  lemma SortedPrefix<T>(s: seq<T>, n: nat, key: T -> int)
    requires n <= |s| && SortedDesc(s, key)
    ensures SortedDesc(s[..n], key)
  {
  }

  /** What a prefix leaves out of a sequence is exactly the rest of it. */
  lemma PrefixRest<T>(s: seq<T>, n: nat, y: T)
    requires n <= |s| && y in multiset(s) - multiset(s[..n])
    ensures exists j :: n <= j < |s| && s[j] == y
  {
    assert s == s[..n] + s[n..];
    assert multiset(s) - multiset(s[..n]) == multiset(s[n..]);
    assert y in s[n..];
    var j :| 0 <= j < |s[n..]| && s[n..][j] == y;
    assert s[n + j] == y;
  }

  /** Cutting a sorted sequence keeps the elements of highest key. */
  lemma SortedPrefixFirst<T>(s: seq<T>, n: nat, key: T -> int, x: T, y: T)
    requires n <= |s| && SortedDesc(s, key)
    requires x in s[..n] && y in multiset(s) - multiset(s[..n])
    ensures key(y) <= key(x)
  {
    PrefixRest(s, n, y);
    var i :| 0 <= i < n && s[..n][i] == x;
    assert s[i] == x;
  }

  // ---------------------------------------------------------------- two keys

  /** `x` may precede `y`: a greater `major` key, or an equal one and a `minor` key no smaller. */
  predicate Before<T>(x: T, y: T, major: T -> int, minor: T -> int)
  {
    major(x) > major(y) || (major(x) == major(y) && minor(x) >= minor(y))
  }

  /** Ordered by non-increasing `major` key, and by non-increasing `minor` key within it. */
  predicate LexSorted<T>(s: seq<T>, major: T -> int, minor: T -> int)
  {
    forall i, j :: 0 <= i < j < |s| ==> Before(s[i], s[j], major, minor)
  }

  lemma {:induction false} InsertLex<T>(x: T, t: seq<T>, major: T -> int, minor: T -> int)
    requires LexSorted(t, major, minor)
    requires forall y :: y in t ==> minor(y) <= minor(x)
    ensures LexSorted(Insert(x, t, major), major, minor)
    decreases |t|
  {
    if t == [] {
    } else if major(t[0]) <= major(x) {
      var r := [x] + t;
      forall i, j | 0 <= i < j < |r| ensures Before(r[i], r[j], major, minor) {
        assert r[j] == t[j - 1];
        if i == 0 {
          assert t[j - 1] in t;
          if j > 1 {
            assert Before(t[0], t[j - 1], major, minor);
          }
        } else {
          assert r[i] == t[i - 1];
        }
      }
    } else {
      assert forall y :: y in t[1..] ==> y in t;
      InsertLex(x, t[1..], major, minor);
      InsertMultiset(x, t[1..], major);
      var r := Insert(x, t[1..], major);
      var u := [t[0]] + r;
      forall i, j | 0 <= i < j < |u| ensures Before(u[i], u[j], major, minor) {
        assert u[j] == r[j - 1];
        if i == 0 {
          assert u[j] in multiset(r);
          if u[j] != x {
            assert u[j] in multiset(t[1..]);
            var m :| 0 <= m < |t[1..]| && t[1..][m] == u[j];
            assert Before(t[0], t[m + 1], major, minor);
          }
        } else {
          assert u[i] == r[i - 1];
        }
      }
    }
  }

  /**
   * Sorting by `major` a sequence already sorted by `minor` orders it by
   * `major` and, within equal `major` keys, by `minor`: the stability that
   * two successive sorts rely on.
   */
  lemma {:induction false} SortDescLex<T>(s: seq<T>, major: T -> int, minor: T -> int)
    requires SortedDesc(s, minor)
    ensures LexSorted(SortDesc(s, major), major, minor)
    decreases |s|
  {
    if s != [] {
      SortDescLex(s[1..], major, minor);
      SortDescPermutes(s[1..], major);
      var t := SortDesc(s[1..], major);
      forall y | y in t ensures minor(y) <= minor(s[0]) {
        assert y in multiset(s[1..]);
        var m :| 0 <= m < |s[1..]| && s[1..][m] == y;
        assert s[m + 1] == y;
      }
      InsertLex(s[0], t, major, minor);
    }
  }

  /** Cutting a sequence ordered by two keys keeps the elements that come first. */
  lemma LexPrefixFirst<T>(s: seq<T>, n: nat, major: T -> int, minor: T -> int, x: T, y: T)
    requires n <= |s| && LexSorted(s, major, minor)
    requires x in s[..n] && y in multiset(s) - multiset(s[..n])
    ensures Before(x, y, major, minor)
  {
    PrefixRest(s, n, y);
    var i :| 0 <= i < n && s[..n][i] == x;
    assert s[i] == x;
  }
}
