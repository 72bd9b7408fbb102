/** `Array.prototype.sort` with a numeric comparator `(a, b) => key(a) - key(b)`,
    which is stable: a stable insertion sort on sequences, proved sorted, a
    permutation of its input, and order-preserving among equal keys. */
module Sorting {
  import opened Seqs

  ghost predicate SortedBy<T>(s: seq<T>, key: T -> int) {
    forall i, j :: 0 <= i < j < |s| ==> key(s[i]) <= key(s[j])
  }

  /** The test `x => key(x) === d`. */
  function KeyEquals<T>(key: T -> int, d: int): T -> bool {
    x => key(x) == d
  }

  /** Inserts `x` before the first element whose key is not smaller. */
  function InsertBy<T>(x: T, s: seq<T>, key: T -> int): (r: seq<T>)
    ensures multiset(r) == multiset(s) + multiset{x}
    decreases |s|
  {
    if |s| == 0 || key(x) <= key(s[0]) then [x] + s
    else
      assert s == [s[0]] + s[1..];
      [s[0]] + InsertBy(x, s[1..], key)
  }

  lemma {:induction false} InsertKeepsSorted<T>(x: T, s: seq<T>, key: T -> int)
    requires SortedBy(s, key)
    ensures SortedBy(InsertBy(x, s, key), key)
    decreases |s|
  {
    if |s| > 0 && key(x) > key(s[0]) {
      var t := s[1..];
      assert SortedBy(t, key) by {
        forall i, j | 0 <= i < j < |t| ensures key(t[i]) <= key(t[j]) {
          assert t[i] == s[i + 1] && t[j] == s[j + 1];
        }
      }
      InsertKeepsSorted(x, t, key);
      var u := InsertBy(x, t, key);
      var r := [s[0]] + u;
      forall i, j | 0 <= i < j < |r| ensures key(r[i]) <= key(r[j]) {
        if i == 0 {
          assert r[j] in multiset(u);
          assert r[j] == x || r[j] in multiset(t);
          if r[j] != x {
            var m :| 0 <= m < |t| && t[m] == r[j];
            assert s[m + 1] == r[j];
          }
        } else {
          assert r[i] == u[i - 1] && r[j] == u[j - 1];
        }
      }
    }
  }

  /** Inserting into a sorted sequence puts `x` after every element of equal
      key: among the elements with any one key, order is kept. */
  lemma {:induction false} InsertKeepsEqualKeyOrder<T>(x: T, s: seq<T>, key: T -> int, d: int)
    requires SortedBy(s, key)
    ensures Filter(InsertBy(x, s, key), KeyEquals(key, d)) ==
              if key(x) == d then [x] + Filter(s, KeyEquals(key, d))
              else Filter(s, KeyEquals(key, d))
    decreases |s|
  {
    var p := KeyEquals(key, d);
    if |s| == 0 || key(x) <= key(s[0]) {
      FilterCons(x, s, p);
    } else {
      var t := s[1..];
      assert SortedBy(t, key) by {
        forall i, j | 0 <= i < j < |t| ensures key(t[i]) <= key(t[j]) {
          assert t[i] == s[i + 1] && t[j] == s[j + 1];
        }
      }
      InsertKeepsEqualKeyOrder(x, t, key, d);
      FilterCons(s[0], InsertBy(x, t, key), p);
      assert s == [s[0]] + t;
      FilterCons(s[0], t, p);
    }
  }

  /** `s.slice().sort((a, b) => key(a) - key(b))`. */
  function SortBy<T>(s: seq<T>, key: T -> int): (r: seq<T>)
    ensures multiset(r) == multiset(s)
    decreases |s|
  {
    if |s| == 0 then []
    else
      assert s == [s[0]] + s[1..];
      InsertBy(s[0], SortBy(s[1..], key), key)
  }

  /** The sort orders by ascending key. */
  lemma {:induction false} SortBySorted<T>(s: seq<T>, key: T -> int)
    ensures SortedBy(SortBy(s, key), key)
    decreases |s|
  {
    if |s| > 0 {
      SortBySorted(s[1..], key);
      InsertKeepsSorted(s[0], SortBy(s[1..], key), key);
    }
  }

  /** The sort is stable: the elements with any one key appear in the order
      they had in the input. */
  lemma {:induction false} SortByStable<T>(s: seq<T>, key: T -> int, d: int)
    ensures Filter(SortBy(s, key), KeyEquals(key, d)) == Filter(s, KeyEquals(key, d))
    decreases |s|
  {
    if |s| > 0 {
      var t, p := s[1..], KeyEquals(key, d);
      var sorted := SortBy(t, key);
      SortByStable(t, key, d);
      SortBySorted(t, key);
      InsertKeepsEqualKeyOrder(s[0], sorted, key, d);
      assert s == [s[0]] + t;
      FilterCons(s[0], t, p);
    }
  }
}
