/**
 * `Array.prototype.sort` with a comparator `(a, b) => key(b) - key(a)`: a stable sort into
 * descending key order, written as an insertion sort, and `slice(0, n)` of the result.
 */
module Sorting {

  predicate SortedDesc<T>(s: seq<T>, key: T -> int) {
    forall i | 0 < i < |s| :: key(s[i - 1]) >= key(s[i])
  }

  /** Neighbouring order extends to every pair of positions. */
  lemma {:induction false} SortedDescAll<T>(s: seq<T>, key: T -> int)
    requires SortedDesc(s, key)
    ensures forall i, j | 0 <= i <= j < |s| :: key(s[i]) >= key(s[j])
  {
    if |s| > 1 {
      var t := s[1..];
      assert SortedDesc(t, key) by {
        forall i | 0 < i < |t| ensures key(t[i - 1]) >= key(t[i]) {
          assert t[i - 1] == s[i] && t[i] == s[i + 1];
        }
      }
      SortedDescAll(t, key);
      forall i, j | 0 <= i <= j < |s| ensures key(s[i]) >= key(s[j]) {
        if 0 < i {
          assert s[i] == t[i - 1] && s[j] == t[j - 1];
        } else if 0 < j {
          assert s[1] == t[0] && s[j] == t[j - 1];
        }
      }
    }
  }

  /** Put `x` in front of the first element whose key is not above its own, so ties keep `x` first. */
  function InsertDesc<T(==)>(x: T, s: seq<T>, key: T -> int): (r: seq<T>)
    requires SortedDesc(s, key)
    ensures SortedDesc(r, key)
    ensures multiset(r) == multiset(s) + multiset{x}
    ensures r[0] == x || (s != [] && r[0] == s[0])
  {
    if s == [] || key(s[0]) <= key(x) then [x] + s
    else
      var rest := InsertDesc(x, s[1..], key);
      assert s == [s[0]] + s[1..];
      [s[0]] + rest
  }

  function SortDesc<T(==)>(s: seq<T>, key: T -> int): (r: seq<T>)
    ensures SortedDesc(r, key) && multiset(r) == multiset(s)
  {
    if s == [] then []
    else
      assert s == [s[0]] + s[1..];
      InsertDesc(s[0], SortDesc(s[1..], key), key)
  }

  /** The elements of `s` whose key is `k`, in their order in `s`. */
  function WithKey<T>(s: seq<T>, key: T -> int, k: int): seq<T>
  {
    if s == [] then []
    else (if key(s[0]) == k then [s[0]] else []) + WithKey(s[1..], key, k)
  }

  lemma WithKeyCons<T>(x: T, s: seq<T>, key: T -> int, k: int)
    ensures WithKey([x] + s, key, k) == (if key(x) == k then [x] else []) + WithKey(s, key, k)
  {
    assert ([x] + s)[1..] == s;
  }

  lemma SortedDescTail<T>(s: seq<T>, key: T -> int)
    requires SortedDesc(s, key) && s != []
    ensures SortedDesc(s[1..], key)
  {
    forall i | 0 < i < |s[1..]| ensures key(s[1..][i - 1]) >= key(s[1..][i]) {
      assert s[1..][i - 1] == s[i] && s[1..][i] == s[i + 1];
    }
  }

  /** Inserting `x` puts it in front of every element with its key and moves no other. */
  lemma {:induction false} InsertDescKeepsTies<T>(x: T, s: seq<T>, key: T -> int, k: int)
    requires SortedDesc(s, key)
    ensures WithKey(InsertDesc(x, s, key), key, k) == (if key(x) == k then [x] else []) + WithKey(s, key, k)
  {
    if s == [] || key(s[0]) <= key(x) {
      WithKeyCons(x, s, key, k);
    } else {
      SortedDescTail(s, key);
      var rest := InsertDesc(x, s[1..], key);
      assert InsertDesc(x, s, key) == [s[0]] + rest;
      InsertDescKeepsTies(x, s[1..], key, k);
      WithKeyCons(s[0], rest, key, k);
      WithKeyCons(s[0], s[1..], key, k);
      assert s == [s[0]] + s[1..];
      if key(x) == k {
        assert WithKey(s, key, k) == WithKey(s[1..], key, k);
      } else {
        assert WithKey(rest, key, k) == WithKey(s[1..], key, k);
      }
    }
  }

  /** The sort is stable: elements with equal keys keep their input order. */
  lemma {:induction false} SortDescStable<T>(s: seq<T>, key: T -> int, k: int)
    ensures WithKey(SortDesc(s, key), key, k) == WithKey(s, key, k)
  {
    if s != [] {
      SortDescStable(s[1..], key, k);
      InsertDescKeepsTies(s[0], SortDesc(s[1..], key), key, k);
    }
  }

  /** `slice(0, n)`. */
  function TakeFirst<T>(s: seq<T>, n: nat): (r: seq<T>)
    ensures |r| == if |s| < n then |s| else n
    ensures r == s[..|r|]
  {
    if |s| <= n then s else s[..n]
  }

  /**
   * The first `n` of a descending sort are the best: they hold the elements of the input, in
   * descending order, and nothing left behind has a higher key than anything taken.
   */
  lemma TopOf<T>(s: seq<T>, key: T -> int, n: nat)
    ensures var sorted := SortDesc(s, key);
            var top := TakeFirst(sorted, n);
            && SortedDesc(top, key)
            && (forall x | x in top :: x in s)
            && (forall i, j | 0 <= i < |top| <= j < |sorted| :: key(sorted[j]) <= key(top[i]))
  {
    var sorted := SortDesc(s, key);
    SortedDescAll(sorted, key);
    var top := TakeFirst(sorted, n);
    forall x | x in top ensures x in s {
      assert x in multiset(sorted);
    }
  }

  /** Whatever the first `n` leave out ranks no higher than anything they keep. */
  lemma TopExcludes<T>(s: seq<T>, key: T -> int, n: nat)
    ensures var top := TakeFirst(SortDesc(s, key), n);
            forall x, i | x in s && x !in top && 0 <= i < |top| :: key(x) <= key(top[i])
  {
    var sorted := SortDesc(s, key);
    var top := TakeFirst(sorted, n);
    SortedDescAll(sorted, key);
    forall x, i | x in s && x !in top && 0 <= i < |top| ensures key(x) <= key(top[i]) {
      assert x in multiset(sorted);
      var k :| 0 <= k < |sorted| && sorted[k] == x;
      assert top[i] == sorted[i];
    }
  }
}
