/**
 * `Array.prototype.sort` with the comparator `(a, b) => key(a) < key(b) ? -1 : 1`.
 * The comparator never answers 0, so for equal keys ECMAScript leaves the order
 * to the engine; the model inserts each element after every element whose key is
 * not greater, which is the stable order a binary-insertion engine produces.
 */
module Sorting {
  import opened Strings

  /** Non-decreasing by `key` under JavaScript's string `<`. */
  predicate SortedBy<T>(s: seq<T>, key: T -> string) {
    forall i, j :: 0 <= i < j < |s| ==> !StrLess(key(s[j]), key(s[i]))
  }

  /** Strictly increasing by `key`: sorted with no two keys equal. */
  predicate StrictlySortedBy<T>(s: seq<T>, key: T -> string) {
    forall i, j :: 0 <= i < j < |s| ==> StrLess(key(s[i]), key(s[j]))
  }

  /** Place `x` before the first element the comparator puts after it. */
  function Insert<T>(x: T, s: seq<T>, key: T -> string): (r: seq<T>)
    ensures |r| == |s| + 1
  {
    if s == [] then [x]
    else if StrLess(key(x), key(s[0])) then [x] + s
    else [s[0]] + Insert(x, s[1..], key)
  }

  /** `s.sort(comparator)` */
  function SortBy<T>(s: seq<T>, key: T -> string): (r: seq<T>)
    ensures |r| == |s|
  {
    if s == [] then []
    else Insert(s[|s| - 1], SortBy(s[..|s| - 1], key), key)
  }

  lemma {:induction false} InsertMultiset<T>(x: T, s: seq<T>, key: T -> string)
    ensures multiset(Insert(x, s, key)) == multiset(s) + multiset{x}
  {
    if s != [] && !StrLess(key(x), key(s[0])) {
      InsertMultiset(x, s[1..], key);
      assert s == [s[0]] + s[1..];
    }
  }

  /** Every key of `Insert(x, s)` is at least `lo` when every key of `s` and `x`'s key are. */
  lemma {:induction false} InsertAbove<T>(x: T, s: seq<T>, key: T -> string, lo: string)
    requires forall i :: 0 <= i < |s| ==> !StrLess(key(s[i]), lo)
    requires !StrLess(key(x), lo)
    ensures forall i :: 0 <= i < |Insert(x, s, key)| ==> !StrLess(key(Insert(x, s, key)[i]), lo)
  {
    if s != [] && !StrLess(key(x), key(s[0])) {
      InsertAbove(x, s[1..], key, lo);
      var t := Insert(x, s[1..], key);
      assert Insert(x, s, key) == [s[0]] + t;
      forall i | 0 <= i < |[s[0]] + t| ensures !StrLess(key(([s[0]] + t)[i]), lo) {
        if i > 0 {
          assert ([s[0]] + t)[i] == t[i - 1];
        }
      }
    }
  }

  lemma {:induction false} InsertSorted<T>(x: T, s: seq<T>, key: T -> string)
    requires SortedBy(s, key)
    ensures SortedBy(Insert(x, s, key), key)
  {
    if s == [] {
    } else if StrLess(key(x), key(s[0])) {
      var r := [x] + s;
      forall i, j | 0 <= i < j < |r| ensures !StrLess(key(r[j]), key(r[i])) {
        if i == 0 {
          if StrLess(key(r[j]), key(x)) {
            if j == 1 {
              StrLessAsymmetric(key(x), key(s[0]));
            } else {
              StrLessTransitive(key(r[j]), key(x), key(s[0]));
            }
          }
        }
      }
    } else {
      var t := Insert(x, s[1..], key);
      InsertSorted(x, s[1..], key);
      assert forall i :: 0 <= i < |s[1..]| ==> !StrLess(key(s[1..][i]), key(s[0]));
      InsertAbove(x, s[1..], key, key(s[0]));
      var r := [s[0]] + t;
      forall i, j | 0 <= i < j < |r| ensures !StrLess(key(r[j]), key(r[i])) {
        assert r[j] == t[j - 1];
        if i > 0 {
          assert r[i] == t[i - 1];
        }
      }
    }
  }

  /** The sort returns a permutation of its input, ordered by `key`. */
  lemma {:induction false} SortBySortsAndPermutes<T>(s: seq<T>, key: T -> string)
    ensures SortedBy(SortBy(s, key), key)
    ensures multiset(SortBy(s, key)) == multiset(s)
  {
    if s != [] {
      var front, last := s[..|s| - 1], s[|s| - 1];
      SortBySortsAndPermutes(front, key);
      InsertSorted(last, SortBy(front, key), key);
      InsertMultiset(last, SortBy(front, key), key);
      assert s == front + [last];
    }
  }

  /** Every key of `Insert(x, s)` is above `lo` when every key of `s` and `x`'s key are. */
  lemma {:induction false} InsertStrictlyAbove<T>(x: T, s: seq<T>, key: T -> string, lo: string)
    requires forall i :: 0 <= i < |s| ==> StrLess(lo, key(s[i]))
    requires StrLess(lo, key(x))
    ensures forall i :: 0 <= i < |Insert(x, s, key)| ==> StrLess(lo, key(Insert(x, s, key)[i]))
  {
    if s != [] && !StrLess(key(x), key(s[0])) {
      InsertStrictlyAbove(x, s[1..], key, lo);
      var t := Insert(x, s[1..], key);
      assert Insert(x, s, key) == [s[0]] + t;
      forall i | 0 <= i < |[s[0]] + t| ensures StrLess(lo, key(([s[0]] + t)[i])) {
        if i > 0 {
          assert ([s[0]] + t)[i] == t[i - 1];
        }
      }
    }
  }

  /** Inserting an element whose key differs from every key keeps a strict order strict. */
  lemma {:induction false} InsertStrictlySorted<T>(x: T, s: seq<T>, key: T -> string)
    requires StrictlySortedBy(s, key)
    requires forall i :: 0 <= i < |s| ==> key(s[i]) != key(x)
    ensures StrictlySortedBy(Insert(x, s, key), key)
  {
    if s == [] {
    } else if StrLess(key(x), key(s[0])) {
      var r := [x] + s;
      forall i, j | 0 <= i < j < |r| ensures StrLess(key(r[i]), key(r[j])) {
        if i == 0 && j > 1 {
          StrLessTransitive(key(x), key(s[0]), key(r[j]));
        }
      }
    } else {
      StrLessTotal(key(x), key(s[0]));
      var t := Insert(x, s[1..], key);
      InsertStrictlySorted(x, s[1..], key);
      assert forall i :: 0 <= i < |s[1..]| ==> StrLess(key(s[0]), key(s[1..][i]));
      InsertStrictlyAbove(x, s[1..], key, key(s[0]));
      var r := [s[0]] + t;
      forall i, j | 0 <= i < j < |r| ensures StrLess(key(r[i]), key(r[j])) {
        assert r[j] == t[j - 1];
        if i > 0 {
          assert r[i] == t[i - 1];
        }
      }
    }
  }

  /** With pairwise different keys the sorted result is strictly increasing. */
  lemma {:induction false} SortByStrict<T>(s: seq<T>, key: T -> string)
    requires forall i, j :: 0 <= i < j < |s| ==> key(s[i]) != key(s[j])
    ensures StrictlySortedBy(SortBy(s, key), key)
  {
    if s != [] {
      var front, last := s[..|s| - 1], s[|s| - 1];
      SortByStrict(front, key);
      var t := SortBy(front, key);
      SortBySortsAndPermutes(front, key);
      forall i | 0 <= i < |t| ensures key(t[i]) != key(last) {
        assert t[i] in multiset(front);
        var k :| 0 <= k < |front| && front[k] == t[i];
        assert s[k] == t[i];
      }
      InsertStrictlySorted(last, t, key);
    }
  }

  /** Two arrangements of the same elements, the first strictly sorted and the
      second sorted, start with the same element. */
  lemma SameHead<T>(a: seq<T>, b: seq<T>, key: T -> string)
    requires StrictlySortedBy(a, key) && SortedBy(b, key)
    requires multiset(a) == multiset(b) && |a| > 0
    ensures |b| > 0 && a[0] == b[0]
  {
    assert a[0] in multiset(b);
    var m :| 0 <= m < |b| && b[m] == a[0];
    assert b[0] in multiset(a);
    var k :| 0 <= k < |a| && a[k] == b[0];
    if k != 0 {
      assert StrLess(key(a[0]), key(b[0]));
      if m == 0 {
        StrLessIrreflexive(key(a[0]));
      }
    }
  }

  lemma TailMultiset<T>(s: seq<T>)
    requires |s| > 0
    ensures multiset(s[1..]) == multiset(s) - multiset{s[0]}
  {
    assert s == [s[0]] + s[1..];
  }

  /** A strictly sorted sequence is the only sorted arrangement of its elements. */
  lemma {:induction false} StrictlySortedUnique<T>(a: seq<T>, b: seq<T>, key: T -> string)
    requires StrictlySortedBy(a, key) && SortedBy(b, key)
    requires multiset(a) == multiset(b)
    ensures a == b
    decreases |a|
  {
    if |a| == 0 {
      assert |b| == |multiset(b)| == 0;
    } else {
      SameHead(a, b, key);
      TailMultiset(a);
      TailMultiset(b);
      StrictlySortedUnique(a[1..], b[1..], key);
      assert a == [a[0]] + a[1..] && b == [b[0]] + b[1..];
    }
  }
}
