/** The array operations the store is built from (`find`, `filter`, `map`,
    `reduce`), as recursive functions over sequences, with the facts about
    them that the store's proofs use. */
module Seqs {

  /** `s.filter(keep)`. */
  function Filter<T(!new)>(s: seq<T>, keep: T -> bool): (r: seq<T>)
    ensures |r| <= |s|
    ensures forall x :: x in r <==> x in s && keep(x)
  {
    if |s| == 0 then []
    else if keep(s[0]) then [s[0]] + Filter(s[1..], keep)
    else Filter(s[1..], keep)
  }

  /** `r` is `s` with some elements deleted, the rest in their original order. */
  ghost predicate IsSubsequence<T>(r: seq<T>, s: seq<T>)
    decreases |s|
  {
    |r| == 0 || (|s| > 0 && ((r[0] == s[0] && IsSubsequence(r[1..], s[1..])) || IsSubsequence(r, s[1..])))
  }

  lemma {:induction false} SubsequenceOfSelf<T>(s: seq<T>)
    ensures IsSubsequence(s, s)
  {
    if |s| > 0 {
      SubsequenceOfSelf(s[1..]);
    }
  }

  lemma {:induction false} FilterIsSubsequence<T(!new)>(s: seq<T>, keep: T -> bool)
    ensures IsSubsequence(Filter(s, keep), s)
  {
    if |s| > 0 {
      FilterIsSubsequence(s[1..], keep);
      var r := Filter(s, keep);
      if keep(s[0]) {
        assert r[0] == s[0] && r[1..] == Filter(s[1..], keep);
      } else {
        assert r == Filter(s[1..], keep);
      }
    }
  }

  /** `filter` keeps every copy of an element that passes and no copy of one
      that fails. */
  lemma {:induction false} FilterCounts<T(!new)>(s: seq<T>, keep: T -> bool)
    ensures forall x :: multiset(Filter(s, keep))[x] == if keep(x) then multiset(s)[x] else 0
  {
    if |s| > 0 {
      FilterCounts(s[1..], keep);
      assert s == [s[0]] + s[1..];
    }
  }

  /** Filtering keeps a sequence whose every element passes. */
  lemma {:induction false} FilterKeepsAll<T(!new)>(s: seq<T>, keep: T -> bool)
    ensures (forall i :: 0 <= i < |s| ==> keep(s[i])) ==> Filter(s, keep) == s
  {
    if |s| > 0 {
      FilterKeepsAll(s[1..], keep);
      assert s == [s[0]] + s[1..];
    }
  }

  /** Filtering drops exactly one position when only that one fails. */
  lemma {:induction false} FilterDropsOne<T(!new)>(s: seq<T>, keep: T -> bool, k: int)
    requires 0 <= k < |s|
    requires forall j :: 0 <= j < |s| ==> (keep(s[j]) <==> j != k)
    ensures Filter(s, keep) == s[..k] + s[k + 1..]
  {
    var tail := s[1..];
    if k == 0 {
      assert forall i :: 0 <= i < |tail| ==> tail[i] == s[i + 1];
      FilterKeepsAll(tail, keep);
      assert s[..k] + s[k + 1..] == tail;
    } else {
      assert forall j :: 0 <= j < |tail| ==> tail[j] == s[j + 1];
      FilterDropsOne(tail, keep, k - 1);
      DropFromTail(s, k);
    }
  }

  /** Deleting a position after the first one deletes it from the tail. */
  lemma DropFromTail<T>(s: seq<T>, k: int)
    requires 0 < k < |s|
    ensures s[..k] + s[k + 1..] == [s[0]] + (s[1..][..k - 1] + s[1..][k..])
  {
    assert s[..k] == [s[0]] + s[1..][..k - 1];
  }

  /** No two elements of `s` share a key. */
  ghost predicate UniqueKeys<T>(s: seq<T>, key: T -> string) {
    forall i, j :: 0 <= i < j < |s| ==> key(s[i]) != key(s[j])
  }

  /** `s.find(x => key(x) === id)` finds something. */
  predicate HasKey<T>(s: seq<T>, key: T -> string, id: string) {
    exists i :: 0 <= i < |s| && key(s[i]) == id
  }

  /** Appending keeps keys unique exactly when the new key is not yet present. */
  lemma UniqueAppend<T>(s: seq<T>, x: T, key: T -> string)
    ensures UniqueKeys(s + [x], key) <==> UniqueKeys(s, key) && !HasKey(s, key, key(x))
  {
    var t := s + [x];
    if UniqueKeys(t, key) {
      forall i, j | 0 <= i < j < |s| ensures key(s[i]) != key(s[j]) {
        assert s[i] == t[i] && s[j] == t[j];
      }
      forall i | 0 <= i < |s| ensures key(s[i]) != key(x) {
        assert t[i] == s[i] && t[|s|] == x;
      }
    }
    if UniqueKeys(s, key) && !HasKey(s, key, key(x)) {
      forall i, j | 0 <= i < j < |t| ensures key(t[i]) != key(t[j]) {
        assert t[i] == s[i];
        if j == |s| {
          assert t[j] == x;
        } else {
          assert t[j] == s[j];
        }
      }
    }
  }

  lemma {:induction false} FilterKeepsUnique<T(!new)>(s: seq<T>, keep: T -> bool, key: T -> string)
    ensures UniqueKeys(s, key) ==> UniqueKeys(Filter(s, keep), key)
  {
    if |s| > 0 && UniqueKeys(s, key) {
      var tail := s[1..];
      assert UniqueKeys(tail, key) by {
        forall i, j | 0 <= i < j < |tail| ensures key(tail[i]) != key(tail[j]) {
          assert tail[i] == s[i + 1] && tail[j] == s[j + 1];
        }
      }
      FilterKeepsUnique(tail, keep, key);
      if keep(s[0]) {
        var t := Filter(tail, keep);
        var r := [s[0]] + t;
        forall i, j | 0 <= i < j < |r| ensures key(r[i]) != key(r[j]) {
          assert r[j] == t[j - 1];
          if i == 0 {
            assert t[j - 1] in tail;
            var m :| 0 <= m < |tail| && tail[m] == t[j - 1];
            assert tail[m] == s[m + 1];
          } else {
            assert r[i] == t[i - 1];
          }
        }
      }
    }
  }

  /** `s.filter(x => key(x) !== id)`: every element whose key is `id` is
      dropped, every other element is kept with all its copies, in order. */
  function Without<T(!new)>(s: seq<T>, key: T -> string, id: string): (r: seq<T>)
    ensures !HasKey(r, key, id)
    ensures forall x :: x in r <==> x in s && key(x) != id
    ensures forall x :: multiset(r)[x] == if key(x) != id then multiset(s)[x] else 0
    ensures IsSubsequence(r, s)
    ensures !HasKey(s, key, id) ==> r == s
    ensures UniqueKeys(s, key) ==> UniqueKeys(r, key)
  {
    var keep := (x: T) => key(x) != id;
    FilterIsSubsequence(s, keep);
    FilterKeepsAll(s, keep);
    FilterKeepsUnique(s, keep, key);
    FilterCounts(s, keep);
    var r := Filter(s, keep);
    assert forall i :: 0 <= i < |r| ==> r[i] in r && keep(r[i]);
    r
  }

  /** Under unique keys, removing a present key removes exactly that one position. */
  lemma WithoutOne<T(!new)>(s: seq<T>, key: T -> string, k: int)
    requires UniqueKeys(s, key)
    requires 0 <= k < |s|
    ensures Without(s, key, key(s[k])) == s[..k] + s[k + 1..]
  {
    var id := key(s[k]);
    FilterDropsOne(s, (x: T) => key(x) != id, k);
  }

  /** `s.map(x => key(x) === id ? f(x) : x)`. */
  function MapWhere<T>(s: seq<T>, key: T -> string, id: string, f: T -> T): (r: seq<T>)
    ensures |r| == |s|
    ensures forall i :: 0 <= i < |s| ==> r[i] == if key(s[i]) == id then f(s[i]) else s[i]
  {
    if |s| == 0 then []
    else [if key(s[0]) == id then f(s[0]) else s[0]] + MapWhere(s[1..], key, id, f)
  }

  /** `s.reduce((acc, x) => acc + f(x), acc)`. */
  function Reduce<T>(s: seq<T>, f: T -> int, acc: int): int {
    if |s| == 0 then acc else Reduce(s[1..], f, acc + f(s[0]))
  }

  /** The sum of `f` over `s`, accumulated from 0 as `reduce` does. */
  function Sum<T>(s: seq<T>, f: T -> int): (r: int)
    ensures |s| == 0 ==> r == 0
  {
    Reduce(s, f, 0)
  }

  /** The accumulator of a left fold only shifts the result. */
  lemma {:induction false} ReduceShift<T>(s: seq<T>, f: T -> int, acc: int)
    ensures Reduce(s, f, acc) == acc + Sum(s, f)
  {
    if |s| > 0 {
      ReduceShift(s[1..], f, acc + f(s[0]));
      ReduceShift(s[1..], f, f(s[0]));
    }
  }

  lemma SumCons<T>(s: seq<T>, f: T -> int)
    requires |s| > 0
    ensures Sum(s, f) == f(s[0]) + Sum(s[1..], f)
  {
    ReduceShift(s[1..], f, f(s[0]));
  }

  lemma {:induction false} SumAppend<T>(a: seq<T>, b: seq<T>, f: T -> int)
    ensures Sum(a + b, f) == Sum(a, f) + Sum(b, f)
  {
    if |a| == 0 {
      assert a + b == b;
    } else {
      assert (a + b)[0] == a[0];
      assert (a + b)[1..] == a[1..] + b;
      SumCons(a + b, f);
      SumCons(a, f);
      SumAppend(a[1..], b, f);
    }
  }

  /** Replacing one position changes the sum by the difference at that position. */
  lemma SumChangeOne<T>(s: seq<T>, r: seq<T>, f: T -> int, k: int)
    requires |r| == |s| && 0 <= k < |s|
    requires forall j :: 0 <= j < |s| && j != k ==> r[j] == s[j]
    ensures Sum(r, f) == Sum(s, f) - f(s[k]) + f(r[k])
  {
    assert s == s[..k] + [s[k]] + s[k + 1..];
    assert r == r[..k] + [r[k]] + r[k + 1..];
    assert r[..k] == s[..k];
    assert r[k + 1..] == s[k + 1..];
    SumAppend(s[..k] + [s[k]], s[k + 1..], f);
    SumAppend(s[..k], [s[k]], f);
    SumAppend(r[..k] + [r[k]], r[k + 1..], f);
    SumAppend(r[..k], [r[k]], f);
    SumCons([s[k]], f);
    SumCons([r[k]], f);
  }

  /** Deleting one position lowers the sum by the value at that position. */
  lemma SumDropOne<T>(s: seq<T>, f: T -> int, k: int)
    requires 0 <= k < |s|
    ensures Sum(s[..k] + s[k + 1..], f) == Sum(s, f) - f(s[k])
  {
    assert s == s[..k] + [s[k]] + s[k + 1..];
    SumAppend(s[..k] + [s[k]], s[k + 1..], f);
    SumAppend(s[..k], [s[k]], f);
    SumAppend(s[..k], s[k + 1..], f);
    SumCons([s[k]], f);
  }

  /** A sum of terms that are each at least 1 is at least the number of terms. */
  lemma {:induction false} SumAtLeastLength<T>(s: seq<T>, f: T -> int)
    ensures (forall i :: 0 <= i < |s| ==> f(s[i]) >= 1) ==> Sum(s, f) >= |s|
  {
    if |s| > 0 && forall i :: 0 <= i < |s| ==> f(s[i]) >= 1 {
      SumCons(s, f);
      SumAtLeastLength(s[1..], f);
    }
  }
}
