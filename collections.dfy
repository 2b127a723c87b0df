/** The array operations the handlers apply to a whole collection:
    `findIndex`/`find`, `filter`, `Math.max(...ids) + 1` and the
    `sort((a, b) => b.id - a.id)` of the list endpoints. Each is generic in
    the key it looks at, which the callers pass as a named key function. */
module Collections {

  /** No two elements of `s` share a key. */
  ghost predicate UniqueKeys<K, T>(s: seq<T>, key: T -> K) {
    forall i, j :: 0 <= i < |s| && 0 <= j < |s| && i != j ==> key(s[i]) != key(s[j])
  }

  /** `s.findIndex(x => key(x) === k)`: the first position holding key `k`, or -1. */
  function IndexOf<K(==), T>(s: seq<T>, key: T -> K, k: K): (i: int)
    ensures -1 <= i < |s|
    ensures i == -1 <==> forall j :: 0 <= j < |s| ==> key(s[j]) != k
    ensures 0 <= i ==> key(s[i]) == k && forall j :: 0 <= j < i ==> key(s[j]) != k
  {
    if |s| == 0 then -1
    else if key(s[0]) == k then 0
    else
      var i := IndexOf(s[1..], key, k);
      if i == -1 then -1 else i + 1
  }

  /** With unique keys, the position of a key is the only one holding it. */
  lemma IndexOfUnique<K, T>(s: seq<T>, key: T -> K, j: int)
    requires UniqueKeys(s, key) && 0 <= j < |s|
    ensures IndexOf(s, key, key(s[j])) == j
  {
  }

  /** `s.filter(x => key(x) === k)`: every element with key `k` is kept as
      often as it occurs, and no other. */
  function KeepKey<K(==), T(!new)>(s: seq<T>, key: T -> K, k: K): (r: seq<T>)
    ensures |r| <= |s|
    ensures forall x :: x in r <==> x in s && key(x) == k
    ensures forall x :: multiset(r)[x] == if key(x) == k then multiset(s)[x] else 0
  {
    if |s| == 0 then []
    else
      assert s == [s[0]] + s[1..];
      if key(s[0]) == k then [s[0]] + KeepKey(s[1..], key, k)
      else KeepKey(s[1..], key, k)
  }

  /** Filtering keeps the relative order of what it keeps: it distributes over
      concatenation. */
  lemma {:induction false} KeepKeyAppend<K, T(!new)>(a: seq<T>, b: seq<T>, key: T -> K, k: K)
    ensures KeepKey(a + b, key, k) == KeepKey(a, key, k) + KeepKey(b, key, k)
  {
    if |a| == 0 {
      assert a + b == b;
    } else {
      assert (a + b)[1..] == a[1..] + b;
      KeepKeyAppend(a[1..], b, key, k);
    }
  }

  /** `s.filter(x => key(x) !== k)`: what a delete handler writes back. The
      length is unchanged exactly when nothing carried the key, which is how
      every delete handler decides on 404. */
  function RemoveKey<K(==), T(!new)>(s: seq<T>, key: T -> K, k: K): (r: seq<T>)
    ensures forall x :: x in r <==> x in s && key(x) != k
    ensures |r| <= |s|
    ensures |r| == |s| <==> forall j :: 0 <= j < |s| ==> key(s[j]) != k
    ensures (forall j :: 0 <= j < |s| ==> key(s[j]) != k) ==> r == s
  {
    if |s| == 0 then []
    else if key(s[0]) == k then RemoveKey(s[1..], key, k)
    else [s[0]] + RemoveKey(s[1..], key, k)
  }

  /** Filtering keeps the relative order of what it keeps: it distributes over
      concatenation. */
  lemma {:induction false} RemoveKeyAppend<K, T(!new)>(a: seq<T>, b: seq<T>, key: T -> K, k: K)
    ensures RemoveKey(a + b, key, k) == RemoveKey(a, key, k) + RemoveKey(b, key, k)
  {
    if |a| == 0 {
      assert a + b == b;
    } else {
      assert (a + b)[1..] == a[1..] + b;
      RemoveKeyAppend(a[1..], b, key, k);
    }
  }

  /** With unique keys a delete removes exactly one element when the key is present. */
  lemma {:induction false} RemoveKeyUniqueCount<K, T(!new)>(s: seq<T>, key: T -> K, k: K)
    requires UniqueKeys(s, key)
    requires exists j :: 0 <= j < |s| && key(s[j]) == k
    ensures |RemoveKey(s, key, k)| == |s| - 1
  {
    var j :| 0 <= j < |s| && key(s[j]) == k;
    if j == 0 {
      assert forall i :: 0 <= i < |s[1..]| ==> key(s[1..][i]) != k by {
        forall i | 0 <= i < |s[1..]| ensures key(s[1..][i]) != k {
          assert s[1..][i] == s[i + 1];
        }
      }
    } else {
      assert key(s[0]) != k;
      assert key(s[1..][j - 1]) == k;
      RemoveKeyUniqueCount(s[1..], key, k);
    }
  }

  /** Filtering never creates a duplicate key, whatever it filters on. */
  lemma {:induction false} RemoveKeyKeepsUnique<K, L, T(!new)>(s: seq<T>, key: T -> K, k: K, id: T -> L)
    requires UniqueKeys(s, id)
    ensures UniqueKeys(RemoveKey(s, key, k), id)
  {
    if |s| > 0 {
      var tail := s[1..];
      assert UniqueKeys(tail, id) by {
        forall i, j | 0 <= i < |tail| && 0 <= j < |tail| && i != j ensures id(tail[i]) != id(tail[j]) {
          assert tail[i] == s[i + 1] && tail[j] == s[j + 1];
        }
      }
      RemoveKeyKeepsUnique(tail, key, k, id);
      var rest := RemoveKey(tail, key, k);
      if key(s[0]) != k {
        forall x | x in rest ensures id(x) != id(s[0]) {
          var m :| 0 <= m < |tail| && tail[m] == x;
          assert s[m + 1] == x;
        }
        var r := [s[0]] + rest;
        forall i, j | 0 <= i < |r| && 0 <= j < |r| && i != j ensures id(r[i]) != id(r[j]) {
          if i > 0 && j > 0 {
            assert r[i] == rest[i - 1] && r[j] == rest[j - 1];
          } else if i == 0 {
            assert r[j] in rest;
          } else {
            assert r[i] in rest;
          }
        }
      }
    }
  }

  /** Appending an element whose key is not yet present keeps keys unique. */
  lemma AppendFreshKeepsUnique<K, T>(s: seq<T>, key: T -> K, x: T)
    requires UniqueKeys(s, key)
    requires forall j :: 0 <= j < |s| ==> key(s[j]) != key(x)
    ensures UniqueKeys(s + [x], key)
  {
  }

  /** Replacing an element by one with the same key keeps keys unique. */
  lemma ReplaceSameKeyKeepsUnique<K, T>(s: seq<T>, key: T -> K, i: int, x: T)
    requires UniqueKeys(s, key) && 0 <= i < |s| && key(x) == key(s[i])
    ensures UniqueKeys(s[i := x], key)
  {
  }

  /** `Math.max(...s.map(key))` of a non-empty collection. */
  function MaxKey<T>(s: seq<T>, key: T -> int): (m: int)
    requires |s| > 0
    ensures forall j :: 0 <= j < |s| ==> key(s[j]) <= m
    ensures exists j :: 0 <= j < |s| && key(s[j]) == m
  {
    if |s| == 1 then key(s[0])
    else
      var m := MaxKey(s[..|s| - 1], key);
      assert forall j :: 0 <= j < |s| - 1 ==> s[..|s| - 1][j] == s[j];
      if key(s[|s| - 1]) > m then key(s[|s| - 1]) else m
  }

  /** `s.length > 0 ? Math.max(...s.map(key)) + 1 : 1`: the id a create handler
      assigns. It is above every key present, so it is fresh; but it is computed
      over the records that remain, so deleting the record with the largest id
      frees that id for the next create. */
  function NextId<T>(s: seq<T>, key: T -> int): (r: int)
    ensures forall j :: 0 <= j < |s| ==> key(s[j]) < r
    ensures |s| == 0 ==> r == 1
    ensures |s| > 0 ==> exists j :: 0 <= j < |s| && r == key(s[j]) + 1
  {
    if |s| == 0 then 1 else MaxKey(s, key) + 1
  }

  /** `s` is ordered by key, largest first. */
  ghost predicate SortedDesc<T>(s: seq<T>, key: T -> int) {
    forall i, j :: 0 <= i < j < |s| ==> key(s[i]) >= key(s[j])
  }

  /** Inserts `x` before the first element whose key is not above its own. */
  function InsertDesc<T>(x: T, s: seq<T>, key: T -> int): (r: seq<T>)
    requires SortedDesc(s, key)
    ensures SortedDesc(r, key)
    ensures multiset(r) == multiset(s) + multiset{x}
    ensures |r| == |s| + 1
    ensures r[0] == x || (|s| > 0 && r[0] == s[0])
  {
    if |s| == 0 || key(x) >= key(s[0]) then [x] + s
    else
      var rest := InsertDesc(x, s[1..], key);
      assert s == [s[0]] + s[1..];
      [s[0]] + rest
  }

  /** `s.sort((a, b) => key(b) - key(a))`: sorted by key descending, and a
      permutation of the input. The order among equal keys is not stated;
      with unique ids it does not arise. */
  function SortDesc<T>(s: seq<T>, key: T -> int): (r: seq<T>)
    ensures SortedDesc(r, key)
    ensures multiset(r) == multiset(s)
    ensures |r| == |s|
  {
    if |s| == 0 then []
    else
      assert s == [s[0]] + s[1..];
      InsertDesc(s[0], SortDesc(s[1..], key), key)
  }
}
