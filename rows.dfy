/**
 * The rows of one storage partition, kept in ascending order of their clustering key,
 * with the storage engine's INSERT (an upsert), DELETE and "rows after a key" scan.
 */
module Rows {
  import opened Base

  /** Rows strictly ascending by clustering key; so no two rows share a key. */
  ghost predicate Ascending<T>(s: seq<T>, key: T -> int) {
    forall i, j :: 0 <= i < j < |s| ==> key(s[i]) < key(s[j])
  }

  /** INSERT inside a partition: a row with the same key is replaced, otherwise the row goes in key order. */
  function Upsert<T>(s: seq<T>, x: T, key: T -> int): seq<T> {
    if s == [] then [x]
    else if key(s[0]) == key(x) then [x] + s[1..]
    else if key(x) < key(s[0]) then [x] + s
    else [s[0]] + Upsert(s[1..], x, key)
  }

  /** DELETE of the row with clustering key `k`; deleting an absent key is no error. */
  function Remove<T>(s: seq<T>, k: int, key: T -> int): seq<T> {
    if s == [] then [] else (if key(s[0]) == k then [] else [s[0]]) + Remove(s[1..], k, key)
  }

  /** The rows whose key is greater than `k`, in order; where a paged scan resumes. */
  function After<T>(s: seq<T>, k: int, key: T -> int): seq<T> {
    if s == [] then [] else if key(s[0]) > k then s else After(s[1..], k, key)
  }

  /** The row with clustering key `k`, if there is one. */
  function Find<T>(s: seq<T>, k: int, key: T -> int): Option<T> {
    if s == [] then None else if key(s[0]) == k then Some(s[0]) else Find(s[1..], k, key)
  }

  lemma AscendingTail<T>(s: seq<T>, key: T -> int)
    requires s != [] && Ascending(s, key)
    ensures Ascending(s[1..], key)
    ensures forall y :: y in s[1..] ==> key(s[0]) < key(y)
  {
    forall y | y in s[1..] ensures key(s[0]) < key(y) {
      var j :| 0 <= j < |s[1..]| && s[1..][j] == y;
      assert s[j + 1] == y;
    }
  }

  lemma AscendingCons<T>(x: T, s: seq<T>, key: T -> int)
    requires Ascending(s, key)
    requires forall y :: y in s ==> key(x) < key(y)
    ensures Ascending([x] + s, key)
  {
    var r := [x] + s;
    forall i, j | 0 <= i < j < |r| ensures key(r[i]) < key(r[j]) {
      assert r[j] == s[j - 1];
      if i > 0 {
        assert r[i] == s[i - 1];
      } else {
        assert r[j] in s;
      }
    }
  }

  lemma AscendingSnoc<T>(s: seq<T>, x: T, key: T -> int)
    requires Ascending(s, key)
    requires forall y :: y in s ==> key(y) < key(x)
    ensures Ascending(s + [x], key)
  {
    var r := s + [x];
    forall i, j | 0 <= i < j < |r| ensures key(r[i]) < key(r[j]) {
      assert r[i] == s[i];
      if j < |s| {
        assert r[j] == s[j];
      } else {
        assert s[i] in s;
      }
    }
  }

  /** An upsert keeps the partition ordered; it then holds the new row and the old rows with other keys. */
  lemma {:induction false} UpsertSpec<T>(s: seq<T>, x: T, key: T -> int)
    requires Ascending(s, key)
    ensures Ascending(Upsert(s, x, key), key)
    ensures x in Upsert(s, x, key)
    ensures forall y :: y in Upsert(s, x, key) ==> y == x || (y in s && key(y) != key(x))
    ensures forall y :: y in s && key(y) != key(x) ==> y in Upsert(s, x, key)
  {
    if s != [] {
      AscendingTail(s, key);
      if key(s[0]) == key(x) {
        AscendingCons(x, s[1..], key);
        assert s == [s[0]] + s[1..];
      } else if key(x) < key(s[0]) {
        AscendingCons(x, s, key);
      } else {
        UpsertSpec(s[1..], x, key);
        assert key(s[0]) < key(x);
        forall y | y in Upsert(s[1..], x, key) ensures key(s[0]) < key(y) {
          assert y == x || (y in s[1..] && key(y) != key(x));
        }
        AscendingCons(s[0], Upsert(s[1..], x, key), key);
        assert s == [s[0]] + s[1..];
      }
    }
  }

  /** A delete keeps the partition ordered and drops exactly the rows with key `k`. */
  lemma {:induction false} RemoveSpec<T>(s: seq<T>, k: int, key: T -> int)
    requires Ascending(s, key)
    ensures Ascending(Remove(s, k, key), key)
    ensures forall y :: y in Remove(s, k, key) ==> y in s && key(y) != k
    ensures forall y :: y in s && key(y) != k ==> y in Remove(s, k, key)
  {
    if s != [] {
      AscendingTail(s, key);
      RemoveSpec(s[1..], k, key);
      assert s == [s[0]] + s[1..];
      if key(s[0]) != k {
        forall y | y in Remove(s[1..], k, key) ensures key(s[0]) < key(y) {
          assert y in s[1..];
        }
        AscendingCons(s[0], Remove(s[1..], k, key), key);
      }
    }
  }

  /** Deleting a key no row has leaves the partition as it was. */
  lemma {:induction false} RemoveAbsent<T>(s: seq<T>, k: int, key: T -> int)
    requires forall i :: 0 <= i < |s| ==> key(s[i]) != k
    ensures Remove(s, k, key) == s
  {
    if s != [] {
      assert key(s[0]) != k;
      RemoveAbsent(s[1..], k, key);
      assert s == [s[0]] + s[1..];
    }
  }

  /** In an ordered partition, the rows after `k` are a suffix, and they are exactly the rows with a greater key. */
  lemma AfterSpec<T>(s: seq<T>, k: int, key: T -> int)
    requires Ascending(s, key)
    ensures exists n :: 0 <= n <= |s| && After(s, k, key) == s[n..]
    ensures forall y :: y in After(s, k, key) <==> y in s && key(y) > k
  {
    var n := AfterSuffix(s, k, key);
    AfterMembers(s, k, key);
  }

  /** The rows after `k` are the rows from some position on. */
  lemma {:induction false} AfterSuffix<T>(s: seq<T>, k: int, key: T -> int) returns (n: nat)
    ensures n <= |s| && After(s, k, key) == s[n..]
  {
    if s == [] || key(s[0]) > k {
      n := 0;
    } else {
      var m := AfterSuffix(s[1..], k, key);
      assert s[1..][m..] == s[m + 1..];
      n := m + 1;
    }
  }

  /** In an ordered partition, the rows after `k` are exactly the rows with a greater key. */
  lemma {:induction false} AfterMembers<T>(s: seq<T>, k: int, key: T -> int)
    requires Ascending(s, key)
    ensures forall y :: y in After(s, k, key) <==> y in s && key(y) > k
  {
    if s != [] {
      AscendingTail(s, key);
      assert s == [s[0]] + s[1..];
      if key(s[0]) <= k {
        AfterMembers(s[1..], k, key);
      }
    }
  }

  /** In an ordered partition, the rows after the key of row `n - 1` are the rows from `n` on. */
  lemma {:induction false} AfterKeyAt<T>(s: seq<T>, n: nat, key: T -> int)
    requires Ascending(s, key) && 0 < n <= |s|
    ensures After(s, key(s[n - 1]), key) == s[n..]
  {
    AscendingTail(s, key);
    if n == 1 {
      if s[1..] != [] {
        assert s[1..][0] in s[1..];
      }
      assert After(s[1..], key(s[0]), key) == s[1..];
    } else {
      assert key(s[0]) < key(s[n - 1]);
      assert s[1..][n - 2] == s[n - 1];
      AfterKeyAt(s[1..], n - 1, key);
      assert s[1..][n - 1..] == s[n..];
    }
  }

  /** A suffix of an ordered partition is ordered. */
  lemma AscendingSuffix<T>(s: seq<T>, n: nat, key: T -> int)
    requires n <= |s| && Ascending(s, key)
    ensures Ascending(s[n..], key)
  {
    forall i, j | 0 <= i < j < |s[n..]| ensures key(s[n..][i]) < key(s[n..][j]) {
      assert s[n..][i] == s[n + i] && s[n..][j] == s[n + j];
    }
  }

  /** A prefix of an ordered partition is ordered. */
  lemma AscendingPrefix<T>(s: seq<T>, n: nat, key: T -> int)
    requires n <= |s| && Ascending(s, key)
    ensures Ascending(s[..n], key)
  {
    forall i, j | 0 <= i < j < |s[..n]| ensures key(s[..n][i]) < key(s[..n][j]) {
      assert s[..n][i] == s[i] && s[..n][j] == s[j];
    }
  }

  /** A lookup by key finds the row with that key, or reports that there is none. */
  lemma {:induction false} FindSpec<T>(s: seq<T>, k: int, key: T -> int)
    ensures Find(s, k, key).Some? ==> Find(s, k, key).value in s && key(Find(s, k, key).value) == k
    ensures Find(s, k, key).None? <==> forall y :: y in s ==> key(y) != k
  {
    if s != [] {
      FindSpec(s[1..], k, key);
      assert s == [s[0]] + s[1..];
    }
  }

  /** In an ascending partition a key names at most one row. */
  lemma AscendingUnique<T>(s: seq<T>, x: T, y: T, key: T -> int)
    requires Ascending(s, key) && x in s && y in s && key(x) == key(y)
    ensures x == y
  {
    var i :| 0 <= i < |s| && s[i] == x;
    var j :| 0 <= j < |s| && s[j] == y;
  }
}
