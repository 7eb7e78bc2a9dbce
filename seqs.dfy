/**
 * Order-preserving filtering, stable sorting by an integer key, and the
 * keyed-row operations the local tables are built from.
 */
module Seqs {
  import opened Wrappers

  // ---------------------------------------------------------------------------
  // Filtering (Kotlin `filter`, SQL `WHERE`)
  // ---------------------------------------------------------------------------

  /** The elements of `s` satisfying `p`, in their order in `s`. */
  function Filter<T(!new)>(s: seq<T>, p: T -> bool): (r: seq<T>)
    ensures |r| <= |s|
    ensures forall x :: x in r <==> x in s && p(x)
    ensures multiset(r) <= multiset(s)
  {
    if s == [] then []
    else
      assert s == [s[0]] + s[1..];
      if p(s[0]) then [s[0]] + Filter(s[1..], p) else Filter(s[1..], p)
  }

  /** Filtering distributes over concatenation, which is to say it keeps the order. */
  lemma {:induction false} FilterConcat<T(!new)>(s: seq<T>, t: seq<T>, p: T -> bool)
    ensures Filter(s + t, p) == Filter(s, p) + Filter(t, p)
  {
    if s == [] {
      assert s + t == t;
    } else {
      assert (s + t)[1..] == s[1..] + t;
      FilterConcat(s[1..], t, p);
    }
  }

  /** `a` can be obtained from `b` by deleting elements. */
  ghost predicate IsSubsequence<T(!new)>(a: seq<T>, b: seq<T>)
    decreases |b|
  {
    if a == [] then true
    else if b == [] then false
    else if a[0] == b[0] then IsSubsequence(a[1..], b[1..])
    else IsSubsequence(a, b[1..])
  }

  /** A subsequence of the tail of `b` is a subsequence of `b`. */
  lemma {:induction false} SubsequenceOfTail<T(!new)>(a: seq<T>, b: seq<T>)
    requires b != [] && IsSubsequence(a, b[1..])
    ensures IsSubsequence(a, b)
    decreases |b|, |a|, 1
  {
    if a != [] && a[0] == b[0] {
      SubsequenceDropHead(a, b[1..]);
    }
  }

  /** Dropping the head of a subsequence leaves a subsequence. */
  lemma {:induction false} SubsequenceDropHead<T(!new)>(a: seq<T>, c: seq<T>)
    requires a != [] && IsSubsequence(a, c)
    ensures IsSubsequence(a[1..], c)
    decreases |c| + 1, |a|, 0
  {
    if a[0] == c[0] {
      if a[1..] != [] {
        SubsequenceOfTail(a[1..], c);
      }
    } else {
      SubsequenceDropHead(a, c[1..]);
      if a[1..] != [] {
        SubsequenceOfTail(a[1..], c);
      }
    }
  }

  /** A filter result is an order-preserving subsequence of its input. */
  lemma {:induction false} FilterIsSubsequence<T(!new)>(s: seq<T>, p: T -> bool)
    ensures IsSubsequence(Filter(s, p), s)
  {
    if s != [] {
      FilterIsSubsequence(s[1..], p);
      if !p(s[0]) {
        if Filter(s, p) != [] {
          SubsequenceOfTail(Filter(s, p), s);
        }
      }
    }
  }

  /** Filtering with a predicate that every element satisfies changes nothing. */
  lemma {:induction false} FilterAll<T(!new)>(s: seq<T>, p: T -> bool)
    requires forall x :: x in s ==> p(x)
    ensures Filter(s, p) == s
  {
    if s != [] {
      FilterAll(s[1..], p);
    }
  }

  /** Filtering with a predicate that no element satisfies leaves nothing. */
  lemma {:induction false} FilterNone<T(!new)>(s: seq<T>, p: T -> bool)
    requires forall x :: x in s ==> !p(x)
    ensures Filter(s, p) == []
  {
    if s != [] {
      FilterNone(s[1..], p);
    }
  }

  // ---------------------------------------------------------------------------
  // Sorting (SQL `ORDER BY`): stable insertion sort by an integer key
  // ---------------------------------------------------------------------------

  ghost predicate SortedBy<T(!new)>(s: seq<T>, key: T -> int) {
    forall i, j :: 0 <= i < j < |s| ==> key(s[i]) <= key(s[j])
  }

  /** Putting an element no greater than the head in front keeps a sequence sorted. */
  lemma SortedCons<T(!new)>(a: T, s: seq<T>, key: T -> int)
    requires SortedBy(s, key) && (s != [] ==> key(a) <= key(s[0]))
    ensures SortedBy([a] + s, key)
  {
    var r := [a] + s;
    forall i, j | 0 <= i < j < |r| ensures key(r[i]) <= key(r[j]) {
      assert r[j] == s[j - 1];
      if i == 0 {
        assert key(s[0]) <= key(s[j - 1]);
      } else {
        assert r[i] == s[i - 1];
      }
    }
  }

  function InsertBy<T(!new)>(x: T, s: seq<T>, key: T -> int): (r: seq<T>)
    requires SortedBy(s, key)
    ensures SortedBy(r, key)
    ensures multiset(r) == multiset(s) + multiset{x}
    ensures |r| == |s| + 1 && (r[0] == x || (s != [] && r[0] == s[0]))
  {
    if s == [] then [x]
    else if key(x) <= key(s[0]) then
      SortedCons(x, s, key);
      [x] + s
    else
      assert s == [s[0]] + s[1..];
      var rest := InsertBy(x, s[1..], key);
      assert key(s[0]) <= key(rest[0]);
      SortedCons(s[0], rest, key);
      [s[0]] + rest
  }

  /** `s` sorted by ascending `key`; elements of equal key keep their relative order. */
  function SortBy<T(!new)>(s: seq<T>, key: T -> int): (r: seq<T>)
    ensures SortedBy(r, key)
    ensures multiset(r) == multiset(s)
  {
    if s == [] then []
    else
      assert s == [s[0]] + s[1..];
      InsertBy(s[0], SortBy(s[1..], key), key)
  }

  lemma MultisetSameElements<T(!new)>(a: seq<T>, b: seq<T>)
    requires multiset(a) == multiset(b)
    ensures |a| == |b| && forall x :: x in a <==> x in b
  {
    assert forall x :: x in a <==> x in multiset(a);
    assert forall x :: x in b <==> x in multiset(b);
  }

  // ---------------------------------------------------------------------------
  // Tables: sequences of rows with unique integer keys
  // ---------------------------------------------------------------------------

  ghost predicate UniqueKeys<T(!new)>(rows: seq<T>, key: T -> int) {
    forall i, j :: 0 <= i < j < |rows| ==> key(rows[i]) != key(rows[j])
  }

  predicate HasKey<T(!new)>(rows: seq<T>, k: int, key: T -> int) {
    exists i :: 0 <= i < |rows| && key(rows[i]) == k
  }

  /** The first row with key `k`. */
  function Lookup<T(!new)>(rows: seq<T>, k: int, key: T -> int): (r: Option<T>)
    ensures r.Some? <==> HasKey(rows, k, key)
    ensures r.Some? ==> r.value in rows && key(r.value) == k
  {
    if rows == [] then None
    else if key(rows[0]) == k then Some(rows[0])
    else
      var r := Lookup(rows[1..], k, key);
      assert HasKey(rows[1..], k, key) ==> HasKey(rows, k, key) by {
        if HasKey(rows[1..], k, key) {
          var i :| 0 <= i < |rows| - 1 && key(rows[1..][i]) == k;
          assert key(rows[i + 1]) == k;
        }
      }
      assert HasKey(rows, k, key) ==> HasKey(rows[1..], k, key) by {
        if HasKey(rows, k, key) {
          var i :| 0 <= i < |rows| && key(rows[i]) == k;
          assert i > 0 && key(rows[1..][i - 1]) == k;
        }
      }
      r
  }

  /** `rows` with every row of key `key(row)` replaced by `row` (SQL `UPDATE ... WHERE id = ?`). */
  function Replace<T(!new)>(rows: seq<T>, row: T, key: T -> int): (r: seq<T>)
    ensures |r| == |rows|
    ensures forall i :: 0 <= i < |rows| ==> r[i] == if key(rows[i]) == key(row) then row else rows[i]
  {
    if rows == [] then []
    else [if key(rows[0]) == key(row) then row else rows[0]] + Replace(rows[1..], row, key)
  }

  /** The rows whose key differs from `k` (SQL `DELETE ... WHERE id = ?`). */
  function RemoveKey<T(!new)>(rows: seq<T>, k: int, key: T -> int): (r: seq<T>)
    ensures forall x :: x in r <==> x in rows && key(x) != k
  {
    Filter(rows, KeyIsNot(k, key))
  }

  function KeyIsNot<T>(k: int, key: T -> int): T -> bool {
    x => key(x) != k
  }

  lemma RemoveKeyPreservesUnique<T(!new)>(rows: seq<T>, k: int, key: T -> int)
    requires UniqueKeys(rows, key)
    ensures UniqueKeys(RemoveKey(rows, k, key), key)
  {
    FilterPreservesUnique(rows, KeyIsNot(k, key), key);
  }

  /** Insert-or-replace: replace the row with the same key, or append when there is none. */
  function Upsert<T(!new)>(rows: seq<T>, row: T, key: T -> int): (r: seq<T>)
  {
    if HasKey(rows, key(row), key) then Replace(rows, row, key) else rows + [row]
  }

  lemma ReplaceKeepsKeys<T(!new)>(rows: seq<T>, row: T, key: T -> int)
    ensures forall i :: 0 <= i < |rows| ==> key(Replace(rows, row, key)[i]) == key(rows[i])
  {
  }

  lemma ReplacePreservesUnique<T(!new)>(rows: seq<T>, row: T, key: T -> int)
    requires UniqueKeys(rows, key)
    ensures UniqueKeys(Replace(rows, row, key), key)
  {
    ReplaceKeepsKeys(rows, row, key);
  }

  lemma {:induction false} FilterPreservesUnique<T(!new)>(rows: seq<T>, p: T -> bool, key: T -> int)
    requires UniqueKeys(rows, key)
    ensures UniqueKeys(Filter(rows, p), key)
  {
    if rows != [] {
      FilterPreservesUnique(rows[1..], p, key);
      var tail := Filter(rows[1..], p);
      if p(rows[0]) {
        forall j | 0 <= j < |tail| ensures key(rows[0]) != key(tail[j]) {
          assert tail[j] in rows[1..];
        }
      }
    }
  }

  /** Insert-or-replace keeps keys unique, leaves exactly one row with the new row's key, and keeps every other row. */
  lemma UpsertSpec<T(!new)>(rows: seq<T>, row: T, key: T -> int)
    requires UniqueKeys(rows, key)
    ensures var r := Upsert(rows, row, key);
      && UniqueKeys(r, key)
      && row in r
      && (forall x :: x in r ==> x == row || (x in rows && key(x) != key(row)))
      && (forall x :: x in rows && key(x) != key(row) ==> x in r)
  {
    if HasKey(rows, key(row), key) {
      ReplacePreservesUnique(rows, row, key);
      var i :| 0 <= i < |rows| && key(rows[i]) == key(row);
      assert Replace(rows, row, key)[i] == row;
      forall x | x in rows && key(x) != key(row) ensures x in Replace(rows, row, key) {
        var j :| 0 <= j < |rows| && rows[j] == x;
        assert Replace(rows, row, key)[j] == x;
      }
    } else {
      var r := rows + [row];
      forall i, j | 0 <= i < j < |r| ensures key(r[i]) != key(r[j]) {
        if j == |rows| {
          assert key(r[j]) == key(row);
        }
      }
    }
  }

  /** Replacing keeps the set of keys. */
  lemma ReplaceSameKeys<T(!new)>(rows: seq<T>, row: T, key: T -> int)
    ensures forall k :: HasKey(Replace(rows, row, key), k, key) <==> HasKey(rows, k, key)
  {
    var r := Replace(rows, row, key);
    forall k ensures HasKey(r, k, key) <==> HasKey(rows, k, key) {
      if HasKey(r, k, key) {
        var i :| 0 <= i < |r| && key(r[i]) == k;
        assert key(rows[i]) == k;
      }
      if HasKey(rows, k, key) {
        var i :| 0 <= i < |rows| && key(rows[i]) == k;
        assert key(r[i]) == k;
      }
    }
  }

  /** Every row after a replacement was there before, or is the new row replacing one with its key. */
  lemma ReplaceMembers<T(!new)>(rows: seq<T>, row: T, key: T -> int)
    ensures forall x :: x in Replace(rows, row, key) ==> x in rows || (x == row && HasKey(rows, key(row), key))
  {
    var r := Replace(rows, row, key);
    forall x | x in r ensures x in rows || (x == row && HasKey(rows, key(row), key)) {
      var i :| 0 <= i < |r| && r[i] == x;
      if key(rows[i]) != key(row) {
        assert x == rows[i];
      }
    }
  }

  /** Insert-or-replace keeps every key there was. */
  lemma UpsertKeepsKeys<T(!new)>(rows: seq<T>, row: T, key: T -> int)
    requires UniqueKeys(rows, key)
    ensures forall k :: HasKey(rows, k, key) ==> HasKey(Upsert(rows, row, key), k, key)
  {
    var r := Upsert(rows, row, key);
    UpsertSpec(rows, row, key);
    forall k | HasKey(rows, k, key) ensures HasKey(r, k, key) {
      var i :| 0 <= i < |rows| && key(rows[i]) == k;
      var x := if k == key(row) then row else rows[i];
      assert x in r;
      var j :| 0 <= j < |r| && r[j] == x;
    }
  }

  /** Replacing the row just appended (the only one with its key) replaces the last element. */
  lemma ReplaceLast<T(!new)>(rows: seq<T>, old_row: T, row: T, key: T -> int)
    requires UniqueKeys(rows + [old_row], key) && key(row) == key(old_row)
    ensures Replace(rows + [old_row], row, key) == rows + [row]
  {
    var s := rows + [old_row];
    var r := Replace(s, row, key);
    forall i | 0 <= i < |rows| ensures r[i] == rows[i] {
      assert key(s[i]) != key(s[|rows|]);
    }
  }
}
