/**
 * What the backend's SQL statements do to one table, with a table being the
 * sequence of its rows in storage order. A key function picks the column a
 * statement compares (`WHERE id = ?`, `WHERE site_id = ?`, ...).
 */
module Rows {
  import opened Wrappers

  /** `a` is `b` with some of its rows left out, the others kept in their order. */
  ghost predicate Subsequence<T>(a: seq<T>, b: seq<T>)
    decreases |b|
  {
    if a == [] then true
    else if b == [] then false
    else (a[0] == b[0] && Subsequence(a[1..], b[1..])) || Subsequence(a, b[1..])
  }

  /**
   * `SELECT * FROM t WHERE key = k`: every stored row whose key is `k`, each as
   * often as it is stored, and no other row; `SelectKeepsOrder` adds that they come
   * in storage order.
   */
  function Select<T(!new)>(rows: seq<T>, key: T -> int, k: int): (r: seq<T>)
    ensures |r| <= |rows|
    ensures forall x :: x in r <==> x in rows && key(x) == k
    ensures forall x :: multiset(r)[x] == if key(x) == k then multiset(rows)[x] else 0
  {
    if rows == [] then []
    else
      var rest := Select(rows[1..], key, k);
      assert rows == [rows[0]] + rows[1..];
      if key(rows[0]) == k then
        assert ([rows[0]] + rest)[1..] == rest;
        [rows[0]] + rest
      else rest
  }

  /** `SELECT COUNT(id) FROM t WHERE key = k`. */
  function Count<T(!new)>(rows: seq<T>, key: T -> int, k: int): (n: nat)
    ensures n == 0 <==> forall x :: x in rows ==> key(x) != k
  {
    var r := Select(rows, key, k);
    assert r != [] ==> r[0] in r;
    |r|
  }

  /** `... WHERE key = k` fetched optionally: the first matching row, if any. */
  function Find<T(!new)>(rows: seq<T>, key: T -> int, k: int): (r: Option<T>)
    ensures r.None? <==> forall x :: x in rows ==> key(x) != k
    ensures r.Some? ==> r.value in rows && key(r.value) == k
  {
    if rows == [] then None
    else if key(rows[0]) == k then Some(rows[0])
    else Find(rows[1..], key, k)
  }

  /**
   * `ORDER BY ts DESC LIMIT 1`: a row whose `ts` is the largest. Among rows with
   * equal `ts` the first one in storage order is taken; SQL leaves that choice open.
   */
  function Latest<T(!new)>(rows: seq<T>, ts: T -> int): (r: Option<T>)
    ensures r.None? <==> rows == []
    ensures r.Some? ==> r.value in rows && forall x :: x in rows ==> ts(x) <= ts(r.value)
  {
    if rows == [] then None
    else
      match Latest(rows[1..], ts)
      case None => Some(rows[0])
      case Some(y) => if ts(y) > ts(rows[0]) then Some(y) else Some(rows[0])
  }

  /**
   * The ids an auto-increment column hands out: every row's key is positive and
   * below the table's counter `next`, and keys strictly increase in storage order.
   */
  ghost predicate KeysAscending<T(!new)>(rows: seq<T>, key: T -> int, next: int)
  {
    && 1 <= next
    && (forall i, j :: 0 <= i < j < |rows| ==> key(rows[i]) < key(rows[j]))
    && (forall x :: x in rows ==> 1 <= key(x) < next)
  }

  /** Appending a row that takes the counter's value keeps the keys ascending. */
  lemma AppendKeepsKeysAscending<T(!new)>(rows: seq<T>, key: T -> int, next: int, x: T)
    requires KeysAscending(rows, key, next)
    requires key(x) == next
    ensures KeysAscending(rows + [x], key, next + 1)
  {
    var s := rows + [x];
    forall i, j | 0 <= i < j < |s| ensures key(s[i]) < key(s[j]) {
      if j == |rows| {
        assert s[i] in rows;
      }
    }
  }

  /** With ascending keys, looking a stored row up by its own key finds exactly that row. */
  lemma {:induction false} FindStored<T(!new)>(rows: seq<T>, key: T -> int, next: int, x: T)
    requires KeysAscending(rows, key, next)
    requires x in rows
    ensures Find(rows, key, key(x)) == Some(x)
  {
    if rows[0] != x {
      var i :| 0 <= i < |rows| && rows[i] == x;
      assert key(rows[0]) < key(x);
      assert KeysAscending(rows[1..], key, next) by {
        forall y | y in rows[1..] ensures 1 <= key(y) < next {
          assert y in rows;
        }
      }
      assert x in rows[1..] by { assert rows[1..][i - 1] == x; }
      FindStored(rows[1..], key, next, x);
    }
  }

  /** The selected rows keep their storage order. */
  lemma {:induction false} SelectKeepsOrder<T(!new)>(rows: seq<T>, key: T -> int, k: int)
    ensures Subsequence(Select(rows, key, k), rows)
  {
    if rows != [] {
      SelectKeepsOrder(rows[1..], key, k);
    }
  }

  /** Selecting from two concatenated stretches of a table selects from each in turn. */
  lemma {:induction false} SelectAppend<T(!new)>(a: seq<T>, b: seq<T>, key: T -> int, k: int)
    ensures Select(a + b, key, k) == Select(a, key, k) + Select(b, key, k)
  {
    if a == [] {
      assert a + b == b;
    } else {
      assert (a + b)[0] == a[0] && (a + b)[1..] == a[1..] + b;
      SelectAppend(a[1..], b, key, k);
    }
  }

  /** A filter no stored row matches selects nothing. */
  lemma NoneSelected<T(!new)>(rows: seq<T>, key: T -> int, k: int)
    requires forall x :: x in rows ==> key(x) != k
    ensures Select(rows, key, k) == []
  {
    assert Count(rows, key, k) == 0;
  }

  /** A filter every stored row matches selects the whole table. */
  lemma {:induction false} AllSelected<T(!new)>(rows: seq<T>, key: T -> int, k: int)
    requires forall i :: 0 <= i < |rows| ==> key(rows[i]) == k
    ensures Select(rows, key, k) == rows
  {
    if rows != [] {
      AllSelected(rows[1..], key, k);
    }
  }
}
