/**
 Row ordering shared by the transactional stores.

 The stores sort rows by up to three columns, the last of which identifies the row, so
 the order is total. Identifiers are fixed-width hexadecimal texts in the system; only
 their equality and lexicographic order matter, and natural numbers stand for them.
 */
module Ordering {
  type Id = nat

  datatype Option<+T> = None | Some(value: T)

  function Min(a: int, b: int): int {
    if a < b then a else b
  }

  /** A counter map whose missing entries read as zero. */
  function Count(m: map<Id, nat>, k: Id): nat {
    if k in m then m[k] else 0
  }

  datatype Key = Key(first: int, second: int, third: int)

  predicate LessEq(a: Key, b: Key) {
    || a.first < b.first
    || (a.first == b.first && a.second < b.second)
    || (a.first == b.first && a.second == b.second && a.third <= b.third)
  }

  /** No two rows compare equal. */
  predicate Distinct(keys: map<Id, Key>) {
    forall a, b | a in keys && b in keys && a != b :: keys[a] != keys[b]
  }

  predicate IsLeast(keys: map<Id, Key>, m: Id) {
    m in keys && forall o | o in keys :: LessEq(keys[m], keys[o])
  }

  ghost function Least(keys: map<Id, Key>): (m: Id)
    requires keys != map[]
    ensures IsLeast(keys, m)
    decreases |keys|
  {
    var k :| k in keys;
    if forall o | o in keys :: o == k then k
    else
      var rest := keys - {k};
      assert rest.Keys == keys.Keys - {k};
      assert forall o | o in keys :: o == k || o in rest;
      var m := Least(rest);
      if LessEq(keys[k], keys[m]) then k else m
  }

  lemma {:induction false} LeastUnique(keys: map<Id, Key>, m: Id)
    requires keys != map[] && Distinct(keys) && IsLeast(keys, m)
    ensures m == Least(keys)
  {
    var l := Least(keys);
    assert LessEq(keys[m], keys[l]) && LessEq(keys[l], keys[m]);
  }

  predicate Sorted(keys: map<Id, Key>, rows: seq<Id>) {
    && (forall i | 0 <= i < |rows| :: rows[i] in keys)
    && (forall i, j | 0 <= i < j < |rows| :: rows[i] != rows[j] && LessEq(keys[rows[i]], keys[rows[j]]))
  }

  /** ORDER BY: every row once, in key order. */
  method OrderBy(keys: map<Id, Key>) returns (rows: seq<Id>)
    ensures Sorted(keys, rows)
    ensures forall id :: id in rows <==> id in keys
  {
    rows := [];
    var rest := keys.Keys;
    while rest != {}
      invariant rest <= keys.Keys
      invariant Sorted(keys, rows)
      invariant forall id :: id in rows <==> id in keys.Keys - rest
      decreases |rest|
    {
      var id :| id in rest;
      rows := Insert(keys, rows, id);
      rest := rest - {id};
    }
  }

  /** Putting a row between those that come before it and those that do not keeps the order. */
  lemma {:induction false} InsertKeepsOrder(keys: map<Id, Key>, rows: seq<Id>, id: Id, i: nat)
    requires Sorted(keys, rows) && id in keys && id !in rows && i <= |rows|
    requires forall k | 0 <= k < i :: LessEq(keys[rows[k]], keys[id])
    requires forall k | i <= k < |rows| :: LessEq(keys[id], keys[rows[k]])
    ensures Sorted(keys, rows[..i] + [id] + rows[i..])
  {
    hide LessEq;
    var out := rows[..i] + [id] + rows[i..];
    forall k | 0 <= k < |out| && k != i ensures out[k] == rows[if k < i then k else k - 1] { }
    forall a, b | 0 <= a < b < |out|
      ensures out[a] != out[b] && LessEq(keys[out[a]], keys[out[b]])
    {
      if a == i {
        assert out[b] == rows[b - 1];
      } else if b == i {
        assert out[a] == rows[a];
      } else {
        assert out[a] == rows[if a < i then a else a - 1] && out[b] == rows[if b < i then b else b - 1];
      }
    }
  }

  method Insert(keys: map<Id, Key>, rows: seq<Id>, id: Id) returns (out: seq<Id>)
    requires Sorted(keys, rows) && id in keys && id !in rows
    ensures Sorted(keys, out)
    ensures forall o :: o in out <==> o in rows || o == id
  {
    var i := 0;
    while i < |rows| && LessEq(keys[rows[i]], keys[id])
      invariant 0 <= i <= |rows|
      invariant forall k | 0 <= k < i :: LessEq(keys[rows[k]], keys[id])
    {
      i := i + 1;
    }
    out := rows[..i] + [id] + rows[i..];
    assert rows == rows[..i] + rows[i..];
    forall k | i <= k < |rows| ensures LessEq(keys[id], keys[rows[k]]) {
      if k > i { assert LessEq(keys[rows[i]], keys[rows[k]]); }
    }
    InsertKeepsOrder(keys, rows, id, i);
  }

  /** ORDER BY … LIMIT: the first rows in key order, all of them when there are fewer than the limit. */
  ghost predicate IsFirst(keys: map<Id, Key>, rows: seq<Id>, limit: nat) {
    && Sorted(keys, rows)
    && |rows| <= limit
    && (|rows| < limit ==> forall id | id in keys :: id in rows)
    && (forall id, k | id in keys && id !in rows && 0 <= k < |rows| :: LessEq(keys[rows[k]], keys[id]))
  }

  method FirstRows(keys: map<Id, Key>, limit: nat) returns (rows: seq<Id>)
    ensures IsFirst(keys, rows, limit)
  {
    var all := OrderBy(keys);
    rows := if |all| <= limit then all else all[..limit];
    forall id, k | id in all && id !in rows && 0 <= k < |rows| ensures LessEq(keys[rows[k]], keys[id]) {
      var i :| 0 <= i < |all| && all[i] == id;
      assert i >= |rows|;
      assert rows[k] == all[k];
    }
  }
}
