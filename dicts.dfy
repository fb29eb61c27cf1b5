/**
 The Python collection idioms the collectors are built from: a dictionary
 filled by assigning `d[key(row)] = val(row)` for each row in order (later
 rows overwrite earlier ones), `dict.get` with a default, `dict.pop` that
 raises `KeyError` on a missing key, and a filtering list comprehension.
 */
module Dicts {

  datatype Option<T> = None | Some(value: T)

  /** The exceptions a collector can raise or hand back as a value. */
  datatype PyError =
    | KeyError(key: string)
    | OSError(reason: string)
    | DatabaseError(reason: string)

  /** Either a value or the exception that was raised instead. */
  datatype Result<T> = Success(value: T) | Failure(error: PyError)

  /** The keys `key` assigns to the rows. */
  function KeysOf<R, K>(rows: seq<R>, key: R -> K): set<K>
  {
    set i | 0 <= i < |rows| :: key(rows[i])
  }

  /** The keys of a non-empty sequence of rows are those of all rows but the
      last, plus the last row's. */
  lemma KeysOfSnoc<R, K>(rows: seq<R>, key: R -> K)
    requires rows != []
    ensures KeysOf(rows, key) == KeysOf(rows[..|rows| - 1], key) + {key(rows[|rows| - 1])}
  {
    var n := |rows| - 1;
    assert forall i | 0 <= i < n :: rows[..n][i] == rows[i];
  }

  /** The index of the last row whose key is `k`, or -1 when no row has it:
      the reference definition of "a later row overwrites an earlier one". */
  function LastIndex<R, K(==)>(rows: seq<R>, key: R -> K, k: K): (i: int)
    ensures -1 <= i < |rows|
    ensures 0 <= i ==> key(rows[i]) == k
    ensures forall j | i < j < |rows| :: key(rows[j]) != k
    ensures i < 0 <==> k !in KeysOf(rows, key)
  {
    if rows == [] then -1
    else if key(rows[|rows| - 1]) == k then |rows| - 1
    else LastIndex(rows[..|rows| - 1], key, k)
  }

  /** `for row in rows: m[key(row)] = val(row)`, starting from `m`. */
  function Overlay<R, K, V>(m: map<K, V>, rows: seq<R>, key: R -> K, val: R -> V): (r: map<K, V>)
    ensures r.Keys == m.Keys + KeysOf(rows, key)
  {
    if rows == [] then m
    else
      var n := |rows| - 1;
      KeysOfSnoc(rows, key);
      Overlay(m, rows[..n], key, val)[key(rows[n]) := val(rows[n])]
  }

  /** One more row assigns one more key. */
  lemma OverlaySnoc<R, K, V>(m: map<K, V>, rows: seq<R>, key: R -> K, val: R -> V, i: nat)
    requires i < |rows|
    ensures Overlay(m, rows[..i + 1], key, val) == Overlay(m, rows[..i], key, val)[key(rows[i]) := val(rows[i])]
  {
    assert rows[..i + 1][..i] == rows[..i];
  }

  /** The overlay holds, at every key, the value of the last row with that
      key, and the starting value at keys no row has. */
  lemma {:induction false} OverlayAt<R, K, V>(m: map<K, V>, rows: seq<R>, key: R -> K, val: R -> V, k: K)
    ensures var r := Overlay(m, rows, key, val);
            var i := LastIndex(rows, key, k);
            && (0 <= i ==> k in r && r[k] == val(rows[i]))
            && (i < 0 ==> (k in r <==> k in m) && (k in m ==> r[k] == m[k]))
  {
    if rows != [] {
      var n := |rows| - 1;
      if key(rows[n]) != k {
        OverlayAt(m, rows[..n], key, val, k);
      }
    }
  }

  /** Every key a row assigns holds its last row's value; every other key of
      `m` keeps its value. */
  lemma OverlayAll<R, K, V>(m: map<K, V>, rows: seq<R>, key: R -> K, val: R -> V)
    ensures var r := Overlay(m, rows, key, val);
            && (forall k | k in KeysOf(rows, key) :: k in r && r[k] == val(rows[LastIndex(rows, key, k)]))
            && (forall k | k in m && k !in KeysOf(rows, key) :: k in r && r[k] == m[k])
  {
    forall k {
      OverlayAt(m, rows, key, val, k);
    }
  }

  /** The loop `for row in rows: d[key(row)] = val(row)` over a dictionary
      that starts as `m`. */
  method AssignEach<R, K, V>(m: map<K, V>, rows: seq<R>, key: R -> K, val: R -> V) returns (d: map<K, V>)
    ensures d == Overlay(m, rows, key, val)
    ensures d.Keys == m.Keys + KeysOf(rows, key)
    ensures forall k | k in KeysOf(rows, key) :: d[k] == val(rows[LastIndex(rows, key, k)])
    ensures forall k | k in m && k !in KeysOf(rows, key) :: d[k] == m[k]
  {
    d := m;
    var i := 0;
    while i < |rows|
      invariant 0 <= i <= |rows|
      invariant d == Overlay(m, rows[..i], key, val)
    {
      OverlaySnoc(m, rows, key, val, i);
      d := d[key(rows[i]) := val(rows[i])];
      i := i + 1;
    }
    assert rows[..i] == rows;
    OverlayAll(m, rows, key, val);
  }

  /** `m.get(k, default)`. */
  function Get<K, V>(m: map<K, V>, k: K, default: V): (v: V)
    ensures k in m ==> v == m[k]
    ensures k !in m ==> v == default
  {
    if k in m then m[k] else default
  }

  /** `m.pop(k)`: the removed value and the remaining dictionary, or
      `KeyError(k)` when `k` is missing. */
  function Pop<V>(m: map<string, V>, k: string): (r: Result<(V, map<string, V>)>)
    ensures r.Failure? <==> k !in m
    ensures r.Failure? ==> r.error == KeyError(k)
    ensures r.Success? ==>
              && r.value.0 == m[k]
              && r.value.1.Keys == m.Keys - {k}
              && forall j | j in r.value.1 :: r.value.1[j] == m[j]
  {
    if k in m then Success((m[k], m - {k})) else Failure(KeyError(k))
  }

  /** `[x for x in s if keep(x)]`: each element kept as often as it occurs
      when `keep` holds for it, and not at all otherwise. */
  function Filter<T(!new)>(s: seq<T>, keep: T -> bool): (r: seq<T>)
    ensures |r| <= |s|
    ensures forall x :: multiset(r)[x] == if keep(x) then multiset(s)[x] else 0
  {
    if s == [] then []
    else
      var head := if keep(s[0]) then [s[0]] else [];
      var rest := Filter(s[1..], keep);
      assert multiset(s) == multiset([s[0]]) + multiset(s[1..]) by {
        assert s == [s[0]] + s[1..];
      }
      assert multiset(head + rest) == multiset(head) + multiset(rest);
      head + rest
  }
}
