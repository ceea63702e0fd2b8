/** Group-by-sum of the `Montant` column into a finite map, and the sum of
    a map's values. Rows whose grouping key is null (the key function gives
    None) are dropped, as the grouping does for null keys. */
module Rollups {
  import opened Wrappers
  import opened Frames

  /** The rows whose key is `k`, in order. */
  function Matching<K(==)>(rows: seq<Row>, key: Row -> Option<K>, k: K): seq<Row> {
    if rows == [] then []
    else
      (if key(rows[0]) == Some(k) then [rows[0]] else []) + Matching(rows[1..], key, k)
  }

  /** The rows whose key is not null, in order. */
  function Keyed<K>(rows: seq<Row>, key: Row -> Option<K>): (s: seq<Row>)
    ensures forall r :: r in s ==> r in rows && key(r).Some?
    ensures (forall r :: r in rows ==> key(r).Some?) ==> s == rows
  {
    if rows == [] then []
    else
      assert forall r :: r in rows[1..] ==> r in rows;
      assert rows == [rows[0]] + rows[1..];
      (if key(rows[0]).Some? then [rows[0]] else []) + Keyed(rows[1..], key)
  }

  /** `Keyed` keeps every row with a non-null key, as many times as it
      occurs, and no other row. */
  lemma {:induction false} KeyedCounts<K>(rows: seq<Row>, key: Row -> Option<K>)
    ensures forall r :: multiset(Keyed(rows, key))[r] == (if key(r).Some? then multiset(rows)[r] else 0)
  {
    if rows != [] {
      KeyedCounts(rows[1..], key);
      var head := if key(rows[0]).Some? then [rows[0]] else [];
      assert Keyed(rows, key) == head + Keyed(rows[1..], key);
      assert rows == [rows[0]] + rows[1..];
      assert multiset(rows) == multiset([rows[0]]) + multiset(rows[1..]);
    }
  }

  /** The distinct non-null keys present in the rows: exactly the keys
      some row matches. */
  function KeysPresent<K(==,!new)>(rows: seq<Row>, key: Row -> Option<K>): (ks: set<K>)
    ensures forall k :: k in ks <==> Matching(rows, key, k) != []
  {
    if rows == [] then {}
    else (if key(rows[0]).Some? then {key(rows[0]).value} else {}) + KeysPresent(rows[1..], key)
  }

  /** Adds `x` to the entry of `k`, creating it when absent. */
  function Bump<K>(m: map<K, int>, k: K, x: int): (m': map<K, int>)
    ensures m'.Keys == m.Keys + {k}
    ensures m'[k] == x + (if k in m then m[k] else 0)
    ensures forall j :: j in m && j != k ==> m'[j] == m[j]
  {
    m[k := x + (if k in m then m[k] else 0)]
  }

  /** Sum of `Montant` per key, folding the rows in one at a time. */
  function GroupSum<K(==)>(rows: seq<Row>, key: Row -> Option<K>): map<K, int> {
    if rows == [] then map[]
    else
      var m := GroupSum(rows[1..], key);
      match key(rows[0])
      case None => m
      case Some(k) => Bump(m, k, rows[0].montant)
  }

  /** A group-by-sum has one entry per distinct non-null key and no entry
      for a key no row has; the entry of a key is the total of the rows
      with that key. */
  lemma {:induction false} GroupSumSpec<K(!new)>(rows: seq<Row>, key: Row -> Option<K>)
    ensures GroupSum(rows, key).Keys == KeysPresent(rows, key)
    ensures forall k :: k in GroupSum(rows, key) ==> GroupSum(rows, key)[k] == Total(Matching(rows, key, k))
  {
    if rows != [] {
      GroupSumSpec(rows[1..], key);
      GroupSumCons(rows, key);
      GroupSumStepKeys(rows, key, GroupSum(rows[1..], key));
      GroupSumStepValues(rows, key, GroupSum(rows[1..], key));
    }
  }

  /** How the first row changes the rows matching each key. */
  lemma MatchingFirst<K>(rows: seq<Row>, key: Row -> Option<K>, k: K)
    requires rows != []
    ensures Total(Matching(rows, key, k)) ==
      (if key(rows[0]) == Some(k) then rows[0].montant else 0) + Total(Matching(rows[1..], key, k))
  {
    var rest := Matching(rows[1..], key, k);
    if key(rows[0]) == Some(k) {
      assert ([rows[0]] + rest)[1..] == rest;
    } else {
      assert [] + rest == rest;
    }
  }

  /** Folding the first row into the group-by-sum of the others keeps the
      group-by-sum's contract: first its keys, then its values. */
  lemma GroupSumStepKeys<K(!new)>(rows: seq<Row>, key: Row -> Option<K>, m: map<K, int>)
    requires rows != []
    requires m.Keys == KeysPresent(rows[1..], key)
    ensures (if key(rows[0]).Some? then Bump(m, key(rows[0]).value, rows[0].montant) else m).Keys ==
      KeysPresent(rows, key)
  {
  }

  lemma GroupSumStepValues<K(!new)>(rows: seq<Row>, key: Row -> Option<K>, m: map<K, int>)
    requires rows != []
    requires m.Keys == KeysPresent(rows[1..], key)
    requires forall k :: k in m ==> m[k] == Total(Matching(rows[1..], key, k))
    ensures var m' := if key(rows[0]).Some? then Bump(m, key(rows[0]).value, rows[0].montant) else m;
      forall k :: k in m' ==> m'[k] == Total(Matching(rows, key, k))
  {
    forall k | true
      ensures Total(Matching(rows, key, k)) ==
        (if key(rows[0]) == Some(k) then rows[0].montant else 0) + Total(Matching(rows[1..], key, k))
    {
      MatchingFirst(rows, key, k);
    }
    if key(rows[0]).Some? && key(rows[0]).value !in m {
      assert Matching(rows[1..], key, key(rows[0]).value) == [];
    }
  }

  /** Sum of a map's values. */
  ghost function MapSum<K>(m: map<K, int>): int
    decreases |m|
  {
    if |m| == 0 then 0
    else
      var k :| k in m;
      m[k] + MapSum(m - {k})
  }

  lemma MapSumUnfold<K>(m: map<K, int>) returns (j: K)
    requires |m| > 0
    ensures j in m && MapSum(m) == m[j] + MapSum(m - {j})
  {
    j :| j in m && MapSum(m) == m[j] + MapSum(m - {j});
  }

  /** The sum does not depend on which key is taken out first. */
  lemma {:induction false} MapSumRemove<K>(m: map<K, int>, k: K)
    requires k in m
    ensures MapSum(m) == m[k] + MapSum(m - {k})
    decreases |m|
  {
    var j := MapSumUnfold(m);
    if j != k {
      var mj, mk := m - {j}, m - {k};
      assert k in mj && j in mk;
      MapSumRemove(mj, k);
      MapSumRemove(mk, j);
      assert mj - {k} == mk - {j};
    }
  }

  /** Adding `x` to the entry of `k` adds `x` to the sum. */
  lemma MapSumAdd<K>(m: map<K, int>, k: K, x: int)
    ensures MapSum(Bump(m, k, x)) == MapSum(m) + x
  {
    var m' := Bump(m, k, x);
    MapSumRemove(m', k);
    if k in m {
      MapSumRemove(m, k);
      assert m' - {k} == m - {k};
    } else {
      assert m' - {k} == m;
    }
  }

  /** The values of a group-by-sum add up to the total of the rows it
      grouped, i.e. every row with a non-null key. */
  lemma {:induction false} GroupSumTotal<K>(rows: seq<Row>, key: Row -> Option<K>)
    ensures MapSum(GroupSum(rows, key)) == Total(Keyed(rows, key))
  {
    if rows == [] {
      assert GroupSum(rows, key) == map[];
    } else {
      GroupSumTotal(rows[1..], key);
      GroupSumCons(rows, key);
      if key(rows[0]).Some? {
        MapSumAdd(GroupSum(rows[1..], key), key(rows[0]).value, rows[0].montant);
      }
    }
  }

  /** One step of the fold, for the group-by-sum and for the keyed rows. */
  lemma GroupSumCons<K>(rows: seq<Row>, key: Row -> Option<K>)
    requires rows != []
    ensures key(rows[0]).None? ==> GroupSum(rows, key) == GroupSum(rows[1..], key)
    ensures key(rows[0]).Some? ==>
      GroupSum(rows, key) == Bump(GroupSum(rows[1..], key), key(rows[0]).value, rows[0].montant)
    ensures Total(Keyed(rows, key)) ==
      (if key(rows[0]).Some? then rows[0].montant else 0) + Total(Keyed(rows[1..], key))
  {
    var rest := Keyed(rows[1..], key);
    if key(rows[0]).Some? {
      assert Keyed(rows, key) == [rows[0]] + rest;
      assert ([rows[0]] + rest)[1..] == rest;
    } else {
      assert Keyed(rows, key) == rest by {
        assert [] + rest == rest;
      }
    }
  }

  /** Two keyings that pick out the same rows select the same sequence. */
  lemma {:induction false} MatchingSameRows<K, J>(rows: seq<Row>, key1: Row -> Option<K>, k1: K, key2: Row -> Option<J>, k2: J)
    requires forall r :: r in rows ==> (key1(r) == Some(k1) <==> key2(r) == Some(k2))
    ensures Matching(rows, key1, k1) == Matching(rows, key2, k2)
  {
    if rows != [] {
      assert rows[0] in rows;
      assert forall r :: r in rows[1..] ==> r in rows;
      MatchingSameRows(rows[1..], key1, k1, key2, k2);
    }
  }

  /** Some row has key `k` exactly when the rows matching `k` are not
      empty. */
  lemma {:induction false} MatchingNonEmpty<K>(rows: seq<Row>, key: Row -> Option<K>, k: K)
    ensures Matching(rows, key, k) != [] <==> exists i :: 0 <= i < |rows| && key(rows[i]) == Some(k)
  {
    if rows != [] {
      MatchingNonEmpty(rows[1..], key, k);
      if exists i :: 0 <= i < |rows[1..]| && key(rows[1..][i]) == Some(k) {
        var i :| 0 <= i < |rows[1..]| && key(rows[1..][i]) == Some(k);
        assert key(rows[i + 1]) == Some(k);
      }
      if exists i :: 1 <= i < |rows| && key(rows[i]) == Some(k) {
        var i :| 1 <= i < |rows| && key(rows[i]) == Some(k);
        assert key(rows[1..][i - 1]) == Some(k);
      }
    }
  }

  /** Matching distributes over concatenation. */
  lemma {:induction false} MatchingAppend<K>(a: seq<Row>, b: seq<Row>, key: Row -> Option<K>, k: K)
    ensures Matching(a + b, key, k) == Matching(a, key, k) + Matching(b, key, k)
  {
    if a == [] {
      assert a + b == b;
    } else {
      var head := if key(a[0]) == Some(k) then [a[0]] else [];
      assert (a + b)[0] == a[0] && (a + b)[1..] == a[1..] + b;
      MatchingAppend(a[1..], b, key, k);
      assert Matching(a + b, key, k) == head + (Matching(a[1..], key, k) + Matching(b, key, k));
      assert Matching(a, key, k) == head + Matching(a[1..], key, k);
    }
  }

  /** When every row has key `k`, all rows match; when none has, none. */
  lemma {:induction false} MatchingAllOrNone<K>(rows: seq<Row>, key: Row -> Option<K>, k: K)
    ensures (forall i :: 0 <= i < |rows| ==> key(rows[i]) == Some(k)) ==> Matching(rows, key, k) == rows
    ensures (forall i :: 0 <= i < |rows| ==> key(rows[i]) != Some(k)) ==> Matching(rows, key, k) == []
  {
    if rows != [] {
      MatchingAllOrNone(rows[1..], key, k);
      assert rows == [rows[0]] + rows[1..];
    }
  }

  /** When a row has a non-null key under `key1` exactly when its key under
      `key2` is `k2`, the keyed rows of the first are the rows matching
      `k2` under the second. */
  lemma {:induction false} KeyedSameRows<K, J>(rows: seq<Row>, key1: Row -> Option<K>, key2: Row -> Option<J>, k2: J)
    requires forall r :: r in rows ==> (key1(r).Some? <==> key2(r) == Some(k2))
    ensures Keyed(rows, key1) == Matching(rows, key2, k2)
  {
    if rows != [] {
      assert rows[0] in rows;
      assert forall r :: r in rows[1..] ==> r in rows;
      KeyedSameRows(rows[1..], key1, key2, k2);
    }
  }
}
