/**
 * The grouping idiom the program uses three times: walk the rows once, and for each row
 * `if (!groups[key]) groups[key] = []; groups[key].push(row)`. The keys of the resulting
 * object are in first-appearance order.
 */
module Grouping {
  import opened Seqs

  /** The rows whose key is `k`, in input order. */
  function ByKey<T, K(==)>(rows: seq<T>, key: T -> K, k: K): (g: seq<T>)
    ensures |g| <= |rows|
    ensures forall m :: 0 <= m < |g| ==> key(g[m]) == k
  {
    if rows == [] then []
    else
      var last := rows[|rows| - 1];
      ByKey(rows[..|rows| - 1], key, k) + (if key(last) == k then [last] else [])
  }

  /** The distinct keys of the rows, in the order they first appear. */
  function KeysOf<T, K(==)>(rows: seq<T>, key: T -> K): (ks: seq<K>)
    ensures Distinct(ks)
    ensures forall j :: 0 <= j < |rows| ==> key(rows[j]) in ks
    ensures forall m :: 0 <= m < |ks| ==> exists j :: 0 <= j < |rows| && key(rows[j]) == ks[m]
  {
    if rows == [] then []
    else
      var front := rows[..|rows| - 1];
      var ks := KeysOf(front, key);
      var k := key(rows[|rows| - 1]);
      assert forall j :: 0 <= j < |front| ==> rows[j] == front[j];
      if k in ks then ks else ks + [k]
  }

  /** The `forEach`/`push` loop: one group per distinct key, each holding that key's rows in order. */
  method GroupBy<T, K(==, !new)>(rows: seq<T>, key: T -> K) returns (keys: seq<K>, groups: map<K, seq<T>>)
    ensures keys == KeysOf(rows, key)
    ensures forall k :: k in groups <==> k in keys
    ensures forall k :: k in groups ==> groups[k] == ByKey(rows, key, k)
  {
    keys, groups := [], map[];
    var i := 0;
    while i < |rows|
      invariant 0 <= i <= |rows|
      invariant GroupsOfPrefix(rows, key, i, keys, groups)
    {
      var row := rows[i];
      var k := key(row);
      ghost var keys0, groups0 := keys, groups;
      if k !in groups {
        groups := groups[k := []];
        keys := keys + [k];
      }
      groups := groups[k := groups[k] + [row]];
      GroupStep(rows, key, i, keys0, groups0);
      i := i + 1;
    }
    assert rows[..|rows|] == rows;
  }

  /** The loop invariant of `GroupBy`: `keys` and `groups` are those of the first `i` rows. */
  ghost predicate GroupsOfPrefix<T, K(!new)>(rows: seq<T>, key: T -> K, i: nat, keys: seq<K>, groups: map<K, seq<T>>)
    requires i <= |rows|
  {
    && keys == KeysOf(rows[..i], key)
    && (forall k :: k in groups <==> k in keys)
    && (forall k :: k in groups ==> groups[k] == ByKey(rows[..i], key, k))
  }

  lemma GroupStep<T, K(!new)>(rows: seq<T>, key: T -> K, i: nat, keys: seq<K>, groups: map<K, seq<T>>)
    requires i < |rows| && GroupsOfPrefix(rows, key, i, keys, groups)
    ensures var k := key(rows[i]);
            var created := if k in groups then groups else groups[k := []];
            GroupsOfPrefix(rows, key, i + 1,
                           if k in groups then keys else keys + [k],
                           created[k := created[k] + [rows[i]]])
  {
    GroupStepKeys(rows, key, i, keys, groups);
    GroupStepContents(rows, key, i, keys, groups);
  }

  /** After one more row, the keys are those of the longer prefix, and they name the groups. */
  lemma GroupStepKeys<T, K(!new)>(rows: seq<T>, key: T -> K, i: nat, keys: seq<K>, groups: map<K, seq<T>>)
    requires i < |rows| && GroupsOfPrefix(rows, key, i, keys, groups)
    ensures var k := key(rows[i]);
            var keys' := if k in groups then keys else keys + [k];
            var created := if k in groups then groups else groups[k := []];
            && keys' == KeysOf(rows[..i + 1], key)
            && forall g :: g in created[k := created[k] + [rows[i]]] <==> g in keys'
  {
    ExtendKeys(rows, key, i);
  }

  /** After one more row, each group holds its key's rows of the longer prefix. */
  lemma GroupStepContents<T, K(!new)>(rows: seq<T>, key: T -> K, i: nat, keys: seq<K>, groups: map<K, seq<T>>)
    requires i < |rows| && GroupsOfPrefix(rows, key, i, keys, groups)
    ensures var k := key(rows[i]);
            var created := if k in groups then groups else groups[k := []];
            var groups' := created[k := created[k] + [rows[i]]];
            forall g :: g in groups' ==> groups'[g] == ByKey(rows[..i + 1], key, g)
  {
    var k := key(rows[i]);
    if k !in groups {
      AbsentKeyEmpty(rows[..i], key, k);
    }
    var created := if k in groups then groups else groups[k := []];
    var groups' := created[k := created[k] + [rows[i]]];
    forall g | g in groups' ensures groups'[g] == ByKey(rows[..i + 1], key, g) {
      ExtendGroup(rows, key, i, g);
      if g != k {
        assert groups'[g] == groups[g];
      }
    }
  }

  /** A key no row has names an empty group. */
  lemma {:induction false} AbsentKeyEmpty<T, K>(rows: seq<T>, key: T -> K, k: K)
    requires k !in KeysOf(rows, key)
    ensures ByKey(rows, key, k) == []
  {
    if rows != [] {
      var front := rows[..|rows| - 1];
      assert k !in KeysOf(front, key);
      AbsentKeyEmpty(front, key, k);
    }
  }

  /** The keys of one more row. */
  lemma ExtendKeys<T, K>(rows: seq<T>, key: T -> K, i: nat)
    requires i < |rows|
    ensures KeysOf(rows[..i + 1], key)
            == if key(rows[i]) in KeysOf(rows[..i], key) then KeysOf(rows[..i], key)
               else KeysOf(rows[..i], key) + [key(rows[i])]
  {
    assert rows[..i + 1][..i] == rows[..i];
  }

  /** The group of key `k` after one more row. */
  lemma ExtendGroup<T, K>(rows: seq<T>, key: T -> K, i: nat, k: K)
    requires i < |rows|
    ensures ByKey(rows[..i + 1], key, k) == ByKey(rows[..i], key, k) + (if key(rows[i]) == k then [rows[i]] else [])
  {
    assert rows[..i + 1][..i] == rows[..i];
  }

  /** The total size of the groups named by `ks`. */
  function SumSizes<T, K(==)>(rows: seq<T>, key: T -> K, ks: seq<K>): nat
  {
    if ks == [] then 0 else |ByKey(rows, key, ks[0])| + SumSizes(rows, key, ks[1..])
  }

  function Occurrences<K(==)>(ks: seq<K>, k: K): nat
  {
    if ks == [] then 0 else (if ks[0] == k then 1 else 0) + Occurrences(ks[1..], k)
  }

  lemma {:induction false} OccursOnce<K>(ks: seq<K>, k: K)
    requires Distinct(ks) && k in ks
    ensures Occurrences(ks, k) == 1
  {
    var tail := ks[1..];
    assert Distinct(tail) by {
      forall i, j | 0 <= i < j < |tail| ensures tail[i] != tail[j] {
        assert tail[i] == ks[i + 1] && tail[j] == ks[j + 1];
      }
    }
    if ks[0] == k {
      assert k !in tail;
      NeverOccurs(tail, k);
    } else {
      OccursOnce(tail, k);
    }
  }

  lemma {:induction false} NeverOccurs<K>(ks: seq<K>, k: K)
    requires k !in ks
    ensures Occurrences(ks, k) == 0
  {
    if ks != [] {
      NeverOccurs(ks[1..], k);
    }
  }

  lemma {:induction false} SumSizesSnoc<T, K>(front: seq<T>, x: T, key: T -> K, ks: seq<K>)
    ensures SumSizes(front + [x], key, ks) == SumSizes(front, key, ks) + Occurrences(ks, key(x))
  {
    if ks != [] {
      assert (front + [x])[..|front|] == front;
      SumSizesSnoc(front, x, key, ks[1..]);
    }
  }

  /**
   * Every row lands in exactly one of the groups: the group sizes over any duplicate-free list
   * of keys covering the rows add up to the number of rows.
   */
  lemma {:induction false} GroupSizesSum<T, K>(rows: seq<T>, key: T -> K, ks: seq<K>)
    requires Distinct(ks)
    requires forall j :: 0 <= j < |rows| ==> key(rows[j]) in ks
    ensures SumSizes(rows, key, ks) == |rows|
  {
    if rows == [] {
      EmptySums(key, ks);
    } else {
      var front := rows[..|rows| - 1];
      var x := rows[|rows| - 1];
      assert rows == front + [x];
      assert forall j :: 0 <= j < |front| ==> front[j] == rows[j];
      GroupSizesSum(front, key, ks);
      SumSizesSnoc(front, x, key, ks);
      OccursOnce(ks, key(x));
    }
  }

  lemma {:induction false} EmptySums<T, K>(key: T -> K, ks: seq<K>)
    ensures SumSizes([], key, ks) == 0
  {
    if ks != [] {
      EmptySums(key, ks[1..]);
    }
  }

  /** A row occurs in its own group as often as in the input, and in no other group. */
  lemma {:induction false} ByKeyMultiplicity<T, K>(rows: seq<T>, key: T -> K, k: K, x: T)
    ensures multiset(ByKey(rows, key, k))[x] == if key(x) == k then multiset(rows)[x] else 0
  {
    if rows != [] {
      var front := rows[..|rows| - 1];
      assert rows == front + [rows[|rows| - 1]];
      ByKeyMultiplicity(front, key, k, x);
    }
  }

  /** Grouping distributes over concatenation. */
  lemma {:induction false} ByKeyAppend<T, K>(a: seq<T>, b: seq<T>, key: T -> K, k: K)
    ensures ByKey(a + b, key, k) == ByKey(a, key, k) + ByKey(b, key, k)
  {
    if b != [] {
      var front := b[..|b| - 1];
      assert (a + b)[..|a + b| - 1] == a + front;
      ByKeyAppend(a, front, key, k);
    } else {
      assert a + b == a;
    }
  }

  /** Where row `j` sits inside its group: the number of earlier rows with the same key. */
  function Position<T, K(==)>(rows: seq<T>, key: T -> K, j: nat): nat
    requires j < |rows|
  {
    |ByKey(rows[..j], key, key(rows[j]))|
  }

  lemma PositionIsRow<T, K>(rows: seq<T>, key: T -> K, j: nat)
    requires j < |rows|
    ensures var g := ByKey(rows, key, key(rows[j]));
            Position(rows, key, j) < |g| && g[Position(rows, key, j)] == rows[j]
  {
    var k := key(rows[j]);
    var next := rows[..j + 1];
    assert next[..j] == rows[..j];
    assert ByKey(next, key, k) == ByKey(rows[..j], key, k) + [rows[j]];
    assert rows == next + rows[j + 1..];
    ByKeyAppend(next, rows[j + 1..], key, k);
  }

  /** Rows with the same key keep their relative order inside the group. */
  lemma OrderWithinGroup<T, K>(rows: seq<T>, key: T -> K, i: nat, j: nat)
    requires i < j < |rows| && key(rows[i]) == key(rows[j])
    ensures var g := ByKey(rows, key, key(rows[i]));
            Position(rows, key, i) < Position(rows, key, j) < |g|
            && g[Position(rows, key, i)] == rows[i] && g[Position(rows, key, j)] == rows[j]
  {
    var k := key(rows[i]);
    PositionIsRow(rows, key, i);
    PositionIsRow(rows, key, j);
    var upto := rows[..j];
    assert upto == rows[..i + 1] + rows[i + 1..j];
    assert rows[..i + 1][..i] == rows[..i];
    assert ByKey(rows[..i + 1], key, k) == ByKey(rows[..i], key, k) + [rows[i]];
    ByKeyAppend(rows[..i + 1], rows[i + 1..j], key, k);
  }
}
