/**
 Grouping a list into an insertion-ordered table, as the aggregation helpers do with
 `Map`, and the law they rely on: the groups of a list partition its total.
 */
module Grouping {
  import opened Common

  /** Members with one key, in list order. */
  function Members<T(!new), K(==)>(xs: seq<T>, key: T -> K, k: K): seq<T> {
    Filter(xs, (x: T) => key(x) == k)
  }

  function GroupTotal<T(!new), K(==)>(xs: seq<T>, key: T -> K, val: T -> int, k: K): int {
    SumBy(Members(xs, key, k), val)
  }

  function GroupTotals<T(!new), K(==)>(xs: seq<T>, key: T -> K, val: T -> int, keys: seq<K>): int {
    if |keys| == 0 then 0
    else GroupTotals(xs, key, val, keys[..|keys| - 1]) + GroupTotal(xs, key, val, keys[|keys| - 1])
  }

  lemma {:induction false} MembersIs<T(!new), K>(xs: seq<T>, key: T -> K, k: K, p: T -> bool)
    requires forall x :: x in xs ==> p(x) == (key(x) == k)
    ensures Filter(xs, p) == Members(xs, key, k)
  {
    if |xs| > 0 { MembersIs(xs[..|xs| - 1], key, k, p); }
  }

  lemma MembersConcat<T(!new), K>(xs: seq<T>, ys: seq<T>, key: T -> K, k: K)
    ensures Members(xs + ys, key, k) == Members(xs, key, k) + Members(ys, key, k)
  {
    FilterConcat(xs, ys, (x: T) => key(x) == k);
  }

  lemma {:induction false} MembersAll<T(!new), K>(xs: seq<T>, key: T -> K, k: K)
    requires forall x :: x in xs ==> key(x) == k
    ensures Members(xs, key, k) == xs
  {
    if |xs| > 0 { MembersAll(xs[..|xs| - 1], key, k); }
  }

  lemma {:induction false} MembersNone<T(!new), K>(xs: seq<T>, key: T -> K, k: K)
    requires forall x :: x in xs ==> key(x) != k
    ensures Members(xs, key, k) == []
  {
    if |xs| > 0 { MembersNone(xs[..|xs| - 1], key, k); }
  }

  /** Filtering a group is grouping the filtered list. */
  lemma {:induction false} MembersFilter<T(!new), K(!new)>(xs: seq<T>, key: T -> K, k: K, p: T -> bool)
    ensures Filter(Members(xs, key, k), p) == Members(Filter(xs, p), key, k)
  {
    if |xs| > 0 {
      var front, x := xs[..|xs| - 1], xs[|xs| - 1];
      MembersFilter(front, key, k, p);
      if key(x) == k { FilterSnoc(Members(front, key, k), x, p); }
      if p(x) { MembersSnoc(Filter(front, p), x, key); }
    }
  }

  /** An insertion-ordered table that holds exactly the groups of `xs`. */
  ghost predicate Grouped<T(!new), K(!new)>(xs: seq<T>, key: T -> K, keys: seq<K>, table: map<K, seq<T>>) {
    && Distinct(keys)
    && (forall k :: k in keys <==> k in table)
    && (forall k :: k in table ==> table[k] != [])
    && (forall k :: Members(xs, key, k) == if k in table then table[k] else [])
  }

  /** Filling the table one element at a time. */
  method GroupBy<T(!new), K(==, !new)>(xs: seq<T>, key: T -> K) returns (keys: seq<K>, table: map<K, seq<T>>)
    ensures Grouped(xs, key, keys, table)
  {
    keys, table := [], map[];
    var i := 0;
    while i < |xs|
      invariant 0 <= i <= |xs|
      invariant Grouped(xs[..i], key, keys, table)
    {
      assert xs[..i + 1] == xs[..i] + [xs[i]];
      keys, table := AddRow(xs[..i], xs[i], key, keys, table);
      i := i + 1;
    }
    assert xs[..i] == xs;
  }

  method AddRow<T(!new), K(==, !new)>(ghost xs: seq<T>, x: T, key: T -> K, keys: seq<K>, table: map<K, seq<T>>)
    returns (keys': seq<K>, table': map<K, seq<T>>)
    requires Grouped(xs, key, keys, table)
    ensures Grouped(xs + [x], key, keys', table')
  {
    var k := key(x);
    MembersSnoc(xs, x, key);
    DistinctSnoc(keys, k);
    if k in table {
      keys', table' := keys, table[k := table[k] + [x]];
    } else {
      keys', table' := keys + [k], table[k := [x]];
    }
  }

  lemma MembersSnoc<T(!new), K(!new)>(xs: seq<T>, x: T, key: T -> K)
    ensures forall k :: Members(xs + [x], key, k) == Members(xs, key, k) + (if key(x) == k then [x] else [])
  {
    forall k ensures Members(xs + [x], key, k) == Members(xs, key, k) + (if key(x) == k then [x] else []) {
      FilterSnoc(xs, x, (y: T) => key(y) == k);
    }
  }

  lemma GroupedCovers<T(!new), K(!new)>(xs: seq<T>, key: T -> K, keys: seq<K>, table: map<K, seq<T>>)
    requires Grouped(xs, key, keys, table)
    ensures forall x :: x in xs ==> key(x) in keys
  {
    forall x | x in xs ensures key(x) in keys {
      assert x in Members(xs, key, key(x));
    }
  }

  lemma {:induction false} GroupTotalsSnoc<T(!new), K>(xs: seq<T>, x: T, key: T -> K, val: T -> int, keys: seq<K>)
    requires Distinct(keys)
    ensures GroupTotals(xs + [x], key, val, keys) ==
            GroupTotals(xs, key, val, keys) + (if key(x) in keys then val(x) else 0)
  {
    if |keys| > 0 {
      var front, k := keys[..|keys| - 1], keys[|keys| - 1];
      GroupTotalsSnoc(xs, x, key, val, front);
      FilterSnoc(xs, x, (y: T) => key(y) == k);
      if key(x) == k { SumBySnoc(Members(xs, key, k), x, val); }
      assert keys == front + [k];
      DistinctSnoc(front, k);
    }
  }

  lemma {:induction false} GroupTotalsEmpty<T(!new), K>(key: T -> K, val: T -> int, keys: seq<K>)
    ensures GroupTotals([], key, val, keys) == 0
  {
    if |keys| > 0 { GroupTotalsEmpty(key, val, keys[..|keys| - 1]); }
  }

  /** When every key is listed once, the group totals add up to the whole. */
  lemma {:induction false} GroupsPartition<T(!new), K>(xs: seq<T>, key: T -> K, val: T -> int, keys: seq<K>)
    requires Distinct(keys) && forall x :: x in xs ==> key(x) in keys
    ensures GroupTotals(xs, key, val, keys) == SumBy(xs, val)
  {
    if |xs| == 0 {
      GroupTotalsEmpty(key, val, keys);
    } else {
      var front, x := xs[..|xs| - 1], xs[|xs| - 1];
      GroupsPartition(front, key, val, keys);
      assert xs == front + [x];
      GroupTotalsSnoc(front, x, key, val, keys);
    }
  }

  /** Summing the computed group values is summing the groups. */
  lemma {:induction false} TotalsOfRows<R, T(!new), K>(rows: seq<R>, amount: R -> int, xs: seq<T>, key: T -> K,
                                                         val: T -> int, keys: seq<K>)
    requires |rows| == |keys|
    requires forall i :: 0 <= i < |rows| ==> amount(rows[i]) == GroupTotal(xs, key, val, keys[i])
    ensures SumBy(rows, amount) == GroupTotals(xs, key, val, keys)
  {
    if |rows| > 0 {
      var n := |rows| - 1;
      TotalsOfRows(rows[..n], amount, xs, key, val, keys[..n]);
    }
  }
}
