/** `groupby(key)[value].sum()`: one bucket per distinct key, keys sorted
    (pandas' default `sort=True`), each bucket holding the sum of its group. */
module Grouping {
  import opened Wrappers
  import opened Seqs

  datatype Bucket<K> = Bucket(key: K, sum: int)

  /** `lt` is a strict total order on `K`. */
  ghost predicate StrictOrder<K(!new)>(lt: (K, K) -> bool) {
    && (forall a :: !lt(a, a))
    && (forall a, b, c :: lt(a, b) && lt(b, c) ==> lt(a, c))
    && (forall a, b :: a != b ==> lt(a, b) || lt(b, a))
  }

  /** Bucket keys strictly ascend. */
  ghost predicate Ascending<K>(bs: seq<Bucket<K>>, lt: (K, K) -> bool) {
    forall i, j :: 0 <= i < j < |bs| ==> lt(bs[i].key, bs[j].key)
  }

  /** No two buckets share a key. */
  ghost predicate DistinctKeys<K>(bs: seq<Bucket<K>>) {
    forall i, j :: 0 <= i < j < |bs| ==> bs[i].key != bs[j].key
  }

  function KeysOf<K>(bs: seq<Bucket<K>>): set<K> {
    set b | b in bs :: b.key
  }

  /** The keys that occur among `xs`. */
  function KeysPresent<T, K>(xs: seq<T>, key: T -> K): set<K> {
    set i | 0 <= i < |xs| :: key(xs[i])
  }

  /** The sum of all bucket values. */
  function BucketTotal<K>(bs: seq<Bucket<K>>): int
    decreases |bs|
  {
    if bs == [] then 0 else bs[0].sum + BucketTotal(bs[1..])
  }

  /** `series.get(k)`: the value of the first bucket with key `k`. */
  function Lookup<K(==)>(bs: seq<Bucket<K>>, k: K): Option<int>
    decreases |bs|
  {
    if bs == [] then None
    else if bs[0].key == k then Some(bs[0].sum)
    else Lookup(bs[1..], k)
  }

  /** The sum of `val` over the elements of `xs` whose key is `k`. */
  function SumWhere<T, K(==)>(xs: seq<T>, key: T -> K, val: T -> int, k: K): int
    decreases |xs|
  {
    if xs == [] then 0
    else (if key(xs[0]) == k then val(xs[0]) else 0) + SumWhere(xs[1..], key, val, k)
  }

  /** Adds `v` into the bucket for `k`, creating it in key order if absent. */
  function AddTo<K(==)>(bs: seq<Bucket<K>>, k: K, v: int, lt: (K, K) -> bool): seq<Bucket<K>>
    decreases |bs|
  {
    if bs == [] then [Bucket(k, v)]
    else if bs[0].key == k then [Bucket(k, bs[0].sum + v)] + bs[1..]
    else if lt(k, bs[0].key) then [Bucket(k, v)] + bs
    else [bs[0]] + AddTo(bs[1..], k, v, lt)
  }

  /** Group `xs` by `key` and sum `val` per group. */
  function GroupSum<T, K(==)>(xs: seq<T>, key: T -> K, val: T -> int, lt: (K, K) -> bool): seq<Bucket<K>>
    decreases |xs|
  {
    if xs == [] then [] else AddTo(GroupSum(xs[1..], key, val, lt), key(xs[0]), val(xs[0]), lt)
  }

  // ---- AddTo ----

  lemma {:induction false} AddToKeys<K>(bs: seq<Bucket<K>>, k: K, v: int, lt: (K, K) -> bool)
    ensures KeysOf(AddTo(bs, k, v, lt)) == KeysOf(bs) + {k}
    decreases |bs|
  {
    if bs != [] && bs[0].key != k && !lt(k, bs[0].key) {
      AddToKeys(bs[1..], k, v, lt);
      assert bs == [bs[0]] + bs[1..];
      assert KeysOf(bs) == {bs[0].key} + KeysOf(bs[1..]);
      assert KeysOf([bs[0]] + AddTo(bs[1..], k, v, lt)) == {bs[0].key} + KeysOf(AddTo(bs[1..], k, v, lt));
    } else if bs != [] && bs[0].key == k {
      assert bs == [bs[0]] + bs[1..];
      assert KeysOf(bs) == {bs[0].key} + KeysOf(bs[1..]);
      assert KeysOf([Bucket(k, bs[0].sum + v)] + bs[1..]) == {k} + KeysOf(bs[1..]);
    } else if bs != [] {
      assert KeysOf([Bucket(k, v)] + bs) == {k} + KeysOf(bs);
    }
  }

  lemma {:induction false} AddToAscending<K(!new)>(bs: seq<Bucket<K>>, k: K, v: int, lt: (K, K) -> bool)
    requires StrictOrder(lt) && Ascending(bs, lt)
    ensures Ascending(AddTo(bs, k, v, lt), lt)
    decreases |bs|
  {
    if bs != [] && bs[0].key != k && !lt(k, bs[0].key) {
      var rest := AddTo(bs[1..], k, v, lt);
      AddToAscending(bs[1..], k, v, lt);
      AddToKeys(bs[1..], k, v, lt);
      assert lt(bs[0].key, k);
      forall j | 0 <= j < |rest|
        ensures lt(bs[0].key, rest[j].key)
      {
        assert rest[j] in rest;
        assert rest[j].key in KeysOf(bs[1..]) + {k};
        if rest[j].key != k {
          var b :| b in bs[1..] && b.key == rest[j].key;
          var i :| 0 <= i < |bs[1..]| && bs[1..][i] == b;
          assert bs[i + 1] == b;
        }
      }
      var r := [bs[0]] + rest;
      forall i, j | 0 <= i < j < |r|
        ensures lt(r[i].key, r[j].key)
      {
        if i > 0 {
          assert r[i] == rest[i - 1] && r[j] == rest[j - 1];
        }
      }
    }
  }

  lemma AscendingDistinct<K(!new)>(bs: seq<Bucket<K>>, lt: (K, K) -> bool)
    requires StrictOrder(lt) && Ascending(bs, lt)
    ensures DistinctKeys(bs)
  {
  }

  /** The sum stored for `k`, 0 if there is no bucket for it. */
  function SumAt<K(==)>(bs: seq<Bucket<K>>, k: K): int {
    match Lookup(bs, k)
    case Some(s) => s
    case None => 0
  }

  lemma {:induction false} LookupNoneIffAbsent<K>(bs: seq<Bucket<K>>, k: K)
    ensures Lookup(bs, k).None? <==> k !in KeysOf(bs)
    decreases |bs|
  {
    if bs != [] {
      LookupNoneIffAbsent(bs[1..], k);
      assert bs == [bs[0]] + bs[1..];
      assert KeysOf(bs) == {bs[0].key} + KeysOf(bs[1..]);
    }
  }

  lemma {:induction false} LookupFindsBucket<K>(bs: seq<Bucket<K>>, i: int)
    requires DistinctKeys(bs) && 0 <= i < |bs|
    ensures Lookup(bs, bs[i].key) == Some(bs[i].sum)
    decreases |bs|
  {
    if i > 0 {
      assert bs[1..][i - 1] == bs[i];
      LookupFindsBucket(bs[1..], i - 1);
    }
  }

  lemma {:induction false} AddToSums<K(!new)>(bs: seq<Bucket<K>>, k: K, v: int, lt: (K, K) -> bool, j: K)
    requires StrictOrder(lt) && Ascending(bs, lt)
    ensures SumAt(AddTo(bs, k, v, lt), j) == SumAt(bs, j) + (if j == k then v else 0)
    decreases |bs|
  {
    if bs == [] {
      assert AddTo(bs, k, v, lt) == [Bucket(k, v)];
      assert [Bucket(k, v)][1..] == [];
      assert SumAt(bs, j) == 0;
    } else if bs[0].key == k {
      if j != k {
        assert Lookup([Bucket(k, bs[0].sum + v)] + bs[1..], j) == Lookup(bs[1..], j);
      }
    } else if lt(k, bs[0].key) {
      if j != k {
        assert Lookup([Bucket(k, v)] + bs, j) == Lookup(bs, j);
      } else {
        LookupNoneIffAbsent(bs, k);
        forall b | b in bs
          ensures b.key != k
        {
          var i :| 0 <= i < |bs| && bs[i] == b;
          assert i == 0 || lt(bs[0].key, b.key);
        }
      }
    } else {
      AddToSums(bs[1..], k, v, lt, j);
      if j != bs[0].key {
        assert Lookup([bs[0]] + AddTo(bs[1..], k, v, lt), j) == Lookup(AddTo(bs[1..], k, v, lt), j);
      }
    }
  }

  lemma {:induction false} AddToTotal<K>(bs: seq<Bucket<K>>, k: K, v: int, lt: (K, K) -> bool)
    ensures BucketTotal(AddTo(bs, k, v, lt)) == BucketTotal(bs) + v
    decreases |bs|
  {
    if bs == [] {
      assert [Bucket(k, v)][1..] == [];
    } else if bs[0].key == k {
      assert ([Bucket(k, bs[0].sum + v)] + bs[1..])[1..] == bs[1..];
    } else if lt(k, bs[0].key) {
      assert ([Bucket(k, v)] + bs)[1..] == bs;
    } else {
      AddToTotal(bs[1..], k, v, lt);
      assert ([bs[0]] + AddTo(bs[1..], k, v, lt))[1..] == AddTo(bs[1..], k, v, lt);
    }
  }

  // ---- GroupSum ----

  /** The buckets are in strictly ascending key order. */
  lemma {:induction false} GroupSumAscending<T, K(!new)>(xs: seq<T>, key: T -> K, val: T -> int, lt: (K, K) -> bool)
    requires StrictOrder(lt)
    ensures Ascending(GroupSum(xs, key, val, lt), lt)
    decreases |xs|
  {
    if xs != [] {
      GroupSumAscending(xs[1..], key, val, lt);
      AddToAscending(GroupSum(xs[1..], key, val, lt), key(xs[0]), val(xs[0]), lt);
    }
  }

  /** There is one bucket for each key that occurs, and no other. */
  lemma {:induction false} GroupSumKeys<T, K>(xs: seq<T>, key: T -> K, val: T -> int, lt: (K, K) -> bool)
    ensures KeysOf(GroupSum(xs, key, val, lt)) == KeysPresent(xs, key)
    decreases |xs|
  {
    if xs != [] {
      GroupSumKeys(xs[1..], key, val, lt);
      AddToKeys(GroupSum(xs[1..], key, val, lt), key(xs[0]), val(xs[0]), lt);
      assert xs == [xs[0]] + xs[1..];
      assert KeysPresent(xs, key) == {key(xs[0])} + KeysPresent(xs[1..], key);
    }
  }

  /** Each key's value is the sum over its group. */
  lemma {:induction false} GroupSumSums<T, K(!new)>(xs: seq<T>, key: T -> K, val: T -> int, lt: (K, K) -> bool, j: K)
    requires StrictOrder(lt)
    ensures SumAt(GroupSum(xs, key, val, lt), j) == SumWhere(xs, key, val, j)
    decreases |xs|
  {
    if xs != [] {
      var g := GroupSum(xs[1..], key, val, lt);
      GroupSumSums(xs[1..], key, val, lt, j);
      GroupSumAscending(xs[1..], key, val, lt);
      AddToSums(g, key(xs[0]), val(xs[0]), lt, j);
    }
  }

  /** The bucket values add up to the sum of all values. */
  lemma {:induction false} GroupSumTotal<T, K>(xs: seq<T>, key: T -> K, val: T -> int, lt: (K, K) -> bool)
    ensures BucketTotal(GroupSum(xs, key, val, lt)) == SumBy(xs, val)
    decreases |xs|
  {
    if xs != [] {
      GroupSumTotal(xs[1..], key, val, lt);
      AddToTotal(GroupSum(xs[1..], key, val, lt), key(xs[0]), val(xs[0]), lt);
    }
  }

  /** Everything `groupby(...).sum()` promises, in one statement. */
  lemma GroupSumSpec<T, K(!new)>(xs: seq<T>, key: T -> K, val: T -> int, lt: (K, K) -> bool)
    requires StrictOrder(lt)
    ensures var g := GroupSum(xs, key, val, lt);
      && Ascending(g, lt)
      && KeysOf(g) == KeysPresent(xs, key)
      && (forall i :: 0 <= i < |g| ==> g[i].sum == SumWhere(xs, key, val, g[i].key))
      && BucketTotal(g) == SumBy(xs, val)
  {
    var g := GroupSum(xs, key, val, lt);
    GroupSumAscending(xs, key, val, lt);
    GroupSumKeys(xs, key, val, lt);
    GroupSumTotal(xs, key, val, lt);
    AscendingDistinct(g, lt);
    forall i | 0 <= i < |g|
      ensures g[i].sum == SumWhere(xs, key, val, g[i].key)
    {
      LookupFindsBucket(g, i);
      GroupSumSums(xs, key, val, lt, g[i].key);
    }
  }
}
