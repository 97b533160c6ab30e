/**
 * The affinity table that `FrequentItemsSets.get_products` builds: for every
 * SKU seen, `n_times` (the number of transactions that contain it) and a
 * map from every other SKU it appeared with to the number of transactions
 * containing both.
 *
 * The functions here are the specification of that build; the class in
 * frequent_items_sets.dfy performs it step by step and is proved to reach
 * `Build(old, transactions)`.
 */
module Affinity {

  /** One entry of `self.affinities`: `{"n_times": ..., "affinities": {...}}`. */
  datatype Record = Record(nTimes: nat, affinities: map<int, nat>)

  /** The record `create_affinities_record` starts from, before its first update. */
  const Empty: Record := Record(0, map[])

  /** The record of `sku`, or the fresh one that would be created for it. */
  function Get(aff: map<int, Record>, sku: int): Record {
    if sku in aff then aff[sku] else Empty
  }

  /** The co-occurrence counts after one more transaction with `others`. */
  function Bumped(m: map<int, nat>, others: set<int>): map<int, nat> {
    map k | k in m.Keys + others ::
      (if k in m then m[k] else 0) + (if k in others then 1 else 0)
  }

  /** The record after `update_affinities_record(sku, others)`. */
  function Updated(r: Record, others: set<int>): Record {
    Record(r.nTimes + 1, Bumped(r.affinities, others))
  }

  /**
   * The table after the SKUs in `done` (a part of transaction `t`) have each
   * been updated with the rest of `t`.
   */
  function Observed(aff: map<int, Record>, t: set<int>, done: set<int>): map<int, Record> {
    map k | k in aff.Keys + done ::
      if k in done then Updated(Get(aff, k), t - {k}) else aff[k]
  }

  /** The table after one whole transaction `t`. */
  function Observe(aff: map<int, Record>, t: set<int>): map<int, Record> {
    Observed(aff, t, t)
  }

  /** The table after the transactions `txs`, in order, starting from `aff`. */
  function Build(aff: map<int, Record>, txs: seq<set<int>>): map<int, Record>
    decreases |txs|
  {
    if txs == [] then aff
    else Observe(Build(aff, txs[..|txs| - 1]), txs[|txs| - 1])
  }

  /** The number of transactions in `txs` that contain `a`. */
  function Count(txs: seq<set<int>>, a: int): nat
    decreases |txs|
  {
    if txs == [] then 0
    else Count(txs[..|txs| - 1], a) + (if a in txs[|txs| - 1] then 1 else 0)
  }

  /** The number of transactions in `txs` that contain both `a` and `b`. */
  function CoCount(txs: seq<set<int>>, a: int, b: int): nat
    decreases |txs|
  {
    if txs == [] then 0
    else CoCount(txs[..|txs| - 1], a, b) + (if a in txs[|txs| - 1] && b in txs[|txs| - 1] then 1 else 0)
  }

  /** The SKUs that occur in some transaction of `txs`. */
  ghost function Skus(txs: seq<set<int>>): set<int> {
    set i, x | 0 <= i < |txs| && x in txs[i] :: x
  }

  /** A SKU is counted exactly when it occurs in some transaction. */
  lemma {:induction false} CountPositive(txs: seq<set<int>>, a: int)
    ensures Count(txs, a) > 0 <==> a in Skus(txs)
    decreases |txs|
  {
    if txs != [] {
      var init := txs[..|txs| - 1];
      CountPositive(init, a);
      if a in Skus(init) {
        var i :| 0 <= i < |init| && a in init[i];
        assert a in txs[i];
      }
      if a in Skus(txs) {
        var i :| 0 <= i < |txs| && a in txs[i];
        if i < |init| {
          assert a in init[i];
        }
      }
    }
  }

  /**
   * `aff` holds exactly the counts of `txs`: an entry for every SKU that
   * occurs, with `n_times` its number of transactions, a partner entry for
   * every other SKU it occurred with, holding the number of shared
   * transactions, and no entry for itself.
   */
  ghost predicate Counts(aff: map<int, Record>, txs: seq<set<int>>) {
    && (forall a :: a in aff <==> Count(txs, a) > 0)
    && (forall a | a in aff :: aff[a].nTimes == Count(txs, a))
    && (forall a, b | a in aff :: b in aff[a].affinities <==> a != b && CoCount(txs, a, b) > 0)
    && (forall a, b | a in aff && b in aff[a].affinities :: aff[a].affinities[b] == CoCount(txs, a, b))
  }

  /** Counting one more partner: the step of the loop of `update_affinities_record`. */
  lemma BumpedStep(m: map<int, nat>, done: set<int>, other: int)
    requires other !in done
    ensures var b := Bumped(m, done);
      Bumped(m, done + {other}) == b[other := if other in b then b[other] + 1 else 1]
  {
  }

  /** Observing one more SKU of the transaction: the step of the loop of `get_products`. */
  lemma ObservedStep(aff: map<int, Record>, t: set<int>, done: set<int>, sku: int)
    requires sku !in done
    ensures var o := Observed(aff, t, done);
      Observed(aff, t, done + {sku}) == o[sku := Updated(Get(o, sku), t - {sku})]
  {
  }

  /** Updating a record adds one to `n_times` and touches only the partners in `others`. */
  lemma UpdatedChangesOnlyOthers(r: Record, others: set<int>)
    ensures Updated(r, others).nTimes == r.nTimes + 1
    ensures Updated(r, others).affinities.Keys == r.affinities.Keys + others
    ensures forall k | k in others && k in r.affinities :: Updated(r, others).affinities[k] == r.affinities[k] + 1
    ensures forall k | k in others && k !in r.affinities :: Updated(r, others).affinities[k] == 1
    ensures forall k | k in r.affinities && k !in others :: Updated(r, others).affinities[k] == r.affinities[k]
  {
  }

  /** A SKU's first observation leaves `n_times == 1` and every partner count at 1. */
  lemma FirstObservation(others: set<int>)
    ensures Updated(Empty, others) == Record(1, map k | k in others :: 1)
  {
  }

  /** Observing a transaction changes the entries of its own SKUs only. */
  lemma ObserveTouchesOnlyItsSkus(aff: map<int, Record>, t: set<int>)
    ensures Observe(aff, t).Keys == aff.Keys + t
    ensures forall k | k in aff && k !in t :: Observe(aff, t)[k] == aff[k]
    ensures forall k | k in t :: Observe(aff, t)[k] == Updated(Get(aff, k), t - {k})
  {
  }

  /** One more transaction keeps the table in step with the counts. */
  lemma {:induction false} ObserveCounts(aff: map<int, Record>, txs: seq<set<int>>, t: set<int>)
    requires Counts(aff, txs)
    ensures Counts(Observe(aff, t), txs + [t])
  {
    var txs' := txs + [t];
    assert txs'[..|txs'| - 1] == txs;
    var aff' := Observe(aff, t);
    forall a
      ensures a in aff' <==> Count(txs', a) > 0
      ensures a in aff' ==> aff'[a].nTimes == Count(txs', a)
    {
      assert Count(txs', a) == Count(txs, a) + (if a in t then 1 else 0);
    }
    forall a, b | a in aff'
      ensures b in aff'[a].affinities <==> a != b && CoCount(txs', a, b) > 0
      ensures b in aff'[a].affinities ==> aff'[a].affinities[b] == CoCount(txs', a, b)
    {
      assert CoCount(txs', a, b) == CoCount(txs, a, b) + (if a in t && b in t then 1 else 0);
      if a !in t {
        assert a in aff;
        assert aff'[a] == aff[a];
      } else if a !in aff {
        assert Count(txs, a) == 0;
        CoCountAtMostCount(txs, a, b);
      }
    }
  }

  /** Two SKUs cannot share more transactions than the first one has. */
  lemma {:induction false} CoCountAtMostCount(txs: seq<set<int>>, a: int, b: int)
    ensures CoCount(txs, a, b) <= Count(txs, a)
    decreases |txs|
  {
    if txs != [] {
      CoCountAtMostCount(txs[..|txs| - 1], a, b);
    }
  }

  /** Co-occurrence counts do not depend on the order of the pair. */
  lemma {:induction false} CoCountSymmetric(txs: seq<set<int>>, a: int, b: int)
    ensures CoCount(txs, a, b) == CoCount(txs, b, a)
    decreases |txs|
  {
    if txs != [] {
      CoCountSymmetric(txs[..|txs| - 1], a, b);
    }
  }

  /**
   * Building from an empty table yields exactly the transaction counts:
   * `n_times` is the number of transactions containing the SKU and each
   * partner count the number containing both SKUs.
   */
  lemma {:induction false} BuildCounts(txs: seq<set<int>>)
    ensures Counts(Build(map[], txs), txs)
    decreases |txs|
  {
    if txs == [] {
      assert Counts(map[], []);
    } else {
      var init := txs[..|txs| - 1];
      BuildCounts(init);
      ObserveCounts(Build(map[], init), init, txs[|txs| - 1]);
      assert init + [txs[|txs| - 1]] == txs;
    }
  }

  /** The built table has an entry for exactly the SKUs that occur. */
  lemma BuildKeys(txs: seq<set<int>>)
    ensures Build(map[], txs).Keys == Skus(txs)
  {
    BuildCounts(txs);
    forall a ensures a in Build(map[], txs) <==> a in Skus(txs) {
      CountPositive(txs, a);
    }
  }

  /** No SKU of a built table is its own partner. */
  lemma NoSelfAffinity(txs: seq<set<int>>, a: int)
    requires a in Build(map[], txs)
    ensures a !in Build(map[], txs)[a].affinities
  {
    BuildCounts(txs);
  }

  /** The built co-occurrence table is symmetric, in keys and in counts. */
  lemma AffinitySymmetric(txs: seq<set<int>>, a: int, b: int)
    requires a in Build(map[], txs) && b in Build(map[], txs)[a].affinities
    ensures b in Build(map[], txs) && a in Build(map[], txs)[b].affinities
    ensures Build(map[], txs)[a].affinities[b] == Build(map[], txs)[b].affinities[a]
  {
    var aff := Build(map[], txs);
    BuildCounts(txs);
    CoCountSymmetric(txs, a, b);
    CoCountAtMostCount(txs, b, a);
  }
}
