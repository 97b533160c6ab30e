/**
 * The ranking used twice by main.py: `sorted(..., key=count, reverse=True)`
 * over (SKU, count) pairs, once over every SKU's `n_times` to pick the
 * anchors and once over a SKU's co-occurrence counts to rank its anchor
 * partners.
 *
 * Python's sort is stable, so equal counts keep dict insertion order. Here
 * the order is fixed explicitly: a higher count comes first, and equal
 * counts are broken by ascending SKU. With this tie-break the order is a
 * strict total order on SKUs, so the ranking of a set is unique.
 */
module Ranking {

  /** `a` comes no later than `b` in a ranking by descending count `c`. */
  predicate Precedes(a: int, b: int, c: map<int, nat>)
    requires a in c && b in c
  {
    c[a] > c[b] || (c[a] == c[b] && a <= b)
  }

  /** `f` is the element of `s` that a ranking by `c` puts first. */
  predicate IsFirst(f: int, s: set<int>, c: map<int, nat>)
    requires s <= c.Keys
  {
    f in s && forall y | y in s :: Precedes(f, y, c)
  }

  lemma NoElementsEmpty(s: set<int>)
    requires forall y :: y !in s
    ensures s == {}
  {
    assert forall y :: y in s <==> y in {};
  }

  /** A non-empty set has an element to pick. */
  lemma HasElement(s: set<int>)
    requires s != {}
    ensures exists y :: y in s
  {
    if forall y :: y !in s {
      NoElementsEmpty(s);
      assert false;
    }
  }

  /** A ranking by `c` has a first element: the maximum of `s` under `Precedes`. */
  lemma {:induction false} FirstWitness(s: set<int>, c: map<int, nat>) returns (f: int)
    requires s <= c.Keys && s != {}
    ensures IsFirst(f, s, c)
  {
    HasElement(s);
    var x :| x in s;
    if s == {x} {
      f := x;
    } else {
      var g := FirstWitness(s - {x}, c);
      f := if Precedes(x, g, c) then x else g;
      forall y | y in s ensures Precedes(f, y, c) {
        if y != x { assert Precedes(g, y, c); }
      }
    }
  }

  lemma FirstExists(s: set<int>, c: map<int, nat>)
    requires s <= c.Keys && s != {}
    ensures exists f :: IsFirst(f, s, c)
  {
    var f := FirstWitness(s, c);
  }

  /** The element of `s` with the highest count, the smallest SKU among ties. */
  function First(s: set<int>, c: map<int, nat>): (f: int)
    requires s <= c.Keys && s != {}
    ensures IsFirst(f, s, c)
  {
    FirstExists(s, c);
    var f :| IsFirst(f, s, c);
    f
  }

  /**
   * The elements of `s` ranked by descending count `c`, ties by ascending
   * SKU: a permutation of `s` without repetitions, in which every element
   * precedes every later one.
   */
  function Ranked(s: set<int>, c: map<int, nat>): (r: seq<int>)
    requires s <= c.Keys
    ensures |r| == |s|
    ensures forall x :: x in r <==> x in s
    ensures forall i, j | 0 <= i < j < |r| :: r[i] != r[j] && Precedes(r[i], r[j], c)
    decreases s
  {
    if s == {} then []
    else
      var f := First(s, c);
      [f] + Ranked(s - {f}, c)
  }

  /** Strict ascending order of a set of SKUs: the ranking in which every count ties. */
  function Ascending(s: set<int>): (r: seq<int>)
    ensures |r| == |s|
    ensures forall x :: x in r <==> x in s
    ensures forall i, j | 0 <= i < j < |r| :: r[i] < r[j]
  {
    var zero := map k | k in s :: 0;
    var r := Ranked(s, zero);
    assert forall i, j | 0 <= i < j < |r| :: r[i] != r[j] && Precedes(r[i], r[j], zero);
    r
  }

  /** An earlier element of a ranking precedes a later one. */
  lemma RankedPrecedes(s: set<int>, c: map<int, nat>, i: int, j: int)
    requires s <= c.Keys
    requires 0 <= i < j < |Ranked(s, c)|
    ensures Precedes(Ranked(s, c)[i], Ranked(s, c)[j], c)
  {
  }

  /** Every element of a ranking has a count at least that of every later element. */
  lemma RankedNonIncreasing(s: set<int>, c: map<int, nat>, i: int, j: int)
    requires s <= c.Keys
    requires 0 <= i <= j < |Ranked(s, c)|
    ensures c[Ranked(s, c)[i]] >= c[Ranked(s, c)[j]]
  {
    var r := Ranked(s, c);
    if i < j {
      assert Precedes(r[i], r[j], c);
    }
  }
}
