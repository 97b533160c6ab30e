/**
 * The pure parts of anchor selection and family assignment in main.py: the
 * constants, the ranking expressions of `get_top_products` and
 * `assign_products_to_families`, the greedy choice of a family for one SKU,
 * the whole assignment as a fold over the SKUs, and the rows that
 * `output_families` writes.
 */
module Families {
  import opened Ranking
  import opened Affinity

  /** `N_POSITIONS`, `N_FREQ_ITEMS_SET` and `MAX_FREQ_ITEMS_SET_LENGTH` of main.py. */
  const NPositions: nat := 12750
  const NFreqItemsSet: nat := 60
  const MaxFreqItemsSetLength: nat := NPositions / NFreqItemsSet

  /** A family has room while it holds fewer than `MAX_FREQ_ITEMS_SET_LENGTH - 1` members. */
  predicate Open(fams: map<int, seq<int>>, a: int)
    requires a in fams
  {
    |fams[a]| < MaxFreqItemsSetLength - 1
  }

  datatype Option<T> = None | Some(value: T)

  function Min(a: int, b: int): int {
    if a <= b then a else b
  }

  /** The `n_times` of every SKU, the key `get_top_products` sorts by. */
  function NTimes(aff: map<int, Record>): (c: map<int, nat>)
    ensures c.Keys == aff.Keys
  {
    map k | k in aff :: aff[k].nTimes
  }

  /**
   * `top_products`: the SKUs ranked by `n_times`, highest first (ties by
   * ascending SKU), cut to the first `N_FREQ_ITEMS_SET`.
   */
  function TopProducts(aff: map<int, Record>): seq<int> {
    var ranked := Ranked(aff.Keys, NTimes(aff));
    ranked[..Min(NFreqItemsSet, |ranked|)]
  }

  /**
   * Anchor selection takes `min(60, number of SKUs)` distinct SKUs of the
   * table, in descending `n_times`, and every one of them has `n_times` at
   * least that of every SKU left out.
   */
  lemma TopProductsSelection(aff: map<int, Record>)
    ensures |TopProducts(aff)| == Min(NFreqItemsSet, |aff|)
    ensures forall i | 0 <= i < |TopProducts(aff)| :: TopProducts(aff)[i] in aff
    ensures forall i, j | 0 <= i < j < |TopProducts(aff)| ::
      TopProducts(aff)[i] != TopProducts(aff)[j] &&
      aff[TopProducts(aff)[i]].nTimes >= aff[TopProducts(aff)[j]].nTimes
    ensures forall a, b | a in TopProducts(aff) && b in aff && b !in TopProducts(aff) ::
      aff[a].nTimes >= aff[b].nTimes
  {
    var c := NTimes(aff);
    var ranked := Ranked(aff.Keys, c);
    var top := TopProducts(aff);
    assert |aff.Keys| == |aff|;
    forall a, b | a in top && b in aff && b !in top
      ensures aff[a].nTimes >= aff[b].nTimes
    {
      var i :| 0 <= i < |top| && top[i] == a;
      assert b in ranked;
      var j :| 0 <= j < |ranked| && ranked[j] == b;
      assert |top| <= j;
      assert Precedes(ranked[i], ranked[j], c);
    }
  }

  /** The SKUs of a sequence, as a set. */
  function Elements(s: seq<int>): set<int> {
    set x | x in s
  }

  /** The families `get_top_products` creates: an empty one for each anchor. */
  function EmptyFamilies(top: seq<int>): map<int, seq<int>> {
    map a | a in top :: []
  }

  /**
   * The anchors and the SKUs left in the table split the table's SKUs, and
   * no anchor is selected twice.
   */
  lemma TopProductsSplit(aff: map<int, Record>)
    ensures Elements(TopProducts(aff)) + (aff - Elements(TopProducts(aff))).Keys == aff.Keys
    ensures |TopProducts(aff)| == Min(NFreqItemsSet, |aff|)
    ensures Distinct(TopProducts(aff))
  {
    TopProductsSelection(aff);
  }

  /** Creating one more anchor's family, and removing it from the table. */
  lemma SelectStep(fams: map<int, seq<int>>, aff: map<int, Record>, top: seq<int>, n: int)
    requires 0 <= n < |top|
    ensures (fams + EmptyFamilies(top[..n]))[top[n] := []] == fams + EmptyFamilies(top[..n + 1])
    ensures (aff - Elements(top[..n])) - {top[n]} == aff - Elements(top[..n + 1])
  {
    assert top[..n + 1] == top[..n] + [top[n]];
    assert Elements(top[..n + 1]) == Elements(top[..n]) + {top[n]};
  }

  /** Nothing selected yet, and everything selected. */
  lemma SelectBounds(fams: map<int, seq<int>>, aff: map<int, Record>, top: seq<int>)
    ensures fams + EmptyFamilies(top[..0]) == fams && aff - Elements(top[..0]) == aff
    ensures top[..|top|] == top
  {
  }

  /**
   * `top_affinities` for a SKU with co-occurrence counts `partners`: its
   * partners that are anchors, ranked by count, highest first.
   */
  function TopAffinities(partners: map<int, nat>, anchors: set<int>): seq<int> {
    Ranked(partners.Keys * anchors, partners)
  }

  /**
   * The first candidate whose family still has room, as the loop over
   * `top_affinities` finds it: every candidate before it is full.
   */
  function FirstOpen(cands: seq<int>, fams: map<int, seq<int>>): (r: Option<int>)
    requires forall i | 0 <= i < |cands| :: cands[i] in fams
    ensures r.None? <==> forall i | 0 <= i < |cands| :: !Open(fams, cands[i])
    ensures r.Some? ==> exists i :: 0 <= i < |cands| && cands[i] == r.value && Open(fams, r.value) &&
                                    forall j | 0 <= j < i :: !Open(fams, cands[j])
  {
    if cands == [] then None
    else if Open(fams, cands[0]) then Some(cands[0])
    else
      var r := FirstOpen(cands[1..], fams);
      if r.Some? then
        var i :| 0 <= i < |cands[1..]| && cands[1..][i] == r.value && Open(fams, r.value) &&
                 forall j | 0 <= j < i :: !Open(fams, cands[1..][j]);
        assert cands[i + 1] == r.value;
        r
      else r
  }

  /**
   * The family a SKU with co-occurrence counts `partners` joins: `None`
   * exactly when every anchor it co-occurred with is full; otherwise an
   * anchor partner with room that ranks ahead of every other anchor partner
   * with room (at least as high a count, the smaller SKU among ties).
   */
  function Choose(fams: map<int, seq<int>>, partners: map<int, nat>): (r: Option<int>)
    ensures r.None? <==> forall a | a in partners && a in fams :: !Open(fams, a)
    ensures r.Some? ==> r.value in partners && r.value in fams && Open(fams, r.value)
    ensures r.Some? ==> forall b | b in partners && b in fams && Open(fams, b) :: Precedes(r.value, b, partners)
  {
    var cands := TopAffinities(partners, fams.Keys);
    FirstOpenIsBest(fams, partners, cands);
    FirstOpen(cands, fams)
  }

  /** The first open candidate of `top_affinities` is the best-ranked open anchor partner. */
  lemma FirstOpenIsBest(fams: map<int, seq<int>>, partners: map<int, nat>, cands: seq<int>)
    requires cands == TopAffinities(partners, fams.Keys)
    ensures forall i | 0 <= i < |cands| :: cands[i] in fams
    ensures FirstOpen(cands, fams).None? <==> forall a | a in partners && a in fams :: !Open(fams, a)
    ensures FirstOpen(cands, fams).Some? ==>
      var a := FirstOpen(cands, fams).value;
      a in partners && a in fams && Open(fams, a) &&
      forall b | b in partners && b in fams && Open(fams, b) :: Precedes(a, b, partners)
  {
    assert forall a :: a in cands <==> a in partners && a in fams;
    var r := FirstOpen(cands, fams);
    if r.Some? {
      var i :| 0 <= i < |cands| && cands[i] == r.value && Open(fams, r.value) &&
               forall j | 0 <= j < i :: !Open(fams, cands[j]);
      forall b | b in partners && b in fams && Open(fams, b)
        ensures Precedes(r.value, b, partners)
      {
        EarliestOpenPrecedes(fams, partners, cands, i, b);
      }
    }
  }

  /** An open candidate cannot rank ahead of the first open one. */
  lemma EarliestOpenPrecedes(fams: map<int, seq<int>>, partners: map<int, nat>, cands: seq<int>, i: int, b: int)
    requires cands == TopAffinities(partners, fams.Keys)
    requires 0 <= i < |cands| && cands[i] in fams && cands[i] in partners
    requires forall j | 0 <= j < i :: cands[j] in fams && !Open(fams, cands[j])
    requires b in partners && b in fams && Open(fams, b)
    ensures Precedes(cands[i], b, partners)
  {
    assert b in partners.Keys * fams.Keys;
    var k :| 0 <= k < |cands| && cands[k] == b;
    if i < k {
      RankedPrecedes(partners.Keys * fams.Keys, partners, i, k);
    }
  }

  /** The state of `assign_products_to_families`: the families and `left_alone`. */
  datatype Assignment = Assignment(families: map<int, seq<int>>, leftAlone: nat)

  /**
   * One iteration of the loop of `assign_products_to_families`: the SKU is
   * appended to the chosen family, or `left_alone` goes up by one.
   */
  function Step(asg: Assignment, sku: int, partners: map<int, nat>): Assignment {
    match Choose(asg.families, partners)
    case Some(a) => Assignment(asg.families[a := asg.families[a] + [sku]], asg.leftAlone)
    case None => Assignment(asg.families, asg.leftAlone + 1)
  }

  /** A step is the scan of `top_affinities` for the first family with room. */
  lemma StepIsScan(asg: Assignment, sku: int, partners: map<int, nat>, cands: seq<int>)
    requires cands == TopAffinities(partners, asg.families.Keys)
    requires forall i | 0 <= i < |cands| :: cands[i] in asg.families
    ensures FirstOpen(cands, asg.families).Some? ==>
      var a := FirstOpen(cands, asg.families).value;
      a in asg.families &&
      Step(asg, sku, partners) == Assignment(asg.families[a := asg.families[a] + [sku]], asg.leftAlone)
    ensures FirstOpen(cands, asg.families).None? ==>
      Step(asg, sku, partners) == Assignment(asg.families, asg.leftAlone + 1)
  {
  }

  /** The assignment after the SKUs of `order`, in that order, starting from `fams`. */
  function AssignAll(fams: map<int, seq<int>>, aff: map<int, Record>, order: seq<int>): Assignment
    requires forall i | 0 <= i < |order| :: order[i] in aff
    decreases |order|
  {
    if order == [] then Assignment(fams, 0)
    else
      var last := order[|order| - 1];
      Step(AssignAll(fams, aff, order[..|order| - 1]), last, aff[last].affinities)
  }

  /** The fold of `AssignAll` one SKU further: the step of the loop over the table. */
  lemma AssignAllStep(fams: map<int, seq<int>>, aff: map<int, Record>, order: seq<int>, n: int)
    requires forall i | 0 <= i < |order| :: order[i] in aff
    requires 0 <= n < |order|
    ensures AssignAll(fams, aff, order[..n + 1]) ==
            Step(AssignAll(fams, aff, order[..n]), order[n], aff[order[n]].affinities)
  {
    assert order[..n + 1][..n] == order[..n];
  }

  /** The fold before any SKU and after all of them. */
  lemma AssignAllBounds(fams: map<int, seq<int>>, aff: map<int, Record>, order: seq<int>)
    requires forall i | 0 <= i < |order| :: order[i] in aff
    ensures AssignAll(fams, aff, order[..0]) == Assignment(fams, 0)
    ensures AssignAll(fams, aff, order[..|order|]) == AssignAll(fams, aff, order)
  {
    assert order[..|order|] == order;
  }

  /** The scan of `top_affinities` passes a full family. */
  lemma FirstOpenSkip(cands: seq<int>, fams: map<int, seq<int>>, k: int)
    requires forall i | 0 <= i < |cands| :: cands[i] in fams
    requires 0 <= k < |cands| && !Open(fams, cands[k])
    ensures FirstOpen(cands[k..], fams) == FirstOpen(cands[k + 1..], fams)
  {
    assert cands[k..][1..] == cands[k + 1..];
  }

  /** The scan of `top_affinities` stops at a family with room. */
  lemma FirstOpenStop(cands: seq<int>, fams: map<int, seq<int>>, k: int)
    requires forall i | 0 <= i < |cands| :: cands[i] in fams
    requires 0 <= k < |cands| && Open(fams, cands[k])
    ensures FirstOpen(cands[k..], fams) == Some(cands[k])
  {
  }

  /** The SKUs that are members of some family. */
  ghost function Members(fams: map<int, seq<int>>): set<int> {
    set a, x | a in fams && x in fams[a] :: x
  }

  /** No family exceeds `MAX_FREQ_ITEMS_SET_LENGTH - 1` members. */
  ghost predicate WithinCapacity(fams: map<int, seq<int>>) {
    forall a | a in fams :: |fams[a]| <= MaxFreqItemsSetLength - 1
  }

  /** Every member occurs once, in one family only, and no anchor is a member. */
  ghost predicate Exclusive(fams: map<int, seq<int>>) {
    && (forall a, b, i, j | a in fams && b in fams && 0 <= i < |fams[a]| && 0 <= j < |fams[b]| &&
          fams[a][i] == fams[b][j] :: a == b && i == j)
    && (forall a, b | a in fams && b in fams :: b !in fams[a])
  }

  ghost predicate Distinct(s: seq<int>) {
    forall i, j | 0 <= i < j < |s| :: s[i] != s[j]
  }

  /** Appending a SKU that is neither an anchor nor a member keeps exclusivity. */
  lemma AppendExclusive(fams: map<int, seq<int>>, a: int, sku: int)
    requires a in fams && Exclusive(fams)
    requires sku !in fams && sku !in Members(fams)
    ensures Exclusive(fams[a := fams[a] + [sku]])
  {
    var fams' := fams[a := fams[a] + [sku]];
    assert forall b | b in fams :: sku !in fams[b];
    forall b, c, i, j | b in fams' && c in fams' && 0 <= i < |fams'[b]| && 0 <= j < |fams'[c]| &&
        fams'[b][i] == fams'[c][j]
      ensures b == c && i == j
    {
      var x := fams'[b][i];
      if x == sku {
        assert b == a && i == |fams[a]|;
        assert c == a && j == |fams[a]|;
      } else {
        assert fams'[b][i] == fams[b][i] && fams'[c][j] == fams[c][j];
      }
    }
  }

  /** Appending a SKU to one family adds exactly that SKU to the members. */
  lemma AppendMembers(fams: map<int, seq<int>>, a: int, sku: int)
    requires a in fams
    ensures Members(fams[a := fams[a] + [sku]]) == Members(fams) + {sku}
  {
    var fams' := fams[a := fams[a] + [sku]];
    forall x | x in Members(fams') ensures x in Members(fams) + {sku} {
      var b :| b in fams' && x in fams'[b];
      if x != sku {
        assert x in fams[b];
      }
    }
    forall x | x in Members(fams) ensures x in Members(fams') {
      var b :| b in fams && x in fams[b];
      assert x in fams'[b];
    }
    assert sku in fams'[a];
  }

  /**
   * What one step keeps: the anchors, the capacity bound and exclusivity;
   * families only grow; a placed SKU joins exactly one family, of an anchor
   * it co-occurred with; otherwise `left_alone` counts it.
   */
  lemma StepInvariants(asg: Assignment, sku: int, partners: map<int, nat>)
    requires WithinCapacity(asg.families) && Exclusive(asg.families)
    requires sku !in asg.families && sku !in Members(asg.families)
    ensures var r := Step(asg, sku, partners);
      && r.families.Keys == asg.families.Keys
      && WithinCapacity(r.families) && Exclusive(r.families)
      && (forall a | a in asg.families :: asg.families[a] <= r.families[a])
      && (r.leftAlone == asg.leftAlone ==> Members(r.families) == Members(asg.families) + {sku})
      && Members(r.families) <= Members(asg.families) + {sku}
      && (r.leftAlone == asg.leftAlone + 1 ==> r.families == asg.families)
      && (r.leftAlone == asg.leftAlone || r.leftAlone == asg.leftAlone + 1)
      && (forall a | a in r.families :: r.families[a] == asg.families[a] || r.families[a] == asg.families[a] + [sku])
      && (forall a | a in r.families && r.families[a] != asg.families[a] :: a in partners)
  {
    var fams := asg.families;
    match Choose(fams, partners)
    case None =>
    case Some(a) =>
      AppendExclusive(fams, a, sku);
      AppendMembers(fams, a, sku);
  }

  /**
   * What `AssignAll(fams, aff, order)` is proved to reach: the anchors are
   * kept, the capacity bound and exclusivity hold, families only grew, the
   * members added are SKUs of `order`, each placed with an anchor it
   * co-occurred with, and placed plus `left_alone` is `|order|`.
   */
  ghost predicate Reached(fams: map<int, seq<int>>, aff: map<int, Record>, order: seq<int>, r: Assignment)
    requires forall i | 0 <= i < |order| :: order[i] in aff
  {
    && r.families.Keys == fams.Keys
    && WithinCapacity(r.families) && Exclusive(r.families)
    && (forall a | a in fams :: fams[a] <= r.families[a])
    && Members(fams) <= Members(r.families)
    && (forall x | x in Members(r.families) - Members(fams) :: x in order)
    && (forall a, x | a in r.families && x in r.families[a] && x in order :: a in aff[x].affinities)
    && |Members(r.families)| + r.leftAlone == |Members(fams)| + |order|
  }

  /** One more SKU, neither an anchor nor placed yet, keeps `Reached`. */
  lemma ReachedStep(fams: map<int, seq<int>>, aff: map<int, Record>, init: seq<int>, last: int, prev: Assignment)
    requires forall i | 0 <= i < |init| :: init[i] in aff
    requires last in aff && last !in init && last !in fams && last !in Members(fams)
    requires Reached(fams, aff, init, prev)
    ensures Reached(fams, aff, init + [last], Step(prev, last, aff[last].affinities))
  {
    var order := init + [last];
    var r := Step(prev, last, aff[last].affinities);
    assert last !in Members(prev.families);
    StepInvariants(prev, last, aff[last].affinities);
    StepGrows(fams, prev, r);
    StepAddsOrder(fams, prev.families, r.families, init, last);
    StepPartners(prev.families, r.families, aff, init, last);
  }

  lemma StepGrows(fams: map<int, seq<int>>, prev: Assignment, r: Assignment)
    requires forall a | a in fams :: a in prev.families && fams[a] <= prev.families[a]
    requires forall a | a in prev.families :: a in r.families && prev.families[a] <= r.families[a]
    ensures forall a | a in fams :: a in r.families && fams[a] <= r.families[a]
  {
    forall a | a in fams ensures fams[a] <= r.families[a] {
      assert fams[a] <= prev.families[a] <= r.families[a];
    }
  }

  lemma StepAddsOrder(fams: map<int, seq<int>>, prev: map<int, seq<int>>, next: map<int, seq<int>>,
                      init: seq<int>, last: int)
    requires forall x | x in Members(prev) - Members(fams) :: x in init
    requires Members(next) <= Members(prev) + {last}
    ensures forall x | x in Members(next) - Members(fams) :: x in init + [last]
  {
    forall x | x in Members(next) - Members(fams) ensures x in init + [last] {
      if x != last {
        assert x in init;
      }
    }
  }

  lemma StepPartners(prev: map<int, seq<int>>, next: map<int, seq<int>>, aff: map<int, Record>,
                     init: seq<int>, last: int)
    requires forall i | 0 <= i < |init| :: init[i] in aff
    requires last in aff
    requires forall a, x | a in prev && x in prev[a] && x in init :: a in aff[x].affinities
    requires next.Keys == prev.Keys
    requires forall a | a in prev :: last !in prev[a]
    requires forall a | a in next :: next[a] == prev[a] || next[a] == prev[a] + [last]
    requires forall a | a in next && next[a] != prev[a] :: a in aff[last].affinities
    ensures forall a, x | a in next && x in next[a] && x in init + [last] :: a in aff[x].affinities
  {
    forall a, x | a in next && x in next[a] && x in init + [last]
      ensures a in aff[x].affinities
    {
      if x != last {
        assert x in init;
        assert x in prev[a];
      } else {
        assert next[a] != prev[a];
      }
    }
  }

  /**
   * The whole assignment, from families that satisfy the invariants and
   * SKUs that are neither anchors nor members, each at most once, reaches
   * a state that satisfies them too (see `Reached`).
   */
  lemma {:induction false} AssignAllInvariants(fams: map<int, seq<int>>, aff: map<int, Record>, order: seq<int>)
    requires forall i | 0 <= i < |order| :: order[i] in aff
    requires WithinCapacity(fams) && Exclusive(fams)
    requires Distinct(order)
    requires forall i | 0 <= i < |order| :: order[i] !in fams && order[i] !in Members(fams)
    ensures Reached(fams, aff, order, AssignAll(fams, aff, order))
    decreases |order|
  {
    if order != [] {
      var init := order[..|order| - 1];
      var last := order[|order| - 1];
      AssignAllInvariants(fams, aff, init);
      assert last !in init;
      assert init + [last] == order;
      ReachedStep(fams, aff, init, last, AssignAll(fams, aff, init));
    }
  }

  /**
   * `output_families`: one row per anchor, in the order the anchors were
   * selected, holding the anchor followed by its members in append order.
   */
  function Rows(fams: map<int, seq<int>>, anchors: seq<int>): (rows: seq<seq<int>>)
    requires forall i | 0 <= i < |anchors| :: anchors[i] in fams
    ensures |rows| == |anchors|
    ensures forall i | 0 <= i < |rows| :: |rows[i]| == |fams[anchors[i]]| + 1
  {
    seq(|anchors|, i requires 0 <= i < |anchors| => [anchors[i]] + fams[anchors[i]])
  }

  /** Reads the families back from rows: the first SKU of a row names the family. */
  function FromRows(rows: seq<seq<int>>): map<int, seq<int>>
    decreases |rows|
  {
    if rows == [] then map[]
    else
      var last := rows[|rows| - 1];
      if last == [] then FromRows(rows[..|rows| - 1])
      else FromRows(rows[..|rows| - 1])[last[0] := last[1..]]
  }

  /**
   * The rows lose nothing: reading them back gives the families of the
   * anchors listed, and with the capacity bound no row is longer than
   * `MAX_FREQ_ITEMS_SET_LENGTH`.
   */
  lemma {:induction false} RowsRoundTrip(fams: map<int, seq<int>>, anchors: seq<int>)
    requires forall i | 0 <= i < |anchors| :: anchors[i] in fams
    requires Distinct(anchors)
    ensures FromRows(Rows(fams, anchors)) == map a | a in anchors :: fams[a]
    ensures WithinCapacity(fams) ==>
      forall i | 0 <= i < |anchors| :: |Rows(fams, anchors)[i]| <= MaxFreqItemsSetLength
    decreases |anchors|
  {
    if anchors != [] {
      var init := anchors[..|anchors| - 1];
      var last := anchors[|anchors| - 1];
      RowsRoundTrip(fams, init);
      var rows := Rows(fams, anchors);
      assert rows[..|rows| - 1] == Rows(fams, init);
      assert rows[|rows| - 1] == [last] + fams[last];
      assert ([last] + fams[last])[1..] == fams[last];
    }
  }
}
