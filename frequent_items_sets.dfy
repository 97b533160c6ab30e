/**
 * The class `FrequentItemsSets` of main.py: a run over in-memory tables
 * that builds the affinity table from the transactions, promotes the most
 * frequent SKUs to family anchors and greedily places every other SKU in
 * the family of an anchor it co-occurred with.
 *
 * The transactions that main.py reads from `cleaned_db.dat` are a
 * parameter here; each line is already a set of SKUs.
 */
module FrequentItems {
  import opened Ranking
  import opened Affinity
  import opened Families

  /** The state a whole run ends in, as functions of the transactions. */
  datatype Outcome = Outcome(
    anchors: seq<int>,
    remaining: map<int, Record>,
    families: map<int, seq<int>>,
    leftAlone: nat)

  /**
   * The run of `FrequentItemsSets()`: build the table, take the top
   * products as anchors with empty families, remove them from the table,
   * then assign the remaining SKUs in ascending SKU order.
   */
  function Run(txs: seq<set<int>>): Outcome {
    var built := Build(map[], txs);
    var top := TopProducts(built);
    var remaining := built - Elements(top);
    var asg := AssignAll(EmptyFamilies(top), remaining, Ascending(remaining.Keys));
    Outcome(top, remaining, asg.families, asg.leftAlone)
  }

  /** Adding to an empty map gives the added map. */
  lemma EmptyUnion(m: map<int, seq<int>>)
    ensures map[] + m == m
  {
  }

  /** The stages of `Run`, named. */
  lemma RunUnfold(txs: seq<set<int>>, built: map<int, Record>, top: seq<int>, remaining: map<int, Record>)
    requires built == Build(map[], txs)
    requires top == TopProducts(built)
    requires remaining == built - Elements(top)
    ensures var asg := AssignAll(EmptyFamilies(top), remaining, Ascending(remaining.Keys));
      Run(txs) == Outcome(top, remaining, asg.families, asg.leftAlone)
  {
  }

  /**
   * The anchors a run selects: anchors and remaining SKUs split the SKUs
   * that occur, there are `min(60, #SKUs)` distinct anchors, and each
   * anchor occurs in at least as many transactions as every remaining SKU.
   */
  lemma RunSelection(txs: seq<set<int>>)
    ensures var o := Run(txs);
      && Elements(o.anchors) !! o.remaining.Keys
      && Elements(o.anchors) + o.remaining.Keys == Skus(txs)
      && |o.anchors| == Min(NFreqItemsSet, |Skus(txs)|)
      && Distinct(o.anchors)
      && (forall a, b | a in o.anchors && b in o.remaining :: Count(txs, a) >= Count(txs, b))
  {
    var built := Build(map[], txs);
    var top := TopProducts(built);
    RunUnfold(txs, built, top, built - Elements(top));
    SelectionSplits(txs, built, top);
    SelectionRanks(txs, built, top);
  }

  /** The anchors and the rest of the built table split the SKUs that occur. */
  lemma SelectionSplits(txs: seq<set<int>>, built: map<int, Record>, top: seq<int>)
    requires built == Build(map[], txs) && top == TopProducts(built)
    ensures Elements(top) + (built - Elements(top)).Keys == Skus(txs)
    ensures |top| == Min(NFreqItemsSet, |Skus(txs)|)
    ensures Distinct(top)
  {
    BuildKeys(txs);
    TopProductsSplit(built);
    assert |built.Keys| == |built|;
  }

  /** Every anchor occurs in at least as many transactions as every SKU left in the table. */
  lemma SelectionRanks(txs: seq<set<int>>, built: map<int, Record>, top: seq<int>)
    requires built == Build(map[], txs) && top == TopProducts(built)
    ensures forall a, b | a in top && b in built - Elements(top) :: Count(txs, a) >= Count(txs, b)
  {
    BuildCounts(txs);
    TopProductsSelection(built);
  }

  /**
   * The families a run ends with: one per anchor, none over capacity and no
   * row longer than `MAX_FREQ_ITEMS_SET_LENGTH`; no anchor is a member and
   * no SKU a member twice.
   */
  lemma RunFamilies(txs: seq<set<int>>)
    ensures var o := Run(txs);
      && o.families.Keys == Elements(o.anchors)
      && WithinCapacity(o.families) && Exclusive(o.families)
      && (forall i | 0 <= i < |o.anchors| :: |Rows(o.families, o.anchors)[i]| <= MaxFreqItemsSetLength)
  {
    var built := Build(map[], txs);
    var top := TopProducts(built);
    RunUnfold(txs, built, top, built - Elements(top));
    TopProductsSplit(built);
    AssignmentShape(top, built - Elements(top));
  }

  /**
   * The members a run places are remaining SKUs, each placed with an anchor
   * it co-occurred with, and placed plus `left_alone` is the number of
   * remaining SKUs.
   */
  lemma RunMembers(txs: seq<set<int>>)
    ensures var o := Run(txs);
      && Members(o.families) <= o.remaining.Keys
      && (forall a, x | a in o.families && x in o.families[a] :: a in o.remaining[x].affinities)
      && |Members(o.families)| + o.leftAlone == |o.remaining|
  {
    var built := Build(map[], txs);
    var top := TopProducts(built);
    RunUnfold(txs, built, top, built - Elements(top));
    TopProductsSplit(built);
    AssignmentMembers(top, built - Elements(top));
  }

  /**
   * Assigning the SKUs left in the table, in ascending order, to the empty
   * families of distinct anchors keeps one family per anchor, the capacity
   * bound and exclusivity, and no row grows past `MAX_FREQ_ITEMS_SET_LENGTH`.
   */
  lemma AssignmentShape(top: seq<int>, remaining: map<int, Record>)
    requires Distinct(top) && Elements(top) !! remaining.Keys
    ensures var asg := AssignAll(EmptyFamilies(top), remaining, Ascending(remaining.Keys));
      && asg.families.Keys == Elements(top)
      && WithinCapacity(asg.families) && Exclusive(asg.families)
      && (forall i | 0 <= i < |top| :: |Rows(asg.families, top)[i]| <= MaxFreqItemsSetLength)
  {
    var asg := AssignmentReached(top, remaining);
    RowsRoundTrip(asg.families, top);
  }

  /**
   * The same assignment places only SKUs left in the table, each with an
   * anchor it co-occurred with, and places plus leaves alone every one of
   * them.
   */
  lemma AssignmentMembers(top: seq<int>, remaining: map<int, Record>)
    requires Distinct(top) && Elements(top) !! remaining.Keys
    ensures var asg := AssignAll(EmptyFamilies(top), remaining, Ascending(remaining.Keys));
      && Members(asg.families) <= remaining.Keys
      && (forall a, x | a in asg.families && x in asg.families[a] :: a in remaining[x].affinities)
      && |Members(asg.families)| + asg.leftAlone == |remaining|
  {
    var asg := AssignmentReached(top, remaining);
    assert |remaining.Keys| == |remaining|;
  }

  /** The assignment of a run satisfies `Reached`, starting from no members. */
  lemma AssignmentReached(top: seq<int>, remaining: map<int, Record>) returns (asg: Assignment)
    requires Distinct(top) && Elements(top) !! remaining.Keys
    ensures forall i | 0 <= i < |Ascending(remaining.Keys)| :: Ascending(remaining.Keys)[i] in remaining
    ensures asg == AssignAll(EmptyFamilies(top), remaining, Ascending(remaining.Keys))
    ensures Members(EmptyFamilies(top)) == {}
    ensures Reached(EmptyFamilies(top), remaining, Ascending(remaining.Keys), asg)
  {
    var fams := EmptyFamilies(top);
    var order := Ascending(remaining.Keys);
    assert Members(fams) == {};
    AssignAllInvariants(fams, remaining, order);
    asg := AssignAll(fams, remaining, order);
  }

  class FrequentItemsSets {
    /** `self.affinities`: one record per SKU not (or not yet) an anchor. */
    var affinities: map<int, Record>
    /** `self.families`: the members of each anchor's family, in append order. */
    var families: map<int, seq<int>>
    /** The order in which the families were inserted into `self.families`. */
    var anchors: seq<int>

    /** `__init__`: empty tables, then the whole run on `transactions`. */
    constructor (transactions: seq<set<int>>)
      ensures anchors == Run(transactions).anchors
      ensures affinities == Run(transactions).remaining
      ensures families == Run(transactions).families
    {
      affinities := map[];
      families := map[];
      anchors := [];
      new;
      GetProducts(transactions);
      ghost var built := affinities;
      GetTopProducts();
      assert families == EmptyFamilies(anchors) by {
        EmptyUnion(EmptyFamilies(anchors));
      }
      ghost var remaining := affinities;
      var leftAlone := AssignProductsToFamilies();
      RunUnfold(transactions, built, anchors, remaining);
    }

    /** `get_products`, with the lines of the file given as `transactions`. */
    method GetProducts(transactions: seq<set<int>>)
      modifies this
      ensures affinities == Build(old(affinities), transactions)
      ensures families == old(families) && anchors == old(anchors)
    {
      ghost var start := affinities;
      for n := 0 to |transactions|
        invariant affinities == Build(start, transactions[..n])
        invariant families == old(families) && anchors == old(anchors)
      {
        var skus := transactions[n];
        ghost var before := affinities;
        var rest := skus;
        while rest != {}
          invariant rest <= skus
          invariant affinities == Observed(before, skus, skus - rest)
          invariant families == old(families) && anchors == old(anchors)
          decreases rest
        {
          HasElement(rest);
          var sku :| sku in rest;
          ObservedStep(before, skus, skus - rest, sku);
          if sku in affinities {
            UpdateAffinitiesRecord(sku, skus - {sku});
          } else {
            CreateAffinitiesRecord(sku, skus - {sku});
          }
          assert skus - rest + {sku} == skus - (rest - {sku});
          rest := rest - {sku};
        }
        assert transactions[..n + 1][..n] == transactions[..n];
      }
      assert transactions[..|transactions|] == transactions;
    }

    /** `update_affinities_record`: one more transaction of `sku` with `otherSkus`. */
    method UpdateAffinitiesRecord(sku: int, otherSkus: set<int>)
      requires sku in affinities
      modifies this
      ensures affinities == old(affinities)[sku := Updated(old(affinities)[sku], otherSkus)]
      ensures families == old(families) && anchors == old(anchors)
    {
      var record := affinities[sku];
      affinities := affinities[sku := Record(record.nTimes + 1, record.affinities)];
      var rest := otherSkus;
      assert Bumped(record.affinities, otherSkus - rest) == record.affinities;
      while rest != {}
        invariant rest <= otherSkus
        invariant affinities ==
          old(affinities)[sku := Record(record.nTimes + 1, Bumped(record.affinities, otherSkus - rest))]
        invariant families == old(families) && anchors == old(anchors)
        decreases rest
      {
        HasElement(rest);
        var otherSku :| otherSku in rest;
        BumpedStep(record.affinities, otherSkus - rest, otherSku);
        var partners := affinities[sku].affinities;
        if otherSku in partners {
          partners := partners[otherSku := partners[otherSku] + 1];
        } else {
          partners := partners[otherSku := 1];
        }
        affinities := affinities[sku := Record(affinities[sku].nTimes, partners)];
        assert otherSkus - rest + {otherSku} == otherSkus - (rest - {otherSku});
        rest := rest - {otherSku};
      }
      assert otherSkus - rest == otherSkus;
    }

    /** `create_affinities_record`: a fresh record for `sku`, then its first update. */
    method CreateAffinitiesRecord(sku: int, otherSkus: set<int>)
      modifies this
      ensures affinities == old(affinities)[sku := Updated(Empty, otherSkus)]
      ensures families == old(families) && anchors == old(anchors)
    {
      affinities := affinities[sku := Empty];
      UpdateAffinitiesRecord(sku, otherSkus);
    }

    /**
     * `get_top_products`: the top products become anchors, each with an
     * empty family, and leave the affinity table.
     */
    method GetTopProducts()
      modifies this
      ensures anchors == TopProducts(old(affinities))
      ensures families == old(families) + EmptyFamilies(anchors)
      ensures affinities == old(affinities) - Elements(anchors)
    {
      var topProducts := TopProducts(affinities);
      PromoteAnchors(topProducts);
      anchors := topProducts;
    }

    /**
     * The loop of `get_top_products`: each top product gets an empty
     * family and its record is deleted from the affinity table.
     */
    method PromoteAnchors(topProducts: seq<int>)
      modifies this
      ensures families == old(families) + EmptyFamilies(topProducts)
      ensures affinities == old(affinities) - Elements(topProducts)
      ensures anchors == old(anchors)
    {
      SelectBounds(families, affinities, topProducts);
      for n := 0 to |topProducts|
        invariant families == old(families) + EmptyFamilies(topProducts[..n])
        invariant affinities == old(affinities) - Elements(topProducts[..n])
        invariant anchors == old(anchors)
      {
        var topProduct := topProducts[n];
        SelectStep(old(families), old(affinities), topProducts, n);
        families := families[topProduct := []];
        affinities := affinities - {topProduct};
      }
    }

    /**
     * `assign_products_to_families`: every SKU of the table, in ascending
     * order, joins the first family with room among its anchor partners
     * ranked by co-occurrence, or counts as left alone. Returns `left_alone`.
     */
    method AssignProductsToFamilies() returns (leftAlone: nat)
      modifies this
      ensures affinities == old(affinities) && anchors == old(anchors)
      ensures families == AssignAll(old(families), affinities, Ascending(affinities.Keys)).families
      ensures leftAlone == AssignAll(old(families), affinities, Ascending(affinities.Keys)).leftAlone
    {
      leftAlone := 0;
      var order := Ascending(affinities.Keys);
      ghost var start := families;
      AssignAllBounds(families, affinities, order);
      for n := 0 to |order|
        invariant affinities == old(affinities) && anchors == old(anchors)
        invariant Assignment(families, leftAlone) == AssignAll(start, affinities, order[..n])
      {
        leftAlone := AssignProduct(start, order, n, leftAlone);
      }
    }

    /**
     * One pass of the loop of `assign_products_to_families`, for the SKU
     * `order[n]`: rank its anchor partners by co-occurrence, place it in the
     * first family with room, or count it as left alone.
     */
    method AssignProduct(ghost start: map<int, seq<int>>, order: seq<int>, n: nat, leftAlone: nat)
      returns (left: nat)
      requires forall i | 0 <= i < |order| :: order[i] in affinities
      requires n < |order|
      requires Assignment(families, leftAlone) == AssignAll(start, affinities, order[..n])
      modifies this
      ensures affinities == old(affinities) && anchors == old(anchors)
      ensures Assignment(families, left) == AssignAll(start, affinities, order[..n + 1])
    {
      var sku := order[n];
      var record := affinities[sku];
      AssignAllStep(start, affinities, order, n);
      var topAffinities := TopAffinities(record.affinities, families.Keys);
      FirstOpenIsBest(families, record.affinities, topAffinities);
      StepIsScan(Assignment(families, leftAlone), sku, record.affinities, topAffinities);
      var inserted := InsertIntoFirstOpen(sku, topAffinities);
      left := if inserted then leftAlone else leftAlone + 1;
    }

    /**
     * The inner loop of `assign_products_to_families`: append `sku` to the
     * first family of `topAffinities` with room and stop, reporting whether
     * it was inserted.
     */
    method InsertIntoFirstOpen(sku: int, topAffinities: seq<int>) returns (inserted: bool)
      requires forall i | 0 <= i < |topAffinities| :: topAffinities[i] in families
      modifies this
      ensures affinities == old(affinities) && anchors == old(anchors)
      ensures inserted == FirstOpen(topAffinities, old(families)).Some?
      ensures families == match FirstOpen(topAffinities, old(families))
        case Some(a) => old(families)[a := old(families)[a] + [sku]]
        case None => old(families)
    {
      inserted := false;
      var k := 0;
      while k < |topAffinities|
        invariant 0 <= k <= |topAffinities|
        invariant affinities == old(affinities) && anchors == old(anchors)
        invariant families == old(families)
        invariant FirstOpen(topAffinities, families) == FirstOpen(topAffinities[k..], families)
      {
        var topSku := topAffinities[k];
        if |families[topSku]| < MaxFreqItemsSetLength - 1 {
          FirstOpenStop(topAffinities, families, k);
          families := families[topSku := families[topSku] + [sku]];
          inserted := true;
          break;
        }
        FirstOpenSkip(topAffinities, families, k);
        k := k + 1;
      }
    }

    /**
     * The rows `output_families` writes: each anchor followed by its
     * members, in the order the families were inserted. Reading the rows
     * back gives the families again.
     */
    function OutputFamilies(): (rows: seq<seq<int>>)
      reads this
      requires forall i | 0 <= i < |anchors| :: anchors[i] in families
      requires Distinct(anchors)
      ensures FromRows(rows) == map a | a in anchors :: families[a]
    {
      RowsRoundTrip(families, anchors);
      Rows(families, anchors)
    }
  }
}
