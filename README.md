# Frequent item sets: families of co-purchased SKUs

This project models `FrequentItemsSets` of `main.py`, the program that
groups retail products (SKUs) into families from a log of purchase
receipts. A run has four stages:

1. It reads every receipt as a set of SKUs and builds the affinity table.
   For each SKU the table holds `n_times`, the number of receipts that
   contain it. It also holds, for every other SKU seen with it, how many
   receipts contain both.
2. It promotes the `N_FREQ_ITEMS_SET = 60` most frequent SKUs to family
   anchors. Each anchor gets an empty family and leaves the table.
3. It walks the remaining SKUs and places each one in a family:
   - The SKU's anchor partners are ranked by co-occurrence, highest first.
   - The SKU joins the first of those families with fewer than
     `MAX_FREQ_ITEMS_SET_LENGTH - 1` members. That bound is
     `12750 // 60 - 1 = 211`.
   - If every such family is full, or the SKU has no anchor partner, it is
     counted as left alone.
4. It produces one row per family: the anchor followed by its members.

The model has four modules:
- `Ranking` (ranking.dfy) defines `sorted(..., reverse=True)` over
  (SKU, count) pairs as a ranking function with a fixed tie-break.
- `Affinity` (affinity.dfy) specifies the affinity table as a function of
  the receipts and proves it equals the true counts.
- `Families` (families.dfy) holds:
  - the constants;
  - anchor selection;
  - the greedy choice of a family;
  - the assignment, as a fold over the SKUs;
  - the output rows.
- `FrequentItems` (frequent_items_sets.dfy) has two parts:
  - the class `FrequentItemsSets`, whose fields `affinities`, `families` and
    `anchors` are updated in place by methods that follow the Python loops.
    Each method is proved to reach the state the specification functions
    describe.
  - `Run`, the whole run as a function, with lemmas stating what every run
    guarantees.

The receipts that `get_products` reads from `cleaned_db.dat` are a
constructor parameter, `transactions: seq<set<int>>`.

Dictionary order is fixed explicitly in two places:
- **Ties in a ranking.** Python's stable `sorted` keeps dict insertion
  order among equal counts. The model breaks ties by ascending SKU
  (`Ranking.Precedes`).
- **The assignment order.** The model assigns the remaining SKUs in
  ascending order (`Ranking.Ascending`). Python iterates them in the order
  they were first seen.

Rows follow the order in which the anchors were inserted into
`self.families`, which is kept in the field `anchors`.

## Model

| member | source | states |
|---|---|---|
| Ranking.First | main.py:49-56 | the chosen SKU is in the set and ranks ahead of (or equal to) every SKU of the set: highest count, smallest SKU among ties |
| Ranking.Ranked | main.py:49-56 | the ranking is a permutation of the set without repetitions, and every element precedes every later one by count (descending) then SKU |
| Ranking.RankedNonIncreasing | main.py:49-56 | counts along a ranking never increase |
| Ranking.Ascending | main.py:66 | the iteration order over the table's SKUs is a strictly ascending permutation of its keys |
| Affinity.UpdatedChangesOnlyOthers | main.py:34-40 | an update adds one to `n_times`, adds one to each partner already present, creates each new partner at 1, and leaves every other partner unchanged |
| Affinity.FirstObservation | main.py:42-44 | a record created for a SKU has `n_times == 1` and every partner count equal to 1 |
| Affinity.ObserveTouchesOnlyItsSkus | main.py:26-32 | one receipt adds its SKUs to the table and changes only their entries; every other entry is unchanged |
| Affinity.ObserveCounts | main.py:26-32 | if the table holds the counts of earlier receipts, after one more receipt it holds the counts of all of them |
| Affinity.BuildCounts | main.py:24-44 | the built table has an entry exactly for SKUs in some receipt; `n_times` is the number of receipts containing the SKU; partners are the other SKUs it shared a receipt with, each counted by the shared receipts |
| Affinity.BuildKeys | main.py:24-32 | the table's SKUs are exactly the SKUs occurring in the receipts |
| Affinity.NoSelfAffinity | main.py:30-32 | no SKU is recorded as its own partner |
| Affinity.AffinitySymmetric | main.py:27-40 | if `b` is a partner of `a` then `a` is a partner of `b`, with the same count |
| Affinity.CoCountAtMostCount | main.py:34-40 | two SKUs share at most as many receipts as the first occurs in |
| Affinity.CountPositive | main.py:28-32 | a SKU's count is positive exactly when it occurs in some receipt |
| Families.NTimes | main.py:51 | the sort key map covers exactly the table's SKUs |
| Families.TopProductsSelection | main.py:46-57 | `min(60, #SKUs)` distinct SKUs of the table, in non-increasing `n_times`, each with `n_times` at least that of every SKU not selected |
| Families.TopProductsSplit | main.py:46-61 | anchors and the SKUs left in the table are disjoint and together are the table's SKUs; `min(60, #SKUs)` anchors, none repeated |
| Families.SelectStep | main.py:59-61 | one more top product gets an empty family and leaves the table |
| Families.FirstOpen | main.py:76-81 | `None` iff every candidate's family is full; otherwise a candidate with room before which every candidate is full |
| Families.Choose | main.py:67-81 | `None` iff every anchor partner's family is full; otherwise an anchor the SKU co-occurred with, whose family has room, ranked ahead of every other anchor partner with room |
| Families.FirstOpenIsBest | main.py:67-81 | scanning `top_affinities` for the first family with room finds the best-ranked open anchor partner, and fails iff all are full |
| Families.StepIsScan | main.py:76-84 | one pass of the loop appends the SKU to the first open family of `top_affinities`, or adds one to `left_alone` |
| Families.StepInvariants | main.py:76-84 | one pass keeps the anchors, the capacity bound and exclusivity; the SKU joins one family of a co-occurring anchor, or only `left_alone` changes |
| Families.AssignAllStep | main.py:66-84 | the assignment over one more SKU is one more pass of the loop |
| Families.FirstOpenSkip | main.py:77-78 | a full candidate is skipped |
| Families.FirstOpenStop | main.py:77-81 | the first candidate with room is the one taken |
| Families.AppendExclusive | main.py:79 | appending a SKU that is neither an anchor nor a member keeps every member unique and no anchor a member |
| Families.AppendMembers | main.py:79 | appending adds exactly that SKU to the members |
| Families.AssignAllInvariants | main.py:64-87 | after all passes, anchors are kept and no family exceeds 211 members; every SKU is a member at most once and no anchor is a member; new members come from the order, each placed with an anchor it co-occurred with; members plus `left_alone` is the number of SKUs assigned |
| Families.Rows | main.py:90-93 | one row per family, each one longer than its family |
| Families.RowsRoundTrip | main.py:89-93 | reading the rows back (first SKU names the family) gives exactly the families of the anchors; with the capacity bound no row exceeds 212 SKUs |
| FrequentItems.RunSelection | main.py:19-20 | anchors and remaining SKUs split the SKUs that occur; `min(60, #SKUs)` distinct anchors, each in at least as many receipts as every remaining SKU |
| FrequentItems.RunFamilies | main.py:19-22 | one family per anchor, no family over 211 members, no row over 212 SKUs, no anchor a member, no SKU a member twice |
| FrequentItems.RunMembers | main.py:19-21 | members are remaining SKUs, each placed with an anchor it co-occurred with; placed plus `left_alone` is the number of remaining SKUs |
| FrequentItems.FrequentItemsSets.constructor | main.py:15-21 | the object ends with the anchors, the remaining table and the families of `Run(transactions)` |
| FrequentItems.FrequentItemsSets.GetProducts | main.py:24-32 | the loop over receipts and their SKUs leaves `affinities` equal to `Build` of the old table and the receipts, and changes nothing else |
| FrequentItems.FrequentItemsSets.UpdateAffinitiesRecord | main.py:34-40 | only the SKU's entry changes, to `Updated` of its old record |
| FrequentItems.FrequentItemsSets.CreateAffinitiesRecord | main.py:42-44 | only the SKU's entry changes, to the update of a fresh record |
| FrequentItems.FrequentItemsSets.GetTopProducts | main.py:46-61 | anchors are `TopProducts` of the old table; each gets an empty family and is removed from the table |
| FrequentItems.FrequentItemsSets.PromoteAnchors | main.py:59-61 | the loop adds an empty family for each top product and deletes its record |
| FrequentItems.FrequentItemsSets.AssignProductsToFamilies | main.py:64-87 | the loop leaves `families` and `left_alone` equal to `AssignAll` over the table in ascending SKU order; the table and anchors are unchanged |
| FrequentItems.FrequentItemsSets.AssignProduct | main.py:66-85 | one pass of the loop advances the state to the assignment over one more SKU |
| FrequentItems.FrequentItemsSets.InsertIntoFirstOpen | main.py:76-81 | the inner loop appends the SKU to the first candidate family with room and reports it, or leaves the families unchanged and reports nothing inserted |
| FrequentItems.FrequentItemsSets.OutputFamilies | main.py:89-93 | the rows read back as exactly the families of the anchors |

## Left out

- Reading `cleaned_db.dat` is not modelled: the file path, parsing lines
  with `split(" ")` and `int`, and malformed input. The receipts are a
  parameter, already parsed into sets of SKUs.
- Writing `families.json` with `json.dump` is not modelled, and neither are
  the path constants. `OutputFamilies` returns the rows instead.
- The warnings printed for left-alone SKUs are not modelled, since they are
  output only. `AssignProductsToFamilies` returns `left_alone` instead.
- Dict insertion order is not modelled. Python ranks ties and visits the
  remaining SKUs in the order in which they were first seen; the model
  breaks ranking ties by ascending SKU and visits the remaining SKUs in
  ascending order. Among SKUs tied in `n_times` at the 60th place this can
  change which become anchors, and among anchor partners tied in
  co-occurrence it can change which family a SKU joins. Once a family fills
  up, visiting SKUs in ascending order instead of first-seen order can also
  change which SKUs are placed, which family each joins, and the
  `left_alone` count, so `Run` can differ from the program's result on
  such input. The assignment properties are proved for every visiting
  of distinct non-anchor SKUs (`Families.AssignAllInvariants` takes the
  order as a parameter).
- `main.py` has no second, transitive assignment tier, no shuffled
  fallback that places left-alone SKUs, and no capacity-exhaustion error.
  Every family has the single capacity `MAX_FREQ_ITEMS_SET_LENGTH - 1`,
  and left-alone SKUs stay unplaced; the model does the same.
- `output_families` in `main.py` does not sort the rows; they keep the
  order in which the anchors were inserted into `self.families`, and so
  does the model.
