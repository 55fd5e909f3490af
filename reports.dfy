/** The PDF report service (src/services/reportService.ts) without its layout: the date window
    every report applies, the sales summary, the per-product aggregation and ranking, the
    inventory-movement counts, the reason labels, the name truncation and the dispatch on the
    report type. */
module Reports {
  import opened Seqs
  import opened Types
  import Sorting
  import Truncation

  // ---------------------------------------------------------------------------------------
  // Date window

  /** `endDate.setHours(23, 59, 59, 999)`: the last millisecond of the end date's day. */
  function EndOfDay(t: Timestamp): Timestamp
  {
    DayOf(t) * MsPerDay + MsPerDay - 1
  }

  /** Moving the end to the last millisecond of its day takes in the whole of that day and
      nothing of the next one. */
  lemma EndOfDayCoversDay(e: Timestamp, t: Timestamp)
    ensures t <= EndOfDay(e) <==> DayOf(t) <= DayOf(e)
  {
  }

  /** `saleDate >= startDate && saleDate <= endDate`. A date text that does not parse is
      `None` (an invalid `Date`); every comparison with it is false. */
  predicate InWindow(date: Timestamp, start: Option<Timestamp>, end: Option<Timestamp>)
  {
    start.Some? && end.Some? && start.value <= date && date <= EndOfDay(end.value)
  }

  /** The window keeps a date iff it is not before the start and its day is not after the
      end's day; with either bound invalid it keeps nothing. */
  lemma InWindowByDay(date: Timestamp, start: Option<Timestamp>, end: Option<Timestamp>)
    ensures InWindow(date, start, end) <==>
              start.Some? && end.Some? && start.value <= date && DayOf(date) <= DayOf(end.value)
  {
    if end.Some? {
      EndOfDayCoversDay(end.value, date);
    }
  }

  function SalesInWindow(sales: seq<Sale>, start: Option<Timestamp>, end: Option<Timestamp>): (r: seq<Sale>)
    ensures IsSubseq(r, sales)
    ensures forall s :: s in r <==> s in sales && InWindow(s.date, start, end)
  {
    FilterIsSubseq(sales, (s: Sale) => InWindow(s.date, start, end));
    Filter(sales, (s: Sale) => InWindow(s.date, start, end))
  }

  function AdjustmentsInWindow(adjs: seq<InventoryAdjustment>, start: Option<Timestamp>, end: Option<Timestamp>)
    : (r: seq<InventoryAdjustment>)
    ensures IsSubseq(r, adjs)
    ensures forall a :: a in r <==> a in adjs && InWindow(a.adjustmentDate, start, end)
  {
    FilterIsSubseq(adjs, (a: InventoryAdjustment) => InWindow(a.adjustmentDate, start, end));
    Filter(adjs, (a: InventoryAdjustment) => InWindow(a.adjustmentDate, start, end))
  }

  // ---------------------------------------------------------------------------------------
  // Sales summary

  datatype SalesSummary = SalesSummary(totalSales: nat, totalRevenue: int, avgSale: real)

  function SaleTotal(s: Sale): int
  {
    s.total
  }

  /** Count, revenue (the sum of `total`) and average, which is 0 when there are no sales. */
  function Summarize(sales: seq<Sale>): (r: SalesSummary)
    ensures r.totalSales == |sales|
    ensures r.totalSales == 0 ==> r.totalRevenue == 0 && r.avgSale == 0.0
    ensures r.totalSales > 0 ==> r.avgSale * r.totalSales as real == r.totalRevenue as real
  {
    var revenue := Sum(sales, SaleTotal);
    SalesSummary(|sales|, revenue, if |sales| > 0 then revenue as real / |sales| as real else 0.0)
  }

  /** Dividing bounds on `n` times a value by a positive `n`. */
  lemma DivideBounds(avg: real, n: real, lo: real, hi: real)
    requires n > 0.0 && n * lo <= avg * n <= n * hi
    ensures lo <= avg <= hi
  {
    assert (avg - lo) * n >= 0.0;
    assert (hi - avg) * n >= 0.0;
  }

  lemma QuotientBetween(total: int, n: nat, lo: int, hi: int)
    requires n > 0 && n * lo <= total <= n * hi
    ensures lo as real <= total as real / n as real <= hi as real
  {
    var avg := total as real / n as real;
    assert avg * n as real == total as real;
    assert (n * lo) as real == n as real * lo as real;
    assert (n * hi) as real == n as real * hi as real;
    DivideBounds(avg, n as real, lo as real, hi as real);
  }

  /** The average lies between the smallest and the largest sale total. */
  lemma AverageBetween(sales: seq<Sale>, lo: int, hi: int)
    requires sales != []
    requires forall i :: 0 <= i < |sales| ==> lo <= sales[i].total <= hi
    ensures lo as real <= Summarize(sales).avgSale <= hi as real
  {
    SumBetween(sales, SaleTotal, lo, hi);
    QuotientBetween(Sum(sales, SaleTotal), |sales|, lo, hi);
  }

  // ---------------------------------------------------------------------------------------
  // Top products

  datatype TopProduct = TopProduct(productId: int, productName: string, totalSold: int, totalRevenue: int)

  /** The `Map` of the aggregation: its keys in insertion order (the order `values()` lists
      them in) and the entry under each key. */
  datatype Tally = Tally(keys: seq<int>, entries: map<int, TopProduct>)

  predicate Distinct(keys: seq<int>)
  {
    forall i, j :: 0 <= i < j < |keys| ==> keys[i] != keys[j]
  }

  /** Keys listed once each, exactly the map's keys, each entry filed under its own id. */
  predicate ValidTally(t: Tally)
  {
    && Distinct(t.keys)
    && (forall i :: 0 <= i < |t.keys| ==> t.keys[i] in t.entries)
    && (forall k :: k in t.entries ==> k in t.keys)
    && (forall k :: k in t.entries ==> t.entries[k].productId == k)
  }

  function SaleItems(s: Sale): seq<SaleItem>
  {
    s.items
  }

  /** The items of all sales, sale by sale: the order the nested `forEach` visits them. */
  function AllItems(sales: seq<Sale>): seq<SaleItem>
  {
    FlatMap(sales, SaleItems)
  }

  function IdIs(id: int): SaleItem -> bool
  {
    (it: SaleItem) => it.productId == id
  }

  function Quantity(it: SaleItem): int
  {
    it.quantity
  }

  function Subtotal(it: SaleItem): int
  {
    it.subtotal
  }

  function TotalSold(p: TopProduct): int
  {
    p.totalSold
  }

  /** One visit of the inner `forEach`: add to the existing entry, or create one with the
      item's name. */
  function AddItem(t: Tally, it: SaleItem): Tally
  {
    if it.productId in t.entries then
      var e := t.entries[it.productId];
      Tally(t.keys, t.entries[it.productId := e.(totalSold := e.totalSold + it.quantity,
                                               totalRevenue := e.totalRevenue + it.subtotal)])
    else
      Tally(t.keys + [it.productId],
            t.entries[it.productId := TopProduct(it.productId, it.productName, it.quantity, it.subtotal)])
  }

  /** The map after visiting `items` in order, starting empty. */
  function Tallied(items: seq<SaleItem>): Tally
  {
    if items == [] then Tally([], map[])
    else AddItem(Tallied(items[..|items| - 1]), items[|items| - 1])
  }

  lemma TalliedStep(items: seq<SaleItem>, it: SaleItem)
    ensures Tallied(items + [it]) == AddItem(Tallied(items), it)
  {
    assert (items + [it])[..|items|] == items;
  }

  /** The inner `forEach`: the items of one sale, each added to the map in place. */
  method AddItems(keys0: seq<int>, entries0: map<int, TopProduct>, done: seq<SaleItem>, items: seq<SaleItem>)
    returns (keys: seq<int>, entries: map<int, TopProduct>)
    requires Tally(keys0, entries0) == Tallied(done)
    ensures Tally(keys, entries) == Tallied(done + items)
  {
    keys, entries := keys0, entries0;
    assert done + items[..0] == done;
    for j := 0 to |items|
      invariant Tally(keys, entries) == Tallied(done + items[..j])
    {
      var it := items[j];
      TalliedStep(done + items[..j], it);
      assert done + items[..j + 1] == (done + items[..j]) + [it];
      if it.productId in entries {
        var e := entries[it.productId];
        entries := entries[it.productId := e.(totalSold := e.totalSold + it.quantity,
                                             totalRevenue := e.totalRevenue + it.subtotal)];
      } else {
        keys := keys + [it.productId];
        entries := entries[it.productId := TopProduct(it.productId, it.productName, it.quantity, it.subtotal)];
      }
    }
    assert items[..|items|] == items;
  }

  /** The nested `forEach` over the sales in the window and their items, updating the map. */
  method Aggregate(sales: seq<Sale>) returns (t: Tally)
    ensures t == Tallied(AllItems(sales))
  {
    var keys: seq<int> := [];
    var entries: map<int, TopProduct> := map[];
    assert sales[..0] == [];
    for i := 0 to |sales|
      invariant Tally(keys, entries) == Tallied(AllItems(sales[..i]))
    {
      keys, entries := AddItems(keys, entries, AllItems(sales[..i]), sales[i].items);
      FlatMapStep(sales, i, SaleItems);
    }
    assert sales[..|sales|] == sales;
    t := Tally(keys, entries);
  }

  lemma AddItemValid(t: Tally, it: SaleItem)
    requires ValidTally(t)
    ensures ValidTally(AddItem(t, it))
  {
  }

  /** What the map holds for product `k` after visiting `items`: an entry iff some item names
      `k`, carrying the first such item's name and the sums of their quantities and
      subtotals. */
  predicate EntryFacts(items: seq<SaleItem>, t: Tally, k: int)
  {
    var named := Filter(items, IdIs(k));
    && (k in t.entries <==> named != [])
    && (k in t.entries ==>
          && t.entries[k].productName == named[0].productName
          && t.entries[k].totalSold == Sum(named, Quantity)
          && t.entries[k].totalRevenue == Sum(named, Subtotal))
  }

  /** An item for another product changes neither the entry for `k` nor the items naming `k`. */
  lemma EntryFactsOther(items: seq<SaleItem>, it: SaleItem, k: int)
    requires it.productId != k
    requires EntryFacts(items, Tallied(items), k)
    ensures EntryFacts(items + [it], Tallied(items + [it]), k)
  {
    var t := Tallied(items);
    TalliedStep(items, it);
    assert !IdIs(k)(it);
    FilterAppendOne(items, it, IdIs(k));
    assert Filter(items + [it], IdIs(k)) == Filter(items, IdIs(k));
    assert k in AddItem(t, it).entries <==> k in t.entries;
    assert k in t.entries ==> AddItem(t, it).entries[k] == t.entries[k];
  }

  /** The first item for `k` creates its entry. */
  lemma EntryFactsNew(items: seq<SaleItem>, it: SaleItem, k: int)
    requires it.productId == k && k !in Tallied(items).entries
    requires EntryFacts(items, Tallied(items), k)
    ensures EntryFacts(items + [it], Tallied(items + [it]), k)
  {
    TalliedStep(items, it);
    FilterAppendOne(items, it, IdIs(k));
    assert Filter(items + [it], IdIs(k)) == [it];
    assert [it][1..] == [];
  }

  /** A later item for `k` adds to its entry and keeps the first name. */
  lemma EntryFactsExisting(items: seq<SaleItem>, it: SaleItem, k: int)
    requires it.productId == k && k in Tallied(items).entries
    requires EntryFacts(items, Tallied(items), k)
    ensures EntryFacts(items + [it], Tallied(items + [it]), k)
  {
    TalliedStep(items, it);
    FilterAppendOne(items, it, IdIs(k));
    var named := Filter(items, IdIs(k));
    assert Filter(items + [it], IdIs(k)) == named + [it];
    SumAppend(named, [it], Quantity);
    SumAppend(named, [it], Subtotal);
    assert [it][1..] == [];
    assert (named + [it])[0] == named[0];
  }

  lemma EntryFactsStep(items: seq<SaleItem>, it: SaleItem, k: int)
    requires EntryFacts(items, Tallied(items), k)
    ensures EntryFacts(items + [it], Tallied(items + [it]), k)
  {
    if it.productId != k {
      EntryFactsOther(items, it, k);
    } else if k in Tallied(items).entries {
      EntryFactsExisting(items, it, k);
    } else {
      EntryFactsNew(items, it, k);
    }
  }

  lemma {:induction false} TalliedEntries(items: seq<SaleItem>)
    ensures ValidTally(Tallied(items))
    ensures forall k :: EntryFacts(items, Tallied(items), k)
  {
    if items != [] {
      var front := items[..|items| - 1];
      var it := items[|items| - 1];
      TalliedEntries(front);
      AddItemValid(Tallied(front), it);
      assert front + [it] == items;
      forall k
        ensures EntryFacts(items, Tallied(items), k)
      {
        EntryFactsStep(front, it, k);
      }
    }
  }

  /** `Array.from(productMap.values())`: the entries in key order. */
  function Values(t: Tally): (r: seq<TopProduct>)
    requires ValidTally(t)
    ensures |r| == |t.keys|
    ensures forall i :: 0 <= i < |r| ==> r[i] == t.entries[t.keys[i]]
  {
    seq(|t.keys|, i requires 0 <= i < |t.keys| => t.entries[t.keys[i]])
  }

  /** Each visit adds the item's quantity to the units held by the map. */
  lemma AddItemUnits(t: Tally, it: SaleItem)
    requires ValidTally(t)
    ensures ValidTally(AddItem(t, it))
    ensures Sum(Values(AddItem(t, it)), TotalSold) == Sum(Values(t), TotalSold) + it.quantity
  {
    AddItemValid(t, it);
    var t' := AddItem(t, it);
    if it.productId in t.entries {
      var p :| 0 <= p < |t.keys| && t.keys[p] == it.productId;
      assert Values(t') == Values(t)[p := t'.entries[it.productId]];
      SumUpdate(Values(t), p, t'.entries[it.productId], TotalSold);
    } else {
      assert Values(t') == Values(t) + [t'.entries[it.productId]];
      SumAppend(Values(t), [t'.entries[it.productId]], TotalSold);
    }
  }

  /** The entries together hold every unit sold. */
  lemma {:induction false} TalliedUnits(items: seq<SaleItem>)
    ensures ValidTally(Tallied(items))
    ensures Sum(Values(Tallied(items)), TotalSold) == Sum(items, Quantity)
  {
    if items == [] {
    } else {
      var front := items[..|items| - 1];
      var it := items[|items| - 1];
      TalliedUnits(front);
      AddItemUnits(Tallied(front), it);
      assert front + [it] == items;
      SumAppend(front, [it], Quantity);
    }
  }

  const TopCount: nat := 20

  /** The products-sold report's numbers: `productMap.size`, the units summed over the
      ranking, and the ranking itself (sorted by units, largest first, cut to 20). */
  datatype TopProductsSummary = TopProductsSummary(distinctProducts: nat, unitsSold: int, ranking: seq<TopProduct>)

  function TopProductsOf(sales: seq<Sale>): (r: TopProductsSummary)
    ensures |r.ranking| <= TopCount
    ensures Sorting.SortedDesc(r.ranking, TotalSold)
  {
    var t := Tallied(AllItems(sales));
    TalliedEntries(AllItems(sales));
    var sorted := Sorting.SortDesc(Values(t), TotalSold);
    var ranking := Take(sorted, TopCount);
    Sorting.SortedPrefix(sorted, |ranking|, TotalSold);
    TopProductsSummary(|t.keys|, Sum(ranking, TotalSold), ranking)
  }

  /** The map's keys are exactly the ids some item names. */
  lemma TalliedKeys(items: seq<SaleItem>)
    ensures ValidTally(Tallied(items))
    ensures forall k :: k in Tallied(items).keys <==> exists it :: it in items && it.productId == k
  {
    var t := Tallied(items);
    TalliedEntries(items);
    forall k
      ensures k in t.keys <==> exists it :: it in items && it.productId == k
    {
      assert EntryFacts(items, t, k);
      if k in t.keys {
        assert Filter(items, IdIs(k))[0] in Filter(items, IdIs(k));
      }
    }
  }

  /** Cutting a sorted list: the kept part comes from the list, whatever is left out is no
      larger than the last kept element, and among entries with equal units those kept are
      the first in the tally's order. */
  lemma TopOfSorted(values: seq<TopProduct>)
    ensures var sorted := Sorting.SortDesc(values, TotalSold);
            var ranking := Take(sorted, TopCount);
            && multiset(ranking) <= multiset(values)
            && (forall p :: p in values && p !in ranking ==>
                  |ranking| == TopCount && p.totalSold <= ranking[TopCount - 1].totalSold)
            && (|values| <= TopCount ==> Sum(ranking, TotalSold) == Sum(values, TotalSold))
            && forall n :: Sorting.WithKey(ranking, TotalSold, n) <= Sorting.WithKey(values, TotalSold, n)
  {
    var sorted := Sorting.SortDesc(values, TotalSold);
    var ranking := Take(sorted, TopCount);
    assert sorted == ranking + sorted[|ranking|..];
    assert multiset(sorted) == multiset(ranking) + multiset(sorted[|ranking|..]);
    forall p | p in values && p !in ranking
      ensures |ranking| == TopCount && p.totalSold <= ranking[TopCount - 1].totalSold
    {
      assert p in multiset(sorted);
      Sorting.OmittedNotLarger(sorted, |ranking|, TotalSold, p);
    }
    if |values| <= TopCount {
      Sorting.SumSortDesc(values, TotalSold, TotalSold);
    }
    forall n ensures Sorting.WithKey(ranking, TotalSold, n) <= Sorting.WithKey(values, TotalSold, n) {
      Sorting.WithKeyPrefix(sorted, |ranking|, TotalSold, n);
    }
  }

  /** The ranking holds the best sellers: it is drawn from the entries, and an entry left
      out sold no more than the twentieth. The distinct count covers every product while the
      units cover only the ranking, so the units equal all units sold only when there are at
      most 20 products. */
  lemma TopProductsFacts(sales: seq<Sale>)
    ensures var items := AllItems(sales);
            var t := Tallied(items);
            var r := TopProductsOf(sales);
            && ValidTally(t)
            && r.distinctProducts == |t.keys|
            && (forall k :: k in t.keys <==> exists it :: it in items && it.productId == k)
            && multiset(r.ranking) <= multiset(Values(t))
            && (forall p :: p in Values(t) && p !in r.ranking ==>
                  |r.ranking| == TopCount && p.totalSold <= r.ranking[TopCount - 1].totalSold)
            && r.unitsSold == Sum(r.ranking, TotalSold)
            && (|t.keys| <= TopCount ==> r.unitsSold == Sum(items, Quantity))
  {
    var items := AllItems(sales);
    TalliedKeys(items);
    TalliedUnits(items);
    TopOfSorted(Values(Tallied(items)));
  }

  // ---------------------------------------------------------------------------------------
  // Inventory movements

  datatype InventorySummary = InventorySummary(increaseCount: nat, decreaseCount: nat, totalAdjustments: nat)

  predicate IsIncrease(a: InventoryAdjustment)
  {
    a.adjustmentType == Increase
  }

  predicate IsDecrease(a: InventoryAdjustment)
  {
    a.adjustmentType == Decrease
  }

  /** The three counts of the movements report; every adjustment is one of the two types. */
  function SummarizeAdjustments(adjs: seq<InventoryAdjustment>): (r: InventorySummary)
    ensures r.totalAdjustments == |adjs|
    ensures r.increaseCount == |Filter(adjs, IsIncrease)|
    ensures r.decreaseCount == |Filter(adjs, IsDecrease)|
    ensures r.increaseCount + r.decreaseCount == r.totalAdjustments
  {
    CountPartition2(adjs, IsIncrease, IsDecrease);
    InventorySummary(Count(adjs, IsIncrease), Count(adjs, IsDecrease), |adjs|)
  }

  /** `getReasonLabel`: the six reason codes get their display names; anything else is shown
      as it is. */
  function ReasonLabel(reason: string): (r: string)
    ensures reason == "merma" ==> r == "Merma"
    ensures reason == "conteo" ==> r == "Conteo"
    ensures reason == "daño" ==> r == "Daño"
    ensures reason == "devolucion" ==> r == "Devolución"
    ensures reason == "correccion" ==> r == "Corrección"
    ensures reason == "otro" ==> r == "Otro"
  {
    if reason == "merma" then "Merma"
    else if reason == "conteo" then "Conteo"
    else if reason == "daño" then "Daño"
    else if reason == "devolucion" then "Devolución"
    else if reason == "correccion" then "Corrección"
    else if reason == "otro" then "Otro"
    else reason
  }

  predicate IsReasonCode(reason: string)
  {
    reason in {"merma", "conteo", "daño", "devolucion", "correccion", "otro"}
  }

  /** The label differs from its input exactly for the six codes, and is never empty unless
      the input was. */
  lemma ReasonLabelChangesOnlyCodes(reason: string)
    ensures ReasonLabel(reason) != reason <==> IsReasonCode(reason)
    ensures ReasonLabel(reason) == [] <==> reason == []
  {
  }

  /** `truncateText` of the reports: blank names print as `N/A`. */
  method TruncateText(text: string, maxWidth: real, width: string -> real) returns (r: string)
    ensures Truncation.Truncated(text, maxWidth, width, "N/A", r)
  {
    r := Truncation.Truncate(text, maxWidth, width, "N/A");
  }

  // ---------------------------------------------------------------------------------------
  // Dispatch

  /** The contents of each report. The margins of the profit report are not part of this
      model; it carries the sales it is computed from. */
  datatype Report =
    | SalesReport(summary: SalesSummary, sales: seq<Sale>)
    | TopProductsReport(top: TopProductsSummary)
    | ProfitMarginReport(sales: seq<Sale>)
    | InventoryReport(inventory: InventorySummary, adjustments: seq<InventoryAdjustment>)

  datatype Outcome = Generated(report: Report) | Failed(message: string)

  const GenerateFailure: string := "No se pudo generar el reporte. Por favor, intente nuevamente."

  function OrEmpty<T>(xs: Option<seq<T>>): seq<T>
  {
    if xs.Some? then xs.value else []
  }

  /** `generateReport`: missing data lists are empty, and an unknown type is rethrown as the
      generic failure. */
  function GenerateReport(reportType: string, sales: Option<seq<Sale>>, adjustments: Option<seq<InventoryAdjustment>>,
                          start: Option<Timestamp>, end: Option<Timestamp>): (r: Outcome)
    ensures r.Failed? <==> reportType !in {"sales", "top-products", "profit-margin", "inventory-movements"}
    ensures r.Failed? ==> r.message == GenerateFailure
    ensures reportType == "sales" ==> r.report.SalesReport? && r.report.summary.totalSales == |r.report.sales|
    ensures reportType == "top-products" ==> r.report.TopProductsReport? && |r.report.top.ranking| <= TopCount
    ensures reportType == "inventory-movements" ==>
              r.report.InventoryReport? && r.report.inventory.totalAdjustments == |r.report.adjustments|
  {
    if reportType == "sales" then
      var filtered := SalesInWindow(OrEmpty(sales), start, end);
      Generated(SalesReport(Summarize(filtered), filtered))
    else if reportType == "top-products" then
      Generated(TopProductsReport(TopProductsOf(SalesInWindow(OrEmpty(sales), start, end))))
    else if reportType == "profit-margin" then
      Generated(ProfitMarginReport(SalesInWindow(OrEmpty(sales), start, end)))
    else if reportType == "inventory-movements" then
      var filtered := AdjustmentsInWindow(OrEmpty(adjustments), start, end);
      Generated(InventoryReport(SummarizeAdjustments(filtered), filtered))
    else Failed(GenerateFailure)
  }

  /** Every report only sees records inside the window: a sale outside it is in no report. */
  lemma ReportsStayInWindow(reportType: string, sales: seq<Sale>, start: Option<Timestamp>, end: Option<Timestamp>)
    ensures var r := GenerateReport(reportType, Some(sales), None, start, end);
            (r.Generated? && (r.report.SalesReport? || r.report.ProfitMarginReport?)) ==>
              forall s :: s in r.report.sales ==> s in sales && InWindow(s.date, start, end)
  {
  }

  /** Without any sales data the sales report is empty with an average of 0. */
  lemma NoSalesReport(start: Option<Timestamp>, end: Option<Timestamp>)
    ensures GenerateReport("sales", None, None, start, end) ==
              Generated(SalesReport(SalesSummary(0, 0, 0.0), []))
  {
  }
}
