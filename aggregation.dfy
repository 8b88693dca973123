/**
 * The figures the notifier derives from the full sale list: the three status
 * lists (`filter`), the totals (`reduce`), the net profit of the delivered
 * sales, and the latest delivered sales newest first (`slice(-5).reverse()`).
 * Every fold runs from the first sale to the last, as `reduce` does.
 */
module Aggregation {
  import opened Sales
  import opened Costs

  /** `sales.filter(s => s.status === status)`. */
  function Filter(sales: seq<Sale>, status: Status): (r: seq<Sale>)
    ensures |r| <= |sales|
  {
    if sales == [] then []
    else
      var last := sales[|sales| - 1];
      Filter(sales[..|sales| - 1], status) + (if last.status == status then [last] else [])
  }

  function PendingSales(sales: seq<Sale>): seq<Sale> { Filter(sales, Sales.Pending) }
  function DeliveredSales(sales: seq<Sale>): seq<Sale> { Filter(sales, Sales.Delivered) }
  function CancelledSales(sales: seq<Sale>): seq<Sale> { Filter(sales, Sales.Cancelled) }

  /** `sales.reduce((acc, curr) => acc + curr.value, 0)`. */
  function SumValues(sales: seq<Sale>): int
  {
    if sales == [] then 0 else SumValues(sales[..|sales| - 1]) + sales[|sales| - 1].value
  }

  /** The profit fold over delivered sales: each adds its value minus its unit cost. */
  function SumProfit(delivered: seq<Sale>): int
  {
    if delivered == [] then 0
    else
      var last := delivered[|delivered| - 1];
      SumProfit(delivered[..|delivered| - 1]) + (last.value - ProductCost(last.name))
  }

  /** The net profit: only delivered sales contribute. */
  function NetProfit(sales: seq<Sale>): int
  {
    SumProfit(DeliveredSales(sales))
  }

  // ---------------------------------------------------------------------------
  // The status lists keep input order and split the list

  /** Filtering a concatenation filters each part and keeps them in order. */
  lemma {:induction false} FilterAppend(a: seq<Sale>, b: seq<Sale>, status: Status)
    ensures Filter(a + b, status) == Filter(a, status) + Filter(b, status)
    decreases |b|
  {
    if b == [] {
      assert a + b == a;
    } else {
      var b', last := b[..|b| - 1], b[|b| - 1];
      var tail := if last.status == status then [last] else [];
      assert (a + b)[..|a + b| - 1] == a + b' && (a + b)[|a + b| - 1] == last;
      assert Filter(a + b, status) == Filter(a + b', status) + tail;
      assert Filter(b, status) == Filter(b', status) + tail;
      FilterAppend(a, b', status);
    }
  }

  /** A sale is in a status list exactly when it is in the input with that status. */
  lemma {:induction false} FilterMembers(sales: seq<Sale>, status: Status, x: Sale)
    ensures x in Filter(sales, status) <==> x in sales && x.status == status
  {
    if sales != [] {
      var init, last := sales[..|sales| - 1], sales[|sales| - 1];
      FilterMembers(init, status, x);
      assert sales == init + [last];
    }
  }

  /** A sale of one status is missing from the other two lists, kept in its own. */
  lemma FilterSingle(x: Sale, status: Status)
    ensures Filter([x], status) == if x.status == status then [x] else []
  {
    assert [x][..0] == [];
  }

  /** Every sale lands in exactly one of the three lists: together they are the input. */
  lemma {:induction false} PartitionCovers(sales: seq<Sale>)
    ensures multiset(PendingSales(sales)) + multiset(DeliveredSales(sales)) + multiset(CancelledSales(sales)) == multiset(sales)
  {
    if sales != [] {
      var init := sales[..|sales| - 1];
      PartitionCovers(init);
      assert sales == init + [sales[|sales| - 1]];
    }
  }

  /** `SumValues` distributes over concatenation. */
  lemma {:induction false} SumAppend(a: seq<Sale>, b: seq<Sale>)
    ensures SumValues(a + b) == SumValues(a) + SumValues(b)
    decreases |b|
  {
    if b == [] {
      assert a + b == a;
    } else {
      var b' := b[..|b| - 1];
      assert (a + b)[..|a + b| - 1] == a + b' && (a + b)[|a + b| - 1] == b[|b| - 1];
      SumAppend(a, b');
    }
  }

  /** The overall total is the pending, delivered and cancelled totals added up. */
  lemma {:induction false} TotalSplitsByStatus(sales: seq<Sale>)
    ensures SumValues(sales) == SumValues(PendingSales(sales)) + SumValues(DeliveredSales(sales)) + SumValues(CancelledSales(sales))
  {
    if sales != [] {
      var init := sales[..|sales| - 1];
      var last := sales[|sales| - 1];
      TotalSplitsByStatus(init);
      assert PendingSales(sales) == PendingSales(init) + (if last.status == Sales.Pending then [last] else []);
      assert DeliveredSales(sales) == DeliveredSales(init) + (if last.status == Sales.Delivered then [last] else []);
      assert CancelledSales(sales) == CancelledSales(init) + (if last.status == Sales.Cancelled then [last] else []);
      assert SumValues(sales) == SumValues(init) + last.value;
      assert SumValues([last]) == last.value by { assert [last][..0] == []; }
      assert SumValues([]) == 0;
      SumAppend(PendingSales(init), if last.status == Sales.Pending then [last] else []);
      SumAppend(DeliveredSales(init), if last.status == Sales.Delivered then [last] else []);
      SumAppend(CancelledSales(init), if last.status == Sales.Cancelled then [last] else []);
    }
  }

  /** Replacing a sale that is not delivered by another that is not leaves the delivered list as it was. */
  lemma {:induction false} DeliveredIgnoresOthers(sales: seq<Sale>, i: nat, x: Sale)
    requires i < |sales|
    requires sales[i].status != Sales.Delivered && x.status != Sales.Delivered
    ensures DeliveredSales(sales[i := x]) == DeliveredSales(sales)
  {
    var updated := sales[i := x];
    assert sales == sales[..i] + [sales[i]] + sales[i + 1..];
    assert updated == sales[..i] + [x] + sales[i + 1..];
    FilterAppend(sales[..i] + [sales[i]], sales[i + 1..], Sales.Delivered);
    FilterAppend(sales[..i] + [x], sales[i + 1..], Sales.Delivered);
    FilterAppend(sales[..i], [sales[i]], Sales.Delivered);
    FilterAppend(sales[..i], [x], Sales.Delivered);
    FilterSingle(sales[i], Sales.Delivered);
    FilterSingle(x, Sales.Delivered);
  }

  /** Replacing a pending or cancelled sale by another undelivered sale never moves the net profit. */
  lemma NetProfitIgnoresUndelivered(sales: seq<Sale>, i: nat, x: Sale)
    requires i < |sales|
    requires sales[i].status != Sales.Delivered && x.status != Sales.Delivered
    ensures NetProfit(sales[i := x]) == NetProfit(sales)
  {
    DeliveredIgnoresOthers(sales, i, x);
  }

  /** Adding (or, read backwards, removing) a pending or cancelled sale anywhere never moves the net profit. */
  lemma NetProfitIgnoresInsert(a: seq<Sale>, b: seq<Sale>, x: Sale)
    requires x.status != Sales.Delivered
    ensures NetProfit(a + [x] + b) == NetProfit(a + b)
  {
    FilterAppend(a + [x], b, Sales.Delivered);
    FilterAppend(a, [x], Sales.Delivered);
    FilterAppend(a, b, Sales.Delivered);
    FilterSingle(x, Sales.Delivered);
    var d := Filter(a, Sales.Delivered);
    assert Filter(a + [x], Sales.Delivered) == d + [] == d;
  }

  // ---------------------------------------------------------------------------
  // Latest delivered sales

  const LatestCount := 5

  function Reverse<T>(s: seq<T>): (r: seq<T>)
    ensures |r| == |s|
    ensures forall k :: 0 <= k < |s| ==> r[k] == s[|s| - 1 - k]
  {
    if s == [] then [] else [s[|s| - 1]] + Reverse(s[..|s| - 1])
  }

  /** `delivered.slice(-5).reverse()`: the last five (or fewer) delivered sales, newest first. */
  function LatestDelivered(delivered: seq<Sale>): (r: seq<Sale>)
    ensures |r| == if |delivered| < LatestCount then |delivered| else LatestCount
    ensures forall k :: 0 <= k < |r| ==> r[k] == delivered[|delivered| - 1 - k]
  {
    var start := if |delivered| < LatestCount then 0 else |delivered| - LatestCount;
    Reverse(delivered[start..])
  }

  // ---------------------------------------------------------------------------
  // The summary

  /** The figures one notification reports. */
  datatype Summary = Summary(
    total: int,
    pendingTotal: int,
    netProfit: int,
    pending: seq<Sale>,
    latestDelivered: seq<Sale>)

  lemma PendingListIsExact(sales: seq<Sale>)
    ensures forall x :: x in PendingSales(sales) <==> x in sales && x.status == Sales.Pending
  {
    forall x ensures x in PendingSales(sales) <==> x in sales && x.status == Sales.Pending {
      FilterMembers(sales, Sales.Pending, x);
    }
  }

  lemma LatestAreDelivered(sales: seq<Sale>)
    ensures forall x :: x in LatestDelivered(DeliveredSales(sales)) ==> x in sales && x.status == Sales.Delivered
  {
    var d := DeliveredSales(sales);
    var latest := LatestDelivered(d);
    forall x | x in latest ensures x in sales && x.status == Sales.Delivered {
      var k :| 0 <= k < |latest| && latest[k] == x;
      assert x == d[|d| - 1 - k];
      FilterMembers(sales, Sales.Delivered, x);
    }
  }

  /** The summary of a sale list. */
  function Summarize(sales: seq<Sale>): (s: Summary)
    ensures s.total == SumValues(sales) && s.netProfit == NetProfit(sales)
    ensures s.pendingTotal == SumValues(PendingSales(sales)) && s.pending == PendingSales(sales)
    ensures s.latestDelivered == LatestDelivered(DeliveredSales(sales))
    ensures s.total == s.pendingTotal + SumValues(DeliveredSales(sales)) + SumValues(CancelledSales(sales))
    ensures s.pendingTotal == SumValues(s.pending)
    ensures forall x :: x in s.pending <==> x in sales && x.status == Sales.Pending
    ensures |s.latestDelivered| <= LatestCount
    ensures forall x :: x in s.latestDelivered ==> x in sales && x.status == Sales.Delivered
    ensures sales == [] ==> s.total == 0 && s.pendingTotal == 0 && s.netProfit == 0 && s.pending == [] && s.latestDelivered == []
  {
    TotalSplitsByStatus(sales);
    PendingListIsExact(sales);
    LatestAreDelivered(sales);
    Summary(SumValues(sales), SumValues(PendingSales(sales)), NetProfit(sales), PendingSales(sales), LatestDelivered(DeliveredSales(sales)))
  }

  /** The worked example: a delivered Infinity at 500.00 and a pending FW PRO at 800.00. */
  lemma WorkedExample(a: Sale, b: Sale)
    requires a == Sale("1", "Infinity", 500_00, Wrappers.None, Sales.Delivered)
    requires b == Sale("2", "FW PRO", 800_00, Wrappers.None, Sales.Pending)
    ensures Summarize([a, b]).total == 1300_00
    ensures Summarize([a, b]).pendingTotal == 800_00
    ensures Summarize([a, b]).netProfit == 250_00
  {
    var sales := [a, b];
    assert sales[..1] == [a] && [a][..0] == [];
    assert SumValues([a]) == a.value;
    assert SumValues(sales) == 1300_00;
    FilterSingle(a, Sales.Delivered);
    FilterSingle(a, Sales.Pending);
    assert DeliveredSales(sales) == [a];
    assert PendingSales(sales) == [b];
    assert SumValues([b]) == b.value by { assert [b][..0] == []; }
    InfinityCosts250();
    assert SumProfit([a]) == a.value - InfinityCost;
  }
}
