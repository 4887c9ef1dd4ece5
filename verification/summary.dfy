/**
 The end-of-day sales summary (resumen de ventas): number of customers,
 tires sold, revenue, and the integer average revenue per customer.
 */
module Summary {

  import opened Pricing
  import opened Sales
  import opened Session

  /** Sum of the quantities of `sales`, added in list order. */
  function TotalTires(sales: seq<Sale>): nat {
    if |sales| == 0 then 0
    else TotalTires(sales[..|sales| - 1]) + sales[|sales| - 1].quantity
  }

  /** Sum of the totals of `sales`, added in list order. */
  function TotalRevenue(sales: seq<Sale>): nat {
    if |sales| == 0 then 0
    else TotalRevenue(sales[..|sales| - 1]) + sales[|sales| - 1].total
  }

  /** The four figures the summary reports. */
  datatype Report = Report(clients: nat, tires: nat, revenue: nat, average: nat)

  /**
   The summary of a non-empty session. The average is the revenue divided by
   the number of customers, rounded down (Python's `//` on non-negative
   integers, which agrees with Dafny's `/` here).
   */
  function Summarize(sales: seq<Sale>): (r: Report)
    requires |sales| >= 1
    ensures r.clients == |sales|
    ensures r.tires == TotalTires(sales)
    ensures r.revenue == TotalRevenue(sales)
    ensures r.average * r.clients <= r.revenue < (r.average + 1) * r.clients
  {
    var n := |sales|;
    var revenue := TotalRevenue(sales);
    Report(n, TotalTires(sales), revenue, revenue / n)
  }

  /**
   The summary computed by a single pass over the records accumulating both
   sums, then one division: it gives the same figures as the two separate
   sums and the division of the reference summary.
   */
  method ComputeSummary(sales: seq<Sale>) returns (r: Report)
    requires |sales| >= 1
    ensures r == Summarize(sales)
  {
    var tires, revenue := 0, 0;
    var i := 0;
    while i < |sales|
      invariant 0 <= i <= |sales|
      invariant tires == TotalTires(sales[..i])
      invariant revenue == TotalRevenue(sales[..i])
    {
      assert sales[..i + 1][..i] == sales[..i];
      tires := tires + sales[i].quantity;
      revenue := revenue + sales[i].total;
      i := i + 1;
    }
    assert sales[..i] == sales;
    r := Report(|sales|, tires, revenue, revenue / |sales|);
  }

  /** Both sums split over a concatenation of record lists. */
  lemma {:induction false} TotalsOfAppend(a: seq<Sale>, b: seq<Sale>)
    ensures TotalTires(a + b) == TotalTires(a) + TotalTires(b)
    ensures TotalRevenue(a + b) == TotalRevenue(a) + TotalRevenue(b)
  {
    if |b| == 0 {
      assert a + b == a;
    } else {
      var b' := b[..|b| - 1];
      assert (a + b)[..|a + b| - 1] == a + b';
      TotalsOfAppend(a, b');
    }
  }

  /** The sums are taken over exactly the records' quantities and totals. */
  lemma {:induction false} TotalsOfSingle(s: Sale)
    ensures TotalTires([s]) == s.quantity
    ensures TotalRevenue([s]) == s.total
  {
    assert [s][..0] == [];
  }

  /** Every customer buys at least one tire, so at least N tires are sold. */
  lemma {:induction false} TiresAtLeastClients(sales: seq<Sale>)
    requires ValidSession(sales)
    ensures TotalTires(sales) >= |sales|
  {
    if |sales| > 0 {
      TiresAtLeastClients(sales[..|sales| - 1]);
    }
  }

  /** Revenue lies between the cheapest and the dearest price times the tires sold. */
  lemma {:induction false} RevenueBounds(sales: seq<Sale>)
    requires ValidSession(sales)
    ensures SmallOrderPrice * TotalTires(sales) <= TotalRevenue(sales)
    ensures TotalRevenue(sales) <= LargeOrderPrice * TotalTires(sales)
  {
    if |sales| > 0 {
      var init, last := sales[..|sales| - 1], sales[|sales| - 1];
      RevenueBounds(init);
      assert SmallOrderPrice * last.quantity <= last.total <= LargeOrderPrice * last.quantity;
    }
  }

  /** If every total lies in [lo, hi], revenue lies in [lo * N, hi * N]. */
  lemma {:induction false} RevenueWithinTotals(sales: seq<Sale>, lo: int, hi: int)
    requires forall i :: 0 <= i < |sales| ==> lo <= sales[i].total <= hi
    ensures lo * |sales| <= TotalRevenue(sales) <= hi * |sales|
  {
    if |sales| > 0 {
      var k := |sales| - 1;
      RevenueWithinTotals(sales[..k], lo, hi);
      assert lo * |sales| == lo * k + lo && hi * |sales| == hi * k + hi;
    }
  }

  /** Rounding down keeps a lower bound: lo * n <= x gives lo <= x / n. */
  lemma DivKeepsLowerBound(x: nat, n: nat, lo: int)
    requires n >= 1 && lo * n <= x
    ensures lo <= x / n
  {
    var q, m := x / n, x % n;
    assert x == q * n + m && m < n;
    assert (lo - (q + 1)) * n == lo * n - (q + 1) * n < 0;
    NegativeFactor(lo - (q + 1), n);
  }

  /** A negative product with a positive factor has a negative other factor. */
  lemma NegativeFactor(a: int, n: int)
    requires n > 0
    ensures a * n < 0 ==> a < 0
  {
  }

  /** Rounding down keeps an upper bound: x <= hi * n gives x / n <= hi. */
  lemma DivKeepsUpperBound(x: nat, n: nat, hi: int)
    requires n >= 1 && x <= hi * n
    ensures x / n <= hi
  {
    var q, m := x / n, x % n;
    assert x == q * n + m && m >= 0;
  }

  /**
   The average per customer lies between the smallest and the largest
   customer total: whatever bounds hold of every total hold of the average.
   */
  lemma AverageWithinTotals(sales: seq<Sale>, lo: int, hi: int)
    requires |sales| >= 1
    requires forall i :: 0 <= i < |sales| ==> lo <= sales[i].total <= hi
    ensures lo <= Summarize(sales).average <= hi
  {
    RevenueWithinTotals(sales, lo, hi);
    DivKeepsLowerBound(TotalRevenue(sales), |sales|, lo);
    DivKeepsUpperBound(TotalRevenue(sales), |sales|, hi);
  }

  /** Every customer pays at least the small-order price, so the average does too. */
  lemma AverageAtLeastSmallOrderPrice(sales: seq<Sale>)
    requires |sales| >= 1 && ValidSession(sales)
    ensures Summarize(sales).average >= SmallOrderPrice
  {
    RevenueBounds(sales);
    TiresAtLeastClients(sales);
    assert SmallOrderPrice * |sales| <= SmallOrderPrice * TotalTires(sales);
    DivKeepsLowerBound(TotalRevenue(sales), |sales|, SmallOrderPrice);
  }

  /** With a single customer the average equals that customer's total. */
  lemma SingleCustomerAverage(s: Sale)
    ensures Summarize([s]).average == s.total
  {
    TotalsOfSingle(s);
  }

  /** Customers 1 and 2 buy 3 and 10 tires: 13 tires, 505000 pesos, 252500 on average. */
  lemma TwoCustomerExample()
    ensures SessionOf([3, 10])[0].total == 105000
    ensures SessionOf([3, 10])[1].total == 400000
    ensures Summarize(SessionOf([3, 10])) == Report(2, 13, 505000, 252500)
  {
    var sales := SessionOf([3, 10]);
    assert sales[..1] == [sales[0]];
    TotalsOfSingle(sales[0]);
  }

  /** One customer buys 15 tires at the large-order price: 675000 pesos, also the average. */
  lemma OneCustomerExample()
    ensures SessionOf([15])[0].unitPrice == 45000
    ensures Summarize(SessionOf([15])) == Report(1, 15, 675000, 675000)
  {
    TotalsOfSingle(SessionOf([15])[0]);
  }
}
