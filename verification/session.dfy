/**
 The day's session (ventas del día): the records of customers 1..N, in the
 order they were served.
 */
module Session {

  import opened Pricing
  import opened Sales

  /** Customer numbers run 1..N with no gap, and every record is well formed. */
  predicate ValidSession(sales: seq<Sale>) {
    forall i :: 0 <= i < |sales| ==> sales[i].customer == i + 1 && WellFormed(sales[i])
  }

  /** True when every quantity in `quantities` is one the retry loop accepts. */
  predicate AllPositive(quantities: seq<int>) {
    forall i :: 0 <= i < |quantities| ==> quantities[i] > 0
  }

  /** The quantities of a session, in order. */
  function Quantities(sales: seq<Sale>): (qs: seq<nat>)
    ensures |qs| == |sales|
    ensures forall i :: 0 <= i < |sales| ==> qs[i] == sales[i].quantity
  {
    seq(|sales|, i requires 0 <= i < |sales| => sales[i].quantity)
  }

  /**
   The session that serving customers 1..N with the given accepted
   quantities produces: customer i + 1 buys `quantities[i]`.
   */
  function SessionOf(quantities: seq<nat>): (sales: seq<Sale>)
    requires AllPositive(quantities)
    ensures |sales| == |quantities|
    ensures ValidSession(sales)
    ensures Quantities(sales) == quantities
  {
    seq(|quantities|, i requires 0 <= i < |quantities| => MakeSale(i + 1, quantities[i]))
  }

  /** Serving one more customer appends that customer's record to the session. */
  lemma SessionOfAppend(quantities: seq<nat>, q: nat)
    requires AllPositive(quantities) && q > 0
    ensures AllPositive(quantities + [q])
    ensures SessionOf(quantities + [q]) == SessionOf(quantities) + [MakeSale(|quantities| + 1, q)]
  {
  }

  /**
   The customer loop with its quantities already read: serves customers
   1..N in order, appending one record per customer. It builds the same
   session as `SessionOf`, which is also what the input-driven loop
   `Billing.ServeCustomers` returns for the quantities it reads.
   */
  method BuildSession(quantities: seq<nat>) returns (sales: seq<Sale>)
    requires AllPositive(quantities)
    ensures |sales| == |quantities|
    ensures forall i :: 0 <= i < |sales| ==> sales[i] == MakeSale(i + 1, quantities[i])
    ensures ValidSession(sales)
    ensures sales == SessionOf(quantities)
  {
    sales := [];
    var customer := 1;
    while customer <= |quantities|
      invariant 1 <= customer <= |quantities| + 1
      invariant |sales| == customer - 1
      invariant forall i :: 0 <= i < |sales| ==> sales[i] == MakeSale(i + 1, quantities[i])
    {
      sales := sales + [MakeSale(customer, quantities[customer - 1])];
      customer := customer + 1;
    }
  }

  /**
   A sequence of records is a valid session exactly when it is the session
   built from its own quantities.
   */
  lemma ValidSessionIsSessionOf(sales: seq<Sale>)
    ensures ValidSession(sales) <==>
              AllPositive(Quantities(sales)) && sales == SessionOf(Quantities(sales))
  {
    if ValidSession(sales) {
      var qs := Quantities(sales);
      forall i | 0 <= i < |sales|
        ensures sales[i] == SessionOf(qs)[i]
      {
        WellFormedIsMakeSale(sales[i]);
      }
    }
  }
}
