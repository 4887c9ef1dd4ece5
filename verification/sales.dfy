/**
 The transaction record (venta) built for one customer once a quantity has
 been accepted: customer number, quantity, unit price and total to pay.
 */
module Sales {

  import opened Pricing

  /** One customer's purchase. Built once, never changed. */
  datatype Sale = Sale(customer: nat, quantity: nat, unitPrice: nat, total: nat)

  /**
   The record invariant: a positive quantity, the unit price the schedule
   charges for it, and a total that is exactly quantity times unit price.
   */
  predicate WellFormed(s: Sale) {
    && s.quantity > 0
    && s.unitPrice == UnitPrice(s.quantity)
    && s.total == s.quantity * s.unitPrice
  }

  /**
   Prices an accepted quantity and builds the record for customer number
   `customer`. Only a quantity that left the retry loop, hence a positive
   one, is ever priced.
   */
  function MakeSale(customer: nat, quantity: nat): (s: Sale)
    requires quantity > 0
    ensures s.customer == customer && s.quantity == quantity
    ensures WellFormed(s)
    ensures IsTierPrice(s.unitPrice)
    ensures SmallOrderPrice * quantity <= s.total <= LargeOrderPrice * quantity
  {
    var price := UnitPrice(quantity);
    Sale(customer, quantity, price, quantity * price)
  }

  /** A well-formed record is determined by its customer number and quantity. */
  lemma WellFormedIsMakeSale(s: Sale)
    requires WellFormed(s)
    ensures s == MakeSale(s.customer, s.quantity)
  {
  }

  /**
   The total rises strictly with the quantity, across tier boundaries too:
   one more tire always costs more in total.
   */
  lemma TotalStrictlyIncreasing(customer: nat, q1: nat, q2: nat)
    requires 0 < q1 < q2
    ensures MakeSale(customer, q1).total < MakeSale(customer, q2).total
  {
    var p1, p2 := UnitPrice(q1), UnitPrice(q2);
    UnitPriceMonotone(q1, q2);
    assert q1 * p1 < q2 * p1 by {
      assert (q2 - q1) * p1 > 0;
    }
    assert q2 * p1 <= q2 * p2 by {
      assert q2 * (p2 - p1) >= 0;
    }
  }
}
