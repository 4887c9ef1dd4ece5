/**
 Pricing rule of the Rueda Fácil billing tool: a three-tier step function
 from the number of tires (llantas) bought to the unit price in whole pesos.
 */
module Pricing {

  /** Unit price for fewer than `MediumFrom` tires. */
  const SmallOrderPrice: nat := 35000
  /** Unit price from `MediumFrom` to `MediumUpTo` tires, both inclusive. */
  const MediumOrderPrice: nat := 40000
  /** Unit price for more than `MediumUpTo` tires. */
  const LargeOrderPrice: nat := 45000

  /** The first quantity charged the medium price. */
  const MediumFrom: int := 5
  /** The last quantity charged the medium price. */
  const MediumUpTo: int := 10

  /** True of the three prices the schedule can charge, and of nothing else. */
  predicate IsTierPrice(price: int) {
    price == SmallOrderPrice || price == MediumOrderPrice || price == LargeOrderPrice
  }

  /**
   The unit price charged for `quantity` tires. Any integer is a legal
   argument, as in the source; callers only ever pass a positive one.
   */
  function UnitPrice(quantity: int): (price: nat)
    ensures quantity < MediumFrom <==> price == SmallOrderPrice
    ensures MediumFrom <= quantity <= MediumUpTo <==> price == MediumOrderPrice
    ensures MediumUpTo < quantity <==> price == LargeOrderPrice
    ensures IsTierPrice(price)
    ensures SmallOrderPrice <= price <= LargeOrderPrice
  {
    if quantity < MediumFrom then SmallOrderPrice
    else if quantity <= MediumUpTo then MediumOrderPrice
    else LargeOrderPrice
  }

  /** Buying more tires never lowers the unit price. */
  lemma UnitPriceMonotone(q1: int, q2: int)
    requires q1 <= q2
    ensures UnitPrice(q1) <= UnitPrice(q2)
  {
  }

  /** The unit price changes exactly at the two breakpoints, 4 to 5 and 10 to 11. */
  lemma UnitPriceChangesOnlyAtBreakpoints(q: int)
    ensures UnitPrice(q) != UnitPrice(q + 1) <==> q == MediumFrom - 1 || q == MediumUpTo
  {
  }

  /** Both 5 and 10 fall in the middle tier; 4 and 11 do not. */
  lemma UnitPriceBoundaries()
    ensures UnitPrice(4) == 35000
    ensures UnitPrice(5) == 40000
    ensures UnitPrice(10) == 40000
    ensures UnitPrice(11) == 45000
  {
  }
}
