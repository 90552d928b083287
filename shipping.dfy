/**
 * Shipping strategies (the Strategy pattern of the storefront): each one maps
 * the total weight of a cart to the cost of shipping it.  Amounts are exact
 * reals; the Java code computes them in IEEE doubles.
 */
module Shipping {

  /** The closed set of shipping policies: standard and express delivery. */
  datatype ShippingStrategy = Standard | Express {

    /** The cost of shipping `weight` kilograms under this policy. */
    function CalculateShippingCost(weight: real): (cost: real)
      ensures weight >= 0.0 ==> cost >= 0.0
      ensures weight == 0.0 ==> cost == 0.0
    {
      match this
      case Standard => weight * 0.5
      case Express => weight * 1.5
    }
  }

  /** Each policy charges a fixed price per kilogram: the cost is proportional to the weight. */
  lemma CostIsProportional(s: ShippingStrategy, weight: real)
    ensures s.CalculateShippingCost(weight) == weight * s.CalculateShippingCost(1.0)
    ensures Standard.CalculateShippingCost(1.0) == 0.5
    ensures Express.CalculateShippingCost(1.0) == 1.5
  {
  }

  /** A heavier cart never ships for less. */
  lemma CostIsMonotone(s: ShippingStrategy, w1: real, w2: real)
    requires 0.0 <= w1 <= w2
    ensures s.CalculateShippingCost(w1) <= s.CalculateShippingCost(w2)
  {
  }
}
