/**
 * The shopping cart: a table from product objects to quantities, a list of
 * observers told about every product added, the two sums over the table and
 * the checkout receipt.
 */
module Cart {
  import opened Catalog
  import opened Shipping

  /** Which per-unit attribute a sum over the table adds up. */
  datatype Measure = ByWeight | ByPrice

  function Unit(p: Product, f: Measure): (u: real)
  {
    match f
    case ByWeight => p.Weight()
    case ByPrice => p.Price()
  }

  /** `products.getOrDefault(p, 0)`. */
  function Quantity(m: map<Product, nat>, p: Product): (q: nat)
  {
    if p in m then m[p] else 0
  }

  /** The table after one `addProduct(p)`: p's count goes up by one, nothing else changes. */
  function Added(m: map<Product, nat>, p: Product): (r: map<Product, nat>)
    ensures r.Keys == m.Keys + {p}
    ensures Quantity(r, p) == Quantity(m, p) + 1
    ensures r - {p} == m - {p}
  {
    m[p := Quantity(m, p) + 1]
  }

  /** The table after `n` calls of `addProduct(p)`. */
  function AddedTimes(m: map<Product, nat>, p: Product, n: nat): (r: map<Product, nat>)
  {
    if n == 0 then m else Added(AddedTimes(m, p, n - 1), p)
  }

  /** Every entry of a table the cart builds has a positive count. */
  ghost predicate PositiveCounts(m: map<Product, nat>)
  {
    forall p :: p in m ==> m[p] >= 1
  }

  /** Some entry of a non-empty table. */
  ghost function Pick(m: map<Product, nat>): (p: Product)
    requires m != map[]
    ensures p in m
  {
    var p :| p in m; p
  }

  lemma RemoveShrinks(m: map<Product, nat>, p: Product)
    requires p in m
    ensures |m - {p}| < |m|
  {
    assert (m - {p}).Keys == m.Keys - {p};
  }

  /**
   * Σ unit(p) × qty(p) over the table, the value of the Java stream sum
   * (calculateTotalWeight for ByWeight, calculateTotalCost for ByPrice).
   */
  ghost function Total(m: map<Product, nat>, f: Measure): (sum: real)
    decreases |m|
  {
    if m == map[] then 0.0
    else
      var p := Pick(m);
      RemoveShrinks(m, p);
      Unit(p, f) * m[p] as real + Total(m - {p}, f)
  }

  /**
   * The sum does not depend on the order in which entries are visited: any
   * entry can be taken out first.
   */
  lemma {:induction false} TotalRemove(m: map<Product, nat>, f: Measure, k: Product)
    requires k in m
    ensures Total(m, f) == Unit(k, f) * m[k] as real + Total(m - {k}, f)
    decreases |m|
  {
    var p := Pick(m);
    if p != k {
      RemoveShrinks(m, p);
      RemoveShrinks(m, k);
      TotalRemove(m - {p}, f, k);
      TotalRemove(m - {k}, f, p);
      assert m - {p} - {k} == m - {k} - {p};
    }
  }

  /** The sums over a table are never negative. */
  lemma {:induction false} TotalNonNegative(m: map<Product, nat>, f: Measure)
    ensures Total(m, f) >= 0.0
    decreases |m|
  {
    if m != map[] {
      var p := Pick(m);
      RemoveShrinks(m, p);
      TotalNonNegative(m - {p}, f);
    }
  }

  /** For a table the cart builds, a sum is zero exactly when the table is empty. */
  lemma {:induction false} TotalZeroIffEmpty(m: map<Product, nat>, f: Measure)
    requires PositiveCounts(m)
    ensures Total(m, f) == 0.0 <==> m == map[]
  {
    if m != map[] {
      var p := Pick(m);
      RemoveShrinks(m, p);
      TotalNonNegative(m - {p}, f);
      assert Unit(p, f) > 0.0;
      assert Unit(p, f) * m[p] as real >= Unit(p, f);
    }
  }

  /** `addProduct(p)` raises the total weight by p's weight and the total cost by p's price. */
  lemma {:induction false} TotalAdded(m: map<Product, nat>, f: Measure, p: Product)
    ensures Total(Added(m, p), f) == Total(m, f) + Unit(p, f)
  {
    var r := Added(m, p);
    TotalRemove(r, f, p);
    assert r - {p} == m - {p};
    if p in m {
      TotalRemove(m, f, p);
    } else {
      assert m - {p} == m;
    }
  }

  /** `n` calls of `addProduct(p)` leave p with its old count plus `n` and touch no other entry. */
  lemma {:induction false} AddedTimesQuantity(m: map<Product, nat>, p: Product, n: nat)
    ensures Quantity(AddedTimes(m, p, n), p) == Quantity(m, p) + n
    ensures forall q :: q != p ==> Quantity(AddedTimes(m, p, n), q) == Quantity(m, q)
  {
    if n > 0 {
      AddedTimesQuantity(m, p, n - 1);
    }
  }

  /** The sums are linear in the count: `n` adds of p contribute `n` times p's unit value. */
  lemma {:induction false} AddedTimesTotal(m: map<Product, nat>, f: Measure, p: Product, n: nat)
    ensures Total(AddedTimes(m, p, n), f) == Total(m, f) + n as real * Unit(p, f)
  {
    if n > 0 {
      AddedTimesTotal(m, f, p, n - 1);
      TotalAdded(AddedTimes(m, p, n - 1), f, p);
    }
  }

  /**
   * An EmailProductObserver.  Its update only prints a message, so an
   * observer is an opaque object and notifying it is recorded as a Notice.
   */
  class ProductObserver {
    constructor ()
    {
    }
  }

  /** One call `observer.update(product)`. */
  datatype Notice = Notice(observer: ProductObserver, product: Product)

  /** One printed line of the checkout listing: name, unit price and quantity. */
  datatype Line = Line(name: string, price: real, quantity: nat)

  function LineOf(p: Product, quantity: nat): (line: Line)
  {
    Line(p.Name(), p.Price(), quantity)
  }

  /** What checkout prints: the listing and the three amounts. */
  datatype Receipt = Receipt(lines: seq<Line>, totalWeight: real, shippingCost: real, totalCost: real)

  class ShoppingCart {
    var products: map<Product, nat>
    var productObservers: seq<ProductObserver>

    /** Every count in the table is at least one. */
    ghost predicate Valid()
      reads this
    {
      PositiveCounts(products)
    }

    constructor ()
      ensures Valid()
      ensures products == map[] && productObservers == []
    {
      products := map[];
      productObservers := [];
    }

    method AddProduct(p: Product)
      requires Valid()
      modifies this
      ensures Valid()
      ensures products == Added(old(products), p)
      ensures productObservers == old(productObservers)
    {
      products := Added(products, p);
    }

    /** Appends the observer, with no check for one already registered. */
    method AddProductObserver(observer: ProductObserver)
      modifies this
      ensures productObservers == old(productObservers) + [observer]
      ensures products == old(products)
    {
      productObservers := productObservers + [observer];
    }

    /** Calls every registered observer once, in registration order; the cart is not changed. */
    method NotifyProductObservers(p: Product) returns (notices: seq<Notice>)
      ensures |notices| == |productObservers|
      ensures forall i :: 0 <= i < |notices| ==> notices[i] == Notice(productObservers[i], p)
    {
      notices := [];
      for i := 0 to |productObservers|
        invariant |notices| == i
        invariant forall j :: 0 <= j < i ==> notices[j] == Notice(productObservers[j], p)
      {
        notices := notices + [Notice(productObservers[i], p)];
      }
    }

    /** The stream sum over the table's entries, visited in an unspecified order. */
    method SumOver(f: Measure) returns (sum: real)
      ensures sum == Total(products, f)
    {
      var rest := products;
      sum := 0.0;
      while rest != map[]
        invariant sum + Total(rest, f) == Total(products, f)
        decreases |rest|
      {
        var p :| p in rest;
        TotalRemove(rest, f, p);
        RemoveShrinks(rest, p);
        sum := sum + Unit(p, f) * rest[p] as real;
        rest := rest - {p};
      }
    }

    method CalculateTotalWeight() returns (weight: real)
      ensures weight == Total(products, ByWeight)
      ensures weight >= 0.0
    {
      weight := SumOver(ByWeight);
      TotalNonNegative(products, ByWeight);
    }

    method CalculateTotalCost() returns (cost: real)
      ensures cost == Total(products, ByPrice)
      ensures cost >= 0.0
    {
      cost := SumOver(ByPrice);
      TotalNonNegative(products, ByPrice);
    }

    /**
     * The receipt for the cart under a shipping strategy.  `order` is the
     * order in which the table's entries are listed: every entry once, in an
     * order the hash table decides.  The cart is not changed.
     */
    method Checkout(strategy: ShippingStrategy) returns (receipt: Receipt, order: seq<Product>)
      requires Valid()
      ensures receipt.totalWeight == Total(products, ByWeight)
      ensures receipt.shippingCost == strategy.CalculateShippingCost(receipt.totalWeight)
      ensures receipt.totalCost == Total(products, ByPrice) + receipt.shippingCost
      ensures receipt.totalCost >= 0.0
      ensures forall i, j :: 0 <= i < j < |order| ==> order[i] != order[j]
      ensures forall p :: p in products <==> p in order
      ensures |receipt.lines| == |order| == |products|
      ensures forall i :: 0 <= i < |order| ==> order[i] in products && receipt.lines[i] == LineOf(order[i], products[order[i]])
      ensures forall i :: 0 <= i < |order| ==> receipt.lines[i].quantity >= 1
    {
      var totalWeight := CalculateTotalWeight();
      var shippingCost := strategy.CalculateShippingCost(totalWeight);

      var lines: seq<Line> := [];
      var rest := products;
      order := [];
      while rest != map[]
        invariant forall p :: p in products <==> p in rest || p in order
        invariant forall p :: p in rest ==> p !in order && rest[p] == products[p]
        invariant forall i, j :: 0 <= i < j < |order| ==> order[i] != order[j]
        invariant |lines| == |order| == |products| - |rest|
        invariant forall i :: 0 <= i < |order| ==> order[i] in products && lines[i] == LineOf(order[i], products[order[i]])
        decreases |rest|
      {
        var p :| p in rest;
        RemoveShrinks(rest, p);
        assert |rest - {p}| == |rest| - 1 by {
          assert (rest - {p}).Keys == rest.Keys - {p};
        }
        lines := lines + [LineOf(p, rest[p])];
        order := order + [p];
        rest := rest - {p};
      }

      var totalCost := CalculateTotalCost();
      receipt := Receipt(lines, totalWeight, shippingCost, totalCost + shippingCost);
    }

    /** Empties the table; the registered observers stay registered. */
    method ClearCart()
      modifies this
      ensures Valid()
      ensures products == map[] && productObservers == old(productObservers)
      ensures Total(products, ByWeight) == 0.0 && Total(products, ByPrice) == 0.0
    {
      products := map[];
    }
  }
}
