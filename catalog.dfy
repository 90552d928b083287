/**
 * The product catalog (the Factory pattern of the storefront): three product
 * classes with fixed name, unit price and unit weight, and a factory that
 * maps a menu number to a newly allocated product.
 */
module Catalog {
  import opened Wrappers

  /** The three concrete product classes: Laptop, Smartphone and TV. */
  datatype Kind = Laptop | Smartphone | TV {

    function Name(): (name: string)
    {
      match this
      case Laptop => "Laptop"
      case Smartphone => "Smartphone"
      case TV => "TV"
    }

    /** Unit price in dollars. */
    function Price(): (price: real)
      ensures price > 0.0
    {
      match this
      case Laptop => 800.0
      case Smartphone => 400.0
      case TV => 1000.0
    }

    /** Unit weight in kilograms. */
    function Weight(): (weight: real)
      ensures weight > 0.0
    {
      match this
      case Laptop => 2.5
      case Smartphone => 0.5
      case TV => 10.0
    }

    /** The number that selects this product in the factory switch. */
    function Id(): (id: int)
      ensures 1 <= id <= 3
    {
      match this
      case Laptop => 1
      case Smartphone => 2
      case TV => 3
    }
  }

  /**
   * A product object.  The Java product classes do not override equals or
   * hashCode, so a product is identified by its reference: two Laptop objects
   * are two distinct keys of the cart's table.
   */
  class Product {
    const kind: Kind

    constructor (kind: Kind)
      ensures this.kind == kind
    {
      this.kind := kind;
    }

    function Name(): (name: string) { kind.Name() }
    function Price(): (price: real) { kind.Price() }
    function Weight(): (weight: real) { kind.Weight() }
  }

  /** The factory switch: which product class a menu number selects, if any. */
  function Lookup(productId: int): (k: Option<Kind>)
    ensures k.Some? <==> 1 <= productId <= 3
    ensures k.Some? ==> k.value.Id() == productId
  {
    match productId
    case 1 => Some(Laptop)
    case 2 => Some(Smartphone)
    case 3 => Some(TV)
    case _ => None
  }

  /** Looking a product class up by its own number finds it again. */
  lemma {:induction false} LookupOfId(k: Kind)
    ensures Lookup(k.Id()) == Some(k)
  {
    match k
    case Laptop =>
    case Smartphone =>
    case TV =>
  }

  /** The fixed attribute triples of the catalog. */
  lemma CatalogEntries()
    ensures Lookup(1) == Some(Laptop) && Laptop.Name() == "Laptop" && Laptop.Price() == 800.0 && Laptop.Weight() == 2.5
    ensures Lookup(2) == Some(Smartphone) && Smartphone.Name() == "Smartphone" && Smartphone.Price() == 400.0 && Smartphone.Weight() == 0.5
    ensures Lookup(3) == Some(TV) && TV.Name() == "TV" && TV.Price() == 1000.0 && TV.Weight() == 10.0
  {
  }

  /**
   * ProductFactory.getProduct: a new product object for 1, 2 or 3, and null
   * for every other integer.
   */
  method GetProduct(productId: int) returns (p: Product?)
    ensures p == null <==> Lookup(productId) == None
    ensures p != null ==> fresh(p) && Lookup(productId) == Some(p.kind)
  {
    match productId
    case 1 => p := new Product(Laptop);
    case 2 => p := new Product(Smartphone);
    case 3 => p := new Product(TV);
    case _ => p := null;
  }
}
