/**
 * The state effects of the console session in class Main, with the console
 * taken out: each number the user types becomes a parameter, and what is
 * printed becomes a result.
 */
module Session {
  import opened Wrappers
  import opened Catalog
  import opened Shipping
  import opened Cart

  /**
   * Main.addProductToCart.  For a number the catalog does not know, nothing
   * changes.  Otherwise a fresh product object is made, a fresh email
   * observer is registered, every registered observer is notified (the new
   * one last), and the product is added; being a new object, it becomes a
   * new entry of count one.
   */
  method AddProductToCart(cart: ShoppingCart, productNumber: int)
    returns (selected: Product?, observer: ProductObserver?, notices: seq<Notice>)
    requires cart.Valid()
    modifies cart
    ensures cart.Valid()
    ensures selected == null <==> Lookup(productNumber) == None
    ensures selected == null ==>
      && observer == null && notices == []
      && cart.products == old(cart.products)
      && cart.productObservers == old(cart.productObservers)
    ensures selected != null ==>
      && fresh(selected) && Lookup(productNumber) == Some(selected.kind)
      && observer != null && fresh(observer)
      && cart.productObservers == old(cart.productObservers) + [observer]
      && selected !in old(cart.products)
      && cart.products == Added(old(cart.products), selected)
      && cart.products == old(cart.products)[selected := 1]
      && |cart.products| == |old(cart.products)| + 1
      && |notices| == |cart.productObservers|
      && (forall i :: 0 <= i < |notices| ==> notices[i] == Notice(cart.productObservers[i], selected))
  {
    selected := GetProduct(productNumber);
    if selected != null {
      observer := new ProductObserver();
      cart.AddProductObserver(observer);
      notices := cart.NotifyProductObservers(selected);
      cart.AddProduct(selected);
      assert cart.products.Keys == old(cart.products).Keys + {selected};
    } else {
      observer := null;
      notices := [];
    }
  }

  /** How many of the typed numbers name a catalog product. */
  function ValidCount(productNumbers: seq<int>): (n: nat)
  {
    if productNumbers == [] then 0
    else
      var last := productNumbers[|productNumbers| - 1];
      ValidCount(productNumbers[..|productNumbers| - 1]) + (if Lookup(last).Some? then 1 else 0)
  }

  /**
   * The menu loop when the user picks "add a product" once per number in
   * `productNumbers`: every valid number registers one more observer and
   * creates one more table entry, so after N valid adds from an empty cart
   * there are N observers and N entries.
   */
  method AddProductsToCart(cart: ShoppingCart, productNumbers: seq<int>)
    requires cart.Valid()
    modifies cart
    ensures cart.Valid()
    ensures |cart.productObservers| == |old(cart.productObservers)| + ValidCount(productNumbers)
    ensures |cart.products| == |old(cart.products)| + ValidCount(productNumbers)
    ensures forall q :: q in old(cart.products) ==> q in cart.products && cart.products[q] == old(cart.products)[q]
    ensures forall q :: q in cart.products && q !in old(cart.products) ==> cart.products[q] == 1
    ensures cart.productObservers[..|old(cart.productObservers)|] == old(cart.productObservers)
  {
    for i := 0 to |productNumbers|
      invariant cart.Valid()
      invariant |cart.productObservers| == |old(cart.productObservers)| + ValidCount(productNumbers[..i])
      invariant |cart.products| == |old(cart.products)| + ValidCount(productNumbers[..i])
      invariant forall q :: q in old(cart.products) ==> q in cart.products && cart.products[q] == old(cart.products)[q]
      invariant forall q :: q in cart.products && q !in old(cart.products) ==> cart.products[q] == 1
      invariant cart.productObservers[..|old(cart.productObservers)|] == old(cart.productObservers)
    {
      assert productNumbers[..i + 1][..i] == productNumbers[..i];
      var _, _, _ := AddProductToCart(cart, productNumbers[i]);
    }
    assert productNumbers[..|productNumbers|] == productNumbers;
  }

  /**
   * Main.promptShippingStrategy with the typed choice as a parameter: 1
   * selects standard delivery, every other integer (2, but also 0, -7 or 42)
   * selects express.
   */
  function PromptShippingStrategy(choice: int): (s: ShippingStrategy)
    ensures s == Standard <==> choice == 1
    ensures s == Express <==> choice != 1
  {
    if choice == 1 then Standard else Express
  }

  /**
   * Main.checkout: select the strategy from the typed choice, produce the
   * receipt of the cart as it stands, then clear the table.  The observers
   * stay registered.
   */
  method Checkout(cart: ShoppingCart, shippingChoice: int) returns (receipt: Receipt, order: seq<Product>)
    requires cart.Valid()
    modifies cart
    ensures cart.Valid()
    ensures receipt.totalWeight == Total(old(cart.products), ByWeight)
    ensures receipt.shippingCost == PromptShippingStrategy(shippingChoice).CalculateShippingCost(receipt.totalWeight)
    ensures receipt.totalCost == Total(old(cart.products), ByPrice) + receipt.shippingCost
    ensures |receipt.lines| == |order| == |old(cart.products)|
    ensures forall p :: p in old(cart.products) <==> p in order
    ensures forall i :: 0 <= i < |order| ==>
      order[i] in old(cart.products) && receipt.lines[i] == LineOf(order[i], old(cart.products)[order[i]])
    ensures cart.products == map[]
    ensures cart.productObservers == old(cart.productObservers)
  {
    var strategy := PromptShippingStrategy(shippingChoice);
    receipt, order := cart.Checkout(strategy);
    cart.ClearCart();
  }

  /**
   * A whole session: add a Laptop (1) and a TV (3), then check out with
   * standard shipping (1): 12.5 kg, $6.25 shipping, $1806.25 in all.
   */
  method LaptopAndTvStandard() returns (receipt: Receipt)
    ensures receipt.totalWeight == 12.5
    ensures receipt.shippingCost == 6.25
    ensures receipt.totalCost == 1806.25
    ensures |receipt.lines| == 2
  {
    var cart := new ShoppingCart();
    var laptop, _, _ := AddProductToCart(cart, 1);
    var tv, _, _ := AddProductToCart(cart, 3);
    TotalAdded(map[], ByWeight, laptop);
    TotalAdded(map[], ByPrice, laptop);
    TotalAdded(Added(map[], laptop), ByWeight, tv);
    TotalAdded(Added(map[], laptop), ByPrice, tv);
    var order;
    receipt, order := Checkout(cart, 1);
  }

  /**
   * Adding a Smartphone (2) twice makes two distinct entries of count one;
   * express shipping (2) gives 1.0 kg, $1.50 shipping and $801.50 in all.
   */
  method TwoSmartphonesExpress() returns (receipt: Receipt)
    ensures receipt.totalWeight == 1.0
    ensures receipt.shippingCost == 1.5
    ensures receipt.totalCost == 801.5
    ensures |receipt.lines| == 2
    ensures receipt.lines[0] == receipt.lines[1] == Line("Smartphone", 400.0, 1)
  {
    var cart := new ShoppingCart();
    var first, _, _ := AddProductToCart(cart, 2);
    var second, _, _ := AddProductToCart(cart, 2);
    TotalAdded(map[], ByWeight, first);
    TotalAdded(map[], ByPrice, first);
    TotalAdded(Added(map[], first), ByWeight, second);
    TotalAdded(Added(map[], first), ByPrice, second);
    var order;
    receipt, order := Checkout(cart, 2);
    assert order[0] in {first, second} && order[1] in {first, second};
  }

  /**
   * Observer growth: after N successful adds from a fresh cart, the N-th
   * add's notification reaches N observers, not one.
   */
  method ObserversGrowWithAdds(productNumbers: seq<int>) returns (notices: seq<Notice>)
    requires |productNumbers| > 0 && forall i :: 0 <= i < |productNumbers| ==> 1 <= productNumbers[i] <= 3
    ensures |notices| == |productNumbers|
  {
    var cart := new ShoppingCart();
    var last := |productNumbers| - 1;
    AllValidCount(productNumbers[..last]);
    AddProductsToCart(cart, productNumbers[..last]);
    var _, _, n := AddProductToCart(cart, productNumbers[last]);
    notices := n;
  }

  lemma {:induction false} AllValidCount(productNumbers: seq<int>)
    requires forall i :: 0 <= i < |productNumbers| ==> 1 <= productNumbers[i] <= 3
    ensures ValidCount(productNumbers) == |productNumbers|
  {
    if productNumbers != [] {
      AllValidCount(productNumbers[..|productNumbers| - 1]);
    }
  }
}
