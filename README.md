# Shopping cart core of the design-patterns storefront

This project models the in-memory logic of a small console storefront written in Java (`SE-2218_Sayat_Diana/src/Main.java`) and proves properties of it in Dafny. The storefront shows six design patterns. The parts modelled are these:

- **Product catalog.** The factory maps menu number 1, 2 or 3 to a newly allocated Laptop ($800.0, 2.5 kg), Smartphone ($400.0, 0.5 kg) or TV ($1000.0, 10.0 kg). Every other number gives null (`Catalog`).
- **Shipping strategies.** Standard costs 0.5 per kg and Express costs 1.5 per kg (`Shipping`).
- **The single shopping cart** (`Cart.ShoppingCart`):
  - a table from product objects to counts;
  - an ordered list of observers;
  - add, clear, notify;
  - the two stream sums (total weight, total cost);
  - the checkout receipt.
- **The console session's state effects** (`Session`): adding a product by number, checking out with a typed shipping choice, and the rule that picks the strategy from that choice.

Files:

| file | module | models |
|---|---|---|
| `wrappers.dfy` | `Wrappers` | `Option`, standing for a nullable result |
| `shipping.dfy` | `Shipping` | `ShippingStrategy` and its two implementations |
| `catalog.dfy` | `Catalog` | the product classes, the `Product` object, `ProductFactory.getProduct` |
| `cart.dfy` | `Cart` | `ShoppingCart`, the observers, the sums and the lemmas about them |
| `session.dfy` | `Session` | `Main.addProductToCart`, `Main.checkout`, `Main.promptShippingStrategy`, and sample sessions |

Modelling decisions:

- **Product identity is object identity.** The Java product classes do not override `equals` or `hashCode`, and `getProduct` allocates a new object on every call. So `Product` is a Dafny class, and the cart's table is a `map<Product, nat>` keyed by reference. Adding "Laptop" twice through the menu gives two entries of count one. `addProduct` only increments a count when it is given the same reference again.
- **The stream sums.** `Cart.Total` is a ghost sum over the table, defined by taking out any one entry. `Cart.TotalRemove` proves that the entry taken out first does not change the result. `ShoppingCart.SumOver` is the loop over the entries, visited in an arbitrary order, and it is proved equal to `Total`.
- **Amounts are exact `real`s.** Every literal in the Java code (0.5, 1.5, 2.5, 800.0, 400.0, 1000.0, 10.0) is exact in binary, so on the program's own data the exact results are the doubles the Java code prints.
- **Notification.** An observer is an opaque object; its `update` only prints. Notification returns the list of `Notice(observer, product)` calls it makes, in order.
- **Checkout prints nothing.** It returns a `Receipt` (the listing lines and the three amounts) together with the order in which the table's entries were listed.
- **Reference identity has consequences.** Products are keyed by reference, so every menu add creates a new entry of count one. Every successful add also registers one more observer, and `Session.ObserversGrowWithAdds` proves that the N-th add notifies N observers.

## Model

| member | source | states |
|---|---|---|
| `Shipping.ShippingStrategy.CalculateShippingCost` | SE-2218_Sayat_Diana/src/Main.java:4-20 | the shipping cost of a non-negative weight is non-negative, and zero weight ships for free |
| `Shipping.CostIsProportional` | SE-2218_Sayat_Diana/src/Main.java:8-20 | each strategy charges a fixed rate per kg: cost(w) = w × cost(1), with 0.5 per kg for Standard and 1.5 per kg for Express |
| `Shipping.CostIsMonotone` | SE-2218_Sayat_Diana/src/Main.java:8-20 | under either strategy, a heavier cart never ships for less (for non-negative weights) |
| `Catalog.Kind.Price` | SE-2218_Sayat_Diana/src/Main.java:126-175 | every unit price is positive |
| `Catalog.Kind.Weight` | SE-2218_Sayat_Diana/src/Main.java:126-175 | every unit weight is positive |
| `Catalog.Kind.Id` | SE-2218_Sayat_Diana/src/Main.java:178-184 | each product class has a factory number in 1..3 |
| `Catalog.Lookup` | SE-2218_Sayat_Diana/src/Main.java:176-189 | the factory switch yields a product class exactly for 1..3 (null for every other int), and the class found has the number it was looked up by |
| `Catalog.LookupOfId` | SE-2218_Sayat_Diana/src/Main.java:178-184 | round trip: looking a product class up by its own number finds it again |
| `Catalog.CatalogEntries` | SE-2218_Sayat_Diana/src/Main.java:126-189 | 1 gives ("Laptop", 800.0, 2.5), 2 gives ("Smartphone", 400.0, 0.5), 3 gives ("TV", 1000.0, 10.0) |
| `Catalog.GetProduct` | SE-2218_Sayat_Diana/src/Main.java:176-189 | returns null exactly when the lookup finds nothing; otherwise returns a freshly allocated product of the class looked up |
| `Cart.Added` | SE-2218_Sayat_Diana/src/Main.java:40-42 | one add raises that product's count (0 if absent) by one, keeps every other entry, and adds the product to the keys |
| `Cart.AddedTimesQuantity` | SE-2218_Sayat_Diana/src/Main.java:40-42 | n adds of the same reference give that reference its old count plus n and leave every other count unchanged |
| `Cart.TotalRemove` | SE-2218_Sayat_Diana/src/Main.java:70-76 | the sum over the table does not depend on visiting order: any entry can be taken out first |
| `Cart.TotalNonNegative` | SE-2218_Sayat_Diana/src/Main.java:70-76 | total weight and total cost are never negative |
| `Cart.TotalZeroIffEmpty` | SE-2218_Sayat_Diana/src/Main.java:70-80 | for a table with positive counts, a total is zero if and only if the table is empty |
| `Cart.TotalAdded` | SE-2218_Sayat_Diana/src/Main.java:40-42 | after addProduct(p), total weight rises by exactly p's weight and total cost by exactly p's price |
| `Cart.AddedTimesTotal` | SE-2218_Sayat_Diana/src/Main.java:70-76 | the totals are linear in a product's count: n adds of p contribute n × p's unit weight or price |
| `Cart.ShoppingCart.constructor` | SE-2218_Sayat_Diana/src/Main.java:28-31 | a new cart has an empty table and no observers |
| `Cart.ShoppingCart.AddProduct` | SE-2218_Sayat_Diana/src/Main.java:40-42 | the table becomes its old value with p's count raised by one; the observers are unchanged; all counts stay positive |
| `Cart.ShoppingCart.AddProductObserver` | SE-2218_Sayat_Diana/src/Main.java:60-62 | appends the observer at the end with no de-duplication; the table is unchanged |
| `Cart.ShoppingCart.NotifyProductObservers` | SE-2218_Sayat_Diana/src/Main.java:64-68 | calls each registered observer exactly once per registration, in list order, with the product; changes nothing |
| `Cart.ShoppingCart.SumOver` | SE-2218_Sayat_Diana/src/Main.java:70-76 | the loop over the entries, in any order, computes Σ unit value × count |
| `Cart.ShoppingCart.CalculateTotalWeight` | SE-2218_Sayat_Diana/src/Main.java:70-72 | returns Σ weight(p) × qty(p) over the table, and it is non-negative |
| `Cart.ShoppingCart.CalculateTotalCost` | SE-2218_Sayat_Diana/src/Main.java:74-76 | returns Σ price(p) × qty(p) over the table, and it is non-negative |
| `Cart.ShoppingCart.Checkout` | SE-2218_Sayat_Diana/src/Main.java:44-58 | the receipt's weight is the total weight; its shipping cost is the strategy's cost of that weight; its total is total cost plus shipping; it lists every entry exactly once as (name, price, count ≥ 1) in some order; the cart is not changed |
| `Cart.ShoppingCart.ClearCart` | SE-2218_Sayat_Diana/src/Main.java:78-80 | empties the table, so both totals are 0, and keeps the observer list exactly as it was |
| `Session.AddProductToCart` | SE-2218_Sayat_Diana/src/Main.java:236-269 | an invalid number changes nothing and notifies no one. A valid one appends one fresh observer, notifies every observer in order (the new one last), and adds one new entry of count one, because the product reference is fresh |
| `Session.AddProductsToCart` | SE-2218_Sayat_Diana/src/Main.java:211-224 | repeated menu adds register one observer and create one entry per valid number, so after N valid adds from an empty cart there are N of each. Every earlier entry keeps its count, every new entry has count one, and the earlier observers stay in place at the front of the list |
| `Session.PromptShippingStrategy` | SE-2218_Sayat_Diana/src/Main.java:286-292 | Standard if and only if the choice is 1; Express for every other integer |
| `Session.Checkout` | SE-2218_Sayat_Diana/src/Main.java:271-284 | the receipt is computed on the cart as it was, under the strategy selected by the choice; afterwards the table is empty and the observers are unchanged |
| `Session.LaptopAndTvStandard` | SE-2218_Sayat_Diana/src/Main.java:236-284 | adding Laptop and TV, then checking out with Standard, gives weight 12.5, shipping 6.25, total 1806.25, two lines |
| `Session.TwoSmartphonesExpress` | SE-2218_Sayat_Diana/src/Main.java:236-284 | adding Smartphone twice gives two distinct entries of count one; Express checkout gives weight 1.0, shipping 1.5, total 801.5 |
| `Session.ObserversGrowWithAdds` | SE-2218_Sayat_Diana/src/Main.java:257-262 | after N successful adds from a fresh cart, the N-th add's notification reaches N observers |

## Left out

- Console I/O. The `Scanner` reads are left out: typed numbers become parameters. All printing is left out: the checkout listing and totals become a `Receipt`. The free-text payment details are read and then discarded. The delivery address is read and only echoed. Neither is used, so both are left out.
- The menu loop as a whole. `Session.AddProductsToCart` models option 1 chosen repeatedly, and `Session.Checkout` models option 2. Option 3 (`System.exit`) and the "invalid choice" branch only print or terminate, so they are left out.
- A non-integer typed at a prompt makes `Scanner.nextInt` throw and end the process. This is not modelled.
- `CreditCardPaymentAdapter.processPayment` only prints the product's price; it has no state effect.
- `EmailProductObserver.update` only prints; an observer is an opaque object.
- `ShoppingCart.getInstance` and its `synchronized` lazy creation. The model works on one cart object made by the constructor; there is no concurrency.
- `ProductDecorator`: abstract, never subclassed and never used.
- HashMap iteration order. `ShoppingCart.Checkout` returns the listing order it used and says only that it lists each entry exactly once.
- Cart.AddedTimesQuantity: the counts are unbounded `nat`s. Java keeps them as `Integer`, where `getOrDefault(p, 0) + 1` wraps to a negative value after 2^31 − 1 adds of the same reference. That overflow is not modelled, and neither `PositiveCounts` nor "old count plus n" holds past it in the source. The menu never reaches it, because every menu add uses a fresh reference.
- IEEE double rounding. Amounts are exact reals; on the catalog's own values they agree with the doubles.
- Shipping.ShippingStrategy.CalculateShippingCost: its own contract states only non-negativity; the exact per-kg rates are stated by `Shipping.CostIsProportional`.
