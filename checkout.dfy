/** The checkout summary (controllers/shop.js, getcheckout): the running
    total shown on the page and the line items sent to the payment service. */
module Checkout {
  import opened Shop

  /** The displayed total as the handler computes it: the unit prices of
      the cart lines added left to right, quantities not multiplied in. */
  function SumPrices(lines: seq<CartLine>): int {
    if lines == [] then 0 else SumPrices(lines[..|lines| - 1]) + lines[|lines| - 1].product.price
  }

  /** `let totalprice = 0; products.forEach(p => totalprice += p.productId.price)`. */
  method CheckoutTotal(lines: seq<CartLine>) returns (total: int)
    ensures total == SumPrices(lines)
  {
    total := 0;
    var i := 0;
    while i < |lines|
      invariant 0 <= i <= |lines|
      invariant total == SumPrices(lines[..i])
    {
      assert lines[..i + 1][..i] == lines[..i];
      total := total + lines[i].product.price;
      i := i + 1;
    }
    assert lines[..i] == lines;
  }

  lemma {:induction false} SumPricesAppend(a: seq<CartLine>, b: seq<CartLine>)
    ensures SumPrices(a + b) == SumPrices(a) + SumPrices(b)
    decreases |b|
  {
    if b != [] {
      var b' := b[..|b| - 1];
      assert (a + b)[..|a + b| - 1] == a + b';
      SumPricesAppend(a, b');
    } else {
      assert a + b == a;
    }
  }

  /** Quantities play no part in the displayed total: two carts with the
      same products in the same order show the same total. */
  lemma {:induction false} TotalIgnoresQuantity(a: seq<CartLine>, b: seq<CartLine>)
    requires |a| == |b|
    requires forall i :: 0 <= i < |a| ==> a[i].product == b[i].product
    ensures SumPrices(a) == SumPrices(b)
    decreases |a|
  {
    if a != [] {
      TotalIgnoresQuantity(a[..|a| - 1], b[..|b| - 1]);
    }
  }

  /** One entry of the payment session's `line_items`. */
  datatype LineItem = LineItem(name: string, description: string, amount: int, currency: string, quantity: int)

  const Currency: string := "usd"

  function ToLineItem(line: CartLine): LineItem {
    LineItem(line.product.title, line.product.description, line.product.price, Currency, line.quantity)
  }

  /** `products.map(p => ({name, description, amount, currency, quantity}))`. */
  function LineItems(lines: seq<CartLine>): (items: seq<LineItem>)
    ensures |items| == |lines|
    ensures forall i :: 0 <= i < |lines| ==>
      && items[i].name == lines[i].product.title
      && items[i].description == lines[i].product.description
      && items[i].amount == lines[i].product.price
      && items[i].currency == "usd"
      && items[i].quantity == lines[i].quantity
  {
    if lines == [] then [] else LineItems(lines[..|lines| - 1]) + [ToLineItem(lines[|lines| - 1])]
  }

  /** Sum of the unit amounts of some line items. */
  function SumAmounts(items: seq<LineItem>): int {
    if items == [] then 0 else SumAmounts(items[..|items| - 1]) + items[|items| - 1].amount
  }

  /** What the payment service charges for some line items: each unit
      amount times its quantity. */
  function Charged(items: seq<LineItem>): int {
    if items == [] then 0
    else Charged(items[..|items| - 1]) + items[|items| - 1].amount * items[|items| - 1].quantity
  }

  /** The displayed total is the sum of the line items' unit amounts. */
  lemma {:induction false} TotalIsSumOfAmounts(lines: seq<CartLine>)
    ensures SumPrices(lines) == SumAmounts(LineItems(lines))
  {
    if lines != [] {
      var items := LineItems(lines);
      assert items[..|items| - 1] == LineItems(lines[..|lines| - 1]);
      TotalIsSumOfAmounts(lines[..|lines| - 1]);
    }
  }

  /** The order value the checkout page evidently means to show: unit price
      times quantity, summed over the cart. */
  function OrderValue(lines: seq<CartLine>): int {
    if lines == [] then 0
    else OrderValue(lines[..|lines| - 1]) + lines[|lines| - 1].product.price * lines[|lines| - 1].quantity
  }

  /** The corrected total is what the payment service charges. */
  lemma {:induction false} OrderValueIsCharged(lines: seq<CartLine>)
    ensures OrderValue(lines) == Charged(LineItems(lines))
  {
    if lines != [] {
      var items := LineItems(lines);
      assert items[..|items| - 1] == LineItems(lines[..|lines| - 1]);
      OrderValueIsCharged(lines[..|lines| - 1]);
    }
  }

  /** The running total with quantities multiplied in. */
  method CorrectedCheckoutTotal(lines: seq<CartLine>) returns (total: int)
    ensures total == Charged(LineItems(lines))
  {
    total := 0;
    var i := 0;
    while i < |lines|
      invariant 0 <= i <= |lines|
      invariant total == OrderValue(lines[..i])
    {
      assert lines[..i + 1][..i] == lines[..i];
      total := total + lines[i].product.price * lines[i].quantity;
      i := i + 1;
    }
    assert lines[..i] == lines;
    OrderValueIsCharged(lines);
  }

  /** As written, the displayed total differs from the charge as soon as a
      line has a quantity other than one: one product at 10, quantity 2,
      shows 10 and is charged 20. */
  lemma DisplayedTotalMissesQuantity()
    ensures var cart := [CartLine(Product("p1", "Book", "A book", 10, "book.png"), 2)];
      SumPrices(cart) == 10 && Charged(LineItems(cart)) == 20
  {
  }
}
