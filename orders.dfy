/** Order placement (controllers/shop.js, postOrder): the cart is copied
    into an order as a snapshot of quantities and product documents. */
module Orders {
  import opened Shop

  /** One ordered product: its quantity and a copy of the product document
      taken when the order was placed. */
  datatype OrderLine = OrderLine(quantity: int, product: Product)

  /** A stored order, owned by the user id it was placed under. */
  datatype Order = Order(id: string, userId: string, email: string, products: seq<OrderLine>)

  /** `user.cart.items.map(i => ({quantity: i.quantity, product: {...i.productId._doc}}))`. */
  function Snapshot(cart: seq<CartLine>): (lines: seq<OrderLine>)
    ensures |lines| == |cart|
    ensures forall i :: 0 <= i < |cart| ==>
      lines[i].quantity == cart[i].quantity && lines[i].product == cart[i].product
  {
    if cart == [] then []
    else Snapshot(cart[..|cart| - 1]) + [OrderLine(cart[|cart| - 1].quantity, cart[|cart| - 1].product)]
  }

  /** The cart an order's lines were taken from. */
  function CartOf(lines: seq<OrderLine>): (cart: seq<CartLine>)
    ensures |cart| == |lines|
    ensures forall i :: 0 <= i < |lines| ==>
      cart[i].quantity == lines[i].quantity && cart[i].product == lines[i].product
  {
    if lines == [] then []
    else CartOf(lines[..|lines| - 1]) + [CartLine(lines[|lines| - 1].product, lines[|lines| - 1].quantity)]
  }

  /** The snapshot loses nothing: the cart can be read back from it. */
  lemma SnapshotRoundTrip(cart: seq<CartLine>)
    ensures CartOf(Snapshot(cart)) == cart
  {
  }

  /** The order document built from the current user and their cart; `id`
      is the identifier the store layer assigns when the order document is
      built, before it is saved. */
  function NewOrder(id: string, userId: string, email: string, cart: seq<CartLine>): (o: Order)
    ensures o.id == id && o.userId == userId && o.email == email
    ensures CartOf(o.products) == cart
  {
    SnapshotRoundTrip(cart);
    Order(id, userId, email, Snapshot(cart))
  }
}
