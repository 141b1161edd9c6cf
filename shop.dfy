/** The catalogue and cart entities the storefront handlers read. */
module Shop {

  /** A catalogue product as the document store returns it. Prices are
      integer amounts (see README for non-integer prices). */
  datatype Product = Product(id: string, title: string, description: string, price: int, imageUrl: string)

  /** One cart entry after its product reference has been populated with
      the full product document. */
  datatype CartLine = CartLine(product: Product, quantity: int)
}
