/** The invoice download (controllers/shop.js, getInvoice): the ownership
    guard, the invoice file name and the text lines written to the PDF. */
module Invoice {
  import opened Wrappers
  import opened Decimal
  import opened Shop
  import opened Orders

  /** Why an invoice request is refused. */
  datatype InvoiceError = NoOrderFound | Unauthorized

  /** The message of the error passed on to the error handler. */
  function Message(e: InvoiceError): (m: string)
    ensures m == "No order found." <==> e == NoOrderFound
    ensures m == "Unauthorized" <==> e == Unauthorized
  {
    match e
    case NoOrderFound => "No order found."
    case Unauthorized => "Unauthorized"
  }

  /** What a granted request produces: the file name the PDF is stored and
      served under, and the text lines written into it, in order. */
  datatype InvoiceDoc = InvoiceDoc(fileName: string, lines: seq<string>)

  /** The first three lines of every invoice. */
  const Header: seq<string> := ["hello here is your invoice", "Invoice", "--------------------------"]

  /** The guard: an absent order is reported first, then an order owned by
      someone other than the requester. */
  function Authorize(found: Option<Order>, requesterId: string): (r: Result<Order, InvoiceError>)
    ensures found.None? ==> r == Failure(NoOrderFound)
    ensures found.Some? && found.value.userId != requesterId ==> r == Failure(Unauthorized)
    ensures r.Success? <==> found.Some? && found.value.userId == requesterId
    ensures r.Success? ==> r.value == found.value
  {
    match found
    case None => Failure(NoOrderFound)
    case Some(order) => if order.userId != requesterId then Failure(Unauthorized) else Success(order)
  }

  const NamePrefix: string := "invoice-"
  const NameSuffix: string := ".pdf"

  /** `'invoice-' + orderId + '.pdf'`. */
  function InvoiceFileName(orderId: string): (name: string)
    ensures |name| == |orderId| + 12
    ensures OrderIdOfFileName(name) == Some(orderId)
  {
    var name := NamePrefix + orderId + NameSuffix;
    assert name[..|NamePrefix|] == NamePrefix;
    assert name[|name| - |NameSuffix|..] == NameSuffix;
    assert name[|NamePrefix|..|name| - |NameSuffix|] == orderId;
    name
  }

  /** The order id an invoice file name was made from, if it is one. */
  function OrderIdOfFileName(name: string): Option<string> {
    if |name| >= |NamePrefix| + |NameSuffix|
       && name[..|NamePrefix|] == NamePrefix
       && name[|name| - |NameSuffix|..] == NameSuffix
    then Some(name[|NamePrefix|..|name| - |NameSuffix|])
    else None
  }

  /** Distinct orders never share an invoice file. */
  lemma InvoiceFileNameInjective(a: string, b: string)
    requires InvoiceFileName(a) == InvoiceFileName(b)
    ensures a == b
  {
  }

  /** `prod.quantity + '$' + prod.product.price`. */
  function ProductLine(line: OrderLine): string {
    IntToString(line.quantity) + "$" + IntToString(line.product.price)
  }

  /** Position of the first occurrence of `c` in `s`. */
  function IndexOf(s: string, c: char): (r: Option<nat>)
    ensures r.Some? ==> r.value < |s| && s[r.value] == c && c !in s[..r.value]
    ensures r.None? ==> c !in s
  {
    if s == [] then None
    else if s[0] == c then Some(0)
    else match IndexOf(s[1..], c)
      case None => None
      case Some(k) => assert s[..k + 1] == [s[0]] + s[1..][..k]; Some(k + 1)
  }

  /** Reads a product line back into (quantity, price). */
  function ParseProductLine(text: string): Option<(int, int)> {
    match IndexOf(text, '$')
    case None => None
    case Some(k) =>
      match (ParseInt(text[..k]), ParseInt(text[k + 1..]))
      case (Some(q), Some(p)) => Some((q, p))
      case _ => None
  }

  /** A product line states its quantity and unit price unambiguously. */
  lemma ProductLineRoundTrip(line: OrderLine)
    ensures ParseProductLine(ProductLine(line)) == Some((line.quantity, line.product.price))
  {
    var q, p := IntToString(line.quantity), IntToString(line.product.price);
    var text := ProductLine(line);
    var r := IndexOf(text, '$');
    assert text[|q|] == '$';
    assert r.Some? && r.value == |q|;
    assert text[..|q|] == q;
    assert text[|q| + 1..] == p;
    IntToStringRoundTrip(line.quantity);
    IntToStringRoundTrip(line.product.price);
  }

  /** The product lines of an invoice, one per ordered product. */
  function ProductLines(products: seq<OrderLine>): (lines: seq<string>)
    ensures |lines| == |products|
    ensures forall i :: 0 <= i < |products| ==> lines[i] == ProductLine(products[i])
  {
    if products == [] then []
    else ProductLines(products[..|products| - 1]) + [ProductLine(products[|products| - 1])]
  }

  /** The getInvoice decision and the text pass: the guard returns early
      on a missing or foreign order; otherwise the three heading lines are
      written, then one line per ordered product. */
  method GetInvoice(orderId: string, found: Option<Order>, requesterId: string)
    returns (r: Result<InvoiceDoc, InvoiceError>)
    ensures found.None? ==> r == Failure(NoOrderFound)
    ensures found.Some? && found.value.userId != requesterId ==> r == Failure(Unauthorized)
    ensures r.Success? <==> Authorize(found, requesterId).Success?
    ensures r.Success? ==>
      && r.value.fileName == InvoiceFileName(orderId)
      && r.value.lines == Header + ProductLines(found.value.products)
      && |r.value.lines| == |Header| + |found.value.products|
      && r.value.lines[..|Header|] == Header
      && forall i :: 0 <= i < |found.value.products| ==>
           r.value.lines[|Header| + i] == ProductLine(found.value.products[i])
  {
    if found.None? {
      return Failure(NoOrderFound);
    }
    var order := found.value;
    if order.userId != requesterId {
      return Failure(Unauthorized);
    }
    var name := InvoiceFileName(orderId);
    var lines: seq<string> := [];
    lines := lines + ["hello here is your invoice"];
    lines := lines + ["Invoice"];
    lines := lines + ["--------------------------"];
    var i := 0;
    while i < |order.products|
      invariant 0 <= i <= |order.products|
      invariant lines == Header + ProductLines(order.products[..i])
    {
      assert order.products[..i + 1][..i] == order.products[..i];
      lines := lines + [ProductLine(order.products[i])];
      i := i + 1;
    }
    assert order.products[..i] == order.products;
    return Success(InvoiceDoc(name, lines));
  }

  /** The invoice of an order placed from a cart lists each cart line as
      quantity and unit price, in cart order. */
  lemma InvoiceListsCart(id: string, userId: string, email: string, cart: seq<CartLine>, i: int)
    requires 0 <= i < |cart|
    ensures var lines := ProductLines(NewOrder(id, userId, email, cart).products);
      |lines| == |cart|
      && ParseProductLine(lines[i]) == Some((cart[i].quantity, cart[i].product.price))
  {
    var o := NewOrder(id, userId, email, cart);
    assert CartOf(o.products)[i] == cart[i];
    ProductLineRoundTrip(o.products[i]);
  }

  /** An order for two units at 10 prints the line "2$10". */
  lemma TwoAtTenExample()
    ensures ProductLine(OrderLine(2, Product("p", "t", "d", 10, "i"))) == "2$10"
  {
  }
}
