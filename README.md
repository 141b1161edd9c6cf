# Storefront shop controller — verified model

A Dafny model of the logic inside the storefront's shop request handlers
(`controllers/shop.js`). The model covers four pieces:

- **Catalogue pagination.** `getProducts` and `getIndex` share it. The page
  number is read from the query. The store is asked for a window of two
  products. The view gets `hasNextPage`, `hasPreviouspage`, `nextPage`,
  `previousPage` and `lastPage`.
- **Checkout summary** (`getcheckout`). It has a running total and one payment
  line item per cart line.
- **Order placement** (`postOrder`). The populated cart is copied into the
  order's product snapshot.
- **Invoice download** (`getInvoice`). A guard checks that the order exists,
  then that the requester owns it. The invoice file name and the text lines
  written to the PDF follow.

Persistence, the payment service and PDF rendering are not modelled. What
they return becomes a plain input: a catalogue sequence, a list of populated
cart lines, an optional order and a requester id. Identifiers are strings.
Prices and quantities are integers.

Modules, one per file: `Wrappers` (Option, Result), `Shop` (Product,
CartLine), `Decimal` (how JavaScript prints a safe integer), `Pagination`,
`Checkout`, `Orders`, `Invoice`.

The checkout page shows the sum of the unit prices
(`controllers/shop.js:146`). The payment line items charge price × quantity
per line (`controllers/shop.js:154-156`). The model follows the code (see
Findings).

## Model

| member | source | states |
|---|---|---|
| Pagination.PageNumber | controllers/shop.js:9 | the page is never 0; a missing, non-numeric or zero page becomes 1; any other integer, negative ones included, is kept unchanged |
| Pagination.Skip | controllers/shop.js:15 | the offset is a whole number of pages, and the page can be read back from it (offset / 2 == page - 1); the offset is non-negative exactly for pages >= 1 |
| Pagination.Window | controllers/shop.js:14-16 | the store's skip/limit answer: exactly min(limit, total - skip) items (all items from skip on when limit is 0, which means no limit), each the catalogue item at offset skip + k |
| Pagination.PageItems | controllers/shop.js:14-16 | a page never holds more than 2 products |
| Pagination.LastPage | controllers/shop.js:28 | lastPage is the ceiling of total / 2: the fewest pages of 2 that hold every product |
| Pagination.Paginate | controllers/shop.js:24-29 | hasNextPage iff 2 * page < total; hasPreviouspage iff page > 1; nextPage = page + 1; previousPage = page - 1 |
| Pagination.NextPageFlag | controllers/shop.js:25 | for any page >= 1, hasNextPage holds exactly when the following page holds at least one product |
| Pagination.NoNextPageFromLast | controllers/shop.js:25-28 | on lastPage and every page after it, hasNextPage is false |
| Pagination.BeyondLastPageIsEmpty | controllers/shop.js:15-28 | a page past the last is not clamped: its offset is at least the product count and it holds no products |
| Pagination.PagesUpToLastAreNonEmpty | controllers/shop.js:15-28 | every page from 1 to lastPage holds at least one product |
| Pagination.PagesCoverCatalog | controllers/shop.js:14-28 | pages 1 to lastPage, laid end to end, give back the whole catalogue in order, each product once |
| Pagination.FiveProductsExample | controllers/shop.js:9-29 | with five products: page 1 has 2 items, a next page and no previous page; page 3 has 1 item and no next page; page 10 is empty, has a previous page and no next page; lastPage is 3 |
| Checkout.CheckoutTotal | controllers/shop.js:139-147 | the loop leaves `totalprice` equal to the sum of the lines' unit prices, in cart order |
| Checkout.SumPricesAppend | controllers/shop.js:145-147 | the total of two carts laid end to end is the sum of their totals |
| Checkout.TotalIgnoresQuantity | controllers/shop.js:145-147 | two carts with the same products in the same order show the same total, whatever their quantities |
| Checkout.LineItems | controllers/shop.js:150-158 | one line item per cart line, in order; each has the product's title as name, its description, its price as amount, currency "usd" and the line's quantity |
| Checkout.TotalIsSumOfAmounts | controllers/shop.js:145-158 | the displayed total equals the sum of the line items' unit amounts |
| Checkout.DisplayedTotalMissesQuantity | controllers/shop.js:145-147 | one product at 10 with quantity 2: the total shown is 10 but the line items charge 20 |
| Checkout.OrderValueIsCharged | controllers/shop.js:150-158 | price × quantity summed over the cart equals what the line items charge |
| Checkout.CorrectedCheckoutTotal | controllers/shop.js:139-147 | the corrected running total (quantities multiplied in) equals what the line items charge |
| Orders.Snapshot | controllers/shop.js:183-185 | one order line per cart line, in order, keeping the line's quantity and a copy of its product |
| Orders.CartOf | controllers/shop.js:183-185 | reading order lines back into cart lines keeps length, order, quantity and product |
| Orders.SnapshotRoundTrip | controllers/shop.js:183-185 | the snapshot loses nothing: the cart is recovered from it exactly |
| Orders.NewOrder | controllers/shop.js:183-192 | the new order carries the given id, the requester's user id and email, and products from which the cart is recovered exactly |
| Invoice.Message | controllers/shop.js:228-233 | the two refusals carry the messages "No order found." and "Unauthorized", one each |
| Invoice.Authorize | controllers/shop.js:228-233 | an absent order gives NoOrderFound, checked first; an owner id other than the requester's gives Unauthorized; success exactly when the order exists and the requester owns it, and then it yields that order |
| Invoice.InvoiceFileName | controllers/shop.js:234 | the name is 'invoice-' + orderId + '.pdf', and the order id is read back from it |
| Invoice.InvoiceFileNameInjective | controllers/shop.js:234 | distinct order ids never share an invoice file name |
| Invoice.ProductLineRoundTrip | controllers/shop.js:250 | a line `quantity + '$' + price` is read back into exactly that quantity and price |
| Invoice.ProductLines | controllers/shop.js:249-251 | one text line per ordered product, in order |
| Invoice.GetInvoice | controllers/shop.js:228-251 | a refusal (NoOrderFound first, then Unauthorized) produces no invoice; otherwise the file name is the order's invoice name and the lines are the three heading lines followed by one `quantity$price` line per product, 3 + the number of products in all |
| Invoice.InvoiceListsCart | controllers/shop.js:183-251 | the invoice of an order placed from a cart has one line per cart line, giving back that line's quantity and unit price |
| Invoice.TwoAtTenExample | controllers/shop.js:250 | two units at price 10 print as the line "2$10" |
| Decimal.IntToStringRoundTrip | controllers/shop.js:250 | the decimal text JavaScript prints for a safe integer (\|n\| ≤ 2^53−1) parses back to that integer |
| Decimal.IntToStringInjective | controllers/shop.js:250 | distinct integers print as distinct texts |

## Findings

| source | as written | input that shows it | evidently intended | confidence | as-written member | corrected member |
|---|---|---|---|---|---|---|
| controllers/shop.js:145-147 | the checkout total adds `p.productId.price` once per cart line and ignores the quantity | one cart line with price 10 and quantity 2: the total shown is 10, and the payment line items charge 20 | the total is price × quantity summed over the cart, which is what the payment service charges | medium, not executed | Checkout.DisplayedTotalMissesQuantity | Checkout.CorrectedCheckoutTotal |

## Left out

- Store queries are not modelled. This covers `Product.find().count()`, the execution of `skip`/`limit`, `populate`/`execPopulate`, `order.save()` and `clearCart()`. Their results are inputs. `Pagination.Window` states how the store is assumed to answer skip/limit.
- Pagination.PageItems: defined only for pages >= 1. A negative page number passes `PageNumber` unchanged and gives a negative offset. How the store treats a negative skip is not part of this model.
- The JavaScript coercion of the page string (`+req.query.page`, for example "1.5" or "abc") is floating-point behaviour. The parsed page is an `Option<int>`. None stands for a missing or NaN value.
- Prices and quantities are integers. JavaScript's printing of fractional prices is not modelled.
- Prices, quantities and totals stand for JavaScript numbers in the safe-integer range (\|n\| ≤ 2^53−1). In that range addition is exact and printing is plain decimal. Dafny's unbounded `int` does not model the rounding of `totalprice` beyond 2^53, nor the exponent form ("1e+21") that `String(n)` gives from 10^21 on.
- The non-transactional order save followed by cart clearing is persistence I/O.
- `req.user.addToCart` and `removeFromCart` are not modelled. They live in the user model, which is not part of this model.
- `getProduct`, `getCart` and `getOrders` only pass store results to views. They have no logic of their own to model.
- The payment-service client is a foreign network call. This covers the session call and its success/cancel URLs built from the request host. `CorrectedCheckoutTotal` uses only the line items passed to it.
- PDF rendering is not modelled: font size, underline and bytes. The invoice path `data/invoices/...` and the file write/read streams are I/O, as are the `Content-Type`/`Content-Disposition` headers. The read stream that races the still-running write is a concurrency matter. Only the file name and the ordered text lines are modelled.
- The commented-out `fs.readFile` block is not modelled.
- A cart line whose product was deleted is populated to null. Reading `p.productId.price` (`controllers/shop.js:146`) or `i.productId._doc` (`controllers/shop.js:184`) then throws, and the handler forwards a 500. `Shop.CartLine` always holds a product, so this error path is not modelled.
- `Order.findById` rejects an order id that is not a valid store id (`controllers/shop.js:226`). The request is then refused through `.catch(err => next(err))` (`controllers/shop.js:272`) before the guard runs. `Invoice.InvoiceError` has no case for this third refusal. `Invoice.GetInvoice` takes the lookup result as its input.
- One fixed, ordered sequence stands for the catalogue. It is shared by the `count()` query (`controllers/shop.js:11-13`) and by every `find().skip().limit()` query (`controllers/shop.js:14-16`). In the source these are separate queries, and each page is a separate request. `find()` has no sort, so the count can disagree with a window and the page order can change between requests. `Pagination.NextPageFlag`, `Pagination.BeyondLastPageIsEmpty` and `Pagination.PagesCoverCatalog` hold under this assumption.
- View rendering, redirects and logging are framework plumbing. So is wrapping errors with `httpStatusCode = 500` before passing them to `next`.
- Order and user ids compare as strings, standing for `toString()` of the stored ids. The order id is an input because the store assigns it.
- The product copy `{...i.productId._doc}` is a value in the model. Later changes to the catalogue therefore cannot reach a stored order.
