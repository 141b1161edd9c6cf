/** Page arithmetic shared by the product-list and index handlers
    (controllers/shop.js, getProducts and getIndex). */
module Pagination {
  import opened Wrappers

  /** Fixed page size of the catalogue listing. */
  const ItemsPerPage: nat := 2

  /** The page number the handlers use: `+req.query.page || 1`. A missing or
      non-numeric parameter (None) and a zero page are falsy and become 1;
      every other integer, negative ones included, is kept. */
  function PageNumber(raw: Option<int>): (page: int)
    ensures page != 0
    ensures raw.None? || raw == Some(0) ==> page == 1
    ensures raw.Some? && raw.value != 0 ==> page == raw.value
  {
    match raw
    case Some(p) => if p != 0 then p else 1
    case None => 1
  }

  /** The store offset for a page, `(page - 1) * itemsperpage`. It is a whole
      number of pages, and the page is recovered from it. */
  function Skip(page: int): (skip: int)
    ensures skip % ItemsPerPage == 0 && skip / ItemsPerPage == page - 1
    ensures page >= 1 <==> skip >= 0
  {
    (page - 1) * ItemsPerPage
  }

  /** How the document store answers `skip(s).limit(l)` on a catalogue: the
      items from offset `skip` on, at most `limit` of them; a limit of 0
      means no limit. */
  function Window<T>(catalog: seq<T>, skip: nat, limit: nat): (w: seq<T>)
    ensures limit > 0 ==> |w| <= limit
    ensures |w| == if skip >= |catalog| then 0
                   else if limit == 0 then |catalog| - skip
                   else Min(limit, |catalog| - skip)
    ensures forall k :: 0 <= k < |w| ==> w[k] == catalog[skip + k]
  {
    if skip >= |catalog| then []
    else if limit == 0 then catalog[skip..]
    else catalog[skip .. skip + Min(limit, |catalog| - skip)]
  }

  function Min(a: int, b: int): int {
    if a <= b then a else b
  }

  /** The products shown on a (positive) page. */
  function PageItems<T>(catalog: seq<T>, page: int): (items: seq<T>)
    requires page >= 1
    ensures |items| <= ItemsPerPage
  {
    Window(catalog, Skip(page), ItemsPerPage)
  }

  /** `Math.ceil(totalitems / itemsperpage)`: the fewest pages that hold
      every product. */
  function LastPage(total: nat): (last: nat)
    ensures ItemsPerPage * last >= total
    ensures last == 0 || ItemsPerPage * (last - 1) < total
  {
    (total + ItemsPerPage - 1) / ItemsPerPage
  }

  /** The pagination fields handed to the listing view. */
  datatype PageView = PageView(
    currentPage: int,
    totalProducts: nat,
    hasNextPage: bool,
    hasPreviouspage: bool,
    nextPage: int,
    lastPage: nat,
    previousPage: int)

  function Paginate(page: int, total: nat): (v: PageView)
    ensures v.currentPage == page && v.totalProducts == total
    ensures v.nextPage == page + 1 && v.previousPage == page - 1
    ensures v.hasNextPage <==> ItemsPerPage * page < total
    ensures v.hasPreviouspage <==> page > 1
    ensures v.lastPage == LastPage(total)
  {
    PageView(
      currentPage := page,
      totalProducts := total,
      hasNextPage := ItemsPerPage * page < total,
      hasPreviouspage := page > 1,
      nextPage := page + 1,
      lastPage := LastPage(total),
      previousPage := page - 1)
  }

  /** `hasNextPage` is set exactly when the following page holds a product. */
  lemma NextPageFlag<T>(catalog: seq<T>, page: int)
    requires page >= 1
    ensures Paginate(page, |catalog|).hasNextPage <==> PageItems(catalog, page + 1) != []
  {
  }

  /** From the last page on, `hasNextPage` is false. */
  lemma NoNextPageFromLast(page: int, total: nat)
    requires page >= LastPage(total)
    ensures !Paginate(page, total).hasNextPage
  {
  }

  /** Pages past the last are not clamped: their offset reaches past every
      product, so they come back empty. */
  lemma BeyondLastPageIsEmpty<T>(catalog: seq<T>, page: int)
    requires page > LastPage(|catalog|)
    ensures Skip(page) >= |catalog|
    ensures PageItems(catalog, page) == []
  {
  }

  /** Every page from the first to the last holds at least one product. */
  lemma PagesUpToLastAreNonEmpty<T>(catalog: seq<T>, page: int)
    requires 1 <= page <= LastPage(|catalog|)
    ensures PageItems(catalog, page) != []
  {
  }

  /** Pages 1..n laid end to end. */
  function PagesThrough<T>(catalog: seq<T>, n: nat): seq<T> {
    if n == 0 then [] else PagesThrough(catalog, n - 1) + PageItems(catalog, n)
  }

  lemma {:induction false} PagesThroughIsPrefix<T>(catalog: seq<T>, n: nat)
    ensures PagesThrough(catalog, n) == catalog[..Min(ItemsPerPage * n, |catalog|)]
  {
    if n > 0 {
      PagesThroughIsPrefix(catalog, n - 1);
      var lo := Min(ItemsPerPage * (n - 1), |catalog|);
      var hi := Min(ItemsPerPage * n, |catalog|);
      var page := PageItems(catalog, n);
      assert page == catalog[lo..hi];
      assert catalog[..lo] + catalog[lo..hi] == catalog[..hi];
    }
  }

  /** Walking the pages from 1 to `lastPage` lists the whole catalogue, in
      order, each product exactly once. */
  lemma PagesCoverCatalog<T>(catalog: seq<T>)
    ensures PagesThrough(catalog, LastPage(|catalog|)) == catalog
  {
    PagesThroughIsPrefix(catalog, LastPage(|catalog|));
  }

  /** Five products, pages 1, 3 and 10. */
  lemma FiveProductsExample()
    ensures var c := [10, 20, 30, 40, 50];
      && |PageItems(c, 1)| == 2 && Paginate(1, 5).hasNextPage && !Paginate(1, 5).hasPreviouspage
      && Paginate(1, 5).lastPage == 3
      && PageItems(c, 3) == [50] && !Paginate(3, 5).hasNextPage
      && PageItems(c, 10) == [] && !Paginate(10, 5).hasNextPage && Paginate(10, 5).hasPreviouspage
      && Paginate(10, 5).lastPage == 3
  {
  }
}
