/**
 * The read side: `ProductQueryController` validates a query, reads
 * `products_keyspace_v3`, and classifies failures as NotFound or Internal; listing
 * returns one page of a category's products with a token for the next page.
 */
module Query {
  import opened Base
  import opened Rows
  import opened Storage
  import opened Events
  import opened Repository

  /**
   * A paging state: none (start at the first row, or no further page), or "resume after
   * the row with this clustering key", which is what the store's state encodes.
   */
  datatype PagingState = NoState | ResumeAfter(id: int64)

  datatype ListProductsRequest = ListProductsRequest(categoryId: int64, pageSize: int32, pagingState: PagingState)

  datatype ListProductsResponse = ListProductsResponse(products: seq<Product>, pagingState: PagingState)

  /** A product as the read side returns it: the row's fields under the given category id, no tag. */
  function ToProduct(row: ProductRow, categoryId: int64): Product {
    Product(row.id, categoryId, row.name, row.description, row.price, row.stock, row.createdAt, row.updatedAt, "")
  }

  /**
   * `GetCategory`: a zero id is refused; a storage failure is Internal; otherwise the row
   * with the id in `products_keyspace_v3`, or NotFound when there is none.
   */
  function GetCategory(c: Cluster, id: int64, fault: Option<Error>): (r: Reply<CategoryRow>)
    ensures id == 0 ==> r == Failure(InvalidArgument)
    ensures id != 0 && fault.Some? ==> r == Failure(Internal)
    ensures id != 0 && fault.None? ==> (r.Success? <==> id in c.v3.categories)
    ensures id != 0 && fault.None? && r.Failure? ==> r.code == NotFound
    ensures r.Success? ==> id in c.v3.categories && r.value == c.v3.categories[id]
  {
    if id == 0 then Failure(InvalidArgument)
    else if fault.Some? then Failure(Internal)
    else match Lookup(c.v3.categories, id)
      case None => Failure(NotFound)
      case Some(row) => Success(row)
  }

  /**
   * `GetProduct`: both ids are required; a storage failure is Internal; otherwise the
   * product with that id in that category of `products_keyspace_v3`, or NotFound when
   * there is none.
   */
  function GetProduct(c: Cluster, categoryId: int64, productId: int64, fault: Option<Error>): (r: Reply<Product>)
    ensures categoryId == 0 || productId == 0 ==> r == Failure(InvalidArgument)
    ensures categoryId != 0 && productId != 0 && fault.Some? ==> r == Failure(Internal)
    ensures categoryId != 0 && productId != 0 && fault.None? ==>
      (r.Success? <==> exists row :: row in Partition(c.v3, categoryId) && row.id == productId)
    ensures categoryId != 0 && productId != 0 && fault.None? && r.Failure? ==> r.code == NotFound
    ensures r.Success? ==> exists row ::
      row in Partition(c.v3, categoryId) && row.id == productId && r.value == ToProduct(row, row.categoryId)
  {
    FindSpec(Partition(c.v3, categoryId), productId, ProductId);
    if categoryId == 0 || productId == 0 then Failure(InvalidArgument)
    else if fault.Some? then Failure(Internal)
    else match Find(Partition(c.v3, categoryId), productId, ProductId)
      case None => Failure(NotFound)
      case Some(row) => Success(ToProduct(row, row.categoryId))
  }

  /** The rows of the category from the paging state on. */
  function Remaining(store: Keyspace, req: ListProductsRequest): seq<ProductRow> {
    match req.pagingState
    case NoState => Partition(store, req.categoryId)
    case ResumeAfter(k) => After(Partition(store, req.categoryId), k, ProductId)
  }

  /** The rows of one page: at most `pageSize` rows from the paging state on. */
  function PageRows(store: Keyspace, req: ListProductsRequest): seq<ProductRow>
    requires req.pageSize > 0
  {
    var rest := Remaining(store, req);
    if |rest| <= req.pageSize as int then rest else rest[..req.pageSize]
  }

  /** The state the page ends in: after its last row while rows remain, none once the category is exhausted. */
  function NextState(store: Keyspace, req: ListProductsRequest): PagingState
    requires req.pageSize > 0
  {
    var rest := Remaining(store, req);
    if |rest| <= req.pageSize as int then NoState else ResumeAfter(rest[req.pageSize - 1].id)
  }

  /** The listed form of some rows, in order. */
  function Listed(rows: seq<ProductRow>, categoryId: int64): seq<Product> {
    if rows == [] then [] else Listed(rows[..|rows| - 1], categoryId) + [ToProduct(rows[|rows| - 1], categoryId)]
  }

  /**
   * `ListProducts`: a zero category id or a non-positive page size is refused; an
   * iterator that fails gives Internal and no page; otherwise the products of the page
   * of `products_keyspace_v3` in scan order and the iterator's paging state.
   */
  method ListProducts(c: Cluster, req: ListProductsRequest, fault: IterFault) returns (r: Reply<ListProductsResponse>)
    ensures req.categoryId == 0 || req.pageSize <= 0 ==> r == Failure(InvalidArgument)
    ensures req.categoryId != 0 && req.pageSize > 0 && fault.BreaksAfter? ==> r == Failure(Internal)
    ensures req.categoryId != 0 && req.pageSize > 0 && fault.Healthy? ==>
      r == Success(ListProductsResponse(Listed(PageRows(c.v3, req), req.categoryId), NextState(c.v3, req)))
  {
    if req.categoryId == 0 || req.pageSize <= 0 {
      return Failure(InvalidArgument);
    }
    var rows := PageRows(c.v3, req);
    var products: seq<Product> := [];
    var i := 0;
    while i < |rows| && !(fault.BreaksAfter? && i >= fault.rows)
      invariant 0 <= i <= |rows|
      invariant products == Listed(rows[..i], req.categoryId)
    {
      assert rows[..i + 1][..i] == rows[..i];
      products := products + [ToProduct(rows[i], req.categoryId)];
      i := i + 1;
    }
    var next := NextState(c.v3, req);
    if fault.BreaksAfter? {
      return Failure(Internal);
    }
    assert rows[..|rows|] == rows;
    return Success(ListProductsResponse(products, next));
  }

  lemma {:induction false} ListedSpec(rows: seq<ProductRow>, categoryId: int64)
    ensures |Listed(rows, categoryId)| == |rows|
    ensures forall j :: 0 <= j < |rows| ==> Listed(rows, categoryId)[j] == ToProduct(rows[j], categoryId)
  {
    if rows != [] {
      var n := |rows| - 1;
      ListedSpec(rows[..n], categoryId);
      forall j | 0 <= j < |rows| ensures Listed(rows, categoryId)[j] == ToProduct(rows[j], categoryId) {
        if j < n {
          assert rows[..n][j] == rows[j];
        }
      }
    }
  }

  /**
   * The rows from a paging state on are rows of the requested category, in ascending id
   * order, and all after the row the state names.
   */
  lemma RemainingSpec(store: Keyspace, req: ListProductsRequest)
    requires ValidKeyspace(store)
    ensures var rest := Remaining(store, req);
      Ascending(rest, ProductId)
      && (forall row :: row in rest ==> row in Partition(store, req.categoryId) && row.categoryId == req.categoryId)
    ensures req.pagingState.ResumeAfter? ==> forall row :: row in Remaining(store, req) ==> row.id > req.pagingState.id
  {
    var p := Partition(store, req.categoryId);
    assert ProductsOk(p, req.categoryId);
    var n := SuffixAt(p, req.pagingState);
    AscendingSuffix(p, n, ProductId);
    if req.pagingState.ResumeAfter? {
      AfterSpec(p, req.pagingState.id, ProductId);
    }
  }

  /**
   * A page holds rows of the requested category only, in ascending id order, all after
   * the paging state, and no more than the page size of them.
   */
  lemma PageSpec(store: Keyspace, req: ListProductsRequest)
    requires ValidKeyspace(store) && req.pageSize > 0
    ensures var page := PageRows(store, req);
      |page| <= req.pageSize as int && Ascending(page, ProductId)
      && (forall row :: row in page ==> row in Partition(store, req.categoryId) && row.categoryId == req.categoryId)
    ensures var page := PageRows(store, req);
      req.pagingState.ResumeAfter? ==> forall row :: row in page ==> row.id > req.pagingState.id
  {
    RemainingSpec(store, req);
    var rest := Remaining(store, req);
    var page := PageRows(store, req);
    assert page == rest[..|page|];
    AscendingPrefix(rest, |page|, ProductId);
    forall row | row in page ensures row in rest {
    }
  }

  /** Every listed product carries the requested category id and no tag, and the page's ids in page order. */
  lemma PageListed(store: Keyspace, req: ListProductsRequest)
    requires req.pageSize > 0
    ensures var rows, page := PageRows(store, req), Listed(PageRows(store, req), req.categoryId);
      |page| == |rows|
      && forall j :: 0 <= j < |page| ==> page[j].categoryId == req.categoryId && page[j].eventType == "" && page[j].id == rows[j].id
  {
    ListedSpec(PageRows(store, req), req.categoryId);
  }

  /** The rows after the token a page returns are the rows after that page. */
  lemma NextRemaining(store: Keyspace, req: ListProductsRequest)
    requires ValidKeyspace(store) && req.pageSize > 0 && NextState(store, req).ResumeAfter?
    ensures var rest := Remaining(store, req);
      Remaining(store, req.(pagingState := NextState(store, req))) == rest[req.pageSize..]
  {
    var p := Partition(store, req.categoryId);
    assert ProductsOk(p, req.categoryId);
    var rest := Remaining(store, req);
    var size := req.pageSize as int;
    var n := SuffixAt(p, req.pagingState);
    var k := rest[size - 1].id;
    assert NextState(store, req) == ResumeAfter(k);
    assert Remaining(store, req.(pagingState := ResumeAfter(k))) == After(p, k, ProductId);
    assert rest[size - 1] == p[n + size - 1];
    AfterKeyAt(p, n + size, ProductId);
    assert p[n + size..] == rest[size..];
  }

  /** Where the rows after a paging state start in an ordered partition. */
  lemma SuffixAt(p: seq<ProductRow>, state: PagingState) returns (n: nat)
    requires Ascending(p, ProductId)
    ensures n <= |p|
    ensures state.NoState? ==> n == 0
    ensures state.ResumeAfter? ==> After(p, state.id, ProductId) == p[n..]
  {
    if state.ResumeAfter? {
      AfterSpec(p, state.id, ProductId);
      n :| 0 <= n <= |p| && After(p, state.id, ProductId) == p[n..];
    } else {
      n := 0;
    }
  }

  /**
   * The pages a client gets by passing each returned paging state back, starting from
   * `req`, until the state comes back empty.
   */
  ghost function Pages(store: Keyspace, req: ListProductsRequest): seq<seq<ProductRow>>
    requires ValidKeyspace(store) && req.pageSize > 0
    decreases |Remaining(store, req)|
  {
    if NextState(store, req).NoState? then [PageRows(store, req)]
    else
      NextRemaining(store, req);
      [PageRows(store, req)] + Pages(store, req.(pagingState := NextState(store, req)))
  }

  function Concat(pages: seq<seq<ProductRow>>): seq<ProductRow> {
    if pages == [] then [] else pages[0] + Concat(pages[1..])
  }

  /**
   * Following the paging states lists every remaining row of the category exactly once
   * and in order; every page but the last is full, and the last is not larger than a page.
   */
  lemma {:induction false} PagesCover(store: Keyspace, req: ListProductsRequest)
    requires ValidKeyspace(store) && req.pageSize > 0
    ensures Concat(Pages(store, req)) == Remaining(store, req)
    ensures forall j :: 0 <= j < |Pages(store, req)| - 1 ==> |Pages(store, req)[j]| == req.pageSize as int
    ensures |Pages(store, req)| > 0 && |Pages(store, req)[|Pages(store, req)| - 1]| <= req.pageSize as int
    decreases |Remaining(store, req)|
  {
    var rest := Remaining(store, req);
    var size := req.pageSize as int;
    if NextState(store, req).NoState? {
      assert Concat(Pages(store, req)) == PageRows(store, req) + Concat([]);
    } else {
      var next := req.(pagingState := NextState(store, req));
      NextRemaining(store, req);
      PagesCover(store, next);
      var ps := Pages(store, req);
      assert ps == [PageRows(store, req)] + Pages(store, next);
      assert ps[1..] == Pages(store, next);
      assert Concat(ps) == rest[..size] + rest[size..];
      assert rest == rest[..size] + rest[size..];
    }
  }

  /** Five products listed two at a time come in three pages of two, two and one, the last with no state. */
  lemma FiveProductsThreePages(store: Keyspace, categoryId: int64)
    requires ValidKeyspace(store) && |Partition(store, categoryId)| == 5
    ensures var ps := Pages(store, ListProductsRequest(categoryId, 2, NoState));
      |ps| == 3 && |ps[0]| == 2 && |ps[1]| == 2 && |ps[2]| == 1 && Concat(ps) == Partition(store, categoryId)
  {
    var r0 := ListProductsRequest(categoryId, 2, NoState);
    NextRemaining(store, r0);
    var r1 := r0.(pagingState := NextState(store, r0));
    NextRemaining(store, r1);
    var r2 := r1.(pagingState := NextState(store, r1));
    assert |Remaining(store, r2)| == 1;
    PagesCover(store, r0);
    assert Pages(store, r0) == [PageRows(store, r0)] + Pages(store, r1);
    assert Pages(store, r1) == [PageRows(store, r1)] + Pages(store, r2);
    assert Pages(store, r2) == [PageRows(store, r2)];
  }
}
