/** The category page's product grid with its "Load More" accumulator
    (src/components/category/product_category_content.tsx). */
module CategoryListing {
  import opened Wrappers
  import opened Text
  import opened Http

  /** LIMIT: the size of every page, and the offset of the first page loaded on the client. */
  const PageSize: int := 21

  /** A product as the listing sees it: `product_id` is the only field it examines. */
  datatype Product = Product(productId: int, title: string, price: int)

  function Ids(ps: seq<Product>): set<int> {
    set i | 0 <= i < |ps| :: ps[i].productId
  }

  predicate UniqueIds(ps: seq<Product>) {
    forall i, j :: 0 <= i < j < |ps| ==> ps[i].productId != ps[j].productId
  }

  /** The items of a fetched page whose id is not already held, in backend order.
      Items of the page are not compared with each other. */
  function NewProducts(existing: set<int>, page: seq<Product>): (r: seq<Product>)
    ensures |r| <= |page|
    ensures forall i :: 0 <= i < |r| ==> r[i] in page && r[i].productId !in existing
    ensures forall p :: p in page && p.productId !in existing ==> p in r
  {
    if page == [] then []
    else (if page[0].productId in existing then [] else [page[0]]) + NewProducts(existing, page[1..])
  }

  /** Filtering keeps backend order: it distributes over concatenation. */
  lemma {:induction false} NewProductsConcat(existing: set<int>, a: seq<Product>, b: seq<Product>)
    ensures NewProducts(existing, a + b) == NewProducts(existing, a) + NewProducts(existing, b)
    decreases |a|
  {
    if a == [] {
      assert a + b == b;
    } else {
      assert (a + b)[1..] == a[1..] + b;
      NewProductsConcat(existing, a[1..], b);
    }
  }

  lemma {:induction false} NewProductsAllFresh(existing: set<int>, page: seq<Product>)
    requires forall i :: 0 <= i < |page| ==> page[i].productId !in existing
    ensures NewProducts(existing, page) == page
    decreases |page|
  {
    if page != [] {
      NewProductsAllFresh(existing, page[1..]);
    }
  }

  lemma {:induction false} NewProductsNoneFresh(existing: set<int>, page: seq<Product>)
    requires forall i :: 0 <= i < |page| ==> page[i].productId in existing
    ensures NewProducts(existing, page) == []
    decreases |page|
  {
    if page != [] {
      NewProductsNoneFresh(existing, page[1..]);
    }
  }

  lemma {:induction false} NewProductsUnique(existing: set<int>, page: seq<Product>)
    requires UniqueIds(page)
    ensures UniqueIds(NewProducts(existing, page))
    decreases |page|
  {
    if page != [] {
      var rest := NewProducts(existing, page[1..]);
      NewProductsUnique(existing, page[1..]);
      forall i | 0 <= i < |rest|
        ensures rest[i].productId != page[0].productId
      {
        assert rest[i] in page[1..];
        var k :| 0 <= k < |page[1..]| && page[1..][k] == rest[i];
        assert page[k + 1] == rest[i];
      }
    }
  }

  /** Duplicates inside one fetched page are kept: ids stay unique only when each page is. */
  lemma DuplicatesWithinOnePageKept()
    ensures var p := Product(7, "", 0);
            NewProducts({}, [p, p]) == [p, p] && !UniqueIds([p, p])
  {
  }

  // ---------------------------------------------------------------------------
  // State

  /** The four `useState` hooks of the component. */
  datatype Listing = Listing(products: seq<Product>, offset: int, hasMore: bool, isLoading: bool)

  /** The server-rendered first page handed to the component. */
  datatype InitialPage = InitialPage(success: bool, error: Option<string>, data: Option<seq<Product>>)

  /** Initial hook values: `initialProducts.data || []`, offset 21, hasMore true, not loading. */
  function Initial(seed: InitialPage): Listing {
    Listing(seed.data.GetOr([]), PageSize, true, false)
  }

  /** Offsets only ever take the values 21, 42, 63, ... */
  predicate OffsetInvariant(s: Listing) {
    s.offset >= PageSize && s.offset % PageSize == 0
  }

  lemma InitialState(seed: InitialPage)
    ensures var s := Initial(seed);
            && OffsetInvariant(s) && s.hasMore && !s.isLoading
            && (seed.data.Some? ==> s.products == seed.data.value)
            && (seed.data.None? ==> s.products == [])
  {
  }

  /** What `await fetch(...)` followed by `await res.json()` gave: a thrown error
      (network failure or a body that is not JSON), or a parsed envelope. */
  datatype PageOutcome = Threw | Envelope(success: bool, data: Option<seq<Product>>)

  /** The page an outcome delivers, when `data.success && data.data` holds. */
  predicate Delivers(outcome: PageOutcome) {
    outcome.Envelope? && outcome.success && outcome.data.Some?
  }

  /** The state after the awaited response has been handled, `finally` included. */
  function Settle(s: Listing, outcome: PageOutcome): (t: Listing)
    ensures !t.isLoading
    ensures t.hasMore ==> s.hasMore
    ensures s.products <= t.products
    ensures t.offset == s.offset || t.offset == s.offset + PageSize
    ensures t.offset == s.offset + PageSize <==> |t.products| > |s.products|
    ensures OffsetInvariant(s) ==> OffsetInvariant(t)
  {
    match outcome
    case Threw => s.(hasMore := false, isLoading := false)
    case Envelope(success, data) =>
      if !(success && data.Some?) then s.(hasMore := false, isLoading := false)
      else if |data.value| == 0 then s.(hasMore := false, isLoading := false)
      else
        var added := NewProducts(Ids(s.products), data.value);
        if |added| == 0 then s.(hasMore := false, isLoading := false)
        else Listing(s.products + added, s.offset + PageSize, s.hasMore && |data.value| >= PageSize, false)
  }

  /** A page with at least one new item is appended after the held items and advances the offset. */
  lemma SettleAppends(s: Listing, page: seq<Product>)
    requires NewProducts(Ids(s.products), page) != []
    ensures var t := Settle(s, Envelope(true, Some(page)));
            && t.products == s.products + NewProducts(Ids(s.products), page)
            && t.products[..|s.products|] == s.products
            && t.offset == s.offset + PageSize
            && (t.hasMore <==> s.hasMore && |page| >= PageSize)
  {
  }

  /** Every terminating case: failure, no data, an empty, all-duplicate or short page. */
  lemma SettleStops(s: Listing, outcome: PageOutcome)
    requires || !Delivers(outcome)
             || |outcome.data.value| < PageSize
             || NewProducts(Ids(s.products), outcome.data.value) == []
    ensures !Settle(s, outcome).hasMore
  {
  }

  /** Failure, an empty page and an all-duplicate page change neither the list nor the offset. */
  lemma SettleKeepsList(s: Listing, outcome: PageOutcome)
    requires !Delivers(outcome) || NewProducts(Ids(s.products), outcome.data.value) == []
    ensures Settle(s, outcome).products == s.products
    ensures Settle(s, outcome).offset == s.offset
  {
  }

  /** A page repeating only held ids ends the list without changing it. */
  lemma AllDuplicatePageStops(s: Listing, page: seq<Product>)
    requires page != [] && forall i :: 0 <= i < |page| ==> page[i] in s.products
    ensures var t := Settle(s, Envelope(true, Some(page)));
            !t.hasMore && t.products == s.products && t.offset == s.offset
  {
    forall i | 0 <= i < |page|
      ensures page[i].productId in Ids(s.products)
    {
      var k :| 0 <= k < |s.products| && s.products[k] == page[i];
    }
    NewProductsNoneFresh(Ids(s.products), page);
  }

  /** Appended items never share an id with held items, so ids stay unique when each page is unique. */
  lemma SettleKeepsUniqueIds(s: Listing, outcome: PageOutcome)
    requires UniqueIds(s.products)
    requires Delivers(outcome) ==> UniqueIds(outcome.data.value)
    ensures UniqueIds(Settle(s, outcome).products)
  {
    if Delivers(outcome) && outcome.data.value != [] {
      var held := s.products;
      var added := NewProducts(Ids(held), outcome.data.value);
      NewProductsUnique(Ids(held), outcome.data.value);
      var all := held + added;
      forall i, j | 0 <= i < j < |all|
        ensures all[i].productId != all[j].productId
      {
        if j >= |held| && i < |held| {
          assert held[i].productId in Ids(held);
          assert all[j] == added[j - |held|];
        }
      }
    }
  }

  // ---------------------------------------------------------------------------
  // Repeated clicks

  /** One click of "Load More" as one atomic step: the guard of line 27, then the handling. */
  function LoadMoreStep(s: Listing, outcome: PageOutcome): (t: Listing)
    ensures s.isLoading || !s.hasMore ==> t == s
  {
    if s.isLoading || !s.hasMore then s else Settle(s, outcome)
  }

  /** A sequence of clicks, each answered by the next outcome. */
  function Run(s: Listing, outcomes: seq<PageOutcome>): Listing
    decreases |outcomes|
  {
    if outcomes == [] then s else Run(LoadMoreStep(s, outcomes[0]), outcomes[1..])
  }

  /** Once `hasMore` is false no click changes anything: the end is terminal. */
  lemma {:induction false} RunAfterEnd(s: Listing, outcomes: seq<PageOutcome>)
    requires !s.hasMore
    ensures Run(s, outcomes) == s
    decreases |outcomes|
  {
    if outcomes != [] {
      RunAfterEnd(s, outcomes[1..]);
    }
  }

  /** Over any run: the held list only grows at its end, `hasMore` never comes back,
      the offset stays a positive multiple of the page size, and ids stay unique
      as long as the seed and every delivered page are internally unique. */
  lemma {:induction false} RunInvariants(s: Listing, outcomes: seq<PageOutcome>)
    requires OffsetInvariant(s) && UniqueIds(s.products)
    requires forall i :: 0 <= i < |outcomes| && Delivers(outcomes[i]) ==> UniqueIds(outcomes[i].data.value)
    ensures var t := Run(s, outcomes);
            && s.products <= t.products
            && (t.hasMore ==> s.hasMore)
            && OffsetInvariant(t)
            && UniqueIds(t.products)
    decreases |outcomes|
  {
    if outcomes != [] {
      var s' := LoadMoreStep(s, outcomes[0]);
      if !(s.isLoading || !s.hasMore) {
        SettleKeepsUniqueIds(s, outcomes[0]);
      }
      RunInvariants(s', outcomes[1..]);
    }
  }

  /** Scenario: a full first page with ids 1..21, then a short page with ids 22..30. */
  lemma ShortSecondPageScenario()
    ensures var first := seq(21, i requires 0 <= i < 21 => Product(i + 1, "", 0));
            var second := seq(9, i requires 0 <= i < 9 => Product(i + 22, "", 0));
            var t := LoadMoreStep(Initial(InitialPage(true, None, Some(first))), Envelope(true, Some(second)));
            && t.products == first + second
            && t.offset == 42
            && !t.hasMore && !t.isLoading
  {
    var first := seq(21, i requires 0 <= i < 21 => Product(i + 1, "", 0));
    var second := seq(9, i requires 0 <= i < 9 => Product(i + 22, "", 0));
    assert forall x :: x in Ids(first) ==> x <= 21;
    forall i | 0 <= i < |second|
      ensures second[i].productId !in Ids(first)
    {
      assert second[i].productId == i + 22;
    }
    NewProductsAllFresh(Ids(first), second);
  }

  // ---------------------------------------------------------------------------
  // The request

  /** The filters that every load-more request carries, whatever the page's own filters are. */
  const FixedFilters: seq<QueryParam> :=
    [QueryParam("sortBy", "price_desc"), QueryParam("minPrice", "0"), QueryParam("maxPrice", "9999999999")]

  /** One `categoryIds` pair per id, in order. */
  function CategoryParams(categoryIds: seq<int>): seq<QueryParam> {
    seq(|categoryIds|, i requires 0 <= i < |categoryIds| => QueryParam("categoryIds", IntString(categoryIds[i])))
  }

  /** Each category id in order, then the fixed filters, the limit and the current offset. */
  function LoadMoreQuery(categoryIds: seq<int>, offset: int): seq<QueryParam> {
    CategoryParams(categoryIds) + LoadMoreTail(offset)
  }

  function LoadMoreTail(offset: int): seq<QueryParam> {
    FixedFilters + [QueryParam("limit", IntString(PageSize)), QueryParam("offset", IntString(offset))]
  }

  /** The `URLSearchParams` filled by the `forEach` over the category ids and five `append` calls. */
  method BuildLoadMoreQuery(categoryIds: seq<int>, offset: int) returns (q: seq<QueryParam>)
    ensures q == LoadMoreQuery(categoryIds, offset)
  {
    q := [];
    var i := 0;
    while i < |categoryIds|
      invariant 0 <= i <= |categoryIds|
      invariant q == CategoryParams(categoryIds[..i])
    {
      q := q + [QueryParam("categoryIds", IntString(categoryIds[i]))];
      i := i + 1;
    }
    assert categoryIds[..i] == categoryIds;
    q := q + [QueryParam("sortBy", "price_desc")];
    q := q + [QueryParam("minPrice", "0")];
    q := q + [QueryParam("maxPrice", "9999999999")];
    q := q + [QueryParam("limit", IntString(PageSize))];
    q := q + [QueryParam("offset", IntString(offset))];
  }

  /** Read back as the proxy route reads it, the request names the fixed filters once each. */
  lemma LoadMoreQueryFilters(categoryIds: seq<int>, offset: int)
    ensures var q := LoadMoreQuery(categoryIds, offset);
            && Get(q, "sortBy") == Some("price_desc")
            && Get(q, "minPrice") == Some("0")
            && Get(q, "maxPrice") == Some("9999999999")
  {
    var ids := CategoryParams(categoryIds);
    var tail := LoadMoreTail(offset);
    GetAt(tail, 0, "sortBy");
    GetAt(tail, 1, "minPrice");
    GetAt(tail, 2, "maxPrice");
    GetAfterOthers(ids, tail, "sortBy");
    GetAfterOthers(ids, tail, "minPrice");
    GetAfterOthers(ids, tail, "maxPrice");
  }

  /** ... and the page size and the current offset once each. */
  lemma LoadMoreQueryPaging(categoryIds: seq<int>, offset: int)
    ensures var q := LoadMoreQuery(categoryIds, offset);
            && Get(q, "limit") == Some(IntString(PageSize))
            && Get(q, "offset") == Some(IntString(offset))
  {
    var ids := CategoryParams(categoryIds);
    var tail := LoadMoreTail(offset);
    GetAt(tail, 3, "limit");
    GetAt(tail, 4, "offset");
    GetAfterOthers(ids, tail, "limit");
    GetAfterOthers(ids, tail, "offset");
  }

  /** Read back with `getAll`, the request names every category id, in order. */
  lemma LoadMoreQueryIds(categoryIds: seq<int>, offset: int)
    ensures GetAll(LoadMoreQuery(categoryIds, offset), "categoryIds")
         == seq(|categoryIds|, i requires 0 <= i < |categoryIds| => IntString(categoryIds[i]))
  {
    var ids := CategoryParams(categoryIds);
    var tail := LoadMoreTail(offset);
    GetAllConcat(ids, tail, "categoryIds");
    GetAllUniform(ids, "categoryIds");
    GetAllAbsent(tail, "categoryIds");
  }

  // ---------------------------------------------------------------------------
  // The component

  class ListingController {
    const categoryIds: seq<int>
    var products: seq<Product>
    var offset: int
    var hasMore: bool
    var isLoading: bool

    function State(): Listing
      reads this
    {
      Listing(products, offset, hasMore, isLoading)
    }

    constructor (initialProducts: InitialPage, categoryIds: seq<int>)
      ensures State() == Initial(initialProducts)
      ensures this.categoryIds == categoryIds
    {
      this.categoryIds := categoryIds;
      products := initialProducts.data.GetOr([]);
      isLoading := false;
      hasMore := true;
      offset := PageSize;
    }

    /** Lines 27-45 up to the `await`: the guard, `setIsLoading(true)` and the request. */
    method BeginLoad() returns (request: Option<seq<QueryParam>>)
      modifies this
      ensures old(isLoading || !hasMore) ==> request == None && State() == old(State())
      ensures old(!isLoading && hasMore) ==>
                && request == Some(LoadMoreQuery(categoryIds, old(offset)))
                && State() == old(State()).(isLoading := true)
    {
      if isLoading || !hasMore {
        return None;
      }
      isLoading := true;
      var q := BuildLoadMoreQuery(categoryIds, offset);
      request := Some(q);
    }

    /** Lines 46-75: the awaited response is handled and `finally` clears `isLoading`. */
    method FinishLoad(outcome: PageOutcome)
      requires isLoading
      modifies this
      ensures State() == Settle(old(State()), outcome)
    {
      match outcome {
        case Threw =>
          hasMore := false;
        case Envelope(success, data) =>
          if success && data.Some? {
            var page := data.value;
            if |page| == 0 {
              hasMore := false;
            } else {
              var added := NewProducts(Ids(products), page);
              if |added| == 0 {
                hasMore := false;
              } else {
                products := products + added;
                offset := offset + PageSize;
                if |page| < PageSize {
                  hasMore := false;
                }
              }
            }
          } else {
            hasMore := false;
          }
      }
      isLoading := false;
    }

    /** `loadMore` as one atomic step, answered by `outcome` if a request is issued. */
    method LoadMore(outcome: PageOutcome) returns (request: Option<seq<QueryParam>>)
      modifies this
      ensures request.None? <==> old(isLoading || !hasMore)
      ensures request.Some? ==> request.value == LoadMoreQuery(categoryIds, old(offset))
      ensures State() == LoadMoreStep(old(State()), outcome)
    {
      request := BeginLoad();
      if request.Some? {
        FinishLoad(outcome);
      }
    }
  }

  // ---------------------------------------------------------------------------
  // Rendering

  datatype ListingView =
    | LoadFailed(message: string)
    | NoProducts
    | Grid(products: seq<Product>, loadMoreShown: bool, loadMoreDisabled: bool, endOfListShown: bool)

  /** The error state, the empty state, or the grid with its load-more button and end-of-list note. */
  function Render(initial: InitialPage, s: Listing): (v: ListingView)
    ensures v.LoadFailed? <==> !initial.success
    ensures v.LoadFailed? ==>
              v.message == if initial.error.Some? && initial.error.value != "" then initial.error.value
                           else "Failed to load products"
    ensures v.NoProducts? <==> initial.success && s.products == []
    ensures v.Grid? ==> v.products == s.products && v.loadMoreShown == s.hasMore && v.loadMoreShown != v.endOfListShown
    ensures v.Grid? && v.loadMoreShown ==> (v.loadMoreDisabled <==> s.isLoading)
  {
    if !initial.success then
      LoadFailed(if initial.error.Some? && initial.error.value != "" then initial.error.value else "Failed to load products")
    else if |s.products| == 0 then NoProducts
    else Grid(s.products, s.hasMore, s.isLoading, !s.hasMore && |s.products| > 0)
  }
}
