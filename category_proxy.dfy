/** The server route that proxies a category listing request to the backend
    (src/app/api/product/category/route.ts): it checks the request, rebuilds the query
    from the parameters it knows, calls `BE_API + "member/product/category"` and relays
    the answer. The environment variable and the backend's answer are parameters. */
module CategoryProxy {
  import opened Wrappers
  import opened Text
  import opened Http
  import CategoryListing

  /** A JSON envelope built by the route, or a body taken from the backend: passed on as
      it came (`Raw`) or parsed and serialised again (`Reserialised`). */
  datatype Body = Envelope(success: bool, code: int, error: string) | Raw(text: string) | Reserialised(text: string)

  datatype Response = Response(status: int, body: Body)

  /** What the `fetch` to the backend came to: it threw, or the backend answered. */
  datatype Upstream = Threw | Replied(status: int, text: string)

  datatype BackendRequest = BackendRequest(url: string, query: seq<QueryParam>)

  const BackendPath: string := "member/product/category"

  /** Every name the route may put in the backend query. */
  const ForwardedKeys: set<string> := {"categoryIds", "sortBy", "minPrice", "maxPrice", "limit", "offset"}

  /** The names forwarded only when their value is truthy. */
  predicate IsFilterKey(key: string) {
    key == "sortBy" || key == "minPrice" || key == "maxPrice" || key == "limit"
  }

  /** `searchParams.get('offset') || '0'` */
  function OffsetValue(params: seq<QueryParam>): (r: string)
    ensures r != ""
    ensures Truthy(Get(params, "offset")) ==> Some(r) == Get(params, "offset")
  {
    var v := Get(params, "offset");
    if Truthy(v) then v.value else "0"
  }

  /** `if (v) queryParams.append(key, v)`, as a list of zero or one pair. */
  function Optional(key: string, v: Option<string>): seq<QueryParam> {
    if Truthy(v) then [QueryParam(key, v.value)] else []
  }

  /** One `categoryIds` pair per value, in order. */
  function IdParams(ids: seq<string>): seq<QueryParam> {
    seq(|ids|, i requires 0 <= i < |ids| => QueryParam("categoryIds", ids[i]))
  }

  /** The pairs after the category ids: the truthy filters in their fixed order, then the offset. */
  function FilterParams(params: seq<QueryParam>): seq<QueryParam> {
    Optional("sortBy", Get(params, "sortBy")) +
    (Optional("minPrice", Get(params, "minPrice")) +
     (Optional("maxPrice", Get(params, "maxPrice")) +
      (Optional("limit", Get(params, "limit")) +
       [QueryParam("offset", OffsetValue(params))])))
  }

  /** The backend query: the category ids as `getAll` lists them, then the filters. */
  function BackendQuery(params: seq<QueryParam>): seq<QueryParam> {
    IdParams(GetAll(params, "categoryIds")) + FilterParams(params)
  }

  /** The `forEach` over the category ids, then the four guarded appends and the offset. */
  method BuildBackendQuery(params: seq<QueryParam>) returns (q: seq<QueryParam>)
    ensures q == BackendQuery(params)
  {
    var categoryIds := GetAll(params, "categoryIds");
    q := [];
    var i := 0;
    while i < |categoryIds|
      invariant 0 <= i <= |categoryIds|
      invariant q == IdParams(categoryIds[..i])
    {
      q := q + [QueryParam("categoryIds", categoryIds[i])];
      i := i + 1;
    }
    assert categoryIds[..i] == categoryIds;
    var ids := q;
    var sortBy := Get(params, "sortBy");
    var minPrice := Get(params, "minPrice");
    var maxPrice := Get(params, "maxPrice");
    var limit := Get(params, "limit");
    if Truthy(sortBy) { q := q + [QueryParam("sortBy", sortBy.value)]; }
    assert q == ids + Optional("sortBy", sortBy);
    if Truthy(minPrice) { q := q + [QueryParam("minPrice", minPrice.value)]; }
    assert q == ids + Optional("sortBy", sortBy) + Optional("minPrice", minPrice);
    if Truthy(maxPrice) { q := q + [QueryParam("maxPrice", maxPrice.value)]; }
    assert q == ids + Optional("sortBy", sortBy) + Optional("minPrice", minPrice)
                    + Optional("maxPrice", maxPrice);
    if Truthy(limit) { q := q + [QueryParam("limit", limit.value)]; }
    assert q == ids + Optional("sortBy", sortBy) + Optional("minPrice", minPrice)
                    + Optional("maxPrice", maxPrice) + Optional("limit", limit);
    q := q + [QueryParam("offset", OffsetValue(params))];
    Reassociate(ids, Optional("sortBy", sortBy), Optional("minPrice", minPrice),
                Optional("maxPrice", maxPrice), Optional("limit", limit),
                [QueryParam("offset", OffsetValue(params))]);
  }

  lemma Reassociate<T>(a: seq<T>, b: seq<T>, c: seq<T>, d: seq<T>, e: seq<T>, f: seq<T>)
    ensures a + b + c + d + e + f == a + (b + (c + (d + (e + f))))
  {
    assert a + b + c + d + e + f == (a + b + c + d) + (e + f);
    assert (a + b + c + d) + (e + f) == (a + b + c) + (d + (e + f));
    assert (a + b + c) + (d + (e + f)) == (a + b) + (c + (d + (e + f)));
  }

  // ---------------------------------------------------------------------------
  // Reading the backend query back

  lemma GetOptional(key: string, v: Option<string>, rest: seq<QueryParam>, k: string)
    ensures Get(Optional(key, v) + rest, k) == if k == key && Truthy(v) then v else Get(rest, k)
  {
    if Truthy(v) {
      assert (Optional(key, v) + rest)[1..] == rest;
    } else {
      assert Optional(key, v) + rest == rest;
    }
  }

  lemma IdParamsKeys(ids: seq<string>, key: string)
    requires key != "categoryIds"
    ensures forall j :: 0 <= j < |IdParams(ids)| ==> IdParams(ids)[j].key != key
  {
  }

  /** A filter reaches the backend exactly when its value is truthy, and then with the
      value `get` read (the first one given). */
  lemma ForwardedFilter(params: seq<QueryParam>, key: string)
    requires IsFilterKey(key)
    ensures Get(BackendQuery(params), key) == if Truthy(Get(params, key)) then Get(params, key) else None
  {
    var ids := IdParams(GetAll(params, "categoryIds"));
    IdParamsKeys(GetAll(params, "categoryIds"), key);
    GetAfterOthers(ids, FilterParams(params), key);
    var last := [QueryParam("offset", OffsetValue(params))];
    var t4 := Optional("limit", Get(params, "limit")) + last;
    var t3 := Optional("maxPrice", Get(params, "maxPrice")) + t4;
    var t2 := Optional("minPrice", Get(params, "minPrice")) + t3;
    GetOptional("sortBy", Get(params, "sortBy"), t2, key);
    GetOptional("minPrice", Get(params, "minPrice"), t3, key);
    GetOptional("maxPrice", Get(params, "maxPrice"), t4, key);
    GetOptional("limit", Get(params, "limit"), last, key);
    assert Get(last, key) == None;
  }

  /** The offset is always forwarded, defaulting to "0". */
  lemma ForwardedOffset(params: seq<QueryParam>)
    ensures Get(BackendQuery(params), "offset") == Some(OffsetValue(params))
  {
    var ids := IdParams(GetAll(params, "categoryIds"));
    IdParamsKeys(GetAll(params, "categoryIds"), "offset");
    GetAfterOthers(ids, FilterParams(params), "offset");
    var last := [QueryParam("offset", OffsetValue(params))];
    var t4 := Optional("limit", Get(params, "limit")) + last;
    var t3 := Optional("maxPrice", Get(params, "maxPrice")) + t4;
    var t2 := Optional("minPrice", Get(params, "minPrice")) + t3;
    GetOptional("sortBy", Get(params, "sortBy"), t2, "offset");
    GetOptional("minPrice", Get(params, "minPrice"), t3, "offset");
    GetOptional("maxPrice", Get(params, "maxPrice"), t4, "offset");
    GetOptional("limit", Get(params, "limit"), last, "offset");
  }

  /** Every category id given reaches the backend, in order, duplicates and empty values included. */
  lemma ForwardedIds(params: seq<QueryParam>)
    ensures GetAll(BackendQuery(params), "categoryIds") == GetAll(params, "categoryIds")
  {
    var given := GetAll(params, "categoryIds");
    GetAllConcat(IdParams(given), FilterParams(params), "categoryIds");
    GetAllUniform(IdParams(given), "categoryIds");
    var last := [QueryParam("offset", OffsetValue(params))];
    var t4 := Optional("limit", Get(params, "limit")) + last;
    var t3 := Optional("maxPrice", Get(params, "maxPrice")) + t4;
    var t2 := Optional("minPrice", Get(params, "minPrice")) + t3;
    GetAllOptional("sortBy", Get(params, "sortBy"), t2);
    GetAllOptional("minPrice", Get(params, "minPrice"), t3);
    GetAllOptional("maxPrice", Get(params, "maxPrice"), t4);
    GetAllOptional("limit", Get(params, "limit"), last);
    assert GetAll(last, "categoryIds") == [];
  }

  lemma GetAllOptional(key: string, v: Option<string>, rest: seq<QueryParam>)
    requires key != "categoryIds"
    ensures GetAll(Optional(key, v) + rest, "categoryIds") == GetAll(rest, "categoryIds")
  {
    if Truthy(v) {
      assert (Optional(key, v) + rest)[1..] == rest;
    } else {
      assert Optional(key, v) + rest == rest;
    }
  }

  /** Parameters the route does not know are dropped. */
  lemma ForwardedKeysOnly(params: seq<QueryParam>)
    ensures forall j :: 0 <= j < |BackendQuery(params)| ==> BackendQuery(params)[j].key in ForwardedKeys
  {
  }

  /** A load-more request of the category page comes out of the route unchanged. */
  lemma LoadMoreForwardedVerbatim(categoryIds: seq<int>, offset: int)
    ensures BackendQuery(CategoryListing.LoadMoreQuery(categoryIds, offset))
         == CategoryListing.LoadMoreQuery(categoryIds, offset)
  {
    var q := CategoryListing.LoadMoreQuery(categoryIds, offset);
    CategoryListing.LoadMoreQueryFilters(categoryIds, offset);
    CategoryListing.LoadMoreQueryPaging(categoryIds, offset);
    CategoryListing.LoadMoreQueryIds(categoryIds, offset);
    assert IntString(offset) != "";
    assert OffsetValue(q) == IntString(offset);
    assert IdParams(GetAll(q, "categoryIds")) == CategoryListing.CategoryParams(categoryIds);
    FilterParamsAllSet(q, "price_desc", "0", "9999999999", IntString(CategoryListing.PageSize));
  }

  /** When all four filters are set, the backend query lists them in order, then the offset. */
  lemma FilterParamsAllSet(params: seq<QueryParam>, sortBy: string, minPrice: string, maxPrice: string, limit: string)
    requires sortBy != "" && minPrice != "" && maxPrice != "" && limit != ""
    requires Get(params, "sortBy") == Some(sortBy) && Get(params, "minPrice") == Some(minPrice)
    requires Get(params, "maxPrice") == Some(maxPrice) && Get(params, "limit") == Some(limit)
    ensures FilterParams(params)
         == [QueryParam("sortBy", sortBy), QueryParam("minPrice", minPrice), QueryParam("maxPrice", maxPrice)]
            + [QueryParam("limit", limit), QueryParam("offset", OffsetValue(params))]
  {
  }

  // ---------------------------------------------------------------------------
  // The handler

  predicate IsOk(status: int) {
    200 <= status <= 299
  }

  /** The `try` block after the `fetch`: `isJson` stands for `JSON.parse` succeeding. Building
      the answer throws for a status the response constructor refuses (a backend 204, 205 or
      304), and the `catch` then answers 500 as for a failed `fetch`. */
  function Relay(upstream: Upstream, isJson: string -> bool): (r: Response)
    ensures upstream.Threw? || !AcceptsBody(upstream.status) ==>
              r == Response(500, Envelope(false, 500, "Internal server error"))
    ensures upstream.Replied? && AcceptsBody(upstream.status) ==> r.status == upstream.status
    ensures upstream.Replied? && AcceptsBody(upstream.status) && IsOk(upstream.status) ==>
              r.body == Raw(upstream.text)
    ensures upstream.Replied? && AcceptsBody(upstream.status) && !IsOk(upstream.status) ==>
              if isJson(upstream.text) then r.body == Reserialised(upstream.text)
              else r.body == Envelope(false, upstream.status, "Products not found or unavailable")
    ensures r.body.Envelope? ==> !r.body.success && r.body.code == r.status
  {
    match upstream
    case Threw => Response(500, Envelope(false, 500, "Internal server error"))
    case Replied(status, text) =>
      if !AcceptsBody(status) then Response(500, Envelope(false, 500, "Internal server error"))
      else if IsOk(status) then Response(status, Raw(text))
      else if isJson(text) then Response(status, Reserialised(text))
      else Response(status, Envelope(false, status, "Products not found or unavailable"))
  }

  /** A backend answer without content, even a successful one, is never relayed: the route
      answers 500. */
  lemma NoContentAnswers500(text: string, isJson: string -> bool)
    ensures Relay(Replied(204, text), isJson) == Response(500, Envelope(false, 500, "Internal server error"))
    ensures Relay(Replied(205, text), isJson) == Response(500, Envelope(false, 500, "Internal server error"))
    ensures Relay(Replied(304, text), isJson) == Response(500, Envelope(false, 500, "Internal server error"))
  {
  }

  /** `GET`: the request the route sends, if any, and its response. `beApi` is `BE_API`;
      `upstream` is what the backend call came to when there is one. */
  method HandleGet(params: seq<QueryParam>, beApi: Option<string>, upstream: Upstream, isJson: string -> bool)
    returns (request: Option<BackendRequest>, response: Response)
    ensures GetAll(params, "categoryIds") == [] ==>
              request.None? && response == Response(400, Envelope(false, 400, "At least one categoryId is required"))
    ensures GetAll(params, "categoryIds") != [] && !Truthy(beApi) ==>
              request.None? && response == Response(500, Envelope(false, 500, "Backend API not configured"))
    ensures GetAll(params, "categoryIds") != [] && Truthy(beApi) ==>
              && request == Some(BackendRequest(beApi.value + BackendPath, BackendQuery(params)))
              && response == Relay(upstream, isJson)
    ensures GetAll(params, "categoryIds") != [] && Truthy(beApi) && upstream.Replied? && NullBodyStatus(upstream.status) ==>
              response == Response(500, Envelope(false, 500, "Internal server error"))
    ensures response.body.Envelope? ==> !response.body.success && response.body.code == response.status
  {
    var categoryIds := GetAll(params, "categoryIds");
    if |categoryIds| == 0 {
      return None, Response(400, Envelope(false, 400, "At least one categoryId is required"));
    }
    if !Truthy(beApi) {
      return None, Response(500, Envelope(false, 500, "Backend API not configured"));
    }
    var query := BuildBackendQuery(params);
    request := Some(BackendRequest(beApi.value + BackendPath, query));
    response := Relay(upstream, isJson);
  }
}
