/** The server route that proxies a custom page request to the backend
    (src/app/api/page/route.ts): it validates `slug` and `except_id`, builds the path
    `member/page/<slug>[/<except_id>]` under the normalised `BE_API` base, copies the other
    query parameters with `set`, and relays the answer. `encodeURIComponent` is the
    parameter `encode`; the backend's answer is the parameter `upstream`. */
module PageProxy {
  import opened Wrappers
  import opened Text
  import opened Http

  /** The route's own error bodies, or the backend's body passed on as it came. */
  datatype Body = ErrorBody(error: string) | FetchFailed(error: string, details: string) | Raw(text: string)

  datatype Response = Response(status: int, body: Body)

  /** What the `fetch` came to: it threw (with the message the route reports), or the backend answered. */
  datatype Upstream = Threw(message: string) | Replied(status: int, text: string)

  /** The backend URL as its parts: the base, the path resolved against it, the query. */
  datatype BackendRequest = BackendRequest(base: string, path: string, query: seq<QueryParam>)

  const PagePrefix: string := "member/page/"

  // ---------------------------------------------------------------------------
  // Base URL and path

  /** `BE_API.endsWith('/') ? BE_API : BE_API + '/'` */
  function NormalizeBase(beApi: string): (r: string)
    ensures EndsWith(r, "/")
    ensures StartsWith(r, beApi) && |r| <= |beApi| + 1
    ensures r == beApi <==> EndsWith(beApi, "/")
  {
    if EndsWith(beApi, "/") then beApi else beApi + "/"
  }

  lemma NormalizeBaseIdempotent(beApi: string)
    ensures NormalizeBase(NormalizeBase(beApi)) == NormalizeBase(beApi)
  {
  }

  /** `exceptId && exceptId.trim() !== ""` */
  predicate HasExceptId(exceptId: Option<string>) {
    exceptId.Some? && !Blank(exceptId.value)
  }

  /** A present, non-blank `except_id` that fails `/^\d+$/` once trimmed. */
  predicate ExceptIdInvalid(exceptId: Option<string>) {
    HasExceptId(exceptId) && !AllDigits(Trim(exceptId.value))
  }

  /** The backend path: the encoded, trimmed slug, then the encoded, trimmed `except_id`
      as one more segment when there is one. */
  function PagePath(slug: string, exceptId: Option<string>, encode: string -> string): string {
    PagePrefix + encode(Trim(slug)) + (if HasExceptId(exceptId) then "/" + encode(Trim(exceptId.value)) else "")
  }

  lemma PagePathCases(slug: string, exceptId: Option<string>, encode: string -> string)
    ensures HasExceptId(exceptId) ==>
              PagePath(slug, exceptId, encode) == PagePrefix + encode(Trim(slug)) + "/" + encode(Trim(exceptId.value))
    ensures !HasExceptId(exceptId) ==> PagePath(slug, exceptId, encode) == PagePrefix + encode(Trim(slug))
  {
  }

  /** When the encoder never emits '/', as `encodeURIComponent` does not, the path has
      exactly the segments `member`, `page`, the slug and, when given, the `except_id`. */
  lemma PathSegments(slug: string, exceptId: Option<string>, encode: string -> string)
    requires '/' !in encode(Trim(slug))
    requires HasExceptId(exceptId) ==> '/' !in encode(Trim(exceptId.value))
    ensures Split(PagePath(slug, exceptId, encode), '/')
         == ["member", "page", encode(Trim(slug))]
            + (if HasExceptId(exceptId) then [encode(Trim(exceptId.value))] else [])
  {
    var s := encode(Trim(slug));
    var path := PagePath(slug, exceptId, encode);
    PagePathCases(slug, exceptId, encode);
    if HasExceptId(exceptId) {
      var e := encode(Trim(exceptId.value));
      assert path == PagePrefix + s + "/" + e;
      SegmentsWithExceptId(s, e);
      assert ["member", "page", s] + [e] == ["member", "page", s, e];
    } else {
      assert path == PagePrefix + s;
      SegmentsSlugOnly(s);
      assert ["member", "page", s] + [] == ["member", "page", s];
    }
  }

  lemma SegmentsWithExceptId(s: string, e: string)
    requires '/' !in s && '/' !in e
    ensures Split(PagePrefix + s + "/" + e, '/') == ["member", "page", s, e]
  {
    var t := s + ['/'] + e;
    assert PagePrefix + s + "/" + e == PagePrefix + t;
    PrefixSegments(t);
    SplitAfterPiece(s, '/', e);
    SplitWhole(e, '/');
    assert Split(t, '/') == [s, e];
  }

  lemma SegmentsSlugOnly(s: string)
    requires '/' !in s
    ensures Split(PagePrefix + s, '/') == ["member", "page", s]
  {
    PrefixSegments(s);
    SplitWhole(s, '/');
    assert Split(s, '/') == [s];
  }

  lemma PrefixSegments(rest: string)
    ensures Split(PagePrefix + rest, '/') == ["member", "page"] + Split(rest, '/')
  {
    PagePrefixPieces();
    assert PagePrefix + rest == "member" + ['/'] + ("page" + ['/'] + rest);
    SplitAfterPiece("member", '/', "page" + ['/'] + rest);
    SplitAfterPiece("page", '/', rest);
  }

  lemma PagePrefixPieces()
    ensures PagePrefix == "member" + ['/'] + "page" + ['/']
  {
  }

  /** The test is on digits only, so "0" passes although the message asks for a positive integer. */
  lemma ZeroExceptIdAccepted()
    ensures HasExceptId(Some("0")) && !ExceptIdInvalid(Some("0"))
  {
    TrimUnchanged("0");
  }

  // ---------------------------------------------------------------------------
  // Forwarded parameters

  /** The two names the route consumes itself. */
  predicate Reserved(key: string) {
    key == "slug" || key == "except_id"
  }

  /** The query of the backend URL after the `for` loop has copied `entries` with `set`. */
  function Forwarded(entries: seq<QueryParam>): seq<QueryParam>
    decreases |entries|
  {
    if entries == [] then []
    else
      var prev := Forwarded(entries[..|entries| - 1]);
      var e := entries[|entries| - 1];
      if Reserved(e.key) then prev else SetParam(prev, e.key, e.value)
  }

  /** One more turn of the copying loop. */
  lemma ForwardedStep(entries: seq<QueryParam>, i: nat)
    requires i < |entries|
    ensures Forwarded(entries[..i + 1])
         == if Reserved(entries[i].key) then Forwarded(entries[..i])
            else SetParam(Forwarded(entries[..i]), entries[i].key, entries[i].value)
  {
    assert entries[..i + 1][..i] == entries[..i];
  }

  /** The value of the last pair with the name. */
  function LastValue(entries: seq<QueryParam>, key: string): (r: Option<string>)
    ensures r.Some? <==> HasKey(entries, key)
    decreases |entries|
  {
    if entries == [] then None
    else if entries[|entries| - 1].key == key then Some(entries[|entries| - 1].value)
    else
      var r := LastValue(entries[..|entries| - 1], key);
      assert HasKey(entries[..|entries| - 1], key) ==> HasKey(entries, key);
      assert HasKey(entries, key) ==> HasKey(entries[..|entries| - 1], key) by {
        if HasKey(entries, key) {
          var i :| 0 <= i < |entries| && entries[i].key == key;
          assert entries[..|entries| - 1][i].key == key;
        }
      }
      r
  }

  /** Each name other than `slug` and `except_id` reaches the backend once, with the last
      value given for it; `slug` and `except_id` never do. */
  lemma {:induction false} ForwardedLastWins(entries: seq<QueryParam>, key: string)
    ensures GetAll(Forwarded(entries), key)
         == if Reserved(key) || !HasKey(entries, key) then [] else [LastValue(entries, key).value]
    decreases |entries|
  {
    if entries != [] {
      var init := entries[..|entries| - 1];
      var e := entries[|entries| - 1];
      ForwardedLastWins(init, key);
      if !Reserved(e.key) {
        if e.key == key {
          SetParamValue(Forwarded(init), key, e.value);
        } else {
          SetParamOthers(Forwarded(init), e.key, e.value, key);
        }
      }
    }
  }

  /** The `for` loop over `searchParams.entries()` that fills the backend URL's query. */
  method CopyParams(params: seq<QueryParam>) returns (query: seq<QueryParam>)
    ensures query == Forwarded(params)
  {
    query := [];
    var i := 0;
    while i < |params|
      invariant 0 <= i <= |params|
      invariant query == Forwarded(params[..i])
    {
      var entry := params[i];
      ForwardedStep(params, i);
      if entry.key != "slug" && entry.key != "except_id" {
        query := SetParam(query, entry.key, entry.value);
      }
      i := i + 1;
    }
    assert params[..i] == params;
  }

  // ---------------------------------------------------------------------------
  // The handler

  /** `GET`: the request the route sends, if any, and its response. `beApi` is `BE_API`;
      `refusal(s)` is the message of the error `new NextResponse` throws for a status `s` it
      does not accept with a body, which the `catch` reports like a failed `fetch`. */
  method HandleGet(params: seq<QueryParam>, beApi: Option<string>, encode: string -> string, upstream: Upstream,
                   refusal: int -> string)
    returns (request: Option<BackendRequest>, response: Response)
    ensures var slug := Get(params, "slug");
            slug.None? || Blank(slug.value) ==>
              request.None? && response == Response(400, ErrorBody("Missing 'slug' query parameter"))
    ensures var slug := Get(params, "slug");
            slug.Some? && !Blank(slug.value) && !Truthy(beApi) ==>
              request.None? && response == Response(500, ErrorBody("Backend API (BE_API) is not configured"))
    ensures var slug := Get(params, "slug");
            slug.Some? && !Blank(slug.value) && Truthy(beApi) && ExceptIdInvalid(Get(params, "except_id")) ==>
              request.None? && response == Response(400, ErrorBody("'except_id' must be a positive integer"))
    ensures var slug := Get(params, "slug");
            var exceptId := Get(params, "except_id");
            slug.Some? && !Blank(slug.value) && Truthy(beApi) && !ExceptIdInvalid(exceptId) ==>
              && request == Some(BackendRequest(NormalizeBase(beApi.value), PagePath(slug.value, exceptId, encode),
                                                Forwarded(params)))
              && (upstream.Replied? && AcceptsBody(upstream.status) ==>
                    response == Response(upstream.status, Raw(upstream.text)))
              && (upstream.Replied? && !AcceptsBody(upstream.status) ==>
                    response == Response(500, FetchFailed("Failed to fetch from backend", refusal(upstream.status))))
              && (upstream.Threw? ==>
                    response == Response(500, FetchFailed("Failed to fetch from backend", upstream.message)))
  {
    var slug := Get(params, "slug");
    var exceptId := Get(params, "except_id");
    if slug.None? || slug.value == "" || Trim(slug.value) == "" {
      return None, Response(400, ErrorBody("Missing 'slug' query parameter"));
    }
    if beApi.None? || beApi.value == "" {
      return None, Response(500, ErrorBody("Backend API (BE_API) is not configured"));
    }
    var baseUrl := if EndsWith(beApi.value, "/") then beApi.value else beApi.value + "/";
    var backendPath := PagePrefix + encode(Trim(slug.value));
    if exceptId.Some? && exceptId.value != "" && Trim(exceptId.value) != "" {
      if !AllDigits(Trim(exceptId.value)) {
        return None, Response(400, ErrorBody("'except_id' must be a positive integer"));
      }
      backendPath := backendPath + "/" + encode(Trim(exceptId.value));
      assert HasExceptId(exceptId);
    } else {
      assert !HasExceptId(exceptId);
    }
    PagePathCases(slug.value, exceptId, encode);
    var query := CopyParams(params);
    request := Some(BackendRequest(baseUrl, backendPath, query));
    match upstream {
      case Replied(status, text) =>
        if AcceptsBody(status) {
          response := Response(status, Raw(text));
        } else {
          response := Response(500, FetchFailed("Failed to fetch from backend", refusal(status)));
        }
      case Threw(message) =>
        response := Response(500, FetchFailed("Failed to fetch from backend", message));
    }
  }
}
