# xsell front end: a verified model of its logic

This is a Dafny model of the logic inside the xsell marketplace front end, a Next.js
application. It covers:

- the three server routes that proxy requests to the backend (category listings, custom
  pages, profile updates);
- the "who am I" route that reads the user claims out of the login JWT;
- the middleware that guards account pages and the "post an ad" flow;
- the draft store of the "post an ad" flow;
- the category page's "Load More" accumulator;
- the banner carousel;
- the product page (slug, fetch outcome, main image, image URL, grouped specifications);
- the forgot-password and e-mail-validation dialogs with their one-time-code countdown.

One module models one source file. The exception is `OtpTimer`, which holds the countdown
that both code dialogs share.

- Components and the store change their state in place. Each becomes a `class` whose
  fields are the `useState` hooks (or the store fields).
- Every method of such a class is proved equal to a pure transition function on a value of
  the state: `Settle`, `LoadMoreStep`, `Next`, `Begin`. The properties are lemmas about those
  functions.
- Routes are pure request-to-response functions. Where a route builds a query in a loop,
  a method builds it and is proved equal to a function.
- Everything outside the code is a parameter:
  - the backend's answer, or the exception that `fetch` throws;
  - `atob` with `JSON.parse`;
  - `encodeURIComponent`;
  - whether a text is JSON;
  - environment variables.

Shared helpers:

- `Wrappers`: `Option`.
- `Text`: ECMAScript-style `trim`, ASCII lower-casing, prefix and substring tests, `split`,
  decimal rendering of integers.
- `Http`: query strings as ordered lists of pairs, with `get`, `getAll` and `set` as
  `URLSearchParams` defines them. `get` returns the first value; `set` replaces the first
  pair and drops the later ones.

The JWT is split as in the JWS Compact Serialization (section 7.1 of RFC 7515). Its payload
segment is base64url (section 5 of RFC 4648) and is translated to the standard base64
alphabet before decoding.

Three behaviours of the code that a reader might not expect are kept as written:

- `hasMore` starts `true` even when the server-rendered first page is short. The first
  click then loads an empty or short page and ends the list (`CategoryListing.InitialState`,
  `CategoryListing.SettleStops`).
- Only ids already held are filtered out. Two items with the same id inside one fetched page
  are both appended (`CategoryListing.DuplicatesWithinOnePageKept`). So ids stay unique only
  when every page is itself unique (`CategoryListing.RunInvariants`).
- The page route's error message asks for a positive `except_id`, but the check is
  digits-only, so `"0"` passes (`PageProxy.ZeroExceptIdAccepted`).

## Model

| member | source | states |
|---|---|---|
| CategoryListing.NewProducts | src/components/category/product_category_content.tsx:53-54 | the new items are exactly the page's items whose id is not already held, taken from the page |
| CategoryListing.NewProductsConcat | src/components/category/product_category_content.tsx:54 | the filter keeps backend order: it distributes over concatenation |
| CategoryListing.NewProductsAllFresh | src/components/category/product_category_content.tsx:54 | a page with no held id passes whole |
| CategoryListing.NewProductsNoneFresh | src/components/category/product_category_content.tsx:54 | a page of held ids only yields nothing |
| CategoryListing.NewProductsUnique | src/components/category/product_category_content.tsx:53-54 | filtering a page with unique ids gives unique ids |
| CategoryListing.DuplicatesWithinOnePageKept | src/components/category/product_category_content.tsx:53-54 | two items with one id in one page are both kept, so the list can hold duplicate ids |
| CategoryListing.InitialState | src/components/category/product_category_content.tsx:19-22 | the list starts as the seed's data or empty, offset 21, `hasMore` true, not loading |
| CategoryListing.Settle | src/components/category/product_category_content.tsx:46-75 | after a response: not loading; `hasMore` never comes back; the list only grows at its end; the offset grows by 21 exactly when items were appended; offsets stay multiples of 21 |
| CategoryListing.SettleAppends | src/components/category/product_category_content.tsx:53-64 | a page with new items appends them after the held list and advances the offset; `hasMore` survives only a full page |
| CategoryListing.SettleStops | src/components/category/product_category_content.tsx:48-72 | a failure, missing data, or an empty, all-duplicate or short page ends the list |
| CategoryListing.SettleKeepsList | src/components/category/product_category_content.tsx:48-72 | a failure, an empty page or an all-duplicate page changes neither the list nor the offset |
| CategoryListing.AllDuplicatePageStops | src/components/category/product_category_content.tsx:53-57 | a page repeating only held items ends the list and leaves list and offset as they were |
| CategoryListing.SettleKeepsUniqueIds | src/components/category/product_category_content.tsx:53-59 | appended items never share an id with held ones, so unique ids stay unique when each page is unique |
| CategoryListing.LoadMoreStep | src/components/category/product_category_content.tsx:27 | while loading, or once the list has ended, a click changes nothing |
| CategoryListing.RunAfterEnd | src/components/category/product_category_content.tsx:27 | once `hasMore` is false, no sequence of clicks changes the state |
| CategoryListing.RunInvariants | src/components/category/product_category_content.tsx:26-76 | over any sequence of clicks the list only grows at its end, `hasMore` never returns, offsets stay positive multiples of 21, and ids stay unique |
| CategoryListing.ShortSecondPageScenario | src/components/category/product_category_content.tsx:48-66 | a 21-item seed followed by a 9-item page gives all 30 items, offset 42, end of list |
| CategoryListing.BuildLoadMoreQuery | src/components/category/product_category_content.tsx:33-43 | the query is one `categoryIds` pair per id in order, then the sort, the price bounds, the limit 21 and the current offset |
| CategoryListing.LoadMoreQueryFilters | src/components/category/product_category_content.tsx:39-41 | read back with `get`, the query sorts by descending price with bounds 0 and 9999999999 |
| CategoryListing.LoadMoreQueryPaging | src/components/category/product_category_content.tsx:42-43 | read back with `get`, the query carries the limit 21 and the current offset |
| CategoryListing.LoadMoreQueryIds | src/components/category/product_category_content.tsx:35-37 | read back with `getAll`, the query lists every category id in order |
| CategoryListing.ListingController.constructor | src/components/category/product_category_content.tsx:19-22 | the hooks start at the initial state |
| CategoryListing.ListingController.BeginLoad | src/components/category/product_category_content.tsx:27-45 | the guard returns without a request; otherwise `isLoading` is set and the load-more query for the current offset is sent |
| CategoryListing.ListingController.FinishLoad | src/components/category/product_category_content.tsx:46-75 | the hooks become `Settle` of their old values and the outcome |
| CategoryListing.ListingController.LoadMore | src/components/category/product_category_content.tsx:26-76 | a request is sent exactly when neither loading nor ended; the new state is `LoadMoreStep` of the old one |
| CategoryListing.Render | src/components/category/product_category_content.tsx:79-152 | the error view exactly when the seed failed, showing the seed's non-empty error or else "Failed to load products"; the empty view exactly when the list is empty; otherwise the grid of the held items, the button exactly while `hasMore` and disabled exactly while loading, and the end note exactly when the button is gone |
| CategoryProxy.OffsetValue | src/app/api/product/category/route.ts:11 | the offset is never empty: the first value given when truthy, else "0" |
| CategoryProxy.BuildBackendQuery | src/app/api/product/category/route.ts:28-38 | the loop and the guarded appends build the backend query: the ids as given, the truthy filters in fixed order, then the offset |
| CategoryProxy.ForwardedFilter | src/app/api/product/category/route.ts:7-10 | each of `sortBy`, `minPrice`, `maxPrice`, `limit` reaches the backend exactly when truthy, with the first value given |
| CategoryProxy.ForwardedOffset | src/app/api/product/category/route.ts:11 | the offset always reaches the backend, defaulting to "0" |
| CategoryProxy.ForwardedIds | src/app/api/product/category/route.ts:30-32 | every category id given reaches the backend in order, duplicates included |
| CategoryProxy.ForwardedKeysOnly | src/app/api/product/category/route.ts:28-38 | parameters the route does not know are dropped |
| CategoryProxy.LoadMoreForwardedVerbatim | src/app/api/product/category/route.ts:28-38 | a load-more query of the category page comes out of the route unchanged |
| CategoryProxy.FilterParamsAllSet | src/app/api/product/category/route.ts:34-38 | with all four filters set, they follow the ids in fixed order, then the offset |
| CategoryProxy.Relay | src/app/api/product/category/route.ts:42-80 | a throw, or a backend status the response refuses with a body (204, 205, 304), gives 500 "Internal server error"; otherwise the backend status is kept; a success body is passed as it came; a failure body is passed on when it is JSON, else replaced by an envelope carrying the status |
| CategoryProxy.NoContentAnswers500 | src/app/api/product/category/route.ts:64-79 | a backend 204, 205 or 304 is never relayed: the route answers 500 "Internal server error" |
| CategoryProxy.HandleGet | src/app/api/product/category/route.ts:3-81 | no ids gives 400; no `BE_API` gives 500; otherwise the backend query goes to `BE_API + "member/product/category"` and the answer is relayed, a backend 204, 205 or 304 becoming 500; every envelope the route builds has `success` false and `code` equal to the status |
| PageProxy.NormalizeBase | src/app/api/page/route.ts:24 | the base ends with '/', extends `BE_API` by at most that slash, and equals it exactly when it already ended with '/' |
| PageProxy.NormalizeBaseIdempotent | src/app/api/page/route.ts:24 | normalising twice is normalising once |
| PageProxy.PagePathCases | src/app/api/page/route.ts:26-35 | the path is `member/page/` and the encoded trimmed slug, then `/` and the encoded trimmed `except_id` exactly when one is given |
| PageProxy.PathSegments | src/app/api/page/route.ts:26-35 | when encoding emits no '/', the path's segments are `member`, `page`, the slug and, when given, the `except_id` |
| PageProxy.ZeroExceptIdAccepted | src/app/api/page/route.ts:27-33 | `except_id` "0" passes the digits-only test although the message asks for a positive integer |
| PageProxy.ForwardedStep | src/app/api/page/route.ts:39-43 | one turn of the copying loop skips `slug` and `except_id` and `set`s anything else |
| PageProxy.LastValue | src/app/api/page/route.ts:41 | a last value exists exactly when the name is given |
| PageProxy.ForwardedLastWins | src/app/api/page/route.ts:39-43 | every other name reaches the backend exactly once, with the last value given; `slug` and `except_id` never do |
| PageProxy.CopyParams | src/app/api/page/route.ts:39-43 | the loop leaves the backend query equal to the forwarded parameters |
| PageProxy.HandleGet | src/app/api/page/route.ts:3-65 | a missing or blank slug gives 400; no `BE_API` gives 500; a non-digit `except_id` gives 400; otherwise the path under the normalised base with the forwarded query is fetched; the backend's status and body are relayed when the response accepts that status with a body, and otherwise (204, 205, 304), as when the fetch throws, the answer is 500 with the error's message |
| UserProxy.RelayAnswer | src/app/api/user/route.ts:57-61 | the status is the body's `code` when present, else the backend's; a status outside 200..599 or equal to 204, 205 or 304 makes the response throw and the route answers 500 with the error's message; any other is relayed with the backend's body |
| UserProxy.Put | src/app/api/user/route.ts:4-75 | a backend request is made exactly when `BE_API`, a bearer header, a `userId` and a JSON body are all present; every envelope built has `success` false and `code` equal to the status |
| UserProxy.ConfigCheckedFirst | src/app/api/user/route.ts:7-16 | without `BE_API` the answer is 500 whatever else the request holds |
| UserProxy.AuthCheckedBeforeUserId | src/app/api/user/route.ts:18-29 | with `BE_API` set, a header that is not a bearer token gives 401 whatever the `userId` |
| UserProxy.BearerPrefixExact | src/app/api/user/route.ts:20 | the prefix test is case-sensitive and needs the space |
| UserProxy.UserIdRequired | src/app/api/user/route.ts:31-43 | a missing or empty `userId` gives 400 once the earlier checks pass |
| UserProxy.ForwardedRequest | src/app/api/user/route.ts:45-55 | the request is a PUT to `member/user/<userId>` under `BE_API`, carrying the header as received and the body read |
| UserProxy.StatusFromCode | src/app/api/user/route.ts:57-61 | a status from the body's `code`, else from the backend, that the response accepts with a body is answered with the backend's body |
| UserProxy.RefusedStatusAnswers500 | src/app/api/user/route.ts:57-74 | a chosen status the response refuses (outside 200..599, or 204, 205, 304) gives 500 with the thrown error's message |
| UserProxy.FailureAnswers500 | src/app/api/user/route.ts:62-74 | a failed call answers 500 with the error's message, or "Network error" |
| AuthMe.Base64FromUrl | src/app/api/auth/me/route.ts:5-11 | the alphabet is translated character by character; padding brings lengths 2 and 3 mod 4 to a multiple of four; no '-' or '_' is left |
| AuthMe.ToBase64 | src/app/api/auth/me/route.ts:6-11 | the reassignments compute `Base64FromUrl` |
| AuthMe.UrlRoundTrip | src/app/api/auth/me/route.ts:6 | on a base64url input, mapping the alphabet back gives the input: the translation loses nothing |
| AuthMe.LengthOneModFourUnpadded | src/app/api/auth/me/route.ts:7-11 | an input of length 1 mod 4 is left unpadded and so is not a multiple of four |
| AuthMe.ExtractUser | src/app/api/auth/me/route.ts:31-39 | the user holds exactly the seven claims present in `payload.data`, with their values |
| AuthMe.GetMe | src/app/api/auth/me/route.ts:15-46 | a user is returned only from a cookie with exactly two dots whose middle segment decodes to JSON with `data`, and it is then exactly the claims extracted from that `data` |
| AuthMe.UndecodablePayloadGivesNoUser | src/app/api/auth/me/route.ts:28-45 | a payload that does not decode to JSON, or has no `data`, gives `{user: null}` |
| AuthMe.MissingCookieGivesNoUser | src/app/api/auth/me/route.ts:16-20 | no cookie, or an empty one, gives no user |
| AuthMe.MalformedTokenGivesNoUser | src/app/api/auth/me/route.ts:23-26 | a token that is not three segments gives no user |
| AuthMe.OnlyPayloadDecoded | src/app/api/auth/me/route.ts:23-29 | header and signature are never read, so no signature is verified |
| AuthMe.ThreeSegments | src/app/api/auth/me/route.ts:23 | a token of three dot-free pieces splits into exactly those pieces |
| AuthMe.WellFormedTokenYieldsClaims | src/app/api/auth/me/route.ts:23-41 | a well-formed token whose payload has `data` yields exactly its claims |
| RouteGuard.StartsWithAny | src/middleware.ts:10 | true exactly when some prefix of the list starts the path |
| RouteGuard.Middleware | src/middleware.ts:7-33 | the only outcomes are to let the request through or to redirect to "/" or "/post" |
| RouteGuard.ProtectedIff | src/middleware.ts:4-10 | a path is protected exactly when it starts with "/post", "/profile", "/my-ads" or "/my-favorites" |
| RouteGuard.PrefixNotSegment | src/middleware.ts:10 | the test is on characters, not path segments: "/postx" and "/profile-public" are protected |
| RouteGuard.UnprotectedPassesThrough | src/middleware.ts:12-32 | an unprotected path goes through whatever the cookies |
| RouteGuard.NotLoggedInGoesHome | src/middleware.ts:14-18 | without the login cookie a protected path redirects to "/" |
| RouteGuard.PostRedirectIff | src/middleware.ts:21-28 | the redirect to "/post" happens exactly for a logged-in request under "/post/attributes" without the category cookie |
| RouteGuard.HomeRedirectIff | src/middleware.ts:12-18 | the redirect home happens exactly for a protected path without the login cookie |
| RouteGuard.AttributesWithoutLogin | src/middleware.ts:14-28 | the attributes page without login goes to "/", not "/post" |
| RouteGuard.RedirectTargetsSettle | src/middleware.ts:7-33 | "/" and, for a logged-in user, "/post" are let through, so no request is redirected twice |
| PostStore.InitialDraftIsEmpty | src/stores/post_store.ts:50-59 | the initial draft has empty texts and lists, no location, no price and the newest-first sort |
| PostStore.RemoveAt | src/stores/post_store.ts:73-76 | an index in range drops that image and keeps the others in order; any other index changes nothing |
| PostStore.AddIfAbsent | src/stores/post_store.ts:83-88 | the tag ends up present; an already present tag changes nothing; a new one is appended; no duplicates are created |
| PostStore.RemoveAll | src/stores/post_store.ts:90-93 | the tags left are exactly the old tags other than the removed one |
| PostStore.RemoveAllConcat | src/stores/post_store.ts:92 | removal keeps the relative order of the other tags |
| PostStore.RemoveAllAbsent | src/stores/post_store.ts:92 | removing an absent tag changes nothing |
| PostStore.RemoveAllKeepsNoDuplicates | src/stores/post_store.ts:92 | removal keeps a list free of duplicates |
| PostStore.AddThenRemove | src/stores/post_store.ts:83-93 | adding a new tag and removing it gives the old tags back |
| PostStore.Store.constructor | src/stores/post_store.ts:61-62 | the store starts at the initial draft |
| PostStore.Store.SetTitle | src/stores/post_store.ts:64 | only the title changes |
| PostStore.Store.SetDescription | src/stores/post_store.ts:65 | only the description changes |
| PostStore.Store.SetImages | src/stores/post_store.ts:66 | only the image list changes, to the list given |
| PostStore.Store.AddImage | src/stores/post_store.ts:68-71 | only the image list changes, with the image appended |
| PostStore.Store.RemoveImage | src/stores/post_store.ts:73-76 | only the image list changes, by `RemoveAt` |
| PostStore.Store.SetLocation | src/stores/post_store.ts:78 | only the location changes |
| PostStore.Store.ClearLocation | src/stores/post_store.ts:79 | only the location changes, to none |
| PostStore.Store.SetCategory | src/stores/post_store.ts:80 | only the category changes |
| PostStore.Store.SetTags | src/stores/post_store.ts:81 | only the tag list changes, to the list given |
| PostStore.Store.AddTag | src/stores/post_store.ts:83-88 | only the tags change, by `AddIfAbsent`; no duplicates are created |
| PostStore.Store.RemoveTag | src/stores/post_store.ts:90-93 | only the tags change, by `RemoveAll`; the tag is gone |
| PostStore.Store.SetPrice | src/stores/post_store.ts:95 | only the price changes |
| PostStore.Store.SetSortMyAd | src/stores/post_store.ts:97 | only the sort order changes |
| PostStore.Store.ResetPost | src/stores/post_store.ts:99 | every field goes back to the initial draft |
| Banners.NextIndex | src/components/banners_client.tsx:17-21 | with banners the index stays in range; without, it does not move |
| Banners.AdvanceIsModular | src/components/banners_client.tsx:17-33 | after `k` ticks the index is `k` places further, modulo the banner count |
| Banners.FullCycle | src/components/banners_client.tsx:17-21 | after as many ticks as banners the carousel is back where it started |
| Banners.VisibleBanners | src/components/banners_client.tsx:39-46 | always three entries |
| Banners.ActiveIsCurrent | src/components/banners_client.tsx:60 | the active entry is the current banner |
| Banners.VisibleRepeats | src/components/banners_client.tsx:42 | entries a multiple of the count apart show the same banner: with fewer than three banners some repeat |
| Banners.SmallListAllVisible | src/components/banners_client.tsx:39-46 | with at most three banners, every banner is visible |
| Banners.ClickTarget | src/components/banners_client.tsx:76 | clicking the active entry does nothing; another entry gives an index in range |
| Banners.ClickBringsToFront | src/components/banners_client.tsx:76 | clicking an entry makes its banner the active one |
| Banners.SingleBannerStays | src/components/banners_client.tsx:17-33 | with one banner no timer runs and a tick would not move anything |
| Banners.Carousel.constructor | src/components/banners_client.tsx:13-15 | index 0, not hovered |
| Banners.Carousel.NextSlide | src/components/banners_client.tsx:17-21 | the index becomes `NextIndex` of the old one and stays in range |
| Banners.Carousel.GoToSlide | src/components/banners_client.tsx:23-25 | the index becomes the one given |
| Banners.Carousel.SetHovered | src/components/banners_client.tsx:53-54 | only the hover flag changes |
| Banners.Carousel.GetVisibleBanners | src/components/banners_client.tsx:39-46 | the loop builds `VisibleBanners` of the current index |
| ProductDetail.NormalizeSlug | src/components/product/product_detail.tsx:29-34 | a string gives its trim; a non-empty array gives its first element trimmed; absent or empty gives none |
| ProductDetail.SlugToFetch | src/components/product/product_detail.tsx:29-40 | the fetched slug is the normalised slug, non-empty and trimmed; nothing is fetched exactly when the normalised slug is none or empty |
| ProductDetail.FirstSegmentTrimmed | src/components/product/product_detail.tsx:29-34 | for the segments `" phone-x\n"`, `"extra"` the fetched slug is `"phone-x"` |
| Text.Trim | src/components/product/product_detail.tsx:31-34 | `trim` gives the infix of the input between white-space margins that neither starts nor ends with white space, empty exactly for a blank input |
| Text.TrimIsInfix | src/components/product/product_detail.tsx:31-34 | the trim is the infix of the input between two blank margins |
| Text.TrimUnique | src/components/product/product_detail.tsx:31-34 | any such infix whose ends are not white space is the trim, so the contract of `Trim` determines it |
| ProductDetail.SlugFetchedIff | src/components/product/product_detail.tsx:29-40 | a product is fetched exactly when the string, or the first segment, is not blank |
| ProductDetail.Begin | src/components/product/product_detail.tsx:36-44 | an unusable slug sets "Invalid product URL" and stops loading; a usable one starts loading and clears the error |
| ProductDetail.Settle | src/components/product/product_detail.tsx:45-58 | loading always ends; success shows the product from its first image; otherwise the product and image stay and a non-empty error is set, "Failed to load product" when the call threw |
| ProductDetail.FailureMessage | src/components/product/product_detail.tsx:51 | a failed answer shows the backend's non-empty message, else "Product not found" |
| ProductDetail.FetchAlwaysSettles | src/components/product/product_detail.tsx:36-58 | a fetch from a usable slug ends with loading off and either a product on its first image or a non-empty error |
| ProductDetail.FirstPrimary | src/components/product/product_detail.tsx:120 | the result is a primary image of the list; none exactly when no image is primary |
| ProductDetail.MainImage | src/components/product/product_detail.tsx:120-121 | an image of the list, the one at the index when in range, else the first image when no image is primary; none only for an empty list |
| ProductDetail.FallbackPrefersPrimary | src/components/product/product_detail.tsx:120-121 | with the index out of range, the first primary image is shown |
| ProductDetail.FirstPrimaryAt | src/components/product/product_detail.tsx:120 | `find` returns the first primary image |
| ProductDetail.ImageUrl | src/components/product/product_detail.tsx:124-127 | a URL starting with "http" is kept; another gets the storage URL in front |
| ProductDetail.ImageUrlIdempotent | src/components/product/product_detail.tsx:124-127 | with an absolute storage URL, applying the rule twice is applying it once |
| ProductDetail.ClassifyIgnoresCase | src/components/product/product_detail.tsx:137 | lower-casing the name first changes no group |
| ProductDetail.FirstRuleWins | src/components/product/product_detail.tsx:138-141 | a name matching both rules is General |
| ProductDetail.InGroup | src/components/product/product_detail.tsx:136-145 | a group is never longer than the list |
| ProductDetail.GroupSpecs | src/components/product/product_detail.tsx:130-145 | the `forEach` fills each list with `InGroup` of that group |
| ProductDetail.GroupsPartition | src/components/product/product_detail.tsx:136-145 | the three lists together are the specifications, counted with multiplicity |
| ProductDetail.GroupsCount | src/components/product/product_detail.tsx:136-145 | the three lists together are as long as the specifications |
| ProductDetail.InGroupMembers | src/components/product/product_detail.tsx:136-145 | a specification is in a group exactly when it is given and its name falls in that group |
| ProductDetail.InGroupConcat | src/components/product/product_detail.tsx:136-145 | grouping keeps the original order |
| ProductDetail.HeadingsDistinct | src/components/product/product_detail.tsx:130-134 | no two groups share a heading |
| ProductDetail.RenderedGroups | src/components/product/product_detail.tsx:323-325 | at most three headed lists, none empty |
| ProductDetail.NonemptyKeepsHeading | src/components/product/product_detail.tsx:325 | hiding empty lists keeps a heading exactly when some list under it is not empty |
| ProductDetail.HeadingShownIff | src/components/product/product_detail.tsx:323-325 | a group's heading is shown exactly when some specification belongs to it |
| ProductDetail.InGroupNonEmptyIff | src/components/product/product_detail.tsx:136-145 | a group is non-empty exactly when some specification falls in it |
| ProductDetail.ProductPage.constructor | src/components/product/product_detail.tsx:17-20 | loading, nothing loaded, no error, first image |
| ProductDetail.ProductPage.OnSlugParam | src/components/product/product_detail.tsx:26-44 | an absent parameter does nothing; otherwise the state becomes `Begin` and the fetched slug is `SlugToFetch` |
| ProductDetail.ProductPage.FinishFetch | src/components/product/product_detail.tsx:45-58 | the state becomes `Settle` of the old one |
| ProductDetail.ProductPage.SelectImage | src/components/product/product_detail.tsx:230 | only the main image index changes |
| OtpTimer.Tick | src/components/auth/forgot_password_content.tsx:19-31 | a firing keeps the timer valid, takes one second off while running, raises the flag exactly on the step from 1 to 0, and never lowers it |
| OtpTimer.TicksFromStart | src/components/auth/forgot_password_content.tsx:19-31 | from a fresh start, `k` firings leave 60-`k` seconds, and from 60 on, zero seconds with a resend offered |
| OtpTimer.TicksKeepValid | src/components/auth/validate_email_content.tsx:17-29 | firings keep the timer valid |
| OtpTimer.Control | src/components/auth/forgot_password_content.tsx:97-108 | the resend button exactly when `canResend`, else the seconds left |
| OtpTimer.ResendShownIffZero | src/components/auth/validate_email_content.tsx:90-101 | on a valid timer, the button shows exactly at zero and the label shows 1 to 60 seconds |
| ForgotPassword.SaveRule | src/components/auth/forgot_password_content.tsx:141-153 | saving is possible exactly when both fields hold the same non-empty password, and then no warning shows |
| ForgotPassword.Next | src/components/auth/forgot_password_content.tsx:19-54 | an event from a control that is not on screen changes nothing; no event moves the wizard back |
| ForgotPassword.NextKeepsValid | src/components/auth/forgot_password_content.tsx:19-44 | every event keeps the timer valid and at its start on the e-mail step |
| ForgotPassword.ReachableValid | src/components/auth/forgot_password_content.tsx:10-54 | every reachable form is valid |
| ForgotPassword.StepsForwardOnly | src/components/auth/forgot_password_content.tsx:33-54 | no sequence of events brings the wizard back to an earlier step |
| ForgotPassword.ValidateOtpAlwaysAdvances | src/components/auth/forgot_password_content.tsx:46-49 | any code leads to the new-password step, nothing else changing |
| ForgotPassword.SendStartsCountdown | src/components/auth/forgot_password_content.tsx:33-38 | sending moves to the code step with 60 seconds on the countdown and no resend button, the password fields unchanged |
| ForgotPassword.ResendRestartsCountdown | src/components/auth/forgot_password_content.tsx:40-44 | a resend puts the countdown back to 60 and hides the button, staying on the code step with nothing else changed |
| ForgotPassword.SecondsAfterSend | src/components/auth/forgot_password_content.tsx:19-38 | after sending, `k` seconds give the timer `k` firings from a fresh start, on the code step |
| ForgotPassword.Seconds | src/components/auth/forgot_password_content.tsx:20 | `k` seconds are `k` firings |
| ForgotPassword.ForgotPasswordDialog.constructor | src/components/auth/forgot_password_content.tsx:9-15 | the hooks start at the initial form |
| ForgotPassword.ForgotPasswordDialog.HandleSendEmail | src/components/auth/forgot_password_content.tsx:33-38 | the form becomes `Next` of the old one for this event |
| ForgotPassword.ForgotPasswordDialog.HandleResendOtp | src/components/auth/forgot_password_content.tsx:40-44 | the form becomes `Next` of the old one for this event |
| ForgotPassword.ForgotPasswordDialog.HandleValidateOtp | src/components/auth/forgot_password_content.tsx:46-49 | the form becomes `Next` of the old one for this event |
| ForgotPassword.ForgotPasswordDialog.HandleSavePassword | src/components/auth/forgot_password_content.tsx:51-54 | the dialog closes |
| ForgotPassword.ForgotPasswordDialog.SetNewPassword | src/components/auth/forgot_password_content.tsx:131 | the form becomes `Next` of the old one for this event |
| ForgotPassword.ForgotPasswordDialog.SetConfirmPassword | src/components/auth/forgot_password_content.tsx:138 | the form becomes `Next` of the old one for this event |
| ForgotPassword.ForgotPasswordDialog.OnSecond | src/components/auth/forgot_password_content.tsx:19-31 | the form becomes `Next` of the old one for a second |
| ValidateEmail.Next | src/components/auth/validate_email_content.tsx:17-47 | an event from a control that is not on screen changes nothing; the code step is never left; validating changes nothing |
| ValidateEmail.ReachableValid | src/components/auth/validate_email_content.tsx:10-47 | every reachable form is valid |
| ValidateEmail.StepsForwardOnly | src/components/auth/validate_email_content.tsx:31-36 | once on the code step, the dialog stays there |
| ValidateEmail.SendStartsCountdown | src/components/auth/validate_email_content.tsx:31-36 | sending moves to the code step with 60 seconds on the countdown and no resend button |
| ValidateEmail.ResendRestartsCountdown | src/components/auth/validate_email_content.tsx:38-42 | a resend puts the countdown back to 60 and hides the button, staying on the code step |
| ValidateEmail.ReachableResendIffZero | src/components/auth/validate_email_content.tsx:90-101 | on every reachable form, a resend is offered exactly when the countdown is over |
| ValidateEmail.ValidateEmailDialog.constructor | src/components/auth/validate_email_content.tsx:9-13 | the hooks start at the initial form |
| ValidateEmail.ValidateEmailDialog.HandleSendEmail | src/components/auth/validate_email_content.tsx:31-36 | the form becomes `Next` of the old one for this event |
| ValidateEmail.ValidateEmailDialog.HandleResendOtp | src/components/auth/validate_email_content.tsx:38-42 | the form becomes `Next` of the old one for this event |
| ValidateEmail.ValidateEmailDialog.HandleValidateOtp | src/components/auth/validate_email_content.tsx:44-47 | the dialog closes, whatever code was typed |
| ValidateEmail.ValidateEmailDialog.OnSecond | src/components/auth/validate_email_content.tsx:17-29 | the form becomes `Next` of the old one for a second |

## Left out

- The network is left out. Each `fetch`, `res.json()`, `res.text()` and the product service call is a parameter: an outcome datatype that says whether the call threw or what it answered.
- `atob` and `JSON.parse` in the "who am I" route are one parameter, `parse`. Base64 decoding itself is not modelled.
- `encodeURIComponent` is a parameter. The page route's segment property needs the fact that the encoder never emits '/'.
- Whether a backend text is JSON is a parameter. How `NextResponse.json` serialises a parsed body again is not modelled (`Reserialised`).
- The message of the error the response constructor throws for a status it refuses with a body is a parameter, `refusal`. A `RangeError` (outside 200..599) and a `TypeError` (204, 205, 304) are told apart only by the status passed to it.
- URL serialisation and resolution are not modelled: `toString` of the query, and `new URL(path, base)`. The page route's request keeps base, path and query apart. The category route's URL is `BE_API` concatenated with the path. This changes behaviour in two places. `new URL(backendPath, baseUrl)` sits outside the `try` of the page route (src/app/api/page/route.ts:37), so an invalid `BE_API` makes the handler throw, where `PageProxy.HandleGet` returns a request. And resolution removes dot segments: a slug "." or ".." is left as it is by `encodeURIComponent`, and the URL fetched ends in `member/page/` or `member/`, not the path that `PageProxy.PagePathCases` and `PageProxy.PathSegments` describe.
- Request headers and the `cache: 'no-store'` option of the backend calls are not modelled. So are the `Content-Type` of the relayed responses.
- Console logging is left out.
- The middleware's `matcher` regex is left out. The model decides for paths the middleware is invoked on.
- `UserProxy.Put`: `userId` is spliced into the URL unencoded, as the source does. The model does not capture what a `userId` with '/' or '?' does to the backend URL.
- `AuthMe.Payload`: claim values are strings only. A claim that is JSON `null` is sent by the route as `null`, and a numeric claim such as a numeric `user_id` is sent as a number; the model cannot hold either and counts the first as absent and the second as its text. A `data` that is a primitive or an array is an empty map, giving the empty user `{}` that the route also answers.
- `UserProxy.ApiBody`: only a JSON body that is not `null`, with a numeric `code` field or none, is modelled. A non-numeric `code` is not modelled. A `code` of `null` counts as none, as `??` treats it. A backend body that is JSON `null` makes `data.code` throw, and the route answers 500; the model has no such body.
- The base URL of the load-more request is not modelled. That is `NEXT_PUBLIC_SITE_URL`, with the local default, in front of `/api/product/category`.
- `CategoryListing.ListingController.LoadMore` models one click as an atomic step. It does not capture a second click landing while the first request is awaited. It also misses the stale `products` closure a slow response sees.
- Timers are left out. The five-second carousel interval and the one-second countdown interval are each one event per firing; only the conditions under which they exist are modelled.
- `Banners.Carousel.GoToSlide` requires an index in range. Its two callers, the dots and the entry click, only pass such indices.
- `ProductDetail.ImageUrl`: the storage URL is a parameter. An unset `NEXT_PUBLIC_STORAGE_URL` would put the text "undefined" in front.
- `Text.ToLower` lower-cases ASCII letters only. The group rules compare with ASCII words, but a name with other upper-case letters is grouped by its ASCII part alone.
- `PostStore.Draft`: the price is a `real`, not a floating-point number. Files and map locations are opaque type parameters.
- The e-mail and code inputs of both dialogs, and the code field's six-character limit, are not modelled. No handler reads them, since the backend calls are still to be written in the source.
- The search-engine metadata hook and the description/specification tab switch of the product page are not modelled.
- The product page's rendering is not modelled. Only the grouped specification lists are: `RenderedGroups`.
- Loading skeletons and markup are not modelled.
