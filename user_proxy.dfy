/** The server route that forwards a profile update to the backend
    (src/app/api/user/route.ts). `BE_API`, the `Authorization` header, the `userId` query
    parameter and the request body are inputs; what the backend call came to is the
    parameter `upstream`. */
module UserProxy {
  import opened Wrappers
  import opened Text
  import opened Http

  /** A value the `try` block can catch: an `Error` with its message, or anything else. */
  datatype Thrown = ErrorValue(message: string) | OtherValue

  /** The backend's parsed JSON: its `code` field when it is a number, and the whole value. */
  datatype ApiBody = ApiBody(code: Option<int>, json: string)

  /** What `fetch` and `res.json()` came to: one of them threw, or both succeeded. */
  datatype Upstream = Failed(thrown: Thrown) | Answered(status: int, body: ApiBody)

  /** An envelope built by the route (`data` holds the message), or the backend's body. */
  datatype Body = Envelope(success: bool, code: int, data: string) | Relayed(body: ApiBody)

  datatype Response = Response(status: int, body: Body)

  datatype UserRequest = UserRequest(url: string, verb: string, authorization: string, payload: string)

  /** The handler answers, or its promise rejects (the body was not JSON: `req.json()` sits
      outside the `try`). */
  datatype Outcome = Responded(response: Response) | Rejected

  datatype Exchange = Exchange(request: Option<UserRequest>, outcome: Outcome)

  const UserPath: string := "member/user/"

  /** `authHeader && authHeader.startsWith("Bearer ")`, case and space included. */
  predicate BearerAuth(authHeader: Option<string>) {
    authHeader.Some? && StartsWith(authHeader.value, "Bearer ")
  }

  /** The message of the `catch`: the error's own, or "Network error". */
  function CaughtMessage(thrown: Thrown): string {
    match thrown
    case ErrorValue(message) => message
    case OtherValue => "Network error"
  }

  /** `NextResponse.json(data, {status: data.code ?? res.status})` inside the `try`: a status
      the response constructor does not accept with a body (outside 200..599, or 204, 205 or
      304) makes it throw, `refusal` gives that error's message, and the `catch` answers 500. */
  function RelayAnswer(status: int, body: ApiBody, refusal: int -> string): (r: Response)
    ensures body.code.Some? && AcceptsBody(body.code.value) ==> r == Response(body.code.value, Relayed(body))
    ensures body.code.Some? && !AcceptsBody(body.code.value) ==>
              r == Response(500, Envelope(false, 500, refusal(body.code.value)))
    ensures body.code.None? && AcceptsBody(status) ==> r == Response(status, Relayed(body))
    ensures body.code.None? && !AcceptsBody(status) ==> r == Response(500, Envelope(false, 500, refusal(status)))
  {
    var chosen := if body.code.Some? then body.code.value else status;
    if AcceptsBody(chosen) then Response(chosen, Relayed(body))
    else Response(500, Envelope(false, 500, refusal(chosen)))
  }

  /** `PUT`: the backend request, if one is sent, and the handler's outcome. `payload` is
      `await req.json()`, `None` when the body is not JSON. */
  function Put(beApi: Option<string>, authHeader: Option<string>, userId: Option<string>,
               payload: Option<string>, upstream: Upstream, refusal: int -> string): (x: Exchange)
    ensures x.request.Some? <==> Truthy(beApi) && BearerAuth(authHeader) && Truthy(userId) && payload.Some?
    ensures x.outcome.Responded? && x.outcome.response.body.Envelope? ==>
              !x.outcome.response.body.success && x.outcome.response.body.code == x.outcome.response.status
  {
    if !Truthy(beApi) then
      Exchange(None, Responded(Response(500, Envelope(false, 500, "Server configuration error"))))
    else if !BearerAuth(authHeader) then
      Exchange(None, Responded(Response(401, Envelope(false, 401, "Invalid or missing Authorization header"))))
    else if !Truthy(userId) then
      Exchange(None, Responded(Response(400, Envelope(false, 400, "userId query param is required"))))
    else if payload.None? then
      Exchange(None, Rejected)
    else
      var request := UserRequest(beApi.value + UserPath + userId.value, "PUT", authHeader.value, payload.value);
      match upstream
      case Failed(thrown) =>
        Exchange(Some(request), Responded(Response(500, Envelope(false, 500, CaughtMessage(thrown)))))
      case Answered(status, body) =>
        Exchange(Some(request), Responded(RelayAnswer(status, body, refusal)))
  }

  /** The configuration check comes first: without `BE_API` nothing else is looked at. */
  lemma ConfigCheckedFirst(authHeader: Option<string>, userId: Option<string>, payload: Option<string>,
                           upstream: Upstream, m: int -> string)
    ensures Put(None, authHeader, userId, payload, upstream, m)
         == Exchange(None, Responded(Response(500, Envelope(false, 500, "Server configuration error"))))
    ensures Put(Some(""), authHeader, userId, payload, upstream, m)
         == Exchange(None, Responded(Response(500, Envelope(false, 500, "Server configuration error"))))
  {
  }

  /** With `BE_API` set, a header that is not a bearer token gives 401 whatever the `userId`. */
  lemma AuthCheckedBeforeUserId(beApi: Option<string>, authHeader: Option<string>, userId: Option<string>,
                                payload: Option<string>, upstream: Upstream, m: int -> string)
    requires Truthy(beApi) && !BearerAuth(authHeader)
    ensures Put(beApi, authHeader, userId, payload, upstream, m)
         == Exchange(None, Responded(Response(401, Envelope(false, 401, "Invalid or missing Authorization header"))))
  {
  }

  /** The prefix test is case-sensitive and needs the space. */
  lemma BearerPrefixExact()
    ensures !BearerAuth(Some("bearer abc")) && !BearerAuth(Some("Bearer")) && BearerAuth(Some("Bearer abc"))
  {
    assert "bearer abc"[0] != "Bearer "[0];
    assert "Bearer abc"[..7] == "Bearer ";
  }

  /** A missing or empty `userId` gives 400 once the earlier checks pass. */
  lemma UserIdRequired(beApi: Option<string>, authHeader: Option<string>, userId: Option<string>,
                       payload: Option<string>, upstream: Upstream, m: int -> string)
    requires Truthy(beApi) && BearerAuth(authHeader) && !Truthy(userId)
    ensures Put(beApi, authHeader, userId, payload, upstream, m)
         == Exchange(None, Responded(Response(400, Envelope(false, 400, "userId query param is required"))))
  {
  }

  /** The request goes to `member/user/<userId>` under `BE_API` with method PUT, carrying the
      header exactly as received and the body read from the request. */
  lemma ForwardedRequest(beApi: Option<string>, authHeader: Option<string>, userId: Option<string>,
                         payload: Option<string>, upstream: Upstream, m: int -> string)
    requires Truthy(beApi) && BearerAuth(authHeader) && Truthy(userId) && payload.Some?
    ensures var request := Put(beApi, authHeader, userId, payload, upstream, m).request.value;
            && StartsWith(request.url, beApi.value)
            && request.url[|beApi.value|..] == UserPath + userId.value
            && request.verb == "PUT"
            && request.authorization == authHeader.value
            && request.payload == payload.value
  {
    var url := beApi.value + UserPath + userId.value;
    assert url[..|beApi.value|] == beApi.value;
    assert url[|beApi.value|..] == UserPath + userId.value;
  }

  /** The status is the body's `code` when it has one, else the backend's status; a status
      the response accepts is answered with the backend's body. */
  lemma StatusFromCode(beApi: Option<string>, authHeader: Option<string>, userId: Option<string>,
                       payload: Option<string>, status: int, body: ApiBody, m: int -> string)
    requires Truthy(beApi) && BearerAuth(authHeader) && Truthy(userId) && payload.Some?
    requires var chosen := if body.code.Some? then body.code.value else status; AcceptsBody(chosen)
    ensures Put(beApi, authHeader, userId, payload, Answered(status, body), m).outcome
         == Responded(Response(if body.code.Some? then body.code.value else status, Relayed(body)))
  {
  }

  /** A status the response refuses, 204 among them, is never relayed: the route answers 500
      with the constructor's error message. */
  lemma RefusedStatusAnswers500(beApi: Option<string>, authHeader: Option<string>, userId: Option<string>,
                                payload: Option<string>, status: int, body: ApiBody, m: int -> string)
    requires Truthy(beApi) && BearerAuth(authHeader) && Truthy(userId) && payload.Some?
    requires var chosen := if body.code.Some? then body.code.value else status; !AcceptsBody(chosen)
    ensures Put(beApi, authHeader, userId, payload, Answered(status, body), m).outcome
         == Responded(Response(500, Envelope(false, 500, m(if body.code.Some? then body.code.value else status))))
  {
  }

  /** A failed call answers 500 with the error's message, or "Network error". */
  lemma FailureAnswers500(beApi: Option<string>, authHeader: Option<string>, userId: Option<string>,
                          payload: Option<string>, thrown: Thrown, m: int -> string)
    requires Truthy(beApi) && BearerAuth(authHeader) && Truthy(userId) && payload.Some?
    ensures var out := Put(beApi, authHeader, userId, payload, Failed(thrown), m).outcome;
            && out.Responded? && out.response.status == 500
            && out.response.body == Envelope(false, 500, if thrown.ErrorValue? then thrown.message else "Network error")
  {
  }
}
