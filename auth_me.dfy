/** The "who am I" route: reads the `login_data` cookie, takes the payload segment of the
    JWT in it and returns the user claims, folding every failure into `{user: null}`
    (src/app/api/auth/me/route.ts). The token is split as in the JWS Compact
    Serialization (section 7.1 of RFC 7515); the payload segment is base64url
    (section 5 of RFC 4648) and is turned into standard base64 before `atob`. */
module AuthMe {
  import opened Wrappers
  import opened Text

  // ---------------------------------------------------------------------------
  // base64url to base64

  /** `replace(/-/g, "+").replace(/_/g, "/")` on one character. */
  function StandardChar(c: char): char {
    if c == '-' then '+' else if c == '_' then '/' else c
  }

  /** The reverse mapping, from the standard alphabet to the URL-safe one. */
  function UrlSafeChar(c: char): char {
    if c == '+' then '-' else if c == '/' then '_' else c
  }

  /** The number of '=' characters appended for an input of length `n`. */
  function PadCount(n: nat): nat {
    if n % 4 == 2 then 2 else if n % 4 == 3 then 1 else 0
  }

  /** The string handed to `atob`: the alphabet translated, then padded. */
  function Base64FromUrl(s: string): (b: string)
    ensures |b| == |s| + PadCount(|s|)
    ensures |s| % 4 != 1 ==> |b| % 4 == 0
    ensures forall i :: 0 <= i < |s| ==> b[i] == StandardChar(s[i])
    ensures forall i :: |s| <= i < |b| ==> b[i] == '='
    ensures '-' !in b && '_' !in b
  {
    seq(|s|, i requires 0 <= i < |s| => StandardChar(s[i])) + seq(PadCount(|s|), _ => '=')
  }

  /** The body of `base64UrlDecode` before `atob`: `base64` is reassigned step by step. */
  method ToBase64(str: string) returns (base64: string)
    ensures base64 == Base64FromUrl(str)
  {
    base64 := seq(|str|, i requires 0 <= i < |str| => StandardChar(str[i]));
    var pad := |base64| % 4;
    if pad != 0 {
      if pad == 2 {
        base64 := base64 + "==";
      } else if pad == 3 {
        base64 := base64 + "=";
      }
    }
    assert base64 == Base64FromUrl(str);
  }

  /** On a base64url string (no '+' or '/'), dropping the padding and mapping the alphabet
      back gives the input: the translation loses nothing. */
  lemma UrlRoundTrip(s: string)
    requires '+' !in s && '/' !in s
    ensures var b := Base64FromUrl(s);
            seq(|s|, i requires 0 <= i < |s| => UrlSafeChar(b[i])) == s
  {
  }

  /** An input whose length is 1 modulo 4 is left unpadded, so `atob` receives a string
      whose length is not a multiple of four. */
  lemma LengthOneModFourUnpadded(s: string)
    requires |s| % 4 == 1
    ensures |Base64FromUrl(s)| == |s| && |Base64FromUrl(s)| % 4 == 1
  {
  }

  // ---------------------------------------------------------------------------
  // The route

  /** The JSON payload as far as the route reads it: `data` is `None` when `payload.data` is
      `null` or absent, the only cases in which the field reads throw; any other value is a
      map of its fields, empty for a primitive or an array, which yields an empty user. */
  datatype Payload = Payload(data: Option<map<string, string>>)

  /** The response body `{user}`; a user is the claims the route copies. */
  datatype MeResponse = MeResponse(user: Option<map<string, string>>)

  /** The seven claims copied from `payload.data`. */
  const UserFields: set<string> :=
    {"user_id", "email", "role", "first_name", "last_name", "photo_profile", "created_at"}

  /** The user object built from `payload.data`: the seven fields, each copied when present
      (an absent one is `undefined` and is dropped when the response is serialised). */
  function ExtractUser(data: map<string, string>): (user: map<string, string>)
    ensures user.Keys == data.Keys * UserFields
    ensures forall k :: k in user ==> user[k] == data[k]
  {
    map k | k in data && k in UserFields :: data[k]
  }

  /** `GET`: `parse` stands for `atob` followed by `JSON.parse`, with `None` for either one
      throwing; a missing `payload.data` makes the field reads throw. */
  function GetMe(loginCookie: Option<string>, parse: string -> Option<Payload>): (r: MeResponse)
    ensures r.user.Some? ==> r.user.value.Keys <= UserFields
    ensures r.user.Some? ==> loginCookie.Some? && Occurrences(loginCookie.value, '.') == 2
    ensures r.user.Some? ==>
              var parts := Split(loginCookie.value, '.');
              var decoded := parse(Base64FromUrl(parts[1]));
              && decoded.Some? && decoded.value.data.Some?
              && r.user.value == ExtractUser(decoded.value.data.value)
  {
    if loginCookie.None? || loginCookie.value == "" then MeResponse(None)
    else
      var parts := Split(loginCookie.value, '.');
      if |parts| != 3 then MeResponse(None)
      else
        match parse(Base64FromUrl(parts[1]))
        case None => MeResponse(None)
        case Some(payload) =>
          if payload.data.None? then MeResponse(None)
          else MeResponse(Some(ExtractUser(payload.data.value)))
  }

  lemma MissingCookieGivesNoUser(parse: string -> Option<Payload>)
    ensures GetMe(None, parse) == MeResponse(None)
    ensures GetMe(Some(""), parse) == MeResponse(None)
  {
  }

  /** A token that is not three dot-separated segments gives no user, whatever `parse` does. */
  lemma MalformedTokenGivesNoUser(token: string, parse: string -> Option<Payload>)
    requires Occurrences(token, '.') != 2
    ensures GetMe(Some(token), parse) == MeResponse(None)
  {
  }

  /** Only the payload segment is decoded: header and signature are never inspected,
      so no signature is verified. */
  lemma OnlyPayloadDecoded(header1: string, header2: string, payload: string,
                           signature1: string, signature2: string,
                           parse: string -> Option<Payload>)
    requires '.' !in header1 && '.' !in header2 && '.' !in payload
    requires '.' !in signature1 && '.' !in signature2
    ensures GetMe(Some(header1 + "." + payload + "." + signature1), parse)
         == GetMe(Some(header2 + "." + payload + "." + signature2), parse)
  {
    ThreeSegments(header1, payload, signature1);
    ThreeSegments(header2, payload, signature2);
  }

  lemma ThreeSegments(header: string, payload: string, signature: string)
    requires '.' !in header && '.' !in payload && '.' !in signature
    ensures var token := header + "." + payload + "." + signature;
            token != "" && Split(token, '.') == [header, payload, signature]
  {
    var token := header + "." + payload + "." + signature;
    assert token == header + ['.'] + (payload + ['.'] + signature);
    SplitAfterPiece(header, '.', payload + ['.'] + signature);
    SplitAfterPiece(payload, '.', signature);
    SplitWhole(signature, '.');
    assert |token| > 0;
  }

  /** A payload segment that does not decode to JSON, or decodes to JSON without `data`,
      gives no user: the `catch` answers `{user: null}`. */
  lemma UndecodablePayloadGivesNoUser(header: string, payload: string, signature: string,
                                      parse: string -> Option<Payload>)
    requires '.' !in header && '.' !in payload && '.' !in signature
    requires parse(Base64FromUrl(payload)).None? || parse(Base64FromUrl(payload)).value.data.None?
    ensures GetMe(Some(header + "." + payload + "." + signature), parse).user.None?
  {
    ThreeSegments(header, payload, signature);
  }

  /** A well-formed token whose payload decodes to an object with `data` yields exactly
      the seven claims of `data` that are present. */
  lemma WellFormedTokenYieldsClaims(header: string, payload: string, signature: string,
                                    parse: string -> Option<Payload>, data: map<string, string>)
    requires '.' !in header && '.' !in payload && '.' !in signature
    requires parse(Base64FromUrl(payload)) == Some(Payload(Some(data)))
    ensures GetMe(Some(header + "." + payload + "." + signature), parse).user
         == Some(ExtractUser(data))
  {
    ThreeSegments(header, payload, signature);
  }
}
