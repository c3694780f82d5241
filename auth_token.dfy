/** The OAuth2 client-credentials token source of package `auth`
    (auth/token.go): validation of the credential parameters, the layering of
    parameters and token onto a context, and `GetToken`, which exchanges the
    parameters for a token at the authorization endpoint (section 4.4 of
    RFC 6749) and turns the lifetime in the answer (section 5.1 of RFC 6749)
    into an absolute expiry. */
module Auth {
  import opened Prelude
  import Base64
  import opened Contexts
  import opened Http

  /** Seconds taken off every token's lifetime, so that it is refreshed early. */
  const ExpiryTimeSkew: Int64 := 120

  const TokenParamsContextKey: GoString := "tokenParams"
  const TokenContextKey: GoString := "token"

  /** The suffix both URL checks demand. It has no leading slash, although
      both error messages speak of "/oauth2/token". */
  const TokenEndpointSuffix: GoString := "oauth2/token"

  /** The media type of the token request's body. */
  const FormContentType: GoString := "application/x-www-form-urlencoded"

  datatype Error =
    | InvalidAuthUrl                     // from IsValid
    | AuthUrlNotTokenEndpoint            // from GetToken's own URL check
    | NilContext                         // GetAuthenticatedContext without a context
    | TokenParamsNotFound                // ErrTokenParamsNotFound
    | TransportFailed(reason: GoString)  // the HTTP round trip failed
    | MalformedResponse                  // the body is not the expected JSON

  /** `GetTokenParams`. A context holds a reference to it, never a copy. */
  class GetTokenParams {
    const clientId: GoString
    const clientSecret: GoString
    const scope: GoString
    const authUrl: GoString
    const apiUrl: GoString

    constructor (clientId: GoString, clientSecret: GoString, scope: GoString, authUrl: GoString, apiUrl: GoString)
      ensures this.clientId == clientId && this.clientSecret == clientSecret && this.scope == scope
      ensures this.authUrl == authUrl && this.apiUrl == apiUrl
    {
      this.clientId, this.clientSecret, this.scope := clientId, clientSecret, scope;
      this.authUrl, this.apiUrl := authUrl, apiUrl;
    }

    /** `IsValid`: no error exactly when the authorization URL is some string
        followed by "oauth2/token". */
    function IsValid(): (r: Option<Error>)
      ensures r.None? <==> exists front :: authUrl == front + TokenEndpointSuffix
      ensures r.Some? ==> r.value == InvalidAuthUrl
    {
      HasSuffixIffEndsWith(authUrl, TokenEndpointSuffix);
      if HasSuffix(authUrl, TokenEndpointSuffix) then None else Some(InvalidAuthUrl)
    }
  }

  /** `Token`: the bearer string and its expiry, in Unix seconds. */
  datatype Token = Token(accessToken: GoString, expiresAt: Int64)

  /** The values kept in a context: a `*GetTokenParams`, a `*Token`, or a
      value of any other type that other code stored there. */
  datatype Any = ParamsRef(params: GetTokenParams) | TokenRef(token: Token) | Foreign(tag: GoString)

  /** `AuthenticatedContext` is a plain context. */
  type AuthenticatedContext = Context<Any>

  /** `ctx.Value(TokenParamsContextKey).(*GetTokenParams)` in its two-result
      form: None when the innermost binding is missing or of another type. */
  function TokenParamsOf(ctx: AuthenticatedContext): (r: Option<GetTokenParams>)
  {
    match ctx.Value(TokenParamsContextKey)
    case Some(ParamsRef(p)) => Some(p)
    case _ => None
  }

  /** `ctx.Value(TokenContextKey).(*Token)` in its two-result form. */
  function TokenOf(ctx: AuthenticatedContext): (r: Option<Token>)
  {
    match ctx.Value(TokenContextKey)
    case Some(TokenRef(t)) => Some(t)
    case _ => None
  }

  /** Each type assertion yields a value exactly when the context binds
      its key to that value and no binding of the key lies inside that one:
      a binding of another type inside it answers first, and the assertion
      then fails. */
  lemma TypeAssertions(ctx: AuthenticatedContext, t: Token, p: GetTokenParams)
    ensures TokenOf(ctx) == Some(t) <==>
              exists i | 0 <= i < |ctx.bindings| ::
                && ctx.bindings[i] == Binding(TokenContextKey, TokenRef(t))
                && forall j | i < j < |ctx.bindings| :: ctx.bindings[j].key != TokenContextKey
    ensures TokenParamsOf(ctx) == Some(p) <==>
              exists i | 0 <= i < |ctx.bindings| ::
                && ctx.bindings[i] == Binding(TokenParamsContextKey, ParamsRef(p))
                && forall j | i < j < |ctx.bindings| :: ctx.bindings[j].key != TokenParamsContextKey
  {
    ValueIsInnermost(ctx, TokenContextKey, TokenRef(t));
    ValueIsInnermost(ctx, TokenParamsContextKey, ParamsRef(p));
  }

  /** A value of another type bound under either key hides whatever token
      or parameters the parent holds. */
  lemma ForeignBindingHides(ctx: AuthenticatedContext, tag: GoString)
    ensures TokenOf(WithValue(ctx, TokenContextKey, Foreign(tag))) == None
    ensures TokenParamsOf(WithValue(ctx, TokenParamsContextKey, Foreign(tag))) == None
  {
    WithValueLookup(ctx, TokenContextKey, Foreign(tag));
    WithValueLookup(ctx, TokenParamsContextKey, Foreign(tag));
  }

  /** `GetAuthenticatedContext(ctx, params)`, with None for a nil context.
      The parameters are checked before the context, so invalid parameters
      win over a nil context; on success the result is `ctx` with one more
      binding, which answers for "tokenParams" with this very `params`. */
  function GetAuthenticatedContext(ctx: Option<AuthenticatedContext>, params: GetTokenParams)
    : (r: Result<AuthenticatedContext, Error>)
    ensures r.Success? <==> params.IsValid().None? && ctx.Some?
    ensures params.IsValid().Some? ==> r == Failure(InvalidAuthUrl)
    ensures params.IsValid().None? && ctx.None? ==> r == Failure(NilContext)
    ensures r.Success? ==> r.value.bindings == ctx.value.bindings + [Binding(TokenParamsContextKey, ParamsRef(params))]
    ensures r.Success? ==> TokenParamsOf(r.value) == Some(params)
    ensures r.Success? ==> forall k | k != TokenParamsContextKey :: r.value.Value(k) == ctx.value.Value(k)
  {
    match params.IsValid()
    case Some(invalid) => Failure(invalid)
    case None =>
      if ctx.None? then Failure(NilContext)
      else
        WithValueLookup(ctx.value, TokenParamsContextKey, ParamsRef(params));
        Success(WithValue(ctx.value, TokenParamsContextKey, ParamsRef(params)))
  }

  /** `GetAuthenticatedContextWithToken(ctx, params, token)`: fails exactly
      when `GetAuthenticatedContext` does, with its error; otherwise both slots
      are filled and every other key answers as in `ctx`. */
  function GetAuthenticatedContextWithToken(ctx: Option<AuthenticatedContext>, params: GetTokenParams, token: Token)
    : (r: Result<AuthenticatedContext, Error>)
    ensures r.Failure? <==> GetAuthenticatedContext(ctx, params).Failure?
    ensures r.Failure? ==> r.error == GetAuthenticatedContext(ctx, params).error
    ensures r.Success? ==> TokenOf(r.value) == Some(token) && TokenParamsOf(r.value) == Some(params)
    ensures r.Success? ==> forall k | k != TokenContextKey && k != TokenParamsContextKey ::
                             r.value.Value(k) == ctx.value.Value(k)
  {
    match GetAuthenticatedContext(ctx, params)
    case Failure(e) => Failure(e)
    case Success(authenticated) =>
      WithValueLookup(authenticated, TokenContextKey, TokenRef(token));
      Success(WithValue(authenticated, TokenContextKey, TokenRef(token)))
  }

  /** The user-pass of the Basic scheme (section 2 of RFC 7617): the client
      id, a colon, and the secret. */
  function Credentials(params: GetTokenParams): (c: GoString)
    ensures |c| == |params.clientId| + 1 + |params.clientSecret|
    ensures c[..|params.clientId|] == params.clientId && c[|params.clientId|] == ':'
    ensures c[|params.clientId| + 1..] == params.clientSecret
  {
    params.clientId + ":" + params.clientSecret
  }

  /** The form of a client-credentials token request (section 4.4.2 of RFC 6749). */
  function TokenForm(params: GetTokenParams): (f: Header)
  {
    map["grant_type" := ["client_credentials"], "scope" := [params.scope], "client_id" := [params.clientId]]
  }

  /** The three headers `GetToken` sets on the token request: the Basic
      credential, the form content type, and an Accept header that takes
      any media type. */
  function TokenRequestHeader(params: GetTokenParams): (h: Header)
  {
    map["Authorization" := ["Basic " + Base64.Encode(Credentials(params))],
        "Content-Type" := [FormContentType],
        "Accept" := ["*/*"]]
  }

  /** The token request as it reaches the network: a POST of the form to the
      authorization URL, under `ctx` when there is one. */
  function TokenRequest(ctx: Option<AuthenticatedContext>, params: GetTokenParams): (r: Outgoing<Any>)
  {
    Outgoing("POST", params.authUrl, TokenRequestHeader(params), Form(TokenForm(params)), ctx.GetOr(Background()))
  }

  /** `time.Now().Unix() + (expires_in - expiryTimeSkew)` in int64 arithmetic:
      the exact sum whenever that fits in an int64, and in every case equal
      to it modulo 2^64. */
  function ExpiresAt(now: Int64, expiresIn: Int64): (t: Int64)
    ensures (t - (now + expiresIn - ExpiryTimeSkew)) % 0x1_0000_0000_0000_0000 == 0
    ensures Min64 <= now + expiresIn - ExpiryTimeSkew <= Max64 ==> t == now + expiresIn - ExpiryTimeSkew
  {
    var lifetime := Wrap64(expiresIn - ExpiryTimeSkew);
    var t := Wrap64(now + lifetime);
    MultiplesAdd(t - (now + lifetime), lifetime - (expiresIn - ExpiryTimeSkew));
    CongruentInRange(t, now + expiresIn - ExpiryTimeSkew);
    t
  }

  lemma MultiplesAdd(a: int, b: int)
    requires a % 0x1_0000_0000_0000_0000 == 0 && b % 0x1_0000_0000_0000_0000 == 0
    ensures (a + b) % 0x1_0000_0000_0000_0000 == 0
  {
    var ka, kb := a / 0x1_0000_0000_0000_0000, b / 0x1_0000_0000_0000_0000;
    assert a + b == (ka + kb) * 0x1_0000_0000_0000_0000;
  }

  /** Two int64 values that are equal modulo 2^64 are equal. */
  lemma CongruentInRange(a: int, b: int)
    requires Min64 <= a <= Max64
    requires (a - b) % 0x1_0000_0000_0000_0000 == 0
    ensures Min64 <= b <= Max64 ==> a == b
  {
    var k := (a - b) / 0x1_0000_0000_0000_0000;
    assert a - b == k * 0x1_0000_0000_0000_0000;
  }

  /** The effect of `GetToken`: the requests it sends (none, or the one token
      request) and its result. */
  datatype Acquisition = Acquisition(sent: seq<Outgoing<Any>>, result: Result<Token, Error>)

  /** What `GetToken(ctx, params)` does at Unix time `now` on a network that
      answers `respond` after the requests `history`. The URL is checked before
      anything is sent; the status code of the answer is never looked at, so
      only a transport error or a body that does not decode fails the call. */
  function Acquire(ctx: Option<AuthenticatedContext>, params: GetTokenParams, now: Int64,
                   respond: (seq<Outgoing<Any>>, Outgoing<Any>) -> Reply, history: seq<Outgoing<Any>>)
    : (a: Acquisition)
    ensures a.sent == [] <==> !HasSuffix(params.authUrl, TokenEndpointSuffix)
    ensures a.sent == [] ==> a.result == Failure(AuthUrlNotTokenEndpoint)
    ensures a.sent != [] ==> a.sent == [TokenRequest(ctx, params)]
    ensures a.sent != [] ==>
              var reply := respond(history, TokenRequest(ctx, params));
              && (a.result.Failure? <==> reply.TransportError? || reply.body.Undecodable?)
              && (a.result.Success? ==>
                    a.result.value == Token(reply.body.accessToken, ExpiresAt(now, reply.body.expiresIn)))
  {
    if !HasSuffix(params.authUrl, TokenEndpointSuffix) then
      Acquisition([], Failure(AuthUrlNotTokenEndpoint))
    else
      var request := TokenRequest(ctx, params);
      var result := match respond(history, request)
        case TransportError(reason) => Failure(TransportFailed(reason))
        case Response(_, Undecodable) => Failure(MalformedResponse)
        case Response(_, Decoded(accessToken, expiresIn)) =>
          Success(Token(accessToken, ExpiresAt(now, expiresIn)));
      Acquisition([request], result)
  }

  /** Lines 88-111 of `GetToken`: the credential is assembled piece by
      piece, the form and the headers are set one field at a time. */
  method BuildTokenRequest(ctx: Option<AuthenticatedContext>, params: GetTokenParams) returns (req: Request<Any>)
    ensures fresh(req)
    ensures req.Snapshot() == TokenRequest(ctx, params)
  {
    var sb: GoString := "";
    sb := sb + params.clientId;
    sb := sb + ":";
    sb := sb + params.clientSecret;

    var encodedAuthUrl := Base64.Encode(sb);

    var data: Header := map[];
    data := Set(data, "grant_type", "client_credentials");
    data := Set(data, "scope", params.scope);
    data := Set(data, "client_id", params.clientId);

    req := NewRequest<Any>("POST", params.authUrl, Form(data));
    if ctx.Some? {
      req := req.WithContext(ctx.value);
    }

    AddTokenHeaders(req, encodedAuthUrl);

    assert sb == Credentials(params);
    assert |"grant_type"| == 10 && |"scope"| == 5 && |"client_id"| == 9;
    SetThree("grant_type", "client_credentials", "scope", params.scope, "client_id", params.clientId);
  }

  /** Lines 109-111 of `GetToken`, on a request fresh from `http.NewRequest`. */
  method AddTokenHeaders(req: Request<Any>, encoded: GoString)
    requires req.header == map[]
    modifies req
    ensures req.header == map["Authorization" := ["Basic " + encoded],
                              "Content-Type" := [FormContentType],
                              "Accept" := ["*/*"]]
    ensures req.ctx == old(req.ctx)
  {
    req.header := Add(req.header, "Authorization", "Basic " + encoded);
    req.header := Add(req.header, "Content-Type", FormContentType);
    req.header := Add(req.header, "Accept", "*/*");
    assert |"Authorization"| == 13 && |"Content-Type"| == 12 && |"Accept"| == 6;
    AddThree("Authorization", "Basic " + encoded, "Content-Type", FormContentType, "Accept", "*/*");
  }

  /** `GetToken(ctx, params)` at Unix time `now`, on `net`: the request goes
      out only once the URL check has passed, and the answer's status code is
      not consulted. */
  method GetToken(ctx: Option<AuthenticatedContext>, params: GetTokenParams, now: Int64, net: Network<Any>)
    returns (r: Result<Token, Error>)
    modifies net
    ensures net.sent == old(net.sent) + Acquire(ctx, params, now, net.respond, old(net.sent)).sent
    ensures r == Acquire(ctx, params, now, net.respond, old(net.sent)).result
  {
    if !HasSuffix(params.authUrl, TokenEndpointSuffix) {
      return Failure(AuthUrlNotTokenEndpoint);
    }
    var req := BuildTokenRequest(ctx, params);
    var resp := net.RoundTrip(req);
    match resp
    case TransportError(reason) =>
      return Failure(TransportFailed(reason));
    case Response(_, Undecodable) =>
      return Failure(MalformedResponse);
    case Response(_, Decoded(accessToken, expiresIn)) =>
      return Success(Token(accessToken, ExpiresAt(now, expiresIn)));
  }
}
