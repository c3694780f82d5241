/** What the token request and the token that `GetToken` builds mean: the
    Basic credential decodes to the client's id and secret, the answer's
    status code is not looked at, and the expiry is the lifetime less the
    skew, wrapping as int64 arithmetic does. */
module AuthProperties {
  import opened Prelude
  import Base64
  import opened Contexts
  import opened Http
  import opened Auth

  /** The Authorization header of the token request is "Basic " followed by
      base64 text that decodes to exactly `clientId:clientSecret`. */
  lemma BasicCredentialRoundTrip(params: GetTokenParams)
    ensures var values := TokenRequestHeader(params)["Authorization"];
            && |values| == 1
            && |values[0]| >= 6 && values[0][..6] == "Basic "
            && Base64.Decode(values[0][6..]) == Some(params.clientId + ":" + params.clientSecret)
  {
    var encoded := Base64.Encode(Credentials(params));
    Base64.DecodeEncode(Credentials(params));
    assert ("Basic " + encoded)[6..] == encoded;
    assert ("Basic " + encoded)[..6] == "Basic ";
  }

  /** The form of the token request holds exactly the three fields of a
      client-credentials grant, each with one value. */
  lemma TokenFormFields(params: GetTokenParams)
    ensures var f := TokenForm(params);
            && f.Keys == {"grant_type", "scope", "client_id"}
            && f["grant_type"] == ["client_credentials"]
            && f["scope"] == [params.scope]
            && f["client_id"] == [params.clientId]
  {
  }

  /** The token request carries exactly three headers, each with one value:
      the Basic credential, the form content type, and an Accept header
      that takes any media type. */
  lemma TokenRequestHeaderFields(params: GetTokenParams)
    ensures var h := TokenRequestHeader(params);
            && h.Keys == {"Authorization", "Content-Type", "Accept"}
            && (forall k | k in h :: |h[k]| == 1)
            && h["Authorization"][0] == "Basic " + Base64.Encode(Credentials(params))
            && h["Content-Type"] == [FormContentType]
            && h["Accept"] == ["*/*"]
  {
  }

  /** The token request is a POST of the form to the authorization URL,
      made within the caller's context, or the background one when the
      caller has none. */
  lemma TokenRequestTarget(ctx: Option<AuthenticatedContext>, params: GetTokenParams)
    ensures var r := TokenRequest(ctx, params);
            && r.verb == "POST" && r.url == params.authUrl
            && r.header == TokenRequestHeader(params) && r.body == Form(TokenForm(params))
            && (ctx.Some? ==> r.ctx == ctx.value)
            && (ctx.None? ==> r.ctx == Background())
  {
  }

  /** The first colon of the credential ends the client id (section 2 of
      RFC 7617), so a client id without a colon is recovered exactly, and the
      secret is what follows it. */
  lemma CredentialsSplit(params: GetTokenParams)
    requires forall i | 0 <= i < |params.clientId| :: params.clientId[i] != ':'
    ensures var c := Credentials(params);
            var n := |params.clientId|;
            && n < |c| && c[n] == ':'
            && (forall i | 0 <= i < n :: c[i] != ':')
            && c[..n] == params.clientId
            && c[n + 1..] == params.clientSecret
  {
    var c := Credentials(params);
    var n := |params.clientId|;
    assert c == params.clientId + ([':'] + params.clientSecret);
    assert forall i | 0 <= i < n :: c[i] == params.clientId[i];
  }

  /** A response with any status code is taken as the token response: an
      error status that comes with a decodable body yields a token. */
  lemma StatusNotConsulted(ctx: Option<AuthenticatedContext>, params: GetTokenParams, now: Int64,
                           respond: (seq<Outgoing<Any>>, Outgoing<Any>) -> Reply, history: seq<Outgoing<Any>>,
                           status: int, accessToken: GoString, expiresIn: Int64)
    requires HasSuffix(params.authUrl, TokenEndpointSuffix)
    requires respond(history, TokenRequest(ctx, params)) == Response(status, Decoded(accessToken, expiresIn))
    ensures Acquire(ctx, params, now, respond, history).result == Success(Token(accessToken, ExpiresAt(now, expiresIn)))
  {
  }

  /** An `expires_in` of 3600 gives a token that expires 3480 seconds after
      it was fetched. */
  lemma OneHourTokenExpiry(now: Int64)
    requires now <= Max64 - 3480
    ensures ExpiresAt(now, 3600) == now + 3480
  {
  }

  /** Near the top of the int64 range the expiry wraps around to the most
      negative instant, so such a token counts as expired at every call
      whose clock lies between that instant and the wrap-around band of
      `time.Unix`. */
  lemma ExpiryWrapsAtInt64Max()
    ensures ExpiresAt(Max64, 121) == Min64
  {
    var lifetime := Wrap64(121 - ExpiryTimeSkew);
    assert lifetime == 1;
    assert Max64 + 1 == 0x8000_0000_0000_0000;
    assert (0x8000_0000_0000_0000 + 0x8000_0000_0000_0000) % 0x1_0000_0000_0000_0000 == 0;
  }

  /** The suffix test has no leading slash: an authorization URL that ends
      in "xoauth2/token" is accepted, although the error message asks for a
      URL that ends in "/oauth2/token". */
  lemma SuffixNeedsNoSlash(params: GetTokenParams, front: GoString)
    requires params.authUrl == front + "xoauth2/token"
    ensures params.IsValid() == None
  {
    assert params.authUrl == (front + "x") + TokenEndpointSuffix;
  }
}
