/** What `HttpClient.Do` and `NewClient` promise, proved about the functions
    that describe them, and the two ways in which `Do` as written departs
    from what it evidently means to do. */
module ClientProperties {
  import opened Prelude
  import opened Contexts
  import opened Http
  import opened Auth
  import opened Client

  /** While the clock is not after the expiry the token is kept: nothing is
      sent on its behalf and the context stays. Below the wrap-around band of
      `time.Unix` that is up to and including the expiry second
      (`Prelude.AfterIsLater`). */
  lemma NoRenewalUntilExpiry(ctx: AuthenticatedContext, now: Int64,
                             respond: (seq<Outgoing<Any>>, Outgoing<Any>) -> Reply, history: seq<Outgoing<Any>>)
    requires TokenOf(ctx).Some?
    requires !After(now, TokenOf(ctx).value.expiresAt)
    ensures Renewed(ctx, now, respond, history) == Renewal(ctx, [], None)
  {
  }

  /** Once the clock is after the expiry the token is fetched again: what goes out is
      exactly what `GetToken` sends; a failure is passed on with the context
      untouched, and a success binds the new token in front of the old. */
  lemma RenewalAfterExpiry(ctx: AuthenticatedContext, now: Int64,
                           respond: (seq<Outgoing<Any>>, Outgoing<Any>) -> Reply, history: seq<Outgoing<Any>>)
    requires TokenOf(ctx).Some? && TokenParamsOf(ctx).Some?
    requires After(now, TokenOf(ctx).value.expiresAt)
    ensures var n := Renewed(ctx, now, respond, history);
            var a := Acquire(Some(ctx), TokenParamsOf(ctx).value, now, respond, history);
            && n.sent == a.sent
            && (n.error.Some? <==> a.result.Failure?)
            && (a.result.Failure? ==> n.error == Some(a.result.error) && n.ctx == ctx)
            && (a.result.Success? ==>
                  && n.ctx.bindings == ctx.bindings + [Binding(TokenContextKey, TokenRef(a.result.value))]
                  && TokenOf(n.ctx) == Some(a.result.value)
                  && TokenParamsOf(n.ctx) == TokenParamsOf(ctx))
  {
    var a := Acquire(Some(ctx), TokenParamsOf(ctx).value, now, respond, history);
    if a.result.Success? {
      RenewalKeepsParams(ctx, a.result.value);
    }
  }

  /** A call made while the token is still good sends the request alone,
      stamped with that token, and leaves the client's context as it was. */
  lemma DispatchBeforeExpiry(ctx: AuthenticatedContext, req: Outgoing<Any>, now: Int64,
                             respond: (seq<Outgoing<Any>>, Outgoing<Any>) -> Reply, history: seq<Outgoing<Any>>)
    requires TokenOf(ctx).Some?
    requires !After(now, TokenOf(ctx).value.expiresAt)
    ensures var e := Dispatch(ctx, req, now, respond, history);
            var out := req.(header := Stamp(req.header, TokenOf(ctx).value.accessToken));
            && e.ctx == ctx
            && e.sent == [out]
            && e.header == out.header
            && e.result == Returned(respond(history, out))
  {
    NoRenewalUntilExpiry(ctx, now, respond, history);
    assert history + [] == history;
  }

  /** When the renewal fails the call returns its error: the request itself
      is never sent, its header is not touched and the context stays. */
  lemma DispatchAfterFailedRenewal(ctx: AuthenticatedContext, req: Outgoing<Any>, now: Int64,
                                   respond: (seq<Outgoing<Any>>, Outgoing<Any>) -> Reply, history: seq<Outgoing<Any>>)
    requires TokenOf(ctx).Some? && TokenParamsOf(ctx).Some?
    requires After(now, TokenOf(ctx).value.expiresAt)
    requires Acquire(Some(ctx), TokenParamsOf(ctx).value, now, respond, history).result.Failure?
    ensures var a := Acquire(Some(ctx), TokenParamsOf(ctx).value, now, respond, history);
            Dispatch(ctx, req, now, respond, history) == Exchange(ctx, a.sent, req.header, Failure(a.result.error))
    ensures forall o | o in Dispatch(ctx, req, now, respond, history).sent ::
              o == TokenRequest(Some(ctx), TokenParamsOf(ctx).value)
  {
    RenewalAfterExpiry(ctx, now, respond, history);
  }

  /** After a successful renewal the client's context holds the new token
      and the same parameters, and the request follows the token request;
      but it carries the Bearer credential of the token read on entry. */
  lemma DispatchAfterRenewal(ctx: AuthenticatedContext, req: Outgoing<Any>, now: Int64,
                             respond: (seq<Outgoing<Any>>, Outgoing<Any>) -> Reply, history: seq<Outgoing<Any>>)
    requires TokenOf(ctx).Some? && TokenParamsOf(ctx).Some?
    requires After(now, TokenOf(ctx).value.expiresAt)
    requires Acquire(Some(ctx), TokenParamsOf(ctx).value, now, respond, history).result.Success?
    ensures var a := Acquire(Some(ctx), TokenParamsOf(ctx).value, now, respond, history);
            var e := Dispatch(ctx, req, now, respond, history);
            var out := req.(header := Stamp(req.header, TokenOf(ctx).value.accessToken));
            && TokenOf(e.ctx) == Some(a.result.value)
            && TokenParamsOf(e.ctx) == TokenParamsOf(ctx)
            && e.sent == [TokenRequest(Some(ctx), TokenParamsOf(ctx).value), out]
            && e.header == out.header
            && e.result == Returned(respond(history + a.sent, out))
  {
    RenewalAfterExpiry(ctx, now, respond, history);
  }

  /** The context changes only when the token had expired, and a call that
      reaches the network always stamps the token read on entry. */
  lemma DispatchRenewsOnlyAfterExpiry(ctx: AuthenticatedContext, req: Outgoing<Any>, now: Int64,
                                      respond: (seq<Outgoing<Any>>, Outgoing<Any>) -> Reply, history: seq<Outgoing<Any>>)
    requires TokenOf(ctx).Some?
    requires After(now, TokenOf(ctx).value.expiresAt) ==> TokenParamsOf(ctx).Some?
    ensures Dispatch(ctx, req, now, respond, history).ctx != ctx ==> After(now, TokenOf(ctx).value.expiresAt)
    ensures Dispatch(ctx, req, now, respond, history).result.Success? ==>
              Dispatch(ctx, req, now, respond, history).header == Stamp(req.header, TokenOf(ctx).value.accessToken)
  {
    if !After(now, TokenOf(ctx).value.expiresAt) {
      NoRenewalUntilExpiry(ctx, now, respond, history);
    }
  }

  /** A renewed token whose lifetime is at least the skew, and whose expiry
      lies below the wrap-around band of `time.Unix`, is still good at the
      instant it was fetched: a second call at that instant does not fetch
      again and sends one request. */
  lemma RenewedTokenCoversNow(ctx: AuthenticatedContext, req: Outgoing<Any>, next: Outgoing<Any>, now: Int64,
                              respond: (seq<Outgoing<Any>>, Outgoing<Any>) -> Reply, history: seq<Outgoing<Any>>,
                              later: seq<Outgoing<Any>>)
    requires TokenOf(ctx).Some? && TokenParamsOf(ctx).Some?
    requires After(now, TokenOf(ctx).value.expiresAt)
    requires HasSuffix(TokenParamsOf(ctx).value.authUrl, TokenEndpointSuffix)
    requires respond(history, TokenRequest(Some(ctx), TokenParamsOf(ctx).value)).Response?
    requires respond(history, TokenRequest(Some(ctx), TokenParamsOf(ctx).value)).body.Decoded?
    requires ExpiryTimeSkew <= respond(history, TokenRequest(Some(ctx), TokenParamsOf(ctx).value)).body.expiresIn
    requires now + respond(history, TokenRequest(Some(ctx), TokenParamsOf(ctx).value)).body.expiresIn - ExpiryTimeSkew
             <= Max64 - UnixToInternal
    ensures var e := Dispatch(ctx, req, now, respond, history);
            && TokenOf(e.ctx).value.expiresAt >= now
            && !After(now, TokenOf(e.ctx).value.expiresAt)
            && Dispatch(e.ctx, next, now, respond, later).ctx == e.ctx
            && |Dispatch(e.ctx, next, now, respond, later).sent| == 1
  {
    RenewalAfterExpiry(ctx, now, respond, history);
    var e := Dispatch(ctx, req, now, respond, history);
    AfterIsLater(now, TokenOf(e.ctx).value.expiresAt);
    DispatchBeforeExpiry(e.ctx, next, now, respond, later);
  }

  /** A token whose expiry lies in the wrap-around band of `time.Unix` (the
      last 62135596800 seconds of the int64 range) counts as expired at every
      call: each call fetches a token again, and when the endpoint keeps
      answering with such a lifetime, so does the next. */
  lemma FarExpiryRenewsEveryCall(ctx: AuthenticatedContext, now: Int64,
                                 respond: (seq<Outgoing<Any>>, Outgoing<Any>) -> Reply, history: seq<Outgoing<Any>>)
    requires TokenOf(ctx).Some? && TokenParamsOf(ctx).Some?
    requires TokenOf(ctx).value.expiresAt > Max64 - UnixToInternal
    requires -UnixToInternal <= now <= Max64 - UnixToInternal
    ensures var n := Renewed(ctx, now, respond, history);
            && n.sent == Acquire(Some(ctx), TokenParamsOf(ctx).value, now, respond, history).sent
            && (HasSuffix(TokenParamsOf(ctx).value.authUrl, TokenEndpointSuffix) ==>
                  n.sent == [TokenRequest(Some(ctx), TokenParamsOf(ctx).value)])
  {
    AfterEveryFarInstant(now, TokenOf(ctx).value.expiresAt);
    RenewalAfterExpiry(ctx, now, respond, history);
  }

  /** The token a client holds in the run below, and the one the endpoint
      hands out when asked for a new one. */
  const StoredAccessToken: GoString := "access_token"
  const RenewedAccessToken: GoString := "new_access_token"

  /** The defect at client/client.go:29 on a concrete run: the stored token
      "access_token" expired at 0, the call is made at 1 and the endpoint
      answers with "new_access_token" for 3600 seconds. The client's context
      then holds the new token, valid until 3481, while the request goes out
      with the old one. */
  lemma StaleBearerAfterRenewal(ctx: AuthenticatedContext, req: Outgoing<Any>,
                                respond: (seq<Outgoing<Any>>, Outgoing<Any>) -> Reply, history: seq<Outgoing<Any>>)
    requires TokenOf(ctx) == Some(Token(StoredAccessToken, 0)) && TokenParamsOf(ctx).Some?
    requires HasSuffix(TokenParamsOf(ctx).value.authUrl, TokenEndpointSuffix)
    requires respond(history, TokenRequest(Some(ctx), TokenParamsOf(ctx).value))
             == Response(200, Decoded(RenewedAccessToken, 3600))
    ensures var e := Dispatch(ctx, req, 1, respond, history);
            && TokenOf(e.ctx) == Some(Token(RenewedAccessToken, 3481))
            && "Authorization" in e.header
            && e.header["Authorization"] == ["Bearer " + StoredAccessToken]
            && e.header["Authorization"] != ["Bearer " + RenewedAccessToken]
  {
    var params := TokenParamsOf(ctx).value;
    var a := Acquire(Some(ctx), params, 1, respond, history);
    assert a.result == Success(Token(RenewedAccessToken, 3481));
    DispatchAfterRenewal(ctx, req, 1, respond, history);
    assert |"Bearer " + RenewedAccessToken| != |"Bearer " + StoredAccessToken|;
  }

  /** The defect at client/client.go:38: a request that carries nothing but
      the background context goes out under it, never under the client's
      context, whose token and parameters it therefore does not see. */
  lemma ClientContextNeverAttached(ctx: AuthenticatedContext, req: Outgoing<Any>, now: Int64,
                                   respond: (seq<Outgoing<Any>>, Outgoing<Any>) -> Reply, history: seq<Outgoing<Any>>)
    requires TokenOf(ctx).Some?
    requires After(now, TokenOf(ctx).value.expiresAt) ==> TokenParamsOf(ctx).Some?
    requires req.ctx == Background()
    ensures var e := Dispatch(ctx, req, now, respond, history);
            e.result.Success? ==>
              && e.sent != []
              && e.sent[|e.sent| - 1].ctx == Background()
              && e.sent[|e.sent| - 1].ctx != e.ctx
  {
    var e := Dispatch(ctx, req, now, respond, history);
    if e.result.Success? {
      assert TokenOf(e.ctx).Some?;
      assert e.ctx.Value(TokenContextKey).Some?;
      assert e.ctx.bindings != [];
    }
  }

  /** The repaired `Do` sends the token that the client holds once the call
      is over. */
  lemma IntendedBearerIsCurrentToken(ctx: AuthenticatedContext, req: Outgoing<Any>, now: Int64,
                                     respond: (seq<Outgoing<Any>>, Outgoing<Any>) -> Reply, history: seq<Outgoing<Any>>)
    requires TokenOf(ctx).Some?
    requires After(now, TokenOf(ctx).value.expiresAt) ==> TokenParamsOf(ctx).Some?
    ensures var e := DispatchIntended(ctx, req, now, respond, history);
            e.result.Success? ==>
              && e.header == Stamp(req.header, TokenOf(e.ctx).value.accessToken)
              && e.sent != [] && e.sent[|e.sent| - 1].header == e.header
  {
    var n := Renewed(ctx, now, respond, history);
    if n.error.None? {
      var out := Within(req.(header := Stamp(req.header, TokenOf(n.ctx).value.accessToken)), n.ctx);
      var e := DispatchIntended(ctx, req, now, respond, history);
      assert e.ctx == n.ctx && e.header == out.header && e.sent == n.sent + [out];
    }
  }

  /** The repaired `Do` sends a request that carries nothing but the
      background context within the client's context, and any other request
      under its own. */
  lemma IntendedAttachesClientContext(ctx: AuthenticatedContext, req: Outgoing<Any>, now: Int64,
                                      respond: (seq<Outgoing<Any>>, Outgoing<Any>) -> Reply, history: seq<Outgoing<Any>>)
    requires TokenOf(ctx).Some?
    requires After(now, TokenOf(ctx).value.expiresAt) ==> TokenParamsOf(ctx).Some?
    ensures var e := DispatchIntended(ctx, req, now, respond, history);
            e.result.Success? ==>
              && e.sent != []
              && e.sent[|e.sent| - 1].ctx == (if req.ctx == Background() then e.ctx else req.ctx)
  {
  }

  /** The repair changes only the request that goes out: the client's
      context afterwards is that of `Do` as written, and a call that ends
      in a failed renewal is the same in both. */
  lemma IntendedAgreesOnRenewal(ctx: AuthenticatedContext, req: Outgoing<Any>, now: Int64,
                                respond: (seq<Outgoing<Any>>, Outgoing<Any>) -> Reply, history: seq<Outgoing<Any>>)
    requires TokenOf(ctx).Some?
    requires After(now, TokenOf(ctx).value.expiresAt) ==> TokenParamsOf(ctx).Some?
    ensures DispatchIntended(ctx, req, now, respond, history).ctx == Dispatch(ctx, req, now, respond, history).ctx
    ensures Renewed(ctx, now, respond, history).error.Some? ==>
              DispatchIntended(ctx, req, now, respond, history) == Dispatch(ctx, req, now, respond, history)
  {
  }

  /** When the call goes through, both versions send the same token
      requests first and then one request. */
  lemma IntendedAgreesOnTokenRequests(ctx: AuthenticatedContext, req: Outgoing<Any>, now: Int64,
                                      respond: (seq<Outgoing<Any>>, Outgoing<Any>) -> Reply, history: seq<Outgoing<Any>>)
    requires TokenOf(ctx).Some?
    requires After(now, TokenOf(ctx).value.expiresAt) ==> TokenParamsOf(ctx).Some?
    requires Dispatch(ctx, req, now, respond, history).result.Success?
    ensures var e := Dispatch(ctx, req, now, respond, history);
            var f := DispatchIntended(ctx, req, now, respond, history);
            && |f.sent| == |e.sent| > 0
            && f.sent[..|f.sent| - 1] == e.sent[..|e.sent| - 1]
  {
    var n := Renewed(ctx, now, respond, history);
    var e := Dispatch(ctx, req, now, respond, history);
    var f := DispatchIntended(ctx, req, now, respond, history);
    assert e.sent[..|e.sent| - 1] == n.sent;
    assert f.sent[..|f.sent| - 1] == n.sent;
  }

  /** A context built by `GetAuthenticatedContextWithToken` is taken by
      `NewClient` as it is: no token is fetched and the client works with
      that very context, at the API URL of the parameters. */
  lemma ConnectWithTokenSendsNothing(parent: AuthenticatedContext, params: GetTokenParams, token: Token, now: Int64,
                                     respond: (seq<Outgoing<Any>>, Outgoing<Any>) -> Reply, history: seq<Outgoing<Any>>)
    requires GetAuthenticatedContextWithToken(Some(parent), params, token).Success?
    ensures var ctx := GetAuthenticatedContextWithToken(Some(parent), params, token).value;
            Connect(ctx, now, respond, history) == Connection([], Success(Session(params.apiUrl, ctx)))
  {
  }

  /** A context with parameters but no token gets one from `NewClient`, and
      the client starts out ready for `Do`. */
  lemma ConnectFetchesMissingToken(parent: AuthenticatedContext, params: GetTokenParams, now: Int64,
                                   respond: (seq<Outgoing<Any>>, Outgoing<Any>) -> Reply, history: seq<Outgoing<Any>>)
    requires GetAuthenticatedContext(Some(parent), params).Success?
    requires TokenOf(parent).None?
    ensures var ctx := GetAuthenticatedContext(Some(parent), params).value;
            var c := Connect(ctx, now, respond, history);
            && c.sent == [TokenRequest(Some(ctx), params)]
            && (c.result.Success? ==> Authenticated(c.result.value.ctx) && c.result.value.endpoint == params.apiUrl)
  {
    var ctx := GetAuthenticatedContext(Some(parent), params).value;
    assert TokenContextKey != TokenParamsContextKey;
    assert TokenOf(ctx).None?;
  }
}
