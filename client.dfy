/** Package `client` (client/client.go): an HTTP client that carries an
    authenticated context, refreshes the token it holds when that token has
    expired, and stamps every outgoing request with a Bearer credential; and
    `NewClient`, which makes sure the context holds a token before handing
    the client to the GraphQL layer. */
module Client {
  import opened Prelude
  import opened Contexts
  import opened Http
  import opened Auth

  /** A context the client can work with: it holds a token and the
      parameters to renew it. */
  predicate Authenticated(ctx: AuthenticatedContext) {
    TokenOf(ctx).Some? && TokenParamsOf(ctx).Some?
  }

  /** `req.Header.Set("Authorization", "Bearer "+bearer)` followed by
      `req.Header.Set("X-Fragment-Client", "go-client")`. */
  function Stamp(h: Header, bearer: GoString): (r: Header)
    ensures "Authorization" in r && r["Authorization"] == ["Bearer " + bearer]
    ensures "X-Fragment-Client" in r && r["X-Fragment-Client"] == ["go-client"]
    ensures r.Keys == h.Keys + {"Authorization", "X-Fragment-Client"}
    ensures forall k | k in h && k != "Authorization" && k != "X-Fragment-Client" :: r[k] == h[k]
  {
    Set(Set(h, "Authorization", "Bearer " + bearer), "X-Fragment-Client", "go-client")
  }

  /** What `c.Client.Do(req)` hands back: the response, or the transport's
      error. */
  function Returned(reply: Reply): (r: Result<Reply, Error>)
    ensures r.Success? <==> reply.Response?
    ensures r.Success? ==> r.value == reply
    ensures r.Failure? ==> r.error == TransportFailed(reply.reason)
  {
    match reply
    case TransportError(reason) => Failure(TransportFailed(reason))
    case Response(_, _) => Success(reply)
  }

  /** The first half of `HttpClient.Do`: the client's context afterwards,
      the token requests sent, and the error that ends the call, if any. */
  datatype Renewal = Renewal(ctx: AuthenticatedContext, sent: seq<Outgoing<Any>>, error: Option<Error>)

  /** Lines 26-36 of `Do` at Unix time `now`: the token in `ctx` is renewed
      exactly when `now` is after its expiry as `time.Time.After` compares
      them (see `Prelude.After`). A renewal that fails
      leaves the context as it was; one that succeeds puts the new token in
      front of the old, and the parameters stay where they were. */
  function Renewed(ctx: AuthenticatedContext, now: Int64,
                   respond: (seq<Outgoing<Any>>, Outgoing<Any>) -> Reply, history: seq<Outgoing<Any>>)
    : (n: Renewal)
    requires TokenOf(ctx).Some?
    requires After(now, TokenOf(ctx).value.expiresAt) ==> TokenParamsOf(ctx).Some?
    ensures TokenParamsOf(n.ctx) == TokenParamsOf(ctx) && TokenOf(n.ctx).Some?
    ensures n.error.Some? ==> n.ctx == ctx
  {
    if After(now, TokenOf(ctx).value.expiresAt) then
      var a := Acquire(Some(ctx), TokenParamsOf(ctx).value, now, respond, history);
      match a.result
      case Failure(err) => Renewal(ctx, a.sent, Some(err))
      case Success(renewed) =>
        RenewalKeepsParams(ctx, renewed);
        Renewal(WithValue(ctx, TokenContextKey, TokenRef(renewed)), a.sent, None)
    else
      Renewal(ctx, [], None)
  }

  /** Adding a token to a context leaves its parameters where they were. */
  lemma RenewalKeepsParams(ctx: AuthenticatedContext, token: Token)
    ensures TokenParamsOf(WithValue(ctx, TokenContextKey, TokenRef(token))) == TokenParamsOf(ctx)
    ensures TokenOf(WithValue(ctx, TokenContextKey, TokenRef(token))) == Some(token)
  {
    WithValueLookup(ctx, TokenContextKey, TokenRef(token));
    assert TokenParamsContextKey != TokenContextKey;
  }

  /** The effect of one call of `HttpClient.Do`: the client's context after
      it, the requests that reached the network, the request's header after
      it, and the result. */
  datatype Exchange = Exchange(ctx: AuthenticatedContext, sent: seq<Outgoing<Any>>, header: Header,
                               result: Result<Reply, Error>)

  /** `HttpClient.Do(req)` as written, at Unix time `now`, for a client whose
      context is `ctx` and a request that looks like `req`. A failed renewal
      ends the call before the request is sent. Otherwise the request goes
      out after the token request, if any, stamped with the token `T` that
      was read on entry, even when a renewal replaced it (the renewed token
      is a second variable, declared at client/client.go:29, that goes out
      of scope at line 35); and the request keeps its own context. */
  function Dispatch(ctx: AuthenticatedContext, req: Outgoing<Any>, now: Int64,
                    respond: (seq<Outgoing<Any>>, Outgoing<Any>) -> Reply, history: seq<Outgoing<Any>>)
    : (e: Exchange)
    requires TokenOf(ctx).Some?
    requires After(now, TokenOf(ctx).value.expiresAt) ==> TokenParamsOf(ctx).Some?
    ensures TokenParamsOf(e.ctx) == TokenParamsOf(ctx) && TokenOf(e.ctx).Some?
  {
    var n := Renewed(ctx, now, respond, history);
    if n.error.Some? then
      Exchange(ctx, n.sent, req.header, Failure(n.error.value))
    else
      var out := req.(header := Stamp(req.header, TokenOf(ctx).value.accessToken));
      assert history + [] == history;
      Exchange(n.ctx, n.sent + [out], out.header, Returned(respond(history + n.sent, out)))
  }

  /** `HttpClient.Do` with the two defects repaired: the Bearer header
      carries the token the client holds once the call has renewed it, and
      a request that carries nothing but the background context is sent
      within the client's context. */
  function DispatchIntended(ctx: AuthenticatedContext, req: Outgoing<Any>, now: Int64,
                            respond: (seq<Outgoing<Any>>, Outgoing<Any>) -> Reply, history: seq<Outgoing<Any>>)
    : (e: Exchange)
    requires TokenOf(ctx).Some?
    requires After(now, TokenOf(ctx).value.expiresAt) ==> TokenParamsOf(ctx).Some?
    ensures TokenParamsOf(e.ctx) == TokenParamsOf(ctx) && TokenOf(e.ctx).Some?
  {
    var n := Renewed(ctx, now, respond, history);
    if n.error.Some? then
      Exchange(ctx, n.sent, req.header, Failure(n.error.value))
    else
      var out := Within(req.(header := Stamp(req.header, TokenOf(n.ctx).value.accessToken)), n.ctx);
      Exchange(n.ctx, n.sent + [out], out.header, Returned(respond(history + n.sent, out)))
  }

  /** The request sent within `ctx` when it carries nothing but the
      background context, and under its own context otherwise. */
  function Within(req: Outgoing<Any>, ctx: AuthenticatedContext): (r: Outgoing<Any>)
    ensures r.verb == req.verb && r.url == req.url && r.header == req.header && r.body == req.body
    ensures r.ctx == (if req.ctx == Background() then ctx else req.ctx)
  {
    if req.ctx == Background() then req.(ctx := ctx) else req
  }

  /** `HttpClient`: a `*http.Client` (here the network it reaches) and the
      authenticated context, which `Do` replaces when it renews the token. */
  class HttpClient {
    const net: Network<Any>
    var ctx: AuthenticatedContext

    /** `newHttpClient(ctx)`. */
    constructor (ctx: AuthenticatedContext, net: Network<Any>)
      ensures this.ctx == ctx && this.net == net
    {
      this.ctx, this.net := ctx, net;
    }

    /** The client holds a token and the parameters to renew it, so `Do`
        can always run to the request. */
    predicate Ready()
      reads this
    {
      Authenticated(ctx)
    }

    /** Lines 28-36 of `Do`: when `now` is after the expiry of the token the
        context holds, fetch a new one and put it in a context
        that replaces the client's; a failure leaves the context alone. */
    method Renew(now: Int64) returns (err: Option<Error>)
      requires TokenOf(ctx).Some?
      requires After(now, TokenOf(ctx).value.expiresAt) ==> TokenParamsOf(ctx).Some?
      modifies this, net
      ensures var n := Renewed(old(ctx), now, net.respond, old(net.sent));
              ctx == n.ctx && net.sent == old(net.sent) + n.sent && err == n.error
      ensures old(Ready()) ==> Ready()
    {
      err := None;
      if After(now, TokenOf(ctx).value.expiresAt) {
        var got := GetToken(Some(ctx), TokenParamsOf(ctx).value, now, net);
        match got
        case Failure(e) =>
          err := Some(e);
        case Success(renewed) =>
          ctx := WithValue(ctx, TokenContextKey, TokenRef(renewed));
      }
    }

    /** `c.Do(req)` at Unix time `now`. `GetToken` reads the same clock. */
    method Do(req: Request<Any>, now: Int64) returns (r: Result<Reply, Error>)
      requires TokenOf(ctx).Some?
      requires After(now, TokenOf(ctx).value.expiresAt) ==> TokenParamsOf(ctx).Some?
      modifies this, net, req
      ensures var e := Dispatch(old(ctx), old(req.Snapshot()), now, net.respond, old(net.sent));
              && ctx == e.ctx && net.sent == old(net.sent) + e.sent && req.header == e.header && r == e.result
      ensures req.ctx == old(req.ctx)
      ensures old(Ready()) ==> Ready()
    {
      ghost var history, snapshot := net.sent, req.Snapshot();
      ghost var n := Renewed(ctx, now, net.respond, history);
      var token := TokenOf(ctx).value;
      var err := Renew(now);
      if err.Some? {
        return Failure(err.value);
      }
      if req.NilableContext().None? {
        // Never taken: a request's context is never nil.
        assert false;
      }
      ghost var out := snapshot.(header := Stamp(snapshot.header, token.accessToken));
      r := StampAndSend(req, token.accessToken, net);
      assert req.Snapshot() == out;
      assert net.sent == history + (n.sent + [out]);
    }

    /** `Do` repaired: see `DispatchIntended`. A copy made by `WithContext`
        shares its header map with the original, so the caller's request
        ends up with the stamped header either way. */
    method DoIntended(req: Request<Any>, now: Int64) returns (r: Result<Reply, Error>)
      requires TokenOf(ctx).Some?
      requires After(now, TokenOf(ctx).value.expiresAt) ==> TokenParamsOf(ctx).Some?
      modifies this, net, req
      ensures var e := DispatchIntended(old(ctx), old(req.Snapshot()), now, net.respond, old(net.sent));
              && ctx == e.ctx && net.sent == old(net.sent) + e.sent && req.header == e.header && r == e.result
      ensures req.ctx == old(req.ctx)
      ensures old(Ready()) ==> Ready()
    {
      ghost var history, snapshot := net.sent, req.Snapshot();
      ghost var n := Renewed(ctx, now, net.respond, history);
      var err := Renew(now);
      if err.Some? {
        return Failure(err.value);
      }
      var token := TokenOf(ctx).value;
      ghost var expected := Within(snapshot.(header := Stamp(snapshot.header, token.accessToken)), ctx);
      r := SendWithin(req, ctx, token.accessToken, net);
      assert net.sent == history + (n.sent + [expected]);
    }
  }

  /** Lines 38-40 of `Do` as they are meant: a request that carries nothing
      but the background context is replaced by a copy within `ctx`. */
  method Attach(req: Request<Any>, ctx: AuthenticatedContext) returns (out: Request<Any>)
    ensures out == req || fresh(out)
    ensures out.header == req.header
    ensures out.Snapshot() == Within(req.Snapshot(), ctx)
  {
    out := req;
    if req.Context() == Background() {
      out := req.WithContext(ctx);
    }
  }

  /** Lines 38-43 of `Do` as they are meant: the request goes out within
      `ctx` when it carries nothing but the background context, stamped
      with `bearer`; the caller's request keeps its context and ends up with
      the stamped header, which a `WithContext` copy shares in Go. */
  method SendWithin(req: Request<Any>, ctx: AuthenticatedContext, bearer: GoString, net: Network<Any>)
    returns (r: Result<Reply, Error>)
    modifies req, net
    ensures var out := Within(old(req.Snapshot()).(header := Stamp(old(req.header), bearer)), ctx);
            && net.sent == old(net.sent) + [out]
            && req.header == out.header && req.ctx == old(req.ctx)
            && r == Returned(net.respond(old(net.sent), out))
  {
    ghost var expected := Within(req.Snapshot().(header := Stamp(req.header, bearer)), ctx);
    var out := Attach(req, ctx);
    r := StampAndSend(out, bearer, net);
    assert out.Snapshot() == expected;
    req.header := out.header;
  }

  /** Lines 41-43 of `Do`: the two headers are set in place and the request
      goes to the network. */
  method StampAndSend(req: Request<Any>, bearer: GoString, net: Network<Any>) returns (r: Result<Reply, Error>)
    modifies req, net
    ensures req.header == Stamp(old(req.header), bearer) && req.ctx == old(req.ctx)
    ensures net.sent == old(net.sent) + [req.Snapshot()]
    ensures r == Returned(net.respond(old(net.sent), req.Snapshot()))
  {
    req.header := Set(req.header, "Authorization", "Bearer " + bearer);
    req.header := Set(req.header, "X-Fragment-Client", "go-client");
    var reply := net.RoundTrip(req);
    r := Returned(reply);
  }

  /** What `graphql.NewClient(endpoint, httpClient)` is given. */
  datatype GraphqlClient = GraphqlClient(endpoint: GoString, http: HttpClient)

  /** A client as `NewClient` would set it up: the endpoint and the context. */
  datatype Session = Session(endpoint: GoString, ctx: AuthenticatedContext)

  /** The effect of `NewClient`: the requests it sent and its result. */
  datatype Connection = Connection(sent: seq<Outgoing<Any>>, result: Result<Session, Error>)

  /** `NewClient(ctx)` at Unix time `now`: it fails without the parameters,
      fetches a token only when the context holds none, and aims the client
      at the API URL of the parameters. */
  function Connect(ctx: AuthenticatedContext, now: Int64,
                   respond: (seq<Outgoing<Any>>, Outgoing<Any>) -> Reply, history: seq<Outgoing<Any>>)
    : (c: Connection)
    ensures TokenParamsOf(ctx).None? ==> c == Connection([], Failure(TokenParamsNotFound))
    ensures TokenParamsOf(ctx).Some? && TokenOf(ctx).Some? ==>
              c == Connection([], Success(Session(TokenParamsOf(ctx).value.apiUrl, ctx)))
    ensures TokenParamsOf(ctx).Some? && TokenOf(ctx).None? ==>
              var a := Acquire(Some(ctx), TokenParamsOf(ctx).value, now, respond, history);
              && c.sent == a.sent
              && (c.result.Failure? <==> a.result.Failure?)
              && (a.result.Failure? ==> c.result.error == a.result.error)
              && (a.result.Success? ==> c.result.value.ctx == WithValue(ctx, TokenContextKey, TokenRef(a.result.value)))
    ensures c.result.Success? ==>
              && Authenticated(c.result.value.ctx)
              && TokenParamsOf(c.result.value.ctx) == TokenParamsOf(ctx)
              && c.result.value.endpoint == TokenParamsOf(ctx).value.apiUrl
  {
    match TokenParamsOf(ctx)
    case None => Connection([], Failure(TokenParamsNotFound))
    case Some(params) =>
      if TokenOf(ctx).Some? then
        Connection([], Success(Session(params.apiUrl, ctx)))
      else
        var a := Acquire(Some(ctx), params, now, respond, history);
        match a.result
        case Failure(err) => Connection(a.sent, Failure(err))
        case Success(token) =>
          RenewalKeepsParams(ctx, token);
          Connection(a.sent, Success(Session(params.apiUrl, WithValue(ctx, TokenContextKey, TokenRef(token)))))
  }

  /** `NewClient(ctx)` at Unix time `now`, on `net`. */
  method NewClient(ctx: AuthenticatedContext, now: Int64, net: Network<Any>) returns (r: Result<GraphqlClient, Error>)
    modifies net
    ensures var c := Connect(ctx, now, net.respond, old(net.sent));
            && net.sent == old(net.sent) + c.sent
            && (r.Failure? <==> c.result.Failure?)
            && (r.Failure? ==> r.error == c.result.error)
            && (r.Success? ==> r.value.endpoint == c.result.value.endpoint && r.value.http.ctx == c.result.value.ctx)
    ensures r.Success? ==> fresh(r.value.http) && r.value.http.net == net && r.value.http.Ready()
  {
    var current := ctx;
    var params := TokenParamsOf(current);
    if params.None? {
      return Failure(TokenParamsNotFound);
    }
    var tokenParams := params.value;
    if TokenOf(current).None? {
      var got := GetToken(Some(current), tokenParams, now, net);
      match got
      case Failure(err) =>
        return Failure(err);
      case Success(token) =>
        current := WithValue(current, TokenContextKey, TokenRef(token));
    }
    var http := new HttpClient(current, net);
    r := Success(GraphqlClient(tokenParams.apiUrl, http));
  }
}
