/** The parts of Go's `net/http` and `net/url` the token lifecycle touches:
    header and form maps, requests whose headers are changed in place, and a
    network that records every request it is handed and answers from an
    oracle. */
module Http {
  import opened Prelude
  import opened Contexts

  /** `http.Header` and `url.Values`: each key maps to a list of values. */
  type Header = map<GoString, seq<GoString>>

  /** `h.Add(key, value)`: appends `value` to the values of `key`. */
  function Add(h: Header, key: GoString, value: GoString): (r: Header)
  {
    h[key := (if key in h then h[key] else []) + [value]]
  }

  /** Adding one value under each of three distinct keys of an empty header. */
  lemma AddThree(k1: GoString, v1: GoString, k2: GoString, v2: GoString, k3: GoString, v3: GoString)
    requires k1 != k2 && k1 != k3 && k2 != k3
    ensures Add(Add(Add(map[], k1, v1), k2, v2), k3, v3) == map[k1 := [v1], k2 := [v2], k3 := [v3]]
  {
    var h1 := Add(map[], k1, v1);
    assert h1[k1] == [v1] && h1.Keys == {k1};
    var h2 := Add(h1, k2, v2);
    assert h2[k2] == [v2] && h2.Keys == {k1, k2};
    var h3 := Add(h2, k3, v3);
    assert h3[k3] == [v3] && h3.Keys == {k1, k2, k3};
  }

  /** `h.Set(key, value)`, for headers and for `url.Values` alike: `value`
      becomes the only value of `key`. */
  function Set(h: Header, key: GoString, value: GoString): (r: Header)
  {
    h[key := [value]]
  }

  /** Setting three distinct keys of an empty map. */
  lemma SetThree(k1: GoString, v1: GoString, k2: GoString, v2: GoString, k3: GoString, v3: GoString)
    requires k1 != k2 && k1 != k3 && k2 != k3
    ensures Set(Set(Set(map[], k1, v1), k2, v2), k3, v3) == map[k1 := [v1], k2 := [v2], k3 := [v3]]
  {
  }

  datatype Body = NoBody | Form(values: Header) | Raw(bytes: GoString)

  /** A response body as `encoding/json` reads it into a value with the fields
      `access_token` (string) and `expires_in` (int64): those two fields
      (a field the body lacks reads as "" or 0), or a decoding error. */
  datatype Payload = Decoded(accessToken: GoString, expiresIn: Int64) | Undecodable

  /** What `http.Client.Do` gives back: a transport error, or a response with
      any status code. */
  datatype Reply = TransportError(reason: GoString) | Response(status: int, body: Payload)

  /** A request as it reaches the transport. */
  datatype Outgoing<V> = Outgoing(verb: GoString, url: GoString, header: Header, body: Body, ctx: Contexts.Context<V>)

  /** `*http.Request`. Its header map is shared with the caller and changed in
      place; `ctx` is None for a request built as a literal. */
  class Request<V> {
    const verb: GoString
    const url: GoString
    const body: Body
    var header: Header
    var ctx: Option<Contexts.Context<V>>

    /** A request literal `&http.Request{...}`: no context of its own. */
    constructor (verb: GoString, url: GoString, header: Header, body: Body)
      ensures this.verb == verb && this.url == url && this.body == body
      ensures this.header == header && ctx == None
    {
      this.verb, this.url, this.body := verb, url, body;
      this.header, this.ctx := header, None;
    }

    /** `req.Context()`: the request's own context, or the background context
        when it has none, so never nil. */
    function Context(): (c: Contexts.Context<V>)
      reads this
    {
      ctx.GetOr(Background())
    }

    /** `req.Context()` as a Go interface value, None standing for nil: it
        is never nil. */
    function NilableContext(): (c: Option<Contexts.Context<V>>)
      reads this
      ensures c.Some?
    {
      Some(Context())
    }

    /** The request as the transport sees it. */
    function Snapshot(): (o: Outgoing<V>)
      reads this
    {
      Outgoing(verb, url, header, body, Context())
    }

    /** `req.WithContext(c)`: a shallow copy that carries `c`. */
    method WithContext(c: Contexts.Context<V>) returns (r: Request<V>)
      ensures fresh(r)
      ensures r.verb == verb && r.url == url && r.body == body
      ensures r.header == header && r.ctx == Some(c)
    {
      r := new Request(verb, url, header, body);
      r.ctx := Some(c);
    }
  }

  /** `http.NewRequest(method, url, body)`: an empty header and the
      background context. */
  method NewRequest<V>(verb: GoString, url: GoString, body: Body) returns (req: Request<V>)
    ensures fresh(req)
    ensures req.verb == verb && req.url == url && req.body == body
    ensures req.header == map[] && req.ctx == Some(Background())
  {
    req := new Request(verb, url, map[], body);
    req.ctx := Some(Background());
  }

  /** The network beyond every `http.Client`: `sent` lists what it was handed,
      in order, and `respond` says what it answers to a request, given all
      earlier ones. */
  class Network<V> {
    var sent: seq<Outgoing<V>>
    const respond: (seq<Outgoing<V>>, Outgoing<V>) -> Reply

    constructor (respond: (seq<Outgoing<V>>, Outgoing<V>) -> Reply)
      ensures sent == [] && this.respond == respond
    {
      sent, this.respond := [], respond;
    }

    /** `client.Do(req)`. */
    method RoundTrip(req: Request<V>) returns (reply: Reply)
      modifies this
      ensures sent == old(sent) + [req.Snapshot()]
      ensures reply == respond(old(sent), req.Snapshot())
    {
      reply := respond(sent, req.Snapshot());
      sent := sent + [req.Snapshot()];
    }
  }
}
