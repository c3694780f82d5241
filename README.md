# fragment-go token lifecycle, in Dafny

This project models the OAuth2 client-credentials token lifecycle of the
fragment-go SDK. The grant is the one in section 4.4 of RFC 6749. Package
`auth` (auth/token.go) does three things:

- It validates the credential parameters (`GetTokenParams.IsValid`).
- It layers the parameters and a token onto a Go `context.Context`
  (`GetAuthenticatedContext`, `GetAuthenticatedContextWithToken`).
- It exchanges the parameters for a token at the authorization endpoint
  (`GetToken`).

`GetToken` sends a POST with a three-field form and a Basic credential
(section 2 of RFC 7617, standard base64 of section 4 of RFC 4648). It turns
the `expires_in` of the answer (section 5.1 of RFC 6749) into an absolute
expiry, 120 seconds early, in int64 arithmetic.

Package `client` (client/client.go) wraps an `http.Client` in `HttpClient`,
which holds an authenticated context. `HttpClient.Do` renews the token when
the clock is after its expiry, as `time.Time.After` compares the seconds
since year 1 that `time.Unix` stores in an int64, and replaces the context
when the renewal succeeds. It stamps the request with a Bearer credential and the
`X-Fragment-Client` header, and then sends it. `NewClient` looks up the
parameters, fetches a token when the context holds none, and aims the
GraphQL client at the API URL.

The model's pieces:

- Go strings are byte sequences (`Prelude.GoString`), and int64 wraps
  explicitly (`Prelude.Wrap64`). So does the sum that `time.Unix` stores
  (`Prelude.InternalSeconds`), which `Prelude.After` compares.
- A context is an append-only chain of bindings in which lookup finds the
  innermost one (`Contexts`).
- Requests are objects whose header map is changed in place, and the
  network is an object that logs every request it receives and answers
  from an oracle (`Http`).
- `GetToken`, `HttpClient.Do` and `NewClient` are methods. Each is proved
  against a function that states its whole effect: `Auth.Acquire`,
  `Client.Dispatch` and `Client.Connect`. The properties are proved as
  lemmas about those functions (`AuthProperties`, `ClientProperties`).

Where the code does something other than its tests and messages lead one
to expect, the model follows the code:

- The status code of the token response is never examined. The test at
  client/client_test.go:54-81 answers the token request with a 403 and
  expects `Do` to fail, but a decodable body with any status yields a token
  (`AuthProperties.StatusNotConsulted`).
- The error message at auth/token.go:85 asks for an authorization URL that
  ends in "/oauth2/token", but the suffix test on the line before has no
  slash (`AuthProperties.SuffixNeedsNoSlash`).
- A token whose expiry lies in the last 62135596800 seconds of the int64
  range counts as expired at every call, because `time.Unix` wraps there
  (`ClientProperties.FarExpiryRenewsEveryCall`).
- After a renewal the request carries the old token (first finding below).

## Model

| member | source | states |
|---|---|---|
| Prelude.Wrap64 | auth/token.go:126 | the int64 result equals the exact value modulo 2^64, and equals it outright when it fits |
| Prelude.InternalSeconds | auth/token.go:126 | `time.Unix(sec, 0)` stores `sec + 62135596800`, less 2^64 for the last 62135596800 seconds of the int64 range |
| Prelude.AfterIsLater | client/client.go:28 | below the wrap-around band `After` is the strict order of Unix seconds |
| Prelude.AfterEveryFarInstant | client/client.go:28 | every instant from year 1 up to the band is after any instant inside the band |
| Prelude.HasSuffixIffEndsWith | auth/token.go:47 | `strings.HasSuffix(s, t)` holds exactly when `s` is some string followed by `t` |
| Base64.Encode | auth/token.go:93 | the encoding has 4 characters for every started group of 3 bytes, each in the alphabet or `=` |
| Base64.Decode | auth/token_test.go:74 | a decodable text has a length that is a multiple of 4, exactly 4 characters for every started group of 3 decoded bytes |
| Base64.DecodeEncode | auth/token.go:93 | decoding the standard base64 encoding of any byte string gives it back |
| Contexts.Context.Value | client/client.go:26 | lookup is None exactly when no binding has the key; otherwise it is the value of the innermost binding of the key |
| Contexts.WithValue | client/client.go:34 | the child keeps every binding of its parent, in order, and adds exactly one |
| Contexts.ValueIsInnermost | client/client.go:26 | `Value(key)` is `val` exactly when some binding of `key` to `val` has no binding of `key` inside it |
| Contexts.WithValueLookup | auth/token.go:72 | a derived context answers for its key with its value and for every other key as its parent |
| Http.Request.NilableContext | client/client.go:38 | `req.Context()` is never nil |
| Http.Network.RoundTrip | auth/token.go:113-117 | the request as it stands is appended to the log of sent requests and the oracle's answer is returned |
| Auth.GetTokenParams.IsValid | auth/token.go:46-51 | no error exactly when the auth URL ends in "oauth2/token"; the error otherwise is the invalid-URL one |
| Auth.TypeAssertions | client/client.go:47-51 | each two-result type assertion yields a value exactly when the chain binds its key to that value and no binding of the key lies inside that one |
| Auth.ForeignBindingHides | client/client.go:47-51 | a value of another type bound under "token" or "tokenParams" makes the type assertion fail, whatever the parent holds |
| Auth.Credentials | auth/token.go:88-91 | the credential is the client id, one colon, and the secret |
| Auth.GetAuthenticatedContext | auth/token.go:65-73 | succeeds iff the parameters are valid and a context is given; invalid parameters win over a nil context; on success "tokenParams" holds this very parameter object and every other key is unchanged |
| Auth.GetAuthenticatedContextWithToken | auth/token.go:75-81 | fails iff `GetAuthenticatedContext` does, with its error; on success "token" and "tokenParams" hold the given token and parameters and every other key is unchanged |
| Auth.ExpiresAt | auth/token.go:126 | the expiry is `now + expires_in - 120` modulo 2^64, exactly that when it fits in an int64 |
| Auth.Acquire | auth/token.go:83-131 | nothing is sent iff the auth URL lacks the suffix, and then the call fails; otherwise exactly the token request is sent; the call fails iff the transport fails or the body does not decode, and a token carries the answer's access token and the computed expiry |
| Auth.AddTokenHeaders | auth/token.go:109-111 | a fresh request ends up with exactly the Authorization, Content-Type and Accept headers |
| Auth.BuildTokenRequest | auth/token.go:88-111 | the request built step by step is the POST of the three-field form to the auth URL, with the Basic credential, under the given context |
| Auth.GetToken | auth/token.go:83-131 | the network receives exactly the requests of `Acquire` and the result is that of `Acquire` |
| AuthProperties.TokenFormFields | auth/token.go:95-98 | the form holds exactly `grant_type=client_credentials`, the scope and the client id, one value each |
| AuthProperties.TokenRequestHeaderFields | auth/token.go:109-111 | the token request has exactly the Authorization, Content-Type and Accept headers, one value each, with the Basic credential and the form content type |
| AuthProperties.TokenRequestTarget | auth/token.go:100-107 | the token request is a POST of the form to the auth URL, within the caller's context or the background one when there is none |
| AuthProperties.BasicCredentialRoundTrip | auth/token.go:88-93 | the Authorization header is one value, "Basic " followed by base64 that decodes to `clientId:clientSecret` |
| AuthProperties.CredentialsSplit | auth/token.go:88-91 | for a client id without a colon, the credential splits at its first colon into the id and the secret |
| AuthProperties.StatusNotConsulted | auth/token.go:113-124 | a response of any status with a decodable body yields the token |
| AuthProperties.OneHourTokenExpiry | auth/token.go:126 | an `expires_in` of 3600 expires 3480 seconds after `now` |
| AuthProperties.ExpiryWrapsAtInt64Max | auth/token.go:126 | at the top of the int64 range the expiry wraps to the most negative instant |
| AuthProperties.SuffixNeedsNoSlash | auth/token.go:46-51 | every URL ending in "xoauth2/token" is accepted |
| Client.Stamp | client/client.go:41-42 | the header gains exactly the Bearer credential and `X-Fragment-Client: go-client`, every other key unchanged |
| Client.RenewalKeepsParams | client/client.go:34 | binding a new token keeps the parameters and makes the new token the one found |
| Client.Renewed | client/client.go:26-36 | the parameters survive, a token is always present, and a failure leaves the context unchanged |
| Client.Dispatch | client/client.go:25-44 | the parameters survive a call and a token is always present afterwards |
| Client.DispatchIntended | client/client.go:25-44 | as `Dispatch`, for the repaired `Do` |
| Client.HttpClient.constructor | client/client.go:18-23 | the new client holds the given context |
| Client.HttpClient.Renew | client/client.go:28-36 | the context, the log of sent requests and the error are those of `Renewed`; a ready client stays ready |
| Client.HttpClient.Do | client/client.go:25-44 | the client's context, the sent requests, the request's header and the result are those of `Dispatch`; the request keeps its own context; a ready client stays ready |
| Client.HttpClient.DoIntended | client/client.go:25-44 | the same for `DispatchIntended` |
| Client.Attach | client/client.go:38-40 | as the repaired `Do` means it: a request that carries only the background context is replaced by a copy within the client's context, sharing its header map; any other goes out as it is |
| Client.SendWithin | client/client.go:38-43 | as the repaired `Do` means it: the request goes out within the client's context when it carried only the background context, stamped with the given token; the caller's request keeps its context and ends up with the stamped header |
| Client.StampAndSend | client/client.go:41-43 | the header is stamped in place and the stamped request is what the network receives |
| Client.Connect | client/client.go:46-60 | fails with the params-not-found error and sends nothing without parameters; sends nothing and keeps the context when a token is there; otherwise fetches one and binds it; a client made holds a token and the parameters and targets the API URL |
| Client.NewClient | client/client.go:46-60 | the requests sent and the result are those of `Connect`; the client wraps the resulting context and is ready for `Do` |
| ClientProperties.NoRenewalUntilExpiry | client/client.go:28 | while the clock is not after the expiry nothing is fetched and the context stays |
| ClientProperties.RenewalAfterExpiry | client/client.go:28-35 | once the clock is after the expiry exactly the requests of `GetToken` go out; a failure is passed on with the context untouched; a success binds the new token and keeps the parameters |
| ClientProperties.DispatchBeforeExpiry | client/client.go:26-43 | a call with a good token sends only the request, stamped with that token, and keeps the context |
| ClientProperties.DispatchAfterFailedRenewal | client/client.go:29-32 | a failed renewal is the call's error; only the token request went out and the request header is untouched |
| ClientProperties.DispatchAfterRenewal | client/client.go:29-43 | after a renewal the context holds the new token and the same parameters; the token request and then the request go out, the latter with the token read on entry |
| ClientProperties.DispatchRenewsOnlyAfterExpiry | client/client.go:26-42 | the context changes only when the token had expired; the Bearer credential is always the token read on entry |
| ClientProperties.RenewedTokenCoversNow | client/client.go:28-34 | a renewed token with a lifetime of at least the skew and an expiry below the wrap-around band is good at the instant it was fetched, so a second call then fetches nothing |
| ClientProperties.FarExpiryRenewsEveryCall | client/client.go:28-31 | a token whose expiry lies in the wrap-around band of `time.Unix` is fetched again at every call from year 1 up to the band |
| ClientProperties.StaleBearerAfterRenewal | client/client.go:29-41 | with the token "access_token" expired at 0, a call at 1 and an answer of "new_access_token" for 3600 s, the context holds the new token until 3481 but the request carries "Bearer access_token" |
| ClientProperties.ClientContextNeverAttached | client/client.go:38-40 | a request with only the background context goes out under it, never under the client's context |
| ClientProperties.IntendedBearerIsCurrentToken | client/client.go:41 | the repaired `Do` sends the token the client holds after the call |
| ClientProperties.IntendedAttachesClientContext | client/client.go:38-40 | the repaired `Do` sends a request without a context of its own within the client's context |
| ClientProperties.IntendedAgreesOnRenewal | client/client.go:26-36 | the repair leaves the client's context unchanged from `Do` as written, and a failed renewal ends both alike |
| ClientProperties.IntendedAgreesOnTokenRequests | client/client.go:26-36 | when the call goes through, both versions send the same token requests and then one request |
| ClientProperties.ConnectWithTokenSendsNothing | client/client.go:51-59 | a context from `GetAuthenticatedContextWithToken` is used as it is and nothing is sent |
| ClientProperties.ConnectFetchesMissingToken | client/client.go:51-58 | a context with parameters but no token gets exactly one token request, and a client made from it is ready |

## Left out

- The HTTP exchange and the JSON decoding are an oracle. The network is given the requests sent before, and its answer is either a transport error or a response with a status and a body. The body is given as `encoding/json` would read it: the two fields, or a decoding error. The error of `io.ReadAll`, which the code ignores, is part of that oracle.
- Auth.GetToken: does not model the error `http.NewRequest` returns for an auth URL it cannot parse (auth/token.go:100-103). The grammar of `net/url` is not part of this model, so building the request always succeeds.
- The form body is the key/value map of `url.Values`. Its percent-encoded text is not modelled.
- Header keys are used as written, with no MIME canonicalisation. Every key the code sets is already canonical.
- Client.Renewed: time is whole Unix seconds passed in as `now`, and `Do` reads the clock once; `GetToken` is given the same instant. Sub-second precision of `time.Time` is not modelled: `time.Now()` carries nanoseconds, so during the expiry second itself Go renews unless the clock reads exactly the whole second, where the model keeps the token. A clock past the start of the wrap-around band, which `time.Now()` cannot reach, is compared as `time.Unix` would store it.
- Client.HttpClient.Do: requires a token in the context, and parameters when the token has expired. The code panics otherwise, through the single-result type assertions at client/client.go:26 and 31, and panics are not modelled. A nil `*Token` or `*GetTokenParams` stored in a context is not modelled either.
- Client.HttpClient.Do: every request has a header map. A request written as a literal without `Header` has a nil `http.Header`, and `req.Header.Set` at client/client.go:41 then panics, after a renewal at line 34 may already have replaced the client's context. Such requests are not modelled; the tests build theirs with `Header: http.Header{}` (client/client_test.go:77 and 95).
- Auth.GetAuthenticatedContext: the parameters are never nil. A nil `*GetTokenParams` makes `IsValid` panic at auth/token.go:47, and panics are not modelled.
- Tokens are values, where the code stores `*Token` pointers. Parameters are objects with constant fields, where the Go struct is mutable and `GetToken` receives a copy.
- Context keys are compared as strings. Go compares them by type and value, and every key this code uses is an untyped string constant.
- Error messages are not modelled. Each error is a constructor of `Auth.Error`.
- `graphql.NewClient` is outside this model. `NewClient` returns the endpoint and the `HttpClient` it would be given.
- A request and its `WithContext` copy share one header map in Go. The repaired `Do` reproduces this by copying the stamped header back to the caller's request.
- Cancellation, deadlines and concurrent use of one client are not modelled.
- auth/interface.go, auth/mocks.go, main.go and example/main.go are not part of this model.

## Findings

| source | as written | input that shows it | evidently intended | confidence | as-written member | corrected member |
|---|---|---|---|---|---|---|
| client/client.go:29-41 | `token, err :=` inside the `if` declares a second `token`, which goes out of scope at line 35; line 41 reads the token from line 26 | the stored token "access_token" expired at 0, a call at 1, and the endpoint answers "new_access_token" for 3600 s: the context holds the new token but the request goes out as "Bearer access_token" | the request carries the token just fetched | high; not executed | ClientProperties.StaleBearerAfterRenewal | ClientProperties.IntendedBearerIsCurrentToken |
| client/client.go:38-40 | `req.Context() == nil` never holds, because `Request.Context` returns the background context when none was set | any request, for example one from `http.NewRequest` with no context: it goes out without the client's context | a request without a context of its own is sent within the client's context | high; not executed | ClientProperties.ClientContextNeverAttached | ClientProperties.IntendedAttachesClientContext |

`Client.Dispatch` and `Client.HttpClient.Do` model `Do` as written.
`Client.DispatchIntended` and `Client.HttpClient.DoIntended` model it with
both findings repaired.
