/** The request layer: every call goes to one fixed origin, carries JSON
    headers and, when asked for, the stored bearer token; a reply whose
    `ok` flag is unset becomes a single error whose message comes from the reply body or,
    failing that, from the status code. The network exchange itself is a
    parameter: `reply` is what the server (or the transport) answered. */
module Fetcher {
  import opened Wrappers
  import opened Js
  import opened Storage
  import Auth

  const BaseUrl: string := "http://127.0.0.1:2323"

  /** The key fetcher.js reads the token from; it has its own copy. */
  const TokenKey: string := "token"

  const ContentType: string := "Content-Type"
  const JsonMime: string := "application/json"
  const Authorization: string := "Authorization"
  const BearerPrefix: string := "Bearer "
  const ErrorPrefix: string := "API Error: "

  /** The defaults of `createHeaders`, `apiGet` and `apiPost`: requests are
      authenticated unless the caller says otherwise, and a POST without
      data sends the empty object. */
  const DefaultIncludeAuth: bool := true
  const DefaultPostBody: string := "{}"

  /** The request URL is the base origin followed by the endpoint path,
      nothing inserted between them. */
  function RequestUrl(endpoint: string): (url: string)
    ensures |url| == |BaseUrl| + |endpoint|
    ensures url[..|BaseUrl|] == BaseUrl && url[|BaseUrl|..] == endpoint
  {
    BaseUrl + endpoint
  }

  /** The headers a request carries for a given store and `includeAuth`. */
  function HeadersFor(m: map<string, string>, includeAuth: bool): (h: map<string, string>)
    ensures ContentType in h && h[ContentType] == JsonMime
    ensures Authorization in h <==> includeAuth && Truthy(Lookup(m, TokenKey))
    ensures Authorization in h ==> h[Authorization] == BearerPrefix + m[TokenKey]
    ensures h.Keys <= {ContentType, Authorization}
  {
    var base := map[ContentType := JsonMime];
    if includeAuth && Truthy(Lookup(m, TokenKey)) then base[Authorization := BearerPrefix + m[TokenKey]]
    else base
  }

  method GetToken(store: LocalStorage) returns (token: Option<string>)
    ensures token == Lookup(store.items, TokenKey)
  {
    token := store.GetItem(TokenKey);
  }

  /** Builds the header object step by step, as fetcher.js does. */
  method CreateHeaders(store: LocalStorage, includeAuth: bool := DefaultIncludeAuth) returns (headers: map<string, string>)
    ensures headers == HeadersFor(store.items, includeAuth)
  {
    headers := map[ContentType := JsonMime];
    if includeAuth {
      var token := GetToken(store);
      if Truthy(token) {
        headers := headers[Authorization := BearerPrefix + token.value];
      }
    }
  }

  /** What `response.json()` makes of a reply body: it fails to parse, it
      is the JSON literal `null`, or it is some other value, of which only
      the string-valued fields matter here (a number, string or array has
      none). */
  datatype Body = Unparseable | Null | Value(fields: map<string, string>)

  /** The outcome of one `fetch`: the transport failed, or a reply came
      back with its `ok` flag, status code and body. */
  datatype Exchange = NetworkFailure | Answered(ok: bool, status: nat, body: Body)

  /** What an `apiGet`/`apiPost` call resolves or rejects with. */
  datatype Outcome =
    | Done(payload: Body)        // resolves with the parsed body
    | Failed(message: string)    // rejects with `new Error(message)`
    | TransportError             // the rejection of `fetch` itself, passed on
    | PayloadError               // `response.json()` rejects on a 2xx reply
    | NullBodyError              // reading `.message` of a `null` error body throws

  datatype Method = Get | Post

  /** The request handed to `fetch`; `body` is the already serialised
      payload of a POST. */
  datatype Request = Request(verb: Method, url: string, headers: map<string, string>, body: Option<string>)

  /** The error object a failed reply yields: its parsed body, or `{}` when
      the body does not parse. */
  function ErrorFields(body: Body): map<string, string>
    requires !body.Null?
  {
    if body.Value? then body.fields else map[]
  }

  /** `error.message || 'API Error: ' + status`. */
  function FailureMessage(status: nat, error: map<string, string>): (msg: string)
    ensures Truthy(Lookup(error, "message")) ==> msg == error["message"]
    ensures !Truthy(Lookup(error, "message")) ==> msg == ErrorPrefix + DecimalText(status)
  {
    if Truthy(Lookup(error, "message")) then error["message"] else ErrorPrefix + DecimalText(status)
  }

  /** How a call settles, shared by GET and POST. */
  function Settle(reply: Exchange): (o: Outcome)
    ensures reply.NetworkFailure? <==> o.TransportError?
    ensures o.Done? <==> reply.Answered? && reply.ok && !reply.body.Unparseable?
    ensures o.Done? ==> o.payload == reply.body
    ensures o.PayloadError? <==> reply.Answered? && reply.ok && reply.body.Unparseable?
    ensures o.NullBodyError? <==> reply.Answered? && !reply.ok && reply.body.Null?
    ensures o.Failed? <==> reply.Answered? && !reply.ok && !reply.body.Null?
    ensures o.Failed? ==> o.message == FailureMessage(reply.status, ErrorFields(reply.body))
  {
    match reply
    case NetworkFailure => TransportError
    case Answered(ok, status, body) =>
      if ok then (if body.Unparseable? then PayloadError else Done(body))
      else if body.Null? then NullBodyError
      else Failed(FailureMessage(status, ErrorFields(body)))
  }

  method ApiGet(store: LocalStorage, reply: Exchange, endpoint: string, includeAuth: bool := DefaultIncludeAuth)
    returns (request: Request, outcome: Outcome)
    ensures request == Request(Get, RequestUrl(endpoint), HeadersFor(store.items, includeAuth), None)
    ensures outcome == Settle(reply)
  {
    var headers := CreateHeaders(store, includeAuth);
    request := Request(Get, BaseUrl + endpoint, headers, None);
    outcome := Settle(reply);
  }

  /** `serialised` stands for `JSON.stringify(data)`. */
  method ApiPost(store: LocalStorage, reply: Exchange, endpoint: string,
                 serialised: string := DefaultPostBody, includeAuth: bool := DefaultIncludeAuth)
    returns (request: Request, outcome: Outcome)
    ensures request == Request(Post, RequestUrl(endpoint), HeadersFor(store.items, includeAuth), Some(serialised))
    ensures outcome == Settle(reply)
  {
    var headers := CreateHeaders(store, includeAuth);
    request := Request(Post, BaseUrl + endpoint, headers, Some(serialised));
    outcome := Settle(reply);
  }

  /** What a caller gets by leaving the optional arguments out, as most of
      the API wrappers do: the stored token is sent when there is one, and
      a POST without data carries `{}`. */
  method DefaultCallsAreAuthenticated(store: LocalStorage, reply: Exchange, endpoint: string)
    returns (get: Request, post: Request)
    ensures get.verb == Get && post.verb == Post
    ensures get.headers == post.headers == HeadersFor(store.items, true)
    ensures Truthy(Lookup(store.items, TokenKey)) ==> get.headers[Authorization] == BearerPrefix + store.items[TokenKey]
    ensures post.body == Some("{}")
  {
    var outcome;
    get, outcome := ApiGet(store, reply, endpoint);
    post, outcome := ApiPost(store, reply, endpoint);
  }

  /** The fallback message names the status code unambiguously: the text
      after "API Error: " reads back as the status. */
  lemma FallbackNamesStatus(status: nat, error: map<string, string>)
    requires !Truthy(Lookup(error, "message"))
    ensures |FailureMessage(status, error)| > |ErrorPrefix|
    ensures FailureMessage(status, error)[..|ErrorPrefix|] == ErrorPrefix
    ensures var digits := FailureMessage(status, error)[|ErrorPrefix|..];
            (forall k :: 0 <= k < |digits| ==> IsDigit(digits[k])) && DecimalValue(digits) == status
  {
    var msg := FailureMessage(status, error);
    assert msg[|ErrorPrefix|..] == DecimalText(status);
    DecimalRoundTrip(status);
  }

  /** A 404 whose body is `{"message":"not found"}` rejects with exactly
      "not found"; the same 404 with a body that is not JSON rejects with
      "API Error: 404". */
  lemma NotFoundScenario()
    ensures Settle(Answered(false, 404, Value(map["message" := "not found"]))) == Failed("not found")
    ensures Settle(Answered(false, 404, Unparseable)) == Failed("API Error: 404")
  {
    assert DecimalText(4) == "4";
    assert DecimalText(40) == "40";
    assert DecimalText(404) == "404";
  }

  /** An empty `message` is falsy, so it falls back to the status text, as
      a missing one does. */
  lemma EmptyMessageFallsBack(status: nat, error: map<string, string>)
    requires "message" in error && error["message"] == ""
    ensures FailureMessage(status, error) == FailureMessage(status, error - {"message"})
  {
  }

  /** auth.js and fetcher.js agree on the key: once `setToken(t)` stored a
      non-empty `t`, every authenticated request carries `Bearer t`; after
      `removeToken()` none carries an Authorization header. */
  lemma HeadersFollowSession(m: map<string, string>, t: string)
    ensures t != "" ==>
      var h := HeadersFor(m[Auth.TokenKey := t], true);
      Authorization in h && h[Authorization] == BearerPrefix + t
    ensures Authorization !in HeadersFor(m - {Auth.TokenKey}, true)
  {
  }

  /** Without `includeAuth` no Authorization header is sent, whatever is
      stored. */
  lemma NoAuthWithoutIncludeAuth(m: map<string, string>, m': map<string, string>)
    ensures HeadersFor(m, false) == HeadersFor(m', false) == map[ContentType := JsonMime]
  {
  }
}
