/**
 * The shared HTTP client: its default headers, the request interceptor that
 * attaches the bearer token, the response interceptor that ends the
 * session on a 401 reply, and the generic resource helpers (`api.get`,
 * `api.getOne`, ...), each of which fixes an HTTP method and a URL and
 * resolves to the reply's body.
 *
 * The network is not modelled: the transport's answer to a request is a
 * parameter of `Send`.
 */
module Http {
  import opened Wrappers
  import opened Multipart
  import Decimal
  import Auth

  datatype Method = GET | POST | PUT | PATCH | DELETE

  /** A serialised request or response body, opaque to the client. */
  datatype Payload = Payload(json: string)

  datatype Body = NoBody | Json(data: Payload) | Form(fields: seq<Field>)

  type Headers = map<string, string>

  datatype Request = Request(verb: Method, url: string, headers: Headers, body: Body)

  datatype Response = Response(status: int, data: Payload)

  /** A failed request; `response` is absent when no reply arrived at all. */
  datatype HttpError = HttpError(response: Option<Response>)

  /** What the transport hands to the response interceptor. */
  datatype Outcome = Fulfilled(response: Response) | Rejected(error: HttpError)

  const ContentType: string := "Content-Type"
  const Authorization: string := "Authorization"
  const JsonType: string := "application/json"
  const MultipartType: string := "multipart/form-data"
  const LoginPath: string := "/login"

  /** The headers every request starts from. */
  const DefaultHeaders: Headers := map[ContentType := JsonType]

  /** The headers of a request whose body is a multipart payload. */
  function MultipartHeaders(): (h: Headers)
    ensures h.Keys == DefaultHeaders.Keys && h[ContentType] == MultipartType
  {
    DefaultHeaders[ContentType := MultipartType]
  }

  /** A record id, a number or a text. */
  datatype Id = NumId(n: int) | TextId(text: string)

  /** The text a template literal gives for an id. */
  function IdText(id: Id): string {
    match id
    case NumId(n) => Decimal.IntToString(n)
    case TextId(t) => t
  }

  /** The URL of one record under a collection URL: `url/id`. */
  function ItemUrl(url: string, id: Id): (r: string)
    ensures |r| == |url| + 1 + |IdText(id)|
    ensures r[..|url|] == url && r[|url|] == '/' && r[|url| + 1..] == IdText(id)
  {
    url + "/" + IdText(id)
  }

  /** Two item URLs under one collection coincide exactly when the ids render alike. */
  lemma ItemUrlInjective(url: string, a: Id, b: Id)
    ensures ItemUrl(url, a) == ItemUrl(url, b) <==> IdText(a) == IdText(b)
  {
    if ItemUrl(url, a) == ItemUrl(url, b) {
      assert IdText(a) == ItemUrl(url, a)[|url| + 1..];
    }
  }

  /** Numeric ids render to distinct URLs. */
  lemma NumericIdsDistinct(url: string, m: int, n: int)
    ensures ItemUrl(url, NumId(m)) == ItemUrl(url, NumId(n)) <==> m == n
  {
    ItemUrlInjective(url, NumId(m), NumId(n));
    Decimal.IntToStringInjective(m, n);
  }

  /** A call of one of the generic helpers of `api`. */
  datatype Call =
    | Get(url: string)
    | GetList(url: string)
    | GetOne(url: string, id: Id)
    | Create(url: string, data: Payload)
    | Update(url: string, id: Id, data: Payload)
    | Remove(url: string, id: Id)
    | Upload(url: string, fields: seq<Field>)

  /** The helpers that address one record by id. */
  predicate TargetsItem(c: Call) {
    c.GetOne? || c.Update? || c.Remove?
  }

  /** The request a helper hands to the client, before the interceptor runs. */
  function RequestOf(c: Call): (r: Request)
    ensures r.url == if TargetsItem(c) then ItemUrl(c.url, c.id) else c.url
    ensures r.verb == GET <==> c.Get? || c.GetList? || c.GetOne?
    ensures r.verb == POST <==> c.Create? || c.Upload?
    ensures r.verb == PUT <==> c.Update?
    ensures r.verb == DELETE <==> c.Remove?
    ensures r.verb != PATCH
    ensures r.headers.Keys == {ContentType}
    ensures r.headers[ContentType] == if c.Upload? then MultipartType else JsonType
    ensures r.body == match c
      case Create(_, d) => Json(d)
      case Update(_, _, d) => Json(d)
      case Upload(_, f) => Form(f)
      case _ => NoBody
  {
    match c
    case Get(url) => Request(GET, url, DefaultHeaders, NoBody)
    case GetList(url) => Request(GET, url, DefaultHeaders, NoBody)
    case GetOne(url, id) => Request(GET, ItemUrl(url, id), DefaultHeaders, NoBody)
    case Create(url, data) => Request(POST, url, DefaultHeaders, Json(data))
    case Update(url, id, data) => Request(PUT, ItemUrl(url, id), DefaultHeaders, Json(data))
    case Remove(url, id) => Request(DELETE, ItemUrl(url, id), DefaultHeaders, NoBody)
    case Upload(url, fields) => Request(POST, url, MultipartHeaders(), Form(fields))
  }

  /** The token test of the request interceptor: present and not empty. */
  predicate Truthy(token: Option<string>) {
    token.Some? && token.value != ""
  }

  /** The request after the request interceptor has seen it with the current token. */
  function Authorize(r: Request, token: Option<string>): (a: Request)
    ensures a.verb == r.verb && a.url == r.url && a.body == r.body
    ensures Truthy(token) ==> Authorization in a.headers && a.headers[Authorization] == "Bearer " + token.value
    ensures !Truthy(token) ==> a == r
    ensures forall k :: k != Authorization ==>
      (k in a.headers <==> k in r.headers) && (k in r.headers ==> a.headers[k] == r.headers[k])
  {
    if Truthy(token) then r.(headers := r.headers[Authorization := "Bearer " + token.value]) else r
  }

  /** A helper's request carries an `Authorization` header exactly when there is a token. */
  lemma AuthorizationIffToken(c: Call, token: Option<string>)
    ensures Authorization in Authorize(RequestOf(c), token).headers <==> Truthy(token)
  {
  }

  /** The body a helper resolves to: the reply's `data`, or the error unchanged. */
  function Unwrap(o: Outcome): (r: Result<Payload, HttpError>)
    ensures r.Ok? <==> o.Fulfilled?
    ensures r.Ok? ==> r.value == o.response.data
    ensures r.Err? ==> r.error == o.error
  {
    match o
    case Fulfilled(resp) => Ok(resp.data)
    case Rejected(e) => Err(e)
  }

  /** An error with a reply whose status is 401. */
  predicate IsUnauthorized(o: Outcome) {
    o.Rejected? && o.error.response.Some? && o.error.response.value.status == 401
  }

  /** The mutable request configuration the interceptor receives. */
  class RequestConfig {
    var verb: Method
    var url: string
    var headers: Headers
    var body: Body

    function Snapshot(): Request
      reads this
    {
      Request(verb, url, headers, body)
    }

    constructor (r: Request)
      ensures Snapshot() == r
    {
      verb, url, headers, body := r.verb, r.url, r.headers, r.body;
    }
  }

  /** The browser's location; only the navigation target is recorded. */
  class Location {
    var href: string

    constructor (href: string)
      ensures this.href == href
    {
      this.href := href;
    }
  }

  /** The request interceptor: sets the bearer header in place when the store holds a token. */
  method InterceptRequest(store: Auth.AuthStore, config: RequestConfig) returns (out: RequestConfig)
    modifies config
    ensures out == config
    ensures config.Snapshot() == Authorize(old(config.Snapshot()), store.token)
  {
    var token := store.token;
    if token.Some? && token.value != "" {
      config.headers := config.headers[Authorization := "Bearer " + token.value];
    }
    out := config;
  }

  /**
   * The response interceptor: a reply passes through; an error is passed on
   * as it is, after logging out and navigating to the login page when its
   * status is 401.
   */
  method InterceptResponse(store: Auth.AuthStore, location: Location, o: Outcome) returns (out: Outcome)
    requires store.Valid()
    modifies store, location
    ensures out == o
    ensures store.Valid()
    ensures IsUnauthorized(o) ==>
      store.Snapshot() == Auth.LoggedOut(old(store.Snapshot())) && location.href == LoginPath
    ensures !IsUnauthorized(o) ==>
      store.Snapshot() == old(store.Snapshot()) && location.href == old(location.href)
  {
    if o.Rejected? {
      var e := o.error;
      if e.response.Some? && e.response.value.status == 401 {
        store.Logout();
        location.href := LoginPath;
      }
    }
    out := o;
  }

  /**
   * One helper call end to end: build the request, run the request
   * interceptor, hand the transport's `reply` to the response interceptor
   * and unwrap the body.
   */
  method Send(store: Auth.AuthStore, location: Location, c: Call, reply: Outcome)
    returns (sent: Request, result: Result<Payload, HttpError>)
    requires store.Valid()
    modifies store, location
    ensures sent == Authorize(RequestOf(c), old(store.token))
    ensures Authorization in sent.headers <==> old(Auth.StateOf(store.Snapshot())) == Auth.Authenticated
    ensures result == Unwrap(reply)
    ensures store.Valid()
    ensures IsUnauthorized(reply) ==>
      Auth.StateOf(store.Snapshot()) == Auth.Anonymous &&
      store.Snapshot() == Auth.LoggedOut(old(store.Snapshot())) && location.href == LoginPath
    ensures !IsUnauthorized(reply) ==>
      store.Snapshot() == old(store.Snapshot()) && location.href == old(location.href)
  {
    var config := new RequestConfig(RequestOf(c));
    config := InterceptRequest(store, config);
    sent := config.Snapshot();
    AuthorizationIffToken(c, store.token);
    var o := InterceptResponse(store, location, reply);
    result := Unwrap(o);
    if IsUnauthorized(reply) {
      Auth.LogoutClears(old(store.Snapshot()));
    }
  }
}
