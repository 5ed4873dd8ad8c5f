/**
 * CampactUserService::Client: the connection settings it derives from its
 * options, the request it builds for `get_request`, and how it turns the
 * response into a result. The transport, JSON.parse and the one-time
 * password are black boxes handed to the client as functions.
 */
module HttpClient {
  import opened Ruby
  import opened Text

  /** Client::TIMEOUT: both the read and the connect timeout, in seconds. */
  const Timeout := 5

  /** The adapter Faraday uses when none is configured (Faraday.default_adapter). */
  const DefaultAdapter: Value := Str("net_http")

  /** default_faraday_options: TLS verification on and three default headers. */
  const DefaultFaradayOptions: map<string, Value> := map[
    "ssl" := Hash([("verify", Bool(true))]),
    "headers" := Hash([
      ("Accept", Str("application/json;q=0.1")),
      ("Accept-Charset", Str("utf-8")),
      ("User-Agent", Str("campact_user_service_api"))])]

  /**
   * The options hash given to Client.new; None stands for a key that is
   * absent (for `faraday`, absent or nil). A port is kept as the text it
   * interpolates to.
   */
  datatype ClientOptions = ClientOptions(
    scheme: Option<string>,
    host: Option<string>,
    port: Option<string>,
    faraday: Option<map<string, Value>>)

  /** The arguments that Client.new hands to Faraday.new. */
  datatype Connection = Connection(url: string, options: map<string, Value>, adapter: Value)

  /** The `:cookies` option: a raw String, a Hash, or anything else. */
  datatype Cookies =
    | CookieString(text: string)
    | CookieHash(pairs: seq<(string, string)>)
    | CookieOther

  /** The `:topt_authorization` hash; None stands for a missing key. */
  datatype TotpOptions = TotpOptions(user: Option<string>, secret: Option<string>)

  /**
   * The per-call options of get_request. `cookies` is None when the key is
   * absent; `toptAuthorization` is None when the key is absent or falsy.
   */
  datatype CallOptions = CallOptions(cookies: Option<Cookies>, toptAuthorization: Option<TotpOptions>)

  /**
   * What get_request writes on Faraday's request builder: the path, both
   * timeouts and the headers it sets (a header set to nil holds None).
   */
  datatype Request = Request(path: string, timeout: int, openTimeout: int, headers: map<string, Option<string>>)

  /** What the transport gives back. */
  datatype Response = Response(status: int, body: string)

  /* ---------- connection settings (Client#initialize, #endpoint) ---------- */

  /** `options.fetch(:scheme, 'https')`. */
  function SchemeOf(options: ClientOptions): string {
    if options.scheme.Some? then options.scheme.value else "https"
  }

  /** `options.delete(:faraday) || {}`. */
  function GivenFaradayOptions(faraday: Option<map<string, Value>>): map<string, Value> {
    if faraday.Some? then faraday.value else map[]
  }

  /**
   * The options Faraday.new receives: a shallow merge of the caller's
   * options over the defaults, with `:adapter` taken out.
   */
  function ConnectionOptions(faraday: Option<map<string, Value>>): (r: map<string, Value>)
    ensures "adapter" !in r
    ensures r.Keys == (DefaultFaradayOptions.Keys + GivenFaradayOptions(faraday).Keys) - {"adapter"}
    ensures forall k :: k in GivenFaradayOptions(faraday) && k != "adapter" ==>
      r[k] == GivenFaradayOptions(faraday)[k]
    ensures forall k :: k in DefaultFaradayOptions && k !in GivenFaradayOptions(faraday) ==>
      r[k] == DefaultFaradayOptions[k]
  {
    (DefaultFaradayOptions + GivenFaradayOptions(faraday)) - {"adapter"}
  }

  /** `faraday_options.delete(:adapter) || Faraday.default_adapter`. */
  function AdapterFor(faraday: Option<map<string, Value>>): (a: Value)
    ensures Truthy(a)
    ensures var given := GivenFaradayOptions(faraday);
      a == if "adapter" in given && Truthy(given["adapter"]) then given["adapter"] else DefaultAdapter
  {
    var merged := DefaultFaradayOptions + GivenFaradayOptions(faraday);
    if "adapter" in merged && Truthy(merged["adapter"]) then merged["adapter"] else DefaultAdapter
  }

  /** The base URL: `scheme://host`, then `:port` when a port is given. */
  function BaseUrl(scheme: string, host: string, port: Option<string>): string {
    scheme + "://" + host + (if port.Some? then ":" + port.value else "")
  }

  /** Reading a base URL back into scheme, host and optional port. */
  function ParseBaseUrl(url: string): Option<(string, string, Option<string>)> {
    match SplitAt(url, ':')
    case None => None
    case Some((scheme, rest)) =>
      if |rest| < 2 || rest[..2] != "//" then None
      else match SplitAt(rest[2..], ':')
        case None => Some((scheme, rest[2..], None))
        case Some((host, port)) => Some((scheme, host, Some(port)))
  }

  /**
   * Distinct settings give distinct base URLs: scheme, host and port can be
   * read back, provided neither scheme nor host contains a colon.
   */
  lemma BaseUrlRoundTrip(scheme: string, host: string, port: Option<string>)
    requires ':' !in scheme && ':' !in host
    ensures ParseBaseUrl(BaseUrl(scheme, host, port)) == Some((scheme, host, port))
  {
    var tail := "//" + host + (if port.Some? then ":" + port.value else "");
    assert BaseUrl(scheme, host, port) == scheme + [':'] + tail;
    SplitAtJoin(scheme, ':', tail);
    assert tail[..2] == "//";
    assert tail[2..] == host + (if port.Some? then ":" + port.value else "");
    if port.Some? {
      assert tail[2..] == host + [':'] + port.value;
      SplitAtJoin(host, ':', port.value);
    } else {
      assert tail[2..] == host;
    }
  }

  /**
   * Client#endpoint: starts from `scheme://host` and appends `:port` in
   * place when a port is given.
   */
  method Endpoint(scheme: string, host: string, port: Option<string>) returns (endpoint: string)
    ensures endpoint == BaseUrl(scheme, host, port)
    ensures ':' !in scheme && ':' !in host ==> ParseBaseUrl(endpoint) == Some((scheme, host, port))
  {
    endpoint := scheme + "://" + host;
    if port.Some? {
      endpoint := endpoint + ":" + port.value;
    }
    if ':' !in scheme && ':' !in host {
      BaseUrlRoundTrip(scheme, host, port);
    }
  }

  /* ---------- request headers (#format_cookies, #authorization) ---------- */

  /** One `k=v;` per pair, in order, with nothing between the pairs. */
  function CookiePairs(pairs: seq<(string, string)>): string {
    if pairs == [] then "" else pairs[0].0 + "=" + pairs[0].1 + ";" + CookiePairs(pairs[1..])
  }

  /**
   * Client#format_cookies: a String passes through, a Hash is serialised
   * pair by pair, anything else gives nil.
   */
  function FormatCookies(cookies: Cookies): (r: Option<string>)
    ensures cookies.CookieString? ==> r == Some(cookies.text)
    ensures cookies.CookieHash? ==> r.Some?
    ensures cookies.CookieHash? && PlainCookies(cookies.pairs) ==> ParseCookiePairs(r.value) == Some(cookies.pairs)
    ensures cookies.CookieOther? ==> r == None
  {
    match cookies
    case CookieString(text) => Some(text)
    case CookieHash(pairs) =>
      if PlainCookies(pairs) then CookiePairsRoundTrip(pairs); Some(CookiePairs(pairs))
      else Some(CookiePairs(pairs))
    case CookieOther => None
  }

  /** Serialising a Hash is concatenation: the pairs appear in iteration order. */
  lemma {:induction false} CookiePairsAppend(a: seq<(string, string)>, b: seq<(string, string)>)
    ensures CookiePairs(a + b) == CookiePairs(a) + CookiePairs(b)
  {
    if a == [] {
      assert a + b == b;
    } else {
      assert (a + b)[0] == a[0] && (a + b)[1..] == a[1..] + b;
      CookiePairsAppend(a[1..], b);
    }
  }

  /** Reading a Cookie header back into its pairs. */
  function ParseCookiePairs(header: string): Option<seq<(string, string)>>
    decreases |header|
  {
    if header == [] then Some([])
    else match SplitAt(header, '=')
      case None => None
      case Some((name, rest)) =>
        match SplitAt(rest, ';')
        case None => None
        case Some((value, tail)) =>
          match ParseCookiePairs(tail)
          case None => None
          case Some(more) => Some([(name, value)] + more)
  }

  /** Names without `=` and values without `;`: what a cookie header can carry unambiguously. */
  predicate PlainCookies(pairs: seq<(string, string)>) {
    forall k :: 0 <= k < |pairs| ==> '=' !in pairs[k].0 && ';' !in pairs[k].1
  }

  /** The serialised Hash determines the pairs it came from. */
  lemma {:induction false} CookiePairsRoundTrip(pairs: seq<(string, string)>)
    requires PlainCookies(pairs)
    ensures ParseCookiePairs(CookiePairs(pairs)) == Some(pairs)
  {
    if pairs != [] {
      var (name, value) := pairs[0];
      var tail := CookiePairs(pairs[1..]);
      var rest := value + ";" + tail;
      assert CookiePairs(pairs) == name + ['='] + rest;
      SplitAtJoin(name, '=', rest);
      assert rest == value + [';'] + tail;
      SplitAtJoin(value, ';', tail);
      CookiePairsRoundTrip(pairs[1..]);
      assert [(name, value)] + pairs[1..] == pairs;
    }
  }

  /**
   * Client#authorization: `Token <user>:<code>`, where the code is the
   * one-time password for the secret. `fetch` raises KeyError for a
   * missing `:user`, then for a missing `:secret`.
   */
  function Authorization(totp: TotpOptions, otp: string -> string): (r: Result<string>)
    ensures totp.user.None? ==> r == Err(KeyError("user"))
    ensures totp.user.Some? && totp.secret.None? ==> r == Err(KeyError("secret"))
    ensures r.Ok? <==> totp.user.Some? && totp.secret.Some?
    ensures r.Ok? ==> |r.value| > 6 && r.value[..6] == "Token "
    ensures r.Ok? && ':' !in totp.user.value ==>
      ParseAuthorization(r.value) == Some((totp.user.value, otp(totp.secret.value)))
  {
    if totp.user.None? then Err(KeyError("user"))
    else if totp.secret.None? then Err(KeyError("secret"))
    else
      var user, code := totp.user.value, otp(totp.secret.value);
      var token := user + ":" + code;
      AuthorizationRoundTrip(user, code);
      Ok("Token " + token)
  }

  /** Reading an authorization header back into user and code. */
  function ParseAuthorization(header: string): Option<(string, string)> {
    if |header| >= 6 && header[..6] == "Token " then SplitAt(header[6..], ':') else None
  }

  lemma AuthorizationRoundTrip(user: string, code: string)
    ensures var header := "Token " + user + ":" + code;
      |header| > 6 && header[..6] == "Token " &&
      (':' !in user ==> ParseAuthorization(header) == Some((user, code)))
  {
    var header := "Token " + user + ":" + code;
    assert header[6..] == user + [':'] + code;
    if ':' !in user {
      SplitAtJoin(user, ':', code);
    }
  }

  /* ---------- get_request ---------- */

  /**
   * The request get_request builds: both timeouts at Timeout; a Cookie
   * header exactly when the `:cookies` key is given; an authorization
   * header exactly when `:topt_authorization` is truthy; nothing else.
   * A KeyError from the authorization options aborts before sending.
   */
  function PrepareRequest(path: string, options: CallOptions, otp: string -> string): (r: Result<Request>)
    ensures r.Err? <==>
      options.toptAuthorization.Some? && Authorization(options.toptAuthorization.value, otp).Err?
    ensures r.Err? ==> r.fault.KeyError?
    ensures r.Ok? ==> r.value.path == path && r.value.timeout == Timeout && r.value.openTimeout == Timeout
    ensures r.Ok? ==> r.value.headers.Keys <= {"Cookie", "authorization"}
    ensures r.Ok? ==> ("Cookie" in r.value.headers <==> options.cookies.Some?)
    ensures r.Ok? && options.cookies.Some? ==>
      r.value.headers["Cookie"] == FormatCookies(options.cookies.value)
    ensures r.Ok? ==> ("authorization" in r.value.headers <==> options.toptAuthorization.Some?)
    ensures r.Ok? && options.toptAuthorization.Some? ==>
      r.value.headers["authorization"] == Some(Authorization(options.toptAuthorization.value, otp).value)
  {
    var cookieHeader: map<string, Option<string>> :=
      if options.cookies.Some? then map["Cookie" := FormatCookies(options.cookies.value)] else map[];
    if options.toptAuthorization.None? then Ok(Request(path, Timeout, Timeout, cookieHeader))
    else match Authorization(options.toptAuthorization.value, otp)
      case Err(f) => Err(f)
      case Ok(header) => Ok(Request(path, Timeout, Timeout, cookieHeader["authorization" := Some(header)]))
  }

  /** The per-call options `cookies: {name => value}` that both views pass. */
  function CookieOptions(name: string, value: string): CallOptions {
    CallOptions(Some(CookieHash([(name, value)])), None)
  }

  /**
   * A request with one cookie Hash and no authorization carries exactly
   * the header `Cookie: <name>=<value>;` and cannot fail before it is sent.
   */
  lemma SingleCookieRequest(path: string, name: string, value: string, otp: string -> string)
    ensures PrepareRequest(path, CookieOptions(name, value), otp)
      == Ok(Request(path, Timeout, Timeout, map["Cookie" := Some(name + "=" + value + ";")]))
  {
    var pairs := [(name, value)];
    assert pairs[1..] == [];
    assert CookiePairs(pairs) == name + "=" + value + ";";
    assert FormatCookies(CookieHash(pairs)) == Some(name + "=" + value + ";");
  }

  /**
   * The result of get_request for a response: the parsed body for status
   * 200 (JSON.parse may raise), nil for every other status; no status
   * raises by itself.
   */
  function Classify(response: Response, parse: string -> Option<Value>): (r: Result<Value>)
    ensures response.status != 200 ==> r == Ok(Nil)
    ensures response.status == 200 ==> (r.Ok? <==> parse(response.body).Some?)
    ensures response.status == 200 && r.Ok? ==> r.value == parse(response.body).value
    ensures r.Err? ==> r.fault == ParserError
  {
    if response.status == 200 then
      match parse(response.body)
      case Some(doc) => Ok(doc)
      case None => Err(ParserError)
    else Ok(Nil)
  }

  /** A status other than 200, including 204 and 404, gives nil and raises nothing. */
  lemma NonSuccessIsNil(status: int, body: string, parse: string -> Option<Value>)
    requires status != 200
    ensures Classify(Response(status, body), parse) == Ok(Nil)
    ensures !Truthy(Classify(Response(status, body), parse).value)
  {
  }

  /**
   * A client: the settings it was built with, the transport (the remote
   * service as a function of the request), JSON.parse, and the one-time
   * password generator at the moment of the call. `sent` records every
   * request handed to the transport.
   */
  class Client {
    const scheme: string
    const host: string
    const port: Option<string>
    const connection: Connection
    const server: Request -> Response
    const parse: string -> Option<Value>
    const otp: string -> string
    ghost var sent: seq<Request>

    constructor (scheme: string, host: string, port: Option<string>, connection: Connection,
                 server: Request -> Response, parse: string -> Option<Value>, otp: string -> string)
      ensures this.scheme == scheme && this.host == host && this.port == port
      ensures this.connection == connection
      ensures this.server == server && this.parse == parse && this.otp == otp
      ensures sent == []
    {
      this.scheme := scheme;
      this.host := host;
      this.port := port;
      this.connection := connection;
      this.server := server;
      this.parse := parse;
      this.otp := otp;
      sent := [];
    }

    /**
     * Client#get_request: fills in the request builder step by step,
     * sends the request once, and classifies the response.
     */
    method GetRequest(path: string, options: CallOptions) returns (r: Result<Value>)
      modifies this
      ensures match PrepareRequest(path, options, otp)
        case Err(f) => r == Err(f) && sent == old(sent)
        case Ok(request) => sent == old(sent) + [request] && r == Classify(server(request), parse)
    {
      var url := path;
      var timeout := Timeout;
      var openTimeout := Timeout;
      var headers: map<string, Option<string>> := map[];
      if options.cookies.Some? {
        headers := headers["Cookie" := FormatCookies(options.cookies.value)];
      }
      if options.toptAuthorization.Some? {
        var authorization := Authorization(options.toptAuthorization.value, otp);
        if authorization.Err? {
          return Err(authorization.fault);
        }
        headers := headers["authorization" := Some(authorization.value)];
      }
      var request := Request(url, timeout, openTimeout, headers);
      sent := sent + [request];
      var response := server(request);
      if response.status == 200 {
        var doc := parse(response.body);
        r := if doc.Some? then Ok(doc.value) else Err(ParserError);
      } else {
        r := Ok(Nil);
      }
    }
  }

  /**
   * Client.new: defaults the scheme to https, raises KeyError without a
   * host, merges the Faraday options over the defaults, takes the adapter
   * out of them, and opens the connection on the endpoint.
   */
  method Connect(options: ClientOptions, server: Request -> Response,
                 parse: string -> Option<Value>, otp: string -> string)
    returns (r: Result<Client>)
    ensures r.Err? <==> options.host.None?
    ensures r.Err? ==> r.fault == KeyError("host")
    ensures r.Ok? ==> fresh(r.value) && r.value.sent == []
    ensures r.Ok? ==>
      && r.value.scheme == SchemeOf(options)
      && r.value.host == options.host.value
      && r.value.port == options.port
      && r.value.connection == Connection(
           BaseUrl(SchemeOf(options), options.host.value, options.port),
           ConnectionOptions(options.faraday),
           AdapterFor(options.faraday))
    ensures r.Ok? ==> r.value.server == server && r.value.parse == parse && r.value.otp == otp
  {
    var scheme := if options.scheme.Some? then options.scheme.value else "https";
    if options.host.None? {
      return Err(KeyError("host"));
    }
    var host := options.host.value;
    var port := options.port;
    var faradayOptions := DefaultFaradayOptions + (if options.faraday.Some? then options.faraday.value else map[]);
    var adapter := DefaultAdapter;
    if "adapter" in faradayOptions {
      if Truthy(faradayOptions["adapter"]) {
        adapter := faradayOptions["adapter"];
      }
      faradayOptions := faradayOptions - {"adapter"};
    }
    var endpoint := Endpoint(scheme, host, port);
    var client := new Client(scheme, host, port, Connection(endpoint, faradayOptions, adapter), server, parse, otp);
    r := Ok(client);
  }
}
