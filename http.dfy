/** The HTTP vocabulary the four client revisions share: hyper's `Request`, which
    `build_request` creates empty and then updates field by field; the foreign
    parsers the clients call; the answer the network gives; the `FetchError` kinds;
    and the decision between "decode the body" and "report the status". */
module Http {
  import opened Results

  newtype byte = x: int | 0 <= x < 256

  /** hyper's `StatusCode` holds a three-digit code. */
  type StatusCode = n: nat | 100 <= n <= 999 witness 200

  datatype Method = OPTIONS | GET | POST | PUT | DELETE | HEAD | TRACE | CONNECT | PATCH

  /** The authentication header every Riot API request carries. */
  const TokenHeader: string := "X-Riot-Token"

  /** The contents of a request, as a value. */
  datatype RequestView = RequestView(httpMethod: Method, uri: string, headers: map<string, string>, body: seq<byte>)

  /** The library code the clients call but that is not part of this model:
      `str::parse::<Uri>` succeeds on `uri` texts, and `HeaderValue::from_str`
      on `headerValue` texts. */
  datatype Parsers = Parsers(uri: string -> bool, headerValue: string -> bool)

  /** Why building a request failed. */
  datatype BuildError = InvalidUri | InvalidHeaderValue

  /** hyper's `Request<Body>`, with the three fields `build_request` writes through
      `method_mut`, `uri_mut` and `headers_mut`. */
  class Request {
    var httpMethod: Method
    var uri: string
    var headers: map<string, string>
    const body: seq<byte>

    /** `Request::new(body)`: a GET of `/` with no headers. */
    constructor (body: seq<byte>)
      ensures httpMethod == GET && uri == "/" && headers == map[] && this.body == body
    {
      this.httpMethod := GET;
      this.uri := "/";
      this.headers := map[];
      this.body := body;
    }

    function View(): (v: RequestView)
      reads this
      ensures v.httpMethod == httpMethod && v.uri == uri && v.headers == headers && v.body == body
    {
      RequestView(httpMethod, uri, headers, body)
    }

    /** `*req.method_mut() = m`. */
    method SetMethod(m: Method)
      modifies this
      ensures httpMethod == m && uri == old(uri) && headers == old(headers)
    {
      httpMethod := m;
    }

    /** `*req.uri_mut() = u`. */
    method SetUri(u: string)
      modifies this
      ensures uri == u && httpMethod == old(httpMethod) && headers == old(headers)
    {
      uri := u;
    }

    /** `req.headers_mut().insert(name, value)`: adds the header or replaces its value. */
    method InsertHeader(name: string, value: string)
      modifies this
      ensures headers == old(headers)[name := value]
      ensures httpMethod == old(httpMethod) && uri == old(uri)
    {
      headers := headers[name := value];
    }
  }

  /** What sending a request gives back: `TransportFailed` when no response
      arrives (connection or TLS failure), otherwise the status code and the
      outcome of reading the body stream, `None` when that read fails. Whether the
      body is read at all is up to the client: `Classify` never reads it on an
      unsuccessful status, `DecodeAnyStatus` always does. */
  datatype Exchange = TransportFailed | Received(status: StatusCode, body: Option<seq<byte>>)

  /** `FetchError`: `Http` wraps hyper's error, `Json` serde_json's, `Status` the
      unsuccessful status code. */
  datatype FetchError = Http | Json | Status(code: StatusCode)

  /** `StatusCode::is_success`: the 2xx class of section 15.3 of RFC 9110. */
  predicate IsSuccess(status: StatusCode) {
    200 <= status <= 299
  }

  /** `get_data`'s handling of the response: an unsuccessful status is reported
      without reading the body; a successful one has its body read and decoded. */
  function Classify<R>(ex: Exchange, decode: seq<byte> -> Option<R>): (r: Result<R, FetchError>)
    ensures r == Err(Http) <==> ex.TransportFailed? || (IsSuccess(ex.status) && ex.body.None?)
    ensures (r.Err? && r.error.Status?) <==> (ex.Received? && !IsSuccess(ex.status))
    ensures r.Err? && r.error.Status? ==> r.error.code == ex.status
    ensures r == Err(Json) <==> ex.Received? && IsSuccess(ex.status) && ex.body.Some? && decode(ex.body.value).None?
    ensures r.Ok? ==> ex.Received? && IsSuccess(ex.status) && ex.body.Some? && decode(ex.body.value) == Some(r.value)
  {
    match ex
    case TransportFailed => Err(Http)
    case Received(status, body) =>
      if !IsSuccess(status) then Err(Status(status))
      else match body
        case None => Err(Http)
        case Some(b) =>
          match decode(b)
          case None => Err(Json)
          case Some(v) => Ok(v)
  }

  /** An unsuccessful status gives the same error whatever the body, including a
      body whose read would fail, and whatever the decoder: nothing is read. */
  lemma FailureStatusSkipsDecode<R>(status: StatusCode, b: Option<seq<byte>>, b': Option<seq<byte>>,
                                    decode: seq<byte> -> Option<R>, decode': seq<byte> -> Option<R>)
    requires !IsSuccess(status)
    ensures Classify(Received(status, b), decode) == Classify(Received(status, b'), decode') == Err(Status(status))
  {
  }

  /** The status boundaries: 200 and 299 decode, 199 and 300 do not; 404 and 500
      are reported as such; 200 with a body that does not decode is a `Json` error,
      and a 503 whose body read fails is still reported as `Status(503)`. */
  lemma StatusBoundaries<R>(b: seq<byte>, decode: seq<byte> -> Option<R>)
    ensures decode(b).Some? ==> Classify(Received(200, Some(b)), decode) == Ok(decode(b).value)
    ensures decode(b).Some? ==> Classify(Received(299, Some(b)), decode) == Ok(decode(b).value)
    ensures decode(b).None? ==> Classify(Received(200, Some(b)), decode) == Err(Json)
    ensures Classify(Received(199, Some(b)), decode) == Err(Status(199))
    ensures Classify(Received(300, Some(b)), decode) == Err(Status(300))
    ensures Classify(Received(404, Some(b)), decode) == Err(Status(404))
    ensures Classify(Received(500, Some(b)), decode) == Err(Status(500))
    ensures Classify(Received(503, None), decode) == Err(Status(503))
  {
  }

  /** The handling without a status check (`client_request` in src/lib.rs and
      `get_summoner` in src/api/summoner.rs): the body is read and decoded whatever
      the status, so a failed read is an `Http` error on any status. */
  function DecodeAnyStatus<R>(ex: Exchange, decode: seq<byte> -> Option<R>): (r: Result<R, FetchError>)
    ensures r == Err(Http) <==> ex.TransportFailed? || ex.body.None?
    ensures r.Err? ==> !r.error.Status?
    ensures ex.Received? && ex.body.Some? ==> (r.Ok? <==> decode(ex.body.value).Some?)
    ensures r.Ok? ==> ex.Received? && ex.body.Some? && decode(ex.body.value) == Some(r.value)
  {
    match ex
    case TransportFailed => Err(Http)
    case Received(_, body) =>
      match body
      case None => Err(Http)
      case Some(b) =>
        match decode(b)
        case None => Err(Json)
        case Some(v) => Ok(v)
  }

  /** Without the status check the status makes no difference, so an error
      response whose body happens to decode is returned as a value, and an error
      response whose body read fails is `Http` where `Classify` reports the status;
      on a 2xx the two handlings agree. */
  lemma DecodeAnyStatusIgnoresStatus<R>(s: StatusCode, s': StatusCode, b: Option<seq<byte>>, decode: seq<byte> -> Option<R>)
    ensures DecodeAnyStatus(Received(s, b), decode) == DecodeAnyStatus(Received(s', b), decode)
    ensures IsSuccess(s) ==> DecodeAnyStatus(Received(s, b), decode) == Classify(Received(s, b), decode)
    ensures b.Some? && decode(b.value).Some? ==> DecodeAnyStatus(Received(404, b), decode) == Ok(decode(b.value).value)
    ensures DecodeAnyStatus(Received(503, None), decode) == Err(Http) != Classify(Received(503, None), decode)
  {
  }
}
