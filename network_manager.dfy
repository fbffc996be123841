/** `NetworkManager.request`: the URL guard, the request built step by step, and the classification
    of what the session delivers into a decoded value or a `NetworkError`.

    The foreign calls are oracles held in an `Environment`: whether `URL(string:)` accepts a string,
    what `JSONSerialization` makes of the parameters, what the session delivers for a request, and
    what `JSONDecoder` makes of a body. */
module NetworkManager {
  import opened Wrappers
  import opened NetworkErrors
  import APIConstants

  type Bytes = seq<bv8>

  /** A value of Swift's `Any`, known only by identity. */
  datatype AnyValue = AnyValue(token: nat)

  /** The `[String: Any]` parameters of a request. */
  type Parameters = map<string, AnyValue>

  /** The part of `URLRequest` the pipeline sets. */
  datatype URLRequest = URLRequest(
    url: string,
    httpMethod: string,
    headers: map<string, string>,
    httpBody: Option<Bytes>)

  /** The response a session hands to `tryMap`: an `HTTPURLResponse` with its status, or some
      other kind of `URLResponse`. */
  datatype URLResponse = HTTPURLResponse(statusCode: int) | OtherResponse

  /** What `dataTaskPublisher` delivers: the body and response, or a transport error. */
  datatype Exchange = Received(data: Bytes, response: URLResponse) | TransportError(cause: Cause)

  /** The foreign collaborators of `request`, as oracles. A decoder failure is a `DecodingError`. */
  datatype Environment<T> = Environment(
    isValidURL: string -> bool,
    serialise: Parameters -> Result<Bytes, Cause>,
    exchange: URLRequest -> Exchange,
    decode: Bytes -> Result<T, Cause>)

  predicate IsSuccessStatus(code: int) { 200 <= code <= 299 }

  /** The errors the pipeline can produce once a request has been sent. */
  predicate IsTransportOutcome(e: NetworkError) {
    e.NetworkFailure? || e.InvalidResponse? || e.ServerError? || e.DecodingError?
  }

  /** Builds the request: default `URLRequest` for the URL, then the method, then the JSON content
      type, then the serialised parameters when there are any. */
  method BuildRequest(url: string, httpMethod: string, parameters: Option<Parameters>,
                      serialise: Parameters -> Result<Bytes, Cause>)
    returns (r: Result<URLRequest, NetworkError>)
    ensures r.Failure? <==> parameters.Some? && serialise(parameters.value).Failure?
    ensures r.Failure? ==> r.error == NetworkFailure(serialise(parameters.value).error)
    ensures r.Success? ==>
      && r.value.url == url
      && r.value.httpMethod == httpMethod
      && r.value.headers == map["Content-Type" := "application/json"]
      && r.value.httpBody == (if parameters.None? then None else Some(serialise(parameters.value).value))
  {
    var request := URLRequest(url, APIConstants.Get, map[], None);
    request := request.(httpMethod := httpMethod);
    request := request.(headers := request.headers["Content-Type" := "application/json"]);
    if parameters.Some? {
      var serialised := serialise(parameters.value);
      if serialised.Failure? {
        return Failure(NetworkFailure(serialised.error));
      }
      request := request.(httpBody := Some(serialised.value));
    }
    return Success(request);
  }

  /** The `tryMap` closure: only an HTTP response with a 2xx status lets the body through. */
  function ValidateResponse(data: Bytes, response: URLResponse): (r: Result<Bytes, AnyError>)
    ensures r.Success? <==> response.HTTPURLResponse? && IsSuccessStatus(response.statusCode)
    ensures r.Success? ==> r.value == data
    ensures !response.HTTPURLResponse? ==> r == Failure(Network(InvalidResponse))
    ensures response.HTTPURLResponse? && !IsSuccessStatus(response.statusCode) ==>
      r == Failure(Network(ServerError(response.statusCode)))
  {
    match response
    case OtherResponse => Failure(Network(InvalidResponse))
    case HTTPURLResponse(code) =>
      if !IsSuccessStatus(code) then Failure(Network(ServerError(code))) else Success(data)
  }

  /** The `decode` operator: an upstream failure passes through; otherwise the decoder runs and a
      decoder failure becomes a `DecodingError`. */
  function DecodeStage<T>(upstream: Result<Bytes, AnyError>, decode: Bytes -> Result<T, Cause>)
    : (r: Result<T, AnyError>)
    ensures upstream.Failure? ==> r == Failure(upstream.error)
    ensures upstream.Success? && decode(upstream.value).Failure? ==>
      r == Failure(Decoding(decode(upstream.value).error))
    ensures r.Success? <==> upstream.Success? && decode(upstream.value).Success?
    ensures r.Success? ==> r.value == decode(upstream.value).value
  {
    match upstream
    case Failure(e) => Failure(e)
    case Success(data) =>
      match decode(data)
      case Success(v) => Success(v)
      case Failure(cause) => Failure(Decoding(cause))
  }

  /** The `mapError` closure: a decoding error becomes `decodingError`, a `NetworkError` passes
      through unchanged, anything else becomes `networkFailure`. */
  function MapError(e: AnyError): (n: NetworkError)
    ensures e.Network? ==> n == e.error
    ensures e.Decoding? ==> n == DecodingError
    ensures e.Other? ==> n == NetworkFailure(e.cause)
  {
    match e
    case Decoding(_) => DecodingError
    case Network(err) => err
    case Other(cause) => NetworkFailure(cause)
  }

  /** The publisher chain after the request is sent: `tryMap`, `decode`, `mapError`. */
  function Classify<T>(exchange: Exchange, decode: Bytes -> Result<T, Cause>)
    : (r: Result<T, NetworkError>)
    ensures exchange.TransportError? ==> r == Failure(NetworkFailure(exchange.cause))
    ensures exchange.Received? && exchange.response.OtherResponse? ==> r == Failure(InvalidResponse)
    ensures exchange.Received? && exchange.response.HTTPURLResponse?
            && !IsSuccessStatus(exchange.response.statusCode) ==>
      r == Failure(ServerError(exchange.response.statusCode))
    ensures exchange.Received? && exchange.response.HTTPURLResponse?
            && IsSuccessStatus(exchange.response.statusCode) ==>
      r == (match decode(exchange.data)
            case Success(v) => Success(v)
            case Failure(_) => Failure(DecodingError))
    ensures r.Success? ==> exchange.Received? && decode(exchange.data) == Success(r.value)
    ensures r.Failure? ==> IsTransportOutcome(r.error)
  {
    var upstream := match exchange
      case Received(data, response) => ValidateResponse(data, response)
      case TransportError(cause) => Failure(Other(cause));
    match DecodeStage(upstream, decode)
    case Success(v) => Success(v)
    case Failure(e) => Failure(MapError(e))
  }

  /** `request(endpoint, method:, parameters:)`, with `httpMethod` for the `method` argument.
      `sent` is the request handed to the session, or `None` when the publisher fails before
      any I/O. */
  method Request<T>(endpoint: string, env: Environment<T>,
                    httpMethod: string := APIConstants.Get, parameters: Option<Parameters> := None)
    returns (result: Result<T, NetworkError>, sent: Option<URLRequest>)
    ensures !env.isValidURL(APIConstants.BaseURL + endpoint) ==>
      result == Failure(InvalidURL) && sent == None
    ensures env.isValidURL(APIConstants.BaseURL + endpoint) && parameters.Some?
            && env.serialise(parameters.value).Failure? ==>
      result == Failure(NetworkFailure(env.serialise(parameters.value).error)) && sent == None
    ensures sent.Some? <==>
      env.isValidURL(APIConstants.BaseURL + endpoint)
      && (parameters.None? || env.serialise(parameters.value).Success?)
    ensures sent.Some? ==>
      && sent.value.url == APIConstants.BaseURL + endpoint
      && sent.value.httpMethod == httpMethod
      && sent.value.headers == map["Content-Type" := "application/json"]
      && sent.value.httpBody
         == (if parameters.None? then None else Some(env.serialise(parameters.value).value))
      && result == Classify(env.exchange(sent.value), env.decode)
    ensures result.Success? ==>
      && sent.Some? && env.exchange(sent.value).Received?
      && env.decode(env.exchange(sent.value).data) == Success(result.value)
    ensures result.Failure? ==> !result.error.Timeout? && !result.error.NoData?
                                && !result.error.NoInternetConnection?
  {
    var url := APIConstants.BaseURL + endpoint;
    if !env.isValidURL(url) {
      return Failure(InvalidURL), None;
    }
    var built := BuildRequest(url, httpMethod, parameters, env.serialise);
    if built.Failure? {
      return Failure(built.error), None;
    }
    sent := Some(built.value);
    result := Classify(env.exchange(built.value), env.decode);
  }
}
