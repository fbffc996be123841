/** The closed set of failure kinds of the fetch pipeline and the message each one displays. */
module NetworkErrors {
  import opened Wrappers
  import Decimal

  /** A Swift `Error` that is not a `NetworkError`, known only by its `localizedDescription`. */
  datatype Cause = Cause(localizedDescription: string)

  datatype NetworkError =
    | InvalidURL
    | NoData
    | DecodingError
    | NetworkFailure(cause: Cause)
    | InvalidResponse
    | ServerError(code: int)
    | Timeout
    | NoInternetConnection

  /** Any error a `catch` or a `mapError` closure can see: a `NetworkError`, a `DecodingError`
      thrown by the JSON decoder, or some other error. */
  datatype AnyError =
    | Network(error: NetworkError)
    | Decoding(decodingCause: Cause)
    | Other(cause: Cause)

  const NetworkFailurePrefix := "Network failure: "
  const ServerErrorPrefix := "Server error with code: "

  /** `errorDescription`: a `String?` that is never nil and never empty. */
  function ErrorDescription(e: NetworkError): (d: Option<string>)
    ensures d.Some? && |d.value| > 0
  {
    match e
    case InvalidURL => Some("Invalid URL")
    case NoData => Some("No data received")
    case DecodingError => Some("Failed to decode response")
    case NetworkFailure(cause) => Some(NetworkFailurePrefix + cause.localizedDescription)
    case InvalidResponse => Some("Invalid response")
    case ServerError(code) => Some(ServerErrorPrefix + Decimal.IntToString(code))
    case Timeout => Some("Request timeout")
    case NoInternetConnection => Some("No internet connection")
  }

  function Description(e: NetworkError): string {
    ErrorDescription(e).value
  }

  /** Reads the error back from its message; the inverse of `Description`. */
  function ParseDescription(d: string): Option<NetworkError> {
    if d == "Invalid URL" then Some(InvalidURL)
    else if d == "No data received" then Some(NoData)
    else if d == "Failed to decode response" then Some(DecodingError)
    else if d == "Invalid response" then Some(InvalidResponse)
    else if d == "Request timeout" then Some(Timeout)
    else if d == "No internet connection" then Some(NoInternetConnection)
    else if |d| >= |NetworkFailurePrefix| && d[..|NetworkFailurePrefix|] == NetworkFailurePrefix then
      Some(NetworkFailure(Cause(d[|NetworkFailurePrefix|..])))
    else if |d| >= |ServerErrorPrefix| && d[..|ServerErrorPrefix|] == ServerErrorPrefix then
      match Decimal.ParseInt(d[|ServerErrorPrefix|..])
      case Some(code) => Some(ServerError(code))
      case None => None
    else None
  }

  /** The message of every error determines the error. */
  lemma DescriptionRoundTrip(e: NetworkError)
    ensures ParseDescription(Description(e)) == Some(e)
  {
    var d := Description(e);
    match e
    case NetworkFailure(cause) =>
      assert d[..|NetworkFailurePrefix|] == NetworkFailurePrefix;
      assert d[0] == 'N' && d[1] == 'e';
      assert d[|NetworkFailurePrefix|..] == cause.localizedDescription;
    case ServerError(code) =>
      assert d[..|ServerErrorPrefix|] == ServerErrorPrefix;
      assert d[0] == 'S';
      assert d[|ServerErrorPrefix|..] == Decimal.IntToString(code);
      Decimal.IntRoundTrip(code);
    case _ =>
  }

  /** Different errors display different messages. */
  lemma DescriptionInjective(e1: NetworkError, e2: NetworkError)
    ensures Description(e1) == Description(e2) ==> e1 == e2
  {
    DescriptionRoundTrip(e1);
    DescriptionRoundTrip(e2);
  }

  /** A server error's message is the fixed prefix followed by text that reads back as the code. */
  lemma ServerErrorMessageCarriesCode(code: int)
    ensures var d := Description(ServerError(code));
      |d| > |ServerErrorPrefix| && d[..|ServerErrorPrefix|] == ServerErrorPrefix
      && Decimal.ParseInt(d[|ServerErrorPrefix|..]) == Some(code)
  {
    var d := Description(ServerError(code));
    assert d[|ServerErrorPrefix|..] == Decimal.IntToString(code);
    Decimal.IntRoundTrip(code);
  }

  /** Server errors for different codes display different messages. */
  lemma ServerErrorMessagesDistinct(a: int, b: int)
    requires a != b
    ensures Description(ServerError(a)) != Description(ServerError(b))
  {
    DescriptionInjective(ServerError(a), ServerError(b));
  }

  /** A network failure's message is the fixed prefix followed by the wrapped error's description. */
  lemma NetworkFailureMessageWrapsCause(cause: Cause)
    ensures var d := Description(NetworkFailure(cause));
      d[..|NetworkFailurePrefix|] == NetworkFailurePrefix
      && d[|NetworkFailurePrefix|..] == cause.localizedDescription
  {
  }

  /** The six payload-free errors display six pairwise different messages. */
  lemma FixedMessagesDistinct()
    ensures |{Description(InvalidURL), Description(NoData), Description(DecodingError),
              Description(InvalidResponse), Description(Timeout),
              Description(NoInternetConnection)}| == 6
  {
  }
}
