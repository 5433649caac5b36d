/**
 * The two decisions the translation client makes around its single POST to
 * the key server: what the request carries, and how the outcome of the
 * exchange (transport error, HTTP status, decoded body) becomes a success
 * with the translated text or a failure. The network and the JSON coding are
 * not modelled: the outcome of the exchange is an input.
 */
module TranslatorService {
  import opened Wrappers

  const NotConfigured: string := "Key server not configured."
  const InvalidURL: string := "Invalid key server URL."
  const NoHttpResponse: string := "No HTTP response."
  const EmptyResponse: string := "Empty response."
  const Unavailable: string := "Translation temporarily unavailable."

  /**
   * A failure: an error the client raises itself (domain "TranslatorService",
   * a code and a description), or an error from the system (transport or
   * decoding) passed on as it came.
   */
  datatype TranslationError =
    | Coded(code: int, message: string)
    | Propagated(description: string)
  {
    /** The `localizedDescription` the screens show. */
    function Description(): string {
      match this
      case Coded(_, m) => m
      case Propagated(d) => d
    }
  }

  /** The key server's JSON answer; every field may be absent. */
  datatype ServerResponse = ServerResponse(
    translatedText: Option<string>,
    detectedLanguage: Option<string>,
    error: Option<string>,
    message: Option<string>)

  /** The response data: decodable into a `ServerResponse`, or not (with the decoder's error). */
  datatype Body = Decoded(response: ServerResponse) | Undecodable(decodeError: string)

  /**
   * What the data task hands its completion: a transport error, the HTTP
   * status when the response is an HTTP one, and the data when there is any.
   */
  datatype Exchange = Exchange(transportError: Option<string>, status: Option<int>, data: Option<Body>)

  /** The configured key server base URL, and whether `<base>/translate` parses as a URL. */
  datatype Config = Config(baseURL: string, urlParses: bool)

  datatype Request = Request(url: string, httpMethod: string, contentType: string, payload: map<string, string>)

  /** A successful translation with the language the server detected, if it reported one. */
  type Detection = (string, Option<string>)

  /**
   * The JSON payload: always the text and the target code, and the source code
   * exactly when one is given and it is not empty.
   */
  function Payload(text: string, from: Option<string>, to: string): (p: map<string, string>)
    ensures p.Keys == {"text", "to"} + (if from.Some? && from.value != [] then {"from"} else {})
    ensures p["text"] == text && p["to"] == to
    ensures "from" in p ==> p["from"] == from.value
  {
    if from.Some? && from.value != [] then map["text" := text, "to" := to, "from" := from.value]
    else map["text" := text, "to" := to]
  }

  /** The configuration checks made before any request exists. */
  function ConfigError(config: Config): (r: Option<TranslationError>)
    ensures r.None? <==> config.baseURL != [] && config.urlParses
    ensures r.Some? ==> r.value.Coded? && r.value.code in {-1, -3}
    ensures r.Some? ==> (r.value.code == -1 <==> config.baseURL == [])
  {
    if config.baseURL == [] then Some(Coded(-1, NotConfigured))
    else if !config.urlParses then Some(Coded(-3, InvalidURL))
    else None
  }

  /** The request sent for a translation, when the configuration allows one. */
  function RequestFor(text: string, from: Option<string>, to: string, config: Config): (r: Option<Request>)
    ensures r.Some? <==> ConfigError(config).None?
    ensures r.Some? ==> r.value.url == config.baseURL + "/translate" && r.value.httpMethod == "POST"
                        && r.value.payload == Payload(text, from, to)
  {
    if ConfigError(config).Some? then None
    else Some(Request(config.baseURL + "/translate", "POST", "application/json", Payload(text, from, to)))
  }

  /**
   * How the outcome of the exchange is turned into a result: a transport
   * error is passed on; a response that is not HTTP fails with -4, a missing
   * body with -5, an undecodable body with the decoder's error. A decoded body
   * succeeds exactly when the status is 2xx and the translated text is present;
   * otherwise the failure carries the status as its code and the server's
   * message, or a fixed apology when there is none.
   */
  function Classify(x: Exchange): (r: Result<Detection, TranslationError>)
    ensures r.Success? <==> x.transportError.None? && x.status.Some? && 200 <= x.status.value < 300
                            && x.data.Some? && x.data.value.Decoded? && x.data.value.response.translatedText.Some?
    ensures r.Success? ==> r.value == (x.data.value.response.translatedText.value, x.data.value.response.detectedLanguage)
    ensures x.transportError.Some? ==> r == Failure(Propagated(x.transportError.value))
    ensures x.transportError.None? && x.status.None? ==> r == Failure(Coded(-4, NoHttpResponse))
    ensures x.transportError.None? && x.status.Some? && x.data.None? ==> r == Failure(Coded(-5, EmptyResponse))
    ensures x.transportError.None? && x.status.Some? && x.data.Some? && x.data.value.Undecodable?
            ==> r == Failure(Propagated(x.data.value.decodeError))
    ensures x.transportError.None? && x.status.Some? && x.data.Some? && x.data.value.Decoded? && r.Failure?
            ==> r.error == Coded(x.status.value, x.data.value.response.message.GetOr(Unavailable))
  {
    if x.transportError.Some? then Failure(Propagated(x.transportError.value))
    else if x.status.None? then Failure(Coded(-4, NoHttpResponse))
    else if x.data.None? then Failure(Coded(-5, EmptyResponse))
    else match x.data.value
      case Undecodable(e) => Failure(Propagated(e))
      case Decoded(resp) =>
        var status := x.status.value;
        if 200 <= status < 300 && resp.translatedText.Some? then Success((resp.translatedText.value, resp.detectedLanguage))
        else Failure(Coded(status, resp.message.GetOr(Unavailable)))
  }

  /** The one result `translateWithDetection` hands its completion. */
  function Answer(config: Config, x: Exchange): (r: Result<Detection, TranslationError>)
    ensures ConfigError(config).Some? ==> r == Failure(ConfigError(config).value)
    ensures ConfigError(config).None? ==> r == Classify(x)
  {
    if ConfigError(config).Some? then Failure(ConfigError(config).value) else Classify(x)
  }

  /** What `translate` does with that result: it keeps the text and drops the detected language. */
  function Forward(d: Result<Detection, TranslationError>): (r: Result<string, TranslationError>)
    ensures r.Success? <==> d.Success?
    ensures d.Success? ==> r.value == d.value.0
    ensures d.Failure? ==> r.error == d.error
  {
    match d
    case Success((t, _)) => Success(t)
    case Failure(e) => Failure(e)
  }

  /** Builds the POST request, adding the source code to the payload only when there is one. */
  method BuildRequest(url: string, text: string, from: Option<string>, to: string) returns (request: Request)
    ensures request == Request(url, "POST", "application/json", Payload(text, from, to))
  {
    var payload: map<string, string> := map["text" := text, "to" := to];
    if from.Some? && from.value != [] {
      payload := payload["from" := from.value];
    }
    request := Request(url, "POST", "application/json", payload);
  }

  /**
   * `translateWithDetection`: the request it sends (none when the configuration
   * is rejected) and the result its completion receives, once, on every path.
   */
  method TranslateWithDetection(text: string, from: Option<string>, to: string, config: Config, exchange: Exchange)
    returns (request: Option<Request>, result: Result<Detection, TranslationError>)
    ensures request == RequestFor(text, from, to, config)
    ensures result == Answer(config, exchange)
  {
    if config.baseURL == [] {
      return None, Failure(Coded(-1, NotConfigured));
    }
    if !config.urlParses {
      return None, Failure(Coded(-3, InvalidURL));
    }
    var r := BuildRequest(config.baseURL + "/translate", text, from, to);
    request := Some(r);
    result := Classify(exchange);
  }

  /** `translate`: the same request; the text of a success, or the failure unchanged. */
  method Translate(text: string, from: Option<string>, to: string, config: Config, exchange: Exchange)
    returns (request: Option<Request>, result: Result<string, TranslationError>)
    ensures request == RequestFor(text, from, to, config)
    ensures result == Forward(Answer(config, exchange))
  {
    var detailed;
    request, detailed := TranslateWithDetection(text, from, to, config, exchange);
    match detailed {
      case Success(d) =>
        result := Success(d.0);
      case Failure(e) =>
        result := Failure(e);
    }
  }

  /**
   * A translation succeeds exactly when a request went out and the exchange
   * came back as a 2xx HTTP response whose body decodes and carries a
   * translated text; a request that was never sent cannot succeed.
   */
  lemma SuccessIff(text: string, from: Option<string>, to: string, config: Config, x: Exchange)
    ensures Answer(config, x).Success? <==>
            RequestFor(text, from, to, config).Some? && x.transportError.None? && x.status.Some?
            && 200 <= x.status.value < 300 && x.data.Some? && x.data.value.Decoded?
            && x.data.value.response.translatedText.Some?
  {
  }

  /**
   * When HTTP statuses are the usual three-digit ones, a failure's code tells
   * where it arose: a negative code is the client's own check (-1 and -3 before
   * any request, -4 and -5 on the response) and any other code is the status.
   */
  lemma FailureCodesTellThePathApart(config: Config, x: Exchange)
    requires x.status.Some? ==> 100 <= x.status.value < 600
    ensures Answer(config, x).Failure? && Answer(config, x).error.Coded? ==>
      var c := Answer(config, x).error.code;
      (c < 0 <==> c in {-1, -3, -4, -5})
      && (c in {-1, -3} <==> ConfigError(config).Some?)
      && (c >= 0 ==> x.status == Some(c))
  {
  }
}
