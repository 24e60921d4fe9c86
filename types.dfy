/** Shared vocabulary of the bouncer model: the operating modes, the values the
    decision cache holds, the documents the decision source sends, the requests
    the bouncer issues and the errors its decision logic tells apart. */
module Types {

  datatype Option<T> = None | Some(value: T)

  /** The four values of the bouncer's mode setting. */
  datatype Mode = NoneMode | LiveMode | StreamMode | AloneMode

  /** A value held in the decision cache. The cache package's three named
      constants are kept apart from every other string, which is carried raw
      (the stream cycle stores the empty string for an unknown decision type). */
  datatype Value = Banned | Captcha | NoBanned | Other(raw: string)

  /** One decision of the decision source; `kind` is the JSON field `type`. */
  datatype Decision = Decision(id: int, origin: string, kind: string, scope: string,
                               value: string, duration: string, scenario: string,
                               simulated: bool)

  /** A stream delta; `added` is the JSON field `new`. */
  datatype Stream = Stream(deleted: seq<Decision>, added: seq<Decision>)

  /** The answer of the central login route. */
  datatype Login = Login(code: int, token: string, expire: string)

  /** A response body, abstracted by the JSON document it holds. */
  datatype Body =
    | Null
    | StreamDoc(stream: Stream)
    | DecisionList(decisions: seq<Decision>)
    | LoginDoc(login: Login)
    | Garbage

  /** What one HTTP call to the decision source gives back. */
  datatype Response = NoConnection | Reply(status: int, body: Body)

  /** The route of a request: the live lookup for one IP, the stream (of the
      local API, or of the central API when `central`), or the central login. */
  datatype Route = DecisionsRoute(ip: string) | StreamRoute(central: bool, startup: bool) | LoginRoute

  /** A request sent to the decision source, with the credential in its header. */
  datatype Request = Request(route: Route, post: bool, credential: string)

  datatype Error =
    | CacheFailure(message: string)   // a cache error other than a miss
    | TransportFailure                // the HTTP call itself failed
    | RenewToken(cause: Error)        // a 401 whose re-login failed
    | BadStatus(status: int)          // any other status than 200
    | ParseBody                       // the body did not decode
    | LoginRejected(code: int)        // login answered without code 200 and a token
    | ParseDuration                   // the chosen decision's duration did not parse
    | BannedSignal                    // the live lookup's closing "banned" error

  datatype Result<T> = Ok(value: T) | Err(error: Error)

  /** Whole seconds of a duration string, or None when it does not parse:
      `int64(time.ParseDuration(s).Seconds())` taken as an opaque partial function. */
  type DurationParser = string -> Option<int>

  /** The settings the decision logic reads. */
  datatype Config = Config(enabled: bool, mode: Mode, updateInterval: int,
                           defaultDecisionTimeout: int, fallbackRemediation: string)

  const SentinelKey := "updated"
  const FaviconPath := "/favicon.ico"
  const StatusOK := 200
  const StatusUnauthorized := 401

  /** Cache value for a decision type in the stream cycle: unknown types store "". */
  function StreamValue(kind: string): (v: Value)
    ensures (v == Banned <==> kind == "ban") && (v == Captcha <==> kind == "captcha")
    ensures v != Banned && v != Captcha ==> v == Other("")
  {
    if kind == "ban" then Banned else if kind == "captcha" then Captcha else Other("")
  }

  /** Cache value for a decision type in the live lookup: unknown types keep NoBanned. */
  function LiveValue(kind: string): (v: Value)
    ensures (v == Banned <==> kind == "ban") && (v == Captcha <==> kind == "captcha")
    ensures v != Banned && v != Captcha ==> v == NoBanned
  {
    if kind == "ban" then Banned else if kind == "captcha" then Captcha else NoBanned
  }

  /** Decoding into a Stream: an object decodes (fields it does not know are
      ignored, so another object yields the empty stream), `null` leaves the
      zero value, an array or malformed text is an error. */
  function DecodeStream(b: Body): (r: Option<Stream>)
    ensures r.None? <==> b.DecisionList? || b.Garbage?
    ensures b.StreamDoc? ==> r == Some(b.stream)
    ensures b.Null? || b.LoginDoc? ==> r == Some(Stream([], []))
  {
    match b
    case StreamDoc(s) => Some(s)
    case Null => Some(Stream([], []))
    case LoginDoc(_) => Some(Stream([], []))
    case _ => None
  }

  /** Decoding into a list of decisions: only an array (or `null`) decodes. */
  function DecodeDecisions(b: Body): (r: Option<seq<Decision>>)
    ensures r.None? <==> !(b.DecisionList? || b.Null?)
    ensures b.DecisionList? ==> r == Some(b.decisions)
    ensures b.Null? ==> r == Some([])
  {
    match b
    case DecisionList(ds) => Some(ds)
    case Null => Some([])
    case _ => None
  }

  /** Decoding into a Login, by the same rules as DecodeStream. */
  function DecodeLogin(b: Body): (r: Option<Login>)
    ensures r.None? <==> b.DecisionList? || b.Garbage?
    ensures b.LoginDoc? ==> r == Some(b.login)
    ensures b.Null? || b.StreamDoc? ==> r == Some(Login(0, "", ""))
  {
    match b
    case LoginDoc(l) => Some(l)
    case Null => Some(Login(0, "", ""))
    case StreamDoc(_) => Some(Login(0, "", ""))
    case _ => None
  }

  function Min(a: int, b: int): int
  {
    if a < b then a else b
  }
}
