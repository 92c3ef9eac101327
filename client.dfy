/**
 * The REST client (`client.Client`): its configuration default, how each
 * method builds its request, which status it accepts, and the normalisation
 * `QueryLogs` and `GetLogHistogram` apply to their request bodies.
 *
 * The network and JSON decoding are a `Backend`: `send` answers one request
 * with a transport error or a status and body text, and the decoders turn a
 * body into a value or an error. Every client call sends exactly one request;
 * a `Traced` result records the requests sent, in order, so that callers can
 * state which requests were and were not issued.
 */
module Client {
  import opened Wrappers
  import opened Decimal
  import opened Endpoints

  /** `time.Second`, in the nanoseconds of a `time.Duration`. */
  const Second: int := 1000000000
  const DefaultTimeout: int := 30 * Second
  /** Largest row limit a log query may ask for. */
  const MaxLimit: int := 100
  /** Query timeout, in seconds, sent when the caller gives none. */
  const DefaultQueryTimeout: int := 30

  datatype Config = Config(baseURL: string, apiKey: string, timeout: int)

  /** A client keeps its configuration and the timeout its HTTP client was built with. */
  datatype Client = Client(config: Config, httpTimeout: int)

  /** `client.New`: a zero timeout becomes 30 seconds, any other value is kept. */
  function New(config: Config): (c: Client)
    ensures c.config.baseURL == config.baseURL && c.config.apiKey == config.apiKey
    ensures config.timeout == 0 ==> c.config.timeout == DefaultTimeout
    ensures config.timeout != 0 ==> c.config.timeout == config.timeout
    ensures c.httpTimeout == c.config.timeout && c.config.timeout != 0
  {
    var timeout := if config.timeout == 0 then DefaultTimeout else config.timeout;
    Client(config.(timeout := timeout), timeout)
  }

  /** Building a client from an already built client's configuration changes nothing. */
  lemma NewIdempotent(config: Config)
    ensures New(New(config).config) == New(config)
  {
  }

  // ---- request bodies ----

  datatype LogColumn = LogColumn(name: string, columnType: string)

  datatype LogQueryRequest = LogQueryRequest(rawSQL: string, limit: int, queryTimeout: Option<int>)

  datatype HistogramRequest =
    HistogramRequest(rawSQL: string, window: string, groupBy: string, timezone: string, queryTimeout: Option<int>)

  /** `client.SourceRequest`; a nil schema is `None`. */
  datatype SourceRequest = SourceRequest(
    name: string, description: string,
    host: string, database: string, tableName: string,
    metaIsAutoCreated: bool, metaTsField: string, metaSeverityField: string,
    ttlDays: int, schema: Option<seq<LogColumn>>)

  /** One field of a flat request struct; an optional field left nil is `Omitted`. */
  datatype Field = Text(text: string) | Number(number: int) | Omitted

  /** A request body; the other request structs are their field values in declaration order. */
  datatype Body =
    | NoBody
    | LogQuery(query: LogQueryRequest)
    | Histogram(histogram: HistogramRequest)
    | NewSource(source: SourceRequest)
    | Fields(values: seq<Field>)

  // ---- the wire ----

  datatype HttpRequest = HttpRequest(verb: Verb, url: string, authorization: Option<string>, body: Body)

  datatype HttpResponse = TransportError(reason: string) | Response(status: int, text: string)

  // ---- decoded responses the tools look into ----

  datatype Profile = Profile(userID: int, email: string, role: string)

  datatype UserTeam = UserTeam(id: int, name: string, role: string)

  datatype Source = Source(
    id: int, name: string, description: string,
    host: string, database: string, tableName: string,
    ttlDays: int, isConnected: bool)

  /**
   * The server and the JSON decoder: `send` is the HTTP exchange, `profile`,
   * `teams` and `sources` decode the three responses whose fields the tools
   * read, and `reply` decodes any other method's body into the text the tool
   * hands back.
   */
  datatype Backend = Backend(
    send: HttpRequest -> HttpResponse,
    profile: string -> Result<Profile>,
    teams: string -> Result<seq<UserTeam>>,
    sources: string -> Result<seq<Source>>,
    reply: (Endpoint, string) -> Result<string>)

  /** An outcome together with every request sent to reach it, in order. */
  datatype Traced<T> = Traced(result: Result<T>, sent: seq<HttpRequest>)

  /** The request a client method sends: its verb, base URL plus path, and the bearer key unless it is `GetMeta`. */
  function Request(c: Client, e: Endpoint, body: Body): (r: HttpRequest)
    ensures r.verb == VerbOf(e) && r.body == body
    ensures r.authorization.Some? <==> !e.GetMeta?
    ensures r.authorization.Some? ==> r.authorization.value == "Bearer " + c.config.apiKey
  {
    HttpRequest(VerbOf(e), c.config.baseURL + Path(e), if SendsAuthorization(e) then Some("Bearer " + c.config.apiKey) else None, body)
  }

  /** The URL is the base URL followed by a path that reads back, with the verb, as exactly this method and these IDs. */
  lemma RequestRoute(c: Client, e: Endpoint, body: Body)
    ensures var r := Request(c, e, body);
            && |r.url| >= |c.config.baseURL| && r.url[..|c.config.baseURL|] == c.config.baseURL
            && RouteOf(r.verb, r.url[|c.config.baseURL|..]) == Some(e)
  {
    var url := Request(c, e, body).url;
    assert url[..|c.config.baseURL|] == c.config.baseURL && url[|c.config.baseURL|..] == Path(e);
    RouteRoundTrip(e);
  }

  /** Two requests from one client with the same verb and URL address the same method with the same IDs. */
  lemma RequestIdentifiesEndpoint(c: Client, e1: Endpoint, b1: Body, e2: Endpoint, b2: Body)
    requires Request(c, e1, b1).verb == Request(c, e2, b2).verb
    requires Request(c, e1, b1).url == Request(c, e2, b2).url
    ensures e1 == e2
  {
    RequestRoute(c, e1, b1);
    RequestRoute(c, e2, b2);
  }

  const StatusErrorPrefix: string := "API request failed with status "

  function StatusError(status: int, text: string): string
  {
    StatusErrorPrefix + Itoa(status) + ": " + text
  }

  /**
   * One exchange: a transport error becomes "make request: ...", a status other
   * than the method's expected one an error carrying the status and body, and
   * the expected status yields the body text.
   */
  function Exchange(b: Backend, c: Client, e: Endpoint, body: Body): (r: Traced<string>)
    ensures r.sent == [Request(c, e, body)]
    ensures r.result.Success? <==> b.send(r.sent[0]).Response? && b.send(r.sent[0]).status == ExpectedStatus(e)
    ensures r.result.Success? ==> r.result.value == b.send(r.sent[0]).text
    ensures b.send(r.sent[0]).TransportError? ==> r.result == Failure("make request: " + b.send(r.sent[0]).reason)
  {
    var req := Request(c, e, body);
    var res := match b.send(req)
      case TransportError(reason) => Failure("make request: " + reason)
      case Response(status, text) =>
        if status == ExpectedStatus(e) then Success(text) else Failure(StatusError(status, text));
    Traced(res, [req])
  }

  /** A status other than the expected one is rejected with the status error. */
  lemma RejectedStatus(b: Backend, c: Client, e: Endpoint, body: Body, status: int, text: string)
    requires b.send(Request(c, e, body)) == Response(status, text)
    requires status != ExpectedStatus(e)
    ensures Exchange(b, c, e, body).result == Failure(StatusError(status, text))
  {
  }

  /** The status error carries the status in decimal right after its fixed prefix, and it reads back. */
  lemma StatusErrorNamesStatus(status: int, text: string)
    ensures var n := |StatusErrorPrefix|; ParseInt(StatusError(status, text)[n..n + |Itoa(status)|]) == Some(status)
  {
    var n := |StatusErrorPrefix|;
    var msg := StatusError(status, text);
    assert msg == StatusErrorPrefix + (Itoa(status) + (": " + text));
    assert msg[n..n + |Itoa(status)|] == Itoa(status);
    DecimalRoundTrip(status);
  }

  /** A method whose response is decoded: a body that does not decode is "unmarshal response: ...". */
  function Fetch<T>(b: Backend, c: Client, e: Endpoint, body: Body, decode: string -> Result<T>): (r: Traced<T>)
    ensures r.sent == [Request(c, e, body)]
    ensures r.result.Success? <==> Exchange(b, c, e, body).result.Success? && decode(Exchange(b, c, e, body).result.value).Success?
    ensures r.result.Success? ==> r.result == decode(Exchange(b, c, e, body).result.value)
    ensures Exchange(b, c, e, body).result.Failure? ==> r.result.error == Exchange(b, c, e, body).result.error
    ensures Exchange(b, c, e, body).result.Success? && decode(Exchange(b, c, e, body).result.value).Failure? ==>
              r.result.error == "unmarshal response: " + decode(Exchange(b, c, e, body).result.value).error
  {
    var x := Exchange(b, c, e, body);
    if x.result.Failure? then Traced(Failure(x.result.error), x.sent)
    else match decode(x.result.value)
      case Success(v) => Traced(Success(v), x.sent)
      case Failure(m) => Traced(Failure("unmarshal response: " + m), x.sent)
  }

  /** A method returning only an error: the body of a successful response is not read. */
  function Exec(b: Backend, c: Client, e: Endpoint, body: Body): (r: Traced<()>)
    ensures r.sent == [Request(c, e, body)]
    ensures r.result.Success? <==> b.send(r.sent[0]).Response? && b.send(r.sent[0]).status == ExpectedStatus(e)
  {
    var x := Exchange(b, c, e, body);
    Traced(if x.result.Success? then Success(()) else Failure(x.result.error), x.sent)
  }

  /** A method whose reply the tools pass on without looking into it. */
  function Call(b: Backend, c: Client, e: Endpoint, body: Body): (r: Traced<string>)
    ensures r.sent == [Request(c, e, body)]
  {
    Fetch(b, c, e, body, (text: string) => b.reply(e, text))
  }

  function GetProfile(b: Backend, c: Client): (r: Traced<Profile>)
    ensures r.sent == [Request(c, Endpoints.GetProfile, NoBody)]
  {
    Fetch(b, c, Endpoints.GetProfile, NoBody, b.profile)
  }

  function GetTeams(b: Backend, c: Client): (r: Traced<seq<UserTeam>>)
    ensures r.sent == [Request(c, Endpoints.GetTeams, NoBody)]
  {
    Fetch(b, c, Endpoints.GetTeams, NoBody, b.teams)
  }

  function GetTeamSources(b: Backend, c: Client, teamID: int): (r: Traced<seq<Source>>)
    ensures r.sent == [Request(c, Endpoints.GetTeamSources(teamID), NoBody)]
  {
    Fetch(b, c, Endpoints.GetTeamSources(teamID), NoBody, b.sources)
  }

  // ---- request normalisation ----

  /** `QueryLogs`' limit rule: a limit of zero or less, or above 100, becomes 100. */
  function ClientLimit(limit: int): (r: int)
    ensures 1 <= r <= MaxLimit
    ensures 1 <= limit <= MaxLimit ==> r == limit
    ensures limit <= 0 || limit > MaxLimit ==> r == MaxLimit
  {
    var l := if limit <= 0 then MaxLimit else limit;
    if l > MaxLimit then MaxLimit else l
  }

  /** A nil query timeout becomes 30; a given one is kept. */
  function QueryTimeoutOrDefault(t: Option<int>): (r: Option<int>)
    ensures r.Some?
    ensures t.Some? ==> r == t
    ensures t.None? ==> r == Some(DefaultQueryTimeout)
  {
    if t.None? then Some(DefaultQueryTimeout) else t
  }

  function NormalizeLogQuery(q: LogQueryRequest): (r: LogQueryRequest)
    ensures r.rawSQL == q.rawSQL
    ensures 1 <= r.limit <= MaxLimit
    ensures 1 <= q.limit <= MaxLimit ==> r.limit == q.limit
    ensures q.limit <= 0 || q.limit > MaxLimit ==> r.limit == MaxLimit
    ensures r.queryTimeout.Some?
    ensures q.queryTimeout.Some? ==> r.queryTimeout == q.queryTimeout
    ensures q.queryTimeout.None? ==> r.queryTimeout == Some(DefaultQueryTimeout)
  {
    q.(limit := ClientLimit(q.limit), queryTimeout := QueryTimeoutOrDefault(q.queryTimeout))
  }

  function NormalizeHistogram(h: HistogramRequest): (r: HistogramRequest)
    ensures r.rawSQL == h.rawSQL && r.window == h.window && r.groupBy == h.groupBy && r.timezone == h.timezone
    ensures r.queryTimeout.Some?
    ensures h.queryTimeout.Some? ==> r.queryTimeout == h.queryTimeout
    ensures h.queryTimeout.None? ==> r.queryTimeout == Some(DefaultQueryTimeout)
  {
    h.(queryTimeout := QueryTimeoutOrDefault(h.queryTimeout))
  }

  /** Normalising an already normalised body changes nothing: the sent body is a fixed point. */
  lemma NormalizeIdempotent(q: LogQueryRequest, h: HistogramRequest)
    ensures NormalizeLogQuery(NormalizeLogQuery(q)) == NormalizeLogQuery(q)
    ensures NormalizeHistogram(NormalizeHistogram(h)) == NormalizeHistogram(h)
  {
  }

  function QueryLogs(b: Backend, c: Client, teamID: int, sourceID: int, q: LogQueryRequest): (r: Traced<string>)
    ensures r.sent == [Request(c, Endpoints.QueryLogs(teamID, sourceID), LogQuery(NormalizeLogQuery(q)))]
  {
    Call(b, c, Endpoints.QueryLogs(teamID, sourceID), LogQuery(NormalizeLogQuery(q)))
  }

  function GetLogHistogram(b: Backend, c: Client, teamID: int, sourceID: int, h: HistogramRequest): (r: Traced<string>)
    ensures r.sent == [Request(c, Endpoints.GetLogHistogram(teamID, sourceID), Histogram(NormalizeHistogram(h)))]
  {
    Call(b, c, Endpoints.GetLogHistogram(teamID, sourceID), Histogram(NormalizeHistogram(h)))
  }
}
