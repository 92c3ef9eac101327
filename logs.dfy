/**
 * The log tools (`tools/logs.go`): `query_logs` clamps the caller's limit
 * before the client normalises it again, `get_log_histogram` copies its
 * fields into the client request, and the collection tools call the client
 * and wrap its errors with the operation name.
 */
module Logs {
  import opened Wrappers
  import opened Client
  import opened LogchefContext
  import opened ToolSupport
  import Endpoints

  /** The arguments of each log tool, as the MCP layer decodes them. */
  datatype LogTool =
    | QueryLogsTool(teamID: int, sourceID: int, rawSQL: string, limit: int, queryTimeout: Option<int>)
    | GetSourceSchemaTool(teamID: int, sourceID: int)
    | GetLogHistogramTool(teamID: int, sourceID: int, rawSQL: string, window: string, groupBy: string,
                          timezone: string, queryTimeout: Option<int>)
    | GetCollectionsTool(teamID: int, sourceID: int)
    | CreateCollectionTool(teamID: int, sourceID: int, name: string, description: string, query: string)
    | GetCollectionTool(teamID: int, sourceID: int, collectionID: int)
    | UpdateCollectionTool(teamID: int, sourceID: int, collectionID: int, name: string, description: string, query: string)
    | DeleteCollectionTool(teamID: int, sourceID: int, collectionID: int)

  /** `queryLogs`' own clamp: a negative limit becomes 0, one above 100 becomes 100. */
  function ToolLimit(limit: int): (r: int)
    ensures 0 <= r <= MaxLimit
    ensures 0 <= limit <= MaxLimit ==> r == limit
    ensures limit < 0 ==> r == 0
    ensures limit > MaxLimit ==> r == MaxLimit
  {
    var l := if limit < 0 then 0 else limit;
    if l > MaxLimit then MaxLimit else l
  }

  /** The request `queryLogs` hands to the client: SQL and timeout as given, the limit clamped. */
  function QueryRequestOf(t: LogTool): (r: LogQueryRequest)
    requires t.QueryLogsTool?
    ensures r.rawSQL == t.rawSQL && r.queryTimeout == t.queryTimeout
    ensures r.limit == ToolLimit(t.limit)
  {
    LogQueryRequest(t.rawSQL, ToolLimit(t.limit), t.queryTimeout)
  }

  /** The request `getLogHistogram` hands to the client: every field copied. */
  function HistogramRequestOf(t: LogTool): (r: HistogramRequest)
    requires t.GetLogHistogramTool?
    ensures r.rawSQL == t.rawSQL && r.window == t.window && r.groupBy == t.groupBy
    ensures r.timezone == t.timezone && r.queryTimeout == t.queryTimeout
  {
    HistogramRequest(t.rawSQL, t.window, t.groupBy, t.timezone, t.queryTimeout)
  }

  /** The client method each tool calls. */
  function EndpointOf(t: LogTool): Endpoints.Endpoint
  {
    match t
    case QueryLogsTool(team, source, _, _, _) => Endpoints.QueryLogs(team, source)
    case GetSourceSchemaTool(team, source) => Endpoints.GetSourceSchema(team, source)
    case GetLogHistogramTool(team, source, _, _, _, _, _) => Endpoints.GetLogHistogram(team, source)
    case GetCollectionsTool(team, source) => Endpoints.GetCollections(team, source)
    case CreateCollectionTool(team, source, _, _, _) => Endpoints.CreateCollection(team, source)
    case GetCollectionTool(team, source, id) => Endpoints.GetCollection(team, source, id)
    case UpdateCollectionTool(team, source, id, _, _, _) => Endpoints.UpdateCollection(team, source, id)
    case DeleteCollectionTool(team, source, id) => Endpoints.DeleteCollection(team, source, id)
  }

  /** The operation name each tool puts in front of a client error. */
  function OpName(t: LogTool): string
  {
    match t
    case QueryLogsTool(_, _, _, _, _) => "query logs"
    case GetSourceSchemaTool(_, _) => "get source schema"
    case GetLogHistogramTool(_, _, _, _, _, _, _) => "get log histogram"
    case GetCollectionsTool(_, _) => "get collections"
    case CreateCollectionTool(_, _, _, _, _) => "create collection"
    case GetCollectionTool(_, _, _) => "get collection"
    case UpdateCollectionTool(_, _, _, _, _, _) => "update collection"
    case DeleteCollectionTool(_, _, _) => "delete collection"
  }

  /** The client call behind each tool, with the body the client sends. */
  function Invoke(b: Backend, c: Client, t: LogTool): Traced<Reply>
  {
    match t
    case QueryLogsTool(team, source, _, _, _) =>
      Answer(OpName(t), QueryLogs(b, c, team, source, QueryRequestOf(t)))
    case GetLogHistogramTool(team, source, _, _, _, _, _) =>
      Answer(OpName(t), GetLogHistogram(b, c, team, source, HistogramRequestOf(t)))
    case CreateCollectionTool(_, _, name, description, query) =>
      Answer(OpName(t), Call(b, c, EndpointOf(t), Fields([Field.Text(name), Field.Text(description), Field.Text(query)])))
    case UpdateCollectionTool(_, _, _, name, description, query) =>
      Answer(OpName(t), Call(b, c, EndpointOf(t), Fields([Field.Text(name), Field.Text(description), Field.Text(query)])))
    case DeleteCollectionTool(_, _, _) =>
      Acknowledge(OpName(t), Exec(b, c, EndpointOf(t), NoBody), "Collection deleted successfully")
    case _ =>
      Answer(OpName(t), Call(b, c, EndpointOf(t), NoBody))
  }

  /** A log tool: without a client it fails before any request, otherwise it makes its one client call. */
  function Handle(ctx: Context, b: Backend, t: LogTool): (r: Traced<Reply>)
    ensures LogchefClientFromContext(ctx).None? ==> r.result == Failure(MissingClient) && r.sent == []
    ensures LogchefClientFromContext(ctx).Some? ==> r == Invoke(b, LogchefClientFromContext(ctx).value, t)
  {
    WithClient(ctx, (c: Client) => Invoke(b, c, t))
  }

  /** Every log tool issues exactly one request, to its own client method. */
  lemma OneRequestEach(b: Backend, c: Client, t: LogTool)
    ensures var r := Invoke(b, c, t);
            && |r.sent| == 1 && r.sent[0].verb == Endpoints.VerbOf(EndpointOf(t))
            && r.sent[0].url == c.config.baseURL + Endpoints.Path(EndpointOf(t))
  {
  }

  /** A log tool's failure is its client call's error behind the tool's operation name. */
  lemma FailureNamesOperation(b: Backend, c: Client, t: LogTool)
    ensures var r := Invoke(b, c, t);
            r.result.Failure? ==> |OpName(t)| + 2 <= |r.result.error| && r.result.error[..|OpName(t)| + 2] == OpName(t) + ": "
  {
    var r := Invoke(b, c, t);
    if r.result.Failure? {
      assert exists e :: r.result.error == OpName(t) + ": " + e;
    }
  }

  /** The two clamps composed: the limit sent is the caller's when it is 1 to 100, and 100 otherwise. */
  lemma SentLimit(limit: int)
    ensures ClientLimit(ToolLimit(limit)) == (if 1 <= limit <= MaxLimit then limit else MaxLimit)
  {
  }

  /**
   * `query_logs` end to end: the one request sent carries the caller's SQL,
   * the composed limit, which is always between 1 and 100, and the caller's
   * timeout or 30.
   */
  lemma QueryLogsSends(ctx: Context, b: Backend, t: LogTool)
    requires t.QueryLogsTool?
    requires LogchefClientFromContext(ctx).Some?
    ensures var r := Handle(ctx, b, t);
            && |r.sent| == 1 && r.sent[0].body.LogQuery?
            && var q := r.sent[0].body.query;
            && q.rawSQL == t.rawSQL
            && 1 <= q.limit <= MaxLimit
            && q.limit == (if 1 <= t.limit <= MaxLimit then t.limit else MaxLimit)
            && q.queryTimeout == Some(if t.queryTimeout.Some? then t.queryTimeout.value else DefaultQueryTimeout)
  {
    SentLimit(t.limit);
  }

  /** `get_log_histogram` end to end: every field reaches the request unchanged, the timeout defaulting to 30. */
  lemma HistogramSends(ctx: Context, b: Backend, t: LogTool)
    requires t.GetLogHistogramTool?
    requires LogchefClientFromContext(ctx).Some?
    ensures var r := Handle(ctx, b, t);
            && |r.sent| == 1 && r.sent[0].body.Histogram?
            && var h := r.sent[0].body.histogram;
            && h.rawSQL == t.rawSQL && h.window == t.window && h.groupBy == t.groupBy && h.timezone == t.timezone
            && h.queryTimeout == Some(if t.queryTimeout.Some? then t.queryTimeout.value else DefaultQueryTimeout)
  {
  }

  /** `delete_collection` acknowledges only a call the server answered with 204. */
  lemma DeleteCollectionAcks(ctx: Context, b: Backend, t: LogTool)
    requires t.DeleteCollectionTool?
    requires LogchefClientFromContext(ctx).Some?
    ensures var r := Handle(ctx, b, t);
            var res := b.send(r.sent[0]);
            && |r.sent| == 1
            && (r.result.Success? <==> res.Response? && res.status == 204)
            && (r.result.Success? ==> r.result.value == Ack(true, "Collection deleted successfully"))
  {
  }
}
