/**
 * The REST endpoints the API client talks to: one constructor per method of
 * the Go `client.Client`, carrying that method's integer path parameters in
 * signature order, with the HTTP verb, path template and the one status code
 * the method accepts as success.
 */
module Endpoints {
  import opened Wrappers
  import opened Decimal
  import opened GoStrings

  datatype Verb = GET | POST | PUT | DELETE

  datatype Endpoint =
    | GetProfile
    | GetTeams
    | GetTeamSources(teamID: int)
    | GetMeta
    | QueryLogs(teamID: int, sourceID: int)
    | GetSourceSchema(teamID: int, sourceID: int)
    | GetSourceStats(teamID: int, sourceID: int)
    | GetLogHistogram(teamID: int, sourceID: int)
    | GetCollections(teamID: int, sourceID: int)
    | CreateCollection(teamID: int, sourceID: int)
    | GetCollection(teamID: int, sourceID: int, collectionID: int)
    | UpdateCollection(teamID: int, sourceID: int, collectionID: int)
    | DeleteCollection(teamID: int, sourceID: int, collectionID: int)
    | ListAllTeams
    | GetTeamByID(teamID: int)
    | CreateTeam
    | UpdateTeam(teamID: int)
    | DeleteTeam(teamID: int)
    | ListTeamMembers(teamID: int)
    | AddTeamMember(teamID: int)
    | RemoveTeamMember(teamID: int, userID: int)
    | LinkSourceToTeam(teamID: int)
    | UnlinkSourceFromTeam(teamID: int, sourceID: int)
    | ListAllUsers
    | GetUserByID(userID: int)
    | CreateUser
    | UpdateUser(userID: int)
    | DeleteUser(userID: int)
    | ListAPITokens
    | CreateAPIToken
    | DeleteAPIToken(tokenID: int)
    | ListAllSources
    | CreateSource
    | ValidateSourceConnection
    | DeleteSource(sourceID: int)
    | GetAdminSourceStats(sourceID: int)

  function VerbOf(e: Endpoint): Verb
  {
    match e
    case QueryLogs(_, _) | GetLogHistogram(_, _) | CreateCollection(_, _) | CreateTeam
       | AddTeamMember(_) | LinkSourceToTeam(_) | CreateUser | CreateAPIToken | CreateSource
       | ValidateSourceConnection => POST
    case UpdateCollection(_, _, _) | UpdateTeam(_) | UpdateUser(_) => PUT
    case DeleteCollection(_, _, _) | DeleteTeam(_) | RemoveTeamMember(_, _)
       | UnlinkSourceFromTeam(_, _) | DeleteUser(_) | DeleteAPIToken(_) | DeleteSource(_) => DELETE
    case _ => GET
  }

  /** The path below `/api/v1/`, one string per `/`-separated segment; IDs are rendered with `%d`. */
  function Segments(e: Endpoint): seq<string>
  {
    match e
    case GetProfile => ["me"]
    case GetTeams => ["me", "teams"]
    case GetTeamSources(t) => ["teams", Itoa(t), "sources"]
    case GetMeta => ["meta"]
    case QueryLogs(t, s) => ["teams", Itoa(t), "sources", Itoa(s), "logs", "query"]
    case GetSourceSchema(t, s) => ["teams", Itoa(t), "sources", Itoa(s), "schema"]
    case GetSourceStats(t, s) => ["teams", Itoa(t), "sources", Itoa(s), "stats"]
    case GetLogHistogram(t, s) => ["teams", Itoa(t), "sources", Itoa(s), "logs", "histogram"]
    case GetCollections(t, s) => ["teams", Itoa(t), "sources", Itoa(s), "collections"]
    case CreateCollection(t, s) => ["teams", Itoa(t), "sources", Itoa(s), "collections"]
    case GetCollection(t, s, c) => ["teams", Itoa(t), "sources", Itoa(s), "collections", Itoa(c)]
    case UpdateCollection(t, s, c) => ["teams", Itoa(t), "sources", Itoa(s), "collections", Itoa(c)]
    case DeleteCollection(t, s, c) => ["teams", Itoa(t), "sources", Itoa(s), "collections", Itoa(c)]
    case ListAllTeams => ["admin", "teams"]
    case GetTeamByID(t) => ["teams", Itoa(t)]
    case CreateTeam => ["admin", "teams"]
    case UpdateTeam(t) => ["teams", Itoa(t)]
    case DeleteTeam(t) => ["admin", "teams", Itoa(t)]
    case ListTeamMembers(t) => ["teams", Itoa(t), "members"]
    case AddTeamMember(t) => ["teams", Itoa(t), "members"]
    case RemoveTeamMember(t, u) => ["teams", Itoa(t), "members", Itoa(u)]
    case LinkSourceToTeam(t) => ["teams", Itoa(t), "sources"]
    case UnlinkSourceFromTeam(t, s) => ["teams", Itoa(t), "sources", Itoa(s)]
    case ListAllUsers => ["admin", "users"]
    case GetUserByID(u) => ["admin", "users", Itoa(u)]
    case CreateUser => ["admin", "users"]
    case UpdateUser(u) => ["admin", "users", Itoa(u)]
    case DeleteUser(u) => ["admin", "users", Itoa(u)]
    case ListAPITokens => ["me", "tokens"]
    case CreateAPIToken => ["me", "tokens"]
    case DeleteAPIToken(k) => ["me", "tokens", Itoa(k)]
    case ListAllSources => ["admin", "sources"]
    case CreateSource => ["admin", "sources"]
    case ValidateSourceConnection => ["admin", "sources", "validate"]
    case DeleteSource(s) => ["admin", "sources", Itoa(s)]
    case GetAdminSourceStats(s) => ["admin", "sources", Itoa(s), "stats"]
  }

  const ApiPrefix: string := "/api/v1/"

  /** The part of the request URL after the base URL. */
  function Path(e: Endpoint): string
  {
    ApiPrefix + Join(Segments(e), '/')
  }

  /** The one status code the method accepts; any other status is an error. */
  function ExpectedStatus(e: Endpoint): int
  {
    match e
    case CreateCollection(_, _) | CreateTeam | CreateUser | CreateAPIToken | CreateSource => 201
    case DeleteCollection(_, _, _) => 204
    case _ => 200
  }

  /** Every method but `GetMeta` sends `Authorization: Bearer <key>`. */
  predicate SendsAuthorization(e: Endpoint)
  {
    !e.GetMeta?
  }

  /** Methods returning only `error` never read a successful response body. */
  predicate DecodesBody(e: Endpoint)
  {
    !(e.DeleteCollection? || e.DeleteTeam? || e.AddTeamMember? || e.RemoveTeamMember?
      || e.LinkSourceToTeam? || e.UnlinkSourceFromTeam? || e.DeleteUser? || e.DeleteAPIToken?
      || e.DeleteSource?)
  }

  /** Successes are 200 except for creations (201, all POST) and collection deletion (204, a DELETE). */
  lemma ExpectedStatusTable(e: Endpoint)
    ensures ExpectedStatus(e) in {200, 201, 204}
    ensures ExpectedStatus(e) == 201 ==> VerbOf(e) == POST && DecodesBody(e)
    ensures ExpectedStatus(e) == 204 <==> e.DeleteCollection?
    ensures VerbOf(e) == GET || VerbOf(e) == PUT ==> ExpectedStatus(e) == 200
    ensures VerbOf(e) == DELETE ==> ExpectedStatus(e) == (if e.DeleteCollection? then 204 else 200)
  {
  }

  // ---- reading a request line back: the templates are unambiguous ----

  function IdAt(p: seq<string>, i: nat): Option<int>
  {
    if i < |p| then ParseInt(p[i]) else None
  }

  /** The method addressed by a verb and a path, or None when no template matches. */
  function RouteOf(v: Verb, path: string): Option<Endpoint>
  {
    if |path| >= |ApiPrefix| && path[..|ApiPrefix|] == ApiPrefix then
      RouteOfSegments(v, Split(path[|ApiPrefix|..], '/'))
    else None
  }

  function RouteOfSegments(v: Verb, p: seq<string>): Option<Endpoint>
  {
    match v
    case GET => RouteOfGet(p)
    case POST => RouteOfPost(p)
    case PUT => RouteOfPut(p)
    case DELETE => RouteOfDelete(p)
  }

  function RouteOfGet(p: seq<string>): Option<Endpoint>
  {
    if |p| == 1 then
      if p[0] == "me" then Some(GetProfile)
      else if p[0] == "meta" then Some(GetMeta)
      else None
    else if |p| == 2 then
      if p[0] == "me" then
        if p[1] == "teams" then Some(GetTeams)
        else if p[1] == "tokens" then Some(ListAPITokens)
        else None
      else if p[0] == "admin" then
        if p[1] == "teams" then Some(ListAllTeams)
        else if p[1] == "users" then Some(ListAllUsers)
        else if p[1] == "sources" then Some(ListAllSources)
        else None
      else if p[0] == "teams" && IdAt(p, 1).Some? then Some(GetTeamByID(IdAt(p, 1).value))
      else None
    else if |p| == 3 then
      if p[0] == "admin" && p[1] == "users" && IdAt(p, 2).Some? then Some(GetUserByID(IdAt(p, 2).value))
      else if p[0] == "teams" && IdAt(p, 1).Some? then
        if p[2] == "sources" then Some(GetTeamSources(IdAt(p, 1).value))
        else if p[2] == "members" then Some(ListTeamMembers(IdAt(p, 1).value))
        else None
      else None
    else if |p| == 4 then
      if p[0] == "admin" && p[1] == "sources" && p[3] == "stats" && IdAt(p, 2).Some? then
        Some(GetAdminSourceStats(IdAt(p, 2).value))
      else None
    else if |p| == 5 || |p| == 6 then
      if p[0] == "teams" && p[2] == "sources" && IdAt(p, 1).Some? && IdAt(p, 3).Some? then
        var t, s := IdAt(p, 1).value, IdAt(p, 3).value;
        if |p| == 5 then
          if p[4] == "schema" then Some(GetSourceSchema(t, s))
          else if p[4] == "stats" then Some(GetSourceStats(t, s))
          else if p[4] == "collections" then Some(GetCollections(t, s))
          else None
        else if p[4] == "collections" && IdAt(p, 5).Some? then Some(GetCollection(t, s, IdAt(p, 5).value))
        else None
      else None
    else None
  }

  function RouteOfPost(p: seq<string>): Option<Endpoint>
  {
    if |p| == 2 then
      if p[0] == "admin" then
        if p[1] == "teams" then Some(CreateTeam)
        else if p[1] == "users" then Some(CreateUser)
        else if p[1] == "sources" then Some(CreateSource)
        else None
      else if p[0] == "me" && p[1] == "tokens" then Some(CreateAPIToken)
      else None
    else if |p| == 3 then
      if p[0] == "admin" && p[1] == "sources" && p[2] == "validate" then Some(ValidateSourceConnection)
      else if p[0] == "teams" && IdAt(p, 1).Some? then
        if p[2] == "members" then Some(AddTeamMember(IdAt(p, 1).value))
        else if p[2] == "sources" then Some(LinkSourceToTeam(IdAt(p, 1).value))
        else None
      else None
    else if |p| == 5 || |p| == 6 then
      if p[0] == "teams" && p[2] == "sources" && IdAt(p, 1).Some? && IdAt(p, 3).Some? then
        var t, s := IdAt(p, 1).value, IdAt(p, 3).value;
        if |p| == 5 then
          if p[4] == "collections" then Some(CreateCollection(t, s)) else None
        else if p[4] == "logs" then
          if p[5] == "query" then Some(QueryLogs(t, s))
          else if p[5] == "histogram" then Some(GetLogHistogram(t, s))
          else None
        else None
      else None
    else None
  }

  function RouteOfPut(p: seq<string>): Option<Endpoint>
  {
    if |p| == 2 && p[0] == "teams" && IdAt(p, 1).Some? then Some(UpdateTeam(IdAt(p, 1).value))
    else if |p| == 3 && p[0] == "admin" && p[1] == "users" && IdAt(p, 2).Some? then
      Some(UpdateUser(IdAt(p, 2).value))
    else if |p| == 6 && p[0] == "teams" && p[2] == "sources" && p[4] == "collections"
            && IdAt(p, 1).Some? && IdAt(p, 3).Some? && IdAt(p, 5).Some? then
      Some(UpdateCollection(IdAt(p, 1).value, IdAt(p, 3).value, IdAt(p, 5).value))
    else None
  }

  function RouteOfDelete(p: seq<string>): Option<Endpoint>
  {
    if |p| == 3 && IdAt(p, 2).Some? then
      var id := IdAt(p, 2).value;
      if p[0] == "admin" && p[1] == "teams" then Some(DeleteTeam(id))
      else if p[0] == "admin" && p[1] == "users" then Some(DeleteUser(id))
      else if p[0] == "admin" && p[1] == "sources" then Some(DeleteSource(id))
      else if p[0] == "me" && p[1] == "tokens" then Some(DeleteAPIToken(id))
      else None
    else if |p| == 4 && p[0] == "teams" && IdAt(p, 1).Some? && IdAt(p, 3).Some? then
      if p[2] == "members" then Some(RemoveTeamMember(IdAt(p, 1).value, IdAt(p, 3).value))
      else if p[2] == "sources" then Some(UnlinkSourceFromTeam(IdAt(p, 1).value, IdAt(p, 3).value))
      else None
    else if |p| == 6 && p[0] == "teams" && p[2] == "sources" && p[4] == "collections"
            && IdAt(p, 1).Some? && IdAt(p, 3).Some? && IdAt(p, 5).Some? then
      Some(DeleteCollection(IdAt(p, 1).value, IdAt(p, 3).value, IdAt(p, 5).value))
    else None
  }

  lemma NoSlashInItoa(n: int)
    ensures '/' !in Itoa(n)
  {
  }

  /** Reading back a path whose segments are recognised and free of `/` recovers the method. */
  lemma RoundTripFromSegments(e: Endpoint)
    requires RouteOfSegments(VerbOf(e), Segments(e)) == Some(e)
    requires forall i :: 0 <= i < |Segments(e)| ==> '/' !in Segments(e)[i]
    ensures RouteOf(VerbOf(e), Path(e)) == Some(e)
  {
    assert Path(e)[..|ApiPrefix|] == ApiPrefix && Path(e)[|ApiPrefix|..] == Join(Segments(e), '/');
    SplitJoin(Segments(e), '/');
  }

  lemma RecognizeGetProfile(p: seq<string>)
    requires |p| == 1 && p[0] == "me"
    ensures RouteOfGet(p) == Some(GetProfile)
    ensures forall i :: 0 <= i < |p| ==> '/' !in p[i]
  {
  }

  lemma RoundTripGetProfile()
    ensures RouteOf(VerbOf(GetProfile), Path(GetProfile)) == Some(GetProfile)
  {
    RecognizeGetProfile(Segments(GetProfile));
    RoundTripFromSegments(GetProfile);
  }

  lemma RecognizeGetTeams(p: seq<string>)
    requires |p| == 2 && p[0] == "me" && p[1] == "teams"
    ensures RouteOfGet(p) == Some(GetTeams)
    ensures forall i :: 0 <= i < |p| ==> '/' !in p[i]
  {
  }

  lemma RoundTripGetTeams()
    ensures RouteOf(VerbOf(GetTeams), Path(GetTeams)) == Some(GetTeams)
  {
    RecognizeGetTeams(Segments(GetTeams));
    RoundTripFromSegments(GetTeams);
  }

  lemma RecognizeGetTeamSources(p: seq<string>, t: int)
    requires |p| == 3 && p[0] == "teams" && p[1] == Itoa(t) && p[2] == "sources"
    ensures RouteOfGet(p) == Some(GetTeamSources(t))
    ensures forall i :: 0 <= i < |p| ==> '/' !in p[i]
  {
    DecimalRoundTrip(t);
    NoSlashInItoa(t);
  }

  lemma RoundTripGetTeamSources(t: int)
    ensures RouteOf(VerbOf(GetTeamSources(t)), Path(GetTeamSources(t))) == Some(GetTeamSources(t))
  {
    RecognizeGetTeamSources(Segments(GetTeamSources(t)), t);
    RoundTripFromSegments(GetTeamSources(t));
  }

  lemma RecognizeGetMeta(p: seq<string>)
    requires |p| == 1 && p[0] == "meta"
    ensures RouteOfGet(p) == Some(GetMeta)
    ensures forall i :: 0 <= i < |p| ==> '/' !in p[i]
  {
  }

  lemma RoundTripGetMeta()
    ensures RouteOf(VerbOf(GetMeta), Path(GetMeta)) == Some(GetMeta)
  {
    RecognizeGetMeta(Segments(GetMeta));
    RoundTripFromSegments(GetMeta);
  }

  lemma RecognizeQueryLogs(p: seq<string>, t: int, s: int)
    requires |p| == 6 && p[0] == "teams" && p[1] == Itoa(t) && p[2] == "sources" && p[3] == Itoa(s) && p[4] == "logs" && p[5] == "query"
    ensures RouteOfPost(p) == Some(QueryLogs(t, s))
    ensures forall i :: 0 <= i < |p| ==> '/' !in p[i]
  {
    DecimalRoundTrip(t); DecimalRoundTrip(s);
    NoSlashInItoa(t); NoSlashInItoa(s);
  }

  lemma RoundTripQueryLogs(t: int, s: int)
    ensures RouteOf(VerbOf(QueryLogs(t, s)), Path(QueryLogs(t, s))) == Some(QueryLogs(t, s))
  {
    RecognizeQueryLogs(Segments(QueryLogs(t, s)), t, s);
    RoundTripFromSegments(QueryLogs(t, s));
  }

  lemma RecognizeGetSourceSchema(p: seq<string>, t: int, s: int)
    requires |p| == 5 && p[0] == "teams" && p[1] == Itoa(t) && p[2] == "sources" && p[3] == Itoa(s) && p[4] == "schema"
    ensures RouteOfGet(p) == Some(GetSourceSchema(t, s))
    ensures forall i :: 0 <= i < |p| ==> '/' !in p[i]
  {
    DecimalRoundTrip(t); DecimalRoundTrip(s);
    NoSlashInItoa(t); NoSlashInItoa(s);
  }

  lemma RoundTripGetSourceSchema(t: int, s: int)
    ensures RouteOf(VerbOf(GetSourceSchema(t, s)), Path(GetSourceSchema(t, s))) == Some(GetSourceSchema(t, s))
  {
    RecognizeGetSourceSchema(Segments(GetSourceSchema(t, s)), t, s);
    RoundTripFromSegments(GetSourceSchema(t, s));
  }

  lemma RecognizeGetSourceStats(p: seq<string>, t: int, s: int)
    requires |p| == 5 && p[0] == "teams" && p[1] == Itoa(t) && p[2] == "sources" && p[3] == Itoa(s) && p[4] == "stats"
    ensures RouteOfGet(p) == Some(GetSourceStats(t, s))
    ensures forall i :: 0 <= i < |p| ==> '/' !in p[i]
  {
    DecimalRoundTrip(t); DecimalRoundTrip(s);
    NoSlashInItoa(t); NoSlashInItoa(s);
  }

  lemma RoundTripGetSourceStats(t: int, s: int)
    ensures RouteOf(VerbOf(GetSourceStats(t, s)), Path(GetSourceStats(t, s))) == Some(GetSourceStats(t, s))
  {
    RecognizeGetSourceStats(Segments(GetSourceStats(t, s)), t, s);
    RoundTripFromSegments(GetSourceStats(t, s));
  }

  lemma RecognizeGetLogHistogram(p: seq<string>, t: int, s: int)
    requires |p| == 6 && p[0] == "teams" && p[1] == Itoa(t) && p[2] == "sources" && p[3] == Itoa(s) && p[4] == "logs" && p[5] == "histogram"
    ensures RouteOfPost(p) == Some(GetLogHistogram(t, s))
    ensures forall i :: 0 <= i < |p| ==> '/' !in p[i]
  {
    DecimalRoundTrip(t); DecimalRoundTrip(s);
    NoSlashInItoa(t); NoSlashInItoa(s);
  }

  lemma RoundTripGetLogHistogram(t: int, s: int)
    ensures RouteOf(VerbOf(GetLogHistogram(t, s)), Path(GetLogHistogram(t, s))) == Some(GetLogHistogram(t, s))
  {
    RecognizeGetLogHistogram(Segments(GetLogHistogram(t, s)), t, s);
    RoundTripFromSegments(GetLogHistogram(t, s));
  }

  lemma RecognizeGetCollections(p: seq<string>, t: int, s: int)
    requires |p| == 5 && p[0] == "teams" && p[1] == Itoa(t) && p[2] == "sources" && p[3] == Itoa(s) && p[4] == "collections"
    ensures RouteOfGet(p) == Some(GetCollections(t, s))
    ensures forall i :: 0 <= i < |p| ==> '/' !in p[i]
  {
    DecimalRoundTrip(t); DecimalRoundTrip(s);
    NoSlashInItoa(t); NoSlashInItoa(s);
  }

  lemma RoundTripGetCollections(t: int, s: int)
    ensures RouteOf(VerbOf(GetCollections(t, s)), Path(GetCollections(t, s))) == Some(GetCollections(t, s))
  {
    RecognizeGetCollections(Segments(GetCollections(t, s)), t, s);
    RoundTripFromSegments(GetCollections(t, s));
  }

  lemma RecognizeCreateCollection(p: seq<string>, t: int, s: int)
    requires |p| == 5 && p[0] == "teams" && p[1] == Itoa(t) && p[2] == "sources" && p[3] == Itoa(s) && p[4] == "collections"
    ensures RouteOfPost(p) == Some(CreateCollection(t, s))
    ensures forall i :: 0 <= i < |p| ==> '/' !in p[i]
  {
    DecimalRoundTrip(t); DecimalRoundTrip(s);
    NoSlashInItoa(t); NoSlashInItoa(s);
  }

  lemma RoundTripCreateCollection(t: int, s: int)
    ensures RouteOf(VerbOf(CreateCollection(t, s)), Path(CreateCollection(t, s))) == Some(CreateCollection(t, s))
  {
    RecognizeCreateCollection(Segments(CreateCollection(t, s)), t, s);
    RoundTripFromSegments(CreateCollection(t, s));
  }

  lemma RecognizeGetCollection(p: seq<string>, t: int, s: int, c: int)
    requires |p| == 6 && p[0] == "teams" && p[1] == Itoa(t) && p[2] == "sources" && p[3] == Itoa(s) && p[4] == "collections" && p[5] == Itoa(c)
    ensures RouteOfGet(p) == Some(GetCollection(t, s, c))
    ensures forall i :: 0 <= i < |p| ==> '/' !in p[i]
  {
    DecimalRoundTrip(t); DecimalRoundTrip(s); DecimalRoundTrip(c);
    NoSlashInItoa(t); NoSlashInItoa(s); NoSlashInItoa(c);
  }

  lemma RoundTripGetCollection(t: int, s: int, c: int)
    ensures RouteOf(VerbOf(GetCollection(t, s, c)), Path(GetCollection(t, s, c))) == Some(GetCollection(t, s, c))
  {
    RecognizeGetCollection(Segments(GetCollection(t, s, c)), t, s, c);
    RoundTripFromSegments(GetCollection(t, s, c));
  }

  lemma RecognizeUpdateCollection(p: seq<string>, t: int, s: int, c: int)
    requires |p| == 6 && p[0] == "teams" && p[1] == Itoa(t) && p[2] == "sources" && p[3] == Itoa(s) && p[4] == "collections" && p[5] == Itoa(c)
    ensures RouteOfPut(p) == Some(UpdateCollection(t, s, c))
    ensures forall i :: 0 <= i < |p| ==> '/' !in p[i]
  {
    DecimalRoundTrip(t); DecimalRoundTrip(s); DecimalRoundTrip(c);
    NoSlashInItoa(t); NoSlashInItoa(s); NoSlashInItoa(c);
  }

  lemma RoundTripUpdateCollection(t: int, s: int, c: int)
    ensures RouteOf(VerbOf(UpdateCollection(t, s, c)), Path(UpdateCollection(t, s, c))) == Some(UpdateCollection(t, s, c))
  {
    RecognizeUpdateCollection(Segments(UpdateCollection(t, s, c)), t, s, c);
    RoundTripFromSegments(UpdateCollection(t, s, c));
  }

  lemma RecognizeDeleteCollection(p: seq<string>, t: int, s: int, c: int)
    requires |p| == 6 && p[0] == "teams" && p[1] == Itoa(t) && p[2] == "sources" && p[3] == Itoa(s) && p[4] == "collections" && p[5] == Itoa(c)
    ensures RouteOfDelete(p) == Some(DeleteCollection(t, s, c))
    ensures forall i :: 0 <= i < |p| ==> '/' !in p[i]
  {
    DecimalRoundTrip(t); DecimalRoundTrip(s); DecimalRoundTrip(c);
    NoSlashInItoa(t); NoSlashInItoa(s); NoSlashInItoa(c);
  }

  lemma RoundTripDeleteCollection(t: int, s: int, c: int)
    ensures RouteOf(VerbOf(DeleteCollection(t, s, c)), Path(DeleteCollection(t, s, c))) == Some(DeleteCollection(t, s, c))
  {
    RecognizeDeleteCollection(Segments(DeleteCollection(t, s, c)), t, s, c);
    RoundTripFromSegments(DeleteCollection(t, s, c));
  }

  lemma RecognizeListAllTeams(p: seq<string>)
    requires |p| == 2 && p[0] == "admin" && p[1] == "teams"
    ensures RouteOfGet(p) == Some(ListAllTeams)
    ensures forall i :: 0 <= i < |p| ==> '/' !in p[i]
  {
  }

  lemma RoundTripListAllTeams()
    ensures RouteOf(VerbOf(ListAllTeams), Path(ListAllTeams)) == Some(ListAllTeams)
  {
    RecognizeListAllTeams(Segments(ListAllTeams));
    RoundTripFromSegments(ListAllTeams);
  }

  lemma RecognizeGetTeamByID(p: seq<string>, t: int)
    requires |p| == 2 && p[0] == "teams" && p[1] == Itoa(t)
    ensures RouteOfGet(p) == Some(GetTeamByID(t))
    ensures forall i :: 0 <= i < |p| ==> '/' !in p[i]
  {
    DecimalRoundTrip(t);
    NoSlashInItoa(t);
  }

  lemma RoundTripGetTeamByID(t: int)
    ensures RouteOf(VerbOf(GetTeamByID(t)), Path(GetTeamByID(t))) == Some(GetTeamByID(t))
  {
    RecognizeGetTeamByID(Segments(GetTeamByID(t)), t);
    RoundTripFromSegments(GetTeamByID(t));
  }

  lemma RecognizeCreateTeam(p: seq<string>)
    requires |p| == 2 && p[0] == "admin" && p[1] == "teams"
    ensures RouteOfPost(p) == Some(CreateTeam)
    ensures forall i :: 0 <= i < |p| ==> '/' !in p[i]
  {
  }

  lemma RoundTripCreateTeam()
    ensures RouteOf(VerbOf(CreateTeam), Path(CreateTeam)) == Some(CreateTeam)
  {
    RecognizeCreateTeam(Segments(CreateTeam));
    RoundTripFromSegments(CreateTeam);
  }

  lemma RecognizeUpdateTeam(p: seq<string>, t: int)
    requires |p| == 2 && p[0] == "teams" && p[1] == Itoa(t)
    ensures RouteOfPut(p) == Some(UpdateTeam(t))
    ensures forall i :: 0 <= i < |p| ==> '/' !in p[i]
  {
    DecimalRoundTrip(t);
    NoSlashInItoa(t);
  }

  lemma RoundTripUpdateTeam(t: int)
    ensures RouteOf(VerbOf(UpdateTeam(t)), Path(UpdateTeam(t))) == Some(UpdateTeam(t))
  {
    RecognizeUpdateTeam(Segments(UpdateTeam(t)), t);
    RoundTripFromSegments(UpdateTeam(t));
  }

  lemma RecognizeDeleteTeam(p: seq<string>, t: int)
    requires |p| == 3 && p[0] == "admin" && p[1] == "teams" && p[2] == Itoa(t)
    ensures RouteOfDelete(p) == Some(DeleteTeam(t))
    ensures forall i :: 0 <= i < |p| ==> '/' !in p[i]
  {
    DecimalRoundTrip(t);
    NoSlashInItoa(t);
  }

  lemma RoundTripDeleteTeam(t: int)
    ensures RouteOf(VerbOf(DeleteTeam(t)), Path(DeleteTeam(t))) == Some(DeleteTeam(t))
  {
    RecognizeDeleteTeam(Segments(DeleteTeam(t)), t);
    RoundTripFromSegments(DeleteTeam(t));
  }

  lemma RecognizeListTeamMembers(p: seq<string>, t: int)
    requires |p| == 3 && p[0] == "teams" && p[1] == Itoa(t) && p[2] == "members"
    ensures RouteOfGet(p) == Some(ListTeamMembers(t))
    ensures forall i :: 0 <= i < |p| ==> '/' !in p[i]
  {
    DecimalRoundTrip(t);
    NoSlashInItoa(t);
  }

  lemma RoundTripListTeamMembers(t: int)
    ensures RouteOf(VerbOf(ListTeamMembers(t)), Path(ListTeamMembers(t))) == Some(ListTeamMembers(t))
  {
    RecognizeListTeamMembers(Segments(ListTeamMembers(t)), t);
    RoundTripFromSegments(ListTeamMembers(t));
  }

  lemma RecognizeAddTeamMember(p: seq<string>, t: int)
    requires |p| == 3 && p[0] == "teams" && p[1] == Itoa(t) && p[2] == "members"
    ensures RouteOfPost(p) == Some(AddTeamMember(t))
    ensures forall i :: 0 <= i < |p| ==> '/' !in p[i]
  {
    DecimalRoundTrip(t);
    NoSlashInItoa(t);
  }

  lemma RoundTripAddTeamMember(t: int)
    ensures RouteOf(VerbOf(AddTeamMember(t)), Path(AddTeamMember(t))) == Some(AddTeamMember(t))
  {
    RecognizeAddTeamMember(Segments(AddTeamMember(t)), t);
    RoundTripFromSegments(AddTeamMember(t));
  }

  lemma RecognizeRemoveTeamMember(p: seq<string>, t: int, u: int)
    requires |p| == 4 && p[0] == "teams" && p[1] == Itoa(t) && p[2] == "members" && p[3] == Itoa(u)
    ensures RouteOfDelete(p) == Some(RemoveTeamMember(t, u))
    ensures forall i :: 0 <= i < |p| ==> '/' !in p[i]
  {
    DecimalRoundTrip(t); DecimalRoundTrip(u);
    NoSlashInItoa(t); NoSlashInItoa(u);
  }

  lemma RoundTripRemoveTeamMember(t: int, u: int)
    ensures RouteOf(VerbOf(RemoveTeamMember(t, u)), Path(RemoveTeamMember(t, u))) == Some(RemoveTeamMember(t, u))
  {
    RecognizeRemoveTeamMember(Segments(RemoveTeamMember(t, u)), t, u);
    RoundTripFromSegments(RemoveTeamMember(t, u));
  }

  lemma RecognizeLinkSourceToTeam(p: seq<string>, t: int)
    requires |p| == 3 && p[0] == "teams" && p[1] == Itoa(t) && p[2] == "sources"
    ensures RouteOfPost(p) == Some(LinkSourceToTeam(t))
    ensures forall i :: 0 <= i < |p| ==> '/' !in p[i]
  {
    DecimalRoundTrip(t);
    NoSlashInItoa(t);
  }

  lemma RoundTripLinkSourceToTeam(t: int)
    ensures RouteOf(VerbOf(LinkSourceToTeam(t)), Path(LinkSourceToTeam(t))) == Some(LinkSourceToTeam(t))
  {
    RecognizeLinkSourceToTeam(Segments(LinkSourceToTeam(t)), t);
    RoundTripFromSegments(LinkSourceToTeam(t));
  }

  lemma RecognizeUnlinkSourceFromTeam(p: seq<string>, t: int, s: int)
    requires |p| == 4 && p[0] == "teams" && p[1] == Itoa(t) && p[2] == "sources" && p[3] == Itoa(s)
    ensures RouteOfDelete(p) == Some(UnlinkSourceFromTeam(t, s))
    ensures forall i :: 0 <= i < |p| ==> '/' !in p[i]
  {
    DecimalRoundTrip(t); DecimalRoundTrip(s);
    NoSlashInItoa(t); NoSlashInItoa(s);
  }

  lemma RoundTripUnlinkSourceFromTeam(t: int, s: int)
    ensures RouteOf(VerbOf(UnlinkSourceFromTeam(t, s)), Path(UnlinkSourceFromTeam(t, s))) == Some(UnlinkSourceFromTeam(t, s))
  {
    RecognizeUnlinkSourceFromTeam(Segments(UnlinkSourceFromTeam(t, s)), t, s);
    RoundTripFromSegments(UnlinkSourceFromTeam(t, s));
  }

  lemma RecognizeListAllUsers(p: seq<string>)
    requires |p| == 2 && p[0] == "admin" && p[1] == "users"
    ensures RouteOfGet(p) == Some(ListAllUsers)
    ensures forall i :: 0 <= i < |p| ==> '/' !in p[i]
  {
  }

  lemma RoundTripListAllUsers()
    ensures RouteOf(VerbOf(ListAllUsers), Path(ListAllUsers)) == Some(ListAllUsers)
  {
    RecognizeListAllUsers(Segments(ListAllUsers));
    RoundTripFromSegments(ListAllUsers);
  }

  lemma RecognizeGetUserByID(p: seq<string>, u: int)
    requires |p| == 3 && p[0] == "admin" && p[1] == "users" && p[2] == Itoa(u)
    ensures RouteOfGet(p) == Some(GetUserByID(u))
    ensures forall i :: 0 <= i < |p| ==> '/' !in p[i]
  {
    DecimalRoundTrip(u);
    NoSlashInItoa(u);
  }

  lemma RoundTripGetUserByID(u: int)
    ensures RouteOf(VerbOf(GetUserByID(u)), Path(GetUserByID(u))) == Some(GetUserByID(u))
  {
    RecognizeGetUserByID(Segments(GetUserByID(u)), u);
    RoundTripFromSegments(GetUserByID(u));
  }

  lemma RecognizeCreateUser(p: seq<string>)
    requires |p| == 2 && p[0] == "admin" && p[1] == "users"
    ensures RouteOfPost(p) == Some(CreateUser)
    ensures forall i :: 0 <= i < |p| ==> '/' !in p[i]
  {
  }

  lemma RoundTripCreateUser()
    ensures RouteOf(VerbOf(CreateUser), Path(CreateUser)) == Some(CreateUser)
  {
    RecognizeCreateUser(Segments(CreateUser));
    RoundTripFromSegments(CreateUser);
  }

  lemma RecognizeUpdateUser(p: seq<string>, u: int)
    requires |p| == 3 && p[0] == "admin" && p[1] == "users" && p[2] == Itoa(u)
    ensures RouteOfPut(p) == Some(UpdateUser(u))
    ensures forall i :: 0 <= i < |p| ==> '/' !in p[i]
  {
    DecimalRoundTrip(u);
    NoSlashInItoa(u);
  }

  lemma RoundTripUpdateUser(u: int)
    ensures RouteOf(VerbOf(UpdateUser(u)), Path(UpdateUser(u))) == Some(UpdateUser(u))
  {
    RecognizeUpdateUser(Segments(UpdateUser(u)), u);
    RoundTripFromSegments(UpdateUser(u));
  }

  lemma RecognizeDeleteUser(p: seq<string>, u: int)
    requires |p| == 3 && p[0] == "admin" && p[1] == "users" && p[2] == Itoa(u)
    ensures RouteOfDelete(p) == Some(DeleteUser(u))
    ensures forall i :: 0 <= i < |p| ==> '/' !in p[i]
  {
    DecimalRoundTrip(u);
    NoSlashInItoa(u);
  }

  lemma RoundTripDeleteUser(u: int)
    ensures RouteOf(VerbOf(DeleteUser(u)), Path(DeleteUser(u))) == Some(DeleteUser(u))
  {
    RecognizeDeleteUser(Segments(DeleteUser(u)), u);
    RoundTripFromSegments(DeleteUser(u));
  }

  lemma RecognizeListAPITokens(p: seq<string>)
    requires |p| == 2 && p[0] == "me" && p[1] == "tokens"
    ensures RouteOfGet(p) == Some(ListAPITokens)
    ensures forall i :: 0 <= i < |p| ==> '/' !in p[i]
  {
  }

  lemma RoundTripListAPITokens()
    ensures RouteOf(VerbOf(ListAPITokens), Path(ListAPITokens)) == Some(ListAPITokens)
  {
    RecognizeListAPITokens(Segments(ListAPITokens));
    RoundTripFromSegments(ListAPITokens);
  }

  lemma RecognizeCreateAPIToken(p: seq<string>)
    requires |p| == 2 && p[0] == "me" && p[1] == "tokens"
    ensures RouteOfPost(p) == Some(CreateAPIToken)
    ensures forall i :: 0 <= i < |p| ==> '/' !in p[i]
  {
  }

  lemma RoundTripCreateAPIToken()
    ensures RouteOf(VerbOf(CreateAPIToken), Path(CreateAPIToken)) == Some(CreateAPIToken)
  {
    RecognizeCreateAPIToken(Segments(CreateAPIToken));
    RoundTripFromSegments(CreateAPIToken);
  }

  lemma RecognizeDeleteAPIToken(p: seq<string>, k: int)
    requires |p| == 3 && p[0] == "me" && p[1] == "tokens" && p[2] == Itoa(k)
    ensures RouteOfDelete(p) == Some(DeleteAPIToken(k))
    ensures forall i :: 0 <= i < |p| ==> '/' !in p[i]
  {
    DecimalRoundTrip(k);
    NoSlashInItoa(k);
  }

  lemma RoundTripDeleteAPIToken(k: int)
    ensures RouteOf(VerbOf(DeleteAPIToken(k)), Path(DeleteAPIToken(k))) == Some(DeleteAPIToken(k))
  {
    RecognizeDeleteAPIToken(Segments(DeleteAPIToken(k)), k);
    RoundTripFromSegments(DeleteAPIToken(k));
  }

  lemma RecognizeListAllSources(p: seq<string>)
    requires |p| == 2 && p[0] == "admin" && p[1] == "sources"
    ensures RouteOfGet(p) == Some(ListAllSources)
    ensures forall i :: 0 <= i < |p| ==> '/' !in p[i]
  {
  }

  lemma RoundTripListAllSources()
    ensures RouteOf(VerbOf(ListAllSources), Path(ListAllSources)) == Some(ListAllSources)
  {
    RecognizeListAllSources(Segments(ListAllSources));
    RoundTripFromSegments(ListAllSources);
  }

  lemma RecognizeCreateSource(p: seq<string>)
    requires |p| == 2 && p[0] == "admin" && p[1] == "sources"
    ensures RouteOfPost(p) == Some(CreateSource)
    ensures forall i :: 0 <= i < |p| ==> '/' !in p[i]
  {
  }

  lemma RoundTripCreateSource()
    ensures RouteOf(VerbOf(CreateSource), Path(CreateSource)) == Some(CreateSource)
  {
    RecognizeCreateSource(Segments(CreateSource));
    RoundTripFromSegments(CreateSource);
  }

  lemma RecognizeValidateSourceConnection(p: seq<string>)
    requires |p| == 3 && p[0] == "admin" && p[1] == "sources" && p[2] == "validate"
    ensures RouteOfPost(p) == Some(ValidateSourceConnection)
    ensures forall i :: 0 <= i < |p| ==> '/' !in p[i]
  {
  }

  lemma RoundTripValidateSourceConnection()
    ensures RouteOf(VerbOf(ValidateSourceConnection), Path(ValidateSourceConnection)) == Some(ValidateSourceConnection)
  {
    RecognizeValidateSourceConnection(Segments(ValidateSourceConnection));
    RoundTripFromSegments(ValidateSourceConnection);
  }

  lemma RecognizeDeleteSource(p: seq<string>, s: int)
    requires |p| == 3 && p[0] == "admin" && p[1] == "sources" && p[2] == Itoa(s)
    ensures RouteOfDelete(p) == Some(DeleteSource(s))
    ensures forall i :: 0 <= i < |p| ==> '/' !in p[i]
  {
    DecimalRoundTrip(s);
    NoSlashInItoa(s);
  }

  lemma RoundTripDeleteSource(s: int)
    ensures RouteOf(VerbOf(DeleteSource(s)), Path(DeleteSource(s))) == Some(DeleteSource(s))
  {
    RecognizeDeleteSource(Segments(DeleteSource(s)), s);
    RoundTripFromSegments(DeleteSource(s));
  }

  lemma RecognizeGetAdminSourceStats(p: seq<string>, s: int)
    requires |p| == 4 && p[0] == "admin" && p[1] == "sources" && p[2] == Itoa(s) && p[3] == "stats"
    ensures RouteOfGet(p) == Some(GetAdminSourceStats(s))
    ensures forall i :: 0 <= i < |p| ==> '/' !in p[i]
  {
    DecimalRoundTrip(s);
    NoSlashInItoa(s);
  }

  lemma RoundTripGetAdminSourceStats(s: int)
    ensures RouteOf(VerbOf(GetAdminSourceStats(s)), Path(GetAdminSourceStats(s))) == Some(GetAdminSourceStats(s))
  {
    RecognizeGetAdminSourceStats(Segments(GetAdminSourceStats(s)), s);
    RoundTripFromSegments(GetAdminSourceStats(s));
  }

  /** Reading the verb and path of a method's request back yields that method and its IDs. */
  lemma RouteRoundTrip(e: Endpoint)
    ensures RouteOf(VerbOf(e), Path(e)) == Some(e)
  {
    match e {
      case GetProfile => RoundTripGetProfile();
      case GetTeams => RoundTripGetTeams();
      case GetTeamSources(t) => RoundTripGetTeamSources(t);
      case GetMeta => RoundTripGetMeta();
      case QueryLogs(t, s) => RoundTripQueryLogs(t, s);
      case GetSourceSchema(t, s) => RoundTripGetSourceSchema(t, s);
      case GetSourceStats(t, s) => RoundTripGetSourceStats(t, s);
      case GetLogHistogram(t, s) => RoundTripGetLogHistogram(t, s);
      case GetCollections(t, s) => RoundTripGetCollections(t, s);
      case CreateCollection(t, s) => RoundTripCreateCollection(t, s);
      case GetCollection(t, s, c) => RoundTripGetCollection(t, s, c);
      case UpdateCollection(t, s, c) => RoundTripUpdateCollection(t, s, c);
      case DeleteCollection(t, s, c) => RoundTripDeleteCollection(t, s, c);
      case ListAllTeams => RoundTripListAllTeams();
      case GetTeamByID(t) => RoundTripGetTeamByID(t);
      case CreateTeam => RoundTripCreateTeam();
      case UpdateTeam(t) => RoundTripUpdateTeam(t);
      case DeleteTeam(t) => RoundTripDeleteTeam(t);
      case ListTeamMembers(t) => RoundTripListTeamMembers(t);
      case AddTeamMember(t) => RoundTripAddTeamMember(t);
      case RemoveTeamMember(t, u) => RoundTripRemoveTeamMember(t, u);
      case LinkSourceToTeam(t) => RoundTripLinkSourceToTeam(t);
      case UnlinkSourceFromTeam(t, s) => RoundTripUnlinkSourceFromTeam(t, s);
      case ListAllUsers => RoundTripListAllUsers();
      case GetUserByID(u) => RoundTripGetUserByID(u);
      case CreateUser => RoundTripCreateUser();
      case UpdateUser(u) => RoundTripUpdateUser(u);
      case DeleteUser(u) => RoundTripDeleteUser(u);
      case ListAPITokens => RoundTripListAPITokens();
      case CreateAPIToken => RoundTripCreateAPIToken();
      case DeleteAPIToken(k) => RoundTripDeleteAPIToken(k);
      case ListAllSources => RoundTripListAllSources();
      case CreateSource => RoundTripCreateSource();
      case ValidateSourceConnection => RoundTripValidateSourceConnection();
      case DeleteSource(s) => RoundTripDeleteSource(s);
      case GetAdminSourceStats(s) => RoundTripGetAdminSourceStats(s);
    }
  }

  /** No two methods (or two ID choices) share a verb and a URL under the same base URL. */
  lemma RequestLineInjective(base: string, e1: Endpoint, e2: Endpoint)
    requires VerbOf(e1) == VerbOf(e2)
    requires base + Path(e1) == base + Path(e2)
    ensures e1 == e2
  {
    assert Path(e1) == (base + Path(e1))[|base|..];
    assert Path(e2) == (base + Path(e2))[|base|..];
    RouteRoundTrip(e1);
    RouteRoundTrip(e2);
  }
}
