/**
 * The admin tools (`tools/admin.go`): the profile-based admin guard, which
 * tools run it before their client call, the fixed acknowledgements, and the
 * schema conversion of `create_source`.
 */
module Admin {
  import opened Wrappers
  import opened Client
  import opened LogchefContext
  import opened ToolSupport
  import Endpoints

  const AdminRole: string := "admin"
  const AccessDenied: string := "access denied: admin role required"
  const ProfileFailure: string := "failed to get user profile: "

  // ---- the guard ----

  /** `checkAdminRole`: fetch the caller's profile and accept only the role "admin", compared exactly. */
  function CheckAdminRole(b: Backend, c: Client): (r: Traced<()>)
    ensures r.sent == [Request(c, Endpoints.GetProfile, NoBody)]
    ensures r.result.Success? <==> GetProfile(b, c).result.Success? && GetProfile(b, c).result.value.role == AdminRole
    ensures GetProfile(b, c).result.Failure? ==> r.result.error == ProfileFailure + GetProfile(b, c).result.error
    ensures GetProfile(b, c).result.Success? && r.result.Failure? ==> r.result.error == AccessDenied
  {
    var p := GetProfile(b, c);
    match p.result
    case Failure(e) => Traced(Failure(ProfileFailure + e), p.sent)
    case Success(profile) =>
      if profile.role != AdminRole then Traced(Failure(AccessDenied), p.sent) else Traced(Success(()), p.sent)
  }

  /** A denial can be told apart from a failed profile fetch by its message alone. */
  lemma DenialIsDistinct(b: Backend, c: Client)
    requires CheckAdminRole(b, c).result.Failure?
    ensures CheckAdminRole(b, c).result.error == AccessDenied <==> GetProfile(b, c).result.Success?
  {
    var r := CheckAdminRole(b, c);
    if GetProfile(b, c).result.Failure? {
      assert r.result.error[0] == ProfileFailure[0] != AccessDenied[0];
    }
  }

  // ---- the tools ----

  /** `client.LogColumn` as the MCP arguments give it: a JSON object whose values may be strings. */
  datatype Json = JString(s: string) | JOther

  type RawColumn = map<string, Json>

  datatype CreateSourceArgs = CreateSourceArgs(
    name: string, description: string,
    host: string, database: string, tableName: string,
    metaIsAutoCreated: bool, metaTsField: string, metaSeverityField: string,
    ttlDays: int, schema: Option<seq<RawColumn>>)

  /** The arguments of each admin tool. */
  datatype AdminTool =
    | ListAllTeamsTool
    | GetTeamTool(teamID: int)
    | CreateTeamTool(name: string, description: string)
    | UpdateTeamTool(teamID: int, newName: Option<string>, newDescription: Option<string>)
    | DeleteTeamTool(teamID: int)
    | ListTeamMembersTool(teamID: int)
    | AddTeamMemberTool(teamID: int, userID: int, role: string)
    | RemoveTeamMemberTool(teamID: int, userID: int)
    | LinkSourceToTeamTool(teamID: int, sourceID: int)
    | UnlinkSourceFromTeamTool(teamID: int, sourceID: int)
    | ListAllUsersTool
    | GetUserTool(userID: int)
    | CreateUserTool(email: string, fullName: string, role: string, status: string)
    | UpdateUserTool(userID: int, newEmail: Option<string>, newFullName: Option<string>,
                     newRole: Option<string>, newStatus: Option<string>)
    | DeleteUserTool(userID: int)
    | ListAPITokensTool
    | CreateAPITokenTool(name: string, expiresAt: Option<string>)
    | DeleteAPITokenTool(tokenID: int)
    | ListAllSourcesTool
    | CreateSourceTool(args: CreateSourceArgs)
    | ValidateSourceConnectionTool(host: string, database: string, tableName: string,
                                   timestampField: string, severityField: string)
    | DeleteSourceTool(sourceID: int)
    | GetAdminSourceStatsTool(sourceID: int)

  /** The tools whose handler runs `checkAdminRole` before its client call. */
  predicate RequiresAdmin(t: AdminTool)
  {
    || t.ListAllTeamsTool? || t.CreateTeamTool? || t.DeleteTeamTool?
    || t.ListAllUsersTool? || t.GetUserTool? || t.CreateUserTool? || t.UpdateUserTool? || t.DeleteUserTool?
    || t.ListAllSourcesTool? || t.CreateSourceTool? || t.ValidateSourceConnectionTool?
    || t.DeleteSourceTool? || t.GetAdminSourceStatsTool?
  }

  /** The client method each tool calls once past the guard. */
  function EndpointOf(t: AdminTool): Endpoints.Endpoint
  {
    match t
    case ListAllTeamsTool => Endpoints.ListAllTeams
    case GetTeamTool(team) => Endpoints.GetTeamByID(team)
    case CreateTeamTool(_, _) => Endpoints.CreateTeam
    case UpdateTeamTool(team, _, _) => Endpoints.UpdateTeam(team)
    case DeleteTeamTool(team) => Endpoints.DeleteTeam(team)
    case ListTeamMembersTool(team) => Endpoints.ListTeamMembers(team)
    case AddTeamMemberTool(team, _, _) => Endpoints.AddTeamMember(team)
    case RemoveTeamMemberTool(team, user) => Endpoints.RemoveTeamMember(team, user)
    case LinkSourceToTeamTool(team, _) => Endpoints.LinkSourceToTeam(team)
    case UnlinkSourceFromTeamTool(team, source) => Endpoints.UnlinkSourceFromTeam(team, source)
    case ListAllUsersTool => Endpoints.ListAllUsers
    case GetUserTool(user) => Endpoints.GetUserByID(user)
    case CreateUserTool(_, _, _, _) => Endpoints.CreateUser
    case UpdateUserTool(user, _, _, _, _) => Endpoints.UpdateUser(user)
    case DeleteUserTool(user) => Endpoints.DeleteUser(user)
    case ListAPITokensTool => Endpoints.ListAPITokens
    case CreateAPITokenTool(_, _) => Endpoints.CreateAPIToken
    case DeleteAPITokenTool(token) => Endpoints.DeleteAPIToken(token)
    case ListAllSourcesTool => Endpoints.ListAllSources
    case CreateSourceTool(_) => Endpoints.CreateSource
    case ValidateSourceConnectionTool(_, _, _, _, _) => Endpoints.ValidateSourceConnection
    case DeleteSourceTool(source) => Endpoints.DeleteSource(source)
    case GetAdminSourceStatsTool(source) => Endpoints.GetAdminSourceStats(source)
  }

  /** The operation name in front of a client error. */
  function OpName(t: AdminTool): string
  {
    match t
    case ListAllTeamsTool => "list all teams"
    case GetTeamTool(_) => "get team"
    case CreateTeamTool(_, _) => "create team"
    case UpdateTeamTool(_, _, _) => "update team"
    case DeleteTeamTool(_) => "delete team"
    case ListTeamMembersTool(_) => "list team members"
    case AddTeamMemberTool(_, _, _) => "add team member"
    case RemoveTeamMemberTool(_, _) => "remove team member"
    case LinkSourceToTeamTool(_, _) => "link source to team"
    case UnlinkSourceFromTeamTool(_, _) => "unlink source from team"
    case ListAllUsersTool => "list all users"
    case GetUserTool(_) => "get user"
    case CreateUserTool(_, _, _, _) => "create user"
    case UpdateUserTool(_, _, _, _, _) => "update user"
    case DeleteUserTool(_) => "delete user"
    case ListAPITokensTool => "list API tokens"
    case CreateAPITokenTool(_, _) => "create API token"
    case DeleteAPITokenTool(_) => "delete API token"
    case ListAllSourcesTool => "list all sources"
    case CreateSourceTool(_) => "create source"
    case ValidateSourceConnectionTool(_, _, _, _, _) => "validate source connection"
    case DeleteSourceTool(_) => "delete source"
    case GetAdminSourceStatsTool(_) => "get admin source stats"
  }

  /** The fixed message of the tools that answer `{Success: true, Message}` instead of the client's reply. */
  function AckMessage(t: AdminTool): Option<string>
  {
    match t
    case DeleteTeamTool(_) => Some("Team deleted successfully")
    case AddTeamMemberTool(_, _, _) => Some("Team member added successfully")
    case RemoveTeamMemberTool(_, _) => Some("Team member removed successfully")
    case LinkSourceToTeamTool(_, _) => Some("Source linked to team successfully")
    case UnlinkSourceFromTeamTool(_, _) => Some("Source unlinked from team successfully")
    case DeleteUserTool(_) => Some("User deleted successfully")
    case DeleteAPITokenTool(_) => Some("API token deleted successfully")
    case DeleteSourceTool(_) => Some("Source deleted successfully")
    case _ => None
  }

  function OptionalText(v: Option<string>): Field
  {
    if v.Some? then Field.Text(v.value) else Omitted
  }

  // ---- `create_source`'s schema conversion ----

  /** One column: both "name" and "type" must hold strings, otherwise the column stays the zero `LogColumn`. */
  function ColumnOf(col: RawColumn): LogColumn
  {
    if "name" in col && col["name"].JString? && "type" in col && col["type"].JString?
    then LogColumn(col["name"].s, col["type"].s)
    else LogColumn("", "")
  }

  /** The conversion as a whole: a nil schema stays nil, otherwise one column per entry, in order. */
  function ConvertedSchema(raw: Option<seq<RawColumn>>): Option<seq<LogColumn>>
  {
    match raw
    case None => None
    case Some(cols) => Some(seq(|cols|, i requires 0 <= i < |cols| => ColumnOf(cols[i])))
  }

  /** The JSON object of a column converts back to that column. */
  lemma ColumnRoundTrip(col: LogColumn)
    ensures ColumnOf(map["name" := JString(col.name), "type" := JString(col.columnType)]) == col
  {
    var m := map["name" := JString(col.name), "type" := JString(col.columnType)];
    assert "name" in m && "type" in m;
  }

  /**
   * The conversion keeps the schema's presence and length, and invents
   * nothing: a column that is not the empty one carries exactly the entry's
   * string "name" and "type".
   */
  lemma ConvertedSchemaShape(raw: Option<seq<RawColumn>>)
    ensures ConvertedSchema(raw).None? <==> raw.None?
    ensures raw.Some? ==>
              var out := ConvertedSchema(raw).value;
              && |out| == |raw.value|
              && forall i :: 0 <= i < |out| && out[i] != LogColumn("", "") ==>
                   && "name" in raw.value[i] && raw.value[i]["name"] == JString(out[i].name)
                   && "type" in raw.value[i] && raw.value[i]["type"] == JString(out[i].columnType)
  {
  }

  /** The loop of `createSource`: a slice of the schema's length, filled by index. */
  method ConvertSchema(raw: Option<seq<RawColumn>>) returns (schema: Option<seq<LogColumn>>)
    ensures schema == ConvertedSchema(raw)
  {
    if raw.None? {
      return None;
    }
    var cols := raw.value;
    var a := new LogColumn[|cols|](_ => LogColumn("", ""));
    for i := 0 to |cols|
      invariant forall k :: 0 <= k < i ==> a[k] == ColumnOf(cols[k])
      invariant forall k :: i <= k < |cols| ==> a[k] == LogColumn("", "")
    {
      var col := cols[i];
      if "name" in col && col["name"].JString? {
        if "type" in col && col["type"].JString? {
          a[i] := LogColumn(col["name"].s, col["type"].s);
        }
      }
    }
    assert a[..] == seq(|cols|, i requires 0 <= i < |cols| => ColumnOf(cols[i]));
    schema := Some(a[..]);
  }

  /** The request body `createSource` sends: the arguments with the converted schema. */
  function SourceRequestOf(args: CreateSourceArgs): (r: SourceRequest)
    ensures r.schema == ConvertedSchema(args.schema)
    ensures r.name == args.name && r.description == args.description
    ensures r.host == args.host && r.database == args.database && r.tableName == args.tableName
    ensures r.metaIsAutoCreated == args.metaIsAutoCreated
    ensures r.metaTsField == args.metaTsField && r.metaSeverityField == args.metaSeverityField
    ensures r.ttlDays == args.ttlDays
  {
    SourceRequest(args.name, args.description, args.host, args.database, args.tableName,
                  args.metaIsAutoCreated, args.metaTsField, args.metaSeverityField, args.ttlDays,
                  ConvertedSchema(args.schema))
  }

  /** The body of each tool's client call. */
  function BodyOf(t: AdminTool): Body
  {
    match t
    case CreateTeamTool(name, description) => Fields([Field.Text(name), Field.Text(description)])
    case UpdateTeamTool(_, name, description) => Fields([OptionalText(name), OptionalText(description)])
    case AddTeamMemberTool(_, user, role) => Fields([Number(user), Field.Text(role)])
    case LinkSourceToTeamTool(_, source) => Fields([Number(source)])
    case CreateUserTool(email, fullName, role, status) =>
      Fields([Field.Text(email), Field.Text(fullName), Field.Text(role), Field.Text(status)])
    case UpdateUserTool(_, email, fullName, role, status) =>
      Fields([OptionalText(email), OptionalText(fullName), OptionalText(role), OptionalText(status)])
    case CreateAPITokenTool(name, expiresAt) => Fields([Field.Text(name), OptionalText(expiresAt)])
    case CreateSourceTool(args) => NewSource(SourceRequestOf(args))
    case ValidateSourceConnectionTool(host, database, tableName, tsField, sevField) =>
      Fields([Field.Text(host), Field.Text(database), Field.Text(tableName), Field.Text(tsField), Field.Text(sevField)])
    case _ => NoBody
  }

  /** The privileged part of a tool: its one client call, wrapped or acknowledged. */
  function Invoke(b: Backend, c: Client, t: AdminTool): (r: Traced<Reply>)
    ensures r.sent == [Request(c, EndpointOf(t), BodyOf(t))]
  {
    match AckMessage(t)
    case Some(message) => Acknowledge(OpName(t), Exec(b, c, EndpointOf(t), BodyOf(t)), message)
    case None => Answer(OpName(t), Call(b, c, EndpointOf(t), BodyOf(t)))
  }

  /** The guard, then the client call, for the tools that require the admin role. */
  function Guarded(b: Backend, c: Client, t: AdminTool): Traced<Reply>
  {
    if !RequiresAdmin(t) then Invoke(b, c, t)
    else
      var g := CheckAdminRole(b, c);
      if g.result.Failure? then Traced(Failure(g.result.error), g.sent)
      else var p := Invoke(b, c, t); Traced(p.result, g.sent + p.sent)
  }

  /** An admin tool handler. */
  function Handle(ctx: Context, b: Backend, t: AdminTool): (r: Traced<Reply>)
    ensures LogchefClientFromContext(ctx).None? ==> r.result == Failure(MissingClient) && r.sent == []
    ensures LogchefClientFromContext(ctx).Some? ==> r == Guarded(b, LogchefClientFromContext(ctx).value, t)
  {
    WithClient(ctx, (c: Client) => Guarded(b, c, t))
  }

  // ---- what the guard guarantees ----

  /**
   * A guarded tool whose check fails sends the profile request and nothing
   * else: its own client call is never made, and the guard's error is returned
   * unwrapped.
   */
  lemma GuardBlocks(b: Backend, c: Client, t: AdminTool)
    requires RequiresAdmin(t)
    requires CheckAdminRole(b, c).result.Failure?
    ensures Guarded(b, c, t).sent == [Request(c, Endpoints.GetProfile, NoBody)]
    ensures Request(c, EndpointOf(t), BodyOf(t)) !in Guarded(b, c, t).sent
    ensures Guarded(b, c, t).result == Failure(CheckAdminRole(b, c).result.error)
  {
    if Request(c, EndpointOf(t), BodyOf(t)) == Request(c, Endpoints.GetProfile, NoBody) {
      RequestIdentifiesEndpoint(c, EndpointOf(t), BodyOf(t), Endpoints.GetProfile, NoBody);
      assert false;
    }
  }

  /** A guarded tool whose check passes makes the profile request, then its own call, and returns that call's outcome. */
  lemma GuardAdmits(b: Backend, c: Client, t: AdminTool)
    requires RequiresAdmin(t)
    requires CheckAdminRole(b, c).result.Success?
    ensures Guarded(b, c, t).sent == [Request(c, Endpoints.GetProfile, NoBody), Request(c, EndpointOf(t), BodyOf(t))]
    ensures Guarded(b, c, t).result == Invoke(b, c, t).result
  {
  }

  /** A tool without the guard never asks for the profile: its one request is its own call. */
  lemma UnguardedSkipsProfile(b: Backend, c: Client, t: AdminTool)
    requires !RequiresAdmin(t)
    ensures Guarded(b, c, t) == Invoke(b, c, t)
    ensures Guarded(b, c, t).sent == [Request(c, EndpointOf(t), BodyOf(t))]
    ensures Request(c, Endpoints.GetProfile, NoBody) !in Guarded(b, c, t).sent
  {
    if Request(c, EndpointOf(t), BodyOf(t)) == Request(c, Endpoints.GetProfile, NoBody) {
      RequestIdentifiesEndpoint(c, EndpointOf(t), BodyOf(t), Endpoints.GetProfile, NoBody);
      assert false;
    }
  }

  /**
   * Whether the privileged call happens at all: it does exactly when the
   * tool is unguarded or the caller's profile has the role "admin".
   */
  lemma PrivilegedCallIff(b: Backend, c: Client, t: AdminTool)
    ensures Request(c, EndpointOf(t), BodyOf(t)) in Guarded(b, c, t).sent
            <==> !RequiresAdmin(t) || (GetProfile(b, c).result.Success? && GetProfile(b, c).result.value.role == AdminRole)
  {
    if RequiresAdmin(t) && CheckAdminRole(b, c).result.Failure? {
      GuardBlocks(b, c, t);
    } else if RequiresAdmin(t) {
      GuardAdmits(b, c, t);
    }
  }

  /** An acknowledging tool reports success, with its fixed message, only after its client call succeeded. */
  lemma AckOnlyAfterSuccess(b: Backend, c: Client, t: AdminTool)
    requires AckMessage(t).Some?
    requires Guarded(b, c, t).result.Success?
    ensures Guarded(b, c, t).result.value == Ack(true, AckMessage(t).value)
    ensures Exec(b, c, EndpointOf(t), BodyOf(t)).result.Success?
  {
    assert Guarded(b, c, t).result == Invoke(b, c, t).result;
  }
}
