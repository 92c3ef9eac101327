/**
 * The server set-up of `cmd/logchef-mcp/main.go`: which tool categories are
 * registered, given the comma-separated enabled list and the per-category
 * disable flags, and which transport names `run` accepts.
 */
module Server {
  import opened Wrappers
  import opened GoStrings

  datatype Category = ProfileTools | SourcesTools | LogsTools | AdminTools

  /** The name a category goes by in the enabled list. */
  function Name(c: Category): string
  {
    match c
    case ProfileTools => "profile"
    case SourcesTools => "sources"
    case LogsTools => "logs"
    case AdminTools => "admin"
  }

  /** The order in which `addTools` considers the categories. */
  const Categories: seq<Category> := [ProfileTools, SourcesTools, LogsTools, AdminTools]

  function Rank(c: Category): nat
  {
    match c
    case ProfileTools => 0
    case SourcesTools => 1
    case LogsTools => 2
    case AdminTools => 3
  }

  const DefaultEnabledTools: string := "profile,sources,logs,admin"

  /** `disabledTools`: the enabled list and one disable flag per category. */
  datatype DisabledTools = DisabledTools(enabledTools: string, profile: bool, sources: bool, logs: bool, admin: bool)

  /** The flag defaults of `addFlags`: every category listed, none disabled. */
  const Defaults: DisabledTools := DisabledTools(DefaultEnabledTools, false, false, false, false)

  function Disabled(dt: DisabledTools, c: Category): bool
  {
    match c
    case ProfileTools => dt.profile
    case SourcesTools => dt.sources
    case LogsTools => dt.logs
    case AdminTools => dt.admin
  }

  /** `maybeAddTools`' test: the name is one of the pieces, compared exactly, and the flag is off. */
  predicate Admitted(enabled: seq<string>, disable: bool, c: Category)
  {
    Name(c) in enabled && !disable
  }

  /** What `maybeAddTools` adds: the category when admitted, nothing otherwise. */
  function Admission(enabled: seq<string>, disable: bool, c: Category): seq<Category>
  {
    if Admitted(enabled, disable, c) then [c] else []
  }

  function StepFor(enabled: seq<string>, dt: DisabledTools, c: Category): seq<Category>
  {
    Admission(enabled, Disabled(dt, c), c)
  }

  /** The categories registered for these pieces of the enabled list, in `addTools`' order. */
  function Selected(enabled: seq<string>, dt: DisabledTools): seq<Category>
  {
    StepFor(enabled, dt, ProfileTools) + StepFor(enabled, dt, SourcesTools)
    + StepFor(enabled, dt, LogsTools) + StepFor(enabled, dt, AdminTools)
  }

  /** The categories `addTools` registers. */
  function Registered(dt: DisabledTools): seq<Category>
  {
    Selected(Split(dt.enabledTools, ','), dt)
  }

  /** A server, reduced to the tool categories registered on it so far. */
  class McpServer {
    var registered: seq<Category>

    constructor()
      ensures registered == []
    {
      registered := [];
    }

    /** `maybeAddTools`: register the category's tools if it is listed and not disabled. */
    method MaybeAddTools(enabled: seq<string>, disable: bool, category: Category)
      modifies this
      ensures registered == old(registered) + Admission(enabled, disable, category)
    {
      if Name(category) !in enabled {
        return;
      }
      if disable {
        return;
      }
      registered := registered + [category];
    }

    /** `addTools`: split the enabled list once, then each category in the fixed order. */
    method AddTools(dt: DisabledTools)
      modifies this
      ensures registered == old(registered) + Registered(dt)
    {
      var enabled := Split(dt.enabledTools, ',');
      AddSelected(enabled, dt);
    }

    /** The four `maybeAddTools` calls of `addTools`, in order. */
    method AddSelected(enabled: seq<string>, dt: DisabledTools)
      modifies this
      ensures registered == old(registered) + Selected(enabled, dt)
    {
      ghost var start := registered;
      MaybeAddTools(enabled, dt.profile, ProfileTools);
      MaybeAddTools(enabled, dt.sources, SourcesTools);
      MaybeAddTools(enabled, dt.logs, LogsTools);
      MaybeAddTools(enabled, dt.admin, AdminTools);
      AppendFour(start, StepFor(enabled, dt, ProfileTools), StepFor(enabled, dt, SourcesTools),
                 StepFor(enabled, dt, LogsTools), StepFor(enabled, dt, AdminTools));
    }
  }

  lemma AppendFour(s: seq<Category>, a: seq<Category>, b: seq<Category>, c: seq<Category>, d: seq<Category>)
    ensures s + a + b + c + d == s + (a + b + c + d)
  {
  }

  /** `newServer`: a fresh server with the tools of the enabled, undisabled categories. */
  method NewServer(dt: DisabledTools) returns (s: McpServer)
    ensures fresh(s)
    ensures s.registered == Registered(dt)
  {
    s := new McpServer();
    s.AddTools(dt);
  }

  /**
   * A category is registered exactly when its name is one of the pieces of the
   * enabled list and its flag is off; a category not listed stays out whatever
   * its flag.
   */
  lemma RegisteredIff(dt: DisabledTools, c: Category)
    ensures c in Registered(dt) <==> Name(c) in Split(dt.enabledTools, ',') && !Disabled(dt, c)
  {
    var enabled := Split(dt.enabledTools, ',');
    if c in Selected(enabled, dt) {
      assert c in StepFor(enabled, dt, c);
    }
  }

  /** The registered categories follow the fixed order, each at most once. */
  lemma RegisteredInOrder(dt: DisabledTools)
    ensures forall i, j :: 0 <= i < j < |Registered(dt)| ==> Rank(Registered(dt)[i]) < Rank(Registered(dt)[j])
  {
  }

  /** Four separator-free names joined by commas split back into those names. */
  lemma SplitFour(a: string, b: string, c: string, d: string)
    requires ',' !in a && ',' !in b && ',' !in c && ',' !in d
    ensures Split(a + [','] + b + [','] + c + [','] + d, ',') == [a, b, c, d]
  {
    var bcd := b + [','] + c + [','] + d;
    CommaJoinAssoc(a, b, c, d);
    SplitThree(b, c, d);
    SplitPrefix(a, bcd, ',');
  }

  /** Regrouping a comma-joined list of four after its first piece. */
  lemma CommaJoinAssoc(a: string, b: string, c: string, d: string)
    ensures a + [','] + b + [','] + c + [','] + d == a + [','] + (b + [','] + c + [','] + d)
  {
  }

  /** Regrouping a comma-joined list of three after its first piece. */
  lemma CommaJoinAssoc3(b: string, c: string, d: string)
    ensures b + [','] + c + [','] + d == b + [','] + (c + [','] + d)
  {
  }

  lemma SplitThree(b: string, c: string, d: string)
    requires ',' !in b && ',' !in c && ',' !in d
    ensures Split(b + [','] + c + [','] + d, ',') == [b, c, d]
  {
    var cd := c + [','] + d;
    SplitNoSeparator(d, ',');
    SplitPrefix(c, d, ',');
    CommaJoinAssoc3(b, c, d);
    SplitPrefix(b, cd, ',');
  }

  /** An enabled list of four separator-free names registers by those four pieces. */
  lemma RegisteredFromFour(dt: DisabledTools, a: string, b: string, c: string, d: string)
    requires ',' !in a && ',' !in b && ',' !in c && ',' !in d
    requires dt.enabledTools == a + [','] + b + [','] + c + [','] + d
    ensures Registered(dt) == Selected([a, b, c, d], dt)
  {
    SplitFour(a, b, c, d);
  }

  /** With the default flags, all four categories are registered, in the fixed order. */
  lemma DefaultsRegisterAll()
    ensures Registered(Defaults) == Categories
  {
    DefaultsNameAll();
    AllNamedAllRegistered(Defaults, Name(ProfileTools), Name(SourcesTools), Name(LogsTools), Name(AdminTools));
  }

  /** An enabled list of two separator-free names registers by those two pieces. */
  lemma RegisteredFromTwo(dt: DisabledTools, a: string, b: string)
    requires ',' !in a && ',' !in b
    requires dt.enabledTools == a + [','] + b
    ensures Registered(dt) == Selected([a, b], dt)
  {
    SplitNoSeparator(b, ',');
    SplitPrefix(a, b, ',');
  }

  /** A list naming the four categories in order, with no flag set, registers all four, in order. */
  lemma AllNamedAllRegistered(dt: DisabledTools, a: string, b: string, c: string, d: string)
    requires a == Name(ProfileTools) && b == Name(SourcesTools) && c == Name(LogsTools) && d == Name(AdminTools)
    requires dt.enabledTools == a + [','] + b + [','] + c + [','] + d
    requires !dt.profile && !dt.sources && !dt.logs && !dt.admin
    ensures Registered(dt) == Categories
  {
    RegisteredFromFour(dt, a, b, c, d);
  }

  /** The defaults list the four category names in order and set no flag. */
  lemma DefaultsNameAll()
    ensures Defaults.enabledTools
            == Name(ProfileTools) + [','] + Name(SourcesTools) + [','] + Name(LogsTools) + [','] + Name(AdminTools)
    ensures !Defaults.profile && !Defaults.sources && !Defaults.logs && !Defaults.admin
  {
  }

  /** Pieces are not trimmed: in "profile, logs" the piece " logs" does not name the logs category. */
  lemma NoTrimming(dt: DisabledTools, a: string, b: string)
    requires a == Name(ProfileTools) && b == " " + Name(LogsTools)
    requires dt.enabledTools == a + [','] + b
    requires !dt.profile && !dt.sources && !dt.logs && !dt.admin
    ensures Registered(dt) == [ProfileTools]
  {
    RegisteredFromTwo(dt, a, b);
    assert |b| == 5 && b[0] == ' ';
    assert Name(SourcesTools) !in [a, b] && Name(LogsTools) !in [a, b] && Name(AdminTools) !in [a, b];
  }

  // ---- transports ----

  datatype Transport = Stdio | Sse | StreamableHttp

  function TransportName(t: Transport): string
  {
    match t
    case Stdio => "stdio"
    case Sse => "sse"
    case StreamableHttp => "streamable-http"
  }

  /** The transport switch of `run`: any other name is rejected with the message naming it. */
  function ParseTransport(name: string): (r: Result<Transport>)
    ensures r.Failure? ==> r.error == "Invalid transport type: " + name + ". Must be 'stdio', 'sse', or 'streamable-http'"
  {
    if name == "stdio" then Success(Stdio)
    else if name == "sse" then Success(Sse)
    else if name == "streamable-http" then Success(StreamableHttp)
    else Failure("Invalid transport type: " + name + ". Must be 'stdio', 'sse', or 'streamable-http'")
  }

  /** Exactly the three transport names are accepted, and each reads back as itself. */
  lemma ParseTransportExact(name: string)
    ensures ParseTransport(name).Success? <==> name in ["stdio", "sse", "streamable-http"]
    ensures ParseTransport(name).Success? ==> TransportName(ParseTransport(name).value) == name
  {
  }

  /** Every transport's name parses back to it. */
  lemma TransportRoundTrip(t: Transport)
    ensures ParseTransport(TransportName(t)) == Success(t)
  {
  }
}
