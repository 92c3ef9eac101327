/**
 * Resolution of the Logchef URL and API key, and the request context the
 * MCP server threads through its tools (`mcplogchef.go`).
 *
 * A context is an immutable map from keys to values; the four keys of this
 * package sit beside entries that other code stored (`Foreign`). The process
 * environment and the HTTP request headers are maps given as inputs, and
 * `url.Parse` is the predicate `urlOK`: a URL it rejects makes the Go code
 * panic, which is a `Failure` here. A context step either yields the next
 * context or fails, and a composed step runs its steps left to right.
 */
module LogchefContext {
  import opened Wrappers
  import opened GoStrings
  import Client

  const DefaultLogchefHost: string := "localhost:5173"
  const DefaultLogchefURL: string := "http://" + DefaultLogchefHost

  const URLEnvVar: string := "LOGCHEF_URL"
  const APIKeyEnvVar: string := "LOGCHEF_API_KEY"

  const URLHeader: string := "X-Logchef-URL"
  const APIKeyHeader: string := "X-Logchef-API-Key"

  // ---- inputs ----

  /** The process environment: a variable is either unset or set, possibly to "". */
  datatype Env = Env(vars: map<string, string>)

  /** `os.Getenv`: an unset variable reads as "". */
  function Getenv(env: Env, name: string): string
  {
    if name in env.vars then env.vars[name] else ""
  }

  /** `os.LookupEnv`: tells an unset variable from one set to "". */
  function LookupEnv(env: Env, name: string): Option<string>
  {
    if name in env.vars then Some(env.vars[name]) else None
  }

  /** The headers of one HTTP request; `Header.Get` of an absent header is "". */
  datatype Headers = Headers(fields: map<string, string>)

  function HeaderGet(h: Headers, name: string): string
  {
    if name in h.fields then h.fields[name] else ""
  }

  // ---- the context ----

  datatype Key = DebugKey | URLKey | APIKeyKey | ClientKey | Foreign(name: string)

  /** A stored client may itself be nil (`None`). */
  datatype Value = Flag(flag: bool) | Text(text: string) | BoundClient(client: Option<Client.Client>) | Opaque

  type Context = map<Key, Value>

  /** `r` holds what `ctx` holds under every key other than `key`. */
  ghost predicate AgreesElsewhere(ctx: Context, r: Context, key: Key)
  {
    forall k :: k != key ==> (k in r <==> k in ctx) && (k in ctx ==> r[k] == ctx[k])
  }

  /** `context.WithValue` under the debug key: the flag is stored, every other entry is kept. */
  function WithLogchefDebug(ctx: Context, debug: bool): (r: Context)
    ensures DebugKey in r && r[DebugKey] == Flag(debug)
    ensures AgreesElsewhere(ctx, r, DebugKey)
  {
    ctx[DebugKey := Flag(debug)]
  }

  /** `context.WithValue` under the URL key: the URL is stored, every other entry is kept. */
  function WithLogchefURL(ctx: Context, url: string): (r: Context)
    ensures URLKey in r && r[URLKey] == Text(url)
    ensures AgreesElsewhere(ctx, r, URLKey)
  {
    ctx[URLKey := Text(url)]
  }

  /** `context.WithValue` under the API-key key: the key is stored, every other entry is kept. */
  function WithLogchefAPIKey(ctx: Context, apiKey: string): (r: Context)
    ensures APIKeyKey in r && r[APIKeyKey] == Text(apiKey)
    ensures AgreesElsewhere(ctx, r, APIKeyKey)
  {
    ctx[APIKeyKey := Text(apiKey)]
  }

  /** `context.WithValue` under the client key: the client, possibly nil, is stored, every other entry is kept. */
  function WithLogchefClient(ctx: Context, c: Option<Client.Client>): (r: Context)
    ensures ClientKey in r && r[ClientKey] == BoundClient(c)
    ensures AgreesElsewhere(ctx, r, ClientKey)
  {
    ctx[ClientKey := BoundClient(c)]
  }

  /** The debug flag, false when absent. */
  function LogchefDebugFromContext(ctx: Context): (r: bool)
    ensures DebugKey !in ctx ==> !r
    ensures r ==> DebugKey in ctx && ctx[DebugKey] == Flag(true)
  {
    if DebugKey in ctx && ctx[DebugKey].Flag? then ctx[DebugKey].flag else false
  }

  /** The URL, the default URL when absent. */
  function LogchefURLFromContext(ctx: Context): (r: string)
    ensures URLKey !in ctx ==> r == DefaultLogchefURL
    ensures r != DefaultLogchefURL ==> URLKey in ctx && ctx[URLKey] == Text(r)
  {
    if URLKey in ctx && ctx[URLKey].Text? then ctx[URLKey].text else DefaultLogchefURL
  }

  /** The API key, "" when absent. */
  function LogchefAPIKeyFromContext(ctx: Context): (r: string)
    ensures APIKeyKey !in ctx ==> r == ""
    ensures r != "" ==> APIKeyKey in ctx && ctx[APIKeyKey] == Text(r)
  {
    if APIKeyKey in ctx && ctx[APIKeyKey].Text? then ctx[APIKeyKey].text else ""
  }

  /** The client, nil when absent. */
  function LogchefClientFromContext(ctx: Context): (r: Option<Client.Client>)
    ensures ClientKey !in ctx ==> r.None?
    ensures r.Some? ==> ClientKey in ctx && ctx[ClientKey] == BoundClient(r)
  {
    if ClientKey in ctx && ctx[ClientKey].BoundClient? then ctx[ClientKey].client else None
  }

  /** Each accessor reads back what its `With` stored, and a `With` leaves the other accessors' readings alone. */
  lemma AccessorsRoundTrip(ctx: Context, debug: bool, url: string, apiKey: string, c: Option<Client.Client>)
    ensures LogchefDebugFromContext(WithLogchefDebug(ctx, debug)) == debug
    ensures LogchefURLFromContext(WithLogchefURL(ctx, url)) == url
    ensures LogchefAPIKeyFromContext(WithLogchefAPIKey(ctx, apiKey)) == apiKey
    ensures LogchefClientFromContext(WithLogchefClient(ctx, c)) == c
    ensures LogchefURLFromContext(WithLogchefDebug(ctx, debug)) == LogchefURLFromContext(ctx)
    ensures LogchefAPIKeyFromContext(WithLogchefURL(ctx, url)) == LogchefAPIKeyFromContext(ctx)
    ensures LogchefURLFromContext(WithLogchefAPIKey(ctx, apiKey)) == LogchefURLFromContext(ctx)
    ensures LogchefClientFromContext(WithLogchefURL(WithLogchefAPIKey(WithLogchefDebug(ctx, debug), apiKey), url))
         == LogchefClientFromContext(ctx)
    ensures LogchefURLFromContext(WithLogchefClient(ctx, c)) == LogchefURLFromContext(ctx)
    ensures LogchefAPIKeyFromContext(WithLogchefClient(ctx, c)) == LogchefAPIKeyFromContext(ctx)
    ensures LogchefDebugFromContext(WithLogchefClient(ctx, c)) == LogchefDebugFromContext(ctx)
  {
  }

  /** The accessors of an empty context give their documented defaults. */
  lemma EmptyContextDefaults()
    ensures LogchefDebugFromContext(map[]) == false
    ensures LogchefURLFromContext(map[]) == DefaultLogchefURL
    ensures LogchefAPIKeyFromContext(map[]) == ""
    ensures LogchefClientFromContext(map[]) == None
  {
  }

  // ---- resolving the URL and the key ----

  /** The URL variable with every trailing `/` removed, and the key variable verbatim. */
  function URLAndAPIKeyFromEnv(env: Env): (r: (string, string))
    ensures r.0 <= Getenv(env, URLEnvVar)
    ensures r.0 == [] || r.0[|r.0| - 1] != '/'
    ensures forall i :: |r.0| <= i < |Getenv(env, URLEnvVar)| ==> Getenv(env, URLEnvVar)[i] == '/'
    ensures r.1 == Getenv(env, APIKeyEnvVar)
  {
    (TrimRight(Getenv(env, URLEnvVar), '/'), Getenv(env, APIKeyEnvVar))
  }

  function URLAndAPIKeyFromHeaders(h: Headers): (string, string)
  {
    (HeaderGet(h, URLHeader), HeaderGet(h, APIKeyHeader))
  }

  /**
   * The header-first resolution shared by both HTTP steps: a non-empty header
   * wins, then the (trimmed) environment value, then, for the URL only, the
   * default.
   */
  function ResolveFromHeaders(h: Headers, env: Env): (r: (string, string))
    ensures r.0 != ""
    ensures HeaderGet(h, URLHeader) != "" ==> r.0 == HeaderGet(h, URLHeader)
    ensures HeaderGet(h, URLHeader) == "" && URLAndAPIKeyFromEnv(env).0 != "" ==> r.0 == URLAndAPIKeyFromEnv(env).0
    ensures HeaderGet(h, URLHeader) == "" && URLAndAPIKeyFromEnv(env).0 == "" ==> r.0 == DefaultLogchefURL
    ensures HeaderGet(h, APIKeyHeader) != "" ==> r.1 == HeaderGet(h, APIKeyHeader)
    ensures HeaderGet(h, APIKeyHeader) == "" ==> r.1 == Getenv(env, APIKeyEnvVar)
  {
    var (u0, key0) := URLAndAPIKeyFromHeaders(h);
    var (uEnv, keyEnv) := URLAndAPIKeyFromEnv(env);
    var u1 := if u0 == "" then uEnv else u0;
    var u := if u1 == "" then DefaultLogchefURL else u1;
    var key := if key0 == "" then keyEnv else key0;
    (u, key)
  }

  /** `NewLogchefClient`: an empty URL becomes the default; a URL `url.Parse` rejects is a panic. */
  function NewLogchefClient(urlOK: string -> bool, logchefURL: string, apiKey: string): (r: Result<Client.Client>)
    ensures var u := if logchefURL == "" then DefaultLogchefURL else logchefURL;
            && (r.Success? <==> urlOK(u))
            && (r.Success? ==> r.value.config.baseURL == u && r.value.config.apiKey == apiKey
                               && r.value.config.timeout == Client.DefaultTimeout)
  {
    var u := if logchefURL == "" then DefaultLogchefURL else logchefURL;
    if !urlOK(u) then Failure("invalid Logchef URL: " + u)
    else Success(Client.New(Client.Config(u, apiKey, 0)))
  }

  // ---- context steps ----

  /** A stdio context function; `Failure` is a panic. */
  type Step = Context -> Result<Context>

  /** An SSE or streamable-HTTP context function, which also sees the request. */
  type HttpStep = (Context, Headers) -> Result<Context>

  function DebugStep(debug: bool): Step
  {
    ctx => Success(WithLogchefDebug(ctx, debug))
  }

  function HttpDebugStep(debug: bool): HttpStep
  {
    (ctx, h) => Success(WithLogchefDebug(ctx, debug))
  }

  /** `ExtractLogchefInfoFromEnv`: the trimmed env URL, or the default when that is empty, and the env key. */
  function InfoFromEnv(env: Env, urlOK: string -> bool, ctx: Context): (r: Result<Context>)
    ensures var u := if URLAndAPIKeyFromEnv(env).0 == "" then DefaultLogchefURL else URLAndAPIKeyFromEnv(env).0;
            && (r.Success? <==> urlOK(u))
            && (r.Success? ==> LogchefURLFromContext(r.value) == u
                               && LogchefAPIKeyFromContext(r.value) == Getenv(env, APIKeyEnvVar)
                               && r.value.Keys == ctx.Keys + {URLKey, APIKeyKey}
                               && forall k :: k in ctx && k != URLKey && k != APIKeyKey ==> r.value[k] == ctx[k])
  {
    var (u0, apiKey) := URLAndAPIKeyFromEnv(env);
    var u := if u0 == "" then DefaultLogchefURL else u0;
    if !urlOK(u) then Failure("invalid Logchef URL " + u)
    else Success(WithLogchefURL(WithLogchefAPIKey(ctx, apiKey), u))
  }

  /** `ExtractLogchefInfoFromHeaders`: the header-first resolution, stored without parsing. */
  function InfoFromHeaders(env: Env, ctx: Context, h: Headers): (r: Result<Context>)
    ensures r.Success?
    ensures LogchefURLFromContext(r.value) == ResolveFromHeaders(h, env).0
    ensures LogchefAPIKeyFromContext(r.value) == ResolveFromHeaders(h, env).1
    ensures r.value.Keys == ctx.Keys + {URLKey, APIKeyKey}
    ensures forall k :: k in ctx && k != URLKey && k != APIKeyKey ==> r.value[k] == ctx[k]
  {
    var (u, apiKey) := ResolveFromHeaders(h, env);
    Success(WithLogchefURL(WithLogchefAPIKey(ctx, apiKey), u))
  }

  /**
   * `r` is `ctx` with one entry added under the client key: a client for `u`
   * and `apiKey` whose configured and HTTP timeouts are the default 30 s.
   */
  ghost predicate AddsClient(ctx: Context, r: Context, u: string, apiKey: string)
  {
    && LogchefClientFromContext(r).Some?
    && LogchefClientFromContext(r).value.config == Client.Config(u, apiKey, Client.DefaultTimeout)
    && LogchefClientFromContext(r).value.httpTimeout == Client.DefaultTimeout
    && r.Keys == ctx.Keys + {ClientKey}
    && forall k :: k in ctx && k != ClientKey ==> r[k] == ctx[k]
  }

  /**
   * `ExtractLogchefClientFromEnv`: the URL variable is looked up, not trimmed;
   * only an unset variable takes the default here, and a variable set to ""
   * is defaulted by `NewLogchefClient`.
   */
  function ClientFromEnv(env: Env, urlOK: string -> bool, ctx: Context): (r: Result<Context>)
    ensures var looked := if LookupEnv(env, URLEnvVar).None? then DefaultLogchefURL else LookupEnv(env, URLEnvVar).value;
            var u := if looked == "" then DefaultLogchefURL else looked;
            && (r.Success? <==> urlOK(u))
            && (r.Success? ==> AddsClient(ctx, r.value, u, Getenv(env, APIKeyEnvVar)))
  {
    var u := match LookupEnv(env, URLEnvVar) case None => DefaultLogchefURL case Some(v) => v;
    var c :- NewLogchefClient(urlOK, u, Getenv(env, APIKeyEnvVar));
    Success(WithLogchefClient(ctx, Some(c)))
  }

  /** `ExtractLogchefClientFromHeaders`: the header-first resolution, handed to `NewLogchefClient`. */
  function ClientFromHeaders(env: Env, urlOK: string -> bool, ctx: Context, h: Headers): (r: Result<Context>)
    ensures r.Success? <==> urlOK(ResolveFromHeaders(h, env).0)
    ensures r.Success? ==> AddsClient(ctx, r.value, ResolveFromHeaders(h, env).0, ResolveFromHeaders(h, env).1)
  {
    var (u, apiKey) := ResolveFromHeaders(h, env);
    var c :- NewLogchefClient(urlOK, u, apiKey);
    Success(WithLogchefClient(ctx, Some(c)))
  }

  // ---- composition ----

  /** The context a list of steps produces: each step consumes the previous one's context; the first panic stops the run. */
  function Fold(steps: seq<Step>, ctx: Context): Result<Context>
    decreases |steps|
  {
    if |steps| == 0 then Success(ctx)
    else match steps[0](ctx)
      case Failure(e) => Failure(e)
      case Success(next) => Fold(steps[1..], next)
  }

  /** Running `a` then `b` is running `a + b`. */
  lemma {:induction false} FoldAppend(a: seq<Step>, b: seq<Step>, ctx: Context)
    ensures Fold(a + b, ctx) == match Fold(a, ctx) case Failure(e) => Failure(e) case Success(mid) => Fold(b, mid)
    decreases |a|
  {
    if |a| == 0 {
      assert a + b == b;
    } else {
      assert (a + b)[1..] == a[1..] + b;
      match a[0](ctx)
      case Failure(_) =>
      case Success(next) => FoldAppend(a[1..], b, next);
    }
  }

  /** The empty composition is the identity and a one-step composition is that step. */
  lemma FoldUnits(f: Step, ctx: Context)
    ensures Fold([], ctx) == Success(ctx)
    ensures Fold([f], ctx) == f(ctx)
  {
    assert [f][1..] == [];
  }

  /** `ComposeStdioContextFuncs`, applied: the loop reassigning `ctx` once per step, in order. */
  method Compose(steps: seq<Step>, ctx: Context) returns (r: Result<Context>)
    ensures r == Fold(steps, ctx)
  {
    var cur := ctx;
    var i := 0;
    while i < |steps|
      invariant 0 <= i <= |steps|
      invariant Fold(steps, ctx) == Fold(steps[i..], cur)
      decreases |steps| - i
    {
      match steps[i](cur) {
        case Failure(e) =>
          return Failure(e);
        case Success(next) =>
          assert steps[i..][1..] == steps[i + 1..];
          cur := next;
      }
      i := i + 1;
    }
    return Success(cur);
  }

  /** The HTTP steps with the request fixed, as `ComposeSSEContextFuncs` and `ComposeHTTPContextFuncs` run them. */
  function BindRequest(steps: seq<HttpStep>, h: Headers): (r: seq<Step>)
    ensures |r| == |steps|
    ensures forall i, ctx :: 0 <= i < |steps| ==> r[i](ctx) == steps[i](ctx, h)
  {
    seq(|steps|, i requires 0 <= i < |steps| => (ctx: Context) => steps[i](ctx, h))
  }

  /** `ComposeSSEContextFuncs` / `ComposeHTTPContextFuncs`, applied to one request. */
  method ComposeHttp(steps: seq<HttpStep>, ctx: Context, h: Headers) returns (r: Result<Context>)
    ensures r == Fold(BindRequest(steps, h), ctx)
  {
    r := Compose(BindRequest(steps, h), ctx);
  }

  /** `ComposedStdioContextFunc`: debug flag, then URL and key, then client. */
  function ComposedStdio(debug: bool, env: Env, urlOK: string -> bool): seq<Step>
  {
    [DebugStep(debug), ctx => InfoFromEnv(env, urlOK, ctx), ctx => ClientFromEnv(env, urlOK, ctx)]
  }

  /** `ComposedSSEContextFunc` and `ComposedHTTPContextFunc` (the two are the same list). */
  function ComposedHttp(debug: bool, env: Env, urlOK: string -> bool): seq<HttpStep>
  {
    [HttpDebugStep(debug), (ctx, h) => InfoFromHeaders(env, ctx, h), (ctx, h) => ClientFromHeaders(env, urlOK, ctx, h)]
  }

  /**
   * The stdio pipeline: with both URLs accepted, the context holds the debug
   * flag, the trimmed-or-default env URL, the env key, and a client whose base
   * URL is the looked-up variable, untrimmed.
   */
  lemma {:induction false} ComposedStdioOutcome(debug: bool, env: Env, urlOK: string -> bool, ctx: Context)
    requires URLAndAPIKeyFromEnv(env).0 != "" ==> urlOK(URLAndAPIKeyFromEnv(env).0)
    requires URLAndAPIKeyFromEnv(env).0 == "" ==> urlOK(DefaultLogchefURL)
    requires LookupEnv(env, URLEnvVar).Some? && LookupEnv(env, URLEnvVar).value != "" ==> urlOK(LookupEnv(env, URLEnvVar).value)
    ensures var r := Fold(ComposedStdio(debug, env, urlOK), ctx);
            && r.Success?
            && LogchefDebugFromContext(r.value) == debug
            && LogchefURLFromContext(r.value) == (if URLAndAPIKeyFromEnv(env).0 == "" then DefaultLogchefURL else URLAndAPIKeyFromEnv(env).0)
            && LogchefAPIKeyFromContext(r.value) == Getenv(env, APIKeyEnvVar)
            && LogchefClientFromContext(r.value).Some?
            && LogchefClientFromContext(r.value).value.config.baseURL
               == (if Getenv(env, URLEnvVar) == "" then DefaultLogchefURL else Getenv(env, URLEnvVar))
            && LogchefClientFromContext(r.value).value.config.apiKey == Getenv(env, APIKeyEnvVar)
  {
    var steps := ComposedStdio(debug, env, urlOK);
    var c1 := WithLogchefDebug(ctx, debug);
    assert steps[0](ctx) == Success(c1);
    var r2 := InfoFromEnv(env, urlOK, c1);
    assert r2.Success?;
    var r3 := ClientFromEnv(env, urlOK, r2.value);
    assert r3.Success?;
    assert Fold(steps, ctx) == Fold(steps[1..], c1);
    assert Fold(steps[1..], c1) == Fold(steps[2..], r2.value);
    assert Fold(steps[2..], r2.value) == Fold(steps[3..], r3.value);
    assert steps[3..] == [];
  }

  /** A trailing `/` in the environment reaches the stdio context trimmed but the stdio client untouched. */
  lemma StdioTrailingSlashExample(debug: bool, ctx: Context)
    ensures var env := Env(map[URLEnvVar := "http://logs.example/"]);
            var r := Fold(ComposedStdio(debug, env, u => true), ctx);
            && r.Success?
            && LogchefURLFromContext(r.value) == "http://logs.example"
            && LogchefClientFromContext(r.value).Some?
            && LogchefClientFromContext(r.value).value.config.baseURL == "http://logs.example/"
  {
    var env := Env(map[URLEnvVar := "http://logs.example/"]);
    assert TrimRight("http://logs.example/", '/') == "http://logs.example";
    ComposedStdioOutcome(debug, env, u => true, ctx);
  }

  /** The HTTP pipelines: the context URL and key are exactly the ones the client is built with. */
  lemma {:induction false} ComposedHttpOutcome(debug: bool, env: Env, urlOK: string -> bool, ctx: Context, h: Headers)
    requires urlOK(ResolveFromHeaders(h, env).0)
    ensures var r := Fold(BindRequest(ComposedHttp(debug, env, urlOK), h), ctx);
            && r.Success?
            && LogchefDebugFromContext(r.value) == debug
            && LogchefURLFromContext(r.value) == ResolveFromHeaders(h, env).0
            && LogchefAPIKeyFromContext(r.value) == ResolveFromHeaders(h, env).1
            && LogchefClientFromContext(r.value).Some?
            && LogchefClientFromContext(r.value).value.config.baseURL == LogchefURLFromContext(r.value)
            && LogchefClientFromContext(r.value).value.config.apiKey == LogchefAPIKeyFromContext(r.value)
  {
    var steps := BindRequest(ComposedHttp(debug, env, urlOK), h);
    var c1 := WithLogchefDebug(ctx, debug);
    assert steps[0](ctx) == Success(c1);
    var r2 := InfoFromHeaders(env, c1, h);
    assert steps[1](c1) == r2;
    var r3 := ClientFromHeaders(env, urlOK, r2.value, h);
    assert steps[2](r2.value) == r3;
    assert r3.Success?;
    assert Fold(steps, ctx) == Fold(steps[1..], c1);
    assert Fold(steps[1..], c1) == Fold(steps[2..], r2.value);
    assert Fold(steps[2..], r2.value) == Fold(steps[3..], r3.value);
    assert steps[3..] == [];
  }

  /** The client step re-derives URL and key itself: running it before the info step gives the same context. */
  lemma HttpInfoAndClientCommute(env: Env, urlOK: string -> bool, ctx: Context, h: Headers)
    ensures var infoFirst := InfoFromHeaders(env, ctx, h);
            var clientFirst := ClientFromHeaders(env, urlOK, ctx, h);
            && (ClientFromHeaders(env, urlOK, infoFirst.value, h).Success? <==> clientFirst.Success?)
            && (clientFirst.Success? ==>
                  ClientFromHeaders(env, urlOK, infoFirst.value, h) == InfoFromHeaders(env, clientFirst.value, h))
  {
    var (u, apiKey) := ResolveFromHeaders(h, env);
    var n := NewLogchefClient(urlOK, u, apiKey);
    if n.Success? {
      var a := WithLogchefClient(WithLogchefURL(WithLogchefAPIKey(ctx, apiKey), u), Some(n.value));
      var b := WithLogchefURL(WithLogchefAPIKey(WithLogchefClient(ctx, Some(n.value)), apiKey), u);
      assert a == b;
    }
  }
}
