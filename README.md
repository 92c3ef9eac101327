# logchef-mcp, modelled in Dafny

logchef-mcp is an MCP server. It exposes a log-analytics backend (Logchef) to
MCP clients as tools. This project models its decision-making layer around the
REST client and proves properties about it:

- **Source aggregation** (`tools/sources.go`). `get_sources` fetches the caller's teams,
  then each team's sources in team order, and merges them into one entry per source ID.
  The first record seen is kept, and each occurrence adds a `{ID, Name, Role}` team entry.
  Any failed fetch aborts the call. `get_team_sources` passes one team's sources through.
- **Configuration and context** (`mcplogchef.go`).
  - The Logchef URL and API key come from the environment, the request headers or the defaults.
  - The typed context accessors fall back to defaults when a key is absent.
  - The stdio, SSE and streamable-HTTP context pipelines run their steps left to right.
- **Tool-category gate and transports** (`cmd/logchef-mcp/main.go`). A category is registered
  when it is an exact piece of the comma-split enabled list and its disable flag is off.
  `run` accepts exactly three transport names.
- **Admin guard** (`tools/admin.go`).
  - `checkAdminRole` demands the role `"admin"` exactly.
  - Thirteen handlers run the check before their privileged client call; the others do not.
  - `create_source` converts its schema entry by entry.
  - The delete-style handlers acknowledge with fixed messages.
- **Request normalisation** (`tools/logs.go`, `client/client.go`).
  - The limit is clamped in two stages, by the tool and then by the client.
  - A missing query timeout defaults to 30 and a zero client timeout to 30 s.
  - Each client method has a path template, a verb, one accepted status and an `Authorization` rule.

How the model is built:

- **HTTP** is an oracle. `Client.Backend.send` answers each request with a transport error or
  with a status and body. The JSON decoders are functions in the same record.
- **Requests sent.** A client call returns a `Traced` value: the outcome plus every request
  sent, in order. So "the privileged call is never made" is a statement about that list.
- **Environment and headers** are input maps. `os.LookupEnv` tells an unset variable from one
  set to `""`.
- **`url.Parse`** is the predicate `urlOK`. A URL it rejects is a panic in Go and a `Failure` here.
- **Context** is an immutable map from keys to values.
- **Imperative parts.** Code that changes state step by step is written as methods:
  - the team loop and its inner merge loop;
  - the map-to-slice loop;
  - the schema loop over a preallocated array;
  - the context-composition loop;
  - the server's `registered` field, which `maybeAddTools` extends.

  Each method is proved against a specification function. Lemmas then state the promised
  properties of that function.

Files:

- `wrappers.dfy`: `Option` and `Result`.
- `gostrings.dfy`: `strings.TrimRight`, `strings.Split` and `strings.Join`.
- `decimal.dfy`: `%d`.
- `endpoints.dfy`: the 36 client methods.
- `client.dfy`: the client.
- `tools_support.dfy`: the shared client lookup and error wrapping.
- `logchef_context.dfy`, `sources.dfy`, `logs.dfy`, `admin.dfy` and `server.dfy`: one per core file.

Behaviour of the code worth noting, which the model keeps:

- **Repeated team entries.** A source's team list is not deduplicated. The code appends one
  entry per occurrence. A team that lists a source twice, or appears twice among the caller's
  teams, gives repeated entries. `Sources.DuplicateListingRepeatsTeam` and
  `Sources.DuplicateTeamRepeatsTeam` show both cases.
- **Trailing slashes.** `strings.TrimRight` removes every trailing `/` from the environment
  URL, not just one (`GoStrings.TrimRight`).
- **Order of the steps.** The client steps do not read the URL and key that the info step
  stored. They derive both again from the environment and the headers. So swapping the two
  HTTP steps gives the same context (`LogchefContext.HttpInfoAndClientCommute`). In the stdio
  pipeline, the context URL is trimmed but the client's URL is not
  (`LogchefContext.StdioTrailingSlashExample`).

## Model

| member | source | states |
|---|---|---|
| Sources.GetSources | tools/sources.go:55-107 | Without a client: the missing-client error and no request. Otherwise: exactly the teams request and then the source requests of `Aggregate`, the same error on failure, and on success a list that holds each merged entry exactly once |
| Sources.TeamLoop | tools/sources.go:71-98 | The nested loops send exactly the requests of `Collect`. They fail exactly when `Collect` fails, with its error. On success the map equals `MergeAll` of the collected listing |
| Sources.MapToList | tools/sources.go:100-104 | The map-to-slice loop gives as many elements as the map has entries. Every element is one of the map's values, every entry's value is listed, and each key is used once, in some order |
| Sources.ListedOnce | tools/sources.go:100-104 | A listing by distinct keys that cover a well-formed map holds each entry once, and each under its own source ID |
| Sources.MergeFromEmpty | tools/sources.go:68-98 | After the merge, the map's keys are exactly the IDs in the listing. Each entry is filed under its own source's ID. It holds the first record seen with that ID. Its teams are one entry per occurrence, in team order, and there is at least one |
| Sources.MergeAllAt | tools/sources.go:71-98 | The team loop, per ID: the ID is present iff it was already present or is listed. Its teams are the earlier teams followed by `Grants`. Its record is the earlier one, or else the first listed |
| Sources.MergeSourcesAt | tools/sources.go:78-97 | One team's inner loop, per ID: a known ID keeps its record and gains one entry per occurrence. A new ID takes its first occurrence |
| Sources.FirstInIsFirst | tools/sources.go:79-96 | The record kept is the one at the earliest position that holds the ID, and there is one iff the ID is listed |
| Sources.TeamGrantsCountOccurrences | tools/sources.go:79-96 | A team contributes as many entries as the ID occurs in its list, each equal to `{team.ID, team.Name, team.Role}` |
| Sources.DuplicateListingRepeatsTeam | tools/sources.go:79-85 | A team that lists one source twice appears twice on it |
| Sources.DuplicateTeamRepeatsTeam | tools/sources.go:71-85 | A team that is listed twice appears twice on its source |
| Sources.CollectSuccess | tools/sources.go:71-98 | A team loop without a failure fetches every team, in order, and pairs each team with its own fetch's sources |
| Sources.CollectFailure | tools/sources.go:72-75 | A failed team loop stopped at the first team whose fetch failed. It fetched the teams up to that one and no further, and its error is "get sources for team <id>: …" |
| Sources.CollectStopsAtFailure | tools/sources.go:72-75 | Once a prefix of the teams has failed, the later teams are never fetched and change nothing |
| Sources.FetchedRequests | tools/sources.go:71-72 | The team loop's requests are one `GetTeamSources` request per team, with that team's ID, in team order |
| Sources.FetchedOnePerTeam | tools/sources.go:71-72 | A fetch that sends one request per team sends, over all the teams, those requests in order |
| Sources.Aggregate | tools/sources.go:61-98 | The teams request comes first. If it fails, nothing else is sent and the error is "get user teams: …". Otherwise the team loop follows, its failure is returned as is, and on success the merged map is the result |
| Sources.NoTeamsNoSources | tools/sources.go:68-106 | A caller in no team gets an empty result, with no error, after the one teams request |
| Sources.Collect | tools/sources.go:71-76 | Defines the team loop's fetches: one per team, in order. It stops at the first failure, with "get sources for team <id>: …". `CollectSuccess`, `CollectFailure` and `CollectStopsAtFailure` state its properties |
| Sources.MergeSource | tools/sources.go:79-96 | Defines one step of the inner loop: a known ID gains one `{ID, Name, Role}` team entry, and a new ID gets the source and that single entry. `MergeSourcesAt` states the effect per ID |
| Sources.MergeSources | tools/sources.go:78-97 | Defines the inner loop over one team's sources, in order. `MergeSourcesAt` states its effect per ID |
| Sources.MergeAll | tools/sources.go:71-98 | Defines the outer loop's merge over the collected listing, team by team. `MergeAllAt` and `MergeFromEmpty` state its effect against `AllIds`, `Grants` and `FirstOf` |
| Sources.GetTeamSourcesTool | tools/sources.go:41-53 | Without a client it fails before any request. Otherwise it sends one request and passes the sources through, or prefixes the error with "get team sources: " |
| ToolSupport.WithClient | tools/sources.go:56-59 | Without a client in the context, a handler fails with "Logchef client not found in context" and sends nothing |
| ToolSupport.Wrap | tools/sources.go:47-50 | A failure is the call's error behind "<op>: ". A success passes through. The requests are unchanged |
| ToolSupport.Answer | tools/logs.go:99-104 | The reply is the client's value or the error behind "<op>: ", and the requests are unchanged |
| ToolSupport.Acknowledge | tools/logs.go:222-230 | `{Success: true, Message}` exactly when the call succeeded, or else the wrapped error |
| LogchefContext.LogchefDebugFromContext | mcplogchef.go:56-61 | False when the key is absent; true only when `true` was stored |
| LogchefContext.LogchefURLFromContext | mcplogchef.go:111-116 | The default URL when absent; any other value is the stored one |
| LogchefContext.LogchefAPIKeyFromContext | mcplogchef.go:119-124 | "" when absent; any other value is the stored one |
| LogchefContext.LogchefClientFromContext | mcplogchef.go:188-194 | nil when absent; any client returned is the stored one |
| LogchefContext.WithLogchefDebug | mcplogchef.go:47-52 | The flag is stored under the debug key, and every other entry is kept |
| LogchefContext.WithLogchefURL | mcplogchef.go:101-103 | The URL is stored under the URL key, and every other entry is kept |
| LogchefContext.WithLogchefAPIKey | mcplogchef.go:106-108 | The key is stored under the API-key key, and every other entry is kept |
| LogchefContext.WithLogchefClient | mcplogchef.go:183-185 | The client, possibly nil, is stored under the client key, and every other entry is kept |
| LogchefContext.AccessorsRoundTrip | mcplogchef.go:101-124 | Each accessor reads back what its `With` stored, and each `With` leaves the other accessors' readings unchanged |
| LogchefContext.EmptyContextDefaults | mcplogchef.go:111-124 | An empty context reads as false, the default URL, "" and nil |
| LogchefContext.URLAndAPIKeyFromEnv | mcplogchef.go:28-32 | The URL is the variable with every trailing `/` removed, and nothing else removed. The key is the variable verbatim |
| LogchefContext.ResolveFromHeaders | mcplogchef.go:85-98 | URL: a non-empty header wins, then the trimmed env value, then the default. Key: a non-empty header, else the env value, with no default |
| LogchefContext.NewLogchefClient | mcplogchef.go:129-144 | An empty URL becomes the default. The client is built iff `url.Parse` accepts it, with that URL, the key and the 30 s timeout |
| LogchefContext.InfoFromEnv | mcplogchef.go:65-76 | Stores the trimmed env URL (or the default when it is empty) and the env key. It touches no other key, and panics iff the URL does not parse |
| LogchefContext.InfoFromHeaders | mcplogchef.go:85-98 | Stores the header-first URL and key, unparsed, and touches no other key |
| LogchefContext.ClientFromEnv | mcplogchef.go:148-158 | Succeeds iff `url.Parse` accepts the URL used: the looked-up variable, untrimmed, or the default when it is unset or empty. On success it adds only the client entry, and every other entry keeps its value. The client carries that URL, the `LOGCHEF_API_KEY` value and a 30 s timeout |
| LogchefContext.ClientFromHeaders | mcplogchef.go:162-178 | Succeeds iff `url.Parse` accepts the header-first URL. On success it adds only the client entry, and every other entry keeps its value. The client carries the header-first URL and key and a 30 s timeout |
| LogchefContext.Compose | mcplogchef.go:197-204 | The loop runs the steps left to right, each consuming the previous context, and stops at the first panic |
| LogchefContext.FoldAppend | mcplogchef.go:197-204 | Running `a` and then `b` is running `a + b` |
| LogchefContext.FoldUnits | mcplogchef.go:197-204 | The empty composition is the identity, and a one-step composition is that step |
| LogchefContext.BindRequest | mcplogchef.go:207-214 | Fixing the request turns each HTTP step into a stdio step that applies it to that request |
| LogchefContext.ComposeHttp | mcplogchef.go:216-224 | The SSE and HTTP composition is the left fold of the steps with the request fixed |
| LogchefContext.ComposedStdioOutcome | mcplogchef.go:228-236 | The stdio pipeline yields the debug flag, the trimmed-or-default URL, the env key, and a client built from the untrimmed looked-up URL |
| LogchefContext.StdioTrailingSlashExample | mcplogchef.go:148-158 | With `LOGCHEF_URL=http://logs.example/`, the context URL loses the `/` but the client's URL keeps it |
| LogchefContext.ComposedHttpOutcome | mcplogchef.go:239-257 | The HTTP pipelines yield the debug flag and the header-first URL and key, and the client is built from that same URL and key |
| LogchefContext.HttpInfoAndClientCommute | mcplogchef.go:160-178 | The client step does not read what the info step stored: either order gives the same context |
| Server.McpServer.constructor | cmd/logchef-mcp/main.go:72-76 | A new server has no tool category registered |
| Server.McpServer.MaybeAddTools | cmd/logchef-mcp/main.go:24-35 | Registers the category iff its name is one of the pieces and its flag is off; otherwise nothing changes |
| Server.McpServer.AddTools | cmd/logchef-mcp/main.go:64-70 | Appends exactly `Registered(dt)` to the registered categories |
| Server.McpServer.AddSelected | cmd/logchef-mcp/main.go:66-69 | The four gate calls append their admissions in the order profile, sources, logs, admin |
| Server.NewServer | cmd/logchef-mcp/main.go:72-79 | A new server's categories are exactly `Registered(dt)` |
| Server.RegisteredIff | cmd/logchef-mcp/main.go:24-35 | A category is registered iff its name is a piece of the comma-split list and its flag is off, so an unlisted one stays out whatever its flag |
| Server.RegisteredInOrder | cmd/logchef-mcp/main.go:66-69 | The registered categories follow the fixed order, each at most once |
| Server.SplitFour | cmd/logchef-mcp/main.go:65 | Four comma-free names joined by commas split back into those four names |
| Server.RegisteredFromFour | cmd/logchef-mcp/main.go:65 | An enabled list of four comma-free names is gated by exactly those pieces |
| Server.RegisteredFromTwo | cmd/logchef-mcp/main.go:65 | An enabled list of two comma-free names is gated by exactly those pieces |
| Server.AllNamedAllRegistered | cmd/logchef-mcp/main.go:53-57 | The four names in order with no flag set register all four categories, in order |
| Server.DefaultsNameAll | cmd/logchef-mcp/main.go:53-57 | The flag defaults list the four names in order and set no disable flag |
| Server.DefaultsRegisterAll | cmd/logchef-mcp/main.go:53-79 | With the default flags, all four categories are registered, in the fixed order |
| Server.NoTrimming | cmd/logchef-mcp/main.go:25 | Pieces are compared exactly: "profile, logs" registers only profile |
| Server.ParseTransport | cmd/logchef-mcp/main.go:107-111 | A rejected name gets the error "Invalid transport type: <name>. Must be 'stdio', 'sse', or 'streamable-http'" |
| Server.ParseTransportExact | cmd/logchef-mcp/main.go:85-111 | Exactly the three names are accepted, and each reads back as itself |
| Server.TransportRoundTrip | cmd/logchef-mcp/main.go:85-111 | Every transport's name is accepted as that transport |
| Admin.CheckAdminRole | tools/admin.go:158-169 | Sends only the profile request. Succeeds iff the profile is fetched and its role is exactly "admin". A failed fetch gives "failed to get user profile: …" and any other role "access denied: admin role required" |
| Admin.DenialIsDistinct | tools/admin.go:159-166 | A failed check's message says which of the two causes it was |
| Admin.RequiresAdmin | tools/admin.go:173-705 | Defines the 13 handlers that run `checkAdminRole` first: list, create and delete team; list, get, create, update and delete user; list, create, validate and delete source; and source stats. `PrivilegedCallIff` states what the guard then guarantees |
| Admin.EndpointOf | tools/admin.go:173-705 | Defines the client method each of the 23 handlers calls, with the IDs from its arguments |
| Admin.OpName | tools/admin.go:173-705 | Defines the operation name each handler puts before a client error, as in its `fmt.Errorf` |
| Admin.AckMessage | tools/admin.go:254-685 | Defines the eight fixed acknowledgement messages. The other handlers return the client's reply. `AckOnlyAfterSuccess` states when a message is given |
| Admin.BodyOf | tools/admin.go:206-660 | Defines each handler's request body, built from its arguments in field order; `create_source` uses `SourceRequestOf` |
| Admin.Guarded | tools/admin.go:173-705 | Defines each handler after the client lookup: the guard, when the tool has one, then the call. `GuardBlocks`, `GuardAdmits` and `UnguardedSkipsProfile` state its behaviour |
| Admin.Handle | tools/admin.go:173-190 | Without a client it fails before any request. Otherwise it runs the guard, if the tool has one, and then the tool's call |
| Admin.Invoke | tools/admin.go:254-274 | A tool's privileged part sends exactly one request: its own client method, with its body |
| Admin.GuardBlocks | tools/admin.go:180-184 | A guarded tool whose check fails sends only the profile request. Its own call is never made, and it returns the guard's error unwrapped |
| Admin.GuardAdmits | tools/admin.go:180-188 | A guarded tool whose check passes sends the profile request and then its own call, and returns that call's outcome |
| Admin.UnguardedSkipsProfile | tools/admin.go:192-204 | A tool without the guard never requests the profile; its one request is its own call |
| Admin.PrivilegedCallIff | tools/admin.go:173-190 | The privileged call is made iff the tool is unguarded or the caller's role is exactly "admin" |
| Admin.AckOnlyAfterSuccess | tools/admin.go:265-273 | A fixed `{Success: true, Message}` is returned only after the client call succeeded |
| Admin.ConvertSchema | tools/admin.go:596-609 | The loop over the preallocated slice computes `ConvertedSchema` |
| Admin.ConvertedSchemaShape | tools/admin.go:596-609 | A nil schema stays nil and the length is kept. A column that is not the empty one carries exactly the entry's string "name" and "type" |
| Admin.ColumnRoundTrip | tools/admin.go:600-606 | A column given as a JSON object converts back to that same column |
| Admin.SourceRequestOf | tools/admin.go:611-624 | All nine scalar arguments are copied unchanged: name, description, host, database, table name, the auto-created flag, the timestamp and severity fields, and the TTL. The schema is the converted one |
| Logs.ToolLimit | tools/logs.go:85-91 | A negative limit becomes 0, one above 100 becomes 100, and 0 to 100 is kept |
| Logs.QueryRequestOf | tools/logs.go:93-97 | The SQL and the timeout are passed unchanged, and the limit is clamped |
| Logs.HistogramRequestOf | tools/logs.go:127-133 | Every field is copied unchanged |
| Logs.Handle | tools/logs.go:79-83 | Without a client it fails before any request; otherwise it makes the tool's call |
| Logs.Invoke | tools/logs.go:79-231 | Defines each log tool's one client call, with its wrapping or acknowledgement. `OneRequestEach` and `FailureNamesOperation` state its properties |
| Logs.EndpointOf | tools/logs.go:99-222 | Defines the client method each of the eight tools calls, with the IDs from its arguments |
| Logs.OpName | tools/logs.go:101-224 | Defines the operation name each tool puts before a client error, as in its `fmt.Errorf` |
| Logs.OneRequestEach | tools/logs.go:79-231 | Each log tool sends exactly one request, with its own method's verb and URL |
| Logs.FailureNamesOperation | tools/logs.go:99-102 | A log tool's error starts with its operation name followed by ": " |
| Logs.SentLimit | tools/logs.go:85-91 | With both clamps, a caller's limit of 1 to 100 is sent as given and any other limit as 100 |
| Logs.QueryLogsSends | tools/logs.go:79-105 | `query_logs` sends the caller's SQL, a limit between 1 and 100 (the composed clamp), and the caller's timeout or 30 |
| Logs.HistogramSends | tools/logs.go:121-141 | `get_log_histogram` sends every field unchanged, with the timeout defaulting to 30 |
| Logs.DeleteCollectionAcks | tools/logs.go:216-231 | `delete_collection` acknowledges iff the server answered 204 |
| Client.New | client/client.go:27-38 | A zero timeout becomes 30 s and any other value is kept. The URL and key are kept, and the HTTP client uses the same timeout |
| Client.NewIdempotent | client/client.go:27-38 | Building from a built client's configuration changes nothing |
| Client.Request | client/client.go:444-453 | The method's verb and body, plus `Authorization: Bearer <key>` on every method but `GetMeta` |
| Client.RequestRoute | client/client.go:588-589 | The URL is the base URL followed by a path that reads back, with the verb, as this method and these IDs |
| Client.RequestIdentifiesEndpoint | client/client.go:444-445 | Two requests from one client with the same verb and URL are for the same method and IDs |
| Client.Exchange | client/client.go:455-464 | One request is sent. A transport error gives "make request: <reason>". The call succeeds iff the status is the method's expected one, and its value is then the response body |
| Client.RejectedStatus | client/client.go:461-464 | An unexpected status gives "API request failed with status <n>: <body>" |
| Client.StatusErrorNamesStatus | client/client.go:461-464 | The status in that error reads back as the status |
| Client.Fetch | client/client.go:466-476 | Success iff the exchange succeeded and the body decoded, and the value is then the decoded one. An exchange error is passed on unchanged. A decode failure gives "unmarshal response: <error>" |
| Client.Exec | client/client.go:917-940 | A method returning only an error sends one request and succeeds iff the expected status came back |
| Client.Call | client/client.go:588-641 | A method whose reply the tools pass on sends exactly one request, for that method with that body |
| Client.GetProfile | client/client.go:444-477 | Sends exactly one request: the profile GET |
| Client.GetTeams | client/client.go:480-513 | Sends exactly one request: the GET for the caller's teams |
| Client.GetTeamSources | client/client.go:516-549 | Sends one GET for that team's sources |
| Client.ClientLimit | client/client.go:591-598 | A limit of 0 or less, or above 100, becomes 100; 1 to 100 is kept |
| Client.QueryTimeoutOrDefault | client/client.go:600-604 | A nil timeout becomes 30; a given one is kept |
| Client.NormalizeLogQuery | client/client.go:591-604 | The SQL is kept. A limit of 1 to 100 is kept, and any other limit becomes 100. A given timeout is kept, and a missing one becomes 30 |
| Client.NormalizeHistogram | client/client.go:719-723 | The SQL, window, grouping and time zone are kept. A given timeout is kept, and a missing one becomes 30 |
| Client.NormalizeIdempotent | client/client.go:591-604 | A normalised body is a fixed point of normalisation |
| Client.QueryLogs | client/client.go:588-641 | Sends one POST to the query path with the normalised body |
| Client.GetLogHistogram | client/client.go:716-760 | Sends one POST to the histogram path with the normalised body |
| Endpoints.ExpectedStatusTable | client/client.go:934 | The accepted status is 201 for the five creations, 204 for `DeleteCollection`, and 200 for everything else |
| Endpoints.RouteRoundTrip | client/client.go:589 | Reading back any method's verb and path gives that method and its IDs |
| Endpoints.RequestLineInjective | client/client.go:918 | No two methods, or two choices of IDs, share a verb and URL |
| Decimal.DecimalRoundTrip | client/client.go:463 | The `%d` rendering parses back to the number |
| Decimal.ItoaInjective | tools/sources.go:74 | Different team IDs render differently in the error message |
| GoStrings.TrimRight | mcplogchef.go:29 | Removes every trailing `/` and nothing else |
| GoStrings.Split | cmd/logchef-mcp/main.go:65 | At least one piece, no piece contains the separator, and joining the pieces gives back the input |
| GoStrings.SplitJoin | cmd/logchef-mcp/main.go:65 | Splitting undoes joining when no part contains the separator |

## Left out

- HTTP itself is out: building the request, `httpClient.Do`, reading the body and `json.Marshal`/`json.Unmarshal`. These are the `Backend` oracle and its decoders. The "create request", "marshal request" and "read response body" errors are not modelled. The `Content-Type` header is not modelled.
- `url.Parse` and `Redacted()` are the predicate `urlOK`. A panic is a `Failure`.
- `os.Getenv`, `os.LookupEnv` and `Header.Get` are input maps. Header-name canonicalisation is not modelled.
- slog logging has no behavioural effect.
- `flag` parsing, `main`, `parseLevel`, the version output, and starting the stdio, SSE and streamable-HTTP servers are process plumbing. Only the transport-name switch of `run` is modelled.
- `MustTool` and `Register` are left out; they generate schemas by reflection. So are the three handlers of `tools/profile.go`, which only call and wrap.
- The response structs are left out. Only the fields the tools read are kept: the profile role, the team ID, name and role, and the source fields.
- Null elements in the decoded team and source lists are not modelled. `TeamsResponse.Data` and `TeamSourcesResponse.Data` are slices of pointers (client/client.go:78, 106). A JSON `null` among them would make `team.ID` (tools/sources.go:72) or `source.ID` (tools/sources.go:79) dereference nil and panic. The decoders here give only real elements.
- Request structs with no rule of their own are a flat `Fields` list, in declaration order.
- Sources.MapToList: Go's map iteration order is unspecified. The method takes the entries in an arbitrary order, and properties of the output are stated up to order.
- Client.New: `New`, `QueryLogs` and `GetLogHistogram` update a copied struct field by field. Here they are functions that return the updated value, since the copy is never shared.
- Client.Call: states only the request it sends. Its reply is whatever the abstract decoder returns, and the tools pass it on without looking into it.
- Endpoints.ExpectedStatusTable: states the table for the 36 methods of the client in one place. It does not cite each method's status check separately.
