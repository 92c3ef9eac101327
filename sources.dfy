/**
 * The source tools (`tools/sources.go`): `get_team_sources` passes one team's
 * sources through; `get_sources` fetches the caller's teams, then each team's
 * sources in team order, and merges them into one entry per source ID that
 * keeps the first record seen and lists a team entry for every occurrence.
 *
 * The specification functions below fold from the end of their sequence, so
 * that the loops of `GetSources` extend them one element at a time.
 */
module Sources {
  import opened Wrappers
  import opened Decimal
  import opened Client
  import opened LogchefContext
  import opened ToolSupport
  import Endpoints

  datatype TeamInfo = TeamInfo(id: int, name: string, role: string)

  datatype SourceWithTeams = SourceWithTeams(source: Source, teams: seq<TeamInfo>)

  function InfoOf(t: UserTeam): TeamInfo
  {
    TeamInfo(t.id, t.name, t.role)
  }

  /** Each team with the sources its fetch returned, in team order. */
  datatype TeamListing = TeamListing(team: UserTeam, sources: seq<Source>)

  type Listing = seq<TeamListing>

  type SourceMap = map<int, SourceWithTeams>

  // ---- the merge ----

  /** One step of the inner loop: a known ID gains a team entry, a new ID gets an entry with this team. */
  function MergeSource(m: SourceMap, t: UserTeam, s: Source): SourceMap
  {
    if s.id in m then m[s.id := m[s.id].(teams := m[s.id].teams + [InfoOf(t)])]
    else m[s.id := SourceWithTeams(s, [InfoOf(t)])]
  }

  function MergeSources(m: SourceMap, t: UserTeam, ss: seq<Source>): SourceMap
    decreases |ss|
  {
    if |ss| == 0 then m else MergeSource(MergeSources(m, t, ss[..|ss| - 1]), t, ss[|ss| - 1])
  }

  function MergeAll(m: SourceMap, ls: Listing): SourceMap
    decreases |ls|
  {
    if |ls| == 0 then m
    else MergeSources(MergeAll(m, ls[..|ls| - 1]), ls[|ls| - 1].team, ls[|ls| - 1].sources)
  }

  // ---- what the merge is meant to compute, stated independently ----

  function IdsOf(ss: seq<Source>): set<int>
  {
    set s | s in ss :: s.id
  }

  function AllIds(ls: Listing): set<int>
    decreases |ls|
  {
    if |ls| == 0 then {} else AllIds(ls[..|ls| - 1]) + IdsOf(ls[|ls| - 1].sources)
  }

  /** One entry for team `t` per occurrence of `id` in its list. */
  function TeamGrants(t: UserTeam, ss: seq<Source>, id: int): seq<TeamInfo>
    decreases |ss|
  {
    if |ss| == 0 then []
    else TeamGrants(t, ss[..|ss| - 1], id) + (if ss[|ss| - 1].id == id then [InfoOf(t)] else [])
  }

  /** All team entries for `id`, team by team in listing order. */
  function Grants(ls: Listing, id: int): seq<TeamInfo>
    decreases |ls|
  {
    if |ls| == 0 then []
    else Grants(ls[..|ls| - 1], id) + TeamGrants(ls[|ls| - 1].team, ls[|ls| - 1].sources, id)
  }

  /** The first source with this ID in a list. */
  function FirstIn(ss: seq<Source>, id: int): Option<Source>
    decreases |ss|
  {
    if |ss| == 0 then None
    else
      var p := FirstIn(ss[..|ss| - 1], id);
      if p.Some? then p else if ss[|ss| - 1].id == id then Some(ss[|ss| - 1]) else None
  }

  /** The first source with this ID across the listing, in team order. */
  function FirstOf(ls: Listing, id: int): Option<Source>
    decreases |ls|
  {
    if |ls| == 0 then None
    else
      var p := FirstOf(ls[..|ls| - 1], id);
      if p.Some? then p else FirstIn(ls[|ls| - 1].sources, id)
  }

  function IdSeq(ss: seq<Source>): seq<int>
  {
    seq(|ss|, i requires 0 <= i < |ss| => ss[i].id)
  }

  /** `FirstIn` finds exactly the earliest position holding the ID. */
  lemma {:induction false} FirstInIsFirst(ss: seq<Source>, id: int)
    ensures FirstIn(ss, id).Some? <==> id in IdsOf(ss)
    ensures FirstIn(ss, id).Some? ==>
              exists j :: 0 <= j < |ss| && ss[j] == FirstIn(ss, id).value && ss[j].id == id
                          && forall k :: 0 <= k < j ==> ss[k].id != id
    decreases |ss|
  {
    if |ss| > 0 {
      var init := ss[..|ss| - 1];
      FirstInIsFirst(init, id);
      IdsOfLast(ss);
      if FirstIn(init, id).Some? {
        var j :| 0 <= j < |init| && init[j] == FirstIn(init, id).value && init[j].id == id
                 && forall k :: 0 <= k < j ==> init[k].id != id;
        assert ss[j] == init[j];
      } else if ss[|ss| - 1].id == id {
        assert forall k :: 0 <= k < |ss| - 1 ==> ss[k].id != id by {
          forall k | 0 <= k < |ss| - 1
            ensures ss[k].id != id
          {
            assert ss[k] == init[k] && init[k] in init;
          }
        }
      }
    }
  }

  /** A team contributes one entry per occurrence of the ID in its list, each naming that team. */
  lemma {:induction false} TeamGrantsCountOccurrences(t: UserTeam, ss: seq<Source>, id: int)
    ensures |TeamGrants(t, ss, id)| == multiset(IdSeq(ss))[id]
    ensures forall g :: g in TeamGrants(t, ss, id) ==> g == InfoOf(t)
    decreases |ss|
  {
    if |ss| > 0 {
      var init := ss[..|ss| - 1];
      TeamGrantsCountOccurrences(t, init, id);
      assert IdSeq(ss) == IdSeq(init) + [ss[|ss| - 1].id];
    }
  }

  // ---- the merge meets its specification ----

  /** Every entry is filed under its own source's ID and has at least one team. */
  predicate Wf(m: SourceMap)
  {
    forall id :: id in m ==> m[id].source.id == id && |m[id].teams| >= 1
  }

  /** An ID a team does not list gets no entry from it. */
  lemma {:induction false} TeamGrantsAbsent(t: UserTeam, ss: seq<Source>, id: int)
    requires id !in IdsOf(ss)
    ensures TeamGrants(t, ss, id) == []
    decreases |ss|
  {
    if |ss| > 0 {
      var init := ss[..|ss| - 1];
      assert ss == init + [ss[|ss| - 1]];
      assert IdsOf(init) <= IdsOf(ss);
      TeamGrantsAbsent(t, init, id);
    }
  }

  /** The IDs of a list are those of all but its last element, plus the last one's. */
  lemma IdsOfLast(ss: seq<Source>)
    requires |ss| > 0
    ensures IdsOf(ss) == IdsOf(ss[..|ss| - 1]) + {ss[|ss| - 1].id}
  {
    assert ss == ss[..|ss| - 1] + [ss[|ss| - 1]];
  }

  /** What the inner loop leaves under one ID. */
  lemma {:induction false} MergeSourcesAt(m: SourceMap, t: UserTeam, ss: seq<Source>, id: int)
    requires id in m ==> m[id].source.id == id && |m[id].teams| >= 1
    ensures var r := MergeSources(m, t, ss);
            && (id in r <==> id in m || id in IdsOf(ss))
            && (id in r ==>
                  && r[id].source.id == id && |r[id].teams| >= 1
                  && r[id].teams == (if id in m then m[id].teams else []) + TeamGrants(t, ss, id)
                  && Some(r[id].source) == (if id in m then Some(m[id].source) else FirstIn(ss, id)))
    decreases |ss|
  {
    if |ss| > 0 {
      var init := ss[..|ss| - 1];
      var s := ss[|ss| - 1];
      MergeSourcesAt(m, t, init, id);
      IdsOfLast(ss);
      var r0 := MergeSources(m, t, init);
      MergeSourceAt(r0, t, s, id);
      assert MergeSources(m, t, ss) == MergeSource(r0, t, s);
      assert TeamGrants(t, ss, id) == TeamGrants(t, init, id) + (if s.id == id then [InfoOf(t)] else []);
      if id in r0 {
        assert id !in m ==> FirstIn(init, id).Some?;
      } else if s.id == id {
        TeamGrantsAbsent(t, init, id);
        FirstInIsFirst(init, id);
      }
    }
  }

  /** One merge step under one ID: only the merged source's ID changes. */
  lemma MergeSourceAt(m: SourceMap, t: UserTeam, s: Source, id: int)
    ensures var r := MergeSource(m, t, s);
            && (id in r <==> id in m || s.id == id)
            && (id in r && id in m ==> r[id] == m[id].(teams := m[id].teams + if s.id == id then [InfoOf(t)] else []))
            && (id in r && id !in m ==> r[id] == SourceWithTeams(s, [InfoOf(t)]))
  {
  }

  /** An ID outside the listing has no first occurrence. */
  lemma {:induction false} FirstOfNone(ls: Listing, id: int)
    requires id !in AllIds(ls)
    ensures FirstOf(ls, id).None?
    decreases |ls|
  {
    if |ls| > 0 {
      FirstOfNone(ls[..|ls| - 1], id);
      FirstInIsFirst(ls[|ls| - 1].sources, id);
    }
  }

  /** What the team loop leaves under one ID. */
  lemma {:induction false} MergeAllAt(m: SourceMap, ls: Listing, id: int)
    requires id in m ==> m[id].source.id == id && |m[id].teams| >= 1
    ensures var r := MergeAll(m, ls);
            && (id in r <==> id in m || id in AllIds(ls))
            && (id in r ==>
                  && r[id].source.id == id && |r[id].teams| >= 1
                  && r[id].teams == (if id in m then m[id].teams else []) + Grants(ls, id)
                  && Some(r[id].source) == (if id in m then Some(m[id].source) else FirstOf(ls, id)))
    decreases |ls|
  {
    if |ls| > 0 {
      var init := ls[..|ls| - 1];
      var last := ls[|ls| - 1];
      MergeAllAt(m, init, id);
      var r0 := MergeAll(m, init);
      MergeSourcesAt(r0, last.team, last.sources, id);
      assert MergeAll(m, ls) == MergeSources(r0, last.team, last.sources);
      assert Grants(ls, id) == Grants(init, id) + TeamGrants(last.team, last.sources, id);
      assert AllIds(ls) == AllIds(init) + IdsOf(last.sources);
      if id !in r0 {
        FirstOfNone(init, id);
        GrantsAbsent(init, id);
      }
    }
  }

  /** An ID outside the listing gets no team entries. */
  lemma {:induction false} GrantsAbsent(ls: Listing, id: int)
    requires id !in AllIds(ls)
    ensures Grants(ls, id) == []
    decreases |ls|
  {
    if |ls| > 0 {
      GrantsAbsent(ls[..|ls| - 1], id);
      TeamGrantsAbsent(ls[|ls| - 1].team, ls[|ls| - 1].sources, id);
    }
  }

  /**
   * Merging a listing from nothing: the IDs are exactly those in the listing,
   * each entry holds the first record seen under its ID, and its teams are one
   * entry per occurrence, in team order, repeats included.
   */
  lemma MergeFromEmpty(ls: Listing)
    ensures var r := MergeAll(map[], ls);
            && r.Keys == AllIds(ls)
            && forall id :: id in r ==>
                 && r[id].source.id == id
                 && r[id].teams == Grants(ls, id)
                 && |r[id].teams| >= 1
                 && FirstOf(ls, id) == Some(r[id].source)
  {
    var r := MergeAll(map[], ls);
    forall id | id in AllIds(ls)
      ensures id in r
    {
      MergeAllAt(map[], ls, id);
    }
    forall id | id in r
      ensures id in AllIds(ls)
    {
      MergeAllAt(map[], ls, id);
    }
    forall id | id in r
      ensures r[id].source.id == id && r[id].teams == Grants(ls, id)
      ensures |r[id].teams| >= 1 && FirstOf(ls, id) == Some(r[id].source)
    {
      MergeAllAt(map[], ls, id);
    }
    assert r.Keys == AllIds(ls);
  }

  /** A team listing the same source twice yields two identical team entries. */
  lemma DuplicateListingRepeatsTeam(t: UserTeam, s: Source)
    ensures MergeAll(map[], [TeamListing(t, [s, s])])[s.id].teams == [InfoOf(t), InfoOf(t)]
  {
    var ls := [TeamListing(t, [s, s])];
    assert ls[..0] == [] && [s, s][..1] == [s] && [s][..0] == [];
    var empty: SourceMap := map[];
    assert MergeSources(empty, t, [s]) == MergeSource(empty, t, s);
    var once := MergeSources(empty, t, [s]);
    assert s.id in once && once[s.id].teams == [InfoOf(t)];
    assert MergeAll(map[], ls) == MergeSource(once, t, s);
  }

  /** A team present twice in the membership list appears twice on each of its sources. */
  lemma DuplicateTeamRepeatsTeam(t: UserTeam, s: Source)
    ensures MergeAll(map[], [TeamListing(t, [s]), TeamListing(t, [s])])[s.id].teams == [InfoOf(t), InfoOf(t)]
  {
    var ls := [TeamListing(t, [s]), TeamListing(t, [s])];
    assert ls[..1] == [TeamListing(t, [s])] && ls[..1][..0] == [] && [s][..0] == [];
    var empty: SourceMap := map[];
    assert MergeAll(empty, ls[..1]) == MergeSources(empty, t, [s]) == MergeSource(empty, t, s);
    var once := MergeAll(empty, ls[..1]);
    assert s.id in once && once[s.id].teams == [InfoOf(t)];
    assert MergeAll(empty, ls) == MergeSources(once, t, [s]) == MergeSource(once, t, s);
  }

  // ---- fetching ----

  /** One team's source fetch, as the team loop calls it. */
  type Fetcher = int -> Traced<seq<Source>>

  function TeamFetcher(b: Backend, c: Client): Fetcher
  {
    id => GetTeamSources(b, c, id)
  }

  function TeamFetchError(teamID: int, err: string): string
  {
    "get sources for team " + Itoa(teamID) + ": " + err
  }

  /**
   * The team loop's fetches: one per team in order, stopping at the first
   * failure, whose error names that team.
   */
  function Collect(fetch: Fetcher, teams: seq<UserTeam>): Traced<Listing>
    decreases |teams|
  {
    if |teams| == 0 then Traced(Success([]), [])
    else
      var t := teams[|teams| - 1];
      var prev := Collect(fetch, teams[..|teams| - 1]);
      if prev.result.Failure? then prev
      else
        var f := fetch(t.id);
        match f.result
        case Failure(e) => Traced(Failure(TeamFetchError(t.id, e)), prev.sent + f.sent)
        case Success(ss) => Traced(Success(prev.result.value + [TeamListing(t, ss)]), prev.sent + f.sent)
  }

  /** The requests of fetching each of the teams, in order. */
  function Fetched(fetch: Fetcher, teams: seq<UserTeam>): seq<HttpRequest>
    decreases |teams|
  {
    if |teams| == 0 then [] else Fetched(fetch, teams[..|teams| - 1]) + fetch(teams[|teams| - 1].id).sent
  }

  /** The fetch of team `n` is the first to fail. */
  predicate FailsFirstAt(fetch: Fetcher, teams: seq<UserTeam>, n: int)
  {
    && 0 <= n < |teams|
    && (forall i :: 0 <= i < n ==> fetch(teams[i].id).result.Success?)
    && fetch(teams[n].id).result.Failure?
  }

  /** A successful team loop fetched every team and pairs each team with its own fetch's sources. */
  lemma {:induction false} CollectSuccess(fetch: Fetcher, teams: seq<UserTeam>)
    requires Collect(fetch, teams).result.Success?
    ensures var r := Collect(fetch, teams);
            && r.sent == Fetched(fetch, teams)
            && |r.result.value| == |teams|
            && forall i :: 0 <= i < |teams| ==>
                 r.result.value[i].team == teams[i] && fetch(teams[i].id).result == Success(r.result.value[i].sources)
    decreases |teams|
  {
    if |teams| > 0 {
      CollectSuccess(fetch, teams[..|teams| - 1]);
    }
  }

  /**
   * A failed team loop stopped at the first team whose fetch failed, after
   * fetching the teams up to it and no further, with an error naming it.
   */
  lemma {:induction false} CollectFailure(fetch: Fetcher, teams: seq<UserTeam>) returns (n: int)
    requires Collect(fetch, teams).result.Failure?
    ensures FailsFirstAt(fetch, teams, n)
    ensures Collect(fetch, teams).sent == Fetched(fetch, teams[..n + 1])
    ensures Collect(fetch, teams).result.error == TeamFetchError(teams[n].id, fetch(teams[n].id).result.error)
    decreases |teams|
  {
    var init := teams[..|teams| - 1];
    if Collect(fetch, init).result.Failure? {
      assert Collect(fetch, teams) == Collect(fetch, init);
      n := CollectFailure(fetch, init);
      assert init[..n + 1] == teams[..n + 1];
      assert forall i :: 0 <= i <= n ==> init[i] == teams[i];
    } else {
      CollectSuccess(fetch, init);
      n := |teams| - 1;
      assert forall i :: 0 <= i < n ==> init[i] == teams[i];
      assert teams[..n + 1] == teams;
    }
  }

  /** Once a prefix of the teams fails, the later teams change nothing: they are never fetched. */
  lemma {:induction false} CollectStopsAtFailure(fetch: Fetcher, teams: seq<UserTeam>, n: nat)
    requires n <= |teams|
    requires Collect(fetch, teams[..n]).result.Failure?
    ensures Collect(fetch, teams) == Collect(fetch, teams[..n])
    decreases |teams| - n
  {
    if n < |teams| {
      assert teams[..|teams| - 1][..n] == teams[..n];
      CollectStopsAtFailure(fetch, teams[..|teams| - 1], n);
    } else {
      assert teams[..n] == teams;
    }
  }

  /** With the client's own fetch, the requests are one source request per team, in team order. */
  lemma FetchedRequests(b: Backend, c: Client, teams: seq<UserTeam>)
    ensures var sent := Fetched(TeamFetcher(b, c), teams);
            && |sent| == |teams|
            && forall i :: 0 <= i < |teams| ==> sent[i] == Request(c, Endpoints.GetTeamSources(teams[i].id), NoBody)
  {
    var req := (id: int) => Request(c, Endpoints.GetTeamSources(id), NoBody);
    forall id: int
      ensures TeamFetcher(b, c)(id).sent == [req(id)]
    {
      TeamFetcherSends(b, c, id);
    }
    FetchedOnePerTeam(TeamFetcher(b, c), teams, req);
  }

  lemma TeamFetcherSends(b: Backend, c: Client, id: int)
    ensures TeamFetcher(b, c)(id).sent == [Request(c, Endpoints.GetTeamSources(id), NoBody)]
  {
  }

  /** A fetch that sends one request per team sends, over the teams, those requests in order. */
  lemma {:induction false} FetchedOnePerTeam(fetch: Fetcher, teams: seq<UserTeam>, req: int -> HttpRequest)
    requires forall id :: fetch(id).sent == [req(id)]
    ensures |Fetched(fetch, teams)| == |teams|
    ensures forall i :: 0 <= i < |teams| ==> Fetched(fetch, teams)[i] == req(teams[i].id)
    decreases |teams|
  {
    if |teams| > 0 {
      var init := teams[..|teams| - 1];
      FetchedOnePerTeam(fetch, init, req);
      assert forall i :: 0 <= i < |init| ==> init[i] == teams[i];
    }
  }

  /** The value of `get_sources` before the map is turned into a list. */
  function Aggregate(b: Backend, c: Client): (r: Traced<SourceMap>)
    ensures |r.sent| >= 1 && r.sent[0] == Request(c, Endpoints.GetTeams, NoBody)
    ensures GetTeams(b, c).result.Failure? ==>
              r.sent == [Request(c, Endpoints.GetTeams, NoBody)]
              && r.result == Failure("get user teams: " + GetTeams(b, c).result.error)
    ensures GetTeams(b, c).result.Success? ==>
              var col := Collect(TeamFetcher(b, c), GetTeams(b, c).result.value);
              && r.sent == [Request(c, Endpoints.GetTeams, NoBody)] + col.sent
              && (r.result.Success? <==> col.result.Success?)
              && (col.result.Failure? ==> r.result.error == col.result.error)
              && (col.result.Success? ==> r.result.value == MergeAll(map[], col.result.value))
  {
    var tr := GetTeams(b, c);
    match tr.result
    case Failure(e) => Traced(Failure("get user teams: " + e), tr.sent)
    case Success(teams) =>
      var col := Collect(TeamFetcher(b, c), teams);
      match col.result
      case Failure(e) => Traced(Failure(e), tr.sent + col.sent)
      case Success(ls) => Traced(Success(MergeAll(map[], ls)), tr.sent + col.sent)
  }

  /** A caller in no team gets an empty aggregate after the one teams request. */
  lemma NoTeamsNoSources(b: Backend, c: Client)
    requires GetTeams(b, c).result == Success([])
    ensures Aggregate(b, c) == Traced(Success(map[]), [Request(c, Endpoints.GetTeams, NoBody)])
  {
  }

  /** Each map entry exactly once, in some order (Go's map order is unspecified). */
  predicate ListsEachOnce(out: seq<SourceWithTeams>, m: SourceMap)
  {
    && |out| == |m|
    && (forall p :: 0 <= p < |out| ==> out[p].source.id in m && m[out[p].source.id] == out[p])
    && (forall p, q :: 0 <= p < q < |out| ==> out[p].source.id != out[q].source.id)
    && (forall id :: id in m ==> exists p :: 0 <= p < |out| && out[p].source.id == id)
  }

  /**
   * `getSources`: the teams request, then the team loop with its inner merge
   * loop, then the map turned into a list.
   */
  method GetSources(ctx: Context, b: Backend) returns (r: Traced<seq<SourceWithTeams>>)
    ensures LogchefClientFromContext(ctx).None? ==> r == Traced(Failure(MissingClient), [])
    ensures LogchefClientFromContext(ctx).Some? ==>
              var a := Aggregate(b, LogchefClientFromContext(ctx).value);
              && r.sent == a.sent
              && (r.result.Success? <==> a.result.Success?)
              && (r.result.Failure? ==> r.result.error == a.result.error)
              && (r.result.Success? ==> ListsEachOnce(r.result.value, a.result.value))
  {
    var found := LogchefClientFromContext(ctx);
    if found.None? {
      return Traced(Failure(MissingClient), []);
    }
    var c := found.value;
    var teamsResp := GetTeams(b, c);
    if teamsResp.result.Failure? {
      return Traced(Failure("get user teams: " + teamsResp.result.error), teamsResp.sent);
    }
    var teams := teamsResp.result.value;
    var sourceMap: SourceMap;
    var fetched: seq<HttpRequest>;
    var failure: Option<string>;
    sourceMap, fetched, failure := TeamLoop(TeamFetcher(b, c), teams);
    if failure.Some? {
      return Traced(Failure(failure.value), teamsResp.sent + fetched);
    }
    MergeFromEmpty(Collect(TeamFetcher(b, c), teams).result.value);
    assert Wf(sourceMap);
    var sources: seq<SourceWithTeams>;
    ghost var keys: seq<int>;
    sources, keys := MapToList(sourceMap);
    ListedOnce(sourceMap, sources, keys);
    return Traced(Success(sources), teamsResp.sent + fetched);
  }

  /** Listing a well-formed map by distinct keys covering it lists each entry once. */
  lemma ListedOnce(m: SourceMap, out: seq<SourceWithTeams>, keys: seq<int>)
    requires Wf(m)
    requires |out| == |keys| == |m|
    requires forall p :: 0 <= p < |out| ==> keys[p] in m && out[p] == m[keys[p]]
    requires forall p, q :: 0 <= p < q < |keys| ==> keys[p] != keys[q]
    requires forall id :: id in m ==> id in keys
    ensures ListsEachOnce(out, m)
  {
    forall id | id in m
      ensures exists p :: 0 <= p < |out| && out[p].source.id == id
    {
      var p :| 0 <= p < |keys| && keys[p] == id;
      assert out[p].source.id == id;
    }
  }

  /** The loop over the teams, merging each team's sources into the map as they arrive. */
  method TeamLoop(fetch: Fetcher, teams: seq<UserTeam>) returns (sourceMap: SourceMap, fetched: seq<HttpRequest>, failure: Option<string>)
    ensures fetched == Collect(fetch, teams).sent
    ensures failure.Some? <==> Collect(fetch, teams).result.Failure?
    ensures failure.Some? ==> failure.value == Collect(fetch, teams).result.error
    ensures failure.None? ==> sourceMap == MergeAll(map[], Collect(fetch, teams).result.value)
  {
    fetched := [];
    ghost var listing: Listing := [];
    sourceMap := map[];
    var i := 0;
    while i < |teams|
      invariant 0 <= i <= |teams|
      invariant Collect(fetch, teams[..i]) == Traced(Success(listing), fetched)
      invariant sourceMap == MergeAll(map[], listing)
      decreases |teams| - i
    {
      var team := teams[i];
      assert teams[..i + 1][..i] == teams[..i] && teams[..i + 1][i] == team;
      var teamSources := fetch(team.id);
      if teamSources.result.Failure? {
        CollectStopsAtFailure(fetch, teams, i + 1);
        return sourceMap, fetched + teamSources.sent, Some(TeamFetchError(team.id, teamSources.result.error));
      }
      var ss := teamSources.result.value;
      ghost var before := sourceMap;
      var j := 0;
      while j < |ss|
        invariant 0 <= j <= |ss|
        invariant sourceMap == MergeSources(before, team, ss[..j])
        decreases |ss| - j
      {
        var source := ss[j];
        assert ss[..j + 1][..j] == ss[..j] && ss[..j + 1][j] == source;
        if source.id in sourceMap {
          var existing := sourceMap[source.id];
          sourceMap := sourceMap[source.id := existing.(teams := existing.teams + [InfoOf(team)])];
        } else {
          sourceMap := sourceMap[source.id := SourceWithTeams(source, [InfoOf(team)])];
        }
        j := j + 1;
      }
      assert ss[..|ss|] == ss;
      fetched := fetched + teamSources.sent;
      listing := listing + [TeamListing(team, ss)];
      i := i + 1;
    }
    assert teams[..|teams|] == teams;
    failure := None;
  }

  /** A set of positive size has a member to pick. */
  lemma HasElement(s: set<int>)
    requires |s| > 0
    ensures exists x :: x in s
  {
    if forall x :: x !in s {
      assert false;
    }
  }

  /**
   * `for _, source := range sourceMap { sources = append(sources, *source) }`:
   * every entry once, in an arbitrary order; `keys` records the order taken.
   */
  method MapToList(m: SourceMap) returns (out: seq<SourceWithTeams>, ghost keys: seq<int>)
    ensures |out| == |m|
    ensures forall p :: 0 <= p < |out| ==> out[p] in m.Values
    ensures forall id :: id in m ==> m[id] in out
    ensures |keys| == |m|
    ensures forall p :: 0 <= p < |out| ==> keys[p] in m && out[p] == m[keys[p]]
    ensures forall p, q :: 0 <= p < q < |keys| ==> keys[p] != keys[q]
    ensures forall id :: id in m ==> id in keys
  {
    out, keys := [], [];
    var remaining := m.Keys;
    while |remaining| > 0
      invariant remaining <= m.Keys
      invariant |out| == |keys| && |keys| + |remaining| == |m|
      invariant forall p :: 0 <= p < |out| ==> keys[p] in m && keys[p] !in remaining && out[p] == m[keys[p]]
      invariant forall p, q :: 0 <= p < q < |keys| ==> keys[p] != keys[q]
      invariant forall id :: id in m && id !in remaining ==> id in keys && m[id] in out
      decreases |remaining|
    {
      HasElement(remaining);
      var id :| id in remaining;
      out, keys := out + [m[id]], keys + [id];
      remaining := remaining - {id};
    }
  }

  /** `get_team_sources`: one team's sources, errors prefixed "get team sources". */
  function GetTeamSourcesTool(ctx: Context, b: Backend, teamID: int): (r: Traced<seq<Source>>)
    ensures LogchefClientFromContext(ctx).None? ==> r.result == Failure(MissingClient) && r.sent == []
    ensures LogchefClientFromContext(ctx).Some? ==>
              var c := LogchefClientFromContext(ctx).value;
              && r.sent == [Request(c, Endpoints.GetTeamSources(teamID), NoBody)]
              && (r.result.Success? <==> GetTeamSources(b, c, teamID).result.Success?)
              && (r.result.Success? ==> r.result == GetTeamSources(b, c, teamID).result)
              && (r.result.Failure? ==> r.result.error == "get team sources: " + GetTeamSources(b, c, teamID).result.error)
  {
    WithClient(ctx, (c: Client) => Wrap("get team sources", GetTeamSources(b, c, teamID)))
  }
}
