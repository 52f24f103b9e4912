/** `/api/v1/teams`: the searchable team list, one team's players, matches
    and statistics, and the per-row `team_side` and W/D/L rules of the
    team's match list. */
module Teams {
  import opened Common
  import opened Sql
  import opened Paging

  const TEAM_NOT_FOUND: string := "Team not found"
  const NO_TEAM_STATS: string := "No statistics found for this team"

  /** The search compares both names with the same placeholder. */
  const NAME_COLUMNS: seq<string> := ["team_name", "team_name_long"]
  /** A team is looked up by its row id or by its external team id. */
  const ID_COLUMNS: seq<string> := ["id", "team_id"]
  /** A team's matches are those it plays at home or away. */
  const SIDE_COLUMNS: seq<string> := ["mr.home_teams_id", "mr.away_teams_id"]

  // ---------------------------------------------------------------------
  // The team list
  // ---------------------------------------------------------------------

  /** What `get_teams` filters on: nothing without a search (no WHERE at
      all), otherwise one section holding the name pattern. */
  function TeamWheres(search: Option<string>): seq<seq<Pred>> {
    if TextGiven(search) then [LikeFilter(NAME_COLUMNS, search)] else []
  }

  /** The queries of `get_teams`: `WHERE team_name ILIKE $1 OR team_name_long
      ILIKE $1` bound to `%search%` when a search is given, no WHERE
      otherwise, then LIMIT/OFFSET after the parameters. */
  method TeamsPlan(search: Option<string>, p: Paging) returns (plan: Plan)
    requires ValidPaging(p, MAX_PAGE_SIZE)
    ensures WellFormed(plan.count) && WellFormed(plan.page)
    ensures plan.count.wheres == [] <==> !TextGiven(search)
    ensures plan.page.wheres == plan.count.wheres
    ensures Resolve(plan.count) == Some(Bound(TeamWheres(search), None, None))
    ensures Resolve(plan.page) == Some(Bound(TeamWheres(search), Some(PInt(p.size)), Some(PInt(Offset(p)))))
    ensures TextGiven(search) ==> plan.count.params == [PText(Wrapped(search.value))]
                                  && plan.count.wheres == [[Cmp(NAME_COLUMNS, ILike, 1)]]
  {
    var offset := Offset(p);
    var wheres: seq<seq<Clause>> := [];
    var params: seq<Param> := [];
    ghost var pws: seq<seq<Pred>> := [];
    if TextGiven(search) {
      EmptyBuilds();
      var clauses: seq<Clause>;
      ghost var preds: seq<Pred>;
      clauses, params, preds := AppendFilter([], [], [], NAME_COLUMNS, ILike, PText(Wrapped(search.value)));
      assert clauses == [Cmp(NAME_COLUMNS, ILike, 1)] && preds == LikeFilter(NAME_COLUMNS, search);
      OneSection(clauses, params, preds);
      wheres := [clauses];
      pws := [preds];
    } else {
      NoSection();
    }
    assert pws == TeamWheres(search);
    CountQuery(wheres, params, pws);
    PageQuery(wheres, params, pws, PInt(p.size), PInt(offset));
    plan := Plan(Query(wheres, None, None, params),
                 Query(wheres, Some(|params| + 1), Some(|params| + 2), params + [PInt(p.size), PInt(offset)]));
  }

  /** `get_teams`: page arguments are checked (422) before any query. */
  method GetTeams(page: Option<int>, pageSize: Option<int>, search: Option<string>) returns (r: Result<Plan, HttpError>)
    ensures r.Err? <==> CheckPaging(page, pageSize, DEFAULT_PAGE_SIZE, MAX_PAGE_SIZE).Err?
    ensures r.Ok? ==> WellFormed(r.value.count) && WellFormed(r.value.page)
    ensures r.Ok? ==> var p := CheckPaging(page, pageSize, DEFAULT_PAGE_SIZE, MAX_PAGE_SIZE).value;
                      Resolve(r.value.count) == Some(Bound(TeamWheres(search), None, None))
                      && Resolve(r.value.page) == Some(Bound(TeamWheres(search), Some(PInt(p.size)), Some(PInt(Offset(p)))))
  {
    var checked := CheckPaging(page, pageSize, DEFAULT_PAGE_SIZE, MAX_PAGE_SIZE);
    if checked.Err? {
      return Err(checked.error);
    }
    var plan := TeamsPlan(search, checked.value);
    r := Ok(plan);
  }

  /** One pattern serves both name columns: the search binds a single
      parameter, and an empty search string filters nothing. */
  lemma SearchBindsOnce(search: string)
    ensures TeamWheres(Some(search)) == if search == "" then [] else [[Test(NAME_COLUMNS, ILike, PText("%" + search + "%"))]]
    ensures TeamWheres(Some("")) == TeamWheres(None)
  {
  }

  // ---------------------------------------------------------------------
  // One team
  // ---------------------------------------------------------------------

  /** `get_team`: the looked-up row, or 404. */
  function TeamBody<T>(row: Option<T>): (r: Result<T, HttpError>)
    ensures r.Ok? <==> row.Some?
    ensures r.Ok? ==> r.value == row.value
    ensures r.Err? ==> r.error == Http(404, TEAM_NOT_FOUND)
  {
    RowOr404(row, TEAM_NOT_FOUND)
  }

  /** `get_team_players`, up to its second query: a team that the lookup did
      not find is a 404 and no player query is sent; otherwise the lineup
      query `WHERE ml.team_id = $1` with `AND ml.season_id = $2` when a
      season is given. */
  method GetTeamPlayers<T>(team: Option<T>, teamId: string, season: Option<int>) returns (r: Result<Query, HttpError>)
    ensures r.Err? <==> team.None?
    ensures r.Err? ==> r.error == Http(404, TEAM_NOT_FOUND)
    ensures r.Ok? ==> WellFormed(r.value)
                      && Resolve(r.value) == Some(Bound([KeyedPreds(["ml.team_id"], PText(teamId), "ml.season_id", season)], None, None))
  {
    if team.None? {
      return Err(Http(404, TEAM_NOT_FOUND));
    }
    var clauses, params := KeyedFilter(["ml.team_id"], PText(teamId), "ml.season_id", season);
    var q := FilterQuery(clauses, params, KeyedPreds(["ml.team_id"], PText(teamId), "ml.season_id", season));
    r := Ok(q);
  }

  datatype TeamPlayers<T, P> = TeamPlayers(team: T, players: seq<P>, count: nat)

  /** The body of `get_team_players`: the team, its players, and their count. */
  function TeamPlayersBody<T, P>(team: T, players: seq<P>): (r: TeamPlayers<T, P>)
    ensures r.team == team && r.players == players && r.count == |r.players|
  {
    TeamPlayers(team, players, |players|)
  }

  /** The queries of `get_team_matches`: the team at $1 against both sides
      of the match, the season at $2 when given, LIMIT/OFFSET right after. */
  method GetTeamMatches(teamId: string, season: Option<int>, page: Option<int>, pageSize: Option<int>)
    returns (r: Result<Plan, HttpError>)
    ensures r.Err? <==> CheckPaging(page, pageSize, DEFAULT_PAGE_SIZE, MAX_PAGE_SIZE).Err?
    ensures r.Ok? ==> WellFormed(r.value.count) && WellFormed(r.value.page)
    ensures r.Ok? ==> var p := CheckPaging(page, pageSize, DEFAULT_PAGE_SIZE, MAX_PAGE_SIZE).value;
                      Resolve(r.value.count) == Some(Bound([KeyedPreds(SIDE_COLUMNS, PText(teamId), "mr.season_id", season)], None, None))
                      && Resolve(r.value.page)
                           == Some(Bound([KeyedPreds(SIDE_COLUMNS, PText(teamId), "mr.season_id", season)],
                                         Some(PInt(p.size)), Some(PInt(Offset(p)))))
                      && r.value.page.params == r.value.count.params + [PInt(p.size), PInt(Offset(p))]
    ensures r.Ok? ==> r.value.page.limit == Some(if IntGiven(season) then 3 else 2)
  {
    var checked := CheckPaging(page, pageSize, DEFAULT_PAGE_SIZE, MAX_PAGE_SIZE);
    if checked.Err? {
      return Err(checked.error);
    }
    var p := checked.value;
    var plan := KeyedPlan(SIDE_COLUMNS, PText(teamId), "mr.season_id", season, PInt(p.size), PInt(Offset(p)));
    r := Ok(plan);
  }

  // ---------------------------------------------------------------------
  // The per-row rules of a team's match list
  // ---------------------------------------------------------------------

  /** The columns the two CASE expressions read; goals are NULL for a match
      without a score. */
  datatype Fixture = Fixture(home: string, away: string, homeGoals: Option<int>, awayGoals: Option<int>)

  datatype Side = Home | Away
  datatype Outcome = W | D | L

  /** `CASE WHEN mr.home_teams_id = $1 THEN 'home' ELSE 'away' END` */
  function TeamSide(m: Fixture, team: string): (s: Side)
    ensures s == Home <==> m.home == team
  {
    if m.home == team then Home else Away
  }

  /** SQL `a > b` as a WHEN condition: NULL on either side is not true. */
  predicate Greater(a: Option<int>, b: Option<int>) {
    a.Some? && b.Some? && a.value > b.value
  }

  /** SQL `a = b` as a WHEN condition. */
  predicate Level(a: Option<int>, b: Option<int>) {
    a.Some? && b.Some? && a.value == b.value
  }

  /** The `result` CASE: a win at home, a win away, a draw, otherwise a loss. */
  function TeamResult(m: Fixture, team: string): (o: Outcome)
    ensures o == W ==> (m.home == team && Greater(m.homeGoals, m.awayGoals))
                       || (m.away == team && Greater(m.awayGoals, m.homeGoals))
    ensures o == D <==> Level(m.homeGoals, m.awayGoals)
    ensures o != L ==> m.homeGoals.Some? && m.awayGoals.Some?
  {
    if m.home == team && Greater(m.homeGoals, m.awayGoals) then W
    else if m.away == team && Greater(m.awayGoals, m.homeGoals) then W
    else if Level(m.homeGoals, m.awayGoals) then D
    else L
  }

  /** The verdict from the team's own point of view. */
  function Verdict(goalsFor: int, goalsAgainst: int): (o: Outcome)
    ensures o == W <==> goalsFor > goalsAgainst
    ensures o == D <==> goalsFor == goalsAgainst
    ensures o == L <==> goalsFor < goalsAgainst
  {
    if goalsFor > goalsAgainst then W else if goalsFor == goalsAgainst then D else L
  }

  /** The goals the team scored and conceded, by the side it played on. */
  function GoalsFor(m: Fixture, team: string): Option<int> {
    if TeamSide(m, team) == Home then m.homeGoals else m.awayGoals
  }

  function GoalsAgainst(m: Fixture, team: string): Option<int> {
    if TeamSide(m, team) == Home then m.awayGoals else m.homeGoals
  }

  /** For a scored match between two different teams, the CASE gives each
      side the verdict of its own goals for and against. */
  lemma ResultIsVerdict(m: Fixture, team: string)
    requires m.home != m.away && (team == m.home || team == m.away)
    requires m.homeGoals.Some? && m.awayGoals.Some?
    ensures TeamResult(m, team) == Verdict(GoalsFor(m, team).value, GoalsAgainst(m, team).value)
  {
  }

  /** The two sides of a scored match get mirrored results: one wins exactly
      when the other loses, and both draw together. */
  lemma ResultsMirror(m: Fixture)
    requires m.home != m.away && m.homeGoals.Some? && m.awayGoals.Some?
    ensures TeamResult(m, m.home) == W <==> TeamResult(m, m.away) == L
    ensures TeamResult(m, m.home) == D <==> TeamResult(m, m.away) == D
  {
    ResultIsVerdict(m, m.home);
    ResultIsVerdict(m, m.away);
  }

  /** A match without a score falls through every WHEN: both sides read L. */
  lemma UnscoredIsLoss(m: Fixture, team: string)
    requires m.homeGoals.None? || m.awayGoals.None?
    ensures TeamResult(m, team) == L
  {
  }

  // ---------------------------------------------------------------------
  // Season statistics
  // ---------------------------------------------------------------------

  /** `WHERE team_id = $1` and `AND season_id = $2` under `if season:`. */
  method TeamStatsQuery(teamId: string, season: Option<int>) returns (q: Query)
    ensures WellFormed(q)
    ensures Resolve(q) == Some(Bound([KeyedPreds(["team_id"], PText(teamId), "season_id", season)], None, None))
    ensures q.params == if IntGiven(season) then [PText(teamId), PInt(season.value)] else [PText(teamId)]
  {
    var clauses, params := KeyedFilter(["team_id"], PText(teamId), "season_id", season);
    q := FilterQuery(clauses, params, KeyedPreds(["team_id"], PText(teamId), "season_id", season));
  }

  /** The aggregate row; COUNT(*) is 0 when no match summary matched. */
  datatype TeamStats = TeamStats(matchesPlayed: int, goalsFor: Option<int>, goalsAgainst: Option<int>,
                                 wins: Option<int>, draws: Option<int>, losses: Option<int>, points: Option<int>)

  /** `get_team_stats`: no row, or a row counting no match, is a 404. */
  function TeamStatsBody(row: Option<TeamStats>): (r: Result<TeamStats, HttpError>)
    ensures r.Ok? <==> row.Some? && row.value.matchesPlayed != 0
    ensures r.Ok? ==> r.value == row.value
    ensures r.Err? ==> r.error == Http(404, NO_TEAM_STATS)
  {
    AggregateOr404(row, if row.Some? then Some(row.value.matchesPlayed) else None, NO_TEAM_STATS)
  }
}
