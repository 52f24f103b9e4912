/** `/api/v1/stats`: the three leaderboards, whose placeholder numbers are
    computed from the parameter list while it is still growing, and the
    two aggregate endpoints that answer 404 when nothing was counted. */
module Stats {
  import opened Common
  import opened Sql
  import opened Paging
  import opened Events

  /** `limit: int = Query(10, ge=1, le=100)` */
  const DEFAULT_LIMIT: int := 10
  const MAX_LIMIT: int := 100

  /** The season the goal leaderboard falls back to. */
  const CURRENT_SEASON: int := 2025
  const CURRENT_SEASON_LABEL: string := "2025"

  const SCORER_CLAUSE: string := "goal_player_id IS NOT NULL"
  const ASSISTER_CLAUSE: string := "assist_player_id IS NOT NULL"

  const NO_SEASON_DATA: string := "No data found for this team/season"
  const NO_CAREER_DATA: string := "No career data found for this player"

  /** The `limit` argument of every leaderboard: 10 when absent, otherwise
      it must lie in 1..100 or the request is a 422. */
  function LeaderLimit(limit: Option<int>): (r: Result<int, HttpError>)
    ensures r.Ok? <==> limit.None? || 1 <= limit.value <= MAX_LIMIT
    ensures r.Ok? ==> 1 <= r.value <= MAX_LIMIT
    ensures limit.None? ==> r == Ok(DEFAULT_LIMIT)
    ensures limit.Some? && r.Ok? ==> r.value == limit.value
    ensures r.Err? ==> r.error == Unprocessable("limit")
  {
    IntArg(limit, DEFAULT_LIMIT, 1, Some(MAX_LIMIT), "limit")
  }

  // ---------------------------------------------------------------------
  // Goal leaders
  // ---------------------------------------------------------------------

  /** The query `get_goal_leaders` sends, as written.  The fixed text already
      opens a WHERE; the season filter, when there is one, opens a second
      (`WHERE season_id = $1`), and the `me.season_id` comparison is joined
      with AND at `$2` after it, or opens a second WHERE at `$1` when there
      is no season.  LIMIT is `$2` with a season and `$1` without; the
      parameters are the season (or 2025) and then the limit. */
  method GoalLeadersAsWritten(season: Option<int>, limit: int) returns (q: Query)
    ensures IntGiven(season) ==>
              q == Query([[Lit(GOAL_CLAUSE), Lit(SCORER_CLAUSE)], [Cmp(["season_id"], Eq, 1), Cmp(["me.season_id"], Eq, 2)]],
                         Some(2), None, [PInt(season.value), PInt(limit)])
    ensures !IntGiven(season) ==>
              q == Query([[Lit(GOAL_CLAUSE), Lit(SCORER_CLAUSE)], [Cmp(["me.season_id"], Eq, 1)]],
                         Some(1), None, [PInt(CURRENT_SEASON), PInt(limit)])
    // The database refuses it: two WHERE keywords.
    ensures !WellFormed(q) && |q.wheres| == 2
    // With a season, `me.season_id` is compared with the limit.
    ensures IntGiven(season) ==>
              Resolve(q) == Some(Bound([[Fixed(GOAL_CLAUSE), Fixed(SCORER_CLAUSE)],
                                        [Test(["season_id"], Eq, PInt(season.value)), Test(["me.season_id"], Eq, PInt(limit))]],
                                       Some(PInt(limit)), None))
    // Without one, LIMIT is bound to 2025 and the limit is never used.
    ensures !IntGiven(season) ==>
              Resolve(q) == Some(Bound([[Fixed(GOAL_CLAUSE), Fixed(SCORER_CLAUSE)], [Test(["me.season_id"], Eq, PInt(CURRENT_SEASON))]],
                                       Some(PInt(CURRENT_SEASON)), None))
              && 2 !in Refs(q)
  {
    var params: seq<Param> := [];
    var seasonFilter: seq<Clause> := [];
    if IntGiven(season) {
      seasonFilter := [Cmp(["season_id"], Eq, 1)];
      params := params + [PInt(season.value)];
    }
    var seasonPh := if params == [] then |params| + 1 else 2;
    var limitPh := if params != [] then |params| + 1 else 1;
    var wheres := [[Lit(GOAL_CLAUSE), Lit(SCORER_CLAUSE)]];
    if params != [] {
      wheres := wheres + [seasonFilter + [Cmp(["me.season_id"], Eq, seasonPh)]];
    } else {
      wheres := wheres + [[Cmp(["me.season_id"], Eq, seasonPh)]];
    }
    if !IntGiven(season) {
      params := params + [PInt(CURRENT_SEASON)];
    }
    params := params + [PInt(limit)];
    q := Query(wheres, Some(limitPh), None, params);
    ResolveTwo(Lit(GOAL_CLAUSE), Lit(SCORER_CLAUSE), params);
    if IntGiven(season) {
      assert wheres[1] == [Cmp(["season_id"], Eq, 1), Cmp(["me.season_id"], Eq, 2)];
      assert params == [PInt(season.value), PInt(limit)];
      ResolveTwo(Cmp(["season_id"], Eq, 1), Cmp(["me.season_id"], Eq, 2), params);
      ResolveTwoSections([Lit(GOAL_CLAUSE), Lit(SCORER_CLAUSE)], [Cmp(["season_id"], Eq, 1), Cmp(["me.season_id"], Eq, 2)], params);
    } else {
      ResolveOne(Cmp(["me.season_id"], Eq, 1), params);
      ResolveTwoSections([Lit(GOAL_CLAUSE), Lit(SCORER_CLAUSE)], [Cmp(["me.season_id"], Eq, 1)], params);
      RefsTwo(Lit(GOAL_CLAUSE), Lit(SCORER_CLAUSE));
      RefsTwo(Cmp(["me.season_id"], Eq, 1), Lit(GOAL_CLAUSE));
      RefsTwoSections([Lit(GOAL_CLAUSE), Lit(SCORER_CLAUSE)], [Cmp(["me.season_id"], Eq, 1)]);
    }
  }

  /** The filter the goal leaderboard intends: goals with a scorer, in the
      given season or else in 2025. */
  function GoalLeaderFilter(season: Option<int>): seq<Pred> {
    [Fixed(GOAL_CLAUSE), Fixed(SCORER_CLAUSE), Test(["me.season_id"], Eq, PInt(if IntGiven(season) then season.value else CURRENT_SEASON))]
  }

  /** The goal leaderboard as intended: one WHERE, the season (or 2025) at
      `$1` and the limit at `$2`. */
  method GoalLeaders(season: Option<int>, limit: int) returns (q: Query)
    ensures WellFormed(q)
    ensures Resolve(q) == Some(Bound([GoalLeaderFilter(season)], Some(PInt(limit)), None))
    ensures q.params == [PInt(if IntGiven(season) then season.value else CURRENT_SEASON), PInt(limit)]
  {
    var clauses: seq<Clause> := [Lit(GOAL_CLAUSE)];
    var params: seq<Param> := [];
    ghost var preds: seq<Pred> := [Fixed(GOAL_CLAUSE)];
    LiteralStart(GOAL_CLAUSE);
    AddLiteral(clauses, params, preds, SCORER_CLAUSE);
    clauses := clauses + [Lit(SCORER_CLAUSE)];
    preds := preds + [Fixed(SCORER_CLAUSE)];
    var year := if IntGiven(season) then season.value else CURRENT_SEASON;
    clauses, params, preds := AppendFilter(clauses, params, preds, ["me.season_id"], Eq, PInt(year));
    assert preds == GoalLeaderFilter(season);
    OneSection(clauses, params, preds);
    LimitQuery([clauses], params, [preds], PInt(limit));
    q := Query([clauses], Some(|params| + 1), None, params + [PInt(limit)]);
  }

  /** `season if season else "2025"`: the reported season is the one the
      corrected query filters on. */
  function GoalSeasonLabel(season: Option<int>): (r: SeasonLabel)
    ensures IntGiven(season) <==> r.Year?
    ensures r.Year? ==> r.year == season.value
    ensures r.Label? ==> r.text == CURRENT_SEASON_LABEL
  {
    if IntGiven(season) then Year(season.value) else Label(CURRENT_SEASON_LABEL)
  }

  /** A season of 0 is no season: it is bound and reported as 2025. */
  lemma ZeroSeasonIsCurrent()
    ensures GoalLeaderFilter(Some(0)) == GoalLeaderFilter(None)
    ensures GoalLeaderFilter(None)[2] == Test(["me.season_id"], Eq, PInt(CURRENT_SEASON))
    ensures GoalSeasonLabel(Some(0)) == Label(CURRENT_SEASON_LABEL)
  {
  }

  // ---------------------------------------------------------------------
  // Assist and clean-sheet leaders
  // ---------------------------------------------------------------------

  /** `get_assist_leaders`: `AND season_id = $1` after the fixed clause when
      a season is given, then `LIMIT $len+1` bound to the limit. */
  method AssistLeaders(season: Option<int>, limit: int) returns (q: Query)
    ensures WellFormed(q)
    ensures Resolve(q) == Some(Bound([[Fixed(ASSISTER_CLAUSE)] + IntFilter(["season_id"], Eq, season)], Some(PInt(limit)), None))
    ensures q.limit == Some(if IntGiven(season) then 2 else 1)
  {
    var clauses: seq<Clause> := [Lit(ASSISTER_CLAUSE)];
    var params: seq<Param> := [];
    ghost var preds: seq<Pred> := [Fixed(ASSISTER_CLAUSE)];
    LiteralStart(ASSISTER_CLAUSE);
    if IntGiven(season) {
      clauses, params, preds := AppendFilter(clauses, params, preds, ["season_id"], Eq, PInt(season.value));
    }
    assert preds == [Fixed(ASSISTER_CLAUSE)] + IntFilter(["season_id"], Eq, season);
    OneSection(clauses, params, preds);
    LimitQuery([clauses], params, [preds], PInt(limit));
    q := Query([clauses], Some(|params| + 1), None, params + [PInt(limit)]);
  }

  /** `get_clean_sheet_leaders`: no WHERE at all without a season, `WHERE
      mg.season_id = $1` with one, then `LIMIT $len+1` bound to the limit. */
  method CleanSheetLeaders(season: Option<int>, limit: int) returns (q: Query)
    ensures WellFormed(q)
    ensures q.wheres == [] <==> !IntGiven(season)
    ensures Resolve(q) == Some(Bound(if IntGiven(season) then [IntFilter(["mg.season_id"], Eq, season)] else [],
                                     Some(PInt(limit)), None))
    ensures q.limit == Some(if IntGiven(season) then 2 else 1)
  {
    var wheres: seq<seq<Clause>> := [];
    var params: seq<Param> := [];
    ghost var pws: seq<seq<Pred>> := [];
    if IntGiven(season) {
      EmptyBuilds();
      var clauses: seq<Clause>;
      ghost var preds: seq<Pred>;
      clauses, params, preds := AppendFilter([], [], [], ["mg.season_id"], Eq, PInt(season.value));
      assert preds == IntFilter(["mg.season_id"], Eq, season);
      OneSection(clauses, params, preds);
      wheres := [clauses];
      pws := [preds];
    } else {
      NoSection();
    }
    LimitQuery(wheres, params, pws, PInt(limit));
    q := Query(wheres, Some(|params| + 1), None, params + [PInt(limit)]);
  }

  datatype Leaderboard = Leaderboard(query: Query, season: SeasonLabel)

  /** A leaderboard endpoint: the limit is checked (422) before any query;
      the goal board uses the corrected query. */
  datatype Board = Goals | Assists | CleanSheets

  method GetLeaderboard(board: Board, season: Option<int>, limit: Option<int>) returns (r: Result<Leaderboard, HttpError>)
    ensures r.Err? <==> LeaderLimit(limit).Err?
    ensures r.Err? ==> r.error == Unprocessable("limit")
    ensures r.Ok? ==> WellFormed(r.value.query)
    ensures r.Ok? ==> var n := LeaderLimit(limit).value;
                      1 <= n <= MAX_LIMIT && Resolve(r.value.query).Some? && Resolve(r.value.query).value.limit == Some(PInt(n))
    ensures r.Ok? ==> r.value.season == if board == Goals then GoalSeasonLabel(season) else SeasonOrAll(season)
    ensures r.Ok? && board == Goals ==>
              Resolve(r.value.query) == Some(Bound([GoalLeaderFilter(season)], Some(PInt(LeaderLimit(limit).value)), None))
    ensures r.Ok? && board == Assists ==>
              Resolve(r.value.query) == Some(Bound([[Fixed(ASSISTER_CLAUSE)] + IntFilter(["season_id"], Eq, season)],
                                                   Some(PInt(LeaderLimit(limit).value)), None))
    ensures r.Ok? && board == CleanSheets ==>
              Resolve(r.value.query) == Some(Bound(if IntGiven(season) then [IntFilter(["mg.season_id"], Eq, season)] else [],
                                                   Some(PInt(LeaderLimit(limit).value)), None))
  {
    var n := LeaderLimit(limit);
    if n.Err? {
      return Err(n.error);
    }
    var q: Query;
    match board {
      case Goals =>
        q := GoalLeaders(season, n.value);
        return Ok(Leaderboard(q, GoalSeasonLabel(season)));
      case Assists =>
        q := AssistLeaders(season, n.value);
      case CleanSheets =>
        q := CleanSheetLeaders(season, n.value);
    }
    r := Ok(Leaderboard(q, SeasonOrAll(season)));
  }

  // ---------------------------------------------------------------------
  // Team season and player career
  // ---------------------------------------------------------------------

  /** The overall row of `get_team_season_stats`; COUNT(*) is 0 when the
      team played no match that season. */
  datatype SeasonTotals = SeasonTotals(matchesPlayed: int, wins: Option<int>, draws: Option<int>, losses: Option<int>,
                                       goalsFor: Option<int>, goalsAgainst: Option<int>, points: Option<int>)

  function TeamSeasonBody(overall: Option<SeasonTotals>): (r: Result<SeasonTotals, HttpError>)
    ensures r.Ok? <==> overall.Some? && overall.value.matchesPlayed != 0
    ensures r.Ok? ==> r.value == overall.value
    ensures r.Err? ==> r.error == Http(404, NO_SEASON_DATA)
  {
    AggregateOr404(overall, if overall.Some? then Some(overall.value.matchesPlayed) else None, NO_SEASON_DATA)
  }

  /** The career row of `get_player_career_stats`. */
  datatype CareerTotals = CareerTotals(totalMatches: int, seasonsPlayed: int, firstSeason: Option<int>, lastSeason: Option<int>,
                                       totalMinutes: Option<int>, teamsPlayedFor: int)

  function CareerBody(career: Option<CareerTotals>): (r: Result<CareerTotals, HttpError>)
    ensures r.Ok? <==> career.Some? && career.value.totalMatches != 0
    ensures r.Ok? ==> r.value == career.value
    ensures r.Err? ==> r.error == Http(404, NO_CAREER_DATA)
  {
    AggregateOr404(career, if career.Some? then Some(career.value.totalMatches) else None, NO_CAREER_DATA)
  }
}
