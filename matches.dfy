/** `/api/v1/matches`: the filtered, paged match list, the match lookup, and
    the two derivations made from a match's rows (lineups split by side, the
    home/away team summaries). */
module Matches {
  import opened Common
  import opened Sql
  import opened Paging

  const MATCH_NOT_FOUND: string := "Match not found"
  const NO_STATS: string := "No statistics found for this match"

  /** What `get_matches` intends to filter on, in the order the handler
      appends the filters. */
  function MatchFilters(season: Option<int>, teamId: Option<string>, startDate: Option<int>, endDate: Option<int>): seq<Pred> {
    IntFilter(["mr.season_id"], Eq, season)
    + TextFilter(["mr.home_teams_id", "mr.away_teams_id"], Eq, teamId)
    + DateFilter(["mr.match_date"], Ge, startDate)
    + DateFilter(["mr.match_date"], Le, endDate)
  }

  lemma MatchFiltersInOrder(season: Option<int>, teamId: Option<string>, startDate: Option<int>, endDate: Option<int>)
    ensures MatchFilters(season, teamId, startDate, endDate)
         == IntFilter(["mr.season_id"], Eq, season) + TextFilter(["mr.home_teams_id", "mr.away_teams_id"], Eq, teamId)
            + DateFilter(["mr.match_date"], Ge, startDate) + DateFilter(["mr.match_date"], Le, endDate)
  {
  }

  /** The queries of `get_matches`: one clause and one parameter per present
      filter, `1=1` when none is present, and LIMIT/OFFSET placeholders after
      the filter parameters.  Both queries are well formed and mean exactly
      the intended filters. */
  method MatchesPlan(season: Option<int>, teamId: Option<string>, startDate: Option<int>, endDate: Option<int>, p: Paging)
    returns (plan: Plan)
    requires ValidPaging(p, MAX_PAGE_SIZE)
    ensures WellFormed(plan.count) && WellFormed(plan.page)
    ensures Resolve(plan.count) == Some(Bound([OrTrue(MatchFilters(season, teamId, startDate, endDate))], None, None))
    ensures Resolve(plan.page)
         == Some(Bound([OrTrue(MatchFilters(season, teamId, startDate, endDate))], Some(PInt(p.size)), Some(PInt(Offset(p)))))
  {
    var offset := Offset(p);
    var clauses: seq<Clause>, params: seq<Param>;
    ghost var preds: seq<Pred>;
    EmptyBuilds();
    clauses, params, preds := AppendIf(IntGiven(season), [], [], [], ["mr.season_id"], Eq,
                                       PInt(if season.Some? then season.value else 0));
    ghost var spec := IntFilter(["mr.season_id"], Eq, season);
    assert preds == spec;
    clauses, params, preds := AppendIf(TextGiven(teamId), clauses, params, preds, ["mr.home_teams_id", "mr.away_teams_id"], Eq,
                                       PText(if teamId.Some? then teamId.value else ""));
    spec := spec + TextFilter(["mr.home_teams_id", "mr.away_teams_id"], Eq, teamId);
    clauses, params, preds := AppendIf(DateGiven(startDate), clauses, params, preds, ["mr.match_date"], Ge,
                                       PDate(if startDate.Some? then startDate.value else 0));
    spec := spec + DateFilter(["mr.match_date"], Ge, startDate);
    clauses, params, preds := AppendIf(DateGiven(endDate), clauses, params, preds, ["mr.match_date"], Le,
                                       PDate(if endDate.Some? then endDate.value else 0));
    spec := spec + DateFilter(["mr.match_date"], Le, endDate);
    MatchFiltersInOrder(season, teamId, startDate, endDate);
    assert preds == spec;
    plan := PagedPlan(clauses, params, preds, PInt(p.size), PInt(offset));
  }

  /** `get_matches`: the page arguments are checked (422) before any query. */
  method GetMatches(season: Option<int>, teamId: Option<string>, startDate: Option<int>, endDate: Option<int>,
                    page: Option<int>, pageSize: Option<int>)
    returns (r: Result<Plan, HttpError>)
    ensures r.Err? <==> CheckPaging(page, pageSize, DEFAULT_PAGE_SIZE, MAX_PAGE_SIZE).Err?
    ensures r.Ok? ==> WellFormed(r.value.count) && WellFormed(r.value.page)
    ensures r.Ok? ==> Resolve(r.value.count) == Some(Bound([OrTrue(MatchFilters(season, teamId, startDate, endDate))], None, None))
    ensures r.Ok? ==> var p := CheckPaging(page, pageSize, DEFAULT_PAGE_SIZE, MAX_PAGE_SIZE).value;
                      Resolve(r.value.page)
                        == Some(Bound([OrTrue(MatchFilters(season, teamId, startDate, endDate))],
                                      Some(PInt(p.size)), Some(PInt(Offset(p)))))
  {
    var checked := CheckPaging(page, pageSize, DEFAULT_PAGE_SIZE, MAX_PAGE_SIZE);
    if checked.Err? {
      return Err(checked.error);
    }
    var plan := MatchesPlan(season, teamId, startDate, endDate, checked.value);
    r := Ok(plan);
  }

  /** With no filter at all the matches list is unrestricted. */
  lemma NoFiltersIsTrue()
    ensures OrTrue(MatchFilters(None, None, None, None)) == [Fixed(TRUE_CLAUSE)]
  {
  }

  /** A season of 0 and an empty team id are not filters (Python truthiness). */
  lemma FalsyArgumentsIgnored(startDate: Option<int>, endDate: Option<int>)
    ensures MatchFilters(Some(0), Some(""), startDate, endDate) == MatchFilters(None, None, startDate, endDate)
  {
  }

  // ---------------------------------------------------------------------
  // Lookup by either id
  // ---------------------------------------------------------------------

  datatype MatchRow = MatchRow(id: string, fbrefId: string, homeTeam: string, awayTeam: string, matchDate: int)

  /** `WHERE id = $1 OR fbref_match_id = $1`, first row. */
  function FindMatch(rows: seq<MatchRow>, matchId: string): (r: Result<MatchRow, HttpError>)
    ensures r.Ok? ==> r.value in rows && (r.value.id == matchId || r.value.fbrefId == matchId)
    ensures r.Err? <==> forall m :: m in rows ==> m.id != matchId && m.fbrefId != matchId
    ensures r.Err? ==> r.error == Http(404, MATCH_NOT_FOUND)
    decreases |rows|
  {
    if rows == [] then Err(Http(404, MATCH_NOT_FOUND))
    else if rows[0].id == matchId || rows[0].fbrefId == matchId then Ok(rows[0])
    else
      var rest := FindMatch(rows[1..], matchId);
      assert forall m :: m in rows[1..] ==> m in rows;
      assert forall m :: m in rows ==> m == rows[0] || m in rows[1..];
      rest
  }

  // ---------------------------------------------------------------------
  // Lineups
  // ---------------------------------------------------------------------

  datatype LineupRow = LineupRow(playerId: string, teamId: string, started: bool, shirtNumber: Option<int>)

  /** `[l for l in lineups if l['team_id'] == team]` */
  function OnTeam(rows: seq<LineupRow>, team: string): (r: seq<LineupRow>)
    ensures |r| <= |rows|
    ensures forall x :: x in r ==> x.teamId == team
    decreases |rows|
  {
    if rows == [] then []
    else (if rows[0].teamId == team then [rows[0]] else []) + OnTeam(rows[1..], team)
  }

  /** The side lists are exactly the rows of that team, in the query's order:
      `OnTeam` keeps a row iff it is the team's, and keeps them in order. */
  lemma {:induction false} OnTeamExactly(rows: seq<LineupRow>, team: string)
    ensures forall x :: x in OnTeam(rows, team) <==> x in rows && x.teamId == team
    decreases |rows|
  {
    if rows != [] {
      OnTeamExactly(rows[1..], team);
      assert rows == [rows[0]] + rows[1..];
    }
  }

  function OtherTeams(rows: seq<LineupRow>, team: string): seq<LineupRow>
    decreases |rows|
  {
    if rows == [] then []
    else (if rows[0].teamId != team then [rows[0]] else []) + OtherTeams(rows[1..], team)
  }

  /** Every row belongs to exactly one of the two lists: a team's rows plus
      the rest make up all rows. */
  lemma {:induction false} SplitIsPartition(rows: seq<LineupRow>, team: string)
    ensures multiset(OnTeam(rows, team)) + multiset(OtherTeams(rows, team)) == multiset(rows)
    decreases |rows|
  {
    if rows != [] {
      SplitIsPartition(rows[1..], team);
      assert rows == [rows[0]] + rows[1..];
    }
  }

  datatype Lineups = Lineups(matchId: string, matchDate: int, home: seq<LineupRow>, away: seq<LineupRow>)

  /** `get_match_lineups`, given the match lookup and the lineup rows. */
  function MatchLineups(m: Result<MatchRow, HttpError>, rows: seq<LineupRow>): (r: Result<Lineups, HttpError>)
    ensures m.Err? ==> r == Err(m.error)
    ensures m.Ok? ==> r.Ok? && r.value.matchId == m.value.id && r.value.matchDate == m.value.matchDate
    ensures r.Ok? ==> r.value.home == OnTeam(rows, m.value.homeTeam) && r.value.away == OnTeam(rows, m.value.awayTeam)
  {
    if m.Err? then Err(m.error)
    else Ok(Lineups(m.value.id, m.value.matchDate, OnTeam(rows, m.value.homeTeam), OnTeam(rows, m.value.awayTeam)))
  }

  /** When every lineup row is for one of the two distinct sides, the home
      and away lists together hold every row exactly once. */
  lemma LineupsPartition(m: MatchRow, rows: seq<LineupRow>)
    requires m.homeTeam != m.awayTeam
    requires forall x :: x in rows ==> x.teamId == m.homeTeam || x.teamId == m.awayTeam
    ensures var l := MatchLineups(Ok(m), rows).value;
            multiset(l.home) + multiset(l.away) == multiset(rows)
  {
    SplitIsPartition(rows, m.homeTeam);
    OthersAreOnTeam(rows, m.homeTeam, m.awayTeam);
  }

  lemma {:induction false} OthersAreOnTeam(rows: seq<LineupRow>, home: string, away: string)
    requires home != away
    requires forall x :: x in rows ==> x.teamId == home || x.teamId == away
    ensures OtherTeams(rows, home) == OnTeam(rows, away)
    decreases |rows|
  {
    if rows != [] {
      assert rows[0] in rows;
      assert forall x :: x in rows[1..] ==> x in rows;
      OthersAreOnTeam(rows[1..], home, away);
    }
  }

  // ---------------------------------------------------------------------
  // Team summaries
  // ---------------------------------------------------------------------

  datatype TeamSummary = TeamSummary(teamId: string, isHome: bool)

  datatype MatchStats = MatchStats(matchId: string, home: Option<TeamSummary>, away: Option<TeamSummary>)

  /** `get_match_stats`, given the lookup and the summary rows ordered by
      `is_home DESC`: no rows is a 404; the first row is the home side only
      if it is marked home; the away side is the second row, or else the
      first row when that one is not home. */
  function SelectStats(m: Result<MatchRow, HttpError>, stats: seq<TeamSummary>): (r: Result<MatchStats, HttpError>)
    ensures m.Err? ==> r == Err(m.error)
    ensures m.Ok? ==> (r.Err? <==> stats == [])
    ensures r.Err? && m.Ok? ==> r.error == Http(404, NO_STATS)
    ensures r.Ok? ==> (r.value.home.Some? <==> stats[0].isHome)
    ensures r.Ok? && r.value.home.Some? ==> r.value.home.value == stats[0]
    ensures r.Ok? ==> (r.value.away.Some? <==> |stats| > 1 || !stats[0].isHome)
    ensures r.Ok? && r.value.away.Some? ==> r.value.away.value in stats
    ensures r.Ok? ==> r.value.matchId == m.value.id
    ensures r.Ok? && |stats| > 1 ==> r.value.away == Some(stats[1])
    ensures r.Ok? && |stats| == 1 ==> r.value.away == (if stats[0].isHome then None else Some(stats[0]))
  {
    if m.Err? then Err(m.error)
    else if stats == [] then Err(Http(404, NO_STATS))
    else
      var home := if stats[0].isHome then Some(stats[0]) else None;
      var away := if |stats| > 1 then Some(stats[1]) else if !stats[0].isHome then Some(stats[0]) else None;
      Ok(MatchStats(m.value.id, home, away))
  }

  /** With the usual one home row and one away row, ordered home first, each
      side gets its own row. */
  lemma StatsBothSides(m: MatchRow, h: TeamSummary, a: TeamSummary)
    requires h.isHome && !a.isHome
    ensures SelectStats(Ok(m), [h, a]) == Ok(MatchStats(m.id, Some(h), Some(a)))
  {
  }

  /** With the rows in the query's `is_home DESC` order and at most one row
      per side, each side gets the row marked for it, and a side is missing
      exactly when no row is marked for it. */
  lemma StatsSidesMarked(m: MatchRow, stats: seq<TeamSummary>)
    requires stats != []
    requires forall i, j :: 0 <= i < j < |stats| ==> stats[i].isHome || !stats[j].isHome
    requires forall i, j :: 0 <= i < j < |stats| ==> stats[i].isHome != stats[j].isHome
    ensures SelectStats(Ok(m), stats).Ok?
    ensures var r := SelectStats(Ok(m), stats).value;
            && r.matchId == m.id
            && (r.home.Some? <==> exists i :: 0 <= i < |stats| && stats[i].isHome)
            && (r.home.Some? ==> r.home.value.isHome)
            && (r.away.Some? <==> exists i :: 0 <= i < |stats| && !stats[i].isHome)
            && (r.away.Some? ==> !r.away.value.isHome)
  {
  }

  /** A lone row goes to the side it is marked with, and the other side is
      absent: never the same row on both sides. */
  lemma StatsOneRow(m: MatchRow, s: TeamSummary)
    ensures var r := SelectStats(Ok(m), [s]).value;
            (r.home == Some(s) <==> s.isHome) && (r.away == Some(s) <==> !s.isHome)
            && (r.home.None? || r.away.None?)
  {
  }

  datatype MatchEvents<T> = MatchEvents(matchId: string, events: seq<T>, totalEvents: nat)

  /** `get_match_events`: a 404 for an unknown match, else the events and their count. */
  function MatchEventsBody<T>(m: Result<MatchRow, HttpError>, events: seq<T>): (r: Result<MatchEvents<T>, HttpError>)
    ensures r.Err? <==> m.Err?
    ensures r.Ok? ==> r.value.events == events && r.value.totalEvents == |events| && r.value.matchId == m.value.id
  {
    if m.Err? then Err(m.error) else Ok(MatchEvents(m.value.id, events, |events|))
  }
}
