/** `/api/v1/players`: the searchable player list, one player's matches,
    the three statistics queries that share one filter, and the 404s. */
module Players {
  import opened Common
  import opened Sql
  import opened Paging

  const PLAYER_NOT_FOUND: string := "Player not found"
  const NO_TEAM_HISTORY: string := "No team history found for this player"

  /** The lineup table's alias and the two columns the per-player queries
      filter on. */
  const LINEUP_PREFIX: string := "ml."
  const PLAYER_COLUMN: string := "player_id"
  const SEASON_COLUMN: string := "season_id"
  const ML_PLAYER: string := LINEUP_PREFIX + PLAYER_COLUMN
  const ML_SEASON: string := LINEUP_PREFIX + SEASON_COLUMN

  function PlayerFilters(search: Option<string>, position: Option<string>, nationality: Option<string>): seq<Pred> {
    LikeFilter(["player_name"], search)
    + LikeFilter(["position"], position)
    + LikeFilter(["nationality"], nationality)
  }

  lemma PlayerFiltersInOrder(search: Option<string>, position: Option<string>, nationality: Option<string>)
    ensures PlayerFilters(search, position, nationality)
         == LikeFilter(["player_name"], search) + LikeFilter(["position"], position) + LikeFilter(["nationality"], nationality)
  {
  }

  /** The queries of `get_players`: each present text argument becomes one
      ILIKE clause bound to `%value%` at its own position, `1=1` without
      filters, then LIMIT/OFFSET. */
  method PlayersPlan(search: Option<string>, position: Option<string>, nationality: Option<string>, p: Paging)
    returns (plan: Plan)
    requires ValidPaging(p, MAX_PAGE_SIZE)
    ensures WellFormed(plan.count) && WellFormed(plan.page)
    ensures Resolve(plan.count) == Some(Bound([OrTrue(PlayerFilters(search, position, nationality))], None, None))
    ensures Resolve(plan.page)
         == Some(Bound([OrTrue(PlayerFilters(search, position, nationality))], Some(PInt(p.size)), Some(PInt(Offset(p)))))
  {
    var offset := Offset(p);
    var clauses: seq<Clause>, params: seq<Param>;
    ghost var preds: seq<Pred>;
    EmptyBuilds();
    clauses, params, preds := AppendIf(TextGiven(search), [], [], [], ["player_name"], ILike,
                                       PText(if TextGiven(search) then Wrapped(search.value) else ""));
    ghost var spec := LikeFilter(["player_name"], search);
    assert preds == spec;
    clauses, params, preds := AppendIf(TextGiven(position), clauses, params, preds, ["position"], ILike,
                                       PText(if TextGiven(position) then Wrapped(position.value) else ""));
    spec := spec + LikeFilter(["position"], position);
    clauses, params, preds := AppendIf(TextGiven(nationality), clauses, params, preds, ["nationality"], ILike,
                                       PText(if TextGiven(nationality) then Wrapped(nationality.value) else ""));
    spec := spec + LikeFilter(["nationality"], nationality);
    PlayerFiltersInOrder(search, position, nationality);
    assert preds == spec;
    plan := PagedPlan(clauses, params, preds, PInt(p.size), PInt(offset));
  }

  /** `get_players`: page arguments are checked (422) before any query. */
  method GetPlayers(page: Option<int>, pageSize: Option<int>, search: Option<string>, position: Option<string>, nationality: Option<string>)
    returns (r: Result<Plan, HttpError>)
    ensures r.Err? <==> CheckPaging(page, pageSize, DEFAULT_PAGE_SIZE, MAX_PAGE_SIZE).Err?
    ensures r.Ok? ==> WellFormed(r.value.count) && WellFormed(r.value.page)
    ensures r.Ok? ==> Resolve(r.value.count) == Some(Bound([OrTrue(PlayerFilters(search, position, nationality))], None, None))
    ensures r.Ok? ==> var p := CheckPaging(page, pageSize, DEFAULT_PAGE_SIZE, MAX_PAGE_SIZE).value;
                      Resolve(r.value.page)
                        == Some(Bound([OrTrue(PlayerFilters(search, position, nationality))],
                                      Some(PInt(p.size)), Some(PInt(Offset(p)))))
  {
    var checked := CheckPaging(page, pageSize, DEFAULT_PAGE_SIZE, MAX_PAGE_SIZE);
    if checked.Err? {
      return Err(checked.error);
    }
    var plan := PlayersPlan(search, position, nationality, checked.value);
    r := Ok(plan);
  }

  /** A substring test: ILIKE against a text that starts and ends with `%`. */
  predicate IsPattern(f: Pred) {
    f.Test? && f.op == ILike && f.value.PText?
    && |f.value.s| >= 2 && f.value.s[0] == '%' && f.value.s[|f.value.s| - 1] == '%'
  }

  lemma LikeIsPattern(cols: seq<string>, s: Option<string>)
    ensures forall f :: f in LikeFilter(cols, s) ==> IsPattern(f)
  {
    if TextGiven(s) {
      var w := Wrapped(s.value);
      assert LikeFilter(cols, s) == [Test(cols, ILike, PText(w))];
    }
  }

  /** Every text filter of the player list is a substring pattern: its bound
      value is the argument wrapped in `%`. */
  lemma PlayerPatternsWrapped(search: Option<string>, position: Option<string>, nationality: Option<string>)
    ensures forall f :: f in PlayerFilters(search, position, nationality) ==> IsPattern(f)
  {
    LikeIsPattern(["player_name"], search);
    LikeIsPattern(["position"], position);
    LikeIsPattern(["nationality"], nationality);
  }

  // ---------------------------------------------------------------------
  // Matches of one player
  // ---------------------------------------------------------------------

  /** The queries of `get_player_matches`: the player at $1, the season at
      $2 when given, then LIMIT/OFFSET right after; 50 rows by default, at
      most 200. */
  method GetPlayerMatches(playerId: string, season: Option<int>, page: Option<int>, pageSize: Option<int>)
    returns (r: Result<Plan, HttpError>)
    ensures r.Err? <==> CheckPaging(page, pageSize, MATCHES_PAGE_SIZE, MATCHES_MAX_PAGE_SIZE).Err?
    ensures r.Ok? ==> WellFormed(r.value.count) && WellFormed(r.value.page)
    ensures r.Ok? ==> var p := CheckPaging(page, pageSize, MATCHES_PAGE_SIZE, MATCHES_MAX_PAGE_SIZE).value;
                      p.size <= MATCHES_MAX_PAGE_SIZE
                      && Resolve(r.value.page)
                           == Some(Bound([KeyedPreds([ML_PLAYER], PText(playerId), ML_SEASON, season)],
                                         Some(PInt(p.size)), Some(PInt(Offset(p)))))
                      && r.value.page.params == r.value.count.params + [PInt(p.size), PInt(Offset(p))]
                      && Resolve(r.value.count) == Some(Bound([KeyedPreds([ML_PLAYER], PText(playerId), ML_SEASON, season)], None, None))
    ensures r.Ok? ==> r.value.page.limit == Some(if IntGiven(season) then 3 else 2)
  {
    var checked := CheckPaging(page, pageSize, MATCHES_PAGE_SIZE, MATCHES_MAX_PAGE_SIZE);
    if checked.Err? {
      return Err(checked.error);
    }
    var p := checked.value;
    var offset := Offset(p);
    var plan := KeyedPlan([ML_PLAYER], PText(playerId), ML_SEASON, season, PInt(p.size), PInt(offset));
    r := Ok(plan);
  }

  // ---------------------------------------------------------------------
  // Statistics of one player
  // ---------------------------------------------------------------------

  /** Python's `s.replace(pat, "")`: every non-overlapping occurrence of
      `pat`, scanning left to right, removed. */
  function RemoveAll(s: string, pat: string): (r: string)
    requires pat != []
    ensures |r| <= |s|
    decreases |s|
  {
    if |s| < |pat| then s
    else if s[..|pat|] == pat then RemoveAll(s[|pat|..], pat)
    else [s[0]] + RemoveAll(s[1..], pat)
  }

  /** A text in which the pattern's first character never occurs is left
      as it is. */
  lemma {:induction false} RemoveAllAbsent(s: string, pat: string)
    requires pat != [] && pat[0] !in s
    ensures RemoveAll(s, pat) == s
    decreases |s|
  {
    if |s| >= |pat| {
      assert s[..|pat|][0] == s[0];
      assert s[1..] == s[1..] && forall c :: c in s[1..] ==> c in s;
      RemoveAllAbsent(s[1..], pat);
      assert s == [s[0]] + s[1..];
    }
  }

  /** A text that does not start with the pattern's first character keeps
      its first character and continues after it. */
  lemma RemoveAllSkip(s: string, pat: string)
    requires pat != [] && s != [] && s[0] != pat[0]
    ensures RemoveAll(s, pat) == [s[0]] + RemoveAll(s[1..], pat)
  {
    if |s| >= |pat| {
      assert s[..|pat|][0] == s[0];
    }
  }

  /** A leading text free of the pattern's first character is kept. */
  lemma {:induction false} RemoveAllKeepsPrefix(x: string, t: string, pat: string)
    requires pat != [] && pat[0] !in x
    ensures RemoveAll(x + t, pat) == x + RemoveAll(t, pat)
    decreases |x|
  {
    if x != [] {
      var s := x + t;
      assert s[0] == x[0];
      RemoveAllSkip(s, pat);
      assert s[1..] == x[1..] + t;
      assert pat[0] !in x[1..] by {
        assert forall c :: c in x[1..] ==> c in x;
      }
      RemoveAllKeepsPrefix(x[1..], t, pat);
      assert x == [x[0]] + x[1..];
    } else {
      assert x + t == t;
    }
  }

  /** An occurrence of the pattern at the front is dropped. */
  lemma RemoveAllDropsFront(t: string, pat: string)
    requires pat != []
    ensures RemoveAll(pat + t, pat) == RemoveAll(t, pat)
  {
    assert (pat + t)[..|pat|] == pat;
    assert (pat + t)[|pat|..] == t;
  }

  /** Dropping one `pat` between two texts free of its first character. */
  lemma RemoveOne(x: string, y: string, pat: string)
    requires pat != [] && pat[0] !in x && pat[0] !in y
    ensures RemoveAll(x + pat + y, pat) == x + y
  {
    assert x + pat + y == x + (pat + y);
    RemoveAllKeepsPrefix(x, pat + y, pat);
    RemoveAllDropsFront(y, pat);
    RemoveAllAbsent(y, pat);
  }

  /** A clause with every column's `ml.` removed. */
  function StripClause(c: Clause): (r: Clause)
    ensures c.Cmp? <==> r.Cmp?
    ensures c.Cmp? ==> r.op == c.op && r.ph == c.ph && |r.cols| == |c.cols|
    ensures c.Cmp? ==> forall i :: 0 <= i < |c.cols| ==> |r.cols[i]| <= |c.cols[i]|
    ensures c.Lit? ==> |r.text| <= |c.text|
  {
    match c
    case Cmp(cols, op, ph) => Cmp(seq(|cols|, i requires 0 <= i < |cols| => RemoveAll(cols[i], LINEUP_PREFIX)), op, ph)
    case Lit(t) => Lit(RemoveAll(t, LINEUP_PREFIX))
  }

  /** The lineup alias in front of a column name maps it to the shot
      table's own column. */
  lemma StripColumn(n: string, op: Op, ph: nat)
    requires 'm' !in n
    ensures StripClause(Cmp([LINEUP_PREFIX + n], op, ph)) == Cmp([n], op, ph)
  {
    assert LINEUP_PREFIX + n == "" + LINEUP_PREFIX + n;
    RemoveOne("", n, LINEUP_PREFIX);
    var stripped := seq(1, i requires 0 <= i < 1 => RemoveAll([LINEUP_PREFIX + n][i], LINEUP_PREFIX));
    assert stripped[0] == n;
    assert stripped == [n];
  }

  datatype StatsQueries = StatsQueries(basic: Query, shooting: Query, passing: Query, season: SeasonLabel)

  /** `get_player_stats`: the appearance and passing queries filter the
      lineup rows (`ml.`), the shooting query filters the shot table with
      the same filter minus every `ml.` and the same parameters; the season
      is reported as given, or as "all". */
  method GetPlayerStats(playerId: string, season: Option<int>) returns (r: StatsQueries)
    ensures WellFormed(r.basic) && WellFormed(r.shooting) && WellFormed(r.passing)
    ensures r.passing == r.basic
    ensures r.shooting.params == r.basic.params
    ensures |r.basic.wheres| == 1 && |r.shooting.wheres| == 1
    ensures |r.shooting.wheres[0]| == |r.basic.wheres[0]|
    ensures forall i :: 0 <= i < |r.basic.wheres[0]| ==> r.shooting.wheres[0][i] == StripClause(r.basic.wheres[0][i])
    ensures Resolve(r.basic) == Some(Bound([KeyedPreds([ML_PLAYER], PText(playerId), ML_SEASON, season)], None, None))
    ensures Resolve(r.shooting) == Some(Bound([KeyedPreds([PLAYER_COLUMN], PText(playerId), SEASON_COLUMN, season)], None, None))
    ensures r.season == SeasonOrAll(season)
  {
    var clauses, params := KeyedFilter([ML_PLAYER], PText(playerId), ML_SEASON, season);
    ghost var preds := KeyedPreds([ML_PLAYER], PText(playerId), ML_SEASON, season);
    var basic := FilterQuery(clauses, params, preds);
    StripColumn(PLAYER_COLUMN, Eq, 1);
    StripColumn(SEASON_COLUMN, Eq, 2);
    var shotClauses := [Cmp([PLAYER_COLUMN], Eq, 1)];
    ghost var shotPreds := [Test([PLAYER_COLUMN], Eq, PText(playerId))];
    EmptyBuilds();
    AddFilter([], [], [], [PLAYER_COLUMN], Eq, PText(playerId));
    assert [] + shotClauses == shotClauses;
    assert [] + shotPreds == shotPreds;
    if IntGiven(season) {
      AddFilter(shotClauses, [PText(playerId)], shotPreds, [SEASON_COLUMN], Eq, PInt(season.value));
      shotClauses := shotClauses + [Cmp([SEASON_COLUMN], Eq, 2)];
      shotPreds := shotPreds + [Test([SEASON_COLUMN], Eq, PInt(season.value))];
      assert [PText(playerId)] + [PInt(season.value)] == params;
    }
    assert shotPreds == KeyedPreds([PLAYER_COLUMN], PText(playerId), SEASON_COLUMN, season);
    var shooting := FilterQuery(shotClauses, params, shotPreds);
    r := StatsQueries(basic, shooting, basic, SeasonOrAll(season));
  }

  /** `get_player`: a missing player is a 404. */
  function PlayerBody<T>(row: Option<T>): (r: Result<T, HttpError>)
    ensures r.Err? <==> row.None?
    ensures r.Err? ==> r.error == Http(404, PLAYER_NOT_FOUND)
  {
    RowOr404(row, PLAYER_NOT_FOUND)
  }

  datatype PlayerTeams<T> = PlayerTeams(playerId: string, teams: seq<T>)

  function PlayerTeamsBody<T>(playerId: string, teams: seq<T>): (r: Result<PlayerTeams<T>, HttpError>)
    ensures r.Err? <==> teams == []
    ensures r.Err? ==> r.error == Http(404, NO_TEAM_HISTORY)
    ensures r.Ok? ==> r.value.teams == teams && r.value.playerId == playerId
  {
    if teams == [] then Err(Http(404, NO_TEAM_HISTORY)) else Ok(PlayerTeams(playerId, teams))
  }
}
