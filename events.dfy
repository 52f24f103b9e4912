/** `/api/v1/events`: the paged, filtered event list, and the goal and card
    lists that start from a fixed type condition. */
module Events {
  import opened Common
  import opened Sql
  import opened Paging

  const GOAL_CLAUSE: string := "type = 'goal'"
  const ANY_CARD_CLAUSE: string := "(type = 'yellow_card' OR type = 'red_card')"

  /** The five player columns an event can name a player in. */
  const PLAYER_COLUMNS: seq<string> := ["me.goal_player_id", "me.assist_player_id", "me.card_player_id",
                                        "me.substitution_in_player_id", "me.substitution_out_player_id"]

  function EventFilters(eventType: Option<string>, season: Option<int>, teamId: Option<string>, playerId: Option<string>): seq<Pred> {
    TextFilter(["me.type"], Eq, eventType)
    + IntFilter(["me.season_id"], Eq, season)
    + TextFilter(["me.team_uuid"], Eq, teamId)
    + TextFilter(PLAYER_COLUMNS, Eq, playerId)
  }

  lemma EventFiltersInOrder(eventType: Option<string>, season: Option<int>, teamId: Option<string>, playerId: Option<string>)
    ensures EventFilters(eventType, season, teamId, playerId)
         == TextFilter(["me.type"], Eq, eventType) + IntFilter(["me.season_id"], Eq, season)
            + TextFilter(["me.team_uuid"], Eq, teamId) + TextFilter(PLAYER_COLUMNS, Eq, playerId)
  {
  }

  /** The queries of `get_events`: each present filter adds one clause whose
      placeholder is its parameter's position (the player filter one
      placeholder across all five columns), `1=1` without filters, then
      LIMIT/OFFSET. */
  method EventsPlan(eventType: Option<string>, season: Option<int>, teamId: Option<string>, playerId: Option<string>, p: Paging)
    returns (plan: Plan)
    requires ValidPaging(p, MAX_PAGE_SIZE)
    ensures WellFormed(plan.count) && WellFormed(plan.page)
    ensures Resolve(plan.count) == Some(Bound([OrTrue(EventFilters(eventType, season, teamId, playerId))], None, None))
    ensures Resolve(plan.page)
         == Some(Bound([OrTrue(EventFilters(eventType, season, teamId, playerId))], Some(PInt(p.size)), Some(PInt(Offset(p)))))
  {
    var offset := Offset(p);
    var clauses: seq<Clause>, params: seq<Param>;
    ghost var preds: seq<Pred>;
    EmptyBuilds();
    clauses, params, preds := AppendIf(TextGiven(eventType), [], [], [], ["me.type"], Eq,
                                       PText(if eventType.Some? then eventType.value else ""));
    ghost var spec := TextFilter(["me.type"], Eq, eventType);
    assert preds == spec;
    clauses, params, preds := AppendIf(IntGiven(season), clauses, params, preds, ["me.season_id"], Eq,
                                       PInt(if season.Some? then season.value else 0));
    spec := spec + IntFilter(["me.season_id"], Eq, season);
    clauses, params, preds := AppendIf(TextGiven(teamId), clauses, params, preds, ["me.team_uuid"], Eq,
                                       PText(if teamId.Some? then teamId.value else ""));
    spec := spec + TextFilter(["me.team_uuid"], Eq, teamId);
    clauses, params, preds := AppendIf(TextGiven(playerId), clauses, params, preds, PLAYER_COLUMNS, Eq,
                                       PText(if playerId.Some? then playerId.value else ""));
    spec := spec + TextFilter(PLAYER_COLUMNS, Eq, playerId);
    EventFiltersInOrder(eventType, season, teamId, playerId);
    assert preds == spec;
    plan := PagedPlan(clauses, params, preds, PInt(p.size), PInt(offset));
  }

  /** `get_events`: page arguments are checked (422) before any query. */
  method GetEvents(eventType: Option<string>, season: Option<int>, teamId: Option<string>, playerId: Option<string>,
                   page: Option<int>, pageSize: Option<int>)
    returns (r: Result<Plan, HttpError>)
    ensures r.Err? <==> CheckPaging(page, pageSize, DEFAULT_PAGE_SIZE, MAX_PAGE_SIZE).Err?
    ensures r.Ok? ==> WellFormed(r.value.count) && WellFormed(r.value.page)
    ensures r.Ok? ==> Resolve(r.value.count) == Some(Bound([OrTrue(EventFilters(eventType, season, teamId, playerId))], None, None))
    ensures r.Ok? ==> var p := CheckPaging(page, pageSize, DEFAULT_PAGE_SIZE, MAX_PAGE_SIZE).value;
                      Resolve(r.value.page)
                        == Some(Bound([OrTrue(EventFilters(eventType, season, teamId, playerId))],
                                      Some(PInt(p.size)), Some(PInt(Offset(p)))))
  {
    var checked := CheckPaging(page, pageSize, DEFAULT_PAGE_SIZE, MAX_PAGE_SIZE);
    if checked.Err? {
      return Err(checked.error);
    }
    var plan := EventsPlan(eventType, season, teamId, playerId, checked.value);
    r := Ok(plan);
  }

  /** The player filter is one predicate: a single bound value tested
      against all five player columns. */
  lemma PlayerFilterOnePlaceholder(playerId: string)
    requires playerId != ""
    ensures EventFilters(None, None, None, Some(playerId)) == [Test(PLAYER_COLUMNS, Eq, PText(playerId))]
    ensures |PLAYER_COLUMNS| == 5
  {
  }

  function GoalFilters(season: Option<int>, playerId: Option<string>, teamId: Option<string>): seq<Pred> {
    [Fixed(GOAL_CLAUSE)]
    + IntFilter(["season_id"], Eq, season)
    + TextFilter(["goal_player_id"], Eq, playerId)
    + TextFilter(["team_uuid"], Eq, teamId)
  }

  lemma GoalFiltersInOrder(season: Option<int>, playerId: Option<string>, teamId: Option<string>)
    ensures GoalFilters(season, playerId, teamId)
         == [Fixed(GOAL_CLAUSE)] + IntFilter(["season_id"], Eq, season)
            + TextFilter(["goal_player_id"], Eq, playerId) + TextFilter(["team_uuid"], Eq, teamId)
  {
  }

  /** The query of `get_goals`: always the goal condition first, then the
      present filters with placeholders counting from 1. */
  method GoalsQuery(season: Option<int>, playerId: Option<string>, teamId: Option<string>) returns (q: Query)
    ensures WellFormed(q)
    ensures Resolve(q) == Some(Bound([GoalFilters(season, playerId, teamId)], None, None))
    ensures |q.wheres| == 1 && |q.wheres[0]| >= 1 && q.wheres[0][0] == Lit(GOAL_CLAUSE)
  {
    var clauses: seq<Clause> := [Lit(GOAL_CLAUSE)];
    var params: seq<Param> := [];
    ghost var preds: seq<Pred> := [Fixed(GOAL_CLAUSE)];
    LiteralStart(GOAL_CLAUSE);
    if IntGiven(season) {
      clauses, params, preds := AppendFilter(clauses, params, preds, ["season_id"], Eq, PInt(season.value));
    }
    ghost var spec := [Fixed(GOAL_CLAUSE)] + IntFilter(["season_id"], Eq, season);
    assert preds == spec;
    if TextGiven(playerId) {
      clauses, params, preds := AppendFilter(clauses, params, preds, ["goal_player_id"], Eq, PText(playerId.value));
    }
    spec := spec + TextFilter(["goal_player_id"], Eq, playerId);
    assert preds == spec;
    if TextGiven(teamId) {
      clauses, params, preds := AppendFilter(clauses, params, preds, ["team_uuid"], Eq, PText(teamId.value));
    }
    spec := spec + TextFilter(["team_uuid"], Eq, teamId);
    assert preds == spec;
    GoalFiltersInOrder(season, playerId, teamId);
    q := FilterQuery(clauses, params, preds);
  }

  // ---------------------------------------------------------------------
  // Cards
  // ---------------------------------------------------------------------

  /** `f"type = '{card_type}_card'"`: the argument pasted into the SQL text. */
  function SplicedCardClause(cardType: string): (t: string)
    ensures |t| == |cardType| + 14
    ensures t[..8] == "type = '" && t[8..8 + |cardType|] == cardType && t[8 + |cardType|..] == "_card'"
  {
    "type = '" + cardType + "_card'"
  }

  function CardFiltersAsWritten(cardType: Option<string>, season: Option<int>, playerId: Option<string>): seq<Pred> {
    [Fixed(if TextGiven(cardType) then SplicedCardClause(cardType.value) else ANY_CARD_CLAUSE)]
    + IntFilter(["season_id"], Eq, season)
    + TextFilter(["card_player_id"], Eq, playerId)
  }

  /** `get_cards` as written: a given card type REPLACES the any-card
      condition (it is not added to it) and is pasted into the SQL text. */
  method CardsQueryAsWritten(cardType: Option<string>, season: Option<int>, playerId: Option<string>) returns (q: Query)
    ensures WellFormed(q)
    ensures Resolve(q) == Some(Bound([CardFiltersAsWritten(cardType, season, playerId)], None, None))
    ensures |q.wheres| == 1 && |q.wheres[0]| >= 1
    ensures TextGiven(cardType) ==> q.wheres[0][0] == Lit(SplicedCardClause(cardType.value))
  {
    var clauses: seq<Clause> := [Lit(ANY_CARD_CLAUSE)];
    var params: seq<Param> := [];
    ghost var preds: seq<Pred> := [Fixed(ANY_CARD_CLAUSE)];
    LiteralStart(ANY_CARD_CLAUSE);
    if TextGiven(cardType) {
      clauses := [Lit(SplicedCardClause(cardType.value))];
      preds := [Fixed(SplicedCardClause(cardType.value))];
      LiteralStart(SplicedCardClause(cardType.value));
    }
    ghost var spec := [Fixed(if TextGiven(cardType) then SplicedCardClause(cardType.value) else ANY_CARD_CLAUSE)];
    assert preds == spec;
    if IntGiven(season) {
      clauses, params, preds := AppendFilter(clauses, params, preds, ["season_id"], Eq, PInt(season.value));
    }
    spec := spec + IntFilter(["season_id"], Eq, season);
    assert preds == spec;
    if TextGiven(playerId) {
      clauses, params, preds := AppendFilter(clauses, params, preds, ["card_player_id"], Eq, PText(playerId.value));
    }
    spec := spec + TextFilter(["card_player_id"], Eq, playerId);
    assert preds == spec;
    q := FilterQuery(clauses, params, preds);
  }

  /** A card type carrying a quote ends the string literal early: the
      literal opened at index 7 closes at index 9, and the rest of the
      argument, ` OR 1=1 --`, is read as SQL: a condition every event
      satisfies, then a comment that swallows the `_card'` suffix. */
  lemma CardTypeEscapesLiteral()
    ensures var t := SplicedCardClause("x' OR 1=1 --");
            t == "type = 'x' OR 1=1 --_card'"
            && t[7] == '\'' && t[8] == 'x' && t[9] == '\''
            && t[10..] == " OR 1=1 --_card'"
  {
    var arg := "x' OR 1=1 --";
    var t := SplicedCardClause(arg);
    assert t == "type = '" + arg + "_card'";
    assert t[10..] == arg[2..] + "_card'";
  }

  /** The `type` column value a card type names: `yellow` is `yellow_card`. */
  function CardTypeValue(cardType: string): string {
    cardType + "_card"
  }

  /** The first filter of the corrected query: the card type, or any card. */
  function CardTypeFilter(cardType: Option<string>): seq<Pred> {
    if TextGiven(cardType) then [Test(["type"], Eq, PText(CardTypeValue(cardType.value)))] else [Fixed(ANY_CARD_CLAUSE)]
  }

  function CardFilters(cardType: Option<string>, season: Option<int>, playerId: Option<string>): seq<Pred> {
    CardTypeFilter(cardType)
    + IntFilter(["season_id"], Eq, season)
    + TextFilter(["card_player_id"], Eq, playerId)
  }

  lemma CardFiltersInOrder(cardType: Option<string>, season: Option<int>, playerId: Option<string>)
    ensures CardFilters(cardType, season, playerId)
         == CardTypeFilter(cardType)
            + IntFilter(["season_id"], Eq, season) + TextFilter(["card_player_id"], Eq, playerId)
  {
  }

  /** The clause list of the corrected card query.  It is a function of
      which arguments are present only, so no argument VALUE can change the
      statement text: every value reaches the database as a parameter. */
  function CardClauses(byType: bool, bySeason: bool, byPlayer: bool): seq<Clause> {
    var n := if byType then 1 else 0;
    var m := n + if bySeason then 1 else 0;
    (if byType then [Cmp(["type"], Eq, 1)] else [Lit(ANY_CARD_CLAUSE)])
    + (if bySeason then [Cmp(["season_id"], Eq, n + 1)] else [])
    + (if byPlayer then [Cmp(["card_player_id"], Eq, m + 1)] else [])
  }

  /** `get_cards` with the card type bound as a parameter, like every other
      filter. */
  method CardsQuery(cardType: Option<string>, season: Option<int>, playerId: Option<string>) returns (q: Query)
    ensures WellFormed(q)
    ensures Resolve(q) == Some(Bound([CardFilters(cardType, season, playerId)], None, None))
    ensures q.wheres == [CardClauses(TextGiven(cardType), IntGiven(season), TextGiven(playerId))]
  {
    var clauses, params, preds := CardBuilder(cardType, season, playerId);
    q := FilterQuery(clauses, params, preds);
  }

  /** The clause and parameter lists of the corrected `get_cards`: the card
      type at `$1` in place of the any-card condition, then the season and
      the player. */
  method CardBuilder(cardType: Option<string>, season: Option<int>, playerId: Option<string>)
    returns (clauses: seq<Clause>, params: seq<Param>, ghost preds: seq<Pred>)
    ensures Builds(clauses, params, preds)
    ensures preds == CardFilters(cardType, season, playerId)
    ensures clauses == CardClauses(TextGiven(cardType), IntGiven(season), TextGiven(playerId))
  {
    clauses, params, preds := CardTypeStep(cardType);
    ghost var spec := CardTypeFilter(cardType);
    ghost var n := if TextGiven(cardType) then 1 else 0;
    ghost var cs := CardTypeClause(TextGiven(cardType));
    clauses, params, preds := AppendIf(IntGiven(season), clauses, params, preds, ["season_id"], Eq,
                                       PInt(if season.Some? then season.value else 0));
    spec := spec + IntFilter(["season_id"], Eq, season);
    cs := cs + if IntGiven(season) then [Cmp(["season_id"], Eq, n + 1)] else [];
    ghost var m := n + if IntGiven(season) then 1 else 0;
    assert clauses == cs && |params| == m;
    clauses, params, preds := AppendIf(TextGiven(playerId), clauses, params, preds, ["card_player_id"], Eq,
                                       PText(if playerId.Some? then playerId.value else ""));
    spec := spec + TextFilter(["card_player_id"], Eq, playerId);
    cs := cs + if TextGiven(playerId) then [Cmp(["card_player_id"], Eq, m + 1)] else [];
    CardFiltersInOrder(cardType, season, playerId);
    CardClausesInOrder(TextGiven(cardType), IntGiven(season), TextGiven(playerId));
    assert preds == spec;
    assert clauses == cs;
  }

  function CardTypeClause(byType: bool): seq<Clause> {
    if byType then [Cmp(["type"], Eq, 1)] else [Lit(ANY_CARD_CLAUSE)]
  }

  /** The first condition of the corrected card query: the card type at `$1`,
      or the any-card condition when no type is given. */
  method CardTypeStep(cardType: Option<string>)
    returns (clauses: seq<Clause>, params: seq<Param>, ghost preds: seq<Pred>)
    ensures Builds(clauses, params, preds)
    ensures preds == CardTypeFilter(cardType)
    ensures clauses == CardTypeClause(TextGiven(cardType))
    ensures |params| == if TextGiven(cardType) then 1 else 0
  {
    clauses, params, preds := [Lit(ANY_CARD_CLAUSE)], [], [Fixed(ANY_CARD_CLAUSE)];
    LiteralStart(ANY_CARD_CLAUSE);
    if TextGiven(cardType) {
      EmptyBuilds();
      clauses, params, preds := AppendFilter([], [], [], ["type"], Eq, PText(CardTypeValue(cardType.value)));
    }
  }

  lemma CardClausesInOrder(byType: bool, bySeason: bool, byPlayer: bool)
    ensures CardClauses(byType, bySeason, byPlayer)
         == CardTypeClause(byType)
            + (if bySeason then [Cmp(["season_id"], Eq, (if byType then 1 else 0) + 1)] else [])
            + (if byPlayer then [Cmp(["card_player_id"], Eq, (if byType then 1 else 0) + (if bySeason then 1 else 0) + 1)] else [])
  {
  }

  /** As written, two card types give two different statement texts. */
  lemma SplicedTextDependsOnValue(c1: string, c2: string)
    requires c1 != c2
    ensures SplicedCardClause(c1) != SplicedCardClause(c2)
  {
    var p := "type = '";
    if |c1| == |c2| {
      var i :| 0 <= i < |c1| && c1[i] != c2[i];
      assert SplicedCardClause(c1)[|p| + i] == c1[i];
      assert SplicedCardClause(c2)[|p| + i] == c2[i];
    } else {
      assert |SplicedCardClause(c1)| != |SplicedCardClause(c2)|;
    }
  }
}
