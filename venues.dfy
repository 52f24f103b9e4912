/** `/api/v1/venues`: the filtered venue list, one venue, its matches and
    its statistics; every per-venue endpoint answers 404 for an unknown
    venue before it sends any other query. */
module Venues {
  import opened Common
  import opened Sql
  import opened Paging

  const VENUE_NOT_FOUND: string := "Venue not found"

  /** The search compares name and city with the same placeholder. */
  const SEARCH_COLUMNS: seq<string> := ["name", "city"]

  function VenueFilters(search: Option<string>, state: Option<string>): seq<Pred> {
    LikeFilter(SEARCH_COLUMNS, search) + TextFilter(["state"], Eq, state)
  }

  /** The query of `get_venues`: `(name ILIKE $n OR city ILIKE $n)` bound to
      `%search%`, then `state = $m` bound to the state, each under its own
      `if`, joined by AND or `1=1` without filters; no pagination. */
  method VenuesQuery(search: Option<string>, state: Option<string>) returns (q: Query)
    ensures WellFormed(q)
    ensures Resolve(q) == Some(Bound([OrTrue(VenueFilters(search, state))], None, None))
  {
    var clauses: seq<Clause> := [];
    var params: seq<Param> := [];
    ghost var preds: seq<Pred> := [];
    EmptyBuilds();
    if TextGiven(search) {
      clauses, params, preds := AppendFilter(clauses, params, preds, SEARCH_COLUMNS, ILike, PText(Wrapped(search.value)));
    }
    ghost var spec := LikeFilter(SEARCH_COLUMNS, search);
    assert preds == spec;
    if TextGiven(state) {
      clauses, params, preds := AppendFilter(clauses, params, preds, ["state"], Eq, PText(state.value));
    }
    spec := spec + TextFilter(["state"], Eq, state);
    assert preds == spec;
    JoinOrTrue(clauses, params, preds);
    q := FilterQuery(WhereBody(clauses), params, OrTrue(preds));
  }

  /** With both filters the state is bound right after the search pattern. */
  lemma StateFollowsSearch(search: string, state: string)
    requires search != "" && state != ""
    ensures VenueFilters(Some(search), Some(state))
         == [Test(SEARCH_COLUMNS, ILike, PText(Wrapped(search))), Test(["state"], Eq, PText(state))]
  {
  }

  /** `get_venue`: `WHERE id = $1`, first row, or 404. */
  function VenueBody<T>(row: Option<T>): (r: Result<T, HttpError>)
    ensures r.Ok? <==> row.Some?
    ensures r.Ok? ==> r.value == row.value
    ensures r.Err? ==> r.error == Http(404, VENUE_NOT_FOUND)
  {
    RowOr404(row, VENUE_NOT_FOUND)
  }

  /** `get_venue_matches` once the venue lookup has answered `venue`: the
      page arguments are checked (422) by the framework first, then an
      unknown venue is a 404 and neither the count nor the page query is
      sent; otherwise the venue at $1, the season at $2 when given, and
      LIMIT/OFFSET right after; 50 rows by default, at most 200. */
  method GetVenueMatches<V>(venue: Option<V>, venueId: string, season: Option<int>, page: Option<int>, pageSize: Option<int>)
    returns (r: Result<Plan, HttpError>)
    ensures CheckPaging(page, pageSize, MATCHES_PAGE_SIZE, MATCHES_MAX_PAGE_SIZE).Err? ==>
              r == Err(CheckPaging(page, pageSize, MATCHES_PAGE_SIZE, MATCHES_MAX_PAGE_SIZE).error)
    ensures CheckPaging(page, pageSize, MATCHES_PAGE_SIZE, MATCHES_MAX_PAGE_SIZE).Ok? && venue.None? ==>
              r == Err(Http(404, VENUE_NOT_FOUND))
    ensures r.Ok? <==> CheckPaging(page, pageSize, MATCHES_PAGE_SIZE, MATCHES_MAX_PAGE_SIZE).Ok? && venue.Some?
    ensures r.Ok? ==> WellFormed(r.value.count) && WellFormed(r.value.page)
    ensures r.Ok? ==> var p := CheckPaging(page, pageSize, MATCHES_PAGE_SIZE, MATCHES_MAX_PAGE_SIZE).value;
                      Resolve(r.value.count) == Some(Bound([KeyedPreds(["mr.venue_id"], PText(venueId), "mr.season_id", season)], None, None))
                      && Resolve(r.value.page)
                           == Some(Bound([KeyedPreds(["mr.venue_id"], PText(venueId), "mr.season_id", season)],
                                         Some(PInt(p.size)), Some(PInt(Offset(p)))))
                      && r.value.page.params == r.value.count.params + [PInt(p.size), PInt(Offset(p))]
    ensures r.Ok? ==> r.value.page.limit == Some(if IntGiven(season) then 3 else 2)
  {
    var checked := CheckPaging(page, pageSize, MATCHES_PAGE_SIZE, MATCHES_MAX_PAGE_SIZE);
    if checked.Err? {
      return Err(checked.error);
    }
    if venue.None? {
      return Err(Http(404, VENUE_NOT_FOUND));
    }
    var p := checked.value;
    var plan := KeyedPlan(["mr.venue_id"], PText(venueId), "mr.season_id", season, PInt(p.size), PInt(Offset(p)));
    r := Ok(plan);
  }

  /** `get_venue_stats` once the venue lookup has answered `venue`: an
      unknown venue is a 404 before any statistics query; otherwise both
      statistics queries filter `WHERE venue_id = $1`. */
  method GetVenueStats<V>(venue: Option<V>, venueId: string) returns (r: Result<Query, HttpError>)
    ensures r.Err? <==> venue.None?
    ensures r.Err? ==> r.error == Http(404, VENUE_NOT_FOUND)
    ensures r.Ok? ==> WellFormed(r.value) && r.value.params == [PText(venueId)]
                      && Resolve(r.value) == Some(Bound([[Test(["venue_id"], Eq, PText(venueId))]], None, None))
  {
    if venue.None? {
      return Err(Http(404, VENUE_NOT_FOUND));
    }
    r := Ok(KeyLookup(["venue_id"], PText(venueId)));
  }
}
