# NWSL API — a verified model of its key store, query builders and derivation rules

The NWSL API is a FastAPI service that serves National Women's Soccer
League data (matches, events, players, teams, venues, leaderboards) from
PostgreSQL through asyncpg. This Dafny project models three things the
service computes for itself:

- **The API-key store** (`app/core/api_keys.py`, `app/core/auth.py`,
  `app/api/developers.py`). The `api_keys` table is a sequence of records
  held by the class `ApiKeys.KeyStore`. Its methods create, validate, list
  and revoke keys. Each one is proved equal to a pure step function on the
  table (`CreateStep`, `ValidateStep`, `RevokeStep`), and those functions
  carry the properties. `KeyLifecycle` runs any sequence of operations and
  proves the lifecycle invariants:
  - `usage_count` never decreases;
  - a revoked key never validates again;
  - an issued key validates;
  - a duplicate (email, name) is always refused.

  `Auth.Gate` is the request gate (missing, demo, valid or invalid key).
  `Developers` maps the store's outcomes to HTTP answers.
- **The parameterised SQL builders** of every list endpoint. A query is a
  value `Sql.Query`: its WHERE sections, its LIMIT and OFFSET placeholders,
  and its parameter list. Each clause is a column comparison with a `$n`
  placeholder or a fixed text. `Sql.Resolve` binds `$n` to the n-th
  parameter, as asyncpg does. `Sql.WellFormed` holds when:
  - there is at most one WHERE keyword;
  - every placeholder is bound;
  - every parameter is used.

  Each endpoint's builder is an imperative method that appends one clause
  and one parameter per present filter, as the handlers do. It is proved
  to produce a well-formed query whose bound meaning equals an independent
  list of intended predicates. Pagination (`Paging`) covers FastAPI's
  bounds checks (a 422), `offset = (page-1)*page_size` and `total_pages` as
  the ceiling of `total/page_size`.
- **Small derivation rules**:
  - the home/away lineup split and stats selection of a match;
  - a team's side and its W/D/L result;
  - the `ml.` prefix stripping of the player shooting query;
  - the 404 conditions of every handler.

Database results are inputs to the model: an optional row, a sequence of
rows or a count. The clock is a parameter `now`, and the key's random
characters are a parameter `choices`. Python's truthiness of optional
arguments is modelled explicitly: `if season:` skips 0, and `if team_id:`
skips the empty string (`Common.IntGiven`, `Common.TextGiven`).

Modules, one file each: `Common`, `Sql`, `Paging`, `ApiKeys`, `KeyLifecycle`,
`Auth`, `Developers`, `Matches`, `Events`, `Players`, `Teams`, `Venues`,
`Stats`, `Items`.

## Model

| member | source | states |
|---|---|---|
| Common.Wrapped | app/api/players.py:26-39 | the ILIKE pattern `f"%{v}%"` is v with one `%` added at each end |
| Common.RowOr404 | app/api/players.py:97-98 | after a `fetchrow`, Ok iff a row came back, carrying that row; otherwise a 404 with the given detail |
| Common.RowsOr404 | app/api/players.py:261-262 | after a `fetch`, Ok iff some rows came back; otherwise a 404 |
| Common.SeasonOrAll | app/api/players.py:235 | the reported season is the year iff a truthy season was given, else the label "all" |
| Common.ListBody | app/api/events.py:137-140 | an unpaginated list answer carries the rows and `total == len(rows)` |
| Common.AggregateOr404 | app/api/teams.py:240-241 | an aggregate row is answered iff it exists and its count is non-zero; otherwise a 404 |
| Sql.Bind | app/api/matches.py:51 | `$n` binds the n-th parameter (1-based) and is unbound outside `1..len(params)` |
| Sql.AddFilter | app/api/matches.py:27-30 | appending `cols op $(len+1)` with one new parameter keeps the builder invariant: the clause list resolves, under the parameters, to the intended predicates, and every parameter is used |
| Sql.AppendFilter | app/api/matches.py:27-45 | one present filter appends exactly one clause, whose placeholder is the new parameter's 1-based position, and exactly one parameter; the invariant is kept |
| Sql.AddLiteral | app/api/events.py:95 | a fixed clause such as `type = 'goal'` adds no parameter and keeps the invariant |
| Sql.OneSection | app/api/events.py:114 | a built clause list is one WHERE section with the same meaning |
| Sql.OrTrue | app/api/matches.py:47 | the WHERE body is never empty: `1=1` stands in when there is no filter |
| Sql.When | app/api/matches.py:27 | an optional filter contributes its predicate iff it is given, and nothing otherwise |
| Sql.JoinOrTrue | app/api/matches.py:47 | joining the clauses with AND, or `1=1` when there are none, keeps the invariant with the intended predicates (or the single `1=1`) |
| Sql.CountQuery | app/api/matches.py:50-51 | the count query with the filter parameters alone is well formed and resolves to the intended filter |
| Sql.LimitQuery | app/api/stats.py:81-83 | `LIMIT $(len+1)` with the limit appended is well formed and binds LIMIT to the limit |
| Sql.PageQuery | app/api/matches.py:77-79 | `LIMIT $(len+1) OFFSET $(len+2)` with `[page_size, offset]` appended is well formed and binds LIMIT to page_size and OFFSET to offset |
| Sql.PagedPlan | app/api/matches.py:47-81 | from built filters, the count and page queries share the WHERE body; both are well formed and resolve to the intended predicates (or `1=1`), and only the page query has LIMIT/OFFSET |
| Sql.LiteralStart | app/api/events.py:95 | a clause list that starts with a fixed text and no parameter is a valid builder state |
| Sql.FilterQuery | app/api/events.py:114-135 | a built clause list sent as one WHERE without paging is well formed and means the intended predicates |
| Sql.KeyedFilter | app/api/players.py:113-118 | the key is always `$1` with the first parameter; a truthy season adds `season = $2` and a second parameter; otherwise nothing is added |
| Sql.KeyedPlan | app/api/teams.py:137-190 | a keyed filter plus paging: both queries are well formed and mean "key, and season when given"; the page query's parameters are the count's plus `[page_size, offset]`, with LIMIT at 3 or 2 and OFFSET at 4 or 3 |
| Sql.KeyLookup | app/api/venues.py:147-151 | a one-key lookup `col = $1` with one parameter is well formed and binds the key |
| Paging.IntArg | app/api/matches.py:17-18 | a bounded integer query argument is accepted iff it lies within its bounds, and then takes its value or its default; otherwise the answer is a 422 naming the field |
| Paging.CheckPaging | app/api/matches.py:17-21 | page ≥ 1 and 1 ≤ page_size ≤ the maximum, or a 422; on success the defaults are applied and the paging is valid, so `offset = (page-1)*page_size` is a natural number |
| Paging.TotalPagesIsCeiling | app/api/matches.py:89 | `(total + size - 1) // size` is the ceiling of total/size: enough pages for every row, and no wholly empty last page |
| Paging.TotalPages | app/api/matches.py:89 | no pages iff no rows, and never more pages than rows |
| Paging.Pagination | app/api/matches.py:85-90 | the pagination block echoes total, page and page_size, and its total_pages is that ceiling |
| Paging.Window | app/api/matches.py:77 | LIMIT/OFFSET return at most page_size rows |
| Paging.PagesUpToIsPrefix | app/api/matches.py:77 | pages 1..n together are the first n·page_size rows, in order |
| Paging.PagesCoverAll | app/api/matches.py:89 | pages 1..total_pages together are every row exactly once, in order |
| ApiKeys.AlphabetChar | app/core/api_keys.py:12 | every one of the 62 choices is an ASCII letter or digit |
| ApiKeys.AlphabetIndex | app/core/api_keys.py:12 | every ASCII letter or digit is one of the 62 choices |
| ApiKeys.AlphabetIndexOfChar | app/core/api_keys.py:12 | choice index and character convert back and forth exactly |
| ApiKeys.GenerateApiKey | app/core/api_keys.py:8-13 | the key is `nwsl_live_` followed by exactly 48 ASCII letters or digits, character i being the i-th choice |
| ApiKeys.Indexes | app/core/api_keys.py:12 | an alphanumeric text has one choice index per character |
| ApiKeys.ChoicesOf | app/core/api_keys.py:12 | every well-shaped key comes from a valid sequence of 48 choices |
| ApiKeys.GenerateIsBijective | app/core/api_keys.py:8-13 | generation is a bijection between 48-choice sequences and well-shaped keys |
| ApiKeys.CreateStep | app/core/api_keys.py:16-35 | the insert succeeds iff neither the (email, name) pair nor the key is taken; it then appends one active record with the next id, usage 0 and the given name, email and key, and returns id, key, name, email and created_at; a taken pair fails on `unique_email_name` and changes nothing |
| ApiKeys.IndexWhere | app/core/api_keys.py:44-48 | the first row satisfying the condition, or None exactly when no row does |
| ApiKeys.FirstMatch | app/core/api_keys.py:47 | the first active row with the key, or None exactly when there is none |
| ApiKeys.ValidateStep | app/core/api_keys.py:38-57 | an empty key gives None and no change; otherwise the answer is Some iff an active row has the key, that row alone gets `usage_count + 1` and `last_used = now`, and the answer is its id, name, email, rate_limit and new usage_count |
| ApiKeys.Touch | app/core/api_keys.py:46 | `usage_count` goes up by exactly 1 and `last_used` becomes now; every other column is unchanged |
| ApiKeys.TouchMatching | app/core/api_keys.py:44-48 | the UPDATE touches every active row with the key, and only those, and keeps each row's id, key, email and name |
| ApiKeys.RevokeStep | app/core/api_keys.py:73-83 | the answer is true iff a row has both the id and the email (already revoked or not); only such rows become inactive, and no row is removed or otherwise changed |
| ApiKeys.OwnedByExactly | app/core/api_keys.py:62-69 | the listing holds exactly the rows with the given email |
| ApiKeys.OwnedBy | app/core/api_keys.py:62-69 | the listing is no longer than the table, and lists every row only when every row has the email |
| ApiKeys.InsertByDate | app/core/api_keys.py:66 | inserting one key into a newest-first list keeps it newest-first and adds just that key |
| ApiKeys.SortNewestFirst | app/core/api_keys.py:66 | the result is ordered by created_at descending and is a permutation of its input |
| ApiKeys.KeyStore.constructor | app/core/api_keys.py:20-23 | an empty table with the configured default rate limit |
| ApiKeys.KeyStore.CreateApiKey | app/core/api_keys.py:16-35 | the new table and the answer are those of `CreateStep`; on success the record with the generated key is appended |
| ApiKeys.KeyStore.ValidateApiKey | app/core/api_keys.py:38-57 | the new table and the answer are those of `ValidateStep` |
| ApiKeys.KeyStore.UserKeys | app/core/api_keys.py:60-70 | the keys owned by the email, newest first, as a permutation of the owned rows |
| ApiKeys.KeyStore.RevokeApiKey | app/core/api_keys.py:73-83 | the new table and the answer are those of `RevokeStep` |
| KeyLifecycle.StepEvolves | app/core/api_keys.py:44-49 | any single create, validate or revoke keeps the table well formed, never removes a row, never lowers a `usage_count` and never reactivates a key |
| KeyLifecycle.RunEvolves | app/core/api_keys.py:16-83 | the same holds for any sequence of operations |
| KeyLifecycle.ValidateMissChangesNothing | app/core/api_keys.py:47-57 | a validation answering None leaves the table unchanged |
| KeyLifecycle.ValidateChangesOneRow | app/core/api_keys.py:44-57 | a successful validation touches exactly one matched row, whose usage_count goes up by exactly 1 |
| KeyLifecycle.ValidateAt | app/core/api_keys.py:44-57 | validating the key of active row i in a consistent table touches that row alone and answers its info with the new usage count |
| KeyLifecycle.ValidateTwice | app/core/api_keys.py:44-57 | two validations of the same active key answer that row's info twice, the second after one more touch |
| KeyLifecycle.RevokedNeverValidates | app/core/api_keys.py:46-47 | a key inactive now never validates again, whatever operations follow |
| KeyLifecycle.RevokeThenValidate | app/core/api_keys.py:76-78 | revoking with the owner's id and email succeeds, and the key never validates afterwards |
| KeyLifecycle.RevokeByOtherEmail | app/core/api_keys.py:78 | revoking with an email that does not own the id answers false and changes nothing |
| KeyLifecycle.IssuedKeyValidates | app/core/api_keys.py:18-57 | a newly issued key validates, reporting the new id, name, email, rate limit and a usage count of 1 |
| KeyLifecycle.DuplicateAlwaysRefused | app/core/api_keys.py:20-26 | once a pair is registered, registering it again after any operations fails on `unique_email_name` and adds no row |
| Auth.Gate | app/core/auth.py:8-29 | an absent or empty key is a 403 "API key required…" with no change; the demo key gives the demo identity with no change; any other key is validated, giving its record info, and a key matching no active row is a 403 "Invalid API key" with no change; the demo identity is given only for the demo key |
| Auth.IssuedKeyIsNotDemo | app/core/auth.py:17-18 | no generated key equals the demo key or is empty, so every issued key reaches validation |
| Auth.UsageCountsRequests | app/core/auth.py:17-29 | two requests with the key of an active row (not the demo key): the first is served for that row's owner, and the second for the same identity with a usage count exactly 1 higher |
| Auth.ServedAt | app/core/auth.py:17-29 | a request with the key of active row k is served for that row's owner, and the only change to the table is that row's `usage_count + 1` and `last_used` |
| Auth.VerifyApiKey | app/core/auth.py:8-29 | the store's new state and the answer are those of `Gate` |
| Developers.RegisterResponse | app/api/developers.py:15-41 | success iff the key was created, answering success, the created key and the `X-API-Key` header; a failure naming `unique_email_name` is a 400 with the duplicate-name detail, and any other failure is a 500 carrying its text |
| Developers.PairViolationNamesConstraint | app/api/developers.py:36 | the duplicate-pair error names `unique_email_name` |
| Developers.DuplicateRegistrationIs400 | app/api/developers.py:34-40 | registering a taken (email, name) pair answers 400 |
| Developers.FreshRegistrationSucceeds | app/api/developers.py:20-33 | registering a free pair with a free key answers success with that key |
| Developers.MyKeysResponse | app/api/developers.py:266-278 | no keys is a 404; otherwise the email, the keys and `total == len(keys)` |
| Developers.DeleteResponse | app/api/developers.py:281-292 | a 404 iff revocation answered false, else a success body |
| Developers.DeleteOthersKeyIs404 | app/api/developers.py:284-287 | deleting a key the email does not own answers 404 and changes nothing |
| Developers.RevokeKeepsListing | app/api/developers.py:281-292 | a revocation keeps every key in every owner's listing, in the same order; only `is_active` may change |
| Developers.Register | app/api/developers.py:15-41 | the store's new state is that of `CreateStep` and the answer is `RegisterResponse` of its outcome |
| Developers.GetMyKeys | app/api/developers.py:266-278 | 404 iff the email owns no key; otherwise the requested email, exactly its keys, newest first, and their count |
| Developers.DeleteApiKey | app/api/developers.py:281-292 | the store's new state is that of `RevokeStep` and the answer is `DeleteResponse` of its outcome |
| Matches.MatchesPlan | app/api/matches.py:23-81 | both queries are well formed and mean season, team (home or away through one placeholder) and date bounds, in that order, or `1=1`; the page query binds LIMIT to page_size and OFFSET to offset |
| Matches.GetMatches | app/api/matches.py:12-91 | a 422 iff the paging is out of bounds; otherwise the count query means the intended filters (or `1=1`) and the page query means the same filters with the checked page size and offset |
| Matches.NoFiltersIsTrue | app/api/matches.py:47 | with no filter the WHERE body is exactly `1=1` |
| Matches.FalsyArgumentsIgnored | app/api/matches.py:27-35 | a season of 0 and an empty team_id filter nothing, like absent ones |
| Matches.FindMatch | app/api/matches.py:95-117 | a match whose id or fbref id is the requested one, or a 404 exactly when there is none |
| Matches.OnTeamExactly | app/api/matches.py:160-161 | a side's lineup holds exactly the rows whose team_id is that side's |
| Matches.OnTeam | app/api/matches.py:160-161 | a side's list is no longer than the rows, and every row in it has that team_id |
| Matches.SplitIsPartition | app/api/matches.py:160-161 | a team's rows and the others' together are all rows, each once |
| Matches.MatchLineups | app/api/matches.py:121-170 | an unknown match is a 404; a known match always answers, with its own match_id and match_date, and the home and away lineups are the rows of each team in the query's order |
| Matches.LineupsPartition | app/api/matches.py:160-161 | when every row belongs to one of the two distinct teams, the home and away lineups together hold every row exactly once |
| Matches.OthersAreOnTeam | app/api/matches.py:160-161 | with two distinct sides, the rows not on the home side are exactly the away side's |
| Matches.SelectStats | app/api/matches.py:217-246 | an unknown match is a 404, and so is a match without stats rows; match_id is the match's; home_stats is the first row iff it is home; away_stats is the second row when there is one, else the first row when it is not home, else absent |
| Matches.StatsSidesMarked | app/api/matches.py:233-246 | with the rows in `is_home DESC` order and at most one row per side, home_stats is present iff a home row exists and is that row, and away_stats is present iff an away row exists and is that row |
| Matches.StatsBothSides | app/api/matches.py:244-245 | with one home row followed by one away row, each side gets its own row |
| Matches.StatsOneRow | app/api/matches.py:244-245 | a single row goes to the side it is marked for, and the other side is empty |
| Matches.MatchEventsBody | app/api/matches.py:172-214 | a 404 iff the match is unknown; otherwise the match id, its events and `total_events == len(events)` |
| Events.EventsPlan | app/api/events.py:22-75 | both queries are well formed and mean type, season, team and player, in order, or `1=1`; the page query binds LIMIT and OFFSET |
| Events.GetEvents | app/api/events.py:11-85 | a 422 iff the paging is out of bounds; otherwise the count query means the intended filters (or `1=1`) and the page query means the same filters with the checked page size and offset |
| Events.PlayerFilterOnePlaceholder | app/api/events.py:43 | the player filter compares all five player columns with one parameter |
| Events.GoalsQuery | app/api/events.py:95-135 | well formed; the first clause is `type = 'goal'`, then season, player and team at consecutive placeholders from `$1` |
| Events.CardsQueryAsWritten | app/api/events.py:150-185 | the query as written: a given card type replaces the base clause with a text holding the argument; the query is well formed and means that text, season and player |
| Events.CardTypeEscapesLiteral | app/api/events.py:154-155 | a card type containing a quote closes the SQL literal, and the rest of the argument is read as SQL |
| Events.SplicedCardClause | app/api/events.py:155 | the text is `type = '`, then the card type exactly as given, then `_card'` |
| Events.SplicedTextDependsOnValue | app/api/events.py:154-155 | the spliced clause text differs for different card types: the argument is part of the statement, not a parameter |
| Events.CardsQuery | app/api/events.py:150-185 | corrected: the card type is bound at `$1` in place of the base clause, and season and player follow; well formed, meaning the intended filters |
| Events.CardTypeStep | app/api/events.py:150-155 | corrected first condition: with a card type, `type = $1` and the one parameter `<type>_card`; without one, the any-card condition and no parameter |
| Events.CardBuilder | app/api/events.py:150-165 | the corrected clause and parameter lists: each clause is determined only by which arguments are present, and they bind exactly the intended card, season and player filters |
| Players.PlayersPlan | app/api/players.py:22-65 | both queries are well formed and mean search, position and nationality, in order, or `1=1`; the page query binds LIMIT and OFFSET |
| Players.GetPlayers | app/api/players.py:12-76 | a 422 iff the paging is out of bounds; otherwise the count query means the three ILIKE filters (or `1=1`) and the page query means the same filters with the checked page size and offset |
| Players.PlayerPatternsWrapped | app/api/players.py:26-39 | every player filter is an ILIKE with the argument wrapped in `%…%` |
| Players.GetPlayerMatches | app/api/players.py:104-169 | page_size defaults to 50 and is at most 200 (else a 422); player_id is `$1`, a truthy season is `$2`, and LIMIT/OFFSET follow the filter parameters |
| Players.RemoveAll | app/api/players.py:211 | removing every occurrence of a pattern never lengthens the text |
| Players.RemoveAllAbsent | app/api/players.py:211 | a text without the pattern's first character is unchanged |
| Players.RemoveAllKeepsPrefix | app/api/players.py:211 | a prefix free of the pattern's first character is kept as is |
| Players.RemoveAllDropsFront | app/api/players.py:211 | a leading occurrence is removed |
| Players.RemoveOne | app/api/players.py:211 | one occurrence between two pattern-free pieces is removed, joining them |
| Players.StripColumn | app/api/players.py:211 | stripping `ml.` from `ml.<column>` gives `<column>` with the same operator and placeholder |
| Players.StripClause | app/api/players.py:211 | `.replace('ml.', '')` changes only text: a comparison keeps its operator, placeholder and number of columns, and no column or literal grows |
| Players.GetPlayerStats | app/api/players.py:175-238 | the lineup and passing queries are the same keyed query on `ml.player_id` and `ml.season_id`; the shooting query is that filter with `ml.` removed from every clause and the same parameters; all are well formed; the season is reported as given or "all" |
| Players.PlayerBody | app/api/players.py:79-100 | a missing player is a 404 "Player not found" |
| Players.PlayerTeamsBody | app/api/players.py:243-267 | no team rows is a 404; otherwise the player id and the teams |
| Teams.TeamsPlan | app/api/teams.py:22-47 | with a search, one parameter `%search%` is bound as `$1` for both name columns; without one, no WHERE is emitted; LIMIT/OFFSET follow |
| Teams.GetTeams | app/api/teams.py:11-58 | a 422 iff the paging is out of bounds; otherwise the plan above |
| Teams.SearchBindsOnce | app/api/teams.py:27-30 | a non-empty search is one ILIKE test of both columns with `%search%`; an empty search is no search |
| Teams.TeamBody | app/api/teams.py:61-77 | a missing team is a 404 "Team not found" |
| Teams.GetTeamPlayers | app/api/teams.py:81-125 | a missing team is a 404 before the player query; otherwise the query is well formed with team_id at `$1` and season at `$2` when given |
| Teams.TeamPlayersBody | app/api/teams.py:120-125 | `count == len(players)` |
| Teams.GetTeamMatches | app/api/teams.py:128-201 | a 422 iff the paging is out of bounds; team_id is `$1` for both side columns, season `$2` when given, and LIMIT/OFFSET follow |
| Teams.TeamSide | app/api/teams.py:170-173 | 'home' iff the home team is the requested team, else 'away' |
| Teams.Verdict | app/api/teams.py:174-179 | W iff goals for exceed goals against, D iff they are equal, L iff fewer |
| Teams.TeamResult | app/api/teams.py:174-179 | W only for the requested team on the side that scored more; D exactly when both scores are known and equal; anything but L needs both scores |
| Teams.ResultIsVerdict | app/api/teams.py:174-179 | for a scored match of two distinct teams, the result rule equals W/D/L computed from the team's goals for and against |
| Teams.ResultsMirror | app/api/teams.py:174-179 | the home side wins iff the away side loses, and both draw together |
| Teams.UnscoredIsLoss | app/api/teams.py:174-179 | a match with a missing score counts as L for either team, because SQL comparisons with NULL are never true in a WHEN |
| Teams.TeamStatsQuery | app/api/teams.py:205-238 | the query is well formed, with team_id at `$1` and season at `$2` when given |
| Teams.TeamStatsBody | app/api/teams.py:240-243 | a 404 iff there is no row or matches_played is 0; otherwise that row |
| Venues.VenuesQuery | app/api/venues.py:16-48 | well formed; search is bound once as `%search%` for name and city, state is an exact match at the next placeholder, or `1=1` |
| Venues.StateFollowsSearch | app/api/venues.py:20-28 | with both filters, the search comes first and the state second |
| Venues.VenueBody | app/api/venues.py:57-70 | a missing venue is a 404 "Venue not found" |
| Venues.GetVenueMatches | app/api/venues.py:74-140 | page_size defaults to 50 and is at most 200 (a 422 first); a missing venue is then a 404 before any query; otherwise venue_id is `$1`, season `$2` when given, and LIMIT/OFFSET follow |
| Venues.GetVenueStats | app/api/venues.py:144-185 | a missing venue is a 404; otherwise one query binding the venue id |
| Stats.LeaderLimit | app/api/stats.py:13 | the limit defaults to 10 and is accepted iff it lies in 1..100, else a 422 |
| Stats.GoalLeadersAsWritten | app/api/stats.py:16-44 | the query as written has two WHERE keywords; with a season, `me.season_id` binds the limit; without one, LIMIT binds 2025 and the limit parameter is never used |
| Stats.GoalLeaders | app/api/stats.py:16-44 | corrected: well formed; `me.season_id` binds the season, or 2025 when none is given, and LIMIT binds the limit |
| Stats.GoalSeasonLabel | app/api/stats.py:49 | the season is reported as given, or as "2025" |
| Stats.ZeroSeasonIsCurrent | app/api/stats.py:41-49 | a season of 0 is treated as no season: the current season 2025 is bound and reported |
| Stats.AssistLeaders | app/api/stats.py:60-83 | well formed; a truthy season is `season_id = $1` and LIMIT `$2`, otherwise LIMIT is `$1` |
| Stats.CleanSheetLeaders | app/api/stats.py:99-124 | well formed; a truthy season is `WHERE mg.season_id = $1`, otherwise no WHERE; LIMIT follows at len+1 |
| Stats.GetLeaderboard | app/api/stats.py:11-130 | corrected: a 422 iff the limit is out of bounds; otherwise a well-formed query whose LIMIT binds the limit and whose filter is, per board, goals with a scorer in the season or 2025 (the corrected `GoalLeaders`), assists in the season when one is given, or clean sheets in the season when one is given, with the season reported as "2025" for goals and "all" for the others |
| Stats.TeamSeasonBody | app/api/stats.py:158-159 | a 404 iff there is no row or matches_played is 0 |
| Stats.CareerBody | app/api/stats.py:222-223 | a 404 iff there is no row or total_matches is 0 |
| Items.Present | app/api/items.py:99 | every field whose value is not None is kept, unwrapped, and every kept entry comes from such a field |
| Items.PresentOne | app/api/items.py:99 | a single field is kept iff its value is not None |
| Items.PresentAppend | app/api/items.py:99 | the kept fields keep their order: those of a first part of the field list come before those of the rest |
| Items.UpdateStatement | app/api/items.py:104-112 | the SET list has one assignment per kept field, in order, then `updated_at`; the key is `id = $1`; the parameters are the item id first and the clock last |
| Items.FalsyValuesKept | app/api/items.py:99 | a quantity of 0 and `is_active = False` are still sent, in field order |
| Items.EmptyUpdateSendsNothing | app/api/items.py:99-102 | an update that sets no field keeps nothing, which is the case the 400 answers |
| Items.UpdateBindsFields | app/api/items.py:104-112 | the SET clause's i-th column binds the i-th kept value, `updated_at` binds now, `id = $1` binds the item id, and every parameter is used by exactly one placeholder |
| Items.UpdateItem | app/api/items.py:98-112 | a 400 "No fields to update" iff no field is kept; otherwise that statement |
| Items.ItemBody | app/api/items.py:82-94 | a missing item is a 404 "Item not found" |
| Items.DeleteBody | app/api/items.py:125-136 | a 404 iff no id came back |
| Items.ItemsPaging | app/api/items.py:37-41 | page ≥ 1 and 1 ≤ per_page ≤ 100, defaulting to 10, or a 422 |
| Items.ItemsQuery | app/api/items.py:43-58 | per_page at `$1`, offset at `$2` and the search pattern at `$3`; well formed |
| Items.ItemsCountAsWritten | app/api/items.py:52-64 | with a search, the count query refers to `$3` but is sent one parameter, so it does not resolve |
| Items.ItemsCount | app/api/items.py:52-64 | corrected: the count query is well formed and means the search filter |
| Items.GetItems | app/api/items.py:35-79 | corrected: a 422 iff the paging is out of bounds; otherwise both queries are well formed (the count query is the corrected `ItemsCount`), the count query means the search filter and the page query means the same filter with LIMIT page size and OFFSET the page offset |
| Items.MakeItemsPage | app/schemas/item.py:39-44 | the page model is built iff every required field is passed, otherwise the missing ones are reported |
| Items.ItemsEnvelope | app/api/items.py:71-79 | a validation failure becomes a 500; otherwise the items, total and page are returned |
| Items.ItemsBodyAsWritten | app/api/items.py:71-79 | as written, every call answers 500, because `page_size` is never passed |
| Items.ItemsBody | app/api/items.py:69-77 | corrected: the items, total, page, page size and a total_pages equal to the ceiling |

## Left out

- The asyncpg pool, connections and network I/O (`app/database/connection.py`). Every fetch, fetchrow and fetchval result is an input of the model.
- SQL engine semantics: ILIKE matching, joins, GROUP BY, COUNT/SUM/AVG and numeric casts. Queries are values (clauses and parameters), never executed. The columns a SELECT returns are not modelled.
- `secrets.choice` randomness: the 48 choices are a parameter; only the alphabet and the length are modelled.
- `datetime.utcnow()` is the parameter `now`.
- Concurrency: each UPDATE/INSERT is one atomic step of the table.
- `check_rate_limit` is a constant stub in the source, so it is not modelled.
- The registration HTML page, `main.py` and the health probe: user interface and wiring. `main.py` does not mount the items router, but its handlers are modelled anyway.
- `app/core/config.py` is represented only by its constants (page sizes, demo key, header name).
- The demo key's override by environment variable is not modelled; the model uses the literal default.
- `EmailStr` validation of the email path and query argument is not modelled.
- ApiKeys.KeyStore.CreateApiKey: the id is a counter, and the name of the key's unique constraint (`api_keys_key_key`) is assumed to be PostgreSQL's default.
- Developers.DeleteApiKey: the path parameter `key_id` is a Python `str`, and it is passed unchanged to the driver for `WHERE id = $1` (app/api/developers.py:282-284, app/core/api_keys.py:82). The model assumes the driver hands that text to the database as the numeric id it spells, and so takes the id as a number. Whether asyncpg accepts a `str` for an integer parameter is driver behaviour that is not part of this model; if it rejects it, every call as written ends in a 500, and that is not modelled.
- `create_item` is a fixed INSERT with no builder; it is not modelled. Neither is the 500 answer for unexpected database exceptions in any items handler.
- Item prices are floats and are not modelled numerically; a price is an opaque parameter.
- The body of FastAPI's 422 answer: the model names only the offending field.
- The fixed queries of `get_team_season_stats` (home/away split, top scorers) and `get_player_career_stats` (per-season breakdown) have no placeholders to check. Only their 404 rules are modelled.
- `get_user_keys` returns each key in full; the model lists keys without masking them, as the source does.
- Paging.Window: states only that a page holds at most page_size rows. Its contents are given by `PagesUpToIsPrefix` and `PagesCoverAll`.

## Findings

| source | as written | input that shows it | evidently intended | confidence | as-written member | corrected member |
|---|---|---|---|---|---|---|
| app/api/stats.py:33-44 | The fixed text already opens a WHERE, and the season filter opens another. `me.season_id` is `$2` with a season and `$1` without; LIMIT is `$2` with a season and `$1` without. The parameters are [season or 2025, limit]. | season=2024, limit=10: `me.season_id` is compared with 10. No season: LIMIT is 2025, and both cases emit two WHERE keywords. | One WHERE; `me.season_id` bound to the season (2025 by default) and LIMIT bound to the limit | high, not executed | Stats.GoalLeadersAsWritten | Stats.GoalLeaders |
| app/api/items.py:52,61-62 | The count query reuses the WHERE text with `$3` but is sent only the pattern | search="ball": the statement refers to `$3` and has one parameter | The count query's placeholder is `$1` | high, not executed | Items.ItemsCountAsWritten | Items.ItemsCount |
| app/api/events.py:154-155 | `card_type` is spliced into the SQL text: `type = '{card_type}_card'` | card_type=`x' OR 1=1 --` closes the literal and turns the rest into SQL | `card_type` bound as a parameter | high, not executed | Events.CardsQueryAsWritten | Events.CardsQuery |
| app/api/items.py:71-77 | `PaginatedItems` is given `per_page`, but its required field is `page_size` (app/schemas/item.py:43) | any call to `get_items`: validation fails and the handler answers 500 | pass `page_size=per_page` | high, not executed | Items.ItemsBodyAsWritten | Items.ItemsBody |
