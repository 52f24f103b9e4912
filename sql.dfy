/** Parameterised SQL as the handlers assemble it: a list of WHERE sections,
    each a conjunction of clauses, optional LIMIT/OFFSET placeholders, and the
    positional parameter list passed to the driver.  A clause either compares
    one or more columns (joined by OR) with ONE placeholder `$n`, or is literal
    SQL text.  `Resolve` gives a query its meaning: every `$n` replaced by the
    n-th (1-based) parameter. */
module Sql {
  import opened Common

  datatype Op = Eq | Ge | Le | ILike

  /** A bound value.  Dates and timestamps are abstract clock values; the
      item price is a real (floating point is not modelled beyond passing it on). */
  datatype Param =
    | PInt(i: int)
    | PText(s: string)
    | PDate(day: int)
    | PTime(t: int)
    | PReal(r: real)
    | PBool(b: bool)

  /** `(c1 op $ph OR c2 op $ph ...)` or literal text such as `1=1`. */
  datatype Clause = Cmp(cols: seq<string>, op: Op, ph: nat) | Lit(text: string)

  /** A clause after binding: the value the columns are compared with. */
  datatype Pred = Test(cols: seq<string>, op: Op, value: Param) | Fixed(text: string)

  /** `wheres` holds one entry per WHERE keyword the query text contains. */
  datatype Query = Query(wheres: seq<seq<Clause>>, limit: Option<nat>, offset: Option<nat>, params: seq<Param>)

  datatype Bound = Bound(wheres: seq<seq<Pred>>, limit: Option<Param>, offset: Option<Param>)

  /** `$ph` refers to the ph-th parameter, counting from 1. */
  function Bind(ph: nat, params: seq<Param>): (r: Option<Param>)
    ensures r.Some? <==> 1 <= ph <= |params|
    ensures r.Some? ==> r.value == params[ph - 1]
  {
    if 1 <= ph <= |params| then Some(params[ph - 1]) else None
  }

  function ResolveClause(c: Clause, params: seq<Param>): Option<Pred> {
    match c
    case Lit(t) => Some(Fixed(t))
    case Cmp(cols, op, ph) =>
      var v := Bind(ph, params);
      if v.Some? then Some(Test(cols, op, v.value)) else None
  }

  function ResolveClauses(cs: seq<Clause>, params: seq<Param>): (r: Option<seq<Pred>>)
    ensures r.Some? ==> |r.value| == |cs|
    decreases |cs|
  {
    if cs == [] then Some([])
    else
      var init := ResolveClauses(cs[..|cs| - 1], params);
      var last := ResolveClause(cs[|cs| - 1], params);
      if init.Some? && last.Some? then Some(init.value + [last.value]) else None
  }

  function ResolveSections(ws: seq<seq<Clause>>, params: seq<Param>): Option<seq<seq<Pred>>>
    decreases |ws|
  {
    if ws == [] then Some([])
    else
      var init := ResolveSections(ws[..|ws| - 1], params);
      var last := ResolveClauses(ws[|ws| - 1], params);
      if init.Some? && last.Some? then Some(init.value + [last.value]) else None
  }

  /** An absent LIMIT/OFFSET resolves to "absent"; a present one must be bound. */
  function BindOpt(ph: Option<nat>, params: seq<Param>): Option<Option<Param>> {
    if ph.None? then Some(None)
    else
      var v := Bind(ph.value, params);
      if v.Some? then Some(Some(v.value)) else None
  }

  function Resolve(q: Query): Option<Bound> {
    var ws := ResolveSections(q.wheres, q.params);
    var l := BindOpt(q.limit, q.params);
    var o := BindOpt(q.offset, q.params);
    if ws.Some? && l.Some? && o.Some? then Some(Bound(ws.value, l.value, o.value)) else None
  }

  function ClauseRefs(c: Clause): set<nat> {
    if c.Cmp? then {c.ph} else {}
  }

  function RefsOf(cs: seq<Clause>): set<nat>
    decreases |cs|
  {
    if cs == [] then {} else RefsOf(cs[..|cs| - 1]) + ClauseRefs(cs[|cs| - 1])
  }

  function SectionRefs(ws: seq<seq<Clause>>): set<nat>
    decreases |ws|
  {
    if ws == [] then {} else SectionRefs(ws[..|ws| - 1]) + RefsOf(ws[|ws| - 1])
  }

  function OptRefs(ph: Option<nat>): set<nat> {
    if ph.Some? then {ph.value} else {}
  }

  /** Every placeholder number the query text mentions. */
  function Refs(q: Query): set<nat> {
    SectionRefs(q.wheres) + OptRefs(q.limit) + OptRefs(q.offset)
  }

  /** What the database accepts: at most one WHERE keyword, every `$n` bound
      to a parameter, and every parameter mentioned (the driver rejects a
      parameter list whose length differs from the statement's). */
  predicate WellFormed(q: Query) {
    && |q.wheres| <= 1
    && Resolve(q).Some?
    && forall j :: 1 <= j <= |q.params| ==> j in Refs(q)
  }

  /** The state a builder keeps while appending one optional filter at a
      time: its clauses bind exactly `preds`, and every parameter so far is
      referenced by some clause. */
  predicate Builds(cs: seq<Clause>, params: seq<Param>, preds: seq<Pred>) {
    && ResolveClauses(cs, params) == Some(preds)
    && forall j :: 1 <= j <= |params| ==> j in RefsOf(cs)
  }

  predicate BuildsSections(ws: seq<seq<Clause>>, params: seq<Param>, pws: seq<seq<Pred>>) {
    && ResolveSections(ws, params) == Some(pws)
    && forall j :: 1 <= j <= |params| ==> j in SectionRefs(ws)
  }

  /** Appending parameters never changes what an already bound clause list means. */
  lemma {:induction false} WeakenClauses(cs: seq<Clause>, params: seq<Param>, extra: seq<Param>)
    requires ResolveClauses(cs, params).Some?
    ensures ResolveClauses(cs, params + extra) == ResolveClauses(cs, params)
    decreases |cs|
  {
    if cs != [] {
      WeakenClauses(cs[..|cs| - 1], params, extra);
    }
  }

  lemma {:induction false} WeakenSections(ws: seq<seq<Clause>>, params: seq<Param>, extra: seq<Param>)
    requires ResolveSections(ws, params).Some?
    ensures ResolveSections(ws, params + extra) == ResolveSections(ws, params)
    decreases |ws|
  {
    if ws != [] {
      WeakenSections(ws[..|ws| - 1], params, extra);
      WeakenClauses(ws[|ws| - 1], params, extra);
    }
  }

  /** A clause list that resolves mentions only bound placeholders. */
  lemma {:induction false} RefsBound(cs: seq<Clause>, params: seq<Param>)
    requires ResolveClauses(cs, params).Some?
    ensures forall j :: j in RefsOf(cs) ==> 1 <= j <= |params|
    decreases |cs|
  {
    if cs != [] {
      RefsBound(cs[..|cs| - 1], params);
    }
  }

  lemma EmptyBuilds()
    ensures Builds([], [], [])
  {
  }

  /** The builder step `param_count += 1; clauses.append(... $param_count ...);
      params.append(v)`: the new clause binds exactly the new value. */
  lemma AddFilter(cs: seq<Clause>, params: seq<Param>, preds: seq<Pred>, cols: seq<string>, op: Op, v: Param)
    requires Builds(cs, params, preds)
    ensures Builds(cs + [Cmp(cols, op, |params| + 1)], params + [v], preds + [Test(cols, op, v)])
  {
    var c := Cmp(cols, op, |params| + 1);
    WeakenClauses(cs, params, [v]);
    assert (cs + [c])[..|cs|] == cs;
    assert RefsOf(cs + [c]) == RefsOf(cs) + {|params| + 1};
  }

  /** One builder step as the handlers write it: take the next placeholder
      number, append the clause that uses it and the value it binds. */
  method AppendFilter(clauses: seq<Clause>, params: seq<Param>, ghost preds: seq<Pred>, cols: seq<string>, op: Op, v: Param)
    returns (clauses': seq<Clause>, params': seq<Param>, ghost preds': seq<Pred>)
    requires Builds(clauses, params, preds)
    ensures clauses' == clauses + [Cmp(cols, op, |params| + 1)] && params' == params + [v]
    ensures preds' == preds + [Test(cols, op, v)]
    ensures Builds(clauses', params', preds')
  {
    var paramCount := |params| + 1;
    AddFilter(clauses, params, preds, cols, op, v);
    clauses' := clauses + [Cmp(cols, op, paramCount)];
    params' := params + [v];
    preds' := preds + [Test(cols, op, v)];
  }

  /** An optional filter as the handlers write it: `if given:` one builder
      step, otherwise nothing; either way the invariant is kept and the
      intended predicates grow by the filter exactly when it is given. */
  method AppendIf(given: bool, clauses: seq<Clause>, params: seq<Param>, ghost preds: seq<Pred>, cols: seq<string>, op: Op, v: Param)
    returns (clauses': seq<Clause>, params': seq<Param>, ghost preds': seq<Pred>)
    requires Builds(clauses, params, preds)
    ensures given ==> clauses' == clauses + [Cmp(cols, op, |params| + 1)] && params' == params + [v]
    ensures !given ==> clauses' == clauses && params' == params
    ensures preds' == preds + When(given, Test(cols, op, v))
    ensures Builds(clauses', params', preds')
  {
    if given {
      clauses', params', preds' := AppendFilter(clauses, params, preds, cols, op, v);
    } else {
      clauses', params', preds' := clauses, params, preds;
      assert preds + [] == preds;
    }
  }

  /** Appending literal SQL text binds nothing and needs no parameter. */
  lemma AddLiteral(cs: seq<Clause>, params: seq<Param>, preds: seq<Pred>, text: string)
    requires Builds(cs, params, preds)
    ensures Builds(cs + [Lit(text)], params, preds + [Fixed(text)])
  {
    assert (cs + [Lit(text)])[..|cs|] == cs;
    assert RefsOf(cs + [Lit(text)]) == RefsOf(cs);
  }

  /** The clause list under a single WHERE keyword. */
  lemma OneSection(cs: seq<Clause>, params: seq<Param>, preds: seq<Pred>)
    requires Builds(cs, params, preds)
    ensures BuildsSections([cs], params, [preds])
  {
    assert [cs][..0] == [];
    assert ResolveSections([cs][..0], params) == Some([]);
    assert [] + [preds] == [preds];
    assert SectionRefs([cs]) == RefsOf(cs);
  }

  /** `" AND ".join(where_clauses) if where_clauses else "1=1"` */
  const TRUE_CLAUSE: string := "1=1"

  function WhereBody(cs: seq<Clause>): seq<Clause> {
    if cs == [] then [Lit(TRUE_CLAUSE)] else cs
  }

  /** The intended meaning of a WHERE body: the given filters, or no
      restriction at all. */
  function OrTrue(preds: seq<Pred>): (r: seq<Pred>)
    ensures r != []
  {
    if preds == [] then [Fixed(TRUE_CLAUSE)] else preds
  }

  /** An optional filter: present or absent. */
  function When(given: bool, p: Pred): (r: seq<Pred>)
    ensures given <==> r == [p]
    ensures !given <==> r == []
  {
    if given then [p] else []
  }

  /** `if start_date:`: a `date` object is always truthy. */
  predicate DateGiven(d: Option<int>) {
    d.Some?
  }

  /** The filter an optional integer argument contributes under `if x:`. */
  function IntFilter(cols: seq<string>, op: Op, x: Option<int>): seq<Pred> {
    When(IntGiven(x), Test(cols, op, PInt(if x.Some? then x.value else 0)))
  }

  /** The filter an optional string argument contributes under `if s:`. */
  function TextFilter(cols: seq<string>, op: Op, s: Option<string>): seq<Pred> {
    When(TextGiven(s), Test(cols, op, PText(if s.Some? then s.value else "")))
  }

  /** `ILIKE $n` bound to `f"%{s}%"` under `if s:`. */
  function LikeFilter(cols: seq<string>, s: Option<string>): seq<Pred> {
    if TextGiven(s) then [Test(cols, ILike, PText(Wrapped(s.value)))] else []
  }

  /** The filter an optional date argument contributes. */
  function DateFilter(cols: seq<string>, op: Op, d: Option<int>): seq<Pred> {
    When(DateGiven(d), Test(cols, op, PDate(if d.Some? then d.value else 0)))
  }

  lemma JoinOrTrue(cs: seq<Clause>, params: seq<Param>, preds: seq<Pred>)
    requires Builds(cs, params, preds)
    ensures Builds(WhereBody(cs), params, OrTrue(preds))
  {
    if cs == [] {
      assert preds == [];
      AddLiteral([], params, [], TRUE_CLAUSE);
      assert [] + [Lit(TRUE_CLAUSE)] == [Lit(TRUE_CLAUSE)];
      assert [] + [Fixed(TRUE_CLAUSE)] == [Fixed(TRUE_CLAUSE)];
    }
  }

  lemma NoSection()
    ensures BuildsSections([], [], [])
  {
  }

  lemma SectionsBound(ws: seq<seq<Clause>>, params: seq<Param>)
    requires ResolveSections(ws, params).Some?
    ensures forall j :: j in SectionRefs(ws) ==> 1 <= j <= |params|
    decreases |ws|
  {
    if ws != [] {
      SectionsBound(ws[..|ws| - 1], params);
      RefsBound(ws[|ws| - 1], params);
    }
  }

  /** The count query: the WHERE sections and the filter parameters alone. */
  lemma CountQuery(ws: seq<seq<Clause>>, params: seq<Param>, pws: seq<seq<Pred>>)
    requires BuildsSections(ws, params, pws) && |ws| <= 1
    ensures WellFormed(Query(ws, None, None, params))
    ensures Resolve(Query(ws, None, None, params)) == Some(Bound(pws, None, None))
  {
  }

  /** `LIMIT $len(params)+1` after the filters, then `params.append(limit)`. */
  lemma LimitQuery(ws: seq<seq<Clause>>, params: seq<Param>, pws: seq<seq<Pred>>, limit: Param)
    requires BuildsSections(ws, params, pws) && |ws| <= 1
    ensures WellFormed(Query(ws, Some(|params| + 1), None, params + [limit]))
    ensures Resolve(Query(ws, Some(|params| + 1), None, params + [limit])) == Some(Bound(pws, Some(limit), None))
  {
    var q := Query(ws, Some(|params| + 1), None, params + [limit]);
    WeakenSections(ws, params, [limit]);
    assert Refs(q) == SectionRefs(ws) + {|params| + 1};
  }

  /** `LIMIT $len(params)+1 OFFSET $len(params)+2`, then
      `params.extend([page_size, offset])`. */
  lemma PageQuery(ws: seq<seq<Clause>>, params: seq<Param>, pws: seq<seq<Pred>>, size: Param, offset: Param)
    requires BuildsSections(ws, params, pws) && |ws| <= 1
    ensures WellFormed(Query(ws, Some(|params| + 1), Some(|params| + 2), params + [size, offset]))
    ensures Resolve(Query(ws, Some(|params| + 1), Some(|params| + 2), params + [size, offset]))
         == Some(Bound(pws, Some(size), Some(offset)))
  {
    var q := Query(ws, Some(|params| + 1), Some(|params| + 2), params + [size, offset]);
    WeakenSections(ws, params, [size, offset]);
    assert Refs(q) == SectionRefs(ws) + {|params| + 1} + {|params| + 2};
  }

  /** The count query and the page query a paged list handler sends. */
  datatype Plan = Plan(count: Query, page: Query)

  /** `WHERE {where_clause}` for the count, and the same with
      `LIMIT $len+1 OFFSET $len+2` after `params.extend([page_size, offset])`
      for the page. */
  method PagedPlan(clauses: seq<Clause>, params: seq<Param>, ghost preds: seq<Pred>, size: Param, offset: Param)
    returns (plan: Plan)
    requires Builds(clauses, params, preds)
    ensures plan.count == Query([WhereBody(clauses)], None, None, params)
    ensures plan.page == Query([WhereBody(clauses)], Some(|params| + 1), Some(|params| + 2), params + [size, offset])
    ensures WellFormed(plan.count) && Resolve(plan.count) == Some(Bound([OrTrue(preds)], None, None))
    ensures WellFormed(plan.page) && Resolve(plan.page) == Some(Bound([OrTrue(preds)], Some(size), Some(offset)))
  {
    var where := WhereBody(clauses);
    JoinOrTrue(clauses, params, preds);
    OneSection(where, params, OrTrue(preds));
    CountQuery([where], params, [OrTrue(preds)]);
    PageQuery([where], params, [OrTrue(preds)], size, offset);
    plan := Plan(Query([where], None, None, params),
                 Query([where], Some(|params| + 1), Some(|params| + 2), params + [size, offset]));
  }

  /** A clause list that starts with fixed text, such as `type = 'goal'`. */
  lemma LiteralStart(text: string)
    ensures Builds([Lit(text)], [], [Fixed(text)])
  {
    EmptyBuilds();
    AddLiteral([], [], [], text);
    assert [] + [Lit(text)] == [Lit(text)];
    assert [] + [Fixed(text)] == [Fixed(text)];
  }

  /** An unpaged query under one WHERE keyword with the clauses joined by AND. */
  method FilterQuery(clauses: seq<Clause>, params: seq<Param>, ghost preds: seq<Pred>) returns (q: Query)
    requires Builds(clauses, params, preds)
    ensures q == Query([clauses], None, None, params)
    ensures WellFormed(q) && Resolve(q) == Some(Bound([preds], None, None))
  {
    OneSection(clauses, params, preds);
    CountQuery([clauses], params, [preds]);
    q := Query([clauses], None, None, params);
  }

  /** The filter of the per-entity handlers: the entity's key compared with
      `$1`, then the season at `$2` under `if season:`. */
  function KeyedPreds(cols: seq<string>, key: Param, seasonCol: string, season: Option<int>): seq<Pred> {
    [Test(cols, Eq, key)] + IntFilter([seasonCol], Eq, season)
  }

  /** `params = [key]`, then `AND season_col = $2` and `params.append(season)`
      under `if season:`: fixed placeholder numbers, the key always first. */
  method KeyedFilter(cols: seq<string>, key: Param, seasonCol: string, season: Option<int>)
    returns (clauses: seq<Clause>, params: seq<Param>)
    ensures Builds(clauses, params, KeyedPreds(cols, key, seasonCol, season))
    ensures |clauses| >= 1 && clauses[0] == Cmp(cols, Eq, 1)
    ensures IntGiven(season) ==> clauses == [Cmp(cols, Eq, 1), Cmp([seasonCol], Eq, 2)] && params == [key, PInt(season.value)]
    ensures !IntGiven(season) ==> clauses == [Cmp(cols, Eq, 1)] && params == [key]
  {
    EmptyBuilds();
    AddFilter([], [], [], cols, Eq, key);
    assert [] + [Cmp(cols, Eq, 1)] == [Cmp(cols, Eq, 1)];
    assert [] + [Test(cols, Eq, key)] == [Test(cols, Eq, key)];
    clauses := [Cmp(cols, Eq, 1)];
    params := [key];
    if IntGiven(season) {
      AddFilter(clauses, params, [Test(cols, Eq, key)], [seasonCol], Eq, PInt(season.value));
      clauses := clauses + [Cmp([seasonCol], Eq, 2)];
      params := params + [PInt(season.value)];
    } else {
      assert KeyedPreds(cols, key, seasonCol, season) == [Test(cols, Eq, key)];
    }
  }

  /** The keyed filter with its count query and its page query; LIMIT and
      OFFSET come right after the filter's parameters. */
  method KeyedPlan(cols: seq<string>, key: Param, seasonCol: string, season: Option<int>, size: Param, offset: Param)
    returns (plan: Plan)
    ensures WellFormed(plan.count) && WellFormed(plan.page)
    ensures Resolve(plan.count) == Some(Bound([KeyedPreds(cols, key, seasonCol, season)], None, None))
    ensures Resolve(plan.page) == Some(Bound([KeyedPreds(cols, key, seasonCol, season)], Some(size), Some(offset)))
    ensures plan.page.params == plan.count.params + [size, offset]
    ensures plan.page.limit == Some(if IntGiven(season) then 3 else 2)
    ensures plan.page.offset == Some(if IntGiven(season) then 4 else 3)
  {
    var clauses, params := KeyedFilter(cols, key, seasonCol, season);
    ghost var preds := KeyedPreds(cols, key, seasonCol, season);
    OneSection(clauses, params, preds);
    CountQuery([clauses], params, [preds]);
    PageQuery([clauses], params, [preds], size, offset);
    plan := Plan(Query([clauses], None, None, params),
                 Query([clauses], Some(|params| + 1), Some(|params| + 2), params + [size, offset]));
  }

  /** A fixed single-row lookup `WHERE c1 = $1 OR c2 = $1 ...` with the key
      as its only parameter. */
  function KeyLookup(cols: seq<string>, key: Param): (q: Query)
    ensures WellFormed(q)
    ensures q.params == [key]
    ensures Resolve(q) == Some(Bound([[Test(cols, Eq, key)]], None, None))
  {
    var c := Cmp(cols, Eq, 1);
    EmptyBuilds();
    AddFilter([], [], [], cols, Eq, key);
    assert [] + [c] == [c];
    assert [] + [Test(cols, Eq, key)] == [Test(cols, Eq, key)];
    assert [] + [key] == [key];
    OneSection([c], [key], [Test(cols, Eq, key)]);
    CountQuery([[c]], [key], [[Test(cols, Eq, key)]]);
    Query([[c]], None, None, [key])
  }

  /** Resolving short clause lists and a query text with two WHERE
      sections, one step at a time. */
  lemma ResolveOne(c: Clause, params: seq<Param>)
    ensures ResolveClauses([c], params)
         == if ResolveClause(c, params).Some? then Some([ResolveClause(c, params).value]) else None
  {
    assert [c][..0] == [];
    if ResolveClause(c, params).Some? {
      assert [] + [ResolveClause(c, params).value] == [ResolveClause(c, params).value];
    }
  }

  lemma ResolveTwo(c1: Clause, c2: Clause, params: seq<Param>)
    ensures ResolveClauses([c1, c2], params)
         == if ResolveClause(c1, params).Some? && ResolveClause(c2, params).Some?
            then Some([ResolveClause(c1, params).value, ResolveClause(c2, params).value]) else None
  {
    assert [c1, c2][..1] == [c1];
    ResolveOne(c1, params);
    if ResolveClause(c1, params).Some? && ResolveClause(c2, params).Some? {
      assert [ResolveClause(c1, params).value] + [ResolveClause(c2, params).value]
          == [ResolveClause(c1, params).value, ResolveClause(c2, params).value];
    }
  }

  lemma ResolveTwoSections(w1: seq<Clause>, w2: seq<Clause>, params: seq<Param>)
    ensures ResolveSections([w1, w2], params)
         == if ResolveClauses(w1, params).Some? && ResolveClauses(w2, params).Some?
            then Some([ResolveClauses(w1, params).value, ResolveClauses(w2, params).value]) else None
  {
    assert [w1, w2][..1] == [w1];
    assert [w1][..0] == [];
    var r1 := ResolveClauses(w1, params);
    var r2 := ResolveClauses(w2, params);
    if r1.Some? {
      assert ResolveSections([w1], params) == Some([] + [r1.value]);
      assert [] + [r1.value] == [r1.value];
      if r2.Some? {
        assert [r1.value] + [r2.value] == [r1.value, r2.value];
      }
    }
  }

  lemma RefsTwo(c1: Clause, c2: Clause)
    ensures RefsOf([c1]) == ClauseRefs(c1)
    ensures RefsOf([c1, c2]) == ClauseRefs(c1) + ClauseRefs(c2)
  {
    assert [c1, c2][..1] == [c1];
    assert [c1][..0] == [];
  }

  lemma RefsTwoSections(w1: seq<Clause>, w2: seq<Clause>)
    ensures SectionRefs([w1, w2]) == RefsOf(w1) + RefsOf(w2)
  {
    assert [w1, w2][..1] == [w1];
    assert [w1][..0] == [];
    assert SectionRefs([w1]) == SectionRefs([]) + RefsOf(w1);
  }
}
