/** `/items`: the generic item CRUD router.  Its update statement is built
    from the fields the client sent, and its list endpoint binds the page
    size and offset before the search pattern. */
module Items {
  import opened Common
  import opened Sql
  import opened Paging

  const ITEM_NOT_FOUND: string := "Item not found"
  const NO_FIELDS: string := "No fields to update"

  /** `per_page: int = Query(10, ge=1, le=100)` */
  const DEFAULT_PER_PAGE: nat := 10
  const MAX_PER_PAGE: nat := 100

  /** The search compares name and description with the same placeholder. */
  const SEARCH_COLUMNS: seq<string> := ["name", "description"]

  // ---------------------------------------------------------------------
  // Update
  // ---------------------------------------------------------------------

  /** The `ItemUpdate` body: every field optional. */
  datatype ItemUpdate = ItemUpdate(name: Option<string>, description: Option<string>, price: Option<real>,
                                   quantity: Option<int>, isActive: Option<bool>)

  function AsParam<T>(v: Option<T>, wrap: T -> Param): Option<Param> {
    if v.Some? then Some(wrap(v.value)) else None
  }

  /** `item.dict().items()`: the fields in declaration order. */
  function Fields(u: ItemUpdate): seq<(string, Option<Param>)> {
    [("name", AsParam(u.name, s => PText(s))),
     ("description", AsParam(u.description, s => PText(s))),
     ("price", AsParam(u.price, x => PReal(x))),
     ("quantity", AsParam(u.quantity, n => PInt(n))),
     ("is_active", AsParam(u.isActive, b => PBool(b)))]
  }

  /** `{k: v for k, v in ... if v is not None}`, keeping the order. */
  function Present(fs: seq<(string, Option<Param>)>): (r: seq<(string, Param)>)
    ensures |r| <= |fs|
    ensures forall e :: e in r ==> (e.0, Some(e.1)) in fs
    ensures forall i :: 0 <= i < |fs| && fs[i].1.Some? ==> (fs[i].0, fs[i].1.value) in r
    decreases |fs|
  {
    if fs == [] then []
    else if fs[0].1.Some? then [(fs[0].0, fs[0].1.value)] + Present(fs[1..])
    else Present(fs[1..])
  }

  /** A single field is kept, unwrapped, iff it is not None. */
  lemma PresentOne(k: string, v: Option<Param>)
    ensures Present([(k, v)]) == if v.Some? then [(k, v.value)] else []
  {
    assert [(k, v)][1..] == [];
  }

  /** Filtering keeps the order: the kept fields of a first part come before
      those of the rest.  With PresentOne this fixes Present entirely. */
  lemma {:induction false} PresentAppend(a: seq<(string, Option<Param>)>, b: seq<(string, Option<Param>)>)
    ensures Present(a + b) == Present(a) + Present(b)
    decreases |a|
  {
    if a == [] {
      assert a + b == b;
    } else {
      assert (a + b)[1..] == a[1..] + b;
      PresentAppend(a[1..], b);
    }
  }

  function UpdateData(u: ItemUpdate): seq<(string, Param)> {
    Present(Fields(u))
  }

  /** A field is dropped only when it is absent: `False` and `0` are kept. */
  lemma FalsyValuesKept(q: int)
    ensures UpdateData(ItemUpdate(None, None, None, Some(q), Some(false))) == [("quantity", PInt(q)), ("is_active", PBool(false))]
  {
    var absent: seq<(string, Option<Param>)> := [("name", None), ("description", None), ("price", None)];
    var quantity: seq<(string, Option<Param>)> := [("quantity", Some(PInt(q)))];
    var active: seq<(string, Option<Param>)> := [("is_active", Some(PBool(false)))];
    assert Fields(ItemUpdate(None, None, None, Some(q), Some(false))) == absent + (quantity + active);
    assert Present(absent) == [];
    PresentAppend(absent, quantity + active);
    PresentAppend(quantity, active);
    PresentOne("quantity", Some(PInt(q)));
    PresentOne("is_active", Some(PBool(false)));
  }

  /** An update that sets no field keeps nothing. */
  lemma EmptyUpdateSendsNothing()
    ensures UpdateData(ItemUpdate(None, None, None, None, None)) == []
  {
    var fs := Fields(ItemUpdate(None, None, None, None, None));
    assert forall i :: 0 <= i < |fs| ==> fs[i].1.None?;
    NonePresent(fs);
  }

  /** A field list with no value keeps nothing. */
  lemma {:induction false} NonePresent(fs: seq<(string, Option<Param>)>)
    requires forall i :: 0 <= i < |fs| ==> fs[i].1.None?
    ensures Present(fs) == []
    decreases |fs|
  {
    if fs != [] {
      NonePresent(fs[1..]);
    }
  }

  /** `column = $n` in a SET list. */
  datatype Assign = Assign(column: string, ph: nat)

  /** Some SET assignment uses placeholder `$j`. */
  predicate SetsUse(sets: seq<Assign>, j: int) {
    exists i :: 0 <= i < |sets| && sets[i].ph == j
  }

  /** `UPDATE items SET ... WHERE id = $1` with its parameters. */
  datatype Update = Update(sets: seq<Assign>, key: Clause, params: seq<Param>)

  /** `[f"{k} = ${i+2}" for i, k in enumerate(keys)]` followed by
      `updated_at = ${len+2}`; the key is `$1`; the parameters are the item
      id, the values in order, and the clock. */
  function UpdateStatement(itemId: int, data: seq<(string, Param)>, now: int): (u: Update)
    ensures |u.sets| == |data| + 1 && |u.params| == |data| + 2
    ensures u.key == Cmp(["id"], Eq, 1) && u.params[0] == PInt(itemId)
    ensures forall i :: 0 <= i < |data| ==> u.sets[i].column == data[i].0
    ensures u.sets[|data|].column == "updated_at" && u.params[|data| + 1] == PTime(now)
  {
    Update(seq(|data|, i requires 0 <= i < |data| => Assign(data[i].0, i + 2)) + [Assign("updated_at", |data| + 2)],
           Cmp(["id"], Eq, 1),
           [PInt(itemId)] + seq(|data|, i requires 0 <= i < |data| => data[i].1) + [PTime(now)])
  }

  /** The statement's placeholders agree with its parameters: the key binds
      the item id, the i-th SET column binds the i-th sent value,
      `updated_at` binds the clock, and every parameter is used exactly
      once. */
  lemma UpdateBindsFields(itemId: int, data: seq<(string, Param)>, now: int)
    ensures var s := UpdateStatement(itemId, data, now);
            && |s.sets| == |data| + 1 && |s.params| == |data| + 2
            && ResolveClause(s.key, s.params) == Some(Test(["id"], Eq, PInt(itemId)))
            && (forall i :: 0 <= i < |data| ==> s.sets[i].column == data[i].0 && Bind(s.sets[i].ph, s.params) == Some(data[i].1))
            && s.sets[|data|].column == "updated_at" && Bind(s.sets[|data|].ph, s.params) == Some(PTime(now))
            && (forall j :: 2 <= j <= |s.params| <==> SetsUse(s.sets, j))
            && (forall i, k :: 0 <= i < k < |s.sets| ==> s.sets[i].ph != s.sets[k].ph)
  {
    var s := UpdateStatement(itemId, data, now);
    forall i | 0 <= i < |s.sets|
      ensures s.sets[i].ph == i + 2
    {
    }
    forall j | 2 <= j <= |s.params|
      ensures SetsUse(s.sets, j)
    {
      assert s.sets[j - 2].ph == j;
    }
  }

  /** `update_item` up to its query: an update that sends no field is a 400
      and no statement is sent. */
  function UpdateItem(itemId: int, u: ItemUpdate, now: int): (r: Result<Update, HttpError>)
    ensures r.Err? <==> UpdateData(u) == []
    ensures r.Err? ==> r.error == Http(400, NO_FIELDS)
    ensures r.Ok? ==> r.value == UpdateStatement(itemId, UpdateData(u), now)
  {
    var data := UpdateData(u);
    if data == [] then Err(Http(400, NO_FIELDS)) else Ok(UpdateStatement(itemId, data, now))
  }

  /** `get_item` and `update_item`: no returned row is a 404. */
  function ItemBody<T>(row: Option<T>): (r: Result<T, HttpError>)
    ensures r.Ok? <==> row.Some?
    ensures r.Ok? ==> r.value == row.value
    ensures r.Err? ==> r.error == Http(404, ITEM_NOT_FOUND)
  {
    RowOr404(row, ITEM_NOT_FOUND)
  }

  /** `delete_item`: `DELETE ... RETURNING id`, then `if not result`: no
      deleted row (or a deleted id of 0) is a 404, otherwise 204. */
  function DeleteBody(deleted: Option<int>): (r: Result<(), HttpError>)
    ensures r.Ok? <==> IntGiven(deleted)
    ensures r.Err? ==> r.error == Http(404, ITEM_NOT_FOUND)
  {
    if IntGiven(deleted) then Ok(()) else Err(Http(404, ITEM_NOT_FOUND))
  }

  // ---------------------------------------------------------------------
  // The item list
  // ---------------------------------------------------------------------

  /** `page: int = Query(1, ge=1)` and `per_page: int = Query(10, ge=1, le=100)`. */
  function ItemsPaging(page: Option<int>, perPage: Option<int>): (r: Result<Paging, HttpError>)
    ensures r.Ok? <==> InRange(page, 1, None) && InRange(perPage, 1, Some(MAX_PER_PAGE))
    ensures r.Ok? ==> ValidPaging(r.value, MAX_PER_PAGE)
    ensures r.Ok? ==> r.value.size == (if perPage.Some? then perPage.value else DEFAULT_PER_PAGE)
    ensures r.Err? ==> r.error == Unprocessable("page") || r.error == Unprocessable("per_page")
  {
    var pg := IntArg(page, 1, 1, None, "page");
    var sz := IntArg(perPage, DEFAULT_PER_PAGE, 1, Some(MAX_PER_PAGE), "per_page");
    if pg.Err? then Err(pg.error)
    else if sz.Err? then Err(sz.error)
    else Ok(Paging(pg.value, sz.value))
  }

  /** What the list filters on: one section with the name/description
      pattern when a search is given, no WHERE otherwise. */
  function ItemWheres(search: Option<string>): seq<seq<Pred>> {
    if TextGiven(search) then [LikeFilter(SEARCH_COLUMNS, search)] else []
  }

  /** The page query of `get_items`: `params = [per_page, offset]` first,
      so LIMIT is `$1` and OFFSET `$2`, and the search pattern, when given,
      is `$3`. */
  method ItemsQuery(p: Paging, search: Option<string>) returns (q: Query)
    requires ValidPaging(p, MAX_PER_PAGE)
    ensures q.limit == Some(1) && q.offset == Some(2)
    ensures TextGiven(search) ==> q.wheres == [[Cmp(SEARCH_COLUMNS, ILike, 3)]]
    ensures WellFormed(q)
    ensures Resolve(q) == Some(Bound(ItemWheres(search), Some(PInt(p.size)), Some(PInt(Offset(p)))))
  {
    var offset := Offset(p);
    var wheres: seq<seq<Clause>> := [];
    var params := [PInt(p.size), PInt(offset)];
    var paramCount := 2;
    if TextGiven(search) {
      paramCount := paramCount + 1;
      wheres := [[Cmp(SEARCH_COLUMNS, ILike, paramCount)]];
      params := params + [PText(Wrapped(search.value))];
      ResolveOne(Cmp(SEARCH_COLUMNS, ILike, 3), params);
      assert wheres[..0] == [];
      assert ResolveSections(wheres, params) == Some([] + [[Test(SEARCH_COLUMNS, ILike, PText(Wrapped(search.value)))]]);
      assert [] + [[Test(SEARCH_COLUMNS, ILike, PText(Wrapped(search.value)))]] == ItemWheres(search);
      assert [Cmp(SEARCH_COLUMNS, ILike, 3)][..0] == [];
      RefsTwo(Cmp(SEARCH_COLUMNS, ILike, 3), Cmp(SEARCH_COLUMNS, ILike, 3));
      assert SectionRefs(wheres) == SectionRefs([]) + RefsOf(wheres[0]);
      assert Refs(Query(wheres, Some(1), Some(2), params)) == {1, 2, 3};
    }
    q := Query(wheres, Some(1), Some(2), params);
  }

  /** The count query of `get_items` as written: it reuses the WHERE text of
      the page query, whose pattern is `$3`, but is sent the pattern alone. */
  method ItemsCountAsWritten(search: Option<string>) returns (q: Query)
    ensures TextGiven(search) ==>
              q == Query([[Cmp(SEARCH_COLUMNS, ILike, 3)]], None, None, [PText(Wrapped(search.value))])
    // The database refuses it: `$3` has no parameter.
    ensures TextGiven(search) ==> Resolve(q).None? && !WellFormed(q)
    ensures !TextGiven(search) ==> q == Query([], None, None, []) && WellFormed(q)
  {
    var wheres: seq<seq<Clause>> := [];
    var paramCount := 2;
    if TextGiven(search) {
      paramCount := paramCount + 1;
      wheres := [[Cmp(SEARCH_COLUMNS, ILike, paramCount)]];
      q := Query(wheres, None, None, [PText(Wrapped(search.value))]);
      ResolveOne(Cmp(SEARCH_COLUMNS, ILike, 3), q.params);
      assert wheres[..0] == [];
    } else {
      q := Query(wheres, None, None, []);
    }
  }

  /** The count query as intended: the same filter with the pattern at `$1`. */
  method ItemsCount(search: Option<string>) returns (q: Query)
    ensures WellFormed(q)
    ensures Resolve(q) == Some(Bound(ItemWheres(search), None, None))
  {
    var wheres: seq<seq<Clause>> := [];
    var params: seq<Param> := [];
    ghost var pws: seq<seq<Pred>> := [];
    if TextGiven(search) {
      EmptyBuilds();
      var clauses: seq<Clause>;
      ghost var preds: seq<Pred>;
      clauses, params, preds := AppendFilter([], [], [], SEARCH_COLUMNS, ILike, PText(Wrapped(search.value)));
      assert preds == LikeFilter(SEARCH_COLUMNS, search);
      OneSection(clauses, params, preds);
      wheres := [clauses];
      pws := [preds];
    } else {
      NoSection();
    }
    CountQuery(wheres, params, pws);
    q := Query(wheres, None, None, params);
  }

  /** The count and the page query of a well-formed `get_items` request. */
  method GetItems(page: Option<int>, perPage: Option<int>, search: Option<string>) returns (r: Result<Plan, HttpError>)
    ensures r.Err? <==> ItemsPaging(page, perPage).Err?
    ensures r.Ok? ==> WellFormed(r.value.count) && WellFormed(r.value.page)
    ensures r.Ok? ==> var p := ItemsPaging(page, perPage).value;
                      Resolve(r.value.count) == Some(Bound(ItemWheres(search), None, None))
                      && Resolve(r.value.page) == Some(Bound(ItemWheres(search), Some(PInt(p.size)), Some(PInt(Offset(p)))))
  {
    var checked := ItemsPaging(page, perPage);
    if checked.Err? {
      return Err(checked.error);
    }
    var count := ItemsCount(search);
    var q := ItemsQuery(checked.value, search);
    r := Ok(Plan(count, q));
  }

  // ---------------------------------------------------------------------
  // The list envelope
  // ---------------------------------------------------------------------

  /** Keyword names a `PaginatedItems(...)` call can pass. */
  datatype Keyword = ItemsKw | TotalKw | PageKw | PageSizeKw | PerPageKw | TotalPagesKw

  /** The fields `PaginatedItems` declares, all required. */
  const PAGE_FIELDS: set<Keyword> := {ItemsKw, TotalKw, PageKw, PageSizeKw, TotalPagesKw}

  datatype ItemsPage<T> = ItemsPage(items: seq<T>, total: nat, page: nat, pageSize: nat, totalPages: nat)

  /** Building the model by keyword: a missing required field is a
      validation error naming the missing fields; unknown keywords are
      ignored. */
  function MakeItemsPage<T>(given: set<Keyword>, items: seq<T>, info: PageInfo): (r: Result<ItemsPage<T>, set<Keyword>>)
    ensures r.Ok? <==> PAGE_FIELDS <= given
    ensures r.Err? ==> r.error == PAGE_FIELDS - given && r.error != {}
    ensures r.Ok? ==> r.value == ItemsPage(items, info.total, info.page, info.pageSize, info.totalPages)
  {
    if PAGE_FIELDS <= given then Ok(ItemsPage(items, info.total, info.page, info.pageSize, info.totalPages))
    else
      var missing := PAGE_FIELDS - given;
      assert missing != {} by {
        var k :| k in PAGE_FIELDS && k !in given;
        assert k in missing;
      }
      Err(missing)
  }

  /** The keywords `get_items` passes: `per_page=` where the model declares
      `page_size`. */
  const PASSED_KEYWORDS: set<Keyword> := {ItemsKw, TotalKw, PageKw, PerPageKw, TotalPagesKw}

  /** `return PaginatedItems(**given)` inside the handler's `try`: a
      validation error is caught by `except Exception` and answered as a
      500 carrying the error's text. */
  function ItemsEnvelope<T>(given: set<Keyword>, items: seq<T>, total: nat, p: Paging, errorText: string)
    : (r: Result<ItemsPage<T>, HttpError>)
    requires p.size >= 1
    ensures r.Ok? <==> PAGE_FIELDS <= given
    ensures r.Err? ==> r.error == Http(500, errorText)
    ensures r.Ok? ==> r.value.items == items && r.value.total == total && r.value.page == p.page
                      && r.value.pageSize == p.size && r.value.totalPages == TotalPages(total, p.size)
  {
    match MakeItemsPage(given, items, Pagination(total, p))
    case Ok(page) => Ok(page)
    case Err(_) => Err(Http(500, errorText))
  }

  /** The envelope of `get_items` as written: every list request that got
      this far is a 500. */
  function ItemsBodyAsWritten<T>(items: seq<T>, total: nat, p: Paging, errorText: string): (r: Result<ItemsPage<T>, HttpError>)
    requires p.size >= 1
    ensures r == Err(Http(500, errorText))
  {
    assert PageSizeKw !in PASSED_KEYWORDS;
    ItemsEnvelope(PASSED_KEYWORDS, items, total, p, errorText)
  }

  /** The envelope as intended, with `page_size=per_page`: the page is built
      with its count and the ceiling page count. */
  function ItemsBody<T>(items: seq<T>, total: nat, p: Paging): (r: Result<ItemsPage<T>, HttpError>)
    requires p.size >= 1
    ensures r.Ok?
    ensures r.value.items == items && r.value.total == total && r.value.page == p.page && r.value.pageSize == p.size
    ensures r.value.totalPages * p.size >= total && (r.value.totalPages == 0 || (r.value.totalPages - 1) * p.size < total)
  {
    TotalPagesIsCeiling(total, p.size);
    ItemsEnvelope(PAGE_FIELDS, items, total, p, "")
  }
}
