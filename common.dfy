/** Shared vocabulary: optional values, results, HTTP errors and the Python
    truthiness tests that every handler applies to its optional query arguments. */
module Common {

  datatype Option<+T> = None | Some(value: T)

  datatype Result<+T, +E> = Ok(value: T) | Err(error: E)

  /** An HTTPException raised by a handler (status and detail text), or the
      422 answer the web framework gives before the handler runs when a query
      argument violates its declared bounds. */
  datatype HttpError =
    | Http(status: nat, detail: string)
    | Unprocessable(field: string)

  /** `if x:` on an optional integer argument: None and 0 are both falsy. */
  predicate IntGiven(x: Option<int>) {
    x.Some? && x.value != 0
  }

  /** `if s:` on an optional string argument: None and "" are both falsy. */
  predicate TextGiven(s: Option<string>) {
    s.Some? && s.value != ""
  }

  /** The f-string `f"%{v}%"` used to bind ILIKE substring patterns. */
  function Wrapped(v: string): (r: string)
    ensures |r| == |v| + 2 && r[0] == '%' && r[|r| - 1] == '%' && r[1..|r| - 1] == v
  {
    "%" + v + "%"
  }

  /** `if not row: raise HTTPException(404, detail)` after a `fetchrow`. */
  function RowOr404<T>(row: Option<T>, detail: string): (r: Result<T, HttpError>)
    ensures r.Ok? <==> row.Some?
    ensures r.Ok? ==> r.value == row.value
    ensures r.Err? ==> r.error == Http(404, detail)
  {
    if row.Some? then Ok(row.value) else Err(Http(404, detail))
  }

  /** `if not rows: raise HTTPException(404, detail)` after a `fetch`. */
  function RowsOr404<T>(rows: seq<T>, detail: string): (r: Result<seq<T>, HttpError>)
    ensures r.Ok? <==> rows != []
    ensures r.Ok? ==> r.value == rows
    ensures r.Err? ==> r.error == Http(404, detail)
  {
    if rows != [] then Ok(rows) else Err(Http(404, detail))
  }

  /** A season as reported back: the number given, or a fixed label. */
  datatype SeasonLabel = Year(year: int) | Label(text: string)

  /** `season if season else "all"` */
  function SeasonOrAll(season: Option<int>): (r: SeasonLabel)
    ensures IntGiven(season) <==> r.Year?
    ensures r.Year? ==> r.year == season.value
    ensures r.Label? ==> r.text == "all"
  {
    if IntGiven(season) then Year(season.value) else Label("all")
  }

  /** A list answered without pagination: the rows and `"total": len(rows)`. */
  datatype Listed<T> = Listed(rows: seq<T>, total: nat)

  function ListBody<T>(rows: seq<T>): (r: Listed<T>)
    ensures r.rows == rows && r.total == |rows|
  {
    Listed(rows, |rows|)
  }

  /** `if not row or row[count] == 0: raise HTTPException(404, detail)` after
      an aggregate `fetchrow`: a COUNT of zero means nothing matched. */
  function AggregateOr404<T>(row: Option<T>, count: Option<int>, detail: string): (r: Result<T, HttpError>)
    requires row.Some? <==> count.Some?
    ensures r.Ok? <==> row.Some? && count.value != 0
    ensures r.Ok? ==> r.value == row.value
    ensures r.Err? ==> r.error == Http(404, detail)
  {
    if row.None? || count.value == 0 then Err(Http(404, detail)) else Ok(row.value)
  }
}
