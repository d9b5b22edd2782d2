/**
 The request validation and query construction of the `/books` handler
 (`getBooks`): four raw query-string values in; out comes either the first
 parameter error, reported before any database work, or a parameterised
 PostgreSQL statement together with its ordered argument list.
 */
module Books {
  import opened Wrappers
  import opened GoStrings
  import opened GoStrconv
  import opened Placeholders

  const DefaultLimit: int := 10
  const MaxLimit: int := 100

  /** Every statement starts with this projection of the `books` table. */
  const SelectBooks: string := "SELECT id, title, price, genre FROM books"

  /** The four query parameters as `url.Values.Get` hands them over: the
      first value given, or "" when the parameter is absent. */
  datatype Request = Request(limit: string, offset: string, genre: string, sort: string)

  /** The parameter that failed validation. */
  datatype ParamError = InvalidLimit | InvalidOffset | InvalidSort

  /** The error text the handler sends back with status 400; each names
      what was invalid. */
  function Message(e: ParamError): (m: string)
    ensures "invalid " <= m
  {
    match e
    case InvalidLimit => "invalid limit"
    case InvalidOffset => "invalid offset"
    case InvalidSort => "invalid sort value"
  }

  /** The orderings a request may ask for. */
  datatype SortOrder = Unordered | PriceAsc | PriceDesc

  /** A bound argument: the genre is passed as text, limit and offset as `int`. */
  datatype Arg = TextArg(text: string) | IntArg(value: int)

  /** A statement and the arguments bound to its placeholders `$1`, `$2`, ... */
  datatype Query = Query(sql: string, args: seq<Arg>)

  /** What `getBooks` has decided before it reaches the database: a rejection
      (with the elapsed time it reports for it) or the query to run. */
  datatype Outcome = Rejected(error: ParamError, elapsedMs: int) | Built(query: Query)

  /** The `sort` value that selects each ordering. */
  function SortName(o: SortOrder): string {
    match o
    case Unordered => ""
    case PriceAsc => "price_asc"
    case PriceDesc => "price_desc"
  }

  /** The ORDER BY expression of each ordering ("" for none). */
  function OrderBy(o: SortOrder): (clause: string)
    ensures clause == "" <==> o == Unordered
  {
    match o
    case Unordered => ""
    case PriceAsc => "price ASC"
    case PriceDesc => "price DESC"
  }

  /** The page size: 10 when `limit` is blank, otherwise a positive `int`
      capped at 100. A value that does not parse or is not positive is
      rejected rather than defaulted. */
  function ResolveLimit(raw: string): (r: Result<int, ParamError>)
    ensures r.Ok? ==> 1 <= r.value <= MaxLimit
    ensures r.Err? ==> r.error == InvalidLimit
    ensures IsBlank(raw) ==> r == Ok(DefaultLimit)
    ensures var p := Atoi(TrimSpace(raw));
            !IsBlank(raw) ==> (r.Ok? <==> p.Some? && p.value > 0)
    ensures var p := Atoi(TrimSpace(raw));
            p.Some? && 0 < p.value <= MaxLimit ==> r == Ok(p.value)
    ensures var p := Atoi(TrimSpace(raw));
            p.Some? && p.value > MaxLimit ==> r == Ok(MaxLimit)
  {
    var s := TrimSpace(raw);
    var parsed :=
      if s == "" then Ok(DefaultLimit)
      else match Atoi(s)
        case Some(v) => if v > 0 then Ok(v) else Err(InvalidLimit)
        case None => Err(InvalidLimit);
    match parsed
    case Err(e) => Err(e)
    case Ok(limit) => Ok(if limit > MaxLimit then MaxLimit else limit)
  }

  /** The number of rows to skip: 0 when `offset` is blank, otherwise any
      non-negative `int`, with no upper cap. */
  function ResolveOffset(raw: string): (r: Result<int, ParamError>)
    ensures r.Ok? ==> 0 <= r.value <= MaxInt64
    ensures r.Err? ==> r.error == InvalidOffset
    ensures IsBlank(raw) ==> r == Ok(0)
    ensures var p := Atoi(TrimSpace(raw));
            !IsBlank(raw) ==> (r.Ok? <==> p.Some? && p.value >= 0)
    ensures var p := Atoi(TrimSpace(raw));
            p.Some? && p.value >= 0 ==> r == Ok(p.value)
  {
    var s := TrimSpace(raw);
    if s == "" then Ok(0)
    else match Atoi(s)
      case Some(v) => if v >= 0 then Ok(v) else Err(InvalidOffset)
      case None => Err(InvalidOffset)
  }

  /** The ordering a `sort` value selects once trimmed; any value other than
      the three names is rejected. */
  function ResolveSort(raw: string): (r: Result<SortOrder, ParamError>)
    ensures r.Err? ==> r.error == InvalidSort
    ensures r.Ok? ==> TrimSpace(raw) == SortName(r.value)
    ensures (exists o :: TrimSpace(raw) == SortName(o)) ==> r.Ok?
  {
    var s := TrimSpace(raw);
    if s == "" then Ok(Unordered)
    else if s == "price_asc" then Ok(PriceAsc)
    else if s == "price_desc" then Ok(PriceDesc)
    else Err(InvalidSort)
  }

  /** The statement under construction: the arguments appended so far, the
      WHERE conditions collected so far, and the strings written to the
      builder so far. */
  datatype Draft = Draft(args: seq<Arg>, conditions: seq<string>, writes: seq<string>)

  /** Nothing appended, collected or written yet. */
  const Fresh := Draft([], [], [])

  /** A non-empty genre is appended as an argument, and the condition
      `genre = $n` collected, `n` being the new number of arguments. */
  function FilterGenre(d: Draft, genre: string): (r: Draft)
    ensures r.writes == d.writes
    ensures genre == "" ==> r == d
    ensures genre != "" ==> r.args == d.args + [TextArg(genre)] && |r.conditions| == |d.conditions| + 1
  {
    if genre != "" then
      var args := d.args + [TextArg(genre)];
      d.(args := args, conditions := d.conditions + ["genre = " + Param(|args|)])
    else d
  }

  /** The SELECT list, followed by ` WHERE ` and the conditions joined by
      ` AND ` when there are any. */
  function SelectClause(conditions: seq<string>): (writes: seq<string>)
    ensures |writes| == if conditions == [] then 1 else 3
    ensures writes[0] == SelectBooks
  {
    if |conditions| > 0 then [SelectBooks, " WHERE ", Join(conditions, " AND ")] else [SelectBooks]
  }

  /** The SELECT list and WHERE clause are written for the conditions
      collected. */
  function WriteSelect(d: Draft): (r: Draft)
    ensures r.args == d.args && r.conditions == d.conditions
    ensures d.writes < r.writes
  {
    d.(writes := d.writes + SelectClause(d.conditions))
  }

  /** ` ORDER BY` and the column order are written when an order was asked for. */
  function WriteOrder(d: Draft, order: SortOrder): (r: Draft)
    ensures r.args == d.args && r.conditions == d.conditions
    ensures order == Unordered <==> r == d
  {
    var column := OrderBy(order);
    if column != "" then d.(writes := d.writes + [" ORDER BY " + column]) else d
  }

  /** A value is appended as an argument, and the keyword is written with the
      placeholder `$n`, `n` being the new number of arguments. */
  function Bind(d: Draft, keyword: string, arg: Arg): (r: Draft)
    ensures r.args == d.args + [arg] && r.conditions == d.conditions
    ensures d.writes < r.writes && |r.writes| == |d.writes| + 1
  {
    var args := d.args + [arg];
    d.(args := args, writes := d.writes + [keyword + Param(|args|)])
  }

  /** The builder steps for already validated values, in the handler's order:
      the genre filter, the SELECT list and WHERE clause, the ordering, then
      LIMIT and OFFSET. */
  function Assemble(genre: string, order: SortOrder, limit: int, offset: int): (d: Draft)
    ensures d.args == (if genre != "" then [TextArg(genre)] else []) + [IntArg(limit), IntArg(offset)]
  {
    var filtered := FilterGenre(Fresh, genre);
    var ordered := WriteOrder(WriteSelect(filtered), order);
    Bind(Bind(ordered, " LIMIT ", IntArg(limit)), " OFFSET ", IntArg(offset))
  }

  /** The finished statement: the builder's text and the argument list. */
  function BuildQuery(genre: string, order: SortOrder, limit: int, offset: int): (q: Query)
    ensures q.args == (if genre != "" then [TextArg(genre)] else []) + [IntArg(limit), IntArg(offset)]
  {
    var d := Assemble(genre, order, limit, offset);
    Query(BuilderString(d.writes), d.args)
  }

  /** `getBooks` up to the database call: limit, offset and sort are checked
      in that order and the first failure is returned with elapsed time 0;
      otherwise the query for the trimmed genre is built. */
  function GetBooks(req: Request): (r: Outcome)
    ensures r.Rejected? ==> r.elapsedMs == 0
    ensures r.Built? ==> ResolveLimit(req.limit).Ok? && ResolveOffset(req.offset).Ok?
                         && ResolveSort(req.sort).Ok?
  {
    match ResolveLimit(req.limit)
    case Err(e) => Rejected(e, 0)
    case Ok(limit) =>
      match ResolveOffset(req.offset)
      case Err(e) => Rejected(e, 0)
      case Ok(offset) =>
        var genre := TrimSpace(req.genre);
        match ResolveSort(req.sort)
        case Err(e) => Rejected(e, 0)
        case Ok(order) => Built(BuildQuery(genre, order, limit, offset))
  }
}
