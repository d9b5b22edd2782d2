/**
 Properties of the `/books` request validation and query construction that
 relate several calls or compare the builder with an independent reading of
 its output.
 */
module BooksProperties {
  import opened Wrappers
  import opened GoStrings
  import opened GoStrconv
  import opened Placeholders
  import opened Books
  import opened SqlTexts

  // ---------------------------------------------------------------------
  // Validation order

  /** Every parameter that is invalid on its own, in the order the handler
      checks them. Unlike the handler this looks at all three. */
  function ValidationErrors(req: Request): seq<ParamError> {
    (if ResolveLimit(req.limit).Err? then [InvalidLimit] else [])
    + (if ResolveOffset(req.offset).Err? then [InvalidOffset] else [])
    + (if ResolveSort(req.sort).Err? then [InvalidSort] else [])
  }

  /** A request is rejected exactly when some parameter is invalid, and the
      error reported is the first invalid one in the order limit, offset,
      sort; the rejection reports no elapsed time. */
  lemma FirstFailureWins(req: Request)
    ensures GetBooks(req).Rejected? <==> ValidationErrors(req) != []
    ensures GetBooks(req).Rejected? ==>
              GetBooks(req).error == ValidationErrors(req)[0] && GetBooks(req).elapsedMs == 0
  {
  }

  /** The three error messages differ, so a client can tell which parameter
      was refused. */
  lemma MessagesDistinct(a: ParamError, b: ParamError)
    ensures Message(a) == Message(b) <==> a == b
  {
    if a != b {
      assert Message(a)[8] != Message(b)[8] || |Message(a)| != |Message(b)|;
    }
  }

  // ---------------------------------------------------------------------
  // The argument list

  /** For every accepted request, the arguments of the query are the trimmed
      genre (only when it is not empty), then the resolved limit, which lies
      in 1..100, then the resolved offset, which is not negative. */
  lemma BuiltArguments(req: Request)
    ensures var r := GetBooks(req);
            var genre := TrimSpace(req.genre);
            r.Built? ==>
              && r.query.args
                 == (if genre != "" then [TextArg(genre)] else [])
                    + [IntArg(ResolveLimit(req.limit).value), IntArg(ResolveOffset(req.offset).value)]
              && 1 <= ResolveLimit(req.limit).value <= MaxLimit
              && 0 <= ResolveOffset(req.offset).value
  {
  }

  // ---------------------------------------------------------------------
  // The statement text

  /** The six statements the handler can issue, one per request shape
      (genre filter or not, and the ordering), as the strings written to the
      builder. */
  function StatementTemplate(filtered: bool, order: SortOrder): seq<string> {
    match (filtered, order)
    case (false, Unordered) =>
      [SelectBooks, " LIMIT $1", " OFFSET $2"]
    case (false, PriceAsc) =>
      [SelectBooks, " ORDER BY price ASC", " LIMIT $1", " OFFSET $2"]
    case (false, PriceDesc) =>
      [SelectBooks, " ORDER BY price DESC", " LIMIT $1", " OFFSET $2"]
    case (true, Unordered) =>
      [SelectBooks, " WHERE ", "genre = $1", " LIMIT $2", " OFFSET $3"]
    case (true, PriceAsc) =>
      [SelectBooks, " WHERE ", "genre = $1", " ORDER BY price ASC", " LIMIT $2", " OFFSET $3"]
    case (true, PriceDesc) =>
      [SelectBooks, " WHERE ", "genre = $1", " ORDER BY price DESC", " LIMIT $2", " OFFSET $3"]
  }

  /** The statement text of each shape. */
  function SqlTemplate(filtered: bool, order: SortOrder): string {
    BuilderString(StatementTemplate(filtered, order))
  }

  /** A builder with three writes holds their concatenation; the longer
      ones below extend this a write at a time. */
  lemma Concat3(a: string, b: string, c: string)
    ensures BuilderString([a, b, c]) == a + b + c
  {
    assert [a][..0] == [];
    assert BuilderString([a]) == a;
    assert [a, b][..1] == [a];
    assert BuilderString([a, b]) == a + b;
    assert [a, b, c][..2] == [a, b];
  }

  lemma Concat4(a: string, b: string, c: string, d: string)
    ensures BuilderString([a, b, c, d]) == a + b + c + d
  {
    assert [a, b, c, d][..3] == [a, b, c];
    Concat3(a, b, c);
  }

  lemma Concat5(a: string, b: string, c: string, d: string, e: string)
    ensures BuilderString([a, b, c, d, e]) == a + b + c + d + e
  {
    assert [a, b, c, d, e][..4] == [a, b, c, d];
    Concat4(a, b, c, d);
  }

  lemma Concat6(a: string, b: string, c: string, d: string, e: string, f: string)
    ensures BuilderString([a, b, c, d, e, f]) == a + b + c + d + e + f
  {
    assert [a, b, c, d, e, f][..5] == [a, b, c, d, e];
    Concat5(a, b, c, d, e);
  }

  /** The statement text of each shape, built by the builder from its
      writes, is the shape's SQL literal. */
  lemma SqlTemplateText(filtered: bool, order: SortOrder)
    ensures SqlTemplate(filtered, order) == StatementText(filtered, order)
  {
    match (filtered, order)
    case (false, Unordered) =>
      Concat3(SelectBooks, " LIMIT $1", " OFFSET $2");
      TextUnfilteredUnordered();
    case (false, PriceAsc) =>
      Concat4(SelectBooks, " ORDER BY price ASC", " LIMIT $1", " OFFSET $2");
      TextUnfilteredAsc();
    case (false, PriceDesc) =>
      Concat4(SelectBooks, " ORDER BY price DESC", " LIMIT $1", " OFFSET $2");
      TextUnfilteredDesc();
    case (true, Unordered) =>
      Concat5(SelectBooks, " WHERE ", "genre = $1", " LIMIT $2", " OFFSET $3");
      TextFilteredUnordered();
    case (true, PriceAsc) =>
      Concat6(SelectBooks, " WHERE ", "genre = $1", " ORDER BY price ASC", " LIMIT $2", " OFFSET $3");
      TextFilteredAsc();
    case (true, PriceDesc) =>
      Concat6(SelectBooks, " WHERE ", "genre = $1", " ORDER BY price DESC", " LIMIT $2", " OFFSET $3");
      TextFilteredDesc();
  }

  /** The first three placeholders as text. */
  lemma FirstParams()
    ensures Param(1) == "$1" && Param(2) == "$2" && Param(3) == "$3"
  {
    assert FormatNat(1) == "1" && FormatNat(2) == "2" && FormatNat(3) == "3";
  }

  /** The writes of each builder step, for the values the handler passes. */
  lemma AssembleSteps(genre: string, order: SortOrder, limit: int, offset: int)
    ensures var n := if genre != "" then 3 else 2;
            Assemble(genre, order, limit, offset).writes
            == SelectClause(if genre != "" then ["genre = " + Param(1)] else [])
               + (if order != Unordered then [" ORDER BY " + OrderBy(order)] else [])
               + [" LIMIT " + Param(n - 1), " OFFSET " + Param(n)]
  {
  }

  /** The paging and filter texts with their placeholders. */
  lemma PlaceholderText()
    ensures " LIMIT " + Param(1) == " LIMIT $1" && " OFFSET " + Param(2) == " OFFSET $2"
    ensures " LIMIT " + Param(2) == " LIMIT $2" && " OFFSET " + Param(3) == " OFFSET $3"
    ensures "genre = " + Param(1) == "genre = $1"
  {
    FirstParams();
  }

  /** The ordering text of each order. */
  lemma OrderText(order: SortOrder)
    ensures order == PriceAsc ==> " ORDER BY " + OrderBy(order) == " ORDER BY price ASC"
    ensures order == PriceDesc ==> " ORDER BY " + OrderBy(order) == " ORDER BY price DESC"
  {
  }

  /** The builder writes the template of the request's shape: the genre,
      limit and offset values reach the statement only as arguments. */
  lemma AssembleIsTemplate(genre: string, order: SortOrder, limit: int, offset: int)
    ensures Assemble(genre, order, limit, offset).writes == StatementTemplate(genre != "", order)
  {
    AssembleSteps(genre, order, limit, offset);
    PlaceholderText();
    OrderText(order);
    if genre != "" {
      assert Join(["genre = $1"], " AND ") == "genre = $1";
      assert SelectClause(["genre = $1"]) == [SelectBooks, " WHERE ", "genre = $1"];
    } else {
      assert SelectClause([]) == [SelectBooks];
    }
  }

  /** The statement text is the template of the request's shape. */
  lemma BuildQueryIsTemplate(genre: string, order: SortOrder, limit: int, offset: int)
    ensures BuildQuery(genre, order, limit, offset).sql == SqlTemplate(genre != "", order)
    ensures BuildQuery(genre, order, limit, offset).sql == StatementText(genre != "", order)
  {
    AssembleIsTemplate(genre, order, limit, offset);
    SqlTemplateText(genre != "", order);
  }

  /** Every accepted request is sent as the template of its shape. */
  lemma RequestSqlIsTemplate(req: Request)
    ensures GetBooks(req).Built? ==>
              GetBooks(req).query.sql == SqlTemplate(TrimSpace(req.genre) != "", ResolveSort(req.sort).value)
    ensures GetBooks(req).Built? ==>
              GetBooks(req).query.sql == StatementText(TrimSpace(req.genre) != "", ResolveSort(req.sort).value)
  {
    if GetBooks(req).Built? {
      BuildQueryIsTemplate(TrimSpace(req.genre), ResolveSort(req.sort).value,
        ResolveLimit(req.limit).value, ResolveOffset(req.offset).value);
    }
  }

  /** Every statement starts with the SELECT list of the `books` table. */
  lemma TemplateStartsWithSelect(filtered: bool, order: SortOrder)
    ensures SelectBooks <= SqlTemplate(filtered, order)
  {
    var writes := StatementTemplate(filtered, order);
    assert writes[0] == SelectBooks;
  }

  /** Two accepted requests of the same shape (a genre given or not, and
      the same ordering) are sent as the same statement, whatever their
      genre, limit and offset values. */
  lemma SqlDependsOnlyOnShape(a: Request, b: Request)
    ensures GetBooks(a).Built? && GetBooks(b).Built?
            && (TrimSpace(a.genre) == "") == (TrimSpace(b.genre) == "")
            && ResolveSort(a.sort) == ResolveSort(b.sort)
            ==> GetBooks(a).query.sql == GetBooks(b).query.sql
  {
    if GetBooks(a).Built? && GetBooks(b).Built? {
      BuildQueryIsTemplate(TrimSpace(a.genre), ResolveSort(a.sort).value,
        ResolveLimit(a.limit).value, ResolveOffset(a.offset).value);
      BuildQueryIsTemplate(TrimSpace(b.genre), ResolveSort(b.sort).value,
        ResolveLimit(b.limit).value, ResolveOffset(b.offset).value);
    }
  }

  /** Every write starts with something other than a digit, so the digits
      of a placeholder never run on into the next write. */
  predicate CleanStarts(writes: seq<string>) {
    forall k :: 0 <= k < |writes| ==> |writes[k]| > 0 && !IsDigit(writes[k][0])
  }

  /** Before the SELECT list is written, the collected conditions hold the
      placeholders `$1` to `$n` of the `n` arguments appended so far. */
  predicate ConditionsInStep(d: Draft) {
    d.writes == [] && |d.conditions| <= 1 && CleanStarts(d.conditions)
    && NumberedFromOne(WriteOrdinals(d.conditions), |d.args|)
  }

  /** The writes hold the placeholders `$1` to `$n` of the `n` arguments
      appended so far. */
  predicate InStep(d: Draft) {
    CleanStarts(d.writes) && NumberedFromOne(WriteOrdinals(d.writes), |d.args|)
  }

  /** Nothing is numbered before anything is appended. */
  lemma FreshInStep()
    ensures ConditionsInStep(Fresh)
  {
  }

  /** Filtering on the genre collects a condition for exactly the argument it
      appends. */
  lemma FilterGenreInStep(d: Draft, genre: string)
    requires ConditionsInStep(d) && d.conditions == []
    ensures ConditionsInStep(FilterGenre(d, genre))
  {
    if genre != "" {
      var r := FilterGenre(d, genre);
      OrdinalsOfClause("genre = ", |r.args|);
      SingleWrite(r.conditions[0]);
    }
  }

  /** The placeholders of a single write are those of its text. */
  lemma SingleWrite(s: string)
    ensures WriteOrdinals([s]) == Ordinals(s)
  {
    assert [s][..0] == [];
  }

  /** The SELECT list holds no placeholder and starts with a letter. */
  lemma SelectText()
    ensures Ordinals(SelectBooks) == [] && |SelectBooks| > 0 && !IsDigit(SelectBooks[0])
  {
    OrdinalsNoDollar(SelectBooks);
  }

  /** ` WHERE ` holds no placeholder and starts with a space. */
  lemma WhereText()
    ensures Ordinals(" WHERE ") == [] && !IsDigit(" WHERE "[0])
  {
    OrdinalsNoDollar(" WHERE ");
  }

  /** Three writes in a row contribute their placeholders in order. */
  lemma ThreeWrites(a: string, b: string, c: string)
    ensures WriteOrdinals([a, b, c]) == Ordinals(a) + Ordinals(b) + Ordinals(c)
  {
    assert [a, b, c][..2] == [a, b] && [a, b][..1] == [a];
    SingleWrite(a);
  }

  /** The SELECT text and, when there are conditions, the WHERE keyword and
      the joined conditions: the placeholders are those of the conditions. */
  lemma SelectWrites(select: string, keyword: string, conditions: seq<string>, n: nat)
    requires Ordinals(select) == [] && |select| > 0 && !IsDigit(select[0])
    requires Ordinals(keyword) == [] && |keyword| > 0 && !IsDigit(keyword[0])
    requires |conditions| <= 1 && CleanStarts(conditions)
    requires NumberedFromOne(WriteOrdinals(conditions), n)
    ensures var writes := if |conditions| > 0 then [select, keyword, Join(conditions, " AND ")] else [select];
            CleanStarts(writes) && NumberedFromOne(WriteOrdinals(writes), n)
  {
    SingleWrite(select);
    if |conditions| > 0 {
      var c := conditions[0];
      assert conditions == [c];
      SingleWrite(c);
      ThreeWrites(select, keyword, c);
    }
  }

  /** Writing the SELECT list and the WHERE clause moves the collected
      placeholders into the writes. */
  lemma WriteSelectInStep(d: Draft)
    requires ConditionsInStep(d)
    ensures InStep(WriteSelect(d))
  {
    SelectText();
    WhereText();
    SelectWrites(SelectBooks, " WHERE ", d.conditions, |d.args|);
    assert WriteSelect(d).writes == SelectClause(d.conditions);
  }

  /** Writing the ordering adds no placeholder. */
  lemma WriteOrderInStep(d: Draft, order: SortOrder)
    requires InStep(d)
    ensures InStep(WriteOrder(d, order))
  {
    var r := WriteOrder(d, order);
    if order != Unordered {
      OrdinalsNoDollar(r.writes[|d.writes|]);
      assert r.writes[..|d.writes|] == d.writes;
    }
  }

  /** Binding a value writes the placeholder of exactly the argument it
      appends. */
  lemma BindInStep(d: Draft, keyword: string, arg: Arg)
    requires InStep(d)
    requires NoDollar(keyword) && |keyword| > 0 && !IsDigit(keyword[0])
    ensures InStep(Bind(d, keyword, arg))
  {
    var r := Bind(d, keyword, arg);
    OrdinalsOfClause(keyword, |r.args|);
    assert r.writes[..|d.writes|] == d.writes;
  }

  /** The keywords that carry a placeholder. */
  lemma PagingKeywords()
    ensures NoDollar(" LIMIT ") && NoDollar(" OFFSET ")
  {
  }

  /** The placeholders of the statement, read off its text, are `$1` to `$n`
      in order, where `n` is the number of arguments: each placeholder has
      exactly one argument, appended when the placeholder was written. */
  lemma PlaceholdersInStep(genre: string, order: SortOrder, limit: int, offset: int)
    ensures var q := BuildQuery(genre, order, limit, offset);
            NumberedFromOne(Ordinals(q.sql), |q.args|)
  {
    var filtered := FilterGenre(Fresh, genre);
    FreshInStep();
    FilterGenreInStep(Fresh, genre);
    var selected := WriteSelect(filtered);
    WriteSelectInStep(filtered);
    var ordered := WriteOrder(selected, order);
    WriteOrderInStep(selected, order);
    PagingKeywords();
    var limited := Bind(ordered, " LIMIT ", IntArg(limit));
    BindInStep(ordered, " LIMIT ", IntArg(limit));
    var d := Bind(limited, " OFFSET ", IntArg(offset));
    BindInStep(limited, " OFFSET ", IntArg(offset));
    OrdinalsOfBuilder(d.writes);
  }

  /** The same, for every request that is accepted. */
  lemma RequestPlaceholdersInStep(req: Request)
    ensures GetBooks(req).Built? ==>
              NumberedFromOne(Ordinals(GetBooks(req).query.sql), |GetBooks(req).query.args|)
  {
    if GetBooks(req).Built? {
      PlaceholdersInStep(TrimSpace(req.genre), ResolveSort(req.sort).value,
        ResolveLimit(req.limit).value, ResolveOffset(req.offset).value);
    }
  }

  // ---------------------------------------------------------------------
  // Single parameters, for every numeral

  /** A numeral is already trimmed. */
  lemma TrimNumeral(s: string)
    requires |s| > 0 && forall i :: 0 <= i < |s| ==> IsDigit(s[i]) || (i == 0 && IsSign(s[i]))
    ensures TrimSpace(s) == s && !IsBlank(s)
  {
    TrimSpaceUnique(s, 0, |s|);
    assert s[0..|s|] == s;
  }

  /** `limit=n`: 1..100 is kept, a larger `int` becomes 100, and 0 or a value
      beyond `int` range is rejected. */
  lemma LimitOfNumeral(n: nat)
    ensures ResolveLimit(FormatNat(n))
            == if n == 0 || n > MaxInt64 then Err(InvalidLimit)
               else if n > MaxLimit then Ok(MaxLimit)
               else Ok(n)
  {
    TrimNumeral(FormatNat(n));
    AtoiFormatNat(n);
  }

  /** `limit=-n` is always rejected, `-0` included. */
  lemma LimitOfNegatedNumeral(n: nat)
    ensures ResolveLimit("-" + FormatNat(n)) == Err(InvalidLimit)
  {
    TrimNumeral("-" + FormatNat(n));
    AtoiNegated(n);
  }

  /** `offset=n` is kept as it is for every `int`, with no cap; beyond `int`
      range it is rejected. */
  lemma OffsetOfNumeral(n: nat)
    ensures ResolveOffset(FormatNat(n)) == if n > MaxInt64 then Err(InvalidOffset) else Ok(n)
  {
    TrimNumeral(FormatNat(n));
    AtoiFormatNat(n);
  }

  /** `offset=-n` is rejected unless it is `-0`, which parses as 0. */
  lemma OffsetOfNegatedNumeral(n: nat)
    ensures ResolveOffset("-" + FormatNat(n)) == if n == 0 then Ok(0) else Err(InvalidOffset)
  {
    TrimNumeral("-" + FormatNat(n));
    AtoiNegated(n);
  }

  /** Any sign and leading zeros are already trimmed. */
  lemma TrimDecimal(sign: string, z: nat, n: nat)
    requires sign == "" || sign == "+" || sign == "-"
    ensures var s := sign + Zeros(z) + FormatNat(n);
            TrimSpace(s) == s && !IsBlank(s)
  {
    var zeros, numeral := Zeros(z), FormatNat(n);
    AllDigitsAppend(zeros, numeral);
    assert sign + zeros + numeral == sign + (zeros + numeral);
    TrimSignedRun(sign, zeros + numeral);
  }

  /** A digit run after an optional sign is already trimmed and not blank. */
  lemma TrimSignedRun(sign: string, digits: string)
    requires sign == "" || sign == "+" || sign == "-"
    requires |digits| > 0 && AllDigits(digits)
    ensures TrimSpace(sign + digits) == sign + digits && !IsBlank(sign + digits)
  {
    var s := sign + digits;
    forall i | 0 <= i < |s| ensures IsDigit(s[i]) || (i == 0 && IsSign(s[i])) {
      if i >= |sign| { assert s[i] == digits[i - |sign|]; }
    }
    TrimNumeral(s);
  }

  /** `limit` written with any sign and leading zeros: a positive value in
      `int` range is kept up to 100 and capped above; `+` changes nothing;
      zero, any negative value and anything beyond `int` range is rejected. */
  lemma LimitOfDecimal(sign: string, z: nat, n: nat)
    requires sign == "" || sign == "+" || sign == "-"
    ensures ResolveLimit(sign + Zeros(z) + FormatNat(n))
            == if sign == "-" || n == 0 || n > MaxInt64 then Err(InvalidLimit)
               else if n > MaxLimit then Ok(MaxLimit)
               else Ok(n)
  {
    TrimDecimal(sign, z, n);
    AtoiDecimal(sign, z, n);
  }

  /** `offset` written with any sign and leading zeros: a value in `int`
      range is kept unless it is negative; `-0` is 0. */
  lemma OffsetOfDecimal(sign: string, z: nat, n: nat)
    requires sign == "" || sign == "+" || sign == "-"
    ensures ResolveOffset(sign + Zeros(z) + FormatNat(n))
            == if sign == "-" then (if n == 0 then Ok(0) else Err(InvalidOffset))
               else if n > MaxInt64 then Err(InvalidOffset)
               else Ok(n)
  {
    TrimDecimal(sign, z, n);
    AtoiDecimal(sign, z, n);
  }

  /** Each ordering is selected by its own name, and by nothing else. */
  lemma SortNames(o: SortOrder, raw: string)
    ensures ResolveSort(SortName(o)) == Ok(o)
    ensures ResolveSort(raw) == Ok(o) ==> TrimSpace(raw) == SortName(o)
  {
    var s := SortName(o);
    TrimSpaceUnique(s, 0, |s|);
    assert s[0..|s|] == s;
  }

  /** White space around a parameter changes nothing about how it resolves. */
  lemma ResolvePadded(raw: string, pre: string, post: string)
    requires IsBlank(pre) && IsBlank(post)
    ensures ResolveLimit(pre + raw + post) == ResolveLimit(raw)
    ensures ResolveOffset(pre + raw + post) == ResolveOffset(raw)
    ensures ResolveSort(pre + raw + post) == ResolveSort(raw)
  {
    TrimSpacePadded(pre, raw, post);
  }

  /** White space around any of the four values, each padded on its own,
      changes nothing. */
  lemma PaddingIgnored(req: Request, preLimit: string, postLimit: string,
                       preOffset: string, postOffset: string,
                       preGenre: string, postGenre: string,
                       preSort: string, postSort: string)
    requires IsBlank(preLimit) && IsBlank(postLimit)
    requires IsBlank(preOffset) && IsBlank(postOffset)
    requires IsBlank(preGenre) && IsBlank(postGenre)
    requires IsBlank(preSort) && IsBlank(postSort)
    ensures GetBooks(Request(preLimit + req.limit + postLimit, preOffset + req.offset + postOffset,
                             preGenre + req.genre + postGenre, preSort + req.sort + postSort))
            == GetBooks(req)
  {
    ResolvePadded(req.limit, preLimit, postLimit);
    ResolvePadded(req.offset, preOffset, postOffset);
    ResolvePadded(req.sort, preSort, postSort);
    TrimSpacePadded(preGenre, req.genre, postGenre);
  }

  // ---------------------------------------------------------------------
  // Concrete requests

  /** `limit=0` is rejected before any query is built. */
  lemma LimitZeroRejected()
    ensures GetBooks(Request("0", "", "", "")) == Rejected(InvalidLimit, 0)
  {
    LimitOfNumeral(0);
    assert FormatNat(0) == "0";
  }

  /** With every parameter bad, the limit is the one reported. */
  lemma BadLimitReportedFirst()
    ensures GetBooks(Request("ten", "-1", "", "cheapest")) == Rejected(InvalidLimit, 0)
  {
    TrimSpaceUnique("ten", 0, 3);
    assert "ten"[0..3] == "ten";
  }

  /** `limit=5` is kept and `offset=-1` is rejected. */
  lemma FiveAndMinusOne()
    ensures ResolveLimit("5") == Ok(5) && ResolveOffset("-1") == Err(InvalidOffset)
  {
    LimitOfNumeral(5);
    OffsetOfNegatedNumeral(1);
    assert FormatNat(5) == "5" && FormatNat(1) == "1";
  }

  /** With a good limit and a bad offset and sort, the offset is reported. */
  lemma BadOffsetReportedNext()
    ensures GetBooks(Request("5", "-1", "", "cheapest")) == Rejected(InvalidOffset, 0)
  {
    FiveAndMinusOne();
  }

  /** `limit=500` is capped at the maximum page size. */
  lemma LargeLimitCapped()
    ensures ResolveLimit("500") == Ok(MaxLimit)
  {
    LimitOfNumeral(500);
    assert FormatNat(500) == "500";
  }
}
