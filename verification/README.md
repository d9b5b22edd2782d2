# Books query builder — a Dafny model

This project models the core of the `/books` endpoint of a small Go web
service (`getBooks` in `main.go`). The handler reads four optional query
parameters: `limit`, `offset`, `genre` and `sort`. It validates them in a fixed
order, and either rejects the request with the first parameter error or builds
a parameterised PostgreSQL statement with its positional argument list
(`$1`, `$2`, ...).

The model stops where the handler hands the statement to the database.

Files (all modules are flat and import each other by name):

- `wrappers.dfy` — `Option` and `Result`.
- `go_strings.dfy` — `strings.TrimSpace` as Go defines it (Unicode white space
  as `unicode.IsSpace` defines it), `strings.Join`, and the text of a
  `strings.Builder` as the concatenation of its writes.
- `go_strconv.dfy` — `strconv.Atoi` on a 64-bit platform: an optional sign,
  ASCII digits, and a range check against Go's `int`. It also has the `%d`
  verb of `fmt.Sprintf` for non-negative numbers (`FormatNat`).
- `placeholders.dfy` — an independent reading of SQL text. `Ordinals` lists
  the ordinals of the `$n` placeholders in the order they appear.
- `books.dfy` — the handler itself:
  - `ResolveLimit`, `ResolveOffset` and `ResolveSort` check one parameter each.
  - The builder steps follow the Go code: `FilterGenre`, `WriteSelect`,
    `WriteOrder` and `Bind`.
  - `Assemble` and `BuildQuery` chain those steps.
  - `GetBooks` is the whole decision.
- `sql_texts.dfy` — the six SQL statements the handler can send, as string
  literals (`StatementText`).
- `books_properties.dfy` — lemmas that relate several calls, or compare the
  builder with an independent reading of its output.

A few things about the code are easy to misread:

- **Limits beyond `int` range are rejected, not capped.** A `limit` above 100
  is capped to 100 only when `strconv.Atoi` accepts it. A numeral beyond
  2^63-1 makes `Atoi` fail before the cap applies, and the request is
  rejected as "invalid limit" (`LimitOfNumeral`).
- **Signs and leading zeros are accepted.** `+5` is a limit of 5 and `007`
  a limit of 7 (`LimitOfDecimal`).
- **`offset` has no upper bound** other than the range of `int`.
- **`-0` is accepted as an offset of 0 but rejected as a limit**
  (`OffsetOfNegatedNumeral`, `LimitOfNegatedNumeral`).
- **The genre text can appear in the SQL by coincidence.** It can be a
  substring of the fixed SQL text (for example, a genre of `books`). So "user
  input never reaches the SQL text" is stated as: the statement text depends
  only on whether a genre was given and on the ordering
  (`SqlDependsOnlyOnShape`). There are six possible statements
  (`StatementText`).

## Model

| member | source | states |
|---|---|---|
| GoStrings.TrimSpace | main.go:73 | The trimmed value starts and ends with a non-space, and it is empty exactly when the raw value is all white space. |
| GoStrings.TrimSpaceUnique | main.go:73 | For any cut of a string into blank prefix, trimmed middle and blank suffix, TrimSpace returns that middle. This is an independent characterisation of trimming. |
| GoStrings.TrimSpacePadded | main.go:73 | Extra white space on either side does not change the trimmed value. |
| GoStrconv.Atoi | main.go:74 | A value is returned only for optionally signed ASCII decimal text, and only within the 64-bit `int` range. Which value, and that every such text in range parses, is stated by AtoiDecimal together with DecimalForm. |
| GoStrconv.FormatNat | main.go:112 | `%d` prints a non-empty digit string with no leading zero, and that string denotes the number. |
| GoStrconv.AtoiFormatNat | main.go:74 | Printing n and parsing it back gives n exactly when n fits in an `int`; otherwise parsing fails. |
| GoStrconv.AtoiNegated | main.go:86 | Parsing "-" followed by the numeral of n gives -n down to the least `int`; otherwise parsing fails. |
| GoStrconv.AtoiDecimal | main.go:74 | Every decimal text (no sign, `+` or `-`, any number of leading zeros, then a numeral) parses to its signed value when that fits in an `int`, and fails otherwise. |
| GoStrconv.DecimalForm | main.go:74 | Every text with `Atoi`'s syntax is an optional sign, some leading zeros and a numeral as `%d` prints it, so AtoiDecimal covers every such text. |
| GoStrconv.FormatNatOfCanonical | main.go:74 | A numeral with no superfluous leading zero is exactly what `%d` prints for its value (the inverse direction of FormatNat). |
| GoStrings.BuilderString | main.go:115-132 | The builder's text starts with the first string written to it; Placeholders.OrdinalsOfBuilder states that its placeholders are those of the writes in order. |
| Books.Message | main.go:77-104 | The three error texts "invalid limit", "invalid offset" and "invalid sort value", each starting with `invalid `; MessagesDistinct shows they differ. |
| GoStrings.Join | main.go:119 | The joined text starts with the first part (followed by the separator when there is more than one part), and a single part is returned unchanged. |
| Placeholders.Param | main.go:112-130 | The text `fmt.Sprintf("$%d", n)` reads back, by the independent `Ordinals` scanner, as placeholder n and no other. |
| Books.SelectClause | main.go:116-119 | The first write is the SELECT list. There is one write when there are no conditions and three when there are; the text of the other two is stated by WriteSelectInStep and AssembleIsTemplate. |
| Books.ResolveLimit | main.go:72-82 | Blank gives 10. A parsed positive value up to 100 is kept and a larger one becomes 100. Any other non-blank value (unparsable, zero or negative) is the InvalidLimit error. A result is always in 1..100. |
| Books.ResolveOffset | main.go:84-91 | Blank gives 0. A parsed non-negative value is kept as it is. Any other non-blank value is the InvalidOffset error. |
| Books.ResolveSort | main.go:95-105 | The trimmed value is accepted exactly when it names one of the three orderings ("", price_asc, price_desc), and the ordering returned is the one it names. Anything else is InvalidSort. |
| Books.OrderBy | main.go:96-102 | The ORDER BY expression is empty exactly for the unordered request. |
| Books.FilterGenre | main.go:110-113 | A non-empty genre is appended as the next argument and adds one condition. An empty genre changes nothing. |
| Books.WriteSelect | main.go:115-120 | Writing SELECT and WHERE only extends the writes. The arguments and the collected conditions are untouched; what is written is stated by WriteSelectInStep and AssembleIsTemplate. |
| Books.WriteOrder | main.go:122-124 | The draft is left unchanged exactly when no ordering was asked for; the arguments are never touched. |
| Books.Bind | main.go:126-130 | The value is appended to the arguments, and exactly one write is added. |
| Books.Assemble | main.go:107-130 | The argument list is the genre (when non-empty), then the limit, then the offset. |
| Books.BuildQuery | main.go:107-132 | The finished query carries that same argument list. |
| Books.GetBooks | main.go:65-132 | A rejection reports 0 ms elapsed. A query is built only when limit, offset and sort are all valid. |
| BooksProperties.FirstFailureWins | main.go:72-105 | A request is rejected exactly when some parameter is invalid, and the error is the first invalid one in the order limit, offset, sort. |
| BooksProperties.MessagesDistinct | main.go:77-104 | The three error messages differ pairwise. |
| BooksProperties.BuiltArguments | main.go:93-130 | For an accepted request the arguments are the trimmed genre (if non-empty), then the resolved limit in 1..100, then the resolved offset (at least 0). |
| BooksProperties.AssembleIsTemplate | main.go:115-130 | The builder writes one of six fixed templates, chosen only by whether a genre is given and by the ordering. |
| BooksProperties.BuildQueryIsTemplate | main.go:115-132 | The statement text is the template of the request's shape, and equals that shape's SQL literal. |
| BooksProperties.SqlTemplateText | main.go:115-132 | The builder writes of each of the six shapes concatenate to one of six fixed SQL string literals, such as `SELECT id, title, price, genre FROM books WHERE genre = $1 ORDER BY price DESC LIMIT $2 OFFSET $3`. |
| BooksProperties.RequestSqlIsTemplate | main.go:93-132 | An accepted request's statement is the template, and the SQL literal, chosen by whether its trimmed genre is non-empty and by its resolved ordering. |
| BooksProperties.TemplateStartsWithSelect | main.go:116 | Every statement starts with `SELECT id, title, price, genre FROM books`. |
| BooksProperties.SqlDependsOnlyOnShape | main.go:93-132 | Two accepted requests with the same shape get the same statement text, whatever their genre, limit and offset values. |
| BooksProperties.FilterGenreInStep | main.go:110-113 | After the genre step, the collected conditions hold the placeholders $1..$n for the n arguments appended. |
| BooksProperties.WriteSelectInStep | main.go:115-120 | Writing SELECT and WHERE moves exactly those placeholders into the text. |
| BooksProperties.WriteOrderInStep | main.go:122-124 | Writing ORDER BY keeps the text's placeholders in step with the arguments. |
| BooksProperties.BindInStep | main.go:126-130 | Binding LIMIT or OFFSET adds the placeholder of exactly the argument it appends. |
| BooksProperties.PlaceholdersInStep | main.go:107-132 | Read back from the statement text, the placeholders are $1, $2, ..., $n in order, where n is the number of arguments. |
| BooksProperties.RequestPlaceholdersInStep | main.go:65-132 | The same holds for every accepted request. |
| Placeholders.OrdinalsOfClause | main.go:127 | A dollar-free keyword followed by the text `fmt.Sprintf("$%d", n)` holds exactly placeholder n. |
| Placeholders.OrdinalsOfBuilder | main.go:115-132 | The placeholders of the builder's text are those of its writes in order, given that no write starts with a digit. |
| BooksProperties.LimitOfNumeral | main.go:73-82 | `limit=n` resolves to n for 1..100 and to 100 above that, within `int` range. It is rejected for 0 and beyond `int` range. |
| BooksProperties.LimitOfNegatedNumeral | main.go:73-78 | `limit=-n` is rejected for every n, `-0` included. |
| BooksProperties.OffsetOfNumeral | main.go:85-91 | `offset=n` resolves to n for every n in `int` range, with no cap, and is rejected beyond it. |
| BooksProperties.OffsetOfNegatedNumeral | main.go:85-91 | `offset=-n` is rejected unless n is 0, in which case it resolves to 0. |
| BooksProperties.LimitOfDecimal | main.go:73-82 | `limit` written with any sign and leading zeros resolves to its value (capped at 100) when positive and in `int` range; `+5` and `007` are accepted. Zero, negative values (`-0` included) and values beyond `int` range are rejected. |
| BooksProperties.OffsetOfDecimal | main.go:85-91 | `offset` written with any sign and leading zeros resolves to its value when non-negative and in `int` range; `-0` is 0. Other negative values and values beyond `int` range are rejected. |
| BooksProperties.SortNames | main.go:95-105 | Each ordering is selected by its own name, and only by it. |
| BooksProperties.ResolvePadded | main.go:73-95 | White space around limit, offset or sort does not change how it resolves. |
| BooksProperties.PaddingIgnored | main.go:73-95 | White space around any of the four parameters, each padded independently (so padding just one is covered too), does not change the handler's outcome. |
| BooksProperties.LimitZeroRejected | main.go:73-77 | `limit=0` alone is rejected as an invalid limit, with 0 ms elapsed. |
| BooksProperties.BadLimitReportedFirst | main.go:73-77 | With limit, offset and sort all invalid, the limit error is the one reported. |
| BooksProperties.BadOffsetReportedNext | main.go:73-89 | With a valid limit and an invalid offset and sort, the offset error is the one reported. |
| BooksProperties.LargeLimitCapped | main.go:80-82 | `limit=500` resolves to 100. |

## Left out

- The HTTP layer is not modelled: `main`, the handler closure, status codes, headers (`X-Query-Time`) and JSON encoding. They are I/O around the core.
- `url.Values.Get` is not modelled. `Request` holds the four values it would return, with "" for an absent parameter.
- The database call is not modelled: executing the statement, timing it, logging it and scanning the rows are I/O. `GetBooks` stops at the built query, so the elapsed time of an executed query does not appear.
- `ctx` (cancellation, deadlines) and the connection pool are not modelled: both are runtime behaviour of the database driver.
- Strings are sequences of Unicode code points, so byte strings that are not valid UTF-8 are not modelled.
- Platforms where Go's `int` is 32 bits wide are not modelled: `int` is taken to be 64 bits.
- GoStrconv.Atoi: returns `None` for every error without telling syntax errors from range errors, because the handler treats both alike.
- GoStrings.Join: only the single-condition case is reasoned about (`ConditionsInStep` allows at most one condition), because the handler never collects more than one.
- Books.Message: gives only the error text, not how it is sent (status 400 via `http.Error`).
