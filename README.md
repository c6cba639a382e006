# Analytics report backend: filter clauses, report queries and the view refresh

This project models the core of the analytics backend's HTTP server
(`backend/index.js`) and proves properties of that model in Dafny:

- `buildWhereClause`, which turns the optional filters of a request
  (`startDate`, `endDate`, `store_id`, `channel_id`, `day_of_week`,
  `hour_of_day`) into a `WHERE` clause with numbered placeholders `$1, $2, ...`,
  a parallel list of values and the next free placeholder number;
- the three dynamic report routes `/top-products`, `/average-ticket` and
  `/delivery-performance`. Each one reads `groupBy`, `sortBy`, `order` and
  `limit` with defaults and rejects with a 400 any token outside its
  whitelists. Otherwise it interpolates the whitelisted tokens and the filter
  clause into its query text (the delivery route first adds its own
  performance condition), puts the limit in the last placeholder, runs that
  one statement and answers with its rows or a 500;
- the scheduled refresh of the `mv_analytics_summary` materialized view: one
  tick tries `REFRESH ... CONCURRENTLY` first and falls back to the blocking
  refresh only when the first one fails.

Modules:

- `Wrappers`: `Option`.
- `Request`: the query string as ten optional strings, plus JavaScript truthiness of a value (`Given`).
- `SqlText`: decimal rendering of numbers, `Join`, and a scanner `Placeholders`.
  The scanner lists, in order, the numbers of the `$n` placeholders in a text.
  It skips `--` comments, which the database also ignores.
- `FilterClause`: `BuildWhereClause` as a method over the state its six `if` blocks
  update (conditions, values, `paramIndex`). Its specification is the functions
  `Filters`, `Conditions`, `Values` and `WhereText`.
- `Reports`: endpoints, whitelists, defaults, error messages and validation.
- `Templates`: the three query texts, character for character. It proves which
  placeholders each one contains.
- `Handlers`: the three routes as methods over an abstract database
  `db: Statement -> DbResult`, and the statement each one runs.
- `Refresh`: one refresh tick over an abstract `run: string -> Outcome`.

Long SQL literals are written as `Join` of short pieces with the empty
separator. The text is the same; only the way it is written differs.

## Model

| member | source | states |
|---|---|---|
| FilterClause.BuildWhereClause | backend/index.js:40-79 | The text is `WhereText` of the conditions of the request's filters, numbered from 1, and the values are theirs. `paramIndex` is one past the number of values. The text is empty exactly when no filter is set. The placeholders in the text are `$1 .. $k` in order. |
| FilterClause.PushIfGiven | backend/index.js:50-74 | One test: a set field appends its condition with placeholder `paramIndex`, appends its bound value and bumps the counter; an unset field changes nothing. |
| FilterClause.RunTracks | backend/index.js:46-74 | After the first k tests, the state is the conditions and values of the filters set among the first k fields, with the counter one past their number. |
| FilterClause.RunFilters | backend/index.js:46-74 | After all six tests, the state is exactly the conditions and values of the request's filters. |
| FilterClause.FiltersExact | backend/index.js:41-74 | The filters are exactly the fields the request sets to a non-empty value, each once, in test order. Each binds its raw value: dates as strings, the other four through `parseInt`. |
| FilterClause.ConditionAt | backend/index.js:50-73 | The i-th condition tests the i-th filter's field against placeholder `first + i`. |
| FilterClause.ValueAt | backend/index.js:52-73 | The i-th value is the one the i-th filter binds. |
| FilterClause.Conditions | backend/index.js:50-73 | There is one condition per filter. |
| FilterClause.Values | backend/index.js:52-73 | There is one value per filter. |
| FilterClause.ConditionsSnoc | backend/index.js:50-73 | Appending a filter appends its condition with the next placeholder number. |
| FilterClause.ValuesSnoc | backend/index.js:52-73 | Appending a filter appends its value. |
| FilterClause.WherePlaceholders | backend/index.js:76 | `WHERE` joined with ` AND ` is empty exactly when there are no conditions, contains no comment marker, and lists placeholders `first .. first+k-1` in order. |
| FilterClause.BuiltAll | backend/index.js:76-78 | The clause of all the request's filters is empty iff there are none, and lists `$1 .. $k`. |
| FilterClause.ClauseShape | backend/index.js:50-76 | Two requests that set the same fields get the same conditions, whatever their values. |
| FilterClause.ConditionsFieldsOnly | backend/index.js:50-73 | Conditions depend only on the filters' fields, not their values. |
| FilterClause.PickedShape | backend/index.js:50-73 | Which fields are picked depends only on which are set. |
| FilterClause.TestInert | backend/index.js:51-72 | Every condition prefix is non-empty and has no `$` and no `-`. |
| FilterClause.ConditionPlaceholders | backend/index.js:51-72 | A single condition contains exactly its own placeholder. |
| SqlText.DigitsValueOfNatToString | backend/index.js:51 | The decimal text of a placeholder number reads back as that number. |
| SqlText.NatToStringInjective | backend/index.js:51 | Distinct numbers give distinct placeholder texts. |
| SqlText.NatToString | backend/index.js:51 | A number's text is non-empty, all digits and has no leading zero. |
| SqlText.PlaceholdersAppend | backend/index.js:76 | Placeholders of a concatenation are those of the parts, provided the seam cannot glue digits or comment markers together. |
| SqlText.JoinSnoc | backend/index.js:76 | Joining one more part appends the separator and that part. |
| SqlText.NumberingSnoc | backend/index.js:133 | `1 .. k` followed by `k+1` is `1 .. k+1`. |
| Reports.Requested | backend/index.js:93-98 | A default replaces a report parameter only when it is missing, with each route's own defaults (also lines 146-151 and 196-201). |
| Reports.DefaultsWhitelisted | backend/index.js:94-103 | The defaults of every route are on its whitelists (also lines 147-155 and 197-206), so a request without report parameters passes validation. |
| Reports.ParamsPlain | backend/index.js:101-109 | Validation lets through only identifiers with no `$`, no `-` and no digit at the start, so interpolating them can add no placeholder and no comment (also lines 153-159 and 204-212). |
| Reports.ListsPlain | backend/index.js:101-103 | Every whitelisted `groupBy` and `sortBy` token is a plain identifier. |
| Templates.SummaryPlaceholders | backend/index.js:115-129 | A query of the top-products and delivery shape contains the clause's placeholders and then the limit's, nothing else, and its trailing comment is skipped. |
| Templates.AverageTicketPlaceholders | backend/index.js:163-176 | The average-ticket query contains the clause's placeholders and then the limit's, nothing else. |
| Templates.ReportPlaceholders | backend/index.js:115-129 | For every route and every whitelisted parameter set, the query lists the clause's placeholders followed by the limit's (also lines 163-176 and 227-241). |
| Templates.SpliceCondition | backend/index.js:218-224 | Extending the clause in place gives the clause of the conditions with the performance condition appended: ` AND ` after existing conditions, `WHERE ` alone. |
| Templates.SplicedPlaceholders | backend/index.js:218-224 | The extended clause is never empty and keeps the filters' placeholders `1 .. k` unchanged. |
| Templates.SplicedEndsWith | backend/index.js:220-224 | The extended clause ends with the performance condition. |
| Templates.PerformanceQuiet | backend/index.js:219 | The performance condition contains no placeholder and no comment. |
| Templates.CommentedEndPlaceholders | backend/index.js:128 | The trailing `-- ...` note, including the delivery route's `($1, $2, etc.)`, contributes no placeholder. |
| Handlers.Respond | backend/index.js:134-138 | The reply is 200 with the rows exactly when the statement returned rows; otherwise it is 500 with the error message. |
| Handlers.ReportStatement | backend/index.js:112-134 | The statement a valid request runs refers to `$1 .. $n` in order, with n its number of values. The values are the filter values, in order, then `parseInt(limit)`. |
| Handlers.WhereQuiet | backend/index.js:215-224 | Each route's clause lists `$1 .. $k` for its k filters and holds no comment marker. |
| Handlers.AddPerformanceCondition | backend/index.js:218-224 | The `let finalWhereClause` update yields the clause of the filter conditions followed by the performance condition. |
| Handlers.TopProductsRoute | backend/index.js:92-140 | Any of the three tokens off its list gives the 400 with the route's message and no statement is sent. Otherwise it sends exactly the report statement and answers with its outcome. |
| Handlers.AverageTicketRoute | backend/index.js:145-185 | Same as for top products, with this route's lists, defaults, text and message. |
| Handlers.DeliveryPerformanceRoute | backend/index.js:194-252 | Same, with the performance condition spliced into the clause first. |
| Handlers.StatementValues | backend/index.js:133 | The i-th value of the statement is the i-th filter's value. |
| Handlers.TextShape | backend/index.js:112-129 | Filter values never reach the text: requests that set the same fields with the same report parameters run the same text. |
| Handlers.SameConditionsSameText | backend/index.js:115-129 | The text depends on the filters only through their conditions. |
| Handlers.DefaultsRun | backend/index.js:93-112 | A request without `groupBy`, `sortBy` and `order` is never rejected; it runs one statement. |
| Handlers.TopProductsRejectsUnknownGroupBy | backend/api.test.js:66-75 | `groupBy=INVALID_COLUMN_NAME` on `/top-products` gives 400 "Parâmetros de ordenação ou agrupamento inválidos." and runs nothing. |
| Handlers.DeliveryRejectsUnknownSortBy | backend/api.test.js:77-86 | `sortBy=INVALID_COLUMN_NAME` on `/delivery-performance` gives 400 with its message and runs nothing. |
| Refresh.RefreshTick | backend/index.js:362-380 | The concurrent refresh always runs first. The blocking refresh runs exactly when the concurrent one failed, and nothing else runs. The warning carries the first error. A tick ends in an info line exactly when some refresh succeeded, and that line names the refresh that succeeded (concurrent or not); otherwise in the one error line carrying the second error. No failure escapes the tick. |

## Left out

- Express routing, CORS, `app.listen`, the connection pool and I/O: the database is the parameter `db` (or `run`), the reply a value.
- What the SQL means and what the database returns: only the text sent and the values bound are modelled.
- The five routes with constant query text: `/api/reports/at-risk-customers` (it reads `minPurchases` and `inactiveDays`, default 3 and 30, and binds `parseInt` of each to `$1` and `$2` of a fixed text), `/api/kpis`, `/api/sales-over-time`, `/api/filters/stores` and `/api/filters/channels` (these four take no input). None of them builds text from the request.
- The cron schedule, `Date.now()` and the durations in the log lines: `RefreshTick` is one tick, and its log events do not carry durations.
- The HTTP outcome of a refresh error: the tick has none, and it only logs.
- `console.error` in the routes' catch blocks: the model keeps the 500 reply and drops the log line.
- `parseInt`: `IntOf(raw)` stands for its result and is a constructor, so the model tells apart raw texts that `parseInt` maps to the same number (`"7"` and `"07"`); it distinguishes more than the source, and does not model `NaN` or partial parses.
- Repeated query parameters, which Express delivers as arrays: every parameter is a single optional string.
- The frontend.
- `Placeholders` skips only `--` comments: it does not handle `/* */` comments, string literals, quoted or dollar-quoted strings, or `$` inside an identifier (`a$1`); none of these occurs in the modelled texts.
- City, state and ownership filters and their endpoints: the code's `buildWhereClause` has only the six filters modelled here, so the model follows the code.
- The six inline `if` blocks of `buildWhereClause` are written as six calls to one helper method, `PushIfGiven`, in source order; the state each produces is the same.
