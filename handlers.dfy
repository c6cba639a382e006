/**
 * The three report routes end to end: read the report parameters with their
 * defaults, reject any token outside the route's whitelists with a 400,
 * otherwise build the filter clause, assemble the query text, append the
 * limit to the filter values and run the one statement.
 *
 * The database is a parameter `db`: what a statement returns (rows or an
 * error) is its business; the routes decide only what to send and how to
 * answer.
 */
module Handlers {
  import opened Wrappers
  import opened SqlText
  import opened Request
  import opened FilterClause
  import opened Reports
  import opened Templates

  /** A parameterised statement: the text and the values bound to `$1`, `$2`, ... */
  datatype Statement = Statement(text: string, values: seq<Param>)

  /** What the database answers to a statement. */
  datatype DbResult<R> = Rows(rows: seq<R>) | DbError(message: string)

  datatype Body<R> = Text(text: string) | Json(rows: seq<R>)

  datatype Reply<R> = Reply(status: nat, body: Body<R>)

  /** The answer to a statement's outcome: its rows as JSON, or a 500 with the error message. */
  function Respond<R(==)>(r: DbResult<R>): (reply: Reply<R>)
    ensures reply.status == 200 <==> r.Rows?
    ensures r.Rows? ==> reply.body == Json(r.rows)
    ensures r.DbError? ==> reply.status == 500 && reply.body == Text(r.message)
  {
    match r
    case Rows(rows) => Reply(200, Json(rows))
    case DbError(message) => Reply(500, Text(message))
  }

  /** The filter clause a route interpolates: `/delivery-performance` adds its performance condition. */
  function RouteWhere(e: Endpoint, fs: seq<Filter>): string {
    var conds := Conditions(fs, 1);
    if e == DeliveryPerformance then WhereText(conds + [PerformanceCondition]) else WhereText(conds)
  }

  /**
   * The one statement a validated request with parameters `p` and filters
   * `fs` runs. Its text refers to the placeholders `$1 .. $n` in order, each
   * once, and n is the number of values: the filter values in order, then
   * the limit.
   */
  function ReportStatement(e: Endpoint, p: ReportParams, fs: seq<Filter>): (st: Statement)
    requires Whitelisted(e, p)
    ensures Placeholders(st.text) == Numbering(1, |st.values|)
    ensures |st.values| == |fs| + 1
    ensures st.values[..|fs|] == Values(fs) && st.values[|fs|] == IntOf(p.limit)
  {
    var where := RouteWhere(e, fs);
    WhereQuiet(e, fs);
    ReportPlaceholders(e, p, where, |fs| + 1);
    NumberingSnoc(1, |fs|);
    Statement(ReportQuery(e, p, where, |fs| + 1), Values(fs) + [IntOf(p.limit)])
  }

  /** The report statement, from a filter clause and values already built for `fs`. */
  lemma RouteStatement(e: Endpoint, p: ReportParams, fs: seq<Filter>, where: string, limitIndex: nat, values: seq<Param>)
    requires Whitelisted(e, p)
    requires where == RouteWhere(e, fs) && limitIndex == |fs| + 1 && values == Values(fs)
    ensures ReportStatement(e, p, fs) == Statement(ReportQuery(e, p, where, limitIndex), values + [IntOf(p.limit)])
  {
  }

  /** A route's filter clause refers to `$1 .. $k` for its k filters and can be followed by any text. */
  lemma WhereQuiet(e: Endpoint, fs: seq<Filter>)
    ensures var w := RouteWhere(e, fs);
      '-' !in w && Opens(w) && Placeholders(w) == Numbering(1, |fs|)
  {
    if e == DeliveryPerformance {
      PerformanceQuiet();
      SplicedPlaceholders(fs, PerformanceCondition);
    } else {
      WherePlaceholders(fs, 1);
    }
  }

  /**
   * What a route does with a request: a request that fails validation gets
   * the route's 400 and sends nothing to the database; a valid one sends
   * exactly its report statement and answers with that statement's outcome.
   */
  predicate Handled<R(==)>(e: Endpoint, q: Query, db: Statement -> DbResult<R>, reply: Reply<R>, issued: seq<Statement>) {
    if Whitelisted(e, Requested(e, q)) then
      issued == [ReportStatement(e, Requested(e, q), Filters(q))] && reply == Respond(db(issued[0]))
    else
      issued == [] && reply == Reply(400, Text(InvalidMessage(e)))
  }

  /** `GET /top-products`. */
  method TopProductsRoute<R(==)>(q: Query, db: Statement -> DbResult<R>) returns (reply: Reply<R>, issued: seq<Statement>)
    ensures Handled(TopProducts, q, db, reply, issued)
  {
    var e := TopProducts;
    var p := Requested(e, q);
    if !(p.sortBy in SortByList(e)) || !(p.order in OrderList) || !(p.groupBy in GroupByList(e)) {
      return Reply(400, Text(InvalidMessage(e))), [];
    }
    var clause := BuildWhereClause(q);
    var query := TopProductsQuery(p, clause.text, clause.paramIndex);
    var allValues := clause.values + [IntOf(p.limit)];
    var st := Statement(query, allValues);
    RouteStatement(e, p, Filters(q), clause.text, clause.paramIndex, clause.values);
    issued := [st];
    reply := Respond(db(st));
  }

  /** `GET /average-ticket`. */
  method AverageTicketRoute<R(==)>(q: Query, db: Statement -> DbResult<R>) returns (reply: Reply<R>, issued: seq<Statement>)
    ensures Handled(AverageTicket, q, db, reply, issued)
  {
    var e := AverageTicket;
    var p := Requested(e, q);
    if !(p.groupBy in GroupByList(e)) || !(p.sortBy in SortByList(e)) || !(p.order in OrderList) {
      return Reply(400, Text(InvalidMessage(e))), [];
    }
    var clause := BuildWhereClause(q);
    var query := AverageTicketQuery(p, clause.text, clause.paramIndex);
    var allValues := clause.values + [IntOf(p.limit)];
    var st := Statement(query, allValues);
    RouteStatement(e, p, Filters(q), clause.text, clause.paramIndex, clause.values);
    issued := [st];
    reply := Respond(db(st));
  }

  /** `GET /delivery-performance`: the filter clause is extended in place by the performance condition. */
  method DeliveryPerformanceRoute<R(==)>(q: Query, db: Statement -> DbResult<R>) returns (reply: Reply<R>, issued: seq<Statement>)
    ensures Handled(DeliveryPerformance, q, db, reply, issued)
  {
    var e := DeliveryPerformance;
    var p := Requested(e, q);
    if !(p.groupBy in GroupByList(e)) || !(p.sortBy in SortByList(e)) || !(p.order in OrderList) {
      return Reply(400, Text(InvalidMessage(e))), [];
    }
    var clause := BuildWhereClause(q);
    var finalWhereClause := clause.text;
    finalWhereClause := AddPerformanceCondition(Conditions(Filters(q), 1), finalWhereClause);
    var query := DeliveryQuery(p, finalWhereClause, clause.paramIndex);
    var allValues := clause.values + [IntOf(p.limit)];
    var st := Statement(query, allValues);
    RouteStatement(e, p, Filters(q), finalWhereClause, clause.paramIndex, clause.values);
    issued := [st];
    reply := Respond(db(st));
  }

  /**
   * The in-place extension of the filter clause: appended with `AND` to a
   * clause that has conditions, or made the clause's only condition.
   */
  method AddPerformanceCondition(ghost conds: seq<string>, whereClause: string) returns (finalWhereClause: string)
    requires whereClause == WhereText(conds)
    ensures finalWhereClause == WhereText(conds + [PerformanceCondition])
  {
    finalWhereClause := whereClause;
    if finalWhereClause != "" {
      finalWhereClause := finalWhereClause + " AND " + PerformanceCondition;
    } else {
      finalWhereClause := "WHERE " + PerformanceCondition;
    }
    SpliceCondition(conds, PerformanceCondition);
  }

  /**
   * Filter values never reach a query's text: two requests that set the same
   * filter fields and the same report parameters run the same text, whatever
   * values they give the filters.
   */
  lemma TextShape(e: Endpoint, p: ReportParams, q1: Query, q2: Query)
    requires Whitelisted(e, p) && SameShape(q1, q2)
    ensures ReportStatement(e, p, Filters(q1)).text == ReportStatement(e, p, Filters(q2)).text
  {
    ClauseShape(q1, q2);
    SameConditionsSameText(e, p, Filters(q1), Filters(q2));
  }

  /** The text depends on the filters only through their conditions. */
  lemma SameConditionsSameText(e: Endpoint, p: ReportParams, fs1: seq<Filter>, fs2: seq<Filter>)
    requires Whitelisted(e, p)
    requires Conditions(fs1, 1) == Conditions(fs2, 1) && |fs1| == |fs2|
    ensures ReportStatement(e, p, fs1).text == ReportStatement(e, p, fs2).text
  {
  }

  /** The i-th value of the statement is the value the i-th filter binds, and the last is the limit. */
  lemma StatementValues(e: Endpoint, p: ReportParams, fs: seq<Filter>, i: nat)
    requires Whitelisted(e, p)
    requires i < |fs|
    ensures ReportStatement(e, p, fs).values[i] == fs[i].value
  {
    var st := ReportStatement(e, p, fs);
    assert st.values[i] == st.values[..|fs|][i];
    ValueAt(fs, i);
  }

  /** A request with no report parameters is never rejected: it runs its statement. */
  lemma DefaultsRun<R>(e: Endpoint, q: Query, db: Statement -> DbResult<R>, reply: Reply<R>, issued: seq<Statement>)
    requires q.groupBy.None? && q.sortBy.None? && q.order.None?
    requires Handled(e, q, db, reply, issued)
    ensures |issued| == 1 && reply == Respond(db(issued[0]))
  {
    DefaultsWhitelisted(e, q);
  }

  /** An unknown `groupBy` on `/top-products` gets the 400 and runs nothing. */
  lemma TopProductsRejectsUnknownGroupBy<R>(q: Query, db: Statement -> DbResult<R>, reply: Reply<R>, issued: seq<Statement>)
    requires q.groupBy == Some("INVALID_COLUMN_NAME")
    requires Handled(TopProducts, q, db, reply, issued)
    ensures reply == Reply(400, Text("Parâmetros de ordenação ou agrupamento inválidos.")) && issued == []
  {
    UnknownToken("INVALID_COLUMN_NAME", GroupByList(TopProducts));
  }

  /** An unknown `sortBy` on `/delivery-performance` gets the 400 and runs nothing. */
  lemma DeliveryRejectsUnknownSortBy<R>(q: Query, db: Statement -> DbResult<R>, reply: Reply<R>, issued: seq<Statement>)
    requires q.sortBy == Some("INVALID_COLUMN_NAME")
    requires Handled(DeliveryPerformance, q, db, reply, issued)
    ensures reply == Reply(400, Text("Parâmetro \"groupBy\", \"sortBy\" ou \"order\" inválido.")) && issued == []
  {
    UnknownToken("INVALID_COLUMN_NAME", SortByList(DeliveryPerformance));
  }

  /** Upper-case letters never occur in the lower-case column lists. */
  lemma UnknownToken(t: string, tokens: seq<string>)
    requires |t| > 0 && 'A' <= t[0] <= 'Z'
    requires forall i :: 0 <= i < |tokens| ==> |tokens[i]| > 0 && 'a' <= tokens[i][0] <= 'z'
    ensures t !in tokens
  {
  }
}
