/** The query-string parameters the report handlers read from `req.query`. */
module Request {
  import opened Wrappers

  /**
   * One request's query string: every parameter is absent or one string.
   * The first six are the filters `buildWhereClause` reads; the last four
   * are the report parameters of the report handlers.
   */
  datatype Query = Query(
    startDate: Option<string>,
    endDate: Option<string>,
    storeId: Option<string>,
    channelId: Option<string>,
    dayOfWeek: Option<string>,
    hourOfDay: Option<string>,
    groupBy: Option<string>,
    sortBy: Option<string>,
    order: Option<string>,
    limit: Option<string>)

  /** JavaScript truthiness of a query-string value: present and not the empty string. */
  predicate Given(p: Option<string>) {
    p.Some? && p.value != ""
  }
}
