/**
 * The three dynamic report routes: `/top-products`, `/average-ticket` and
 * `/delivery-performance`. Each one reads `groupBy`, `sortBy`, `order` and
 * `limit` with defaults, rejects any token outside its whitelists with a 400,
 * and otherwise runs one query whose text interpolates only whitelisted
 * identifiers and whose values are the filter values plus the limit.
 */
module Reports {
  import opened Wrappers
  import opened SqlText
  import opened Request

  datatype Endpoint = TopProducts | AverageTicket | DeliveryPerformance

  /** The columns a report may be grouped by, in the order the route lists them. */
  function GroupByList(e: Endpoint): seq<string> {
    match e
    case TopProducts => ["product_name", "store_name", "channel_name", "sale_date"]
    case AverageTicket => ["channel_name", "store_name", "sale_date", "day_of_week", "month", "product_name"]
    case DeliveryPerformance => ["sale_date", "store_name", "channel_name", "day_of_week", "hour_of_day"]
  }

  /** The columns a report may be sorted by. */
  function SortByList(e: Endpoint): seq<string> {
    match e
    case TopProducts => ["total_revenue", "total_quantity"]
    case AverageTicket => ["average_ticket", "total_revenue", "total_sales"]
    case DeliveryPerformance => ["avg_delivery_time", "avg_production_time"]
  }

  /** The sort directions every report accepts. */
  const OrderList: seq<string> := ["DESC", "ASC"]

  function DefaultGroupBy(e: Endpoint): string {
    match e
    case TopProducts => "product_name"
    case AverageTicket => "sale_date"
    case DeliveryPerformance => "sale_date"
  }

  function DefaultSortBy(e: Endpoint): string {
    match e
    case TopProducts => "total_revenue"
    case AverageTicket => "average_ticket"
    case DeliveryPerformance => "avg_delivery_time"
  }

  const DefaultOrder: string := "DESC"

  /** The default `limit` is the number 10; `parseInt` reads it as it reads the text "10". */
  const DefaultLimit: string := "10"

  /** The body of a route's 400 reply. */
  function InvalidMessage(e: Endpoint): string {
    match e
    case TopProducts => "Parâmetros de ordenação ou agrupamento inválidos."
    case AverageTicket => "Parâmetro \"groupBy\", \"sortBy\" ou \"order\" inválido."
    case DeliveryPerformance => "Parâmetro \"groupBy\", \"sortBy\" ou \"order\" inválido."
  }

  /** The report parameters after destructuring. */
  datatype ReportParams = ReportParams(groupBy: string, sortBy: string, order: string, limit: string)

  /**
   * Destructuring `req.query` with defaults: a default replaces a parameter
   * only when it is missing; an empty value is kept as it is.
   */
  function Requested(e: Endpoint, q: Query): (p: ReportParams)
    ensures q.groupBy.Some? ==> p.groupBy == q.groupBy.value
    ensures q.groupBy.None? ==> p.groupBy == DefaultGroupBy(e)
    ensures q.sortBy.Some? ==> p.sortBy == q.sortBy.value
    ensures q.sortBy.None? ==> p.sortBy == DefaultSortBy(e)
    ensures q.order.Some? ==> p.order == q.order.value
    ensures q.order.None? ==> p.order == DefaultOrder
    ensures q.limit.Some? ==> p.limit == q.limit.value
    ensures q.limit.None? ==> p.limit == DefaultLimit
  {
    ReportParams(q.groupBy.GetOr(DefaultGroupBy(e)), q.sortBy.GetOr(DefaultSortBy(e)),
                 q.order.GetOr(DefaultOrder), q.limit.GetOr(DefaultLimit))
  }

  /** The route's validation: all three tokens are on its lists. */
  predicate Whitelisted(e: Endpoint, p: ReportParams) {
    p.groupBy in GroupByList(e) && p.sortBy in SortByList(e) && p.order in OrderList
  }

  /** The defaults are on the lists, so a request without report parameters always passes validation. */
  lemma DefaultsWhitelisted(e: Endpoint, q: Query)
    requires q.groupBy.None? && q.sortBy.None? && q.order.None?
    ensures Whitelisted(e, Requested(e, q))
  {
  }

  /** A plain identifier: no placeholder, no comment, nothing it could glue onto. */
  predicate Plain(t: string) {
    t != "" && Inert(t) && Opens(t)
  }

  predicate PlainTokens(tokens: seq<string>) {
    forall i :: 0 <= i < |tokens| ==> Plain(tokens[i])
  }

  // Each list is checked token by token, one `assert` per index: a `forall`
  // over the lists of all three routes unfolds every literal at once and
  // costs several times as much.

  lemma TopProductsTokens()
    ensures PlainTokens(GroupByList(TopProducts)) && PlainTokens(SortByList(TopProducts))
  {
    assert Plain(GroupByList(TopProducts)[0]);
    assert Plain(GroupByList(TopProducts)[1]);
    assert Plain(GroupByList(TopProducts)[2]);
    assert Plain(GroupByList(TopProducts)[3]);
    assert Plain(SortByList(TopProducts)[0]);
    assert Plain(SortByList(TopProducts)[1]);
  }

  lemma AverageTicketTokens()
    ensures PlainTokens(GroupByList(AverageTicket)) && PlainTokens(SortByList(AverageTicket))
  {
    assert Plain(GroupByList(AverageTicket)[0]);
    assert Plain(GroupByList(AverageTicket)[1]);
    assert Plain(GroupByList(AverageTicket)[2]);
    assert Plain(GroupByList(AverageTicket)[3]);
    assert Plain(GroupByList(AverageTicket)[4]);
    assert Plain(GroupByList(AverageTicket)[5]);
    assert Plain(SortByList(AverageTicket)[0]);
    assert Plain(SortByList(AverageTicket)[1]);
    assert Plain(SortByList(AverageTicket)[2]);
  }

  lemma DeliveryTokens()
    ensures PlainTokens(GroupByList(DeliveryPerformance)) && PlainTokens(SortByList(DeliveryPerformance))
  {
    assert Plain(GroupByList(DeliveryPerformance)[0]);
    assert Plain(GroupByList(DeliveryPerformance)[1]);
    assert Plain(GroupByList(DeliveryPerformance)[2]);
    assert Plain(GroupByList(DeliveryPerformance)[3]);
    assert Plain(GroupByList(DeliveryPerformance)[4]);
    assert Plain(SortByList(DeliveryPerformance)[0]);
    assert Plain(SortByList(DeliveryPerformance)[1]);
  }

  /** Every whitelisted `groupBy` and `sortBy` token is a plain identifier. */
  lemma ListsPlain(e: Endpoint)
    ensures PlainTokens(GroupByList(e)) && PlainTokens(SortByList(e))
  {
    match e
    case TopProducts => TopProductsTokens();
    case AverageTicket => AverageTicketTokens();
    case DeliveryPerformance => DeliveryTokens();
  }

  lemma MemberPlain(tokens: seq<string>, t: string)
    requires t in tokens && PlainTokens(tokens)
    ensures Plain(t)
  {
    var i :| 0 <= i < |tokens| && tokens[i] == t;
  }

  lemma OrderPlain(t: string)
    requires t in OrderList
    ensures Plain(t)
  {
    assert Plain(OrderList[0]) && Plain(OrderList[1]);
  }

  /** Validation lets through only plain identifiers, so interpolating them cannot add a placeholder or a comment. */
  lemma ParamsPlain(e: Endpoint, p: ReportParams)
    requires Whitelisted(e, p)
    ensures Plain(p.groupBy) && Plain(p.sortBy) && Plain(p.order)
  {
    ListsPlain(e);
    MemberPlain(GroupByList(e), p.groupBy);
    MemberPlain(SortByList(e), p.sortBy);
    OrderPlain(p.order);
  }
}
