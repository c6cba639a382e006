/**
 * The text of the three report queries. Whitelisted identifiers are
 * interpolated as bare text and every filter value travels as a positional
 * placeholder; the lemmas here read the placeholders back out of the whole
 * query text.
 */
module Templates {
  import opened SqlText
  import opened Reports
  import opened FilterClause

  // The fixed text of the query templates. Each constant is written as the
  // concatenation of short pieces: facts about the characters of a short
  // literal are cheap to prove, and they carry over to the joined text.

  const SelectBlock: string := "\n    SELECT\n      "

  const FromSummaryPieces: seq<string> := ["\n    FROM", "\n      mv_", "analytics_", "summary", "\n    "]
  const FromSummary: string := Join(FromSummaryPieces, "")

  const GroupByBlock: string := "\n    GROUP BY\n      "

  const OrderByBlock: string := "\n    ORDER BY\n      "

  const LimitBlock: string := "\n    LIMIT\n      "

  const TopProductsColumnsPieces: seq<string> :=
    [",\n      SUM(", "product_to", "tal_price)", " AS total_", "revenue,",
     "\n      SUM(", "quantity)", " AS total_", "quantity"]
  const TopProductsColumns: string := Join(TopProductsColumnsPieces, "")

  const AverageTicketColumnsPieces: seq<string> :=
    [",\n      AVG(", "sale_total)", " as average", "_ticket,", "\n      SUM(", "sale_total)",
     " as total_", "revenue,", "\n      COUNT(", "sale_id)", " as total_", "sales"]
  const AverageTicketColumns: string := Join(AverageTicketColumnsPieces, "")

  const AverageTicketInnerPieces: seq<string> := ["\n    FROM (", "\n      ", "SELECT", " DISTINCT "]
  const AverageTicketInner: string := Join(AverageTicketInnerPieces, "")

  const AverageTicketFromPieces: seq<string> :=
    [", sale_id,", " total_", "amount AS", " sale_total", "\n      FROM", " mv_", "analytics_", "summary "]
  const AverageTicketFrom: string := Join(AverageTicketFromPieces, "")

  const AverageTicketGroupByPieces: seq<string> := ["\n    ) AS", " distinct_", "sales\n    ", "GROUP BY "]
  const AverageTicketGroupBy: string := Join(AverageTicketGroupByPieces, "")

  const AverageTicketOrderBy: string := "\n    ORDER BY "

  const AverageTicketLimit: string := "\n    LIMIT "

  const AverageTicketEnd: string := ";\n  "

  const DeliveryColumnsPieces: seq<string> :=
    [",\n      AVG(", "delivery_", "minutes)", " as avg_", "delivery_", "time,",
     "\n      AVG(", "production", "_minutes)", " as avg_", "production", "_time"]
  const DeliveryColumns: string := Join(DeliveryColumnsPieces, "")

  /** The statement end and the SQL comment that close the `LIMIT` line of two of the queries. */
  function CommentedEnd(note: string): string {
    "; --" + note + "\n  "
  }

  const TopProductsNotePieces: seq<string> := [" O 'limit'", " usa o", " próximo", " índice", " disponível"]
  const TopProductsNote: string := Join(TopProductsNotePieces, "")

  const DeliveryNotePieces: seq<string> := [" O 'limit'", " usa o", " próximo", " índice", " ($1, $2,", " etc.)"]
  const DeliveryNote: string := Join(DeliveryNotePieces, "")

  /**
   * The shape `/top-products` and `/delivery-performance` share: the grouping
   * column, the aggregate `columns`, the filter clause `where`, grouping,
   * ordering, and the `LIMIT` placeholder followed by a comment `note`.
   */
  function SummaryQuery(columns: string, note: string, p: ReportParams, where: string, limitIndex: nat): string {
    SelectBlock + p.groupBy + columns + FromSummary + where
    + GroupByBlock + p.groupBy + OrderByBlock + p.sortBy + " " + p.order
    + LimitBlock + Placeholder(limitIndex) + CommentedEnd(note)
  }

  /** The `/top-products` query for parameters `p`, filter clause `where` and limit placeholder `limitIndex`. */
  function TopProductsQuery(p: ReportParams, where: string, limitIndex: nat): string {
    SummaryQuery(TopProductsColumns, TopProductsNote, p, where, limitIndex)
  }

  /** The `/average-ticket` query: the filters apply inside a `SELECT DISTINCT` over the sales. */
  function AverageTicketQuery(p: ReportParams, where: string, limitIndex: nat): string {
    SelectBlock + p.groupBy + AverageTicketColumns + AverageTicketInner + p.groupBy + AverageTicketFrom + where
    + AverageTicketGroupBy + p.groupBy + AverageTicketOrderBy + p.sortBy + " " + p.order
    + AverageTicketLimit + Placeholder(limitIndex) + AverageTicketEnd
  }

  /** The `/delivery-performance` query, `where` being the combined clause. */
  function DeliveryQuery(p: ReportParams, where: string, limitIndex: nat): string {
    SummaryQuery(DeliveryColumns, DeliveryNote, p, where, limitIndex)
  }

  /** The query of route `e`. */
  function ReportQuery(e: Endpoint, p: ReportParams, where: string, limitIndex: nat): string {
    match e
    case TopProducts => TopProductsQuery(p, where, limitIndex)
    case AverageTicket => AverageTicketQuery(p, where, limitIndex)
    case DeliveryPerformance => DeliveryQuery(p, where, limitIndex)
  }

  /** The condition `/delivery-performance` adds to every filter clause. */
  const PerformanceConditionPieces: seq<string> :=
    ["(delivery_", "minutes", " IS NOT", " NULL", " OR ", "production", "_minutes", " IS NOT", " NULL)"]
  const PerformanceCondition: string := Join(PerformanceConditionPieces, "")

  /** Fixed text joined from inert pieces is inert and starts where its first piece does. */
  lemma PiecesInert(pieces: seq<string>)
    requires |pieces| > 0 && pieces[0] != "" && Opens(pieces[0])
    requires forall i :: 0 <= i < |pieces| ==> Inert(pieces[i])
    ensures Plain(Join(pieces, ""))
  {
    JoinInert(pieces, "");
    JoinOpens(pieces, "");
  }

  lemma BlocksInert()
    ensures Plain(SelectBlock)
    ensures Plain(GroupByBlock)
    ensures Plain(OrderByBlock)
    ensures Plain(LimitBlock)
  {
  }

  lemma AverageTicketBlocksInert()
    ensures Plain(AverageTicketOrderBy)
    ensures Plain(AverageTicketLimit)
    ensures Plain(AverageTicketEnd)
  {
  }

  // The lemmas below check each piece of a constant by its index, one
  // `assert` per piece: a single `forall` over the pieces makes the verifier
  // unfold every literal at once and costs several times as much.

  lemma FromSummaryInert()
    ensures Plain(FromSummary)
  {
    assert Inert(FromSummaryPieces[0]);
    assert Inert(FromSummaryPieces[1]);
    assert Inert(FromSummaryPieces[2]);
    assert Inert(FromSummaryPieces[3]);
    assert Inert(FromSummaryPieces[4]);
    PiecesInert(FromSummaryPieces);
  }

  lemma TopProductsColumnsInert()
    ensures Plain(TopProductsColumns)
  {
    assert Inert(TopProductsColumnsPieces[0]);
    assert Inert(TopProductsColumnsPieces[1]);
    assert Inert(TopProductsColumnsPieces[2]);
    assert Inert(TopProductsColumnsPieces[3]);
    assert Inert(TopProductsColumnsPieces[4]);
    assert Inert(TopProductsColumnsPieces[5]);
    assert Inert(TopProductsColumnsPieces[6]);
    assert Inert(TopProductsColumnsPieces[7]);
    assert Inert(TopProductsColumnsPieces[8]);
    PiecesInert(TopProductsColumnsPieces);
  }

  lemma AverageTicketColumnsInert()
    ensures Plain(AverageTicketColumns)
  {
    assert Inert(AverageTicketColumnsPieces[0]);
    assert Inert(AverageTicketColumnsPieces[1]);
    assert Inert(AverageTicketColumnsPieces[2]);
    assert Inert(AverageTicketColumnsPieces[3]);
    assert Inert(AverageTicketColumnsPieces[4]);
    assert Inert(AverageTicketColumnsPieces[5]);
    assert Inert(AverageTicketColumnsPieces[6]);
    assert Inert(AverageTicketColumnsPieces[7]);
    assert Inert(AverageTicketColumnsPieces[8]);
    assert Inert(AverageTicketColumnsPieces[9]);
    assert Inert(AverageTicketColumnsPieces[10]);
    assert Inert(AverageTicketColumnsPieces[11]);
    PiecesInert(AverageTicketColumnsPieces);
  }

  lemma AverageTicketInnerInert()
    ensures Plain(AverageTicketInner)
  {
    assert Inert(AverageTicketInnerPieces[0]);
    assert Inert(AverageTicketInnerPieces[1]);
    assert Inert(AverageTicketInnerPieces[2]);
    assert Inert(AverageTicketInnerPieces[3]);
    PiecesInert(AverageTicketInnerPieces);
  }

  lemma AverageTicketFromInert()
    ensures Plain(AverageTicketFrom)
  {
    assert Inert(AverageTicketFromPieces[0]);
    assert Inert(AverageTicketFromPieces[1]);
    assert Inert(AverageTicketFromPieces[2]);
    assert Inert(AverageTicketFromPieces[3]);
    assert Inert(AverageTicketFromPieces[4]);
    assert Inert(AverageTicketFromPieces[5]);
    assert Inert(AverageTicketFromPieces[6]);
    assert Inert(AverageTicketFromPieces[7]);
    PiecesInert(AverageTicketFromPieces);
  }

  lemma AverageTicketGroupByInert()
    ensures Plain(AverageTicketGroupBy)
  {
    assert Inert(AverageTicketGroupByPieces[0]);
    assert Inert(AverageTicketGroupByPieces[1]);
    assert Inert(AverageTicketGroupByPieces[2]);
    assert Inert(AverageTicketGroupByPieces[3]);
    PiecesInert(AverageTicketGroupByPieces);
  }

  lemma DeliveryColumnsInert()
    ensures Plain(DeliveryColumns)
  {
    assert Inert(DeliveryColumnsPieces[0]);
    assert Inert(DeliveryColumnsPieces[1]);
    assert Inert(DeliveryColumnsPieces[2]);
    assert Inert(DeliveryColumnsPieces[3]);
    assert Inert(DeliveryColumnsPieces[4]);
    assert Inert(DeliveryColumnsPieces[5]);
    assert Inert(DeliveryColumnsPieces[6]);
    assert Inert(DeliveryColumnsPieces[7]);
    assert Inert(DeliveryColumnsPieces[8]);
    assert Inert(DeliveryColumnsPieces[9]);
    assert Inert(DeliveryColumnsPieces[10]);
    assert Inert(DeliveryColumnsPieces[11]);
    PiecesInert(DeliveryColumnsPieces);
  }

  lemma PerformanceConditionInert()
    ensures Plain(PerformanceCondition)
  {
    assert Inert(PerformanceConditionPieces[0]);
    assert Inert(PerformanceConditionPieces[1]);
    assert Inert(PerformanceConditionPieces[2]);
    assert Inert(PerformanceConditionPieces[3]);
    assert Inert(PerformanceConditionPieces[4]);
    assert Inert(PerformanceConditionPieces[5]);
    assert Inert(PerformanceConditionPieces[6]);
    assert Inert(PerformanceConditionPieces[7]);
    assert Inert(PerformanceConditionPieces[8]);
    PiecesInert(PerformanceConditionPieces);
  }

  lemma NotesOneLine()
    ensures '\n' !in TopProductsNote && '\n' !in DeliveryNote
  {
    assert '\n' !in TopProductsNotePieces[0];
    assert '\n' !in TopProductsNotePieces[1];
    assert '\n' !in TopProductsNotePieces[2];
    assert '\n' !in TopProductsNotePieces[3];
    assert '\n' !in TopProductsNotePieces[4];
    JoinAvoids(TopProductsNotePieces, "", '\n');
    assert '\n' !in DeliveryNotePieces[0];
    assert '\n' !in DeliveryNotePieces[1];
    assert '\n' !in DeliveryNotePieces[2];
    assert '\n' !in DeliveryNotePieces[3];
    assert '\n' !in DeliveryNotePieces[4];
    assert '\n' !in DeliveryNotePieces[5];
    JoinAvoids(DeliveryNotePieces, "", '\n');
  }

  /** The closing comment hides whatever it holds, `$1` and `$2` included, up to the line break. */
  lemma CommentedEndPlaceholders(note: string)
    requires '\n' !in note
    ensures Placeholders(CommentedEnd(note)) == [] && Opens(CommentedEnd(note))
  {
    var rest := "--" + note + "\n" + "  ";
    assert CommentedEnd(note) == "; " + rest;
    PlaceholdersInertPrefix("; ", rest);
    SkipComment(note, "  ");
  }


  /** The fixed pieces of the templates are quiet: they refer to nothing and hold no `-`. */
  lemma FixedQuiet()
    ensures Quiet(SelectBlock) && Quiet(FromSummary) && Quiet(GroupByBlock) && Quiet(OrderByBlock)
    ensures Quiet(LimitBlock) && Quiet(" ")
    ensures Quiet(AverageTicketColumns) && Quiet(AverageTicketInner) && Quiet(AverageTicketFrom)
    ensures Quiet(AverageTicketGroupBy) && Quiet(AverageTicketOrderBy) && Quiet(AverageTicketLimit)
    ensures Quiet(AverageTicketEnd)
  {
    BlocksInert();
    AverageTicketBlocksInert();
    FromSummaryInert();
    AverageTicketColumnsInert();
    AverageTicketInnerInert();
    AverageTicketFromInert();
    AverageTicketGroupByInert();
    SpacePlain();
    InertQuiet(SelectBlock);
    InertQuiet(FromSummary);
    InertQuiet(GroupByBlock);
    InertQuiet(OrderByBlock);
    InertQuiet(LimitBlock);
    InertQuiet(" ");
    InertQuiet(AverageTicketColumns);
    InertQuiet(AverageTicketInner);
    InertQuiet(AverageTicketFrom);
    InertQuiet(AverageTicketGroupBy);
    InertQuiet(AverageTicketOrderBy);
    InertQuiet(AverageTicketLimit);
    InertQuiet(AverageTicketEnd);
  }

  lemma SpacePlain()
    ensures Plain(" ")
  {
  }

  lemma ParamsQuiet(p: ReportParams)
    requires Plain(p.groupBy) && Plain(p.sortBy) && Plain(p.order)
    ensures Quiet(p.groupBy) && Quiet(p.sortBy) && Quiet(p.order)
  {
    InertQuiet(p.groupBy);
    InertQuiet(p.sortBy);
    InertQuiet(p.order);
  }

  lemma AppendQuiet3(u: string, b0: string, b1: string, b2: string)
    requires '-' !in u && Quiet(b0) && Quiet(b1) && Quiet(b2)
    ensures Placeholders(u + b0 + b1 + b2) == Placeholders(u) && '-' !in u + b0 + b1 + b2
  {
    AppendQuiet(u, b0);
    AppendQuiet(u + b0, b1);
    AppendQuiet(u + b0 + b1, b2);
  }

  lemma AppendQuiet5(u: string, b0: string, b1: string, b2: string, b3: string, b4: string)
    requires '-' !in u && Quiet(b0) && Quiet(b1) && Quiet(b2) && Quiet(b3) && Quiet(b4)
    ensures Placeholders(u + b0 + b1 + b2 + b3 + b4) == Placeholders(u) && '-' !in u + b0 + b1 + b2 + b3 + b4
  {
    AppendQuiet3(u, b0, b1, b2);
    AppendQuiet(u + b0 + b1 + b2, b3);
    AppendQuiet(u + b0 + b1 + b2 + b3, b4);
  }

  lemma AppendQuiet7(u: string, b0: string, b1: string, b2: string, b3: string, b4: string, b5: string, b6: string)
    requires '-' !in u
    requires Quiet(b0) && Quiet(b1) && Quiet(b2) && Quiet(b3) && Quiet(b4) && Quiet(b5) && Quiet(b6)
    ensures var v := u + b0 + b1 + b2 + b3 + b4 + b5 + b6;
      Placeholders(v) == Placeholders(u) && '-' !in v
  {
    AppendQuiet5(u, b0, b1, b2, b3, b4);
    AppendQuiet(u + b0 + b1 + b2 + b3 + b4, b5);
    AppendQuiet(u + b0 + b1 + b2 + b3 + b4 + b5, b6);
  }

  /** The limit placeholder and a tail that refers to nothing add exactly that placeholder. */
  lemma LimitTail(v: string, n: nat, tail: string)
    requires '-' !in v && Placeholders(tail) == [] && Opens(tail)
    ensures Placeholders(v + Placeholder(n) + tail) == Placeholders(v) + [n]
  {
    AppendPlaceholder(v, n);
    PlaceholdersAppend(v + Placeholder(n), tail);
  }

  /**
   * What both template shapes share after the filter clause: seven quiet
   * pieces (grouping, ordering, the `LIMIT` keyword), the limit placeholder
   * and a tail that refers to nothing.
   */
  lemma AfterWhere(u: string, b0: string, b1: string, b2: string, b3: string, b4: string, b5: string, b6: string,
                   n: nat, tail: string)
    requires '-' !in u
    requires Quiet(b0) && Quiet(b1) && Quiet(b2) && Quiet(b3) && Quiet(b4) && Quiet(b5) && Quiet(b6)
    requires Placeholders(tail) == [] && Opens(tail)
    ensures Placeholders(u + b0 + b1 + b2 + b3 + b4 + b5 + b6 + Placeholder(n) + tail) == Placeholders(u) + [n]
  {
    AppendQuiet7(u, b0, b1, b2, b3, b4, b5, b6);
    LimitTail(u + b0 + b1 + b2 + b3 + b4 + b5 + b6, n, tail);
  }

  /** Quiet text before a clause `w` leaves the clause's placeholders as they are. */
  lemma BeforeWhere(t: string, w: string)
    requires '-' !in t && Placeholders(t) == [] && '-' !in w && Opens(w)
    ensures Placeholders(t + w) == Placeholders(w) && '-' !in t + w
  {
    PlaceholdersAppend(t, w);
  }

  /**
   * The shared template refers to the placeholders of `where` and then to the
   * limit placeholder, and to nothing else: the identifiers are plain and the
   * `$1, $2` of the closing note sits inside a comment.
   */
  lemma SummaryPlaceholders(columns: string, note: string, p: ReportParams, where: string, limitIndex: nat)
    requires Plain(columns) && '\n' !in note
    requires Plain(p.groupBy) && Plain(p.sortBy) && Plain(p.order)
    requires '-' !in where && Opens(where)
    ensures Placeholders(SummaryQuery(columns, note, p, where, limitIndex)) == Placeholders(where) + [limitIndex]
  {
    FixedQuiet();
    ParamsQuiet(p);
    InertQuiet(columns);
    CommentedEndPlaceholders(note);
    var t := SelectBlock + p.groupBy + columns + FromSummary;
    AppendQuiet3(SelectBlock, p.groupBy, columns, FromSummary);
    BeforeWhere(t, where);
    AfterWhere(t + where, GroupByBlock, p.groupBy, OrderByBlock, p.sortBy, " ", p.order, LimitBlock,
               limitIndex, CommentedEnd(note));
  }

  /** The `/average-ticket` template, likewise: the placeholders of `where`, then the limit placeholder. */
  lemma AverageTicketPlaceholders(p: ReportParams, where: string, limitIndex: nat)
    requires Plain(p.groupBy) && Plain(p.sortBy) && Plain(p.order)
    requires '-' !in where && Opens(where)
    ensures Placeholders(AverageTicketQuery(p, where, limitIndex)) == Placeholders(where) + [limitIndex]
  {
    FixedQuiet();
    ParamsQuiet(p);
    var t := SelectBlock + p.groupBy + AverageTicketColumns + AverageTicketInner + p.groupBy + AverageTicketFrom;
    AppendQuiet5(SelectBlock, p.groupBy, AverageTicketColumns, AverageTicketInner, p.groupBy, AverageTicketFrom);
    BeforeWhere(t, where);
    AfterWhere(t + where, AverageTicketGroupBy, p.groupBy, AverageTicketOrderBy, p.sortBy, " ", p.order,
               AverageTicketLimit, limitIndex, AverageTicketEnd);
  }

  /**
   * Whatever the route, a validated query refers to the placeholders of its
   * filter clause and then to the limit placeholder, and to nothing else.
   */
  lemma ReportPlaceholders(e: Endpoint, p: ReportParams, where: string, limitIndex: nat)
    requires Whitelisted(e, p)
    requires '-' !in where && Opens(where)
    ensures Placeholders(ReportQuery(e, p, where, limitIndex)) == Placeholders(where) + [limitIndex]
  {
    ParamsPlain(e, p);
    match e
    case TopProducts =>
      TopProductsColumnsInert();
      NotesOneLine();
      SummaryPlaceholders(TopProductsColumns, TopProductsNote, p, where, limitIndex);
    case AverageTicket =>
      AverageTicketPlaceholders(p, where, limitIndex);
    case DeliveryPerformance =>
      DeliveryColumnsInert();
      NotesOneLine();
      SummaryPlaceholders(DeliveryColumns, DeliveryNote, p, where, limitIndex);
  }

  /**
   * `/delivery-performance` adds a condition `c` to the filter clause: after
   * the filter conditions when there are any, as the only condition
   * otherwise. Either way the result is the clause over the filter conditions
   * with `c` as one more condition at the end.
   */
  lemma SpliceCondition(conds: seq<string>, c: string)
    ensures var w := WhereText(conds);
      (if w != "" then w + " AND " + c else "WHERE " + c) == WhereText(conds + [c])
  {
    if conds == [] {
      assert conds + [c] == [c];
    } else {
      JoinSnoc(conds, c, " AND ");
      var j := Join(conds, " AND ");
      assert "WHERE " + (j + " AND " + c) == "WHERE " + j + " AND " + c;
    }
  }

  /** A quiet condition after ` AND ` adds no placeholder. */
  lemma AndCondition(w: string, c: string)
    requires '-' !in w && Opens(w) && w != "" && Quiet(c)
    ensures var r := w + " AND " + c;
      Placeholders(r) == Placeholders(w) && '-' !in r && Opens(r) && r != ""
  {
    var and := " AND ";
    assert Inert(and) && Opens(and);
    AppendInert(w, and);
    AppendQuiet(w + and, c);
    assert (w + and + c)[0] == w[0];
  }

  /** A quiet condition on its own makes a clause without placeholders. */
  lemma OnlyCondition(c: string)
    requires Quiet(c)
    ensures var r := "WHERE " + c;
      Placeholders(r) == [] && '-' !in r && Opens(r) && r != ""
  {
    var where := "WHERE ";
    assert Inert(where) && Opens(where);
    InertQuiet(where);
    AppendQuiet(where, c);
  }

  /**
   * Adding a quiet condition keeps the filter clause's placeholders and
   * numbering, and gives a clause that is never empty.
   */
  lemma SplicedPlaceholders(fs: seq<Filter>, c: string)
    requires Quiet(c)
    ensures var w := WhereText(Conditions(fs, 1) + [c]);
      && '-' !in w && Opens(w) && w != ""
      && Placeholders(w) == Numbering(1, |fs|)
  {
    var conds := Conditions(fs, 1);
    SpliceCondition(conds, c);
    WherePlaceholders(fs, 1);
    var w := WhereText(conds);
    if w != "" {
      AndCondition(w, c);
    } else {
      OnlyCondition(c);
    }
  }

  /** The spliced clause ends with the added condition. */
  lemma SplicedEndsWith(conds: seq<string>, c: string)
    ensures var w := WhereText(conds + [c]);
      |w| >= |c| && w[|w| - |c|..] == c
  {
    SpliceCondition(conds, c);
    var w := WhereText(conds);
    var x := if w != "" then w + " AND " else "WHERE ";
    assert WhereText(conds + [c]) == x + c;
    assert (x + c)[|x|..] == c;
  }

  /** The performance condition is quiet, so splicing it in keeps the numbering. */
  lemma PerformanceQuiet()
    ensures Quiet(PerformanceCondition)
  {
    PerformanceConditionInert();
    InertQuiet(PerformanceCondition);
  }
}
