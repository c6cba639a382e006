/**
 * The WHERE-clause builder `buildWhereClause`: six optional filters become
 * conditions with numbered placeholders and a parallel list of values.
 */
module FilterClause {
  import opened Wrappers
  import opened SqlText
  import opened Request

  /** A value bound to a placeholder. `IntOf(raw)` stands for `parseInt(raw)`, left uninterpreted. */
  datatype Param = Str(s: string) | IntOf(raw: string)

  /** The recognised filter fields, in the order the builder tests them. */
  datatype Field = StartDate | EndDate | StoreId | ChannelId | DayOfWeek | HourOfDay

  function Rank(f: Field): nat {
    match f
    case StartDate => 0
    case EndDate => 1
    case StoreId => 2
    case ChannelId => 3
    case DayOfWeek => 4
    case HourOfDay => 5
  }

  /** The raw request parameter a field is read from. */
  function Raw(q: Query, f: Field): Option<string> {
    match f
    case StartDate => q.startDate
    case EndDate => q.endDate
    case StoreId => q.storeId
    case ChannelId => q.channelId
    case DayOfWeek => q.dayOfWeek
    case HourOfDay => q.hourOfDay
  }

  /** The condition a field contributes, up to its placeholder. */
  function Test(f: Field): string {
    match f
    case StartDate => "sale_date >= "
    case EndDate => "sale_date <= "
    case StoreId => "store_id = "
    case ChannelId => "channel_id = "
    case DayOfWeek => "day_of_week = "
    case HourOfDay => "hour_of_day = "
  }

  /** Dates travel as the raw strings; the four identifier fields through `parseInt`. */
  function Bind(f: Field, raw: string): Param {
    if f == StartDate || f == EndDate then Str(raw) else IntOf(raw)
  }

  /** One recognised filter of a request and the value it binds. */
  datatype Filter = Filter(field: Field, value: Param)

  function Pick(q: Query, f: Field): seq<Filter> {
    if Given(Raw(q, f)) then [Filter(f, Bind(f, Raw(q, f).value))] else []
  }

  /** The order in which `buildWhereClause` tests the fields. */
  const CheckOrder: seq<Field> := [StartDate, EndDate, StoreId, ChannelId, DayOfWeek, HourOfDay]

  /** The filters a request sets among `fields`, in the order of `fields`. */
  function Picked(q: Query, fields: seq<Field>): seq<Filter>
    decreases |fields|
  {
    if fields == [] then []
    else Picked(q, fields[..|fields| - 1]) + Pick(q, fields[|fields| - 1])
  }

  /** The filters a request sets, in check order. */
  function Filters(q: Query): seq<Filter> {
    Picked(q, CheckOrder)
  }

  /** The fields of `fs`, in order. */
  function FieldsOf(fs: seq<Filter>): seq<Field> {
    seq(|fs|, i requires 0 <= i < |fs| => fs[i].field)
  }

  predicate RankOrdered(fields: seq<Field>) {
    forall i, j :: 0 <= i < j < |fields| ==> Rank(fields[i]) < Rank(fields[j])
  }

  /** Picking one more field extends the filters by that field's filter, if the request sets it. */
  lemma PickedSnoc(q: Query, fields: seq<Field>)
    requires fields != []
    ensures var init, last := fields[..|fields| - 1], fields[|fields| - 1];
      && Picked(q, fields) == Picked(q, init) + Pick(q, last)
      && FieldsOf(Picked(q, fields)) == FieldsOf(Picked(q, init)) + (if Given(Raw(q, last)) then [last] else [])
  {
    var init, last := fields[..|fields| - 1], fields[|fields| - 1];
    var fs0 := Picked(q, init);
    if Given(Raw(q, last)) {
      assert FieldsOf(fs0 + Pick(q, last)) == FieldsOf(fs0) + [last];
    } else {
      assert fs0 + Pick(q, last) == fs0;
    }
  }

  /** Every filter `Picked` lists is set by the request and carries the value its parameter binds. */
  lemma {:induction false} PickedValues(q: Query, fields: seq<Field>)
    ensures var fs := Picked(q, fields);
      forall i :: 0 <= i < |fs| ==>
        Given(Raw(q, fs[i].field)) && fs[i].value == Bind(fs[i].field, Raw(q, fs[i].field).value)
    decreases |fields|
  {
    if fields != [] {
      PickedSnoc(q, fields);
      PickedValues(q, fields[..|fields| - 1]);
    }
  }

  /** `Picked` lists a field exactly when it is among `fields` and the request sets it. */
  lemma {:induction false} PickedFields(q: Query, fields: seq<Field>)
    ensures forall f :: f in FieldsOf(Picked(q, fields)) <==> f in fields && Given(Raw(q, f))
    decreases |fields|
  {
    if fields != [] {
      var init, last := fields[..|fields| - 1], fields[|fields| - 1];
      PickedSnoc(q, fields);
      PickedFields(q, init);
      assert fields == init + [last];
      forall f ensures f in fields <==> f in init || f == last {
        assert f in init + [last] <==> f in init || f in [last];
      }
    }
  }

  /** Among rank-ordered `fields`, `Picked` lists the fields in rank order, so each at most once. */
  lemma {:induction false} PickedOrdered(q: Query, fields: seq<Field>)
    requires RankOrdered(fields)
    ensures RankOrdered(FieldsOf(Picked(q, fields)))
    decreases |fields|
  {
    if fields != [] {
      var init, last := fields[..|fields| - 1], fields[|fields| - 1];
      PickedSnoc(q, fields);
      PickedOrdered(q, init);
      PickedFields(q, init);
      forall f | f in init ensures Rank(f) < Rank(last) {
        var k :| 0 <= k < |init| && init[k] == f;
        assert fields[k] == init[k];
      }
    }
  }

  /** The filters of a request: exactly the given fields, each once, in check order. */
  lemma FiltersExact(q: Query)
    ensures var fs := Filters(q);
      && RankOrdered(FieldsOf(fs))
      && (forall f :: f in FieldsOf(fs) <==> Given(Raw(q, f)))
      && forall i :: 0 <= i < |fs| ==>
           Given(Raw(q, fs[i].field)) && fs[i].value == Bind(fs[i].field, Raw(q, fs[i].field).value)
  {
    var fs := Filters(q);
    PickedValues(q, CheckOrder);
    PickedFields(q, CheckOrder);
    PickedOrdered(q, CheckOrder);
    forall i | 0 <= i < |fs|
      ensures Given(Raw(q, fs[i].field)) && fs[i].value == Bind(fs[i].field, Raw(q, fs[i].field).value)
    {
      assert fs[i] == Picked(q, CheckOrder)[i];
    }
    forall f: Field ensures f in CheckOrder {
      match f
      case StartDate => assert CheckOrder[0] == f;
      case EndDate => assert CheckOrder[1] == f;
      case StoreId => assert CheckOrder[2] == f;
      case ChannelId => assert CheckOrder[3] == f;
      case DayOfWeek => assert CheckOrder[4] == f;
      case HourOfDay => assert CheckOrder[5] == f;
    }
  }

  /** The conditions for `fs`, numbering their placeholders from `first`. */
  function Conditions(fs: seq<Filter>, first: nat): (cs: seq<string>)
    ensures |cs| == |fs|
    decreases |fs|
  {
    if fs == [] then [] else [Test(fs[0].field) + Placeholder(first)] + Conditions(fs[1..], first + 1)
  }

  /** The values bound by `fs`, in the same order. */
  function Values(fs: seq<Filter>): (vs: seq<Param>)
    ensures |vs| == |fs|
    decreases |fs|
  {
    if fs == [] then [] else [fs[0].value] + Values(fs[1..])
  }

  /** The i-th condition tests the i-th filter's field against placeholder `first + i`. */
  lemma {:induction false} ConditionAt(fs: seq<Filter>, first: nat, i: nat)
    requires i < |fs|
    ensures Conditions(fs, first)[i] == Test(fs[i].field) + Placeholder(first + i)
    decreases i
  {
    var rest := Conditions(fs[1..], first + 1);
    assert Conditions(fs, first) == [Test(fs[0].field) + Placeholder(first)] + rest;
    if i > 0 {
      ConditionAt(fs[1..], first + 1, i - 1);
      assert fs[1..][i - 1] == fs[i];
    }
  }

  /** The i-th value is the one the i-th filter binds. */
  lemma {:induction false} ValueAt(fs: seq<Filter>, i: nat)
    requires i < |fs|
    ensures Values(fs)[i] == fs[i].value
    decreases i
  {
    if i > 0 {
      ValueAt(fs[1..], i - 1);
    }
  }

  /** A filter added last gets the next condition, numbered after the others. */
  lemma {:induction false} ConditionsSnoc(fs: seq<Filter>, x: Filter, first: nat)
    ensures Conditions(fs + [x], first) == Conditions(fs, first) + [Test(x.field) + Placeholder(first + |fs|)]
    decreases |fs|
  {
    if fs == [] {
      assert [x][1..] == [];
    } else {
      assert (fs + [x])[1..] == fs[1..] + [x];
      ConditionsSnoc(fs[1..], x, first + 1);
    }
  }

  /** A filter added last binds the last value. */
  lemma {:induction false} ValuesSnoc(fs: seq<Filter>, x: Filter)
    ensures Values(fs + [x]) == Values(fs) + [x.value]
    decreases |fs|
  {
    if fs == [] {
      assert [x][1..] == [];
    } else {
      assert (fs + [x])[1..] == fs[1..] + [x];
      ValuesSnoc(fs[1..], x);
    }
  }

  /** No condition gives no clause; otherwise `WHERE` and the conditions joined by `AND`. */
  function WhereText(conds: seq<string>): string {
    if |conds| == 0 then "" else "WHERE " + Join(conds, " AND ")
  }

  /** What `buildWhereClause` returns. */
  datatype WhereClause = WhereClause(text: string, values: seq<Param>, paramIndex: nat)

  lemma TestInert(f: Field)
    ensures Test(f) != "" && Inert(Test(f)) && Opens(Test(f))
  {
    match f
    case StartDate => assert Inert(Test(StartDate));
    case EndDate => assert Inert(Test(EndDate));
    case StoreId => assert Inert(Test(StoreId));
    case ChannelId => assert Inert(Test(ChannelId));
    case DayOfWeek => assert Inert(Test(DayOfWeek));
    case HourOfDay => assert Inert(Test(HourOfDay));
  }

  /** A condition refers to its own placeholder and to no other. */
  lemma ConditionPlaceholders(f: Field, n: nat)
    ensures var c := Test(f) + Placeholder(n);
      '-' !in c && Opens(c) && Placeholders(c) == [n]
  {
    TestInert(f);
    InertChars(Test(f));
    PlaceholderOf(n);
    PlaceholdersInertPrefix(Test(f), Placeholder(n));
  }

  /** Joined conditions refer to placeholders `first`, `first + 1`, ... in order, each once. */
  lemma {:induction false} JoinedPlaceholders(fs: seq<Filter>, first: nat)
    requires |fs| > 0
    ensures var j := Join(Conditions(fs, first), " AND ");
      '-' !in j && Opens(j) && Placeholders(j) == Numbering(first, |fs|)
    decreases |fs|
  {
    var cs := Conditions(fs, first);
    ConditionPlaceholders(fs[0].field, first);
    if |fs| > 1 {
      JoinedPlaceholders(fs[1..], first + 1);
      assert cs[1..] == Conditions(fs[1..], first + 1);
      var rest := Join(cs[1..], " AND ");
      assert Join(cs, " AND ") == cs[0] + " AND " + rest;
      AppendInert(cs[0], " AND ");
      PlaceholdersAppend(cs[0] + " AND ", rest);
      NumberingSplit(first, |fs|);
    }
  }

  /**
   * The clause built from filters `fs` is empty exactly when there are none,
   * and it refers to placeholders `first` to `first + |fs| - 1`, in order.
   */
  lemma WherePlaceholders(fs: seq<Filter>, first: nat)
    ensures var w := WhereText(Conditions(fs, first));
      && (w == "" <==> fs == [])
      && '-' !in w && Opens(w)
      && Placeholders(w) == Numbering(first, |fs|)
  {
    if fs != [] {
      JoinedPlaceholders(fs, first);
      var j := Join(Conditions(fs, first), " AND ");
      PlaceholdersAppend("WHERE ", j);
      PlaceholdersFree("WHERE ");
    }
  }

  /** The builder's running state: the conditions so far, their values and the next placeholder number. */
  datatype Builder = Builder(conditions: seq<string>, values: seq<Param>, paramIndex: nat)

  /**
   * One test of `buildWhereClause`: a field the request sets adds its condition
   * with the next placeholder and its value; any other field leaves the state alone.
   */
  function AddIf(b: Builder, f: Field, raw: Option<string>): Builder {
    if Given(raw) then
      Builder(b.conditions + [Test(f) + Placeholder(b.paramIndex)], b.values + [Bind(f, raw.value)], b.paramIndex + 1)
    else b
  }

  /** The state after testing the first `k` fields in check order. */
  function Run(q: Query, k: nat): Builder
    requires k <= |CheckOrder|
  {
    if k == 0 then Builder([], [], 1)
    else AddIf(Run(q, k - 1), CheckOrder[k - 1], Raw(q, CheckOrder[k - 1]))
  }

  /** After `k` tests the state holds the conditions and values of the filters set among those fields. */
  lemma {:induction false} RunTracks(q: Query, k: nat)
    requires k <= |CheckOrder|
    ensures var fs := Picked(q, CheckOrder[..k]);
      Run(q, k) == Builder(Conditions(fs, 1), Values(fs), |fs| + 1)
  {
    if k > 0 {
      RunTracks(q, k - 1);
      var f := CheckOrder[k - 1];
      assert CheckOrder[..k][..k - 1] == CheckOrder[..k - 1];
      var fs0 := Picked(q, CheckOrder[..k - 1]);
      assert Picked(q, CheckOrder[..k]) == fs0 + Pick(q, f);
      if Given(Raw(q, f)) {
        ConditionsSnoc(fs0, Filter(f, Bind(f, Raw(q, f).value)), 1);
        ValuesSnoc(fs0, Filter(f, Bind(f, Raw(q, f).value)));
      } else {
        assert fs0 + Pick(q, f) == fs0;
      }
    }
  }

  /** The six tests written out in check order. */
  lemma RunAll(q: Query)
    ensures Run(q, 6) ==
      AddIf(AddIf(AddIf(AddIf(AddIf(AddIf(Builder([], [], 1),
        StartDate, q.startDate), EndDate, q.endDate), StoreId, q.storeId),
        ChannelId, q.channelId), DayOfWeek, q.dayOfWeek), HourOfDay, q.hourOfDay)
  {
    assert Run(q, 1) == AddIf(Builder([], [], 1), StartDate, q.startDate);
    assert Run(q, 2) == AddIf(Run(q, 1), EndDate, q.endDate);
    assert Run(q, 3) == AddIf(Run(q, 2), StoreId, q.storeId);
    assert Run(q, 4) == AddIf(Run(q, 3), ChannelId, q.channelId);
    assert Run(q, 5) == AddIf(Run(q, 4), DayOfWeek, q.dayOfWeek);
    assert Run(q, 6) == AddIf(Run(q, 5), HourOfDay, q.hourOfDay);
  }

  /** After all six tests the state holds exactly the conditions and values of the request's filters. */
  lemma RunFilters(q: Query)
    ensures Run(q, 6) == Builder(Conditions(Filters(q), 1), Values(Filters(q)), |Filters(q)| + 1)
  {
    RunTracks(q, 6);
    assert CheckOrder[..6] == CheckOrder;
  }

  /** Two requests set the same filter fields, whatever values they give them. */
  predicate SameShape(q1: Query, q2: Query) {
    forall f: Field :: Given(Raw(q1, f)) == Given(Raw(q2, f))
  }

  /** Which fields `Picked` lists depends on which fields are set, not on their values. */
  lemma {:induction false} PickedShape(q1: Query, q2: Query, fields: seq<Field>)
    requires SameShape(q1, q2)
    ensures FieldsOf(Picked(q1, fields)) == FieldsOf(Picked(q2, fields))
    decreases |fields|
  {
    if fields != [] {
      PickedSnoc(q1, fields);
      PickedSnoc(q2, fields);
      PickedShape(q1, q2, fields[..|fields| - 1]);
    }
  }

  /** The conditions depend on the filters' fields only, never on the values. */
  lemma {:induction false} ConditionsFieldsOnly(fs1: seq<Filter>, fs2: seq<Filter>, first: nat)
    requires FieldsOf(fs1) == FieldsOf(fs2)
    ensures Conditions(fs1, first) == Conditions(fs2, first)
    decreases |fs1|
  {
    assert |fs1| == |FieldsOf(fs1)| == |fs2|;
    if fs1 != [] {
      assert fs1[0].field == FieldsOf(fs1)[0] == fs2[0].field;
      assert FieldsOf(fs1[1..]) == FieldsOf(fs1)[1..];
      assert FieldsOf(fs2[1..]) == FieldsOf(fs2)[1..];
      ConditionsFieldsOnly(fs1[1..], fs2[1..], first + 1);
    }
  }

  /**
   * Filter values never reach the clause text: requests that set the same
   * fields get the same conditions, numbered alike, whatever the values.
   */
  lemma ClauseShape(q1: Query, q2: Query)
    requires SameShape(q1, q2)
    ensures Conditions(Filters(q1), 1) == Conditions(Filters(q2), 1)
    ensures |Filters(q1)| == |Filters(q2)|
  {
    PickedShape(q1, q2, CheckOrder);
    ConditionsFieldsOnly(Filters(q1), Filters(q2), 1);
    assert |Filters(q1)| == |FieldsOf(Filters(q1))|;
  }

  /** The clause of all the filters: empty exactly when there are none, placeholders numbered from 1. */
  lemma BuiltAll(q: Query)
    ensures var w := WhereText(Conditions(Filters(q), 1));
      (w == "" <==> Filters(q) == []) && Placeholders(w) == Numbering(1, |Filters(q)|)
  {
    WherePlaceholders(Filters(q), 1);
  }

  /**
   * One of the six tests of `buildWhereClause`: when the request sets `raw`,
   * push field `f`'s condition with placeholder `paramIndex`, push its value
   * and move the placeholder counter on; otherwise change nothing.
   */
  method PushIfGiven(conditions: seq<string>, values: seq<Param>, paramIndex: nat, f: Field, raw: Option<string>)
    returns (conditions': seq<string>, values': seq<Param>, paramIndex': nat)
    ensures Builder(conditions', values', paramIndex') == AddIf(Builder(conditions, values, paramIndex), f, raw)
  {
    conditions', values', paramIndex' := conditions, values, paramIndex;
    if Given(raw) {
      conditions' := conditions' + [Test(f) + Placeholder(paramIndex')];
      paramIndex' := paramIndex' + 1;
      values' := values' + [Bind(f, raw.value)];
    }
  }

  /**
   * `buildWhereClause`: tests the six filters in check order and, for each one
   * set, appends its condition with the next placeholder and its value.
   */
  method BuildWhereClause(q: Query) returns (w: WhereClause)
    ensures w.text == WhereText(Conditions(Filters(q), 1))
    ensures w.values == Values(Filters(q))
    ensures |w.values| == |Filters(q)| && w.paramIndex == |w.values| + 1
    ensures w.text == "" <==> Filters(q) == []
    ensures Placeholders(w.text) == Numbering(1, |w.values|)
  {
    var conditions: seq<string> := [];
    var values: seq<Param> := [];
    var paramIndex: nat := 1;
    conditions, values, paramIndex := PushIfGiven(conditions, values, paramIndex, StartDate, q.startDate);
    conditions, values, paramIndex := PushIfGiven(conditions, values, paramIndex, EndDate, q.endDate);
    conditions, values, paramIndex := PushIfGiven(conditions, values, paramIndex, StoreId, q.storeId);
    conditions, values, paramIndex := PushIfGiven(conditions, values, paramIndex, ChannelId, q.channelId);
    conditions, values, paramIndex := PushIfGiven(conditions, values, paramIndex, DayOfWeek, q.dayOfWeek);
    conditions, values, paramIndex := PushIfGiven(conditions, values, paramIndex, HourOfDay, q.hourOfDay);
    RunAll(q);
    RunFilters(q);
    BuiltAll(q);
    var text := if |conditions| > 0 then "WHERE " + Join(conditions, " AND ") else "";
    w := WhereClause(text, values, paramIndex);
  }
}
