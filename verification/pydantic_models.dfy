/**
 * The structured query explanation (`QueryExplanation`) with its validators,
 * its defaults and its `dict()` override, and the `QueryResult` record.
 * Pydantic's parsing of arbitrary input is not modelled: a constructor call
 * receives already-typed arguments, and a keyword argument may be left out.
 */
module QueryModels {
  import opened Wrappers

  datatype FilterCondition = FilterCondition(column: string, operator: string, value: string)

  datatype JoinCondition = JoinCondition(table1: string, table2: string, column1: string, column2: string)

  datatype OrderBy = OrderBy(column: string, direction: string)

  datatype QueryExplanation = QueryExplanation(
    identifiedIntent: string,
    targetTables: seq<string>,
    targetColumns: seq<string>,
    filterConditions: Option<seq<FilterCondition>>,
    joinConditions: Option<seq<JoinCondition>>,
    groupBy: Option<seq<string>>,
    orderBy: Option<OrderBy>,
    limit: Option<int>,
    summaryOfUnderstanding: string)

  /** The result of executing a statement; `data` holds one string-keyed row per result row. */
  datatype QueryResult = QueryResult(
    success: bool,
    data: Option<seq<map<string, string>>>,
    errorMessage: Option<string>,
    rowCount: Option<int>,
    columnNames: Option<seq<string>>)

  /** A keyword argument of a constructor call: left out, or passed (possibly as `None`). */
  datatype Arg<T> = Omitted | Passed(value: T)

  function OrDefault<T>(a: Arg<T>, default: T): T
  {
    match a
    case Omitted => default
    case Passed(v) => v
  }

  const TablesRequired: string := "At least one target table must be specified"
  const ColumnsRequired: string := "At least one target column must be specified"

  /** The invariant every constructed explanation keeps. */
  predicate ValidExplanation(q: QueryExplanation)
  {
    q.targetTables != [] && q.targetColumns != []
  }

  /** The messages of the failing validators, in field order (pydantic reports every failing field). */
  function ValidationErrors(tables: seq<string>, columns: seq<string>): (errors: seq<string>)
    ensures errors == [] <==> tables != [] && columns != []
    ensures TablesRequired in errors <==> tables == []
    ensures ColumnsRequired in errors <==> columns == []
  {
    (if tables == [] then [TablesRequired] else []) + (if columns == [] then [ColumnsRequired] else [])
  }

  /**
   * `QueryExplanation(...)`: a validation error listing the failing validators,
   * or the explanation with the optional lists defaulting to empty lists and
   * `order_by` and `limit` defaulting to `None`.
   */
  function NewQueryExplanation(
    intent: string, tables: seq<string>, columns: seq<string>,
    filters: Arg<Option<seq<FilterCondition>>>, joins: Arg<Option<seq<JoinCondition>>>,
    groupBy: Arg<Option<seq<string>>>, orderBy: Arg<Option<OrderBy>>, limit: Arg<Option<int>>,
    summary: string): (r: Result<QueryExplanation, seq<string>>)
    ensures r.Ok? <==> tables != [] && columns != []
    ensures r.Err? ==> (TablesRequired in r.error <==> tables == []) && (ColumnsRequired in r.error <==> columns == [])
    ensures r.Ok? ==> ValidExplanation(r.value)
    ensures r.Ok? ==> r.value.targetTables == tables && r.value.targetColumns == columns
    ensures r.Ok? && filters.Omitted? ==> r.value.filterConditions == Some([])
    ensures r.Ok? && joins.Omitted? ==> r.value.joinConditions == Some([])
    ensures r.Ok? && groupBy.Omitted? ==> r.value.groupBy == Some([])
    ensures r.Ok? && orderBy.Omitted? ==> r.value.orderBy == None
    ensures r.Ok? && limit.Omitted? ==> r.value.limit == None
  {
    var errors := ValidationErrors(tables, columns);
    if errors != [] then Err(errors)
    else Ok(QueryExplanation(intent, tables, columns,
                             OrDefault(filters, Some([])), OrDefault(joins, Some([])), OrDefault(groupBy, Some([])),
                             OrDefault(orderBy, None), OrDefault(limit, None), summary))
  }

  // ----- dict() -----

  /** A value of the dictionary `dict()` produces. */
  datatype Value = Null | Text(text: string) | Int(number: int) | ListOf(items: seq<Value>) | Record(entries: map<string, Value>)

  function Texts(xs: seq<string>): (r: seq<Value>)
    ensures |r| == |xs|
    ensures forall i :: 0 <= i < |xs| ==> r[i] == Text(xs[i])
  {
    seq(|xs|, i requires 0 <= i < |xs| => Text(xs[i]))
  }

  function FilterValue(f: FilterCondition): Value
  {
    Record(map["column" := Text(f.column), "operator" := Text(f.operator), "value" := Text(f.value)])
  }

  function JoinValue(j: JoinCondition): Value
  {
    Record(map["table1" := Text(j.table1), "table2" := Text(j.table2),
               "column1" := Text(j.column1), "column2" := Text(j.column2)])
  }

  function OptionalList<T>(xs: Option<seq<T>>, f: T -> Value): Value
  {
    match xs
    case None => Null
    case Some(items) => ListOf(seq(|items|, i requires 0 <= i < |items| => f(items[i])))
  }

  /** `BaseModel.dict()`: every field under its name, nested models as dictionaries. */
  function BaseDict(q: QueryExplanation): map<string, Value>
  {
    map[
      "identified_intent" := Text(q.identifiedIntent),
      "target_tables" := ListOf(Texts(q.targetTables)),
      "target_columns" := ListOf(Texts(q.targetColumns)),
      "filter_conditions" := OptionalList(q.filterConditions, FilterValue),
      "join_conditions" := OptionalList(q.joinConditions, JoinValue),
      "group_by" := OptionalList(q.groupBy, (g: string) => Text(g)),
      "order_by" := (match q.orderBy
                     case None => Null
                     case Some(o) => Record(map["column" := Text(o.column), "direction" := Text(o.direction)])),
      "limit" := (match q.limit case None => Null case Some(n) => Int(n)),
      "summary_of_understanding" := Text(q.summaryOfUnderstanding)
    ]
  }

  /** The override's rewrite of one entry: an empty list becomes `None`, anything else stays. */
  function Readable(v: Value): Value
  {
    if v == ListOf([]) then Null else v
  }

  /** `QueryExplanation.dict()`: the base dictionary with every empty list replaced in place by `None`. */
  method Dict(q: QueryExplanation) returns (result: map<string, Value>)
    ensures result.Keys == BaseDict(q).Keys
    ensures forall k :: k in result ==> result[k] == Readable(BaseDict(q)[k])
  {
    var base := BaseDict(q);
    result := base;
    var pending := result.Keys;
    while pending != {}
      invariant pending <= base.Keys
      invariant result.Keys == base.Keys
      invariant forall k :: k in base ==> result[k] == if k in pending then base[k] else Readable(base[k])
      decreases pending
    {
      var key :| key in pending;
      if result[key].ListOf? && |result[key].items| == 0 {
        result := result[key := Null];
      }
      pending := pending - {key};
    }
  }

  /** No list is empty after the rewrite, and the rewrite changes nothing when applied again. */
  lemma ReadableSettled(v: Value)
    ensures Readable(v) != ListOf([])
    ensures Readable(Readable(v)) == Readable(v)
    ensures Readable(v) == v || (v == ListOf([]) && Readable(v) == Null)
  {
  }

  /**
   * For a constructed explanation, `dict()` never turns `target_tables` or
   * `target_columns` into `None`: both stay the lists given.
   */
  lemma DictKeepsTargets(q: QueryExplanation)
    requires ValidExplanation(q)
    ensures Readable(BaseDict(q)["target_tables"]) == ListOf(Texts(q.targetTables)) != Null
    ensures Readable(BaseDict(q)["target_columns"]) == ListOf(Texts(q.targetColumns)) != Null
  {
    assert |Texts(q.targetTables)| > 0 && |Texts(q.targetColumns)| > 0;
  }

  /**
   * The default empty lists do not survive `dict()`: an explanation built
   * without filters, joins or grouping reports `None` for all three.
   */
  lemma DefaultsReadAsNone(intent: string, tables: seq<string>, columns: seq<string>, summary: string)
    requires tables != [] && columns != []
    ensures var r := NewQueryExplanation(intent, tables, columns, Omitted, Omitted, Omitted, Omitted, Omitted, summary);
      && r.Ok?
      && Readable(BaseDict(r.value)["filter_conditions"]) == Null
      && Readable(BaseDict(r.value)["join_conditions"]) == Null
      && Readable(BaseDict(r.value)["group_by"]) == Null
      && Readable(BaseDict(r.value)["order_by"]) == Null
      && Readable(BaseDict(r.value)["limit"]) == Null
  {
    var r := NewQueryExplanation(intent, tables, columns, Omitted, Omitted, Omitted, Omitted, Omitted, summary);
    var f: FilterCondition -> Value := FilterValue;
    assert OptionalList(Some([]), f) == ListOf([]);
    var j: JoinCondition -> Value := JoinValue;
    assert OptionalList(Some([]), j) == ListOf([]);
    var g: string -> Value := (s: string) => Text(s);
    assert OptionalList(Some([]), g) == ListOf([]);
  }
}
