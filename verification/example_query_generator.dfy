/**
 * `ExampleQueryGenerator`: sample SQL statements over the parsed tables and
 * relationships. Every `random.choice` and `random.sample` is an arbitrary
 * choice (`:|`) constrained only by what the standard library guarantees,
 * so each property proved here holds whatever the random picks are.
 *
 * The statements are built as `Query` values and rendered to text at the
 * end; the properties of the generator are stated on the `Query` values.
 */
module ExampleQueries {
  import opened Wrappers
  import opened Text
  import opened OrderedMaps
  import opened SchemaModel
  import opened SchemaSearch
  import opened SchemaParsing

  const NoTablesMessage: string := "-- No tables found in schema to generate queries."

  /** The three lambdas handed to `_get_columns_by_type`. */
  datatype TypeClass = TextType | NumericType | DateType

  /** Whether a lower-cased SQL type belongs to the class: it contains one of the class's marker words. */
  predicate InClass(cls: TypeClass, lowerType: string)
  {
    match cls
    case TextType => Contains(lowerType, "char") || Contains(lowerType, "text") || Contains(lowerType, "varchar")
    case NumericType =>
      Contains(lowerType, "int") || Contains(lowerType, "num") || Contains(lowerType, "dec") || Contains(lowerType, "float")
      || Contains(lowerType, "double") || Contains(lowerType, "money") || Contains(lowerType, "real")
    case DateType => Contains(lowerType, "date") || Contains(lowerType, "time")
  }

  /** The names of the columns whose lower-cased type is in the class, in column order. */
  function ColumnsOfClass(columns: seq<Column>, cls: TypeClass): (r: seq<string>)
    ensures |r| <= |columns|
    decreases |columns|
  {
    if columns == [] then []
    else
      var prev := ColumnsOfClass(columns[..|columns| - 1], cls);
      var c := columns[|columns| - 1];
      if InClass(cls, LowerStr(c.typ)) then prev + [c.name] else prev
  }

  /** `_get_columns_by_type` (and `_get_text_columns` and its siblings): `[]` for an unknown table. */
  function ColumnsByType(tables: Tables, tableName: string, cls: TypeClass): (r: seq<string>)
    ensures tableName !in tables.entries ==> r == []
  {
    if tableName !in tables.entries then [] else ColumnsOfClass(tables.entries[tableName], cls)
  }

  /** A name is selected exactly when a column of that name has a type of the class. */
  lemma {:induction false} ColumnsOfClassMembers(columns: seq<Column>, cls: TypeClass)
    ensures forall x :: x in ColumnsOfClass(columns, cls) <==>
      exists c :: c in columns && c.name == x && InClass(cls, LowerStr(c.typ))
    decreases |columns|
  {
    if columns != [] {
      var n := |columns| - 1;
      ColumnsOfClassMembers(columns[..n], cls);
      assert forall x :: x in columns <==> x in columns[..n] || x == columns[n];
    }
  }

  /** `_get_columns_by_type` returns the names of exactly the table's columns whose type is of the class. */
  lemma ColumnsByTypeMembers(tables: Tables, tableName: string, cls: TypeClass)
    ensures tableName in tables.entries ==>
      forall x :: x in ColumnsByType(tables, tableName, cls) <==>
        exists c :: c in tables.entries[tableName] && c.name == x && InClass(cls, LowerStr(c.typ))
  {
    if tableName in tables.entries {
      ColumnsOfClassMembers(tables.entries[tableName], cls);
    }
  }

  /** The classifiers see the type after `lower()`: however a type is capitalised, its columns fall in the same classes. */
  lemma ClassIgnoresCase(columns: seq<Column>, cls: TypeClass)
    ensures ColumnsOfClass(UpperTypes(columns), cls) == ColumnsOfClass(columns, cls)
    decreases |columns|
  {
    if columns != [] {
      var n := |columns| - 1;
      assert UpperTypes(columns)[..n] == UpperTypes(columns[..n]);
      ClassIgnoresCase(columns[..n], cls);
      LowerOfUpper(columns[n].typ);
    }
  }

  /** The same columns with their types written in upper case. */
  function UpperTypes(columns: seq<Column>): (r: seq<Column>)
    ensures |r| == |columns|
    ensures forall i :: 0 <= i < |columns| ==> r[i] == Column(columns[i].name, UpperStr(columns[i].typ))
  {
    seq(|columns|, i requires 0 <= i < |columns| => Column(columns[i].name, UpperStr(columns[i].typ)))
  }

  /** The column names of a table: `[col['name'] for col in ...]`, `[]` for an unknown table. */
  function NamesOf(tables: Tables, tableName: string): (r: seq<string>)
    ensures tableName in tables.entries ==> r == ColumnNames(tables.entries[tableName])
  {
    if tableName in tables.entries then ColumnNames(tables.entries[tableName]) else []
  }

  /** What `random.sample(pool, k)` may return: `k` entries taken from distinct positions of `pool`. */
  predicate IsSample(picked: seq<string>, pool: seq<string>, k: nat)
  {
    |picked| == k && multiset(picked) <= multiset(pool)
  }

  lemma SampleExists(pool: seq<string>, k: nat)
    requires k <= |pool|
    ensures IsSample(pool[..k], pool, k)
  {
    assert pool == pool[..k] + pool[k..];
  }

  function Min(a: nat, b: nat): nat
  {
    if a <= b then a else b
  }

  /** `_get_random_columns(table_name, count)`: `min(len(columns), count)` names sampled from the table. */
  method RandomColumns(tables: Tables, tableName: string, count: nat) returns (picked: seq<string>)
    ensures tableName !in tables.entries ==> picked == []
    ensures IsSample(picked, NamesOf(tables, tableName), Min(|NamesOf(tables, tableName)|, count))
  {
    if tableName !in tables.entries {
      return [];
    }
    var available := NamesOf(tables, tableName);
    if available == [] {
      return [];
    }
    var k := Min(|available|, count);
    SampleExists(available, k);
    picked :| IsSample(picked, available, k);
  }

  /** A generated statement, before rendering. */
  datatype Query =
    | SelectAll(table: string)
    | SelectLike(columns: seq<string>, table: string, textColumn: string)
    | SelectRecent(columns: seq<string>, table: string, numColumn: string, dateColumn: string)
    | JoinPair(leftColumn: string, rightColumn: string, fromTable: string, toTable: string, fromColumn: string, toColumn: string)
    | CountAll(table: string)
    | SumBy(groupColumn: string, numColumn: string, table: string)
    | AvgBy(groupColumn: string, numColumn: string, table: string)
    | JoinChain(firstColumn: string, thirdColumn: string, t1: string, t2: string, t3: string,
                t1Key: string, t2KeyForT1: string, t2KeyForT3: string, t3Key: string)

  /** A table `_get_random_table` returns and the `if not table` guard lets through. */
  predicate UsableTable(tables: Tables, t: string)
  {
    t in tables.entries && t != ""
  }

  /** The columns of `SELECT col1, col2`: one or two names sampled from the table. */
  predicate SelectedColumns(tables: Tables, t: string, cols: seq<string>)
  {
    cols != [] && IsSample(cols, NamesOf(tables, t), Min(|NamesOf(tables, t)|, 2))
  }

  /** The grouping column of an aggregate: a text or date column when the table has one, else any other column. */
  predicate GroupColumn(tables: Tables, t: string, g: string, n: string)
  {
    var preferred := ColumnsByType(tables, t, TextType) + ColumnsByType(tables, t, DateType);
    if preferred != [] then g in preferred else g in NamesOf(tables, t) && g != n
  }

  /** What the guards of `generate_example_queries` ensure about each statement it emits. */
  ghost predicate ValidQuery(q: Query, tables: Tables, rels: seq<Relationship>)
  {
    match q
    case SelectAll(t) => UsableTable(tables, t)
    case SelectLike(cols, t, tc) =>
      UsableTable(tables, t) && SelectedColumns(tables, t, cols) && tc in ColumnsByType(tables, t, TextType)
    case SelectRecent(cols, t, nc, dc) =>
      UsableTable(tables, t) && SelectedColumns(tables, t, cols)
      && nc in ColumnsByType(tables, t, NumericType) && dc in ColumnsByType(tables, t, DateType)
    case JoinPair(c1, c2, from, to, fc, tc) =>
      Relationship(from, fc, to, tc) in rels && from in tables.entries && to in tables.entries
      && c1 in NamesOf(tables, from) && c2 in NamesOf(tables, to)
    case CountAll(t) => UsableTable(tables, t)
    case SumBy(g, n, t) => UsableTable(tables, t) && n in ColumnsByType(tables, t, NumericType) && GroupColumn(tables, t, g, n)
    case AvgBy(g, n, t) => UsableTable(tables, t) && n in ColumnsByType(tables, t, NumericType) && GroupColumn(tables, t, g, n)
    case JoinChain(c1, c3, t1, t2, t3, a, b, c, d) =>
      (exists i, j :: 0 <= i < |rels| && 0 <= j < |rels| && i != j
         && rels[i] == Relationship(t1, a, t2, b) && rels[j] == Relationship(t2, c, t3, d))
      && t1 != t3 && t1 in tables.entries && t2 in tables.entries && t3 in tables.entries
      && c1 in NamesOf(tables, t1) && c3 in NamesOf(tables, t3)
  }

  ghost predicate AllValid(qs: seq<Query>, tables: Tables, rels: seq<Relationship>)
  {
    forall q :: q in qs ==> ValidQuery(q, tables, rels)
  }

  /** Every SUM statement is immediately followed by the AVG statement over the same columns and table. */
  predicate SumAvgPaired(qs: seq<Query>)
  {
    forall i :: 0 <= i < |qs| && qs[i].SumBy? ==>
      i + 1 < |qs| && qs[i + 1] == AvgBy(qs[i].groupColumn, qs[i].numColumn, qs[i].table)
  }

  /** And every AVG statement is immediately preceded by its SUM statement. */
  predicate AvgAfterSum(qs: seq<Query>)
  {
    forall i :: 0 <= i < |qs| && qs[i].AvgBy? ==>
      0 < i && qs[i - 1] == SumBy(qs[i].groupColumn, qs[i].numColumn, qs[i].table)
  }

  lemma PairingAppend(a: seq<Query>, b: seq<Query>)
    requires SumAvgPaired(a) && AvgAfterSum(a) && SumAvgPaired(b) && AvgAfterSum(b)
    ensures SumAvgPaired(a + b) && AvgAfterSum(a + b)
  {
    forall i | 0 <= i < |a + b| && (a + b)[i].AvgBy?
      ensures 0 < i && (a + b)[i - 1] == SumBy((a + b)[i].groupColumn, (a + b)[i].numColumn, (a + b)[i].table)
    {
      if i >= |a| {
        assert (a + b)[i] == b[i - |a|];
        assert 0 < i - |a|;
      }
    }
  }

  lemma AllValidAppend(a: seq<Query>, b: seq<Query>, tables: Tables, rels: seq<Relationship>)
    requires AllValid(a, tables, rels) && AllValid(b, tables, rels)
    ensures AllValid(a + b, tables, rels)
  {
  }

  /** Whether a round over `t` emits the `LIKE` select: the table has columns, one of them textual. */
  predicate LikeApplies(tables: Tables, t: string)
  {
    NamesOf(tables, t) != [] && ColumnsByType(tables, t, TextType) != []
  }

  /** Whether a round over `t` emits the `ORDER BY` select: the table has columns, a numeric one and a date one. */
  predicate RecentApplies(tables: Tables, t: string)
  {
    NamesOf(tables, t) != [] && ColumnsByType(tables, t, NumericType) != [] && ColumnsByType(tables, t, DateType) != []
  }

  /** One round of section 1 for a picked table: `SELECT *`, then the `LIKE` and `ORDER BY` statements its columns allow. */
  method SelectRound(tables: Tables, rels: seq<Relationship>, table: string) returns (qs: seq<Query>)
    requires UsableTable(tables, table)
    ensures AllValid(qs, tables, rels)
    ensures forall q :: q in qs ==> q.SelectAll? || q.SelectLike? || q.SelectRecent?
    ensures |qs| == 1 + (if LikeApplies(tables, table) then 1 else 0) + (if RecentApplies(tables, table) then 1 else 0)
    ensures qs[0] == SelectAll(table)
    ensures LikeApplies(tables, table) ==> qs[1].SelectLike?
    ensures RecentApplies(tables, table) ==> qs[|qs| - 1].SelectRecent?
  {
    assert ValidQuery(SelectAll(table), tables, rels);
    qs := [SelectAll(table)];
    var cols := RandomColumns(tables, table, 2);
    assert cols != [] <==> NamesOf(tables, table) != [];
    var textCols := ColumnsByType(tables, table, TextType);
    if cols != [] && textCols != [] {
      assert textCols[0] in textCols;
      var textCol :| textCol in textCols;
      var q := SelectLike(cols, table, textCol);
      assert ValidQuery(q, tables, rels);
      qs := qs + [q];
    }
    var numericCols := ColumnsByType(tables, table, NumericType);
    var dateCols := ColumnsByType(tables, table, DateType);
    if cols != [] && numericCols != [] && dateCols != [] {
      assert numericCols[0] in numericCols;
      var numCol :| numCol in numericCols;
      assert dateCols[0] in dateCols;
      var dateCol :| dateCol in dateCols;
      var q := SelectRecent(cols, table, numCol, dateCol);
      assert ValidQuery(q, tables, rels);
      qs := qs + [q];
    }
  }

  lemma NoAggregatesPaired(qs: seq<Query>)
    requires forall q :: q in qs ==> !q.SumBy? && !q.AvgBy?
    ensures SumAvgPaired(qs) && AvgAfterSum(qs)
  {
    forall i | 0 <= i < |qs| ensures !qs[i].SumBy? && !qs[i].AvgBy? {
      assert qs[i] in qs;
    }
  }

  /** Section 1 of `generate_example_queries`: `SELECT *`, `LIKE` and `ORDER BY` statements. */
  method SimpleSelects(tables: Tables, rels: seq<Relationship>, perType: int) returns (qs: seq<Query>)
    requires tables.keys != []
    ensures AllValid(qs, tables, rels)
    ensures forall q :: q in qs ==> q.SelectAll? || q.SelectLike? || q.SelectRecent?
    ensures perType <= 0 ==> qs == []
    ensures "" !in tables.entries && perType > 0 ==> |qs| >= perType && qs[0].SelectAll?
  {
    qs := [];
    var round := 0;
    while round < perType
      invariant perType <= 0 ==> qs == []
      invariant AllValid(qs, tables, rels)
      invariant forall q :: q in qs ==> q.SelectAll? || q.SelectLike? || q.SelectRecent?
      invariant "" !in tables.entries ==> |qs| >= round
      invariant qs != [] ==> qs[0].SelectAll?
    {
      round := round + 1;
      assert tables.keys[0] in tables.keys;
      var table :| table in tables.keys;
      if table == "" {
        continue;
      }
      var more := SelectRound(tables, rels, table);
      AllValidAppend(qs, more, tables, rels);
      qs := qs + more;
    }
  }

  /** Section 2: a two-table JOIN along a relationship whose endpoint tables both exist and have columns. */
  method PairJoins(tables: Tables, rels: seq<Relationship>, perType: int) returns (qs: seq<Query>)
    ensures AllValid(qs, tables, rels)
    ensures forall q :: q in qs ==> q.JoinPair?
    ensures rels == [] ==> qs == []
    ensures perType <= 0 ==> qs == []
  {
    qs := [];
    var round := 0;
    while round < perType
      invariant perType <= 0 ==> qs == []
      invariant AllValid(qs, tables, rels)
      invariant forall q :: q in qs ==> q.JoinPair?
      invariant rels == [] ==> qs == []
    {
      round := round + 1;
      if rels == [] {
        continue;
      }
      assert rels[0] in rels;
      var rel :| rel in rels;
      if rel.sourceTable !in tables.entries || rel.targetTable !in tables.entries {
        continue;
      }
      var leftCols := RandomColumns(tables, rel.sourceTable, 1);
      var rightCols := RandomColumns(tables, rel.targetTable, 1);
      if leftCols != [] && rightCols != [] {
        assert leftCols[0] in multiset(NamesOf(tables, rel.sourceTable));
        assert rightCols[0] in multiset(NamesOf(tables, rel.targetTable));
        qs := qs + [JoinPair(leftCols[0], rightCols[0], rel.sourceTable, rel.targetTable, rel.sourceColumn, rel.targetColumn)];
      }
    }
  }

  /** One round of section 3 for a picked table: `COUNT(*)`, then a SUM and an AVG when it has a numeric column to aggregate. */
  method AggregateRound(tables: Tables, rels: seq<Relationship>, table: string) returns (qs: seq<Query>)
    requires UsableTable(tables, table)
    ensures AllValid(qs, tables, rels)
    ensures SumAvgPaired(qs) && AvgAfterSum(qs)
    ensures forall q :: q in qs ==> q.CountAll? || q.SumBy? || q.AvgBy?
    ensures |qs| >= 1 && qs[0] == CountAll(table)
    ensures |qs| == 1 || |qs| == 3
    ensures ColumnsByType(tables, table, NumericType) == [] ==> qs == [CountAll(table)]
    ensures (ColumnsByType(tables, table, NumericType) != []
             && ColumnsByType(tables, table, TextType) + ColumnsByType(tables, table, DateType) != []) ==> |qs| == 3
  {
    assert ValidQuery(CountAll(table), tables, rels);
    qs := [CountAll(table)];
    var numericCols := ColumnsByType(tables, table, NumericType);
    var allCols := NamesOf(tables, table);
    if numericCols != [] {
      assert numericCols[0] in numericCols;
      var numCol :| numCol in numericCols;
      var groupCols := ColumnsByType(tables, table, TextType) + ColumnsByType(tables, table, DateType);
      if groupCols == [] {
        groupCols := OtherColumns(allCols, numCol);
      }
      if groupCols != [] {
        assert groupCols[0] in groupCols;
        var groupCol :| groupCol in groupCols;
        assert GroupColumn(tables, table, groupCol, numCol);
        AggregateTriple(tables, rels, table, groupCol, numCol);
        qs := [CountAll(table), SumBy(groupCol, numCol, table), AvgBy(groupCol, numCol, table)];
      }
    }
  }

  /** The count, sum and average statements over a usable table and a grouping column are valid and paired. */
  lemma AggregateTriple(tables: Tables, rels: seq<Relationship>, table: string, groupCol: string, numCol: string)
    requires UsableTable(tables, table) && GroupColumn(tables, table, groupCol, numCol)
    requires numCol in ColumnsByType(tables, table, NumericType)
    ensures var qs := [CountAll(table), SumBy(groupCol, numCol, table), AvgBy(groupCol, numCol, table)];
      && AllValid(qs, tables, rels) && SumAvgPaired(qs) && AvgAfterSum(qs)
  {
    assert ValidQuery(SumBy(groupCol, numCol, table), tables, rels);
    assert ValidQuery(AvgBy(groupCol, numCol, table), tables, rels);
  }

  /** Section 3: `COUNT(*)`, then a SUM and an AVG over the same grouping and numeric columns. */
  method Aggregates(tables: Tables, rels: seq<Relationship>, perType: int) returns (qs: seq<Query>)
    requires tables.keys != []
    ensures AllValid(qs, tables, rels)
    ensures SumAvgPaired(qs) && AvgAfterSum(qs)
    ensures forall q :: q in qs ==> q.CountAll? || q.SumBy? || q.AvgBy?
    ensures perType <= 0 ==> qs == []
    ensures "" !in tables.entries && perType > 0 ==> |qs| >= perType && qs[0].CountAll?
  {
    qs := [];
    var round := 0;
    while round < perType
      invariant perType <= 0 ==> qs == []
      invariant AllValid(qs, tables, rels)
      invariant SumAvgPaired(qs) && AvgAfterSum(qs)
      invariant forall q :: q in qs ==> q.CountAll? || q.SumBy? || q.AvgBy?
      invariant "" !in tables.entries ==> |qs| >= round
      invariant qs != [] ==> qs[0].CountAll?
    {
      round := round + 1;
      assert tables.keys[0] in tables.keys;
      var table :| table in tables.keys;
      if table == "" {
        continue;
      }
      var more := AggregateRound(tables, rels, table);
      AllValidAppend(qs, more, tables, rels);
      PairingAppend(qs, more);
      qs := qs + more;
    }
  }

  /** `[col for col in all_cols if col != num_col]`. */
  function OtherColumns(names: seq<string>, excluded: string): (r: seq<string>)
    ensures forall x :: x in r <==> x in names && x != excluded
    decreases |names|
  {
    if names == [] then []
    else
      assert forall x :: x in names <==> x == names[0] || x in names[1..];
      (if names[0] != excluded then [names[0]] else []) + OtherColumns(names[1..], excluded)
  }

  /** Section 4: a three-table JOIN along two distinct relationships that chain through a middle table. */
  method ChainJoins(tables: Tables, rels: seq<Relationship>, perType: int) returns (qs: seq<Query>)
    ensures AllValid(qs, tables, rels)
    ensures forall q :: q in qs ==> q.JoinChain?
    ensures |rels| < 2 || perType <= 0 ==> qs == []
    ensures perType <= 0 ==> qs == []
  {
    qs := [];
    if |rels| >= 2 && perType > 0 {
      var attempts := if perType <= |rels| - 1 then perType else |rels| - 1;
      var round := 0;
      while round < attempts
        invariant AllValid(qs, tables, rels)
        invariant forall q :: q in qs ==> q.JoinChain?
      {
        round := round + 1;
        var i, j :| 0 <= i < |rels| && 0 <= j < |rels| && i != j;
        var rel1, rel2 := rels[i], rels[j];
        if rel1.targetTable == rel2.sourceTable && rel1.sourceTable != rel2.targetTable {
          var t1, t2, t3 := rel1.sourceTable, rel1.targetTable, rel2.targetTable;
          if !(t1 in tables.entries && t2 in tables.entries && t3 in tables.entries) {
            continue;
          }
          var firstCols := RandomColumns(tables, t1, 1);
          var thirdCols := RandomColumns(tables, t3, 1);
          if firstCols != [] && thirdCols != [] {
            assert firstCols[0] in multiset(NamesOf(tables, t1));
            assert thirdCols[0] in multiset(NamesOf(tables, t3));
            var q := JoinChain(firstCols[0], thirdCols[0], t1, t2, t3,
              rel1.sourceColumn, rel1.targetColumn, rel2.sourceColumn, rel2.targetColumn);
            assert rels[i] == Relationship(t1, rel1.sourceColumn, t2, rel1.targetColumn);
            qs := qs + [q];
          }
        }
      }
    }
  }

  const Limit10: string := " LIMIT 10;"

  /** The SQL text of a statement, as the f-strings of `generate_example_queries` write it. */
  function Render(q: Query): string
  {
    match q
    case SelectAll(t) => Join("", ["SELECT * FROM ", t, Limit10])
    case SelectLike(cols, t, tc) =>
      Join("", ["SELECT ", Join(", ", cols), " FROM ", t, " WHERE ", tc, " LIKE '%sample%'", Limit10])
    case SelectRecent(cols, t, nc, dc) =>
      Join("", ["SELECT ", Join(", ", cols), " FROM ", t, " WHERE ", nc, " > 100 ORDER BY ", dc, " DESC", Limit10])
    case JoinPair(c1, c2, from, to, fc, tc) =>
      Join("", ["SELECT T1.", c1, ", T2.", c2, " FROM ", from, " T1 JOIN ", to, " T2 ON T1.", fc, " = T2.", tc, Limit10])
    case CountAll(t) => Join("", ["SELECT COUNT(*) FROM ", t, ";"])
    case SumBy(g, n, t) => Join("", ["SELECT ", g, ", SUM(", n, ") FROM ", t, " GROUP BY ", g, ";"])
    case AvgBy(g, n, t) => Join("", ["SELECT ", g, ", AVG(", n, ") FROM ", t, " GROUP BY ", g, ";"])
    case JoinChain(c1, c3, t1, t2, t3, a, b, c, d) =>
      Join("", ["SELECT T1.", c1, ", T3.", c3, " FROM ", t1, " T1 JOIN ", t2, " T2 ON T1.", a, " = T2.", b,
        " JOIN ", t3, " T3 ON T2.", c, " = T3.", d, Limit10])
  }

  function RenderAll(qs: seq<Query>): (r: seq<string>)
    ensures |r| == |qs|
    ensures forall i :: 0 <= i < |qs| ==> r[i] == Render(qs[i])
  {
    seq(|qs|, i requires 0 <= i < |qs| => Render(qs[i]))
  }

  /** `[q for q in queries if not (q in seen or seen.add(q))]`: each text at its first occurrence. */
  function FirstOccurrences(xs: seq<string>): (r: seq<string>)
    ensures forall x :: x in r <==> x in xs
    decreases |xs|
  {
    if xs == [] then []
    else
      var prefix := xs[..|xs| - 1];
      var last := xs[|xs| - 1];
      assert forall x :: x in xs <==> x in prefix || x == last;
      if last in prefix then FirstOccurrences(prefix) else FirstOccurrences(prefix) + [last]
  }

  predicate Distinct(xs: seq<string>)
  {
    forall i, j :: 0 <= i < j < |xs| ==> xs[i] != xs[j]
  }

  /** The position of the first occurrence of `x` in `xs`. */
  function FirstIndex(xs: seq<string>, x: string): (k: nat)
    requires x in xs
    ensures k < |xs| && xs[k] == x && forall j :: 0 <= j < k ==> xs[j] != x
  {
    if xs[0] == x then 0 else 1 + FirstIndex(xs[1..], x)
  }

  /** The de-duplicated list has no repeats, and keeps the texts in the order of their first occurrences. */
  lemma {:induction false} FirstOccurrencesOrdered(xs: seq<string>)
    ensures Distinct(FirstOccurrences(xs))
    ensures forall i, j :: 0 <= i < j < |FirstOccurrences(xs)| ==>
      FirstIndex(xs, FirstOccurrences(xs)[i]) < FirstIndex(xs, FirstOccurrences(xs)[j])
    decreases |xs|
  {
    if xs != [] {
      var n := |xs| - 1;
      var prefix := xs[..n];
      FirstOccurrencesOrdered(prefix);
      var d := FirstOccurrences(prefix);
      forall x | x in prefix ensures FirstIndex(xs, x) == FirstIndex(prefix, x) {
        FirstIndexPrefix(prefix, xs[n], x);
        assert prefix + [xs[n]] == xs;
      }
      if xs[n] !in prefix {
        assert FirstIndex(xs, xs[n]) == n by {
          assert prefix + [xs[n]] == xs;
          FirstIndexLast(prefix, xs[n]);
        }
      }
    }
  }

  lemma {:induction false} FirstIndexPrefix(xs: seq<string>, y: string, x: string)
    requires x in xs
    ensures FirstIndex(xs + [y], x) == FirstIndex(xs, x)
    decreases |xs|
  {
    if xs[0] != x {
      assert (xs + [y])[1..] == xs[1..] + [y];
      FirstIndexPrefix(xs[1..], y, x);
    }
  }

  lemma {:induction false} FirstIndexLast(xs: seq<string>, y: string)
    requires y !in xs
    ensures FirstIndex(xs + [y], y) == |xs|
    decreases |xs|
  {
    if xs != [] {
      assert (xs + [y])[1..] == xs[1..] + [y];
      FirstIndexLast(xs[1..], y);
    }
  }

  /** The de-duplicating comprehension and its `seen` set. */
  method Dedupe(xs: seq<string>) returns (unique: seq<string>)
    ensures unique == FirstOccurrences(xs)
  {
    var seen: set<string> := {};
    unique := [];
    for i := 0 to |xs|
      invariant unique == FirstOccurrences(xs[..i])
      invariant seen == set x | x in xs[..i]
    {
      assert xs[..i + 1][..i] == xs[..i];
      if xs[i] !in seen {
        seen := seen + {xs[i]};
        unique := unique + [xs[i]];
      } else {
        seen := seen + {xs[i]};
      }
    }
    assert xs[..|xs|] == xs;
  }

  /**
   * `generate_example_queries(num_queries_per_type)`: the fixed message for
   * a schema without tables; otherwise the rendered statements of the four
   * sections, de-duplicated. Whatever the random picks, every statement
   * passed its section's guards and every SUM comes paired with its AVG.
   */
  method GenerateExampleQueries(tables: Tables, rels: seq<Relationship>, perType: int)
    returns (queries: seq<string>, ghost generated: seq<Query>)
    ensures tables.keys == [] ==> queries == [NoTablesMessage]
    ensures tables.keys != [] ==>
      && queries == FirstOccurrences(RenderAll(generated))
      && AllValid(generated, tables, rels)
      && SumAvgPaired(generated) && AvgAfterSum(generated)
    ensures tables.keys != [] && perType <= 0 ==> queries == []
    ensures tables.keys != [] && perType > 0 && "" !in tables.entries ==>
      exists t :: UsableTable(tables, t) && Render(SelectAll(t)) in queries
  {
    if tables.keys == [] {
      return [NoTablesMessage], [];
    }
    var selects := SimpleSelects(tables, rels, perType);
    var pairs := PairJoins(tables, rels, perType);
    var aggregates := Aggregates(tables, rels, perType);
    var chains := ChainJoins(tables, rels, perType);
    SectionsCombine(selects, pairs, aggregates, chains, tables, rels);
    var all := selects + pairs + aggregates + chains;
    generated := all;
    var texts := RenderQueries(all);
    queries := Dedupe(texts);
    if perType <= 0 {
      assert all == [];
    }
    if perType > 0 && "" !in tables.entries {
      assert all[0] == selects[0] && all[0] in all;
      assert ValidQuery(all[0], tables, rels);
      assert texts[0] == Render(SelectAll(all[0].table)) && texts[0] in texts;
    }
  }

  /** The four sections together keep every section's validity, and the pairing the aggregates keep. */
  lemma SectionsCombine(selects: seq<Query>, pairs: seq<Query>, aggregates: seq<Query>, chains: seq<Query>,
                        tables: Tables, rels: seq<Relationship>)
    requires AllValid(selects, tables, rels) && AllValid(pairs, tables, rels)
    requires AllValid(aggregates, tables, rels) && AllValid(chains, tables, rels)
    requires forall q :: q in selects ==> q.SelectAll? || q.SelectLike? || q.SelectRecent?
    requires forall q :: q in pairs ==> q.JoinPair?
    requires forall q :: q in chains ==> q.JoinChain?
    requires SumAvgPaired(aggregates) && AvgAfterSum(aggregates)
    ensures var all := selects + pairs + aggregates + chains;
      AllValid(all, tables, rels) && SumAvgPaired(all) && AvgAfterSum(all)
  {
    NoAggregatesPaired(selects);
    NoAggregatesPaired(pairs);
    NoAggregatesPaired(chains);
    PairingAppend(selects, pairs);
    PairingAppend(selects + pairs, aggregates);
    PairingAppend(selects + pairs + aggregates, chains);
    AllValidAppend(selects, pairs, tables, rels);
    AllValidAppend(selects + pairs, aggregates, tables, rels);
    AllValidAppend(selects + pairs + aggregates, chains, tables, rels);
  }

  /** `[q.text for q in ...]`, one statement at a time. */
  method RenderQueries(qs: seq<Query>) returns (texts: seq<string>)
    ensures texts == RenderAll(qs)
  {
    texts := [];
    for i := 0 to |qs|
      invariant texts == RenderAll(qs[..i])
    {
      texts := texts + [Render(qs[i])];
    }
    assert qs[..|qs|] == qs;
  }

  /** The generated list never repeats a statement, and keeps the first occurrence of each. */
  lemma GeneratedDistinct(generated: seq<Query>)
    ensures Distinct(FirstOccurrences(RenderAll(generated)))
    ensures forall q :: q in generated ==> Render(q) in FirstOccurrences(RenderAll(generated))
  {
    FirstOccurrencesOrdered(RenderAll(generated));
    forall q | q in generated ensures Render(q) in RenderAll(generated) {
      var i :| 0 <= i < |generated| && generated[i] == q;
    }
  }

  /** `_get_random_columns` as written: a table the parser stored (a plain list) cannot be subscripted with `'columns'`. */
  function RandomColumnsAsWritten(data: Dict<TableData>, tableName: string): Result<seq<string>, LookupError>
  {
    if tableName !in data.entries then Ok([])
    else match ColumnsField(data.entries[tableName])
      case Err(e) => Err(e)
      case Ok(columns) => Ok(ColumnNames(columns))
  }

  /**
   * As written, `_get_random_columns` (and `_get_columns_by_type`, which
   * subscripts the same way) fails for every table the parser stored, while
   * the corrected `NamesOf` reads the list itself.
   */
  lemma RandomColumnsAsWrittenFails(tables: Tables, tableName: string)
    requires tableName in tables.entries
    ensures RandomColumnsAsWritten(MapValues(tables, (columns: seq<Column>) => ColumnList(columns)), tableName) == Err(TypeError)
    ensures NamesOf(tables, tableName) == ColumnNames(tables.entries[tableName])
  {
    var data := MapValues(tables, (columns: seq<Column>) => ColumnList(columns));
    assert data.entries[tableName] == ColumnList(tables.entries[tableName]);
  }
}
