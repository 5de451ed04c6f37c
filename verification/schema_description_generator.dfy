/**
 * `SchemaDescriptionGenerator`: one natural-language description per table
 * and one per column of the tables `SchemaParser` parsed.
 *
 * The generator reads `table_data['columns']` for each table, but the parser
 * stores a table as the plain list of its columns. `TableData` models the two
 * shapes so that the code as written (`TableDescriptionsAsWritten`) and the
 * evidently intended iteration over the list (`TableDescriptions`,
 * `ColumnDescriptions`) can be stated side by side.
 */
module SchemaDescriptions {
  import opened Wrappers
  import opened Text
  import opened OrderedMaps
  import opened SchemaModel
  import opened SchemaSearch
  import opened SchemaParsing

  /** One entry of the returned list: `{'type': 'table', ...}` or `{'type': 'column', ...}`. */
  datatype Description =
    | TableDescription(tableName: string, content: string)
    | ColumnDescription(tableName: string, columnName: string, content: string)

  const TablePrefix: string := "Table '"
  const TableInfix: string := "' contains columns: "
  const ColumnPrefix: string := "Column '"
  const ColumnInTable: string := "' in table '"
  const ColumnRepresents: string := "' represents the "
  const ColumnOfThe: string := " of the "

  /** `f"{col['name']} ({col['type']})"`. */
  function ColumnEntry(c: Column): string
  {
    Join("", [c.name, " (", c.typ, ")"])
  }

  function ColumnEntries(columns: seq<Column>): (r: seq<string>)
    ensures |r| == |columns|
    ensures forall i :: 0 <= i < |columns| ==> r[i] == ColumnEntry(columns[i])
  {
    seq(|columns|, i requires 0 <= i < |columns| => ColumnEntry(columns[i]))
  }

  /** `f"Table '{table_name}' contains columns: {columns_str}"`. */
  function TableContent(tableName: string, columns: seq<Column>): string
  {
    Join("", [TablePrefix, tableName, TableInfix, Join(", ", ColumnEntries(columns))])
  }

  /** `f"Column '{c}' in table '{t}' represents the {c.lower()} of the {t}."`. */
  function ColumnContent(tableName: string, columnName: string): string
  {
    Join("", [ColumnPrefix, columnName, ColumnInTable, tableName, ColumnRepresents, LowerStr(columnName), ColumnOfThe, tableName, "."])
  }

  /** The descriptions of the first `n` tables, one per table, in map order. */
  function TableDescriptionsUpTo(tables: Tables, n: nat): (r: seq<Description>)
    requires n <= |tables.keys|
    ensures |r| == n
    ensures forall i :: 0 <= i < n ==>
      r[i] == TableDescription(tables.keys[i], TableContent(tables.keys[i], tables.entries[tables.keys[i]]))
  {
    seq(n, i requires 0 <= i < n => TableDescription(tables.keys[i], TableContent(tables.keys[i], tables.entries[tables.keys[i]])))
  }

  function TableDescriptions(tables: Tables): seq<Description>
  {
    TableDescriptionsUpTo(tables, |tables.keys|)
  }

  /** The descriptions of the given columns of one table, in column order. */
  function ColumnDescriptionsOf(tableName: string, columns: seq<Column>): (r: seq<Description>)
    ensures |r| == |columns|
    decreases |columns|
  {
    if columns == [] then []
    else
      var c := columns[|columns| - 1];
      ColumnDescriptionsOf(tableName, columns[..|columns| - 1]) + [ColumnDescription(tableName, c.name, ColumnContent(tableName, c.name))]
  }

  /** The column descriptions of the first `n` tables: table by table, each in column order. */
  function ColumnDescriptionsUpTo(tables: Tables, n: nat): seq<Description>
    requires n <= |tables.keys|
  {
    if n == 0 then []
    else
      var t := tables.keys[n - 1];
      ColumnDescriptionsUpTo(tables, n - 1) + ColumnDescriptionsOf(t, tables.entries[t])
  }

  function ColumnDescriptions(tables: Tables): seq<Description>
  {
    ColumnDescriptionsUpTo(tables, |tables.keys|)
  }

  /** What `get_all_descriptions` returns: the table descriptions, then the column descriptions. */
  function AllDescriptions(tables: Tables): seq<Description>
  {
    TableDescriptions(tables) + ColumnDescriptions(tables)
  }

  /** `get_table_descriptions` over the parser's tables, iterating over each table's column list. */
  method GetTableDescriptions(tables: Tables) returns (descriptions: seq<Description>)
    ensures descriptions == TableDescriptions(tables)
  {
    descriptions := [];
    for i := 0 to |tables.keys|
      invariant descriptions == TableDescriptionsUpTo(tables, i)
    {
      var t := tables.keys[i];
      var content := TableContent(t, tables.entries[t]);
      descriptions := descriptions + [TableDescription(t, content)];
    }
  }

  /** `get_column_descriptions` over the parser's tables: the nested loop over tables and their columns. */
  method GetColumnDescriptions(tables: Tables) returns (descriptions: seq<Description>)
    ensures descriptions == ColumnDescriptions(tables)
  {
    descriptions := [];
    for i := 0 to |tables.keys|
      invariant descriptions == ColumnDescriptionsUpTo(tables, i)
    {
      var t := tables.keys[i];
      var columns := tables.entries[t];
      ghost var before := descriptions;
      for j := 0 to |columns|
        invariant descriptions == before + ColumnDescriptionsOf(t, columns[..j])
      {
        assert columns[..j + 1][..j] == columns[..j];
        var name := columns[j].name;
        descriptions := descriptions + [ColumnDescription(t, name, ColumnContent(t, name))];
      }
      assert columns[..|columns|] == columns;
    }
  }

  /** `get_all_descriptions`: one description per table and one per column. */
  method GetAllDescriptions(tables: Tables) returns (descriptions: seq<Description>)
    ensures descriptions == AllDescriptions(tables)
    ensures |descriptions| == |tables.keys| + ColumnCount(tables, |tables.keys|)
  {
    var tableDescriptions := GetTableDescriptions(tables);
    var columnDescriptions := GetColumnDescriptions(tables);
    descriptions := [];
    descriptions := descriptions + tableDescriptions;
    descriptions := descriptions + columnDescriptions;
    AllDescriptionsCount(tables);
  }

  /** Each table gets exactly one table description, at its position in the map. */
  lemma TableDescriptionsOnePerTable(tables: Tables, t: string)
    ensures t in tables.entries ==>
      exists i :: 0 <= i < |TableDescriptions(tables)| && TableDescriptions(tables)[i] == TableDescription(t, TableContent(t, tables.entries[t]))
    ensures forall i, j :: 0 <= i < j < |TableDescriptions(tables)| ==>
      TableDescriptions(tables)[i].tableName != TableDescriptions(tables)[j].tableName
    ensures forall d :: d in TableDescriptions(tables) ==> d.tableName in tables.entries
  {
    if t in tables.entries {
      var i :| 0 <= i < |tables.keys| && tables.keys[i] == t;
      assert TableDescriptions(tables)[i] == TableDescription(t, TableContent(t, tables.entries[t]));
    }
  }

  /** The column descriptions of one table: one per column, in order, each naming the table and that column. */
  lemma {:induction false} ColumnDescriptionsOfAt(tableName: string, columns: seq<Column>, i: nat)
    requires i < |columns|
    ensures ColumnDescriptionsOf(tableName, columns)[i]
      == ColumnDescription(tableName, columns[i].name, ColumnContent(tableName, columns[i].name))
    decreases |columns|
  {
    var n := |columns| - 1;
    if i < n {
      ColumnDescriptionsOfAt(tableName, columns[..n], i);
      assert columns[..n][i] == columns[i];
    }
  }

  /** The number of column descriptions is the total number of columns. */
  lemma {:induction false} ColumnDescriptionsCount(tables: Tables, n: nat)
    requires n <= |tables.keys|
    ensures |ColumnDescriptionsUpTo(tables, n)| == ColumnCount(tables, n)
  {
    if n > 0 {
      ColumnDescriptionsCount(tables, n - 1);
    }
  }

  /** `get_all_descriptions` has as many entries as there are tables plus columns. */
  lemma AllDescriptionsCount(tables: Tables)
    ensures |AllDescriptions(tables)| == |tables.keys| + ColumnCount(tables, |tables.keys|)
  {
    ColumnDescriptionsCount(tables, |tables.keys|);
  }

  /**
   * Every column description names a table of the schema and one of that
   * table's columns, and carries that column's content.
   */
  lemma {:induction false} ColumnDescriptionsSound(tables: Tables, n: nat)
    requires n <= |tables.keys|
    ensures forall d :: d in ColumnDescriptionsUpTo(tables, n) ==>
      d.ColumnDescription? && d.tableName in tables.entries
      && (exists c :: c in tables.entries[d.tableName] && c.name == d.columnName)
      && d.content == ColumnContent(d.tableName, d.columnName)
  {
    if n > 0 {
      ColumnDescriptionsSound(tables, n - 1);
      var t := tables.keys[n - 1];
      var columns := tables.entries[t];
      forall d | d in ColumnDescriptionsOf(t, columns)
        ensures d.ColumnDescription? && d.tableName in tables.entries
          && (exists c :: c in tables.entries[d.tableName] && c.name == d.columnName)
          && d.content == ColumnContent(d.tableName, d.columnName)
      {
        var i :| 0 <= i < |ColumnDescriptionsOf(t, columns)| && ColumnDescriptionsOf(t, columns)[i] == d;
        ColumnDescriptionsOfAt(t, columns, i);
        assert columns[i] in tables.entries[d.tableName];
      }
    }
  }

  /** Every column of every table has its column description. */
  lemma {:induction false} ColumnDescriptionsComplete(tables: Tables, n: nat, t: string, c: Column)
    requires n <= |tables.keys|
    requires t in tables.keys[..n] && c in tables.entries[t]
    ensures ColumnDescription(t, c.name, ColumnContent(t, c.name)) in ColumnDescriptionsUpTo(tables, n)
  {
    var last := tables.keys[n - 1];
    if t == last {
      var i :| 0 <= i < |tables.entries[t]| && tables.entries[t][i] == c;
      ColumnDescriptionsOfAt(t, tables.entries[t], i);
      assert ColumnDescriptionsOf(t, tables.entries[t])[i] == ColumnDescription(t, c.name, ColumnContent(t, c.name));
    } else {
      assert t in tables.keys[..n - 1] by {
        var k :| 0 <= k < n && tables.keys[..n][k] == t;
        assert tables.keys[..n - 1][k] == t;
      }
      ColumnDescriptionsComplete(tables, n - 1, t, c);
    }
  }

  /** The values the parser stores: each table's plain column list. */
  function StoredTables(tables: Tables): (r: Dict<TableData>)
    ensures r.keys == tables.keys
    ensures forall t :: t in tables.entries ==> t in r.entries && r.entries[t] == ColumnList(tables.entries[t])
  {
    MapValues(tables, (columns: seq<Column>) => ColumnList(columns))
  }

  /**
   * `get_table_descriptions` as written, over the tables from index `i` on:
   * each table's value is subscripted with `'columns'`.
   */
  function TableDescriptionsAsWritten(data: Dict<TableData>, i: nat): Result<seq<Description>, LookupError>
    requires i <= |data.keys|
    decreases |data.keys| - i
  {
    if i == |data.keys| then Ok([])
    else
      var t := data.keys[i];
      match ColumnsField(data.entries[t])
      case Err(e) => Err(e)
      case Ok(columns) =>
        match TableDescriptionsAsWritten(data, i + 1)
        case Err(e) => Err(e)
        case Ok(rest) => Ok([TableDescription(t, TableContent(t, columns))] + rest)
  }

  /** As written, the generator fails on every parsed schema that has a table, and returns nothing otherwise. */
  lemma AsWrittenFailsOnAnyTable(tables: Tables)
    ensures tables.keys == [] ==> TableDescriptionsAsWritten(StoredTables(tables), 0) == Ok([])
    ensures tables.keys != [] ==> TableDescriptionsAsWritten(StoredTables(tables), 0) == Err(TypeError)
  {
    var data := StoredTables(tables);
    if tables.keys != [] {
      assert data.entries[data.keys[0]] == ColumnList(tables.entries[tables.keys[0]]);
    }
  }

  /**
   * Had each table been stored as `{'columns': [...]}`, the code as written
   * would give exactly the corrected descriptions: the intended reading.
   */
  lemma {:induction false} AsWrittenOnColumnsField(tables: Tables, data: Dict<TableData>, i: nat)
    requires data.keys == tables.keys && i <= |tables.keys|
    requires forall t :: t in tables.entries ==> data.entries[t] == FieldMap(map["columns" := tables.entries[t]])
    ensures TableDescriptionsAsWritten(data, i) == Ok(TableDescriptions(tables)[i..])
    decreases |tables.keys| - i
  {
    if i < |tables.keys| {
      AsWrittenOnColumnsField(tables, data, i + 1);
      AsWrittenStep(tables, data, i);
    } else {
      assert TableDescriptionsAsWritten(data, i) == Ok([]);
      assert TableDescriptions(tables)[i..] == [];
    }
  }

  /** One table of `AsWrittenOnColumnsField`: its description, then the rest. */
  lemma AsWrittenStep(tables: Tables, data: Dict<TableData>, i: nat)
    requires data.keys == tables.keys && i < |tables.keys|
    requires forall t :: t in tables.entries ==> data.entries[t] == FieldMap(map["columns" := tables.entries[t]])
    requires TableDescriptionsAsWritten(data, i + 1) == Ok(TableDescriptions(tables)[i + 1..])
    ensures TableDescriptionsAsWritten(data, i) == Ok(TableDescriptions(tables)[i..])
  {
    var t := tables.keys[i];
    var ds := TableDescriptions(tables);
    assert t in tables.entries;
    assert ColumnsField(data.entries[t]) == Ok(tables.entries[t]);
    assert ds[i] == TableDescription(t, TableContent(t, tables.entries[t]));
    DropOne(ds, i);
  }

  /** A suffix is its first element followed by the next suffix. */
  lemma DropOne<T>(xs: seq<T>, i: nat)
    requires i < |xs|
    ensures xs[i..] == [xs[i]] + xs[i + 1..]
  {
  }

  /** `get_column_descriptions` as written, over the tables from index `i` on. */
  function ColumnDescriptionsAsWritten(data: Dict<TableData>, i: nat): Result<seq<Description>, LookupError>
    requires i <= |data.keys|
    decreases |data.keys| - i
  {
    if i == |data.keys| then Ok([])
    else
      var t := data.keys[i];
      match ColumnsField(data.entries[t])
      case Err(e) => Err(e)
      case Ok(columns) =>
        match ColumnDescriptionsAsWritten(data, i + 1)
        case Err(e) => Err(e)
        case Ok(rest) => Ok(ColumnDescriptionsOf(t, columns) + rest)
  }

  /** The column descriptions as written fail the same way, on the first table. */
  lemma ColumnsAsWrittenFailsOnAnyTable(tables: Tables)
    ensures tables.keys == [] ==> ColumnDescriptionsAsWritten(StoredTables(tables), 0) == Ok([])
    ensures tables.keys != [] ==> ColumnDescriptionsAsWritten(StoredTables(tables), 0) == Err(TypeError)
  {
    var data := StoredTables(tables);
    if tables.keys != [] {
      assert data.entries[data.keys[0]] == ColumnList(tables.entries[tables.keys[0]]);
    }
  }

  /** A schema with one table of one column: the code as written fails where the corrected one describes the table. */
  lemma OneTableCounterexample()
    ensures var tables := Put(Empty(), "Claims", [Column("Claim_ID", "INT")]);
      && TableDescriptionsAsWritten(StoredTables(tables), 0) == Err(TypeError)
      && TableDescriptions(tables) == [TableDescription("Claims", TableContent("Claims", [Column("Claim_ID", "INT")]))]
  {
    var tables := Put(Empty(), "Claims", [Column("Claim_ID", "INT")]);
    AsWrittenFailsOnAnyTable(tables);
  }
}
