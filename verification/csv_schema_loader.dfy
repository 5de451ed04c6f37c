/**
 * `CSVSchemaLoader`: the table, column and join descriptions read from three
 * CSV files. A file is given as the rows `csv.DictReader` produced from it
 * (a mapping from header to cell text); reading and decoding are not part of
 * this model.
 */
module CsvSchemaLoading {
  import opened Wrappers
  import opened Text
  import opened OrderedMaps

  /** One CSV row: header to cell text. A header the row lacks reads as "". */
  type Row = map<string, string>

  const TablesFile: string := "table_related_information.csv"
  const ColumnsFile: string := "column_related_information.csv"
  const JoinsFile: string := "join_related_information.csv"

  /** `rec.get(key, '').strip()`. */
  function Cell(rec: Row, key: string): string
  {
    Strip(if key in rec then rec[key] else "")
  }

  datatype TableInfo = TableInfo(sourceDatabase: string, name: string, category: string, description: string)

  datatype ColumnInfo = ColumnInfo(
    databaseName: string, tableName: string, columnName: string, dataType: string,
    description: string, validValues: string, connectPortalOnly: string, correspondingMapTable: string)

  datatype JoinInfo = JoinInfo(
    sourceDatabase: string, primaryTableSchema: string, primaryTableName: string, primaryTableColumn: string,
    relationshipType: string, foreignTableSchema: string, foreignTableName: string, foreignTableColumn: string,
    joinDescription: string)

  /** `FileNotFoundError` for a CSV file missing from the data folder. */
  datatype LoadError = FileNotFound(fileName: string)

  const KeySourceDatabase: string := "Source_database"
  const KeyTableName: string := "table_name"
  const KeyTableCategory: string := "Table_category"
  const KeyDescription: string := "Description"

  /** The `TableInfo` of a row of the tables file. */
  function TableRow(rec: Row): TableInfo
  {
    TableInfo(Cell(rec, KeySourceDatabase), Cell(rec, KeyTableName), Cell(rec, KeyTableCategory), Cell(rec, KeyDescription))
  }

  const KeyDatabaseName: string := "Database_name"
  const KeyColumnTable: string := "Table_name"
  const KeyColumnName: string := "column_name"
  const KeySqlFormat: string := "SQL_FORMAT"
  const KeyColumnDescription: string := "Description (a very descriptive one)"
  const KeyValidValues: string := "Valid_values"
  const KeyPortalOnly: string := "Connect_portal_only"
  const KeyMapTable: string := "corresponding_map_table"

  /** The `ColumnInfo` of a row of the columns file. */
  function ColumnRow(rec: Row): ColumnInfo
  {
    ColumnInfo(Cell(rec, KeyDatabaseName), Cell(rec, KeyColumnTable), Cell(rec, KeyColumnName), Cell(rec, KeySqlFormat),
      Cell(rec, KeyColumnDescription), Cell(rec, KeyValidValues), Cell(rec, KeyPortalOnly), Cell(rec, KeyMapTable))
  }

  const KeyJoinSource: string := "Source_Database"
  const KeyPrimarySchema: string := "Primary_Table_Schema"
  const KeyPrimaryName: string := "Primary_Table_Name"
  const KeyPrimaryColumn: string := "Primary_Table_Column"
  const KeyRelationshipType: string := "Relationship_Type"
  const KeyForeignSchema: string := "Foreign_Table_Schema"
  const KeyForeignName: string := "Foreign_Table_Name"
  const KeyForeignColumn: string := "Foreign_Table_Column"
  const KeyJoinDescription: string := "Join_Description"

  /** The `JoinInfo` of a row of the joins file. */
  function JoinRow(rec: Row): JoinInfo
  {
    JoinInfo(Cell(rec, KeyJoinSource), Cell(rec, KeyPrimarySchema), Cell(rec, KeyPrimaryName), Cell(rec, KeyPrimaryColumn),
      Cell(rec, KeyRelationshipType), Cell(rec, KeyForeignSchema), Cell(rec, KeyForeignName), Cell(rec, KeyForeignColumn),
      Cell(rec, KeyJoinDescription))
  }

  /** A column row is kept when its table, column name and SQL type are all present. */
  predicate EssentialColumn(c: ColumnInfo)
  {
    c.tableName != "" && c.columnName != "" && c.dataType != ""
  }

  /** A join row is kept when both tables and both columns are present. */
  predicate EssentialJoin(j: JoinInfo)
  {
    j.primaryTableName != "" && j.primaryTableColumn != "" && j.foreignTableName != "" && j.foreignTableColumn != ""
  }

  /** The table map after loading `records` into `d`: each named row assigned under its name. */
  function TablesFrom(d: Dict<TableInfo>, records: seq<Row>): Dict<TableInfo>
  {
    NamedFrom(d, records, TableRow)
  }

  /** Assigning, row by row, each row's record under its name, skipping rows without a name. */
  function NamedFrom<R>(d: Dict<TableInfo>, rows: seq<R>, f: R -> TableInfo): Dict<TableInfo>
    decreases |rows|
  {
    if rows == [] then d
    else
      var prev := NamedFrom(d, rows[..|rows| - 1], f);
      var t := f(rows[|rows| - 1]);
      if t.name != "" then Put(prev, t.name, t) else prev
  }

  /** The rows mapped by `f` whose image passes `keep`, in row order: what a loop that appends each passing image builds. */
  function KeepMapped<R, T>(rows: seq<R>, f: R -> T, keep: T -> bool): (r: seq<T>)
    ensures |r| <= |rows|
    ensures forall t :: t in r ==> keep(t)
    decreases |rows|
  {
    if rows == [] then []
    else
      var prev := KeepMapped(rows[..|rows| - 1], f, keep);
      var t := f(rows[|rows| - 1]);
      if keep(t) then prev + [t] else prev
  }

  /** An image is kept exactly when it passes and some row maps to it. */
  lemma {:induction false} KeepMappedMembers<R, T>(rows: seq<R>, f: R -> T, keep: T -> bool)
    ensures forall t :: t in KeepMapped(rows, f, keep) <==> keep(t) && exists i :: 0 <= i < |rows| && f(rows[i]) == t
    decreases |rows|
  {
    if rows != [] {
      var n := |rows| - 1;
      KeepMappedMembers(rows[..n], f, keep);
      assert forall i :: 0 <= i < n ==> rows[..n][i] == rows[i];
    }
  }

  /** Keeping is order-preserving: two runs of rows give their kept images one after the other. */
  lemma {:induction false} KeepMappedAppend<R, T>(a: seq<R>, b: seq<R>, f: R -> T, keep: T -> bool)
    ensures KeepMapped(a + b, f, keep) == KeepMapped(a, f, keep) + KeepMapped(b, f, keep)
    decreases |b|
  {
    if b == [] {
      assert a + b == a;
    } else {
      var n := |b| - 1;
      assert (a + b)[..|a + b| - 1] == a + b[..n];
      KeepMappedAppend(a, b[..n], f, keep);
    }
  }

  /** The kept columns of `records`, in row order. */
  function KeptColumns(records: seq<Row>): seq<ColumnInfo>
  {
    KeepMapped(records, ColumnRow, EssentialColumn)
  }

  /** The kept joins of `records`, in row order. */
  function KeptJoins(records: seq<Row>): seq<JoinInfo>
  {
    KeepMapped(records, JoinRow, EssentialJoin)
  }

  /** The columns whose table is `tableName` (compared exactly), in order. */
  function ColumnsOf(columns: seq<ColumnInfo>, tableName: string): (r: seq<ColumnInfo>)
    ensures |r| <= |columns|
    ensures forall c :: c in r <==> c in columns && c.tableName == tableName
    decreases |columns|
  {
    if columns == [] then []
    else
      var prev := ColumnsOf(columns[..|columns| - 1], tableName);
      var c := columns[|columns| - 1];
      assert forall x :: x in columns <==> x in columns[..|columns| - 1] || x == c;
      if c.tableName == tableName then prev + [c] else prev
  }

  /** The column record is the one for `columnName` of `tableName`. */
  predicate Describes(c: ColumnInfo, tableName: string, columnName: string)
  {
    c.tableName == tableName && c.columnName == columnName
  }

  class CsvSchemaLoader {
    var tables: Dict<TableInfo>
    var columns: seq<ColumnInfo>
    var joins: seq<JoinInfo>

    /** The loader before its files are read. */
    constructor Init()
      ensures tables == Empty() && columns == [] && joins == []
    {
      tables := Empty();
      columns := [];
      joins := [];
    }

    /** `_load_tables`: every row with a name is assigned under that name. */
    method LoadTables(records: seq<Row>)
      modifies this
      ensures tables == TablesFrom(old(tables), records)
      ensures columns == old(columns) && joins == old(joins)
    {
      var loaded := tables;
      ghost var start := tables;
      for i := 0 to |records|
        invariant loaded == TablesFrom(start, records[..i])
      {
        assert records[..i + 1][..i] == records[..i];
        var table := TableRow(records[i]);
        if table.name != "" {
          loaded := Put(loaded, table.name, table);
        }
      }
      assert records[..|records|] == records;
      tables := loaded;
    }

    /** `_load_columns`: every row with a table, a column name and a type is appended. */
    method LoadColumns(records: seq<Row>)
      modifies this
      ensures columns == old(columns) + KeptColumns(records)
      ensures tables == old(tables) && joins == old(joins)
    {
      var loaded := columns;
      ghost var start := columns;
      for i := 0 to |records|
        invariant loaded == start + KeptColumns(records[..i])
      {
        assert records[..i + 1][..i] == records[..i];
        var column := ColumnRow(records[i]);
        if EssentialColumn(column) {
          loaded := loaded + [column];
        }
      }
      assert records[..|records|] == records;
      columns := loaded;
    }

    /** `_load_joins`: every row naming both tables and both columns is appended. */
    method LoadJoins(records: seq<Row>)
      modifies this
      ensures joins == old(joins) + KeptJoins(records)
      ensures tables == old(tables) && columns == old(columns)
    {
      var loaded := joins;
      ghost var start := joins;
      for i := 0 to |records|
        invariant loaded == start + KeptJoins(records[..i])
      {
        assert records[..i + 1][..i] == records[..i];
        var join := JoinRow(records[i]);
        if EssentialJoin(join) {
          loaded := loaded + [join];
        }
      }
      assert records[..|records|] == records;
      joins := loaded;
    }

    /** `get_tables`: the table records in insertion order. */
    function GetTables(): (r: seq<TableInfo>)
      reads this
      ensures |r| == |tables.keys|
      ensures forall i :: 0 <= i < |r| ==> r[i] == tables.entries[tables.keys[i]]
    {
      Values(tables)
    }

    /** `get_table_by_name`. */
    function GetTableByName(name: string): (r: Option<TableInfo>)
      reads this
      ensures r.Some? <==> name in tables.entries
      ensures r.Some? ==> r.value == tables.entries[name]
    {
      Get(tables, name)
    }

    /** `get_columns_for_table`: exactly the loaded columns of that table, in load order. */
    function GetColumnsForTable(tableName: string): (r: seq<ColumnInfo>)
      reads this
      ensures forall c :: c in r <==> c in columns && c.tableName == tableName
    {
      ColumnsOf(columns, tableName)
    }

    /** `get_table_description`: `None` for a table that was not loaded. */
    function GetTableDescription(tableName: string): (r: Option<string>)
      reads this
      ensures r.None? <==> tableName !in tables.entries
      ensures r.Some? ==> r.value == tables.entries[tableName].description
    {
      match GetTableByName(tableName)
      case Some(t) => Some(t.description)
      case None => None
    }

    /** `get_column_description`: the description of the first column with that table and name, or `None`. */
    method GetColumnDescription(tableName: string, columnName: string) returns (r: Option<string>)
      ensures r.None? <==> forall c :: c in columns ==> !Describes(c, tableName, columnName)
      ensures r.Some? ==> exists i :: (0 <= i < |columns| && Describes(columns[i], tableName, columnName)
                                       && r.value == columns[i].description
                                       && forall j :: 0 <= j < i ==> !Describes(columns[j], tableName, columnName))
    {
      var cols := columns;
      for i := 0 to |cols|
        invariant forall j :: 0 <= j < i ==> !Describes(cols[j], tableName, columnName)
      {
        if Describes(cols[i], tableName, columnName) {
          return Some(cols[i].description);
        }
      }
      return None;
    }
  }

  /**
   * `CSVSchemaLoader(data_folder_path)`: `files` holds the rows of each CSV
   * file present in the folder. The tables file is read first, then the
   * columns file, then the joins file; the first one missing aborts loading.
   */
  method NewCsvSchemaLoader(files: map<string, seq<Row>>) returns (r: Result<CsvSchemaLoader, LoadError>)
    ensures TablesFile !in files ==> r == Err(FileNotFound(TablesFile))
    ensures TablesFile in files && ColumnsFile !in files ==> r == Err(FileNotFound(ColumnsFile))
    ensures TablesFile in files && ColumnsFile in files && JoinsFile !in files ==> r == Err(FileNotFound(JoinsFile))
    ensures TablesFile in files && ColumnsFile in files && JoinsFile in files ==>
      (r.Ok? && fresh(r.value)
        && r.value.tables == TablesFrom(Empty(), files[TablesFile])
        && r.value.columns == KeptColumns(files[ColumnsFile])
        && r.value.joins == KeptJoins(files[JoinsFile]))
  {
    var loader := new CsvSchemaLoader.Init();
    if TablesFile !in files {
      return Err(FileNotFound(TablesFile));
    }
    loader.LoadTables(files[TablesFile]);
    if ColumnsFile !in files {
      return Err(FileNotFound(ColumnsFile));
    }
    loader.LoadColumns(files[ColumnsFile]);
    if JoinsFile !in files {
      return Err(FileNotFound(JoinsFile));
    }
    loader.LoadJoins(files[JoinsFile]);
    return Ok(loader);
  }

  /** A name is a key of the loaded table map exactly when some row carries it (non-empty, stripped). */
  lemma LoadedTableKeys(records: seq<Row>, k: string)
    ensures k in TablesFrom(Empty(), records).entries <==>
      k != "" && exists i :: 0 <= i < |records| && TableRow(records[i]).name == k
  {
    NamedKeys(records, TableRow, k);
  }

  /** A name repeated over several rows keeps the record of the last of them. */
  lemma LoadedTableLastWins(records: seq<Row>, k: string, i: nat)
    requires i < |records| && TableRow(records[i]).name == k && k != ""
    requires forall j :: i < j < |records| ==> TableRow(records[j]).name != k
    ensures k in TablesFrom(Empty(), records).entries
    ensures TablesFrom(Empty(), records).entries[k] == TableRow(records[i])
  {
    NamedLast(records, TableRow, k, i);
  }

  /** Every loaded table record is stored under its own name. */
  lemma LoadedTablesNamed(records: seq<Row>)
    ensures forall k :: k in TablesFrom(Empty(), records).entries ==> TablesFrom(Empty(), records).entries[k].name == k
  {
    NamedUnderName(records, TableRow);
  }

  lemma {:induction false} NamedKeys<R>(rows: seq<R>, f: R -> TableInfo, k: string)
    ensures k in NamedFrom(Empty(), rows, f).entries <==>
      k != "" && exists i :: 0 <= i < |rows| && f(rows[i]).name == k
    decreases |rows|
  {
    if rows != [] {
      var n := |rows| - 1;
      var prefix := rows[..n];
      var t := f(rows[n]);
      assert k in NamedFrom(Empty(), rows, f).entries <==>
        k in NamedFrom(Empty(), prefix, f).entries || (t.name != "" && t.name == k);
      NamedKeys(prefix, f, k);
      if exists i :: 0 <= i < |rows| && f(rows[i]).name == k {
        var i :| 0 <= i < |rows| && f(rows[i]).name == k;
        if i < n { assert f(prefix[i]).name == k; }
      }
      if exists i :: 0 <= i < n && f(prefix[i]).name == k {
        var i :| 0 <= i < n && f(prefix[i]).name == k;
        assert f(rows[i]).name == k;
      }
    }
  }

  lemma {:induction false} NamedLast<R>(rows: seq<R>, f: R -> TableInfo, k: string, i: nat)
    requires i < |rows| && f(rows[i]).name == k && k != ""
    requires forall j :: i < j < |rows| ==> f(rows[j]).name != k
    ensures k in NamedFrom(Empty(), rows, f).entries
    ensures NamedFrom(Empty(), rows, f).entries[k] == f(rows[i])
    decreases |rows|
  {
    var n := |rows| - 1;
    var prefix := rows[..n];
    if i < n {
      assert prefix[i] == rows[i];
      forall j | i < j < n ensures f(prefix[j]).name != k {
        assert prefix[j] == rows[j];
      }
      NamedLast(prefix, f, k, i);
    }
  }

  lemma {:induction false} NamedUnderName<R>(rows: seq<R>, f: R -> TableInfo)
    ensures forall k :: k in NamedFrom(Empty(), rows, f).entries ==> NamedFrom(Empty(), rows, f).entries[k].name == k
    decreases |rows|
  {
    if rows != [] {
      NamedUnderName(rows[..|rows| - 1], f);
    }
  }

  /** Column loading keeps row order: loading two runs of rows is loading each in turn. */
  lemma KeptColumnsAppend(a: seq<Row>, b: seq<Row>)
    ensures KeptColumns(a + b) == KeptColumns(a) + KeptColumns(b)
  {
    KeepMappedAppend(a, b, ColumnRow, EssentialColumn);
  }

  /** A column is loaded exactly when some row gives it and it has its table, name and type. */
  lemma KeptColumnsMembers(records: seq<Row>)
    ensures forall c :: c in KeptColumns(records) <==>
      EssentialColumn(c) && exists i :: 0 <= i < |records| && ColumnRow(records[i]) == c
  {
    KeepMappedMembers(records, ColumnRow, EssentialColumn);
  }

  /** Join loading keeps row order: loading two runs of rows is loading each in turn. */
  lemma KeptJoinsAppend(a: seq<Row>, b: seq<Row>)
    ensures KeptJoins(a + b) == KeptJoins(a) + KeptJoins(b)
  {
    KeepMappedAppend(a, b, JoinRow, EssentialJoin);
  }

  /** A join is loaded exactly when some row gives it and it names both tables and both columns. */
  lemma KeptJoinsMembers(records: seq<Row>)
    ensures forall j :: j in KeptJoins(records) <==>
      EssentialJoin(j) && exists i :: 0 <= i < |records| && JoinRow(records[i]) == j
  {
    KeepMappedMembers(records, JoinRow, EssentialJoin);
  }

  /** `get_columns_for_table` keeps load order: filtering two runs is filtering each in turn. */
  lemma {:induction false} ColumnsOfAppend(a: seq<ColumnInfo>, b: seq<ColumnInfo>, tableName: string)
    ensures ColumnsOf(a + b, tableName) == ColumnsOf(a, tableName) + ColumnsOf(b, tableName)
    decreases |b|
  {
    if b == [] {
      assert a + b == a;
    } else {
      var n := |b| - 1;
      assert (a + b)[..|a + b| - 1] == a + b[..n];
      ColumnsOfAppend(a, b[..n], tableName);
    }
  }
}
