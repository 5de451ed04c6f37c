/**
 * The DDL schema extractor (`SchemaParser`): parsing CREATE TABLE text into a
 * table map and a foreign-key list, and the queries over the parsed schema.
 * The DDL text is taken as already read; a missing file is an error outcome.
 */
module SchemaParsing {
  import opened Wrappers
  import opened Text
  import opened OrderedMaps
  import opened SchemaModel
  import opened DdlPatterns
  import opened SchemaSearch
  import opened SchemaFormat

  /** The table-map entry that one CREATE TABLE match gives: cleaned name and columns. */
  function TableEntry(m: TableMatch): (string, seq<Column>)
  {
    (CleanTableName(m.rawName), BodyColumns(m.body))
  }

  /** The table-map assignments of the matches, in match order. */
  function MatchesEntries(ms: seq<TableMatch>): (r: seq<(string, seq<Column>)>)
    ensures |r| == |ms|
    ensures forall i :: 0 <= i < |ms| ==> r[i] == TableEntry(ms[i])
  {
    seq(|ms|, i requires 0 <= i < |ms| => TableEntry(ms[i]))
  }

  /** The inline foreign keys of the matches, table by table in match order. */
  function MatchesRelationships(ms: seq<TableMatch>): seq<Relationship>
    decreases |ms|
  {
    if ms == [] then []
    else
      var m := ms[|ms| - 1];
      MatchesRelationships(ms[..|ms| - 1]) + FkRelationships(CleanTableName(m.rawName), FkMatches(m.body))
  }

  /** One more match adds its entry. */
  lemma MatchesEntriesNext(ms: seq<TableMatch>, i: nat)
    requires i < |ms|
    ensures MatchesEntries(ms[..i + 1]) == MatchesEntries(ms[..i]) + [TableEntry(ms[i])]
  {
    assert MatchesEntries(ms[..i + 1])[i] == TableEntry(ms[i]);
  }

  /** One more match adds the relationships of its inline foreign keys. */
  lemma MatchesRelationshipsNext(ms: seq<TableMatch>, i: nat)
    requires i < |ms|
    ensures MatchesRelationships(ms[..i + 1])
      == MatchesRelationships(ms[..i]) + FkRelationships(CleanTableName(ms[i].rawName), FkMatches(ms[i].body))
  {
    assert ms[..i + 1][..i] == ms[..i];
  }

  lemma ConcatAssoc<T>(a: seq<T>, b: seq<T>, c: seq<T>)
    ensures a + (b + c) == a + b + c
  {
  }

  function DdlEntries(ddl: string): seq<(string, seq<Column>)>
  {
    MatchesEntries(TableMatches(ddl))
  }

  function DdlRelationships(ddl: string): seq<Relationship>
  {
    MatchesRelationships(TableMatches(ddl))
  }

  /** The table map that parsing `ddl` gives a fresh parser. */
  function ParsedTables(ddl: string): Tables
  {
    PutAll(Empty(), DdlEntries(ddl))
  }

  /** `FileNotFoundError` for a DDL path that does not exist. */
  datatype ParseError = FileNotFound(path: string)

  /** `get_table_info`: a table's column list, or the relationship list under "foreign_keys". */
  datatype TableInfoValue = TableColumns(columns: seq<Column>) | ForeignKeys(relationships: seq<Relationship>)

  /** Metadata of an element prepared for embedding. */
  datatype ElementMetadata =
    | TableMeta(tableName: string, columns: seq<Column>)
    | ColumnMeta(tableName: string, columnName: string, columnType: string)
    | RelationshipMeta(relationship: Relationship)

  /** `{"type": ..., "name": ..., "content": ..., "metadata": ...}`. */
  /** The `"type"` of an element: "table", "column" or "relationship". */
  datatype ElementKind = TableKind | ColumnKind | RelationshipKind

  datatype EmbeddingElement = EmbeddingElement(kind: ElementKind, name: string, content: string, metadata: ElementMetadata)

  class SchemaParser {
    var tables: Tables
    var relationships: seq<Relationship>

    /** A parser with no tables and no relationships, before `_parse_ddl` runs. */
    constructor Init()
      ensures tables == Empty() && relationships == []
    {
      tables := Empty();
      relationships := [];
    }

    /**
     * `_parse_ddl` over the DDL text: each CREATE TABLE match assigns its
     * cleaned name to the columns of its body lines, and appends the
     * relationships of its inline foreign keys.
     */
    method ParseDdl(ddl: string)
      modifies this
      ensures tables == PutAll(old(tables), DdlEntries(ddl))
      ensures relationships == old(relationships) + DdlRelationships(ddl)
    {
      var parsed, rels := ParseMatches(tables, relationships, TableMatches(ddl));
      tables, relationships := parsed, rels;
    }

    /** `get_table_info`: every table's columns, then the relationships under "foreign_keys" (which wins over a table of that name). */
    function GetTableInfo(): (info: Dict<TableInfoValue>)
      reads this
      ensures "foreign_keys" in info.entries && info.entries["foreign_keys"] == ForeignKeys(relationships)
      ensures forall n :: n in tables.entries && n != "foreign_keys" ==>
        n in info.entries && info.entries[n] == TableColumns(tables.entries[n])
      ensures forall n :: n in info.entries ==> n in tables.entries || n == "foreign_keys"
      ensures info.keys == if "foreign_keys" in tables.entries then tables.keys else tables.keys + ["foreign_keys"]
    {
      Put(MapValues(tables, (c: seq<Column>) => TableColumns(c)), "foreign_keys", ForeignKeys(relationships))
    }

    /** `get_formatted_schema`: the schema listing under "Database Schema:". */
    method GetFormattedSchema() returns (text: string)
      ensures text == Unlines(SchemaLines("Database Schema:", tables, relationships))
    {
      text := RenderSchema("Database Schema:", tables, relationships);
    }

    /**
     * `search_schema`. The alias pass visits the query's terms in the
     * iteration order of a Python set, which is arbitrary; `order` is the
     * order this run chose.
     */
    method SearchSchema(query: string) returns (r: Result<SearchResult, SearchError>, ghost order: seq<string>)
      ensures forall t :: t in order <==> t in QueryTerms(query)
      ensures r == Search(tables, relationships, query, order)
      ensures Closed(tables, relationships) ==> r.Ok?
      ensures r.Ok? ==>
        && (tables.keys != [] ==> r.value.tables.keys != [])
        && (forall k :: k in r.value.tables.entries ==> k in tables.entries)
        && (forall rel :: rel in r.value.relationships ==>
              rel in relationships && rel.sourceTable in r.value.tables.entries && rel.targetTable in r.value.tables.entries)
      ensures r.Ok? ==> forall k :: k in DirectPass(tables, QueryTerms(query), |tables.keys|).entries ==>
        k in r.value.tables.entries && r.value.tables.entries[k] == DirectPass(tables, QueryTerms(query), |tables.keys|).entries[k]
    {
      var terms := QueryTerms(query);
      var found := DirectMatch(terms);
      if found.keys == [] {
        found, order := AliasMatch(terms);
      } else {
        order := Enumerate(terms);
      }
      assert found == Matched(tables, terms, order);
      var related := AddRelated(found);
      match related {
        case Err(e) =>
          r := Err(e);
        case Ok(st) =>
          var result := AddFallback(st);
          r := Ok(result);
      }
      if Closed(tables, relationships) {
        SearchOkWhenClosed(tables, relationships, query, order);
      }
      if r.Ok? {
        SearchResultFacts(tables, relationships, query, order);
        SearchKeepsDirectMatches(tables, relationships, query, order);
      }
    }

    /** The direct pass of `search_schema`: tables whose name is a term, else their columns named by a term. */
    method DirectMatch(terms: set<string>) returns (found: Tables)
      ensures found == DirectPass(tables, terms, |tables.keys|)
    {
      var schema := tables;
      found := Empty();
      for i := 0 to |schema.keys|
        invariant found == DirectPass(schema, terms, i)
      {
        var tableName := schema.keys[i];
        var columns := schema.entries[tableName];
        if LowerStr(tableName) in terms {
          found := Put(found, tableName, columns);
        } else {
          var relevantColumns := RelevantColumns(columns, terms);
          if relevantColumns != [] {
            found := Put(found, tableName, relevantColumns);
          }
        }
      }
    }

    /**
     * The relationship pass of `search_schema`: a relationship touching a found
     * table is included and pulls in its other endpoint; an endpoint missing
     * from the schema is the `KeyError` outcome.
     */
    method AddRelated(matched: Tables) returns (r: Result<SearchResult, SearchError>)
      ensures r == RelPassFrom(tables, relationships, 0, SearchResult(matched, []))
    {
      var found := matched;
      var included: seq<Relationship> := [];
      for i := 0 to |relationships|
        invariant RelPassFrom(tables, relationships, 0, SearchResult(matched, []))
          == RelPassFrom(tables, relationships, i, SearchResult(found, included))
      {
        var rel := relationships[i];
        if rel.sourceTable in found.entries || rel.targetTable in found.entries {
          included := included + [rel];
          if rel.sourceTable !in found.entries {
            if rel.sourceTable !in tables.entries {
              return Err(MissingTable(rel.sourceTable));
            }
            found := Put(found, rel.sourceTable, tables.entries[rel.sourceTable]);
          }
          if rel.targetTable !in found.entries {
            if rel.targetTable !in tables.entries {
              return Err(MissingTable(rel.targetTable));
            }
            found := Put(found, rel.targetTable, tables.entries[rel.targetTable]);
          }
        }
      }
      r := Ok(SearchResult(found, included));
    }

    /** The fallback of `search_schema`: with nothing found, the first three tables of the schema. */
    method AddFallback(st: SearchResult) returns (out: SearchResult)
      ensures out == Fallback(tables, st)
    {
      out := st;
      if st.tables.keys == [] && tables.keys != [] {
        var n := if |tables.keys| < 3 then |tables.keys| else 3;
        var found := CopyFirst(tables, n);
        out := SearchResult(found, st.relationships);
      }
    }

    /** The alias pass of `search_schema`, from no tables, visiting the terms in an arbitrary order. */
    method AliasMatch(terms: set<string>) returns (found: Tables, ghost order: seq<string>)
      ensures forall t :: t in order <==> t in terms
      ensures found == AliasPass(tables, order, Empty())
      ensures forall k :: k in found.entries <==> k in tables.entries && exists t :: t in terms && AliasHit(t, k, |Aliases|)
      ensures Faithful(tables, found)
    {
      var schema := tables;
      found := Empty();
      order := [];
      var remaining := terms;
      while remaining != {}
        invariant forall t :: t in terms <==> t in remaining || t in order
        invariant found == AliasPass(schema, order, Empty())
        decreases |remaining|
      {
        var term :| term in remaining;
        ghost var before := found;
        for a := 0 to |Aliases|
          invariant found == AliasForTerm(schema, term, before, a)
        {
          var (key, values) := Aliases[a];
          if term in values || key == term {
            found := AddTablesContaining(schema, key, found);
          }
        }
        assert (order + [term])[..|order|] == order;
        order := order + [term];
        remaining := remaining - {term};
      }
      AliasPassTerms(schema, order, terms);
    }

    /**
     * `get_elements_for_embedding`: per table, a table element followed by
     * one element per column; then one element per relationship.
     */
    method GetElementsForEmbedding() returns (elements: seq<EmbeddingElement>)
      ensures elements == EmbeddingElements(tables, relationships)
    {
      var schema := tables;
      elements := [];
      for i := 0 to |schema.keys|
        invariant elements == TablesElements(schema, i)
      {
        var tableName := schema.keys[i];
        elements := AppendTableElements(elements, tableName, schema.entries[tableName]);
      }
      elements := AppendRelationshipElements(elements, relationships);
    }
  }

  /** One table's part of `get_elements_for_embedding`: its element, then one per column. */
  method AppendTableElements(elements: seq<EmbeddingElement>, tableName: string, columnsList: seq<Column>)
    returns (out: seq<EmbeddingElement>)
    ensures out == elements + [TableElement(tableName, columnsList)] + ColumnElements(tableName, columnsList)
  {
    out := elements + [TableElement(tableName, columnsList)];
    for j := 0 to |columnsList|
      invariant out == elements + [TableElement(tableName, columnsList)] + ColumnElements(tableName, columnsList[..j])
    {
      assert columnsList[..j + 1][..j] == columnsList[..j];
      out := out + [ColumnElement(tableName, columnsList[j])];
    }
    assert columnsList[..|columnsList|] == columnsList;
  }

  /** The relationship part of `get_elements_for_embedding`: one element per relationship. */
  method AppendRelationshipElements(elements: seq<EmbeddingElement>, rels: seq<Relationship>)
    returns (out: seq<EmbeddingElement>)
    ensures out == elements + RelationshipElements(rels)
  {
    out := elements;
    for i := 0 to |rels|
      invariant out == elements + RelationshipElements(rels[..i])
    {
      assert rels[..i + 1][..i] == rels[..i];
      out := out + [RelationshipElement(rels[i])];
    }
    assert rels[..|rels|] == rels;
  }

  /** One iteration of `_parse_ddl`: the match's table entry is assigned and its foreign keys appended. */
  /** The loop of `parse_ddl` over the matched statements, from the given tables and relationships. */
  method ParseMatches(tables0: Tables, rels0: seq<Relationship>, ms: seq<TableMatch>)
    returns (parsed: Tables, rels: seq<Relationship>)
    ensures parsed == PutAll(tables0, MatchesEntries(ms))
    ensures rels == rels0 + MatchesRelationships(ms)
  {
    parsed, rels := tables0, rels0;
    for i := 0 to |ms|
      invariant parsed == PutAll(tables0, MatchesEntries(ms[..i]))
      invariant rels == rels0 + MatchesRelationships(ms[..i])
    {
      ParseStep(tables0, rels0, ms, i);
      parsed, rels := AddTable(parsed, rels, ms[i]);
    }
    assert ms[..|ms|] == ms;
  }

  /** One more matched statement: its table is assigned and its foreign keys appended. */
  lemma ParseStep(tables0: Tables, rels0: seq<Relationship>, ms: seq<TableMatch>, i: nat)
    requires i < |ms|
    ensures PutAll(tables0, MatchesEntries(ms[..i + 1]))
      == Put(PutAll(tables0, MatchesEntries(ms[..i])), CleanTableName(ms[i].rawName), BodyColumns(ms[i].body))
    ensures rels0 + MatchesRelationships(ms[..i + 1])
      == rels0 + MatchesRelationships(ms[..i]) + FkRelationships(CleanTableName(ms[i].rawName), FkMatches(ms[i].body))
  {
    var m := ms[i];
    MatchesEntriesNext(ms, i);
    PutAllSnoc(tables0, MatchesEntries(ms[..i]), CleanTableName(m.rawName), BodyColumns(m.body));
    MatchesRelationshipsNext(ms, i);
    ConcatAssoc(rels0, MatchesRelationships(ms[..i]), FkRelationships(CleanTableName(m.rawName), FkMatches(m.body)));
  }

  method AddTable(tables: Tables, rels: seq<Relationship>, m: TableMatch) returns (tables': Tables, rels': seq<Relationship>)
    ensures tables' == Put(tables, CleanTableName(m.rawName), BodyColumns(m.body))
    ensures rels' == rels + FkRelationships(CleanTableName(m.rawName), FkMatches(m.body))
  {
    var tableName := CleanTableName(m.rawName);
    var columns := ParseBody(m.body);
    tables' := Put(tables, tableName, columns);
    rels' := AppendForeignKeys(rels, tableName, FkMatches(m.body));
  }

  /** The column loop of `_parse_ddl` over one table body: one column per matching line. */
  method ParseBody(body: string) returns (columns: seq<Column>)
    ensures columns == BodyColumns(body)
  {
    var lines := SplitLines(body);
    columns := [];
    for j := 0 to |lines|
      invariant columns == LinesColumns(lines[..j])
    {
      var found := LineColumn(lines[j]);
      LinesColumnsNext(lines, j);
      if found.Some? {
        columns := columns + [found.value];
      }
    }
    assert lines[..|lines|] == lines;
  }

  /** The foreign-key loop of `_parse_ddl`: one relationship per inline foreign key, from `tableName`. */
  method AppendForeignKeys(rels: seq<Relationship>, tableName: string, fks: seq<FkMatch>) returns (out: seq<Relationship>)
    ensures out == rels + FkRelationships(tableName, fks)
  {
    out := rels;
    for k := 0 to |fks|
      invariant out == rels + FkRelationships(tableName, fks[..k])
    {
      assert FkRelationships(tableName, fks[..k + 1])
          == FkRelationships(tableName, fks[..k]) + [Relationship(tableName, fks[k].sourceColumn, fks[k].targetTable, fks[k].targetColumn)];
      out := out + [Relationship(tableName, fks[k].sourceColumn, fks[k].targetTable, fks[k].targetColumn)];
    }
    assert fks[..|fks|] == fks;
  }

  /** The table scan of the alias pass for one alias key: every table whose lower-cased name contains the key. */
  method AddTablesContaining(schema: Tables, key: string, found: Tables) returns (out: Tables)
    ensures out == AddContaining(schema, key, found, |schema.keys|)
  {
    out := found;
    for j := 0 to |schema.keys|
      invariant out == AddContaining(schema, key, found, j)
    {
      var tableName := schema.keys[j];
      if Contains(LowerStr(tableName), key) {
        out := Put(out, tableName, schema.entries[tableName]);
      }
    }
  }

  /** The column scan of `search_schema` for a table whose name is not a term. */
  method RelevantColumns(columns: seq<Column>, terms: set<string>) returns (relevant: seq<Column>)
    ensures relevant == MatchingColumns(columns, terms)
  {
    relevant := [];
    for j := 0 to |columns|
      invariant relevant == MatchingColumns(columns[..j], terms)
    {
      assert columns[..j + 1][..j] == columns[..j];
      if LowerStr(columns[j].name) in terms {
        relevant := relevant + [columns[j]];
      }
    }
    assert columns[..|columns|] == columns;
  }

  /** Some listing of the elements of a set (the order is irrelevant where it is used). */
  ghost function Enumerate(s: set<string>): (r: seq<string>)
    ensures forall t :: t in r <==> t in s
    decreases s
  {
    if s == {} then []
    else
      var t :| t in s;
      [t] + Enumerate(s - {t})
  }

  /** `SchemaParser(path)`: the file's text is `file`, or `None` when the path does not exist. */
  method NewSchemaParser(path: string, file: Option<string>) returns (r: Result<SchemaParser, ParseError>)
    ensures file.None? ==> r == Err(FileNotFound(path))
    ensures file.Some? ==>
      (r.Ok? && fresh(r.value)
        && r.value.tables == ParsedTables(file.value) && r.value.relationships == DdlRelationships(file.value))
  {
    if file.None? {
      return Err(FileNotFound(path));
    }
    var parser := new SchemaParser.Init();
    parser.ParseDdl(file.value);
    return Ok(parser);
  }

  const Note0: string := " This table contains records of patient claims, which can correspond to appointments or service encounters. It includes dates and links to patients and providers."
  const Note1: string := " This table provides detailed lines for each claim, including specific services or procedures performed, relevant to appointments. It includes service dates."
  const Note2: string := " This date likely represents when the claim was filed or the primary date of service for the claim/appointment."
  const Note3: string := " This date specifies when a particular service or procedure on the claim line was rendered, corresponding to an appointment or part of one."
  /** The text added to the Claims and Claim_Lines table elements. */
  function TableNote(tableName: string): string
  {
    if tableName == "Claims" then
      Note0
    else if tableName == "Claim_Lines" then
      Note1
    else ""
  }

  /** The text added to the Claims.Claim_Date and Claim_Lines.Service_Date column elements. */
  function ColumnNote(tableName: string, columnName: string): string
  {
    if tableName == "Claims" && columnName == "Claim_Date" then
      Note2
    else if tableName == "Claim_Lines" && columnName == "Service_Date" then
      Note3
    else ""
  }

  function ColumnNames(columns: seq<Column>): (r: seq<string>)
    ensures |r| == |columns|
    ensures forall i :: 0 <= i < |columns| ==> r[i] == columns[i].name
  {
    seq(|columns|, i requires 0 <= i < |columns| => columns[i].name)
  }

  const Piece0: string := "table"
  const Piece1: string := "Database table named '"
  const Piece2: string := "'. It contains the following columns: "
  const Piece3: string := "column"
  const Piece4: string := "Database column named '"
  const Piece5: string := "' of type '"
  const Piece6: string := "', part of the table '"
  const Piece7: string := "relationship"
  const Piece8: string := "Database relationship: The column '"
  const Piece9: string := "' in table '"
  const Piece10: string := "' is linked to column '"
  function TableElement(tableName: string, columns: seq<Column>): EmbeddingElement
  {
    EmbeddingElement(TableKind, tableName,
      Join("", [Piece1, tableName, Piece2, Join(", ", ColumnNames(columns)), ".", TableNote(tableName)]),
      TableMeta(tableName, columns))
  }

  function ColumnElement(tableName: string, c: Column): EmbeddingElement
  {
    EmbeddingElement(ColumnKind, c.name,
      Join("", [Piece4, c.name, Piece5, c.typ, Piece6, tableName, "'.", ColumnNote(tableName, c.name)]),
      ColumnMeta(tableName, c.name, c.typ))
  }

  function RelationshipElement(r: Relationship): EmbeddingElement
  {
    EmbeddingElement(RelationshipKind,
      r.sourceTable + "." + r.sourceColumn + "_to_" + r.targetTable + "." + r.targetColumn,
      Join("", [Piece8, r.sourceColumn, Piece9, r.sourceTable, Piece10, r.targetColumn, Piece9, r.targetTable, "'."]),
      RelationshipMeta(r))
  }

  function ColumnElements(tableName: string, columns: seq<Column>): (r: seq<EmbeddingElement>)
    ensures |r| == |columns|
    decreases |columns|
  {
    if columns == [] then []
    else ColumnElements(tableName, columns[..|columns| - 1]) + [ColumnElement(tableName, columns[|columns| - 1])]
  }

  /** Each column element is a "column" element naming one of the columns, with the table in its metadata. */
  lemma {:induction false} ColumnElementsFacts(tableName: string, columns: seq<Column>)
    ensures forall e :: e in ColumnElements(tableName, columns) ==>
      e.kind == ColumnKind && e.metadata.ColumnMeta? && e.metadata.tableName == tableName
      && Column(e.metadata.columnName, e.metadata.columnType) in columns && e.name == e.metadata.columnName
    decreases |columns|
  {
    if columns != [] {
      var n := |columns| - 1;
      ColumnElementsFacts(tableName, columns[..n]);
      assert Column(columns[n].name, columns[n].typ) == columns[n];
      forall c | c in columns[..n] ensures c in columns { }
    }
  }

  function RelationshipElements(rels: seq<Relationship>): (r: seq<EmbeddingElement>)
    ensures |r| == |rels|
    decreases |rels|
  {
    if rels == [] then []
    else RelationshipElements(rels[..|rels| - 1]) + [RelationshipElement(rels[|rels| - 1])]
  }

  /** The elements of the first `n` tables: each table's element, then its columns' elements. */
  function TablesElements(tables: Tables, n: nat): seq<EmbeddingElement>
    requires n <= |tables.keys|
  {
    if n == 0 then []
    else
      var name := tables.keys[n - 1];
      TablesElements(tables, n - 1) + [TableElement(name, tables.entries[name])] + ColumnElements(name, tables.entries[name])
  }

  function EmbeddingElements(tables: Tables, rels: seq<Relationship>): seq<EmbeddingElement>
  {
    TablesElements(tables, |tables.keys|) + RelationshipElements(rels)
  }

  /** The number of columns of the first `n` tables. */
  function ColumnCount(tables: Tables, n: nat): nat
    requires n <= |tables.keys|
  {
    if n == 0 then 0 else ColumnCount(tables, n - 1) + |tables.entries[tables.keys[n - 1]]|
  }

  /** The first `n` tables give one element per table and one per column. */
  lemma {:induction false} TablesElementsCount(tables: Tables, n: nat)
    requires n <= |tables.keys|
    ensures |TablesElements(tables, n)| == n + ColumnCount(tables, n)
  {
    if n > 0 {
      TablesElementsCount(tables, n - 1);
    }
  }

  /**
   * Each element of the first `n` tables is a table element naming a schema
   * table with its full columns, or a column element naming a column of the
   * table its metadata gives.
   */
  lemma {:induction false} TablesElementsFacts(tables: Tables, n: nat)
    requires n <= |tables.keys|
    ensures forall e :: e in TablesElements(tables, n) ==>
      (e.kind == TableKind && e.metadata.TableMeta? && e.name == e.metadata.tableName
        && e.metadata.tableName in tables.entries && e.metadata.columns == tables.entries[e.name])
      || (e.kind == ColumnKind && e.metadata.ColumnMeta? && e.metadata.tableName in tables.entries
        && Column(e.metadata.columnName, e.metadata.columnType) in tables.entries[e.metadata.tableName]
        && e.name == e.metadata.columnName)
  {
    if n > 0 {
      TablesElementsFacts(tables, n - 1);
      var name := tables.keys[n - 1];
      ColumnElementsFacts(name, tables.entries[name]);
    }
  }

  /** `get_elements_for_embedding` gives one element per table, per column and per relationship. */
  lemma EmbeddingElementCount(tables: Tables, rels: seq<Relationship>)
    ensures |EmbeddingElements(tables, rels)| == |tables.keys| + ColumnCount(tables, |tables.keys|) + |rels|
  {
    TablesElementsCount(tables, |tables.keys|);
  }

  /** Parsed table names carry no brackets, and no recorded column name is a SQL keyword. */
  lemma ParsedTablesFacts(ddl: string)
    ensures forall name :: name in ParsedTables(ddl).entries ==>
      (forall k :: 0 <= k < |name| ==> name[k] != '[' && name[k] != ']')
      && forall c :: c in ParsedTables(ddl).entries[name] ==> IsIdentifier(c.name) && UpperStr(c.name) !in SqlKeywords
  {
    var items := DdlEntries(ddl);
    PutAllValues(Empty(), items);
    forall name | name in ParsedTables(ddl).entries
      ensures (forall k :: 0 <= k < |name| ==> name[k] != '[' && name[k] != ']')
        && forall c :: c in ParsedTables(ddl).entries[name] ==> IsIdentifier(c.name) && UpperStr(c.name) !in SqlKeywords
    {
      var i :| 0 <= i < |items| && items[i] == (name, ParsedTables(ddl).entries[name]);
      var m := TableMatches(ddl)[i];
      LinesColumnsFacts(SplitLines(m.body));
    }
  }

  /**
   * A table defined more than once keeps the columns of its last definition:
   * the parsed tables are exactly the cleaned names of the matches, and each
   * maps to the columns of the last match with that name.
   */
  lemma RepeatedTableOverwrites(ddl: string, name: string)
    ensures var ms := TableMatches(ddl);
      && (name in ParsedTables(ddl).entries <==> exists i :: 0 <= i < |ms| && CleanTableName(ms[i].rawName) == name)
      && forall i :: 0 <= i < |ms| && CleanTableName(ms[i].rawName) == name
           && (forall j :: i < j < |ms| ==> CleanTableName(ms[j].rawName) != name)
           ==> ParsedTables(ddl).entries[name] == BodyColumns(ms[i].body)
  {
    var ms := TableMatches(ddl);
    PutAllLastWins(Empty(), DdlEntries(ddl), name);
  }

  /** Each relationship comes from an inline foreign key of one of the matches, whose cleaned name is its source table. */
  lemma {:induction false} MatchesRelationshipsFacts(ms: seq<TableMatch>)
    ensures forall r :: r in MatchesRelationships(ms) ==>
      (exists i :: 0 <= i < |ms| && r.sourceTable == CleanTableName(ms[i].rawName))
      && IsIdentifier(r.sourceColumn) && IsIdentifier(r.targetTable) && IsIdentifier(r.targetColumn)
    decreases |ms|
  {
    if ms != [] {
      var n := |ms| - 1;
      MatchesRelationshipsFacts(ms[..n]);
      var fks := FkMatches(ms[n].body);
      forall r | r in MatchesRelationships(ms)
        ensures (exists i :: 0 <= i < |ms| && r.sourceTable == CleanTableName(ms[i].rawName))
          && IsIdentifier(r.sourceColumn) && IsIdentifier(r.targetTable) && IsIdentifier(r.targetColumn)
      {
        if r in MatchesRelationships(ms[..n]) {
          var i :| 0 <= i < n && r.sourceTable == CleanTableName(ms[..n][i].rawName);
          assert ms[..n][i] == ms[i];
        } else {
          var rels := FkRelationships(CleanTableName(ms[n].rawName), fks);
          var j :| 0 <= j < |rels| && rels[j] == r;
          assert fks[j] in fks;
        }
      }
    }
  }

  /**
   * Every parsed relationship's source table is a parsed table (the one whose
   * body held the foreign key), and its columns and target are plain identifiers.
   */
  lemma RelationshipsFromParsedTables(ddl: string)
    ensures forall r :: r in DdlRelationships(ddl) ==>
      r.sourceTable in ParsedTables(ddl).entries
      && IsIdentifier(r.sourceColumn) && IsIdentifier(r.targetTable) && IsIdentifier(r.targetColumn)
  {
    var ms := TableMatches(ddl);
    MatchesRelationshipsFacts(ms);
    forall r | r in DdlRelationships(ddl) ensures r.sourceTable in ParsedTables(ddl).entries {
      var i :| 0 <= i < |ms| && r.sourceTable == CleanTableName(ms[i].rawName);
      PutAllLastWins(Empty(), DdlEntries(ddl), r.sourceTable);
      assert DdlEntries(ddl)[i].0 == r.sourceTable;
    }
  }

  /** DDL text without "CREATE TABLE" (such as ALTER TABLE statements alone) gives no tables and no relationships. */
  lemma NoCreateTableNoSchema(ddl: string)
    requires forall j :: 0 <= j <= |ddl| ==> !MatchesAt(ddl, j, "CREATE TABLE")
    ensures ParsedTables(ddl).keys == [] && DdlRelationships(ddl) == []
  {
    NoCreateNoTables(ddl, 0);
  }
}
