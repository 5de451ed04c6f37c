/**
 * The records that the schema extractor produces and that the matcher,
 * the formatters and the generators consume.
 */
module SchemaModel {
  import opened Wrappers

  /** A parsed column: `{"name": ..., "type": ...}`. */
  datatype Column = Column(name: string, typ: string)

  /** A foreign key, from `sourceTable.sourceColumn` to `targetTable.targetColumn`. */
  datatype Relationship = Relationship(
    sourceTable: string, sourceColumn: string,
    targetTable: string, targetColumn: string)

  /**
   * The metadata dictionary of a stored or retrieved document: its string-valued
   * entries, and the `columns` entry (a list of columns) when it has one.
   */
  datatype Metadata = Metadata(fields: map<string, string>, columns: Option<seq<Column>>)

  /** A retrieved document `{"content": ..., "metadata": ...}`; `None` is an absent key. */
  datatype Document = Document(content: Option<string>, metadata: Option<Metadata>)

  /** `d.get(key, default)` on the string entries of a metadata dictionary. */
  function FieldOr(m: Metadata, key: string, default: string): string
  {
    if key in m.fields then m.fields[key] else default
  }

  /**
   * The value stored for a table, in the two shapes the code meets: the plain
   * column list the parser stores, and the `{'columns': [...]}` mapping the
   * generators subscript.
   */
  datatype TableData =
    | ColumnList(columns: seq<Column>)
    | FieldMap(fields: map<string, seq<Column>>)

  datatype LookupError =
    | TypeError  // a list subscripted with a string
    | KeyError   // a mapping without a `columns` entry

  /** `table_data['columns']`. */
  function ColumnsField(d: TableData): (r: Result<seq<Column>, LookupError>)
    ensures d.ColumnList? ==> r == Err(TypeError)
    ensures d.FieldMap? && "columns" in d.fields ==> r == Ok(d.fields["columns"])
  {
    match d
    case ColumnList(_) => Err(TypeError)
    case FieldMap(fields) => if "columns" in fields then Ok(fields["columns"]) else Err(KeyError)
  }
}
