/**
 * `SchemaEmbeddingStore`: the documents stored for the schema elements, the
 * CI-mode search, and the schema context rendered from search results.
 *
 * An element and a document's metadata are the same dictionary (`metadata =
 * element`), modelled as a `Metadata`: its string entries and its `columns`
 * entry. The embedding model, FAISS and pickling are not modelled: the vector
 * store is the sequence of documents it was built from, a cached store is a
 * constructor parameter, and the outcome of a similarity search (its documents,
 * or the message of the exception it raised) is a parameter of `Search`.
 */
module SchemaEmbeddings {
  import opened Wrappers
  import opened Text
  import opened SchemaModel
  import SchemaParsing

  const PlaceholderContent: string := "schema_placeholder"
  const SearchErrorContent: string := "Placeholder due to search error"
  const NoSchemaInformation: string := "No schema information available."

  /** A document in the vector store: `Document(page_content=..., metadata=...)`. */
  datatype StoredDocument = StoredDocument(pageContent: string, metadata: Metadata)

  /** A search result `{"content": ..., "metadata": ...}`; its float score is not modelled. */
  datatype SearchResult = SearchResult(content: string, metadata: Metadata)

  /** The document a new store is seeded with. */
  function Placeholder(): StoredDocument
  {
    StoredDocument(PlaceholderContent, Metadata(map["type" := "placeholder"], None))
  }

  // ----- Document content -----

  /** `element['type']` and `element['name']` both exist. */
  predicate Keyed(e: Metadata)
  {
    "type" in e.fields && "name" in e.fields
  }

  /** `element.get('description')` is truthy. */
  predicate HasDescription(e: Metadata)
  {
    "description" in e.fields && e.fields["description"] != ""
  }

  /** `element.get('columns')` is truthy. */
  predicate HasColumns(e: Metadata)
  {
    e.columns.Some? && e.columns.value != []
  }

  /** `f"{col['name']} ({col['type']})"`. */
  function ColumnSummary(c: Column): string
  {
    c.name + " (" + c.typ + ")"
  }

  function ColumnSummaries(columns: seq<Column>): (r: seq<string>)
    ensures |r| == |columns|
    ensures forall i :: 0 <= i < |columns| ==> r[i] == ColumnSummary(columns[i])
  {
    seq(|columns|, i requires 0 <= i < |columns| => ColumnSummary(columns[i]))
  }

  /** `f"{element['type']}: {element['name']}"`. */
  function Header(e: Metadata): string
    requires Keyed(e)
  {
    e.fields["type"] + ": " + e.fields["name"]
  }

  /** The description line, present only when the description is truthy. */
  function DescriptionLine(e: Metadata): string
  {
    if HasDescription(e) then "\nDescription: " + e.fields["description"] else ""
  }

  /** The column line, present only when the column list is non-empty. */
  function ColumnsLine(e: Metadata): string
  {
    if HasColumns(e) then "\nColumns: " + Join(", ", ColumnSummaries(e.columns.value)) else ""
  }

  /** The page content `add_schema_elements` builds for one element. */
  function ElementContent(e: Metadata): string
    requires Keyed(e)
  {
    Header(e) + DescriptionLine(e) + ColumnsLine(e)
  }

  /** One document per element, in order, carrying the element itself as metadata. */
  function Documents(elements: seq<Metadata>): (r: seq<StoredDocument>)
    requires forall i :: 0 <= i < |elements| ==> Keyed(elements[i])
    ensures |r| == |elements|
    ensures forall i :: 0 <= i < |elements| ==> r[i] == StoredDocument(ElementContent(elements[i]), elements[i])
  {
    seq(|elements|, i requires 0 <= i < |elements| => StoredDocument(ElementContent(elements[i]), elements[i]))
  }

  /** The content loop body of `add_schema_elements`: the header, then `+=` of each optional line. */
  method BuildContent(e: Metadata) returns (content: string)
    requires Keyed(e)
    ensures content == ElementContent(e)
  {
    content := e.fields["type"] + ": " + e.fields["name"];
    assert content == Header(e);
    if "description" in e.fields && e.fields["description"] != "" {
      content := content + ("\nDescription: " + e.fields["description"]);
    }
    assert content == Header(e) + DescriptionLine(e);
    if e.columns.Some? && e.columns.value != [] {
      var summaries := ColumnSummaryList(e.columns.value);
      content := content + ("\nColumns: " + Join(", ", summaries));
    }
  }

  /** The list comprehension over the columns. */
  method ColumnSummaryList(columns: seq<Column>) returns (summaries: seq<string>)
    ensures summaries == ColumnSummaries(columns)
  {
    summaries := [];
    for i := 0 to |columns|
      invariant summaries == ColumnSummaries(columns[..i])
    {
      summaries := summaries + [ColumnSummary(columns[i])];
    }
    assert columns[..|columns|] == columns;
  }

  /**
   * The content opens with `type: name`; it is nothing more when the element
   * has neither a description nor columns; it ends with the column line when
   * there are columns, and with the description line when there is a
   * description and no columns.
   */
  lemma ElementContentShape(e: Metadata)
    requires Keyed(e)
    ensures StartsWith(ElementContent(e), Header(e))
    ensures !HasDescription(e) && !HasColumns(e) ==> ElementContent(e) == Header(e)
    ensures HasColumns(e) ==> EndsWith(ElementContent(e), "\nColumns: " + Join(", ", ColumnSummaries(e.columns.value)))
    ensures HasDescription(e) && !HasColumns(e) ==> EndsWith(ElementContent(e), "\nDescription: " + e.fields["description"])
  {
    var h, d, c := Header(e), DescriptionLine(e), ColumnsLine(e);
    assert ElementContent(e) == h + (d + c);
    StartsWithConcat(h, d + c);
    var s := h + d + c;
    assert s[|s| - |c|..] == c;
    assert s[|s| - |d + c|..] == d + c;
  }

  /** `"table"`, `"column"` or `"relationship"`. */
  function KindWord(k: SchemaParsing.ElementKind): string
  {
    match k
    case TableKind => "table"
    case ColumnKind => "column"
    case RelationshipKind => "relationship"
  }

  /**
   * The dictionary `get_elements_for_embedding` produces for an element, as far
   * as `add_schema_elements` reads it: it has `type`, `name` and `content`
   * entries, and neither `description` nor `columns` (its nested `metadata`
   * dictionary is not read here).
   */
  function ParserElementDict(el: SchemaParsing.EmbeddingElement): Metadata
  {
    Metadata(map["type" := KindWord(el.kind), "name" := el.name, "content" := el.content], None)
  }

  /**
   * The elements the schema parser hands over are stored under their header
   * alone: the descriptive `content` the parser composed is kept in the
   * metadata but is not part of the embedded text.
   */
  lemma ParserElementStoredByHeader(el: SchemaParsing.EmbeddingElement)
    ensures Keyed(ParserElementDict(el))
    ensures ElementContent(ParserElementDict(el)) == KindWord(el.kind) + ": " + el.name
    ensures ParserElementDict(el).fields["content"] == el.content
  {
    var e := ParserElementDict(el);
    assert !HasDescription(e) && !HasColumns(e);
  }

  // ----- Search -----

  /** The exception messages `search` answers with a placeholder result. */
  predicate Recoverable(message: string)
  {
    Contains(LowerStr(message), "no data added") || Contains(message, "normalize_L2")
  }

  /** The placeholder result returned after a recoverable search failure. */
  function SearchErrorResult(): SearchResult
  {
    SearchResult(SearchErrorContent, Metadata(map["type" := "error", "name" := "SearchError"], None))
  }

  /** The dummy result `i` of a CI-mode search: a table when `i` is even, a column when it is odd. */
  function DummyResult(query: string, i: nat): (r: SearchResult)
    ensures Keyed(r.metadata)
    ensures r.metadata.fields["type"] == if i % 2 == 0 then "table" else "column"
  {
    var n := NatToString(i + 1);
    var content := "Dummy content for query '" + query + "', result " + n;
    if i % 2 == 0 then
      SearchResult(content, Metadata(
        map["type" := "table", "name" := "DummyTable" + n, "table_name" := "DummyTable" + n,
            "column_name" := "", "column_type" := ""],
        Some([Column("col0", "VARCHAR"), Column("col1", "VARCHAR")])))
    else
      SearchResult(content, Metadata(
        map["type" := "column", "name" := "DummyColumn" + n, "table_name" := "SomeTableForCol" + n,
            "column_name" := "DummyColumn" + n, "column_type" := "VARCHAR"],
        Some([])))
  }

  /** `len(range(min(k, 2)))`. */
  function DummyCount(k: int): nat
  {
    if k <= 0 then 0 else if k < 2 then k else 2
  }

  /** A search result rendering a stored document. */
  function FromDocument(d: StoredDocument): SearchResult
  {
    SearchResult(d.pageContent, d.metadata)
  }

  /**
   * What `search` answers, given the mode, the store and the outcome of the
   * similarity search: in CI mode `min(k, 2)` dummy results; without a store
   * nothing; after an exception a placeholder (for a recoverable message) or
   * nothing; otherwise one result per retrieved document, in order.
   */
  predicate SearchAnswers(ciTestMode: bool, store: Option<seq<StoredDocument>>, query: string, k: int,
                          found: Result<seq<StoredDocument>, string>, results: seq<SearchResult>)
  {
    && (ciTestMode ==>
          |results| == DummyCount(k) && forall i :: 0 <= i < |results| ==> results[i] == DummyResult(query, i))
    && (!ciTestMode && store.None? ==> results == [])
    && (!ciTestMode && store.Some? && found.Err? ==>
          results == if Recoverable(found.error) then [SearchErrorResult()] else [])
    && (!ciTestMode && store.Some? && found.Ok? ==>
          |results| == |found.value| && forall i :: 0 <= i < |results| ==> results[i] == FromDocument(found.value[i]))
  }

  /** The answer of `search` is determined by its inputs. */
  lemma SearchAnswersUnique(ciTestMode: bool, store: Option<seq<StoredDocument>>, query: string, k: int,
                            found: Result<seq<StoredDocument>, string>, r1: seq<SearchResult>, r2: seq<SearchResult>)
    requires SearchAnswers(ciTestMode, store, query, k, found, r1)
    requires SearchAnswers(ciTestMode, store, query, k, found, r2)
    ensures r1 == r2
  {
  }

  // ----- Schema context -----

  /** `f"  - {col['name']} ({col['type']})"`. */
  function ColumnItem(c: Column): string
  {
    "  - " + c.name + " (" + c.typ + ")"
  }

  function ColumnItems(columns: seq<Column>): (r: seq<string>)
    ensures |r| == |columns|
    ensures forall i :: 0 <= i < |columns| ==> r[i] == ColumnItem(columns[i])
  {
    seq(|columns|, i requires 0 <= i < |columns| => ColumnItem(columns[i]))
  }

  /**
   * The context part of one result: a table lists its columns, anything else
   * shows its type, name and content; `metadata['type']` and
   * `metadata['name']` raise `KeyError` when absent.
   */
  function ResultPart(r: SearchResult): Result<string, LookupError>
  {
    var m := r.metadata;
    if "type" !in m.fields || "name" !in m.fields then Err(KeyError)
    else if m.fields["type"] == "table" then
      Ok("Table: " + m.fields["name"] + "\nColumns:\n" + Join("\n", ColumnItems(m.columns.GetOr([]))) + "\n")
    else
      Ok(m.fields["type"] + ": " + m.fields["name"] + "\n" + r.content + "\n")
  }

  /** The parts of all results, in order, or the first `KeyError`. */
  function ResultParts(results: seq<SearchResult>): Result<seq<string>, LookupError>
    decreases |results|
  {
    if results == [] then Ok([])
    else match ResultParts(results[..|results| - 1])
      case Err(e) => Err(e)
      case Ok(parts) =>
        match ResultPart(results[|results| - 1])
        case Err(e) => Err(e)
        case Ok(p) => Ok(parts + [p])
  }

  /** The context `get_relevant_schema_context` renders from search results. */
  function ContextOf(results: seq<SearchResult>): Result<string, LookupError>
  {
    if results == [] then Ok(NoSchemaInformation)
    else match ResultParts(results)
      case Err(e) => Err(e)
      case Ok(parts) => Ok(Join("\n", parts))
  }

  /**
   * Rendering succeeds exactly when every result has a `type` and a `name`,
   * and then gives one part per result, each rendering its own result.
   */
  lemma {:induction false} ResultPartsIff(results: seq<SearchResult>)
    ensures ResultParts(results).Ok? <==> forall i :: 0 <= i < |results| ==> Keyed(results[i].metadata)
    ensures ResultParts(results).Err? ==> ResultParts(results).error == KeyError
    ensures ResultParts(results).Ok? ==>
      |ResultParts(results).value| == |results|
      && forall i :: 0 <= i < |results| ==> Ok(ResultParts(results).value[i]) == ResultPart(results[i])
    decreases |results|
  {
    if results != [] {
      var init := results[..|results| - 1];
      ResultPartsIff(init);
      assert forall i :: 0 <= i < |init| ==> init[i] == results[i];
    }
  }

  /** A table part names the table and ends its column list with a line break; every part ends with one. */
  lemma ResultPartShape(r: SearchResult)
    requires Keyed(r.metadata)
    ensures ResultPart(r).Ok?
    ensures r.metadata.fields["type"] == "table" ==> StartsWith(ResultPart(r).value, "Table: " + r.metadata.fields["name"] + "\nColumns:\n")
    ensures r.metadata.fields["type"] != "table" ==> StartsWith(ResultPart(r).value, r.metadata.fields["type"] + ": " + r.metadata.fields["name"] + "\n")
    ensures EndsWith(ResultPart(r).value, "\n")
  {
    var m := r.metadata;
    var p := ResultPart(r).value;
    if m.fields["type"] == "table" {
      var head := "Table: " + m.fields["name"] + "\nColumns:\n";
      assert p == head + (Join("\n", ColumnItems(m.columns.GetOr([]))) + "\n");
      StartsWithConcat(head, Join("\n", ColumnItems(m.columns.GetOr([]))) + "\n");
    } else {
      var head := m.fields["type"] + ": " + m.fields["name"] + "\n";
      assert p == head + (r.content + "\n");
      StartsWithConcat(head, r.content + "\n");
    }
    assert p[|p| - 1..] == "\n";
  }

  /** A retrieved placeholder document has no `name`: rendering it raises `KeyError`. */
  lemma PlaceholderNotRenderable(results: seq<SearchResult>)
    requires FromDocument(Placeholder()) in results
    ensures ContextOf(results) == Err(KeyError)
  {
    var i :| 0 <= i < |results| && results[i] == FromDocument(Placeholder());
    ResultPartsIff(results);
    assert !Keyed(results[i].metadata);
  }

  /** Every CI-mode search renders: its dummy results all have a type and a name. */
  lemma CiContextRenders(query: string, k: int, results: seq<SearchResult>)
    requires SearchAnswers(true, None, query, k, Err(""), results)
    ensures ContextOf(results).Ok?
    ensures k <= 0 ==> ContextOf(results) == Ok(NoSchemaInformation)
  {
    ResultPartsIff(results);
    assert forall i :: 0 <= i < |results| ==> Keyed(results[i].metadata) by {
      forall i | 0 <= i < |results|
        ensures Keyed(results[i].metadata)
      {
        assert results[i] == DummyResult(query, i);
      }
    }
  }

  /** The rendering loop of `get_relevant_schema_context`. */
  method FormatContext(results: seq<SearchResult>) returns (context: Result<string, LookupError>)
    ensures context == ContextOf(results)
  {
    if results == [] {
      return Ok(NoSchemaInformation);
    }
    var parts: seq<string> := [];
    for i := 0 to |results|
      invariant ResultParts(results[..i]) == Ok(parts)
    {
      assert results[..i + 1][..i] == results[..i];
      var m := results[i].metadata;
      if "type" !in m.fields || "name" !in m.fields {
        RaisedStaysRaised(results, i + 1);
        return Err(KeyError);
      }
      if m.fields["type"] == "table" {
        var items: seq<string> := [];
        var cols := m.columns.GetOr([]);
        for j := 0 to |cols|
          invariant items == ColumnItems(cols[..j])
        {
          items := items + [ColumnItem(cols[j])];
        }
        assert cols[..|cols|] == cols;
        parts := parts + ["Table: " + m.fields["name"] + "\nColumns:\n" + Join("\n", items) + "\n"];
      } else {
        parts := parts + [m.fields["type"] + ": " + m.fields["name"] + "\n" + results[i].content + "\n"];
      }
    }
    assert results[..|results|] == results;
    context := Ok(Join("\n", parts));
  }

  /** Once a prefix fails to render, so does every longer prefix. */
  lemma {:induction false} RaisedStaysRaised(results: seq<SearchResult>, i: nat)
    requires 0 < i <= |results|
    requires ResultParts(results[..i]).Err?
    ensures ResultParts(results).Err? && ContextOf(results) == Err(ResultParts(results[..i]).error)
    decreases |results| - i
  {
    if i < |results| {
      assert results[..i + 1][..i] == results[..i];
      RaisedStaysRaised(results, i + 1);
    } else {
      assert results[..i] == results;
    }
  }

  /** The CI-mode loop of `search`: `min(k, 2)` dummy results. */
  method DummyResults(query: string, k: int) returns (results: seq<SearchResult>)
    ensures |results| == DummyCount(k)
    ensures forall i :: 0 <= i < |results| ==> results[i] == DummyResult(query, i)
  {
    results := [];
    var n := if k < 2 then k else 2;
    var i := 0;
    while i < n
      invariant 0 <= i <= (if n < 0 then 0 else n)
      invariant i == |results|
      invariant forall j :: 0 <= j < i ==> results[j] == DummyResult(query, j)
    {
      results := results + [DummyResult(query, i)];
      i := i + 1;
    }
  }

  /** The result loop of `search`: one result per retrieved document, in order. */
  method FromDocuments(docs: seq<StoredDocument>) returns (results: seq<SearchResult>)
    ensures |results| == |docs|
    ensures forall j :: 0 <= j < |docs| ==> results[j] == FromDocument(docs[j])
  {
    results := [];
    for i := 0 to |docs|
      invariant |results| == i
      invariant forall j :: 0 <= j < i ==> results[j] == FromDocument(docs[j])
    {
      results := results + [SearchResult(docs[i].pageContent, docs[i].metadata)];
    }
  }

  class SchemaEmbeddingStore {
    /** `CI_TEST_MODE == "true"`, read once at construction. */
    const ciTestMode: bool
    /** The vector store: the documents it was built from, or `None`. */
    var vectorStore: Option<seq<StoredDocument>>

    /**
     * `__init__` and `_load_or_create_store`: in CI mode a new store; otherwise
     * the cached store when one was loaded (`cached` is `None` when the cache
     * file is missing, unreadable or holds nothing), else a new store. A new
     * store holds only the placeholder document.
     */
    constructor (ciTestMode: bool, cached: Option<seq<StoredDocument>>)
      ensures this.ciTestMode == ciTestMode
      ensures vectorStore == if !ciTestMode && cached.Some? then cached else Some([Placeholder()])
      ensures vectorStore.Some?
    {
      this.ciTestMode := ciTestMode;
      if !ciTestMode && cached.Some? {
        vectorStore := cached;
      } else {
        vectorStore := Some([Placeholder()]);
      }
    }

    /**
     * `add_schema_elements`: a `KeyError` (store untouched) when an element
     * lacks its type or name; otherwise a store rebuilt from one document per
     * element, except that an empty list leaves an existing store in place.
     */
    method AddSchemaElements(elements: seq<Metadata>) returns (r: Result<(), LookupError>)
      modifies this
      ensures r.Ok? <==> forall i :: 0 <= i < |elements| ==> Keyed(elements[i])
      ensures r.Err? ==> vectorStore == old(vectorStore)
      ensures r.Ok? && elements == [] ==>
        vectorStore == if old(vectorStore).Some? then old(vectorStore) else Some([Placeholder()])
      ensures r.Ok? && elements != [] ==> vectorStore == Some(Documents(elements))
      ensures old(vectorStore).Some? ==> vectorStore.Some?
    {
      var documents: seq<StoredDocument> := [];
      for i := 0 to |elements|
        invariant forall j :: 0 <= j < i ==> Keyed(elements[j])
        invariant documents == Documents(elements[..i])
        invariant vectorStore == old(vectorStore)
      {
        if !Keyed(elements[i]) {
          return Err(KeyError);
        }
        var content := BuildContent(elements[i]);
        documents := documents + [StoredDocument(content, elements[i])];
      }
      assert elements[..|elements|] == elements;
      if documents == [] {
        if vectorStore.None? {
          vectorStore := Some([Placeholder()]);
        }
        return Ok(());
      }
      vectorStore := Some(documents);
      r := Ok(());
    }

    /** `search`; `found` is the outcome of the similarity search over the store. */
    method Search(query: string, k: int, found: Result<seq<StoredDocument>, string>) returns (results: seq<SearchResult>)
      ensures SearchAnswers(ciTestMode, vectorStore, query, k, found, results)
    {
      if ciTestMode {
        results := DummyResults(query, k);
        return;
      }
      if vectorStore.None? {
        return [];
      }
      match found
      case Err(message) =>
        if Contains(LowerStr(message), "no data added") || Contains(message, "normalize_L2") {
          return [SearchErrorResult()];
        }
        return [];
      case Ok(docs) =>
        results := FromDocuments(docs);
    }

    /** `get_relevant_schema_context`: the search, then its rendering. */
    method GetRelevantSchemaContext(query: string, k: int, found: Result<seq<StoredDocument>, string>)
      returns (context: Result<string, LookupError>, ghost results: seq<SearchResult>)
      ensures SearchAnswers(ciTestMode, vectorStore, query, k, found, results)
      ensures context == ContextOf(results)
      ensures ciTestMode ==> context.Ok?
      ensures ciTestMode && k <= 0 ==> context == Ok(NoSchemaInformation)
    {
      var answers := Search(query, k, found);
      results := answers;
      context := FormatContext(answers);
      if ciTestMode {
        CiContextRenders(query, k, answers);
      }
    }
  }
}
