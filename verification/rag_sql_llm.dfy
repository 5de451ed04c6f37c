/**
 * `RAGSQLGenerator`: the context handed to the language model and the
 * clean-up of its reply. The vector store, the retriever and the model are
 * parameters: `retrieved` is `None` when no vector store was loaded, and
 * `llm` maps the formatted context and the question to the model's reply
 * or to a failure (an exception raised while prompting).
 */
module RagSql {
  import opened Wrappers
  import opened Text
  import opened SchemaModel

  const NoContextFound: string := "No relevant context found."
  const NoVectorStore: string := "No RAG context available due to missing vector store."
  const NoDocumentsFound: string := "No specific RAG context found for this question."
  const LlmMissing: string := "-- LLM not initialized"
  const LlmFailed: string := "-- Error generating SQL query"
  const PartSeparator: string := "\n\n"
  const SqlFence: string := "```sql"
  const Fence: string := "```"

  /** The four ways a retrieved document is introduced. */
  datatype PartKind = TablePart | ColumnPart | ExamplePart | OtherPart

  /** `doc_info.get('metadata', {}).get('type', 'unknown')`, classified. */
  function KindOf(d: Document): PartKind
  {
    var t := FieldOr(d.metadata.GetOr(Metadata(map[], None)), "type", "unknown");
    if t == "table" then TablePart
    else if t == "column" then ColumnPart
    else if t == "example_query" then ExamplePart
    else OtherPart
  }

  function Prefix(k: PartKind): string
  {
    match k
    case TablePart => "Table Schema: "
    case ColumnPart => "Column Schema: "
    case ExamplePart => "-- Example SQL Query:\n"
    case OtherPart => "Context: "
  }

  /** The context part of one document: its kind's prefix, then its content (`""` when absent). */
  function ContextPart(d: Document): string
  {
    Prefix(KindOf(d)) + d.content.GetOr("")
  }

  function ContextParts(docs: seq<Document>): (r: seq<string>)
    ensures |r| == |docs|
    ensures forall i :: 0 <= i < |docs| ==> r[i] == ContextPart(docs[i])
  {
    seq(|docs|, i requires 0 <= i < |docs| => ContextPart(docs[i]))
  }

  /** Every part opens with its document's prefix and ends with its document's full content. */
  lemma ContextPartShape(d: Document)
    ensures StartsWith(ContextPart(d), Prefix(KindOf(d)))
    ensures EndsWith(ContextPart(d), d.content.GetOr(""))
    ensures |ContextPart(d)| == |Prefix(KindOf(d))| + |d.content.GetOr("")|
  {
    StartsWithConcat(Prefix(KindOf(d)), d.content.GetOr(""));
    var p, c := Prefix(KindOf(d)), d.content.GetOr("");
    assert (p + c)[|p + c| - |c|..] == c;
  }

  /** `_format_retrieved_context`: one part per document, in order, joined by a blank line. */
  method FormatRetrievedContext(docs: seq<Document>) returns (context: string)
    ensures docs == [] ==> context == NoContextFound
    ensures docs != [] ==> context == Join(PartSeparator, ContextParts(docs))
  {
    if docs == [] {
      return NoContextFound;
    }
    var parts: seq<string> := [];
    for i := 0 to |docs|
      invariant parts == ContextParts(docs[..i])
    {
      parts := parts + [ContextPart(docs[i])];
    }
    assert docs[..|docs|] == docs;
    context := Join(PartSeparator, parts);
  }

  /** The total length of the parts. */
  function TotalLength(parts: seq<string>): nat
    decreases |parts|
  {
    if parts == [] then 0 else TotalLength(parts[..|parts| - 1]) + |parts[|parts| - 1]|
  }

  /**
   * No document is dropped: the context is exactly as long as all parts
   * together plus one separator between each two, and each part ends with
   * its document's content (`ContextPartShape`).
   */
  lemma {:induction false} ContextLength(parts: seq<string>)
    requires parts != []
    ensures |Join(PartSeparator, parts)| == TotalLength(parts) + |PartSeparator| * (|parts| - 1)
    decreases |parts|
  {
    if |parts| > 1 {
      ContextLength(parts[..|parts| - 1]);
    }
  }

  /** The context `generate_sql_query` hands to the model: a fixed notice unless documents were retrieved. */
  method SelectContext(retrieved: Option<seq<Document>>) returns (context: string)
    ensures retrieved.None? ==> context == NoVectorStore
    ensures retrieved == Some([]) ==> context == NoDocumentsFound
    ensures retrieved.Some? && retrieved.value != [] ==> context == Join(PartSeparator, ContextParts(retrieved.value))
  {
    if retrieved.None? {
      context := NoVectorStore;
    } else if retrieved.value == [] {
      context := NoDocumentsFound;
    } else {
      context := FormatRetrievedContext(retrieved.value);
    }
  }

  /** The model's reply with a leading "```sql" and a trailing "```" cut off, each only when present. */
  function Unfenced(reply: string): string
  {
    var s := if StartsWith(reply, SqlFence) then reply[|SqlFence|..] else reply;
    if EndsWith(s, Fence) then s[..|s| - |Fence|] else s
  }

  /** The clean-up in `generate_sql_query`: cut the fences, then `strip()`. */
  method CleanReply(reply: string) returns (sql: string)
    ensures sql == Strip(Unfenced(reply))
    ensures sql != [] ==> !IsSpace(sql[0]) && !IsSpace(sql[|sql| - 1])
  {
    sql := reply;
    if StartsWith(sql, SqlFence) {
      sql := sql[|SqlFence|..];
    }
    if EndsWith(sql, Fence) {
      sql := sql[..|sql| - |Fence|];
    }
    sql := Strip(sql);
  }

  /** A reply that is already a bare statement, without fences or surrounding whitespace, is returned unchanged. */
  lemma CleanStatementUnchanged(q: string)
    requires !StartsWith(q, SqlFence) && !EndsWith(q, Fence)
    requires q != [] ==> !IsSpace(q[0]) && !IsSpace(q[|q| - 1])
    ensures Strip(Unfenced(q)) == q
  {
    StripOfStripped(q);
  }

  /** A bare statement wrapped in a "```sql" fence on lines of its own comes back as the statement. */
  lemma FencedStatementRecovered(q: string)
    requires q != [] && !IsSpace(q[0]) && !IsSpace(q[|q| - 1])
    ensures Strip(Unfenced(SqlFence + "\n" + q + "\n" + Fence)) == q
  {
    var reply := SqlFence + "\n" + q + "\n" + Fence;
    assert StartsWith(reply, SqlFence) by {
      assert reply == SqlFence + ("\n" + q + "\n" + Fence);
      StartsWithConcat(SqlFence, "\n" + q + "\n" + Fence);
    }
    var s := reply[|SqlFence|..];
    assert s == "\n" + q + "\n" + Fence;
    assert EndsWith(s, Fence) by {
      assert s[|s| - |Fence|..] == Fence;
    }
    var t := s[..|s| - |Fence|];
    assert t == "\n" + q + "\n";
    assert Strip(t) == Strip(t[1..]) by {
      assert IsSpace(t[0]);
    }
    assert t[1..] == q + "\n";
    var u := q + "\n";
    assert Strip(u) == Strip(u[..|u| - 1]) by {
      assert !IsSpace(u[0]) && IsSpace(u[|u| - 1]);
    }
    assert u[..|u| - 1] == q;
    StripOfStripped(q);
  }

  /** What the model does with a prompt: a reply, or an exception while prompting. */
  datatype LlmFailure = LlmFailure

  /**
   * `generate_sql_query`: `-- LLM not initialized` without a model; otherwise
   * the model's reply to the selected context and the question, cleaned up,
   * or `-- Error generating SQL query` when prompting failed.
   */
  method GenerateSqlQuery(llm: Option<(string, string) -> Result<string, LlmFailure>>,
                          retrieved: Option<seq<Document>>, question: string) returns (sql: string)
    ensures llm.None? ==> sql == LlmMissing
    ensures llm.Some? ==> exists context ::
      && (retrieved.None? ==> context == NoVectorStore)
      && (retrieved == Some([]) ==> context == NoDocumentsFound)
      && (retrieved.Some? && retrieved.value != [] ==> context == Join(PartSeparator, ContextParts(retrieved.value)))
      && sql == match llm.value(context, question)
                case Ok(reply) => Strip(Unfenced(reply))
                case Err(_) => LlmFailed
  {
    if llm.None? {
      return LlmMissing;
    }
    var context := SelectContext(retrieved);
    match llm.value(context, question)
    case Ok(reply) =>
      sql := CleanReply(reply);
    case Err(_) =>
      sql := LlmFailed;
  }
}
