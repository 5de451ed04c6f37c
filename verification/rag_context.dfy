/**
 * The context formatters of `RAGContextProvider`: the listing of the tables
 * that `search_schema` found, the listing of the statements retrieved from
 * the embedding store, and the extraction of key terms from the question.
 */
module RagContext {
  import opened Wrappers
  import opened Text
  import opened SchemaModel
  import opened SchemaSearch
  import opened SchemaFormat

  const RelevantSchemaHeader: string := "Relevant Database Schema:"
  const StatementsHeader: string := "Relevant Schema Statements:"

  /**
   * `_format_relevant_schema` over a `search_schema` result: the shared
   * listing under "Relevant Database Schema:". It always opens with the
   * header and a blank line, and is exactly that when nothing was found.
   */
  method FormatRelevantSchema(relevant: SearchResult) returns (formatted: string)
    ensures formatted == Unlines(SchemaLines(RelevantSchemaHeader, relevant.tables, relevant.relationships))
    ensures StartsWith(formatted, RelevantSchemaHeader + "\n\n")
    ensures relevant.tables.keys == [] && relevant.relationships == [] ==> formatted == RelevantSchemaHeader + "\n\n"
  {
    formatted := RenderSchema(RelevantSchemaHeader, relevant.tables, relevant.relationships);
    RenderedStartsWithHeader(RelevantSchemaHeader, relevant.tables, relevant.relationships);
    if relevant.tables.keys == [] && relevant.relationships == [] {
      EmptyListingIsHeader(RelevantSchemaHeader, relevant.tables, relevant.relationships);
    }
  }

  /** `stmt_info.get("metadata", {})`. */
  function StatementMetadata(d: Document): Metadata
  {
    d.metadata.GetOr(Metadata(map[], None))
  }

  /** The element type of a statement, `"unknown_type"` when its metadata has none. */
  function StatementType(d: Document): string
  {
    FieldOr(StatementMetadata(d), "type", "unknown_type")
  }

  /** The table of a statement: its `table_name`, else its `name`, else `"unknown_table"`. */
  function StatementTable(d: Document): string
  {
    var m := StatementMetadata(d);
    FieldOr(m, "table_name", FieldOr(m, "name", "unknown_table"))
  }

  /** The content of a statement, `"N/A"` when absent. */
  function StatementContent(d: Document): string
  {
    d.content.GetOr("N/A")
  }

  function StatementHeading(d: Document): string
  {
    "-- " + StatementType(d) + " for table " + StatementTable(d)
  }

  /**
   * Missing values fall back rather than dropping the statement: no metadata
   * gives the heading `-- unknown_type for table unknown_table`, a statement
   * with a `name` but no `table_name` is listed under its name, and absent
   * content reads `N/A` while blank content is kept as it is.
   */
  lemma StatementDefaults(d: Document)
    ensures d.metadata.None? ==> StatementHeading(d) == "-- unknown_type for table unknown_table"
    ensures d.metadata.Some? && "table_name" !in d.metadata.value.fields && "name" in d.metadata.value.fields ==>
      StatementTable(d) == d.metadata.value.fields["name"]
    ensures d.metadata.Some? && "table_name" in d.metadata.value.fields ==>
      StatementTable(d) == d.metadata.value.fields["table_name"]
    ensures d.content.None? ==> StatementContent(d) == "N/A"
    ensures d.content.Some? ==> StatementContent(d) == d.content.value
  {
  }

  /** One statement's block: its heading line, its content, a blank line. */
  function StatementBlock(d: Document): seq<string>
  {
    [StatementHeading(d), StatementContent(d), ""]
  }

  /** The blocks of the statements, in order. */
  function StatementBlocks(ds: seq<Document>): (r: seq<string>)
    ensures |r| == 3 * |ds|
    decreases |ds|
  {
    if ds == [] then [] else StatementBlocks(ds[..|ds| - 1]) + StatementBlock(ds[|ds| - 1])
  }

  /** What `_format_relevant_statements` returns: nothing for no statements, else the header, a blank line and the blocks. */
  function StatementsText(ds: seq<Document>): string
  {
    if ds == [] then "" else Unlines([StatementsHeader, ""] + StatementBlocks(ds))
  }

  /** The lines of the `i`th block are the `i`th statement's heading, content and a blank line. */
  lemma {:induction false} StatementBlocksAt(ds: seq<Document>, i: nat)
    requires i < |ds|
    ensures StatementBlocks(ds)[3 * i] == StatementHeading(ds[i])
    ensures StatementBlocks(ds)[3 * i + 1] == StatementContent(ds[i])
    ensures StatementBlocks(ds)[3 * i + 2] == ""
    decreases |ds|
  {
    var n := |ds| - 1;
    if i < n {
      StatementBlocksAt(ds[..n], i);
      assert ds[..n][i] == ds[i];
    }
  }

  /** The text of one block: `f"-- {type} for table {table}\n"` then `f"{content}\n\n"`. */
  lemma BlockText(d: Document)
    ensures Unlines(StatementBlock(d)) == StatementHeading(d) + "\n" + StatementContent(d) + "\n\n"
  {
    var h, c := StatementHeading(d), StatementContent(d);
    var b := StatementBlock(d);
    assert b[..2] == [h, c];
    assert [h, c][..1] == [h];
    assert [h][..0] == [];
    assert Unlines([h]) == h + "\n";
    assert Unlines([h, c]) == h + "\n" + c + "\n";
    assert Unlines(b) == h + "\n" + c + "\n" + "" + "\n";
  }

  /** One more statement appends its block's text. */
  lemma StatementsTextStep(ds: seq<Document>, i: nat)
    requires i < |ds|
    ensures Unlines([StatementsHeader, ""] + StatementBlocks(ds[..i + 1]))
         == Unlines([StatementsHeader, ""] + StatementBlocks(ds[..i])) + (StatementHeading(ds[i]) + "\n" + StatementContent(ds[i]) + "\n\n")
  {
    var done := [StatementsHeader, ""] + StatementBlocks(ds[..i]);
    assert ds[..i + 1][..i] == ds[..i];
    assert StatementBlocks(ds[..i + 1]) == StatementBlocks(ds[..i]) + StatementBlock(ds[i]);
    assert done + StatementBlock(ds[i]) == [StatementsHeader, ""] + StatementBlocks(ds[..i + 1]);
    UnlinesAppend(done, StatementBlock(ds[i]));
    BlockText(ds[i]);
  }

  /** The text after the header and the first `i` statements. */
  function StatementsSoFar(ds: seq<Document>, i: nat): string
    requires i <= |ds|
  {
    Unlines([StatementsHeader, ""] + StatementBlocks(ds[..i]))
  }

  /** `_format_relevant_statements`: the empty string exactly when there are no statements. */
  method FormatRelevantStatements(statements: seq<Document>) returns (formatted: string)
    ensures formatted == StatementsText(statements)
    ensures formatted == "" <==> statements == []
  {
    if statements == [] {
      return "";
    }
    formatted := StatementsHeader + "\n\n";
    assert formatted == Unlines([StatementsHeader, ""]) by {
      UnlinesSnoc([StatementsHeader], "");
      UnlinesSnoc([], StatementsHeader);
    }
    assert [StatementsHeader, ""] + StatementBlocks(statements[..0]) == [StatementsHeader, ""];
    for i := 0 to |statements|
      invariant formatted == StatementsSoFar(statements, i)
      invariant formatted != ""
    {
      formatted := AppendStatement(formatted, statements, i);
    }
    assert statements[..|statements|] == statements;
  }

  /** One pass of the loop: the heading line `-- {type} for table {table}`, then the content and a blank line. */
  method AppendStatement(formatted: string, statements: seq<Document>, i: nat) returns (out: string)
    requires i < |statements| && formatted == StatementsSoFar(statements, i)
    ensures out == StatementsSoFar(statements, i + 1)
    ensures |out| > |formatted|
  {
    var d := statements[i];
    var block := StatementHeading(d) + "\n" + StatementContent(d) + "\n\n";
    out := formatted + block;
    StatementsTextStep(statements, i);
  }

  lemma {:induction false} StatementBlocksSingle(ds: seq<Document>)
    requires forall d :: d in ds ==> SingleLine(StatementHeading(d)) && SingleLine(StatementContent(d))
    ensures forall l :: l in StatementBlocks(ds) ==> SingleLine(l)
    decreases |ds|
  {
    if ds != [] {
      var n := |ds| - 1;
      assert forall d :: d in ds[..n] ==> d in ds;
      StatementBlocksSingle(ds[..n]);
      assert ds[n] in ds;
    }
  }

  /**
   * When no heading or content holds a line break, `splitlines` recovers the
   * header, the blank line and the three-line blocks (`StatementBlocksAt`):
   * one block for every statement, none dropped, in order.
   */
  lemma StatementsTextSplits(ds: seq<Document>)
    requires ds != []
    requires forall d :: d in ds ==> SingleLine(StatementHeading(d)) && SingleLine(StatementContent(d))
    ensures SplitLines(StatementsText(ds)) == [StatementsHeader, ""] + StatementBlocks(ds)
  {
    var blocks := StatementBlocks(ds);
    var lines := [StatementsHeader, ""] + blocks;
    StatementBlocksSingle(ds);
    assert SingleLine(StatementsHeader);
    forall l | l in lines ensures SingleLine(l) {
      if l !in blocks {
        assert l == StatementsHeader || l == "";
      }
    }
    SplitUnlines(lines);
  }

  /** The words `_extract_query_terms` drops. */
  const StopWords: set<string> := {"the", "a", "an", "in", "on", "at", "by", "for", "with", "about", "from", "to", "of"}

  /** The tokens that survive the filter, lower-cased, in order, duplicates kept. */
  function KeptTerms(tokens: seq<string>): (terms: seq<string>)
    ensures |terms| <= |tokens|
    ensures forall t :: t in terms <==> exists tok :: tok in tokens && t == LowerStr(tok) && t !in StopWords && |tok| > 2
    decreases |tokens|
  {
    if tokens == [] then []
    else
      var rest := KeptTerms(tokens[1..]);
      assert forall tok :: tok in tokens <==> tok == tokens[0] || tok in tokens[1..];
      if LowerStr(tokens[0]) !in StopWords && |tokens[0]| > 2 then [LowerStr(tokens[0])] + rest else rest
  }

  /** A single token is kept, lower-cased, exactly when it passes the filter. */
  lemma KeptTermsSingle(tok: string)
    ensures KeptTerms([tok]) == if LowerStr(tok) !in StopWords && |tok| > 2 then [LowerStr(tok)] else []
  {
    assert [tok][1..] == [];
  }

  /**
   * The filter works token by token: the terms of `a + b` are the terms of
   * `a` followed by those of `b`. With `KeptTermsSingle` this fixes the
   * result of the comprehension outright: each kept token, in token order,
   * once per occurrence.
   */
  lemma {:induction false} KeptTermsAppend(a: seq<string>, b: seq<string>)
    ensures KeptTerms(a + b) == KeptTerms(a) + KeptTerms(b)
    decreases |a|
  {
    if a == [] {
      assert a + b == b;
    } else {
      assert (a + b)[0] == a[0];
      assert (a + b)[1..] == a[1..] + b;
      KeptTermsAppend(a[1..], b);
    }
  }

  /** Duplicates are kept: a token that passes the filter and occurs twice yields its term twice. */
  lemma KeptTermsRepeats(tok: string)
    requires LowerStr(tok) !in StopWords && |tok| > 2
    ensures KeptTerms([tok, tok]) == [LowerStr(tok), LowerStr(tok)]
  {
    KeptTermsSingle(tok);
    assert [tok, tok] == [tok] + [tok];
    KeptTermsAppend([tok], [tok]);
  }

  /** `_extract_query_terms`: the question's word tokens, lower-cased, without stop words and tokens of two characters or fewer. */
  function ExtractQueryTerms(query: string): seq<string>
  {
    KeptTerms(WordTokens(query))
  }

  /**
   * Each extracted term is lower-case, longer than two characters, not a
   * stop word, and one of the terms `search_schema` matches against.
   */
  lemma ExtractedTermsFacts(query: string)
    ensures forall t :: t in ExtractQueryTerms(query) ==>
      LowerStr(t) == t && |t| > 2 && t !in StopWords && t in QueryTerms(query)
  {
    WordTokensLower(query);
    forall t | t in ExtractQueryTerms(query)
      ensures LowerStr(t) == t && |t| > 2 && t !in StopWords && t in QueryTerms(query)
    {
      var tok :| tok in WordTokens(query) && t == LowerStr(tok) && t !in StopWords && |tok| > 2;
      LowerStrIdempotent(tok);
      var i :| 0 <= i < |WordTokens(query)| && WordTokens(query)[i] == tok;
      LowerAllAt(WordTokens(query), i);
      assert WordTokens(LowerStr(query))[i] == t;
    }
  }
}
