# Text2SQL schema layer and conversation graph, in Dafny

This project models the deterministic core of a retrieval-augmented
Text-to-SQL assistant:

- **Schema extraction.** `SchemaParser` reads `CREATE TABLE` statements from
  DDL text. It builds an insertion-ordered map from table names to columns,
  and a list of foreign-key relationships taken from inline `CONSTRAINT …
  FOREIGN KEY … REFERENCES …` clauses. The regular expressions are replaced
  by hand-written recognisers that follow each pattern's matching and
  backtracking (module `DdlPatterns`).
- **Lexical relevance search.** `search_schema` does direct matching on table
  and column names, alias matching, one in-order pass over the relationships
  (it grows the result while iterating), and a fallback to the first three
  tables (modules `SchemaSearch` and `SchemaParsing`).
- **Context formatting.**
  - The schema listing shared by `get_formatted_schema` and
    `_format_relevant_schema` (`SchemaFormat`).
  - The statement listing and the key-term extraction of
    `RAGContextProvider` (`RagContext`).
  - The retrieved-context formatting and the reply clean-up of
    `RAGSQLGenerator` (`RagSql`).
  - The document contents, the CI-mode search and the context rendering of
    `SchemaEmbeddingStore` (`SchemaEmbeddings`).
- **CSV schema loading.** `CsvSchemaLoader` maps rows of three CSV files to
  tables (last write wins), kept columns and kept joins
  (`CsvSchemaLoading`).
- **Generators.**
  - The table and column descriptions of `SchemaDescriptionGenerator`
    (`SchemaDescriptions`).
  - The sample statements of `ExampleQueryGenerator` (`ExampleQueries`).
    Every `random` pick is an arbitrary choice, so each property holds
    whatever is picked.
- **Conversation graph.** The router, the wait nodes, the state updates and
  the result message of the LangGraph conversation, with a proof that every
  run of `build_graph` reaches `generate_sql` (`ConversationGraph`).
- **Query models.** The `QueryExplanation` validators, its defaults and its
  `dict()` override (`QueryModels`).

Shared modules:

- `Text`: Python's character classes, `strip`, `splitlines`, the `\w+`
  tokeniser and `str(int)`.
- `OrderedMaps`: Python's insertion-ordered `dict`.
- `SchemaModel`: the column, relationship and document records.
- `Wrappers`: `Option` and `Result`.

Loops in the source are methods with loop invariants. Each such method is
proved equal to a specification function, and the source's promises are
lemmas about those functions. Objects whose fields the source updates are
classes: `SchemaParser`, `CsvSchemaLoader`, `SchemaEmbeddingStore`, and the
conversation history that `wait_for_feedback_node` appends to.

Two behaviours of the code are worth knowing:

- A table matched through a column token keeps only its matching columns
  (schema_parser.py:155-162).
- The description and example generators read `tables[t]['columns']`, while
  the parser stores a plain list (see Findings).

## Model

| member | source | states |
|---|---|---|
| SchemaParsing.SchemaParser.Init | schema_parser.py:8-13 | A new parser starts with no tables and no relationships |
| SchemaParsing.NewSchemaParser | schema_parser.py:15-21 | A missing DDL file is a `FileNotFound` error; otherwise the parser holds exactly the tables and relationships parsed from the text |
| SchemaParsing.SchemaParser.ParseDdl | schema_parser.py:25-101 | The tables become the old map updated, in match order, with one entry per `CREATE TABLE` match; the relationships become the old list extended by the inline foreign keys of every match, in order |
| SchemaParsing.ParseMatches | schema_parser.py:28-101 | The loop over table matches puts each cleaned name with its body's columns and appends each body's foreign keys |
| SchemaParsing.ParseStep | schema_parser.py:28-101 | One more table match adds exactly one table entry and that match's foreign keys |
| SchemaParsing.AddTable | schema_parser.py:75-101 | Processing one match assigns its columns under its cleaned name (overwriting a repeat) and appends its foreign keys with the table as source |
| SchemaParsing.ParseBody | schema_parser.py:41-73 | The columns of a body are exactly the per-line columns of its `splitlines`, in line order |
| SchemaParsing.AppendForeignKeys | schema_parser.py:84-101 | Each foreign-key match appends one relationship whose source table is the table being parsed |
| SchemaParsing.ParsedTablesFacts | schema_parser.py:32-70 | No parsed table name contains `[` or `]`; every column name is a `\w+` identifier whose upper-case form is none of the ten SQL keywords |
| SchemaParsing.RepeatedTableOverwrites | schema_parser.py:75 | A name is a table iff some match cleans to it, and a repeated table keeps the columns of its last match |
| SchemaParsing.MatchesRelationshipsFacts | schema_parser.py:80-101 | Every relationship's source is the cleaned name of some table match, and its three other fields are identifiers |
| SchemaParsing.RelationshipsFromParsedTables | schema_parser.py:80-101 | Every relationship's source table is a parsed table |
| SchemaParsing.NoCreateTableNoSchema | schema_parser.py:25-26 | DDL without `CREATE TABLE` yields no tables and no relationships (commented-out `ALTER TABLE` clauses add nothing) |
| DdlPatterns.TableAt | schema_parser.py:25 | A table match starting at a position ends strictly after it and within the text |
| DdlPatterns.CloseAt | schema_parser.py:25 | The lazy body ends at the first `);` after its start: no earlier `);` exists |
| DdlPatterns.NoCreateNoTables | schema_parser.py:25-26 | Text without `CREATE TABLE` from a position on yields no table matches |
| DdlPatterns.CleanTableName | schema_parser.py:32-38 | A cleaned table name holds no bracket |
| DdlPatterns.CleanBareName | schema_parser.py:32-38 | A bare identifier, and that identifier in brackets, clean to itself |
| DdlPatterns.CleanDottedName | schema_parser.py:34-37 | A `dbo.` prefix in any letter case is dropped |
| DdlPatterns.CleanBracketedDboName | schema_parser.py:34-38 | `[dbo].[T]` cleans to `T` |
| DdlPatterns.RemoveBracketsIdentity | schema_parser.py:38 | Removing brackets from a bracket-free name changes nothing |
| DdlPatterns.ColumnAt | schema_parser.py:45 | A column match has an identifier name and a type that starts with a letter or `_` |
| DdlPatterns.ParenSuffixEnd | schema_parser.py:45 | The optional `( n )`, `( MAX )` or `( n , m )` suffix runs from `(` to `)` |
| DdlPatterns.LineColumn | schema_parser.py:47-70 | Blank lines, `--` comments and lines starting `CONSTRAINT` (any case) give no column; a column given has an identifier name that is not a keyword |
| DdlPatterns.LinesColumnsNext | schema_parser.py:47-73 | One more body line adds exactly its column when it yields one, and nothing otherwise |
| DdlPatterns.LinesColumnsFacts | schema_parser.py:47-73 | There are at most as many columns as lines, each produced by one line, none a keyword |
| DdlPatterns.OneLineBodyAtMostOneColumn | schema_parser.py:47-48 | A body without a line break yields at most one column |
| DdlPatterns.FkAt | schema_parser.py:80 | An inline foreign-key match ends after its start; its source column, target table and target column are identifiers |
| DdlPatterns.FkMatchesFrom | schema_parser.py:81-84 | Every `finditer` match of the foreign-key pattern carries identifier fields |
| DdlPatterns.FkRelationships | schema_parser.py:84-101 | One relationship per foreign-key match, in match order, with the parsed table as source |
| SchemaParsing.SchemaParser.GetTableInfo | schema_parser.py:120-124 | Every table keeps its columns under its name, except a table named `foreign_keys`, whose entry is replaced by the relationship list; no other key appears, and key order is kept |
| SchemaParsing.SchemaParser.GetFormattedSchema | schema_parser.py:126-141 | The text is the schema listing under `Database Schema:` |
| SchemaFormat.RenderSchema | schema_parser.py:126-141 | The text built with `+=` equals the listing's lines, each ended by a line break |
| SchemaFormat.AppendTable | schema_parser.py:131-135 | One table adds `Table: name`, one `  - col (type)` line per column in order, then a blank line |
| SchemaFormat.AppendRelationships | schema_parser.py:137-140 | The relationships add a `Relationships:` line, then one `  - src.col -> dst.col` line each, in order |
| SchemaFormat.TablesThenRelationships | schema_parser.py:128-141 | The listing is the header and blank line, then the table blocks, then the relationship section |
| SchemaFormat.RenderedStartsWithHeader | schema_parser.py:128 | Every listing starts with its header and a blank line |
| SchemaFormat.EmptyListingIsHeader | rag_context.py:46-59 | With no tables and no relationships the listing is exactly the header and a blank line |
| SchemaFormat.RelationshipsSectionIff | schema_parser.py:137-140 | A `Relationships:` line appears iff there are relationships |
| SchemaFormat.TablesLinesShape | schema_parser.py:131-135 | Every table-section line is blank, a `Table: ` line or a `  - ` column line |
| SchemaFormat.RenderedLines | schema_parser.py:126-141 | When no name holds a line break, `splitlines` of the listing recovers exactly its lines |
| SchemaFormat.SchemaLinesSingle | schema_parser.py:126-141 | No line of the listing holds a line break when no name or type does |
| SchemaParsing.SchemaParser.SearchSchema | schema_parser.py:143-204 | The result is the specification `Search` over the query's lower-cased tokens, visited in some order of the term set; a schema whose relationships name only its tables always succeeds; a success is non-empty for a non-empty schema, holds only schema tables, keeps every direct match with its columns, and returns only schema relationships whose two endpoints are in the result |
| SchemaParsing.SchemaParser.DirectMatch | schema_parser.py:151-162 | The direct pass over all tables, in order |
| SchemaParsing.RelevantColumns | schema_parser.py:158-160 | The columns whose lower-cased name is a query term, in order |
| SchemaParsing.SchemaParser.AliasMatch | schema_parser.py:164-181 | The alias pass over some enumeration of the term set: a table is found iff some query term is one of its aliases, and it is found with all its columns |
| SchemaParsing.AddTablesContaining | schema_parser.py:178-181 | Adds every table whose lower-cased name contains the alias key |
| SchemaParsing.SchemaParser.AddRelated | schema_parser.py:184-192 | The in-order relationship pass from the matched tables; a dangling endpoint is a `KeyError` |
| SchemaParsing.SchemaParser.AddFallback | schema_parser.py:195-199 | The fallback: the first `min(3, n)` tables and no relationships when nothing matched |
| OrderedMaps.CopyFirst | schema_parser.py:196-198 | Copying the first `n` tables gives the first `n` entries in insertion order |
| SchemaSearch.QueryTermsIgnoreCase | schema_parser.py:145 | The query terms do not depend on letter case |
| SchemaSearch.MatchingColumns | schema_parser.py:158-160 | A column is kept iff it is a table column whose lower-cased name is a term |
| SchemaSearch.DirectPassEntries | schema_parser.py:151-162 | A table is in the direct result iff its lower-cased name is a term (with all columns) or some column matches (with exactly the matching columns) |
| SchemaSearch.AddContainingEntries | schema_parser.py:178-181 | The alias step adds exactly the tables whose lower-cased name contains the key, each with all its columns |
| SchemaSearch.AliasForTermEntries | schema_parser.py:176-181 | For one term, a table is added iff some alias applicable to the term is contained in its lower-cased name |
| SchemaSearch.AliasPassEntries | schema_parser.py:164-181 | A table is in the alias result iff some term selects it, and it carries its full column list |
| SchemaSearch.AliasPassTerms | schema_parser.py:164-181 | The alias result depends only on the term set: a table is found iff some term selects it, with all its columns |
| SchemaSearch.AliasPassOrderIrrelevant | schema_parser.py:176 | The set iteration order of the terms does not change which tables the alias pass finds |
| SchemaSearch.RelStepFacts | schema_parser.py:185-192 | One relationship is included iff an endpoint is already relevant; its missing endpoints are then added with all columns, and nothing else changes |
| SchemaSearch.RelPassFacts | schema_parser.py:184-192 | The pass keeps every table already found, adds only schema tables, appends only relationships from the list, and includes every relationship touching a table found before the pass |
| SchemaSearch.RelPassIncludesWhenVisited | schema_parser.py:184-192 | The visit of a relationship appends it exactly when one of its endpoints is among the tables found so far, including tables added earlier in the same pass, and an appended relationship is in the final result |
| SchemaSearch.RelPassIncludes | schema_parser.py:184-192 | Every relationship touching an already-relevant table is included |
| SchemaSearch.RelPassOk | schema_parser.py:190-192 | When every endpoint is a table, the pass raises no `KeyError` |
| SchemaSearch.FinishPass | schema_parser.py:184-204 | After the pass every included relationship has both endpoints in the result |
| SchemaSearch.FinishFacts | schema_parser.py:184-204 | The result only holds schema tables, keeps the matched tables as matched, and every relationship in it is a schema relationship with both endpoints present |
| SchemaSearch.SearchOkWhenClosed | schema_parser.py:143-204 | A schema without dangling endpoints never raises |
| SchemaSearch.SearchResultFacts | schema_parser.py:143-204 | A non-empty schema gives a non-empty result; result tables and relationships come from the schema, with relationship endpoints present |
| SchemaSearch.SearchKeepsDirectMatches | schema_parser.py:151-192 | Every direct match appears in the result with exactly its directly matched columns |
| SchemaSearch.MatchedFacts | schema_parser.py:164-165 | Alias matching is used only when direct matching found nothing |
| SchemaSearch.SearchFallback | schema_parser.py:195-199 | When nothing matches, the result is the first `min(3, n)` tables and no relationships |
| SchemaSearch.FallbackFromEmpty | schema_parser.py:184-192 | With nothing matched, the relationship pass adds nothing |
| SchemaParsing.SchemaParser.GetElementsForEmbedding | schema_parser.py:206-250 | The elements are, per table in order, the table element and one element per column, then one element per relationship |
| SchemaParsing.AppendTableElements | schema_parser.py:211-239 | One table contributes its table element followed by its column elements |
| SchemaParsing.AppendRelationshipElements | schema_parser.py:242-248 | Each relationship contributes one element, in order |
| SchemaParsing.ColumnElementsFacts | schema_parser.py:227-239 | Every column element names its table and a column of it |
| SchemaParsing.TablesElementsFacts | schema_parser.py:211-239 | Every table element carries its table's full column list; every column element refers to a column of a schema table |
| SchemaParsing.EmbeddingElementCount | schema_parser.py:206-250 | There are as many elements as tables plus columns plus relationships |
| RagContext.FormatRelevantSchema | rag_context.py:44-59 | The listing under `Relevant Database Schema:`; it always opens with that header and a blank line, and is exactly that when nothing was found |
| RagContext.FormatRelevantStatements | rag_context.py:61-82 | `""` exactly for no statements; otherwise the header, a blank line and one block per statement, in order |
| RagContext.AppendStatement | rag_context.py:68-80 | Each statement adds its heading line, its content and a blank line |
| RagContext.StatementDefaults | rag_context.py:68-79 | Missing type reads `unknown_type`, the table falls back from `table_name` to `name` to `unknown_table`, missing content reads `N/A`, and blank content is kept |
| RagContext.StatementBlocksAt | rag_context.py:68-80 | Block `i` is statement `i`'s heading, content and a blank line: no statement is dropped |
| RagContext.StatementsTextSplits | rag_context.py:61-82 | For single-line headings and contents, `splitlines` recovers the header, the blank line and every block |
| RagContext.KeptTerms | rag_context.py:84-90 | A term is kept iff it is a lower-cased token of more than two characters that is not a stop word |
| RagContext.KeptTermsSingle | rag_context.py:88-89 | One token gives its lower-cased form when it passes the filter, and nothing otherwise |
| RagContext.KeptTermsAppend | rag_context.py:88-89 | The terms of two token runs are the terms of the first followed by those of the second: token order is kept |
| RagContext.KeptTermsRepeats | rag_context.py:88-89 | A passing token that occurs twice gives its term twice: duplicates are kept |
| RagContext.ExtractedTermsFacts | rag_context.py:84-90 | Every extracted term is lower-case, longer than two characters, not a stop word, and one of the terms `search_schema` matches on |
| CsvSchemaLoading.NewCsvSchemaLoader | csv_schema_loader.py:40-64 | A missing tables, columns or joins file aborts loading with `FileNotFound` for that file; otherwise the loader holds the mapped tables, columns and joins |
| CsvSchemaLoading.CsvSchemaLoader.Init | csv_schema_loader.py:40-44 | A new loader is empty |
| CsvSchemaLoading.CsvSchemaLoader.LoadTables | csv_schema_loader.py:66-76 | The tables become the old map with every named row put under its stripped name; columns and joins are unchanged |
| CsvSchemaLoading.LoadedTableKeys | csv_schema_loader.py:66-76 | A name is a table iff it is non-empty and some row has it |
| CsvSchemaLoading.LoadedTableLastWins | csv_schema_loader.py:76 | A repeated table name keeps its last row |
| CsvSchemaLoading.LoadedTablesNamed | csv_schema_loader.py:76 | Every table is stored under its own name |
| CsvSchemaLoading.CsvSchemaLoader.LoadColumns | csv_schema_loader.py:78-93 | The columns become the old list extended by the kept column rows, in row order |
| CsvSchemaLoading.KeptColumnsMembers | csv_schema_loader.py:81-93 | A column is kept iff its table, column name and data type are non-empty after stripping and some row yields it |
| CsvSchemaLoading.KeptColumnsAppend | csv_schema_loader.py:78-93 | Column filtering preserves row order (it distributes over concatenation) |
| CsvSchemaLoading.CsvSchemaLoader.LoadJoins | csv_schema_loader.py:95-112 | The joins become the old list extended by the kept join rows, in row order |
| CsvSchemaLoading.KeptJoinsMembers | csv_schema_loader.py:98-112 | A join is kept iff its primary table and column and foreign table and column are all non-empty and some row yields it |
| CsvSchemaLoading.KeptJoinsAppend | csv_schema_loader.py:95-112 | Join filtering preserves row order |
| CsvSchemaLoading.CsvSchemaLoader.GetTables | csv_schema_loader.py:115-116 | The tables in insertion order |
| CsvSchemaLoading.CsvSchemaLoader.GetTableByName | csv_schema_loader.py:118-119 | The table under the name, or `None` exactly when there is none |
| CsvSchemaLoading.CsvSchemaLoader.GetColumnsForTable | csv_schema_loader.py:121-122 | Exactly the columns whose table name equals the argument |
| CsvSchemaLoading.ColumnsOfAppend | csv_schema_loader.py:121-122 | The selection keeps load order |
| CsvSchemaLoading.CsvSchemaLoader.GetTableDescription | csv_schema_loader.py:130-132 | `None` exactly for an unknown table, else its description |
| CsvSchemaLoading.CsvSchemaLoader.GetColumnDescription | csv_schema_loader.py:134-138 | The description of the first column matching table and column name, or `None` exactly when none matches |
| SchemaDescriptions.GetTableDescriptions | schema_description_generator.py:20-41 | The loop's result is one table description per table, in map order |
| SchemaDescriptions.TableDescriptionsUpTo | schema_description_generator.py:28-41 | Description `i` has type `table`, the `i`th table's name, and content `Table '<t>' contains columns: ` with the `name (type)` entries joined by `, ` |
| SchemaDescriptions.TableDescriptionsOnePerTable | schema_description_generator.py:28-41 | Every table has a description, no table has two, and every description names a table |
| SchemaDescriptions.GetColumnDescriptions | schema_description_generator.py:43-66 | The loops' result is one column description per column, table-major then column order |
| SchemaDescriptions.ColumnDescriptionsOfAt | schema_description_generator.py:51-66 | Column description `i` of a table names the table and its `i`th column, with the lower-cased column name in its content |
| SchemaDescriptions.ColumnDescriptionsSound | schema_description_generator.py:51-66 | Every column description names a table and one of its columns, with the matching content |
| SchemaDescriptions.ColumnDescriptionsComplete | schema_description_generator.py:51-66 | Every column of every table has its description |
| SchemaDescriptions.ColumnDescriptionsCount | schema_description_generator.py:51-66 | There are as many column descriptions as columns |
| SchemaDescriptions.GetAllDescriptions | schema_description_generator.py:68-78 | All table descriptions followed by all column descriptions; the length is the number of tables plus the number of columns |
| SchemaDescriptions.AllDescriptionsCount | schema_description_generator.py:75-78 | The combined length is tables plus columns |
| SchemaDescriptions.AsWrittenFailsOnAnyTable | schema_description_generator.py:31 | As written, `get_table_descriptions` raises `TypeError` for every non-empty schema the parser stores |
| SchemaDescriptions.ColumnsAsWrittenFailsOnAnyTable | schema_description_generator.py:53 | As written, `get_column_descriptions` raises `TypeError` for every non-empty schema the parser stores |
| SchemaDescriptions.OneTableCounterexample | schema_description_generator.py:31 | A one-table schema on which the code as written raises while the corrected version describes the table |
| SchemaDescriptions.AsWrittenOnColumnsField | schema_description_generator.py:28-41 | Given the `{'columns': [...]}` shape the code subscripts, the code as written equals the corrected descriptions |
| ExampleQueries.ColumnsByTypeMembers | example_query_generator.py:25-33 | For a known table, a name is returned iff some column has it and its lower-cased type is in the class |
| ExampleQueries.ColumnsByType | example_query_generator.py:27-28 | An unknown table yields `[]` |
| ExampleQueries.ColumnsOfClassMembers | example_query_generator.py:29-33 | The classifier keeps exactly the columns whose lower-cased type contains one of the class's marker words |
| ExampleQueries.ClassIgnoresCase | example_query_generator.py:31 | Classification does not depend on the letter case of types |
| ExampleQueries.RandomColumns | example_query_generator.py:49-58 | `[]` for an unknown table; otherwise the names of `min(len, count)` columns at distinct positions of the table (a name listed twice can repeat) |
| ExampleQueries.SelectRound | example_query_generator.py:74-96 | A round starts with `SELECT * FROM table`; it adds the `LIKE` select exactly when the table has a text column and the `ORDER BY` select exactly when it has a numeric and a date column, in that order; every statement is valid |
| ExampleQueries.SimpleSelects | example_query_generator.py:73-96 | Every simple select is valid for the schema; none are emitted for a non-positive count; when no table is named `""`, each of the `perType` rounds emits at least one statement and the first is a `SELECT *` |
| ExampleQueries.PairJoins | example_query_generator.py:98-121 | A two-table join is emitted only for a listed relationship whose endpoint tables both exist and each yield a column |
| ExampleQueries.AggregateRound | example_query_generator.py:124-149 | A round starts with `COUNT(*)` over the table; it is that alone when the table has no numeric column, and is followed by the SUM and AVG pair whenever a numeric column and a text or date column exist |
| ExampleQueries.AggregateTriple | example_query_generator.py:128-149 | The three aggregate statements are valid and their SUM and AVG are paired |
| ExampleQueries.Aggregates | example_query_generator.py:123-149 | Every aggregate is valid, every SUM is directly followed by its AVG and every AVG directly preceded by its SUM; when no table is named `""`, each round emits at least one statement, the first a `COUNT(*)` |
| ExampleQueries.OtherColumns | example_query_generator.py:138-142 | The grouping fallback is every column other than the aggregated one |
| ExampleQueries.ChainJoins | example_query_generator.py:151-188 | A three-table join is emitted only for two distinct relationships that chain, do not close on themselves, and whose three tables exist |
| ExampleQueries.SectionsCombine | example_query_generator.py:73-188 | The four sections together keep validity and the SUM/AVG pairing |
| ExampleQueries.FirstOccurrences | example_query_generator.py:190-193 | The de-duplicated list holds exactly the generated statements |
| ExampleQueries.FirstOccurrencesOrdered | example_query_generator.py:190-193 | It has no duplicates and keeps first occurrences in generation order |
| ExampleQueries.Dedupe | example_query_generator.py:191-192 | The `seen`-set loop returns the first occurrences |
| ExampleQueries.GenerateExampleQueries | example_query_generator.py:61-193 | No tables yields exactly `-- No tables found in schema to generate queries.`; otherwise the first occurrences of valid, SUM/AVG-paired statements, which for a positive count (and no table named `""`) include a `SELECT * FROM t LIMIT 10;` for some table `t` |
| ExampleQueries.GeneratedDistinct | example_query_generator.py:190-193 | The output has no duplicates and loses no generated statement |
| ExampleQueries.RandomColumnsAsWrittenFails | example_query_generator.py:54 | As written, `_get_random_columns` raises `TypeError` for every table the parser stores |
| RagSql.FormatRetrievedContext | rag_sql_llm.py:58-80 | `No relevant context found.` for no documents; otherwise one part per document, in order, joined by a blank line |
| RagSql.ContextPartShape | rag_sql_llm.py:67-78 | Each part starts with its type's prefix (`Table Schema: `, `Column Schema: `, `-- Example SQL Query:` and a line break, else `Context: `) and ends with the full content |
| RagSql.ContextLength | rag_sql_llm.py:80 | The context is exactly the parts plus one separator between each two: no document is dropped |
| RagSql.SelectContext | rag_sql_llm.py:97-106 | Without a vector store and with no documents found the context is a fixed notice; otherwise the formatted documents |
| RagSql.CleanReply | rag_sql_llm.py:133-138 | The reply without a leading "```sql" and a trailing "```", stripped; the result has no leading or trailing whitespace |
| RagSql.CleanStatementUnchanged | rag_sql_llm.py:133-138 | A bare statement comes back unchanged |
| RagSql.FencedStatementRecovered | rag_sql_llm.py:133-138 | A statement in a "```sql" block on lines of its own comes back as the statement |
| RagSql.GenerateSqlQuery | rag_sql_llm.py:93-144 | `-- LLM not initialized` without a model; `-- Error generating SQL query` when prompting fails; otherwise the cleaned reply to the selected context |
| Text.StripSpec | rag_sql_llm.py:138 | `strip` removes exactly the leading and trailing whitespace |
| SchemaEmbeddings.SchemaEmbeddingStore.constructor | schema_embedding_store.py:50-86 | In CI mode, or without a cached store, a new store holding only the placeholder document; otherwise the cached store |
| SchemaEmbeddings.SchemaEmbeddingStore.AddSchemaElements | schema_embedding_store.py:88-123 | A `KeyError` leaving the store untouched when an element lacks its type or name; an empty list keeps the existing store; otherwise one document per element, in order |
| SchemaEmbeddings.BuildContent | schema_embedding_store.py:93-98 | The content built with `+=` is the element's specified content |
| SchemaEmbeddings.ElementContentShape | schema_embedding_store.py:93-98 | Content is `<type>: <name>`, then `Description:` only for a truthy description, then `Columns: n (t), …` only for non-empty columns |
| SchemaEmbeddings.Documents | schema_embedding_store.py:100-104 | One document per element, in order, with the element as metadata |
| SchemaEmbeddings.ParserElementStoredByHeader | schema_embedding_store.py:93 | A parser element is stored under `<type>: <name>`; its own `content` field is kept only in the metadata |
| SchemaEmbeddings.DummyResults | schema_embedding_store.py:141-155 | CI mode: `min(k, 2)` results (none for k of 0 or less), the i-th being dummy result i |
| SchemaEmbeddings.FromDocuments | schema_embedding_store.py:179-187 | One result per retrieved document, in order, with its content and metadata |
| SchemaEmbeddings.SchemaEmbeddingStore.Search | schema_embedding_store.py:135-187 | CI mode gives `min(k, 2)` dummy results; no store gives none; a recoverable search error gives the placeholder result; otherwise one result per document, in order |
| SchemaEmbeddings.DummyResult | schema_embedding_store.py:142-153 | Dummy result `i` is a table when `i` is even and a column when it is odd |
| SchemaEmbeddings.SearchAnswersUnique | schema_embedding_store.py:135-187 | The answer is determined by the mode, the store and the search outcome |
| SchemaEmbeddings.SchemaEmbeddingStore.GetRelevantSchemaContext | schema_embedding_store.py:189-207 | The search's answer, rendered; in CI mode the rendering always succeeds, and a non-positive k gives the no-schema-information message |
| SchemaEmbeddings.FormatContext | schema_embedding_store.py:191-207 | The loop's result is the specified rendering, including the `KeyError` raised on the first result without `type` or `name` |
| SchemaEmbeddings.ResultPartsIff | schema_embedding_store.py:196-205 | Rendering succeeds iff every result has `type` and `name`, with one part per result |
| SchemaEmbeddings.ResultPartShape | schema_embedding_store.py:198-205 | A table renders `Table: name`, `Columns:` and its column lines; anything else renders `type: name` and its content; every part ends with a line break |
| SchemaEmbeddings.CiContextRenders | schema_embedding_store.py:191-194 | CI-mode results always render, and no results render as `No schema information available.` |
| SchemaEmbeddings.PlaceholderNotRenderable | schema_embedding_store.py:198-205 | A result made from the placeholder document, which has no `name`, makes rendering raise `KeyError` |
| SchemaEmbeddings.RaisedStaysRaised | schema_embedding_store.py:197-205 | Once one part raises, the whole rendering raises that error |
| ConversationGraph.History.Append | graph_builder.py:461-464 | Appending adds exactly one message at the end |
| ConversationGraph.InitializeState | graph_builder.py:347-363 | Both queries are the question, the count is 0, every optional field is `None`, and the history is exactly one user message |
| ConversationGraph.UpdateStateWithFeedback | graph_builder.py:365-377 | Sets the feedback, keeps every other field, and returns a new history one `Feedback: …` user message longer |
| ConversationGraph.UpdateStateWithClarification | graph_builder.py:379-392 | Replaces the current query, resets the feedback, keeps every other field, and appends one `Clarification: …` message to a new history |
| ConversationGraph.ShouldContinueToSql | graph_builder.py:248-272 | With `c = count + 1`: `generate_sql` once `c > 5`; `wait_for_clarification` iff `c <= 5` and feedback is `not_good`; `wait_for_feedback` iff `c <= 3` and feedback is neither |
| ConversationGraph.AfterWaitForFeedback | graph_builder.py:286-303 | The wait raises the count by one and leaves the history object in place |
| ConversationGraph.WaitForFeedbackNode | graph_builder.py:450-467 | Raises the count by one; past 3 it appends exactly one assistant message and forces feedback `good` and `_force_end`; otherwise nothing else changes |
| ConversationGraph.WaitForClarificationNode | graph_builder.py:305-309 | Raises the count by one and changes nothing else |
| ConversationGraph.RunReachesSql | graph_builder.py:315-339 | From any node of `build_graph`, running the edges reaches `generate_sql` |
| ConversationGraph.StepsBounded | graph_builder.py:252-258 | `generate_sql` is at most `2 * (5 - count) + 2` steps away |
| ConversationGraph.FreshConversationBounded | graph_builder.py:347-363 | A new conversation reaches `generate_sql` within 12 steps |
| ConversationGraph.AfterDetectIntent | graph_builder.py:485 | `explain_query` iff `sql_intent` is true, else the end |
| ConversationGraph.AfterFeedbackSimple | graph_builder.py:504 | `generate_sql` iff feedback is `good` or `_force_end` is set, else the end |
| ConversationGraph.SimpleGraphWaitRouting | graph_builder.py:450-504 | In the simple graph a wait past 3 always goes on to `generate_sql` |
| ConversationGraph.FormatQueryResultMessage | graph_builder.py:233-245 | A failure gives `Query execution failed: …`, no data gives the fixed no-results message, one row gives `… 1 row.` |
| ConversationGraph.RowCountReadBack | graph_builder.py:244-245 | For two rows or more the message is `The query returned <n> rows.` and `<n>` parses back to the row count |
| ConversationGraph.FailureMessageRaises | graph_builder.py:236 | As written, every failed result raises `AttributeError` on `.error`; the corrected message uses `error_message` |
| QueryModels.ValidationErrors | pydantic_models.py:34-46 | No errors iff both target lists are non-empty; each validator's message appears iff its list is empty |
| QueryModels.NewQueryExplanation | pydantic_models.py:22-46 | Construction fails iff a target list is empty; a constructed value keeps its targets, and omitted filters, joins and grouping default to empty lists and `order_by` and `limit` to `None` |
| QueryModels.Dict | pydantic_models.py:48-55 | Same keys as the base dictionary; each entry is `None` if it was an empty list, else unchanged |
| QueryModels.ReadableSettled | pydantic_models.py:51-53 | After the rewrite no entry is an empty list, and rewriting again changes nothing |
| QueryModels.DictKeepsTargets | pydantic_models.py:34-55 | For a valid explanation, `target_tables` and `target_columns` stay lists |
| QueryModels.DefaultsReadAsNone | pydantic_models.py:27-55 | The defaulted filters, joins and grouping read as `None` in `dict()` |
| OrderedMaps.PutAllLastWins | schema_parser.py:75 | After assigning entries in order, a key is present iff it was present or assigned, and holds its last assigned value |
| OrderedMaps.Put | csv_schema_loader.py:76 | Assigning a key updates its value; a new key goes to the end of the order |

## Left out

- File reading and persistence: opening the DDL file, decoding CSV files
  (the exception branch of `_read_csv` included), pickle and FAISS
  save/load, and `save_queries_to_file`. A file is a parameter, either its
  text or its rows, with `None` for a missing file.
- Embedding vectors, FAISS similarity search and scores (floating point).
  The similarity search is a parameter: the retrieved documents or the
  exception message. The `score` field of a search result is not modelled.
- SchemaEmbeddings.SchemaEmbeddingStore.Search: the retrieved documents are
  not bounded by `k`, because the bound is a promise of the similarity
  search, which is a parameter here. The model therefore does not state
  that a search outside CI mode gives at most `max(k, 0)` results.
- The language model. In `RagSql.GenerateSqlQuery` it is a function
  parameter that returns a reply or a failure. The prompt templates are
  not modelled. The nodes that prompt the model (`explain_query_node`,
  `generate_sql_node`, `detect_sql_intent_node`) and graph compilation are
  not part of this model.
- `RAGContextProvider.__init__` and `get_relevant_context`: they only
  combine the parser, the embedding store and the formatters modelled
  here.
- `get_all_columns` and `get_foreign_keys` of `CsvSchemaLoader` return the
  fields as they are. The model reads `columns` and `joins` directly.
- `\w`, `\d`, `lower()` and `upper()` are over ASCII only. `strip()`,
  `splitlines()` and `\s` use Python's full whitespace and line-break sets.
- `re.IGNORECASE` is modelled as ASCII case folding. Python's Unicode folding
  also lets `ſ` (U+017F) match `s` and the Kelvin sign `K` (U+212A) match `k`
  in the literal keywords (`CREATE TABLE`, `CONSTRAINT`, `FOREIGN KEY`,
  `REFERENCES`, `dbo`) and in `[a-zA-Z]` of schema_parser.py's patterns; the
  model does not match those.
- Short CSV rows: `DictReader` fills their missing cells with `None`, so
  `rec.get(..., '')` returns `None` and the following `.strip()` raises
  `AttributeError` (csv_schema_loader.py:70-73, and likewise in the column
  and join loaders). That exception is outside the `try` around the reads
  (csv_schema_loader.py:56-63) and aborts construction of the loader. The
  model reads such cells as empty strings and does not model the abort.
- Values typed `Any` in the graph state and query results (`data` rows,
  `sql_intent`) are strings or booleans. Pydantic's coercion of untyped
  input is not modelled: a constructor receives typed arguments.
- The `-- No tables available for query generation.` branch
  (example_query_generator.py:70-71) is unreachable once the table map is
  non-empty, so it is not modelled.
- ExampleQueries.GenerateExampleQueries: `random.choice` and
  `random.sample` are arbitrary choices (`:|`), so the contract holds for
  every possible pick rather than stating a distribution.
- ExampleQueries.GenerateExampleQueries: the generators read column lists
  directly (the corrected reading; see Findings). The code as written is
  modelled separately.
- RagContext.StatementsTextSplits: requires headings and contents without
  line breaks. A multi-line content still yields its block
  (`StatementBlocksAt`), but `splitlines` then gives more lines.
- SchemaSearch.RelPassOk: the `KeyError` for a relationship whose endpoint
  is not a table is an error outcome of `Search`. Lemmas about a successful
  search require that outcome not to occur.

## Findings

| source | as written | input that shows it | evidently intended | confidence | as-written member | corrected member |
|---|---|---|---|---|---|---|
| schema_description_generator.py:31,53 | `table_data['columns']` subscripts the value the parser stores for a table, which is a plain list (schema_parser.py:75) | a DDL with one table, `CREATE TABLE Claims (` / `Claim_ID INT` / `);`: a `TypeError` is raised | describe the table's column list itself | not executed | SchemaDescriptions.OneTableCounterexample, SchemaDescriptions.AsWrittenFailsOnAnyTable, SchemaDescriptions.ColumnsAsWrittenFailsOnAnyTable | SchemaDescriptions.GetTableDescriptions, SchemaDescriptions.GetColumnDescriptions, SchemaDescriptions.AsWrittenOnColumnsField |
| example_query_generator.py:30,54,133 | `self.schema_parser.tables[t]['columns']` subscripts the parser's plain column list | any parsed table, for example `Claims` above: a `TypeError` is raised | read the column list itself | not executed | ExampleQueries.RandomColumnsAsWrittenFails | ExampleQueries.RandomColumns, ExampleQueries.ColumnsByTypeMembers |
| graph_builder.py:236 | a failed result's message reads `query_result.error`, but `QueryResult` only has `error_message` (pydantic_models.py:67) | `QueryResult(success=False, error_message="no such table")`: an `AttributeError` is raised | `Query execution failed: no such table` | not executed | ConversationGraph.FailureMessageRaises | ConversationGraph.FormatQueryResultMessage |
