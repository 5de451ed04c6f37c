/**
 * The lexical relevance matcher of the DDL schema (`search_schema`), as
 * functions of the parsed tables, the relationships and the query terms.
 * The method that runs it over a parser object is `SchemaParsing.SchemaParser.SearchSchema`.
 */
module SchemaSearch {
  import opened Wrappers
  import opened Text
  import opened OrderedMaps
  import opened SchemaModel

  /** Parsed tables: name to column list, in insertion order. */
  type Tables = Dict<seq<Column>>

  /** `set(re.findall(r'\b\w+\b', query.lower()))`. */
  function QueryTerms(query: string): set<string>
  {
    set t | t in WordTokens(LowerStr(query))
  }

  /** The query terms do not depend on the case the query is written in. */
  lemma QueryTermsIgnoreCase(query: string)
    ensures QueryTerms(UpperStr(query)) == QueryTerms(query)
  {
    LowerOfUpper(query);
  }

  /** The columns whose lower-cased name is a term, in column order. */
  function MatchingColumns(columns: seq<Column>, terms: set<string>): (r: seq<Column>)
    ensures |r| <= |columns|
    ensures forall c :: c in r <==> c in columns && LowerStr(c.name) in terms
    decreases |columns|
  {
    if columns == [] then []
    else
      var prefix := MatchingColumns(columns[..|columns| - 1], terms);
      var last := columns[|columns| - 1];
      assert columns == columns[..|columns| - 1] + [last];
      if LowerStr(last.name) in terms then prefix + [last] else prefix
  }

  /**
   * What the direct pass records for one table: all its columns when its
   * lower-cased name is a term, else the columns whose names are terms, if any.
   */
  function DirectEntry(name: string, columns: seq<Column>, terms: set<string>): Option<seq<Column>>
  {
    if LowerStr(name) in terms then Some(columns)
    else
      var matching := MatchingColumns(columns, terms);
      if matching == [] then None else Some(matching)
  }

  /** The direct pass over the first `n` tables. */
  function DirectPass(tables: Tables, terms: set<string>, n: nat): Tables
    requires n <= |tables.keys|
  {
    if n == 0 then Empty()
    else
      var prev := DirectPass(tables, terms, n - 1);
      var name := tables.keys[n - 1];
      match DirectEntry(name, tables.entries[name], terms)
      case Some(cols) => Put(prev, name, cols)
      case None => prev
  }

  /**
   * The direct pass keeps exactly the tables that `DirectEntry` selects, with the
   * columns it gives; names keep their parsed spelling.
   */
  lemma {:induction false} DirectPassEntries(tables: Tables, terms: set<string>, n: nat)
    requires n <= |tables.keys|
    ensures forall k :: k in DirectPass(tables, terms, n).entries <==>
      k in tables.keys[..n] && DirectEntry(k, tables.entries[k], terms).Some?
    ensures forall k :: k in DirectPass(tables, terms, n).entries ==>
      DirectPass(tables, terms, n).entries[k] == DirectEntry(k, tables.entries[k], terms).value
  {
    if n > 0 {
      DirectPassEntries(tables, terms, n - 1);
      assert tables.keys[..n] == tables.keys[..n - 1] + [tables.keys[n - 1]];
    }
  }

  /** The synonym table of the alias pass: a key and the words that stand for it. */
  const Aliases: seq<(string, seq<string>)> := [
    ("employee", ["employees", "staff", "personnel"]),
    ("department", ["departments", "divisions", "teams"]),
    ("salary", ["compensation", "pay", "wage"]),
    ("sale", ["sales", "revenue", "transaction"]),
    ("product", ["products", "items", "goods"]),
    ("customer", ["customers", "clients", "buyers"])
  ]

  /** `term in values or key == term`. */
  predicate AliasMatches(term: string, alias: (string, seq<string>))
  {
    term in alias.1 || alias.0 == term
  }

  /** Adding, over the first `n` tables, every table whose lower-cased name contains `key`. */
  function AddContaining(tables: Tables, key: string, found: Tables, n: nat): Tables
    requires n <= |tables.keys|
  {
    if n == 0 then found
    else
      var prev := AddContaining(tables, key, found, n - 1);
      var name := tables.keys[n - 1];
      if Contains(LowerStr(name), key) then Put(prev, name, tables.entries[name]) else prev
  }

  /** The alias step for one term, over the first `a` aliases. */
  function AliasForTerm(tables: Tables, term: string, found: Tables, a: nat): Tables
    requires a <= |Aliases|
  {
    if a == 0 then found
    else
      var prev := AliasForTerm(tables, term, found, a - 1);
      if AliasMatches(term, Aliases[a - 1]) then AddContaining(tables, Aliases[a - 1].0, prev, |tables.keys|)
      else prev
  }

  /** The alias pass, visiting the terms in `order` (a set's iteration order, which is arbitrary). */
  function AliasPass(tables: Tables, order: seq<string>, found: Tables): Tables
    decreases |order|
  {
    if order == [] then found
    else
      AliasForTerm(tables, order[|order| - 1], AliasPass(tables, order[..|order| - 1], found), |Aliases|)
  }

  /** A table is picked by the alias pass when some term names an alias key its lower-cased name contains. */
  ghost predicate AliasSelected(name: string, order: seq<string>)
  {
    exists i :: 0 <= i < |order| && AliasHit(order[i], name, |Aliases|)
  }

  /** Tables already found stay, and found tables always carry their full column list. */
  ghost predicate Faithful(tables: Tables, found: Tables)
  {
    forall k :: k in found.entries ==> k in tables.entries && found.entries[k] == tables.entries[k]
  }

  lemma {:induction false} AddContainingEntries(tables: Tables, key: string, found: Tables, n: nat)
    requires n <= |tables.keys|
    ensures forall k :: k in AddContaining(tables, key, found, n).entries <==>
      k in found.entries || (k in tables.keys[..n] && Contains(LowerStr(k), key))
    ensures Faithful(tables, found) ==> Faithful(tables, AddContaining(tables, key, found, n))
  {
    if n > 0 {
      AddContainingEntries(tables, key, found, n - 1);
      assert tables.keys[..n] == tables.keys[..n - 1] + [tables.keys[n - 1]];
    }
  }

  /** Some of the first `a` aliases is named by `term` and has a key that `name` contains, lower-cased. */
  ghost predicate AliasHit(term: string, name: string, a: nat)
    requires a <= |Aliases|
  {
    exists b :: 0 <= b < a && AliasMatches(term, Aliases[b]) && Contains(LowerStr(name), Aliases[b].0)
  }

  /** One more alias adds its hits, when the term names it. */
  lemma AliasHitStep(term: string, k: string, a: nat)
    requires 0 < a <= |Aliases|
    ensures AliasHit(term, k, a) <==>
      AliasHit(term, k, a - 1) || (AliasMatches(term, Aliases[a - 1]) && Contains(LowerStr(k), Aliases[a - 1].0))
  {
    if AliasHit(term, k, a) {
      var b :| 0 <= b < a && AliasMatches(term, Aliases[b]) && Contains(LowerStr(k), Aliases[b].0);
      if b < a - 1 { assert AliasHit(term, k, a - 1); }
    }
  }

  lemma {:induction false} AliasForTermEntries(tables: Tables, term: string, found: Tables, a: nat)
    requires a <= |Aliases|
    ensures forall k :: k in AliasForTerm(tables, term, found, a).entries <==>
      k in found.entries || (k in tables.entries && AliasHit(term, k, a))
    ensures Faithful(tables, found) ==> Faithful(tables, AliasForTerm(tables, term, found, a))
  {
    AliasForTermKeys(tables, term, found, a);
    AliasForTermFaithful(tables, term, found, a);
  }

  lemma AliasForTermKeys(tables: Tables, term: string, found: Tables, a: nat)
    requires a <= |Aliases|
    ensures forall k :: k in AliasForTerm(tables, term, found, a).entries <==>
      k in found.entries || (k in tables.entries && AliasHit(term, k, a))
  {
    forall k {
      AliasForTermKey(tables, term, found, a, k);
    }
  }

  lemma {:induction false} AliasForTermKey(tables: Tables, term: string, found: Tables, a: nat, k: string)
    requires a <= |Aliases|
    ensures k in AliasForTerm(tables, term, found, a).entries <==>
      k in found.entries || (k in tables.entries && AliasHit(term, k, a))
  {
    if a > 0 {
      var prev := AliasForTerm(tables, term, found, a - 1);
      AliasForTermKey(tables, term, found, a - 1, k);
      var alias := Aliases[a - 1];
      if AliasMatches(term, alias) {
        AddContainingEntries(tables, alias.0, prev, |tables.keys|);
        assert tables.keys[..|tables.keys|] == tables.keys;
      }
      AliasHitStep(term, k, a);
    }
  }

  lemma {:induction false} AliasForTermFaithful(tables: Tables, term: string, found: Tables, a: nat)
    requires a <= |Aliases|
    ensures Faithful(tables, found) ==> Faithful(tables, AliasForTerm(tables, term, found, a))
  {
    if a > 0 {
      var prev := AliasForTerm(tables, term, found, a - 1);
      AliasForTermFaithful(tables, term, found, a - 1);
      var alias := Aliases[a - 1];
      if AliasMatches(term, alias) {
        AddContainingEntries(tables, alias.0, prev, |tables.keys|);
      }
    }
  }

  /** One more visited term adds its hits. */
  lemma AliasSelectedStep(k: string, order: seq<string>)
    requires order != []
    ensures AliasSelected(k, order) <==>
      AliasSelected(k, order[..|order| - 1]) || AliasHit(order[|order| - 1], k, |Aliases|)
  {
    var n := |order| - 1;
    if AliasSelected(k, order[..n]) {
      var i :| 0 <= i < n && AliasHit(order[..n][i], k, |Aliases|);
      assert order[..n][i] == order[i];
    }
    if AliasSelected(k, order) {
      var i :| 0 <= i < |order| && AliasHit(order[i], k, |Aliases|);
      if i < n {
        assert order[..n][i] == order[i];
      }
    }
  }

  /**
   * Started from no tables, the alias pass finds exactly the alias-selected
   * tables, each with all its columns, whatever order the terms are visited in.
   */
  lemma {:induction false} AliasPassEntries(tables: Tables, order: seq<string>)
    ensures forall k :: k in AliasPass(tables, order, Empty()).entries <==>
      k in tables.entries && AliasSelected(k, order)
    ensures Faithful(tables, AliasPass(tables, order, Empty()))
    decreases |order|
  {
    if order != [] {
      var n := |order| - 1;
      var prev := AliasPass(tables, order[..n], Empty());
      AliasPassEntries(tables, order[..n]);
      AliasForTermEntries(tables, order[n], prev, |Aliases|);
      forall k {
        AliasSelectedStep(k, order);
      }
    }
  }

  /** Two visiting orders of the same terms find the same tables with the same columns. */
  lemma AliasPassOrderIrrelevant(tables: Tables, order1: seq<string>, order2: seq<string>)
    requires forall t :: t in order1 <==> t in order2
    ensures AliasPass(tables, order1, Empty()).entries == AliasPass(tables, order2, Empty()).entries
  {
    AliasPassEntries(tables, order1);
    AliasPassEntries(tables, order2);
    forall k | k in tables.entries
      ensures AliasSelected(k, order1) <==> AliasSelected(k, order2)
    {
      if AliasSelected(k, order1) {
        var i :| 0 <= i < |order1| && AliasHit(order1[i], k, |Aliases|);
        assert order1[i] in order2;
        var j :| 0 <= j < |order2| && order2[j] == order1[i];
      }
      if AliasSelected(k, order2) {
        var i :| 0 <= i < |order2| && AliasHit(order2[i], k, |Aliases|);
        assert order2[i] in order1;
        var j :| 0 <= j < |order1| && order1[j] == order2[i];
      }
    }
  }

  /**
   * The alias pass over any enumeration of a term set finds exactly the
   * schema tables that some term of the set selects: the set alone decides.
   */
  lemma AliasPassTerms(tables: Tables, order: seq<string>, terms: set<string>)
    requires forall t :: t in order <==> t in terms
    ensures forall k :: k in AliasPass(tables, order, Empty()).entries <==>
      k in tables.entries && exists t :: t in terms && AliasHit(t, k, |Aliases|)
    ensures Faithful(tables, AliasPass(tables, order, Empty()))
  {
    AliasPassEntries(tables, order);
    forall k | k in tables.entries
      ensures AliasSelected(k, order) <==> exists t :: t in terms && AliasHit(t, k, |Aliases|)
    {
      if AliasSelected(k, order) {
        var i :| 0 <= i < |order| && AliasHit(order[i], k, |Aliases|);
        assert order[i] in terms;
      }
      if exists t :: t in terms && AliasHit(t, k, |Aliases|) {
        var t :| t in terms && AliasHit(t, k, |Aliases|);
        var i :| 0 <= i < |order| && order[i] == t;
      }
    }
  }

  /** The result of `search_schema`: the relevant tables and the relationships among them. */
  datatype SearchResult = SearchResult(tables: Tables, relationships: seq<Relationship>)

  /** `self.tables[name]` on a name the schema does not have: a `KeyError`. */
  datatype SearchError = MissingTable(name: string)

  /** `relevant_tables[name] = self.tables[name]` unless `name` is already relevant. */
  function AddEndpoint(tables: Tables, found: Tables, name: string): Result<Tables, SearchError>
  {
    if name in found.entries then Ok(found)
    else if name in tables.entries then Ok(Put(found, name, tables.entries[name]))
    else Err(MissingTable(name))
  }

  /** One iteration of the relationship pass, against the tables found so far. */
  function RelStep(tables: Tables, st: SearchResult, rel: Relationship): Result<SearchResult, SearchError>
  {
    if rel.sourceTable in st.tables.entries || rel.targetTable in st.tables.entries then
      match AddEndpoint(tables, st.tables, rel.sourceTable)
      case Err(e) => Err(e)
      case Ok(f1) =>
        match AddEndpoint(tables, f1, rel.targetTable)
        case Err(e) => Err(e)
        case Ok(f2) => Ok(SearchResult(f2, st.relationships + [rel]))
    else Ok(st)
  }

  /** The relationship pass from the `i`-th relationship on. */
  function RelPassFrom(tables: Tables, rels: seq<Relationship>, i: nat, st: SearchResult): Result<SearchResult, SearchError>
    requires i <= |rels|
    decreases |rels| - i
  {
    if i == |rels| then Ok(st)
    else match RelStep(tables, st, rels[i])
      case Err(e) => Err(e)
      case Ok(next) => RelPassFrom(tables, rels, i + 1, next)
  }

  /** The first min(3, n) tables when nothing was found and the schema is not empty. */
  function Fallback(tables: Tables, st: SearchResult): SearchResult
  {
    if st.tables.keys == [] && tables.keys != [] then
      SearchResult(Take(tables, if |tables.keys| < 3 then |tables.keys| else 3), st.relationships)
    else st
  }

  /** The tables found before the relationship pass: the direct matches, or the alias matches when there are none. */
  function Matched(tables: Tables, terms: set<string>, order: seq<string>): Tables
  {
    var direct := DirectPass(tables, terms, |tables.keys|);
    if direct.keys == [] then AliasPass(tables, order, Empty()) else direct
  }

  /** The relationship pass and the fallback, run on the tables matched by name. */
  function Finish(tables: Tables, rels: seq<Relationship>, matched: Tables): Result<SearchResult, SearchError>
  {
    match RelPassFrom(tables, rels, 0, SearchResult(matched, []))
    case Err(e) => Err(e)
    case Ok(st) => Ok(Fallback(tables, st))
  }

  /** `search_schema`, with the query's terms visited in `order` by the alias pass. */
  function Search(tables: Tables, rels: seq<Relationship>, query: string, order: seq<string>): Result<SearchResult, SearchError>
  {
    Finish(tables, rels, Matched(tables, QueryTerms(query), order))
  }

  /** Every endpoint of every relationship is a table of the schema. */
  ghost predicate Closed(tables: Tables, rels: seq<Relationship>)
  {
    forall r :: r in rels ==> r.sourceTable in tables.entries && r.targetTable in tables.entries
  }

  /**
   * Facts about one relationship step: tables already found keep their
   * columns; an included relationship has both endpoints found; a
   * relationship touching a found table is included; and the step fails only
   * on an endpoint missing from the schema.
   */
  lemma RelStepFacts(tables: Tables, st: SearchResult, rel: Relationship)
    ensures RelStep(tables, st, rel).Ok? ==>
      var next := RelStep(tables, st, rel).value;
      && (forall k :: k in st.tables.entries ==> k in next.tables.entries && next.tables.entries[k] == st.tables.entries[k])
      && (forall k :: k in next.tables.entries && k !in st.tables.entries ==> k in tables.entries && next.tables.entries[k] == tables.entries[k])
      && (next.relationships == st.relationships || next.relationships == st.relationships + [rel])
      && (next.relationships == st.relationships + [rel] <==> rel.sourceTable in st.tables.entries || rel.targetTable in st.tables.entries)
      && (next.relationships != st.relationships ==> rel.sourceTable in next.tables.entries && rel.targetTable in next.tables.entries)
    ensures rel.sourceTable in tables.entries && rel.targetTable in tables.entries ==> RelStep(tables, st, rel).Ok?
  {
  }

  /** Every relationship included so far has both endpoints among the found tables. */
  ghost predicate EndpointsFound(st: SearchResult)
  {
    forall r :: r in st.relationships ==> r.sourceTable in st.tables.entries && r.targetTable in st.tables.entries
  }

  /**
   * The relationship pass: found tables are never dropped or changed, every
   * table it adds is a schema table with all its columns, the relationships
   * it includes come from `rels` in order with both endpoints found, every
   * relationship touching an already-found table is included, and it fails
   * only when some endpoint is missing from the schema.
   */
  lemma RelPassFacts(tables: Tables, rels: seq<Relationship>, i: nat, st: SearchResult)
    requires i <= |rels|
    ensures Closed(tables, rels[i..]) ==> RelPassFrom(tables, rels, i, st).Ok?
    ensures RelPassFrom(tables, rels, i, st).Ok? ==>
      var out := RelPassFrom(tables, rels, i, st).value;
      && (forall k :: k in st.tables.entries ==> k in out.tables.entries && out.tables.entries[k] == st.tables.entries[k])
      && (forall k :: k in out.tables.entries && k !in st.tables.entries ==> k in tables.entries && out.tables.entries[k] == tables.entries[k])
      && (exists added :: out.relationships == st.relationships + added && forall r :: r in added ==> r in rels[i..])
      && (EndpointsFound(st) ==> EndpointsFound(out))
      && (forall j :: i <= j < |rels| && (rels[j].sourceTable in st.tables.entries || rels[j].targetTable in st.tables.entries)
            ==> rels[j] in out.relationships)
  {
    RelPassOk(tables, rels, i, st);
    if RelPassFrom(tables, rels, i, st).Ok? {
      RelPassTables(tables, rels, i, st);
      RelPassAdded(tables, rels, i, st);
      RelPassIncludes(tables, rels, i, st);
    }
  }

  /**
   * Inclusion as the loop decides it: the state just before the pass visits
   * `rels[j]` is the pass over `rels[..j]`, which already holds the tables
   * added earlier in the same pass. That visit appends `rels[j]` exactly when
   * one of its endpoints is among those tables and otherwise leaves the list
   * alone, and a relationship appended then is in the final result.
   */
  lemma {:induction false} RelPassIncludesWhenVisited(tables: Tables, rels: seq<Relationship>, i: nat, j: nat, st: SearchResult)
    requires i <= j < |rels|
    requires RelPassFrom(tables, rels, i, st).Ok?
    ensures RelPassFrom(tables, rels[..j], i, st).Ok? && RelPassFrom(tables, rels[..j + 1], i, st).Ok?
    ensures var before := RelPassFrom(tables, rels[..j], i, st).value;
      var after := RelPassFrom(tables, rels[..j + 1], i, st).value;
      var out := RelPassFrom(tables, rels, i, st).value;
      && (after.relationships == before.relationships + [rels[j]] <==>
            rels[j].sourceTable in before.tables.entries || rels[j].targetTable in before.tables.entries)
      && (after.relationships == before.relationships + [rels[j]] || after.relationships == before.relationships)
      && ((rels[j].sourceTable in before.tables.entries || rels[j].targetTable in before.tables.entries) ==>
            rels[j] in out.relationships)
    decreases j - i
  {
    if i < j {
      assert rels[..j][i] == rels[i] && rels[..j + 1][i] == rels[i];
      RelPassIncludesWhenVisited(tables, rels, i + 1, j, RelStep(tables, st, rels[i]).value);
    } else {
      assert RelPassFrom(tables, rels[..j], j, st) == Ok(st);
      assert rels[..j + 1][j] == rels[j];
      RelStepFacts(tables, st, rels[j]);
      var next := RelStep(tables, st, rels[j]).value;
      assert RelPassFrom(tables, rels[..j + 1], j + 1, next) == Ok(next);
      RelPassAdded(tables, rels, j + 1, next);
    }
  }

  /** The pass succeeds when every remaining endpoint is a schema table. */
  lemma {:induction false} RelPassOk(tables: Tables, rels: seq<Relationship>, i: nat, st: SearchResult)
    requires i <= |rels|
    ensures Closed(tables, rels[i..]) ==> RelPassFrom(tables, rels, i, st).Ok?
    decreases |rels| - i
  {
    if i < |rels| && Closed(tables, rels[i..]) {
      assert rels[i] in rels[i..];
      assert rels[i + 1..] == rels[i..][1..];
      RelStepFacts(tables, st, rels[i]);
      RelPassOk(tables, rels, i + 1, RelStep(tables, st, rels[i]).value);
    }
  }

  /** Found tables are kept with their columns; added tables are schema tables with theirs. */
  lemma {:induction false} RelPassTables(tables: Tables, rels: seq<Relationship>, i: nat, st: SearchResult)
    requires i <= |rels| && RelPassFrom(tables, rels, i, st).Ok?
    ensures var out := RelPassFrom(tables, rels, i, st).value;
      && (forall k :: k in st.tables.entries ==> k in out.tables.entries && out.tables.entries[k] == st.tables.entries[k])
      && (forall k :: k in out.tables.entries && k !in st.tables.entries ==> k in tables.entries && out.tables.entries[k] == tables.entries[k])
    decreases |rels| - i
  {
    if i < |rels| {
      RelStepFacts(tables, st, rels[i]);
      RelPassTables(tables, rels, i + 1, RelStep(tables, st, rels[i]).value);
    }
  }

  /** The included relationships are appended, come from `rels[i..]`, and have both endpoints found. */
  lemma {:induction false} RelPassAdded(tables: Tables, rels: seq<Relationship>, i: nat, st: SearchResult)
    requires i <= |rels| && RelPassFrom(tables, rels, i, st).Ok?
    ensures var out := RelPassFrom(tables, rels, i, st).value;
      && (exists added :: out.relationships == st.relationships + added && forall r :: r in added ==> r in rels[i..])
      && (EndpointsFound(st) ==> EndpointsFound(out))
    decreases |rels| - i
  {
    var out := RelPassFrom(tables, rels, i, st).value;
    if i < |rels| {
      RelStepFacts(tables, st, rels[i]);
      var next := RelStep(tables, st, rels[i]).value;
      RelPassAdded(tables, rels, i + 1, next);
      var added' :| out.relationships == next.relationships + added' && forall r :: r in added' ==> r in rels[i + 1..];
      var added := if next.relationships == st.relationships then added' else [rels[i]] + added';
      assert out.relationships == st.relationships + added;
      forall r | r in added ensures r in rels[i..] {
        if r in added' { assert r in rels[i + 1..]; }
      }
      if EndpointsFound(st) {
        assert EndpointsFound(next);
      }
    } else {
      assert out.relationships == st.relationships + [];
    }
  }

  /** Every remaining relationship touching an already-found table is included. */
  lemma {:induction false} RelPassIncludes(tables: Tables, rels: seq<Relationship>, i: nat, st: SearchResult)
    requires i <= |rels| && RelPassFrom(tables, rels, i, st).Ok?
    ensures var out := RelPassFrom(tables, rels, i, st).value;
      forall j :: i <= j < |rels| && (rels[j].sourceTable in st.tables.entries || rels[j].targetTable in st.tables.entries)
        ==> rels[j] in out.relationships
    decreases |rels| - i
  {
    if i < |rels| {
      RelStepFacts(tables, st, rels[i]);
      var next := RelStep(tables, st, rels[i]).value;
      RelPassIncludes(tables, rels, i + 1, next);
      RelPassAdded(tables, rels, i + 1, next);
      var out := RelPassFrom(tables, rels, i, st).value;
      forall j | i <= j < |rels| && (rels[j].sourceTable in st.tables.entries || rels[j].targetTable in st.tables.entries)
        ensures rels[j] in out.relationships
      {
        if j == i {
          assert rels[i] in next.relationships;
          var added :| out.relationships == next.relationships + added && forall r :: r in added ==> r in rels[i + 1..];
        }
      }
    }
  }

  /** The tables found before the relationship pass are schema tables; direct matches, when there are any, are all of them. */
  lemma MatchedFacts(tables: Tables, terms: set<string>, order: seq<string>)
    ensures forall k :: k in Matched(tables, terms, order).entries ==> k in tables.entries
    ensures DirectPass(tables, terms, |tables.keys|).keys != [] ==>
      Matched(tables, terms, order) == DirectPass(tables, terms, |tables.keys|)
  {
    DirectPassEntries(tables, terms, |tables.keys|);
    assert tables.keys[..|tables.keys|] == tables.keys;
    AliasPassEntries(tables, order);
  }

  /** The relationship pass run by `Finish`, and its facts. */
  lemma FinishPass(tables: Tables, rels: seq<Relationship>, matched: Tables)
    requires Finish(tables, rels, matched).Ok?
    ensures RelPassFrom(tables, rels, 0, SearchResult(matched, [])).Ok?
    ensures var out := RelPassFrom(tables, rels, 0, SearchResult(matched, [])).value;
      && Finish(tables, rels, matched).value == Fallback(tables, out)
      && EndpointsFound(out)
      && (forall k :: k in matched.entries ==> k in out.tables.entries && out.tables.entries[k] == matched.entries[k])
      && (forall k :: k in out.tables.entries && k !in matched.entries ==> k in tables.entries)
      && (forall rel :: rel in out.relationships ==> rel in rels)
  {
    var start := SearchResult(matched, []);
    assert rels[0..] == rels;
    RelPassFacts(tables, rels, 0, start);
    var out := RelPassFrom(tables, rels, 0, start).value;
    var added :| out.relationships == start.relationships + added && forall r :: r in added ==> r in rels[0..];
    assert out.relationships == added;
  }

  /** With every relationship endpoint in the schema, the relationship pass cannot fail. */
  lemma FinishOkWhenClosed(tables: Tables, rels: seq<Relationship>, matched: Tables)
    requires Closed(tables, rels)
    ensures Finish(tables, rels, matched).Ok?
  {
    assert rels[0..] == rels;
    RelPassFacts(tables, rels, 0, SearchResult(matched, []));
  }

  /**
   * On tables matched from the schema, the result tables are schema tables
   * and include every matched table unchanged, and the result relationships
   * are schema relationships with both endpoints among the result tables.
   */
  lemma FinishFacts(tables: Tables, rels: seq<Relationship>, matched: Tables)
    requires forall k :: k in matched.entries ==> k in tables.entries
    requires Finish(tables, rels, matched).Ok?
    ensures var r := Finish(tables, rels, matched).value;
      && (forall k :: k in r.tables.entries ==> k in tables.entries)
      && (forall k :: k in matched.entries ==> k in r.tables.entries && r.tables.entries[k] == matched.entries[k])
      && (forall rel :: rel in r.relationships ==> rel in rels && rel.sourceTable in r.tables.entries && rel.targetTable in r.tables.entries)
  {
    FinishPass(tables, rels, matched);
    var out := RelPassFrom(tables, rels, 0, SearchResult(matched, [])).value;
    if out.tables.keys == [] && tables.keys != [] {
      assert out.tables.entries == map[] by {
        forall k ensures k !in out.tables.entries { assert k in out.tables.entries ==> k in out.tables.keys; }
      }
      assert matched.entries == map[] by {
        forall k ensures k !in matched.entries { assert k in out.tables.entries ==> k in out.tables.keys; }
      }
    }
  }

  /** A non-empty schema gives a non-empty result. */
  lemma FinishNonEmpty(tables: Tables, rels: seq<Relationship>, matched: Tables)
    requires Finish(tables, rels, matched).Ok?
    requires tables.keys != []
    ensures Finish(tables, rels, matched).value.tables.keys != []
  {
    FinishPass(tables, rels, matched);
    assert tables.keys[0] in Take(tables, if |tables.keys| < 3 then |tables.keys| else 3).keys;
  }

  /** With every relationship endpoint in the schema, the search cannot fail. */
  lemma SearchOkWhenClosed(tables: Tables, rels: seq<Relationship>, query: string, order: seq<string>)
    requires Closed(tables, rels)
    ensures Search(tables, rels, query, order).Ok?
  {
    FinishOkWhenClosed(tables, rels, Matched(tables, QueryTerms(query), order));
  }

  /**
   * A successful search: a non-empty schema gives a non-empty result; every
   * result table is a schema table under its parsed name; every returned
   * relationship is one of the schema's with both endpoints among the result tables.
   */
  lemma SearchResultFacts(tables: Tables, rels: seq<Relationship>, query: string, order: seq<string>)
    requires Search(tables, rels, query, order).Ok?
    ensures var r := Search(tables, rels, query, order).value;
      && (tables.keys != [] ==> r.tables.keys != [])
      && (forall k :: k in r.tables.entries ==> k in tables.entries)
      && (forall rel :: rel in r.relationships ==> rel in rels && rel.sourceTable in r.tables.entries && rel.targetTable in r.tables.entries)
  {
    MatchedFacts(tables, QueryTerms(query), order);
    FinishFacts(tables, rels, Matched(tables, QueryTerms(query), order));
    if tables.keys != [] {
      FinishNonEmpty(tables, rels, Matched(tables, QueryTerms(query), order));
    }
  }

  /** Every table the direct pass matched on `terms` is returned with the columns it matched (see `DirectPassEntries`). */
  lemma FinishKeepsDirectMatches(tables: Tables, rels: seq<Relationship>, terms: set<string>, order: seq<string>)
    requires Finish(tables, rels, Matched(tables, terms, order)).Ok?
    ensures var r := Finish(tables, rels, Matched(tables, terms, order)).value;
      forall k :: k in DirectPass(tables, terms, |tables.keys|).entries ==>
        k in r.tables.entries && r.tables.entries[k] == DirectPass(tables, terms, |tables.keys|).entries[k]
  {
    var direct := DirectPass(tables, terms, |tables.keys|);
    var matched := Matched(tables, terms, order);
    MatchedFacts(tables, terms, order);
    FinishFacts(tables, rels, matched);
    if direct.keys == [] {
      assert direct.entries == map[] by {
        forall k ensures k !in direct.entries { assert k in direct.entries ==> k in direct.keys; }
      }
    } else {
      assert matched == direct;
    }
  }

  /** Every table the direct pass matched is returned with the columns it matched. */
  lemma SearchKeepsDirectMatches(tables: Tables, rels: seq<Relationship>, query: string, order: seq<string>)
    requires Search(tables, rels, query, order).Ok?
    ensures var r := Search(tables, rels, query, order).value;
      forall k :: k in DirectPass(tables, QueryTerms(query), |tables.keys|).entries ==>
        k in r.tables.entries && r.tables.entries[k] == DirectPass(tables, QueryTerms(query), |tables.keys|).entries[k]
  {
    FinishKeepsDirectMatches(tables, rels, QueryTerms(query), order);
  }

  /** When nothing matched at all, the result is the first min(3, n) tables and no relationships. */
  lemma SearchFallback(tables: Tables, rels: seq<Relationship>, query: string, order: seq<string>)
    requires Matched(tables, QueryTerms(query), order).keys == []
    requires tables.keys != []
    ensures Search(tables, rels, query, order) ==
      Ok(SearchResult(Take(tables, if |tables.keys| < 3 then |tables.keys| else 3), []))
  {
    FinishFallback(tables, rels, Matched(tables, QueryTerms(query), order));
  }

  /** The relationship pass and the fallback after no table matched by name. */
  lemma FinishFallback(tables: Tables, rels: seq<Relationship>, matched: Tables)
    requires matched.keys == [] && tables.keys != []
    ensures Finish(tables, rels, matched) == Ok(SearchResult(Take(tables, if |tables.keys| < 3 then |tables.keys| else 3), []))
  {
    FallbackFromEmpty(tables, rels, 0, SearchResult(matched, []));
  }

  /** From no found tables and no relationships, the relationship pass includes nothing and adds nothing. */
  lemma {:induction false} FallbackFromEmpty(tables: Tables, rels: seq<Relationship>, i: nat, st: SearchResult)
    requires i <= |rels|
    requires st.tables.keys == [] && st.relationships == []
    ensures RelPassFrom(tables, rels, i, st) == Ok(st)
    decreases |rels| - i
  {
    if i < |rels| {
      assert st.tables.entries == map[] by {
        forall k ensures k !in st.tables.entries { assert k in st.tables.entries ==> k in st.tables.keys; }
      }
      FallbackFromEmpty(tables, rels, i + 1, st);
    }
  }
}
