/**
 * Recognisers for the three regular expressions of the DDL extractor
 * (schema_parser.py), written out position by position. Each function
 * returns what Python's `re` returns for its pattern: the first match in
 * backtracking order, or none.
 */
module DdlPatterns {
  import opened Wrappers
  import opened Text
  import opened SchemaModel

  /** An optional character `c?`: its end position. */
  function OptChar(s: string, i: nat, c: char): (j: nat)
    requires i <= |s|
    ensures j == i || (j == i + 1 && j <= |s| && s[i] == c)
  {
    if i < |s| && s[i] == c then i + 1 else i
  }

  /** The schema qualifier `\[?dbo\]?\.` at position `i`: where it ends, if it is there. */
  function DboPrefixEnd(s: string, i: nat): (r: Option<nat>)
    requires i <= |s|
    ensures r.Some? ==> i + 4 <= r.value <= |s| && s[r.value - 1] == '.'
  {
    var a := OptChar(s, i, '[');
    if MatchesAt(s, a, "dbo") then
      var b := OptChar(s, a + 3, ']');
      if b < |s| && s[b] == '.' then Some(b + 1) else None
    else None
  }

  /** The lazy body `[\s\S]*?\);`: the first ");" at or after `j`. */
  function CloseAt(s: string, j: nat): (k: Option<nat>)
    requires j <= |s|
    ensures k.Some? ==> j <= k.value && k.value + 2 <= |s| && s[k.value] == ')' && s[k.value + 1] == ';'
    ensures forall m :: j <= m && m + 1 < |s| && (k.None? || m < k.value) ==> !(s[m] == ')' && s[m + 1] == ';')
    decreases |s| - j
  {
    if j + 1 >= |s| then None
    else if s[j] == ')' && s[j + 1] == ';' then Some(j)
    else CloseAt(s, j + 1)
  }

  /** One match of `CREATE TABLE\s+((?:\[?dbo\]?\.)?\[?\w+\]?)\s*\(([\s\S]*?)\);`. */
  datatype TableMatch = TableMatch(rawName: string, body: string, end: nat)

  /** The table pattern tried at position `i`, ignoring case. */
  function TableAt(s: string, i: nat): (r: Option<TableMatch>)
    requires i <= |s|
    ensures r.Some? ==> i < r.value.end <= |s|
  {
    if !MatchesAt(s, i, "CREATE TABLE") then None
    else
      var a := i + 12;
      var b := SkipSpaces(s, a);
      if b == a then None
      else
        var p := DboPrefixEnd(s, b);
        var n := if p.Some? then p.value else b;
        var c := OptChar(s, n, '[');
        var d := SkipWord(s, c);
        if d == c then None
        else
          var e := OptChar(s, d, ']');
          var f := SkipSpaces(s, e);
          if f < |s| && s[f] == '(' then
            match CloseAt(s, f + 1)
            case Some(k) =>
              Some(TableMatch(s[b..e], s[f + 1..k], k + 2))
            case None => None
          else None
  }

  /** `re.finditer` of the table pattern from position `i`. */
  function TableMatchesFrom(s: string, i: nat): seq<TableMatch>
    requires i <= |s|
    decreases |s| - i
  {
    if i == |s| then []
    else match TableAt(s, i)
      case Some(m) => [m] + TableMatchesFrom(s, m.end)
      case None => TableMatchesFrom(s, i + 1)
  }

  function TableMatches(s: string): seq<TableMatch>
  {
    TableMatchesFrom(s, 0)
  }

  /** Without "CREATE TABLE" anywhere from `i` on, the table pattern finds nothing there. */
  lemma {:induction false} NoCreateNoTables(s: string, i: nat)
    requires i <= |s|
    requires forall j :: i <= j <= |s| ==> !MatchesAt(s, j, "CREATE TABLE")
    ensures TableMatchesFrom(s, i) == []
    decreases |s| - i
  {
    if i < |s| {
      NoCreateNoTables(s, i + 1);
    }
  }

  /** `str.replace('[', '').replace(']', '')`. */
  function RemoveBrackets(s: string): (r: string)
    ensures forall k :: 0 <= k < |r| ==> r[k] != '[' && r[k] != ']'
    ensures |r| <= |s|
  {
    if s == [] then []
    else if s[0] == '[' || s[0] == ']' then RemoveBrackets(s[1..])
    else [s[0]] + RemoveBrackets(s[1..])
  }

  /** Text without brackets is left alone by `RemoveBrackets`. */
  lemma {:induction false} RemoveBracketsIdentity(s: string)
    requires forall k :: 0 <= k < |s| ==> s[k] != '[' && s[k] != ']'
    ensures RemoveBrackets(s) == s
  {
    if s != [] {
      RemoveBracketsIdentity(s[1..]);
    }
  }

  /** `s.split(c, 1)[1]` when `c` occurs in `s`: the text after its first occurrence. */
  function AfterFirst(s: string, c: char): Option<string>
  {
    if s == [] then None
    else if s[0] == c then Some(s[1..])
    else AfterFirst(s[1..], c)
  }

  /**
   * The table-name clean-up of `_parse_ddl`: drop everything up to the first
   * '.' when the lower-cased name starts with "[dbo]." or "dbo.", then
   * remove every bracket.
   */
  function CleanTableName(raw: string): (name: string)
    ensures forall k :: 0 <= k < |name| ==> name[k] != '[' && name[k] != ']'
  {
    var lowered := LowerStr(raw);
    var unqualified :=
      if StartsWith(lowered, "[dbo].") || StartsWith(lowered, "dbo.") then
        match AfterFirst(raw, '.')
        case Some(rest) => rest
        case None => raw
      else raw;
    RemoveBrackets(unqualified)
  }

  /** A plain identifier: a non-empty run of word characters. */
  predicate IsIdentifier(w: string)
  {
    w != [] && forall k :: 0 <= k < |w| ==> IsWordChar(w[k])
  }

  /** A bare identifier, bracketed or not, cleans up to itself. */
  lemma CleanBareName(w: string)
    requires IsIdentifier(w)
    ensures CleanTableName(w) == w
    ensures CleanTableName("[" + w + "]") == w
  {
    RemoveBracketsIdentity(w);
    var lw := LowerStr(w);
    assert !StartsWith(lw, "dbo.") && !StartsWith(lw, "[dbo].") by {
      assert IsWordChar(Lower(w[0]));
      if |w| >= 4 { assert IsWordChar(Lower(w[3])); }
    }
    var b := "[" + w + "]";
    assert b[1..] == w + "]";
    RemoveBracketsAppendClose(w);
    var lb := LowerStr(b);
    assert lb[0] == '[';
    assert !StartsWith(lb, "[dbo].") by {
      if |w| >= 5 { assert lb[5] == Lower(w[4]); assert IsWordChar(Lower(w[4])); }
    }
  }

  /** Lower-casing distributes over concatenation. */
  lemma LowerStrAppend(a: string, b: string)
    ensures LowerStr(a + b) == LowerStr(a) + LowerStr(b)
  {
    assert forall i :: 0 <= i < |a + b| ==> LowerStr(a + b)[i] == (LowerStr(a) + LowerStr(b))[i];
  }

  /** The text after the first `c` of `p + [c] + rest`, when `p` holds no `c`. */
  lemma {:induction false} AfterFirstSplit(p: string, c: char, rest: string)
    requires forall k :: 0 <= k < |p| ==> p[k] != c
    ensures AfterFirst(p + [c] + rest, c) == Some(rest)
  {
    if p != [] {
      assert (p + [c] + rest)[1..] == p[1..] + [c] + rest;
      AfterFirstSplit(p[1..], c, rest);
    }
  }

  /** A name qualified by "dbo." (in any case) cleans up to the bare identifier. */
  lemma CleanDottedName(q: string, w: string)
    requires IsIdentifier(w)
    requires |q| == 3 && LowerStr(q) == "dbo"
    ensures CleanTableName(q + "." + w) == w
  {
    var name := q + "." + w;
    RemoveBracketsIdentity(w);
    LowerStrAppend(q + ".", w);
    LowerStrAppend(q, ".");
    assert StartsWith(LowerStr(name), "dbo.");
    forall k | 0 <= k < 3 ensures q[k] != '.' {
      assert LowerStr(q)[k] == Lower(q[k]);
    }
    AfterFirstSplit(q, '.', w);
    assert q + ['.'] + w == name;
  }

  /** A name written "[dbo].[w]" cleans up to the bare identifier. */
  lemma CleanBracketedDboName(w: string)
    requires IsIdentifier(w)
    ensures CleanTableName("[dbo].[" + w + "]") == w
  {
    var rest := "[" + w + "]";
    assert "[dbo].[" + w + "]" == "[dbo]." + rest;
    LowerStrAppend("[dbo].", rest);
    assert LowerStr("[dbo].") == "[dbo].";
    AfterFirstSplit("[dbo]", '.', rest);
    assert "[dbo]" + ['.'] + rest == "[dbo]." + rest;
    CleanBareName(w);
    assert rest[1..] == w + "]";
    RemoveBracketsAppendClose(w);
  }

  /** Removing brackets from "w]" gives w, for bracket-free w. */
  lemma {:induction false} RemoveBracketsAppendClose(w: string)
    requires forall k :: 0 <= k < |w| ==> w[k] != '[' && w[k] != ']'
    ensures RemoveBrackets(w + "]") == w
  {
    if w == [] {
    } else {
      assert (w + "]")[1..] == w[1..] + "]";
      RemoveBracketsAppendClose(w[1..]);
    }
  }

  /** The SQL words that the column recogniser refuses to take for a column name. */
  const SqlKeywords: set<string> :=
    {"PRIMARY", "KEY", "NOT", "NULL", "DEFAULT", "CHECK", "UNIQUE", "FOREIGN", "REFERENCES", "CONSTRAINT"}

  /** `\s*\)` at `i`: where it ends, if it is there. */
  function CloseAfterSpaces(t: string, i: nat): (r: Option<nat>)
    requires i <= |t|
    ensures r.Some? ==> i < r.value <= |t| && t[r.value - 1] == ')'
  {
    var h := SkipSpaces(t, i);
    if h < |t| && t[h] == ')' then Some(h + 1) else None
  }

  /** `(?:\d+|MAX|\d+\s*,\s*\d+)\s*\)` at `g`, alternatives tried in that order. */
  function PrecisionEnd(t: string, g: nat): (r: Option<nat>)
    requires g <= |t|
    ensures r.Some? ==> g < r.value <= |t| && t[r.value - 1] == ')'
  {
    var h := SkipDigits(t, g);
    var digits := if h > g then CloseAfterSpaces(t, h) else None;
    var max := MaxEnd(t, g);
    if digits.Some? then digits
    else if max.Some? then max
    else if h > g then PairEnd(t, h)
    else None
  }

  /** `MAX\s*\)` at `g`. */
  function MaxEnd(t: string, g: nat): (r: Option<nat>)
    requires g <= |t|
    ensures r.Some? ==> g < r.value <= |t| && t[r.value - 1] == ')'
  {
    if MatchesAt(t, g, "MAX") then CloseAfterSpaces(t, g + 3) else None
  }

  /** `\s*,\s*\d+\s*\)` at `h`, just after the first number. */
  function PairEnd(t: string, h: nat): (r: Option<nat>)
    requires h <= |t|
    ensures r.Some? ==> h < r.value <= |t| && t[r.value - 1] == ')'
  {
    var h2 := SkipSpaces(t, h);
    if h2 < |t| && t[h2] == ',' then
      var h3 := SkipSpaces(t, h2 + 1);
      var h4 := SkipDigits(t, h3);
      if h4 > h3 then CloseAfterSpaces(t, h4) else None
    else None
  }

  /** The precision suffix `\(\s*(?:\d+|MAX|\d+\s*,\s*\d+)\s*\)` at `e`: where it ends, if it is there. */
  function ParenSuffixEnd(t: string, e: nat): (r: Option<nat>)
    requires e <= |t|
    ensures r.Some? ==> e < r.value <= |t| && t[e] == '(' && t[r.value - 1] == ')'
  {
    if e < |t| && t[e] == '(' then PrecisionEnd(t, SkipSpaces(t, e + 1)) else None
  }

  /** The end of the run of word characters and whitespace (`[\w\s]*`) that starts at `i`. */
  function SkipWordOrSpace(s: string, i: nat): (j: nat)
    requires i <= |s|
    ensures i <= j <= |s|
    ensures j < |s| ==> !IsWordChar(s[j]) && !IsSpace(s[j])
    decreases |s| - i
  {
    if i < |s| && (IsWordChar(s[i]) || IsSpace(s[i])) then SkipWordOrSpace(s, i + 1) else i
  }

  /**
   * `re.match(r'^\s*\[?(\w+)\]?\s+([a-zA-Z_][\w\s]*(?:\(...\))?)', t)`:
   * the column name and the stripped type, if the line starts like a column.
   */
  function ColumnAt(t: string): (r: Option<Column>)
    ensures r.Some? ==> IsIdentifier(r.value.name)
    ensures r.Some? ==> r.value.typ != [] && (IsLetter(r.value.typ[0]) || r.value.typ[0] == '_')
  {
    var a := OptChar(t, SkipSpaces(t, 0), '[');
    var b := SkipWord(t, a);
    var c := OptChar(t, b, ']');
    var d := SkipSpaces(t, c);
    if b == a || d == c || d == |t| || !(IsLetter(t[d]) || t[d] == '_') then None
    else
      var e := SkipWordOrSpace(t, d + 1);
      var typeEnd := match ParenSuffixEnd(t, e) case Some(f) => f case None => e;
      var typ := t[d..typeEnd];
      assert typ[0] == t[d];
      StripKeepsFirst(typ);
      Some(Column(t[a..b], Strip(typ)))
  }

  /** Stripping text that starts with a non-space keeps its first character. */
  lemma {:induction false} StripKeepsFirst(s: string)
    requires s != [] && !IsSpace(s[0])
    ensures Strip(s) != [] && Strip(s)[0] == s[0]
    decreases |s|
  {
    if |s| > 1 && IsSpace(s[|s| - 1]) {
      StripKeepsFirst(s[..|s| - 1]);
    }
  }

  /**
   * What one body line contributes in `_parse_ddl`: nothing for a blank line,
   * a `--` comment or a line starting with CONSTRAINT; otherwise the column the
   * recogniser finds, unless its name is a SQL keyword.
   */
  function LineColumn(line: string): (r: Option<Column>)
    ensures var t := Strip(line);
            t == [] || StartsWith(t, "--") || StartsWith(UpperStr(t), "CONSTRAINT") ==> r.None?
    ensures r.Some? ==> UpperStr(r.value.name) !in SqlKeywords && IsIdentifier(r.value.name)
  {
    var t := Strip(line);
    if t == [] || StartsWith(t, "--") || StartsWith(UpperStr(t), "CONSTRAINT") then None
    else match ColumnAt(t)
      case None => None
      case Some(col) => if UpperStr(col.name) in SqlKeywords then None else Some(col)
  }

  /** The columns of the lines, in line order, as the inner loop of `_parse_ddl` appends them. */
  function LinesColumns(lines: seq<string>): seq<Column>
    decreases |lines|
  {
    if lines == [] then []
    else
      var prefix := LinesColumns(lines[..|lines| - 1]);
      match LineColumn(lines[|lines| - 1])
      case Some(c) => prefix + [c]
      case None => prefix
  }

  /** One more line adds its column, if it yields one. */
  lemma LinesColumnsNext(lines: seq<string>, j: nat)
    requires j < |lines|
    ensures LineColumn(lines[j]).None? ==> LinesColumns(lines[..j + 1]) == LinesColumns(lines[..j])
    ensures LineColumn(lines[j]).Some? ==> LinesColumns(lines[..j + 1]) == LinesColumns(lines[..j]) + [LineColumn(lines[j]).value]
  {
    assert lines[..j + 1][..j] == lines[..j];
  }

  function BodyColumns(body: string): seq<Column>
  {
    LinesColumns(SplitLines(body))
  }

  /** Every line gives at most one column, each column comes from a line that yields it, and no column name is a keyword. */
  lemma {:induction false} LinesColumnsFacts(lines: seq<string>)
    ensures |LinesColumns(lines)| <= |lines|
    ensures forall c :: c in LinesColumns(lines) ==> exists j :: 0 <= j < |lines| && LineColumn(lines[j]) == Some(c)
    ensures forall c :: c in LinesColumns(lines) ==> UpperStr(c.name) !in SqlKeywords && IsIdentifier(c.name)
    decreases |lines|
  {
    if lines != [] {
      var n := |lines| - 1;
      LinesColumnsFacts(lines[..n]);
      forall c | c in LinesColumns(lines)
        ensures exists j :: 0 <= j < |lines| && LineColumn(lines[j]) == Some(c)
      {
        if c in LinesColumns(lines[..n]) {
          var j :| 0 <= j < n && LineColumn(lines[..n][j]) == Some(c);
          assert lines[..n][j] == lines[j];
        } else {
          assert LineColumn(lines[n]) == Some(c);
        }
      }
    }
  }

  /** A body written on one line yields at most one column. */
  lemma OneLineBodyAtMostOneColumn(body: string)
    requires forall k :: 0 <= k < |body| ==> !IsLineBreak(body[k])
    ensures |BodyColumns(body)| <= 1
  {
    SplitSingleLine(body);
    LinesColumnsFacts(SplitLines(body));
  }

  /** One match of the inline foreign-key pattern. */
  datatype FkMatch = FkMatch(sourceColumn: string, targetTable: string, targetColumn: string, end: nat)

  /** A name with its end position. */
  datatype Name = Name(text: string, end: nat)

  /** `\[?(\w+)\]?` at `i`: the identifier and where the optional closing bracket ends. */
  function NameAt(s: string, i: nat): (r: Option<Name>)
    requires i <= |s|
    ensures r.Some? ==> i < r.value.end <= |s| && IsIdentifier(r.value.text)
  {
    var a := OptChar(s, i, '[');
    var b := SkipWord(s, a);
    if b == a then None
    else
      assert forall k :: 0 <= k < b - a ==> s[a..b][k] == s[a + k];
      Some(Name(s[a..b], OptChar(s, b, ']')))
  }

  /** `\(\s*\[?(\w+)\]?\s*\)` at `i`: the identifier inside the parentheses. */
  function ParenNameAt(s: string, i: nat): (r: Option<Name>)
    requires i <= |s|
    ensures r.Some? ==> i < r.value.end <= |s| && IsIdentifier(r.value.text)
  {
    if !(i < |s| && s[i] == '(') then None
    else match NameAt(s, SkipSpaces(s, i + 1))
      case None => None
      case Some(n) =>
        match CloseAfterSpaces(s, n.end)
        case Some(e) => Some(Name(n.text, e))
        case None => None
  }

  /** `REFERENCES\s+(?:\[?dbo\]?\.)?\[?(\w+)\]?\s*\(\s*\[?(\w+)\]?\s*\)` at `k`: target table and column. */
  function ReferencesAt(s: string, k: nat): (r: Option<(Name, Name)>)
    requires k <= |s|
    ensures r.Some? ==> k < r.value.1.end <= |s| && IsIdentifier(r.value.0.text) && IsIdentifier(r.value.1.text)
  {
    if !MatchesAt(s, k, "REFERENCES") then None
    else
      var m := SkipSpaces(s, k + 10);
      if m == k + 10 then None
      else
        var n0 := match DboPrefixEnd(s, m) case Some(p) => p case None => m;
        match NameAt(s, n0)
        case None => None
        case Some(table) =>
          match ParenNameAt(s, SkipSpaces(s, table.end))
          case None => None
          case Some(column) => Some((table, column))
  }

  /**
   * `FOREIGN\s+KEY\s*\(\s*\[?(\w+)\]?\s*\)\s*REFERENCES\s+...` at position `q`,
   * ignoring case: the referencing column, then the referenced table and column.
   */
  function FkTailAt(s: string, q: nat): (r: Option<FkMatch>)
    requires q <= |s|
    ensures r.Some? ==> q < r.value.end <= |s|
    ensures r.Some? ==> IsIdentifier(r.value.sourceColumn) && IsIdentifier(r.value.targetTable)
                        && IsIdentifier(r.value.targetColumn)
  {
    if !MatchesAt(s, q, "FOREIGN") then None
    else
      var b := SkipSpaces(s, q + 7);
      if b == q + 7 || !MatchesAt(s, b, "KEY") then None
      else match ParenNameAt(s, SkipSpaces(s, b + 3))
        case None => None
        case Some(source) =>
          match ReferencesAt(s, SkipSpaces(s, source.end))
          case None => None
          case Some(target) => Some(FkMatch(source.text, target.0.text, target.1.text, target.1.end))
  }

  /**
   * The whole inline foreign-key pattern, starting with
   * `CONSTRAINT\s+\[?(\w*)\]?\s+`, at position `i`. The constraint name may be
   * empty, so when the tail does not follow the name, backtracking also tries
   * it straight after the first whitespace run, provided that run is at least
   * two characters long (one for each `\s+`).
   */
  function FkAt(s: string, i: nat): (r: Option<FkMatch>)
    requires i <= |s|
    ensures r.Some? ==> i < r.value.end <= |s|
    ensures r.Some? ==> IsIdentifier(r.value.sourceColumn) && IsIdentifier(r.value.targetTable)
                        && IsIdentifier(r.value.targetColumn)
  {
    if !MatchesAt(s, i, "CONSTRAINT") then None
    else
      var a := i + 10;
      var w1 := SkipSpaces(s, a);
      if w1 == a then None
      else
        var t3 := OptChar(s, SkipWord(s, OptChar(s, w1, '[')), ']');
        var q2 := SkipSpaces(s, t3);
        var named := if q2 > t3 then FkTailAt(s, q2) else None;
        if named.Some? then named
        else if w1 - a >= 2 then FkTailAt(s, w1)
        else None
  }

  /** `re.finditer` of the inline foreign-key pattern from position `i`. */
  function FkMatchesFrom(s: string, i: nat): (r: seq<FkMatch>)
    requires i <= |s|
    ensures forall m :: m in r ==> IsIdentifier(m.sourceColumn) && IsIdentifier(m.targetTable)
                                   && IsIdentifier(m.targetColumn)
    decreases |s| - i
  {
    if i == |s| then []
    else match FkAt(s, i)
      case Some(m) => [m] + FkMatchesFrom(s, m.end)
      case None => FkMatchesFrom(s, i + 1)
  }

  function FkMatches(s: string): seq<FkMatch>
  {
    FkMatchesFrom(s, 0)
  }

  /** The relationships the inline foreign keys of `table`'s body give, in match order. */
  function FkRelationships(table: string, fks: seq<FkMatch>): (r: seq<Relationship>)
    ensures |r| == |fks|
    ensures forall j :: 0 <= j < |r| ==> r[j] == Relationship(table, fks[j].sourceColumn, fks[j].targetTable, fks[j].targetColumn)
  {
    seq(|fks|, j requires 0 <= j < |fks| => Relationship(table, fks[j].sourceColumn, fks[j].targetTable, fks[j].targetColumn))
  }
}
