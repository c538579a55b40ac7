/** The code-quality rule table CQ001–CQ006 (src/analyzers/code-quality.ts). */
module CodeQuality {
  import opened Wrappers
  import opened Strings
  import opened Regex
  import opened Types
  import opened BaseAnalyzer

  const BAD_NAMING := Regex("\\b(var|let|const|function)\\s+[A-Z_][a-zA-Z0-9_]*\\s*[=\\(]", "g")
  const FUNCTION_TEXT := Regex("function\\s+\\w+[^{]*{[^}]*}", "g")
  const MAGIC_NUMBER := Regex("\\b(?!0|1|2|10|100|1000)\\d{2,}\\b", "g")
  const COMMENT_MARKER := Regex("\\/\\/|\\/\\*|\\*\\/", "g")

  /** CQ001: fails exactly when the upper-case declaration pattern matches, at its first match. */
  function CheckNaming(e: Engine, f: FileRecord): (o: Outcome)
    ensures !o.passed <==> Matches(e, BAD_NAMING, f.content)
    ensures !o.passed ==>
              var i := e(BAD_NAMING, f.content)[0].index;
              o.line == Some(LineAt(f.content, i)) && o.column == Some(ColumnAt(f.content, i)) &&
              o.message == Localized("rules.namingConventions", [])
  {
    CheckRegexInFile(e, f.content, BAD_NAMING, Localized("rules.namingConventions", []))
  }

  /** A function text spans more than 50 lines (`func.split('\n').length > 50`). */
  predicate IsLongFunction(text: string) {
    |Split(text, '\n')| > 50
  }

  /** CQ002: fails exactly when some matched function text spans more than 50 lines, and reports how many do. */
  function CheckFunctionLength(e: Engine, f: FileRecord): (o: Outcome)
    ensures var fs := MatchAll(e, FUNCTION_TEXT, f.content);
            && (!o.passed <==> exists i :: 0 <= i < |fs| && IsLongFunction(fs[i]))
            && (!o.passed ==> o.message == Localized("rules.functionLength", [("count", CountWhere(fs, IsLongFunction))]))
  {
    var functions := MatchAll(e, FUNCTION_TEXT, f.content);
    var longFunctions := CountWhere(functions, IsLongFunction);
    CountWherePositive(functions, IsLongFunction);
    if longFunctions > 0 then Fail(Localized("rules.functionLength", [("count", longFunctions)]))
    else Pass(Text("Function length is acceptable"))
  }

  /** A text spans more than 50 lines exactly when it holds at least 50 newlines. */
  lemma LongFunctionNewlines(text: string)
    ensures IsLongFunction(text) <==> multiset(text)['\n'] >= 50
  {
    SplitLength(text, '\n');
  }

  /** CQ003: fails exactly when complexity exceeds 15 for a component, 10 for any other file. */
  function CheckComplexity(e: Engine, f: FileRecord): (o: Outcome)
    ensures f.fileType == Component ==> (!o.passed <==> Complexity(e, f.content) > 15)
    ensures f.fileType != Component ==> (!o.passed <==> Complexity(e, f.content) > 10)
  {
    var complexity := Complexity(e, f.content);
    var maxComplexity := if f.fileType == Component then 15 else 10;
    if complexity > maxComplexity then
      Fail(Localized("rules.cyclomaticComplexity", [("complexity", complexity), ("maxComplexity", maxComplexity)]))
    else Pass(Text("Complexity is acceptable"))
  }

  /** CQ004: fails exactly when there are more than three magic numbers. */
  function CheckMagicNumbers(e: Engine, f: FileRecord): (o: Outcome)
    ensures !o.passed <==> CountOccurrences(e, MAGIC_NUMBER, f.content) > 3
  {
    var matches := CountOccurrences(e, MAGIC_NUMBER, f.content);
    if matches > 3 then Fail(Localized("rules.magicNumbers", [("count", matches)]))
    else Pass(Text("No magic numbers found"))
  }

  /** A trimmed line takes part in duplicate detection: longer than 10 and not a comment line. */
  predicate IsCandidateLine(line: string) {
    |line| > 10 && !StartsWith(line, "//") && !StartsWith(line, "*")
  }

  /** `.filter(IsCandidateLine)` over the trimmed lines. */
  function CandidateLines(lines: seq<string>): (r: seq<string>)
    ensures |r| <= |lines|
  {
    if |lines| == 0 then []
    else
      var l := lines[|lines| - 1];
      CandidateLines(lines[..|lines| - 1]) + (if IsCandidateLine(l) then [l] else [])
  }

  /** A line is a candidate exactly when it is one of the trimmed lines and passes the filter. */
  lemma {:induction false} CandidateLinesExact(lines: seq<string>, l: string)
    ensures l in CandidateLines(lines) <==> IsCandidateLine(l) && l in lines
  {
    if |lines| > 0 {
      var init := lines[..|lines| - 1];
      CandidateLinesExact(init, l);
      assert lines == init + [lines[|lines| - 1]];
    }
  }

  /** The distinct lines that occur more than once. */
  function DuplicatedLines(lines: seq<string>): set<string> {
    set l | l in lines && multiset(lines)[l] > 1
  }

  /** Each duplicated line accounts for at least two of the lines. */
  lemma DuplicatedLinesBound(lines: seq<string>)
    ensures 2 * |DuplicatedLines(lines)| <= |lines|
  {
    var d := DuplicatedLines(lines);
    var m := multiset(lines);
    // Two copies of each duplicated line fit inside the lines.
    var rest := d;
    var taken: multiset<string> := multiset{};
    while rest != {}
      invariant rest <= d
      invariant |taken| == 2 * |d - rest|
      invariant taken <= m
      invariant forall l :: l in taken ==> l in d - rest && taken[l] == 2
      decreases rest
    {
      var l :| l in rest;
      assert l in d;
      taken := taken + multiset{l, l};
      assert d - (rest - {l}) == (d - rest) + {l};
      rest := rest - {l};
    }
    assert |taken| <= |m| by {
      MultisetSubsetSize(taken, m);
    }
  }

  lemma MultisetSubsetSize<T>(a: multiset<T>, b: multiset<T>)
    requires a <= b
    ensures |a| <= |b|
  {
    assert b == a + (b - a);
  }

  /** CQ005: fails exactly when 10 × (duplicated candidate lines) exceeds the file's line count. */
  function CheckDuplication(f: FileRecord): (o: Outcome)
    ensures !o.passed <==> 10 * |DuplicatedLines(CandidateLines(TrimAll(Split(f.content, '\n'))))| > f.lines
  {
    var duplicated := |DuplicatedLines(CandidateLines(TrimAll(Split(f.content, '\n'))))|;
    if 10 * duplicated > f.lines then Fail(Localized("rules.codeDuplication", [("count", duplicated)]))
    else Pass(Text("Code duplication is acceptable"))
  }

  /** The keys among `keys` whose count in `counts` is above one. */
  function DupsAmong(keys: seq<string>, counts: map<string, nat>): set<string> {
    set l | l in keys && l in counts && counts[l] > 1
  }

  lemma DupsAmongSnoc(keys: seq<string>, k: string, counts: map<string, nat>)
    requires k !in keys
    ensures |DupsAmong(keys + [k], counts)| == |DupsAmong(keys, counts)| + (if k in counts && counts[k] > 1 then 1 else 0)
  {
    if k in counts && counts[k] > 1 {
      assert DupsAmong(keys + [k], counts) == DupsAmong(keys, counts) + {k};
    } else {
      assert DupsAmong(keys + [k], counts) == DupsAmong(keys, counts);
    }
  }

  /**
   * The counting loop of CQ005: a map from line to occurrence count filled in one pass
   * (keys kept in insertion order, as a JavaScript `Map` iterates), then the entries with a
   * count above one are counted.
   */
  method CountDuplicatedLines(lines: seq<string>) returns (n: nat)
    ensures n == |DuplicatedLines(lines)|
  {
    var counts: map<string, nat> := map[];
    var order: seq<string> := [];
    for i := 0 to |lines|
      invariant forall l :: l in counts <==> l in lines[..i]
      invariant forall l :: l in counts ==> counts[l] == multiset(lines[..i])[l]
      invariant forall l :: l in order <==> l in counts
      invariant forall a, b :: 0 <= a < b < |order| ==> order[a] != order[b]
    {
      var line := lines[i];
      assert lines[..i + 1] == lines[..i] + [line];
      assert multiset(lines[..i + 1]) == multiset(lines[..i]) + multiset{line};
      if line !in counts {
        order := order + [line];
      }
      counts := counts[line := (if line in counts then counts[line] else 0) + 1];
    }
    assert lines[..|lines|] == lines;
    n := 0;
    for k := 0 to |order|
      invariant n == |DupsAmong(order[..k], counts)|
    {
      assert order[..k + 1] == order[..k] + [order[k]];
      DupsAmongSnoc(order[..k], order[k], counts);
      if counts[order[k]] > 1 {
        n := n + 1;
      }
    }
    assert order[..|order|] == order;
    assert DupsAmong(order, counts) == DuplicatedLines(lines);
  }

  /** CQ006: "too few comments" (ratio < 0.1 on a file over 50 lines) is checked before "too many" (ratio > 0.5). */
  function CheckComments(e: Engine, f: FileRecord): (o: Outcome)
    ensures var c := CountOccurrences(e, COMMENT_MARKER, f.content);
            && (!o.passed <==> (10 * c < f.lines && f.lines > 50) || 2 * c > f.lines)
            && (10 * c < f.lines && f.lines > 50 ==> o.message == Localized("rules.commentsQuality", []))
  {
    var codeLines := f.lines;
    var commentLines := CountOccurrences(e, COMMENT_MARKER, f.content);
    if 10 * commentLines < codeLines && codeLines > 50 then Fail(Localized("rules.commentsQuality", []))
    else if 2 * commentLines > codeLines then Fail(Text("Too many comments. Code may need simplification"))
    else Pass(Text("Comments quality is acceptable"))
  }

  /** The code-quality rules, in declared order. */
  function Rules(e: Engine): (rules: seq<Rule>)
    ensures |rules| == 6
    ensures SumWeights(rules) == 70
  {
    var rules := [
      Rule("CQ001", Warning, 10, f => CheckNaming(e, f)),
      Rule("CQ002", Warning, 15, f => CheckFunctionLength(e, f)),
      Rule("CQ003", Error, 20, f => CheckComplexity(e, f)),
      Rule("CQ004", Info, 5, f => CheckMagicNumbers(e, f)),
      Rule("CQ005", Warning, 12, f => CheckDuplication(f)),
      Rule("CQ006", Info, 8, f => CheckComments(e, f))
    ];
    SumWeightsSix(rules);
    rules
  }
}
