/**
 * The rule/category engine shared by the five analysers (src/analyzers/base-analyzer.ts):
 * every rule is evaluated on every file, in order, accumulating a score, a maximum score
 * and the list of issues; plus the helpers the rules use to report a regex hit, count
 * occurrences and approximate cyclomatic complexity.
 */
module BaseAnalyzer {
  import opened Wrappers
  import opened Strings
  import opened Regex
  import opened Types

  /** A weighted, named check of one file (`AnalyzerRule`). */
  datatype Rule = Rule(id: string, severity: Severity, weight: nat, check: FileRecord -> Outcome)

  /** The sum of the weights of `rules`. */
  function SumWeights(rules: seq<Rule>): nat {
    if |rules| == 0 then 0 else SumWeights(rules[..|rules| - 1]) + rules[|rules| - 1].weight
  }

  /** A six-rule table weighs the sum of its six weights. */
  lemma SumWeightsSix(rules: seq<Rule>)
    requires |rules| == 6
    ensures SumWeights(rules) == rules[0].weight + rules[1].weight + rules[2].weight + rules[3].weight + rules[4].weight + rules[5].weight
  {
    assert rules[..6] == rules;
    forall k | 1 <= k <= 6
      ensures SumWeights(rules[..k]) == SumWeights(rules[..k - 1]) + rules[k - 1].weight
    {
      assert rules[..k][..k - 1] == rules[..k - 1];
    }
  }

  /** The weight `f` earns: the weights of the rules it passes. */
  function PassedWeight(rules: seq<Rule>, f: FileRecord): nat {
    if |rules| == 0 then 0
    else
      var r := rules[|rules| - 1];
      PassedWeight(rules[..|rules| - 1], f) + (if r.check(f).passed then r.weight else 0)
  }

  /** The weight `f` loses: the weights of the rules it fails. */
  function FailedWeight(rules: seq<Rule>, f: FileRecord): nat {
    if |rules| == 0 then 0
    else
      var r := rules[|rules| - 1];
      FailedWeight(rules[..|rules| - 1], f) + (if r.check(f).passed then 0 else r.weight)
  }

  /** The issue recorded when `r` fails on `f`, keyed `<ruleId>:<filePath>`. */
  function MakeIssue(r: Rule, f: FileRecord): Issue {
    var o := r.check(f);
    Issue(r.id + ":" + f.path, r.severity, o.message, o.line, o.column)
  }

  /** The issues of one file, in declared rule order. */
  function FileIssues(rules: seq<Rule>, f: FileRecord): seq<Issue> {
    if |rules| == 0 then []
    else
      var r := rules[|rules| - 1];
      FileIssues(rules[..|rules| - 1], f) + (if r.check(f).passed then [] else [MakeIssue(r, f)])
  }

  /** The score of a file list: the sum over files of the weight each earns. */
  function Score(files: seq<FileRecord>, rules: seq<Rule>): nat {
    if |files| == 0 then 0 else Score(files[..|files| - 1], rules) + PassedWeight(rules, files[|files| - 1])
  }

  /** The weight lost over a file list. */
  function FailedScore(files: seq<FileRecord>, rules: seq<Rule>): nat {
    if |files| == 0 then 0 else FailedScore(files[..|files| - 1], rules) + FailedWeight(rules, files[|files| - 1])
  }

  /** All issues of a file list: file-major, then declared rule order. */
  function Issues(files: seq<FileRecord>, rules: seq<Rule>): seq<Issue> {
    if |files| == 0 then [] else Issues(files[..|files| - 1], rules) + FileIssues(rules, files[|files| - 1])
  }

  /** Half-up rounding of 100·score/maxScore never exceeds 100 when score <= maxScore. */
  lemma RoundedPercentAtMost100(score: nat, maxScore: nat)
    requires 0 < maxScore && score <= maxScore
    ensures (200 * score + maxScore) / (2 * maxScore) <= 100
  {
    var m2, a := 2 * maxScore, 200 * score + maxScore;
    var p := a / m2;
    assert p * m2 <= a;
    assert a < 101 * m2;
    if p >= 101 {
      MulMonotone(101, p, m2);
    }
  }

  lemma MulMonotone(a: nat, b: nat, c: nat)
    requires a <= b
    ensures a * c <= b * c
  {
  }

  /**
   * `Math.round(score / maxScore * 100)`, or 100 when nothing was evaluated: the integer
   * nearest to 100·score/maxScore, halves rounded up.
   */
  function Percentage(score: nat, maxScore: nat): (p: nat)
    requires score <= maxScore
    ensures p <= 100
    ensures maxScore == 0 ==> p == 100
    ensures maxScore > 0 ==> 2 * maxScore * p <= 200 * score + maxScore < 2 * maxScore * (p + 1)
  {
    if maxScore > 0 then
      RoundedPercentAtMost100(score, maxScore);
      (200 * score + maxScore) / (2 * maxScore)
    else 100
  }

  /** The category result the engine computes for `files` under `rules`. */
  function Category(files: seq<FileRecord>, rules: seq<Rule>): CategoryResult
  {
    var score := Score(files, rules);
    var maxScore := |files| * SumWeights(rules);
    ScoreBounded(files, rules);
    CategoryResult(score, maxScore, Percentage(score, maxScore), Issues(files, rules))
  }

  /** Every rule a file is checked against either earns or loses its weight. */
  lemma {:induction false} PassedPlusFailed(rules: seq<Rule>, f: FileRecord)
    ensures PassedWeight(rules, f) + FailedWeight(rules, f) == SumWeights(rules)
  {
    if |rules| > 0 {
      PassedPlusFailed(rules[..|rules| - 1], f);
    }
  }

  /** Score plus lost weight is the maximum: every (file, rule) pair adds its weight to exactly one side. */
  lemma {:induction false} ScorePlusFailed(files: seq<FileRecord>, rules: seq<Rule>)
    ensures Score(files, rules) + FailedScore(files, rules) == |files| * SumWeights(rules)
  {
    if |files| > 0 {
      var n := |files|;
      ScorePlusFailed(files[..n - 1], rules);
      PassedPlusFailed(rules, files[n - 1]);
      assert (n - 1) * SumWeights(rules) + SumWeights(rules) == n * SumWeights(rules);
    }
  }

  lemma ScoreBounded(files: seq<FileRecord>, rules: seq<Rule>)
    ensures Score(files, rules) <= |files| * SumWeights(rules)
  {
    ScorePlusFailed(files, rules);
  }

  /** Issue `iss` is the one rule `k` records for file `f`, and rule `k` fails on `f`. */
  predicate RecordsFailure(rules: seq<Rule>, f: FileRecord, k: int, iss: Issue) {
    0 <= k < |rules| && !rules[k].check(f).passed && iss == MakeIssue(rules[k], f)
  }

  /** An issue is recorded for a file exactly when one of the rules fails on it. */
  lemma {:induction false} FileIssuesExact(rules: seq<Rule>, f: FileRecord)
    ensures |FileIssues(rules, f)| <= |rules|
    ensures forall iss :: iss in FileIssues(rules, f) <==> exists k :: RecordsFailure(rules, f, k, iss)
  {
    if |rules| > 0 {
      var init := rules[..|rules| - 1];
      FileIssuesExact(init, f);
      var last := rules[|rules| - 1];
      assert FileIssues(rules, f) == FileIssues(init, f) + (if last.check(f).passed then [] else [MakeIssue(last, f)]);
      forall iss ensures iss in FileIssues(rules, f) <==> exists k :: RecordsFailure(rules, f, k, iss) {
        if !last.check(f).passed && iss == MakeIssue(last, f) {
          assert RecordsFailure(rules, f, |rules| - 1, iss);
        }
        if iss in FileIssues(init, f) {
          var k :| RecordsFailure(init, f, k, iss);
          assert RecordsFailure(rules, f, k, iss);
        }
        if exists k :: RecordsFailure(rules, f, k, iss) {
          var k :| RecordsFailure(rules, f, k, iss);
          if k < |init| {
            assert RecordsFailure(init, f, k, iss);
          }
        }
      }
    }
  }

  /** A file gets at most one issue per rule. */
  lemma {:induction false} FileIssuesLength(rules: seq<Rule>, f: FileRecord)
    ensures |FileIssues(rules, f)| <= |rules|
  {
    if |rules| > 0 {
      FileIssuesLength(rules[..|rules| - 1], f);
    }
  }

  /** At most one issue per (file, rule) pair. */
  lemma {:induction false} IssuesCount(files: seq<FileRecord>, rules: seq<Rule>)
    ensures |Issues(files, rules)| <= |files| * |rules|
  {
    if |files| > 0 {
      var n, m := |files|, |rules|;
      var init := files[..n - 1];
      IssuesCount(init, rules);
      FileIssuesLength(rules, files[n - 1]);
      assert |Issues(files, rules)| == |Issues(init, rules)| + |FileIssues(rules, files[n - 1])|;
      assert (n - 1) * m + m == n * m;
    }
  }

  /**
   * The category's issues are exactly the failed (file, rule) pairs, each keyed
   * `<ruleId>:<filePath>` with the rule's severity and the outcome's message and location.
   */
  lemma {:induction false} IssuesExact(files: seq<FileRecord>, rules: seq<Rule>)
    ensures forall iss :: iss in Issues(files, rules) <==>
              exists i, k :: 0 <= i < |files| && RecordsFailure(rules, files[i], k, iss)
  {
    if |files| > 0 {
      var n := |files|;
      var init := files[..n - 1];
      IssuesExact(init, rules);
      FileIssuesExact(rules, files[n - 1]);
      forall iss ensures iss in Issues(files, rules) <==>
          exists i, k :: 0 <= i < |files| && RecordsFailure(rules, files[i], k, iss)
      {
        if iss in Issues(init, rules) {
          var i, k :| 0 <= i < |init| && RecordsFailure(rules, init[i], k, iss);
          assert files[i] == init[i];
        } else if iss in FileIssues(rules, files[n - 1]) {
          var k :| RecordsFailure(rules, files[n - 1], k, iss);
        }
        if exists i, k :: 0 <= i < |files| && RecordsFailure(rules, files[i], k, iss) {
          var i, k :| 0 <= i < |files| && RecordsFailure(rules, files[i], k, iss);
          if i < n - 1 {
            assert init[i] == files[i];
          }
        }
      }
    }
  }

  /**
   * What the category result promises: the maximum is |files| × Σ weights, the score is at
   * most the maximum, the percentage lies in [0, 100], and an empty file list scores 100.
   */
  lemma CategoryFacts(files: seq<FileRecord>, rules: seq<Rule>)
    ensures var c := Category(files, rules);
            && c.maxScore == |files| * SumWeights(rules)
            && c.score <= c.maxScore
            && c.score + FailedScore(files, rules) == c.maxScore
            && c.percentage <= 100
            && (|files| == 0 ==> c.score == 0 && c.percentage == 100 && c.issues == [])
            && |c.issues| <= |files| * |rules|
  {
    ScorePlusFailed(files, rules);
    IssuesCount(files, rules);
  }

  /** The inner loop of `analyze` for one file: each rule in order either earns its weight or records an issue. */
  method AnalyzeFile(rules: seq<Rule>, file: FileRecord) returns (weight: nat, earned: nat, issues: seq<Issue>)
    ensures weight == SumWeights(rules)
    ensures earned == PassedWeight(rules, file)
    ensures issues == FileIssues(rules, file)
  {
    weight, earned, issues := 0, 0, [];
    for j := 0 to |rules|
      invariant weight == SumWeights(rules[..j])
      invariant earned == PassedWeight(rules[..j], file)
      invariant issues == FileIssues(rules[..j], file)
    {
      var rule := rules[j];
      assert rules[..j + 1][..j] == rules[..j];
      weight := weight + rule.weight;
      var result := rule.check(file);
      if result.passed {
        earned := earned + rule.weight;
      } else {
        issues := issues + [Issue(rule.id + ":" + file.path, rule.severity, result.message, result.line, result.column)];
      }
    }
    assert rules[..|rules|] == rules;
  }

  /**
   * `analyze`: for each file, for each rule in order, add the weight to the maximum, run
   * the check, and either add the weight to the score or record an issue.
   */
  method Analyze(files: seq<FileRecord>, rules: seq<Rule>) returns (r: CategoryResult)
    ensures r == Category(files, rules)
  {
    var issues: seq<Issue> := [];
    var totalScore: nat := 0;
    var maxScore: nat := 0;
    for i := 0 to |files|
      invariant maxScore == i * SumWeights(rules)
      invariant totalScore == Score(files[..i], rules)
      invariant issues == Issues(files[..i], rules)
    {
      var weight, earned, fileIssues := AnalyzeFile(rules, files[i]);
      maxScore := maxScore + weight;
      totalScore := totalScore + earned;
      issues := issues + fileIssues;
      assert files[..i + 1][..i] == files[..i];
      assert i * weight + weight == (i + 1) * weight;
    }
    assert files[..|files|] == files;
    ScoreBounded(files, rules);
    var percentage := if maxScore > 0 then (200 * totalScore + maxScore) / (2 * maxScore) else 100;
    r := CategoryResult(totalScore, maxScore, percentage, issues);
  }

  function Min(a: nat, b: nat): nat {
    if a <= b then a else b
  }

  /** The text before index `i`, as `content.substring(0, i)` gives it (clamped to the length). */
  function PrefixBefore(content: string, i: nat): string {
    content[..Min(i, |content|)]
  }

  /** The 1-based line on which index `i` of `content` lies: one more than the newlines before it. */
  function LineAt(content: string, i: nat): nat {
    1 + multiset(PrefixBefore(content, i))['\n']
  }

  /** The 0-based column of index `i`: the characters between the last newline before it and it. */
  function ColumnAt(content: string, i: nat): nat {
    var pre := PrefixBefore(content, i);
    |pre| - 1 - LastIndexOfChar(pre, '\n')
  }

  /**
   * `checkRegexInFile`: fails exactly when the pattern matches, reporting the line and
   * column of the first match; otherwise passes with message 'OK'.
   */
  function CheckRegexInFile(e: Engine, content: string, p: Regex, message: Message): (o: Outcome)
    ensures o.passed <==> !Matches(e, p, content)
    ensures o.passed ==> o == Pass(Text("OK"))
    ensures !o.passed ==>
              var i := e(p, content)[0].index;
              o == Outcome(false, message, Some(LineAt(content, i)), Some(ColumnAt(content, i)))
  {
    match Exec(e, p, content)
    case None => Pass(Text("OK"))
    case Some(m) =>
      var pre := PrefixBefore(content, m.index);
      var lines := Split(pre, '\n');
      SplitLength(pre, '\n');
      SplitLast(pre, '\n');
      Outcome(false, message, Some(|lines|), Some(|lines[|lines| - 1]|))
  }

  /** The sum of `countOccurrences` over a list of patterns. */
  function PatternCount(e: Engine, ps: seq<Regex>, s: string): nat {
    if |ps| == 0 then 0 else PatternCount(e, ps[..|ps| - 1], s) + CountOccurrences(e, ps[|ps| - 1], s)
  }

  /** The summed count is zero exactly when no pattern of the list occurs. */
  lemma {:induction false} PatternCountZero(e: Engine, ps: seq<Regex>, s: string)
    ensures PatternCount(e, ps, s) == 0 <==> forall i :: 0 <= i < |ps| ==> CountOccurrences(e, ps[i], s) == 0
  {
    if |ps| > 0 {
      PatternCountZero(e, ps[..|ps| - 1], s);
      assert forall i :: 0 <= i < |ps| - 1 ==> ps[..|ps| - 1][i] == ps[i];
    }
  }

  /** The forEach loop `count += this.countOccurrences(content, pattern)` over a pattern list. */
  method SumOccurrences(e: Engine, ps: seq<Regex>, s: string) returns (n: nat)
    ensures n == PatternCount(e, ps, s)
  {
    n := 0;
    for i := 0 to |ps|
      invariant n == PatternCount(e, ps[..i], s)
    {
      assert ps[..i + 1][..i] == ps[..i];
      n := n + CountOccurrences(e, ps[i], s);
    }
    assert ps[..|ps|] == ps;
  }

  /** `xs.filter(p).length`. */
  function CountWhere<T>(xs: seq<T>, p: T -> bool): (n: nat)
    ensures n <= |xs|
  {
    if |xs| == 0 then 0 else CountWhere(xs[..|xs| - 1], p) + (if p(xs[|xs| - 1]) then 1 else 0)
  }

  /** The filtered count is positive exactly when some element satisfies the predicate. */
  lemma {:induction false} CountWherePositive<T>(xs: seq<T>, p: T -> bool)
    ensures CountWhere(xs, p) > 0 <==> exists i :: 0 <= i < |xs| && p(xs[i])
  {
    if |xs| > 0 {
      var init := xs[..|xs| - 1];
      CountWherePositive(init, p);
      if CountWhere(init, p) > 0 {
        var i :| 0 <= i < |init| && p(init[i]);
        assert xs[i] == init[i];
      }
      if exists i :: 0 <= i < |xs| && p(xs[i]) {
        var i :| 0 <= i < |xs| && p(xs[i]);
        if i < |init| {
          assert init[i] == xs[i];
        }
      }
    }
  }

  /** The filtered count is the whole length exactly when every element satisfies the predicate. */
  lemma {:induction false} CountWhereAll<T>(xs: seq<T>, p: T -> bool)
    ensures CountWhere(xs, p) == |xs| <==> forall i :: 0 <= i < |xs| ==> p(xs[i])
  {
    if |xs| > 0 {
      var init := xs[..|xs| - 1];
      CountWhereAll(init, p);
      assert forall i :: 0 <= i < |init| ==> init[i] == xs[i];
    }
  }

  /** The branch and logical-operator tokens whose occurrences approximate cyclomatic complexity. */
  const COMPLEXITY_PATTERNS: seq<Regex> := [
    Regex("if\\s*\\(", "g"),
    Regex("else\\s*if\\s*\\(", "g"),
    Regex("while\\s*\\(", "g"),
    Regex("for\\s*\\(", "g"),
    Regex("catch\\s*\\(", "g"),
    Regex("case\\s+", "g"),
    Regex("&&", "g"),
    Regex("\\|\\|", "g")
  ]

  /** Approximate cyclomatic complexity: 1 plus the occurrences of the complexity patterns. */
  function Complexity(e: Engine, content: string): (c: nat)
    ensures c >= 1
  {
    1 + PatternCount(e, COMPLEXITY_PATTERNS, content)
  }

  /** `calculateComplexity`: starts at 1 and adds each pattern's count. */
  method CalculateComplexity(e: Engine, content: string) returns (c: nat)
    ensures c >= 1
    ensures c == 1 + PatternCount(e, COMPLEXITY_PATTERNS, content)
  {
    c := 1;
    for i := 0 to |COMPLEXITY_PATTERNS|
      invariant c == 1 + PatternCount(e, COMPLEXITY_PATTERNS[..i], content)
    {
      assert COMPLEXITY_PATTERNS[..i + 1][..i] == COMPLEXITY_PATTERNS[..i];
      c := c + CountOccurrences(e, COMPLEXITY_PATTERNS[i], content);
    }
    assert COMPLEXITY_PATTERNS[..|COMPLEXITY_PATTERNS|] == COMPLEXITY_PATTERNS;
  }
}
