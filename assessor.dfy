/**
 * The assessment pipeline (src/core/assessor.ts): file records are built from the project's
 * files, the five analysers score them, the category percentages are combined into an overall
 * score, a level is chosen, and per-file results and recommendations are derived.
 */
module Assessor {
  import opened Wrappers
  import opened Strings
  import opened Regex
  import opened Types
  import opened BaseAnalyzer
  import CodeQuality
  import Performance
  import Architecture
  import BestPractices
  import Maintainability
  import FrameworkDetector
  import LevelEvaluator

  // ----- File records -----

  /** The configured framework: detect per file, a fixed tag, or explicitly unset (which falls back to vanilla). */
  datatype FrameworkSetting = Auto | Fixed(framework: Framework) | Unset

  /** A file found by the project scan; `content` is `None` when it cannot be read. */
  datatype SourceFile = SourceFile(absolutePath: string, relativePath: string, content: Option<string>)

  /** `determineFileType`: path words first (test, then config), then content markers (component, service, utility). */
  function DetermineFileType(filePath: string, content: string): (t: FileType)
    ensures var name := ToLower(filePath);
            var isTest := Contains(name, "test") || Contains(name, "spec");
            var isConfig := Contains(name, "config") || Contains(name, "setup");
            var isComponent := Contains(content, "export default") || Contains(content, "export class") ||
                               Contains(content, "<template>") || Contains(content, "function Component");
            var isService := Contains(content, "service") || Contains(content, "api") ||
                             Contains(content, "fetch") || Contains(content, "axios");
            var isUtility := Contains(content, "export function") || Contains(content, "export const");
            && (t == Test <==> isTest)
            && (t == Config <==> !isTest && isConfig)
            && (t == Component <==> !isTest && !isConfig && isComponent)
            && (t == Service <==> !isTest && !isConfig && !isComponent && isService)
            && (t == Utility <==> !isTest && !isConfig && !isComponent && !isService && isUtility)
            && (t == Other <==> !isTest && !isConfig && !isComponent && !isService && !isUtility)
  {
    var fileName := ToLower(filePath);
    if Contains(fileName, "test") || Contains(fileName, "spec") then Test
    else if Contains(fileName, "config") || Contains(fileName, "setup") then Config
    else if Contains(content, "export default") || Contains(content, "export class") ||
            Contains(content, "<template>") || Contains(content, "function Component") then Component
    else if Contains(content, "service") || Contains(content, "api") ||
            Contains(content, "fetch") || Contains(content, "axios") then Service
    else if Contains(content, "export function") || Contains(content, "export const") then Utility
    else Other
  }

  /**
   * The type is decided on the absolute path, so a project kept in a folder such as `test-app`
   * has every one of its files typed as a test, whatever the content.
   */
  lemma ProjectFolderDecidesType(root: string, rest: string, content: string)
    ensures DetermineFileType(root + "/test-app/" + rest, content) == Test
  {
    var path := root + "/test-app/" + rest;
    var k := |root| + 1;
    var lower := ToLower(path);
    assert path[k..k + 4] == "test";
    forall m | 0 <= m < 4
      ensures lower[k + m] == "test"[m]
    {
      assert path[k + m] == "test"[m];
    }
    assert lower[k..k + 4] == "test";
    assert OccursAt(lower, "test", k);
    ContainsIff(lower, "test");
  }

  /** The framework tag a file gets under a setting. */
  function FrameworkFor(e: Engine, setting: FrameworkSetting, content: string, absolutePath: string): Framework {
    match setting
    case Auto => FrameworkDetector.Detection(e, content, absolutePath)
    case Fixed(fw) => fw
    case Unset => Vanilla
  }

  /** The record of one readable file: size in characters, lines as `split('\n').length`. */
  function BuildRecord(e: Engine, setting: FrameworkSetting, src: SourceFile): FileRecord
    requires src.content.Some?
  {
    var content := src.content.value;
    FileRecord(src.relativePath, content, |content|, |Split(content, '\n')|,
               FrameworkFor(e, setting, content, src.absolutePath),
               DetermineFileType(src.absolutePath, content))
  }

  /**
   * A record keeps the path and content, its size is the content length, its line count is one
   * more than the newlines, its type is the classified one, and its framework is the detected
   * one under `auto`, the configured one when fixed, and vanilla when unset.
   */
  lemma BuildRecordFacts(e: Engine, setting: FrameworkSetting, src: SourceFile)
    requires src.content.Some?
    ensures var f := BuildRecord(e, setting, src);
            && f.path == src.relativePath && f.content == src.content.value
            && f.size == |src.content.value|
            && f.lines == 1 + multiset(src.content.value)['\n']
            && f.fileType == DetermineFileType(src.absolutePath, src.content.value)
            && (setting.Auto? ==> f.framework == FrameworkDetector.Detection(e, src.content.value, src.absolutePath))
            && (setting.Fixed? ==> f.framework == setting.framework)
            && (setting.Unset? ==> f.framework == Vanilla)
  {
    SplitLength(src.content.value, '\n');
  }

  /** The records of the readable files, in scan order; unreadable files are skipped. */
  function Records(e: Engine, setting: FrameworkSetting, sources: seq<SourceFile>): (files: seq<FileRecord>)
    ensures |files| <= |sources|
    ensures (forall i :: 0 <= i < |sources| ==> sources[i].content.Some?) ==> |files| == |sources|
  {
    if |sources| == 0 then []
    else
      var init := sources[..|sources| - 1];
      var src := sources[|sources| - 1];
      assert forall i :: 0 <= i < |init| ==> init[i] == sources[i];
      Records(e, setting, init) + (if src.content.Some? then [BuildRecord(e, setting, src)] else [])
  }

  /** Extending the scanned prefix by one file adds that file's record when it is readable. */
  lemma RecordsStep(e: Engine, setting: FrameworkSetting, sources: seq<SourceFile>, i: nat)
    requires i < |sources|
    ensures Records(e, setting, sources[..i + 1]) ==
              Records(e, setting, sources[..i]) +
              (if sources[i].content.Some? then [BuildRecord(e, setting, sources[i])] else [])
  {
    assert sources[..i + 1][..i] == sources[..i];
  }

  /** The body of the `analyzeFiles` loop for a readable file: detect or take the framework, then build the record. */
  method BuildFileRecord(e: Engine, setting: FrameworkSetting, src: SourceFile) returns (analysis: FileRecord)
    requires src.content.Some?
    ensures analysis == BuildRecord(e, setting, src)
  {
    var content := src.content.value;
    var framework: Framework;
    match setting {
      case Auto => framework := FrameworkDetector.Detect(e, content, src.absolutePath);
      case Fixed(fw) => framework := fw;
      case Unset => framework := Vanilla;
    }
    analysis := FileRecord(src.relativePath, content, |content|, |Split(content, '\n')|,
                           framework, DetermineFileType(src.absolutePath, content));
  }

  /** `analyzeFiles`: one record per readable file, pushed in order. */
  method AnalyzeFiles(e: Engine, setting: FrameworkSetting, sources: seq<SourceFile>) returns (analyses: seq<FileRecord>)
    ensures analyses == Records(e, setting, sources)
  {
    analyses := [];
    for i := 0 to |sources|
      invariant analyses == Records(e, setting, sources[..i])
    {
      var src := sources[i];
      RecordsStep(e, setting, sources, i);
      if src.content.Some? {
        var analysis := BuildFileRecord(e, setting, src);
        analyses := analyses + [analysis];
      }
    }
    assert sources[..|sources|] == sources;
  }

  // ----- Categories and the overall score -----

  /** The rule tables of the five analysers. */
  datatype Analyzers = Analyzers(
    codeQuality: seq<Rule>, performance: seq<Rule>, architecture: seq<Rule>,
    bestPractices: seq<Rule>, maintainability: seq<Rule>)

  /** The analysers the assessor's constructor creates. */
  function AnalyzersOf(e: Engine): Analyzers {
    Analyzers(CodeQuality.Rules(e), Performance.Rules(e), Architecture.Rules(e), BestPractices.Rules(e), Maintainability.Rules(e))
  }

  /** The five category results of a file list. */
  function CategoriesOf(files: seq<FileRecord>, a: Analyzers): Categories {
    Categories(
      Category(files, a.codeQuality),
      Category(files, a.performance),
      Category(files, a.architecture),
      Category(files, a.bestPractices),
      Category(files, a.maintainability))
  }

  /** Every category percentage is at most 100. */
  predicate PercentagesValid(c: Categories) {
    && c.codeQuality.percentage <= 100 && c.performance.percentage <= 100 && c.architecture.percentage <= 100
    && c.bestPractices.percentage <= 100 && c.maintainability.percentage <= 100
  }

  lemma CategoriesValid(files: seq<FileRecord>, a: Analyzers)
    ensures PercentagesValid(CategoriesOf(files, a))
  {
    CategoryFacts(files, a.codeQuality);
    CategoryFacts(files, a.performance);
    CategoryFacts(files, a.architecture);
    CategoryFacts(files, a.bestPractices);
    CategoryFacts(files, a.maintainability);
  }

  /** With no files every category scores 100% and records nothing. */
  lemma NoFilesFullMarks(a: Analyzers)
    ensures var c := CategoriesOf([], a);
            forall i :: 0 <= i < 5 ==> Entries(c)[i].1.percentage == 100 && Entries(c)[i].1.issues == []
  {
    CategoryFacts([], a.codeQuality);
    CategoryFacts([], a.performance);
    CategoryFacts([], a.architecture);
    CategoryFacts([], a.bestPractices);
    CategoryFacts([], a.maintainability);
  }

  /** The weight of a category in hundredths; the entries carry only these five names. */
  function CategoryWeight(name: string): nat {
    if name == "codeQuality" then 25
    else if name == "performance" then 20
    else if name == "architecture" then 20
    else if name == "bestPractices" then 20
    else if name == "maintainability" then 15
    else 0
  }

  /** Σ weight × percentage over entries. */
  function WeightedSum(entries: seq<(string, CategoryResult)>): nat {
    if |entries| == 0 then 0
    else WeightedSum(entries[..|entries| - 1]) + CategoryWeight(entries[|entries| - 1].0) * entries[|entries| - 1].1.percentage
  }

  /** Σ weight over entries. */
  function WeightTotal(entries: seq<(string, CategoryResult)>): nat {
    if |entries| == 0 then 0 else WeightTotal(entries[..|entries| - 1]) + CategoryWeight(entries[|entries| - 1].0)
  }

  /** `Math.round(num / den)` for non-negative operands: the nearest integer, halves rounded up. */
  function RoundHalfUp(num: nat, den: nat): (r: nat)
    requires den > 0
    ensures 2 * den * r <= 2 * num + den < 2 * den * (r + 1)
  {
    (2 * num + den) / (2 * den)
  }

  lemma WeightedSumOfCategories(c: Categories)
    ensures WeightTotal(Entries(c)) == 100
    ensures WeightedSum(Entries(c)) ==
              25 * c.codeQuality.percentage + 20 * c.performance.percentage + 20 * c.architecture.percentage +
              20 * c.bestPractices.percentage + 15 * c.maintainability.percentage
  {
    var es := Entries(c);
    assert CategoryWeight(es[0].0) == 25 && CategoryWeight(es[1].0) == 20 && CategoryWeight(es[2].0) == 20;
    assert CategoryWeight(es[3].0) == 20 && CategoryWeight(es[4].0) == 15;
    assert es[..1][..0] == [];
    assert WeightedSum(es[..1]) == 25 * c.codeQuality.percentage && WeightTotal(es[..1]) == 25;
    assert es[..2][..1] == es[..1];
    assert WeightedSum(es[..2]) == WeightedSum(es[..1]) + 20 * c.performance.percentage;
    assert WeightTotal(es[..2]) == 45;
    assert es[..3][..2] == es[..2];
    assert WeightedSum(es[..3]) == WeightedSum(es[..2]) + 20 * c.architecture.percentage;
    assert WeightTotal(es[..3]) == 65;
    assert es[..4][..3] == es[..3];
    assert WeightedSum(es[..4]) == WeightedSum(es[..3]) + 20 * c.bestPractices.percentage;
    assert WeightTotal(es[..4]) == 85;
    assert es[..4] == es[..|es| - 1];
  }

  /** The overall score: the weighted mean of the category percentages, rounded half up. */
  function OverallScore(c: Categories): nat {
    WeightedSumOfCategories(c);
    RoundHalfUp(WeightedSum(Entries(c)), WeightTotal(Entries(c)))
  }

  /** The overall score is the weighted mean 25/20/20/20/15 rounded to the nearest integer. */
  lemma OverallScoreRounds(c: Categories)
    ensures var sum := 25 * c.codeQuality.percentage + 20 * c.performance.percentage + 20 * c.architecture.percentage +
                       20 * c.bestPractices.percentage + 15 * c.maintainability.percentage;
            200 * OverallScore(c) <= 2 * sum + 100 < 200 * (OverallScore(c) + 1)
  {
    WeightedSumOfCategories(c);
  }

  /** With every percentage at most 100 the overall score is at most 100. */
  lemma OverallScoreAtMost100(c: Categories)
    requires PercentagesValid(c)
    ensures OverallScore(c) <= 100
  {
    OverallScoreRounds(c);
  }

  /** Five equal percentages give that percentage back. */
  lemma OverallScoreUniform(c: Categories, p: nat)
    requires forall i :: 0 <= i < 5 ==> Entries(c)[i].1.percentage == p
    ensures OverallScore(c) == p
  {
    OverallScoreRounds(c);
    assert Entries(c)[0].1 == c.codeQuality && Entries(c)[1].1 == c.performance && Entries(c)[2].1 == c.architecture;
    assert Entries(c)[3].1 == c.bestPractices && Entries(c)[4].1 == c.maintainability;
  }

  /** Raising one category's percentage never lowers the overall score. */
  lemma OverallScoreMonotone(c: Categories, d: Categories)
    requires forall i :: 0 <= i < 5 ==> Entries(c)[i].1.percentage <= Entries(d)[i].1.percentage
    ensures OverallScore(c) <= OverallScore(d)
  {
    OverallScoreRounds(c);
    OverallScoreRounds(d);
    assert Entries(c)[0].1 == c.codeQuality && Entries(c)[1].1 == c.performance && Entries(c)[2].1 == c.architecture;
    assert Entries(c)[3].1 == c.bestPractices && Entries(c)[4].1 == c.maintainability;
    assert Entries(d)[0].1 == d.codeQuality && Entries(d)[1].1 == d.performance && Entries(d)[2].1 == d.architecture;
    assert Entries(d)[3].1 == d.bestPractices && Entries(d)[4].1 == d.maintainability;
  }

  /** `calculateOverallScore`: the `forEach` accumulation of weighted percentages and weights, then the rounded quotient. */
  method CalculateOverallScore(c: Categories) returns (score: nat)
    ensures score == OverallScore(c)
  {
    var entries := Entries(c);
    var totalScore := 0;
    var totalWeight := 0;
    for i := 0 to |entries|
      invariant totalScore == WeightedSum(entries[..i])
      invariant totalWeight == WeightTotal(entries[..i])
    {
      assert entries[..i + 1][..i] == entries[..i];
      var (category, result) := entries[i];
      var weight := CategoryWeight(category);
      totalScore := totalScore + result.percentage * weight;
      totalWeight := totalWeight + weight;
    }
    assert entries[..|entries|] == entries;
    WeightedSumOfCategories(c);
    score := RoundHalfUp(totalScore, totalWeight);
  }

  // ----- File results -----

  /** The issues whose key contains `path` as a substring, in order. */
  function IssuesFor(issues: seq<Issue>, path: string): (r: seq<Issue>)
    ensures |r| <= |issues|
    ensures forall iss :: iss in r <==> iss in issues && Contains(iss.rule, path)
  {
    if |issues| == 0 then []
    else
      var last := issues[|issues| - 1];
      IssuesFor(issues[..|issues| - 1], path) + (if Contains(last.rule, path) then [last] else [])
  }

  /** `Object.values(categories).flatMap(...)`: a file's issues from every category, category by category. */
  function FileIssuesOf(c: Categories, path: string): (r: seq<Issue>)
    ensures forall iss :: iss in r <==>
              Contains(iss.rule, path) &&
              (iss in c.codeQuality.issues || iss in c.performance.issues || iss in c.architecture.issues ||
               iss in c.bestPractices.issues || iss in c.maintainability.issues)
  {
    IssuesFor(c.codeQuality.issues, path) + IssuesFor(c.performance.issues, path) +
    IssuesFor(c.architecture.issues, path) + IssuesFor(c.bestPractices.issues, path) +
    IssuesFor(c.maintainability.issues, path)
  }

  /**
   * Attribution is by substring: every issue attributed to a path `q` is also attributed to
   * any path `p` that `q` contains.
   */
  lemma SubstringPathSharesIssue(c: Categories, p: string, q: string)
    requires Contains(q, p)
    ensures forall iss :: iss in FileIssuesOf(c, q) ==> iss in FileIssuesOf(c, p)
  {
    forall iss | iss in FileIssuesOf(c, q)
      ensures iss in FileIssuesOf(c, p)
    {
      ContainsTransitive(iss.rule, q, p);
    }
  }

  /** For example, an issue recorded for `src/a.tsx` is also attributed to `src/a.ts`. */
  lemma TsxIssueAlsoForTs(c: Categories, iss: Issue)
    requires iss.rule == "CQ001:src/a.tsx" && iss in c.codeQuality.issues
    ensures iss in FileIssuesOf(c, "src/a.tsx") && iss in FileIssuesOf(c, "src/a.ts")
  {
    assert OccursAt(iss.rule, "src/a.tsx", 6);
    ContainsIff(iss.rule, "src/a.tsx");
    assert OccursAt("src/a.tsx", "src/a.ts", 0);
    ContainsIff("src/a.tsx", "src/a.ts");
    SubstringPathSharesIssue(c, "src/a.ts", "src/a.tsx");
  }

  /** `Math.max(0, 100 - 10 × issues)`. */
  function FileScore(issueCount: nat): (s: nat)
    ensures s <= 100 && s % 10 == 0
    ensures s == 100 <==> issueCount == 0
    ensures s == 0 <==> issueCount >= 10
  {
    if 10 * issueCount >= 100 then 0 else 100 - 10 * issueCount
  }

  /** More issues never raise a file's score; three issues leave 70, ten or more leave nothing. */
  lemma FileScoreAntitone(m: nat, n: nat)
    requires m <= n
    ensures FileScore(n) <= FileScore(m)
    ensures FileScore(3) == 70 && FileScore(10) == 0
  {
  }

  const SPLIT_FILE := "Consider splitting file into smaller modules"
  const FIX_ERRORS := "Fix critical errors first"
  const DECOMPOSE := "Component is too large, consider decomposition"

  predicate HasError(issues: seq<Issue>) {
    exists i :: 0 <= i < |issues| && issues[i].severity == Error
  }

  /** `generateFileSuggestions`: each suggestion appears exactly when its condition holds, in this order. */
  function FileSuggestions(f: FileRecord, issues: seq<Issue>): (r: seq<string>)
    ensures |r| <= 3
    ensures SPLIT_FILE in r <==> f.lines > 300
    ensures FIX_ERRORS in r <==> HasError(issues)
    ensures DECOMPOSE in r <==> f.fileType == Component && f.size > 10000
    ensures forall i, j :: 0 <= i < j < |r| ==> r[i] != r[j]
    ensures SPLIT_FILE in r ==> r[0] == SPLIT_FILE
    ensures FIX_ERRORS in r ==> r[if SPLIT_FILE in r then 1 else 0] == FIX_ERRORS
    ensures DECOMPOSE in r ==> r[|r| - 1] == DECOMPOSE
  {
    (if f.lines > 300 then [SPLIT_FILE] else []) +
    (if HasError(issues) then [FIX_ERRORS] else []) +
    (if f.fileType == Component && f.size > 10000 then [DECOMPOSE] else [])
  }

  /** The pushes of `generateFileSuggestions`. */
  method GenerateFileSuggestions(f: FileRecord, issues: seq<Issue>) returns (suggestions: seq<string>)
    ensures suggestions == FileSuggestions(f, issues)
  {
    suggestions := [];
    if f.lines > 300 {
      suggestions := suggestions + [SPLIT_FILE];
    }
    if HasError(issues) {
      suggestions := suggestions + [FIX_ERRORS];
    }
    if f.fileType == Component && f.size > 10000 {
      suggestions := suggestions + [DECOMPOSE];
    }
  }

  /** The result of one file. */
  function FileResultOf(f: FileRecord, c: Categories): (r: FileResult)
    ensures r.path == f.path
    ensures r.score <= 100
    ensures r.score == 100 <==> r.issues == []
  {
    var issues := FileIssuesOf(c, f.path);
    FileResult(f.path, FileScore(|issues|), issues, FileSuggestions(f, issues))
  }

  /** `generateFileResults`: one result per file, in order. */
  function FileResults(files: seq<FileRecord>, c: Categories): (rs: seq<FileResult>)
    ensures |rs| == |files|
    ensures forall i :: 0 <= i < |files| ==> rs[i] == FileResultOf(files[i], c)
  {
    seq(|files|, i requires 0 <= i < |files| => FileResultOf(files[i], c))
  }

  // ----- Recommendations -----

  /** `getExamplesForCategory`: three examples for each category name, none otherwise. */
  function ExamplesForCategory(category: string): (r: seq<string>)
    ensures category in {"codeQuality", "performance", "architecture", "bestPractices", "maintainability"} <==> |r| == 3
    ensures |r| == 0 || |r| == 3
  {
    if category == "codeQuality" then ["Use linters (ESLint, Prettier)", "Follow SOLID principles", "Write clean and readable code"]
    else if category == "performance" then ["Use lazy loading for components", "Optimize images", "Minimize bundle size"]
    else if category == "architecture" then ["Apply design patterns", "Separate responsibilities", "Use modular architecture"]
    else if category == "bestPractices" then ["Follow framework conventions", "Use TypeScript", "Cover code with tests"]
    else if category == "maintainability" then ["Document code", "Use descriptive names", "Avoid code duplication"]
    else []
  }

  /** The recommendation for a category below 70%: high priority below 50%, medium otherwise. */
  function Recommend(category: string, result: CategoryResult): (r: Recommendation)
    ensures r.category == category
    ensures r.priority == High <==> result.percentage < 50
    ensures r.priority != Low
    ensures r.titleKey == "categories." + category
  {
    Recommendation(
      category,
      if result.percentage < 50 then High else Medium,
      "categories." + category,
      "Current result: " + NatToString(result.percentage) + "%. Needs attention.",
      ExamplesForCategory(category))
  }

  /** The recommendations for the entries below 70%, in entry order. */
  function Recommendations(entries: seq<(string, CategoryResult)>): (r: seq<Recommendation>)
    ensures |r| <= |entries|
  {
    if |entries| == 0 then []
    else
      var (category, result) := entries[|entries| - 1];
      Recommendations(entries[..|entries| - 1]) + (if result.percentage < 70 then [Recommend(category, result)] else [])
  }

  /** Every entry below 70% gets its recommendation. */
  lemma {:induction false} RecommendationsComplete(entries: seq<(string, CategoryResult)>)
    ensures forall i :: 0 <= i < |entries| && entries[i].1.percentage < 70 ==>
              Recommend(entries[i].0, entries[i].1) in Recommendations(entries)
  {
    if |entries| > 0 {
      var n := |entries|;
      var init := entries[..n - 1];
      var (category, result) := entries[n - 1];
      var tail := if result.percentage < 70 then [Recommend(category, result)] else [];
      RecommendationsComplete(init);
      assert Recommendations(entries) == Recommendations(init) + tail;
      forall i | 0 <= i < n && entries[i].1.percentage < 70
        ensures Recommend(entries[i].0, entries[i].1) in Recommendations(entries)
      {
        var rec := Recommend(entries[i].0, entries[i].1);
        if i < n - 1 {
          assert init[i] == entries[i];
          assert rec in Recommendations(init);
        } else {
          assert tail == [rec];
        }
      }
    }
  }

  /** Every recommendation is the one for some entry below 70%. */
  lemma {:induction false} RecommendationsSound(entries: seq<(string, CategoryResult)>)
    ensures forall rec :: rec in Recommendations(entries) ==>
              exists i :: 0 <= i < |entries| && entries[i].1.percentage < 70 && rec == Recommend(entries[i].0, entries[i].1)
  {
    if |entries| > 0 {
      var n := |entries|;
      var init := entries[..n - 1];
      var (category, result) := entries[n - 1];
      var tail := if result.percentage < 70 then [Recommend(category, result)] else [];
      RecommendationsSound(init);
      assert Recommendations(entries) == Recommendations(init) + tail;
      forall rec | rec in Recommendations(entries)
        ensures exists i :: 0 <= i < n && entries[i].1.percentage < 70 && rec == Recommend(entries[i].0, entries[i].1)
      {
        if rec in Recommendations(init) {
          var i :| 0 <= i < |init| && init[i].1.percentage < 70 && rec == Recommend(init[i].0, init[i].1);
          assert init[i] == entries[i];
        } else {
          assert result.percentage < 70 && rec == Recommend(category, result);
          assert entries[n - 1] == (category, result);
        }
      }
    }
  }

  /** With every category at 70% or more there is nothing to recommend. */
  lemma {:induction false} NoRecommendationsAbove70(entries: seq<(string, CategoryResult)>)
    requires forall i :: 0 <= i < |entries| ==> entries[i].1.percentage >= 70
    ensures Recommendations(entries) == []
  {
    if |entries| > 0 {
      var init := entries[..|entries| - 1];
      assert forall i :: 0 <= i < |init| ==> init[i] == entries[i];
      NoRecommendationsAbove70(init);
    }
  }

  /** Some recommendation is made exactly when some category is below 70%. */
  lemma RecommendationsNonEmpty(entries: seq<(string, CategoryResult)>)
    ensures Recommendations(entries) != [] <==> exists i :: 0 <= i < |entries| && entries[i].1.percentage < 70
  {
    RecommendationsComplete(entries);
    RecommendationsSound(entries);
    if Recommendations(entries) != [] {
      assert Recommendations(entries)[0] in Recommendations(entries);
    }
  }

  /** `generateRecommendations`: the `forEach` over the category entries, pushing one recommendation per weak category. */
  method GenerateRecommendations(c: Categories) returns (recommendations: seq<Recommendation>)
    ensures recommendations == Recommendations(Entries(c))
  {
    var entries := Entries(c);
    recommendations := [];
    for i := 0 to |entries|
      invariant recommendations == Recommendations(entries[..i])
    {
      assert entries[..i + 1][..i] == entries[..i];
      var (category, result) := entries[i];
      if result.percentage < 70 {
        recommendations := recommendations + [Recommend(category, result)];
      }
    }
    assert entries[..|entries|] == entries;
  }

  // ----- The assessment -----

  /** The assessment of a scanned project by the analysers `a` (in the running system, `AnalyzersOf(e)`). */
  function Assessment(e: Engine, a: Analyzers, setting: FrameworkSetting, sources: seq<SourceFile>): (r: AssessmentResult)
    ensures r.overallScore <= 100
    ensures |r.fileResults| == |Records(e, setting, sources)| <= |sources|
    ensures |r.recommendations| <= 5
    ensures r.recommendations != [] <==> exists i :: 0 <= i < 5 && Entries(r.categories)[i].1.percentage < 70
  {
    var files := Records(e, setting, sources);
    var categories := CategoriesOf(files, a);
    CategoriesValid(files, a);
    OverallScoreAtMost100(categories);
    RecommendationsNonEmpty(Entries(categories));
    var overall := OverallScore(categories);
    AssessmentResult(
      overall,
      LevelEvaluator.LevelOf(e, overall, categories, files),
      categories,
      FileResults(files, categories),
      Recommendations(Entries(categories)))
  }

  /**
   * A project with no files scores 100% in every category and 100 overall, has nothing to
   * recommend, and is still junior, because no practice is shown.
   */
  lemma EmptyProjectAssessment(e: Engine, a: Analyzers, setting: FrameworkSetting)
    ensures var r := Assessment(e, a, setting, []);
            && (forall i :: 0 <= i < 5 ==> Entries(r.categories)[i].1.percentage == 100)
            && r.overallScore == 100
            && r.level == Junior
            && r.fileResults == []
            && r.recommendations == []
  {
    var c := CategoriesOf([], a);
    NoFilesFullMarks(a);
    OverallScoreUniform(c, 100);
    LevelEvaluator.EmptyCorpusIsJunior(e, 100, c);
    NoRecommendationsAbove70(Entries(c));
  }

  /**
   * `assess`: scan, run each analyser of `a` (the assessor's analyser fields), score, choose the
   * level, then derive file results and recommendations.
   */
  method Assess(e: Engine, a: Analyzers, setting: FrameworkSetting, sources: seq<SourceFile>) returns (r: AssessmentResult)
    ensures r == Assessment(e, a, setting, sources)
  {
    var files := AnalyzeFiles(e, setting, sources);
    var codeQuality := Analyze(files, a.codeQuality);
    var performance := Analyze(files, a.performance);
    var architecture := Analyze(files, a.architecture);
    var bestPractices := Analyze(files, a.bestPractices);
    var maintainability := Analyze(files, a.maintainability);
    var categories := Categories(codeQuality, performance, architecture, bestPractices, maintainability);
    var overallScore := CalculateOverallScore(categories);
    var level := LevelEvaluator.DetermineLevel(e, overallScore, categories, files);
    var recommendations := GenerateRecommendations(categories);
    r := AssessmentResult(overallScore, level, categories, FileResults(files, categories), recommendations);
  }
}
