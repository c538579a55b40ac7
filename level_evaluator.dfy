/**
 * The experience-level evaluation (src/utils/level-evaluator.ts): a practices score and a
 * complexity score over all files, the senior and middle gates, the ladder of next levels,
 * and the detailed strengths/weaknesses analysis.
 */
module LevelEvaluator {
  import opened Wrappers
  import opened Strings
  import opened Regex
  import opened Types
  import opened BaseAnalyzer

  // ----- Gates -----

  /** The minimum overall score of each level. */
  function MinScore(level: Level): nat {
    match level
    case Junior => 60
    case Middle => 75
    case Senior => 85
  }

  predicate MeetsSenior(overall: int, practices: int, architecture: int, complexity: int) {
    overall >= MinScore(Senior) && practices >= 80 && architecture >= 80 && complexity >= 70
  }

  predicate MeetsMiddle(overall: int, practices: int, architecture: int, complexity: int) {
    overall >= MinScore(Middle) && practices >= 65 && architecture >= 60 && complexity >= 50
  }

  /** The level the four scores earn: senior if its gate is met, else middle if its gate is met, else junior. */
  function LevelFor(overall: int, practices: int, architecture: int, complexity: int): (l: Level)
    ensures l == Senior <==> MeetsSenior(overall, practices, architecture, complexity)
    ensures l == Middle <==> !MeetsSenior(overall, practices, architecture, complexity) && MeetsMiddle(overall, practices, architecture, complexity)
    ensures l == Junior <==> !MeetsMiddle(overall, practices, architecture, complexity)
  {
    if MeetsSenior(overall, practices, architecture, complexity) then Senior
    else if MeetsMiddle(overall, practices, architecture, complexity) then Middle
    else Junior
  }

  /** Every threshold of the senior gate is at least the middle one, so the senior gate implies the middle gate. */
  lemma SeniorGateImpliesMiddle(overall: int, practices: int, architecture: int, complexity: int)
    ensures MeetsSenior(overall, practices, architecture, complexity) ==> MeetsMiddle(overall, practices, architecture, complexity)
  {
  }

  /** Raising any of the four scores never lowers the level. */
  lemma LevelMonotone(o1: int, p1: int, a1: int, c1: int, o2: int, p2: int, a2: int, c2: int)
    requires o1 <= o2 && p1 <= p2 && a1 <= a2 && c1 <= c2
    ensures LevelFor(o1, p1, a1, c1).Rank() <= LevelFor(o2, p2, a2, c2).Rank()
  {
  }

  /** A weak architecture score alone drops a candidate from senior past middle to junior. */
  lemma ArchitectureGateExample()
    ensures LevelFor(86, 82, 81, 72) == Senior
    ensures LevelFor(86, 82, 55, 72) == Junior
  {
  }

  // ----- Practices -----

  const TRY_CATCH := Regex("try\\s*{|catch\\s*\\(", "g")
  const ASYNC_AWAIT := Regex("async\\s+|await\\s+", "g")
  const MODERN_SYNTAX := Regex("const\\s+|let\\s+|arrow functions|destructuring", "g")
  const JSDOC_BLOCK := Regex("\\/\\*\\*[\\s\\S]*?\\*\\/", "g")

  /** `files.some(p)`. */
  predicate AnyFile(files: seq<FileRecord>, p: FileRecord -> bool) {
    exists i :: 0 <= i < |files| && p(files[i])
  }

  /** Components exist together with services or utilities. */
  predicate HasGoodCodeOrganization(files: seq<FileRecord>) {
    AnyFile(files, (f: FileRecord) => f.fileType == Component) &&
    (AnyFile(files, (f: FileRecord) => f.fileType == Service) || AnyFile(files, (f: FileRecord) => f.fileType == Utility))
  }

  /** One practice check, already evaluated over the file list. */
  datatype PracticeCheck = PracticeCheck(name: string, weight: nat, held: bool)

  /** The seven practice checks, in order. */
  function PracticeChecks(e: Engine, files: seq<FileRecord>): (cs: seq<PracticeCheck>)
    ensures |cs| == 7
  {
    [
      PracticeCheck("TypeScript Usage", 20, AnyFile(files, (f: FileRecord) => EndsWith(f.path, ".ts") || EndsWith(f.path, ".tsx"))),
      PracticeCheck("Error Handling", 15, AnyFile(files, (f: FileRecord) => Matches(e, TRY_CATCH, f.content))),
      PracticeCheck("Async/Await", 10, AnyFile(files, (f: FileRecord) => Matches(e, ASYNC_AWAIT, f.content))),
      PracticeCheck("Modern ES6+", 10, AnyFile(files, (f: FileRecord) => Matches(e, MODERN_SYNTAX, f.content))),
      PracticeCheck("Documentation", 15, AnyFile(files, (f: FileRecord) => Matches(e, JSDOC_BLOCK, f.content))),
      PracticeCheck("Testing", 20, AnyFile(files, (f: FileRecord) => f.fileType == Test)),
      PracticeCheck("Code Organization", 10, HasGoodCodeOrganization(files))
    ]
  }

  function TotalWeight(cs: seq<PracticeCheck>): nat {
    if |cs| == 0 then 0 else TotalWeight(cs[..|cs| - 1]) + cs[|cs| - 1].weight
  }

  /** The weight of the checks that hold. */
  function HeldWeight(cs: seq<PracticeCheck>): nat {
    if |cs| == 0 then 0 else HeldWeight(cs[..|cs| - 1]) + (if cs[|cs| - 1].held then cs[|cs| - 1].weight else 0)
  }

  lemma {:induction false} HeldWeightBounds(cs: seq<PracticeCheck>)
    ensures HeldWeight(cs) <= TotalWeight(cs)
    ensures (forall i :: 0 <= i < |cs| ==> !cs[i].held) ==> HeldWeight(cs) == 0
    ensures (forall i :: 0 <= i < |cs| ==> cs[i].held) ==> HeldWeight(cs) == TotalWeight(cs)
  {
    if |cs| > 0 {
      HeldWeightBounds(cs[..|cs| - 1]);
      assert forall i :: 0 <= i < |cs| - 1 ==> cs[..|cs| - 1][i] == cs[i];
    }
  }

  /** The practice weights add up to the maximum score of 100. */
  lemma PracticeWeightsTotal(e: Engine, files: seq<FileRecord>)
    ensures TotalWeight(PracticeChecks(e, files)) == 100
  {
    var cs := PracticeChecks(e, files);
    assert cs[..7] == cs;
    forall k | 1 <= k <= 7
      ensures TotalWeight(cs[..k]) == TotalWeight(cs[..k - 1]) + cs[k - 1].weight
    {
      assert cs[..k][..k - 1] == cs[..k - 1];
    }
    assert TotalWeight(cs[..0]) == 0;
    assert [cs[0].weight, cs[1].weight, cs[2].weight, cs[3].weight, cs[4].weight, cs[5].weight, cs[6].weight] ==
           [20, 15, 10, 10, 15, 20, 10];
  }

  /**
   * The practices score: the weight of the checks that hold, out of 100. The source divides by
   * the maximum, multiplies by 100 and rounds, which gives the integer weight back.
   */
  function PracticesScore(e: Engine, files: seq<FileRecord>): (s: nat)
    ensures s <= 100
  {
    var cs := PracticeChecks(e, files);
    HeldWeightBounds(cs);
    PracticeWeightsTotal(e, files);
    HeldWeight(cs)
  }

  /** With no files no practice is shown. */
  lemma NoFilesNoPractices(e: Engine)
    ensures PracticesScore(e, []) == 0
  {
    HeldWeightBounds(PracticeChecks(e, []));
  }

  /** The `forEach` accumulation of the weights of the checks that hold. */
  method EvaluatePractices(e: Engine, files: seq<FileRecord>) returns (score: nat)
    ensures score == PracticesScore(e, files)
  {
    var checks := PracticeChecks(e, files);
    score := 0;
    for i := 0 to |checks|
      invariant score == HeldWeight(checks[..i])
    {
      assert checks[..i + 1][..i] == checks[..i];
      if checks[i].held {
        score := score + checks[i].weight;
      }
    }
    assert checks[..|checks|] == checks;
  }

  // ----- Complexity -----

  /**
   * `Σ (content.match(p) || []).length` over a pattern list: the number of matches of each pattern
   * with its own flags. The level evaluator's pattern list is the same eight `g` patterns as
   * `BaseAnalyzer.COMPLEXITY_PATTERNS`.
   */
  function MatchTotal(e: Engine, ps: seq<Regex>, s: string): nat {
    if |ps| == 0 then 0 else MatchTotal(e, ps[..|ps| - 1], s) + |MatchAll(e, ps[|ps| - 1], s)|
  }

  /** For patterns that carry exactly the `g` flag, counting with `match` and with `countOccurrences` agree. */
  lemma {:induction false} MatchTotalIsPatternCount(e: Engine, ps: seq<Regex>, s: string)
    requires forall i :: 0 <= i < |ps| ==> ps[i].flags == "g"
    ensures MatchTotal(e, ps, s) == PatternCount(e, ps, s)
  {
    if |ps| > 0 {
      var init := ps[..|ps| - 1];
      assert forall i :: 0 <= i < |init| ==> init[i] == ps[i];
      MatchTotalIsPatternCount(e, init, s);
      var p := ps[|ps| - 1];
      assert Regex(p.source, "g") == p;
    }
  }

  /** `calculateFileComplexity`: 1 plus the matches of the branch patterns. */
  function FileComplexity(e: Engine, f: FileRecord): nat {
    1 + MatchTotal(e, COMPLEXITY_PATTERNS, f.content)
  }

  /** The level evaluator and the rule engine compute the same complexity for a file. */
  lemma FileComplexityAgrees(e: Engine, f: FileRecord)
    ensures FileComplexity(e, f) == Complexity(e, f.content)
  {
    MatchTotalIsPatternCount(e, COMPLEXITY_PATTERNS, f.content);
  }

  /** The `forEach` loop of `calculateFileComplexity`. */
  method CalculateFileComplexity(e: Engine, f: FileRecord) returns (complexity: nat)
    ensures complexity == FileComplexity(e, f)
    ensures complexity == Complexity(e, f.content)
  {
    complexity := 1;
    for i := 0 to |COMPLEXITY_PATTERNS|
      invariant complexity == 1 + MatchTotal(e, COMPLEXITY_PATTERNS[..i], f.content)
    {
      assert COMPLEXITY_PATTERNS[..i + 1][..i] == COMPLEXITY_PATTERNS[..i];
      var matches := MatchAll(e, COMPLEXITY_PATTERNS[i], f.content);
      complexity := complexity + |matches|;
    }
    assert COMPLEXITY_PATTERNS[..|COMPLEXITY_PATTERNS|] == COMPLEXITY_PATTERNS;
    FileComplexityAgrees(e, f);
  }

  /** The summed complexity of a file list. */
  function TotalComplexity(e: Engine, files: seq<FileRecord>): nat {
    if |files| == 0 then 0 else TotalComplexity(e, files[..|files| - 1]) + FileComplexity(e, files[|files| - 1])
  }

  /** The inverted scale on the mean complexity `total / count`, compared exactly. */
  function ComplexityBand(total: nat, count: nat): (score: nat)
    requires count > 0
    ensures score in {20, 40, 60, 80, 100}
    ensures score == 100 <==> total <= 5 * count
    ensures score >= 80 <==> total <= 10 * count
    ensures score >= 60 <==> total <= 15 * count
    ensures score >= 40 <==> total <= 20 * count
  {
    if total <= 5 * count then 100
    else if total <= 10 * count then 80
    else if total <= 15 * count then 60
    else if total <= 20 * count then 40
    else 20
  }

  /** A higher mean complexity never earns a higher score. */
  lemma ComplexityBandAntitone(t1: nat, t2: nat, count: nat)
    requires count > 0 && t1 <= t2
    ensures ComplexityBand(t2, count) <= ComplexityBand(t1, count)
  {
  }

  /** The complexity score; with no files the mean is undefined, every comparison fails, and the score is 20. */
  function ComplexityScore(e: Engine, files: seq<FileRecord>): (s: nat)
    ensures s in {20, 40, 60, 80, 100}
    ensures |files| == 0 ==> s == 20
  {
    if |files| == 0 then 20 else ComplexityBand(TotalComplexity(e, files), |files|)
  }

  lemma {:induction false} TotalComplexityBound(e: Engine, files: seq<FileRecord>, bound: nat)
    requires forall i :: 0 <= i < |files| ==> FileComplexity(e, files[i]) <= bound
    ensures TotalComplexity(e, files) <= bound * |files|
  {
    if |files| > 0 {
      var init := files[..|files| - 1];
      assert forall i :: 0 <= i < |init| ==> init[i] == files[i];
      TotalComplexityBound(e, init, bound);
    }
  }

  /** When every file has complexity at most 5, the complexity score is the full 100. */
  lemma SimpleFilesScoreFull(e: Engine, files: seq<FileRecord>)
    requires |files| > 0
    requires forall i :: 0 <= i < |files| ==> FileComplexity(e, files[i]) <= 5
    ensures ComplexityScore(e, files) == 100
  {
    TotalComplexityBound(e, files, 5);
  }

  /** `evaluateComplexity`: the per-file complexities summed, then banded on their mean. */
  method EvaluateComplexity(e: Engine, files: seq<FileRecord>) returns (score: nat)
    ensures score == ComplexityScore(e, files)
  {
    var sum := 0;
    for i := 0 to |files|
      invariant sum == TotalComplexity(e, files[..i])
    {
      assert files[..i + 1][..i] == files[..i];
      var c := CalculateFileComplexity(e, files[i]);
      sum := sum + c;
    }
    assert files[..|files|] == files;
    if |files| == 0 {
      return 20;
    }
    score := ComplexityBand(sum, |files|);
  }

  // ----- Level -----

  /** The level of a corpus: the gates applied to the overall score, practices, architecture percentage and complexity. */
  function LevelOf(e: Engine, overall: int, categories: Categories, files: seq<FileRecord>): Level {
    LevelFor(overall, PracticesScore(e, files), categories.architecture.percentage, ComplexityScore(e, files))
  }

  /** An empty corpus shows no practice, so it is junior whatever its scores. */
  lemma EmptyCorpusIsJunior(e: Engine, overall: int, categories: Categories)
    ensures LevelOf(e, overall, categories, []) == Junior
  {
    NoFilesNoPractices(e);
  }

  /** `determineLevel`. */
  method DetermineLevel(e: Engine, overall: int, categories: Categories, files: seq<FileRecord>) returns (level: Level)
    ensures level == LevelOf(e, overall, categories, files)
    ensures level == Senior ==> overall >= 85
    ensures level != Junior ==> overall >= 75 && PracticesScore(e, files) >= 65
  {
    var practicesScore := EvaluatePractices(e, files);
    var architectureScore := categories.architecture.percentage;
    var complexityScore := EvaluateComplexity(e, files);
    if MeetsSenior(overall, practicesScore, architectureScore, complexityScore) {
      return Senior;
    }
    if MeetsMiddle(overall, practicesScore, architectureScore, complexityScore) {
      return Middle;
    }
    return Junior;
  }

  // ----- Next level and recommendations -----

  /** `getNextLevel`: one step up the ladder; senior stays senior; an unknown name gives junior. */
  function NextLevel(current: string): (next: string)
    ensures next in {"junior", "middle", "senior"}
    ensures next == current <==> current == "senior"
    ensures current !in {"junior", "middle", "senior"} ==> next == "junior"
  {
    if current == "junior" then "middle"
    else if current == "middle" then "senior"
    else if current == "senior" then "senior"
    else "junior"
  }

  /** Stepping up from each level's name reaches the next level's name. */
  lemma NextLevelClimbs(l: Level)
    ensures l != Senior ==> NextLevel(l.Name()) == (if l == Junior then Middle else Senior).Name()
    ensures l == Senior ==> NextLevel(l.Name()) == l.Name()
  {
  }

  const JUNIOR_TO_MIDDLE: seq<string> := [
    "Изучите продвинутые концепции JavaScript/TypeScript",
    "Освойте тестирование (Jest, Testing Library)",
    "Изучите паттерны проектирования",
    "Улучшите архитектуру кода",
    "Изучите инструменты сборки и оптимизации"
  ]

  const MIDDLE_TO_SENIOR: seq<string> := [
    "Углубите знания архитектурных паттернов",
    "Изучите принципы SOLID и Clean Code",
    "Освойте performance optimization",
    "Развивайте навыки code review",
    "Изучите security best practices",
    "Работайте над soft skills и ментoring"
  ]

  /** The target of a recommendation request: the given level if non-empty, else the next one. */
  function TargetLevel(current: string, target: Option<string>): string {
    if target.Some? && target.value != "" then target.value else NextLevel(current)
  }

  /** `getLevelRecommendations`: advice exists only for junior → middle and middle → senior. */
  function LevelRecommendations(current: string, target: Option<string>): (r: seq<string>)
    ensures var t := TargetLevel(current, target);
            && (r == JUNIOR_TO_MIDDLE <==> current == "junior" && t == "middle")
            && (r == MIDDLE_TO_SENIOR <==> current == "middle" && t == "senior")
            && (r == [] <==> !(current == "junior" && t == "middle") && !(current == "middle" && t == "senior"))
  {
    var t := TargetLevel(current, target);
    if current == "junior" && t == "middle" then JUNIOR_TO_MIDDLE
    else if current == "middle" && t == "senior" then MIDDLE_TO_SENIOR
    else []
  }

  /** Without an explicit target, junior and middle get advice and senior gets none. */
  lemma DefaultRecommendations()
    ensures LevelRecommendations("junior", None) == JUNIOR_TO_MIDDLE
    ensures LevelRecommendations("middle", None) == MIDDLE_TO_SENIOR
    ensures LevelRecommendations("senior", None) == []
  {
  }

  // ----- Time estimate -----

  const MAX_LEVEL_REACHED := "Достигнут максимальный уровень"
  const TIME_ESTIMATES: seq<string> := ["1-2 месяца", "3-6 месяцев", "6-12 месяцев", "1-2 года"]

  /** The minimum score of a level given by name. */
  function MinScoreByName(name: string): nat
    requires name in {"junior", "middle", "senior"}
  {
    if name == "junior" then MinScore(Junior) else if name == "middle" then MinScore(Middle) else MinScore(Senior)
  }

  /** The band of a score gap: up to 5, up to 15, up to 25, more. */
  function TimeBand(gap: int): (b: nat)
    ensures b < |TIME_ESTIMATES|
    ensures b == 0 <==> gap <= 5
    ensures b <= 1 <==> gap <= 15
    ensures b <= 2 <==> gap <= 25
  {
    if gap <= 5 then 0 else if gap <= 15 then 1 else if gap <= 25 then 2 else 3
  }

  /** `estimateTimeToNextLevel`: the band of the gap between the next level's minimum and the overall score. */
  function EstimateTimeToNextLevel(current: string, overall: int): (r: string)
    ensures r == MAX_LEVEL_REACHED <==> current == "senior"
    ensures current != "senior" ==>
              var gap := MinScoreByName(NextLevel(current)) - overall;
              && (r == TIME_ESTIMATES[0] <==> gap <= 5)
              && (r == TIME_ESTIMATES[1] <==> 5 < gap <= 15)
              && (r == TIME_ESTIMATES[2] <==> 15 < gap <= 25)
              && (r == TIME_ESTIMATES[3] <==> gap > 25)
  {
    var next := NextLevel(current);
    if next == current then MAX_LEVEL_REACHED
    else TIME_ESTIMATES[TimeBand(MinScoreByName(next) - overall)]
  }

  /** A higher overall score never gives a longer estimate. */
  lemma EstimateMonotone(current: string, o1: int, o2: int)
    requires current != "senior" && o1 <= o2
    ensures var target := MinScoreByName(NextLevel(current));
            TimeBand(target - o2) <= TimeBand(target - o1)
  {
  }

  // ----- Detailed analysis -----

  datatype LevelAnalysis = LevelAnalysis(
    currentLevel: Level,
    strengths: seq<string>,
    weaknesses: seq<string>,
    nextSteps: seq<string>,
    estimatedTimeToNextLevel: string)

  /** The strength line of a category. */
  function StrengthLine(category: string): string {
    "Отличные навыки в " + category
  }

  /** The weakness line of a category. */
  function WeaknessLine(category: string): string {
    "Требует улучшения: " + category
  }

  /** The categories at 80% or more, as strength lines. */
  function CategoryStrengths(entries: seq<(string, CategoryResult)>): seq<string> {
    if |entries| == 0 then []
    else
      var (name, result) := entries[|entries| - 1];
      CategoryStrengths(entries[..|entries| - 1]) + (if result.percentage >= 80 then [StrengthLine(name)] else [])
  }

  /** The categories below 60%, as weakness lines. */
  function CategoryWeaknesses(entries: seq<(string, CategoryResult)>): seq<string> {
    if |entries| == 0 then []
    else
      var (name, result) := entries[|entries| - 1];
      CategoryWeaknesses(entries[..|entries| - 1]) + (if result.percentage < 60 then [WeaknessLine(name)] else [])
  }

  /** One more entry adds at most its own line to each list. */
  lemma CategoryLinesStep(entries: seq<(string, CategoryResult)>, i: nat)
    requires i < |entries|
    ensures CategoryStrengths(entries[..i + 1]) ==
              CategoryStrengths(entries[..i]) + (if entries[i].1.percentage >= 80 then [StrengthLine(entries[i].0)] else [])
    ensures CategoryWeaknesses(entries[..i + 1]) ==
              CategoryWeaknesses(entries[..i]) + (if entries[i].1.percentage < 60 then [WeaknessLine(entries[i].0)] else [])
  {
    assert entries[..i + 1][..i] == entries[..i];
  }

  /** Every category at 80% or more is listed as a strength. */
  lemma {:induction false} CategoryStrengthsComplete(entries: seq<(string, CategoryResult)>)
    ensures forall i :: 0 <= i < |entries| && entries[i].1.percentage >= 80 ==>
              StrengthLine(entries[i].0) in CategoryStrengths(entries)
  {
    if |entries| > 0 {
      var n := |entries|;
      var init := entries[..n - 1];
      CategoryStrengthsComplete(init);
      forall i | 0 <= i < n && entries[i].1.percentage >= 80
        ensures StrengthLine(entries[i].0) in CategoryStrengths(entries)
      {
        if i < n - 1 {
          assert init[i] == entries[i];
        }
      }
    }
  }

  /** Every strength line belongs to some category at 80% or more. */
  lemma {:induction false} CategoryStrengthsSound(entries: seq<(string, CategoryResult)>)
    ensures forall line :: line in CategoryStrengths(entries) ==>
              exists i :: 0 <= i < |entries| && entries[i].1.percentage >= 80 && line == StrengthLine(entries[i].0)
  {
    if |entries| > 0 {
      var n := |entries|;
      var init := entries[..n - 1];
      var (name, result) := entries[n - 1];
      CategoryStrengthsSound(init);
      forall line | line in CategoryStrengths(entries)
        ensures exists i :: 0 <= i < n && entries[i].1.percentage >= 80 && line == StrengthLine(entries[i].0)
      {
        if line in CategoryStrengths(init) {
          var i :| 0 <= i < |init| && init[i].1.percentage >= 80 && line == StrengthLine(init[i].0);
          assert init[i] == entries[i];
        } else {
          assert result.percentage >= 80 && line == StrengthLine(name);
          assert entries[n - 1] == (name, result);
        }
      }
    }
  }

  /** Every category below 60% is listed as a weakness. */
  lemma {:induction false} CategoryWeaknessesComplete(entries: seq<(string, CategoryResult)>)
    ensures forall i :: 0 <= i < |entries| && entries[i].1.percentage < 60 ==>
              WeaknessLine(entries[i].0) in CategoryWeaknesses(entries)
  {
    if |entries| > 0 {
      var n := |entries|;
      var init := entries[..n - 1];
      CategoryWeaknessesComplete(init);
      forall i | 0 <= i < n && entries[i].1.percentage < 60
        ensures WeaknessLine(entries[i].0) in CategoryWeaknesses(entries)
      {
        if i < n - 1 {
          assert init[i] == entries[i];
        }
      }
    }
  }

  /** Every weakness line belongs to some category below 60%. */
  lemma {:induction false} CategoryWeaknessesSound(entries: seq<(string, CategoryResult)>)
    ensures forall line :: line in CategoryWeaknesses(entries) ==>
              exists i :: 0 <= i < |entries| && entries[i].1.percentage < 60 && line == WeaknessLine(entries[i].0)
  {
    if |entries| > 0 {
      var n := |entries|;
      var init := entries[..n - 1];
      var (name, result) := entries[n - 1];
      CategoryWeaknessesSound(init);
      forall line | line in CategoryWeaknesses(entries)
        ensures exists i :: 0 <= i < n && entries[i].1.percentage < 60 && line == WeaknessLine(entries[i].0)
      {
        if line in CategoryWeaknesses(init) {
          var i :| 0 <= i < |init| && init[i].1.percentage < 60 && line == WeaknessLine(init[i].0);
          assert init[i] == entries[i];
        } else {
          assert result.percentage < 60 && line == WeaknessLine(name);
          assert entries[n - 1] == (name, result);
        }
      }
    }
  }

  /** Lines of one kind name their category: the same line means the same category. */
  lemma LinesNameCategory(a: string, b: string)
    ensures StrengthLine(a) == StrengthLine(b) ==> a == b
    ensures WeaknessLine(a) == WeaknessLine(b) ==> a == b
  {
    var sp, wp := "Отличные навыки в ", "Требует улучшения: ";
    if StrengthLine(a) == StrengthLine(b) {
      assert a == StrengthLine(a)[|sp|..] && b == StrengthLine(b)[|sp|..];
    }
    if WeaknessLine(a) == WeaknessLine(b) {
      assert a == WeaknessLine(a)[|wp|..] && b == WeaknessLine(b)[|wp|..];
    }
  }

  /** No category is both a strength and a weakness, so together they number at most the categories. */
  lemma {:induction false} StrengthsAndWeaknessesCount(entries: seq<(string, CategoryResult)>)
    ensures |CategoryStrengths(entries)| + |CategoryWeaknesses(entries)| <= |entries|
    ensures (forall i :: 0 <= i < |entries| ==> entries[i].1.percentage >= 80) ==>
              |CategoryStrengths(entries)| == |entries| && CategoryWeaknesses(entries) == []
  {
    if |entries| > 0 {
      var init := entries[..|entries| - 1];
      assert forall i :: 0 <= i < |init| ==> init[i] == entries[i];
      StrengthsAndWeaknessesCount(init);
    }
  }

  const GOOD_PRACTICES := "Хорошее " + "знание современных практик разработки"
  const POOR_PRACTICES := "Недостаточное " + "использование современных практик"

  /** The strengths: the category lines, then the practice line at a practice score of 80 or more. */
  function Strengths(entries: seq<(string, CategoryResult)>, practices: nat): seq<string> {
    CategoryStrengths(entries) + (if practices >= 80 then [GOOD_PRACTICES] else [])
  }

  /** The weaknesses: the category lines, then the practice line below a practice score of 60. */
  function Weaknesses(entries: seq<(string, CategoryResult)>, practices: nat): seq<string> {
    CategoryWeaknesses(entries) + (if practices < 60 then [POOR_PRACTICES] else [])
  }

  /** The full analysis `getDetailedLevelAnalysis` returns. */
  function Analysis(e: Engine, overall: int, categories: Categories, files: seq<FileRecord>): (a: LevelAnalysis)
    ensures |a.strengths| + |a.weaknesses| <= 6
  {
    var level := LevelOf(e, overall, categories, files);
    var practices := PracticesScore(e, files);
    var entries := Entries(categories);
    StrengthsAndWeaknessesCount(entries);
    LevelAnalysis(
      level,
      Strengths(entries, practices),
      Weaknesses(entries, practices),
      LevelRecommendations(level.Name(), None),
      EstimateTimeToNextLevel(level.Name(), overall))
  }

  /** Entries naming distinct categories. */
  predicate DistinctNames(entries: seq<(string, CategoryResult)>) {
    forall j, k :: 0 <= j < |entries| && 0 <= k < |entries| && j != k ==> entries[j].0 != entries[k].0
  }

  /** Over distinct category names, a category is a strength exactly at 80% or more and a weakness exactly below 60%. */
  lemma CategoryLinesExact(entries: seq<(string, CategoryResult)>, i: nat)
    requires DistinctNames(entries) && i < |entries|
    ensures StrengthLine(entries[i].0) in CategoryStrengths(entries) <==> entries[i].1.percentage >= 80
    ensures WeaknessLine(entries[i].0) in CategoryWeaknesses(entries) <==> entries[i].1.percentage < 60
  {
    var name := entries[i].0;
    CategoryStrengthsComplete(entries);
    CategoryWeaknessesComplete(entries);
    if StrengthLine(name) in CategoryStrengths(entries) {
      CategoryStrengthsSound(entries);
      var j :| 0 <= j < |entries| && entries[j].1.percentage >= 80 && StrengthLine(name) == StrengthLine(entries[j].0);
      LinesNameCategory(name, entries[j].0);
    }
    if WeaknessLine(name) in CategoryWeaknesses(entries) {
      CategoryWeaknessesSound(entries);
      var j :| 0 <= j < |entries| && entries[j].1.percentage < 60 && WeaknessLine(name) == WeaknessLine(entries[j].0);
      LinesNameCategory(name, entries[j].0);
    }
  }

  /** The four kinds of line start with different letters. */
  lemma LineHeads(name: string)
    ensures StrengthLine(name)[0] == 'О' && WeaknessLine(name)[0] == 'Т'
    ensures GOOD_PRACTICES[0] == 'Х' && POOR_PRACTICES[0] == 'Н'
  {
    var sp, wp := "Отличные навыки в ", "Требует улучшения: ";
    assert sp[0] == 'О' && wp[0] == 'Т';
    assert StrengthLine(name)[0] == sp[0] && WeaknessLine(name)[0] == wp[0];
  }

  /** The practice lines are never category lines. */
  lemma PracticeLinesApart(entries: seq<(string, CategoryResult)>)
    ensures GOOD_PRACTICES !in CategoryStrengths(entries)
    ensures POOR_PRACTICES !in CategoryWeaknesses(entries)
  {
    CategoryStrengthsSound(entries);
    CategoryWeaknessesSound(entries);
    if GOOD_PRACTICES in CategoryStrengths(entries) {
      var j :| 0 <= j < |entries| && entries[j].1.percentage >= 80 && GOOD_PRACTICES == StrengthLine(entries[j].0);
      LineHeads(entries[j].0);
    }
    if POOR_PRACTICES in CategoryWeaknesses(entries) {
      var j :| 0 <= j < |entries| && entries[j].1.percentage < 60 && POOR_PRACTICES == WeaknessLine(entries[j].0);
      LineHeads(entries[j].0);
    }
  }

  /**
   * Over distinct category names, a category is a strength exactly when it is at 80% or more
   * and a weakness exactly when it is below 60%; the practice line is a strength exactly at a
   * practice score of 80 or more and a weakness exactly below 60.
   */
  lemma StrengthsAndWeaknessesExact(entries: seq<(string, CategoryResult)>, practices: nat)
    requires DistinctNames(entries)
    ensures forall i :: 0 <= i < |entries| ==>
              (StrengthLine(entries[i].0) in Strengths(entries, practices) <==> entries[i].1.percentage >= 80)
    ensures forall i :: 0 <= i < |entries| ==>
              (WeaknessLine(entries[i].0) in Weaknesses(entries, practices) <==> entries[i].1.percentage < 60)
    ensures GOOD_PRACTICES in Strengths(entries, practices) <==> practices >= 80
    ensures POOR_PRACTICES in Weaknesses(entries, practices) <==> practices < 60
  {
    PracticeLinesApart(entries);
    forall i | 0 <= i < |entries|
      ensures StrengthLine(entries[i].0) in Strengths(entries, practices) <==> entries[i].1.percentage >= 80
      ensures WeaknessLine(entries[i].0) in Weaknesses(entries, practices) <==> entries[i].1.percentage < 60
    {
      CategoryLinesExact(entries, i);
      LineHeads(entries[i].0);
    }
  }

  /** The analysis's strengths and weaknesses, over the five categories and the practice score. */
  lemma AnalysisLines(e: Engine, overall: int, categories: Categories, files: seq<FileRecord>)
    ensures var a := Analysis(e, overall, categories, files);
            var entries := Entries(categories);
            && (forall i :: 0 <= i < 5 ==> (StrengthLine(entries[i].0) in a.strengths <==> entries[i].1.percentage >= 80))
            && (forall i :: 0 <= i < 5 ==> (WeaknessLine(entries[i].0) in a.weaknesses <==> entries[i].1.percentage < 60))
            && (GOOD_PRACTICES in a.strengths <==> PracticesScore(e, files) >= 80)
            && (POOR_PRACTICES in a.weaknesses <==> PracticesScore(e, files) < 60)
  {
    var entries := Entries(categories);
    assert DistinctNames(entries);
    StrengthsAndWeaknessesExact(entries, PracticesScore(e, files));
  }

  /** A senior analysis has no next steps and reports the top level reached. */
  lemma SeniorAnalysis(e: Engine, overall: int, categories: Categories, files: seq<FileRecord>)
    requires LevelOf(e, overall, categories, files) == Senior
    ensures Analysis(e, overall, categories, files).nextSteps == []
    ensures Analysis(e, overall, categories, files).estimatedTimeToNextLevel == MAX_LEVEL_REACHED
    ensures GOOD_PRACTICES in Analysis(e, overall, categories, files).strengths
  {
  }

  /** `getDetailedLevelAnalysis`: the level, then the `forEach` over the category entries, then the practice line. */
  method DetailedLevelAnalysis(e: Engine, overall: int, categories: Categories, files: seq<FileRecord>) returns (a: LevelAnalysis)
    ensures a == Analysis(e, overall, categories, files)
  {
    var currentLevel := DetermineLevel(e, overall, categories, files);
    var practicesScore := EvaluatePractices(e, files);
    var entries := Entries(categories);
    var strengths: seq<string> := [];
    var weaknesses: seq<string> := [];
    for i := 0 to |entries|
      invariant strengths == CategoryStrengths(entries[..i])
      invariant weaknesses == CategoryWeaknesses(entries[..i])
    {
      CategoryLinesStep(entries, i);
      var (category, result) := entries[i];
      if result.percentage >= 80 {
        strengths := strengths + [StrengthLine(category)];
      } else if result.percentage < 60 {
        weaknesses := weaknesses + [WeaknessLine(category)];
      }
    }
    assert entries[..|entries|] == entries;
    if practicesScore >= 80 {
      strengths := strengths + [GOOD_PRACTICES];
    } else if practicesScore < 60 {
      weaknesses := weaknesses + [POOR_PRACTICES];
    }
    assert strengths == Strengths(entries, practicesScore) && weaknesses == Weaknesses(entries, practicesScore);
    var nextSteps := LevelRecommendations(currentLevel.Name(), None);
    var estimatedTime := EstimateTimeToNextLevel(currentLevel.Name(), overall);
    a := LevelAnalysis(currentLevel, strengths, weaknesses, nextSteps, estimatedTime);
  }
}
