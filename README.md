# Front-end code assessment: a verified model of the scoring pipeline

The assessment module scores a front-end project (React, Vue, Angular, Svelte or plain
JavaScript/TypeScript) and classifies its author as junior, middle or senior. It runs in
four stages:

- **File records.** One record is built per readable file. It holds the relative path, the
  content, the size in characters, the line count and a framework tag. The tag is configured,
  or it is detected from the extension and content. The record also holds a file type, derived
  from path words and content markers.
- **Rule tables.** Five analysers each run a table of six weighted rules over every file:
  code quality (CQ), performance (PERF), architecture (ARCH), best practices (BP) and
  maintainability (MAINT).
  - Every (file, rule) pair adds the rule's weight to the category maximum.
  - A pair that passes adds the weight to the score; one that fails records an issue keyed
    `<rule id>:<file path>`.
  - The category percentage is the rounded ratio of score to maximum, or 100 when there is
    nothing to score.
- **Aggregation.**
  - The overall score is the weighted mean 25/20/20/20/15 of the five category percentages.
  - Each file gets a result: its issues, a score of `100 − 10 × issues` floored at 0, and up
    to three suggestions.
  - Each category below 70% gets a recommendation.
- **Level.** The level evaluator combines the overall score, a practice checklist score, the
  architecture percentage and a complexity score. It applies a senior gate, then a middle gate,
  and otherwise reports junior. It also estimates the time to the next level and lists strengths
  and weaknesses.

The model is written in Dafny, one module per source file plus small shared modules:
`Wrappers`, `Strings`, `Regex` and `Types`.

- **Regular expressions** are not interpreted. A regex engine is a parameter: a function from
  a pattern and a string to the list of matches. Every rule is stated in terms of "the pattern
  matches" and "the number of matches". `countOccurrences` re-creates its pattern with only the
  `g` flag, and the model does the same, so the patterns whose `m` or `i` flag is dropped that
  way are kept exactly as the source passes them.
- **Ratios.** Every floating-point ratio threshold becomes exact integer cross-multiplication.
  For example, `x > lines * 0.1` becomes `10·x > lines`.
  `Math.round` of a non-negative quotient becomes exact half-up rounding.
- **Analysers.** The assessor object holds its five analysers as fields. The model passes
  their rule tables as a value of type `Analyzers`; `AnalyzersOf` builds the five tables the
  constructor creates. The assessment properties hold for any tables.
- **Looping code is modelled as loops.** `analyze`, the `forEach` accumulations, the CQ005 line
  map, `analyzeFiles`, `calculateOverallScore`, the suggestion and recommendation pushes, and the
  level evaluator's accumulations are methods with loops. Each is proved equal to a recursive
  specification function. The rule checks and lemmas use those functions.

## Model

| member | source | states |
|---|---|---|
| Regex.CountOccurrences | src/analyzers/base-analyzer.ts:55-58 | the count is the number of matches of the pattern re-flagged `g`, and it is 0 exactly when that pattern does not match |
| Strings.SplitLength | src/core/assessor.ts:100 | `split('\n')` yields one more piece than the content has newlines, so a line count is at least 1 |
| Strings.SplitLast | src/analyzers/base-analyzer.ts:44-49 | the last piece of a split is the text after the last separator, which is what the column of a match counts |
| BaseAnalyzer.Percentage | src/analyzers/base-analyzer.ts:31 | the percentage is at most 100, is 100 when the maximum is 0, and otherwise is `100·score/max` rounded half up |
| BaseAnalyzer.PassedPlusFailed | src/analyzers/base-analyzer.ts:13-27 | for one file, passed weight plus failed weight equals the sum of the rule weights |
| BaseAnalyzer.ScorePlusFailed | src/analyzers/base-analyzer.ts:12-18 | score plus the weight of failed pairs equals `|files| × Σ weights` |
| BaseAnalyzer.ScoreBounded | src/analyzers/base-analyzer.ts:12-18 | the score never exceeds the maximum |
| BaseAnalyzer.FileIssuesExact | src/analyzers/base-analyzer.ts:13-27 | a file's issues are exactly one per failing rule, keyed `id:path` with the rule's severity and the outcome's message, line and column; at most one per rule |
| BaseAnalyzer.IssuesCount | src/analyzers/base-analyzer.ts:12-28 | there are at most `files × rules` issues |
| BaseAnalyzer.IssuesExact | src/analyzers/base-analyzer.ts:12-28 | an issue is recorded exactly when some file fails some rule |
| BaseAnalyzer.FileIssuesLength | src/analyzers/base-analyzer.ts:13-27 | a file gets at most one issue per rule |
| BaseAnalyzer.AnalyzeFile | src/analyzers/base-analyzer.ts:13-28 | one file's rule loop adds exactly the sum of the weights to the maximum, earns exactly the weight of the rules it passes, and records exactly that file's issues |
| BaseAnalyzer.CategoryFacts | src/analyzers/base-analyzer.ts:7-39 | the maximum is `|files| × Σ weights`, the score is at most the maximum, the percentage is at most 100, and an empty file list gives score 0, 100% and no issues |
| BaseAnalyzer.Analyze | src/analyzers/base-analyzer.ts:7-39 | the nested files × rules loop yields exactly the category result of the specification |
| BaseAnalyzer.CheckRegexInFile | src/analyzers/base-analyzer.ts:41-53 | passes with "OK" exactly when the pattern does not match; otherwise fails at the first match's line (1 + newlines before it) and column (characters since the last newline) |
| BaseAnalyzer.PatternCountZero | src/analyzers/base-analyzer.ts:75-77 | a sum of occurrence counts is 0 exactly when every pattern has no occurrence |
| BaseAnalyzer.SumOccurrences | src/analyzers/base-analyzer.ts:75-77 | the `forEach` accumulation equals the sum of the occurrence counts |
| BaseAnalyzer.Complexity | src/analyzers/base-analyzer.ts:60-80 | complexity is at least 1 |
| BaseAnalyzer.CalculateComplexity | src/analyzers/base-analyzer.ts:60-80 | the loop yields 1 plus the occurrences of the eight branching patterns, hence at least 1 |
| CodeQuality.CheckNaming | src/analyzers/code-quality.ts:13-18 | CQ001 fails exactly when the naming pattern matches, reporting the first match's line and column |
| CodeQuality.CheckFunctionLength | src/analyzers/code-quality.ts:26-37 | CQ002 fails exactly when some matched function text spans more than 50 lines, reporting how many do |
| CodeQuality.LongFunctionNewlines | src/analyzers/code-quality.ts:26-37 | a function text is long exactly when it holds at least 50 newlines |
| CodeQuality.CheckComplexity | src/analyzers/code-quality.ts:45-56 | CQ003 fails exactly when complexity exceeds 15 for a component, or 10 for any other type |
| CodeQuality.CheckMagicNumbers | src/analyzers/code-quality.ts:64-76 | CQ004 fails exactly when more than three magic numbers occur |
| CodeQuality.CandidateLines | src/analyzers/code-quality.ts:85-87 | the candidate lines are no more than the lines |
| CodeQuality.CandidateLinesExact | src/analyzers/code-quality.ts:85-87 | a candidate is exactly a trimmed line longer than 10 characters that starts with neither `//` nor `*` |
| CodeQuality.DuplicatedLinesBound | src/analyzers/code-quality.ts:89-95 | distinct duplicated lines number at most half the candidate lines |
| CodeQuality.CountDuplicatedLines | src/analyzers/code-quality.ts:89-95 | the count map built line by line gives exactly the number of distinct lines occurring more than once |
| CodeQuality.CheckDuplication | src/analyzers/code-quality.ts:84-104 | CQ005 fails exactly when ten times the duplicated-line count exceeds the file's line count |
| CodeQuality.CheckComments | src/analyzers/code-quality.ts:112-130 | CQ006 fails when comments are under 10% of more than 50 lines (checked first) or over 50% of the lines |
| CodeQuality.Rules | src/analyzers/code-quality.ts:6-132 | six rules whose weights sum to 70 |
| Performance.CheckBundleSize | src/analyzers/performance.ts:13-23 | PERF001 fails exactly when the size exceeds 20000 for a component or 10000 otherwise; the shown size is the size in thousands rounded to nearest |
| Performance.CheckLazyLoading | src/analyzers/performance.ts:31-44 | PERF002 fails exactly for a component without a lazy-loading marker and with more than five line-start imports |
| Performance.LazyLoadingNeverFails | src/analyzers/performance.ts:31-44 | because the count drops the `m` flag, `^import` can match at most once, so PERF002 then always passes |
| Performance.CheckHeavyOperations | src/analyzers/performance.ts:52-74 | PERF003 fails exactly when some heavy-operation pattern occurs, reporting the summed count |
| Performance.CheckMemoryLeaks | src/analyzers/performance.ts:82-116 | PERF004 fails exactly when leak patterns outnumber cleanup patterns, reporting a positive excess |
| Performance.CheckUnnecessaryRenders | src/analyzers/performance.ts:124-150 | PERF005 fails for a React component with nested prop access and no memoisation, or a Vue file with more than five interpolations and no computed; other frameworks pass |
| Performance.CheckImages | src/analyzers/performance.ts:158-169 | PERF006 fails exactly when a raster image occurs and no WebP/AVIF does |
| Performance.Rules | src/analyzers/performance.ts:6-171 | six rules whose weights sum to 83 |
| Architecture.CheckSeparationOfConcerns | src/analyzers/architecture.ts:12-38 | ARCH001 fails exactly for a component with more than two business-logic occurrences |
| Architecture.CheckDependencyInjection | src/analyzers/architecture.ts:46-61 | ARCH002 fails exactly for a service that constructs a service directly without constructor injection |
| Architecture.CheckSingleResponsibility | src/analyzers/architecture.ts:69-93 | ARCH003 fails on more than five exports (reported first) or a class with more than 15 methods, with the count in the message |
| Architecture.CheckLayeredArchitecture | src/analyzers/architecture.ts:101-117 | ARCH004 fails exactly for a component or view path that accesses data directly |
| Architecture.LayeredArchitectureIgnoresPathCase | src/analyzers/architecture.ts:101-117 | ARCH004 passes for a file exactly when it passes for the same file with its path lowercased |
| Architecture.CheckDesignPatterns | src/analyzers/architecture.ts:125-153 | ARCH005 fails for a service instantiating services without a singleton, or a component over 100 lines with events and no observer; other types pass |
| Architecture.CheckModuleCoupling | src/analyzers/architecture.ts:161-175 | ARCH006 fails exactly when there are imports and more than 70% are relative |
| Architecture.ModuleCouplingExtremes | src/analyzers/architecture.ts:161-175 | no relative import always passes; only relative imports always fails |
| Architecture.Rules | src/analyzers/architecture.ts:5-177 | six rules whose weights sum to 89 |
| BestPractices.FirstHit | src/analyzers/best-practices.ts:59-77 | the result is the first index whose finding is reported, or none when no finding is |
| BestPractices.FindFirstHit | src/analyzers/best-practices.ts:59-77 | the early-return scan yields exactly the first reported finding |
| BestPractices.CheckTypeScriptUsage | src/analyzers/best-practices.ts:12-31 | BP001 fails for a non-TypeScript file over 50 lines, or a TypeScript file over 20 lines without annotations, each with its own message |
| BestPractices.CheckErrorHandling | src/analyzers/best-practices.ts:39-51 | BP002 fails exactly when asynchronous code occurs without error handling |
| BestPractices.CheckSecurity | src/analyzers/best-practices.ts:59-77 | BP003 fails exactly when some unsafe construct occurs, with the message of the first in list order |
| BestPractices.CheckTestingCoverage | src/analyzers/best-practices.ts:85-100 | BP004 fails exactly for a component over 30 lines without test code |
| BestPractices.CheckAccessibility | src/analyzers/best-practices.ts:108-127 | BP005 passes non-components; a component fails exactly when some defect occurs, with the message of the first in list order |
| BestPractices.CheckFrameworkConventions | src/analyzers/best-practices.ts:135-176 | BP006: React fails on hooks mixed with class components (reported first) or called conditionally; a `.vue` file fails without both sections; other frameworks pass |
| BestPractices.Rules | src/analyzers/best-practices.ts:5-178 | six rules whose weights sum to 90 |
| Maintainability.CheckDocumentation | src/analyzers/maintainability.ts:12-28 | MAINT001 fails exactly when there are more than three documentable items and JSDoc covers under 30% of them |
| Maintainability.CheckReadability | src/analyzers/maintainability.ts:36-58 | MAINT002 fails when over 10% of lines exceed 120 characters (reported first, with the count) or more than five deep indents occur |
| Maintainability.ShortFileReadability | src/analyzers/maintainability.ts:36-58 | in a file of at most 120 characters only deep nesting can fail MAINT002 |
| Maintainability.CheckNamingConsistency | src/analyzers/maintainability.ts:66-79 | MAINT003 fails exactly when both naming styles occur and snake_case exceeds 30% of camelCase |
| Maintainability.ImportedNames | src/analyzers/maintainability.ts:91-93 | an import binds at least one name; a braced list binds one more name than it has commas |
| Maintainability.CheckDeadCode | src/analyzers/maintainability.ts:87-121 | MAINT004 fails on any unused import (reported first, with the count) or more than three commented-out code lines (with the count) |
| Maintainability.CheckConfiguration | src/analyzers/maintainability.ts:129-142 | MAINT005 fails exactly on more than two URLs or any drive-letter path |
| Maintainability.CheckErrorMessages | src/analyzers/maintainability.ts:150-164 | MAINT006 fails exactly when some error is thrown and more than half of the thrown texts are generic |
| Maintainability.ErrorMessagesFailOnAnyThrow | src/analyzers/maintainability.ts:150-164 | the tested text is the whole match, which spells `Error`, so MAINT006 fails on any `throw new Error` |
| Maintainability.Rules | src/analyzers/maintainability.ts:5-166 | six rules whose weights sum to 60 |
| FrameworkDetector.Hits | src/utils/framework-detector.ts:55 | a family's hits never exceed its pattern count |
| FrameworkDetector.FirstQualifying | src/utils/framework-detector.ts:54-59 | the result is the first family with at least two hits, or none when no family qualifies |
| FrameworkDetector.FirstQualifyingAt | src/utils/framework-detector.ts:54-59 | the first qualifying family is `k` exactly when family `k` qualifies and no earlier family does |
| FrameworkDetector.DetectionFromAt | src/utils/framework-detector.ts:54-59 | when the families name distinct frameworks, none vanilla or unknown, detection names family `k`'s framework exactly when `k` is the first to qualify |
| FrameworkDetector.DetectionFromExact | src/utils/framework-detector.ts:54-67 | for any such family list, a family is chosen exactly when it qualifies and no earlier one does; vanilla or unknown exactly when none qualifies; vanilla exactly when, in addition, DOM evidence exists |
| FrameworkDetector.Detection | src/utils/framework-detector.ts:2-67 | a `.vue` path is Vue whatever the content; unknown means no DOM evidence |
| FrameworkDetector.DetectionByContent | src/utils/framework-detector.ts:9-67 | a family is chosen exactly when it qualifies and no earlier one does; vanilla exactly when none qualifies and DOM evidence exists |
| FrameworkDetector.Detect | src/utils/framework-detector.ts:2-67 | the early-return scan yields exactly the specified detection |
| FrameworkDetector.FrameworkSpecificRules | src/utils/framework-detector.ts:82-115 | five guidelines for react, vue, angular and vanilla; none for any other tag |
| FrameworkDetector.NoGuidelinesForSvelteOrUnknown | src/utils/framework-detector.ts:82-115 | svelte and unknown, though detected, get no guidelines; every other detected tag gets five |
| FrameworkDetector.ComplexityWeightTenths | src/utils/framework-detector.ts:117-128 | the weight lies in 0.8–1.2, is 1.0 for unlisted tags, is below 1.0 exactly for vue and svelte, and above it exactly for angular and vanilla |
| LevelEvaluator.LevelFor | src/utils/level-evaluator.ts:51-72 | senior exactly when the senior gate holds; middle exactly when only the middle gate does; junior otherwise |
| LevelEvaluator.SeniorGateImpliesMiddle | src/utils/level-evaluator.ts:74-100 | the senior gate implies the middle gate |
| LevelEvaluator.LevelMonotone | src/utils/level-evaluator.ts:51-100 | raising any of the four scores never lowers the level |
| LevelEvaluator.ArchitectureGateExample | src/utils/level-evaluator.ts:74-100 | 86/82/81/72 is senior, while architecture 55 instead gives junior |
| LevelEvaluator.PracticeChecks | src/utils/level-evaluator.ts:107-143 | there are seven practice checks |
| LevelEvaluator.HeldWeightBounds | src/utils/level-evaluator.ts:145-149 | the held weight is at most the total, is 0 when no check holds, and is the total when all hold |
| LevelEvaluator.PracticeWeightsTotal | src/utils/level-evaluator.ts:107-143 | the check weights sum to 100 |
| LevelEvaluator.PracticesScore | src/utils/level-evaluator.ts:102-152 | the practices score is at most 100 |
| LevelEvaluator.NoFilesNoPractices | src/utils/level-evaluator.ts:102-152 | an empty file list scores 0 on practices |
| LevelEvaluator.EvaluatePractices | src/utils/level-evaluator.ts:102-152 | the accumulation loop yields exactly the specified practices score |
| LevelEvaluator.MatchTotalIsPatternCount | src/utils/level-evaluator.ts:180-185 | for `g` patterns, summing `match` lengths equals summing occurrence counts |
| LevelEvaluator.FileComplexityAgrees | src/utils/level-evaluator.ts:166-188 | the evaluator's file complexity equals the rule engine's complexity |
| LevelEvaluator.CalculateFileComplexity | src/utils/level-evaluator.ts:166-188 | the loop yields the specified file complexity, which equals the rule engine's |
| LevelEvaluator.ComplexityBand | src/utils/level-evaluator.ts:159-163 | the band is one of 20, 40, 60, 80, 100; it is 100 exactly when the average is at most 5, at least 80 exactly when it is at most 10, at least 60 exactly at most 15, at least 40 exactly at most 20 |
| LevelEvaluator.ComplexityBandAntitone | src/utils/level-evaluator.ts:159-163 | a larger total complexity never gives a higher band |
| LevelEvaluator.ComplexityScore | src/utils/level-evaluator.ts:154-164 | the score is one of the five bands, and 20 for no files |
| LevelEvaluator.TotalComplexityBound | src/utils/level-evaluator.ts:155-156 | files each at most `b` total at most `b × count` |
| LevelEvaluator.SimpleFilesScoreFull | src/utils/level-evaluator.ts:154-164 | files all of complexity at most 5 score 100 |
| LevelEvaluator.EvaluateComplexity | src/utils/level-evaluator.ts:154-164 | the loop yields exactly the specified complexity score |
| LevelEvaluator.EmptyCorpusIsJunior | src/utils/level-evaluator.ts:51-72 | with no files the level is junior whatever the scores |
| LevelEvaluator.DetermineLevel | src/utils/level-evaluator.ts:51-72 | yields the specified level; senior needs overall ≥ 85; anything above junior needs overall ≥ 75 and practices ≥ 65 |
| LevelEvaluator.NextLevel | src/utils/level-evaluator.ts:227-231 | the next level is a known label, equals the current one exactly for senior, and is junior for an unknown label |
| LevelEvaluator.NextLevelClimbs | src/utils/level-evaluator.ts:227-231 | junior goes to middle, middle to senior, senior stays |
| LevelEvaluator.LevelRecommendations | src/utils/level-evaluator.ts:199-225 | advice exists only for junior→middle and middle→senior, empty otherwise |
| LevelEvaluator.DefaultRecommendations | src/utils/level-evaluator.ts:199-225 | without a target, junior and middle get their advice and senior none |
| LevelEvaluator.TimeBand | src/utils/level-evaluator.ts:289-292 | the band indexes one of the four estimates; it is the first exactly for a gap of at most 5, at most the second exactly for a gap of at most 15, at most the third exactly for a gap of at most 25 |
| LevelEvaluator.EstimateTimeToNextLevel | src/utils/level-evaluator.ts:278-293 | senior gets the maximum-level text; otherwise the estimate is the first band exactly for a gap of at most 5, the second exactly for 5 < gap ≤ 15, the third exactly for 15 < gap ≤ 25 and the fourth exactly for a gap over 25 |
| LevelEvaluator.EstimateMonotone | src/utils/level-evaluator.ts:286-292 | a higher overall score never gives a longer band |
| LevelEvaluator.StrengthsAndWeaknessesCount | src/utils/level-evaluator.ts:252-258 | no category is both strength and weakness; all at 80% or more are all strengths |
| LevelEvaluator.Analysis | src/utils/level-evaluator.ts:233-276 | at most six strengths and weaknesses together (which lines they are is stated by `AnalysisLines`) |
| LevelEvaluator.CategoryStrengthsComplete | src/utils/level-evaluator.ts:252-255 | every category at 80% or more gets its strength line |
| LevelEvaluator.CategoryStrengthsSound | src/utils/level-evaluator.ts:252-255 | every category strength line names a category at 80% or more |
| LevelEvaluator.CategoryWeaknessesComplete | src/utils/level-evaluator.ts:252-258 | every category below 60% gets its weakness line |
| LevelEvaluator.CategoryWeaknessesSound | src/utils/level-evaluator.ts:252-258 | every category weakness line names a category below 60% |
| LevelEvaluator.CategoryLinesExact | src/utils/level-evaluator.ts:252-258 | with distinct category names, a category's strength line is listed iff it is at 80% or more, and its weakness line iff it is below 60% |
| LevelEvaluator.PracticeLinesApart | src/utils/level-evaluator.ts:252-264 | the practice lines are never among the category lines |
| LevelEvaluator.StrengthsAndWeaknessesExact | src/utils/level-evaluator.ts:252-264 | category lines as above; the good-practice strength is listed iff practices ≥ 80 and the poor-practice weakness iff practices < 60 |
| LevelEvaluator.AnalysisLines | src/utils/level-evaluator.ts:233-276 | in the analysis, each of the five categories is a strength iff at 80% or more and a weakness iff below 60%; the practice strength iff the practices score is ≥ 80 and the practice weakness iff it is < 60 |
| LevelEvaluator.SeniorAnalysis | src/utils/level-evaluator.ts:233-276 | a senior gets no next steps, the maximum-level text and the good-practice strength |
| LevelEvaluator.DetailedLevelAnalysis | src/utils/level-evaluator.ts:233-276 | the pushes yield exactly the specified analysis |
| Assessor.DetermineFileType | src/core/assessor.ts:114-141 | the type is decided by the first test that holds: test/spec path, config/setup path, component, service, utility markers, else other |
| Assessor.ProjectFolderDecidesType | src/core/assessor.ts:102 | the type is taken from the absolute path, so every file under a `test-app` folder is a test whatever its content |
| Assessor.BuildRecordFacts | src/core/assessor.ts:92-103 | size is the content length, lines is 1 + newlines, the type is the classified one, and the framework is detected, fixed, or vanilla when unset |
| Assessor.Records | src/core/assessor.ts:85-112 | no more records than files; one per file when all are readable |
| Assessor.BuildFileRecord | src/core/assessor.ts:89-103 | the record built for a readable file is exactly the specified one, with the framework detected by the detection loop under `auto` |
| Assessor.AnalyzeFiles | src/core/assessor.ts:85-112 | the loop yields exactly the records of the readable files, in order |
| Assessor.CategoriesValid | src/core/assessor.ts:45-51 | every category percentage is at most 100 |
| Assessor.NoFilesFullMarks | src/analyzers/base-analyzer.ts:31 | with no files every category scores 100% and has no issues |
| Assessor.RoundHalfUp | src/core/assessor.ts:181 | the result is the nearest integer to the quotient, halves rounded up |
| Assessor.WeightedSumOfCategories | src/core/assessor.ts:163-179 | the weights total 100 hundredths and the weighted sum is `25·cq + 20·perf + 20·arch + 20·bp + 15·maint` |
| Assessor.OverallScoreRounds | src/core/assessor.ts:163-182 | the overall score is that weighted mean rounded to nearest |
| Assessor.OverallScoreAtMost100 | src/core/assessor.ts:163-182 | with percentages at most 100 the overall score is at most 100 |
| Assessor.OverallScoreUniform | src/core/assessor.ts:163-182 | five equal percentages give that percentage |
| Assessor.OverallScoreMonotone | src/core/assessor.ts:163-182 | raising category percentages never lowers the overall score |
| Assessor.CalculateOverallScore | src/core/assessor.ts:163-182 | the accumulation loop yields exactly the specified overall score |
| Assessor.IssuesFor | src/core/assessor.ts:187 | the kept issues are exactly those whose key contains the path |
| Assessor.FileIssuesOf | src/core/assessor.ts:186-188 | a file's issues are exactly the category issues whose key contains its path |
| Assessor.SubstringPathSharesIssue | src/core/assessor.ts:187 | when path `q` contains path `p`, every issue attributed to `q` is also attributed to `p` |
| Assessor.TsxIssueAlsoForTs | src/core/assessor.ts:187 | an issue of `src/a.tsx` is also attributed to `src/a.ts` |
| Assessor.FileScore | src/core/assessor.ts:190 | the file score is a multiple of 10 up to 100, 100 exactly with no issues, 0 exactly with ten or more |
| Assessor.FileScoreAntitone | src/core/assessor.ts:190 | more issues never raise the score; 3 issues give 70 and 10 give 0 |
| Assessor.FileSuggestions | src/core/assessor.ts:201-217 | at most three distinct suggestions, each present exactly when its condition holds, in the order split, fix errors, decompose |
| Assessor.GenerateFileSuggestions | src/core/assessor.ts:201-217 | the pushes yield exactly the specified suggestions |
| Assessor.FileResultOf | src/core/assessor.ts:185-198 | the result keeps the path, scores at most 100, and scores 100 exactly with no issues |
| Assessor.FileResults | src/core/assessor.ts:184-199 | one result per record, in order |
| Assessor.ExamplesForCategory | src/core/assessor.ts:237-267 | three examples for each of the five category names, none otherwise |
| Assessor.Recommend | src/core/assessor.ts:224-230 | the priority is high exactly below 50% (never low), titled by the category key |
| Assessor.Recommendations | src/core/assessor.ts:219-235 | at most one recommendation per category |
| Assessor.RecommendationsComplete | src/core/assessor.ts:219-235 | every category below 70% gets its recommendation |
| Assessor.RecommendationsSound | src/core/assessor.ts:219-235 | every recommendation is the one for some category below 70% |
| Assessor.RecommendationsNonEmpty | src/core/assessor.ts:219-235 | there is a recommendation exactly when some category is below 70% |
| Assessor.NoRecommendationsAbove70 | src/core/assessor.ts:223 | with every category at 70% or more there is nothing to recommend |
| Assessor.GenerateRecommendations | src/core/assessor.ts:219-235 | the pushes yield exactly the specified recommendations |
| Assessor.Assessment | src/core/assessor.ts:41-65 | the overall score is at most 100; one file result per analysed file, so at most one per source; at most five recommendations, and some exactly when a category is below 70% |
| Assessor.EmptyProjectAssessment | src/core/assessor.ts:41-65 | a project with no files scores 100% everywhere and 100 overall, gets no results or recommendations, and is still junior |
| Assessor.Assess | src/core/assessor.ts:41-65 | the pipeline yields exactly the specified assessment |

## Left out

- File discovery (the glob scan with its deduplication), `readFileSync` and the relative-path computation are input. The scan is a list of files; an unreadable file is `None` and is skipped, as the catch-and-warn path skips it. The warning itself is not modelled.
- The `async`/`Promise` wrappers have no real awaits and are modelled as synchronous calls.
- ECMAScript regular-expression semantics are not modelled; the engine is a parameter. In MAINT004 a name that makes an invalid dynamic pattern would throw; the model treats every pattern as valid.
- Floating point: the exact integer arithmetic can differ from JavaScript floats at exact `.5` rounding boundaries (the products `percentage × weight` and their running sum are rounded in floats: for percentages 3/0/2/1/1 the exact weighted mean is 1.5, so `OverallScore` gives 2, while the float sum is 1.4999999999999998 and `Math.round` gives 1).
- String lengths count Dafny characters, not UTF-16 code units, and lowercasing is ASCII only.
- Localised texts produced by `i18n.t` are kept as their key and parameters; the language state and locale files are not part of this model. `generateSummary`, the recommendation title text and the reporters, CLI and package entry point are display or wiring code.
- The configured framework is one of the declared tags or `auto`, or unset; an arbitrary string the type system forbids is not modelled.
- The unused criteria data (`maxComplexity`, `requiredPractices`, `architecturalPatterns`, `leadershipIndicators`), custom rule types, the unused `level` argument of `generateRecommendations` and the unused base name in BP004 have no effect and are not modelled.
- Lookups in plain-object tables by a key such as `toString` would find inherited properties; the model treats such keys as absent.
