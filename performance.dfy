/** The performance rule table PERF001–PERF006 (src/analyzers/performance.ts). */
module Performance {
  import opened Wrappers
  import opened Regex
  import opened Types
  import opened BaseAnalyzer

  const LAZY_LOADING := Regex("import\\s*\\(\\s*['\"`][^'\"`]+['\"`]\\s*\\)|React\\.lazy|defineAsyncComponent", "g")
  /** A line-anchored import; the `m` flag is lost when occurrences are counted. */
  const IMPORT_LINE := Regex("^import\\s+", "gm")

  const HEAVY_OPERATIONS: seq<Regex> := [
    Regex("\\{\\s*\\w+\\.map\\([^}]+\\.map\\(", "g"),
    Regex("\\{\\s*\\w+\\.filter\\([^}]+\\.map\\(", "g"),
    Regex("\\{\\s*\\w+\\.sort\\(", "g"),
    Regex("JSON\\.parse\\s*\\(", "g"),
    Regex("new\\s+Date\\s*\\(", "g")
  ]

  const POTENTIAL_LEAKS: seq<Regex> := [
    Regex("setInterval\\s*\\(", "g"),
    Regex("setTimeout\\s*\\(", "g"),
    Regex("addEventListener\\s*\\(", "g"),
    Regex("\\$on\\s*\\(", "g")
  ]

  const CLEANUP_PATTERNS: seq<Regex> := [
    Regex("clearInterval\\s*\\(", "g"),
    Regex("clearTimeout\\s*\\(", "g"),
    Regex("removeEventListener\\s*\\(", "g"),
    Regex("\\$off\\s*\\(", "g"),
    Regex("useEffect\\s*\\([^,]+,\\s*\\[[^\\]]*\\]\\s*\\)\\s*=>\\s*{[^}]*return\\s+", "g")
  ]

  const MEMOIZATION := Regex("React\\.memo|useMemo|useCallback", "g")
  const COMPLEX_PROPS := Regex("props\\.\\w+\\.\\w+", "g")
  const COMPUTED := Regex("computed\\s*\\(", "g")
  const INTERPOLATION := Regex("\\{\\{[^}]+\\}\\}", "g")
  const LEGACY_IMAGE := Regex("\\.(jpg|jpeg|png|gif|bmp)\\b", "gi")
  const MODERN_IMAGE := Regex("\\.(webp|avif)\\b", "gi")

  /** The size limit of a file: 20000 characters for a component, 10000 otherwise. */
  function MaxSize(t: FileType): nat {
    if t == Component then 20000 else 10000
  }

  /** PERF001: fails exactly when the file is larger than its limit; sizes are reported in rounded thousands. */
  function CheckBundleSize(f: FileRecord): (o: Outcome)
    ensures !o.passed <==> f.size > MaxSize(f.fileType)
    ensures !o.passed ==>
              && o.message.Localized?
              && |o.message.params| == 2
              && var shown := o.message.params[0].1;
              && 1000 * shown - 500 <= f.size < 1000 * shown + 500
              && o.message.params[1].1 * 1000 == MaxSize(f.fileType)
  {
    var maxSize := MaxSize(f.fileType);
    if f.size > maxSize then
      Fail(Localized("rules.bundleSize", [("size", (f.size + 500) / 1000), ("maxSize", maxSize / 1000)]))
    else Pass(Text("File size is acceptable"))
  }

  /** PERF002: only a component can fail, and only with no lazy import and more than five counted imports. */
  function CheckLazyLoading(e: Engine, f: FileRecord): (o: Outcome)
    ensures !o.passed <==>
              f.fileType == Component && !Matches(e, LAZY_LOADING, f.content) &&
              CountOccurrences(e, IMPORT_LINE, f.content) > 5
  {
    if f.fileType != Component then Pass(Text("Not applicable"))
    else
      var hasLazyLoading := Matches(e, LAZY_LOADING, f.content);
      var hasMultipleImports := CountOccurrences(e, IMPORT_LINE, f.content) > 5;
      if !hasLazyLoading && hasMultipleImports then Fail(Localized("rules.lazyLoading", []))
      else Pass(Text("Lazy loading is used correctly"))
  }

  /**
   * With its `m` flag dropped, `^import\s+` can only match at the very start of the file, so
   * under any engine that finds at most one match for it, PERF002 never fails.
   */
  lemma LazyLoadingNeverFails(e: Engine, f: FileRecord)
    requires |e(Regex("^import\\s+", "g"), f.content)| <= 1
    ensures CheckLazyLoading(e, f).passed
  {
  }

  /** PERF003: fails exactly when some heavy-operation pattern occurs, reporting the total count. */
  function CheckHeavyOperations(e: Engine, f: FileRecord): (o: Outcome)
    ensures !o.passed <==> exists i :: 0 <= i < |HEAVY_OPERATIONS| && CountOccurrences(e, HEAVY_OPERATIONS[i], f.content) > 0
    ensures !o.passed ==> o.message == Localized("rules.heavyOperations", [("count", PatternCount(e, HEAVY_OPERATIONS, f.content))])
  {
    var heavyOpsCount := PatternCount(e, HEAVY_OPERATIONS, f.content);
    PatternCountZero(e, HEAVY_OPERATIONS, f.content);
    if heavyOpsCount > 0 then Fail(Localized("rules.heavyOperations", [("count", heavyOpsCount)]))
    else Pass(Text("No heavy operations found"))
  }

  /** PERF004: fails exactly when leak-prone calls outnumber cleanups, reporting the positive surplus. */
  function CheckMemoryLeaks(e: Engine, f: FileRecord): (o: Outcome)
    ensures var leaks := PatternCount(e, POTENTIAL_LEAKS, f.content);
            var cleanups := PatternCount(e, CLEANUP_PATTERNS, f.content);
            && (!o.passed <==> leaks > cleanups)
            && (!o.passed ==> o.message == Localized("rules.memoryLeaks", [("count", leaks - cleanups)]) && leaks - cleanups > 0)
  {
    var leakCount := PatternCount(e, POTENTIAL_LEAKS, f.content);
    var cleanupCount := PatternCount(e, CLEANUP_PATTERNS, f.content);
    if leakCount > cleanupCount then Fail(Localized("rules.memoryLeaks", [("count", leakCount - cleanupCount)]))
    else Pass(Text("No memory leaks found"))
  }

  /** PERF005: a React component with nested props access and no memoisation, or a Vue template with many interpolations and no `computed`. */
  function CheckUnnecessaryRenders(e: Engine, f: FileRecord): (o: Outcome)
    ensures f.framework !in {React, Vue} ==> o.passed
    ensures f.framework == React ==>
              (!o.passed <==> Matches(e, COMPLEX_PROPS, f.content) && !Matches(e, MEMOIZATION, f.content) && f.fileType == Component)
    ensures f.framework == Vue ==>
              (!o.passed <==> CountOccurrences(e, INTERPOLATION, f.content) > 5 && !Matches(e, COMPUTED, f.content))
  {
    if f.framework == React && Matches(e, COMPLEX_PROPS, f.content) && !Matches(e, MEMOIZATION, f.content) && f.fileType == Component then
      Fail(Text("Компонент с сложными props должен использовать мемоизацию"))
    else if f.framework == Vue && CountOccurrences(e, INTERPOLATION, f.content) > 5 && !Matches(e, COMPUTED, f.content) then
      Fail(Text("Сложные вычисления в шаблоне должны использовать computed свойства"))
    else Pass(Text("Оптимизация рендеринга в норме"))
  }

  /** PERF006: fails exactly when legacy image extensions occur and modern ones do not (counted without the `i` flag). */
  function CheckImages(e: Engine, f: FileRecord): (o: Outcome)
    ensures !o.passed <==>
              Matches(e, Regex(LEGACY_IMAGE.source, "g"), f.content) && !Matches(e, Regex(MODERN_IMAGE.source, "g"), f.content)
  {
    var imageImports := CountOccurrences(e, LEGACY_IMAGE, f.content);
    var optimizedFormats := CountOccurrences(e, MODERN_IMAGE, f.content);
    if imageImports > 0 && optimizedFormats == 0 then
      Fail(Text("Рассмотрите использование современных форматов изображений (WebP, AVIF)"))
    else Pass(Text("Оптимизация изображений в порядке"))
  }

  /** The performance rules, in declared order. */
  function Rules(e: Engine): (rules: seq<Rule>)
    ensures |rules| == 6
    ensures SumWeights(rules) == 83
  {
    var rules := [
      Rule("PERF001", Warning, 15, f => CheckBundleSize(f)),
      Rule("PERF002", Info, 10, f => CheckLazyLoading(e, f)),
      Rule("PERF003", Error, 20, f => CheckHeavyOperations(e, f)),
      Rule("PERF004", Warning, 18, f => CheckMemoryLeaks(e, f)),
      Rule("PERF005", Warning, 12, f => CheckUnnecessaryRenders(e, f)),
      Rule("PERF006", Info, 8, f => CheckImages(e, f))
    ];
    SumWeightsSix(rules);
    rules
  }
}
