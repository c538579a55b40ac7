/** The architecture rule table ARCH001–ARCH006 (src/analyzers/architecture.ts). */
module Architecture {
  import opened Wrappers
  import opened Strings
  import opened Regex
  import opened Types
  import opened BaseAnalyzer

  /** Data access that belongs in a service rather than a component. */
  const BUSINESS_LOGIC: seq<Regex> := [
    Regex("fetch\\s*\\(", "g"),
    Regex("axios\\.", "g"),
    Regex("\\$http\\.", "g"),
    Regex("XMLHttpRequest", "g"),
    Regex("localStorage\\.", "g"),
    Regex("sessionStorage\\.", "g")
  ]

  const HARDCODED_SERVICE := Regex("new\\s+\\w+Service\\s*\\(", "g")
  const CONSTRUCTOR_INJECTION := Regex("constructor\\s*\\([^)]*\\w+Service", "g")
  const EXPORTED := Regex("export\\s+(class|function|const)", "g")
  const CLASS := Regex("class\\s+\\w+", "g")
  const METHOD := Regex("\\s+\\w+\\s*\\([^)]*\\)\\s*{", "g")
  const DIRECT_DATA_ACCESS := Regex("import.*from.*['\"](.*\\/)?api\\/|.*\\/data\\/|.*\\/repository\\/", "g")
  const SINGLETON := Regex("private\\s+static\\s+instance|getInstance\\s*\\(", "g")
  const SERVICE_INSTANCE := Regex("new\\s+\\w*Service\\s*\\(", "g")
  const EVENTS := Regex("emit\\s*\\(|addEventListener|on\\(", "g")
  const OBSERVER := Regex("observer|subscribe|unsubscribe", "gi")
  const IMPORT := Regex("import\\s+.*from\\s+['\"][^'\"]+['\"]", "g")

  /** ARCH001: only a component can fail, when business-logic calls occur more than twice in total. */
  function CheckSeparationOfConcerns(e: Engine, f: FileRecord): (o: Outcome)
    ensures !o.passed <==> f.fileType == Component && PatternCount(e, BUSINESS_LOGIC, f.content) > 2
  {
    if f.fileType == Component && PatternCount(e, BUSINESS_LOGIC, f.content) > 2 then
      Fail(Text("Компонент содержит слишком много бизнес-логики. Выделите в отдельные сервисы"))
    else Pass(Text("Разделение ответственности соблюдено"))
  }

  /** ARCH002: only a service can fail, when it instantiates a service without constructor injection. */
  function CheckDependencyInjection(e: Engine, f: FileRecord): (o: Outcome)
    ensures !o.passed <==>
              f.fileType == Service && Matches(e, HARDCODED_SERVICE, f.content) && !Matches(e, CONSTRUCTOR_INJECTION, f.content)
  {
    if f.fileType == Service && Matches(e, HARDCODED_SERVICE, f.content) && !Matches(e, CONSTRUCTOR_INJECTION, f.content) then
      Fail(Text("Используйте внедрение зависимостей вместо прямого создания экземпляров"))
    else Pass(Text("Внедрение зависимостей в порядке"))
  }

  /** ARCH003: too many exports is reported first; otherwise a file with a class and over 15 method-like blocks fails. */
  function CheckSingleResponsibility(e: Engine, f: FileRecord): (o: Outcome)
    ensures var exports := CountOccurrences(e, EXPORTED, f.content);
            var classes := CountOccurrences(e, CLASS, f.content);
            var methods := CountOccurrences(e, METHOD, f.content);
            && (!o.passed <==> exports > 5 || (classes > 0 && methods > 15))
            && (exports > 5 ==> o.message == Text("Файл экспортирует " + NatToString(exports) + " сущностей. Рассмотрите разделение на модули"))
            && (exports <= 5 && !o.passed ==> o.message == Text("Класс содержит " + NatToString(methods) + " методов. Рассмотрите декомпозицию"))
  {
    var exports := CountOccurrences(e, EXPORTED, f.content);
    var classes := CountOccurrences(e, CLASS, f.content);
    if exports > 5 then
      Fail(Text("Файл экспортирует " + NatToString(exports) + " сущностей. Рассмотрите разделение на модули"))
    else if classes > 0 && CountOccurrences(e, METHOD, f.content) > 15 then
      Fail(Text("Класс содержит " + NatToString(CountOccurrences(e, METHOD, f.content)) + " методов. Рассмотрите декомпозицию"))
    else Pass(Text("Принцип единственной ответственности соблюден"))
  }

  /** A path names the view layer: its lower-cased form mentions "component" or "view". */
  predicate IsViewPath(path: string) {
    var lower := ToLower(path);
    Contains(lower, "component") || Contains(lower, "view")
  }

  /** ARCH004: a view-layer file fails exactly when it reaches into the data layer. */
  function CheckLayeredArchitecture(e: Engine, f: FileRecord): (o: Outcome)
    ensures !o.passed <==> IsViewPath(f.path) && Matches(e, DIRECT_DATA_ACCESS, f.content)
  {
    if IsViewPath(f.path) && Matches(e, DIRECT_DATA_ACCESS, f.content) then
      Fail(Text("Компоненты не должны напрямую обращаться к слою данных. Используйте сервисы"))
    else Pass(Text("Слоистая архитектура соблюдена"))
  }

  /** ARCH004 ignores the case of the path: a file and its lowercased-path twin get the same outcome. */
  lemma LayeredArchitectureIgnoresPathCase(e: Engine, f: FileRecord)
    ensures CheckLayeredArchitecture(e, f.(path := ToLower(f.path))).passed == CheckLayeredArchitecture(e, f).passed
  {
    assert ToLower(ToLower(f.path)) == ToLower(f.path);
  }

  /** ARCH005: a service that instantiates services without a singleton, or a large component with events and no observer. */
  function CheckDesignPatterns(e: Engine, f: FileRecord): (o: Outcome)
    ensures f.fileType == Service ==>
              (!o.passed <==> Matches(e, SERVICE_INSTANCE, f.content) && !Matches(e, SINGLETON, f.content))
    ensures f.fileType == Component ==>
              (!o.passed <==> Matches(e, EVENTS, f.content) && f.lines > 100 && !Matches(e, OBSERVER, f.content))
    ensures f.fileType !in {Service, Component} ==> o.passed
  {
    if f.fileType == Service && Matches(e, SERVICE_INSTANCE, f.content) && !Matches(e, SINGLETON, f.content) then
      Fail(Text("Рассмотрите использование паттерна Singleton для сервисов"))
    else if f.fileType == Component && Matches(e, EVENTS, f.content) && f.lines > 100 && !Matches(e, OBSERVER, f.content) then
      Fail(Text("Для сложных компонентов с событиями рассмотрите паттерн Observer"))
    else Pass(Text("Паттерны проектирования используются корректно"))
  }

  /** An import statement climbs to a parent directory. */
  predicate IsRelativeImport(imp: string) {
    Contains(imp, "../")
  }

  /** ARCH006: fails exactly when there are imports and more than 70% of them climb to a parent directory. */
  function CheckModuleCoupling(e: Engine, f: FileRecord): (o: Outcome)
    ensures var imports := MatchAll(e, IMPORT, f.content);
            !o.passed <==> |imports| > 0 && 10 * CountWhere(imports, IsRelativeImport) > 7 * |imports|
  {
    var imports := MatchAll(e, IMPORT, f.content);
    var relativeImports := CountWhere(imports, IsRelativeImport);
    var totalImports := |imports|;
    if totalImports > 0 && 10 * relativeImports > 7 * totalImports then
      Fail(Text("Высокая связанность модулей. Рассмотрите рефакторинг архитектуры"))
    else Pass(Text("Связанность модулей в норме"))
  }

  /** A file none of whose imports is relative cannot fail ARCH006; one whose imports all are, with at least one, must. */
  lemma ModuleCouplingExtremes(e: Engine, f: FileRecord)
    ensures var imports := MatchAll(e, IMPORT, f.content);
            && ((forall i :: 0 <= i < |imports| ==> !IsRelativeImport(imports[i])) ==> CheckModuleCoupling(e, f).passed)
            && (|imports| > 0 && (forall i :: 0 <= i < |imports| ==> IsRelativeImport(imports[i])) ==> !CheckModuleCoupling(e, f).passed)
  {
    var imports := MatchAll(e, IMPORT, f.content);
    CountWherePositive(imports, IsRelativeImport);
    CountWhereAll(imports, IsRelativeImport);
  }

  /** The architecture rules, in declared order. */
  function Rules(e: Engine): (rules: seq<Rule>)
    ensures |rules| == 6
    ensures SumWeights(rules) == 89
  {
    var rules := [
      Rule("ARCH001", Warning, 20, f => CheckSeparationOfConcerns(e, f)),
      Rule("ARCH002", Info, 15, f => CheckDependencyInjection(e, f)),
      Rule("ARCH003", Warning, 18, f => CheckSingleResponsibility(e, f)),
      Rule("ARCH004", Info, 12, f => CheckLayeredArchitecture(e, f)),
      Rule("ARCH005", Info, 10, f => CheckDesignPatterns(e, f)),
      Rule("ARCH006", Warning, 14, f => CheckModuleCoupling(e, f))
    ];
    SumWeightsSix(rules);
    rules
  }
}
