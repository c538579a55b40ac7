/** The best-practices rule table BP001–BP006 (src/analyzers/best-practices.ts). */
module BestPractices {
  import opened Wrappers
  import opened Strings
  import opened Regex
  import opened Types
  import opened BaseAnalyzer

  const TYPE_ANNOTATION := Regex(":\\s*\\w+(\\[\\])?(\\s*\\|\\s*\\w+(\\[\\])?)*\\s*[=;,\\)]", "g")
  const ASYNC_OPERATION := Regex("async\\s+|await\\s+|\\.then\\s*\\(|\\.catch\\s*\\(|fetch\\s*\\(", "g")
  const ERROR_HANDLING := Regex("try\\s*{|catch\\s*\\(|\\.catch\\s*\\(", "g")
  const TEST_CODE := Regex("describe\\s*\\(|it\\s*\\(|test\\s*\\(", "g")
  const HOOK_CALL := Regex("use\\w+\\s*\\(", "g")
  const CLASS_COMPONENT := Regex("class\\s+\\w+\\s+extends\\s+(React\\.)?Component", "g")
  const CONDITIONAL_HOOK := Regex("if\\s*\\([^)]+\\)\\s*{[^}]*use\\w+", "g")
  const SCRIPT_SECTION := Regex("<script", "g")
  const TEMPLATE_SECTION := Regex("<template", "g")

  /** A pattern and the message reported when it is found. */
  datatype Finding = Finding(pattern: Regex, message: string)

  /** The unsafe constructs of BP003, in the order they are looked for. */
  const SECURITY_ISSUES: seq<Finding> := [
    Finding(Regex("innerHTML\\s*=", ""), "Использование innerHTML может привести к XSS"),
    Finding(Regex("eval\\s*\\(", ""), "Использование eval небезопасно"),
    Finding(Regex("document\\.write\\s*\\(", ""), "document.write устарел и небезопасен"),
    Finding(Regex("dangerouslySetInnerHTML", ""), "Осторожно с dangerouslySetInnerHTML")
  ]

  /** The accessibility defects of BP005, in the order they are looked for. */
  const A11Y_ISSUES: seq<Finding> := [
    Finding(Regex("<img(?![^>]*alt\\s*=)", "g"), "Изображения должны иметь alt атрибут"),
    Finding(Regex("<button[^>]*>[\\s\\n]*<\\/button>", "g"), "Кнопки должны иметь текст или aria-label"),
    Finding(Regex("<input(?![^>]*(?:aria-label|placeholder)\\s*=)", "g"), "Поля ввода должны иметь labels или aria-label")
  ]

  /** The index of the first finding that `hit` reports, if any. */
  function FirstHit(xs: seq<Finding>, hit: Finding -> bool): (r: Option<nat>)
    ensures r.Some? ==> r.value < |xs| && hit(xs[r.value])
    ensures r.Some? ==> forall j :: 0 <= j < r.value ==> !hit(xs[j])
    ensures r.None? <==> forall j :: 0 <= j < |xs| ==> !hit(xs[j])
  {
    if |xs| == 0 then None
    else if hit(xs[0]) then Some(0)
    else
      match FirstHit(xs[1..], hit)
      case None => None
      case Some(k) => Some(k + 1)
  }

  /** The `for ... of` scan with an early return: the first finding `hit` reports. */
  method FindFirstHit(xs: seq<Finding>, hit: Finding -> bool) returns (r: Option<nat>)
    ensures r == FirstHit(xs, hit)
  {
    for i := 0 to |xs|
      invariant forall j :: 0 <= j < i ==> !hit(xs[j])
    {
      if hit(xs[i]) {
        return Some(i);
      }
    }
    return None;
  }

  /** Whether the file is TypeScript by its extension. */
  predicate IsTypeScriptPath(path: string) {
    EndsWith(path, ".ts") || EndsWith(path, ".tsx")
  }

  /** BP001: a large JavaScript file (over 50 lines) fails, as does a TypeScript file over 20 lines with no annotation. */
  function CheckTypeScriptUsage(e: Engine, f: FileRecord): (o: Outcome)
    ensures !IsTypeScriptPath(f.path) ==> (!o.passed <==> f.lines > 50)
    ensures IsTypeScriptPath(f.path) ==> (!o.passed <==> !Matches(e, TYPE_ANNOTATION, f.content) && f.lines > 20)
    ensures !IsTypeScriptPath(f.path) && !o.passed ==> o.message == Text("Рассмотрите миграцию на TypeScript для больших файлов")
    ensures IsTypeScriptPath(f.path) && !o.passed ==> o.message == Text("TypeScript файл должен содержать типизацию")
  {
    var isTypeScript := IsTypeScriptPath(f.path);
    var hasTypes := Matches(e, TYPE_ANNOTATION, f.content);
    if !isTypeScript && f.lines > 50 then Fail(Text("Рассмотрите миграцию на TypeScript для больших файлов"))
    else if isTypeScript && !hasTypes && f.lines > 20 then Fail(Text("TypeScript файл должен содержать типизацию"))
    else Pass(Text("Использование TypeScript корректно"))
  }

  /** BP002: fails exactly when asynchronous code occurs with no error handling. */
  function CheckErrorHandling(e: Engine, f: FileRecord): (o: Outcome)
    ensures !o.passed <==> Matches(e, ASYNC_OPERATION, f.content) && !Matches(e, ERROR_HANDLING, f.content)
  {
    if Matches(e, ASYNC_OPERATION, f.content) && !Matches(e, ERROR_HANDLING, f.content) then
      Fail(Text("Асинхронные операции должны включать обработку ошибок"))
    else Pass(Text("Обработка ошибок присутствует"))
  }

  /** BP003: fails exactly when some unsafe construct occurs, with the message of the first one in list order. */
  function CheckSecurity(e: Engine, f: FileRecord): (o: Outcome)
    ensures o.passed <==> forall j :: 0 <= j < |SECURITY_ISSUES| ==> !Matches(e, SECURITY_ISSUES[j].pattern, f.content)
    ensures !o.passed ==>
              exists k :: 0 <= k < |SECURITY_ISSUES| && Matches(e, SECURITY_ISSUES[k].pattern, f.content) &&
                          o.message == Text(SECURITY_ISSUES[k].message) &&
                          forall j :: 0 <= j < k ==> !Matches(e, SECURITY_ISSUES[j].pattern, f.content)
  {
    match FirstHit(SECURITY_ISSUES, (issue: Finding) => Matches(e, issue.pattern, f.content))
    case Some(k) => Fail(Text(SECURITY_ISSUES[k].message))
    case None => Pass(Text("Проблемы безопасности не найдены"))
  }

  /** BP004: test files pass; a component over 30 lines with no test code fails. */
  function CheckTestingCoverage(e: Engine, f: FileRecord): (o: Outcome)
    ensures !o.passed <==> f.fileType == Component && !Matches(e, TEST_CODE, f.content) && f.lines > 30
  {
    if f.fileType == Test then Pass(Text("Это тестовый файл"))
    else if f.fileType == Component && !Matches(e, TEST_CODE, f.content) && f.lines > 30 then
      Fail(Text("Компонент должен иметь тесты"))
    else Pass(Text("Тестирование в порядке"))
  }

  /** BP005: only a component can fail, with the message of the first accessibility defect it contains. */
  function CheckAccessibility(e: Engine, f: FileRecord): (o: Outcome)
    ensures f.fileType != Component ==> o.passed
    ensures f.fileType == Component ==>
              (o.passed <==> forall j :: 0 <= j < |A11Y_ISSUES| ==> CountOccurrences(e, A11Y_ISSUES[j].pattern, f.content) == 0)
    ensures !o.passed ==>
              exists k :: 0 <= k < |A11Y_ISSUES| && CountOccurrences(e, A11Y_ISSUES[k].pattern, f.content) > 0 &&
                          o.message == Text(A11Y_ISSUES[k].message) &&
                          forall j :: 0 <= j < k ==> CountOccurrences(e, A11Y_ISSUES[j].pattern, f.content) == 0
  {
    if f.fileType != Component then Pass(Text("Не применимо"))
    else
      match FirstHit(A11Y_ISSUES, (issue: Finding) => CountOccurrences(e, issue.pattern, f.content) > 0)
      case Some(k) => Fail(Text(A11Y_ISSUES[k].message))
      case None => Pass(Text("Доступность соблюдена"))
  }

  /** BP006: React files must not mix class components with hooks or call hooks conditionally; a `.vue` file needs both sections. */
  function CheckFrameworkConventions(e: Engine, f: FileRecord): (o: Outcome)
    ensures f.framework == React ==>
              (!o.passed <==>
                 Matches(e, HOOK_CALL, f.content) &&
                 (Matches(e, CLASS_COMPONENT, f.content) || Matches(e, CONDITIONAL_HOOK, f.content)))
    ensures f.framework == React && Matches(e, HOOK_CALL, f.content) && Matches(e, CLASS_COMPONENT, f.content) ==>
              o.message == Text("Не смешивайте классовые компоненты с хуками")
    ensures f.framework == Vue ==>
              (!o.passed <==>
                 EndsWith(f.path, ".vue") &&
                 (!Matches(e, SCRIPT_SECTION, f.content) || !Matches(e, TEMPLATE_SECTION, f.content)))
    ensures f.framework !in {React, Vue} ==> o.passed
  {
    var hasHooks := Matches(e, HOOK_CALL, f.content);
    if f.framework == React && Matches(e, CLASS_COMPONENT, f.content) && hasHooks then
      Fail(Text("Не смешивайте классовые компоненты с хуками"))
    else if f.framework == React && hasHooks && Matches(e, CONDITIONAL_HOOK, f.content) then
      Fail(Text("Хуки нельзя вызывать условно"))
    else if f.framework == Vue && EndsWith(f.path, ".vue") &&
            (!Matches(e, SCRIPT_SECTION, f.content) || !Matches(e, TEMPLATE_SECTION, f.content)) then
      Fail(Text("Vue компонент должен содержать <script> и <template> секции"))
    else Pass(Text("Конвенции фреймворка соблюдены"))
  }

  /** The best-practices rules, in declared order. */
  function Rules(e: Engine): (rules: seq<Rule>)
    ensures |rules| == 6
    ensures SumWeights(rules) == 90
  {
    var rules := [
      Rule("BP001", Warning, 20, f => CheckTypeScriptUsage(e, f)),
      Rule("BP002", Error, 18, f => CheckErrorHandling(e, f)),
      Rule("BP003", Error, 15, f => CheckSecurity(e, f)),
      Rule("BP004", Warning, 12, f => CheckTestingCoverage(e, f)),
      Rule("BP005", Warning, 10, f => CheckAccessibility(e, f)),
      Rule("BP006", Warning, 15, f => CheckFrameworkConventions(e, f))
    ];
    SumWeightsSix(rules);
    rules
  }
}
