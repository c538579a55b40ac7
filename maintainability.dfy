/** The maintainability rule table MAINT001–MAINT006 (src/analyzers/maintainability.ts). */
module Maintainability {
  import opened Wrappers
  import opened Strings
  import opened Regex
  import opened Types
  import opened BaseAnalyzer

  const JSDOC := Regex("\\/\\*\\*[\\s\\S]*?\\*\\/", "g")
  const FUNCTION_DECL := Regex("function\\s+\\w+|const\\s+\\w+\\s*=\\s*\\(", "g")
  const CLASS_DECL := Regex("class\\s+\\w+", "g")
  const DEEP_NESTING := Regex("\\s{16,}", "g")
  const CAMEL_CASE := Regex("\\b[a-z][a-zA-Z0-9]*\\b", "g")
  const SNAKE_CASE := Regex("\\b[a-z]+_[a-z_]+\\b", "g")
  const IMPORT_STATEMENT := Regex("import\\s+(?:{[^}]+}|\\w+)\\s+from\\s+['\"][^'\"]+['\"]", "g")
  /** Group 1: the braced name list; group 2: a default import's name. */
  const IMPORT_HEAD := Regex("import\\s+(?:{([^}]+)}|(\\w+))", "")
  const HARDCODED_URL := Regex("https?:\\/\\/[^\\s'\"]+", "g")
  const HARDCODED_PATH := Regex("['\"][A-Za-z]:\\\\[^'\"]*['\"]", "g")
  const THROW_ERROR := Regex("throw\\s+new\\s+Error\\s*\\(\\s*['\"`]([^'\"`]+)['\"`]\\s*\\)", "g")

  /** MAINT001: more than three documentable items with fewer than 30% of them carrying a JSDoc block. */
  function CheckDocumentation(e: Engine, f: FileRecord): (o: Outcome)
    ensures var items := CountOccurrences(e, FUNCTION_DECL, f.content) + CountOccurrences(e, CLASS_DECL, f.content);
            !o.passed <==> items > 3 && 10 * CountOccurrences(e, JSDOC, f.content) < 3 * items
  {
    var jsdocComments := CountOccurrences(e, JSDOC, f.content);
    var documentableItems := CountOccurrences(e, FUNCTION_DECL, f.content) + CountOccurrences(e, CLASS_DECL, f.content);
    if documentableItems > 3 && 10 * jsdocComments < 3 * documentableItems then
      Fail(Text("Недостаточно JSDoc комментариев для публичных функций и классов"))
    else Pass(Text("Документация в порядке"))
  }

  /** A line longer than 120 characters. */
  predicate IsLongLine(line: string) {
    |line| > 120
  }

  /** MAINT002: more than 10% long lines is reported first; otherwise more than five deep-indentation runs fail. */
  function CheckReadability(e: Engine, f: FileRecord): (o: Outcome)
    ensures var lines := Split(f.content, '\n');
            var longLines := CountWhere(lines, IsLongLine);
            && (!o.passed <==> 10 * longLines > |lines| || CountOccurrences(e, DEEP_NESTING, f.content) > 5)
            && (10 * longLines > |lines| ==>
                  o.message == Text(NatToString(longLines) + " строк превышают 120 символов. Используйте переносы строк"))
  {
    var lines := Split(f.content, '\n');
    var longLines := CountWhere(lines, IsLongLine);
    if 10 * longLines > |lines| then
      Fail(Text(NatToString(longLines) + " строк превышают 120 символов. Используйте переносы строк"))
    else if CountOccurrences(e, DEEP_NESTING, f.content) > 5 then
      Fail(Text("Глубокая вложенность затрудняет чтение кода"))
    else Pass(Text("Читаемость кода в норме"))
  }

  /** In a file of at most 120 characters no line is long, so only deep nesting can fail MAINT002. */
  lemma ShortFileReadability(e: Engine, f: FileRecord)
    requires |f.content| <= 120
    ensures !CheckReadability(e, f).passed <==> CountOccurrences(e, DEEP_NESTING, f.content) > 5
  {
    var lines := Split(f.content, '\n');
    SplitJoin(f.content, '\n');
    forall i | 0 <= i < |lines|
      ensures !IsLongLine(lines[i])
    {
      JoinPieceBound(lines, '\n', i);
    }
    CountWherePositive(lines, IsLongLine);
  }

  /** Every piece is no longer than the joined string. */
  lemma {:induction false} JoinPieceBound(pieces: seq<string>, sep: char, i: nat)
    requires |pieces| >= 1 && i < |pieces|
    ensures |pieces[i]| <= |Join(pieces, sep)|
  {
    if |pieces| > 1 {
      var init := pieces[..|pieces| - 1];
      if i < |pieces| - 1 {
        JoinPieceBound(init, sep, i);
        assert init[i] == pieces[i];
      }
    }
  }

  /** MAINT003: both naming styles occur and snake_case words exceed 30% of camelCase ones. */
  function CheckNamingConsistency(e: Engine, f: FileRecord): (o: Outcome)
    ensures var camel := CountOccurrences(e, CAMEL_CASE, f.content);
            var snake := CountOccurrences(e, SNAKE_CASE, f.content);
            !o.passed <==> camel > 0 && snake > 0 && 10 * snake > 3 * camel
  {
    var camelCaseVars := CountOccurrences(e, CAMEL_CASE, f.content);
    var snakeCaseVars := CountOccurrences(e, SNAKE_CASE, f.content);
    if camelCaseVars > 0 && snakeCaseVars > 0 && 10 * snakeCaseVars > 3 * camelCaseVars then
      Fail(Text("Смешивание camelCase и snake_case. Выберите один стиль"))
    else Pass(Text("Именование консистентно"))
  }

  /**
   * The names an import head binds: the trimmed comma-separated pieces of a non-empty braced list,
   * otherwise the default import's name (written "undefined" when that group did not take part).
   */
  function ImportedNames(m: Match): (names: seq<string>)
    ensures |names| >= 1
    ensures (Group(m, 1).Some? && |Group(m, 1).value| > 0) ==>
              |names| == 1 + multiset(Group(m, 1).value)[',']
  {
    match Group(m, 1)
    case Some(list) =>
      if |list| > 0 then
        SplitLength(list, ',');
        TrimAll(Split(list, ','))
      else [Group(m, 2).GetOr("undefined")]
    case None => [Group(m, 2).GetOr("undefined")]
  }

  /** `new RegExp('\\b' + name + '\\b')`. */
  function WholeWord(name: string): Regex {
    Regex("\\b" + name + "\\b", "")
  }

  /** An import is unused when some name it binds no longer occurs as a word once the import text itself is removed. */
  predicate IsUnusedImport(e: Engine, content: string, imp: string) {
    match Exec(e, IMPORT_HEAD, imp)
    case None => false
    case Some(m) =>
      var names := ImportedNames(m);
      exists i :: 0 <= i < |names| && !Matches(e, WholeWord(names[i]), ReplaceFirst(content, imp, ""))
  }

  /** A line whose trimmed form is a `//` comment holding code keywords. */
  predicate IsCommentedCode(line: string) {
    var trimmed := Trim(line);
    StartsWith(trimmed, "//") &&
    (Contains(trimmed, "function") || Contains(trimmed, "const ") || Contains(trimmed, "let "))
  }

  /** MAINT004: any unused import is reported first (with their number); otherwise more than three commented-out code lines fail. */
  function CheckDeadCode(e: Engine, f: FileRecord): (o: Outcome)
    ensures var imports := MatchAll(e, IMPORT_STATEMENT, f.content);
            var unused := CountWhere(imports, imp => IsUnusedImport(e, f.content, imp));
            var commented := CountWhere(Split(f.content, '\n'), IsCommentedCode);
            && (unused > 0 <==> exists i :: 0 <= i < |imports| && IsUnusedImport(e, f.content, imports[i]))
            && (!o.passed <==> unused > 0 || commented > 3)
            && (unused > 0 ==> o.message == Text("Найдено " + NatToString(unused) + " неиспользуемых импортов"))
            && (unused == 0 && commented > 3 ==>
                  o.message == Text("Найдено " + NatToString(commented) + " строк закомментированного кода. Удалите их"))
  {
    var imports := MatchAll(e, IMPORT_STATEMENT, f.content);
    var isUnused := imp => IsUnusedImport(e, f.content, imp);
    var unusedImports := CountWhere(imports, isUnused);
    CountWherePositive(imports, isUnused);
    if unusedImports > 0 then
      Fail(Text("Найдено " + NatToString(unusedImports) + " неиспользуемых импортов"))
    else
      var commentedCodeLines := CountWhere(Split(f.content, '\n'), IsCommentedCode);
      if commentedCodeLines > 3 then
        Fail(Text("Найдено " + NatToString(commentedCodeLines) + " строк закомментированного кода. Удалите их"))
      else Pass(Text("Мертвый код не найден"))
  }

  /** MAINT005: more than two URLs or any drive-letter path. */
  function CheckConfiguration(e: Engine, f: FileRecord): (o: Outcome)
    ensures !o.passed <==> CountOccurrences(e, HARDCODED_URL, f.content) > 2 || CountOccurrences(e, HARDCODED_PATH, f.content) > 0
  {
    if CountOccurrences(e, HARDCODED_URL, f.content) > 2 || CountOccurrences(e, HARDCODED_PATH, f.content) > 0 then
      Fail(Text("Найдены захардкоженные URL или пути. Используйте конфигурационные файлы"))
    else Pass(Text("Конфигурация управляется корректно"))
  }

  /** A thrown error text counts as generic when it mentions "Error", "Something went wrong" or "Failed". */
  predicate IsGenericError(msg: string) {
    Contains(msg, "Error") || Contains(msg, "Something went wrong") || Contains(msg, "Failed")
  }

  /** MAINT006: some `throw new Error(...)` occurs and more than half of them are generic. */
  function CheckErrorMessages(e: Engine, f: FileRecord): (o: Outcome)
    ensures var errors := MatchAll(e, THROW_ERROR, f.content);
            !o.passed <==> |errors| > 0 && 2 * CountWhere(errors, IsGenericError) > |errors|
  {
    var errorMessages := MatchAll(e, THROW_ERROR, f.content);
    var genericErrors := CountWhere(errorMessages, IsGenericError);
    if 2 * genericErrors > |errorMessages| && |errorMessages| > 0 then
      Fail(Text("Используйте более информативные сообщения об ошибках"))
    else Pass(Text("Сообщения об ошибках информативны"))
  }

  /**
   * The whole match text is tested, and it always spells `new Error(`, so under any engine whose
   * matches for the pattern contain "Error", MAINT006 fails exactly when some `throw new Error` occurs.
   */
  lemma ErrorMessagesFailOnAnyThrow(e: Engine, f: FileRecord)
    requires forall i :: 0 <= i < |e(THROW_ERROR, f.content)| ==> Contains(e(THROW_ERROR, f.content)[i].text, "Error")
    ensures !CheckErrorMessages(e, f).passed <==> Matches(e, THROW_ERROR, f.content)
  {
    var errors := MatchAll(e, THROW_ERROR, f.content);
    CountWhereAll(errors, IsGenericError);
  }

  /** The maintainability rules, in declared order. */
  function Rules(e: Engine): (rules: seq<Rule>)
    ensures |rules| == 6
    ensures SumWeights(rules) == 60
  {
    var rules := [
      Rule("MAINT001", Info, 12, f => CheckDocumentation(e, f)),
      Rule("MAINT002", Warning, 15, f => CheckReadability(e, f)),
      Rule("MAINT003", Warning, 10, f => CheckNamingConsistency(e, f)),
      Rule("MAINT004", Warning, 8, f => CheckDeadCode(e, f)),
      Rule("MAINT005", Info, 7, f => CheckConfiguration(e, f)),
      Rule("MAINT006", Info, 8, f => CheckErrorMessages(e, f))
    ];
    SumWeightsSix(rules);
    rules
  }
}
