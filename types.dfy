/** The records the scoring pipeline passes between its stages (src/types/index.ts). */
module Types {
  import opened Wrappers

  /** The framework tags a file record can carry. */
  datatype Framework = React | Vue | Angular | Svelte | Vanilla | Unknown {
    /** The tag as the source spells it. */
    function Name(): string {
      match this
      case React => "react"
      case Vue => "vue"
      case Angular => "angular"
      case Svelte => "svelte"
      case Vanilla => "vanilla"
      case Unknown => "unknown"
    }
  }

  /** The structural type of a file. */
  datatype FileType = Component | Utility | Service | Config | Test | Other

  datatype Severity = Error | Warning | Info

  /** One analysed file: the unit every rule reads. */
  datatype FileRecord = FileRecord(
    path: string,
    content: string,
    size: nat,
    lines: nat,
    framework: Framework,
    fileType: FileType)

  /**
   * A rule message. Text looked up through the localisation layer is kept as its key and
   * interpolation parameters; every other message is literal text.
   */
  datatype Message = Text(text: string) | Localized(key: string, params: seq<(string, int)>)

  /** What one rule reports about one file. */
  datatype Outcome = Outcome(passed: bool, message: Message, line: Option<nat>, column: Option<nat>)

  function Pass(message: Message): Outcome {
    Outcome(true, message, None, None)
  }

  function Fail(message: Message): Outcome {
    Outcome(false, message, None, None)
  }

  /** A failed (rule, file) pair; `rule` is the key `<ruleId>:<filePath>`. */
  datatype Issue = Issue(rule: string, severity: Severity, message: Message, line: Option<nat>, column: Option<nat>)

  datatype CategoryResult = CategoryResult(score: nat, maxScore: nat, percentage: nat, issues: seq<Issue>)

  /** The five category results, in the order the assessment builds them. */
  datatype Categories = Categories(
    codeQuality: CategoryResult,
    performance: CategoryResult,
    architecture: CategoryResult,
    bestPractices: CategoryResult,
    maintainability: CategoryResult)

  /** `Object.entries(categories)`: name and result, in insertion order. */
  function Entries(c: Categories): (r: seq<(string, CategoryResult)>)
    ensures |r| == 5
  {
    [("codeQuality", c.codeQuality), ("performance", c.performance), ("architecture", c.architecture),
     ("bestPractices", c.bestPractices), ("maintainability", c.maintainability)]
  }

  datatype FileResult = FileResult(path: string, score: nat, issues: seq<Issue>, suggestions: seq<string>)

  datatype Priority = High | Medium | Low

  /** A recommendation; its localised title is kept as the key of the category name it is built from. */
  datatype Recommendation = Recommendation(
    category: string,
    priority: Priority,
    titleKey: string,
    description: string,
    examples: seq<string>)

  datatype Level = Junior | Middle | Senior {
    function Name(): string {
      match this
      case Junior => "junior"
      case Middle => "middle"
      case Senior => "senior"
    }

    /** Position in the ladder junior < middle < senior. */
    function Rank(): nat {
      match this
      case Junior => 0
      case Middle => 1
      case Senior => 2
    }
  }

  /** The assessment handed to the reporters, without the localised summary text. */
  datatype AssessmentResult = AssessmentResult(
    overallScore: nat,
    level: Level,
    categories: Categories,
    fileResults: seq<FileResult>,
    recommendations: seq<Recommendation>)
}
