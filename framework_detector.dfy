/**
 * Framework detection from a file's extension and content, and the per-framework tables
 * (src/utils/framework-detector.ts).
 */
module FrameworkDetector {
  import opened Wrappers
  import opened Strings
  import opened Regex
  import opened Types
  import opened BaseAnalyzer

  /** A framework and the patterns whose presence points to it. */
  datatype Family = Family(framework: Framework, patterns: seq<Regex>)

  /** The families in the order they are tried. */
  const FAMILIES: seq<Family> := [
    Family(React, [
      Regex("import\\s+React\\s+from\\s+['\"]react['\"]", ""),
      Regex("import\\s+.*\\s+from\\s+['\"]react['\"]", ""),
      Regex("jsx|tsx", "i"),
      Regex("<[A-Z][a-zA-Z0-9]*[^>]*>", ""),
      Regex("React\\.", ""),
      Regex("useState|useEffect|useContext", ""),
      Regex("ReactDOM", "")
    ]),
    Family(Vue, [
      Regex("import\\s+.*\\s+from\\s+['\"]vue['\"]", ""),
      Regex("<template>", ""),
      Regex("<script.*setup.*>", ""),
      Regex("defineComponent|createApp", ""),
      Regex("ref\\s*\\(|reactive\\s*\\(|computed\\s*\\(", ""),
      Regex("\\$emit|\\$props|\\$slots", ""),
      Regex("v-if|v-for|v-model|v-show", "")
    ]),
    Family(Angular, [
      Regex("import\\s+.*\\s+from\\s+['\"]@angular", ""),
      Regex("@Component|@Injectable|@NgModule", ""),
      Regex("selector\\s*:|template\\s*:|templateUrl\\s*:", ""),
      Regex("ngOnInit|ngOnDestroy", "")
    ]),
    Family(Svelte, [
      Regex("import\\s+.*\\s+from\\s+['\"]svelte", ""),
      Regex("<script.*svelte.*>", ""),
      Regex("\\$:", ""),
      Regex("export\\s+let", "")
    ])
  ]

  const VANILLA_PATTERNS: seq<Regex> := [
    Regex("document\\.", ""),
    Regex("window\\.", ""),
    Regex("addEventListener", ""),
    Regex("querySelector", ""),
    Regex("getElementById", ""),
    Regex("createElement", "")
  ]

  /** How many of a family's patterns match the content. */
  function Hits(e: Engine, fam: Family, content: string): (n: nat)
    ensures n <= |fam.patterns|
  {
    CountWhere(fam.patterns, (p: Regex) => Matches(e, p, content))
  }

  /** A family qualifies when at least two of its patterns match. */
  predicate Qualifies(e: Engine, fam: Family, content: string) {
    Hits(e, fam, content) >= 2
  }

  /** The index of the first qualifying family of `fams`, if any. */
  function FirstQualifying(e: Engine, fams: seq<Family>, content: string): (r: Option<nat>)
    ensures r.Some? ==> r.value < |fams| && Qualifies(e, fams[r.value], content)
    ensures r.Some? ==> forall j :: 0 <= j < r.value ==> !Qualifies(e, fams[j], content)
    ensures r.None? <==> forall j :: 0 <= j < |fams| ==> !Qualifies(e, fams[j], content)
  {
    if |fams| == 0 then None
    else if Qualifies(e, fams[0], content) then Some(0)
    else
      match FirstQualifying(e, fams[1..], content)
      case None => None
      case Some(k) => Some(k + 1)
  }

  /** The first qualifying family is at index `k` exactly when family `k` qualifies and none before it does. */
  lemma FirstQualifyingAt(e: Engine, fams: seq<Family>, content: string, k: nat)
    requires k < |fams|
    ensures FirstQualifying(e, fams, content) == Some(k) <==>
              Qualifies(e, fams[k], content) && forall j :: 0 <= j < k ==> !Qualifies(e, fams[j], content)
  {
  }

  /** `isVanillaJS`: some DOM-API pattern matches. */
  predicate IsVanillaJS(e: Engine, content: string) {
    exists i :: 0 <= i < |VANILLA_PATTERNS| && Matches(e, VANILLA_PATTERNS[i], content)
  }

  /** The framework content detection picks from the families `fams`, falling back to the DOM check. */
  function DetectionFrom(e: Engine, fams: seq<Family>, content: string): Framework {
    match FirstQualifying(e, fams, content)
    case Some(k) => fams[k].framework
    case None => if IsVanillaJS(e, content) then Vanilla else Unknown
  }

  /** The framework `detect` reports for a file. */
  function Detection(e: Engine, content: string, path: string): (fw: Framework)
    ensures EndsWith(path, ".vue") ==> fw == Vue
    ensures fw == Unknown ==> !EndsWith(path, ".vue") && !IsVanillaJS(e, content)
  {
    if EndsWith(path, ".vue") then Vue else DetectionFrom(e, FAMILIES, content)
  }

  /** Families naming distinct frameworks, none of them vanilla or unknown. */
  predicate DistinctFamilies(fams: seq<Family>) {
    && (forall i, j :: 0 <= i < |fams| && 0 <= j < |fams| && i != j ==> fams[i].framework != fams[j].framework)
    && (forall i :: 0 <= i < |fams| ==> fams[i].framework != Vanilla && fams[i].framework != Unknown)
  }

  /**
   * Over distinct families, content detection picks the first family with at least two matching
   * patterns; vanilla and unknown are chosen only when no family qualifies.
   */
  lemma DetectionFromExact(e: Engine, fams: seq<Family>, content: string)
    requires DistinctFamilies(fams)
    ensures forall k :: 0 <= k < |fams| ==>
              (DetectionFrom(e, fams, content) == fams[k].framework <==>
                 Qualifies(e, fams[k], content) && forall j :: 0 <= j < k ==> !Qualifies(e, fams[j], content))
    ensures DetectionFrom(e, fams, content) in {Vanilla, Unknown} <==>
              forall j :: 0 <= j < |fams| ==> !Qualifies(e, fams[j], content)
    ensures DetectionFrom(e, fams, content) == Vanilla <==>
              IsVanillaJS(e, content) && forall j :: 0 <= j < |fams| ==> !Qualifies(e, fams[j], content)
  {
    var fw := DetectionFrom(e, fams, content);
    var r := FirstQualifying(e, fams, content);
    if r.Some? {
      var m := r.value;
      assert fw == fams[m].framework && fw != Vanilla && fw != Unknown;
      assert Qualifies(e, fams[m], content);
    }
    forall k | 0 <= k < |fams|
      ensures fw == fams[k].framework <==>
                Qualifies(e, fams[k], content) && forall j :: 0 <= j < k ==> !Qualifies(e, fams[j], content)
    {
      DetectionFromAt(e, fams, content, k);
      FirstQualifyingAt(e, fams, content, k);
    }
  }

  /** Over distinct families, detection names family `k`'s framework exactly when family `k` is the first to qualify. */
  lemma DetectionFromAt(e: Engine, fams: seq<Family>, content: string, k: nat)
    requires DistinctFamilies(fams) && k < |fams|
    ensures DetectionFrom(e, fams, content) == fams[k].framework <==> FirstQualifying(e, fams, content) == Some(k)
  {
    var r := FirstQualifying(e, fams, content);
    if r.Some? && r.value != k {
      assert fams[r.value].framework != fams[k].framework;
    }
  }

  /**
   * Content detection picks the first family, in the order React, Vue, Angular, Svelte, with at
   * least two matching patterns; vanilla and unknown are chosen only when no family qualifies.
   */
  lemma DetectionByContent(e: Engine, content: string, path: string)
    requires !EndsWith(path, ".vue")
    ensures forall k :: 0 <= k < |FAMILIES| ==>
              (Detection(e, content, path) == FAMILIES[k].framework <==>
                 Qualifies(e, FAMILIES[k], content) && forall j :: 0 <= j < k ==> !Qualifies(e, FAMILIES[j], content))
    ensures Detection(e, content, path) in {Vanilla, Unknown} <==>
              forall j :: 0 <= j < |FAMILIES| ==> !Qualifies(e, FAMILIES[j], content)
    ensures Detection(e, content, path) == Vanilla <==>
              IsVanillaJS(e, content) && forall j :: 0 <= j < |FAMILIES| ==> !Qualifies(e, FAMILIES[j], content)
  {
    assert FAMILIES[0].framework == React && FAMILIES[1].framework == Vue;
    assert FAMILIES[2].framework == Angular && FAMILIES[3].framework == Svelte;
    DetectionFromExact(e, FAMILIES, content);
  }

  /** The detection loop: the `.vue` extension first, then the families in order, then the DOM check. */
  method Detect(e: Engine, content: string, path: string) returns (fw: Framework)
    ensures fw == Detection(e, content, path)
  {
    if EndsWith(path, ".vue") {
      return Vue;
    }
    for i := 0 to |FAMILIES|
      invariant forall j :: 0 <= j < i ==> !Qualifies(e, FAMILIES[j], content)
    {
      var matches := CountWhere(FAMILIES[i].patterns, (p: Regex) => Matches(e, p, content));
      if matches >= 2 {
        return FAMILIES[i].framework;
      }
    }
    if IsVanillaJS(e, content) {
      return Vanilla;
    }
    return Unknown;
  }

  /** `getFrameworkSpecificRules`: five guidelines for react, vue, angular and vanilla; none for any other tag. */
  function FrameworkSpecificRules(tag: string): (r: seq<string>)
    ensures tag in {"react", "vue", "angular", "vanilla"} <==> |r| == 5
    ensures tag !in {"react", "vue", "angular", "vanilla"} <==> r == []
  {
    if tag == "react" then [
      "Используйте функциональные компоненты вместо классовых",
      "Применяйте хуки для управления состоянием",
      "Используйте React.memo для оптимизации",
      "Следуйте правилам хуков",
      "Используйте PropTypes или TypeScript для типизации"
    ]
    else if tag == "vue" then [
      "Используйте Composition API в Vue 3",
      "Применяйте computed свойства для вычислений",
      "Используйте scoped стили",
      "Следуйте Vue Style Guide",
      "Используйте TypeScript с Vue"
    ]
    else if tag == "angular" then [
      "Используйте OnPush стратегию для компонентов",
      "Применяйте RxJS для асинхронных операций",
      "Используйте lazy loading для модулей",
      "Следуйте Angular Style Guide",
      "Используйте строгую типизацию TypeScript"
    ]
    else if tag == "vanilla" then [
      "Избегайте глобальных переменных",
      "Используйте современный ES6+ синтаксис",
      "Применяйте модульную архитектуру",
      "Используйте TypeScript для больших проектов",
      "Следуйте принципам SOLID"
    ]
    else []
  }

  /** Svelte and unknown files get no guidelines although both are detected tags. */
  lemma NoGuidelinesForSvelteOrUnknown()
    ensures FrameworkSpecificRules(Svelte.Name()) == []
    ensures FrameworkSpecificRules(Unknown.Name()) == []
    ensures forall fw: Framework :: fw !in {Svelte, Unknown} ==> |FrameworkSpecificRules(fw.Name())| == 5
  {
  }

  /** `getFrameworkComplexityWeight`, in tenths: svelte 8, vue 9, react and unknown 10, vanilla 11, angular 12, anything else 10. */
  function ComplexityWeightTenths(tag: string): (w: nat)
    ensures 8 <= w <= 12
    ensures tag !in {"react", "vue", "angular", "svelte", "vanilla", "unknown"} ==> w == 10
    ensures w < 10 <==> tag in {"vue", "svelte"}
    ensures w > 10 <==> tag in {"angular", "vanilla"}
  {
    if tag == "react" then 10
    else if tag == "vue" then 9
    else if tag == "angular" then 12
    else if tag == "svelte" then 8
    else if tag == "vanilla" then 11
    else if tag == "unknown" then 10
    else 10
  }
}
