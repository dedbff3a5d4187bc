/**
 * sop_generator/utils/safety_integration.py: `ProfessionalSafetyIntegrator`, the hazard
 * analysis, the risk matrix, PPE selection, emergency-scenario selection, the safety
 * integration score and the critical-gap check.
 *
 * Every regular-expression search of this file runs on the lowered SOP text; the model takes
 * those searches as an oracle `search` from a pattern's text to "the pattern occurs".
 */
module SafetyIntegration {
  import opened Text
  import opened Wrappers

  datatype HazardCategory = Chemical | Physical | Biological | Radiological | Ergonomic | Environmental

  datatype RiskLevel = Critical | High | Medium | Low

  datatype PpeType =
    EyeProtection | Respiratory | HandProtection | BodyProtection | FootProtection | HearingProtection

  /** The words of the probability scale; `OtherProbability` holds any other word. */
  datatype Probability = VeryLowProbability | LowProbability | MediumProbability | HighProbability
    | VeryHighProbability | OtherProbability(word: string)

  /** The words of the severity scale; `OtherSeverity` holds any other word. */
  datatype Severity = Negligible | Minor | Moderate | Major | Catastrophic | OtherSeverity(word: string)

  /** `HazardAnalysis`. */
  datatype Hazard = Hazard(
    id: string, category: HazardCategory, description: string, riskLevel: RiskLevel,
    probability: Probability, severity: Severity, riskRating: int,
    references: seq<string>, controls: seq<string>)

  /** `PPERequirement`. */
  datatype PpeRequirement = PpeRequirement(
    ppeType: PpeType, specification: string, performanceStandard: string,
    usageConditions: string, replacementCriteria: string, regulatoryStandard: string)

  /** The rating an analysis stores agrees with the probability × severity matrix, and no
      analysis is rated critical. */
  predicate Rated(h: Hazard) {
    h.riskRating == RiskRating(h.probability, h.severity) && h.riskLevel != Critical
  }

  /** Hazard ids `<prefix>001`, `<prefix>002`, ... in order. */
  predicate NumberedFrom(hazards: seq<Hazard>, prefix: string) {
    forall i :: 0 <= i < |hazards| ==> hazards[i].id == prefix + Pad3(i + 1)
  }

  // ---------------------------------------------------------------------------------------
  // The risk matrix

  const ProbabilityScale: seq<Probability> :=
    [VeryLowProbability, LowProbability, MediumProbability, HighProbability, VeryHighProbability]
  const SeverityScale: seq<Severity> := [Negligible, Minor, Moderate, Major, Catastrophic]

  /** The probability's place on its scale; any other word counts as "Medium". */
  function ProbabilityValue(p: Probability): (v: int)
    ensures 1 <= v <= 5
  {
    match p
    case VeryLowProbability => 1
    case LowProbability => 2
    case MediumProbability => 3
    case HighProbability => 4
    case VeryHighProbability => 5
    case OtherProbability(_) => 3
  }

  /** The severity's place on its scale; any other word counts as "Minor". */
  function SeverityValue(s: Severity): (v: int)
    ensures 1 <= v <= 5
  {
    match s
    case Negligible => 1
    case Minor => 2
    case Moderate => 3
    case Major => 4
    case Catastrophic => 5
    case OtherSeverity(_) => 2
  }

  /** `_calculate_risk_rating`. */
  function RiskRating(probability: Probability, severity: Severity): (r: int)
    ensures 1 <= r <= 25
  {
    ProbabilityValue(probability) * SeverityValue(severity)
  }

  /** The rating of the i-th probability and the j-th severity word is (i+1)(j+1); an unknown
      probability counts 3 and an unknown severity 2. */
  lemma RiskMatrix()
    ensures forall i, j :: 0 <= i < 5 && 0 <= j < 5 ==>
      RiskRating(ProbabilityScale[i], SeverityScale[j]) == (i + 1) * (j + 1)
    ensures forall p :: p !in ProbabilityScale ==> ProbabilityValue(p) == 3
    ensures forall s :: s !in SeverityScale ==> SeverityValue(s) == 2
  {
    forall p: Probability | !p.OtherProbability? ensures p in ProbabilityScale {
      assert p == ProbabilityScale[ProbabilityValue(p) - 1];
    }
    forall s: Severity | !s.OtherSeverity? ensures s in SeverityScale {
      assert s == SeverityScale[SeverityValue(s) - 1];
    }
  }

  /** A rating never decreases when probability or severity goes up the scale. */
  lemma RiskRatingMonotone(p1: Probability, s1: Severity, p2: Probability, s2: Severity)
    requires ProbabilityValue(p1) <= ProbabilityValue(p2)
    requires SeverityValue(s1) <= SeverityValue(s2)
    ensures RiskRating(p1, s1) <= RiskRating(p2, s2)
  {
    var a1, b1, a2, b2 := ProbabilityValue(p1), SeverityValue(s1), ProbabilityValue(p2), SeverityValue(s2);
    assert a1 * b1 <= a2 * b1;
    assert a2 * b1 <= a2 * b2;
  }

  /** `_severity_to_risk_level`. */
  function SeverityToRiskLevel(severity: Severity): RiskLevel {
    match severity
    case Major => High
    case Moderate => Medium
    case Minor => Low
    case _ => Medium
  }

  /** "Major" is the only high severity and "Minor" the only low one; every other word,
      known or not, is medium, and no severity is critical. */
  lemma SeverityToRiskLevelSpec(severity: Severity)
    ensures SeverityToRiskLevel(severity) != Critical
    ensures SeverityToRiskLevel(severity) == High <==> severity == Major
    ensures SeverityToRiskLevel(severity) == Low <==> severity == Minor
    ensures SeverityToRiskLevel(severity) == Medium <==> severity != Major && severity != Minor
  {
  }

  const HighRiskKeywords: seq<string> := ["токсичн", "коррози", "взрыв", "пожар", "смерт"]
  const MediumRiskKeywords: seq<string> := ["вредн", "раздражен", "аллерги"]

  /** `_assess_risk_level`; the content argument of the source is not read. */
  function AssessRiskLevel(hazardDesc: string): RiskLevel {
    var d := Lower(hazardDesc);
    if ContainsAny(d, HighRiskKeywords) then High
    else if ContainsAny(d, MediumRiskKeywords) then Medium
    else Low
  }

  /** High keywords win over medium ones, no keyword means low, and critical is never given. */
  lemma AssessRiskLevelSpec(hazardDesc: string)
    ensures var d := Lower(hazardDesc);
      (AssessRiskLevel(hazardDesc) == High <==> ContainsAny(d, HighRiskKeywords))
      && (AssessRiskLevel(hazardDesc) == Medium <==>
            !ContainsAny(d, HighRiskKeywords) && ContainsAny(d, MediumRiskKeywords))
      && (AssessRiskLevel(hazardDesc) == Low <==>
            !ContainsAny(d, HighRiskKeywords) && !ContainsAny(d, MediumRiskKeywords))
    ensures AssessRiskLevel(hazardDesc) != Critical
  {
  }

  const MajorKeywords: seq<string> := ["смерт", "критич", "тяжел"]
  const ModerateKeywords: seq<string> := ["коррози", "ожог", "отравлен"]

  /** `_assess_severity`. */
  function AssessSeverity(hazardDesc: string): Severity {
    var d := Lower(hazardDesc);
    if ContainsAny(d, MajorKeywords) then Major
    else if ContainsAny(d, ModerateKeywords) then Moderate
    else Minor
  }

  /** The assessed severity is one of the middle three words of the scale, chosen by keyword
      with "Major" first; with probability "Medium" it rates 6, 9 or 12. */
  lemma AssessSeveritySpec(hazardDesc: string)
    ensures AssessSeverity(hazardDesc) in SeverityScale[1..4]
    ensures AssessSeverity(hazardDesc) == Major <==> ContainsAny(Lower(hazardDesc), MajorKeywords)
    ensures AssessSeverity(hazardDesc) == Minor <==>
      !ContainsAny(Lower(hazardDesc), MajorKeywords) && !ContainsAny(Lower(hazardDesc), ModerateKeywords)
    ensures RiskRating(MediumProbability, AssessSeverity(hazardDesc)) in {6, 9, 12}
  {
    assert SeverityScale[1..4] == [Minor, Moderate, Major];
  }

  // ---------------------------------------------------------------------------------------
  // Control measures

  const CorrosionMeasures: seq<string> := [
    "Использование химически стойких СИЗ",
    "Работа в вытяжном шкафу",
    "Наличие души безопасности и промывки для глаз",
    "Процедуры нейтрализации разливов"]

  const ToxicMeasures: seq<string> := [
    "Обеспечение местной вытяжной вентиляции",
    "Использование респираторов при необходимости",
    "Регулярный контроль концентраций в воздухе",
    "Медицинские осмотры персонала"]

  const IgnitionMeasures: seq<string> := [
    "Исключение источников воспламенения",
    "Использование взрывобезопасного оборудования",
    "Система пожарной сигнализации",
    "Наличие соответствующих огнетушителей"]

  const GenericMeasures: seq<string> := [
    "Обучение персонала безопасным методам работы",
    "Регулярные инструктажи по охране труда",
    "Ведение документации по безопасности"]

  /** At most this many measures are kept. */
  const MaxMeasures: nat := 5

  /** The measures for the first of corrosion, toxicity or ignition named in the description. */
  function SpecificMeasures(hazardDesc: string): seq<string> {
    var d := Lower(hazardDesc);
    if Contains(d, "коррози") then CorrosionMeasures
    else if Contains(d, "токсич") then ToxicMeasures
    else if Contains(d, "воспламен") then IgnitionMeasures
    else []
  }

  /** `_generate_control_measures`; its chemical argument is not read. */
  function ControlMeasures(hazardDesc: string): seq<string> {
    var all := SpecificMeasures(hazardDesc) + GenericMeasures;
    all[..Min(|all|, MaxMeasures)]
  }

  /** The measures are the specific ones (at most four) followed by at least one generic
      measure, five in all when a specific group applies and the three generic ones
      otherwise; corrosion takes precedence over the other groups. */
  lemma ControlMeasuresSpec(hazardDesc: string)
    ensures var r := ControlMeasures(hazardDesc); var s := SpecificMeasures(hazardDesc);
      1 <= |r| <= MaxMeasures && |s| <= 4 && |s| < |r|
      && r[..|s|] == s && r[|s|..] == GenericMeasures[..|r| - |s|]
      && GenericMeasures[0] in r
      && (|s| == 0 <==> r == GenericMeasures)
    ensures Contains(Lower(hazardDesc), "коррози") ==> ControlMeasures(hazardDesc)[..4] == CorrosionMeasures
  {
    var s := SpecificMeasures(hazardDesc);
    var r := ControlMeasures(hazardDesc);
    assert |s| == 0 || |s| == 4;
    assert r[|s|] == GenericMeasures[0];
  }

  /** `_generate_equipment_controls`: only pressure, radiation and temperature hazards get
      measures; the consequences argument is not read. */
  function EquipmentControls(hazardName: string): seq<string> {
    var n := Lower(hazardName);
    if Contains(n, "давление") then [
      "Регулярная проверка состояния фитингов и соединений",
      "Использование предохранительных клапанов",
      "Обучение персонала безопасным методам работы с давлением",
      "Процедуры сброса давления перед обслуживанием"]
    else if Contains(n, "излучение") then [
      "Использование УФ-защитных очков",
      "Ограничение времени воздействия",
      "Экранирование источников излучения",
      "Регулярный контроль уровней излучения"]
    else if Contains(n, "температур") then [
      "Использование термозащитных СИЗ",
      "Процедуры безопасного охлаждения",
      "Маркировка горячих поверхностей",
      "Обучение первой помощи при ожогах"]
    else []
  }

  /** `_generate_physical_hazard_controls`. */
  function PhysicalControls(hazardName: string): seq<string> {
    if hazardName == "Высокая температура" then
      ["Термозащитные СИЗ", "Процедуры безопасного охлаждения", "Маркировка горячих поверхностей"]
    else if hazardName == "Электрическое напряжение" then
      ["Проверка заземления оборудования", "Использование УЗО", "Обучение электробезопасности"]
    else if hazardName == "Движущиеся части" then
      ["Защитные ограждения", "Процедуры ЛОТО", "Блокировочные устройства"]
    else if hazardName == "Острые предметы" then
      ["Защитные перчатки", "Безопасная утилизация острых отходов", "Первая помощь при порезах"]
    else if hazardName == "Радиация" then
      ["Дозиметрический контроль", "Радиационная защита", "Медицинское наблюдение персонала"]
    else ["Общие меры безопасности", "Обучение персонала"]
  }

  /** `_generate_environmental_controls`. */
  function EnvironmentalControls(hazardName: string): seq<string> {
    if hazardName == "Загрязнение воздуха" then
      ["Местная вытяжная вентиляция", "Контроль выбросов", "Фильтрация отходящих газов"]
    else if hazardName == "Загрязнение воды" then
      ["Очистка сточных вод", "Контроль качества стоков", "Предотвращение попадания в канализацию"]
    else if hazardName == "Отходы" then
      ["Раздельный сбор отходов", "Лицензированная утилизация", "Минимизация образования отходов"]
    else ["Экологический мониторинг", "Соблюдение природоохранного законодательства"]
  }

  // ---------------------------------------------------------------------------------------
  // Building hazard lists
  //
  // The analyzers number the hazards they find and build each record from a few inputs. The
  // loops and the folds below are stated over the record builder `make`, so that the facts
  // about the numbering do not depend on what the record holds; the builders' own facts are
  // proved once, beside each builder.

  /** The union of what `f` gives for each hazard, hazard by hazard. */
  function Gathered<T>(hazards: seq<Hazard>, f: Hazard -> set<T>): set<T> {
    if |hazards| == 0 then {}
    else Gathered(hazards[..|hazards| - 1], f) + f(hazards[|hazards| - 1])
  }

  /** A value is gathered exactly when some hazard gives it. */
  lemma {:induction false} GatheredSpec<T(!new)>(hazards: seq<Hazard>, f: Hazard -> set<T>)
    ensures forall t :: t in Gathered(hazards, f) <==> exists i :: 0 <= i < |hazards| && t in f(hazards[i])
  {
    if |hazards| > 0 {
      var init := hazards[..|hazards| - 1];
      GatheredSpec(init, f);
      forall t | t in Gathered(hazards, f)
        ensures exists i :: 0 <= i < |hazards| && t in f(hazards[i])
      {
        if t in Gathered(init, f) {
          var i :| 0 <= i < |init| && t in f(init[i]);
          assert init[i] == hazards[i];
        } else {
          assert t in f(hazards[|hazards| - 1]);
        }
      }
      forall t | (exists i :: 0 <= i < |hazards| && t in f(hazards[i]))
        ensures t in Gathered(hazards, f)
      {
        var i :| 0 <= i < |hazards| && t in f(hazards[i]);
        if i < |init| {
          assert init[i] == hazards[i];
        }
      }
    }
  }

  // ---------------------------------------------------------------------------------------
  // Physical and environmental hazards found in the text

  /** A named hazard and the patterns that reveal it. */
  datatype PatternGroup = PatternGroup(name: string, patterns: seq<string>)

  const PhysicalPatterns: seq<PatternGroup> := [
    PatternGroup("Высокая температура", ["температур[аеы]\\s*выше\\s*\\d+", "нагрев", "горяч"]),
    PatternGroup("Электрическое напряжение", ["напряжение", "электричество", "подключение\\s+к\\s+сети"]),
    PatternGroup("Движущиеся части", ["вращени", "ротор", "центрифуг", "миксер"]),
    PatternGroup("Острые предметы", ["лезви", "игл[аы]", "скальпель", "разбитое\\s+стекло"]),
    PatternGroup("Радиация", ["радиац", "излучение", "рентген", "гамма"])]

  const EnvironmentalPatterns: seq<PatternGroup> := [
    PatternGroup("Загрязнение воздуха", ["выброс", "испарени", "пары", "аэрозол"]),
    PatternGroup("Загрязнение воды", ["слив", "промывк", "стоки"]),
    PatternGroup("Отходы", ["утилизац", "отход[ыи]", "отработанн"])]

  /** The record of the n-th physical hazard found. */
  function PhysicalHazard(n: nat, name: string): Hazard {
    Hazard("PHYS_" + Pad3(n), Physical, name, Medium, MediumProbability, Moderate, 9,
      ["ГОСТ 12.1.038-82", "ГОСТ 12.1.019-2017"], PhysicalControls(name))
  }

  /** The record of the n-th environmental hazard found, as the source writes it: rated 2. */
  function EnvironmentalHazardAsWritten(n: nat, name: string): Hazard {
    Hazard("ENV_" + Pad3(n), Environmental, name, Low, LowProbability, Minor, 2,
      ["ФЗ-7 'Об охране окружающей среды'", "СанПиН 2.1.3684-21"], EnvironmentalControls(name))
  }

  /** The record of the n-th environmental hazard found, rated by the matrix. */
  function EnvironmentalHazard(n: nat, name: string): Hazard {
    Hazard("ENV_" + Pad3(n), Environmental, name, Low, LowProbability, Minor, RiskRating(LowProbability, Minor),
      ["ФЗ-7 'Об охране окружающей среды'", "СанПиН 2.1.3684-21"], EnvironmentalControls(name))
  }

  /** The fixed rating 2 of the environmental analyzer is not Low × Minor, which is 4 on the
      matrix; the physical analyzer's 9 is Medium × Moderate. */
  lemma EnvironmentalRatingMismatch(n: nat, name: string)
    ensures !Rated(EnvironmentalHazardAsWritten(n, name))
    ensures RiskRating(LowProbability, Minor) == 4
    ensures EnvironmentalHazard(n, name) == EnvironmentalHazardAsWritten(n, name).(riskRating := 4)
    ensures Rated(PhysicalHazard(n, name))
  {
  }

  /** The builders of the two scans: numbered ids, the scan's category, the name as the
      description, matrix-consistent ratings. */
  lemma ScanBuildersSpec()
    ensures forall n: nat, name :: var h := PhysicalHazard(n, name);
      h.id == "PHYS_" + Pad3(n) && h.description == name && h.category == Physical && Rated(h)
    ensures forall n: nat, name :: var h := EnvironmentalHazard(n, name);
      h.id == "ENV_" + Pad3(n) && h.description == name && h.category == Environmental && Rated(h)
  {
    assert RiskRating(MediumProbability, Moderate) == 9;
  }

  predicate GroupMatches(g: PatternGroup, search: string -> bool) {
    exists k :: 0 <= k < |g.patterns| && search(g.patterns[k])
  }

  /** The names of the groups with a pattern that occurs, in group order. */
  function Detected(groups: seq<PatternGroup>, search: string -> bool): (r: seq<string>)
    ensures |r| <= |groups|
  {
    if |groups| == 0 then []
    else
      var g := groups[|groups| - 1];
      Detected(groups[..|groups| - 1], search) + (if GroupMatches(g, search) then [g.name] else [])
  }

  /** The hazards a scan finds: one per detected group, numbered in turn. */
  function ScanHazards(groups: seq<PatternGroup>, search: string -> bool, make: (nat, string) -> Hazard): seq<Hazard> {
    if |groups| == 0 then []
    else
      var init := ScanHazards(groups[..|groups| - 1], search, make);
      var g := groups[|groups| - 1];
      if GroupMatches(g, search) then init + [make(|init| + 1, g.name)] else init
  }

  /** `_analyze_physical_hazards` and `_analyze_environmental_hazards`: the loop over the groups
      that stops at a group's first pattern that occurs. */
  method ScanContent(groups: seq<PatternGroup>, search: string -> bool, make: (nat, string) -> Hazard)
    returns (hazards: seq<Hazard>)
    ensures hazards == ScanHazards(groups, search, make)
  {
    hazards := [];
    for i := 0 to |groups|
      invariant hazards == ScanHazards(groups[..i], search, make)
    {
      assert groups[..i + 1][..i] == groups[..i];
      var g := groups[i];
      var j := 0;
      while j < |g.patterns|
        invariant 0 <= j <= |g.patterns|
        invariant forall k :: 0 <= k < j ==> !search(g.patterns[k])
      {
        if search(g.patterns[j]) {
          hazards := hazards + [make(|hazards| + 1, g.name)];
          break;
        }
        j := j + 1;
      }
    }
    assert groups[..|groups|] == groups;
  }

  method AnalyzePhysicalHazards(search: string -> bool) returns (hazards: seq<Hazard>)
    ensures hazards == ScanHazards(PhysicalPatterns, search, PhysicalHazard)
  {
    hazards := ScanContent(PhysicalPatterns, search, PhysicalHazard);
  }

  /** `_analyze_environmental_hazards`, as written: every record is rated 2. */
  method AnalyzeEnvironmentalHazards(search: string -> bool) returns (hazards: seq<Hazard>)
    ensures hazards == ScanHazards(EnvironmentalPatterns, search, EnvironmentalHazardAsWritten)
  {
    hazards := ScanContent(EnvironmentalPatterns, search, EnvironmentalHazardAsWritten);
  }

  /** The i-th hazard found is built as number i+1 from the i-th detected name. */
  lemma {:induction false} ScanHazardsSpec(groups: seq<PatternGroup>, search: string -> bool, make: (nat, string) -> Hazard)
    ensures |ScanHazards(groups, search, make)| == |Detected(groups, search)|
    ensures forall i :: 0 <= i < |Detected(groups, search)| ==>
      ScanHazards(groups, search, make)[i] == make(i + 1, Detected(groups, search)[i])
  {
    if |groups| > 0 {
      ScanHazardsSpec(groups[..|groups| - 1], search, make);
    }
  }

  predicate DistinctNames(groups: seq<PatternGroup>) {
    forall i, j :: 0 <= i < j < |groups| ==> groups[i].name != groups[j].name
  }

  /** Every detected name is the name of a group with a pattern that occurs. */
  lemma {:induction false} DetectedMatch(groups: seq<PatternGroup>, search: string -> bool)
    ensures forall name :: name in Detected(groups, search) ==>
      exists k :: 0 <= k < |groups| && groups[k].name == name && GroupMatches(groups[k], search)
  {
    if |groups| > 0 {
      var init := groups[..|groups| - 1];
      DetectedMatch(init, search);
      forall name | name in Detected(groups, search)
        ensures exists k :: 0 <= k < |groups| && groups[k].name == name && GroupMatches(groups[k], search)
      {
        if name in Detected(init, search) {
          var k :| 0 <= k < |init| && init[k].name == name && GroupMatches(init[k], search);
          assert groups[k] == init[k];
        } else {
          assert groups[|groups| - 1].name == name;
        }
      }
    }
  }

  /** With distinct group names, a name is detected exactly when one of its group's patterns
      occurs, and at most once. */
  lemma {:induction false} DetectedSpec(groups: seq<PatternGroup>, search: string -> bool)
    requires DistinctNames(groups)
    ensures forall i, j :: 0 <= i < j < |Detected(groups, search)| ==> Detected(groups, search)[i] != Detected(groups, search)[j]
    ensures forall k :: 0 <= k < |groups| ==> (GroupMatches(groups[k], search) <==> groups[k].name in Detected(groups, search))
  {
    if |groups| > 0 {
      var init := groups[..|groups| - 1];
      var g := groups[|groups| - 1];
      assert DistinctNames(init);
      DetectedSpec(init, search);
      DetectedMatch(init, search);
      var di := Detected(init, search);
      var d := Detected(groups, search);
      forall i | 0 <= i < |di| ensures di[i] != g.name {
        assert di[i] in di;
        var k :| 0 <= k < |init| && init[k].name == di[i] && GroupMatches(init[k], search);
        assert init[k] == groups[k];
      }
      forall k | 0 <= k < |groups|
        ensures GroupMatches(groups[k], search) <==> groups[k].name in d
      {
        if k < |init| {
          assert groups[k] == init[k];
          assert groups[k].name != g.name;
        }
      }
      forall i, j | 0 <= i < j < |d| ensures d[i] != d[j] {
        assert d[i] == di[i];
        if j < |di| {
          assert d[j] == di[j];
        } else {
          assert d[j] == g.name;
        }
      }
    }
  }

  /** The two catalogues name each hazard once. */
  lemma CataloguesDistinct()
    ensures DistinctNames(PhysicalPatterns)
    ensures DistinctNames(EnvironmentalPatterns)
  {
    var p := PhysicalPatterns;
    assert |p[0].name| == 19 && |p[1].name| == 24 && |p[2].name| == 16 && |p[3].name| == 15 && |p[4].name| == 8;
    var e := EnvironmentalPatterns;
    assert |e[0].name| == 19 && |e[1].name| == 16 && |e[2].name| == 6;
  }

  /** What a scan reports, for any builder that numbers its records with `prefix`, describes
      them by the group's name, gives them category `cat` and rates them by the matrix: at
      most one hazard per group, exactly for the groups with a pattern that occurs, numbered
      from 001. */
  lemma ScanReportsFor(groups: seq<PatternGroup>, search: string -> bool, make: (nat, string) -> Hazard,
                       prefix: string, cat: HazardCategory)
    requires DistinctNames(groups)
    requires forall n: nat, name ::
      (make(n, name).id == prefix + Pad3(n) && make(n, name).description == name
       && make(n, name).category == cat && Rated(make(n, name)))
    ensures var r := ScanHazards(groups, search, make);
      |r| <= |groups| && NumberedFrom(r, prefix)
      && (forall h :: h in r ==> Rated(h) && h.category == cat)
      && (forall i, j :: 0 <= i < j < |r| ==> r[i].description != r[j].description)
      && (forall k :: 0 <= k < |groups| ==> (GroupMatches(groups[k], search) <==>
            exists i :: 0 <= i < |r| && r[i].description == groups[k].name))
  {
    ScanHazardsSpec(groups, search, make);
    DetectedSpec(groups, search);
    var d := Detected(groups, search);
    var r := ScanHazards(groups, search, make);
    forall k | 0 <= k < |groups|
      ensures GroupMatches(groups[k], search) <==> exists i :: 0 <= i < |r| && r[i].description == groups[k].name
    {
      if groups[k].name in d {
        var i :| 0 <= i < |d| && d[i] == groups[k].name;
        assert r[i].description == d[i];
      }
    }
    forall h | h in r ensures Rated(h) && h.category == cat {
      var i :| 0 <= i < |r| && r[i] == h;
    }
  }

  /** The physical scan reports each of the five named hazards at most once, exactly when one
      of its patterns occurs, as PHYS_001, PHYS_002, ..., each rated by the matrix. */
  lemma PhysicalReports(search: string -> bool)
    ensures var r := ScanHazards(PhysicalPatterns, search, PhysicalHazard);
      |r| <= 5 && NumberedFrom(r, "PHYS_")
      && (forall h :: h in r ==> Rated(h) && h.category == Physical)
      && (forall i, j :: 0 <= i < j < |r| ==> r[i].description != r[j].description)
      && (forall k :: 0 <= k < 5 ==> (GroupMatches(PhysicalPatterns[k], search) <==>
            exists i :: 0 <= i < |r| && r[i].description == PhysicalPatterns[k].name))
  {
    CataloguesDistinct();
    ScanBuildersSpec();
    ScanReportsFor(PhysicalPatterns, search, PhysicalHazard, "PHYS_", Physical);
  }

  /** The environmental scan reports each of the three named hazards at most once, exactly
      when one of its patterns occurs, as ENV_001, ENV_002, ..., each rated by the matrix. */
  lemma EnvironmentalReports(search: string -> bool)
    ensures var r := ScanHazards(EnvironmentalPatterns, search, EnvironmentalHazard);
      |r| <= 3 && NumberedFrom(r, "ENV_")
      && (forall h :: h in r ==> Rated(h) && h.category == Environmental)
      && (forall i, j :: 0 <= i < j < |r| ==> r[i].description != r[j].description)
      && (forall k :: 0 <= k < 3 ==> (GroupMatches(EnvironmentalPatterns[k], search) <==>
            exists i :: 0 <= i < |r| && r[i].description == EnvironmentalPatterns[k].name))
  {
    CataloguesDistinct();
    ScanBuildersSpec();
    ScanReportsFor(EnvironmentalPatterns, search, EnvironmentalHazard, "ENV_", Environmental);
  }

  /** The environmental scan as written reports the same hazards as the corrected one, each
      with rating 2 in place of the matrix's 4: low level, never rated by the matrix. */
  lemma EnvironmentalReportsAsWritten(search: string -> bool)
    ensures var r := ScanHazards(EnvironmentalPatterns, search, EnvironmentalHazardAsWritten);
      var c := ScanHazards(EnvironmentalPatterns, search, EnvironmentalHazard);
      |r| == |c| && (forall i :: 0 <= i < |r| ==> c[i] == r[i].(riskRating := 4))
      && forall h :: h in r ==> h.category == Environmental && h.riskLevel == Low && h.riskRating == 2 && !Rated(h)
  {
    ScanHazardsSpec(EnvironmentalPatterns, search, EnvironmentalHazardAsWritten);
    ScanHazardsSpec(EnvironmentalPatterns, search, EnvironmentalHazard);
    var r := ScanHazards(EnvironmentalPatterns, search, EnvironmentalHazardAsWritten);
    var d := Detected(EnvironmentalPatterns, search);
    forall i | 0 <= i < |r| ensures ScanHazards(EnvironmentalPatterns, search, EnvironmentalHazard)[i] == r[i].(riskRating := 4) {
      EnvironmentalRatingMismatch(i + 1, d[i]);
    }
    forall h | h in r ensures h.category == Environmental && h.riskLevel == Low && h.riskRating == 2 && !Rated(h) {
      var i :| 0 <= i < |r| && r[i] == h;
      EnvironmentalRatingMismatch(i + 1, d[i]);
    }
  }

  // ---------------------------------------------------------------------------------------
  // Chemical hazards

  /** A class of `_load_chemical_hazard_database`, with the entries the analysis reads. */
  datatype ChemicalClass = ChemicalClass(key: string, hazards: seq<string>, regulatoryClasses: seq<string>)

  const ChemicalDatabase: seq<ChemicalClass> := [
    ChemicalClass("acids", ["коррозия кожи", "серьезное повреждение глаз", "коррозия металлов"], ["H314", "H318"]),
    ChemicalClass("organic_solvents", ["легковоспламеняющиеся жидкости", "токсичность", "раздражение"],
      ["H225", "H226", "H302", "H315"]),
    ChemicalClass("bases", ["коррозия кожи", "серьезное повреждение глаз"], ["H314", "H318"]),
    ChemicalClass("oxidizers", ["может усилить пожар", "взрывоопасность при контакте"], ["H270", "H271", "H272"])]

  /** A class applies when a '_'-separated word of its key occurs in the lowered chemical name. */
  predicate ClassApplies(c: ChemicalClass, chemicalLower: string) {
    ContainsAny(chemicalLower, Split(c.key, "_"))
  }

  /** Builds the n-th record from the chemical, a hazard description and the class's codes. */
  type ChemicalBuilder = (nat, string, string, seq<string>) -> Hazard

  /** The record of the n-th chemical hazard found. */
  function ChemicalHazard(n: nat, chemical: string, hazardDesc: string, classes: seq<string>): Hazard {
    var severity := AssessSeverity(hazardDesc);
    Hazard("CHEM_" + Pad3(n), Chemical, chemical + ": " + hazardDesc, AssessRiskLevel(hazardDesc),
      MediumProbability, severity, RiskRating(MediumProbability, severity), classes, ControlMeasures(hazardDesc))
  }

  /** The chemical builder numbers its records, describes the chemical first, is chemical,
      rated by the matrix and never critical. */
  lemma ChemicalHazardSpec(n: nat, chemical: string, hazardDesc: string, classes: seq<string>)
    ensures var h := ChemicalHazard(n, chemical, hazardDesc, classes);
      h.id == "CHEM_" + Pad3(n) && h.category == Chemical && Rated(h)
      && StartsWith(h.description, chemical + ": ") && h.references == classes
  {
    AssessRiskLevelSpec(hazardDesc);
    assert (chemical + ": " + hazardDesc)[..|chemical + ": "|] == chemical + ": ";
  }

  /** The hazards of one class, numbered after the `n` already found. */
  function ClassHazards(n: nat, chemical: string, descs: seq<string>, classes: seq<string>, make: ChemicalBuilder)
    : (r: seq<Hazard>)
    ensures |r| == |descs|
    ensures forall k :: 0 <= k < |r| ==> r[k] == make(n + k + 1, chemical, descs[k], classes)
  {
    if |descs| == 0 then []
    else ClassHazards(n, chemical, descs[..|descs| - 1], classes, make)
         + [make(n + |descs|, chemical, descs[|descs| - 1], classes)]
  }

  /** The hazards of every applying class, in database order. */
  function ChemicalHazards(chemical: string, db: seq<ChemicalClass>, make: ChemicalBuilder): seq<Hazard> {
    if |db| == 0 then []
    else
      var init := ChemicalHazards(chemical, db[..|db| - 1], make);
      var c := db[|db| - 1];
      if ClassApplies(c, Lower(chemical)) then init + ClassHazards(|init|, chemical, c.hazards, c.regulatoryClasses, make)
      else init
  }

  /** The inner loop of `_analyze_chemical_hazards`: one record per hazard of the class. */
  method AppendClassHazards(hazards: seq<Hazard>, chemical: string, c: ChemicalClass, make: ChemicalBuilder)
    returns (r: seq<Hazard>)
    ensures r == hazards + ClassHazards(|hazards|, chemical, c.hazards, c.regulatoryClasses, make)
  {
    r := hazards;
    for j := 0 to |c.hazards|
      invariant r == hazards + ClassHazards(|hazards|, chemical, c.hazards[..j], c.regulatoryClasses, make)
    {
      assert c.hazards[..j + 1][..j] == c.hazards[..j];
      r := r + [make(|r| + 1, chemical, c.hazards[j], c.regulatoryClasses)];
    }
    assert c.hazards[..|c.hazards|] == c.hazards;
  }

  /** `_analyze_chemical_hazards`, with `make` building each record. */
  method AnalyzeChemicalHazards(chemical: string, db: seq<ChemicalClass>, make: ChemicalBuilder)
    returns (hazards: seq<Hazard>)
    ensures hazards == ChemicalHazards(chemical, db, make)
  {
    hazards := [];
    var chemicalLower := Lower(chemical);
    for i := 0 to |db|
      invariant hazards == ChemicalHazards(chemical, db[..i], make)
    {
      assert db[..i + 1][..i] == db[..i];
      var c := db[i];
      if ContainsAny(chemicalLower, Split(c.key, "_")) {
        hazards := AppendClassHazards(hazards, chemical, c, make);
      }
    }
    assert db[..|db|] == db;
  }

  /** The hazard descriptions of every applying class, in database order, each with its
      class's codes. */
  function ChemicalSources(chemical: string, db: seq<ChemicalClass>): seq<(string, seq<string>)> {
    if |db| == 0 then []
    else
      var c := db[|db| - 1];
      ChemicalSources(chemical, db[..|db| - 1])
      + (if ClassApplies(c, Lower(chemical)) then ClassSources(c) else [])
  }

  function ClassSources(c: ChemicalClass): (r: seq<(string, seq<string>)>)
    ensures |r| == |c.hazards|
    ensures forall k :: 0 <= k < |r| ==> r[k] == (c.hazards[k], c.regulatoryClasses)
  {
    seq(|c.hazards|, k requires 0 <= k < |c.hazards| => (c.hazards[k], c.regulatoryClasses))
  }

  /** A description is a source exactly when it is a hazard of an applying class, paired with
      that class's codes. */
  lemma {:induction false} ChemicalSourcesSpec(chemical: string, db: seq<ChemicalClass>)
    ensures forall d, codes :: (d, codes) in ChemicalSources(chemical, db) <==>
      exists c :: c in db && ClassApplies(c, Lower(chemical)) && d in c.hazards && codes == c.regulatoryClasses
  {
    if |db| > 0 {
      var init := db[..|db| - 1];
      var c := db[|db| - 1];
      ChemicalSourcesSpec(chemical, init);
      forall d, codes
        ensures (d, codes) in ChemicalSources(chemical, db) <==>
          exists c' :: c' in db && ClassApplies(c', Lower(chemical)) && d in c'.hazards && codes == c'.regulatoryClasses
      {
        if (d, codes) in ChemicalSources(chemical, db) && (d, codes) !in ChemicalSources(chemical, init) {
          var k :| 0 <= k < |ClassSources(c)| && ClassSources(c)[k] == (d, codes);
          assert c.hazards[k] == d;
        }
        if exists c' :: c' in db && ClassApplies(c', Lower(chemical)) && d in c'.hazards && codes == c'.regulatoryClasses {
          var c' :| c' in db && ClassApplies(c', Lower(chemical)) && d in c'.hazards && codes == c'.regulatoryClasses;
          if c' != c {
            assert c' in init;
          } else {
            var k :| 0 <= k < |c.hazards| && c.hazards[k] == d;
            assert ClassSources(c)[k] == (d, codes);
          }
        }
      }
    }
  }

  /** The i-th record is built as number i+1 from the i-th source. */
  lemma {:induction false} ChemicalHazardsSpec(chemical: string, db: seq<ChemicalClass>, make: ChemicalBuilder)
    ensures |ChemicalHazards(chemical, db, make)| == |ChemicalSources(chemical, db)|
    ensures forall i :: 0 <= i < |ChemicalSources(chemical, db)| ==>
      ChemicalHazards(chemical, db, make)[i]
        == make(i + 1, chemical, ChemicalSources(chemical, db)[i].0, ChemicalSources(chemical, db)[i].1)
  {
    if |db| > 0 {
      var init := db[..|db| - 1];
      var c := db[|db| - 1];
      ChemicalHazardsSpec(chemical, init, make);
      var h := ChemicalHazards(chemical, db, make);
      var hp := ChemicalHazards(chemical, init, make);
      var src := ChemicalSources(chemical, db);
      var sp := ChemicalSources(chemical, init);
      if ClassApplies(c, Lower(chemical)) {
        var extra := ClassHazards(|hp|, chemical, c.hazards, c.regulatoryClasses, make);
        var cs := ClassSources(c);
        assert h == hp + extra;
        assert src == sp + cs;
        forall i | 0 <= i < |src| ensures h[i] == make(i + 1, chemical, src[i].0, src[i].1) {
          if i < |sp| {
            assert h[i] == hp[i] && src[i] == sp[i];
          } else {
            assert h[i] == extra[i - |sp|] && src[i] == cs[i - |sp|];
          }
        }
      } else {
        assert h == hp && src == sp;
      }
    }
  }

  /** Every chemical of the list in turn (the two loops of `analyze_hazards`). */
  function ChemicalHazardsOf(chemicals: seq<string>, db: seq<ChemicalClass>, make: ChemicalBuilder): seq<Hazard> {
    if |chemicals| == 0 then []
    else ChemicalHazardsOf(chemicals[..|chemicals| - 1], db, make) + ChemicalHazards(chemicals[|chemicals| - 1], db, make)
  }

  method AnalyzeChemicals(chemicals: seq<string>, db: seq<ChemicalClass>, make: ChemicalBuilder)
    returns (hazards: seq<Hazard>)
    ensures hazards == ChemicalHazardsOf(chemicals, db, make)
  {
    hazards := [];
    for i := 0 to |chemicals|
      invariant hazards == ChemicalHazardsOf(chemicals[..i], db, make)
    {
      assert chemicals[..i + 1][..i] == chemicals[..i];
      var found := AnalyzeChemicalHazards(chemicals[i], db, make);
      hazards := hazards + found;
    }
    assert chemicals[..|chemicals|] == chemicals;
  }

  /** Chemical analyses are numbered from CHEM_001 for each chemical, name the chemical, are
      rated by the matrix and never critical. */
  lemma ChemicalReports(chemical: string, db: seq<ChemicalClass>)
    ensures var r := ChemicalHazards(chemical, db, ChemicalHazard);
      NumberedFrom(r, "CHEM_")
      && forall i :: 0 <= i < |r| ==>
           (Rated(r[i]) && r[i].category == Chemical && StartsWith(r[i].description, chemical + ": "))
  {
    ChemicalHazardsSpec(chemical, db, ChemicalHazard);
    var r := ChemicalHazards(chemical, db, ChemicalHazard);
    var src := ChemicalSources(chemical, db);
    forall i | 0 <= i < |r|
      ensures r[i].id == "CHEM_" + Pad3(i + 1) && Rated(r[i]) && r[i].category == Chemical
        && StartsWith(r[i].description, chemical + ": ")
    {
      ChemicalHazardSpec(i + 1, chemical, src[i].0, src[i].1);
    }
  }

  lemma {:induction false} ChemicalHazardsOfRated(chemicals: seq<string>, db: seq<ChemicalClass>)
    ensures forall h :: h in ChemicalHazardsOf(chemicals, db, ChemicalHazard) ==> Rated(h) && h.category == Chemical
  {
    if |chemicals| > 0 {
      ChemicalHazardsOfRated(chemicals[..|chemicals| - 1], db);
      ChemicalReports(chemicals[|chemicals| - 1], db);
      var r := ChemicalHazards(chemicals[|chemicals| - 1], db, ChemicalHazard);
      assert forall h :: h in r ==> Rated(h) && h.category == Chemical by {
        forall h | h in r ensures Rated(h) && h.category == Chemical {
          var i :| 0 <= i < |r| && r[i] == h;
        }
      }
    }
  }

  // ---------------------------------------------------------------------------------------
  // Equipment hazards

  /** A hazard of `_analyze_equipment_hazards`'s table: its name, its category (the table's
      "Physical" or "Chemical"), its severity word and its consequences. */
  datatype EquipmentHazard = EquipmentHazard(name: string, category: HazardCategory, severity: Severity, consequences: seq<string>)

  datatype EquipmentEntry = EquipmentEntry(key: string, hazards: seq<EquipmentHazard>)

  const EquipmentHazardMap: seq<EquipmentEntry> := [
    EquipmentEntry("chromatography", [
      EquipmentHazard("Высокое давление системы", Physical, Major, ["Разрыв фитингов", "Травмы от струи растворителя"]),
      EquipmentHazard("Токсичные растворители", Chemical, Moderate, ["Ингаляционное воздействие", "Контакт с кожей"]),
      EquipmentHazard("Пожароопасные растворители", Chemical, Major, ["Воспламенение", "Взрыв паров"])]),
    EquipmentEntry("spectroscopy", [
      EquipmentHazard("УФ-излучение", Physical, Moderate, ["Повреждение глаз", "Ожоги кожи"]),
      EquipmentHazard("Кварцевые компоненты", Physical, Minor, ["Порезы при разрушении", "Осколки"]),
      EquipmentHazard("Высокая температура ламп", Physical, Moderate, ["Термические ожоги"])]),
    EquipmentEntry("analytical_balance", [
      EquipmentHazard("Статическое электричество", Physical, Minor, ["Искрообразование", "Помехи измерениям"]),
      EquipmentHazard("Химически агрессивные вещества", Chemical, Moderate, ["Коррозия механизма", "Отравление"])])]

  type EquipmentBuilder = (nat, string, EquipmentHazard) -> Hazard

  /** An entry applies when its key occurs in the lowered equipment type. */
  predicate EntryApplies(e: EquipmentEntry, typeLower: string) {
    Contains(typeLower, e.key)
  }

  /** The record of the n-th equipment hazard found. */
  function EquipmentHazardAt(n: nat, equipmentType: string, e: EquipmentHazard): Hazard {
    Hazard("EQ_" + Pad3(n), if e.category == Physical then Physical else Chemical,
      e.name + " (оборудование: " + equipmentType + ")", SeverityToRiskLevel(e.severity),
      MediumProbability, e.severity, RiskRating(MediumProbability, e.severity),
      ["ГОСТ 12.2.003-91", "ISO 12100:2010"], EquipmentControls(e.name))
  }

  /** The equipment builder numbers its records, takes the level from the severity word, is
      rated by the matrix, never critical, and physical or chemical. */
  lemma EquipmentHazardSpec(n: nat, equipmentType: string, e: EquipmentHazard)
    ensures var h := EquipmentHazardAt(n, equipmentType, e);
      h.id == "EQ_" + Pad3(n) && Rated(h) && h.riskLevel == SeverityToRiskLevel(e.severity)
      && (h.category == Physical || h.category == Chemical)
  {
    SeverityToRiskLevelSpec(e.severity);
  }

  /** The hazards of one entry, numbered after the `n` already found. */
  function EntryHazards(n: nat, equipmentType: string, es: seq<EquipmentHazard>, make: EquipmentBuilder): (r: seq<Hazard>)
    ensures |r| == |es|
    ensures forall k :: 0 <= k < |r| ==> r[k] == make(n + k + 1, equipmentType, es[k])
  {
    if |es| == 0 then []
    else EntryHazards(n, equipmentType, es[..|es| - 1], make) + [make(n + |es|, equipmentType, es[|es| - 1])]
  }

  /** The hazards of every entry whose key occurs in the lowered equipment type. */
  function EquipmentHazards(equipmentType: string, entries: seq<EquipmentEntry>, make: EquipmentBuilder): seq<Hazard> {
    if |entries| == 0 then []
    else
      var init := EquipmentHazards(equipmentType, entries[..|entries| - 1], make);
      var e := entries[|entries| - 1];
      if EntryApplies(e, Lower(equipmentType)) then init + EntryHazards(|init|, equipmentType, e.hazards, make) else init
  }

  /** The inner loop of `_analyze_equipment_hazards`: one record per hazard of the entry. */
  method AppendEntryHazards(hazards: seq<Hazard>, equipmentType: string, e: EquipmentEntry, make: EquipmentBuilder)
    returns (r: seq<Hazard>)
    ensures r == hazards + EntryHazards(|hazards|, equipmentType, e.hazards, make)
  {
    r := hazards;
    for j := 0 to |e.hazards|
      invariant r == hazards + EntryHazards(|hazards|, equipmentType, e.hazards[..j], make)
    {
      assert e.hazards[..j + 1][..j] == e.hazards[..j];
      r := r + [make(|r| + 1, equipmentType, e.hazards[j])];
    }
    assert e.hazards[..|e.hazards|] == e.hazards;
  }

  /** `_analyze_equipment_hazards`, with `make` building each record. */
  method AnalyzeEquipmentHazards(equipmentType: string, entries: seq<EquipmentEntry>, make: EquipmentBuilder)
    returns (hazards: seq<Hazard>)
    ensures hazards == EquipmentHazards(equipmentType, entries, make)
  {
    hazards := [];
    var typeLower := Lower(equipmentType);
    for i := 0 to |entries|
      invariant hazards == EquipmentHazards(equipmentType, entries[..i], make)
    {
      assert entries[..i + 1][..i] == entries[..i];
      var e := entries[i];
      if EntryApplies(e, typeLower) {
        hazards := AppendEntryHazards(hazards, equipmentType, e, make);
      }
    }
    assert entries[..|entries|] == entries;
  }

  /** The hazards of every applying entry, in table order. */
  function EquipmentSources(equipmentType: string, entries: seq<EquipmentEntry>): seq<EquipmentHazard> {
    if |entries| == 0 then []
    else
      var e := entries[|entries| - 1];
      EquipmentSources(equipmentType, entries[..|entries| - 1])
      + (if EntryApplies(e, Lower(equipmentType)) then e.hazards else [])
  }

  /** An equipment hazard is a source exactly when it belongs to an applying entry. */
  lemma {:induction false} EquipmentSourcesSpec(equipmentType: string, entries: seq<EquipmentEntry>)
    ensures forall x :: x in EquipmentSources(equipmentType, entries) <==>
      exists e :: e in entries && EntryApplies(e, Lower(equipmentType)) && x in e.hazards
  {
    if |entries| > 0 {
      var init := entries[..|entries| - 1];
      var e := entries[|entries| - 1];
      EquipmentSourcesSpec(equipmentType, init);
      var tl := Lower(equipmentType);
      var src := EquipmentSources(equipmentType, entries);
      var prev := EquipmentSources(equipmentType, init);
      assert src == prev + (if EntryApplies(e, tl) then e.hazards else []);
      forall x | x in src
        ensures exists e' :: e' in entries && EntryApplies(e', tl) && x in e'.hazards
      {
        if x in prev {
          var e' :| e' in init && EntryApplies(e', tl) && x in e'.hazards;
          assert e' in entries;
        } else {
          assert e in entries && EntryApplies(e, tl) && x in e.hazards;
        }
      }
      forall x, e' | e' in entries && EntryApplies(e', tl) && x in e'.hazards
        ensures x in src
      {
        if e' != e {
          assert e' in init;
          assert x in prev;
        }
      }
    }
  }

  /** The i-th record is built as number i+1 from the i-th source. */
  lemma {:induction false} EquipmentHazardsSpec(equipmentType: string, entries: seq<EquipmentEntry>, make: EquipmentBuilder)
    ensures |EquipmentHazards(equipmentType, entries, make)| == |EquipmentSources(equipmentType, entries)|
    ensures forall i :: 0 <= i < |EquipmentSources(equipmentType, entries)| ==>
      EquipmentHazards(equipmentType, entries, make)[i] == make(i + 1, equipmentType, EquipmentSources(equipmentType, entries)[i])
  {
    if |entries| > 0 {
      EquipmentHazardsSpec(equipmentType, entries[..|entries| - 1], make);
    }
  }

  /** Equipment analyses are numbered from EQ_001, take their level from the severity word, are
      rated by the matrix and are physical or chemical. */
  lemma EquipmentReports(equipmentType: string, entries: seq<EquipmentEntry>)
    ensures var r := EquipmentHazards(equipmentType, entries, EquipmentHazardAt);
      NumberedFrom(r, "EQ_")
      && (forall i :: 0 <= i < |r| ==>
           (Rated(r[i]) && r[i].riskLevel == SeverityToRiskLevel(r[i].severity)
            && (r[i].category == Physical || r[i].category == Chemical)))
      && (forall h :: h in r ==> Rated(h))
  {
    EquipmentHazardsSpec(equipmentType, entries, EquipmentHazardAt);
    var r := EquipmentHazards(equipmentType, entries, EquipmentHazardAt);
    var src := EquipmentSources(equipmentType, entries);
    forall i | 0 <= i < |r|
      ensures r[i].id == "EQ_" + Pad3(i + 1) && Rated(r[i]) && r[i].riskLevel == SeverityToRiskLevel(r[i].severity)
        && (r[i].category == Physical || r[i].category == Chemical)
    {
      EquipmentHazardSpec(i + 1, equipmentType, src[i]);
    }
    forall h | h in r ensures Rated(h) {
      var i :| 0 <= i < |r| && r[i] == h;
    }
  }

  // ---------------------------------------------------------------------------------------
  // The whole analysis

  /** The hazards `analyze_hazards` finds before the environmental scan: the given and the
      detected chemicals, the equipment (when named) and the physical scan. */
  function LeadingHazards(chemicals: seq<string>, detected: seq<string>, equipmentType: string,
                          search: string -> bool): seq<Hazard> {
    ChemicalHazardsOf(chemicals, ChemicalDatabase, ChemicalHazard)
    + ChemicalHazardsOf(detected, ChemicalDatabase, ChemicalHazard)
    + (if equipmentType != "" then EquipmentHazards(equipmentType, EquipmentHazardMap, EquipmentHazardAt) else [])
    + ScanHazards(PhysicalPatterns, search, PhysicalHazard)
  }

  /** `analyze_hazards` as written: its environmental records carry the fixed rating 2. */
  function AnalyzedHazards(chemicals: seq<string>, detected: seq<string>, equipmentType: string,
                           search: string -> bool): seq<Hazard> {
    LeadingHazards(chemicals, detected, equipmentType, search)
    + ScanHazards(EnvironmentalPatterns, search, EnvironmentalHazardAsWritten)
  }

  /** `analyze_hazards` with the environmental records rated by the matrix. */
  function AnalyzedHazardsCorrected(chemicals: seq<string>, detected: seq<string>, equipmentType: string,
                                    search: string -> bool): seq<Hazard> {
    LeadingHazards(chemicals, detected, equipmentType, search)
    + ScanHazards(EnvironmentalPatterns, search, EnvironmentalHazard)
  }

  /** `analyze_hazards`; `detected` stands for `_detect_chemicals_in_content`'s result. */
  method AnalyzeHazards(chemicals: seq<string>, detected: seq<string>, equipmentType: string,
                        search: string -> bool) returns (hazards: seq<Hazard>)
    ensures hazards == AnalyzedHazards(chemicals, detected, equipmentType, search)
  {
    var given := AnalyzeChemicals(chemicals, ChemicalDatabase, ChemicalHazard);
    var found := AnalyzeChemicals(detected, ChemicalDatabase, ChemicalHazard);
    var equipment: seq<Hazard> := [];
    if equipmentType != "" {
      equipment := AnalyzeEquipmentHazards(equipmentType, EquipmentHazardMap, EquipmentHazardAt);
    }
    var physical := AnalyzePhysicalHazards(search);
    var environmental := AnalyzeEnvironmentalHazards(search);
    hazards := given + found + equipment + physical + environmental;
  }

  /** The chemical, equipment and physical hazards are rated by the matrix and are never
      environmental. */
  lemma LeadingHazardsRated(chemicals: seq<string>, detected: seq<string>, equipmentType: string,
                            search: string -> bool)
    ensures forall h :: h in LeadingHazards(chemicals, detected, equipmentType, search) ==>
      Rated(h) && h.category != Environmental
  {
    ChemicalHazardsOfRated(chemicals, ChemicalDatabase);
    ChemicalHazardsOfRated(detected, ChemicalDatabase);
    EquipmentReports(equipmentType, EquipmentHazardMap);
    PhysicalReports(search);
  }

  /** As written, every chemical, equipment and physical hazard is rated by the matrix, every
      environmental hazard carries 2 where the matrix gives 4, and none is critical. */
  lemma AnalyzedHazardsRated(chemicals: seq<string>, detected: seq<string>, equipmentType: string,
                             search: string -> bool)
    ensures forall h :: h in AnalyzedHazards(chemicals, detected, equipmentType, search) ==>
      h.riskLevel != Critical
      && (h.category != Environmental ==> Rated(h))
      && (h.category == Environmental ==> h.riskRating == 2 && !Rated(h))
  {
    LeadingHazardsRated(chemicals, detected, equipmentType, search);
    EnvironmentalReportsAsWritten(search);
  }

  /** With the correction every hazard is rated by the matrix, and the corrected analysis
      differs from the one as written only in the environmental ratings. */
  lemma CorrectedHazardsRated(chemicals: seq<string>, detected: seq<string>, equipmentType: string,
                              search: string -> bool)
    ensures forall h :: h in AnalyzedHazardsCorrected(chemicals, detected, equipmentType, search) ==> Rated(h)
    ensures var w := AnalyzedHazards(chemicals, detected, equipmentType, search);
      var c := AnalyzedHazardsCorrected(chemicals, detected, equipmentType, search);
      |c| == |w| && forall i :: 0 <= i < |w| ==>
        c[i] == (if w[i].category == Environmental then w[i].(riskRating := 4) else w[i])
  {
    LeadingHazardsRated(chemicals, detected, equipmentType, search);
    EnvironmentalReports(search);
    EnvironmentalReportsAsWritten(search);
    var lead := LeadingHazards(chemicals, detected, equipmentType, search);
    var w := AnalyzedHazards(chemicals, detected, equipmentType, search);
    var c := AnalyzedHazardsCorrected(chemicals, detected, equipmentType, search);
    forall i | 0 <= i < |w|
      ensures c[i] == (if w[i].category == Environmental then w[i].(riskRating := 4) else w[i])
    {
      if i < |lead| {
        assert lead[i] in lead;
      } else {
        var e := ScanHazards(EnvironmentalPatterns, search, EnvironmentalHazardAsWritten);
        assert w[i] == e[i - |lead|] && e[i - |lead|] in e;
      }
    }
  }

  // ---------------------------------------------------------------------------------------
  // Personal protective equipment

  /** An entry of `_load_ppe_specifications`. */
  datatype PpeOption = PpeOption(kind: string, standard: string, specifications: string,
                                 applications: seq<string>, replacement: string)

  /** `_load_ppe_specifications`: eye, hand and respiratory protection only. */
  const PpeDatabase: map<PpeType, seq<PpeOption>> := map[
    EyeProtection := [
      PpeOption("Защитные очки", "ГОСТ 12.4.013-85", "Класс защиты 1, оптический класс 1",
        ["химические брызги", "пыль", "УФ излучение"], "При появлении царапин или помутнения"),
      PpeOption("Защитный щиток для лица", "EN 166:2001", "Полная защита лица, антизапотевающее покрытие",
        ["кислоты", "щелочи", "горячие жидкости"], "При повреждении защитного экрана")],
    HandProtection := [
      PpeOption("Нитриловые перчатки", "EN 374-1:2016", "Толщина 0.12-0.20 мм, AQL ≤ 1.5",
        ["органические растворители", "нефтепродукты", "слабые кислоты"], "После каждого использования или при повреждении"),
      PpeOption("Неопреновые перчатки", "EN 374-1:2016", "Химическая стойкость класса 4-6",
        ["концентрированные кислоты", "щелочи", "окислители"], "После контакта с агрессивными веществами")],
    Respiratory := [
      PpeOption("Полумаска с фильтрами", "EN 140:1998 + A1:2018", "Класс защиты FFP2 или выше",
        ["пыль", "аэрозоли", "пары органических растворителей"], "Фильтры каждые 8 часов работы"),
      PpeOption("Полнолицевая маска", "EN 136:1998", "Класс 2, совместимость с фильтрами A1B1E1K1",
        ["токсичные пары", "кислотные газы", "аммиак"], "Фильтры согласно индикатору насыщения")]]

  /** Every list of the database is non-empty. */
  predicate NonEmptyOptions(db: map<PpeType, seq<PpeOption>>) {
    forall t :: t in db ==> |db[t]| > 0
  }

  /** The database holds three types, each with options. */
  lemma PpeDatabaseSpec()
    ensures PpeDatabase.Keys == {EyeProtection, HandProtection, Respiratory}
    ensures |PpeDatabase.Keys| == 3
    ensures NonEmptyOptions(PpeDatabase)
  {
  }

  const AggressiveKeywords: seq<string> := ["кислот", "щелоч", "агрессивн"]
  const VapourKeywords: seq<string> := ["пары", "газ", "аэрозол", "токсич"]
  const RadiationKeywords: seq<string> := ["уф", "излучение", "свет"]
  const SharpKeywords: seq<string> := ["острый", "режущ", "колющ"]
  const NoiseKeywords: seq<string> := ["шум", "звук"]

  /** The PPE types one hazard calls for. */
  function PpeTypesFor(h: Hazard): set<PpeType> {
    var d := Lower(h.description);
    if h.category == Chemical then
      (if ContainsAny(d, AggressiveKeywords) then {EyeProtection, HandProtection, BodyProtection} else {})
      + (if ContainsAny(d, VapourKeywords) then {Respiratory} else {})
    else if h.category == Physical then
      (if ContainsAny(d, RadiationKeywords) then {EyeProtection} else {})
      + (if ContainsAny(d, SharpKeywords) then {HandProtection} else {})
      + (if ContainsAny(d, NoiseKeywords) then {HearingProtection} else {})
    else {}
  }

  /** Only chemical and physical hazards call for PPE, and foot protection is never called for. */
  lemma PpeTypesForSpec(h: Hazard)
    ensures h.category != Chemical && h.category != Physical ==> PpeTypesFor(h) == {}
    ensures FootProtection !in PpeTypesFor(h)
    ensures BodyProtection in PpeTypesFor(h) <==>
      h.category == Chemical && ContainsAny(Lower(h.description), AggressiveKeywords)
  {
  }

  /** The first loop of `generate_ppe_requirements`: the types all the hazards call for. */
  method CollectRequiredPpe(hazards: seq<Hazard>) returns (required: set<PpeType>)
    ensures required == Gathered(hazards, PpeTypesFor)
  {
    required := {};
    for i := 0 to |hazards|
      invariant required == Gathered(hazards[..i], PpeTypesFor)
    {
      assert hazards[..i + 1][..i] == hazards[..i];
      var h := hazards[i];
      var d := Lower(h.description);
      if h.category == Chemical {
        if ContainsAny(d, AggressiveKeywords) {
          required := required + {EyeProtection, HandProtection, BodyProtection};
        }
        if ContainsAny(d, VapourKeywords) {
          required := required + {Respiratory};
        }
      } else if h.category == Physical {
        if ContainsAny(d, RadiationKeywords) {
          required := required + {EyeProtection};
        }
        if ContainsAny(d, SharpKeywords) {
          required := required + {HandProtection};
        }
        if ContainsAny(d, NoiseKeywords) {
          required := required + {HearingProtection};
        }
      }
    }
    assert hazards[..|hazards|] == hazards;
  }

  /** An option applies when one of its applications occurs in a lowered hazard description. */
  predicate Applies(o: PpeOption, hazards: seq<Hazard>) {
    exists i :: 0 <= i < |hazards| && ContainsAny(Lower(hazards[i].description), o.applications)
  }

  /** The first applying option, or the first option, or nothing when there are none. */
  function SelectPpe(options: seq<PpeOption>, hazards: seq<Hazard>): (r: Option<PpeOption>)
    ensures r.Some? <==> |options| > 0
  {
    if |options| == 0 then None
    else if Applies(options[0], hazards) then Some(options[0])
    else
      var rest := SelectPpe(options[1..], hazards);
      if rest.Some? && Applies(rest.value, hazards) then rest else Some(options[0])
  }

  /** The selection is the first option that applies. */
  lemma {:induction false} SelectPpeFirst(options: seq<PpeOption>, hazards: seq<Hazard>, i: nat)
    requires i < |options| && Applies(options[i], hazards)
    requires forall k :: 0 <= k < i ==> !Applies(options[k], hazards)
    ensures SelectPpe(options, hazards) == Some(options[i])
    decreases i
  {
    if i > 0 {
      SelectPpeFirst(options[1..], hazards, i - 1);
    }
  }

  /** When no option applies, the selection is the first option. */
  lemma {:induction false} SelectPpeDefault(options: seq<PpeOption>, hazards: seq<Hazard>)
    requires |options| > 0
    requires forall k :: 0 <= k < |options| ==> !Applies(options[k], hazards)
    ensures SelectPpe(options, hazards) == Some(options[0])
  {
    if |options| > 1 {
      SelectPpeDefault(options[1..], hazards);
    }
  }

  /** `_select_appropriate_ppe`; the operation context is not read. */
  method SelectAppropriatePpe(options: seq<PpeOption>, hazards: seq<Hazard>) returns (r: Option<PpeOption>)
    ensures r == SelectPpe(options, hazards)
  {
    for i := 0 to |options|
      invariant forall k :: 0 <= k < i ==> !Applies(options[k], hazards)
    {
      for j := 0 to |hazards|
        invariant forall m :: 0 <= m < j ==> !ContainsAny(Lower(hazards[m].description), options[i].applications)
      {
        if ContainsAny(Lower(hazards[j].description), options[i].applications) {
          SelectPpeFirst(options, hazards, i);
          return Some(options[i]);
        }
      }
    }
    if |options| == 0 {
      return None;
    }
    SelectPpeDefault(options, hazards);
    r := Some(options[0]);
  }

  /** The requirement written for a type from its selected option. */
  function RequirementFor(t: PpeType, o: PpeOption): PpeRequirement {
    PpeRequirement(t, o.kind, o.standard, Join(o.applications, ", "), o.replacement, o.standard)
  }

  /** The requirement is for a required type the database holds, written from the option
      selected for it. */
  predicate Written(r: PpeRequirement, required: set<PpeType>, db: map<PpeType, seq<PpeOption>>, hazards: seq<Hazard>)
    requires NonEmptyOptions(db)
  {
    r.ppeType in required && r.ppeType in db
    && r == RequirementFor(r.ppeType, SelectPpe(db[r.ppeType], hazards).value)
  }

  /** The second loop of `generate_ppe_requirements`: the required types are visited in an order
      the model leaves open; every type the database holds gets exactly one requirement. */
  method WritePpeRequirements(required: set<PpeType>, db: map<PpeType, seq<PpeOption>>, hazards: seq<Hazard>)
    returns (reqs: seq<PpeRequirement>)
    requires NonEmptyOptions(db)
    ensures forall k :: 0 <= k < |reqs| ==> Written(reqs[k], required, db, hazards)
    ensures forall t :: t in required && t in db ==> exists k :: 0 <= k < |reqs| && reqs[k].ppeType == t
    ensures forall i, j :: 0 <= i < j < |reqs| ==> reqs[i].ppeType != reqs[j].ppeType
  {
    reqs := [];
    var remaining := required;
    while remaining != {}
      invariant remaining <= required
      invariant forall k :: 0 <= k < |reqs| ==> Written(reqs[k], required, db, hazards) && reqs[k].ppeType !in remaining
      invariant forall t :: t in required - remaining && t in db ==> exists k :: 0 <= k < |reqs| && reqs[k].ppeType == t
      invariant forall i, j :: 0 <= i < j < |reqs| ==> reqs[i].ppeType != reqs[j].ppeType
      decreases remaining
    {
      var t :| t in remaining;
      ghost var before := reqs;
      if t in db {
        var selected := SelectAppropriatePpe(db[t], hazards);
        reqs := reqs + [RequirementFor(t, selected.value)];
        assert reqs[|reqs| - 1].ppeType == t;
      }
      forall u | u in required - (remaining - {t}) && u in db
        ensures exists k :: 0 <= k < |reqs| && reqs[k].ppeType == u
      {
        if u != t {
          var k :| 0 <= k < |before| && before[k].ppeType == u;
          assert reqs[k] == before[k];
        } else {
          assert reqs[|reqs| - 1].ppeType == u;
        }
      }
      remaining := remaining - {t};
    }
  }

  /** Requirements of distinct types the database holds are at most as many as its types. */
  lemma {:induction false} DistinctPpeBound(reqs: seq<PpeRequirement>, keys: set<PpeType>)
    requires forall k :: 0 <= k < |reqs| ==> reqs[k].ppeType in keys
    requires forall i, j :: 0 <= i < j < |reqs| ==> reqs[i].ppeType != reqs[j].ppeType
    ensures |reqs| <= |keys|
  {
    if |reqs| > 0 {
      var last := reqs[|reqs| - 1].ppeType;
      DistinctPpeBound(reqs[..|reqs| - 1], keys - {last});
    }
  }

  /** `generate_ppe_requirements`. */
  method GeneratePpeRequirements(hazards: seq<Hazard>, db: map<PpeType, seq<PpeOption>>)
    returns (reqs: seq<PpeRequirement>)
    requires NonEmptyOptions(db)
    ensures forall k :: 0 <= k < |reqs| ==> Written(reqs[k], Gathered(hazards, PpeTypesFor), db, hazards)
    ensures forall t :: t in Gathered(hazards, PpeTypesFor) && t in db ==> exists k :: 0 <= k < |reqs| && reqs[k].ppeType == t
    ensures forall i, j :: 0 <= i < j < |reqs| ==> reqs[i].ppeType != reqs[j].ppeType
    ensures |reqs| <= |db.Keys|
  {
    var required := CollectRequiredPpe(hazards);
    reqs := WritePpeRequirements(required, db, hazards);
    DistinctPpeBound(reqs, db.Keys);
  }

  // ---------------------------------------------------------------------------------------
  // Emergency scenarios

  datatype Scenario = ChemicalSpill | FireEmergency | InjuryEmergency

  const FireKeywords: seq<string> := ["воспламен", "горюч", "взрыв"]

  /** The scenarios one hazard calls for. */
  function ScenariosFor(h: Hazard): set<Scenario> {
    if h.category == Chemical then
      {ChemicalSpill} + (if ContainsAny(Lower(h.description), FireKeywords) then {FireEmergency} else {})
    else if h.riskLevel == High || h.riskLevel == Critical then {InjuryEmergency}
    else {}
  }

  /** The scenario selection of `generate_emergency_procedures_content`. */
  method SelectScenarios(hazards: seq<Hazard>) returns (scenarios: set<Scenario>)
    ensures scenarios == Gathered(hazards, ScenariosFor)
  {
    scenarios := {};
    for i := 0 to |hazards|
      invariant scenarios == Gathered(hazards[..i], ScenariosFor)
    {
      assert hazards[..i + 1][..i] == hazards[..i];
      var h := hazards[i];
      if h.category == Chemical {
        scenarios := scenarios + {ChemicalSpill};
        if ContainsAny(Lower(h.description), FireKeywords) {
          scenarios := scenarios + {FireEmergency};
        }
      } else if h.riskLevel == High || h.riskLevel == Critical {
        scenarios := scenarios + {InjuryEmergency};
      }
    }
    assert hazards[..|hazards|] == hazards;
  }

  /** What one hazard calls for, scenario by scenario. */
  lemma ScenariosForSpec(h: Hazard)
    ensures ChemicalSpill in ScenariosFor(h) <==> h.category == Chemical
    ensures FireEmergency in ScenariosFor(h) <==> h.category == Chemical && ContainsAny(Lower(h.description), FireKeywords)
    ensures InjuryEmergency in ScenariosFor(h) <==> h.category != Chemical && (h.riskLevel == High || h.riskLevel == Critical)
  {
  }

  /** A spill procedure is given exactly when there is a chemical hazard, a fire procedure
      exactly when a chemical hazard names ignition, burning or explosion, and an injury
      procedure exactly when a non-chemical hazard is high or critical. */
  lemma RelevantScenariosSpec(hazards: seq<Hazard>)
    ensures ChemicalSpill in Gathered(hazards, ScenariosFor) <==>
      exists i :: 0 <= i < |hazards| && hazards[i].category == Chemical
    ensures FireEmergency in Gathered(hazards, ScenariosFor) <==>
      exists i :: 0 <= i < |hazards| && hazards[i].category == Chemical
        && ContainsAny(Lower(hazards[i].description), FireKeywords)
    ensures InjuryEmergency in Gathered(hazards, ScenariosFor) <==>
      exists i :: 0 <= i < |hazards| && hazards[i].category != Chemical
        && (hazards[i].riskLevel == High || hazards[i].riskLevel == Critical)
  {
    GatheredSpec(hazards, ScenariosFor);
    forall i | 0 <= i < |hazards| {
      ScenariosForSpec(hazards[i]);
    }
  }

  // ---------------------------------------------------------------------------------------
  // The emergency-procedure table

  /** `EmergencyProcedure`, a dataclass whose seven fields are all required: the two
      procedures are typed `Optional[str]` but have no default. The action, notification,
      reporting and contact lists are not part of this model. */
  datatype EmergencyProcedure = EmergencyProcedure(scenario: string, evacuation: Option<string>, cleanup: Option<string>)

  /** A keyword argument of a call: passed, or left out of the call. */
  datatype Arg<T> = Passed(value: T) | Omitted

  /** One `EmergencyProcedure(...)` call of `_load_emergency_procedures`, under the key it is
      stored with; the other five arguments are passed by every call. */
  datatype EmergencyCall = EmergencyCall(key: Scenario, scenario: string,
                                         evacuation: Arg<Option<string>>, cleanup: Arg<Option<string>>)

  /** The three calls as the loader writes them: the spill leaves out the evacuation
      procedure, the fire the clean-up procedure, the injury both. */
  const EmergencyCalls: seq<EmergencyCall> := [
    EmergencyCall(ChemicalSpill, "Разлив химических веществ", Omitted,
                  Passed(Some("Нейтрализация согласно SDS вещества, утилизация как опасные отходы"))),
    EmergencyCall(FireEmergency, "Пожар или возгорание",
                  Passed(Some("Эвакуация по планам эвакуации, сбор в назначенном месте")), Omitted),
    EmergencyCall(InjuryEmergency, "Несчастный случай с пострадавшим", Omitted, Omitted)]

  /** A call as Python runs it: a left-out required argument raises `TypeError` (`None`). */
  function CallAsWritten(c: EmergencyCall): (r: Option<EmergencyProcedure>)
    ensures r.Some? <==> c.evacuation.Passed? && c.cleanup.Passed?
  {
    if c.evacuation.Passed? && c.cleanup.Passed? then Some(EmergencyProcedure(c.scenario, c.evacuation.value, c.cleanup.value))
    else None
  }

  /** `_load_emergency_procedures` as written: the dict display evaluates the calls in order,
      and the first that raises ends the integrator's constructor (`None`). */
  function LoadEmergencyProceduresAsWritten(calls: seq<EmergencyCall>): Option<map<Scenario, EmergencyProcedure>> {
    if |calls| == 0 then Some(map[])
    else match CallAsWritten(calls[0])
      case None => None
      case Some(proc) =>
        match LoadEmergencyProceduresAsWritten(calls[1..])
        case None => None
        case Some(rest) => Some(rest[calls[0].key := proc])
  }

  /** A call with a left-out procedure taking `None`, as its `Optional` type intends. */
  function CallWithDefaults(c: EmergencyCall): EmergencyProcedure {
    EmergencyProcedure(c.scenario, if c.evacuation.Passed? then c.evacuation.value else None,
                       if c.cleanup.Passed? then c.cleanup.value else None)
  }

  /** The table the loader is evidently meant to build. */
  function LoadEmergencyProcedures(calls: seq<EmergencyCall>): (t: map<Scenario, EmergencyProcedure>)
    ensures t.Keys == set c | c in calls :: c.key
  {
    if |calls| == 0 then map[]
    else
      var rest := LoadEmergencyProcedures(calls[1..]);
      assert forall c :: c in calls <==> c == calls[0] || c in calls[1..];
      rest[calls[0].key := CallWithDefaults(calls[0])]
  }

  /** As written, every one of the three calls raises, so the table is never built and no
      `ProfessionalSafetyIntegrator` is ever constructed. */
  lemma IntegratorConstructorRaises()
    ensures forall i :: 0 <= i < |EmergencyCalls| ==> CallAsWritten(EmergencyCalls[i]) == None
    ensures LoadEmergencyProceduresAsWritten(EmergencyCalls) == None
  {
  }

  /** The corrected table holds a procedure for each of the three scenarios, so every scenario
      the hazards call for is found; only the spill has a clean-up procedure and only the fire
      an evacuation procedure. */
  lemma EmergencyTableSpec(hazards: seq<Hazard>)
    ensures var t := LoadEmergencyProcedures(EmergencyCalls);
      t.Keys == {ChemicalSpill, FireEmergency, InjuryEmergency}
      && Gathered(hazards, ScenariosFor) <= t.Keys
      && t[ChemicalSpill].cleanup.Some? && t[ChemicalSpill].evacuation.None?
      && t[FireEmergency].evacuation.Some? && t[FireEmergency].cleanup.None?
      && t[InjuryEmergency].evacuation.None? && t[InjuryEmergency].cleanup.None?
  {
    var t := LoadEmergencyProcedures(EmergencyCalls);
    assert EmergencyCalls[0] in EmergencyCalls && EmergencyCalls[1] in EmergencyCalls && EmergencyCalls[2] in EmergencyCalls;
    assert t.Keys == {ChemicalSpill, FireEmergency, InjuryEmergency};
    forall x: Scenario ensures x in t.Keys {
      match x
      case ChemicalSpill =>
      case FireEmergency =>
      case InjuryEmergency =>
    }
  }

  // ---------------------------------------------------------------------------------------
  // Score and gaps

  /** `_calculate_safety_integration_score`. */
  function SafetyIntegrationScore(hazardCount: nat, ppeCount: nat): int {
    Min(70 + Min(hazardCount * 2, 15) + Min(ppeCount * 3, 10) + 5, 100)
  }

  /** The score lies in [75, 100], never falls when hazards or PPE are added, and is 100
      exactly when there are at least 8 hazards and 4 PPE requirements; the final cap at 100
      never binds. */
  lemma SafetyIntegrationScoreSpec(h1: nat, p1: nat, h2: nat, p2: nat)
    ensures 75 <= SafetyIntegrationScore(h1, p1) <= 100
    ensures h1 <= h2 && p1 <= p2 ==> SafetyIntegrationScore(h1, p1) <= SafetyIntegrationScore(h2, p2)
    ensures SafetyIntegrationScore(h1, p1) == 100 <==> h1 >= 8 && p1 >= 4
    ensures SafetyIntegrationScore(h1, p1) == 75 + Min(h1 * 2, 15) + Min(p1 * 3, 10)
  {
  }

  datatype SafetyGap = NoEmergencyProcedures | NoPpeInformation | UncontrolledCriticalRisks | NoStandardReferences

  function GapMessage(g: SafetyGap): string {
    match g
    case NoEmergencyProcedures => "Отсутствуют процедуры реагирования на аварийные ситуации"
    case NoPpeInformation => "Недостаточная информация о требуемых СИЗ"
    case UncontrolledCriticalRisks => "Выявлены критические риски, требующие дополнительных мер контроля"
    case NoStandardReferences => "Отсутствуют ссылки на применимые стандарты безопасности"
  }

  const EmergencyPattern: string := "аварий|чрезвычай|экстрен"
  const PpePattern: string := "сиз|защитн.*средств|перчатк|очк"
  const StandardPattern: string := "гост|санпин|iso|стандарт"

  function CriticalCount(hazards: seq<Hazard>): (n: nat)
    ensures n <= |hazards|
  {
    if |hazards| == 0 then 0
    else CriticalCount(hazards[..|hazards| - 1]) + (if hazards[|hazards| - 1].riskLevel == Critical then 1 else 0)
  }

  lemma {:induction false} NoCriticalCount(hazards: seq<Hazard>)
    requires forall h :: h in hazards ==> h.riskLevel != Critical
    ensures CriticalCount(hazards) == 0
  {
    if |hazards| > 0 {
      NoCriticalCount(hazards[..|hazards| - 1]);
      assert hazards[|hazards| - 1] in hazards;
    }
  }

  /** `_identify_critical_safety_gaps`. */
  function CriticalSafetyGaps(search: string -> bool, hazards: seq<Hazard>): seq<SafetyGap> {
    (if !search(EmergencyPattern) then [NoEmergencyProcedures] else [])
    + (if !search(PpePattern) then [NoPpeInformation] else [])
    + (if CriticalCount(hazards) > 2 then [UncontrolledCriticalRisks] else [])
    + (if !search(StandardPattern) then [NoStandardReferences] else [])
  }

  /** Each gap is reported exactly when its check fails, at most once, so there are at most
      four. */
  lemma CriticalSafetyGapsSpec(search: string -> bool, hazards: seq<Hazard>)
    ensures var r := CriticalSafetyGaps(search, hazards);
      |r| <= 4
      && (NoEmergencyProcedures in r <==> !search(EmergencyPattern))
      && (NoPpeInformation in r <==> !search(PpePattern))
      && (UncontrolledCriticalRisks in r <==> CriticalCount(hazards) > 2)
      && (NoStandardReferences in r <==> !search(StandardPattern))
      && (forall i, j :: 0 <= i < j < |r| ==> r[i] != r[j])
  {
  }

  /** `perform_comprehensive_safety_integration` without its text sections: the analysis as
      written (environmental hazards rated 2), its PPE, its score and its gaps. The analyzers
      never rate a hazard critical, so the
      critical-risk gap cannot be reported; and with a PPE table of at most three types, as the
      source's `PpeDatabase` is, the score stays below 100. */
  method PerformSafetyIntegration(chemicals: seq<string>, detected: seq<string>, equipmentType: string,
                                  search: string -> bool, ppeDb: map<PpeType, seq<PpeOption>>)
    returns (hazards: seq<Hazard>, ppe: seq<PpeRequirement>, score: int, gaps: seq<SafetyGap>)
    requires NonEmptyOptions(ppeDb)
    ensures hazards == AnalyzedHazards(chemicals, detected, equipmentType, search)
    ensures |ppe| <= |ppeDb.Keys|
    ensures score == SafetyIntegrationScore(|hazards|, |ppe|)
    ensures gaps == CriticalSafetyGaps(search, hazards)
    ensures UncontrolledCriticalRisks !in gaps
    ensures 75 <= score <= 100 && (|ppeDb.Keys| <= 3 ==> score < 100)
  {
    hazards := AnalyzeHazards(chemicals, detected, equipmentType, search);
    ppe := GeneratePpeRequirements(hazards, ppeDb);
    score := SafetyIntegrationScore(|hazards|, |ppe|);
    gaps := CriticalSafetyGaps(search, hazards);
    AnalyzedHazardsRated(chemicals, detected, equipmentType, search);
    NoCriticalCount(hazards);
    CriticalSafetyGapsSpec(search, hazards);
  }
}
