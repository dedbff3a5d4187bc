/**
 * sop_generator/utils/section_validator.py: the nine mandatory SOP sections and the rule
 * based checks of a generated SOP against them. Every regular-expression search of the
 * source is an input here: which section headers are present, the matches of the
 * technical-detail and safety patterns, and the text the section pattern extracts.
 */
module SectionValidator {
  import opened Text
  import opened Wrappers
  import opened Records

  /** `SectionRequirement`: a mandatory section's title, keywords, minimum length and
      description. */
  datatype Requirement = Requirement(title: string, keywords: seq<string>, minLength: nat, description: string)

  /** `MANDATORY_SECTIONS`, in the source's order. */
  const MandatorySections: seq<Requirement> := [
    Requirement("Цель и область применения", ["цель", "область применения", "ограничения", "исключения"], 150,
                "Must define purpose, scope, limitations and exclusions"),
    Requirement("Ответственность и обучение", ["ответственный", "квалификация", "обучение", "сертификация"], 100,
                "Must define roles, responsibilities and training requirements"),
    Requirement("Анализ рисков и безопасность", ["риск", "опасность", "СИЗ", "безопасность", "предупреждение"], 200,
                "Must include detailed hazard analysis and safety measures"),
    Requirement("Оборудование и материалы", ["оборудование", "материалы", "спецификация", "модель"], 150,
                "Must list equipment with specifications and part numbers"),
    Requirement("Пошаговые процедуры", ["шаг", "процедура", "параметр", "диапазон", "критерий"], 300,
                "Must contain detailed steps with parameters and success criteria"),
    Requirement("Контроль качества", ["качество", "контроль", "критерий", "приемка", "валидация"], 120,
                "Must define quality control measures and acceptance criteria"),
    Requirement("Документооборот и записи", ["документ", "запись", "регистрация", "архив"], 80,
                "Must specify documentation and record keeping requirements"),
    Requirement("Нормативные ссылки", ["ГОСТ", "стандарт", "норматив", "ссылка", "ISO"], 50,
                "Must reference applicable standards and regulations"),
    Requirement("Устранение неисправностей", ["неисправность", "проблема", "решение", "диагностика", "устранение"], 100,
                "Must include troubleshooting procedures")
  ]

  /** There are exactly nine mandatory sections. */
  lemma NineMandatorySections()
    ensures |MandatorySections| == 9
    ensures MandatorySections[0].title == "Цель и область применения"
    ensures MandatorySections[8].title == "Устранение неисправностей"
  {
  }

  /** The titles of the requirements, in order. */
  function Titles(reqs: seq<Requirement>): (r: seq<string>)
    ensures |r| == |reqs|
  {
    seq(|reqs|, i requires 0 <= i < |reqs| => reqs[i].title)
  }

  // ---------------------------------------------------------------------------------
  // validate_section_presence
  // ---------------------------------------------------------------------------------

  /** The titles, in order, whose header search succeeds. */
  function FoundTitles(reqs: seq<Requirement>, present: string -> bool): seq<string> {
    if |reqs| == 0 then []
    else FoundTitles(reqs[..|reqs| - 1], present)
         + (if present(reqs[|reqs| - 1].title) then [reqs[|reqs| - 1].title] else [])
  }

  /** The titles, in order, whose header search fails. */
  function MissingTitles(reqs: seq<Requirement>, present: string -> bool): seq<string> {
    if |reqs| == 0 then []
    else MissingTitles(reqs[..|reqs| - 1], present)
         + (if present(reqs[|reqs| - 1].title) then [] else [reqs[|reqs| - 1].title])
  }

  /** The loop of `validate_section_presence` over the given requirements. */
  method PartitionTitles(reqs: seq<Requirement>, present: string -> bool) returns (found: seq<string>, missing: seq<string>)
    ensures found == FoundTitles(reqs, present) && missing == MissingTitles(reqs, present)
  {
    found := [];
    missing := [];
    for i := 0 to |reqs|
      invariant found == FoundTitles(reqs[..i], present) && missing == MissingTitles(reqs[..i], present)
    {
      assert reqs[..i + 1][..i] == reqs[..i];
      if present(reqs[i].title) {
        found := found + [reqs[i].title];
      } else {
        missing := missing + [reqs[i].title];
      }
    }
    assert reqs[..|reqs|] == reqs;
  }

  /** `validate_section_presence` (section_validator.py:94-121); `present(title)` says
      whether one of the four header patterns of `title` matches the lower-cased content. */
  method ValidateSectionPresence(present: string -> bool) returns (found: seq<string>, missing: seq<string>)
    ensures found == FoundTitles(MandatorySections, present)
    ensures missing == MissingTitles(MandatorySections, present)
  {
    found, missing := PartitionTitles(MandatorySections, present);
  }

  /** The found and missing lists partition the titles: together they hold every title,
      as many entries as there are requirements, each list in the requirements' order, and
      a title is found exactly when its search succeeds, so no title is in both. */
  lemma {:induction false} PresencePartition(reqs: seq<Requirement>, present: string -> bool)
    ensures |FoundTitles(reqs, present)| + |MissingTitles(reqs, present)| == |reqs|
    ensures forall t :: t in FoundTitles(reqs, present) ==> present(t)
    ensures forall t :: t in MissingTitles(reqs, present) ==> !present(t)
    ensures forall i :: 0 <= i < |reqs| ==>
      (present(reqs[i].title) ==> reqs[i].title in FoundTitles(reqs, present))
      && (!present(reqs[i].title) ==> reqs[i].title in MissingTitles(reqs, present))
    ensures IsSubseq(FoundTitles(reqs, present), Titles(reqs))
    ensures IsSubseq(MissingTitles(reqs, present), Titles(reqs))
  {
    if |reqs| > 0 {
      var init := reqs[..|reqs| - 1];
      var last := reqs[|reqs| - 1].title;
      PresencePartition(init, present);
      assert Titles(reqs) == Titles(init) + [last];
      forall i | 0 <= i < |reqs| - 1
        ensures (present(reqs[i].title) ==> reqs[i].title in FoundTitles(reqs, present))
             && (!present(reqs[i].title) ==> reqs[i].title in MissingTitles(reqs, present))
      {
        assert reqs[i] == init[i];
      }
      if present(last) {
        assert MissingTitles(reqs, present) == MissingTitles(init, present);
        SubseqAppendBoth(FoundTitles(init, present), Titles(init), last);
        SubseqAppendRight(MissingTitles(init, present), Titles(init), last);
      } else {
        assert FoundTitles(reqs, present) == FoundTitles(init, present);
        SubseqAppendRight(FoundTitles(init, present), Titles(init), last);
        SubseqAppendBoth(MissingTitles(init, present), Titles(init), last);
      }
    }
  }

  // ---------------------------------------------------------------------------------
  // validate_technical_depth and validate_safety_integration
  // ---------------------------------------------------------------------------------

  /** The result of a pattern-count check: the number of matches, whether it reaches the
      threshold, and the first few matches as examples. */
  datatype MatchReport = MatchReport(count: nat, sufficient: bool, examples: seq<string>)

  /** The report over all matches, with a threshold and a cap on the examples. */
  function Report(matches: seq<string>, threshold: nat, cap: nat): (r: MatchReport)
    ensures r.count == |matches| && (r.sufficient <==> |matches| >= threshold)
    ensures |r.examples| == Min(|matches|, cap) && r.examples == matches[..|r.examples|]
  {
    MatchReport(|matches|, |matches| >= threshold, matches[..Min(|matches|, cap)])
  }

  /** `validate_technical_depth` (section_validator.py:123-135): the matches of each of the
      six patterns, in pattern order; detail suffices from 5 matches, 10 examples are kept. */
  method ValidateTechnicalDepth(perPattern: seq<seq<string>>) returns (r: MatchReport)
    ensures r == Report(Flatten(perPattern), 5, 10)
  {
    var matches := ExtendAll(perPattern);
    r := MatchReport(|matches|, |matches| >= 5, matches[..Min(|matches|, 10)]);
  }

  /** `validate_safety_integration` (section_validator.py:137-149): the matches of each of
      the four patterns; safety is integrated from 3 matches, 5 examples are kept. */
  method ValidateSafetyIntegration(perPattern: seq<seq<string>>) returns (r: MatchReport)
    ensures r == Report(Flatten(perPattern), 3, 5)
  {
    var matches := ExtendAll(perPattern);
    r := MatchReport(|matches|, |matches| >= 3, matches[..Min(|matches|, 5)]);
  }

  // ---------------------------------------------------------------------------------
  // validate_section_content_quality
  // ---------------------------------------------------------------------------------

  /** The quality entry of one mandatory section. */
  datatype SectionQuality =
    | Absent
    | Present(length: nat, meetsMinLength: bool, keywordsFound: seq<string>, sufficientKeywords: bool, score: real)

  /** The quality score of an entry, 0 for an absent section. */
  function ScoreOf(q: SectionQuality): real {
    if q.Absent? then 0.0 else q.score
  }

  /** The keywords, in order, whose lower case occurs in the lower-cased text. */
  function KeywordMatches(keywords: seq<string>, text: string): seq<string> {
    if |keywords| == 0 then []
    else KeywordMatches(keywords[..|keywords| - 1], text)
         + (if Contains(Lower(text), Lower(keywords[|keywords| - 1])) then [keywords[|keywords| - 1]] else [])
  }

  /** A keyword is kept exactly when it occurs, case-insensitively, and the kept ones are
      in the keywords' order. */
  lemma {:induction false} KeywordMatchesSpec(keywords: seq<string>, text: string)
    ensures forall k :: k in KeywordMatches(keywords, text) <==> k in keywords && Contains(Lower(text), Lower(k))
    ensures IsSubseq(KeywordMatches(keywords, text), keywords)
  {
    if |keywords| > 0 {
      var init := keywords[..|keywords| - 1];
      var last := keywords[|keywords| - 1];
      KeywordMatchesSpec(init, text);
      assert keywords == init + [last];
      if Contains(Lower(text), Lower(last)) {
        SubseqAppendBoth(KeywordMatches(init, text), init, last);
      } else {
        assert KeywordMatches(keywords, text) == KeywordMatches(init, text);
        SubseqAppendRight(KeywordMatches(init, text), init, last);
      }
    }
  }

  /** The quality entry for a section whose pattern extracted `extracted`. */
  function QualityOf(req: Requirement, extracted: Option<string>): (r: SectionQuality)
    ensures r.Absent? <==> extracted.None?
    ensures r.Present? ==>
      r.length == |extracted.value|
      && (r.meetsMinLength <==> |extracted.value| >= req.minLength)
      && r.keywordsFound == KeywordMatches(req.keywords, extracted.value)
      && (r.sufficientKeywords <==> |r.keywordsFound| >= |req.keywords| / 2)
  {
    match extracted
    case None => Absent
    case Some(text) =>
      var meets := |text| >= req.minLength;
      var found := KeywordMatches(req.keywords, text);
      var has := |found| >= |req.keywords| / 2;
      Present(|text|, meets, found, has, ((if meets then 1 else 0) + (if has then 1 else 0)) as real / 2.0)
  }

  /** The quality score is 0, 0.5 or 1: 1 exactly when the section is present, long
      enough and has enough keywords, and 0 when it is absent. */
  lemma QualityScoreSpec(req: Requirement, extracted: Option<string>)
    ensures var q := QualityOf(req, extracted);
      (ScoreOf(q) == 0.0 || ScoreOf(q) == 0.5 || ScoreOf(q) == 1.0)
      && (ScoreOf(q) == 1.0 <==> q.Present? && q.meetsMinLength && q.sufficientKeywords)
      && (q.Absent? ==> ScoreOf(q) == 0.0)
  {
  }

  /** A quality entry under its section title (the dict of the source, in insertion order). */
  datatype TitledQuality = TitledQuality(title: string, quality: SectionQuality)

  /** The entries for the given requirements. */
  function QualityTable(reqs: seq<Requirement>, extract: string -> Option<string>): (r: seq<TitledQuality>)
    ensures |r| == |reqs|
  {
    seq(|reqs|, i requires 0 <= i < |reqs| => TitledQuality(reqs[i].title, QualityOf(reqs[i], extract(reqs[i].title))))
  }

  /** The loop of `validate_section_content_quality` over the given requirements. */
  method QualityLoop(reqs: seq<Requirement>, extract: string -> Option<string>) returns (r: seq<TitledQuality>)
    ensures r == QualityTable(reqs, extract)
  {
    r := [];
    for i := 0 to |reqs|
      invariant r == QualityTable(reqs[..i], extract)
    {
      r := r + [TitledQuality(reqs[i].title, QualityOf(reqs[i], extract(reqs[i].title)))];
    }
    assert reqs[..|reqs|] == reqs;
  }

  /** `validate_section_content_quality` (section_validator.py:151-186); `extract(title)` is
      the text the section pattern of `title` matches, if any. */
  method ValidateSectionContentQuality(extract: string -> Option<string>) returns (r: seq<TitledQuality>)
    ensures r == QualityTable(MandatorySections, extract)
  {
    r := QualityLoop(MandatorySections, extract);
  }

  /** Each entry is under its section's title and reports that section's extracted text. */
  lemma QualityTableSpec(reqs: seq<Requirement>, extract: string -> Option<string>, i: nat)
    requires i < |reqs|
    ensures QualityTable(reqs, extract)[i].title == reqs[i].title
    ensures QualityTable(reqs, extract)[i].quality.Absent? <==> extract(reqs[i].title).None?
  {
  }

  // ---------------------------------------------------------------------------------
  // comprehensive_validation and _generate_recommendations
  // ---------------------------------------------------------------------------------

  const MissingSectionsAdvice: string := "Добавить обязательные разделы: "
  const DetailAdvice: string :=
    "Увеличить техническую детализацию: добавить конкретные параметры, "
    + "диапазоны значений, настройки оборудования и критерии успеха"
  const SafetyAdvice: string :=
    "Усилить интеграцию безопасности: добавить предупреждения в процедурные шаги, "
    + "детализировать требования к СИЗ, включить аварийные процедуры"

  /** `_generate_recommendations` (section_validator.py:237-260). */
  function Recommendations(missing: seq<string>, detail: bool, safety: bool): (r: seq<string>)
    ensures |r| == (if |missing| > 0 then 1 else 0) + (if detail then 0 else 1) + (if safety then 0 else 1)
    ensures |r| <= 3
    ensures |missing| > 0 ==> r[0] == MissingSectionsAdvice + Join(missing, ", ")
    ensures !safety ==> r[|r| - 1] == SafetyAdvice
    ensures !detail ==> DetailAdvice in r
  {
    (if |missing| > 0 then [MissingSectionsAdvice + Join(missing, ", ")] else [])
    + (if detail then [] else [DetailAdvice])
    + (if safety then [] else [SafetyAdvice])
  }

  /** The overall figures of `comprehensive_validation`. */
  datatype Overall = Overall(productionReady: bool, qualityScore: real, completenessPercentage: real)

  /** What `comprehensive_validation` returns. */
  datatype Validation = Validation(overall: Overall, found: seq<string>, missing: seq<string>,
                                   sectionQuality: seq<TitledQuality>, technical: MatchReport,
                                   safety: MatchReport, recommendations: seq<string>)

  /** 1 for true and 0 for false (Python's `bool * float`). */
  function Indicator(b: bool): real {
    if b then 1.0 else 0.0
  }

  /** The overall figures: completeness is the found fraction of the nine sections, the
      score weighs it 0.4 and each of the two pattern checks 0.3, and the document is
      ready when nothing is missing, both checks pass and the score reaches 0.8. */
  function OverallOf(found: seq<string>, missing: seq<string>, technical: MatchReport, safety: MatchReport): Overall {
    var completeness := |found| as real / 9.0;
    var score := completeness * 0.4 + Indicator(technical.sufficient) * 0.3 + Indicator(safety.sufficient) * 0.3;
    Overall(|missing| == 0 && technical.sufficient && safety.sufficient && score >= 0.8, score, completeness * 100.0)
  }

  /** The validation of a document whose checks gave the inputs. */
  function ValidationOf(present: string -> bool, technicalMatches: seq<seq<string>>, safetyMatches: seq<seq<string>>,
                        extract: string -> Option<string>): Validation
  {
    var found := FoundTitles(MandatorySections, present);
    var missing := MissingTitles(MandatorySections, present);
    var technical := Report(Flatten(technicalMatches), 5, 10);
    var safety := Report(Flatten(safetyMatches), 3, 5);
    Validation(OverallOf(found, missing, technical, safety), found, missing, QualityTable(MandatorySections, extract),
               technical, safety, Recommendations(missing, technical.sufficient, safety.sufficient))
  }

  /** `comprehensive_validation` (section_validator.py:188-235). */
  method ComprehensiveValidation(present: string -> bool, technicalMatches: seq<seq<string>>,
                                 safetyMatches: seq<seq<string>>, extract: string -> Option<string>)
    returns (v: Validation)
    ensures v == ValidationOf(present, technicalMatches, safetyMatches, extract)
  {
    var found, missing := ValidateSectionPresence(present);
    var technical := ValidateTechnicalDepth(technicalMatches);
    var safety := ValidateSafetyIntegration(safetyMatches);
    var quality := ValidateSectionContentQuality(extract);
    v := Validation(OverallOf(found, missing, technical, safety), found, missing, quality, technical, safety,
                    Recommendations(missing, technical.sufficient, safety.sufficient));
  }

  /** The score lies in [0, 1] and the completeness in [0, 100] whenever at most nine
      sections are found. */
  lemma OverallBounds(found: seq<string>, missing: seq<string>, technical: MatchReport, safety: MatchReport)
    requires |found| <= 9
    ensures 0.0 <= OverallOf(found, missing, technical, safety).qualityScore <= 1.0
    ensures 0.0 <= OverallOf(found, missing, technical, safety).completenessPercentage <= 100.0
  {
  }

  /** The score threshold never decides on its own: a document is production ready
      exactly when no section is missing and both pattern checks pass. */
  lemma ReadyIff(present: string -> bool, technicalMatches: seq<seq<string>>, safetyMatches: seq<seq<string>>,
                 extract: string -> Option<string>)
    ensures var v := ValidationOf(present, technicalMatches, safetyMatches, extract);
      v.overall.productionReady <==> |v.missing| == 0 && v.technical.sufficient && v.safety.sufficient
    ensures var v := ValidationOf(present, technicalMatches, safetyMatches, extract);
      |v.found| + |v.missing| == 9 && |v.recommendations| <= 3
      && (|v.recommendations| == 0 <==> v.overall.productionReady)
  {
    NineMandatorySections();
    PresencePartition(MandatorySections, present);
  }

  // ---------------------------------------------------------------------------------
  // create_mandatory_sections_template
  // ---------------------------------------------------------------------------------

  /** A template entry: the section dict and its 1-based "order". */
  datatype TemplateSection = TemplateSection(spec: SectionSpec, order: nat)

  /** The opening of a template prompt, naming the section. */
  function PromptOpening(title: string): string {
    "Создай детальный раздел '" + title + "'"
  }

  /** The prompt of a template section. */
  function TemplatePrompt(req: Requirement): string {
    PromptOpening(req.title) + " с учетом следующих требований: " + req.description
      + ". Включи конкретные технические детали и интегрированные меры безопасности."
  }

  /** The template of the given requirements. */
  function TemplateOf(reqs: seq<Requirement>): (r: seq<TemplateSection>)
    ensures |r| == |reqs|
  {
    seq(|reqs|, i requires 0 <= i < |reqs| =>
      TemplateSection(SectionSpec(Some(reqs[i].title), Some("ai"), Some(TemplatePrompt(reqs[i])), Some("")), i + 1))
  }

  /** The loop of `create_mandatory_sections_template` over the given requirements. */
  method TemplateLoop(reqs: seq<Requirement>) returns (r: seq<TemplateSection>)
    ensures r == TemplateOf(reqs)
  {
    r := [];
    for i := 0 to |reqs|
      invariant r == TemplateOf(reqs[..i])
    {
      r := r + [TemplateSection(SectionSpec(Some(reqs[i].title), Some("ai"), Some(TemplatePrompt(reqs[i])), Some("")), i + 1)];
    }
    assert reqs[..|reqs|] == reqs;
  }

  /** `create_mandatory_sections_template` (section_validator.py:263-276). */
  method CreateMandatorySectionsTemplate() returns (r: seq<TemplateSection>)
    ensures r == TemplateOf(MandatorySections)
  {
    r := TemplateLoop(MandatorySections);
  }

  /** A template prompt names its section first. */
  lemma TemplatePromptNamesSection(req: Requirement)
    ensures StartsWith(TemplatePrompt(req), PromptOpening(req.title))
  {
    var head := PromptOpening(req.title);
    var rest := " с учетом следующих требований: " + req.description
      + ". Включи конкретные технические детали и интегрированные меры безопасности.";
    assert TemplatePrompt(req) == head + rest;
    assert (head + rest)[..|head|] == head;
  }

  /** The template has one entry per requirement, in order, numbered from 1, in mode "ai",
      with empty content and a prompt naming the section. */
  lemma TemplateSpec(reqs: seq<Requirement>)
    ensures |TemplateOf(reqs)| == |reqs|
    ensures forall i :: 0 <= i < |reqs| ==>
      TemplateOf(reqs)[i].order == i + 1 && TemplateOf(reqs)[i].spec.title == Some(reqs[i].title)
      && TemplateOf(reqs)[i].spec.mode == Some("ai") && TemplateOf(reqs)[i].spec.content == Some("")
      && TemplateOf(reqs)[i].spec.prompt.Some?
      && StartsWith(TemplateOf(reqs)[i].spec.prompt.value, PromptOpening(reqs[i].title))
  {
    forall i | 0 <= i < |reqs|
      ensures StartsWith(TemplateOf(reqs)[i].spec.prompt.value, PromptOpening(reqs[i].title))
    {
      TemplatePromptNamesSection(reqs[i]);
    }
  }
}
