/**
 * sop_generator/utils/quality_assessment.py: the deduction-based readiness assessment of
 * an SOP. Each of the five categories starts at 100, subtracts a capped deduction for every
 * check that fails and records one issue for it; the overall score is the truncated mean
 * and the readiness level follows from thresholds on the mean and the minimum. The
 * regular-expression match counts of each check are inputs; a `search` oracle stands for
 * `re.search` of a pattern in the document.
 */
module QualityAssessment {
  import opened Text

  /** `IssueLevel`. */
  datatype Level = Critical | Warning | Suggestion

  /** `QualityIssue`, by its level and section (the description and improvement texts are
      left out). */
  datatype Issue = Issue(level: Level, section: string)

  /** `QualityScore`: a category, its score and its issues. */
  datatype QualityScore = QualityScore(category: string, score: int, issues: seq<Issue>)

  /** One check of a category: whether it failed, what it deducts, and the issue it raises. */
  datatype Check = Check(failed: bool, deduction: int, issue: Issue)

  /** The total deduction of the failed checks. */
  function Deductions(checks: seq<Check>): int {
    if |checks| == 0 then 0
    else Deductions(checks[..|checks| - 1]) + (if checks[|checks| - 1].failed then checks[|checks| - 1].deduction else 0)
  }

  /** The issues of the failed checks, in order. */
  function Raised(checks: seq<Check>): seq<Issue> {
    if |checks| == 0 then []
    else Raised(checks[..|checks| - 1]) + (if checks[|checks| - 1].failed then [checks[|checks| - 1].issue] else [])
  }

  /** The deduction of one check. */
  function Cost(c: Check): int {
    if c.failed then c.deduction else 0
  }

  /** The issue of one check, if it failed. */
  function Issued(c: Check): seq<Issue> {
    if c.failed then [c.issue] else []
  }

  /** The folds over one more check. */
  lemma FoldSnoc(checks: seq<Check>, c: Check)
    ensures Deductions(checks + [c]) == Deductions(checks) + Cost(c)
    ensures Raised(checks + [c]) == Raised(checks) + Issued(c)
    ensures BudgetOf(checks + [c]) == BudgetOf(checks) + Max(0, c.deduction)
  {
    assert (checks + [c])[..|checks|] == checks;
  }

  /** The folds over three and four checks, written out. */
  lemma Unfold3(c0: Check, c1: Check, c2: Check)
    ensures Deductions([c0, c1, c2]) == Cost(c0) + Cost(c1) + Cost(c2)
    ensures Raised([c0, c1, c2]) == Issued(c0) + Issued(c1) + Issued(c2)
    ensures BudgetOf([c0, c1, c2]) == Max(0, c0.deduction) + Max(0, c1.deduction) + Max(0, c2.deduction)
  {
    FoldSnoc([], c0);
    assert [] + [c0] == [c0];
    FoldSnoc([c0], c1);
    assert [c0] + [c1] == [c0, c1];
    FoldSnoc([c0, c1], c2);
    assert [c0, c1] + [c2] == [c0, c1, c2];
  }

  lemma Unfold4(c0: Check, c1: Check, c2: Check, c3: Check)
    ensures Deductions([c0, c1, c2, c3]) == Cost(c0) + Cost(c1) + Cost(c2) + Cost(c3)
    ensures Raised([c0, c1, c2, c3]) == Issued(c0) + Issued(c1) + Issued(c2) + Issued(c3)
    ensures BudgetOf([c0, c1, c2, c3]) == Max(0, c0.deduction) + Max(0, c1.deduction) + Max(0, c2.deduction) + Max(0, c3.deduction)
  {
    Unfold3(c0, c1, c2);
    FoldSnoc([c0, c1, c2], c3);
    assert [c0, c1, c2] + [c3] == [c0, c1, c2, c3];
  }

  /** The number of failed checks. */
  function FailedCount(checks: seq<Check>): nat {
    |set k | 0 <= k < |checks| && checks[k].failed|
  }

  /** The score of a category whose checks are `checks`: 100 less the deductions, clamped
      at 0, with one issue per failed check. */
  function Scored(category: string, checks: seq<Check>): QualityScore {
    QualityScore(category, Max(0, 100 - Deductions(checks)), Raised(checks))
  }

  /** Every failed check deducts a positive amount and the deductions of all checks, were
      they all to fail, stay within 100. */
  predicate WithinBudget(checks: seq<Check>) {
    PositiveWhenFailed(checks) && BudgetOf(checks) <= 100
  }

  predicate PositiveWhenFailed(checks: seq<Check>) {
    forall k :: 0 <= k < |checks| && checks[k].failed ==> 0 < checks[k].deduction
  }

  /** The sum of the deductions of all checks (a formula that is negative for a check that
      passes counts as 0). */
  function BudgetOf(checks: seq<Check>): int {
    if |checks| == 0 then 0 else BudgetOf(checks[..|checks| - 1]) + Max(0, checks[|checks| - 1].deduction)
  }

  /** The deductions lie between 0 and the budget, and are 0 exactly when no check failed;
      one issue is raised per failed check, in check order. */
  lemma {:induction false} DeductionsSpec(checks: seq<Check>)
    requires PositiveWhenFailed(checks)
    ensures 0 <= Deductions(checks) <= BudgetOf(checks)
    ensures Deductions(checks) == 0 <==> forall k :: 0 <= k < |checks| ==> !checks[k].failed
    ensures |Raised(checks)| == FailedCount(checks)
    ensures forall i :: 0 <= i < |Raised(checks)| ==> exists k :: 0 <= k < |checks| && checks[k].failed && Raised(checks)[i] == checks[k].issue
  {
    if |checks| > 0 {
      var init := checks[..|checks| - 1];
      var n := |checks| - 1;
      assert PositiveWhenFailed(init) by {
        forall k | 0 <= k < |init| && init[k].failed ensures 0 < init[k].deduction {
          assert init[k] == checks[k];
        }
      }
      DeductionsSpec(init);
      var before := set k | 0 <= k < n && init[k].failed;
      var after := set k | 0 <= k < |checks| && checks[k].failed;
      if checks[n].failed {
        assert after == before + {n};
      } else {
        assert after == before;
      }
      forall i | 0 <= i < |Raised(checks)|
        ensures exists k :: 0 <= k < |checks| && checks[k].failed && Raised(checks)[i] == checks[k].issue
      {
        if i < |Raised(init)| {
          var k :| 0 <= k < |init| && init[k].failed && Raised(init)[i] == init[k].issue;
          assert checks[k] == init[k];
        } else {
          assert Raised(checks)[i] == checks[n].issue;
        }
      }
      if Deductions(checks) == 0 {
        forall k | 0 <= k < |checks| ensures !checks[k].failed {
          if k < n {
            assert init[k] == checks[k];
          }
        }
      }
      if Deductions(init) != 0 {
        var k :| 0 <= k < |init| && init[k].failed;
        assert checks[k] == init[k];
      }
    }
  }

  /** Within the budget the clamp never bites: the score is 100 less the deductions, lies
      in [0, 100], is 100 exactly when no check failed, and there is one issue per failed
      check. */
  lemma ScoredSpec(category: string, checks: seq<Check>)
    requires WithinBudget(checks)
    ensures var q := Scored(category, checks);
      q.score == 100 - Deductions(checks) && 0 <= q.score <= 100
      && (q.score == 100 <==> forall k :: 0 <= k < |checks| ==> !checks[k].failed)
      && |q.issues| == FailedCount(checks)
  {
    DeductionsSpec(checks);
  }

  // ---------------------------------------------------------------------------------
  // The five categories
  // ---------------------------------------------------------------------------------

  /** The checks of `assess_technical_completeness`: parameter, specification,
      calibration and maintenance match counts. */
  function TechnicalChecks(params: nat, specs: nat, calibration: nat, maintenance: nat): seq<Check> {
    [Check(params < 5, Min(40, (5 - params) * 8), Issue(Critical, "Технические параметры")),
     Check(specs < 3, Min(25, (3 - specs) * 8), Issue(Critical, "Спецификации оборудования")),
     Check(calibration == 0, 20, Issue(Critical, "Калибровка")),
     Check(maintenance == 0, 15, Issue(Warning, "Техническое обслуживание"))]
  }

  /** `assess_technical_completeness` (quality_assessment.py:187-254). */
  method AssessTechnicalCompleteness(params: nat, specs: nat, calibration: nat, maintenance: nat) returns (q: QualityScore)
    ensures q == Scored("Technical Completeness", TechnicalChecks(params, specs, calibration, maintenance))
  {
    var c := TechnicalChecks(params, specs, calibration, maintenance);
    Unfold4(c[0], c[1], c[2], c[3]);
    assert c == [c[0], c[1], c[2], c[3]];
    var issues: seq<Issue> := [];
    var score := 100;
    if params < 5 {
      score := score - Min(40, (5 - params) * 8);
      issues := issues + [Issue(Critical, "Технические параметры")];
    }
    if specs < 3 {
      score := score - Min(25, (3 - specs) * 8);
      issues := issues + [Issue(Critical, "Спецификации оборудования")];
    }
    if calibration == 0 {
      score := score - 20;
      issues := issues + [Issue(Critical, "Калибровка")];
    }
    if maintenance == 0 {
      score := score - 15;
      issues := issues + [Issue(Warning, "Техническое обслуживание")];
    }
    q := QualityScore("Technical Completeness", Max(0, score), issues);
  }

  /** The checks of `assess_safety_coverage`: hazard, PPE, emergency and regulatory-reference
      match counts. */
  function SafetyChecks(hazards: nat, ppe: nat, emergency: nat, references: nat): seq<Check> {
    [Check(hazards < 3, Min(30, (3 - hazards) * 10), Issue(Critical, "Анализ опасностей")),
     Check(ppe < 2, Min(25, (2 - ppe) * 12), Issue(Critical, "СИЗ")),
     Check(emergency < 2, Min(25, (2 - emergency) * 12), Issue(Critical, "Аварийные процедуры")),
     Check(references == 0, 20, Issue(Warning, "Нормативные ссылки"))]
  }

  /** `assess_safety_coverage` (quality_assessment.py:256-328). */
  method AssessSafetyCoverage(hazards: nat, ppe: nat, emergency: nat, references: nat) returns (q: QualityScore)
    ensures q == Scored("Safety Coverage", SafetyChecks(hazards, ppe, emergency, references))
  {
    var c := SafetyChecks(hazards, ppe, emergency, references);
    Unfold4(c[0], c[1], c[2], c[3]);
    assert c == [c[0], c[1], c[2], c[3]];
    var issues: seq<Issue> := [];
    var score := 100;
    if hazards < 3 {
      score := score - Min(30, (3 - hazards) * 10);
      issues := issues + [Issue(Critical, "Анализ опасностей")];
    }
    if ppe < 2 {
      score := score - Min(25, (2 - ppe) * 12);
      issues := issues + [Issue(Critical, "СИЗ")];
    }
    if emergency < 2 {
      score := score - Min(25, (2 - emergency) * 12);
      issues := issues + [Issue(Critical, "Аварийные процедуры")];
    }
    if references == 0 {
      score := score - 20;
      issues := issues + [Issue(Warning, "Нормативные ссылки")];
    }
    q := QualityScore("Safety Coverage", Max(0, score), issues);
  }

  /** The checks of `assess_operational_clarity`: step, decision-point, troubleshooting and
      success-criterion match counts. */
  function OperationalChecks(steps: nat, decisions: nat, troubleshooting: nat, success: nat): seq<Check> {
    [Check(steps < 5, Min(30, (5 - steps) * 6), Issue(Critical, "Структура процедур")),
     Check(decisions < 3, Min(25, (3 - decisions) * 8), Issue(Warning, "Точки принятия решений")),
     Check(troubleshooting < 2, Min(20, (2 - troubleshooting) * 10), Issue(Warning, "Устранение неисправностей")),
     Check(success < 2, Min(25, (2 - success) * 12), Issue(Critical, "Критерии успеха"))]
  }

  /** `assess_operational_clarity` (quality_assessment.py:330-431). */
  method AssessOperationalClarity(steps: nat, decisions: nat, troubleshooting: nat, success: nat) returns (q: QualityScore)
    ensures q == Scored("Operational Clarity", OperationalChecks(steps, decisions, troubleshooting, success))
  {
    var c := OperationalChecks(steps, decisions, troubleshooting, success);
    Unfold4(c[0], c[1], c[2], c[3]);
    assert c == [c[0], c[1], c[2], c[3]];
    var issues: seq<Issue> := [];
    var score := 100;
    if steps < 5 {
      score := score - Min(30, (5 - steps) * 6);
      issues := issues + [Issue(Critical, "Структура процедур")];
    }
    if decisions < 3 {
      score := score - Min(25, (3 - decisions) * 8);
      issues := issues + [Issue(Warning, "Точки принятия решений")];
    }
    if troubleshooting < 2 {
      score := score - Min(20, (2 - troubleshooting) * 10);
      issues := issues + [Issue(Warning, "Устранение неисправностей")];
    }
    if success < 2 {
      score := score - Min(25, (2 - success) * 12);
      issues := issues + [Issue(Critical, "Критерии успеха")];
    }
    q := QualityScore("Operational Clarity", Max(0, score), issues);
  }

  /** The checks of `assess_regulatory_compliance`: documentation, traceability and quality
      control match counts. */
  function RegulatoryChecks(documentation: nat, traceability: nat, qualityControl: nat): seq<Check> {
    [Check(documentation < 2, Min(40, (2 - documentation) * 20), Issue(Critical, "Документооборот")),
     Check(traceability == 0, 30, Issue(Critical, "Прослеживаемость")),
     Check(qualityControl == 0, 30, Issue(Warning, "Контроль качества"))]
  }

  /** `assess_regulatory_compliance` (quality_assessment.py:433-488). */
  method AssessRegulatoryCompliance(documentation: nat, traceability: nat, qualityControl: nat) returns (q: QualityScore)
    ensures q == Scored("Regulatory Compliance", RegulatoryChecks(documentation, traceability, qualityControl))
  {
    var c := RegulatoryChecks(documentation, traceability, qualityControl);
    Unfold3(c[0], c[1], c[2]);
    assert c == [c[0], c[1], c[2]];
    var issues: seq<Issue> := [];
    var score := 100;
    if documentation < 2 {
      score := score - Min(40, (2 - documentation) * 20);
      issues := issues + [Issue(Critical, "Документооборот")];
    }
    if traceability == 0 {
      score := score - 30;
      issues := issues + [Issue(Critical, "Прослеживаемость")];
    }
    if qualityControl == 0 {
      score := score - 30;
      issues := issues + [Issue(Warning, "Контроль качества")];
    }
    q := QualityScore("Regulatory Compliance", Max(0, score), issues);
  }

  // ---------------------------------------------------------------------------------
  // Professional standards and its two consistency checks
  // ---------------------------------------------------------------------------------

  /** The term families of `_check_terminology_consistency`, each with its variant patterns. */
  datatype TermFamily = TermFamily(term: string, variants: seq<string>)

  const TermFamilies: seq<TermFamily> := [
    TermFamily("temperature", ["температур[аы]", "темп\\.", "T="]),
    TermFamily("pressure", ["давлен[иея]", "P=", "пресс"]),
    TermFamily("calibration", ["калибровк[аи]", "калибр\\.", "поверк[аи]"])
  ]

  /** The variant patterns of a family that the search finds, in order. */
  function FoundVariants(variants: seq<string>, search: string -> bool): seq<string> {
    if |variants| == 0 then []
    else FoundVariants(variants[..|variants| - 1], search)
         + (if search(variants[|variants| - 1]) then [variants[|variants| - 1]] else [])
  }

  /** The families with more than one variant found, in order. */
  function InconsistentTerms(families: seq<TermFamily>, search: string -> bool): (r: seq<string>)
    ensures |r| <= |families|
  {
    if |families| == 0 then []
    else
      var f := families[|families| - 1];
      InconsistentTerms(families[..|families| - 1], search) + (if |FoundVariants(f.variants, search)| > 1 then [f.term] else [])
  }

  /** `_check_terminology_consistency` (quality_assessment.py:566-580). */
  method CheckTerminologyConsistency(search: string -> bool) returns (r: seq<string>)
    ensures r == InconsistentTerms(TermFamilies, search)
  {
    r := [];
    for i := 0 to |TermFamilies|
      invariant r == InconsistentTerms(TermFamilies[..i], search)
    {
      assert TermFamilies[..i + 1][..i] == TermFamilies[..i];
      var found: seq<string> := [];
      var variants := TermFamilies[i].variants;
      for j := 0 to |variants|
        invariant found == FoundVariants(variants[..j], search)
      {
        assert variants[..j + 1][..j] == variants[..j];
        if search(variants[j]) {
          found := found + [variants[j]];
        }
      }
      assert variants[..|variants|] == variants;
      if |found| > 1 {
        r := r + [TermFamilies[i].term];
      }
    }
    assert TermFamilies[..|TermFamilies|] == TermFamilies;
  }

  /** `_check_formatting_consistency` (quality_assessment.py:582-597): the header matches
      (each starts with '#', as the header pattern does) and the numbers of bullet and of
      numbered list items. */
  function FormattingIssues(headers: seq<string>, bullets: nat, numbered: nat): seq<string>
    requires forall k :: 0 <= k < |headers| ==> |headers[k]| > 0
  {
    (if |set k | 0 <= k < |headers| :: headers[k][0]| > 2 then ["inconsistent_headers"] else [])
    + (if bullets > 0 && numbered > 0 then ["mixed_list_styles"] else [])
  }

  /** All header matches start with '#', so the header check never fires, and at most one
      formatting issue is ever reported. */
  lemma FormattingIssuesAtMostOne(headers: seq<string>, bullets: nat, numbered: nat)
    requires forall k :: 0 <= k < |headers| ==> |headers[k]| > 0 && headers[k][0] == '#'
    ensures |FormattingIssues(headers, bullets, numbered)| <= 1
    ensures FormattingIssues(headers, bullets, numbered) == (if bullets > 0 && numbered > 0 then ["mixed_list_styles"] else [])
  {
    var firsts := set k | 0 <= k < |headers| :: headers[k][0];
    assert firsts <= {'#'};
    SubsetCard(firsts, {'#'});
  }

  lemma SubsetCard(a: set<char>, b: set<char>)
    requires a <= b
    ensures |a| <= |b|
  {
    if a != {} {
      var x :| x in a;
      SubsetCard(a - {x}, b - {x});
    }
  }

  /** The section-heading patterns of `assess_professional_standards`. */
  const RequiredSectionPatterns: seq<string> := [
    "#.*(?:цель|назначение|область\\s+применения)",
    "#.*(?:ответственность|персонал)",
    "#.*(?:безопасность|риск|опасность)",
    "#.*(?:оборудование|материалы|средства)",
    "#.*(?:процедура|методика|порядок)",
    "#.*(?:контроль|качество)",
    "#.*(?:документ|запись)",
    "#.*(?:ссылки|стандарт|норматив)"
  ]

  /** The number of patterns the search finds. */
  function FoundCount(patterns: seq<string>, search: string -> bool): (r: nat)
    ensures r <= |patterns|
  {
    if |patterns| == 0 then 0
    else FoundCount(patterns[..|patterns| - 1], search) + (if search(patterns[|patterns| - 1]) then 1 else 0)
  }

  /** The checks of `assess_professional_standards`: the number of section patterns found,
      the inconsistent terms, the formatting issues and the document length. */
  function ProfessionalChecks(sections: nat, inconsistent: seq<string>, formatting: seq<string>, length: nat): seq<Check> {
    [Check(sections < 6, Min(30, (6 - sections) * 5), Issue(Critical, "Структура документа")),
     Check(|inconsistent| > 3, 25, Issue(Warning, "Терминология")),
     Check(|formatting| > 2, Min(25, |formatting| * 5), Issue(Suggestion, "Форматирование")),
     Check(length < 2000, 20, Issue(Critical, "Полнота документа"))]
  }

  /** The professional-standards score of a document of `length` characters. */
  function ProfessionalStandards(search: string -> bool, headers: seq<string>, bullets: nat, numbered: nat, length: nat): QualityScore
    requires forall k :: 0 <= k < |headers| ==> |headers[k]| > 0
  {
    Scored("Professional Standards",
           ProfessionalChecks(FoundCount(RequiredSectionPatterns, search), InconsistentTerms(TermFamilies, search),
                              FormattingIssues(headers, bullets, numbered), length))
  }

  /** `assess_professional_standards` (quality_assessment.py:490-559). */
  method AssessProfessionalStandards(search: string -> bool, headers: seq<string>, bullets: nat, numbered: nat, length: nat)
    returns (q: QualityScore)
    requires forall k :: 0 <= k < |headers| ==> |headers[k]| > 0
    ensures q == ProfessionalStandards(search, headers, bullets, numbered, length)
  {
    var c := ProfessionalChecks(FoundCount(RequiredSectionPatterns, search), InconsistentTerms(TermFamilies, search),
                                FormattingIssues(headers, bullets, numbered), length);
    Unfold4(c[0], c[1], c[2], c[3]);
    assert c == [c[0], c[1], c[2], c[3]];
    var issues: seq<Issue> := [];
    var score := 100;
    var sectionMatches := CountFound(RequiredSectionPatterns, search);
    if sectionMatches < 6 {
      score := score - Min(30, (6 - sectionMatches) * 5);
      issues := issues + [Issue(Critical, "Структура документа")];
    }
    var inconsistent := CheckTerminologyConsistency(search);
    if |inconsistent| > 3 {
      score := score - 25;
      issues := issues + [Issue(Warning, "Терминология")];
    }
    var formatting := FormattingIssues(headers, bullets, numbered);
    if |formatting| > 2 {
      score := score - Min(25, |formatting| * 5);
      issues := issues + [Issue(Suggestion, "Форматирование")];
    }
    if length < 2000 {
      score := score - 20;
      issues := issues + [Issue(Critical, "Полнота документа")];
    }
    q := QualityScore("Professional Standards", Max(0, score), issues);
  }

  /** The loop counting the section patterns found. */
  method CountFound(patterns: seq<string>, search: string -> bool) returns (n: nat)
    ensures n == FoundCount(patterns, search)
  {
    n := 0;
    for i := 0 to |patterns|
      invariant n == FoundCount(patterns[..i], search)
    {
      assert patterns[..i + 1][..i] == patterns[..i];
      if search(patterns[i]) {
        n := n + 1;
      }
    }
    assert patterns[..|patterns|] == patterns;
  }

  /** With only three term families at most three terms are reported, so the terminology
      deduction (more than three) never applies; nor does the formatting one. Only the
      section and length checks can fail. */
  lemma ProfessionalDeductionsReachable(search: string -> bool, headers: seq<string>, bullets: nat, numbered: nat, length: nat)
    requires forall k :: 0 <= k < |headers| ==> |headers[k]| > 0 && headers[k][0] == '#'
    ensures |InconsistentTerms(TermFamilies, search)| <= 3
    ensures var checks := ProfessionalChecks(FoundCount(RequiredSectionPatterns, search), InconsistentTerms(TermFamilies, search),
                                             FormattingIssues(headers, bullets, numbered), length);
      !checks[1].failed && !checks[2].failed
  {
    FormattingIssuesAtMostOne(headers, bullets, numbered);
  }

  /** Every category stays within its budget of 100 points, so each score is 100 less its
      deductions and lies in [0, 100]. */
  lemma TechnicalWithinBudget(params: nat, specs: nat, calibration: nat, maintenance: nat)
    ensures WithinBudget(TechnicalChecks(params, specs, calibration, maintenance))
  {
    var c := TechnicalChecks(params, specs, calibration, maintenance);
    Unfold4(c[0], c[1], c[2], c[3]);
    assert c == [c[0], c[1], c[2], c[3]];
  }

  lemma SafetyWithinBudget(hazards: nat, ppe: nat, emergency: nat, references: nat)
    ensures WithinBudget(SafetyChecks(hazards, ppe, emergency, references))
  {
    var c := SafetyChecks(hazards, ppe, emergency, references);
    Unfold4(c[0], c[1], c[2], c[3]);
    assert c == [c[0], c[1], c[2], c[3]];
  }

  lemma OperationalWithinBudget(steps: nat, decisions: nat, troubleshooting: nat, success: nat)
    ensures WithinBudget(OperationalChecks(steps, decisions, troubleshooting, success))
  {
    var c := OperationalChecks(steps, decisions, troubleshooting, success);
    Unfold4(c[0], c[1], c[2], c[3]);
    assert c == [c[0], c[1], c[2], c[3]];
  }

  lemma RegulatoryWithinBudget(documentation: nat, traceability: nat, qualityControl: nat)
    ensures WithinBudget(RegulatoryChecks(documentation, traceability, qualityControl))
  {
    var c := RegulatoryChecks(documentation, traceability, qualityControl);
    Unfold3(c[0], c[1], c[2]);
    assert c == [c[0], c[1], c[2]];
  }

  lemma ProfessionalWithinBudget(sections: nat, inconsistent: seq<string>, formatting: seq<string>, length: nat)
    ensures WithinBudget(ProfessionalChecks(sections, inconsistent, formatting, length))
  {
    var c := ProfessionalChecks(sections, inconsistent, formatting, length);
    Unfold4(c[0], c[1], c[2], c[3]);
    assert c == [c[0], c[1], c[2], c[3]];
  }

  /** Two deduction formulas: fewer than five parameters cost min(40, (5 - n) * 8), fewer
      than three specifications min(25, (3 - n) * 8). */
  lemma TechnicalDeductions(params: nat, specs: nat, calibration: nat, maintenance: nat)
    ensures var q := Scored("Technical Completeness", TechnicalChecks(params, specs, calibration, maintenance));
      q.score == 100 - (if params < 5 then Min(40, (5 - params) * 8) else 0)
                     - (if specs < 3 then Min(25, (3 - specs) * 8) else 0)
                     - (if calibration == 0 then 20 else 0)
                     - (if maintenance == 0 then 15 else 0)
      && 0 <= q.score <= 100
  {
    var c := TechnicalChecks(params, specs, calibration, maintenance);
    Unfold4(c[0], c[1], c[2], c[3]);
    assert c == [c[0], c[1], c[2], c[3]];
    TechnicalWithinBudget(params, specs, calibration, maintenance);
    ScoredSpec("Technical Completeness", c);
  }

  // ---------------------------------------------------------------------------------
  // perform_comprehensive_assessment and the issue lists
  // ---------------------------------------------------------------------------------

  /** `SOPReadinessLevel`. */
  datatype Readiness = ProductionReady | ReviewRequired | MajorRevisionNeeded

  /** `SOPReadinessAssessment`. */
  datatype Assessment = Assessment(status: Readiness, overallScore: int, technical: QualityScore, safety: QualityScore,
                                   operational: QualityScore, regulatory: QualityScore, professional: QualityScore)

  /** The five category scores, in the source's order. */
  function Categories(a: Assessment): seq<QualityScore> {
    [a.technical, a.safety, a.operational, a.regulatory, a.professional]
  }

  /** The smallest of five scores. */
  function Min5(a: int, b: int, c: int, d: int, e: int): int {
    Min(Min(Min(Min(a, b), c), d), e)
  }

  /** The readiness level for an overall score and the smallest category score. */
  function ReadinessOf(overall: int, minimum: int): Readiness {
    if overall >= 95 && minimum >= 90 then ProductionReady
    else if overall >= 85 && minimum >= 70 then ReviewRequired
    else MajorRevisionNeeded
  }

  /** `perform_comprehensive_assessment` (quality_assessment.py:599-629) on the five category
      scores: `int(sum / 5)` truncates, which for the non-negative sum is the floor. */
  function Assess(technical: QualityScore, safety: QualityScore, operational: QualityScore,
                  regulatory: QualityScore, professional: QualityScore): (a: Assessment)
    requires technical.score >= 0 && safety.score >= 0 && operational.score >= 0
    requires regulatory.score >= 0 && professional.score >= 0
  {
    var sum := technical.score + safety.score + operational.score + regulatory.score + professional.score;
    var overall := sum / 5;
    var minimum := Min5(technical.score, safety.score, operational.score, regulatory.score, professional.score);
    Assessment(ReadinessOf(overall, minimum), overall, technical, safety, operational, regulatory, professional)
  }

  /** The overall score is the floor of the mean and stays in [0, 100] when every category
      does; the level is production ready exactly at mean >= 95 and minimum >= 90, review
      required exactly otherwise at mean >= 85 and minimum >= 70, and major revision in
      every other case. */
  lemma AssessSpec(technical: QualityScore, safety: QualityScore, operational: QualityScore,
                   regulatory: QualityScore, professional: QualityScore)
    requires 0 <= technical.score <= 100 && 0 <= safety.score <= 100 && 0 <= operational.score <= 100
    requires 0 <= regulatory.score <= 100 && 0 <= professional.score <= 100
    ensures var a := Assess(technical, safety, operational, regulatory, professional);
      var sum := technical.score + safety.score + operational.score + regulatory.score + professional.score;
      var m := Min5(technical.score, safety.score, operational.score, regulatory.score, professional.score);
      5 * a.overallScore <= sum < 5 * a.overallScore + 5
      && 0 <= a.overallScore <= 100
      && (a.status == ProductionReady <==> a.overallScore >= 95 && m >= 90)
      && (a.status == ReviewRequired <==> !(a.overallScore >= 95 && m >= 90) && a.overallScore >= 85 && m >= 70)
      && (a.status == MajorRevisionNeeded <==> !(a.overallScore >= 85 && m >= 70))
      && m <= a.overallScore
  {
  }

  /** The issues of the given level, category by category (the list comprehension inside
      the loop of `critical_issues`, `warnings` and `suggestions`). */
  function IssuesAt(categories: seq<QualityScore>, level: Level): seq<Issue> {
    if |categories| == 0 then []
    else IssuesAt(categories[..|categories| - 1], level) + OfLevel(categories[|categories| - 1].issues, level)
  }

  /** The issues of one list that have the level. */
  function OfLevel(issues: seq<Issue>, level: Level): seq<Issue> {
    if |issues| == 0 then []
    else OfLevel(issues[..|issues| - 1], level) + (if issues[|issues| - 1].level == level then [issues[|issues| - 1]] else [])
  }

  /** `critical_issues`, `warnings` and `suggestions` (quality_assessment.py:57-82). */
  method IssuesOfLevel(a: Assessment, level: Level) returns (r: seq<Issue>)
    ensures r == IssuesAt(Categories(a), level)
  {
    var categories := Categories(a);
    r := [];
    for i := 0 to |categories|
      invariant r == IssuesAt(categories[..i], level)
    {
      assert categories[..i + 1][..i] == categories[..i];
      var picked: seq<Issue> := [];
      var issues := categories[i].issues;
      for j := 0 to |issues|
        invariant picked == OfLevel(issues[..j], level)
      {
        assert issues[..j + 1][..j] == issues[..j];
        if issues[j].level == level {
          picked := picked + [issues[j]];
        }
      }
      assert issues[..|issues|] == issues;
      r := r + picked;
    }
    assert categories[..|categories|] == categories;
  }

  /** Every issue has exactly one level, so each issue list splits into its three levels. */
  lemma {:induction false} OfLevelSplit(issues: seq<Issue>)
    ensures |OfLevel(issues, Critical)| + |OfLevel(issues, Warning)| + |OfLevel(issues, Suggestion)| == |issues|
    ensures forall l: Level, i :: 0 <= i < |OfLevel(issues, l)| ==> OfLevel(issues, l)[i].level == l && OfLevel(issues, l)[i] in issues
  {
    if |issues| > 0 {
      var init := issues[..|issues| - 1];
      OfLevelSplit(init);
      forall l: Level, i | 0 <= i < |OfLevel(issues, l)|
        ensures OfLevel(issues, l)[i].level == l && OfLevel(issues, l)[i] in issues
      {
        if i < |OfLevel(init, l)| {
          assert OfLevel(issues, l)[i] == OfLevel(init, l)[i];
          assert OfLevel(init, l)[i] in init;
        }
      }
    }
  }

  /** The issues of all levels together. */
  function AllIssues(categories: seq<QualityScore>): seq<Issue> {
    if |categories| == 0 then [] else AllIssues(categories[..|categories| - 1]) + categories[|categories| - 1].issues
  }

  /** The three lists partition the issues of the five categories: together they are as
      many as all issues, and each list holds issues of its own level only. */
  lemma {:induction false} LevelsPartition(categories: seq<QualityScore>)
    ensures |IssuesAt(categories, Critical)| + |IssuesAt(categories, Warning)| + |IssuesAt(categories, Suggestion)|
      == |AllIssues(categories)|
    ensures forall l: Level, i :: 0 <= i < |IssuesAt(categories, l)| ==>
      IssuesAt(categories, l)[i].level == l && IssuesAt(categories, l)[i] in AllIssues(categories)
  {
    if |categories| > 0 {
      var init := categories[..|categories| - 1];
      var last := categories[|categories| - 1].issues;
      LevelsPartition(init);
      OfLevelSplit(last);
      forall l: Level, i | 0 <= i < |IssuesAt(categories, l)|
        ensures IssuesAt(categories, l)[i].level == l && IssuesAt(categories, l)[i] in AllIssues(categories)
      {
        var x := IssuesAt(categories, l)[i];
        if i < |IssuesAt(init, l)| {
          assert x == IssuesAt(init, l)[i];
          assert x in AllIssues(init);
        } else {
          assert x == OfLevel(last, l)[i - |IssuesAt(init, l)|];
          assert x in last;
        }
      }
    }
  }
}
