/**
 * sop_generator/utils/content_validator.py: the real-time content validator. Each validator
 * starts from 100, subtracts a fixed amount per issue it raises and is clamped at 0; the
 * overall score weights the four components 0.3 / 0.25 / 0.20 / 0.25, and the achieved level
 * follows from the overall score and the number of critical issues. Regular-expression
 * searches are a `search` oracle over pattern texts or match lists given as inputs.
 */
module ContentValidator {
  import opened Text
  import opened Wrappers
  import QualityAssessment
  import Json

  /** `ValidationLevel`. */
  datatype ValidationLevel = Basic | Professional | ProductionReady

  /** `ContentIssueType`. */
  datatype IssueType = TechnicalAccuracy | Completeness | IndustryStandards | SafetyCompliance | RegulatoryCompliance

  /** The severity strings "critical", "major" and "minor". */
  datatype Severity = Critical | Major | Minor

  /** `ValidationIssue`, without its quoted content and reference fields. */
  datatype ValidationIssue = ValidationIssue(issueType: IssueType, severity: Severity, section: string,
                                             lineNumber: Option<nat>, description: string, suggestion: string)

  // ---------------------------------------------------------------------------------
  // Line numbers
  // ---------------------------------------------------------------------------------

  /** The number of line breaks in a string. */
  function Newlines(s: string): nat {
    if |s| == 0 then 0 else Newlines(s[..|s| - 1]) + (if s[|s| - 1] == '\n' then 1 else 0)
  }

  /** `_get_line_number` (content_validator.py:826-828): one more than the line breaks before
      the position. */
  function LineNumber(content: string, position: nat): nat {
    Newlines(Prefix(content, position)) + 1
  }

  lemma {:induction false} NewlinesGrow(s: string, i: nat, j: nat)
    requires i <= j <= |s|
    ensures Newlines(s[..i]) <= Newlines(s[..j])
    decreases j
  {
    if i < j {
      NewlinesGrow(s, i, j - 1);
      assert s[..j][..j - 1] == s[..j - 1];
    }
  }

  /** Line numbers start at 1, never decrease along the content, never exceed its number of
      lines, and step up by one exactly past a line break. */
  lemma LineNumberSpec(content: string, p: nat, q: nat)
    requires p <= q
    ensures 1 <= LineNumber(content, p) <= LineNumber(content, q) <= Newlines(content) + 1
    ensures q == p + 1 && p < |content| ==>
      LineNumber(content, q) == LineNumber(content, p) + (if content[p] == '\n' then 1 else 0)
  {
    var n := |content|;
    assert content[..n] == content;
    NewlinesGrow(content, Min(p, n), Min(q, n));
    NewlinesGrow(content, Min(q, n), n);
    if q == p + 1 && p < n {
      assert content[..q][..p] == content[..p];
    }
  }

  // ---------------------------------------------------------------------------------
  // _validate_procedure_logic
  // ---------------------------------------------------------------------------------

  /** A numbered-step match: its number, where it starts, and the text it matched. */
  datatype StepMatch = StepMatch(number: nat, start: nat)

  /** The issue raised for a step whose number is not the expected one. */
  function StepIssue(content: string, m: StepMatch, expected: nat): ValidationIssue {
    ValidationIssue(Completeness, Minor, "Нумерация шагов", Some(LineNumber(content, m.start)),
                    "Нарушена последовательность нумерации: ожидался шаг " + NatToString(expected)
                    + ", найден " + NatToString(m.number),
                    "Исправить нумерацию шагов")
  }

  /** The positions (from 0) of the steps whose number is not their 1-based position. */
  function Flagged(steps: seq<StepMatch>): seq<nat> {
    if |steps| == 0 then []
    else Flagged(steps[..|steps| - 1]) + (if steps[|steps| - 1].number != |steps| then [|steps| - 1] else [])
  }

  /** Builds the issue of a misnumbered step from the step and the number expected. */
  type StepIssueBuilder = (StepMatch, nat) -> ValidationIssue

  /** The issue builder for a given content. */
  function IssueIn(content: string): StepIssueBuilder {
    (m: StepMatch, expected: nat) => StepIssue(content, m, expected)
  }

  /** The numbering issues of the steps, in order, built by `issue`. */
  function Misnumbered(steps: seq<StepMatch>, issue: StepIssueBuilder): seq<ValidationIssue> {
    if |steps| == 0 then []
    else Misnumbered(steps[..|steps| - 1], issue)
         + (if steps[|steps| - 1].number != |steps| then [issue(steps[|steps| - 1], |steps|)] else [])
  }

  /** Numbering is checked only when there is more than one step. */
  function StepIssues(content: string, steps: seq<StepMatch>): seq<ValidationIssue> {
    if |steps| > 1 then Misnumbered(steps, IssueIn(content)) else []
  }

  /** The issue raised for a decision whose outcome is unclear. */
  const UnclearDecision: ValidationIssue :=
    ValidationIssue(Completeness, Major, "Логика процедур", None,
                    "Неясно определены действия при принятии решения",
                    "Четко определить действия для каждого исхода решения")

  /** The unclear decisions are reported only when some decision pattern matched. */
  function DecisionIssues(decisionMatches: nat, unclear: nat): seq<ValidationIssue> {
    if decisionMatches > 0 then seq(unclear, _ => UnclearDecision) else []
  }

  /** The issues and the deduction of the procedure-logic check. */
  function ProcedureLogic(content: string, steps: seq<StepMatch>, decisionMatches: nat, unclear: nat): (seq<ValidationIssue>, int) {
    (StepIssues(content, steps) + DecisionIssues(decisionMatches, unclear),
     |StepIssues(content, steps)| + 3 * |DecisionIssues(decisionMatches, unclear)|)
  }

  /** `_validate_procedure_logic` (content_validator.py:568-622): the step matches, the number
      of decision-pattern matches and the number of unclear decisions are given. */
  method ValidateProcedureLogic(content: string, steps: seq<StepMatch>, decisionMatches: nat, unclear: nat)
    returns (issues: seq<ValidationIssue>, deduction: int)
    ensures issues == ProcedureLogic(content, steps, decisionMatches, unclear).0
    ensures deduction == ProcedureLogic(content, steps, decisionMatches, unclear).1
  {
    issues := [];
    deduction := 0;
    if |steps| > 1 {
      var expectedNum := 1;
      for i := 0 to |steps|
        invariant expectedNum == i + 1
        invariant issues == Misnumbered(steps[..i], IssueIn(content)) && deduction == |issues|
      {
        assert steps[..i + 1][..i] == steps[..i];
        var actualNum := steps[i].number;
        if actualNum != expectedNum {
          issues := issues + [StepIssue(content, steps[i], expectedNum)];
          deduction := deduction + 1;
        }
        expectedNum := expectedNum + 1;
      }
      assert steps[..|steps|] == steps;
    }
    ghost var stepIssues := issues;
    assert stepIssues == StepIssues(content, steps) && deduction == |stepIssues|;
    if decisionMatches > 0 {
      for i := 0 to unclear
        invariant issues == stepIssues + seq(i, _ => UnclearDecision)
        invariant deduction == |stepIssues| + 3 * i
      {
        assert seq(i + 1, _ => UnclearDecision) == seq(i, _ => UnclearDecision) + [UnclearDecision];
        issues := issues + [UnclearDecision];
        deduction := deduction + 3;
      }
      assert issues == stepIssues + DecisionIssues(decisionMatches, unclear);
    } else {
      assert DecisionIssues(decisionMatches, unclear) == [];
      assert issues == stepIssues + [];
    }
  }

  /** The numbering issues are those of the flagged steps, in order. */
  lemma {:induction false} MisnumberedSpec(steps: seq<StepMatch>, issue: StepIssueBuilder)
    ensures |Misnumbered(steps, issue)| == |Flagged(steps)|
    ensures forall j :: 0 <= j < |Flagged(steps)| ==>
      Flagged(steps)[j] < |steps| && Misnumbered(steps, issue)[j] == issue(steps[Flagged(steps)[j]], Flagged(steps)[j] + 1)
  {
    if |steps| > 0 {
      var init := steps[..|steps| - 1];
      MisnumberedSpec(init, issue);
      var f := Flagged(steps);
      var m := Misnumbered(steps, issue);
      forall j | 0 <= j < |f|
        ensures f[j] < |steps| && m[j] == issue(steps[f[j]], f[j] + 1)
      {
        if j < |Flagged(init)| {
          assert f[j] == Flagged(init)[j];
          assert m[j] == Misnumbered(init, issue)[j];
          assert steps[f[j]] == init[f[j]];
        }
      }
    }
  }

  /** A step is flagged exactly when its number differs from its 1-based position. */
  lemma {:induction false} FlaggedIff(steps: seq<StepMatch>)
    ensures forall j :: 0 <= j < |Flagged(steps)| ==> Flagged(steps)[j] < |steps|
    ensures forall k :: 0 <= k < |steps| ==> (k in Flagged(steps) <==> steps[k].number != k + 1)
  {
    if |steps| > 0 {
      var init := steps[..|steps| - 1];
      var n := |steps| - 1;
      FlaggedIff(init);
      forall k | 0 <= k < n ensures k in Flagged(steps) <==> steps[k].number != k + 1 {
        assert init[k] == steps[k];
        assert k in Flagged(steps) <==> k in Flagged(init);
      }
      assert n !in Flagged(init);
    }
  }

  /** A single step (or none) is never flagged; the deduction is one point per flagged step
      plus three per unclear decision, and unclear decisions count only when a decision
      pattern matched. */
  lemma ProcedureLogicSpec(content: string, steps: seq<StepMatch>, decisionMatches: nat, unclear: nat)
    ensures var (issues, deduction) := ProcedureLogic(content, steps, decisionMatches, unclear);
      (|steps| <= 1 ==> |issues| == (if decisionMatches > 0 then unclear else 0))
      && deduction == (if |steps| > 1 then |Flagged(steps)| else 0) + (if decisionMatches > 0 then 3 * unclear else 0)
      && (decisionMatches == 0 ==> forall i :: 0 <= i < |issues| ==> issues[i].severity == Minor)
  {
    MisnumberedSpec(steps, IssueIn(content));
    if decisionMatches == 0 && |steps| > 1 {
      forall j | 0 <= j < |Flagged(steps)| ensures Misnumbered(steps, IssueIn(content))[j].severity == Minor {
      }
    }
  }

  // ---------------------------------------------------------------------------------
  // _validate_industry_standards
  // ---------------------------------------------------------------------------------

  /** The standards a level requires to be cited. */
  function RequiredStandards(level: ValidationLevel): seq<string> {
    match level
    case Basic => []
    case Professional => ["ISO 17025", "ICH Q2"]
    case ProductionReady => ["ISO 17025", "ICH Q2", "GMP", "21 CFR"]
  }

  /** `s.replace(" ", with)`. */
  function ReplaceSpaces(s: string, with: string): string {
    if |s| == 0 then "" else ReplaceSpaces(s[..|s| - 1], with) + (if s[|s| - 1] == ' ' then with else [s[|s| - 1]])
  }

  /** The three spellings searched for a standard in the lower-cased content. */
  function StandardPatterns(standard: string): seq<string> {
    [ReplaceSpaces(Lower(standard), "\\s*"), ReplaceSpaces(standard, ""), ReplaceSpaces(standard, "-")]
  }

  /** A standard is found when one of its spellings is. */
  predicate StandardFound(standard: string, search: string -> bool) {
    var p := StandardPatterns(standard);
    search(p[0]) || search(p[1]) || search(p[2])
  }

  /** The required standards not found, in order. */
  function MissingStandards(required: seq<string>, search: string -> bool): seq<string> {
    if |required| == 0 then []
    else MissingStandards(required[..|required| - 1], search)
         + (if StandardFound(required[|required| - 1], search) then [] else [required[|required| - 1]])
  }

  function MissingStandardIssue(standard: string): ValidationIssue {
    ValidationIssue(IndustryStandards, Major, "Нормативные ссылки", None,
                    "Отсутствует ссылка на стандарт " + standard,
                    "Добавить ссылку на стандарт " + standard + " в соответствующий раздел")
  }

  /** The issues of the required standards not found, in order. */
  function StandardIssues(required: seq<string>, search: string -> bool): seq<ValidationIssue> {
    if |required| == 0 then []
    else StandardIssues(required[..|required| - 1], search)
         + (if StandardFound(required[|required| - 1], search) then [] else [MissingStandardIssue(required[|required| - 1])])
  }

  /** One issue per missing standard, naming it. */
  lemma {:induction false} StandardIssuesSpec(required: seq<string>, search: string -> bool)
    ensures |StandardIssues(required, search)| == |MissingStandards(required, search)|
    ensures forall i :: 0 <= i < |StandardIssues(required, search)| ==>
      StandardIssues(required, search)[i] == MissingStandardIssue(MissingStandards(required, search)[i])
  {
    if |required| > 0 {
      StandardIssuesSpec(required[..|required| - 1], search);
    }
  }

  /** An entry of the industry-standards database: its key, title and required elements. */
  datatype StandardEntry = StandardEntry(key: string, title: string, elements: seq<string>)

  const StandardsDatabase: seq<StandardEntry> := [
    StandardEntry("ISO_17025", "General requirements for the competence of testing and calibration laboratories",
                  ["Method validation parameters", "Uncertainty estimation", "Quality control procedures", "Traceability requirements"]),
    StandardEntry("ICH_Q2", "Validation of Analytical Procedures",
                  ["Accuracy assessment", "Precision evaluation", "Linearity and range", "Detection and quantitation limits", "Robustness testing"]),
    StandardEntry("GMP", "Good Manufacturing Practice",
                  ["Documentation control", "Change control procedures", "Deviation handling", "CAPA system integration"])
  ]

  /** The content cites a database standard by its key or its title. */
  predicate Referenced(contentLower: string, e: StandardEntry) {
    Contains(contentLower, Lower(e.key)) || Contains(contentLower, Lower(e.title))
  }

  /** An element is covered when one of its words occurs in the content. */
  predicate Covered(contentLower: string, element: string) {
    ContainsAny(contentLower, Split(Lower(element), " "))
  }

  /** The elements not covered, in order. */
  function MissingElements(contentLower: string, elements: seq<string>): seq<string> {
    if |elements| == 0 then []
    else MissingElements(contentLower, elements[..|elements| - 1])
         + (if Covered(contentLower, elements[|elements| - 1]) then [] else [elements[|elements| - 1]])
  }

  function IncompleteIssue(key: string, missing: seq<string>): ValidationIssue {
    ValidationIssue(IndustryStandards, Major, "Соответствие " + key, None,
                    "Не выполнены требования стандарта: " + Join(missing, ", "),
                    "Добавить разделы/процедуры для: " + Join(missing, ", "))
  }

  /** The issue of a database entry: one when the content cites it and misses some of its
      required elements, none otherwise. */
  function EntryIssues(contentLower: string, e: StandardEntry): seq<ValidationIssue> {
    var missing := MissingElements(contentLower, e.elements);
    if Referenced(contentLower, e) && |missing| > 0 then [IncompleteIssue(e.key, missing)] else []
  }

  /** The issues of the cited standards that miss required elements, in order. */
  function IncompleteIssues(contentLower: string, entries: seq<StandardEntry>): seq<ValidationIssue> {
    if |entries| == 0 then []
    else IncompleteIssues(contentLower, entries[..|entries| - 1]) + EntryIssues(contentLower, entries[|entries| - 1])
  }

  /** The issues and score of the industry-standards check against the validator's standards
      table `db`. */
  function IndustryStandardsResult(content: string, level: ValidationLevel, db: seq<StandardEntry>,
                                   search: string -> bool): (seq<ValidationIssue>, int) {
    var missing := StandardIssues(RequiredStandards(level), search);
    var incomplete := IncompleteIssues(Lower(content), db);
    (missing + incomplete, Max(0, 100 - 15 * |missing| - 10 * |incomplete|))
  }

  /** `_validate_industry_standards` (content_validator.py:370-435); `db` is the validator's
      `industry_standards` table, `StandardsDatabase` in a freshly built validator. */
  method ValidateIndustryStandards(content: string, level: ValidationLevel, db: seq<StandardEntry>,
                                   search: string -> bool)
    returns (issues: seq<ValidationIssue>, score: int)
    ensures issues == IndustryStandardsResult(content, level, db, search).0
    ensures score == IndustryStandardsResult(content, level, db, search).1
  {
    issues := CollectStandardIssues(RequiredStandards(level), search);
    score := 100 - 15 * |issues|;
    var incomplete := CollectIncomplete(Lower(content), db);
    issues := issues + incomplete;
    score := Max(0, score - 10 * |incomplete|);
  }

  /** The loop over the required standards. */
  method CollectStandardIssues(required: seq<string>, search: string -> bool) returns (issues: seq<ValidationIssue>)
    ensures issues == StandardIssues(required, search)
  {
    issues := [];
    for i := 0 to |required|
      invariant issues == StandardIssues(required[..i], search)
    {
      assert required[..i + 1][..i] == required[..i];
      if !StandardFound(required[i], search) {
        issues := issues + [MissingStandardIssue(required[i])];
      }
    }
    assert required[..|required|] == required;
  }

  /** The loop over the standards database. */
  method CollectIncomplete(contentLower: string, db: seq<StandardEntry>) returns (incomplete: seq<ValidationIssue>)
    ensures incomplete == IncompleteIssues(contentLower, db)
  {
    incomplete := [];
    for i := 0 to |db|
      invariant incomplete == IncompleteIssues(contentLower, db[..i])
    {
      assert db[..i + 1][..i] == db[..i];
      var e := db[i];
      if Referenced(contentLower, e) {
        var absent := CollectMissingElements(contentLower, e.elements);
        if |absent| > 0 {
          incomplete := incomplete + [IncompleteIssue(e.key, absent)];
        }
      }
    }
    assert db[..|db|] == db;
  }

  /** The loop collecting the elements a cited standard misses. */
  method CollectMissingElements(contentLower: string, elements: seq<string>) returns (r: seq<string>)
    ensures r == MissingElements(contentLower, elements)
  {
    r := [];
    for i := 0 to |elements|
      invariant r == MissingElements(contentLower, elements[..i])
    {
      assert elements[..i + 1][..i] == elements[..i];
      if !Covered(contentLower, elements[i]) {
        r := r + [elements[i]];
      }
    }
    assert elements[..|elements|] == elements;
  }

  /** The missing standards are exactly the required ones not found, in order. */
  lemma {:induction false} MissingStandardsSpec(required: seq<string>, search: string -> bool)
    ensures IsSubseq(MissingStandards(required, search), required)
    ensures forall s :: s in MissingStandards(required, search) <==> s in required && !StandardFound(s, search)
  {
    if |required| == 0 {
      IsSubseqRefl(required);
    } else {
      var init := required[..|required| - 1];
      var last := required[|required| - 1];
      MissingStandardsSpec(init, search);
      assert required == init + [last];
      if StandardFound(last, search) {
        assert MissingStandards(required, search) == MissingStandards(init, search);
        SubseqAppendRight(MissingStandards(init, search), init, last);
      } else {
        SubseqAppendBoth(MissingStandards(init, search), init, last);
      }
    }
  }

  /** Each missing standard costs 15 and each cited standard with missing elements 10, with
      the score clamped to [0, 100]; a basic validation requires no standard, and the
      professional requirements are the first two of the production-ready ones. */
  lemma IndustryStandardsSpec(content: string, level: ValidationLevel, db: seq<StandardEntry>, search: string -> bool)
    ensures var (issues, score) := IndustryStandardsResult(content, level, db, search);
      var missing := MissingStandards(RequiredStandards(level), search);
      0 <= score <= 100
      && |issues| == |missing| + |IncompleteIssues(Lower(content), db)|
      && (forall i :: 0 <= i < |missing| ==> issues[i] == MissingStandardIssue(missing[i]))
      && |IncompleteIssues(Lower(content), db)| <= |db|
      && (forall s :: s in missing <==> s in RequiredStandards(level) && !StandardFound(s, search))
      && (level == Basic ==> |missing| == 0)
  {
    MissingStandardsSpec(RequiredStandards(level), search);
    StandardIssuesSpec(RequiredStandards(level), search);
    IncompleteIssuesBound(Lower(content), db);
  }

  /** The professional requirements are the first two production-ready ones, and a fresh
      validator's table holds three standards. */
  lemma RequiredStandardsNested()
    ensures RequiredStandards(Professional) == RequiredStandards(ProductionReady)[..2]
    ensures |RequiredStandards(ProductionReady)| == 4 && |StandardsDatabase| == 3
  {
  }

  lemma {:induction false} IncompleteIssuesBound(contentLower: string, entries: seq<StandardEntry>)
    ensures |IncompleteIssues(contentLower, entries)| <= |entries|
  {
    if |entries| > 0 {
      IncompleteIssuesBound(contentLower, entries[..|entries| - 1]);
    }
  }

  // ---------------------------------------------------------------------------------
  // _validate_safety_compliance and _basic_safety_validation
  // ---------------------------------------------------------------------------------

  /** A fallback safety requirement: its name, its pattern, and the description of its
      issue. */
  datatype SafetyRequirement = SafetyRequirement(name: string, pattern: string, description: string)

  const BasicSafetyRequirements: seq<SafetyRequirement> := [
    SafetyRequirement("PPE requirements", "сиз|защитн.*средств|перчатк|очк", "Требования к СИЗ не указаны"),
    SafetyRequirement("Emergency procedures", "аварий|чрезвычай|экстрен", "Отсутствуют аварийные процедуры"),
    SafetyRequirement("Hazard identification", "опасность|риск|вредн", "Не проведена идентификация опасностей"),
    SafetyRequirement("Regulatory compliance", "гост|санпин|iso", "Отсутствуют ссылки на стандарты безопасности")
  ]

  function UnmetIssue(r: SafetyRequirement): ValidationIssue {
    ValidationIssue(SafetyCompliance, Major, "Безопасность", None, r.description, "Добавить раздел: " + r.name)
  }

  /** The issues of the requirements whose pattern is not found, in order. */
  function UnmetIssues(reqs: seq<SafetyRequirement>, search: string -> bool): (r: seq<ValidationIssue>)
    ensures |r| <= |reqs|
  {
    if |reqs| == 0 then []
    else UnmetIssues(reqs[..|reqs| - 1], search)
         + (if search(reqs[|reqs| - 1].pattern) then [] else [UnmetIssue(reqs[|reqs| - 1])])
  }

  /** The issues and the deduction of the fallback safety check. */
  function BasicSafety(search: string -> bool): (seq<ValidationIssue>, int) {
    (UnmetIssues(BasicSafetyRequirements, search), 15 * |UnmetIssues(BasicSafetyRequirements, search)|)
  }

  /** `_basic_safety_validation` (content_validator.py:484-511). */
  method BasicSafetyValidation(search: string -> bool) returns (issues: seq<ValidationIssue>, deduction: int)
    ensures issues == BasicSafety(search).0
    ensures deduction == BasicSafety(search).1
  {
    issues := [];
    deduction := 0;
    for i := 0 to |BasicSafetyRequirements|
      invariant issues == UnmetIssues(BasicSafetyRequirements[..i], search)
      invariant deduction == 15 * |issues|
    {
      assert BasicSafetyRequirements[..i + 1][..i] == BasicSafetyRequirements[..i];
      var r := BasicSafetyRequirements[i];
      if !search(r.pattern) {
        issues := issues + [UnmetIssue(r)];
        deduction := deduction + 15;
      }
    }
    assert BasicSafetyRequirements[..|BasicSafetyRequirements|] == BasicSafetyRequirements;
  }

  /** The fallback deduction is 15 per unmet requirement, so at most 60, and nothing when
      every pattern is found. */
  lemma BasicSafetySpec(search: string -> bool)
    ensures var (issues, deduction) := BasicSafety(search);
      deduction == 15 * |issues| && 0 <= deduction <= 60
      && ((forall k :: 0 <= k < |BasicSafetyRequirements| ==> search(BasicSafetyRequirements[k].pattern)) ==> deduction == 0)
  {
    var reqs := BasicSafetyRequirements;
    if forall k :: 0 <= k < |reqs| ==> search(reqs[k].pattern) {
      UnmetNone(reqs, search);
    }
  }

  lemma {:induction false} UnmetNone(reqs: seq<SafetyRequirement>, search: string -> bool)
    requires forall k :: 0 <= k < |reqs| ==> search(reqs[k].pattern)
    ensures UnmetIssues(reqs, search) == []
  {
    if |reqs| > 0 {
      UnmetNone(reqs[..|reqs| - 1], search);
    }
  }

  /** What the comprehensive safety integration reports: its gap texts and its integration
      score. */
  datatype SafetyAnalysis = SafetyAnalysis(gaps: seq<string>, integrationScore: int)

  function GapIssue(gap: string): ValidationIssue {
    ValidationIssue(SafetyCompliance, Critical, "Безопасность", None, gap, "Добавить соответствующие процедуры безопасности")
  }

  /** The issues of the gaps, in order. */
  function GapIssues(gaps: seq<string>): (r: seq<ValidationIssue>)
    ensures |r| == |gaps| && forall i :: 0 <= i < |gaps| ==> r[i] == GapIssue(gaps[i])
  {
    if |gaps| == 0 then [] else GapIssues(gaps[..|gaps| - 1]) + [GapIssue(gaps[|gaps| - 1])]
  }

  const IntegrationIssue: ValidationIssue :=
    ValidationIssue(SafetyCompliance, Major, "Интеграция безопасности", None,
                    "Недостаточная интеграция мер безопасности в процедуры",
                    "Усилить интеграцию требований безопасности во все этапы процедуры")

  /** The issues and score of the safety check, on the analysis or, when the integration
      raised (`None`), on the fallback. */
  function SafetyComplianceResult(analysis: Option<SafetyAnalysis>, search: string -> bool): (seq<ValidationIssue>, int) {
    match analysis
    case None =>
      (BasicSafety(search).0, Max(0, 100 - BasicSafety(search).1))
    case Some(a) =>
      var gapIssues := GapIssues(a.gaps);
      var weak := a.integrationScore < 80;
      (gapIssues + (if weak then [IntegrationIssue] else []),
       Max(0, 100 - 20 * |a.gaps| - (if weak then 15 else 0)))
  }

  /** `_validate_safety_compliance` (content_validator.py:437-482). */
  method ValidateSafetyCompliance(analysis: Option<SafetyAnalysis>, search: string -> bool)
    returns (issues: seq<ValidationIssue>, score: int)
    ensures issues == SafetyComplianceResult(analysis, search).0
    ensures score == SafetyComplianceResult(analysis, search).1
  {
    issues := [];
    score := 100;
    if analysis.Some? {
      var gaps := analysis.value.gaps;
      for i := 0 to |gaps|
        invariant issues == GapIssues(gaps[..i])
        invariant score == 100 - 20 * i
      {
        assert gaps[..i + 1][..i] == gaps[..i];
        issues := issues + [GapIssue(gaps[i])];
        score := score - 20;
      }
      assert gaps[..|gaps|] == gaps;
      if analysis.value.integrationScore < 80 {
        issues := issues + [IntegrationIssue];
        score := score - 15;
      } else {
        assert issues == issues + [];
      }
      score := Max(0, score);
    } else {
      var basicIssues, basicDeduction := BasicSafetyValidation(search);
      issues := basicIssues;
      score := Max(0, 100 - basicDeduction);
    }
  }

  /** With an analysis every gap is a critical issue and a weak integration one more major
      issue; the fallback raises only major issues. The score stays in [0, 100], and
      reaches 100 exactly when nothing is reported. */
  lemma SafetyComplianceSpec(analysis: Option<SafetyAnalysis>, search: string -> bool)
    ensures var (issues, score) := SafetyComplianceResult(analysis, search);
      0 <= score <= 100
      && (score == 100 <==> |issues| == 0)
      && (analysis.Some? ==> |issues| == |analysis.value.gaps| + (if analysis.value.integrationScore < 80 then 1 else 0)
                             && forall i :: 0 <= i < |analysis.value.gaps| ==> issues[i].severity == Critical)
      && (analysis.None? ==> forall i :: 0 <= i < |issues| ==> issues[i].severity == Major)
  {
    if analysis.None? {
      BasicSafetySpec(search);
      UnmetMajor(BasicSafetyRequirements, search);
    }
  }

  lemma {:induction false} UnmetMajor(reqs: seq<SafetyRequirement>, search: string -> bool)
    ensures forall i :: 0 <= i < |UnmetIssues(reqs, search)| ==> UnmetIssues(reqs, search)[i].severity == Major
  {
    if |reqs| > 0 {
      UnmetMajor(reqs[..|reqs| - 1], search);
    }
  }

  // ---------------------------------------------------------------------------------
  // _validate_technical_accuracy and _parameters_match
  // ---------------------------------------------------------------------------------

  /** The parameter kinds of the technical patterns. */
  datatype ParamKind = Temperature | Pressure | FlowRate

  function ParamName(k: ParamKind): string {
    match k
    case Temperature => "temperature"
    case Pressure => "pressure"
    case FlowRate => "flow_rate"
  }

  /** The typical ranges of a kind, inclusive at both ends. */
  function TypicalRanges(k: ParamKind): seq<(real, real)> {
    match k
    case Temperature => [(15.0, 30.0), (40.0, 200.0), (200.0, 1000.0)]
    case Pressure => [(0.8, 1.2), (1.0, 10.0), (10.0, 600.0)]
    case FlowRate => [(0.1, 5.0), (5.0, 50.0), (50.0, 1000.0)]
  }

  predicate InTypicalRange(k: ParamKind, v: real) {
    exists i :: 0 <= i < |TypicalRanges(k)| && TypicalRanges(k)[i].0 <= v <= TypicalRanges(k)[i].1
  }

  /** A parameter match: its kind, the value `float(match.group(1))`, the text of the group
      (a literal `\d+(\.\d+)?`, which `float` always accepts) and where the match starts. */
  datatype ParamMatch = ParamMatch(kind: ParamKind, value: real, digits: string, start: nat)

  /** The issue of a value outside every typical range; the description shows the value as
      `{value}` writes a float ("1500" as "1500.0", "1.50" as "1.5"). */
  function RangeIssue(content: string, m: ParamMatch): ValidationIssue {
    ValidationIssue(TechnicalAccuracy, Major, "Параметр " + ParamName(m.kind), Some(LineNumber(content, m.start)),
                    ValueDescription(m.kind, Json.FloatRepr(m.digits)),
                    "Проверить соответствие типичным диапазонам для " + ParamName(m.kind))
  }

  /** "Значение {param_type} ({value}) может быть некорректным". */
  function ValueDescription(k: ParamKind, shown: string): string {
    "Значение " + ParamName(k) + " (" + shown + ") может быть некорректным"
  }

  /** The issue shows the value, not the digits as written: a leading zero, or a trailing
      zero after the point, makes no difference. */
  lemma RangeIssueZeros(content: string, m: ParamMatch)
    requires Json.DecimalLiteral(m.digits)
    ensures RangeIssue(content, m.(digits := "0" + m.digits)) == RangeIssue(content, m)
    ensures LeadingDigits(m.digits) < |m.digits| ==> RangeIssue(content, m.(digits := m.digits + "0")) == RangeIssue(content, m)
  {
    Json.FloatReprLeadingZero(m.digits);
    if LeadingDigits(m.digits) < |m.digits| {
      Json.FloatReprTrailingZero(m.digits);
    }
  }

  /** A whole number of at most 16 digits without a leading zero is shown with ".0". */
  lemma RangeIssueWholeNumber(content: string, m: ParamMatch)
    requires |m.digits| > 0 && Json.AllDigits(m.digits) && m.digits[0] != '0' && |m.digits| <= 16
    ensures RangeIssue(content, m).description == ValueDescription(m.kind, m.digits + ".0")
  {
    Json.FloatReprInteger(m.digits);
  }

  /** The issues of the values outside every typical range, in order. */
  function RangeIssues(content: string, matches: seq<ParamMatch>): seq<ValidationIssue> {
    if |matches| == 0 then []
    else
      var m := matches[|matches| - 1];
      RangeIssues(content, matches[..|matches| - 1]) + (if InTypicalRange(m.kind, m.value) then [] else [RangeIssue(content, m)])
  }

  /** `_parameters_match` (content_validator.py:851-867): values that do not parse are
      `None`; an empty side matches, and otherwise some parsed content value must lie within
      20% of some parsed reference value. */
  predicate ParametersMatch(contentValues: seq<Option<real>>, refValues: seq<Option<real>>) {
    |contentValues| == 0 || |refValues| == 0
    || exists i, j :: 0 <= i < |contentValues| && 0 <= j < |refValues| && contentValues[i].Some? && refValues[j].Some?
         && 0.8 * refValues[j].value <= contentValues[i].value <= 1.2 * refValues[j].value
  }

  /** A parameter found both in the SOP and in the references. */
  datatype ParamComparison = ParamComparison(name: string, contentValues: seq<Option<real>>, refValues: seq<Option<real>>)

  function MismatchIssue(c: ParamComparison): ValidationIssue {
    ValidationIssue(TechnicalAccuracy, Major, "Технические параметры", None,
                    "Параметр " + c.name + " может не соответствовать характеристикам оборудования",
                    "Проверить соответствие техническим характеристикам оборудования")
  }

  /** The issues of the parameters that do not match (`_cross_reference_equipment_specs`,
      content_validator.py:513-566), in order. */
  function MismatchIssues(comparisons: seq<ParamComparison>): (r: seq<ValidationIssue>)
    ensures |r| <= |comparisons|
  {
    if |comparisons| == 0 then []
    else
      var c := comparisons[|comparisons| - 1];
      MismatchIssues(comparisons[..|comparisons| - 1]) + (if ParametersMatch(c.contentValues, c.refValues) then [] else [MismatchIssue(c)])
  }

  /** The inputs of the technical-accuracy check: the parameter matches, the comparisons
      against the equipment references (`None` when the cross-reference does not run), and
      the procedure-logic inputs. */
  datatype TechnicalInput = TechnicalInput(matches: seq<ParamMatch>, comparisons: Option<seq<ParamComparison>>,
                                           steps: seq<StepMatch>, decisionMatches: nat, unclear: nat)

  /** The issues and score of the technical-accuracy check. */
  function TechnicalAccuracyResult(content: string, t: TechnicalInput): (seq<ValidationIssue>, int) {
    var ranges := RangeIssues(content, t.matches);
    var mismatches := if t.comparisons.Some? then MismatchIssues(t.comparisons.value) else [];
    var logic := ProcedureLogic(content, t.steps, t.decisionMatches, t.unclear);
    (ranges + mismatches + logic.0, Max(0, 100 - 5 * |ranges| - 5 * |mismatches| - logic.1))
  }

  /** `_validate_technical_accuracy` (content_validator.py:258-323). */
  method ValidateTechnicalAccuracy(content: string, t: TechnicalInput) returns (issues: seq<ValidationIssue>, score: int)
    ensures issues == TechnicalAccuracyResult(content, t).0
    ensures score == TechnicalAccuracyResult(content, t).1
  {
    var ranges := CollectRangeIssues(content, t.matches);
    var mismatches: seq<ValidationIssue> := [];
    if t.comparisons.Some? {
      mismatches := CollectMismatches(t.comparisons.value);
    }
    var logic, logicDeduction := ValidateProcedureLogic(content, t.steps, t.decisionMatches, t.unclear);
    issues := ranges + mismatches + logic;
    score := Max(0, 100 - 5 * |ranges| - 5 * |mismatches| - logicDeduction);
  }

  /** The loop over the parameter matches. */
  method CollectRangeIssues(content: string, matches: seq<ParamMatch>) returns (issues: seq<ValidationIssue>)
    ensures issues == RangeIssues(content, matches)
  {
    issues := [];
    for i := 0 to |matches|
      invariant issues == RangeIssues(content, matches[..i])
    {
      assert matches[..i + 1][..i] == matches[..i];
      var m := matches[i];
      if !InTypicalRange(m.kind, m.value) {
        issues := issues + [RangeIssue(content, m)];
      }
    }
    assert matches[..|matches|] == matches;
  }

  /** The loop over the compared parameters. */
  method CollectMismatches(comparisons: seq<ParamComparison>) returns (issues: seq<ValidationIssue>)
    ensures issues == MismatchIssues(comparisons)
  {
    issues := [];
    for i := 0 to |comparisons|
      invariant issues == MismatchIssues(comparisons[..i])
    {
      assert comparisons[..i + 1][..i] == comparisons[..i];
      var c := comparisons[i];
      if !ParametersMatch(c.contentValues, c.refValues) {
        issues := issues + [MismatchIssue(c)];
      }
    }
    assert comparisons[..|comparisons|] == comparisons;
  }

  /** A value is flagged exactly when it lies outside all three typical ranges of its kind;
      for temperatures that is below 15, between 30 and 40 (exclusive), or above 1000. */
  lemma {:induction false} RangeIssuesSpec(content: string, matches: seq<ParamMatch>)
    ensures |RangeIssues(content, matches)| <= |matches|
    ensures (forall k :: 0 <= k < |matches| ==> InTypicalRange(matches[k].kind, matches[k].value)) ==> RangeIssues(content, matches) == []
    ensures forall v: real :: InTypicalRange(Temperature, v) <==> 15.0 <= v <= 30.0 || 40.0 <= v <= 1000.0
  {
    if |matches| > 0 {
      RangeIssuesSpec(content, matches[..|matches| - 1]);
    }
    forall v: real ensures InTypicalRange(Temperature, v) <==> 15.0 <= v <= 30.0 || 40.0 <= v <= 1000.0 {
      var r := TypicalRanges(Temperature);
      if 15.0 <= v <= 30.0 {
        assert r[0].0 <= v <= r[0].1;
      } else if 40.0 <= v <= 200.0 {
        assert r[1].0 <= v <= r[1].1;
      } else if 200.0 <= v <= 1000.0 {
        assert r[2].0 <= v <= r[2].1;
      }
    }
  }

  /** Parameters match within 20% tolerance: a value equal to a reference value matches, and
      nothing matches when no content value parses against a non-empty reference list. */
  lemma ParametersMatchSpec(contentValues: seq<Option<real>>, refValues: seq<Option<real>>, v: real)
    requires v >= 0.0
    ensures ParametersMatch([Some(v)], [Some(v)])
    ensures |refValues| > 0 ==> !ParametersMatch(seq(|contentValues| + 1, _ => None), refValues)
  {
    var one := [Some(v)];
    assert one[0].Some? && 0.8 * one[0].value <= one[0].value <= 1.2 * one[0].value;
  }

  // ---------------------------------------------------------------------------------
  // Completeness, the overall score and the achieved level
  // ---------------------------------------------------------------------------------

  /** The severity a quality-assessment issue level becomes. */
  function SeverityOf(level: QualityAssessment.Level): Severity {
    match level
    case Critical => Critical
    case Warning => Major
    case Suggestion => Minor
  }

  /** The completeness score: the found share of the mandatory sections, in percent, or 100
      when there are none. */
  function CompletenessScore(found: nat, missing: nat): real {
    if found + missing > 0 then (found as real / (found + missing) as real) * 100.0 else 100.0
  }

  /** The completeness score lies in [0, 100] and is 100 exactly when nothing is missing. */
  lemma CompletenessScoreSpec(found: nat, missing: nat)
    ensures 0.0 <= CompletenessScore(found, missing) <= 100.0
    ensures CompletenessScore(found, missing) == 100.0 <==> missing == 0
  {
    if found + missing > 0 {
      var t := (found + missing) as real;
      assert found as real <= t;
      assert found as real / t <= 1.0;
      if missing > 0 {
        assert found as real < t;
        assert found as real / t < 1.0;
      }
    }
  }

  /** The overall score of the four components (content_validator.py:241-242). */
  function OverallScore(technical: real, completeness: real, standards: real, safety: real): real {
    technical * 0.3 + completeness * 0.25 + standards * 0.20 + safety * 0.25
  }

  /** The weights sum to 1: the overall score lies between the smallest and the largest
      component, so in [0, 100] when they all do, and equals their common value when they
      agree. */
  lemma OverallScoreSpec(technical: real, completeness: real, standards: real, safety: real)
    ensures var o := OverallScore(technical, completeness, standards, safety);
      var lo := RealMin(RealMin(technical, completeness), RealMin(standards, safety));
      var hi := RealMax(RealMax(technical, completeness), RealMax(standards, safety));
      lo <= o <= hi
    ensures OverallScore(technical, technical, technical, technical) == technical
  {
  }

  function RealMin(a: real, b: real): real { if a <= b then a else b }
  function RealMax(a: real, b: real): real { if a >= b then a else b }

  /** The number of critical issues. */
  function CriticalCount(issues: seq<ValidationIssue>): nat {
    if |issues| == 0 then 0 else CriticalCount(issues[..|issues| - 1]) + (if issues[|issues| - 1].severity == Critical then 1 else 0)
  }

  /** `_determine_validation_level` (content_validator.py:869-879). */
  function DetermineValidationLevel(overall: real, issues: seq<ValidationIssue>): ValidationLevel {
    var critical := CriticalCount(issues);
    if overall >= 95.0 && critical == 0 then ProductionReady
    else if overall >= 80.0 && critical <= 1 then Professional
    else Basic
  }

  /** Production ready needs 95 and no critical issue; professional 80 and at most one; a
      critical-free list is at least as good as one with critical issues. */
  lemma ValidationLevelSpec(overall: real, issues: seq<ValidationIssue>, more: seq<ValidationIssue>)
    ensures DetermineValidationLevel(overall, issues) == ProductionReady <==> overall >= 95.0 && CriticalCount(issues) == 0
    ensures DetermineValidationLevel(overall, issues) == Basic <==>
      !(overall >= 80.0 && CriticalCount(issues) <= 1)
    ensures DetermineValidationLevel(overall, issues + more) == ProductionReady ==> DetermineValidationLevel(overall, issues) == ProductionReady
  {
    CriticalCountAppend(issues, more);
  }

  lemma {:induction false} CriticalCountAppend(a: seq<ValidationIssue>, b: seq<ValidationIssue>)
    ensures CriticalCount(a + b) == CriticalCount(a) + CriticalCount(b)
    decreases |b|
  {
    if |b| > 0 {
      CriticalCountAppend(a, b[..|b| - 1]);
      assert (a + b)[..|a + b| - 1] == a + b[..|b| - 1];
    } else {
      assert a + b == a;
    }
  }

  /** `ContentValidationResult`. */
  datatype ValidationResult = ValidationResult(overall: real, level: ValidationLevel, issues: seq<ValidationIssue>,
                                               missingSections: seq<string>, technical: real, completeness: real,
                                               safety: real, regulatory: real)

  /** `validate_content_real_time` (content_validator.py:211-256) on the results of its four
      validators, in the order they are run. */
  function RealTimeResult(technical: (seq<ValidationIssue>, int), completenessIssues: seq<ValidationIssue>,
                          completenessScore: real, missingSections: seq<string>,
                          standards: (seq<ValidationIssue>, int), safety: (seq<ValidationIssue>, int)): ValidationResult
  {
    var issues := technical.0 + completenessIssues + standards.0 + safety.0;
    var overall := OverallScore(technical.1 as real, completenessScore, standards.1 as real, safety.1 as real);
    ValidationResult(overall, DetermineValidationLevel(overall, issues), issues, missingSections,
                     technical.1 as real, completenessScore, safety.1 as real, standards.1 as real)
  }

  /** The result gathers the issues of the four validators in order, and its overall score
      lies in [0, 100] when the component scores do. */
  lemma RealTimeResultSpec(technical: (seq<ValidationIssue>, int), completenessIssues: seq<ValidationIssue>,
                           completenessScore: real, missingSections: seq<string>,
                           standards: (seq<ValidationIssue>, int), safety: (seq<ValidationIssue>, int))
    requires 0 <= technical.1 <= 100 && 0 <= standards.1 <= 100 && 0 <= safety.1 <= 100
    requires 0.0 <= completenessScore <= 100.0
    ensures var r := RealTimeResult(technical, completenessIssues, completenessScore, missingSections, standards, safety);
      0.0 <= r.overall <= 100.0
      && |r.issues| == |technical.0| + |completenessIssues| + |standards.0| + |safety.0|
      && r.regulatory == standards.1 as real
  {
    OverallScoreSpec(technical.1 as real, completenessScore, standards.1 as real, safety.1 as real);
  }

  // ---------------------------------------------------------------------------------
  // _generate_enhancement_suggestions and _analyze_content_for_enhancements
  // ---------------------------------------------------------------------------------

  /** The "type" of an enhancement suggestion. */
  datatype SuggestionKind =
    | ComprehensiveReview | SafetyIntegration | ContentExpansion | SpecificityImprovement
    | StructureImprovement | ReferenceIntegration

  /** An enhancement suggestion: its type, priority and title, and the sections it
      concerns (a set where the source builds one). */
  datatype Suggestion = Suggestion(kind: SuggestionKind, priority: string, title: string, affected: set<string>)

  /** Some suggestion has the kind. */
  predicate HasKind(r: seq<Suggestion>, kind: SuggestionKind) {
    exists k :: 0 <= k < |r| && r[k].kind == kind
  }

  lemma HasKindAppend(a: seq<Suggestion>, b: seq<Suggestion>, kind: SuggestionKind)
    ensures HasKind(a + b, kind) <==> HasKind(a, kind) || HasKind(b, kind)
  {
    if HasKind(a + b, kind) {
      var k :| 0 <= k < |a + b| && (a + b)[k].kind == kind;
      if k >= |a| {
        assert b[k - |a|].kind == kind;
      }
    }
    if HasKind(b, kind) {
      var k :| 0 <= k < |b| && b[k].kind == kind;
      assert (a + b)[|a| + k].kind == kind;
    }
    if HasKind(a, kind) {
      var k :| 0 <= k < |a| && a[k].kind == kind;
      assert (a + b)[k].kind == kind;
    }
  }

  /** The issue types in order of first appearance (the insertion order of the grouping
      dict). */
  function FirstAppearance(issues: seq<ValidationIssue>): seq<IssueType> {
    if |issues| == 0 then []
    else
      var order := FirstAppearance(issues[..|issues| - 1]);
      var t := issues[|issues| - 1].issueType;
      if t in order then order else order + [t]
  }

  /** The issues of one type. */
  function OfType(issues: seq<ValidationIssue>, t: IssueType): seq<ValidationIssue> {
    if |issues| == 0 then []
    else OfType(issues[..|issues| - 1], t) + (if issues[|issues| - 1].issueType == t then [issues[|issues| - 1]] else [])
  }

  /** The sections of some issues. */
  function SectionsOf(issues: seq<ValidationIssue>): set<string> {
    set i | i in issues :: i.section
  }

  /** The suggestion for a group of three or more issues of one type, if that type has
      one. */
  function GroupSuggestion(t: IssueType, group: seq<ValidationIssue>): seq<Suggestion> {
    if |group| < 3 then []
    else if t == TechnicalAccuracy then
      [Suggestion(ComprehensiveReview, "high", "Техническая точность требует улучшения", SectionsOf(group))]
    else if t == SafetyCompliance then
      [Suggestion(SafetyIntegration, "critical", "Требуется усиление мер безопасности", SectionsOf(group))]
    else []
  }

  /** The group suggestions for the types in `order`, in that order. */
  function GroupSuggestions(order: seq<IssueType>, issues: seq<ValidationIssue>): seq<Suggestion> {
    if |order| == 0 then []
    else GroupSuggestions(order[..|order| - 1], issues)
         + GroupSuggestion(order[|order| - 1], OfType(issues, order[|order| - 1]))
  }

  /** The category-level suggestions (content_validator.py:624-658). */
  function CategorySuggestions(issues: seq<ValidationIssue>): seq<Suggestion> {
    GroupSuggestions(FirstAppearance(issues), issues)
  }

  /** The types in first-appearance order are exactly the types that occur, each once. */
  lemma {:induction false} FirstAppearanceSpec(issues: seq<ValidationIssue>)
    ensures forall t :: t in FirstAppearance(issues) <==> exists i :: 0 <= i < |issues| && issues[i].issueType == t
    ensures forall a, b :: 0 <= a < b < |FirstAppearance(issues)| ==> FirstAppearance(issues)[a] != FirstAppearance(issues)[b]
  {
    if |issues| > 0 {
      var init := issues[..|issues| - 1];
      FirstAppearanceSpec(init);
      forall t ensures t in FirstAppearance(issues) <==> exists i :: 0 <= i < |issues| && issues[i].issueType == t {
        if exists i :: 0 <= i < |init| && init[i].issueType == t {
          var i :| 0 <= i < |init| && init[i].issueType == t;
          assert issues[i] == init[i];
        }
        if exists i :: 0 <= i < |issues| && issues[i].issueType == t {
          var i :| 0 <= i < |issues| && issues[i].issueType == t;
          if i < |init| {
            assert init[i] == issues[i];
          }
        }
      }
    }
  }

  /** A type with an issue has a non-empty group, and a type without one an empty group. */
  lemma {:induction false} OfTypeEmpty(issues: seq<ValidationIssue>, t: IssueType)
    ensures |OfType(issues, t)| == 0 <==> forall i :: 0 <= i < |issues| ==> issues[i].issueType != t
  {
    if |issues| > 0 {
      var init := issues[..|issues| - 1];
      OfTypeEmpty(init, t);
      if |OfType(init, t)| != 0 {
        var i :| 0 <= i < |init| && init[i].issueType == t;
        assert issues[i] == init[i];
      }
      if forall i :: 0 <= i < |init| ==> init[i].issueType != t {
        forall i | 0 <= i < |issues| - 1 ensures issues[i].issueType != t {
          assert issues[i] == init[i];
        }
      }
    }
  }

  /** Over distinct types, a suggestion of a kind is present exactly when its type is in the
      order with a group of three or more. */
  lemma {:induction false} GroupSuggestionsSpec(order: seq<IssueType>, issues: seq<ValidationIssue>)
    requires forall a, b :: 0 <= a < b < |order| ==> order[a] != order[b]
    ensures |GroupSuggestions(order, issues)| <= |order|
    ensures HasKind(GroupSuggestions(order, issues), ComprehensiveReview)
            <==> TechnicalAccuracy in order && |OfType(issues, TechnicalAccuracy)| >= 3
    ensures HasKind(GroupSuggestions(order, issues), SafetyIntegration)
            <==> SafetyCompliance in order && |OfType(issues, SafetyCompliance)| >= 3
    ensures forall k :: 0 <= k < |GroupSuggestions(order, issues)| ==>
      GroupSuggestions(order, issues)[k].kind == ComprehensiveReview || GroupSuggestions(order, issues)[k].kind == SafetyIntegration
  {
    if |order| > 0 {
      var init := order[..|order| - 1];
      var t := order[|order| - 1];
      GroupSuggestionsSpec(init, issues);
      var g := GroupSuggestion(t, OfType(issues, t));
      var r := GroupSuggestions(order, issues);
      var ri := GroupSuggestions(init, issues);
      assert r == ri + g;
      assert t !in init by {
        forall a | 0 <= a < |init| ensures init[a] != t {
          assert order[a] == init[a];
        }
      }
      HasKindAppend(ri, g, ComprehensiveReview);
      HasKindAppend(ri, g, SafetyIntegration);
      assert order == init + [t];
      assert |g| <= 1;
      if |g| == 1 {
        assert HasKind(g, g[0].kind);
      }
      assert HasKind(g, ComprehensiveReview) <==> t == TechnicalAccuracy && |OfType(issues, t)| >= 3;
      assert HasKind(g, SafetyIntegration) <==> t == SafetyCompliance && |OfType(issues, t)| >= 3;
      forall k | 0 <= k < |r| ensures r[k] == (if k < |ri| then ri[k] else g[k - |ri|]) {
      }
    }
  }

  /** Only technical-accuracy and safety groups give suggestions, one each at most, and each
      exactly when its type has three or more issues. */
  lemma CategorySuggestionsSpec(issues: seq<ValidationIssue>)
    ensures |CategorySuggestions(issues)| <= 5
    ensures HasKind(CategorySuggestions(issues), ComprehensiveReview) <==> |OfType(issues, TechnicalAccuracy)| >= 3
    ensures HasKind(CategorySuggestions(issues), SafetyIntegration) <==> |OfType(issues, SafetyCompliance)| >= 3
  {
    var order := FirstAppearance(issues);
    FirstAppearanceSpec(issues);
    GroupSuggestionsSpec(order, issues);
    OfTypeEmpty(issues, TechnicalAccuracy);
    OfTypeEmpty(issues, SafetyCompliance);
    DistinctTypesBound(order);
  }

  /** Distinct issue types are at most five. */
  lemma DistinctTypesBound(order: seq<IssueType>)
    requires forall a, b :: 0 <= a < b < |order| ==> order[a] != order[b]
    ensures |order| <= 5
  {
    var all := {TechnicalAccuracy, Completeness, IndustryStandards, SafetyCompliance, RegulatoryCompliance};
    var elems := set k | 0 <= k < |order| :: order[k];
    forall k | 0 <= k < |order| ensures order[k] in all {
      match order[k]
      case TechnicalAccuracy =>
      case Completeness =>
      case IndustryStandards =>
      case SafetyCompliance =>
      case RegulatoryCompliance =>
    }
    assert elems <= all;
    assert |all| == 5;
    DistinctCard(order);
    TypeSubsetCard(elems, all);
  }

  lemma {:induction false} DistinctCard(order: seq<IssueType>)
    requires forall a, b :: 0 <= a < b < |order| ==> order[a] != order[b]
    ensures |set k | 0 <= k < |order| :: order[k]| == |order|
  {
    if |order| > 0 {
      var init := order[..|order| - 1];
      DistinctCard(init);
      var last := order[|order| - 1];
      var before := set k | 0 <= k < |init| :: init[k];
      var after := set k | 0 <= k < |order| :: order[k];
      assert after == before + {last};
      assert last !in before;
    }
  }

  lemma TypeSubsetCard(a: set<IssueType>, b: set<IssueType>)
    requires a <= b
    ensures |a| <= |b|
  {
    if a != {} {
      var x :| x in a;
      TypeSubsetCard(a - {x}, b - {x});
    }
  }

  /** The generic phrases of the specificity check. */
  const GenericPhrases: seq<string> := [
    "проверить готовность", "убедиться в работоспособности", "выполнить необходимые действия", "при необходимости"
  ]

  /** The number of phrases that occur in the text. */
  function PhraseCount(text: string, phrases: seq<string>): (n: nat)
    ensures n <= |phrases|
  {
    if |phrases| == 0 then 0
    else PhraseCount(text, phrases[..|phrases| - 1]) + (if Contains(text, phrases[|phrases| - 1]) then 1 else 0)
  }

  /** The number of occurrences of a character. */
  function CountChar(s: string, c: char): nat {
    if |s| == 0 then 0 else CountChar(s[..|s| - 1], c) + (if s[|s| - 1] == c then 1 else 0)
  }

  const Expansion := Suggestion(ContentExpansion, "medium", "Документ требует расширения", {"Все разделы"})
  const Structuring := Suggestion(StructureImprovement, "medium", "Структурирование технических данных",
                                  {"Технические характеристики", "Параметры"})
  const ReferenceUse := Suggestion(ReferenceIntegration, "high", "Интеграция справочных материалов",
                                   {"Технические характеристики", "Процедуры"})
  const Specificity := Suggestion(SpecificityImprovement, "high", "Замена общих формулировок конкретными инструкциями",
                                  {"Процедуры"})

  /** `_analyze_content_for_enhancements` (content_validator.py:666-722): the number of
      numeric parameters found and the number of reference documents are given. */
  function ContentSuggestions(content: string, paramCount: nat, referenceDocs: nat): seq<Suggestion> {
    (if |content| < 2000 then [Expansion] else [])
    + (if PhraseCount(Lower(content), GenericPhrases) > 3 then [Specificity] else [])
    + (if paramCount > 5 && CountChar(content, '|') < 10 then [Structuring] else [])
    + (if referenceDocs > 0 then [ReferenceUse] else [])
  }

  /** With four generic phrases the specificity suggestion needs every one of them; the
      suggestions are at most four, and a long document with no parameters and no references
      gets none beyond it. */
  lemma ContentSuggestionsSpec(content: string, paramCount: nat, referenceDocs: nat)
    ensures |ContentSuggestions(content, paramCount, referenceDocs)| <= 4
    ensures PhraseCount(Lower(content), GenericPhrases) > 3 <==>
      forall k :: 0 <= k < |GenericPhrases| ==> Contains(Lower(content), GenericPhrases[k])
    ensures |content| >= 2000 && paramCount <= 5 && referenceDocs == 0 ==>
      ContentSuggestions(content, paramCount, referenceDocs) ==
        (if PhraseCount(Lower(content), GenericPhrases) > 3 then [Specificity] else [])
  {
    PhraseCountAll(Lower(content), GenericPhrases);
  }

  /** All phrases occur exactly when the count reaches their number. */
  lemma {:induction false} PhraseCountAll(text: string, phrases: seq<string>)
    ensures PhraseCount(text, phrases) == |phrases| <==> forall k :: 0 <= k < |phrases| ==> Contains(text, phrases[k])
  {
    if |phrases| > 0 {
      var init := phrases[..|phrases| - 1];
      PhraseCountAll(text, init);
      if forall k :: 0 <= k < |phrases| ==> Contains(text, phrases[k]) {
        forall k | 0 <= k < |init| ensures Contains(text, init[k]) {
          assert init[k] == phrases[k];
        }
      }
      if PhraseCount(text, phrases) == |phrases| {
        forall k | 0 <= k < |phrases| ensures Contains(text, phrases[k]) {
          if k < |init| {
            assert init[k] == phrases[k];
          }
        }
      }
    }
  }

  /** `_generate_enhancement_suggestions` (content_validator.py:624-664). */
  function EnhancementSuggestions(content: string, issues: seq<ValidationIssue>, paramCount: nat, referenceDocs: nat): seq<Suggestion> {
    CategorySuggestions(issues) + ContentSuggestions(content, paramCount, referenceDocs)
  }

  // ---------------------------------------------------------------------------------
  // generate_validation_report: the issue listing and the closing tier
  // ---------------------------------------------------------------------------------

  /** The issues of one severity, in order. */
  function OfSeverity(issues: seq<ValidationIssue>, s: Severity): seq<ValidationIssue> {
    if |issues| == 0 then []
    else OfSeverity(issues[..|issues| - 1], s) + (if issues[|issues| - 1].severity == s then [issues[|issues| - 1]] else [])
  }

  /** The three lines written for a critical or major issue. */
  function IssueLines(i: ValidationIssue): seq<string> {
    ["**" + i.section + ":** " + i.description, "*Рекомендация:* " + i.suggestion, ""]
  }

  /** The lines of a list of critical or major issues. */
  function IssueBlocks(issues: seq<ValidationIssue>): (r: seq<string>)
    ensures |r| == 3 * |issues|
  {
    if |issues| == 0 then [] else IssueBlocks(issues[..|issues| - 1]) + IssueLines(issues[|issues| - 1])
  }

  /** The bullet lines of the minor issues. */
  function MinorBullets(issues: seq<ValidationIssue>): (r: seq<string>)
    ensures |r| == |issues|
  {
    if |issues| == 0 then [] else MinorBullets(issues[..|issues| - 1]) + ["- " + issues[|issues| - 1].description]
  }

  /** The minor-issue block: a header with the count, the first five, and a line with the
      number of the others. */
  function MinorBlock(minor: seq<ValidationIssue>): seq<string> {
    if |minor| == 0 then []
    else
      ["### ℹ️ Незначительные замечания (" + NatToString(|minor|) + " шт.)\n"]
      + MinorBullets(minor[..Min(5, |minor|)])
      + (if |minor| > 5 then ["... и еще " + NatToString(|minor| - 5) + " замечаний"] else [])
      + [""]
  }

  /** The "problems found" part of the report. */
  function IssuesSection(issues: seq<ValidationIssue>): seq<string> {
    if |issues| == 0 then []
    else
      var critical := OfSeverity(issues, Critical);
      var major := OfSeverity(issues, Major);
      ["## Выявленные проблемы\n"]
      + (if |critical| > 0 then ["### ❌ Критические проблемы\n"] + IssueBlocks(critical) else [])
      + (if |major| > 0 then ["### ⚠️ Значительные проблемы\n"] + IssueBlocks(major[..Min(10, |major|)]) else [])
      + MinorBlock(OfSeverity(issues, Minor))
  }

  /** The loop writing the lines of a list of issues. */
  method WriteIssueBlocks(issues: seq<ValidationIssue>) returns (lines: seq<string>)
    ensures lines == IssueBlocks(issues)
  {
    lines := [];
    for i := 0 to |issues|
      invariant lines == IssueBlocks(issues[..i])
    {
      assert issues[..i + 1][..i] == issues[..i];
      var issue := issues[i];
      lines := lines + ["**" + issue.section + ":** " + issue.description];
      lines := lines + ["*Рекомендация:* " + issue.suggestion];
      lines := lines + [""];
    }
    assert issues[..|issues|] == issues;
  }

  /** The loop writing the minor-issue block. */
  method WriteMinorBlock(minor: seq<ValidationIssue>) returns (lines: seq<string>)
    ensures lines == MinorBlock(minor)
  {
    if |minor| == 0 {
      return [];
    }
    lines := ["### ℹ️ Незначительные замечания (" + NatToString(|minor|) + " шт.)\n"];
    var shown := minor[..Min(5, |minor|)];
    ghost var head := lines;
    for i := 0 to |shown|
      invariant lines == head + MinorBullets(shown[..i])
    {
      assert shown[..i + 1][..i] == shown[..i];
      lines := lines + ["- " + shown[i].description];
    }
    assert shown[..|shown|] == shown;
    if |minor| > 5 {
      lines := lines + ["... и еще " + NatToString(|minor| - 5) + " замечаний"];
    }
    lines := lines + [""];
  }

  /** The part of `generate_validation_report` that lists the issues
      (content_validator.py:752-777). */
  method WriteIssuesSection(issues: seq<ValidationIssue>) returns (lines: seq<string>)
    ensures lines == IssuesSection(issues)
  {
    if |issues| == 0 {
      return [];
    }
    var critical := OfSeverity(issues, Critical);
    var major := OfSeverity(issues, Major);
    var minor := OfSeverity(issues, Minor);
    lines := ["## Выявленные проблемы\n"];
    var criticalLines: seq<string> := [];
    if |critical| > 0 {
      var blocks := WriteIssueBlocks(critical);
      criticalLines := ["### ❌ Критические проблемы\n"] + blocks;
    }
    var majorLines: seq<string> := [];
    if |major| > 0 {
      var blocks := WriteIssueBlocks(major[..Min(10, |major|)]);
      majorLines := ["### ⚠️ Значительные проблемы\n"] + blocks;
    }
    var minorLines := WriteMinorBlock(minor);
    lines := lines + criticalLines + majorLines + minorLines;
  }

  /** Every critical issue is listed, at most ten major ones and at most five minor ones; the
      count line of the others appears exactly when there are more than five minor issues. */
  lemma IssuesSectionSpec(issues: seq<ValidationIssue>)
    requires |issues| > 0
    ensures var critical := |OfSeverity(issues, Critical)|;
      var major := |OfSeverity(issues, Major)|;
      var minor := |OfSeverity(issues, Minor)|;
      |IssuesSection(issues)| == 1
        + (if critical > 0 then 1 + 3 * critical else 0)
        + (if major > 0 then 1 + 3 * Min(10, major) else 0)
        + (if minor > 0 then 2 + Min(5, minor) + (if minor > 5 then 1 else 0) else 0)
    ensures var minor := OfSeverity(issues, Minor);
      |minor| > 5 ==> "... и еще " + NatToString(|minor| - 5) + " замечаний" in MinorBlock(minor)
    ensures |OfSeverity(issues, Critical)| + |OfSeverity(issues, Major)| + |OfSeverity(issues, Minor)| == |issues|
  {
    SeveritySplit(issues);
    var minor := OfSeverity(issues, Minor);
    if |minor| > 5 {
      var b := MinorBlock(minor);
      var head := ["### ℹ️ Незначительные замечания (" + NatToString(|minor|) + " шт.)\n"] + MinorBullets(minor[..5]);
      assert b[|head|] == "... и еще " + NatToString(|minor| - 5) + " замечаний";
    }
  }

  lemma {:induction false} SeveritySplit(issues: seq<ValidationIssue>)
    ensures |OfSeverity(issues, Critical)| + |OfSeverity(issues, Major)| + |OfSeverity(issues, Minor)| == |issues|
  {
    if |issues| > 0 {
      SeveritySplit(issues[..|issues| - 1]);
    }
  }

  /** The closing recommendations of the report. */
  datatype Closing = Rework | Refine | NearlyReady

  /** The closing tier (content_validator.py:797-815). */
  function ClosingTier(overall: real): Closing {
    if overall < 70.0 then Rework else if overall < 85.0 then Refine else NearlyReady
  }

  /** The tiers split the scores at 70 and 85, and a higher score never gets a lower tier. */
  lemma ClosingTierSpec(a: real, b: real)
    requires a <= b
    ensures ClosingTier(a) == Rework <==> a < 70.0
    ensures ClosingTier(a) == NearlyReady <==> a >= 85.0
    ensures ClosingTier(a) == NearlyReady ==> ClosingTier(b) == NearlyReady
    ensures ClosingTier(b) == Rework ==> ClosingTier(a) == Rework
  {
  }
}
