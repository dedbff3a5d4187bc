/**
 * sop_generator/utils/advanced_prompts.py: the keyword classifiers for equipment and
 * section titles, the choice of prompt template, the assembly of a section prompt, the
 * prompts of a whole SOP, and the rule-based scoring of generated content. The template
 * table is a parameter (it is built once per engine); the regular-expression tests of the
 * scoring are inputs.
 */
module AdvancedPrompts {
  import opened Wrappers
  import opened Text
  import opened Records
  import opened Keywords

  datatype SectionType =
    | PurposeScope
    | Responsibility
    | SafetyRisk
    | EquipmentMaterials
    | Procedures
    | QualityControl
    | Documentation
    | References
    | Troubleshooting

  /** `SectionType.value`. */
  function SectionValue(t: SectionType): string {
    match t
    case PurposeScope => "purpose_scope"
    case Responsibility => "responsibility"
    case SafetyRisk => "safety_risk"
    case EquipmentMaterials => "equipment_materials"
    case Procedures => "procedures"
    case QualityControl => "quality_control"
    case Documentation => "documentation"
    case References => "references"
    case Troubleshooting => "troubleshooting"
  }

  datatype EquipmentCategory =
    | Chromatography
    | Spectroscopy
    | Microscopy
    | AnalyticalBalance
    | Centrifuge
    | ThermalAnalyzer
    | Generic

  /** `EquipmentCategory.value`. */
  function CategoryValue(c: EquipmentCategory): string {
    match c
    case Chromatography => "chromatography"
    case Spectroscopy => "spectroscopy"
    case Microscopy => "microscopy"
    case AnalyticalBalance => "analytical_balance"
    case Centrifuge => "centrifuge"
    case ThermalAnalyzer => "thermal_analyzer"
    case Generic => "generic"
  }

  // ---------------------------------------------------------------------------------
  // _map_equipment_type and _map_section_title_to_type
  // ---------------------------------------------------------------------------------

  /** The keyword groups of `_map_equipment_type`, in the order they are tested. */
  const EquipmentRules: seq<Rule<EquipmentCategory>> := [
    Rule(["хроматограф", "chromatograph", "hplc", "gc", "lc-ms"], Chromatography),
    Rule(["спектрометр", "spectrometer", "спектрофотометр"], Spectroscopy),
    Rule(["микроскоп", "microscope"], Microscopy),
    Rule(["весы", "balance"], AnalyticalBalance),
    Rule(["центрифуг", "centrifuge"], Centrifuge),
    Rule(["термоанализ", "thermal", "dsc", "tga"], ThermalAnalyzer)]

  /** `_map_equipment_type` (advanced_prompts.py:712-729). */
  function MapEquipmentType(equipmentType: string): EquipmentCategory {
    FirstMatch(Lower(equipmentType), EquipmentRules, Generic)
  }

  /** The category is that of the first keyword group found in the lower-cased text, no
      earlier group being found; it is generic exactly when no group is found. */
  lemma MapEquipmentTypeSpec(equipmentType: string)
    ensures var k := FirstHit(Lower(equipmentType), EquipmentRules);
      (forall j :: 0 <= j < k ==> !ContainsAny(Lower(equipmentType), EquipmentRules[j].keywords))
      && (k < |EquipmentRules| ==>
            ContainsAny(Lower(equipmentType), EquipmentRules[k].keywords)
            && MapEquipmentType(equipmentType) == EquipmentRules[k].answer)
    ensures MapEquipmentType(equipmentType) == Generic <==>
      forall j :: 0 <= j < |EquipmentRules| ==> !ContainsAny(Lower(equipmentType), EquipmentRules[j].keywords)
  {
    FirstMatchSpec(Lower(equipmentType), EquipmentRules, Generic);
  }

  /** The keyword groups of `_map_section_title_to_type`, in the order they are tested. */
  const SectionRules: seq<Rule<SectionType>> := [
    Rule(["цель", "назначение", "область", "применение", "purpose", "scope"], PurposeScope),
    Rule(["ответственность", "персонал", "обучение", "responsibility"], Responsibility),
    Rule(["безопасность", "риск", "опасность", "safety", "risk"], SafetyRisk),
    Rule(["оборудование", "материалы", "средства", "equipment", "materials"], EquipmentMaterials),
    Rule(["процедура", "методика", "порядок", "procedure", "method"], Procedures),
    Rule(["качество", "контроль", "quality", "control"], QualityControl),
    Rule(["документ", "запись", "documentation", "records"], Documentation),
    Rule(["ссылки", "стандарт", "норматив", "references", "standards"], References),
    Rule(["неисправность", "проблема", "диагностика", "troubleshooting"], Troubleshooting)]

  /** `_map_section_title_to_type` (advanced_prompts.py:731-754). */
  function MapSectionTitle(title: string): SectionType {
    FirstMatch(Lower(title), SectionRules, Procedures)
  }

  /** The type is that of the first keyword group found in the lower-cased title, no
      earlier group being found, and procedures when no group is found. */
  lemma MapSectionTitleSpec(title: string)
    ensures var k := FirstHit(Lower(title), SectionRules);
      (forall j :: 0 <= j < k ==> !ContainsAny(Lower(title), SectionRules[j].keywords))
      && (k < |SectionRules| ==>
            ContainsAny(Lower(title), SectionRules[k].keywords)
            && MapSectionTitle(title) == SectionRules[k].answer)
    ensures (forall j :: 0 <= j < |SectionRules| ==> !ContainsAny(Lower(title), SectionRules[j].keywords)) ==>
      MapSectionTitle(title) == Procedures
  {
    FirstMatchSpec(Lower(title), SectionRules, Procedures);
  }

  // ---------------------------------------------------------------------------------
  // Template choice in generate_advanced_prompt
  // ---------------------------------------------------------------------------------

  datatype PromptTemplate = PromptTemplate(
    sectionType: SectionType,
    category: EquipmentCategory,
    basePrompt: string,
    technical: seq<string>,
    safety: seq<string>,
    regulatory: seq<string>,
    quality: seq<string>)

  /** The templates of one section type, in the order of the dictionary. */
  type CategoryTemplates = seq<(EquipmentCategory, PromptTemplate)>

  type Templates = map<SectionType, CategoryTemplates>

  /** Every section type in the table has at least one template, as in the engine's table. */
  predicate WellFormed(templates: Templates) {
    forall s :: s in templates ==> |templates[s]| > 0
  }

  predicate HasKey(table: CategoryTemplates, c: EquipmentCategory) {
    exists i :: 0 <= i < |table| && table[i].0 == c
  }

  /** The template stored under `c`. */
  function Lookup(table: CategoryTemplates, c: EquipmentCategory): (r: Option<PromptTemplate>)
    ensures r.Some? <==> HasKey(table, c)
    ensures r.Some? ==> exists i :: 0 <= i < |table| && table[i] == (c, r.value)
  {
    if |table| == 0 then None
    else if table[0].0 == c then Some(table[0].1)
    else
      var r := Lookup(table[1..], c);
      assert HasKey(table, c) ==> HasKey(table[1..], c) by {
        if HasKey(table, c) {
          var i :| 0 <= i < |table| && table[i].0 == c;
          assert table[1..][i - 1] == table[i];
        }
      }
      assert r.Some? ==> exists i :: 0 <= i < |table| && table[i] == (c, r.value) by {
        if r.Some? {
          var i :| 0 <= i < |table[1..]| && table[1..][i] == (c, r.value);
          assert table[i + 1] == table[1..][i];
        }
      }
      r
  }

  /** The template built for a section type with no templates. */
  function MinimalTemplate(s: SectionType, c: EquipmentCategory): PromptTemplate {
    PromptTemplate(s, c,
      "Создай профессиональный раздел '" + SectionValue(s) + "' с максимальной детализацией.",
      ["Включите технические детали"], ["Включите меры безопасности"],
      ["Включите нормативные требования"], ["Обеспечьте качество содержания"])
  }

  /** The template `generate_advanced_prompt` (advanced_prompts.py:579-598) uses. */
  function ChooseTemplate(templates: Templates, s: SectionType, c: EquipmentCategory): PromptTemplate
    requires WellFormed(templates)
  {
    if s in templates then
      var table := templates[s];
      var exact := Lookup(table, c);
      if exact.Some? then exact.value
      else
        var generic := Lookup(table, Generic);
        if generic.Some? then generic.value else table[0].1
    else MinimalTemplate(s, c)
  }

  /** The template is the one stored for the category; failing that, the generic one;
      failing that, the first one; and a minimal template when the section type has none. */
  lemma ChooseTemplateSpec(templates: Templates, s: SectionType, c: EquipmentCategory)
    requires WellFormed(templates)
    ensures s !in templates ==> ChooseTemplate(templates, s, c) == MinimalTemplate(s, c)
    ensures s in templates ==>
      var table := templates[s];
      exists i :: 0 <= i < |table| && table[i].1 == ChooseTemplate(templates, s, c)
        && (table[i].0 == c
            || (!HasKey(table, c) && table[i].0 == Generic)
            || (!HasKey(table, c) && !HasKey(table, Generic) && i == 0))
  {
    if s in templates {
      var table := templates[s];
      var exact := Lookup(table, c);
      if exact.Some? {
        var i :| 0 <= i < |table| && table[i] == (c, exact.value);
      } else {
        var generic := Lookup(table, Generic);
        if generic.Some? {
          var i :| 0 <= i < |table| && table[i] == (Generic, generic.value);
        }
      }
    }
  }

  /** The templates of section type `s` are stored under `keys`, in that order. */
  predicate KeysAre(table: CategoryTemplates, s: SectionType, keys: seq<EquipmentCategory>) {
    |table| == |keys|
    && forall i :: 0 <= i < |table| ==>
      table[i].0 == keys[i] && table[i].1.sectionType == s && table[i].1.category == keys[i]
  }

  /** The shape of the engine's table (advanced_prompts.py:61, 203, 319, 407). */
  predicate IsSourceTemplates(templates: Templates) {
    templates.Keys == {PurposeScope, SafetyRisk, Procedures, Troubleshooting}
    && KeysAre(templates[PurposeScope], PurposeScope, [Chromatography, Spectroscopy, Generic])
    && KeysAre(templates[SafetyRisk], SafetyRisk, [Chromatography, Generic])
    && KeysAre(templates[Procedures], Procedures, [Chromatography])
    && KeysAre(templates[Troubleshooting], Troubleshooting, [Generic])
  }

  lemma SourceWellFormed(templates: Templates)
    requires IsSourceTemplates(templates)
    ensures WellFormed(templates)
  {
  }

  /** With the engine's table, every procedures prompt uses the chromatography template,
      whatever the equipment. */
  lemma SourceProceduresTemplate(templates: Templates, c: EquipmentCategory)
    requires IsSourceTemplates(templates)
    ensures WellFormed(templates)
    ensures ChooseTemplate(templates, Procedures, c) == templates[Procedures][0].1
    ensures ChooseTemplate(templates, Procedures, c).category == Chromatography
  {
    var proc := templates[Procedures];
    assert proc[0].0 == Chromatography;
    if c != Chromatography {
      assert !HasKey(proc, c);
      assert !HasKey(proc, Generic);
    }
  }

  /** A safety prompt for equipment other than chromatography falls back to the generic
      template. */
  lemma SourceSafetyTemplate(templates: Templates, c: EquipmentCategory)
    requires IsSourceTemplates(templates)
    ensures WellFormed(templates)
    ensures ChooseTemplate(templates, SafetyRisk, c).category == (if c == Chromatography then Chromatography else Generic)
  {
    var safety := templates[SafetyRisk];
    assert safety[0].0 == Chromatography && safety[1].0 == Generic;
    assert HasKey(safety, Generic);
  }

  /** Five of the nine section types have no templates and always get the minimal one. */
  lemma SourceMinimalTemplate(templates: Templates, s: SectionType, c: EquipmentCategory)
    requires IsSourceTemplates(templates)
    requires s in {Responsibility, EquipmentMaterials, QualityControl, Documentation, References}
    ensures WellFormed(templates)
    ensures ChooseTemplate(templates, s, c) == MinimalTemplate(s, c)
  {
  }

  // ---------------------------------------------------------------------------------
  // The prompt assembly in generate_advanced_prompt
  // ---------------------------------------------------------------------------------

  /** The reference context is cut to this many characters. */
  const MaxReferenceContext: nat := 1000
  /** The previous-content summary is cut to this many characters. */
  const MaxPreviousContent: nat := 500

  /** The line renderer that puts `marker` before each requirement. */
  function Marked(marker: string): (nat, string) -> string {
    (k: nat, req: string) => marker + req
  }

  const StandardsLines: seq<string> := [
    "\n**ПРОФЕССИОНАЛЬНЫЕ СТАНДАРТЫ:**",
    "• Документ должен быть готов к немедленному производственному использованию",
    "• Все инструкции должны быть конкретными и измеримыми",
    "• Обеспечьте полную прослеживаемость и документированность",
    "• Интегрируйте меры безопасности в каждый этап процедуры"]

  const FormatLines: seq<string> := [
    "\n**ТРЕБОВАНИЯ К ФОРМАТУ:**",
    "• Используйте четкую иерархическую структуру с нумерацией",
    "• Создавайте таблицы для технических параметров",
    "• Выделяйте предупреждения **ВНИМАНИЕ** и **ПРЕДУПРЕЖДЕНИЕ**",
    "• Используйте чекбоксы ☐ для проверочных листов",
    "• Включайте конкретные ссылки на стандарты"]

  /** The context part: the first 1000 characters of the reference context. */
  function ContextPart(reference: Option<string>): seq<string> {
    if Truthy(reference) then
      ["\n**КОНТЕКСТ ИЗ СПРАВОЧНЫХ ДОКУМЕНТОВ:**\n" + Prefix(reference.value, MaxReferenceContext) + "..."]
    else []
  }

  /** The continuity part: the first 500 characters of the previous-content summary. */
  function PreviousPart(previous: Option<string>): seq<string> {
    if Truthy(previous) then
      ["\n**СВЯЗЬ С ПРЕДЫДУЩИМИ РАЗДЕЛАМИ:**\nОбеспечьте согласованность с: " + Prefix(previous.value, MaxPreviousContent) + "..."]
    else []
  }

  const TechnicalHeading: string := "\n**ОБЯЗАТЕЛЬНЫЕ ТЕХНИЧЕСКИЕ ТРЕБОВАНИЯ:**"
  const SafetyHeading: string := "\n**ТРЕБОВАНИЯ БЕЗОПАСНОСТИ:**"
  const RegulatoryHeading: string := "\n**НОРМАТИВНЫЕ ТРЕБОВАНИЯ:**"
  const QualityHeading: string := "\n**КРИТЕРИИ КАЧЕСТВА:**"
  const CustomHeading: string := "\n**ДОПОЛНИТЕЛЬНЫЕ ТРЕБОВАНИЯ:**"

  /** A requirement list under its heading, one marked line per requirement. */
  function Listed(heading: string, reqs: seq<string>, marker: string): seq<string> {
    [heading] + Rendered(reqs, Marked(marker))
  }

  /** The requirement lists of the template, each under its heading. */
  function RequirementParts(t: PromptTemplate): seq<string> {
    Listed(TechnicalHeading, t.technical, "✓ ") + Listed(SafetyHeading, t.safety, "🛡️ ")
    + Listed(RegulatoryHeading, t.regulatory, "📋 ") + Listed(QualityHeading, t.quality, "🎯 ")
  }

  /** The custom requirements under their heading, when there are any. */
  function CustomPart(custom: seq<string>): seq<string> {
    if |custom| > 0 then Listed(CustomHeading, custom, "⭐ ") else []
  }

  /** The lines of the prompt, in order. */
  function PromptParts(t: PromptTemplate, custom: seq<string>, reference: Option<string>, previous: Option<string>): seq<string> {
    [t.basePrompt] + ContextPart(reference) + PreviousPart(previous) + RequirementParts(t)
    + CustomPart(custom) + StandardsLines + FormatLines
  }

  /** The prompt text: its lines joined by line breaks. */
  function PromptText(t: PromptTemplate, custom: seq<string>, reference: Option<string>, previous: Option<string>): string {
    Join(PromptParts(t, custom, reference, previous), "\n")
  }

  /** The prompt opens with the template's base prompt and has one line per requirement and
      per custom requirement, plus the headings, the context lines that are present and the
      fixed lines on professional standards and format. */
  lemma PromptPartsSpec(t: PromptTemplate, custom: seq<string>, reference: Option<string>, previous: Option<string>)
    ensures var parts := PromptParts(t, custom, reference, previous);
      parts[0] == t.basePrompt
      && |parts| == 1 + (if Truthy(reference) then 1 else 0) + (if Truthy(previous) then 1 else 0)
        + 4 + |t.technical| + |t.safety| + |t.regulatory| + |t.quality|
        + (if |custom| > 0 then 1 + |custom| else 0) + |StandardsLines| + |FormatLines|
  {
    var head := [t.basePrompt] + ContextPart(reference) + PreviousPart(previous);
    assert |head| == 1 + (if Truthy(reference) then 1 else 0) + (if Truthy(previous) then 1 else 0);
    assert |RequirementParts(t)| == 4 + |t.technical| + |t.safety| + |t.regulatory| + |t.quality|;
    assert |CustomPart(custom)| == if |custom| > 0 then 1 + |custom| else 0;
  }

  /** Only the first 1000 characters of the reference context and the first 500 of the
      previous-content summary reach the prompt. */
  lemma PromptClipsContext(t: PromptTemplate, custom: seq<string>, r1: Option<string>, r2: Option<string>,
                           p1: Option<string>, p2: Option<string>)
    requires Truthy(r1) == Truthy(r2) && (Truthy(r1) ==> Prefix(r1.value, MaxReferenceContext) == Prefix(r2.value, MaxReferenceContext))
    requires Truthy(p1) == Truthy(p2) && (Truthy(p1) ==> Prefix(p1.value, MaxPreviousContent) == Prefix(p2.value, MaxPreviousContent))
    ensures PromptText(t, custom, r1, p1) == PromptText(t, custom, r2, p2)
  {
    assert ContextPart(r1) == ContextPart(r2);
    assert PreviousPart(p1) == PreviousPart(p2);
  }

  /** The loop `for req in reqs: prompt_parts.append(marker + req)` under its heading. */
  method AppendRequirements(parts: seq<string>, heading: string, reqs: seq<string>, marker: string) returns (r: seq<string>)
    ensures r == parts + Listed(heading, reqs, marker)
  {
    var lines := RenderAll(reqs, Marked(marker));
    r := parts + [heading] + lines;
  }

  /** The four requirement lists of the template appended in turn. */
  method AppendTemplateRequirements(parts: seq<string>, t: PromptTemplate) returns (r: seq<string>)
    ensures r == parts + RequirementParts(t)
  {
    r := AppendRequirements(parts, TechnicalHeading, t.technical, "✓ ");
    r := AppendRequirements(r, SafetyHeading, t.safety, "🛡️ ");
    r := AppendRequirements(r, RegulatoryHeading, t.regulatory, "📋 ");
    r := AppendRequirements(r, QualityHeading, t.quality, "🎯 ");
  }

  /** `generate_advanced_prompt` (advanced_prompts.py:570-654). */
  method GenerateAdvancedPrompt(templates: Templates, s: SectionType, c: EquipmentCategory, custom: seq<string>,
                                reference: Option<string>, previous: Option<string>) returns (prompt: string)
    requires WellFormed(templates)
    ensures prompt == PromptText(ChooseTemplate(templates, s, c), custom, reference, previous)
  {
    var t := ChooseTemplate(templates, s, c);
    var parts := [t.basePrompt] + ContextPart(reference) + PreviousPart(previous);
    parts := AppendTemplateRequirements(parts, t);
    if |custom| > 0 {
      parts := AppendRequirements(parts, CustomHeading, custom, "⭐ ");
    } else {
      assert parts + CustomPart(custom) == parts;
    }
    parts := parts + StandardsLines + FormatLines;
    prompt := Join(parts, "\n");
  }

  // ---------------------------------------------------------------------------------
  // generate_section_specific_prompts
  // ---------------------------------------------------------------------------------

  /** The text given to manual sections instead of a prompt. */
  const ManualPrompt: string := "Manual content - no AI generation needed"

  /** An entry of the result: manual entries carry no section type and no category. */
  datatype PromptEntry = PromptEntry(title: string, prompt: string, mode: string,
                                     sectionType: Option<string>, category: Option<string>)

  function TitleOf(c: SectionSpec): string {
    GetOrElse(c.title, "")
  }

  function ModeOf(c: SectionSpec): string {
    GetOrElse(c.mode, "ai")
  }

  /** The user's prompt as the only custom requirement, when it is not empty. */
  function CustomOf(c: SectionSpec): seq<string> {
    var p := GetOrElse(c.prompt, "");
    if p != "" then [p] else []
  }

  /** The previous-content summary after the given sections: " title;" per non-manual one. */
  function PreviousSummary(configs: seq<SectionSpec>): string {
    if |configs| == 0 then ""
    else
      var last := configs[|configs| - 1];
      PreviousSummary(configs[..|configs| - 1]) + (if ModeOf(last) == "manual" then "" else " " + TitleOf(last) + ";")
  }

  /** The entry of section `i`. */
  function EntryAt(templates: Templates, category: EquipmentCategory, configs: seq<SectionSpec>, i: nat,
                   reference: Option<string>): PromptEntry
    requires WellFormed(templates) && i < |configs|
  {
    var c := configs[i];
    if ModeOf(c) == "manual" then PromptEntry(TitleOf(c), ManualPrompt, "manual", None, None)
    else
      var st := MapSectionTitle(TitleOf(c));
      var previous := if i > 0 then Some(PreviousSummary(configs[..i])) else None;
      PromptEntry(TitleOf(c), PromptText(ChooseTemplate(templates, st, category), CustomOf(c), reference, previous),
                  ModeOf(c), Some(SectionValue(st)), Some(CategoryValue(category)))
  }

  /** The entry builder of the sections. */
  function EntryMaker(templates: Templates, category: EquipmentCategory, configs: seq<SectionSpec>,
                      reference: Option<string>): (f: nat --> PromptEntry)
    requires WellFormed(templates)
    ensures forall k :: 0 <= k < |configs| ==> f.requires(k)
  {
    (i: nat) requires i < |configs| => EntryAt(templates, category, configs, i, reference)
  }

  /** The prompts of all sections. */
  function SectionPrompts(templates: Templates, equipmentType: string, configs: seq<SectionSpec>,
                          reference: Option<string>): (r: seq<PromptEntry>)
    requires WellFormed(templates)
    ensures |r| == |configs|
  {
    Tabulated(|configs|, EntryMaker(templates, MapEquipmentType(equipmentType), configs, reference))
  }

  /** The body of the loop of `generate_section_specific_prompts` for section `i`. */
  method PromptEntryFor(templates: Templates, category: EquipmentCategory, configs: seq<SectionSpec>, i: nat,
                        reference: Option<string>, summary: string) returns (e: PromptEntry)
    requires WellFormed(templates) && i < |configs|
    requires summary == PreviousSummary(configs[..i])
    ensures e == EntryAt(templates, category, configs, i, reference)
  {
    var c := configs[i];
    var title := TitleOf(c);
    var mode := ModeOf(c);
    if mode == "manual" {
      e := PromptEntry(title, ManualPrompt, "manual", None, None);
    } else {
      var st := MapSectionTitle(title);
      var previous := if i > 0 then Some(summary) else None;
      var prompt := GenerateAdvancedPrompt(templates, st, category, CustomOf(c), reference, previous);
      e := PromptEntry(title, prompt, mode, Some(SectionValue(st)), Some(CategoryValue(category)));
    }
  }

  /** The summary after one more section. */
  method ExtendSummary(configs: seq<SectionSpec>, i: nat, summary: string) returns (r: string)
    requires i < |configs| && summary == PreviousSummary(configs[..i])
    ensures r == PreviousSummary(configs[..i + 1])
  {
    assert configs[..i + 1][..i] == configs[..i];
    assert configs[..i + 1][i] == configs[i];
    r := summary;
    if ModeOf(configs[i]) != "manual" {
      r := summary + " " + TitleOf(configs[i]) + ";";
    }
  }

  /** `generate_section_specific_prompts` (advanced_prompts.py:656-710). */
  method GenerateSectionSpecificPrompts(templates: Templates, equipmentType: string, configs: seq<SectionSpec>,
                                        reference: Option<string>) returns (r: seq<PromptEntry>)
    requires WellFormed(templates)
    ensures r == SectionPrompts(templates, equipmentType, configs, reference)
  {
    var category := MapEquipmentType(equipmentType);
    ghost var maker := EntryMaker(templates, category, configs, reference);
    r := [];
    var summary := "";
    for i := 0 to |configs|
      invariant r == Tabulated(i, maker)
      invariant summary == PreviousSummary(configs[..i])
    {
      var e := PromptEntryFor(templates, category, configs, i, reference, summary);
      assert e == maker(i);
      r := r + [e];
      summary := ExtendSummary(configs, i, summary);
    }
  }

  /** One entry per section, in order, with the section's title and mode; a manual section
      gets the fixed text, and every other one a prompt built for the type its title maps
      to and the category the equipment maps to. */
  lemma SectionPromptsSpec(templates: Templates, equipmentType: string, configs: seq<SectionSpec>,
                           reference: Option<string>, i: nat)
    requires WellFormed(templates) && i < |configs|
    ensures var e := SectionPrompts(templates, equipmentType, configs, reference)[i];
      e.title == TitleOf(configs[i]) && e.mode == ModeOf(configs[i])
      && (ModeOf(configs[i]) == "manual" <==> e.sectionType.None?)
      && (ModeOf(configs[i]) == "manual" ==> e.prompt == ManualPrompt)
      && (ModeOf(configs[i]) != "manual" ==>
            e.sectionType == Some(SectionValue(MapSectionTitle(TitleOf(configs[i]))))
            && e.category == Some(CategoryValue(MapEquipmentType(equipmentType))))
  {
    var maker := EntryMaker(templates, MapEquipmentType(equipmentType), configs, reference);
    TabulatedAt(|configs|, maker, i);
    assert maker(i) == EntryAt(templates, MapEquipmentType(equipmentType), configs, i, reference);
  }

  /** The previous-content summary is not empty exactly when an earlier section is not
      manual, so a prompt refers to earlier sections only when there is a generated one. */
  lemma {:induction false} PreviousSummaryNonEmpty(configs: seq<SectionSpec>)
    ensures PreviousSummary(configs) != "" <==> exists j :: 0 <= j < |configs| && ModeOf(configs[j]) != "manual"
  {
    if |configs| > 0 {
      var init := configs[..|configs| - 1];
      PreviousSummaryNonEmpty(init);
      assert forall j :: 0 <= j < |init| ==> init[j] == configs[j];
      var last := configs[|configs| - 1];
      if ModeOf(last) != "manual" {
        assert |" " + TitleOf(last) + ";"| > 0;
      }
    }
  }

  // ---------------------------------------------------------------------------------
  // validate_generated_content
  // ---------------------------------------------------------------------------------

  /** The outcome of each regular-expression test of `validate_generated_content`. */
  datatype ContentSignals = ContentSignals(
    numbersWithUnits: bool, acceptanceCriteria: bool, ranges: bool, controlProcedures: bool,
    safetyWarnings: bool, ppe: bool, emergency: bool, safetyStandards: bool,
    standardReferences: bool, documentation: bool, validation: bool,
    numberedSteps: bool, timing: bool, exceptionHandling: bool)

  datatype ContentValidation = ContentValidation(
    overall: int, technical: int, safety: int, regulatory: int, operational: int,
    recommendations: seq<string>)

  /** Content longer than this earns the detail points. */
  const DetailLength: nat := 500
  /** A sub-score below this draws a recommendation. */
  const RecommendationBar: nat := 75

  const TechnicalAdvice: string := "Добавить больше технических деталей с конкретными параметрами"
  const SafetyAdvice: string := "Усилить интеграцию мер безопасности"
  const RegulatoryAdvice: string := "Добавить ссылки на нормативные документы"
  const OperationalAdvice: string := "Улучшить операционную готовность процедур"

  function Points(hit: bool, p: nat): nat {
    if hit then p else 0
  }

  function Advice(score: int, text: string): seq<string> {
    if score < RecommendationBar then [text] else []
  }

  /** `validate_generated_content` (advanced_prompts.py:756-839). */
  function ValidateGeneratedContent(content: string, sig: ContentSignals): ContentValidation {
    var tech := Points(sig.numbersWithUnits, 25) + Points(sig.acceptanceCriteria, 25) + Points(sig.ranges, 25)
      + Points(sig.controlProcedures, 25);
    var safety := Points(sig.safetyWarnings, 30) + Points(sig.ppe, 30) + Points(sig.emergency, 20)
      + Points(sig.safetyStandards, 20);
    var reg := Points(sig.standardReferences, 40) + Points(sig.documentation, 30) + Points(sig.validation, 30);
    var op := Points(sig.numberedSteps, 25) + Points(sig.timing, 25) + Points(sig.exceptionHandling, 25)
      + Points(|content| > DetailLength, 25);
    ContentValidation((tech + safety + reg + op) / 4, tech, safety, reg, op,
      Advice(tech, TechnicalAdvice) + Advice(safety, SafetyAdvice) + Advice(reg, RegulatoryAdvice)
      + Advice(op, OperationalAdvice))
  }

  /** Each sub-score lies in [0,100], the overall score is the truncated mean of the four
      and lies in [0,100], and a sub-score reaches 100 exactly when all its tests hold. */
  lemma ValidationScores(content: string, sig: ContentSignals)
    ensures var v := ValidateGeneratedContent(content, sig);
      0 <= v.technical <= 100 && 0 <= v.safety <= 100 && 0 <= v.regulatory <= 100 && 0 <= v.operational <= 100
      && v.overall == (v.technical + v.safety + v.regulatory + v.operational) / 4
      && 0 <= v.overall <= 100
      && (v.technical == 100 <==> sig.numbersWithUnits && sig.acceptanceCriteria && sig.ranges && sig.controlProcedures)
      && (v.safety == 100 <==> sig.safetyWarnings && sig.ppe && sig.emergency && sig.safetyStandards)
      && (v.regulatory == 100 <==> sig.standardReferences && sig.documentation && sig.validation)
      && (v.operational == 100 <==> sig.numberedSteps && sig.timing && sig.exceptionHandling && |content| > DetailLength)
  {
  }

  /** There is one recommendation per sub-score below 75, in category order, so at most
      four; each category's advice is given exactly when its sub-score is below 75. */
  lemma ValidationRecommendations(content: string, sig: ContentSignals)
    ensures var v := ValidateGeneratedContent(content, sig);
      v.recommendations == Advice(v.technical, TechnicalAdvice) + Advice(v.safety, SafetyAdvice)
        + Advice(v.regulatory, RegulatoryAdvice) + Advice(v.operational, OperationalAdvice)
      && |v.recommendations| <= 4
      && (v.technical < 75 <==> TechnicalAdvice in v.recommendations)
      && (v.safety < 75 <==> SafetyAdvice in v.recommendations)
      && (v.regulatory < 75 <==> RegulatoryAdvice in v.recommendations)
      && (v.operational < 75 <==> OperationalAdvice in v.recommendations)
  {
    var v := ValidateGeneratedContent(content, sig);
    var advice := [TechnicalAdvice, SafetyAdvice, RegulatoryAdvice, OperationalAdvice];
    assert |TechnicalAdvice| == 61 && |SafetyAdvice| == 35 && |RegulatoryAdvice| == 40 && |OperationalAdvice| == 41;
    assert forall i, j :: 0 <= i < j < 4 ==> advice[i] != advice[j];
  }
}
