/**
 * sop_generator/agents/sop_generator.py: `build_generation_instruction`, the instruction
 * for the SOP generator agent. The user's sections are merged with the mandatory sections
 * they do not already name (compared in lower case), and every section becomes one entry
 * of the document structure. A section without a "title" key makes the source raise
 * `KeyError`, which the model reports as `None`.
 */
module SopInstruction {
  import opened Text
  import opened Wrappers
  import opened Records
  import opened SectionValidator

  // ---------------------------------------------------------------------------------
  // Merging the mandatory sections
  // ---------------------------------------------------------------------------------

  /** The lower-cased key of a section: `s.get('title', '').lower()`. */
  function TitleKey(s: SectionSpec): string {
    Lower(GetOrElse(s.title, ""))
  }

  /** `user_section_titles`. */
  function UserTitles(sections: seq<SectionSpec>): set<string> {
    set s | s in sections :: TitleKey(s)
  }

  /** The template sections whose lower-cased title the user has not used, in order. */
  function Added(template: seq<TemplateSection>, used: set<string>): seq<SectionSpec> {
    if |template| == 0 then []
    else
      var last := template[|template| - 1].spec;
      Added(template[..|template| - 1], used) + (if TitleKey(last) in used then [] else [last])
  }

  /** `enhanced_sections`. */
  function Merged(sections: seq<SectionSpec>, template: seq<TemplateSection>): seq<SectionSpec> {
    sections + Added(template, UserTitles(sections))
  }

  /** The merging loop. */
  method MergeMandatory(sections: seq<SectionSpec>, template: seq<TemplateSection>) returns (enhanced: seq<SectionSpec>)
    ensures enhanced == Merged(sections, template)
  {
    var used := UserTitles(sections);
    enhanced := sections;
    for i := 0 to |template|
      invariant enhanced == sections + Added(template[..i], used)
    {
      assert template[..i + 1][..i] == template[..i];
      if TitleKey(template[i].spec) !in used {
        enhanced := enhanced + [template[i].spec];
      }
    }
    assert template[..|template|] == template;
  }

  /** The added sections are the template's sections whose key is unused, in template
      order. */
  lemma {:induction false} AddedSpec(template: seq<TemplateSection>, used: set<string>)
    ensures forall s :: s in Added(template, used) ==> TitleKey(s) !in used
    ensures forall k :: 0 <= k < |template| && TitleKey(template[k].spec) !in used ==> template[k].spec in Added(template, used)
    ensures IsSubseq(Added(template, used), Specs(template))
  {
    if |template| > 0 {
      var init := template[..|template| - 1];
      var last := template[|template| - 1].spec;
      AddedSpec(init, used);
      assert Specs(template) == Specs(init) + [last];
      forall k | 0 <= k < |template| - 1 && TitleKey(template[k].spec) !in used
        ensures template[k].spec in Added(template, used)
      {
        assert template[k] == init[k];
      }
      if TitleKey(last) in used {
        assert Added(template, used) == Added(init, used);
        SubseqAppendRight(Added(init, used), Specs(init), last);
      } else {
        SubseqAppendBoth(Added(init, used), Specs(init), last);
      }
    }
  }

  /** The section dicts of a template. */
  function Specs(template: seq<TemplateSection>): (r: seq<SectionSpec>)
    ensures |r| == |template|
  {
    seq(|template|, k requires 0 <= k < |template| => template[k].spec)
  }

  /** The merged list starts with every user section, unchanged and in order; every
      template title is then present in lower case; the added sections come from the
      template in its order and none repeats a user title. */
  lemma MergedSpec(sections: seq<SectionSpec>, template: seq<TemplateSection>)
    ensures Merged(sections, template)[..|sections|] == sections
    ensures forall k :: 0 <= k < |template| ==>
      exists s :: s in Merged(sections, template) && TitleKey(s) == TitleKey(template[k].spec)
    ensures IsSubseq(Merged(sections, template)[|sections|..], Specs(template))
    ensures forall s :: s in Merged(sections, template)[|sections|..] ==> TitleKey(s) !in UserTitles(sections)
  {
    var used := UserTitles(sections);
    var m := Merged(sections, template);
    AddedSpec(template, used);
    assert m[|sections|..] == Added(template, used);
    forall k | 0 <= k < |template|
      ensures exists s :: s in m && TitleKey(s) == TitleKey(template[k].spec)
    {
      var key := TitleKey(template[k].spec);
      if key in used {
        var u :| u in sections && TitleKey(u) == key;
        assert u in m;
      } else {
        assert template[k].spec in m;
      }
    }
  }

  /** With the mandatory template, every mandatory title is present in lower case. */
  lemma MandatoryTitlesCovered(sections: seq<SectionSpec>)
    ensures forall i :: 0 <= i < |MandatorySections| ==>
      exists s :: s in Merged(sections, TemplateOf(MandatorySections)) && TitleKey(s) == Lower(MandatorySections[i].title)
  {
    var template := TemplateOf(MandatorySections);
    MergedSpec(sections, template);
    TemplateSpec(MandatorySections);
    forall i | 0 <= i < |MandatorySections|
      ensures exists s :: s in Merged(sections, template) && TitleKey(s) == Lower(MandatorySections[i].title)
    {
      assert TitleKey(template[i].spec) == Lower(MandatorySections[i].title);
    }
  }

  // ---------------------------------------------------------------------------------
  // Section specifications
  // ---------------------------------------------------------------------------------

  const RequirementsLabel: string := "\n  Требования: "

  /** The entry of one section: "- **title** (режим: mode)", mode defaulting to "ai", and the
      requirements line when the section has a non-empty prompt. */
  function SpecEntry(title: string, s: SectionSpec): string {
    "- **" + title + "** (режим: " + GetOrElse(s.mode, "ai") + ")"
      + (if OrElse(s.prompt, "") != "" then RequirementsLabel + s.prompt.value else "")
  }

  /** The entries of the sections, or `None` when one has no title. */
  function SpecEntries(sections: seq<SectionSpec>): Option<seq<string>> {
    if |sections| == 0 then Some([])
    else
      var init := SpecEntries(sections[..|sections| - 1]);
      var s := sections[|sections| - 1];
      if init.None? || s.title.None? then None else Some(init.value + [SpecEntry(s.title.value, s)])
  }

  /** The loop building `section_specifications`. */
  method SectionSpecifications(sections: seq<SectionSpec>) returns (r: Option<seq<string>>)
    ensures r == SpecEntries(sections)
  {
    var entries: seq<string> := [];
    for i := 0 to |sections|
      invariant SpecEntries(sections[..i]) == Some(entries)
    {
      assert sections[..i + 1][..i] == sections[..i];
      var s := sections[i];
      if s.title.None? {
        MissingTitleFails(sections, i + 1, |sections|);
        assert sections[..|sections|] == sections;
        return None;
      }
      var entry := "- **" + s.title.value + "** (режим: " + GetOrElse(s.mode, "ai") + ")";
      if OrElse(s.prompt, "") != "" {
        entry := entry + RequirementsLabel + s.prompt.value;
      }
      assert entry == SpecEntry(s.title.value, s);
      entries := entries + [entry];
    }
    assert sections[..|sections|] == sections;
    r := Some(entries);
  }

  /** Once a section without a title has been read, building fails. */
  lemma {:induction false} MissingTitleFails(sections: seq<SectionSpec>, n: nat, m: nat)
    requires 0 < n <= m <= |sections| && sections[n - 1].title.None?
    ensures SpecEntries(sections[..m]) == None
    decreases m - n
  {
    if m > n {
      MissingTitleFails(sections, n, m - 1);
      assert sections[..m][..m - 1] == sections[..m - 1];
    } else {
      assert sections[..n][..n - 1] == sections[..n - 1];
    }
  }

  /** Building succeeds exactly when every section has a title, and then gives one entry
      per section, in order. */
  lemma {:induction false} SpecEntriesSpec(sections: seq<SectionSpec>)
    ensures SpecEntries(sections).Some? <==> forall k :: 0 <= k < |sections| ==> sections[k].title.Some?
    ensures SpecEntries(sections).Some? ==>
      |SpecEntries(sections).value| == |sections|
      && forall k :: 0 <= k < |sections| ==> SpecEntries(sections).value[k] == SpecEntry(sections[k].title.value, sections[k])
  {
    if |sections| > 0 {
      var init := sections[..|sections| - 1];
      SpecEntriesSpec(init);
      if !(forall k :: 0 <= k < |sections| ==> sections[k].title.Some?) {
        var k :| 0 <= k < |sections| && sections[k].title.None?;
        if k < |sections| - 1 {
          assert init[k] == sections[k];
        }
      }
    }
  }

  /** An entry names the section and its mode, and ends with the requirements line exactly
      when the section has a non-empty prompt. */
  lemma SpecEntrySpec(title: string, s: SectionSpec)
    ensures StartsWith(SpecEntry(title, s), "- **" + title + "** (режим: " + GetOrElse(s.mode, "ai") + ")")
    ensures OrElse(s.prompt, "") != "" ==> EndsWith(SpecEntry(title, s), RequirementsLabel + s.prompt.value)
    ensures OrElse(s.prompt, "") == "" ==> SpecEntry(title, s) == "- **" + title + "** (режим: " + GetOrElse(s.mode, "ai") + ")"
  {
    var head := "- **" + title + "** (режим: " + GetOrElse(s.mode, "ai") + ")";
    var tail := if OrElse(s.prompt, "") != "" then RequirementsLabel + s.prompt.value else "";
    assert SpecEntry(title, s) == head + tail;
    assert (head + tail)[..|head|] == head;
    assert (head + tail)[|head + tail| - |tail|..] == tail;
  }

  // ---------------------------------------------------------------------------------
  // The instruction
  // ---------------------------------------------------------------------------------

  const DocumentRequirements: string :=
    "**ОБЯЗАТЕЛЬНЫЕ ТРЕБОВАНИЯ К ДОКУМЕНТУ:**\n"
    + "1. Включи ВСЕ 9 обязательных разделов согласно отраслевым стандартам\n"
    + "2. Каждый раздел должен содержать конкретные технические детали\n"
    + "3. Интегрируй меры безопасности непосредственно в процедурные шаги\n"
    + "4. Укажи точные параметры, диапазоны значений, критерии успеха\n"
    + "5. Добавь ссылки на нормативные документы и стандарты\n\n"

  const StructureHeading: string := "**СТРУКТУРА ДОКУМЕНТА:**\n"

  const TechnicalAndSafety: string :=
    "**ТЕХНИЧЕСКИЕ ТРЕБОВАНИЯ:**\n"
    + "- Конкретные значения параметров (температура, давление, время, объемы)\n"
    + "- Настройки оборудования с точными значениями\n"
    + "- Критерии успешного/неуспешного выполнения для каждого шага\n"
    + "- Требования к условиям окружающей среды\n"
    + "- Процедуры самодиагностики и калибровки\n\n"
    + "**ИНТЕГРАЦИЯ БЕЗОПАСНОСТИ:**\n"
    + "- Предупреждения **ВНИМАНИЕ** и **ПРЕДУПРЕЖДЕНИЕ** в критических точках\n"
    + "- Детальные требования к СИЗ для каждой операции\n"
    + "- Процедуры ЛОТО (блокировка/маркировка) где применимо\n"
    + "- Аварийные процедуры и контактная информация\n"
    + "- Ссылки на стандарты безопасности (ГОСТ, ISO 45001)\n\n"

  const InstructionClosing: string := "\n\nСоздай документ, готовый к немедленному производственному использованию."

  /** The fixed paragraphs of the instruction: the requirements, the structure heading, the
      technical and safety requirements, and the closing line. */
  datatype Wording = Wording(requirements: string, structureHeading: string, technical: string, closing: string)

  /** The source's wording. */
  const SourceWording: Wording := Wording(DocumentRequirements, StructureHeading, TechnicalAndSafety, InstructionClosing)

  /** The corpus block: present only for a non-empty summary. */
  function CorpusPart(summary: Option<string>): string {
    if OrElse(summary, "") != "" then "\nТЕХНИЧЕСКАЯ ДОКУМЕНТАЦИЯ:\n" + summary.value + "\n" else ""
  }

  /** The critique block: present only for non-empty feedback. */
  function CritiquePart(feedback: Option<string>): string {
    if OrElse(feedback, "") != "" then "\n**КРИТИКА ДЛЯ ИСПРАВЛЕНИЯ:**\n" + feedback.value + "\n" else ""
  }

  /** The opening line of the instruction. */
  function Opening(title: string, number: string, equipment: string): string {
    "Создай профессиональный СОП '" + title + "' (№ " + number + ") для оборудования: " + equipment + ".\n\n"
  }

  /** The structure block: the heading and the joined section entries. */
  function StructurePart(w: Wording, structured: string): string {
    w.structureHeading + structured + "\n\n"
  }

  /** The instruction up to the optional blocks. */
  function Body(w: Wording, title: string, number: string, equipment: string, structured: string): string {
    Opening(title, number, equipment) + w.requirements + StructurePart(w, structured) + w.technical
  }

  /** The instruction from its body, the optional blocks and the closing line. */
  function Assembled(body: string, summary: Option<string>, feedback: Option<string>, closing: string): string {
    body + CorpusPart(summary) + CritiquePart(feedback) + closing
  }

  /** The instruction text around the joined section entries. */
  function InstructionText(w: Wording, title: string, number: string, equipment: string, structured: string,
                           summary: Option<string>, feedback: Option<string>): string {
    Assembled(Body(w, title, number, equipment, structured), summary, feedback, w.closing)
  }

  /** The instruction for the given sections, or `None` when a merged section has no title. */
  function GenerationInstruction(title: string, number: string, equipment: string, sections: seq<SectionSpec>,
                                 summary: Option<string>, feedback: Option<string>): Option<string> {
    var entries := SpecEntries(Merged(sections, TemplateOf(MandatorySections)));
    if entries.None? then None
    else Some(InstructionText(SourceWording, title, number, equipment, Join(entries.value, "\n"), summary, feedback))
  }

  /** `build_generation_instruction` (sop_generator/agents/sop_generator.py:54-118). */
  method BuildGenerationInstruction(title: string, number: string, equipment: string, sections: seq<SectionSpec>,
                                    summary: Option<string>, feedback: Option<string>) returns (r: Option<string>)
    ensures r == GenerationInstruction(title, number, equipment, sections, summary, feedback)
  {
    var template := CreateMandatorySectionsTemplate();
    var enhanced := MergeMandatory(sections, template);
    var entries := SectionSpecifications(enhanced);
    if entries.None? {
      return None;
    }
    var structured := Join(entries.value, "\n");
    r := Some(InstructionText(SourceWording, title, number, equipment, structured, summary, feedback));
  }

  /** The instruction fails exactly when a user section has no title (the template
      sections all have one). */
  lemma InstructionFailsIff(title: string, number: string, equipment: string, sections: seq<SectionSpec>,
                            summary: Option<string>, feedback: Option<string>)
    ensures GenerationInstruction(title, number, equipment, sections, summary, feedback).None?
      <==> exists k :: 0 <= k < |sections| && sections[k].title.None?
  {
    MergedEntriesFailIff(sections);
  }

  /** The merged sections fail to render exactly when a user section has no title. */
  lemma MergedEntriesFailIff(sections: seq<SectionSpec>)
    ensures SpecEntries(Merged(sections, TemplateOf(MandatorySections))).None?
      <==> exists k :: 0 <= k < |sections| && sections[k].title.None?
  {
    TemplateSpec(MandatorySections);
    MergedFailIff(sections, TemplateOf(MandatorySections));
  }

  /** With a template whose sections all have titles, the merged sections fail to render
      exactly when a user section has no title. */
  lemma MergedFailIff(sections: seq<SectionSpec>, template: seq<TemplateSection>)
    requires forall j :: 0 <= j < |template| ==> template[j].spec.title.Some?
    ensures SpecEntries(Merged(sections, template)).None?
      <==> exists k :: 0 <= k < |sections| && sections[k].title.None?
  {
    var m := Merged(sections, template);
    var added := Added(template, UserTitles(sections));
    SpecEntriesSpec(m);
    AddedSpec(template, UserTitles(sections));
    SubseqMembers(added, Specs(template));
    assert m == sections + added;
    forall k | |sections| <= k < |m| ensures m[k].title.Some? {
      assert m[k] == added[k - |sections|];
      assert m[k] in added;
      var j :| 0 <= j < |template| && Specs(template)[j] == m[k];
    }
    forall k | 0 <= k < |sections| ensures m[k] == sections[k] {
    }
  }


  /** The critique block appears for non-empty feedback, and otherwise the instruction is
      the one without feedback. */
  lemma CritiqueShown(body: string, summary: Option<string>, feedback: Option<string>, closing: string)
    ensures OrElse(feedback, "") != "" ==>
      Contains(Assembled(body, summary, feedback, closing), "\n**КРИТИКА ДЛЯ ИСПРАВЛЕНИЯ:**\n" + feedback.value + "\n")
    ensures OrElse(feedback, "") == "" ==>
      Assembled(body, summary, feedback, closing) == Assembled(body, summary, None, closing)
  {
    var kp := CritiquePart(feedback);
    if OrElse(feedback, "") != "" {
      ContainsMiddle(body + CorpusPart(summary), kp, closing);
    }
  }

  /** The corpus block appears for a non-empty summary, and otherwise the instruction is the
      one without a summary. */
  lemma CorpusShown(body: string, summary: Option<string>, feedback: Option<string>, closing: string)
    ensures OrElse(summary, "") != "" ==>
      Contains(Assembled(body, summary, feedback, closing), "\nТЕХНИЧЕСКАЯ ДОКУМЕНТАЦИЯ:\n" + summary.value + "\n")
    ensures OrElse(summary, "") == "" ==>
      Assembled(body, summary, feedback, closing) == Assembled(body, None, feedback, closing)
  {
    var cp := CorpusPart(summary);
    var kp := CritiquePart(feedback);
    if OrElse(summary, "") != "" {
      ContainsMiddle(body, cp, kp);
      ContainsExtended(body + cp + kp, closing, cp);
    }
  }

  /** The joined section entries follow the structure heading in the instruction. */
  lemma StructureInInstruction(w: Wording, title: string, number: string, equipment: string, structured: string,
                               summary: Option<string>, feedback: Option<string>)
    ensures Contains(InstructionText(w, title, number, equipment, structured, summary, feedback),
                     StructurePart(w, structured))
  {
    var body := Body(w, title, number, equipment, structured);
    ContainsMiddle(Opening(title, number, equipment) + w.requirements, StructurePart(w, structured), w.technical);
    ContainsExtended(body, CorpusPart(summary), StructurePart(w, structured));
    ContainsExtended(body + CorpusPart(summary), CritiquePart(feedback), StructurePart(w, structured));
    ContainsExtended(body + CorpusPart(summary) + CritiquePart(feedback), w.closing, StructurePart(w, structured));
  }
}
