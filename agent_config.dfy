/**
 * sop_generator/config/agent_config.py: the deterministic text handling around the two
 * agents. It renders sections as Markdown, summarises earlier drafts and parsed chunks,
 * builds the generation instruction, and reads the generator's and the critic's JSON
 * replies. The chat requests themselves and the JSON decoding of a reply are not part of
 * this model: a reply enters as its raw text together with the value `json.loads` gave
 * for it (`None` when decoding failed).
 */
module AgentConfig {
  import opened Text
  import opened Wrappers
  import opened Json
  import opened Records

  // ---------------------------------------------------------------------------------
  // _sections_to_markdown

  /** The heading `## {idx}. {title}`. */
  function Heading(idx: nat, title: string): string {
    "## " + NatToString(idx) + ". " + title
  }

  /** The block of the section numbered `idx`. With a non-blank title it is the stripped
      content under a numbered heading, and without one it is the stripped content alone. */
  function MarkdownBlock(idx: nat, sec: Section): string {
    var title := Strip(sec.title);
    var content := Strip(sec.content);
    if title != "" then Strip(Heading(idx, title) + "\n\n" + content) else content
  }

  /** The block of every section, numbered by position from 1. */
  function MarkdownBlocks(sections: seq<Section>): (r: seq<string>)
    ensures |r| == |sections|
  {
    Rendered(sections, MarkdownBlock)
  }

  /** The Markdown document of a list of sections: its non-empty blocks, separated by blank
      lines. */
  function Markdown(sections: seq<Section>): string {
    Join(NonEmptyParts(MarkdownBlocks(sections)), "\n\n")
  }

  /** `_sections_to_markdown` (sop_generator/config/agent_config.py:446-458). */
  method SectionsToMarkdown(sections: seq<Section>) returns (md: string)
    ensures md == Markdown(sections)
  {
    var lines := RenderNonEmpty(sections, MarkdownBlock);
    md := Join(lines, "\n\n");
  }

  /** A section that has a title or content that is not blank. */
  predicate HasText(sec: Section) {
    !IsBlank(sec.title) || !IsBlank(sec.content)
  }

  /** A section with a non-blank title gets a heading that carries its number and its
      stripped title, and its block starts with that heading. A section without a title
      keeps only its stripped content. A block is empty exactly when the section has no
      text. */
  lemma MarkdownBlockSpec(idx: nat, sec: Section)
    ensures Strip(sec.title) != "" ==> StartsWith(MarkdownBlock(idx, sec), Heading(idx, Strip(sec.title)))
    ensures Strip(sec.title) == "" ==> MarkdownBlock(idx, sec) == Strip(sec.content)
    ensures MarkdownBlock(idx, sec) == "" <==> !HasText(sec)
  {
    var title := Strip(sec.title);
    StripEmptyIffBlank(sec.title);
    StripEmptyIffBlank(sec.content);
    if title != "" {
      var h := Heading(idx, title);
      var s := h + "\n\n" + Strip(sec.content);
      StripEnds(sec.title);
      assert h[0] == '#';
      assert !IsSpace('#');
      assert h[|h| - 1] == title[|title| - 1];
      assert s[..|h|] == h;
      PrefixSurvivesStrip(s, h);
    }
  }

  /** The document is empty exactly when no section has any text, and every block in it
      is non-empty. */
  lemma MarkdownEmptyIff(sections: seq<Section>)
    ensures Markdown(sections) == "" <==> forall k :: 0 <= k < |sections| ==> !HasText(sections[k])
    ensures forall k :: 0 <= k < |NonEmptyParts(MarkdownBlocks(sections))| ==> NonEmptyParts(MarkdownBlocks(sections))[k] != ""
  {
    var blocks := MarkdownBlocks(sections);
    var kept := NonEmptyParts(blocks);
    NonEmptyPartsSpec(blocks);
    forall k | 0 <= k < |sections|
      ensures blocks[k] == "" <==> !HasText(sections[k])
    {
      MarkdownBlockSpec(k + 1, sections[k]);
    }
    if |kept| > 0 {
      JoinStartsWithFirst(kept, "\n\n");
      assert kept[0] != "";
    }
  }

  // ---------------------------------------------------------------------------------
  // _summarize_generation_for_memory

  const EmptySummary: string := "(пусто)"

  /** The fallback title `Раздел {idx}`. */
  function SectionLabel(idx: nat): string {
    "Раздел " + NatToString(idx)
  }

  /** A section's content as a memory line shows it: stripped, on one line, and cut to 157
      characters plus an ellipsis when it is longer than 160. */
  function MemoryContent(content: string): string {
    var c := ReplaceChar(Strip(content), '\n', ' ');
    if |c| > 160 then ClipWithEllipsis(c, 157) else c
  }

  /** The memory line of the section numbered `idx`. */
  function MemoryLine(idx: nat, sec: Section): string {
    NatToString(idx) + ". " + Or(sec.title, SectionLabel(idx)) + ": " + MemoryContent(sec.content)
  }

  /** The memory line of every section, numbered by position from 1. */
  function MemoryLines(sections: seq<Section>): (r: seq<string>)
    ensures |r| == |sections|
  {
    Rendered(sections, MemoryLine)
  }

  /** The memory summary of a draft's sections. */
  function MemorySummary(sections: seq<Section>, maxChars: int): string {
    var lines := MemoryLines(sections);
    var summary := Join(lines[..KeptUntilOver(lines, maxChars, 0)], "\n");
    var cut := if |summary| > maxChars then RStrip(SliceTo(summary, maxChars)) + "…" else summary;
    if cut != "" then cut else EmptySummary
  }

  /** `_summarize_generation_for_memory` (sop_generator/config/agent_config.py:461-475), on
      the sections of the draft. */
  method SummarizeGenerationForMemory(sections: seq<Section>, maxChars: int) returns (summary: string)
    ensures summary == MemorySummary(sections, maxChars)
  {
    var lines := RenderUntilOver(sections, MemoryLine, maxChars);
    var s := Join(lines, "\n");
    if |s| > maxChars {
      s := RStrip(SliceTo(s, maxChars)) + "…";
    }
    summary := if s != "" then s else EmptySummary;
  }

  /** A memory line's content is at most 160 characters on a single line. Content longer
      than that is cut to at most 157 characters and ends with an ellipsis; shorter content
      is kept whole, with its line breaks turned into spaces. */
  lemma MemoryContentSpec(content: string)
    ensures |MemoryContent(content)| <= 160
    ensures forall i :: 0 <= i < |MemoryContent(content)| ==> MemoryContent(content)[i] != '\n'
    ensures |Strip(content)| <= 160 ==> MemoryContent(content) == ReplaceChar(Strip(content), '\n', ' ')
    ensures |Strip(content)| > 160 ==>
      |MemoryContent(content)| <= 158 && MemoryContent(content)[|MemoryContent(content)| - 1] == '…'
  {
    var c := ReplaceChar(Strip(content), '\n', ' ');
    ReplaceCharRemoves(Strip(content), '\n', ' ');
    if |c| > 160 {
      var r := ClipWithEllipsis(c, 157);
      forall i | 0 <= i < |r| ensures r[i] != '\n' {
        if i < |r| - 1 {
          assert r[i] == r[..|r| - 1][i] == c[i];
        }
      }
    }
  }

  /** A draft without sections is summarised as "(пусто)" (for a negative `maxChars` the
      empty summary counts as too long and becomes a lone ellipsis). Otherwise the summary
      keeps at least the first line, and takes at most `maxChars` characters plus the
      ellipsis that marks a cut. */
  lemma MemorySummarySpec(sections: seq<Section>, maxChars: int)
    ensures sections == [] && maxChars >= 0 ==> MemorySummary(sections, maxChars) == EmptySummary
    ensures sections != [] && maxChars >= 0 ==> |MemorySummary(sections, maxChars)| <= maxChars + 1
  {
    var all := MemoryLines(sections);
    if sections != [] && maxChars >= 0 {
      assert all[0] == MemoryLine(1, sections[0]);
      MemoryLineNonEmpty(1, sections[0]);
      ClippedSpec(all, maxChars);
    }
  }

  /** A memory line starts with its number, so it is never empty. */
  lemma MemoryLineNonEmpty(idx: nat, sec: Section)
    ensures MemoryLine(idx, sec) != ""
  {
    assert |NatToString(idx)| >= 1;
  }

  /** Joining the lines that fit and clipping the result leaves a non-empty text of at most
      one character over the limit when the first line is not empty. */
  lemma ClippedSpec(all: seq<string>, maxChars: int)
    requires maxChars >= 0 && |all| > 0 && all[0] != ""
    ensures var summary := Join(all[..KeptUntilOver(all, maxChars, 0)], "\n");
      var cut := if |summary| > maxChars then RStrip(SliceTo(summary, maxChars)) + "…" else summary;
      cut != "" && |cut| <= maxChars + 1
  {
    var lines := all[..KeptUntilOver(all, maxChars, 0)];
    var summary := Join(lines, "\n");
    KeptUntilOverSpec(all, maxChars, 0);
    JoinStartsWithFirst(lines, "\n");
    assert lines[0] == all[0];
    assert summary != "";
    if |summary| > maxChars {
      assert |RStrip(SliceTo(summary, maxChars))| <= maxChars;
    }
  }

  // ---------------------------------------------------------------------------------
  // summarize_parsed_chunks

  /** The stripped text a chunk contributes. A value that is not a dict, a missing or empty
      "content", and blank content contribute nothing. */
  function Snippet(c: ChunkEntry): Option<string> {
    if c.ChunkDict? && c.content.Some? && c.content.value != "" && Strip(c.content.value) != ""
    then Some(Strip(c.content.value))
    else None
  }

  /** The snippets of the first `n` chunks. */
  function Snippets(chunks: seq<ChunkEntry>, n: nat): seq<string>
    requires n <= |chunks|
  {
    if n == 0 then []
    else Snippets(chunks, n - 1) + (if Snippet(chunks[n - 1]).Some? then [Snippet(chunks[n - 1]).value] else [])
  }

  /** How many chunks are read, counting on from `n`: reading stops after the snippet that
      takes the total length to one and a half times `maxLength`. */
  function SnippetCount(chunks: seq<ChunkEntry>, maxLength: int, n: nat): (c: nat)
    requires n <= |chunks|
    ensures n <= c <= |chunks|
    decreases |chunks| - n
  {
    if n == |chunks| then n
    else if Snippet(chunks[n]).Some? && 2 * TotalLen(Snippets(chunks, n + 1)) >= 3 * maxLength then n + 1
    else SnippetCount(chunks, maxLength, n + 1)
  }

  /** The collected snippets, one per line. */
  function MergedSnippets(chunks: seq<ChunkEntry>, maxLength: int): string {
    Join(Snippets(chunks, SnippetCount(chunks, maxLength, 0)), "\n")
  }

  /** The position of the last sentence end (".", "!" or "?") in `t`, or -1. */
  function SentenceEnd(t: string): (r: int)
    ensures -1 <= r < |t|
  {
    Max(Max(RFind(t, "."), RFind(t, "!")), RFind(t, "?"))
  }

  /** A merged text that is too long: cut to `maxLength` characters, then after the last
      sentence end when that lies past 60% of `maxLength`, with trailing whitespace removed
      and an ellipsis appended. */
  function TruncatedSummary(merged: string, maxLength: int): (r: string)
    ensures |r| >= 1 && r[|r| - 1] == '…'
    ensures StartsWith(merged, r[..|r| - 1])
    ensures maxLength >= 0 ==> |r| <= maxLength + 1
  {
    var truncated := SliceTo(merged, maxLength);
    var last := SentenceEnd(truncated);
    var t := if 5 * last > 3 * maxLength then truncated[..last + 1] else truncated;
    RStripPrefixOf(t);
    assert StartsWith(truncated, t);
    RStrip(t) + "…"
  }

  /** The summary of a parsed corpus. */
  function ChunkSummary(chunks: seq<ChunkEntry>, maxLength: int): string {
    var merged := MergedSnippets(chunks, maxLength);
    if Snippets(chunks, SnippetCount(chunks, maxLength, 0)) == [] then ""
    else if |merged| <= maxLength then merged
    else TruncatedSummary(merged, maxLength)
  }

  /** The collecting loop of `summarize_parsed_chunks`. */
  method CollectSnippets(chunks: seq<ChunkEntry>, maxLength: int) returns (collected: seq<string>)
    ensures collected == Snippets(chunks, SnippetCount(chunks, maxLength, 0))
  {
    collected := [];
    var i := 0;
    while i < |chunks|
      invariant 0 <= i <= |chunks|
      invariant collected == Snippets(chunks, i)
      invariant SnippetCount(chunks, maxLength, 0) == SnippetCount(chunks, maxLength, i)
    {
      var chunk := chunks[i];
      i := i + 1;
      if !chunk.ChunkDict? || chunk.content.None? || chunk.content.value == "" {
        continue;
      }
      var snippet := Strip(chunk.content.value);
      if snippet == "" {
        continue;
      }
      collected := collected + [snippet];
      if 2 * TotalLen(collected) >= 3 * maxLength {
        break;
      }
    }
    assert SnippetCount(chunks, maxLength, 0) == i;
  }

  /** `summarize_parsed_chunks` (sop_generator/config/agent_config.py:755-781). The
      comparisons with `max_length * 1.5` and `max_length * 0.6` are written over the
      integers. */
  method SummarizeParsedChunks(chunks: seq<ChunkEntry>, maxLength: int) returns (summary: string)
    ensures summary == ChunkSummary(chunks, maxLength)
  {
    var collected := CollectSnippets(chunks, maxLength);
    if collected == [] {
      return "";
    }
    var merged := Join(collected, "\n");
    if |merged| <= maxLength {
      return merged;
    }
    summary := TruncatedSummary(merged, maxLength);
  }

  /** Reading stops only right after a chunk that gave a snippet, or at the end. */
  lemma {:induction false} SnippetCountStops(chunks: seq<ChunkEntry>, maxLength: int, n: nat)
    requires n <= |chunks|
    ensures var c := SnippetCount(chunks, maxLength, n);
      c == |chunks| || (c > 0 && Snippet(chunks[c - 1]).Some?)
    ensures SnippetCount(chunks, maxLength, n) < |chunks| ==>
      2 * TotalLen(Snippets(chunks, SnippetCount(chunks, maxLength, n))) >= 3 * maxLength
    decreases |chunks| - n
  {
    if n < |chunks| && !(Snippet(chunks[n]).Some? && 2 * TotalLen(Snippets(chunks, n + 1)) >= 3 * maxLength) {
      SnippetCountStops(chunks, maxLength, n + 1);
    }
  }

  lemma {:induction false} SnippetsEmpty(chunks: seq<ChunkEntry>, n: nat)
    requires n <= |chunks|
    ensures Snippets(chunks, n) == [] <==> forall k :: 0 <= k < n ==> Snippet(chunks[k]).None?
  {
    if n > 0 {
      SnippetsEmpty(chunks, n - 1);
    }
  }

  lemma {:induction false} SnippetsNonEmpty(chunks: seq<ChunkEntry>, n: nat)
    requires n <= |chunks|
    ensures forall k :: 0 <= k < |Snippets(chunks, n)| ==> Snippets(chunks, n)[k] != ""
  {
    if n > 0 {
      SnippetsNonEmpty(chunks, n - 1);
    }
  }

  /** Some snippet is collected exactly when some chunk has usable content, because the
      first one is always read. */
  lemma CollectedIff(chunks: seq<ChunkEntry>, maxLength: int)
    ensures Snippets(chunks, SnippetCount(chunks, maxLength, 0)) == [] <==>
      forall k :: 0 <= k < |chunks| ==> Snippet(chunks[k]).None?
  {
    var c := SnippetCount(chunks, maxLength, 0);
    SnippetCountStops(chunks, maxLength, 0);
    SnippetsEmpty(chunks, c);
    SnippetsEmpty(chunks, |chunks|);
    if c < |chunks| {
      assert Snippets(chunks, c) == Snippets(chunks, c - 1) + [Snippet(chunks[c - 1]).value];
    }
  }

  /** The merged text is empty exactly when nothing was collected. */
  lemma MergedIff(chunks: seq<ChunkEntry>, maxLength: int)
    ensures MergedSnippets(chunks, maxLength) == "" <==> Snippets(chunks, SnippetCount(chunks, maxLength, 0)) == []
  {
    var collected := Snippets(chunks, SnippetCount(chunks, maxLength, 0));
    if collected != [] {
      SnippetsNonEmpty(chunks, SnippetCount(chunks, maxLength, 0));
      JoinStartsWithFirst(collected, "\n");
      assert collected[0] != "";
    }
  }

  /** The summary is empty exactly when no chunk has usable content. A merged text that
      fits in `maxLength` is returned whole; a longer one is cut to a prefix of it followed
      by an ellipsis. Either way the summary takes at most `maxLength` characters plus the
      ellipsis. */
  lemma ChunkSummarySpec(chunks: seq<ChunkEntry>, maxLength: int)
    ensures ChunkSummary(chunks, maxLength) == "" <==> forall k :: 0 <= k < |chunks| ==> Snippet(chunks[k]).None?
    ensures |MergedSnippets(chunks, maxLength)| <= maxLength ==>
      ChunkSummary(chunks, maxLength) == MergedSnippets(chunks, maxLength)
    ensures MergedSnippets(chunks, maxLength) != "" && |MergedSnippets(chunks, maxLength)| > maxLength ==>
      ChunkSummary(chunks, maxLength) == TruncatedSummary(MergedSnippets(chunks, maxLength), maxLength)
    ensures maxLength >= 0 ==> |ChunkSummary(chunks, maxLength)| <= maxLength + 1
  {
    CollectedIff(chunks, maxLength);
    MergedIff(chunks, maxLength);
  }

  // ---------------------------------------------------------------------------------
  // build_generation_instruction

  const InstructionIntro: string := "Сформируй" + " проект стандартной операционной процедуры (СОП) на русском языке."
  const SourceDataHeading: string := "\nИсходные данные:"
  const SectionsHeading: string := "\nНеобходимые разделы:"
  const CorpusHeading: string := "\nКраткое содержание справочных документов:"
  const CritiqueHeading: string := "\nКомментарии критика с предыдущей итерации (учти их):"
  const InstructionClosing: seq<string> := [
    "\nПодготовь содержательный текст каждого раздела, используй Markdown для структурирования.",
    "Ответ верни строго в формате JSON, как указано в системной подсказке."
  ]

  /** The line describing the configured section numbered `idx`: its title (or
      `Раздел {idx}`), its mode ("ai" when the key is missing) and its prompt hint when it
      has one. */
  function Descriptor(idx: nat, sec: SectionSpec): string {
    var hint := OrElse(sec.prompt, "");
    var base := NatToString(idx) + ". " + OrElse(sec.title, SectionLabel(idx)) + " (режим: " + GetOrElse(sec.mode, "ai") + ")";
    if hint != "" then base + (" — подсказка: " + hint) else base
  }

  /** The descriptor of every configured section, numbered by position from 1. */
  function Descriptors(sections: seq<SectionSpec>): (r: seq<string>)
    ensures |r| == |sections|
  {
    Rendered(sections, Descriptor)
  }

  /** The "source data" block: present when any of title, number and equipment is given,
      with one line for each one given. */
  function SourceDataLines(title: string, number: string, equipment: string): seq<string> {
    if title != "" || number != "" || equipment != "" then
      [SourceDataHeading]
      + (if title != "" then ["Название: " + title] else [])
      + (if number != "" then ["Номер: " + number] else [])
      + (if equipment != "" then ["Оборудование/процесс: " + equipment] else [])
    else []
  }

  /** The block for an optional text: a heading and the stripped text, when the text is
      given and not empty. */
  function OptionalBlock(heading: string, text: Option<string>): seq<string> {
    if OrElse(text, "") != "" then [heading, Strip(text.value)] else []
  }

  /** The block listing the configured sections, when there are any. */
  function SectionsBlock(sections: seq<SectionSpec>): seq<string> {
    if |sections| > 0 then [SectionsHeading] + Descriptors(sections) else []
  }

  /** The opening request and the source-data block. */
  function InstructionHead(title: string, number: string, equipment: string): seq<string> {
    [InstructionIntro] + SourceDataLines(title, number, equipment)
  }

  /** The corpus summary, the critic's comments and the closing lines. */
  function InstructionTail(corpus: Option<string>, critique: Option<string>): seq<string> {
    OptionalBlock(CorpusHeading, corpus) + OptionalBlock(CritiqueHeading, critique) + InstructionClosing
  }

  function InstructionLines(title: string, number: string, equipment: string, sections: seq<SectionSpec>,
                            corpus: Option<string>, critique: Option<string>): seq<string> {
    InstructionHead(title, number, equipment) + SectionsBlock(sections) + InstructionTail(corpus, critique)
  }

  /** The generation instruction: its lines, one per line, stripped. */
  function GenerationInstruction(title: string, number: string, equipment: string, sections: seq<SectionSpec>,
                                 corpus: Option<string>, critique: Option<string>): string {
    Strip(Join(InstructionLines(title, number, equipment, sections, corpus, critique), "\n"))
  }

  /** The "source data" lines of `build_generation_instruction`. */
  method AddSourceData(title: string, number: string, equipment: string) returns (lines: seq<string>)
    ensures lines == SourceDataLines(title, number, equipment)
  {
    lines := [];
    if title != "" || number != "" || equipment != "" {
      lines := [SourceDataHeading];
      if title != "" {
        lines := lines + ["Название: " + title];
      }
      if number != "" {
        lines := lines + ["Номер: " + number];
      }
      if equipment != "" {
        lines := lines + ["Оборудование/процесс: " + equipment];
      }
    }
  }

  /** `build_generation_instruction` (sop_generator/config/agent_config.py:710-752). */
  method BuildGenerationInstruction(title: string, number: string, equipment: string, sections: seq<SectionSpec>,
                                    corpus: Option<string>, critique: Option<string>) returns (instruction: string)
    ensures instruction == GenerationInstruction(title, number, equipment, sections, corpus, critique)
  {
    var sourceData := AddSourceData(title, number, equipment);
    var head := [InstructionIntro] + sourceData;
    var sectionLines: seq<string> := [];
    if |sections| > 0 {
      var descriptors := RenderAll(sections, Descriptor);
      sectionLines := [SectionsHeading] + descriptors;
    }
    var corpusLines: seq<string> := [];
    if corpus.Some? && corpus.value != "" {
      corpusLines := [CorpusHeading, Strip(corpus.value)];
    }
    var critiqueLines: seq<string> := [];
    if critique.Some? && critique.value != "" {
      critiqueLines := [CritiqueHeading, Strip(critique.value)];
    }
    var lines := head + sectionLines + (corpusLines + critiqueLines + InstructionClosing);
    instruction := Strip(Join(lines, "\n"));
  }

  /** A descriptor starts with its section's number. It ends with the prompt hint when the
      section has one, and with the closing parenthesis after the mode otherwise. */
  lemma DescriptorSpec(idx: nat, sec: SectionSpec)
    ensures StartsWith(Descriptor(idx, sec), NatToString(idx) + ". ")
    ensures OrElse(sec.prompt, "") != "" ==> EndsWith(Descriptor(idx, sec), " — подсказка: " + sec.prompt.value)
    ensures OrElse(sec.prompt, "") == "" ==> EndsWith(Descriptor(idx, sec), ")")
  {
    var d := Descriptor(idx, sec);
    var p := NatToString(idx) + ". ";
    assert d[..|p|] == p;
    if OrElse(sec.prompt, "") != "" {
      var tail := " — подсказка: " + sec.prompt.value;
      assert d[|d| - |tail|..] == tail;
    } else {
      assert d[|d| - 1..] == ")";
    }
  }

  /** The instruction opens with the fixed request line. */
  lemma InstructionStartsWithIntro(title: string, number: string, equipment: string, sections: seq<SectionSpec>,
                                   corpus: Option<string>, critique: Option<string>)
    ensures StartsWith(GenerationInstruction(title, number, equipment, sections, corpus, critique), InstructionIntro)
  {
    var lines := InstructionLines(title, number, equipment, sections, corpus, critique);
    JoinStartsWithFirst(lines, "\n");
    assert lines[0] == InstructionIntro;
    assert !IsSpace(InstructionIntro[0]) && !IsSpace(InstructionIntro[|InstructionIntro| - 1]);
    PrefixSurvivesStrip(Join(lines, "\n"), InstructionIntro);
  }

  lemma MiddleOf<T>(x: seq<T>, y: seq<T>, z: seq<T>)
    ensures (x + y + z)[|x|..|x| + |y|] == y
  {
  }

  /** The instruction lists every configured section in order, under its position number,
      right after the opening, the source-data block and the sections heading. */
  lemma InstructionListsSections(title: string, number: string, equipment: string, sections: seq<SectionSpec>,
                                 corpus: Option<string>, critique: Option<string>)
    ensures |sections| > 0 ==>
      InstructionLines(title, number, equipment, sections, corpus, critique)
        [|InstructionHead(title, number, equipment)|..|InstructionHead(title, number, equipment)| + 1 + |sections|]
      == [SectionsHeading] + Descriptors(sections)
  {
    MiddleOf(InstructionHead(title, number, equipment), SectionsBlock(sections), InstructionTail(corpus, critique));
  }
  // ---------------------------------------------------------------------------------
  // SOPGeneratorAgent.generate: reading the reply

  /** `GenerationResult`: the Markdown body, the sections it was rendered from, the raw
      reply, the overall summary and the token usage of the request. */
  datatype Generation = Generation(
    content: string,
    sections: seq<Section>,
    rawOutput: string,
    overallSummary: string,
    usage: map<string, int>)

  /** The reply keys read, in order, when the reply lists no sections. */
  const AltKeys: seq<string> := ["feedback", "content", "body", "text", "document"]

  /** The section an object at position `idx` of the reply's "sections" list gives: its
      stripped title (or `Раздел {idx}`) and its stripped content. */
  function ListedSection(idx: nat, fields: map<string, Json>): Section {
    var title := Strip(GetStrOr(fields, "title", SectionLabel(idx)));
    Section(Or(title, SectionLabel(idx)), Strip(GetStrOr(fields, "content", "")))
  }

  /** The sections the objects among the first `n` list items give; other items are
      skipped but still counted in the numbering. */
  function ListedSections(items: seq<Json>, n: nat): seq<Section>
    requires n <= |items|
  {
    if n == 0 then []
    else ListedSections(items, n - 1) + (if items[n - 1].JObject? then [ListedSection(n, items[n - 1].fields)] else [])
  }

  /** The sections a reply object lists under "sections". */
  function PayloadSections(fields: map<string, Json>): seq<Section> {
    if "sections" in fields && fields["sections"].JArray? then
      ListedSections(fields["sections"].items, |fields["sections"].items|)
    else []
  }

  /** The first of the keys from position `i` of `AltKeys` on whose value is a string that
      is not blank, stripped. */
  function AltText(fields: map<string, Json>, i: nat): Option<string>
    decreases |AltKeys| - i
  {
    if i >= |AltKeys| then None
    else
      var alt := GetString(fields, AltKeys[i]);
      if alt.Some? && Strip(alt.value) != "" then Some(Strip(alt.value)) else AltText(fields, i + 1)
  }

  /** `str(parsed.get("overall_summary", "")).strip()`. */
  function OverallSummary(parsed: Option<Json>): string {
    if parsed.Some? && parsed.value.JObject? && "overall_summary" in parsed.value.fields
    then Strip(PyStr(parsed.value.fields["overall_summary"]))
    else ""
  }

  /** The sections salvaged from a decoded reply: the listed sections, else the first
      usable alternative text, else the overall summary, as an untitled section. */
  function ReplySections(parsed: Option<Json>): seq<Section> {
    if parsed.Some? && parsed.value.JObject? then
      var listed := PayloadSections(parsed.value.fields);
      if listed != [] then listed
      else match AltText(parsed.value.fields, 0)
        case Some(t) => [Section("", t)]
        case None =>
          if OverallSummary(parsed) != "" then [Section("", OverallSummary(parsed))] else []
    else []
  }

  /** The titles of the configured sections that have one. */
  function FallbackTitles(configured: seq<SectionSpec>): seq<string> {
    if |configured| == 0 then []
    else
      var last := configured[|configured| - 1];
      FallbackTitles(configured[..|configured| - 1]) + (if OrElse(last.title, "") != "" then [last.title.value] else [])
  }

  /** The sections of a generation. When the reply gives none, every configured title gets
      the whole stripped reply as its content, and without configured titles the reply
      becomes one untitled section. There is always at least one section. */
  function GeneratedSections(parsed: Option<Json>, raw: string, configured: seq<SectionSpec>): (r: seq<Section>)
    ensures |r| >= 1
  {
    var fromReply := ReplySections(parsed);
    if fromReply != [] then fromReply
    else
      var titles := FallbackTitles(configured);
      if titles != [] then seq(|titles|, k requires 0 <= k < |titles| => Section(titles[k], Strip(raw)))
      else [Section("", Strip(raw))]
  }

  /** The generation a reply gives. */
  function GenerationOf(parsed: Option<Json>, raw: string, configured: seq<SectionSpec>, usage: map<string, int>): Generation {
    var sections := GeneratedSections(parsed, raw, configured);
    Generation(Markdown(sections), sections, raw, OverallSummary(parsed), usage)
  }

  /** The loop over the reply's "sections" list. */
  method ListSections(items: seq<Json>) returns (payload: seq<Section>)
    ensures payload == ListedSections(items, |items|)
  {
    payload := [];
    for i := 0 to |items|
      invariant payload == ListedSections(items, i)
    {
      if items[i].JObject? {
        payload := payload + [ListedSection(i + 1, items[i].fields)];
      }
    }
  }

  /** The loop over the alternative keys, which stops at the first usable text. */
  method FindAltText(fields: map<string, Json>) returns (alt: Option<string>)
    ensures alt == AltText(fields, 0)
  {
    var i := 0;
    while i < |AltKeys|
      invariant 0 <= i <= |AltKeys|
      invariant AltText(fields, 0) == AltText(fields, i)
    {
      var text := GetString(fields, AltKeys[i]);
      if text.Some? && Strip(text.value) != "" {
        return Some(Strip(text.value));
      }
      i := i + 1;
    }
    return None;
  }

  /** The part of `SOPGeneratorAgent.generate` after the request
      (sop_generator/config/agent_config.py:545-587): reading the sections out of the reply,
      with its fallbacks, and rendering them. */
  method ReadGeneration(parsed: Option<Json>, raw: string, configured: seq<SectionSpec>, usage: map<string, int>)
    returns (g: Generation)
    ensures g == GenerationOf(parsed, raw, configured, usage)
  {
    var overall := "";
    var payload: seq<Section> := [];
    if parsed.Some? && parsed.value.JObject? {
      var fields := parsed.value.fields;
      if "overall_summary" in fields {
        overall := Strip(PyStr(fields["overall_summary"]));
      }
      if "sections" in fields && fields["sections"].JArray? {
        payload := ListSections(fields["sections"].items);
      }
      if payload == [] {
        var alt := FindAltText(fields);
        if alt.Some? {
          payload := [Section("", alt.value)];
        }
      }
      if payload == [] && overall != "" {
        payload := [Section("", overall)];
      }
    }
    assert payload == ReplySections(parsed);
    if payload == [] {
      var titles := FallbackTitles(configured);
      var text := Strip(raw);
      if titles != [] {
        payload := seq(|titles|, k requires 0 <= k < |titles| => Section(titles[k], text));
      } else {
        payload := [Section("", text)];
      }
    }
    var body := SectionsToMarkdown(payload);
    g := Generation(body, payload, raw, overall, usage);
  }

  /** Every section listed in a reply has a non-empty title. */
  lemma {:induction false} ListedTitlesNonEmpty(items: seq<Json>, n: nat)
    requires n <= |items|
    ensures forall k :: 0 <= k < |ListedSections(items, n)| ==> ListedSections(items, n)[k].title != ""
  {
    if n > 0 {
      ListedTitlesNonEmpty(items, n - 1);
      assert SectionLabel(n) != "";
    }
  }

  /** The alternative text is the stripped value of one of the keys at or after `i`, and
      every key before that one has no usable text; `None` means no key has any. */
  lemma {:induction false} AltTextSpec(fields: map<string, Json>, i: nat)
    ensures AltText(fields, i).Some? ==>
      (exists j :: i <= j < |AltKeys| && GetString(fields, AltKeys[j]).Some?
         && AltText(fields, i).value == Strip(GetString(fields, AltKeys[j]).value))
      && AltText(fields, i).value != ""
    ensures AltText(fields, i).None? ==> forall j :: i <= j < |AltKeys| ==>
      GetString(fields, AltKeys[j]).None? || Strip(GetString(fields, AltKeys[j]).value) == ""
    decreases |AltKeys| - i
  {
    if i < |AltKeys| {
      AltTextSpec(fields, i + 1);
    }
  }

  /** A configured title is used as a fallback exactly when it is present and not empty. */
  lemma {:induction false} FallbackTitlesSpec(configured: seq<SectionSpec>)
    ensures forall k :: 0 <= k < |FallbackTitles(configured)| ==> FallbackTitles(configured)[k] != ""
    ensures FallbackTitles(configured) == [] <==> forall k :: 0 <= k < |configured| ==> OrElse(configured[k].title, "") == ""
  {
    if |configured| > 0 {
      var init := configured[..|configured| - 1];
      FallbackTitlesSpec(init);
      assert forall k :: 0 <= k < |init| ==> init[k] == configured[k];
    }
  }

  /** When the reply gives no section, no text is lost: every section carries the whole
      stripped reply, which is one untitled section when no configured section has a
      title, and one section per configured title otherwise. Sections listed in the reply
      all have a title. */
  lemma GeneratedSectionsSpec(parsed: Option<Json>, raw: string, configured: seq<SectionSpec>)
    ensures ReplySections(parsed) == [] ==>
      forall k :: 0 <= k < |GeneratedSections(parsed, raw, configured)| ==>
        GeneratedSections(parsed, raw, configured)[k].content == Strip(raw)
    ensures ReplySections(parsed) == [] ==>
      |GeneratedSections(parsed, raw, configured)| == Max(1, |FallbackTitles(configured)|)
    ensures ReplySections(parsed) == [] && (forall k :: 0 <= k < |configured| ==> OrElse(configured[k].title, "") == "") ==>
      GeneratedSections(parsed, raw, configured) == [Section("", Strip(raw))]
    ensures parsed.Some? && parsed.value.JObject? && PayloadSections(parsed.value.fields) != [] ==>
      GeneratedSections(parsed, raw, configured) == PayloadSections(parsed.value.fields)
      && forall k :: 0 <= k < |PayloadSections(parsed.value.fields)| ==> PayloadSections(parsed.value.fields)[k].title != ""
  {
    FallbackTitlesSpec(configured);
    if parsed.Some? && parsed.value.JObject? {
      var fields := parsed.value.fields;
      if "sections" in fields && fields["sections"].JArray? {
        ListedTitlesNonEmpty(fields["sections"].items, |fields["sections"].items|);
      }
    }
  }

  // ---------------------------------------------------------------------------------
  // CriticAgent.review: reading the reply

  /** `CriticResult`. */
  datatype CriticResult = CriticResult(approved: bool, feedback: string, usage: map<string, int>)

  /** The string values of "approved" that count as approval, after `lower()`. */
  const ApprovalWords: set<string> := {"true", "yes", "да", "approved"}

  /** Whether a decoded critic reply approves: a boolean "approved" is taken as is, a string
      one approves when it is one of the approval words in any case, and any other reply
      does not approve. */
  function Approval(parsed: Option<Json>): bool {
    if parsed.Some? && parsed.value.JObject? && "approved" in parsed.value.fields then
      match parsed.value.fields["approved"]
      case JBool(b) => b
      case JString(s) => Lower(s) in ApprovalWords
      case _ => false
    else false
  }

  /** The critic's feedback: the stripped "feedback" string when it is not blank, and the
      whole stripped reply otherwise. */
  function CriticFeedback(parsed: Option<Json>, raw: string): string {
    if parsed.Some? && parsed.value.JObject? then
      var fb := GetString(parsed.value.fields, "feedback");
      if fb.Some? && Strip(fb.value) != "" then Strip(fb.value) else Strip(raw)
    else Strip(raw)
  }

  /** The part of `CriticAgent.review` after the request
      (sop_generator/config/agent_config.py:671-685). */
  function ReviewOf(parsed: Option<Json>, raw: string, usage: map<string, int>): (r: CriticResult)
    ensures r.approved == Approval(parsed) && r.feedback == CriticFeedback(parsed, raw) && r.usage == usage
  {
    CriticResult(Approval(parsed), CriticFeedback(parsed, raw), usage)
  }

  /** Approval does not depend on the case of a string "approved" value. */
  lemma ApprovalCaseInsensitive(fields: map<string, Json>, s: string)
    ensures Approval(Some(JObject(fields["approved" := JString(s)])))
      == Approval(Some(JObject(fields["approved" := JString(Lower(s))])))
  {
    LowerIdempotent(s);
  }

  /** Some approving and rejecting replies. */
  lemma ApprovalExamples()
    ensures Approval(Some(JObject(map["approved" := JString("Yes")])))
    ensures Approval(Some(JObject(map["approved" := JString("ДА")])))
    ensures Approval(Some(JObject(map["approved" := JBool(true)])))
    ensures !Approval(Some(JObject(map["approved" := JString("no")])))
    ensures !Approval(Some(JObject(map["approved" := JInt(1)])))
    ensures !Approval(None)
  {
    assert Lower("Yes") == "yes";
    assert Lower("ДА") == "да";
    assert Lower("no") == "no";
  }

  /** The feedback is always stripped, and falls back to the whole reply when the reply has
      no usable "feedback" string. */
  lemma CriticFeedbackSpec(parsed: Option<Json>, raw: string)
    ensures Strip(CriticFeedback(parsed, raw)) == CriticFeedback(parsed, raw)
    ensures !(parsed.Some? && parsed.value.JObject? && GetString(parsed.value.fields, "feedback").Some?
              && Strip(GetString(parsed.value.fields, "feedback").value) != "") ==>
      CriticFeedback(parsed, raw) == Strip(raw)
  {
    StripIdempotent(raw);
    if parsed.Some? && parsed.value.JObject? {
      var fb := GetString(parsed.value.fields, "feedback");
      if fb.Some? {
        StripIdempotent(fb.value);
      }
    }
  }
}
