/**
 * sop_generator/utils/exporter.py: the DOCX document `populate_docx` builds (title and
 * section-title fallbacks, the optional number and equipment lines, the markdown body of
 * every section) and the PDF story `export_to_pdf` builds (paragraph splitting, table
 * detection, table rows padded to the longest, and the per-column text lengths).
 */
module Exporter {
  import opened Wrappers
  import opened Text
  import opened Records
  import opened Markdown
  import opened Documents

  const DefaultTitle := "Стандартная операционная процедура"
  const ShortTitle := "СОП"
  const NumberLabel := "Номер документа: "
  const PdfNumberLabel := "Номер: "
  const EquipmentLabel := "Оборудование/процесс: "
  const SectionWord := "Раздел "

  // ---------------------------------------------------------------------------------------
  // DOCX

  /** `meta.get("title") or "Стандартная операционная процедура"`. */
  function DocxTitle(meta: Meta): string {
    OrElse(meta.title, DefaultTitle)
  }

  /** `section.get("title") or f"Раздел {idx}"`. */
  function SectionTitle(s: SectionSpec, idx: nat): string {
    OrElse(s.title, SectionWord + NatToString(idx))
  }

  /** The title, the number and equipment lines when given, and the page break. */
  function DocxHeader(meta: Meta): seq<DocxItem> {
    [DocTitle(DocxTitle(meta))]
    + (if Truthy(meta.number) then [Line(NumberLabel + meta.number.value)] else [])
    + (if Truthy(meta.equipment) then [Line(EquipmentLabel + meta.equipment.value)] else [])
    + [PageBreak]
  }

  /** What one section adds: its heading and, when it has content, what `write` makes of
      that content. */
  function DocxSection(s: SectionSpec, idx: nat, write: string -> seq<Block>): seq<DocxItem> {
    var content := GetOrElse(s.content, "");
    [SectionHeading(SectionTitle(s, idx))] + (if content != "" then Bodies(write(content)) else [])
  }

  /** What the sections add, numbered from 1. */
  function DocxSections(sections: seq<SectionSpec>, write: string -> seq<Block>): seq<DocxItem> {
    if |sections| == 0 then []
    else
      DocxSections(sections[..|sections| - 1], write) + DocxSection(sections[|sections| - 1], |sections|, write)
  }

  /** The document `populate_docx(doc, meta, sections)` builds, with `write` standing for
      the markdown writer. */
  function DocxDocument(meta: Meta, sections: seq<SectionSpec>, write: string -> seq<Block>): seq<DocxItem> {
    DocxHeader(meta) + DocxSections(sections, write)
  }

  /** `populate_docx`, appending to an empty document. */
  method PopulateDocx(meta: Meta, sections: seq<SectionSpec>, rule: string -> bool) returns (doc: seq<DocxItem>)
    ensures doc == DocxDocument(meta, sections, Writer(DocxTitle(meta), rule))
  {
    var title := OrElse(meta.title, DefaultTitle);
    var header := HeaderItems(meta);
    var body := [];
    var k := 0;
    while k < |sections|
      invariant k <= |sections|
      invariant body == DocxSections(sections[..k], Writer(title, rule))
    {
      var added := SectionItems(sections[k], k + 1, title, rule);
      assert sections[..k + 1][..k] == sections[..k];
      body := body + added;
      k := k + 1;
    }
    assert sections[..k] == sections;
    doc := header + body;
  }

  /** The title, the optional number and equipment lines, and the page break. */
  method HeaderItems(meta: Meta) returns (doc: seq<DocxItem>)
    ensures doc == DocxHeader(meta)
  {
    doc := [DocTitle(OrElse(meta.title, DefaultTitle))];
    if Truthy(meta.number) {
      doc := doc + [Line(NumberLabel + meta.number.value)];
    }
    if Truthy(meta.equipment) {
      doc := doc + [Line(EquipmentLabel + meta.equipment.value)];
    }
    doc := doc + [PageBreak];
  }

  /** One section of the loop: its heading, then its markdown body when it has content. */
  method SectionItems(s: SectionSpec, idx: nat, title: string, rule: string -> bool) returns (added: seq<DocxItem>)
    ensures added == DocxSection(s, idx, Writer(title, rule))
  {
    var heading := OrElse(s.title, SectionWord + NatToString(idx));
    var content := GetOrElse(s.content, "");
    added := [SectionHeading(heading)];
    if content != "" {
      var blocks := WriteMarkdown(content, title, rule);
      added := added + Bodies(blocks);
    }
  }

  /** A section adds one section heading, its own, and no plain paragraph. */
  lemma DocxSectionHeadingOnly(s: SectionSpec, idx: nat, write: string -> seq<Block>)
    ensures SectionHeadings(DocxSection(s, idx, write)) == [SectionTitle(s, idx)]
    ensures Lines(DocxSection(s, idx, write)) == []
  {
    var content := GetOrElse(s.content, "");
    var blocks := if content != "" then write(content) else [];
    var head := [SectionHeading(SectionTitle(s, idx))];
    assert DocxSection(s, idx, write) == head + Bodies(blocks);
    BodiesFilters(blocks);
    DocxFiltersAppend(head, Bodies(blocks));
    assert SectionHeadings(head) == [SectionTitle(s, idx)];
    assert Lines(head) == [];
  }

  /** The section headings are, in order, each section's title or "Раздел i", and the
      sections add no plain paragraph. */
  lemma {:induction false} DocxSectionHeadings(sections: seq<SectionSpec>, write: string -> seq<Block>)
    ensures |SectionHeadings(DocxSections(sections, write))| == |sections|
    ensures forall k :: 0 <= k < |sections| ==> SectionHeadings(DocxSections(sections, write))[k] == SectionTitle(sections[k], k + 1)
    ensures Lines(DocxSections(sections, write)) == []
    decreases |sections|
  {
    if |sections| > 0 {
      var n := |sections|;
      var init := sections[..n - 1];
      var s := sections[n - 1];
      DocxSectionHeadings(init, write);
      DocxSectionHeadingOnly(s, n, write);
      DocxFiltersAppend(DocxSections(init, write), DocxSection(s, n, write));
      var hs := SectionHeadings(DocxSections(init, write));
      assert SectionHeadings(DocxSections(sections, write)) == hs + [SectionTitle(s, n)];
      forall k | 0 <= k < n
        ensures SectionHeadings(DocxSections(sections, write))[k] == SectionTitle(sections[k], k + 1)
      {
        if k < n - 1 {
          assert sections[k] == init[k];
        }
      }
    }
  }

  /** The header's plain paragraphs are the number line and the equipment line, each
      present exactly when given, and it holds no section heading. */
  lemma DocxHeaderFilters(meta: Meta)
    ensures SectionHeadings(DocxHeader(meta)) == []
    ensures Lines(DocxHeader(meta)) == (if Truthy(meta.number) then [NumberLabel + meta.number.value] else [])
      + (if Truthy(meta.equipment) then [EquipmentLabel + meta.equipment.value] else [])
  {
    var t: seq<DocxItem> := [DocTitle(DocxTitle(meta))];
    var n: seq<DocxItem> := if Truthy(meta.number) then [Line(NumberLabel + meta.number.value)] else [];
    var e: seq<DocxItem> := if Truthy(meta.equipment) then [Line(EquipmentLabel + meta.equipment.value)] else [];
    DocxFiltersAppend(t, n);
    DocxFiltersAppend(t + n, e);
    DocxFiltersAppend(t + n + e, [PageBreak]);
    assert Lines(t) == [] && SectionHeadings(t) == [];
    assert Lines([PageBreak]) == [] && SectionHeadings([PageBreak]) == [];
  }

  /** The document opens with its title, falling back to the default title; its plain
      paragraphs are the number line and the equipment line, each present exactly when
      given; its section headings are each section's title or "Раздел i". */
  lemma DocxDocumentSpec(meta: Meta, sections: seq<SectionSpec>, write: string -> seq<Block>)
    ensures var doc := DocxDocument(meta, sections, write);
      doc[0] == DocTitle(DocxTitle(meta))
      && Lines(doc) == (if Truthy(meta.number) then [NumberLabel + meta.number.value] else [])
        + (if Truthy(meta.equipment) then [EquipmentLabel + meta.equipment.value] else [])
      && |SectionHeadings(doc)| == |sections|
      && forall k :: 0 <= k < |sections| ==> SectionHeadings(doc)[k] == SectionTitle(sections[k], k + 1)
  {
    DocxHeaderFilters(meta);
    DocxSectionHeadings(sections, write);
    DocxFiltersAppend(DocxHeader(meta), DocxSections(sections, write));
  }

  /** The document title is never empty, and it is the default exactly when the metadata
      has no title or an empty one (or the default itself); a section's fallback title
      carries its number, so two untitled sections never share a heading. */
  lemma TitleFallbacks(meta: Meta, s: SectionSpec, t: SectionSpec, i: nat, j: nat)
    ensures DocxTitle(meta) != ""
    ensures DocxTitle(meta) == DefaultTitle <==> !Truthy(meta.title) || meta.title.value == DefaultTitle
    ensures SectionTitle(s, i) != ""
    ensures !Truthy(s.title) && !Truthy(t.title) && i != j ==> SectionTitle(s, i) != SectionTitle(t, j)
  {
    if i != j {
      PrefixedNumbersDistinct(SectionWord, i, j);
    }
  }

  // ---------------------------------------------------------------------------------------
  // PDF

  /** `[line for line in ls if line.strip()]`. */
  function NonBlankLines(ls: seq<string>): (r: seq<string>)
    ensures |r| <= |ls|
    ensures forall k :: 0 <= k < |r| ==> !IsBlank(r[k])
  {
    if |ls| == 0 then []
    else NonBlankLines(ls[..|ls| - 1]) + (if IsBlank(ls[|ls| - 1]) then [] else [ls[|ls| - 1]])
  }

  /** A line the PDF table reader skips: a separator or a line the rule pattern matches. */
  predicate IsRuleLine(line: string, rule: string -> bool) {
    IsTableSeparator(line) || rule(line)
  }

  /** Every line that is not a rule row holds a pipe. */
  predicate AllRowsPiped(lines: seq<string>, rule: string -> bool) {
    forall k :: 0 <= k < |lines| && !IsRuleLine(lines[k], rule) ==> '|' in lines[k]
  }

  /** The PDF table rows: those of the markdown writer, unless some line that is not a rule
      row lacks a pipe, which discards the table. */
  function PdfRows(lines: seq<string>, rule: string -> bool): seq<seq<string>> {
    if AllRowsPiped(lines, rule) then TableRows(lines, rule) else []
  }

  /** The row loop of the PDF table reader, which stops and discards its rows at a line
      without a pipe. */
  method CollectPdfRows(lines: seq<string>, rule: string -> bool) returns (rows: seq<seq<string>>)
    ensures rows == PdfRows(lines, rule)
  {
    rows := [];
    var k := 0;
    while k < |lines|
      invariant k <= |lines|
      invariant rows == TableRows(lines[..k], rule) && AllRowsPiped(lines[..k], rule)
    {
      var line := lines[k];
      PdfRowsSnoc(lines, k, rule);
      if IsRuleLine(line, rule) {
        k := k + 1;
        continue;
      }
      if '|' !in line {
        assert !AllRowsPiped(lines, rule) by {
          assert !IsRuleLine(lines[k], rule) && '|' !in lines[k];
        }
        return [];
      }
      var cells := RowCells(line);
      if cells != [] {
        rows := rows + [cells];
      }
      k := k + 1;
    }
    assert lines[..k] == lines;
  }

  /** One more line of the PDF table reader. */
  lemma PdfRowsSnoc(lines: seq<string>, k: nat, rule: string -> bool)
    requires k < |lines|
    ensures TableRows(lines[..k + 1], rule)
      == if IsRuleLine(lines[k], rule) || '|' !in lines[k] || RowCells(lines[k]) == [] then TableRows(lines[..k], rule)
         else TableRows(lines[..k], rule) + [RowCells(lines[k])]
    ensures AllRowsPiped(lines[..k + 1], rule) <==> AllRowsPiped(lines[..k], rule) && (IsRuleLine(lines[k], rule) || '|' in lines[k])
  {
    assert lines[..k + 1][..k] == lines[..k];
    assert lines[..k + 1][k] == lines[k];
  }

  /** A rule-like line and a line with a pipe both occur: the PDF table test. */
  predicate LooksLikeTable(lines: seq<string>, rule: string -> bool) {
    |lines| > 0
    && (exists k :: 0 <= k < |lines| && IsRuleLine(lines[k], rule))
    && (exists k :: 0 <= k < |lines| && '|' in lines[k])
  }

  /** What one paragraph of a section adds to the story: nothing when blank, a table when
      it looks like one and keeps a row, and otherwise the paragraph itself. */
  function PdfParagraphItems(para: string, rule: string -> bool): seq<PdfItem> {
    var p := StripChar(para, '\n');
    var lines := NonBlankLines(Split(p, "\n"));
    var rows := PdfRows(lines, rule);
    if IsBlank(p) then []
    else if LooksLikeTable(lines, rule) && rows != [] then [PdfTable(Padded(rows))]
    else [PdfParagraph(p)]
  }

  /** The paragraph reader of the PDF story. */
  function ParagraphReader(rule: string -> bool): string -> seq<PdfItem> {
    para => PdfParagraphItems(para, rule)
  }

  /** The numbered heading of section `idx`. */
  function PdfSectionHeading(s: SectionSpec, idx: nat): string {
    NatToString(idx) + ". " + SectionTitle(s, idx)
  }

  /** What one section adds: its numbered heading and, when its stripped content is not
      empty, the items of its paragraphs (paragraphs are separated by an empty line). */
  function PdfSection(s: SectionSpec, idx: nat, read: string -> seq<PdfItem>): seq<PdfItem> {
    var content := Strip(GetOrElse(s.content, ""));
    [PdfHeading(PdfSectionHeading(s, idx))]
    + (if content == "" then [] else PdfContentItems(Split(content, "\n\n"), read))
  }

  function PdfSections(sections: seq<SectionSpec>, read: string -> seq<PdfItem>): seq<PdfItem> {
    if |sections| == 0 then []
    else PdfSections(sections[..|sections| - 1], read) + PdfSection(sections[|sections| - 1], |sections|, read)
  }

  /** The title, and the number and equipment paragraphs when given. */
  function PdfHeader(meta: Meta): seq<PdfItem> {
    var number := GetOrElse(meta.number, "");
    [PdfTitle(GetOrElse(meta.title, ShortTitle))]
    + (if number != "" then [PdfParagraph(PdfNumberLabel + number)] else [])
    + (if Truthy(meta.equipment) then [PdfParagraph(EquipmentLabel + meta.equipment.value)] else [])
  }

  /** The story `export_to_pdf(sections, destination, meta)` builds. */
  function PdfStory(meta: Meta, sections: seq<SectionSpec>, read: string -> seq<PdfItem>): seq<PdfItem> {
    PdfHeader(meta) + PdfSections(sections, read)
  }

  /** The paragraph loop of one section. */
  method ContentItems(content: string, rule: string -> bool) returns (items: seq<PdfItem>)
    ensures items == PdfContentItems(Split(content, "\n\n"), ParagraphReader(rule))
  {
    var paras := Split(content, "\n\n");
    items := [];
    var k := 0;
    while k < |paras|
      invariant k <= |paras|
      invariant items == PdfContentItems(paras[..k], ParagraphReader(rule))
    {
      var added := ParagraphItems(paras[k], rule);
      ContentItemsSnoc(paras, k, ParagraphReader(rule));
      items := items + added;
      k := k + 1;
    }
    assert paras[..k] == paras;
  }

  /** One paragraph of the loop. */
  method ParagraphItems(para: string, rule: string -> bool) returns (added: seq<PdfItem>)
    ensures added == PdfParagraphItems(para, rule)
  {
    var p := StripChar(para, '\n');
    if IsBlank(p) {
      return [];
    }
    var lines := NonBlankLines(Split(p, "\n"));
    if LooksLikeTable(lines, rule) {
      var rows := CollectPdfRows(lines, rule);
      if rows != [] {
        return [PdfTable(Padded(rows))];
      }
    }
    return [PdfParagraph(p)];
  }

  /** `export_to_pdf`: the story, before reportlab lays it out. */
  method ExportPdf(meta: Meta, sections: seq<SectionSpec>, rule: string -> bool) returns (story: seq<PdfItem>)
    ensures story == PdfStory(meta, sections, ParagraphReader(rule))
  {
    var header := PdfHeaderItems(meta);
    var body := [];
    var k := 0;
    while k < |sections|
      invariant k <= |sections|
      invariant body == PdfSections(sections[..k], ParagraphReader(rule))
    {
      var added := PdfSectionItems(sections[k], k + 1, rule);
      assert sections[..k + 1][..k] == sections[..k];
      body := body + added;
      k := k + 1;
    }
    assert sections[..k] == sections;
    story := header + body;
  }

  /** The title, then the number and equipment paragraphs when given. */
  method PdfHeaderItems(meta: Meta) returns (story: seq<PdfItem>)
    ensures story == PdfHeader(meta)
  {
    var number := GetOrElse(meta.number, "");
    story := [PdfTitle(GetOrElse(meta.title, ShortTitle))];
    if number != "" {
      story := story + [PdfParagraph(PdfNumberLabel + number)];
    }
    if Truthy(meta.equipment) {
      story := story + [PdfParagraph(EquipmentLabel + meta.equipment.value)];
    }
  }

  /** One section of the loop: its numbered heading, then its paragraphs. */
  method PdfSectionItems(s: SectionSpec, idx: nat, rule: string -> bool) returns (added: seq<PdfItem>)
    ensures added == PdfSection(s, idx, ParagraphReader(rule))
  {
    added := [PdfHeading(NatToString(idx) + ". " + OrElse(s.title, SectionWord + NatToString(idx)))];
    var content := Strip(GetOrElse(s.content, ""));
    if content != "" {
      var items := ContentItems(content, rule);
      added := added + items;
    }
  }

  /** A paragraph adds nothing exactly when it is blank once its line breaks are stripped,
      and one item otherwise; a table item comes only from a paragraph with a rule-like line
      and a pipe, and is well formed. */
  lemma PdfParagraphSpec(para: string, rule: string -> bool)
    ensures var items := PdfParagraphItems(para, rule);
      (items == [] <==> IsBlank(StripChar(para, '\n')))
      && |items| <= 1
      && (forall k :: 0 <= k < |items| && items[k].PdfTable? ==>
            LooksLikeTable(NonBlankLines(Split(StripChar(para, '\n'), "\n")), rule)
            && WellFormedBlock(TableBlock(items[k].rows)))
  {
    var p := StripChar(para, '\n');
    var lines := NonBlankLines(Split(p, "\n"));
    var rows := PdfRows(lines, rule);
    if !IsBlank(p) && LooksLikeTable(lines, rule) && rows != [] {
      assert rows == TableRows(lines, rule);
      TableOfWellFormed(lines, rule);
      assert TableOf(lines, rule) == [TableBlock(Padded(rows))];
    }
  }

  /** The paragraph reader adds no heading. */
  lemma ReaderAddsNoHeadings(rule: string -> bool)
    ensures forall para :: PdfHeadings(ParagraphReader(rule)(para)) == []
  {
    forall para ensures PdfHeadings(ParagraphReader(rule)(para)) == [] {
      var items := PdfParagraphItems(para, rule);
      PdfParagraphSpec(para, rule);
      if |items| == 1 {
        assert items == [items[0]];
        assert !items[0].PdfHeading?;
      }
    }
  }

  /** A section adds one heading, its own. */
  lemma PdfSectionHeadingOnly(s: SectionSpec, idx: nat, read: string -> seq<PdfItem>)
    requires forall para :: PdfHeadings(read(para)) == []
    ensures PdfHeadings(PdfSection(s, idx, read)) == [PdfSectionHeading(s, idx)]
  {
    var content := Strip(GetOrElse(s.content, ""));
    var paras := if content == "" then [] else Split(content, "\n\n");
    var head := [PdfHeading(PdfSectionHeading(s, idx))];
    assert PdfSection(s, idx, read) == head + PdfContentItems(paras, read);
    ContentHasNoHeadings(paras, read);
    PdfHeadingsAppend(head, PdfContentItems(paras, read));
    assert PdfHeadings(head) == [PdfSectionHeading(s, idx)];
  }

  /** The story's headings are, in order, "i. " followed by each section's title or
      "Раздел i", whatever the paragraphs hold. */
  lemma {:induction false} PdfSectionHeadings(sections: seq<SectionSpec>, read: string -> seq<PdfItem>)
    requires forall para :: PdfHeadings(read(para)) == []
    ensures |PdfHeadings(PdfSections(sections, read))| == |sections|
    ensures forall k :: 0 <= k < |sections| ==> PdfHeadings(PdfSections(sections, read))[k] == PdfSectionHeading(sections[k], k + 1)
    decreases |sections|
  {
    if |sections| > 0 {
      var n := |sections|;
      var init := sections[..n - 1];
      var s := sections[n - 1];
      PdfSectionHeadings(init, read);
      PdfSectionHeadingOnly(s, n, read);
      PdfHeadingsAppend(PdfSections(init, read), PdfSection(s, n, read));
      var hs := PdfHeadings(PdfSections(init, read));
      assert PdfHeadings(PdfSections(sections, read)) == hs + [PdfSectionHeading(s, n)];
      forall k | 0 <= k < n
        ensures PdfHeadings(PdfSections(sections, read))[k] == PdfSectionHeading(sections[k], k + 1)
      {
        if k < n - 1 {
          assert sections[k] == init[k];
        }
      }
    }
  }

  /** The PDF story opens with its title ("СОП" when the metadata has none) and its
      headings are the numbered section titles, in order. */
  lemma PdfStorySpec(meta: Meta, sections: seq<SectionSpec>, rule: string -> bool)
    ensures var story := PdfStory(meta, sections, ParagraphReader(rule));
      story[0] == PdfTitle(GetOrElse(meta.title, ShortTitle))
      && |PdfHeadings(story)| == |sections|
      && forall k :: 0 <= k < |sections| ==> PdfHeadings(story)[k] == PdfSectionHeading(sections[k], k + 1)
  {
    var read := ParagraphReader(rule);
    ReaderAddsNoHeadings(rule);
    PdfSectionHeadings(sections, read);
    var header := PdfHeader(meta);
    HeaderHasNoHeadings(meta);
    PdfHeadingsAppend(header, PdfSections(sections, read));
  }

  lemma HeaderHasNoHeadings(meta: Meta)
    ensures PdfHeadings(PdfHeader(meta)) == []
  {
    var number := GetOrElse(meta.number, "");
    var t: seq<PdfItem> := [PdfTitle(GetOrElse(meta.title, ShortTitle))];
    var n: seq<PdfItem> := if number != "" then [PdfParagraph(PdfNumberLabel + number)] else [];
    var e: seq<PdfItem> := if Truthy(meta.equipment) then [PdfParagraph(EquipmentLabel + meta.equipment.value)] else [];
    PdfHeadingsAppend(t, n);
    PdfHeadingsAppend(t + n, e);
    assert PdfHeadings(t) == [];
    assert PdfHeadings(n) == [] && PdfHeadings(e) == [];
  }

  // ---------------------------------------------------------------------------------------
  // Column lengths

  /** The text length of column `c`: the longest of its padded cells, and at least 1. */
  function LongestCell(rows: seq<seq<string>>, c: nat): (n: nat)
    ensures n >= 1
  {
    if |rows| == 0 then 1
    else Max(LongestCell(rows[..|rows| - 1], c), |Cell(rows[|rows| - 1], c)|)
  }

  /** The column length bounds every cell of its column and is 1 or the length of one of
      them. */
  lemma {:induction false} LongestCellSpec(rows: seq<seq<string>>, c: nat)
    ensures forall r :: 0 <= r < |rows| ==> |Cell(rows[r], c)| <= LongestCell(rows, c)
    ensures LongestCell(rows, c) == 1 || exists r :: 0 <= r < |rows| && |Cell(rows[r], c)| == LongestCell(rows, c)
  {
    if |rows| > 0 {
      var init := rows[..|rows| - 1];
      LongestCellSpec(init, c);
      assert forall r :: 0 <= r < |init| ==> init[r] == rows[r];
    }
  }

  lemma LongestCellSnoc(rows: seq<seq<string>>, r: nat)
    requires r < |rows|
    ensures forall c :: LongestCell(rows[..r + 1], c) == Max(LongestCell(rows[..r], c), |Cell(rows[r], c)|)
  {
    assert rows[..r + 1][..r] == rows[..r];
  }

  /** The loop that fills `column_lengths` in place, row by row. */
  method ColumnLengths(rows: seq<seq<string>>) returns (lengths: array<nat>)
    ensures lengths.Length == Width(rows)
    ensures forall c :: 0 <= c < lengths.Length ==> lengths[c] == LongestCell(rows, c)
  {
    lengths := new nat[Width(rows)](_ => 1);
    var r := 0;
    while r < |rows|
      invariant r <= |rows|
      invariant forall c :: 0 <= c < lengths.Length ==> lengths[c] == LongestCell(rows[..r], c)
    {
      LongestCellSnoc(rows, r);
      Widen(lengths, rows[r]);
      r := r + 1;
    }
    assert rows[..r] == rows;
  }

  /** The column loop for one row: every column length grows to that row's cell. */
  method Widen(lengths: array<nat>, row: seq<string>)
    modifies lengths
    ensures forall c :: 0 <= c < lengths.Length ==> lengths[c] == Max(old(lengths[c]), |Cell(row, c)|)
  {
    var c := 0;
    while c < lengths.Length
      invariant c <= lengths.Length
      invariant forall c' :: 0 <= c' < c ==> lengths[c'] == Max(old(lengths[c']), |Cell(row, c')|)
      invariant forall c' :: c <= c' < lengths.Length ==> lengths[c'] == old(lengths[c'])
    {
      lengths[c] := Max(lengths[c], |Cell(row, c)|);
      c := c + 1;
    }
  }
}
