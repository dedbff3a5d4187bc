/**
 * sop_generator/utils/export_manager.py: the second exporter. Its markdown writer is the
 * same as the exporter's (module Markdown); what differs is `populate_docx` (the "СОП"
 * title, the single-section rule, numbered section headings that need a title) and the
 * PDF story of `export_to_pdf` (its own table test and cell extraction, ragged rows).
 */
module ExportManager {
  import opened Wrappers
  import opened Text
  import opened Records
  import opened Markdown
  import opened Documents

  const ShortTitle := "СОП"
  const NumberLabel := "Номер: "
  const PdfRule := "|---"
  const PdfHeavyRule := "|━"

  // ---------------------------------------------------------------------------------------
  // DOCX

  /** `sop_meta.get("title", "СОП")`, the title both documents open with. */
  function DocTitleText(meta: Meta): string {
    GetOrElse(meta.title, ShortTitle)
  }

  /** The title and, when the number is not empty, the number line. */
  function DocxHeader(meta: Meta): seq<DocxItem> {
    [DocTitle(DocTitleText(meta))]
    + (if Truthy(meta.number) then [Line(NumberLabel + meta.number.value)] else [])
  }

  /** The heading `f"{idx}. {title}"`. */
  function Numbered(idx: nat, title: string): string {
    NatToString(idx) + ". " + title
  }

  /** One section of a multi-section document: its numbered heading, then what `write`
      makes of its content (an empty content adds nothing). */
  function DocxSection(title: string, idx: nat, content: Option<string>, write: string -> seq<Block>): seq<DocxItem> {
    [SectionHeading(Numbered(idx, title))] + Bodies(write(GetOrElse(content, "")))
  }

  /** The section writer of the DOCX document, `write` standing for the markdown writer. */
  function SectionWriter(write: string -> seq<Block>): (string, nat, Option<string>) -> seq<DocxItem> {
    (title: string, idx: nat, content: Option<string>) => DocxSection(title, idx, content, write)
  }

  /** The sections of a multi-section document, numbered from 1, `emit` standing for the
      section writer; `None` when a section has no title (the `KeyError` of
      `section['title']`). */
  function DocxBody(sections: seq<SectionSpec>, emit: (string, nat, Option<string>) -> seq<DocxItem>): Option<seq<DocxItem>> {
    if |sections| == 0 then Some([])
    else
      var n := |sections|;
      var s := sections[n - 1];
      match DocxBody(sections[..n - 1], emit)
      case None => None
      case Some(body) =>
        if s.title.None? then None else Some(body + emit(s.title.value, n, s.content))
  }

  /** The document `populate_docx` builds on a cleared document: a single section is
      written without a heading of its own. */
  function DocxDocument(meta: Meta, sections: seq<SectionSpec>, write: string -> seq<Block>): Option<seq<DocxItem>> {
    if |sections| == 1 then Some(DocxHeader(meta) + Bodies(write(GetOrElse(sections[0].content, ""))))
    else
      match DocxBody(sections, SectionWriter(write))
      case None => None
      case Some(body) => Some(DocxHeader(meta) + body)
  }

  /** `populate_docx`: `None` where the source raises. */
  method PopulateDocx(meta: Meta, sections: seq<SectionSpec>, rule: string -> bool) returns (doc: Option<seq<DocxItem>>)
    ensures doc == DocxDocument(meta, sections, Writer(DocTitleText(meta), rule))
  {
    var title := GetOrElse(meta.title, ShortTitle);
    var header := HeaderItems(meta);
    if |sections| == 1 {
      var blocks := WriteMarkdown(GetOrElse(sections[0].content, ""), title, rule);
      return Some(header + Bodies(blocks));
    }
    var body := [];
    var k := 0;
    while k < |sections|
      invariant k <= |sections|
      invariant DocxBody(sections[..k], SectionWriter(Writer(title, rule))) == Some(body)
    {
      if sections[k].title.None? {
        DocxBodySome(sections, SectionWriter(Writer(title, rule)));
        return None;
      }
      var added := SectionItems(sections[k].title.value, k + 1, sections[k].content, title, rule);
      assert sections[..k + 1][..k] == sections[..k];
      body := body + added;
      k := k + 1;
    }
    assert sections[..k] == sections;
    doc := Some(header + body);
  }

  /** The title and the optional number line. */
  method HeaderItems(meta: Meta) returns (doc: seq<DocxItem>)
    ensures doc == DocxHeader(meta)
  {
    doc := [DocTitle(GetOrElse(meta.title, ShortTitle))];
    if Truthy(meta.number) {
      doc := doc + [Line(NumberLabel + meta.number.value)];
    }
  }

  /** One section of the loop: its numbered heading, then its markdown body. */
  method SectionItems(title: string, idx: nat, content: Option<string>, docTitle: string, rule: string -> bool)
    returns (added: seq<DocxItem>)
    ensures added == SectionWriter(Writer(docTitle, rule))(title, idx, content)
  {
    var blocks := WriteMarkdown(GetOrElse(content, ""), docTitle, rule);
    added := [SectionHeading(Numbered(idx, title))] + Bodies(blocks);
  }

  /** The sections are written exactly when every one of them has a title. */
  lemma {:induction false} DocxBodySome(sections: seq<SectionSpec>, emit: (string, nat, Option<string>) -> seq<DocxItem>)
    ensures DocxBody(sections, emit).Some? <==> forall k :: 0 <= k < |sections| ==> sections[k].title.Some?
    decreases |sections|
  {
    if |sections| > 0 {
      var init := sections[..|sections| - 1];
      DocxBodySome(init, emit);
      assert forall k :: 0 <= k < |init| ==> init[k] == sections[k];
    }
  }

  /** A section adds one section heading, its own, and no plain paragraph. */
  lemma DocxSectionHeadingOnly(title: string, idx: nat, content: Option<string>, write: string -> seq<Block>)
    ensures SectionHeadings(DocxSection(title, idx, content, write)) == [Numbered(idx, title)]
    ensures Lines(DocxSection(title, idx, content, write)) == []
  {
    var head := [SectionHeading(Numbered(idx, title))];
    var blocks := write(GetOrElse(content, ""));
    BodiesFilters(blocks);
    DocxFiltersAppend(head, Bodies(blocks));
    assert SectionHeadings(head) == [Numbered(idx, title)];
    assert Lines(head) == [];
  }

  /** The section writer adds one section heading per section, its own, and no plain
      paragraph. */
  lemma SectionWriterHeadings(write: string -> seq<Block>)
    ensures forall title, idx, content ::
      SectionHeadings(SectionWriter(write)(title, idx, content)) == [Numbered(idx, title)]
      && Lines(SectionWriter(write)(title, idx, content)) == []
  {
    forall title, idx, content
      ensures SectionHeadings(SectionWriter(write)(title, idx, content)) == [Numbered(idx, title)]
        && Lines(SectionWriter(write)(title, idx, content)) == []
    {
      DocxSectionHeadingOnly(title, idx, content, write);
    }
  }

  /** When written, the section headings are "i. title" for each section in order, and the
      sections add no plain paragraph. */
  lemma {:induction false} DocxBodyHeadings(sections: seq<SectionSpec>, emit: (string, nat, Option<string>) -> seq<DocxItem>)
    requires forall title, idx, content ::
      SectionHeadings(emit(title, idx, content)) == [Numbered(idx, title)] && Lines(emit(title, idx, content)) == []
    requires DocxBody(sections, emit).Some?
    ensures |SectionHeadings(DocxBody(sections, emit).value)| == |sections|
    ensures forall k :: 0 <= k < |sections| ==>
      sections[k].title.Some? && SectionHeadings(DocxBody(sections, emit).value)[k] == Numbered(k + 1, sections[k].title.value)
    ensures Lines(DocxBody(sections, emit).value) == []
    decreases |sections|
  {
    if |sections| > 0 {
      var n := |sections|;
      var init := sections[..n - 1];
      var s := sections[n - 1];
      var body := DocxBody(init, emit).value;
      DocxBodyHeadings(init, emit);
      DocxFiltersAppend(body, emit(s.title.value, n, s.content));
      assert SectionHeadings(DocxBody(sections, emit).value) == SectionHeadings(body) + [Numbered(n, s.title.value)];
      forall k | 0 <= k < n
        ensures sections[k].title.Some? && SectionHeadings(DocxBody(sections, emit).value)[k] == Numbered(k + 1, sections[k].title.value)
      {
        if k < n - 1 {
          assert sections[k] == init[k];
        }
      }
    }
  }

  /** The header opens with the title ("СОП" when the metadata has none), holds no section
      heading, and its one plain paragraph is the number line, present exactly when the
      number is not empty. */
  lemma DocxHeaderSpec(meta: Meta)
    ensures DocxHeader(meta)[0] == DocTitle(DocTitleText(meta))
    ensures SectionHeadings(DocxHeader(meta)) == []
    ensures Lines(DocxHeader(meta)) == if Truthy(meta.number) then [NumberLabel + meta.number.value] else []
  {
    var t: seq<DocxItem> := [DocTitle(DocTitleText(meta))];
    var n: seq<DocxItem> := if Truthy(meta.number) then [Line(NumberLabel + meta.number.value)] else [];
    DocxFiltersAppend(t, n);
    assert SectionHeadings(t) == [] && Lines(t) == [];
  }

  /** A single section is written under the document title alone, with no section heading,
      whatever its title. */
  lemma SingleSectionHasNoHeading(meta: Meta, sections: seq<SectionSpec>, write: string -> seq<Block>)
    requires |sections| == 1
    ensures DocxDocument(meta, sections, write).Some?
    ensures SectionHeadings(DocxDocument(meta, sections, write).value) == []
    ensures Lines(DocxDocument(meta, sections, write).value) == Lines(DocxHeader(meta))
  {
    var blocks := write(GetOrElse(sections[0].content, ""));
    DocxHeaderSpec(meta);
    BodiesFilters(blocks);
    DocxFiltersAppend(DocxHeader(meta), Bodies(blocks));
  }

  /** Any other number of sections is written only when every section has a title, and
      then the section headings are "i. title", in order. */
  lemma ManySectionsNumbered(meta: Meta, sections: seq<SectionSpec>, write: string -> seq<Block>)
    requires |sections| != 1
    ensures DocxDocument(meta, sections, write).Some? <==> forall k :: 0 <= k < |sections| ==> sections[k].title.Some?
    ensures DocxDocument(meta, sections, write).Some? ==>
      |SectionHeadings(DocxDocument(meta, sections, write).value)| == |sections|
      && (forall k :: 0 <= k < |sections| ==>
            SectionHeadings(DocxDocument(meta, sections, write).value)[k] == Numbered(k + 1, sections[k].title.value))
  {
    var emit := SectionWriter(write);
    DocxBodySome(sections, emit);
    if DocxBody(sections, emit).Some? {
      var body := DocxBody(sections, emit).value;
      SectionWriterHeadings(write);
      DocxBodyHeadings(sections, emit);
      DocxHeaderSpec(meta);
      DocxFiltersAppend(DocxHeader(meta), body);
    }
  }

  // ---------------------------------------------------------------------------------------
  // PDF

  /** `para.replace('\n', '<br/>')`. */
  function BreakLines(s: string): (r: string)
    ensures '\n' !in s ==> r == s
  {
    if |s| == 0 then ""
    else BreakLines(s[..|s| - 1]) + (if s[|s| - 1] == '\n' then "<br/>" else [s[|s| - 1]])
  }

  /** The converted paragraph holds no line break, and a paragraph without one is kept
      as it is. */
  lemma {:induction false} BreakLinesSpec(s: string)
    ensures '\n' !in BreakLines(s)
    ensures '\n' !in s ==> BreakLines(s) == s
    ensures |BreakLines(s)| >= |s|
  {
    if |s| > 0 {
      BreakLinesSpec(s[..|s| - 1]);
      assert '\n' !in "<br/>";
    }
  }

  /** The PDF table test: a pipe, and a run of dashes or a heavy rule. */
  predicate IsPdfTable(p: string) {
    '|' in p && (Contains(p, "---") || Contains(p, "━"))
  }

  /** A row the PDF reader skips: one starting, once stripped, with "|---" or "|━". */
  predicate SkipsRow(line: string) {
    StartsWith(Strip(line), PdfRule) || StartsWith(Strip(line), PdfHeavyRule)
  }

  /** `[cell.strip() for cell in line.split('|') if cell.strip()]`. */
  function PdfCells(line: string): seq<string> {
    NonEmptyParts(StripAll(Split(line, "|")))
  }

  /** The rows of a PDF table: every line with a pipe that is not skipped and keeps a cell. */
  function PdfRows(lines: seq<string>): seq<seq<string>> {
    if |lines| == 0 then []
    else
      var rows := PdfRows(lines[..|lines| - 1]);
      var line := lines[|lines| - 1];
      if '|' in line && !SkipsRow(line) && PdfCells(line) != [] then rows + [PdfCells(line)] else rows
  }

  /** What one paragraph adds: nothing when blank, a table when it passes the table test
      and keeps a row (nothing when it keeps none), and otherwise the paragraph with its
      line breaks converted. */
  function PdfParagraphItems(para: string): seq<PdfItem> {
    var p := Strip(para);
    if p == "" then []
    else if IsPdfTable(p) then
      var rows := PdfRows(Split(p, "\n"));
      if rows != [] then [PdfTable(rows)] else []
    else [PdfParagraph(BreakLines(p))]
  }

  /** The paragraph reader of the PDF story. */
  function ParagraphReader(): string -> seq<PdfItem> {
    para => PdfParagraphItems(para)
  }

  /** One section: its numbered heading and, when its stripped content is not empty, the
      items of its paragraphs. */
  function PdfSection(title: string, idx: nat, content: Option<string>, read: string -> seq<PdfItem>): seq<PdfItem> {
    var c := Strip(GetOrElse(content, ""));
    [PdfHeading(Numbered(idx, title))] + (if c == "" then [] else PdfContentItems(Split(c, "\n\n"), read))
  }

  /** The section writer of the PDF story, `read` standing for the paragraph reader. */
  function SectionReader(read: string -> seq<PdfItem>): (string, nat, Option<string>) -> seq<PdfItem> {
    (title: string, idx: nat, content: Option<string>) => PdfSection(title, idx, content, read)
  }

  /** The sections, numbered from 1, `emit` standing for the section writer; `None` when a
      section has no title. */
  function PdfBody(sections: seq<SectionSpec>, emit: (string, nat, Option<string>) -> seq<PdfItem>): Option<seq<PdfItem>> {
    if |sections| == 0 then Some([])
    else
      var n := |sections|;
      var s := sections[n - 1];
      match PdfBody(sections[..n - 1], emit)
      case None => None
      case Some(body) =>
        if s.title.None? then None else Some(body + emit(s.title.value, n, s.content))
  }

  /** The title and, when the number is not empty, the number paragraph. */
  function PdfHeader(meta: Meta): seq<PdfItem> {
    var number := GetOrElse(meta.number, "");
    [PdfTitle(DocTitleText(meta))] + (if number != "" then [PdfParagraph(NumberLabel + number)] else [])
  }

  /** The story `export_to_pdf` builds; `None` when reportlab is missing or a section has
      no title. */
  function PdfStory(meta: Meta, sections: seq<SectionSpec>, pdfAvailable: bool, read: string -> seq<PdfItem>): Option<seq<PdfItem>> {
    if !pdfAvailable then None
    else
      match PdfBody(sections, SectionReader(read))
      case None => None
      case Some(body) => Some(PdfHeader(meta) + body)
  }

  /** `export_to_pdf`: the story, before reportlab lays it out. */
  method ExportPdf(meta: Meta, sections: seq<SectionSpec>, pdfAvailable: bool) returns (story: Option<seq<PdfItem>>)
    ensures story == PdfStory(meta, sections, pdfAvailable, ParagraphReader())
  {
    if !pdfAvailable {
      return None;
    }
    var header := PdfHeaderItems(meta);
    var body := [];
    var k := 0;
    while k < |sections|
      invariant k <= |sections|
      invariant PdfBody(sections[..k], SectionReader(ParagraphReader())) == Some(body)
    {
      if sections[k].title.None? {
        PdfBodySome(sections, SectionReader(ParagraphReader()));
        return None;
      }
      var added := PdfSectionItems(sections[k].title.value, k + 1, sections[k].content);
      assert sections[..k + 1][..k] == sections[..k];
      body := body + added;
      k := k + 1;
    }
    assert sections[..k] == sections;
    story := Some(header + body);
  }

  /** The title and the optional number paragraph. */
  method PdfHeaderItems(meta: Meta) returns (story: seq<PdfItem>)
    ensures story == PdfHeader(meta)
  {
    var number := GetOrElse(meta.number, "");
    story := [PdfTitle(GetOrElse(meta.title, ShortTitle))];
    if number != "" {
      story := story + [PdfParagraph(NumberLabel + number)];
    }
  }

  /** One section of the loop. */
  method PdfSectionItems(title: string, idx: nat, content: Option<string>) returns (added: seq<PdfItem>)
    ensures added == SectionReader(ParagraphReader())(title, idx, content)
  {
    added := [PdfHeading(Numbered(idx, title))];
    var c := Strip(GetOrElse(content, ""));
    if c != "" {
      var items := ReadContent(Split(c, "\n\n"));
      added := added + items;
    }
  }

  /** The paragraph loop of one section. */
  method ReadContent(paras: seq<string>) returns (items: seq<PdfItem>)
    ensures items == PdfContentItems(paras, ParagraphReader())
  {
    items := [];
    var k := 0;
    while k < |paras|
      invariant k <= |paras|
      invariant items == PdfContentItems(paras[..k], ParagraphReader())
    {
      var added := ReadParagraph(paras[k]);
      ContentItemsSnoc(paras, k, ParagraphReader());
      items := items + added;
      k := k + 1;
    }
    assert paras[..k] == paras;
  }

  /** One paragraph of the loop. */
  method ReadParagraph(para: string) returns (added: seq<PdfItem>)
    ensures added == PdfParagraphItems(para)
  {
    var p := Strip(para);
    if p == "" {
      return [];
    }
    if IsPdfTable(p) {
      var rows := CollectRows(Split(p, "\n"));
      if rows != [] {
        return [PdfTable(rows)];
      }
      return [];
    }
    return [PdfParagraph(BreakLines(p))];
  }

  /** The row loop of the PDF table reader. */
  method CollectRows(lines: seq<string>) returns (rows: seq<seq<string>>)
    ensures rows == PdfRows(lines)
  {
    rows := [];
    var k := 0;
    while k < |lines|
      invariant k <= |lines|
      invariant rows == PdfRows(lines[..k])
    {
      var line := lines[k];
      assert lines[..k + 1][..k] == lines[..k];
      if '|' in line && !SkipsRow(line) {
        var cells := PdfCells(line);
        if cells != [] {
          rows := rows + [cells];
        }
      }
      k := k + 1;
    }
    assert lines[..k] == lines;
  }

  /** The sections are written exactly when every one of them has a title. */
  lemma {:induction false} PdfBodySome(sections: seq<SectionSpec>, emit: (string, nat, Option<string>) -> seq<PdfItem>)
    ensures PdfBody(sections, emit).Some? <==> forall k :: 0 <= k < |sections| ==> sections[k].title.Some?
    decreases |sections|
  {
    if |sections| > 0 {
      var init := sections[..|sections| - 1];
      PdfBodySome(init, emit);
      assert forall k :: 0 <= k < |init| ==> init[k] == sections[k];
    }
  }

  /** A PDF cell is what the DOCX writer's cell list keeps once every empty cell is
      dropped: the DOCX table keeps inner empty cells, the PDF table none. */
  lemma PdfCellsAreNonEmptyRowCells(line: string)
    ensures PdfCells(line) == NonEmptyParts(RowCells(line))
  {
    TrimBoundaryKeepsNonEmpty(StripAll(Split(line, "|")));
  }

  /** Dropping empty boundary cells drops no non-empty cell. */
  lemma TrimBoundaryKeepsNonEmpty(cells: seq<string>)
    ensures NonEmptyParts(TrimBoundary(cells)) == NonEmptyParts(cells)
  {
    var a := if |cells| > 0 && cells[0] == "" then cells[1..] else cells;
    assert NonEmptyParts([""]) == [];
    if |cells| > 0 && cells[0] == "" {
      assert cells == [""] + a;
      NonEmptyPartsAppend([""], a);
    }
    if |a| > 0 && a[|a| - 1] == "" {
      var b := a[..|a| - 1];
      assert a == b + [""];
      NonEmptyPartsAppend(b, [""]);
    }
  }

  /** Every PDF cell is non-empty, stripped and free of pipes. */
  lemma PdfCellsClean(line: string)
    ensures forall k :: 0 <= k < |PdfCells(line)| ==>
      PdfCells(line)[k] != "" && '|' !in PdfCells(line)[k] && Strip(PdfCells(line)[k]) == PdfCells(line)[k]
  {
    PdfCellsAreNonEmptyRowCells(line);
    RowCellsClean(line);
    NonEmptyPartsSpec(RowCells(line));
    NonEmptyPartsFrom(RowCells(line));
    forall k | 0 <= k < |PdfCells(line)|
      ensures '|' !in PdfCells(line)[k] && Strip(PdfCells(line)[k]) == PdfCells(line)[k]
    {
      var x := PdfCells(line)[k];
      assert x in RowCells(line);
      var j :| 0 <= j < |RowCells(line)| && RowCells(line)[j] == x;
    }
  }

  /** Every PDF row is non-empty and comes from a line with a pipe that is not a skipped
      rule row. */
  lemma {:induction false} PdfRowsSpec(lines: seq<string>)
    ensures |PdfRows(lines)| <= |lines|
    ensures forall r :: r in PdfRows(lines) ==>
      r != [] && exists k :: 0 <= k < |lines| && '|' in lines[k] && !SkipsRow(lines[k]) && r == PdfCells(lines[k])
  {
    if |lines| > 0 {
      var n := |lines|;
      var init := lines[..n - 1];
      PdfRowsSpec(init);
      forall r | r in PdfRows(lines)
        ensures r != [] && exists k :: 0 <= k < |lines| && '|' in lines[k] && !SkipsRow(lines[k]) && r == PdfCells(lines[k])
      {
        if r in PdfRows(init) {
          var k :| 0 <= k < |init| && '|' in init[k] && !SkipsRow(init[k]) && r == PdfCells(init[k]);
          assert lines[k] == init[k];
        } else {
          assert r == PdfCells(lines[n - 1]);
        }
      }
    }
  }

  /** A paragraph adds at most one item; nothing exactly when it is blank or is a table
      without rows; a table exactly when it passes the table test and keeps a row; and
      otherwise the stripped paragraph with its line breaks converted. */
  lemma PdfParagraphSpec(para: string)
    ensures |PdfParagraphItems(para)| <= 1
    ensures PdfParagraphItems(para) == [] <==>
      Strip(para) == "" || (IsPdfTable(Strip(para)) && PdfRows(Split(Strip(para), "\n")) == [])
    ensures forall k :: 0 <= k < |PdfParagraphItems(para)| ==>
      (PdfParagraphItems(para)[k].PdfTable? <==> IsPdfTable(Strip(para)))
      && !PdfParagraphItems(para)[k].PdfHeading?
      && (PdfParagraphItems(para)[k].PdfParagraph? ==> PdfParagraphItems(para)[k].text == BreakLines(Strip(para)))
  {
  }

  /** The paragraph reader adds no heading. */
  lemma ReaderAddsNoHeadings()
    ensures forall para :: PdfHeadings(ParagraphReader()(para)) == []
  {
    forall para ensures PdfHeadings(ParagraphReader()(para)) == [] {
      var items := PdfParagraphItems(para);
      PdfParagraphSpec(para);
      if |items| == 1 {
        assert items == [items[0]];
      }
    }
  }

  /** A section adds one heading, its own. */
  lemma PdfSectionHeadingOnly(title: string, idx: nat, content: Option<string>, read: string -> seq<PdfItem>)
    requires forall para :: PdfHeadings(read(para)) == []
    ensures PdfHeadings(PdfSection(title, idx, content, read)) == [Numbered(idx, title)]
  {
    var c := Strip(GetOrElse(content, ""));
    var paras := if c == "" then [] else Split(c, "\n\n");
    var head := [PdfHeading(Numbered(idx, title))];
    assert PdfSection(title, idx, content, read) == head + PdfContentItems(paras, read);
    ContentHasNoHeadings(paras, read);
    PdfHeadingsAppend(head, PdfContentItems(paras, read));
    assert PdfHeadings(head) == [Numbered(idx, title)];
  }

  /** The section writer adds one heading per section, its own, when the paragraph reader
      adds none. */
  lemma SectionReaderHeadings(read: string -> seq<PdfItem>)
    requires forall para :: PdfHeadings(read(para)) == []
    ensures forall title, idx, content :: PdfHeadings(SectionReader(read)(title, idx, content)) == [Numbered(idx, title)]
  {
    forall title, idx, content ensures PdfHeadings(SectionReader(read)(title, idx, content)) == [Numbered(idx, title)] {
      PdfSectionHeadingOnly(title, idx, content, read);
    }
  }

  /** When written, the story's headings are "i. title" for each section, in order. */
  lemma {:induction false} PdfBodyHeadings(sections: seq<SectionSpec>, emit: (string, nat, Option<string>) -> seq<PdfItem>)
    requires forall title, idx, content :: PdfHeadings(emit(title, idx, content)) == [Numbered(idx, title)]
    requires PdfBody(sections, emit).Some?
    ensures |PdfHeadings(PdfBody(sections, emit).value)| == |sections|
    ensures forall k :: 0 <= k < |sections| ==>
      sections[k].title.Some? && PdfHeadings(PdfBody(sections, emit).value)[k] == Numbered(k + 1, sections[k].title.value)
    decreases |sections|
  {
    if |sections| > 0 {
      var n := |sections|;
      var init := sections[..n - 1];
      var s := sections[n - 1];
      var body := PdfBody(init, emit).value;
      PdfBodyHeadings(init, emit);
      PdfHeadingsAppend(body, emit(s.title.value, n, s.content));
      assert PdfHeadings(PdfBody(sections, emit).value) == PdfHeadings(body) + [Numbered(n, s.title.value)];
      forall k | 0 <= k < n
        ensures sections[k].title.Some? && PdfHeadings(PdfBody(sections, emit).value)[k] == Numbered(k + 1, sections[k].title.value)
      {
        if k < n - 1 {
          assert sections[k] == init[k];
        }
      }
    }
  }

  /** The story is built exactly when reportlab is present and every section has a title;
      it then opens with the title ("СОП" when the metadata has none) and its headings are
      "i. title" for each section, in order. */
  lemma PdfStorySpec(meta: Meta, sections: seq<SectionSpec>, pdfAvailable: bool)
    ensures PdfStory(meta, sections, pdfAvailable, ParagraphReader()).Some?
      <==> pdfAvailable && forall k :: 0 <= k < |sections| ==> sections[k].title.Some?
    ensures PdfStory(meta, sections, pdfAvailable, ParagraphReader()).Some? ==>
      var story := PdfStory(meta, sections, pdfAvailable, ParagraphReader()).value;
      story[0] == PdfTitle(DocTitleText(meta))
      && |PdfHeadings(story)| == |sections|
      && (forall k :: 0 <= k < |sections| ==> PdfHeadings(story)[k] == Numbered(k + 1, sections[k].title.value))
  {
    var emit := SectionReader(ParagraphReader());
    PdfBodySome(sections, emit);
    if pdfAvailable && PdfBody(sections, emit).Some? {
      ReaderAddsNoHeadings();
      SectionReaderHeadings(ParagraphReader());
      PdfBodyHeadings(sections, emit);
      var header := PdfHeader(meta);
      var number := GetOrElse(meta.number, "");
      var t: seq<PdfItem> := [PdfTitle(DocTitleText(meta))];
      var n: seq<PdfItem> := if number != "" then [PdfParagraph(NumberLabel + number)] else [];
      PdfHeadingsAppend(t, n);
      assert PdfHeadings(t) == [] && PdfHeadings(n) == [];
      PdfHeadingsAppend(header, PdfBody(sections, emit).value);
    }
  }
}
