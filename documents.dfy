/**
 * The documents the exporters build, as the sequence of what they add, in order: the DOCX
 * document of python-docx (headings, paragraphs, a page break, the blocks of the markdown
 * writer) and the PDF story of reportlab (title, headings, paragraphs, tables). Spacers and
 * styles are not recorded.
 */
module Documents {
  import opened Markdown

  datatype DocxItem =
    | DocTitle(text: string)        // a level-0 heading
    | Line(text: string)            // a plain paragraph
    | PageBreak
    | SectionHeading(text: string)  // a level-1 heading
    | Body(block: Block)            // what the markdown writer adds

  datatype PdfItem =
    | PdfTitle(text: string)
    | PdfHeading(text: string)
    | PdfParagraph(text: string)
    | PdfTable(rows: seq<seq<string>>)

  /** The markdown writer's blocks, as document items. */
  function Bodies(blocks: seq<Block>): (r: seq<DocxItem>)
    ensures |r| == |blocks|
    ensures forall k :: 0 <= k < |r| ==> r[k] == Body(blocks[k])
  {
    seq(|blocks|, k requires 0 <= k < |blocks| => Body(blocks[k]))
  }

  /** The texts of the section headings, in order. */
  function SectionHeadings(items: seq<DocxItem>): seq<string> {
    if |items| == 0 then []
    else
      var last := items[|items| - 1];
      SectionHeadings(items[..|items| - 1]) + (if last.SectionHeading? then [last.text] else [])
  }

  /** The texts of the plain paragraphs, in order. */
  function Lines(items: seq<DocxItem>): seq<string> {
    if |items| == 0 then []
    else
      var last := items[|items| - 1];
      Lines(items[..|items| - 1]) + (if last.Line? then [last.text] else [])
  }

  lemma {:induction false} DocxFiltersAppend(a: seq<DocxItem>, b: seq<DocxItem>)
    ensures SectionHeadings(a + b) == SectionHeadings(a) + SectionHeadings(b)
    ensures Lines(a + b) == Lines(a) + Lines(b)
    decreases |b|
  {
    if |b| == 0 {
      assert a + b == a;
    } else {
      var b0 := b[..|b| - 1];
      assert (a + b)[..|a + b| - 1] == a + b0;
      assert (a + b)[|a + b| - 1] == b[|b| - 1];
      DocxFiltersAppend(a, b0);
    }
  }

  /** The markdown writer adds neither section headings nor plain paragraphs. */
  lemma {:induction false} BodiesFilters(blocks: seq<Block>)
    ensures SectionHeadings(Bodies(blocks)) == [] && Lines(Bodies(blocks)) == []
    decreases |blocks|
  {
    if |blocks| > 0 {
      var init := blocks[..|blocks| - 1];
      assert Bodies(blocks)[..|blocks| - 1] == Bodies(init);
      BodiesFilters(init);
    }
  }

  /** The texts of the PDF headings, in order. */
  function PdfHeadings(items: seq<PdfItem>): seq<string> {
    if |items| == 0 then []
    else
      var last := items[|items| - 1];
      PdfHeadings(items[..|items| - 1]) + (if last.PdfHeading? then [last.text] else [])
  }

  lemma {:induction false} PdfHeadingsAppend(a: seq<PdfItem>, b: seq<PdfItem>)
    ensures PdfHeadings(a + b) == PdfHeadings(a) + PdfHeadings(b)
    decreases |b|
  {
    if |b| == 0 {
      assert a + b == a;
    } else {
      var b0 := b[..|b| - 1];
      assert (a + b)[..|a + b| - 1] == a + b0;
      assert (a + b)[|a + b| - 1] == b[|b| - 1];
      PdfHeadingsAppend(a, b0);
    }
  }

  /** What a section's content adds to the PDF story, paragraph by paragraph, `read` standing
      for the paragraph reader. */
  function PdfContentItems(paras: seq<string>, read: string -> seq<PdfItem>): seq<PdfItem> {
    if |paras| == 0 then []
    else PdfContentItems(paras[..|paras| - 1], read) + read(paras[|paras| - 1])
  }

  lemma ContentItemsSnoc(paras: seq<string>, k: nat, read: string -> seq<PdfItem>)
    requires k < |paras|
    ensures PdfContentItems(paras[..k + 1], read) == PdfContentItems(paras[..k], read) + read(paras[k])
  {
    assert paras[..k + 1][..k] == paras[..k];
  }

  /** A reader that adds no heading adds none over a whole content. */
  lemma {:induction false} ContentHasNoHeadings(paras: seq<string>, read: string -> seq<PdfItem>)
    requires forall para :: PdfHeadings(read(para)) == []
    ensures PdfHeadings(PdfContentItems(paras, read)) == []
    decreases |paras|
  {
    if |paras| > 0 {
      var init := paras[..|paras| - 1];
      ContentHasNoHeadings(init, read);
      PdfHeadingsAppend(PdfContentItems(init, read), read(paras[|paras| - 1]));
    }
  }
}
