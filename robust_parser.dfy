/**
 * app_local.py, the `parse_sections_from_content` of `run_generation`, first half: the
 * filter that drops instruction blocks echoed from the prompt, the scan that cuts the
 * remaining text at section headers, the single-section fallback and the preamble drop.
 */
module RobustParser {
  import opened Wrappers
  import opened Text
  import opened Records

  // ---------------------------------------------------------------------------------
  // The pre-filter
  // ---------------------------------------------------------------------------------

  /** The three tests of the filter loop, each on the raw line. */
  datatype LineTests = LineTests(
    trigger: string -> bool,  // the line opens an instruction block
    ends: string -> bool,     // the line is a real section header, closing the block
    drop: string -> bool)     // the line is a "РАЗДЕЛ …" specification line

  /** The phrases that open an instruction block, looked for in the lower-cased line. */
  const SpecTriggers: seq<string> := [
    "критически важно - избегай", "детальные спецификации разделов",
    "требования пользователя:", "шаблон для этого раздела:",
    "критически важно для раздела", "финальная проверка перед генерацией"]

  predicate OpensSpecBlock(raw: string) {
    ContainsAny(Lower(Strip(raw)), SpecTriggers)
  }

  /** `line.startswith('#') or line_lower.startswith('сop-') or line_lower.startswith('соп-')`;
      the first prefix is written with a Cyrillic "с" and Latin "op". */
  predicate ClosesSpecBlock(raw: string) {
    StartsWith(Strip(raw), "#") || StartsWith(Lower(Strip(raw)), "сop-") || StartsWith(Lower(Strip(raw)), "соп-")
  }

  predicate IsSectionSpecLine(raw: string) {
    StartsWith(Upper(Strip(raw)), "РАЗДЕЛ ")
  }

  function SpecTests(): LineTests {
    LineTests(OpensSpecBlock, ClosesSpecBlock, IsSectionSpecLine)
  }

  /** The loop's state: the kept lines and `skip_spec_block`. */
  datatype FilterState = FilterState(kept: seq<string>, skip: bool)

  /** One turn of the filter loop. */
  function FilterStep(st: FilterState, raw: string, t: LineTests): FilterState {
    if t.trigger(raw) then FilterState(st.kept, true)
    else
      var skip := if t.ends(raw) then false else st.skip;
      if skip || t.drop(raw) then FilterState(st.kept, skip)
      else FilterState(st.kept + [raw], skip)
  }

  /** The state after the first lines. */
  function Filtered(lines: seq<string>, t: LineTests): FilterState {
    if |lines| == 0 then FilterState([], false)
    else FilterStep(Filtered(lines[..|lines| - 1], t), lines[|lines| - 1], t)
  }

  /** The filter loop. */
  method FilterLines(lines: seq<string>, t: LineTests) returns (kept: seq<string>)
    ensures kept == Filtered(lines, t).kept
  {
    kept := [];
    var skip := false;
    for k := 0 to |lines|
      invariant Filtered(lines[..k], t) == FilterState(kept, skip)
    {
      assert lines[..k + 1][..k] == lines[..k];
      var raw := lines[k];
      if t.trigger(raw) {
        skip := true;
        continue;
      }
      if t.ends(raw) {
        skip := false;
      }
      if skip {
        continue;
      }
      if t.drop(raw) {
        continue;
      }
      kept := kept + [raw];
    }
    assert lines[..|lines|] == lines;
  }

  /** The kept lines are some of the lines, in order, and none of them opens a block or is
      a specification line. */
  lemma {:induction false} FilteredKeeps(lines: seq<string>, t: LineTests)
    ensures IsSubseq(Filtered(lines, t).kept, lines)
    ensures forall k :: 0 <= k < |Filtered(lines, t).kept| ==>
      !t.trigger(Filtered(lines, t).kept[k]) && !t.drop(Filtered(lines, t).kept[k])
  {
    if |lines| == 0 {
      IsSubseqRefl(lines);
    } else {
      var init := lines[..|lines| - 1];
      var raw := lines[|lines| - 1];
      FilteredKeeps(init, t);
      var before := Filtered(init, t).kept;
      assert init + [raw] == lines;
      if Filtered(lines, t).kept == before {
        SubseqAppendRight(before, init, raw);
      } else {
        SubseqAppendBoth(before, init, raw);
      }
    }
  }

  /** Everything from a line that opens a block up to the next line that closes it (and
      does not itself open one) is dropped, that opening line included. */
  lemma {:induction false} SpecBlockDropped(lines: seq<string>, t: LineTests, i: nat, m: nat)
    requires i < m <= |lines| && t.trigger(lines[i])
    requires forall j :: i < j < m ==> t.trigger(lines[j]) || !t.ends(lines[j])
    ensures Filtered(lines[..m], t).kept == Filtered(lines[..i], t).kept
    ensures Filtered(lines[..m], t).skip
    decreases m
  {
    assert lines[..m][..m - 1] == lines[..m - 1];
    if m > i + 1 {
      SpecBlockDropped(lines, t, i, m - 1);
    }
  }

  /** Outside a block, a line that neither opens one nor is a specification line is kept;
      so is one that closes a block. */
  lemma FilteredKeepsText(lines: seq<string>, t: LineTests, m: nat)
    requires m < |lines| && !t.trigger(lines[m]) && !t.drop(lines[m])
    requires !Filtered(lines[..m], t).skip || t.ends(lines[m])
    ensures Filtered(lines[..m + 1], t).kept == Filtered(lines[..m], t).kept + [lines[m]]
  {
    assert lines[..m + 1][..m] == lines[..m];
  }

  // ---------------------------------------------------------------------------------
  // The header scan
  // ---------------------------------------------------------------------------------

  /** `is_header`: `header` answers the captured title of the first of the four header
      patterns that matches the stripped line, or `None`. The title is stripped and loses
      its '*'; a line whose title ends up empty is no header. */
  function HeaderTitle(raw: string, header: string -> Option<string>): (r: Option<string>)
    ensures r.Some? ==> r.value != "" && '*' !in r.value
  {
    match header(Strip(raw))
    case None => None
    case Some(g) =>
      var title := RemoveChar(Strip(g), '*');
      if title == "" then None else Some(title)
  }

  /** The scan's state: the sections so far, `current_section` and `current_content`. */
  datatype ScanState = ScanState(parsed: seq<Section>, current: Option<string>, body: seq<string>)

  /** The sections with the open one closed, if it has a title and at least one line. */
  function Flushed(st: ScanState): seq<Section> {
    if st.current.Some? && st.current.value != "" && |st.body| > 0
    then st.parsed + [Section(st.current.value, Strip(Join(st.body, "\n")))]
    else st.parsed
  }

  /** One turn of the scan: a header closes the open section and opens its own; any other
      line belongs to the open section, and is lost before the first header. */
  function ScanStep(st: ScanState, raw: string, header: string -> Option<string>): ScanState {
    match HeaderTitle(raw, header)
    case Some(title) => ScanState(Flushed(st), Some(title), [])
    case None => if st.current.Some? then ScanState(st.parsed, st.current, st.body + [raw]) else st
  }

  function Scanned(lines: seq<string>, header: string -> Option<string>): ScanState {
    if |lines| == 0 then ScanState([], None, [])
    else ScanStep(Scanned(lines[..|lines| - 1], header), lines[|lines| - 1], header)
  }

  /** `sections_parsed` after the scan and the final flush. */
  function ParsedSections(lines: seq<string>, header: string -> Option<string>): seq<Section> {
    Flushed(Scanned(lines, header))
  }

  /** The scan loop and the final flush. */
  method ScanLines(lines: seq<string>, header: string -> Option<string>) returns (parsed: seq<Section>)
    ensures parsed == ParsedSections(lines, header)
  {
    parsed := [];
    var current: Option<string> := None;
    var body: seq<string> := [];
    for k := 0 to |lines|
      invariant Scanned(lines[..k], header) == ScanState(parsed, current, body)
    {
      assert lines[..k + 1][..k] == lines[..k];
      var raw := lines[k];
      var title := HeaderTitle(raw, header);
      if title.Some? {
        if current.Some? && current.value != "" && |body| > 0 {
          parsed := parsed + [Section(current.value, Strip(Join(body, "\n")))];
        }
        current := title;
        body := [];
        continue;
      }
      if current.Some? {
        body := body + [raw];
      }
    }
    assert lines[..|lines|] == lines;
    if current.Some? && current.value != "" && |body| > 0 {
      parsed := parsed + [Section(current.value, Strip(Join(body, "\n")))];
    }
  }

  predicate IsHeaderLine(raw: string, header: string -> Option<string>) {
    HeaderTitle(raw, header).Some?
  }

  /** Some line among the first `n` is a header. */
  predicate HeaderAmong(lines: seq<string>, header: string -> Option<string>) {
    exists i :: 0 <= i < |lines| && IsHeaderLine(lines[i], header)
  }

  /** Some header among the lines has a line that is no header after it. */
  predicate TextAfterHeader(lines: seq<string>, header: string -> Option<string>) {
    exists i, j :: 0 <= i < j < |lines| && IsHeaderLine(lines[i], header) && !IsHeaderLine(lines[j], header)
  }

  /** A section is open exactly when a header has been seen; its title is a header's
      cleaned title, and lines are collected only while one is open. */
  lemma {:induction false} ScannedOpen(lines: seq<string>, header: string -> Option<string>)
    ensures Scanned(lines, header).current.Some? <==> HeaderAmong(lines, header)
    ensures |Scanned(lines, header).body| > 0 ==> Scanned(lines, header).current.Some?
  {
    if |lines| > 0 {
      var init := lines[..|lines| - 1];
      ScannedOpen(init, header);
      if HeaderAmong(init, header) {
        var i :| 0 <= i < |init| && IsHeaderLine(init[i], header);
        assert IsHeaderLine(lines[i], header);
      }
      if HeaderAmong(lines, header) && !IsHeaderLine(lines[|lines| - 1], header) {
        var i :| 0 <= i < |lines| && IsHeaderLine(lines[i], header);
        assert IsHeaderLine(init[i], header);
      }
    }
  }

  /** Every title the scan holds is non-empty and free of '*'. */
  lemma {:induction false} ScannedTitles(lines: seq<string>, header: string -> Option<string>)
    ensures Scanned(lines, header).current.Some? ==>
      Scanned(lines, header).current.value != "" && '*' !in Scanned(lines, header).current.value
    ensures forall k :: 0 <= k < |Scanned(lines, header).parsed| ==>
      Scanned(lines, header).parsed[k].title != "" && '*' !in Scanned(lines, header).parsed[k].title
  {
    if |lines| > 0 {
      ScannedTitles(lines[..|lines| - 1], header);
    }
  }

  /** Something has been collected exactly when some header has had text after it. */
  lemma {:induction false} ScannedCollected(lines: seq<string>, header: string -> Option<string>)
    ensures (|Scanned(lines, header).parsed| > 0 || |Scanned(lines, header).body| > 0)
            <==> TextAfterHeader(lines, header)
  {
    if |lines| > 0 {
      var init := lines[..|lines| - 1];
      var raw := lines[|lines| - 1];
      var st := Scanned(init, header);
      assert Scanned(lines, header) == ScanStep(st, raw, header);
      ScannedCollected(init, header);
      ScannedOpen(init, header);
      ScannedTitles(init, header);
      TextAfterHeaderGrows(lines, header);
      if IsHeaderLine(raw, header) {
        TextAfterHeaderAtHeader(lines, header);
        assert |Flushed(st)| > 0 <==> |st.parsed| > 0 || |st.body| > 0;
      } else if HeaderAmong(init, header) {
        var i :| 0 <= i < |init| && IsHeaderLine(init[i], header);
        assert IsHeaderLine(lines[i], header) && !IsHeaderLine(lines[|lines| - 1], header);
      } else {
        TextAfterHeaderNeedsHeader(lines, header);
      }
    }
  }

  /** Text after a header among the first lines is text after a header among all. */
  lemma TextAfterHeaderGrows(lines: seq<string>, header: string -> Option<string>)
    requires |lines| > 0
    ensures TextAfterHeader(lines[..|lines| - 1], header) ==> TextAfterHeader(lines, header)
  {
    var init := lines[..|lines| - 1];
    if TextAfterHeader(init, header) {
      var i, j :| 0 <= i < j < |init| && IsHeaderLine(init[i], header) && !IsHeaderLine(init[j], header);
      assert IsHeaderLine(lines[i], header) && !IsHeaderLine(lines[j], header);
    }
  }

  /** A header as the last line adds no text after a header. */
  lemma TextAfterHeaderAtHeader(lines: seq<string>, header: string -> Option<string>)
    requires |lines| > 0 && IsHeaderLine(lines[|lines| - 1], header)
    ensures TextAfterHeader(lines, header) ==> TextAfterHeader(lines[..|lines| - 1], header)
  {
    var init := lines[..|lines| - 1];
    if TextAfterHeader(lines, header) {
      var i, j :| 0 <= i < j < |lines| && IsHeaderLine(lines[i], header) && !IsHeaderLine(lines[j], header);
      assert j < |init|;
      assert IsHeaderLine(init[i], header) && !IsHeaderLine(init[j], header);
    }
  }

  /** Without a header among the first lines, the last line follows no header. */
  lemma TextAfterHeaderNeedsHeader(lines: seq<string>, header: string -> Option<string>)
    requires |lines| > 0 && !HeaderAmong(lines[..|lines| - 1], header)
    ensures !TextAfterHeader(lines, header)
  {
    var init := lines[..|lines| - 1];
    forall i | 0 <= i < |init| ensures !IsHeaderLine(lines[i], header) {
      assert lines[i] == init[i];
    }
  }

  /** The scan finds sections exactly when some header is followed by a line that is no
      header; every section it finds has a non-empty title without '*'. */
  lemma ParsedSectionsSpec(lines: seq<string>, header: string -> Option<string>)
    ensures |ParsedSections(lines, header)| > 0 <==> TextAfterHeader(lines, header)
    ensures forall k :: 0 <= k < |ParsedSections(lines, header)| ==>
      ParsedSections(lines, header)[k].title != "" && '*' !in ParsedSections(lines, header)[k].title
  {
    ScannedOpen(lines, header);
    ScannedTitles(lines, header);
    ScannedCollected(lines, header);
  }

  // ---------------------------------------------------------------------------------
  // Fallback and preamble
  // ---------------------------------------------------------------------------------

  const WholeDocument := "Документ"

  /** `sections_parsed`, or the whole text as one section when the scan found none. */
  function WithFallback(parsed: seq<Section>, text: string): (r: seq<Section>)
    ensures |r| >= 1
  {
    if |parsed| == 0 then [Section(WholeDocument, Strip(text))] else parsed
  }

  /** The first block is taken for the title block of the document. */
  predicate IsPreamble(first: Section) {
    var fb := Lower(first.title + "\n" + first.content);
    Contains(fb, "номер:") || Contains(fb, "sop") || Contains(fb, "эксплуатац")
  }

  /** The preamble is dropped unless it is the only section. */
  function WithoutPreamble(sections: seq<Section>): (r: seq<Section>)
    requires |sections| >= 1
    ensures |r| >= 1
  {
    if IsPreamble(sections[0]) && |sections| > 1 then sections[1..] else sections
  }

  /** At most the first section is dropped, and only a preamble; the result is never empty. */
  lemma WithoutPreambleSpec(sections: seq<Section>)
    requires |sections| >= 1
    ensures WithoutPreamble(sections) == sections || (IsPreamble(sections[0]) && WithoutPreamble(sections) == sections[1..])
    ensures |WithoutPreamble(sections)| >= 1
    ensures |sections| > 1 && IsPreamble(sections[0]) ==> |WithoutPreamble(sections)| == |sections| - 1
  {
  }

  /** The sections the matching works on: the filter, the scan of the re-joined text, the
      fallback and the preamble drop. */
  function SourceSections(content: string, header: string -> Option<string>): (r: seq<Section>)
    ensures |r| >= 1
  {
    var text := Join(Filtered(Split(content, "\n"), SpecTests()).kept, "\n");
    WithoutPreamble(WithFallback(ParsedSections(Split(text, "\n"), header), text))
  }

  /** The steps before the matching, one after the other. */
  method ReadSections(content: string, header: string -> Option<string>) returns (sections: seq<Section>)
    ensures sections == SourceSections(content, header)
  {
    var kept := FilterLines(Split(content, "\n"), SpecTests());
    var text := Join(kept, "\n");
    var parsed := ScanLines(Split(text, "\n"), header);
    if |parsed| == 0 {
      parsed := [Section(WholeDocument, Strip(text))];
    }
    if IsPreamble(parsed[0]) {
      parsed := if |parsed| > 1 then parsed[1..] else parsed;
    }
    sections := parsed;
  }

  /** The filtered lines re-joined and split again are the filtered lines: no kept line
      holds a line break. With no kept line, the text is one empty line. */
  lemma ResplitKept(content: string)
    ensures var kept := Filtered(Split(content, "\n"), SpecTests()).kept;
      Split(Join(kept, "\n"), "\n") == if |kept| == 0 then [""] else kept
  {
    var lines := Split(content, "\n");
    FilteredKeeps(lines, SpecTests());
    SplitPiecesFree(content, "\n");
    var kept := Filtered(lines, SpecTests()).kept;
    SubseqMembers(kept, lines);
    SplitJoinFree(kept);
  }

  /** Lines without line breaks, joined and split at line breaks, come back. */
  lemma {:induction false} SplitJoinFree(parts: seq<string>)
    requires forall k :: 0 <= k < |parts| ==> !Contains(parts[k], "\n")
    ensures Split(Join(parts, "\n"), "\n") == if |parts| == 0 then [""] else parts
    decreases |parts|
  {
    if |parts| == 1 {
      FindFromFirst(parts[0], "\n", 0);
      ContainsIff(parts[0], "\n");
    } else if |parts| > 1 {
      var rest := parts[1..];
      SplitJoinFree(rest);
      var j := Join(parts, "\n");
      assert j == parts[0] + "\n" + Join(rest, "\n");
      var i := Find(j, "\n");
      FirstBreak(parts[0], Join(rest, "\n"));
      SplitStep(j, "\n", i);
      assert j[..|parts[0]|] == parts[0];
      assert j[|parts[0]| + 1..] == Join(rest, "\n");
    }
  }

  /** In `a + "\n" + b` with no line break in `a`, the first line break follows `a`. */
  lemma FirstBreak(a: string, b: string)
    requires !Contains(a, "\n")
    ensures Find(a + "\n" + b, "\n") == |a|
  {
    var j := a + "\n" + b;
    FindFromFirst(j, "\n", 0);
    ContainsIff(a, "\n");
    assert OccursAt(j, "\n", |a|);
    forall p | 0 <= p < |a| ensures !OccursAt(j, "\n", p) {
      assert j[p..p + 1] == a[p..p + 1];
      assert !OccursAt(a, "\n", p);
    }
  }
}
