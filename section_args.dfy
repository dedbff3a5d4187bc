/**
 * sop_generator/cli.py and sop_generator/main.py, whose `_parse_section_arg` and preview
 * assembly are the same code: a section given on the command line as "Title|mode|prompt",
 * and the preview that hands every configured section three paragraphs of the generated
 * text, its own content or a placeholder.
 */
module SectionArgs {
  import opened Wrappers
  import opened Text
  import opened Records

  // ---------------------------------------------------------------------------------
  // _parse_section_arg
  // ---------------------------------------------------------------------------------

  /** Python `s.split(sep, n)`: at most `n` splits, from the left. */
  function SplitAtMost(s: string, sep: string, n: nat): (r: seq<string>)
    requires |sep| > 0
    ensures 1 <= |r| <= n + 1
    decreases n
  {
    var i := Find(s, sep);
    if n == 0 || i == -1 then [s] else [s[..i]] + SplitAtMost(s[i + |sep|..], sep, n - 1)
  }

  /** The pieces joined by the separator give the text back. */
  lemma {:induction false} SplitAtMostJoin(s: string, sep: string, n: nat)
    requires |sep| > 0
    ensures Join(SplitAtMost(s, sep, n), sep) == s
    decreases n
  {
    var i := Find(s, sep);
    if n == 0 || i == -1 {
      assert SplitAtMost(s, sep, n) == [s];
    } else {
      var rest := s[i + |sep|..];
      var tail := SplitAtMost(rest, sep, n - 1);
      assert SplitAtMost(s, sep, n) == [s[..i]] + tail;
      SplitAtMostJoin(rest, sep, n - 1);
      JoinAtOccurrence(s, sep, i, tail);
    }
  }

  /** A piece, the separator, and pieces joining to the rest join to the whole text. */
  lemma JoinAtOccurrence(s: string, sep: string, i: nat, tail: seq<string>)
    requires OccursAt(s, sep, i) && |tail| >= 1 && Join(tail, sep) == s[i + |sep|..]
    ensures Join([s[..i]] + tail, sep) == s
  {
    JoinCons(s[..i], tail, sep);
    ThreeParts(s, i, |sep|);
  }

  /** No piece but the last holds the separator, and the last holds none either when
      fewer than `n` splits were made. */
  lemma {:induction false} SplitAtMostFree(s: string, sep: string, n: nat)
    requires |sep| > 0
    ensures forall k :: 0 <= k < |SplitAtMost(s, sep, n)| - 1 ==> !Contains(SplitAtMost(s, sep, n)[k], sep)
    ensures |SplitAtMost(s, sep, n)| <= n ==> !Contains(SplitAtMost(s, sep, n)[|SplitAtMost(s, sep, n)| - 1], sep)
    decreases n
  {
    var i := Find(s, sep);
    if n > 0 && i != -1 {
      BeforeFirstFree(s, sep, i);
      var rest := s[i + |sep|..];
      SplitAtMostFree(rest, sep, n - 1);
      var tail := SplitAtMost(rest, sep, n - 1);
      var r := SplitAtMost(s, sep, n);
      assert r == [s[..i]] + tail;
      forall k | 0 < k < |r| - 1 ensures !Contains(r[k], sep) {
        assert r[k] == tail[k - 1];
      }
    }
  }

  /** Splitting a piece free of '|', then '|', then the rest, splits off that piece. */
  lemma SplitAtMostStep(a: string, b: string, n: nat)
    requires !Contains(a, "|") && n > 0
    ensures SplitAtMost(a + "|" + b, "|", n) == [a] + SplitAtMost(b, "|", n - 1)
  {
    FindAfterFree(a, b);
    assert (a + "|" + b)[..|a|] == a;
    assert (a + "|" + b)[|a| + 1..] == b;
  }

  /** `_parse_section_arg(raw)`: "Title|mode|prompt", split at the first two '|'. */
  function ParseSectionArg(raw: string): (r: SectionSpec)
    ensures r.title.Some? && r.mode.Some? && r.prompt.Some? && r.content == Some("")
  {
    var parts := SplitAtMost(raw, "|", 2);
    SectionSpec(Some(Strip(parts[0])),
                Some(if |parts| > 1 then Strip(parts[1]) else "ai"),
                Some(if |parts| > 2 then Strip(parts[2]) else ""),
                Some(""))
  }

  /** The first '|' of a text that starts with a piece free of it and then '|' is the one
      after that piece. */
  lemma FindAfterFree(a: string, b: string)
    requires !Contains(a, "|")
    ensures Find(a + "|" + b, "|") == |a|
  {
    var s := a + "|" + b;
    FindFromFirst(s, "|", 0);
    assert s[|a|..|a| + 1] == "|";
    assert OccursAt(s, "|", |a|);
    forall j | 0 <= j < |a| ensures !OccursAt(s, "|", j) {
      if OccursAt(s, "|", j) {
        assert a[j..j + 1] == s[j..j + 1];
        ContainsSlice(a, j, j + 1);
      }
    }
  }

  /** A stripped piece of text holds '|' only if the text does. */
  lemma StripFree(s: string)
    requires !Contains(s, "|")
    ensures !Contains(Strip(s), "|")
  {
    StripSpec(s);
    var a := LeadingSpaces(s);
    if Contains(Strip(s), "|") {
      ContainsInSuper(s, a, a + |Strip(s)|, "|");
    }
  }

  /** A title with no '|' is the whole argument: mode "ai", an empty prompt. */
  lemma ParseTitleOnly(t: string)
    requires !Contains(t, "|")
    ensures ParseSectionArg(t) == SectionSpec(Some(Strip(t)), Some("ai"), Some(""), Some(""))
  {
  }

  /** "Title|mode" with no second '|' has an empty prompt. */
  lemma ParseTitleMode(t: string, m: string)
    requires !Contains(t, "|") && !Contains(m, "|")
    ensures ParseSectionArg(t + "|" + m) == SectionSpec(Some(Strip(t)), Some(Strip(m)), Some(""), Some(""))
  {
    SplitAtMostStep(t, m, 2);
  }

  /** Writing a stripped title and mode without '|' and a stripped prompt as
      "title|mode|prompt" parses back to them, the prompt keeping any '|' of its own. */
  lemma ParseRoundTrip(t: string, m: string, p: string)
    requires !Contains(t, "|") && !Contains(m, "|")
    requires Strip(t) == t && Strip(m) == m && Strip(p) == p
    ensures ParseSectionArg(t + "|" + m + "|" + p) == SectionSpec(Some(t), Some(m), Some(p), Some(""))
  {
    var raw := t + "|" + m + "|" + p;
    var rest := m + "|" + p;
    assert raw == t + "|" + rest;
    SplitAtMostStep(t, rest, 2);
    SplitAtMostStep(m, p, 1);
    assert SplitAtMost(p, "|", 0) == [p];
    var parts := SplitAtMost(raw, "|", 2);
    assert parts == [t] + ([m] + [p]);
    assert parts[0] == t && parts[1] == m && parts[2] == p;
  }

  /** Whatever the argument, the title and the mode hold no '|' and the content is empty. */
  lemma ParseFields(raw: string)
    ensures !Contains(ParseSectionArg(raw).title.value, "|")
    ensures ParseSectionArg(raw).mode.value == "ai" || !Contains(ParseSectionArg(raw).mode.value, "|")
    ensures ParseSectionArg(raw).content == Some("")
  {
    SplitAtMostFree(raw, "|", 2);
    var parts := SplitAtMost(raw, "|", 2);
    StripFree(parts[0]);
    if |parts| > 1 {
      StripFree(parts[1]);
    }
  }

  // ---------------------------------------------------------------------------------
  // The preview of run_iterative / run_agents
  // ---------------------------------------------------------------------------------

  /** What `iterative_generate_until_approved` returns, as far as the preview reads it:
      its optional "content", "approved" and "logs" entries. */
  datatype LoopOutput = LoopOutput(content: Option<string>, approved: Option<bool>, logs: Option<seq<string>>)

  /** A parsed chunk as the citation line reads it: its "source" and the rendering of its
      "keywords" entry, each `None` when the key is missing. */
  datatype ChunkRef = ChunkRef(source: Option<string>, keywords: Option<string>)

  /** The preview and the flag the two entry points return; `logs` is `None` where the
      result has no "logs" entry (`run_agents`). */
  datatype RunResult = RunResult(approved: bool, preview: seq<Section>, logs: Option<seq<string>>)

  /** Python `xs[a:b]` for non-negative bounds. */
  function Slice<T>(xs: seq<T>, a: nat, b: nat): (r: seq<T>)
    ensures |r| == Max(0, Min(b, |xs|) - Min(a, |xs|))
  {
    var lo := Min(a, |xs|);
    var hi := Min(b, |xs|);
    if lo <= hi then xs[lo..hi] else []
  }

  /** The paragraphs of section `idx`: `parts[idx*3:(idx+1)*3]`. */
  function Window(parts: seq<string>, idx: nat): seq<string> {
    Slice(parts, idx * 3, (idx + 1) * 3)
  }

  /** The windows of the first `n` sections, one after the other. */
  function Windows(parts: seq<string>, n: nat): seq<string> {
    if n == 0 then [] else Windows(parts, n - 1) + Window(parts, n - 1)
  }

  /** The windows of consecutive sections take the paragraphs in order, none twice and none
      skipped: together the first `n` are the first `3n` paragraphs. */
  lemma {:induction false} WindowsCover(parts: seq<string>, n: nat)
    ensures Windows(parts, n) == parts[..Min(3 * n, |parts|)]
  {
    if n > 0 {
      WindowsCover(parts, n - 1);
      var a := Min(3 * (n - 1), |parts|);
      var b := Min(3 * n, |parts|);
      assert parts[..a] + parts[a..b] == parts[..b];
    }
  }

  /** `"\n".join(parts[idx*3:(idx+1)*3]).strip()`. */
  function SliceText(parts: seq<string>, idx: nat): string {
    Strip(Join(Window(parts, idx), "\n"))
  }

  /** The placeholder of an "ai" section without text. */
  function AiPlaceholder(title: string): string {
    "[AI placeholder] " + title
  }

  /** The citation lines of the first three chunks; `None` when one of them lacks its
      "source" or "keywords" entry (`c['keywords']` raises). */
  function Cites(chunks: seq<ChunkRef>): Option<string> {
    var top := Slice(chunks, 0, 3);
    if exists k :: 0 <= k < |top| && (top[k].source.None? || top[k].keywords.None?) then None
    else Some(Join(CiteLines(top), "\n"))
  }

  function CiteLines(top: seq<ChunkRef>): (r: seq<string>)
    requires forall k :: 0 <= k < |top| ==> top[k].source.Some? && top[k].keywords.Some?
    ensures |r| == |top|
  {
    if |top| == 0 then []
    else
      var c := top[|top| - 1];
      CiteLines(top[..|top| - 1]) + ["Источник: " + c.source.value + " | " + c.keywords.value]
  }

  /** The preview entry of section `idx`; `None` when `section["mode"]` or
      `section["title"]` raises, or an "ai+doc" section's citations do. */
  function Entry(parts: seq<string>, idx: nat, section: SectionSpec, chunks: seq<ChunkRef>): Option<Section> {
    if section.mode.None? then None
    else if section.mode.value == "manual" then
      if section.title.None? then None else Some(Section(section.title.value, GetOrElse(section.content, "")))
    else
      var slice := SliceText(parts, idx);
      if section.mode.value == "ai+doc" then
        var cites := Cites(chunks);
        if cites.None? || section.title.None? then None
        else Some(Section(section.title.value, Strip(OrElse(section.content, slice + "\n\n" + cites.value))))
      else if section.title.None? then None
      else Some(Section(section.title.value, OrElse(section.content, Or(slice, AiPlaceholder(section.title.value)))))
  }

  /** The entries of the first sections; `None` once one of them raises. */
  function PreviewOf(parts: seq<string>, sections: seq<SectionSpec>, chunks: seq<ChunkRef>): Option<seq<Section>> {
    if |sections| == 0 then Some([])
    else
      var n := |sections| - 1;
      match PreviewOf(parts, sections[..n], chunks)
      case None => None
      case Some(r) =>
        match Entry(parts, n, sections[n], chunks)
        case None => None
        case Some(e) => Some(r + [e])
  }

  /** The preview loop over the paragraphs of the generated text. */
  method BuildPreview(text: string, sections: seq<SectionSpec>, chunks: seq<ChunkRef>) returns (r: Option<seq<Section>>)
    ensures r == PreviewOf(Split(text, "\n\n"), sections, chunks)
  {
    var parts := Split(text, "\n\n");
    var preview := [];
    for idx := 0 to |sections|
      invariant PreviewOf(parts, sections[..idx], chunks) == Some(preview)
    {
      assert sections[..idx + 1][..idx] == sections[..idx];
      var e := Entry(parts, idx, sections[idx], chunks);
      if e.None? {
        PreviewOfNone(parts, sections, chunks, idx);
        return None;
      }
      preview := preview + [e.value];
    }
    assert sections[..|sections|] == sections;
    return Some(preview);
  }

  /** A section whose entry raises makes the whole preview raise. */
  lemma {:induction false} PreviewOfNone(parts: seq<string>, sections: seq<SectionSpec>, chunks: seq<ChunkRef>, idx: nat)
    requires idx < |sections| && Entry(parts, idx, sections[idx], chunks).None?
    ensures PreviewOf(parts, sections, chunks).None?
  {
    if |sections| - 1 > idx {
      var init := sections[..|sections| - 1];
      assert init[idx] == sections[idx];
      PreviewOfNone(parts, init, chunks, idx);
    }
  }

  /** The preview holds one entry per section, each the entry of that section at its
      position, whenever no section raises. */
  lemma {:induction false} PreviewOfSpec(parts: seq<string>, sections: seq<SectionSpec>, chunks: seq<ChunkRef>)
    ensures PreviewOf(parts, sections, chunks).Some? <==>
      forall k :: 0 <= k < |sections| ==> Entry(parts, k, sections[k], chunks).Some?
    ensures PreviewOf(parts, sections, chunks).Some? ==>
      |PreviewOf(parts, sections, chunks).value| == |sections|
      && forall k :: 0 <= k < |sections| ==>
           PreviewOf(parts, sections, chunks).value[k] == Entry(parts, k, sections[k], chunks).value
  {
    if |sections| > 0 {
      var init := sections[..|sections| - 1];
      PreviewOfSpec(parts, init, chunks);
      assert forall k :: 0 <= k < |init| ==> init[k] == sections[k];
    }
  }

  /** A manual section receives its own content (empty when it has none); an "ai" section
      its stored content, else its three paragraphs, else the placeholder; an "ai+doc"
      section its stored content, else its paragraphs and the citations; every entry keeps
      the section's title. Any other mode is treated as "ai". */
  lemma EntrySpec(parts: seq<string>, idx: nat, section: SectionSpec, chunks: seq<ChunkRef>)
    ensures Entry(parts, idx, section, chunks).Some? <==>
      section.mode.Some? && section.title.Some?
      && (section.mode.value == "ai+doc" ==> Cites(chunks).Some?)
    ensures Entry(parts, idx, section, chunks).Some? ==>
      var e := Entry(parts, idx, section, chunks).value;
      e.title == section.title.value
      && (section.mode.value == "manual" ==> e.content == GetOrElse(section.content, ""))
      && (section.mode.value == "ai+doc" ==>
            e.content == if Truthy(section.content) then Strip(section.content.value)
                         else Strip(SliceText(parts, idx) + "\n\n" + Cites(chunks).value))
      && (section.mode.value != "manual" && section.mode.value != "ai+doc" ==>
            e.content == if Truthy(section.content) then section.content.value
                         else if SliceText(parts, idx) != "" then SliceText(parts, idx)
                         else AiPlaceholder(section.title.value))
  {
  }

  /** The citations raise exactly when one of the first three chunks lacks its source or
      its keywords; there is then one line per chunk, naming both. */
  lemma CitesSpec(chunks: seq<ChunkRef>)
    ensures Cites(chunks).Some? <==>
      forall k :: 0 <= k < Min(3, |chunks|) ==> chunks[k].source.Some? && chunks[k].keywords.Some?
    ensures Cites(chunks).Some? ==> Cites(chunks).value == Join(CiteLines(chunks[..Min(3, |chunks|)]), "\n")
  {
    var top := Slice(chunks, 0, 3);
    assert top == chunks[..Min(3, |chunks|)];
    assert forall k :: 0 <= k < |top| ==> top[k] == chunks[k];
  }

  /** Each citation line names the source and keywords of its chunk. */
  lemma {:induction false} CiteLinesSpec(top: seq<ChunkRef>)
    requires forall k :: 0 <= k < |top| ==> top[k].source.Some? && top[k].keywords.Some?
    ensures forall k :: 0 <= k < |top| ==>
      CiteLines(top)[k] == "Источник: " + top[k].source.value + " | " + top[k].keywords.value
  {
    if |top| > 0 {
      var init := top[..|top| - 1];
      CiteLinesSpec(init);
      assert forall k :: 0 <= k < |init| ==> init[k] == top[k];
    }
  }

  /** `run_iterative` (with logs) and `run_agents` (without): the preview of the generated
      text, empty when the loop returned none, and the loop's approval, `False` when it
      gave none. */
  function RunResultOf(out: LoopOutput, sections: seq<SectionSpec>, chunks: seq<ChunkRef>, withLogs: bool): (r: Option<RunResult>)
    ensures r.Some? ==> (r.value.approved <==> out.approved == Some(true))
    ensures r.Some? ==> r.value.logs == if withLogs then Some(if out.logs.Some? then out.logs.value else []) else None
    ensures r.Some? <==> PreviewOf(Split(GetOrElse(out.content, ""), "\n\n"), sections, chunks).Some?
  {
    var preview := PreviewOf(Split(GetOrElse(out.content, ""), "\n\n"), sections, chunks);
    if preview.None? then None
    else
      var approved := if out.approved.Some? then out.approved.value else false;
      var logs := if withLogs then Some(if out.logs.Some? then out.logs.value else []) else None;
      Some(RunResult(approved, preview.value, logs))
  }

  /** A section given on the command line never has stored content: an "ai" one receives
      its paragraphs, or the placeholder when they are blank. */
  lemma CommandLineAiEntry(parts: seq<string>, idx: nat, raw: string, chunks: seq<ChunkRef>)
    requires ParseSectionArg(raw).mode == Some("ai")
    ensures var t := ParseSectionArg(raw).title.value;
      Entry(parts, idx, ParseSectionArg(raw), chunks)
      == Some(Section(t, if SliceText(parts, idx) != "" then SliceText(parts, idx) else AiPlaceholder(t)))
  {
  }
}
