/**
 * app_local.py, `run_mock_generation`: the review rounds of the mock group chat and the
 * parser that turns its final draft into the preview, one entry per configured section.
 */
module MockRun {
  import opened Wrappers
  import opened Text
  import opened Records

  // ---------------------------------------------------------------------------------
  // The split at `\n(?=##\s*\d+\.)`
  // ---------------------------------------------------------------------------------

  /** `s` starts with `##\s*\d+\.`: two hashes, optional whitespace, digits and a dot. */
  predicate HeadingStart(s: string) {
    StartsWith(s, "##")
    && var t := s[2..][LeadingSpaces(s[2..])..];
       var d := LeadingDigits(t);
       1 <= d < |t| && t[d] == '.'
  }

  /** The first line break at or after `k` that a piece accepted by `starts` follows, or
      `|s|`. */
  function NextBreak(s: string, k: nat, starts: string -> bool): (i: nat)
    requires k <= |s|
    ensures k <= i <= |s|
    ensures i < |s| ==> s[i] == '\n' && starts(s[i + 1..])
    decreases |s| - k
  {
    if k == |s| then k
    else if s[k] == '\n' && starts(s[k + 1..]) then k
    else NextBreak(s, k + 1, starts)
  }

  /** `re.split(r"\n(?=…)", s)` for a lookahead accepting what `starts` accepts: the pieces
      between the line breaks such a piece follows; those line breaks are dropped. */
  function PartsAt(s: string, starts: string -> bool): (r: seq<string>)
    ensures |r| >= 1
    decreases |s|
  {
    var i := NextBreak(s, 0, starts);
    if i == |s| then [s] else [s[..i]] + PartsAt(s[i + 1..], starts)
  }

  /** `re.split(r"\n(?=##\s*\d+\.)", s)`. */
  function HeadingParts(s: string): (r: seq<string>)
    ensures |r| >= 1
  {
    PartsAt(s, HeadingStart)
  }

  /** Joining the pieces with line breaks gives the draft back. */
  lemma {:induction false} PartsAtJoin(s: string, starts: string -> bool)
    ensures Join(PartsAt(s, starts), "\n") == s
    decreases |s|
  {
    var i := NextBreak(s, 0, starts);
    if i < |s| {
      var rest := s[i + 1..];
      PartsAtJoin(rest, starts);
      JoinCons(s[..i], PartsAt(rest, starts), "\n");
      ThreeParts(s, i, 1);
      assert s[i..i + 1] == "\n";
    }
  }

  /** A draft that starts with "##" has a first piece that does too: no break comes before
      the third character. */
  lemma PartsAtFirst(s: string, starts: string -> bool)
    requires StartsWith(s, "##")
    ensures StartsWith(PartsAt(s, starts)[0], "##")
  {
    assert s[0] == '#' && s[1] == '#';
    assert NextBreak(s, 0, starts) == NextBreak(s, 2, starts);
    var i := NextBreak(s, 0, starts);
    if i < |s| {
      assert s[..i][..2] == s[..2];
    }
  }

  /** When every accepted piece starts with "##", so does every piece after the first. */
  lemma {:induction false} PartsAtStart(s: string, starts: string -> bool)
    requires forall x :: starts(x) ==> StartsWith(x, "##")
    ensures forall k :: 1 <= k < |PartsAt(s, starts)| ==> StartsWith(PartsAt(s, starts)[k], "##")
    decreases |s|
  {
    var i := NextBreak(s, 0, starts);
    if i < |s| {
      var rest := s[i + 1..];
      PartsAtStart(rest, starts);
      PartsAtFirst(rest, starts);
      var tail := PartsAt(rest, starts);
      assert PartsAt(s, starts) == [s[..i]] + tail;
      forall k | 1 <= k < |PartsAt(s, starts)| ensures StartsWith(PartsAt(s, starts)[k], "##") {
        assert PartsAt(s, starts)[k] == tail[k - 1];
      }
    }
  }

  /** The heading split gives the draft back when joined with line breaks, and every piece
      after the first starts with the "##" of its numbered heading. */
  lemma HeadingPartsSpec(s: string)
    ensures Join(HeadingParts(s), "\n") == s
    ensures forall k :: 1 <= k < |HeadingParts(s)| ==> StartsWith(HeadingParts(s)[k], "##")
  {
    PartsAtJoin(s, HeadingStart);
    PartsAtStart(s, HeadingStart);
  }

  // ---------------------------------------------------------------------------------
  // The mock parser
  // ---------------------------------------------------------------------------------

  /** A piece that is kept as a section body: `p.strip() and p.strip().startswith("##")`. */
  predicate IsBody(p: string) {
    Strip(p) != "" && StartsWith(Strip(p), "##")
  }

  /** `[p.strip() for p in parts if …]`, over the first pieces. */
  function BodySections(parts: seq<string>): seq<string> {
    if |parts| == 0 then []
    else BodySections(parts[..|parts| - 1]) + (if IsBody(parts[|parts| - 1]) then [Strip(parts[|parts| - 1])] else [])
  }

  /** Every piece after the first of a heading split is kept, so at most the first is lost. */
  lemma {:induction false} BodySectionsKeepHeadings(parts: seq<string>)
    requires forall k :: 1 <= k < |parts| ==> StartsWith(parts[k], "##")
    ensures |parts| >= 1 ==> |BodySections(parts)| >= |parts| - 1
    ensures forall k :: 0 <= k < |BodySections(parts)| ==> StartsWith(BodySections(parts)[k], "##")
  {
    if |parts| > 0 {
      var init := parts[..|parts| - 1];
      BodySectionsKeepHeadings(init);
      var last := parts[|parts| - 1];
      if |parts| > 1 {
        PrefixSurvivesStrip(last, "##");
      }
    }
  }

  /** `body.split("\n", 1)[1]` when there is a second line, else "". */
  function AfterFirstLine(s: string): (r: string)
    ensures |r| < |s| || r == ""
  {
    var i := Find(s, "\n");
    if i == -1 then "" else s[i + 1..]
  }

  /** The entries an append loop over the configured sections builds, one per section,
      over the first sections. */
  function Entries(configs: seq<SectionSpec>, entry: (SectionSpec, nat) -> Section): seq<Section> {
    if |configs| == 0 then []
    else Entries(configs[..|configs| - 1], entry) + [entry(configs[|configs| - 1], |configs| - 1)]
  }

  lemma {:induction false} EntriesSpec(configs: seq<SectionSpec>, entry: (SectionSpec, nat) -> Section)
    ensures |Entries(configs, entry)| == |configs|
    ensures forall k :: 0 <= k < |configs| ==> Entries(configs, entry)[k] == entry(configs[k], k)
  {
    if |configs| > 0 {
      var init := configs[..|configs| - 1];
      EntriesSpec(init, entry);
      assert forall k :: 0 <= k < |init| ==> init[k] == configs[k];
    }
  }

  /** The preview entry of the configured section at `idx` for a draft with at least two
      pieces. */
  function MockEntry(body: seq<string>, cfg: SectionSpec, idx: nat): Section {
    Section(GetOrElse(cfg.title, "Раздел " + NatToString(idx + 1)),
            if idx < |body| then Strip(AfterFirstLine(body[idx])) else "")
  }

  function MockEntryOf(body: seq<string>): (SectionSpec, nat) -> Section {
    (cfg: SectionSpec, idx: nat) => MockEntry(body, cfg, idx)
  }

  /** The entry of every configured section when the draft has no numbered heading: the
      whole draft. */
  function FallbackEntryOf(content: string): (SectionSpec, nat) -> Section {
    (cfg: SectionSpec, idx: nat) => Section(GetOrElse(cfg.title, "Раздел"), content)
  }

  /** The mock `parse_sections_from_content(content, section_configs)`. */
  function MockPreview(content: string, configs: seq<SectionSpec>): seq<Section> {
    var parts := HeadingParts(content);
    if |parts| <= 1 then Entries(configs, FallbackEntryOf(content))
    else Entries(configs, MockEntryOf(BodySections(parts)))
  }

  /** The mock parser: the split, then one of its two append loops. */
  method MockParse(content: string, configs: seq<SectionSpec>) returns (result: seq<Section>)
    ensures result == MockPreview(content, configs)
  {
    var parts := HeadingParts(content);
    if |parts| <= 1 {
      result := FallbackLoop(content, configs);
    } else {
      var body := BodySections(parts);
      result := ParsedLoop(body, configs);
    }
  }

  /** The loop for a draft without numbered headings. */
  method FallbackLoop(content: string, configs: seq<SectionSpec>) returns (result: seq<Section>)
    ensures result == Entries(configs, FallbackEntryOf(content))
  {
    result := [];
    for k := 0 to |configs|
      invariant result == Entries(configs[..k], FallbackEntryOf(content))
    {
      assert configs[..k + 1][..k] == configs[..k];
      result := result + [Section(GetOrElse(configs[k].title, "Раздел"), content)];
    }
    assert configs[..|configs|] == configs;
  }

  /** The loop over the configured sections that takes the kept pieces by position. */
  method ParsedLoop(body: seq<string>, configs: seq<SectionSpec>) returns (result: seq<Section>)
    ensures result == Entries(configs, MockEntryOf(body))
  {
    result := [];
    for idx := 0 to |configs|
      invariant result == Entries(configs[..idx], MockEntryOf(body))
    {
      assert configs[..idx + 1][..idx] == configs[..idx];
      var entry := ParsedEntry(body, configs[idx], idx);
      result := result + [entry];
    }
    assert configs[..|configs|] == configs;
  }

  /** One step of the second loop: the heading line is cut off the kept piece at `idx`. */
  method ParsedEntry(body: seq<string>, cfg: SectionSpec, idx: nat) returns (entry: Section)
    ensures entry == MockEntry(body, cfg, idx)
  {
    var title := GetOrElse(cfg.title, "Раздел " + NatToString(idx + 1));
    if idx < |body| {
      var lines := AfterFirstLine(body[idx]);
      entry := Section(title, Strip(lines));
    } else {
      entry := Section(title, "");
    }
  }

  /** One entry per configured section, in order. Without a numbered heading every entry
      holds the whole draft; otherwise the entry at `k` holds the text below the heading
      line of the `k`-th kept piece, or nothing when there are fewer pieces, and a draft
      of `n` pieces keeps at least `n - 1` of them. */
  lemma MockPreviewSpec(content: string, configs: seq<SectionSpec>)
    ensures |MockPreview(content, configs)| == |configs|
    ensures |HeadingParts(content)| <= 1 ==> forall k :: 0 <= k < |configs| ==>
      MockPreview(content, configs)[k] == Section(GetOrElse(configs[k].title, "Раздел"), content)
    ensures |HeadingParts(content)| > 1 ==>
      var body := BodySections(HeadingParts(content));
      |body| >= |HeadingParts(content)| - 1
      && forall k :: 0 <= k < |configs| ==>
        MockPreview(content, configs)[k].title == GetOrElse(configs[k].title, "Раздел " + NatToString(k + 1))
        && MockPreview(content, configs)[k].content == (if k < |body| then Strip(AfterFirstLine(body[k])) else "")
  {
    var parts := HeadingParts(content);
    if |parts| <= 1 {
      EntriesSpec(configs, FallbackEntryOf(content));
    } else {
      HeadingPartsSpec(content);
      BodySectionsKeepHeadings(parts);
      EntriesSpec(configs, MockEntryOf(BodySections(parts)));
    }
  }

  // ---------------------------------------------------------------------------------
  // The review rounds
  // ---------------------------------------------------------------------------------

  const Warning := "ВНИМАНИЕ"
  const Ppe := "СИЗ"
  const Criteria := "Критерии приёмки"
  const Control := "Контроль качества"

  /** The notes the safety and quality agents append when their marker is missing. */
  const WarningNote := "\n\n" + Warning + ": соблюдать требования безопасности при работе с реагентами и под давлением."
  const PpeNote := "\n\n" + Ppe + ": защитные очки, перчатки, халат; при летучих — работа под вытяжкой."
  const CriteriaNote := "\n\n" + Criteria + ": R²>0.995; RSD<5%; отклонение контрольной пробы ±10%."
  const ControlNote := "\n\n" + Control + ": холостая проба в начале/конце, контрольная — каждые 10 анализов."

  /** Append `note` unless `marker` already occurs. */
  function Ensure(d: string, marker: string, note: string): string {
    if Contains(d, marker) then d else d + note
  }

  /** The safety agent, then the quality checker. */
  function Reviewed(d: string): string {
    var safe := Ensure(Ensure(d, Warning, WarningNote), Ppe, PpeNote);
    Ensure(Ensure(safe, Criteria, CriteriaNote), Control, ControlNote)
  }

  const GoalIssue := "Нет явного описания цели/области применения."
  const PpeIssue := "Слабая интеграция СИЗ."
  const CriteriaIssue := "Нет критериев приёмки."

  /** The draft names neither the goal nor the scope. */
  predicate GoalMissing(d: string) {
    !Contains(d, "Цель") && !Contains(Lower(d), "область применения")
  }

  /** The critic's issue list. */
  function Issues(d: string): seq<string> {
    (if GoalMissing(d) then [GoalIssue] else [])
    + (if !Contains(d, Ppe) then [PpeIssue] else [])
    + (if !Contains(d, Criteria) then [CriteriaIssue] else [])
  }

  const MaxIters: nat := 3
  const Approved := "APPROVED"
  const Revise := "REVISE"

  /** `"APPROVED" if not issues or it == max_iters else "REVISE"`. */
  function Status(issues: seq<string>, it: nat): string {
    if |issues| == 0 || it == MaxIters then Approved else Revise
  }

  /** `Ensure` leaves its marker in the text and keeps every earlier piece. */
  lemma EnsureSpec(d: string, marker: string, note: string, m: string)
    requires Contains(note, marker)
    ensures Contains(Ensure(d, marker, note), marker)
    ensures Contains(d, m) ==> Contains(Ensure(d, marker, note), m)
  {
    if !Contains(d, marker) {
      ContainsInSuper(d + note, |d|, |d + note|, marker) by {
        assert (d + note)[|d|..|d + note|] == note;
      }
      if Contains(d, m) {
        ContainsExtended(d, note, m);
      }
    }
  }

  /** The critic can only ever report the missing goal: the agents before it have put the
      PPE and acceptance-criteria markers into the draft. */
  lemma ReviewedIssues(d: string)
    ensures Issues(Reviewed(d)) == if GoalMissing(Reviewed(d)) then [GoalIssue] else []
    ensures |Issues(Reviewed(d))| == 0 <==> !GoalMissing(Reviewed(d))
  {
    ContainsMiddle("\n\n", Ppe, PpeNote[2 + |Ppe|..]);
    assert "\n\n" + Ppe + PpeNote[2 + |Ppe|..] == PpeNote;
    ContainsMiddle("\n\n", Criteria, CriteriaNote[2 + |Criteria|..]);
    assert "\n\n" + Criteria + CriteriaNote[2 + |Criteria|..] == CriteriaNote;
    var w := Ensure(d, Warning, WarningNote);
    var safe := Ensure(w, Ppe, PpeNote);
    EnsureSpec(w, Ppe, PpeNote, Ppe);
    var q := Ensure(safe, Criteria, CriteriaNote);
    EnsureSpec(safe, Criteria, CriteriaNote, Ppe);
    ContainsMiddle("\n\n", Control, ControlNote[2 + |Control|..]);
    assert "\n\n" + Control + ControlNote[2 + |Control|..] == ControlNote;
    EnsureSpec(q, Control, ControlNote, Ppe);
    EnsureSpec(q, Control, ControlNote, Criteria);
  }

  /** The safety agent's and the quality checker's appends. */
  method AgentsAmend(composed: string) returns (draft: string)
    ensures draft == Reviewed(composed)
  {
    draft := Ensure(composed, Warning, WarningNote);
    draft := Ensure(draft, Ppe, PpeNote);
    draft := Ensure(draft, Criteria, CriteriaNote);
    draft := Ensure(draft, Control, ControlNote);
  }

  /** The rounds loop: every round rebuilds the same draft `composed` from the configured
      sections, lets the agents amend it and asks the critic. The result is the amended
      draft, approved in the first round unless the goal is missing, and in the last
      otherwise. */
  method ReviewRounds(composed: string) returns (final: string, rounds: nat, status: string)
    ensures final == Reviewed(composed)
    ensures rounds == if GoalMissing(final) then MaxIters else 1
    ensures status == Approved
  {
    ReviewedIssues(composed);
    final, rounds, status := composed, 0, Revise;
    var it := 1;
    while it <= MaxIters && status != Approved
      invariant 1 <= it <= MaxIters + 1 && rounds == it - 1
      invariant it == MaxIters + 1 ==> status == Approved
      invariant status != Approved ==> status == Revise && (it > 1 ==> GoalMissing(final))
      invariant it > 1 ==> final == Reviewed(composed)
      invariant status == Approved ==> rounds == if GoalMissing(final) then MaxIters else 1
      decreases MaxIters + 1 - it
    {
      var draft := AgentsAmend(composed);
      var issues := Issues(draft);
      final, rounds, status := draft, it, Status(issues, it);
      it := it + 1;
    }
  }
}
