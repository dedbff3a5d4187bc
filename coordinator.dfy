/**
 * sop_generator/agents/coordinator.py: `_extract_clean_sop_content`, which drops agent
 * conversation artifacts, repeated headers and runs of blank lines from a generated text,
 * and the control flow of its `iterative_generate_until_approved`, with every agent an
 * oracle whose call either raises or returns the texts of its messages.
 */
module Coordinator {
  import opened Text

  // ---------------------------------------------------------------------------------
  // _extract_clean_sop_content
  // ---------------------------------------------------------------------------------

  /** Lower-cased phrases that mark a line as agent conversation rather than SOP text. */
  const ArtifactKeywords: seq<string> := [
    "summary:", "issues:", "status:", "проблемы и предложения",
    "дополнительные рекомендации:", "критик:", "безопасность:",
    "контроль качества:", "стилизация:", "генератор:",
    "сгенерируй соп", "разделы и режимы", "требования:",
    "учти критику", "оцени документ", "текст:", "замечания качества:",
    "создай профессиональный", "обязательные требования", "структура документа"]

  /** A line whose lower-cased, stripped text contains an artifact phrase. */
  predicate IsArtifact(line: string, keys: seq<string>) {
    ContainsAny(Strip(Lower(line)), keys)
  }

  /** A header: a stripped line starting with '#', or wrapped in "**" and longer than 4. */
  predicate IsHeaderLine(line: string) {
    var t := Strip(line);
    StartsWith(t, "#") || (StartsWith(t, "**") && EndsWith(t, "**") && |t| > 4)
  }

  /** The text a header is compared by: stripped, then lower-cased. */
  function HeaderKey(line: string): string {
    Lower(Strip(line))
  }

  /** The variables of the filtering loop: the skip flag, the headers seen and the lines
      kept. */
  datatype CleanState = CleanState(skip: bool, seen: set<string>, kept: seq<string>)

  const CleanStart: CleanState := CleanState(false, {}, [])

  /** One line through the filter. An artifact line turns skipping on and is dropped. A
      header turns skipping off, unless it was seen before, in which case it turns skipping
      on and is dropped. Any other line is kept exactly when skipping is off. */
  function CleanStep(st: CleanState, line: string, keys: seq<string>): CleanState {
    if IsArtifact(line, keys) then CleanState(true, st.seen, st.kept)
    else if IsHeaderLine(line) && HeaderKey(line) in st.seen then CleanState(true, st.seen, st.kept)
    else
      var skip := if IsHeaderLine(line) then false else st.skip;
      var seen := if IsHeaderLine(line) then st.seen + {HeaderKey(line)} else st.seen;
      CleanState(skip, seen, if skip then st.kept else st.kept + [line])
  }

  /** A step of a line filter. */
  type LineStep = (CleanState, string) -> CleanState

  /** The step of the filter for the given artifact keys. */
  function StepFor(keys: seq<string>): LineStep {
    (st: CleanState, line: string) => CleanStep(st, line, keys)
  }

  /** The variables of a line filter after the first `n` lines, from `st`. */
  function Fold(step: LineStep, st: CleanState, lines: seq<string>, n: nat): CleanState
    requires n <= |lines|
  {
    if n == 0 then st else step(Fold(step, st, lines, n - 1), lines[n - 1])
  }

  /** The filter's variables after the first `n` lines, from `st`. */
  function CleanFrom(st: CleanState, lines: seq<string>, n: nat, keys: seq<string>): CleanState
    requires n <= |lines|
  {
    Fold(StepFor(keys), st, lines, n)
  }

  /** The filtering loop of `_extract_clean_sop_content`. */
  method FilterLines(lines: seq<string>, keys: seq<string>) returns (clean: seq<string>)
    ensures clean == CleanFrom(CleanStart, lines, |lines|, keys).kept
  {
    clean := [];
    var skip := false;
    var seen: set<string> := {};
    for i := 0 to |lines|
      invariant CleanState(skip, seen, clean) == CleanFrom(CleanStart, lines, i, keys)
    {
      var line := lines[i];
      var lineLower := Strip(Lower(line));
      if ContainsAny(lineLower, keys) {
        skip := true;
        continue;
      }
      var stripped := Strip(line);
      if StartsWith(stripped, "#") || (StartsWith(stripped, "**") && EndsWith(stripped, "**") && |stripped| > 4) {
        skip := false;
        var headerText := Lower(stripped);
        if headerText in seen {
          skip := true;
          continue;
        }
        seen := seen + {headerText};
      }
      if skip && Strip(line) == "" {
        continue;
      }
      if !skip {
        clean := clean + [line];
      }
    }
  }

  /** The variables of the blank-run loop: the lines kept and whether the last was blank. */
  datatype CollapseState = CollapseState(out: seq<string>, prevEmpty: bool)

  /** The blank-run loop after the first `n` lines: a blank line right after a blank line
      is dropped, every other line kept. */
  function Collapsed(lines: seq<string>, n: nat): CollapseState
    requires n <= |lines|
  {
    if n == 0 then CollapseState([], false)
    else
      var st := Collapsed(lines, n - 1);
      var isEmpty := Strip(lines[n - 1]) == "";
      if isEmpty && st.prevEmpty then st else CollapseState(st.out + [lines[n - 1]], isEmpty)
  }

  /** The blank-run loop of `_extract_clean_sop_content`. */
  method CollapseBlankRuns(lines: seq<string>) returns (finalLines: seq<string>)
    ensures finalLines == Collapsed(lines, |lines|).out
  {
    finalLines := [];
    var prevEmpty := false;
    for i := 0 to |lines|
      invariant CollapseState(finalLines, prevEmpty) == Collapsed(lines, i)
    {
      var line := lines[i];
      var isEmpty := Strip(line) == "";
      if isEmpty && prevEmpty {
        continue;
      }
      finalLines := finalLines + [line];
      prevEmpty := isEmpty;
    }
  }

  /** The cleaned text of a raw generation, with `keys` as the artifact phrases. */
  function CleanText(raw: string, keys: seq<string>): string {
    var lines := Split(raw, "\n");
    var clean := CleanFrom(CleanStart, lines, |lines|, keys).kept;
    Strip(Join(Collapsed(clean, |clean|).out, "\n"))
  }

  /** The cleaned text of a raw generation. */
  function CleanSopContent(raw: string): string {
    CleanText(raw, ArtifactKeywords)
  }

  /** `_extract_clean_sop_content` (sop_generator/agents/coordinator.py:91-144), with the
      artifact phrases as a parameter. */
  method ExtractCleanText(raw: string, keys: seq<string>) returns (content: string)
    ensures content == CleanText(raw, keys)
  {
    var lines := Split(raw, "\n");
    var clean := FilterLines(lines, keys);
    var finalLines := CollapseBlankRuns(clean);
    content := Strip(Join(finalLines, "\n"));
  }

  /** `_extract_clean_sop_content` (sop_generator/agents/coordinator.py:91-144). */
  method ExtractCleanSopContent(raw: string) returns (content: string)
    ensures content == CleanSopContent(raw)
  {
    content := ExtractCleanText(raw, ArtifactKeywords);
  }

  /** One step keeps or drops its line, keeps only a line that is not an artifact, keeps a
      header only when it was not seen before, and records every header it keeps. */
  lemma CleanStepKept(st: CleanState, line: string, keys: seq<string>)
    ensures st.seen <= CleanStep(st, line, keys).seen
    ensures CleanStep(st, line, keys).kept == st.kept || CleanStep(st, line, keys).kept == st.kept + [line]
    ensures CleanStep(st, line, keys).kept != st.kept ==> !IsArtifact(line, keys)
    ensures CleanStep(st, line, keys).kept != st.kept && IsHeaderLine(line) ==>
      HeaderKey(line) !in st.seen && HeaderKey(line) in CleanStep(st, line, keys).seen
  {
  }

  /** The kept lines are input lines, in input order. */
  lemma {:induction false} CleanKeptSubseq(st: CleanState, lines: seq<string>, n: nat, keys: seq<string>)
    requires n <= |lines|
    ensures IsSubseq(CleanFrom(st, lines, n, keys).kept, st.kept + lines[..n])
  {
    if n == 0 {
      assert st.kept + lines[..0] == st.kept;
      IsSubseqRefl(st.kept);
    } else {
      CleanKeptSubseq(st, lines, n - 1, keys);
      CleanFromStep(st, lines, n, keys);
      PrefixSnoc(st.kept, lines, n);
      CleanStepSubseq(CleanFrom(st, lines, n - 1, keys), lines[n - 1], keys, st.kept + lines[..n - 1]);
    }
  }

  /** The first `n` lines are the first `n - 1` lines followed by one step. */
  lemma CleanFromStep(st: CleanState, lines: seq<string>, n: nat, keys: seq<string>)
    requires 0 < n <= |lines|
    ensures CleanFrom(st, lines, n, keys) == CleanStep(CleanFrom(st, lines, n - 1, keys), lines[n - 1], keys)
  {
  }

  lemma PrefixSnoc(a: seq<string>, lines: seq<string>, n: nat)
    requires 0 < n <= |lines|
    ensures a + lines[..n] == (a + lines[..n - 1]) + [lines[n - 1]]
  {
    assert lines[..n] == lines[..n - 1] + [lines[n - 1]];
  }

  /** One step keeps the kept lines a subsequence of the lines seen so far. */
  lemma CleanStepSubseq(p: CleanState, line: string, keys: seq<string>, prefix: seq<string>)
    requires IsSubseq(p.kept, prefix)
    ensures IsSubseq(CleanStep(p, line, keys).kept, prefix + [line])
  {
    CleanStepKept(p, line, keys);
    if CleanStep(p, line, keys).kept == p.kept {
      SubseqAppendRight(p.kept, prefix, line);
    } else {
      SubseqAppendBoth(p.kept, prefix, line);
    }
  }

  /** No line of `kept` is an artifact line. */
  predicate NoArtifacts(kept: seq<string>, keys: seq<string>) {
    forall k :: 0 <= k < |kept| ==> !IsArtifact(kept[k], keys)
  }

  /** No kept line is an artifact line. */
  lemma {:induction false} CleanNoArtifact(st: CleanState, lines: seq<string>, n: nat, keys: seq<string>)
    requires n <= |lines|
    requires NoArtifacts(st.kept, keys)
    ensures NoArtifacts(CleanFrom(st, lines, n, keys).kept, keys)
  {
    if n > 0 {
      CleanNoArtifact(st, lines, n - 1, keys);
      var p := CleanFrom(st, lines, n - 1, keys);
      CleanFromStep(st, lines, n, keys);
      CleanStepNoArtifact(p, lines[n - 1], keys);
      var q := CleanFrom(st, lines, n, keys);
      assert q == CleanStep(p, lines[n - 1], keys);
    }
  }

  lemma CleanStepNoArtifact(p: CleanState, line: string, keys: seq<string>)
    requires NoArtifacts(p.kept, keys)
    ensures NoArtifacts(CleanStep(p, line, keys).kept, keys)
  {
    var q := CleanStep(p, line, keys);
    CleanStepKept(p, line, keys);
    NoArtifactsExtend(p.kept, q.kept, line, keys);
  }

  lemma NoArtifactsExtend(p: seq<string>, q: seq<string>, line: string, keys: seq<string>)
    requires NoArtifacts(p, keys)
    requires q == p || (q == p + [line] && !IsArtifact(line, keys))
    ensures NoArtifacts(q, keys)
  {
  }

  /** The headers among `kept` are all in `seen`, each under a different text. */
  predicate HeadersRecorded(kept: seq<string>, seen: set<string>) {
    && (forall k :: 0 <= k < |kept| && IsHeaderLine(kept[k]) ==> HeaderKey(kept[k]) in seen)
    && (forall i, j :: 0 <= i < j < |kept| && IsHeaderLine(kept[i]) && IsHeaderLine(kept[j]) ==>
          HeaderKey(kept[i]) != HeaderKey(kept[j]))
  }

  /** Every kept header is recorded as seen, and no two kept headers have the same text:
      a repeated section header never reaches the output. */
  lemma {:induction false} CleanHeadersOnce(st: CleanState, lines: seq<string>, n: nat, keys: seq<string>)
    requires n <= |lines|
    requires HeadersRecorded(st.kept, st.seen)
    ensures HeadersRecorded(CleanFrom(st, lines, n, keys).kept, CleanFrom(st, lines, n, keys).seen)
  {
    if n > 0 {
      CleanHeadersOnce(st, lines, n - 1, keys);
      var p := CleanFrom(st, lines, n - 1, keys);
      CleanFromStep(st, lines, n, keys);
      CleanStepRecorded(p, lines[n - 1], keys);
      var q := CleanFrom(st, lines, n, keys);
      assert q == CleanStep(p, lines[n - 1], keys);
    }
  }

  lemma CleanStepRecorded(p: CleanState, line: string, keys: seq<string>)
    requires HeadersRecorded(p.kept, p.seen)
    ensures HeadersRecorded(CleanStep(p, line, keys).kept, CleanStep(p, line, keys).seen)
  {
    var q := CleanStep(p, line, keys);
    CleanStepKept(p, line, keys);
    RecordedExtend(p, q, line);
  }

  lemma RecordedExtend(p: CleanState, q: CleanState, line: string)
    requires HeadersRecorded(p.kept, p.seen)
    requires p.seen <= q.seen
    requires q.kept == p.kept || q.kept == p.kept + [line]
    requires q.kept != p.kept && IsHeaderLine(line) ==> HeaderKey(line) !in p.seen && HeaderKey(line) in q.seen
    ensures HeadersRecorded(q.kept, q.seen)
  {
  }

  /** A header seen before switches skipping on and is itself dropped. */
  lemma RepeatedHeaderDropped(st: CleanState, line: string, keys: seq<string>)
    requires !IsArtifact(line, keys) && IsHeaderLine(line) && HeaderKey(line) in st.seen
    ensures CleanStep(st, line, keys) == CleanState(true, st.seen, st.kept)
  {
  }

  /** An artifact line switches skipping on and is itself dropped. */
  lemma ArtifactDropped(st: CleanState, line: string, keys: seq<string>)
    requires IsArtifact(line, keys)
    ensures CleanStep(st, line, keys) == CleanState(true, st.seen, st.kept)
  {
  }

  /** A header seen for the first time that is not an artifact is kept, switches skipping
      off and is recorded. */
  lemma NewHeaderKept(st: CleanState, line: string, keys: seq<string>)
    requires !IsArtifact(line, keys) && IsHeaderLine(line) && HeaderKey(line) !in st.seen
    ensures CleanStep(st, line, keys) == CleanState(false, st.seen + {HeaderKey(line)}, st.kept + [line])
  {
  }

  /** A line that is neither an artifact nor a header leaves the flag and the headers as
      they are, and is kept exactly when skipping is off. */
  lemma BodyLineStep(st: CleanState, line: string, keys: seq<string>)
    requires !IsArtifact(line, keys) && !IsHeaderLine(line)
    ensures CleanStep(st, line, keys) == CleanState(st.skip, st.seen, if st.skip then st.kept else st.kept + [line])
  {
  }

  /** While skipping, a line that is not a header is dropped and skipping stays on. */
  lemma SkippedLine(st: CleanState, line: string, keys: seq<string>)
    requires st.skip && !IsHeaderLine(line)
    ensures CleanStep(st, line, keys) == st
  {
  }

  /** While skipping, lines up to the next header are dropped. */
  lemma {:induction false} SkippedUntilHeader(st: CleanState, lines: seq<string>, n: nat, keys: seq<string>)
    requires n <= |lines| && st.skip
    requires forall k :: 0 <= k < n ==> !IsHeaderLine(lines[k])
    ensures CleanFrom(st, lines, n, keys).kept == st.kept && CleanFrom(st, lines, n, keys).skip
  {
    if n > 0 {
      SkippedUntilHeader(st, lines, n - 1, keys);
      assert !IsHeaderLine(lines[n - 1]);
      CleanFromStep(st, lines, n, keys);
      SkippedLine(CleanFrom(st, lines, n - 1, keys), lines[n - 1], keys);
    }
  }

  /** While not skipping, lines up to the next header or artifact are all kept. */
  lemma KeptUntilHeader(st: CleanState, lines: seq<string>, n: nat, keys: seq<string>)
    requires n <= |lines| && !st.skip
    requires forall k :: 0 <= k < n ==> !IsHeaderLine(lines[k]) && !IsArtifact(lines[k], keys)
    ensures CleanFrom(st, lines, n, keys).kept == st.kept + lines[..n] && !CleanFrom(st, lines, n, keys).skip
  {
    forall k | 0 <= k < n ensures KeepsLine(StepFor(keys), lines[k]) {
      forall s: CleanState | !s.skip
        ensures StepFor(keys)(s, lines[k]) == CleanState(false, s.seen, s.kept + [lines[k]])
      {
        BodyLineStep(s, lines[k], keys);
      }
    }
    KeptWhileBody(StepFor(keys), st, lines, n);
  }

  /** A step keeps the line, and leaves skipping off, whenever skipping is off. */
  ghost predicate KeepsLine(step: LineStep, line: string) {
    forall s: CleanState {:trigger step(s, line)} :: !s.skip ==> step(s, line) == CleanState(false, s.seen, s.kept + [line])
  }

  /** A filter that keeps every line while not skipping keeps a run of such lines. */
  lemma {:induction false} KeptWhileBody(step: LineStep, st: CleanState, lines: seq<string>, n: nat)
    requires n <= |lines| && !st.skip
    requires forall k :: 0 <= k < n ==> KeepsLine(step, lines[k])
    ensures Fold(step, st, lines, n).kept == st.kept + lines[..n] && !Fold(step, st, lines, n).skip
  {
    if n > 0 {
      KeptWhileBody(step, st, lines, n - 1);
      var prev := Fold(step, st, lines, n - 1);
      assert KeepsLine(step, lines[n - 1]);
      assert step(prev, lines[n - 1]) == CleanState(false, prev.seen, prev.kept + [lines[n - 1]]);
      assert lines[..n] == lines[..n - 1] + [lines[n - 1]];
    } else {
      assert st.kept + lines[..0] == st.kept;
    }
  }

  /** The blank-run loop keeps input lines in order, remembers whether the last kept line
      is blank, and never keeps two blank lines in a row. */
  lemma {:induction false} CollapsedSpec(lines: seq<string>, n: nat)
    requires n <= |lines|
    ensures IsSubseq(Collapsed(lines, n).out, lines[..n])
    ensures Collapsed(lines, n).prevEmpty <==>
      |Collapsed(lines, n).out| > 0 && Strip(Collapsed(lines, n).out[|Collapsed(lines, n).out| - 1]) == ""
    ensures forall k :: 0 <= k < |Collapsed(lines, n).out| - 1 ==>
      !(Strip(Collapsed(lines, n).out[k]) == "" && Strip(Collapsed(lines, n).out[k + 1]) == "")
  {
    if n > 0 {
      CollapsedSpec(lines, n - 1);
      var p := Collapsed(lines, n - 1);
      assert lines[..n] == lines[..n - 1] + [lines[n - 1]];
      if Strip(lines[n - 1]) == "" && p.prevEmpty {
        SubseqAppendRight(p.out, lines[..n - 1], lines[n - 1]);
      } else {
        SubseqAppendBoth(p.out, lines[..n - 1], lines[n - 1]);
      }
    } else {
      assert lines[..0] == [];
    }
  }

  /** The lines of a text that are not blank. */
  function NonBlankLines(lines: seq<string>): seq<string> {
    if |lines| == 0 then []
    else NonBlankLines(lines[..|lines| - 1]) + (if Strip(lines[|lines| - 1]) == "" then [] else [lines[|lines| - 1]])
  }

  /** The blank-run loop drops blank lines only. */
  lemma {:induction false} CollapsedKeepsText(lines: seq<string>, n: nat)
    requires n <= |lines|
    ensures NonBlankLines(Collapsed(lines, n).out) == NonBlankLines(lines[..n])
  {
    if n > 0 {
      CollapsedKeepsText(lines, n - 1);
      var p := Collapsed(lines, n - 1);
      assert lines[..n][..n - 1] == lines[..n - 1];
      if !(Strip(lines[n - 1]) == "" && p.prevEmpty) {
        assert (p.out + [lines[n - 1]])[..|p.out|] == p.out;
      }
    }
  }

  /** The cleaned text has no surrounding whitespace. */
  lemma CleanSopContentStripped(raw: string)
    ensures Strip(CleanSopContent(raw)) == CleanSopContent(raw)
  {
    var lines := Split(raw, "\n");
    var clean := CleanFrom(CleanStart, lines, |lines|, ArtifactKeywords).kept;
    assert CleanSopContent(raw) == Strip(Join(Collapsed(clean, |clean|).out, "\n"));
    StripIdempotent(Join(Collapsed(clean, |clean|).out, "\n"));
  }

  /** The lines `_extract_clean_sop_content` joins into its result. */
  function CleanedLines(raw: string): seq<string> {
    var lines := Split(raw, "\n");
    var clean := CleanFrom(CleanStart, lines, |lines|, ArtifactKeywords).kept;
    Collapsed(clean, |clean|).out
  }

  /** The cleaned text is its cleaned lines, joined and stripped. Those lines are input
      lines in input order, none of them an artifact line, no two blank lines in a row, and
      between them they hold every non-blank line the filter kept. */
  lemma {:induction false} CleanedLinesSpec(raw: string)
    ensures CleanSopContent(raw) == Strip(Join(CleanedLines(raw), "\n"))
    ensures IsSubseq(CleanedLines(raw), Split(raw, "\n"))
    ensures NoArtifacts(CleanedLines(raw), ArtifactKeywords)
    ensures forall k :: 0 <= k < |CleanedLines(raw)| - 1 ==>
      !(Strip(CleanedLines(raw)[k]) == "" && Strip(CleanedLines(raw)[k + 1]) == "")
  {
    var lines := Split(raw, "\n");
    var clean := CleanFrom(CleanStart, lines, |lines|, ArtifactKeywords).kept;
    var out := Collapsed(clean, |clean|).out;
    CleanKeptSubseq(CleanStart, lines, |lines|, ArtifactKeywords);
    assert CleanStart.kept + lines[..|lines|] == lines;
    CollapsedSpec(clean, |clean|);
    assert clean[..|clean|] == clean;
    SubseqTrans(out, clean, lines);
    CleanNoArtifact(CleanStart, lines, |lines|, ArtifactKeywords);
    NoArtifactsSubseq(out, clean, ArtifactKeywords);
  }

  /** A subsequence of lines without artifacts has none either. */
  lemma NoArtifactsSubseq(out: seq<string>, clean: seq<string>, keys: seq<string>)
    requires IsSubseq(out, clean) && NoArtifacts(clean, keys)
    ensures NoArtifacts(out, keys)
  {
    SubseqMembers(out, clean);
    forall i | 0 <= i < |out|
      ensures !IsArtifact(out[i], keys)
    {
      var j :| 0 <= j < |clean| && clean[j] == out[i];
    }
  }

  // ---------------------------------------------------------------------------------
  // iterative_generate_until_approved
  // ---------------------------------------------------------------------------------

  /** What an agent call gives back: it timed out (the exception that ends the loop), or
      the texts of its messages. */
  datatype Reply = Failed | Replied(texts: seq<string>)

  /** What the loop uses of the structural validation of a text: whether it is production
      ready, and the feedback block built from its findings. */
  datatype Validation = Validation(ready: bool, feedback: string)

  /** The agents, each an oracle: the generator is given the critic's feedback (through the
      instruction builder), the safety and quality agents and the validator the cleaned
      text, the critic the cleaned text with the three reviews, the styler the cleaned
      text. */
  datatype CoordAgents = CoordAgents(
    generate: string -> Reply,
    safety: string -> Reply,
    quality: string -> Reply,
    validate: string -> Validation,
    critic: (string, string, string, string) -> Reply,
    styler: string -> Reply)

  /** The texts of an agent's messages, joined by blank lines. */
  function Joined(texts: seq<string>): string {
    Join(texts, "\n\n")
  }

  /** `any("STATUS:" in t and "APPROVED" in t for t in critic_texts)`. */
  predicate StatusApproved(texts: seq<string>) {
    exists i :: 0 <= i < |texts| && Contains(texts[i], "STATUS:") && Contains(texts[i], "APPROVED")
  }

  const ValidationHeading: string := "\n\nСТРУКТУРНАЯ ВАЛИДАЦИЯ: REVISE\n"

  /** How one iteration ends: an agent failed (the loop stops), the critic asked for a
      revision (the loop goes on), or the draft was approved and styled. Each carries the
      content and the feedback the loop holds afterwards. */
  datatype TurnResult =
    | Halted(content: string, feedback: string)
    | Revise(content: string, feedback: string)
    | Finished(content: string, feedback: string)

  /** The final text on the approved path: the styler's output, cleaned, or the cleaned
      draft when the styler fails or returns nothing. */
  function StyledContent(a: CoordAgents, clean: string, cleanup: string -> string): string {
    match a.styler(clean)
    case Failed => clean
    case Replied(texts) => if Joined(texts) != "" then cleanup(Joined(texts)) else clean
  }

  /** One iteration from the content and feedback the loop holds. */
  function Turn(a: CoordAgents, content: string, feedback: string, cleanup: string -> string): TurnResult {
    match a.generate(feedback)
    case Failed => Halted(content, feedback)
    case Replied(generated) =>
      var clean := cleanup(Joined(generated));
      match a.safety(clean)
      case Failed => Halted(clean, feedback)
      case Replied(safetyTexts) =>
        match a.quality(clean)
        case Failed => Halted(clean, feedback)
        case Replied(qualityTexts) =>
          var v := a.validate(clean);
          var validationFeedback := if v.ready then "" else v.feedback;
          match a.critic(clean, Joined(safetyTexts), Joined(qualityTexts), validationFeedback)
          case Failed => Halted(clean, feedback)
          case Replied(criticTexts) =>
            var fb := if v.ready then Joined(criticTexts) else Joined(criticTexts) + ValidationHeading + validationFeedback;
            if v.ready && StatusApproved(criticTexts) then Finished(StyledContent(a, clean, cleanup), fb)
            else Revise(clean, fb)
  }

  /** The dict the loop returns. Its "logs" list is created empty and never appended to:
      progress goes to the logger callback only. */
  datatype CoordResult = CoordResult(content: string, approved: bool, feedback: string, logs: seq<string>)

  /** The loop with `remaining` iterations left. */
  function Steps(a: CoordAgents, remaining: nat, content: string, feedback: string, cleanup: string -> string): CoordResult
    decreases remaining
  {
    if remaining == 0 then CoordResult(content, false, feedback, [])
    else match Turn(a, content, feedback, cleanup)
      case Halted(c, f) => CoordResult(c, false, f, [])
      case Finished(c, f) => CoordResult(c, true, f, [])
      case Revise(c, f) => Steps(a, remaining - 1, c, f, cleanup)
  }

  /** An iteration that stops ends the loop; a revision goes on with one fewer left. */
  lemma StepsOnTurn(a: CoordAgents, remaining: nat, content: string, feedback: string, cleanup: string -> string, t: TurnResult)
    requires remaining > 0 && t == Turn(a, content, feedback, cleanup)
    ensures !t.Revise? ==> Steps(a, remaining, content, feedback, cleanup) == CoordResult(t.content, t.Finished?, t.feedback, [])
    ensures t.Revise? ==> Steps(a, remaining, content, feedback, cleanup) == Steps(a, remaining - 1, t.content, t.feedback, cleanup)
  {
  }

  /** `range(1, max_iters + 1)` has `max_iters` iterations, none when it is below 1. */
  function IterCount(maxIters: int): nat {
    if maxIters > 0 then maxIters else 0
  }

  /** What the loop returns. */
  function CoordOutcome(a: CoordAgents, maxIters: int): CoordResult {
    Steps(a, IterCount(maxIters), "", "", CleanSopContent)
  }

  /** One pass of the loop body of `iterative_generate_until_approved`
      (sop_generator/agents/coordinator.py:167-278): every `except ...: break` becomes
      `Halted`, the approved path `Finished`, the fall-through `Revise`. */
  method RunIteration(a: CoordAgents, content: string, feedback: string, cleanup: string -> string) returns (t: TurnResult)
    ensures t == Turn(a, content, feedback, cleanup)
  {
    var genReply := a.generate(feedback);
    if genReply.Failed? {
      return Halted(content, feedback);
    }
    var cleanSopContent := cleanup(Joined(genReply.texts));
    var safetyReply := a.safety(cleanSopContent);
    if safetyReply.Failed? {
      return Halted(cleanSopContent, feedback);
    }
    var safetyFeedback := Joined(safetyReply.texts);
    var qualityReply := a.quality(cleanSopContent);
    if qualityReply.Failed? {
      return Halted(cleanSopContent, feedback);
    }
    var qualityFeedback := Joined(qualityReply.texts);
    var validation := a.validate(cleanSopContent);
    var validationFeedback := "";
    if !validation.ready {
      validationFeedback := validation.feedback;
    }
    var criticReply := a.critic(cleanSopContent, safetyFeedback, qualityFeedback, validationFeedback);
    if criticReply.Failed? {
      return Halted(cleanSopContent, feedback);
    }
    var criticTexts := criticReply.texts;
    var newFeedback := Joined(criticTexts);
    var statusApproved := StatusApproved(criticTexts);
    if !validation.ready {
      statusApproved := false;
      newFeedback := newFeedback + ValidationHeading + validationFeedback;
    }
    if statusApproved {
      var finalContent;
      var styledReply := a.styler(cleanSopContent);
      if styledReply.Failed? {
        finalContent := cleanSopContent;
      } else {
        var styledText := Joined(styledReply.texts);
        if styledText != "" {
          finalContent := cleanup(styledText);
        } else {
          finalContent := cleanSopContent;
        }
      }
      return Finished(finalContent, newFeedback);
    }
    return Revise(cleanSopContent, newFeedback);
  }

  /** The loop of `iterative_generate_until_approved`
      (sop_generator/agents/coordinator.py:156-280), for any cleaning of the generated
      text. */
  method GenerateUntilApproved(a: CoordAgents, maxIters: int, cleanup: string -> string) returns (r: CoordResult)
    ensures r == Steps(a, IterCount(maxIters), "", "", cleanup)
  {
    var logs: seq<string> := [];
    var cleanSopContent := "";
    var feedback := "";
    var iteration := 1;
    while iteration <= maxIters
      invariant 1 <= iteration <= IterCount(maxIters) + 1
      invariant logs == []
      invariant Steps(a, IterCount(maxIters) - (iteration - 1), cleanSopContent, feedback, cleanup)
        == Steps(a, IterCount(maxIters), "", "", cleanup)
      decreases maxIters - iteration
    {
      ghost var remaining := IterCount(maxIters) - (iteration - 1);
      var t := RunIteration(a, cleanSopContent, feedback, cleanup);
      StepsOnTurn(a, remaining, cleanSopContent, feedback, cleanup, t);
      if !t.Revise? {
        // an agent failure is the source's `break`, which leads straight to its final return
        return CoordResult(t.content, t.Finished?, t.feedback, logs);
      }
      cleanSopContent, feedback := t.content, t.feedback;
      iteration := iteration + 1;
      assert IterCount(maxIters) - (iteration - 1) == remaining - 1;
    }
    assert IterCount(maxIters) - (iteration - 1) == 0;
    r := CoordResult(cleanSopContent, false, feedback, logs);
  }

  /** `iterative_generate_until_approved` (sop_generator/agents/coordinator.py:145-280). */
  method IterativeGenerateUntilApproved(a: CoordAgents, maxIters: int) returns (r: CoordResult)
    ensures r == CoordOutcome(a, maxIters)
  {
    r := GenerateUntilApproved(a, maxIters, CleanSopContent);
  }

  /** An iteration is approved exactly when every agent replied, the structural validation
      found the draft production ready and some critic message holds both "STATUS:" and
      "APPROVED"; the approved text is the styled draft, or the cleaned draft when the
      styler fails or returns nothing. */
  lemma TurnFinishedIff(a: CoordAgents, content: string, feedback: string, cleanup: string -> string)
    ensures var t := Turn(a, content, feedback, cleanup);
      t.Finished? <==>
        (&& a.generate(feedback).Replied?
         && var clean := cleanup(Joined(a.generate(feedback).texts));
         && a.safety(clean).Replied? && a.quality(clean).Replied?
         && var v := a.validate(clean);
         && var critique := a.critic(clean, Joined(a.safety(clean).texts), Joined(a.quality(clean).texts), "");
         && v.ready && critique.Replied? && StatusApproved(critique.texts))
    ensures var t := Turn(a, content, feedback, cleanup);
      t.Finished? ==>
        var clean := cleanup(Joined(a.generate(feedback).texts));
        && (a.styler(clean).Failed? ==> t.content == clean)
        && (a.styler(clean).Replied? && Joined(a.styler(clean).texts) == "" ==> t.content == clean)
        && (a.styler(clean).Replied? && Joined(a.styler(clean).texts) != "" ==>
              t.content == cleanup(Joined(a.styler(clean).texts)))
  {
  }

  /** A draft that fails the structural validation is never approved: the critic is shown
      the validation feedback, and the feedback carried on is the critic's messages followed
      by the "СТРУКТУРНАЯ ВАЛИДАЦИЯ: REVISE" block. */
  lemma TurnValidationOverride(a: CoordAgents, content: string, feedback: string, cleanup: string -> string)
    requires a.generate(feedback).Replied?
    requires var clean := cleanup(Joined(a.generate(feedback).texts));
      a.safety(clean).Replied? && a.quality(clean).Replied? && !a.validate(clean).ready
    ensures var clean := cleanup(Joined(a.generate(feedback).texts));
      var v := a.validate(clean);
      var critique := a.critic(clean, Joined(a.safety(clean).texts), Joined(a.quality(clean).texts), v.feedback);
      var t := Turn(a, content, feedback, cleanup);
      && !t.Finished?
      && (critique.Replied? ==> t == Revise(clean, Joined(critique.texts) + ValidationHeading + v.feedback))
  {
  }

  /** An iteration stops early exactly when an agent fails. The feedback is then left as
      it was, and so is the content when the generator failed; after that the content is the
      new cleaned draft. */
  lemma TurnHalted(a: CoordAgents, content: string, feedback: string, cleanup: string -> string)
    ensures var t := Turn(a, content, feedback, cleanup);
      a.generate(feedback).Failed? ==> t == Halted(content, feedback)
    ensures var t := Turn(a, content, feedback, cleanup);
      t.Halted? && a.generate(feedback).Replied? ==>
        t == Halted(cleanup(Joined(a.generate(feedback).texts)), feedback)
    ensures var t := Turn(a, content, feedback, cleanup);
      !t.Halted? ==>
        && a.generate(feedback).Replied?
        && var clean := cleanup(Joined(a.generate(feedback).texts));
        && a.safety(clean).Replied? && a.quality(clean).Replied?
        && (t.Revise? ==> t.content == clean)
  {
  }

  /** The results of the iterations the loop runs with `remaining` left: it goes on while
      the critic asks for revisions. */
  function Turns(a: CoordAgents, remaining: nat, content: string, feedback: string, cleanup: string -> string): seq<TurnResult>
    decreases remaining
  {
    if remaining == 0 then []
    else
      var t := Turn(a, content, feedback, cleanup);
      if t.Revise? then [t] + Turns(a, remaining - 1, t.content, t.feedback, cleanup) else [t]
  }

  /** The loop runs at most `remaining` iterations, each from the content and feedback the
      one before left; every iteration but the last asked for a revision, and the loop runs
      short only when its last iteration stopped or was approved. */
  lemma {:induction false} TurnsSpec(a: CoordAgents, remaining: nat, content: string, feedback: string, cleanup: string -> string)
    ensures var ts := Turns(a, remaining, content, feedback, cleanup);
      && |ts| <= remaining
      && (remaining > 0 ==> |ts| > 0 && ts[0] == Turn(a, content, feedback, cleanup))
      && (forall i :: 0 <= i < |ts| - 1 ==> ts[i].Revise?)
      && (forall i :: 0 <= i < |ts| - 1 ==> ts[i + 1] == Turn(a, ts[i].content, ts[i].feedback, cleanup))
      && (|ts| < remaining ==> !ts[|ts| - 1].Revise?)
    decreases remaining
  {
    if remaining > 0 {
      var t := Turn(a, content, feedback, cleanup);
      if t.Revise? {
        TurnsSpec(a, remaining - 1, t.content, t.feedback, cleanup);
        var rest := Turns(a, remaining - 1, t.content, t.feedback, cleanup);
        var ts := [t] + rest;
        assert forall i :: 1 <= i < |ts| ==> ts[i] == rest[i - 1];
      }
    }
  }

  /** The loop's result is read off its last iteration: approved exactly when that one was,
      with its content and feedback (the initial ones when no iteration ran), and no logs. */
  lemma {:induction false} StepsResult(a: CoordAgents, remaining: nat, content: string, feedback: string, cleanup: string -> string)
    ensures var ts := Turns(a, remaining, content, feedback, cleanup);
      var r := Steps(a, remaining, content, feedback, cleanup);
      && r.logs == []
      && (r.approved <==> |ts| > 0 && ts[|ts| - 1].Finished?)
      && r.content == (if |ts| == 0 then content else ts[|ts| - 1].content)
      && r.feedback == (if |ts| == 0 then feedback else ts[|ts| - 1].feedback)
    decreases remaining
  {
    if remaining > 0 {
      var t := Turn(a, content, feedback, cleanup);
      if t.Revise? {
        StepsResult(a, remaining - 1, t.content, t.feedback, cleanup);
        var rest := Turns(a, remaining - 1, t.content, t.feedback, cleanup);
        if |rest| > 0 {
          assert ([t] + rest)[|rest|] == rest[|rest| - 1];
        }
      }
    }
  }

  /** With `max_iters` below 1 no iteration runs: the loop returns empty content and
      feedback, unapproved. */
  lemma NoIterations(a: CoordAgents, maxIters: int)
    requires maxIters < 1
    ensures CoordOutcome(a, maxIters) == CoordResult("", false, "", [])
  {
  }
}
