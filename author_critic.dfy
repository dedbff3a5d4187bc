/**
 * agents.py: the Author/Critic loop. `_clip_text` bounds the texts put into prompts,
 * `_sanitize_output` strips echoed instructions and critic preambles from the author's
 * reply, and `run_author_critic_loop` alternates author and critic until the critic's
 * verdict contains "готово" or the iterations run out. The two agents are oracles: total
 * functions from a prompt to the contents of the messages they answer with (an agent that
 * fails answers with one "Error: ..." message, as `_run` does).
 */
module AuthorCritic {
  import opened Text
  import opened Wrappers

  // ---------------------------------------------------------------------------------
  // _clip_text and the prompt limits
  // ---------------------------------------------------------------------------------

  /** The default character limits of the prompts (each can be overridden from the
      environment, which the model leaves out). */
  const MaxDocsSummaryChars: int := 40000
  const MaxStructureHintChars: int := 8000
  const MaxSectionsTextChars: int := 2000
  const MaxSopTextForCriticChars: int := 60000
  const MaxPreviousTextChars: int := 60000
  const MaxCriticFeedbackChars: int := 8000

  /** `_clip_text`: `None` stays `None`, a text within the limit is kept, a longer one is
      cut to its first `maxChars` characters (Python's `text[:max_chars]`). */
  function ClipText(text: Option<string>, maxChars: int): (r: Option<string>)
    ensures r.None? <==> text.None?
    ensures text.Some? ==> StartsWith(text.value, r.value)
    ensures text.Some? && |text.value| <= maxChars ==> r.value == text.value
    ensures text.Some? && |text.value| > maxChars >= 0 ==> |r.value| == maxChars
  {
    match text
    case None => None
    case Some(t) => if |t| <= maxChars then Some(t) else Some(SliceTo(t, maxChars))
  }

  /** `_clip_text(text, n) or ""` for a text that is present. */
  function Clipped(text: string, maxChars: int): (r: string)
    ensures StartsWith(text, r)
    ensures |text| <= maxChars ==> r == text
  {
    ClipText(Some(text), maxChars).value
  }

  // ---------------------------------------------------------------------------------
  // _sanitize_output
  // ---------------------------------------------------------------------------------

  const GenerationCue: string := "Сгенерируй развернутый СОП"
  const OutputCue: string := "Выдай ТОЛЬКО готовый документ"

  /** The markers after a document header at which the document is cut: every marker but
      the two cues. */
  const TrailMarkers: seq<string> := [
    "Ориентиры разделов", "СТРУКТУРА (ориентир)", "ИСТОЧНИКИ/СВОДКА",
    "SUMMARY:", "ISSUES:", "ACTIONS:", "ИТОГ:", "ТЕКУЩАЯ ВЕРСИЯ:",
    "Оцени следующий текст", "ТЕКСТ:"]

  /** Every marker of `_sanitize_output`: the two cues and the trailing markers. */
  const Markers: seq<string> := [GenerationCue, OutputCue] + TrailMarkers

  /** No marker spans a line break, and none is empty. */
  lemma MarkersAreLinePieces()
    ensures forall k :: 0 <= k < |Markers| ==> |Markers[k]| > 0 && NoNewline(Markers[k])
  {
  }

  /** Step 1: when the generation cue occurs before the output cue, the text from the
      first generation cue up to the first output cue is cut out. */
  function WithoutInstruction(text: string): string {
    var startIdx := Find(text, GenerationCue);
    var endIdx := Find(text, OutputCue);
    if startIdx != -1 && endIdx != -1 && startIdx < endIdx then text[..startIdx] + text[endIdx..] else text
  }

  /** `re.match` of the header patterns `^#\s+`, `^##\s+\d+\.\s`, `^##\s` and `^1\.\s`;
      the second implies the third, so three tests remain. */
  predicate HeaderLike(line: string) {
    (|line| >= 2 && line[0] == '#' && IsSpace(line[1]))
    || (|line| >= 3 && line[..2] == "##" && IsSpace(line[2]))
    || (|line| >= 3 && line[..2] == "1." && IsSpace(line[2]))
  }

  /** A line holding one of the trailing markers. */
  predicate TrailMarked(line: string) {
    ContainsAny(line, TrailMarkers)
  }

  /** The first index at or after `k` whose line satisfies `p`, or -1. */
  function FirstFrom(lines: seq<string>, p: string -> bool, k: nat): (r: int)
    ensures r == -1 || (k <= r < |lines| && p(lines[r]))
    decreases |lines| - k
  {
    if k >= |lines| then -1 else if p(lines[k]) then k else FirstFrom(lines, p, k + 1)
  }

  /** `FirstFrom` is the first such index. */
  lemma {:induction false} FirstFromFirst(lines: seq<string>, p: string -> bool, k: nat)
    ensures forall j :: k <= j < |lines| && (FirstFrom(lines, p, k) == -1 || j < FirstFrom(lines, p, k)) ==> !p(lines[j])
    decreases |lines| - k
  {
    if k < |lines| && !p(lines[k]) {
      FirstFromFirst(lines, p, k + 1);
    }
  }

  /** The lines of `lines` that hold none of `keys`, in order (a list comprehension). */
  function Unmarked(lines: seq<string>, keys: seq<string>): (r: seq<string>)
    ensures |r| <= |lines|
  {
    if |lines| == 0 then []
    else Unmarked(lines[..|lines| - 1], keys) + (if ContainsAny(lines[|lines| - 1], keys) then [] else [lines[|lines| - 1]])
  }

  /** The lines of the document part: from the first header on, cut at the first later
      trailing marker, or all lines when there is no header. */
  function DocumentLines(lines: seq<string>): seq<string> {
    var first := FirstFrom(lines, HeaderLike, 0);
    if first == -1 then lines
    else
      var doc := lines[first..];
      var cut := FirstFrom(doc, TrailMarked, 0);
      if cut != -1 && cut > 0 then doc[..cut] else doc
  }

  /** The lines `_sanitize_output` keeps. */
  function SanitizedLines(text: string): seq<string> {
    Unmarked(DocumentLines(SplitLines(WithoutInstruction(text))), Markers)
  }

  /** What `_sanitize_output` returns. */
  function Sanitized(text: string): string {
    Strip(Join(SanitizedLines(text), "\n"))
  }

  /** The search for the first line satisfying `p`. */
  method FindFirst(lines: seq<string>, p: string -> bool) returns (idx: int)
    ensures idx == FirstFrom(lines, p, 0)
  {
    idx := -1;
    var j := 0;
    while j < |lines|
      invariant 0 <= j <= |lines|
      invariant FirstFrom(lines, p, 0) == FirstFrom(lines, p, j)
    {
      if p(lines[j]) {
        idx := j;
        return;
      }
      j := j + 1;
    }
  }

  /** `_sanitize_output` (agents.py:114-170). */
  method SanitizeOutput(text: string) returns (r: string)
    ensures r == Sanitized(text)
  {
    var t := text;
    var startIdx := Find(t, GenerationCue);
    var endIdx := Find(t, OutputCue);
    if startIdx != -1 && endIdx != -1 && startIdx < endIdx {
      t := t[..startIdx] + t[endIdx..];
    }
    var lines := SplitLines(t);
    var firstHeaderIdx := FindFirst(lines, HeaderLike);
    var docLines := lines;
    if firstHeaderIdx != -1 {
      docLines := lines[firstHeaderIdx..];
      var cutIdx := FindFirst(docLines, TrailMarked);
      if cutIdx != -1 && cutIdx > 0 {
        docLines := docLines[..cutIdx];
      }
    }
    r := Strip(Join(Unmarked(docLines, Markers), "\n"));
  }

  /** No kept line holds any key, and the kept lines are input lines in input order. */
  lemma {:induction false} UnmarkedSpec(lines: seq<string>, keys: seq<string>)
    ensures forall k :: 0 <= k < |Unmarked(lines, keys)| ==> !ContainsAny(Unmarked(lines, keys)[k], keys)
    ensures IsSubseq(Unmarked(lines, keys), lines)
  {
    if |lines| == 0 {
    } else {
      var init := lines[..|lines| - 1];
      var last := lines[|lines| - 1];
      UnmarkedSpec(init, keys);
      assert lines == init + [last];
      assert Unmarked(lines, keys) == Unmarked(init, keys) + (if ContainsAny(last, keys) then [] else [last]);
      if ContainsAny(last, keys) {
        assert Unmarked(lines, keys) == Unmarked(init, keys);
        SubseqAppendRight(Unmarked(init, keys), init, last);
      } else {
        SubseqAppendBoth(Unmarked(init, keys), init, last);
      }
    }
  }

  /** No marker occurs anywhere in the sanitised text: every line holding one was dropped,
      and no marker spans a line break. */
  lemma SanitizedHasNoMarker(text: string)
    ensures forall k :: 0 <= k < |Markers| ==> !Contains(Sanitized(text), Markers[k])
  {
    var kept := SanitizedLines(text);
    UnmarkedSpec(DocumentLines(SplitLines(WithoutInstruction(text))), Markers);
    MarkersAreLinePieces();
    forall k | 0 <= k < |Markers| ensures !Contains(Sanitized(text), Markers[k]) {
      forall i | 0 <= i < |kept| ensures !Contains(kept[i], Markers[k]) {
        assert !ContainsAny(kept[i], Markers);
      }
      JoinLinesFree(kept, Markers[k]);
      if Contains(Sanitized(text), Markers[k]) {
        ContainsInStripped(Join(kept, "\n"), Markers[k]);
      }
    }
  }

  /** When a header-like line exists, the kept lines come from the first such line on,
      and stop before the first later line holding a trailing marker. */
  lemma SanitizedFromHeader(text: string)
    requires FirstFrom(SplitLines(WithoutInstruction(text)), HeaderLike, 0) != -1
    ensures var lines := SplitLines(WithoutInstruction(text));
      var first := FirstFrom(lines, HeaderLike, 0);
      var cut := FirstFrom(lines[first..], TrailMarked, 0);
      IsSubseq(SanitizedLines(text), if cut > 0 then lines[first..first + cut] else lines[first..])
  {
    var lines := SplitLines(WithoutInstruction(text));
    DocumentFromHeader(lines);
    UnmarkedSpec(DocumentLines(lines), Markers);
  }

  /** From the first header, the document part runs to the first trailing marker after it. */
  lemma DocumentFromHeader(lines: seq<string>)
    requires FirstFrom(lines, HeaderLike, 0) != -1
    ensures var first := FirstFrom(lines, HeaderLike, 0);
      var cut := FirstFrom(lines[first..], TrailMarked, 0);
      DocumentLines(lines) == if cut > 0 then lines[first..first + cut] else lines[first..]
  {
    var first := FirstFrom(lines, HeaderLike, 0);
    var cut := FirstFrom(lines[first..], TrailMarked, 0);
    if cut > 0 {
      assert lines[first..][..cut] == lines[first..first + cut];
    }
  }

  /** Without a header-like line every line is kept unless it holds a marker. */
  lemma SanitizedWithoutHeader(text: string)
    requires FirstFrom(SplitLines(WithoutInstruction(text)), HeaderLike, 0) == -1
    ensures SanitizedLines(text) == Unmarked(SplitLines(WithoutInstruction(text)), Markers)
    ensures forall j :: 0 <= j < |SplitLines(WithoutInstruction(text))| ==> !HeaderLike(SplitLines(WithoutInstruction(text))[j])
  {
    FirstFromFirst(SplitLines(WithoutInstruction(text)), HeaderLike, 0);
  }

  /** Cutting `text[s..e]` out of a text with `cue` at `e` leaves the text before `s`
      followed by the text from `e` on, which starts with `cue`. */
  lemma CutBetween(text: string, s: int, e: int, cue: string)
    requires 0 <= s < e && OccursAt(text, cue, e)
    ensures var w := text[..s] + text[e..];
      |w| == |text| - (e - s) && StartsWith(w, text[..s]) && w[s..] == text[e..] && StartsWith(w[s..], cue)
  {
    var w := text[..s] + text[e..];
    assert w[..s] == text[..s];
    assert w[s..] == text[e..];
    assert text[e..][..|cue|] == text[e..e + |cue|];
  }

  /** Step 1 removes exactly the text between the two cues when the generation cue comes
      first: what remains is the text before the generation cue followed by the text from
      the output cue on, and it still holds the output cue. */
  lemma WithoutInstructionSpec(text: string)
    ensures var s := Find(text, GenerationCue);
      var e := Find(text, OutputCue);
      if s != -1 && e != -1 && s < e then
        |WithoutInstruction(text)| == |text| - (e - s)
        && StartsWith(WithoutInstruction(text), text[..s])
        && WithoutInstruction(text)[s..] == text[e..]
        && StartsWith(WithoutInstruction(text)[s..], OutputCue)
      else WithoutInstruction(text) == text
  {
    var s := Find(text, GenerationCue);
    var e := Find(text, OutputCue);
    if s != -1 && e != -1 && s < e {
      CutBetween(text, s, e, OutputCue);
    }
  }

  // ---------------------------------------------------------------------------------
  // Prompts
  // ---------------------------------------------------------------------------------

  /** The content mode that puts the document summary into the author prompt. */
  const DocLinkedMode: string := "ИИ + ссылка на документ"

  const AuthorRequirements: string := "Требования: детальные шаги, параметры, безопасность, критерии приемки."
  const AuthorClosing: string :=
    "Выдай ТОЛЬКО готовый документ в Markdown, без комментариев. Заголовки разделов как '## N. <Название>'. "
    + "Никогда не включай в ответ текст задания, метки 'Ориентиры разделов', 'ИСТОЧНИКИ/СВОДКА', 'СТРУКТУРА (ориентир)'; не цитируй исходные подсказки."

  /** An optional text that is present and non-empty (Python truthiness). */
  predicate Given(s: Option<string>) {
    s.Some? && s.value != ""
  }

  /** `_author_prompt` (agents.py:173-198). */
  function AuthorPrompt(title: string, number: string, equipment: string, sectionsText: string,
                        contentMode: string, docsSummary: Option<string>, structureHint: Option<string>): string
  {
    var sections := Clipped(sectionsText, MaxSectionsTextChars);
    var docs := ClipText(docsSummary, MaxDocsSummaryChars);
    var hint := ClipText(structureHint, MaxStructureHintChars);
    var ctx := if contentMode == DocLinkedMode && Given(docs)
      then "\n\nИСТОЧНИКИ/СВОДКА ДЛЯ ИСПОЛЬЗОВАНИЯ:\n" + docs.value + "\n" else "";
    var structurePart := if Given(hint) then "\n\nСТРУКТУРА (ориентир):\n" + hint.value + "\n" else "";
    var equipmentPart := if equipment != "" then " для оборудования: " + equipment else "";
    GenerationCue + (" '" + title + "' (№ " + number + ")" + equipmentPart + ".\n"
      + "Ориентиры разделов (по одному на строку):\n" + sections + "\n"
      + AuthorRequirements + ctx + structurePart + "\n"
      + AuthorClosing)
  }

  /** The optional guide lines of the critic and revision prompts. */
  function GuideLines(structureHint: Option<string>, equipment: string): seq<string> {
    (if equipment != "" then ["Тип оборудования: " + equipment] else [])
      + (if Given(structureHint) then ["Ожидаемая структура: " + structureHint.value] else [])
  }

  /** `_critic_prompt` (agents.py:201-212). */
  function CriticPrompt(sopText: string, structureHint: Option<string>, equipment: string): string {
    var extra := GuideLines(structureHint, equipment);
    var guide := if extra != [] then "\n\n" + Join(extra, "\n") else "";
    "Оцени следующий текст СОП и дай структурированную рецензию по правилам из своей роли." + guide + "\n\n"
      + "ТЕКСТ:\n" + Clipped(sopText, MaxSopTextForCriticChars)
  }

  const RevisionIntro: string :=
    "Перепиши полностью документ, устранив замечания критика. Сохрани формат Markdown и структуру.\n"
    + "Выдай только финальный документ без пояснений.\n"
    + "Не включай текст задания/подсказок ('Ориентиры разделов', 'ИСТОЧНИКИ/СВОДКА', 'СТРУКТУРА (ориентир)').\n"

  /** `_revision_prompt` (agents.py:215-231). */
  function RevisionPrompt(previousText: string, critique: string, structureHint: Option<string>, equipment: string): string {
    var extra := GuideLines(structureHint, equipment);
    var guide := if extra != [] then "\n" + Join(extra, "\n") else "";
    RevisionIntro + guide + "\n\n"
      + "ЗАМЕЧАНИЯ КРИТИКА:\n" + Clipped(critique, MaxCriticFeedbackChars) + "\n\n"
      + "ТЕКУЩАЯ ВЕРСИЯ:\n" + Clipped(previousText, MaxPreviousTextChars)
  }

  /** The author prompt opens with the generation cue, so an author that echoes it has the
      echoed instruction cut by step 1 of the sanitiser whenever the output cue follows. */
  lemma AuthorPromptOpensWithCue(title: string, number: string, equipment: string, sectionsText: string,
                                 contentMode: string, docsSummary: Option<string>, structureHint: Option<string>)
    ensures StartsWith(AuthorPrompt(title, number, equipment, sectionsText, contentMode, docsSummary, structureHint), GenerationCue)
  {
    var p := AuthorPrompt(title, number, equipment, sectionsText, contentMode, docsSummary, structureHint);
    StartsWithAppend(GenerationCue, p[|GenerationCue|..]);
    assert p == GenerationCue + p[|GenerationCue|..];
  }

  // ---------------------------------------------------------------------------------
  // run_author_critic_loop
  // ---------------------------------------------------------------------------------

  /** The fixed inputs of one run. */
  datatype Request = Request(title: string, number: string, equipment: string, sectionsText: string,
                             contentMode: string, docsSummary: Option<string>, structureHint: Option<string>)

  /** The two agents: the contents of the messages each answers a prompt with. */
  datatype Pair = Pair(author: string -> seq<string>, critic: string -> seq<string>)

  /** What the loop does with texts: the first prompt, the revision prompt for a previous
      text and critique, the critic prompt for a text, and the sanitiser. */
  datatype Prompts = Prompts(first: string, revise: (string, string) -> string, review: string -> string,
                             sanitize: string -> string)

  /** The prompts of a request, as the source builds them. */
  function PromptsOf(q: Request): Prompts {
    Prompts(AuthorPrompt(q.title, q.number, q.equipment, q.sectionsText, q.contentMode, q.docsSummary, q.structureHint),
            (prev, fb) => RevisionPrompt(prev, fb, q.structureHint, q.equipment),
            text => CriticPrompt(text, q.structureHint, q.equipment),
            Sanitized)
  }

  /** A transcript entry. */
  datatype Entry = Entry(sender: string, content: string)

  /** `_extract_text`: the message contents joined by blank lines. */
  function ExtractText(contents: seq<string>): string {
    Join(contents, "\n\n")
  }

  /** The verdict that ends the loop: the lower-cased critic text contains "готово". */
  predicate Finished(criticText: string) {
    Contains(Lower(criticText), "готово")
  }

  /** The loop variables: the transcript, `current_text`, `critic_feedback`, and whether
      the loop has left by `break`. */
  datatype LoopState = LoopState(transcript: seq<Entry>, current: string, feedback: string, stopped: bool)

  /** The prompt the author gets in iteration `iteration`. */
  function PromptFor(pr: Prompts, iteration: nat, st: LoopState): string {
    if iteration == 1 && st.current == "" then pr.first else pr.revise(st.current, st.feedback)
  }

  /** One iteration: the author's sanitised text and then the critic's text are appended
      to the transcript; a finished verdict stops the loop, any other becomes the
      feedback. */
  function Iteration(pr: Prompts, agents: Pair, iteration: nat, st: LoopState): LoopState {
    var authorText := pr.sanitize(ExtractText(agents.author(PromptFor(pr, iteration, st))));
    var criticText := ExtractText(agents.critic(pr.review(authorText)));
    var t := st.transcript + [Entry("Author", authorText), Entry("Critic", criticText)];
    if Finished(criticText) then LoopState(t, authorText, st.feedback, true)
    else LoopState(t, authorText, criticText, false)
  }

  /** An iteration, as a value: the loop's facts below hold for any step with the shape of
      `Iteration`. */
  type Step = (nat, LoopState) -> LoopState

  function StepOf(pr: Prompts, agents: Pair): Step {
    (i: nat, st: LoopState) => Iteration(pr, agents, i, st)
  }

  /** The loop variables after iterations 1 to `n` of `step`. */
  function RunWith(step: Step, n: nat): LoopState {
    if n == 0 then LoopState([], "", "", false)
    else
      var st := RunWith(step, n - 1);
      if st.stopped then st else step(n, st)
  }

  /** The loop variables after iterations 1 to `n`. */
  function Run(pr: Prompts, agents: Pair, n: nat): LoopState {
    RunWith(StepOf(pr, agents), n)
  }

  /** What the loop returns: the transcript and the final text. */
  datatype LoopOutput = LoopOutput(messages: seq<Entry>, finalText: string)

  /** The number of iterations `range(1, max_iters + 1)` allows. */
  function Bound(maxIters: int): nat {
    if maxIters < 1 then 0 else maxIters
  }

  /** The loop of `run_author_critic_loop` over the given prompts. */
  method AuthorCriticLoop(pr: Prompts, agents: Pair, maxIters: int) returns (out: LoopOutput)
    ensures out == LoopOutput(Run(pr, agents, Bound(maxIters)).transcript, Run(pr, agents, Bound(maxIters)).current)
  {
    var transcript: seq<Entry> := [];
    var currentText := "";
    var criticFeedback := "";
    var iteration := 1;
    while iteration <= maxIters
      invariant 1 <= iteration <= Bound(maxIters) + 1
      invariant Run(pr, agents, iteration - 1) == LoopState(transcript, currentText, criticFeedback, false)
    {
      var prompt;
      if iteration == 1 && currentText == "" {
        prompt := pr.first;
      } else {
        prompt := pr.revise(currentText, criticFeedback);
      }
      var authorText := pr.sanitize(ExtractText(agents.author(prompt)));
      transcript := transcript + [Entry("Author", authorText)];
      currentText := authorText;
      var criticText := ExtractText(agents.critic(pr.review(currentText)));
      transcript := transcript + [Entry("Critic", criticText)];
      if Contains(Lower(criticText), "готово") {
        StoppedStays(StepOf(pr, agents), iteration, Bound(maxIters));
        return LoopOutput(transcript, currentText);
      }
      criticFeedback := criticText;
      iteration := iteration + 1;
    }
    out := LoopOutput(transcript, currentText);
  }

  /** `run_author_critic_loop` (agents.py:234-285), with the agents given. */
  method RunAuthorCriticLoop(q: Request, agents: Pair, maxIters: int) returns (out: LoopOutput)
    ensures out.messages == Run(PromptsOf(q), agents, Bound(maxIters)).transcript
    ensures out.finalText == Run(PromptsOf(q), agents, Bound(maxIters)).current
  {
    out := AuthorCriticLoop(PromptsOf(q), agents, maxIters);
  }

  /** Once stopped, further iterations change nothing. */
  lemma {:induction false} StoppedStays(step: Step, k: nat, n: nat)
    requires k <= n && RunWith(step, k).stopped
    ensures RunWith(step, n) == RunWith(step, k)
    decreases n - k
  {
    if k < n {
      StoppedStays(step, k, n - 1);
    }
  }

  /** The number of iterations that ran in the first `n`. */
  function Ran(step: Step, n: nat): (r: nat)
    ensures r <= n
  {
    if n == 0 then 0
    else if RunWith(step, n - 1).stopped then Ran(step, n - 1)
    else n
  }

  /** A step from `st` to `nx` appends an author entry holding the new current text and a
      critic entry; it stops exactly on a finished verdict and otherwise keeps the critique
      as feedback. */
  predicate StepShape(st: LoopState, nx: LoopState, done: string -> bool) {
    var m := |st.transcript|;
    |nx.transcript| == m + 2 && nx.transcript[..m] == st.transcript
    && nx.transcript[m].sender == "Author" && nx.transcript[m + 1].sender == "Critic"
    && nx.current == nx.transcript[m].content
    && (nx.stopped <==> done(nx.transcript[m + 1].content))
    && (!nx.stopped ==> nx.feedback == nx.transcript[m + 1].content)
  }

  ghost predicate Shaped(step: Step, done: string -> bool) {
    forall i: nat, st: LoopState :: StepShape(st, step(i, st), done)
  }

  /** One iteration has that shape. */
  lemma IterationShape(pr: Prompts, agents: Pair, i: nat, st: LoopState)
    ensures StepShape(st, Iteration(pr, agents, i, st), Finished)
  {
  }

  lemma LoopStepShaped(pr: Prompts, agents: Pair)
    ensures Shaped(StepOf(pr, agents), Finished)
  {
    forall i: nat, st: LoopState ensures StepShape(st, StepOf(pr, agents)(i, st), Finished) {
      IterationShape(pr, agents, i, st);
    }
  }

  /** After `n` iterations the transcript holds two entries per iteration that ran; an
      empty one means nothing ran yet. */
  lemma {:induction false} RunLength(step: Step, done: string -> bool, n: nat)
    requires Shaped(step, done)
    ensures var st := RunWith(step, n);
      |st.transcript| == 2 * Ran(step, n)
      && (|st.transcript| == 0 ==> st.current == "" && !st.stopped)
  {
    if n > 0 {
      RunLength(step, done, n - 1);
      var prev := RunWith(step, n - 1);
      if !prev.stopped {
        assert StepShape(prev, step(n, prev), done);
      }
    }
  }

  /** The transcript opens with the author, holds only author and critic entries, and no
      two neighbours have the same sender. */
  predicate Alternating(t: seq<Entry>) {
    (|t| > 0 ==> t[0].sender == "Author")
    && (forall k :: 0 <= k < |t| ==> t[k].sender == "Author" || t[k].sender == "Critic")
    && (forall k :: 0 < k < |t| ==> t[k - 1].sender != t[k].sender)
  }

  /** No critic entry before position `m` is a finished verdict. */
  predicate NoVerdictBefore(t: seq<Entry>, m: int, done: string -> bool) {
    forall k :: 0 <= k < |t| && k < m && t[k].sender == "Critic" ==> !done(t[k].content)
  }

  /** Appending an author and a critic entry to an alternating transcript that is empty
      or ends with the critic keeps it alternating. */
  lemma AlternatingAppend(p: seq<Entry>, t: seq<Entry>)
    requires Alternating(p) && (|p| > 0 ==> p[|p| - 1].sender == "Critic")
    requires |t| == |p| + 2 && t[..|p|] == p && t[|p|].sender == "Author" && t[|p| + 1].sender == "Critic"
    ensures Alternating(t)
  {
    forall k | 0 <= k < |p| ensures t[k] == p[k] {
      assert t[..|p|][k] == t[k];
    }
  }

  /** Appending two entries after a transcript whose critic entries, the last included,
      are not finished verdicts. */
  lemma NoVerdictAppend(p: seq<Entry>, t: seq<Entry>, done: string -> bool)
    requires NoVerdictBefore(p, |p|, done)
    requires |t| == |p| + 2 && t[..|p|] == p
    ensures NoVerdictBefore(t, |t| - 2, done)
  {
    forall k | 0 <= k < |t| && k < |t| - 2 && t[k].sender == "Critic" ensures !done(t[k].content) {
      assert t[k] == p[k];
    }
  }

  /** A transcript ending in an author entry and a critic entry that is not a finished
      verdict has none before either, if it had none before those two. */
  lemma NoVerdictExtend(p: seq<Entry>, done: string -> bool)
    requires |p| >= 2 && p[|p| - 2].sender == "Author"
    requires NoVerdictBefore(p, |p| - 2, done) && !done(p[|p| - 1].content)
    ensures NoVerdictBefore(p, |p|, done)
  {
  }

  /** The transcript alternates between author and critic, starting with the author. */
  lemma {:induction false} RunSenders(step: Step, done: string -> bool, n: nat)
    requires Shaped(step, done)
    ensures Alternating(RunWith(step, n).transcript)
  {
    if n > 0 {
      RunSenders(step, done, n - 1);
      RunLatest(step, done, n - 1);
      RunLength(step, done, n - 1);
      var prev := RunWith(step, n - 1);
      if prev.stopped {
        assert RunWith(step, n) == prev;
      } else {
        var nx := step(n, prev);
        assert RunWith(step, n) == nx;
        assert StepShape(prev, nx, done);
        AlternatingAppend(prev.transcript, nx.transcript);
      }
    }
  }

  /** The current text is the latest author entry; the loop has stopped exactly when the
      latest critic entry is a finished verdict, and otherwise the feedback is that entry. */
  lemma {:induction false} RunLatest(step: Step, done: string -> bool, n: nat)
    requires Shaped(step, done)
    ensures var st := RunWith(step, n);
      var t := st.transcript;
      |t| >= 2 ==> st.current == t[|t| - 2].content && t[|t| - 2].sender == "Author" && t[|t| - 1].sender == "Critic"
                   && (st.stopped <==> done(t[|t| - 1].content))
                   && (!st.stopped ==> st.feedback == t[|t| - 1].content)
  {
    if n > 0 {
      RunLatest(step, done, n - 1);
      var prev := RunWith(step, n - 1);
      if !prev.stopped {
        assert StepShape(prev, step(n, prev), done);
      }
    }
  }

  /** No critic entry before the latest one is a finished verdict. */
  lemma {:induction false} RunEarlierNotFinished(step: Step, done: string -> bool, n: nat)
    requires Shaped(step, done)
    ensures var t := RunWith(step, n).transcript;
      NoVerdictBefore(t, |t| - 2, done)
  {
    if n > 0 {
      RunEarlierNotFinished(step, done, n - 1);
      RunLatest(step, done, n - 1);
      var prev := RunWith(step, n - 1);
      if prev.stopped {
        assert RunWith(step, n) == prev;
      } else {
        var p := prev.transcript;
        var nx := step(n, prev);
        assert RunWith(step, n) == nx;
        assert StepShape(prev, nx, done);
        if |p| >= 2 {
          NoVerdictExtend(p, done);
        }
        NoVerdictAppend(p, nx.transcript, done);
      }
    }
  }

  /** A run that has not stopped ran every iteration. */
  lemma NotStoppedRanAll(step: Step, n: nat)
    requires !RunWith(step, n).stopped
    ensures Ran(step, n) == n
  {
  }

  /** The loop runs at most `max_iters` iterations, two transcript entries each; it stops
      early only on a finished verdict, which is then the latest entry, and otherwise runs
      them all. Its author and critic entries alternate, and no critic entry before the
      latest is a finished verdict. */
  lemma RunStopsOnVerdict(pr: Prompts, agents: Pair, maxIters: int)
    ensures var t := Run(pr, agents, Bound(maxIters)).transcript;
      |t| <= 2 * Bound(maxIters)
      && (Run(pr, agents, Bound(maxIters)).stopped ==> |t| >= 2 && Finished(t[|t| - 1].content))
      && (!Run(pr, agents, Bound(maxIters)).stopped ==> |t| == 2 * Bound(maxIters))
      && Alternating(t) && NoVerdictBefore(t, |t| - 2, Finished)
  {
    var n := Bound(maxIters);
    var step := StepOf(pr, agents);
    LoopStepShaped(pr, agents);
    RunLength(step, Finished, n);
    RunLatest(step, Finished, n);
    RunSenders(step, Finished, n);
    RunEarlierNotFinished(step, Finished, n);
    if !RunWith(step, n).stopped {
      NotStoppedRanAll(step, n);
    }
  }

  /** The first iteration sends the first prompt, and iteration `n + 1` after a run that
      has not stopped sends the revision prompt built from the latest author text and the
      latest critique. */
  lemma PromptsSpec(pr: Prompts, agents: Pair, n: nat)
    ensures PromptFor(pr, 1, Run(pr, agents, 0)) == pr.first
    ensures n >= 1 && !Run(pr, agents, n).stopped ==>
      var t := Run(pr, agents, n).transcript;
      |t| >= 2 && PromptFor(pr, n + 1, Run(pr, agents, n)) == pr.revise(t[|t| - 2].content, t[|t| - 1].content)
  {
    if n >= 1 && !Run(pr, agents, n).stopped {
      var step := StepOf(pr, agents);
      LoopStepShaped(pr, agents);
      RunLength(step, Finished, n);
      RunLatest(step, Finished, n);
      NotStoppedRanAll(step, n);
    }
  }

  /** The stop test is a substring test, so the critic's rejection "Не готово" stops the
      loop exactly like the acceptance "Готово". */
  lemma RejectionAlsoStops()
    ensures Finished("Готово")
    ensures Finished("ИТОГ: Не готово")
  {
    assert Lower("Готово")[0..6] == "готово";
    assert OccursAt(Lower("Готово"), "готово", 0);
    ContainsIff(Lower("Готово"), "готово");
    assert Lower("ИТОГ: Не готово")[9..15] == "готово";
    assert OccursAt(Lower("ИТОГ: Не готово"), "готово", 9);
    ContainsIff(Lower("ИТОГ: Не готово"), "готово");
  }
}
