/**
 * sop_generator/config/agent_config.py: `iterative_generate_until_approved`, the loop that
 * asks the generator for a draft, has the critic review it, and feeds the critique into
 * the next instruction until the critic approves or the iterations run out. The
 * instruction builder, the generator and the critic are oracles: total functions of what
 * the loop passes them.
 */
module AgentLoop {
  import opened Text
  import opened Wrappers
  import opened TokenUsage
  import opened Records
  import opened AgentConfig

  /** The collaborators of the loop. `instructionFor` is `base_instruction_builder`;
      `generate` answers an instruction given the attempt and feedback histories; `review`
      judges a generation given its instruction and the same histories. */
  datatype Agents = Agents(
    instructionFor: string -> string,
    generate: (string, seq<Generation>, seq<string>) -> Generation,
    review: (Generation, string, seq<Generation>, seq<string>) -> CriticResult)

  /** How many past attempts and critiques the loop keeps. */
  const HistoryLimit: nat := 5

  /** A history after `del history[:-5]` when it holds more than five entries: its last
      five entries. */
  function Capped<T>(s: seq<T>): (r: seq<T>)
    ensures |r| == if |s| < HistoryLimit then |s| else HistoryLimit
  {
    if |s| <= HistoryLimit then s else Capped(s[1..])
  }

  function GeneratedMessage(iteration: nat, length: nat): string {
    "Итерация " + NatToString(iteration) + ": сгенерировано " + NatToString(length) + " символов текста."
  }

  function VerdictMessage(iteration: nat, approved: bool): string {
    "Итерация " + NatToString(iteration) + ": критик " + (if approved then "одобрил" else "не одобрил") + " черновик."
  }

  function CritiqueMessage(critique: string): string {
    "Комментарий критика: " + critique
  }

  function UsageMessage(usage: map<string, int>): string {
    "Суммарный расход токенов: " + UsageLog(usage)
  }

  const ZeroUsage: map<string, int> := map[PromptTokens := 0, CompletionTokens := 0, TotalTokens := 0]

  /** One iteration as the agents answered it: the instruction built from the latest
      critique, the generator's draft and the critic's verdict on it. */
  datatype Round = Round(instruction: string, draft: Generation, verdict: CriticResult)

  /** The rounds before the latest one. */
  function Earlier(t: seq<Round>): seq<Round>
    requires |t| > 0
  {
    t[..|t| - 1]
  }

  /** Whether the latest round was approved. */
  predicate Approved(t: seq<Round>) {
    |t| > 0 && t[|t| - 1].verdict.approved
  }

  /** `attempt_history` after the rounds `t`: each draft appended, then capped. */
  function Attempts(t: seq<Round>): (r: seq<Generation>)
    ensures |r| <= HistoryLimit
  {
    if |t| == 0 then [] else Capped(Attempts(Earlier(t)) + [t[|t| - 1].draft])
  }

  /** `feedback_history` after the rounds `t`: the critique of each rejected draft
      appended, then capped. */
  function Feedback(t: seq<Round>): (r: seq<string>)
    ensures |r| <= HistoryLimit
  {
    if |t| == 0 then []
    else if t[|t| - 1].verdict.approved then Feedback(Earlier(t))
    else Capped(Feedback(Earlier(t)) + [t[|t| - 1].verdict.feedback])
  }

  /** `critique` after the rounds `t`: the feedback of the latest rejection, "" before any. */
  function Critique(t: seq<Round>): string {
    if |t| == 0 then ""
    else if t[|t| - 1].verdict.approved then Critique(Earlier(t))
    else t[|t| - 1].verdict.feedback
  }

  /** The messages one round, numbered `iteration`, logs. */
  function RoundLogs(iteration: nat, r: Round): seq<string> {
    [GeneratedMessage(iteration, |r.draft.content|), VerdictMessage(iteration, r.verdict.approved)]
      + (if r.verdict.approved then [] else [CritiqueMessage(r.verdict.feedback)])
  }

  /** The log after the rounds `t`. */
  function Logs(t: seq<Round>): seq<string> {
    if |t| == 0 then [] else Logs(Earlier(t)) + RoundLogs(|t|, t[|t| - 1])
  }

  /** The token total after the rounds `t`: the draft's and then the verdict's usage added
      for each round. */
  function Usage(t: seq<Round>): map<string, int> {
    if |t| == 0 then ZeroUsage
    else Accumulated(Accumulated(Usage(Earlier(t)), Some(t[|t| - 1].draft.usage)), Some(t[|t| - 1].verdict.usage))
  }

  /** The next round after the rounds `t`: the generator sees the histories before its
      draft, the critic the attempt history with it. */
  function NextRound(a: Agents, t: seq<Round>): Round {
    var instruction := a.instructionFor(Critique(t));
    var draft := a.generate(instruction, Attempts(t), Feedback(t));
    Round(instruction, draft, a.review(draft, instruction, Capped(Attempts(t) + [draft]), Feedback(t)))
  }

  /** The rounds of iterations 1 to `n`, stopping at the first approval. */
  function Trace(a: Agents, n: nat): seq<Round> {
    if n == 0 then []
    else
      var t := Trace(a, n - 1);
      if Approved(t) then t else t + [NextRound(a, t)]
  }

  /** What the loop returns: whether the critic approved, the generation the result is
      built from (`None` when no iteration ran, so that content and sections are empty),
      the log, and the token total. */
  datatype LoopResult = LoopResult(approved: bool, generation: Option<Generation>, logs: seq<string>, tokenUsage: map<string, int>)

  /** The content of a loop result: "" when no iteration ran. */
  function ResultContent(r: LoopResult): string {
    if r.generation.Some? then r.generation.value.content else ""
  }

  /** The sections of a loop result: none when no iteration ran. */
  function ResultSections(r: LoopResult): seq<Section> {
    if r.generation.Some? then r.generation.value.sections else []
  }

  /** The number of iterations the loop runs for `maxIters`. */
  function IterationBound(maxIters: int): nat {
    if maxIters < 1 then 0 else maxIters
  }

  /** The latest draft of the rounds `t`. */
  function LastDraft(t: seq<Round>): Option<Generation> {
    if |t| == 0 then None else Some(t[|t| - 1].draft)
  }

  /** The result of the loop: the state after its rounds, with the token total appended to
      the log on every path (the returned dict shares the log list, so the message logged
      after building it is part of it). */
  function Outcome(a: Agents, maxIters: int): LoopResult {
    var t := Trace(a, IterationBound(maxIters));
    LoopResult(Approved(t), LastDraft(t), Logs(t) + [UsageMessage(Usage(t))], Usage(t))
  }

  /** `iterative_generate_until_approved` (sop_generator/config/agent_config.py:784-869),
      without the `logger` callback, which receives the same messages. */
  method IterativeGenerateUntilApproved(a: Agents, maxIters: int) returns (r: LoopResult)
    ensures r == Outcome(a, maxIters)
  {
    var history: seq<string> := [];
    var critique := "";
    var last: Option<Generation> := None;
    var totals := new UsageTotals();
    var attempts: seq<Generation> := [];
    var feedback: seq<string> := [];
    ghost var trace: seq<Round> := [];
    var iteration := 1;
    while iteration <= maxIters
      invariant 1 <= iteration <= IterationBound(maxIters) + 1
      invariant trace == Trace(a, iteration - 1) && !Approved(trace)
      invariant history == Logs(trace) && critique == Critique(trace) && last == LastDraft(trace)
      invariant totals.counts == Usage(trace) && attempts == Attempts(trace) && feedback == Feedback(trace)
      invariant |trace| == iteration - 1
    {
      var instruction := a.instructionFor(critique);
      var generation := a.generate(instruction, attempts, feedback);
      last := Some(generation);
      history := history + [GeneratedMessage(iteration, |generation.content|)];
      totals.Accumulate(Some(generation.usage));
      attempts := Capped(attempts + [generation]);
      var verdict := a.review(generation, instruction, attempts, feedback);
      history := history + [VerdictMessage(iteration, verdict.approved)];
      totals.Accumulate(Some(verdict.usage));
      ghost var round := Round(instruction, generation, verdict);
      assert round == NextRound(a, trace);
      ghost var next := trace + [round];
      ExtendVerdict(trace, round);
      ExtendLogs(trace, round);
      ExtendUsage(trace, round);
      ExtendHistories(trace, round);
      assert Trace(a, iteration) == next;
      if verdict.approved {
        AppendedTwo(Logs(trace), GeneratedMessage(iteration, |generation.content|), VerdictMessage(iteration, true));
        TraceStays(a, iteration, IterationBound(maxIters));
        r := LoopResult(true, last, history + [UsageMessage(totals.counts)], totals.counts);
        return;
      }
      critique := verdict.feedback;
      history := history + [CritiqueMessage(critique)];
      feedback := Capped(feedback + [critique]);
      AppendedThree(Logs(trace), GeneratedMessage(iteration, |generation.content|), VerdictMessage(iteration, false), CritiqueMessage(critique));
      trace := next;
      iteration := iteration + 1;
    }
    assert iteration - 1 == IterationBound(maxIters);
    r := LoopResult(false, last, history + [UsageMessage(totals.counts)], totals.counts);
  }

  /** The verdict and the draft that one more round leaves. */
  lemma ExtendVerdict(t: seq<Round>, r: Round)
    ensures Earlier(t + [r]) == t
    ensures Approved(t + [r]) == r.verdict.approved && LastDraft(t + [r]) == Some(r.draft)
  {
    assert Earlier(t + [r]) == t;
  }

  /** The log after one more round. */
  lemma ExtendLogs(t: seq<Round>, r: Round)
    ensures Logs(t + [r]) == Logs(t) + RoundLogs(|t| + 1, r)
  {
    assert Earlier(t + [r]) == t;
  }

  /** The token total after one more round. */
  lemma ExtendUsage(t: seq<Round>, r: Round)
    ensures Usage(t + [r]) == Accumulated(Accumulated(Usage(t), Some(r.draft.usage)), Some(r.verdict.usage))
  {
    assert Earlier(t + [r]) == t;
  }

  /** The histories and the critique after one more round. */
  lemma ExtendHistories(t: seq<Round>, r: Round)
    ensures Attempts(t + [r]) == Capped(Attempts(t) + [r.draft])
    ensures Feedback(t + [r]) == if r.verdict.approved then Feedback(t) else Capped(Feedback(t) + [r.verdict.feedback])
    ensures Critique(t + [r]) == if r.verdict.approved then Critique(t) else r.verdict.feedback
  {
    assert Earlier(t + [r]) == t;
  }

  lemma AppendedTwo<T>(h: seq<T>, x: T, y: T)
    ensures h + [x] + [y] == h + ([x, y] + [])
  {
  }

  lemma AppendedThree<T>(h: seq<T>, x: T, y: T, z: T)
    ensures h + [x] + [y] + [z] == h + ([x, y] + [z])
  {
  }

  /** Once the critic has approved, later iterations add no round. */
  lemma {:induction false} TraceStays(a: Agents, k: nat, n: nat)
    requires k <= n && Approved(Trace(a, k))
    ensures Trace(a, n) == Trace(a, k)
  {
    if n > k {
      TraceStays(a, k, n - 1);
      var t := Trace(a, n - 1);
      assert Approved(t);
      assert Trace(a, n) == t;
    }
  }

  /** After `n` iterations are allowed, at most `n` rounds ran, and fewer only when the
      latest was approved. */
  lemma {:induction false} TraceLength(a: Agents, n: nat)
    ensures |Trace(a, n)| <= n
    ensures |Trace(a, n)| < n ==> Approved(Trace(a, n))
  {
    if n > 0 {
      TraceLength(a, n - 1);
    }
  }

  /** No round before the latest was approved. */
  lemma {:induction false} TraceRejectedBefore(a: Agents, n: nat)
    ensures forall k :: 0 <= k < |Trace(a, n)| - 1 ==> !Trace(a, n)[k].verdict.approved
  {
    if n > 0 {
      TraceRejectedBefore(a, n - 1);
      var t := Trace(a, n - 1);
      if !Approved(t) {
        var u := t + [NextRound(a, t)];
        assert Trace(a, n) == u;
        forall k | 0 <= k < |u| - 1 ensures !u[k].verdict.approved {
          assert u[k] == t[k];
        }
      }
    }
  }

  /** Every round is what the agents answer after the rounds before it. */
  lemma {:induction false} TraceRounds(a: Agents, n: nat)
    ensures forall k :: 0 <= k < |Trace(a, n)| ==> Trace(a, n)[k] == NextRound(a, Trace(a, n)[..k])
  {
    if n > 0 {
      TraceRounds(a, n - 1);
      var t := Trace(a, n - 1);
      if !Approved(t) {
        var u := t + [NextRound(a, t)];
        assert Trace(a, n) == u;
        assert u[..|t|] == t;
        forall k | 0 <= k < |u| ensures u[k] == NextRound(a, u[..k]) {
          if k < |t| {
            assert u[..k] == t[..k];
          }
        }
      }
    }
  }

  /** The attempt history holds the latest drafts, up to five, in order. */
  lemma {:induction false} AttemptsSpec(t: seq<Round>)
    ensures |Attempts(t)| == if |t| < HistoryLimit then |t| else HistoryLimit
    ensures forall j :: 0 <= j < |Attempts(t)| ==> Attempts(t)[j] == t[|t| - |Attempts(t)| + j].draft
  {
    if |t| > 0 {
      AttemptsSpec(Earlier(t));
      var p := Attempts(Earlier(t));
      var q := p + [t[|t| - 1].draft];
      CappedSuffix(q);
    }
  }

  /** A capped history is the tail of the uncapped one. */
  lemma {:induction false} CappedSuffix<T>(s: seq<T>)
    ensures forall j :: 0 <= j < |Capped(s)| ==> Capped(s)[j] == s[|s| - |Capped(s)| + j]
  {
    if |s| > HistoryLimit {
      CappedSuffix(s[1..]);
    }
  }

  /** The log holds three messages per rejected round and two for an approved one. */
  lemma {:induction false} LogsLength(t: seq<Round>)
    requires forall k :: 0 <= k < |t| - 1 ==> !t[k].verdict.approved
    ensures |Logs(t)| == 3 * |t| - (if Approved(t) then 1 else 0)
  {
    if |t| > 0 {
      var p := Earlier(t);
      forall k | 0 <= k < |p| - 1 ensures !p[k].verdict.approved {
        assert p[k] == t[k];
      }
      LogsLength(p);
      if |p| > 0 {
        assert p[|p| - 1] == t[|p| - 1];
      }
    }
  }

  /** The number of iterations the loop runs. */
  function Iterations(a: Agents, maxIters: int): nat {
    |Trace(a, IterationBound(maxIters))|
  }

  /** The generator runs at most `maxIters` times, and every time unless the critic
      approved. */
  lemma IterationsSpec(a: Agents, maxIters: int)
    ensures Iterations(a, maxIters) <= IterationBound(maxIters)
    ensures !Outcome(a, maxIters).approved ==> Iterations(a, maxIters) == IterationBound(maxIters)
  {
    TraceLength(a, IterationBound(maxIters));
  }

  /** The result is approved exactly when one of the rounds was, and then that round is the
      last; the result carries the last draft. */
  lemma ApprovalSpec(a: Agents, maxIters: int)
    ensures Outcome(a, maxIters).approved <==>
      exists k :: 0 <= k < Iterations(a, maxIters) && Trace(a, IterationBound(maxIters))[k].verdict.approved
    ensures maxIters >= 1 ==>
      Outcome(a, maxIters).generation == Some(Trace(a, IterationBound(maxIters))[Iterations(a, maxIters) - 1].draft)
  {
    var t := Trace(a, IterationBound(maxIters));
    TraceLength(a, IterationBound(maxIters));
    TraceRejectedBefore(a, IterationBound(maxIters));
    if Approved(t) {
      assert t[|t| - 1].verdict.approved;
    }
  }

  /** With `maxIters < 1` no iteration runs: the result is unapproved, with empty content
      and sections, a zero token total, and only the token total logged. */
  lemma NoIterationSpec(a: Agents, maxIters: int)
    requires maxIters < 1
    ensures Outcome(a, maxIters) == LoopResult(false, None, [UsageMessage(ZeroUsage)], ZeroUsage)
    ensures ResultContent(Outcome(a, maxIters)) == "" && ResultSections(Outcome(a, maxIters)) == []
  {
  }

  /** The log holds three messages per rejected round and two for the approved one, and
      ends with the token total. */
  lemma OutcomeLogsSpec(a: Agents, maxIters: int)
    ensures |Outcome(a, maxIters).logs| == 3 * Iterations(a, maxIters) - (if Outcome(a, maxIters).approved then 1 else 0) + 1
    ensures Outcome(a, maxIters).logs[|Outcome(a, maxIters).logs| - 1] == UsageMessage(Outcome(a, maxIters).tokenUsage)
  {
    TraceRejectedBefore(a, IterationBound(maxIters));
    LogsLength(Trace(a, IterationBound(maxIters)));
  }
}
