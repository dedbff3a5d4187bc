/**
 * app_local.py, the `parse_sections_from_content` of `run_generation`, second half: every
 * configured section is given one of the parsed sections, found by intent key, by title
 * or by order, each parsed section being consumed at most once except by the last-resort
 * fallback to the final one.
 */
module SectionMatching {
  import opened Wrappers
  import opened Text
  import opened Records
  import opened Keywords
  import opened Session
  import opened RobustParser
  import opened StreamlitApp

  // ---------------------------------------------------------------------------------
  // guess_key_from_text
  // ---------------------------------------------------------------------------------

  /** The intent keys of `canonical_titles`. */
  datatype IntentKey =
    | Scope | Responsibility | Safety | Equipment | Procedure | Quality
    | RecordKeeping | References | Troubleshooting

  /** The keyword groups of `guess_key_from_text`, in the order they are tested. */
  const IntentRules: seq<Rule<Option<IntentKey>>> := [
    Rule(["цель", "область примен", "исключен", "границ", "подготовк"], Some(Scope)),
    Rule(["ответствен", "обучен", "квалификац", "допуск", "персонал", "роль"], Some(Responsibility)),
    Rule(["риск", "опасност", "безопас", "сиз", "лото", "внимани", "предупрежд"], Some(Safety)),
    Rule(["оборуд", "материал", "колонк", "детектор", "реагент", "спецификац"], Some(Equipment)),
    Rule(["шаг", "процедур", "последователь", "инструкц", "температур", "время", "объем", "скорост", "давлен"], Some(Procedure)),
    Rule(["контроль каче", "qc", "критери", "приемк", "валидац", "rsd", "допуск"], Some(Quality)),
    Rule(["документооборот", "запис", "журнал", "отчет", "формат", "срок хран"], Some(RecordKeeping)),
    Rule(["ссылк", "норматив", "стандарт", "gost", "iso"], Some(References)),
    Rule(["неисправн", "симптом", "причин", "действ", "диагност", "устранен"], Some(Troubleshooting))]

  /** `guess_key_from_text`. */
  function GuessKey(text: string): Option<IntentKey> {
    FirstMatch(Lower(text), IntentRules, None)
  }

  /** The key is that of the first keyword group found in the lower-cased text, no earlier
      group being found; there is none exactly when no group is found. */
  lemma GuessKeySpec(text: string)
    ensures var k := FirstHit(Lower(text), IntentRules);
      (forall j :: 0 <= j < k ==> !ContainsAny(Lower(text), IntentRules[j].keywords))
      && (k < |IntentRules| ==>
            ContainsAny(Lower(text), IntentRules[k].keywords) && GuessKey(text) == IntentRules[k].answer)
    ensures GuessKey(text).None? <==>
      forall j :: 0 <= j < |IntentRules| ==> !ContainsAny(Lower(text), IntentRules[j].keywords)
  {
    FirstMatchSpec(Lower(text), IntentRules, None);
  }

  /** `canonical_titles[key]`. */
  function CanonicalTitle(key: IntentKey): string {
    match key
    case Scope => "Цель и область применения"
    case Responsibility => "Ответственность и обучение персонала"
    case Safety => "Анализ рисков и безопасность"
    case Equipment => "Оборудование и материалы"
    case Procedure => "Пошаговые процедуры"
    case Quality => "Контроль качества"
    case RecordKeeping => "Документооборот и ведение записей"
    case References => "Нормативные ссылки"
    case Troubleshooting => "Устранение неисправностей"
  }

  /** `re.match(r'^\s*Раздел\s+\d+\s*$', title, flags=re.IGNORECASE)`: "Раздел" in any
      case, whitespace, a number and nothing else around whitespace. */
  predicate GenericTitle(title: string) {
    var u := Lower(Strip(title));
    StartsWith(u, "раздел")
    && var rest := u[6..];
       var digits := rest[LeadingSpaces(rest)..];
       LeadingSpaces(rest) >= 1 && |digits| >= 1 && LeadingDigits(digits) == |digits|
  }

  /** The two classifiers the matching uses, passed as values. */
  datatype Heuristics = Heuristics(guess: string -> Option<IntentKey>, generic: string -> bool)

  function SourceHeuristics(): Heuristics {
    Heuristics(GuessKey, GenericTitle)
  }

  // ---------------------------------------------------------------------------------
  // parsed_with_guess
  // ---------------------------------------------------------------------------------

  /** A parsed section with its guessed key. */
  datatype Candidate = Candidate(section: Section, key: Option<IntentKey>)

  /** `[{**ps, "_key": guess(ps["title"] + "\n" + ps["content"])} for ps in sections_parsed]`. */
  function Candidates(parsed: seq<Section>, guess: string -> Option<IntentKey>): (r: seq<Candidate>)
    ensures |r| == |parsed|
  {
    if |parsed| == 0 then []
    else
      var p := parsed[|parsed| - 1];
      Candidates(parsed[..|parsed| - 1], guess) + [Candidate(p, guess(p.title + "\n" + p.content))]
  }

  /** Each candidate is its parsed section with the key guessed from its title and content. */
  lemma {:induction false} CandidatesSpec(parsed: seq<Section>, guess: string -> Option<IntentKey>)
    ensures forall i :: 0 <= i < |parsed| ==>
      Candidates(parsed, guess)[i] == Candidate(parsed[i], guess(parsed[i].title + "\n" + parsed[i].content))
  {
    if |parsed| > 0 {
      var init := parsed[..|parsed| - 1];
      CandidatesSpec(init, guess);
      assert forall i :: 0 <= i < |init| ==> init[i] == parsed[i];
    }
  }

  /** The loop that attaches the keys. */
  method GuessAll(parsed: seq<Section>, guess: string -> Option<IntentKey>) returns (cands: seq<Candidate>)
    ensures cands == Candidates(parsed, guess)
  {
    cands := [];
    for i := 0 to |parsed|
      invariant cands == Candidates(parsed[..i], guess)
    {
      assert parsed[..i + 1][..i] == parsed[..i];
      var ps := parsed[i];
      cands := cands + [Candidate(ps, guess(ps.title + "\n" + ps.content))];
    }
    assert parsed[..|parsed|] == parsed;
  }

  // ---------------------------------------------------------------------------------
  // The three passes
  // ---------------------------------------------------------------------------------

  /** The first position from `k` below `n` that passes `ok`. */
  function FirstFrom(n: nat, ok: nat -> bool, k: nat): (r: Option<nat>)
    requires k <= n
    ensures r.Some? ==> k <= r.value < n && ok(r.value)
    decreases n - k
  {
    if k == n then None else if ok(k) then Some(k) else FirstFrom(n, ok, k + 1)
  }

  /** The position found is the first that passes, and one is found whenever one passes. */
  lemma {:induction false} FirstFromSpec(n: nat, ok: nat -> bool, k: nat)
    requires k <= n
    ensures FirstFrom(n, ok, k).Some? ==> forall j :: k <= j < FirstFrom(n, ok, k).value ==> !ok(j)
    ensures FirstFrom(n, ok, k).None? <==> forall j :: k <= j < n ==> !ok(j)
    decreases n - k
  {
    if k < n && !ok(k) {
      FirstFromSpec(n, ok, k + 1);
    }
  }

  /** A `for i …: if …: continue; if …: …; break` search. */
  method FindFirst(n: nat, ok: nat -> bool) returns (r: Option<nat>)
    ensures r == FirstFrom(n, ok, 0)
  {
    var i := 0;
    while i < n
      invariant i <= n && FirstFrom(n, ok, 0) == FirstFrom(n, ok, i)
    {
      if ok(i) {
        return Some(i);
      }
      i := i + 1;
    }
    return None;
  }

  /** Pass 1: an unused candidate of the intended key with content. */
  function KeyTest(cands: seq<Candidate>, used: set<nat>, key: IntentKey): nat -> bool {
    (i: nat) => i < |cands| && i !in used && cands[i].key == Some(key) && cands[i].section.content != ""
  }

  /** Pass 2: an unused candidate whose lower-cased title contains the lower-cased
      configured title, or is contained in it (never for an empty configured title). */
  function TitleTest(cands: seq<Candidate>, used: set<nat>, lowered: string): nat -> bool {
    (i: nat) => i < |cands| && i !in used && lowered != "" && Similar(Lower(cands[i].section.title), lowered)
  }

  /** One title contains the other. */
  predicate Similar(a: string, b: string) {
    Contains(a, b) || Contains(b, a)
  }

  /** Pass 3: an unused candidate. */
  function UnusedTest(used: set<nat>): nat -> bool {
    (i: nat) => i !in used
  }

  /** Which parsed section a configured section gets. */
  datatype Pick =
    | Verbatim               // a manual section keeps its own content
    | Fresh(index: nat)      // found by key, title or order, not used before
    | LastResort(index: nat) // the final parsed section, whether used or not
    | NoPick                 // nothing was parsed

  /** The three passes. A title match or an order match without content does not count,
      and the search goes on; when the order pass finds nothing with content, the final
      section is taken. */
  function Choose(cands: seq<Candidate>, used: set<nat>, intended: Option<IntentKey>, lowered: string): Pick {
    var byKey := if intended.Some? then FirstFrom(|cands|, KeyTest(cands, used, intended.value), 0) else None;
    if byKey.Some? then Fresh(byKey.value)
    else
      var byTitle := FirstFrom(|cands|, TitleTest(cands, used, lowered), 0);
      if byTitle.Some? && cands[byTitle.value].section.content != "" then Fresh(byTitle.value)
      else
        var byOrder := FirstFrom(|cands|, UnusedTest(used), 0);
        if byOrder.Some? && cands[byOrder.value].section.content != "" then Fresh(byOrder.value)
        else if |cands| > 0 then LastResort(|cands| - 1)
        else NoPick
  }

  /** A fresh pick is an unused candidate with content, the first of the intended key when
      there is one; anything else is the final candidate, or nothing when there is none. */
  lemma ChooseSpec(cands: seq<Candidate>, used: set<nat>, intended: Option<IntentKey>, lowered: string)
    ensures var p := Choose(cands, used, intended, lowered);
      p != Verbatim
      && (p.Fresh? ==> p.index < |cands| && p.index !in used && cands[p.index].section.content != "")
      && (p.LastResort? ==> p.index == |cands| - 1)
      && (p.NoPick? <==> |cands| == 0)
    ensures intended.Some? && FirstFrom(|cands|, KeyTest(cands, used, intended.value), 0).Some? ==>
      Choose(cands, used, intended, lowered) == Fresh(FirstFrom(|cands|, KeyTest(cands, used, intended.value), 0).value)
  {
  }

  /** The index a pick consumes. */
  function Chosen(p: Pick): Option<nat> {
    match p
    case Fresh(i) => Some(i)
    case LastResort(i) => Some(i)
    case _ => None
  }

  /** `matched_content` for a pick that is not verbatim. */
  function PickedContent(cands: seq<Candidate>, p: Pick): string {
    match p
    case Fresh(i) => if i < |cands| then cands[i].section.content else ""
    case LastResort(i) => if i < |cands| then cands[i].section.content else ""
    case _ => ""
  }

  /** The passes as the source runs them: each pass overwrites `matched_content` and
      `chosen_idx`, and the next runs while the content is empty. */
  method ChooseIndex(cands: seq<Candidate>, used: set<nat>, intended: Option<IntentKey>, lowered: string)
    returns (chosen: Option<nat>, content: string)
    ensures chosen == Chosen(Choose(cands, used, intended, lowered))
    ensures content == PickedContent(cands, Choose(cands, used, intended, lowered))
  {
    content, chosen := "", None;
    if intended.Some? {
      var i := FindFirst(|cands|, KeyTest(cands, used, intended.value));
      if i.Some? {
        content, chosen := cands[i.value].section.content, i;
      }
    }
    if content == "" {
      var i := FindFirst(|cands|, TitleTest(cands, used, lowered));
      if i.Some? {
        content, chosen := cands[i.value].section.content, i;
      }
    }
    if content == "" {
      var i := FindFirst(|cands|, UnusedTest(used));
      if i.Some? {
        content, chosen := cands[i.value].section.content, i;
      }
      if content == "" && |cands| > 0 {
        content, chosen := cands[|cands| - 1].section.content, Some(|cands| - 1);
      }
    }
  }

  // ---------------------------------------------------------------------------------
  // The matching loop
  // ---------------------------------------------------------------------------------

  /** The key intended by the configured title and prompt. */
  function Intended(cfg: SectionSpec, title: string, h: Heuristics): Option<IntentKey> {
    h.guess(title + "\n" + GetOrElse(cfg.prompt, ""))
  }

  /** A generic "Раздел N" title becomes the canonical title of the intended key. */
  function ResultTitle(title: string, intended: Option<IntentKey>, h: Heuristics): string {
    if h.generic(title) && intended.Some? then CanonicalTitle(intended.value) else title
  }

  /** The entry of one configured section and its pick. */
  datatype Match = Match(entry: Section, pick: Pick)

  function MatchOne(cands: seq<Candidate>, used: set<nat>, cfg: SectionSpec, title: string, h: Heuristics): Match {
    if ManualWithContent(cfg) then Match(Section(title, cfg.content.value), Verbatim)
    else
      var intended := Intended(cfg, title, h);
      var p := Choose(cands, used, intended, Lower(title));
      Match(Section(ResultTitle(title, intended, h), PickedContent(cands, p)), p)
  }

  /** A manual section with content is kept verbatim; any other takes the content of its
      pick under its own or canonical title, and the pick is a fresh unused candidate with
      content, the final candidate, or nothing when there are no candidates. */
  lemma MatchOneSpec(cands: seq<Candidate>, used: set<nat>, cfg: SectionSpec, title: string, h: Heuristics)
    ensures var m := MatchOne(cands, used, cfg, title, h);
      (ManualWithContent(cfg) ==> m == Match(Section(title, cfg.content.value), Verbatim))
      && (!ManualWithContent(cfg) ==>
         m.entry.title == ResultTitle(title, Intended(cfg, title, h), h)
         && m.entry.content == PickedContent(cands, m.pick)
         && m.pick != Verbatim
         && (m.pick.Fresh? ==> m.pick.index < |cands| && cands[m.pick.index].section.content != ""
                               && m.pick.index !in used)
         && (m.pick.LastResort? ==> m.pick.index == |cands| - 1)
         && (m.pick.NoPick? <==> |cands| == 0))
  {
    if !ManualWithContent(cfg) {
      ChooseSpec(cands, used, Intended(cfg, title, h), Lower(title));
    }
  }

  /** The set a pick adds to `used_indices`. */
  function Consumed(p: Pick): set<nat> {
    match Chosen(p)
    case Some(i) => {i}
    case None => {}
  }

  /** The indices the picks have consumed. */
  function UsedBy(picks: seq<Pick>): set<nat> {
    if |picks| == 0 then {} else UsedBy(picks[..|picks| - 1]) + Consumed(picks[|picks| - 1])
  }

  /** The loop's state: `result_sections`, the picks so far, and `used_indices`. */
  datatype MatchState = MatchState(result: seq<Section>, picks: seq<Pick>, used: set<nat>)

  /** How one configured section, with a title, is matched given the used indices. */
  type Matcher = (set<nat>, SectionSpec, string) -> Match

  function MatcherOf(cands: seq<Candidate>, h: Heuristics): Matcher {
    (used: set<nat>, cfg: SectionSpec, title: string) => MatchOne(cands, used, cfg, title, h)
  }

  /** The state after the first configured sections; `None` once one lacks a title
      (`section_config["title"]` raises). */
  function MatchAll(configs: seq<SectionSpec>, one: Matcher): Option<MatchState> {
    if |configs| == 0 then Some(MatchState([], [], {}))
    else
      var cfg := configs[|configs| - 1];
      match MatchAll(configs[..|configs| - 1], one)
      case None => None
      case Some(st) =>
        if cfg.title.None? then None
        else
          var m := one(st.used, cfg, cfg.title.value);
          Some(MatchState(st.result + [m.entry], st.picks + [m.pick], st.used + Consumed(m.pick)))
  }

  /** One turn of the matching loop. */
  method MatchConfig(cands: seq<Candidate>, used: set<nat>, cfg: SectionSpec, title: string, h: Heuristics)
    returns (entry: Section, chosen: Option<nat>)
    ensures entry == MatchOne(cands, used, cfg, title, h).entry
    ensures chosen == Chosen(MatchOne(cands, used, cfg, title, h).pick)
  {
    if cfg.mode == Some("manual") && Truthy(cfg.content) {
      return Section(title, cfg.content.value), None;
    }
    var intended := h.guess(title + "\n" + GetOrElse(cfg.prompt, ""));
    var content;
    chosen, content := ChooseIndex(cands, used, intended, Lower(title));
    var resultTitle := title;
    if h.generic(title) && intended.Some? {
      resultTitle := CanonicalTitle(intended.value);
    }
    entry := Section(resultTitle, content);
  }

  /** The matching loop. */
  method MatchSections(cands: seq<Candidate>, configs: seq<SectionSpec>, h: Heuristics) returns (r: Option<seq<Section>>)
    ensures r.Some? <==> MatchAll(configs, MatcherOf(cands, h)).Some?
    ensures r.Some? ==> r.value == MatchAll(configs, MatcherOf(cands, h)).value.result
  {
    var result := [];
    ghost var picks := [];
    var used: set<nat> := {};
    for k := 0 to |configs|
      invariant MatchAll(configs[..k], MatcherOf(cands, h)) == Some(MatchState(result, picks, used))
    {
      if configs[k].title.None? {
        MatchAllNone(configs, MatcherOf(cands, h), k);
        return None;
      }
      result, picks, used := MatchNext(cands, configs, k, h, result, picks, used);
    }
    assert configs[..|configs|] == configs;
    return Some(result);
  }

  /** The body of the matching loop for a configured section with a title. */
  method MatchNext(cands: seq<Candidate>, configs: seq<SectionSpec>, k: nat, h: Heuristics,
                   result: seq<Section>, ghost picks: seq<Pick>, used: set<nat>)
    returns (result': seq<Section>, ghost picks': seq<Pick>, used': set<nat>)
    requires k < |configs| && configs[k].title.Some?
    requires MatchAll(configs[..k], MatcherOf(cands, h)) == Some(MatchState(result, picks, used))
    ensures MatchAll(configs[..k + 1], MatcherOf(cands, h)) == Some(MatchState(result', picks', used'))
  {
    var cfg := configs[k];
    ghost var m := MatchOne(cands, used, cfg, cfg.title.value, h);
    assert configs[..k + 1][..k] == configs[..k] && configs[..k + 1][k] == cfg;
    assert MatchAll(configs[..k + 1], MatcherOf(cands, h))
      == Some(MatchState(result + [m.entry], picks + [m.pick], used + Consumed(m.pick)));
    var entry, chosen := MatchConfig(cands, used, cfg, cfg.title.value, h);
    picks' := picks + [m.pick];
    used' := used;
    if chosen.Some? {
      used' := used + {chosen.value};
    }
    assert used' == used + Consumed(m.pick);
    result' := result + [entry];
  }

  /** A configured section without a title makes the whole matching fail. */
  lemma {:induction false} MatchAllNone(configs: seq<SectionSpec>, one: Matcher, k: nat)
    requires k < |configs| && configs[k].title.None?
    ensures MatchAll(configs, one).None?
    decreases |configs|
  {
    var init := configs[..|configs| - 1];
    if k < |configs| - 1 {
      assert init[k] == configs[k];
      MatchAllNone(init, one, k);
    }
  }

  // ---------------------------------------------------------------------------------
  // What the matching promises
  // ---------------------------------------------------------------------------------

  /** The matching succeeds exactly when every configured section has a title. */
  lemma {:induction false} MatchAllSome(configs: seq<SectionSpec>, one: Matcher)
    ensures MatchAll(configs, one).Some? <==> AllTitled(configs)
  {
    if |configs| > 0 {
      var init := configs[..|configs| - 1];
      MatchAllSome(init, one);
      assert forall k :: 0 <= k < |init| ==> init[k] == configs[k];
    }
  }

  /** One entry and one pick per configured section, and `used_indices` is exactly what
      the picks consumed. */
  lemma {:induction false} MatchAllShape(configs: seq<SectionSpec>, one: Matcher)
    requires MatchAll(configs, one).Some?
    ensures var st := MatchAll(configs, one).value;
      |st.result| == |configs| && |st.picks| == |configs| && st.used == UsedBy(st.picks)
  {
    if |configs| > 0 {
      var init := configs[..|configs| - 1];
      MatchAllShape(init, one);
      var st := MatchAll(configs, one).value;
      assert st.picks[..|st.picks| - 1] == MatchAll(init, one).value.picks;
    }
  }

  /** Entry `k` and pick `k` are those of configured section `k` given the indices the
      earlier picks consumed. */
  lemma {:induction false} MatchAllAt(configs: seq<SectionSpec>, one: Matcher)
    requires MatchAll(configs, one).Some?
    ensures |MatchAll(configs, one).value.result| == |configs| && |MatchAll(configs, one).value.picks| == |configs|
    ensures forall k :: 0 <= k < |configs| ==>
      configs[k].title.Some?
      && Match(MatchAll(configs, one).value.result[k], MatchAll(configs, one).value.picks[k])
         == one(UsedBy(MatchAll(configs, one).value.picks[..k]), configs[k], configs[k].title.value)
  {
    MatchAllShape(configs, one);
    if |configs| > 0 {
      var init := configs[..|configs| - 1];
      MatchAllAt(init, one);
      var before := MatchAll(init, one).value;
      var st := MatchAll(configs, one).value;
      MatchAllStep(configs, one);
      forall k | 0 <= k < |configs|
        ensures configs[k].title.Some?
        ensures Match(st.result[k], st.picks[k]) == one(UsedBy(st.picks[..k]), configs[k], configs[k].title.value)
      {
        if k < |init| {
          assert init[k] == configs[k];
          assert st.picks[..k] == before.picks[..k];
          assert st.result[k] == before.result[k] && st.picks[k] == before.picks[k];
        } else {
          MatchAllShape(init, one);
          assert st.picks[..k] == before.picks;
        }
      }
    }
  }

  /** The last step of `MatchAll`, spelled out. */
  lemma MatchAllStep(configs: seq<SectionSpec>, one: Matcher)
    requires |configs| > 0 && MatchAll(configs, one).Some?
    ensures var before := MatchAll(configs[..|configs| - 1], one);
      var cfg := configs[|configs| - 1];
      before.Some? && cfg.title.Some?
      && var m := one(before.value.used, cfg, cfg.title.value);
         MatchAll(configs, one).value
         == MatchState(before.value.result + [m.entry], before.value.picks + [m.pick], before.value.used + Consumed(m.pick))
  {
  }

  /** An index consumed by an earlier pick is in the set of indices consumed before a
      later one. */
  lemma {:induction false} UsedByHas(picks: seq<Pick>, a: nat, b: nat)
    requires a < b <= |picks| && Chosen(picks[a]).Some?
    ensures Chosen(picks[a]).value in UsedBy(picks[..b])
    decreases b
  {
    var prefix := picks[..b];
    assert prefix[..b - 1] == picks[..b - 1];
    if a < b - 1 {
      UsedByHas(picks, a, b - 1);
    }
  }

  /** One entry per configured section, in order. A manual section with content keeps it
      verbatim. Every other section takes the content of its pick, under its own title or,
      for a generic "Раздел N" title with an intent, the canonical one. A fresh pick is a
      parsed section with content that no earlier section consumed; any other pick is the
      final parsed section. */
  lemma MatchAllSpec(cands: seq<Candidate>, configs: seq<SectionSpec>, h: Heuristics)
    requires MatchAll(configs, MatcherOf(cands, h)).Some?
    ensures var st := MatchAll(configs, MatcherOf(cands, h)).value;
      |st.result| == |configs| && |st.picks| == |configs|
      && forall k :: 0 <= k < |configs| ==>
           configs[k].title.Some? &&
           var title := configs[k].title.value;
           (ManualWithContent(configs[k]) ==>
              st.result[k] == Section(title, configs[k].content.value) && st.picks[k] == Verbatim)
           && (!ManualWithContent(configs[k]) ==>
              st.result[k].title == ResultTitle(title, Intended(configs[k], title, h), h)
              && st.result[k].content == PickedContent(cands, st.picks[k])
              && st.picks[k] != Verbatim
              && (st.picks[k].Fresh? ==>
                    st.picks[k].index < |cands| && cands[st.picks[k].index].section.content != ""
                    && st.picks[k].index !in UsedBy(st.picks[..k]))
              && (st.picks[k].LastResort? ==> st.picks[k].index == |cands| - 1)
              && (st.picks[k].NoPick? <==> |cands| == 0))
  {
    MatchAllAt(configs, MatcherOf(cands, h));
    var st := MatchAll(configs, MatcherOf(cands, h)).value;
    forall k | 0 <= k < |configs| {
      MatchOneSpec(cands, UsedBy(st.picks[..k]), configs[k], configs[k].title.value, h);
    }
  }

  /** Each parsed section is consumed at most once by the key, title and order passes: a
      fresh pick differs from every index an earlier section consumed. */
  lemma FreshPicksUnused(cands: seq<Candidate>, configs: seq<SectionSpec>, h: Heuristics)
    requires MatchAll(configs, MatcherOf(cands, h)).Some?
    ensures var picks := MatchAll(configs, MatcherOf(cands, h)).value.picks;
      forall a, b :: 0 <= a < b < |picks| && picks[b].Fresh? && Chosen(picks[a]).Some? ==>
        picks[b].index != Chosen(picks[a]).value
  {
    MatchAllSpec(cands, configs, h);
    var picks := MatchAll(configs, MatcherOf(cands, h)).value.picks;
    forall a, b | 0 <= a < b < |picks| && picks[b].Fresh? && Chosen(picks[a]).Some?
      ensures picks[b].index != Chosen(picks[a]).value
    {
      UsedByHas(picks, a, b);
    }
  }

  // ---------------------------------------------------------------------------------
  // parse_sections_from_content
  // ---------------------------------------------------------------------------------

  /** `parse_sections_from_content(content, section_configs)` of `run_generation`, the
      section headers being recognised by `header`. */
  function RobustPreview(content: string, configs: seq<SectionSpec>, header: string -> Option<string>): Option<seq<Section>> {
    if Strip(content) == "" then NoContentPreview(configs)
    else
      var cands := Candidates(SourceSections(content, header), GuessKey);
      match MatchAll(configs, MatcherOf(cands, SourceHeuristics()))
      case None => None
      case Some(st) => Some(st.result)
  }

  /** The whole function: the placeholder preview for blank text, otherwise read the parsed
      sections, guess their keys and match the configured sections to them. */
  method RobustParse(content: string, configs: seq<SectionSpec>, header: string -> Option<string>)
    returns (r: Option<seq<Section>>)
    ensures r == RobustPreview(content, configs, header)
  {
    if Strip(content) == "" {
      r := Placeholders(configs);
      return;
    }
    var parsed := ReadSections(content, header);
    var cands := GuessAll(parsed, GuessKey);
    r := MatchSections(cands, configs, SourceHeuristics());
  }

  /** The preview exists exactly when every configured section has a title, and then has
      one entry per configured section. Blank text gives every section the placeholder.
      Otherwise a manual section with content keeps it verbatim, and every other section
      receives the content of one of the parsed sections, under its own title unless that
      title is a generic "Раздел N" one renamed to the canonical title of its intent. */
  lemma RobustPreviewSpec(content: string, configs: seq<SectionSpec>, header: string -> Option<string>)
    ensures RobustPreview(content, configs, header).Some? <==> AllTitled(configs)
    ensures RobustPreview(content, configs, header).Some? ==>
      var r := RobustPreview(content, configs, header).value;
      var parsed := SourceSections(content, header);
      |r| == |configs|
      && forall k :: 0 <= k < |configs| ==>
           configs[k].title.Some?
           && (Strip(content) == "" ==> r[k] == Section(configs[k].title.value, NoContent))
           && (Strip(content) != "" && ManualWithContent(configs[k]) ==>
                 r[k] == Section(configs[k].title.value, configs[k].content.value))
           && (Strip(content) != "" && !ManualWithContent(configs[k]) ==>
                 (exists i :: 0 <= i < |parsed| && r[k].content == parsed[i].content)
                 && (r[k].title != configs[k].title.value ==>
                       GenericTitle(configs[k].title.value)
                       && GuessKey(configs[k].title.value + "\n" + GetOrElse(configs[k].prompt, "")).Some?
                       && r[k].title == CanonicalTitle(GuessKey(configs[k].title.value + "\n" + GetOrElse(configs[k].prompt, "")).value)))
  {
    NoContentPreviewSpec(configs);
    if Strip(content) != "" {
      var parsed := SourceSections(content, header);
      var cands := Candidates(parsed, GuessKey);
      MatchAllSome(configs, MatcherOf(cands, SourceHeuristics()));
      if AllTitled(configs) {
        MatchAllSpec(cands, configs, SourceHeuristics());
        CandidatesSpec(parsed, GuessKey);
        var st := MatchAll(configs, MatcherOf(cands, SourceHeuristics())).value;
        forall k | 0 <= k < |configs| && !ManualWithContent(configs[k])
          ensures exists i :: 0 <= i < |parsed| && st.result[k].content == parsed[i].content
        {
          var i := Chosen(st.picks[k]).value;
          assert st.result[k].content == parsed[i].content;
        }
      }
    }
  }
}
