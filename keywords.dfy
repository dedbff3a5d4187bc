/**
 * First-match keyword classification: an `if / elif` chain whose every test is
 * `any(keyword in text for keyword in group)`, used by the classifiers in
 * sop_generator/utils/advanced_prompts.py and app_local.py.
 */
module Keywords {
  import opened Text

  /** One test of the chain: a keyword group and the answer given when one of its
      keywords occurs. */
  datatype Rule<T> = Rule(keywords: seq<string>, answer: T)

  /** The position of the first rule, from `k` on, one of whose keywords occurs in `text`,
      or `|rules|` when none does. */
  function FirstHitFrom<T>(text: string, rules: seq<Rule<T>>, k: nat): (r: nat)
    requires k <= |rules|
    ensures k <= r <= |rules|
    decreases |rules| - k
  {
    if k == |rules| then k
    else if ContainsAny(text, rules[k].keywords) then k
    else FirstHitFrom(text, rules, k + 1)
  }

  function FirstHit<T>(text: string, rules: seq<Rule<T>>): nat {
    FirstHitFrom(text, rules, 0)
  }

  /** The answer of the first rule that fires, or `default` when none does. */
  function FirstMatch<T>(text: string, rules: seq<Rule<T>>, default: T): T {
    var k := FirstHit(text, rules);
    if k < |rules| then rules[k].answer else default
  }

  lemma {:induction false} FirstHitFromSpec<T>(text: string, rules: seq<Rule<T>>, k: nat)
    requires k <= |rules|
    ensures FirstHitFrom(text, rules, k) < |rules| ==> ContainsAny(text, rules[FirstHitFrom(text, rules, k)].keywords)
    ensures forall j :: k <= j < FirstHitFrom(text, rules, k) ==> !ContainsAny(text, rules[j].keywords)
    decreases |rules| - k
  {
    if k < |rules| && !ContainsAny(text, rules[k].keywords) {
      FirstHitFromSpec(text, rules, k + 1);
    }
  }

  /** The chosen rule fires and no earlier rule does; `default` is given exactly when no
      rule fires (provided no rule answers `default` itself). */
  lemma FirstMatchSpec<T>(text: string, rules: seq<Rule<T>>, default: T)
    ensures FirstHit(text, rules) < |rules| ==>
      ContainsAny(text, rules[FirstHit(text, rules)].keywords)
      && FirstMatch(text, rules, default) == rules[FirstHit(text, rules)].answer
    ensures forall j :: 0 <= j < FirstHit(text, rules) ==> !ContainsAny(text, rules[j].keywords)
    ensures FirstHit(text, rules) == |rules| <==> forall j :: 0 <= j < |rules| ==> !ContainsAny(text, rules[j].keywords)
    ensures (forall j :: 0 <= j < |rules| ==> rules[j].answer != default) ==>
      (FirstMatch(text, rules, default) == default <==> forall j :: 0 <= j < |rules| ==> !ContainsAny(text, rules[j].keywords))
  {
    FirstHitFromSpec(text, rules, 0);
  }
}
