/**
 * sop_generator/config/agent_config.py: token-usage accounting. `_normalize_usage` reads the
 * `usage` object of a chat reply, `_accumulate_usage` adds one usage record into a running
 * total in place, and `_format_usage_for_log` renders a total for the log.
 */
module TokenUsage {
  import opened Text
  import opened Wrappers
  import opened Json

  const PromptTokens: string := "prompt_tokens"
  const CompletionTokens: string := "completion_tokens"
  const TotalTokens: string := "total_tokens"

  /** The usage keys, in the order the source visits them. */
  const TokenKeys: seq<string> := [PromptTokens, CompletionTokens, TotalTokens]

  /** `usage.get(key, 0)`. */
  function GetOr0(u: map<string, int>, key: string): int {
    if key in u then u[key] else 0
  }

  /** The counts kept from the first `n` token keys: a key is kept, as `int(value)`, when
      its value is a number. */
  function KeptCounts(raw: map<string, Json>, n: nat): map<string, int>
    requires n <= |TokenKeys|
  {
    if n == 0 then map[]
    else
      var key := TokenKeys[n - 1];
      var kept := KeptCounts(raw, n - 1);
      if key in raw && IsNumber(raw[key]) then kept[key := NumberValue(raw[key])] else kept
  }

  /** What `_normalize_usage` returns; `None` stands for a value that is not a dict. */
  function NormalizedUsage(raw: Option<map<string, Json>>): map<string, int> {
    if raw.None? then map[]
    else
      var u := KeptCounts(raw.value, |TokenKeys|);
      if TotalTokens !in u && |u| > 0 then u[TotalTokens := GetOr0(u, PromptTokens) + GetOr0(u, CompletionTokens)]
      else u
  }

  /** `_normalize_usage` (sop_generator/config/agent_config.py:412-422). */
  method NormalizeUsage(raw: Option<map<string, Json>>) returns (usage: map<string, int>)
    ensures usage == NormalizedUsage(raw)
  {
    if raw.None? {
      return map[];
    }
    var d := raw.value;
    usage := map[];
    for n := 0 to |TokenKeys|
      invariant usage == KeptCounts(d, n)
    {
      var key := TokenKeys[n];
      if key in d && IsNumber(d[key]) {
        usage := usage[key := NumberValue(d[key])];
      }
    }
    if TotalTokens !in usage && |usage| > 0 {
      usage := usage[TotalTokens := GetOr0(usage, PromptTokens) + GetOr0(usage, CompletionTokens)];
    }
  }

  /** A key that is kept holds a number in the raw usage. */
  predicate KeptAs(raw: map<string, Json>, u: map<string, int>, key: string) {
    (key in u <==> key in raw && IsNumber(raw[key])) && (key in u ==> u[key] == NumberValue(raw[key]))
  }

  /** The counts kept from all three keys: each key holds a number exactly when it is kept. */
  lemma KeptCountsSpec(raw: map<string, Json>)
    ensures var u := KeptCounts(raw, 3);
      (forall k :: k in u ==> k == PromptTokens || k == CompletionTokens || k == TotalTokens)
      && KeptAs(raw, u, PromptTokens) && KeptAs(raw, u, CompletionTokens) && KeptAs(raw, u, TotalTokens)
  {
    assert TokenKeys[0] == PromptTokens && TokenKeys[1] == CompletionTokens && TokenKeys[2] == TotalTokens;
    var u0 := KeptCounts(raw, 0);
    var u1 := KeptCounts(raw, 1);
    var u2 := KeptCounts(raw, 2);
    var u3 := KeptCounts(raw, 3);
    assert u0 == map[];
    assert u1 == if PromptTokens in raw && IsNumber(raw[PromptTokens]) then u0[PromptTokens := NumberValue(raw[PromptTokens])] else u0;
    assert u2 == if CompletionTokens in raw && IsNumber(raw[CompletionTokens]) then u1[CompletionTokens := NumberValue(raw[CompletionTokens])] else u1;
    assert u3 == if TotalTokens in raw && IsNumber(raw[TotalTokens]) then u2[TotalTokens := NumberValue(raw[TotalTokens])] else u2;
  }

  /** The normalised usage holds only the three token keys; prompt and completion counts
      are kept exactly when they are numbers; a numeric total is kept, a missing one is the
      sum of the other two (missing ones counting 0) as soon as one of them is present; and
      the result is empty exactly when no token key holds a number. */
  lemma NormalizedUsageSpec(raw: map<string, Json>)
    ensures var u := NormalizedUsage(Some(raw));
      (forall k :: k in u ==> k == PromptTokens || k == CompletionTokens || k == TotalTokens)
      && KeptAs(raw, u, PromptTokens) && KeptAs(raw, u, CompletionTokens)
      && (TotalTokens in raw && IsNumber(raw[TotalTokens]) ==> TotalTokens in u && u[TotalTokens] == NumberValue(raw[TotalTokens]))
      && (!(TotalTokens in raw && IsNumber(raw[TotalTokens])) && (PromptTokens in u || CompletionTokens in u) ==>
          TotalTokens in u && u[TotalTokens] == GetOr0(u, PromptTokens) + GetOr0(u, CompletionTokens))
      && (u == map[] <==> forall k :: k in TokenKeys ==> !(k in raw && IsNumber(raw[k])))
  {
    KeptCountsSpec(raw);
    var kept := KeptCounts(raw, 3);
    var u := NormalizedUsage(Some(raw));
    if u == map[] {
      assert PromptTokens !in u && CompletionTokens !in u && TotalTokens !in u;
      assert kept == map[];
    }
    if forall k :: k in TokenKeys ==> !(k in raw && IsNumber(raw[k])) {
      assert TokenKeys[0] == PromptTokens && TokenKeys[1] == CompletionTokens && TokenKeys[2] == TotalTokens;
      assert kept == map[];
    }
  }

  /** A usage record added into a running total: each key's value is added to the total
      under that key (0 when absent); a missing or empty record leaves the total as it was. */
  function Accumulated(target: map<string, int>, usage: Option<map<string, int>>): map<string, int> {
    if usage.None? || usage.value == map[] then target
    else map k | k in target.Keys + usage.value.Keys :: GetOr0(target, k) + GetOr0(usage.value, k)
  }

  /** The records of `usage` whose keys are in `done`, added into `target`. */
  function AddedKeys(target: map<string, int>, usage: map<string, int>, done: set<string>): map<string, int> {
    map k | k in target.Keys + (done * usage.Keys) :: GetOr0(target, k) + (if k in done then GetOr0(usage, k) else 0)
  }

  /** Adding one more key into the running total. */
  lemma AddedKeysStep(target: map<string, int>, usage: map<string, int>, done: set<string>, k: string)
    requires k in usage && k !in done
    ensures AddedKeys(target, usage, done + {k})
      == AddedKeys(target, usage, done)[k := GetOr0(AddedKeys(target, usage, done), k) + usage[k]]
  {
    var a := AddedKeys(target, usage, done + {k});
    var b := AddedKeys(target, usage, done)[k := GetOr0(AddedKeys(target, usage, done), k) + usage[k]];
    assert a.Keys == b.Keys;
    forall j | j in a.Keys ensures a[j] == b[j] {
    }
  }

  /** One turn of the accumulation loop: `target[key] = target.get(key, 0) + int(value)`. */
  method AddOne(target: map<string, int>, usage: map<string, int>, done: set<string>, c: map<string, int>, k: string)
    returns (r: map<string, int>)
    requires k in usage && k !in done && c == AddedKeys(target, usage, done)
    ensures r == AddedKeys(target, usage, done + {k})
  {
    AddedKeysStep(target, usage, done, k);
    r := c[k := GetOr0(c, k) + usage[k]];
  }

  /** The `for key, value in usage.items()` loop of `_accumulate_usage`. */
  method AddAll(target: map<string, int>, usage: map<string, int>) returns (c: map<string, int>)
    ensures c == AddedKeys(target, usage, usage.Keys)
  {
    c := target;
    var done: set<string> := {};
    AddedNoKeys(target, usage);
    while done != usage.Keys
      invariant done <= usage.Keys
      invariant c == AddedKeys(target, usage, done)
      decreases |usage.Keys - done|
    {
      var k :| k in usage.Keys - done;
      c := AddOne(target, usage, done, c, k);
      done := done + {k};
    }
  }

  /** A running total of token counts, updated in place. */
  class UsageTotals {
    var counts: map<string, int>

    /** A fresh total with every token key at 0, as `iterative_generate_until_approved`
        starts it. */
    constructor ()
      ensures counts == map[PromptTokens := 0, CompletionTokens := 0, TotalTokens := 0]
    {
      counts := map[PromptTokens := 0, CompletionTokens := 0, TotalTokens := 0];
    }

    /** `_accumulate_usage(target, usage)` (sop_generator/config/agent_config.py:425-430). */
    method Accumulate(usage: Option<map<string, int>>)
      modifies this
      ensures counts == Accumulated(old(counts), usage)
    {
      if usage.None? || usage.value == map[] {
        return;
      }
      var c := AddAll(counts, usage.value);
      AddedAllKeys(counts, usage.value);
      counts := c;
    }
  }

  /** With no key added, the running total is the target. */
  lemma AddedNoKeys(target: map<string, int>, usage: map<string, int>)
    ensures AddedKeys(target, usage, {}) == target
  {
    var a := AddedKeys(target, usage, {});
    assert a.Keys == target.Keys;
  }

  /** With every key added, the running total is the accumulated one. */
  lemma AddedAllKeys(target: map<string, int>, usage: map<string, int>)
    requires usage != map[]
    ensures AddedKeys(target, usage, usage.Keys) == Accumulated(target, Some(usage))
  {
    assert usage.Keys * usage.Keys == usage.Keys;
  }

  /** Accumulation per key: the new total under `k` is the old one plus the record's value,
      each counting 0 when absent, and no key disappears. */
  lemma AccumulatedPerKey(target: map<string, int>, usage: Option<map<string, int>>, k: string)
    ensures GetOr0(Accumulated(target, usage), k) == GetOr0(target, k) + (if usage.Some? then GetOr0(usage.value, k) else 0)
    ensures k in target ==> k in Accumulated(target, usage)
  {
  }

  /** Adding two records one after the other is adding their sum. */
  lemma AccumulatedTwice(target: map<string, int>, u1: map<string, int>, u2: map<string, int>)
    ensures Accumulated(Accumulated(target, Some(u1)), Some(u2)) == Accumulated(target, Some(Accumulated(u1, Some(u2))))
  {
    var l := Accumulated(Accumulated(target, Some(u1)), Some(u2));
    var r := Accumulated(target, Some(Accumulated(u1, Some(u2))));
    forall k ensures GetOr0(l, k) == GetOr0(r, k) {
      AccumulatedPerKey(Accumulated(target, Some(u1)), Some(u2), k);
      AccumulatedPerKey(target, Some(u1), k);
      AccumulatedPerKey(target, Some(Accumulated(u1, Some(u2))), k);
      AccumulatedPerKey(u1, Some(u2), k);
    }
    if u1 == map[] && u2 != map[] {
      assert Accumulated(u1, Some(u2)).Keys == u2.Keys;
    }
    assert l.Keys == r.Keys;
  }

  /** The log label of a token key. */
  function Label(key: string): string {
    if key == PromptTokens then "prompt" else if key == CompletionTokens then "completion" else "total"
  }

  /** The log parts for the first `n` token keys: "label=value" for each key present. */
  function UsageParts(usage: map<string, int>, n: nat): seq<string>
    requires n <= |TokenKeys|
  {
    if n == 0 then []
    else
      var key := TokenKeys[n - 1];
      UsageParts(usage, n - 1) + (if key in usage then [Label(key) + "=" + IntToString(usage[key])] else [])
  }

  const NoData: string := "нет данных"

  /** What `_format_usage_for_log` returns. */
  function UsageLog(usage: map<string, int>): string {
    var parts := UsageParts(usage, |TokenKeys|);
    if |parts| > 0 then Join(parts, ", ") else NoData
  }

  /** `_format_usage_for_log` (sop_generator/config/agent_config.py:433-443). */
  method FormatUsageForLog(usage: map<string, int>) returns (s: string)
    ensures s == UsageLog(usage)
  {
    var parts: seq<string> := [];
    for n := 0 to |TokenKeys|
      invariant parts == UsageParts(usage, n)
    {
      var key := TokenKeys[n];
      if key in usage {
        parts := parts + [Label(key) + "=" + IntToString(usage[key])];
      }
    }
    if |parts| > 0 {
      s := Join(parts, ", ");
    } else {
      s := NoData;
    }
  }

  /** The log reads "нет данных" exactly when no token key is present; otherwise it starts
      with the first key present, in the order prompt, completion, total. */
  lemma UsageLogSpec(usage: map<string, int>)
    ensures UsageLog(usage) == NoData <==> PromptTokens !in usage && CompletionTokens !in usage && TotalTokens !in usage
    ensures PromptTokens in usage ==> StartsWith(UsageLog(usage), "prompt=" + IntToString(usage[PromptTokens]))
  {
    var parts := UsageParts(usage, 3);
    UsagePartsThree(usage);
    if |parts| > 0 {
      JoinStartsWithFirst(parts, ", ");
      var first := parts[0];
      assert |first| > 0 && first[0] != NoData[0];
      assert UsageLog(usage)[0] == first[0];
    }
  }

  /** The part for one key, when the key is present. */
  function PartFor(usage: map<string, int>, key: string): seq<string> {
    if key in usage then [Label(key) + "=" + IntToString(usage[key])] else []
  }

  /** The three parts, in key order. */
  lemma UsagePartsThree(usage: map<string, int>)
    ensures UsageParts(usage, 3) == PartFor(usage, PromptTokens) + PartFor(usage, CompletionTokens) + PartFor(usage, TotalTokens)
  {
    assert TokenKeys[0] == PromptTokens && TokenKeys[1] == CompletionTokens && TokenKeys[2] == TotalTokens;
    assert UsageParts(usage, 1) == PartFor(usage, PromptTokens);
    assert UsageParts(usage, 2) == UsageParts(usage, 1) + PartFor(usage, CompletionTokens);
  }
}
