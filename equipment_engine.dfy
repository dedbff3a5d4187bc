/**
 * sop_generator/utils/equipment_engine.py: the equipment classifier, the extraction of
 * equipment context from reference text, the choice of content builder, the numbering of
 * the operating steps and the summary of the equipment database. Regular-expression
 * results are inputs: a row of hit counts per text for the classifier, the list of
 * matches per pattern for the context extractor.
 */
module EquipmentEngine {
  import opened Wrappers
  import opened Text

  datatype EquipmentType =
    | Chromatography
    | Spectroscopy
    | Microscopy
    | AnalyticalBalance
    | Centrifuge
    | ThermalAnalyzer
    | GenericAnalytical

  /** `EquipmentType.value`. */
  function Value(t: EquipmentType): string {
    match t
    case Chromatography => "chromatography"
    case Spectroscopy => "spectroscopy"
    case Microscopy => "microscopy"
    case AnalyticalBalance => "analytical_balance"
    case Centrifuge => "centrifuge"
    case ThermalAnalyzer => "thermal_analyzer"
    case GenericAnalytical => "generic_analytical"
  }

  lemma ValueInjective(a: EquipmentType, b: EquipmentType)
    ensures Value(a) == Value(b) ==> a == b
  {
    if Value(a) == Value(b) {
      assert Value(a)[0] == Value(b)[0] && |Value(a)| == |Value(b)|;
    }
  }

  // ---------------------------------------------------------------------------------
  // identify_equipment_type
  // ---------------------------------------------------------------------------------

  /** The number of types the classifier scores. */
  const NumTypes: nat := 6

  /** The scored types, in the order of the pattern table. */
  const Classified: seq<EquipmentType> :=
    [Chromatography, Spectroscopy, Microscopy, AnalyticalBalance, Centrifuge, ThermalAnalyzer]

  /** The position of a type in the pattern table; the unscored type comes last. */
  function Rank(t: EquipmentType): (k: nat)
    ensures k <= NumTypes
    ensures k < NumTypes <==> t != GenericAnalytical
    ensures k < NumTypes ==> Classified[k] == t
  {
    match t
    case Chromatography => 0
    case Spectroscopy => 1
    case Microscopy => 2
    case AnalyticalBalance => 3
    case Centrifuge => 4
    case ThermalAnalyzer => 5
    case GenericAnalytical => 6
  }

  /** A row of counts, one per scored type. */
  predicate IsRow(r: seq<nat>) {
    |r| == NumTypes
  }

  predicate AreRows(docs: seq<seq<nat>>) {
    forall d :: 0 <= d < |docs| ==> IsRow(docs[d])
  }

  /** One reference document's hits added, with weight 2, to the scores. */
  function AddDocument(scores: seq<nat>, doc: seq<nat>): (r: seq<nat>)
    requires IsRow(scores) && IsRow(doc)
    ensures IsRow(r)
  {
    seq(NumTypes, i requires 0 <= i < NumTypes => scores[i] + 2 * doc[i])
  }

  /** The scores after the description's hits `desc` and the reference documents' hits. */
  function Weighted(desc: seq<nat>, docs: seq<seq<nat>>): (r: seq<nat>)
    requires IsRow(desc) && AreRows(docs)
    ensures IsRow(r)
  {
    if |docs| == 0 then desc
    else AddDocument(Weighted(desc, docs[..|docs| - 1]), docs[|docs| - 1])
  }

  /** The hits of scored type `i` summed over the documents. */
  function DocumentHits(docs: seq<seq<nat>>, i: nat): nat
    requires AreRows(docs) && i < NumTypes
  {
    if |docs| == 0 then 0 else DocumentHits(docs[..|docs| - 1], i) + docs[|docs| - 1][i]
  }

  /** Each type's score is its description hits plus twice its reference-document hits. */
  lemma {:induction false} WeightedSpec(desc: seq<nat>, docs: seq<seq<nat>>)
    requires IsRow(desc) && AreRows(docs)
    ensures forall i :: 0 <= i < NumTypes ==> Weighted(desc, docs)[i] == desc[i] + 2 * DocumentHits(docs, i)
  {
    if |docs| > 0 {
      WeightedSpec(desc, docs[..|docs| - 1]);
    }
  }

  /** The first position among the first `n` whose score is largest. */
  function FirstMax(s: seq<nat>, n: nat): (k: nat)
    requires 1 <= n <= |s|
    ensures k < n
  {
    if n == 1 then 0
    else
      var b := FirstMax(s, n - 1);
      if s[n - 1] > s[b] then n - 1 else b
  }

  lemma {:induction false} FirstMaxSpec(s: seq<nat>, n: nat)
    requires 1 <= n <= |s|
    ensures forall j :: 0 <= j < n ==> s[j] <= s[FirstMax(s, n)]
    ensures forall j :: 0 <= j < FirstMax(s, n) ==> s[j] < s[FirstMax(s, n)]
  {
    if n > 1 {
      FirstMaxSpec(s, n - 1);
    }
  }

  /** The type `identify_equipment_type` returns for the given scores. */
  function Identified(scores: seq<nat>): EquipmentType
    requires IsRow(scores)
  {
    var k := FirstMax(scores, NumTypes);
    if scores[k] > 0 then Classified[k] else GenericAnalytical
  }

  /** The generic type is returned exactly when every score is 0; otherwise the result is
      the first type, in table order, with the largest score. */
  lemma IdentifiedSpec(scores: seq<nat>)
    requires IsRow(scores)
    ensures Identified(scores) == GenericAnalytical <==> forall i :: 0 <= i < NumTypes ==> scores[i] == 0
    ensures Identified(scores) != GenericAnalytical ==>
      var k := Rank(Identified(scores));
      k < NumTypes && scores[k] > 0
      && (forall j :: 0 <= j < NumTypes ==> scores[j] <= scores[k])
      && (forall j :: 0 <= j < k ==> scores[j] < scores[k])
  {
    FirstMaxSpec(scores, NumTypes);
    var k := FirstMax(scores, NumTypes);
    if scores[k] > 0 {
      assert Rank(Classified[k]) == k;
    }
  }

  /** The inner loop: one reference document's hits added to the scores. */
  method AddReferenceHits(scores: seq<nat>, doc: seq<nat>) returns (r: seq<nat>)
    requires IsRow(scores) && IsRow(doc)
    ensures r == AddDocument(scores, doc)
  {
    r := scores;
    for i := 0 to NumTypes
      invariant |r| == NumTypes
      invariant forall j :: 0 <= j < i ==> r[j] == scores[j] + 2 * doc[j]
      invariant forall j :: i <= j < NumTypes ==> r[j] == scores[j]
    {
      r := r[i := r[i] + 2 * doc[i]];
    }
  }

  /** `identify_equipment_type` (equipment_engine.py:317-378): `desc` holds the pattern
      hits in the lower-cased description, `docs` those in each reference document. */
  method IdentifyEquipmentType(desc: seq<nat>, docs: seq<seq<nat>>) returns (t: EquipmentType)
    requires IsRow(desc) && AreRows(docs)
    ensures t == Identified(Weighted(desc, docs))
  {
    var scores := desc;
    for d := 0 to |docs|
      invariant scores == Weighted(desc, docs[..d])
    {
      assert docs[..d + 1][..d] == docs[..d];
      scores := AddReferenceHits(scores, docs[d]);
    }
    assert docs[..|docs|] == docs;
    var best := 0;
    for i := 1 to NumTypes
      invariant best == FirstMax(scores, i)
    {
      if scores[i] > scores[best] {
        best := i;
      }
    }
    if scores[best] > 0 {
      t := Classified[best];
    } else {
      t := GenericAnalytical;
    }
  }

  // ---------------------------------------------------------------------------------
  // The equipment database and generate_equipment_specific_content
  // ---------------------------------------------------------------------------------

  datatype Parameter = Parameter(name: string, range: string, tolerance: string, units: string, typicalValues: seq<string>)

  /** An entry of a calibration, maintenance or troubleshooting list; only the number of
      entries is read here. */
  datatype Entry = Entry(fields: map<string, string>)

  datatype EquipmentSpecification = EquipmentSpecification(
    equipmentType: EquipmentType,
    commonModels: seq<string>,
    criticalParameters: seq<Parameter>,
    calibrationRequirements: seq<Entry>,
    maintenanceProcedures: seq<Entry>,
    safetyConsiderations: seq<string>,
    troubleshootingGuide: seq<Entry>,
    regulatoryStandards: seq<string>)

  type Database = map<EquipmentType, EquipmentSpecification>

  /** The types `_initialize_equipment_database` fills in. */
  const DatabaseTypes: set<EquipmentType> := {Chromatography, Spectroscopy, AnalyticalBalance}

  /** The shape of the database the engine builds: three types, each under its own key. */
  predicate IsSourceDatabase(db: Database) {
    db.Keys == DatabaseTypes && forall t :: t in db ==> db[t].equipmentType == t
  }

  /** The section builders `generate_equipment_specific_content` chooses between. */
  datatype Builder =
    | Specifications
    | OperatingProcedures
    | CalibrationProcedures
    | MaintenanceProcedures
    | SafetyProcedures
    | TroubleshootingGuide
    | QualityControl
    | GenericSection(sectionType: string)

  /** The section types with a builder of their own, in the order they are tested. */
  const NamedSections: seq<string> := [
    "equipment_specifications", "operating_procedures", "calibration_procedures",
    "maintenance_procedures", "safety_procedures", "troubleshooting", "quality_control"]

  const NamedBuilders: seq<Builder> := [
    Specifications, OperatingProcedures, CalibrationProcedures, MaintenanceProcedures,
    SafetyProcedures, TroubleshootingGuide, QualityControl]

  /** The builder chosen for a section type. */
  function BuilderFor(sectionType: string): Builder {
    if sectionType == "equipment_specifications" then Specifications
    else if sectionType == "operating_procedures" then OperatingProcedures
    else if sectionType == "calibration_procedures" then CalibrationProcedures
    else if sectionType == "maintenance_procedures" then MaintenanceProcedures
    else if sectionType == "safety_procedures" then SafetyProcedures
    else if sectionType == "troubleshooting" then TroubleshootingGuide
    else if sectionType == "quality_control" then QualityControl
    else GenericSection(sectionType)
  }

  /** The seven named section types get their own builders; any other type gets the
      generic builder, which receives the type itself. */
  lemma BuilderForSpec(sectionType: string)
    ensures BuilderFor(sectionType).GenericSection? <==> sectionType !in NamedSections
    ensures BuilderFor(sectionType).GenericSection? ==> BuilderFor(sectionType).sectionType == sectionType
    ensures forall i :: 0 <= i < |NamedSections| ==> BuilderFor(NamedSections[i]) == NamedBuilders[i]
  {
  }

  /** What `generate_equipment_specific_content` builds from: the specification and the builder. */
  datatype Plan = Plan(spec: EquipmentSpecification, builder: Builder)

  /** `generate_equipment_specific_content` (equipment_engine.py:436-463): a type missing
      from the database is replaced by the generic type, and a missing generic type is a
      `KeyError`, modelled as `None`. */
  function ContentPlan(db: Database, t: EquipmentType, sectionType: string): Option<Plan> {
    var key := if t in db then t else GenericAnalytical;
    if key in db then Some(Plan(db[key], BuilderFor(sectionType))) else None
  }

  /** The lookup succeeds exactly when the type or the generic type is in the database, and
      uses the type's own specification when it is there. */
  lemma ContentPlanSpec(db: Database, t: EquipmentType, sectionType: string)
    ensures ContentPlan(db, t, sectionType).Some? <==> t in db || GenericAnalytical in db
    ensures t in db ==> ContentPlan(db, t, sectionType) == Some(Plan(db[t], BuilderFor(sectionType)))
    ensures t !in db && GenericAnalytical in db ==>
      ContentPlan(db, t, sectionType) == Some(Plan(db[GenericAnalytical], BuilderFor(sectionType)))
  {
  }

  /** With the engine's own database, content can be built only for chromatography,
      spectroscopy and analytical balances: every other type, the generic one included,
      fails with a `KeyError`. */
  lemma SourceDatabaseLookup(db: Database, t: EquipmentType, sectionType: string)
    requires IsSourceDatabase(db)
    ensures ContentPlan(db, t, sectionType).Some? <==> t in DatabaseTypes
    ensures ContentPlan(db, t, sectionType).Some? ==> ContentPlan(db, t, sectionType).value.spec.equipmentType == t
  {
    assert GenericAnalytical !in DatabaseTypes;
  }

  /** A description and documents with no hits at all are classified as generic, for
      which the engine's own database has no entry. */
  lemma NoHitsNoContent(db: Database, desc: seq<nat>, docs: seq<seq<nat>>, sectionType: string)
    requires IsSourceDatabase(db) && IsRow(desc) && AreRows(docs)
    requires forall i :: 0 <= i < NumTypes ==> desc[i] == 0 && DocumentHits(docs, i) == 0
    ensures ContentPlan(db, Identified(Weighted(desc, docs)), sectionType) == None
  {
    WeightedSpec(desc, docs);
    IdentifiedSpec(Weighted(desc, docs));
    SourceDatabaseLookup(db, GenericAnalytical, sectionType);
  }

  // ---------------------------------------------------------------------------------
  // _generate_operating_procedures: the numbered steps
  // ---------------------------------------------------------------------------------

  /** At most this many parameters get a set-up step. */
  const MaxParameterSteps: nat := 4

  /** A numbered step of the operating procedure: a fixed step, or the set-up of a
      parameter to its first typical value. */
  datatype Step =
    | FixedStep(number: nat, title: string)
    | ParameterStep(number: nat, parameter: Parameter, setting: string)

  /** The set-up steps of the given parameters, numbered from 3, or `None` when one has no
      typical value (`typical_values[0]` raises `IndexError`). */
  function ParameterSteps(params: seq<Parameter>): Option<seq<Step>> {
    if |params| == 0 then Some([])
    else
      var init := ParameterSteps(params[..|params| - 1]);
      var p := params[|params| - 1];
      if init.None? || |p.typicalValues| == 0 then None
      else Some(init.value + [ParameterStep(|params| + 2, p, p.typicalValues[0])])
  }

  lemma {:induction false} ParameterStepsSpec(params: seq<Parameter>)
    ensures ParameterSteps(params).Some? <==> forall i :: 0 <= i < |params| ==> |params[i].typicalValues| > 0
    ensures ParameterSteps(params).Some? ==>
      |ParameterSteps(params).value| == |params|
      && forall i :: 0 <= i < |params| ==>
        ParameterSteps(params).value[i] == ParameterStep(i + 3, params[i], params[i].typicalValues[0])
  {
    if |params| > 0 {
      var init := params[..|params| - 1];
      ParameterStepsSpec(init);
      assert forall i :: 0 <= i < |init| ==> init[i] == params[i];
    }
  }

  /** The numbered steps of the operating procedure: two checks, the set-up of the first
      four parameters, then monitoring and result control numbered after ALL parameters. */
  function OperatingSteps(params: seq<Parameter>): Option<seq<Step>> {
    var shown := ParameterSteps(params[..Min(|params|, MaxParameterSteps)]);
    if shown.None? then None
    else
      var n := |params| + 3;
      Some([FixedStep(1, "Визуальный осмотр оборудования"), FixedStep(2, "Проверка подключения к сети")]
        + shown.value
        + [FixedStep(n, "Мониторинг критических параметров"), FixedStep(n + 1, "Контроль качества результатов")])
  }

  /** The step list of `_generate_operating_procedures` (equipment_engine.py:499-538). */
  method OperatingProcedureSteps(params: seq<Parameter>) returns (r: Option<seq<Step>>)
    ensures r == OperatingSteps(params)
  {
    var shown := params[..Min(|params|, MaxParameterSteps)];
    var steps: seq<Step> := [];
    for i := 0 to |shown|
      invariant ParameterSteps(shown[..i]) == Some(steps)
    {
      assert shown[..i + 1][..i] == shown[..i];
      var p := shown[i];
      if |p.typicalValues| == 0 {
        ParameterStepsSpec(shown);
        return None;
      }
      steps := steps + [ParameterStep(i + 3, p, p.typicalValues[0])];
    }
    assert shown[..|shown|] == shown;
    var step := |params| + 3;
    r := Some([FixedStep(1, "Визуальный осмотр оборудования"), FixedStep(2, "Проверка подключения к сети")]
      + steps
      + [FixedStep(step, "Мониторинг критических параметров"), FixedStep(step + 1, "Контроль качества результатов")]);
  }

  /** The steps fail exactly when one of the first four parameters has no typical value;
      otherwise the two checks are 1 and 2, parameter `i` is set up in step `i + 3` with its
      first typical value, and monitoring is numbered `|params| + 3`. */
  lemma OperatingStepsSpec(params: seq<Parameter>)
    ensures OperatingSteps(params).None? <==>
      exists i :: 0 <= i < Min(|params|, MaxParameterSteps) && |params[i].typicalValues| == 0
    ensures OperatingSteps(params).Some? ==>
      var r := OperatingSteps(params).value;
      var m := Min(|params|, MaxParameterSteps);
      |r| == m + 4
      && r[0].number == 1 && r[1].number == 2
      && (forall i :: 0 <= i < m ==> r[i + 2] == ParameterStep(i + 3, params[i], params[i].typicalValues[0]))
      && r[m + 2].number == |params| + 3 && r[m + 3].number == |params| + 4
  {
    var m := Min(|params|, MaxParameterSteps);
    var shown := params[..m];
    ParameterStepsSpec(shown);
    assert forall i :: 0 <= i < m ==> shown[i] == params[i];
  }

  /** The steps are numbered 1, 2, 3, … without a gap exactly when there are at most four
      parameters; with more, the numbers jump from 6 to `|params| + 3`. */
  lemma StepNumbering(params: seq<Parameter>)
    requires OperatingSteps(params).Some?
    ensures (forall i :: 0 <= i < |OperatingSteps(params).value| ==> OperatingSteps(params).value[i].number == i + 1)
      <==> |params| <= MaxParameterSteps
  {
    OperatingStepsSpec(params);
    var r := OperatingSteps(params).value;
    var m := Min(|params|, MaxParameterSteps);
    if |params| <= MaxParameterSteps {
      forall i | 0 <= i < |r| ensures r[i].number == i + 1 {
        if 2 <= i < m + 2 {
          var k := i - 2;
          assert r[k + 2] == ParameterStep(k + 3, params[k], params[k].typicalValues[0]);
        }
      }
    } else {
      assert r[m + 2].number != m + 3;
    }
  }

  // ---------------------------------------------------------------------------------
  // extract_equipment_context
  // ---------------------------------------------------------------------------------

  /** At most this many matches of each model pattern are kept. */
  const ModelCap: nat := 5
  /** At most this many matches of each parameter pattern are kept. */
  const ParameterCap: nat := 10
  /** At most this many matches of each safety pattern are kept. */
  const SafetyCap: nat := 5

  /** A parameter match: its name, its value and its unit, as the three groups of the pattern. */
  datatype ParameterMatch = ParameterMatch(name: string, value: string, unit: string)

  datatype Reading = Reading(value: string, unit: string)

  /** The context dictionary; its "specifications" and "procedures" entries stay empty and
      are not represented. */
  datatype Context = Context(models: seq<string>, parameters: map<string, seq<Reading>>, safetyInfo: seq<string>)

  /** The first `cap` matches of each pattern, pattern by pattern. */
  function Firsts<T>(groups: seq<seq<T>>, cap: nat): seq<T> {
    if |groups| == 0 then []
    else
      var last := groups[|groups| - 1];
      Firsts(groups[..|groups| - 1], cap) + last[..Min(|last|, cap)]
  }

  /** Each pattern contributes at most `cap` matches. */
  lemma {:induction false} FirstsLength<T>(groups: seq<seq<T>>, cap: nat)
    ensures |Firsts(groups, cap)| <= cap * |groups|
  {
    if |groups| > 0 {
      FirstsLength(groups[..|groups| - 1], cap);
    }
  }

  /** Every kept match is one of the first `cap` matches of some pattern. */
  lemma {:induction false} FirstsMembers<T>(groups: seq<seq<T>>, cap: nat, x: T)
    requires x in Firsts(groups, cap)
    ensures exists k, j :: 0 <= k < |groups| && 0 <= j < Min(|groups[k]|, cap) && x == groups[k][j]
  {
    var init := groups[..|groups| - 1];
    var last := groups[|groups| - 1];
    if x in Firsts(init, cap) {
      FirstsMembers(init, cap, x);
      var k, j :| 0 <= k < |init| && 0 <= j < Min(|init[k]|, cap) && x == init[k][j];
      assert groups[k] == init[k];
    } else {
      var kept := last[..Min(|last|, cap)];
      assert x in kept;
      var j :| 0 <= j < |kept| && x == kept[j];
      assert x == groups[|groups| - 1][j];
    }
  }

  /** The readings recorded under `name`, in match order. */
  function ReadingsOf(ms: seq<ParameterMatch>, name: string): (r: seq<Reading>)
    ensures |r| <= |ms|
  {
    if |ms| == 0 then []
    else
      var last := ms[|ms| - 1];
      ReadingsOf(ms[..|ms| - 1], name) + (if last.name == name then [Reading(last.value, last.unit)] else [])
  }

  /** One match recorded: its reading appended to the list under its name. */
  function Record(m: map<string, seq<Reading>>, p: ParameterMatch): map<string, seq<Reading>> {
    m[p.name := (if p.name in m then m[p.name] else []) + [Reading(p.value, p.unit)]]
  }

  /** The parameter dictionary built from the matches, in order. */
  function Grouped(ms: seq<ParameterMatch>): map<string, seq<Reading>> {
    if |ms| == 0 then map[] else Record(Grouped(ms[..|ms| - 1]), ms[|ms| - 1])
  }

  /** The dictionary has a key for each matched name and nothing else, and under each key
      the readings of exactly the matches with that name, in order. */
  lemma {:induction false} GroupedSpec(ms: seq<ParameterMatch>)
    ensures forall name :: name in Grouped(ms) <==> exists i :: 0 <= i < |ms| && ms[i].name == name
    ensures forall name :: name in Grouped(ms) ==> Grouped(ms)[name] == ReadingsOf(ms, name)
  {
    if |ms| > 0 {
      var init := ms[..|ms| - 1];
      GroupedSpec(init);
      assert forall i :: 0 <= i < |init| ==> init[i] == ms[i];
      forall name | name !in Grouped(init) ensures ReadingsOf(init, name) == [] {
        NoReadingsWithoutName(init, name);
      }
    }
  }

  lemma {:induction false} NoReadingsWithoutName(ms: seq<ParameterMatch>, name: string)
    requires forall i :: 0 <= i < |ms| ==> ms[i].name != name
    ensures ReadingsOf(ms, name) == []
  {
    if |ms| > 0 {
      NoReadingsWithoutName(ms[..|ms| - 1], name);
    }
  }

  /** The context built from the matches of each pattern. */
  function ContextOf(models: seq<seq<string>>, params: seq<seq<ParameterMatch>>, safety: seq<seq<string>>): Context {
    Context(StripAll(Firsts(models, ModelCap)), Grouped(Firsts(params, ParameterCap)), StripAll(Firsts(safety, SafetyCap)))
  }

  /** The loop `for pattern …: extend([m.strip() for m in matches[:cap]])`. */
  method CollectStripped(groups: seq<seq<string>>, cap: nat) returns (r: seq<string>)
    ensures r == StripAll(Firsts(groups, cap))
  {
    r := [];
    for i := 0 to |groups|
      invariant r == StripAll(Firsts(groups[..i], cap))
    {
      assert groups[..i + 1][..i] == groups[..i];
      var kept := groups[i][..Min(|groups[i]|, cap)];
      r := r + StripAll(kept);
    }
    assert groups[..|groups|] == groups;
  }

  /** The nested loop over the parameter patterns and their first ten matches. */
  method CollectParameters(groups: seq<seq<ParameterMatch>>) returns (m: map<string, seq<Reading>>)
    ensures m == Grouped(Firsts(groups, ParameterCap))
  {
    m := map[];
    for i := 0 to |groups|
      invariant m == Grouped(Firsts(groups[..i], ParameterCap))
    {
      assert groups[..i + 1][..i] == groups[..i];
      var kept := groups[i][..Min(|groups[i]|, ParameterCap)];
      assert Firsts(groups[..i + 1], ParameterCap) == Firsts(groups[..i], ParameterCap) + kept;
      m := RecordAll(m, Firsts(groups[..i], ParameterCap), kept);
    }
    assert groups[..|groups|] == groups;
  }

  /** The inner loop: the matches of one pattern recorded in turn. */
  method RecordAll(m0: map<string, seq<Reading>>, ghost before: seq<ParameterMatch>, kept: seq<ParameterMatch>)
    returns (m: map<string, seq<Reading>>)
    requires m0 == Grouped(before)
    ensures m == Grouped(before + kept)
  {
    m := m0;
    assert before + kept[..0] == before;
    for j := 0 to |kept|
      invariant m == Grouped(before + kept[..j])
    {
      assert (before + kept[..j + 1])[..|before| + j] == before + kept[..j];
      m := Record(m, kept[j]);
    }
    assert kept[..|kept|] == kept;
  }

  /** `extract_equipment_context` (equipment_engine.py:380-434), with the matches of each
      model, parameter and safety pattern as inputs. */
  method ExtractEquipmentContext(models: seq<seq<string>>, params: seq<seq<ParameterMatch>>, safety: seq<seq<string>>)
    returns (c: Context)
    ensures c == ContextOf(models, params, safety)
  {
    var ms := CollectStripped(models, ModelCap);
    var ps := CollectParameters(params);
    var ss := CollectStripped(safety, SafetyCap);
    c := Context(ms, ps, ss);
  }

  /** The context keeps at most 5 models and 5 safety notes per pattern and at most 10
      readings per parameter pattern, every reading under the name it was matched with. */
  lemma ContextBounds(models: seq<seq<string>>, params: seq<seq<ParameterMatch>>, safety: seq<seq<string>>)
    ensures |ContextOf(models, params, safety).models| <= ModelCap * |models|
    ensures |ContextOf(models, params, safety).safetyInfo| <= SafetyCap * |safety|
    ensures forall name :: name in ContextOf(models, params, safety).parameters ==>
      ContextOf(models, params, safety).parameters[name] == ReadingsOf(Firsts(params, ParameterCap), name)
      && |ContextOf(models, params, safety).parameters[name]| <= ParameterCap * |params|
  {
    FirstsLength(models, ModelCap);
    FirstsLength(params, ParameterCap);
    FirstsLength(safety, SafetyCap);
    GroupedSpec(Firsts(params, ParameterCap));
  }

  // ---------------------------------------------------------------------------------
  // get_equipment_database_info
  // ---------------------------------------------------------------------------------

  datatype Info = Info(
    commonModels: seq<string>,
    parameterCount: nat,
    calibrationProcedures: nat,
    maintenanceTasks: nat,
    safetyConsiderations: nat,
    troubleshootingIssues: nat,
    regulatoryStandards: seq<string>)

  function InfoOf(s: EquipmentSpecification): Info {
    Info(s.commonModels, |s.criticalParameters|, |s.calibrationRequirements|, |s.maintenanceProcedures|,
         |s.safetyConsiderations|, |s.troubleshootingGuide|, s.regulatoryStandards)
  }

  /** `get_equipment_database_info` (equipment_engine.py:795-810): one entry per database
      type, under the type's value, whose counts are the lengths of the specification's lists. */
  method GetEquipmentDatabaseInfo(db: Database) returns (info: map<string, Info>)
    ensures info.Keys == set t | t in db :: Value(t)
    ensures forall t :: t in db ==> info[Value(t)] == InfoOf(db[t])
  {
    info := map[];
    var rest := db.Keys;
    while rest != {}
      invariant rest <= db.Keys
      invariant info.Keys == set t | t in db && t !in rest :: Value(t)
      invariant forall t :: t in db && t !in rest ==> info[Value(t)] == InfoOf(db[t])
      decreases |rest|
    {
      var t :| t in rest;
      forall u | u in db && u !in rest ensures Value(u) != Value(t) {
        ValueInjective(u, t);
      }
      info := info[Value(t) := InfoOf(db[t])];
      rest := rest - {t};
    }
  }

  /** The engine's own database is summarised under "chromatography", "spectroscopy" and
      "analytical_balance" only. */
  lemma SourceDatabaseInfoKeys(db: Database)
    requires IsSourceDatabase(db)
    ensures (set t | t in db :: Value(t)) == {"chromatography", "spectroscopy", "analytical_balance"}
  {
    assert Chromatography in db && Spectroscopy in db && AnalyticalBalance in db;
  }
}
