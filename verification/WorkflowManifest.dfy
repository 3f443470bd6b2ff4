/** Composing the static manifest of a workflow, and validating a detached one against its definition. */
module WorkflowManifest {
  import opened Wrappers
  import opened JsonValues
  import opened Ordering
  import opened WorkflowSpec

  const MAX_MANIFEST_BYTES := 4 * 1024 * 1024

  /** A compiled wrapper tool: its dispatch name, effect, revision and schema digest. */
  datatype Wrapper = Wrapper(name: string, effect: string, revision: Option<string>, schemaSha256: string)

  // ----- Parts both tables are made of -----

  function RecoveryPolicy(effect: string): string {
    if effect == "read_only" then "read_only_replay_allowed"
    else if effect == "idempotent" then "same_verified_business_key_only"
    else "manual_effect_resolution_on_ambiguity"
  }

  function LiteralType(v: Json): string {
    match v
    case Null => "null"
    case Bool(_) => "boolean"
    case Int(_) => "integer"
    case Real(_) => "number"
    case Str(_) => "string"
    case Obj(_) => "object"
    case Arr(_) => "array"
  }

  function ArgumentSource(x: Syntax, name: string, b: Binding): Json {
    match b
    case InputRef(key) => Obj(map["name" := Str(name), "kind" := Str("input"), "ref" := Str(key)])
    case StepRef(id) => Obj(map["name" := Str(name), "kind" := Str("step"), "ref" := Str(id)])
    case Literal(v) =>
      Obj(map["name" := Str(name), "kind" := Str("literal"), "value_type" := Str(LiteralType(v)),
              "canonical_bytes" := Int(x.Size(v)), "value_sha256" := Str(x.JsonDigest(v))])
  }

  function ArgumentSources(x: Syntax, step: Step): Json {
    var names := Sorted(step.arguments.Keys);
    Arr(seq(|names|, i requires 0 <= i < |names| =>
      assert names[i] in names; ArgumentSource(x, names[i], step.arguments[names[i]])))
  }

  /** The steps a step refers to. */
  function References(step: Step): set<string> {
    set name | name in step.arguments && step.arguments[name].StepRef? :: step.arguments[name].stepId
  }

  /** The position of a step id, or the number of steps. */
  function PositionOf(steps: seq<Step>, id: string): (p: nat)
    ensures p <= |steps|
    ensures p < |steps| ==> steps[p].stepId == id
    ensures id in Ids(steps) ==> p < |steps|
    ensures forall i :: 0 <= i < p ==> steps[i].stepId != id
  {
    if steps == [] then 0
    else if steps[0].stepId == id then 0
    else
      IdsCons(steps);
      1 + PositionOf(steps[1..], id)
  }

  lemma IdsCons(steps: seq<Step>)
    requires steps != []
    ensures Ids(steps) == {steps[0].stepId} + Ids(steps[1..])
  {
    forall id | id in {steps[0].stepId} + Ids(steps[1..]) ensures id in Ids(steps) {
      if id in Ids(steps[1..]) {
        var i :| 0 <= i < |steps[1..]| && steps[1..][i].stepId == id;
        assert steps[i + 1].stepId == id;
      } else {
        assert steps[0].stepId == id;
      }
    }
  }

  predicate IsEarliest(steps: seq<Step>, ids: set<string>, id: string) {
    id in ids && forall other :: other in ids ==> PositionOf(steps, id) <= PositionOf(steps, other)
  }

  lemma {:induction false} EarliestExists(steps: seq<Step>, ids: set<string>)
    requires ids != {}
    ensures exists id :: IsEarliest(steps, ids, id)
    decreases |ids|
  {
    hide PositionOf;
    var a :| a in ids;
    var rest := ids - {a};
    if rest == {} {
      assert IsEarliest(steps, ids, a) by {
        assert ids == {a};
      }
    } else {
      EarliestExists(steps, rest);
      var m :| IsEarliest(steps, rest, m);
      assert forall other :: other in ids ==> other == a || other in rest;
      assert IsEarliest(steps, ids, if PositionOf(steps, a) <= PositionOf(steps, m) then a else m);
    }
  }

  lemma EarliestUnique(steps: seq<Step>, ids: set<string>)
    requires ids <= Ids(steps)
    ensures forall a, b :: IsEarliest(steps, ids, a) && IsEarliest(steps, ids, b) ==> a == b
  {
    forall a, b | IsEarliest(steps, ids, a) && IsEarliest(steps, ids, b) ensures a == b {
      assert PositionOf(steps, a) == PositionOf(steps, b);
    }
  }

  function Earliest(steps: seq<Step>, ids: set<string>): (id: string)
    requires ids != {} && ids <= Ids(steps)
    ensures IsEarliest(steps, ids, id)
  {
    EarliestExists(steps, ids);
    EarliestUnique(steps, ids);
    var id :| IsEarliest(steps, ids, id);
    id
  }

  /** Step ids sorted by the position of their steps. */
  function SortedByPosition(steps: seq<Step>, ids: set<string>): (sorted: seq<string>)
    requires ids <= Ids(steps)
    ensures |sorted| == |ids| && forall id :: id in sorted <==> id in ids
    decreases |ids|
  {
    hide Ids, PositionOf, Earliest;
    if ids == {} then []
    else
      var first := Earliest(steps, ids);
      [first] + SortedByPosition(steps, ids - {first})
  }

  function Texts(ss: seq<string>): Json {
    Arr(seq(|ss|, i requires 0 <= i < |ss| => Str(ss[i])))
  }

  /** In a valid definition a step refers to earlier steps only. */
  lemma ReferencesAreEarlier(x: Syntax, spec: Spec, i: nat)
    requires ValidSpec(x, spec) && i < |spec.steps|
    ensures forall id :: id in References(spec.steps[i]) ==> id in Ids(spec.steps) && PositionOf(spec.steps, id) < i
    ensures References(spec.steps[i]) <= Ids(spec.steps)
  {
    var step := spec.steps[i];
    assert BindingsResolve(step, Keys(spec.inputs), Ids(spec.steps[..i]));
    hide ValidSpec, BindingsResolve;
    forall id | id in References(step) ensures id in Ids(spec.steps) && PositionOf(spec.steps, id) < i {
      EarlierReference(spec, i, id);
    }
  }

  lemma EarlierReference(spec: Spec, i: nat, id: string)
    requires i < |spec.steps| && id in References(spec.steps[i])
    requires BindingsResolve(spec.steps[i], Keys(spec.inputs), Ids(spec.steps[..i]))
    ensures id in Ids(spec.steps) && PositionOf(spec.steps, id) < i
  {
    hide PositionOf, Keys;
    var step := spec.steps[i];
    var name :| name in step.arguments && step.arguments[name].StepRef? && step.arguments[name].stepId == id;
    assert id in Ids(spec.steps[..i]);
    var j :| 0 <= j < |spec.steps[..i]| && spec.steps[..i][j].stepId == id;
    assert spec.steps[j].stepId == id;
  }

  function Dependencies(x: Syntax, spec: Spec, i: nat): seq<string>
    requires ValidSpec(x, spec) && i < |spec.steps|
  {
    ReferencesAreEarlier(x, spec, i);
    SortedByPosition(spec.steps, References(spec.steps[i]))
  }

  // ----- The composer -----

  predicate DistinctNames(wrappers: seq<Wrapper>) {
    forall i, j :: 0 <= i < j < |wrappers| ==> wrappers[i].name != wrappers[j].name
  }

  /** The wrapper keeps the effect of its step and the revision policy of that effect. */
  predicate WrapperFits(step: Step, w: Wrapper) {
    && w.effect == step.effect
    && (if step.effect == "read_only" then w.revision.None? else w.revision.Some? && w.revision.value != "")
  }

  predicate WrappersFit(spec: Spec, wrappers: seq<Wrapper>) {
    && |wrappers| == |spec.steps| && DistinctNames(wrappers)
    && forall i :: 0 <= i < |wrappers| ==> WrapperFits(spec.steps[i], wrappers[i])
  }

  function InputObject(slot: Slot): Json {
    Obj(map["key" := Str(slot.key), "type" := Str(slot.valueType), "required" := Bool(slot.required),
            "max_bytes" := Int(slot.maxBytes)])
  }

  function InputObjects(slots: seq<Slot>): Json {
    Arr(seq(|slots|, i requires 0 <= i < |slots| => InputObject(slots[i])))
  }

  /** A column of step `i` dispatched through `w`. */
  function StepColumn(x: Syntax, spec: Spec, i: nat, w: Wrapper, column: string): Json
    requires ValidSpec(x, spec) && i < |spec.steps|
  {
    var step := spec.steps[i];
    if column == "position" then Int(i + 1)
    else if column == "step_id" then Str(step.stepId)
    else if column == "depends_on" then Texts(Dependencies(x, spec, i))
    else if column == "argument_sources" then ArgumentSources(x, step)
    else if column == "logical_tool_name" then Str(step.toolName)
    else if column == "dispatch_tool_name" then Str(w.name)
    else if column == "effect" then Str(step.effect)
    else if column == "requires_approval" then Bool(step.effect != "read_only")
    else if column == "recovery_policy" then Str(RecoveryPolicy(step.effect))
    else if column == "logical_tool_revision" then RevisionData(step.toolRevision)
    else if column == "dispatch_tool_revision" then RevisionData(w.revision)
    else if column == "logical_schema_sha256" then Str(step.schemaSha256)
    else if column == "dispatch_schema_sha256" then Str(w.schemaSha256)
    else if column == "result_type" then Str(step.resultType)
    else if column == "max_result_bytes" then Int(step.maxResultBytes)
    else if column == "is_output" then Bool(step.stepId == spec.outputStep)
    else Null
  }

  const COMPOSED_COLUMNS := {
    "position", "step_id", "depends_on", "argument_sources", "logical_tool_name", "dispatch_tool_name", "effect",
    "requires_approval", "recovery_policy", "logical_tool_revision", "dispatch_tool_revision", "logical_schema_sha256",
    "dispatch_schema_sha256", "result_type", "max_result_bytes", "is_output" }

  function StepColumns(x: Syntax, spec: Spec, i: nat, w: Wrapper): Fields
    requires ValidSpec(x, spec) && i < |spec.steps|
  {
    map column | column in COMPOSED_COLUMNS :: StepColumn(x, spec, i, w, column)
  }

  function StepObjects(x: Syntax, spec: Spec, wrappers: seq<Wrapper>): Json
    requires ValidSpec(x, spec) && |wrappers| == |spec.steps|
  {
    Arr(seq(|wrappers|, i requires 0 <= i < |wrappers| => Obj(StepColumns(x, spec, i, wrappers[i]))))
  }

  function ManifestField(x: Syntax, spec: Spec, appId: string, inputs: Json, steps: Json, key: string): Json {
    if key == "schema_version" then Int(1)
    else if key == "workflow_id" then Str(spec.workflowId)
    else if key == "version" then Str(spec.version)
    else if key == "definition_sha256" then Str(Digest(x, spec))
    else if key == "app_id" then Str(appId)
    else if key == "execution" then Get(AsData(spec).fields, "execution")
    else if key == "output_step" then Str(spec.outputStep)
    else if key == "step_count" then Int(|spec.steps|)
    else if key == "supports_parallel" then Bool(false)
    else if key == "supports_branches" then Bool(false)
    else if key == "supports_agent_nodes" then Bool(false)
    else if key == "trust" then
      Obj(map["execution_mode" := Str("trusted_installed_python"), "sandboxed" := Bool(false)])
    else if key == "inputs" then inputs
    else if key == "steps" then steps
    else Null
  }

  const COMPOSED_KEYS := {
    "schema_version", "workflow_id", "version", "definition_sha256", "app_id", "execution", "output_step", "step_count",
    "supports_parallel", "supports_branches", "supports_agent_nodes", "trust", "inputs", "steps" }

  function ManifestFields(x: Syntax, spec: Spec, appId: string, inputs: Json, steps: Json): Fields {
    map key | key in COMPOSED_KEYS :: ManifestField(x, spec, appId, inputs, steps, key)
  }

  function ManifestObject(x: Syntax, spec: Spec, wrappers: seq<Wrapper>, appId: string): Json
    requires ValidSpec(x, spec) && |wrappers| == |spec.steps|
  {
    Obj(ManifestFields(x, spec, appId, InputObjects(spec.inputs), StepObjects(x, spec, wrappers)))
  }

  /** A value whose canonical text exists and is at most as long as a manifest may be. */
  predicate FitsManifest(x: Syntax, j: Json) {
    CanonicalOk(x, j) && x.Size(j) <= MAX_MANIFEST_BYTES
  }

  function Composed(x: Syntax, spec: Spec, wrappers: seq<Wrapper>, appId: string): Option<Json>
    requires ValidSpec(x, spec)
  {
    if WrappersFit(spec, wrappers) && FitsManifest(x, ManifestObject(x, spec, wrappers, appId)) then
      Some(ManifestObject(x, spec, wrappers, appId))
    else None
  }

  method ComposeWorkflowManifest(x: Syntax, spec: Spec, wrappers: seq<Wrapper>, appId: string) returns (r: Option<Json>)
    requires ValidSpec(x, spec)
    ensures r == Composed(x, spec, wrappers, appId)
  {
    hide ValidSpec, WrapperFits, StepColumns, InputObjects, ManifestFields, FitsManifest;
    if |wrappers| != |spec.steps| || !DistinctNames(wrappers) {
      return None;
    }
    var steps: seq<Json> := [];
    var i := 0;
    while i < |wrappers|
      invariant 0 <= i <= |wrappers|
      invariant forall k :: 0 <= k < i ==> WrapperFits(spec.steps[k], wrappers[k])
      invariant |steps| == i && forall k :: 0 <= k < i ==> steps[k] == Obj(StepColumns(x, spec, k, wrappers[k]))
    {
      if !WrapperFits(spec.steps[i], wrappers[i]) {
        return None;
      }
      steps, i := steps + [Obj(StepColumns(x, spec, i, wrappers[i]))], i + 1;
    }
    assert Arr(steps) == StepObjects(x, spec, wrappers);
    var manifest := Obj(ManifestFields(x, spec, appId, InputObjects(spec.inputs), Arr(steps)));
    r := if FitsManifest(x, manifest) then Some(manifest) else None;
  }

  // ----- The validator -----

  const MANIFEST_KEYS := {
    "app_id", "definition_sha256", "execution", "inputs", "output_step", "schema_version", "step_count", "steps",
    "supports_agent_nodes", "supports_branches", "supports_parallel", "trust", "version", "workflow_id" }
  const TRUST_KEYS := {"execution_mode", "sandboxed"}
  const INPUT_KEYS := {"key", "max_bytes", "required", "type"}
  const STEP_KEYS := {
    "argument_sources", "depends_on", "dispatch_schema_sha256", "dispatch_tool_name", "dispatch_tool_revision",
    "effect", "is_output", "logical_schema_sha256", "logical_tool_name", "logical_tool_revision", "max_result_bytes",
    "position", "recovery_policy", "requires_approval", "result_type", "step_id" }
  const LOGICAL_KEYS := {
    "argument_sources", "depends_on", "effect", "is_output", "logical_schema_sha256", "logical_tool_name",
    "logical_tool_revision", "max_result_bytes", "position", "recovery_policy", "requires_approval", "result_type",
    "step_id" }

  /** Both values have a canonical text, and it is the same. */
  predicate SameText(x: Syntax, a: Json, b: Json) {
    CanonicalOk(x, a) && CanonicalOk(x, b) && (x.canonical)(a) == (x.canonical)(b)
  }

  predicate IdentityOk(x: Syntax, spec: Spec, f: Fields, appId: string)
    requires f.Keys == MANIFEST_KEYS
  {
    && Exact(f["trust"], TRUST_KEYS).Some?
    && f["schema_version"] == Int(1)
    && f["workflow_id"] == Str(spec.workflowId)
    && f["version"] == Str(spec.version)
    && f["definition_sha256"] == Str(Digest(x, spec))
    && f["app_id"] == Str(appId)
    && f["execution"] == Get(AsData(spec).fields, "execution")
    && f["output_step"] == Str(spec.outputStep)
    && f["step_count"] == Int(|spec.steps|)
    && f["supports_parallel"] == Bool(false)
    && f["supports_branches"] == Bool(false)
    && f["supports_agent_nodes"] == Bool(false)
    && f["trust"].fields["execution_mode"] == Str("trusted_installed_python")
    && f["trust"].fields["sandboxed"] == Bool(false)
  }

  function ExpectedInputs(slots: seq<Slot>): Json {
    Arr(seq(|slots|, i requires 0 <= i < |slots| =>
      var slot := slots[i];
      Obj(map["key" := Str(slot.key), "type" := Str(slot.valueType), "required" := Bool(slot.required),
              "max_bytes" := Int(slot.maxBytes)])))
  }

  predicate InputsOk(x: Syntax, spec: Spec, inputs: Json) {
    && inputs.Arr?
    && (forall i :: 0 <= i < |inputs.items| ==> Exact(inputs.items[i], INPUT_KEYS).Some?)
    && SameText(x, inputs, ExpectedInputs(spec.inputs))
  }

  /** A column of step `i` that the definition determines. */
  function ExpectedColumn(x: Syntax, spec: Spec, i: nat, column: string): Json
    requires ValidSpec(x, spec) && i < |spec.steps|
  {
    var step := spec.steps[i];
    if column == "position" then Int(i + 1)
    else if column == "step_id" then Str(step.stepId)
    else if column == "depends_on" then Texts(Dependencies(x, spec, i))
    else if column == "argument_sources" then ArgumentSources(x, step)
    else if column == "logical_tool_name" then Str(step.toolName)
    else if column == "effect" then Str(step.effect)
    else if column == "requires_approval" then Bool(step.effect != "read_only")
    else if column == "recovery_policy" then Str(RecoveryPolicy(step.effect))
    else if column == "logical_tool_revision" then RevisionData(step.toolRevision)
    else if column == "logical_schema_sha256" then Str(step.schemaSha256)
    else if column == "result_type" then Str(step.resultType)
    else if column == "max_result_bytes" then Int(step.maxResultBytes)
    else if column == "is_output" then Bool(step.stepId == spec.outputStep)
    else Null
  }

  function ExpectedColumns(x: Syntax, spec: Spec, i: nat): Fields
    requires ValidSpec(x, spec) && i < |spec.steps|
  {
    map column | column in LOGICAL_KEYS :: ExpectedColumn(x, spec, i, column)
  }

  function Restricted(f: Fields, keys: set<string>): (r: Fields)
    requires keys <= f.Keys
    ensures r.Keys == keys
  {
    map k | k in keys :: f[k]
  }

  /** An object with exactly the step columns, whose logical columns have the text the definition calls for. */
  predicate LogicalOk(x: Syntax, spec: Spec, i: nat, item: Json)
    requires ValidSpec(x, spec) && i < |spec.steps|
  {
    && Exact(item, STEP_KEYS).Some?
    && SameText(x, Obj(Restricted(item.fields, LOGICAL_KEYS)), Obj(ExpectedColumns(x, spec, i)))
  }

  predicate DispatchOk(x: Syntax, step: Step, f: Fields)
    requires f.Keys == STEP_KEYS
  {
    && f["dispatch_tool_name"].Str? && f["dispatch_tool_name"].s != ""
    && f["dispatch_schema_sha256"].Str? && (x.sha256)(f["dispatch_schema_sha256"].s)
    && (step.effect == "read_only" ==> f["dispatch_tool_revision"].Null?)
    && (step.effect != "read_only" ==> f["dispatch_tool_revision"].Str? && f["dispatch_tool_revision"].s != "")
  }

  predicate StepAccepted(x: Syntax, spec: Spec, i: nat, item: Json)
    requires ValidSpec(x, spec) && i < |spec.steps|
  {
    LogicalOk(x, spec, i, item) && DispatchOk(x, spec.steps[i], item.fields)
  }

  /** The dispatch name of a stored step, or nothing. */
  function DispatchName(item: Json): Json {
    if item.Obj? then Get(item.fields, "dispatch_tool_name") else Null
  }

  predicate DistinctDispatch(items: seq<Json>) {
    forall i, j :: 0 <= i < j < |items| ==> DispatchName(items[i]) != DispatchName(items[j])
  }

  predicate Validated(x: Syntax, spec: Spec, m: Json, appId: string)
    requires ValidSpec(x, spec)
  {
    && appId != "" && Exact(m, MANIFEST_KEYS).Some? && IdentityOk(x, spec, m.fields, appId)
    && InputsOk(x, spec, m.fields["inputs"])
    && m.fields["steps"].Arr? && StepsAccepted(x, spec, m.fields["steps"].items)
  }

  predicate StepsAccepted(x: Syntax, spec: Spec, items: seq<Json>)
    requires ValidSpec(x, spec)
  {
    && |items| == |spec.steps|
    && (forall i :: 0 <= i < |items| ==> StepAccepted(x, spec, i, items[i]))
    && DistinctDispatch(items)
  }

  method ValidateWorkflowManifest(x: Syntax, spec: Spec, m: Json, appId: string) returns (valid: bool)
    requires ValidSpec(x, spec)
    ensures valid == Validated(x, spec, m, appId)
  {
    hide ValidSpec, IdentityOk, InputsOk, LogicalOk, DispatchOk;
    if appId == "" || Exact(m, MANIFEST_KEYS).None? || !IdentityOk(x, spec, m.fields, appId)
      || !InputsOk(x, spec, m.fields["inputs"]) || !m.fields["steps"].Arr? {
      return false;
    }
    var items := m.fields["steps"].items;
    if |items| != |spec.steps| {
      return false;
    }
    var dispatchNames: set<Json> := {};
    var i := 0;
    while i < |items|
      invariant 0 <= i <= |items|
      invariant forall k :: 0 <= k < i ==> StepAccepted(x, spec, k, items[k])
      invariant DistinctDispatch(items[..i])
      invariant forall name :: name in dispatchNames <==> exists k :: 0 <= k < i && DispatchName(items[k]) == name
    {
      if !StepAccepted(x, spec, i, items[i]) || DispatchName(items[i]) in dispatchNames {
        return false;
      }
      dispatchNames, i := dispatchNames + {DispatchName(items[i])}, i + 1;
    }
    assert items[..i] == items;
    valid := true;
  }

  // ----- Canonical text of parts -----

  lemma {:induction false} FreezesDeeper(x: Syntax, j: Json, depth: nat, deeper: nat)
    requires FreezesWithin(x, j, depth) && depth <= deeper
    ensures FreezesWithin(x, j, deeper)
    decreases depth
  {
    match j {
      case Arr(items) =>
        forall i | 0 <= i < |items| ensures FreezesWithin(x, items[i], deeper - 1) {
          FreezesDeeper(x, items[i], depth - 1, deeper - 1);
        }
      case Obj(fields) =>
        forall k | k in fields ensures FreezesWithin(x, fields[k], deeper - 1) {
          FreezesDeeper(x, fields[k], depth - 1, deeper - 1);
        }
      case _ =>
    }
  }

  lemma FieldCanonical(x: Syntax, f: Fields, k: string)
    requires CanonicalOk(x, Obj(f)) && k in f
    ensures CanonicalOk(x, f[k])
  {
    FreezesDeeper(x, f[k], MAX_DEPTH - 1, MAX_DEPTH);
  }

  lemma ItemCanonical(x: Syntax, items: seq<Json>, i: nat)
    requires CanonicalOk(x, Arr(items)) && i < |items|
    ensures CanonicalOk(x, items[i])
  {
    FreezesDeeper(x, items[i], MAX_DEPTH - 1, MAX_DEPTH);
  }

  lemma RestrictedCanonical(x: Syntax, f: Fields, keys: set<string>)
    requires CanonicalOk(x, Obj(f)) && keys <= f.Keys
    ensures CanonicalOk(x, Obj(Restricted(f, keys)))
  {
  }

  // ----- The two tables against each other -----

  lemma SameKeys()
    ensures COMPOSED_COLUMNS == STEP_KEYS && COMPOSED_KEYS == MANIFEST_KEYS && LOGICAL_KEYS <= STEP_KEYS
  {
  }

  /** Outside the dispatch both tables say the same of a column. */
  lemma LogicalColumn(x: Syntax, spec: Spec, i: nat, w: Wrapper, column: string)
    requires ValidSpec(x, spec) && i < |spec.steps| && column in LOGICAL_KEYS
    ensures StepColumn(x, spec, i, w, column) == ExpectedColumn(x, spec, i, column)
  {
    hide ValidSpec, Dependencies, ArgumentSources, Texts, RecoveryPolicy, RevisionData;
    assert column != "dispatch_tool_name" && column != "dispatch_tool_revision" && column != "dispatch_schema_sha256";
  }

  lemma DispatchColumns(x: Syntax, spec: Spec, i: nat, w: Wrapper)
    requires ValidSpec(x, spec) && i < |spec.steps|
    ensures StepColumn(x, spec, i, w, "dispatch_tool_name") == Str(w.name)
    ensures StepColumn(x, spec, i, w, "dispatch_tool_revision") == RevisionData(w.revision)
    ensures StepColumn(x, spec, i, w, "dispatch_schema_sha256") == Str(w.schemaSha256)
  {
    hide ValidSpec, Dependencies, ArgumentSources, Texts, RecoveryPolicy, RevisionData;
  }

  /** The composer's columns are the validator's thirteen and the three of the dispatch. */
  lemma ColumnsSplit(x: Syntax, spec: Spec, i: nat, w: Wrapper)
    requires ValidSpec(x, spec) && i < |spec.steps|
    ensures var f := StepColumns(x, spec, i, w);
      && f.Keys == STEP_KEYS && Restricted(f, LOGICAL_KEYS) == ExpectedColumns(x, spec, i)
      && f["dispatch_tool_name"] == Str(w.name) && f["dispatch_tool_revision"] == RevisionData(w.revision)
      && f["dispatch_schema_sha256"] == Str(w.schemaSha256)
  {
    hide ValidSpec, StepColumn, ExpectedColumn, RevisionData;
    SameKeys();
    DispatchColumns(x, spec, i, w);
    forall column | column in LOGICAL_KEYS
      ensures StepColumn(x, spec, i, w, column) == ExpectedColumn(x, spec, i, column) {
      LogicalColumn(x, spec, i, w, column);
    }
  }

  /** What a stored step was dispatched through. */
  function WrapperOf(step: Step, item: Json): Wrapper {
    var f := if item.Obj? then item.fields else map[];
    var name, revision, schema := Get(f, "dispatch_tool_name"), Get(f, "dispatch_tool_revision"),
      Get(f, "dispatch_schema_sha256");
    Wrapper(if name.Str? then name.s else "", step.effect, if revision.Str? then Some(revision.s) else None,
            if schema.Str? then schema.s else "")
  }

  /** An accepted dispatch is read off its three columns without loss. */
  lemma WrapperIsRead(x: Syntax, step: Step, f: Fields)
    requires f.Keys == STEP_KEYS && DispatchOk(x, step, f)
    ensures var w := WrapperOf(step, Obj(f));
      && WrapperFits(step, w) && w.name != "" && (x.sha256)(w.schemaSha256)
      && f["dispatch_tool_name"] == Str(w.name) && f["dispatch_tool_revision"] == RevisionData(w.revision)
      && f["dispatch_schema_sha256"] == Str(w.schemaSha256)
  {
  }

  /** Sixteen columns are known once the thirteen logical ones and the three of the dispatch are. */
  lemma ColumnsMerge(f: Fields, g: Fields)
    requires f.Keys == STEP_KEYS && g.Keys == STEP_KEYS && Restricted(f, LOGICAL_KEYS) == Restricted(g, LOGICAL_KEYS)
    requires f["dispatch_tool_name"] == g["dispatch_tool_name"]
    requires f["dispatch_tool_revision"] == g["dispatch_tool_revision"]
    requires f["dispatch_schema_sha256"] == g["dispatch_schema_sha256"]
    ensures f == g
  {
    forall k | k in STEP_KEYS ensures f[k] == g[k] {
      if k in LOGICAL_KEYS {
        assert Restricted(f, LOGICAL_KEYS)[k] == Restricted(g, LOGICAL_KEYS)[k];
      }
    }
  }

  /** Different values have different canonical texts. */
  ghost predicate TextInjective(x: Syntax) {
    forall a, b :: CanonicalOk(x, a) && CanonicalOk(x, b) && (x.canonical)(a) == (x.canonical)(b) ==> a == b
  }

  lemma AcceptedStepIsComposed(x: Syntax, spec: Spec, i: nat, item: Json)
    requires ValidSpec(x, spec) && TextInjective(x) && i < |spec.steps| && StepAccepted(x, spec, i, item)
    ensures var w := WrapperOf(spec.steps[i], item);
      && item == Obj(StepColumns(x, spec, i, w)) && WrapperFits(spec.steps[i], w)
      && w.name != "" && (x.sha256)(w.schemaSha256)
  {
    hide ValidSpec, StepColumns, ExpectedColumns, DispatchOk, WrapperOf, Restricted, WrapperFits, CanonicalOk,
      RevisionData;
    var w := WrapperOf(spec.steps[i], item);
    assert item == Obj(item.fields);
    WrapperIsRead(x, spec.steps[i], item.fields);
    ColumnsSplit(x, spec, i, w);
    ColumnsMerge(item.fields, StepColumns(x, spec, i, w));
  }

  lemma ComposedStepIsAccepted(x: Syntax, spec: Spec, i: nat, w: Wrapper)
    requires ValidSpec(x, spec) && i < |spec.steps| && WrapperFits(spec.steps[i], w)
    requires CanonicalOk(x, Obj(StepColumns(x, spec, i, w)))
    ensures var item := Obj(StepColumns(x, spec, i, w));
      && DispatchName(item) == Str(w.name)
      && (StepAccepted(x, spec, i, item) <==> w.name != "" && (x.sha256)(w.schemaSha256))
  {
    hide ValidSpec, StepColumns, ExpectedColumns, Restricted, CanonicalOk;
    ColumnsSplit(x, spec, i, w);
    RestrictedCanonical(x, StepColumns(x, spec, i, w), LOGICAL_KEYS);
  }

  // ----- Composer and validator agree -----

  /** What the composer leaves to its caller: tool names and application id are not empty, and tool
      schema digests are digests. */
  predicate Presentable(x: Syntax, wrappers: seq<Wrapper>, appId: string) {
    appId != "" && forall i :: 0 <= i < |wrappers| ==> wrappers[i].name != "" && (x.sha256)(wrappers[i].schemaSha256)
  }

  /** The composer's fields pass the validator's identity check. */
  lemma FieldsAre(x: Syntax, spec: Spec, appId: string, inputs: Json, steps: Json)
    ensures var f := ManifestFields(x, spec, appId, inputs, steps);
      f.Keys == MANIFEST_KEYS && f["inputs"] == inputs && f["steps"] == steps && IdentityOk(x, spec, f, appId)
  {
    hide ManifestField, IdentityOk;
    SameKeys();
    FieldsLow(x, spec, appId, inputs, steps);
    FieldsHigh(x, spec, appId, inputs, steps);
    FieldsIdentify(x, spec, ManifestFields(x, spec, appId, inputs, steps), appId);
  }

  lemma FieldsLow(x: Syntax, spec: Spec, appId: string, inputs: Json, steps: Json)
    ensures ManifestField(x, spec, appId, inputs, steps, "schema_version") == Int(1)
    ensures ManifestField(x, spec, appId, inputs, steps, "workflow_id") == Str(spec.workflowId)
    ensures ManifestField(x, spec, appId, inputs, steps, "version") == Str(spec.version)
    ensures ManifestField(x, spec, appId, inputs, steps, "definition_sha256") == Str(Digest(x, spec))
    ensures ManifestField(x, spec, appId, inputs, steps, "app_id") == Str(appId)
    ensures ManifestField(x, spec, appId, inputs, steps, "execution") == Get(AsData(spec).fields, "execution")
    ensures ManifestField(x, spec, appId, inputs, steps, "output_step") == Str(spec.outputStep)
  {
    hide Digest, AsData, Get;
  }

  lemma FieldsHigh(x: Syntax, spec: Spec, appId: string, inputs: Json, steps: Json)
    ensures ManifestField(x, spec, appId, inputs, steps, "step_count") == Int(|spec.steps|)
    ensures ManifestField(x, spec, appId, inputs, steps, "supports_parallel") == Bool(false)
    ensures ManifestField(x, spec, appId, inputs, steps, "supports_branches") == Bool(false)
    ensures ManifestField(x, spec, appId, inputs, steps, "supports_agent_nodes") == Bool(false)
    ensures ManifestField(x, spec, appId, inputs, steps, "trust")
         == Obj(map["execution_mode" := Str("trusted_installed_python"), "sandboxed" := Bool(false)])
    ensures ManifestField(x, spec, appId, inputs, steps, "inputs") == inputs
    ensures ManifestField(x, spec, appId, inputs, steps, "steps") == steps
  {
    hide Digest, AsData, Get;
  }

  lemma FieldsIdentify(x: Syntax, spec: Spec, f: Fields, appId: string)
    requires f.Keys == MANIFEST_KEYS
    requires f["schema_version"] == Int(1) && f["workflow_id"] == Str(spec.workflowId)
    requires f["version"] == Str(spec.version)
    requires f["definition_sha256"] == Str(Digest(x, spec)) && f["app_id"] == Str(appId)
    requires f["execution"] == Get(AsData(spec).fields, "execution") && f["output_step"] == Str(spec.outputStep)
    requires f["step_count"] == Int(|spec.steps|) && f["supports_parallel"] == Bool(false)
    requires f["supports_branches"] == Bool(false) && f["supports_agent_nodes"] == Bool(false)
    requires f["trust"] == Obj(map["execution_mode" := Str("trusted_installed_python"), "sandboxed" := Bool(false)])
    ensures IdentityOk(x, spec, f, appId)
  {
    hide Digest, AsData, Get;
    var trust := map["execution_mode" := Str("trusted_installed_python"), "sandboxed" := Bool(false)];
    assert trust.Keys == TRUST_KEYS;
  }

  lemma InputTables(slots: seq<Slot>)
    ensures InputObjects(slots) == ExpectedInputs(slots)
    ensures forall i :: 0 <= i < |slots| ==> Exact(InputObjects(slots).items[i], INPUT_KEYS).Some?
  {
    forall i | 0 <= i < |slots| ensures InputObject(slots[i]).fields.Keys == INPUT_KEYS {
    }
    assert InputObjects(slots).items == ExpectedInputs(slots).items;
  }

  /** The stored items of a composed manifest. */
  lemma ComposedItems(x: Syntax, spec: Spec, wrappers: seq<Wrapper>)
    requires ValidSpec(x, spec) && WrappersFit(spec, wrappers) && CanonicalOk(x, StepObjects(x, spec, wrappers))
    ensures StepsAccepted(x, spec, StepObjects(x, spec, wrappers).items)
      <==> forall i :: 0 <= i < |wrappers| ==> wrappers[i].name != "" && (x.sha256)(wrappers[i].schemaSha256)
  {
    hide ValidSpec, StepColumns, WrapperFits, CanonicalOk, StepAccepted, DispatchName;
    var items := StepObjects(x, spec, wrappers).items;
    forall i | 0 <= i < |wrappers|
      ensures DispatchName(items[i]) == Str(wrappers[i].name)
      ensures StepAccepted(x, spec, i, items[i]) <==> wrappers[i].name != "" && (x.sha256)(wrappers[i].schemaSha256)
    {
      assert items[i] == Obj(StepColumns(x, spec, i, wrappers[i]));
      ItemCanonical(x, items, i);
      ComposedStepIsAccepted(x, spec, i, wrappers[i]);
    }
    assert DistinctDispatch(items);
  }

  /** The validator accepts what the composer made exactly when it was given presentable names. */
  lemma ComposedIsValid(x: Syntax, spec: Spec, wrappers: seq<Wrapper>, appId: string)
    requires ValidSpec(x, spec) && Composed(x, spec, wrappers, appId).Some?
    ensures Validated(x, spec, Composed(x, spec, wrappers, appId).value, appId) <==> Presentable(x, wrappers, appId)
  {
    hide ValidSpec, CanonicalOk, IdentityOk, StepsAccepted, ManifestFields, InputObjects, ExpectedInputs, StepObjects,
      WrappersFit;
    assert |wrappers| == |spec.steps| by { FitCount(spec, wrappers); }
    var inputs, steps := InputObjects(spec.inputs), StepObjects(x, spec, wrappers);
    var f := ManifestFields(x, spec, appId, inputs, steps);
    FieldsAre(x, spec, appId, inputs, steps);
    FieldCanonical(x, f, "inputs");
    FieldCanonical(x, f, "steps");
    InputTables(spec.inputs);
    assert |inputs.items| == |spec.inputs| by { InputCount(spec.inputs); }
    assert steps.Arr? by { StepsAreArray(x, spec, wrappers); }
    ComposedItems(x, spec, wrappers);
  }

  lemma FitCount(spec: Spec, wrappers: seq<Wrapper>)
    requires WrappersFit(spec, wrappers)
    ensures |wrappers| == |spec.steps|
  {
  }

  lemma InputCount(slots: seq<Slot>)
    ensures InputObjects(slots).Arr? && |InputObjects(slots).items| == |slots|
  {
  }

  lemma StepsAreArray(x: Syntax, spec: Spec, wrappers: seq<Wrapper>)
    requires ValidSpec(x, spec) && |wrappers| == |spec.steps|
    ensures StepObjects(x, spec, wrappers).Arr?
  {
  }

  function WrappersOf(spec: Spec, m: Json): (wrappers: seq<Wrapper>)
    ensures |wrappers| == |spec.steps|
  {
    var steps := if m.Obj? then Get(m.fields, "steps") else Null;
    var items := if steps.Arr? then steps.items else [];
    seq(|spec.steps|, i requires 0 <= i < |spec.steps| =>
      WrapperOf(spec.steps[i], if i < |items| then items[i] else Null))
  }

  lemma WrappersAre(spec: Spec, m: Json, items: seq<Json>)
    requires m.Obj? && Get(m.fields, "steps") == Arr(items) && |items| == |spec.steps|
    ensures forall i :: 0 <= i < |items| ==> WrappersOf(spec, m)[i] == WrapperOf(spec.steps[i], items[i])
  {
    hide WrapperOf;
  }

  /** The stored items of an accepted manifest are the composer's. */
  lemma AcceptedItems(x: Syntax, spec: Spec, items: seq<Json>, wrappers: seq<Wrapper>)
    requires ValidSpec(x, spec) && TextInjective(x) && StepsAccepted(x, spec, items) && |wrappers| == |items|
    requires forall i :: 0 <= i < |items| ==> wrappers[i] == WrapperOf(spec.steps[i], items[i])
    ensures Arr(items) == StepObjects(x, spec, wrappers) && WrappersFit(spec, wrappers)
    ensures forall i :: 0 <= i < |wrappers| ==> wrappers[i].name != "" && (x.sha256)(wrappers[i].schemaSha256)
  {
    hide ValidSpec, StepAccepted, StepColumns, WrapperFits, WrapperOf, TextInjective, DispatchName;
    forall i | 0 <= i < |items|
      ensures items[i] == Obj(StepColumns(x, spec, i, wrappers[i])) && WrapperFits(spec.steps[i], wrappers[i])
      ensures wrappers[i].name != "" && (x.sha256)(wrappers[i].schemaSha256)
      ensures DispatchName(items[i]) == Str(wrappers[i].name)
    {
      AcceptedStepIsComposed(x, spec, i, items[i]);
      assert DispatchName(items[i]) == Str(wrappers[i].name) by {
        ColumnsSplit(x, spec, i, wrappers[i]);
        DispatchNameIs(StepColumns(x, spec, i, wrappers[i]));
      }
    }
    assert items == StepObjects(x, spec, wrappers).items;
  }

  lemma DispatchNameIs(f: Fields)
    requires f.Keys == STEP_KEYS
    ensures DispatchName(Obj(f)) == f["dispatch_tool_name"]
  {
  }

  /** The fourteen fields of an accepted manifest leave no other choice. */
  lemma AcceptedFields(x: Syntax, spec: Spec, f: Fields, appId: string)
    requires f.Keys == MANIFEST_KEYS && IdentityOk(x, spec, f, appId)
    ensures f == ManifestFields(x, spec, appId, f["inputs"], f["steps"])
  {
    hide Digest, AsData;
    SameKeys();
    TrustIs(f["trust"]);
    forall key | key in MANIFEST_KEYS
      ensures f[key] == ManifestField(x, spec, appId, f["inputs"], f["steps"], key)
    {
    }
  }

  lemma TrustIs(trust: Json)
    requires Exact(trust, TRUST_KEYS).Some?
    requires trust.fields["execution_mode"] == Str("trusted_installed_python")
    requires trust.fields["sandboxed"] == Bool(false)
    ensures trust == Obj(map["execution_mode" := Str("trusted_installed_python"), "sandboxed" := Bool(false)])
  {
    assert trust.fields == map["execution_mode" := Str("trusted_installed_python"), "sandboxed" := Bool(false)];
  }

  /** Every manifest the validator accepts, if it has a canonical text within the size limit, is what the
      composer makes of the wrappers its dispatch columns describe. */
  lemma ValidIsComposed(x: Syntax, spec: Spec, m: Json, appId: string)
    requires ValidSpec(x, spec) && TextInjective(x) && Validated(x, spec, m, appId) && FitsManifest(x, m)
    ensures Composed(x, spec, WrappersOf(spec, m), appId) == Some(m) && Presentable(x, WrappersOf(spec, m), appId)
  {
    hide ValidSpec, IdentityOk, StepsAccepted, ManifestFields, InputObjects, ExpectedInputs, StepObjects, WrappersFit,
      WrappersOf, WrapperOf;
    hide CanonicalOk;
    var f, wrappers := m.fields, WrappersOf(spec, m);
    var items := f["steps"].items;
    AcceptedFields(x, spec, f, appId);
    InputTables(spec.inputs);
    assert f["inputs"] == InputObjects(spec.inputs);
    assert |items| == |spec.steps| by { AcceptedCount(x, spec, items); }
    WrappersAre(spec, m, items);
    AcceptedItems(x, spec, items, wrappers);
    assert f["steps"] == Arr(items);
  }

  lemma AcceptedCount(x: Syntax, spec: Spec, items: seq<Json>)
    requires ValidSpec(x, spec) && StepsAccepted(x, spec, items)
    ensures |items| == |spec.steps|
  {
  }

  /** The accepted manifests with a canonical text within the size limit are exactly the composed ones whose
      tool names and application id are not empty and whose tool schema digests are digests. */
  lemma AcceptedExactlyComposed(x: Syntax, spec: Spec, m: Json, appId: string)
    requires ValidSpec(x, spec) && TextInjective(x)
    ensures Validated(x, spec, m, appId) && FitsManifest(x, m) <==>
      exists wrappers :: Composed(x, spec, wrappers, appId) == Some(m) && Presentable(x, wrappers, appId)
  {
    hide ValidSpec, TextInjective, Validated, Presentable, ManifestObject, WrappersFit;
    if Validated(x, spec, m, appId) && FitsManifest(x, m) {
      ValidIsComposed(x, spec, m, appId);
    }
    forall wrappers | Composed(x, spec, wrappers, appId) == Some(m) && Presentable(x, wrappers, appId)
      ensures Validated(x, spec, m, appId) && FitsManifest(x, m)
    {
      ComposedIsValid(x, spec, wrappers, appId);
    }
  }

  // ----- Dependencies -----

  /** A list of step ids with strictly increasing positions. */
  predicate OrderedIn(steps: seq<Step>, ids: seq<string>) {
    forall i, j :: 0 <= i < j < |ids| ==> PositionOf(steps, ids[i]) < PositionOf(steps, ids[j])
  }

  lemma {:induction false} SortedIsOrdered(steps: seq<Step>, ids: set<string>)
    requires ids <= Ids(steps)
    ensures OrderedIn(steps, SortedByPosition(steps, ids))
    decreases |ids|
  {
    hide PositionOf, Ids;
    if ids != {} {
      var first := Earliest(steps, ids);
      var rest := ids - {first};
      var tail := SortedByPosition(steps, rest);
      SortedIsOrdered(steps, rest);
      forall k | 0 <= k < |tail| ensures PositionOf(steps, first) < PositionOf(steps, tail[k]) {
        assert tail[k] in tail && tail[k] in rest;
        DifferentPositions(steps, first, tail[k]);
      }
      OrderedCons(steps, first, tail);
    }
  }

  lemma DifferentPositions(steps: seq<Step>, a: string, b: string)
    requires a in Ids(steps) && b in Ids(steps) && a != b
    ensures PositionOf(steps, a) != PositionOf(steps, b)
  {
  }

  lemma OrderedCons(steps: seq<Step>, first: string, tail: seq<string>)
    requires OrderedIn(steps, tail) && forall k :: 0 <= k < |tail| ==>
      PositionOf(steps, first) < PositionOf(steps, tail[k])
    ensures OrderedIn(steps, [first] + tail)
  {
    hide PositionOf;
    var all := [first] + tail;
    forall i, j | 0 <= i < j < |all| ensures PositionOf(steps, all[i]) < PositionOf(steps, all[j]) {
      assert all[j] == tail[j - 1];
      if i > 0 {
        assert all[i] == tail[i - 1];
      }
    }
  }

  /** In the manifest of a valid definition each step depends exactly on the steps it refers to, all
      of them strictly earlier, listed once each in step order. */
  lemma DependenciesAreEarlier(x: Syntax, spec: Spec, i: nat)
    requires ValidSpec(x, spec) && i < |spec.steps|
    ensures var depends := Dependencies(x, spec, i);
      && OrderedIn(spec.steps, depends)
      && (forall id :: id in depends <==> id in References(spec.steps[i]))
      && (forall id :: id in depends ==> PositionOf(spec.steps, id) < i)
  {
    ReferencesAreEarlier(x, spec, i);
    hide ValidSpec, PositionOf, SortedByPosition, References;
    SortedIsOrdered(spec.steps, References(spec.steps[i]));
  }

  // ----- A composed manifest that is refused -----

  /** A syntax that lets every text through and prints nothing. */
  function Lenient(): Syntax {
    Syntax((s: string) => true, (s: string, n: nat) => true, (s: string) => true, (s: string) => false,
           (s: string) => 0, (j: Json) => true, (j: Json) => "", (s: string) => "digest")
  }

  /** One read-only step without arguments. */
  function Ping(): Spec {
    Spec("ping", "1", [], [Step("ask", "ping", "read_only", None, "digest", map[], "string", 1)], "ask")
  }

  lemma PingIsValid()
    ensures ValidSpec(Lenient(), Ping())
  {
    hide CanonicalOk, AsData, StepsResolve;
    var spec := Ping();
    assert spec.steps[0].stepId in Ids(spec.steps);
    PingResolves();
    PingFreezes();
  }

  lemma PingResolves()
    ensures StepsResolve(Ping())
  {
  }

  /** A syntax in which every scalar but a number with a fraction is fit for JSON. */
  ghost predicate AnyLeaf(x: Syntax) {
    forall j: Json :: !j.Real? ==> (x.leaf)(j)
  }

  lemma ObjectFreezes(x: Syntax, f: Fields, depth: nat)
    requires forall k :: k in f ==> FreezesWithin(x, f[k], depth)
    ensures FreezesWithin(x, Obj(f), depth + 1)
  {
  }

  lemma ArrayFreezes(x: Syntax, items: seq<Json>, depth: nat)
    requires forall i :: 0 <= i < |items| ==> FreezesWithin(x, items[i], depth)
    ensures FreezesWithin(x, Arr(items), depth + 1)
  {
  }

  lemma PingStepFreezes(step: Step)
    requires step.arguments == map[]
    ensures FreezesWithin(Lenient(), StepData(step), 3)
  {
    hide ResultData, ArgumentsData, RevisionData;
    NoArguments(step);
    ResultFreezes(step);
    RevisionFreezes(Lenient(), step.toolRevision);
    ObjectFreezes(Lenient(), StepData(step).fields, 2);
  }

  lemma ResultFreezes(step: Step)
    ensures FreezesWithin(Lenient(), ResultData(step), 2)
  {
    ObjectFreezes(Lenient(), ResultData(step).fields, 1);
  }

  lemma RevisionFreezes(x: Syntax, r: Option<string>)
    requires AnyLeaf(x)
    ensures FreezesWithin(x, RevisionData(r), 2)
  {
  }

  lemma NoArguments(step: Step)
    requires step.arguments == map[]
    ensures ArgumentsData(step.arguments) == Obj(map[]) && FreezesWithin(Lenient(), ArgumentsData(step.arguments), 2)
  {
  }

  lemma PingFreezes()
    ensures CanonicalOk(Lenient(), AsData(Ping()))
  {
    hide StepData, StepsData, SlotsData;
    var spec := Ping();
    OneStepData(spec);
    PingStepFreezes(spec.steps[0]);
    ArrayFreezes(Lenient(), [StepData(spec.steps[0])], 3);
    ObjectFreezes(Lenient(), AsData(spec).fields, 4);
    assert AsData(spec) == Obj(AsData(spec).fields);
    hide AsData;
    FreezesDeeper(Lenient(), AsData(spec), 5, MAX_DEPTH);
  }

  lemma OneStepData(spec: Spec)
    requires |spec.steps| == 1 && spec.inputs == []
    ensures StepsData(spec.steps) == Arr([StepData(spec.steps[0])]) && SlotsData(spec.inputs) == Arr([])
  {
    hide StepData;
  }

  lemma SourceFreezes(x: Syntax, name: string, b: Binding)
    requires AnyLeaf(x)
    ensures FreezesWithin(x, ArgumentSource(x, name, b), 2)
  {
    ObjectFreezes(x, ArgumentSource(x, name, b).fields, 1);
  }

  lemma SourcesFreeze(x: Syntax, step: Step)
    requires AnyLeaf(x)
    ensures FreezesWithin(x, ArgumentSources(x, step), 3)
  {
    hide ArgumentSource, FreezesWithin, AnyLeaf;
    var names, sources := Sorted(step.arguments.Keys), ArgumentSources(x, step);
    hide Sorted;
    forall i | 0 <= i < |names| ensures FreezesWithin(x, sources.items[i], 2) {
      assert names[i] in names;
      SourceFreezes(x, names[i], step.arguments[names[i]]);
    }
    ArrayFreezes(x, sources.items, 2);
  }

  lemma TextsFreeze(x: Syntax, ss: seq<string>)
    requires AnyLeaf(x)
    ensures FreezesWithin(x, Texts(ss), 3)
  {
    ArrayFreezes(x, Texts(ss).items, 2);
  }

  lemma ColumnFreezes(x: Syntax, spec: Spec, i: nat, w: Wrapper, column: string)
    requires ValidSpec(x, spec) && i < |spec.steps| && AnyLeaf(x)
    ensures FreezesWithin(x, StepColumn(x, spec, i, w, column), 3)
  {
    hide ValidSpec, Dependencies, ArgumentSources, Texts, RecoveryPolicy, FreezesWithin, RevisionData, AnyLeaf;
    if column == "depends_on" {
      TextsFreeze(x, Dependencies(x, spec, i));
    } else if column == "argument_sources" {
      SourcesFreeze(x, spec.steps[i]);
    } else {
      ColumnIsScalar(x, spec, i, w, column);
      ScalarFreezes(x, StepColumn(x, spec, i, w, column), 3);
    }
  }

  lemma ColumnIsScalar(x: Syntax, spec: Spec, i: nat, w: Wrapper, column: string)
    requires ValidSpec(x, spec) && i < |spec.steps| && column !in {"depends_on", "argument_sources"}
    ensures var value := StepColumn(x, spec, i, w, column); !value.Arr? && !value.Obj? && !value.Real?
  {
    hide ValidSpec, Dependencies, ArgumentSources, Texts, RecoveryPolicy;
  }

  lemma ScalarFreezes(x: Syntax, j: Json, depth: nat)
    requires AnyLeaf(x) && !j.Arr? && !j.Obj? && !j.Real?
    ensures FreezesWithin(x, j, depth)
  {
  }

  lemma StepsFreeze(x: Syntax, spec: Spec, wrappers: seq<Wrapper>)
    requires ValidSpec(x, spec) && |wrappers| == |spec.steps| && AnyLeaf(x)
    ensures FreezesWithin(x, StepObjects(x, spec, wrappers), 5)
  {
    hide ValidSpec, StepColumn, FreezesWithin, AnyLeaf;
    var items := StepObjects(x, spec, wrappers).items;
    forall i | 0 <= i < |items| ensures FreezesWithin(x, items[i], 4) {
      forall column | column in COMPOSED_COLUMNS
        ensures FreezesWithin(x, StepColumn(x, spec, i, wrappers[i], column), 3) {
        ColumnFreezes(x, spec, i, wrappers[i], column);
      }
      ObjectFreezes(x, StepColumns(x, spec, i, wrappers[i]), 3);
    }
    ArrayFreezes(x, items, 4);
  }

  lemma InputsFreeze(x: Syntax, slots: seq<Slot>)
    requires AnyLeaf(x)
    ensures FreezesWithin(x, InputObjects(slots), 5)
  {
    forall i | 0 <= i < |slots| ensures FreezesWithin(x, InputObjects(slots).items[i], 4) {
      ObjectFreezes(x, InputObject(slots[i]).fields, 3);
    }
    hide InputObject;
    ArrayFreezes(x, InputObjects(slots).items, 4);
  }

  lemma FieldFreezes(x: Syntax, spec: Spec, appId: string, inputs: Json, steps: Json, key: string)
    requires AnyLeaf(x) && FreezesWithin(x, inputs, 5) && FreezesWithin(x, steps, 5)
    ensures FreezesWithin(x, ManifestField(x, spec, appId, inputs, steps, key), 5)
  {
    hide Digest, AsData, FreezesWithin;
    AsDataFields(spec);
    TrustFreezes(x);
    var value := ManifestField(x, spec, appId, inputs, steps, key);
    if !value.Arr? && !value.Obj? && !value.Real? {
      ScalarFreezes(x, value, 5);
    }
  }

  lemma TrustFreezes(x: Syntax)
    requires AnyLeaf(x)
    ensures var trust := map["execution_mode" := Str("trusted_installed_python"), "sandboxed" := Bool(false)];
      FreezesWithin(x, Obj(trust), 5)
  {
    ObjectFreezes(x, map["execution_mode" := Str("trusted_installed_python"), "sandboxed" := Bool(false)], 4);
  }

  /** Where every scalar is fit for JSON, a composed manifest always has a canonical text. */
  lemma ManifestFreezes(x: Syntax, spec: Spec, wrappers: seq<Wrapper>, appId: string)
    requires ValidSpec(x, spec) && |wrappers| == |spec.steps| && AnyLeaf(x)
    ensures CanonicalOk(x, ManifestObject(x, spec, wrappers, appId))
  {
    hide ValidSpec, ManifestField, StepObjects, InputObjects, FreezesWithin, AnyLeaf;
    var inputs, steps := InputObjects(spec.inputs), StepObjects(x, spec, wrappers);
    StepsFreeze(x, spec, wrappers);
    InputsFreeze(x, spec.inputs);
    forall key | key in COMPOSED_KEYS ensures FreezesWithin(x, ManifestField(x, spec, appId, inputs, steps, key), 5) {
      FieldFreezes(x, spec, appId, inputs, steps, key);
    }
    ObjectFreezes(x, ManifestFields(x, spec, appId, inputs, steps), 5);
    FreezesDeeper(x, ManifestObject(x, spec, wrappers, appId), 6, MAX_DEPTH);
  }

  /** Wrappers named after their steps, which fit any valid definition. */
  function OwnWrappers(spec: Spec): (wrappers: seq<Wrapper>)
    ensures |wrappers| == |spec.steps|
  {
    seq(|spec.steps|, i requires 0 <= i < |spec.steps| => OwnWrapper(spec.steps[i]))
  }

  function OwnWrapper(step: Step): Wrapper {
    Wrapper(step.stepId, step.effect, if step.effect == "read_only" then None else Some("1"), step.schemaSha256)
  }

  lemma OwnWrappersFit(x: Syntax, spec: Spec)
    requires ValidSpec(x, spec)
    ensures WrappersFit(spec, OwnWrappers(spec))
  {
    hide StepsResolve, CanonicalOk, AsData, StepOk, SlotOk, Ids, DistinctKeys;
    var wrappers := OwnWrappers(spec);
    assert forall i :: 0 <= i < |wrappers| ==> wrappers[i].name == spec.steps[i].stepId;
  }

  /** The composer takes an empty application id and an empty tool name, the validator neither: whatever
      the definition and the fitting wrappers, if the manifest is within the size limit. */
  lemma ComposedCanBeRefused(x: Syntax, spec: Spec, wrappers: seq<Wrapper>, appId: string)
    requires ValidSpec(x, spec) && AnyLeaf(x) && WrappersFit(spec, wrappers)
    requires x.Size(ManifestObject(x, spec, wrappers, appId)) <= MAX_MANIFEST_BYTES
    requires appId == "" || exists i :: 0 <= i < |wrappers| && wrappers[i].name == ""
    ensures Composed(x, spec, wrappers, appId).Some?
    ensures !Validated(x, spec, Composed(x, spec, wrappers, appId).value, appId)
  {
    hide ManifestObject, CanonicalOk, Validated, ValidSpec, WrappersFit;
    FitCount(spec, wrappers);
    ManifestFreezes(x, spec, wrappers, appId);
    ComposedIsValid(x, spec, wrappers, appId);
  }

  /** Every valid definition has such a manifest, unless it is too large. */
  lemma EveryDefinitionCanBeRefused(x: Syntax, spec: Spec)
    requires ValidSpec(x, spec) && AnyLeaf(x)
    requires x.Size(ManifestObject(x, spec, OwnWrappers(spec), "")) <= MAX_MANIFEST_BYTES
    ensures Composed(x, spec, OwnWrappers(spec), "").Some?
    ensures !Validated(x, spec, Composed(x, spec, OwnWrappers(spec), "").value, "")
  {
    hide ManifestObject, Validated, ValidSpec, WrappersFit, Composed;
    OwnWrappersFit(x, spec);
    ComposedCanBeRefused(x, spec, OwnWrappers(spec), "");
  }

  /** One such definition. */
  lemma PingCanBeRefused()
    ensures ValidSpec(Lenient(), Ping())
    ensures Composed(Lenient(), Ping(), OwnWrappers(Ping()), "").Some?
    ensures !Validated(Lenient(), Ping(), Composed(Lenient(), Ping(), OwnWrappers(Ping()), "").value, "")
  {
    hide ManifestObject, Validated, ValidSpec, Composed;
    PingIsValid();
    EveryDefinitionCanBeRefused(Lenient(), Ping());
  }
}
