/** Workflow definitions: their constructor checks, their data form and its parser. */
module WorkflowSpec {
  import opened Wrappers
  import opened JsonValues

  const MAX_STEPS := 128
  const MAX_INPUTS := 128
  const MAX_ARGUMENTS := 128
  const MAX_DEFINITION_BYTES := 1024 * 1024
  const MAX_LITERAL_BYTES := 128 * 1024
  const MAX_PAYLOAD_BYTES := 256 * 1024
  const MAX_DEPTH := 32
  const TYPES := {"string", "integer", "number", "boolean", "object", "array", "null"}
  const EFFECTS := {"read_only", "idempotent", "side_effecting"}
  const EXECUTION := "single-harness-ordered-tools-v1"

  /** The opaque syntax: identifiers, bounded text, digests, blank text, UTF-8 length, scalars that JSON can
      carry, the canonical text of a value, and the hash of a text. */
  datatype Syntax = Syntax(
    identifier: string -> bool,
    text: (string, nat) -> bool,
    sha256: string -> bool,
    blank: string -> bool,
    bytes: string -> nat,
    leaf: Json -> bool,
    canonical: Json -> string,
    hash: string -> string)
  {
    /** The length of a value's canonical text in bytes. */
    function Size(j: Json): nat {
      bytes(canonical(j))
    }

    function JsonDigest(j: Json): string {
      hash(canonical(j))
    }
  }

  datatype Binding = InputRef(key: string) | StepRef(stepId: string) | Literal(value: Json)

  datatype Slot = Slot(key: string, valueType: string, required: bool, maxBytes: int)

  datatype Step = Step(
    stepId: string,
    toolName: string,
    effect: string,
    toolRevision: Option<string>,
    schemaSha256: string,
    arguments: map<string, Binding>,
    resultType: string,
    maxResultBytes: int)

  datatype Spec = Spec(workflowId: string, version: string, inputs: seq<Slot>, steps: seq<Step>, outputStep: string)

  /** A value of bounded depth all of whose scalars JSON can carry. */
  predicate FreezesWithin(x: Syntax, j: Json, depth: nat)
    decreases depth
  {
    match j
    case Arr(items) =>
      items == [] || (depth > 0 && forall i :: 0 <= i < |items| ==> FreezesWithin(x, items[i], depth - 1))
    case Obj(fields) =>
      fields == map[] || (depth > 0 && forall k :: k in fields ==> FreezesWithin(x, fields[k], depth - 1))
    case _ => (x.leaf)(j)
  }

  /** A value that has a canonical text. */
  predicate CanonicalOk(x: Syntax, j: Json) {
    FreezesWithin(x, j, MAX_DEPTH)
  }

  // ----- Constructor checks -----

  predicate SlotOk(x: Syntax, s: Slot) {
    (x.text)(s.key, 256) && s.valueType in TYPES && 1 <= s.maxBytes <= 1024 * 1024
  }

  predicate BindingOk(x: Syntax, b: Binding) {
    match b
    case InputRef(key) => (x.text)(key, 256)
    case StepRef(id) => (x.identifier)(id)
    case Literal(v) => CanonicalOk(x, v) && x.Size(v) <= MAX_LITERAL_BYTES
  }

  predicate RevisionOk(x: Syntax, effect: string, revision: Option<string>) {
    if effect == "read_only" then revision.Some? ==> (x.text)(revision.value, 256)
    else revision.Some? && !(x.blank)(revision.value) && (x.bytes)(revision.value) <= 256
  }

  predicate StepOk(x: Syntax, s: Step) {
    && (x.identifier)(s.stepId) && (x.text)(s.toolName, 256) && s.effect in EFFECTS
    && RevisionOk(x, s.effect, s.toolRevision) && (x.sha256)(s.schemaSha256)
    && |s.arguments| <= MAX_ARGUMENTS
    && (forall name :: name in s.arguments ==> (x.text)(name, 256) && BindingOk(x, s.arguments[name]))
    && s.resultType in TYPES && 1 <= s.maxResultBytes <= 1024 * 1024
  }

  predicate DistinctKeys(slots: seq<Slot>) {
    forall i, j :: 0 <= i < j < |slots| ==> slots[i].key != slots[j].key
  }

  predicate DistinctIds(steps: seq<Step>) {
    forall i, j :: 0 <= i < j < |steps| ==> steps[i].stepId != steps[j].stepId
  }

  function Keys(slots: seq<Slot>): set<string> {
    set i | 0 <= i < |slots| :: slots[i].key
  }

  function Ids(steps: seq<Step>): set<string> {
    set i | 0 <= i < |steps| :: steps[i].stepId
  }

  /** Every binding of a step names a declared input or a step completed before it. */
  predicate BindingsResolve(step: Step, keys: set<string>, completed: set<string>) {
    forall name :: name in step.arguments ==>
      match step.arguments[name]
      case InputRef(key) => key in keys
      case StepRef(id) => id in completed
      case Literal(_) => true
  }

  predicate StepsResolve(spec: Spec) {
    forall i :: 0 <= i < |spec.steps| ==> BindingsResolve(spec.steps[i], Keys(spec.inputs), Ids(spec.steps[..i]))
  }

  predicate ValidSpec(x: Syntax, s: Spec) {
    && (x.identifier)(s.workflowId) && (x.text)(s.version, 64)
    && (forall i :: 0 <= i < |s.inputs| ==> SlotOk(x, s.inputs[i])) && |s.inputs| <= MAX_INPUTS
    && DistinctKeys(s.inputs)
    && 1 <= |s.steps| <= MAX_STEPS && (forall i :: 0 <= i < |s.steps| ==> StepOk(x, s.steps[i])) && DistinctIds(s.steps)
    && StepsResolve(s)
    && (x.identifier)(s.outputStep) && s.outputStep in Ids(s.steps)
    && CanonicalOk(x, AsData(s)) && x.Size(AsData(s)) <= MAX_DEFINITION_BYTES
  }

  /** The checks of the WorkflowSpec constructor, on slots and steps that passed their own. */
  method MakeSpec(x: Syntax, spec: Spec) returns (r: Option<Spec>)
    requires forall i :: 0 <= i < |spec.inputs| ==> SlotOk(x, spec.inputs[i])
    requires forall i :: 0 <= i < |spec.steps| ==> StepOk(x, spec.steps[i])
    ensures r == if ValidSpec(x, spec) then Some(spec) else None
  {
    hide SlotOk, StepOk, CanonicalOk, AsData, BindingsResolve, DistinctKeys, DistinctIds;
    var inputs, steps := spec.inputs, spec.steps;
    if !(x.identifier)(spec.workflowId) || !(x.text)(spec.version, 64) || |inputs| > MAX_INPUTS || !DistinctKeys(inputs)
      || !(1 <= |steps| <= MAX_STEPS) || !DistinctIds(steps) {
      return None;
    }
    var keys := Keys(inputs);
    var completed: set<string> := {};
    var k := 0;
    while k < |steps|
      invariant 0 <= k <= |steps| && completed == Ids(steps[..k])
      invariant forall i :: 0 <= i < k ==> BindingsResolve(steps[i], keys, Ids(steps[..i]))
    {
      if !BindingsResolve(steps[k], keys, completed) {
        return None;
      }
      IdsGrow(steps, k);
      completed, k := completed + {steps[k].stepId}, k + 1;
    }
    assert steps[..k] == steps;
    if !(x.identifier)(spec.outputStep) || spec.outputStep !in completed {
      return None;
    }
    if !CanonicalOk(x, AsData(spec)) || x.Size(AsData(spec)) > MAX_DEFINITION_BYTES {
      return None;
    }
    r := Some(spec);
  }

  lemma IdsGrow(steps: seq<Step>, k: nat)
    requires k < |steps|
    ensures Ids(steps[..k + 1]) == Ids(steps[..k]) + {steps[k].stepId}
  {
    var more := steps[..k + 1];
    forall id | id in Ids(steps[..k]) + {steps[k].stepId} ensures id in Ids(more) {
      if id in Ids(steps[..k]) {
        var i :| 0 <= i < |steps[..k]| && steps[..k][i].stepId == id;
        assert more[i].stepId == id;
      } else {
        assert more[k].stepId == id;
      }
    }
  }

  // ----- The data form -----

  function SlotData(s: Slot): Json {
    Obj(map["key" := Str(s.key), "type" := Str(s.valueType), "required" := Bool(s.required),
            "max_bytes" := Int(s.maxBytes)])
  }

  function BindingData(b: Binding): Json {
    match b
    case InputRef(key) => Obj(map["kind" := Str("input"), "key" := Str(key)])
    case StepRef(id) => Obj(map["kind" := Str("step_output"), "step_id" := Str(id)])
    case Literal(v) => Obj(map["kind" := Str("literal"), "value" := v])
  }

  function RevisionData(r: Option<string>): Json {
    match r case None => Null case Some(s) => Str(s)
  }

  function ArgumentsData(arguments: map<string, Binding>): Json {
    Obj(map name | name in arguments :: BindingData(arguments[name]))
  }

  function ResultData(s: Step): Json {
    Obj(map["type" := Str(s.resultType), "max_bytes" := Int(s.maxResultBytes)])
  }

  function StepData(s: Step): Json {
    Obj(map["step_id" := Str(s.stepId), "kind" := Str("tool"), "tool_name" := Str(s.toolName),
            "effect" := Str(s.effect), "tool_revision" := RevisionData(s.toolRevision),
            "schema_sha256" := Str(s.schemaSha256),
            "arguments" := ArgumentsData(s.arguments), "result" := ResultData(s)])
  }

  function SlotsData(slots: seq<Slot>): Json {
    Arr(seq(|slots|, i requires 0 <= i < |slots| => SlotData(slots[i])))
  }

  function StepsData(steps: seq<Step>): Json {
    Arr(seq(|steps|, i requires 0 <= i < |steps| => StepData(steps[i])))
  }

  function AsData(s: Spec): Json {
    Obj(map["schema_version" := Int(1), "workflow_id" := Str(s.workflowId), "version" := Str(s.version),
            "execution" := Str(EXECUTION), "inputs" := SlotsData(s.inputs), "steps" := StepsData(s.steps),
            "output_step" := Str(s.outputStep)])
  }

  function Digest(x: Syntax, s: Spec): string {
    x.JsonDigest(AsData(s))
  }

  // ----- Parsing -----

  /** The fields of an object with exactly these keys. */
  function Exact(j: Json, keys: set<string>): Option<Fields> {
    match j
    case Obj(fields) => if fields.Keys == keys then Some(fields) else None
    case _ => None
  }

  function SlotFromData(x: Syntax, j: Json): Option<Slot> {
    match Exact(j, {"key", "type", "required", "max_bytes"})
    case None => None
    case Some(f) =>
      if !f["key"].Str? || !f["type"].Str? || !f["required"].Bool? || !f["max_bytes"].Int? then None
      else
        var slot := Slot(f["key"].s, f["type"].s, f["required"].b, f["max_bytes"].n);
        if SlotOk(x, slot) then Some(slot) else None
  }

  function BindingFromData(x: Syntax, j: Json): Option<Binding> {
    if !j.Obj? then None
    else
      var kind := Get(j.fields, "kind");
      var binding :=
        if kind == Str("input") then
          (match Exact(j, {"kind", "key"}) case None => None case Some(f) =>
            if f["key"].Str? then Some(InputRef(f["key"].s)) else None)
        else if kind == Str("step_output") then
          (match Exact(j, {"kind", "step_id"}) case None => None case Some(f) =>
            if f["step_id"].Str? then Some(StepRef(f["step_id"].s)) else None)
        else if kind == Str("literal") then
          (match Exact(j, {"kind", "value"}) case None => None case Some(f) => Some(Literal(f["value"])))
        else None;
      if binding.Some? && BindingOk(x, binding.value) then binding else None
  }

  function ArgumentsFromData(x: Syntax, j: Json): Option<map<string, Binding>> {
    match j
    case Obj(fields) =>
      if forall name :: name in fields ==> BindingFromData(x, fields[name]).Some? then
        Some(map name | name in fields :: BindingFromData(x, fields[name]).value)
      else None
    case _ => None
  }

  function RevisionFromData(j: Json): Option<Option<string>> {
    match j case Null => Some(None) case Str(s) => Some(Some(s)) case _ => None
  }

  /** The step an object with the right fields describes, before its own checks. */
  function StepOf(x: Syntax, f: Fields, result: Fields): Option<Step>
    requires f.Keys == STEP_FIELDS && result.Keys == {"type", "max_bytes"}
  {
    var arguments, revision := ArgumentsFromData(x, f["arguments"]), RevisionFromData(f["tool_revision"]);
    if f["kind"] != Str("tool") || arguments.None? || revision.None?
      || !f["step_id"].Str? || !f["tool_name"].Str? || !f["effect"].Str? || !f["schema_sha256"].Str?
      || !result["type"].Str? || !result["max_bytes"].Int? then None
    else
      Some(Step(f["step_id"].s, f["tool_name"].s, f["effect"].s, revision.value, f["schema_sha256"].s,
                arguments.value, result["type"].s, result["max_bytes"].n))
  }

  function StepFromData(x: Syntax, j: Json): Option<Step> {
    match Exact(j, STEP_FIELDS)
    case None => None
    case Some(f) =>
      match Exact(f["result"], {"type", "max_bytes"})
      case None => None
      case Some(result) =>
        var step := StepOf(x, f, result);
        if step.Some? && StepOk(x, step.value) then step else None
  }

  function SlotsFromData(x: Syntax, items: seq<Json>): Option<seq<Slot>> {
    if items == [] then Some([])
    else
      var first, rest := SlotFromData(x, items[0]), SlotsFromData(x, items[1..]);
      if first.None? || rest.None? then None else Some([first.value] + rest.value)
  }

  function StepsFromData(x: Syntax, items: seq<Json>): Option<seq<Step>> {
    if items == [] then Some([])
    else
      var first, rest := StepFromData(x, items[0]), StepsFromData(x, items[1..]);
      if first.None? || rest.None? then None else Some([first.value] + rest.value)
  }

  const DEFINITION_FIELDS := {"schema_version", "workflow_id", "version", "execution", "inputs", "steps", "output_step"}

  /** Parses exactly the data that a workflow definition prints. */
  function FromData(x: Syntax, j: Json): Option<Spec> {
    if !CanonicalOk(x, j) then None
    else
      match Exact(j, DEFINITION_FIELDS)
      case None => None
      case Some(f) =>
        if f["schema_version"] != Int(1) || f["execution"] != Str(EXECUTION) || !f["inputs"].Arr? || !f["steps"].Arr?
          || !f["workflow_id"].Str? || !f["version"].Str? || !f["output_step"].Str? then None
        else
          var inputs, steps := SlotsFromData(x, f["inputs"].items), StepsFromData(x, f["steps"].items);
          if inputs.None? || steps.None? then None
          else
            var spec := Spec(f["workflow_id"].s, f["version"].s, inputs.value, steps.value, f["output_step"].s);
            if ValidSpec(x, spec) && AsData(spec) == j then Some(spec) else None
  }

  // ----- The round trip -----

  lemma SlotRoundTrip(x: Syntax, s: Slot)
    requires SlotOk(x, s)
    ensures SlotFromData(x, SlotData(s)) == Some(s)
  {
    assert SlotData(s).fields.Keys == {"key", "type", "required", "max_bytes"};
  }

  lemma BindingRoundTrip(x: Syntax, b: Binding)
    requires BindingOk(x, b)
    ensures BindingFromData(x, BindingData(b)) == Some(b)
  {
    var fields := BindingData(b).fields;
    match b {
      case InputRef(_) => assert fields.Keys == {"kind", "key"};
      case StepRef(_) => assert fields.Keys == {"kind", "step_id"};
      case Literal(_) => assert fields.Keys == {"kind", "value"};
    }
  }

  lemma ArgumentsRoundTrip(x: Syntax, arguments: map<string, Binding>)
    requires forall name :: name in arguments ==> BindingOk(x, arguments[name])
    ensures ArgumentsFromData(x, ArgumentsData(arguments)) == Some(arguments)
  {
    forall name | name in arguments ensures BindingFromData(x, BindingData(arguments[name])) == Some(arguments[name]) {
      BindingRoundTrip(x, arguments[name]);
    }
    hide BindingFromData, BindingData, BindingOk;
    var fields := ArgumentsData(arguments).fields;
    assert fields.Keys == arguments.Keys;
    assert (map name | name in fields :: BindingFromData(x, fields[name]).value) == arguments;
  }

  const STEP_FIELDS :=
    {"step_id", "kind", "tool_name", "effect", "tool_revision", "schema_sha256", "arguments", "result"}

  lemma StepDataFields(s: Step)
    ensures var f := StepData(s).fields;
      && f.Keys == STEP_FIELDS
      && f["step_id"] == Str(s.stepId) && f["kind"] == Str("tool") && f["tool_name"] == Str(s.toolName)
      && f["effect"] == Str(s.effect)
      && f["tool_revision"] == RevisionData(s.toolRevision) && f["schema_sha256"] == Str(s.schemaSha256)
      && f["arguments"] == ArgumentsData(s.arguments) && f["result"] == ResultData(s)
  {
    hide ArgumentsData, ResultData, RevisionData;
  }

  lemma ResultDataFields(s: Step)
    ensures var f := ResultData(s).fields;
      f.Keys == {"type", "max_bytes"} && f["type"] == Str(s.resultType) && f["max_bytes"] == Int(s.maxResultBytes)
  {
  }

  lemma StepRoundTrip(x: Syntax, s: Step)
    requires StepOk(x, s)
    ensures StepFromData(x, StepData(s)) == Some(s)
  {
    hide StepOf, StepOk, StepData, ResultData, ArgumentsData;
    StepDataFields(s);
    ResultDataFields(s);
    DataAreObjects(s);
    ArgumentsOk(x, s);
    StepOfRoundTrip(x, s, StepData(s).fields, ResultData(s).fields);
  }

  lemma DataAreObjects(s: Step)
    ensures StepData(s).Obj? && ResultData(s).Obj?
  {
  }

  lemma ArgumentsOk(x: Syntax, s: Step)
    requires StepOk(x, s)
    ensures ArgumentsFromData(x, ArgumentsData(s.arguments)) == Some(s.arguments)
  {
    hide ArgumentsFromData, ArgumentsData, BindingOk;
    ArgumentsRoundTrip(x, s.arguments);
  }

  lemma RevisionRoundTrip(r: Option<string>)
    ensures RevisionFromData(RevisionData(r)) == Some(r)
  {
  }

  lemma StepOfRoundTrip(x: Syntax, s: Step, f: Fields, result: Fields)
    requires ArgumentsFromData(x, ArgumentsData(s.arguments)) == Some(s.arguments)
    requires StepData(s) == Obj(f) && ResultData(s) == Obj(result)
    requires f.Keys == STEP_FIELDS && result.Keys == {"type", "max_bytes"}
    ensures StepOf(x, f, result) == Some(s)
  {
    hide ArgumentsFromData, ArgumentsData, StepData, ResultData, RevisionFromData, RevisionData;
    StepDataFields(s);
    ResultDataFields(s);
    RevisionRoundTrip(s.toolRevision);
  }

  lemma {:induction false} SlotsRoundTrip(x: Syntax, slots: seq<Slot>)
    requires forall i :: 0 <= i < |slots| ==> SlotOk(x, slots[i])
    ensures SlotsFromData(x, SlotsData(slots).items) == Some(slots)
  {
    hide SlotOk, SlotData, SlotFromData;
    if slots != [] {
      SlotRoundTrip(x, slots[0]);
      SlotsRoundTrip(x, slots[1..]);
      assert SlotsData(slots).items[1..] == SlotsData(slots[1..]).items;
      assert [slots[0]] + slots[1..] == slots;
    }
  }

  lemma {:induction false} StepsRoundTrip(x: Syntax, steps: seq<Step>)
    requires forall i :: 0 <= i < |steps| ==> StepOk(x, steps[i])
    ensures StepsFromData(x, StepsData(steps).items) == Some(steps)
  {
    hide StepOk, StepData, StepFromData;
    if steps != [] {
      StepRoundTrip(x, steps[0]);
      StepsRoundTrip(x, steps[1..]);
      assert StepsData(steps).items[1..] == StepsData(steps[1..]).items;
      assert [steps[0]] + steps[1..] == steps;
    }
  }

  lemma AsDataFields(s: Spec)
    ensures AsData(s).Obj?
    ensures var f := AsData(s).fields;
      && f.Keys == DEFINITION_FIELDS
      && f["schema_version"] == Int(1) && f["workflow_id"] == Str(s.workflowId) && f["version"] == Str(s.version)
      && f["execution"] == Str(EXECUTION) && f["inputs"] == SlotsData(s.inputs) && f["steps"] == StepsData(s.steps)
      && f["output_step"] == Str(s.outputStep)
  {
    hide SlotsData, StepsData;
  }

  /** Parsing accepts exactly the data of valid definitions, and returns the very definition that
      prints it: same data, hence same digest. */
  lemma ParsesExactlyItsOwnData(x: Syntax, j: Json, s: Spec)
    ensures FromData(x, j) == Some(s) <==> ValidSpec(x, s) && AsData(s) == j
  {
    if ValidSpec(x, s) && AsData(s) == j {
      SlotsRoundTrip(x, s.inputs);
      StepsRoundTrip(x, s.steps);
      AsDataFields(s);
      SlotsAreArrays(s);
      assert CanonicalOk(x, j);
      hide ValidSpec, SlotsFromData, StepsFromData, SlotsData, StepsData, CanonicalOk, AsData;
      assert Spec(s.workflowId, s.version, s.inputs, s.steps, s.outputStep) == s;
    }
  }

  lemma SlotsAreArrays(s: Spec)
    ensures SlotsData(s.inputs).Arr? && StepsData(s.steps).Arr?
  {
  }

  // ----- Evaluation -----

  datatype ResolveError = InputUnavailable(key: string) | OutputUnavailable(stepId: string) | PayloadTooLarge

  function ResolveOne(b: Binding, input: map<string, Json>, outputs: map<string, Json>): (r: Result<Json, ResolveError>)
    ensures r.Err? ==> !r.error.PayloadTooLarge?
  {
    match b
    case InputRef(key) => if key in input then Ok(input[key]) else Err(InputUnavailable(key))
    case StepRef(id) => if id in outputs then Ok(outputs[id]) else Err(OutputUnavailable(id))
    case Literal(v) => Ok(v)
  }

  /** Every argument has its value, and there is no other. */
  predicate AllResolve(arguments: map<string, Binding>, input: map<string, Json>, outputs: map<string, Json>,
          values: map<string, Json>) {
    && values.Keys == arguments.Keys
    && (forall name :: name in arguments ==> ResolveOne(arguments[name], input, outputs) == Ok(values[name]))
  }

  predicate PayloadOk(x: Syntax, values: map<string, Json>) {
    CanonicalOk(x, Obj(values)) && x.Size(Obj(values)) <= MAX_PAYLOAD_BYTES
  }

  /** The arguments of a step as JSON values; any binding without a value makes it fail. */
  method ResolveArguments(x: Syntax, step: Step, input: map<string, Json>, outputs: map<string, Json>)
    returns (r: Result<map<string, Json>, ResolveError>)
    ensures r.Err? && !r.error.PayloadTooLarge? ==>
      exists name :: name in step.arguments && ResolveOne(step.arguments[name], input, outputs) == Err(r.error)
    ensures r.Ok? ==> AllResolve(step.arguments, input, outputs, r.value) && PayloadOk(x, r.value)
    ensures r == Err(PayloadTooLarge) ==>
      exists all :: AllResolve(step.arguments, input, outputs, all) && !PayloadOk(x, all)
  {
    hide ResolveOne, PayloadOk;
    var resolved: map<string, Json> := map[];
    var names := step.arguments.Keys;
    while names != {}
      invariant names <= step.arguments.Keys && resolved.Keys == step.arguments.Keys - names
      invariant forall name :: name in resolved ==>
        name in step.arguments && ResolveOne(step.arguments[name], input, outputs) == Ok(resolved[name])
      decreases |names|
    {
      var name :| name in names;
      var value := ResolveOne(step.arguments[name], input, outputs);
      if value.Err? {
        return Err(value.error);
      }
      resolved, names := resolved[name := value.value], names - {name};
    }
    assert AllResolve(step.arguments, input, outputs, resolved);
    if !PayloadOk(x, resolved) {
      return Err(PayloadTooLarge);
    }
    r := Ok(resolved);
  }

  /** In a valid definition, when every earlier step has an output, no binding of a step lacks one, and
      the only inputs that can be missing are declared optional ones. */
  lemma EarlierOutputsSuffice(x: Syntax, spec: Spec, i: nat, name: string, input: map<string, Json>,
          outputs: map<string, Json>)
    requires ValidSpec(x, spec) && i < |spec.steps| && name in spec.steps[i].arguments
    requires forall j :: 0 <= j < i ==> spec.steps[j].stepId in outputs
    requires forall k :: 0 <= k < |spec.inputs| && spec.inputs[k].required ==> spec.inputs[k].key in input
    ensures var r := ResolveOne(spec.steps[i].arguments[name], input, outputs);
      r.Err? ==>
        && r.error.InputUnavailable?
        && exists k :: 0 <= k < |spec.inputs| && spec.inputs[k].key == r.error.key && !spec.inputs[k].required
  {
    assert BindingsResolve(spec.steps[i], Keys(spec.inputs), Ids(spec.steps[..i]));
    match spec.steps[i].arguments[name] {
      case InputRef(key) =>
        var k :| 0 <= k < |spec.inputs| && spec.inputs[k].key == key;
      case StepRef(id) =>
        var j :| 0 <= j < |spec.steps[..i]| && spec.steps[..i][j].stepId == id;
      case Literal(_) =>
    }
  }

  /** The outputs of the steps done so far: exactly the ids of those steps, each with its result. */
  ghost predicate Progress(steps: seq<Step>, k: nat, outputs: map<string, Json>, results: seq<Json>)
    requires k <= |steps| == |results|
  {
    && outputs.Keys == Ids(steps[..k])
    && (forall i :: 0 <= i < k ==> steps[i].stepId in outputs && outputs[steps[i].stepId] == results[i])
  }

  lemma ProgressStep(steps: seq<Step>, k: nat, outputs: map<string, Json>, results: seq<Json>)
    requires k < |steps| == |results| && DistinctIds(steps) && Progress(steps, k, outputs, results)
    ensures Progress(steps, k + 1, outputs[steps[k].stepId := results[k]], results)
  {
    IdsGrow(steps, k);
  }

  lemma NeverOutputUnavailable(x: Syntax, spec: Spec, k: nat, input: map<string, Json>,
          outputs: map<string, Json>, results: seq<Json>, error: ResolveError)
    requires ValidSpec(x, spec) && k < |spec.steps| == |results| && Progress(spec.steps, k, outputs, results)
    requires forall k :: 0 <= k < |spec.inputs| && spec.inputs[k].required ==> spec.inputs[k].key in input
    requires var arguments := spec.steps[k].arguments;
      exists name :: name in arguments && ResolveOne(arguments[name], input, outputs) == Err(error)
    ensures !error.OutputUnavailable?
  {
    hide ValidSpec, ResolveOne, Ids;
    var arguments := spec.steps[k].arguments;
    var name :| name in arguments && ResolveOne(arguments[name], input, outputs) == Err(error);
    EarlierOutputsSuffice(x, spec, k, name, input, outputs);
  }

  lemma ValidSteps(x: Syntax, spec: Spec)
    requires ValidSpec(x, spec)
    ensures DistinctIds(spec.steps) && spec.outputStep in Ids(spec.steps)
  {
  }

  /** Progress at its two ends. */
  lemma ProgressEnds(steps: seq<Step>, outputs: map<string, Json>, results: seq<Json>)
    requires |steps| == |results|
    ensures Progress(steps, 0, map[], results)
    ensures Progress(steps, |steps|, outputs, results) ==>
      && outputs.Keys == Ids(steps)
      && forall i :: 0 <= i < |steps| ==> steps[i].stepId in outputs && outputs[steps[i].stepId] == results[i]
  {
    assert steps[..|steps|] == steps;
  }

  /** Runs the steps of a valid definition in order; `results` are the outputs the tools give. */
  method Evaluate(x: Syntax, spec: Spec, input: map<string, Json>,
          results: seq<Json>) returns (outputs: map<string, Json>, failure: Option<ResolveError>)
    requires ValidSpec(x, spec) && |results| == |spec.steps|
    requires forall k :: 0 <= k < |spec.inputs| && spec.inputs[k].required ==> spec.inputs[k].key in input
    ensures failure.Some? ==> !failure.value.OutputUnavailable?
    ensures failure.None? ==> outputs.Keys == Ids(spec.steps) && spec.outputStep in outputs
    ensures failure.None? ==> forall i :: 0 <= i < |spec.steps| ==>
      spec.steps[i].stepId in outputs && outputs[spec.steps[i].stepId] == results[i]
  {
    hide ValidSpec, ResolveOne, DistinctIds, CanonicalOk, AllResolve, PayloadOk, Progress, Ids;
    outputs, failure := map[], None;
    ValidSteps(x, spec);
    ProgressEnds(spec.steps, outputs, results);
    var k := 0;
    while k < |spec.steps|
      invariant 0 <= k <= |spec.steps| && failure.None? && Progress(spec.steps, k, outputs, results)
    {
      var step := spec.steps[k];
      var arguments := ResolveArguments(x, step, input, outputs);
      if arguments.Err? {
        if !arguments.error.PayloadTooLarge? {
          NeverOutputUnavailable(x, spec, k, input, outputs, results, arguments.error);
        }
        return outputs, Some(arguments.error);
      }
      ProgressStep(spec.steps, k, outputs, results);
      outputs, k := outputs[step.stepId := results[k]], k + 1;
    }
    ProgressEnds(spec.steps, outputs, results);
  }
}
