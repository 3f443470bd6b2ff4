/** The validator of a public workflow projection, and the frontier every accepted one has. */
module WorkflowProjection {
  import opened Wrappers

  datatype Status =
    | Pending | Requested | Running | ApprovalRequired | ResumeRequired | RetryableIdempotent | EffectUnknown
    | Completed | Failed | Stopped

  datatype Effect = ReadOnly | Idempotent | SideEffecting

  /** A step of the projection. `fieldsOk` stands for the checks on single fields that relate to
      nothing else: key set, text bounds, digest syntax, result type and size. */
  datatype StepView = StepView(
    position: int,
    stepId: string,
    dispatchName: string,
    effect: Effect,
    logicalRevision: Option<string>,
    dispatchRevision: Option<string>,
    callId: Option<string>,
    status: Status,
    errorCode: Option<string>,
    fieldsOk: bool)

  datatype Workflow = Workflow(
    appId: string,
    outputStep: string,
    currentStepId: Option<string>,
    latestSeq: int,
    steps: seq<StepView>,
    fieldsOk: bool)

  datatype PendingCall = PendingCall(callId: Option<string>, toolName: string, effect: Effect)

  /** The run projection the workflow view must agree with. `step` is `None` when it is no integer. */
  datatype Core = Core(
    appId: string,
    latestSeq: int,
    state: string,
    pauseReason: Option<string>,
    pending: Option<PendingCall>,
    detail: string,
    step: Option<int>)

  const MAX_STEPS := 128

  predicate Terminal(state: string) {
    state == "completed" || state == "failed" || state == "cancelled"
  }

  predicate All(steps: seq<StepView>, status: Status) {
    forall i :: 0 <= i < |steps| ==> steps[i].status == status
  }

  predicate PendingMatches(pending: Option<PendingCall>, step: StepView) {
    pending.Some? && pending.value == PendingCall(step.callId, step.dispatchName, step.effect)
  }

  /** Completed before `at`, one of `here` at `at`, and `rest` after it. */
  predicate SplitAt(steps: seq<StepView>, at: nat, here: set<Status>, rest: Status)
    requires at < |steps|
  {
    All(steps[..at], Completed) && steps[at].status in here && All(steps[at + 1..], rest)
  }

  /** The status and detail a pause reason calls for. */
  function Pause(reason: Option<string>): Option<(Status, string)> {
    if reason == Some("approval_required") then Some((ApprovalRequired, "awaiting_approval"))
    else if reason == Some("resume_required") then Some((ResumeRequired, "awaiting_resume"))
    else if reason == Some("retryable_idempotent") then Some((RetryableIdempotent, "paused_recovery"))
    else if reason == Some("effect_unknown") then Some((EffectUnknown, "effect_unknown"))
    else None
  }

  predicate Idle(core: Core) {
    core.pauseReason.None? && core.pending.None?
  }

  predicate RunningOk(steps: seq<StepView>, core: Core) {
    var n := |steps|;
    && Idle(core)
    && if core.detail == "ready_model" && core.step.Some? && 0 <= core.step.value <= n then
         All(steps[..core.step.value], Completed) && All(steps[core.step.value..], Pending)
       else if core.detail == "processing_reply" && core.step.Some? && 1 <= core.step.value <= n then
         SplitAt(steps, core.step.value - 1, {Requested, Running}, Pending)
       else
         core.detail == "pending_final" && core.step == Some(n + 1) && All(steps, Completed)
  }

  predicate PausedOk(steps: seq<StepView>, core: Core) {
    var expected := Pause(core.pauseReason);
    && expected.Some? && core.detail == expected.value.1
    && core.step.Some? && 1 <= core.step.value <= |steps|
    && SplitAt(steps, core.step.value - 1, {expected.value.0}, Pending)
    && PendingMatches(core.pending, steps[core.step.value - 1])
  }

  /** A run that ended at step `p` of the loop, with the statuses step `p` may have. */
  predicate EndedAt(steps: seq<StepView>, p: int, here: set<Status>) {
    && 0 <= p <= |steps| + 1
    && if p == 0 then All(steps, Stopped)
       else if p == |steps| + 1 then All(steps, Completed)
       else SplitAt(steps, p - 1, here, Stopped)
  }

  predicate SemanticsOk(steps: seq<StepView>, core: Core) {
    var n := |steps|;
    if core.state == "completed" then
      Idle(core) && core.detail == "completed" && core.step == Some(n + 1) && All(steps, Completed)
    else if core.state == "running" then RunningOk(steps, core)
    else if core.state == "paused" then PausedOk(steps, core)
    else if core.state == "failed" then
      Idle(core) && core.detail == "failed" && core.step.Some? && EndedAt(steps, core.step.value, {Completed, Failed})
    else if core.state == "cancelled" then
      if core.pauseReason == Some("effect_unknown") then
        && core.detail == "cancelled" && core.step.Some? && 1 <= core.step.value <= n
        && SplitAt(steps, core.step.value - 1, {EffectUnknown}, Stopped)
        && PendingMatches(core.pending, steps[core.step.value - 1])
      else
        && Idle(core) && core.detail == "cancelled" && core.step.Some?
        && (forall i :: 0 <= i < n ==> steps[i].status != EffectUnknown)
        && EndedAt(steps, core.step.value, {Completed, Failed, Stopped})
    else false
  }

  /** The checks that relate the fields of one step. */
  predicate StepOk(step: StepView, position: int) {
    && step.fieldsOk && step.position == position
    && (step.effect != ReadOnly ==> step.logicalRevision.Some? && step.dispatchRevision.Some?)
    && (step.status in {ApprovalRequired, ResumeRequired, EffectUnknown} ==> step.effect != ReadOnly)
    && (step.status == RetryableIdempotent ==> step.effect == Idempotent)
    && (step.status == Failed <==> step.errorCode.Some?)
    && (step.status == Pending ==> step.callId.None?)
    && (step.status !in {Pending, Stopped} ==> step.callId.Some?)
  }

  /** Step ids, dispatch names and present call ids are unique. */
  predicate Unique(steps: seq<StepView>) {
    forall i, j :: 0 <= i < j < |steps| ==>
      && steps[i].stepId != steps[j].stepId
      && steps[i].dispatchName != steps[j].dispatchName
      && (steps[i].callId.Some? ==> steps[i].callId != steps[j].callId)
  }

  /** The id of the first step that is neither completed nor stopped. */
  function FirstUnfinished(steps: seq<StepView>): Option<string> {
    if steps == [] then None
    else if steps[0].status !in {Completed, Stopped} then Some(steps[0].stepId)
    else FirstUnfinished(steps[1..])
  }

  predicate Accepted(w: Workflow, core: Core) {
    && w.fieldsOk && w.appId == core.appId && 0 <= w.latestSeq == core.latestSeq
    && 1 <= |w.steps| <= MAX_STEPS
    && (forall i :: 0 <= i < |w.steps| ==> StepOk(w.steps[i], i + 1))
    && Unique(w.steps)
    && (exists i :: 0 <= i < |w.steps| && w.steps[i].stepId == w.outputStep)
    && w.currentStepId == (if Terminal(core.state) then None else FirstUnfinished(w.steps))
    && SemanticsOk(w.steps, core)
  }

  lemma NothingSeen(steps: seq<StepView>)
    ensures Unique(steps[..0]) && Seen(steps, 0, {}, {}, {})
  {
  }

  /** One more step is unique exactly when nothing of it occurred before. */
  lemma UniqueSnoc(steps: seq<StepView>, k: nat)
    requires k < |steps| && Unique(steps[..k])
    ensures Unique(steps[..k + 1]) <==> forall i :: 0 <= i < k ==>
      && steps[i].stepId != steps[k].stepId && steps[i].dispatchName != steps[k].dispatchName
      && (steps[i].callId.Some? ==> steps[i].callId != steps[k].callId)
  {
    assert forall i :: 0 <= i < k ==> steps[..k][i] == steps[i] == steps[..k + 1][i];
    assert steps[..k + 1][k] == steps[k];
  }

  /** A repeated step anywhere makes the whole list repeat. */
  lemma UniquePrefix(steps: seq<StepView>, k: nat)
    requires k <= |steps| && Unique(steps)
    ensures Unique(steps[..k])
  {
  }

  /** The three sets hold exactly what occurs among the first `k` steps. */
  predicate Seen(steps: seq<StepView>, k: nat, stepIds: set<string>, dispatchNames: set<string>, callIds: set<string>)
    requires k <= |steps|
  {
    && stepIds == (set i | 0 <= i < k :: steps[i].stepId)
    && dispatchNames == (set i | 0 <= i < k :: steps[i].dispatchName)
    && callIds == (set i | 0 <= i < k && steps[i].callId.Some? :: steps[i].callId.value)
  }

  predicate Repeats(step: StepView, stepIds: set<string>, dispatchNames: set<string>, callIds: set<string>) {
    step.stepId in stepIds || step.dispatchName in dispatchNames || (step.callId.Some? && step.callId.value in callIds)
  }

  function CallIds(step: StepView): set<string> {
    if step.callId.Some? then {step.callId.value} else {}
  }

  /** A step that repeats nothing seen keeps the steps unique; one that does rules it out for good. */
  lemma SeenRepeats(steps: seq<StepView>, k: nat, stepIds: set<string>, dispatchNames: set<string>,
          callIds: set<string>)
    requires k < |steps| && Unique(steps[..k]) && Seen(steps, k, stepIds, dispatchNames, callIds)
    ensures Unique(steps[..k + 1]) <==> !Repeats(steps[k], stepIds, dispatchNames, callIds)
    ensures Unique(steps) ==> !Repeats(steps[k], stepIds, dispatchNames, callIds)
  {
    hide Unique;
    UniqueSnoc(steps, k);
    if Unique(steps) {
      UniquePrefix(steps, k + 1);
    }
  }

  lemma SeenSnoc(steps: seq<StepView>, k: nat, stepIds: set<string>, dispatchNames: set<string>, callIds: set<string>)
    requires k < |steps| && Seen(steps, k, stepIds, dispatchNames, callIds)
    ensures Seen(steps, k + 1, stepIds + {steps[k].stepId}, dispatchNames + {steps[k].dispatchName},
                 callIds + CallIds(steps[k]))
  {
  }

  lemma SeenAll(steps: seq<StepView>, stepIds: set<string>, dispatchNames: set<string>, callIds: set<string>)
    requires Seen(steps, |steps|, stepIds, dispatchNames, callIds)
    ensures forall id :: id in stepIds <==> exists i :: 0 <= i < |steps| && steps[i].stepId == id
  {
  }

  method ValidateWorkflowProjection(w: Workflow, core: Core) returns (accepted: bool)
    ensures accepted == Accepted(w, core)
  {
    hide StepOk, SemanticsOk, Unique, Seen, Repeats;
    if !w.fieldsOk || w.appId != core.appId || w.latestSeq < 0 || w.latestSeq != core.latestSeq {
      return false;
    }
    var steps := w.steps;
    if !(1 <= |steps| <= MAX_STEPS) {
      return false;
    }
    var stepIds: set<string>, dispatchNames: set<string>, callIds: set<string> := {}, {}, {};
    var k := 0;
    NothingSeen(steps);
    while k < |steps|
      invariant 0 <= k <= |steps|
      invariant forall i :: 0 <= i < k ==> StepOk(steps[i], i + 1)
      invariant Unique(steps[..k]) && Seen(steps, k, stepIds, dispatchNames, callIds)
    {
      var step := steps[k];
      SeenRepeats(steps, k, stepIds, dispatchNames, callIds);
      if !StepOk(step, k + 1) || Repeats(step, stepIds, dispatchNames, callIds) {
        return false;
      }
      SeenSnoc(steps, k, stepIds, dispatchNames, callIds);
      stepIds := stepIds + {step.stepId};
      dispatchNames := dispatchNames + {step.dispatchName};
      callIds := callIds + CallIds(step);
      k := k + 1;
    }
    assert steps[..k] == steps;
    SeenAll(steps, stepIds, dispatchNames, callIds);
    if w.outputStep !in stepIds {
      return false;
    }
    var expectedCurrent := None;
    if !Terminal(core.state) {
      expectedCurrent := FirstUnfinished(steps);
    }
    accepted := w.currentStepId == expectedCurrent && SemanticsOk(steps, core);
  }

  // ----- The frontier -----

  /** Everything before `k` is completed, everything after it is untouched or stopped, and at `k` stands
      the only step that may be under way or failed. */
  predicate Frontier(steps: seq<StepView>, k: nat, terminal: bool) {
    && k <= |steps|
    && (forall i :: 0 <= i < k ==> steps[i].status == Completed)
    && (forall i :: k < i < |steps| ==> steps[i].status == (if terminal then Stopped else Pending))
    && (k < |steps| ==>
          if terminal then steps[k].status in {Failed, EffectUnknown, Stopped}
          else steps[k].status !in {Completed, Failed, Stopped})
  }

  /** The frontier a loop position calls for. */
  function FrontierOf(steps: seq<StepView>, core: Core): nat
    requires SemanticsOk(steps, core)
  {
    var n := |steps|;
    if core.state == "completed" then n
    else
      var p := core.step.value;
      if core.state == "running" && core.detail == "ready_model" && p <= n then p
      else if p == 0 then 0
      else if p == n + 1 then n
      else if steps[p - 1].status == Completed then p
      else p - 1
  }

  lemma SplitFrontier(steps: seq<StepView>, at: nat, here: set<Status>, terminal: bool)
    requires at < |steps| && SplitAt(steps, at, here, if terminal then Stopped else Pending)
    ensures forall i :: 0 <= i < at ==> steps[i].status == Completed
    ensures forall i :: at < i < |steps| ==> steps[i].status == (if terminal then Stopped else Pending)
  {
    assert forall i :: 0 <= i < at ==> steps[..at][i] == steps[i];
    assert forall i :: at < i < |steps| ==> steps[at + 1..][i - at - 1] == steps[i];
  }

  const LIVE := {ApprovalRequired, ResumeRequired, RetryableIdempotent, EffectUnknown}

  /** Any steps that are split at `p - 1`, or all alike at the ends, have a frontier there. */
  lemma SplitHasFrontier(steps: seq<StepView>, p: nat, terminal: bool)
    requires 1 <= p <= |steps|
    requires SplitAt(steps, p - 1, {steps[p - 1].status}, if terminal then Stopped else Pending)
    requires steps[p - 1].status in (if terminal then {Completed, Failed, EffectUnknown, Stopped}
                                     else {Requested, Running} + LIVE)
    ensures Frontier(steps, if steps[p - 1].status == Completed then p else p - 1, terminal)
  {
    SplitFrontier(steps, p - 1, {steps[p - 1].status}, terminal);
  }

  lemma ReadyHasFrontier(steps: seq<StepView>, p: nat)
    requires p <= |steps| && All(steps[..p], Completed) && All(steps[p..], Pending)
    ensures Frontier(steps, p, false)
  {
    assert forall i :: 0 <= i < p ==> steps[..p][i] == steps[i];
    assert forall i :: p <= i < |steps| ==> steps[p..][i - p] == steps[i];
  }

  lemma AllAlikeHasFrontier(steps: seq<StepView>, terminal: bool)
    ensures All(steps, Completed) ==> Frontier(steps, |steps|, terminal)
    ensures All(steps, Stopped) ==> Frontier(steps, 0, true)
  {
  }

  lemma AcceptedSemanticsHaveFrontier(steps: seq<StepView>, core: Core)
    requires SemanticsOk(steps, core)
    ensures Frontier(steps, FrontierOf(steps, core), Terminal(core.state))
    ensures core.state == "paused" ==>
      var k := FrontierOf(steps, core); k < |steps| && PendingMatches(core.pending, steps[k])
  {
    hide All, Frontier;
    var n := |steps|;
    AllAlikeHasFrontier(steps, Terminal(core.state));
    if core.state != "completed" {
      var p := core.step.value;
      if core.state == "running" && core.detail == "ready_model" && p <= n {
        ReadyHasFrontier(steps, p);
      } else if 1 <= p <= n {
        SplitHasFrontier(steps, p, Terminal(core.state));
      }
    }
  }

  lemma {:induction false} FirstUnfinishedIs(steps: seq<StepView>, k: nat)
    requires Frontier(steps, k, false)
    ensures FirstUnfinished(steps) == if k < |steps| then Some(steps[k].stepId) else None
    decreases k
  {
    if k > 0 {
      FirstUnfinishedIs(steps[1..], k - 1);
    }
  }

  /** Every accepted projection, of any number of steps, has a frontier; while the run is not terminal
      the current step is the one at the frontier, and when it is paused the pending request belongs
      to that step. */
  lemma AcceptedHasFrontier(w: Workflow, core: Core)
    requires Accepted(w, core)
    ensures var k := FrontierOf(w.steps, core);
      && Frontier(w.steps, k, Terminal(core.state))
      && (Terminal(core.state) ==> w.currentStepId.None?)
      && (!Terminal(core.state) ==> w.currentStepId == if k < |w.steps| then Some(w.steps[k].stepId) else None)
      && (core.state == "paused" ==>
            && k < |w.steps| && w.currentStepId == Some(w.steps[k].stepId)
            && core.pending == Some(PendingCall(w.steps[k].callId, w.steps[k].dispatchName, w.steps[k].effect))
            && w.steps[k].callId.Some? && w.steps[k].effect != ReadOnly)
  {
    AcceptedSemanticsHaveFrontier(w.steps, core);
    var k := FrontierOf(w.steps, core);
    if !Terminal(core.state) {
      FirstUnfinishedIs(w.steps, k);
    }
    if core.state == "paused" {
      assert StepOk(w.steps[k], k + 1);
      PausedStatus(w.steps, core);
    }
  }

  lemma PausedStatus(steps: seq<StepView>, core: Core)
    requires core.state == "paused" && SemanticsOk(steps, core)
    ensures steps[FrontierOf(steps, core)].status in LIVE
  {
    AcceptedSemanticsHaveFrontier(steps, core);
  }

  /** At most one step of an accepted projection is under way or failed. */
  lemma AtMostOneUnderWay(w: Workflow, core: Core, i: nat, j: nat)
    requires Accepted(w, core) && i < |w.steps| && j < |w.steps|
    requires w.steps[i].status !in {Completed, Pending, Stopped} && w.steps[j].status !in {Completed, Pending, Stopped}
    ensures i == j
  {
    AcceptedSemanticsHaveFrontier(w.steps, core);
  }

  // ----- The builder of step statuses -----

  datatype CallStatus =
    | CallPending | CallRequested | AwaitingApproval | Approved | Denied | Dispatching | UnknownEffect | Settled
    | OtherCall

  /** A durable call: its status, the error code of its result if it has one, its id, which may be null, and the
      tool it dispatches. `textsOk` says that the id and the error code, where present, are texts a projection
      may carry. */
  datatype Call = Call(
    status: CallStatus,
    result: Option<Option<string>>,
    callId: Option<string>,
    name: string,
    effect: Effect,
    textsOk: bool)

  function StepStatus(call: Option<Call>, position: int, currentPosition: int, pauseReason: Option<string>,
          terminal: bool)
    : Option<(Status, Option<string>)>
  {
    match call
    case None => Some((if terminal then Stopped else Pending, None))
    case Some(c) =>
      if c.result.Some? then Some((if c.result.value.Some? then Failed else Completed, c.result.value))
      else if c.status == UnknownEffect then Some((EffectUnknown, None))
      else if terminal then Some((Stopped, None))
      else if position == currentPosition && Pause(pauseReason).Some? then Some((Pause(pauseReason).value.0, None))
      else
        match c.status
        case CallPending => Some((Requested, None))
        case CallRequested => Some((Requested, None))
        case AwaitingApproval => Some((ApprovalRequired, None))
        case Approved => Some((ResumeRequired, None))
        case Denied => Some((ResumeRequired, None))
        case Dispatching => Some((Running, None))
        case UnknownEffect => Some((EffectUnknown, None))
        case Settled => None
        case OtherCall => None
  }

  /** The statuses of the builder fit their call: an error code exactly on failure, a call behind everything
      but pending and stopped, none behind pending, and no live status in a terminal run other than an
      unknown effect. */
  lemma StepStatusFits(call: Option<Call>, position: int, currentPosition: int, pauseReason: Option<string>,
          terminal: bool)
    requires StepStatus(call, position, currentPosition, pauseReason, terminal).Some?
    ensures var (status, error) := StepStatus(call, position, currentPosition, pauseReason, terminal).value;
      && (status == Failed <==> error.Some?)
      && (status == Pending ==> call.None?)
      && (status !in {Pending, Stopped} ==> call.Some?)
      && (terminal ==> status in {Completed, Failed, Stopped, EffectUnknown})
      && (!terminal ==> status != Stopped)
  {
  }

  /** What the definition and its wrapper tool say about a step; `callId` is the id a call of it must have. */
  datatype StepBase = StepBase(
    stepId: string,
    callId: string,
    dispatchName: string,
    effect: Effect,
    logicalRevision: Option<string>,
    dispatchRevision: Option<string>,
    fieldsOk: bool)

  /** The public view of one step, from its durable calls; more than one call is an error. */
  function BuiltStep(base: StepBase, calls: seq<Call>, position: int, currentPosition: int, pauseReason: Option<string>,
          terminal: bool): Option<StepView>
  {
    if |calls| > 1 then None
    else
      var call := if |calls| == 1 then Some(calls[0]) else None;
      match StepStatus(call, position, currentPosition, pauseReason, terminal)
      case None => None
      case Some((status, errorCode)) =>
        Some(StepView(position, base.stepId, base.dispatchName, base.effect, base.logicalRevision,
                      base.dispatchRevision, if call.Some? then call.value.callId else None, status, errorCode,
                      base.fieldsOk && (call.Some? ==> call.value.textsOk)))
  }

  /** A step whose own texts are in order, with revisions where its effect calls for them. */
  predicate BaseOk(base: StepBase) {
    base.fieldsOk && (base.effect != ReadOnly ==> base.logicalRevision.Some? && base.dispatchRevision.Some?)
  }

  /** The effects a status may stand beside. */
  predicate EffectAllows(status: Status, effect: Effect) {
    && (status in {ApprovalRequired, ResumeRequired, EffectUnknown} ==> effect != ReadOnly)
    && (status == RetryableIdempotent ==> effect == Idempotent)
  }

  /** A step whose definition is in order is accepted exactly when its call, if there is one, has proper
      texts and an id, which only a stopped step may lack, and its status fits its effect. */
  lemma BuiltStepAcceptedExactly(base: StepBase, calls: seq<Call>, position: int, currentPosition: int,
          pauseReason: Option<string>, terminal: bool)
    requires BuiltStep(base, calls, position, currentPosition, pauseReason, terminal).Some?
    requires BaseOk(base)
    ensures var step := BuiltStep(base, calls, position, currentPosition, pauseReason, terminal).value;
      StepOk(step, position) <==>
        && (calls != [] ==> calls[0].textsOk && (calls[0].callId.None? ==> step.status == Stopped))
        && EffectAllows(step.status, base.effect)
  {
    hide StepStatus;
    var call := if |calls| == 1 then Some(calls[0]) else None;
    StepStatusFits(call, position, currentPosition, pauseReason, terminal);
    CalledIsNotPending(call, position, currentPosition, pauseReason, terminal);
  }

  lemma CalledIsNotPending(call: Option<Call>, position: int, currentPosition: int, pauseReason: Option<string>,
          terminal: bool)
    requires StepStatus(call, position, currentPosition, pauseReason, terminal).Some?
    ensures call.None? ==>
      StepStatus(call, position, currentPosition, pauseReason, terminal).value.0 in {Pending, Stopped}
    ensures call.None? ==> StepStatus(call, position, currentPosition, pauseReason, terminal).value.1.None?
  {
  }

  /** What the run and the definition give the builder besides the steps. */
  datatype Header = Header(appId: string, outputStep: string, latestSeq: int, fieldsOk: bool)

  function BuiltSteps(bases: seq<StepBase>, calls: seq<seq<Call>>, at: nat, currentPosition: int,
          pauseReason: Option<string>, terminal: bool): Option<seq<StepView>>
    requires |bases| == |calls| && at <= |bases|
    decreases |bases| - at
  {
    if at == |bases| then Some([])
    else
      match BuiltStep(bases[at], calls[at], at + 1, currentPosition, pauseReason, terminal)
      case None => None
      case Some(step) =>
        match BuiltSteps(bases, calls, at + 1, currentPosition, pauseReason, terminal)
        case None => None
        case Some(rest) => Some([step] + rest)
  }

  function Built(h: Header, bases: seq<StepBase>, calls: seq<seq<Call>>, currentPosition: int,
          pauseReason: Option<string>, terminal: bool): Option<Workflow>
    requires |bases| == |calls|
  {
    match BuiltSteps(bases, calls, 0, currentPosition, pauseReason, terminal)
    case None => None
    case Some(steps) =>
      var current := if terminal then None else FirstUnfinished(steps);
      Some(Workflow(h.appId, h.outputStep, current, h.latestSeq, steps, h.fieldsOk))
  }

  function Prefixed(front: seq<StepView>, rest: Option<seq<StepView>>): Option<seq<StepView>> {
    match rest case None => None case Some(s) => Some(front + s)
  }

  lemma PrefixedStep(front: seq<StepView>, step: StepView, rest: Option<seq<StepView>>)
    ensures Prefixed(front, Prefixed([step], rest)) == Prefixed(front + [step], rest)
    ensures Prefixed([], rest) == rest
  {
    if rest.Some? {
      assert front + ([step] + rest.value) == (front + [step]) + rest.value;
      assert [] + rest.value == rest.value;
    }
  }

  const MAX_PROJECTION_BYTES := 256 * 1024

  /** A projection is refused if its canonical text is too long. */
  function Limited(size: Workflow -> nat, w: Option<Workflow>): Option<Workflow> {
    if w.Some? && size(w.value) > MAX_PROJECTION_BYTES then None else w
  }

  method PublicFromDetailed(size: Workflow -> nat, h: Header, bases: seq<StepBase>, calls: seq<seq<Call>>,
          currentPosition: int, pauseReason: Option<string>, terminal: bool) returns (r: Option<Workflow>)
    requires |bases| == |calls|
    ensures r == Limited(size, Built(h, bases, calls, currentPosition, pauseReason, terminal))
  {
    hide BuiltStep;
    var steps: seq<StepView> := [];
    var k := 0;
    ghost var all := BuiltSteps(bases, calls, 0, currentPosition, pauseReason, terminal);
    if all.Some? {
      assert [] + all.value == all.value;
    }
    while k < |bases|
      invariant 0 <= k <= |bases|
      invariant all == Prefixed(steps, BuiltSteps(bases, calls, k, currentPosition, pauseReason, terminal))
    {
      var step := BuiltStep(bases[k], calls[k], k + 1, currentPosition, pauseReason, terminal);
      if step.None? {
        return None;
      }
      PrefixedStep(steps, step.value, BuiltSteps(bases, calls, k + 1, currentPosition, pauseReason, terminal));
      steps, k := steps + [step.value], k + 1;
    }
    assert steps + [] == steps;
    var current := if terminal then None else FirstUnfinished(steps);
    var projection := Workflow(h.appId, h.outputStep, current, h.latestSeq, steps, h.fieldsOk);
    if size(projection) > MAX_PROJECTION_BYTES {
      return None;
    }
    r := Some(projection);
  }

  lemma {:induction false} BuiltStepsAre(bases: seq<StepBase>, calls: seq<seq<Call>>, at: nat, currentPosition: int,
          pauseReason: Option<string>, terminal: bool)
    requires |bases| == |calls| && at <= |bases|
    requires BuiltSteps(bases, calls, at, currentPosition, pauseReason, terminal).Some?
    ensures var steps := BuiltSteps(bases, calls, at, currentPosition, pauseReason, terminal).value;
      && |steps| == |bases| - at
      && (forall i :: at <= i < |bases| ==>
            BuiltStep(bases[i], calls[i], i + 1, currentPosition, pauseReason, terminal) == Some(steps[i - at]))
    decreases |bases| - at
  {
    hide BuiltStep;
    if at < |bases| {
      BuiltStepsAre(bases, calls, at + 1, currentPosition, pauseReason, terminal);
    }
  }

  /** What a call must be for its step to be accepted. */
  predicate CallAllows(base: StepBase, calls: seq<Call>, status: Status) {
    && (calls != [] ==> calls[0].textsOk && (calls[0].callId.None? ==> status == Stopped))
    && EffectAllows(status, base.effect)
  }

  /** The validator accepts what the builder makes exactly when it agrees with the run about application and
      log, there are one to 128 steps whose calls allow it, names and ids are unique, the output step is one
      of them and the statuses fit the position of the loop. The current step the builder names is always the
      one the validator expects. */
  lemma BuiltAcceptedExactly(h: Header, bases: seq<StepBase>, calls: seq<seq<Call>>, currentPosition: int,
          pauseReason: Option<string>, core: Core)
    requires |bases| == |calls| && h.fieldsOk
    requires forall i :: 0 <= i < |bases| ==> BaseOk(bases[i])
    requires Built(h, bases, calls, currentPosition, pauseReason, Terminal(core.state)).Some?
    ensures var w := Built(h, bases, calls, currentPosition, pauseReason, Terminal(core.state)).value;
      && |w.steps| == |bases|
      && (Accepted(w, core) <==>
            && h.appId == core.appId && 0 <= h.latestSeq == core.latestSeq && 1 <= |bases| <= MAX_STEPS
            && (forall i :: 0 <= i < |bases| ==> CallAllows(bases[i], calls[i], w.steps[i].status))
            && Unique(w.steps) && (exists i :: 0 <= i < |w.steps| && w.steps[i].stepId == h.outputStep)
            && SemanticsOk(w.steps, core))
  {
    hide BuiltStep, StepOk, SemanticsOk, Unique, EffectAllows, FirstUnfinished;
    var terminal := Terminal(core.state);
    var w := Built(h, bases, calls, currentPosition, pauseReason, terminal).value;
    BuiltStepsAre(bases, calls, 0, currentPosition, pauseReason, terminal);
    forall i | 0 <= i < |bases|
      ensures StepOk(w.steps[i], i + 1) <==> CallAllows(bases[i], calls[i], w.steps[i].status) {
      assert BuiltStep(bases[i], calls[i], i + 1, currentPosition, pauseReason, terminal) == Some(w.steps[i]);
      BuiltStepAcceptedExactly(bases[i], calls[i], i + 1, currentPosition, pauseReason, terminal);
    }
  }

  /** The builder makes a projection if it makes each of its steps. */
  lemma {:induction false} BuiltStepsExist(bases: seq<StepBase>, calls: seq<seq<Call>>, at: nat, currentPosition: int,
          pauseReason: Option<string>, terminal: bool)
    requires |bases| == |calls| && at <= |bases|
    requires forall i :: at <= i < |bases| ==>
      BuiltStep(bases[i], calls[i], i + 1, currentPosition, pauseReason, terminal).Some?
    ensures BuiltSteps(bases, calls, at, currentPosition, pauseReason, terminal).Some?
    decreases |bases| - at
  {
    hide BuiltStep;
    if at < |bases| {
      BuiltStepsExist(bases, calls, at + 1, currentPosition, pauseReason, terminal);
    }
  }
}
