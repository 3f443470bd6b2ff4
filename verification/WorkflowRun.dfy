/** The public projection of a durable workflow run: how it is composed, exactly when it can be, and what the
    states of a driven run show. */
module WorkflowRun {
  import opened Wrappers
  import opened WorkflowProjection

  /** A compiled workflow; `size` measures the canonical text of a projection. */
  datatype Flow = Flow(appId: string, outputStep: string, bases: seq<StepBase>, size: Workflow -> nat)

  /** The newest checkpoint. Its history is what it replays to: for each started step its result, if it has
      one, with the error code of a failed one; and whether the final outcome was recorded. */
  datatype Snapshot = Snapshot(
    status: string,
    step: int,
    appId: string,
    latestSeq: int,
    replayed: seq<Option<Option<string>>>,
    final: bool)

  datatype Durable = Durable(snapshot: Snapshot, calls: seq<seq<Call>>)

  predicate DistinctBases(bases: seq<StepBase>) {
    forall i, j :: 0 <= i < j < |bases| ==>
      bases[i].stepId != bases[j].stepId && bases[i].dispatchName != bases[j].dispatchName
      && bases[i].callId != bases[j].callId
  }

  /** What compiling a valid definition gives. */
  predicate FlowOk(flow: Flow) {
    && 1 <= |flow.bases| <= MAX_STEPS && DistinctBases(flow.bases)
    && (forall i :: 0 <= i < |flow.bases| ==> BaseOk(flow.bases[i]))
    && (exists i :: 0 <= i < |flow.bases| && flow.bases[i].stepId == flow.outputStep)
  }

  // ----- The checks before a projection -----

  /** Every started step but the last succeeded, and the final outcome comes after all of them did. */
  predicate Replayable(n: nat, s: Snapshot) {
    && |s.replayed| <= n
    && (forall i :: 0 <= i < |s.replayed| - 1 ==> s.replayed[i] == Some(None))
    && (s.final ==> |s.replayed| == n && forall i :: 0 <= i < n ==> s.replayed[i] == Some(None))
  }

  /** The one call of a started step is the step's own, and its row agrees with the history. */
  predicate CallMatches(base: StepBase, calls: seq<Call>, result: Option<Option<string>>) {
    && |calls| == 1 && calls[0].callId == Some(base.callId)
    && calls[0].name == base.dispatchName && calls[0].effect == base.effect
    && calls[0].result == result && (calls[0].status == Settled <==> result.Some?)
  }

  predicate Asserted(flow: Flow, d: Durable) {
    var s, n := d.snapshot, |flow.bases|;
    && s.appId == flow.appId && Replayable(n, s) && |d.calls| == n
    && s.step == |s.replayed| + (if s.final then 1 else 0)
    && (forall i :: 0 <= i < |s.replayed| ==> CallMatches(flow.bases[i], d.calls[i], s.replayed[i]))
    && (forall i :: |s.replayed| <= i < n ==> d.calls[i] == [])
    && (s.status == "completed" ==> s.final)
  }

  // ----- The projection of the run, and of the workflow -----

  function External(status: string): string {
    if Reason(status).Some? then "paused"
    else if status in {"completed", "failed", "cancelled"} then status
    else "running"
  }

  function Reason(status: string): Option<string> {
    if status == "awaiting_approval" then Some("approval_required")
    else if status == "paused_recovery" then Some("retryable_idempotent")
    else if status == "effect_unknown" then Some("effect_unknown")
    else if status == "awaiting_resume" then Some("resume_required")
    else None
  }

  function CallsAt(calls: seq<seq<Call>>, step: int): seq<Call> {
    if 1 <= step <= |calls| then calls[step - 1] else []
  }

  function FirstUnsettled(calls: seq<Call>): Option<Call> {
    if calls == [] then None
    else if calls[0].status != Settled then Some(calls[0])
    else FirstUnsettled(calls[1..])
  }

  /** The call a paused run waits for; of a cancelled one only a call with an unknown effect. */
  function PendingOf(d: Durable): Option<Call> {
    var status, first := d.snapshot.status, FirstUnsettled(CallsAt(d.calls, d.snapshot.step));
    if Reason(status).Some? then first
    else if status == "cancelled" && first.Some? && first.value.status == UnknownEffect then first
    else None
  }

  function CoreOf(d: Durable): Core {
    var s, call := d.snapshot, PendingOf(d);
    Core(s.appId, s.latestSeq, External(s.status),
         if s.status == "cancelled" && call.Some? then Some("effect_unknown") else Reason(s.status),
         if call.Some? then Some(HandleOf(call.value)) else None,
         s.status, Some(s.step))
  }

  /** What the builder makes of a run. */
  function View(flow: Flow, d: Durable): Option<Workflow>
    requires |d.calls| == |flow.bases|
  {
    Built(Header(flow.appId, flow.outputStep, d.snapshot.latestSeq, true), flow.bases, d.calls, d.snapshot.step,
          CoreOf(d).pauseReason, Terminal(External(d.snapshot.status)))
  }

  /** The bytes around a projection that is sent as an extension. */
  const ENVELOPE := |"{\"workflow\":}"|

  /** The composed view: a run view that was read before, and the workflow view of the run as it is. */
  function ComposedWith(flow: Flow, core: Core, d: Durable): Option<Workflow> {
    if !Asserted(flow, d) then None
    else
      match Limited(flow.size, View(flow, d))
      case None => None
      case Some(w) => if flow.size(w) + ENVELOPE <= MAX_PROJECTION_BYTES && Accepted(w, core) then Some(w) else None
  }

  function Composed(flow: Flow, d: Durable): Option<Workflow> {
    ComposedWith(flow, CoreOf(d), d)
  }

  // ----- When there is one -----

  function Last(d: Durable): Option<Call> {
    var k := |d.snapshot.replayed|;
    if 1 <= k <= |d.calls| && d.calls[k - 1] != [] then Some(d.calls[k - 1][0]) else None
  }

  /** What the status of the run asks of the call it got to. */
  predicate StatusShows(status: string, final: bool, last: Option<Call>) {
    if status == "completed" then true
    else if status == "ready_model" then !final && (last.Some? ==> last.value.result == Some(None))
    else if status == "processing_reply" then
      last.Some? && last.value.result.None? && last.value.status in {CallPending, CallRequested, Dispatching}
    else if status == "pending_final" then final
    else if Reason(status).Some? then
      && last.Some? && last.value.result.None?
      && (last.value.status == UnknownEffect ==> status == "effect_unknown")
      && EffectAllows(Pause(Reason(status)).value.0, last.value.effect)
    else if status == "failed" then last.Some? ==> last.value.result.Some?
    else status == "cancelled" && (last.Some? && last.value.status == UnknownEffect ==> last.value.effect != ReadOnly)
  }

  predicate Shows(d: Durable) {
    && 0 <= d.snapshot.latestSeq
    && (forall i :: 0 <= i < |d.calls| && d.calls[i] != [] ==> d.calls[i][0].textsOk)
    && StatusShows(d.snapshot.status, d.snapshot.final, Last(d))
  }

  /** The status of the step the run got to. */
  function LastStatus(d: Durable): Option<(Status, Option<string>)> {
    StepStatus(Last(d), |d.snapshot.replayed|, d.snapshot.step, CoreOf(d).pauseReason,
               Terminal(External(d.snapshot.status)))
  }

  /** Steps of which the first `k` were started, all but the last of them completed. */
  predicate Shape(steps: seq<StepView>, k: nat, last: Status, terminal: bool) {
    && k <= |steps|
    && (forall i :: 0 <= i < k - 1 ==> steps[i].status == Completed)
    && (k > 0 ==> steps[k - 1].status == last)
    && (forall i :: k <= i < |steps| ==> steps[i].status == (if terminal then Stopped else Pending))
  }

  lemma ShapeSplits(steps: seq<StepView>, k: nat, last: Status, terminal: bool, here: set<Status>)
    requires Shape(steps, k, last, terminal) && k > 0
    ensures SplitAt(steps, k - 1, here, if terminal then Stopped else Pending) <==> last in here
    ensures All(steps[..k], Completed) <==> last == Completed
  {
    assert forall i :: 0 <= i < k ==> steps[..k][i] == steps[i];
    assert forall i :: 0 <= i < k - 1 ==> steps[..k - 1][i] == steps[i];
    assert forall i :: k <= i < |steps| ==> steps[k..][i - k] == steps[i];
    assert steps[..k][k - 1].status == last;
    assert steps[k - 1 + 1..] == steps[k..];
  }

  lemma ShapeEnds(steps: seq<StepView>, k: nat, last: Status, terminal: bool)
    requires Shape(steps, k, last, terminal) && steps != []
    ensures All(steps[k..], if terminal then Stopped else Pending)
    ensures k == 0 ==> All(steps[..k], Completed) && (terminal ==> All(steps, Stopped))
    ensures All(steps, Completed) <==> k == |steps| && last == Completed
    ensures (exists i :: 0 <= i < |steps| && steps[i].status == EffectUnknown) <==> k > 0 && last == EffectUnknown
  {
    if k > 0 {
      assert steps[k - 1].status == last;
    }
    if k < |steps| {
      assert steps[k].status == if terminal then Stopped else Pending;
    }
  }

  function ViewOf(flow: Flow, d: Durable, i: nat): Option<StepView>
    requires i < |flow.bases| == |d.calls|
  {
    BuiltStep(flow.bases[i], d.calls[i], i + 1, d.snapshot.step, CoreOf(d).pauseReason,
              Terminal(External(d.snapshot.status)))
  }

  lemma ViewIs(flow: Flow, d: Durable)
    requires |d.calls| == |flow.bases| && View(flow, d).Some?
    ensures var w := View(flow, d).value;
      && |w.steps| == |flow.bases| && forall i :: 0 <= i < |w.steps| ==> ViewOf(flow, d, i) == Some(w.steps[i])
  {
    hide BuiltStep, CoreOf, External, Terminal, FirstUnfinished;
    BuiltStepsAre(flow.bases, d.calls, 0, d.snapshot.step, CoreOf(d).pauseReason,
                  Terminal(External(d.snapshot.status)));
  }

  /** What one step shows: completed before the last started one, its own status there, nothing behind it. */
  predicate ShowsStep(flow: Flow, d: Durable, i: nat, step: StepView)
    requires i < |flow.bases|
  {
    var base, k := flow.bases[i], |d.snapshot.replayed|;
    && step.stepId == base.stepId && step.dispatchName == base.dispatchName && step.effect == base.effect
    && step.callId == (if i < k then Some(base.callId) else None)
    && (i < k - 1 ==> step.status == Completed)
    && (i == k - 1 ==> LastStatus(d).Some? && step.status == LastStatus(d).value.0)
    && (k <= i ==> step.status == if Terminal(External(d.snapshot.status)) then Stopped else Pending)
  }

  lemma StepIs(flow: Flow, d: Durable, i: nat)
    requires Asserted(flow, d) && i < |flow.bases| && ViewOf(flow, d, i).Some?
    ensures ShowsStep(flow, d, i, ViewOf(flow, d, i).value)
  {
    hide CoreOf, External, Terminal;
    if i < |d.snapshot.replayed| {
      assert CallMatches(flow.bases[i], d.calls[i], d.snapshot.replayed[i]);
    } else {
      assert d.calls[i] == [];
    }
  }

  /** Every step of the view, from its call. */
  lemma ViewSteps(flow: Flow, d: Durable)
    requires FlowOk(flow) && Asserted(flow, d) && View(flow, d).Some?
    ensures var w := View(flow, d).value;
      && |w.steps| == |flow.bases| && forall i :: 0 <= i < |w.steps| ==> ShowsStep(flow, d, i, w.steps[i])
  {
    hide FlowOk, ViewOf, ShowsStep, View;
    ViewIs(flow, d);
    var w := View(flow, d).value;
    forall i | 0 <= i < |w.steps| ensures ShowsStep(flow, d, i, w.steps[i]) {
      StepIs(flow, d, i);
    }
  }

  /** The builder only stops at the last started step, if its call has no status to show. */
  lemma ViewExists(flow: Flow, d: Durable)
    requires Asserted(flow, d) && (d.snapshot.replayed != [] ==> LastStatus(d).Some?)
    ensures View(flow, d).Some?
  {
    hide CoreOf, External, Terminal, BuiltStep, LastStatus, FirstUnfinished;
    forall i | 0 <= i < |flow.bases|
      ensures BuiltStep(flow.bases[i], d.calls[i], i + 1, d.snapshot.step, CoreOf(d).pauseReason,
                        Terminal(External(d.snapshot.status))).Some?
    {
      StepExists(flow, d, i);
    }
    BuiltStepsExist(flow.bases, d.calls, 0, d.snapshot.step, CoreOf(d).pauseReason,
                    Terminal(External(d.snapshot.status)));
  }

  lemma StepExists(flow: Flow, d: Durable, i: nat)
    requires Asserted(flow, d) && (d.snapshot.replayed != [] ==> LastStatus(d).Some?) && i < |flow.bases|
    ensures ViewOf(flow, d, i).Some?
  {
    hide CoreOf, External, Terminal;
    if i < |d.snapshot.replayed| {
      assert CallMatches(flow.bases[i], d.calls[i], d.snapshot.replayed[i]);
    } else {
      assert d.calls[i] == [];
    }
  }

  /** What the caller checked makes names and ids unique, whatever the calls went through. */
  lemma ViewIsUnique(flow: Flow, d: Durable)
    requires FlowOk(flow) && Asserted(flow, d) && View(flow, d).Some?
    ensures Unique(View(flow, d).value.steps)
  {
    hide View, LastStatus, External, Terminal;
    ViewSteps(flow, d);
    var steps := View(flow, d).value.steps;
    forall i, j | 0 <= i < j < |steps|
      ensures steps[i].stepId != steps[j].stepId && steps[i].dispatchName != steps[j].dispatchName
      ensures steps[i].callId.Some? ==> steps[i].callId != steps[j].callId
    {
      assert ShowsStep(flow, d, i, steps[i]) && ShowsStep(flow, d, j, steps[j]);
    }
  }

  lemma ViewShape(flow: Flow, d: Durable, last: Status)
    requires FlowOk(flow) && Asserted(flow, d) && View(flow, d).Some?
    requires d.snapshot.replayed != [] ==> LastStatus(d).Some? && last == LastStatus(d).value.0
    ensures Shape(View(flow, d).value.steps, |d.snapshot.replayed|, last, Terminal(External(d.snapshot.status)))
  {
    hide View, LastStatus, External, Terminal;
    ViewSteps(flow, d);
    var steps := View(flow, d).value.steps;
    assert forall i :: 0 <= i < |steps| ==> ShowsStep(flow, d, i, steps[i]);
  }

  lemma LastIs(flow: Flow, d: Durable)
    requires Asserted(flow, d)
    ensures var k := |d.snapshot.replayed|;
      && (Last(d).Some? <==> k > 0)
      && (k > 0 ==> d.calls[k - 1] == [Last(d).value] && CallMatches(flow.bases[k - 1], d.calls[k - 1],
                                                                    d.snapshot.replayed[k - 1]))
  {
    var k := |d.snapshot.replayed|;
    if k > 0 {
      assert CallMatches(flow.bases[k - 1], d.calls[k - 1], d.snapshot.replayed[k - 1]);
    }
  }

  /** The clauses on calls hold exactly when the error codes may be shown and the last status fits its effect. */
  lemma CallsAllow(flow: Flow, d: Durable, last: Status)
    requires FlowOk(flow) && Asserted(flow, d) && View(flow, d).Some?
    requires d.snapshot.replayed != [] ==> LastStatus(d).Some? && last == LastStatus(d).value.0
    ensures var w, k := View(flow, d).value, |d.snapshot.replayed|;
      |w.steps| == |flow.bases|
      && ((forall i :: 0 <= i < |flow.bases| ==> CallAllows(flow.bases[i], d.calls[i], w.steps[i].status)) <==>
            (forall i :: 0 <= i < |d.calls| && d.calls[i] != [] ==> d.calls[i][0].textsOk)
            && (k > 0 ==> EffectAllows(last, flow.bases[k - 1].effect)))
  {
    hide View, LastStatus, External, Terminal, FlowOk;
    ViewSteps(flow, d);
    var w, k := View(flow, d).value, |d.snapshot.replayed|;
    forall i | 0 <= i < |flow.bases|
      ensures CallAllows(flow.bases[i], d.calls[i], w.steps[i].status) <==>
        (d.calls[i] != [] ==> d.calls[i][0].textsOk)
        && (i == k - 1 ==> EffectAllows(last, flow.bases[i].effect))
    {
      assert ShowsStep(flow, d, i, w.steps[i]);
      if i < k {
        assert CallMatches(flow.bases[i], d.calls[i], d.snapshot.replayed[i]);
      } else {
        assert d.calls[i] == [];
      }
    }
  }

  lemma WaitsFor(flow: Flow, d: Durable)
    requires Asserted(flow, d) && flow.bases != []
    ensures var first := FirstUnsettled(CallsAt(d.calls, d.snapshot.step));
      first == if !d.snapshot.final && Last(d).Some? && Last(d).value.result.None? then Last(d) else None
    ensures d.snapshot.final ==> Last(d).Some? && Last(d).value.result == Some(None)
  {
    LastIs(flow, d);
    if d.snapshot.replayed != [] && !d.snapshot.final {
      assert CallsAt(d.calls, d.snapshot.step) == [Last(d).value];
      assert [Last(d).value][1..] == [];
    }
  }

  /** The clauses that remain when everything that always holds is taken away. */
  predicate Consistent(flow: Flow, d: Durable, steps: seq<StepView>, last: Status) {
    && SemanticsOk(steps, CoreOf(d))
    && (Last(d).Some? ==> EffectAllows(last, Last(d).value.effect))
  }

  predicate Fits(flow: Flow, d: Durable, steps: seq<StepView>, last: Status) {
    && Asserted(flow, d) && |steps| == |flow.bases| && steps != []
    && Shape(steps, |d.snapshot.replayed|, last, Terminal(External(d.snapshot.status)))
    && (Last(d).Some? ==> LastStatus(d).Some? && last == LastStatus(d).value.0)
    && (Last(d).Some? ==> PendingMatches(Some(HandleOf(Last(d).value)), steps[|d.snapshot.replayed| - 1]))
  }

  function HandleOf(c: Call): PendingCall {
    PendingCall(c.callId, c.name, c.effect)
  }

  /** What fitting steps and a checked run say, in the terms of the run view. */
  lemma FitsMeans(flow: Flow, d: Durable, steps: seq<StepView>, last: Status)
    requires Fits(flow, d, steps, last)
    ensures var s, k := d.snapshot, |d.snapshot.replayed|;
      && Shape(steps, k, last, Terminal(External(s.status)))
      && k <= |steps| && steps != [] && s.step == k + (if s.final then 1 else 0)
      && (Last(d).Some? <==> k > 0)
      && (s.final ==> k == |steps| && Last(d).value.result == Some(None)) && (s.status == "completed" ==> s.final)
      && (k > 0 ==>
            && (Last(d).value.status == Settled <==> Last(d).value.result.Some?)
            && StepStatus(Last(d), k, s.step, CoreOf(d).pauseReason, Terminal(External(s.status))).Some?
            && last == StepStatus(Last(d), k, s.step, CoreOf(d).pauseReason, Terminal(External(s.status))).value.0
            && PendingMatches(Some(HandleOf(Last(d).value)), steps[k - 1]))
    ensures FirstUnsettled(CallsAt(d.calls, d.snapshot.step)) ==
      if !d.snapshot.final && Last(d).Some? && Last(d).value.result.None? then Last(d) else None
  {
    hide Shape, CoreOf, External, Terminal, StepStatus, CallsAt, FirstUnsettled, PendingMatches;
    WaitsFor(flow, d);
    LastIs(flow, d);
  }

  lemma CompletedShows(flow: Flow, d: Durable, steps: seq<StepView>, last: Status)
    requires Fits(flow, d, steps, last) && d.snapshot.status == "completed"
    ensures Consistent(flow, d, steps, last)
  {
    hide All, Shape, SplitAt, Fits, Asserted, Last, FirstUnsettled, CallsAt;
    FitsMeans(flow, d, steps, last);
    ShapeEnds(steps, |d.snapshot.replayed|, last, true);
  }

  lemma PendingFinalShows(flow: Flow, d: Durable, steps: seq<StepView>, last: Status)
    requires Fits(flow, d, steps, last) && d.snapshot.status == "pending_final"
    ensures Consistent(flow, d, steps, last) <==> d.snapshot.final
  {
    hide All, Shape, SplitAt, Fits, Asserted, Last, FirstUnsettled, CallsAt;
    FitsMeans(flow, d, steps, last);
    ShapeEnds(steps, |d.snapshot.replayed|, last, false);
  }

  lemma ReadyShows(flow: Flow, d: Durable, steps: seq<StepView>, last: Status)
    requires Fits(flow, d, steps, last) && d.snapshot.status == "ready_model"
    ensures Consistent(flow, d, steps, last) <==> StatusShows("ready_model", d.snapshot.final, Last(d))
  {
    hide All, Shape, SplitAt, Fits, Asserted, Last, FirstUnsettled, CallsAt;
    var k := |d.snapshot.replayed|;
    FitsMeans(flow, d, steps, last);
    ShapeEnds(steps, k, last, false);
    if k > 0 {
      ShapeSplits(steps, k, last, false, {});
    }
  }

  lemma ProcessingShows(flow: Flow, d: Durable, steps: seq<StepView>, last: Status)
    requires Fits(flow, d, steps, last) && d.snapshot.status == "processing_reply"
    ensures Consistent(flow, d, steps, last) <==> StatusShows("processing_reply", d.snapshot.final, Last(d))
  {
    hide All, Shape, SplitAt, Fits, Asserted, Last, FirstUnsettled, CallsAt;
    var k := |d.snapshot.replayed|;
    FitsMeans(flow, d, steps, last);
    if k > 0 {
      ShapeSplits(steps, k, last, false, {Requested, Running});
    }
  }

  lemma PausedShows(flow: Flow, d: Durable, steps: seq<StepView>, last: Status)
    requires Fits(flow, d, steps, last) && Reason(d.snapshot.status).Some?
    ensures Consistent(flow, d, steps, last) <==> StatusShows(d.snapshot.status, d.snapshot.final, Last(d))
  {
    hide All, Shape, SplitAt, Fits, Asserted, Last, FirstUnsettled, CallsAt;
    var k := |d.snapshot.replayed|;
    FitsMeans(flow, d, steps, last);
    if k > 0 {
      ShapeSplits(steps, k, last, false, {Pause(Reason(d.snapshot.status)).value.0});
    }
  }

  lemma FailedShows(flow: Flow, d: Durable, steps: seq<StepView>, last: Status)
    requires Fits(flow, d, steps, last) && d.snapshot.status == "failed"
    ensures Consistent(flow, d, steps, last) <==> StatusShows("failed", d.snapshot.final, Last(d))
  {
    hide All, Shape, SplitAt, Fits, Asserted, Last, FirstUnsettled, CallsAt;
    var k := |d.snapshot.replayed|;
    FitsMeans(flow, d, steps, last);
    ShapeEnds(steps, k, last, true);
    if k > 0 {
      ShapeSplits(steps, k, last, true, {Completed, Failed});
    }
  }

  lemma CancelledShows(flow: Flow, d: Durable, steps: seq<StepView>, last: Status)
    requires Fits(flow, d, steps, last) && d.snapshot.status == "cancelled"
    ensures Consistent(flow, d, steps, last) <==> StatusShows("cancelled", d.snapshot.final, Last(d))
  {
    hide All, Shape, SplitAt, Fits, Asserted, Last, FirstUnsettled, CallsAt;
    var k := |d.snapshot.replayed|;
    FitsMeans(flow, d, steps, last);
    ShapeEnds(steps, k, last, true);
    if k > 0 {
      ShapeSplits(steps, k, last, true, {Completed, Failed, Stopped});
      ShapeSplits(steps, k, last, true, {EffectUnknown});
    }
  }

  lemma ConsistentExactly(flow: Flow, d: Durable, steps: seq<StepView>, last: Status)
    requires Fits(flow, d, steps, last)
    ensures Consistent(flow, d, steps, last) <==> StatusShows(d.snapshot.status, d.snapshot.final, Last(d))
  {
    hide Fits, SemanticsOk, EffectAllows, Last;
    var status := d.snapshot.status;
    if status == "completed" {
      CompletedShows(flow, d, steps, last);
    } else if status == "pending_final" {
      PendingFinalShows(flow, d, steps, last);
    } else if status == "ready_model" {
      ReadyShows(flow, d, steps, last);
    } else if status == "processing_reply" {
      ProcessingShows(flow, d, steps, last);
    } else if Reason(status).Some? {
      PausedShows(flow, d, steps, last);
    } else if status == "failed" {
      FailedShows(flow, d, steps, last);
    } else if status == "cancelled" {
      CancelledShows(flow, d, steps, last);
    } else {
      OtherIsInconsistent(d, steps);
    }
  }

  lemma OtherIsInconsistent(d: Durable, steps: seq<StepView>)
    requires External(d.snapshot.status) == "running"
    requires d.snapshot.status !in {"ready_model", "processing_reply", "pending_final"}
    ensures !SemanticsOk(steps, CoreOf(d))
  {
    hide All, SplitAt, CallsAt, FirstUnsettled;
  }

  lemma ViewHasLast(flow: Flow, d: Durable)
    requires FlowOk(flow) && Asserted(flow, d) && View(flow, d).Some?
    ensures d.snapshot.replayed != [] ==> LastStatus(d).Some?
  {
    hide View, LastStatus, External, Terminal;
    ViewSteps(flow, d);
    var k, steps := |d.snapshot.replayed|, View(flow, d).value.steps;
    if k > 0 {
      assert ShowsStep(flow, d, k - 1, steps[k - 1]);
    }
  }

  lemma ViewFits(flow: Flow, d: Durable, last: Status)
    requires FlowOk(flow) && Asserted(flow, d) && View(flow, d).Some?
    requires d.snapshot.replayed != [] ==> LastStatus(d).Some? && last == LastStatus(d).value.0
    ensures Fits(flow, d, View(flow, d).value.steps, last)
  {
    hide View, LastStatus, External, Terminal, Shape;
    ViewShape(flow, d, last);
    ViewSteps(flow, d);
    LastIs(flow, d);
    var k, steps := |d.snapshot.replayed|, View(flow, d).value.steps;
    if k > 0 {
      assert ShowsStep(flow, d, k - 1, steps[k - 1]);
    }
  }

  /** The validator accepts the view of a checked run exactly when its status shows the call it got to. */
  lemma ViewAcceptedExactly(flow: Flow, d: Durable)
    requires FlowOk(flow) && Asserted(flow, d) && View(flow, d).Some?
    ensures Accepted(View(flow, d).value, CoreOf(d)) <==> Shows(d)
  {
    hide LastStatus, Terminal, External, Last, StatusShows, SemanticsOk, Unique, CallAllows, EffectAllows, Built,
      Accepted;
    ViewSteps(flow, d);
    var w := View(flow, d).value;
    ViewHasLast(flow, d);
    var last := if d.snapshot.replayed != [] then LastStatus(d).value.0 else Pending;
    ViewFits(flow, d, last);
    ConsistentExactly(flow, d, w.steps, last);
    ViewIsUnique(flow, d);
    CallsAllow(flow, d, last);
    LastIs(flow, d);
    BuiltAcceptedExactly(Header(flow.appId, flow.outputStep, d.snapshot.latestSeq, true), flow.bases, d.calls,
                         d.snapshot.step, CoreOf(d).pauseReason, CoreOf(d));
  }

  lemma ShownIsBuilt(flow: Flow, d: Durable)
    requires FlowOk(flow) && Asserted(flow, d) && Shows(d)
    ensures View(flow, d).Some?
  {
    hide View, FirstUnsettled, CallsAt;
    LastIs(flow, d);
    WaitsFor(flow, d);
    ViewExists(flow, d);
  }

  /** A run view and the workflow view of one and the same state compose exactly when the checks before them
      pass, the status of the run shows the call it got to, and the result with its envelope is small enough. */
  lemma ComposedExactly(flow: Flow, d: Durable)
    requires FlowOk(flow)
    ensures Composed(flow, d).Some? <==>
      && Asserted(flow, d) && Shows(d)
      && View(flow, d).Some? && flow.size(View(flow, d).value) + ENVELOPE <= MAX_PROJECTION_BYTES
    ensures Asserted(flow, d) && Shows(d) ==> View(flow, d).Some?
    ensures Composed(flow, d).Some? ==> Composed(flow, d) == View(flow, d)
  {
    hide FlowOk, Asserted, Shows, View, Accepted, CoreOf;
    if Asserted(flow, d) && Shows(d) {
      ShownIsBuilt(flow, d);
    }
    if Asserted(flow, d) {
      assert |d.calls| == |flow.bases| by { AssertedCounts(flow, d); }
      if View(flow, d).Some? {
        ViewAcceptedExactly(flow, d);
      }
    }
  }

  lemma AssertedCounts(flow: Flow, d: Durable)
    requires Asserted(flow, d)
    ensures |d.calls| == |flow.bases|
  {
  }

  /** A run view that was read at another event number is refused: composing is no snapshot, and every commit
      in between that has an event makes it fail. */
  lemma TornReadIsRefused(flow: Flow, core: Core, d: Durable)
    requires core.latestSeq != d.snapshot.latestSeq
    ensures ComposedWith(flow, core, d).None?
  {
    hide BuiltSteps, CoreOf, External, Unique, SemanticsOk, StepOk, Replayable, CallMatches;
  }

  // ----- The states of a driven run -----

  /** What the driver and its operators commit. `Note` is any commit that only adds events. */
  datatype Action =
    | Note
    | Accept                              // the model's reply calls the next step
    | AcceptFinal                         // the model's reply is the final outcome
    | FailModel                           // the model call failed, or the steps ran out
    | Request                             // the call is announced
    | AskApproval
    | Decide(approved: bool)              // also of a call whose run was cancelled, which takes the run up again
    | Dispatch
    | Return                              // the tool returned
    | RecordError(code: string)           // the call is refused, or its tool failed
    | LoseTrack                           // the outcome of a dispatched effect is unknown
    | MarkUnknown                         // recovery cannot go on
    | Settle                              // no call is left to process
    | Finish
    | Cancel
    | Retry                               // an operator lets an unknown effect be tried again
    | Resolve(error: Option<string>)      // an operator records its result, or its failure

  predicate Driving(status: string) {
    status in {"processing_reply", "paused_recovery", "awaiting_resume"}
  }

  /** A commit of a new status with some events. */
  function Moved(d: Durable, status: string, events: nat): Durable {
    d.(snapshot := d.snapshot.(status := status, latestSeq := d.snapshot.latestSeq + events))
  }

  /** A commit that also changes the call the run got to. */
  function Called(d: Durable, status: string, call: Call, events: nat): Durable
    requires Last(d).Some?
  {
    Moved(d.(calls := d.calls[|d.snapshot.replayed| - 1 := [call]]), status, events)
  }

  /** A commit of the result of that call. */
  function Answered(d: Durable, status: string, error: Option<string>, events: nat): Durable
    requires Last(d).Some?
  {
    var after := Called(d, status, Last(d).value.(status := Settled, result := Some(error)), events);
    var replayed := d.snapshot.replayed[|d.snapshot.replayed| - 1 := Some(error)];
    after.(snapshot := after.snapshot.(replayed := replayed))
  }

  predicate LastIn(d: Durable, status: CallStatus) {
    Last(d).Some? && Last(d).value.status == status
  }

  function Started(appId: string, n: nat): Durable {
    Durable(Snapshot("ready_model", 0, appId, 1, [], false), seq(n, _ => []))
  }

  /** The call of the next step, as the model's reply makes it. */
  function FreshCall(base: StepBase): Call {
    Call(CallPending, None, Some(base.callId), base.dispatchName, base.effect, true)
  }

  function Accepting(flow: Flow, d: Durable): Durable
    requires |d.snapshot.replayed| < |flow.bases| == |d.calls|
  {
    var s, k := d.snapshot, |d.snapshot.replayed|;
    Durable(s.(status := "processing_reply", step := s.step + 1, latestSeq := s.latestSeq + 1,
               replayed := s.replayed + [None]),
            d.calls[k := [FreshCall(flow.bases[k])]])
  }

  /** Is the model asked for a reply that continues the run? */
  predicate Continues(d: Durable) {
    d.snapshot.status == "ready_model" && (Last(d).Some? ==> Last(d).value.result == Some(None))
  }

  function Next(flow: Flow, d: Durable, a: Action): Durable {
    var s, k := d.snapshot, |d.snapshot.replayed|;
    if |d.calls| != |flow.bases| then d
    else
      match a
      case Note => Moved(d, s.status, 1)
      case Accept => if Continues(d) && k < |flow.bases| then Accepting(flow, d) else d
      case AcceptFinal =>
        if Continues(d) && k == |flow.bases| then
          d.(snapshot := s.(status := "pending_final", step := s.step + 1, latestSeq := s.latestSeq + 1, final := true))
        else d
      case FailModel => if s.status == "ready_model" then Moved(d, "failed", 2) else d
      case Request =>
        if Driving(s.status) && LastIn(d, CallPending) then
          Called(d, s.status, Last(d).value.(status := CallRequested), 1)
        else d
      case AskApproval =>
        if s.status == "processing_reply" && LastIn(d, CallRequested) && Last(d).value.effect != ReadOnly then
          Called(d, "awaiting_approval", Last(d).value.(status := AwaitingApproval), 1)
        else d
      case Decide(approved) =>
        if LastIn(d, AwaitingApproval) then
          Called(d, "awaiting_resume", Last(d).value.(status := if approved then Approved else Denied), 1)
        else d
      case Dispatch =>
        if Driving(s.status) && (LastIn(d, Approved)
                                 || (LastIn(d, Dispatching) && Last(d).value.effect != SideEffecting)
                                 || (LastIn(d, CallRequested) && Last(d).value.effect == ReadOnly)) then
          Called(d, "processing_reply", Last(d).value.(status := Dispatching), 1)
        else d
      case Return =>
        if s.status == "processing_reply" && LastIn(d, Dispatching) then Answered(d, s.status, None, 1) else d
      case RecordError(code) =>
        if Driving(s.status) && Last(d).Some? && Last(d).value.status != Settled then
          Answered(d, "processing_reply", Some(code), 1)
        else d
      case LoseTrack =>
        if s.status == "processing_reply" && LastIn(d, Dispatching) && Last(d).value.effect == Idempotent then
          Moved(d, "paused_recovery", 1)
        else if s.status == "processing_reply" && LastIn(d, Dispatching) && Last(d).value.effect == SideEffecting then
          Called(d, "effect_unknown", Last(d).value.(status := UnknownEffect), 1)
        else d
      case MarkUnknown =>
        if Driving(s.status) && Last(d).Some? && Last(d).value.status != Settled
          && Last(d).value.effect != ReadOnly then
          Called(d, "effect_unknown", Last(d).value.(status := UnknownEffect), 1)
        else d
      case Settle => if Driving(s.status) && LastIn(d, Settled) then Moved(d, "ready_model", 0) else d
      case Finish => if s.status == "pending_final" then Moved(d, "completed", 1) else d
      case Cancel => if s.status !in {"completed", "failed", "cancelled"} then Moved(d, "cancelled", 1) else d
      case Retry =>
        if s.status == "effect_unknown" && LastIn(d, UnknownEffect) then
          Called(d, "awaiting_resume", Last(d).value.(status := Approved), 1)
        else d
      case Resolve(error) =>
        if s.status in {"effect_unknown", "cancelled"} && LastIn(d, UnknownEffect) then
          Answered(d, if s.status == "cancelled" then s.status else "awaiting_resume", error, 2)
        else d
  }

  function Run(flow: Flow, d: Durable, actions: seq<Action>): Durable
    decreases |actions|
  {
    if actions == [] then d else Run(flow, Next(flow, d, actions[0]), actions[1..])
  }

  /** The call statuses a status of the run can stand beside. */
  predicate Beside(status: string, final: bool, last: Option<Call>) {
    && (last.Some? && last.value.status in {AwaitingApproval, Approved, Denied, UnknownEffect} ==>
          last.value.effect != ReadOnly)
    && (status in {"pending_final", "completed"} ==> final)
    && (final ==> status in {"pending_final", "completed", "cancelled"})
    && (status in {"ready_model", "failed"} && last.Some? ==> last.value.status == Settled)
    && (status == "processing_reply" ==>
          last.Some? && last.value.status in {CallPending, CallRequested, Dispatching, Settled})
    && (status == "awaiting_approval" ==> last.Some? && last.value.status == AwaitingApproval)
    && (status == "awaiting_resume" ==> last.Some? && last.value.status in {Approved, Denied, Settled}
                                        && last.value.effect != ReadOnly)
    && (status == "paused_recovery" ==>
          last.Some? && last.value.status == Dispatching && last.value.effect == Idempotent)
    && (status == "effect_unknown" ==> last.Some? && last.value.status == UnknownEffect)
    && (status in {"ready_model", "processing_reply", "pending_final", "completed", "failed", "cancelled"}
        || Reason(status).Some?)
  }

  ghost predicate Reached(flow: Flow, d: Durable) {
    && Asserted(flow, d) && Beside(d.snapshot.status, d.snapshot.final, Last(d)) && 0 <= d.snapshot.latestSeq
    && (forall i :: 0 <= i < |d.calls| && d.calls[i] != [] ==> d.calls[i][0].textsOk)
  }

  lemma CalledIs(flow: Flow, d: Durable, status: string, call: Call, events: nat)
    requires Reached(flow, d) && Last(d).Some? && status != "completed"
    requires call == Last(d).value.(status := call.status) && call.result.None? && call.status != Settled
    requires Beside(status, d.snapshot.final, Some(call))
    ensures Reached(flow, Called(d, status, call, events))
  {
    hide Beside;
    var after, k := Called(d, status, call, events), |d.snapshot.replayed|;
    LastIs(flow, d);
    assert CallMatches(flow.bases[k - 1], [call], d.snapshot.replayed[k - 1]);
    assert forall i :: 0 <= i < |d.calls| && i != k - 1 ==> after.calls[i] == d.calls[i];
    assert after.calls[k - 1] == [call];
  }

  lemma MovedIs(flow: Flow, d: Durable, status: string, events: nat)
    requires Reached(flow, d) && Beside(status, d.snapshot.final, Last(d))
    ensures Reached(flow, Moved(d, status, events))
  {
    hide CallMatches;
  }

  lemma AnsweredIs(flow: Flow, d: Durable, status: string, error: Option<string>, events: nat)
    requires Reached(flow, d) && Last(d).Some? && Last(d).value.status != Settled && status != "completed"
    requires Beside(status, false, Some(Last(d).value.(status := Settled, result := Some(error))))
    ensures Reached(flow, Answered(d, status, error, events))
  {
    hide Beside;
    LastIs(flow, d);
    var after, k, call := Answered(d, status, error, events), |d.snapshot.replayed|, Last(d).value;
    assert d.snapshot.replayed[k - 1].None?;
    assert !d.snapshot.final;
    assert CallMatches(flow.bases[k - 1], [call.(status := Settled, result := Some(error))], Some(error));
    assert after.calls[k - 1] == [call.(status := Settled, result := Some(error))];
    assert forall i :: 0 <= i < |d.calls| && i != k - 1 ==> after.calls[i] == d.calls[i];
    assert forall i :: 0 <= i < k - 1 ==> after.snapshot.replayed[i] == d.snapshot.replayed[i];
  }

  lemma AcceptingIs(flow: Flow, d: Durable)
    requires Reached(flow, d) && Continues(d) && |d.snapshot.replayed| < |flow.bases|
    ensures Reached(flow, Accepting(flow, d))
  {
    LastIs(flow, d);
    hide Beside;
    var after, k := Accepting(flow, d), |d.snapshot.replayed|;
    assert !d.snapshot.final;
    assert CallMatches(flow.bases[k], [FreshCall(flow.bases[k])], None);
    assert forall i :: 0 <= i < |d.calls| && i != k ==> after.calls[i] == d.calls[i];
    assert forall i :: 0 <= i < k ==> after.snapshot.replayed[i] == d.snapshot.replayed[i];
    assert Last(after) == Some(FreshCall(flow.bases[k]));
    FreshBeside(flow.bases[k]);
  }

  lemma FreshBeside(base: StepBase)
    ensures Beside("processing_reply", false, Some(FreshCall(base)))
  {
  }

  lemma AcceptFinalIs(flow: Flow, d: Durable)
    requires FlowOk(flow) && Reached(flow, d) && Continues(d) && |d.snapshot.replayed| == |flow.bases|
    ensures Reached(flow, Next(flow, d, AcceptFinal))
  {
    LastIs(flow, d);
  }

  lemma StepReaches(flow: Flow, d: Durable, a: Action)
    requires FlowOk(flow) && Reached(flow, d)
    ensures Reached(flow, Next(flow, d, a))
  {
    hide Reached, Next;
    if Next(flow, d, a) != d {
      match a {
        case Accept => AcceptReaches(flow, d);
        case AcceptFinal => FinalReaches(flow, d);
        case Return => AnswerReaches(flow, d, a);
        case RecordError(_) => AnswerReaches(flow, d, a);
        case Resolve(_) => AnswerReaches(flow, d, a);
        case Note => MoveReaches(flow, d, a);
        case FailModel => MoveReaches(flow, d, a);
        case Settle => MoveReaches(flow, d, a);
        case Finish => MoveReaches(flow, d, a);
        case Cancel => MoveReaches(flow, d, a);
        case _ => CallReaches(flow, d, a);
      }
    }
  }

  lemma AcceptReaches(flow: Flow, d: Durable)
    requires Reached(flow, d) && Next(flow, d, Accept) != d
    ensures Reached(flow, Next(flow, d, Accept))
  {
    hide Asserted, Accepting, Beside;
    AcceptingIs(flow, d);
  }

  lemma FinalReaches(flow: Flow, d: Durable)
    requires FlowOk(flow) && Reached(flow, d) && Next(flow, d, AcceptFinal) != d
    ensures Reached(flow, Next(flow, d, AcceptFinal))
  {
    hide Asserted, Beside;
    AcceptFinalIs(flow, d);
  }

  lemma AnswerReaches(flow: Flow, d: Durable, a: Action)
    requires Reached(flow, d) && Next(flow, d, a) != d && (a.Return? || a.RecordError? || a.Resolve?)
    ensures Reached(flow, Next(flow, d, a))
  {
    hide Asserted, Answered;
    match a {
      case Return => AnsweredIs(flow, d, d.snapshot.status, None, 1);
      case RecordError(code) => AnsweredIs(flow, d, "processing_reply", Some(code), 1);
      case Resolve(error) =>
        AnsweredIs(flow, d, if d.snapshot.status == "cancelled" then "cancelled" else "awaiting_resume", error, 2);
    }
  }

  lemma MoveReaches(flow: Flow, d: Durable, a: Action)
    requires Reached(flow, d) && Next(flow, d, a) != d
    requires a.Note? || a.FailModel? || a.Settle? || a.Finish? || a.Cancel?
    ensures Reached(flow, Next(flow, d, a))
  {
    hide Asserted, Moved;
    match a {
      case Note => MovedIs(flow, d, d.snapshot.status, 1);
      case FailModel => MovedIs(flow, d, "failed", 2);
      case Settle => MovedIs(flow, d, "ready_model", 0);
      case Finish => MovedIs(flow, d, "completed", 1);
      case Cancel => MovedIs(flow, d, "cancelled", 1);
    }
  }

  lemma CallReaches(flow: Flow, d: Durable, a: Action)
    requires Reached(flow, d) && Next(flow, d, a) != d
    requires a.Request? || a.AskApproval? || a.Decide? || a.Dispatch? || a.LoseTrack? || a.MarkUnknown? || a.Retry?
    ensures Reached(flow, Next(flow, d, a))
  {
    hide Asserted, Called, Moved;
    match a {
      case Request => CallMoves(flow, d, d.snapshot.status, CallRequested, 1);
      case AskApproval => CallMoves(flow, d, "awaiting_approval", AwaitingApproval, 1);
      case Decide(approved) => CallMoves(flow, d, "awaiting_resume", if approved then Approved else Denied, 1);
      case Dispatch => CallMoves(flow, d, "processing_reply", Dispatching, 1);
      case LoseTrack =>
        if Last(d).value.effect == Idempotent {
          MovedIs(flow, d, "paused_recovery", 1);
        } else {
          CallMoves(flow, d, "effect_unknown", UnknownEffect, 1);
        }
      case MarkUnknown => CallMoves(flow, d, "effect_unknown", UnknownEffect, 1);
      case Retry => CallMoves(flow, d, "awaiting_resume", Approved, 1);
    }
  }

  lemma CallMoves(flow: Flow, d: Durable, status: string, call: CallStatus, events: nat)
    requires Reached(flow, d) && Last(d).Some? && Last(d).value.status != Settled && call != Settled
    requires status != "completed" && Beside(status, false, Some(Last(d).value.(status := call)))
    ensures Reached(flow, Called(d, status, Last(d).value.(status := call), events))
  {
    hide Beside;
    LastIs(flow, d);
    assert !d.snapshot.final;
    CalledIs(flow, d, status, Last(d).value.(status := call), events);
  }

  lemma {:induction false} RunReaches(flow: Flow, d: Durable, actions: seq<Action>)
    requires FlowOk(flow) && Reached(flow, d)
    ensures Reached(flow, Run(flow, d, actions))
    decreases |actions|
  {
    hide FlowOk, Reached, Next;
    if actions != [] {
      StepReaches(flow, d, actions[0]);
      RunReaches(flow, Next(flow, d, actions[0]), actions[1..]);
    }
  }

  function Start(flow: Flow): Durable {
    Started(flow.appId, |flow.bases|)
  }

  lemma StartReached(flow: Flow)
    requires FlowOk(flow)
    ensures Reached(flow, Start(flow))
  {
  }

  /** The call the run got to has its result, but the run has not gone on: its driver has not yet asked for
      the next reply, or will not, because the step failed. */
  predicate Between(d: Durable) {
    && Last(d).Some? && Last(d).value.status == Settled
    && (Driving(d.snapshot.status) || (d.snapshot.status == "ready_model" && Last(d).value.result != Some(None)))
  }

  lemma ReachedShowsExactly(flow: Flow, d: Durable)
    requires FlowOk(flow) && Reached(flow, d)
    ensures Shows(d) <==> !Between(d)
  {
    LastIs(flow, d);
    WaitsFor(flow, d);
    hide Asserted, CallsAt, FirstUnsettled, FlowOk, Last;
  }

  /** Whatever a run goes through, the checks before its projection pass, and its projection is there exactly
      when the run is not between a result and the next reply, and it is small enough. */
  lemma EveryRunShowsExactly(flow: Flow, actions: seq<Action>)
    requires FlowOk(flow)
    ensures var d := Run(flow, Start(flow), actions);
      && Asserted(flow, d)
      && (!Between(d) ==> View(flow, d).Some?)
      && (Composed(flow, d).Some? <==>
            !Between(d) && flow.size(View(flow, d).value) + ENVELOPE <= MAX_PROJECTION_BYTES)
  {
    hide FlowOk, Run, View, Composed, Shows, Between;
    StartReached(flow);
    RunReaches(flow, Start(flow), actions);
    var d := Run(flow, Start(flow), actions);
    ReachedShowsExactly(flow, d);
    ComposedExactly(flow, d);
  }

  /** The commit of a tool's result takes the projection away, until the driver's next commit gives it back. */
  lemma ResultHidesTheRun(flow: Flow, d: Durable)
    requires FlowOk(flow) && Reached(flow, d)
    requires d.snapshot.status == "processing_reply" && LastIn(d, Dispatching)
    ensures var after := Next(flow, d, Return);
      && Composed(flow, after).None?
      && Shows(Next(flow, after, Settle))
  {
    hide FlowOk, Reached, Shows, Composed, Answered, Next, Between, Last, Moved;
    var after := Next(flow, d, Return);
    var settled := Next(flow, after, Settle);
    ReachedCounts(flow, d);
    ReturnIs(flow, d);
    AnsweredIsBetween(d, "processing_reply", None, 1);
    StepReaches(flow, d, Return);
    ReachedCounts(flow, after);
    SettleIs(flow, after);
    StepReaches(flow, after, Settle);
    ReachedShowsExactly(flow, after);
    ReachedShowsExactly(flow, settled);
    ComposedExactly(flow, after);
  }

  lemma ReachedCounts(flow: Flow, d: Durable)
    requires Reached(flow, d)
    ensures |d.calls| == |flow.bases|
    ensures d.snapshot.status == "effect_unknown" ==> LastIn(d, UnknownEffect)
  {
  }

  lemma ReturnIs(flow: Flow, d: Durable)
    requires |d.calls| == |flow.bases| && d.snapshot.status == "processing_reply" && LastIn(d, Dispatching)
    ensures Last(d).Some? && Next(flow, d, Return) == Answered(d, "processing_reply", None, 1)
  {
    hide Answered;
  }

  /** Once the driver asks for the next reply, a success is no longer in between. */
  lemma SettleIs(flow: Flow, d: Durable)
    requires |d.calls| == |flow.bases| && Driving(d.snapshot.status)
    requires Last(d).Some? && Last(d).value.status == Settled && Last(d).value.result == Some(None)
    ensures !Between(Next(flow, d, Settle))
  {
  }

  lemma ResolveIs(flow: Flow, d: Durable, error: Option<string>)
    requires |d.calls| == |flow.bases| && d.snapshot.status == "effect_unknown" && LastIn(d, UnknownEffect)
    ensures Last(d).Some? && Next(flow, d, Resolve(error)) == Answered(d, "awaiting_resume", error, 2)
  {
    hide Answered;
  }

  lemma UnknownIsNotBetween(d: Durable)
    requires d.snapshot.status == "effect_unknown"
    ensures !Between(d)
  {
  }

  lemma AnsweredIsBetween(d: Durable, status: string, error: Option<string>, events: nat)
    requires Last(d).Some? && Driving(status)
    ensures Between(Answered(d, status, error, events))
    ensures var after := Answered(d, status, error, events);
      && Last(after) == Some(Last(d).value.(status := Settled, result := Some(error)))
      && after.snapshot.status == status
  {
  }

  /** An operator who records the result of an unknown effect gets no projection back: there is none before
      the run is driven on. */
  lemma RecordedResultHidesTheRun(flow: Flow, d: Durable, error: Option<string>)
    requires FlowOk(flow) && Reached(flow, d) && d.snapshot.status == "effect_unknown"
    ensures Shows(d) && Composed(flow, Next(flow, d, Resolve(error))).None?
  {
    hide FlowOk, Reached, Shows, Composed, Answered, Next, Between, Last;
    var after := Next(flow, d, Resolve(error));
    ReachedCounts(flow, d);
    ResolveIs(flow, d, error);
    UnknownIsNotBetween(d);
    AnsweredIsBetween(d, "awaiting_resume", error, 2);
    StepReaches(flow, d, Resolve(error));
    ReachedShowsExactly(flow, d);
    ReachedShowsExactly(flow, after);
    ComposedExactly(flow, after);
  }

  /** One step that only reads. */
  function Ping(): Flow {
    Flow("app", "ask", [StepBase("ask", "call", "ping", ReadOnly, None, None, true)], _ => 0)
  }

  function PingAt(status: CallStatus, result: Option<Option<string>>, latestSeq: int): Durable {
    Durable(Snapshot("processing_reply", 1, "app", latestSeq, [result], false),
            [[Call(status, result, Some("call"), "ping", ReadOnly, true)]])
  }

  lemma PingAccepts()
    ensures Next(Ping(), Start(Ping()), Accept) == PingAt(CallPending, None, 2)
  {
    assert Start(Ping()).calls == [[]];
  }

  lemma PingDispatches()
    ensures Next(Ping(), PingAt(CallPending, None, 2), Request) == PingAt(CallRequested, None, 3)
    ensures Next(Ping(), PingAt(CallRequested, None, 3), Dispatch) == PingAt(Dispatching, None, 4)
  {
  }

  lemma PingReturns()
    ensures Next(Ping(), PingAt(Dispatching, None, 4), Return) == PingAt(Settled, Some(None), 5)
  {
  }

  lemma PingRuns()
    ensures Run(Ping(), Start(Ping()), [Accept, Request, Dispatch]) == PingAt(Dispatching, None, 4)
    ensures Run(Ping(), Start(Ping()), [Accept, Request, Dispatch, Return]) == PingAt(Settled, Some(None), 5)
  {
    hide Run, Next;
    var flow := Ping();
    PingAccepts();
    PingDispatches();
    PingReturns();
    RunsThree(flow, Start(flow), Accept, Request, Dispatch);
    RunsThree(flow, PingAt(CallPending, None, 2), Request, Dispatch, Return);
    RunOne(flow, Start(flow), Accept, [Request, Dispatch, Return]);
    assert [Accept] + [Request, Dispatch, Return] == [Accept, Request, Dispatch, Return];
  }

  lemma RunOne(flow: Flow, d: Durable, a: Action, rest: seq<Action>)
    ensures Run(flow, d, [a] + rest) == Run(flow, Next(flow, d, a), rest)
  {
    hide Next;
    assert ([a] + rest)[1..] == rest;
  }

  lemma RunsThree(flow: Flow, d: Durable, a: Action, b: Action, c: Action)
    ensures Run(flow, d, [a, b, c]) == Next(flow, Next(flow, Next(flow, d, a), b), c)
  {
    hide Next;
    assert [a] + [b, c] == [a, b, c] && [b] + [c] == [b, c] && [c] + [] == [c];
    RunOne(flow, d, a, [b, c]);
    RunOne(flow, Next(flow, d, a), b, [c]);
    RunOne(flow, Next(flow, Next(flow, d, a), b), c, []);
  }

  /** Such a window in the very first run of the smallest definition. */
  lemma FirstResultHidesTheRun()
    ensures FlowOk(Ping())
    ensures Composed(Ping(), Run(Ping(), Start(Ping()), [Accept, Request, Dispatch])).Some?
    ensures Composed(Ping(), Run(Ping(), Start(Ping()), [Accept, Request, Dispatch, Return])).None?
  {
    hide Composed, View, Run;
    var flow := Ping();
    assert flow.bases[0].stepId == flow.outputStep;
    EveryRunShowsExactly(flow, [Accept, Request, Dispatch]);
    EveryRunShowsExactly(flow, [Accept, Request, Dispatch, Return]);
    PingRuns();
  }
}
