/** The tables of the run store and what each transaction does to them. */
module RunTables {
  import opened Wrappers
  import opened Messages

  datatype Reply = Reply(content: string, toolCalls: seq<CallItem>, providerState: Option<string>)

  /** The columns of a run that a checkpoint records. */
  datatype Body = Body(
    appId: Option<string>,
    status: string,
    step: int,
    history: seq<Message>,
    acceptedReply: Option<Reply>,
    finalMessage: Option<Message>)

  datatype Snapshot = Snapshot(runId: string, revision: nat, generation: nat, body: Body)

  datatype RunRow = RunRow(revision: nat, generation: nat, body: Body)

  datatype ArtifactRow = ArtifactRow(
    runId: string,
    contentSha256: string,
    size: nat,
    filename: string,
    declaredMediaType: Option<string>,
    detectedMediaType: string,
    createdSeq: nat)

  datatype Event =
    | RunEvent(kind: string, step: int, data: string)
    | ArtifactAvailable(artifactId: string, step: int, row: ArtifactRow)

  datatype CallRecord = CallRecord(
    runId: string,
    step: int,
    ordinal: int,
    callId: Option<string>,
    fingerprint: string,
    contract: string,
    status: string)

  datatype CallRow = CallRow(callId: Option<string>, fingerprint: string, contract: string, status: string,
          result: Option<Message>)

  datatype Approval = Approval(runId: string, step: int, ordinal: int, decision: Option<bool>)

  type CallKey = (string, int, int)

  datatype Tables = Tables(
    runs: map<string, RunRow>,
    events: map<(string, nat), Event>,
    checkpoints: map<(string, nat), Body>,
    replies: map<(string, int), Reply>,
    calls: map<CallKey, CallRow>,
    approvals: map<string, Approval>,
    artifacts: map<string, ArtifactRow>)

  const EMPTY := Tables(map[], map[], map[], map[], map[], map[], map[])

  datatype StoreError =
    | RunAlreadyExists | RunNotFound | ConcurrentRun | DuplicateCallId | Integrity
    | ApprovalMismatch | ApprovalConflict | ArtifactConflict | ArtifactLimit

  /** The largest event number of a run, or zero. */
  ghost function LastSeq(events: map<(string, nat), Event>, run: string): (n: nat)
    ensures n == 0 || (run, n) in events
    ensures forall k :: (run, k) in events ==> k <= n
  {
    LargestKey(events.Keys, run)
  }

  ghost function LargestKey(keys: set<(string, nat)>, run: string): (n: nat)
    ensures n == 0 || (run, n) in keys
    ensures forall k :: (run, k) in keys ==> k <= n
  {
    if keys == {} then 0
    else
      var key: (string, nat) :| key in keys;
      var n := LargestKey(keys - {key}, run);
      assert forall k :: (run, k) in keys ==> (run, k) == key || (run, k) in keys - {key};
      if key.0 == run && key.1 > n then key.1 else n
  }

  /** Appends events numbered from `last + 1`. */
  function AddEvents(events: map<(string, nat), Event>, run: string, last: nat,
          more: seq<Event>): map<(string, nat), Event>
    decreases |more|
  {
    if more == [] then events else AddEvents(events[(run, last + 1) := more[0]], run, last + 1, more[1..])
  }

  // ----- The statements a commit may run first -----

  datatype Mutation =
    | NoMutation
    | InsertReply(reply: Reply, calls: seq<CallRecord>)
    | SetCall(call: CallRecord, status: string, result: Option<Message>)
    | InsertApproval(call: CallRecord)
    | Decide(fingerprint: string, approved: bool)

  function KeyOf(c: CallRecord): CallKey {
    (c.runId, c.step, c.ordinal)
  }

  /** A call id the unique index looks at. */
  predicate Usable(callId: Option<string>) {
    callId.Some? && callId.value != ""
  }

  /** Does a unique index refuse this call row? */
  predicate CallCollides(calls: map<CallKey, CallRow>, c: CallRecord) {
    || KeyOf(c) in calls
    || (exists k :: k in calls && calls[k].fingerprint == c.fingerprint)
    || (Usable(c.callId) && exists k :: k in calls && k.0 == c.runId && calls[k].callId == c.callId)
  }

  function InsertCalls(t: Tables, calls: seq<CallRecord>): Result<Tables, StoreError>
    decreases |calls|
  {
    if calls == [] then Ok(t)
    else if CallCollides(t.calls, calls[0]) then Err(DuplicateCallId)
    else if calls[0].runId !in t.runs then Err(Integrity)
    else
      var c := calls[0];
      InsertCalls(t.(calls := t.calls[KeyOf(c) := CallRow(c.callId, c.fingerprint, c.contract, c.status, None)]),
        calls[1..])
  }

  function WithStatus(calls: map<CallKey, CallRow>, fingerprint: string, status: string): map<CallKey, CallRow> {
    map k | k in calls :: if calls[k].fingerprint == fingerprint then calls[k].(status := status) else calls[k]
  }

  predicate HasFingerprint(calls: map<CallKey, CallRow>, fingerprint: string) {
    exists k :: k in calls && calls[k].fingerprint == fingerprint
  }

  function Mutated(t: Tables, runId: string, step: int, m: Mutation): Result<Tables, StoreError> {
    match m
    case NoMutation => Ok(t)
    case InsertReply(reply, calls) =>
      if (runId, step) in t.replies then Err(DuplicateCallId)
      else if runId !in t.runs then Err(Integrity)
      else InsertCalls(t.(replies := t.replies[(runId, step) := reply]), calls)
    case SetCall(call, status, result) =>
      if KeyOf(call) in t.calls && t.calls[KeyOf(call)].status == call.status then
        Ok(t.(calls := t.calls[KeyOf(call) := t.calls[KeyOf(call)].(status := status, result := result)]))
      else Err(ConcurrentRun)
    case InsertApproval(call) =>
      if call.fingerprint in t.approvals || !HasFingerprint(t.calls, call.fingerprint) then Err(Integrity)
      else Ok(t.(approvals := t.approvals[call.fingerprint := Approval(call.runId, call.step, call.ordinal, None)],
                 calls := WithStatus(t.calls, call.fingerprint, "awaiting_approval")))
    case Decide(fingerprint, approved) =>
      if fingerprint in t.approvals && t.approvals[fingerprint].decision.None? then
        Ok(t.(approvals := t.approvals[fingerprint := t.approvals[fingerprint].(decision := Some(approved))],
              calls := WithStatus(t.calls, fingerprint, if approved then "approved" else "denied")))
      else Err(ApprovalConflict)
  }

  // ----- Transactions -----

  /** A compare-and-swap on the revision, with a new checkpoint and new events, or nothing at all. */
  ghost function Committed(t: Tables, current: Snapshot, updated: Snapshot, events: seq<Event>, m: Mutation)
    : Result<(Tables, Snapshot), StoreError>
  {
    var run, next := updated.runId, current.revision + 1;
    var generation := current.generation + 1;
    match Mutated(t, current.runId, updated.body.step, m)
    case Err(e) => Err(e)
    case Ok(t1) =>
      if run !in t1.runs || t1.runs[run].revision != current.revision then Err(ConcurrentRun)
      else if (run, generation) in t1.checkpoints then Err(if m.InsertReply? then DuplicateCallId else Integrity)
      else
        Ok((t1.(runs := t1.runs[run := RunRow(next, generation, updated.body.(appId := t1.runs[run].body.appId))],
                checkpoints := t1.checkpoints[(run, generation) := updated.body],
                events := AddEvents(t1.events, run, LastSeq(t1.events, run), events)),
            Snapshot(run, next, generation, updated.body)))
  }

  ghost function Started(t: Tables, runId: string, messages: seq<Message>, event: Event, appId: Option<string>)
    : Result<(Tables, Snapshot), StoreError>
  {
    var body := Body(appId, "ready_model", 0, messages, None, None);
    if runId in t.runs || (runId, 1) in t.checkpoints then Err(RunAlreadyExists)
    else
      Ok((t.(runs := t.runs[runId := RunRow(1, 1, body)],
             checkpoints := t.checkpoints[(runId, 1) := body],
             events := AddEvents(t.events, runId, LastSeq(t.events, runId), [event])),
          Snapshot(runId, 1, 1, body)))
  }

  function Loaded(t: Tables, runId: string): Result<Snapshot, StoreError> {
    if runId in t.runs then Ok(Snapshot(runId, t.runs[runId].revision, t.runs[runId].generation, t.runs[runId].body))
    else Err(RunNotFound)
  }

  /** A decision is recorded once; the same decision again changes nothing, another one is refused. The run
      and the decision are read before the transaction, from the tables `seen` as they stood then. */
  ghost function Resolved(seen: Tables, t: Tables, runId: string, fingerprint: string, approved: bool, event: Event)
    : Result<(Tables, Snapshot, bool), StoreError>
  {
    match Loaded(seen, runId)
    case Err(e) => Err(e)
    case Ok(current) =>
      if fingerprint !in seen.approvals || seen.approvals[fingerprint].runId != runId then Err(ApprovalMismatch)
      else if seen.approvals[fingerprint].decision.Some? then
        if seen.approvals[fingerprint].decision.value != approved then Err(ApprovalConflict)
        else Ok((t, current, false))
      else
        match Committed(t, current, current.(body := current.body.(status := "awaiting_resume")), [event],
          Decide(fingerprint, approved))
        case Err(e) => Err(e)
        case Ok(done) => Ok((done.0, done.1, true))
  }

  const MAX_RUN_ARTIFACTS := 128

  function RunArtifacts(artifacts: map<string, ArtifactRow>, runId: string): set<string> {
    set a | a in artifacts && artifacts[a].runId == runId
  }

  predicate SameContent(a: ArtifactRow, b: ArtifactRow) {
    a.(createdSeq := 0) == b.(createdSeq := 0)
  }

  /** Registers an artifact with its own event; the same registration again returns the first row. The run
      and its step are read before the transaction, from the tables `seen` as they stood then. */
  ghost function Registered(seen: Tables, t: Tables, artifactId: string, row: ArtifactRow)
    : Result<(Tables, ArtifactRow), StoreError>
  {
    if row.runId !in seen.runs then Err(RunNotFound)
    else if artifactId in t.artifacts then
      if SameContent(t.artifacts[artifactId], row) then Ok((t, t.artifacts[artifactId])) else Err(ArtifactConflict)
    else if |RunArtifacts(t.artifacts, row.runId)| >= MAX_RUN_ARTIFACTS then Err(ArtifactLimit)
    else if row.runId !in t.runs then Err(Integrity)
    else
      var last := LastSeq(t.events, row.runId);
      var stored := row.(createdSeq := last + 1);
      var event := ArtifactAvailable(artifactId, seen.runs[row.runId].body.step, stored);
      Ok((t.(events := AddEvents(t.events, row.runId, last, [event]), artifacts := t.artifacts[artifactId := stored]),
        stored))
  }
}
