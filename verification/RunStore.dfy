/** The single-writer run store: transactions over the tables, and what they keep in every run. */
module RunStore {
  import opened Wrappers
  import opened Messages
  import opened RunTables

  // ----- Event numbering -----

  lemma LastSeqIs(events: map<(string, nat), Event>, run: string, n: nat)
    requires n == 0 || (run, n) in events
    requires forall k :: (run, k) in events ==> k <= n
    ensures n == LastSeq(events, run)
  {
  }

  /** Appending adds exactly the next numbers, in order, and touches nothing else. */
  lemma {:induction false} AddEventsAdds(events: map<(string, nat), Event>, run: string, last: nat, more: seq<Event>)
    requires forall k: nat :: (run, k) in events ==> k <= last
    ensures var all := AddEvents(events, run, last, more);
      && (forall r, k: nat :: (r, k) in all <==> (r, k) in events || (r == run && last < k <= last + |more|))
      && (forall key :: key in events ==> key in all && all[key] == events[key])
      && (forall i :: 0 <= i < |more| ==> all[(run, last + 1 + i)] == more[i])
    decreases |more|
  {
    if more != [] {
      var one := events[(run, last + 1) := more[0]];
      AddEventsAdds(one, run, last + 1, more[1..]);
      var all := AddEvents(events, run, last, more);
      assert (run, last + 1) in one && all[(run, last + 1)] == more[0];
      forall i | 0 <= i < |more| ensures all[(run, last + 1 + i)] == more[i] {
        if i > 0 {
          assert more[i] == more[1..][i - 1] && last + 1 + i == (last + 1) + 1 + (i - 1);
        }
      }
    }
  }

  lemma AddEventsSnoc(events: map<(string, nat), Event>, run: string, last: nat, more: seq<Event>, k: nat)
    requires k < |more|
    ensures AddEvents(AddEvents(events, run, last, more[..k]), run, last + k, more[k..])
         == AddEvents(events, run, last, more)
    decreases k
  {
    if k == 0 {
      assert more[..0] == [] && more[0..] == more;
    } else {
      assert more[..k][0] == more[0] && more[..k][1..] == more[1..][..k - 1] && more[k..] == more[1..][k - 1..];
      AddEventsSnoc(events[(run, last + 1) := more[0]], run, last + 1, more[1..], k - 1);
    }
  }

  // ----- The store -----

  class SQLiteStore {
    var tables: Tables

    constructor ()
      ensures tables == EMPTY
    {
      tables := EMPTY;
    }

    /** The maximum event number of a run, zero when it has none. */
    method MaxSeq(run: string) returns (n: nat)
      ensures n == LastSeq(tables.events, run)
    {
      n := 0;
      var keys := tables.events.Keys;
      while keys != {}
        invariant keys <= tables.events.Keys
        invariant n == 0 || (run, n) in tables.events
        invariant forall k: nat :: (run, k) in tables.events && (run, k) !in keys ==> k <= n
        decreases |keys|
      {
        var key: (string, nat) :| key in keys;
        if key.0 == run && key.1 > n {
          n := key.1;
        }
        keys := keys - {key};
      }
      LastSeqIs(tables.events, run, n);
    }

    method InsertEvents(run: string, events: seq<Event>) returns (number: nat)
      modifies this
      ensures tables ==
        old(tables).(events := AddEvents(old(tables.events), run, LastSeq(old(tables.events), run), events))
      ensures number == LastSeq(old(tables.events), run) + |events|
    {
      number := MaxSeq(run);
      ghost var last := number;
      var k := 0;
      assert events[0..] == events;
      while k < |events|
        invariant 0 <= k <= |events| && number == last + k
        invariant tables == old(tables).(events := tables.events)
        invariant AddEvents(tables.events, run, number, events[k..]) == AddEvents(old(tables.events), run, last, events)
      {
        assert events[k..][0] == events[k] && events[k..][1..] == events[k + 1..];
        number := number + 1;
        tables := tables.(events := tables.events[(run, number) := events[k]]);
        k := k + 1;
      }
    }

    /** Runs the statements of a mutation; on an error the tables may be half changed. */
    method Mutate(runId: string, step: int, m: Mutation) returns (e: Option<StoreError>)
      modifies this
      ensures var r := Mutated(old(tables), runId, step, m);
        if r.Ok? then e.None? && tables == r.value else e == Some(r.error)
    {
      match m {
        case NoMutation =>
        case InsertReply(reply, calls) =>
          if (runId, step) in tables.replies {
            return Some(DuplicateCallId);
          }
          if runId !in tables.runs {
            return Some(Integrity);
          }
          tables := tables.(replies := tables.replies[(runId, step) := reply]);
          ghost var begun := tables;
          var k := 0;
          assert calls[0..] == calls;
          while k < |calls|
            invariant 0 <= k <= |calls|
            invariant InsertCalls(begun, calls) == InsertCalls(tables, calls[k..])
          {
            assert calls[k..][0] == calls[k] && calls[k..][1..] == calls[k + 1..];
            var c := calls[k];
            if CallCollides(tables.calls, c) {
              return Some(DuplicateCallId);
            }
            if c.runId !in tables.runs {
              return Some(Integrity);
            }
            tables := tables.(calls :=
              tables.calls[KeyOf(c) := CallRow(c.callId, c.fingerprint, c.contract, c.status, None)]);
            k := k + 1;
          }
        case SetCall(call, status, result) =>
          if KeyOf(call) !in tables.calls || tables.calls[KeyOf(call)].status != call.status {
            return Some(ConcurrentRun);
          }
          tables := tables.(calls :=
            tables.calls[KeyOf(call) := tables.calls[KeyOf(call)].(status := status, result := result)]);
        case InsertApproval(call) =>
          if call.fingerprint in tables.approvals || !HasFingerprint(tables.calls, call.fingerprint) {
            return Some(Integrity);
          }
          tables := tables.(approvals :=
            tables.approvals[call.fingerprint := Approval(call.runId, call.step, call.ordinal, None)]);
          tables := tables.(calls := WithStatus(tables.calls, call.fingerprint, "awaiting_approval"));
        case Decide(fingerprint, approved) =>
          if fingerprint !in tables.approvals || tables.approvals[fingerprint].decision.Some? {
            return Some(ApprovalConflict);
          }
          tables := tables.(approvals :=
            tables.approvals[fingerprint := tables.approvals[fingerprint].(decision := Some(approved))]);
          tables := tables.(calls := WithStatus(tables.calls, fingerprint, if approved then "approved" else "denied"));
      }
      e := None;
    }

    /** One transaction: the mutation, the compare-and-swap on the revision, the checkpoint and the
        events. Any failure rolls everything back. */
    method Commit(current: Snapshot, updated: Snapshot, events: seq<Event>,
            m: Mutation) returns (r: Result<Snapshot, StoreError>)
      modifies this
      ensures var done := Committed(old(tables), current, updated, events, m);
        if done.Ok? then tables == done.value.0 && r == Ok(done.value.1)
        else tables == old(tables) && r == Err(done.error)
    {
      hide Mutated, LastSeq, AddEvents;
      var revision, generation := current.revision + 1, current.generation + 1;
      var durable := updated.(revision := revision, generation := generation);
      var saved := tables;
      var failure := Mutate(current.runId, updated.body.step, m);
      if failure.Some? {
        tables := saved;
        return Err(failure.value);
      }
      var run := durable.runId;
      if run !in tables.runs || tables.runs[run].revision != current.revision {
        tables := saved;
        return Err(ConcurrentRun);
      }
      tables := tables.(runs :=
        tables.runs[run := RunRow(revision, generation, durable.body.(appId := tables.runs[run].body.appId))]);
      if (run, generation) in tables.checkpoints {
        tables := saved;
        return Err(if m.InsertReply? then DuplicateCallId else Integrity);
      }
      tables := tables.(checkpoints := tables.checkpoints[(run, generation) := durable.body]);
      var _ := InsertEvents(run, events);
      r := Ok(durable);
    }

    method Start(runId: string, messages: seq<Message>, event: Event,
            appId: Option<string>) returns (r: Result<Snapshot, StoreError>)
      modifies this
      ensures var done := Started(old(tables), runId, messages, event, appId);
        if done.Ok? then tables == done.value.0 && r == Ok(done.value.1)
        else tables == old(tables) && r == Err(done.error)
    {
      var snapshot := Snapshot(runId, 1, 1, Body(appId, "ready_model", 0, messages, None, None));
      var saved := tables;
      if runId in tables.runs {
        return Err(RunAlreadyExists);
      }
      tables := tables.(runs := tables.runs[runId := RunRow(1, 1, snapshot.body)]);
      if (runId, 1) in tables.checkpoints {
        tables := saved;
        return Err(RunAlreadyExists);
      }
      tables := tables.(checkpoints := tables.checkpoints[(runId, 1) := snapshot.body]);
      var _ := InsertEvents(runId, [event]);
      r := Ok(snapshot);
    }

    /** The run and the decision are read from `seen`, the tables as they stood before the transaction. */
    method ResolveApproval(seen: Tables, runId: string, fingerprint: string, approved: bool, event: Event)
      returns (r: Result<(Snapshot, bool), StoreError>)
      modifies this
      ensures var done := Resolved(seen, old(tables), runId, fingerprint, approved, event);
        if done.Ok? then tables == done.value.0 && r == Ok((done.value.1, done.value.2))
        else tables == old(tables) && r == Err(done.error)
    {
      hide Committed;
      var loaded := Loaded(seen, runId);
      if loaded.Err? {
        return Err(loaded.error);
      }
      var current := loaded.value;
      if fingerprint !in seen.approvals || seen.approvals[fingerprint].runId != runId {
        return Err(ApprovalMismatch);
      }
      var decision := seen.approvals[fingerprint].decision;
      if decision.Some? {
        if decision.value != approved {
          return Err(ApprovalConflict);
        }
        return Ok((current, false));
      }
      var updated := current.(body := current.body.(status := "awaiting_resume"));
      var done := Commit(current, updated, [event], Decide(fingerprint, approved));
      if done.Err? {
        return Err(done.error);
      }
      r := Ok((done.value, true));
    }

    /** The run and its step are read from `seen`, the tables as they stood before the transaction. */
    method RegisterArtifact(seen: Tables, artifactId: string, row: ArtifactRow)
      returns (r: Result<ArtifactRow, StoreError>)
      modifies this
      ensures var done := Registered(seen, old(tables), artifactId, row);
        if done.Ok? then tables == done.value.0 && r == Ok(done.value.1)
        else tables == old(tables) && r == Err(done.error)
    {
      hide SameContent, RunArtifacts, LastSeq, AddEvents;
      if row.runId !in seen.runs {
        return Err(RunNotFound);
      }
      var step := seen.runs[row.runId].body.step;
      if artifactId in tables.artifacts {
        if !SameContent(tables.artifacts[artifactId], row) {
          return Err(ArtifactConflict);
        }
        return Ok(tables.artifacts[artifactId]);
      }
      if |RunArtifacts(tables.artifacts, row.runId)| >= MAX_RUN_ARTIFACTS {
        return Err(ArtifactLimit);
      }
      if row.runId !in tables.runs {
        return Err(Integrity);
      }
      var last := MaxSeq(row.runId);
      var stored := row.(createdSeq := last + 1);
      var inserted := InsertEvents(row.runId, [ArtifactAvailable(artifactId, step, stored)]);
      assert inserted == stored.createdSeq;
      tables := tables.(artifacts := tables.artifacts[artifactId := stored]);
      r := Ok(stored);
    }

    /** The events of a run after a cursor, oldest first. */
    method StoredEvents(run: string, after: nat) returns (r: seq<(nat, Event)>)
      requires Numbered(tables.events, run)
      ensures r == EventsAfter(tables.events, run, after)
    {
      var last := MaxSeq(run);
      r := [];
      var k := after;
      while k < last
        invariant after <= k && (after <= last ==> k <= last)
        invariant r + EventsAfter(tables.events, run, k) == EventsAfter(tables.events, run, after)
        decreases if k < last then last - k else 0
      {
        r, k := r + [(k + 1, tables.events[(run, k + 1)])], k + 1;
      }
      assert r + [] == r;
    }
  }

  // ----- Invariants -----

  /** The events of a run are numbered 1, 2, ... without a gap. */
  ghost predicate Numbered(events: map<(string, nat), Event>, run: string) {
    forall k: nat :: (run, k) in events <==> 1 <= k <= LastSeq(events, run)
  }

  ghost function EventsAfter(events: map<(string, nat), Event>, run: string, after: nat): seq<(nat, Event)>
    requires Numbered(events, run)
    decreases if after < LastSeq(events, run) then LastSeq(events, run) - after else 0
  {
    if after >= LastSeq(events, run) then []
    else [(after + 1, events[(run, after + 1)])] + EventsAfter(events, run, after + 1)
  }

  ghost predicate RunOk(t: Tables, run: string)
    requires run in t.runs
  {
    var row := t.runs[run];
    && row.revision == row.generation >= 1
    && (forall g: nat :: (run, g) in t.checkpoints <==> 1 <= g <= row.generation)
    && t.checkpoints[(run, row.generation)] == row.body
    && (forall g: nat :: (run, g) in t.checkpoints ==> t.checkpoints[(run, g)].appId == row.body.appId)
    && Numbered(t.events, run)
  }

  /** Every run is consistent, and no checkpoint or event is without its run. */
  ghost predicate RunsOk(t: Tables) {
    && (forall run :: run in t.runs ==> RunOk(t, run))
    && (forall r, k: nat :: (r, k) in t.checkpoints ==> r in t.runs)
    && (forall r, k: nat :: (r, k) in t.events ==> r in t.runs)
  }

  /** The event that announced a row is stored under the number the row carries. */
  predicate HasOwnEvent(events: map<(string, nat), Event>, a: string, row: ArtifactRow) {
    var key := (row.runId, row.createdSeq);
    key in events && events[key].ArtifactAvailable? && events[key].artifactId == a && events[key].row == row
  }

  /** Every artifact has exactly its own event, at its number, and each run has at most 128. */
  ghost predicate ArtifactsOk(t: Tables) {
    && (forall a :: a in t.artifacts ==> HasOwnEvent(t.events, a, t.artifacts[a]))
    && (forall key :: key in t.events && t.events[key].ArtifactAvailable? ==>
          var a := t.events[key].artifactId;
          a in t.artifacts && key == (t.artifacts[a].runId, t.artifacts[a].createdSeq))
    && (forall run :: |RunArtifacts(t.artifacts, run)| <= MAX_RUN_ARTIFACTS)
  }

  // ----- Drivers -----

  /** A snapshot the store has returned: a checkpoint, under its own revision. */
  predicate Held(t: Tables, s: Snapshot) {
    && s.revision == s.generation
    && (s.runId, s.generation) in t.checkpoints
    && t.checkpoints[(s.runId, s.generation)] == s.body
  }

  datatype Op =
    | Start(runId: string, messages: seq<Message>, event: Event, appId: Option<string>)
    | Commit(current: Snapshot, updated: Snapshot, events: seq<Event>, m: Mutation)
    | Resolve(seen: Tables, runId: string, fingerprint: string, approved: bool, event: Event)
    | Register(seen: Tables, artifactId: string, row: ArtifactRow)

  /** Drivers commit a changed copy of a snapshot they hold, and do not forge artifact events. What they
      read before a transaction, they read from these tables as they stood at that time. */
  ghost predicate Disciplined(t: Tables, op: Op) {
    match op
    case Start(_, _, event, _) => event.RunEvent?
    case Commit(current, updated, events, m) =>
      && Held(t, current)
      && updated.runId == current.runId && updated.body.appId == current.body.appId
      && (forall i :: 0 <= i < |events| ==> events[i].RunEvent?)
    case Resolve(seen, _, _, _, event) => event.RunEvent? && RunsOk(seen) && Extends(seen, t)
    case Register(seen, _, _) => RunsOk(seen) && Extends(seen, t)
  }

  ghost function Next(t: Tables, op: Op): Tables {
    match op
    case Start(runId, messages, event, appId) =>
      var r := Started(t, runId, messages, event, appId); if r.Ok? then r.value.0 else t
    case Commit(current, updated, events, m) =>
      var r := Committed(t, current, updated, events, m); if r.Ok? then r.value.0 else t
    case Resolve(seen, runId, fingerprint, approved, event) =>
      var r := Resolved(seen, t, runId, fingerprint, approved, event); if r.Ok? then r.value.0 else t
    case Register(seen, artifactId, row) =>
      var r := Registered(seen, t, artifactId, row); if r.Ok? then r.value.0 else t
  }

  lemma {:induction false} InsertCallsFrame(t: Tables, calls: seq<CallRecord>)
    ensures InsertCalls(t, calls).Ok? ==> InsertCalls(t, calls).value.(calls := t.calls) == t
    decreases |calls|
  {
    if calls != [] && !CallCollides(t.calls, calls[0]) && calls[0].runId in t.runs {
      var c := calls[0];
      InsertCallsFrame(t.(calls := t.calls[KeyOf(c) := CallRow(c.callId, c.fingerprint, c.contract, c.status, None)]),
        calls[1..]);
    }
  }

  /** A mutation never touches runs, checkpoints, events or artifacts, keeps replies and approvals,
      and never changes a decision that was recorded. */
  lemma MutationFrame(t: Tables, runId: string, step: int, m: Mutation)
    requires Mutated(t, runId, step, m).Ok?
    ensures var u := Mutated(t, runId, step, m).value;
      && u.runs == t.runs && u.checkpoints == t.checkpoints && u.events == t.events && u.artifacts == t.artifacts
      && (forall k :: k in t.replies ==> k in u.replies && u.replies[k] == t.replies[k])
      && DecisionsKept(t.approvals, u.approvals)
  {
    if m.InsertReply? {
      InsertCallsFrame(t.(replies := t.replies[(runId, step) := m.reply]), m.calls);
    }
  }

  predicate DecisionsKept(t: map<string, Approval>, u: map<string, Approval>) {
    forall f :: f in t ==>
      && f in u && u[f].(decision := None) == t[f].(decision := None)
      && (t[f].decision.Some? ==> u[f].decision == t[f].decision)
  }

  /** What a run of operations can only add to: the log, the checkpoints, the replies, the artifacts,
      the recorded decisions and the revision of every run. */
  ghost predicate Extends(t: Tables, u: Tables) {
    && (forall k :: k in t.events ==> k in u.events && u.events[k] == t.events[k])
    && (forall k :: k in t.checkpoints ==> k in u.checkpoints && u.checkpoints[k] == t.checkpoints[k])
    && (forall k :: k in t.replies ==> k in u.replies && u.replies[k] == t.replies[k])
    && (forall k :: k in t.artifacts ==> k in u.artifacts && u.artifacts[k] == t.artifacts[k])
    && (forall r :: r in t.runs ==>
          r in u.runs && t.runs[r].revision <= u.runs[r].revision && u.runs[r].body.appId == t.runs[r].body.appId)
    && DecisionsKept(t.approvals, u.approvals)
  }

  lemma AppendEvents(t: Tables, u: Tables, run: string, more: seq<Event>)
    requires Numbered(t.events, run)
    requires u.events == AddEvents(t.events, run, LastSeq(t.events, run), more)
    ensures Numbered(u.events, run) && LastSeq(u.events, run) == LastSeq(t.events, run) + |more|
    ensures forall r :: r != run && Numbered(t.events, r) ==> Numbered(u.events, r)
    ensures forall r, k: nat :: (r, k) in u.events <==>
      (r, k) in t.events || (r == run && LastSeq(t.events, run) < k <= LastSeq(t.events, run) + |more|)
    ensures forall key :: key in t.events ==> key in u.events && u.events[key] == t.events[key]
    ensures forall i :: 0 <= i < |more| ==> u.events[(run, LastSeq(t.events, run) + 1 + i)] == more[i]
  {
    var last := LastSeq(t.events, run);
    AddEventsAdds(t.events, run, last, more);
    hide AddEvents;
    LastSeqIs(u.events, run, last + |more|);
    forall r | r != run && Numbered(t.events, r) ensures Numbered(u.events, r) {
      LastSeqIs(u.events, r, LastSeq(t.events, r));
    }
  }

  /** New run events leave the artifacts in order. */
  lemma RunEventsKeepArtifacts(t: Tables, u: Tables, run: string, more: seq<Event>)
    requires ArtifactsOk(t) && Numbered(t.events, run) && u.artifacts == t.artifacts
    requires u.events == AddEvents(t.events, run, LastSeq(t.events, run), more)
    requires forall i :: 0 <= i < |more| ==> more[i].RunEvent?
    ensures ArtifactsOk(u)
  {
    AppendEvents(t, u, run, more);
    var last := LastSeq(t.events, run);
    hide AddEvents, LastSeq, Numbered;
    forall key | key in u.events && key !in t.events ensures u.events[key].RunEvent? {
      var (r, k) := key;
      assert u.events[(run, last + 1 + (k - last - 1))] == more[k - last - 1];
    }
  }

  lemma NoEventsYet(t: Tables, run: string)
    requires RunsOk(t) && run !in t.runs
    ensures Numbered(t.events, run) && LastSeq(t.events, run) == 0
  {
    LastSeqIs(t.events, run, 0);
  }

  /** A run whose row and checkpoints were left alone, and whose events are still numbered. */
  lemma OtherRunOk(t: Tables, u: Tables, r: string)
    requires r in t.runs && r in u.runs && RunOk(t, r) && u.runs[r] == t.runs[r]
    requires Numbered(u.events, r)
    requires forall g: nat :: (r, g) in u.checkpoints <==> (r, g) in t.checkpoints
    requires forall g: nat :: (r, g) in u.checkpoints ==> u.checkpoints[(r, g)] == t.checkpoints[(r, g)]
    ensures RunOk(u, r)
  {
  }

  /** A new checkpoint of one run on top of numbered events keeps every run consistent. */
  lemma CheckpointKeepsRuns(t: Tables, u: Tables, run: string, row: RunRow, more: seq<Event>)
    requires RunsOk(t) && row.revision == row.generation
    requires if run in t.runs then
      row.generation == t.runs[run].generation + 1 && row.body.appId == t.runs[run].body.appId
             else row.generation == 1
    requires u.runs == t.runs[run := row] && u.checkpoints == t.checkpoints[(run, row.generation) := row.body]
    requires u.events == AddEvents(t.events, run, LastSeq(t.events, run), more)
    ensures RunsOk(u)
  {
    hide AddEvents, LastSeq, Numbered, RunOk;
    RunNumbered(t, run);
    AppendEvents(t, u, run, more);
    CheckpointedRunOk(t, u, run, row);
    forall r | r in u.runs && r != run ensures RunOk(u, r) {
      assert RunOk(t, r);
      RunNumbered(t, r);
      OtherRunOk(t, u, r);
    }
  }

  lemma CheckpointedRunOk(t: Tables, u: Tables, run: string, row: RunRow)
    requires RunsOk(t) && row.revision == row.generation && Numbered(u.events, run)
    requires if run in t.runs then
      row.generation == t.runs[run].generation + 1 && row.body.appId == t.runs[run].body.appId
             else row.generation == 1
    requires u.runs == t.runs[run := row] && u.checkpoints == t.checkpoints[(run, row.generation) := row.body]
    ensures RunOk(u, run)
  {
    hide Numbered, LastSeq;
    if run in t.runs {
      assert RunOk(t, run);
    }
  }

  /** One run moved on to a new row with its checkpoint and new events, and nothing was lost. */
  ghost predicate Advances(t: Tables, u: Tables, run: string, row: RunRow, more: seq<Event>) {
    && row.revision == row.generation
    && (if run in t.runs then row.generation == t.runs[run].generation + 1 && row.body.appId == t.runs[run].body.appId
        else row.generation == 1)
    && u.runs == t.runs[run := row] && u.checkpoints == t.checkpoints[(run, row.generation) := row.body]
    && u.events == AddEvents(t.events, run, LastSeq(t.events, run), more)
    && u.artifacts == t.artifacts
    && (forall k :: k in t.replies ==> k in u.replies && u.replies[k] == t.replies[k])
    && DecisionsKept(t.approvals, u.approvals)
    && (forall i :: 0 <= i < |more| ==> more[i].RunEvent?)
  }

  lemma AdvanceExtends(t: Tables, u: Tables, run: string, row: RunRow, more: seq<Event>)
    requires RunsOk(t) && Advances(t, u, run, row, more)
    ensures Extends(t, u)
  {
    hide AddEvents, LastSeq, Numbered, RunsOk, RunOk, DecisionsKept, Advances;
    RunNumbered(t, run);
    FreshCheckpoint(t, u, run, row, more);
    AdvanceColumns(t, u, run, row, more);
    AppendEvents(t, u, run, more);
  }

  lemma AdvanceColumns(t: Tables, u: Tables, run: string, row: RunRow, more: seq<Event>)
    requires Advances(t, u, run, row, more)
    ensures u.runs == t.runs[run := row] && u.checkpoints == t.checkpoints[(run, row.generation) := row.body]
    ensures u.events == AddEvents(t.events, run, LastSeq(t.events, run), more) && u.artifacts == t.artifacts
    ensures forall k :: k in t.replies ==> k in u.replies && u.replies[k] == t.replies[k]
    ensures DecisionsKept(t.approvals, u.approvals)
  {
    hide AddEvents, LastSeq, DecisionsKept;
  }

  /** The new checkpoint is under a new number, and the row moves forward under its application. */
  lemma FreshCheckpoint(t: Tables, u: Tables, run: string, row: RunRow, more: seq<Event>)
    requires RunsOk(t) && Advances(t, u, run, row, more)
    ensures (run, row.generation) !in t.checkpoints
    ensures run in t.runs ==> t.runs[run].revision <= row.revision && row.body.appId == t.runs[run].body.appId
  {
    hide AddEvents, LastSeq, DecisionsKept, Numbered;
    if run in t.runs {
      assert RunOk(t, run);
    }
  }

  lemma AdvanceKeeps(t: Tables, u: Tables, run: string, row: RunRow, more: seq<Event>)
    requires RunsOk(t) && ArtifactsOk(t) && Advances(t, u, run, row, more)
    ensures RunsOk(u) && ArtifactsOk(u) && Extends(t, u)
  {
    AdvanceExtends(t, u, run, row, more);
    CheckpointKeepsRuns(t, u, run, row, more);
    if run in t.runs {
      assert RunOk(t, run);
    } else {
      NoEventsYet(t, run);
    }
    hide RunsOk, ArtifactsOk, AddEvents, LastSeq, Numbered, Extends, DecisionsKept;
    RunEventsKeepArtifacts(t, u, run, more);
  }

  /** The log of a run grew by exactly these events, in order. */
  ghost predicate Appended(t: Tables, u: Tables, run: string, more: seq<Event>) {
    && LastSeq(u.events, run) == LastSeq(t.events, run) + |more|
    && (forall i :: 0 <= i < |more| ==>
          var k := LastSeq(t.events, run) + 1 + i; (run, k) in u.events && u.events[(run, k)] == more[i])
  }

  /** No other run moved: same row, same checkpoints, same log. */
  ghost predicate OthersUnchanged(t: Tables, u: Tables, run: string) {
    && (forall r :: r != run ==> (r in u.runs <==> r in t.runs) && (r in t.runs ==> u.runs[r] == t.runs[r]))
    && (forall r, k: nat :: r != run ==>
      ((r, k) in u.events <==> (r, k) in t.events) && ((r, k) in u.checkpoints <==> (r, k) in t.checkpoints))
  }

  lemma AdvanceAppends(t: Tables, u: Tables, run: string, row: RunRow, more: seq<Event>)
    requires RunsOk(t) && Advances(t, u, run, row, more)
    ensures Appended(t, u, run, more) && OthersUnchanged(t, u, run)
  {
    hide RunsOk, AddEvents, LastSeq, Numbered, DecisionsKept, OthersUnchanged;
    RunNumbered(t, run);
    AppendEvents(t, u, run, more);
    OthersStay(t, u, run, row, more);
  }

  lemma RunNumbered(t: Tables, run: string)
    requires RunsOk(t)
    ensures Numbered(t.events, run)
  {
    if run in t.runs {
      assert RunOk(t, run);
    } else {
      NoEventsYet(t, run);
    }
  }

  lemma OthersStay(t: Tables, u: Tables, run: string, row: RunRow, more: seq<Event>)
    requires Numbered(t.events, run) && Advances(t, u, run, row, more)
    ensures OthersUnchanged(t, u, run)
  {
    AppendEvents(t, u, run, more);
    hide AddEvents, LastSeq, Numbered, DecisionsKept;
  }

  lemma StartKeeps(t: Tables, runId: string, messages: seq<Message>, event: Event, appId: Option<string>)
    requires RunsOk(t) && ArtifactsOk(t) && event.RunEvent?
    requires Started(t, runId, messages, event, appId).Ok?
    ensures var (u, s) := Started(t, runId, messages, event, appId).value;
      && RunsOk(u) && ArtifactsOk(u) && Extends(t, u) && Held(u, s)
      && runId !in t.runs && Appended(t, u, runId, [event]) && OthersUnchanged(t, u, runId)
      && s == Snapshot(runId, 1, 1, Body(appId, "ready_model", 0, messages, None, None))
  {
    hide RunsOk, ArtifactsOk, AddEvents, LastSeq, Extends;
    var u := Started(t, runId, messages, event, appId).value.0;
    AdvanceKeeps(t, u, runId, u.runs[runId], [event]);
    AdvanceAppends(t, u, runId, u.runs[runId], [event]);
  }

  lemma HeldRevision(t: Tables, s: Snapshot)
    requires RunsOk(t) && Held(t, s)
    ensures s.runId in t.runs && t.runs[s.runId].revision == t.runs[s.runId].generation
    ensures t.runs[s.runId].body.appId == s.body.appId
  {
    assert RunOk(t, s.runId);
  }

  /** A commit of a held snapshot moves its run on by one revision. */
  lemma CommitAdvances(t: Tables, current: Snapshot, updated: Snapshot, events: seq<Event>, m: Mutation)
    requires RunsOk(t) && Disciplined(t, Op.Commit(current, updated, events, m))
    requires Committed(t, current, updated, events, m).Ok?
    ensures var (u, s) := Committed(t, current, updated, events, m).value; var run := current.runId;
      && run in u.runs && Advances(t, u, run, u.runs[run], events) && Held(u, s)
      && s.runId == run && s.revision == current.revision + 1 && s.body == updated.body
      && run in t.runs && t.runs[run].revision == current.revision && u.runs[run].revision == s.revision
  {
    hide Mutated, AddEvents, LastSeq, RunsOk, DecisionsKept, Advances;
    MutationFrame(t, current.runId, updated.body.step, m);
    HeldRevision(t, current);
    var run := current.runId;
    var row := RunRow(current.revision + 1, current.generation + 1, updated.body);
    var u := Committed(t, current, updated, events, m).value.0;
    assert u.runs == t.runs[run := row] && u.checkpoints == t.checkpoints[(run, row.generation) := row.body];
    CheckedAdvance(t, u, run, row, events);
  }

  lemma CheckedAdvance(t: Tables, u: Tables, run: string, row: RunRow, events: seq<Event>)
    requires run in t.runs && t.runs[run].revision == t.runs[run].generation
    requires row.revision == row.generation == t.runs[run].generation + 1 && row.body.appId == t.runs[run].body.appId
    requires u.runs == t.runs[run := row] && u.checkpoints == t.checkpoints[(run, row.generation) := row.body]
    requires u.events == AddEvents(t.events, run, LastSeq(t.events, run), events) && u.artifacts == t.artifacts
    requires forall k :: k in t.replies ==> k in u.replies && u.replies[k] == t.replies[k]
    requires DecisionsKept(t.approvals, u.approvals)
    requires forall i :: 0 <= i < |events| ==> events[i].RunEvent?
    ensures Advances(t, u, run, row, events)
  {
    hide AddEvents, LastSeq, DecisionsKept;
  }

  /** A held snapshot commits exactly when it is still the newest of its run and its mutation applies;
      a held snapshot of an older revision is refused, whatever it carries. */
  lemma CommitsExactlyWhenNewest(t: Tables, current: Snapshot, updated: Snapshot, events: seq<Event>, m: Mutation)
    requires RunsOk(t) && Disciplined(t, Op.Commit(current, updated, events, m))
    ensures current.runId in t.runs && current.revision <= t.runs[current.runId].revision
    ensures var r := Committed(t, current, updated, events, m);
      && (r.Ok? <==>
        t.runs[current.runId].revision == current.revision && Mutated(t, current.runId, updated.body.step, m).Ok?)
      && (m.NoMutation? && r.Err? ==> r.error == ConcurrentRun)
  {
    HeldRevision(t, current);
    assert RunOk(t, current.runId);
    if Mutated(t, current.runId, updated.body.step, m).Ok? {
      MutationFrame(t, current.runId, updated.body.step, m);
    }
    hide RunsOk, AddEvents, LastSeq, Numbered, DecisionsKept;
    if m.NoMutation? {
    } else {
      hide Mutated;
    }
  }

  /** A commit of a held snapshot keeps every invariant, and returns a snapshot that is held. */
  lemma CommitKeeps(t: Tables, current: Snapshot, updated: Snapshot, events: seq<Event>, m: Mutation)
    requires RunsOk(t) && ArtifactsOk(t) && Disciplined(t, Op.Commit(current, updated, events, m))
    requires Committed(t, current, updated, events, m).Ok?
    ensures var (u, s) := Committed(t, current, updated, events, m).value;
      && RunsOk(u) && ArtifactsOk(u) && Extends(t, u) && Held(u, s)
      && s.body == updated.body && Appended(t, u, current.runId, events) && OthersUnchanged(t, u, current.runId)
      && s.runId == current.runId && s.revision == current.revision + 1
      && current.runId in t.runs && t.runs[current.runId].revision == current.revision
      && current.runId in u.runs && u.runs[current.runId].revision == s.revision
  {
    hide Committed, Advances, Disciplined, RunsOk, ArtifactsOk, Extends, Held;
    CommitAdvances(t, current, updated, events, m);
    AdvanceAppends(t, Committed(t, current, updated, events, m).value.0, current.runId,
                   Committed(t, current, updated, events, m).value.0.runs[current.runId], events);
    var u, run := Committed(t, current, updated, events, m).value.0, current.runId;
    AdvanceKeeps(t, u, run, u.runs[run], events);
  }

  lemma LoadedIsHeld(t: Tables, runId: string)
    requires RunsOk(t) && runId in t.runs
    ensures Loaded(t, runId).Ok? && Held(t, Loaded(t, runId).value)
  {
    assert RunOk(t, runId);
  }

  lemma RecordsDecision(t: Tables, runId: string, step: int, fingerprint: string, approved: bool)
    requires Mutated(t, runId, step, Decide(fingerprint, approved)).Ok?
    ensures var u := Mutated(t, runId, step, Decide(fingerprint, approved)).value;
      fingerprint in u.approvals && u.approvals[fingerprint].decision == Some(approved)
  {
  }

  lemma CommitRecords(t: Tables, current: Snapshot, updated: Snapshot, events: seq<Event>, fingerprint: string,
          approved: bool)
    requires Committed(t, current, updated, events, Decide(fingerprint, approved)).Ok?
    ensures var u := Committed(t, current, updated, events, Decide(fingerprint, approved)).value.0;
      fingerprint in u.approvals && u.approvals[fingerprint].decision == Some(approved)
  {
    hide Mutated, AddEvents, LastSeq;
    RecordsDecision(t, current.runId, updated.body.step, fingerprint, approved);
  }

  /** A snapshot held from before stays held. */
  lemma HeldSince(seen: Tables, t: Tables, runId: string)
    requires RunsOk(seen) && Extends(seen, t) && runId in seen.runs
    ensures Loaded(seen, runId).Ok? && Held(t, Loaded(seen, runId).value) && runId in t.runs
  {
    LoadedIsHeld(seen, runId);
  }

  /** The newest snapshot of a run is its row. */
  lemma NewestIsRow(t: Tables, s: Snapshot)
    requires RunsOk(t) && Held(t, s) && s.runId in t.runs && t.runs[s.runId].revision == s.revision
    ensures t.runs[s.runId].body == s.body
  {
    assert RunOk(t, s.runId);
  }

  lemma ResolveKeeps(seen: Tables, t: Tables, runId: string, fingerprint: string, approved: bool, event: Event)
    requires RunsOk(t) && ArtifactsOk(t) && event.RunEvent? && RunsOk(seen) && Extends(seen, t)
    requires Resolved(seen, t, runId, fingerprint, approved, event).Ok?
    ensures var r := Resolved(seen, t, runId, fingerprint, approved, event).value;
      && RunsOk(r.0) && ArtifactsOk(r.0) && Extends(t, r.0) && Held(r.0, r.1)
      && runId in seen.runs && runId in t.runs && runId in r.0.runs
      && (r.2 ==> t.runs[runId].revision == seen.runs[runId].revision)
      && r.0.runs[runId].revision == t.runs[runId].revision + (if r.2 then 1 else 0)
      && fingerprint in r.0.approvals && r.0.approvals[fingerprint].decision == Some(approved)
      && (r.2 ==> Appended(t, r.0, runId, [event]) && r.1.body == t.runs[runId].body.(status := "awaiting_resume"))
      && (!r.2 ==> r.0 == t)
  {
    hide Committed, RunsOk, ArtifactsOk, Held, Appended, OthersUnchanged, Mutated, Extends, DecisionsKept;
    HeldSince(seen, t, runId);
    var current := Loaded(seen, runId).value;
    var updated := current.(body := current.body.(status := "awaiting_resume"));
    if seen.approvals[fingerprint].decision.None? {
      CommitKeeps(t, current, updated, [event], Decide(fingerprint, approved));
      CommitRecords(t, current, updated, [event], fingerprint, approved);
      NewestIsRow(t, current);
    } else {
      ExtendsItself(t);
      DecisionStands(seen, t, fingerprint);
    }
  }

  lemma DecisionStands(seen: Tables, t: Tables, fingerprint: string)
    requires Extends(seen, t) && fingerprint in seen.approvals && seen.approvals[fingerprint].decision.Some?
    ensures fingerprint in t.approvals && t.approvals[fingerprint].decision == seen.approvals[fingerprint].decision
  {
  }

  lemma ExtendsItself(t: Tables)
    ensures Extends(t, t)
  {
  }

  /** New events of one run keep every run consistent. */
  lemma EventsKeepRuns(t: Tables, u: Tables, run: string, more: seq<Event>)
    requires RunsOk(t) && run in t.runs
    requires u.runs == t.runs && u.checkpoints == t.checkpoints
    requires u.events == AddEvents(t.events, run, LastSeq(t.events, run), more)
    ensures RunsOk(u)
  {
    assert RunOk(t, run);
    AppendEvents(t, u, run, more);
    hide AddEvents, LastSeq, Numbered;
    forall r | r in u.runs ensures RunOk(u, r) {
      assert RunOk(t, r);
      OtherRunOk(t, u, r);
    }
  }

  lemma OneEvent(events: map<(string, nat), Event>, run: string, last: nat, event: Event)
    ensures AddEvents(events, run, last, [event]) == events[(run, last + 1) := event]
  {
  }

  lemma RegisterKeeps(seen: Tables, t: Tables, artifactId: string, row: ArtifactRow)
    requires RunsOk(t) && ArtifactsOk(t)
    requires Registered(seen, t, artifactId, row).Ok?
    ensures var u := Registered(seen, t, artifactId, row).value.0; RunsOk(u) && ArtifactsOk(u) && Extends(t, u)
  {
    hide RunsOk, ArtifactsOk, LastSeq, RunArtifacts, Extends, SameContent;
    var (u, stored) := Registered(seen, t, artifactId, row).value;
    if artifactId in t.artifacts {
      ExtendsItself(t);
    } else {
      var run, last := row.runId, LastSeq(t.events, row.runId);
      var event := ArtifactAvailable(artifactId, seen.runs[run].body.step, stored);
      assert (run, last + 1) !in t.events;
      OneEvent(t.events, run, last, event);
      EventsKeepRuns(t, u, run, [event]);
      RegisteredArtifactsOk(t, u, artifactId, stored, event);
      RegisteredExtends(t, u, artifactId, stored, event);
    }
  }

  lemma RegisteredExtends(t: Tables, u: Tables, artifactId: string, stored: ArtifactRow, event: Event)
    requires artifactId !in t.artifacts && (stored.runId, stored.createdSeq) !in t.events
    requires u == t.(events := t.events[(stored.runId, stored.createdSeq) := event],
                     artifacts := t.artifacts[artifactId := stored])
    ensures Extends(t, u)
  {
  }

  lemma RegisteredArtifactsOk(t: Tables, u: Tables, artifactId: string, stored: ArtifactRow, event: Event)
    requires ArtifactsOk(t) && artifactId !in t.artifacts && u.artifacts == t.artifacts[artifactId := stored]
    requires |RunArtifacts(t.artifacts, stored.runId)| < MAX_RUN_ARTIFACTS
    requires event.ArtifactAvailable? && event.artifactId == artifactId && event.row == stored
    requires (stored.runId, stored.createdSeq) !in t.events
    requires u.events == t.events[(stored.runId, stored.createdSeq) := event]
    ensures ArtifactsOk(u)
  {
    hide RunArtifacts, HasOwnEvent;
    forall a | a in u.artifacts ensures HasOwnEvent(u.events, a, u.artifacts[a]) {
      OwnEventKept(t, u, (stored.runId, stored.createdSeq), event, a, u.artifacts[a]);
    }
    forall r ensures |RunArtifacts(u.artifacts, r)| <= MAX_RUN_ARTIFACTS {
      OneMoreArtifact(t.artifacts, artifactId, stored, r);
    }
  }

  lemma OwnEventKept(t: Tables, u: Tables, key: (string, nat), event: Event, a: string, row: ArtifactRow)
    requires key !in t.events && u.events == t.events[key := event]
    requires HasOwnEvent(t.events, a, row)
      || (event.ArtifactAvailable? && event.artifactId == a && event.row == row && key == (row.runId, row.createdSeq))
    ensures HasOwnEvent(u.events, a, row)
  {
  }

  lemma OneMoreArtifact(artifacts: map<string, ArtifactRow>, artifactId: string, row: ArtifactRow, run: string)
    requires artifactId !in artifacts
    ensures |RunArtifacts(artifacts[artifactId := row], run)| == |RunArtifacts(artifacts, run)|
      + (if row.runId == run then 1 else 0)
  {
    var before := RunArtifacts(artifacts, run);
    assert RunArtifacts(artifacts[artifactId := row], run)
      == if run == row.runId then before + {artifactId} else before;
  }

  /** Every step of a disciplined driver, successful or not, keeps the invariants and only extends
      the tables. */
  lemma StepKeeps(t: Tables, op: Op)
    requires RunsOk(t) && ArtifactsOk(t) && Disciplined(t, op)
    ensures RunsOk(Next(t, op)) && ArtifactsOk(Next(t, op)) && Extends(t, Next(t, op))
  {
    hide RunsOk, ArtifactsOk, Started, Committed, Resolved, Registered, Held;
    match op {
      case Start(runId, messages, event, appId) =>
        if Started(t, runId, messages, event, appId).Ok? { StartKeeps(t, runId, messages, event, appId); }
      case Commit(current, updated, events, m) =>
        if Committed(t, current, updated, events, m).Ok? { CommitKeeps(t, current, updated, events, m); }
      case Resolve(seen, runId, fingerprint, approved, event) =>
        if Resolved(seen, t, runId, fingerprint, approved, event).Ok? {
          ResolveKeeps(seen, t, runId, fingerprint, approved, event);
        }
      case Register(seen, artifactId, row) =>
        if Registered(seen, t, artifactId, row).Ok? { RegisterKeeps(seen, t, artifactId, row); }
    }
  }

  ghost function Run(t: Tables, ops: seq<Op>): Tables
    decreases |ops|
  {
    if ops == [] then t else Run(Next(t, ops[0]), ops[1..])
  }

  ghost predicate AllDisciplined(t: Tables, ops: seq<Op>)
    decreases |ops|
  {
    ops == [] || (Disciplined(t, ops[0]) && AllDisciplined(Next(t, ops[0]), ops[1..]))
  }

  /** In every state any number of interleaved drivers can reach, each run has its revision equal to
      its generation, checkpoints exactly 1 to that generation, the newest equal to its row, events
      numbered without a gap and one application id; and the whole history is still there. */
  lemma {:induction false} EveryReachableState(t: Tables, ops: seq<Op>)
    requires RunsOk(t) && ArtifactsOk(t) && AllDisciplined(t, ops)
    ensures RunsOk(Run(t, ops)) && ArtifactsOk(Run(t, ops)) && Extends(t, Run(t, ops))
    decreases |ops|
  {
    hide RunsOk, ArtifactsOk, Next;
    if ops != [] {
      StepKeeps(t, ops[0]);
      EveryReachableState(Next(t, ops[0]), ops[1..]);
      ExtendsTransitive(t, Next(t, ops[0]), Run(t, ops));
    }
  }

  lemma ExtendsTransitive(t: Tables, u: Tables, v: Tables)
    requires Extends(t, u) && Extends(u, v)
    ensures Extends(t, v)
  {
  }

  lemma EmptyOk()
    ensures RunsOk(EMPTY) && ArtifactsOk(EMPTY)
  {
  }

  /** From an empty store on, whatever disciplined drivers do, in whatever order. */
  lemma EveryStateFromEmpty(ops: seq<Op>)
    requires AllDisciplined(EMPTY, ops)
    ensures RunsOk(Run(EMPTY, ops)) && ArtifactsOk(Run(EMPTY, ops)) && CallsOk(Run(EMPTY, ops))
  {
    EmptyOk();
    EveryReachableState(EMPTY, ops);
    CallsOkThroughout(EMPTY, ops);
  }

  /** A snapshot once returned stays usable as a checkpoint of its run. */
  lemma HeldForever(t: Tables, ops: seq<Op>, s: Snapshot)
    requires RunsOk(t) && ArtifactsOk(t) && AllDisciplined(t, ops) && Held(t, s)
    ensures Held(Run(t, ops), s)
  {
    EveryReachableState(t, ops);
  }

  // ----- Calls and approvals -----

  /** Fingerprints are unique, and so are the usable call ids of a run. */
  ghost predicate CallsUnique(calls: map<CallKey, CallRow>) {
    && (forall j, k :: j in calls && k in calls && j != k ==> calls[j].fingerprint != calls[k].fingerprint)
    && (forall j, k :: j in calls && k in calls && j != k && j.0 == k.0 && Usable(calls[j].callId) ==>
          calls[j].callId != calls[k].callId)
  }

  /** Calls are unique, and every approval belongs to a call. */
  ghost predicate CallsOk(t: Tables) {
    CallsUnique(t.calls) && forall f :: f in t.approvals ==> HasFingerprint(t.calls, f)
  }

  /** The same rows under the same keys, apart from status and result. */
  ghost predicate SameCalls(before: map<CallKey, CallRow>, after: map<CallKey, CallRow>) {
    && before.Keys == after.Keys
    && forall k :: k in before ==> after[k].fingerprint == before[k].fingerprint && after[k].callId == before[k].callId
  }

  lemma SameCallsOk(t: Tables, u: Tables)
    requires CallsOk(t) && SameCalls(t.calls, u.calls)
    requires forall f :: f in u.approvals ==> f in t.approvals || HasFingerprint(t.calls, f)
    ensures CallsOk(u)
  {
    forall f | f in u.approvals ensures HasFingerprint(u.calls, f) {
      assert HasFingerprint(t.calls, f);
      var k :| k in t.calls && t.calls[k].fingerprint == f;
      assert k in u.calls && u.calls[k].fingerprint == f;
    }
  }

  lemma InsertedCallOk(t: Tables, c: CallRecord, row: CallRow)
    requires CallsOk(t) && !CallCollides(t.calls, c) && row.fingerprint == c.fingerprint && row.callId == c.callId
    ensures CallsOk(t.(calls := t.calls[KeyOf(c) := row]))
  {
    var calls := t.calls[KeyOf(c) := row];
    forall f | f in t.approvals ensures HasFingerprint(calls, f) {
      assert HasFingerprint(t.calls, f);
      var k :| k in t.calls && t.calls[k].fingerprint == f;
      assert k in calls && calls[k].fingerprint == f;
    }
  }

  lemma {:induction false} InsertCallsOk(t: Tables, calls: seq<CallRecord>)
    requires CallsOk(t)
    ensures InsertCalls(t, calls).Ok? ==> CallsOk(InsertCalls(t, calls).value)
    decreases |calls|
  {
    hide CallsOk, CallCollides;
    if calls != [] && !CallCollides(t.calls, calls[0]) && calls[0].runId in t.runs {
      var c := calls[0];
      var row := CallRow(c.callId, c.fingerprint, c.contract, c.status, None);
      InsertedCallOk(t, c, row);
      InsertCallsOk(t.(calls := t.calls[KeyOf(c) := row]), calls[1..]);
    }
  }

  lemma MutatedCallsOk(t: Tables, runId: string, step: int, m: Mutation)
    requires CallsOk(t) && Mutated(t, runId, step, m).Ok?
    ensures CallsOk(Mutated(t, runId, step, m).value)
  {
    var u := Mutated(t, runId, step, m).value;
    if m.InsertReply? {
      var begun := t.(replies := t.replies[(runId, step) := m.reply]);
      SameCallsOk(t, begun);
      InsertCallsOk(begun, m.calls);
    } else {
      SameCallsOk(t, u);
    }
  }

  lemma CommittedCallsOk(t: Tables, current: Snapshot, updated: Snapshot, events: seq<Event>, m: Mutation)
    requires CallsOk(t) && Committed(t, current, updated, events, m).Ok?
    ensures CallsOk(Committed(t, current, updated, events, m).value.0)
  {
    MutatedCallsOk(t, current.runId, updated.body.step, m);
    hide Mutated, CallsUnique, HasFingerprint, AddEvents, LastSeq;
  }

  /** Every operation of every driver, disciplined or not, keeps calls unique and approvals attached. */
  lemma CallsStayOk(t: Tables, op: Op)
    requires CallsOk(t)
    ensures CallsOk(Next(t, op))
  {
    hide Mutated, CallsUnique, HasFingerprint, AddEvents, LastSeq, Committed;
    match op {
      case Start(_, _, _, _) =>
      case Commit(current, updated, events, m) =>
        if Committed(t, current, updated, events, m).Ok? { CommittedCallsOk(t, current, updated, events, m); }
      case Resolve(seen, runId, fingerprint, approved, event) =>
        if Loaded(seen, runId).Ok? {
          var current := Loaded(seen, runId).value;
          var updated := current.(body := current.body.(status := "awaiting_resume"));
          if Committed(t, current, updated, [event], Decide(fingerprint, approved)).Ok? {
            CommittedCallsOk(t, current, updated, [event], Decide(fingerprint, approved));
          }
        }
      case Register(_, _, _) =>
    }
  }

  lemma {:induction false} CallsOkThroughout(t: Tables, ops: seq<Op>)
    requires CallsOk(t)
    ensures CallsOk(Run(t, ops))
    decreases |ops|
  {
    hide CallsOk, Next;
    if ops != [] {
      CallsStayOk(t, ops[0]);
      CallsOkThroughout(Next(t, ops[0]), ops[1..]);
    }
  }

  /** A decision reaches exactly the one call it was asked for. */
  lemma DecisionReachesItsCall(seen: Tables, t: Tables, runId: string, fingerprint: string, approved: bool,
          event: Event)
    requires CallsOk(t)
    requires Resolved(seen, t, runId, fingerprint, approved, event).Ok?
    requires Resolved(seen, t, runId, fingerprint, approved, event).value.2
    ensures var after := Resolved(seen, t, runId, fingerprint, approved, event).value.0.calls;
      exists key :: key in t.calls && t.calls[key].fingerprint == fingerprint
        && after == t.calls[key := t.calls[key].(status := if approved then "approved" else "denied")]
  {
    hide AddEvents, LastSeq, CallsUnique, WithStatus, HasFingerprint;
    assert HasFingerprint(t.calls, fingerprint);
    var key := OneCallWithStatus(t.calls, fingerprint, if approved then "approved" else "denied");
  }

  lemma OneCallWithStatus(calls: map<CallKey, CallRow>, fingerprint: string, status: string) returns (key: CallKey)
    requires CallsUnique(calls) && HasFingerprint(calls, fingerprint)
    ensures key in calls && calls[key].fingerprint == fingerprint
    ensures WithStatus(calls, fingerprint, status) == calls[key := calls[key].(status := status)]
  {
    key :| key in calls && calls[key].fingerprint == fingerprint;
  }

  // ----- Concurrent drivers -----

  /** The run and revision a successful step moves on from. An approval that was already recorded
      moves nothing. */
  ghost function Claims(t: Tables, op: Op): Option<(string, nat)> {
    match op
    case Commit(current, updated, events, m) =>
      if Committed(t, current, updated, events, m).Ok? then Some((current.runId, current.revision)) else None
    case Resolve(seen, runId, fingerprint, approved, event) =>
      var r := Resolved(seen, t, runId, fingerprint, approved, event);
      if r.Ok? && r.value.2 then Some((runId, seen.runs[runId].revision)) else None
    case _ => None
  }

  /** Of all drivers holding one revision of a run, at most one ever commits, whatever the
      interleaving, and whether it commits a change of its own or resolves an approval. */
  lemma OneCommitPerRevision(t: Tables, ops: seq<Op>, i: nat, j: nat)
    requires RunsOk(t) && ArtifactsOk(t) && AllDisciplined(t, ops) && i < j < |ops|
    requires Claims(Run(t, ops[..i]), ops[i]).Some?
    ensures Claims(Run(t, ops[..j]), ops[j]) != Claims(Run(t, ops[..i]), ops[i])
  {
    hide Committed, RunsOk, ArtifactsOk, Disciplined, Next, Claims, Run, AllDisciplined, DecisionsKept;
    StateAt(t, ops, i);
    StateAt(t, ops, j);
    var before, late := Run(t, ops[..i]), Run(t, ops[..j]);
    ClaimMoves(before, ops[i]);
    ExtendedSince(t, ops, i, j);
    if Claims(late, ops[j]).Some? {
      ClaimMoves(late, ops[j]);
    }
  }

  /** Before each step of a disciplined run the invariants hold and the step is disciplined. */
  lemma StateAt(t: Tables, ops: seq<Op>, i: nat)
    requires RunsOk(t) && ArtifactsOk(t) && AllDisciplined(t, ops) && i < |ops|
    ensures var u := Run(t, ops[..i]);
      RunsOk(u) && ArtifactsOk(u) && Disciplined(u, ops[i]) && AllDisciplined(u, ops[i..])
  {
    hide RunsOk, ArtifactsOk, Disciplined, Next, Run;
    DisciplinedSplit(t, ops, i);
    EveryReachableState(t, ops[..i]);
    assert ops[i..][0] == ops[i];
  }

  /** The state before a step extends the state right after any earlier one. */
  lemma ExtendedSince(t: Tables, ops: seq<Op>, i: nat, j: nat)
    requires RunsOk(t) && ArtifactsOk(t) && AllDisciplined(t, ops) && i < j < |ops|
    ensures Extends(Next(Run(t, ops[..i]), ops[i]), Run(t, ops[..j]))
  {
    hide RunsOk, ArtifactsOk, Disciplined, AllDisciplined, Next, Extends, Run;
    var before := Run(t, ops[..i]);
    StateAt(t, ops, i);
    StepKeeps(before, ops[i]);
    RunFrom(t, ops, i, j);
    DisciplinedFrom(before, ops, i, j);
    EveryReachableState(Next(before, ops[i]), ops[i + 1..j]);
  }

  lemma Slices(ops: seq<Op>, i: nat, j: nat)
    requires i < j <= |ops|
    ensures ops[..j][..i] == ops[..i] && ops[..j][i..] == [ops[i]] + ops[i + 1..j]
    ensures ops[i..] == [ops[i]] + ops[i + 1..] && ops[i + 1..][..j - i - 1] == ops[i + 1..j]
  {
  }

  /** Running to `j` is running to `i`, the step there, and the steps between. */
  lemma RunFrom(t: Tables, ops: seq<Op>, i: nat, j: nat)
    requires i < j <= |ops|
    ensures Run(t, ops[..j]) == Run(Next(Run(t, ops[..i]), ops[i]), ops[i + 1..j])
  {
    hide Next, Run;
    Slices(ops, i, j);
    RunSplit(t, ops[..j], i);
    RunFirst(Run(t, ops[..i]), ops[i], ops[i + 1..j]);
  }

  lemma RunFirst(t: Tables, op: Op, rest: seq<Op>)
    ensures Run(t, [op] + rest) == Run(Next(t, op), rest)
  {
    hide Next;
    assert ([op] + rest)[1..] == rest;
  }

  lemma DisciplinedFrom(before: Tables, ops: seq<Op>, i: nat, j: nat)
    requires i < j <= |ops| && AllDisciplined(before, ops[i..])
    ensures AllDisciplined(Next(before, ops[i]), ops[i + 1..j])
  {
    hide Next, Disciplined, Run;
    Slices(ops, i, j);
    assert ops[i..][1..] == ops[i + 1..];
    DisciplinedSplit(Next(before, ops[i]), ops[i + 1..], j - i - 1);
  }

  /** A successful commit found the run at the claimed revision and leaves it past it. */
  lemma ClaimMoves(t: Tables, op: Op)
    requires RunsOk(t) && ArtifactsOk(t) && Disciplined(t, op) && Claims(t, op).Some?
    ensures var (run, revision) := Claims(t, op).value;
      && run in t.runs && t.runs[run].revision == revision
      && run in Next(t, op).runs && Next(t, op).runs[run].revision == revision + 1
  {
    hide Committed, Resolved, RunsOk, ArtifactsOk, Extends, Held;
    if op.Commit? {
      CommitKeeps(t, op.current, op.updated, op.events, op.m);
    } else {
      ResolveKeeps(op.seen, t, op.runId, op.fingerprint, op.approved, op.event);
    }
  }

  lemma {:induction false} RunSplit(t: Tables, ops: seq<Op>, n: nat)
    requires n <= |ops|
    ensures Run(t, ops) == Run(Run(t, ops[..n]), ops[n..])
    decreases n
  {
    hide Next;
    if n == 0 {
      assert ops[..0] == [] && ops[0..] == ops;
    } else {
      RunSplit(Next(t, ops[0]), ops[1..], n - 1);
      assert ops[..n][0] == ops[0] && ops[..n][1..] == ops[1..][..n - 1] && ops[n..] == ops[1..][n - 1..];
    }
  }

  lemma {:induction false} DisciplinedSplit(t: Tables, ops: seq<Op>, n: nat)
    requires n <= |ops| && AllDisciplined(t, ops)
    ensures AllDisciplined(t, ops[..n]) && AllDisciplined(Run(t, ops[..n]), ops[n..])
    decreases n
  {
    hide Next, Disciplined;
    if n == 0 {
      assert ops[..0] == [] && ops[0..] == ops;
    } else {
      DisciplinedSplit(Next(t, ops[0]), ops[1..], n - 1);
      assert ops[..n][0] == ops[0] && ops[..n][1..] == ops[1..][..n - 1] && ops[n..] == ops[1..][n - 1..];
    }
  }

  // ----- Replay -----

  /** Reading on from any cursor returns exactly the rest of the full log. */
  lemma {:induction false} ReplayFromCursor(events: map<(string, nat), Event>, run: string, from: nat, skip: nat)
    requires Numbered(events, run) && from + skip <= LastSeq(events, run)
    ensures skip <= |EventsAfter(events, run, from)|
    ensures EventsAfter(events, run, from)[skip..] == EventsAfter(events, run, from + skip)
    decreases skip
  {
    if skip > 0 {
      ReplayFromCursor(events, run, from + 1, skip - 1);
      assert EventsAfter(events, run, from)[skip..] == EventsAfter(events, run, from + 1)[skip - 1..];
    }
  }

  /** What a reader saw stays a prefix of what any later reader sees. */
  lemma {:induction false} LogOnlyGrows(t: Tables, u: Tables, run: string, after: nat)
    requires Numbered(t.events, run) && Numbered(u.events, run) && Extends(t, u)
    ensures EventsAfter(t.events, run, after) <= EventsAfter(u.events, run, after)
    decreases if after < LastSeq(t.events, run) then LastSeq(t.events, run) - after else 0
  {
    if after < LastSeq(t.events, run) {
      assert (run, LastSeq(t.events, run)) in u.events && (run, after + 1) in t.events;
      LogOnlyGrows(t, u, run, after + 1);
    }
  }
}
