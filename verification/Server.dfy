/** Connection permits, handler counting and the shutdown drain of the HTTP server. */
module Server {

  /** Who holds the handlers lock. */
  datatype Owner = Nobody | Request(id: nat) | Closer

  /** What the threads share: the semaphore, the closing flag, the handler count and the lock on it. */
  datatype Shared = Shared(available: int, closing: bool, active: int, lock: Owner)

  /** Where one request is, between two steps that no other thread can split. */
  datatype Stage =
    | Arrived           // process_request was called
    | Open              // closing was seen unset
    | Permitted         // a permit was acquired
    | Locked            // and then the lock
    | Refusing          // closing was seen set, under the lock
    | Refused           // the permit was given back, the lock is still held
    | Cleared           // closing was seen unset, under the lock
    | Adding(seen: int)  // the count was read, to be raised
    | Added             // the count was written, the lock is still held
    | Registered        // the lock was given back, the thread not started yet
    | Running           // its thread runs
    | Released          // its thread gave the permit back
    | Leaving           // and then took the lock
    | Taking(seen: int)  // the count was read, to be lowered
    | Left              // the count was written, the lock is still held
    | SpawnFailed       // starting the thread raised
    | Undoing           // the failed start took the lock
    | Lowering(seen: int)
    | Undone
    | Unregistered      // the failed start is out of the count, the lock was given back
    | Finished

  // ----- The steps of a request, on values -----

  /** Takes the lock, or waits for it. */
  function Lock(s: Shared, id: nat, from: Stage, to: Stage): (Shared, Stage) {
    if s.lock.Nobody? then (s.(lock := Request(id)), to) else (s, from)
  }

  function Unlock(s: Shared, to: Stage): (Shared, Stage) {
    (s.(lock := Nobody), to)
  }

  function Acquire(s: Shared): (Shared, Stage) {
    if s.available > 0 then (s.(available := s.available - 1), Permitted) else (s, Finished)
  }

  function Release(s: Shared): Shared {
    s.(available := s.available + 1)
  }

  /** The next step of request `id`; `started` says whether starting its thread works. */
  function Advance(s: Shared, id: nat, stage: Stage, started: bool): (Shared, Stage) {
    match stage
    case Arrived => (s, if s.closing then Finished else Open)
    case Open => Acquire(s)
    case Permitted => Lock(s, id, Permitted, Locked)
    case Locked => (s, if s.closing then Refusing else Cleared)
    case Refusing => (Release(s), Refused)
    case Refused => Unlock(s, Finished)
    case Cleared => (s, Adding(s.active))
    case Adding(seen) => (s.(active := seen + 1), Added)
    case Added => Unlock(s, Registered)
    case Registered => (s, if started then Running else SpawnFailed)
    case Running => (Release(s), Released)
    case Released => Lock(s, id, Released, Leaving)
    case Leaving => (s, Taking(s.active))
    case Taking(seen) => (s.(active := seen - 1), Left)
    case Left => Unlock(s, Finished)
    case SpawnFailed => Lock(s, id, SpawnFailed, Undoing)
    case Undoing => (s, Lowering(s.active))
    case Lowering(seen) => (s.(active := seen - 1), Undone)
    case Undone => Unlock(s, Unregistered)
    case Unregistered => (Release(s), Finished)
    case Finished => (s, Finished)
  }

  /** `n` steps of one request with no other thread in between. */
  function Alone(s: Shared, id: nat, stage: Stage, started: bool, n: nat): (Shared, Stage)
    decreases n
  {
    if n == 0 then (s, stage)
    else var (t, next) := Advance(s, id, stage, started); Alone(t, id, next, started, n - 1)
  }

  lemma AloneStep(s: Shared, id: nat, stage: Stage, started: bool, n: nat)
    requires n > 0
    ensures Alone(s, id, stage, started, n)
      == Alone(Advance(s, id, stage, started).0, id, Advance(s, id, stage, started).1, started, n - 1)
  {
  }

  /** The locked section of process_request, undisturbed: counted, or the permit given back. */
  lemma RegisterAlone(s: Shared, id: nat)
    requires s.lock.Nobody?
    ensures !s.closing ==> Alone(s, id, Permitted, true, 5) == (s.(active := s.active + 1), Registered)
    ensures s.closing ==> Alone(s, id, Permitted, true, 4) == (s.(available := s.available + 1), Finished)
  {
    hide Alone;
    var inside := s.(lock := Request(id));
    AloneStep(s, id, Permitted, true, if s.closing then 4 else 5);
    AloneStep(inside, id, Locked, true, if s.closing then 3 else 4);
    if s.closing {
      AloneStep(inside, id, Refusing, true, 2);
      AloneStep(Release(inside), id, Refused, true, 1);
      AloneEnd(s.(available := s.available + 1), id, Finished, true);
    } else {
      AloneStep(inside, id, Cleared, true, 3);
      AloneStep(inside, id, Adding(s.active), true, 2);
      AloneStep(inside.(active := s.active + 1), id, Added, true, 1);
      AloneEnd(s.(active := s.active + 1), id, Registered, true);
    }
  }

  /** The locked section at the end of a handler thread, undisturbed. */
  lemma DeregisterAlone(s: Shared, id: nat)
    requires s.lock.Nobody?
    ensures Alone(s, id, Released, true, 4) == (s.(active := s.active - 1), Finished)
  {
    hide Alone;
    var inside, less := s.(lock := Request(id)), s.(active := s.active - 1);
    AloneStep(s, id, Released, true, 4);
    AloneStep(inside, id, Leaving, true, 3);
    AloneStep(inside, id, Taking(s.active), true, 2);
    AloneStep(less.(lock := Request(id)), id, Left, true, 1);
    AloneEnd(less, id, Finished, true);
  }

  /** The same after a failed start. */
  lemma UndoAlone(s: Shared, id: nat)
    requires s.lock.Nobody?
    ensures Alone(s, id, SpawnFailed, true, 4) == (s.(active := s.active - 1), Unregistered)
  {
    hide Alone;
    var inside, less := s.(lock := Request(id)), s.(active := s.active - 1);
    AloneStep(s, id, SpawnFailed, true, 4);
    AloneStep(inside, id, Undoing, true, 3);
    AloneStep(inside, id, Lowering(s.active), true, 2);
    AloneStep(less.(lock := Request(id)), id, Undone, true, 1);
    AloneEnd(less, id, Unregistered, true);
  }

  lemma AloneEnd(s: Shared, id: nat, stage: Stage, started: bool)
    ensures Alone(s, id, stage, started, 0) == (s, stage)
  {
  }

  class SasoriHTTPServer {
    const maxConnections: nat
    var available: int
    var closing: bool
    var activeHandlers: int

    /** The shared state as a thread sees it that runs with the lock free. */
    ghost function State(): Shared
      reads this
    {
      Shared(available, closing, activeHandlers, Nobody)
    }

    constructor (maxConnections: nat)
      ensures this.maxConnections == maxConnections && State() == Shared(maxConnections, false, 0, Nobody)
    {
      this.maxConnections := maxConnections;
      available, closing, activeHandlers := maxConnections, false, 0;
    }

    method TryAcquire() returns (acquired: bool)
      modifies this
      ensures (State(), if acquired then Permitted else Finished) == Acquire(old(State()))
    {
      acquired := available > 0;
      if acquired {
        available := available - 1;
      }
    }

    /** The bounded semaphore refuses a release beyond its limit. */
    method ReleasePermit()
      requires available < maxConnections
      modifies this
      ensures State() == Release(old(State()))
    {
      available := available + 1;
    }

    /** The locked section at the end of a handler thread, from taking the lock to giving it back. */
    method DeregisterHandler(ghost id: nat)
      requires activeHandlers > 0
      modifies this
      ensures (State(), Finished) == Alone(old(State()), id, Released, true, 4)
      ensures (State(), Unregistered) == Alone(old(State()), id, SpawnFailed, true, 4)
      ensures State() == old(State()).(active := old(activeHandlers) - 1)
    {
      hide Alone;
      DeregisterAlone(State(), id);
      UndoAlone(State(), id);
      activeHandlers := activeHandlers - 1;
    }

    /** The locked section of process_request, from taking the lock to giving it back. */
    method RegisterHandler(ghost id: nat) returns (registered: bool)
      requires available < maxConnections
      modifies this
      ensures registered <==> !old(closing)
      ensures registered ==> (State(), Registered) == Alone(old(State()), id, Permitted, true, 5)
      ensures !registered ==> (State(), Finished) == Alone(old(State()), id, Permitted, true, 4)
      ensures State() == if registered then old(State()).(active := old(activeHandlers) + 1) else Release(old(State()))
    {
      hide Alone;
      RegisterAlone(State(), id);
      if closing {
        ReleasePermit();
        return false;
      }
      activeHandlers := activeHandlers + 1;
      registered := true;
    }

    method Close()
      modifies this
      ensures State() == old(State()).(closing := true)
    {
      closing := true;
    }

    /** The whole of process_request when no other thread runs in between. */
    method ProcessRequest(started: bool) returns (stage: Stage)
      requires 0 <= available <= maxConnections && 0 <= activeHandlers
      modifies this
      ensures stage == Running || stage == Finished
      ensures stage == Running <==> !old(closing) && old(available) > 0 && started
      ensures State() == if stage == Running then Shared(old(available) - 1, false, old(activeHandlers) + 1, Nobody)
        else old(State())
    {
      if closing {
        return Finished;
      }
      var acquired := TryAcquire();
      if !acquired {
        return Finished;
      }
      var registered := RegisterHandler(0);
      if !registered {
        return Finished;
      }
      if !started {
        DeregisterHandler(0);
        ReleasePermit();
        return Finished;
      }
      stage := Running;
    }

    /** The `finally` block of process_request_thread: the permit first, then the count. */
    method FinishRequestThread(ghost id: nat)
      requires available < maxConnections && activeHandlers > 0
      modifies this
      ensures (State(), Finished) == Alone(old(State()), id, Running, true, 5)
    {
      hide Alone;
      AloneStep(State(), id, Running, true, 5);
      ReleasePermit();
      DeregisterHandler(id);
    }
  }

  // ----- Interleavings -----

  /** Where the thread is that closes the server and waits for its handlers. */
  datatype Drain = Away | Looking | Drained | GaveUp

  datatype World = World(shared: Shared, requests: map<nat, Stage>, drain: Drain)

  /** The flag is set at any time and by any thread; `Enter` and `Look` are the waiting of `server_close`,
      which holds the lock while it looks at the count and gives it back to wait or to return. */
  datatype Action = Arrive(id: nat) | Step(id: nat, started: bool) | SetClosing | Enter | Look(expired: bool)

  function Next(w: World, a: Action): World {
    match a
    case Arrive(id) => if id in w.requests then w else w.(requests := w.requests[id := Arrived])
    case Step(id, started) =>
      if id !in w.requests then w
      else
        var (s, stage) := Advance(w.shared, id, w.requests[id], started);
        w.(shared := s, requests := w.requests[id := stage])
    case SetClosing => w.(shared := w.shared.(closing := true))
    case Enter =>
      if w.drain.Away? && w.shared.closing && w.shared.lock.Nobody? then
        w.(shared := w.shared.(lock := Closer), drain := Looking)
      else w
    case Look(expired) =>
      if !w.drain.Looking? then w
      else
        w.(shared := w.shared.(lock := Nobody),
           drain := if w.shared.active == 0 then Drained else if expired then GaveUp else Away)
  }

  function Run(w: World, actions: seq<Action>): World
    decreases |actions|
  {
    if actions == [] then w else Run(Next(w, actions[0]), actions[1..])
  }

  predicate Holds(stage: Stage) {
    || stage.Permitted? || stage.Locked? || stage.Refusing? || stage.Cleared? || stage.Adding? || stage.Added?
    || stage.Registered? || stage.Running? || stage.SpawnFailed? || stage.Undoing? || stage.Lowering? || stage.Undone?
    || stage.Unregistered?
  }

  predicate Counted(stage: Stage) {
    || stage.Added? || stage.Registered? || stage.Running? || stage.Released? || stage.Leaving? || stage.Taking?
    || stage.SpawnFailed? || stage.Undoing? || stage.Lowering?
  }

  predicate HoldsLock(stage: Stage) {
    || stage.Locked? || stage.Refusing? || stage.Refused? || stage.Cleared? || stage.Adding? || stage.Added?
    || stage.Leaving? || stage.Taking? || stage.Left? || stage.Undoing? || stage.Lowering? || stage.Undone?
  }

  /** Past the flag check, and not counted yet. */
  predicate Due(stage: Stage) {
    stage.Cleared? || stage.Adding?
  }

  function Holders(w: World): set<nat> {
    set id | id in w.requests && Holds(w.requests[id])
  }

  function Handlers(w: World): set<nat> {
    set id | id in w.requests && Counted(w.requests[id])
  }

  function DueRequests(w: World): set<nat> {
    set id | id in w.requests && Due(w.requests[id])
  }

  /** The lock has one owner, who alone is inside a locked section, with a count nobody else changes. */
  predicate Excluded(w: World) {
    && (w.shared.lock.Closer? <==> w.drain.Looking?)
    && (forall id :: id in w.requests ==> (HoldsLock(w.requests[id]) <==> w.shared.lock == Request(id)))
    && (w.shared.lock.Request? ==> w.shared.lock.id in w.requests)
    && (forall id :: id in w.requests && HasRead(w.requests[id]) ==> Seen(w.requests[id]) == w.shared.active)
  }

  /** Permits are conserved, and the count is the number of registered handlers. */
  predicate Conserved(max: nat, w: World) {
    && Excluded(w)
    && w.shared.available + |Holders(w)| == max && 0 <= w.shared.available
    && w.shared.active == |Handlers(w)|
  }

  function Initial(max: nat): World {
    World(Shared(max, false, 0, Nobody), map[], Away)
  }

  lemma MovedSet(before: set<nat>, after: set<nat>, id: nat, was: bool, becomes: bool)
    requires was <==> id in before
    requires after == if becomes then before + {id} else before - {id}
    ensures |after| == |before| + (if becomes then 1 else 0) - (if was then 1 else 0)
  {
    if was && becomes {
      assert after == before;
    } else if !was && !becomes {
      assert after == before;
    }
  }

  /** Moving one request to a new stage changes the two sets by that request alone. */
  lemma StageMoves(w: World, w': World, id: nat, was: Stage, becomes: Stage)
    requires w'.requests == w.requests[id := becomes]
    requires if id in w.requests then was == w.requests[id] else was.Finished?
    ensures |Holders(w')| == |Holders(w)| + (if Holds(becomes) then 1 else 0) - (if Holds(was) then 1 else 0)
    ensures |Handlers(w')| == |Handlers(w)| + (if Counted(becomes) then 1 else 0) - (if Counted(was) then 1 else 0)
  {
    HoldersMove(w, w', id, becomes);
    HandlersMove(w, w', id, becomes);
    MovedSet(Holders(w), Holders(w'), id, id in Holders(w), Holds(becomes));
    MovedSet(Handlers(w), Handlers(w'), id, id in Handlers(w), Counted(becomes));
  }

  lemma HoldersMove(w: World, w': World, id: nat, becomes: Stage)
    requires w'.requests == w.requests[id := becomes]
    ensures Holders(w') == if Holds(becomes) then Holders(w) + {id} else Holders(w) - {id}
  {
    hide Holds;
    if Holds(becomes) {
      assert Holders(w') == Holders(w) + {id};
    } else {
      assert Holders(w') == Holders(w) - {id};
    }
  }

  lemma HandlersMove(w: World, w': World, id: nat, becomes: Stage)
    requires w'.requests == w.requests[id := becomes]
    ensures Handlers(w') == if Counted(becomes) then Handlers(w) + {id} else Handlers(w) - {id}
  {
    hide Counted;
    if Counted(becomes) {
      assert Handlers(w') == Handlers(w) + {id};
    } else {
      assert Handlers(w') == Handlers(w) - {id};
    }
  }

  predicate HasRead(stage: Stage) {
    stage.Adding? || stage.Taking? || stage.Lowering?
  }

  function Seen(stage: Stage): int {
    if HasRead(stage) then stage.seen else 0
  }

  /** One step of a request that respects the lock: it takes and gives back only a lock that is free or its
      own, writes the count only while it holds the lock, and moves count and permits with its stage. */
  lemma AdvanceRespects(s: Shared, id: nat, stage: Stage, started: bool)
    requires HoldsLock(stage) <==> s.lock == Request(id)
    requires HasRead(stage) ==> Seen(stage) == s.active
    ensures var (t, next) := Advance(s, id, stage, started);
      && (HoldsLock(next) <==> t.lock == Request(id))
      && (t.lock != s.lock ==> s.lock in {Nobody, Request(id)} && t.lock in {Nobody, Request(id)})
      && (t.active != s.active ==> s.lock == Request(id))
      && (HasRead(next) ==> Seen(next) == t.active)
      && t.closing == s.closing
  {
  }

  lemma AdvanceCounts(s: Shared, id: nat, stage: Stage, started: bool)
    requires HasRead(stage) ==> Seen(stage) == s.active
    requires s.available >= 0
    ensures var (t, next) := Advance(s, id, stage, started);
      && t.available + (if Holds(next) then 1 else 0) == s.available + (if Holds(stage) then 1 else 0)
      && t.active - (if Counted(next) then 1 else 0) == s.active - (if Counted(stage) then 1 else 0)
      && t.available >= 0
  {
  }

  lemma StepExcludes(w: World, a: Action)
    requires Excluded(w)
    ensures Excluded(Next(w, a))
  {
    hide Advance, HoldsLock, HasRead, Seen;
    if a.Step? && a.id in w.requests {
      AdvanceRespects(w.shared, a.id, w.requests[a.id], a.started);
      ReadersHoldTheLock();
      var w' := Next(w, a);
      assert forall id :: id in w'.requests && id != a.id ==> id in w.requests && w'.requests[id] == w.requests[id];
    } else if a.Arrive? {
      ArrivedIsOutside();
    }
  }

  lemma ReadersHoldTheLock()
    ensures forall stage :: HasRead(stage) ==> HoldsLock(stage)
  {
  }

  lemma ArrivedIsOutside()
    ensures !HoldsLock(Arrived) && !HasRead(Arrived) && !Holds(Arrived) && !Counted(Arrived)
    ensures !HoldsLock(Finished) && !HasRead(Finished) && !Holds(Finished) && !Counted(Finished)
  {
  }

  lemma StepConserves(max: nat, w: World, a: Action)
    requires Conserved(max, w)
    ensures Conserved(max, Next(w, a))
  {
    hide Advance, Holds, Counted, Holders, Handlers;
    var w' := Next(w, a);
    StepExcludes(w, a);
    hide Excluded;
    match a {
      case Arrive(id) =>
        ArrivedIsOutside();
        if id !in w.requests { StageMoves(w, w', id, Finished, Arrived); }
      case Step(id, started) =>
        if id in w.requests {
          ReadIsCurrent(w, id);
          AdvanceCounts(w.shared, id, w.requests[id], started);
          StageMoves(w, w', id, w.requests[id], w'.requests[id]);
        }
      case _ =>
        SameRequests(w, w');
    }
  }

  lemma ReadIsCurrent(w: World, id: nat)
    requires Excluded(w) && id in w.requests
    ensures HasRead(w.requests[id]) ==> Seen(w.requests[id]) == w.shared.active
  {
  }

  lemma SameRequests(w: World, w': World)
    requires w'.requests == w.requests
    ensures Holders(w') == Holders(w) && Handlers(w') == Handlers(w) && DueRequests(w') == DueRequests(w)
  {
  }

  /** Over every interleaving, available and held permits add up to the limit, the lock excludes, and the
      handler count is the number of requests registered and not yet deregistered: no update of it is lost. */
  lemma {:induction false} EveryRunConserves(max: nat, w: World, actions: seq<Action>)
    requires Conserved(max, w)
    ensures Conserved(max, Run(w, actions))
    decreases |actions|
  {
    hide Conserved, Next;
    if actions != [] {
      StepConserves(max, w, actions[0]);
      EveryRunConserves(max, Next(w, actions[0]), actions[1..]);
    }
  }

  lemma InitialConserves(max: nat)
    ensures Conserved(max, Initial(max))
  {
  }

  /** The same from the start of the server on. */
  lemma EveryRunFromStart(max: nat, actions: seq<Action>)
    ensures Conserved(max, Run(Initial(max), actions))
  {
    InitialConserves(max);
    EveryRunConserves(max, Initial(max), actions);
  }

  /** The bounded semaphore is never released beyond its limit, and the count never drops below zero. */
  lemma ReleasesAreSafe(max: nat, w: World, id: nat)
    requires Conserved(max, w) && id in w.requests
    ensures Holds(w.requests[id]) ==> w.shared.available < max
    ensures Counted(w.requests[id]) ==> w.shared.active > 0
  {
    hide Holds, Counted;
    if Holds(w.requests[id]) {
      assert id in Holders(w);
    }
    if Counted(w.requests[id]) {
      assert id in Handlers(w);
    }
  }

  // ----- Each permit is released exactly once -----

  function StageOf(w: World, id: nat): Stage {
    if id in w.requests then w.requests[id] else Arrived
  }

  /** How often request `id` takes a permit in a run, and how often it gives one back. */
  function Taken(w: World, actions: seq<Action>, id: nat): nat
    decreases |actions|
  {
    if actions == [] then 0
    else
      var w' := Next(w, actions[0]);
      (if !Holds(StageOf(w, id)) && Holds(StageOf(w', id)) then 1 else 0) + Taken(w', actions[1..], id)
  }

  function Given(w: World, actions: seq<Action>, id: nat): nat
    decreases |actions|
  {
    if actions == [] then 0
    else
      var w' := Next(w, actions[0]);
      (if Holds(StageOf(w, id)) && !Holds(StageOf(w', id)) then 1 else 0) + Given(w', actions[1..], id)
  }

  predicate Fresh(stage: Stage) {
    stage.Arrived? || stage.Open?
  }

  /** A request takes a permit at most once, gives it back at most once, and when it is finished it has
      given back exactly what it took. */
  lemma {:induction false} PermitReleasedOnce(w: World, actions: seq<Action>, id: nat)
    ensures var taken, given := Taken(w, actions, id), Given(w, actions, id); var end := StageOf(Run(w, actions), id);
      && taken <= (if Fresh(StageOf(w, id)) then 1 else 0)
      && given + (if Holds(end) then 1 else 0) == taken + (if Holds(StageOf(w, id)) then 1 else 0)
      && (Fresh(StageOf(w, id)) && end.Finished? ==> given == taken <= 1)
    decreases |actions|
  {
    hide Holds, Fresh, Next;
    if actions != [] {
      StepPermits(w, actions[0], id);
      PermitReleasedOnce(Next(w, actions[0]), actions[1..], id);
    }
    FinishedHolds();
  }

  lemma FinishedHolds()
    ensures forall stage: Stage ::
      !(Fresh(stage) && Holds(stage)) && (stage.Finished? ==> !Holds(stage) && !Fresh(stage))
  {
  }

  /** A request never goes back to before its permit, nor takes one again after it gave it back. */
  lemma StepPermits(w: World, a: Action, id: nat)
    ensures var was, becomes := StageOf(w, id), StageOf(Next(w, a), id);
      && !(Fresh(was) && Holds(was))
      && (Fresh(becomes) ==> Fresh(was))
      && (Holds(becomes) ==> Fresh(was) || Holds(was))
      && (was.Finished? ==> becomes.Finished?)
      && (was.Finished? ==> !Holds(was) && !Fresh(was))
  {
  }

  // ----- Drain -----

  /** The lock admits one request at a time between its flag check and its count. */
  lemma OneIsDue(w: World)
    requires Excluded(w)
    ensures |DueRequests(w)| <= 1
    ensures DueRequests(w) != {} ==> w.shared.lock.Request? && DueRequests(w) == {w.shared.lock.id}
  {
    if id :| id in DueRequests(w) {
      assert DueRequests(w) == {id};
    }
  }

  /** After closing, one step can only count a request that was due, and makes none due. */
  lemma ClosingStep(max: nat, w: World, a: Action)
    requires Conserved(max, w) && w.shared.closing
    ensures var w' := Next(w, a);
      && w'.shared.closing && Handlers(w') <= Handlers(w) + DueRequests(w)
      && DueRequests(w') <= DueRequests(w) - Handlers(w')
  {
    hide Conserved;
    var w' := Next(w, a);
    forall id | id in Handlers(w') ensures id in Handlers(w) + DueRequests(w) {
      assert id in w.requests;
    }
    forall id | id in DueRequests(w') ensures id in DueRequests(w) && id !in Handlers(w') {
      assert id in w.requests;
    }
  }

  /** Closing is for good. From then on the only request that can still be counted is the one that was
      already past its flag check, if there is one. */
  lemma {:induction false} ClosingOnlyDrains(max: nat, w: World, actions: seq<Action>)
    requires Conserved(max, w) && w.shared.closing
    ensures var late := Run(w, actions);
      && late.shared.closing && Handlers(late) <= Handlers(w) + DueRequests(w) && DueRequests(late) <= DueRequests(w)
      && late.shared.active <= w.shared.active + |DueRequests(w)| <= w.shared.active + 1
    decreases |actions|
  {
    hide Next, Handlers, DueRequests;
    OneIsDue(w);
    if actions != [] {
      ClosingStep(max, w, actions[0]);
      StepConserves(max, w, actions[0]);
      ClosingOnlyDrains(max, Next(w, actions[0]), actions[1..]);
    }
    EveryRunConserves(max, w, actions);
    WithinUnion(Handlers(Run(w, actions)), Handlers(w), DueRequests(w));
  }

  lemma WithinUnion(a: set<nat>, b: set<nat>, c: set<nat>)
    requires a <= b + c
    ensures |a| <= |b| + |c|
  {
    assert a + ((b + c) - a) == b + c;
    assert b + (c - b) == b + c;
    assert (c - b) + (c * b) == c;
  }

  /** The flag is set outside the lock, so the count can grow after it was set, even from zero. */
  lemma CountCanGrowAfterClosing()
    ensures var before := Run(Initial(1), ToCleared(7)); var closed := Next(before, SetClosing);
      && closed.shared.closing && closed.shared.active == 0
      && Run(closed, [Step(7, true), Step(7, true)]).shared.active == 1
  {
    var w := Initial(1);
    var actions := ToCleared(7);
    assert actions[1..] == [Step(7, true), Step(7, true), Step(7, true), Step(7, true)];
    assert actions[1..][1..] == [Step(7, true), Step(7, true), Step(7, true)];
    assert actions[1..][1..][1..] == [Step(7, true), Step(7, true)];
    assert actions[1..][1..][1..][1..] == [Step(7, true)];
    var closed := Next(Run(w, actions), SetClosing);
    assert [Step(7, true), Step(7, true)][1..] == [Step(7, true)];
  }

  /** A request arrives and goes on until it has found the flag unset under the lock. */
  function ToCleared(id: nat): seq<Action> {
    [Arrive(id), Step(id, true), Step(id, true), Step(id, true), Step(id, true)]
  }

  /** After closing, a count of zero is final exactly when no request is between its flag check and the
      count. */
  lemma DrainedExactly(max: nat, w: World)
    requires Conserved(max, w) && w.shared.closing && w.shared.active == 0
    ensures (forall actions :: Run(w, actions).shared.active == 0) <==> DueRequests(w) == {}
  {
    hide Conserved;
    if DueRequests(w) == {} {
      forall actions ensures Run(w, actions).shared.active == 0 {
        ClosingOnlyDrains(max, w, actions);
        EveryRunConserves(max, w, actions);
        NeverNegative(max, Run(w, actions));
      }
    } else {
      var id :| id in DueRequests(w);
      DueIsCounted(max, w, id);
      assert Run(w, [Step(id, true), Step(id, true)]).shared.active == 1 || Run(w, [Step(id, true)]).shared.active == 1;
    }
  }

  lemma NeverNegative(max: nat, w: World)
    requires Conserved(max, w)
    ensures w.shared.active >= 0
  {
  }

  lemma DueIsCounted(max: nat, w: World, id: nat)
    requires Conserved(max, w) && w.shared.active == 0 && id in DueRequests(w)
    ensures Run(w, [Step(id, true), Step(id, true)]).shared.active == 1 || Run(w, [Step(id, true)]).shared.active == 1
  {
    assert [Step(id, true), Step(id, true)][1..] == [Step(id, true)] && [Step(id, true)][1..] == [];
    var once := Next(w, Step(id, true));
    assert Run(once, []) == once;
    assert Run(w, [Step(id, true)]) == once;
    RunTwice(w, Step(id, true));
  }

  lemma RunTwice(w: World, a: Action)
    ensures Run(w, [a, a]) == Next(Next(w, a), a)
  {
    var twice := [a, a];
    assert twice[1..] == [a] && [a][1..] == [];
    assert Run(w, twice) == Run(Next(w, a), [a]) == Run(Next(Next(w, a), a), []);
  }

  /** A zero that the closing thread sees while it holds the lock is final: there is no handler in any later
      state, whatever requests still arrive. */
  lemma DrainedForever(max: nat, w: World, actions: seq<Action>)
    requires Conserved(max, w) && w.shared.closing && w.drain.Looking? && w.shared.active == 0
    ensures Run(w, actions).shared.active == 0 && Handlers(Run(w, actions)) == {}
  {
    hide Handlers, DueRequests;
    OneIsDue(w);
    DrainedExactly(max, w);
    EveryRunConserves(max, w, actions);
  }

  /** Once the closing thread reports that the handlers are gone, there is none, then and later. */
  lemma DrainedMeansNone(max: nat, actions: seq<Action>)
    ensures var w := Run(Initial(max), actions); w.drain.Drained? ==> w.shared.active == 0 && Handlers(w) == {}
  {
    DrainedHolds(max, Initial(max), actions);
    EveryRunFromStart(max, actions);
  }

  /** What the drain stage says about the rest: looking and being done come after closing, and being done
      leaves no handler and no request that is due. */
  predicate DrainOk(w: World) {
    && (!w.drain.Away? ==> w.shared.closing)
    && (w.drain.Drained? ==> w.shared.active == 0 && DueRequests(w) == {})
  }

  lemma {:induction false} DrainedHolds(max: nat, w: World, actions: seq<Action>)
    requires Conserved(max, w) && DrainOk(w)
    ensures DrainOk(Run(w, actions))
    decreases |actions|
  {
    hide Conserved, DrainOk, Next;
    if actions != [] {
      StepConserves(max, w, actions[0]);
      DrainStep(max, w, actions[0]);
      DrainedHolds(max, Next(w, actions[0]), actions[1..]);
    }
  }

  lemma DrainStep(max: nat, w: World, a: Action)
    requires Conserved(max, w) && DrainOk(w)
    ensures DrainOk(Next(w, a))
  {
    hide Handlers, DueRequests;
    var w' := Next(w, a);
    OneIsDue(w);
    StepConserves(max, w, a);
    if w.shared.closing {
      ClosingStep(max, w, a);
      ClosingOnlyDrains(max, w, [a]);
    }
  }
}
