/** Overlapping callers of the semantic compaction model that share one summary cache. */
module SemanticRaces {
  import opened Wrappers
  import opened Messages
  import opened Semantic
  import SummaryCache

  /** The shared cache with its tickets, and where each caller is. */
  datatype World = World(memo: SummaryCache.World, callers: map<nat, Stage>)

  /** A section of one caller, with any others in between. `Begin` stands for any prepared compaction. */
  datatype Action =
    | Begin(id: nat, q: Pending)
    | Reply(id: nat, reply: Result<Summary, string>)
    | Publish(id: nat)
    | Finish(id: nat)

  predicate Proper(q: Pending) {
    q.system <= q.prefix < |q.projected|
  }

  /** A compaction takes what the cache answers: a summary, a ticket, or both. */
  function Begun(q: Pending, begun: SummaryCache.Begun): Pending {
    q.(summary := begun.value, ticket := begun.ticket)
  }

  function Next(s: Settings, max: nat, w: World, a: Action): World
    requires Sound(w)
  {
    match a
    case Begin(id, q) =>
      if id in w.callers || !Proper(q) then w
      else
        var op := SummaryCache.Op.Begin(q.key);
        World(SummaryCache.Next(max, w.memo, op),
              w.callers[id := Asked(Begun(q, SummaryCache.BeginStep(w.memo.cache, q.key).1))])
    case Reply(id, reply) =>
      if id !in w.callers || !w.callers[id].Asked? then w
      else w.(callers := w.callers[id := Replied(s, w.callers[id].q, reply)])
    case Publish(id) =>
      if id !in w.callers || !w.callers[id].Offering? then w
      else
        var q, summary := w.callers[id].q, w.callers[id].summary;
        World(SummaryCache.Next(max, w.memo, SummaryCache.Op.Publish(q.key, summary)),
              w.callers[id := Chosen(s, q, SummaryCache.PublishStep(max, w.memo.cache, q.key, summary).1)])
    case Finish(id) =>
      if id !in w.callers || !w.callers[id].Ending? then w
      else
        var c := w.callers[id];
        World(if c.q.ticket then SummaryCache.Next(max, w.memo, SummaryCache.Op.Finish(c.q.key)) else w.memo,
              w.callers[id := Ended(c.q, c.outcome, c.used)])
  }

  /** Every caller works on a proper compaction. */
  predicate Sound(w: World) {
    forall id :: id in w.callers ==> Proper(w.callers[id].q)
  }

  /** Does a caller hold a ticket for `key`? */
  predicate Holds(stage: Stage, key: string) {
    !stage.Ended? && stage.q.ticket && stage.q.key == key
  }

  function Holders(w: World, key: string): set<nat> {
    set id | id in w.callers && Holds(w.callers[id], key)
  }

  /** The summary a caller has settled on. */
  function Used(stage: Stage): Option<Summary> {
    match stage
    case Asked(q) => q.summary
    case Offering(_, _) => None
    case Ending(_, _, used) => used
    case Ended(_, _, used) => used
  }

  /** What is sent is built from the summary a caller settled on; only a ticket holder publishes. */
  predicate StageOk(s: Settings, stage: Stage)
    requires Proper(stage.q)
  {
    && ((stage.Ending? || stage.Ended?) && stage.outcome.Sent? ==>
          stage.used.Some? && stage.outcome.messages == PrimaryProjection(s, stage.q, stage.used.value))
    && (stage.Offering? ==> stage.q.ticket)
    && (stage.Asked? && !stage.q.ticket ==> stage.q.summary.Some?)
  }

  /** The tickets of the cache are the ones its callers hold, and every holder that settled on a summary
      settled on the winner of its race. */
  ghost predicate Good(s: Settings, max: nat, w: World) {
    && Sound(w) && SummaryCache.RaceInvariant(w.memo) && SummaryCache.ResidencyInvariant(max, w.memo)
    && (forall key :: |Holders(w, key)| == w.memo.tickets[key])
    && (forall id :: id in w.callers ==> StageOk(s, w.callers[id]))
    && HoldersAgree(w)
  }

  ghost predicate HoldersAgree(w: World) {
    forall id, key :: id in w.callers && Holds(w.callers[id], key) && Used(w.callers[id]).Some? ==>
      key in w.memo.cache.races && w.memo.cache.races[key].winner == Used(w.callers[id])
  }

  lemma HoldersMove(w: World, w': World, id: nat, stage: Stage, key: string)
    requires w'.callers == w.callers[id := stage]
    ensures |Holders(w', key)| == |Holders(w, key)| + (if Holds(stage, key) then 1 else 0)
      - (if id in w.callers && Holds(w.callers[id], key) then 1 else 0)
  {
    hide Holds;
    var before, after := Holders(w, key), Holders(w', key);
    if Holds(stage, key) {
      assert after == before + {id};
    } else {
      assert after == before - {id};
    }
  }

  lemma NextSound(s: Settings, max: nat, w: World, a: Action)
    requires Sound(w)
    ensures Sound(Next(s, max, w, a))
  {
    hide PrimaryProjection, OverBudget, SummaryCache.Next, SummaryCache.PublishStep, SummaryCache.BeginStep;
  }

  /** The operation on the cache a section makes, if it makes one. */
  function OpOf(w: World, a: Action): Option<SummaryCache.Op> {
    match a
    case Begin(id, q) => if id in w.callers || !Proper(q) then None else Some(SummaryCache.Op.Begin(q.key))
    case Reply(_, _) => None
    case Publish(id) =>
      if id in w.callers && w.callers[id].Offering? then
        Some(SummaryCache.Op.Publish(w.callers[id].q.key, w.callers[id].summary))
      else None
    case Finish(id) =>
      if id in w.callers && w.callers[id].Ending? && w.callers[id].q.ticket then
        Some(SummaryCache.Op.Finish(w.callers[id].q.key))
      else None
  }

  /** Whoever uses a ticket holds it, so the cache never refuses it. */
  lemma OpsAreEnabled(s: Settings, max: nat, w: World, a: Action)
    requires Good(s, max, w)
    ensures OpOf(w, a).Some? ==> SummaryCache.Enabled(w.memo, OpOf(w, a).value)
    ensures Next(s, max, w, a).memo
      == if OpOf(w, a).Some? then SummaryCache.Next(max, w.memo, OpOf(w, a).value) else w.memo
  {
    hide PrimaryProjection, OverBudget, SummaryCache.Next, SummaryCache.PublishStep, SummaryCache.BeginStep,
      SummaryCache.RaceInvariant, SummaryCache.ResidencyInvariant;
    if OpOf(w, a).Some? && !a.Begin? {
      var q := w.callers[a.id].q;
      assert a.id in Holders(w, q.key);
    }
  }

  lemma MemoStep(s: Settings, max: nat, w: World, a: Action)
    requires max > 0 && Good(s, max, w)
    ensures SummaryCache.RaceInvariant(Next(s, max, w, a).memo)
    ensures SummaryCache.ResidencyInvariant(max, Next(s, max, w, a).memo)
  {
    OpsAreEnabled(s, max, w, a);
    hide SummaryCache.Next, SummaryCache.RaceInvariant, SummaryCache.ResidencyInvariant, OpOf, Next;
    SummaryCache.ResidencyIsOrdered(max, w.memo);
    if OpOf(w, a).Some? {
      SummaryCache.RaceStep(max, w.memo, OpOf(w, a).value);
      SummaryCache.ResidencyStep(max, w.memo, OpOf(w, a).value);
    }
  }

  /** One section moves the ticket count of a key exactly with the holders of tickets for it. */
  lemma TicketsStep(s: Settings, max: nat, w: World, a: Action, key: string)
    requires max > 0 && Good(s, max, w)
    ensures |Holders(Next(s, max, w, a), key)| == Next(s, max, w, a).memo.tickets[key]
  {
    hide PrimaryProjection, OverBudget, Holders, SummaryCache.RaceInvariant, SummaryCache.ResidencyInvariant,
      SummaryCache.PublishStep, SummaryCache.FinishStep, SummaryCache.BeginStep;
    OpsAreEnabled(s, max, w, a);
    var w' := Next(s, max, w, a);
    if w'.callers != w.callers {
      HoldersMove(w, w', a.id, w'.callers[a.id], key);
    }
    assert |Holders(w, key)| == w.memo.tickets[key];
    if w' == w {
    } else if a.Begin? {
      BeginHolds(max, w.memo, a.q);
    } else {
      SameTicket(s, max, w, a, key);
    }
  }

  lemma BeginHolds(max: nat, memo: SummaryCache.World, q: Pending)
    ensures var ticket := Begun(q, SummaryCache.BeginStep(memo.cache, q.key).1).ticket;
      SummaryCache.Next(max, memo, SummaryCache.Op.Begin(q.key)).tickets
        == if ticket then memo.tickets + multiset{q.key} else memo.tickets
  {
  }

  /** Only the end of a caller gives a ticket back. */
  lemma SameTicket(s: Settings, max: nat, w: World, a: Action, key: string)
    requires Sound(w) && !a.Begin? && Next(s, max, w, a) != w
    ensures var w' := Next(s, max, w, a);
      && a.id in w.callers && a.id in w'.callers && w'.callers[a.id].q == w.callers[a.id].q
      && (!a.Finish? ==> (Holds(w'.callers[a.id], key) <==> Holds(w.callers[a.id], key)))
      && (!a.Finish? ==> w'.memo.tickets == w.memo.tickets)
      && (a.Finish? ==> !Holds(w'.callers[a.id], key))
      && (a.Finish? ==>
            w'.memo.tickets == if w.callers[a.id].q.ticket then w.memo.tickets - multiset{w.callers[a.id].q.key}
                               else w.memo.tickets)
  {
    hide PrimaryProjection, OverBudget, SummaryCache.PublishStep, SummaryCache.FinishStep, SummaryCache.BeginStep;
  }

  lemma StagesStep(s: Settings, max: nat, w: World, a: Action)
    requires Good(s, max, w)
    ensures Sound(Next(s, max, w, a))
    ensures forall id :: id in Next(s, max, w, a).callers ==> StageOk(s, Next(s, max, w, a).callers[id])
  {
    hide PrimaryProjection, OverBudget, SummaryCache.Next, SummaryCache.PublishStep, SummaryCache.RaceInvariant,
      SummaryCache.ResidencyInvariant;
    NextSound(s, max, w, a);
  }

  lemma BeginSettles(max: nat, memo: SummaryCache.World, key: string)
    requires SummaryCache.RaceInvariant(memo)
    ensures var value := SummaryCache.BeginStep(memo.cache, key).1.value;
      var after := SummaryCache.Next(max, memo, SummaryCache.Op.Begin(key)).cache.races;
      value.Some? && key in after ==> after[key].winner == value
  {
    hide SummaryCache.Without;
  }

  lemma PublishSettles(max: nat, memo: SummaryCache.World, key: string, summary: Summary)
    ensures var r := SummaryCache.PublishStep(max, memo.cache, key, summary).1;
      var after := SummaryCache.Next(max, memo, SummaryCache.Op.Publish(key, summary)).cache.races;
      r.Ok? ==> key in after && after[key].winner == Some(r.value.0)
  {
    hide SummaryCache.Without, SummaryCache.LastN, SummaryCache.Restrict;
  }

  lemma FinishKeepsWinner(max: nat, memo: SummaryCache.World, key: string)
    ensures var after := SummaryCache.Next(max, memo, SummaryCache.Op.Finish(key)).cache.races;
      key in after ==> key in memo.cache.races && after[key].winner == memo.cache.races[key].winner
  {
  }

  lemma RepliedUses(s: Settings, q: Pending, reply: Result<Summary, string>)
    requires Proper(q) && (!q.ticket ==> q.summary.Some?)
    ensures var stage := Replied(s, q, reply); stage.q == q && (Used(stage).Some? ==> Used(stage) == q.summary)
  {
    hide PrimaryProjection, OverBudget;
  }

  lemma ChosenUses(s: Settings, q: Pending, r: Result<(Summary, bool), SummaryCache.TicketError>)
    requires Proper(q)
    ensures var stage := Chosen(s, q, r);
      stage.q == q && (Used(stage).Some? ==> r.Ok? && Used(stage).value == r.value.0)
  {
    hide PrimaryProjection, OverBudget;
  }

  /** What a caller settles on in one section is the winner of its race, as long as that is live. */
  lemma SettlesOnWinner(s: Settings, max: nat, w: World, a: Action, key: string)
    requires Sound(w) && SummaryCache.RaceInvariant(w.memo) && Next(s, max, w, a).callers != w.callers
    requires forall id :: id in w.callers ==> StageOk(s, w.callers[id])
    requires key in Next(s, max, w, a).memo.cache.races
    requires var stage := Next(s, max, w, a).callers[a.id];
      && stage.q.key == key && Used(stage).Some?
      && (a.id in w.callers && Used(w.callers[a.id]).Some? ==>
            key in w.memo.cache.races && w.memo.cache.races[key].winner == Used(w.callers[a.id]))
    ensures Next(s, max, w, a).memo.cache.races[key].winner == Used(Next(s, max, w, a).callers[a.id])
  {
    hide Replied, Chosen, PrimaryProjection, SummaryCache.Next, SummaryCache.PublishStep, SummaryCache.BeginStep,
      SummaryCache.RaceInvariant;
    match a {
      case Begin(id, q) => BeginSettles(max, w.memo, q.key);
      case Reply(id, reply) => RepliedUses(s, w.callers[id].q, reply);
      case Publish(id) =>
        var q, summary := w.callers[id].q, w.callers[id].summary;
        PublishSettles(max, w.memo, q.key, summary);
        ChosenUses(s, q, SummaryCache.PublishStep(max, w.memo.cache, q.key, summary).1);
      case Finish(id) =>
        if w.callers[id].q.ticket {
          FinishKeepsWinner(max, w.memo, w.callers[id].q.key);
        }
    }
  }

  /** A decided race keeps its winner while it is live. */
  lemma WinnerKept(s: Settings, max: nat, w: World, a: Action, key: string)
    requires max > 0 && Good(s, max, w) && key in w.memo.cache.races && w.memo.cache.races[key].winner.Some?
    requires key in Next(s, max, w, a).memo.cache.races
    ensures Next(s, max, w, a).memo.cache.races[key].winner == w.memo.cache.races[key].winner
  {
    OpsAreEnabled(s, max, w, a);
    MemoStep(s, max, w, a);
    hide Next, OpOf, SummaryCache.Next, SummaryCache.Enabled, SummaryCache.ResidencyInvariant;
    SummaryCache.ResidencyIsOrdered(max, w.memo);
    if OpOf(w, a).Some? {
      SummaryCache.WinnerStays(max, w.memo, OpOf(w, a).value, key, w.memo.cache.races[key].winner.value);
    }
  }

  lemma OthersStay(s: Settings, max: nat, w: World, a: Action)
    requires Sound(w)
    ensures var w' := Next(s, max, w, a);
      forall id :: id in w'.callers && id != a.id ==> id in w.callers && w'.callers[id] == w.callers[id]
    ensures var w' := Next(s, max, w, a); w'.callers == w.callers || a.id in w'.callers
    ensures var w' := Next(s, max, w, a);
      a.id in w.callers && w'.callers != w.callers ==> w'.callers[a.id].q == w.callers[a.id].q
  {
    hide PrimaryProjection, OverBudget, SummaryCache.Next, SummaryCache.PublishStep, SummaryCache.BeginStep;
  }

  lemma GoodStep(s: Settings, max: nat, w: World, a: Action)
    requires max > 0 && Good(s, max, w)
    ensures Good(s, max, Next(s, max, w, a))
  {
    var w' := Next(s, max, w, a);
    MemoStep(s, max, w, a);
    StagesStep(s, max, w, a);
    hide Next, StageOk, HoldersAgree, Holders, Sound, SummaryCache.ResidencyInvariant, SummaryCache.RaceInvariant;
    forall key ensures |Holders(w', key)| == w'.memo.tickets[key] {
      TicketsStep(s, max, w, a, key);
    }
    HoldersAgreeStep(s, max, w, a);
  }

  lemma HoldersAgreeStep(s: Settings, max: nat, w: World, a: Action)
    requires max > 0 && Good(s, max, w)
    ensures HoldersAgree(Next(s, max, w, a))
  {
    hide Next, Used, Holds, Holders, Sound, StageOk, SummaryCache.RaceInvariant, SummaryCache.ResidencyInvariant;
    var w' := Next(s, max, w, a);
    forall id, key | id in w'.callers && Holds(w'.callers[id], key) && Used(w'.callers[id]).Some?
      ensures key in w'.memo.cache.races && w'.memo.cache.races[key].winner == Used(w'.callers[id])
    {
      TicketsStep(s, max, w, a, key);
      HolderAgrees(s, max, w, a, id, key);
    }
  }

  /** Whoever holds a ticket after a section and has settled on a summary, settled on the winner. */
  lemma HolderAgrees(s: Settings, max: nat, w: World, a: Action, id: nat, key: string)
    requires max > 0 && Good(s, max, w)
    requires var w' := Next(s, max, w, a);
      id in w'.callers && Holds(w'.callers[id], key) && Used(w'.callers[id]).Some?
    requires |Holders(Next(s, max, w, a), key)| == Next(s, max, w, a).memo.tickets[key]
    ensures var w' := Next(s, max, w, a);
      key in w'.memo.cache.races && w'.memo.cache.races[key].winner == Used(w'.callers[id])
  {
    var w' := Next(s, max, w, a);
    MemoStep(s, max, w, a);
    OthersStay(s, max, w, a);
    HolderIsLive(s, max, w', id, key);
    hide Next, StageOk, Used, Holders, SummaryCache.ResidencyInvariant, SummaryCache.RaceInvariant;
    if id != a.id || w'.callers == w.callers {
      WinnerKept(s, max, w, a, key);
    } else {
      StepHeld(s, max, w, a, key);
      SettlesOnWinner(s, max, w, a, key);
    }
  }

  lemma HolderIsLive(s: Settings, max: nat, w: World, id: nat, key: string)
    requires SummaryCache.RaceInvariant(w.memo) && id in w.callers && Holds(w.callers[id], key)
    requires |Holders(w, key)| == w.memo.tickets[key]
    ensures key in w.memo.cache.races
  {
    assert id in Holders(w, key);
  }

  /** A caller that holds a ticket after a section held it before, unless it just began. */
  lemma StepHeld(s: Settings, max: nat, w: World, a: Action, key: string)
    requires Sound(w) && Next(s, max, w, a).callers != w.callers && Holds(Next(s, max, w, a).callers[a.id], key)
    ensures a.id in w.callers ==> Holds(w.callers[a.id], key)
  {
    hide PrimaryProjection, OverBudget, SummaryCache.Next, SummaryCache.PublishStep, SummaryCache.BeginStep;
  }

  function Run(s: Settings, max: nat, w: World, actions: seq<Action>): World
    requires Sound(w)
    decreases |actions|
  {
    if actions == [] then w
    else
      NextSound(s, max, w, actions[0]);
      Run(s, max, Next(s, max, w, actions[0]), actions[1..])
  }

  const EMPTY := World(SummaryCache.EMPTY, map[])

  /** In every interleaving of sections of any callers, the tickets of the cache are the ones its callers hold,
      whoever holds one and has settled on a summary has settled on the winner of its race, and whatever is
      sent is built from the summary its caller settled on. */
  lemma {:induction false} EveryRunIsGood(s: Settings, max: nat, w: World, actions: seq<Action>)
    requires max > 0 && Good(s, max, w)
    ensures Good(s, max, Run(s, max, w, actions))
    decreases |actions|
  {
    hide Next, Holders, HoldersAgree, StageOk, SummaryCache.RaceInvariant, SummaryCache.ResidencyInvariant;
    if actions != [] {
      GoodStep(s, max, w, actions[0]);
      EveryRunIsGood(s, max, Next(s, max, w, actions[0]), actions[1..]);
    }
  }

  lemma EmptyIsGood(s: Settings, max: nat)
    ensures Good(s, max, EMPTY)
  {
    SummaryCache.EmptyInvariant(max);
    assert forall key :: Holders(EMPTY, key) == {};
  }

  lemma EveryRunFromEmpty(s: Settings, max: nat, actions: seq<Action>)
    requires max > 0
    ensures Good(s, max, Run(s, max, EMPTY, actions))
  {
    EmptyIsGood(s, max);
    EveryRunIsGood(s, max, EMPTY, actions);
  }

  /** No caller ever finds its ticket gone. */
  lemma TicketsAreNeverLost(s: Settings, max: nat, w: World, id: nat)
    requires max > 0 && Good(s, max, w) && id in w.callers
    ensures w.callers[id].Offering? ==>
      SummaryCache.PublishStep(max, w.memo.cache, w.callers[id].q.key, w.callers[id].summary).1.Ok?
    ensures w.callers[id].Ending? && w.callers[id].q.ticket ==>
      SummaryCache.FinishStep(w.memo.cache, w.callers[id].q.key).1.Ok?
  {
    hide SummaryCache.RaceInvariant, SummaryCache.ResidencyInvariant, SummaryCache.PublishStep, SummaryCache.FinishStep;
    var stage := w.callers[id];
    if stage.Offering? {
      assert id in Holders(w, stage.q.key);
      SummaryCache.HeldTicketsWork(max, w.memo, stage.q.key, stage.summary);
    } else if stage.Ending? && stage.q.ticket {
      assert id in Holders(w, stage.q.key);
      SummaryCache.HeldTicketsWork(max, w.memo, stage.q.key, SummaryCache.Summary("", "", 0));
    }
  }

  // ----- One race, one summary in everything that is sent -----

  /** The race of `key` is live in every state of a run. */
  predicate StaysLive(s: Settings, max: nat, w: World, actions: seq<Action>, key: string)
    requires Sound(w)
    decreases |actions|
  {
    && key in w.memo.cache.races
    && (actions != [] ==>
          (NextSound(s, max, w, actions[0]); StaysLive(s, max, Next(s, max, w, actions[0]), actions[1..], key)))
  }

  /** Callers that take part in what follows: they hold a ticket of the race, or have not begun. */
  predicate TakesPart(w: World, key: string, id: nat) {
    id in w.callers ==> Holds(w.callers[id], key)
  }

  /** Everyone but the bystanders who works for `key` and settled on a summary settled on the winner. */
  ghost predicate Agreed(w: World, key: string, bystanders: set<nat>) {
    && key in w.memo.cache.races
    && (forall id :: id in w.callers && id !in bystanders && w.callers[id].q.key == key && Used(w.callers[id]).Some? ==>
          w.memo.cache.races[key].winner == Used(w.callers[id]))
  }

  lemma AgreedStep(s: Settings, max: nat, w: World, a: Action, key: string, bystanders: set<nat>)
    requires max > 0 && Good(s, max, w) && Agreed(w, key, bystanders)
    requires key in Next(s, max, w, a).memo.cache.races
    ensures Agreed(Next(s, max, w, a), key, bystanders)
  {
    hide Next, StageOk, Used, Holds, Holders, HoldersAgree, SummaryCache.ResidencyInvariant, SummaryCache.RaceInvariant;
    var w' := Next(s, max, w, a);
    OthersStay(s, max, w, a);
    forall id | id in w'.callers && id !in bystanders && w'.callers[id].q.key == key && Used(w'.callers[id]).Some?
      ensures w'.memo.cache.races[key].winner == Used(w'.callers[id])
    {
      if id != a.id || w'.callers == w.callers {
        WinnerKept(s, max, w, a, key);
      } else {
        SettlesOnWinner(s, max, w, a, key);
      }
    }
  }

  lemma {:induction false} AgreedRun(s: Settings, max: nat, w: World, actions: seq<Action>, key: string,
          bystanders: set<nat>)
    requires max > 0 && Good(s, max, w) && Agreed(w, key, bystanders) && StaysLive(s, max, w, actions, key)
    ensures Good(s, max, Run(s, max, w, actions)) && Agreed(Run(s, max, w, actions), key, bystanders)
    decreases |actions|
  {
    hide Next, Agreed, Holders, HoldersAgree, StageOk, SummaryCache.RaceInvariant, SummaryCache.ResidencyInvariant;
    if actions != [] {
      GoodStep(s, max, w, actions[0]);
      LiveFirst(s, max, w, actions, key);
      AgreedStep(s, max, w, actions[0], key, bystanders);
      AgreedRun(s, max, Next(s, max, w, actions[0]), actions[1..], key, bystanders);
    }
  }

  lemma LiveFirst(s: Settings, max: nat, w: World, actions: seq<Action>, key: string)
    requires Sound(w) && actions != [] && StaysLive(s, max, w, actions, key)
    ensures Sound(Next(s, max, w, actions[0]))
    ensures StaysLive(s, max, Next(s, max, w, actions[0]), actions[1..], key)
    ensures key in Next(s, max, w, actions[0]).memo.cache.races
  {
    hide Next;
    NextSound(s, max, w, actions[0]);
  }

  /** All messages sent for one key while its race lives are built from one summary: whichever callers take
      part, in whatever order they begin, publish and end, and whatever their summarizers replied. */
  lemma OneSummaryIsSent(s: Settings, max: nat, w: World, actions: seq<Action>, key: string, i: nat, j: nat)
    requires max > 0 && Good(s, max, w) && StaysLive(s, max, w, actions, key)
    requires TakesPart(w, key, i) && TakesPart(w, key, j)
    requires var late := Run(s, max, w, actions);
      && i in late.callers && j in late.callers
      && late.callers[i].q.key == key && late.callers[j].q.key == key
      && late.callers[i].Ended? && late.callers[i].outcome.Sent?
      && late.callers[j].Ended? && late.callers[j].outcome.Sent?
    ensures var late := Run(s, max, w, actions);
      exists summary :: key in late.memo.cache.races && late.memo.cache.races[key].winner == Some(summary)
        && Proper(late.callers[i].q) && Proper(late.callers[j].q)
        && late.callers[i].outcome.messages == PrimaryProjection(s, late.callers[i].q, summary)
        && late.callers[j].outcome.messages == PrimaryProjection(s, late.callers[j].q, summary)
  {
    hide PrimaryProjection, Next, Run, StaysLive, Holders, SummaryCache.RaceInvariant, SummaryCache.ResidencyInvariant;
    var bystanders := set id | id in w.callers && !Holds(w.callers[id], key);
    LiveNow(s, max, w, actions, key);
    assert Agreed(w, key, bystanders);
    AgreedRun(s, max, w, actions, key, bystanders);
    var late := Run(s, max, w, actions);
    assert StageOk(s, late.callers[i]) && StageOk(s, late.callers[j]);
  }

  lemma LiveNow(s: Settings, max: nat, w: World, actions: seq<Action>, key: string)
    requires Sound(w) && StaysLive(s, max, w, actions, key)
    ensures key in w.memo.cache.races
  {
  }
}
