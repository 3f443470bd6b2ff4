/** The bounded summary memo and the first-miss race it pins for overlapping callers. */
module SummaryCache {
  import opened Wrappers

  datatype Summary = Summary(text: string, sha256: string, sizeBytes: nat)
  datatype Status = Hit | Joined | Missed
  datatype Race = Race(active: nat, winner: Option<Summary>)

  /** The resident entries, oldest first in `order`, and the live races. */
  datatype Cache = Cache(order: seq<string>, items: map<string, Summary>, races: map<string, Race>)

  datatype Begun = Begun(value: Option<Summary>, ticket: bool, status: Status)
  datatype TicketError = TicketInactive

  function Without(s: seq<string>, k: string): (r: seq<string>)
    ensures k !in r && |r| <= |s|
    ensures forall x :: x in r <==> x in s && x != k
    ensures k !in s ==> r == s
  {
    if s == [] then [] else if s[0] == k then Without(s[1..], k) else [s[0]] + Without(s[1..], k)
  }

  function LastN(s: seq<string>, n: nat): seq<string> {
    if |s| <= n then s else s[|s| - n..]
  }

  function Restrict(items: map<string, Summary>, order: seq<string>): map<string, Summary> {
    map k | k in items && k in order :: items[k]
  }

  // ----- The three operations on values -----

  function BeginStep(c: Cache, key: string): (Cache, Begun) {
    if key in c.items then
      (c.(order := Without(c.order, key) + [key]), Begun(Some(c.items[key]), false, Hit))
    else
      var race := if key in c.races then c.races[key] else Race(0, None);
      (c.(races := c.races[key := race.(active := race.active + 1)]),
       Begun(race.winner, true, if race.winner.Some? then Joined else Missed))
  }

  function PublishStep(max: nat, c: Cache, key: string, value: Summary): (Cache, Result<(Summary, bool), TicketError>) {
    if key !in c.races || c.races[key].active == 0 then (c, Err(TicketInactive))
    else if c.races[key].winner.Some? then (c, Ok((c.races[key].winner.value, false)))
    else
      var order := LastN(Without(c.order, key) + [key], max);
      (Cache(order, Restrict(c.items[key := value], order), c.races[key := c.races[key].(winner := Some(value))]),
       Ok((value, true)))
  }

  function FinishStep(c: Cache, key: string): (Cache, Result<(), TicketError>) {
    if key !in c.races || c.races[key].active == 0 then (c, Err(TicketInactive))
    else if c.races[key].active == 1 then (c.(races := c.races - {key}), Ok(()))
    else (c.(races := c.races[key := c.races[key].(active := c.races[key].active - 1)]), Ok(()))
  }

  predicate Distinct(s: seq<string>) {
    forall i, j :: 0 <= i < j < |s| ==> s[i] != s[j]
  }

  /** The ordered dictionary is consistent: its order lists exactly its keys, once each. */
  ghost predicate Ordered(c: Cache) {
    Distinct(c.order) && forall k :: k in c.items <==> k in c.order
  }

  /** Dropping the oldest key from the items is restricting them to the rest of the order. */
  lemma EvictOldest(all: map<string, Summary>, order: seq<string>)
    requires order != [] && Distinct(order)
    ensures Restrict(all, order) - {order[0]} == Restrict(all, order[1..])
    ensures Distinct(order[1..])
  {
    assert order == [order[0]] + order[1..];
  }

  lemma RestrictToAll(all: map<string, Summary>, order: seq<string>)
    requires forall k :: k in all <==> k in order
    ensures Restrict(all, order) == all
  {
  }

  lemma RestrictKeys(all: map<string, Summary>, full: seq<string>, order: seq<string>)
    requires forall k :: k in all <==> k in full
    requires forall k :: k in order ==> k in full
    ensures forall k :: k in Restrict(all, order) <==> k in order
  {
  }

  class SemanticSummaryCache {
    const maxEntries: nat
    var order: seq<string>
    var items: map<string, Summary>
    var races: map<string, Race>

    ghost function State(): Cache
      reads this
    {
      Cache(order, items, races)
    }

    constructor (maxEntries: nat)
      requires maxEntries > 0
      ensures this.maxEntries == maxEntries && State() == Cache([], map[], map[])
    {
      this.maxEntries := maxEntries;
      order, items, races := [], map[], map[];
    }

    /** Reads a resident value or pins one overlapping first-miss race. */
    method Begin(key: string) returns (r: Begun)
      requires Ordered(State())
      modifies this
      ensures (State(), r) == BeginStep(old(State()), key)
      ensures Ordered(State())
    {
      WithoutDistinct(order, key);
      if key in items {
        order := Without(order, key) + [key];
        return Begun(Some(items[key]), false, Hit);
      }
      if key !in races {
        races := races[key := Race(0, None)];
      }
      races := races[key := races[key].(active := races[key].active + 1)];
      assert races == BeginStep(old(State()), key).0.races;
      var winner := races[key].winner;
      r := Begun(winner, true, if winner.Some? then Joined else Missed);
    }

    /** Drops the oldest entries until at most `maxEntries` are left. */
    method Evict()
      requires Ordered(State())
      modifies this
      ensures order == LastN(old(order), maxEntries) && items == Restrict(old(items), order)
      ensures races == old(races) && Ordered(State())
    {
      hide Restrict, Distinct;
      ghost var full, all, dropped := order, items, 0;
      RestrictToAll(all, order);
      while |order| > maxEntries
        invariant dropped <= |full| && order == full[dropped..]
        invariant dropped > 0 ==> |order| >= maxEntries
        invariant Distinct(order)
        invariant items == Restrict(all, order)
        invariant races == old(races)
        decreases |order|
      {
        EvictOldest(all, order);
        items := items - {order[0]};
        order, dropped := order[1..], dropped + 1;
      }
      RestrictKeys(all, full, order);
    }

    /** Publishes the first value of a race; later publications get the winner back. */
    method Publish(key: string, value: Summary) returns (r: Result<(Summary, bool), TicketError>)
      requires Ordered(State()) && maxEntries > 0
      modifies this
      ensures (State(), r) == PublishStep(maxEntries, old(State()), key, value)
      ensures Ordered(State())
    {
      if key !in races || races[key].active == 0 {
        return Err(TicketInactive);
      }
      if races[key].winner.Some? {
        return Ok((races[key].winner.value, false));
      }
      races := races[key := races[key].(winner := Some(value))];
      items := items[key := value];
      WithoutDistinct(order, key);
      order := Without(order, key) + [key];
      Evict();
      r := Ok((value, true));
    }

    method Finish(key: string) returns (r: Result<(), TicketError>)
      requires Ordered(State())
      modifies this
      ensures (State(), r) == FinishStep(old(State()), key)
      ensures Ordered(State())
    {
      if key !in races || races[key].active == 0 {
        return Err(TicketInactive);
      }
      races := races[key := races[key].(active := races[key].active - 1)];
      if races[key].active == 0 {
        races := races - {key};
      }
      assert races == FinishStep(old(State()), key).0.races;
      r := Ok(());
    }
  }

  lemma {:induction false} WithoutDistinct(s: seq<string>, k: string)
    requires Distinct(s)
    ensures Distinct(Without(s, k)) && Distinct(Without(s, k) + [k])
    ensures |Without(s, k)| == if k in s then |s| - 1 else |s|
  {
    if s != [] {
      assert s == [s[0]] + s[1..];
      WithoutDistinct(s[1..], k);
      if s[0] != k {
        assert s[0] !in Without(s[1..], k);
      }
    }
  }

  // ----- Interleavings of callers holding linear tickets -----

  datatype Op = Begin(key: string) | Publish(key: string, value: Summary) | Finish(key: string)

  /** A cache, the tickets its callers hold, and the log of hits and first publications. */
  datatype World = World(cache: Cache, tickets: multiset<string>, log: seq<string>)

  /** A ticket is used only while it is held. */
  predicate Enabled(w: World, op: Op) {
    op.Begin? || w.tickets[op.key] > 0
  }

  function Next(max: nat, w: World, op: Op): World {
    match op
    case Begin(k) =>
      var (c, begun) := BeginStep(w.cache, k);
      World(c,
            if begun.ticket then w.tickets + multiset{k} else w.tickets,
            if begun.status.Hit? then w.log + [k] else w.log)
    case Publish(k, v) =>
      var (c, r) := PublishStep(max, w.cache, k, v);
      World(c, w.tickets, if r.Ok? && r.value.1 then w.log + [k] else w.log)
    case Finish(k) =>
      World(FinishStep(w.cache, k).0, w.tickets - multiset{k}, w.log)
  }

  /** The summary an operation hands to its caller, if any. */
  function Yield(max: nat, w: World, op: Op): Option<Summary> {
    match op
    case Begin(k) => BeginStep(w.cache, k).1.value
    case Publish(k, v) =>
      var r := PublishStep(max, w.cache, k, v).1;
      if r.Ok? then Some(r.value.0) else None
    case Finish(_) => None
  }

  predicate AllEnabled(max: nat, w: World, ops: seq<Op>)
    decreases |ops|
  {
    ops == [] || (Enabled(w, ops[0]) && AllEnabled(max, Next(max, w, ops[0]), ops[1..]))
  }

  function Run(max: nat, w: World, ops: seq<Op>): World
    decreases |ops|
  {
    if ops == [] then w else Run(max, Next(max, w, ops[0]), ops[1..])
  }

  const EMPTY := World(Cache([], map[], map[]), multiset{}, [])

  /** The keys of a log in the order of their last occurrence. */
  function Recency(log: seq<string>): (r: seq<string>)
    ensures forall k :: k in r <==> k in log
  {
    if log == [] then []
    else if log[0] in log[1..] then Recency(log[1..])
    else [log[0]] + Recency(log[1..])
  }

  /** A live race counts exactly its outstanding tickets; without a winner its key is not
      resident, and a resident entry of a live race is its winner. */
  ghost predicate RaceInvariant(w: World) {
    && (forall k :: k in w.cache.races <==> w.tickets[k] > 0)
    && (forall k :: k in w.cache.races ==> w.cache.races[k].active == w.tickets[k])
    && (forall k :: k in w.cache.races && k in w.cache.items ==> w.cache.races[k].winner == Some(w.cache.items[k]))
  }

  /** The residents are the `max` most recently used distinct keys, in order. */
  ghost predicate ResidencyInvariant(max: nat, w: World) {
    Ordered(w.cache) && w.cache.order == LastN(Recency(w.log), max)
  }

  lemma RaceStep(max: nat, w: World, op: Op)
    requires max > 0 && RaceInvariant(w) && Ordered(w.cache) && Enabled(w, op)
    ensures RaceInvariant(Next(max, w, op))
  {
    hide Without, LastN;
    match op {
      case Begin(k) => BeginRace(max, w, k);
      case Publish(k, v) => PublishRace(max, w, k, v);
      case Finish(k) => FinishRace(max, w, k);
    }
  }

  lemma BeginRace(max: nat, w: World, k: string)
    requires RaceInvariant(w)
    ensures RaceInvariant(Next(max, w, Op.Begin(k)))
  {
    hide Without;
  }

  lemma PublishRace(max: nat, w: World, k: string, v: Summary)
    requires RaceInvariant(w) && w.tickets[k] > 0
    ensures RaceInvariant(Next(max, w, Op.Publish(k, v)))
  {
    hide Without, LastN;
    var w' := Next(max, w, Op.Publish(k, v));
    if w.cache.races[k].winner.None? {
      assert k !in w.cache.items;
      assert forall x :: x in w'.cache.items && x != k ==> x in w.cache.items && w'.cache.items[x] == w.cache.items[x];
    }
  }

  lemma FinishRace(max: nat, w: World, k: string)
    requires RaceInvariant(w) && w.tickets[k] > 0
    ensures RaceInvariant(Next(max, w, Op.Finish(k)))
  {
    var w' := Next(max, w, Op.Finish(k));
    assert forall x :: x != k ==> w'.tickets[x] == w.tickets[x];
  }

  lemma {:induction false} RecencyDistinct(log: seq<string>)
    ensures Distinct(Recency(log))
  {
    if log != [] {
      RecencyDistinct(log[1..]);
    }
  }

  lemma {:induction false} WithoutConcat(a: seq<string>, b: seq<string>, k: string)
    ensures Without(a + b, k) == Without(a, k) + Without(b, k)
  {
    if a == [] {
      assert a + b == b;
    } else {
      assert (a + b)[1..] == a[1..] + b;
      WithoutConcat(a[1..], b, k);
    }
  }

  /** One more use moves its key to the end of the recency order. */
  lemma {:induction false} RecencySnoc(log: seq<string>, k: string)
    ensures Recency(log + [k]) == Without(Recency(log), k) + [k]
  {
    if log == [] {
      assert log + [k] == [k] && [k][1..] == [];
    } else {
      var rest := log[1..];
      assert (log + [k])[1..] == rest + [k];
      RecencySnoc(rest, k);
      if log[0] !in rest && log[0] != k {
        assert log[0] !in rest + [k];
      }
    }
  }

  lemma LastNConcat(front: seq<string>, tail: seq<string>, n: nat)
    requires |tail| >= n
    ensures LastN(front + tail, n) == LastN(tail, n)
  {
  }

  /** Using a resident key, or admitting one at the price of the oldest, is taking the last
      `max` keys of the longer log. */
  lemma LastNSnoc(max: nat, recency: seq<string>, k: string)
    requires Distinct(recency)
    ensures LastN(Without(recency, k) + [k], max) == LastN(Without(LastN(recency, max), k) + [k], max)
  {
    var kept := LastN(recency, max);
    if kept != recency {
      var gone := recency[..|recency| - |kept|];
      assert recency == gone + kept;
      WithoutConcat(gone, kept, k);
      WithoutDistinct(kept, k);
      assert Without(recency, k) + [k] == Without(gone, k) + (Without(kept, k) + [k]);
      LastNConcat(Without(gone, k), Without(kept, k) + [k], max);
    }
  }

  /** The residency of a cache after `k` was used: resident already, or newly published. */
  lemma ResidencyAfterUse(max: nat, w: World, k: string)
    requires max > 0 && ResidencyInvariant(max, w)
    ensures Recency(w.log + [k]) == Without(Recency(w.log), k) + [k]
    ensures LastN(Recency(w.log + [k]), max) == LastN(Without(w.cache.order, k) + [k], max)
    ensures k in w.cache.order ==> LastN(Without(w.cache.order, k) + [k], max) == Without(w.cache.order, k) + [k]
    ensures Distinct(Without(w.cache.order, k) + [k])
  {
    RecencyDistinct(w.log);
    RecencySnoc(w.log, k);
    LastNSnoc(max, Recency(w.log), k);
    WithoutDistinct(w.cache.order, k);
  }

  lemma LastNDistinct(s: seq<string>, n: nat)
    requires Distinct(s)
    ensures Distinct(LastN(s, n)) && forall k :: k in LastN(s, n) ==> k in s
  {
  }

  lemma ResidencyStep(max: nat, w: World, op: Op)
    requires max > 0 && ResidencyInvariant(max, w) && Enabled(w, op)
    ensures ResidencyInvariant(max, Next(max, w, op))
  {
    hide Recency, Without, Distinct, LastN, Restrict, ResidencyInvariant;
    var k, w' := op.key, Next(max, w, op);
    if w'.log == w.log {
      SameResidency(max, w, w');
    } else {
      assert w'.log == w.log + [k];
      ResidencyAfterUse(max, w, k);
      LastNDistinct(Without(w.cache.order, k) + [k], max);
      UsedResidency(max, w, op);
    }
  }

  lemma SameResidency(max: nat, w: World, w': World)
    requires ResidencyInvariant(max, w) && w'.log == w.log && w'.cache.order == w.cache.order
    requires w'.cache.items == w.cache.items
    ensures ResidencyInvariant(max, w')
  {
    hide Recency, Distinct, LastN;
  }

  /** A use that was logged: the order is the one the log asks for, and it lists the residents. */
  lemma UsedResidency(max: nat, w: World, op: Op)
    requires max > 0 && ResidencyInvariant(max, w) && Next(max, w, op).log == w.log + [op.key]
    ensures ResidencyInvariant(max, Next(max, w, op))
  {
    hide Recency, Without, Distinct, LastN;
    var k, w' := op.key, Next(max, w, op);
    ResidencyAfterUse(max, w, k);
    LastNDistinct(Without(w.cache.order, k) + [k], max);
    if op.Publish? {
      RestrictKeys(w.cache.items[k := op.value], Without(w.cache.order, k) + [k], w'.cache.order);
    }
  }

  /** Both invariants hold after every interleaving of calls that respects the tickets. */
  lemma {:induction false} EveryRunInvariant(max: nat, w: World, ops: seq<Op>)
    requires max > 0 && RaceInvariant(w) && ResidencyInvariant(max, w) && AllEnabled(max, w, ops)
    ensures RaceInvariant(Run(max, w, ops)) && ResidencyInvariant(max, Run(max, w, ops))
    decreases |ops|
  {
    if ops != [] {
      RaceStep(max, w, ops[0]);
      ResidencyStep(max, w, ops[0]);
      EveryRunInvariant(max, Next(max, w, ops[0]), ops[1..]);
    }
  }

  lemma EmptyInvariant(max: nat)
    ensures RaceInvariant(EMPTY) && ResidencyInvariant(max, EMPTY)
  {
  }

  /** After any interleaving from an empty cache, the residents in order are exactly the last
      `max` distinct keys among all hits and first publications. */
  lemma ResidentsAreMostRecent(max: nat, ops: seq<Op>)
    requires max > 0 && AllEnabled(max, EMPTY, ops)
    ensures var w := Run(max, EMPTY, ops);
      && w.cache.order == LastN(Recency(w.log), max)
      && |w.cache.order| <= max
      && (forall k :: k in w.cache.items <==> k in w.cache.order)
  {
    EmptyInvariant(max);
    EveryRunInvariant(max, EMPTY, ops);
  }

  /** A caller that holds a ticket is never told that it is inactive. */
  lemma HeldTicketsWork(max: nat, w: World, key: string, value: Summary)
    requires RaceInvariant(w) && w.tickets[key] > 0
    ensures PublishStep(max, w.cache, key, value).1.Ok?
    ensures FinishStep(w.cache, key).1.Ok?
  {
  }

  /** A first publication is resident afterwards: it never evicts itself. */
  lemma PublicationStays(max: nat, w: World, key: string, value: Summary)
    requires max > 0 && RaceInvariant(w) && ResidencyInvariant(max, w) && w.tickets[key] > 0
    requires w.cache.races[key].winner.None?
    ensures var c := PublishStep(max, w.cache, key, value).0;
      key in c.items && c.items[key] == value && c.order[|c.order| - 1] == key
  {
    var order := Without(w.cache.order, key) + [key];
    assert order[|order| - 1] == key;
    assert LastN(order, max)[|LastN(order, max)| - 1] == key;
  }

  // ----- One race, one summary -----

  /** The race of `key` stays pinned through every step of the run. */
  predicate StaysLive(max: nat, w: World, ops: seq<Op>, key: string)
    decreases |ops|
  {
    w.tickets[key] > 0 && (ops != [] ==> StaysLive(max, Next(max, w, ops[0]), ops[1..], key))
  }

  lemma ResidencyIsOrdered(max: nat, w: World)
    requires ResidencyInvariant(max, w)
    ensures Ordered(w.cache)
  {
  }

  lemma StaysTicketed(max: nat, w: World, ops: seq<Op>, key: string)
    requires StaysLive(max, w, ops, key)
    ensures w.tickets[key] > 0
  {
  }

  lemma WinnerStays(max: nat, w: World, op: Op, key: string, v: Summary)
    requires max > 0 && RaceInvariant(w) && Ordered(w.cache) && Enabled(w, op)
    requires key in w.cache.races && w.cache.races[key].winner == Some(v)
    requires Next(max, w, op).tickets[key] > 0
    ensures key in Next(max, w, op).cache.races && Next(max, w, op).cache.races[key].winner == Some(v)
    ensures op.key == key && !op.Finish? ==> Yield(max, w, op) == Some(v)
  {
    RaceStep(max, w, op);
  }

  /** After the first publication in a race, every hit, join and publication of that key yields
      the same summary for as long as the race is live, whatever other callers do meanwhile. */
  lemma {:induction false} OneRaceOneSummary(max: nat, w: World, ops: seq<Op>, key: string, v: Summary, i: nat)
    requires max > 0 && RaceInvariant(w) && ResidencyInvariant(max, w) && AllEnabled(max, w, ops)
    requires StaysLive(max, w, ops, key)
    requires key in w.cache.races && w.cache.races[key].winner == Some(v)
    requires i < |ops| && ops[i].key == key && !ops[i].Finish?
    ensures Yield(max, Run(max, w, ops[..i]), ops[i]) == Some(v)
    decreases |ops|
  {
    hide Next, Yield, RaceInvariant, ResidencyInvariant, Enabled;
    assert Ordered(w.cache) by { ResidencyIsOrdered(max, w); }
    var w' := Next(max, w, ops[0]);
    StaysTicketed(max, w', ops[1..], key);
    WinnerStays(max, w, ops[0], key, v);
    if i == 0 {
      assert ops[..0] == [];
    } else {
      RaceStep(max, w, ops[0]);
      ResidencyStep(max, w, ops[0]);
      OneRaceOneSummary(max, w', ops[1..], key, v, i - 1);
      assert ops[..i][0] == ops[0] && ops[..i][1..] == ops[1..][..i - 1];
      assert Run(max, w, ops[..i]) == Run(max, w', ops[1..][..i - 1]);
    }
  }

  /** Publishing into an undecided race decides it with the published value. */
  lemma FirstPublicationDecides(max: nat, w: World, key: string, v: Summary)
    requires max > 0 && RaceInvariant(w) && ResidencyInvariant(max, w) && w.tickets[key] > 0
    requires w.cache.races[key].winner.None?
    ensures Yield(max, w, Publish(key, v)) == Some(v)
    ensures var w' := Next(max, w, Publish(key, v)); key in w'.cache.races && w'.cache.races[key].winner == Some(v)
  {
  }
}
