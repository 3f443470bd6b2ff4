/** Semantic compaction: replacing the structural marker of a compacted projection by a summary. */
module Semantic {
  import opened Wrappers
  import opened Messages
  import opened History
  import opened Budget
  import opened Compaction
  import opened Maximality
  import SummaryCache

  type Summary = SummaryCache.Summary

  /** The fixed configuration of a compaction model, with its opaque renderings. */
  datatype Settings = Settings(
    env: Env,
    budget: ContextBudget,
    maxSourceBytes: int,
    sourceBytes: seq<Message> -> nat,
    cacheKey: (string, string, string, nat) -> string,
    derived: (nat, string, string) -> string)

  datatype Failure =
    | Projection(error: ContextError) | ProjectionMismatch | SourceTooLarge | SummaryOverBudget
    | Summarizer(code: string) | TicketLost

  /** A compaction that has begun: what it was selected from, and what the cache answered. */
  datatype Pending = Pending(
    projected: seq<Message>,
    system: nat,
    prefix: nat,
    source: seq<Message>,
    key: string,
    summary: Option<Summary>,
    ticket: bool)

  datatype Prepared = Forward(messages: seq<Message>) | Refused(failure: Failure) | Waiting(pending: Pending)
  datatype Outcome = Sent(messages: seq<Message>) | Failed(failure: Failure)

  /** Where a caller is that has begun, between two sections that use the cache. `used` is the summary its
      messages are built from. */
  datatype Stage =
    | Asked(q: Pending)                                             // the summarizer is asked, if need be
    | Offering(q: Pending, summary: Summary)                        // its own summary fits and is to be published
    | Ending(q: Pending, outcome: Outcome, used: Option<Summary>)   // the ticket is to be given back
    | Ended(q: Pending, outcome: Outcome, used: Option<Summary>)

  predicate Contains(s: string, part: string) {
    exists i :: 0 <= i <= |s| - |part| && OccursAt(s, part, i)
  }

  predicate OccursAt(s: string, part: string, i: nat) {
    i + |part| <= |s| && s[i..i + |part|] == part
  }

  function SourceDigest(s: Settings, source: seq<Message>): string {
    Digest(s.env, source, false)
  }

  function Source(messages: seq<Message>, n: nat, removed: nat): seq<Message>
    requires n <= |messages|
  {
    messages[n..if n + removed <= |messages| then n + removed else |messages|]
  }

  /** The consistency check on what the projector returned. */
  predicate Mismatch(s: Settings, messages: seq<Message>, p: Budget.Projection, n: nat)
    requires n <= |messages|
  {
    || n + p.removedMessages > |messages|
    || n + 1 > |p.messages|
    || p.messages[..n] != messages[..n]
    || !p.messages[n].role.System?
    || !(COMPACTED_HEAD <= p.messages[n].content)
    || !Contains(p.messages[n].content, "sha256=" + SourceDigest(s, Source(messages, n, p.removedMessages)) + ".")
  }

  /** The primary messages: the derived marker behind the system prefix, the protected data, the
      summary as an assistant note, and the retained turns. */
  function PrimaryProjection(s: Settings, q: Pending, selected: Summary): seq<Message>
    requires q.system <= q.prefix < |q.projected|
  {
    q.projected[..q.system]
    + [Text(System, (s.derived)(|q.source|, SourceDigest(s, q.source), selected.sha256))]
    + q.projected[q.system..q.prefix]
    + [Text(Assistant, selected.text)]
    + q.projected[q.prefix + 1..]
  }

  /** A cached summary stands for one source in one projection, with and without provider state. */
  function CacheKey(s: Settings, source: seq<Message>, p: Budget.Projection): string {
    (s.cacheKey)(SourceDigest(s, source), Digest(s.env, p.messages, false), Digest(s.env, p.messages, true),
      p.projectedUnits)
  }

  predicate OverBudget(s: Settings, ms: seq<Message>) {
    Units(s.env, ms) > s.budget.MessageUnits()
  }

  // ----- The three sections behind the summarizer call, on values -----

  /** The checks on the summary a caller got, before it uses the cache again. */
  function Replied(s: Settings, q: Pending, reply: Result<Summary, string>): Stage
    requires q.system <= q.prefix < |q.projected|
  {
    if q.summary.None? && reply.Err? then Ending(q, Failed(Summarizer(reply.error)), None)
    else
      var summary := if q.summary.Some? then q.summary.value else reply.value;
      var primary := PrimaryProjection(s, q, summary);
      if OverBudget(s, primary) then Ending(q, Failed(SummaryOverBudget), None)
      else if q.ticket && q.summary.None? then Offering(q, summary)
      else Ending(q, Sent(primary), Some(summary))
  }

  /** What the answer of a publication makes of the caller: with the winner of another, it has to fit again. */
  function Chosen(s: Settings, q: Pending, r: Result<(Summary, bool), SummaryCache.TicketError>): Stage
    requires q.system <= q.prefix < |q.projected|
  {
    match r
    case Err(_) => Ending(q, Failed(TicketLost), None)
    case Ok((winner, inserted)) =>
      var primary := PrimaryProjection(s, q, winner);
      if !inserted && OverBudget(s, primary) then Ending(q, Failed(SummaryOverBudget), None)
      else Ending(q, Sent(primary), Some(winner))
  }

  class SemanticCompactionModel {
    const s: Settings
    const cache: SummaryCache.SemanticSummaryCache?

    constructor (s: Settings, cache: SummaryCache.SemanticSummaryCache?)
      ensures this.s == s && this.cache == cache
    {
      this.s, this.cache := s, cache;
    }

    ghost predicate Valid()
      reads this, cache
    {
      s.budget.Valid() && (cache != null ==> cache.maxEntries > 0 && SummaryCache.Ordered(cache.State()))
    }

    /** Everything up to the summarizer call: projection, consistency check, cache lookup. */
    method Prepare(messages: seq<Message>) returns (r: Prepared)
      requires Valid()
      modifies cache
      ensures Valid()
      ensures var projected := Projected(s.env, s.budget, messages);
        match r
        case Forward(sent) =>
          projected.Ok? && !projected.value.Compacted() && sent == projected.value.messages && !OverBudget(s, sent)
        case Refused(f) =>
          (match projected
          case Err(e) => f == Failure.Projection(e)
          case Ok(p) =>
            && p.Compacted() && PrefixLength(messages).Ok?
            && var n := PrefixLength(messages).value;
               if Mismatch(s, messages, p, n) then f == ProjectionMismatch
               else f == SourceTooLarge && (s.sourceBytes)(Source(messages, n, p.removedMessages)) > s.maxSourceBytes)
        case Waiting(q) =>
          && projected.Ok? && projected.value.Compacted() && PrefixLength(messages).Ok?
          && q.projected == projected.value.messages
          && q.prefix == PrefixLength(messages).value < |q.projected|
          && q.system == LeadingSystem(messages) <= q.prefix
          && q.source == Source(messages, q.prefix, projected.value.removedMessages)
          && (s.sourceBytes)(q.source) <= s.maxSourceBytes
          && q.key == CacheKey(s, q.source, projected.value)
      ensures !r.Waiting? && cache != null ==> cache.State() == old(cache.State())
      ensures r.Waiting? && cache == null ==> r.pending.summary.None? && !r.pending.ticket
      ensures r.Waiting? && cache != null ==>
        var (c, begun) := SummaryCache.BeginStep(old(cache.State()), r.pending.key);
        cache.State() == c && r.pending.summary == begun.value && r.pending.ticket == begun.ticket
    {
      hide Mismatch, PrefixLength, Projected, CacheKey, OverBudget;
      var projection := Project(s.env, s.budget, messages);
      if projection.Err? {
        return Refused(Failure.Projection(projection.error));
      }
      var p := projection.value;
      if !p.Compacted() {
        ForwardFits(s, messages);
        return Forward(p.messages);
      }
      ProjectedCases(s.env, s.budget, messages);
      var prefix := ProtectedPrefixLength(messages);
      var n := prefix.value;
      PrefixStartsWithSystem(messages);
      var system := 0;
      assert messages[0..] == messages;
      while system < n && messages[system].role.System?
        invariant 0 <= system <= n
        invariant system + LeadingSystem(messages[system..]) == LeadingSystem(messages)
      {
        assert messages[system..][1..] == messages[system + 1..];
        system := system + 1;
      }
      if system == n {
        assert LeadingSystem(messages) <= n;
      }
      if Mismatch(s, messages, p, n) {
        return Refused(ProjectionMismatch);
      }
      MatchHasMarker(s, messages, p, n);
      var source := Source(messages, n, p.removedMessages);
      if (s.sourceBytes)(source) > s.maxSourceBytes {
        return Refused(SourceTooLarge);
      }
      var key := CacheKey(s, source, p);
      var summary, ticket := None, false;
      if cache != null {
        var begun := cache.Begin(key);
        summary, ticket := begun.value, begun.ticket;
      }
      r := Waiting(Pending(p.messages, system, n, source, key, summary, ticket));
    }

    /** The cache after a caller has dealt with its ticket, publishing `published` first if any. */
    ghost function Settled(c: SummaryCache.Cache, q: Pending, published: Option<Summary>): SummaryCache.Cache
      reads this, cache
      requires cache != null
    {
      if !q.ticket then c
      else
        var after := if published.Some? then SummaryCache.PublishStep(cache.maxEntries, c, q.key, published.value).0
          else c;
        SummaryCache.FinishStep(after, q.key).0
    }

    /** The checks on the validated reply, which do not use the cache. */
    method Check(q: Pending, reply: Result<Summary, string>) returns (stage: Stage)
      requires q.system <= q.prefix < |q.projected|
      ensures stage == Replied(s, q, reply)
    {
      hide PrimaryProjection, Units;
      if q.summary.None? && reply.Err? {
        return Ending(q, Failed(Summarizer(reply.error)), None);
      }
      var summary := if q.summary.Some? then q.summary.value else reply.value;
      var primary := PrimaryProjection(s, q, summary);
      if OverBudget(s, primary) {
        return Ending(q, Failed(SummaryOverBudget), None);
      }
      if q.ticket && q.summary.None? {
        return Offering(q, summary);
      }
      stage := Ending(q, Sent(primary), Some(summary));
    }

    /** The locked section that publishes, and the check on what it answers. */
    method Offer(q: Pending, summary: Summary) returns (stage: Stage)
      requires Valid() && cache != null && q.system <= q.prefix < |q.projected|
      modifies cache
      ensures Valid()
      ensures var (c, r) := SummaryCache.PublishStep(cache.maxEntries, old(cache.State()), q.key, summary);
        cache.State() == c && stage == Chosen(s, q, r)
    {
      hide PrimaryProjection, Units;
      var published := cache.Publish(q.key, summary);
      if published.Err? {
        return Ending(q, Failed(TicketLost), None);
      }
      var primary := PrimaryProjection(s, q, published.value.0);
      if !published.value.1 && OverBudget(s, primary) {
        return Ending(q, Failed(SummaryOverBudget), None);
      }
      stage := Ending(q, Sent(primary), Some(published.value.0));
    }

    /** The locked section that gives the ticket back, on every path. */
    method GiveBack(q: Pending)
      requires Valid() && (q.ticket ==> cache != null)
      modifies cache
      ensures Valid()
      ensures cache != null ==>
        cache.State() == if q.ticket then SummaryCache.FinishStep(old(cache.State()), q.key).0 else old(cache.State())
    {
      if cache != null && q.ticket {
        var _ := cache.Finish(q.key);
      }
    }

    /** The three sections with no other caller in between; the reply (if the summarizer was called) is
        `reply`. Other callers may have used the cache since `Prepare`; the ticket is still pinned. */
    method Resume(q: Pending, reply: Result<Summary, string>) returns (r: Outcome)
      requires Valid()
      requires q.system <= q.prefix < |q.projected|
      requires cache == null ==> !q.ticket
      requires q.ticket ==> q.key in cache.races && cache.races[q.key].active > 0
      modifies cache
      ensures Valid()
      ensures r.Sent? ==> !OverBudget(s, r.messages)
      ensures q.summary.None? && reply.Err? ==> r == Failed(Summarizer(reply.error))
      ensures var own := if q.summary.Some? then q.summary else if reply.Ok? then Some(reply.value) else None;
        var ownFits := own.Some? && !OverBudget(s, PrimaryProjection(s, q, own.value));
        var published := if q.summary.None? && ownFits then own else None;
        && (cache != null ==> cache.State() == Settled(old(cache.State()), q, published))
        && (own.Some? && !ownFits ==> r == Failed(SummaryOverBudget))
        && (ownFits ==>
              var chosen := if q.ticket && q.summary.None?
                            then SummaryCache.PublishStep(cache.maxEntries, old(cache.State()), q.key, own.value)
                                   .1.value.0
                            else own.value;
              var primary := PrimaryProjection(s, q, chosen);
              r == if OverBudget(s, primary) then Failed(SummaryOverBudget) else Sent(primary))
    {
      hide PrimaryProjection, Units;
      var stage := Check(q, reply);
      if stage.Offering? {
        stage := Offer(q, stage.summary);
      }
      GiveBack(q);
      r := stage.outcome;
    }
  }

  lemma ForwardFits(s: Settings, messages: seq<Message>)
    requires s.budget.Valid() && Projected(s.env, s.budget, messages).Ok?
    ensures !OverBudget(s, Projected(s.env, s.budget, messages).value.messages)
  {
    hide Projected, Units;
    ProjectionFits(s.env, s.budget, messages);
  }

  lemma PrefixStartsWithSystem(messages: seq<Message>)
    ensures PrefixLength(messages).Ok? ==> LeadingSystem(messages) <= PrefixLength(messages).value
  {
  }

  lemma MatchHasMarker(s: Settings, messages: seq<Message>, p: Budget.Projection, n: nat)
    requires n <= |messages| && !Mismatch(s, messages, p, n)
    ensures n < |p.messages|
  {
  }

  // ----- The consistency check never fires -----

  lemma MarkerMentionsItsDigest(env: Env, removed: seq<Message>)
    ensures COMPACTED_HEAD <= Marker(env, removed).content
    ensures Contains(Marker(env, removed).content, "sha256=" + Digest(env, removed, false) + ".")
  {
    hide COMPACTED_HEAD, COMPACTED_TAIL;
    Mentions(COMPACTED_HEAD, Described(removed), Digest(env, removed, false), COMPACTED_TAIL);
  }

  lemma Mentions(head: string, described: string, digest: string, tail: string)
    ensures Contains(head + described + "; sha256=" + digest + "." + tail, "sha256=" + digest + ".")
  {
    var needle, front := "sha256=" + digest + ".", head + described + "; ";
    var content := head + described + "; sha256=" + digest + "." + tail;
    assert "; sha256=" == "; " + "sha256=";
    assert content == front + needle + tail;
    assert OccursAt(content, needle, |front|);
  }

  /** Whatever the projector compacts passes the consistency check. */
  lemma MismatchNeverFires(s: Settings, messages: seq<Message>)
    requires s.budget.Valid()
    requires Projected(s.env, s.budget, messages).Ok? && Projected(s.env, s.budget, messages).value.Compacted()
    ensures PrefixLength(messages).Ok?
    ensures !Mismatch(s, messages, Projected(s.env, s.budget, messages).value, PrefixLength(messages).value)
  {
    hide Projected, PrefixLength, TurnsOf, Wire, Units, Marker, Contains, Fits, Start, Grow;
    CompactionShape(s.env, s.budget, messages);
    var p, n := Projected(s.env, s.budget, messages).value, PrefixLength(messages).value;
    var turns, start := TurnsOf(messages[n..]).value, Start(s.env, s.budget, messages);
    var removed := Flatten(turns[..start]);
    MarkerMentionsItsDigest(s.env, removed);
    assert Source(messages, n, p.removedMessages) == messages[n..][..|removed|] == removed;
    assert p.messages[n] == Marker(s.env, removed);
    assert Marker(s.env, removed).role.System? by { MarkerIsSystem(s.env, removed); }
  }

  lemma MarkerIsSystem(env: Env, removed: seq<Message>)
    ensures Marker(env, removed).role.System?
  {
  }

  // ----- System messages stay in front -----

  predicate SystemLeads(ms: seq<Message>) {
    forall i :: LeadingSystem(ms) <= i < |ms| ==> !ms[i].role.System?
  }

  predicate NoSystem(ms: seq<Message>) {
    forall i :: 0 <= i < |ms| ==> !ms[i].role.System?
  }

  lemma {:induction false} WireAddsNoSystem(env: Env, ms: seq<Message>)
    requires NoSystem(ms) && Wire(env, ms).Ok?
    ensures NoSystem(Wire(env, ms).value)
    decreases |ms|
  {
    if ms != [] {
      WireFirstSegment(env, ms);
      WireAddsNoSystem(env, ms[SegmentSize(ms)..]);
    }
  }

  lemma LeadingSystemOf(front: seq<Message>, rest: seq<Message>)
    requires forall i :: 0 <= i < |front| ==> front[i].role.System?
    requires NoSystem(rest)
    ensures LeadingSystem(front + rest) == |front| && SystemLeads(front + rest)
  {
    assert forall i :: 0 <= i < |front| ==> (front + rest)[i] == front[i];
    assert rest != [] ==> (front + rest)[|front|] == rest[0];
  }

  lemma LeadingAreSystem(ms: seq<Message>)
    ensures LeadingSystem(ms) <= |ms| && forall i :: 0 <= i < LeadingSystem(ms) ==> ms[i].role.System?
  {
  }

  lemma NoSystemConcat(a: seq<Message>, b: seq<Message>)
    requires NoSystem(a) && (NoSystem(b) || (|b| == 1 && b[0].role.Assistant?))
    ensures NoSystem(a + b)
  {
  }

  /** The parts of a compacted projection, when the input's system messages all lead. */
  lemma CompactedParts(env: Env, b: ContextBudget, messages: seq<Message>)
    requires b.Valid() && Projected(env, b, messages).Ok? && Projected(env, b, messages).value.Compacted()
    requires SystemLeads(messages)
    ensures PrefixLength(messages).Ok?
    ensures var p, n := Projected(env, b, messages).value.messages, PrefixLength(messages).value;
      && LeadingSystem(messages) <= n < |p| && p[..n] == messages[..n] && p[n].role.System?
      && NoSystem(p[LeadingSystem(messages)..n]) && NoSystem(p[n + 1..])
  {
    hide Projected, PrefixLength, TurnsOf, Wire, Units, Marker, Fits, Start, Grow;
    CompactionShape(env, b, messages);
    var p, n := Projected(env, b, messages).value.messages, PrefixLength(messages).value;
    PrefixStartsWithSystem(messages);
    var turns, start := TurnsOf(messages[n..]).value, Start(env, b, messages);
    var removed, retained := Flatten(turns[..start]), Flatten(turns[start..]);
    assert retained == messages[n..][|removed|..] == messages[n + |removed|..];
    WireAddsNoSystem(env, retained);
    MarkerIsSystem(env, removed);
    assert p[n + 1..] == Wire(env, retained).value;
    assert forall i :: 0 <= i < n ==> p[i] == messages[i];
  }

  /** If the input's system messages all lead, so do those of the semantic projection. */
  lemma SemanticSystemLeads(s: Settings, messages: seq<Message>, q: Pending, selected: Summary)
    requires s.budget.Valid() && SystemLeads(messages)
    requires Projected(s.env, s.budget, messages).Ok? && Projected(s.env, s.budget, messages).value.Compacted()
    requires PrefixLength(messages).Ok?
    requires q.projected == Projected(s.env, s.budget, messages).value.messages
    requires q.prefix == PrefixLength(messages).value < |q.projected| && q.system == LeadingSystem(messages) <= q.prefix
    ensures SystemLeads(PrimaryProjection(s, q, selected))
    ensures LeadingSystem(PrimaryProjection(s, q, selected)) == q.system + 1
  {
    hide Projected, PrefixLength, LeadingSystem, SystemLeads, NoSystem, SourceDigest, Units;
    CompactedParts(s.env, s.budget, messages);
    LeadingAreSystem(messages);
    var marker := Text(System, (s.derived)(|q.source|, SourceDigest(s, q.source), selected.sha256));
    var front := q.projected[..q.system] + [marker];
    var rest := q.projected[q.system..q.prefix] + [Text(Assistant, selected.text)] + q.projected[q.prefix + 1..];
    assert forall i :: 0 <= i < q.system ==> q.projected[i] == q.projected[..q.prefix][i] == messages[i];
    NoSystemConcat(q.projected[q.system..q.prefix], [Text(Assistant, selected.text)]);
    NoSystemConcat(q.projected[q.system..q.prefix] + [Text(Assistant, selected.text)], q.projected[q.prefix + 1..]);
    LeadingSystemOf(front, rest);
    assert PrimaryProjection(s, q, selected) == front + rest;
  }

  /** The structural projection has that property exactly when there is no protected prelude: its
      marker is a system message behind the prelude. */
  lemma StructuralSystemLeadsExactly(env: Env, b: ContextBudget, messages: seq<Message>)
    requires b.Valid() && SystemLeads(messages)
    requires Projected(env, b, messages).Ok? && Projected(env, b, messages).value.Compacted()
    ensures PrefixLength(messages).Ok?
    ensures SystemLeads(Projected(env, b, messages).value.messages) <==>
      PrefixLength(messages).value == LeadingSystem(messages)
  {
    hide Projected, PrefixLength, NoSystem, Units, Wire;
    CompactedParts(env, b, messages);
    var p := Projected(env, b, messages).value.messages;
    var n, system := PrefixLength(messages).value, LeadingSystem(messages);
    assert forall i :: 0 <= i < n ==> p[i] == p[..n][i] == messages[i];
    if n == system {
      LeadingSystemOf(p[..n + 1], p[n + 1..]);
      assert p == p[..n + 1] + p[n + 1..];
    } else {
      assert p[system] == messages[system] && !messages[system].role.System?;
    }
  }

  // ----- The semantic projection stays replayable -----

  /** The parts a compacted projection is made of. */
  lemma CompactedIsPlainThenWire(env: Env, b: ContextBudget, messages: seq<Message>)
    requires b.Valid() && Projected(env, b, messages).Ok? && Projected(env, b, messages).value.Compacted()
    ensures PrefixLength(messages).Ok?
    ensures var p, n := Projected(env, b, messages).value.messages, PrefixLength(messages).value;
      && n < |p| && (forall i :: 0 <= i < n ==> !p[i].role.Tool? && p[i].toolCalls == [])
      && !StartsWithTool(p[n + 1..]) && Wire(env, p[n + 1..]) == Ok(p[n + 1..])
  {
    hide Projected, PrefixLength, TurnsOf, Wire, Units, Marker, Fits, Start, Grow, FirstError;
    CompactionShape(env, b, messages);
    ProjectedCases(env, b, messages);
    WireExists(env, messages);
    PrefixIsPlain(messages);
    var p, n := Projected(env, b, messages).value.messages, PrefixLength(messages).value;
    var turns, start := TurnsOf(messages[n..]).value, Start(env, b, messages);
    var retained := Flatten(turns[start..]);
    assert p[n + 1..] == Wire(env, retained).value;
    assert forall i :: 0 <= i < n ==> p[i] == messages[i];
    WireIdempotent(env, retained);
    WireStartsWithoutTool(env, retained);
  }

  /** The semantic projection replaces the one structural marker by its derived marker and the summary
      note, keeps every other message in place, and is its own wire form: the provider can replay it. */
  lemma SemanticIsWire(s: Settings, messages: seq<Message>, q: Pending, selected: Summary)
    requires s.budget.Valid()
    requires Projected(s.env, s.budget, messages).Ok? && Projected(s.env, s.budget, messages).value.Compacted()
    requires PrefixLength(messages).Ok?
    requires q.projected == Projected(s.env, s.budget, messages).value.messages
    requires q.prefix == PrefixLength(messages).value < |q.projected| && q.system <= q.prefix
    ensures var primary := PrimaryProjection(s, q, selected);
      && Wire(s.env, primary) == Ok(primary)
      && |primary| == |q.projected| + 1
      && primary[..q.system] + primary[q.system + 1..q.prefix + 1] == messages[..q.prefix]
      && primary[q.prefix + 1] == Text(Assistant, selected.text)
      && primary[q.prefix + 2..] == q.projected[q.prefix + 1..]
  {
    hide Projected, PrefixLength, Wire, Units, SourceDigest;
    CompactedIsPlainThenWire(s.env, s.budget, messages);
    PrefixSurvives(s.env, s.budget, messages);
    var marker := Text(System, (s.derived)(|q.source|, SourceDigest(s, q.source), selected.sha256));
    var note, rest := Text(Assistant, selected.text), q.projected[q.prefix + 1..];
    var head := q.projected[..q.system] + [marker] + q.projected[q.system..q.prefix] + [note];
    var primary := PrimaryProjection(s, q, selected);
    assert primary == head + rest;
    assert forall i :: 0 <= i < |head| ==> !head[i].role.Tool? && head[i].toolCalls == [];
    WireAllPlain(s.env, head);
    WireConcat(s.env, head, rest);
    assert primary[..q.system] == q.projected[..q.system];
    assert primary[q.system + 1..q.prefix + 1] == q.projected[q.system..q.prefix];
    assert q.projected[..q.system] + q.projected[q.system..q.prefix] == q.projected[..q.prefix];
  }

  lemma PrefixSurvives(env: Env, b: ContextBudget, messages: seq<Message>)
    requires b.Valid() && Projected(env, b, messages).Ok? && Projected(env, b, messages).value.Compacted()
    ensures PrefixLength(messages).Ok?
    ensures var p, n := Projected(env, b, messages).value.messages, PrefixLength(messages).value;
      n < |p| && n <= |messages| && p[..n] == messages[..n]
  {
    hide Projected, PrefixLength, TurnsOf, Wire, Units, Marker, Fits, Start, Grow;
    CompactionShape(env, b, messages);
  }

  // ----- A protected prelude gets a system message behind it -----

  /** One unit a message, and markers for free. */
  function FreeMarkers(digest: seq<Message> -> string, records: seq<Record> -> string): Env {
    Env((m: Message) => if m.role.System? then 0 else 1, digest, records)
  }

  function Pinned(): Message {
    Text(Assistant, "pinned").(kind := ProtectedData)
  }

  function Questions(): (turns: Groups)
    ensures |turns| == 2 && UserTurns(turns)
  {
    [[Text(User, "a")], [Text(User, "b")]]
  }

  lemma PinnedSplits(digest: seq<Message> -> string, records: seq<Record> -> string)
    ensures var env, history := FreeMarkers(digest, records), [Pinned()] + Flatten(Questions());
      && |history| == 3 && NoSystem(history) && history[..1] == [Pinned()]
      && Splits(history, 1, Questions()) && Wire(env, history) == Ok(history) && Units(env, history) == 3
  {
    var env, rest := FreeMarkers(digest, records), Flatten(Questions());
    var history := [Pinned()] + rest;
    UserTurnsFlatten(Questions());
    PinnedPrefix(rest);
    UserUnits(env, history);
    hide Units, Wire, PrefixLength, FirstError, TurnsOf, Questions, FreeMarkers;
    PlainHistorySplits(env, [Pinned()], Questions());
  }

  lemma PinnedPrefix(rest: seq<Message>)
    requires rest != [] && forall i :: 0 <= i < |rest| ==> rest[i].kind.Ordinary?
    ensures PrefixLength([Pinned()] + rest) == Ok(1)
  {
    var history := [Pinned()] + rest;
    assert history[1..] == rest && history[0..] == history;
    assert LeadingSystem(history) == 0;
    assert LeadingProtected(history) == 1 + LeadingProtected(rest);
    assert history[0..1] == [Pinned()];
  }

  lemma PinnedFits(digest: seq<Message> -> string, records: seq<Record> -> string)
    ensures Fits(FreeMarkers(digest, records), 2, [Pinned()], Questions(), 1)
  {
    var env := FreeMarkers(digest, records);
    UserTurnsFlatten(Questions()[..1]);
    UserTurnsFlatten(Questions()[1..]);
    UserUnits(env, [Pinned()]);
    UserUnits(env, Flatten(Questions()[1..]));
    OneUnit(env, Marker(env, Flatten(Questions()[..1])));
    MarkerIsSystem(env, Flatten(Questions()[..1]));
    hide Units, Fits, Marker;
    PlainFits(env, 2, [Pinned()], Questions(), 1);
  }

  /** A history with a protected message in front of two questions, whatever the hash: its system messages
      all lead (it has none), but its compacted projection has one behind the protected message. */
  lemma PreludePutsSystemBehind(digest: seq<Message> -> string, records: seq<Record> -> string)
    ensures var env, history, b := FreeMarkers(digest, records), [Pinned()] + Flatten(Questions()),
      ContextBudget(2, 0, 1);
      && SystemLeads(history)
      && Projected(env, b, history).Ok? && Projected(env, b, history).value.Compacted()
      && var p := Projected(env, b, history).value.messages;
         |p| >= 2 && p[0] == Pinned() && p[1].role.System? && !SystemLeads(p)
  {
    hide Units, FreeMarkers, Fits, Wire, TurnsOf, Projected, Questions, Flatten, FirstError, PrefixLength, Marker;
    var env, history, b := FreeMarkers(digest, records), [Pinned()] + Flatten(Questions()), ContextBudget(2, 0, 1);
    PinnedSplits(digest, records);
    PinnedFits(digest, records);
    RefusedExactly(env, b, history, 1, Questions());
    CompactedIffTooLarge(env, b, history);
    assert SystemLeads(history);
    CompactedParts(env, b, history);
    StructuralSystemLeadsExactly(env, b, history);
  }
}
