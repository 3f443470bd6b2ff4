/** What a bounded projection keeps, removes and refuses. */
module Compaction {
  import opened Wrappers
  import opened Messages
  import opened Rejection
  import opened History
  import opened Budget

  /** The turns of a history behind its protected prefix, when both exist. */
  predicate Splits(history: seq<Message>, n: nat, turns: Groups) {
    PrefixLength(history) == Ok(n) && n <= |history| && FirstError(history).None? && TurnsOf(history[n..]) == Ok(turns)
  }

  lemma ProjectedCases(env: Env, b: ContextBudget, history: seq<Message>)
    requires b.Valid() && Projected(env, b, history).Ok?
    ensures PrefixLength(history).Ok? && Wire(env, history).Ok?
    ensures var n, wire, p := PrefixLength(history).value, Wire(env, history).value, Projected(env, b, history).value;
      if Units(env, wire) <= b.MessageUnits() then p == Projection(wire, Units(env, history), Units(env, wire), 0, None)
      else TurnsOf(history[n..]).Ok? && Compact(env, b, history, n, wire, TurnsOf(history[n..]).value) == Ok(p)
  {
    hide Compact, Wire, Units, TurnsOf, PrefixLength;
  }

  /** Keeping every turn is keeping the history. */
  lemma KeepingAllIsTheHistory(env: Env, history: seq<Message>, n: nat, turns: Groups)
    requires Splits(history, n, turns)
    ensures Candidate(env, history[..n], turns, 0) == Wire(env, history)
  {
    hide Wire, FirstError, PrefixLength;
    TurnsLossless(history[n..]);
    hide TurnsOf;
    assert turns[..0] == [] && turns[0..] == turns;
    assert KeptFrom(env, history[..n], turns, 0) == history;
  }

  /** A projection that removed `removed` and sends `kept`. */
  function CompactedTo(env: Env, history: seq<Message>, kept: seq<Message>, removed: seq<Message>): Projection {
    Projection(kept, Units(env, history), Units(env, kept), |removed|, Some(Digest(env, removed, true)))
  }

  lemma DoesNotFit(env: Env, limit: int, prefix: seq<Message>, turns: Groups, start: nat)
    requires start <= |turns| && Candidate(env, prefix, turns, start).Ok? && !Fits(env, limit, prefix, turns, start)
    ensures Units(env, Candidate(env, prefix, turns, start).value) > limit
  {
    hide Candidate, Units;
  }

  /** The final fallback is unreachable: a compaction that succeeds removed at least one turn. */
  lemma CompactRemoves(env: Env, b: ContextBudget, history: seq<Message>, n: nat, turns: Groups)
    requires b.Valid() && Splits(history, n, turns) && Wire(env, history).Ok?
    requires Units(env, Wire(env, history).value) > b.MessageUnits()
    ensures var r := Compact(env, b, history, n, Wire(env, history).value, turns);
      var start := Grow(env, b.MessageUnits(), history[..n], turns, HotStart(b, turns));
      r.Ok? ==>
        && 0 < start <= HotStart(b, turns)
        && Flatten(turns[..start]) != []
        && Fits(env, b.MessageUnits(), history[..n], turns, HotStart(b, turns))
        && Fits(env, b.MessageUnits(), history[..n], turns, start)
        && Candidate(env, history[..n], turns, start).Ok?
        && r.value == CompactedTo(env, history, Candidate(env, history[..n], turns, start).value,
          Flatten(turns[..start]))
  {
    hide Wire, Units, TurnsOf, FirstError;
    KeepingAllIsTheHistory(env, history, n, turns);
    TurnsLossless(history[n..]);
    var start := Grow(env, b.MessageUnits(), history[..n], turns, HotStart(b, turns));
    GrowStops(env, b.MessageUnits(), history[..n], turns, HotStart(b, turns));
    TurnsSplit(turns, start);
  }

  /** No projection exceeds the budget, and its unit count is the one of its messages. */
  lemma ProjectionFits(env: Env, b: ContextBudget, history: seq<Message>)
    requires b.Valid() && Projected(env, b, history).Ok?
    ensures var p := Projected(env, b, history).value;
      p.projectedUnits == Units(env, p.messages) <= b.MessageUnits()
  {
    hide Wire, Units, TurnsOf, FirstError, PrefixLength, Projected;
    ProjectedCases(env, b, history);
    var n, wire := PrefixLength(history).value, Wire(env, history).value;
    WireExists(env, history);
    if Units(env, wire) > b.MessageUnits() {
      CompactRemoves(env, b, history, n, TurnsOf(history[n..]).value);
    }
  }

  /** A history is compacted exactly when its wire form does not fit; otherwise it is sent whole. */
  lemma CompactedIffTooLarge(env: Env, b: ContextBudget, history: seq<Message>)
    requires b.Valid() && Projected(env, b, history).Ok?
    ensures var p := Projected(env, b, history).value;
      && Wire(env, history).Ok?
      && p.originalUnits == Units(env, history)
      && (p.Compacted() <==> Units(env, Wire(env, history).value) > b.MessageUnits())
      && (!p.Compacted() ==> p.messages == Wire(env, history).value && p.removedDigest.None?)
  {
    hide Wire, Units, TurnsOf, FirstError, PrefixLength, Projected;
    ProjectedCases(env, b, history);
    var n, wire := PrefixLength(history).value, Wire(env, history).value;
    WireExists(env, history);
    if Units(env, wire) > b.MessageUnits() {
      CompactRemoves(env, b, history, n, TurnsOf(history[n..]).value);
    }
  }

  /** The first retained turn of a compacted projection. */
  function Start(env: Env, b: ContextBudget, history: seq<Message>): nat
    requires b.Valid() && PrefixLength(history).Ok? && TurnsOf(history[PrefixLength(history).value..]).Ok?
  {
    var n := PrefixLength(history).value;
    var turns := TurnsOf(history[n..]).value;
    Grow(env, b.MessageUnits(), history[..n], turns, HotStart(b, turns))
  }

  /** The shape of a compacted projection: the prefix untouched, one marker, and the wire form of
      the last turns. At least the hot turns are kept, what is removed and kept is the history
      behind the prefix, and keeping one more turn would not fit although every step so far did. */
  lemma CompactionShape(env: Env, b: ContextBudget, history: seq<Message>)
    requires b.Valid() && Projected(env, b, history).Ok? && Projected(env, b, history).value.Compacted()
    ensures PrefixLength(history).Ok? && TurnsOf(history[PrefixLength(history).value..]).Ok?
    ensures var p, n := Projected(env, b, history).value, PrefixLength(history).value;
      var turns, start := TurnsOf(history[n..]).value, Start(env, b, history);
      && 0 < start <= |turns| && |turns| - start >= (if b.hotTurns < |turns| then b.hotTurns else |turns|)
      && var removed, retained := Flatten(turns[..start]), Flatten(turns[start..]);
         && Wire(env, retained).Ok?
         && p.messages == history[..n] + [Marker(env, removed)] + Wire(env, retained).value
         && removed + retained == history[n..]
         && p.removedMessages == |removed| && p.removedDigest == Some(Digest(env, removed, true))
         && (forall s :: start <= s <= HotStart(b, turns) ==> Fits(env, b.MessageUnits(), history[..n], turns, s))
         && Candidate(env, history[..n], turns, start - 1).Ok?
         && Units(env, Candidate(env, history[..n], turns, start - 1).value) > b.MessageUnits()
  {
    hide Wire, Units, TurnsOf, FirstError, PrefixLength, Projected, Compact, Fits, Candidate, Grow, Marker, Digest;
    ProjectedCases(env, b, history);
    WireExists(env, history);
    var n := PrefixLength(history).value;
    var turns := TurnsOf(history[n..]).value;
    var start := Start(env, b, history);
    CompactRemoves(env, b, history, n, turns);
    GrowStops(env, b.MessageUnits(), history[..n], turns, HotStart(b, turns));
    TurnsLossless(history[n..]);
    TurnsSplit(turns, start);
    CandidateShape(env, history, turns, start);
    CandidateShape(env, history, turns, start - 1);
    DoesNotFit(env, b.MessageUnits(), history[..n], turns, start - 1);
  }

  /** The budget is refused exactly when the wire form does not fit and either there is no turn to
      cut or the hot turns behind prefix and marker do not fit. */
  lemma RefusedExactly(env: Env, b: ContextBudget, history: seq<Message>, n: nat, turns: Groups)
    requires b.Valid() && Splits(history, n, turns)
    ensures Wire(env, history).Ok?
    ensures Projected(env, b, history) == Err(BudgetExceeded) <==>
      && Units(env, Wire(env, history).value) > b.MessageUnits()
      && (turns == [] || !Fits(env, b.MessageUnits(), history[..n], turns, HotStart(b, turns)))
    ensures Projected(env, b, history) == Err(BudgetExceeded) || Projected(env, b, history).Ok?
  {
    hide Wire, Units, TurnsOf, FirstError, PrefixLength, Fits;
    WireExists(env, history);
  }

  /** The wire form of an accepted projection is itself: nothing a provider cannot replay is left. */
  lemma ProjectionIsWire(env: Env, b: ContextBudget, history: seq<Message>)
    requires b.Valid() && Projected(env, b, history).Ok?
    ensures Wire(env, Projected(env, b, history).value.messages) == Ok(Projected(env, b, history).value.messages)
    ensures forall g :: g in Segments(Projected(env, b, history).value.messages) ==> Replayable(g)
  {
    hide Wire, Units, TurnsOf, FirstError, PrefixLength, Projected, Replayable;
    CompactedIffTooLarge(env, b, history);
    var p := Projected(env, b, history).value;
    if p.Compacted() {
      CompactionShape(env, b, history);
      var n := PrefixLength(history).value;
      var turns, start := TurnsOf(history[n..]).value, Start(env, b, history);
      ProjectedCases(env, b, history);
      WireExists(env, history);
      CandidateShape(env, history, turns, start);
      TurnsLossless(history[n..]);
      TurnsSplit(turns, start);
      assert MarkerFor(env, Flatten(turns[..start])) == [Marker(env, Flatten(turns[..start]))];
      WireIdempotent(env, KeptFrom(env, history[..n], turns, start));
      WireIsReplayable(env, KeptFrom(env, history[..n], turns, start));
    } else {
      WireIdempotent(env, history);
      WireIsReplayable(env, history);
    }
  }

  // ----- The protected prelude -----

  /** Behind an accepted prefix, turns can be cut exactly when no tool result follows the prefix. */
  lemma TurnsIffNoToolFollows(history: seq<Message>)
    requires FirstError(history).None? && PrefixLength(history).Ok?
    ensures var rest := history[PrefixLength(history).value..];
      TurnsOf(rest).Ok? <==> !StartsWithTool(rest)
  {
    var n := PrefixLength(history).value;
    assert history == history[..n] + history[n..];
    if !StartsWithTool(history[n..]) {
      FirstErrorConcat(history[..n], history[n..]);
    }
  }

  /** The wire form keeps the system and protected prefix exactly when no tool result follows it.
      Otherwise the last protected message is part of a refused turn and is rewritten. */
  lemma PreludeKeptExactly(env: Env, history: seq<Message>)
    requires Wire(env, history).Ok? && PrefixLength(history).Ok?
    ensures var n, wire := PrefixLength(history).value, Wire(env, history).value;
      history[..n] <= wire <==> !StartsWithTool(history[n..])
  {
    hide Wire, PrefixLength, FirstError;
    var n := PrefixLength(history).value;
    WireExists(env, history);
    PrefixIsPlain(history);
    if !StartsWithTool(history[n..]) {
      WireAllPlain(env, history[..n]);
      WireConcat(env, history[..n], history[n..]);
      assert history[..n] + history[n..] == history;
    } else {
      PreludeRewritten(env, history, n);
    }
  }

  lemma PreludeRewritten(env: Env, history: seq<Message>, n: nat)
    requires Wire(env, history).Ok? && PrefixLength(history) == Ok(n) && n <= |history|
    requires StartsWithTool(history[n..])
    requires forall i :: 0 <= i < n ==> !history[i].role.Tool? && history[i].toolCalls == []
    ensures 0 < n <= |Wire(env, history).value| && Wire(env, history).value[n - 1] != history[n - 1]
  {
    assert n > 0;
    var front, tail := history[..n - 1], history[n - 1..];
    assert history == front + tail && tail[0] == history[n - 1] && tail[1] == history[n];
    WireAllPlain(env, front);
    WireConcat(env, front, tail);
    WireFirstSegment(env, tail);
    var size := SegmentSize(tail);
    assert tail[1..][0] == tail[1];
    assert size > 1;
    assert tail[..size][1..] == tail[1..size];
    assert Recognised(tail[0], tail[1..size]);
    assert tail[0].role.Assistant?;
    ProtectedAt(history, n - 1);
    assert WireAtom(env, tail[..size])[0].kind.Ordinary?;
    assert Wire(env, tail).value[0].kind.Ordinary?;
  }

  lemma ProtectedAt(history: seq<Message>, i: nat)
    requires PrefixLength(history).Ok? && i < PrefixLength(history).value && !history[i].role.System?
    ensures history[i].kind.ProtectedData?
  {
    var system, n := LeadingSystem(history), PrefixLength(history).value;
    assert history[i] == history[system..n][i - system];
    assert ProtectedIsData(history[system..n][i - system]);
  }

  /** A protected message that is followed by a bare refusal is lost: the uncompacted path sends a
      rewritten record in its place. */
  lemma PreludeCanBeRewritten(env: Env)
    ensures var note := Text(Assistant, "pinned").(kind := ProtectedData);
      var refusal :=
        Message(Tool, RejectionContent(MALFORMED_TOOL_CALL), [], None, None, Some(MALFORMED_TOOL_CALL), None, Ordinary);
      && PrefixLength([note, refusal]) == Ok(1)
      && Wire(env, [note, refusal]) == Ok(Rewrite(env, note, [refusal]))
      && note !in Rewrite(env, note, [refusal])
  {
    var note := Text(Assistant, "pinned").(kind := ProtectedData);
    var refusal :=
      Message(Tool, RejectionContent(MALFORMED_TOOL_CALL), [], None, None, Some(MALFORMED_TOOL_CALL), None, Ordinary);
    var h := [note, refusal];
    assert h[1..] == [refusal];
    assert BareRefusal(refusal);
    assert Indices(1) == {0};
    assert PairAll([], [refusal], Pairing({0}, false)) == Some(Pairing({0}, false));
    assert Recognised(note, [refusal]);
    SingleSegment(h);
    WireOne(env, h);
    assert LeadingProtected(h) == 1;
  }
}
