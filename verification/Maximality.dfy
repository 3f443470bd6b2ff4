/** When the retained suffix of a compacted projection is the longest one that fits. */
module Maximality {
  import opened Wrappers
  import opened Messages
  import opened History
  import opened Budget
  import opened Compaction
  import opened Decimals

  /** No suffix from `start` or earlier that fits is longer than the one from `kept`. */
  predicate Longest(env: Env, limit: int, prefix: seq<Message>, turns: Groups, start: nat, kept: nat)
    requires start <= |turns|
  {
    forall s: nat :: s <= start && Fits(env, limit, prefix, turns, s) ==> kept <= s
  }

  /** Where a suffix fits, every shorter one down to `start` fits as well. */
  predicate ShorterFits(env: Env, limit: int, prefix: seq<Message>, turns: Groups, start: nat)
    requires start <= |turns|
  {
    forall s: nat, t: nat :: s <= t <= start && Fits(env, limit, prefix, turns, s) ==>
      Fits(env, limit, prefix, turns, t)
  }

  /** Turn-by-turn growth finds the longest suffix exactly when shorter suffixes fit wherever longer ones do. */
  lemma GrowthIsLongestExactly(env: Env, limit: int, prefix: seq<Message>, turns: Groups, start: nat)
    requires start <= |turns| && Fits(env, limit, prefix, turns, start)
    ensures var r := Grow(env, limit, prefix, turns, start);
      Longest(env, limit, prefix, turns, start, r) <==> ShorterFits(env, limit, prefix, turns, start)
  {
    hide Fits, Grow, Longest, ShorterFits;
    var r := Grow(env, limit, prefix, turns, start);
    GrowStops(env, limit, prefix, turns, start);
    if Longest(env, limit, prefix, turns, start, r) {
      LongestShortens(env, limit, prefix, turns, start, r);
    }
    if ShorterFits(env, limit, prefix, turns, start) && r > 0 {
      ShorterIsLongest(env, limit, prefix, turns, start, r);
    } else {
      assert r == 0 ==> Longest(env, limit, prefix, turns, start, r) by { FromZero(env, limit, prefix, turns, start); }
    }
  }

  lemma FromZero(env: Env, limit: int, prefix: seq<Message>, turns: Groups, start: nat)
    requires start <= |turns|
    ensures Longest(env, limit, prefix, turns, start, 0)
  {
  }

  lemma LongestShortens(env: Env, limit: int, prefix: seq<Message>, turns: Groups, start: nat, r: nat)
    requires r <= start <= |turns| && Longest(env, limit, prefix, turns, start, r)
    requires Fits(env, limit, prefix, turns, start)
    requires forall s :: r <= s < start ==> Fits(env, limit, prefix, turns, s)
    ensures ShorterFits(env, limit, prefix, turns, start)
  {
    hide Fits;
  }

  lemma ShorterIsLongest(env: Env, limit: int, prefix: seq<Message>, turns: Groups, start: nat, r: nat)
    requires 0 < r <= start <= |turns| && ShorterFits(env, limit, prefix, turns, start)
    requires !Fits(env, limit, prefix, turns, r - 1)
    ensures Longest(env, limit, prefix, turns, start, r)
  {
    hide Fits;
  }

  /** The same of a compacted projection: what it keeps is the longest suffix that fits, among those with
      at least the hot turns, exactly under that condition. */
  lemma ProjectionIsLongestExactly(env: Env, b: ContextBudget, history: seq<Message>)
    requires b.Valid() && Projected(env, b, history).Ok? && Projected(env, b, history).value.Compacted()
    ensures PrefixLength(history).Ok? && TurnsOf(history[PrefixLength(history).value..]).Ok?
    ensures var n, limit := PrefixLength(history).value, b.MessageUnits();
      var turns := TurnsOf(history[n..]).value;
      var hot := HotStart(b, turns);
      Longest(env, limit, history[..n], turns, hot, Start(env, b, history)) <==>
        ShorterFits(env, limit, history[..n], turns, hot)
  {
    hide Projected, PrefixLength, TurnsOf, Fits, Wire, Units, FirstError, Longest, ShorterFits, Grow;
    CompactionShape(env, b, history);
    var n := PrefixLength(history).value;
    var turns := TurnsOf(history[n..]).value;
    GrowthIsLongestExactly(env, b.MessageUnits(), history[..n], turns, HotStart(b, turns));
  }

  // ----- A condition on costs alone -----

  function MarkerUnits(env: Env, turns: Groups, start: nat): nat
    requires start <= |turns|
  {
    Units(env, MarkerFor(env, Flatten(turns[..start])))
  }

  /** What one turn costs on the wire. */
  function TurnUnits(env: Env, turn: seq<Message>): nat {
    if Wire(env, turn).Ok? then Units(env, Wire(env, turn).value) else 0
  }

  /** Keeping one more turn never costs less than it saves on the marker. */
  predicate NeverCheaper(env: Env, turns: Groups, start: nat)
    requires start <= |turns|
  {
    forall s :: 0 < s < start ==>
      MarkerUnits(env, turns, s + 1) <= MarkerUnits(env, turns, s) + TurnUnits(env, turns[s])
  }

  lemma RetainedUnits(env: Env, ms: seq<Message>, turns: Groups, s: nat)
    requires TurnsOf(ms) == Ok(turns) && s < |turns|
    ensures Wire(env, Flatten(turns[s..])).Ok? && Wire(env, Flatten(turns[s + 1..])).Ok?
    ensures Units(env, Wire(env, Flatten(turns[s..])).value)
         == TurnUnits(env, turns[s]) + Units(env, Wire(env, Flatten(turns[s + 1..])).value)
  {
    hide TurnsOf, FirstError, Wire, Units;
    var turn, rest := turns[s], Flatten(turns[s + 1..]);
    RetainedAccepted(ms, turns, s);
    RetainedAccepted(ms, turns, s + 1);
    FlattenCons(turn, turns[s + 1..]);
    assert turns[s..] == [turn] + turns[s + 1..];
    FirstErrorConcat(turn, rest);
    WireExists(env, turn);
    WireExists(env, rest);
    WireConcat(env, turn, rest);
    UnitsConcat(env, Wire(env, turn).value, Wire(env, rest).value);
  }

  lemma CandidateUnits(env: Env, history: seq<Message>, n: nat, turns: Groups, s: nat)
    requires Splits(history, n, turns) && s <= |turns|
    ensures Candidate(env, history[..n], turns, s).Ok? && Wire(env, Flatten(turns[s..])).Ok?
    ensures Units(env, Candidate(env, history[..n], turns, s).value)
         == Units(env, history[..n]) + MarkerUnits(env, turns, s) + Units(env, Wire(env, Flatten(turns[s..])).value)
  {
    hide TurnsOf, FirstError, Wire, Units, Candidate, PrefixLength, MarkerFor;
    CandidateShape(env, history, turns, s);
    var marker, wire := MarkerFor(env, Flatten(turns[..s])), Wire(env, Flatten(turns[s..])).value;
    UnitsConcat(env, history[..n], marker);
    UnitsConcat(env, history[..n] + marker, wire);
  }

  /** Dropping one turn from a candidate that fits leaves one that fits. */
  lemma DropOneFits(env: Env, limit: int, history: seq<Message>, n: nat, turns: Groups, s: nat)
    requires Splits(history, n, turns) && s < |turns| && Fits(env, limit, history[..n], turns, s)
    requires MarkerUnits(env, turns, s + 1) <= MarkerUnits(env, turns, s) + TurnUnits(env, turns[s])
    ensures Fits(env, limit, history[..n], turns, s + 1)
  {
    hide TurnsOf, FirstError, Wire, Units, Candidate, PrefixLength, MarkerUnits, TurnUnits;
    CandidateUnits(env, history, n, turns, s);
    CandidateUnits(env, history, n, turns, s + 1);
    RetainedUnits(env, history[n..], turns, s);
  }

  lemma {:induction false} DropSomeFits(env: Env, limit: int, history: seq<Message>, n: nat, turns: Groups,
          start: nat, s: nat, t: nat)
    requires Splits(history, n, turns) && 0 < s <= t <= start <= |turns|
    requires Fits(env, limit, history[..n], turns, s) && NeverCheaper(env, turns, start)
    ensures Fits(env, limit, history[..n], turns, t)
    decreases t
  {
    hide Fits, Splits, MarkerUnits, TurnUnits;
    assert n <= |history| by { SplitsWithin(history, n, turns); }
    if s < t {
      DropSomeFits(env, limit, history, n, turns, start, s, t - 1);
      DropOneFits(env, limit, history, n, turns, t - 1);
    }
  }

  lemma SplitsWithin(history: seq<Message>, n: nat, turns: Groups)
    requires Splits(history, n, turns)
    ensures n <= |history|
  {
  }

  /** If keeping one more turn never costs less than it saves on the marker, the projection keeps the
      longest suffix that fits. */
  lemma NeverCheaperIsLongest(env: Env, b: ContextBudget, history: seq<Message>)
    requires b.Valid() && Projected(env, b, history).Ok? && Projected(env, b, history).value.Compacted()
    requires PrefixLength(history).Ok? && TurnsOf(history[PrefixLength(history).value..]).Ok?
    requires var turns := TurnsOf(history[PrefixLength(history).value..]).value;
      NeverCheaper(env, turns, HotStart(b, turns))
    ensures var n := PrefixLength(history).value; var turns := TurnsOf(history[n..]).value;
      Longest(env, b.MessageUnits(), history[..n], turns, HotStart(b, turns), Start(env, b, history))
  {
    hide Projected, PrefixLength, TurnsOf, Fits, Wire, Units, FirstError, Longest, Grow, Start, Candidate, NeverCheaper;
    var n, limit := PrefixLength(history).value, b.MessageUnits();
    var turns := TurnsOf(history[n..]).value;
    var hot := HotStart(b, turns);
    CompactedSplits(env, b, history, n, turns);
    forall s: nat, t: nat | s <= t <= hot && Fits(env, limit, history[..n], turns, s)
      ensures Fits(env, limit, history[..n], turns, t)
    {
      DropSomeFits(env, limit, history, n, turns, hot, s, t);
    }
    ProjectionIsLongestExactly(env, b, history);
  }

  lemma CompactedSplits(env: Env, b: ContextBudget, history: seq<Message>, n: nat, turns: Groups)
    requires b.Valid() && Projected(env, b, history).Ok? && Projected(env, b, history).value.Compacted()
    requires PrefixLength(history) == Ok(n) && n <= |history| && TurnsOf(history[n..]) == Ok(turns)
    ensures Splits(history, n, turns) && !Fits(env, b.MessageUnits(), history[..n], turns, 0)
  {
    hide Projected, PrefixLength, TurnsOf, Wire, Units, FirstError, Candidate;
    CompactedIffTooLarge(env, b, history);
    WireExists(env, history);
    KeepingAllIsTheHistory(env, history, n, turns);
  }

  /** In particular when every marker costs the same. */
  lemma EvenMarkersAreLongest(env: Env, b: ContextBudget, history: seq<Message>, cost: nat)
    requires b.Valid() && Projected(env, b, history).Ok? && Projected(env, b, history).value.Compacted()
    requires forall removed :: removed != [] ==> (env.units)(Marker(env, removed)) == cost
    ensures PrefixLength(history).Ok? && TurnsOf(history[PrefixLength(history).value..]).Ok?
    ensures var n := PrefixLength(history).value; var turns := TurnsOf(history[n..]).value;
      Longest(env, b.MessageUnits(), history[..n], turns, HotStart(b, turns), Start(env, b, history))
  {
    hide Projected, PrefixLength, TurnsOf, Wire, Longest, Start, Marker, Fits, Units, Grow, MarkerUnits;
    CompactionShape(env, b, history);
    var turns := TurnsOf(history[PrefixLength(history).value..]).value;
    TurnsLossless(history[PrefixLength(history).value..]);
    forall s | 0 < s <= HotStart(b, turns) ensures MarkerUnits(env, turns, s) == cost {
      EvenMarker(env, turns, s, cost);
    }
    NeverCheaperIsLongest(env, b, history);
  }

  lemma EvenMarker(env: Env, turns: Groups, s: nat, cost: nat)
    requires TurnShape(turns) && 0 < s <= |turns|
    requires forall removed :: removed != [] ==> (env.units)(Marker(env, removed)) == cost
    ensures MarkerUnits(env, turns, s) == cost
  {
    hide Marker;
    TurnsSplit(turns, s);
    OneUnit(env, Marker(env, Flatten(turns[..s])));
  }

  lemma OneUnit(env: Env, m: Message)
    ensures Units(env, [m]) == (env.units)(m)
  {
    assert [m][1..] == [];
    assert Units(env, [m]) == (env.units)(m) + Units(env, []);
  }

  // ----- Histories of plain user turns, for the counterexamples -----

  predicate AllPlain(ms: seq<Message>) {
    forall i :: 0 <= i < |ms| ==> !ms[i].role.Tool? && ms[i].toolCalls == []
  }

  /** Turns of one plain user message each. */
  predicate UserTurns(turns: Groups) {
    forall i :: 0 <= i < |turns| ==> |turns[i]| == 1 && turns[i][0].role.User? && turns[i][0].toolCalls == []
  }

  lemma {:induction false} UserTurnsFlatten(turns: Groups)
    requires UserTurns(turns)
    ensures |Flatten(turns)| == |turns|
    ensures forall i :: 0 <= i < |turns| ==> Flatten(turns)[i] == turns[i][0]
    ensures AllPlain(Flatten(turns))
  {
    if turns != [] {
      UserTurnsFlatten(turns[1..]);
      assert forall i :: 0 < i < |turns| ==> turns[1..][i - 1] == turns[i];
    }
  }

  /** Where everything is plain, a candidate costs its parts. */
  lemma PlainFits(env: Env, limit: int, prefix: seq<Message>, turns: Groups, start: nat)
    requires start <= |turns| && UserTurns(turns) && AllPlain(prefix)
    ensures Fits(env, limit, prefix, turns, start)
      <==> Units(env, prefix) + MarkerUnits(env, turns, start) + Units(env, Flatten(turns[start..])) <= limit
  {
    hide Wire, Units, Marker;
    var marker, retained := MarkerFor(env, Flatten(turns[..start])), Flatten(turns[start..]);
    UserTurnsFlatten(turns[start..]);
    MarkerIsPlain(env, Flatten(turns[..start]));
    WireAllPlain(env, prefix + marker + retained);
    UnitsConcat(env, prefix, marker);
    UnitsConcat(env, prefix + marker, retained);
  }

  /** Plain user turns behind a plain prefix are the turns of that history. */
  lemma PlainHistorySplits(env: Env, prefix: seq<Message>, turns: Groups)
    requires UserTurns(turns) && AllPlain(prefix) && PrefixLength(prefix + Flatten(turns)) == Ok(|prefix|)
    ensures var history := prefix + Flatten(turns);
      && history[..|prefix|] == prefix && Splits(history, |prefix|, turns) && Wire(env, history) == Ok(history)
  {
    hide Wire, TurnsOf, FirstError, PrefixLength;
    var rest := Flatten(turns);
    var history := prefix + rest;
    UserTurnsFlatten(turns);
    WireAllPlain(env, history);
    WireExists(env, history);
    WireAllPlain(env, rest);
    WireExists(env, rest);
    TurnsExist(rest);
    TurnsLossless(rest);
    TurnsUnique(TurnsOf(rest).value, turns);
    assert history[|prefix|..] == rest;
  }

  lemma TurnsExist(ms: seq<Message>)
    ensures TurnsOf(ms).Ok? <==> FirstError(ms).None?
  {
  }

  // ----- Only locally maximal -----

  function Notes(): (turns: Groups)
    ensures |turns| == 4 && UserTurns(turns)
  {
    [[Text(User, "a")], [Text(User, "b")], [Text(User, "c")], [Text(User, "d")]]
  }

  /** An estimator that charges one unit a message, nothing for a marker, but ten for a marker that stands
      for exactly two messages. */
  function UnevenEnv(digest: seq<Message> -> string, records: seq<Record> -> string): Env {
    Env((m: Message) => if !m.role.System? then 1 else if COMPACTED_HEAD + "messages=2;" <= m.content then 10 else 0,
        digest, records)
  }

  lemma {:induction false} UserUnits(env: Env, ms: seq<Message>)
    requires forall i :: 0 <= i < |ms| ==> (env.units)(ms[i]) == 1
    ensures Units(env, ms) == |ms|
  {
    if ms != [] {
      UserUnits(env, ms[1..]);
    }
  }

  /** The marker's text begins with the number of messages it stands for. */
  lemma MarkerCounts(env: Env, removed: seq<Message>)
    requires 0 < |removed| < 10
    ensures COMPACTED_HEAD + "messages=2;" <= Marker(env, removed).content <==> |removed| == 2
  {
    hide COMPACTED_HEAD, COMPACTED_TAIL, RoleText, CallCount, Digest;
    var content, at := Marker(env, removed).content, |COMPACTED_HEAD|;
    var front := COMPACTED_HEAD + "messages=";
    assert "messages=2;" == "messages=" + "2;";
    assert "; tool_calls=" == ";" + " tool_calls=";
    assert content[..at + 9] == front;
    assert content[at + 9] == DigitOf(|removed|) && content[at + 10] == ';';
    assert (COMPACTED_HEAD + "messages=2;")[at + 9] == '2';
    assert DigitOf(|removed|) == '2' <==> |removed| == 2 by {
      assert ValueOf('2') == 2;
    }
    if |removed| == 2 {
      assert content[..at + 11] == front + "2;";
    }
  }

  lemma UnevenMarker(digest: seq<Message> -> string, records: seq<Record> -> string, start: nat)
    requires 1 <= start <= 4
    ensures MarkerUnits(UnevenEnv(digest, records), Notes(), start) == if start == 2 then 10 else 0
  {
    var env := UnevenEnv(digest, records);
    UserTurnsFlatten(Notes()[..start]);
    var removed := Flatten(Notes()[..start]);
    MarkerCounts(env, removed);
    OneUnit(env, Marker(env, removed));
    hide Marker;
  }

  lemma NotesFit(digest: seq<Message> -> string, records: seq<Record> -> string, start: nat)
    requires 1 <= start <= 4
    ensures Fits(UnevenEnv(digest, records), 3, [], Notes(), start) <==> start != 2
  {
    hide Fits, Units, MarkerUnits, Notes;
    var env := UnevenEnv(digest, records);
    UnevenMarker(digest, records, start);
    UserTurnsFlatten(Notes()[start..]);
    UserUnits(env, Flatten(Notes()[start..]));
    PlainFits(env, 3, [], Notes(), start);
    assert Units(env, []) == 0 by { NoUnits(env); }
  }

  lemma NoUnits(env: Env)
    ensures Units(env, []) == 0
  {
  }

  lemma NotesSplit(digest: seq<Message> -> string, records: seq<Record> -> string)
    ensures var env, history := UnevenEnv(digest, records), Flatten(Notes());
      && Wire(env, history) == Ok(history) && Splits(history, 0, Notes()) && Units(env, history) == 4
      && history[..0] == [] && history[0..] == history
  {
    var env, history := UnevenEnv(digest, records), Flatten(Notes());
    UserTurnsFlatten(Notes());
    PlainPrefix(history);
    UserUnits(env, history);
    hide Units, Wire, PrefixLength, FirstError, TurnsOf, Notes, UnevenEnv;
    assert [] + history == history;
    PlainHistorySplits(env, [], Notes());
  }

  lemma PlainPrefix(ms: seq<Message>)
    requires ms != [] && !ms[0].role.System? && forall i :: 0 <= i < |ms| ==> ms[i].kind.Ordinary?
    ensures PrefixLength(ms) == Ok(0)
  {
    assert LeadingSystem(ms) == 0 && ms[0..] == ms && LeadingProtected(ms) == 0;
  }

  /** The retained suffix is maximal turn by turn only: for an estimator that reads the marker's count, and
      whatever the hash, the projection stops at a turn that does not fit although a longer suffix would. */
  lemma OnlyLocallyMaximal(digest: seq<Message> -> string, records: seq<Record> -> string)
    ensures var env, history, b := UnevenEnv(digest, records), Flatten(Notes()), ContextBudget(3, 0, 1);
      && Projected(env, b, history).Ok? && Projected(env, b, history).value.Compacted()
      && Splits(history, 0, Notes()) && history[..0] == [] && HotStart(b, Notes()) == 3
      && Start(env, b, history) == 3 && Fits(env, b.MessageUnits(), [], Notes(), 1)
      && !Longest(env, b.MessageUnits(), [], Notes(), 3, Start(env, b, history))
  {
    hide Units, UnevenEnv, Fits, Wire, TurnsOf, Projected, Notes, Flatten, FirstError, PrefixLength;
    var env, history, b := UnevenEnv(digest, records), Flatten(Notes()), ContextBudget(3, 0, 1);
    NotesSplit(digest, records);
    NotesFit(digest, records, 1);
    NotesFit(digest, records, 2);
    NotesFit(digest, records, 3);
    GrowStep(env, 3, [], Notes(), 3);
    RefusedExactly(env, b, history, 0, Notes());
    CompactedIffTooLarge(env, b, history);
  }
}
