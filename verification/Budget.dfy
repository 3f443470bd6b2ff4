/** Projecting complete conversation turns into a bounded model context. */
module Budget {
  import opened Wrappers
  import opened Messages
  import opened History
  import opened Decimals
  import opened Ordering

  // ----- The protected prefix -----

  predicate ProtectedIsData(m: Message) {
    && m.kind.ProtectedData? && m.role.Assistant? && m.toolCalls == []
    && m.toolCallId.None? && m.toolName.None? && m.errorCode.None? && m.providerState.None?
  }

  predicate AllData(ms: seq<Message>) {
    forall i :: 0 <= i < |ms| ==> ProtectedIsData(ms[i])
  }

  predicate AllOrdinary(ms: seq<Message>) {
    forall i :: 0 <= i < |ms| ==> ms[i].kind.Ordinary?
  }

  function LeadingSystem(ms: seq<Message>): (n: nat)
    ensures n <= |ms|
    ensures forall i :: 0 <= i < n ==> ms[i].role.System?
    ensures n < |ms| ==> !ms[n].role.System?
  {
    if ms == [] || !ms[0].role.System? then 0 else 1 + LeadingSystem(ms[1..])
  }

  function LeadingProtected(ms: seq<Message>): (n: nat)
    ensures n <= |ms|
    ensures forall i :: 0 <= i < n ==> !ms[i].kind.Ordinary?
    ensures n < |ms| ==> ms[n].kind.Ordinary?
  {
    if ms == [] || ms[0].kind.Ordinary? then 0 else 1 + LeadingProtected(ms[1..])
  }

  /** The length of the system and protected-data prefix: every protected message must be plain
      assistant data, and none may come after the prefix. */
  function PrefixLength(ms: seq<Message>): (r: Result<nat, StructureError>)
    ensures r.Ok? ==> r.value <= |ms|
  {
    var system := LeadingSystem(ms);
    var end := system + LeadingProtected(ms[system..]);
    if !AllData(ms[system..end]) then Err(ProtectedNotData)
    else if !AllOrdinary(ms[end..]) then Err(ProtectedNotContiguous)
    else Ok(end)
  }

  /** The run of protected messages starting at `from`, each of which must be plain data. */
  method ProtectedRunEnd(ms: seq<Message>, from: nat) returns (r: Result<nat, StructureError>)
    requires from <= |ms|
    ensures var end := from + LeadingProtected(ms[from..]);
      r == if AllData(ms[from..end]) then Ok(end) else Err(ProtectedNotData)
  {
    hide ProtectedIsData, LeadingProtected;
    var end := from;
    while end < |ms| && !ms[end].kind.Ordinary?
      invariant from <= end <= |ms|
      invariant end + LeadingProtected(ms[end..]) == from + LeadingProtected(ms[from..])
      invariant forall i :: from <= i < end ==> ProtectedIsData(ms[i])
    {
      LeadingProtectedStep(ms, end);
      if !ProtectedIsData(ms[end]) {
        ghost var last := from + LeadingProtected(ms[from..]);
        assert ms[from..last][end - from] == ms[end];
        return Err(ProtectedNotData);
      }
      end := end + 1;
    }
    assert end == from + LeadingProtected(ms[from..]);
    r := Ok(end);
  }

  lemma LeadingProtectedStep(ms: seq<Message>, at: nat)
    requires at < |ms| && !ms[at].kind.Ordinary?
    ensures LeadingProtected(ms[at..]) == 1 + LeadingProtected(ms[at + 1..])
  {
    assert ms[at..][1..] == ms[at + 1..];
  }

  lemma LeadingSystemStep(ms: seq<Message>, at: nat)
    requires at < |ms| && ms[at].role.System?
    ensures LeadingSystem(ms[at..]) == 1 + LeadingSystem(ms[at + 1..])
  {
    assert ms[at..][1..] == ms[at + 1..];
  }

  method ProtectedPrefixLength(ms: seq<Message>) returns (r: Result<nat, StructureError>)
    ensures r == PrefixLength(ms)
  {
    hide AllData, AllOrdinary, LeadingSystem, LeadingProtected;
    var systemEnd := 0;
    assert ms[0..] == ms;
    while systemEnd < |ms| && ms[systemEnd].role.System?
      invariant 0 <= systemEnd <= |ms|
      invariant systemEnd + LeadingSystem(ms[systemEnd..]) == LeadingSystem(ms)
    {
      LeadingSystemStep(ms, systemEnd);
      systemEnd := systemEnd + 1;
    }
    assert systemEnd == LeadingSystem(ms);
    var protectedEnd := ProtectedRunEnd(ms, systemEnd);
    if protectedEnd.Err? {
      return Err(protectedEnd.error);
    }
    if !AllOrdinary(ms[protectedEnd.value..]) {
      return Err(ProtectedNotContiguous);
    }
    r := protectedEnd;
  }

  // ----- Turns -----

  function AddAtom(turns: Groups, atom: seq<Message>): Groups
    requires atom != []
  {
    if atom[0].role.User? || turns == [] then turns + [atom]
    else turns[..|turns| - 1] + [turns[|turns| - 1] + atom]
  }

  function AddAtoms(turns: Groups, atoms: Groups): Groups
    requires NoneEmpty(atoms)
    decreases |atoms|
  {
    if atoms == [] then turns else AddAtoms(AddAtom(turns, atoms[0]), atoms[1..])
  }

  function TurnsOf(ms: seq<Message>): Result<Groups, StructureError> {
    match FirstError(ms)
    case Some(e) => Err(e)
    case None => Ok(AddAtoms([], Segments(ms)))
  }

  method Turns(env: Env, ms: seq<Message>) returns (r: Result<Groups, StructureError>)
    ensures r == TurnsOf(ms)
  {
    var cut := Atoms(env, ms);
    if cut.Err? {
      return Err(cut.error);
    }
    var atoms := cut.value;
    var turns: Groups := [];
    var k := 0;
    assert atoms[0..] == atoms;
    while k < |atoms|
      invariant 0 <= k <= |atoms|
      invariant AddAtoms([], atoms) == AddAtoms(turns, atoms[k..])
    {
      assert atoms[k..][1..] == atoms[k + 1..];
      var atom := atoms[k];
      if atom[0].role.User? || turns == [] {
        turns := turns + [atom];
      } else {
        turns := turns[..|turns| - 1] + [turns[|turns| - 1] + atom];
      }
      k := k + 1;
    }
    assert atoms[k..] == [];
    r := Ok(turns);
  }

  /** The shape of a turn list: every turn is non-empty and starts with a message of its own,
      every turn but the first starts with a user message, and no user message is inside one. */
  predicate TurnShape(turns: Groups) {
    forall i :: 0 <= i < |turns| ==> IsTurn(turns[i]) && (i > 0 ==> turns[i][0].role.User?)
  }

  predicate IsTurn(turn: seq<Message>) {
    turn != [] && !turn[0].role.Tool? && forall j :: 1 <= j < |turn| ==> !turn[j].role.User?
  }

  lemma AddAtomShape(turns: Groups, atom: seq<Message>)
    requires IsSegment(atom) && TurnShape(turns)
    ensures TurnShape(AddAtom(turns, atom))
  {
  }

  lemma AddAtomFlatten(turns: Groups, atom: seq<Message>)
    requires atom != []
    ensures Flatten(AddAtom(turns, atom)) == Flatten(turns) + atom
  {
    FlattenOne(atom);
    if atom[0].role.User? || turns == [] {
      FlattenConcat(turns, [atom]);
    } else {
      var front, last := turns[..|turns| - 1], turns[|turns| - 1];
      FlattenConcat(front, [last + atom]);
      FlattenConcat(front, [last]);
      FlattenOne(last + atom);
      FlattenOne(last);
      assert turns == front + [last];
      assert Flatten(front) + (last + atom) == (Flatten(front) + last) + atom;
    }
  }

  lemma {:induction false} AddAtomsShape(turns: Groups, atoms: Groups)
    requires NoneEmpty(atoms) && forall i :: 0 <= i < |atoms| ==> IsSegment(atoms[i])
    requires TurnShape(turns)
    ensures TurnShape(AddAtoms(turns, atoms))
    ensures Flatten(AddAtoms(turns, atoms)) == Flatten(turns) + Flatten(atoms)
    decreases |atoms|
  {
    hide AddAtom, TurnShape, IsSegment;
    if atoms == [] {
      assert Flatten(turns) + [] == Flatten(turns);
    } else {
      AddAtomShape(turns, atoms[0]);
      AddAtomFlatten(turns, atoms[0]);
      AddAtomsShape(AddAtom(turns, atoms[0]), atoms[1..]);
      assert (Flatten(turns) + atoms[0]) + Flatten(atoms[1..]) == Flatten(turns) + Flatten(atoms);
    }
  }

  lemma FlattenOne(g: seq<Message>)
    ensures Flatten([g]) == g
  {
    assert [g][1..] == [];
    assert Flatten([g]) == g + [];
  }

  lemma SegmentsAreSegments(ms: seq<Message>)
    requires FirstError(ms).None?
    ensures forall i :: 0 <= i < |Segments(ms)| ==> IsSegment(Segments(ms)[i])
    ensures Flatten(Segments(ms)) == ms
  {
    AtomsAreSegments(ms);
    assert forall i :: 0 <= i < |Segments(ms)| ==> Segments(ms)[i] in Segments(ms);
  }

  /** Turns flatten back to the history they were cut from, and have the turn shape. */
  lemma TurnsLossless(ms: seq<Message>)
    requires TurnsOf(ms).Ok?
    ensures Flatten(TurnsOf(ms).value) == ms
    ensures TurnShape(TurnsOf(ms).value)
  {
    SegmentsAreSegments(ms);
    AddAtomsShape([], Segments(ms));
    assert Flatten([]) + Flatten(Segments(ms)) == ms;
  }

  /** The turn shape leaves no choice: two turn lists of one history are the same list. */
  lemma {:induction false} TurnsUnique(a: Groups, b: Groups)
    requires TurnShape(a) && TurnShape(b) && Flatten(a) == Flatten(b)
    ensures a == b
    decreases |a|
  {
    if a == [] || b == [] {
      assert a == [] <==> Flatten(a) == [];
      assert b == [] <==> Flatten(b) == [];
    } else {
      var x, y := a[0], b[0];
      if |x| < |y| {
        TurnBoundary(a, y, Flatten(b[1..]));
      } else if |y| < |x| {
        TurnBoundary(b, x, Flatten(a[1..]));
      } else {
        assert x == Flatten(a)[..|x|] == Flatten(b)[..|x|] == y;
        assert Flatten(a[1..]) == Flatten(a)[|x|..] == Flatten(b)[|x|..] == Flatten(b[1..]);
        TurnShapeTail(a);
        TurnShapeTail(b);
        TurnsUnique(a[1..], b[1..]);
      }
    }
  }

  lemma TurnShapeTail(a: Groups)
    requires TurnShape(a)
    ensures a != [] ==> TurnShape(a[1..])
  {
  }

  lemma TurnBoundary(a: Groups, y: seq<Message>, rest: seq<Message>)
    requires TurnShape(a) && a != [] && |a[0]| < |y| && IsTurn(y)
    ensures Flatten(a) != y + rest
  {
    var n, tail := |a[0]|, Flatten(a[1..]);
    assert (y + rest)[n] == y[n];
    FlattenCons(a[0], a[1..]);
    assert a == [a[0]] + a[1..];
    if |a| > 1 {
      assert a[1..][0] == a[1];
      FlattenFirst(a[1..]);
      assert (a[0] + tail)[n] == tail[0];
    } else {
      assert a[1..] == [];
      FlattenNothing();
      assert |a[0] + tail| == n;
    }
  }

  // ----- Projection -----

  datatype ContextBudget = ContextBudget(maxUnits: int, reserveUnits: int, hotTurns: int) {
    predicate Valid() {
      0 < maxUnits && 0 <= reserveUnits < maxUnits && 0 < hotTurns
    }

    function MessageUnits(): int {
      maxUnits - reserveUnits
    }
  }

  datatype Projection = Projection(
    messages: seq<Message>,
    originalUnits: nat,
    projectedUnits: nat,
    removedMessages: nat,
    removedDigest: Option<string>)
  {
    predicate Compacted() {
      removedMessages > 0
    }
  }

  datatype ContextError = Structure(error: StructureError) | BudgetExceeded

  const COMPACTED_HEAD := "[sasori-context/v1 compacted history] "
  const COMPACTED_TAIL := " Content was removed by deterministic budget projection; do not infer omitted facts."

  function RoleName(role: Role): string {
    match role
    case System => "system"
    case User => "user"
    case Assistant => "assistant"
    case Tool => "tool"
    case OtherRole(name) => name
  }

  function RoleNames(ms: seq<Message>): set<string> {
    set i | 0 <= i < |ms| :: RoleName(ms[i].role)
  }

  function RoleCount(ms: seq<Message>, name: string): nat {
    if ms == [] then 0 else (if RoleName(ms[0].role) == name then 1 else 0) + RoleCount(ms[1..], name)
  }

  function CallCount(ms: seq<Message>): nat {
    if ms == [] then 0 else |ms[0].toolCalls| + CallCount(ms[1..])
  }

  function RoleText(ms: seq<Message>, names: seq<string>): string {
    if names == [] then ""
    else
      var rest := if |names| == 1 then "" else "," + RoleText(ms, names[1..]);
      names[0] + ":" + Decimal(RoleCount(ms, names[0])) + rest
  }

  /** What the marker says about the messages it stands for: how many, with how many calls, by role. */
  function Described(removed: seq<Message>): string {
    "messages=" + Decimal(|removed|) + "; tool_calls=" + Decimal(CallCount(removed))
    + "; roles=" + RoleText(removed, Sorted(RoleNames(removed)))
  }

  function Marker(env: Env, removed: seq<Message>): Message {
    Text(System, COMPACTED_HEAD + Described(removed) + "; sha256=" + Digest(env, removed, false) + "." + COMPACTED_TAIL)
  }

  function MarkerFor(env: Env, removed: seq<Message>): seq<Message> {
    if removed == [] then [] else [Marker(env, removed)]
  }

  /** The history that keeps only the turns from `start` on, behind the prefix and the marker. */
  function KeptFrom(env: Env, prefix: seq<Message>, turns: Groups, start: nat): seq<Message>
    requires start <= |turns|
  {
    prefix + MarkerFor(env, Flatten(turns[..start])) + Flatten(turns[start..])
  }

  function Candidate(env: Env, prefix: seq<Message>, turns: Groups, start: nat): Result<seq<Message>, StructureError>
    requires start <= |turns|
  {
    Wire(env, KeptFrom(env, prefix, turns, start))
  }

  predicate Fits(env: Env, limit: int, prefix: seq<Message>, turns: Groups, start: nat)
    requires start <= |turns|
  {
    var c := Candidate(env, prefix, turns, start);
    c.Ok? && Units(env, c.value) <= limit
  }

  /** How far the retained suffix grows from `start` before the next turn would not fit. */
  function Grow(env: Env, limit: int, prefix: seq<Message>, turns: Groups, start: nat): (r: nat)
    requires start <= |turns|
    ensures r <= start
  {
    hide Fits;
    if start == 0 || !Fits(env, limit, prefix, turns, start - 1) then start
    else Grow(env, limit, prefix, turns, start - 1)
  }

  /** The growth stops at the first turn that would not fit, and every start on the way fits. */
  lemma {:induction false} GrowStops(env: Env, limit: int, prefix: seq<Message>, turns: Groups, start: nat)
    requires start <= |turns|
    ensures var r := Grow(env, limit, prefix, turns, start);
      && (forall s :: r <= s < start ==> Fits(env, limit, prefix, turns, s))
      && (r > 0 ==> !Fits(env, limit, prefix, turns, r - 1))
      && (Fits(env, limit, prefix, turns, start) ==> Fits(env, limit, prefix, turns, r))
  {
    hide Fits;
    if start == 0 || !Fits(env, limit, prefix, turns, start - 1) {
    } else {
      GrowStops(env, limit, prefix, turns, start - 1);
    }
  }

  function HotStart(b: ContextBudget, turns: Groups): (r: nat)
    requires b.Valid()
    ensures r <= |turns|
  {
    if b.hotTurns < |turns| then |turns| - b.hotTurns else 0
  }

  /** What a projection is: the wire history when it fits; otherwise the hot turns behind the
      prefix, grown turn by turn while the result still fits. */
  function Projected(env: Env, b: ContextBudget, history: seq<Message>): Result<Projection, ContextError>
    requires b.Valid()
  {
    match PrefixLength(history)
    case Err(e) => Err(Structure(e))
    case Ok(n) =>
      match Wire(env, history)
      case Err(e) => Err(Structure(e))
      case Ok(wire) =>
        if Units(env, wire) <= b.MessageUnits() then
          Ok(Projection(wire, Units(env, history), Units(env, wire), 0, None))
        else
          match TurnsOf(history[n..])
          case Err(e) => Err(Structure(e))
          case Ok(turns) => Compact(env, b, history, n, wire, turns)
  }

  function Compact(env: Env, b: ContextBudget, history: seq<Message>, n: nat, wire: seq<Message>, turns: Groups)
    : Result<Projection, ContextError>
    requires b.Valid() && n <= |history|
  {
    hide Wire, Units;
    var prefix, hot, limit := history[..n], HotStart(b, turns), b.MessageUnits();
    if turns == [] then Err(BudgetExceeded)
    else if !Fits(env, limit, prefix, turns, hot) then Err(BudgetExceeded)
    else
      var start := Grow(env, limit, prefix, turns, hot);
      GrowStops(env, limit, prefix, turns, hot);
      var removed := Flatten(turns[..start]);
      if removed == [] then Ok(Projection(wire, Units(env, history), Units(env, wire), 0, None))
      else
        var kept := Candidate(env, prefix, turns, start).value;
        Ok(Projection(kept, Units(env, history), Units(env, kept), |removed|, Some(Digest(env, removed, true))))
  }

  // ----- Every candidate has a wire form -----

  lemma {:induction false} SystemWithoutCalls(ms: seq<Message>)
    requires FirstError(ms).None?
    ensures forall i :: 0 <= i < |ms| && ms[i].role.System? ==> ms[i].toolCalls == []
    decreases |ms|
  {
    hide CheckSegment, LeadingTools;
    if ms != [] {
      var n := SegmentSize(ms);
      SystemWithoutCalls(ms[n..]);
      OnlyAssistantCalls(ms[0], ms[1..n]);
      assert forall i :: 1 <= i < n ==> ms[i] == ms[1..][i - 1] && ms[i].role.Tool?;
      forall i | 0 <= i < |ms| && ms[i].role.System? ensures ms[i].toolCalls == [] {
        if i >= n {
          assert ms[i] == ms[n..][i - n];
        }
      }
    }
  }

  lemma OnlyAssistantCalls(head: Message, results: seq<Message>)
    requires CheckSegment(head, results).None?
    ensures !head.role.Assistant? ==> head.toolCalls == []
  {
  }

  /** What lies between the leading system messages and the end of the prefix is protected data. */
  lemma PrefixParts(history: seq<Message>)
    requires PrefixLength(history).Ok?
    ensures LeadingSystem(history) <= PrefixLength(history).value
    ensures forall i :: LeadingSystem(history) <= i < PrefixLength(history).value ==> ProtectedIsData(history[i])
  {
    hide ProtectedIsData, LeadingSystem, LeadingProtected, AllOrdinary;
    var system, n := LeadingSystem(history), PrefixLength(history).value;
    forall i | system <= i < n ensures ProtectedIsData(history[i]) {
      assert history[i] == history[system..n][i - system];
    }
  }

  lemma PrefixIsPlain(history: seq<Message>)
    requires FirstError(history).None? && PrefixLength(history).Ok?
    ensures forall i :: 0 <= i < PrefixLength(history).value ==> !history[i].role.Tool? && history[i].toolCalls == []
  {
    hide FirstError, LeadingSystem, PrefixLength;
    SystemWithoutCalls(history);
    PrefixParts(history);
  }

  lemma TurnsSplit(turns: Groups, start: nat)
    requires TurnShape(turns) && start <= |turns|
    ensures Flatten(turns) == Flatten(turns[..start]) + Flatten(turns[start..])
    ensures !StartsWithTool(Flatten(turns[start..]))
    ensures Flatten(turns[..start]) == [] <==> start == 0
  {
    hide TurnShape, Flatten;
    FlattenConcat(turns[..start], turns[start..]);
    assert turns == turns[..start] + turns[start..];
    FlattenNothing();
    if start > 0 {
      TurnHead(turns, 0);
      assert turns[..start][0] == turns[0];
      FlattenFirst(turns[..start]);
    } else {
      assert turns[..start] == [];
    }
    if start < |turns| {
      TurnHead(turns, start);
      assert turns[start..][0] == turns[start];
      FlattenFirst(turns[start..]);
    } else {
      assert turns[start..] == [];
    }
  }

  lemma FlattenNothing()
    ensures Flatten([]) == []
  {
  }

  lemma TurnHead(turns: Groups, i: nat)
    requires TurnShape(turns) && i < |turns|
    ensures turns[i] != [] && !turns[i][0].role.Tool?
  {
  }

  lemma FlattenFirst(groups: Groups)
    requires groups != [] && groups[0] != []
    ensures Flatten(groups) != [] && Flatten(groups)[0] == groups[0][0]
  {
  }

  lemma RetainedAccepted(ms: seq<Message>, turns: Groups, start: nat)
    requires TurnsOf(ms) == Ok(turns) && start <= |turns|
    ensures FirstError(Flatten(turns[start..])).None? && !StartsWithTool(Flatten(turns[start..]))
  {
    TurnsLossless(ms);
    TurnsSplit(turns, start);
    FirstErrorConcat(Flatten(turns[..start]), Flatten(turns[start..]));
  }

  /** The wire form of a candidate: the prefix and the marker as they stand, then the wire form of
      the retained turns. This is where a rejection group hanging on the last protected message
      cannot occur, because the turns would not exist. */
  lemma CandidateShape(env: Env, history: seq<Message>, turns: Groups, start: nat)
    requires PrefixLength(history).Ok? && FirstError(history).None?
    requires TurnsOf(history[PrefixLength(history).value..]) == Ok(turns) && start <= |turns|
    ensures Wire(env, Flatten(turns[start..])).Ok?
    ensures var prefix := history[..PrefixLength(history).value];
      Candidate(env, prefix, turns, start)
        == Ok(prefix + MarkerFor(env, Flatten(turns[..start])) + Wire(env, Flatten(turns[start..])).value)
  {
    hide Wire, TurnsOf, PrefixLength, FirstError, MarkerFor;
    var n := PrefixLength(history).value;
    var removed, retained := Flatten(turns[..start]), Flatten(turns[start..]);
    RetainedAccepted(history[n..], turns, start);
    PrefixIsPlain(history);
    WireExists(env, retained);
    var head := history[..n] + MarkerFor(env, removed);
    MarkerIsPlain(env, removed);
    assert forall i :: 0 <= i < |head| ==> !head[i].role.Tool? && head[i].toolCalls == [];
    WireAllPlain(env, head);
    WireConcat(env, head, retained);
  }

  lemma MarkerIsPlain(env: Env, removed: seq<Message>)
    ensures forall i :: 0 <= i < |MarkerFor(env, removed)| ==>
      !MarkerFor(env, removed)[i].role.Tool? && MarkerFor(env, removed)[i].toolCalls == []
  {
    hide Described, Digest;
  }

  lemma WireExists(env: Env, ms: seq<Message>)
    ensures Wire(env, ms).Ok? <==> FirstError(ms).None?
  {
  }

  method Measure(env: Env, ms: seq<Message>) returns (total: nat)
    ensures total == Units(env, ms)
  {
    total := 0;
    var k := 0;
    while k < |ms|
      invariant 0 <= k <= |ms|
      invariant total + Units(env, ms[k..]) == Units(env, ms)
    {
      assert ms[k..][1..] == ms[k + 1..];
      total := total + (env.units)(ms[k]);
      k := k + 1;
    }
  }

  lemma ProjectedCompacts(env: Env, b: ContextBudget, history: seq<Message>, n: nat, wire: seq<Message>, turns: Groups)
    requires b.Valid() && n <= |history| && PrefixLength(history) == Ok(n) && Wire(env, history) == Ok(wire)
    requires Units(env, wire) > b.MessageUnits() && TurnsOf(history[n..]) == Ok(turns)
    ensures Projected(env, b, history) == Compact(env, b, history, n, wire, turns)
  {
    hide Wire, TurnsOf, PrefixLength, Units, Compact;
  }

  lemma CompactResult(env: Env, b: ContextBudget, history: seq<Message>, n: nat, wire: seq<Message>,
          turns: Groups, start: nat)
    requires b.Valid() && n <= |history| && turns != []
    requires Fits(env, b.MessageUnits(), history[..n], turns, HotStart(b, turns))
    requires start == Grow(env, b.MessageUnits(), history[..n], turns, HotStart(b, turns))
    ensures Candidate(env, history[..n], turns, start).Ok?
    ensures var removed, kept := Flatten(turns[..start]), Candidate(env, history[..n], turns, start).value;
      Compact(env, b, history, n, wire, turns) == Ok(
        if removed == [] then Projection(wire, Units(env, history), Units(env, wire), 0, None)
        else Projection(kept, Units(env, history), Units(env, kept), |removed|, Some(Digest(env, removed, true))))
  {
    hide Units, Candidate;
    GrowStops(env, b.MessageUnits(), history[..n], turns, HotStart(b, turns));
  }

  lemma CompactRefuses(env: Env, b: ContextBudget, history: seq<Message>, n: nat, wire: seq<Message>, turns: Groups)
    requires b.Valid() && n <= |history|
    requires turns == [] || !Fits(env, b.MessageUnits(), history[..n], turns, HotStart(b, turns))
    ensures Compact(env, b, history, n, wire, turns) == Err(BudgetExceeded)
  {
    hide Fits;
  }

  lemma GrowStep(env: Env, limit: int, prefix: seq<Message>, turns: Groups, start: nat)
    requires start <= |turns|
    ensures Grow(env, limit, prefix, turns, start) ==
      if start > 0 && Fits(env, limit, prefix, turns, start - 1) then Grow(env, limit, prefix, turns, start - 1)
      else start
  {
    hide Fits;
  }

  method Project(env: Env, b: ContextBudget, history: seq<Message>) returns (r: Result<Projection, ContextError>)
    requires b.Valid()
    ensures r == Projected(env, b, history)
  {
    hide Wire, TurnsOf, PrefixLength, Units, FirstError, Compact, Grow, Marker, Digest;
    var prefixLength := ProtectedPrefixLength(history);
    if prefixLength.Err? {
      return Err(Structure(prefixLength.error));
    }
    var originalUnits := Measure(env, history);
    var wireHistory := WireHistory(env, history);
    if wireHistory.Err? {
      return Err(Structure(wireHistory.error));
    }
    var wireUnits := Measure(env, wireHistory.value);
    var limit := b.MessageUnits();
    if wireUnits <= limit {
      return Ok(Projection(wireHistory.value, originalUnits, wireUnits, 0, None));
    }
    var prefix := history[..prefixLength.value];
    var cut := Turns(env, history[prefixLength.value..]);
    if cut.Err? {
      return Err(Structure(cut.error));
    }
    var turns := cut.value;
    ghost var n, wire := prefixLength.value, wireHistory.value;
    ProjectedCompacts(env, b, history, n, wire, turns);
    hide Projected;
    if turns == [] {
      CompactRefuses(env, b, history, n, wire, turns);
      return Err(BudgetExceeded);
    }
    var hotCount := if b.hotTurns < |turns| then b.hotTurns else |turns|;
    var selectedStart := |turns| - hotCount;
    var removed := Flatten(turns[..selectedStart]);
    var retained := Flatten(turns[selectedStart..]);
    var digest := if removed == [] then None else Some(Digest(env, removed, true));
    assert FirstError(history).None? by { WireExists(env, history); }
    CandidateShape(env, history, turns, selectedStart);
    var hotWire := WireHistory(env, prefix + MarkerFor(env, removed) + retained);
    var kept := hotWire.value;
    var keptUnits := Measure(env, kept);
    if keptUnits > limit {
      CompactRefuses(env, b, history, n, wire, turns);
      return Err(BudgetExceeded);
    }
    while selectedStart > 0
      invariant 0 <= selectedStart <= HotStart(b, turns)
      invariant removed == Flatten(turns[..selectedStart])
      invariant digest == if removed == [] then None else Some(Digest(env, removed, true))
      invariant Candidate(env, prefix, turns, selectedStart) == Ok(kept) && keptUnits == Units(env, kept)
      invariant Grow(env, limit, prefix, turns, HotStart(b, turns)) == Grow(env, limit, prefix, turns, selectedStart)
    {
      var candidateStart := selectedStart - 1;
      var candidateRemoved := Flatten(turns[..candidateStart]);
      CandidateShape(env, history, turns, candidateStart);
      GrowStep(env, limit, prefix, turns, selectedStart);
      var candidate := WireHistory(env, prefix + MarkerFor(env, candidateRemoved) + Flatten(turns[candidateStart..]));
      var candidateUnits := Measure(env, candidate.value);
      if candidateUnits > limit {
        break;
      }
      selectedStart, removed := candidateStart, candidateRemoved;
      digest := if removed == [] then None else Some(Digest(env, removed, true));
      kept, keptUnits := candidate.value, candidateUnits;
    }
    if selectedStart == 0 {
      GrowStep(env, limit, prefix, turns, 0);
    }
    CompactResult(env, b, history, n, wire, turns, selectedStart);
    if removed == [] {
      kept, keptUnits, digest := wireHistory.value, wireUnits, None;
    }
    r := Ok(Projection(kept, originalUnits, keptUnits, |removed|, digest));
  }
}
