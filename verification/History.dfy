/** Cutting a history into tool-complete atoms, and the wire form of a history. */
module History {
  import opened Wrappers
  import opened Messages
  import opened Rejection

  datatype StructureError =
    | OrphanToolResult | CallsNotAssistant | ForeignCall | RejectionMismatch | IncompleteCall | InvalidCallId
    | DuplicateCallId | ResultMismatch | ResultNameMismatch | GroupIncomplete
    | ProtectedNotData | ProtectedNotContiguous

  /** How many tool results a history begins with. */
  function LeadingTools(ms: seq<Message>): (n: nat)
    ensures n <= |ms|
    ensures forall i :: 0 <= i < n ==> ms[i].role.Tool?
    ensures n < |ms| ==> !ms[n].role.Tool?
  {
    if ms == [] || !ms[0].role.Tool? then 0 else 1 + LeadingTools(ms[1..])
  }

  predicate StartsWithTool(ms: seq<Message>) {
    ms != [] && ms[0].role.Tool?
  }

  // ----- One segment: a message and the tool results right after it -----

  function CallId(c: CallItem): string
    requires c.Call?
  {
    if c.id.Some? then c.id.value else ""
  }

  predicate DistinctIds(calls: seq<CallItem>)
    requires AllCalls(calls)
  {
    forall i, j :: 0 <= i < j < |calls| ==> CallId(calls[i]) != CallId(calls[j])
  }

  function Ids(calls: seq<CallItem>): set<string>
    requires AllCalls(calls)
  {
    set i | 0 <= i < |calls| :: CallId(calls[i])
  }

  /** The first call with the given id. */
  function CallNamed(calls: seq<CallItem>, id: string): (c: CallItem)
    requires AllCalls(calls) && id in Ids(calls)
    ensures c in calls && c.Call? && CallId(c) == id
  {
    if CallId(calls[0]) == id then calls[0] else CallNamed(calls[1..], id)
  }

  /** Does one more result fit its call, given the ids already answered? */
  function CheckResult(calls: seq<CallItem>, result: Message, seen: set<string>): Option<StructureError>
    requires AllCalls(calls)
  {
    if result.toolCallId.None? || result.toolCallId.value !in Ids(calls) || result.toolCallId.value in seen then
      Some(ResultMismatch)
    else if result.toolName.Some? && result.toolName != CallNamed(calls, result.toolCallId.value).name then
      Some(ResultNameMismatch)
    else None
  }

  function CheckResults(calls: seq<CallItem>, results: seq<Message>, seen: set<string>): Option<StructureError>
    requires AllCalls(calls)
    decreases |results|
  {
    if results == [] then
      if seen == Ids(calls) then None else Some(GroupIncomplete)
    else if CheckResult(calls, results[0], seen).Some? then CheckResult(calls, results[0], seen)
    else CheckResults(calls, results[1..], seen + {results[0].toolCallId.value})
  }

  predicate AnyStructuralCode(results: seq<Message>) {
    exists i :: 0 <= i < |results| && StructuralCode(results[i].errorCode)
  }

  /** The calls of a group that is about to be replayed: complete, with unique non-empty ids. */
  function CheckCalls(calls: seq<CallItem>): Option<StructureError>
    requires AllCalls(calls)
  {
    if exists i :: 0 <= i < |calls| && !calls[i].complete then Some(IncompleteCall)
    else if exists i :: 0 <= i < |calls| && CallId(calls[i]) == "" then Some(InvalidCallId)
    else if !DistinctIds(calls) then Some(DuplicateCallId)
    else None
  }

  /** The verdict on a message followed by exactly these tool results. */
  function CheckSegment(head: Message, results: seq<Message>): Option<StructureError> {
    if head.toolCalls == [] then
      if Recognised(head, results) || results == [] then None else Some(OrphanToolResult)
    else if !head.role.Assistant? then Some(CallsNotAssistant)
    else if !AllCalls(head.toolCalls) then Some(ForeignCall)
    else if Recognised(head, results) then None
    else if AnyStructuralCode(results) then Some(RejectionMismatch)
    else if CheckCalls(head.toolCalls).Some? then CheckCalls(head.toolCalls)
    else CheckResults(head.toolCalls, results, {})
  }

  // ----- Atoms -----

  type Groups = seq<seq<Message>>

  predicate NoneEmpty(groups: Groups) {
    forall i :: 0 <= i < |groups| ==> groups[i] != []
  }

  /** The size of the first segment: its head and the tool results after it. */
  function SegmentSize(ms: seq<Message>): (n: nat)
    requires ms != []
    ensures 1 <= n <= |ms|
  {
    1 + LeadingTools(ms[1..])
  }

  /** A history cut right before each message that is not a tool result. */
  function Segments(ms: seq<Message>): (r: Groups)
    ensures NoneEmpty(r)
  {
    if ms == [] then [] else [ms[..SegmentSize(ms)]] + Segments(ms[SegmentSize(ms)..])
  }

  /** The first structural error, segment by segment. */
  function FirstError(ms: seq<Message>): Option<StructureError> {
    if ms == [] then None
    else if ms[0].role.Tool? then Some(OrphanToolResult)
    else
      var n := SegmentSize(ms);
      var here := CheckSegment(ms[0], ms[1..n]);
      if here.Some? then here else FirstError(ms[n..])
  }

  /** Atoms exist exactly when no segment is in error, and are then the segments. */
  function AtomsOf(ms: seq<Message>): Result<Groups, StructureError> {
    match FirstError(ms)
    case Some(e) => Err(e)
    case None => Ok(Segments(ms))
  }

  function Prepend(done: Groups, rest: Result<Groups, StructureError>): Result<Groups, StructureError> {
    match rest
    case Err(e) => Err(e)
    case Ok(groups) => Ok(done + groups)
  }

  /** The end of the run of tool results starting at `from`. */
  method ToolRunEnd(ms: seq<Message>, from: nat) returns (end: nat)
    requires from <= |ms|
    ensures end == from + LeadingTools(ms[from..])
  {
    end := from;
    while end < |ms| && ms[end].role.Tool?
      invariant from <= end <= |ms|
      invariant end + LeadingTools(ms[end..]) == from + LeadingTools(ms[from..])
    {
      assert ms[end..][1..] == ms[end + 1..];
      end := end + 1;
    }
  }

  /** One step of the cut: how the atoms of a suffix follow from its first segment. */
  lemma AtomsStep(ms: seq<Message>, index: nat, end: nat)
    requires index < |ms| && !ms[index].role.Tool?
    requires end == index + 1 + LeadingTools(ms[index + 1..])
    ensures end <= |ms|
    ensures var here := CheckSegment(ms[index], ms[index + 1..end]);
      AtomsOf(ms[index..]) == if here.Some? then Err(here.value) else Prepend([ms[index..end]], AtomsOf(ms[end..]))
  {
    hide CheckSegment;
    var rest := ms[index..];
    assert rest[1..] == ms[index + 1..];
    assert rest[..end - index] == ms[index..end];
    assert rest[1..end - index] == ms[index + 1..end];
    assert rest[end - index..] == ms[end..];
  }

  lemma PrependPrepend(done: Groups, g: seq<Message>, rest: Result<Groups, StructureError>)
    ensures Prepend(done, Prepend([g], rest)) == Prepend(done + [g], rest)
  {
    if rest.Ok? {
      assert done + ([g] + rest.value) == (done + [g]) + rest.value;
    }
  }

  /** The two ends of the cut: nothing is left, or a tool result has no call before it. */
  lemma AtomsEnd(ms: seq<Message>)
    ensures ms == [] ==> AtomsOf(ms) == Ok([])
    ensures StartsWithTool(ms) ==> AtomsOf(ms) == Err(OrphanToolResult)
    ensures Prepend([], AtomsOf(ms)) == AtomsOf(ms)
  {
    assert AtomsOf(ms).Ok? ==> [] + AtomsOf(ms).value == AtomsOf(ms).value;
  }

  method Atoms(env: Env, ms: seq<Message>) returns (r: Result<Groups, StructureError>)
    ensures r == AtomsOf(ms)
  {
    hide Recognised, Rewrite, CheckCalls, CheckResults, AtomsOf, FirstError, Segments;
    var atoms: Groups := [];
    var index := 0;
    assert ms[0..] == ms;
    AtomsEnd(ms);
    while index < |ms|
      invariant 0 <= index <= |ms|
      invariant AtomsOf(ms) == Prepend(atoms, AtomsOf(ms[index..]))
    {
      var message := ms[index];
      AtomsEnd(ms[index..]);
      if message.role.Tool? {
        return Err(OrphanToolResult);
      }
      var end := ToolRunEnd(ms, index + 1);
      AtomsStep(ms, index, end);
      PrependPrepend(atoms, ms[index..end], AtomsOf(ms[end..]));
      var results := ms[index + 1..end];
      if message.toolCalls == [] {
        var normalized := NormalizeRejectionAtom(env, message, results);
        if normalized.Some? {
          atoms := atoms + [ms[index..end]];
          index := end;
          continue;
        }
        if results != [] {
          // The message stands alone; the next iteration meets the orphan result.
          AtomsEnd(ms[index + 1..]);
        }
        atoms := atoms + [[message]];
        index := index + 1;
        assert ms[index - 1..index] == [message];
        continue;
      }
      if !message.role.Assistant? {
        return Err(CallsNotAssistant);
      }
      if !AllCalls(message.toolCalls) {
        return Err(ForeignCall);
      }
      var normalized := NormalizeRejectionAtom(env, message, results);
      if normalized.Some? {
        atoms := atoms + [ms[index..end]];
        index := end;
        continue;
      }
      if AnyStructuralCode(results) {
        return Err(RejectionMismatch);
      }
      var invalid := CheckCalls(message.toolCalls);
      if invalid.Some? {
        return Err(invalid.value);
      }
      var verdict := CheckGroup(message, results);
      if verdict.Some? {
        return Err(verdict.value);
      }
      atoms := atoms + [ms[index..end]];
      index := end;
    }
    AtomsEnd(ms[index..]);
    assert ms[index..] == [] && atoms + [] == atoms;
    r := Ok(atoms);
  }

  /** The result loop of a complete group. */
  method CheckGroup(message: Message, results: seq<Message>) returns (r: Option<StructureError>)
    requires AllCalls(message.toolCalls)
    ensures r == CheckResults(message.toolCalls, results, {})
  {
    var calls := message.toolCalls;
    var seen: set<string> := {};
    var k := 0;
    while k < |results|
      invariant 0 <= k <= |results|
      invariant CheckResults(calls, results, {}) == CheckResults(calls, results[k..], seen)
    {
      assert results[k..][1..] == results[k + 1..];
      var mismatch := CheckResult(calls, results[k], seen);
      if mismatch.Some? {
        return mismatch;
      }
      seen := seen + {results[k].toolCallId.value};
      k := k + 1;
    }
    r := if seen != Ids(calls) then Some(GroupIncomplete) else None;
  }

  // ----- Laws of the cut -----

  lemma {:induction false} LeadingToolsConcat(a: seq<Message>, b: seq<Message>)
    requires !StartsWithTool(b)
    ensures LeadingTools(a + b) == LeadingTools(a)
  {
    if a == [] {
      assert a + b == b;
    } else {
      LeadingToolsConcat(a[1..], b);
      assert (a + b)[1..] == a[1..] + b;
    }
  }

  lemma FirstSegmentOfConcat(a: seq<Message>, b: seq<Message>)
    requires a != [] && !StartsWithTool(b)
    ensures var n := SegmentSize(a);
      SegmentSize(a + b) == n && (a + b)[..n] == a[..n] && (a + b)[1..n] == a[1..n] && (a + b)[n..] == a[n..] + b
  {
    LeadingToolsConcat(a[1..], b);
    assert (a + b)[1..] == a[1..] + b;
  }

  lemma {:induction false} SegmentsConcat(a: seq<Message>, b: seq<Message>)
    requires !StartsWithTool(b)
    ensures Segments(a + b) == Segments(a) + Segments(b)
    decreases |a|
  {
    if a == [] {
      assert a + b == b;
    } else {
      FirstSegmentOfConcat(a, b);
      SegmentsConcat(a[SegmentSize(a)..], b);
    }
  }

  lemma {:induction false} FirstErrorConcat(a: seq<Message>, b: seq<Message>)
    requires !StartsWithTool(b)
    ensures FirstError(a + b) == if FirstError(a).Some? then FirstError(a) else FirstError(b)
    decreases |a|
  {
    if a == [] {
      assert a + b == b;
    } else {
      FirstSegmentOfConcat(a, b);
      FirstErrorConcat(a[SegmentSize(a)..], b);
    }
  }

  /** Atoms distribute over concatenation when the right part does not start with a tool result:
      the left part's error wins, then the right part's. */
  lemma AtomsConcat(a: seq<Message>, b: seq<Message>)
    requires !StartsWithTool(b)
    ensures AtomsOf(a + b) == if AtomsOf(a).Err? then AtomsOf(a) else Prepend(AtomsOf(a).value, AtomsOf(b))
  {
    SegmentsConcat(a, b);
    FirstErrorConcat(a, b);
  }

  lemma {:induction false} SegmentsFlatten(ms: seq<Message>)
    ensures Flatten(Segments(ms)) == ms
    decreases |ms|
  {
    hide SegmentSize, LeadingTools;
    if ms != [] {
      var n := SegmentSize(ms);
      SegmentsFlatten(ms[n..]);
      FlattenCons(ms[..n], Segments(ms[n..]));
    }
  }

  /** A sequence of messages that is a single segment. */
  predicate IsSegment(s: seq<Message>) {
    s != [] && !s[0].role.Tool? && forall i :: 1 <= i < |s| ==> s[i].role.Tool?
  }

  /** Accepted histories are cut exactly before each non-tool message. */
  lemma {:induction false} AtomsAreSegments(ms: seq<Message>)
    requires AtomsOf(ms).Ok?
    ensures forall g :: g in AtomsOf(ms).value ==> IsSegment(g) && CheckSegment(g[0], g[1..]).None?
    ensures Flatten(AtomsOf(ms).value) == ms
    decreases |ms|
  {
    SegmentsFlatten(ms);
    if ms != [] {
      var n := SegmentSize(ms);
      AtomsAreSegments(ms[n..]);
      assert ms[..n][1..] == ms[1..n];
    }
  }

  lemma SingleSegment(s: seq<Message>)
    requires IsSegment(s)
    ensures Segments(s) == [s]
    ensures FirstError(s) == CheckSegment(s[0], s[1..])
  {
    assert SegmentSize(s) == |s|;
    assert s[1..|s|] == s[1..] && s[..|s|] == s;
    var rest := s[|s|..];
    assert Segments(rest) == [] && FirstError(rest).None?;
  }

  // ----- The wire form -----

  function WireAtom(env: Env, atom: seq<Message>): seq<Message>
    requires atom != []
  {
    match NormalizedRejection(env, atom[0], atom[1..])
    case Some(rewritten) => rewritten
    case None => atom
  }

  function WireAtoms(env: Env, atoms: Groups): seq<Message>
    requires NoneEmpty(atoms)
  {
    if atoms == [] then [] else WireAtom(env, atoms[0]) + WireAtoms(env, atoms[1..])
  }

  function Wire(env: Env, ms: seq<Message>): Result<seq<Message>, StructureError> {
    match FirstError(ms)
    case Some(e) => Err(e)
    case None => Ok(WireAtoms(env, Segments(ms)))
  }

  lemma WireAtomsStep(env: Env, atoms: Groups, k: nat)
    requires NoneEmpty(atoms) && k < |atoms|
    ensures WireAtoms(env, atoms[k..]) == WireAtom(env, atoms[k]) + WireAtoms(env, atoms[k + 1..])
  {
    assert atoms[k..][1..] == atoms[k + 1..];
  }

  lemma WireAtomsNone(env: Env)
    ensures WireAtoms(env, []) == []
  {
  }

  method WireHistory(env: Env, ms: seq<Message>) returns (r: Result<seq<Message>, StructureError>)
    ensures r == Wire(env, ms)
  {
    hide Recognised, Rewrite, FirstError, Segments, WireAtoms;
    WireAtomsNone(env);
    var cut := Atoms(env, ms);
    if cut.Err? {
      return Err(cut.error);
    }
    var atoms := cut.value;
    var projected: seq<Message> := [];
    var k := 0;
    assert atoms[0..] == atoms && [] + WireAtoms(env, atoms) == WireAtoms(env, atoms);
    while k < |atoms|
      invariant 0 <= k <= |atoms|
      invariant WireAtoms(env, atoms) == projected + WireAtoms(env, atoms[k..])
    {
      WireAtomsStep(env, atoms, k);
      var normalized := NormalizeRejectionAtom(env, atoms[k][0], atoms[k][1..]);
      var wired := if normalized.Some? then normalized.value else atoms[k];
      assert projected + (wired + WireAtoms(env, atoms[k + 1..]))
        == (projected + wired) + WireAtoms(env, atoms[k + 1..]);
      projected := projected + wired;
      k := k + 1;
    }
    assert atoms[k..] == [] && projected + [] == projected;
    r := Ok(projected);
  }

  lemma {:induction false} WireAtomsConcat(env: Env, a: Groups, b: Groups)
    requires NoneEmpty(a) && NoneEmpty(b)
    ensures WireAtoms(env, a + b) == WireAtoms(env, a) + WireAtoms(env, b)
  {
    if a == [] {
      assert a + b == b;
    } else {
      assert (a + b)[1..] == a[1..] + b;
      WireAtomsConcat(env, a[1..], b);
    }
  }

  /** The wire form distributes over concatenation, errors included. */
  lemma WireConcat(env: Env, a: seq<Message>, b: seq<Message>)
    requires !StartsWithTool(b)
    ensures Wire(env, a + b) ==
      if Wire(env, a).Err? then Wire(env, a)
      else if Wire(env, b).Err? then Wire(env, b)
      else Ok(Wire(env, a).value + Wire(env, b).value)
  {
    SegmentsConcat(a, b);
    FirstErrorConcat(a, b);
    WireAtomsConcat(env, Segments(a), Segments(b));
  }

  lemma WireOne(env: Env, s: seq<Message>)
    requires s != []
    ensures WireAtoms(env, [s]) == WireAtom(env, s)
  {
    assert WireAtoms(env, [s]) == WireAtom(env, s) + WireAtoms(env, []);
  }

  /** A message without calls is its own wire form. */
  lemma WirePlain(env: Env, m: Message)
    requires !m.role.Tool? && m.toolCalls == []
    ensures Wire(env, [m]) == Ok([m])
  {
    SingleSegment([m]);
    assert [m][1..] == [];
    WireOne(env, [m]);
  }

  lemma {:induction false} WireAllPlain(env: Env, ms: seq<Message>)
    requires forall i :: 0 <= i < |ms| ==> !ms[i].role.Tool? && ms[i].toolCalls == []
    ensures Wire(env, ms) == Ok(ms)
  {
    if ms != [] {
      WirePlain(env, ms[0]);
      WireAllPlain(env, ms[1..]);
      WireConcat(env, [ms[0]], ms[1..]);
      assert [ms[0]] + ms[1..] == ms;
    }
  }

  /** The wire form of one accepted segment is a fixed point of the wire form. */
  lemma WireSegmentFixed(env: Env, s: seq<Message>)
    requires IsSegment(s) && CheckSegment(s[0], s[1..]).None?
    ensures Wire(env, s) == Ok(WireAtom(env, s))
    ensures WireAtom(env, s) != [] && !StartsWithTool(WireAtom(env, s))
    ensures Wire(env, WireAtom(env, s)) == Ok(WireAtom(env, s))
  {
    SingleSegment(s);
    WireOne(env, s);
    if Recognised(s[0], s[1..]) {
      WireAllPlain(env, WireAtom(env, s));
    }
  }

  /** Splits an accepted history after its first segment. */
  lemma WireFirstSegment(env: Env, ms: seq<Message>)
    requires ms != [] && Wire(env, ms).Ok?
    ensures var n := SegmentSize(ms);
      && IsSegment(ms[..n]) && CheckSegment(ms[0], ms[1..n]).None?
      && !StartsWithTool(ms[n..])
      && Wire(env, ms[n..]).Ok?
      && Wire(env, ms).value == WireAtom(env, ms[..n]) + Wire(env, ms[n..]).value
  {
    var n := SegmentSize(ms);
    assert ms[..n][1..] == ms[1..n];
    assert Segments(ms)[0..] == Segments(ms) && Segments(ms)[1..] == Segments(ms[n..]);
    WireAtomsStep(env, Segments(ms), 0);
    assert FirstError(ms[n..]).None?;
  }

  lemma {:induction false} WireStartsWithoutTool(env: Env, ms: seq<Message>)
    requires Wire(env, ms).Ok?
    ensures !StartsWithTool(Wire(env, ms).value)
  {
    if ms != [] {
      WireFirstSegment(env, ms);
      WireSegmentFixed(env, ms[..SegmentSize(ms)]);
    }
  }

  /** Projecting to the wire twice is projecting once. */
  lemma {:induction false} WireIdempotent(env: Env, ms: seq<Message>)
    requires Wire(env, ms).Ok?
    ensures Wire(env, Wire(env, ms).value) == Wire(env, ms)
    decreases |ms|
  {
    if ms != [] {
      WireFirstSegment(env, ms);
      var n := SegmentSize(ms);
      WireSegmentFixed(env, ms[..n]);
      WireIdempotent(env, ms[n..]);
      WireStartsWithoutTool(env, ms[n..]);
      WireConcat(env, WireAtom(env, ms[..n]), Wire(env, ms[n..]).value);
    }
  }

  // ----- What the wire form guarantees -----

  /** A call group a provider can replay: complete calls with unique non-empty ids, and the
      results answer each of those ids exactly once, under the right name. */
  predicate ReplayableGroup(head: Message, results: seq<Message>) {
    && head.role.Assistant?
    && AllCalls(head.toolCalls)
    && (forall i :: 0 <= i < |head.toolCalls| ==> head.toolCalls[i].complete && CallId(head.toolCalls[i]) != "")
    && DistinctIds(head.toolCalls)
    && (forall k :: 0 <= k < |results| ==> AnswersSome(head.toolCalls, results[k]))
    && (forall j, k :: 0 <= j < k < |results| ==> results[j].toolCallId != results[k].toolCallId)
    && (forall i :: 0 <= i < |head.toolCalls| ==> AnsweredBySome(head.toolCalls[i], results))
    && !AnyStructuralCode(results)
  }

  predicate AnswersCall(result: Message, c: CallItem) {
    c.Call? && c.id == result.toolCallId && (result.toolName.None? || result.toolName == c.name)
  }

  predicate AnswersSome(calls: seq<CallItem>, result: Message) {
    && result.toolCallId.Some?
    && exists c :: c in calls && AnswersCall(result, c)
  }

  predicate AnsweredBySome(c: CallItem, results: seq<Message>)
    requires c.Call?
  {
    exists k :: 0 <= k < |results| && results[k].toolCallId == c.id
  }

  predicate Replayable(s: seq<Message>) {
    IsSegment(s) && (if s[0].toolCalls == [] then |s| == 1 else ReplayableGroup(s[0], s[1..]))
  }

  lemma {:induction false} CheckedResults(calls: seq<CallItem>, results: seq<Message>, seen: set<string>)
    requires AllCalls(calls) && CheckResults(calls, results, seen).None?
    requires forall i :: 0 <= i < |calls| ==> CallId(calls[i]) != ""
    ensures forall k :: 0 <= k < |results| ==> AnswersSome(calls, results[k]) && results[k].toolCallId.value !in seen
    ensures forall j, k :: 0 <= j < k < |results| ==> results[j].toolCallId != results[k].toolCallId
    ensures forall i :: 0 <= i < |calls| ==> CallId(calls[i]) in seen || AnsweredBySome(calls[i], results)
    decreases |results|
  {
    hide AnswersSome, AnsweredBySome;
    if results == [] {
      forall i | 0 <= i < |calls| ensures CallId(calls[i]) in seen {
        assert CallId(calls[i]) in Ids(calls);
      }
    } else {
      PassedAnswers(calls, results[0], seen);
      hide CheckResult, Ids;
      var id, rest := results[0].toolCallId.value, results[1..];
      CheckedResults(calls, rest, seen + {id});
      assert forall k :: 0 < k < |results| ==> results[k] == rest[k - 1];
      forall i | 0 <= i < |calls| && CallId(calls[i]) !in seen
        ensures AnsweredBySome(calls[i], results)
      {
        AnsweredCons(calls[i], results);
      }
    }
  }

  lemma PassedAnswers(calls: seq<CallItem>, result: Message, seen: set<string>)
    requires AllCalls(calls) && CheckResult(calls, result, seen).None?
    requires forall i :: 0 <= i < |calls| ==> CallId(calls[i]) != ""
    ensures AnswersSome(calls, result) && result.toolCallId.value !in seen
  {
    var c := CallNamed(calls, result.toolCallId.value);
    assert c.id == result.toolCallId;
  }

  lemma AnsweredCons(c: CallItem, results: seq<Message>)
    requires c.Call? && results != []
    ensures AnsweredBySome(c, results) <==> results[0].toolCallId == c.id || AnsweredBySome(c, results[1..])
  {
    assert forall k :: 0 < k < |results| ==> results[k] == results[1..][k - 1];
    assert forall k :: 0 <= k < |results[1..]| ==> results[1..][k] == results[k + 1];
  }

  lemma WireSegmentReplayable(env: Env, s: seq<Message>)
    requires IsSegment(s) && CheckSegment(s[0], s[1..]).None?
    ensures forall g :: g in Segments(WireAtom(env, s)) ==> Replayable(g)
  {
    hide Recognised, CheckSegment, Replayable;
    SegmentAcceptedExactly(s);
    if Recognised(s[0], s[1..]) {
      RewriteReplayable(env, s[0], s[1..]);
    } else {
      SingleSegment(s);
      assert Segments(WireAtom(env, s)) == [s];
    }
  }

  lemma RewriteReplayable(env: Env, head: Message, results: seq<Message>)
    ensures forall g :: g in Segments(Rewrite(env, head, results)) ==> Replayable(g)
  {
    var w := Rewrite(env, head, results);
    assert w == [w[0]] + [w[1]];
    hide Rewrite;
    SingleSegment([w[0]]);
    SingleSegment([w[1]]);
    SegmentsConcat([w[0]], [w[1]]);
  }

  /** Every segment of a wire history is plain text or a complete, replayable call group. */
  lemma {:induction false} WireIsReplayable(env: Env, ms: seq<Message>)
    requires Wire(env, ms).Ok?
    ensures forall g :: g in Segments(Wire(env, ms).value) ==> Replayable(g)
    decreases |ms|
  {
    if ms != [] {
      WireFirstSegment(env, ms);
      var n := SegmentSize(ms);
      WireSegmentReplayable(env, ms[..n]);
      WireSegmentFixed(env, ms[..n]);
      WireIsReplayable(env, ms[n..]);
      WireStartsWithoutTool(env, ms[n..]);
      WireIdempotent(env, ms[n..]);
      SegmentsConcat(WireAtom(env, ms[..n]), Wire(env, ms[n..]).value);
    }
  }

  // ----- Exactly which histories are accepted -----

  lemma {:induction false} CallNamedIs(calls: seq<CallItem>, c: CallItem)
    requires AllCalls(calls) && DistinctIds(calls) && c in calls
    ensures CallId(c) in Ids(calls) && CallNamed(calls, CallId(c)) == c
  {
    var i :| 0 <= i < |calls| && calls[i] == c;
    assert CallId(calls[i]) in Ids(calls);
    if i > 0 {
      assert calls[1..][i - 1] == c && CallId(calls[0]) != CallId(calls[i]);
      CallNamedIs(calls[1..], c);
    }
  }

  /** Results that answer each call of a group exactly once pass the result check. */
  lemma {:induction false} CompleteResultsPass(calls: seq<CallItem>, results: seq<Message>, seen: set<string>)
    requires AllCalls(calls) && DistinctIds(calls) && seen <= Ids(calls)
    requires forall i :: 0 <= i < |calls| ==> CallId(calls[i]) != ""
    requires forall k :: 0 <= k < |results| ==> AnswersSome(calls, results[k]) && results[k].toolCallId.value !in seen
    requires forall j, k :: 0 <= j < k < |results| ==> results[j].toolCallId != results[k].toolCallId
    requires forall i :: 0 <= i < |calls| ==> CallId(calls[i]) in seen || AnsweredBySome(calls[i], results)
    ensures CheckResults(calls, results, seen).None?
    decreases |results|
  {
    hide AnsweredBySome, DistinctIds;
    if results == [] {
      forall id | id in Ids(calls) ensures id in seen {
        var i :| 0 <= i < |calls| && CallId(calls[i]) == id;
        NotAnsweredByNone(calls[i]);
      }
    } else {
      var id, rest := results[0].toolCallId.value, results[1..];
      ResultPasses(calls, results[0], seen);
      hide CheckResult, AnswersSome;
      assert forall k :: 0 <= k < |rest| ==> rest[k] == results[k + 1];
      forall i | 0 <= i < |calls| ensures CallId(calls[i]) in seen + {id} || AnsweredBySome(calls[i], rest) {
        AnsweredCons(calls[i], results);
      }
      CompleteResultsPass(calls, rest, seen + {id});
    }
  }

  lemma NotAnsweredByNone(c: CallItem)
    requires c.Call?
    ensures !AnsweredBySome(c, [])
  {
  }

  lemma ResultPasses(calls: seq<CallItem>, result: Message, seen: set<string>)
    requires AllCalls(calls) && DistinctIds(calls) && AnswersSome(calls, result) && result.toolCallId.value !in seen
    ensures CheckResult(calls, result, seen).None? && result.toolCallId.value in Ids(calls)
  {
    var c :| c in calls && c.Call? && c.id == result.toolCallId && (result.toolName.None? || result.toolName == c.name);
    CallNamedIs(calls, c);
  }

  /** A segment is accepted exactly when it is a recognised refused turn, or replayable as it stands. */
  lemma SegmentAcceptedExactly(s: seq<Message>)
    requires IsSegment(s)
    ensures CheckSegment(s[0], s[1..]).None? <==> Recognised(s[0], s[1..]) || Replayable(s)
  {
    hide CheckResults, AnswersSome, AnsweredBySome, AnyStructuralCode, DistinctIds;
    var calls, results := s[0].toolCalls, s[1..];
    if Recognised(s[0], results) {
      RecognisedIsAssistant(s[0], results);
    } else if calls != [] && CheckSegment(s[0], results).None? {
      CheckedResults(calls, results, {});
    } else if calls != [] && Replayable(s) {
      CompleteResultsPass(calls, results, {});
    }
  }

  lemma RecognisedIsAssistant(assistant: Message, results: seq<Message>)
    requires Recognised(assistant, results)
    ensures assistant.role.Assistant? && AllCalls(assistant.toolCalls)
  {
  }

  predicate Acceptable(s: seq<Message>) {
    s != [] && (Recognised(s[0], s[1..]) || Replayable(s))
  }

  /** A history is accepted exactly when it does not start with a tool result and each of its segments
      is a recognised refused turn, plain text, or a complete replayable call group. */
  lemma {:induction false} AcceptedExactly(ms: seq<Message>)
    ensures AtomsOf(ms).Ok? <==>
      !StartsWithTool(ms) && forall i :: 0 <= i < |Segments(ms)| ==> Acceptable(Segments(ms)[i])
    decreases |ms|
  {
    hide CheckSegment, Recognised, Replayable, LeadingTools;
    if ms != [] && !StartsWithTool(ms) {
      var n := SegmentSize(ms);
      AcceptedExactly(ms[n..]);
      assert ms[..n][1..] == ms[1..n];
      SegmentAcceptedExactly(ms[..n]);
      SegmentsCons(ms);
      assert n < |ms| ==> ms[n] == ms[1..][n - 1];
      assert !StartsWithTool(ms[n..]);
      var all, rest := Segments(ms), Segments(ms[n..]);
      assert all[0] == ms[..n] && |all| == 1 + |rest|;
      hide Segments, AtomsOf;
      assert (forall i :: 0 <= i < |all| ==> Acceptable(all[i])) <==>
        Acceptable(all[0]) && forall i :: 0 <= i < |rest| ==> Acceptable(rest[i]);
    }
  }

  lemma SegmentsCons(ms: seq<Message>)
    requires ms != []
    ensures var n := SegmentSize(ms);
      && Segments(ms) == [ms[..n]] + Segments(ms[n..])
      && (forall i :: 0 <= i < |Segments(ms[n..])| ==> Segments(ms)[i + 1] == Segments(ms[n..])[i])
      && (forall i :: 0 < i < |Segments(ms)| ==> Segments(ms)[i] == Segments(ms[n..])[i - 1])
  {
    hide SegmentSize;
  }
}
