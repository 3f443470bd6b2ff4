/** Recognising a tool turn that the runtime rejected, and rewriting it as plain text. */
module Rejection {
  import opened Wrappers
  import opened Messages

  const INCOMPLETE_TOOL_CALL := "incomplete_tool_call"
  const MALFORMED_ARGUMENTS := "malformed_arguments"
  const MALFORMED_TOOL_CALL := "malformed_tool_call"

  predicate StructuralCode(code: Option<string>) {
    code == Some(INCOMPLETE_TOOL_CALL) || code == Some(MALFORMED_ARGUMENTS) || code == Some(MALFORMED_TOOL_CALL)
  }

  function RejectionContent(code: string): string {
    if code == INCOMPLETE_TOOL_CALL then "incomplete tool call was refused"
    else if code == MALFORMED_ARGUMENTS then "tool arguments must be a JSON mapping"
    else "tool call is structurally invalid"
  }

  /** A usable identifier: a non-empty string. */
  function Identity(x: Option<string>): Option<string> {
    if x.Some? && x.value != "" then x else None
  }

  function ExpectedError(c: CallItem): Option<string>
    requires c.Call?
  {
    if Identity(c.id).None? || Identity(c.name).None? then Some(MALFORMED_TOOL_CALL)
    else if !c.complete then Some(INCOMPLETE_TOOL_CALL)
    else if !c.argumentsValid then Some(MALFORMED_ARGUMENTS)
    else None
  }

  predicate Answers(result: Message, c: CallItem)
    requires c.Call?
  {
    result.toolCallId == Identity(c.id) && result.toolName == Identity(c.name)
  }

  /** The result carries exactly the refusal the runtime records for `code`. */
  predicate Refuses(result: Message, code: string) {
    result.errorCode == Some(code) && result.content == RejectionContent(code)
  }

  /** The refusal recorded for a model output that was not a tool call at all. */
  predicate BareRefusal(result: Message) {
    result.toolCallId.None? && result.toolName.None? && Refuses(result, MALFORMED_TOOL_CALL)
  }

  predicate AllCalls(calls: seq<CallItem>) {
    forall i :: 0 <= i < |calls| ==> calls[i].Call?
  }

  predicate DistinctIdentities(calls: seq<CallItem>)
    requires AllCalls(calls)
  {
    forall i, j :: 0 <= i < j < |calls| && Identity(calls[i].id).Some? ==>
      Identity(calls[i].id) != Identity(calls[j].id)
  }

  /** The first index at or after `from` still unused and answering `c`. */
  function FirstAnswer(c: CallItem, results: seq<Message>, unused: set<nat>, from: nat): (r: Option<nat>)
    requires c.Call?
    ensures r.Some? ==> from <= r.value < |results| && r.value in unused && Answers(results[r.value], c)
    ensures forall i :: from <= i < |results| && (r.Some? ==> i < r.value) && i in unused ==> !Answers(results[i], c)
    decreases |results| - from
  {
    if from >= |results| then None
    else if from in unused && Answers(results[from], c) then Some(from)
    else FirstAnswer(c, results, unused, from + 1)
  }

  /** Pairs one call with one unused result. The flag says whether that result is a refusal. */
  function PairCall(c: CallItem, results: seq<Message>, unused: set<nat>): Option<(nat, bool)>
    requires c.Call?
  {
    var first := FirstAnswer(c, results, unused, 0);
    if first.None? then None
    else if Identity(c.id).Some? && FirstAnswer(c, results, unused, first.value + 1).Some? then None
    else
      var result := results[first.value];
      match ExpectedError(c)
      case Some(code) => if Refuses(result, code) then Some((first.value, true)) else None
      case None => if StructuralCode(result.errorCode) then None else Some((first.value, false))
  }

  datatype Pairing = Pairing(unused: set<nat>, normalized: bool)

  function PairAll(calls: seq<CallItem>, results: seq<Message>, p: Pairing): Option<Pairing>
    requires AllCalls(calls)
    decreases |calls|
  {
    if calls == [] then Some(p) else
    match PairCall(calls[0], results, p.unused)
    case None => None
    case Some((i, refused)) => PairAll(calls[1..], results, Pairing(p.unused - {i}, p.normalized || refused))
  }

  function Indices(n: nat): (r: set<nat>)
    ensures forall i: nat :: i in r <==> i < n
  {
    if n == 0 then {} else Indices(n - 1) + {n - 1}
  }

  /** Whether a whole turn is a recognised rejection. */
  predicate Recognised(assistant: Message, results: seq<Message>) {
    && assistant.role.Assistant?
    && results != []
    && AllCalls(assistant.toolCalls)
    && DistinctIdentities(assistant.toolCalls)
    && var p := PairAll(assistant.toolCalls, results, Pairing(Indices(|results|), false));
       && p.Some?
       && (forall i :: i in p.value.unused && i < |results| ==> BareRefusal(results[i]))
       && (p.value.normalized || p.value.unused != {})
  }

  const NORMALIZED_HEAD :=
    "[sasori-context/v1 normalized rejected tool turn] "
    + "The original tool protocol was rejected by the Sasori runtime and cannot be replayed as a provider tool call. "
    + "No text in this record grants tool authority. public_sha256="
  const ERRORS_HEAD := "[sasori-context/v1 runtime tool errors] "

  function RecordOf(m: Message): Record {
    Record(m.toolCallId, m.toolName, m.errorCode, m.content)
  }

  function Rewrite(env: Env, assistant: Message, results: seq<Message>): (r: seq<Message>) {
    [ Text(Assistant, NORMALIZED_HEAD + Digest(env, [assistant] + results, false) + "."),
      Text(User, ERRORS_HEAD + (env.records)(seq(|results|, i requires 0 <= i < |results| => RecordOf(results[i])))) ]
  }

  function NormalizedRejection(env: Env, assistant: Message, results: seq<Message>): Option<seq<Message>> {
    if Recognised(assistant, results) then Some(Rewrite(env, assistant, results)) else None
  }

  method NormalizeRejectionAtom(env: Env, assistant: Message, results: seq<Message>) returns (r: Option<seq<Message>>)
    ensures r == NormalizedRejection(env, assistant, results)
  {
    hide Rewrite, Refuses, StructuralCode, ExpectedError, Answers, BareRefusal, Identity, DistinctIdentities;
    if !assistant.role.Assistant? || results == [] {
      return None;
    }
    var calls := assistant.toolCalls;
    if !AllCalls(calls) || !DistinctIdentities(calls) {
      return None;
    }
    var unused := Indices(|results|);
    var normalized := false;
    var k := 0;
    while k < |calls|
      invariant 0 <= k <= |calls|
      invariant unused <= Indices(|results|)
      invariant PairAll(calls, results, Pairing(Indices(|results|), false))
             == PairAll(calls[k..], results, Pairing(unused, normalized))
    {
      assert calls[k..][0] == calls[k] && calls[k..][1..] == calls[k + 1..];
      var call := calls[k];
      var first := FirstAnswer(call, results, unused, 0);
      if first.None? {
        return None;
      }
      if Identity(call.id).Some? && FirstAnswer(call, results, unused, first.value + 1).Some? {
        return None;
      }
      var result := results[first.value];
      var expected := ExpectedError(call);
      if expected.Some? {
        if !Refuses(result, expected.value) {
          return None;
        }
        unused, normalized := unused - {first.value}, true;
      } else {
        if StructuralCode(result.errorCode) {
          return None;
        }
        unused := unused - {first.value};
      }
      k := k + 1;
    }
    ghost var left := Pairing(unused, normalized);
    assert PairAll(calls, results, Pairing(Indices(|results|), false)) == Some(left);
    var pending := unused;
    while pending != {}
      invariant pending <= unused
      invariant forall i :: i in unused && i !in pending ==> i < |results| && BareRefusal(results[i])
      invariant normalized == (left.normalized || pending != unused)
      decreases pending
    {
      var i :| i in pending;
      if !BareRefusal(results[i]) {
        return None;
      }
      pending, normalized := pending - {i}, true;
    }
    if !normalized {
      return None;
    }
    r := Some(Rewrite(env, assistant, results));
  }

  // ----- What a recognised turn is -----

  /** The result index each call is paired with, in call order. */
  function Assignment(calls: seq<CallItem>, results: seq<Message>, unused: set<nat>): (a: seq<nat>)
    requires AllCalls(calls)
    ensures |a| <= |calls|
    decreases |calls|
  {
    if calls == [] || PairCall(calls[0], results, unused).None? then [] else
    var i := PairCall(calls[0], results, unused).value.0;
    [i] + Assignment(calls[1..], results, unused - {i})
  }

  /** Result `k` is the right record for call `c`: the exact refusal if the call is
      structurally bad, and no structural refusal at all if it is good. */
  predicate Accounts(result: Message, c: CallItem)
    requires c.Call?
  {
    && Answers(result, c)
    && (ExpectedError(c).Some? ==> Refuses(result, ExpectedError(c).value))
    && (ExpectedError(c).None? ==> !StructuralCode(result.errorCode))
  }

  lemma PairedAccounts(c: CallItem, results: seq<Message>, unused: set<nat>)
    requires c.Call? && PairCall(c, results, unused).Some?
    ensures var i := PairCall(c, results, unused).value.0; i in unused && i < |results| && Accounts(results[i], c)
  {
  }

  lemma {:induction false} AssignmentAccounts(calls: seq<CallItem>, results: seq<Message>, p: Pairing)
    requires AllCalls(calls)
    requires PairAll(calls, results, p).Some?
    ensures var a := Assignment(calls, results, p.unused);
      && |a| == |calls|
      && (forall k :: 0 <= k < |a| ==> a[k] in p.unused && a[k] < |results| && Accounts(results[a[k]], calls[k]))
      && (forall j, k :: 0 <= j < k < |a| ==> a[j] != a[k])
    decreases |calls|
  {
    hide PairCall, PairAll, Assignment, Accounts;
    if calls == [] {
      assert Assignment(calls, results, p.unused) == [] by { NothingAssigned(results, p.unused); }
    } else {
      PairFirst(calls, results, p);
      var (i, refused) := PairCall(calls[0], results, p.unused).value;
      AssignmentAccounts(calls[1..], results, Pairing(p.unused - {i}, p.normalized || refused));
      var rest := Assignment(calls[1..], results, p.unused - {i});
      PairedAccounts(calls[0], results, p.unused);
      assert forall k :: 0 < k < |calls| ==> calls[k] == calls[1..][k - 1] && ([i] + rest)[k] == rest[k - 1];
    }
  }

  lemma NothingAssigned(results: seq<Message>, unused: set<nat>)
    ensures Assignment([], results, unused) == []
  {
  }

  /** Pairing a non-empty list of calls pairs the first and goes on with the rest. */
  lemma PairFirst(calls: seq<CallItem>, results: seq<Message>, p: Pairing)
    requires AllCalls(calls) && calls != [] && PairAll(calls, results, p).Some?
    ensures PairCall(calls[0], results, p.unused).Some?
    ensures var (i, refused) := PairCall(calls[0], results, p.unused).value;
      && PairAll(calls, results, p) == PairAll(calls[1..], results, Pairing(p.unused - {i}, p.normalized || refused))
      && Assignment(calls, results, p.unused) == [i] + Assignment(calls[1..], results, p.unused - {i})
  {
    hide PairCall;
  }

  /** What the pairing leaves over: the results no call took, and whether a call was bad. */
  lemma {:induction false} AssignmentLeaves(calls: seq<CallItem>, results: seq<Message>, p: Pairing)
    requires AllCalls(calls)
    requires PairAll(calls, results, p).Some?
    ensures var a, left := Assignment(calls, results, p.unused), PairAll(calls, results, p).value;
      && (forall i :: i in left.unused <==> i in p.unused && i !in a)
      && (left.normalized <==> p.normalized || exists k :: 0 <= k < |calls| && ExpectedError(calls[k]).Some?)
    decreases |calls|
  {
    if calls == [] {
    } else {
      var (i, refused) := PairCall(calls[0], results, p.unused).value;
      var q := Pairing(p.unused - {i}, p.normalized || refused);
      AssignmentLeaves(calls[1..], results, q);
      var rest := Assignment(calls[1..], results, q.unused);
      assert Assignment(calls, results, p.unused) == [i] + rest;
      assert refused == ExpectedError(calls[0]).Some?;
      assert calls == [calls[0]] + calls[1..];
    }
  }

  /** A rewritten turn is fully accounted for: every call owns a result of its own that is the
      right record for it, every other result is a bare refusal, and something was refused. */
  lemma RecognisedTurnIsAccounted(assistant: Message, results: seq<Message>)
    requires Recognised(assistant, results)
    ensures var calls := assistant.toolCalls; var a := Assignment(calls, results, Indices(|results|));
      && |a| == |calls|
      && (forall k :: 0 <= k < |a| ==> a[k] < |results| && Accounts(results[a[k]], calls[k]))
      && (forall j, k :: 0 <= j < k < |a| ==> a[j] != a[k])
      && (forall i :: 0 <= i < |results| && i !in a ==> BareRefusal(results[i]))
      && ((exists k :: 0 <= k < |calls| && ExpectedError(calls[k]).Some?) || |calls| < |results|)
  {
    hide PairAll, Assignment, Accounts, BareRefusal, ExpectedError, DistinctIdentities;
    var calls, p := assistant.toolCalls, Pairing(Indices(|results|), false);
    AssignmentAccounts(calls, results, p);
    AssignmentLeaves(calls, results, p);
    LeftoverIffMore(calls, results, p);
  }

  // ----- Recognition against its declarative meaning -----

  /** `a` gives every call an unused result of its own that is the right record for it, and every
      other unused result is a bare refusal. */
  predicate Pays(calls: seq<CallItem>, results: seq<Message>, unused: set<nat>, a: seq<nat>)
    requires AllCalls(calls)
  {
    && |a| == |calls|
    && (forall i :: i in unused ==> i < |results|)
    && (forall k :: 0 <= k < |a| ==> a[k] in unused && Accounts(results[a[k]], calls[k]))
    && (forall j, k :: 0 <= j < k < |a| ==> a[j] != a[k])
    && (forall i :: i in unused && i !in a ==> BareRefusal(results[i]))
  }

  /** An identified call has only one answer where every call is paid for. */
  lemma OnlyAnswer(calls: seq<CallItem>, results: seq<Message>, unused: set<nat>, a: seq<nat>, i: nat)
    requires AllCalls(calls) && DistinctIdentities(calls) && calls != [] && Pays(calls, results, unused, a)
    requires i in unused && Answers(results[i], calls[0]) && Identity(calls[0].id).Some?
    ensures i == a[0]
  {
    assert !BareRefusal(results[i]);
    var k :| 0 <= k < |a| && a[k] == i;
    assert Answers(results[i], calls[k]);
  }

  /** Two answers to one call without an identifier are the same kind of record. */
  lemma AnswersAlike(x: Message, y: Message, c: CallItem, d: CallItem)
    requires c.Call? && d.Call? && Identity(c.id).None? && Answers(x, c) && Accounts(y, d) && Answers(y, c)
    ensures Identity(d.id).None? && Answers(x, d) && (Accounts(x, c) ==> Accounts(x, d)) && Accounts(y, c)
  {
  }

  lemma PaysTail(calls: seq<CallItem>, results: seq<Message>, unused: set<nat>, a: seq<nat>)
    requires AllCalls(calls) && calls != [] && Pays(calls, results, unused, a)
    ensures Accounts(results[a[0]], calls[0]) && Pays(calls[1..], results, unused - {a[0]}, a[1..])
  {
    hide Accounts, BareRefusal;
    assert forall k :: 0 <= k < |a[1..]| ==> a[1..][k] == a[k + 1] && calls[1..][k] == calls[k + 1];
    assert forall x :: x in a ==> x == a[0] || x in a[1..];
  }

  /** Paying with another unused result: in place of one that is assigned, or of one left over. */
  lemma PaysOther(calls: seq<CallItem>, results: seq<Message>, unused: set<nat>, a: seq<nat>, i: nat,
          spare: nat) returns (b: seq<nat>)
    requires AllCalls(calls) && Pays(calls, results, unused, a) && spare !in unused && spare < |results| && i in unused
    requires forall k :: 0 <= k < |a| && a[k] == i ==> Accounts(results[spare], calls[k])
    requires i !in a ==> BareRefusal(results[spare])
    ensures Pays(calls, results, unused - {i} + {spare}, b)
  {
    hide Accounts, BareRefusal;
    if i in a {
      var k :| 0 <= k < |a| && a[k] == i;
      b := a[k := spare];
      forall x | x in a && x != i ensures x in b {
        var j :| 0 <= j < |a| && a[j] == x;
        assert b[j] == x;
      }
      assert b[k] == spare;
    } else {
      b := a;
    }
  }

  lemma PaidFirst(calls: seq<CallItem>, results: seq<Message>, unused: set<nat>, a: seq<nat>)
    requires AllCalls(calls) && Pays(calls, results, unused, a)
    ensures |a| == |calls| && (forall i :: i in unused ==> i < |results|)
    ensures calls != [] ==> a[0] in unused && a[0] < |results|
  {
  }

  /** Any unused answer will do for the first call: what it was meant for can take the other one. */
  lemma Exchange(calls: seq<CallItem>, results: seq<Message>, unused: set<nat>, a: seq<nat>,
          i: nat) returns (b: seq<nat>)
    requires AllCalls(calls) && DistinctIdentities(calls) && calls != [] && Pays(calls, results, unused, a)
    requires i in unused && Answers(results[i], calls[0])
    ensures Accounts(results[i], calls[0])
    ensures Pays(calls[1..], results, unused - {i}, b)
  {
    hide Accounts, BareRefusal, Answers, DistinctIdentities, Pays;
    PaidFirst(calls, results, unused, a);
    PaysTail(calls, results, unused, a);
    var rest := a[1..];
    if i == a[0] {
      b := rest;
    } else {
      if Identity(calls[0].id).Some? {
        OnlyAnswer(calls, results, unused, a, i);
      }
      assert Identity(calls[0].id).None?;
      OtherAnswer(calls, results, unused, a, i);
      b := PaysOther(calls[1..], results, unused - {a[0]}, rest, i, a[0]);
      assert unused - {a[0]} - {i} + {a[0]} == unused - {i};
    }
  }

  lemma OtherAnswer(calls: seq<CallItem>, results: seq<Message>, unused: set<nat>, a: seq<nat>, i: nat)
    requires AllCalls(calls) && calls != [] && Pays(calls, results, unused, a)
    requires i in unused && i != a[0] && Answers(results[i], calls[0]) && Identity(calls[0].id).None?
    ensures Accounts(results[i], calls[0])
    ensures forall k :: 0 <= k < |a[1..]| && a[1..][k] == i ==> Accounts(results[a[0]], calls[1..][k])
    ensures i !in a[1..] ==> BareRefusal(results[a[0]])
  {
    assert Accounts(results[a[0]], calls[0]);
    if i in a[1..] {
      forall k | 0 <= k < |a[1..]| && a[1..][k] == i
        ensures Accounts(results[a[0]], calls[1..][k]) && Accounts(results[i], calls[0]) {
        assert a[k + 1] == i && calls[k + 1] == calls[1..][k];
        AnswersAlike(results[a[0]], results[i], calls[0], calls[k + 1]);
      }
    } else {
      assert i !in a;
    }
  }

  /** If some assignment pays for every call, the greedy pairing succeeds and leaves only bare refusals. */
  lemma {:induction false} GreedyPairs(calls: seq<CallItem>, results: seq<Message>, p: Pairing, a: seq<nat>)
    requires AllCalls(calls) && DistinctIdentities(calls) && Pays(calls, results, p.unused, a)
    ensures PairAll(calls, results, p).Some?
    ensures forall i :: i in PairAll(calls, results, p).value.unused ==> i < |results| && BareRefusal(results[i])
    decreases |calls|
  {
    if calls != [] {
      var first := FirstAnswer(calls[0], results, p.unused, 0);
      assert a[0] in p.unused && Answers(results[a[0]], calls[0]);
      var i := first.value;
      var b := Exchange(calls, results, p.unused, a, i);
      if Identity(calls[0].id).Some? {
        OnlyAnswer(calls, results, p.unused, a, i);
        var second := FirstAnswer(calls[0], results, p.unused, i + 1);
        if second.Some? {
          OnlyAnswer(calls, results, p.unused, a, second.value);
        }
      }
      var (_, refused) := PairCall(calls[0], results, p.unused).value;
      GreedyPairs(calls[1..], results, Pairing(p.unused - {i}, p.normalized || refused), b);
    }
  }

  /** A tool turn is recognised exactly when its calls are tool calls with distinct identifiers, some
      one-to-one assignment gives each its right record, all other results are bare refusals, and
      something was refused. The order in which calls and results are compared plays no part. */
  lemma RecognisedExactly(assistant: Message, results: seq<Message>)
    ensures Recognised(assistant, results) <==>
      && assistant.role.Assistant? && results != [] && AllCalls(assistant.toolCalls)
      && DistinctIdentities(assistant.toolCalls)
      && (exists a :: Pays(assistant.toolCalls, results, Indices(|results|), a))
      && Refused(assistant.toolCalls, results)
  {
    hide Recognised, Pays;
    if Recognised(assistant, results) {
      RecognisedPays(assistant, results);
    }
    if assistant.role.Assistant? && results != [] && AllCalls(assistant.toolCalls)
      && DistinctIdentities(assistant.toolCalls) {
      forall a | Pays(assistant.toolCalls, results, Indices(|results|), a)
        ensures Recognised(assistant, results) <==> Refused(assistant.toolCalls, results)
      {
        PaidIsRecognised(assistant, results, a);
      }
    }
  }

  /** Some call was bad, or some result belongs to no call. */
  predicate Refused(calls: seq<CallItem>, results: seq<Message>)
    requires AllCalls(calls)
  {
    (exists k :: 0 <= k < |calls| && ExpectedError(calls[k]).Some?) || |calls| < |results|
  }

  lemma RecognisedPays(assistant: Message, results: seq<Message>)
    requires Recognised(assistant, results)
    ensures assistant.role.Assistant? && results != [] && AllCalls(assistant.toolCalls)
    ensures DistinctIdentities(assistant.toolCalls)
    ensures exists a :: Pays(assistant.toolCalls, results, Indices(|results|), a)
    ensures Refused(assistant.toolCalls, results)
  {
    var calls, unused := assistant.toolCalls, Indices(|results|);
    assert exists a :: Pays(calls, results, unused, a) by {
      AssignmentPays(calls, results, Pairing(unused, false));
    }
    hide Pays, Accounts, BareRefusal, PairAll, Assignment;
    RecognisedTurnIsAccounted(assistant, results);
  }

  lemma AssignmentPays(calls: seq<CallItem>, results: seq<Message>, p: Pairing)
    requires AllCalls(calls) && PairAll(calls, results, p).Some?
    requires forall i :: i in p.unused ==> i < |results|
    requires forall i :: i in PairAll(calls, results, p).value.unused && i < |results| ==> BareRefusal(results[i])
    ensures Pays(calls, results, p.unused, Assignment(calls, results, p.unused))
  {
    AssignmentAccounts(calls, results, p);
    AssignmentLeaves(calls, results, p);
    hide PairAll, Assignment, Accounts, BareRefusal, ExpectedError;
  }

  lemma PaidIsRecognised(assistant: Message, results: seq<Message>, a: seq<nat>)
    requires assistant.role.Assistant? && results != [] && AllCalls(assistant.toolCalls)
    requires DistinctIdentities(assistant.toolCalls)
    requires Pays(assistant.toolCalls, results, Indices(|results|), a)
    ensures Recognised(assistant, results) <==> Refused(assistant.toolCalls, results)
  {
    var calls, p := assistant.toolCalls, Pairing(Indices(|results|), false);
    hide PairAll, Assignment, BareRefusal, ExpectedError, Pays, DistinctIdentities;
    GreedyPairs(calls, results, p, a);
    LeftoverIffMore(calls, results, p);
    AssignmentLeaves(calls, results, p);
  }

  /** Starting from all results, some are left over exactly when there are more results than calls. */
  lemma LeftoverIffMore(calls: seq<CallItem>, results: seq<Message>, p: Pairing)
    requires AllCalls(calls) && PairAll(calls, results, p).Some? && p.unused == Indices(|results|)
    ensures PairAll(calls, results, p).value.unused != {} <==> |calls| < |results|
  {
    hide PairAll, Assignment, Accounts, ExpectedError;
    AssignmentAccounts(calls, results, p);
    AssignmentLeaves(calls, results, p);
    var greedy, left := Assignment(calls, results, p.unused), PairAll(calls, results, p).value;
    if |calls| < |results| {
      var extra := MissingBelow(greedy, |results|);
      assert extra in left.unused;
    } else if left.unused != {} {
      var extra :| extra in left.unused;
      DistinctBelow(greedy + [extra], |results|);
    }
  }

  /** Fewer than `n` numbers miss a number below `n`. */
  lemma {:induction false} MissingBelow(a: seq<nat>, n: nat) returns (missing: nat)
    requires |a| < n
    ensures missing < n && missing !in a
  {
    if n - 1 !in a {
      missing := n - 1;
    } else {
      var k :| 0 <= k < |a| && a[k] == n - 1;
      missing := MissingBelow(a[..k] + a[k + 1..], n - 1);
      StillMissing(a, k, missing);
    }
  }

  lemma StillMissing(a: seq<nat>, k: nat, missing: nat)
    requires k < |a| && a[k] != missing && missing !in a[..k] + a[k + 1..]
    ensures missing !in a
  {
    var b := a[..k] + a[k + 1..];
    forall j | 0 <= j < |a| ensures a[j] != missing {
      if j != k {
        assert a[j] == b[if j < k then j else j - 1];
      }
    }
  }

  /** Distinct numbers below `n` are at most `n` many. */
  lemma {:induction false} DistinctBelow(a: seq<nat>, n: nat)
    requires forall k :: 0 <= k < |a| ==> a[k] < n
    requires forall j, k :: 0 <= j < k < |a| ==> a[j] != a[k]
    ensures |a| <= n
  {
    if n == 0 {
    } else if n - 1 in a {
      var k :| 0 <= k < |a| && a[k] == n - 1;
      var b := a[..k] + a[k + 1..];
      assert |b| == |a| - 1 && forall i :: 0 <= i < |b| ==> b[i] == a[if i < k then i else i + 1];
      DistinctBelow(b, n - 1);
    } else {
      DistinctBelow(a, n - 1);
    }
  }
}
