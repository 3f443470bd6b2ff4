/** Conversation messages as the context layer sees them. */
module Messages {
  import opened Wrappers

  datatype Role = System | User | Assistant | Tool | OtherRole(name: string)

  /** An entry of a message's tool calls. A field that is not a string is `None`;
      `Foreign` is an entry that is not a ToolCall at all. */
  datatype CallItem =
    | Call(id: Option<string>, name: Option<string>, arguments: string, argumentsValid: bool, complete: bool)
    | Foreign(tag: string)

  /** Whether the object is a plain message, a ProtectedContextMessage, or a subclass of it. */
  datatype Kind = Ordinary | ProtectedData | ProtectedSubclass

  datatype Message = Message(
    role: Role,
    content: string,
    toolCalls: seq<CallItem>,
    toolCallId: Option<string>,
    toolName: Option<string>,
    errorCode: Option<string>,
    providerState: Option<string>,
    kind: Kind)

  function Text(role: Role, content: string): Message {
    Message(role, content, [], None, None, None, None, Ordinary)
  }

  /** What a digest sees of a message: never its class, and its provider state only on request. */
  function View(m: Message, includeProviderState: bool): Message {
    m.(kind := Ordinary, providerState := if includeProviderState then m.providerState else None)
  }

  function Views(ms: seq<Message>, includeProviderState: bool): seq<Message> {
    seq(|ms|, i requires 0 <= i < |ms| => View(ms[i], includeProviderState))
  }

  datatype Record = Record(callId: Option<string>, toolName: Option<string>, errorCode: Option<string>, content: string)

  /** The opaque ingredients of the context layer: the unit estimator, the hash of a
      canonical message list, and the text rendering of refused results. */
  datatype Env = Env(
    units: Message -> nat,
    digest: seq<Message> -> string,
    records: seq<Record> -> string)

  function Digest(env: Env, ms: seq<Message>, includeProviderState: bool): string {
    (env.digest)(Views(ms, includeProviderState))
  }

  function Units(env: Env, ms: seq<Message>): nat {
    if ms == [] then 0 else (env.units)(ms[0]) + Units(env, ms[1..])
  }

  lemma {:induction false} UnitsConcat(env: Env, a: seq<Message>, b: seq<Message>)
    ensures Units(env, a + b) == Units(env, a) + Units(env, b)
  {
    if a == [] {
      assert a + b == b;
    } else {
      UnitsConcat(env, a[1..], b);
      assert (a + b)[1..] == a[1..] + b;
    }
  }

  function Flatten(groups: seq<seq<Message>>): seq<Message> {
    if groups == [] then [] else groups[0] + Flatten(groups[1..])
  }

  lemma FlattenCons(first: seq<Message>, rest: seq<seq<Message>>)
    ensures Flatten([first] + rest) == first + Flatten(rest)
  {
    assert ([first] + rest)[1..] == rest;
  }

  lemma {:induction false} FlattenConcat(a: seq<seq<Message>>, b: seq<seq<Message>>)
    ensures Flatten(a + b) == Flatten(a) + Flatten(b)
  {
    if a == [] {
      assert a + b == b;
    } else {
      FlattenConcat(a[1..], b);
      FlattenCons(a[0], a[1..] + b);
      assert a + b == [a[0]] + (a[1..] + b);
      assert a[0] + (Flatten(a[1..]) + Flatten(b)) == (a[0] + Flatten(a[1..])) + Flatten(b);
    }
  }
}
