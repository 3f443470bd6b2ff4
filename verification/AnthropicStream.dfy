/** Assembling a streamed Anthropic message from its events. */
module AnthropicStream {
  import opened Wrappers
  import opened JsonValues

  datatype Item = Item(event: Json, data: Json)

  datatype StreamError =
    | NotAnObject | TypesDisagree | Provider(code: string) | InvalidStart | BlockOutOfOrder | InvalidBlock
    | DeltaOutOfOrder | UnsupportedDelta | StopOutOfOrder | MalformedInput | InputNotObject | NoSignature
    | InvalidMessageDelta | InvalidStopData | InvalidMessageStop | UnsupportedEvent | NoMessageStop

  datatype Active = Active(index: nat, block: Fields, partials: seq<string>, signature: Option<string>)

  datatype Assembly = Assembly(
    started: bool,
    messageDelta: bool,
    stopped: bool,
    nextIndex: nat,
    content: seq<Fields>,
    active: Option<Active>,
    stopReason: Json,
    stopSequence: Json)

  datatype Payload = Payload(content: seq<Fields>, stopReason: Json, stopSequence: Json)

  const INITIAL := Assembly(false, false, false, 0, [], None, Null, Null)

  const ERROR_CODES := {
    "api_error", "authentication_error", "invalid_request_error", "not_found_error", "overloaded_error",
    "permission_error", "rate_limit_error", "request_too_large" }

  function ErrorCode(data: Fields): string {
    match Get(data, "error")
    case Obj(error) =>
      (match Get(error, "type")
       case Str(code) => if code in ERROR_CODES then code else "stream_error"
       case _ => "stream_error")
    case _ => "stream_error"
  }

  predicate HasText(fields: Fields, key: string) {
    key in fields && fields[key].Str?
  }

  predicate HasNonEmptyText(fields: Fields, key: string) {
    HasText(fields, key) && fields[key].s != ""
  }

  predicate ValidStart(data: Fields) {
    match Get(data, "message")
    case Obj(m) =>
      && Get(m, "type") == Str("message") && Get(m, "role") == Str("assistant")
      && Get(m, "content") == Arr([]) && Get(m, "stop_reason").Null?
    case _ => false
  }

  predicate ValidBlock(block: Fields) {
    match Get(block, "type")
    case Str(kind) =>
      if kind == "text" then block.Keys == {"type", "text"} && HasText(block, "text")
      else if kind == "thinking" then block.Keys == {"type", "thinking"} && HasText(block, "thinking")
      else if kind == "redacted_thinking" then block.Keys == {"type", "data"} && HasNonEmptyText(block, "data")
      else if kind == "tool_use" then
        && block.Keys <= {"type", "id", "name", "input", "caller"}
        && HasNonEmptyText(block, "id") && HasNonEmptyText(block, "name") && Get(block, "input") == Obj(map[])
      else false
    case _ => false
  }

  /** What a delta adds to its block. */
  datatype Piece = More(text: string) | Sign(signature: string)

  function PieceOf(kind: string, delta: Fields): Option<Piece> {
    match Get(delta, "type")
    case Str(deltaKind) =>
      if kind == "text" && deltaKind == "text_delta" && delta.Keys == {"type", "text"} && HasText(delta, "text") then
        Some(More(delta["text"].s))
      else if kind == "tool_use" && deltaKind == "input_json_delta"
        && delta.Keys == {"type", "partial_json"} && HasText(delta, "partial_json") then
        Some(More(delta["partial_json"].s))
      else if kind == "thinking" && deltaKind == "thinking_delta"
        && delta.Keys == {"type", "thinking"} && HasText(delta, "thinking") then
        Some(More(delta["thinking"].s))
      else if kind == "thinking" && deltaKind == "signature_delta"
        && delta.Keys == {"type", "signature"} && HasNonEmptyText(delta, "signature") then
        Some(Sign(delta["signature"].s))
      else None
    case _ => None
  }

  function Kind(block: Fields): string
    requires HasText(block, "type")
  {
    block["type"].s
  }

  /** An active block always has a type, and text wherever its kind appends text. */
  predicate ActiveOk(a: Active) {
    && HasText(a.block, "type")
    && (Kind(a.block) == "text" ==> HasText(a.block, "text"))
    && (Kind(a.block) == "thinking" ==> HasText(a.block, "thinking"))
  }

  predicate Coherent(st: Assembly) {
    st.active.Some? ==> ActiveOk(st.active.value)
  }

  function AddPiece(a: Active, p: Piece): Option<Active>
    requires ActiveOk(a)
  {
    match p
    case Sign(s) => if a.signature.None? then Some(a.(signature := Some(s))) else None
    case More(t) =>
      if Kind(a.block) == "text" then Some(a.(block := a.block["text" := Str(a.block["text"].s + t)]))
      else if Kind(a.block) == "thinking" then Some(a.(block := a.block["thinking" := Str(a.block["thinking"].s + t)]))
      else Some(a.(partials := a.partials + [t]))
  }

  type Parser = string -> Option<Json>

  /** The finished block: parsed tool input, or the signature of a thinking block. */
  function CloseBlock(parse: Parser, a: Active): Result<Fields, StreamError>
    requires ActiveOk(a)
  {
    if Kind(a.block) == "tool_use" then
      var text := Concat(a.partials);
      match parse(if text == "" then "{}" else text)
      case None => Err(MalformedInput)
      case Some(v) => if v.Obj? then Ok(a.block["input" := v]) else Err(InputNotObject)
    else if Kind(a.block) == "thinking" then
      if a.signature.None? then Err(NoSignature) else Ok(a.block["signature" := Str(a.signature.value)])
    else Ok(a.block)
  }

  predicate ValidStopData(delta: Fields) {
    Get(delta, "stop_reason").Str? && (Get(delta, "stop_sequence").Null? || Get(delta, "stop_sequence").Str?)
  }

  predicate IsIndex(data: Fields, k: nat) {
    Get(data, "index") == Int(k)
  }

  function StepBlockStart(st: Assembly, data: Fields): (r: Result<Assembly, StreamError>)
    ensures r.Ok? ==> Coherent(r.value)
  {
    var block := Get(data, "content_block");
    if !st.started || st.messageDelta || st.active.Some? || !IsIndex(data, st.nextIndex) || !block.Obj? then
      Err(BlockOutOfOrder)
    else if !ValidBlock(block.fields) then Err(InvalidBlock)
    else Ok(st.(active := Some(Active(st.nextIndex, block.fields, [], None))))
  }

  function StepBlockDelta(st: Assembly, data: Fields): (r: Result<Assembly, StreamError>)
    requires Coherent(st)
    ensures r.Ok? ==> Coherent(r.value)
  {
    var delta := Get(data, "delta");
    if st.active.None? || !IsIndex(data, st.active.value.index) || !delta.Obj? then Err(DeltaOutOfOrder)
    else
      match PieceOf(Kind(st.active.value.block), delta.fields)
      case None => Err(UnsupportedDelta)
      case Some(p) =>
        var added := AddPiece(st.active.value, p);
        if added.None? then Err(UnsupportedDelta) else Ok(st.(active := added))
  }

  function StepBlockStop(parse: Parser, st: Assembly, data: Fields): Result<Assembly, StreamError>
    requires Coherent(st)
  {
    if st.active.None? || !IsIndex(data, st.active.value.index) then Err(StopOutOfOrder)
    else
      match CloseBlock(parse, st.active.value)
      case Err(e) => Err(e)
      case Ok(block) => Ok(st.(content := st.content + [block], active := None, nextIndex := st.nextIndex + 1))
  }

  function StepMessageDelta(st: Assembly, data: Fields): Result<Assembly, StreamError> {
    var delta := Get(data, "delta");
    if !st.started || st.active.Some? || st.messageDelta || !delta.Obj?
      || !(delta.fields.Keys <= {"stop_reason", "stop_sequence"}) then
      Err(InvalidMessageDelta)
    else if !ValidStopData(delta.fields) then Err(InvalidStopData)
    else
      Ok(st.(stopReason := Get(delta.fields, "stop_reason"), stopSequence := Get(delta.fields, "stop_sequence"),
             messageDelta := true))
  }

  function Step(parse: Parser, st: Assembly, item: Item): (r: Result<Assembly, StreamError>)
    requires Coherent(st)
    ensures r.Ok? ==> Coherent(r.value)
  {
    hide ValidStart, ErrorCode;
    if !item.event.Str? || !item.data.Obj? then Err(NotAnObject)
    else
      var event, data := item.event.s, item.data.fields;
      if Get(data, "type") != Str(event) then Err(TypesDisagree)
      else if event == "ping" then Ok(st)
      else if event == "error" then Err(Provider(ErrorCode(data)))
      else if event == "message_start" then
        if st.started || st.content != [] || !ValidStart(data) then Err(InvalidStart) else Ok(st.(started := true))
      else if event == "content_block_start" then StepBlockStart(st, data)
      else if event == "content_block_delta" then StepBlockDelta(st, data)
      else if event == "content_block_stop" then StepBlockStop(parse, st, data)
      else if event == "message_delta" then StepMessageDelta(st, data)
      else if event == "message_stop" then
        if !st.started || st.active.Some? || !st.messageDelta || st.stopped then Err(InvalidMessageStop)
        else Ok(st.(stopped := true))
      else Err(UnsupportedEvent)
  }

  function Run(parse: Parser, st: Assembly, items: seq<Item>): (r: Result<Assembly, StreamError>)
    requires Coherent(st)
    ensures r.Ok? ==> Coherent(r.value)
    decreases |items|
  {
    if items == [] then Ok(st)
    else match Step(parse, st, items[0])
      case Err(e) => Err(e)
      case Ok(next) => Run(parse, next, items[1..])
  }

  function Finish(r: Result<Assembly, StreamError>): Result<Payload, StreamError> {
    match r
    case Err(e) => Err(e)
    case Ok(st) => if !st.stopped then Err(NoMessageStop) else Ok(Payload(st.content, st.stopReason, st.stopSequence))
  }

  method StreamPayload(parse: Parser, events: seq<Item>) returns (r: Result<Payload, StreamError>)
    ensures r == Finish(Run(parse, INITIAL, events))
  {
    hide Step, Finish;
    var st := INITIAL;
    var k := 0;
    assert events[0..] == events;
    while k < |events|
      invariant 0 <= k <= |events| && Coherent(st)
      invariant Run(parse, INITIAL, events) == Run(parse, st, events[k..])
    {
      assert events[k..][0] == events[k] && events[k..][1..] == events[k + 1..];
      var next := Step(parse, st, events[k]);
      if next.Err? {
        r := Err(next.error);
        FinishError(next.error);
        return;
      }
      st, k := next.value, k + 1;
    }
    r := Finish(Ok(st));
  }

  lemma FinishError(e: StreamError)
    ensures Finish(Err(e)) == Err(e)
  {
  }

  // ----- The grammar of an accepted stream -----

  predicate Typed(item: Item, event: string) {
    item.event == Str(event) && item.data.Obj? && Get(item.data.fields, "type") == Str(event)
  }

  predicate IsPing(item: Item) {
    Typed(item, "ping")
  }

  function WithoutPings(items: seq<Item>): seq<Item> {
    if items == [] then [] else (if IsPing(items[0]) then [] else [items[0]]) + WithoutPings(items[1..])
  }

  /** One content block of the stream: its start, its deltas and its stop. */
  datatype BlockScript = BlockScript(start: Item, deltas: seq<Item>, stop: Item)

  datatype Script = Script(start: Item, blocks: seq<BlockScript>, delta: Item, stop: Item)

  function FlatBlocks(blocks: seq<BlockScript>): seq<Item> {
    if blocks == [] then [] else ([blocks[0].start] + blocks[0].deltas + [blocks[0].stop]) + FlatBlocks(blocks[1..])
  }

  function Flat(s: Script): seq<Item> {
    [s.start] + (FlatBlocks(s.blocks) + [s.delta, s.stop])
  }

  predicate GoodBlockStart(item: Item, k: nat) {
    && Typed(item, "content_block_start") && IsIndex(item.data.fields, k)
    && var block := Get(item.data.fields, "content_block"); block.Obj? && ValidBlock(block.fields)
  }

  function StartFields(item: Item, k: nat): Fields
    requires GoodBlockStart(item, k)
  {
    Get(item.data.fields, "content_block").fields
  }

  predicate GoodDelta(item: Item, k: nat, kind: string) {
    && Typed(item, "content_block_delta") && IsIndex(item.data.fields, k)
    && var delta := Get(item.data.fields, "delta"); delta.Obj? && PieceOf(kind, delta.fields).Some?
  }

  function DeltaPiece(item: Item, k: nat, kind: string): Piece
    requires GoodDelta(item, k, kind)
  {
    PieceOf(kind, Get(item.data.fields, "delta").fields).value
  }

  predicate GoodDeltas(items: seq<Item>, k: nat, kind: string) {
    forall i :: 0 <= i < |items| ==> GoodDelta(items[i], k, kind)
  }

  /** All the text the deltas of a block carry. */
  function DeltaText(items: seq<Item>, k: nat, kind: string): string
    requires GoodDeltas(items, k, kind)
  {
    if items == [] then ""
    else (match DeltaPiece(items[0], k, kind) case More(t) => t case Sign(_) => "") + DeltaText(items[1..], k, kind)
  }

  function Signatures(items: seq<Item>, k: nat, kind: string): seq<string>
    requires GoodDeltas(items, k, kind)
  {
    if items == [] then []
    else (match DeltaPiece(items[0], k, kind) case More(_) => [] case Sign(s) => [s]) + Signatures(items[1..], k, kind)
  }

  /** The finished content of a block: a function of its start, its joined text and its signatures
      alone, hence of nothing that depends on how the text was cut into deltas. */
  function Content(parse: Parser, start: Fields, text: string, signatures: seq<string>): Option<Fields> {
    if !ValidBlock(start) || |signatures| > 1 then None
    else if Kind(start) == "text" then Some(start["text" := Str(start["text"].s + text)])
    else if Kind(start) == "thinking" then
      if signatures == [] then None
      else Some(start["thinking" := Str(start["thinking"].s + text)]["signature" := Str(signatures[0])])
    else if Kind(start) == "tool_use" then
      match parse(if text == "" then "{}" else text)
      case None => None
      case Some(v) => if v.Obj? then Some(start["input" := v]) else None
    else Some(start)
  }

  predicate GoodBody(b: BlockScript, k: nat) {
    GoodBlockStart(b.start, k) && GoodDeltas(b.deltas, k, Kind(StartFields(b.start, k)))
  }

  function BodyContent(parse: Parser, b: BlockScript, k: nat): Option<Fields>
    requires GoodBody(b, k)
  {
    var start := StartFields(b.start, k);
    Content(parse, start, DeltaText(b.deltas, k, Kind(start)), Signatures(b.deltas, k, Kind(start)))
  }

  predicate GoodBlock(parse: Parser, b: BlockScript, k: nat) {
    && GoodBody(b, k)
    && Typed(b.stop, "content_block_stop") && IsIndex(b.stop.data.fields, k)
    && BodyContent(parse, b, k).Some?
  }

  function BlockContent(parse: Parser, b: BlockScript, k: nat): Fields
    requires GoodBlock(parse, b, k)
  {
    BodyContent(parse, b, k).value
  }

  predicate GoodBlocks(parse: Parser, blocks: seq<BlockScript>, k: nat)
    decreases |blocks|
  {
    blocks == [] || (GoodBlock(parse, blocks[0], k) && GoodBlocks(parse, blocks[1..], k + 1))
  }

  function Contents(parse: Parser, blocks: seq<BlockScript>, k: nat): seq<Fields>
    requires GoodBlocks(parse, blocks, k)
    decreases |blocks|
  {
    if blocks == [] then [] else [BlockContent(parse, blocks[0], k)] + Contents(parse, blocks[1..], k + 1)
  }

  predicate GoodMessageDelta(item: Item) {
    && Typed(item, "message_delta")
    && var delta := Get(item.data.fields, "delta");
       delta.Obj? && delta.fields.Keys <= {"stop_reason", "stop_sequence"} && ValidStopData(delta.fields)
  }

  /** One message_start, blocks numbered from 0, one message_delta and one message_stop. */
  predicate WellFormed(parse: Parser, s: Script) {
    && Typed(s.start, "message_start") && ValidStart(s.start.data.fields)
    && GoodBlocks(parse, s.blocks, 0)
    && GoodMessageDelta(s.delta)
    && Typed(s.stop, "message_stop")
  }

  function Assembled(parse: Parser, s: Script): Payload
    requires WellFormed(parse, s)
  {
    var delta := Get(s.delta.data.fields, "delta").fields;
    Payload(Contents(parse, s.blocks, 0), Get(delta, "stop_reason"), Get(delta, "stop_sequence"))
  }

  // ----- The machine against the grammar -----

  lemma {:induction false} RunConcat(parse: Parser, st: Assembly, a: seq<Item>, b: seq<Item>)
    requires Coherent(st)
    ensures Run(parse, st, a + b)
      == (match Run(parse, st, a) case Err(e) => Err(e) case Ok(next) => Run(parse, next, b))
    decreases |a|
  {
    hide Step;
    if a == [] {
      assert a + b == b;
    } else {
      assert (a + b)[0] == a[0] && (a + b)[1..] == a[1..] + b;
      var next := Step(parse, st, a[0]);
      if next.Ok? {
        RunConcat(parse, next.value, a[1..], b);
      }
    }
  }

  lemma {:induction false} PingsIgnored(parse: Parser, st: Assembly, items: seq<Item>)
    requires Coherent(st)
    ensures Run(parse, st, items) == Run(parse, st, WithoutPings(items))
    decreases |items|
  {
    if items != [] {
      var next := Step(parse, st, items[0]);
      var rest := WithoutPings(items[1..]);
      if IsPing(items[0]) {
        PingsIgnored(parse, st, items[1..]);
        assert [] + rest == rest;
      } else {
        assert ([items[0]] + rest)[0] == items[0] && ([items[0]] + rest)[1..] == rest;
        hide Step;
        if next.Ok? {
          PingsIgnored(parse, next.value, items[1..]);
        }
      }
    }
  }

  /** The active block after its start and some deltas. */
  predicate Holds(a: Active, start: Fields, text: string, signatures: seq<string>) {
    && ValidBlock(start) && ActiveOk(a) && Kind(a.block) == Kind(start)
    && |signatures| <= 1 && a.signature == (if signatures == [] then None else Some(signatures[0]))
    && (Kind(start) == "text" ==> a.block == start["text" := Str(start["text"].s + text)])
    && (Kind(start) == "thinking" ==> a.block == start["thinking" := Str(start["thinking"].s + text)])
    && (Kind(start) == "tool_use" ==> a.block == start && Concat(a.partials) == text)
    && (Kind(start) == "redacted_thinking" ==> a.block == start)
  }

  /** Starting a block. */
  lemma StartHolds(start: Fields, k: nat)
    requires ValidBlock(start)
    ensures Holds(Active(k, start, [], None), start, "", [])
  {
    assert Kind(start) == "text" ==> start["text"].s + "" == start["text"].s;
    assert Kind(start) == "thinking" ==> start["thinking"].s + "" == start["thinking"].s;
  }

  /** Closing a block gives exactly the content the grammar assigns to it. */
  lemma CloseIsContent(parse: Parser, a: Active, start: Fields, text: string, signatures: seq<string>)
    requires Holds(a, start, text, signatures)
    ensures CloseBlock(parse, a).Ok? <==> Content(parse, start, text, signatures).Some?
    ensures CloseBlock(parse, a).Ok? ==> Some(CloseBlock(parse, a).value) == Content(parse, start, text, signatures)
  {
  }

  function PieceText(p: Piece): string {
    match p case More(t) => t case Sign(_) => ""
  }

  function PieceSigns(p: Piece): seq<string> {
    match p case More(_) => [] case Sign(s) => [s]
  }

  /** One accepted delta. */
  lemma PieceHolds(a: Active, start: Fields, text: string, signatures: seq<string>, delta: Fields)
    requires Holds(a, start, text, signatures) && PieceOf(Kind(start), delta).Some?
    ensures var p := PieceOf(Kind(start), delta).value;
      && (AddPiece(a, p).Some? <==> |signatures + PieceSigns(p)| <= 1)
      && (AddPiece(a, p).Some? ==>
            && Holds(AddPiece(a, p).value, start, text + PieceText(p), signatures + PieceSigns(p))
            && AddPiece(a, p).value.index == a.index)
  {
    var p := PieceOf(Kind(start), delta).value;
    match p {
      case Sign(s) =>
        assert text + "" == text;
      case More(t) =>
        assert signatures + [] == signatures;
        if Kind(start) == "text" {
          assert (start["text"].s + text) + t == start["text"].s + (text + t);
          assert start["text" := Str(start["text"].s + text)]["text" := Str(start["text"].s + (text + t))]
              == start["text" := Str(start["text"].s + (text + t))];
        } else if Kind(start) == "thinking" {
          assert (start["thinking"].s + text) + t == start["thinking"].s + (text + t);
          assert start["thinking" := Str(start["thinking"].s + text)]["thinking" :=
            Str(start["thinking"].s + (text + t))]
              == start["thinking" := Str(start["thinking"].s + (text + t))];
        } else {
          ConcatAppend(a.partials, [t]);
          assert Concat([t]) == t + Concat([t][1..]);
        }
    }
  }

  /** The assembly between blocks, and inside one. */
  function Between(k: nat, content: seq<Fields>): (r: Assembly)
    ensures Coherent(r)
  {
    Assembly(true, false, false, k, content, None, Null, Null)
  }

  function Inside(content: seq<Fields>, a: Active): Assembly {
    Between(a.index, content).(active := Some(a))
  }

  lemma RunOne(parse: Parser, st: Assembly, item: Item)
    requires Coherent(st)
    ensures Run(parse, st, [item]) == Step(parse, st, item)
  {
    hide Step;
    assert [item][1..] == [];
  }

  lemma NoDeltas(k: nat, kind: string)
    ensures GoodDeltas([], k, kind) && DeltaText([], k, kind) == "" && Signatures([], k, kind) == []
  {
  }

  lemma GoodDeltaPiece(item: Item, k: nat, kind: string)
    requires GoodDelta(item, k, kind)
    ensures item.data.Obj? && Get(item.data.fields, "delta").Obj?
    ensures PieceOf(kind, Get(item.data.fields, "delta").fields) == Some(DeltaPiece(item, k, kind))
  {
  }

  lemma DeltasCons(item: Item, items: seq<Item>, k: nat, kind: string)
    requires GoodDelta(item, k, kind) && GoodDeltas(items, k, kind)
    ensures GoodDeltas([item] + items, k, kind)
    ensures DeltaText([item] + items, k, kind) == PieceText(DeltaPiece(item, k, kind)) + DeltaText(items, k, kind)
    ensures Signatures([item] + items, k, kind) == PieceSigns(DeltaPiece(item, k, kind)) + Signatures(items, k, kind)
  {
    hide GoodDelta;
    assert ([item] + items)[1..] == items;
  }

  /** An accepted delta of the block under assembly. */
  lemma DeltaAccepted(parse: Parser, content: seq<Fields>, a: Active, start: Fields, text: string,
          signatures: seq<string>, item: Item)
    requires Holds(a, start, text, signatures) && GoodDelta(item, a.index, Kind(start))
    requires |signatures + PieceSigns(DeltaPiece(item, a.index, Kind(start)))| <= 1
    ensures var p := DeltaPiece(item, a.index, Kind(start));
      && AddPiece(a, p).Some? && AddPiece(a, p).value.index == a.index
      && Holds(AddPiece(a, p).value, start, text + PieceText(p), signatures + PieceSigns(p))
      && Step(parse, Inside(content, a), item) == Ok(Inside(content, AddPiece(a, p).value))
  {
    PieceHolds(a, start, text, signatures, Get(item.data.fields, "delta").fields);
    hide AddPiece, PieceOf, PieceText, PieceSigns, ValidBlock;
  }

  lemma HoldsTypes(a: Active, start: Fields, text: string, signatures: seq<string>)
    requires Holds(a, start, text, signatures)
    ensures HasText(start, "type") && ActiveOk(a)
  {
  }

  lemma {:induction false} RunDeltas(parse: Parser, content: seq<Fields>, a: Active, start: Fields,
          text: string, signatures: seq<string>, deltas: seq<Item>)
    returns (a': Active)
    requires Holds(a, start, text, signatures) && GoodDeltas(deltas, a.index, Kind(start))
    requires |signatures + Signatures(deltas, a.index, Kind(start))| <= 1
    ensures a'.index == a.index
    ensures Holds(a', start, text + DeltaText(deltas, a.index, Kind(start)),
                  signatures + Signatures(deltas, a.index, Kind(start)))
    ensures Run(parse, Inside(content, a), deltas) == Ok(Inside(content, a'))
    decreases |deltas|
  {
    hide Step, Holds, DeltaPiece, AddPiece, GoodDelta, PieceText, PieceSigns, DeltaText, Signatures, Kind, ActiveOk;
    HoldsTypes(a, start, text, signatures);
    if deltas == [] {
      a' := a;
      NoDeltas(a.index, Kind(start));
      assert text + "" == text && signatures + [] == signatures;
    } else {
      var kind := Kind(start);
      var p, rest := DeltaPiece(deltas[0], a.index, kind), deltas[1..];
      DeltasCons(deltas[0], rest, a.index, kind);
      assert [deltas[0]] + rest == deltas;
      assert (signatures + PieceSigns(p)) + Signatures(rest, a.index, kind)
        == signatures + Signatures(deltas, a.index, kind);
      assert (text + PieceText(p)) + DeltaText(rest, a.index, kind) == text + DeltaText(deltas, a.index, kind);
      DeltaAccepted(parse, content, a, start, text, signatures, deltas[0]);
      var next := AddPiece(a, p).value;
      HoldsTypes(next, start, text + PieceText(p), signatures + PieceSigns(p));
      a' := RunDeltas(parse, content, next, start, text + PieceText(p), signatures + PieceSigns(p), deltas[1..]);
    }
  }

  lemma StartAccepted(parse: Parser, content: seq<Fields>, item: Item, k: nat)
    requires GoodBlockStart(item, k)
    ensures ValidBlock(StartFields(item, k))
    ensures Step(parse, Between(k, content), item) == Ok(Inside(content, Active(k, StartFields(item, k), [], None)))
  {
    hide ValidBlock;
  }

  lemma StopAccepted(parse: Parser, content: seq<Fields>, a: Active, start: Fields, text: string,
          signatures: seq<string>, item: Item)
    requires Holds(a, start, text, signatures) && Content(parse, start, text, signatures).Some?
    requires Typed(item, "content_block_stop") && IsIndex(item.data.fields, a.index)
    ensures Step(parse, Inside(content, a), item)
      == Ok(Between(a.index + 1, content + [Content(parse, start, text, signatures).value]))
  {
    CloseIsContent(parse, a, start, text, signatures);
    hide CloseBlock, Content, Holds, ValidBlock;
  }

  lemma OneSignature(parse: Parser, start: Fields, text: string, signatures: seq<string>)
    requires Content(parse, start, text, signatures).Some?
    ensures |signatures| <= 1
  {
  }

  lemma RunBlock(parse: Parser, content: seq<Fields>, b: BlockScript, k: nat)
    requires GoodBlock(parse, b, k)
    ensures Run(parse, Between(k, content), [b.start] + b.deltas + [b.stop])
         == Ok(Between(k + 1, content + [BlockContent(parse, b, k)]))
  {
    hide Step, Holds, Run, Content, Between, DeltaText, Signatures, GoodDelta, Typed, IsIndex, ValidBlock, Kind,
      StartFields, ActiveOk;
    var start := StartFields(b.start, k);
    var a := Active(k, start, [], None);
    StartAccepted(parse, content, b.start, k);
    StartHolds(start, k);
    HoldsTypes(a, start, "", []);
    var signs, text := Signatures(b.deltas, k, Kind(start)), DeltaText(b.deltas, k, Kind(start));
    assert [] + signs == signs && "" + text == text;
    OneSignature(parse, start, text, signs);
    var a' := RunDeltas(parse, content, a, start, "", [], b.deltas);
    HoldsTypes(a', start, text, signs);
    StopAccepted(parse, content, a', start, text, signs, b.stop);
    RunOne(parse, Between(k, content), b.start);
    RunOne(parse, Inside(content, a'), b.stop);
    RunConcat(parse, Between(k, content), [b.start], b.deltas);
    RunConcat(parse, Between(k, content), [b.start] + b.deltas, [b.stop]);
  }

  lemma NoBlocks(parse: Parser, content: seq<Fields>, k: nat)
    ensures Run(parse, Between(k, content), FlatBlocks([])) == Ok(Between(k, content + Contents(parse, [], k)))
  {
    assert content + [] == content;
  }

  lemma {:induction false} RunBlocks(parse: Parser, content: seq<Fields>, blocks: seq<BlockScript>, k: nat)
    requires GoodBlocks(parse, blocks, k)
    ensures Run(parse, Between(k, content), FlatBlocks(blocks))
         == Ok(Between(k + |blocks|, content + Contents(parse, blocks, k)))
    decreases |blocks|
  {
    hide Step, GoodBlock, BlockContent, Run, Between;
    if blocks == [] {
      NoBlocks(parse, content, k);
    } else {
      var b := blocks[0];
      var one := BlockContent(parse, b, k);
      RunBlock(parse, content, b, k);
      RunBlocks(parse, content + [one], blocks[1..], k + 1);
      RunConcat(parse, Between(k, content), [b.start] + b.deltas + [b.stop], FlatBlocks(blocks[1..]));
      assert (content + [one]) + Contents(parse, blocks[1..], k + 1) == content + Contents(parse, blocks, k);
    }
  }

  lemma RunStart(parse: Parser, start: Item)
    requires Typed(start, "message_start") && ValidStart(start.data.fields)
    ensures Run(parse, INITIAL, [start]) == Ok(Between(0, []))
  {
    assert Step(parse, INITIAL, start) == Ok(Between(0, []));
    RunOne(parse, INITIAL, start);
  }

  /** A well-formed stream is accepted, with exactly the content its grammar assigns. */
  lemma WellFormedAccepted(parse: Parser, s: Script)
    requires WellFormed(parse, s)
    ensures Finish(Run(parse, INITIAL, Flat(s))) == Ok(Assembled(parse, s))
  {
    hide Step, GoodBlocks, GoodMessageDelta, Run, Between, FlatBlocks, Contents, ValidStart, Typed;
    assert [] + Contents(parse, s.blocks, 0) == Contents(parse, s.blocks, 0);
    RunStart(parse, s.start);
    RunBlocks(parse, [], s.blocks, 0);
    RunLast(parse, |s.blocks|, Contents(parse, s.blocks, 0), s.delta, s.stop);
    RunConcat(parse, Between(0, []), FlatBlocks(s.blocks), [s.delta, s.stop]);
    RunConcat(parse, INITIAL, [s.start], FlatBlocks(s.blocks) + [s.delta, s.stop]);
  }

  lemma RunLast(parse: Parser, k: nat, content: seq<Fields>, delta: Item, stop: Item)
    requires GoodMessageDelta(delta) && Typed(stop, "message_stop")
    ensures var fields := Get(delta.data.fields, "delta").fields;
      Run(parse, Between(k, content), [delta, stop]) ==
        Ok(Assembly(true, true, true, k, content, None, Get(fields, "stop_reason"), Get(fields, "stop_sequence")))
  {
    var fields := Get(delta.data.fields, "delta").fields;
    var late := Between(k, content).(stopReason := Get(fields, "stop_reason"),
      stopSequence := Get(fields, "stop_sequence"), messageDelta := true);
    assert Step(parse, Between(k, content), delta) == Ok(late);
    assert Step(parse, late, stop) == Ok(late.(stopped := true));
    hide Step;
    RunOne(parse, Between(k, content), delta);
    RunOne(parse, late, stop);
    RunConcat(parse, Between(k, content), [delta], [stop]);
    assert [delta] + [stop] == [delta, stop];
  }

  predicate Pingless(items: seq<Item>) {
    forall i :: 0 <= i < |items| ==> !IsPing(items[i])
  }

  predicate Accepted(parse: Parser, st: Assembly, items: seq<Item>)
    requires Coherent(st)
  {
    Finish(Run(parse, st, items)).Ok?
  }

  lemma AcceptedStep(parse: Parser, st: Assembly, items: seq<Item>)
    requires Coherent(st) && Accepted(parse, st, items) && !st.stopped
    ensures items != [] && Step(parse, st, items[0]).Ok? && Accepted(parse, Step(parse, st, items[0]).value, items[1..])
  {
    hide Step;
  }

  /** Inside a block only its own deltas and its stop are accepted. */
  lemma InsideStep(parse: Parser, content: seq<Fields>, a: Active, start: Fields, text: string,
          signatures: seq<string>, item: Item)
    requires Holds(a, start, text, signatures) && !IsPing(item)
    requires Step(parse, Inside(content, a), item).Ok?
    ensures
      || GoodDelta(item, a.index, Kind(start))
      || (Typed(item, "content_block_stop") && IsIndex(item.data.fields, a.index))
    ensures Typed(item, "content_block_stop") ==>
      Content(parse, start, text, signatures).Some?
      && Step(parse, Inside(content, a), item).value
        == Between(a.index + 1, content + [Content(parse, start, text, signatures).value])
    ensures GoodDelta(item, a.index, Kind(start)) ==>
      var p := DeltaPiece(item, a.index, Kind(start));
      && |signatures + PieceSigns(p)| <= 1
      && AddPiece(a, p).Some? && Step(parse, Inside(content, a), item).value == Inside(content, AddPiece(a, p).value)
  {
    CloseIsContent(parse, a, start, text, signatures);
    if Typed(item, "content_block_delta") {
      PieceHolds(a, start, text, signatures, Get(item.data.fields, "delta").fields);
    }
  }

  /** The first `n` items are deltas of the block, the next is its stop, the block has a content,
      and the remaining items are accepted after it. */
  predicate BlockEndsAt(parse: Parser, content: seq<Fields>, k: nat, start: Fields, text: string,
          signatures: seq<string>, items: seq<Item>, n: nat)
    requires HasText(start, "type")
  {
    && n < |items| && GoodDeltas(items[..n], k, Kind(start))
    && Typed(items[n], "content_block_stop") && IsIndex(items[n].data.fields, k)
    && var whole := Content(parse, start, text + DeltaText(items[..n], k, Kind(start)),
                            signatures + Signatures(items[..n], k, Kind(start)));
       whole.Some? && Accepted(parse, Between(k + 1, content + [whole.value]), items[n + 1..])
  }

  lemma BlockEndsHere(parse: Parser, content: seq<Fields>, k: nat, start: Fields, text: string,
          signatures: seq<string>, items: seq<Item>)
    requires HasText(start, "type") && items != []
    requires Typed(items[0], "content_block_stop") && IsIndex(items[0].data.fields, k)
    requires Content(parse, start, text, signatures).Some?
    requires Accepted(parse, Between(k + 1, content + [Content(parse, start, text, signatures).value]), items[1..])
    ensures BlockEndsAt(parse, content, k, start, text, signatures, items, 0)
  {
    assert items[..0] == [] && text + "" == text && signatures + [] == signatures;
    NoDeltas(k, Kind(start));
  }

  lemma BlockEndsLater(parse: Parser, content: seq<Fields>, k: nat, start: Fields, text: string,
          signatures: seq<string>, items: seq<Item>, m: nat)
    requires HasText(start, "type") && items != [] && GoodDelta(items[0], k, Kind(start))
    requires var p := DeltaPiece(items[0], k, Kind(start));
      BlockEndsAt(parse, content, k, start, text + PieceText(p), signatures + PieceSigns(p), items[1..], m)
    ensures BlockEndsAt(parse, content, k, start, text, signatures, items, m + 1)
  {
    hide GoodDelta, GoodDeltas, Accepted, Content, Typed, DeltaText, Signatures, PieceText, PieceSigns, IsIndex,
      DeltaPiece, Between;
    var kind := Kind(start);
    var p, rest := DeltaPiece(items[0], k, kind), items[1..];
    DeltasCons(items[0], rest[..m], k, kind);
    assert items[..m + 1] == [items[0]] + rest[..m];
    assert items[m + 1] == rest[m] && items[m + 2..] == rest[m + 1..];
    assert (text + PieceText(p)) + DeltaText(rest[..m], k, kind) == text + DeltaText(items[..m + 1], k, kind);
    assert (signatures + PieceSigns(p)) + Signatures(rest[..m], k, kind)
      == signatures + Signatures(items[..m + 1], k, kind);
  }

  /** Reads the deltas and the stop of the block being assembled off an accepted stream. */
  lemma {:induction false} ParseBlockRest(parse: Parser, content: seq<Fields>, a: Active, start: Fields,
          text: string, signatures: seq<string>, items: seq<Item>)
    returns (n: nat)
    requires Holds(a, start, text, signatures) && Pingless(items) && Accepted(parse, Inside(content, a), items)
    ensures BlockEndsAt(parse, content, a.index, start, text, signatures, items, n)
    decreases |items|
  {
    assert HasText(start, "type");
    hide Step, Holds, AddPiece, Content, Accepted, Run, PieceOf, Kind, ValidBlock, GoodDelta, DeltaPiece, Typed,
      IsIndex, PieceText, PieceSigns, Between, BlockEndsAt;
    assert Pingless(items[1..]);
    AcceptedStep(parse, Inside(content, a), items);
    InsideStep(parse, content, a, start, text, signatures, items[0]);
    if Typed(items[0], "content_block_stop") {
      n := 0;
      BlockEndsHere(parse, content, a.index, start, text, signatures, items);
    } else {
      var p := DeltaPiece(items[0], a.index, Kind(start));
      GoodDeltaPiece(items[0], a.index, Kind(start));
      PieceHolds(a, start, text, signatures, Get(items[0].data.fields, "delta").fields);
      var m := ParseBlockRest(parse, content, AddPiece(a, p).value, start, text + PieceText(p),
                              signatures + PieceSigns(p), items[1..]);
      n := m + 1;
      BlockEndsLater(parse, content, a.index, start, text, signatures, items, m);
    }
  }

  lemma NothingAfterStop(parse: Parser, st: Assembly, items: seq<Item>)
    requires Coherent(st) && st.started && st.messageDelta && st.active.None? && st.stopped
    requires Pingless(items) && Accepted(parse, st, items)
    ensures items == []
  {
  }

  /** After the message_delta only the message_stop is accepted. */
  lemma OnlyStopIsLeft(parse: Parser, late: Assembly, items: seq<Item>)
    requires Coherent(late) && late.started && late.messageDelta && late.active.None? && !late.stopped
    requires Pingless(items) && Accepted(parse, late, items)
    ensures |items| == 1 && Typed(items[0], "message_stop")
  {
    AcceptedStep(parse, late, items);
    assert Step(parse, late, items[0]).value == late.(stopped := true);
    hide Step, Accepted;
    NothingAfterStop(parse, late.(stopped := true), items[1..]);
  }

  lemma BetweenStep(parse: Parser, k: nat, content: seq<Fields>, item: Item)
    requires !IsPing(item) && Step(parse, Between(k, content), item).Ok?
    ensures GoodBlockStart(item, k) || GoodMessageDelta(item)
    ensures GoodBlockStart(item, k) ==>
      Step(parse, Between(k, content), item).value == Inside(content, Active(k, StartFields(item, k), [], None))
    ensures GoodMessageDelta(item) ==>
      var late := Step(parse, Between(k, content), item).value;
      late.started && late.messageDelta && late.active.None? && !late.stopped
  {
  }

  lemma ParsedBlock(parse: Parser, b: BlockScript, k: nat)
    requires GoodBlockStart(b.start, k) && GoodDeltas(b.deltas, k, Kind(StartFields(b.start, k)))
    requires Typed(b.stop, "content_block_stop") && IsIndex(b.stop.data.fields, k)
    requires var kind := Kind(StartFields(b.start, k));
      Content(parse, StartFields(b.start, k), DeltaText(b.deltas, k, kind), Signatures(b.deltas, k, kind)).Some?
    ensures GoodBlock(parse, b, k)
    ensures BlockContent(parse, b, k) ==
      var kind := Kind(StartFields(b.start, k));
      Content(parse, StartFields(b.start, k), DeltaText(b.deltas, k, kind), Signatures(b.deltas, k, kind)).value
  {
  }

  /** Reads blocks, message_delta and message_stop off an accepted stream. */
  lemma {:induction false} ParseBlocks(parse: Parser, k: nat, content: seq<Fields>, items: seq<Item>)
    returns (blocks: seq<BlockScript>, delta: Item, stop: Item)
    requires Pingless(items) && Accepted(parse, Between(k, content), items)
    ensures items == FlatBlocks(blocks) + [delta, stop]
    ensures GoodBlocks(parse, blocks, k) && GoodMessageDelta(delta) && Typed(stop, "message_stop")
    decreases |items|
  {
    hide Step, Accepted, Run, Content, Holds, GoodDeltas, DeltaText, Signatures, ValidBlock, Kind, GoodMessageDelta;
    AcceptedStep(parse, Between(k, content), items);
    BetweenStep(parse, k, content, items[0]);
    var rest := items[1..];
    assert Pingless(rest);
    if GoodMessageDelta(items[0]) {
      OnlyStopIsLeft(parse, Step(parse, Between(k, content), items[0]).value, rest);
      blocks, delta, stop := [], items[0], rest[0];
      assert items == [] + [delta, stop];
    } else {
      var start := StartFields(items[0], k);
      StartHolds(start, k);
      var n := ParseBlockRest(parse, content, Active(k, start, [], None), start, "", [], rest);
      var b := BlockScript(items[0], rest[..n], rest[n]);
      assert "" + DeltaText(b.deltas, k, Kind(start)) == DeltaText(b.deltas, k, Kind(start));
      assert [] + Signatures(b.deltas, k, Kind(start)) == Signatures(b.deltas, k, Kind(start));
      ParsedBlock(parse, b, k);
      hide GoodBlock, GoodBlockStart;
      var others: seq<BlockScript>;
      others, delta, stop := ParseBlocks(parse, k + 1, content + [BlockContent(parse, b, k)], rest[n + 1..]);
      blocks := [b] + others;
      assert blocks[1..] == others;
      assert items == ([b.start] + b.deltas + [b.stop]) + (FlatBlocks(others) + [delta, stop]);
    }
  }

  lemma {:induction false} WithoutPingsIsPingless(items: seq<Item>)
    ensures Pingless(WithoutPings(items))
  {
    if items != [] {
      WithoutPingsIsPingless(items[1..]);
    }
  }

  lemma InitialStep(parse: Parser, item: Item)
    requires !IsPing(item) && Step(parse, INITIAL, item).Ok?
    ensures Typed(item, "message_start") && ValidStart(item.data.fields)
    ensures Step(parse, INITIAL, item).value == Between(0, [])
  {
  }

  lemma AcceptedWellFormed(parse: Parser, items: seq<Item>) returns (s: Script)
    requires Pingless(items) && Accepted(parse, INITIAL, items)
    ensures WellFormed(parse, s) && Flat(s) == items
  {
    AcceptedStep(parse, INITIAL, items);
    InitialStep(parse, items[0]);
    hide Step, Accepted, Run, FlatBlocks, GoodBlocks, GoodMessageDelta, Typed, ValidStart, Between, IsPing;
    assert Pingless(items[1..]);
    var blocks, delta, stop := ParseBlocks(parse, 0, [], items[1..]);
    s := Script(items[0], blocks, delta, stop);
    assert items == [items[0]] + items[1..];
  }

  /** A stream returns a message exactly when its events, pings aside, are one message_start, blocks
      numbered from 0 each with its start, deltas and stop, one message_delta and one message_stop;
      and the message is the one that reading of the stream assembles to. */
  lemma AcceptsExactlyTheGrammar(parse: Parser, events: seq<Item>)
    ensures Finish(Run(parse, INITIAL, events)).Ok? <==>
      exists s :: WellFormed(parse, s) && Flat(s) == WithoutPings(events)
    ensures forall s :: WellFormed(parse, s) && Flat(s) == WithoutPings(events) ==>
      Finish(Run(parse, INITIAL, events)) == Ok(Assembled(parse, s))
  {
    hide Step, WellFormed, Assembled, Flat, Finish;
    PingsIgnored(parse, INITIAL, events);
    WithoutPingsIsPingless(events);
    if Finish(Run(parse, INITIAL, events)).Ok? {
      var s := AcceptedWellFormed(parse, WithoutPings(events));
      assert WellFormed(parse, s) && Flat(s) == WithoutPings(events);
    }
    forall s | WellFormed(parse, s) && Flat(s) == WithoutPings(events)
      ensures Finish(Run(parse, INITIAL, events)) == Ok(Assembled(parse, s))
    {
      WellFormedAccepted(parse, s);
    }
  }

  // ----- Fragmentation -----

  /** The three kinds of delta that carry text a provider may cut anywhere. */
  datatype Carrier = TextDelta | JsonDelta | ThinkingDelta

  function DeltaItem(carrier: Carrier, k: int, text: string): Item {
    var fields: Fields := match carrier
      case TextDelta => map["type" := Str("text_delta"), "text" := Str(text)]
      case JsonDelta => map["type" := Str("input_json_delta"), "partial_json" := Str(text)]
      case ThinkingDelta => map["type" := Str("thinking_delta"), "thinking" := Str(text)];
    Item(Str("content_block_delta"),
      Obj(map["type" := Str("content_block_delta"), "index" := Int(k), "delta" := Obj(fields)]))
  }

  function DeltaItems(carrier: Carrier, k: int, cut: seq<string>): seq<Item> {
    if cut == [] then [] else [DeltaItem(carrier, k, cut[0])] + DeltaItems(carrier, k, cut[1..])
  }

  /** Two assemblies that differ at most in how the tool input of the active block is cut. */
  predicate Alike(a: Assembly, b: Assembly) {
    && a.(active := None) == b.(active := None)
    && (a.active.Some? <==> b.active.Some?)
    && (a.active.Some? ==>
          && a.active.value.(partials := []) == b.active.value.(partials := [])
          && Concat(a.active.value.partials) == Concat(b.active.value.partials))
  }

  predicate AlikeResults(a: Result<Assembly, StreamError>, b: Result<Assembly, StreamError>) {
    if a.Err? || b.Err? then a.Err? && b.Err? && a.error == b.error else Alike(a.value, b.value)
  }

  lemma AlikeAdd(a: Active, b: Active, p: Piece)
    requires ActiveOk(a) && ActiveOk(b) && a.(partials := []) == b.(partials := [])
    requires Concat(a.partials) == Concat(b.partials)
    ensures AddPiece(a, p).Some? <==> AddPiece(b, p).Some?
    ensures AddPiece(a, p).Some? ==>
      && AddPiece(a, p).value.(partials := []) == AddPiece(b, p).value.(partials := [])
      && Concat(AddPiece(a, p).value.partials) == Concat(AddPiece(b, p).value.partials)
  {
    if p.More? {
      ConcatAppend(a.partials, [p.text]);
      ConcatAppend(b.partials, [p.text]);
    }
  }

  lemma AlikeDelta(a: Assembly, b: Assembly, data: Fields)
    requires Coherent(a) && Coherent(b) && Alike(a, b)
    ensures AlikeResults(StepBlockDelta(a, data), StepBlockDelta(b, data))
  {
    var delta := Get(data, "delta");
    if a.active.Some? && delta.Obj? {
      var p := PieceOf(Kind(a.active.value.block), delta.fields);
      hide PieceOf;
      if p.Some? {
        AlikeAdd(a.active.value, b.active.value, p.value);
      }
    }
  }

  lemma AlikeStop(parse: Parser, a: Assembly, b: Assembly, data: Fields)
    requires Coherent(a) && Coherent(b) && Alike(a, b)
    ensures AlikeResults(StepBlockStop(parse, a, data), StepBlockStop(parse, b, data))
  {
  }

  lemma AlikeStep(parse: Parser, a: Assembly, b: Assembly, item: Item)
    requires Coherent(a) && Coherent(b) && Alike(a, b)
    ensures AlikeResults(Step(parse, a, item), Step(parse, b, item))
  {
    hide StepBlockStart, StepBlockDelta, StepBlockStop, StepMessageDelta, ValidStart, Coherent, Alike;
    AlikeFlags(a, b);
    if item.data.Obj? {
      AlikeDelta(a, b, item.data.fields);
      AlikeStop(parse, a, b, item.data.fields);
      AlikeElsewhere(a, b, item.data.fields);
    }
  }

  /** Alike states agree in everything but the cutting of one text. */
  lemma AlikeFlags(a: Assembly, b: Assembly)
    requires Alike(a, b)
    ensures a.started == b.started && a.content == b.content && a.messageDelta == b.messageDelta
    ensures a.stopped == b.stopped
    ensures a.active.Some? <==> b.active.Some?
    ensures Alike(a.(started := true), b.(started := true)) && Alike(a.(stopped := true), b.(stopped := true))
  {
  }

  lemma AlikeElsewhere(a: Assembly, b: Assembly, data: Fields)
    requires Coherent(a) && Coherent(b) && Alike(a, b)
    ensures AlikeResults(StepBlockStart(a, data), StepBlockStart(b, data))
    ensures AlikeResults(StepMessageDelta(a, data), StepMessageDelta(b, data))
  {
    hide ValidBlock, ValidStopData;
  }

  lemma {:induction false} AlikeRun(parse: Parser, a: Assembly, b: Assembly, items: seq<Item>)
    requires Coherent(a) && Coherent(b) && Alike(a, b)
    ensures AlikeResults(Run(parse, a, items), Run(parse, b, items))
    decreases |items|
  {
    hide Alike;
    if items != [] {
      AlikeStep(parse, a, b, items[0]);
      hide Step;
      if Step(parse, a, items[0]).Ok? {
        AlikeRun(parse, Step(parse, a, items[0]).value, Step(parse, b, items[0]).value, items[1..]);
      }
    }
  }

  function CarrierKind(carrier: Carrier): string {
    match carrier case TextDelta => "text" case JsonDelta => "tool_use" case ThinkingDelta => "thinking"
  }

  /** What one text delta does: it is out of order, of the wrong kind, or its text is added. */
  lemma DeltaItemStep(parse: Parser, st: Assembly, carrier: Carrier, k: int, text: string)
    requires Coherent(st)
    ensures Step(parse, st, DeltaItem(carrier, k, text)) ==
      if st.active.None? || st.active.value.index != k then Err(DeltaOutOfOrder)
      else if Kind(st.active.value.block) != CarrierKind(carrier) then Err(UnsupportedDelta)
      else Ok(st.(active := AddPiece(st.active.value, More(text))))
  {
    var data := DeltaItem(carrier, k, text).data.fields;
    var delta := Get(data, "delta").fields;
    match carrier {
      case TextDelta => assert delta.Keys == {"type", "text"};
      case JsonDelta => assert delta.Keys == {"type", "partial_json"};
      case ThinkingDelta => assert delta.Keys == {"type", "thinking"};
    }
    if st.active.Some? {
      assert PieceOf(Kind(st.active.value.block), delta) ==
        if Kind(st.active.value.block) != CarrierKind(carrier) then None else Some(More(text));
    }
    hide PieceOf;
    assert Get(data, "type") == Str("content_block_delta") && Get(data, "index") == Int(k);
    assert Step(parse, st, DeltaItem(carrier, k, text)) == StepBlockDelta(st, data);
  }

  lemma AddTwice(a: Active, s: string, t: string)
    requires ActiveOk(a)
    ensures var first := AddPiece(a, More(s)).value;
      var both, whole := AddPiece(first, More(t)).value, AddPiece(a, More(s + t)).value;
      both.(partials := []) == whole.(partials := []) && Concat(both.partials) == Concat(whole.partials)
  {
    if Kind(a.block) == "text" {
      assert (a.block["text"].s + s) + t == a.block["text"].s + (s + t);
    } else if Kind(a.block) == "thinking" {
      assert (a.block["thinking"].s + s) + t == a.block["thinking"].s + (s + t);
    } else {
      AppendTwice(a.partials, s, t);
    }
  }

  lemma AppendTwice(parts: seq<string>, s: string, t: string)
    ensures Concat(parts + [s] + [t]) == Concat(parts + [s + t])
  {
    ConcatAppend(parts, [s]);
    ConcatAppend(parts + [s], [t]);
    ConcatAppend(parts, [s + t]);
    assert (Concat(parts) + s) + t == Concat(parts) + (s + t);
    assert Concat([s]) == s + Concat([s][1..]) && Concat([t]) == t + Concat([t][1..]);
    assert Concat([s + t]) == s + t + Concat([s + t][1..]);
  }

  /** Two deltas in a row do what one delta with the joined text does, errors included. */
  lemma TwoDeltasAreOne(parse: Parser, st: Assembly, carrier: Carrier, k: int, s: string, t: string)
    requires Coherent(st)
    ensures var first := Step(parse, st, DeltaItem(carrier, k, s));
      AlikeResults(if first.Err? then first else Step(parse, first.value, DeltaItem(carrier, k, t)),
                   Step(parse, st, DeltaItem(carrier, k, s + t)))
  {
    hide Step;
    DeltaItemStep(parse, st, carrier, k, s);
    DeltaItemStep(parse, st, carrier, k, s + t);
    var first := Step(parse, st, DeltaItem(carrier, k, s));
    if first.Ok? {
      DeltaItemStep(parse, first.value, carrier, k, t);
      AddTwice(st.active.value, s, t);
    }
  }

  lemma {:induction false} CutIsWhole(parse: Parser, st: Assembly, carrier: Carrier, k: int, cut: seq<string>)
    requires Coherent(st) && cut != []
    ensures AlikeResults(Run(parse, st, DeltaItems(carrier, k, cut)),
                         Step(parse, st, DeltaItem(carrier, k, Concat(cut))))
    decreases |cut|
  {
    hide Step, Alike;
    var head := DeltaItem(carrier, k, cut[0]);
    var first := Step(parse, st, head);
    assert DeltaItems(carrier, k, cut)[0] == head;
    assert DeltaItems(carrier, k, cut)[1..] == DeltaItems(carrier, k, cut[1..]);
    TwoDeltasAreOne(parse, st, carrier, k, cut[0], Concat(cut[1..]));
    if |cut| == 1 {
      assert cut[0] + Concat(cut[1..]) == cut[0];
      AlikeReflexive(first);
    } else if first.Ok? {
      CutIsWhole(parse, first.value, carrier, k, cut[1..]);
      AlikeTransitive(Run(parse, first.value, DeltaItems(carrier, k, cut[1..])),
                      Step(parse, first.value, DeltaItem(carrier, k, Concat(cut[1..]))),
                      Step(parse, st, DeltaItem(carrier, k, Concat(cut))));
    }
  }

  lemma AlikeReflexive(a: Result<Assembly, StreamError>)
    ensures AlikeResults(a, a)
  {
  }

  lemma AlikeTransitive(a: Result<Assembly, StreamError>, b: Result<Assembly, StreamError>,
          c: Result<Assembly, StreamError>)
    requires AlikeResults(a, b) && AlikeResults(b, c)
    ensures AlikeResults(a, c) && AlikeResults(c, a)
  {
  }

  /** In any stream, accepted or not, how the text of a block is cut into deltas does not matter:
      every non-empty cutting of the same text gives the same message or the same error. */
  lemma FragmentationIrrelevant(parse: Parser, before: seq<Item>, after: seq<Item>, carrier: Carrier, k: int,
          a: seq<string>, b: seq<string>)
    requires a != [] && b != [] && Concat(a) == Concat(b)
    ensures Finish(Run(parse, INITIAL, before + DeltaItems(carrier, k, a) + after))
         == Finish(Run(parse, INITIAL, before + DeltaItems(carrier, k, b) + after))
  {
    hide Step, Alike, DeltaItems;
    RunConcat(parse, INITIAL, before + DeltaItems(carrier, k, a), after);
    RunConcat(parse, INITIAL, before + DeltaItems(carrier, k, b), after);
    RunConcat(parse, INITIAL, before, DeltaItems(carrier, k, a));
    RunConcat(parse, INITIAL, before, DeltaItems(carrier, k, b));
    var mid := Run(parse, INITIAL, before);
    if mid.Ok? {
      CutIsWhole(parse, mid.value, carrier, k, a);
      CutIsWhole(parse, mid.value, carrier, k, b);
      var x, y := Run(parse, mid.value, DeltaItems(carrier, k, a)), Run(parse, mid.value, DeltaItems(carrier, k, b));
      var whole := Step(parse, mid.value, DeltaItem(carrier, k, Concat(a)));
      AlikeReflexive(whole);
      AlikeTransitive(y, whole, whole);
      AlikeTransitive(x, whole, y);
      if x.Ok? {
        AlikeRun(parse, x.value, y.value, after);
        AlikeFinish(Run(parse, x.value, after), Run(parse, y.value, after));
      }
    }
  }

  lemma AlikeFinish(a: Result<Assembly, StreamError>, b: Result<Assembly, StreamError>)
    requires AlikeResults(a, b)
    ensures Finish(a) == Finish(b)
  {
  }
}
