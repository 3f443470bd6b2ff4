/** The character-level reader of a provider's server-sent event stream. */
module Sse {
  import opened Wrappers
  import opened JsonValues

  datatype Event = Event(name: string, data: Json)

  datatype SseError = FrameIncomplete | InvalidEventField | UnsupportedField | MisplacedBom | MalformedJson
  datatype ReadError = Protocol(error: SseError) | EndedMidFrame | EndedBeforeTerminal

  /** The JSON decoder of frame data and the event names that end a stream. */
  datatype Config = Config(decode: string -> Option<Json>, terminals: set<string>)

  datatype Reader = Reader(
    events: seq<Event>,
    eventName: Option<string>,
    dataLines: seq<string>,
    line: string,
    pendingCr: bool,
    first: bool,
    terminal: bool)

  const FRESH := Reader([], None, [], "", false, true, false)
  const BOM := '\U{FEFF}'

  function Join(lines: seq<string>): string {
    if lines == [] then "" else if |lines| == 1 then lines[0] else lines[0] + "\n" + Join(lines[1..])
  }

  /** The text before the first colon, and the text after it if there is one. */
  function Partition(value: string): (string, Option<string>) {
    if value == "" then ("", None)
    else if value[0] == ':' then ("", Some(value[1..]))
    else var (field, rest) := Partition(value[1..]); ([value[0]] + field, rest)
  }

  /** The value of a field, less one leading space after the colon. */
  function FieldValue(rest: Option<string>): string {
    match rest
    case None => ""
    case Some(v) => if v != "" && v[0] == ' ' then v[1..] else v
  }

  function Dispatch(cfg: Config, st: Reader, value: string): Result<Reader, SseError> {
    if value == "" then
      if st.eventName.None? && st.dataLines == [] then Ok(st)
      else if st.eventName.None? || st.dataLines == [] then Err(FrameIncomplete)
      else
        match (cfg.decode)(Join(st.dataLines))
        case None => Err(MalformedJson)
        case Some(data) =>
          Ok(st.(events := st.events + [Event(st.eventName.value, data)],
                 terminal := st.eventName.value in cfg.terminals, eventName := None, dataLines := []))
    else if value[0] == ':' then Ok(st)
    else
      var (field, rest) := Partition(value);
      var fieldValue := FieldValue(rest);
      if field == "event" then
        if st.eventName.Some? || fieldValue == "" then Err(InvalidEventField)
        else Ok(st.(eventName := Some(fieldValue)))
      else if field == "data" then Ok(st.(dataLines := st.dataLines + [fieldValue]))
      else Err(UnsupportedField)
  }

  /** Dispatches the collected line and starts the next one. */
  function EndLine(cfg: Config, st: Reader, cr: bool): Result<Reader, SseError> {
    match Dispatch(cfg, st, st.line)
    case Err(e) => Err(e)
    case Ok(next) => Ok(next.(line := "", pendingCr := cr))
  }

  function FeedChar(cfg: Config, st: Reader, c: char): Result<Reader, SseError> {
    if st.terminal then Ok(st)
    else if c == BOM then if st.first then Ok(st.(first := false)) else Err(MisplacedBom)
    else if st.pendingCr && c == '\n' then Ok(st.(first := false, pendingCr := false))
    else
      var now := st.(first := false, pendingCr := false);
      if c == '\r' then EndLine(cfg, now, true)
      else if c == '\n' then EndLine(cfg, now, false)
      else Ok(now.(line := now.line + [c]))
  }

  function Feed(cfg: Config, st: Reader, text: string): Result<Reader, SseError>
    decreases |text|
  {
    if text == "" then Ok(st)
    else match FeedChar(cfg, st, text[0])
      case Err(e) => Err(e)
      case Ok(next) => Feed(cfg, next, text[1..])
  }

  function Verdict(r: Result<Reader, SseError>): Result<seq<Event>, ReadError> {
    match r
    case Err(e) => Err(Protocol(e))
    case Ok(st) =>
      if st.terminal then Ok(st.events)
      else if st.line != "" || st.eventName.Some? || st.dataLines != [] then Err(EndedMidFrame)
      else Err(EndedBeforeTerminal)
  }

  // ----- The imperative reader -----

  class SseReader {
    const cfg: Config
    var events: seq<Event>
    var eventName: Option<string>
    var dataLines: seq<string>
    var line: string
    var pendingCr: bool
    var firstCharacter: bool
    var terminal: bool

    ghost function State(): Reader
      reads this
    {
      Reader(events, eventName, dataLines, line, pendingCr, firstCharacter, terminal)
    }

    constructor (cfg: Config)
      ensures this.cfg == cfg && State() == FRESH
    {
      this.cfg := cfg;
      events, eventName, dataLines, line := [], None, [], "";
      pendingCr, firstCharacter, terminal := false, true, false;
    }

    method DispatchLine(value: string) returns (e: Option<SseError>)
      modifies this
      ensures var r := Dispatch(cfg, old(State()), value);
        if r.Ok? then e.None? && State() == r.value else e == Some(r.error)
    {
      if value == "" {
        if eventName.None? && dataLines == [] {
          return None;
        }
        if eventName.None? || dataLines == [] {
          return Some(FrameIncomplete);
        }
        var data := (cfg.decode)(Join(dataLines));
        if data.None? {
          return Some(MalformedJson);
        }
        events := events + [Event(eventName.value, data.value)];
        terminal := eventName.value in cfg.terminals;
        eventName, dataLines := None, [];
        return None;
      }
      if value[0] == ':' {
        return None;
      }
      var (field, rest) := Partition(value);
      var fieldValue := FieldValue(rest);
      if field == "event" {
        if eventName.Some? || fieldValue == "" {
          return Some(InvalidEventField);
        }
        eventName := Some(fieldValue);
      } else if field == "data" {
        dataLines := dataLines + [fieldValue];
      } else {
        return Some(UnsupportedField);
      }
      e := None;
    }

    method FeedText(value: string) returns (e: Option<SseError>)
      modifies this
      ensures var r := Feed(cfg, old(State()), value);
        if r.Ok? then e.None? && State() == r.value else e == Some(r.error)
    {
      var k := 0;
      assert value[0..] == value;
      while k < |value|
        invariant 0 <= k <= |value|
        invariant Feed(cfg, old(State()), value) == Feed(cfg, State(), value[k..])
      {
        assert value[k..][0] == value[k] && value[k..][1..] == value[k + 1..];
        var character := value[k];
        if terminal {
          FeedAfterTerminal(cfg, State(), value[k..]);
          return None;
        }
        k := k + 1;
        if firstCharacter {
          firstCharacter := false;
          if character == BOM {
            continue;
          }
        } else if character == BOM {
          return Some(MisplacedBom);
        }
        if pendingCr {
          pendingCr := false;
          if character == '\n' {
            continue;
          }
        }
        if character == '\r' || character == '\n' {
          var failure := DispatchLine(line);
          if failure.Some? {
            return failure;
          }
          line, pendingCr := "", character == '\r';
        } else {
          line := line + [character];
        }
      }
      e := None;
    }
  }

  // ----- Fragmentation -----

  /** Feeding a text in two pieces is feeding it whole: state, terminal flag and error agree. */
  lemma {:induction false} FeedConcat(cfg: Config, st: Reader, a: string, b: string)
    ensures Feed(cfg, st, a + b) == (match Feed(cfg, st, a) case Err(e) => Err(e) case Ok(next) => Feed(cfg, next, b))
    decreases |a|
  {
    if a == "" {
      assert a + b == b;
    } else {
      assert (a + b)[0] == a[0] && (a + b)[1..] == a[1..] + b;
      var step := FeedChar(cfg, st, a[0]);
      if step.Ok? {
        FeedConcat(cfg, step.value, a[1..], b);
      }
    }
  }

  lemma {:induction false} FeedAfterTerminal(cfg: Config, st: Reader, text: string)
    requires st.terminal
    ensures Feed(cfg, st, text) == Ok(st)
    decreases |text|
  {
    if text != "" {
      FeedAfterTerminal(cfg, st, text[1..]);
    }
  }

  function FeedChunks(cfg: Config, st: Reader, chunks: seq<string>): Result<Reader, SseError>
    decreases |chunks|
  {
    if chunks == [] then Ok(st)
    else match Feed(cfg, st, chunks[0])
      case Err(e) => Err(e)
      case Ok(next) => FeedChunks(cfg, next, chunks[1..])
  }

  /** Any two ways of cutting the same characters into chunks are read alike. */
  lemma ChunkingIrrelevant(cfg: Config, st: Reader, a: seq<string>, b: seq<string>)
    requires Concat(a) == Concat(b)
    ensures FeedChunks(cfg, st, a) == FeedChunks(cfg, st, b)
  {
    ChunksAreConcat(cfg, st, a);
    ChunksAreConcat(cfg, st, b);
  }

  lemma {:induction false} ChunksAreConcat(cfg: Config, st: Reader, chunks: seq<string>)
    ensures FeedChunks(cfg, st, chunks) == Feed(cfg, st, Concat(chunks))
    decreases |chunks|
  {
    if chunks != [] {
      FeedConcat(cfg, st, chunks[0], Concat(chunks[1..]));
      var step := Feed(cfg, st, chunks[0]);
      if step.Ok? {
        ChunksAreConcat(cfg, step.value, chunks[1..]);
      }
    }
  }

  // ----- Printing -----

  datatype Ending = Cr | Lf | CrLf

  function Eol(ending: Ending): string {
    match ending
    case Cr => "\r"
    case Lf => "\n"
    case CrLf => "\r\n"
  }

  /** A frame: its event name, the lines of its data text, and the value that text decodes to. */
  datatype Frame = Frame(name: string, lines: seq<string>, data: Json)

  predicate Clean(text: string) {
    forall i :: 0 <= i < |text| ==> text[i] != '\r' && text[i] != '\n' && text[i] != BOM
  }

  predicate Printable(cfg: Config, f: Frame) {
    && f.name != "" && Clean(f.name)
    && f.lines != [] && (forall i :: 0 <= i < |f.lines| ==> Clean(f.lines[i]))
    && (cfg.decode)(Join(f.lines)) == Some(f.data)
  }

  function PrintLines(lines: seq<string>, ending: Ending): string {
    if lines == [] then "" else ("data: " + lines[0] + Eol(ending)) + PrintLines(lines[1..], ending)
  }

  function Print(f: Frame, ending: Ending): string {
    ("event: " + f.name + Eol(ending)) + (PrintLines(f.lines, ending) + Eol(ending))
  }

  function PrintAll(frames: seq<Frame>, ending: Ending): string {
    if frames == [] then "" else Print(frames[0], ending) + PrintAll(frames[1..], ending)
  }

  function EventsOf(frames: seq<Frame>): seq<Event> {
    if frames == [] then [] else [Event(frames[0].name, frames[0].data)] + EventsOf(frames[1..])
  }

  /** The last frame, and no other, is terminal. */
  predicate EndsAtTerminal(cfg: Config, frames: seq<Frame>) {
    && frames != []
    && (forall i :: 0 <= i < |frames| ==> (frames[i].name in cfg.terminals <==> i == |frames| - 1))
  }

  /** A reader between two lines of a stream printed with one line ending. */
  predicate AtLineStart(st: Reader, ending: Ending) {
    !st.terminal && st.line == "" && (st.pendingCr ==> ending.Cr?)
  }

  lemma {:induction false} FeedClean(cfg: Config, st: Reader, text: string)
    requires !st.terminal && Clean(text) && text != ""
    ensures Feed(cfg, st, text) == Ok(st.(line := st.line + text, pendingCr := false, first := false))
    decreases |text|
  {
    var next := FeedChar(cfg, st, text[0]).value;
    if |text| == 1 {
      assert text[1..] == "";
      assert text == [text[0]];
    } else {
      FeedClean(cfg, next, text[1..]);
      assert text == [text[0]] + text[1..];
      assert (st.line + [text[0]]) + text[1..] == st.line + text;
    }
  }

  /** The reader after one whole line, given what the line dispatched to. */
  function AfterLine(next: Reader, ending: Ending): Reader {
    next.(line := "", first := false, pendingCr := ending.Cr? || (ending.CrLf? && next.terminal))
  }

  lemma FeedEol(cfg: Config, st: Reader, ending: Ending)
    requires !st.terminal && (st.pendingCr ==> ending.Cr?)
    ensures Feed(cfg, st, Eol(ending)) ==
      (match Dispatch(cfg, st.(first := false, pendingCr := false), st.line)
       case Err(e) => Err(e)
       case Ok(next) => Ok(AfterLine(next, ending)))
  {
    var eol := Eol(ending);
    var step := FeedChar(cfg, st, eol[0]);
    assert eol == [eol[0]] + eol[1..];
    if ending.CrLf? {
      assert eol[1..] == "\n" && eol[1..][1..] == "";
      if step.Ok? {
        assert Feed(cfg, step.value, "\n") == Feed(cfg, FeedChar(cfg, step.value, '\n').value, "");
      }
    } else {
      assert eol[1..] == "";
    }
  }

  /** Feeding a whole non-empty line dispatches it. */
  lemma FeedLine(cfg: Config, st: Reader, text: string, ending: Ending)
    requires AtLineStart(st, ending) && Clean(text) && text != ""
    ensures Feed(cfg, st, text + Eol(ending)) ==
      (match Dispatch(cfg, st.(first := false, pendingCr := false, line := text), text)
       case Err(e) => Err(e)
       case Ok(next) => Ok(AfterLine(next, ending)))
  {
    FeedConcat(cfg, st, text, Eol(ending));
    FeedClean(cfg, st, text);
    assert st.line + text == text;
    FeedEol(cfg, st.(line := text, pendingCr := false, first := false), ending);
  }

  /** A printed field line is read back as that field. */
  lemma FieldLine(field: string, value: string)
    requires forall i :: 0 <= i < |field| ==> field[i] != ':'
    ensures Partition(field + ": " + value) == (field, Some(" " + value))
    ensures FieldValue(Some(" " + value)) == value
  {
    PartitionFields(field, " " + value);
    assert field + ": " + value == field + ":" + (" " + value);
  }

  lemma {:induction false} PartitionFields(field: string, rest: string)
    requires forall i :: 0 <= i < |field| ==> field[i] != ':'
    ensures Partition(field + ":" + rest) == (field, Some(rest))
  {
    var value := field + ":" + rest;
    if field == "" {
      assert value[1..] == rest;
    } else {
      assert value[1..] == field[1..] + ":" + rest;
      PartitionFields(field[1..], rest);
      assert [value[0]] + field[1..] == field;
    }
  }

  lemma FeedEventLine(cfg: Config, st: Reader, name: string, ending: Ending)
    requires AtLineStart(st, ending) && st.eventName.None? && name != "" && Clean(name)
    ensures Feed(cfg, st, "event: " + name + Eol(ending)) == Ok(AfterLine(st.(eventName := Some(name)), ending))
  {
    var text := "event: " + name;
    assert text == "event" + ": " + name;
    FieldLine("event", name);
    FeedLine(cfg, st, text, ending);
  }

  lemma FeedDataLine(cfg: Config, st: Reader, line: string, ending: Ending)
    requires AtLineStart(st, ending) && Clean(line)
    ensures Feed(cfg, st, "data: " + line + Eol(ending))
      == Ok(AfterLine(st.(dataLines := st.dataLines + [line]), ending))
  {
    var text := "data: " + line;
    assert text == "data" + ": " + line;
    FieldLine("data", line);
    FeedLine(cfg, st, text, ending);
  }

  lemma {:induction false} FeedDataLines(cfg: Config, st: Reader, lines: seq<string>, ending: Ending)
    requires AtLineStart(st, ending) && forall i :: 0 <= i < |lines| ==> Clean(lines[i])
    requires lines != []
    ensures Feed(cfg, st, PrintLines(lines, ending)) == Ok(AfterLine(st.(dataLines := st.dataLines + lines), ending))
    decreases |lines|
  {
    var here := "data: " + lines[0] + Eol(ending);
    FeedDataLine(cfg, st, lines[0], ending);
    var next := AfterLine(st.(dataLines := st.dataLines + [lines[0]]), ending);
    FeedConcat(cfg, st, here, PrintLines(lines[1..], ending));
    assert lines == [lines[0]] + lines[1..];
    if |lines| == 1 {
      assert lines == [lines[0]] && PrintLines(lines[1..], ending) == "";
    } else {
      FeedDataLines(cfg, next, lines[1..], ending);
      assert (st.dataLines + [lines[0]]) + lines[1..] == st.dataLines + lines;
    }
  }

  /** A printed frame is read back as its event. */
  lemma FeedFrame(cfg: Config, st: Reader, f: Frame, ending: Ending)
    requires Printable(cfg, f) && AtLineStart(st, ending) && st.eventName.None? && st.dataLines == []
    ensures Feed(cfg, st, Print(f, ending)) ==
      Ok(AfterLine(st.(events := st.events + [Event(f.name, f.data)], terminal := f.name in cfg.terminals), ending))
  {
    var afterName := AfterLine(st.(eventName := Some(f.name)), ending);
    var afterData := AfterLine(afterName.(dataLines := f.lines), ending);
    FeedEventLine(cfg, st, f.name, ending);
    FeedDataLines(cfg, afterName, f.lines, ending);
    assert [] + f.lines == f.lines;
    FeedEol(cfg, afterData, ending);
    FeedConcat(cfg, afterName, PrintLines(f.lines, ending), Eol(ending));
    FeedConcat(cfg, st, "event: " + f.name + Eol(ending), PrintLines(f.lines, ending) + Eol(ending));
  }

  lemma TerminalTail(cfg: Config, frames: seq<Frame>)
    requires EndsAtTerminal(cfg, frames)
    ensures frames != [] && (frames[0].name in cfg.terminals <==> |frames| == 1)
    ensures |frames| > 1 ==> EndsAtTerminal(cfg, frames[1..])
  {
  }

  lemma {:induction false} FeedFrames(cfg: Config, st: Reader, frames: seq<Frame>, ending: Ending)
    requires EndsAtTerminal(cfg, frames) && forall i :: 0 <= i < |frames| ==> Printable(cfg, frames[i])
    requires AtLineStart(st, ending) && st.eventName.None? && st.dataLines == []
    ensures var r := Feed(cfg, st, PrintAll(frames, ending));
      r.Ok? && r.value.terminal && r.value.events == st.events + EventsOf(frames)
    decreases |frames|
  {
    hide Feed, Print, Printable, EndsAtTerminal;
    TerminalTail(cfg, frames);
    var here := Print(frames[0], ending);
    FeedFrame(cfg, st, frames[0], ending);
    FeedConcat(cfg, st, here, PrintAll(frames[1..], ending));
    var next := AfterLine(st.(events := st.events + [Event(frames[0].name, frames[0].data)],
                              terminal := frames[0].name in cfg.terminals), ending);
    if |frames| == 1 {
      assert EventsOf(frames[1..]) == [];
      FeedAfterTerminal(cfg, next, PrintAll(frames[1..], ending));
    } else {
      FeedFrames(cfg, next, frames[1..], ending);
      assert next.events + EventsOf(frames[1..]) == st.events + EventsOf(frames);
    }
  }

  /** Only the last line ending of printed frames brings their terminal event. */
  lemma {:induction false} PrintedEnd(cfg: Config, st: Reader, frames: seq<Frame>, ending: Ending)
    returns (text: string)
    requires EndsAtTerminal(cfg, frames) && forall i :: 0 <= i < |frames| ==> Printable(cfg, frames[i])
    requires AtLineStart(st, ending) && st.eventName.None? && st.dataLines == []
    ensures PrintAll(frames, ending) == text + Eol(ending)
    ensures Feed(cfg, st, text).Ok? && !Feed(cfg, st, text).value.terminal
    decreases |frames|
  {
    hide Feed, EndsAtTerminal, PrintLines;
    TerminalTail(cfg, frames);
    var f := frames[0];
    if |frames| == 1 {
      var name, lines := "event: " + f.name + Eol(ending), PrintLines(f.lines, ending);
      text := name + lines;
      assert PrintAll(frames[1..], ending) == "";
      assert PrintAll(frames, ending) == text + Eol(ending);
      FeedEventLine(cfg, st, f.name, ending);
      FeedDataLines(cfg, AfterLine(st.(eventName := Some(f.name)), ending), f.lines, ending);
      FeedConcat(cfg, st, name, lines);
    } else {
      FeedFrame(cfg, st, f, ending);
      var next := AfterLine(st.(events := st.events + [Event(f.name, f.data)], terminal := f.name in cfg.terminals),
                            ending);
      var rest := PrintedEnd(cfg, next, frames[1..], ending);
      text := Print(f, ending) + rest;
      FeedConcat(cfg, st, Print(f, ending), rest);
      assert PrintAll(frames, ending) == text + Eol(ending);
    }
  }

  /** Printing any frames that end at their first terminal event, with any one line ending and with
      or without a leading byte-order mark, cutting the text anywhere, and reading it back returns
      exactly the printed events. */
  lemma PrintReadRoundTrip(cfg: Config, frames: seq<Frame>, ending: Ending, bom: bool, chunks: seq<string>)
    requires EndsAtTerminal(cfg, frames) && forall i :: 0 <= i < |frames| ==> Printable(cfg, frames[i])
    requires Concat(chunks) == (if bom then [BOM] else "") + PrintAll(frames, ending)
    ensures Verdict(FeedChunks(cfg, FRESH, chunks)) == Ok(EventsOf(frames))
  {
    var text := PrintAll(frames, ending);
    ChunksAreConcat(cfg, FRESH, chunks);
    assert [] + EventsOf(frames) == EventsOf(frames);
    if bom {
      assert ([BOM] + text)[1..] == text;
      FeedFrames(cfg, FRESH.(first := false), frames, ending);
    } else {
      assert "" + text == text;
      FeedFrames(cfg, FRESH, frames, ending);
    }
  }

  // ----- What a successful reading returns -----

  /** Only the last event can be terminal, and it is exactly when the reader has stopped. */
  predicate StopsInTime(cfg: Config, st: Reader) {
    && (st.eventName.Some? ==> st.eventName.value != "")
    && (forall i :: 0 <= i < |st.events| ==> st.events[i].name != "")
    && (forall i :: 0 <= i < |st.events| && st.events[i].name in cfg.terminals ==> i == |st.events| - 1)
    && (st.terminal <==> st.events != [] && st.events[|st.events| - 1].name in cfg.terminals)
  }

  lemma DispatchStops(cfg: Config, st: Reader, value: string)
    requires StopsInTime(cfg, st) && !st.terminal
    ensures Dispatch(cfg, st, value).Ok? ==> StopsInTime(cfg, Dispatch(cfg, st, value).value)
  {
    hide Join, Partition, FieldValue;
  }

  /** Only the events, the event name and the flag matter. */
  lemma StopsAlike(cfg: Config, st: Reader, other: Reader)
    requires StopsInTime(cfg, st)
    requires other.events == st.events && other.eventName == st.eventName && other.terminal == st.terminal
    ensures StopsInTime(cfg, other)
  {
  }

  lemma StopsInTimeStep(cfg: Config, st: Reader, c: char)
    requires StopsInTime(cfg, st)
    ensures FeedChar(cfg, st, c).Ok? ==> StopsInTime(cfg, FeedChar(cfg, st, c).value)
  {
    hide Dispatch, StopsInTime;
    var now, step := st.(first := false, pendingCr := false), FeedChar(cfg, st, c);
    StopsAlike(cfg, st, now);
    if step.Ok? && !st.terminal {
      var line := Dispatch(cfg, now, now.line);
      DispatchStops(cfg, now, now.line);
      if (c == '\r' || c == '\n') && !(st.pendingCr && c == '\n') {
        StopsAlike(cfg, line.value, step.value);
      } else {
        StopsAlike(cfg, st, step.value);
      }
    }
  }

  lemma {:induction false} FeedStopsInTime(cfg: Config, st: Reader, text: string)
    requires StopsInTime(cfg, st)
    ensures Feed(cfg, st, text).Ok? ==> StopsInTime(cfg, Feed(cfg, st, text).value)
    decreases |text|
  {
    hide FeedChar, StopsInTime;
    if text != "" && FeedChar(cfg, st, text[0]).Ok? {
      StopsInTimeStep(cfg, st, text[0]);
      FeedStopsInTime(cfg, FeedChar(cfg, st, text[0]).value, text[1..]);
    }
  }

  /** Whatever the provider sends, a successful reading returns named events of which the last, and no
      other, is terminal. */
  lemma ReadEndsAtTerminal(cfg: Config, chunks: seq<string>)
    requires Verdict(FeedChunks(cfg, FRESH, chunks)).Ok?
    ensures var events := Verdict(FeedChunks(cfg, FRESH, chunks)).value;
      && events != []
      && (forall i :: 0 <= i < |events| ==>
        events[i].name != "" && (events[i].name in cfg.terminals <==> i == |events| - 1))
  {
    hide Feed;
    ChunksAreConcat(cfg, FRESH, chunks);
    FeedStopsInTime(cfg, FRESH, Concat(chunks));
  }
}
