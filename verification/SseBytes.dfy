/** The byte-level reading of an event stream: size limit, declared length, decoding and network chunks. */
module SseBytes {
  import opened Wrappers
  import opened JsonValues
  import opened Sse
  import opened Utf8

  const CHUNK := 64 * 1024

  datatype ByteError = TooLarge | NotUtf8 | EndedEarly | Stream(error: ReadError)

  type Outcome = Result<seq<Event>, ByteError>

  function Min(a: nat, b: nat): nat {
    if a <= b then a else b
  }

  /** How many bytes are asked for after `n`: at most one more than the limit, and none past the declared length. */
  function Asked(limit: nat, declared: Option<nat>, n: nat): nat
    requires n <= limit && (declared.Some? ==> n < declared.value)
  {
    Min(CHUNK, if declared.Some? then Min(limit + 1 - n, declared.value - n) else limit + 1 - n)
  }

  /** How many arrive. The network has `cut(n)` ready after `n`; none arrive only at the end of the body. */
  function Arrived(limit: nat, declared: Option<nat>, body: Bytes, cut: nat -> nat, n: nat): nat
    requires n <= limit && n <= |body| && (declared.Some? ==> n < declared.value)
  {
    Min(Asked(limit, declared, n), Min(if cut(n) == 0 then 1 else cut(n), |body| - n))
  }

  /** Is another read due? */
  predicate Due(declared: Option<nat>, n: nat, st: Reader) {
    if declared.Some? then n < declared.value else !st.terminal
  }

  /** The verdict when no more bytes are read; `tail` are the bytes of an unfinished character. */
  function Finish(declared: Option<nat>, n: nat, tail: Bytes, st: Reader): Outcome {
    if tail != [] then Err(NotUtf8)
    else if declared.Some? && n != declared.value then Err(EndedEarly)
    else match Verdict(Ok(st))
      case Ok(events) => Ok(events)
      case Err(e) => Err(Stream(e))
  }

  /** The rest of a reading, after `n` bytes left the reader at `st` with `tail` not yet decoded. */
  function ReadFrom(cfg: Config, limit: nat, declared: Option<nat>, body: Bytes, cut: nat -> nat, n: nat, tail: Bytes,
          st: Reader): Outcome
    requires n <= |body| && n <= limit
    decreases |body| - n
  {
    if !Due(declared, n, st) || n == |body| then Finish(declared, n, tail, st)
    else
      var next := n + Arrived(limit, declared, body, cut, n);
      if next > limit then Err(TooLarge)
      else
        match Decoded(tail + body[n..next])
        case None => Err(NotUtf8)
        case Some((text, rest)) =>
          match Feed(cfg, st, text)
          case Err(e) => Err(Stream(Protocol(e)))
          case Ok(fed) => ReadFrom(cfg, limit, declared, body, cut, next, rest, fed)
  }

  function ReadAll(cfg: Config, limit: nat, declared: Option<int>, body: Bytes, cut: nat -> nat): Outcome {
    if declared.None? then ReadFrom(cfg, limit, None, body, cut, 0, [], FRESH)
    else if declared.value < 0 || declared.value > limit then Err(TooLarge)
    else ReadFrom(cfg, limit, Some(declared.value as nat), body, cut, 0, [], FRESH)
  }

  /** Reads a body that the network cuts as it likes: up to the declared length if there is one, else up to
      the read that brought the terminal event. */
  method ReadSse(cfg: Config, limit: nat, declared: Option<int>, body: Bytes, cut: nat -> nat) returns (r: Outcome)
    ensures r == ReadAll(cfg, limit, declared, body, cut)
  {
    hide Arrived, Feed, Decoded, Verdict;
    if declared.Some? && (declared.value < 0 || declared.value > limit) {
      return Err(TooLarge);
    }
    var expected: Option<nat> := if declared.Some? then Some(declared.value as nat) else None;
    var reader := new SseReader(cfg);
    var n, tail: Bytes := 0, [];
    while (!reader.terminal || expected.Some?) && (expected.None? || n < expected.value)
      invariant 0 <= n <= |body| && n <= limit && reader.cfg == cfg
      invariant ReadAll(cfg, limit, declared, body, cut)
        == ReadFrom(cfg, limit, expected, body, cut, n, tail, reader.State())
      decreases |body| - n
    {
      ArrivesWithin(limit, expected, body, cut, n);
      var chunk := body[n..n + Arrived(limit, expected, body, cut, n)];
      if chunk == [] {
        break;
      }
      n := n + |chunk|;
      if n > limit {
        return Err(TooLarge);
      }
      var decoded := Decoded(tail + chunk);
      if decoded.None? {
        return Err(NotUtf8);
      }
      tail := decoded.value.1;
      var failure := reader.FeedText(decoded.value.0);
      if failure.Some? {
        return Err(Stream(Protocol(failure.value)));
      }
    }
    if tail != [] {
      return Err(NotUtf8);
    }
    if expected.Some? && n != expected.value {
      return Err(EndedEarly);
    }
    if reader.terminal {
      VerdictOf(reader.State());
      return Ok(reader.events);
    }
    VerdictOf(reader.State());
    if reader.line != "" || reader.eventName.Some? || reader.dataLines != [] {
      return Err(Stream(EndedMidFrame));
    }
    r := Err(Stream(EndedBeforeTerminal));
  }

  lemma VerdictOf(st: Reader)
    ensures Verdict(Ok(st)) ==
      if st.terminal then Ok(st.events)
      else if st.line != "" || st.eventName.Some? || st.dataLines != [] then Err(EndedMidFrame)
      else Err(EndedBeforeTerminal)
  {
  }

  lemma ArrivesWithin(limit: nat, declared: Option<nat>, body: Bytes, cut: nat -> nat, n: nat)
    requires n <= limit && n <= |body| && (declared.Some? ==> n < declared.value)
    ensures var m := Arrived(limit, declared, body, cut, n);
      && n + m <= |body| && n + m <= limit + 1 && m <= CHUNK && (m == 0 <==> n == |body|)
      && (declared.Some? ==> n + m <= declared.value)
  {
  }

  // ----- What some bytes bring the reader to -----

  /** The reader after some bytes, and the bytes of an unfinished character; `None` after an error. */
  function After(cfg: Config, b: Bytes): Option<(Bytes, Reader)> {
    Onward(cfg, FRESH, [], b)
  }

  function Onward(cfg: Config, st: Reader, tail: Bytes, b: Bytes): Option<(Bytes, Reader)> {
    match Decoded(tail + b)
    case None => None
    case Some((text, rest)) =>
      match Feed(cfg, st, text)
      case Err(_) => None
      case Ok(fed) => Some((rest, fed))
  }

  /** Bytes that end a stream exactly: whole characters, and these events with a terminal one. */
  predicate Whole(cfg: Config, b: Bytes, events: seq<Event>) {
    var after := After(cfg, b);
    after.Some? && after.value.0 == [] && after.value.1.terminal && after.value.1.events == events
  }

  lemma AfterConcat(cfg: Config, a: Bytes, b: Bytes)
    ensures After(cfg, a + b) ==
      match After(cfg, a) case None => None case Some((tail, st)) => Onward(cfg, st, tail, b)
  {
    hide Decoded, Feed;
    assert [] + a == a && [] + (a + b) == a + b;
    DecodedConcat(a, b);
    if Decoded(a).Some? {
      var text, tail := Decoded(a).value.0, Decoded(a).value.1;
      if Decoded(tail + b).Some? {
        FeedConcat(cfg, FRESH, text, Decoded(tail + b).value.0);
      }
    }
  }

  lemma AfterMore(cfg: Config, body: Bytes, n: nat, m: nat)
    requires n <= m <= |body|
    ensures After(cfg, body[..m]) ==
      match After(cfg, body[..n]) case None => None case Some((tail, st)) => Onward(cfg, st, tail, body[n..m])
  {
    hide After, Onward;
    AfterConcat(cfg, body[..n], body[n..m]);
    assert body[..m] == body[..n] + body[n..m];
  }

  /** A terminal event settles the reader: bytes behind it can only spoil the reading. */
  lemma Settled(cfg: Config, body: Bytes, n: nat, m: nat)
    requires n <= m <= |body| && After(cfg, body[..n]).Some? && After(cfg, body[..n]).value.1.terminal
    ensures Decoded(body[..m]).Some? <==> After(cfg, body[..m]).Some?
    ensures Decoded(body[..m]).Some? ==>
      After(cfg, body[..m]) == Some((Decoded(body[..m]).value.1, After(cfg, body[..n]).value.1))
  {
    hide Decoded, Feed;
    var tail, st := After(cfg, body[..n]).value.0, After(cfg, body[..n]).value.1;
    AfterMore(cfg, body, n, m);
    assert [] + body[..m] == body[..m] && [] + body[..n] == body[..n];
    DecodedConcat(body[..n], body[n..m]);
    assert body[..m] == body[..n] + body[n..m];
    if Decoded(tail + body[n..m]).Some? {
      FeedAfterTerminal(cfg, st, Decoded(tail + body[n..m]).value.0);
    }
  }

  /** However many bytes are read, a stream that ends has the same events. */
  lemma WholeAgrees(cfg: Config, body: Bytes, n: nat, a: seq<Event>, m: nat, b: seq<Event>)
    requires n <= |body| && m <= |body| && Whole(cfg, body[..n], a) && Whole(cfg, body[..m], b)
    ensures a == b
  {
    hide After, Decoded;
    Settled(cfg, body, Min(n, m), if n <= m then m else n);
  }

  // ----- A declared length -----

  /** A reading that succeeds ends after bytes that end a stream, within the limit and at the declared length. */
  lemma {:induction false} SuccessIsWhole(cfg: Config, limit: nat, declared: Option<nat>, body: Bytes, cut: nat -> nat,
          n: nat, tail: Bytes, st: Reader) returns (e: nat)
    requires n <= |body| && n <= limit && After(cfg, body[..n]) == Some((tail, st))
    requires ReadFrom(cfg, limit, declared, body, cut, n, tail, st).Ok?
    ensures n <= e <= |body| && e <= limit && (declared.Some? ==> e == declared.value)
    ensures Whole(cfg, body[..e], ReadFrom(cfg, limit, declared, body, cut, n, tail, st).value)
    decreases |body| - n
  {
    hide After, Arrived, Decoded, Feed, Verdict;
    if !Due(declared, n, st) || n == |body| {
      VerdictOf(st);
      e := n;
    } else {
      ArrivesWithin(limit, declared, body, cut, n);
      var next := n + Arrived(limit, declared, body, cut, n);
      AfterMore(cfg, body, n, next);
      var after := After(cfg, body[..next]);
      e := SuccessIsWhole(cfg, limit, declared, body, cut, next, after.value.0, after.value.1);
    }
  }

  lemma {:induction false} WholeSucceeds(cfg: Config, limit: nat, d: nat, body: Bytes, cut: nat -> nat,
          n: nat, tail: Bytes, st: Reader, events: seq<Event>)
    requires n <= d <= |body| && d <= limit && After(cfg, body[..n]) == Some((tail, st))
    requires Whole(cfg, body[..d], events)
    ensures ReadFrom(cfg, limit, Some(d), body, cut, n, tail, st) == Ok(events)
    decreases |body| - n
  {
    hide After, Arrived, Decoded, Feed, Verdict;
    if n == d {
      VerdictOf(st);
    } else {
      ArrivesWithin(limit, Some(d), body, cut, n);
      var next := n + Arrived(limit, Some(d), body, cut, n);
      AfterMore(cfg, body, n, next);
      AfterMore(cfg, body, next, d);
      var after := After(cfg, body[..next]);
      WholeSucceeds(cfg, limit, d, body, cut, next, after.value.0, after.value.1, events);
    }
  }

  lemma NothingRead(cfg: Config, body: Bytes)
    ensures After(cfg, body[..0]) == Some(([], FRESH))
  {
    assert [] + body[..0] == [];
  }

  /** With a declared length, success and events do not depend on how the network cuts the body: a reading
      succeeds exactly when the length is within the limit and that many bytes end a stream. */
  lemma DeclaredExactly(cfg: Config, limit: nat, d: int, body: Bytes, cut: nat -> nat, events: seq<Event>)
    ensures ReadAll(cfg, limit, Some(d), body, cut) == Ok(events) <==>
      0 <= d <= limit && d <= |body| && Whole(cfg, body[..d], events)
  {
    hide After, Whole, ReadFrom;
    NothingRead(cfg, body);
    if 0 <= d <= limit {
      if ReadAll(cfg, limit, Some(d), body, cut) == Ok(events) {
        var e := SuccessIsWhole(cfg, limit, Some(d), body, cut, 0, [], FRESH);
      }
      if d <= |body| && Whole(cfg, body[..d], events) {
        WholeSucceeds(cfg, limit, d, body, cut, 0, [], FRESH, events);
      }
    }
  }

  // ----- No declared length -----

  /** The first `t` bytes are the fewest that bring a terminal event. */
  predicate Stops(cfg: Config, body: Bytes, t: nat) {
    && t <= |body| && After(cfg, body[..t]).Some? && After(cfg, body[..t]).value.1.terminal
    && (forall k :: 0 <= k < t && After(cfg, body[..k]).Some? ==> !After(cfg, body[..k]).value.1.terminal)
  }

  lemma {:induction false} StopExists(cfg: Config, body: Bytes, e: nat) returns (t: nat)
    requires e <= |body| && After(cfg, body[..e]).Some? && After(cfg, body[..e]).value.1.terminal
    ensures 0 < t <= e && Stops(cfg, body, t)
  {
    hide After;
    NothingRead(cfg, body);
    t := 0;
    while After(cfg, body[..t]).None? || !After(cfg, body[..t]).value.1.terminal
      invariant 0 <= t <= e
      invariant forall k :: 0 <= k < t && After(cfg, body[..k]).Some? ==> !After(cfg, body[..k]).value.1.terminal
      decreases e - t
    {
      t := t + 1;
    }
  }

  /** The furthest a reading can get that stops only at the terminal event. */
  function Furthest(limit: nat, body: Bytes, t: nat): nat
    requires t > 0
  {
    Min(Min(|body|, limit + 1), t - 1 + CHUNK)
  }

  /** What a reading makes of having read `e` bytes, at least as many as bring the terminal event. */
  function StoppedAt(limit: nat, body: Bytes, e: nat, events: seq<Event>): Outcome
    requires e <= |body|
  {
    if e > limit then Err(TooLarge)
    else match Decoded(body[..e])
      case None => Err(NotUtf8)
      case Some((_, tail)) => if tail == [] then Ok(events) else Err(NotUtf8)
  }

  lemma DecodedMore(cfg: Config, body: Bytes, n: nat, m: nat)
    requires n <= m <= |body| && After(cfg, body[..n]).Some?
    ensures Decoded(After(cfg, body[..n]).value.0 + body[n..m]).Some? <==> Decoded(body[..m]).Some?
  {
    hide Decoded, Feed;
    assert [] + body[..n] == body[..n] && body[..m] == body[..n] + body[n..m];
    DecodedConcat(body[..n], body[n..m]);
  }

  /** Without a declared length a reading stops with the chunk that brings the terminal event, and judges
      all of that chunk. */
  lemma {:induction false} StopsWithItsChunk(cfg: Config, limit: nat, body: Bytes, cut: nat -> nat,
          n: nat, tail: Bytes, st: Reader, t: nat) returns (e: nat)
    requires Stops(cfg, body, t) && n < t <= limit && After(cfg, body[..n]) == Some((tail, st))
    ensures t <= e <= Furthest(limit, body, t)
    ensures ReadFrom(cfg, limit, None, body, cut, n, tail, st)
      == StoppedAt(limit, body, e, After(cfg, body[..t]).value.1.events)
    ensures (forall k :: n <= k < t - 1 ==> cut(k) == 1) && 1 <= cut(t - 1) <= Furthest(limit, body, t) - (t - 1) ==>
      e == t - 1 + cut(t - 1)
    decreases t - n
  {
    hide After, Decoded, Feed, Verdict;
    ArrivesWithin(limit, None, body, cut, n);
    var next := n + Arrived(limit, None, body, cut, n);
    AfterMore(cfg, body, n, next);
    if next < t {
      AfterMore(cfg, body, next, t);
      var after := After(cfg, body[..next]);
      e := StopsWithItsChunk(cfg, limit, body, cut, next, after.value.0, after.value.1, t);
    } else {
      e := next;
      Settled(cfg, body, t, next);
      DecodedMore(cfg, body, n, next);
      VerdictOf(After(cfg, body[..t]).value.1);
    }
  }

  function OneByOne(): nat -> nat {
    k => 1
  }

  /** Some cutting of the body is read successfully exactly when bytes within the limit end a stream, and
      then the reading byte by byte is. */
  lemma SomeCuttingExactly(cfg: Config, limit: nat, body: Bytes, events: seq<Event>)
    ensures (exists cut :: ReadAll(cfg, limit, None, body, cut) == Ok(events)) <==>
      exists e :: 0 <= e <= |body| && e <= limit && Whole(cfg, body[..e], events)
    ensures (exists cut :: ReadAll(cfg, limit, None, body, cut) == Ok(events)) ==>
      ReadAll(cfg, limit, None, body, OneByOne()) == Ok(events)
  {
    hide After, Whole, ReadFrom, Furthest;
    NothingRead(cfg, body);
    forall cut | ReadAll(cfg, limit, None, body, cut) == Ok(events)
      ensures exists e :: 0 <= e <= |body| && e <= limit && Whole(cfg, body[..e], events)
    {
      var e := SuccessIsWhole(cfg, limit, None, body, cut, 0, [], FRESH);
    }
    forall e | 0 <= e <= |body| && e <= limit && Whole(cfg, body[..e], events)
      ensures ReadAll(cfg, limit, None, body, OneByOne()) == Ok(events)
    {
      OneByOneReads(cfg, limit, body, e, events);
    }
  }

  lemma OneByOneReads(cfg: Config, limit: nat, body: Bytes, e: nat, events: seq<Event>)
    requires e <= |body| && e <= limit && Whole(cfg, body[..e], events)
    ensures ReadAll(cfg, limit, None, body, OneByOne()) == Ok(events)
  {
    hide After, ReadFrom, Decoded;
    NothingRead(cfg, body);
    var t := StopExists(cfg, body, e);
    Settled(cfg, body, t, e);
    var stop := StopsWithItsChunk(cfg, limit, body, OneByOne(), 0, [], FRESH, t);
    StopIsWhole(cfg, body, t);
  }

  /** The byte that brings the terminal event finishes its character. */
  lemma StopIsWhole(cfg: Config, body: Bytes, t: nat)
    requires Stops(cfg, body, t) && t > 0
    ensures Decoded(body[..t]).Some? && Decoded(body[..t]).value.1 == []
  {
    hide Decoded, FeedChar;
    AfterMore(cfg, body, t - 1, t);
    var tail, st := After(cfg, body[..t - 1]).value.0, After(cfg, body[..t - 1]).value.1;
    assert [] + body[..t - 1] == body[..t - 1] && [] + body[..t] == body[..t];
    assert body[t - 1..t] == [body[t - 1]] && body[..t] == body[..t - 1] + [body[t - 1]];
    TailIsPartial(body[..t - 1]);
    OneMoreByte(tail, body[t - 1]);
  }

  /** Any two cuttings that are read successfully give the same events. */
  lemma SuccessAgrees(cfg: Config, limit: nat, body: Bytes, one: nat -> nat, other: nat -> nat)
    requires ReadAll(cfg, limit, None, body, one).Ok? && ReadAll(cfg, limit, None, body, other).Ok?
    ensures ReadAll(cfg, limit, None, body, one) == ReadAll(cfg, limit, None, body, other)
  {
    hide After, Whole, ReadFrom;
    NothingRead(cfg, body);
    var n := SuccessIsWhole(cfg, limit, None, body, one, 0, [], FRESH);
    var m := SuccessIsWhole(cfg, limit, None, body, other, 0, [], FRESH);
    WholeAgrees(cfg, body, n, ReadAll(cfg, limit, None, body, one).value,
                m, ReadAll(cfg, limit, None, body, other).value);
  }

  /** One byte at a time up to `t - 1`, and from there on as many as reach `e`. */
  function CutAt(t: nat, e: nat): nat -> nat
    requires 0 < t <= e
  {
    k => if k == t - 1 then e - (t - 1) else 1
  }

  /** Wherever the chunk that brings the terminal event can end, the bytes up to there are whole characters
      within the limit. */
  predicate ChunkEndsSafely(limit: nat, body: Bytes, t: nat)
    requires t > 0
  {
    forall e :: t <= e <= Furthest(limit, body, t) ==>
      e <= limit && Decoded(body[..e]).Some? && Decoded(body[..e]).value.1 == []
  }

  predicate SafeStop(cfg: Config, limit: nat, body: Bytes, t: nat, events: seq<Event>) {
    && 0 < t <= limit && Stops(cfg, body, t) && After(cfg, body[..t]).value.1.events == events
    && ChunkEndsSafely(limit, body, t)
  }

  /** Without a declared length every cutting is read successfully exactly when the terminal event comes
      within the limit and no chunk that brings it can end inside a character, behind bytes that are no
      characters, or past the limit. */
  lemma EveryCuttingExactly(cfg: Config, limit: nat, body: Bytes, events: seq<Event>)
    ensures (forall cut :: ReadAll(cfg, limit, None, body, cut) == Ok(events)) <==>
      exists t :: SafeStop(cfg, limit, body, t, events)
  {
    hide ReadAll, SafeStop;
    if forall cut :: ReadAll(cfg, limit, None, body, cut) == Ok(events) {
      var t := EveryCuttingStops(cfg, limit, body, events);
    }
    forall t, cut | SafeStop(cfg, limit, body, t, events)
      ensures ReadAll(cfg, limit, None, body, cut) == Ok(events)
    {
      SafeChunkSucceeds(cfg, limit, body, t, cut, events);
    }
  }

  lemma SafeChunkSucceeds(cfg: Config, limit: nat, body: Bytes, t: nat, cut: nat -> nat, events: seq<Event>)
    requires SafeStop(cfg, limit, body, t, events)
    ensures ReadAll(cfg, limit, None, body, cut) == Ok(events)
  {
    hide After, ReadFrom, Decoded;
    NothingRead(cfg, body);
    var e := StopsWithItsChunk(cfg, limit, body, cut, 0, [], FRESH, t);
    assert Decoded(body[..e]).Some? && Decoded(body[..e]).value.1 == [];
  }

  lemma EveryCuttingStops(cfg: Config, limit: nat, body: Bytes, events: seq<Event>) returns (t: nat)
    requires forall cut :: ReadAll(cfg, limit, None, body, cut) == Ok(events)
    ensures SafeStop(cfg, limit, body, t, events)
  {
    hide After, ReadFrom, Decoded, Stops;
    NothingRead(cfg, body);
    assert ReadAll(cfg, limit, None, body, OneByOne()) == Ok(events);
    var first := SuccessIsWhole(cfg, limit, None, body, OneByOne(), 0, [], FRESH);
    t := StopExists(cfg, body, first);
    forall e | t <= e <= Furthest(limit, body, t)
      ensures e <= limit && Decoded(body[..e]).Some? && Decoded(body[..e]).value.1 == []
    {
      assert ReadAll(cfg, limit, None, body, CutAt(t, e)) == Ok(events);
      ReachedByCutting(cfg, limit, body, t, e);
    }
    StopEvents(cfg, body, t, first, events);
  }

  /** Any end the chunk can have, some cutting gives it. */
  lemma ReachedByCutting(cfg: Config, limit: nat, body: Bytes, t: nat, e: nat)
    requires Stops(cfg, body, t) && 0 < t <= limit && t <= e <= Furthest(limit, body, t)
    ensures ReadAll(cfg, limit, None, body, CutAt(t, e))
      == StoppedAt(limit, body, e, After(cfg, body[..t]).value.1.events)
  {
    hide After, ReadFrom, Decoded, Furthest, Stops;
    NothingRead(cfg, body);
    var stop := StopsWithItsChunk(cfg, limit, body, CutAt(t, e), 0, [], FRESH, t);
  }

  lemma StopEvents(cfg: Config, body: Bytes, t: nat, e: nat, events: seq<Event>)
    requires Stops(cfg, body, t) && t <= e <= |body| && Whole(cfg, body[..e], events)
    ensures After(cfg, body[..t]).value.1.events == events
  {
    hide After, Decoded;
    Settled(cfg, body, t, e);
  }

  // ----- Printed streams -----

  lemma {:induction false} EncodedConcat(a: string, b: string)
    ensures Encoded(a + b) == Encoded(a) + Encoded(b)
    decreases |a|
  {
    hide Encode;
    if a == "" {
      assert a + b == b;
    } else {
      EncodedConcat(a[1..], b);
      assert (a + b)[1..] == a[1..] + b;
    }
  }

  lemma AfterEncoded(cfg: Config, text: string)
    ensures After(cfg, Encoded(text)) ==
      match Feed(cfg, FRESH, text) case Err(_) => None case Ok(st) => Some(([], st))
  {
    hide Feed, Encoded;
    DecodeEncoded(text, []);
    assert Encoded(text) + [] == Encoded(text) && [] + Encoded(text) == Encoded(text) && text + "" == text;
  }

  lemma EolBytes(ending: Ending)
    ensures Encoded(Eol(ending)) == if ending.Cr? then [13] else if ending.Lf? then [10] else [13, 10]
  {
    assert Encoded(Eol(ending)[1..]) == if ending.CrLf? then [10] else [];
  }

  /** The bytes of a printed stream up to any point in its last line ending are whole characters. */
  lemma PrintedPrefix(text: string, ending: Ending, e: nat)
    requires |Encoded(text)| <= e <= |Encoded(text) + Encoded(Eol(ending))|
    ensures var body := Encoded(text) + Encoded(Eol(ending));
      Decoded(body[..e]).Some? && Decoded(body[..e]).value.1 == []
  {
    hide Encoded;
    EolBytes(ending);
    var front, end := Encoded(text), Encoded(Eol(ending));
    var part := end[..e - |front|];
    assert (front + end)[..e] == front + part;
    DecodeEncoded(text, part);
    assert part == if |part| == 0 then [] else if |part| == 1 then [end[0]] else [end[0], end[1]];
    LineEndsDecode(part);
  }

  lemma LineEndsDecode(part: Bytes)
    requires part in {[], [10], [13], [13, 10]}
    ensures Decoded(part).Some? && Decoded(part).value.1 == []
  {
    if part == [13, 10] {
      assert part[1..] == [10] && part[1..][1..] == [];
    } else if part != [] {
      assert part[1..] == [];
    }
  }

  /** Printing frames that end at their first terminal event, encoding the text and sending it with or
      without its length, cut anywhere, returns exactly the printed events, if it is within the limit. */
  lemma PrintedBytesRead(cfg: Config, limit: nat, frames: seq<Frame>, ending: Ending, cut: nat -> nat)
    requires EndsAtTerminal(cfg, frames) && forall i :: 0 <= i < |frames| ==> Printable(cfg, frames[i])
    requires |Encoded(PrintAll(frames, ending))| <= limit
    ensures var body := Encoded(PrintAll(frames, ending));
      && ReadAll(cfg, limit, Some(|body|), body, cut) == Ok(EventsOf(frames))
      && ReadAll(cfg, limit, None, body, cut) == Ok(EventsOf(frames))
  {
    hide Feed, Decoded, ReadAll, PrintAll, Printable, EndsAtTerminal, Encoded, Stops;
    var text := PrintAll(frames, ending);
    var body := Encoded(text);
    FeedFrames(cfg, FRESH, frames, ending);
    assert [] + EventsOf(frames) == EventsOf(frames);
    AfterEncoded(cfg, text);
    assert body[..|body|] == body;
    DeclaredExactly(cfg, limit, |body|, body, cut, EventsOf(frames));
    var t := StopExists(cfg, body, |body|);
    var front := PrintedEnd(cfg, FRESH, frames, ending);
    PrintedStop(cfg, front, ending, t);
    StopEvents(cfg, body, t, |body|, EventsOf(frames));
    forall e | t <= e <= Furthest(limit, body, t)
      ensures e <= limit && Decoded(body[..e]).Some? && Decoded(body[..e]).value.1 == []
    {
      PrintedPrefix(front, ending, e);
    }
    SafeChunkSucceeds(cfg, limit, body, t, cut, EventsOf(frames));
  }

  lemma PrintedStop(cfg: Config, front: string, ending: Ending, t: nat)
    requires Feed(cfg, FRESH, front).Ok? && !Feed(cfg, FRESH, front).value.terminal
    requires Stops(cfg, Encoded(front + Eol(ending)), t)
    ensures Encoded(front + Eol(ending)) == Encoded(front) + Encoded(Eol(ending)) && |Encoded(front)| < t
  {
    hide Feed, Decoded, After, Encoded;
    var body, n := Encoded(front + Eol(ending)), |Encoded(front)|;
    EncodedConcat(front, Eol(ending));
    AfterEncoded(cfg, front);
    assert body[..n] == Encoded(front);
    if t <= n {
      Settled(cfg, body, t, n);
    }
  }

  // ----- A body that is read byte by byte and refused in one piece -----

  function Anything(): Config {
    Config((text: string) => Some(Null), {"done"})
  }

  /** One terminal event, and a byte that is no character behind it. */
  function Spoiled(): Bytes {
    Encoded(Print(Frame("done", ["x"], Null), Lf)) + [0xFF]
  }

  function InOnePiece(): nat -> nat {
    k => CHUNK
  }

  lemma {:induction false} EncodedLength(text: string)
    ensures |Encoded(text)| <= 4 * |text|
    decreases |text|
  {
    if text != "" {
      EncodedLength(text[1..]);
    }
  }

  lemma SpoiledParts()
    ensures var text := PrintAll([Frame("done", ["x"], Null)], Lf);
      && Spoiled() == Encoded(text) + [0xFF] && 0 < |Spoiled()| < 100
      && Feed(Anything(), FRESH, text).Ok? && Feed(Anything(), FRESH, text).value.terminal
      && Feed(Anything(), FRESH, text).value.events == [Event("done", Null)]
  {
    hide Feed, Encoded;
    var f := Frame("done", ["x"], Null);
    FeedFrames(Anything(), FRESH, [f], Lf);
    assert PrintAll([f][1..], Lf) == "" && EventsOf([f][1..]) == [];
    assert Print(f, Lf) + "" == Print(f, Lf) && PrintLines(["x"][1..], Lf) == "";
    assert |Print(f, Lf)| < 24;
    EncodedLength(Print(f, Lf));
  }

  /** Without a declared length the same bytes can be read or refused, depending on the network alone: what
      comes in one chunk with the terminal event is decoded, what comes later is never read. */
  lemma CuttingCanMatter()
    ensures ReadAll(Anything(), 1000, None, Spoiled(), OneByOne()) == Ok([Event("done", Null)])
    ensures ReadAll(Anything(), 1000, None, Spoiled(), InOnePiece()) == Err(NotUtf8)
  {
    hide Feed, Encoded, PrintAll, Spoiled;
    var text, body := PrintAll([Frame("done", ["x"], Null)], Lf), Spoiled();
    SpoiledParts();
    var n := |Encoded(text)|;
    AfterEncoded(Anything(), text);
    assert body[..n] == Encoded(text);
    OneByOneReads(Anything(), 1000, body, n, [Event("done", Null)]);
    DecodeEncoded(text, [0xFF]);
    assert HeadOf([0xFF]).Invalid?;
    assert [] + body[0..|body|] == body;
  }
}
