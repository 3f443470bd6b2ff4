/** UTF-8 as section 4 of RFC 3629 defines it, decoded piece by piece. */
module Utf8 {
  import opened Wrappers

  predicate Continuation(b: byte) {
    0x80 <= b < 0xC0
  }

  /** How many bytes a character with this first byte has; zero if none starts with it. */
  function Length(lead: byte): nat {
    if lead < 0x80 then 1
    else if 0xC2 <= lead < 0xE0 then 2
    else if 0xE0 <= lead < 0xF0 then 3
    else if 0xF0 <= lead < 0xF5 then 4
    else 0
  }

  /** The second byte rules out long forms, surrogates and numbers beyond the last character. */
  predicate SecondOk(lead: byte, second: byte) {
    && Continuation(second)
    && (lead == 0xE0 ==> second >= 0xA0) && (lead == 0xED ==> second < 0xA0)
    && (lead == 0xF0 ==> second >= 0x90) && (lead == 0xF4 ==> second < 0x90)
  }

  function Six(b: byte): (n: nat)
    requires Continuation(b)
    ensures n < 64
  {
    b as int - 0x80
  }

  function Two(a: byte, b: byte): char
    requires Length(a) == 2 && Continuation(b)
  {
    ((a as int - 0xC0) * 64 + Six(b)) as char
  }

  function Three(a: byte, b: byte, c: byte): char
    requires Length(a) == 3 && SecondOk(a, b) && Continuation(c)
  {
    (((a as int - 0xE0) * 64 + Six(b)) * 64 + Six(c)) as char
  }

  function Four(a: byte, b: byte, c: byte, d: byte): char
    requires Length(a) == 4 && SecondOk(a, b) && Continuation(c) && Continuation(d)
  {
    ((((a as int - 0xF0) * 64 + Six(b)) * 64 + Six(c)) * 64 + Six(d)) as char
  }

  datatype Head = Partial | Invalid | Complete(c: char, length: nat)

  /** The first character of some bytes, which may be cut short or already wrong. */
  function HeadOf(b: Bytes): (h: Head)
    requires b != []
    ensures h.Complete? ==> 0 < h.length <= |b|
  {
    var n := Length(b[0]);
    if n == 0 || (n > 1 && |b| > 1 && !SecondOk(b[0], b[1])) || (n > 2 && |b| > 2 && !Continuation(b[2]))
      || (n > 3 && |b| > 3 && !Continuation(b[3])) then Invalid
    else if |b| < n then Partial
    else if n == 1 then Complete(b[0] as char, 1)
    else if n == 2 then Complete(Two(b[0], b[1]), 2)
    else if n == 3 then Complete(Three(b[0], b[1], b[2]), 3)
    else Complete(Four(b[0], b[1], b[2], b[3]), 4)
  }

  /** The characters that are complete, and the bytes of one that is not yet; `None` for bytes that no
      further ones can make right. */
  function Decoded(b: Bytes): Option<(string, Bytes)>
    decreases |b|
  {
    if b == [] then Some(("", []))
    else
      match HeadOf(b)
      case Partial => Some(("", b))
      case Invalid => None
      case Complete(c, n) =>
        match Decoded(b[n..])
        case None => None
        case Some((text, rest)) => Some(([c] + text, rest))
  }

  function Encode(c: char): Bytes {
    var n := c as int;
    if n < 0x80 then [n as byte]
    else if n < 0x800 then [(0xC0 + n / 64) as byte, (0x80 + n % 64) as byte]
    else if n < 0x10000 then [(0xE0 + n / 64 / 64) as byte, (0x80 + n / 64 % 64) as byte, (0x80 + n % 64) as byte]
    else
      [(0xF0 + n / 64 / 64 / 64) as byte, (0x80 + n / 64 / 64 % 64) as byte, (0x80 + n / 64 % 64) as byte,
       (0x80 + n % 64) as byte]
  }

  function Encoded(text: string): Bytes {
    if text == "" then [] else Encode(text[0]) + Encoded(text[1..])
  }

  // ----- Decoding piece by piece -----

  lemma HeadOfLonger(a: Bytes, b: Bytes)
    requires a != [] && !HeadOf(a).Partial?
    ensures HeadOf(a + b) == HeadOf(a)
  {
    hide Two, Three, Four, SecondOk, Continuation;
  }

  /** Decoding bytes in two pieces, with the tail of the first kept for the second, is decoding them whole. */
  lemma {:induction false} DecodedConcat(a: Bytes, b: Bytes)
    ensures Decoded(a + b) ==
      match Decoded(a)
      case None => None
      case Some((text, rest)) =>
        match Decoded(rest + b)
        case None => None
        case Some((more, last)) => Some((text + more, last))
    decreases |a|
  {
    hide HeadOf;
    assert forall s: string :: "" + s == s;
    if a == [] {
      assert a + b == b && [] + b == b;
    } else if HeadOf(a).Complete? {
      var n := HeadOf(a).length;
      HeadOfLonger(a, b);
      DecodedConcat(a[n..], b);
      assert (a + b)[n..] == a[n..] + b;
      if Decoded(a + b).Some? {
        var text, rest := Decoded(a[n..]).value.0, Decoded(a[n..]).value.1;
        var more := Decoded(rest + b).value.0;
        assert [HeadOf(a).c] + (text + more) == ([HeadOf(a).c] + text) + more;
      }
    } else if HeadOf(a).Invalid? {
      HeadOfLonger(a, b);
    }
  }

  lemma {:induction false} TailIsPartial(b: Bytes)
    ensures Decoded(b).Some? ==> Decoded(b).value.1 == [] || HeadOf(Decoded(b).value.1).Partial?
    decreases |b|
  {
    hide HeadOf;
    if b != [] && HeadOf(b).Complete? {
      TailIsPartial(b[HeadOf(b).length..]);
    }
  }

  /** One more byte either finishes no character or leaves nothing over. */
  lemma OneMoreByte(tail: Bytes, one: byte)
    requires tail == [] || HeadOf(tail).Partial?
    ensures Decoded(tail + [one]).Some? ==> Decoded(tail + [one]).value.0 == "" || Decoded(tail + [one]).value.1 == []
  {
    hide SecondOk, Continuation, Two, Three, Four;
    var all := tail + [one];
    assert tail != [] ==> all[0] == tail[0];
    if HeadOf(all).Complete? {
      assert all[HeadOf(all).length..] == [];
    }
  }

  // ----- Encoding and decoding -----

  lemma Base64(q: int, r: int)
    requires 0 <= r < 64
    ensures (q * 64 + r) / 64 == q && (q * 64 + r) % 64 == r
  {
  }

  lemma HeadOfEncode(c: char, rest: Bytes)
    ensures HeadOf(Encode(c) + rest) == Complete(c, |Encode(c)|)
  {
    hide SecondOk, Two, Three, Four, Encode;
    var n, b := c as int, Encode(c) + rest;
    EncodeLength(c);
    if 0x80 <= n < 0x800 {
      EncodeTwo(c);
    } else if 0x800 <= n < 0x10000 {
      EncodeThree(c);
    } else if 0x10000 <= n {
      EncodeFour(c);
    }
    var e := Encode(c);
    assert forall i :: 0 <= i < |e| ==> b[i] == e[i];
  }

  lemma EncodeLength(c: char)
    ensures var n, e := c as int, Encode(c);
      && (n < 0x80 ==> |e| == 1 && e[0] as int == n)
      && (0x80 <= n < 0x800 ==> |e| == 2) && (0x800 <= n < 0x10000 ==> |e| == 3) && (0x10000 <= n ==> |e| == 4)
  {
  }

  lemma EncodeTwo(c: char)
    requires 0x80 <= c as int < 0x800
    ensures var e := Encode(c); Length(e[0]) == 2 && Continuation(e[1]) && SecondOk(e[0], e[1]) && Two(e[0], e[1]) == c
  {
  }

  lemma EncodeThree(c: char)
    requires 0x800 <= c as int < 0x10000
    ensures var e := Encode(c);
      Length(e[0]) == 3 && SecondOk(e[0], e[1]) && Continuation(e[2]) && Three(e[0], e[1], e[2]) == c
  {
  }

  lemma EncodeFour(c: char)
    requires 0x10000 <= c as int
    ensures var e := Encode(c);
      && Length(e[0]) == 4 && SecondOk(e[0], e[1]) && Continuation(e[2]) && Continuation(e[3])
      && Four(e[0], e[1], e[2], e[3]) == c
  {
  }

  lemma EncodeOfTwo(a: byte, b: byte)
    requires Length(a) == 2 && Continuation(b)
    ensures Encode(Two(a, b)) == [a, b]
  {
    Base64(a as int - 0xC0, Six(b));
  }

  lemma EncodeOfThree(a: byte, b: byte, c: byte)
    requires Length(a) == 3 && SecondOk(a, b) && Continuation(c)
    ensures Encode(Three(a, b, c)) == [a, b, c]
  {
    var high := (a as int - 0xE0) * 64 + Six(b);
    Base64(a as int - 0xE0, Six(b));
    Base64(high, Six(c));
  }

  lemma EncodeOfFour(a: byte, b: byte, c: byte, d: byte)
    requires Length(a) == 4 && SecondOk(a, b) && Continuation(c) && Continuation(d)
    ensures Encode(Four(a, b, c, d)) == [a, b, c, d]
  {
    var top := (a as int - 0xF0) * 64 + Six(b);
    var high := top * 64 + Six(c);
    Base64(a as int - 0xF0, Six(b));
    Base64(top, Six(c));
    Base64(high, Six(d));
  }

  lemma EncodeOfHead(b: Bytes)
    requires b != [] && HeadOf(b).Complete?
    ensures Encode(HeadOf(b).c) == b[..HeadOf(b).length]
  {
    hide SecondOk, Two, Three, Four, Encode, Continuation;
    var n := Length(b[0]);
    if n == 1 {
      EncodeLength(b[0] as char);
    } else if n == 2 {
      HeadTwo(b);
      EncodeOfTwo(b[0], b[1]);
    } else if n == 3 {
      EncodeOfThree(b[0], b[1], b[2]);
    } else {
      EncodeOfFour(b[0], b[1], b[2], b[3]);
    }
  }

  lemma HeadTwo(b: Bytes)
    requires |b| > 1 && SecondOk(b[0], b[1])
    ensures Continuation(b[1])
  {
  }

  /** What is encoded decodes to itself, with nothing left over. */
  lemma {:induction false} DecodeEncoded(text: string, more: Bytes)
    ensures Decoded(Encoded(text) + more) ==
      match Decoded(more) case None => None case Some((rest, last)) => Some((text + rest, last))
    decreases |text|
  {
    hide HeadOf, Encode;
    assert forall s: string :: "" + s == s;
    if text == "" {
      assert [] + more == more;
    } else {
      var here, rest := Encode(text[0]), Encoded(text[1..]);
      HeadOfEncode(text[0], rest + more);
      assert Encoded(text) + more == here + (rest + more);
      assert (here + (rest + more))[|here|..] == rest + more;
      DecodeEncoded(text[1..], more);
      if Decoded(more).Some? {
        var last := Decoded(more).value.0;
        assert [text[0]] + (text[1..] + last) == text + last;
      }
    }
  }

  /** Whatever decodes is the encoding of what it decodes to, followed by the tail. */
  lemma {:induction false} EncodeDecoded(b: Bytes)
    ensures Decoded(b).Some? ==> b == Encoded(Decoded(b).value.0) + Decoded(b).value.1
    decreases |b|
  {
    hide HeadOf, Encode;
    if b != [] && HeadOf(b).Complete? && Decoded(b).Some? {
      var n, text := HeadOf(b).length, Decoded(b).value.0;
      EncodeOfHead(b);
      EncodeDecoded(b[n..]);
      assert text[1..] == Decoded(b[n..]).value.0;
      assert b == b[..n] + b[n..];
    }
  }
}
