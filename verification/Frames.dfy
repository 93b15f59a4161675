/** The WebSocket frame the server writes, and a receiver written from section 5.2 of RFC 6455. */
module Frames {

  type Byte = b: int | 0 <= b < 256

  /** A `std::string` holds fewer than 2^63 bytes. */
  type Message = m: seq<Byte> | |m| < 0x8000_0000_0000_0000 witness []

  /** FIN with opcode 1: a whole text message in one frame. */
  const ONE_FRAGMENT_TEXT: Byte := 129

  function Pow256(n: nat): (p: nat)
    ensures p > 0
  {
    if n == 0 then 1 else 256 * Pow256(n - 1)
  }

  // ----- writing -----

  /** The low `n` bytes of a number, most significant first. */
  function BigEndian(v: nat, n: nat): (bs: seq<Byte>)
    ensures |bs| == n
  {
    if n == 0 then [] else BigEndian(v / 256, n - 1) + [v % 256]
  }

  function LengthField(n: nat): seq<Byte> {
    if n > 0xffff then [127] + BigEndian(n, 8)
    else if n >= 126 then [126] + BigEndian(n, 2)
    else [n]
  }

  /** One unmasked frame. */
  function Encode(opcode: Byte, message: seq<Byte>): seq<Byte> { [opcode] + LengthField(|message|) + message }

  /** `v` shifted right by `c` bytes. */
  function Shifted(v: nat, c: nat): nat { if c == 0 then v else Shifted(v / 256, c - 1) }

  function ByteAt(v: nat, c: nat): Byte { Shifted(v, c) % 256 }

  lemma {:induction false} ShiftOneMore(v: nat, c: nat)
    ensures Shifted(v, c + 1) == Shifted(v, c) / 256
  {
    if c == 0 {
    } else {
      ShiftOneMore(v / 256, c - 1);
    }
  }

  lemma {:induction false} ShiftedBelow(v: nat, c: nat, m: nat)
    ensures Shifted(v, c) < m <==> v < m * Pow256(c)
  {
    if c == 0 {
      assert m * Pow256(0) == m;
    } else {
      ShiftedBelow(v / 256, c - 1, m);
      var x := m * Pow256(c - 1);
      assert m * Pow256(c) == 256 * x;
    }
  }

  /** The big-endian bytes are those of falling weight. */
  lemma {:induction false} BigEndianByWeight(v: nat, n: nat, i: nat)
    requires i < n
    ensures BigEndian(v, n)[i] == ByteAt(v, n - 1 - i)
  {
    if i < n - 1 {
      BigEndianByWeight(v / 256, n - 1, i);
    } else {
      assert Shifted(v, 0) == v;
    }
  }

  lemma AppendLowByte(start: seq<Byte>, v: nat, n: nat)
    requires n > 0
    ensures start + BigEndian(v / 256, n - 1) + [v % 256] == start + BigEndian(v, n)
  {
  }

  lemma LengthByte(start: seq<Byte>, v: nat, n: nat, c: nat)
    requires c < n
    ensures start + BigEndian(Shifted(v, c + 1), n - 1 - c) + [ByteAt(v, c)] == start + BigEndian(Shifted(v, c), n - c)
  {
    ShiftOneMore(v, c);
    AppendLowByte(start, Shifted(v, c), n - c);
  }

  /** The loop over the length bytes, counting down. */
  method AppendLength(length: nat, numBytes: nat, start: seq<Byte>) returns (result: seq<Byte>)
    ensures result == start + BigEndian(length, numBytes)
  {
    result := start;
    var c := numBytes - 1;
    while c >= 0
      invariant -1 <= c < numBytes
      invariant result == start + BigEndian(Shifted(length, c + 1), numBytes - 1 - c)
    {
      LengthByte(start, length, numBytes, c);
      result := result + [ByteAt(length, c)];
      c := c - 1;
    }
  }

  /** `fill_text_frame`, appending to `result`. */
  method FillTextFrame(message: Message, opcode: Byte, before: seq<Byte>) returns (result: seq<Byte>)
    ensures result == before + Encode(opcode, message)
  {
    var length := |message|;
    result := before + [opcode];
    if length >= 126 {
      if length > 0xffff {
        result := AppendLength(length, 8, result + [127]);
      } else {
        result := AppendLength(length, 2, result + [126]);
      }
    } else {
      result := result + [length];
    }
    assert result == before + ([opcode] + LengthField(length));
    result := result + message;
  }

  // ----- receiving -----

  datatype Received = Frame(opcode: Byte, payload: seq<Byte>, rest: seq<Byte>) | Incomplete | Invalid

  function FromBigEndian(bs: seq<Byte>): nat {
    if bs == [] then 0 else FromBigEndian(bs[..|bs| - 1]) * 256 + bs[|bs| - 1]
  }

  /** A client reading one frame from a server: it must not be masked (section 5.1), the length must
      have its shortest form and its most significant bit must be 0 (section 5.2). */
  function Receive(s: seq<Byte>): Received {
    if |s| < 2 then Incomplete
    else
      var masked, length := s[1] / 128 == 1, s[1] % 128;
      if masked then Invalid
      else if length < 126 then Payload(s, 2, length)
      else if length == 126 then
        if |s| < 4 then Incomplete
        else
          var n := FromBigEndian(s[2..4]);
          if n < 126 then Invalid else Payload(s, 4, n)
      else
        if |s| < 10 then Incomplete
        else
          var n := FromBigEndian(s[2..10]);
          if s[2] >= 128 || n <= 0xffff then Invalid else Payload(s, 10, n)
  }

  function Payload(s: seq<Byte>, at: nat, n: nat): Received
    requires 0 < at <= |s|
  {
    if |s| < at + n then Incomplete else Frame(s[0], s[at..at + n], s[at + n..])
  }

  lemma {:induction false} BigEndianRoundTrip(v: nat, n: nat)
    requires v < Pow256(n)
    ensures FromBigEndian(BigEndian(v, n)) == v
  {
    if n == 0 {
    } else {
      assert v / 256 < Pow256(n - 1);
      BigEndianRoundTrip(v / 256, n - 1);
      var bs := BigEndian(v, n);
      assert bs[..|bs| - 1] == BigEndian(v / 256, n - 1);
    }
  }

  lemma {:induction false} FromBigEndianRoundTrip(bs: seq<Byte>)
    ensures FromBigEndian(bs) < Pow256(|bs|) && BigEndian(FromBigEndian(bs), |bs|) == bs
  {
    if bs == [] {
    } else {
      FromBigEndianRoundTrip(bs[..|bs| - 1]);
    }
  }

  lemma Powers()
    ensures Pow256(1) == 0x100 && Pow256(2) == 0x1_0000 && Pow256(7) == 0x100_0000_0000_0000
    ensures Pow256(8) == 0x1_0000_0000_0000_0000
  {
    assert Pow256(0) == 1;
    assert Pow256(3) == 0x100_0000 && Pow256(4) == 0x1_0000_0000;
    assert Pow256(5) == 0x100_0000_0000 && Pow256(6) == 0x1_0000_0000_0000;
  }

  lemma TopBit(n: nat)
    requires n < 0x8000_0000_0000_0000
    ensures BigEndian(n, 8)[0] < 128
  {
    BigEndianByWeight(n, 8, 0);
    Powers();
    ShiftedBelow(n, 7, 128);
  }

  /** The receiver gets opcode and message back, and everything behind the frame is left. */
  lemma ReceiveEncoded(opcode: Byte, message: Message, rest: seq<Byte>)
    ensures Receive(Encode(opcode, message) + rest) == Frame(opcode, message, rest)
  {
    var n := |message|;
    var s := Encode(opcode, message) + rest;
    Powers();
    if n > 0xffff {
      BigEndianRoundTrip(n, 8);
      TopBit(n);
      assert s[2..10] == BigEndian(n, 8) && s[10..10 + n] == message && s[10 + n..] == rest;
      assert s[2] == BigEndian(n, 8)[0];
    } else if n >= 126 {
      BigEndianRoundTrip(n, 2);
      assert s[2..4] == BigEndian(n, 2) && s[4..4 + n] == message && s[4 + n..] == rest;
    } else {
      assert s[2..2 + n] == message && s[2 + n..] == rest;
    }
  }

  /** Whatever the receiver accepts as a frame is what the server would write for it: the header is
      minimal and unmasked, and there is only one encoding. */
  lemma ReceivedIsEncoded(s: seq<Byte>)
    requires Receive(s).Frame?
    ensures var f := Receive(s); |f.payload| < 0x8000_0000_0000_0000 && s == Encode(f.opcode, f.payload) + f.rest
  {
    if s[1] % 128 < 126 { ShortIsEncoded(s); }
    else if s[1] % 128 == 126 { MiddleIsEncoded(s); }
    else { LongIsEncoded(s); }
  }

  lemma ShortIsEncoded(s: seq<Byte>)
    requires Receive(s).Frame? && s[1] % 128 < 126
    ensures var f := Receive(s); |f.payload| < 126 && s == Encode(f.opcode, f.payload) + f.rest
  {
    var n := s[1] % 128;
    assert s == [s[0]] + [s[1]] + s[2..2 + n] + s[2 + n..];
  }

  lemma MiddleIsEncoded(s: seq<Byte>)
    requires Receive(s).Frame? && s[1] % 128 == 126
    ensures var f := Receive(s); |f.payload| <= 0xffff && s == Encode(f.opcode, f.payload) + f.rest
  {
    var n := FromBigEndian(s[2..4]);
    Powers();
    FromBigEndianRoundTrip(s[2..4]);
    assert s == [s[0]] + ([126] + s[2..4]) + s[4..4 + n] + s[4 + n..];
  }

  lemma LongIsEncoded(s: seq<Byte>)
    requires Receive(s).Frame? && s[1] % 128 == 127
    ensures var f := Receive(s); |f.payload| < 0x8000_0000_0000_0000 && s == Encode(f.opcode, f.payload) + f.rest
  {
    var n := FromBigEndian(s[2..10]);
    FromBigEndianRoundTrip(s[2..10]);
    TopBitSmall(s[2..10]);
    assert s == [s[0]] + ([127] + s[2..10]) + s[10..10 + n] + s[10 + n..];
  }

  lemma TopBitSmall(bs: seq<Byte>)
    requires |bs| == 8 && bs[0] < 128
    ensures FromBigEndian(bs) < 0x8000_0000_0000_0000
  {
    FromBigEndianRoundTrip(bs);
    var v := FromBigEndian(bs);
    BigEndianByWeight(v, 8, 0);
    Powers();
    ShiftedBelow(v, 7, 256);
    ShiftedBelow(v, 7, 128);
  }

  /** A proper beginning of a frame is incomplete, never refused and never another frame. */
  lemma BeginningIsIncomplete(opcode: Byte, message: Message, s: seq<Byte>)
    requires s <= Encode(opcode, message) && |s| < |Encode(opcode, message)|
    ensures Receive(s) == Incomplete
  {
    var e := Encode(opcode, message);
    var n := |message|;
    Powers();
    assert forall i :: 0 <= i < |s| ==> s[i] == e[i];
    if n > 0xffff {
      if |s| >= 10 {
        BigEndianRoundTrip(n, 8);
        TopBit(n);
        assert s[2..10] == e[2..10] == BigEndian(n, 8);
      }
    } else if n >= 126 {
      if |s| >= 4 {
        BigEndianRoundTrip(n, 2);
        assert s[2..4] == e[2..4] == BigEndian(n, 2);
      }
    }
  }

  // ----- streams -----

  function EncodeAll(ms: seq<Message>): seq<Byte> {
    if ms == [] then [] else Encode(ONE_FRAGMENT_TEXT, ms[0]) + EncodeAll(ms[1..])
  }

  /** What a client has understood of a byte stream so far. */
  datatype Understood = Understood(messages: seq<seq<Byte>>, left: seq<Byte>, valid: bool)

  /** The first byte of a frame (section 5.2 of RFC 6455): FIN set, the three RSV bits clear and opcode 1, a text
      message in one frame (section 5.6). */
  predicate IsWholeText(first: Byte) { first / 128 == 1 && first / 16 % 8 == 0 && first % 16 == 1 }

  /** A frame that says this message and nothing else. */
  predicate SaysText(frame: seq<Byte>, message: seq<Byte>) {
    Receive(frame) == Frame(129, message, [])
  }

  lemma EncodedSaysText(message: Message)
    ensures SaysText(Encode(ONE_FRAGMENT_TEXT, message), message)
  {
    var e := Encode(ONE_FRAGMENT_TEXT, message);
    ReceiveEncoded(ONE_FRAGMENT_TEXT, message, []);
    assert e + [] == e;
  }

  /** A client that is sent text messages only takes anything else for a broken stream. */
  function Understand(s: seq<Byte>): Understood
    decreases |s|
  {
    match Receive(s)
    case Incomplete => Understood([], s, true)
    case Invalid => Understood([], s, false)
    case Frame(first, payload, rest) =>
      FrameShortens(s);
      if !IsWholeText(first) then Understood([], s, false)
      else
        var u := Understand(rest);
        Understood([payload] + u.messages, u.left, u.valid)
  }

  lemma FrameShortens(s: seq<Byte>)
    ensures Receive(s).Frame? ==> |Receive(s).rest| < |s|
  {
  }

  /** The number of messages whose frames are whole within the first `n` bytes. */
  function WholeWithin(ms: seq<Message>, n: nat): (k: nat)
    ensures k <= |ms|
  {
    if ms == [] || n < |Encode(ONE_FRAGMENT_TEXT, ms[0])| then 0
    else 1 + WholeWithin(ms[1..], n - |Encode(ONE_FRAGMENT_TEXT, ms[0])|)
  }

  /** From any beginning of a stream of frames a client understands exactly the messages whose frames
      have arrived whole, in order, and nothing else. */
  lemma {:induction false} UnderstandBeginning(ms: seq<Message>, s: seq<Byte>)
    requires s <= EncodeAll(ms)
    ensures Understand(s).messages == ms[..WholeWithin(ms, |s|)] && Understand(s).valid
    decreases |ms|
  {
    if ms == [] {
    } else {
      var e := Encode(ONE_FRAGMENT_TEXT, ms[0]);
      if |s| < |e| {
        assert s <= e;
        BeginningIsIncomplete(ONE_FRAGMENT_TEXT, ms[0], s);
      } else {
        var t := s[|e|..];
        assert s == e + t && t <= EncodeAll(ms[1..]);
        UnderstandFrame(ms[0], t);
        UnderstandBeginning(ms[1..], t);
        TakeOneMore(ms, WholeWithin(ms[1..], |t|));
      }
    }
  }

  lemma TakeOneMore(ms: seq<Message>, k: nat)
    requires k < |ms|
    ensures ms[..k + 1] == [ms[0]] + ms[1..][..k]
  {
  }

  lemma UnderstandFrame(m: Message, t: seq<Byte>)
    ensures var u, v := Understand(Encode(ONE_FRAGMENT_TEXT, m) + t), Understand(t);
            u.messages == [m] + v.messages && u.left == v.left && u.valid == v.valid
  {
    ReceiveEncoded(ONE_FRAGMENT_TEXT, m, t);
  }

  lemma {:induction false} WholeWithinAll(ms: seq<Message>)
    ensures WholeWithin(ms, |EncodeAll(ms)|) == |ms|
  {
    if ms == [] {
    } else {
      WholeWithinAll(ms[1..]);
    }
  }

  /** A complete stream is understood completely; two message lists with one stream are one list. */
  lemma StreamRoundTrip(ms: seq<Message>, ms': seq<Message>)
    ensures Understand(EncodeAll(ms)).messages == ms
    ensures EncodeAll(ms) == EncodeAll(ms') ==> ms == ms'
  {
    UnderstandBeginning(ms, EncodeAll(ms));
    WholeWithinAll(ms);
    UnderstandBeginning(ms', EncodeAll(ms'));
    WholeWithinAll(ms');
    assert ms[..|ms|] == ms && ms'[..|ms'|] == ms';
  }

  /** As frames go, the only first byte of a whole text message. */
  lemma OnlyWholeText(first: Byte)
    requires IsWholeText(first)
    ensures first == ONE_FRAGMENT_TEXT
  {
  }

  /** The converse: whatever a client understands of any bytes, they begin with the frames the server writes
      for these messages. */
  lemma {:induction false} UnderstoodIsEncoded(s: seq<Byte>) returns (ms: seq<Message>)
    ensures ms == Understand(s).messages && s == EncodeAll(ms) + Understand(s).left
    decreases |s|
  {
    var r := Receive(s);
    if r.Frame? && IsWholeText(r.opcode) {
      OnlyWholeText(r.opcode);
      ReceivedIsEncoded(s);
      FrameShortens(s);
      var rest := UnderstoodIsEncoded(r.rest);
      var m: Message := r.payload;
      ms := [m] + rest;
      assert ms[1..] == rest;
      var e := Encode(ONE_FRAGMENT_TEXT, m);
      assert e + (EncodeAll(rest) + Understand(s).left) == e + EncodeAll(rest) + Understand(s).left;
    } else {
      ms := [];
      assert EncodeAll([]) + s == s;
    }
  }

  lemma {:induction false} EncodeAllAppend(ms: seq<Message>, m: Message)
    ensures EncodeAll(ms + [m]) == EncodeAll(ms) + Encode(ONE_FRAGMENT_TEXT, m)
  {
    if ms == [] {
      assert ms + [m] == [m] && [m][1..] == [];
      assert EncodeAll([m]) == Encode(ONE_FRAGMENT_TEXT, m) + [];
    } else {
      assert (ms + [m])[1..] == ms[1..] + [m];
      EncodeAllAppend(ms[1..], m);
    }
  }
}
