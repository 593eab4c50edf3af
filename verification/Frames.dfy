/** Bytes on the wire: big-endian lengths and the XOR mask of RFC 6455. */
module Bytes {
  type Byte = x: int | 0 <= x < 256

  function Pow256(width: nat): (n: nat)
    ensures n >= 1
  {
    if width == 0 then 1 else 256 * Pow256(width - 1)
  }

  /** The low `width` base-256 digits of `n`, most significant first. */
  function BigEndian(n: nat, width: nat): (s: seq<Byte>)
    ensures |s| == width
  {
    if width == 0 then [] else BigEndian(n / 256, width - 1) + [n % 256]
  }

  function FromBigEndian(s: seq<Byte>): (n: nat) {
    if s == [] then 0 else 256 * FromBigEndian(s[..|s| - 1]) + s[|s| - 1]
  }

  lemma {:induction false} BigEndianRoundTrip(n: nat, width: nat)
    requires n < Pow256(width)
    ensures FromBigEndian(BigEndian(n, width)) == n
  {
    if width > 0 {
      var s := BigEndian(n, width);
      HighDigits(n, Pow256(width - 1));
      BigEndianRoundTrip(n / 256, width - 1);
      assert s[..|s| - 1] == BigEndian(n / 256, width - 1) && s[|s| - 1] == n % 256;
      hide Pow256, BigEndian;
    }
  }

  lemma HighDigits(n: nat, bound: nat)
    requires n < 256 * bound
    ensures n / 256 < bound
  {
  }

  /** Bitwise exclusive or of the low `width` bits. */
  function XorBits(a: nat, b: nat, width: nat): (x: nat)
    ensures x < Pow2(width)
  {
    if width == 0 then 0 else 2 * XorBits(a / 2, b / 2, width - 1) + (if a % 2 == b % 2 then 0 else 1)
  }

  function Pow2(width: nat): nat {
    if width == 0 then 1 else 2 * Pow2(width - 1)
  }

  function Xor(a: Byte, b: Byte): Byte {
    assert Pow2(8) == 256;
    XorBits(a, b, 8)
  }

  lemma {:induction false} XorBitsTwice(a: nat, k: nat, width: nat)
    requires a < Pow2(width)
    ensures XorBits(XorBits(a, k, width), k, width) == a
  {
    if width > 0 {
      var x := XorBits(a, k, width);
      assert x / 2 == XorBits(a / 2, k / 2, width - 1);
      assert x % 2 == if a % 2 == k % 2 then 0 else 1;
      XorBitsTwice(a / 2, k / 2, width - 1);
    }
  }

  function Mask(payload: seq<Byte>, key: seq<Byte>): (s: seq<Byte>)
    requires |key| == 4
    ensures |s| == |payload|
  {
    seq(|payload|, i requires 0 <= i < |payload| => Xor(payload[i], key[i % 4]))
  }

  lemma MaskTwice(payload: seq<Byte>, key: seq<Byte>)
    requires |key| == 4
    ensures Mask(Mask(payload, key), key) == payload
  {
    forall i | 0 <= i < |payload| ensures Mask(Mask(payload, key), key)[i] == payload[i] {
      assert Pow2(8) == 256;
      XorBitsTwice(payload[i], key[i % 4], 8);
    }
  }

  lemma Associative(a: seq<Byte>, b: seq<Byte>, c: seq<Byte>)
    ensures (a + b) + c == a + (b + c)
  {
  }

  /** Pieces of a stream put together. */
  function Join(parts: seq<seq<Byte>>): seq<Byte> {
    if parts == [] then [] else parts[0] + Join(parts[1..])
  }
}

/** `encodeFrame` and `WebSocketFrameParser`. */
module Frames {
  import opened Options
  import opened Bytes

  const MAX_SAFE_INTEGER: nat := 0x1f_ffff_ffff_ffff

  const CONTINUATION: Byte := 0x0
  const TEXT: Byte := 0x1
  const CLOSE: Byte := 0x8
  const PING: Byte := 0x9
  const PONG: Byte := 0xa

  const PROTOCOL_ERROR := 1002
  const INVALID_TEXT := 1007
  const TOO_LARGE := 1009

  /** The three ways of section 5.2 of RFC 6455 to write a payload length. */
  datatype LengthForm = Inline | Extended16 | Extended64 {
    predicate Fits(length: nat) {
      match this
      case Inline => length < 126
      case Extended16 => length <= 0xffff
      case Extended64 => length <= MAX_SAFE_INTEGER
    }

    function Width(): nat {
      match this
      case Inline => 0
      case Extended16 => 2
      case Extended64 => 8
    }

    function Code(length: nat): (code: nat)
      requires Fits(length)
      ensures code < 128
    {
      match this
      case Inline => length
      case Extended16 => 126
      case Extended64 => 127
    }
  }

  function ShortestForm(length: nat): (form: LengthForm)
    ensures length <= MAX_SAFE_INTEGER ==> form.Fits(length)
    ensures forall other: LengthForm :: other.Fits(length) ==> form.Width() <= other.Width()
  {
    if length < 126 then Inline else if length <= 0xffff then Extended16 else Extended64
  }

  /** The final-fragment bit over the four bits of the opcode. */
  function FirstByte(fin: bool, opcode: Byte): Byte {
    (if fin then 0x80 else 0) + opcode % 16
  }

  /** The mask bit over a seven-bit length code. */
  function SecondByte(masked: bool, code: nat): Byte
    requires code < 128
  {
    (if masked then 0x80 else 0) + code
  }

  /** `first & 0x70`, moved to the low bits. */
  function ReservedBits(first: Byte): Byte {
    first / 16 % 8
  }

  /** Whether `byte & 0x80` is set: FIN in the first byte, MASK in the second. */
  predicate HighBit(byte: Byte) {
    byte >= 0x80
  }

  /** A frame written with the given length form. `key` is the mask, if any. */
  function FrameBytes(fin: bool, opcode: Byte, form: LengthForm, key: Option<seq<Byte>>,
                      payload: seq<Byte>): (s: seq<Byte>)
    requires form.Fits(|payload|)
    requires key.Some? ==> |key.value| == 4
  {
    Header(fin, opcode, form, key.Some?, |payload|)
    + (if key.Some? then key.value + Mask(payload, key.value) else payload)
  }

  datatype EncodeResult = Encoded(frame: seq<Byte>) | RangeError

  /** `Buffer.copy`: `bytes` written from `offset` on. */
  method Copy(frame: array<Byte>, offset: nat, bytes: seq<Byte>)
    requires offset + |bytes| <= frame.Length
    modifies frame
    ensures frame[..] == old(frame[..offset]) + bytes + old(frame[offset + |bytes|..])
  {
    forall i | 0 <= i < |bytes| {
      frame[offset + i] := bytes[i];
    }
  }

  /** `writeUInt16BE` and `writeBigUInt64BE`, digit by digit. */
  method WriteBigEndian(frame: array<Byte>, offset: nat, n: nat, width: nat)
    requires offset + width <= frame.Length
    modifies frame
    ensures frame[..] == old(frame[..offset]) + BigEndian(n, width) + old(frame[offset + width..])
  {
    ghost var digits := BigEndian(n, width);
    var rest, i := n, width;
    while i > 0
      invariant 0 <= i <= width
      invariant digits[..i] == BigEndian(rest, i)
      invariant forall j :: 0 <= j < frame.Length && !(offset + i <= j < offset + width) ==> frame[j] == old(frame[j])
      invariant forall j :: i <= j < width ==> frame[offset + j] == digits[j]
    {
      assert digits[i - 1] == rest % 256;
      assert digits[..i - 1] == digits[..i][..i - 1] == BigEndian(rest / 256, i - 1);
      frame[offset + i - 1] := rest % 256;
      rest, i := rest / 256, i - 1;
    }
  }

  /** The masking loop: `frame[offset + index] = body[index] ^ maskKey[index % 4]`. */
  method WriteMasked(frame: array<Byte>, offset: nat, body: seq<Byte>, key: seq<Byte>)
    requires |key| == 4
    requires offset + |body| <= frame.Length
    modifies frame
    ensures frame[..] == old(frame[..offset]) + Mask(body, key) + old(frame[offset + |body|..])
  {
    ghost var masked := Mask(body, key);
    var index := 0;
    while index < |body|
      invariant 0 <= index <= |body|
      invariant forall j :: 0 <= j < frame.Length && !(offset <= j < offset + index) ==> frame[j] == old(frame[j])
      invariant forall j :: 0 <= j < index ==> frame[offset + j] == masked[j]
    {
      frame[offset + index] := Xor(body[index], key[index % 4]);
      index := index + 1;
    }
  }

  function Header(fin: bool, opcode: Byte, form: LengthForm, masked: bool, length: nat): (s: seq<Byte>)
    requires form.Fits(length)
    ensures |s| == 2 + form.Width()
  {
    [FirstByte(fin, opcode), SecondByte(masked, form.Code(length))] + BigEndian(length, form.Width())
  }

  method WriteHeader(frame: array<Byte>, fin: bool, opcode: Byte, form: LengthForm, masked: bool, length: nat)
    requires form.Fits(length)
    requires 2 + form.Width() <= frame.Length
    modifies frame
    ensures frame[..2 + form.Width()] == Header(fin, opcode, form, masked, length)
  {
    frame[0] := FirstByte(fin, opcode);
    frame[1] := SecondByte(masked, form.Code(length));
    assert frame[..2] == [FirstByte(fin, opcode), SecondByte(masked, form.Code(length))];
    WriteBigEndian(frame, 2, length, form.Width());
  }

  /** A present `maskKey` stands for `mask: true` with that key, however it was chosen. */
  method EncodeFrame(payload: seq<Byte>, opcode: Byte, fin: bool, maskKey: Option<seq<Byte>>) returns (r: EncodeResult)
    ensures r.RangeError? <==> (maskKey.Some? && |maskKey.value| != 4) || |payload| > MAX_SAFE_INTEGER
    ensures r.Encoded? ==> r.frame == FrameBytes(fin, opcode, ShortestForm(|payload|), maskKey, payload)
  {
    if maskKey.Some? && |maskKey.value| != 4 {
      return RangeError;
    }
    if |payload| > MAX_SAFE_INTEGER {
      return RangeError;
    }
    var form := ShortestForm(|payload|);
    var offset := 2 + form.Width();
    ghost var header := Header(fin, opcode, form, maskKey.Some?, |payload|);
    if maskKey.Some? {
      var frame := new Byte[offset + 4 + |payload|](_ => 0);
      WriteHeader(frame, fin, opcode, form, true, |payload|);
      Copy(frame, offset, maskKey.value);
      assert frame[..offset + 4] == header + maskKey.value;
      WriteMasked(frame, offset + 4, payload, maskKey.value);
      assert frame[..] == header + maskKey.value + Mask(payload, maskKey.value);
      r := Encoded(frame[..]);
    } else {
      var frame := new Byte[offset + |payload|](_ => 0);
      WriteHeader(frame, fin, opcode, form, false, |payload|);
      Copy(frame, offset, payload);
      assert frame[..] == header + payload;
      r := Encoded(frame[..]);
    }
  }

  datatype Frame = Frame(fin: bool, opcode: Byte, payload: seq<Byte>)

  datatype FrameRead = NeedMore | Reject(code: nat) | Got(frame: Frame, size: nat)

  predicate KnownOpcode(opcode: Byte) {
    opcode == CONTINUATION || opcode == TEXT || opcode == CLOSE || opcode == PING || opcode == PONG
  }

  function ExtendedWidth(lengthCode: nat): nat {
    if lengthCode == 126 then 2 else if lengthCode == 127 then 8 else 0
  }

  /** What a buffer holds at its start: an unfinished frame, an offence, or a whole frame of `size` raw bytes. */
  function ReadFrame(buffer: seq<Byte>, max: nat): (r: FrameRead)
    ensures r.Got? ==> 6 <= r.size <= |buffer| && |r.frame.payload| <= max && KnownOpcode(r.frame.opcode)
    ensures r.NeedMore? ==> |buffer| < 14 + max
  {
    if |buffer| < 2 then NeedMore
    else if ReservedBits(buffer[0]) != 0 || !HighBit(buffer[1]) || !KnownOpcode(buffer[0] % 16) then
      Reject(PROTOCOL_ERROR)
    else
      var lengthCode := buffer[1] % 128;
      var width := ExtendedWidth(lengthCode);
      if |buffer| < 2 + width then NeedMore
      else ReadBody(buffer, width, if width == 0 then lengthCode else FromBigEndian(buffer[2..2 + width]), max)
  }

  function ReadBody(buffer: seq<Byte>, width: nat, length: nat, max: nat): (r: FrameRead)
    requires 2 + width <= |buffer| && width <= 8 && KnownOpcode(buffer[0] % 16)
    ensures r.Got? ==> r.size == 6 + width + length <= |buffer| && |r.frame.payload| == length <= max
    ensures r.Got? ==> r.frame.opcode == buffer[0] % 16
    ensures r.NeedMore? ==> |buffer| < 14 + max
  {
    var fin, opcode := HighBit(buffer[0]), buffer[0] % 16;
    if width == 8 && length > MAX_SAFE_INTEGER then Reject(TOO_LARGE)
    else if length > max then Reject(TOO_LARGE)
    else if opcode >= 0x8 && (!fin || length > 125) then Reject(PROTOCOL_ERROR)
    else if |buffer| < 6 + width + length then NeedMore
    else
      var key := buffer[2 + width..6 + width];
      Got(Frame(fin, opcode, Mask(buffer[6 + width..6 + width + length], key)), 6 + width + length)
  }

  /** A text event carries the message bytes; decoding them is the caller's view of the same bytes. */
  datatype Event =
    | Text(payload: seq<Byte>)
    | Ping(payload: seq<Byte>)
    | Pong(payload: seq<Byte>)
    | Close(payload: seq<Byte>)

  datatype Parser = Parser(buffer: seq<Byte>, fragments: Option<seq<seq<Byte>>>, fragmentBytes: nat)

  const NEW_PARSER := Parser([], None, 0)

  /** `maxMessageBytes`, and the test that `TextDecoder` makes in fatal mode. */
  datatype Limits = Limits(max: nat, utf8: seq<Byte> -> bool)

  /** How parsing went, with the events parsed up to its end or to the offence. */
  datatype Outcome =
    | Parsed(parser: Parser, events: seq<Event>)
    | Failed(code: nat, parser: Parser, events: seq<Event>)
  {
    /** The same outcome after `earlier` events. */
    function After(earlier: seq<Event>): Outcome {
      match this
      case Parsed(p, events) => Parsed(p, earlier + events)
      case Failed(code, p, events) => Failed(code, p, earlier + events)
    }
  }

  function Concat(parts: seq<seq<Byte>>): (s: seq<Byte>) {
    if parts == [] then [] else Concat(parts[..|parts| - 1]) + parts[|parts| - 1]
  }

  function Deliver(p: Parser, message: seq<Byte>, limits: Limits): Outcome {
    if limits.utf8(message) then Parsed(p.(fragments := None, fragmentBytes := 0), [Text(message)])
    else Failed(INVALID_TEXT, p, [])
  }

  function ConsumeFrame(p: Parser, frame: Frame, limits: Limits): (r: Outcome)
    ensures r.parser.buffer == p.buffer
    ensures r.Failed? ==> r.events == []
  {
    if frame.opcode == CLOSE then Parsed(p, [Close(frame.payload)])
    else if frame.opcode == PING then Parsed(p, [Ping(frame.payload)])
    else if frame.opcode == PONG then Parsed(p, [Pong(frame.payload)])
    else if frame.opcode == TEXT then
      if p.fragments.Some? then Failed(PROTOCOL_ERROR, p, [])
      else if frame.fin then Deliver(p, frame.payload, limits).(parser := p)
      else Parsed(p.(fragments := Some([frame.payload]), fragmentBytes := |frame.payload|), [])
    else if p.fragments.None? || frame.opcode != CONTINUATION then Failed(PROTOCOL_ERROR, p, [])
    else if p.fragmentBytes + |frame.payload| > limits.max then Failed(TOO_LARGE, p, [])
    else
      var fragments := p.fragments.value + [frame.payload];
      var q := p.(fragments := Some(fragments), fragmentBytes := p.fragmentBytes + |frame.payload|);
      if frame.fin then Deliver(q, Concat(fragments), limits) else Parsed(q, [])
  }

  /** The frame at the front of the buffer, taken off and consumed. */
  function TakeFrame(p: Parser, limits: Limits): (r: Outcome)
    requires ReadFrame(p.buffer, limits.max).Got?
    ensures |r.parser.buffer| < |p.buffer|
  {
    var Got(frame, size) := ReadFrame(p.buffer, limits.max);
    ConsumeFrame(p.(buffer := p.buffer[size..]), frame, limits)
  }

  /** The loop of `push`: frames are consumed until none is complete or one offends. */
  function Drain(p: Parser, limits: Limits): (r: Outcome)
    decreases |p.buffer|
  {
    match ReadFrame(p.buffer, limits.max)
    case NeedMore => Parsed(p, [])
    case Reject(code) => Failed(code, p, [])
    case Got(_, _) =>
      var step := TakeFrame(p, limits);
      if step.Parsed? then Drain(step.parser, limits).After(step.events) else step
  }

  lemma AfterAfter(r: Outcome, first: seq<Event>, second: seq<Event>)
    ensures r.After(second).After(first) == r.After(first + second)
  {
    assert first + (second + r.events) == (first + second) + r.events;
  }

  function Push(p: Parser, chunk: seq<Byte>, limits: Limits): Outcome {
    Drain(p.(buffer := p.buffer + chunk), limits)
  }

  /** What the caller of one push gets: its events, or a thrown error and no event at all. */
  datatype PushResult = Returned(events: seq<Event>) | Threw(code: nat)

  function Seen(r: Outcome): PushResult {
    match r
    case Parsed(_, events) => Returned(events)
    case Failed(code, _, _) => Threw(code)
  }

  class WebSocketFrameParser {
    const limits: Limits
    var buffer: seq<Byte>
    var fragments: Option<seq<seq<Byte>>>
    var fragmentBytes: nat

    ghost function View(): Parser
      reads this
    {
      Parser(buffer, fragments, fragmentBytes)
    }

    constructor (limits: Limits)
      ensures this.limits == limits && View() == NEW_PARSER
    {
      this.limits := limits;
      buffer, fragments, fragmentBytes := [], None, 0;
    }

    /** `NeedMore` is the original's `null`, `Reject` its thrown protocol error. */
    method ReadNext() returns (r: FrameRead)
      modifies this`buffer
      ensures r == ReadFrame(old(buffer), limits.max)
      ensures buffer == if r.Got? then old(buffer)[r.size..] else old(buffer)
    {
      if |buffer| < 2 {
        return NeedMore;
      }
      var first, second := buffer[0], buffer[1];
      if ReservedBits(first) != 0 {
        return Reject(PROTOCOL_ERROR);
      }
      var fin, opcode, masked := HighBit(first), first % 16, HighBit(second);
      var lengthCode := second % 128;
      if !masked {
        return Reject(PROTOCOL_ERROR);
      }
      if !KnownOpcode(opcode) {
        return Reject(PROTOCOL_ERROR);
      }
      var length, width := lengthCode, 0;
      if lengthCode == 126 {
        width := 2;
        if |buffer| < 4 {
          return NeedMore;
        }
        length := FromBigEndian(buffer[2..4]);
      } else if lengthCode == 127 {
        width := 8;
        if |buffer| < 10 {
          return NeedMore;
        }
        length := FromBigEndian(buffer[2..10]);
        if length > MAX_SAFE_INTEGER {
          return Reject(TOO_LARGE);
        }
      }
      if length > limits.max {
        return Reject(TOO_LARGE);
      }
      if opcode >= 0x8 && (!fin || length > 125) {
        return Reject(PROTOCOL_ERROR);
      }
      var payloadOffset := 6 + width;
      if |buffer| < payloadOffset + length {
        return NeedMore;
      }
      var payload := Unmask(buffer[payloadOffset..payloadOffset + length], buffer[2 + width..payloadOffset]);
      buffer := buffer[payloadOffset + length..];
      r := Got(Frame(fin, opcode, payload), payloadOffset + length);
    }

    static method Unmask(raw: seq<Byte>, key: seq<Byte>) returns (payload: seq<Byte>)
      requires |key| == 4
      ensures payload == Mask(raw, key)
    {
      var bytes := new Byte[|raw|](_ => 0);
      WriteMasked(bytes, 0, raw, key);
      payload := bytes[..];
    }

    method Consume(frame: Frame, sofar: seq<Event>) returns (r: Outcome)
      modifies this`fragments, this`fragmentBytes
      ensures r == ConsumeFrame(old(View()), frame, limits).After(sofar)
      ensures View() == r.parser
    {
      if frame.opcode == CLOSE {
        return Parsed(Parser(buffer, fragments, fragmentBytes), sofar + [Close(frame.payload)]);
      }
      if frame.opcode == PING {
        return Parsed(Parser(buffer, fragments, fragmentBytes), sofar + [Ping(frame.payload)]);
      }
      if frame.opcode == PONG {
        return Parsed(Parser(buffer, fragments, fragmentBytes), sofar + [Pong(frame.payload)]);
      }
      if frame.opcode == TEXT {
        if fragments.Some? {
          return Failed(PROTOCOL_ERROR, Parser(buffer, fragments, fragmentBytes), sofar);
        }
        if frame.fin {
          if !limits.utf8(frame.payload) {
            return Failed(INVALID_TEXT, Parser(buffer, fragments, fragmentBytes), sofar);
          }
          return Parsed(Parser(buffer, fragments, fragmentBytes), sofar + [Text(frame.payload)]);
        }
        fragments, fragmentBytes := Some([frame.payload]), |frame.payload|;
        return Parsed(Parser(buffer, fragments, fragmentBytes), sofar);
      }
      if fragments.None? || frame.opcode != CONTINUATION {
        return Failed(PROTOCOL_ERROR, Parser(buffer, fragments, fragmentBytes), sofar);
      }
      if fragmentBytes + |frame.payload| > limits.max {
        return Failed(TOO_LARGE, Parser(buffer, fragments, fragmentBytes), sofar);
      }
      fragments := Some(fragments.value + [frame.payload]);
      fragmentBytes := fragmentBytes + |frame.payload|;
      if frame.fin {
        var message := Concat(fragments.value);
        if !limits.utf8(message) {
          return Failed(INVALID_TEXT, Parser(buffer, fragments, fragmentBytes), sofar);
        }
        fragments, fragmentBytes := None, 0;
        return Parsed(Parser(buffer, fragments, fragmentBytes), sofar + [Text(message)]);
      }
      r := Parsed(Parser(buffer, fragments, fragmentBytes), sofar);
    }

    /** One turn of the loop of `push`: `done` when no frame is complete or one offends. */
    method PushTurn(sofar: seq<Event>) returns (done: bool, r: Outcome)
      modifies this
      ensures View() == r.parser
      ensures done ==> r == Drain(old(View()), limits).After(sofar)
      ensures !done ==> Drain(View(), limits).After(r.events) == Drain(old(View()), limits).After(sofar)
      ensures !done ==> |buffer| < |old(buffer)|
    {
      var read := ReadNext();
      match read {
        case NeedMore => return true, Parsed(Parser(buffer, fragments, fragmentBytes), sofar);
        case Reject(code) => return true, Failed(code, Parser(buffer, fragments, fragmentBytes), sofar);
        case Got(frame, _) =>
          ghost var step := TakeFrame(old(View()), limits);
          r := Consume(frame, sofar);
          if r.Parsed? {
            AfterAfter(Drain(step.parser, limits), sofar, step.events);
          }
          done := r.Failed?;
      }
    }

    /** A push that throws has changed the parser, and the events it had parsed are lost with it. */
    method PushChunk(chunk: seq<Byte>) returns (seen: PushResult)
      modifies this
      ensures seen == Seen(Push(old(View()), chunk, limits))
      ensures View() == Push(old(View()), chunk, limits).parser
    {
      if |chunk| > 0 {
        buffer := buffer + chunk;
      }
      assert View() == old(View()).(buffer := old(buffer) + chunk);
      ghost var whole := Drain(View(), limits);
      var r := Parsed(Parser(buffer, fragments, fragmentBytes), []);
      var done := false;
      while !done
        invariant View() == r.parser
        invariant !done ==> Drain(View(), limits).After(r.events) == whole
        invariant done ==> r == whole
        decreases !done, |buffer|
      {
        done, r := PushTurn(r.events);
      }
      seen := if r.Failed? then Threw(r.code) else Returned(r.events);
    }
  }
}
