/** The wire format byte by byte: what RFC 6455 gives as examples, and exactly which frames are refused. */
module FrameRules {
  import opened Options
  import opened Bytes
  import opened Frames
  import opened FrameStream

  // The mask is exclusive or.

  function Differs(a: nat, b: nat): nat {
    if a % 2 == b % 2 then 0 else 1
  }

  /** Eight bits, each set exactly where the two bytes differ. */
  lemma XorIsExclusiveOr(a: Byte, b: Byte)
    ensures Xor(a, b) ==
      128 * Differs(a / 128, b / 128) + 64 * Differs(a / 64, b / 64) + 32 * Differs(a / 32, b / 32) +
      16 * Differs(a / 16, b / 16) + 8 * Differs(a / 8, b / 8) + 4 * Differs(a / 4, b / 4) +
      2 * Differs(a / 2, b / 2) + Differs(a, b)
  {
    LowNibble(a, b, XorBits(a / 16, b / 16, 4));
    LowNibble(a / 16, b / 16, 0);
    Halves(a);
    Halves(b);
    hide XorBits;
  }

  lemma LowNibble(a: nat, b: nat, high: nat)
    ensures XorBits(a, b, 8) == 16 * XorBits(a / 2 / 2 / 2 / 2, b / 2 / 2 / 2 / 2, 4) + XorBits4(a, b)
    ensures XorBits(a, b, 4) == XorBits4(a, b)
  {
    XorStep(a, b, 7);
    XorStep(a / 2, b / 2, 6);
    XorStep(a / 2 / 2, b / 2 / 2, 5);
    XorStep(a / 2 / 2 / 2, b / 2 / 2 / 2, 4);
    XorStep(a, b, 3);
    XorStep(a / 2, b / 2, 2);
    XorStep(a / 2 / 2, b / 2 / 2, 1);
    XorStep(a / 2 / 2 / 2, b / 2 / 2 / 2, 0);
    assert forall x, y :: XorBits(x, y, 0) == 0;
    hide XorBits;
  }

  function XorBits4(a: nat, b: nat): nat {
    8 * Differs(a / 2 / 2 / 2, b / 2 / 2 / 2) + 4 * Differs(a / 2 / 2, b / 2 / 2) +
    2 * Differs(a / 2, b / 2) + Differs(a, b)
  }

  lemma XorStep(a: nat, b: nat, width: nat)
    ensures XorBits(a, b, width + 1) == 2 * XorBits(a / 2, b / 2, width) + Differs(a, b)
  {
  }

  lemma Halves(x: nat)
    ensures x / 2 / 2 == x / 4 && x / 2 / 2 / 2 == x / 8 && x / 2 / 2 / 2 / 2 == x / 16
    ensures x / 16 / 2 == x / 32 && x / 16 / 2 / 2 == x / 64 && x / 16 / 2 / 2 / 2 == x / 128
  {
  }

  // The examples of section 5.7 of RFC 6455.

  const HELLO: seq<Byte> := [0x48, 0x65, 0x6c, 0x6c, 0x6f]
  const HELLO_KEY: seq<Byte> := [0x37, 0xfa, 0x21, 0x3d]
  const MASKED_HELLO: seq<Byte> := [0x81, 0x85, 0x37, 0xfa, 0x21, 0x3d, 0x7f, 0x9f, 0x4d, 0x51, 0x58]

  lemma HelloBytes()
    ensures Xor(0x48, 0x37) == 0x7f && Xor(0x65, 0xfa) == 0x9f && Xor(0x6c, 0x21) == 0x4d
  {
    hide Xor;
    XorIsExclusiveOr(0x48, 0x37);
    XorIsExclusiveOr(0x65, 0xfa);
    XorIsExclusiveOr(0x6c, 0x21);
  }

  lemma HelloTail()
    ensures Xor(0x6c, 0x3d) == 0x51 && Xor(0x6f, 0x37) == 0x58
  {
    hide Xor;
    XorIsExclusiveOr(0x6c, 0x3d);
    XorIsExclusiveOr(0x6f, 0x37);
  }

  lemma HelloMasked()
    ensures Mask(HELLO, HELLO_KEY) == [0x7f, 0x9f, 0x4d, 0x51, 0x58]
    ensures Mask([0x7f, 0x9f, 0x4d, 0x51, 0x58], HELLO_KEY) == HELLO
  {
    hide Xor;
    HelloBytes();
    HelloTail();
    MaskTwice(HELLO, HELLO_KEY);
  }

  // The layout of a frame, for every length.

  function KeyAndPayload(key: Option<seq<Byte>>, payload: seq<Byte>): seq<Byte>
    requires key.Some? ==> |key.value| == 4
  {
    if key.Some? then key.value + Mask(payload, key.value) else payload
  }

  /** What the encoder writes: flags and opcode, the length in the fewest of 7, 16 or 64 bits, key, masked payload. */
  lemma EncodedLayout(fin: bool, opcode: Byte, key: Option<seq<Byte>>, payload: seq<Byte>)
    requires |payload| <= MAX_SAFE_INTEGER && (key.Some? ==> |key.value| == 4)
    ensures
      var n, first, mask := |payload|, opcode % 16 + if fin then 128 else 0, if key.Some? then 128 else 0;
      FrameBytes(fin, opcode, ShortestForm(n), key, payload) ==
        (if n < 126 then [first, mask + n]
         else if n < 65536 then [first, mask + 126, n / 256, n % 256]
         else [first, mask + 127, n / 0x100_0000_0000_0000 % 256, n / 0x1_0000_0000_0000 % 256,
               n / 0x100_0000_0000 % 256, n / 0x1_0000_0000 % 256, n / 0x100_0000 % 256, n / 0x1_0000 % 256,
               n / 0x100 % 256, n % 256]) +
        KeyAndPayload(key, payload)
  {
    var n := |payload|;
    if n < 126 {
      assert BigEndian(n, 0) == [];
    } else if n < 65536 {
      TwoDigits(n);
    } else {
      EightDigits(n);
    }
    hide BigEndian, Mask;
  }

  lemma TwoDigits(n: nat)
    requires n < 65536
    ensures BigEndian(n, 2) == [n / 256, n % 256]
  {
    assert BigEndian(n, 2) == BigEndian(n / 256, 1) + [n % 256];
    assert BigEndian(n / 256, 1) == BigEndian(n / 256 / 256, 0) + [n / 256 % 256];
  }

  lemma LastDigit(n: nat, width: nat)
    requires width > 0
    ensures BigEndian(n, width) == BigEndian(n / 256, width - 1) + [n % 256]
  {
  }

  lemma Quotients(n: nat)
    ensures n / 256 / 256 == n / 0x1_0000 && n / 0x1_0000 / 256 == n / 0x100_0000
    ensures n / 0x100_0000 / 256 == n / 0x1_0000_0000 && n / 0x1_0000_0000 / 256 == n / 0x100_0000_0000
    ensures n / 0x100_0000_0000 / 256 == n / 0x1_0000_0000_0000
    ensures n / 0x1_0000_0000_0000 / 256 == n / 0x100_0000_0000_0000
  {
  }

  lemma EightDigits(n: nat)
    ensures BigEndian(n, 8) ==
      [n / 0x100_0000_0000_0000 % 256, n / 0x1_0000_0000_0000 % 256, n / 0x100_0000_0000 % 256,
       n / 0x1_0000_0000 % 256, n / 0x100_0000 % 256, n / 0x1_0000 % 256, n / 0x100 % 256, n % 256]
  {
    Quotients(n);
    LastDigit(n, 8);
    LastDigit(n / 0x100, 7);
    LastDigit(n / 0x1_0000, 6);
    LastDigit(n / 0x100_0000, 5);
    LastDigit(n / 0x1_0000_0000, 4);
    LastDigit(n / 0x100_0000_0000, 3);
    LastDigit(n / 0x1_0000_0000_0000, 2);
    LastDigit(n / 0x100_0000_0000_0000, 1);
    assert forall x: nat :: BigEndian(x, 0) == [];
    hide BigEndian;
  }

  /** The examples themselves. */
  lemma EncodedExamples()
    ensures FrameBytes(true, 0x1, ShortestForm(5), None, HELLO) == [0x81, 0x05, 0x48, 0x65, 0x6c, 0x6c, 0x6f]
    ensures FrameBytes(true, 0x1, ShortestForm(5), Some(HELLO_KEY), HELLO) == MASKED_HELLO
    ensures FrameBytes(false, 0x1, ShortestForm(3), None, [0x48, 0x65, 0x6c]) == [0x01, 0x03, 0x48, 0x65, 0x6c]
    ensures FrameBytes(true, 0x0, ShortestForm(2), None, [0x6c, 0x6f]) == [0x80, 0x02, 0x6c, 0x6f]
  {
    hide FrameBytes, Mask;
    HelloMasked();
    EncodedLayout(true, 0x1, None, HELLO);
    EncodedLayout(true, 0x1, Some(HELLO_KEY), HELLO);
    EncodedLayout(false, 0x1, None, [0x48, 0x65, 0x6c]);
    EncodedLayout(true, 0x0, None, [0x6c, 0x6f]);
  }

  // Reading.

  /** The length that the header declares, once enough of it is there. */
  function DeclaredLength(b: seq<Byte>): Option<nat>
    requires |b| >= 2
  {
    if b[1] % 128 < 126 then Some(b[1] % 128)
    else if b[1] % 128 == 126 then if |b| < 4 then None else Some(256 * (b[2] as int) + b[3])
    else if |b| < 10 then None
    else
      var upper := 256 * (256 * (256 * (b[2] as int) + b[3]) + b[4]) + b[5];
      Some(256 * (256 * (256 * (256 * upper + b[6]) + b[7]) + b[8]) + b[9])
  }

  lemma FirstDigit(s: seq<Byte>)
    requires s != []
    ensures FromBigEndian(s) == 256 * FromBigEndian(s[..|s| - 1]) + s[|s| - 1]
  {
  }

  lemma TwoRead(s: seq<Byte>)
    requires |s| == 2
    ensures FromBigEndian(s) == 256 * (s[0] as int) + s[1]
  {
    FirstDigit(s);
    FirstDigit(s[..1]);
    assert s[..1][..0] == [] && FromBigEndian([]) == 0;
  }

  lemma EightRead(s: seq<Byte>)
    requires |s| == 8
    ensures
      var upper := 256 * (256 * (256 * (s[0] as int) + s[1]) + s[2]) + s[3];
      FromBigEndian(s) == 256 * (256 * (256 * (256 * upper + s[4]) + s[5]) + s[6]) + s[7]
  {
    hide FromBigEndian;
    FirstDigit(s);
    Shorter(s, 7);
    Shorter(s, 6);
    Shorter(s, 5);
    Shorter(s, 4);
    Shorter(s, 3);
    TwoRead(s[..2]);
  }

  lemma Shorter(s: seq<Byte>, n: nat)
    requires 0 < n <= |s|
    ensures FromBigEndian(s[..n]) == 256 * FromBigEndian(s[..n - 1]) + s[n - 1]
  {
    FirstDigit(s[..n]);
    assert s[..n][..n - 1] == s[..n - 1];
  }

  /**
   * Exactly what the parser makes of the bytes in front of it. A reserved bit, a missing mask or an unknown
   * opcode is a protocol error at once; a length over the limit is too large; a control frame must be final
   * and short; and otherwise the frame is taken as soon as it is complete.
   */
  lemma ReadFrameExactly(b: seq<Byte>, max: nat)
    ensures
      var r := ReadFrame(b, max);
      if |b| < 2 then r == NeedMore
      else if b[0] % 128 >= 16 || b[1] < 128 || b[0] % 16 !in {0x0, 0x1, 0x8, 0x9, 0xa} then r == Reject(1002)
      else if DeclaredLength(b).None? then r == NeedMore
      else
        var n := DeclaredLength(b).value;
        var head := if b[1] % 128 < 126 then 2 else if b[1] % 128 == 126 then 4 else 10;
        if n > max || (head == 10 && n > 0x1f_ffff_ffff_ffff) then r == Reject(1009)
        else if b[0] % 16 >= 8 && (b[0] < 128 || n > 125) then r == Reject(1002)
        else if |b| < head + 4 + n then r == NeedMore
        else
          r == Got(Frame(b[0] >= 128, b[0] % 16, Mask(b[head + 4..head + 4 + n], b[head..head + 4])), head + 4 + n)
  {
    if |b| >= 2 {
      Reserved(b[0]);
      if b[1] % 128 == 126 && |b| >= 4 {
        TwoRead(b[2..4]);
      } else if b[1] % 128 == 127 && |b| >= 10 {
        EightRead(b[2..10]);
      }
      hide FromBigEndian, Mask;
    }
  }

  lemma Reserved(first: Byte)
    ensures ReservedBits(first) != 0 <==> first % 128 >= 16
  {
  }

  /** Exactly what becomes of a frame: which event it is, when it joins a message, and what is refused. */
  lemma ConsumeExactly(p: Parser, fin: bool, opcode: Byte, payload: seq<Byte>, limits: Limits)
    requires opcode in {0x0, 0x1, 0x8, 0x9, 0xa}
    ensures
      var r := ConsumeFrame(p, Frame(fin, opcode, payload), limits);
      if opcode == 0x8 then r == Parsed(p, [Close(payload)])
      else if opcode == 0x9 then r == Parsed(p, [Ping(payload)])
      else if opcode == 0xa then r == Parsed(p, [Pong(payload)])
      else if opcode == 0x1 then
        if p.fragments.Some? then r.Failed? && r.code == 1002
        else if !fin then r == Parsed(Parser(p.buffer, Some([payload]), |payload|), [])
        else if !limits.utf8(payload) then r.Failed? && r.code == 1007
        else r == Parsed(p, [Text(payload)])
      else if p.fragments.None? then r.Failed? && r.code == 1002
      else if p.fragmentBytes + |payload| > limits.max then r.Failed? && r.code == 1009
      else
        var parts := p.fragments.value + [payload];
        if !fin then r == Parsed(Parser(p.buffer, Some(parts), p.fragmentBytes + |payload|), [])
        else if !limits.utf8(Join(parts)) then r.Failed? && r.code == 1007
        else r == Parsed(Parser(p.buffer, None, 0), [Text(Join(parts))])
  {
    if p.fragments.Some? {
      ConcatIsJoin(p.fragments.value + [payload]);
    }
    hide Concat, Join;
  }

  lemma {:induction false} ConcatIsJoin(parts: seq<seq<Byte>>)
    ensures Concat(parts) == Join(parts)
  {
    if parts != [] {
      ConcatIsJoin(parts[..|parts| - 1]);
      JoinSplit(parts, |parts| - 1);
      assert parts[|parts| - 1..] == [parts[|parts| - 1]];
      assert Join([parts[|parts| - 1]]) == parts[|parts| - 1] + [];
    }
  }

  /** A buffer that is one whole frame. */
  lemma OneFrame(b: seq<Byte>, frame: Frame, limits: Limits)
    requires ReadFrame(b, limits.max) == Got(frame, |b|)
    ensures
      var r := ConsumeFrame(NEW_PARSER, frame, limits);
      Seen(Push(NEW_PARSER, b, limits)) == if r.Failed? then Threw(r.code) else Returned(r.events)
  {
    hide ConsumeFrame;
    var p := NEW_PARSER.(buffer := b);
    assert [] + b == b && b[|b|..] == [];
    var r := ConsumeFrame(NEW_PARSER, frame, limits);
    assert TakeFrame(p, limits) == r;
    assert ReadFrame(r.parser.buffer, limits.max) == NeedMore;
    if r.Parsed? {
      assert Drain(r.parser, limits) == Parsed(r.parser, []);
      assert Drain(p, limits) == Parsed(r.parser, []).After(r.events);
      assert r.events + [] == r.events;
    }
  }

  lemma HelloRead(max: nat)
    requires max >= 5
    ensures ReadFrame(MASKED_HELLO, max) == Got(Frame(true, 0x1, HELLO), 11)
  {
    hide ReadFrame, Mask;
    ReadFrameExactly(MASKED_HELLO, max);
    HelloMasked();
    assert MASKED_HELLO[6..11] == [0x7f, 0x9f, 0x4d, 0x51, 0x58] && MASKED_HELLO[2..6] == HELLO_KEY;
  }

  /** The masked greeting of the standard parses to its text, and as invalid text when that is what the bytes are. */
  lemma HelloParses(limits: Limits)
    requires limits.max >= 5
    ensures Seen(Push(NEW_PARSER, MASKED_HELLO, limits)) ==
              if limits.utf8(HELLO) then Returned([Text(HELLO)]) else Threw(1007)
  {
    hide ReadFrame, ConsumeFrame, Push;
    HelloRead(limits.max);
    OneFrame(MASKED_HELLO, Frame(true, 0x1, HELLO), limits);
    ConsumeExactly(NEW_PARSER, true, 0x1, HELLO, limits);
  }
}
