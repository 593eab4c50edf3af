/** What the frame parser makes of a whole byte stream, however the stream is cut into chunks. */
module FrameStream {
  import opened Options
  import opened Bytes
  import opened Frames

  /** Successive pushes, stopping at the first failure. */
  function Feed(p: Parser, chunks: seq<seq<Byte>>, limits: Limits): Outcome
    decreases |chunks|
  {
    if chunks == [] then Parsed(p, [])
    else
      match Push(p, chunks[0], limits)
      case Parsed(q, events) => Feed(q, chunks[1..], limits).After(events)
      case failure => failure
  }

  /** No complete frame is waiting in the buffer; every successful push ends so. */
  predicate Settled(p: Parser, limits: Limits) {
    ReadFrame(p.buffer, limits.max).NeedMore?
  }

  /** The parser's invariant on the fragments of an unfinished message. */
  predicate FragmentsCounted(p: Parser, limits: Limits) {
    match p.fragments
    case None => p.fragmentBytes == 0
    case Some(fragments) => p.fragmentBytes == |Concat(fragments)| <= limits.max
  }

  // A decision about the front of the buffer never depends on bytes that come later.

  lemma ReadFrameStable(buffer: seq<Byte>, more: seq<Byte>, max: nat)
    requires !ReadFrame(buffer, max).NeedMore?
    ensures ReadFrame(buffer + more, max) == ReadFrame(buffer, max)
  {
    if ReservedBits(buffer[0]) == 0 && HighBit(buffer[1]) && KnownOpcode(buffer[0] % 16) {
      var width := ExtendedWidth(buffer[1] % 128);
      assert (buffer + more)[2..2 + width] == buffer[2..2 + width];
      var length := if width == 0 then buffer[1] % 128 else FromBigEndian(buffer[2..2 + width]);
      ReadBodyStable(buffer, more, width, length, max);
    }
  }

  lemma ReadBodyStable(buffer: seq<Byte>, more: seq<Byte>, width: nat, length: nat, max: nat)
    requires 2 + width <= |buffer| && width <= 8 && KnownOpcode(buffer[0] % 16)
    requires !ReadBody(buffer, width, length, max).NeedMore?
    ensures ReadBody(buffer + more, width, length, max) == ReadBody(buffer, width, length, max)
  {
    if 6 + width + length <= |buffer| {
      assert (buffer + more)[2 + width..6 + width] == buffer[2 + width..6 + width];
      assert (buffer + more)[6 + width..6 + width + length] == buffer[6 + width..6 + width + length];
    }
  }

  function Extend(r: Outcome, more: seq<Byte>): Outcome {
    r.(parser := r.parser.(buffer := r.parser.buffer + more))
  }

  lemma TakeFrameExtends(p: Parser, more: seq<Byte>, limits: Limits)
    requires ReadFrame(p.buffer, limits.max).Got?
    ensures ReadFrame(p.buffer + more, limits.max).Got?
    ensures TakeFrame(p.(buffer := p.buffer + more), limits) == Extend(TakeFrame(p, limits), more)
  {
    ReadFrameStable(p.buffer, more, limits.max);
    var Got(frame, size) := ReadFrame(p.buffer, limits.max);
    assert (p.buffer + more)[size..] == p.buffer[size..] + more;
  }

  /** Draining a longer buffer first does exactly what draining the shorter one did. */
  lemma {:induction false} DrainExtends(p: Parser, more: seq<Byte>, limits: Limits)
    ensures
      var r := Drain(p, limits);
      Push(p, more, limits) == if r.Parsed? then Push(r.parser, more, limits).After(r.events) else Extend(r, more)
    decreases |p.buffer|
  {
    match ReadFrame(p.buffer, limits.max)
    case NeedMore =>
    case Reject(_) =>
      ReadFrameStable(p.buffer, more, limits.max);
    case Got(_, _) =>
      TakeFrameExtends(p, more, limits);
      var step := TakeFrame(p, limits);
      if step.Parsed? {
        DrainExtends(step.parser, more, limits);
        var r := Drain(step.parser, limits);
        if r.Parsed? {
          AfterAfter(Push(r.parser, more, limits), step.events, r.events);
        }
      }
  }

  lemma {:induction false} DrainSettles(p: Parser, limits: Limits)
    ensures Drain(p, limits).Parsed? ==> Settled(Drain(p, limits).parser, limits)
    decreases |p.buffer|
  {
    match ReadFrame(p.buffer, limits.max)
    case NeedMore =>
    case Reject(_) =>
    case Got(_, _) =>
      var step := TakeFrame(p, limits);
      if step.Parsed? {
        DrainSettles(step.parser, limits);
      }
  }

  /** What the caller of successive pushes is handed: the events of the pushes that returned. */
  function Delivered(p: Parser, chunks: seq<seq<Byte>>, limits: Limits): seq<Event>
    decreases |chunks|
  {
    if chunks == [] then []
    else
      match Push(p, chunks[0], limits)
      case Parsed(q, events) => events + Delivered(q, chunks[1..], limits)
      case Failed(_, _, _) => []
  }

  /** How many pushes return before one throws. */
  function Returning(p: Parser, chunks: seq<seq<Byte>>, limits: Limits): (n: nat)
    ensures n <= |chunks|
    decreases |chunks|
  {
    if chunks == [] || Push(p, chunks[0], limits).Failed? then 0
    else 1 + Returning(Push(p, chunks[0], limits).parser, chunks[1..], limits)
  }

  /**
   * Chunk independence: cutting a stream anywhere changes neither whether it fails, nor with which
   * code, nor the events parsed up to that point, nor (on success) the parser that is left behind.
   */
  lemma {:induction false} ParsingIgnoresCuts(p: Parser, chunks: seq<seq<Byte>>, limits: Limits)
    requires Settled(p, limits)
    ensures
      var cut, whole := Feed(p, chunks, limits), Push(p, Join(chunks), limits);
      && cut.events == whole.events
      && (cut.Parsed? ==> cut == whole)
      && (cut.Failed? ==> whole.Failed? && cut.code == whole.code)
    decreases |chunks|
  {
    if chunks == [] {
      assert p.buffer + [] == p.buffer;
    } else {
      var first, more := chunks[0], Join(chunks[1..]);
      var q := p.(buffer := p.buffer + first);
      assert p.buffer + (first + more) == q.buffer + more;
      DrainExtends(q, more, limits);
      DrainSettles(q, limits);
      var r := Drain(q, limits);
      if r.Parsed? {
        ParsingIgnoresCuts(r.parser, chunks[1..], limits);
      }
    }
  }

  /** The pushes that return hand over exactly what the bytes pushed so far contain. */
  lemma {:induction false} DeliveredByReturning(p: Parser, chunks: seq<seq<Byte>>, limits: Limits)
    ensures
      var n := Returning(p, chunks, limits);
      && Feed(p, chunks[..n], limits).Parsed? && Feed(p, chunks[..n], limits).events == Delivered(p, chunks, limits)
      && (n == |chunks| <==> Feed(p, chunks, limits).Parsed?)
      && (n < |chunks| ==>
            var last := Push(Feed(p, chunks[..n], limits).parser, chunks[n], limits);
            last.Failed? && Feed(p, chunks, limits) == last.After(Delivered(p, chunks, limits)))
    decreases |chunks|
  {
    if chunks != [] && Push(p, chunks[0], limits).Parsed? {
      var Parsed(q, events) := Push(p, chunks[0], limits);
      var n := Returning(q, chunks[1..], limits);
      DeliveredByReturning(q, chunks[1..], limits);
      assert chunks[..n + 1][0] == chunks[0] && chunks[..n + 1][1..] == chunks[1..][..n];
      if n + 1 < |chunks| {
        var last := Push(Feed(q, chunks[1..][..n], limits).parser, chunks[1..][n], limits);
        AfterAfter(last, events, Delivered(q, chunks[1..], limits));
      }
    } else if chunks != [] {
      AfterNothing(Push(p, chunks[0], limits));
    }
  }

  lemma AfterNothing(r: Outcome)
    ensures r.After([]) == r
  {
    assert [] + r.events == r.events;
  }

  /** Where in the buffer the frame ends that completes the last event; 0 if there is none. */
  function LastEventEnd(p: Parser, limits: Limits): (end: nat)
    ensures end <= |p.buffer|
    ensures end == 0 <==> Drain(p, limits).events == []
    decreases |p.buffer|
  {
    match ReadFrame(p.buffer, limits.max)
    case NeedMore => 0
    case Reject(_) => 0
    case Got(_, size) =>
      var step := TakeFrame(p, limits);
      if step.Failed? then 0
      else
        var end := LastEventEnd(step.parser, limits);
        if end == 0 && step.events == [] then 0 else size + end
  }

  /** An unfinished front of the buffer yields nothing … */
  lemma {:induction false} ShortFront(p: Parser, m: nat, limits: Limits)
    requires m <= |p.buffer|
    requires ReadFrame(p.buffer, limits.max).Got? ==> m < ReadFrame(p.buffer, limits.max).size
    ensures Drain(p.(buffer := p.buffer[..m]), limits).events == []
  {
    var front := p.buffer[..m];
    assert front + p.buffer[m..] == p.buffer;
    if !ReadFrame(front, limits.max).NeedMore? {
      ReadFrameStable(front, p.buffer[m..], limits.max);
    }
    hide ReadFrame;
  }

  /** … and a finished frame is taken off it as off the whole. */
  lemma {:induction false} LongFront(p: Parser, m: nat, limits: Limits)
    requires m <= |p.buffer| && ReadFrame(p.buffer, limits.max).Got? && ReadFrame(p.buffer, limits.max).size <= m
    ensures
      var front, step, size := p.(buffer := p.buffer[..m]), TakeFrame(p, limits), ReadFrame(p.buffer, limits.max).size;
      && ReadFrame(front.buffer, limits.max).Got? && |step.parser.buffer| == |p.buffer| - size
      && TakeFrame(front, limits) == step.(parser := step.parser.(buffer := step.parser.buffer[..m - size]))
  {
    ReadFront(p.buffer, m, limits.max);
    hide ReadFrame;
    var Got(frame, size) := ReadFrame(p.buffer, limits.max);
    assert p.buffer[..m][size..] == p.buffer[size..][..m - size];
  }

  /** A frame is read from any front of the buffer that holds it whole. */
  lemma ReadFront(buffer: seq<Byte>, m: nat, max: nat)
    requires m <= |buffer| && ReadFrame(buffer, max).Got? && ReadFrame(buffer, max).size <= m
    ensures ReadFrame(buffer[..m], max) == ReadFrame(buffer, max)
  {
    var width := ExtendedWidth(buffer[1] % 128);
    assert buffer[..m][2..2 + width] == buffer[2..2 + width];
    var length := if width == 0 then buffer[1] % 128 else FromBigEndian(buffer[2..2 + width]);
    assert buffer[..m][2 + width..6 + width] == buffer[2 + width..6 + width];
    assert buffer[..m][6 + width..6 + width + length] == buffer[6 + width..6 + width + length];
  }

  /** A front of the buffer holds all the events exactly when it reaches the end of the last one. */
  lemma {:induction false} FrontHoldsEvents(p: Parser, m: nat, limits: Limits)
    requires m <= |p.buffer|
    ensures Drain(p.(buffer := p.buffer[..m]), limits).events == Drain(p, limits).events <==>
              m >= LastEventEnd(p, limits)
    decreases |p.buffer|
  {
    hide ReadFrame, TakeFrame, Drain, LastEventEnd;
    NoFrameNoEvents(p, limits);
    if !ReadFrame(p.buffer, limits.max).Got? || m < ReadFrame(p.buffer, limits.max).size {
      ShortFront(p, m, limits);
      if ReadFrame(p.buffer, limits.max).Got? {
        EventsStep(p, limits);
      }
    } else {
      LongFront(p, m, limits);
      EventsStep(p, limits);
      EventsStep(p.(buffer := p.buffer[..m]), limits);
      var size, step := ReadFrame(p.buffer, limits.max).size, TakeFrame(p, limits);
      if step.Parsed? {
        FrontHoldsEvents(step.parser, m - size, limits);
        var rest := step.parser.(buffer := step.parser.buffer[..m - size]);
        SamePrefix(step.events, Drain(rest, limits).events, Drain(step.parser, limits).events);
      }
    }
  }

  lemma {:induction false} NoFrameNoEvents(p: Parser, limits: Limits)
    ensures !ReadFrame(p.buffer, limits.max).Got? ==> Drain(p, limits).events == [] && LastEventEnd(p, limits) == 0
  {
  }

  /** The events of the frame in front come before those of the rest. */
  lemma {:induction false} EventsStep(p: Parser, limits: Limits)
    requires ReadFrame(p.buffer, limits.max).Got?
    ensures
      var size, step := ReadFrame(p.buffer, limits.max).size, TakeFrame(p, limits);
      if step.Failed? then Drain(p, limits).events == [] && LastEventEnd(p, limits) == 0
      else
        var end := LastEventEnd(step.parser, limits);
        && Drain(p, limits).events == step.events + Drain(step.parser, limits).events
        && LastEventEnd(p, limits) == if end == 0 && step.events == [] then 0 else size + end
  {
  }

  lemma SamePrefix(a: seq<Event>, b: seq<Event>, c: seq<Event>)
    ensures a + b == a + c <==> b == c
  {
    if a + b == a + c {
      assert b == (a + b)[|a|..] && c == (a + c)[|a|..];
    }
  }

  /**
   * What a caller sees of a stream, however it is cut: every cut succeeds or every cut throws the same
   * code; a success hands over all the events. Up to a failure the caller has exactly the events in the
   * bytes of the chunks before the failing one, so it misses an event if and only if the failing chunk
   * starts before the end of the frame that completes the last event.
   */
  lemma {:induction false} ChunkIndependence(p: Parser, chunks: seq<seq<Byte>>, limits: Limits)
    requires Settled(p, limits)
    ensures
      var n, whole := Returning(p, chunks, limits), Push(p, Join(chunks), limits);
      var before := Push(p, Join(chunks[..n]), limits);
      && (n == |chunks| <==> whole.Parsed?)
      && before.Parsed? && Delivered(p, chunks, limits) == before.events <= whole.events
      && (n == |chunks| ==> before == whole)
      && (n < |chunks| ==> Seen(Push(before.parser, chunks[n], limits)) == Threw(whole.code))
      && (Delivered(p, chunks, limits) == whole.events <==>
            |p.buffer| + |Join(chunks[..n])| >= LastEventEnd(p.(buffer := p.buffer + Join(chunks)), limits))
  {
    var n := Returning(p, chunks, limits);
    DeliveredByReturning(p, chunks, limits);
    ParsingIgnoresCuts(p, chunks, limits);
    ParsingIgnoresCuts(p, chunks[..n], limits);
    hide Drain, Feed, Delivered, Returning, LastEventEnd, Join;
    JoinSplit(chunks, n);
    var all := p.(buffer := p.buffer + Join(chunks));
    var m := |p.buffer| + |Join(chunks[..n])|;
    assert all.buffer[..m] == p.buffer + Join(chunks[..n]);
    FrontHoldsEvents(all, m, limits);
    if n == |chunks| {
      assert chunks[..n] == chunks;
    }
  }

  lemma {:induction false} JoinSplit(chunks: seq<seq<Byte>>, n: nat)
    requires n <= |chunks|
    ensures Join(chunks) == Join(chunks[..n]) + Join(chunks[n..])
  {
    if n == 0 {
      assert chunks[..0] == [] && chunks[0..] == chunks;
      assert [] + Join(chunks) == Join(chunks);
    } else {
      JoinSplit(chunks[1..], n - 1);
      assert chunks[1..][..n - 1] == chunks[..n][1..] && chunks[1..][n - 1..] == chunks[n..];
      assert chunks[..n][0] == chunks[0];
      Associative(chunks[0], Join(chunks[..n][1..]), Join(chunks[n..]));
    }
  }

  /** A failing stream cut after its events hands them over; uncut it hands over nothing. */
  lemma {:induction false} CutDecides(p: Parser, a: seq<Byte>, b: seq<Byte>, limits: Limits)
    requires Push(p, a, limits).Parsed? && Push(Push(p, a, limits).parser, b, limits).Failed?
    ensures Delivered(p, [a, b], limits) == Push(p, a, limits).events && Delivered(p, [a + b], limits) == []
    ensures Seen(Push(p, a + b, limits)) == Seen(Push(Push(p, a, limits).parser, b, limits))
  {
    hide Push, Drain;
    var Parsed(q, events) := Push(p, a, limits);
    assert [a, b][1..] == [b] && Delivered(q, [b], limits) == [] && events + [] == events;
    PushTwice(p, a, b, limits);
  }

  lemma {:induction false} PushTwice(p: Parser, a: seq<Byte>, b: seq<Byte>, limits: Limits)
    requires Push(p, a, limits).Parsed?
    ensures Push(p, a + b, limits) == Push(Push(p, a, limits).parser, b, limits).After(Push(p, a, limits).events)
  {
    hide Drain;
    DrainExtends(p.(buffer := p.buffer + a), b, limits);
    Associative(p.buffer, a, b);
  }

  const PING_FRAME: seq<Byte> := [0x89, 0x80, 0, 0, 0, 0]
  const OFFENCE: seq<Byte> := [0xf0, 0x80]

  /** The events handed over before a failure do depend on the cut: this ping is seen in two chunks and lost in one. */
  lemma DeliveryDependsOnCut(limits: Limits)
    ensures Delivered(NEW_PARSER, [PING_FRAME, OFFENCE], limits) == [Ping([])]
    ensures Delivered(NEW_PARSER, [PING_FRAME + OFFENCE], limits) == []
    ensures Seen(Push(NEW_PARSER, PING_FRAME + OFFENCE, limits)) == Threw(PROTOCOL_ERROR)
  {
    PingParses(limits);
    OffenceThrows(limits);
    hide Push, Drain, Delivered;
    CutDecides(NEW_PARSER, PING_FRAME, OFFENCE, limits);
  }

  lemma PingParses(limits: Limits)
    ensures Push(NEW_PARSER, PING_FRAME, limits) == Parsed(NEW_PARSER, [Ping([])])
  {
    var p := NEW_PARSER.(buffer := PING_FRAME);
    assert [] + PING_FRAME == PING_FRAME && PING_FRAME[6..] == [];
    assert ReadFrame(p.buffer, limits.max) == Got(Frame(true, PING, []), 6);
    assert TakeFrame(p, limits) == Parsed(NEW_PARSER, [Ping([])]);
    assert Drain(NEW_PARSER, limits) == Parsed(NEW_PARSER, []);
  }

  lemma OffenceThrows(limits: Limits)
    ensures Seen(Push(NEW_PARSER, OFFENCE, limits)) == Threw(PROTOCOL_ERROR)
  {
    assert [] + OFFENCE == OFFENCE;
    assert ReadFrame(OFFENCE, limits.max) == Reject(PROTOCOL_ERROR);
  }

  lemma ConcatSnoc(fragments: seq<seq<Byte>>, last: seq<Byte>)
    ensures Concat(fragments + [last]) == Concat(fragments) + last
  {
    assert (fragments + [last])[..|fragments|] == fragments;
  }

  lemma ConsumeKeepsCount(p: Parser, frame: Frame, limits: Limits)
    requires FragmentsCounted(p, limits) && |frame.payload| <= limits.max
    ensures FragmentsCounted(ConsumeFrame(p, frame, limits).parser, limits)
  {
    ConcatSnoc([], frame.payload);
    assert [] + [frame.payload] == [frame.payload];
    if p.fragments.Some? {
      ConcatSnoc(p.fragments.value, frame.payload);
    }
  }

  lemma {:induction false} DrainKeepsCount(p: Parser, limits: Limits)
    requires FragmentsCounted(p, limits)
    ensures FragmentsCounted(Drain(p, limits).parser, limits)
    decreases |p.buffer|
  {
    match ReadFrame(p.buffer, limits.max)
    case NeedMore =>
    case Reject(_) =>
    case Got(frame, size) =>
      var rest := p.(buffer := p.buffer[size..]);
      ConsumeKeepsCount(rest, frame, limits);
      var step := ConsumeFrame(rest, frame, limits);
      if step.Parsed? {
        DrainKeepsCount(step.parser, limits);
      }
  }

  /** Memory bound: whatever was pushed, at most one unfinished frame and one unfinished message are kept. */
  lemma {:induction false} RetentionBound(p: Parser, chunks: seq<seq<Byte>>, limits: Limits)
    requires FragmentsCounted(p, limits) && Settled(p, limits)
    ensures
      var r := Feed(p, chunks, limits);
      && FragmentsCounted(r.parser, limits)
      && (r.Parsed? ==> Settled(r.parser, limits) && |r.parser.buffer| < 14 + limits.max)
    decreases |chunks|
  {
    if chunks != [] {
      var q := p.(buffer := p.buffer + chunks[0]);
      DrainKeepsCount(q, limits);
      DrainSettles(q, limits);
      var r := Drain(q, limits);
      if r.Parsed? {
        RetentionBound(r.parser, chunks[1..], limits);
      }
    }
  }

  // Round trip: what a client may send, and what the parser must make of it.

  /** One frame of a fragmented message, or a control frame sent between two of them. */
  datatype Item =
    | Fragment(payload: seq<Byte>, key: seq<Byte>, form: LengthForm)
    | Control(opcode: Byte, payload: seq<Byte>, key: seq<Byte>, form: LengthForm)
  {
    predicate Sendable(max: nat) {
      && |key| == 4
      && form.Fits(|payload|)
      && |payload| <= max
      && (Control? ==> opcode in {CLOSE, PING, PONG} && |payload| <= 125)
    }

    function Bytes(fin: bool, opcode: Byte): seq<Byte>
      requires |key| == 4 && form.Fits(|payload|)
    {
      FrameBytes(fin, opcode, form, Some(key), payload)
    }

    function ControlEvent(): Event
      requires Control?
    {
      if opcode == CLOSE then Close(payload) else if opcode == PING then Ping(payload) else Pong(payload)
    }
  }

  predicate Sendable(items: seq<Item>, max: nat) {
    forall i :: 0 <= i < |items| ==> items[i].Sendable(max)
  }

  predicate HasFragment(items: seq<Item>) {
    exists i :: 0 <= i < |items| && items[i].Fragment?
  }

  /** The message text that the remaining fragments carry. */
  function Message(items: seq<Item>): seq<Byte> {
    if items == [] then []
    else if items[0].Fragment? then items[0].payload + Message(items[1..])
    else Message(items[1..])
  }

  /** A text frame, then continuations; FIN on the last fragment. `open` after the first fragment. */
  function Encode(items: seq<Item>, open: bool, max: nat): seq<Byte>
    requires Sendable(items, max)
  {
    if items == [] then []
    else
      var rest := items[1..];
      if items[0].Control? then items[0].Bytes(true, items[0].opcode) + Encode(rest, open, max)
      else
        var opcode := if open then CONTINUATION else TEXT;
        items[0].Bytes(!HasFragment(rest), opcode) + Encode(rest, HasFragment(rest), max)
  }

  /** What the first item makes the parser report. */
  function FirstEvents(items: seq<Item>, message: seq<Byte>): seq<Event>
    requires items != []
  {
    if items[0].Control? then [items[0].ControlEvent()]
    else if HasFragment(items[1..]) then []
    else [Text(message)]
  }

  /** Control events in place, and one text event with the whole message where its last fragment stands. */
  function Events(items: seq<Item>, message: seq<Byte>): seq<Event> {
    if items == [] then [] else FirstEvents(items, message) + Events(items[1..], message)
  }

  lemma Layout(item: Item, fin: bool, opcode: Byte, more: seq<Byte>, max: nat)
    requires item.Sendable(max)
    ensures
      var buffer, width := item.Bytes(fin, opcode) + more, item.form.Width();
      && |item.Bytes(fin, opcode)| == 6 + width + |item.payload|
      && buffer[0] == FirstByte(fin, opcode)
      && buffer[1] == SecondByte(true, item.form.Code(|item.payload|))
      && buffer[2..2 + width] == BigEndian(|item.payload|, width)
      && buffer[2 + width..6 + width] == item.key
      && buffer[6 + width..6 + width + |item.payload|] == Mask(item.payload, item.key)
  {
    var head := Header(fin, opcode, item.form, true, |item.payload|);
    var body := Mask(item.payload, item.key);
    assert item.Bytes(fin, opcode) == head + (item.key + body);
    Slices(head, item.key, body, more);
  }

  lemma Slices(head: seq<Byte>, key: seq<Byte>, body: seq<Byte>, more: seq<Byte>)
    ensures
      var all, h, k := (head + (key + body)) + more, |head|, |head| + |key|;
      all[..h] == head && all[h..k] == key && all[k..k + |body|] == body
  {
  }

  lemma HeaderReadsBack(fin: bool, opcode: Byte, code: nat)
    requires opcode < 16 && code < 128
    ensures ReservedBits(FirstByte(fin, opcode)) == 0
    ensures HighBit(FirstByte(fin, opcode)) == fin
    ensures FirstByte(fin, opcode) % 16 == opcode
    ensures HighBit(SecondByte(true, code)) && SecondByte(true, code) % 128 == code
  {
  }

  lemma ReadsBack(item: Item, fin: bool, opcode: Byte, more: seq<Byte>, max: nat)
    requires item.Sendable(max) && KnownOpcode(opcode)
    requires opcode >= 8 ==> fin && |item.payload| <= 125
    ensures ReadFrame(item.Bytes(fin, opcode) + more, max) ==
        Got(Frame(fin, opcode, item.payload), |item.Bytes(fin, opcode)|)
  {
    var buffer, width, length := item.Bytes(fin, opcode) + more, item.form.Width(), |item.payload|;
    Layout(item, fin, opcode, more, max);
    HeaderReadsBack(fin, opcode, item.form.Code(length));
    LengthReadsBack(item.form, length);
    assert ReadFrame(buffer, max) == ReadBody(buffer, width, length, max);
    MaskTwice(item.payload, item.key);
  }

  lemma LengthReadsBack(form: LengthForm, length: nat)
    requires form.Fits(length)
    ensures ExtendedWidth(form.Code(length)) == form.Width()
    ensures form.Width() > 0 ==> FromBigEndian(BigEndian(length, form.Width())) == length
    ensures form.Width() == 0 ==> form.Code(length) == length
  {
    assert Pow256(2) == 0x1_0000;
    assert Pow256(8) == 0x1_0000_0000_0000_0000 by {
      assert Pow256(4) == 0x1_0000_0000;
      assert Pow256(6) == 0x1_0000 * Pow256(4);
    }
    if form.Width() > 0 {
      BigEndianRoundTrip(length, form.Width());
    }
  }

  /** `p` stands in the middle of a message whose fragments so far spell `sofar`. */
  predicate Midway(p: Parser, items: seq<Item>, sofar: seq<Byte>, message: seq<Byte>, limits: Limits) {
    && Sendable(items, limits.max)
    && p.fragmentBytes == |sofar|
    && (p.fragments.Some? ==> HasFragment(items) && Concat(p.fragments.value) == sofar)
    && (p.fragments.None? ==> sofar == [])
    && (HasFragment(items) ==> message == sofar + Message(items) && |message| <= limits.max && limits.utf8(message))
  }

  lemma HasFragmentTail(items: seq<Item>)
    requires items != []
    ensures HasFragment(items) <==> items[0].Fragment? || HasFragment(items[1..])
  {
    if i :| 0 < i < |items| && items[i].Fragment? {
      assert items[1..][i - 1].Fragment?;
    }
    if i :| 0 <= i < |items| - 1 && items[1..][i].Fragment? {
      assert items[i + 1].Fragment?;
    }
  }

  /** The parser after the first item, and the text its open fragments then spell. */
  function AfterItem(p: Parser, items: seq<Item>, more: seq<Byte>, max: nat): Parser
    requires items != [] && Sendable(items, max)
  {
    var rest := items[1..];
    var tail := Encode(rest, if items[0].Control? then p.fragments.Some? else HasFragment(rest), max) + more;
    if items[0].Control? then p.(buffer := tail)
    else if !HasFragment(rest) then Parser(tail, None, 0)
    else
      var earlier := if p.fragments.Some? then p.fragments.value else [];
      Parser(tail, Some(earlier + [items[0].payload]), p.fragmentBytes + |items[0].payload|)
  }

  function SpeltAfter(items: seq<Item>, sofar: seq<Byte>): seq<Byte>
    requires items != []
  {
    if items[0].Control? then sofar else if HasFragment(items[1..]) then sofar + items[0].payload else []
  }

  /** The front frame, read and removed. */
  lemma FrontTaken(p: Parser, item: Item, fin: bool, opcode: Byte, tail: seq<Byte>, limits: Limits)
    requires item.Sendable(limits.max) && KnownOpcode(opcode)
    requires opcode >= 8 ==> fin && |item.payload| <= 125
    requires p.buffer == item.Bytes(fin, opcode) + tail
    ensures ReadFrame(p.buffer, limits.max).Got?
    ensures TakeFrame(p, limits) == ConsumeFrame(p.(buffer := tail), Frame(fin, opcode, item.payload), limits)
  {
    ReadsBack(item, fin, opcode, tail, limits.max);
    assert p.buffer[|item.Bytes(fin, opcode)|..] == tail;
  }

  lemma {:induction false} EncodeFirst(items: seq<Item>, open: bool, max: nat, more: seq<Byte>)
    requires items != [] && Sendable(items, max)
    ensures
      var rest := items[1..];
      Encode(items, open, max) + more ==
        if items[0].Control? then items[0].Bytes(true, items[0].opcode) + (Encode(rest, open, max) + more)
        else
          items[0].Bytes(!HasFragment(rest), if open then CONTINUATION else TEXT) +
          (Encode(rest, HasFragment(rest), max) + more)
  {
    var rest := items[1..];
    if items[0].Control? {
      Associative(items[0].Bytes(true, items[0].opcode), Encode(rest, open, max), more);
    } else {
      var opcode := if open then CONTINUATION else TEXT;
      Associative(items[0].Bytes(!HasFragment(rest), opcode), Encode(rest, HasFragment(rest), max), more);
    }
  }

  lemma {:induction false} ControlTaken(p: Parser, items: seq<Item>, message: seq<Byte>, more: seq<Byte>,
                                        limits: Limits)
    requires items != [] && items[0].Control? && Sendable(items, limits.max)
    requires p.buffer == Encode(items, p.fragments.Some?, limits.max) + more
    ensures ReadFrame(p.buffer, limits.max).Got?
    ensures TakeFrame(p, limits) == Parsed(AfterItem(p, items, more, limits.max), FirstEvents(items, message))
  {
    hide Encode, ReadFrame, TakeFrame;
    var item, tail := items[0], Encode(items[1..], p.fragments.Some?, limits.max) + more;
    EncodeFirst(items, p.fragments.Some?, limits.max, more);
    FrontTaken(p, item, true, item.opcode, tail, limits);
  }

  lemma {:induction false} FragmentFrameTaken(p: Parser, items: seq<Item>, sofar: seq<Byte>, message: seq<Byte>,
                                              more: seq<Byte>, limits: Limits)
    requires items != [] && items[0].Fragment? && Midway(p, items, sofar, message, limits) && HasFragment(items)
    requires p.buffer == Encode(items, p.fragments.Some?, limits.max) + more
    ensures ReadFrame(p.buffer, limits.max).Got?
    ensures TakeFrame(p, limits) == Parsed(AfterItem(p, items, more, limits.max), FirstEvents(items, message))
  {
    hide Encode, ReadFrame, TakeFrame, ConsumeFrame, Message, Item.Bytes, HasFragment;
    var item, rest := items[0], items[1..];
    var fin, opcode := !HasFragment(rest), if p.fragments.Some? then CONTINUATION else TEXT;
    var tail := Encode(rest, HasFragment(rest), limits.max) + more;
    EncodeFirst(items, p.fragments.Some?, limits.max, more);
    FrontTaken(p, item, fin, opcode, tail, limits);
    FragmentTaken(p.(buffer := tail), items, sofar, message, limits);
  }

  lemma FragmentTaken(p: Parser, items: seq<Item>, sofar: seq<Byte>, message: seq<Byte>, limits: Limits)
    requires items != [] && items[0].Fragment? && Midway(p, items, sofar, message, limits) && HasFragment(items)
    ensures
      var fin := !HasFragment(items[1..]);
      var frame := Frame(fin, if p.fragments.Some? then CONTINUATION else TEXT, items[0].payload);
      var earlier := if p.fragments.Some? then p.fragments.value else [];
      ConsumeFrame(p, frame, limits) ==
      if fin then Parsed(Parser(p.buffer, None, 0), [Text(message)])
      else Parsed(Parser(p.buffer, Some(earlier + [frame.payload]), p.fragmentBytes + |frame.payload|), [])
  {
    var payload, rest := items[0].payload, items[1..];
    NoFragmentNoMessage(rest);
    assert message == sofar + payload + Message(rest);
    if p.fragments.Some? {
      ConcatSnoc(p.fragments.value, payload);
    } else {
      assert [] + [payload] == [payload];
    }
    if !HasFragment(rest) {
      assert message == sofar + payload;
      assert sofar == [] ==> message == payload;
    }
  }

  lemma {:induction false} NoFragmentNoMessage(items: seq<Item>)
    ensures !HasFragment(items) ==> Message(items) == []
  {
    if items != [] {
      HasFragmentTail(items);
      NoFragmentNoMessage(items[1..]);
    }
  }

  lemma StillMidway(p: Parser, items: seq<Item>, sofar: seq<Byte>, message: seq<Byte>, more: seq<Byte>, limits: Limits)
    requires items != [] && Midway(p, items, sofar, message, limits)
    ensures
      var q := AfterItem(p, items, more, limits.max);
      && Midway(q, items[1..], SpeltAfter(items, sofar), message, limits)
      && q.buffer == Encode(items[1..], q.fragments.Some?, limits.max) + more
  {
    HasFragmentTail(items);
    var payload, rest := items[0].payload, items[1..];
    if items[0].Fragment? && HasFragment(rest) {
      assert sofar + (payload + Message(rest)) == (sofar + payload) + Message(rest);
      ConcatSnoc(if p.fragments.Some? then p.fragments.value else [], payload);
    }
  }

  lemma {:induction false} ItemsParse(p: Parser, items: seq<Item>, sofar: seq<Byte>, message: seq<Byte>,
                                      more: seq<Byte>, limits: Limits)
    requires Midway(p, items, sofar, message, limits)
    requires p.buffer == Encode(items, p.fragments.Some?, limits.max) + more
    ensures Drain(p, limits) == Push(NEW_PARSER, more, limits).After(Events(items, message))
    decreases |items|
  {
    if items == [] {
      assert p.buffer == more == [] + more;
      assert p == Parser(more, None, 0);
    } else {
      HasFragmentTail(items);
      if items[0].Control? {
        ControlTaken(p, items, message, more, limits);
      } else {
        FragmentFrameTaken(p, items, sofar, message, more, limits);
      }
      StillMidway(p, items, sofar, message, more, limits);
      var q := AfterItem(p, items, more, limits.max);
      ItemsParse(q, items[1..], SpeltAfter(items, sofar), message, more, limits);
      AfterAfter(Push(NEW_PARSER, more, limits), FirstEvents(items, message), Events(items[1..], message));
    }
  }

  /** A message a client may send: any fragmentation, masks and length forms, with control frames anywhere. */
  predicate Acceptable(items: seq<Item>, limits: Limits) {
    Sendable(items, limits.max) && HasFragment(items) && |Message(items)| <= limits.max && limits.utf8(Message(items))
  }

  function EncodeAll(messages: seq<seq<Item>>, limits: Limits): seq<Byte>
    requires forall i :: 0 <= i < |messages| ==> Acceptable(messages[i], limits)
  {
    if messages == [] then []
    else
      assert Acceptable(messages[0], limits);
      Encode(messages[0], false, limits.max) + EncodeAll(messages[1..], limits)
  }

  function AllEvents(messages: seq<seq<Item>>): seq<Event> {
    if messages == [] then [] else Events(messages[0], Message(messages[0])) + AllEvents(messages[1..])
  }

  lemma {:induction false} MessagesParse(messages: seq<seq<Item>>, limits: Limits)
    requires forall i :: 0 <= i < |messages| ==> Acceptable(messages[i], limits)
    ensures Push(NEW_PARSER, EncodeAll(messages, limits), limits) == Parsed(NEW_PARSER, AllEvents(messages))
  {
    if messages != [] {
      var items, more := messages[0], EncodeAll(messages[1..], limits);
      var p := NEW_PARSER.(buffer := [] + EncodeAll(messages, limits));
      assert [] + Message(items) == Message(items);
      ItemsParse(p, items, [], Message(items), more, limits);
      MessagesParse(messages[1..], limits);
    }
  }

  /**
   * Round trip: any messages, sent as any fragments in any length form with control frames between
   * them, and received in any chunks, come out as exactly those messages and control events, in
   * order, and leave the parser as new.
   */
  lemma RoundTrip(messages: seq<seq<Item>>, chunks: seq<seq<Byte>>, limits: Limits)
    requires forall i :: 0 <= i < |messages| ==> Acceptable(messages[i], limits)
    requires Join(chunks) == EncodeAll(messages, limits)
    ensures Feed(NEW_PARSER, chunks, limits) == Parsed(NEW_PARSER, AllEvents(messages))
    ensures Delivered(NEW_PARSER, chunks, limits) == AllEvents(messages)
  {
    MessagesParse(messages, limits);
    ParsingIgnoresCuts(NEW_PARSER, chunks, limits);
    DeliveredByReturning(NEW_PARSER, chunks, limits);
    assert chunks[..|chunks|] == chunks;
  }
}
