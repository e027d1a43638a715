/** Framing and deframing together: what one end puts on the line, the other hands out. */
module SerialLink {
  import opened Common
  import opened Base64
  import opened SerialFraming

  /** The inbound path: a line in the making and a packet in the making. */
  datatype Inbound = Inbound(splitter: Splitter, deframer: Deframer)

  const FRESH := Inbound(FRESH_LINE, IDLE_DEFRAMER)

  /** The packet a line completes, if it does. */
  function LineStep(d: Deframer, maxPacket: nat, line: seq<byte>): (Deframer, seq<seq<byte>>) {
    var r := FeedLine(d, maxPacket, line);
    (r.0, if r.1.Packet? && r.0.ready <= |r.0.buffer| then [PacketOf(r.0)] else [])
  }

  function OctetStep(s: Inbound, maxPacket: nat, value: byte): (Inbound, seq<seq<byte>>) {
    var taken := TakeOctet(s.splitter, MAX_FRAME, value);
    match taken.1
    case None => (Inbound(taken.0, s.deframer), [])
    case Some(line) =>
      var fed := LineStep(s.deframer, maxPacket, line);
      (Inbound(taken.0, fed.0), fed.1)
  }

  /** The packets delivered from a stream of octets, in order. */
  function Receive(s: Inbound, maxPacket: nat, octets: seq<byte>): (Inbound, seq<seq<byte>>)
    decreases |octets|
  {
    if octets == [] then (s, []) else
    var first := OctetStep(s, maxPacket, octets[0]);
    var rest := Receive(first.0, maxPacket, octets[1..]);
    (rest.0, first.1 + rest.1)
  }

  /** Reads are irrelevant: a stream may be received in any two parts. */
  lemma {:induction false} ReceiveInParts(s: Inbound, maxPacket: nat, a: seq<byte>, b: seq<byte>)
    ensures var first := Receive(s, maxPacket, a);
            var second := Receive(first.0, maxPacket, b);
            Receive(s, maxPacket, a + b) == (second.0, first.1 + second.1)
    decreases |a|
  {
    hide OctetStep;
    if a == [] {
      assert a + b == b;
      assert [] + Receive(s, maxPacket, b).1 == Receive(s, maxPacket, b).1;
    } else {
      var step := OctetStep(s, maxPacket, a[0]);
      ReceiveInParts(step.0, maxPacket, a[1..], b);
      assert (a + b)[0] == a[0] && (a + b)[1..] == a[1..] + b;
      var first := Receive(step.0, maxPacket, a[1..]);
      var second := Receive(first.0, maxPacket, b);
      assert step.1 + (first.1 + second.1) == (step.1 + first.1) + second.1;
    }
  }

  /** The packets delivered from a list of reads. */
  function ReceiveAll(s: Inbound, maxPacket: nat, chunks: seq<seq<byte>>): (Inbound, seq<seq<byte>>)
    decreases |chunks|
  {
    if chunks == [] then (s, []) else
    var first := Receive(s, maxPacket, chunks[0]);
    var rest := ReceiveAll(first.0, maxPacket, chunks[1..]);
    (rest.0, first.1 + rest.1)
  }

  /** However a stream is split into reads, the same packets come out. */
  lemma {:induction false} ReadsDoNotMatter(s: Inbound, maxPacket: nat, chunks: seq<seq<byte>>)
    ensures ReceiveAll(s, maxPacket, chunks) == Receive(s, maxPacket, Concat(chunks))
    decreases |chunks|
  {
    hide OctetStep;
    if chunks == [] {
    } else {
      ReadsDoNotMatter(Receive(s, maxPacket, chunks[0]).0, maxPacket, chunks[1..]);
      ReceiveInParts(s, maxPacket, chunks[0], Concat(chunks[1..]));
    }
  }

  // --- Line by line -------------------------------------------------------------------------------

  predicate NoNewline(line: seq<byte>) {
    forall k :: 0 <= k < |line| ==> line[k] != NEWLINE
  }

  /** A whole line's effect: dropped if longer than any frame, else handed to the deframer. */
  function WholeLine(d: Deframer, maxPacket: nat, line: seq<byte>): (Deframer, seq<seq<byte>>) {
    if |line| > MAX_FRAME then (d, []) else LineStep(d, maxPacket, Stripped(line))
  }

  /** The splitter part way through a line. */
  function Partial(line: seq<byte>): Splitter {
    if |line| > MAX_FRAME then Splitter([], true) else Splitter(line, false)
  }

  lemma {:induction false} ReceivePartial(d: Deframer, maxPacket: nat, line: seq<byte>, rest: seq<byte>)
    requires NoNewline(rest)
    ensures Receive(Inbound(Partial(line), d), maxPacket, rest) == (Inbound(Partial(line + rest), d), [])
    decreases |rest|
  {
    hide LineStep;
    if rest == [] {
      assert line + rest == line;
    } else {
      assert OctetStep(Inbound(Partial(line), d), maxPacket, rest[0]) == (Inbound(Partial(line + [rest[0]]), d), []);
      ReceivePartial(d, maxPacket, line + [rest[0]], rest[1..]);
      assert line + rest == (line + [rest[0]]) + rest[1..];
      var none: seq<seq<byte>> := [];
      assert none + none == none;
    }
  }

  /** A line and its newline leave the splitter fresh. */
  lemma ReceiveLine(d: Deframer, maxPacket: nat, line: seq<byte>)
    requires NoNewline(line)
    ensures var r := WholeLine(d, maxPacket, line);
            Receive(Inbound(FRESH_LINE, d), maxPacket, line + [NEWLINE]) == (Inbound(FRESH_LINE, r.0), r.1)
  {
    hide LineStep;
    assert Partial([]) == FRESH_LINE && [] + line == line;
    ReceivePartial(d, maxPacket, [], line);
    ReceiveInParts(Inbound(FRESH_LINE, d), maxPacket, line, [NEWLINE]);
    var s := Inbound(Partial(line), d);
    var r := WholeLine(d, maxPacket, line);
    assert OctetStep(s, maxPacket, NEWLINE) == (Inbound(FRESH_LINE, r.0), r.1);
    assert Receive(s, maxPacket, [NEWLINE]) == (Inbound(FRESH_LINE, r.0), r.1 + []);
    assert [] + (r.1 + []) == r.1;
  }

  /** The stream made of whole lines. */
  function Stream(lines: seq<seq<byte>>): seq<byte> {
    if lines == [] then [] else lines[0] + [NEWLINE] + Stream(lines[1..])
  }

  function DeliverLines(d: Deframer, maxPacket: nat, lines: seq<seq<byte>>): seq<seq<byte>>
    decreases |lines|
  {
    if lines == [] then [] else
    var r := WholeLine(d, maxPacket, lines[0]);
    r.1 + DeliverLines(r.0, maxPacket, lines[1..])
  }

  /** A carriage return before the newline changes nothing. */
  lemma ReturnDropped(d: Deframer, maxPacket: nat, line: seq<byte>)
    requires NoNewline(line) && |line| < MAX_FRAME && (line != [] ==> line[|line| - 1] != CARRIAGE_RETURN)
    ensures Receive(Inbound(FRESH_LINE, d), maxPacket, line + [0x0D] + [NEWLINE])
         == Receive(Inbound(FRESH_LINE, d), maxPacket, line + [NEWLINE])
  {
    hide LineStep, Receive;
    ReceiveLine(d, maxPacket, line);
    ReceiveLine(d, maxPacket, line + [0x0D]);
    assert (line + [0x0D])[..|line|] == line;
  }

  lemma {:induction false} StreamDelivers(d: Deframer, maxPacket: nat, lines: seq<seq<byte>>)
    requires forall k :: 0 <= k < |lines| ==> NoNewline(lines[k])
    ensures Receive(Inbound(FRESH_LINE, d), maxPacket, Stream(lines)).1 == DeliverLines(d, maxPacket, lines)
    decreases |lines|
  {
    hide WholeLine, OctetStep, NoNewline;
    if lines == [] {
    } else {
      var line := lines[0] + [NEWLINE];
      ReceiveLine(d, maxPacket, lines[0]);
      ReceiveInParts(Inbound(FRESH_LINE, d), maxPacket, line, Stream(lines[1..]));
      StreamDelivers(WholeLine(d, maxPacket, lines[0]).0, maxPacket, lines[1..]);
    }
  }

  // --- The round trip -----------------------------------------------------------------------------

  /** Console output that is no frame: without a marker, or longer than any frame. */
  predicate Noise(line: seq<byte>) {
    NoNewline(line) && (|line| > MAX_FRAME || (!StartsPacket(Stripped(line)) && !ContinuesPacket(Stripped(line))))
  }

  /** The frames in their order, with noise anywhere between them. */
  ghost predicate Woven(lines: seq<seq<byte>>, frames: seq<seq<byte>>) {
    if lines == [] then frames == []
    else
      || (Noise(lines[0]) && Woven(lines[1..], frames))
      || (frames != [] && lines[0] == frames[0] && Woven(lines[1..], frames[1..]))
  }

  function AllLines(messages: seq<seq<byte>>): seq<seq<byte>> {
    if messages == [] then [] else Lines(messages[0]) + AllLines(messages[1..])
  }

  /** A message both ends can carry: not empty, and within the length field and the receiver's bound. */
  predicate Carried(p: seq<byte>, maxPacket: nat) {
    1 <= |p| <= Min(MAX_SERIAL_PACKET, maxPacket - 2)
  }

  lemma MarkedClean(piece: seq<byte>, first: bool)
    requires forall k :: 0 <= k < |Encode(piece)| ==> Encode(piece)[k] != NEWLINE && Encode(piece)[k] != CARRIAGE_RETURN
    ensures var line := FrameLine(piece, first);
            NoNewline(line) && Stripped(line) == line
  {
    hide Encode;
    var line := FrameLine(piece, first);
    forall k | 0 <= k < |line|
      ensures line[k] != NEWLINE && line[k] != CARRIAGE_RETURN
    {
      if k >= MARKER_SIZE {
        assert line[k] == Encode(piece)[k - MARKER_SIZE];
      }
    }
  }

  /** A frame's line is short, holds no newline and does not end in a carriage return. */
  lemma FrameLineClean(p: seq<byte>, offset: nat, first: bool)
    requires Framable(p) && offset < |p| && (first ==> offset == 0)
    ensures var line := FrameLine(Piece(p, offset, first), first);
            NoNewline(line) && Stripped(line) == line && |line| <= MAX_FRAME - 1 && !Noise(line)
  {
    hide Piece, Encode, Decode, StartsPacket, ContinuesPacket, FrameLine, NextOffset, PlanFrame, Stripped, NoNewline;
    PieceShape(p, offset, first);
    FrameText(Piece(p, offset, first), first);
    TextClean(Piece(p, offset, first));
    MarkedClean(Piece(p, offset, first), first);
  }

  lemma {:induction false} TextClean(s: seq<byte>)
    ensures forall k :: 0 <= k < |Encode(s)| ==> Encode(s)[k] != NEWLINE && Encode(s)[k] != CARRIAGE_RETURN
    decreases |s|
  {
    hide EncodeGroup;
    if s == [] {
    } else {
      if |s| <= 3 {
        GroupClean(s);
      } else {
        GroupClean(s[..3]);
        TextClean(s[3..]);
      }
    }
  }

  lemma GroupClean(s: seq<byte>)
    requires 1 <= |s| <= 3
    ensures forall k :: 0 <= k < 4 ==> EncodeGroup(s)[k] != NEWLINE && EncodeGroup(s)[k] != CARRIAGE_RETURN
  {
    hide Symbol, Value, S0, S1, S2, S3;
    var b1, b2 := if |s| > 1 then s[1] else 0, if |s| > 2 then s[2] else 0;
    ValueOfSymbol(S0(s[0]));
    ValueOfSymbol(S1(s[0], b1));
    ValueOfSymbol(S2(b1, b2));
    ValueOfSymbol(S3(b2));
  }

  /** Noise delivers nothing and leaves a packet in the making alone. */
  lemma NoiseDelivers(d: Deframer, maxPacket: nat, line: seq<byte>)
    requires Noise(line)
    ensures var r := WholeLine(d, maxPacket, line);
            r.1 == [] && (r.0 == d || r.0 == Settled(d))
  {
    hide StartsPacket, ContinuesPacket, FeedLine;
    if |line| <= MAX_FRAME {
      NoiseIgnored(d, maxPacket, Stripped(line));
    }
  }

  /** Ready for the frame of `p` at `offset`: anything will do for the first. */
  predicate Poised(d: Deframer, p: seq<byte>, offset: nat, first: bool) {
    if first then offset == 0 else Midway(d, p, offset)
  }

  /** A frame of a packet brings the deframer to the next one, or delivers the packet. */
  lemma FrameDelivers(d: Deframer, maxPacket: nat, p: seq<byte>, offset: nat, first: bool)
    requires Carried(p, maxPacket) && offset < |p| && Poised(d, p, offset, first)
    ensures var next := NextOffset(p, offset, first);
            var r := WholeLine(d, maxPacket, FrameLine(Piece(p, offset, first), first));
            if next < |p| then Midway(r.0, p, next) && r.1 == [] else r.1 == [p]
  {
    FrameLineClean(p, offset, first);
    NextBounds(p, offset, first);
    hide Piece, FrameLine, NextOffset, FeedLine, Stripped, PacketOf, Noise, NoNewline;
    if first {
      FirstFrame(d, maxPacket, p);
    } else {
      NextFrameFits(d, maxPacket, p, offset);
    }
  }

  /** The frames still to come, taken apart at the first. */
  lemma FramesAhead(p: seq<byte>, offset: nat, first: bool, later: seq<seq<byte>>)
    requires Framable(p) && offset < |p| && (first ==> offset == 0)
    ensures var frames := LinesFrom(p, offset, first) + AllLines(later);
            var next := NextOffset(p, offset, first);
            && frames != [] && frames[0] == FrameLine(Piece(p, offset, first), first)
            && offset < next <= |p|
            && frames[1..] == (if next < |p| then LinesFrom(p, next, false) else []) + AllLines(later)
  {
    hide Piece, FrameLine, NextOffset, AllLines;
    NextBounds(p, offset, first);
    var next := NextOffset(p, offset, first);
    var frame := FrameLine(Piece(p, offset, first), first);
    var rest := LinesFrom(p, next, false);
    assert LinesFrom(p, offset, first) == [frame] + rest;
    assert ([frame] + rest + AllLines(later))[1..] == rest + AllLines(later);
  }

  /**
    With `p` in the making from `offset` on and `later` still to come, the lines deliver exactly
    these, in order.
   */
  lemma {:induction false} Delivers(d: Deframer, maxPacket: nat, lines: seq<seq<byte>>, p: seq<byte>, offset: nat,
                                    first: bool, later: seq<seq<byte>>)
    requires Carried(p, maxPacket) && offset < |p| && Poised(d, p, offset, first)
    requires forall k :: 0 <= k < |later| ==> Carried(later[k], maxPacket)
    requires Woven(lines, LinesFrom(p, offset, first) + AllLines(later))
    ensures DeliverLines(d, maxPacket, lines) == [p] + later
    decreases |lines|, 0
  {
    hide Piece, FrameLine, NextOffset, WholeLine, Noise, LinesFrom, AllLines;
    FramesAhead(p, offset, first, later);
    var frames := LinesFrom(p, offset, first) + AllLines(later);
    var next := NextOffset(p, offset, first);
    var r := WholeLine(d, maxPacket, lines[0]);
    var none: seq<seq<byte>> := [];
    var rest := DeliverLines(r.0, maxPacket, lines[1..]);
    assert none + rest == rest;
    if Noise(lines[0]) && Woven(lines[1..], frames) {
      NoiseDelivers(d, maxPacket, lines[0]);
      PoisedStill(d, r.0, p, offset, first);
      Delivers(r.0, maxPacket, lines[1..], p, offset, first, later);
    } else {
      FrameDelivers(d, maxPacket, p, offset, first);
      if next < |p| {
        Delivers(r.0, maxPacket, lines[1..], p, next, false, later);
      } else {
        assert none + AllLines(later) == AllLines(later);
        DeliversAll(r.0, maxPacket, lines[1..], later);
      }
    }
  }

  lemma PoisedStill(d: Deframer, e: Deframer, p: seq<byte>, offset: nat, first: bool)
    requires Poised(d, p, offset, first) && (e == d || e == Settled(d))
    ensures Poised(e, p, offset, first)
  {
  }

  lemma {:induction false} DeliversAll(d: Deframer, maxPacket: nat, lines: seq<seq<byte>>, messages: seq<seq<byte>>)
    requires forall k :: 0 <= k < |messages| ==> Carried(messages[k], maxPacket)
    requires Woven(lines, AllLines(messages))
    ensures DeliverLines(d, maxPacket, lines) == messages
    decreases |lines|, 1
  {
    hide WholeLine, Noise, LinesFrom;
    if messages == [] {
      if lines != [] {
        NoiseDelivers(d, maxPacket, lines[0]);
        DeliversAll(WholeLine(d, maxPacket, lines[0]).0, maxPacket, lines[1..], messages);
      }
    } else {
      assert messages == [messages[0]] + messages[1..];
      Delivers(d, maxPacket, lines, messages[0], 0, true, messages[1..]);
    }
  }

  lemma {:induction false} WovenClean(lines: seq<seq<byte>>, frames: seq<seq<byte>>)
    requires Woven(lines, frames) && (forall k :: 0 <= k < |frames| ==> NoNewline(frames[k]))
    ensures forall k :: 0 <= k < |lines| ==> NoNewline(lines[k])
    decreases |lines|
  {
    hide NoNewline, StartsPacket, ContinuesPacket, Stripped;
    if lines == [] {
    } else {
      if Noise(lines[0]) && Woven(lines[1..], frames) {
        WovenClean(lines[1..], frames);
      } else {
        WovenClean(lines[1..], frames[1..]);
      }
    }
  }

  lemma {:induction false} LinesFromClean(p: seq<byte>, offset: nat, first: bool)
    requires Framable(p) && (first ==> offset == 0)
    ensures forall k :: 0 <= k < |LinesFrom(p, offset, first)| ==>
              NoNewline(LinesFrom(p, offset, first)[k]) && |LinesFrom(p, offset, first)[k]| <= MAX_FRAME - 1
    decreases |p| - offset
  {
    hide Piece, FrameLine, NextOffset, NoNewline, Stripped, Noise;
    if offset >= |p| {
    } else {
      NextBounds(p, offset, first);
      FrameLineClean(p, offset, first);
      LinesFromClean(p, NextOffset(p, offset, first), false);
    }
  }

  lemma {:induction false} AllLinesClean(messages: seq<seq<byte>>)
    ensures forall k :: 0 <= k < |AllLines(messages)| ==> NoNewline(AllLines(messages)[k])
    decreases |messages|
  {
    hide LinesFrom, NoNewline;
    if messages == [] {
    } else {
      if Framable(messages[0]) {
        LinesFromClean(messages[0], 0, true);
      }
      AllLinesClean(messages[1..]);
    }
  }

  /**
    The serial round trip: any messages the link can carry, framed, with any noise lines between the
    frames, and read in any chunks, are delivered exactly and in order.
   */
  lemma SerialRoundTrip(maxPacket: nat, messages: seq<seq<byte>>, lines: seq<seq<byte>>, chunks: seq<seq<byte>>)
    requires forall k :: 0 <= k < |messages| ==> Carried(messages[k], maxPacket)
    requires Woven(lines, AllLines(messages)) && Concat(chunks) == Stream(lines)
    ensures ReceiveAll(FRESH, maxPacket, chunks).1 == messages
  {
    hide Receive, ReceiveAll, Stream, Concat, AllLines, Woven, DeliverLines, NoNewline;
    ReadsDoNotMatter(FRESH, maxPacket, chunks);
    AllLinesClean(messages);
    WovenClean(lines, AllLines(messages));
    StreamDelivers(IDLE_DEFRAMER, maxPacket, lines);
    DeliversAll(IDLE_DEFRAMER, maxPacket, lines, messages);
  }

  /** No frame, newline included, is longer than 127 octets. */
  lemma FramesFit(p: seq<byte>, k: nat)
    requires k < |Lines(p)|
    ensures |Lines(p)[k] + [NEWLINE]| <= MAX_FRAME
  {
    hide LinesFrom;
    LinesFromClean(p, 0, true);
  }
}
