/**
  MCUmgr's console framing. A packet travels as its length, its octets and their CRC, cut into pieces
  that are base64-encoded one frame each.
 */
module SerialFraming {
  import opened Common
  import opened Base64
  import opened Crc16

  const PACKET_MARKER: seq<byte> := [0x06, 0x09]
  const FRAGMENT_MARKER: seq<byte> := [0x04, 0x14]
  const NEWLINE: byte := 0x0A
  const CARRIAGE_RETURN: byte := 0x0D
  const MAX_FRAME := 127
  const MARKER_SIZE := 2
  const MAX_BASE64_PER_FRAME := 124
  const MAX_RAW_PER_FRAME := 93
  const MAX_SERIAL_PACKET := 65533

  // --- Outbound: what each frame carries ----------------------------------------------------------

  datatype FramePlan = FramePlan(triplets: nat, carriesCrc: bool)

  /** How many triplets go into the frame at `offset`, and whether the CRC does; its two octets stay together. */
  function PlanFrame(size: nat, offset: nat, first: bool): (plan: FramePlan)
    requires offset < size
    ensures var off := if first then offset + 1 else offset;
            && off + 3 * plan.triplets <= size
            && (plan.carriesCrc ==> size - (off + 3 * plan.triplets) <= 2)
            && (!plan.carriesCrc ==> plan.triplets >= 29 && off + 3 * plan.triplets < size)
  {
    var budget := if first then MAX_RAW_PER_FRAME - 3 else MAX_RAW_PER_FRAME;
    var left := size - (if first then offset + 1 else offset);
    var wanted := Min(left, budget);
    if budget >= left then
      if budget - left <= 1 then FramePlan((wanted - 1) / 3, false) else FramePlan(wanted / 3, true)
    else FramePlan(wanted / 3, false)
  }

  predicate Framable(p: seq<byte>) {
    0 < |p| <= MAX_SERIAL_PACKET
  }

  function CrcOctets(p: seq<byte>): seq<byte> {
    BigEndian(Crc(0, p))
  }

  /** All raw octets of a message on the link: two of length, the packet, two of CRC; the length is that of the rest. */
  function Body(p: seq<byte>): seq<byte>
    requires Framable(p)
  {
    Octets16(|p| + 2) + p + CrcOctets(p)
  }

  /** Where the frame's own triplets begin: behind the octet that travels with the length. */
  function Start(offset: nat, first: bool): nat {
    if first then offset + 1 else offset
  }

  /** The raw octets of the frame at `offset`. */
  function Piece(p: seq<byte>, offset: nat, first: bool): seq<byte>
    requires Framable(p) && offset < |p| && (first ==> offset == 0)
  {
    var plan := PlanFrame(|p|, offset, first);
    var from := Start(offset, first);
    (if first then Octets16(|p| + 2) + [p[0]] else [])
    + if plan.carriesCrc then p[from..] + CrcOctets(p) else p[from..from + 3 * plan.triplets]
  }

  function NextOffset(p: seq<byte>, offset: nat, first: bool): (r: nat)
    requires offset < |p|
    ensures offset < r <= |p|
  {
    var plan := PlanFrame(|p|, offset, first);
    if plan.carriesCrc then |p| else Start(offset, first) + 3 * plan.triplets
  }

  function Pieces(p: seq<byte>, offset: nat, first: bool): seq<seq<byte>>
    requires Framable(p) && (first ==> offset == 0)
    decreases |p| - offset
  {
    if offset >= |p| then [] else [Piece(p, offset, first)] + Pieces(p, NextOffset(p, offset, first), false)
  }

  /** A frame without its newline. */
  function FrameLine(piece: seq<byte>, first: bool): seq<byte> {
    (if first then PACKET_MARKER else FRAGMENT_MARKER) + Encode(piece)
  }

  function LinesFrom(p: seq<byte>, offset: nat, first: bool): seq<seq<byte>>
    requires Framable(p) && (first ==> offset == 0)
    decreases |p| - offset
  {
    if offset >= |p| then []
    else [FrameLine(Piece(p, offset, first), first)] + LinesFrom(p, NextOffset(p, offset, first), false)
  }

  /** The frames of a message, without their newlines; none for a message that cannot be framed. */
  function Lines(p: seq<byte>): seq<seq<byte>> {
    if Framable(p) then LinesFrom(p, 0, true) else []
  }

  /** The shape of one piece: at most 93 octets, whole triplets unless it is the last. */
  lemma PieceShape(p: seq<byte>, offset: nat, first: bool)
    requires Framable(p) && offset < |p| && (first ==> offset == 0)
    ensures var piece := Piece(p, offset, first);
            && 2 <= |piece| <= MAX_RAW_PER_FRAME
            && (NextOffset(p, offset, first) < |p| ==> |piece| % 3 == 0 && !PlanFrame(|p|, offset, first).carriesCrc)
            && (NextOffset(p, offset, first) == |p| ==> PlanFrame(|p|, offset, first).carriesCrc)
  {
  }

  /** A piece is a stretch of the body. */
  lemma PieceContinues(p: seq<byte>, offset: nat, first: bool)
    requires Framable(p) && offset < |p| && (first ==> offset == 0)
    ensures var next := NextOffset(p, offset, first);
            Piece(p, offset, first) == (if first then Octets16(|p| + 2) else []) + p[offset..next] + if next
                == |p| then CrcOctets(p) else []
  {
    PieceShape(p, offset, first);
    hide PlanFrame, Crc;
    if first {
      assert p[0..] == [p[0]] + p[1..];
    }
  }

  /** The pieces together are the body: nothing is lost, doubled or reordered at a frame boundary. */
  lemma {:induction false} PiecesMakeBody(p: seq<byte>, offset: nat, first: bool)
    requires Framable(p) && offset < |p| && (first ==> offset == 0)
    ensures Concat(Pieces(p, offset, first)) == (if first then Octets16(|p| + 2) else []) + p[offset..] + CrcOctets(p)
    decreases |p| - offset
  {
    hide Piece, NextOffset, CrcOctets, Octets16;
    var next := NextOffset(p, offset, first);
    NextBounds(p, offset, first);
    PieceContinues(p, offset, first);
    var piece := Piece(p, offset, first);
    if next < |p| {
      PiecesMakeBody(p, next, false);
      var lead := if first then Octets16(|p| + 2) else [];
      Regroup(lead, p, offset, next, CrcOctets(p));
      assert Pieces(p, offset, first)[1..] == Pieces(p, next, false);
    } else {
      assert Pieces(p, offset, first) == [piece];
      assert Concat([piece]) == piece + [] == piece;
    }
  }

  /** From the start, that is the whole body. */
  lemma PiecesAreBody(p: seq<byte>)
    requires Framable(p)
    ensures Concat(Pieces(p, 0, true)) == Body(p)
  {
    hide Pieces, CrcOctets, Octets16;
    PiecesMakeBody(p, 0, true);
    assert p[0..] == p;
  }

  lemma Regroup(lead: seq<byte>, p: seq<byte>, offset: nat, next: nat, tail: seq<byte>)
    requires offset <= next <= |p|
    ensures (lead + p[offset..next] + []) + ([] + p[next..] + tail) == lead + p[offset..] + tail
  {
  }

  /** The CRC never straddles frames: the last piece ends with both its octets. */
  lemma {:induction false} CrcInLastPiece(p: seq<byte>, offset: nat, first: bool)
    requires Framable(p) && offset < |p| && (first ==> offset == 0)
    ensures var pieces := Pieces(p, offset, first);
            && pieces != []
            && var last := pieces[|pieces| - 1];
               |last| >= 2 && last[|last| - 2..] == CrcOctets(p)
    decreases |p| - offset
  {
    hide Piece, NextOffset, Octets16, Crc;
    var next := NextOffset(p, offset, first);
    NextBounds(p, offset, first);
    if next < |p| {
      CrcInLastPiece(p, next, false);
    } else {
      PieceContinues(p, offset, first);
      assert Pieces(p, offset, first) == [Piece(p, offset, first)];
    }
  }

  lemma NextBounds(p: seq<byte>, offset: nat, first: bool)
    requires offset < |p|
    ensures offset < NextOffset(p, offset, first) <= |p|
  {
  }

  /**
    A frame carries as much as fits: the checksum exactly if there is room for all that is left and both its octets,
    and otherwise the most whole triplets that leave something for the next.
   */
  lemma FramesAreFull(size: nat, offset: nat, first: bool)
    requires offset < size
    ensures var room, left := if first then 90 else 93, size - Start(offset, first);
            var plan := PlanFrame(size, offset, first);
            && (plan.carriesCrc <==> left + 2 <= room)
            && (!plan.carriesCrc ==> plan.triplets == Min(left - 1, room) / 3)
  {
  }

  /** Every frame of a message says what it is: the first opens a packet, the others continue one. */
  lemma {:induction false} FramesAreMarked(p: seq<byte>, offset: nat, first: bool, k: nat)
    requires Framable(p) && (first ==> offset == 0) && k < |LinesFrom(p, offset, first)|
    ensures var line := LinesFrom(p, offset, first)[k];
            |line| >= 2 && line[..2] == if first && k == 0 then [0x06, 0x09] else [0x04, 0x14]
    decreases |p| - offset
  {
    hide Piece, PlanFrame, Encode;
    if k == 0 {
    } else {
      FramesAreMarked(p, NextOffset(p, offset, first), false, k - 1);
    }
  }

  // --- Inbound: lines -----------------------------------------------------------------------------

  /** A line in the making; `discarding` once nothing of it will be kept. */
  datatype Splitter = Splitter(line: seq<byte>, discarding: bool)

  const FRESH_LINE := Splitter([], false)

  /** A carriage return right before the newline is dropped. */
  function Stripped(line: seq<byte>): seq<byte> {
    if line != [] && line[|line| - 1] == CARRIAGE_RETURN then line[..|line| - 1] else line
  }

  /** One octet: a complete line at a newline, unless it was too long. */
  function TakeOctet(s: Splitter, maxLine: nat, value: byte): (Splitter, Option<seq<byte>>) {
    if value == NEWLINE then (FRESH_LINE, if s.discarding then None else Some(Stripped(s.line)))
    else if s.discarding then (s, None)
    else if |s.line| == maxLine then (Splitter([], true), None)
    else (s.(line := s.line + [value]), None)
  }

  // --- Inbound: packets ---------------------------------------------------------------------------

  /** A packet in the making: its octets so far, how many were declared, and how many of a finished one are ready. */
  datatype Deframer = Deframer(buffer: seq<byte>, declared: nat, ready: nat)

  const IDLE_DEFRAMER := Deframer([], 0, 0)

  datatype Outcome = NeedMore | Packet | Ignored | Broken

  predicate StartsPacket(line: seq<byte>) {
    |line| >= MARKER_SIZE && line[..MARKER_SIZE] == PACKET_MARKER
  }

  predicate ContinuesPacket(line: seq<byte>) {
    |line| >= MARKER_SIZE && line[..MARKER_SIZE] == FRAGMENT_MARKER
  }

  /** One frame's octets behind those there, unless undecodable or more than was declared. */
  function Appended(d: Deframer, text: seq<byte>): Option<Deframer> {
    if |text| > MAX_BASE64_PER_FRAME then None else
    match Decode(text)
    case None => None
    case Some(octets) =>
      if d.declared != 0 && |d.buffer| + |octets| > d.declared then None
      else Some(d.(buffer := d.buffer + octets))
  }

  /** The deframer once the first two octets have become the length to expect, if that length will do. */
  function Declared(d: Deframer, maxPacket: nat): Option<Deframer> {
    if |d.buffer| < 2 then None else
    var declared := Value16(d.buffer[0], d.buffer[1]);
    if declared <= 2 || declared > maxPacket || |d.buffer| - 2 > declared then None
    else Some(Deframer(d.buffer[2..], declared, d.ready))
  }

  function Judge(d: Deframer): (Deframer, Outcome) {
    if |d.buffer| < d.declared then (d, NeedMore)
    else if |d.buffer| > d.declared then (IDLE_DEFRAMER, Broken)
    else if Crc(0, d.buffer) != 0 then (IDLE_DEFRAMER, Broken)
    else (Deframer(d.buffer, 0, if |d.buffer| >= 2 then |d.buffer| - 2 else 0), Packet)
  }

  /** If the deframer accepts a body, it rejects every body that differs from it in two adjacent octets. */
  lemma ChangedBodyRejected(d: Deframer, before: seq<byte>, there: seq<byte>, changed: seq<byte>, after: seq<byte>)
    requires |there| == |changed| == 2 && there != changed
    requires d.buffer == before + there + after && Judge(d).1.Packet?
    ensures Judge(d.(buffer := before + changed + after)) == (IDLE_DEFRAMER, Broken)
  {
    hide Crc;
    AdjacentChangeDetected(before, there, changed, after);
  }

  /** Forgets the packet handed out last. */
  function Settled(d: Deframer): Deframer {
    if d.ready != 0 then d.(buffer := [], ready := 0) else d
  }

  function FeedLine(d: Deframer, maxPacket: nat, line: seq<byte>): (Deframer, Outcome) {
    var e := Settled(d);
    var starts := StartsPacket(line);
    if !starts && !ContinuesPacket(line) then (e, Ignored)
    else
      var f := if starts then e.(buffer := [], declared := 0) else e;
      if !starts && f.buffer == [] then (IDLE_DEFRAMER, Broken)
      else
        var g := Appended(f, line[MARKER_SIZE..]);
        var h := if g.None? then None else if starts then Declared(g.value, maxPacket) else g;
        if h.None? then (IDLE_DEFRAMER, Broken) else Judge(h.value)
  }

  /** The packet the last line completed. */
  function PacketOf(d: Deframer): seq<byte>
    requires d.ready <= |d.buffer|
  {
    d.buffer[..d.ready]
  }

  // --- One frame's journey ------------------------------------------------------------------------

  /** The deframer has the packet up to `offset`. */
  predicate Midway(d: Deframer, p: seq<byte>, offset: nat) {
    0 < offset < |p| && d == Deframer(p[..offset], |p| + 2, 0)
  }

  lemma FrameText(piece: seq<byte>, first: bool)
    requires |piece| <= MAX_RAW_PER_FRAME
    ensures var line := FrameLine(piece, first);
            && MARKER_SIZE <= |line| <= MAX_FRAME - 1 && line[MARKER_SIZE..] == Encode(piece)
               && |Encode(piece)| <= MAX_BASE64_PER_FRAME
            && StartsPacket(line) == first && ContinuesPacket(line) == !first
            && Decode(Encode(piece)) == Some(piece)
  {
    hide Encode, Decode;
    DecodeEncode(piece);
    var line := FrameLine(piece, first);
    assert line[..MARKER_SIZE] == if first then PACKET_MARKER else FRAGMENT_MARKER;
    assert PACKET_MARKER[0] != FRAGMENT_MARKER[0];
  }

  /** A complete body passes the CRC, and what is ready is the packet. */
  lemma BodyAccepted(p: seq<byte>)
    requires Framable(p)
    ensures var r := Judge(Deframer(p + CrcOctets(p), |p| + 2, 0));
            r.1.Packet? && r.0.ready <= |r.0.buffer| && PacketOf(r.0) == p
  {
    hide Crc, HighByte, LowByte;
    ResidueZero(p, CrcOctets(p));
    assert (p + CrcOctets(p))[..|p|] == p;
  }

  /** A line that is not a frame leaves a packet in the making alone. */
  lemma NoiseIgnored(d: Deframer, maxPacket: nat, line: seq<byte>)
    requires !StartsPacket(line) && !ContinuesPacket(line)
    ensures FeedLine(d, maxPacket, line) == (Settled(d), Ignored)
  {
  }

  /** A frame that starts a packet is judged on its own octets. */
  lemma FeedStart(d: Deframer, maxPacket: nat, line: seq<byte>, octets: seq<byte>, declared: nat)
    requires |line| >= MARKER_SIZE && StartsPacket(line) && |line| - MARKER_SIZE <= MAX_BASE64_PER_FRAME
             && Decode(line[MARKER_SIZE..]) == Some(octets)
    requires |octets| >= 2 && declared == Value16(octets[0], octets[1])
    requires 2 < declared <= maxPacket && |octets| - 2 <= declared
    ensures FeedLine(d, maxPacket, line) == Judge(Deframer(octets[2..], declared, 0))
  {
    hide Decode, Judge, StartsPacket, ContinuesPacket, Value16;
    assert [] + octets == octets;
  }

  /** A frame that continues one, on what is there and its own. */
  lemma FeedNext(d: Deframer, maxPacket: nat, line: seq<byte>, octets: seq<byte>)
    requires |line| >= MARKER_SIZE && !StartsPacket(line) && ContinuesPacket(line)
    requires |line| - MARKER_SIZE <= MAX_BASE64_PER_FRAME && Decode(line[MARKER_SIZE..]) == Some(octets)
    requires d.ready == 0 && d.buffer != [] && |d.buffer| + |octets| <= d.declared
    ensures FeedLine(d, maxPacket, line) == Judge(d.(buffer := d.buffer + octets))
  {
    hide Decode, Judge, StartsPacket, ContinuesPacket;
  }

  lemma FirstOctets(p: seq<byte>)
    requires Framable(p)
    ensures var piece := Piece(p, 0, true);
            var next := NextOffset(p, 0, true);
            && |piece| >= 2 && Value16(piece[0], piece[1]) == |p| + 2
            && piece[2..] == p[..next] + (if next == |p| then CrcOctets(p) else []) && |piece[2..]| <= |p| + 2
  {
    hide Piece, NextOffset, Octets16, Value16, Crc;
    PieceContinues(p, 0, true);
    ReadsBack16(|p| + 2);
    NextBounds(p, 0, true);
    var octets := Octets16(|p| + 2);
    var next := NextOffset(p, 0, true);
    var rest := p[..next] + if next == |p| then CrcOctets(p) else [];
    assert Piece(p, 0, true) == octets + rest;
    assert Piece(p, 0, true)[0] == octets[0] && Piece(p, 0, true)[1] == octets[1];
  }

  /** The first frame of a packet, whatever came before. */
  lemma FirstFrame(d: Deframer, maxPacket: nat, p: seq<byte>)
    requires Framable(p) && |p| + 2 <= maxPacket
    ensures var line := FrameLine(Piece(p, 0, true), true);
            var next := NextOffset(p, 0, true);
            var r := FeedLine(d, maxPacket, line);
            if next < |p| then Midway(r.0, p, next) && r.1.NeedMore?
            else r.1.Packet? && r.0.ready <= |r.0.buffer| && PacketOf(r.0) == p
  {
    hide Piece, NextOffset, Encode, Decode, CrcOctets, FrameLine, StartsPacket, ContinuesPacket, Judge, FeedLine,
        PacketOf, Value16;
    var piece := Piece(p, 0, true);
    var next := NextOffset(p, 0, true);
    NextBounds(p, 0, true);
    PieceShape(p, 0, true);
    FrameText(piece, true);
    FirstOctets(p);
    FeedStart(d, maxPacket, FrameLine(piece, true), piece, |p| + 2);
    BodyAccepted(p);
    JudgeMidway(p, next, piece[2..]);
  }

  lemma JudgeMidway(p: seq<byte>, next: nat, buffer: seq<byte>)
    requires 0 < next <= |p| && buffer == p[..next] + (if next == |p| then CrcOctets(p) else [])
    ensures next < |p| ==> Judge(Deframer(buffer, |p| + 2, 0)) == (Deframer(p[..next], |p| + 2, 0), NeedMore)
    ensures next == |p| ==> buffer == p + CrcOctets(p)
  {
    hide Crc;
    if next < |p| {
      assert buffer == p[..next];
    } else {
      assert p[..next] == p;
    }
  }

  lemma NextOctets(p: seq<byte>, offset: nat)
    requires Framable(p) && 0 < offset < |p|
    ensures var piece := Piece(p, offset, false);
            var next := NextOffset(p, offset, false);
            var buffer := p[..offset] + piece;
            buffer == p[..next] + (if next == |p| then CrcOctets(p) else []) && |buffer| <= |p| + 2
  {
    PieceContinues(p, offset, false);
    NextBounds(p, offset, false);
    hide Piece, NextOffset, Octets16, Crc;
  }

  /** A continuation, with the packet so far in place. */
  lemma NextFrameFits(d: Deframer, maxPacket: nat, p: seq<byte>, offset: nat)
    requires Framable(p) && Midway(d, p, offset)
    ensures var line := FrameLine(Piece(p, offset, false), false);
            var next := NextOffset(p, offset, false);
            var r := FeedLine(d, maxPacket, line);
            if next < |p| then Midway(r.0, p, next) && r.1.NeedMore?
            else r.1.Packet? && r.0.ready <= |r.0.buffer| && PacketOf(r.0) == p
  {
    hide Piece, NextOffset, Encode, Decode, CrcOctets, FrameLine, StartsPacket, ContinuesPacket, Judge, FeedLine,
        PacketOf;
    var piece := Piece(p, offset, false);
    var next := NextOffset(p, offset, false);
    NextBounds(p, offset, false);
    PieceShape(p, offset, false);
    FrameText(piece, false);
    NextOctets(p, offset);
    FeedNext(d, maxPacket, FrameLine(piece, false), piece);
    BodyAccepted(p);
    JudgeMidway(p, next, d.buffer + piece);
  }
}
