/** The serial link's objects, changing in place, proved against the definitions in SerialFraming and SerialLink. */
module SerialClasses {
  import opened Common
  import opened Base64
  import opened Crc16
  import F = SerialFraming
  import L = SerialLink

  // --- Outbound -----------------------------------------------------------------------------------

  /** Whole groups encode one after another. */
  lemma {:induction false} EncodeAppends(a: seq<byte>, b: seq<byte>)
    requires |a| % 3 == 0
    ensures Encode(a + b) == Encode(a) + Encode(b)
    decreases |a|
  {
    hide EncodeGroup, Encode, EncodedSize;
    EncodeNothing();
    if a == [] {
      assert a + b == b && [] + Encode(b) == Encode(b);
    } else {
      var c := a + b;
      EncodeStep(a);
      EncodeStep(c);
      assert c[..3] == a[..3];
      assert (if |c| > 3 then c[3..] else []) == (if |a| > 3 then a[3..] else []) + b;
      EncodeAppends(if |a| > 3 then a[3..] else [], b);
    }
  }

  /** Encodes `group` behind the text already written from `at` on. */
  method Append(group: seq<byte>, out: array<byte>, at: nat, written: nat, ghost was: seq<byte>,
                ghost text: seq<byte>) returns (total: nat)
    requires 1 <= |group| <= 3 && |was| == out.Length && |text| == written && at + written + 4 <= out.Length
    requires out[..] == Overlaid(was, at, text)
    modifies out
    ensures total == written + 4 && out[..] == Overlaid(was, at, text + Encode(group))
  {
    hide Overlaid, EncodeGroup;
    var n := EncodeInto(group, out, at + written);
    OverlaidOn(was, at, text, Encode(group));
    total := written + n;
  }

  class SerialFramer {
    const packet: seq<byte>
    const crc: bv16
    var offset: nat
    var first: bool

    ghost predicate Valid()
      reads this
    {
      && (packet == [] || F.Framable(packet)) && offset <= |packet| && (first ==> offset == 0)
      && crc == Crc(0, packet)
    }

    /** A message too long for the length field is refused: nothing is framed. */
    constructor (message: seq<byte>)
      ensures Valid() && offset == 0 && first && packet == if |message| > F.MAX_SERIAL_PACKET then [] else message
    {
      var kept := if |message| > F.MAX_SERIAL_PACKET then [] else message;
      var sum := Crc16Xmodem(0, kept);
      packet, crc, offset, first := kept, sum, 0, true;
    }

    predicate Done()
      reads this
    {
      offset >= |packet|
    }

    /** The number of frames `NextFrame` will write in all, found by planning each without writing it. */
    method Count() returns (frames: nat)
      requires Valid()
      ensures frames == |F.Lines(packet)|
    {
      hide F.PlanFrame, F.FrameLine, F.Piece;
      frames := 0;
      var off := 0;
      var opening := true;
      while off < |packet|
        invariant 0 <= off <= |packet| && (opening ==> off == 0)
        invariant packet != [] ==> frames + |F.LinesFrom(packet, off, opening)| == |F.Lines(packet)|
        invariant packet == [] ==> frames == 0
        decreases |packet| - off
      {
        var plan := F.PlanFrame(|packet|, off, opening);
        ghost var next := F.NextOffset(packet, off, opening);
        frames := frames + 1;
        if opening {
          off := off + 1;
        }
        off := off + 3 * plan.triplets;
        if plan.carriesCrc {
          off := |packet|;
        }
        opening := false;
        assert off == next;
      }
    }

    /** Writes `group` as the next characters of a frame that holds `raw` so far. */
    method Put(group: seq<byte>, out: array<byte>, at: nat, written: nat, ghost was: seq<byte>,
               ghost marker: seq<byte>, ghost raw: seq<byte>)
      returns (total: nat)
      requires 1 <= |group| <= 3 && |was| == out.Length && |raw| % 3 == 0 && written == |marker| + |Encode(raw)|
               && at + written + 4 <= out.Length
      requires out[..] == Overlaid(was, at, marker + Encode(raw))
      modifies out
      ensures total == written + 4 == |marker| + |Encode(raw + group)|
              && out[..] == Overlaid(was, at, marker + Encode(raw + group))
    {
      hide Overlaid, Encode;
      total := Append(group, out, at, written, was, marker + Encode(raw));
      EncodeAppends(raw, group);
      assert marker + Encode(raw) + Encode(group) == marker + (Encode(raw) + Encode(group));
      GroupSize(group);
    }

    /** Whole triplets of the packet from the current offset on. */
    method PutTriplets(triplets: nat, out: array<byte>, at: nat, begun: nat, ghost was: seq<byte>,
                       ghost marker: seq<byte>, ghost lead: seq<byte>)
      returns (written: nat)
      requires offset + 3 * triplets <= |packet| && |was| == out.Length && |lead| % 3 == 0
               && begun == |marker| + |Encode(lead)|
      requires at + begun + 4 * triplets <= out.Length && out[..] == Overlaid(was, at, marker + Encode(lead))
      modifies this`offset, out
      ensures offset == old(offset) + 3 * triplets && written == begun + 4 * triplets
      ensures var raw := lead + packet[old(offset)..offset];
              written == |marker| + |Encode(raw)| && out[..] == Overlaid(was, at, marker + Encode(raw))
    {
      hide Overlaid, Encode, EncodedSize;
      written := begun;
      ghost var from := offset;
      ghost var raw := lead;
      assert lead + packet[from..from] == lead;
      for i := 0 to triplets
        invariant offset == from + 3 * i && written == begun + 4 * i
        invariant raw == lead + packet[from..offset] && |raw| % 3 == 0 && written == |marker| + |Encode(raw)|
        invariant out[..] == Overlaid(was, at, marker + Encode(raw))
      {
        var group := packet[offset..offset + 3];
        written := Put(group, out, at, written, was, marker, raw);
        assert raw + group == lead + packet[from..offset + 3];
        raw := raw + group;
        offset := offset + 3;
      }
    }

    /** The packet's last octets, if any, and the CRC. */
    method PutTail(out: array<byte>, at: nat, begun: nat, ghost was: seq<byte>, ghost marker: seq<byte>,
                   ghost raw: seq<byte>) returns (written: nat)
      requires offset <= |packet| <= offset + 2 && crc == Crc(0, packet)
      requires |was| == out.Length && |raw| % 3 == 0 && begun == |marker| + |Encode(raw)|
      requires at + begun + (if |packet| == offset + 2 then 8 else 4) <= out.Length
               && out[..] == Overlaid(was, at, marker + Encode(raw))
      modifies this`offset, out
      ensures offset == |packet|
      ensures var whole := raw + packet[old(offset)..] + F.CrcOctets(packet);
              at + |marker + Encode(whole)| <= out.Length && written == |marker| + |Encode(whole)|
                  && out[..] == Overlaid(was, at, marker + Encode(whole))
    {
      hide Overlaid, Encode, EncodedSize, HighByte, LowByte, Crc;
      var high, low := HighByte(crc), LowByte(crc);
      ghost var whole := raw + packet[offset..] + F.CrcOctets(packet);
      if |packet| == offset {
        assert whole == raw + [high, low];
        written := Put([high, low], out, at, begun, was, marker, raw);
      } else if |packet| == offset + 1 {
        assert whole == raw + [packet[offset], high, low];
        written := Put([packet[offset], high, low], out, at, begun, was, marker, raw);
        offset := offset + 1;
      } else {
        var group := [packet[offset], packet[offset + 1], high];
        assert whole == (raw + group) + [low];
        written := Put(group, out, at, begun, was, marker, raw);
        written := Put([low], out, at, written, was, marker, raw + group);
        offset := offset + 2;
      }
    }

    /** Puts one frame into `out` at `at`, unless all are out or there is not room for the longest possible one. */
    method NextFrame(out: array<byte>, at: nat) returns (written: nat)
      requires Valid() && at <= out.Length
      modifies this`offset, this`first, out
      ensures Valid()
      ensures old(Done()) || out.Length - at < F.MAX_FRAME ==>
                written == 0 && out[..] == old(out[..]) && offset == old(offset) && first == old(first)
      ensures !old(Done()) && out.Length - at >= F.MAX_FRAME ==>
                && offset == F.NextOffset(packet, old(offset), old(first)) && !first
                && var frame := F.FrameLine(F.Piece(packet, old(offset), old(first)), old(first)) + [F.NEWLINE];
                   written == |frame| <= F.MAX_FRAME && out[..] == Overlaid(old(out[..]), at, frame)
    {
      if Done() || out.Length - at < F.MAX_FRAME {
        return 0;
      }
      hide Overlaid, Encode, EncodedSize, Crc, F.Piece, F.NextOffset;
      ghost var was, piece := out[..], F.Piece(packet, offset, first);
      PieceText(packet, offset, first);
      F.NextBounds(packet, offset, first);
      written := PutPiece(out, at);
      StoreNewline(out, at, written, was, MarkerOf(first) + Encode(piece));
      assert MarkerOf(first) + Encode(piece) == F.FrameLine(piece, first);
      written := written + 1;
      first := false;
    }

    /** The frame up to its newline. */
    method PutPiece(out: array<byte>, at: nat) returns (written: nat)
      requires Valid() && !Done() && out.Length - at >= F.MAX_FRAME
      modifies this`offset, out
      ensures offset == F.NextOffset(packet, old(offset), first)
      ensures var text := MarkerOf(first) + Encode(F.Piece(packet, old(offset), first));
              at + |text| < out.Length && written == |text| && out[..] == Overlaid(old(out[..]), at, text)
    {
      hide Overlaid, Encode, EncodedSize, Crc, F.PlanFrame, F.Piece, F.NextOffset, Octets16, F.CrcOctets, Lead,
          MarkerOf;
      var plan := F.PlanFrame(|packet|, offset, first);
      ghost var was, from := out[..], F.Start(offset, first);
      PlanSizes(|packet|, offset, first);
      PieceParts(packet, offset, first);
      PieceText(packet, offset, first);
      written := PutLead(out, at);
      written := PutTriplets(plan.triplets, out, at, written, was, MarkerOf(first), Lead(packet, first));
      if plan.carriesCrc {
        written := PutTail(out, at, written, was, MarkerOf(first), Lead(packet, first) + packet[from..offset]);
      }
    }

    /** The marker and, in the first frame, the group of the length and the first octet. */
    method PutLead(out: array<byte>, at: nat) returns (written: nat)
      requires Valid() && !Done() && at + 6 <= out.Length
      modifies this`offset, out
      ensures offset == F.Start(old(offset), first)
      ensures var text := MarkerOf(first) + Encode(Lead(packet, first));
              written == |text| == (if first then 6 else 2) && out[..] == Overlaid(old(out[..]), at, text)
    {
      hide Overlaid, Encode, EncodedSize, Crc, Octets16;
      ghost var was := out[..];
      written := PutMarker(if first then F.PACKET_MARKER else F.FRAGMENT_MARKER, out, at);
      EncodeNothing();
      assert MarkerOf(first) + Encode([]) == MarkerOf(first);
      if first {
        var group := Octets16(|packet| + 2) + [packet[0]];
        assert [] + group == group && |group| == 3 by { ReadsBack16(|packet| + 2); }
        written := Put(group, out, at, written, was, MarkerOf(first), []);
        offset := offset + 1;
      }
    }
  }

  function MarkerOf(first: bool): (m: seq<byte>)
    ensures |m| == 2
  {
    if first then F.PACKET_MARKER else F.FRAGMENT_MARKER
  }

  /** What the first frame carries ahead of the packet's triplets. */
  function Lead(p: seq<byte>, first: bool): (r: seq<byte>)
    requires F.Framable(p)
    ensures |r| % 3 == 0
  {
    if first then Octets16(|p| + 2) + [p[0]] else []
  }

  /** A frame's groups stay within 31, that is 124 characters. */
  lemma PlanSizes(size: nat, offset: nat, first: bool)
    requires offset < size && (first ==> offset == 0)
    ensures var plan := F.PlanFrame(size, offset, first);
            var off := F.Start(offset, first) + 3 * plan.triplets;
            && (if first then 1 else 0) + plan.triplets
               + (if !plan.carriesCrc then 0 else if size == off + 2 then 2 else 1) <= 31
            && off <= size && (plan.carriesCrc ==> size <= off + 2)
  {
  }

  lemma PieceText(p: seq<byte>, offset: nat, first: bool)
    requires F.Framable(p) && offset < |p| && (first ==> offset == 0)
    ensures |Encode(F.Piece(p, offset, first))| <= F.MAX_BASE64_PER_FRAME
  {
    hide F.Piece, F.NextOffset, F.PlanFrame, Encode;
    F.PieceShape(p, offset, first);
  }

  lemma PieceParts(p: seq<byte>, offset: nat, first: bool)
    requires F.Framable(p) && offset < |p| && (first ==> offset == 0)
    ensures var plan := F.PlanFrame(|p|, offset, first);
            var from := F.Start(offset, first);
            var off := from + 3 * plan.triplets;
            var raw := Lead(p, first) + p[from..off];
            && F.Piece(p, offset, first) == (if plan.carriesCrc then raw + p[off..] + F.CrcOctets(p) else raw)
            && F.NextOffset(p, offset, first) == if plan.carriesCrc then |p| else off
  {
    hide Octets16, F.CrcOctets;
    var from := F.Start(offset, first);
    var off := from + 3 * F.PlanFrame(|p|, offset, first).triplets;
    assert p[from..] == p[from..off] + p[off..];
  }

  method PutMarker(marker: seq<byte>, out: array<byte>, at: nat) returns (written: nat)
    requires |marker| == 2 && at + 2 <= out.Length
    modifies out
    ensures written == 2 && out[..] == Overlaid(old(out[..]), at, marker)
  {
    ghost var was := out[..];
    out[at] := marker[0];
    out[at + 1] := marker[1];
    written := 2;
    assert out[..] == Overlaid(was, at, marker);
  }

  method StoreNewline(out: array<byte>, at: nat, written: nat, ghost was: seq<byte>, ghost text: seq<byte>)
    requires |was| == out.Length && |text| == written && at + written < out.Length && out[..] == Overlaid(was, at, text)
    modifies out
    ensures out[..] == Overlaid(was, at, text + [F.NEWLINE])
  {
    out[at + written] := F.NEWLINE;
    assert out[..] == Overlaid(was, at, text + [F.NEWLINE]);
  }

  lemma GroupSize(group: seq<byte>)
    requires 1 <= |group| <= 3
    ensures |Encode(group)| == 4
  {
  }

  /** Every frame of a message, one after another, as the port writes them. */
  method FrameMessage(message: seq<byte>) returns (octets: seq<byte>)
    ensures octets == L.Stream(F.Lines(message))
  {
    hide Overlaid, F.LinesFrom, F.FrameLine, F.Piece, F.NextOffset, Crc, L.Stream;
    var framer := new SerialFramer(message);
    var count := framer.Count();
    var out := new byte[count * F.MAX_FRAME];
    var used := 0;
    ghost var p := framer.packet;
    ghost var left := F.Lines(p);
    RefusedLines(message);
    assert out[..0] + L.Stream(left) == L.Stream(left);
    while !framer.Done()
      invariant framer.Valid() && 0 <= used && used + |left| * F.MAX_FRAME <= out.Length
      invariant left == if p == [] then [] else F.LinesFrom(p, framer.offset, framer.first)
      invariant out[..used] + L.Stream(left) == L.Stream(F.Lines(p))
      decreases |p| - framer.offset
    {
      LinesStep(p, framer.offset, framer.first);
      ghost var was, before := out[..], used;
      ghost var frame := left[0] + [F.NEWLINE];
      var written := framer.NextFrame(out, used);
      OverlaidPrefix(was, before, frame);
      assert out[..before + |frame|] == was[..before] + frame;
      assert was[..before] + frame + L.Stream(left[1..]) == was[..before] + (frame + L.Stream(left[1..]));
      used := used + written;
      left := left[1..];
    }
    StreamOfNothing();
    NoLinesLeft(p, framer.offset, framer.first);
    assert out[..used] + [] == out[..used];
    octets := out[..used];
  }

  lemma OverlaidPrefix(was: seq<byte>, at: nat, q: seq<byte>)
    requires at + |q| <= |was|
    ensures Overlaid(was, at, q)[..at + |q|] == was[..at] + q
  {
  }

  lemma StreamOfNothing()
    ensures L.Stream([]) == []
  {
  }

  lemma RefusedLines(message: seq<byte>)
    ensures F.Lines(if |message| > F.MAX_SERIAL_PACKET then [] else message) == F.Lines(message)
  {
  }

  lemma NoLinesLeft(p: seq<byte>, offset: nat, first: bool)
    requires p == [] || (F.Framable(p) && offset >= |p| && (first ==> offset == 0))
    ensures (if p == [] then [] else F.LinesFrom(p, offset, first)) == []
  {
  }

  lemma LinesStep(p: seq<byte>, offset: nat, first: bool)
    requires F.Framable(p) && offset < |p| && (first ==> offset == 0)
    ensures var lines := F.LinesFrom(p, offset, first);
            && lines != [] && lines[0] == F.FrameLine(F.Piece(p, offset, first), first)
            && lines[1..] == F.LinesFrom(p, F.NextOffset(p, offset, first), false)
            && offset < F.NextOffset(p, offset, first) <= |p|
            && L.Stream(lines) == lines[0] + [F.NEWLINE] + L.Stream(lines[1..])
  {
    hide F.Piece, F.FrameLine, F.NextOffset;
    F.NextBounds(p, offset, first);
  }

  // --- Inbound ------------------------------------------------------------------------------------

  /** The splitter after taking octets up to the first complete line, the line, and what is left. */
  function UpToLine(s: F.Splitter, maxLine: nat, chunk: seq<byte>): (F.Splitter, Option<seq<byte>>, seq<byte>)
    decreases |chunk|
  {
    if chunk == [] then (s, None, []) else
    var taken := F.TakeOctet(s, maxLine, chunk[0]);
    if taken.1.Some? then (taken.0, taken.1, chunk[1..]) else UpToLine(taken.0, maxLine, chunk[1..])
  }

  class LineSplitter {
    var line: seq<byte>
    var discarding: bool
    const maxLine: nat

    ghost function Value(): F.Splitter
      reads this
    {
      F.Splitter(line, discarding)
    }

    constructor (maxLine: nat)
      ensures Value() == F.FRESH_LINE && this.maxLine == maxLine
    {
      this.maxLine := maxLine;
      line, discarding := [], false;
    }

    /** The first line that `chunk` completes, if it completes one, and the octets behind it. */
    method NextLine(chunk: seq<byte>) returns (complete: Option<seq<byte>>, rest: seq<byte>)
      modifies this
      ensures (Value(), complete, rest) == UpToLine(old(Value()), maxLine, chunk)
      ensures complete.Some? ==> |rest| < |chunk|
    {
      rest := chunk;
      while rest != []
        invariant UpToLine(Value(), maxLine, rest) == UpToLine(old(Value()), maxLine, chunk) && |rest| <= |chunk|
        decreases |rest|
      {
        var value := rest[0];
        rest := rest[1..];
        if value != F.NEWLINE {
          if discarding {
            continue;
          }
          if |line| == maxLine {
            line, discarding := [], true;
            continue;
          }
          line := line + [value];
          continue;
        }
        if discarding {
          line, discarding := [], false;
          continue;
        }
        complete := Some(F.Stripped(line));
        line := [];
        return;
      }
      complete := None;
    }
  }

  class SerialDeframer {
    var buffer: seq<byte>
    var declared: nat
    var ready: nat
    const maxPacket: nat

    ghost function Value(): F.Deframer
      reads this
    {
      F.Deframer(buffer, declared, ready)
    }

    constructor (maxPacket: nat)
      ensures Value() == F.IDLE_DEFRAMER && this.maxPacket == maxPacket
    {
      this.maxPacket := maxPacket;
      buffer, declared, ready := [], 0, 0;
    }

    method Abandon() returns (outcome: F.Outcome)
      modifies this
      ensures outcome.Broken? && Value() == F.IDLE_DEFRAMER
    {
      buffer, declared, ready := [], 0, 0;
      outcome := F.Broken;
    }

    /** One frame's octets behind those there. */
    method Decode(text: seq<byte>) returns (ok: bool)
      modifies this`buffer
      ensures match F.Appended(old(Value()), text)
              case Some(d) => ok && Value() == d
              case None => !ok && Value() == old(Value())
    {
      if |text| > F.MAX_BASE64_PER_FRAME {
        return false;
      }
      var scratch := new byte[F.MAX_RAW_PER_FRAME];
      var decoded := DecodeInto(text, scratch);
      if decoded.None? || (declared != 0 && |buffer| + decoded.value > declared) {
        return false;
      }
      buffer := buffer + scratch[..decoded.value];
      return true;
    }

    /** Takes the declared length off the front. */
    method TakeLength() returns (ok: bool)
      modifies this`buffer, this`declared
      ensures match F.Declared(old(Value()), maxPacket)
              case Some(d) => ok && Value() == d
              case None => !ok
    {
      hide Value16;
      if |buffer| < 2 {
        return false;
      }
      var length := Value16(buffer[0], buffer[1]);
      if length <= 2 || length > maxPacket {
        return false;
      }
      buffer, declared := buffer[2..], length;
      return |buffer| <= declared;
    }

    method FeedLine(line: seq<byte>) returns (outcome: F.Outcome)
      modifies this
      ensures (Value(), outcome) == F.FeedLine(old(Value()), maxPacket, line)
    {
      hide F.Appended, F.Declared, F.StartsPacket, F.ContinuesPacket, Crc;
      if ready != 0 {
        buffer, ready := [], 0;
      }
      var starts := F.StartsPacket(line);
      if !starts && !F.ContinuesPacket(line) {
        return F.Ignored;
      }
      if starts {
        buffer, declared := [], 0;
      } else if buffer == [] {
        outcome := Abandon();
        return;
      }
      MarkedLine(line);
      var ok := Decode(line[F.MARKER_SIZE..]);
      if ok && starts {
        ok := TakeLength();
      }
      if !ok || (|buffer| >= declared && |buffer| > declared) {
        outcome := Abandon();
        return;
      }
      if |buffer| < declared {
        return F.NeedMore;
      }
      var residue := Crc16Xmodem(0, buffer);
      if residue != 0 {
        outcome := Abandon();
        return;
      }
      ready, declared := if |buffer| >= 2 then |buffer| - 2 else 0, 0;
      return F.Packet;
    }
  }

  lemma MarkedLine(line: seq<byte>)
    requires F.StartsPacket(line) || F.ContinuesPacket(line)
    ensures |line| >= F.MARKER_SIZE
  {
  }

  class SerialInbound {
    const splitter: LineSplitter
    const deframer: SerialDeframer

    ghost function Value(): L.Inbound
      reads this, splitter, deframer
    {
      L.Inbound(splitter.Value(), deframer.Value())
    }

    constructor (maxPacket: nat)
      ensures Value() == L.FRESH && splitter.maxLine == F.MAX_FRAME && deframer.maxPacket == maxPacket
      ensures fresh(splitter) && fresh(deframer)
    {
      splitter := new LineSplitter(F.MAX_FRAME);
      deframer := new SerialDeframer(maxPacket);
    }

    /** Consumes a chunk; the packets it completes, in order. */
    method Feed(chunk: seq<byte>) returns (packets: seq<seq<byte>>)
      requires splitter.maxLine == F.MAX_FRAME
      modifies splitter, deframer
      ensures (Value(), packets) == L.Receive(old(Value()), deframer.maxPacket, chunk)
    {
      hide L.Receive, UpToLine, F.FeedLine;
      packets := [];
      var rest := chunk;
      ghost var begun := Value();
      assert packets + L.Receive(begun, deframer.maxPacket, chunk).1 == L.Receive(begun, deframer.maxPacket, chunk).1;
      while true
        invariant var r := L.Receive(Value(), deframer.maxPacket, rest);
                  L.Receive(begun, deframer.maxPacket, chunk) == (r.0, packets + r.1)
        decreases |rest|
      {
        ghost var before, todo := Value(), rest;
        ReceiveToLine(before, deframer.maxPacket, todo);
        var line;
        line, rest := splitter.NextLine(rest);
        if line.None? {
          assert packets + [] == packets;
          return;
        }
        var outcome := deframer.FeedLine(line.value);
        ghost var sofar := packets;
        if outcome.Packet? && deframer.ready <= |deframer.buffer| {
          packets := packets + [deframer.buffer[..deframer.ready]];
        }
        ghost var fed := L.LineStep(before.deframer, deframer.maxPacket, line.value);
        ghost var after := L.Receive(Value(), deframer.maxPacket, rest);
        assert packets == sofar + fed.1;
        assert sofar + (fed.1 + after.1) == (sofar + fed.1) + after.1;
      }
    }
  }

  /** Receiving a chunk goes line by line. */
  lemma {:induction false} ReceiveToLine(s: L.Inbound, maxPacket: nat, chunk: seq<byte>)
    ensures var up := UpToLine(s.splitter, F.MAX_FRAME, chunk);
            L.Receive(s, maxPacket, chunk) ==
            match up.1
            case None => (L.Inbound(up.0, s.deframer), [])
            case Some(line) =>
              var fed := L.LineStep(s.deframer, maxPacket, line);
              var after := L.Receive(L.Inbound(up.0, fed.0), maxPacket, up.2);
              (after.0, fed.1 + after.1)
    decreases |chunk|
  {
    hide L.LineStep, F.TakeOctet;
    if chunk == [] {
    } else {
      var taken := F.TakeOctet(s.splitter, F.MAX_FRAME, chunk[0]);
      if taken.1.None? {
        ReceiveToLine(L.Inbound(taken.0, s.deframer), maxPacket, chunk[1..]);
        var rest := L.Receive(L.Inbound(taken.0, s.deframer), maxPacket, chunk[1..]);
        assert [] + rest.1 == rest.1;
      }
    }
  }
}
