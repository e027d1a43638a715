/**
  What the deframer hands out, whatever lines it is fed: only packets that arrived whole, with the length and
  the checksum that were sent with them.
 */
module SerialSound {
  import opened Common
  import opened Base64
  import opened Crc16
  import opened SerialFraming

  /** The deframer after these lines. */
  function Fed(maxPacket: nat, lines: seq<seq<byte>>): Deframer {
    if lines == [] then IDLE_DEFRAMER
    else FeedLine(Fed(maxPacket, lines[..|lines| - 1]), maxPacket, lines[|lines| - 1]).0
  }

  /** What the last of these lines led to. */
  function LastOutcome(maxPacket: nat, lines: seq<seq<byte>>): Outcome
    requires lines != []
  {
    FeedLine(Fed(maxPacket, lines[..|lines| - 1]), maxPacket, lines[|lines| - 1]).1
  }

  /** The octets a frame carries behind its marker. */
  function Carried(line: seq<byte>): seq<byte> {
    if |line| < 2 || Decode(line[2..]).None? then [] else Decode(line[2..]).value
  }

  /** The octets carried by the last line that opens a packet and by all the lines since that continue one. */
  function Gathered(lines: seq<seq<byte>>): seq<byte> {
    if lines == [] then []
    else
      var last := lines[|lines| - 1];
      if StartsPacket(last) then Carried(last)
      else if ContinuesPacket(last) then Gathered(lines[..|lines| - 1]) + Carried(last)
      else Gathered(lines[..|lines| - 1])
  }

  /** A packet in the making is the start of what was gathered, behind a length that will do. */
  predicate InTheMaking(maxPacket: nat, d: Deframer, raw: seq<byte>) {
    d.ready == 0 && d.buffer != [] ==>
      2 < d.declared <= maxPacket && d.declared < 0x1_0000 && raw == Octets16(d.declared) + d.buffer
  }

  /** What `Judge` makes of a buffer under a length that will do. */
  lemma Judged(maxPacket: nat, d: Deframer, raw: seq<byte>)
    requires 2 < d.declared <= maxPacket && d.declared < 0x1_0000 && raw == Octets16(d.declared) + d.buffer
    requires d.ready == 0
    ensures var (after, outcome) := Judge(d);
            && InTheMaking(maxPacket, after, raw)
            && (outcome.Packet? ==>
                  && after.ready <= |after.buffer| && Framable(PacketOf(after)) && |PacketOf(after)| + 2 <= maxPacket
                  && raw == Body(PacketOf(after)))
  {
    hide Crc, Octets16;
    if Judge(d).1.Packet? {
      var n := |d.buffer| - 2;
      ResidueZero(d.buffer[..n], d.buffer[n..]);
      assert d.buffer == d.buffer[..n] + d.buffer[n..];
    }
  }

  lemma LineGathered(maxPacket: nat, d: Deframer, raw: seq<byte>, line: seq<byte>, after: seq<byte>)
    requires InTheMaking(maxPacket, d, raw)
    requires after == if StartsPacket(line) then Carried(line)
                      else if ContinuesPacket(line) then raw + Carried(line) else raw
    ensures var (e, outcome) := FeedLine(d, maxPacket, line);
            && InTheMaking(maxPacket, e, after)
            && (outcome.Packet? ==>
                  && e.ready <= |e.buffer| && Framable(PacketOf(e)) && |PacketOf(e)| + 2 <= maxPacket
                  && after == Body(PacketOf(e)))
  {
    hide Judge, Decode, Octets16, CrcOctets, Crc;
    var e, starts := Settled(d), StartsPacket(line);
    if starts || ContinuesPacket(line) {
      var f := if starts then e.(buffer := [], declared := 0) else e;
      if starts || f.buffer != [] {
        var g := Appended(f, line[MARKER_SIZE..]);
        var h := if g.None? then None else if starts then Declared(g.value, maxPacket) else g;
        if h.Some? {
          if starts {
            var raw0 := g.value.buffer;
            Back16(raw0[0], raw0[1]);
            assert raw0 == [raw0[0], raw0[1]] + raw0[2..];
          }
          Judged(maxPacket, h.value, after);
        }
      }
    }
  }

  /**
    Whatever was fed before, a packet is handed out only if the frames since the last opening one carried exactly
    its length, its octets and its checksum, and it is no longer than allowed.
   */
  lemma {:induction false} PacketsAreWhole(maxPacket: nat, lines: seq<seq<byte>>)
    ensures InTheMaking(maxPacket, Fed(maxPacket, lines), Gathered(lines))
    ensures lines != [] && LastOutcome(maxPacket, lines).Packet? ==>
              var d := Fed(maxPacket, lines);
              && d.ready <= |d.buffer| && Framable(PacketOf(d)) && |PacketOf(d)| + 2 <= maxPacket
              && Gathered(lines) == Body(PacketOf(d))
    decreases |lines|
  {
    hide FeedLine, InTheMaking, Carried, Body, Framable;
    if lines == [] {
      assert InTheMaking(maxPacket, IDLE_DEFRAMER, []) by { NothingMade(maxPacket); }
    } else {
      var n := |lines| - 1;
      PacketsAreWhole(maxPacket, lines[..n]);
      LineGathered(maxPacket, Fed(maxPacket, lines[..n]), Gathered(lines[..n]), lines[n], Gathered(lines));
    }
  }

  lemma NothingMade(maxPacket: nat)
    ensures InTheMaking(maxPacket, IDLE_DEFRAMER, [])
  {
  }

  // --- Line by line --------------------------------------------------------------------------------

  /** The octets a frame's text carries, if it is short enough and strict base64. */
  function TextOctets(line: seq<byte>): Option<seq<byte>>
    requires |line| >= 2
  {
    if |line| - 2 > 124 then None else Decode(line[2..])
  }

  /** A packet in the making with these octets behind what it has: complete, incomplete, or not what was announced. */
  predicate Follows(declared: nat, octets: seq<byte>, d: Deframer, outcome: Outcome)
    requires declared > 2
  {
    if |octets| < declared then outcome == NeedMore && d.buffer == octets && d.declared == declared && d.ready == 0
    else if |octets| == declared && Crc(0, octets) == 0 then outcome == Packet && PacketIs(d, octets[..|octets| - 2])
    else outcome == Broken && d == IDLE_DEFRAMER
  }

  predicate PacketIs(d: Deframer, packet: seq<byte>) {
    d.ready <= |d.buffer| && PacketOf(d) == packet
  }

  /**
    Every line: one without a marker leaves a packet in the making alone; one that opens a packet needs a length above
    two and within the limit, whatever was in the making; one that continues needs a packet to continue.
   */
  lemma LineByCase(maxPacket: nat, d: Deframer, line: seq<byte>)
    requires InTheMaking(maxPacket, d, Octets16(d.declared) + d.buffer) && (d.ready != 0 ==> d.buffer != [])
    ensures var (e, outcome) := FeedLine(d, maxPacket, line);
            if |line| >= 2 && line[..2] == [0x06, 0x09] then
              match TextOctets(line)
              case None => outcome == Broken && e == IDLE_DEFRAMER
              case Some(octets) =>
                if |octets| < 2 then outcome == Broken && e == IDLE_DEFRAMER
                else
                  var declared := Value16(octets[0], octets[1]);
                  if declared <= 2 || declared > maxPacket then outcome == Broken && e == IDLE_DEFRAMER
                  else Follows(declared, octets[2..], e, outcome)
            else if |line| >= 2 && line[..2] == [0x04, 0x14] then
              if d.ready != 0 || d.buffer == [] || TextOctets(line).None? then outcome == Broken && e == IDLE_DEFRAMER
              else Follows(d.declared, d.buffer + TextOctets(line).value, e, outcome)
            else outcome == Ignored && (d.ready == 0 ==> e == d)
  {
    hide Crc, Decode, Octets16, Value16, Judge, Follows;
    var e, starts := Settled(d), StartsPacket(line);
    if starts || ContinuesPacket(line) {
      var f := if starts then e.(buffer := [], declared := 0) else e;
      if starts || f.buffer != [] {
        var g := Appended(f, line[MARKER_SIZE..]);
        var h := if g.None? then None else if starts then Declared(g.value, maxPacket) else g;
        if TextOctets(line).Some? {
          var octets := TextOctets(line).value;
          assert [] + octets == octets;
          if h.Some? {
            JudgeFollows(h.value);
          } else if !starts {
            TooMuchFollows(f.declared, f.buffer + octets);
          } else if |octets| >= 2 && 2 < Value16(octets[0], octets[1]) <= maxPacket {
            TooMuchFollows(Value16(octets[0], octets[1]), octets[2..]);
          }
        }
      }
    }
  }

  lemma JudgeFollows(d: Deframer)
    requires d.declared > 2 && d.ready == 0
    ensures Follows(d.declared, d.buffer, Judge(d).0, Judge(d).1)
  {
    hide Crc;
  }

  lemma TooMuchFollows(declared: nat, octets: seq<byte>)
    requires 2 < declared < |octets|
    ensures Follows(declared, octets, IDLE_DEFRAMER, Broken)
  {
    hide Crc;
  }
}
