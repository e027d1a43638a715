/**
  SMP messages on a byte stream: the 8-octet header, and the reassembler that cuts a stream back into
  messages however it was fragmented.
 */
module Assembler {
  import opened Common

  const HEADER_SIZE := 8

  datatype Operation = ReadRequest | ReadResponse | WriteRequest | WriteResponse

  datatype SmpVersion = V1 | V2

  datatype Header = Header(op: Operation, version: SmpVersion, flags: byte, length: nat, group: nat, number: byte,
                           command: byte)

  datatype ErrorCode = MalformedMessage | UnsupportedSmpVersion | MessageTooLarge | InvalidState

  predicate Encodable(h: Header) {
    h.length < 0x1_0000 && h.group < 0x1_0000
  }

  function OpBits(op: Operation): byte {
    match op
    case ReadRequest => 0
    case ReadResponse => 1
    case WriteRequest => 2
    case WriteResponse => 3
  }

  function OpOf(bits: byte): Operation {
    if bits == 0 then ReadRequest else if bits == 1 then ReadResponse
        else if bits == 2 then WriteRequest else WriteResponse
  }

  function VersionBits(v: SmpVersion): byte {
    if v.V1? then 0 else 1
  }

  /** The first octet: version in bits 4..3, operation in bits 2..0, the rest clear. */
  function FirstOctet(op: Operation, v: SmpVersion): byte {
    (VersionBits(v) << 3) | OpBits(op)
  }

  function Encode(h: Header): (r: seq<byte>)
    requires Encodable(h)
    ensures |r| == HEADER_SIZE
  {
    [FirstOctet(h.op, h.version), h.flags] + Octets16(h.length) + Octets16(h.group) + [h.number, h.command]
  }

  function DecodeFirst(octet: byte): Result<(Operation, SmpVersion), ErrorCode> {
    if octet & 0xE0 != 0 then Err(MalformedMessage)
    else if (octet >> 3) & 0x03 > 1 then Err(UnsupportedSmpVersion)
    else if octet & 0x07 > 3 then Err(MalformedMessage)
    else Ok((OpOf(octet & 0x07), if (octet >> 3) & 0x03 == 0 then V1 else V2))
  }

  function DecodeHeader(s: seq<byte>): (r: Result<Header, ErrorCode>)
    ensures r.Ok? ==> |s| >= HEADER_SIZE && Encodable(r.value)
  {
    if |s| < HEADER_SIZE then Err(MalformedMessage) else
    match DecodeFirst(s[0])
    case Err(e) => Err(e)
    case Ok(first) => Ok(Header(first.0, first.1, s[1], Value16(s[2], s[3]), Value16(s[4], s[5]), s[6], s[7]))
  }

  lemma FirstReadsBack(op: Operation, v: SmpVersion)
    ensures DecodeFirst(FirstOctet(op, v)) == Ok((op, v))
  {
  }

  /** Every header that fits its fields comes back exactly, and nothing behind it matters. */
  lemma HeaderRoundTrip(h: Header, rest: seq<byte>)
    requires Encodable(h)
    ensures DecodeHeader(Encode(h) + rest) == Ok(h)
  {
    hide FirstOctet, DecodeFirst, Octets16, Value16;
    FirstReadsBack(h.op, h.version);
    ReadsBack16(h.length);
    ReadsBack16(h.group);
    var s := Encode(h) + rest;
    assert s[0] == FirstOctet(h.op, h.version) && s[1] == h.flags && s[6] == h.number && s[7] == h.command;
    assert s[2] == Octets16(h.length)[0] && s[3] == Octets16(h.length)[1];
    assert s[4] == Octets16(h.group)[0] && s[5] == Octets16(h.group)[1];
  }

  /** The first octet of each kind of message. */
  lemma FirstByNumber(op: Operation, v: SmpVersion)
    ensures FirstOctet(op, v) == (match op
                                  case ReadRequest => 0
                                  case ReadResponse => 1
                                  case WriteRequest => 2
                                  case WriteResponse => 3) + (if v == V2 then 8 else 0)
  {
  }

  /**
    The header by octets: version and operation in the first, then the flags, the length and the group with the
    high octet first, the sequence number and the command.
   */
  lemma HeaderByOctets(h: Header)
    requires Encodable(h)
    ensures var s := Encode(h);
            && s[0] == (match h.op
                        case ReadRequest => 0
                        case ReadResponse => 1
                        case WriteRequest => 2
                        case WriteResponse => 3) + (if h.version == V2 then 8 else 0)
            && s[1] == h.flags && s[6] == h.number && s[7] == h.command
            && s[2] as int == h.length / 256 && s[3] as int == h.length % 256
            && s[4] as int == h.group / 256 && s[5] as int == h.group % 256
  {
    hide FirstOctet, Octets16;
    FirstByNumber(h.op, h.version);
    HighLow(h.length);
    HighLow(h.group);
    ByteOfInt(h.length / 256);
    ByteOfInt(h.length % 256);
    ByteOfInt(h.group / 256);
    ByteOfInt(h.group % 256);
  }

  /**
    What is refused: too little, the three reserved bits, a version above the second, an operation above the
    fourth, in this order; anything else is the header whose octets these are.
   */
  lemma HeaderExactly(s: seq<byte>)
    ensures |s| < 8 ==> DecodeHeader(s) == Err(MalformedMessage)
    ensures |s| >= 8 && s[0] >= 32 ==> DecodeHeader(s) == Err(MalformedMessage)
    ensures |s| >= 8 && s[0] < 32 && s[0] / 8 > 1 ==> DecodeHeader(s) == Err(UnsupportedSmpVersion)
    ensures |s| >= 8 && s[0] / 8 <= 1 && s[0] % 8 > 3 ==> DecodeHeader(s) == Err(MalformedMessage)
    ensures |s| >= 8 && s[0] / 8 <= 1 && s[0] % 8 <= 3 ==>
              DecodeHeader(s).Ok? && Encode(DecodeHeader(s).value) == s[..8]
  {
    if |s| >= 8 {
      FirstByCase(s[0]);
      hide DecodeFirst, FirstOctet;
      Back16(s[2], s[3]);
      Back16(s[4], s[5]);
    }
  }

  lemma FirstByCase(octet: byte)
    ensures octet >= 32 ==> DecodeFirst(octet) == Err(MalformedMessage)
    ensures octet < 32 && octet / 8 > 1 ==> DecodeFirst(octet) == Err(UnsupportedSmpVersion)
    ensures octet / 8 <= 1 && octet % 8 > 3 ==> DecodeFirst(octet) == Err(MalformedMessage)
    ensures octet / 8 <= 1 && octet % 8 <= 3 ==>
              DecodeFirst(octet).Ok? && FirstOctet(DecodeFirst(octet).value.0, DecodeFirst(octet).value.1) == octet
  {
  }

  // --- The stream at once -------------------------------------------------------------------------

  datatype Limits = Limits(maxPayload: nat, maxBuffer: nat)

  datatype Message = Message(header: Header, payload: seq<byte>)

  /** How large the message is, unless it is larger than anything that will be held. */
  function MessageSize(limits: Limits, h: Header): Result<nat, ErrorCode> {
    if h.length > limits.maxPayload || HEADER_SIZE + h.length > limits.maxBuffer then Err(MessageTooLarge)
        else Ok(HEADER_SIZE + h.length)
  }

  /** What the front of a stream is. */
  datatype Front = Incomplete | Bad(error: ErrorCode) | Whole(message: Message, size: nat)

  function FrontOf(limits: Limits, s: seq<byte>): (f: Front)
    ensures f.Whole? ==> HEADER_SIZE <= f.size <= |s| && f.message.payload == s[HEADER_SIZE..f.size]
  {
    if |s| < HEADER_SIZE then Incomplete else
    var h := DecodeHeader(s);
    if h.Err? then Bad(h.error) else
    var size := MessageSize(limits, h.value);
    if size.Err? then Bad(size.error)
    else if |s| < size.value then Incomplete
    else Whole(Message(h.value, s[HEADER_SIZE..size.value]), size.value)
  }

  /** How a stream ends: with part of a message, or with the first framing error. */
  datatype Ending = Partial(held: seq<byte>) | Broken(error: ErrorCode)

  datatype Parsed = Parsed(messages: seq<Message>, ending: Ending)

  function Parse(limits: Limits, s: seq<byte>): Parsed
    decreases |s|
  {
    match FrontOf(limits, s)
    case Incomplete => Parsed([], Partial(s))
    case Bad(e) => Parsed([], Broken(e))
    case Whole(message, size) =>
      var rest := Parse(limits, s[size..]);
      Parsed([message] + rest.messages, rest.ending)
  }

  /** More octets behind change nothing about a front that is already decided. */
  lemma FrontStays(limits: Limits, a: seq<byte>, b: seq<byte>)
    requires !FrontOf(limits, a).Incomplete?
    ensures FrontOf(limits, a + b) == FrontOf(limits, a)
  {
    hide DecodeFirst, Value16;
    var s := a + b;
    assert s[0] == a[0] && s[1] == a[1] && s[2] == a[2] && s[3] == a[3];
    assert s[4] == a[4] && s[5] == a[5] && s[6] == a[6] && s[7] == a[7];
    assert DecodeHeader(s) == DecodeHeader(a);
    hide DecodeHeader;
    var f := FrontOf(limits, a);
    if f.Whole? {
      assert s[HEADER_SIZE..f.size] == a[HEADER_SIZE..f.size];
    }
  }

  /** A stream parsed in two parts, the second together with what the first left over. */
  function ParseOn(limits: Limits, first: Parsed, more: seq<byte>): Parsed {
    match first.ending
    case Broken(_) => first
    case Partial(held) =>
      var rest := Parse(limits, held + more);
      Parsed(first.messages + rest.messages, rest.ending)
  }

  lemma {:induction false} ParseInParts(limits: Limits, a: seq<byte>, b: seq<byte>)
    ensures Parse(limits, a + b) == ParseOn(limits, Parse(limits, a), b)
    decreases |a|
  {
    hide FrontOf;
    var f := FrontOf(limits, a);
    if f.Incomplete? {
      var rest := Parse(limits, a + b);
      assert [] + rest.messages == rest.messages;
    } else {
      FrontStays(limits, a, b);
      if f.Whole? {
        ParseInParts(limits, a[f.size..], b);
        assert (a + b)[f.size..] == a[f.size..] + b;
        var first := Parse(limits, a[f.size..]);
        if first.ending.Partial? {
          var rest := Parse(limits, first.ending.held + b);
          assert [f.message] + (first.messages + rest.messages) == ([f.message] + first.messages) + rest.messages;
        }
      }
    }
  }

  /** Chunk after chunk, each together with what is held, up to the first framing error. */
  function FeedAll(limits: Limits, held: seq<byte>, chunks: seq<seq<byte>>): Parsed
    decreases |chunks|
  {
    if chunks == [] then Parsed([], Partial(held)) else
    var first := Parse(limits, held + chunks[0]);
    match first.ending
    case Broken(_) => first
    case Partial(left) =>
      var rest := FeedAll(limits, left, chunks[1..]);
      Parsed(first.messages + rest.messages, rest.ending)
  }

  /** What is held is always part of one message: parsing it again yields nothing. */
  lemma {:induction false} HeldIsPartial(limits: Limits, s: seq<byte>)
    requires Parse(limits, s).ending.Partial?
    ensures FrontOf(limits, Parse(limits, s).ending.held).Incomplete?
    decreases |s|
  {
    hide FrontOf;
    var f := FrontOf(limits, s);
    if f.Whole? {
      HeldIsPartial(limits, s[f.size..]);
    }
  }

  /** Fragmentation does not matter: any chunking yields the messages, and the ending, of the whole stream. */
  lemma {:induction false} FragmentationIndependent(limits: Limits, held: seq<byte>, chunks: seq<seq<byte>>)
    requires FrontOf(limits, held).Incomplete?
    ensures FeedAll(limits, held, chunks) == Parse(limits, held + Concat(chunks))
    decreases |chunks|
  {
    hide FrontOf, Parse;
    if chunks == [] {
      assert held + Concat(chunks) == held;
      ParseIncomplete(limits, held);
    } else {
      var a := held + chunks[0];
      ParseInParts(limits, a, Concat(chunks[1..]));
      assert held + Concat(chunks) == a + Concat(chunks[1..]);
      var first := Parse(limits, a);
      if first.ending.Partial? {
        HeldIsPartial(limits, a);
        FragmentationIndependent(limits, first.ending.held, chunks[1..]);
      }
    }
  }

  lemma ParseIncomplete(limits: Limits, s: seq<byte>)
    requires FrontOf(limits, s).Incomplete?
    ensures Parse(limits, s) == Parsed([], Partial(s))
  {
  }

  // --- Round trip ---------------------------------------------------------------------------------

  /** A message whose header says how long its payload is, within the limits. */
  predicate Sendable(limits: Limits, m: Message) {
    Encodable(m.header) && m.header.length == |m.payload| && MessageSize(limits, m.header).Ok?
  }

  function Wire(m: Message): seq<byte>
    requires Encodable(m.header)
  {
    Encode(m.header) + m.payload
  }

  function WireAll(limits: Limits, messages: seq<Message>): seq<byte>
    requires forall k :: 0 <= k < |messages| ==> Sendable(limits, messages[k])
  {
    if messages == [] then []
        else assert Sendable(limits, messages[0]); Wire(messages[0]) + WireAll(limits, messages[1..])
  }

  lemma FrontOfWire(limits: Limits, m: Message, rest: seq<byte>)
    requires Sendable(limits, m)
    ensures FrontOf(limits, Wire(m) + rest) == Whole(m, HEADER_SIZE + |m.payload|)
  {
    var s := Wire(m) + rest;
    assert s == Encode(m.header) + (m.payload + rest);
    HeaderRoundTrip(m.header, m.payload + rest);
    hide DecodeHeader, Encode;
    assert s[HEADER_SIZE..HEADER_SIZE + |m.payload|] == m.payload;
  }

  /** Encoded messages come back exactly. */
  lemma {:induction false} MessagesComeBack(limits: Limits, messages: seq<Message>)
    requires forall k :: 0 <= k < |messages| ==> Sendable(limits, messages[k])
    ensures Parse(limits, WireAll(limits, messages)) == Parsed(messages, Partial([]))
    decreases |messages|
  {
    hide FrontOf, Wire, MessageSize;
    if messages == [] {
      ParseIncomplete(limits, []) by { NothingIncomplete(limits); }
    } else {
      var m := messages[0];
      WireSize(limits, m);
      var rest := WireAll(limits, messages[1..]);
      FrontOfWire(limits, m, rest);
      MessagesComeBack(limits, messages[1..]);
      assert (Wire(m) + rest)[HEADER_SIZE + |m.payload|..] == rest;
      assert [m] + messages[1..] == messages;
    }
  }

  /** The length in a header. */
  function LengthIn(s: seq<byte>): nat
    requires |s| >= 8
  {
    256 * (s[2] as int) + s[3] as int
  }

  /** A front that is no message: a header that is none, or a length beyond what will be held. */
  predicate Refused(limits: Limits, s: seq<byte>, e: ErrorCode) {
    && |s| >= 8
    && (if s[0] >= 32 then e == MalformedMessage
        else if s[0] / 8 > 1 then e == UnsupportedSmpVersion
        else if s[0] % 8 > 3 then e == MalformedMessage
        else e == MessageTooLarge && (LengthIn(s) > limits.maxPayload || 8 + LengthIn(s) > limits.maxBuffer))
  }

  /** A front that is not all there: less than a header, or less than a header that will do announces. */
  predicate Unfinished(limits: Limits, s: seq<byte>) {
    |s| >= 8 ==>
      && s[0] / 8 <= 1 && s[0] % 8 <= 3 && |s| < 8 + LengthIn(s)
      && LengthIn(s) <= limits.maxPayload && 8 + LengthIn(s) <= limits.maxBuffer
  }

  lemma FrontByOctets(limits: Limits, s: seq<byte>)
    ensures match FrontOf(limits, s)
            case Incomplete => Unfinished(limits, s)
            case Bad(e) => Refused(limits, s, e)
            case Whole(m, size) => Encodable(m.header) && Sendable(limits, m) && s[..size] == Wire(m)
  {
    HeaderExactly(s);
    if |s| >= 8 && DecodeHeader(s).Ok? {
      LengthRead(s);
      hide DecodeHeader, Encode, Value16;
      var f := FrontOf(limits, s);
      if f.Whole? {
        assert s[..f.size] == s[..8] + s[8..f.size];
      }
    }
  }

  lemma LengthRead(s: seq<byte>)
    requires |s| >= 8 && DecodeHeader(s).Ok?
    ensures DecodeHeader(s).value.length == LengthIn(s)
  {
    hide DecodeFirst;
  }

  /** The messages are the stream up to what is left, which is part of a message, or refused for what it is. */
  predicate Accounted(limits: Limits, s: seq<byte>, p: Parsed) {
    && (forall k :: 0 <= k < |p.messages| ==> Sendable(limits, p.messages[k]))
    && WireAll(limits, p.messages) <= s
    && var left := s[|WireAll(limits, p.messages)|..];
       match p.ending
       case Partial(held) => left == held && Unfinished(limits, held)
       case Broken(e) => Refused(limits, left, e)
  }

  /** Whatever a stream is, every octet of it is accounted for. */
  lemma {:induction false} StreamAccounted(limits: Limits, s: seq<byte>)
    ensures Accounted(limits, s, Parse(limits, s))
    decreases |s|
  {
    hide FrontOf, Sendable, Wire, Unfinished, Refused, Accounted;
    FrontByOctets(limits, s);
    ParseFront(limits, s);
    var f := FrontOf(limits, s);
    if f.Whole? {
      var rest := s[f.size..];
      StreamAccounted(limits, rest);
      OneMoreAccounted(limits, f.message, rest, Parse(limits, rest));
      assert s == Wire(f.message) + rest;
    } else {
      NoneAccounted(limits, s, Parse(limits, s));
    }
  }

  lemma NoneAccounted(limits: Limits, s: seq<byte>, p: Parsed)
    requires p.messages == []
    requires match p.ending
             case Partial(held) => s == held && Unfinished(limits, held)
             case Broken(e) => Refused(limits, s, e)
    ensures Accounted(limits, s, p)
  {
    hide Unfinished, Refused;
    assert s[0..] == s;
  }

  lemma OneMoreAccounted(limits: Limits, m: Message, rest: seq<byte>, p: Parsed)
    requires Encodable(m.header) && Sendable(limits, m) && Accounted(limits, rest, p)
    ensures Accounted(limits, Wire(m) + rest, Parsed([m] + p.messages, p.ending))
  {
    hide Sendable, Wire, Unfinished, Refused;
    SentFirst(limits, m, p.messages);
    hide WireAll;
    var wire, more := Wire(m), WireAll(limits, p.messages);
    assert wire + more <= wire + rest;
    assert (wire + rest)[|wire + more|..] == rest[|more|..];
  }

  lemma SentFirst(limits: Limits, m: Message, messages: seq<Message>)
    requires Sendable(limits, m) && forall k :: 0 <= k < |messages| ==> Sendable(limits, messages[k])
    ensures forall k :: 0 <= k < |[m] + messages| ==> Sendable(limits, ([m] + messages)[k])
    ensures WireAll(limits, [m] + messages) == Wire(m) + WireAll(limits, messages)
  {
    hide Wire, MessageSize;
    assert ([m] + messages)[1..] == messages;
  }

  /** ... and so they do in whatever chunks they arrive. */
  lemma ChunkedMessagesComeBack(limits: Limits, messages: seq<Message>, chunks: seq<seq<byte>>)
    requires forall k :: 0 <= k < |messages| ==> Sendable(limits, messages[k])
    requires Concat(chunks) == WireAll(limits, messages)
    ensures FeedAll(limits, [], chunks) == Parsed(messages, Partial([]))
  {
    hide FrontOf, Parse, FeedAll, Concat, WireAll, Sendable;
    NothingIncomplete(limits);
    FragmentationIndependent(limits, [], chunks);
    assert [] + Concat(chunks) == Concat(chunks);
    MessagesComeBack(limits, messages);
  }

  lemma NothingIncomplete(limits: Limits)
    ensures FrontOf(limits, []).Incomplete?
  {
  }

  lemma WireSize(limits: Limits, m: Message)
    requires Sendable(limits, m)
    ensures Encodable(m.header) && |Wire(m)| == HEADER_SIZE + |m.payload|
  {
  }

  // --- The incremental form -----------------------------------------------------------------------

  /** No more than one message is ever held, and of that no more than the limits allow. */
  function HoldLimit(limits: Limits): nat {
    Max(HEADER_SIZE, Min(limits.maxBuffer, HEADER_SIZE + limits.maxPayload))
  }

  /** An incomplete front is within the limit. */
  lemma IncompleteFits(limits: Limits, s: seq<byte>)
    requires FrontOf(limits, s).Incomplete?
    ensures |s| <= HoldLimit(limits)
  {
    hide DecodeHeader;
  }

  class MessageAssembler {
    const limits: Limits
    var buffer: seq<byte>
    var peak: nat
    var feeding: bool

    ghost predicate Valid()
      reads this
    {
      FrontOf(limits, buffer).Incomplete? && |buffer| <= peak <= HoldLimit(limits)
    }

    constructor (limits: Limits)
      ensures Valid() && buffer == [] && peak == 0 && !feeding && this.limits == limits
    {
      this.limits := limits;
      buffer, peak, feeding := [], 0, false;
    }

    method Stash(octets: seq<byte>)
      modifies this`buffer, this`peak
      ensures buffer == old(buffer) + octets && peak == Max(old(peak), |buffer|)
    {
      buffer := buffer + octets;
      peak := Max(peak, |buffer|);
    }

    /**
      Hands every complete message to the sink, here the returned list, and holds on to what is left.
      A sink that feeds again is refused. After a framing error nothing is held.
     */
    method Feed(input: seq<byte>) returns (messages: seq<Message>, error: Option<ErrorCode>)
      requires Valid()
      modifies this
      ensures Valid() && feeding == old(feeding)
      ensures old(feeding) ==> messages == [] && error == Some(InvalidState) && buffer == old(buffer)
      ensures !old(feeding) ==>
                var parsed := Parse(limits, old(buffer) + input);
                && messages == parsed.messages
                && match parsed.ending
                   case Partial(held) => error == None && buffer == held
                   case Broken(e) => error == Some(e) && buffer == []
    {
      hide FrontOf, Parse;
      messages, error := [], None;
      if feeding {
        return messages, Some(InvalidState);
      }
      feeding := true;
      var rest := input;
      ghost var stream := buffer + input;
      var done := false;
      while !done
        invariant Valid() && feeding
        invariant !done ==> var p := Parse(limits, buffer + rest);
                            Parse(limits, stream) == Parsed(messages + p.messages, p.ending)
        invariant done ==> match Parse(limits, stream).ending
                           case Partial(held) => error == None && buffer == held
                           case Broken(e) => error == Some(e) && buffer == []
        invariant done ==> messages == Parse(limits, stream).messages
        decreases !done, |buffer| + |rest|
      {
        ghost var whole := buffer + rest;
        ParseFront(limits, whole);
        var front, left := Next(rest);
        if front.Whole? {
          messages := messages + [front.message];
          rest := left;
          assert buffer + rest == rest;
        } else {
          assert messages + [] == messages;
          error := if front.Bad? then Some(front.error) else None;
          done := true;
        }
      }
      feeding := false;
    }

    /** One turn: the front of what is held and the input, and the rest of the input. Whatever is incomplete is held. */
    method Next(input: seq<byte>) returns (front: Front, rest: seq<byte>)
      requires Valid()
      modifies this`buffer, this`peak
      ensures Valid() && front == FrontOf(limits, old(buffer) + input)
      ensures front.Incomplete? ==> buffer == old(buffer) + input && rest == []
      ensures front.Bad? ==> buffer == []
      ensures front.Whole? ==> buffer == [] && rest == (old(buffer) + input)[front.size..]
    {
      if buffer == [] {
        front, rest := Direct(input);
      } else {
        front, rest := TopUp(input);
      }
    }

    /** Nothing is held: a whole message is parsed straight out of the input. */
    method Direct(input: seq<byte>) returns (front: Front, rest: seq<byte>)
      requires Valid() && buffer == []
      modifies this`buffer, this`peak
      ensures Valid() && front == FrontOf(limits, input)
      ensures front.Incomplete? ==> buffer == input && rest == []
      ensures front.Bad? ==> buffer == []
      ensures front.Whole? ==> buffer == [] && rest == input[front.size..]
    {
      hide DecodeHeader;
      rest := input;
      if |input| < HEADER_SIZE {
        Hold(input);
        return Incomplete, [];
      }
      var h := DecodeHeader(input);
      if h.Err? {
        return Bad(h.error), rest;
      }
      var size := MessageSize(limits, h.value);
      if size.Err? {
        return Bad(size.error), rest;
      }
      if |input| < size.value {
        Hold(input);
        return Incomplete, [];
      }
      front := Whole(Message(h.value, input[HEADER_SIZE..size.value]), size.value);
      rest := input[size.value..];
    }

    method Hold(input: seq<byte>)
      requires Valid() && buffer == [] && FrontOf(limits, input).Incomplete?
      modifies this`buffer, this`peak
      ensures Valid() && buffer == input
    {
      hide FrontOf;
      IncompleteFits(limits, input);
      Stash(input);
      assert [] + input == input;
    }

    /** With something in the buffer: input is added up to a header's size, then up to the message's, never more. */
    method TopUp(input: seq<byte>) returns (front: Front, rest: seq<byte>)
      requires Valid() && buffer != []
      modifies this`buffer, this`peak
      ensures Valid() && front == FrontOf(limits, old(buffer) + input)
      ensures front.Incomplete? ==> buffer == old(buffer) + input && rest == []
      ensures front.Bad? ==> buffer == []
      ensures front.Whole? ==> buffer == [] && rest == (old(buffer) + input)[front.size..]
    {
      ghost var whole := buffer + input;
      rest := input;
      if |buffer| < HEADER_SIZE {
        rest := TakeUpTo(HEADER_SIZE, rest, whole);
        if |buffer| < HEADER_SIZE {
          return Incomplete, rest;
        }
      }
      HeaderFrom(buffer, whole);
      hide DecodeHeader;
      var h := DecodeHeader(buffer);
      if h.Err? {
        buffer := [];
        return Bad(h.error), rest;
      }
      var size := MessageSize(limits, h.value);
      if size.Err? {
        buffer := [];
        return Bad(size.error), rest;
      }
      if |buffer| < size.value {
        rest := TakeUpTo(size.value, rest, whole);
        if |buffer| < size.value {
          return Incomplete, rest;
        }
      }
      assert buffer == whole[..size.value] && rest == whole[size.value..];
      assert buffer[HEADER_SIZE..size.value] == whole[HEADER_SIZE..size.value];
      front := Whole(Message(h.value, buffer[HEADER_SIZE..size.value]), size.value);
      buffer := [];
    }

    /** Moves input behind what is held until `wanted` octets are there or the input is used up. */
    method TakeUpTo(wanted: nat, input: seq<byte>, ghost whole: seq<byte>) returns (rest: seq<byte>)
      requires |buffer| < wanted <= HoldLimit(limits) && |buffer| <= peak <= HoldLimit(limits)
               && whole == buffer + input
      modifies this`buffer, this`peak
      ensures whole == buffer + rest && |buffer| == Min(wanted, |whole|) && |buffer| <= peak <= HoldLimit(limits)
    {
      var take := Min(wanted - |buffer|, |input|);
      Stash(input[..take]);
      rest := input[take..];
      assert input == input[..take] + input[take..];
    }
  }

  lemma ParseFront(limits: Limits, s: seq<byte>)
    ensures var f := FrontOf(limits, s);
            && (f.Incomplete? ==> Parse(limits, s) == Parsed([], Partial(s)))
            && (f.Bad? ==> Parse(limits, s) == Parsed([], Broken(f.error)))
            && (f.Whole? ==>
                var rest := Parse(limits, s[f.size..]);
                Parse(limits, s) == Parsed([f.message] + rest.messages, rest.ending))
  {
    hide FrontOf;
  }

  /** A header is read from its own octets only. */
  lemma HeaderFrom(a: seq<byte>, whole: seq<byte>)
    requires HEADER_SIZE <= |a| <= |whole| && a == whole[..|a|]
    ensures DecodeHeader(a) == DecodeHeader(whole)
  {
    hide DecodeFirst, Value16;
    assert a[0] == whole[0] && a[1] == whole[1] && a[2] == whole[2] && a[3] == whole[3];
    assert a[4] == whole[4] && a[5] == whole[5] && a[6] == whole[6] && a[7] == whole[7];
  }
}
