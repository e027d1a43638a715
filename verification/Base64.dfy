/** Strict base64 as in section 4 of RFC 4648, encoder and decoder, over caller-owned buffers. */
module Base64 {
  import opened Common

  const PAD: byte := 0x3D

  /** The alphabet: A-Z, a-z, 0-9, plus, slash. */
  function Symbol(v: byte): byte {
    if v < 26 then v + 65 else if v < 52 then v + 71 else if v < 62 then v - 4 else if v == 62 then 43 else 47
  }

  function Value(symbol: byte): Option<byte> {
    if 65 <= symbol <= 90 then Some(symbol - 65)
    else if 97 <= symbol <= 122 then Some(symbol - 71)
    else if 48 <= symbol <= 57 then Some(symbol + 4)
    else if symbol == 43 then Some(62)
    else if symbol == 47 then Some(63)
    else None
  }

  lemma ValueOfSymbol(v: byte)
    requires v < 64
    ensures Value(Symbol(v)) == Some(v) && Symbol(v) != PAD && Symbol(v) != 13 && Symbol(v) != 10
  {
  }

  lemma SymbolOfValue(symbol: byte)
    requires Value(symbol).Some?
    ensures Value(symbol).value < 64 && Symbol(Value(symbol).value) == symbol && symbol != PAD
  {
  }

  // The six-bit pieces of three octets, and back.

  function S0(b0: byte): (v: byte)
    ensures v < 64
  {
    b0 >> 2
  }

  function S1(b0: byte, b1: byte): (v: byte)
    ensures v < 64
  {
    ((b0 & 0x03) << 4) | (b1 >> 4)
  }

  function S2(b1: byte, b2: byte): (v: byte)
    ensures v < 64
  {
    ((b1 & 0x0F) << 2) | (b2 >> 6)
  }

  function S3(b2: byte): (v: byte)
    ensures v < 64
  {
    b2 & 0x3F
  }

  function B0(v0: byte, v1: byte): byte {
    (v0 << 2) | (v1 >> 4)
  }

  function B1(v1: byte, v2: byte): byte {
    (v1 << 4) | (v2 >> 2)
  }

  function B2(v2: byte, v3: byte): byte {
    (v2 << 6) | v3
  }

  lemma PiecesBack(b0: byte, b1: byte, b2: byte)
    ensures B0(S0(b0), S1(b0, b1)) == b0
    ensures B1(S1(b0, b1), S2(b1, b2)) == b1
    ensures B2(S2(b1, b2), S3(b2)) == b2
  {
  }

  lemma OctetsBack(v0: byte, v1: byte, v2: byte, v3: byte)
    requires v0 < 64 && v1 < 64 && v2 < 64 && v3 < 64
    ensures S0(B0(v0, v1)) == v0
    ensures S1(B0(v0, v1), B1(v1, v2)) == v1
    ensures S2(B1(v1, v2), B2(v2, v3)) == v2
    ensures S3(B2(v2, v3)) == v3
  {
  }

  /** With nothing behind, a piece comes back exactly if the bits beyond it were zero. */
  lemma PaddedBack(v0: byte, v1: byte, v2: byte)
    requires v0 < 64 && v1 < 64 && v2 < 64
    ensures S1(B0(v0, v1), 0) == v1 <==> v1 & 0x0F == 0
    ensures S2(B1(v1, v2), 0) == v2 <==> v2 & 0x03 == 0
  {
  }

  // --- One-shot definitions -----------------------------------------------------------------------

  function EncodedSize(raw: nat): nat {
    (raw + 2) / 3 * 4
  }

  function MaxDecodedSize(chars: nat): nat {
    chars / 4 * 3
  }

  /** One to three octets as four characters. */
  function EncodeGroup(s: seq<byte>): (r: seq<byte>)
    requires 1 <= |s| <= 3
    ensures |r| == 4
  {
    if |s| == 1 then [Symbol(S0(s[0])), Symbol(S1(s[0], 0)), PAD, PAD]
    else if |s| == 2 then [Symbol(S0(s[0])), Symbol(S1(s[0], s[1])), Symbol(S2(s[1], 0)), PAD]
    else [Symbol(S0(s[0])), Symbol(S1(s[0], s[1])), Symbol(S2(s[1], s[2])), Symbol(S3(s[2]))]
  }

  function Encode(s: seq<byte>): (r: seq<byte>)
    ensures |r| == EncodedSize(|s|)
  {
    if s == [] then [] else if |s| <= 3 then EncodeGroup(s) else EncodeGroup(s[..3]) + Encode(s[3..])
  }

  /** Three octets, or one or two if a final quartet ends in padding; none if any character is out of place. */
  function DecodeQuartet(q: seq<byte>, final: bool): (r: Option<seq<byte>>)
    requires |q| == 4
    ensures r.Some? ==> |r.value| <= 3 && (!final ==> |r.value| == 3)
  {
    var v0, v1, v2, v3 := Value(q[0]), Value(q[1]), Value(q[2]), Value(q[3]);
    if v0.None? || v1.None? then None
    else if q[2] == PAD then
      if final && q[3] == PAD then Some([B0(v0.value, v1.value)]) else None
    else if v2.None? then None
    else if q[3] == PAD then
      if final then Some([B0(v0.value, v1.value), B1(v1.value, v2.value)]) else None
    else if v3.None? then None
    else Some([B0(v0.value, v1.value), B1(v1.value, v2.value), B2(v2.value, v3.value)])
  }

  function Decode(s: seq<byte>): (r: Option<seq<byte>>)
    ensures r.Some? ==> |r.value| <= MaxDecodedSize(|s|) && |s| % 4 == 0
  {
    if s == [] then Some([])
    else if |s| < 4 then None
    else
      var first := DecodeQuartet(s[..4], |s| == 4);
      var rest := Decode(s[4..]);
      if first.None? || rest.None? then None else Some(first.value + rest.value)
  }

  /** The bits behind the last octet are zero, as an encoder leaves them. */
  predicate PadBitsZero(s: seq<byte>) {
    if |s| < 4 then true
    else if |s| > 4 then PadBitsZero(s[4..])
    else if s[3] != PAD then true
    else if s[2] == PAD then Value(s[1]).Some? ==> Value(s[1]).value & 0x0F == 0
    else Value(s[2]).Some? ==> Value(s[2]).value & 0x03 == 0
  }

  // --- Round trips --------------------------------------------------------------------------------

  lemma GroupRoundTrip(s: seq<byte>, final: bool)
    requires 1 <= |s| <= 3 && (|s| == 3 || final)
    ensures DecodeQuartet(EncodeGroup(s), final) == Some(s)
  {
    hide Symbol, Value, S0, S1, S2, S3, B0, B1, B2;
    var b1, b2 := if |s| > 1 then s[1] else 0, if |s| > 2 then s[2] else 0;
    ValueOfSymbol(S0(s[0]));
    ValueOfSymbol(S1(s[0], b1));
    ValueOfSymbol(S2(b1, b2));
    ValueOfSymbol(S3(b2));
    PiecesBack(s[0], b1, b2);
    if |s| == 1 {
      assert s == [s[0]];
    } else if |s| == 2 {
      assert s == [s[0], s[1]];
    } else {
      assert s == [s[0], s[1], s[2]];
    }
  }

  /** What was encoded is decoded. */
  lemma {:induction false} DecodeEncode(s: seq<byte>)
    ensures Decode(Encode(s)) == Some(s)
  {
    hide EncodeGroup, DecodeQuartet;
    if s == [] {
    } else {
      if |s| <= 3 {
        GroupRoundTrip(s, true);
        assert Encode(s)[..4] == EncodeGroup(s) && Encode(s)[4..] == [];
        assert Decode(Encode(s)[4..]) == Some([]) && s + [] == s;
      } else {
        GroupRoundTrip(s[..3], false);
        DecodeEncode(s[3..]);
        assert Encode(s)[..4] == EncodeGroup(s[..3]) && Encode(s)[4..] == Encode(s[3..]);
        assert |Encode(s)| > 4 && s == s[..3] + s[3..];
      }
    }
  }

  lemma QuartetRoundTrip(q: seq<byte>, final: bool)
    requires |q| == 4 && DecodeQuartet(q, final).Some?
    ensures var x := DecodeQuartet(q, final).value;
            1 <= |x| <= 3 && (EncodeGroup(x) == q <==> (final ==> PadBitsZero(q)))
  {
    hide Symbol, Value, S0, S1, S2, S3, B0, B1, B2;
    var x := DecodeQuartet(q, final).value;
    var v0, v1 := Value(q[0]).value, Value(q[1]).value;
    SymbolOfValue(q[0]);
    SymbolOfValue(q[1]);
    if |x| == 1 {
      OctetsBack(v0, v1, 0, 0);
      PaddedBack(v0, v1, 0);
      FirstBack(v0, v1);
      SymbolsApart(S1(x[0], 0), v1);
      assert EncodeGroup(x)[0] == q[0] && EncodeGroup(x)[2] == q[2] && EncodeGroup(x)[3] == q[3];
    } else {
      var v2 := Value(q[2]).value;
      SymbolOfValue(q[2]);
      PaddedBack(v0, v1, v2);
      if |x| == 2 {
        OctetsBack(v0, v1, v2, 0);
        SymbolsApart(S2(x[1], 0), v2);
        assert EncodeGroup(x)[0] == q[0] && EncodeGroup(x)[1] == q[1] && EncodeGroup(x)[3] == q[3];
      } else {
        SymbolOfValue(q[3]);
        OctetsBack(v0, v1, v2, Value(q[3]).value);
        assert EncodeGroup(x) == q;
      }
    }
  }

  lemma FirstBack(v0: byte, v1: byte)
    requires v0 < 64 && v1 < 64
    ensures S0(B0(v0, v1)) == v0
  {
  }

  lemma SymbolsApart(a: byte, b: byte)
    requires a < 64 && b < 64
    ensures Symbol(a) == Symbol(b) <==> a == b
  {
    hide Symbol, Value;
    ValueOfSymbol(a);
    ValueOfSymbol(b);
  }

  /** What was decoded encodes back to the same text exactly if its pad bits were zero. */
  lemma {:induction false} EncodeDecode(s: seq<byte>)
    requires Decode(s).Some?
    ensures Encode(Decode(s).value) == s <==> PadBitsZero(s)
  {
    hide EncodeGroup, DecodeQuartet;
    if s == [] {
    } else {
      QuartetRoundTrip(s[..4], |s| == 4);
      var first, rest := DecodeQuartet(s[..4], |s| == 4).value, Decode(s[4..]).value;
      if |s| == 4 {
        assert s[4..] == [] && rest == [] && s[..4] == s && first + rest == first;
      } else {
        EncodeDecode(s[4..]);
        var x := Decode(s).value;
        assert x[..3] == first && x[3..] == rest;
        NonEmptyRest(s[4..]);
        assert s == s[..4] + s[4..];
      }
    }
  }

  lemma NonEmptyRest(s: seq<byte>)
    requires s != [] && Decode(s).Some?
    ensures Decode(s).value != []
  {
    hide EncodeGroup;
  }

  /** The decoder accepts text an encoder would not write: `QR==` decodes to the octet whose text is `QQ==`. */
  lemma PadBitsIgnored()
    ensures Decode([0x51, 0x52, 0x3D, 0x3D]) == Some([0x41]) && Encode([0x41]) == [0x51, 0x51, 0x3D, 0x3D]
  {
    var text: seq<byte> := [0x51, 0x52, 0x3D, 0x3D];
    assert text[..4] == text && text[4..] == [];
    var x: seq<byte> := [0x41];
    assert DecodeQuartet(text, true) == Some(x);
    assert Decode(text[4..]) == Some([]) && x + [] == x;
  }

  // --- The loops over caller-owned buffers --------------------------------------------------------

  /** Three octets in one 24-bit number. */
  function Triple(b0: byte, b1: byte, b2: byte): bv32 {
    ((b0 as bv32) << 16) | ((b1 as bv32) << 8) | (b2 as bv32)
  }

  lemma TriplePieces(b0: byte, b1: byte, b2: byte)
    ensures ((Triple(b0, b1, b2) >> 18) & 0x3F) as byte == S0(b0)
    ensures ((Triple(b0, b1, b2) >> 12) & 0x3F) as byte == S1(b0, b1)
    ensures ((Triple(b0, b1, b2) >> 6) & 0x3F) as byte == S2(b1, b2)
    ensures (Triple(b0, b1, b2) & 0x3F) as byte == S3(b2)
  {
  }

  /** One group's four characters, shifted out of the 24-bit number. */
  method ShiftOut(group: seq<byte>) returns (q: seq<byte>)
    requires 1 <= |group| <= 3
    ensures q == EncodeGroup(group)
  {
    hide Symbol, S0, S1, S2, S3, Triple;
    var b1, b2 := if |group| > 1 then group[1] else 0, if |group| > 2 then group[2] else 0;
    var triple := Triple(group[0], b1, b2);
    TriplePieces(group[0], b1, b2);
    q := [Symbol(((triple >> 18) & 0x3F) as byte), Symbol(((triple >> 12) & 0x3F) as byte),
          if |group| > 1 then Symbol(((triple >> 6) & 0x3F) as byte) else PAD,
          if |group| > 2 then Symbol((triple & 0x3F) as byte) else PAD];
  }

  /** A buffer with `q` written over it from `at` on. */
  function Overlaid(was: seq<byte>, at: nat, q: seq<byte>): (r: seq<byte>)
    requires at + |q| <= |was|
    ensures |r| == |was|
  {
    was[..at] + q + was[at + |q|..]
  }

  /** Writing on where one has stopped. */
  lemma OverlaidOn(was: seq<byte>, at: nat, done: seq<byte>, q: seq<byte>)
    requires at + |done| + |q| <= |was|
    ensures Overlaid(Overlaid(was, at, done), at + |done|, q) == Overlaid(was, at, done + q)
  {
  }

  method Store(out: array<byte>, at: nat, q: seq<byte>)
    requires at + |q| <= out.Length
    modifies out
    ensures out[..] == Overlaid(old(out[..]), at, q)
  {
    var k := 0;
    while k < |q|
      invariant 0 <= k <= |q|
      invariant out[..] == old(out[..at]) + q[..k] + old(out[at + k..])
    {
      out[at + k] := q[k];
      k := k + 1;
    }
    assert q[..|q|] == q;
  }

  /** The octets from `i` on. */
  function From(input: seq<byte>, i: nat): seq<byte> {
    if i < |input| then input[i..] else []
  }

  function GroupAt(input: seq<byte>, i: nat): (g: seq<byte>)
    requires i < |input|
    ensures 1 <= |g| <= 3
  {
    input[i..Min(i + 3, |input|)]
  }

  lemma FromStart(input: seq<byte>)
    ensures From(input, 0) == input && forall i :: |input| <= i ==> From(input, i) == []
  {
  }

  lemma EncodeFrom(input: seq<byte>, i: nat)
    requires i < |input|
    ensures Encode(From(input, i)) == EncodeGroup(GroupAt(input, i)) + Encode(From(input, i + 3))
  {
    hide EncodeGroup;
    var s := From(input, i);
    assert s[..Min(|s|, 3)] == GroupAt(input, i);
    assert (if |s| > 3 then s[3..] else []) == From(input, i + 3);
    EncodeStep(s);
  }

  /** Writes one group's characters at `pos`. */
  method EncodeNext(input: seq<byte>, i: nat, out: array<byte>, pos: nat)
    requires i < |input| && pos + 4 <= out.Length
    modifies out
    ensures out[..] == Overlaid(old(out[..]), pos, EncodeGroup(GroupAt(input, i)))
  {
    hide EncodeGroup;
    var q := ShiftOut(GroupAt(input, i));
    Store(out, pos, q);
  }

  /** Encodes into `out` from `at` on, if it fits. */
  method EncodeInto(input: seq<byte>, out: array<byte>, at: nat) returns (written: nat)
    requires at <= out.Length
    modifies out
    ensures input == [] || out.Length - at < EncodedSize(|input|) ==> written == 0 && out[..] == old(out[..])
    ensures input != [] && out.Length - at >= EncodedSize(|input|) ==>
              written == EncodedSize(|input|) && out[..] == Overlaid(old(out[..]), at, Encode(input))
  {
    hide EncodeGroup, Encode, GroupAt, EncodedSize, Overlaid, From;
    FromStart(input);
    SizeZero(|input|);
    var needed := EncodedSize(|input|);
    if needed == 0 || out.Length - at < needed {
      return 0;
    }
    written := 0;
    var i := 0;
    ghost var was, done := out[..], [];
    OverlaidNothing(was, at);
    while i < |input|
      invariant 0 <= i && |done| == written && written + |Encode(From(input, i))| == needed
      invariant out[..] == Overlaid(was, at, done)
      invariant done + Encode(From(input, i)) == Encode(input)
    {
      EncodeFrom(input, i);
      ghost var q := EncodeGroup(GroupAt(input, i));
      EncodeNext(input, i, out, at + written);
      OverlaidOn(was, at, done, q);
      assert done + q + Encode(From(input, i + 3)) == done + (q + Encode(From(input, i + 3)));
      done := done + q;
      written := written + 4;
      i := i + 3;
    }
    EncodeNothing();
    assert done + [] == done;
  }

  lemma OverlaidNothing(was: seq<byte>, at: nat)
    requires at <= |was|
    ensures Overlaid(was, at, []) == was
  {
  }

  lemma SizeZero(raw: nat)
    ensures EncodedSize(raw) == 0 <==> raw == 0
  {
  }

  lemma EncodeNothing()
    ensures Encode([]) == []
  {
  }

  lemma EncodeStep(s: seq<byte>)
    requires s != []
    ensures Encode(s) == EncodeGroup(s[..Min(|s|, 3)]) + Encode(if |s| > 3 then s[3..] else [])
  {
    hide EncodeGroup;
    if |s| <= 3 {
      assert s[..|s|] == s;
    }
  }

  /** Four six-bit values in one 24-bit number. */
  function Quad(v0: byte, v1: byte, v2: byte, v3: byte): bv32 {
    ((v0 as bv32) << 18) | ((v1 as bv32) << 12) | ((v2 as bv32) << 6) | (v3 as bv32)
  }

  /** Its three octets, shifted out from the top. */
  function QuadBytes(quad: bv32): seq<byte> {
    [((quad >> 16) & 0xFF) as byte, ((quad >> 8) & 0xFF) as byte, (quad & 0xFF) as byte]
  }

  lemma QuadOctets(v0: byte, v1: byte, v2: byte, v3: byte)
    requires v0 < 64 && v1 < 64 && v2 < 64 && v3 < 64
    ensures QuadBytes(Quad(v0, v1, v2, v3)) == [B0(v0, v1), B1(v1, v2), B2(v2, v3)]
  {
  }

  /** The search through the alphabet. */
  method FindValue(symbol: byte) returns (r: Option<byte>)
    ensures r == Value(symbol)
  {
    var i: byte := 0;
    while i < 64
      invariant i <= 64
      invariant forall k: byte :: k < i ==> Symbol(k) != symbol
      decreases 64 - i
    {
      if Symbol(i) == symbol {
        ValueOfSymbol(i);
        return Some(i);
      }
      i := i + 1;
    }
    if Value(symbol).Some? {
      SymbolOfValue(symbol);
    }
    return None;
  }

  /** The values of a quartet's characters up to the padding, or none if it is malformed. */
  method ReadQuartet(q: seq<byte>, final: bool) returns (r: Option<seq<byte>>)
    requires |q| == 4
    ensures r.None? <==> DecodeQuartet(q, final).None?
    ensures r.Some? ==> 2 <= |r.value| <= 4 && (forall k :: 0 <= k < |r.value| ==>
                                                Value(q[k]) == Some(r.value[k]) && r.value[k] < 64)
                        && (|r.value| < 4 ==> q[|r.value|] == PAD)
  {
    hide Symbol, Value, B0, B1, B2;
    var values: seq<byte> := [];
    var j := 0;
    while j < 4
      invariant 0 <= j <= 4 && |values| == j
      invariant forall k :: 0 <= k < j ==> Value(q[k]) == Some(values[k]) && values[k] < 64 && q[k] != PAD
    {
      if q[j] == PAD {
        PadIsNoValue();
        if !final || j < 2 {
          return None;
        }
        if j == 2 && q[3] != PAD {
          return None;
        }
        return Some(values);
      }
      var value := FindValue(q[j]);
      if value.None? {
        return None;
      }
      SymbolOfValue(q[j]);
      values := values + [value.value];
      j := j + 1;
    }
    return Some(values);
  }

  lemma PadIsNoValue()
    ensures Value(PAD).None?
  {
  }

  /** The octets of one quartet, shifted out of the 24-bit number. */
  method DecodeOne(q: seq<byte>, final: bool) returns (r: Option<seq<byte>>)
    requires |q| == 4
    ensures r == DecodeQuartet(q, final)
  {
    hide Symbol, Value, B0, B1, B2, Quad, QuadBytes;
    var values := ReadQuartet(q, final);
    if values.None? {
      return None;
    }
    PadIsNoValue();
    var v := values.value;
    var v2, v3 := if |v| > 2 then v[2] else 0, if |v| > 3 then v[3] else 0;
    var octets := QuadBytes(Quad(v[0], v[1], v2, v3));
    QuadOctets(v[0], v[1], v2, v3);
    if |v| == 2 {
      assert octets[..1] == [B0(v[0], v[1])];
    } else if |v| == 3 {
      assert octets[..2] == [B0(v[0], v[1]), B1(v[1], v2)];
    } else {
      assert octets[..3] == [B0(v[0], v[1]), B1(v[1], v2), B2(v2, v3)];
    }
    return Some(octets[..|v| - 1]);
  }

  /** Decodes into `out`, if it can hold whatever the text may decode to. */
  method DecodeInto(input: seq<byte>, out: array<byte>) returns (r: Option<nat>)
    modifies out
    ensures r.Some? <==> Decode(input).Some? && MaxDecodedSize(|input|) <= out.Length
    ensures r.Some? ==> r.value <= out.Length && out[..r.value] == Decode(input).value
  {
    hide DecodeQuartet, Decode;
    if |input| % 4 != 0 || out.Length < MaxDecodedSize(|input|) {
      return None;
    }
    var written, i := 0, 0;
    ghost var quartets := 0;
    assert input[0..] == input;
    DecodeOntoNothing(input);
    while i < |input|
      invariant i == 4 * quartets && i <= |input| && 0 <= written <= 3 * quartets
      invariant DecodeOnto(out[..written], input[i..]) == Decode(input)
    {
      var q := input[i..i + 4];
      var octets := DecodeOne(q, i + 4 == |input|);
      assert input[i..][..4] == q && input[i..][4..] == input[i + 4..];
      DecodeOntoStep(out[..written], input[i..]);
      if octets.None? {
        return None;
      }
      StoreAt(out, written, octets.value);
      written, i, quartets := written + |octets.value|, i + 4, quartets + 1;
    }
    assert input[i..] == [];
    DecodeOntoEnd(out[..written]);
    return Some(written);
  }

  /** What was decoded so far, and the rest. */
  function DecodeOnto(done: seq<byte>, s: seq<byte>): Option<seq<byte>> {
    match Decode(s)
    case None => None
    case Some(x) => Some(done + x)
  }

  lemma DecodeOntoNothing(s: seq<byte>)
    ensures DecodeOnto([], s) == Decode(s)
  {
    hide Decode;
    if Decode(s).Some? {
      assert [] + Decode(s).value == Decode(s).value;
    }
  }

  lemma DecodeOntoEnd(done: seq<byte>)
    ensures DecodeOnto(done, []) == Some(done)
  {
    assert done + [] == done;
  }

  lemma DecodeOntoStep(done: seq<byte>, s: seq<byte>)
    requires |s| >= 4
    ensures DecodeOnto(done, s) == match DecodeQuartet(s[..4], |s| == 4)
                                   case None => None
                                   case Some(octets) => DecodeOnto(done + octets, s[4..])
  {
    hide DecodeQuartet;
    var first, rest := DecodeQuartet(s[..4], |s| == 4), Decode(s[4..]);
    if first.Some? && rest.Some? {
      assert done + (first.value + rest.value) == (done + first.value) + rest.value;
    }
  }

  method StoreAt(out: array<byte>, at: nat, octets: seq<byte>)
    requires at + |octets| <= out.Length
    modifies out
    ensures out[..at + |octets|] == old(out[..at]) + octets
  {
    Store(out, at, octets);
  }
}
