/**
  Known answers for the formats on the wire: the base64 alphabet and its padding (RFC 4648), encoded data
  items of RFC 8949, and one serial frame octet by octet.
 */
module WireExamples {
  import opened Common
  import Base64
  import Cbor
  import Crc16
  import SerialFraming

  // --- Base64 --------------------------------------------------------------------------------------

  lemma OneGroup(a: seq<byte>, rest: seq<byte>)
    requires |a| == 3
    ensures Base64.Encode(a + rest) == Base64.EncodeGroup(a) + Base64.Encode(rest)
  {
    hide Base64.EncodeGroup;
    if rest == [] {
      assert a + rest == a;
    } else {
      assert (a + rest)[..3] == a && (a + rest)[3..] == rest;
    }
  }

  /** Twelve octets are four groups. */
  lemma FourGroups(a: seq<byte>, b: seq<byte>, c: seq<byte>, d: seq<byte>, rest: seq<byte>)
    requires |a| == |b| == |c| == |d| == 3
    ensures Base64.Encode(a + b + c + d + rest)
            == Base64.EncodeGroup(a) + Base64.EncodeGroup(b) + Base64.EncodeGroup(c) + Base64.EncodeGroup(d)
               + Base64.Encode(rest)
  {
    hide Base64.EncodeGroup, Base64.Encode;
    OneGroup(a, b + (c + (d + rest)));
    OneGroup(b, c + (d + rest));
    OneGroup(c, d + rest);
    OneGroup(d, rest);
    assert a + b + c + d + rest == a + (b + (c + (d + rest)));
  }

  const SIXES0: seq<byte> :=
    [0x00, 0x10, 0x83] + [0x10, 0x51, 0x87] + [0x20, 0x92, 0x8B] + [0x30, 0xD3, 0x8F]
  const LETTERS0: seq<byte> :=
    [0x41, 0x42, 0x43, 0x44] + [0x45, 0x46, 0x47, 0x48] +
    [0x49, 0x4A, 0x4B, 0x4C] + [0x4D, 0x4E, 0x4F, 0x50]  // ABCDEFGHIJKLMNOP

  lemma Row0(rest: seq<byte>)
    ensures Base64.Encode(SIXES0 + rest) == LETTERS0 + Base64.Encode(rest)
  {
    assert Base64.EncodeGroup([0x00, 0x10, 0x83]) == [0x41, 0x42, 0x43, 0x44];
    assert Base64.EncodeGroup([0x10, 0x51, 0x87]) == [0x45, 0x46, 0x47, 0x48];
    assert Base64.EncodeGroup([0x20, 0x92, 0x8B]) == [0x49, 0x4A, 0x4B, 0x4C];
    assert Base64.EncodeGroup([0x30, 0xD3, 0x8F]) == [0x4D, 0x4E, 0x4F, 0x50];
    hide Base64.EncodeGroup, Base64.Encode;
    FourGroups([0x00, 0x10, 0x83], [0x10, 0x51, 0x87], [0x20, 0x92, 0x8B], [0x30, 0xD3, 0x8F], rest);
  }

  const SIXES1: seq<byte> :=
    [0x41, 0x14, 0x93] + [0x51, 0x55, 0x97] + [0x61, 0x96, 0x9B] + [0x71, 0xD7, 0x9F]
  const LETTERS1: seq<byte> :=
    [0x51, 0x52, 0x53, 0x54] + [0x55, 0x56, 0x57, 0x58] +
    [0x59, 0x5A, 0x61, 0x62] + [0x63, 0x64, 0x65, 0x66]  // QRSTUVWXYZabcdef

  lemma Row1(rest: seq<byte>)
    ensures Base64.Encode(SIXES1 + rest) == LETTERS1 + Base64.Encode(rest)
  {
    assert Base64.EncodeGroup([0x41, 0x14, 0x93]) == [0x51, 0x52, 0x53, 0x54];
    assert Base64.EncodeGroup([0x51, 0x55, 0x97]) == [0x55, 0x56, 0x57, 0x58];
    assert Base64.EncodeGroup([0x61, 0x96, 0x9B]) == [0x59, 0x5A, 0x61, 0x62];
    assert Base64.EncodeGroup([0x71, 0xD7, 0x9F]) == [0x63, 0x64, 0x65, 0x66];
    hide Base64.EncodeGroup, Base64.Encode;
    FourGroups([0x41, 0x14, 0x93], [0x51, 0x55, 0x97], [0x61, 0x96, 0x9B], [0x71, 0xD7, 0x9F], rest);
  }

  const SIXES2: seq<byte> :=
    [0x82, 0x18, 0xA3] + [0x92, 0x59, 0xA7] + [0xA2, 0x9A, 0xAB] + [0xB2, 0xDB, 0xAF]
  const LETTERS2: seq<byte> :=
    [0x67, 0x68, 0x69, 0x6A] + [0x6B, 0x6C, 0x6D, 0x6E] +
    [0x6F, 0x70, 0x71, 0x72] + [0x73, 0x74, 0x75, 0x76]  // ghijklmnopqrstuv

  lemma Row2(rest: seq<byte>)
    ensures Base64.Encode(SIXES2 + rest) == LETTERS2 + Base64.Encode(rest)
  {
    assert Base64.EncodeGroup([0x82, 0x18, 0xA3]) == [0x67, 0x68, 0x69, 0x6A];
    assert Base64.EncodeGroup([0x92, 0x59, 0xA7]) == [0x6B, 0x6C, 0x6D, 0x6E];
    assert Base64.EncodeGroup([0xA2, 0x9A, 0xAB]) == [0x6F, 0x70, 0x71, 0x72];
    assert Base64.EncodeGroup([0xB2, 0xDB, 0xAF]) == [0x73, 0x74, 0x75, 0x76];
    hide Base64.EncodeGroup, Base64.Encode;
    FourGroups([0x82, 0x18, 0xA3], [0x92, 0x59, 0xA7], [0xA2, 0x9A, 0xAB], [0xB2, 0xDB, 0xAF], rest);
  }

  const SIXES3: seq<byte> :=
    [0xC3, 0x1C, 0xB3] + [0xD3, 0x5D, 0xB7] + [0xE3, 0x9E, 0xBB] + [0xF3, 0xDF, 0xBF]
  const LETTERS3: seq<byte> :=
    [0x77, 0x78, 0x79, 0x7A] + [0x30, 0x31, 0x32, 0x33] +
    [0x34, 0x35, 0x36, 0x37] + [0x38, 0x39, 0x2B, 0x2F]  // wxyz0123456789+/

  lemma Row3(rest: seq<byte>)
    ensures Base64.Encode(SIXES3 + rest) == LETTERS3 + Base64.Encode(rest)
  {
    assert Base64.EncodeGroup([0xC3, 0x1C, 0xB3]) == [0x77, 0x78, 0x79, 0x7A];
    assert Base64.EncodeGroup([0xD3, 0x5D, 0xB7]) == [0x30, 0x31, 0x32, 0x33];
    assert Base64.EncodeGroup([0xE3, 0x9E, 0xBB]) == [0x34, 0x35, 0x36, 0x37];
    assert Base64.EncodeGroup([0xF3, 0xDF, 0xBF]) == [0x38, 0x39, 0x2B, 0x2F];
    hide Base64.EncodeGroup, Base64.Encode;
    FourGroups([0xC3, 0x1C, 0xB3], [0xD3, 0x5D, 0xB7], [0xE3, 0x9E, 0xBB], [0xF3, 0xDF, 0xBF], rest);
  }

  /** The six-bit numbers from 0 to 63, one behind the other, are the alphabet. */
  lemma AlphabetInOrder()
    ensures Base64.Encode(SIXES0 + (SIXES1 + (SIXES2 + (SIXES3 + []))))
            == LETTERS0 + (LETTERS1 + (LETTERS2 + (LETTERS3 + [])))
  {
    hide Base64.Encode;
    Row0(SIXES1 + (SIXES2 + (SIXES3 + [])));
    Row1(SIXES2 + (SIXES3 + []));
    Row2(SIXES3 + []);
    Row3([]);
    EncodedNothing();
  }

  lemma EncodedNothing()
    ensures Base64.Encode([]) == []
  {
  }

  /** "f" and "fo": one octet and two, padded. */
  lemma PaddedEnds()
    ensures Base64.Encode([0x66]) == [0x5A, 0x67, 0x3D, 0x3D]
    ensures Base64.Encode([0x66, 0x6F]) == [0x5A, 0x6D, 0x38, 0x3D]
  {
  }

  // --- CBOR ----------------------------------------------------------------------------------------

  lemma BigEndian(n: nat)
    ensures BeOctets(n, 1) == [LowOctet(n)]
    ensures BeOctets(n, 2) == [LowOctet(n / 256), LowOctet(n)]
    ensures BeOctets(n, 4) == [LowOctet(n / 0x100_0000), LowOctet(n / 0x1_0000), LowOctet(n / 256), LowOctet(n)]
  {
    hide LowOctet;
    assert n / 256 / 256 == n / 0x1_0000 && n / 0x1_0000 / 256 == n / 0x100_0000;
    assert BeOctets(n / 256, 3) == BeOctets(n / 0x1_0000, 2) + [LowOctet(n / 256)];
    assert BeOctets(n / 0x1_0000, 2) == BeOctets(n / 0x100_0000, 1) + [LowOctet(n / 0x1_0000)];
  }

  lemma NumberOctets()
    ensures LowOctet(24) == 24 && LowOctet(100) == 100 && LowOctet(99) == 99
    ensures LowOctet(3) == 0x03 && LowOctet(1000) == 0xE8
    ensures LowOctet(0) == 0 && LowOctet(15) == 0x0F && LowOctet(3906) == 0x42 && LowOctet(1000000) == 0x40
  {
  }

  /** Numbers of each length, and negative ones (appendix A of RFC 8949). */
  lemma NumbersEncoded()
    ensures Cbor.Encode(Cbor.Uint(0)) == [0x00] && Cbor.Encode(Cbor.Uint(23)) == [0x17]
    ensures Cbor.Encode(Cbor.Uint(24)) == [0x18, 0x18] && Cbor.Encode(Cbor.Uint(100)) == [0x18, 0x64]
    ensures Cbor.Encode(Cbor.Uint(1000)) == [0x19, 0x03, 0xE8]
    ensures Cbor.Encode(Cbor.Uint(1000000)) == [0x1A, 0x00, 0x0F, 0x42, 0x40]
    ensures Cbor.Encode(Cbor.Nint(-1)) == [0x20] && Cbor.Encode(Cbor.Nint(-100)) == [0x38, 0x63]
  {
    hide BeOctets, LowOctet;
    NumberOctets();
    BigEndian(24);
    BigEndian(100);
    BigEndian(1000);
    BigEndian(1000000);
    BigEndian(99);
  }

  /** Strings and truth values. */
  lemma StringsEncoded()
    ensures Cbor.Encode(Cbor.Bytes([0x01, 0x02, 0x03, 0x04])) == [0x44, 0x01, 0x02, 0x03, 0x04]
    ensures Cbor.Encode(Cbor.Text([0x49, 0x45, 0x54, 0x46])) == [0x64, 0x49, 0x45, 0x54, 0x46]
    ensures Cbor.Encode(Cbor.Bool(false)) == [0xF4] && Cbor.Encode(Cbor.Bool(true)) == [0xF5]
  {
  }

  lemma SmallNumbers()
    ensures Cbor.Encode(Cbor.Uint(1)) == [0x01] && Cbor.Encode(Cbor.Uint(2)) == [0x02]
    ensures Cbor.Encode(Cbor.Uint(3)) == [0x03]
    ensures Cbor.Encode(Cbor.Text([0x61])) == [0x61, 0x61]
    ensures Cbor.HeadOf(4, 3) == [0x83] && Cbor.HeadOf(5, 1) == [0xA1]
  {
  }

  lemma EncodedMore(v: Cbor.Value, items: seq<Cbor.Value>)
    requires Cbor.Encodable(v) && forall k :: 0 <= k < |items| ==> Cbor.Encodable(items[k])
    ensures Cbor.EncodeAll([v] + items) == Cbor.Encode(v) + Cbor.EncodeAll(items)
  {
    hide Cbor.Encode, Cbor.Encodable;
    assert ([v] + items)[1..] == items;
  }

  /** [1, 2, 3]. */
  lemma ListEncoded()
    ensures var list := Cbor.Array([Cbor.Uint(1)] + ([Cbor.Uint(2)] + ([Cbor.Uint(3)] + [])));
            Cbor.Encodable(list) && Cbor.Encode(list) == [0x83, 0x01, 0x02, 0x03]
  {
    var one, two, three := Cbor.Uint(1), Cbor.Uint(2), Cbor.Uint(3);
    SmallNumbers();
    hide Cbor.HeadOf, Cbor.EncodeAll;
    EncodedMore(one, [two] + ([three] + []));
    EncodedMore(two, [three] + []);
    EncodedMore(three, []);
    NothingEncoded();
  }

  /** {"a": 1}. */
  lemma MapEncoded()
    ensures var tree := Cbor.Map([Cbor.Text([0x61])] + ([Cbor.Uint(1)] + []));
            Cbor.Encodable(tree) && Cbor.Encode(tree) == [0xA1, 0x61, 0x61, 0x01]
  {
    SmallNumbers();
    hide Cbor.HeadOf, Cbor.EncodeAll;
    EncodedMore(Cbor.Text([0x61]), [Cbor.Uint(1)] + []);
    EncodedMore(Cbor.Uint(1), []);
    NothingEncoded();
  }

  lemma NothingEncoded()
    ensures Cbor.EncodeAll([]) == []
  {
  }

  // --- A serial frame ------------------------------------------------------------------------------

  /** A read request of the OS group, and the one frame that carries it: "AAoAAAAAAAAqAOkt" behind the marker. */
  const REQUEST: seq<byte> := [0x00, 0x00, 0x00, 0x00, 0x00, 0x00, 0x2A, 0x00]

  const FRAME: seq<byte> :=
    [0x06, 0x09] +
    ([0x41, 0x41, 0x6F, 0x41] + [0x41, 0x41, 0x41, 0x41] + [0x41, 0x41, 0x41, 0x71] + [0x41, 0x4F, 0x6B, 0x74])

  lemma RequestCrc()
    ensures Crc16.Crc(0, REQUEST) == 0xE92D
  {
    var zeros: seq<byte> := [0x00, 0x00, 0x00];
    assert Crc16.Turn(0, 0) == 0 && Crc16.Turn(0, 0x2A) == 0x8528 && Crc16.Turn(0x8528, 0) == 0xE92D;
    hide Crc16.Turn, Crc16.Crc;
    Crc16.CrcNothing();
    Crc16.ThreeTurns([], 0, 0, 0);
    assert [] + zeros == zeros;
    Crc16.ThreeTurns(zeros, 0, 0, 0);
    Crc16.OneTurn(zeros + zeros, 0x2A);
    Crc16.OneTurn(zeros + zeros + [0x2A], 0);
    assert REQUEST == zeros + zeros + [0x2A] + [0];
  }

  lemma RequestPiece()
    ensures SerialFraming.Piece(REQUEST, 0, true) == [0x00, 0x0A, 0x00] + [0x00, 0x00, 0x00] + [0x00, 0x00, 0x2A]
                                                    + [0x00, 0xE9, 0x2D]
    ensures SerialFraming.NextOffset(REQUEST, 0, true) == 8
  {
    RequestCrc();
    hide Crc16.Crc;
    assert SerialFraming.PlanFrame(8, 0, true) == SerialFraming.FramePlan(2, true);
    assert SerialFraming.CrcOctets(REQUEST) == [0xE9, 0x2D];
    assert Octets16(10) == [0x00, 0x0A];
  }

  lemma FrameByOctets()
    ensures SerialFraming.Lines(REQUEST) == [FRAME]
  {
    RequestPiece();
    hide SerialFraming.Piece, SerialFraming.NextOffset;
    assert Base64.EncodeGroup([0x00, 0x0A, 0x00]) == [0x41, 0x41, 0x6F, 0x41];
    assert Base64.EncodeGroup([0x00, 0x00, 0x00]) == [0x41, 0x41, 0x41, 0x41];
    assert Base64.EncodeGroup([0x00, 0x00, 0x2A]) == [0x41, 0x41, 0x41, 0x71];
    assert Base64.EncodeGroup([0x00, 0xE9, 0x2D]) == [0x41, 0x4F, 0x6B, 0x74];
    hide Base64.EncodeGroup, Base64.Encode;
    FourGroups([0x00, 0x0A, 0x00], [0x00, 0x00, 0x00], [0x00, 0x00, 0x2A], [0x00, 0xE9, 0x2D], []);
    EncodedNothing();
    var piece: seq<byte> := [0x00, 0x0A, 0x00] + [0x00, 0x00, 0x00] + [0x00, 0x00, 0x2A] + [0x00, 0xE9, 0x2D];
    assert piece + [] == piece;
    assert SerialFraming.FrameLine(piece, true) == FRAME;
    assert SerialFraming.LinesFrom(REQUEST, 8, false) == [];
    assert SerialFraming.Lines(REQUEST) == [SerialFraming.FrameLine(piece, true)] + [];
  }
}
