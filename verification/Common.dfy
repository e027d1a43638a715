/** The one fact about octets and numbers that everything else rests on. */
module OctetNumbers {

  /** An octet holds exactly the numbers below 256. */
  lemma OctetHolds(x: int)
    requires 0 <= x < 256
    ensures (x as bv8) as int == x
  {
  }
}

/** Shared vocabulary: bytes, optional values, results and big-endian numbers. */
module Common {
  import OctetNumbers

  /** One octet on the wire, in flash or in a file. */
  type byte = bv8

  datatype Option<+T> = None | Some(value: T)

  datatype Result<+T, +E> = Ok(value: T) | Err(error: E)

  function Max(a: int, b: int): int {
    if a >= b then a else b
  }

  function Min(a: int, b: int): int {
    if a <= b then a else b
  }

  /** Concatenation of a list of byte strings. */
  function Concat(parts: seq<seq<byte>>): seq<byte> {
    if parts == [] then [] else parts[0] + Concat(parts[1..])
  }

  lemma {:induction false} ConcatAppend(a: seq<seq<byte>>, b: seq<seq<byte>>)
    ensures Concat(a + b) == Concat(a) + Concat(b)
  {
    if a == [] {
      assert a + b == b;
    } else {
      assert (a + b)[1..] == a[1..] + b;
      ConcatAppend(a[1..], b);
    }
  }

  lemma ConcatOneMore(parts: seq<seq<byte>>, last: seq<byte>)
    ensures Concat(parts + [last]) == Concat(parts) + last
  {
    ConcatAppend(parts, [last]);
    assert Concat([last]) == last + [] == last;
  }

  /** An octet holds exactly the numbers below 256. */
  lemma ByteOfInt(x: int)
    requires 0 <= x < 256
    ensures (x as byte) as int == x
  {
    OctetNumbers.OctetHolds(x);
  }

  // --- Big-endian numbers -------------------------------------------------------------------------

  function Pow256(width: nat): (r: nat)
    ensures r > 0
  {
    if width == 0 then 1 else 256 * Pow256(width - 1)
  }

  function LowOctet(n: nat): byte {
    (n % 256) as byte
  }

  /** The lowest `width` octets of a number, the highest first. */
  function BeOctets(n: nat, width: nat): (r: seq<byte>)
    ensures |r| == width
  {
    if width == 0 then [] else BeOctets(n / 256, width - 1) + [LowOctet(n)]
  }

  function BeValue(s: seq<byte>): nat {
    if s == [] then 0 else 256 * BeValue(s[..|s| - 1]) + (s[|s| - 1] as int)
  }

  lemma {:induction false} BeRoundTrip(n: nat, width: nat)
    requires n < Pow256(width)
    ensures BeValue(BeOctets(n, width)) == n
  {
    if width == 0 {
    } else {
      BeRoundTrip(n / 256, width - 1);
      var s := BeOctets(n, width);
      assert s[..|s| - 1] == BeOctets(n / 256, width - 1);
      ByteOfInt(n % 256);
    }
  }

  /** A number's octets are those of its high part and its low part. */
  lemma {:induction false} BeSplit(n: nat, q: nat, r: nat, high: nat, low: nat)
    requires r < Pow256(low) && n == q * Pow256(low) + r
    ensures BeOctets(n, high + low) == BeOctets(q, high) + BeOctets(r, low)
  {
    hide LowOctet;
    if low == 0 {
      assert BeOctets(n, high) + [] == BeOctets(n, high);
    } else {
      var p := Pow256(low - 1);
      Regroup(q, p);
      LastOctet(n, q * p, r);
      BeSplit(n / 256, q, r / 256, high, low - 1);
      assert BeOctets(n, high + low) == BeOctets(n / 256, high + low - 1) + [LowOctet(n)];
    }
  }

  lemma LastOctet(n: nat, k: nat, r: nat)
    requires n == 256 * k + r
    ensures n / 256 == k + r / 256 && LowOctet(n) == LowOctet(r)
  {
  }

  lemma Regroup(q: nat, p: nat)
    ensures q * (256 * p) == 256 * (q * p)
  {
  }

  function Octets16(n: nat): (r: seq<byte>)
    ensures |r| == 2
  {
    BeOctets(n, 2)
  }

  /** Two octets as a number, the high one first. */
  function Value16(high: byte, low: byte): (n: nat)
    ensures n < 0x1_0000
  {
    256 * (high as int) + (low as int)
  }

  lemma ReadsBack16(n: nat)
    requires n < 0x1_0000
    ensures var octets := Octets16(n);
            |octets| == 2 && Value16(octets[0], octets[1]) == n
  {
    var octets := Octets16(n);
    assert octets == BeOctets(n / 256, 1) + [LowOctet(n)];
    assert BeOctets(n / 256, 1) == BeOctets(n / 256 / 256, 0) + [LowOctet(n / 256)];
    ByteOfInt(n / 256);
    ByteOfInt(n % 256);
  }

  lemma HighLow(n: nat)
    requires n < 0x1_0000
    ensures Octets16(n) == [(n / 256) as byte, (n % 256) as byte]
  {
    assert BeOctets(n / 256, 1) == [] + [LowOctet(n / 256)];
  }

  lemma Back16(high: byte, low: byte)
    ensures Octets16(Value16(high, low)) == [high, low]
  {
    var n := Value16(high, low);
    HighLow(n);
    assert n / 256 == high as int && n % 256 == low as int;
  }

  // --- Little-endian fields -----------------------------------------------------------------------

  function OctetValue(b: byte): (r: nat)
    ensures r < 256
  {
    b as int
  }

  /** Little-endian 16-bit field. */
  function Le16(s: seq<byte>, at: nat): (r: nat)
    requires at + 2 <= |s|
    ensures r < 0x1_0000
  {
    OctetValue(s[at]) + 256 * OctetValue(s[at + 1])
  }

  function Le32(s: seq<byte>, at: nat): (r: nat)
    requires at + 4 <= |s|
    ensures r < 0x1_0000_0000
  {
    Le16(s, at) + 0x1_0000 * Le16(s, at + 2)
  }

  function U16(n: nat): (r: seq<byte>)
    ensures |r| == 2
  {
    [LowOctet(n), LowOctet(n / 256)]
  }

  function U32(n: nat): (r: seq<byte>)
    ensures |r| == 4
  {
    U16(n % 0x1_0000) + U16(n / 0x1_0000)
  }

  /** `block` stands in `s` from `at` on. */
  predicate HasAt(s: seq<byte>, at: nat, block: seq<byte>) {
    at + |block| <= |s| && s[at..at + |block|] == block
  }

  lemma LowOctetValue(n: nat)
    ensures OctetValue(LowOctet(n)) == n % 256
  {
    ByteOfInt(n % 256);
  }

  /** A number below 65536 is its low octet and its high one. */
  lemma TwoOctets(n: nat)
    requires n < 0x1_0000
    ensures OctetValue(LowOctet(n)) + 256 * OctetValue(LowOctet(n / 256)) == n
  {
    hide LowOctet, OctetValue;
    LowOctetValue(n);
    LowOctetValue(n / 256);
  }

  lemma ReadsU16(s: seq<byte>, at: nat, n: nat)
    requires n < 0x1_0000 && HasAt(s, at, U16(n))
    ensures at + 2 <= |s| && Le16(s, at) == n
  {
    hide LowOctet, OctetValue;
    TwoOctets(n);
    assert s[at] == s[at..at + 2][0] && s[at + 1] == s[at..at + 2][1];
  }

  lemma ReadsU32(s: seq<byte>, at: nat, n: nat)
    requires n < 0x1_0000_0000 && HasAt(s, at, U32(n))
    ensures at + 4 <= |s| && Le32(s, at) == n
  {
    hide U16, Le16;
    HasParts(s, at, U16(n % 0x1_0000), U16(n / 0x1_0000));
    ReadsU16(s, at, n % 0x1_0000);
    ReadsU16(s, at + 2, n / 0x1_0000);
  }

  /** What stands somewhere stands there piece by piece. */
  lemma HasParts(s: seq<byte>, at: nat, a: seq<byte>, b: seq<byte>)
    ensures HasAt(s, at, a + b) <==> HasAt(s, at, a) && HasAt(s, at + |a|, b)
  {
    if HasAt(s, at, a + b) {
      var block := s[at..at + |a + b|];
      assert block[..|a|] == a && block[|a|..] == b;
      assert s[at..at + |a|] == block[..|a|] && s[at + |a|..at + |a| + |b|] == block[|a|..];
    }
    if HasAt(s, at, a) && HasAt(s, at + |a|, b) {
      assert s[at..at + |a| + |b|] == s[at..at + |a|] + s[at + |a|..at + |a| + |b|];
    }
  }
}
