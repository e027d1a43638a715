/** CRC-16/XMODEM: polynomial 0x1021, no reflection, no final exclusive-or. */
module Crc16 {
  import opened Common

  const POLYNOMIAL: bv16 := 0x1021

  function Xor(a: bv16, b: bv16): bv16 {
    a ^ b
  }

  /** The bit about to be shifted out. */
  predicate TopSet(crc: bv16) {
    crc & 0x8000 != 0
  }

  function Doubled(crc: bv16): bv16 {
    crc << 1
  }

  /** One bit of the division. */
  function Shift(crc: bv16): bv16 {
    if TopSet(crc) then Xor(Doubled(crc), POLYNOMIAL) else Doubled(crc)
  }

  function Shifts(crc: bv16, bits: nat): bv16 {
    if bits == 0 then crc else Shift(Shifts(crc, bits - 1))
  }

  /** The eight-step update by one octet's worth of bits. */
  function Step8(crc: bv16): bv16 {
    Shift(Shift(Shift(Shift(Shift(Shift(Shift(Shift(crc))))))))
  }

  /** An octet in the high half. */
  function High(value: byte): bv16 {
    (value as bv16) << 8
  }

  function Mixed(crc: bv16, value: byte): bv16 {
    Xor(crc, High(value))
  }

  function Crc(seed: bv16, data: seq<byte>): bv16 {
    if data == [] then seed else Step8(Mixed(Crc(seed, data[..|data| - 1]), data[|data| - 1]))
  }

  lemma ShiftsEight(crc: bv16)
    ensures Shifts(crc, 8) == Step8(crc)
  {
    hide Shift;
    assert Shifts(crc, 1) == Shift(crc);
    assert Shifts(crc, 2) == Shift(Shifts(crc, 1));
    assert Shifts(crc, 3) == Shift(Shifts(crc, 2));
    assert Shifts(crc, 4) == Shift(Shifts(crc, 3));
    assert Shifts(crc, 5) == Shift(Shifts(crc, 4));
    assert Shifts(crc, 6) == Shift(Shifts(crc, 5));
    assert Shifts(crc, 7) == Shift(Shifts(crc, 6));
  }

  /** The octets in turn, eight bits each. */
  method Crc16Xmodem(seed: bv16, data: seq<byte>) returns (crc: bv16)
    ensures crc == Crc(seed, data)
  {
    hide Shift, Step8, Xor, High;
    crc := seed;
    var i := 0;
    while i < |data|
      invariant 0 <= i <= |data|
      invariant crc == Crc(seed, data[..i])
    {
      ghost var start := Mixed(crc, data[i]);
      crc := Xor(crc, High(data[i]));
      var bit := 0;
      while bit < 8
        invariant 0 <= bit <= 8
        invariant crc == Shifts(start, bit)
      {
        crc := ShiftOnce(crc);
        bit := bit + 1;
      }
      ShiftsEight(start);
      assert data[..i + 1][..i] == data[..i];
      i := i + 1;
    }
    assert data[..|data|] == data;
  }

  method ShiftOnce(before: bv16) returns (crc: bv16)
    ensures crc == Shift(before)
  {
    hide Xor, Doubled, TopSet;
    var carry := TopSet(before);
    crc := Doubled(before);
    if carry {
      crc := Xor(crc, POLYNOMIAL);
    }
  }

  // --- Algebra of the update ----------------------------------------------------------------------

  lemma XorCommutes(a: bv16, b: bv16)
    ensures Xor(a, b) == Xor(b, a)
  {
  }

  lemma XorAssociates(a: bv16, b: bv16, c: bv16)
    ensures Xor(Xor(a, b), c) == Xor(a, Xor(b, c))
  {
  }

  lemma XorSwap(w: bv16, x: bv16, y: bv16, z: bv16)
    ensures Xor(Xor(w, x), Xor(y, z)) == Xor(Xor(w, y), Xor(x, z))
  {
    hide Xor;
    XorAssociates(w, x, Xor(y, z));
    XorAssociates(x, y, z);
    XorCommutes(x, y);
    XorAssociates(y, x, z);
    XorAssociates(w, y, Xor(x, z));
  }

  lemma XorZero(a: bv16)
    ensures Xor(a, a) == 0 && Xor(a, 0) == a && Xor(0, a) == a
  {
  }

  lemma XorCancel(a: bv16, b: bv16, c: bv16)
    requires Xor(a, c) == Xor(b, c)
    ensures a == b
  {
  }

  lemma TopLinear(a: bv16, b: bv16)
    ensures TopSet(Xor(a, b)) == (TopSet(a) != TopSet(b))
  {
  }

  lemma DoubledLinear(a: bv16, b: bv16)
    ensures Doubled(Xor(a, b)) == Xor(Doubled(a), Doubled(b))
  {
  }

  /** The polynomial comes in once, twice or not at all. */
  lemma PolynomialSwap(a: bv16, b: bv16)
    ensures Xor(Xor(a, POLYNOMIAL), Xor(b, POLYNOMIAL)) == Xor(a, b)
    ensures Xor(Xor(a, POLYNOMIAL), b) == Xor(Xor(a, b), POLYNOMIAL)
    ensures Xor(a, Xor(b, POLYNOMIAL)) == Xor(Xor(a, b), POLYNOMIAL)
  {
    hide Xor;
    XorSwap(a, POLYNOMIAL, b, POLYNOMIAL);
    XorZero(POLYNOMIAL);
    XorZero(Xor(a, b));
    XorAssociates(a, POLYNOMIAL, b);
    XorCommutes(POLYNOMIAL, b);
    XorAssociates(a, b, POLYNOMIAL);
  }

  lemma ShiftLinear(a: bv16, b: bv16)
    ensures Shift(Xor(a, b)) == Xor(Shift(a), Shift(b))
  {
    hide Xor, Doubled, TopSet;
    TopLinear(a, b);
    DoubledLinear(a, b);
    PolynomialSwap(Doubled(a), Doubled(b));
  }

  /** The lowest bit tells whether the polynomial came in. */
  lemma LowestBit(a: bv16)
    ensures Xor(Doubled(a), POLYNOMIAL) & 1 == 1 && Doubled(a) & 1 == 0
  {
  }

  lemma DoubledInjective(a: bv16, b: bv16)
    requires Doubled(a) == Doubled(b) && TopSet(a) == TopSet(b)
    ensures a == b
  {
  }

  lemma ShiftInjective(a: bv16, b: bv16)
    requires Shift(a) == Shift(b)
    ensures a == b
  {
    hide Xor, Doubled, TopSet;
    LowestBit(a);
    LowestBit(b);
    if TopSet(a) {
      XorCancel(Doubled(a), Doubled(b), POLYNOMIAL);
    }
    DoubledInjective(a, b);
  }

  lemma StepLinear(a: bv16, b: bv16)
    ensures Step8(Xor(a, b)) == Xor(Step8(a), Step8(b))
  {
    hide Shift, Xor;
    var a1, b1 := Shift(a), Shift(b);
    var a2, b2 := Shift(a1), Shift(b1);
    var a3, b3 := Shift(a2), Shift(b2);
    var a4, b4 := Shift(a3), Shift(b3);
    var a5, b5 := Shift(a4), Shift(b4);
    var a6, b6 := Shift(a5), Shift(b5);
    var a7, b7 := Shift(a6), Shift(b6);
    ShiftLinear(a, b);
    ShiftLinear(a1, b1);
    ShiftLinear(a2, b2);
    ShiftLinear(a3, b3);
    ShiftLinear(a4, b4);
    ShiftLinear(a5, b5);
    ShiftLinear(a6, b6);
    ShiftLinear(a7, b7);
  }

  lemma StepInjective(a: bv16, b: bv16)
    requires Step8(a) == Step8(b)
    ensures a == b
  {
    hide Shift;
    var a1, b1 := Shift(a), Shift(b);
    var a2, b2 := Shift(a1), Shift(b1);
    var a3, b3 := Shift(a2), Shift(b2);
    var a4, b4 := Shift(a3), Shift(b3);
    var a5, b5 := Shift(a4), Shift(b4);
    var a6, b6 := Shift(a5), Shift(b5);
    var a7, b7 := Shift(a6), Shift(b6);
    ShiftInjective(a7, b7);
    ShiftInjective(a6, b6);
    ShiftInjective(a5, b5);
    ShiftInjective(a4, b4);
    ShiftInjective(a3, b3);
    ShiftInjective(a2, b2);
    ShiftInjective(a1, b1);
    ShiftInjective(a, b);
  }

  lemma StepZero()
    ensures Step8(0) == 0
  {
  }

  /** The low octet simply moves up. */
  lemma StepLow(low: bv16)
    requires low & 0xFF00 == 0
    ensures Step8(low) == low << 8
  {
  }

  /** Of a high octet, the update's low octet alone tells whether it was zero. */
  lemma StepHigh(high: byte)
    requires Step8(High(high)) & 0x00FF == 0
    ensures high == 0
  {
  }

  // --- Residues -----------------------------------------------------------------------------------

  /** The state after two more octets. */
  function Twice(crc: bv16, first: byte, second: byte): bv16 {
    Step8(Mixed(Step8(Mixed(crc, first)), second))
  }

  lemma CrcTwo(seed: bv16, data: seq<byte>, first: byte, second: byte)
    ensures Crc(seed, data + [first, second]) == Twice(Crc(seed, data), first, second)
  {
    hide Step8, Mixed;
    var all := data + [first, second];
    assert all[..|all| - 1] == data + [first];
    assert (data + [first])[..|data|] == data;
  }

  /** The update of the difference of two states is the difference of their updates. */
  lemma TwiceDiffers(crc: bv16, h: byte, l: byte, k: byte, m: byte)
    requires Twice(crc, h, l) == Twice(crc, k, m)
    ensures h == k && l == m
  {
    hide Step8, Xor, High;
    var a, b := Step8(Mixed(crc, h)), Step8(Mixed(crc, k));
    StepInjective(Mixed(a, l), Mixed(b, m));
    // Mixed(a, l) == Mixed(b, m): the first update's difference is confined to the high octet
    StepLinear(crc, High(h));
    StepLinear(crc, High(k));
    var c, x, y := Step8(crc), Step8(High(h)), Step8(High(k));
    XorSwap(c, x, c, y);
    XorZero(c);
    XorZero(Xor(x, y));
    assert Xor(a, b) == Xor(x, y);
    StepLinear(High(h), High(k));
    HighLinear(h, k);
    MixedDifference(a, l, b, m);
    assert Step8(High(h ^ k)) == High(l ^ m);
    HighOnly(h ^ k, l ^ m);
    ByteXorZero(h, k);
    ByteXorZero(l, m);
  }

  lemma HighLinear(h: byte, k: byte)
    ensures Xor(High(h), High(k)) == High(h ^ k)
  {
  }

  lemma MixedDifference(a: bv16, l: byte, b: bv16, m: byte)
    requires Mixed(a, l) == Mixed(b, m)
    ensures Xor(a, b) == High(l ^ m)
  {
    hide Xor, High;
    XorSwap(a, High(l), b, High(m));
    XorZero(Mixed(a, l));
    HighLinear(l, m);
    XorZero(High(l ^ m));
    XorCancel(Xor(a, b), High(l ^ m), High(l ^ m));
  }

  lemma HighOnly(x: byte, y: byte)
    requires Step8(High(x)) == High(y)
    ensures x == 0 && y == 0
  {
    hide Step8;
    assert High(y) & 0x00FF == 0;
    StepHigh(x);
    assert High(0) == 0;
    StepZero();
    assert y == 0;
  }

  lemma ByteXorZero(a: byte, b: byte)
    requires a ^ b == 0
    ensures a == b
  {
  }

  /** A 16-bit value as two octets, the high one first. */
  function HighByte(crc: bv16): byte {
    (crc >> 8) as byte
  }

  function LowByte(crc: bv16): byte {
    (crc & 0x00FF) as byte
  }

  function BigEndian(crc: bv16): seq<byte> {
    [HighByte(crc), LowByte(crc)]
  }

  /** The state's own octets take it to zero. */
  lemma TwiceOwn(crc: bv16)
    ensures Twice(crc, HighByte(crc), LowByte(crc)) == 0
  {
    hide Step8;
    var rest := Mixed(crc, HighByte(crc));
    OwnHigh(crc);
    StepLow(rest);
    OwnLow(crc);
    StepZero();
  }

  lemma OwnHigh(crc: bv16)
    ensures Mixed(crc, HighByte(crc)) == crc & 0x00FF && (crc & 0x00FF) & 0xFF00 == 0
  {
  }

  lemma OwnLow(crc: bv16)
    ensures Mixed((crc & 0x00FF) << 8, LowByte(crc)) == 0
  {
  }

  /** A body has residue zero exactly when its last two octets are the big-endian CRC of the rest. */
  lemma ResidueZero(data: seq<byte>, tail: seq<byte>)
    requires |tail| == 2
    ensures Crc(0, data + tail) == 0 <==> tail == BigEndian(Crc(0, data))
  {
    hide Step8, Twice, HighByte, LowByte;
    var c := Crc(0, data);
    assert tail == [tail[0], tail[1]];
    CrcTwo(0, data, tail[0], tail[1]);
    TwiceOwn(c);
    if Crc(0, data + tail) == 0 {
      TwiceDiffers(c, tail[0], tail[1], HighByte(c), LowByte(c));
    }
  }

  /** Different states stay different over the same octets. */
  lemma {:induction false} StatesStayApart(a: bv16, b: bv16, rest: seq<byte>)
    requires a != b
    ensures Crc(a, rest) != Crc(b, rest)
  {
    hide Step8, Mixed;
    if rest == [] {
    } else {
      var n := |rest| - 1;
      StatesStayApart(a, b, rest[..n]);
      if Crc(a, rest) == Crc(b, rest) {
        StepInjective(Mixed(Crc(a, rest[..n]), rest[n]), Mixed(Crc(b, rest[..n]), rest[n]));
        MixedInjective(Crc(a, rest[..n]), Crc(b, rest[..n]), rest[n]);
      }
    }
  }

  lemma MixedInjective(a: bv16, b: bv16, value: byte)
    requires Mixed(a, value) == Mixed(b, value)
    ensures a == b
  {
    hide Xor, High;
    XorCancel(a, b, High(value));
  }

  lemma {:induction false} CrcContinues(seed: bv16, a: seq<byte>, b: seq<byte>)
    ensures Crc(seed, a + b) == Crc(Crc(seed, a), b)
  {
    hide Step8, Mixed;
    if b == [] {
      assert a + b == a;
    } else {
      var n := |b| - 1;
      assert (a + b)[..|a| + n] == a + b[..n];
      CrcContinues(seed, a, b[..n]);
    }
  }

  /** Two different pairs of octets lead to different states. */
  lemma PairsApart(seed: bv16, before: seq<byte>, a: seq<byte>, b: seq<byte>)
    requires |a| == |b| == 2 && a != b
    ensures Crc(seed, before + a) != Crc(seed, before + b)
  {
    hide Step8, Twice, Crc;
    assert a == [a[0], a[1]] && b == [b[0], b[1]];
    CrcTwo(seed, before, a[0], a[1]);
    CrcTwo(seed, before, b[0], b[1]);
    if Twice(Crc(seed, before), a[0], a[1]) == Twice(Crc(seed, before), b[0], b[1]) {
      TwiceDiffers(Crc(seed, before), a[0], a[1], b[0], b[1]);
    }
  }

  /**
    Any change confined to two adjacent octets changes the CRC, so a changed body is never accepted in place of
    the true one.
   */
  lemma AdjacentChangeDetected(before: seq<byte>, true2: seq<byte>, false2: seq<byte>, after: seq<byte>)
    requires |true2| == |false2| == 2 && true2 != false2
    ensures Crc(0, before + true2 + after) != Crc(0, before + false2 + after)
  {
    hide Crc;
    CrcContinues(0, before + true2, after);
    CrcContinues(0, before + false2, after);
    PairsApart(0, before, true2, false2);
    StatesStayApart(Crc(0, before + true2), Crc(0, before + false2), after);
  }

  // --- Check value --------------------------------------------------------------------------------

  function Turn(state: bv16, value: byte): bv16 {
    Step8(Mixed(state, value))
  }

  lemma CheckSteps()
    ensures Turn(0x0000, 0x31) == 0x2672
    ensures Turn(0x2672, 0x32) == 0x20B5
    ensures Turn(0x20B5, 0x33) == 0x9752
    ensures Turn(0x9752, 0x34) == 0xD789
    ensures Turn(0xD789, 0x35) == 0x546C
    ensures Turn(0x546C, 0x36) == 0x20E4
    ensures Turn(0x20E4, 0x37) == 0x86D6
    ensures Turn(0x86D6, 0x38) == 0x9015
    ensures Turn(0x9015, 0x39) == 0x31C3
  {
  }

  lemma OneTurn(data: seq<byte>, value: byte)
    ensures Crc(0, data + [value]) == Turn(Crc(0, data), value)
  {
    hide Step8, Mixed;
    assert (data + [value])[..|data|] == data;
  }

  lemma ThreeTurns(data: seq<byte>, a: byte, b: byte, c: byte)
    ensures Crc(0, data + [a, b, c]) == Turn(Turn(Turn(Crc(0, data), a), b), c)
  {
    hide Crc, Turn;
    OneTurn(data, a);
    OneTurn(data + [a], b);
    OneTurn(data + [a] + [b], c);
    assert data + [a] + [b] + [c] == data + [a, b, c];
  }

  /** The check value of this CRC: what it makes of the digits from 1 to 9. */
  lemma CheckValue()
    ensures Crc(0, [0x31, 0x32, 0x33] + [0x34, 0x35, 0x36] + [0x37, 0x38, 0x39]) == 0x31C3
  {
    hide Turn, Crc;
    CheckSteps();
    var first: seq<byte>, second: seq<byte> := [0x31, 0x32, 0x33], [0x34, 0x35, 0x36];
    ThreeTurns([], 0x31, 0x32, 0x33);
    assert [] + first == first;
    ThreeTurns(first, 0x34, 0x35, 0x36);
    ThreeTurns(first + second, 0x37, 0x38, 0x39);
    CrcNothing();
  }

  lemma CrcNothing()
    ensures Crc(0, []) == 0
  {
  }
}
