/** The reflected CRC-32 of zip archives (polynomial 0xEDB88320), bit by bit and by table. */
module Crc32 {
  import opened Common

  const POLYNOMIAL: bv32 := 0xEDB88320
  const ALL_ONES: bv32 := 0xFFFFFFFF

  function Xor(a: bv32, b: bv32): bv32 {
    a ^ b
  }

  predicate LowSet(v: bv32) {
    v & 1 != 0
  }

  function Halved(v: bv32): bv32 {
    v >> 1
  }

  function Wide(b: byte): bv32 {
    b as bv32
  }

  /** One bit. */
  function Shift(v: bv32): bv32 {
    if LowSet(v) then Xor(Halved(v), POLYNOMIAL) else Halved(v)
  }

  function Shifts(v: bv32, bits: nat): bv32 {
    if bits == 0 then v else Shift(Shifts(v, bits - 1))
  }

  function Step8(v: bv32): bv32 {
    Shift(Shift(Shift(Shift(Shift(Shift(Shift(Shift(v))))))))
  }

  function Fold(crc: bv32, data: seq<byte>): bv32 {
    if data == [] then crc else Step8(Xor(Fold(crc, data[..|data| - 1]), Wide(data[|data| - 1])))
  }

  function Crc(data: seq<byte>): bv32 {
    Xor(Fold(ALL_ONES, data), ALL_ONES)
  }

  lemma ShiftsEight(v: bv32)
    ensures Shifts(v, 8) == Step8(v)
  {
    hide Shift;
    assert Shifts(v, 1) == Shift(v);
    assert Shifts(v, 2) == Shift(Shifts(v, 1));
    assert Shifts(v, 3) == Shift(Shifts(v, 2));
    assert Shifts(v, 4) == Shift(Shifts(v, 3));
    assert Shifts(v, 5) == Shift(Shifts(v, 4));
    assert Shifts(v, 6) == Shift(Shifts(v, 5));
    assert Shifts(v, 7) == Shift(Shifts(v, 6));
  }

  method EightShifts(v: bv32) returns (r: bv32)
    ensures r == Step8(v)
  {
    hide Shift, Step8;
    r := v;
    var bit := 0;
    while bit < 8
      invariant 0 <= bit <= 8 && r == Shifts(v, bit)
    {
      r := Shift(r);
      bit := bit + 1;
    }
    ShiftsEight(v);
  }

  /** The writer's CRC: every bit of every octet in turn. */
  method BitwiseCrc(data: seq<byte>) returns (crc: bv32)
    ensures crc == Crc(data)
  {
    hide Step8, Xor, Wide;
    crc := ALL_ONES;
    var i := 0;
    while i < |data|
      invariant 0 <= i <= |data| && crc == Fold(ALL_ONES, data[..i])
    {
      crc := EightShifts(Xor(crc, Wide(data[i])));
      assert data[..i + 1][..i] == data[..i];
      i := i + 1;
    }
    assert data[..|data|] == data;
    crc := Xor(crc, ALL_ONES);
  }

  // --- One octet by one lookup --------------------------------------------------------------------

  lemma XorCommutes(a: bv32, b: bv32)
    ensures Xor(a, b) == Xor(b, a)
  {
  }

  lemma XorAssociates(a: bv32, b: bv32, c: bv32)
    ensures Xor(Xor(a, b), c) == Xor(a, Xor(b, c))
  {
  }

  lemma XorSelf(a: bv32)
    ensures Xor(a, a) == 0 && Xor(a, 0) == a
  {
  }

  lemma LowLinear(a: bv32, b: bv32)
    ensures LowSet(Xor(a, b)) == (LowSet(a) != LowSet(b))
  {
  }

  lemma HalvedLinear(a: bv32, b: bv32)
    ensures Halved(Xor(a, b)) == Xor(Halved(a), Halved(b))
  {
  }

  /** The polynomial comes in once, twice or not at all. */
  lemma PolynomialSwap(a: bv32, b: bv32)
    ensures Xor(Xor(a, POLYNOMIAL), Xor(b, POLYNOMIAL)) == Xor(a, b)
    ensures Xor(Xor(a, POLYNOMIAL), b) == Xor(Xor(a, b), POLYNOMIAL)
    ensures Xor(a, Xor(b, POLYNOMIAL)) == Xor(Xor(a, b), POLYNOMIAL)
  {
    hide Xor;
    XorAssociates(a, POLYNOMIAL, b);
    XorCommutes(POLYNOMIAL, b);
    XorAssociates(a, b, POLYNOMIAL);
    XorCommutes(Xor(a, POLYNOMIAL), Xor(b, POLYNOMIAL));
    XorAssociates(Xor(a, POLYNOMIAL), b, POLYNOMIAL);
    XorAssociates(Xor(a, b), POLYNOMIAL, POLYNOMIAL);
    XorSelf(POLYNOMIAL);
    XorSelf(Xor(a, b));
  }

  lemma ShiftLinear(a: bv32, b: bv32)
    ensures Shift(Xor(a, b)) == Xor(Shift(a), Shift(b))
  {
    hide Xor, Halved, LowSet;
    LowLinear(a, b);
    HalvedLinear(a, b);
    PolynomialSwap(Halved(a), Halved(b));
  }

  lemma StepLinear(a: bv32, b: bv32)
    ensures Step8(Xor(a, b)) == Xor(Step8(a), Step8(b))
  {
    hide Shift, Xor;
    var a1, b1 := Shift(a), Shift(b);
    var a2, b2 := Shift(a1), Shift(b1);
    var a3, b3 := Shift(a2), Shift(b2);
    var a4, b4 := Shift(a3), Shift(b3);
    var a5, b5 := Shift(a4), Shift(b4);
    var a6, b6 := Shift(a5), Shift(b5);
    var a7, b7 := Shift(a6), Shift(b6);
    ShiftLinear(a, b);
    ShiftLinear(a1, b1);
    ShiftLinear(a2, b2);
    ShiftLinear(a3, b3);
    ShiftLinear(a4, b4);
    ShiftLinear(a5, b5);
    ShiftLinear(a6, b6);
    ShiftLinear(a7, b7);
  }

  function LowOctetOf(v: bv32): byte {
    (v & 0xFF) as byte
  }

  function Upper(v: bv32): bv32 {
    v & 0xFFFFFF00
  }

  function MovedDown(v: bv32): bv32 {
    v >> 8
  }

  lemma Parts(v: bv32)
    ensures v == Xor(Wide(LowOctetOf(v)), Upper(v))
  {
  }

  /** With its low octet clear a value only moves down. */
  lemma StepUpper(v: bv32)
    ensures Step8(Upper(v)) == MovedDown(v)
  {
  }

  /** Eight bits at once: what the low octet brings in, and the rest moved down. */
  lemma StepByTable(v: bv32)
    ensures Step8(v) == Xor(Step8(Wide(LowOctetOf(v))), MovedDown(v))
  {
    hide Step8, Xor, Upper, LowOctetOf, MovedDown, Wide;
    Parts(v);
    StepLinear(Wide(LowOctetOf(v)), Upper(v));
    StepUpper(v);
  }

  /** An octet does not reach the upper part. */
  lemma OctetBelow(crc: bv32, b: byte)
    ensures MovedDown(Xor(crc, Wide(b))) == MovedDown(crc)
  {
  }

  function OctetAt(k: nat): byte
    requires k < 256
  {
    k as byte
  }

  lemma OctetBack(b: byte)
    ensures b as int < 256 && OctetAt(b as int) == b
  {
  }

  /** The table's entry for an octet is its eight shifts. */
  predicate TableRight(table: seq<bv32>) {
    |table| == 256 && forall k :: 0 <= k < 256 ==> table[k] == Step8(Wide(OctetAt(k)))
  }

  method MakeTable() returns (table: seq<bv32>)
    ensures TableRight(table)
  {
    hide Step8, Wide, OctetAt;
    table := [];
    var index := 0;
    while index < 256
      invariant 0 <= index <= 256 && |table| == index
      invariant forall k :: 0 <= k < index ==> table[k] == Step8(Wide(OctetAt(k)))
    {
      var value := EightShifts(Wide(OctetAt(index)));
      table := table + [value];
      index := index + 1;
    }
  }

  /** One octet's turn: a lookup and a move. */
  method Lookup(table: seq<bv32>, crc: bv32, b: byte) returns (r: bv32)
    requires TableRight(table)
    ensures r == Step8(Xor(crc, Wide(b)))
  {
    hide Step8, Xor, LowOctetOf, Wide, MovedDown, OctetAt;
    var mixed := Xor(crc, Wide(b));
    StepByTable(mixed);
    OctetBelow(crc, b);
    OctetBack(LowOctetOf(mixed));
    var index := LowOctetOf(mixed) as int;
    r := Xor(table[index], MovedDown(crc));
  }

  /** The reader's CRC: one lookup an octet. It is the bitwise one on every input. */
  method TableCrc(data: seq<byte>) returns (crc: bv32)
    ensures crc == Crc(data)
  {
    hide Step8, Xor, Wide, TableRight;
    var table := MakeTable();
    crc := ALL_ONES;
    var i := 0;
    while i < |data|
      invariant 0 <= i <= |data| && crc == Fold(ALL_ONES, data[..i])
    {
      crc := Lookup(table, crc, data[i]);
      assert data[..i + 1][..i] == data[..i];
      i := i + 1;
    }
    assert data[..|data|] == data;
    crc := Xor(crc, ALL_ONES);
  }

  // --- Changes are noticed ------------------------------------------------------------------------

  predicate HighSet(v: bv32) {
    v & 0x80000000 != 0
  }

  /** The highest bit tells whether the polynomial came in. */
  lemma HighestBit(v: bv32)
    ensures HighSet(Xor(Halved(v), POLYNOMIAL)) && !HighSet(Halved(v))
  {
  }

  lemma HalvedInjective(a: bv32, b: bv32)
    requires Halved(a) == Halved(b) && LowSet(a) == LowSet(b)
    ensures a == b
  {
  }

  lemma XorCancel(a: bv32, b: bv32, c: bv32)
    requires Xor(a, c) == Xor(b, c)
    ensures a == b
  {
  }

  lemma ShiftInjective(a: bv32, b: bv32)
    requires Shift(a) == Shift(b)
    ensures a == b
  {
    hide Xor, Halved, LowSet, HighSet;
    HighestBit(a);
    HighestBit(b);
    if LowSet(a) {
      XorCancel(Halved(a), Halved(b), POLYNOMIAL);
    }
    HalvedInjective(a, b);
  }

  lemma StepInjective(a: bv32, b: bv32)
    requires Step8(a) == Step8(b)
    ensures a == b
  {
    hide Shift;
    var a1, b1 := Shift(a), Shift(b);
    var a2, b2 := Shift(a1), Shift(b1);
    var a3, b3 := Shift(a2), Shift(b2);
    var a4, b4 := Shift(a3), Shift(b3);
    var a5, b5 := Shift(a4), Shift(b4);
    var a6, b6 := Shift(a5), Shift(b5);
    var a7, b7 := Shift(a6), Shift(b6);
    ShiftInjective(a7, b7);
    ShiftInjective(a6, b6);
    ShiftInjective(a5, b5);
    ShiftInjective(a4, b4);
    ShiftInjective(a3, b3);
    ShiftInjective(a2, b2);
    ShiftInjective(a1, b1);
    ShiftInjective(a, b);
  }

  /** An octet moved up by so many places. */
  function Raised(b: byte, places: bv6): bv32
    requires places <= 24
  {
    (b as bv32) << places
  }

  lemma RaisedIsUpper(b: byte)
    ensures Upper(Raised(b, 8)) == Raised(b, 8) && MovedDown(Raised(b, 8)) == Wide(b)
    ensures Upper(Raised(b, 16)) == Raised(b, 16) && MovedDown(Raised(b, 16)) == Raised(b, 8)
    ensures Upper(Raised(b, 24)) == Raised(b, 24) && MovedDown(Raised(b, 24)) == Raised(b, 16)
  {
  }

  /** An octet mixed in after a step could have been mixed in before it, one place up. */
  lemma MixedEarlier(v: bv32, b: byte)
    ensures Xor(Step8(v), Wide(b)) == Step8(Xor(v, Raised(b, 8)))
    ensures Xor(Step8(v), Raised(b, 8)) == Step8(Xor(v, Raised(b, 16)))
    ensures Xor(Step8(v), Raised(b, 16)) == Step8(Xor(v, Raised(b, 24)))
  {
    hide Step8, Xor, Raised, Upper, MovedDown, Wide;
    RaisedIsUpper(b);
    StepLinear(v, Raised(b, 8));
    StepUpper(Raised(b, 8));
    StepLinear(v, Raised(b, 16));
    StepUpper(Raised(b, 16));
    StepLinear(v, Raised(b, 24));
    StepUpper(Raised(b, 24));
  }

  function Four(v: bv32): bv32 {
    Step8(Step8(Step8(Step8(v))))
  }

  /** Four octets as one word, the first lowest. */
  function Word(a: byte, b: byte, c: byte, e: byte): bv32 {
    Xor(Xor(Xor(Wide(a), Raised(b, 8)), Raised(c, 16)), Raised(e, 24))
  }

  lemma WordInjective(a: byte, b: byte, c: byte, e: byte, p: byte, q: byte, r: byte, s: byte)
    requires Word(a, b, c, e) == Word(p, q, r, s)
    ensures a == p && b == q && c == r && e == s
  {
    hide Word, LowOctetOf, MovedDown;
    WordOctets(a, b, c, e);
    WordOctets(p, q, r, s);
  }

  lemma WordOctets(a: byte, b: byte, c: byte, e: byte)
    ensures var w := Word(a, b, c, e);
            && LowOctetOf(w) == a && LowOctetOf(MovedDown(w)) == b
            && LowOctetOf(MovedDown(MovedDown(w))) == c && LowOctetOf(MovedDown(MovedDown(MovedDown(w)))) == e
  {
  }

  lemma XorThrough(v: bv32, a: bv32, b: bv32, c: bv32, e: bv32)
    ensures Xor(Xor(Xor(Xor(v, a), b), c), e) == Xor(v, Xor(Xor(Xor(a, b), c), e))
  {
  }

  /** Four octets at once are four steps of the state with their word mixed in. */
  lemma FoldFour(crc: bv32, a: byte, b: byte, c: byte, e: byte)
    ensures Step8(Xor(Step8(Xor(Step8(Xor(Step8(Xor(crc, Wide(a))), Wide(b))), Wide(c))), Wide(e)))
            == Four(Xor(crc, Word(a, b, c, e)))
  {
    hide Step8, Xor, Raised, Wide;
    var v := Xor(crc, Wide(a));
    MixedEarlier(v, b);
    var w := Xor(v, Raised(b, 8));
    MixedEarlier(Step8(w), c);
    MixedEarlier(w, c);
    var x := Xor(w, Raised(c, 16));
    MixedEarlier(Step8(Step8(x)), e);
    MixedEarlier(Step8(x), e);
    MixedEarlier(x, e);
    XorThrough(crc, Wide(a), Raised(b, 8), Raised(c, 16), Raised(e, 24));
  }

  lemma FourInjective(a: bv32, b: bv32)
    requires Four(a) == Four(b)
    ensures a == b
  {
    hide Step8;
    StepInjective(Step8(Step8(Step8(a))), Step8(Step8(Step8(b))));
    StepInjective(Step8(Step8(a)), Step8(Step8(b)));
    StepInjective(Step8(a), Step8(b));
    StepInjective(a, b);
  }

  lemma FoldOnce(crc: bv32, data: seq<byte>, b: byte)
    ensures Fold(crc, data + [b]) == Step8(Xor(Fold(crc, data), Wide(b)))
  {
    hide Step8, Xor, Wide;
    assert (data + [b])[..|data|] == data;
  }

  lemma FoldWord(crc: bv32, data: seq<byte>, four: seq<byte>)
    requires |four| == 4
    ensures Fold(crc, data + four) == Four(Xor(Fold(crc, data), Word(four[0], four[1], four[2], four[3])))
  {
    hide Fold, Step8, Xor, Wide, Word, Four;
    FoldOnce(crc, data, four[0]);
    FoldOnce(crc, data + [four[0]], four[1]);
    FoldOnce(crc, data + [four[0]] + [four[1]], four[2]);
    FoldOnce(crc, data + [four[0]] + [four[1]] + [four[2]], four[3]);
    assert data + [four[0]] + [four[1]] + [four[2]] + [four[3]] == data + four;
    FoldFour(Fold(crc, data), four[0], four[1], four[2], four[3]);
  }

  /** Different states stay different over the same octets. */
  lemma {:induction false} StatesStayApart(a: bv32, b: bv32, rest: seq<byte>)
    requires a != b
    ensures Fold(a, rest) != Fold(b, rest)
  {
    hide Step8, Xor, Wide;
    if rest == [] {
    } else {
      var n := |rest| - 1;
      StatesStayApart(a, b, rest[..n]);
      if Fold(a, rest) == Fold(b, rest) {
        StepInjective(Xor(Fold(a, rest[..n]), Wide(rest[n])), Xor(Fold(b, rest[..n]), Wide(rest[n])));
        XorCancel(Fold(a, rest[..n]), Fold(b, rest[..n]), Wide(rest[n]));
      }
    }
  }

  lemma {:induction false} FoldContinues(crc: bv32, a: seq<byte>, b: seq<byte>)
    ensures Fold(crc, a + b) == Fold(Fold(crc, a), b)
  {
    hide Step8, Xor, Wide;
    if b == [] {
      assert a + b == a;
    } else {
      var n := |b| - 1;
      assert (a + b)[..|a| + n] == a + b[..n];
      FoldContinues(crc, a, b[..n]);
    }
  }

  lemma XorMoves(v: bv32, a: bv32, b: bv32)
    requires Xor(v, a) == Xor(v, b)
    ensures a == b
  {
  }

  lemma WordsApart(crc: bv32, before: seq<byte>, a: seq<byte>, b: seq<byte>)
    requires |a| == |b| == 4 && a != b
    ensures Fold(crc, before + a) != Fold(crc, before + b)
  {
    hide Fold, Four, Word, Xor;
    assert a == [a[0], a[1], a[2], a[3]] && b == [b[0], b[1], b[2], b[3]];
    FoldWord(crc, before, a);
    FoldWord(crc, before, b);
    if Fold(crc, before + a) == Fold(crc, before + b) {
      var v, wa, wb := Fold(crc, before), Word(a[0], a[1], a[2], a[3]), Word(b[0], b[1], b[2], b[3]);
      FourInjective(Xor(v, wa), Xor(v, wb));
      XorMoves(v, wa, wb);
      WordInjective(a[0], a[1], a[2], a[3], b[0], b[1], b[2], b[3]);
    }
  }

  /** Fewer octets than four differ as they would with the same ones behind them. */
  lemma StatesApart(crc: bv32, before: seq<byte>, a: seq<byte>, b: seq<byte>)
    requires |a| == |b| <= 4 && a != b
    ensures Fold(crc, before + a) != Fold(crc, before + b)
  {
    hide Fold;
    var rest: seq<byte> := seq(4 - |a|, k => 0);
    assert (a + rest)[..|a|] == a && (b + rest)[..|b|] == b;
    WordsApart(crc, before, a + rest, b + rest);
    FoldContinues(crc, before + a, rest);
    FoldContinues(crc, before + b, rest);
    assert before + a + rest == before + (a + rest) && before + b + rest == before + (b + rest);
  }

  /** Any change confined to four adjacent octets changes the checksum. */
  lemma BurstDetected(before: seq<byte>, a: seq<byte>, b: seq<byte>, after: seq<byte>)
    requires |a| == |b| <= 4 && a != b
    ensures Crc(before + a + after) != Crc(before + b + after)
  {
    hide Fold, Xor;
    FoldContinues(ALL_ONES, before + a, after);
    FoldContinues(ALL_ONES, before + b, after);
    StatesApart(ALL_ONES, before, a, b);
    StatesStayApart(Fold(ALL_ONES, before + a), Fold(ALL_ONES, before + b), after);
    if Crc(before + a + after) == Crc(before + b + after) {
      XorCancel(Fold(ALL_ONES, before + a + after), Fold(ALL_ONES, before + b + after), ALL_ONES);
    }
  }

  function Turn(state: bv32, b: byte): bv32 {
    Step8(Xor(state, Wide(b)))
  }

  lemma CheckSteps()
    ensures Turn(0xFFFFFFFF, 0x31) == 0x7C231048
    ensures Turn(0x7C231048, 0x32) == 0xB0ACBB32
    ensures Turn(0xB0ACBB32, 0x33) == 0x77B79C2D
    ensures Turn(0x77B79C2D, 0x34) == 0x641C1F5C
    ensures Turn(0x641C1F5C, 0x35) == 0x340AC5E3
    ensures Turn(0x340AC5E3, 0x36) == 0xF68D2C9E
    ensures Turn(0xF68D2C9E, 0x37) == 0xAFFC9660
    ensures Turn(0xAFFC9660, 0x38) == 0x651F2550
    ensures Turn(0x651F2550, 0x39) == 0x340BC6D9
    ensures Xor(0x340BC6D9, ALL_ONES) == 0xCBF43926
  {
  }

  lemma ThreeTurns(data: seq<byte>, a: byte, b: byte, c: byte)
    ensures Fold(ALL_ONES, data + [a, b, c]) == Turn(Turn(Turn(Fold(ALL_ONES, data), a), b), c)
  {
    hide Fold, Step8, Xor, Wide;
    FoldOnce(ALL_ONES, data, a);
    FoldOnce(ALL_ONES, data + [a], b);
    FoldOnce(ALL_ONES, data + [a] + [b], c);
    assert data + [a] + [b] + [c] == data + [a, b, c];
  }

  /** The check value of this CRC: what it makes of the digits from 1 to 9. */
  lemma CheckValue()
    ensures Crc([0x31, 0x32, 0x33] + [0x34, 0x35, 0x36] + [0x37, 0x38, 0x39]) == 0xCBF43926
  {
    hide Turn, Fold, Xor;
    CheckSteps();
    var first: seq<byte>, second: seq<byte> := [0x31, 0x32, 0x33], [0x34, 0x35, 0x36];
    ThreeTurns([], 0x31, 0x32, 0x33);
    assert [] + first == first;
    ThreeTurns(first, 0x34, 0x35, 0x36);
    ThreeTurns(first + second, 0x37, 0x38, 0x39);
    FoldNothing();
  }

  lemma FoldNothing()
    ensures Fold(ALL_ONES, []) == ALL_ONES
  {
  }
}
