/**
  SHA-256. The one-shot definition follows FIPS 180-4: the functions of section 4.1.2, the padding of
  section 5.1.1 and the computation of section 6.2.2. The class hashes piece by piece.
 */
module Sha256 {
  import opened Common

  const BLOCK_SIZE := 64

  const K_ROW0: seq<bv32> :=
    [0x428A2F98, 0x71374491, 0xB5C0FBCF, 0xE9B5DBA5, 0x3956C25B, 0x59F111F1, 0x923F82A4, 0xAB1C5ED5]
  const K_ROW1: seq<bv32> :=
    [0xD807AA98, 0x12835B01, 0x243185BE, 0x550C7DC3, 0x72BE5D74, 0x80DEB1FE, 0x9BDC06A7, 0xC19BF174]
  const K_ROW2: seq<bv32> :=
    [0xE49B69C1, 0xEFBE4786, 0x0FC19DC6, 0x240CA1CC, 0x2DE92C6F, 0x4A7484AA, 0x5CB0A9DC, 0x76F988DA]
  const K_ROW3: seq<bv32> :=
    [0x983E5152, 0xA831C66D, 0xB00327C8, 0xBF597FC7, 0xC6E00BF3, 0xD5A79147, 0x06CA6351, 0x14292967]
  const K_ROW4: seq<bv32> :=
    [0x27B70A85, 0x2E1B2138, 0x4D2C6DFC, 0x53380D13, 0x650A7354, 0x766A0ABB, 0x81C2C92E, 0x92722C85]
  const K_ROW5: seq<bv32> :=
    [0xA2BFE8A1, 0xA81A664B, 0xC24B8B70, 0xC76C51A3, 0xD192E819, 0xD6990624, 0xF40E3585, 0x106AA070]
  const K_ROW6: seq<bv32> :=
    [0x19A4C116, 0x1E376C08, 0x2748774C, 0x34B0BCB5, 0x391C0CB3, 0x4ED8AA4A, 0x5B9CCA4F, 0x682E6FF3]
  const K_ROW7: seq<bv32> :=
    [0x748F82EE, 0x78A5636F, 0x84C87814, 0x8CC70208, 0x90BEFFFA, 0xA4506CEB, 0xBEF9A3F7, 0xC67178F2]

  /** The round constants of section 4.2.2. */
  const K: seq<bv32> := K_ROW0 + K_ROW1 + K_ROW2 + K_ROW3 + K_ROW4 + K_ROW5 + K_ROW6 + K_ROW7

  datatype Words = Words(a: bv32, b: bv32, c: bv32, d: bv32, e: bv32, f: bv32, g: bv32, h: bv32)

  /** The initial value of section 5.3.3. */
  const INITIAL := Words(0x6A09E667, 0xBB67AE85, 0x3C6EF372, 0xA54FF53A, 0x510E527F, 0x9B05688C, 0x1F83D9AB, 0x5BE0CD19)

  // --- Section 4.1.2 ------------------------------------------------------------------------------

  function RotateRight(x: bv32, n: bv6): bv32
    requires 0 < n < 32
  {
    (x >> n) | (x << (32 - n))
  }

  /** Addition modulo 2^32. */
  function Add(x: bv32, y: bv32): bv32 {
    x + y
  }

  function Sum4(p: bv32, q: bv32, r: bv32, s: bv32): bv32 {
    p + q + r + s
  }

  function Ch(x: bv32, y: bv32, z: bv32): bv32 {
    (x & y) ^ (!x & z)
  }

  function Maj(x: bv32, y: bv32, z: bv32): bv32 {
    (x & y) ^ (x & z) ^ (y & z)
  }

  function BigSigma0(x: bv32): bv32 {
    RotateRight(x, 2) ^ RotateRight(x, 13) ^ RotateRight(x, 22)
  }

  function BigSigma1(x: bv32): bv32 {
    RotateRight(x, 6) ^ RotateRight(x, 11) ^ RotateRight(x, 25)
  }

  function SmallSigma0(x: bv32): bv32 {
    RotateRight(x, 7) ^ RotateRight(x, 18) ^ (x >> 3)
  }

  function SmallSigma1(x: bv32): bv32 {
    RotateRight(x, 17) ^ RotateRight(x, 19) ^ (x >> 10)
  }

  // --- Section 6.2.2 ------------------------------------------------------------------------------

  /** Four octets as a word, the highest first. */
  function Word(s: seq<byte>, at: nat): bv32
    requires at + 4 <= |s|
  {
    ((s[at] as bv32) << 24) | ((s[at + 1] as bv32) << 16) | ((s[at + 2] as bv32) << 8) | (s[at + 3] as bv32)
  }

  /** The message schedule. */
  function W(block: seq<byte>, t: nat): bv32
    requires |block| == BLOCK_SIZE && t < 64
  {
    if t < 16 then Word(block, 4 * t)
    else Sum4(SmallSigma1(W(block, t - 2)), W(block, t - 7), SmallSigma0(W(block, t - 15)), W(block, t - 16))
  }

  function Round(v: Words, k: bv32, w: bv32): Words {
    var t1 := Add(Add(Add(Add(v.h, BigSigma1(v.e)), Ch(v.e, v.f, v.g)), k), w);
    var t2 := Add(BigSigma0(v.a), Maj(v.a, v.b, v.c));
    Words(Add(t1, t2), v.a, v.b, v.c, Add(v.d, t1), v.e, v.f, v.g)
  }

  /** The working variables after the first `t` rounds. */
  function Rounds(v: Words, block: seq<byte>, t: nat): Words
    requires |block| == BLOCK_SIZE && t <= 64
  {
    if t == 0 then v else Round(Rounds(v, block, t - 1), K[t - 1], W(block, t - 1))
  }

  function Added(x: Words, y: Words): Words {
    Words(Add(x.a, y.a), Add(x.b, y.b), Add(x.c, y.c), Add(x.d, y.d), Add(x.e, y.e), Add(x.f, y.f), Add(x.g, y.g),
          Add(x.h, y.h))
  }

  function Compress(v: Words, block: seq<byte>): Words
    requires |block| == BLOCK_SIZE
  {
    Added(v, Rounds(v, block, 64))
  }

  /** So many octets make whole blocks. */
  predicate WholeBlocksIn(n: nat) {
    n % BLOCK_SIZE == 0
  }

  /** The compression function folded over whole blocks. */
  function Blocks(v: Words, s: seq<byte>): Words
    requires WholeBlocksIn(|s|)
    decreases |s|
  {
    if s == [] then v else Blocks(Compress(v, s[..BLOCK_SIZE]), s[BLOCK_SIZE..])
  }

  // --- Section 5.1.1 ------------------------------------------------------------------------------

  /** The fewest zero octets that leave room for the length at the end of a block. */
  function ZeroCount(length: nat): (k: nat)
    ensures k < BLOCK_SIZE && (length + 1 + k) % BLOCK_SIZE == 56 && (length + 1 + k + 8) % BLOCK_SIZE == 0
  {
    (119 - length % BLOCK_SIZE) % BLOCK_SIZE
  }

  function Zeros(n: nat): (r: seq<byte>)
    ensures |r| == n
  {
    seq(n, k => 0)
  }

  const MAX_OCTETS := 0x2000_0000_0000_0000

  /** A one bit, zeros, and the length in bits. */
  function Padded(m: seq<byte>): (r: seq<byte>)
    requires |m| < MAX_OCTETS
    ensures WholeBlocksIn(|r|)
  {
    m + [0x80] + Zeros(ZeroCount(|m|)) + BeOctets(8 * |m|, 8)
  }

  function WordOctets(w: bv32): seq<byte> {
    [((w >> 24) & 0xFF) as byte, ((w >> 16) & 0xFF) as byte, ((w >> 8) & 0xFF) as byte, (w & 0xFF) as byte]
  }

  function DigestOf(v: Words): seq<byte> {
    WordOctets(v.a) + WordOctets(v.b) + WordOctets(v.c) + WordOctets(v.d)
    + WordOctets(v.e) + WordOctets(v.f) + WordOctets(v.g) + WordOctets(v.h)
  }

  function Digest(m: seq<byte>): seq<byte>
    requires |m| < MAX_OCTETS
  {
    DigestOf(Blocks(INITIAL, Padded(m)))
  }

  // --- Folding in parts ---------------------------------------------------------------------------

  lemma {:induction false} BlocksInParts(v: Words, a: seq<byte>, b: seq<byte>)
    requires WholeBlocksIn(|a|) && WholeBlocksIn(|b|)
    ensures WholeBlocksIn(|a + b|) && Blocks(v, a + b) == Blocks(Blocks(v, a), b)
    decreases |a|
  {
    hide Compress;
    if a == [] {
      assert a + b == b;
    } else {
      BlocksInParts(Compress(v, a[..BLOCK_SIZE]), a[BLOCK_SIZE..], b);
      assert (a + b)[..BLOCK_SIZE] == a[..BLOCK_SIZE] && (a + b)[BLOCK_SIZE..] == a[BLOCK_SIZE..] + b;
    }
  }

  /** One more block. */
  lemma BlocksOneMore(v: Words, a: seq<byte>, block: seq<byte>)
    requires WholeBlocksIn(|a|) && |block| == BLOCK_SIZE
    ensures WholeBlocksIn(|a + block|) && Blocks(v, a + block) == Compress(Blocks(v, a), block)
  {
    hide Compress;
    BlocksInParts(v, a, block);
    assert block[..BLOCK_SIZE] == block && block[BLOCK_SIZE..] == [];
  }

  // --- Piece by piece -----------------------------------------------------------------------------

  /** The order of the four summands does not matter. */
  lemma SumAround(p: bv32, q: bv32, r: bv32, s: bv32)
    ensures Sum4(p, q, r, s) == Sum4(s, r, q, p)
  {
  }

  /** The schedule, filled in from the block and then from itself. */
  method Schedule(block: seq<byte>) returns (schedule: array<bv32>)
    requires |block| == BLOCK_SIZE
    ensures fresh(schedule) && schedule.Length == 64 && forall k :: 0 <= k < 64 ==> schedule[k] == W(block, k)
  {
    hide SmallSigma0, SmallSigma1, Word, Sum4;
    schedule := new bv32[64];
    var i := 0;
    while i < 16
      invariant 0 <= i <= 16
      invariant forall k :: 0 <= k < i ==> schedule[k] == W(block, k)
    {
      schedule[i] := Word(block, 4 * i);
      i := i + 1;
    }
    while i < 64
      invariant 16 <= i <= 64
      invariant forall k :: 0 <= k < i ==> schedule[k] == W(block, k)
    {
      var s0, s1 := SmallSigma0(schedule[i - 15]), SmallSigma1(schedule[i - 2]);
      SumAround(schedule[i - 16], s0, schedule[i - 7], s1);
      schedule[i] := Sum4(schedule[i - 16], s0, schedule[i - 7], s1);
      i := i + 1;
    }
  }

  /** The rounds over eight working variables. */
  method RunRounds(v: Words, block: seq<byte>, schedule: array<bv32>) returns (r: Words)
    requires |block| == BLOCK_SIZE && schedule.Length == 64 && forall k :: 0 <= k < 64 ==> schedule[k] == W(block, k)
    ensures r == Rounds(v, block, 64)
  {
    hide BigSigma0, BigSigma1, Ch, Maj, W, Add;
    var a, b, c, d, e, f, g, h := v.a, v.b, v.c, v.d, v.e, v.f, v.g, v.h;
    var i := 0;
    while i < 64
      invariant 0 <= i <= 64
      invariant Words(a, b, c, d, e, f, g, h) == Rounds(v, block, i)
    {
      var sigma1 := BigSigma1(e);
      var choose := Ch(e, f, g);
      var temp1 := Add(Add(Add(Add(h, sigma1), choose), K[i]), schedule[i]);
      var sigma0 := BigSigma0(a);
      var majority := Maj(a, b, c);
      var temp2 := Add(sigma0, majority);
      h := g;
      g := f;
      f := e;
      e := Add(d, temp1);
      d := c;
      c := b;
      b := a;
      a := Add(temp1, temp2);
      i := i + 1;
    }
    r := Words(a, b, c, d, e, f, g, h);
  }

  class Hasher {
    var state: Words
    var length: nat
    var buffered: nat
    const buffer: array<byte>
    /** Everything hashed so far. */
    ghost var message: seq<byte>

    /** Whole blocks of `m` are in the state, the rest is in the buffer. */
    ghost predicate Holds(m: seq<byte>)
      reads `state, `buffered, buffer
    {
      && buffer.Length == BLOCK_SIZE && buffered < BLOCK_SIZE && buffered <= |m| && WholeBlocksIn(|m| - buffered)
      && buffer[..buffered] == m[|m| - buffered..]
      && state == Blocks(INITIAL, m[..|m| - buffered])
    }

    ghost predicate Valid()
      reads this, buffer
    {
      Holds(message) && length == |message|
    }

    constructor ()
      ensures Valid() && message == [] && fresh(buffer)
    {
      state, length, buffered, message := INITIAL, 0, 0, [];
      buffer := new byte[BLOCK_SIZE](k => 0);
    }

    method CompressBlock(block: seq<byte>)
      requires |block| == BLOCK_SIZE
      modifies this`state
      ensures state == Compress(old(state), block)
    {
      hide Rounds, W, Add;
      var schedule := Schedule(block);
      var v := RunRounds(state, block, schedule);
      state := Added(state, v);
    }

    /** Copies octets into the buffer at `at`. */
    method CopyIn(octets: seq<byte>, at: nat)
      requires at + |octets| <= buffer.Length
      modifies buffer
      ensures buffer[..at + |octets|] == old(buffer[..at]) + octets
    {
      var k := 0;
      while k < |octets|
        invariant 0 <= k <= |octets|
        invariant buffer[..at + k] == old(buffer[..at]) + octets[..k]
      {
        buffer[at + k] := octets[k];
        k := k + 1;
      }
      assert octets[..|octets|] == octets;
    }

    /** Compresses the full buffer behind `whole`. */
    method Flush(ghost whole: seq<byte>)
      requires buffer.Length == BLOCK_SIZE && WholeBlocksIn(|whole|) && state == Blocks(INITIAL, whole)
      modifies this`state, this`buffered
      ensures buffered == 0 && WholeBlocksIn(|whole + buffer[..]|) && state == Blocks(INITIAL, whole + buffer[..])
    {
      hide Blocks, Compress, WholeBlocksIn;
      CompressBlock(buffer[..]);
      BlocksOneMore(INITIAL, whole, buffer[..]);
      buffered := 0;
    }

    /** Fills the partial block up; if that completes it, it is compressed. */
    method TopUp(data: seq<byte>, ghost m: seq<byte>) returns (rest: seq<byte>)
      requires Holds(m) && buffered > 0
      modifies this`state, this`buffered, buffer
      ensures |rest| <= |data| && rest == data[|data| - |rest|..]
      ensures Holds(m + data[..|data| - |rest|]) && (buffered == 0 || rest == [])
    {
      hide Blocks, WholeBlocksIn, Holds;
      ghost var whole, tail := HoldsParts(m);
      var wanted := Min(BLOCK_SIZE - buffered, |data|);
      ghost var more := data[..wanted];
      CopyIn(data[..wanted], buffered);
      rest := data[wanted..];
      buffered := buffered + wanted;
      assert m + more == whole + (tail + more);
      if buffered == BLOCK_SIZE {
        assert buffer[..] == buffer[..BLOCK_SIZE] == tail + more;
        Flush(whole);
        assert whole + [] == whole;
        PartsHold(m + more, m + more, []);
      } else {
        PartsHold(m + more, whole, tail + more);
      }
    }

    lemma HoldsParts(m: seq<byte>) returns (whole: seq<byte>, tail: seq<byte>)
      requires Holds(m)
      ensures buffer.Length == BLOCK_SIZE && |tail| == buffered < BLOCK_SIZE && m == whole + tail
              && buffer[..buffered] == tail
      ensures WholeBlocksIn(|whole|) && state == Blocks(INITIAL, whole)
    {
      hide Blocks, WholeBlocksIn;
      whole, tail := m[..|m| - buffered], m[|m| - buffered..];
    }

    lemma PartsHold(m: seq<byte>, whole: seq<byte>, tail: seq<byte>)
      requires buffer.Length == BLOCK_SIZE && |tail| == buffered < BLOCK_SIZE && m == whole + tail
               && buffer[..buffered] == tail
      requires WholeBlocksIn(|whole|) && state == Blocks(INITIAL, whole)
      ensures Holds(m)
    {
      hide Blocks, WholeBlocksIn;
      assert m[..|m| - buffered] == whole && m[|m| - buffered..] == tail;
    }

    /** Compresses whole blocks straight from the data and keeps the rest. */
    method WholeBlocks(data: seq<byte>, ghost m: seq<byte>)
      requires Holds(m) && buffered == 0
      modifies this`state, this`buffered, buffer
      ensures Holds(m + data)
    {
      hide Blocks, Compress, WholeBlocksIn;
      var rest := data;
      ghost var done := m;
      assert m[..|m|] == m;
      while |rest| >= BLOCK_SIZE
        invariant buffered == 0 && WholeBlocksIn(|done|) && done + rest == m + data
        invariant state == Blocks(INITIAL, done)
      {
        ghost var block := rest[..BLOCK_SIZE];
        CompressBlock(rest[..BLOCK_SIZE]);
        BlocksOneMore(INITIAL, done, block);
        assert done + rest == (done + block) + rest[BLOCK_SIZE..];
        done := done + block;
        rest := rest[BLOCK_SIZE..];
      }
      CopyIn(rest, 0);
      buffered := |rest|;
      assert (m + data)[..|m + data| - buffered] == done && (m + data)[|m + data| - buffered..] == rest;
      assert buffer[..buffered] == [] + rest == rest;
    }

    /** Hashes more of the message, whatever the piece's size. */
    method Update(data: seq<byte>)
      requires Valid()
      modifies this, buffer
      ensures Valid() && message == old(message) + data
    {
      hide Holds;
      ghost var m := message;
      var rest := data;
      length := length + |data|;
      if buffered != 0 {
        rest := TopUp(data, m);
        m := m + data[..|data| - |rest|];
      }
      assert m + rest == message + data;
      if buffered == 0 {
        WholeBlocks(rest, m);
      } else {
        assert m + [] == m;
      }
      message := message + data;
    }

    /** Clears the buffer between two places. */
    method Clear(from: nat, to: nat)
      requires from <= to <= buffer.Length
      modifies buffer
      ensures buffer[..] == old(buffer[..from]) + Zeros(to - from) + old(buffer[to..])
    {
      var k := from;
      while k < to
        invariant from <= k <= to
        invariant forall i :: 0 <= i < buffer.Length ==> buffer[i] == if from <= i < k then 0 else old(buffer[i])
      {
        buffer[k] := 0;
        k := k + 1;
      }
    }

    /** The block that ends with the length: what the buffer holds, zeros, and the bit length. */
    method LastBlock(bits: nat)
      requires buffer.Length == BLOCK_SIZE && buffered <= 56 && bits < 0x1_0000_0000_0000_0000
      modifies buffer
      ensures buffer[..] == old(buffer[..buffered]) + Zeros(56 - buffered) + BeOctets(bits, 8)
    {
      hide BeOctets;
      Clear(buffered, 56);
      ghost var front := buffer[..56];
      var high, low := BeOctets(bits / 0x1_0000_0000, 4), BeOctets(bits % 0x1_0000_0000, 4);
      assert Pow256(4) == 0x1_0000_0000;
      BeSplit(bits, bits / 0x1_0000_0000, bits % 0x1_0000_0000, 4, 4);
      CopyIn(high, 56);
      CopyIn(low, 60);
      assert buffer[..64] == buffer[..];
      assert buffer[..] == front + (high + low);
    }

    /** Pads as section 5.1.1 says, in one block or two, and reads the digest off the state. */
    method Finish() returns (digest: seq<byte>)
      requires Valid() && |message| < MAX_OCTETS
      modifies this`state, this`buffered, buffer
      ensures digest == Digest(message)
    {
      hide Blocks, Compress, DigestOf, BeOctets, Padded, Zeros, ZeroCount, WholeBlocksIn;
      var bits := length * 8;
      ghost var whole, tail := message[..|message| - buffered], message[|message| - buffered..];
      PaddingFits(message, whole, tail);
      buffer[buffered] := 0x80;
      assert buffer[..buffered + 1] == tail + [0x80];
      buffered := buffered + 1;
      if buffered > BLOCK_SIZE - 8 {
        Clear(buffered, BLOCK_SIZE);
        assert buffer[..] == tail + [0x80] + Zeros(BLOCK_SIZE - 1 - |tail|);
        Flush(whole);
        whole := whole + buffer[..];
      }
      LastBlock(bits);
      assert Padded(message) == whole + buffer[..];
      Flush(whole);
      digest := DigestOf(state);
    }
  }

  /** Where the padding's zeros go: into the last block, or around the boundary before it. */
  lemma PaddingFits(m: seq<byte>, whole: seq<byte>, tail: seq<byte>)
    requires |m| < MAX_OCTETS && m == whole + tail && WholeBlocksIn(|whole|) && |tail| < BLOCK_SIZE
    ensures |tail| + 1 <= 56 ==> Padded(m) == whole + (tail + [0x80] + Zeros(55 - |tail|) + BeOctets(8 * |m|, 8))
    ensures |tail| + 1 > 56 ==>
              Padded(m) == (whole + (tail + [0x80] + Zeros(63 - |tail|))) + ([] + Zeros(56) + BeOctets(8 * |m|, 8))
  {
    hide BeOctets, ZeroCount, Zeros, Padded, WholeBlocksIn;
    TailSize(|whole|, |tail|);
    ZeroCountIs(|m|, |tail|);
    PaddedIs(m);
    var length := BeOctets(8 * |m|, 8);
    if |tail| + 1 <= 56 {
      InOneBlock(whole, tail, Zeros(55 - |tail|), length);
    } else {
      ZerosSplit(63 - |tail|, 56);
      InTwoBlocks(whole, tail, Zeros(63 - |tail|), Zeros(56), length);
    }
  }

  lemma PaddedIs(m: seq<byte>)
    requires |m| < MAX_OCTETS
    ensures Padded(m) == m + [0x80] + Zeros(ZeroCount(|m|)) + BeOctets(8 * |m|, 8)
  {
    hide BeOctets, ZeroCount, Zeros;
  }

  lemma InOneBlock(whole: seq<byte>, tail: seq<byte>, zeros: seq<byte>, length: seq<byte>)
    ensures whole + tail + [0x80] + zeros + length == whole + (tail + [0x80] + zeros + length)
  {
  }

  lemma InTwoBlocks(whole: seq<byte>, tail: seq<byte>, first: seq<byte>, second: seq<byte>, length: seq<byte>)
    ensures whole + tail + [0x80] + (first + second) + length
            == (whole + (tail + [0x80] + first)) + ([] + second + length)
  {
  }

  lemma TailSize(whole: nat, tail: nat)
    requires WholeBlocksIn(whole) && tail < BLOCK_SIZE
    ensures (whole + tail) % BLOCK_SIZE == tail
  {
  }

  lemma ZeroCountIs(length: nat, tail: nat)
    requires length % BLOCK_SIZE == tail
    ensures ZeroCount(length) == if tail <= 55 then 55 - tail else 63 - tail + 56
  {
  }

  lemma ZerosSplit(a: nat, b: nat)
    ensures Zeros(a + b) == Zeros(a) + Zeros(b)
  {
  }

  /** However a message is split into updates, the digest is that of the whole message. */
  method HashPieces(pieces: seq<seq<byte>>) returns (digest: seq<byte>)
    requires |Concat(pieces)| < MAX_OCTETS
    ensures digest == Digest(Concat(pieces))
  {
    hide Digest, Concat, Blocks;
    var hasher := new Hasher();
    ConcatNothing();
    var i := 0;
    assert pieces[..0] == [];
    while i < |pieces|
      invariant 0 <= i <= |pieces| && hasher.Valid() && fresh(hasher) && fresh(hasher.buffer)
      invariant hasher.message == Concat(pieces[..i])
    {
      hasher.Update(pieces[i]);
      assert pieces[..i + 1] == pieces[..i] + [pieces[i]];
      ConcatOneMore(pieces[..i], pieces[i]);
      i := i + 1;
    }
    assert pieces[..|pieces|] == pieces;
    digest := hasher.Finish();
  }

  lemma ConcatNothing()
    ensures Concat([]) == []
  {
  }
}
