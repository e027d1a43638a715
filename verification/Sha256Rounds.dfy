/** SHA-256 four rounds at a time: what takes one state to the next, as conditions on words alone. */
module Sha256Rounds {
  import opened Common
  import opened Sha256

  datatype Quad = Quad(p: bv32, q: bv32, r: bv32, s: bv32)

  predicate OneRound(a: bv32, b: bv32, c: bv32, d: bv32, e: bv32, f: bv32, g: bv32, h: bv32, k: bv32, w: bv32,
                     newA: bv32, newE: bv32) {
    var t1 := Add(Add(Add(Add(h, BigSigma1(e)), Ch(e, f, g)), k), w);
    Add(d, t1) == newE && Add(t1, Add(BigSigma0(a), Maj(a, b, c))) == newA
  }

  /** The four new values of `a` and of `e` are all of the next state. */
  predicate FourRounds(v: Words, k: Quad, w: Quad, next: Words) {
    && OneRound(v.a, v.b, v.c, v.d, v.e, v.f, v.g, v.h, k.p, w.p, next.d, next.h)
    && OneRound(next.d, v.a, v.b, v.c, next.h, v.e, v.f, v.g, k.q, w.q, next.c, next.g)
    && OneRound(next.c, next.d, v.a, v.b, next.g, next.h, v.e, v.f, k.r, w.r, next.b, next.f)
    && OneRound(next.b, next.c, next.d, v.a, next.f, next.g, next.h, v.e, k.s, w.s, next.a, next.e)
  }

  predicate OneWord(w16: bv32, w15: bv32, w7: bv32, w2: bv32, w: bv32) {
    Sum4(SmallSigma1(w2), w7, SmallSigma0(w15), w16) == w
  }

  /** The next four words of the schedule, from the sixteen before them. */
  predicate FourWords(a: Quad, b: Quad, c: Quad, d: Quad, next: Quad) {
    && OneWord(a.p, a.q, c.q, d.r, next.p)
    && OneWord(a.q, a.r, c.r, d.s, next.q)
    && OneWord(a.r, a.s, c.s, next.p, next.r)
    && OneWord(a.s, b.p, d.p, next.q, next.s)
  }

  function KQuad(t: nat): Quad
    requires t <= 60
  {
    Quad(K[t], K[t + 1], K[t + 2], K[t + 3])
  }

  function WQuad(block: seq<byte>, t: nat): Quad
    requires |block| == BLOCK_SIZE && t <= 60
  {
    Quad(W(block, t), W(block, t + 1), W(block, t + 2), W(block, t + 3))
  }

  lemma RoundsCompose(v: Words, k: Quad, w: Quad, next: Words)
    requires FourRounds(v, k, w, next)
    ensures Round(Round(Round(Round(v, k.p, w.p), k.q, w.q), k.r, w.r), k.s, w.s) == next
  {
    hide Add, BigSigma0, BigSigma1, Ch, Maj;
  }

  lemma RoundsAdvance(v: Words, block: seq<byte>, t: nat, next: Words)
    requires |block| == BLOCK_SIZE && t <= 60
    requires FourRounds(Rounds(v, block, t), KQuad(t), WQuad(block, t), next)
    ensures Rounds(v, block, t + 4) == next
  {
    hide Round, FourRounds, W;
    RoundsCompose(Rounds(v, block, t), KQuad(t), WQuad(block, t), next);
    assert Rounds(v, block, t + 2) == Round(Rounds(v, block, t + 1), K[t + 1], W(block, t + 1));
    assert Rounds(v, block, t + 3) == Round(Rounds(v, block, t + 2), K[t + 2], W(block, t + 2));
  }

  lemma ScheduleAdvance(block: seq<byte>, t: nat, next: Quad)
    requires |block| == BLOCK_SIZE && 16 <= t <= 60
    requires FourWords(WQuad(block, t - 16), WQuad(block, t - 12), WQuad(block, t - 8), WQuad(block, t - 4), next)
    ensures WQuad(block, t) == next
  {
    hide SmallSigma0, SmallSigma1, Sum4, Word;
    assert W(block, t) == next.p;
    assert W(block, t + 1) == next.q;
    assert W(block, t + 2) == next.r;
  }

  lemma NoRounds(v: Words, block: seq<byte>)
    requires |block| == BLOCK_SIZE
    ensures Rounds(v, block, 0) == v
  {
  }
}
