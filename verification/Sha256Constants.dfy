/**
  SHA-256 against the text of FIPS 180-4: what its logical functions do to each bit, and its constants as
  the roots of primes they are said to be.
 */
module Sha256Constants {
  import opened Sha256

  // --- Bit by bit ---------------------------------------------------------------------------------

  /** The same wherever `m` has a one. */
  predicate Agree(x: bv32, y: bv32, m: bv32) {
    x & m == y & m
  }

  /** Where `x` has ones the choice is `y`, and where it has zeros, `z`. */
  lemma ChoiceByBits(x: bv32, y: bv32, z: bv32, m: bv32)
    ensures Agree(x, 0xFFFF_FFFF, m) ==> Agree(Ch(x, y, z), y, m)
    ensures Agree(x, 0, m) ==> Agree(Ch(x, y, z), z, m)
  {
  }

  lemma MajorityOfEqual(x: bv32, y: bv32, z: bv32, m: bv32)
    requires Agree(x, y, m)
    ensures Agree(Maj(x, y, z), x, m)
  {
  }

  lemma MajorityTurns(x: bv32, y: bv32, z: bv32)
    ensures Maj(x, y, z) == Maj(y, z, x)
  {
  }

  /** Where two of the three are the same, the majority is what they are. */
  lemma MajorityByBits(x: bv32, y: bv32, z: bv32, m: bv32)
    ensures Agree(x, y, m) ==> Agree(Maj(x, y, z), x, m)
    ensures Agree(y, z, m) ==> Agree(Maj(x, y, z), y, m)
    ensures Agree(z, x, m) ==> Agree(Maj(x, y, z), z, m)
  {
    hide Maj, Agree;
    MajorityTurns(x, y, z);
    MajorityTurns(y, z, x);
    if Agree(x, y, m) {
      MajorityOfEqual(x, y, z, m);
    }
    if Agree(y, z, m) {
      MajorityOfEqual(y, z, x, m);
    }
    if Agree(z, x, m) {
      MajorityOfEqual(z, x, y, m);
    }
  }

  // --- The primes ---------------------------------------------------------------------------------

  predicate Divides(d: nat, n: nat)
    requires d > 0
  {
    n % d == 0
  }

  predicate IsPrime(n: nat) {
    n >= 2 && forall d :: 2 <= d < n ==> !Divides(d, n)
  }

  const ROW0: seq<nat> := [2, 3, 5, 7, 11, 13, 17, 19]
  const ROW1: seq<nat> := [23, 29, 31, 37, 41, 43, 47, 53]
  const ROW2: seq<nat> := [59, 61, 67, 71, 73, 79, 83, 89]
  const ROW3: seq<nat> := [97, 101, 103, 107, 109, 113, 127, 131]
  const ROW4: seq<nat> := [137, 139, 149, 151, 157, 163, 167, 173]
  const ROW5: seq<nat> := [179, 181, 191, 193, 197, 199, 211, 223]
  const ROW6: seq<nat> := [227, 229, 233, 239, 241, 251, 257, 263]
  const ROW7: seq<nat> := [269, 271, 277, 281, 283, 293, 307, 311]
  const PRIMES: seq<nat> := ROW0 + ROW1 + ROW2 + ROW3 + ROW4 + ROW5 + ROW6 + ROW7

  /** Divisible by none of the primes below 18, unless it is one of them. */
  predicate Sifted(n: nat) {
    && (n % 2 == 0 ==> n == 2) && (n % 3 == 0 ==> n == 3) && (n % 5 == 0 ==> n == 5) && (n % 7 == 0 ==> n == 7)
    && (n % 11 == 0 ==> n == 11) && (n % 13 == 0 ==> n == 13) && (n % 17 == 0 ==> n == 17)
  }

  /** Below 18 squared that is enough. */
  lemma SiftedIsPrime(n: nat)
    requires 2 <= n < 324
    ensures Sifted(n) <==> IsPrime(n)
  {
    if Sifted(n) && !IsPrime(n) {
      var d :| 2 <= d < n && Divides(d, n);
      SmallFactor(n, d, n / d);
    }
    if IsPrime(n) {
      assert !(2 < n && Divides(2, n)) && !(3 < n && Divides(3, n)) && !(5 < n && Divides(5, n));
      assert !(7 < n && Divides(7, n)) && !(11 < n && Divides(11, n)) && !(13 < n && Divides(13, n));
      assert !(17 < n && Divides(17, n));
    }
  }

  lemma SmallFactor(n: nat, d: nat, e: nat)
    requires 2 <= n < 324 && 2 <= d < n && n == d * e
    ensures !Sifted(n)
  {
    if d < 18 {
      FactorShows(n, d, e);
    } else {
      assert e < 18;
      assert 2 <= e;
      FactorShows(n, e, d);
    }
  }

  lemma FactorShows(n: nat, d: nat, e: nat)
    requires 2 <= d < 18 && d < n && n == d * e
    ensures !Sifted(n)
  {
    hide Sifted;
    if d % 2 == 0 {
      assert n == 2 * (d / 2 * e);
      Multiples(d / 2 * e);
    } else if d % 3 == 0 {
      assert n == 3 * (d / 3 * e);
      Multiples(d / 3 * e);
    } else {
      assert d == 5 || d == 7 || d == 11 || d == 13 || d == 17;
      Multiples(e);
    }
  }

  lemma Multiples(k: nat)
    requires k >= 2
    ensures !Sifted(2 * k) && !Sifted(3 * k) && !Sifted(5 * k) && !Sifted(7 * k)
    ensures !Sifted(11 * k) && !Sifted(13 * k) && !Sifted(17 * k)
  {
    assert 2 * k % 2 == 0;
    assert 3 * k % 3 == 0;
    assert 5 * k % 5 == 0;
    assert 7 * k % 7 == 0;
    assert 11 * k % 11 == 0;
    assert 13 * k % 13 == 0;
    assert 17 * k % 17 == 0;
  }

  lemma Row0a(n: nat)
    requires 2 <= n <= 10
    ensures Sifted(n) <==> n in ROW0
  {
    assert n == 2 || n == 3 || n == 4 || n == 5 || n == 6 || n == 7 || n == 8 || n == 9 || n == 10;
  }

  lemma Row0b(n: nat)
    requires 11 <= n <= 19
    ensures Sifted(n) <==> n in ROW0
  {
    assert n == 11 || n == 12 || n == 13 || n == 14 || n == 15 || n == 16 || n == 17 || n == 18 || n == 19;
  }

  lemma Row1a(n: nat)
    requires 20 <= n <= 36
    ensures Sifted(n) <==> n in ROW1
  {
    assert n == 20 || n == 21 || n == 22 || n == 23 || n == 24 || n == 25 || n == 26 || n == 27 || n == 28 ||
      n == 29 || n == 30 || n == 31 || n == 32 || n == 33 || n == 34 || n == 35 || n == 36;
  }

  lemma Row1b(n: nat)
    requires 37 <= n <= 53
    ensures Sifted(n) <==> n in ROW1
  {
    assert n == 37 || n == 38 || n == 39 || n == 40 || n == 41 || n == 42 || n == 43 || n == 44 || n == 45 ||
      n == 46 || n == 47 || n == 48 || n == 49 || n == 50 || n == 51 || n == 52 || n == 53;
  }

  lemma Row2a(n: nat)
    requires 54 <= n <= 71
    ensures Sifted(n) <==> n in ROW2
  {
    assert n == 54 || n == 55 || n == 56 || n == 57 || n == 58 || n == 59 || n == 60 || n == 61 || n == 62 ||
      n == 63 || n == 64 || n == 65 || n == 66 || n == 67 || n == 68 || n == 69 || n == 70 || n == 71;
  }

  lemma Row2b(n: nat)
    requires 72 <= n <= 89
    ensures Sifted(n) <==> n in ROW2
  {
    assert n == 72 || n == 73 || n == 74 || n == 75 || n == 76 || n == 77 || n == 78 || n == 79 || n == 80 ||
      n == 81 || n == 82 || n == 83 || n == 84 || n == 85 || n == 86 || n == 87 || n == 88 || n == 89;
  }

  lemma Row3a(n: nat)
    requires 90 <= n <= 110
    ensures Sifted(n) <==> n in ROW3
  {
    assert n == 90 || n == 91 || n == 92 || n == 93 || n == 94 || n == 95 || n == 96 || n == 97 || n == 98 ||
      n == 99 || n == 100 || n == 101 || n == 102 || n == 103 || n == 104 || n == 105 || n == 106 || n == 107 ||
      n == 108 || n == 109 || n == 110;
  }

  lemma Row3b(n: nat)
    requires 111 <= n <= 131
    ensures Sifted(n) <==> n in ROW3
  {
    assert n == 111 || n == 112 || n == 113 || n == 114 || n == 115 || n == 116 || n == 117 || n == 118 ||
      n == 119 || n == 120 || n == 121 || n == 122 || n == 123 || n == 124 || n == 125 || n == 126 || n == 127 ||
      n == 128 || n == 129 || n == 130 || n == 131;
  }

  lemma Row4a(n: nat)
    requires 132 <= n <= 152
    ensures Sifted(n) <==> n in ROW4
  {
    assert n == 132 || n == 133 || n == 134 || n == 135 || n == 136 || n == 137 || n == 138 || n == 139 ||
      n == 140 || n == 141 || n == 142 || n == 143 || n == 144 || n == 145 || n == 146 || n == 147 || n == 148 ||
      n == 149 || n == 150 || n == 151 || n == 152;
  }

  lemma Row4b(n: nat)
    requires 153 <= n <= 173
    ensures Sifted(n) <==> n in ROW4
  {
    assert n == 153 || n == 154 || n == 155 || n == 156 || n == 157 || n == 158 || n == 159 || n == 160 ||
      n == 161 || n == 162 || n == 163 || n == 164 || n == 165 || n == 166 || n == 167 || n == 168 || n == 169 ||
      n == 170 || n == 171 || n == 172 || n == 173;
  }

  lemma Row5a(n: nat)
    requires 174 <= n <= 198
    ensures Sifted(n) <==> n in ROW5
  {
    assert n == 174 || n == 175 || n == 176 || n == 177 || n == 178 || n == 179 || n == 180 || n == 181 ||
      n == 182 || n == 183 || n == 184 || n == 185 || n == 186 || n == 187 || n == 188 || n == 189 || n == 190 ||
      n == 191 || n == 192 || n == 193 || n == 194 || n == 195 || n == 196 || n == 197 || n == 198;
  }

  lemma Row5b(n: nat)
    requires 199 <= n <= 223
    ensures Sifted(n) <==> n in ROW5
  {
    assert n == 199 || n == 200 || n == 201 || n == 202 || n == 203 || n == 204 || n == 205 || n == 206 ||
      n == 207 || n == 208 || n == 209 || n == 210 || n == 211 || n == 212 || n == 213 || n == 214 || n == 215 ||
      n == 216 || n == 217 || n == 218 || n == 219 || n == 220 || n == 221 || n == 222 || n == 223;
  }

  lemma Row6a(n: nat)
    requires 224 <= n <= 243
    ensures Sifted(n) <==> n in ROW6
  {
    assert n == 224 || n == 225 || n == 226 || n == 227 || n == 228 || n == 229 || n == 230 || n == 231 ||
      n == 232 || n == 233 || n == 234 || n == 235 || n == 236 || n == 237 || n == 238 || n == 239 || n == 240 ||
      n == 241 || n == 242 || n == 243;
  }

  lemma Row6b(n: nat)
    requires 244 <= n <= 263
    ensures Sifted(n) <==> n in ROW6
  {
    assert n == 244 || n == 245 || n == 246 || n == 247 || n == 248 || n == 249 || n == 250 || n == 251 ||
      n == 252 || n == 253 || n == 254 || n == 255 || n == 256 || n == 257 || n == 258 || n == 259 || n == 260 ||
      n == 261 || n == 262 || n == 263;
  }

  lemma Row7a(n: nat)
    requires 264 <= n <= 287
    ensures Sifted(n) <==> n in ROW7
  {
    assert n == 264 || n == 265 || n == 266 || n == 267 || n == 268 || n == 269 || n == 270 || n == 271 ||
      n == 272 || n == 273 || n == 274 || n == 275 || n == 276 || n == 277 || n == 278 || n == 279 || n == 280 ||
      n == 281 || n == 282 || n == 283 || n == 284 || n == 285 || n == 286 || n == 287;
  }

  lemma Row7b(n: nat)
    requires 288 <= n <= 311
    ensures Sifted(n) <==> n in ROW7
  {
    assert n == 288 || n == 289 || n == 290 || n == 291 || n == 292 || n == 293 || n == 294 || n == 295 ||
      n == 296 || n == 297 || n == 298 || n == 299 || n == 300 || n == 301 || n == 302 || n == 303 || n == 304 ||
      n == 305 || n == 306 || n == 307 || n == 308 || n == 309 || n == 310 || n == 311;
  }

  lemma RowsApart(n: nat)
    ensures n in ROW0 ==> 2 <= n <= 19
    ensures n in ROW1 ==> 20 <= n <= 53
    ensures n in ROW2 ==> 54 <= n <= 89
    ensures n in ROW3 ==> 90 <= n <= 131
    ensures n in ROW4 ==> 132 <= n <= 173
    ensures n in ROW5 ==> 174 <= n <= 223
    ensures n in ROW6 ==> 224 <= n <= 263
    ensures n in ROW7 ==> 264 <= n <= 311
  {
  }

  lemma InSomeRow(n: nat)
    ensures n in PRIMES <==>
            n in ROW0 || n in ROW1 || n in ROW2 || n in ROW3 || n in ROW4 || n in ROW5 || n in ROW6 || n in ROW7
  {
  }

  lemma RowChosen(n: nat)
    requires 2 <= n <= 311
    ensures Sifted(n) <==> n in PRIMES
  {
    hide Sifted;
    RowsApart(n);
    InSomeRow(n);
    if n <= 10 {
      Row0a(n);
    } else if n <= 19 {
      Row0b(n);
    } else if n <= 36 {
      Row1a(n);
    } else if n <= 53 {
      Row1b(n);
    } else if n <= 71 {
      Row2a(n);
    } else if n <= 89 {
      Row2b(n);
    } else if n <= 110 {
      Row3a(n);
    } else if n <= 131 {
      Row3b(n);
    } else if n <= 152 {
      Row4a(n);
    } else if n <= 173 {
      Row4b(n);
    } else if n <= 198 {
      Row5a(n);
    } else if n <= 223 {
      Row5b(n);
    } else if n <= 243 {
      Row6a(n);
    } else if n <= 263 {
      Row6b(n);
    } else if n <= 287 {
      Row7a(n);
    } else {
      Row7b(n);
    }
  }

  /** The list holds the first 64 primes. */
  lemma PrimesListed(n: nat)
    ensures n in PRIMES <==> IsPrime(n) && n <= 311
  {
    hide Sifted;
    if 2 <= n <= 311 {
      SiftedIsPrime(n);
      RowChosen(n);
    } else {
      RowsApart(n);
      InSomeRow(n);
    }
  }

  // --- The constants ------------------------------------------------------------------------------

  const WORD := 0x1_0000_0000

  function Square(n: int): int {
    n * n
  }

  function Cube(n: int): int {
    n * n * n
  }

  /** `whole` and the 32 binary digits of `word` behind the point are the cube root of `p`, rounded down. */
  predicate CubeRoot(p: nat, whole: nat, word: bv32) {
    Cube(whole * WORD + word as int) <= p * Cube(WORD) < Cube(whole * WORD + word as int + 1)
  }

  /** The word holds the first 32 fractional bits of the cube root of `p`. */
  ghost predicate CubeFraction(p: nat, word: bv32) {
    exists whole :: CubeRoot(p, whole, word)
  }

  /** `whole` and `word` are the square root. */
  predicate SquareRoot(p: nat, whole: nat, word: bv32) {
    Square(whole * WORD + word as int) <= p * Square(WORD) < Square(whole * WORD + word as int + 1)
  }

  lemma Roots0(j: nat)
    requires j < 8
    ensures CubeFraction(ROW0[j], K_ROW0[j])
  {
    assert CubeFraction(2, 0x428A2F98) by {
      assert CubeRoot(2, 1, 0x428A2F98);
    }
    assert CubeFraction(3, 0x71374491) by {
      assert CubeRoot(3, 1, 0x71374491);
    }
    assert CubeFraction(5, 0xB5C0FBCF) by {
      assert CubeRoot(5, 1, 0xB5C0FBCF);
    }
    assert CubeFraction(7, 0xE9B5DBA5) by {
      assert CubeRoot(7, 1, 0xE9B5DBA5);
    }
    assert CubeFraction(11, 0x3956C25B) by {
      assert CubeRoot(11, 2, 0x3956C25B);
    }
    assert CubeFraction(13, 0x59F111F1) by {
      assert CubeRoot(13, 2, 0x59F111F1);
    }
    assert CubeFraction(17, 0x923F82A4) by {
      assert CubeRoot(17, 2, 0x923F82A4);
    }
    assert CubeFraction(19, 0xAB1C5ED5) by {
      assert CubeRoot(19, 2, 0xAB1C5ED5);
    }
    hide CubeFraction;
    assert j == 0 || j == 1 || j == 2 || j == 3 || j == 4 || j == 5 || j == 6 || j == 7;
  }

  lemma Roots1(j: nat)
    requires j < 8
    ensures CubeFraction(ROW1[j], K_ROW1[j])
  {
    assert CubeFraction(23, 0xD807AA98) by {
      assert CubeRoot(23, 2, 0xD807AA98);
    }
    assert CubeFraction(29, 0x12835B01) by {
      assert CubeRoot(29, 3, 0x12835B01);
    }
    assert CubeFraction(31, 0x243185BE) by {
      assert CubeRoot(31, 3, 0x243185BE);
    }
    assert CubeFraction(37, 0x550C7DC3) by {
      assert CubeRoot(37, 3, 0x550C7DC3);
    }
    assert CubeFraction(41, 0x72BE5D74) by {
      assert CubeRoot(41, 3, 0x72BE5D74);
    }
    assert CubeFraction(43, 0x80DEB1FE) by {
      assert CubeRoot(43, 3, 0x80DEB1FE);
    }
    assert CubeFraction(47, 0x9BDC06A7) by {
      assert CubeRoot(47, 3, 0x9BDC06A7);
    }
    assert CubeFraction(53, 0xC19BF174) by {
      assert CubeRoot(53, 3, 0xC19BF174);
    }
    hide CubeFraction;
    assert j == 0 || j == 1 || j == 2 || j == 3 || j == 4 || j == 5 || j == 6 || j == 7;
  }

  lemma Roots2(j: nat)
    requires j < 8
    ensures CubeFraction(ROW2[j], K_ROW2[j])
  {
    assert CubeFraction(59, 0xE49B69C1) by {
      assert CubeRoot(59, 3, 0xE49B69C1);
    }
    assert CubeFraction(61, 0xEFBE4786) by {
      assert CubeRoot(61, 3, 0xEFBE4786);
    }
    assert CubeFraction(67, 0x0FC19DC6) by {
      assert CubeRoot(67, 4, 0x0FC19DC6);
    }
    assert CubeFraction(71, 0x240CA1CC) by {
      assert CubeRoot(71, 4, 0x240CA1CC);
    }
    assert CubeFraction(73, 0x2DE92C6F) by {
      assert CubeRoot(73, 4, 0x2DE92C6F);
    }
    assert CubeFraction(79, 0x4A7484AA) by {
      assert CubeRoot(79, 4, 0x4A7484AA);
    }
    assert CubeFraction(83, 0x5CB0A9DC) by {
      assert CubeRoot(83, 4, 0x5CB0A9DC);
    }
    assert CubeFraction(89, 0x76F988DA) by {
      assert CubeRoot(89, 4, 0x76F988DA);
    }
    hide CubeFraction;
    assert j == 0 || j == 1 || j == 2 || j == 3 || j == 4 || j == 5 || j == 6 || j == 7;
  }

  lemma Roots3(j: nat)
    requires j < 8
    ensures CubeFraction(ROW3[j], K_ROW3[j])
  {
    assert CubeFraction(97, 0x983E5152) by {
      assert CubeRoot(97, 4, 0x983E5152);
    }
    assert CubeFraction(101, 0xA831C66D) by {
      assert CubeRoot(101, 4, 0xA831C66D);
    }
    assert CubeFraction(103, 0xB00327C8) by {
      assert CubeRoot(103, 4, 0xB00327C8);
    }
    assert CubeFraction(107, 0xBF597FC7) by {
      assert CubeRoot(107, 4, 0xBF597FC7);
    }
    assert CubeFraction(109, 0xC6E00BF3) by {
      assert CubeRoot(109, 4, 0xC6E00BF3);
    }
    assert CubeFraction(113, 0xD5A79147) by {
      assert CubeRoot(113, 4, 0xD5A79147);
    }
    assert CubeFraction(127, 0x06CA6351) by {
      assert CubeRoot(127, 5, 0x06CA6351);
    }
    assert CubeFraction(131, 0x14292967) by {
      assert CubeRoot(131, 5, 0x14292967);
    }
    hide CubeFraction;
    assert j == 0 || j == 1 || j == 2 || j == 3 || j == 4 || j == 5 || j == 6 || j == 7;
  }

  lemma Roots4(j: nat)
    requires j < 8
    ensures CubeFraction(ROW4[j], K_ROW4[j])
  {
    assert CubeFraction(137, 0x27B70A85) by {
      assert CubeRoot(137, 5, 0x27B70A85);
    }
    assert CubeFraction(139, 0x2E1B2138) by {
      assert CubeRoot(139, 5, 0x2E1B2138);
    }
    assert CubeFraction(149, 0x4D2C6DFC) by {
      assert CubeRoot(149, 5, 0x4D2C6DFC);
    }
    assert CubeFraction(151, 0x53380D13) by {
      assert CubeRoot(151, 5, 0x53380D13);
    }
    assert CubeFraction(157, 0x650A7354) by {
      assert CubeRoot(157, 5, 0x650A7354);
    }
    assert CubeFraction(163, 0x766A0ABB) by {
      assert CubeRoot(163, 5, 0x766A0ABB);
    }
    assert CubeFraction(167, 0x81C2C92E) by {
      assert CubeRoot(167, 5, 0x81C2C92E);
    }
    assert CubeFraction(173, 0x92722C85) by {
      assert CubeRoot(173, 5, 0x92722C85);
    }
    hide CubeFraction;
    assert j == 0 || j == 1 || j == 2 || j == 3 || j == 4 || j == 5 || j == 6 || j == 7;
  }

  lemma Roots5(j: nat)
    requires j < 8
    ensures CubeFraction(ROW5[j], K_ROW5[j])
  {
    assert CubeFraction(179, 0xA2BFE8A1) by {
      assert CubeRoot(179, 5, 0xA2BFE8A1);
    }
    assert CubeFraction(181, 0xA81A664B) by {
      assert CubeRoot(181, 5, 0xA81A664B);
    }
    assert CubeFraction(191, 0xC24B8B70) by {
      assert CubeRoot(191, 5, 0xC24B8B70);
    }
    assert CubeFraction(193, 0xC76C51A3) by {
      assert CubeRoot(193, 5, 0xC76C51A3);
    }
    assert CubeFraction(197, 0xD192E819) by {
      assert CubeRoot(197, 5, 0xD192E819);
    }
    assert CubeFraction(199, 0xD6990624) by {
      assert CubeRoot(199, 5, 0xD6990624);
    }
    assert CubeFraction(211, 0xF40E3585) by {
      assert CubeRoot(211, 5, 0xF40E3585);
    }
    assert CubeFraction(223, 0x106AA070) by {
      assert CubeRoot(223, 6, 0x106AA070);
    }
    hide CubeFraction;
    assert j == 0 || j == 1 || j == 2 || j == 3 || j == 4 || j == 5 || j == 6 || j == 7;
  }

  lemma Roots6(j: nat)
    requires j < 8
    ensures CubeFraction(ROW6[j], K_ROW6[j])
  {
    assert CubeFraction(227, 0x19A4C116) by {
      assert CubeRoot(227, 6, 0x19A4C116);
    }
    assert CubeFraction(229, 0x1E376C08) by {
      assert CubeRoot(229, 6, 0x1E376C08);
    }
    assert CubeFraction(233, 0x2748774C) by {
      assert CubeRoot(233, 6, 0x2748774C);
    }
    assert CubeFraction(239, 0x34B0BCB5) by {
      assert CubeRoot(239, 6, 0x34B0BCB5);
    }
    assert CubeFraction(241, 0x391C0CB3) by {
      assert CubeRoot(241, 6, 0x391C0CB3);
    }
    assert CubeFraction(251, 0x4ED8AA4A) by {
      assert CubeRoot(251, 6, 0x4ED8AA4A);
    }
    assert CubeFraction(257, 0x5B9CCA4F) by {
      assert CubeRoot(257, 6, 0x5B9CCA4F);
    }
    assert CubeFraction(263, 0x682E6FF3) by {
      assert CubeRoot(263, 6, 0x682E6FF3);
    }
    hide CubeFraction;
    assert j == 0 || j == 1 || j == 2 || j == 3 || j == 4 || j == 5 || j == 6 || j == 7;
  }

  lemma Roots7(j: nat)
    requires j < 8
    ensures CubeFraction(ROW7[j], K_ROW7[j])
  {
    assert CubeFraction(269, 0x748F82EE) by {
      assert CubeRoot(269, 6, 0x748F82EE);
    }
    assert CubeFraction(271, 0x78A5636F) by {
      assert CubeRoot(271, 6, 0x78A5636F);
    }
    assert CubeFraction(277, 0x84C87814) by {
      assert CubeRoot(277, 6, 0x84C87814);
    }
    assert CubeFraction(281, 0x8CC70208) by {
      assert CubeRoot(281, 6, 0x8CC70208);
    }
    assert CubeFraction(283, 0x90BEFFFA) by {
      assert CubeRoot(283, 6, 0x90BEFFFA);
    }
    assert CubeFraction(293, 0xA4506CEB) by {
      assert CubeRoot(293, 6, 0xA4506CEB);
    }
    assert CubeFraction(307, 0xBEF9A3F7) by {
      assert CubeRoot(307, 6, 0xBEF9A3F7);
    }
    assert CubeFraction(311, 0xC67178F2) by {
      assert CubeRoot(311, 6, 0xC67178F2);
    }
    hide CubeFraction;
    assert j == 0 || j == 1 || j == 2 || j == 3 || j == 4 || j == 5 || j == 6 || j == 7;
  }

  lemma InRows(t: nat)
    requires t < 64
    ensures 0 <= t < 8 ==> PRIMES[t] == ROW0[t - 0] && K[t] == K_ROW0[t - 0]
    ensures 8 <= t < 16 ==> PRIMES[t] == ROW1[t - 8] && K[t] == K_ROW1[t - 8]
    ensures 16 <= t < 24 ==> PRIMES[t] == ROW2[t - 16] && K[t] == K_ROW2[t - 16]
    ensures 24 <= t < 32 ==> PRIMES[t] == ROW3[t - 24] && K[t] == K_ROW3[t - 24]
    ensures 32 <= t < 40 ==> PRIMES[t] == ROW4[t - 32] && K[t] == K_ROW4[t - 32]
    ensures 40 <= t < 48 ==> PRIMES[t] == ROW5[t - 40] && K[t] == K_ROW5[t - 40]
    ensures 48 <= t < 56 ==> PRIMES[t] == ROW6[t - 48] && K[t] == K_ROW6[t - 48]
    ensures 56 <= t < 64 ==> PRIMES[t] == ROW7[t - 56] && K[t] == K_ROW7[t - 56]
  {
  }

  lemma InRow(t: nat)
    requires t < 64
    ensures CubeFraction(PRIMES[t], K[t])
  {
    hide CubeFraction;
    InRows(t);
    if t < 8 {
      Roots0(t - 0);
    } else if t < 16 {
      Roots1(t - 8);
    } else if t < 24 {
      Roots2(t - 16);
    } else if t < 32 {
      Roots3(t - 24);
    } else if t < 40 {
      Roots4(t - 32);
    } else if t < 48 {
      Roots5(t - 40);
    } else if t < 56 {
      Roots6(t - 48);
    } else {
      Roots7(t - 56);
    }
  }

  /** In ascending order. */
  predicate Rising(s: seq<nat>) {
    forall i :: 0 <= i < |s| - 1 ==> s[i] < s[i + 1]
  }

  lemma RisingJoin(a: seq<nat>, b: seq<nat>)
    requires Rising(a) && Rising(b) && 0 < |a| && 0 < |b| && a[|a| - 1] < b[0]
    ensures Rising(a + b) && (a + b)[|a + b| - 1] == b[|b| - 1]
  {
  }

  lemma PrimesRise()
    ensures Rising(PRIMES)
  {
    assert Rising(ROW0) && Rising(ROW1) && Rising(ROW2) && Rising(ROW3);
    assert Rising(ROW4) && Rising(ROW5) && Rising(ROW6) && Rising(ROW7);
    hide Rising;
    var joined := ROW0;
    RisingJoin(joined, ROW1);
    joined := joined + ROW1;
    RisingJoin(joined, ROW2);
    joined := joined + ROW2;
    RisingJoin(joined, ROW3);
    joined := joined + ROW3;
    RisingJoin(joined, ROW4);
    joined := joined + ROW4;
    RisingJoin(joined, ROW5);
    joined := joined + ROW5;
    RisingJoin(joined, ROW6);
    joined := joined + ROW6;
    RisingJoin(joined, ROW7);
  }

  /**
    Each round constant has the first 32 fractional bits of its prime's cube root; with PrimesListed,
    `PRIMES` holds the first 64 primes, each of them and nothing else.
   */
  lemma RoundConstants(t: nat)
    requires t < 64
    ensures IsPrime(PRIMES[t]) && Rising(PRIMES)
    ensures CubeFraction(PRIMES[t], K[t])
  {
    hide IsPrime, CubeFraction, Rising;
    InRow(t);
    PrimesRise();
    assert PRIMES[t] in PRIMES;
    PrimesListed(PRIMES[t]);
  }

  /** The initial value: the same bits of the square roots of the first eight. */
  lemma InitialValue()
    ensures SquareRoot(2, 1, INITIAL.a) && SquareRoot(3, 1, INITIAL.b)
    ensures SquareRoot(5, 2, INITIAL.c) && SquareRoot(7, 2, INITIAL.d)
    ensures SquareRoot(11, 3, INITIAL.e) && SquareRoot(13, 3, INITIAL.f)
    ensures SquareRoot(17, 4, INITIAL.g) && SquareRoot(19, 4, INITIAL.h)
  {
    assert SquareRoot(2, 1, 0x6A09E667);
    assert SquareRoot(3, 1, 0xBB67AE85);
    assert SquareRoot(5, 2, 0x3C6EF372);
    assert SquareRoot(7, 2, 0xA54FF53A);
    assert SquareRoot(11, 3, 0x510E527F);
    assert SquareRoot(13, 3, 0x9B05688C);
    assert SquareRoot(17, 4, 0x1F83D9AB);
    assert SquareRoot(19, 4, 0x5BE0CD19);
  }
}
