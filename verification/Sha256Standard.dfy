/**
 The hash of `Sha256` against FIPS 180-4 and RFC 2104: its words, its constants, its functions, its
 masks, and one known digest, which is followed through all the rounds.
 */
module Sha256Standard {
  import opened Bytes
  import opened Sha256

  // ----- Section 3.1: words are big-endian

  lemma BackAgain(a: bv8)
    ensures (a as int) as bv8 == a
  {
  }

  lemma Successor(v: bv8)
    requires v as int < 255
    ensures (v + 1) as int == v as int + 1
  {
  }

  lemma {:induction false} SomeBits(b: nat) returns (v: bv8)
    requires b < 256
    ensures v as int == b
  {
    v := 0;
    if b > 0 {
      var u := SomeBits(b - 1);
      Successor(u);
      v := u + 1;
    }
  }

  lemma OctetBits(b: byte)
    ensures (b as bv8) as int == b
  {
    var v := SomeBits(b);
    BackAgain(v);
  }

  lemma Joined(a: bv8, b: bv8, c: bv8, d: bv8)
    ensures ((a as word << 24) | (b as word << 16) | (c as word << 8) | d as word) as int
            == 256 * (256 * (256 * a as int + b as int) + c as int) + d as int
  {
  }

  lemma SpelledFour(a: byte, b: byte, c: byte, d: byte)
    ensures Spelled([a, b, c, d]) == 256 * (256 * (256 * a + b) + c) + d
  {
    assert [a, b, c, d][..3] == [a, b, c] && [a, b, c][..2] == [a, b] && [a, b][..1] == [a];
    assert Spelled([a]) == a && Spelled([a, b]) == 256 * a + b && Spelled([a, b, c]) == 256 * (256 * a + b) + c;
  }

  lemma WideOctet(a: bv8)
    ensures Wide(a as int) == a as word
  {
    hide Wide;
    BackAgain(a);
    Widened(a, a as int);
  }

  lemma Widened(a: bv8, n: byte)
    requires n as bv8 == a
    ensures Wide(n) == a as word
  {
  }

  lemma PackOctets(a: bv8, b: bv8, c: bv8, d: bv8)
    ensures Pack(a as int, b as int, c as int, d as int)
            == (a as word << 24) | (b as word << 16) | (c as word << 8) | d as word
  {
    hide Wide;
    WideOctet(a);
    WideOctet(b);
    WideOctet(c);
    WideOctet(d);
  }

  lemma PackSpells(a: bv8, b: bv8, c: bv8, d: bv8)
    ensures Pack(a as int, b as int, c as int, d as int) as int == Spelled([a as int, b as int, c as int, d as int])
  {
    hide Pack, Spelled;
    PackOctets(a, b, c, d);
    Joined(a, b, c, d);
    SpelledFour(a as int, b as int, c as int, d as int);
  }

  /** Four octets make the word that they spell, the most significant first. */
  lemma PackIsBigEndian(a: byte, b: byte, c: byte, d: byte)
    ensures Pack(a, b, c, d) as int == Spelled([a, b, c, d])
  {
    hide Pack, Spelled;
    OctetBits(a);
    OctetBits(b);
    OctetBits(c);
    OctetBits(d);
    PackSpells(a as bv8, b as bv8, c as bv8, d as bv8);
  }

  /** The four octets of a word, the most significant first. */
  function Octet3(w: word): bv8 { ((w >> 24) & 0xff) as bv8 }
  function Octet2(w: word): bv8 { ((w >> 16) & 0xff) as bv8 }
  function Octet1(w: word): bv8 { ((w >> 8) & 0xff) as bv8 }
  function Octet0(w: word): bv8 { (w & 0xff) as bv8 }

  lemma Split(w: word)
    ensures w == (Octet3(w) as word << 24) | (Octet2(w) as word << 16) | (Octet1(w) as word << 8) | Octet0(w) as word
  {
  }

  lemma UnpackOctets(w: word)
    ensures Unpack(w) == [Octet3(w) as int, Octet2(w) as int, Octet1(w) as int, Octet0(w) as int]
  {
  }

  /** A word is written as the four octets that spell it. */
  lemma UnpackIsBigEndian(w: word)
    ensures Spelled(Unpack(w)) == w as int
  {
    hide Unpack, Spelled, Octet3, Octet2, Octet1, Octet0;
    Split(w);
    UnpackOctets(w);
    Joined(Octet3(w), Octet2(w), Octet1(w), Octet0(w));
    SpelledFour(Octet3(w) as int, Octet2(w) as int, Octet1(w) as int, Octet0(w) as int);
  }

  // ----- Section 4.1.2: the functions

  /** Where the first word has ones the choice is the second word, and elsewhere the third. */
  lemma Choice(x: word, y: word, z: word)
    ensures Ch(x, y, z) & x == y & x && Ch(x, y, z) & !x == z & !x
  {
  }

  /** Where the first and another word agree, the majority is with them. */
  lemma MajorityOfFirst(x: word, y: word, z: word)
    ensures Maj(x, y, z) & !(x ^ y) == x & !(x ^ y)
  {
  }

  lemma MajorityOfSymmetry(x: word, y: word, z: word)
    ensures Maj(x, y, z) == Maj(y, z, x) == Maj(z, y, x)
  {
  }

  // ----- Sections 4.2.2 and 5.3.3: the constants

  const PRIMES: seq<nat> := [
    2, 3, 5, 7, 11, 13, 17, 19, 23, 29, 31, 37, 41, 43, 47, 53
  ] + [
    59, 61, 67, 71, 73, 79, 83, 89, 97, 101, 103, 107, 109, 113, 127, 131
  ] + [
    137, 139, 149, 151, 157, 163, 167, 173, 179, 181, 191, 193, 197, 199, 211, 223
  ] + [
    227, 229, 233, 239, 241, 251, 257, 263, 269, 271, 277, 281, 283, 293, 307, 311
  ]

  predicate Divides(d: nat, n: nat)
    requires d > 0
  {
    n % d == 0
  }

  predicate Prime(n: nat) {
    n >= 2 && forall d | 2 <= d < n :: !Divides(d, n)
  }

  /** One of the primes below 18 divides it. */
  predicate Sieved(n: nat) {
    n % 2 == 0 || n % 3 == 0 || n % 5 == 0 || n % 7 == 0 || n % 11 == 0 || n % 13 == 0 || n % 17 == 0
  }

  lemma Gap0(n: nat)
    requires 18 <= n < 64 && n !in {19, 23, 29, 31, 37, 41, 43, 47, 53, 59, 61}
    ensures Sieved(n)
  {
  }

  lemma Gap1(n: nat)
    requires 64 <= n < 90 && n !in {67, 71, 73, 79, 83, 89}
    ensures Sieved(n)
  {
  }

  lemma Gap2(n: nat)
    requires 90 <= n < 116 && n !in {97, 101, 103, 107, 109, 113}
    ensures Sieved(n)
  {
  }

  lemma Gap3(n: nat)
    requires 116 <= n < 142 && n !in {127, 131, 137, 139}
    ensures Sieved(n)
  {
  }

  lemma Gap4(n: nat)
    requires 142 <= n < 168 && n !in {149, 151, 157, 163, 167}
    ensures Sieved(n)
  {
  }

  lemma Gap5(n: nat)
    requires 168 <= n < 194 && n !in {173, 179, 181, 191, 193}
    ensures Sieved(n)
  {
  }

  lemma Gap6(n: nat)
    requires 194 <= n < 220 && n !in {197, 199, 211}
    ensures Sieved(n)
  {
  }

  lemma Gap7(n: nat)
    requires 220 <= n < 246 && n !in {223, 227, 229, 233, 239, 241}
    ensures Sieved(n)
  {
  }

  lemma Gap8(n: nat)
    requires 246 <= n < 272 && n !in {251, 257, 263, 269, 271}
    ensures Sieved(n)
  {
  }

  lemma Gap9(n: nat)
    requires 272 <= n < 298 && n !in {277, 281, 283, 293}
    ensures Sieved(n)
  {
  }

  lemma Gap10(n: nat)
    requires 298 <= n < 312 && n !in {307, 311}
    ensures Sieved(n)
  {
  }

  lemma SmallDivisor(n: nat, m: nat, k: nat)
    requires 2 <= m <= 17 && n == m * k
    ensures Sieved(n)
  {
    hide Sieved;
    if m == 2 || m == 3 || m == 5 || m == 7 || m == 11 || m == 13 || m == 17 {
      LiteralMultiple(n, k);
    } else if m % 2 == 0 {
      var h := m / 2;
      assert n == 2 * (h * k);
      LiteralMultiple(n, h * k);
    } else if m == 9 {
      LiteralMultiple(n, 3 * k);
    } else {
      assert m == 15;
      LiteralMultiple(n, 5 * k);
    }
  }

  lemma LiteralMultiple(n: nat, k: nat)
    requires n == 2 * k || n == 3 * k || n == 5 * k || n == 7 * k || n == 11 * k || n == 13 * k || n == 17 * k
    ensures Sieved(n)
  {
    Remainders(k);
  }

  lemma Remainders(k: nat)
    ensures 2 * k % 2 == 0 && 3 * k % 3 == 0 && 5 * k % 5 == 0 && 7 * k % 7 == 0
    ensures 11 * k % 11 == 0 && 13 * k % 13 == 0 && 17 * k % 17 == 0
  {
  }

  /** A number below 18 * 18 that is not sieved has no divisor. */
  lemma UnsievedIsPrime(n: nat)
    requires 18 <= n < 324 && !Sieved(n)
    ensures Prime(n)
  {
    hide Sieved;
    forall d | 2 <= d < n ensures !Divides(d, n) {
      if Divides(d, n) {
        var e := n / d;
        Factors(n, d, e);
        SmallDivisor(n, if d <= e then d else e, if d <= e then e else d);
      }
    }
  }

  lemma Factors(n: nat, d: nat, e: nat)
    requires 2 <= d < n < 324 && n % d == 0 && e == n / d
    ensures n == d * e && n == e * d && 2 <= (if d <= e then d else e) <= 17
  {
    assert n == d * e;
    ProductBounds(d, e);
  }

  lemma ProductBounds(d: nat, e: nat)
    ensures e <= 1 ==> d * e <= d
    ensures d >= 18 && e >= 18 ==> d * e >= 324
  {
    if d >= 18 && e >= 18 {
      assert d * e >= 18 * e;
    }
  }

  lemma SievedIsComposite(n: nat)
    requires n >= 18 && Sieved(n)
    ensures !Prime(n)
  {
    assert Divides(2, n) || Divides(3, n) || Divides(5, n) || Divides(7, n) || Divides(11, n) || Divides(13, n) ||
           Divides(17, n);
  }

  lemma BelowEighteen(n: nat)
    requires n < 18
    ensures Prime(n) <==> n in {2, 3, 5, 7, 11, 13, 17}
  {
    if n in {2, 3, 5, 7, 11, 13, 17} {
      forall d | 2 <= d < n ensures !Divides(d, n) {
        Remains(n, d);
      }
    } else if n > 1 {
      assert Divides(2, n) || Divides(3, n);
    }
  }

  lemma Remains(n: nat, d: nat)
    requires n in {2, 3, 5, 7, 11, 13, 17} && 2 <= d < n
    ensures n % d != 0
  {
    if d == 2 || d == 3 || d == 4 || d == 5 {
    } else if d == 6 || d == 7 || d == 8 || d == 9 {
    } else if d == 10 || d == 11 || d == 12 || d == 13 {
    } else {
      assert d == 14 || d == 15 || d == 16;
    }
  }

  predicate Kept(n: nat) {
    n >= 18 && !Sieved(n)
  }

  lemma Kept7()
    ensures Kept(19) && Kept(23) && Kept(29) && Kept(31) && Kept(37) && Kept(41) && Kept(43) &&
            Kept(47) && Kept(53) && Kept(59) && Kept(61) && Kept(67) && Kept(71) && Kept(73) &&
            Kept(79) && Kept(83) && Kept(89) && Kept(97) && Kept(101)
  {
  }

  lemma Kept26()
    ensures Kept(103) && Kept(107) && Kept(109) && Kept(113) && Kept(127) && Kept(131) && Kept(137) &&
            Kept(139) && Kept(149) && Kept(151) && Kept(157) && Kept(163) && Kept(167) && Kept(173) &&
            Kept(179) && Kept(181) && Kept(191) && Kept(193) && Kept(197)
  {
  }

  lemma Kept45()
    ensures Kept(199) && Kept(211) && Kept(223) && Kept(227) && Kept(229) && Kept(233) && Kept(239) &&
            Kept(241) && Kept(251) && Kept(257) && Kept(263) && Kept(269) && Kept(271) && Kept(277) &&
            Kept(281) && Kept(283) && Kept(293) && Kept(307) && Kept(311)
  {
  }

  lemma Primes0()
    ensures |PRIMES| == 64
    ensures PRIMES[0] == 2 && PRIMES[1] == 3 && PRIMES[2] == 5 && PRIMES[3] == 7 && PRIMES[4] == 11 &&
            PRIMES[5] == 13 && PRIMES[6] == 17 && PRIMES[7] == 19 && PRIMES[8] == 23 && PRIMES[9] == 29 &&
            PRIMES[10] == 31 && PRIMES[11] == 37 && PRIMES[12] == 41 && PRIMES[13] == 43 && PRIMES[14] == 47 &&
            PRIMES[15] == 53
  {
  }

  lemma Primes16()
    ensures |PRIMES| == 64
    ensures PRIMES[16] == 59 && PRIMES[17] == 61 && PRIMES[18] == 67 && PRIMES[19] == 71 && PRIMES[20] == 73 &&
            PRIMES[21] == 79 && PRIMES[22] == 83 && PRIMES[23] == 89 && PRIMES[24] == 97 && PRIMES[25] == 101 &&
            PRIMES[26] == 103 && PRIMES[27] == 107 && PRIMES[28] == 109 && PRIMES[29] == 113 && PRIMES[30] == 127 &&
            PRIMES[31] == 131
  {
  }

  lemma Primes32()
    ensures |PRIMES| == 64
    ensures PRIMES[32] == 137 && PRIMES[33] == 139 && PRIMES[34] == 149 && PRIMES[35] == 151 && PRIMES[36] == 157 &&
            PRIMES[37] == 163 && PRIMES[38] == 167 && PRIMES[39] == 173 && PRIMES[40] == 179 && PRIMES[41] == 181 &&
            PRIMES[42] == 191 && PRIMES[43] == 193 && PRIMES[44] == 197 && PRIMES[45] == 199 && PRIMES[46] == 211 &&
            PRIMES[47] == 223
  {
  }

  lemma Primes48()
    ensures |PRIMES| == 64
    ensures PRIMES[48] == 227 && PRIMES[49] == 229 && PRIMES[50] == 233 && PRIMES[51] == 239 && PRIMES[52] == 241 &&
            PRIMES[53] == 251 && PRIMES[54] == 257 && PRIMES[55] == 263 && PRIMES[56] == 269 && PRIMES[57] == 271 &&
            PRIMES[58] == 277 && PRIMES[59] == 281 && PRIMES[60] == 283 && PRIMES[61] == 293 && PRIMES[62] == 307 &&
            PRIMES[63] == 311
  {
  }

  lemma ListedIsUnsieved(i: nat)
    requires 7 <= i < 64
    ensures Kept(PRIMES[i])
  {
    Primes0();
    Primes16();
    Primes32();
    Primes48();
    Kept7();
    Kept26();
    Kept45();
    hide PRIMES, Kept;
  }

  /** Above the first seven, nothing is missing. */
  lemma UnlistedIsSieved(n: nat)
    requires 18 <= n < 312 && n !in PRIMES
    ensures Sieved(n)
  {
    Primes0();
    Primes16();
    Primes32();
    Primes48();
    if 18 <= n < 64 { Gap0(n); }
    if 64 <= n < 90 { Gap1(n); }
    if 90 <= n < 116 { Gap2(n); }
    if 116 <= n < 142 { Gap3(n); }
    if 142 <= n < 168 { Gap4(n); }
    if 168 <= n < 194 { Gap5(n); }
    if 194 <= n < 220 { Gap6(n); }
    if 220 <= n < 246 { Gap7(n); }
    if 246 <= n < 272 { Gap8(n); }
    if 272 <= n < 298 { Gap9(n); }
    if 298 <= n < 312 { Gap10(n); }
  }

  /** The table holds the first 64 primes: exactly those up to 311, in increasing order. */
  lemma FirstPrimes()
    ensures |PRIMES| == 64 && (forall n | 0 <= n < 312 :: n in PRIMES <==> Prime(n))
    ensures forall i, j | 0 <= i < 63 && j == i + 1 :: PRIMES[i] < PRIMES[j] <= 311
  {
    forall n | 0 <= n < 312 ensures n in PRIMES <==> Prime(n) {
      PrimeIff(n);
    }
    forall i, j | 0 <= i < 63 && j == i + 1 ensures PRIMES[i] < PRIMES[j] <= 311 {
      Ascending(i);
    }
  }

  lemma Ascending(i: nat)
    requires i < 63
    ensures PRIMES[i] < PRIMES[i + 1] <= 311
  {
    Primes0();
    Primes16();
    Primes32();
    Primes48();
    hide PRIMES;
  }

  lemma PrimeIff(n: nat)
    requires n < 312
    ensures n in PRIMES <==> Prime(n)
  {
    if n < 18 {
      BelowEighteen(n);
      Primes0();
    Primes16();
    Primes32();
    Primes48();
      forall i | 7 <= i < 64 ensures PRIMES[i] >= 18 {
        ListedIsUnsieved(i);
      }
    } else if n in PRIMES {
      Primes0();
    Primes16();
    Primes32();
    Primes48();
      var i :| 0 <= i < 64 && PRIMES[i] == n;
      ListedIsUnsieved(i);
      UnsievedIsPrime(n);
    } else {
      UnlistedIsSieved(n);
      SievedIsComposite(n);
    }
  }

  predicate CubeRoot(p: nat, c: nat) {
    c * c * c <= p * 0x1_0000_0000_0000_0000_0000_0000 < (c + 1) * (c + 1) * (c + 1)
  }

  predicate SquareRoot(p: nat, c: nat) {
    c * c <= p * 0x1_0000_0000_0000_0000 < (c + 1) * (c + 1)
  }

  /** The word is the first 32 bits of the fraction of a root that is scaled by 2^32. */
  predicate Fraction(c: nat, k: word) {
    k as int == c % 0x1_0000_0000
  }

  const CUBE_ROOTS: seq<nat> := [
    0x1428a2f98, 0x171374491, 0x1b5c0fbcf, 0x1e9b5dba5, 0x23956c25b, 0x259f111f1, 0x2923f82a4, 0x2ab1c5ed5,
    0x2d807aa98, 0x312835b01, 0x3243185be, 0x3550c7dc3, 0x372be5d74, 0x380deb1fe, 0x39bdc06a7, 0x3c19bf174
  ] + [
    0x3e49b69c1, 0x3efbe4786, 0x40fc19dc6, 0x4240ca1cc, 0x42de92c6f, 0x44a7484aa, 0x45cb0a9dc, 0x476f988da,
    0x4983e5152, 0x4a831c66d, 0x4b00327c8, 0x4bf597fc7, 0x4c6e00bf3, 0x4d5a79147, 0x506ca6351, 0x514292967
  ] + [
    0x527b70a85, 0x52e1b2138, 0x54d2c6dfc, 0x553380d13, 0x5650a7354, 0x5766a0abb, 0x581c2c92e, 0x592722c85,
    0x5a2bfe8a1, 0x5a81a664b, 0x5c24b8b70, 0x5c76c51a3, 0x5d192e819, 0x5d6990624, 0x5f40e3585, 0x6106aa070
  ] + [
    0x619a4c116, 0x61e376c08, 0x62748774c, 0x634b0bcb5, 0x6391c0cb3, 0x64ed8aa4a, 0x65b9cca4f, 0x6682e6ff3,
    0x6748f82ee, 0x678a5636f, 0x684c87814, 0x68cc70208, 0x690befffa, 0x6a4506ceb, 0x6bef9a3f7, 0x6c67178f2
  ]

  predicate Rooted(i: nat)
    requires i < 64
  {
    CubeRoot(PRIMES[i], CUBE_ROOTS[i]) && Fraction(CUBE_ROOTS[i], K[i])
  }

  lemma CubeRoots0()
    ensures |CUBE_ROOTS| == 64
    ensures CUBE_ROOTS[0] == 0x1428a2f98 && CUBE_ROOTS[1] == 0x171374491 && CUBE_ROOTS[2] == 0x1b5c0fbcf &&
            CUBE_ROOTS[3] == 0x1e9b5dba5 && CUBE_ROOTS[4] == 0x23956c25b && CUBE_ROOTS[5] == 0x259f111f1 &&
            CUBE_ROOTS[6] == 0x2923f82a4 && CUBE_ROOTS[7] == 0x2ab1c5ed5 && CUBE_ROOTS[8] == 0x2d807aa98 &&
            CUBE_ROOTS[9] == 0x312835b01 && CUBE_ROOTS[10] == 0x3243185be && CUBE_ROOTS[11] == 0x3550c7dc3 &&
            CUBE_ROOTS[12] == 0x372be5d74 && CUBE_ROOTS[13] == 0x380deb1fe && CUBE_ROOTS[14] == 0x39bdc06a7 &&
            CUBE_ROOTS[15] == 0x3c19bf174
  {
  }

  lemma CubeRoots16()
    ensures |CUBE_ROOTS| == 64
    ensures CUBE_ROOTS[16] == 0x3e49b69c1 && CUBE_ROOTS[17] == 0x3efbe4786 && CUBE_ROOTS[18] == 0x40fc19dc6 &&
            CUBE_ROOTS[19] == 0x4240ca1cc && CUBE_ROOTS[20] == 0x42de92c6f && CUBE_ROOTS[21] == 0x44a7484aa &&
            CUBE_ROOTS[22] == 0x45cb0a9dc && CUBE_ROOTS[23] == 0x476f988da && CUBE_ROOTS[24] == 0x4983e5152 &&
            CUBE_ROOTS[25] == 0x4a831c66d && CUBE_ROOTS[26] == 0x4b00327c8 && CUBE_ROOTS[27] == 0x4bf597fc7 &&
            CUBE_ROOTS[28] == 0x4c6e00bf3 && CUBE_ROOTS[29] == 0x4d5a79147 && CUBE_ROOTS[30] == 0x506ca6351 &&
            CUBE_ROOTS[31] == 0x514292967
  {
  }

  lemma CubeRoots32()
    ensures |CUBE_ROOTS| == 64
    ensures CUBE_ROOTS[32] == 0x527b70a85 && CUBE_ROOTS[33] == 0x52e1b2138 && CUBE_ROOTS[34] == 0x54d2c6dfc &&
            CUBE_ROOTS[35] == 0x553380d13 && CUBE_ROOTS[36] == 0x5650a7354 && CUBE_ROOTS[37] == 0x5766a0abb &&
            CUBE_ROOTS[38] == 0x581c2c92e && CUBE_ROOTS[39] == 0x592722c85 && CUBE_ROOTS[40] == 0x5a2bfe8a1 &&
            CUBE_ROOTS[41] == 0x5a81a664b && CUBE_ROOTS[42] == 0x5c24b8b70 && CUBE_ROOTS[43] == 0x5c76c51a3 &&
            CUBE_ROOTS[44] == 0x5d192e819 && CUBE_ROOTS[45] == 0x5d6990624 && CUBE_ROOTS[46] == 0x5f40e3585 &&
            CUBE_ROOTS[47] == 0x6106aa070
  {
  }

  lemma CubeRoots48()
    ensures |CUBE_ROOTS| == 64
    ensures CUBE_ROOTS[48] == 0x619a4c116 && CUBE_ROOTS[49] == 0x61e376c08 && CUBE_ROOTS[50] == 0x62748774c &&
            CUBE_ROOTS[51] == 0x634b0bcb5 && CUBE_ROOTS[52] == 0x6391c0cb3 && CUBE_ROOTS[53] == 0x64ed8aa4a &&
            CUBE_ROOTS[54] == 0x65b9cca4f && CUBE_ROOTS[55] == 0x6682e6ff3 && CUBE_ROOTS[56] == 0x6748f82ee &&
            CUBE_ROOTS[57] == 0x678a5636f && CUBE_ROOTS[58] == 0x684c87814 && CUBE_ROOTS[59] == 0x68cc70208 &&
            CUBE_ROOTS[60] == 0x690befffa && CUBE_ROOTS[61] == 0x6a4506ceb && CUBE_ROOTS[62] == 0x6bef9a3f7 &&
            CUBE_ROOTS[63] == 0x6c67178f2
  {
  }

  lemma Constants0()
    ensures |K| == 64
    ensures K[0] == 0x428a2f98 && K[1] == 0x71374491 && K[2] == 0xb5c0fbcf && K[3] == 0xe9b5dba5 &&
            K[4] == 0x3956c25b && K[5] == 0x59f111f1 && K[6] == 0x923f82a4 && K[7] == 0xab1c5ed5 &&
            K[8] == 0xd807aa98 && K[9] == 0x12835b01 && K[10] == 0x243185be && K[11] == 0x550c7dc3 &&
            K[12] == 0x72be5d74 && K[13] == 0x80deb1fe && K[14] == 0x9bdc06a7 && K[15] == 0xc19bf174
  {
  }

  lemma Constants16()
    ensures |K| == 64
    ensures K[16] == 0xe49b69c1 && K[17] == 0xefbe4786 && K[18] == 0x0fc19dc6 && K[19] == 0x240ca1cc &&
            K[20] == 0x2de92c6f && K[21] == 0x4a7484aa && K[22] == 0x5cb0a9dc && K[23] == 0x76f988da &&
            K[24] == 0x983e5152 && K[25] == 0xa831c66d && K[26] == 0xb00327c8 && K[27] == 0xbf597fc7 &&
            K[28] == 0xc6e00bf3 && K[29] == 0xd5a79147 && K[30] == 0x06ca6351 && K[31] == 0x14292967
  {
  }

  lemma Constants32()
    ensures |K| == 64
    ensures K[32] == 0x27b70a85 && K[33] == 0x2e1b2138 && K[34] == 0x4d2c6dfc && K[35] == 0x53380d13 &&
            K[36] == 0x650a7354 && K[37] == 0x766a0abb && K[38] == 0x81c2c92e && K[39] == 0x92722c85 &&
            K[40] == 0xa2bfe8a1 && K[41] == 0xa81a664b && K[42] == 0xc24b8b70 && K[43] == 0xc76c51a3 &&
            K[44] == 0xd192e819 && K[45] == 0xd6990624 && K[46] == 0xf40e3585 && K[47] == 0x106aa070
  {
  }

  lemma Constants48()
    ensures |K| == 64
    ensures K[48] == 0x19a4c116 && K[49] == 0x1e376c08 && K[50] == 0x2748774c && K[51] == 0x34b0bcb5 &&
            K[52] == 0x391c0cb3 && K[53] == 0x4ed8aa4a && K[54] == 0x5b9cca4f && K[55] == 0x682e6ff3 &&
            K[56] == 0x748f82ee && K[57] == 0x78a5636f && K[58] == 0x84c87814 && K[59] == 0x8cc70208 &&
            K[60] == 0x90befffa && K[61] == 0xa4506ceb && K[62] == 0xbef9a3f7 && K[63] == 0xc67178f2
  {
  }

  lemma Rooted0()
    ensures Rooted(0) && Rooted(1) && Rooted(2) && Rooted(3)
  {
    Primes0();
    Constants0();
    CubeRoots0();
    hide PRIMES, K, CUBE_ROOTS;
  }

  lemma Rooted4()
    ensures Rooted(4) && Rooted(5) && Rooted(6) && Rooted(7)
  {
    Primes0();
    Constants0();
    CubeRoots0();
    hide PRIMES, K, CUBE_ROOTS;
  }

  lemma Rooted8()
    ensures Rooted(8) && Rooted(9) && Rooted(10) && Rooted(11)
  {
    Primes0();
    Constants0();
    CubeRoots0();
    hide PRIMES, K, CUBE_ROOTS;
  }

  lemma Rooted12()
    ensures Rooted(12) && Rooted(13) && Rooted(14) && Rooted(15)
  {
    Primes0();
    Constants0();
    CubeRoots0();
    hide PRIMES, K, CUBE_ROOTS;
  }

  lemma Rooted16()
    ensures Rooted(16) && Rooted(17) && Rooted(18) && Rooted(19)
  {
    Primes16();
    Constants16();
    CubeRoots16();
    hide PRIMES, K, CUBE_ROOTS;
  }

  lemma Rooted20()
    ensures Rooted(20) && Rooted(21) && Rooted(22) && Rooted(23)
  {
    Primes16();
    Constants16();
    CubeRoots16();
    hide PRIMES, K, CUBE_ROOTS;
  }

  lemma Rooted24()
    ensures Rooted(24) && Rooted(25) && Rooted(26) && Rooted(27)
  {
    Primes16();
    Constants16();
    CubeRoots16();
    hide PRIMES, K, CUBE_ROOTS;
  }

  lemma Rooted28()
    ensures Rooted(28) && Rooted(29) && Rooted(30) && Rooted(31)
  {
    Primes16();
    Constants16();
    CubeRoots16();
    hide PRIMES, K, CUBE_ROOTS;
  }

  lemma Rooted32()
    ensures Rooted(32) && Rooted(33) && Rooted(34) && Rooted(35)
  {
    Primes32();
    Constants32();
    CubeRoots32();
    hide PRIMES, K, CUBE_ROOTS;
  }

  lemma Rooted36()
    ensures Rooted(36) && Rooted(37) && Rooted(38) && Rooted(39)
  {
    Primes32();
    Constants32();
    CubeRoots32();
    hide PRIMES, K, CUBE_ROOTS;
  }

  lemma Rooted40()
    ensures Rooted(40) && Rooted(41) && Rooted(42) && Rooted(43)
  {
    Primes32();
    Constants32();
    CubeRoots32();
    hide PRIMES, K, CUBE_ROOTS;
  }

  lemma Rooted44()
    ensures Rooted(44) && Rooted(45) && Rooted(46) && Rooted(47)
  {
    Primes32();
    Constants32();
    CubeRoots32();
    hide PRIMES, K, CUBE_ROOTS;
  }

  lemma Rooted48()
    ensures Rooted(48) && Rooted(49) && Rooted(50) && Rooted(51)
  {
    Primes48();
    Constants48();
    CubeRoots48();
    hide PRIMES, K, CUBE_ROOTS;
  }

  lemma Rooted52()
    ensures Rooted(52) && Rooted(53) && Rooted(54) && Rooted(55)
  {
    Primes48();
    Constants48();
    CubeRoots48();
    hide PRIMES, K, CUBE_ROOTS;
  }

  lemma Rooted56()
    ensures Rooted(56) && Rooted(57) && Rooted(58) && Rooted(59)
  {
    Primes48();
    Constants48();
    CubeRoots48();
    hide PRIMES, K, CUBE_ROOTS;
  }

  lemma Rooted60()
    ensures Rooted(60) && Rooted(61) && Rooted(62) && Rooted(63)
  {
    Primes48();
    Constants48();
    CubeRoots48();
    hide PRIMES, K, CUBE_ROOTS;
  }

  lemma EachRooted(i: nat)
    requires i < 64
    ensures Rooted(i)
  {
    hide Rooted, PRIMES, CUBE_ROOTS, K;
    Primes0();
    if i < 32 {
      Rooted0();
      Rooted4();
      Rooted8();
      Rooted12();
      Rooted16();
      Rooted20();
      Rooted24();
      Rooted28();
    } else {
      Rooted32();
      Rooted36();
      Rooted40();
      Rooted44();
      Rooted48();
      Rooted52();
      Rooted56();
      Rooted60();
    }
  }

  /** Section 4.2.2: the constants are the fractions of the cube roots of the first 64 primes. */
  lemma ConstantsMeetStandard(i: nat)
    requires i < 64
    ensures exists c :: CubeRoot(PRIMES[i], c) && Fraction(c, K[i])
  {
    hide CubeRoot, Fraction;
    assert Rooted(i) by {
      EachRooted(i);
    }
  }

  /** Section 5.3.3: the initial value is the fractions of the square roots of the first eight primes. */
  lemma InitialMeetsStandard(i: nat)
    requires i < 8
    ensures exists c :: SquareRoot(PRIMES[i], c) && Fraction(c, Words(INITIAL)[i])
  {
    Primes0();
    Primes16();
    Primes32();
    Primes48();
    hide SquareRoot, Fraction, PRIMES;
    Initial0();
    Initial1();
    Initial2();
    Initial3();
    Initial4();
    Initial5();
    Initial6();
    Initial7();
  }

  lemma Initial0()
    ensures SquareRoot(2, 0x16a09e667) && Fraction(0x16a09e667, INITIAL.a)
  {
  }

  lemma Initial1()
    ensures SquareRoot(3, 0x1bb67ae85) && Fraction(0x1bb67ae85, INITIAL.b)
  {
  }

  lemma Initial2()
    ensures SquareRoot(5, 0x23c6ef372) && Fraction(0x23c6ef372, INITIAL.c)
  {
  }

  lemma Initial3()
    ensures SquareRoot(7, 0x2a54ff53a) && Fraction(0x2a54ff53a, INITIAL.d)
  {
  }

  lemma Initial4()
    ensures SquareRoot(11, 0x3510e527f) && Fraction(0x3510e527f, INITIAL.e)
  {
  }

  lemma Initial5()
    ensures SquareRoot(13, 0x39b05688c) && Fraction(0x39b05688c, INITIAL.f)
  {
  }

  lemma Initial6()
    ensures SquareRoot(17, 0x41f83d9ab) && Fraction(0x41f83d9ab, INITIAL.g)
  {
  }

  lemma Initial7()
    ensures SquareRoot(19, 0x45be0cd19) && Fraction(0x45be0cd19, INITIAL.h)
  {
  }

  // ----- Section 6.2.2: the schedule and the rounds, and a known answer

  ghost predicate FirstWords(block: seq<byte>, w: seq<word>)
    requires |block| == 64 && |w| == 64
  {
    forall i | 0 <= i < 16 :: w[i] as int == Spelled(block[4 * i..4 * i + 4])
  }

  predicate Follows(w: seq<word>, i: nat)
    requires 16 <= i < |w|
  {
    w[i] == Next(w[i - 16], w[i - 15], w[i - 7], w[i - 2])
  }

  ghost predicate LaterWords(w: seq<word>)
    requires |w| == 64
  {
    forall i | 16 <= i < 64 :: Follows(w, i)
  }

  lemma SpelledWord(block: seq<byte>, w: seq<word>, i: nat)
    requires |block| == 64 && |w| == 64 && FirstWords(block, w) && i < 16
    ensures w[i] == Pack(block[4 * i], block[4 * i + 1], block[4 * i + 2], block[4 * i + 3])
  {
    hide Pack, Spelled;
    var k := 4 * i;
    assert block[k..k + 4] == [block[k], block[k + 1], block[k + 2], block[k + 3]];
    PackIsBigEndian(block[k], block[k + 1], block[k + 2], block[k + 3]);
    SameWord(w[i], Pack(block[k], block[k + 1], block[k + 2], block[k + 3]));
  }

  lemma SameWord(a: word, b: word)
    requires a as int == b as int
    ensures a == b
  {
    assert a == (a as int) as word && b == (b as int) as word;
  }

  /** Whatever begins with the words that the block spells and follows the recurrence is the schedule. */
  lemma {:induction false} ScheduleFollows(block: seq<byte>, w: seq<word>, t: nat)
    requires |block| == 64 && t <= 64 == |w| && FirstWords(block, w) && LaterWords(w)
    ensures Schedule(block, t) == w[..t]
  {
    hide Next, Pack, FirstWords, LaterWords;
    if t > 0 {
      var i := t - 1;
      ScheduleFollows(block, w, i);
      ScheduleStep(block, w, i);
      assert w[..t] == w[..i] + [w[i]];
    }
  }

  lemma ScheduleStep(block: seq<byte>, w: seq<word>, i: nat)
    requires |block| == 64 && i < 64 == |w| && FirstWords(block, w) && LaterWords(w) && Schedule(block, i) == w[..i]
    ensures Schedule(block, i + 1) == w[..i] + [w[i]]
  {
    hide Next, Pack, FirstWords, Schedule;
    if i < 16 {
      SpelledWord(block, w, i);
      FirstWord(block, i, w[i]);
    } else {
      assert Follows(w, i);
      hide LaterWords;
      LaterWord(block, i, w[..i], w[i]);
    }
  }

  lemma Step0()
    ensures Round(Working(0x6a09e667, 0xbb67ae85,
                          0x3c6ef372, 0xa54ff53a, 0x510e527f, 0x9b05688c, 0x1f83d9ab, 0x5be0cd19),
                  0x428a2f98, 0x61626380) ==
            Working(0x5d6aebcd, 0x6a09e667,
                    0xbb67ae85, 0x3c6ef372, 0xfa2a4622, 0x510e527f, 0x9b05688c, 0x1f83d9ab) &&
            Round(Working(0x5d6aebcd, 0x6a09e667,
                          0xbb67ae85, 0x3c6ef372, 0xfa2a4622, 0x510e527f, 0x9b05688c, 0x1f83d9ab),
                  0x71374491, 0x00000000) ==
            Working(0x5a6ad9ad, 0x5d6aebcd,
                    0x6a09e667, 0xbb67ae85, 0x78ce7989, 0xfa2a4622, 0x510e527f, 0x9b05688c) &&
            Round(Working(0x5a6ad9ad, 0x5d6aebcd,
                          0x6a09e667, 0xbb67ae85, 0x78ce7989, 0xfa2a4622, 0x510e527f, 0x9b05688c),
                  0xb5c0fbcf, 0x00000000) ==
            Working(0xc8c347a7, 0x5a6ad9ad,
                    0x5d6aebcd, 0x6a09e667, 0xf92939eb, 0x78ce7989, 0xfa2a4622, 0x510e527f) &&
            Round(Working(0xc8c347a7, 0x5a6ad9ad,
                          0x5d6aebcd, 0x6a09e667, 0xf92939eb, 0x78ce7989, 0xfa2a4622, 0x510e527f),
                  0xe9b5dba5, 0x00000000) ==
            Working(0xd550f666, 0xc8c347a7,
                    0x5a6ad9ad, 0x5d6aebcd, 0x24e00850, 0xf92939eb, 0x78ce7989, 0xfa2a4622) &&
            Round(Working(0xd550f666, 0xc8c347a7,
                          0x5a6ad9ad, 0x5d6aebcd, 0x24e00850, 0xf92939eb, 0x78ce7989, 0xfa2a4622),
                  0x3956c25b, 0x00000000) ==
            Working(0x04409a6a, 0xd550f666,
                    0xc8c347a7, 0x5a6ad9ad, 0x43ada245, 0x24e00850, 0xf92939eb, 0x78ce7989) &&
            Round(Working(0x04409a6a, 0xd550f666,
                          0xc8c347a7, 0x5a6ad9ad, 0x43ada245, 0x24e00850, 0xf92939eb, 0x78ce7989),
                  0x59f111f1, 0x00000000) ==
            Working(0x2b4209f5, 0x04409a6a,
                    0xd550f666, 0xc8c347a7, 0x714260ad, 0x43ada245, 0x24e00850, 0xf92939eb) &&
            Round(Working(0x2b4209f5, 0x04409a6a,
                          0xd550f666, 0xc8c347a7, 0x714260ad, 0x43ada245, 0x24e00850, 0xf92939eb),
                  0x923f82a4, 0x00000000) ==
            Working(0xe5030380, 0x2b4209f5,
                    0x04409a6a, 0xd550f666, 0x9b27a401, 0x714260ad, 0x43ada245, 0x24e00850) &&
            Round(Working(0xe5030380, 0x2b4209f5,
                          0x04409a6a, 0xd550f666, 0x9b27a401, 0x714260ad, 0x43ada245, 0x24e00850),
                  0xab1c5ed5, 0x00000000) ==
            Working(0x85a07b5f, 0xe5030380,
                    0x2b4209f5, 0x04409a6a, 0x0c657a79, 0x9b27a401, 0x714260ad, 0x43ada245)
  {
  }

  lemma Step8()
    ensures Round(Working(0x85a07b5f, 0xe5030380,
                          0x2b4209f5, 0x04409a6a, 0x0c657a79, 0x9b27a401, 0x714260ad, 0x43ada245),
                  0xd807aa98, 0x00000000) ==
            Working(0x8e04ecb9, 0x85a07b5f,
                    0xe5030380, 0x2b4209f5, 0x32ca2d8c, 0x0c657a79, 0x9b27a401, 0x714260ad) &&
            Round(Working(0x8e04ecb9, 0x85a07b5f,
                          0xe5030380, 0x2b4209f5, 0x32ca2d8c, 0x0c657a79, 0x9b27a401, 0x714260ad),
                  0x12835b01, 0x00000000) ==
            Working(0x8c87346b, 0x8e04ecb9,
                    0x85a07b5f, 0xe5030380, 0x1cc92596, 0x32ca2d8c, 0x0c657a79, 0x9b27a401) &&
            Round(Working(0x8c87346b, 0x8e04ecb9,
                          0x85a07b5f, 0xe5030380, 0x1cc92596, 0x32ca2d8c, 0x0c657a79, 0x9b27a401),
                  0x243185be, 0x00000000) ==
            Working(0x4798a3f4, 0x8c87346b,
                    0x8e04ecb9, 0x85a07b5f, 0x436b23e8, 0x1cc92596, 0x32ca2d8c, 0x0c657a79) &&
            Round(Working(0x4798a3f4, 0x8c87346b,
                          0x8e04ecb9, 0x85a07b5f, 0x436b23e8, 0x1cc92596, 0x32ca2d8c, 0x0c657a79),
                  0x550c7dc3, 0x00000000) ==
            Working(0xf71fc5a9, 0x4798a3f4,
                    0x8c87346b, 0x8e04ecb9, 0x816fd6e9, 0x436b23e8, 0x1cc92596, 0x32ca2d8c) &&
            Round(Working(0xf71fc5a9, 0x4798a3f4,
                          0x8c87346b, 0x8e04ecb9, 0x816fd6e9, 0x436b23e8, 0x1cc92596, 0x32ca2d8c),
                  0x72be5d74, 0x00000000) ==
            Working(0x87912990, 0xf71fc5a9,
                    0x4798a3f4, 0x8c87346b, 0x1e578218, 0x816fd6e9, 0x436b23e8, 0x1cc92596) &&
            Round(Working(0x87912990, 0xf71fc5a9,
                          0x4798a3f4, 0x8c87346b, 0x1e578218, 0x816fd6e9, 0x436b23e8, 0x1cc92596),
                  0x80deb1fe, 0x00000000) ==
            Working(0xd932eb16, 0x87912990,
                    0xf71fc5a9, 0x4798a3f4, 0x745a48de, 0x1e578218, 0x816fd6e9, 0x436b23e8) &&
            Round(Working(0xd932eb16, 0x87912990,
                          0xf71fc5a9, 0x4798a3f4, 0x745a48de, 0x1e578218, 0x816fd6e9, 0x436b23e8),
                  0x9bdc06a7, 0x00000000) ==
            Working(0xc0645fde, 0xd932eb16,
                    0x87912990, 0xf71fc5a9, 0x0b92f20c, 0x745a48de, 0x1e578218, 0x816fd6e9) &&
            Round(Working(0xc0645fde, 0xd932eb16,
                          0x87912990, 0xf71fc5a9, 0x0b92f20c, 0x745a48de, 0x1e578218, 0x816fd6e9),
                  0xc19bf174, 0x00000018) ==
            Working(0xb0fa238e, 0xc0645fde,
                    0xd932eb16, 0x87912990, 0x07590dcd, 0x0b92f20c, 0x745a48de, 0x1e578218)
  {
  }

  lemma Step16()
    ensures Round(Working(0xb0fa238e, 0xc0645fde,
                          0xd932eb16, 0x87912990, 0x07590dcd, 0x0b92f20c, 0x745a48de, 0x1e578218),
                  0xe49b69c1, 0x61626380) ==
            Working(0x21da9a9b, 0xb0fa238e,
                    0xc0645fde, 0xd932eb16, 0x8034229c, 0x07590dcd, 0x0b92f20c, 0x745a48de) &&
            Round(Working(0x21da9a9b, 0xb0fa238e,
                          0xc0645fde, 0xd932eb16, 0x8034229c, 0x07590dcd, 0x0b92f20c, 0x745a48de),
                  0xefbe4786, 0x000f0000) ==
            Working(0xc2fbd9d1, 0x21da9a9b,
                    0xb0fa238e, 0xc0645fde, 0x846ee454, 0x8034229c, 0x07590dcd, 0x0b92f20c) &&
            Round(Working(0xc2fbd9d1, 0x21da9a9b,
                          0xb0fa238e, 0xc0645fde, 0x846ee454, 0x8034229c, 0x07590dcd, 0x0b92f20c),
                  0x0fc19dc6, 0x7da86405) ==
            Working(0xfe777bbf, 0xc2fbd9d1,
                    0x21da9a9b, 0xb0fa238e, 0xcc899961, 0x846ee454, 0x8034229c, 0x07590dcd) &&
            Round(Working(0xfe777bbf, 0xc2fbd9d1,
                          0x21da9a9b, 0xb0fa238e, 0xcc899961, 0x846ee454, 0x8034229c, 0x07590dcd),
                  0x240ca1cc, 0x600003c6) ==
            Working(0xe1f20c33, 0xfe777bbf,
                    0xc2fbd9d1, 0x21da9a9b, 0xb0638179, 0xcc899961, 0x846ee454, 0x8034229c) &&
            Round(Working(0xe1f20c33, 0xfe777bbf,
                          0xc2fbd9d1, 0x21da9a9b, 0xb0638179, 0xcc899961, 0x846ee454, 0x8034229c),
                  0x2de92c6f, 0x3e9d7b78) ==
            Working(0x9dc68b63, 0xe1f20c33,
                    0xfe777bbf, 0xc2fbd9d1, 0x8ada8930, 0xb0638179, 0xcc899961, 0x846ee454) &&
            Round(Working(0x9dc68b63, 0xe1f20c33,
                          0xfe777bbf, 0xc2fbd9d1, 0x8ada8930, 0xb0638179, 0xcc899961, 0x846ee454),
                  0x4a7484aa, 0x0183fc00) ==
            Working(0xc2606d6d, 0x9dc68b63,
                    0xe1f20c33, 0xfe777bbf, 0xe1257970, 0x8ada8930, 0xb0638179, 0xcc899961) &&
            Round(Working(0xc2606d6d, 0x9dc68b63,
                          0xe1f20c33, 0xfe777bbf, 0xe1257970, 0x8ada8930, 0xb0638179, 0xcc899961),
                  0x5cb0a9dc, 0x12dcbfdb) ==
            Working(0xa7a3623f, 0xc2606d6d,
                    0x9dc68b63, 0xe1f20c33, 0x49f5114a, 0xe1257970, 0x8ada8930, 0xb0638179) &&
            Round(Working(0xa7a3623f, 0xc2606d6d,
                          0x9dc68b63, 0xe1f20c33, 0x49f5114a, 0xe1257970, 0x8ada8930, 0xb0638179),
                  0x76f988da, 0xe2e2c38e) ==
            Working(0xc5d53d8d, 0xa7a3623f,
                    0xc2606d6d, 0x9dc68b63, 0xaa47c347, 0x49f5114a, 0xe1257970, 0x8ada8930)
  {
  }

  lemma Step24()
    ensures Round(Working(0xc5d53d8d, 0xa7a3623f,
                          0xc2606d6d, 0x9dc68b63, 0xaa47c347, 0x49f5114a, 0xe1257970, 0x8ada8930),
                  0x983e5152, 0xc8215c1a) ==
            Working(0x1c2c2838, 0xc5d53d8d,
                    0xa7a3623f, 0xc2606d6d, 0x2823ef91, 0xaa47c347, 0x49f5114a, 0xe1257970) &&
            Round(Working(0x1c2c2838, 0xc5d53d8d,
                          0xa7a3623f, 0xc2606d6d, 0x2823ef91, 0xaa47c347, 0x49f5114a, 0xe1257970),
                  0xa831c66d, 0xb73679a2) ==
            Working(0xcde8037d, 0x1c2c2838,
                    0xc5d53d8d, 0xa7a3623f, 0x14383d8e, 0x2823ef91, 0xaa47c347, 0x49f5114a) &&
            Round(Working(0xcde8037d, 0x1c2c2838,
                          0xc5d53d8d, 0xa7a3623f, 0x14383d8e, 0x2823ef91, 0xaa47c347, 0x49f5114a),
                  0xb00327c8, 0xe5bc3909) ==
            Working(0xb62ec4bc, 0xcde8037d,
                    0x1c2c2838, 0xc5d53d8d, 0xc74c6516, 0x14383d8e, 0x2823ef91, 0xaa47c347) &&
            Round(Working(0xb62ec4bc, 0xcde8037d,
                          0x1c2c2838, 0xc5d53d8d, 0xc74c6516, 0x14383d8e, 0x2823ef91, 0xaa47c347),
                  0xbf597fc7, 0x32663c5b) ==
            Working(0x77d37528, 0xb62ec4bc,
                    0xcde8037d, 0x1c2c2838, 0xedffbff8, 0xc74c6516, 0x14383d8e, 0x2823ef91) &&
            Round(Working(0x77d37528, 0xb62ec4bc,
                          0xcde8037d, 0x1c2c2838, 0xedffbff8, 0xc74c6516, 0x14383d8e, 0x2823ef91),
                  0xc6e00bf3, 0x9d209d67) ==
            Working(0x363482c9, 0x77d37528,
                    0xb62ec4bc, 0xcde8037d, 0x6112a3b7, 0xedffbff8, 0xc74c6516, 0x14383d8e) &&
            Round(Working(0x363482c9, 0x77d37528,
                          0xb62ec4bc, 0xcde8037d, 0x6112a3b7, 0xedffbff8, 0xc74c6516, 0x14383d8e),
                  0xd5a79147, 0xec8726cb) ==
            Working(0xa0060b30, 0x363482c9,
                    0x77d37528, 0xb62ec4bc, 0xade79437, 0x6112a3b7, 0xedffbff8, 0xc74c6516) &&
            Round(Working(0xa0060b30, 0x363482c9,
                          0x77d37528, 0xb62ec4bc, 0xade79437, 0x6112a3b7, 0xedffbff8, 0xc74c6516),
                  0x06ca6351, 0x702138a4) ==
            Working(0xea992a22, 0xa0060b30,
                    0x363482c9, 0x77d37528, 0x0109ab3a, 0xade79437, 0x6112a3b7, 0xedffbff8) &&
            Round(Working(0xea992a22, 0xa0060b30,
                          0x363482c9, 0x77d37528, 0x0109ab3a, 0xade79437, 0x6112a3b7, 0xedffbff8),
                  0x14292967, 0xd3b7973b) ==
            Working(0x73b33bf5, 0xea992a22,
                    0xa0060b30, 0x363482c9, 0xba591112, 0x0109ab3a, 0xade79437, 0x6112a3b7)
  {
  }

  lemma Step32()
    ensures Round(Working(0x73b33bf5, 0xea992a22,
                          0xa0060b30, 0x363482c9, 0xba591112, 0x0109ab3a, 0xade79437, 0x6112a3b7),
                  0x27b70a85, 0x93f5997f) ==
            Working(0x98e12507, 0x73b33bf5,
                    0xea992a22, 0xa0060b30, 0x9cd9f5f6, 0xba591112, 0x0109ab3a, 0xade79437) &&
            Round(Working(0x98e12507, 0x73b33bf5,
                          0xea992a22, 0xa0060b30, 0x9cd9f5f6, 0xba591112, 0x0109ab3a, 0xade79437),
                  0x2e1b2138, 0x3b68ba73) ==
            Working(0xfe604df5, 0x98e12507,
                    0x73b33bf5, 0xea992a22, 0x59249dd3, 0x9cd9f5f6, 0xba591112, 0x0109ab3a) &&
            Round(Working(0xfe604df5, 0x98e12507,
                          0x73b33bf5, 0xea992a22, 0x59249dd3, 0x9cd9f5f6, 0xba591112, 0x0109ab3a),
                  0x4d2c6dfc, 0xaff4ffc1) ==
            Working(0xa9a7738c, 0xfe604df5,
                    0x98e12507, 0x73b33bf5, 0x085f3833, 0x59249dd3, 0x9cd9f5f6, 0xba591112) &&
            Round(Working(0xa9a7738c, 0xfe604df5,
                          0x98e12507, 0x73b33bf5, 0x085f3833, 0x59249dd3, 0x9cd9f5f6, 0xba591112),
                  0x53380d13, 0xf10a5c62) ==
            Working(0x65a0cfe4, 0xa9a7738c,
                    0xfe604df5, 0x98e12507, 0xf4b002d6, 0x085f3833, 0x59249dd3, 0x9cd9f5f6) &&
            Round(Working(0x65a0cfe4, 0xa9a7738c,
                          0xfe604df5, 0x98e12507, 0xf4b002d6, 0x085f3833, 0x59249dd3, 0x9cd9f5f6),
                  0x650a7354, 0x0a8b3996) ==
            Working(0x41a65cb1, 0x65a0cfe4,
                    0xa9a7738c, 0xfe604df5, 0x0772a26b, 0xf4b002d6, 0x085f3833, 0x59249dd3) &&
            Round(Working(0x41a65cb1, 0x65a0cfe4,
                          0xa9a7738c, 0xfe604df5, 0x0772a26b, 0xf4b002d6, 0x085f3833, 0x59249dd3),
                  0x766a0abb, 0x72af830a) ==
            Working(0x34df1604, 0x41a65cb1,
                    0x65a0cfe4, 0xa9a7738c, 0xa507a53d, 0x0772a26b, 0xf4b002d6, 0x085f3833) &&
            Round(Working(0x34df1604, 0x41a65cb1,
                          0x65a0cfe4, 0xa9a7738c, 0xa507a53d, 0x0772a26b, 0xf4b002d6, 0x085f3833),
                  0x81c2c92e, 0x9409e33e) ==
            Working(0x6dc57a8a, 0x34df1604,
                    0x41a65cb1, 0x65a0cfe4, 0xf0781bc8, 0xa507a53d, 0x0772a26b, 0xf4b002d6) &&
            Round(Working(0x6dc57a8a, 0x34df1604,
                          0x41a65cb1, 0x65a0cfe4, 0xf0781bc8, 0xa507a53d, 0x0772a26b, 0xf4b002d6),
                  0x92722c85, 0x24641522) ==
            Working(0x79ea687a, 0x6dc57a8a,
                    0x34df1604, 0x41a65cb1, 0x1efbc0a0, 0xf0781bc8, 0xa507a53d, 0x0772a26b)
  {
  }

  lemma Step40()
    ensures Round(Working(0x79ea687a, 0x6dc57a8a,
                          0x34df1604, 0x41a65cb1, 0x1efbc0a0, 0xf0781bc8, 0xa507a53d, 0x0772a26b),
                  0xa2bfe8a1, 0x9f47bf94) ==
            Working(0xd6670766, 0x79ea687a,
                    0x6dc57a8a, 0x34df1604, 0x26352d63, 0x1efbc0a0, 0xf0781bc8, 0xa507a53d) &&
            Round(Working(0xd6670766, 0x79ea687a,
                          0x6dc57a8a, 0x34df1604, 0x26352d63, 0x1efbc0a0, 0xf0781bc8, 0xa507a53d),
                  0xa81a664b, 0xf0a64f5a) ==
            Working(0xdf46652f, 0xd6670766,
                    0x79ea687a, 0x6dc57a8a, 0x838b2711, 0x26352d63, 0x1efbc0a0, 0xf0781bc8) &&
            Round(Working(0xdf46652f, 0xd6670766,
                          0x79ea687a, 0x6dc57a8a, 0x838b2711, 0x26352d63, 0x1efbc0a0, 0xf0781bc8),
                  0xc24b8b70, 0x3e246a79) ==
            Working(0x17aa0dfe, 0xdf46652f,
                    0xd6670766, 0x79ea687a, 0xdecd4715, 0x838b2711, 0x26352d63, 0x1efbc0a0) &&
            Round(Working(0x17aa0dfe, 0xdf46652f,
                          0xd6670766, 0x79ea687a, 0xdecd4715, 0x838b2711, 0x26352d63, 0x1efbc0a0),
                  0xc76c51a3, 0x27333ba3) ==
            Working(0x9d4baf93, 0x17aa0dfe,
                    0xdf46652f, 0xd6670766, 0xfda24c2e, 0xdecd4715, 0x838b2711, 0x26352d63) &&
            Round(Working(0x9d4baf93, 0x17aa0dfe,
                          0xdf46652f, 0xd6670766, 0xfda24c2e, 0xdecd4715, 0x838b2711, 0x26352d63),
                  0xd192e819, 0x0c4763f2) ==
            Working(0x26628815, 0x9d4baf93,
                    0x17aa0dfe, 0xdf46652f, 0xa80f11f0, 0xfda24c2e, 0xdecd4715, 0x838b2711) &&
            Round(Working(0x26628815, 0x9d4baf93,
                          0x17aa0dfe, 0xdf46652f, 0xa80f11f0, 0xfda24c2e, 0xdecd4715, 0x838b2711),
                  0xd6990624, 0x840abf27) ==
            Working(0x72ab4b91, 0x26628815,
                    0x9d4baf93, 0x17aa0dfe, 0xb7755da1, 0xa80f11f0, 0xfda24c2e, 0xdecd4715) &&
            Round(Working(0x72ab4b91, 0x26628815,
                          0x9d4baf93, 0x17aa0dfe, 0xb7755da1, 0xa80f11f0, 0xfda24c2e, 0xdecd4715),
                  0xf40e3585, 0x7a290d5d) ==
            Working(0xa14c14b0, 0x72ab4b91,
                    0x26628815, 0x9d4baf93, 0xd57b94a9, 0xb7755da1, 0xa80f11f0, 0xfda24c2e) &&
            Round(Working(0xa14c14b0, 0x72ab4b91,
                          0x26628815, 0x9d4baf93, 0xd57b94a9, 0xb7755da1, 0xa80f11f0, 0xfda24c2e),
                  0x106aa070, 0x065c43da) ==
            Working(0x4172328d, 0xa14c14b0,
                    0x72ab4b91, 0x26628815, 0xfecf0bc6, 0xd57b94a9, 0xb7755da1, 0xa80f11f0)
  {
  }

  lemma Step48()
    ensures Round(Working(0x4172328d, 0xa14c14b0,
                          0x72ab4b91, 0x26628815, 0xfecf0bc6, 0xd57b94a9, 0xb7755da1, 0xa80f11f0),
                  0x19a4c116, 0xfb3e89cb) ==
            Working(0x05757ceb, 0x4172328d,
                    0xa14c14b0, 0x72ab4b91, 0xbd714038, 0xfecf0bc6, 0xd57b94a9, 0xb7755da1) &&
            Round(Working(0x05757ceb, 0x4172328d,
                          0xa14c14b0, 0x72ab4b91, 0xbd714038, 0xfecf0bc6, 0xd57b94a9, 0xb7755da1),
                  0x1e376c08, 0xcc7617db) ==
            Working(0xf11bfaa8, 0x05757ceb,
                    0x4172328d, 0xa14c14b0, 0x6e5c390c, 0xbd714038, 0xfecf0bc6, 0xd57b94a9) &&
            Round(Working(0xf11bfaa8, 0x05757ceb,
                          0x4172328d, 0xa14c14b0, 0x6e5c390c, 0xbd714038, 0xfecf0bc6, 0xd57b94a9),
                  0x2748774c, 0xb9e66c34) ==
            Working(0x7a0508a1, 0xf11bfaa8,
                    0x05757ceb, 0x4172328d, 0x52f1ccf7, 0x6e5c390c, 0xbd714038, 0xfecf0bc6) &&
            Round(Working(0x7a0508a1, 0xf11bfaa8,
                          0x05757ceb, 0x4172328d, 0x52f1ccf7, 0x6e5c390c, 0xbd714038, 0xfecf0bc6),
                  0x34b0bcb5, 0xa9993667) ==
            Working(0x886e7a22, 0x7a0508a1,
                    0xf11bfaa8, 0x05757ceb, 0x49231c1e, 0x52f1ccf7, 0x6e5c390c, 0xbd714038) &&
            Round(Working(0x886e7a22, 0x7a0508a1,
                          0xf11bfaa8, 0x05757ceb, 0x49231c1e, 0x52f1ccf7, 0x6e5c390c, 0xbd714038),
                  0x391c0cb3, 0x84badedd) ==
            Working(0x101fd28f, 0x886e7a22,
                    0x7a0508a1, 0xf11bfaa8, 0x529e7d00, 0x49231c1e, 0x52f1ccf7, 0x6e5c390c) &&
            Round(Working(0x101fd28f, 0x886e7a22,
                          0x7a0508a1, 0xf11bfaa8, 0x529e7d00, 0x49231c1e, 0x52f1ccf7, 0x6e5c390c),
                  0x4ed8aa4a, 0xc21462bc) ==
            Working(0xf5702fdb, 0x101fd28f,
                    0x886e7a22, 0x7a0508a1, 0x9f4787c3, 0x529e7d00, 0x49231c1e, 0x52f1ccf7) &&
            Round(Working(0xf5702fdb, 0x101fd28f,
                          0x886e7a22, 0x7a0508a1, 0x9f4787c3, 0x529e7d00, 0x49231c1e, 0x52f1ccf7),
                  0x5b9cca4f, 0x1487472c) ==
            Working(0x3ec45cdb, 0xf5702fdb,
                    0x101fd28f, 0x886e7a22, 0xe50e1b4f, 0x9f4787c3, 0x529e7d00, 0x49231c1e) &&
            Round(Working(0x3ec45cdb, 0xf5702fdb,
                          0x101fd28f, 0x886e7a22, 0xe50e1b4f, 0x9f4787c3, 0x529e7d00, 0x49231c1e),
                  0x682e6ff3, 0xb20f7a99) ==
            Working(0x38cc9913, 0x3ec45cdb,
                    0xf5702fdb, 0x101fd28f, 0x54cb266b, 0xe50e1b4f, 0x9f4787c3, 0x529e7d00)
  {
  }

  lemma Step56()
    ensures Round(Working(0x38cc9913, 0x3ec45cdb,
                          0xf5702fdb, 0x101fd28f, 0x54cb266b, 0xe50e1b4f, 0x9f4787c3, 0x529e7d00),
                  0x748f82ee, 0xef57b9cd) ==
            Working(0xfcd1887b, 0x38cc9913,
                    0x3ec45cdb, 0xf5702fdb, 0x9b5e906c, 0x54cb266b, 0xe50e1b4f, 0x9f4787c3) &&
            Round(Working(0xfcd1887b, 0x38cc9913,
                          0x3ec45cdb, 0xf5702fdb, 0x9b5e906c, 0x54cb266b, 0xe50e1b4f, 0x9f4787c3),
                  0x78a5636f, 0xebe6b238) ==
            Working(0xc062d46f, 0xfcd1887b,
                    0x38cc9913, 0x3ec45cdb, 0x7e44008e, 0x9b5e906c, 0x54cb266b, 0xe50e1b4f) &&
            Round(Working(0xc062d46f, 0xfcd1887b,
                          0x38cc9913, 0x3ec45cdb, 0x7e44008e, 0x9b5e906c, 0x54cb266b, 0xe50e1b4f),
                  0x84c87814, 0x9fe3095e) ==
            Working(0xffb70472, 0xc062d46f,
                    0xfcd1887b, 0x38cc9913, 0x6d83bfc6, 0x7e44008e, 0x9b5e906c, 0x54cb266b) &&
            Round(Working(0xffb70472, 0xc062d46f,
                          0xfcd1887b, 0x38cc9913, 0x6d83bfc6, 0x7e44008e, 0x9b5e906c, 0x54cb266b),
                  0x8cc70208, 0x78bc8d4b) ==
            Working(0xb6ae8fff, 0xffb70472,
                    0xc062d46f, 0xfcd1887b, 0xb21bad3d, 0x6d83bfc6, 0x7e44008e, 0x9b5e906c) &&
            Round(Working(0xb6ae8fff, 0xffb70472,
                          0xc062d46f, 0xfcd1887b, 0xb21bad3d, 0x6d83bfc6, 0x7e44008e, 0x9b5e906c),
                  0x90befffa, 0xa43fcf15) ==
            Working(0xb85e2ce9, 0xb6ae8fff,
                    0xffb70472, 0xc062d46f, 0x961f4894, 0xb21bad3d, 0x6d83bfc6, 0x7e44008e) &&
            Round(Working(0xb85e2ce9, 0xb6ae8fff,
                          0xffb70472, 0xc062d46f, 0x961f4894, 0xb21bad3d, 0x6d83bfc6, 0x7e44008e),
                  0xa4506ceb, 0x668b2ff8) ==
            Working(0x04d24d6c, 0xb85e2ce9,
                    0xb6ae8fff, 0xffb70472, 0x948d25b6, 0x961f4894, 0xb21bad3d, 0x6d83bfc6) &&
            Round(Working(0x04d24d6c, 0xb85e2ce9,
                          0xb6ae8fff, 0xffb70472, 0x948d25b6, 0x961f4894, 0xb21bad3d, 0x6d83bfc6),
                  0xbef9a3f7, 0xeeaba2cc) ==
            Working(0xd39a2165, 0x04d24d6c,
                    0xb85e2ce9, 0xb6ae8fff, 0xfb121210, 0x948d25b6, 0x961f4894, 0xb21bad3d) &&
            Round(Working(0xd39a2165, 0x04d24d6c,
                          0xb85e2ce9, 0xb6ae8fff, 0xfb121210, 0x948d25b6, 0x961f4894, 0xb21bad3d),
                  0xc67178f2, 0x12b1edeb) ==
            Working(0x506e3058, 0xd39a2165,
                    0x04d24d6c, 0xb85e2ce9, 0x5ef50f24, 0xfb121210, 0x948d25b6, 0x961f4894)
  {
  }

  lemma Word16()
    ensures Next(0x61626380, 0x00000000, 0x00000000, 0x00000000) == 0x61626380 &&
            Next(0x00000000, 0x00000000, 0x00000000, 0x00000018) == 0x000f0000 &&
            Next(0x00000000, 0x00000000, 0x00000000, 0x61626380) == 0x7da86405 &&
            Next(0x00000000, 0x00000000, 0x00000000, 0x000f0000) == 0x600003c6 &&
            Next(0x00000000, 0x00000000, 0x00000000, 0x7da86405) == 0x3e9d7b78 &&
            Next(0x00000000, 0x00000000, 0x00000000, 0x600003c6) == 0x0183fc00 &&
            Next(0x00000000, 0x00000000, 0x00000018, 0x3e9d7b78) == 0x12dcbfdb &&
            Next(0x00000000, 0x00000000, 0x61626380, 0x0183fc00) == 0xe2e2c38e
  {
  }

  lemma Word24()
    ensures Next(0x00000000, 0x00000000, 0x000f0000, 0x12dcbfdb) == 0xc8215c1a &&
            Next(0x00000000, 0x00000000, 0x7da86405, 0xe2e2c38e) == 0xb73679a2 &&
            Next(0x00000000, 0x00000000, 0x600003c6, 0xc8215c1a) == 0xe5bc3909 &&
            Next(0x00000000, 0x00000000, 0x3e9d7b78, 0xb73679a2) == 0x32663c5b &&
            Next(0x00000000, 0x00000000, 0x0183fc00, 0xe5bc3909) == 0x9d209d67 &&
            Next(0x00000000, 0x00000000, 0x12dcbfdb, 0x32663c5b) == 0xec8726cb &&
            Next(0x00000000, 0x00000018, 0xe2e2c38e, 0x9d209d67) == 0x702138a4 &&
            Next(0x00000018, 0x61626380, 0xc8215c1a, 0xec8726cb) == 0xd3b7973b
  {
  }

  lemma Word32()
    ensures Next(0x61626380, 0x000f0000, 0xb73679a2, 0x702138a4) == 0x93f5997f &&
            Next(0x000f0000, 0x7da86405, 0xe5bc3909, 0xd3b7973b) == 0x3b68ba73 &&
            Next(0x7da86405, 0x600003c6, 0x32663c5b, 0x93f5997f) == 0xaff4ffc1 &&
            Next(0x600003c6, 0x3e9d7b78, 0x9d209d67, 0x3b68ba73) == 0xf10a5c62 &&
            Next(0x3e9d7b78, 0x0183fc00, 0xec8726cb, 0xaff4ffc1) == 0x0a8b3996 &&
            Next(0x0183fc00, 0x12dcbfdb, 0x702138a4, 0xf10a5c62) == 0x72af830a &&
            Next(0x12dcbfdb, 0xe2e2c38e, 0xd3b7973b, 0x0a8b3996) == 0x9409e33e &&
            Next(0xe2e2c38e, 0xc8215c1a, 0x93f5997f, 0x72af830a) == 0x24641522
  {
  }

  lemma Word40()
    ensures Next(0xc8215c1a, 0xb73679a2, 0x3b68ba73, 0x9409e33e) == 0x9f47bf94 &&
            Next(0xb73679a2, 0xe5bc3909, 0xaff4ffc1, 0x24641522) == 0xf0a64f5a &&
            Next(0xe5bc3909, 0x32663c5b, 0xf10a5c62, 0x9f47bf94) == 0x3e246a79 &&
            Next(0x32663c5b, 0x9d209d67, 0x0a8b3996, 0xf0a64f5a) == 0x27333ba3 &&
            Next(0x9d209d67, 0xec8726cb, 0x72af830a, 0x3e246a79) == 0x0c4763f2 &&
            Next(0xec8726cb, 0x702138a4, 0x9409e33e, 0x27333ba3) == 0x840abf27 &&
            Next(0x702138a4, 0xd3b7973b, 0x24641522, 0x0c4763f2) == 0x7a290d5d &&
            Next(0xd3b7973b, 0x93f5997f, 0x9f47bf94, 0x840abf27) == 0x065c43da
  {
  }

  lemma Word48()
    ensures Next(0x93f5997f, 0x3b68ba73, 0xf0a64f5a, 0x7a290d5d) == 0xfb3e89cb &&
            Next(0x3b68ba73, 0xaff4ffc1, 0x3e246a79, 0x065c43da) == 0xcc7617db &&
            Next(0xaff4ffc1, 0xf10a5c62, 0x27333ba3, 0xfb3e89cb) == 0xb9e66c34 &&
            Next(0xf10a5c62, 0x0a8b3996, 0x0c4763f2, 0xcc7617db) == 0xa9993667 &&
            Next(0x0a8b3996, 0x72af830a, 0x840abf27, 0xb9e66c34) == 0x84badedd &&
            Next(0x72af830a, 0x9409e33e, 0x7a290d5d, 0xa9993667) == 0xc21462bc &&
            Next(0x9409e33e, 0x24641522, 0x065c43da, 0x84badedd) == 0x1487472c &&
            Next(0x24641522, 0x9f47bf94, 0xfb3e89cb, 0xc21462bc) == 0xb20f7a99
  {
  }

  lemma Word56()
    ensures Next(0x9f47bf94, 0xf0a64f5a, 0xcc7617db, 0x1487472c) == 0xef57b9cd &&
            Next(0xf0a64f5a, 0x3e246a79, 0xb9e66c34, 0xb20f7a99) == 0xebe6b238 &&
            Next(0x3e246a79, 0x27333ba3, 0xa9993667, 0xef57b9cd) == 0x9fe3095e &&
            Next(0x27333ba3, 0x0c4763f2, 0x84badedd, 0xebe6b238) == 0x78bc8d4b &&
            Next(0x0c4763f2, 0x840abf27, 0xc21462bc, 0x9fe3095e) == 0xa43fcf15 &&
            Next(0x840abf27, 0x7a290d5d, 0x1487472c, 0x78bc8d4b) == 0x668b2ff8 &&
            Next(0x7a290d5d, 0x065c43da, 0xb20f7a99, 0xa43fcf15) == 0xeeaba2cc &&
            Next(0x065c43da, 0xfb3e89cb, 0xef57b9cd, 0x668b2ff8) == 0x12b1edeb
  {
  }

  const WORDS: seq<word> := [
    0x61626380, 0x00000000, 0x00000000, 0x00000000, 0x00000000, 0x00000000, 0x00000000, 0x00000000,
    0x00000000, 0x00000000, 0x00000000, 0x00000000, 0x00000000, 0x00000000, 0x00000000, 0x00000018
  ] + [
    0x61626380, 0x000f0000, 0x7da86405, 0x600003c6, 0x3e9d7b78, 0x0183fc00, 0x12dcbfdb, 0xe2e2c38e,
    0xc8215c1a, 0xb73679a2, 0xe5bc3909, 0x32663c5b, 0x9d209d67, 0xec8726cb, 0x702138a4, 0xd3b7973b
  ] + [
    0x93f5997f, 0x3b68ba73, 0xaff4ffc1, 0xf10a5c62, 0x0a8b3996, 0x72af830a, 0x9409e33e, 0x24641522,
    0x9f47bf94, 0xf0a64f5a, 0x3e246a79, 0x27333ba3, 0x0c4763f2, 0x840abf27, 0x7a290d5d, 0x065c43da
  ] + [
    0xfb3e89cb, 0xcc7617db, 0xb9e66c34, 0xa9993667, 0x84badedd, 0xc21462bc, 0x1487472c, 0xb20f7a99,
    0xef57b9cd, 0xebe6b238, 0x9fe3095e, 0x78bc8d4b, 0xa43fcf15, 0x668b2ff8, 0xeeaba2cc, 0x12b1edeb
  ]

  lemma Words0()
    ensures |WORDS| == 64
    ensures WORDS[0] == 0x61626380 && WORDS[1] == 0x00000000 && WORDS[2] == 0x00000000 && WORDS[3] == 0x00000000 &&
            WORDS[4] == 0x00000000 && WORDS[5] == 0x00000000 && WORDS[6] == 0x00000000 && WORDS[7] == 0x00000000 &&
            WORDS[8] == 0x00000000 && WORDS[9] == 0x00000000 && WORDS[10] == 0x00000000 && WORDS[11] == 0x00000000 &&
            WORDS[12] == 0x00000000 && WORDS[13] == 0x00000000 && WORDS[14] == 0x00000000 && WORDS[15] == 0x00000018
  {
  }

  lemma Words16()
    ensures |WORDS| == 64
    ensures WORDS[16] == 0x61626380 && WORDS[17] == 0x000f0000 && WORDS[18] == 0x7da86405 && WORDS[19] == 0x600003c6 &&
            WORDS[20] == 0x3e9d7b78 && WORDS[21] == 0x0183fc00 && WORDS[22] == 0x12dcbfdb && WORDS[23] == 0xe2e2c38e &&
            WORDS[24] == 0xc8215c1a && WORDS[25] == 0xb73679a2 && WORDS[26] == 0xe5bc3909 && WORDS[27] == 0x32663c5b &&
            WORDS[28] == 0x9d209d67 && WORDS[29] == 0xec8726cb && WORDS[30] == 0x702138a4 && WORDS[31] == 0xd3b7973b
  {
  }

  lemma Words32()
    ensures |WORDS| == 64
    ensures WORDS[32] == 0x93f5997f && WORDS[33] == 0x3b68ba73 && WORDS[34] == 0xaff4ffc1 && WORDS[35] == 0xf10a5c62 &&
            WORDS[36] == 0x0a8b3996 && WORDS[37] == 0x72af830a && WORDS[38] == 0x9409e33e && WORDS[39] == 0x24641522 &&
            WORDS[40] == 0x9f47bf94 && WORDS[41] == 0xf0a64f5a && WORDS[42] == 0x3e246a79 && WORDS[43] == 0x27333ba3 &&
            WORDS[44] == 0x0c4763f2 && WORDS[45] == 0x840abf27 && WORDS[46] == 0x7a290d5d && WORDS[47] == 0x065c43da
  {
  }

  lemma Words48()
    ensures |WORDS| == 64
    ensures WORDS[48] == 0xfb3e89cb && WORDS[49] == 0xcc7617db && WORDS[50] == 0xb9e66c34 && WORDS[51] == 0xa9993667 &&
            WORDS[52] == 0x84badedd && WORDS[53] == 0xc21462bc && WORDS[54] == 0x1487472c && WORDS[55] == 0xb20f7a99 &&
            WORDS[56] == 0xef57b9cd && WORDS[57] == 0xebe6b238 && WORDS[58] == 0x9fe3095e && WORDS[59] == 0x78bc8d4b &&
            WORDS[60] == 0xa43fcf15 && WORDS[61] == 0x668b2ff8 && WORDS[62] == 0xeeaba2cc && WORDS[63] == 0x12b1edeb
  {
  }

  lemma Later16()
    ensures |WORDS| == 64
    ensures Follows(WORDS, 16) && Follows(WORDS, 17) && Follows(WORDS, 18) && Follows(WORDS, 19) &&
            Follows(WORDS, 20) && Follows(WORDS, 21) && Follows(WORDS, 22) && Follows(WORDS, 23)
  {
    Word16();
    Words0();
    Words16();
    hide Next, WORDS;
  }

  lemma Later24()
    ensures |WORDS| == 64
    ensures Follows(WORDS, 24) && Follows(WORDS, 25) && Follows(WORDS, 26) && Follows(WORDS, 27) &&
            Follows(WORDS, 28) && Follows(WORDS, 29) && Follows(WORDS, 30) && Follows(WORDS, 31)
  {
    Word24();
    Words0();
    Words16();
    hide Next, WORDS;
  }

  lemma Later32()
    ensures |WORDS| == 64
    ensures Follows(WORDS, 32) && Follows(WORDS, 33) && Follows(WORDS, 34) && Follows(WORDS, 35) &&
            Follows(WORDS, 36) && Follows(WORDS, 37) && Follows(WORDS, 38) && Follows(WORDS, 39)
  {
    Word32();
    Words16();
    Words32();
    hide Next, WORDS;
  }

  lemma Later40()
    ensures |WORDS| == 64
    ensures Follows(WORDS, 40) && Follows(WORDS, 41) && Follows(WORDS, 42) && Follows(WORDS, 43) &&
            Follows(WORDS, 44) && Follows(WORDS, 45) && Follows(WORDS, 46) && Follows(WORDS, 47)
  {
    Word40();
    Words16();
    Words32();
    hide Next, WORDS;
  }

  lemma Later48()
    ensures |WORDS| == 64
    ensures Follows(WORDS, 48) && Follows(WORDS, 49) && Follows(WORDS, 50) && Follows(WORDS, 51) &&
            Follows(WORDS, 52) && Follows(WORDS, 53) && Follows(WORDS, 54) && Follows(WORDS, 55)
  {
    Word48();
    Words32();
    Words48();
    hide Next, WORDS;
  }

  lemma Later56()
    ensures |WORDS| == 64
    ensures Follows(WORDS, 56) && Follows(WORDS, 57) && Follows(WORDS, 58) && Follows(WORDS, 59) &&
            Follows(WORDS, 60) && Follows(WORDS, 61) && Follows(WORDS, 62) && Follows(WORDS, 63)
  {
    Word56();
    Words32();
    Words48();
    hide Next, WORDS;
  }

  lemma EachLater(i: nat)
    requires 16 <= i < 64
    ensures |WORDS| == 64 && Follows(WORDS, i)
  {
    hide Follows, WORDS;
    Later16();
    Later24();
    Later32();
    Later40();
    Later48();
    Later56();
  }

  lemma AllLater()
    ensures |WORDS| == 64 && LaterWords(WORDS)
  {
    Words0();
    hide WORDS, Follows;
    forall i | 16 <= i < 64 ensures Follows(WORDS, i) {
      EachLater(i);
    }
  }

  lemma OneRound(v: Working, w: seq<word>, t: nat)
    requires t < |w| <= |K|
    ensures Rounds(v, w, t + 1) == Round(Rounds(v, w, t), K[t], w[t])
  {
  }

  lemma After0()
    ensures Rounds(INITIAL, WORDS, 0) ==
              Working(0x6a09e667, 0xbb67ae85, 0x3c6ef372, 0xa54ff53a, 0x510e527f, 0x9b05688c,
                      0x1f83d9ab, 0x5be0cd19)
  {
  }

  lemma After8()
    ensures Rounds(INITIAL, WORDS, 8) ==
              Working(0x85a07b5f, 0xe5030380, 0x2b4209f5, 0x04409a6a, 0x0c657a79, 0x9b27a401,
                      0x714260ad, 0x43ada245)
  {
    After0();
    Words0();
    Constants0();
    Step0();
    hide Rounds, Round, K, WORDS, INITIAL;
    OneRound(INITIAL, WORDS, 0);
    OneRound(INITIAL, WORDS, 1);
    OneRound(INITIAL, WORDS, 2);
    OneRound(INITIAL, WORDS, 3);
    OneRound(INITIAL, WORDS, 4);
    OneRound(INITIAL, WORDS, 5);
    OneRound(INITIAL, WORDS, 6);
    OneRound(INITIAL, WORDS, 7);
  }

  lemma After16()
    ensures Rounds(INITIAL, WORDS, 16) ==
              Working(0xb0fa238e, 0xc0645fde, 0xd932eb16, 0x87912990, 0x07590dcd, 0x0b92f20c,
                      0x745a48de, 0x1e578218)
  {
    After8();
    Words0();
    Constants0();
    Step8();
    hide Rounds, Round, K, WORDS, INITIAL;
    OneRound(INITIAL, WORDS, 8);
    OneRound(INITIAL, WORDS, 9);
    OneRound(INITIAL, WORDS, 10);
    OneRound(INITIAL, WORDS, 11);
    OneRound(INITIAL, WORDS, 12);
    OneRound(INITIAL, WORDS, 13);
    OneRound(INITIAL, WORDS, 14);
    OneRound(INITIAL, WORDS, 15);
  }

  lemma After24()
    ensures Rounds(INITIAL, WORDS, 24) ==
              Working(0xc5d53d8d, 0xa7a3623f, 0xc2606d6d, 0x9dc68b63, 0xaa47c347, 0x49f5114a,
                      0xe1257970, 0x8ada8930)
  {
    After16();
    Words16();
    Constants16();
    Step16();
    hide Rounds, Round, K, WORDS, INITIAL;
    OneRound(INITIAL, WORDS, 16);
    OneRound(INITIAL, WORDS, 17);
    OneRound(INITIAL, WORDS, 18);
    OneRound(INITIAL, WORDS, 19);
    OneRound(INITIAL, WORDS, 20);
    OneRound(INITIAL, WORDS, 21);
    OneRound(INITIAL, WORDS, 22);
    OneRound(INITIAL, WORDS, 23);
  }

  lemma After32()
    ensures Rounds(INITIAL, WORDS, 32) ==
              Working(0x73b33bf5, 0xea992a22, 0xa0060b30, 0x363482c9, 0xba591112, 0x0109ab3a,
                      0xade79437, 0x6112a3b7)
  {
    After24();
    Words16();
    Constants16();
    Step24();
    hide Rounds, Round, K, WORDS, INITIAL;
    OneRound(INITIAL, WORDS, 24);
    OneRound(INITIAL, WORDS, 25);
    OneRound(INITIAL, WORDS, 26);
    OneRound(INITIAL, WORDS, 27);
    OneRound(INITIAL, WORDS, 28);
    OneRound(INITIAL, WORDS, 29);
    OneRound(INITIAL, WORDS, 30);
    OneRound(INITIAL, WORDS, 31);
  }

  lemma After40()
    ensures Rounds(INITIAL, WORDS, 40) ==
              Working(0x79ea687a, 0x6dc57a8a, 0x34df1604, 0x41a65cb1, 0x1efbc0a0, 0xf0781bc8,
                      0xa507a53d, 0x0772a26b)
  {
    After32();
    Words32();
    Constants32();
    Step32();
    hide Rounds, Round, K, WORDS, INITIAL;
    OneRound(INITIAL, WORDS, 32);
    OneRound(INITIAL, WORDS, 33);
    OneRound(INITIAL, WORDS, 34);
    OneRound(INITIAL, WORDS, 35);
    OneRound(INITIAL, WORDS, 36);
    OneRound(INITIAL, WORDS, 37);
    OneRound(INITIAL, WORDS, 38);
    OneRound(INITIAL, WORDS, 39);
  }

  lemma After48()
    ensures Rounds(INITIAL, WORDS, 48) ==
              Working(0x4172328d, 0xa14c14b0, 0x72ab4b91, 0x26628815, 0xfecf0bc6, 0xd57b94a9,
                      0xb7755da1, 0xa80f11f0)
  {
    After40();
    Words32();
    Constants32();
    Step40();
    hide Rounds, Round, K, WORDS, INITIAL;
    OneRound(INITIAL, WORDS, 40);
    OneRound(INITIAL, WORDS, 41);
    OneRound(INITIAL, WORDS, 42);
    OneRound(INITIAL, WORDS, 43);
    OneRound(INITIAL, WORDS, 44);
    OneRound(INITIAL, WORDS, 45);
    OneRound(INITIAL, WORDS, 46);
    OneRound(INITIAL, WORDS, 47);
  }

  lemma After56()
    ensures Rounds(INITIAL, WORDS, 56) ==
              Working(0x38cc9913, 0x3ec45cdb, 0xf5702fdb, 0x101fd28f, 0x54cb266b, 0xe50e1b4f,
                      0x9f4787c3, 0x529e7d00)
  {
    After48();
    Words48();
    Constants48();
    Step48();
    hide Rounds, Round, K, WORDS, INITIAL;
    OneRound(INITIAL, WORDS, 48);
    OneRound(INITIAL, WORDS, 49);
    OneRound(INITIAL, WORDS, 50);
    OneRound(INITIAL, WORDS, 51);
    OneRound(INITIAL, WORDS, 52);
    OneRound(INITIAL, WORDS, 53);
    OneRound(INITIAL, WORDS, 54);
    OneRound(INITIAL, WORDS, 55);
  }

  lemma After64()
    ensures Rounds(INITIAL, WORDS, 64) ==
              Working(0x506e3058, 0xd39a2165, 0x04d24d6c, 0xb85e2ce9, 0x5ef50f24, 0xfb121210,
                      0x948d25b6, 0x961f4894)
  {
    After56();
    Words48();
    Constants48();
    Step56();
    hide Rounds, Round, K, WORDS, INITIAL;
    OneRound(INITIAL, WORDS, 56);
    OneRound(INITIAL, WORDS, 57);
    OneRound(INITIAL, WORDS, 58);
    OneRound(INITIAL, WORDS, 59);
    OneRound(INITIAL, WORDS, 60);
    OneRound(INITIAL, WORDS, 61);
    OneRound(INITIAL, WORDS, 62);
    OneRound(INITIAL, WORDS, 63);
  }

  const ABC: seq<byte> := [97, 98, 99]

  lemma AbcOctets(s: seq<byte>)
    requires s == Pad(ABC)
    ensures |s| == 64 && s[..4] == [97, 98, 99, 0x80]
    ensures forall i | 4 <= i < 63 :: s[i] == 0
    ensures s[63] == 24
  {
    PadMeetsStandard(ABC);
    assert s[..3] == ABC && s[..4] == s[..3] + [s[3]];
    assert s[56..] == BigEndian(24);
  }

  lemma AbcWords(s: seq<byte>)
    requires s == Pad(ABC)
    ensures |s| == 64 && FirstWords(s, WORDS)
  {
    AbcOctets(s);
    SpelledFour(97, 98, 99, 0x80);
    SpelledFour(0, 0, 0, 0);
    SpelledFour(0, 0, 0, 24);
    AbcSlices(s);
    Words0();
    hide WORDS, Spelled, Pad;
    forall i | 0 <= i < 16 ensures WORDS[i] as int == Spelled(s[4 * i..4 * i + 4]) {
      if 0 < i < 15 {
        assert WORDS[i] == 0;
      }
    }
  }

  lemma AbcSlices(s: seq<byte>)
    requires s == Pad(ABC)
    ensures |s| == 64 && s[0..4] == [97, 98, 99, 0x80] && s[60..64] == [0, 0, 0, 24]
    ensures forall i | 0 < i < 15 :: s[4 * i..4 * i + 4] == [0, 0, 0, 0]
  {
    AbcOctets(s);
    hide Pad;
  }

  lemma AbcSchedule(s: seq<byte>)
    requires s == Pad(ABC)
    ensures |s| == 64 && Schedule(s, 64) == WORDS
  {
    AbcWords(s);
    AllLater();
    hide WORDS, FirstWords, LaterWords, Schedule, Pad;
    ScheduleFollows(s, WORDS, 64);
    assert WORDS[..64] == WORDS;
  }

  lemma AbcSum(v: Working)
    requires v == Working(0x506e3058, 0xd39a2165, 0x04d24d6c, 0xb85e2ce9, 0x5ef50f24, 0xfb121210,
                          0x948d25b6, 0x961f4894)
    ensures Words(Add(INITIAL, v)) == [
              0xba7816bf, 0x8f01cfea, 0x414140de, 0x5dae2223,
              0xb00361a3, 0x96177a9c, 0xb410ff61, 0xf20015ad]
  {
  }

  lemma AbcBlocks(s: seq<byte>)
    requires s == Pad(ABC)
    ensures |s| == 64
    ensures Words(Blocks(INITIAL, s)) == [
              0xba7816bf, 0x8f01cfea, 0x414140de, 0x5dae2223,
              0xb00361a3, 0x96177a9c, 0xb410ff61, 0xf20015ad]
  {
    AbcSchedule(s);
    After64();
    Constants0();
    AbcSum(Rounds(INITIAL, WORDS, 64));
    assert [] + s == s;
    hide Schedule, Rounds, WORDS, K, Pad, Add, Words;
    OneBlock(INITIAL, [], s);
  }

  /** The words of a hash value are written one behind the other. */
  lemma {:induction false} SpreadAt(words: seq<word>, i: nat)
    requires i < |words|
    ensures Spread(words)[4 * i..4 * i + 4] == Unpack(words[i])
  {
    hide Unpack;
    var n := |words| - 1;
    assert |Unpack(words[n])| == 4 by {
      FourOctets(words[n]);
    }
    if i < n {
      SpreadAt(words[..n], i);
      assert Spread(words)[4 * i..4 * i + 4] == Spread(words[..n])[4 * i..4 * i + 4];
    }
  }

  lemma FourOctets(w: word)
    ensures |Unpack(w)| == 4
  {
  }

  lemma AbcUnpacked()
    ensures Unpack(0xba7816bf) == [0xba, 0x78, 0x16, 0xbf] &&
            Unpack(0x8f01cfea) == [0x8f, 0x01, 0xcf, 0xea] &&
            Unpack(0x414140de) == [0x41, 0x41, 0x40, 0xde] &&
            Unpack(0x5dae2223) == [0x5d, 0xae, 0x22, 0x23] &&
            Unpack(0xb00361a3) == [0xb0, 0x03, 0x61, 0xa3] &&
            Unpack(0x96177a9c) == [0x96, 0x17, 0x7a, 0x9c] &&
            Unpack(0xb410ff61) == [0xb4, 0x10, 0xff, 0x61] &&
            Unpack(0xf20015ad) == [0xf2, 0x00, 0x15, 0xad]
  {
  }

  lemma AbcHash(h: seq<byte>, p: seq<byte>)
    requires h == Hash(ABC) && p == Pad(ABC) && |p| % 64 == 0
    ensures forall i | 0 <= i < 8 :: h[4 * i..4 * i + 4] == Unpack(Words(Blocks(INITIAL, p))[i])
  {
    hide Blocks, Words, Unpack, Spread, Pad;
    forall i | 0 <= i < 8 ensures h[4 * i..4 * i + 4] == Unpack(Words(Blocks(INITIAL, p))[i]) {
      SpreadAt(Words(Blocks(INITIAL, p)), i);
    }
  }

  lemma Slices(h: seq<byte>)
    requires |h| == 32
    ensures h == h[0..4] + h[4..8] + h[8..12] + h[12..16] + h[16..20] + h[20..24] + h[24..28] + h[28..32]
  {
  }

  /** The digest that the standard's own example gives for the message "abc". */
  lemma AbcIsKnown()
    ensures Hash(ABC) == [0xba, 0x78, 0x16, 0xbf] + [0x8f, 0x01, 0xcf, 0xea] + [0x41, 0x41, 0x40, 0xde] +
              [0x5d, 0xae, 0x22, 0x23] + [0xb0, 0x03, 0x61, 0xa3] + [0x96, 0x17, 0x7a, 0x9c] +
              [0xb4, 0x10, 0xff, 0x61] + [0xf2, 0x00, 0x15, 0xad]
  {
    hide Hash, Blocks, Words, Unpack, Spread, Pad, ABC, INITIAL;
    var h, p := Hash(ABC), Pad(ABC);
    AbcBlocks(p);
    AbcHash(h, p);
    AbcUnpacked();
    Slices(h);
    var w := Words(Blocks(INITIAL, p));
    assert h[4 * 0..4 * 0 + 4] == Unpack(w[0]) && h[4 * 1..4 * 1 + 4] == Unpack(w[1]);
    assert h[4 * 2..4 * 2 + 4] == Unpack(w[2]) && h[4 * 3..4 * 3 + 4] == Unpack(w[3]);
    assert h[4 * 4..4 * 4 + 4] == Unpack(w[4]) && h[4 * 5..4 * 5 + 4] == Unpack(w[5]);
    assert h[4 * 6..4 * 6 + 4] == Unpack(w[6]) && h[4 * 7..4 * 7 + 4] == Unpack(w[7]);
  }

  // ----- Section 2 of RFC 2104: the masks

  /** The bit of weight 2^k. */
  predicate Bit(b: byte, k: nat)
    requires k < 8
  {
    var v := b as bv8;
    match k
    case 0 => v & 1 != 0
    case 1 => v & 2 != 0
    case 2 => v & 4 != 0
    case 3 => v & 8 != 0
    case 4 => v & 16 != 0
    case 5 => v & 32 != 0
    case 6 => v & 64 != 0
    case _ => v & 128 != 0
  }

  predicate FlipsOctet(a: byte, b: byte, bits: set<nat>) {
    forall k | 0 <= k < 8 :: Bit(b, k) != Bit(a, k) <==> k in bits
  }

  predicate Flips(s: seq<byte>, t: seq<byte>, bits: set<nat>) {
    |s| == |t| && forall i | 0 <= i < |s| :: FlipsOctet(s[i], t[i], bits)
  }

  lemma InnerBits(a: byte, k: nat)
    requires k < 8
    ensures Bit(XorOctet(a, 0x36), k) != Bit(a, k) <==> k in {1, 2, 4, 5}
  {
    BackAgain((a as bv8) ^ 0x36);
  }

  lemma OuterBits(a: byte, k: nat)
    requires k < 8
    ensures Bit(XorOctet(a, 0x5c), k) != Bit(a, k) <==> k in {2, 3, 4, 6}
  {
    BackAgain((a as bv8) ^ 0x5c);
  }

  lemma SameBits(a: byte, b: byte)
    requires forall k | 0 <= k < 8 :: Bit(a, k) == Bit(b, k)
    ensures a == b
  {
    OctetBits(a);
    OctetBits(b);
    assert Bit(a, 0) == Bit(b, 0) && Bit(a, 1) == Bit(b, 1) && Bit(a, 2) == Bit(b, 2) && Bit(a, 3) == Bit(b, 3);
    assert Bit(a, 4) == Bit(b, 4) && Bit(a, 5) == Bit(b, 5) && Bit(a, 6) == Bit(b, 6) && Bit(a, 7) == Bit(b, 7);
  }

  lemma SameFlips(s: seq<byte>, a: seq<byte>, b: seq<byte>, bits: set<nat>)
    requires Flips(s, a, bits) && Flips(s, b, bits)
    ensures a == b
  {
    forall i | 0 <= i < |s| ensures a[i] == b[i] {
      SameOctet(s[i], a[i], b[i], bits);
    }
  }

  lemma SameOctet(s: byte, a: byte, b: byte, bits: set<nat>)
    requires FlipsOctet(s, a, bits) && FlipsOctet(s, b, bits)
    ensures a == b
  {
    forall k | 0 <= k < 8 ensures Bit(a, k) == Bit(b, k) {
      assert Bit(a, k) != Bit(s, k) <==> k in bits;
      assert Bit(b, k) != Bit(s, k) <==> k in bits;
    }
    SameBits(a, b);
  }

  /**
   The tag of a key and a text, for the blocks that differ from the extended key in the bits of the
   inner and of the outer mask.
   */
  lemma HmacMeetsStandard(key: seq<byte>, text: seq<byte>, inner: seq<byte>, outer: seq<byte>)
    requires |key| <= 64
    requires Flips(key + Zeros(64 - |key|), inner, {1, 2, 4, 5})
    requires Flips(key + Zeros(64 - |key|), outer, {2, 3, 4, 6})
    ensures Hmac(key, text) == Hash(outer + Hash(inner + text))
  {
    var block := key + Zeros(64 - |key|);
    var i, o := Xor(block, 0x36), Xor(block, 0x5c);
    Masked(block, i, o);
    hide Bit, Hash, Flips;
    SameFlips(block, i, inner, {1, 2, 4, 5});
    SameFlips(block, o, outer, {2, 3, 4, 6});
  }

  lemma Masked(block: seq<byte>, i: seq<byte>, o: seq<byte>)
    requires i == Xor(block, 0x36) && o == Xor(block, 0x5c)
    ensures Flips(block, i, {1, 2, 4, 5}) && Flips(block, o, {2, 3, 4, 6})
  {
    hide Bit;
    forall j | 0 <= j < |block|
      ensures FlipsOctet(block[j], i[j], {1, 2, 4, 5}) && FlipsOctet(block[j], o[j], {2, 3, 4, 6})
    {
      forall k | 0 <= k < 8
        ensures Bit(i[j], k) != Bit(block[j], k) <==> k in {1, 2, 4, 5}
        ensures Bit(o[j], k) != Bit(block[j], k) <==> k in {2, 3, 4, 6}
      {
        InnerBits(block[j], k);
        OuterBits(block[j], k);
      }
    }
  }

}
