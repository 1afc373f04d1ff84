/** The constants of SHA-256 are what sections 4.2.2 and 5.3.3 of FIPS 180-4 say: the first 32 bits of the fractional
    parts of the cube roots of the first 64 primes, and of the square roots of the first eight. */
module Sha256Tables {
  import opened Sha256

  // ---------- The first 64 primes ----------

  predicate Divides(d: nat, n: nat)
    requires d > 0
  {
    n % d == 0
  }

  ghost predicate IsPrime(n: nat) {
    n >= 2 && forall d :: 2 <= d < n ==> !Divides(d, n)
  }

  function PrimeRow(row: nat): (r: seq<nat>)
    requires row < 8
    ensures |r| == 8
  {
    if row == 0 then [2, 3, 5, 7, 11, 13, 17, 19]
    else if row == 1 then [23, 29, 31, 37, 41, 43, 47, 53]
    else if row == 2 then [59, 61, 67, 71, 73, 79, 83, 89]
    else if row == 3 then [97, 101, 103, 107, 109, 113, 127, 131]
    else if row == 4 then [137, 139, 149, 151, 157, 163, 167, 173]
    else if row == 5 then [179, 181, 191, 193, 197, 199, 211, 223]
    else if row == 6 then [227, 229, 233, 239, 241, 251, 257, 263]
    else [269, 271, 277, 281, 283, 293, 307, 311]
  }

  function Prime(i: nat): nat
    requires i < 64
  {
    PrimeRow(i / 8)[i % 8]
  }

  /** No number from 2 to 18 divides n, unless it is n itself. */
  predicate NoSmallDivisor(n: nat) {
    && (n <= 2 || n % 2 != 0) && (n <= 3 || n % 3 != 0) && (n <= 5 || n % 5 != 0) && (n <= 7 || n % 7 != 0)
    && (n <= 11 || n % 11 != 0) && (n <= 13 || n % 13 != 0) && (n <= 17 || n % 17 != 0)
  }

  lemma Multiple(d: nat, e: nat, n: nat)
    requires 0 < e && 0 < d && Divides(d, n) && d % e == 0
    ensures n % e == 0
  {
    var q, k := n / d, d / e;
    assert n == d * q && d == e * k;
    assert n == e * (k * q);
    Product(e, k * q);
  }

  lemma Product(e: nat, k: nat)
    requires e > 0
    ensures (e * k) % e == 0
  {
    DivUnique(e * k, e, k, 0);
  }

  lemma SmallFactor(f: nat, n: nat)
    requires 2 <= f <= 18 && f < n && Divides(f, n)
    ensures !NoSmallDivisor(n)
  {
    if f % 2 == 0 {
      Multiple(f, 2, n);
    } else if f % 3 == 0 {
      Multiple(f, 3, n);
    }
  }

  lemma Quotient(d: nat, n: nat)
    requires 2 <= d < n && Divides(d, n)
    ensures 2 <= n / d < n && Divides(n / d, n)
    ensures n < 361 ==> d <= 18 || n / d <= 18
  {
    var q := n / d;
    assert n == d * q;
    Cofactor(d, q);
    Product(q, d);
  }

  lemma Cofactor(d: nat, q: nat)
    requires 2 <= d < d * q
    ensures 2 <= q < d * q
    ensures d * q < 361 ==> d <= 18 || q <= 18
  {
    assert d * 0 == 0 && d * 1 == d;
    assert q != 0 && q != 1;
    assert q * 2 <= q * d;
    if d >= 19 && q >= 19 {
      assert d * 19 <= d * q;
    }
  }

  /** Below 361, trial division by the primes up to 17 decides. */
  lemma PrimeBelow(n: nat)
    requires 2 <= n < 361
    ensures IsPrime(n) <==> NoSmallDivisor(n)
  {
    if NoSmallDivisor(n) {
      forall d | 2 <= d < n ensures !Divides(d, n) {
        if Divides(d, n) {
          Quotient(d, n);
          SmallFactor(if d <= 18 then d else n / d, n);
        }
      }
    } else {
      var d := if n % 2 == 0 && n > 2 then 2 else if n % 3 == 0 && n > 3 then 3 else if n % 5 == 0 && n > 5 then 5
               else if n % 7 == 0 && n > 7 then 7 else if n % 11 == 0 && n > 11 then 11
               else if n % 13 == 0 && n > 13 then 13 else 17;
      assert Divides(d, n);
    }
  }

  ghost predicate NextPrime(a: nat, b: nat) {
    a < b && IsPrime(b) && forall q :: a < q < b ==> !IsPrime(q)
  }

  /** Trial division finds no prime between a and b. */
  predicate NoneBetween(a: nat, b: nat)
    decreases b - a
  {
    a + 1 >= b || ((a == 0 || !NoSmallDivisor(a + 1)) && NoneBetween(a + 1, b))
  }

  lemma {:induction false} NoPrimeBetween(a: nat, b: nat)
    requires b < 361 && NoneBetween(a, b)
    ensures forall q :: a < q < b ==> !IsPrime(q)
    decreases b - a
  {
    hide IsPrime, NoSmallDivisor;
    if a + 1 < b {
      NoPrimeBetween(a + 1, b);
      if a == 0 { OneIsNone(); } else { PrimeBelow(a + 1); }
      forall q | a < q < b ensures !IsPrime(q) {
        assert q == a + 1 || a + 1 < q;
      }
    }
  }

  lemma OneIsNone()
    ensures !IsPrime(1)
  {
  }

  // ---------- Roots ----------

  /** r is the cube root of n, rounded down. */
  predicate CubeRoot(r: nat, n: nat) {
    r * r * r <= n < (r + 1) * (r + 1) * (r + 1)
  }

  /** r is the square root of n, rounded down. */
  predicate SquareRoot(r: nat, n: nat) {
    r * r <= n < (r + 1) * (r + 1)
  }

  const TWO32: nat := 0x1_0000_0000
  const TWO96: nat := 0x1_0000_0000_0000_0000_0000_0000

  lemma LowBits(whole: nat, k: nat)
    requires k < TWO32
    ensures (whole * TWO32 + k) % TWO32 == k
  {
  }

  function Before(i: nat): nat
    requires i < 64
  {
    if i == 0 then 0 else Prime(i - 1)
  }

  /** The prime at i is the next after the one before it. */
  ghost predicate RightPrime(i: nat)
    requires i < 64
  {
    NextPrime(Before(i), Prime(i))
  }

  lemma PrimeEntry(i: nat, a: nat, b: nat)
    requires i < 64 && Before(i) == a && Prime(i) == b
    requires a < b && 2 <= b < 361 && NoSmallDivisor(b) && NoneBetween(a, b)
    ensures RightPrime(i)
  {
    hide NoSmallDivisor, IsPrime, NoneBetween;
    PrimeBelow(b);
    NoPrimeBetween(a, b);
  }

  lemma Primes0()
    ensures forall i :: 0 <= i < 8 ==> RightPrime(i)
  {
    hide RightPrime;
    PrimeEntry(0, 0, 2);
    PrimeEntry(1, 2, 3);
    PrimeEntry(2, 3, 5);
    PrimeEntry(3, 5, 7);
    PrimeEntry(4, 7, 11);
    PrimeEntry(5, 11, 13);
    PrimeEntry(6, 13, 17);
    PrimeEntry(7, 17, 19);
  }

  lemma Primes1()
    ensures forall i :: 8 <= i < 16 ==> RightPrime(i)
  {
    hide RightPrime;
    PrimeEntry(8, 19, 23);
    PrimeEntry(9, 23, 29);
    PrimeEntry(10, 29, 31);
    PrimeEntry(11, 31, 37);
    PrimeEntry(12, 37, 41);
    PrimeEntry(13, 41, 43);
    PrimeEntry(14, 43, 47);
    PrimeEntry(15, 47, 53);
  }

  lemma Primes2()
    ensures forall i :: 16 <= i < 24 ==> RightPrime(i)
  {
    hide RightPrime;
    PrimeEntry(16, 53, 59);
    PrimeEntry(17, 59, 61);
    PrimeEntry(18, 61, 67);
    PrimeEntry(19, 67, 71);
    PrimeEntry(20, 71, 73);
    PrimeEntry(21, 73, 79);
    PrimeEntry(22, 79, 83);
    PrimeEntry(23, 83, 89);
  }

  lemma Primes3()
    ensures forall i :: 24 <= i < 32 ==> RightPrime(i)
  {
    hide RightPrime;
    PrimeEntry(24, 89, 97);
    PrimeEntry(25, 97, 101);
    PrimeEntry(26, 101, 103);
    PrimeEntry(27, 103, 107);
    PrimeEntry(28, 107, 109);
    PrimeEntry(29, 109, 113);
    PrimeEntry(30, 113, 127);
    PrimeEntry(31, 127, 131);
  }

  lemma Primes4()
    ensures forall i :: 32 <= i < 40 ==> RightPrime(i)
  {
    hide RightPrime;
    PrimeEntry(32, 131, 137);
    PrimeEntry(33, 137, 139);
    PrimeEntry(34, 139, 149);
    PrimeEntry(35, 149, 151);
    PrimeEntry(36, 151, 157);
    PrimeEntry(37, 157, 163);
    PrimeEntry(38, 163, 167);
    PrimeEntry(39, 167, 173);
  }

  lemma Primes5()
    ensures forall i :: 40 <= i < 48 ==> RightPrime(i)
  {
    hide RightPrime;
    PrimeEntry(40, 173, 179);
    PrimeEntry(41, 179, 181);
    PrimeEntry(42, 181, 191);
    PrimeEntry(43, 191, 193);
    PrimeEntry(44, 193, 197);
    PrimeEntry(45, 197, 199);
    PrimeEntry(46, 199, 211);
    PrimeEntry(47, 211, 223);
  }

  lemma Primes6()
    ensures forall i :: 48 <= i < 56 ==> RightPrime(i)
  {
    hide RightPrime;
    PrimeEntry(48, 223, 227);
    PrimeEntry(49, 227, 229);
    PrimeEntry(50, 229, 233);
    PrimeEntry(51, 233, 239);
    PrimeEntry(52, 239, 241);
    PrimeEntry(53, 241, 251);
    PrimeEntry(54, 251, 257);
    PrimeEntry(55, 257, 263);
  }

  lemma Primes7()
    ensures forall i :: 56 <= i < 64 ==> RightPrime(i)
  {
    hide RightPrime;
    PrimeEntry(56, 263, 269);
    PrimeEntry(57, 269, 271);
    PrimeEntry(58, 271, 277);
    PrimeEntry(59, 277, 281);
    PrimeEntry(60, 281, 283);
    PrimeEntry(61, 283, 293);
    PrimeEntry(62, 293, 307);
    PrimeEntry(63, 307, 311);
  }

  /** The table holds the first 64 primes. */
  lemma FirstPrimes()
    ensures forall i :: 0 <= i < 64 ==> RightPrime(i)
  {
    hide RightPrime;
    Primes0();
    Primes1();
    Primes2();
    Primes3();
    Primes4();
    Primes5();
    Primes6();
    Primes7();
  }

  /** The constant of round i is the fractional part of the cube root of its prime, to 32 bits. */
  ghost predicate RightRound(i: nat)
    requires i < 64
  {
    exists r: nat :: CubeRoot(r, Prime(i) * TWO96) && r % TWO32 == K()[i] as nat
  }

  lemma RoundEntry(i: nat, p: nat, whole: nat, w: Word, k: nat)
    requires i < 64 && Prime(i) == p && RoundRow(i / 8)[i % 8] == w && w as nat == k
    requires CubeRoot(whole * TWO32 + k, p * TWO96)
    ensures RightRound(i)
  {
    hide CubeRoot;
    LowBits(whole, k);
  }

  lemma Rounds0()
    ensures forall i :: 0 <= i < 8 ==> RightRound(i)
  {
    hide RightRound;
    RoundEntry(0, 2, 1, 0x428a2f98, 0x428a2f98);
    RoundEntry(1, 3, 1, 0x71374491, 0x71374491);
    RoundEntry(2, 5, 1, 0xb5c0fbcf, 0xb5c0fbcf);
    RoundEntry(3, 7, 1, 0xe9b5dba5, 0xe9b5dba5);
    RoundEntry(4, 11, 2, 0x3956c25b, 0x3956c25b);
    RoundEntry(5, 13, 2, 0x59f111f1, 0x59f111f1);
    RoundEntry(6, 17, 2, 0x923f82a4, 0x923f82a4);
    RoundEntry(7, 19, 2, 0xab1c5ed5, 0xab1c5ed5);
  }

  lemma Rounds1()
    ensures forall i :: 8 <= i < 16 ==> RightRound(i)
  {
    hide RightRound;
    RoundEntry(8, 23, 2, 0xd807aa98, 0xd807aa98);
    RoundEntry(9, 29, 3, 0x12835b01, 0x12835b01);
    RoundEntry(10, 31, 3, 0x243185be, 0x243185be);
    RoundEntry(11, 37, 3, 0x550c7dc3, 0x550c7dc3);
    RoundEntry(12, 41, 3, 0x72be5d74, 0x72be5d74);
    RoundEntry(13, 43, 3, 0x80deb1fe, 0x80deb1fe);
    RoundEntry(14, 47, 3, 0x9bdc06a7, 0x9bdc06a7);
    RoundEntry(15, 53, 3, 0xc19bf174, 0xc19bf174);
  }

  lemma Rounds2()
    ensures forall i :: 16 <= i < 24 ==> RightRound(i)
  {
    hide RightRound;
    RoundEntry(16, 59, 3, 0xe49b69c1, 0xe49b69c1);
    RoundEntry(17, 61, 3, 0xefbe4786, 0xefbe4786);
    RoundEntry(18, 67, 4, 0x0fc19dc6, 0x0fc19dc6);
    RoundEntry(19, 71, 4, 0x240ca1cc, 0x240ca1cc);
    RoundEntry(20, 73, 4, 0x2de92c6f, 0x2de92c6f);
    RoundEntry(21, 79, 4, 0x4a7484aa, 0x4a7484aa);
    RoundEntry(22, 83, 4, 0x5cb0a9dc, 0x5cb0a9dc);
    RoundEntry(23, 89, 4, 0x76f988da, 0x76f988da);
  }

  lemma Rounds3()
    ensures forall i :: 24 <= i < 32 ==> RightRound(i)
  {
    hide RightRound;
    RoundEntry(24, 97, 4, 0x983e5152, 0x983e5152);
    RoundEntry(25, 101, 4, 0xa831c66d, 0xa831c66d);
    RoundEntry(26, 103, 4, 0xb00327c8, 0xb00327c8);
    RoundEntry(27, 107, 4, 0xbf597fc7, 0xbf597fc7);
    RoundEntry(28, 109, 4, 0xc6e00bf3, 0xc6e00bf3);
    RoundEntry(29, 113, 4, 0xd5a79147, 0xd5a79147);
    RoundEntry(30, 127, 5, 0x06ca6351, 0x06ca6351);
    RoundEntry(31, 131, 5, 0x14292967, 0x14292967);
  }

  lemma Rounds4()
    ensures forall i :: 32 <= i < 40 ==> RightRound(i)
  {
    hide RightRound;
    RoundEntry(32, 137, 5, 0x27b70a85, 0x27b70a85);
    RoundEntry(33, 139, 5, 0x2e1b2138, 0x2e1b2138);
    RoundEntry(34, 149, 5, 0x4d2c6dfc, 0x4d2c6dfc);
    RoundEntry(35, 151, 5, 0x53380d13, 0x53380d13);
    RoundEntry(36, 157, 5, 0x650a7354, 0x650a7354);
    RoundEntry(37, 163, 5, 0x766a0abb, 0x766a0abb);
    RoundEntry(38, 167, 5, 0x81c2c92e, 0x81c2c92e);
    RoundEntry(39, 173, 5, 0x92722c85, 0x92722c85);
  }

  lemma Rounds5()
    ensures forall i :: 40 <= i < 48 ==> RightRound(i)
  {
    hide RightRound;
    RoundEntry(40, 179, 5, 0xa2bfe8a1, 0xa2bfe8a1);
    RoundEntry(41, 181, 5, 0xa81a664b, 0xa81a664b);
    RoundEntry(42, 191, 5, 0xc24b8b70, 0xc24b8b70);
    RoundEntry(43, 193, 5, 0xc76c51a3, 0xc76c51a3);
    RoundEntry(44, 197, 5, 0xd192e819, 0xd192e819);
    RoundEntry(45, 199, 5, 0xd6990624, 0xd6990624);
    RoundEntry(46, 211, 5, 0xf40e3585, 0xf40e3585);
    RoundEntry(47, 223, 6, 0x106aa070, 0x106aa070);
  }

  lemma Rounds6()
    ensures forall i :: 48 <= i < 56 ==> RightRound(i)
  {
    hide RightRound;
    RoundEntry(48, 227, 6, 0x19a4c116, 0x19a4c116);
    RoundEntry(49, 229, 6, 0x1e376c08, 0x1e376c08);
    RoundEntry(50, 233, 6, 0x2748774c, 0x2748774c);
    RoundEntry(51, 239, 6, 0x34b0bcb5, 0x34b0bcb5);
    RoundEntry(52, 241, 6, 0x391c0cb3, 0x391c0cb3);
    RoundEntry(53, 251, 6, 0x4ed8aa4a, 0x4ed8aa4a);
    RoundEntry(54, 257, 6, 0x5b9cca4f, 0x5b9cca4f);
    RoundEntry(55, 263, 6, 0x682e6ff3, 0x682e6ff3);
  }

  lemma Rounds7()
    ensures forall i :: 56 <= i < 64 ==> RightRound(i)
  {
    hide RightRound;
    RoundEntry(56, 269, 6, 0x748f82ee, 0x748f82ee);
    RoundEntry(57, 271, 6, 0x78a5636f, 0x78a5636f);
    RoundEntry(58, 277, 6, 0x84c87814, 0x84c87814);
    RoundEntry(59, 281, 6, 0x8cc70208, 0x8cc70208);
    RoundEntry(60, 283, 6, 0x90befffa, 0x90befffa);
    RoundEntry(61, 293, 6, 0xa4506ceb, 0xa4506ceb);
    RoundEntry(62, 307, 6, 0xbef9a3f7, 0xbef9a3f7);
    RoundEntry(63, 311, 6, 0xc67178f2, 0xc67178f2);
  }

  /** All round constants are those of the standard. */
  lemma RoundConstants()
    ensures forall i :: 0 <= i < 64 ==> RightRound(i)
  {
    hide RightRound;
    Rounds0();
    Rounds1();
    Rounds2();
    Rounds3();
    Rounds4();
    Rounds5();
    Rounds6();
    Rounds7();
  }

  /** Word i of the initial hash is the fractional part of the square root of its prime, to 32 bits. */
  ghost predicate RightStart(i: nat)
    requires i < 8
  {
    exists r: nat :: SquareRoot(r, Prime(i) * TWO64) && r % TWO32 == InitialHash()[i] as nat
  }

  lemma Start(i: nat, p: nat, whole: nat, w: Word, h: nat)
    requires i < 8 && Prime(i) == p && InitialHash()[i] == w && w as nat == h
    requires SquareRoot(whole * TWO32 + h, p * TWO64)
    ensures RightStart(i)
  {
    hide SquareRoot;
    LowBits(whole, h);
  }

  /** So are the words of the initial hash. */
  lemma InitialWords()
    ensures forall i :: 0 <= i < 8 ==> RightStart(i)
  {
    hide RightStart;
    Start(0, 2, 1, 0x6a09e667, 0x6a09e667);
    Start(1, 3, 1, 0xbb67ae85, 0xbb67ae85);
    Start(2, 5, 2, 0x3c6ef372, 0x3c6ef372);
    Start(3, 7, 2, 0xa54ff53a, 0xa54ff53a);
    Start(4, 11, 3, 0x510e527f, 0x510e527f);
    Start(5, 13, 3, 0x9b05688c, 0x9b05688c);
    Start(6, 17, 4, 0x1f83d9ab, 0x1f83d9ab);
    Start(7, 19, 4, 0x5be0cd19, 0x5be0cd19);
  }

  // ---------- The worked example of the standard: the hash of "abc" (FIPS 180-2, appendix B.1) ----------

  /** The message fills one block, its length in bits at the end. */
  lemma PaddedAbc()
    ensures [0x61, 0x62, 0x63] + Padding(3) == [0x61, 0x62, 0x63, 0x80] + Zeros(59) + [0x18]
  {
    hide LengthBytes;
    LengthOfAbc();
    assert Zeros(52) + Zeros(7) == Zeros(59);
  }

  lemma LengthOfAbc()
    ensures LengthBytes(24) == Zeros(7) + [0x18]
  {
    hide Pow256, PowOf;
    forall i | 0 <= i < 8 ensures LengthBytes(24)[i] == (Zeros(7) + [0x18])[i] {
      PowValue(7 - i);
      SmallByte(7 - i);
    }
  }

  lemma SmallByte(i: nat)
    requires i < 8
    ensures 24 / PowOf(i) == if i == 0 then 24 else 0
  {
  }

  lemma FirstWord()
    ensures BigEndian(0x61, 0x62, 0x63, 0x80) == 0x61626380
  {
  }

  /** The first sixteen words of the schedule are those of the block; the next is made of four of them. */
  lemma ScheduleStarts(block: seq<Byte>, t: nat)
    requires |block| == 64 && t < 16
    ensures W(block, t) == BigEndian(block[4 * t], block[4 * t + 1], block[4 * t + 2], block[4 * t + 3])
    ensures W(block, 16) == Extended(W(block, 14), W(block, 9), W(block, 1), W(block, 0))
  {
    hide Extended, BigEndian;
  }

  /** Word 40 of the schedule. */
  lemma ScheduledWord()
    ensures Extended(0x9409e33e, 0x3b68ba73, 0xb73679a2, 0xc8215c1a) == 0x9f47bf94
  {
  }

  /** The working variables after the first round. */
  lemma FirstRound()
    ensures Round(Vars(0x6a09e667, 0xbb67ae85, 0x3c6ef372, 0xa54ff53a,
                       0x510e527f, 0x9b05688c, 0x1f83d9ab, 0x5be0cd19),
                  0x428a2f98, 0x61626380)
         == Vars(0x5d6aebcd, 0x6a09e667, 0xbb67ae85, 0x3c6ef372,
                 0xfa2a4622, 0x510e527f, 0x9b05688c, 0x1f83d9ab)
  {
  }

  /** And after the last. */
  lemma LastRound()
    ensures Round(Vars(0xd39a2165, 0x04d24d6c, 0xb85e2ce9, 0xb6ae8fff,
                       0xfb121210, 0x948d25b6, 0x961f4894, 0xb21bad3d),
                  0xc67178f2, 0x12b1edeb)
         == Vars(0x506e3058, 0xd39a2165, 0x04d24d6c, 0xb85e2ce9,
                 0x5ef50f24, 0xfb121210, 0x948d25b6, 0x961f4894)
  {
  }

  lemma FirstBytes()
    ensures ByteOf(0xba7816bf, 0) == 0xba && ByteOf(0xba7816bf, 3) == 0xbf && Hex([0xba, 0x78]) == "ba78"
  {
    assert [0xba as Byte, 0x78][..1] == [0xba];
  }
}
