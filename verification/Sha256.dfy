/** SHA-256 as FIPS 180-4 defines it, and the block-streaming implementation of src/util/sha256.cpp. */
module Sha256 {

  type Byte = bv8
  type Word = bv32

  // ---------- FIPS 180-4, sections 3.2 and 4.1.2 ----------

  /** Addition modulo 2^32. */
  function Plus(x: Word, y: Word): Word {
    x + y
  }

  function Rotr(x: Word, n: bv6): Word
    requires 0 < n < 32
  {
    (x >> n) | (x << (32 - n))
  }

  function Ch(x: Word, y: Word, z: Word): Word {
    (x & y) ^ (!x & z)
  }

  function Maj(x: Word, y: Word, z: Word): Word {
    (x & y) ^ (x & z) ^ (y & z)
  }

  function BigSigma0(x: Word): Word {
    Rotr(x, 2) ^ Rotr(x, 13) ^ Rotr(x, 22)
  }

  function BigSigma1(x: Word): Word {
    Rotr(x, 6) ^ Rotr(x, 11) ^ Rotr(x, 25)
  }

  function SmallSigma0(x: Word): Word {
    Rotr(x, 7) ^ Rotr(x, 18) ^ (x >> 3)
  }

  function SmallSigma1(x: Word): Word {
    Rotr(x, 17) ^ Rotr(x, 19) ^ (x >> 10)
  }

  // ---------- Sections 4.2.2 and 5.3.3 ----------

  // The two tables; Sha256Tables shows that they are those of the standard.

  /** Eight round constants. */
  function RoundRow(row: nat): (r: seq<Word>)
    requires row < 8
    ensures |r| == 8
  {
    if row == 0 then
      [0x428a2f98, 0x71374491, 0xb5c0fbcf, 0xe9b5dba5, 0x3956c25b, 0x59f111f1, 0x923f82a4, 0xab1c5ed5]
    else if row == 1 then
      [0xd807aa98, 0x12835b01, 0x243185be, 0x550c7dc3, 0x72be5d74, 0x80deb1fe, 0x9bdc06a7, 0xc19bf174]
    else if row == 2 then
      [0xe49b69c1, 0xefbe4786, 0x0fc19dc6, 0x240ca1cc, 0x2de92c6f, 0x4a7484aa, 0x5cb0a9dc, 0x76f988da]
    else if row == 3 then
      [0x983e5152, 0xa831c66d, 0xb00327c8, 0xbf597fc7, 0xc6e00bf3, 0xd5a79147, 0x06ca6351, 0x14292967]
    else if row == 4 then
      [0x27b70a85, 0x2e1b2138, 0x4d2c6dfc, 0x53380d13, 0x650a7354, 0x766a0abb, 0x81c2c92e, 0x92722c85]
    else if row == 5 then
      [0xa2bfe8a1, 0xa81a664b, 0xc24b8b70, 0xc76c51a3, 0xd192e819, 0xd6990624, 0xf40e3585, 0x106aa070]
    else if row == 6 then
      [0x19a4c116, 0x1e376c08, 0x2748774c, 0x34b0bcb5, 0x391c0cb3, 0x4ed8aa4a, 0x5b9cca4f, 0x682e6ff3]
    else
      [0x748f82ee, 0x78a5636f, 0x84c87814, 0x8cc70208, 0x90befffa, 0xa4506ceb, 0xbef9a3f7, 0xc67178f2]
  }

  function K(): (r: seq<Word>)
    ensures |r| == 64
  {
    seq(64, i requires 0 <= i < 64 => RoundRow(i / 8)[i % 8])
  }

  function InitialHash(): (r: seq<Word>)
    ensures |r| == 8
  {
    [0x6a09e667, 0xbb67ae85, 0x3c6ef372, 0xa54ff53a, 0x510e527f, 0x9b05688c, 0x1f83d9ab, 0x5be0cd19]
  }

  // ---------- Sections 5.1.1 and 5.2.1: padding and blocks ----------

  /** The smallest number of zero bytes that leaves room for eight bytes in the last block. */
  function ZeroCount(n: nat): nat {
    if n % 64 < 56 then 55 - n % 64 else 119 - n % 64
  }

  predicate FillsBlock(n: nat, zeros: nat) {
    (n + 1 + zeros) % 64 == 56
  }

  lemma ZeroCountIsSmallest(n: nat)
    ensures FillsBlock(n, ZeroCount(n))
    ensures forall k: nat :: FillsBlock(n, k) ==> ZeroCount(n) <= k
  {
    assert n == 64 * (n / 64) + n % 64;
  }

  function Zeros(n: nat): seq<Byte> {
    seq(n, _ => 0)
  }

  function Pow256(n: nat): (r: nat)
    ensures r > 0
  {
    if n == 0 then 1 else 256 * Pow256(n - 1)
  }

  /** x in eight bytes, the most significant first. */
  function LengthBytes(x: nat): (r: seq<Byte>)
    ensures |r| == 8
  {
    seq(8, i requires 0 <= i < 8 => ((x / Pow256(7 - i)) % 256) as Byte)
  }

  function Padding(n: nat): seq<Byte> {
    [0x80] + Zeros(ZeroCount(n)) + LengthBytes(8 * n)
  }

  // ---------- Section 6.2.2: the hash computation ----------

  function BigEndian(b0: Byte, b1: Byte, b2: Byte, b3: Byte): Word {
    ((b0 as Word) << 24) | ((b1 as Word) << 16) | ((b2 as Word) << 8) | (b3 as Word)
  }

  function WordAt(block: seq<Byte>, t: nat): Word
    requires |block| == 64 && t < 16
  {
    BigEndian(block[4 * t], block[4 * t + 1], block[4 * t + 2], block[4 * t + 3])
  }

  function W(block: seq<Byte>, t: nat): Word
    requires |block| == 64 && t < 64
  {
    if t < 16 then WordAt(block, t)
    else Extended(W(block, t - 2), W(block, t - 7), W(block, t - 15), W(block, t - 16))
  }

  function Extended(w2: Word, w7: Word, w15: Word, w16: Word): Word {
    SmallSigma1(w2) + w7 + SmallSigma0(w15) + w16
  }

  datatype Vars = Vars(a: Word, b: Word, c: Word, d: Word, e: Word, f: Word, g: Word, h: Word)

  function Round(v: Vars, k: Word, w: Word): Vars {
    var t1 := T1(v.e, v.f, v.g, v.h, k, w);
    var t2 := T2(v.a, v.b, v.c);
    Vars(Plus(t1, t2), v.a, v.b, v.c, Plus(v.d, t1), v.e, v.f, v.g)
  }

  function T1(e: Word, f: Word, g: Word, h: Word, k: Word, w: Word): Word {
    h + BigSigma1(e) + Ch(e, f, g) + k + w
  }

  function T2(a: Word, b: Word, c: Word): Word {
    BigSigma0(a) + Maj(a, b, c)
  }

  function Rounds(v: Vars, block: seq<Byte>, t: nat): Vars
    requires |block| == 64 && t <= 64
  {
    if t == 0 then v else Round(Rounds(v, block, t - 1), K()[t - 1], W(block, t - 1))
  }

  function VarsOf(hash: seq<Word>): Vars
    requires |hash| == 8
  {
    Vars(hash[0], hash[1], hash[2], hash[3], hash[4], hash[5], hash[6], hash[7])
  }

  function Added(hash: seq<Word>, v: Vars): (r: seq<Word>)
    requires |hash| == 8
    ensures |r| == 8
  {
    [Plus(hash[0], v.a), Plus(hash[1], v.b), Plus(hash[2], v.c), Plus(hash[3], v.d),
     Plus(hash[4], v.e), Plus(hash[5], v.f), Plus(hash[6], v.g), Plus(hash[7], v.h)]
  }

  function Compress(hash: seq<Word>, block: seq<Byte>): (r: seq<Word>)
    requires |hash| == 8 && |block| == 64
    ensures |r| == 8
  {
    Added(hash, Rounds(VarsOf(hash), block, 64))
  }

  /** The compression function folded over all whole blocks. */
  function HashFrom(hash: seq<Word>, bytes: seq<Byte>): (r: seq<Word>)
    requires |hash| == 8
    ensures |r| == 8
    decreases |bytes|
  {
    if |bytes| < 64 then hash else HashFrom(Compress(hash, bytes[..64]), bytes[64..])
  }

  function Hash(message: seq<Byte>): (r: seq<Word>)
    ensures |r| == 8
  {
    HashFrom(InitialHash(), message + Padding(|message|))
  }

  lemma PaddedIsWhole(message: seq<Byte>)
    ensures |message + Padding(|message|)| % 64 == 0
  {
    ZeroCountIsSmallest(|message|);
  }

  // ---------- The implementation ----------

  /** The sum of the message schedule, in the order of the code. */
  function NextWord(w16: Word, w15: Word, w7: Word, w2: Word): Word {
    w16 + SmallSigma0(w15) + w7 + SmallSigma1(w2)
  }

  lemma SumOrder(p: Word, q: Word, r: Word, s: Word)
    ensures p + q + r + s == s + r + q + p
  {
  }

  lemma NextIsExtended(w16: Word, w15: Word, w7: Word, w2: Word)
    ensures NextWord(w16, w15, w7, w2) == Extended(w2, w7, w15, w16)
  {
    hide SmallSigma0, SmallSigma1;
    SumOrder(w16, SmallSigma0(w15), w7, SmallSigma1(w2));
  }

  method Schedule(block: seq<Byte>) returns (w: array<Word>)
    requires |block| == 64
    ensures fresh(w) && w.Length == 64
    ensures forall t :: 0 <= t < 64 ==> w[t] == W(block, t)
  {
    hide BigEndian, NextWord, Extended;
    w := new Word[64];
    for i := 0 to 16
      invariant forall t :: 0 <= t < i ==> w[t] == W(block, t)
    {
      w[i] := BigEndian(block[i * 4], block[i * 4 + 1], block[i * 4 + 2], block[i * 4 + 3]);
    }
    for i := 16 to 64
      invariant forall t :: 0 <= t < i ==> w[t] == W(block, t)
    {
      NextIsExtended(w[i - 16], w[i - 15], w[i - 7], w[i - 2]);
      w[i] := NextWord(w[i - 16], w[i - 15], w[i - 7], w[i - 2]);
    }
  }

  /** The 64 rounds on the eight working variables. */
  method Mix(start: Vars, w: array<Word>, ghost block: seq<Byte>) returns (v: Vars)
    requires |block| == 64 && w.Length == 64
    requires forall t :: 0 <= t < 64 ==> w[t] == W(block, t)
    ensures v == Rounds(start, block, 64)
  {
    hide W, K, T1, T2, Plus;
    var a, b, c, d := start.a, start.b, start.c, start.d;
    var e, f, g, h := start.e, start.f, start.g, start.h;
    for i := 0 to 64
      invariant Vars(a, b, c, d, e, f, g, h) == Rounds(start, block, i)
    {
      var t1 := T1(e, f, g, h, K()[i], w[i]);
      var t2 := T2(a, b, c);
      h := g;
      g := f;
      f := e;
      e := Plus(d, t1);
      d := c;
      c := b;
      b := a;
      a := Plus(t1, t2);
    }
    v := Vars(a, b, c, d, e, f, g, h);
  }

  method Transform(state: array<Word>, block: seq<Byte>)
    requires state.Length == 8 && |block| == 64
    modifies state
    ensures state[..] == Compress(old(state[..]), block)
  {
    hide W, Rounds, Plus;
    var w := Schedule(block);
    ghost var before := state[..];
    var v := Mix(Vars(state[0], state[1], state[2], state[3], state[4], state[5], state[6], state[7]), w, block);
    state[0] := Plus(state[0], v.a);
    state[1] := Plus(state[1], v.b);
    state[2] := Plus(state[2], v.c);
    state[3] := Plus(state[3], v.d);
    state[4] := Plus(state[4], v.e);
    state[5] := Plus(state[5], v.f);
    state[6] := Plus(state[6], v.g);
    state[7] := Plus(state[7], v.h);
    assert state[..] == Added(before, v);
  }

  // ---------- Streaming ----------

  lemma {:induction false} HashBlocks(hash: seq<Word>, a: seq<Byte>, b: seq<Byte>)
    requires |hash| == 8 && |a| % 64 == 0
    ensures HashFrom(hash, a + b) == HashFrom(HashFrom(hash, a), b)
    decreases |a|
  {
    hide Compress;
    if a == [] {
      assert a + b == b;
    } else {
      assert (a + b)[..64] == a[..64] && (a + b)[64..] == a[64..] + b;
      HashBlocks(Compress(hash, a[..64]), a[64..], b);
    }
  }

  lemma OneBlock(hash: seq<Word>, block: seq<Byte>)
    requires |hash| == 8 && |block| == 64
    ensures HashFrom(hash, block) == Compress(hash, block)
  {
    hide Compress;
    assert block[..64] == block && block[64..] == [];
  }

  lemma NextBlock(hash: seq<Word>, a: seq<Byte>, block: seq<Byte>)
    requires |hash| == 8 && |a| % 64 == 0 && |block| == 64
    ensures HashFrom(hash, a + block) == Compress(HashFrom(hash, a), block)
  {
    HashBlocks(hash, a, block);
    OneBlock(HashFrom(hash, a), block);
  }

  const TWO64: nat := 0x1_0000_0000_0000_0000

  lemma AtLeastOnce(c: int, k: int)
    requires c > 0 && k >= 1
    ensures c * k >= c
  {
  }

  lemma Distribute(c: int, j: int, k: int)
    ensures c * (j - k) == c * j - c * k
  {
  }

  lemma DivUnique(a: int, c: int, q: int, m: int)
    requires 0 <= m < c && a == c * q + m
    ensures a / c == q
  {
    var p := a / c;
    assert a == c * p + a % c;
    Distribute(c, q, p);
    Distribute(c, p, q);
    if p < q {
      AtLeastOnce(c, q - p);
    } else if p > q {
      AtLeastOnce(c, p - q);
    }
  }

  lemma DivAdd(c: nat, k: nat, r: nat)
    requires c > 0
    ensures (c * k + r) / c == k + r / c
  {
    DivUnique(c * k + r, c, k + r / c, r % c);
  }

  lemma Regroup(c: nat, e: nat, q: nat)
    ensures c * (256 * e) * q == c * (256 * (e * q))
  {
    assert 256 * e * q == 256 * (e * q);
    assert c * (256 * e) * q == c * (256 * e * q);
  }

  lemma ModSkip(k: nat, y: nat)
    ensures (256 * k + y) % 256 == y % 256
  {
  }

  lemma WrapDiv(x: nat, c: nat, e: nat)
    requires c > 0 && c * (256 * e) == TWO64
    ensures (x % TWO64) / c % 256 == x / c % 256
  {
    var q, r := x / TWO64, x % TWO64;
    Regroup(c, e, q);
    WrapParts(x, c, e * q, r);
  }

  lemma WrapParts(x: nat, c: nat, k: nat, r: nat)
    requires c > 0 && x == c * (256 * k) + r
    ensures r / c % 256 == x / c % 256
  {
    DivAdd(c, 256 * k, r);
    ModSkip(k, r / c);
  }

  /** The low eight bytes do not see the wrap of a 64-bit count. */
  lemma WrapByte(x: nat, i: nat)
    requires i < 8
    ensures (x % TWO64) / Pow256(i) % 256 == x / Pow256(i) % 256
  {
    PowValue(i);
    PowValue(7 - i);
    WrapDiv(x, PowOf(i), PowOf(7 - i));
  }

  function PowOf(i: nat): nat
    requires i < 8
  {
    [1, 0x100, 0x1_0000, 0x100_0000, 0x1_0000_0000, 0x100_0000_0000, 0x1_0000_0000_0000, 0x100_0000_0000_0000][i]
  }

  lemma {:induction false} PowValue(i: nat)
    requires i < 8
    ensures Pow256(i) == PowOf(i)
  {
    if i > 0 {
      PowValue(i - 1);
    }
  }

  method FillZero(block: array<Byte>)
    requires block.Length == 64
    modifies block
    ensures block[..] == Zeros(64)
  {
    for i := 0 to 64
      invariant forall j :: 0 <= j < i ==> block[j] == 0
    {
      block[i] := 0;
    }
  }

  /** The rest of the message, the marker, and zeros. */
  method StartLastBlock(block: array<Byte>, rest: seq<Byte>)
    requires block.Length == 64 && |rest| < 64
    modifies block
    ensures block[..] == rest + [0x80] + Zeros(63 - |rest|)
  {
    FillZero(block);
    for i := 0 to |rest|
      invariant forall j :: 0 <= j < i ==> block[j] == rest[j]
      invariant forall j :: i <= j < 64 ==> block[j] == 0
    {
      block[i] := rest[i];
    }
    block[|rest|] := 0x80;
  }

  lemma LengthByteAt(n: nat, i: nat)
    requires i < 8
    ensures LengthBytes(8 * n)[7 - i] == ((8 * n % TWO64) / Pow256(i) % 256) as Byte
  {
    hide Pow256;
    WrapByte(8 * n, i);
  }

  method WriteLength(block: array<Byte>, n: nat)
    requires block.Length == 64
    modifies block
    ensures block[..] == old(block[..56]) + LengthBytes(8 * n)
  {
    hide Pow256, LengthBytes;
    var bits := 8 * n % TWO64;
    ghost var before := block[..];
    for i := 0 to 8
      invariant forall j :: 0 <= j < 56 ==> block[j] == before[j]
      invariant forall k :: 64 - i <= k < 64 ==> block[k] == LengthBytes(8 * n)[k - 56]
    {
      LengthByteAt(n, i);
      block[63 - i] := ((bits / Pow256(i)) % 256) as Byte;
    }
  }

  /** The last one or two blocks are the rest of the message and the padding. */
  lemma LastBlocks(rest: seq<Byte>, n: nat)
    requires |rest| == n % 64
    ensures rest + Padding(n) ==
      if |rest| < 56 then (rest + [0x80] + Zeros(63 - |rest|))[..56] + LengthBytes(8 * n)
      else rest + [0x80] + Zeros(63 - |rest|) + (Zeros(64)[..56] + LengthBytes(8 * n))
  {
    hide LengthBytes;
    if |rest| < 56 {
      assert (rest + [0x80] + Zeros(63 - |rest|))[..56] == rest + [0x80] + Zeros(55 - |rest|);
    } else {
      assert Zeros(119 - |rest|) == Zeros(63 - |rest|) + Zeros(64)[..56];
    }
  }

  /** The last one or two blocks. */
  method Finish(state: array<Word>, rest: seq<Byte>, n: nat)
    requires state.Length == 8 && |rest| == n % 64
    modifies state
    ensures state[..] == HashFrom(old(state[..]), rest + Padding(n))
  {
    hide Compress, Padding, LengthBytes, HashFrom;
    ghost var before := state[..];
    LastBlocks(rest, n);
    var block := new Byte[64];
    StartLastBlock(block, rest);
    ghost var first := block[..];
    if |rest| >= 56 {
      Transform(state, block[..]);
      FillZero(block);
      OneBlock(before, first);
    }
    WriteLength(block, n);
    ghost var last := block[..];
    Transform(state, block[..]);
    if |rest| >= 56 {
      NextBlock(before, first, last);
      assert rest + Padding(n) == first + last;
    } else {
      OneBlock(before, last);
      assert rest + Padding(n) == last;
    }
  }

  /** The blocks are hashed as they come, and only the last one or two are ever padded; the result is the hash
      of the whole padded message, for every message. */
  method Sha256(data: seq<Byte>) returns (state: array<Word>)
    ensures fresh(state) && state[..] == Hash(data)
  {
    hide Compress, Padding, InitialHash, HashFrom;
    ghost var h := InitialHash();
    state := new Word[8](i requires 0 <= i < 8 => InitialHash()[i]);
    assert state[..] == h;
    var offset := 0;
    Empty(h, data);
    while offset + 64 <= |data|
      invariant offset <= |data| && offset % 64 == 0 && state.Length == 8 && fresh(state)
      invariant state[..] == HashFrom(h, data[..offset])
    {
      NextBlock(h, data[..offset], data[offset..offset + 64]);
      assert data[..offset] + data[offset..offset + 64] == data[..offset + 64];
      Transform(state, data[offset..offset + 64]);
      offset := offset + 64;
    }
    var rest := data[offset..];
    HashBlocks(h, data[..offset], rest + Padding(|data|));
    assert data[..offset] + (rest + Padding(|data|)) == data + Padding(|data|);
    Finish(state, rest, |data|);
  }

  lemma Empty(hash: seq<Word>, data: seq<Byte>)
    requires |hash| == 8
    ensures HashFrom(hash, data[..0]) == hash
  {
  }

  // ---------- Hexadecimal output ----------

  /** Byte k of a word, counted from the most significant: the shift is 24 - 8 * k. */
  function ByteOf(w: Word, k: nat): Byte
    requires k < 4
  {
    var shifted := if k == 0 then w >> 24 else if k == 1 then w >> 16 else if k == 2 then w >> 8 else w;
    (shifted & 0xff) as Byte
  }

  /** Writing a word out and reading it back gives the same word. */
  lemma WordBytes(w: Word)
    ensures BigEndian(ByteOf(w, 0), ByteOf(w, 1), ByteOf(w, 2), ByteOf(w, 3)) == w
  {
  }

  function DigestBytes(hash: seq<Word>): (r: seq<Byte>)
    requires |hash| == 8
    ensures |r| == 32
  {
    seq(32, i requires 0 <= i < 32 => ByteOf(hash[i / 4], i % 4))
  }

  /** The digest is the eight words one after the other, each from its most significant byte on. */
  lemma DigestOrder(hash: seq<Word>, k: nat)
    requires |hash| == 8 && k < 8
    ensures DigestBytes(hash)[4 * k..4 * k + 4]
         == [ByteOf(hash[k], 0), ByteOf(hash[k], 1), ByteOf(hash[k], 2), ByteOf(hash[k], 3)]
  {
    hide ByteOf;
  }

  function Digit(n: nat): char
    requires n < 16
  {
    "0123456789abcdef"[n]
  }

  function Hex(bytes: seq<Byte>): string {
    if bytes == [] then ""
    else
      var last := bytes[|bytes| - 1] as int;
      Hex(bytes[..|bytes| - 1]) + [Digit(last / 16), Digit(last % 16)]
  }

  function PrefixLength(asked: nat): (r: nat)
    ensures r <= 32
  {
    if asked == 0 || asked > 32 then 32 else asked
  }

  /** sha256_hex. */
  method Sha256Hex(data: seq<Byte>, prefixBytes: nat) returns (hex: string)
    ensures hex == Hex(DigestBytes(Hash(data))[..PrefixLength(prefixBytes)])
  {
    hide Hash, ByteOf, Digit;
    var state := Sha256(data);
    var prefix := prefixBytes;
    if prefix == 0 { prefix := 32; }
    if prefix > 32 { prefix := 32; }
    ghost var bytes := DigestBytes(Hash(data));
    hex := "";
    for i := 0 to prefix
      invariant hex == Hex(bytes[..i]) && state[..] == Hash(data)
    {
      var word := state[i / 4];
      var b := ByteOf(word, i % 4);
      assert word == state[..][i / 4];
      assert bytes[..i + 1][..i] == bytes[..i];
      hex := hex + [Digit(b as int / 16), Digit(b as int % 16)];
    }
  }
}
