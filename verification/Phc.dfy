/** Preparing a GPU hit for the pool: the PHC string, the memory cost read back from it, and the block type
    (src/mining/argon2_encode.cpp, src/mining/block_types.cpp). */
module Phc {
  import opened Blocks
  import opened Text

  // ---------- Decimal numbers ----------

  function DigitChar(d: int): char
    requires 0 <= d <= 9
  {
    (d + '0' as int) as char
  }

  function ToDecimal(n: nat): (r: string)
    ensures r != [] && forall i :: 0 <= i < |r| ==> IsDigit(r[i])
  {
    if n < 10 then [DigitChar(n)] else ToDecimal(n / 10) + [DigitChar(n % 10)]
  }

  function FromDecimal(s: string): nat
    requires forall i :: 0 <= i < |s| ==> IsDigit(s[i])
  {
    if s == [] then 0
    else
      assert IsDigit(s[|s| - 1]);
      10 * FromDecimal(s[..|s| - 1]) + (s[|s| - 1] as int - '0' as int)
  }

  lemma {:induction false} DecimalRoundTrip(n: nat)
    ensures FromDecimal(ToDecimal(n)) == n
  {
    if n < 10 {
      assert ToDecimal(n)[..0] == [];
    } else {
      DecimalRoundTrip(n / 10);
      var d := ToDecimal(n);
      assert d[..|d| - 1] == ToDecimal(n / 10);
    }
  }

  // ---------- The PHC string ----------

  predicate IsArgon2Encoded(hashStr: string) {
    |hashStr| >= 7 && hashStr[..7] == "$argon2"
  }

  /** How many digits s holds from position i on. */
  function DigitRun(s: string, i: nat): (n: nat)
    requires i <= |s|
    ensures i + n <= |s|
    ensures forall j :: i <= j < i + n ==> IsDigit(s[j])
    ensures i + n < |s| ==> !IsDigit(s[i + n])
    decreases |s| - i
  {
    if i < |s| && IsDigit(s[i]) then 1 + DigitRun(s, i + 1) else 0
  }

  /** The pattern "$m=", digits, "," matches at position i. */
  predicate CostAt(s: string, i: nat) {
    && OccursAt(s, "$m=", i)
    && var n := DigitRun(s, i + 3);
    && n > 0 && i + 3 + n < |s| && s[i + 3 + n] == ','
  }

  function FirstCost(s: string, from: nat): (r: nat)
    requires from <= |s|
    ensures from <= r <= |s|
    ensures forall i :: from <= i < r ==> !CostAt(s, i)
    ensures r < |s| ==> CostAt(s, r)
    decreases |s| - from
  {
    if from == |s| || CostAt(s, from) then from else FirstCost(s, from + 1)
  }

  /** The digits of the first cost in s. */
  function CostDigits(s: string): (r: Option<string>)
    ensures r.Some? ==> r.value != "" && forall j :: 0 <= j < |r.value| ==> IsDigit(r.value[j])
  {
    var i := FirstCost(s, 0);
    if i == |s| then None else Some(s[i + 3..i + 3 + DigitRun(s, i + 3)])
  }

  /** The first cost in the string, if it fits an int. */
  function MemoryCostFromHash(hashStr: string): Option<int32> {
    if !IsArgon2Encoded(hashStr) || CostDigits(hashStr).None? then None
    else
      var m := FromDecimal(CostDigits(hashStr).value);
      if m < 0x8000_0000 then Some(m) else None
  }

  /** An int passed as a uint32_t. */
  function ToUint32(x: int): nat {
    x % 0x1_0000_0000
  }

  const PHC_HEAD := "$argon2id$v=19"

  function Tail(timeCost: int, parallelism: int, saltB64: string, digest: string): string {
    "t=" + ToDecimal(ToUint32(timeCost)) + ",p=" + ToDecimal(ToUint32(parallelism)) + "$" + saltB64 + "$" + digest
  }

  function Encode(saltB64: string, memoryCost: int, timeCost: int, parallelism: int, digest: string): string {
    PHC_HEAD + "$m=" + ToDecimal(ToUint32(memoryCost)) + "," + Tail(timeCost, parallelism, saltB64, digest)
  }

  /** A cost with digits d stands at position k of s, and none starts before it. */
  ghost predicate CostStands(s: string, k: nat, d: string) {
    && d != [] && k + 3 + |d| < |s|
    && OccursAt(s, "$m=", k)
    && s[k + 3..k + 3 + |d|] == d && s[k + 3 + |d|] == ','
    && (forall j :: 0 <= j < |d| ==> IsDigit(d[j]))
    && (forall i :: 0 <= i < k && s[i] == '$' ==> s[i + 1] != 'm')
  }

  lemma StandingCost(s: string, k: nat, d: string)
    requires CostStands(s, k, d)
    ensures CostDigits(s) == Some(d)
  {
    forall j | k + 3 <= j < k + 3 + |d| ensures IsDigit(s[j]) {
      assert s[j] == s[k + 3..k + 3 + |d|][j - (k + 3)] == d[j - (k + 3)];
    }
    RunIs(s, k + 3, |d|);
    forall i | 0 <= i < k ensures !CostAt(s, i) {
      assert s[i..i + 3][0] == s[i] && s[i..i + 3][1] == s[i + 1];
    }
    assert CostAt(s, k);
  }

  lemma EncodedCostStands(tail: string, d: string)
    requires d != [] && forall j :: 0 <= j < |d| ==> IsDigit(d[j])
    ensures var e := PHC_HEAD + "$m=" + d + "," + tail;
      IsArgon2Encoded(e) && CostStands(e, |PHC_HEAD|, d)
  {
    var e := PHC_HEAD + "$m=" + d + "," + tail;
    var k := |PHC_HEAD|;
    assert e[..7] == PHC_HEAD[..7] == "$argon2";
    assert e[k..k + 3] == "$m=";
    forall i | 0 <= i < k && e[i] == '$' ensures e[i + 1] != 'm' {
      assert e[i] == PHC_HEAD[i];
      assert i == 0 || i == 9;
      assert e[i + 1] == PHC_HEAD[i + 1];
    }
  }

  /** The cost written by Encode is the cost read back, whatever the salt and the digest hold; a negative
      cost is written as a number that no longer fits. */
  lemma CostRoundTrip(saltB64: string, m: int32, t: int, p: int, digest: string)
    ensures IsArgon2Encoded(Encode(saltB64, m, t, p, digest))
    ensures MemoryCostFromHash(Encode(saltB64, m, t, p, digest)) == if m >= 0 then Some(m) else None
  {
    var d := ToDecimal(ToUint32(m));
    EncodedCostStands(Tail(t, p, saltB64, digest), d);
    StandingDecimal(Encode(saltB64, m, t, p, digest), |PHC_HEAD|, m);
  }

  lemma StandingDecimal(e: string, k: nat, m: int32)
    requires IsArgon2Encoded(e) && CostStands(e, k, ToDecimal(ToUint32(m)))
    ensures MemoryCostFromHash(e) == if m >= 0 then Some(m) else None
  {
    hide IsArgon2Encoded, CostStands, CostDigits, MemoryCostFromHash;
    var n := ToUint32(m);
    StandingCost(e, k, ToDecimal(n));
    DecimalRoundTrip(n);
    CostValue(e, ToDecimal(n), n);
  }

  lemma CostValue(s: string, d: string, n: nat)
    requires IsArgon2Encoded(s) && CostDigits(s) == Some(d)
    requires forall j :: 0 <= j < |d| ==> IsDigit(d[j])
    requires FromDecimal(d) == n
    ensures MemoryCostFromHash(s) == if n < 0x8000_0000 then Some(n) else None
  {
  }

  lemma {:induction false} RunIs(s: string, i: nat, n: nat)
    requires i + n < |s|
    requires forall j :: i <= j < i + n ==> IsDigit(s[j])
    requires !IsDigit(s[i + n])
    ensures DigitRun(s, i) == n
  {
  }

  // ---------- The whole string read back ----------

  /** The fields of a PHC string, as the format lays them out. */
  datatype Fields = Fields(memory: nat, time: nat, lanes: nat, salt: string, digest: string)

  /** The mark and a number, and what follows. */
  function ReadNumber(s: string, mark: string): Option<(nat, string)> {
    if !(mark <= s) then None
    else
      var rest := s[|mark|..];
      var n := DigitRun(rest, 0);
      if n == 0 then None else Some((FromDecimal(rest[..n]), rest[n..]))
  }

  function ReadPhc(s: string): Option<Fields> {
    if !(PHC_HEAD <= s) then None
    else
      match ReadNumber(s[|PHC_HEAD|..], "$m=")
      case None => None
      case Some((m, afterM)) =>
        match ReadNumber(afterM, ",t=")
        case None => None
        case Some((t, afterT)) =>
          match ReadNumber(afterT, ",p=")
          case None => None
          case Some((p, afterP)) =>
            if afterP == "" || afterP[0] != '$' then None
            else
              var tail := afterP[1..];
              var i := IndexOf(tail, '$');
              if i == |tail| then None else Some(Fields(m, t, p, tail[..i], tail[i + 1..]))
  }

  lemma NumberReads(mark: string, n: nat, rest: string)
    requires rest != "" && !IsDigit(rest[0])
    ensures ReadNumber(mark + (ToDecimal(n) + rest), mark) == Some((n, rest))
  {
    var s := ToDecimal(n) + rest;
    assert (mark + s)[|mark|..] == s;
    assert s[..|ToDecimal(n)|] == ToDecimal(n) && s[|ToDecimal(n)|..] == rest;
    RunIs(s, 0, |ToDecimal(n)|);
    DecimalRoundTrip(n);
  }

  lemma SaltReads(salt: string, digest: string)
    requires '$' !in salt
    ensures var tail := salt + "$" + digest;
      var i := IndexOf(tail, '$');
      i == |salt| && tail[..i] == salt && tail[i + 1..] == digest
  {
    var tail := salt + "$" + digest;
    assert forall i :: 0 <= i < |salt| ==> tail[i] == salt[i] && salt[i] in salt;
    assert tail[|salt|] == '$';
  }

  /** What Encode writes is read back field by field: the costs as unsigned numbers, the salt and the digest. */
  lemma EncodeReads(saltB64: string, m: int, t: int, p: int, digest: string)
    requires '$' !in saltB64
    ensures ReadPhc(Encode(saltB64, m, t, p, digest))
         == Some(Fields(ToUint32(m), ToUint32(t), ToUint32(p), saltB64, digest))
  {
    hide ReadNumber, IndexOf, ToDecimal;
    var tail := saltB64 + "$" + digest;
    var afterT := ",p=" + (ToDecimal(ToUint32(p)) + ("$" + tail));
    var afterM := ",t=" + (ToDecimal(ToUint32(t)) + afterT);
    var all := "$m=" + (ToDecimal(ToUint32(m)) + afterM);
    WriteReads(saltB64, m, t, p, digest);
    assert Encode(saltB64, m, t, p, digest)[|PHC_HEAD|..] == all;
    NumberReads("$m=", ToUint32(m), afterM);
    NumberReads(",t=", ToUint32(t), afterT);
    NumberReads(",p=", ToUint32(p), "$" + tail);
    assert ("$" + tail)[1..] == tail;
    SaltReads(saltB64, digest);
  }

  lemma WriteReads(saltB64: string, m: int, t: int, p: int, digest: string)
    ensures var afterT := ",p=" + (ToDecimal(ToUint32(p)) + ("$" + (saltB64 + "$" + digest)));
      Encode(saltB64, m, t, p, digest)
      == PHC_HEAD + ("$m=" + (ToDecimal(ToUint32(m)) + (",t=" + (ToDecimal(ToUint32(t)) + afterT))))
  {
    hide ToDecimal;
  }

  /** A superblock is judged by the digest alone. */
  lemma {:induction false} DigestOfEncoded(front: string, digest: string)
    requires '$' !in digest
    ensures AfterLastDollar(front + "$" + digest) == digest
  {
    if digest == "" {
      assert front + "$" + digest == front + "$";
    } else {
      var n := |digest| - 1;
      assert (front + "$" + digest)[..|front| + 1 + n] == front + "$" + digest[..n];
      assert digest[n] in digest;
      DigestOfEncoded(front, digest[..n]);
    }
  }

  // ---------- Block types ----------

  function RemoveNulls(s: string): string {
    if s == [] then []
    else if s[|s| - 1] == '\0' then RemoveNulls(s[..|s| - 1])
    else RemoveNulls(s[..|s| - 1]) + [s[|s| - 1]]
  }

  function Normalised(blockType: string): string {
    Trim(RemoveNulls(Upper(blockType)))
  }

  predicate HasXuni(s: string) {
    exists i :: 0 <= i < |s| - 4 && OccursAt(s, "XUNI", i) && IsDigit(s[i + 4])
  }

  function CountDollars(s: string): nat {
    if s == [] then 0 else CountDollars(s[..|s| - 1]) + (if s[|s| - 1] == '$' then 1 else 0)
  }

  function AfterLastDollar(s: string): string {
    if s == [] || s[|s| - 1] == '$' then "" else AfterLastDollar(s[..|s| - 1]) + [s[|s| - 1]]
  }

  /** The part of a hash that superblocks are judged by. */
  function DigestForSuperblock(hashStr: string): string {
    if hashStr == "" then ""
    else if hashStr[0] == '$' || CountDollars(hashStr) >= 4 then AfterLastDollar(hashStr)
    else hashStr
  }

  function UppercaseCount(s: string): nat {
    if s == [] then 0 else UppercaseCount(s[..|s| - 1]) + (if IsUpper(s[|s| - 1]) then 1 else 0)
  }

  predicate IsSuperblock(hashStr: string) {
    UppercaseCount(DigestForSuperblock(hashStr)) >= 50
  }

  function ClassifyBlock(hashStr: string, blockType: string): string {
    ClassifyNormalised(hashStr, Normalised(blockType))
  }

  lemma ClassifyByName(hashStr: string, bt: string)
    ensures var c := ClassifyNormalised(hashStr, bt);
      IsTypeName(c) && ClassifyNormalised(hashStr, c) == c
  {
  }

  function ClassifyNormalised(hashStr: string, bt: string): string {
    if bt == "XUNI" || HasXuni(hashStr) then "XUNI"
    else if bt == "XBLK" || (Contains(hashStr, "XEN11") && IsSuperblock(hashStr)) then "XBLK"
    else if Contains(hashStr, "XEN11") || bt == "XEN11" || bt == "NORMAL" || bt == "XNM" then "XNM"
    else "OTHER"
  }

  lemma PlainName(s: string)
    requires forall i :: 0 <= i < |s| ==> IsUpper(s[i])
    ensures Normalised(s) == s
  {
    assert Upper(s) == s;
    NoNulls(s);
    TrimTrimmed(s);
  }

  predicate IsTypeName(s: string) {
    s == "XUNI" || s == "XBLK" || s == "XNM" || s == "OTHER"
  }

  lemma TypeName(s: string)
    requires IsTypeName(s)
    ensures Normalised(s) == s
  {
    assert forall i :: 0 <= i < |s| ==> IsUpper(s[i]);
    PlainName(s);
  }

  lemma {:induction false} NoNulls(s: string)
    requires forall i :: 0 <= i < |s| ==> s[i] != '\0'
    ensures RemoveNulls(s) == s
  {
    if s != [] {
      NoNulls(s[..|s| - 1]);
    }
  }

  lemma {:induction false} DollarsAdd(front: string, digest: string)
    requires '$' !in digest
    ensures CountDollars(front + "$" + digest) == CountDollars(front) + 1
  {
    if digest == "" {
      assert front + "$" + digest == front + "$";
      assert (front + "$")[..|front|] == front;
    } else {
      var n := |digest| - 1;
      assert (front + "$" + digest)[..|front| + 1 + n] == front + "$" + digest[..n];
      assert digest[n] in digest;
      DollarsAdd(front, digest[..n]);
    }
  }

  /** What follows the last dollar counts alone if the hash begins with a dollar or has four; otherwise all of it
      does. */
  lemma DigestPart(front: string, digest: string)
    requires '$' !in digest
    ensures DigestForSuperblock(front + "$" + digest)
         == if front == "" || front[0] == '$' || CountDollars(front) >= 3 then digest else front + "$" + digest
    ensures DigestForSuperblock(digest) == digest
  {
    DollarsAdd(front, digest);
    DigestOfEncoded(front, digest);
    NoDollars(digest);
  }

  lemma {:induction false} NoDollars(s: string)
    requires '$' !in s
    ensures CountDollars(s) == 0
  {
    if s != "" {
      assert s[|s| - 1] in s;
      NoDollars(s[..|s| - 1]);
    }
  }

  /** A superblock in PHC form is judged by the letters of its digest alone. */
  lemma SuperblockByDigest(saltB64: string, m: int, t: int, p: int, digest: string)
    requires '$' !in digest
    ensures IsSuperblock(Encode(saltB64, m, t, p, digest)) <==> UppercaseCount(digest) >= 50
  {
    var front := PHC_HEAD + "$m=" + ToDecimal(ToUint32(m)) + "," + "t=" + ToDecimal(ToUint32(t))
                 + ",p=" + ToDecimal(ToUint32(p)) + "$" + saltB64;
    var e := Encode(saltB64, m, t, p, digest);
    assert e == front + "$" + digest;
    DigestOfEncoded(front, digest);
    assert e[0] == PHC_HEAD[0] == '$';
  }

  /** XUNI goes before superblocks, and these before plain blocks; each is told by the hash or by the type given. */
  lemma ClassPrecedence(hashStr: string, blockType: string)
    ensures var c := ClassifyBlock(hashStr, blockType);
      var bt := Trim(RemoveNulls(Upper(blockType)));
      var xuni := bt == "XUNI"
        || exists i :: 0 <= i < |hashStr| - 4 && OccursAt(hashStr, "XUNI", i) && '0' <= hashStr[i + 4] <= '9';
      var super := bt == "XBLK" || (Contains(hashStr, "XEN11") && UppercaseCount(DigestForSuperblock(hashStr)) >= 50);
      var plain := Contains(hashStr, "XEN11") || bt in {"XEN11", "NORMAL", "XNM"};
      c == if xuni then "XUNI" else if super then "XBLK" else if plain then "XNM" else "OTHER"
  {
    hide Upper, RemoveNulls, Trim, Contains, UppercaseCount, DigestForSuperblock;
  }

  /** Classifying by the name just given changes nothing. */
  lemma ClassifyTwice(hashStr: string, blockType: string)
    ensures ClassifyBlock(hashStr, ClassifyBlock(hashStr, blockType)) == ClassifyBlock(hashStr, blockType)
  {
    ClassifyByName(hashStr, Normalised(blockType));
    TypeName(ClassifyBlock(hashStr, blockType));
  }

  // ---------- The loops over a block type ----------

  method CountUppercase(text: string) returns (n: nat)
    ensures n == UppercaseCount(text)
  {
    n := 0;
    for i := 0 to |text|
      invariant n == UppercaseCount(text[..i])
    {
      assert text[..i + 1][..i] == text[..i];
      if IsUpper(text[i]) {
        n := n + 1;
      }
    }
    assert text[..|text|] == text;
  }

  method NormaliseType(blockType: string) returns (bt: string)
    ensures bt == Normalised(blockType)
  {
    bt := blockType;
    for i := 0 to |bt|
      invariant |bt| == |blockType|
      invariant forall j :: 0 <= j < |bt| ==> bt[j] == if j < i then UpperChar(blockType[j]) else blockType[j]
    {
      bt := bt[i := UpperChar(bt[i])];
    }
    assert bt == Upper(blockType);
    var kept := "";
    for i := 0 to |bt|
      invariant kept == RemoveNulls(bt[..i])
    {
      assert bt[..i + 1][..i] == bt[..i];
      if bt[i] != '\0' {
        kept := kept + [bt[i]];
      }
    }
    assert bt[..|bt|] == bt;
    bt := kept;
    while bt != [] && IsSpace(bt[0])
      invariant TrimLeft(bt) == TrimLeft(kept)
    {
      bt := bt[1..];
    }
    while bt != [] && IsSpace(bt[|bt| - 1])
      invariant TrimRight(bt) == TrimRight(TrimLeft(kept))
    {
      bt := bt[..|bt| - 1];
    }
  }

  method Classify(hashStr: string, blockType: string) returns (kind: string)
    ensures kind == ClassifyBlock(hashStr, blockType)
  {
    var bt := NormaliseType(blockType);
    if bt == "XUNI" || HasXuni(hashStr) { return "XUNI"; }
    var found := Contains(hashStr, "XEN11");
    var upper := CountUppercase(DigestForSuperblock(hashStr));
    if bt == "XBLK" || (found && upper >= 50) { return "XBLK"; }
    if found || bt == "XEN11" || bt == "NORMAL" || bt == "XNM" { return "XNM"; }
    return "OTHER";
  }

  // ---------- Preparing a hit ----------

  /** The hit as it is sent, or None for a hit of another memory cost. saltB64 is the encoded salt. */
  function Prepare(hit: Hit, saltB64: string, m: int32, t: int, p: int): Option<Hit> {
    if IsArgon2Encoded(hit.hashStr) then
      var blockM := MemoryCostFromHash(hit.hashStr);
      if blockM.Some? && blockM.value != m then None
      else Some(hit.(blockType := ClassifyBlock(hit.hashStr, hit.blockType)))
    else
      var encoded := Encode(saltB64, m, t, p, hit.hashStr);
      if !Contains(encoded, hit.hashStr) then None
      else Some(hit.(hashStr := encoded, blockType := ClassifyBlock(encoded, hit.blockType), memoryCost := Some(m)))
  }

  /** A raw digest always assembles: the "prepare failed" removal in a flush wave never fires. */
  lemma RawDigestPrepares(hit: Hit, saltB64: string, m: int32, t: int, p: int)
    requires !IsArgon2Encoded(hit.hashStr)
    ensures var e := Encode(saltB64, m, t, p, hit.hashStr);
      Prepare(hit, saltB64, m, t, p)
      == Some(hit.(hashStr := e, blockType := ClassifyBlock(e, hit.blockType), memoryCost := Some(m)))
  {
    var e := Encode(saltB64, m, t, p, hit.hashStr);
    var i := |e| - |hit.hashStr|;
    assert e[i..] == hit.hashStr;
    assert OccursAt(e, hit.hashStr, i);
  }

  /** Every prepared hit is in PHC form and of the cost it was prepared for, when it names one; preparing it
      again for that cost changes nothing, and for another cost fails. */
  lemma PrepareTwice(hit: Hit, s1: string, m: int32, t1: int, p1: int, s2: string, n: int32, t2: int, p2: int)
    requires Prepare(hit, s1, m, t1, p1).Some?
    ensures var h := Prepare(hit, s1, m, t1, p1).value;
      && IsArgon2Encoded(h.hashStr)
      && (IsArgon2Encoded(hit.hashStr) ==> h == hit.(blockType := ClassifyBlock(hit.hashStr, hit.blockType)))
      && Prepare(h, s2, m, t2, p2) == Some(h)
      && (!IsArgon2Encoded(hit.hashStr) && 0 <= m != n ==> Prepare(h, s2, n, t2, p2) == None)
  {
    if IsArgon2Encoded(hit.hashStr) {
      ClassifyTwice(hit.hashStr, hit.blockType);
    } else {
      CostRoundTrip(s1, m, t1, p1, hit.hashStr);
      ClassifyTwice(Encode(s1, m, t1, p1, hit.hashStr), hit.blockType);
    }
  }
}
