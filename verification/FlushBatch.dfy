/** Which blocks a flush wave takes, and in which order (src/queue/store.cpp, list_flush_batch). */
module FlushBatch {
  import opened Blocks
  import opened Text
  import opened Policy
  import opened Seqs
  import opened Bags
  import opened BagInvariants

  datatype Query = Query(netM: int, defaultM: int, limit: int, skipBeforeId: int, minute: int)

  predicate Eligible(q: Query, pb: PendingBlock) {
    EffectiveM(pb.hit, q.defaultM, q.netM) == q.netM && ReadyToFlush(pb.hit.blockType, q.minute)
  }

  predicate Skipped(q: Query, pb: PendingBlock) {
    q.skipBeforeId > 0 && pb.id < q.skipBeforeId
  }

  function Preferred(q: Query): PendingBlock -> bool {
    (pb: PendingBlock) => Eligible(q, pb) && !Skipped(q, pb)
  }

  function Wrapped(q: Query): PendingBlock -> bool {
    (pb: PendingBlock) => Eligible(q, pb) && Skipped(q, pb)
  }

  function Cap(q: Query, n: nat): nat {
    if q.limit > 0 then q.limit else n
  }

  /** The blocks of the wave, before sorting. */
  function Chosen(q: Query, pending: seq<PendingBlock>): seq<PendingBlock> {
    Filled(Keep(pending, Preferred(q)), Keep(pending, Wrapped(q)), Cap(q, |pending|))
  }

  /** As much of first as fits, then of second. */
  function Filled(first: seq<PendingBlock>, second: seq<PendingBlock>, cap: nat): seq<PendingBlock> {
    Take(first, cap) + Take(second, cap - |Take(first, cap)|)
  }

  function ListFlushBatch(q: Query, pending: seq<PendingBlock>): seq<PendingBlock> {
    Sorted(Chosen(q, pending))
  }

  // ---------- Sorting by (priority, id) ----------

  predicate Before(a: PendingBlock, b: PendingBlock) {
    var pa, pb := FlushPriority(a.hit.blockType), FlushPriority(b.hit.blockType);
    pa < pb || (pa == pb && a.id <= b.id)
  }

  ghost predicate InOrder(s: seq<PendingBlock>) {
    forall i, j :: 0 <= i < j < |s| ==> Before(s[i], s[j])
  }

  function Insert(s: seq<PendingBlock>, pb: PendingBlock): (r: seq<PendingBlock>)
    ensures multiset(r) == multiset(s) + multiset{pb}
  {
    if s == [] then [pb]
    else if Before(pb, s[0]) then [pb] + s
    else
      assert s == [s[0]] + s[1..];
      [s[0]] + Insert(s[1..], pb)
  }

  function Sorted(s: seq<PendingBlock>): (r: seq<PendingBlock>)
    ensures multiset(r) == multiset(s)
  {
    if s == [] then []
    else
      assert s == s[..|s| - 1] + [s[|s| - 1]];
      Insert(Sorted(s[..|s| - 1]), s[|s| - 1])
  }

  lemma SameMembers(s: seq<PendingBlock>, t: seq<PendingBlock>)
    requires multiset(s) == multiset(t)
    ensures |s| == |t|
    ensures forall x :: x in s <==> x in t
  {
    assert |multiset(s)| == |s| && |multiset(t)| == |t|;
    forall x ensures x in s <==> x in t {
      assert x in s <==> x in multiset(s);
      assert x in t <==> x in multiset(t);
    }
  }

  lemma {:induction false} InsertInOrder(s: seq<PendingBlock>, pb: PendingBlock)
    requires InOrder(s)
    ensures InOrder(Insert(s, pb))
  {
    if s != [] && !Before(pb, s[0]) {
      var rest := Insert(s[1..], pb);
      InsertInOrder(s[1..], pb);
      forall x | x in rest ensures Before(s[0], x) {
        assert x in multiset(rest);
        if x != pb {
          assert x in multiset(s[1..]);
          var i :| 0 <= i < |s[1..]| && s[1..][i] == x;
          assert s[i + 1] == x;
        }
      }
      forall j | 0 <= j < |rest| ensures Before(s[0], rest[j]) {
        assert rest[j] in rest;
      }
    }
  }

  lemma {:induction false} SortedInOrder(s: seq<PendingBlock>)
    ensures InOrder(Sorted(s))
  {
    if s != [] {
      SortedInOrder(s[..|s| - 1]);
      InsertInOrder(Sorted(s[..|s| - 1]), s[|s| - 1]);
    }
  }

  // ---------- What a wave holds ----------

  lemma {:induction false} PartsCount(q: Query, s: seq<PendingBlock>)
    ensures |Keep(s, Preferred(q))| + |Keep(s, Wrapped(q))| == |Keep(s, pb => Eligible(q, pb))|
  {
    if s != [] {
      PartsCount(q, s[..|s| - 1]);
    }
  }

  /** If an element of Keep(s, p) is among its first n, so is every earlier element that passes p. */
  lemma {:induction false} EarlierTaken(s: seq<PendingBlock>, p: PendingBlock -> bool, n: int, i: nat, j: nat)
    requires DistinctIds(s) && i < j < |s| && p(s[i]) && p(s[j])
    requires s[j] in Take(Keep(s, p), n)
    ensures s[i] in Take(Keep(s, p), n)
  {
    var a, b := s[..j], s[j..];
    assert s == a + b;
    KeepConcat(a, b, p);
    var ka, kb := Keep(a, p), Keep(b, p);
    KeepMembers(a, p);
    NotBefore(s, j, ka);
    assert a[i] == s[i] && s[i] in ka;
    TakenBefore(ka, kb, n, s[i], s[j]);
  }

  lemma TakenBefore(ka: seq<PendingBlock>, kb: seq<PendingBlock>, n: int, x: PendingBlock, y: PendingBlock)
    requires y in Take(ka + kb, n) && y !in ka && x in ka
    ensures x in Take(ka + kb, n)
  {
    var k :| 0 <= k < |Take(ka + kb, n)| && Take(ka + kb, n)[k] == y;
    assert forall j :: 0 <= j < |ka| ==> ka[j] in ka;
    var m :| 0 <= m < |ka| && ka[m] == x;
    assert Take(ka + kb, n)[m] == x;
  }

  lemma NotBefore(s: seq<PendingBlock>, j: nat, ka: seq<PendingBlock>)
    requires DistinctIds(s) && j < |s| && forall x :: x in ka ==> x in s[..j]
    ensures s[j] !in ka
  {
    forall m | 0 <= m < j ensures s[..j][m] != s[j] {
      assert s[m].id != s[j].id;
    }
  }

  ghost predicate TakesEarliest(q: Query, pending: seq<PendingBlock>, out: seq<PendingBlock>) {
    forall i, j :: (
      && 0 <= i < j < |pending|
      && Eligible(q, pending[i]) && Eligible(q, pending[j])
      && Skipped(q, pending[i]) == Skipped(q, pending[j])
      && pending[j] in out) ==> pending[i] in out
  }

  lemma ChosenCount(q: Query, pending: seq<PendingBlock>)
    ensures var eligible := |Keep(pending, pb => Eligible(q, pb))|;
      |Chosen(q, pending)| == if Cap(q, |pending|) < eligible then Cap(q, |pending|) else eligible
  {
    PartsCount(q, pending);
  }

  lemma ChosenDistinct(q: Query, pending: seq<PendingBlock>)
    requires DistinctIds(pending)
    ensures DistinctIds(Chosen(q, pending))
  {
    var cap := Cap(q, |pending|);
    var p, w := Keep(pending, Preferred(q)), Keep(pending, Wrapped(q));
    KeepMembers(pending, Preferred(q));
    KeepMembers(pending, Wrapped(q));
    KeepDistinctIds(pending, Preferred(q));
    KeepDistinctIds(pending, Wrapped(q));
    var a := Take(p, cap);
    var b := Take(w, cap - |a|);
    forall i, j | 0 <= i < |a| && 0 <= j < |b| ensures a[i].id != b[j].id {
      assert p[i] in p && w[j] in w;
      if a[i].id == b[j].id {
        IdOwner(pending, a[i], b[j]);
        assert false;
      }
    }
  }

  lemma ChosenEarliest(q: Query, pending: seq<PendingBlock>)
    requires DistinctIds(pending)
    ensures TakesEarliest(q, pending, Chosen(q, pending))
  {
    var cap := Cap(q, |pending|);
    var first := Take(Keep(pending, Preferred(q)), cap);
    KeepMembers(pending, Preferred(q));
    KeepMembers(pending, Wrapped(q));
    forall i, j | 0 <= i < j < |pending| && Eligible(q, pending[i]) && Eligible(q, pending[j])
      && Skipped(q, pending[i]) == Skipped(q, pending[j]) && pending[j] in Chosen(q, pending)
      ensures pending[i] in Chosen(q, pending)
    {
      if Skipped(q, pending[j]) {
        EarlierTaken(pending, Wrapped(q), cap - |first|, i, j);
      } else {
        EarlierTaken(pending, Preferred(q), cap, i, j);
      }
    }
  }

  lemma {:induction false} PermutedDistinct(s: seq<PendingBlock>, t: seq<PendingBlock>)
    requires DistinctIds(s) && multiset(s) == multiset(t)
    ensures DistinctIds(t)
  {
    forall i, j | 0 <= i < j < |t| ensures t[i].id != t[j].id {
      SameMembers(s, t);
      if t[i].id == t[j].id {
        assert t[i] in t && t[j] in t;
        IdOwner(s, t[i], t[j]);
        assert t == t[..i] + [t[i]] + t[i + 1..j] + [t[j]] + t[j + 1..];
        assert multiset(t)[t[i]] >= 2;
        OnceOnly(s, t[i]);
        assert false;
      }
    }
  }

  lemma {:induction false} OnceOnly(s: seq<PendingBlock>, x: PendingBlock)
    requires DistinctIds(s)
    ensures multiset(s)[x] <= 1
  {
    if s != [] {
      var front, last := s[..|s| - 1], s[|s| - 1];
      assert s == front + [last];
      OnceOnly(front, x);
      forall i | 0 <= i < |front| ensures front[i] != last {
        assert s[i].id != s[|s| - 1].id;
      }
    }
  }

  /** The wave of a store in good order: distinct eligible blocks by (priority, id), as many as the limit
      allows; blocks before the rotation point only when every eligible block after it is in; and of each
      part the earliest in the bag. */
  lemma WaveIsRight(q: Query, pending: seq<PendingBlock>)
    requires DistinctIds(pending)
    ensures var out := ListFlushBatch(q, pending);
      var eligible := Keep(pending, pb => Eligible(q, pb));
      && InOrder(out) && DistinctIds(out)
      && (forall pb :: pb in out ==> pb in pending && Eligible(q, pb))
      && |out| == (if Cap(q, |pending|) < |eligible| then Cap(q, |pending|) else |eligible|)
      && ((exists pb :: pb in out && Skipped(q, pb)) ==>
            forall pb :: pb in pending && Eligible(q, pb) && !Skipped(q, pb) ==> pb in out)
      && TakesEarliest(q, pending, out)
  {
    var c := Chosen(q, pending);
    var out := Sorted(c);
    SortedInOrder(c);
    SameMembers(c, out);
    ChosenCount(q, pending);
    ChosenDistinct(q, pending);
    PermutedDistinct(c, out);
    ChosenEarliest(q, pending);
    KeepMembers(pending, Preferred(q));
    KeepMembers(pending, Wrapped(q));
    forall pb | pb in out ensures pb in pending && Eligible(q, pb) {
      assert pb in c;
    }
    if pb :| pb in out && Skipped(q, pb) {
      WrappedOnlyAfterAll(q, pending, pb);
    }
  }

  lemma WrappedOnlyAfterAll(q: Query, pending: seq<PendingBlock>, wrapped: PendingBlock)
    requires wrapped in Chosen(q, pending) && Skipped(q, wrapped)
    ensures forall pb :: pb in pending && Eligible(q, pb) && !Skipped(q, pb) ==> pb in Chosen(q, pending)
  {
    var cap := Cap(q, |pending|);
    var p := Keep(pending, Preferred(q));
    KeepMembers(pending, Preferred(q));
    assert wrapped !in p;
    assert |p| < cap || |Take(p, cap)| < cap;
    assert Take(p, cap) == p;
  }

  /** Without a limit the wave is all that is eligible. */
  lemma AllChosen(q: Query, pending: seq<PendingBlock>)
    requires q.limit <= 0
    ensures forall pb :: pb in ListFlushBatch(q, pending) <==> pb in pending && Eligible(q, pb)
  {
    var c := Chosen(q, pending);
    SameMembers(c, Sorted(c));
    PartsCount(q, pending);
    KeepMembers(pending, Preferred(q));
    KeepMembers(pending, Wrapped(q));
    assert c == Keep(pending, Preferred(q)) + Keep(pending, Wrapped(q));
  }

  /** Of two blocks of a wave, the one of the sooner kind comes first, and of one kind the one bagged first. */
  lemma SoonerFirst(q: Query, pending: seq<PendingBlock>, i: nat, j: nat)
    requires i < |ListFlushBatch(q, pending)| && j < |ListFlushBatch(q, pending)|
    ensures var a, b := ListFlushBatch(q, pending)[i], ListFlushBatch(q, pending)[j];
      var pa, pb := FlushPriority(a.hit.blockType), FlushPriority(b.hit.blockType);
      pa < pb || (pa == pb && a.id < b.id) ==> i < j
  {
    SortedInOrder(Chosen(q, pending));
  }

  /** A block is eligible by its own memory cost, or by the default that is given for blocks without one. */
  lemma EligibleExactly(q: Query, pb: PendingBlock)
    ensures Eligible(q, pb) <==>
      && (match pb.hit.memoryCost case Some(m) => m == q.netM case None => q.defaultM <= 0 || q.defaultM == q.netM)
      && (Upper(pb.hit.blockType) == "XUNI" ==> q.minute < 5 || q.minute >= 55)
  {
  }

  /** The rotation: a block before the rotation point goes out only with all eligible blocks from there on. */
  lemma RotationWraps(q: Query, pending: seq<PendingBlock>, early: PendingBlock, late: PendingBlock)
    requires DistinctIds(pending) && 0 < q.skipBeforeId && early.id < q.skipBeforeId <= late.id
    requires early in ListFlushBatch(q, pending) && late in pending && Eligible(q, late)
    ensures late in ListFlushBatch(q, pending)
  {
    hide ListFlushBatch, Eligible;
    WaveIsRight(q, pending);
    assert Skipped(q, early);
  }
}
