/** What the two files hold between any two operations, and what the next session finds after a crash. */
module Durability {
  import opened Blocks
  import opened Codec
  import opened Seqs
  import opened Bags
  import opened BagInvariants

  /** A block as the disk can promise it: the queue reason may lag and attempts are cut to 32 bits. */
  function Norm(pb: PendingBlock): PendingBlock {
    pb.(queueReason := "", hit := Reloaded(pb.hit))
  }

  function Norms(s: seq<PendingBlock>): (r: seq<PendingBlock>)
    ensures |r| == |s|
  {
    Map(Norm, s)
  }

  function HasDigest(): PendingBlock -> bool {
    (pb: PendingBlock) => pb.hit.hashStr != ""
  }

  /** The database holds saved, a prefix of memory that at most dirty enqueues have outgrown; with nothing unsaved
      it is all of memory, reasons included. */
  ghost predicate SavedAs(b: Bag, saved: seq<PendingBlock>) {
    && b.disk.Rows?
    && b.disk.rows == RowsOf(saved)
    && Norms(saved) <= Norms(b.pending)
    && |b.pending| <= |saved| + b.dirty
    && (b.dirty == 0 ==> Map(ReloadedBlock, saved) == Map(ReloadedBlock, b.pending))
  }

  /** No database that can be read, yet: nothing was ever removed, and the journal alone brings back every digest. */
  ghost predicate OnlyJournal(b: Bag) {
    && (b.disk.Missing? || b.disk.Unparsable?)
    && |b.pending| <= b.dirty
    && 1 <= b.nextId
    && var r := RecoverLines(EMPTY_LISTING, b.journal);
    && r.Some?
    && Norms(r.value.pending) == Norms(Keep(b.pending, HasDigest()))
    && r.value.nextId <= b.nextId
  }

  ghost predicate Durable(b: Bag) {
    && b.dirty < SAVE_EVERY_OPS
    && (OnlyJournal(b) || exists saved :: SavedAs(b, saved))
  }

  // ---------- Saving ----------

  lemma SavedIsDurable(b: Bag, saved: seq<PendingBlock>)
    requires SavedAs(b, saved) && b.dirty < SAVE_EVERY_OPS
    ensures Durable(b)
  {
  }

  lemma SaveDurable(b: Bag)
    requires Agrees(b)
    ensures Durable(Save(b))
    ensures SavedAs(Save(b), b.pending)
  {
    SavedIsDurable(Save(b), b.pending);
  }

  /** Edits that only touch the reason. */
  lemma ReasonEditDurable(b: Bag, t: seq<PendingBlock>)
    requires Agrees(b) && Durable(b)
    requires Norms(t) == Norms(b.pending) && SameBlocks(b.pending, t)
    ensures Durable(MarkDirtyMaybeSave(b.(pending := t)))
  {
    EditAgrees(b, t);
    if b.dirty + 1 >= SAVE_EVERY_OPS {
      SaveDurable(b.(pending := t));
    } else if OnlyJournal(b) {
      ReasonEditJournal(b, t);
    } else {
      hide OnlyJournal;
      var saved :| SavedAs(b, saved);
      ReasonEditSaved(b, t, saved);
    }
  }

  lemma ReasonEditJournal(b: Bag, t: seq<PendingBlock>)
    requires OnlyJournal(b) && Norms(t) == Norms(b.pending)
    ensures OnlyJournal(b.(pending := t, dirty := b.dirty + 1))
  {
    hide RecoverLines;
    KeepMap(Norm, t, HasDigest(), HasDigest());
    KeepMap(Norm, b.pending, HasDigest(), HasDigest());
  }

  lemma ReasonEditSaved(b: Bag, t: seq<PendingBlock>, saved: seq<PendingBlock>)
    requires SavedAs(b, saved) && Norms(t) == Norms(b.pending) && b.dirty + 1 < SAVE_EVERY_OPS
    ensures Durable(b.(pending := t, dirty := b.dirty + 1))
  {
    hide OnlyJournal;
    SavedIsDurable(b.(pending := t, dirty := b.dirty + 1), saved);
  }

  // ---------- Enqueue ----------

  lemma NormsDigests(s: seq<PendingBlock>, t: seq<PendingBlock>)
    requires Norms(s) == Norms(t)
    ensures Digests(s) <= Digests(t)
  {
    forall d | d in Digests(s) ensures d in Digests(t) {
      var p :| p in s && p.hit.hashStr != "" && p.hit.hashStr == d;
      var i :| 0 <= i < |s| && s[i] == p;
      assert Norm(s[i]) == Norms(s)[i] == Norms(t)[i] == Norm(t[i]);
      assert t[i] in t && t[i].hit.hashStr == d;
    }
  }

  /** The journal line of a new block replays to that block. */
  lemma JournalLineRecovers(r: Listing, pb: PendingBlock, queuedAt: string)
    requires pb.hit.hashStr == "" || pb.hit.hashStr !in r.index
    requires pb.id >= 1 && IdsBelow(r.pending, r.nextId) && r.nextId <= pb.id
    requires pb.rejectCount == 0 && !pb.forwarded
    ensures RecoverLine(r, Rec(JournalRecord(pb, queuedAt)))
         == Some(if pb.hit.hashStr == "" then r else Append(r, ReloadedBlock(pb), pb.id + 1))
  {
    JournalRoundTrip(pb, queuedAt);
    if pb.hit.hashStr != "" {
      assert !HasId(r.pending, pb.id);
      assert RecoveredBlock(r, JournalRecord(pb, queuedAt)) == Some(ReloadedBlock(pb));
    }
  }

  lemma EnqueueOnlyJournal(b: Bag, hit: Hit, reason: string, queuedAt: string)
    requires Agrees(b) && OnlyJournal(b)
    requires !Bagged(b, hit) && b.dirty + 1 < SAVE_EVERY_OPS
    ensures OnlyJournal(Enqueue(b, hit, reason, queuedAt))
  {
    var pb := NewBlock(b, hit, reason);
    var line := Rec(JournalRecord(pb, queuedAt));
    var r := RecoverLines(EMPTY_LISTING, b.journal).value;
    RecoverLinesAgrees(EMPTY_LISTING, b.journal);
    RecoveredDigests(b, r);
    JournalLineRecovers(r, pb, queuedAt);
    RecoverLinesSnoc(EMPTY_LISTING, b.journal, line);
    KeptNormsSnoc(r.pending, b.pending, pb);
  }

  lemma RecoveredDigests(b: Bag, r: Listing)
    requires Agrees(b) && ListingAgrees(r)
    requires Norms(r.pending) == Norms(Keep(b.pending, HasDigest()))
    ensures r.index <= b.index
  {
    KeepMembers(b.pending, HasDigest());
    NormsDigests(r.pending, Keep(b.pending, HasDigest()));
  }

  lemma KeptNormsSnoc(r: seq<PendingBlock>, s: seq<PendingBlock>, pb: PendingBlock)
    requires Norms(r) == Norms(Keep(s, HasDigest()))
    ensures Norms(if pb.hit.hashStr == "" then r else r + [ReloadedBlock(pb)])
         == Norms(Keep(s + [pb], HasDigest()))
  {
    KeepSnoc(s, pb, HasDigest());
    if pb.hit.hashStr != "" {
      NormReloaded(pb);
      MapSnoc(Norm, r, ReloadedBlock(pb));
      MapSnoc(Norm, Keep(s, HasDigest()), pb);
    }
  }

  lemma NormReloaded(pb: PendingBlock)
    ensures Norm(ReloadedBlock(pb)) == Norm(pb)
  {
  }

  lemma RecoverLinesSnoc(l: Listing, lines: seq<JournalLine>, line: JournalLine)
    requires RecoverLines(l, lines).Some?
    ensures RecoverLines(l, lines + [line]) == RecoverLine(RecoverLines(l, lines).value, line)
  {
    assert (lines + [line])[..|lines|] == lines;
  }

  lemma EnqueueSaved(b: Bag, saved: seq<PendingBlock>, hit: Hit, reason: string, queuedAt: string)
    requires SavedAs(b, saved) && !Bagged(b, hit) && b.dirty + 1 < SAVE_EVERY_OPS
    ensures SavedAs(Enqueue(b, hit, reason, queuedAt), saved)
  {
    MapSnoc(Norm, b.pending, NewBlock(b, hit, reason));
  }

  lemma EnqueueDurable(b: Bag, hit: Hit, reason: string, queuedAt: string)
    requires Agrees(b) && Durable(b)
    ensures Durable(Enqueue(b, hit, reason, queuedAt))
  {
    if !Bagged(b, hit) {
      EnqueueAgrees(b, hit, reason, queuedAt);
      var c := Enqueue(b, hit, reason, queuedAt);
      if b.dirty + 1 >= SAVE_EVERY_OPS {
        SavedIsDurable(c, c.pending);
      } else if OnlyJournal(b) {
        EnqueueOnlyJournal(b, hit, reason, queuedAt);
      } else {
        var saved :| SavedAs(b, saved);
        EnqueueSaved(b, saved, hit, reason, queuedAt);
        SavedIsDurable(c, saved);
      }
    }
  }

  // ---------- Reading back ----------

  lemma ReloadedDigests(s: seq<PendingBlock>)
    ensures Digests(Map(ReloadedBlock, s)) == Digests(s)
  {
    var t := Map(ReloadedBlock, s);
    forall d | d in Digests(s) ensures d in Digests(t) {
      var p :| p in s && p.hit.hashStr != "" && p.hit.hashStr == d;
      var i :| 0 <= i < |s| && s[i] == p;
      assert t[i] in t && t[i].hit.hashStr == d;
    }
    forall d | d in Digests(t) ensures d in Digests(s) {
      var p :| p in t && p.hit.hashStr != "" && p.hit.hashStr == d;
      var i :| 0 <= i < |t| && t[i] == p;
      assert s[i] in s && s[i].hit.hashStr == d;
    }
  }

  /** Loading a snapshot gives the saved list, its digests, and a counter past every row. */
  ghost predicate LoadsBack(saved: seq<PendingBlock>, n: int) {
    Loads(EMPTY_LISTING.(nextId := n), saved, Back(saved, n))
  }

  ghost predicate Loads(l: Listing, saved: seq<PendingBlock>, m: Listing) {
    LoadRows(l, RowsOf(saved)) == (m, true)
  }

  lemma {:induction false} LoadRowsOf(saved: seq<PendingBlock>, n: int)
    ensures LoadsBack(saved, n)
  {
    if saved == [] {
      assert Digests(saved) == {} && Map(ReloadedBlock, saved) == [];
    } else {
      var k := |saved| - 1;
      assert saved == saved[..k] + [saved[k]];
      LoadRowsOf(saved[..k], n);
      LoadOneMore(saved[..k], saved[k], n);
    }
  }

  /** The id counter after loading s from a file that says n: every row moves it on, and lifts it past its id. */
  function Counter(n: int, s: seq<PendingBlock>): int {
    if s == [] then n else Max(Counter(n, s[..|s| - 1]) + 1, s[|s| - 1].id + 1)
  }

  lemma {:induction false} CounterAbove(n: int, s: seq<PendingBlock>)
    ensures IdsBelow(s, Counter(n, s)) && Counter(n, s) >= n + |s|
    ensures IdsBelow(s, n) ==> Counter(n, s) == n + |s|
  {
    if s != [] {
      var front, last := s[..|s| - 1], s[|s| - 1];
      assert s == front + [last];
      CounterAbove(n, front);
    }
  }

  lemma {:induction false} CounterBelow(n: int, s: seq<PendingBlock>, m: int)
    requires n < m && IdsBelow(s, m)
    ensures Counter(n, s) < m + |s|
  {
    if s != [] {
      CounterBelow(n, s[..|s| - 1], m);
      assert s[|s| - 1] in s;
    }
  }

  function Back(saved: seq<PendingBlock>, n: int): Listing {
    Listing(Map(ReloadedBlock, saved), Digests(saved), Counter(n, saved))
  }

  lemma LoadOneMore(front: seq<PendingBlock>, last: PendingBlock, n: int)
    requires LoadsBack(front, n)
    ensures LoadsBack(front + [last], n)
  {
    AppendReloaded(front, last, n);
    LoadOneRow(EMPTY_LISTING.(nextId := n), Back(front, n), Back(front + [last], n), front, last);
  }

  lemma LoadOneRow(l: Listing, m: Listing, next: Listing, front: seq<PendingBlock>, last: PendingBlock)
    requires Loads(l, front, m)
    requires next == Append(m, ReloadedBlock(last), Max(m.nextId + 1, last.id + 1))
    ensures Loads(l, front + [last], next)
  {
    MapSnoc(RowOf, front, last);
    assert RowsOf(front + [last])[..|front|] == RowsOf(front);
    RowRoundTrip(last, m.nextId);
    assert LoadRow(m, RowOf(last)) == (next, true);
  }

  lemma CounterSnoc(n: int, s: seq<PendingBlock>, pb: PendingBlock)
    ensures Counter(n, s + [pb]) == Max(Counter(n, s) + 1, pb.id + 1)
  {
    assert (s + [pb])[..|s|] == s;
  }

  lemma AppendReloaded(front: seq<PendingBlock>, last: PendingBlock, n: int)
    ensures Append(Back(front, n), ReloadedBlock(last), Max(Counter(n, front) + 1, last.id + 1))
         == Back(front + [last], n)
  {
    hide Digests, Map, Counter, Max;
    DigestsAppend(front, last);
    MapSnoc(ReloadedBlock, front, last);
    CounterSnoc(n, front, last);
  }

  /** Distinctness passes from the live list to a reloaded prefix of it. */
  lemma PrefixAgrees(s: seq<PendingBlock>, saved: seq<PendingBlock>, n: int)
    requires DistinctIds(s) && DistinctDigests(s)
    requires Norms(saved) <= Norms(s)
    ensures ListingAgrees(Back(saved, n))
  {
    var p := Map(ReloadedBlock, saved);
    forall i | 0 <= i < |p| ensures p[i].id == s[i].id && p[i].hit.hashStr == s[i].hit.hashStr {
      assert Norm(saved[i]) == Norms(saved)[i] == Norms(s)[i] == Norm(s[i]);
    }
    CounterAbove(n, saved);
    forall pb | pb in p ensures pb.id < Counter(n, saved) {
      var i :| 0 <= i < |p| && p[i] == pb;
      assert saved[i] in saved;
    }
    ReloadedDigests(saved);
  }

  lemma ReloadTwice(s: seq<PendingBlock>)
    ensures Map(ReloadedBlock, Map(ReloadedBlock, s)) == Map(ReloadedBlock, s)
  {
    forall i | 0 <= i < |s| ensures ReloadedBlock(ReloadedBlock(s[i])) == ReloadedBlock(s[i]) {
      assert Wrap32(Wrap32(s[i].hit.attempts)) == Wrap32(s[i].hit.attempts);
    }
  }

  /** A snapshot of an agreeing store loads to an agreeing store, whatever counter the file says. */
  lemma LoadSaved(b: Bag, saved: seq<PendingBlock>)
    requires Agrees(b) && SavedAs(b, saved)
    ensures var c := Reopened(b);
      && Load(b.disk, b.journal) == Some(c)
      && Agrees(c) && SavedAs(c, saved)
      && Memory(c) == Back(saved, Wrap32(b.disk.nextId)) && c.dirty == 0
      && c.disk == b.disk && c.journal == b.journal
  {
    LoadRowsOf(saved, Wrap32(b.disk.nextId));
    PrefixAgrees(b.pending, saved, Wrap32(b.disk.nextId));
    NormsReloaded(saved);
    ReloadTwice(saved);
  }

  lemma NormsReloaded(s: seq<PendingBlock>)
    ensures Norms(Map(ReloadedBlock, s)) == Norms(s)
  {
  }

  /** After a crash without a database, replaying the journal restores every block with a digest. */
  lemma LoadOnlyJournal(b: Bag)
    requires Agrees(b) && OnlyJournal(b) && b.dirty < SAVE_EVERY_OPS
    ensures var c := Reopened(b);
      && Load(b.disk, b.journal) == Some(c)
      && Agrees(c) && Durable(c)
      && Norms(c.pending) == Norms(Keep(b.pending, HasDigest()))
      && c.journal == b.journal
  {
    var r := RecoverLines(EMPTY_LISTING, b.journal).value;
    RecoverLinesAgrees(EMPTY_LISTING, b.journal);
    var loaded := BagWith(r, b.disk, b.journal);
    if r.pending != [] {
      SaveDurable(loaded);
    } else {
      assert OnlyJournal(loaded);
    }
  }

  /** Every block of p is a block of q, up to what the disk cannot promise. */
  ghost predicate From(p: seq<PendingBlock>, q: seq<PendingBlock>) {
    forall x :: x in p ==> exists y :: y in q && Norm(y) == Norm(x)
  }

  lemma NormPrefixFrom(p: seq<PendingBlock>, q: seq<PendingBlock>)
    requires Norms(p) <= Norms(q)
    ensures From(p, q)
  {
    forall x | x in p ensures exists y :: y in q && Norm(y) == Norm(x) {
      var i :| 0 <= i < |p| && p[i] == x;
      assert Norms(p)[i] == Norms(q)[i];
      assert q[i] in q && Norm(q[i]) == Norm(x);
    }
  }

  lemma FromDigests(p: seq<PendingBlock>, q: seq<PendingBlock>)
    requires From(p, q)
    ensures Digests(p) <= Digests(q)
  {
    forall d | d in Digests(p) ensures d in Digests(q) {
      var x :| x in p && x.hit.hashStr != "" && x.hit.hashStr == d;
      var y :| y in q && Norm(y) == Norm(x);
      assert Norm(y).hit.hashStr == y.hit.hashStr && Norm(x).hit.hashStr == d;
    }
  }

  lemma KeptFrom(p: seq<PendingBlock>, q: seq<PendingBlock>)
    requires Norms(p) == Norms(Keep(q, HasDigest()))
    ensures From(p, q)
  {
    KeepMembers(q, HasDigest());
    NormPrefixFrom(p, Keep(q, HasDigest()));
  }

  /** What the next session finds when the process dies between two operations: the list it had, short of
      at most seven enqueues, and no block that had been removed; all of it when nothing was unsaved. */
  lemma CrashLosesLittle(b: Bag)
    requires Agrees(b) && Durable(b)
    ensures var c := Reopened(b);
      && Agrees(c) && Durable(c) && c.journal == b.journal
      && (b.disk.Rows? ==> Norms(c.pending) <= Norms(b.pending) && |b.pending| - |c.pending| <= 7)
      && (!b.disk.Rows? ==> Norms(c.pending) == Norms(Keep(b.pending, HasDigest())) && |b.pending| <= 7)
      && From(c.pending, b.pending)
      && (b.dirty == 0 ==> c.pending == Map(ReloadedBlock, b.pending))
  {
    if OnlyJournal(b) {
      LoadOnlyJournal(b);
      KeptFrom(Reopened(b).pending, b.pending);
    } else {
      var saved :| SavedAs(b, saved);
      LoadSaved(b, saved);
      SavedIsDurable(Reopened(b), saved);
      NormsReloaded(saved);
      NormPrefixFrom(Map(ReloadedBlock, saved), b.pending);
    }
  }

  ghost predicate AttemptsFit(s: seq<PendingBlock>) {
    forall pb :: pb in s ==> -0x8000_0000 <= pb.hit.attempts < 0x8000_0000
  }

  /** A clean restart, whether or not anything was unsaved, gives back the list with its reasons, and the same list
      exactly when every attempt count fits 32 bits. After a save, the id counter moves on by the number of rows
      exactly when it fits 32 bits itself. */
  lemma RestartKeepsList(b: Bag)
    requires Agrees(b) && Durable(b)
    ensures var c := Reopened(Flush(b));
      && Agrees(c) && Durable(c)
      && c.index == b.index
      && c.pending == Map(ReloadedBlock, b.pending)
      && (c.pending == b.pending <==> AttemptsFit(b.pending))
      && (b.dirty > 0 ==> (c.nextId == b.nextId + |b.pending| <==> Fits(b)))
  {
    FlushDurable(b);
    CrashLosesLittle(Flush(b));
    ReloadedSame(b.pending);
    ReloadedDigests(b.pending);
    if b.dirty > 0 {
      SaveDurable(b);
      LoadSaved(Save(b), b.pending);
      CounterMoves(b);
    }
  }

  /** The id counter survives the disk. */
  predicate Fits(b: Bag) {
    -0x8000_0000 <= b.nextId < 0x8000_0000
  }

  lemma CounterMoves(b: Bag)
    requires Agrees(b)
    ensures Counter(Wrap32(b.nextId), b.pending) == b.nextId + |b.pending| <==> Fits(b)
  {
    var n := Wrap32(b.nextId);
    CounterAbove(n, b.pending);
    if b.nextId >= 0x8000_0000 {
      CounterBelow(n, b.pending, b.nextId);
    }
  }

  lemma ReloadedSame(s: seq<PendingBlock>)
    ensures Map(ReloadedBlock, s) == s <==> AttemptsFit(s)
  {
    if Map(ReloadedBlock, s) == s {
      forall pb | pb in s ensures -0x8000_0000 <= pb.hit.attempts < 0x8000_0000 {
        var i :| 0 <= i < |s| && s[i] == pb;
        assert ReloadedBlock(s[i]) == s[i];
      }
    }
  }

  // ---------- Every run ----------

  lemma FlushDurable(b: Bag)
    requires Agrees(b) && Durable(b)
    ensures Agrees(Flush(b)) && Durable(Flush(b))
  {
    if b.dirty > 0 {
      SaveDurable(b);
    }
  }

  lemma ReasonDurable(b: Bag, id: int, reason: string)
    requires Agrees(b) && Durable(b)
    ensures Durable(MarkPendingReason(b, id, reason))
  {
    ReasonEditDurable(b, WithReason(b.pending, id, reason));
  }

  lemma RemovalDurable(b: Bag, goes: PendingBlock -> bool)
    requires Agrees(b)
    ensures Durable(Save(Without(b, goes)))
  {
    WithoutAgrees(b, goes);
    SaveDurable(Without(b, goes));
  }

  lemma EditDurable(b: Bag, t: seq<PendingBlock>)
    requires Agrees(b) && SameBlocks(b.pending, t)
    ensures Durable(Save(b.(pending := t)))
  {
    EditAgrees(b, t);
    SaveDurable(b.(pending := t));
  }

  lemma SubmittedDurable(b: Bag, ids: seq<int>)
    requires Agrees(b) && Durable(b)
    ensures Durable(MarkSubmittedMany(b, ids))
  {
    RemovalDurable(b, IdIn(ids));
  }

  lemma DropDurable(b: Bag, hashes: seq<string>)
    requires Agrees(b) && Durable(b)
    ensures Durable(DropByHash(b, hashes))
  {
    RemovalDurable(b, DigestIn(hashes));
  }

  lemma ForwardDurable(b: Bag, ids: seq<int>)
    requires Agrees(b) && Durable(b)
    ensures Durable(MarkForwardedMany(b, ids))
  {
    ForwardedSameBlocks(b.pending, ids);
    EditDurable(b, WithForwarded(b.pending, ids));
  }

  lemma DeferDurable(b: Bag, minute: int)
    requires Agrees(b)
    ensures Durable(DeferAll(b, minute))
  {
    EditDurable(b, Map((pb: PendingBlock) => Deferred(pb, minute), b.pending));
  }

  lemma OpKeepsDurable(b: Bag, op: Op, c: Bag)
    requires Agrees(b) && Durable(b) && c == Apply(b, op)
    ensures Durable(c)
  {
    match op
    case OpEnqueue(hit, reason, queuedAt) => EnqueueDurable(b, hit, reason, queuedAt);
    case OpMarkReason(id, reason) => ReasonDurable(b, id, reason);
    case OpFlush =>
      FlushDurable(b);
    case OpMarkSubmitted(ids) => SubmittedDurable(b, ids);
    case OpMarkForwarded(ids) => ForwardDurable(b, ids);
    case OpDrop(hashes) => DropDurable(b, hashes);
    case OpDeferAll(minute) => DeferDurable(b, minute);
  }

  lemma OpDurable(b: Bag, op: Op)
    requires Agrees(b) && Durable(b)
    ensures Agrees(Apply(b, op)) && Durable(Apply(b, op))
  {
    OpAgrees(b, op);
    OpKeepsDurable(b, op, Apply(b, op));
  }

  lemma StepDurable(b: Bag, e: StoreEvent)
    requires Agrees(b) && Durable(b)
    ensures Agrees(Step(b, e)) && Durable(Step(b, e))
  {
    match e
    case Do(op) => OpDurable(b, op);
    case Restart =>
      FlushDurable(b);
      CrashLosesLittle(Flush(b));
    case Crash => CrashLosesLittle(b);
  }

  /** Both invariants hold after every sequence of operations, restarts and crashes. */
  lemma {:induction false} RunDurable(b: Bag, events: seq<StoreEvent>)
    requires Agrees(b) && Durable(b)
    ensures Agrees(Run(b, events)) && Durable(Run(b, events))
  {
    if events != [] {
      var n := |events| - 1;
      RunDurable(b, events[..n]);
      StepDurable(Run(b, events[..n]), events[n]);
    }
  }

  // ---------- Positive ids ----------

  /** Enqueue answers 0 for a digest that is already there, so ids should be positive. */
  ghost predicate Positive(b: Bag) {
    1 <= b.nextId && forall pb :: pb in b.pending ==> 1 <= pb.id
  }

  /** The file does not set the counter of an empty store below 1. */
  predicate ReadsWell(disk: DbFile) {
    disk.Rows? && disk.rows == [] ==> 1 <= Wrap32(disk.nextId)
  }

  /** The step does not reopen an empty store on a counter below 1. */
  predicate OpensWell(b: Bag, e: StoreEvent) {
    match e
    case Do(_) => true
    case Restart => ReadsWell(Flush(b).disk)
    case Crash => ReadsWell(b.disk)
  }

  lemma SavedPositive(b: Bag, saved: seq<PendingBlock>)
    requires Agrees(b) && Positive(b) && SavedAs(b, saved)
    ensures Positive(Reopened(b)) <==> ReadsWell(b.disk)
  {
    LoadSaved(b, saved);
    CounterAbove(Wrap32(b.disk.nextId), saved);
    forall pb | pb in Map(ReloadedBlock, saved) ensures 1 <= pb.id {
      var i :| 0 <= i < |saved| && Map(ReloadedBlock, saved)[i] == pb;
      assert Norm(saved[i]) == Norms(saved)[i] == Norms(b.pending)[i] == Norm(b.pending[i]);
      assert b.pending[i] in b.pending;
    }
    if saved != [] {
      var last := Map(ReloadedBlock, saved)[|saved| - 1];
      assert last in Map(ReloadedBlock, saved) && last.id == saved[|saved| - 1].id;
    }
  }

  lemma {:induction false} RecoverLinesPositive(lines: seq<JournalLine>)
    requires RecoverLines(EMPTY_LISTING, lines).Some?
    ensures var r := RecoverLines(EMPTY_LISTING, lines).value;
      1 <= r.nextId && forall pb :: pb in r.pending ==> 1 <= pb.id
  {
    if lines != [] {
      RecoverLinesPositive(lines[..|lines| - 1]);
    }
  }

  lemma ReopenedPositive(b: Bag)
    requires Agrees(b) && Durable(b) && Positive(b)
    ensures Positive(Reopened(b)) <==> ReadsWell(b.disk)
  {
    if OnlyJournal(b) {
      RecoverLinesPositive(b.journal);
    } else {
      var saved :| SavedAs(b, saved);
      SavedPositive(b, saved);
    }
  }

  /** Right after a save: reopening keeps ids positive exactly when there is a block or the counter, read through
      32 bits, is. */
  lemma SavedReopensPositive(b: Bag)
    requires Agrees(b) && Positive(b)
    ensures Agrees(Reopened(Save(b)))
    ensures Positive(Reopened(Save(b))) <==> b.pending != [] || 1 <= Wrap32(b.nextId)
  {
    SaveDurable(b);
    LoadSaved(Save(b), b.pending);
    ReopenedPositive(Save(b));
  }

  lemma OpPositive(b: Bag, op: Op)
    requires Positive(b)
    ensures Positive(Apply(b, op))
  {
    match op
    case OpMarkSubmitted(ids) => KeepMembers(b.pending, Not(IdIn(ids)));
    case OpDrop(hashes) => KeepMembers(b.pending, Not(DigestIn(hashes)));
    case OpMarkReason(id, reason) => SamePositive(b, WithReason(b.pending, id, reason));
    case OpMarkForwarded(ids) =>
      ForwardedSameBlocks(b.pending, ids);
      SamePositive(b, WithForwarded(b.pending, ids));
    case OpDeferAll(minute) => SamePositive(b, Map((pb: PendingBlock) => Deferred(pb, minute), b.pending));
    case _ =>
  }

  lemma SamePositive(b: Bag, t: seq<PendingBlock>)
    requires Positive(b) && SameBlocks(b.pending, t)
    ensures Positive(b.(pending := t))
  {
    forall pb | pb in t ensures 1 <= pb.id {
      var i :| 0 <= i < |t| && t[i] == pb;
      assert b.pending[i] in b.pending;
    }
  }

  lemma StepPositive(b: Bag, e: StoreEvent)
    requires Agrees(b) && Durable(b) && Positive(b)
    ensures Positive(Step(b, e)) <==> OpensWell(b, e)
  {
    match e
    case Do(op) => OpPositive(b, op);
    case Restart =>
      FlushDurable(b);
      ReopenedPositive(Flush(b));
    case Crash => ReopenedPositive(b);
  }

  /** After every prefix of the run. */
  ghost predicate AlwaysPositive(b: Bag, events: seq<StoreEvent>) {
    Positive(Run(b, events)) && (events != [] ==> AlwaysPositive(b, events[..|events| - 1]))
  }

  /** At every step of the run. */
  predicate AlwaysOpensWell(b: Bag, events: seq<StoreEvent>) {
    events != [] ==>
      OpensWell(Run(b, events[..|events| - 1]), events[|events| - 1]) && AlwaysOpensWell(b, events[..|events| - 1])
  }

  /** Ids and counter stay positive through a run exactly when no step of it reopens an empty store on a counter
      that a 32-bit int reads as less than 1. */
  lemma {:induction false} RunPositive(b: Bag, events: seq<StoreEvent>)
    requires Agrees(b) && Durable(b) && Positive(b)
    ensures AlwaysPositive(b, events) <==> AlwaysOpensWell(b, events)
  {
    if events != [] {
      var n := |events| - 1;
      RunPositive(b, events[..n]);
      RunDurable(b, events[..n]);
      if Positive(Run(b, events[..n])) {
        StepPositive(Run(b, events[..n]), events[n]);
      }
    }
  }

  /** A session that opens without a readable database, whatever the journal holds, starts in those invariants; on a
      first installation with an empty list. */
  lemma FirstSessionDurable(disk: DbFile, journal: seq<JournalLine>)
    requires (disk.Missing? || disk.Unparsable?) && Load(disk, journal).Some?
    ensures var b := Load(disk, journal).value;
      && Agrees(b) && Durable(b) && Positive(b) && b.journal == journal
      && (journal == [] ==> b.pending == [])
  {
    var r := RecoverLines(EMPTY_LISTING, journal).value;
    RecoverLinesAgrees(EMPTY_LISTING, journal);
    RecoverLinesPositive(journal);
    var loaded := BagWith(r, disk, journal);
    if r.pending != [] {
      SaveDurable(loaded);
    } else {
      assert OnlyJournal(loaded);
    }
  }
}
