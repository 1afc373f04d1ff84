/** No hit is lost: the invariants of the hand-off protocol over every interleaving, and what they say once
    the session has ended. */
module Conservation {
  import opened Blocks
  import opened Codec
  import opened Policy
  import opened Seqs
  import opened Bags
  import opened BagInvariants
  import opened Durability
  import opened Responses
  import opened Routing
  import opened WavePool
  import opened Protocol
  import FlushBatch

  // ---------- Where a hit can be ----------

  predicate AtStage(st: Stage, h: Hit) {
    (st.GraceBag? || st.FinalBag?) && h in st.batch
  }

  predicate AtWorker(w: Worker, h: Hit) {
    match w
    case Got(batch) => h in batch
    case Bagging(batch, _, _, _) => h in batch
    case Live(batch) => h in batch
    case LiveBag(hit, _, rest) => hit == h || h in rest
    case Posting(hit, rest) => hit == h || h in rest
    case LastBag(batch) => h in batch
    case _ => false
  }

  predicate AtConsole(c: Console, h: Hit) {
    c.Persisting? && h in c.batch
  }

  /** In a thread's hands or in the live queue. */
  predicate InHands(s: State, h: Hit) {
    || (!s.hold.Nothing? && s.hold.hit == h)
    || h in s.live
    || AtStage(s.stage, h)
    || AtWorker(s.worker, h)
    || AtConsole(s.console, h)
  }

  ghost predicate Stored(pending: seq<PendingBlock>, h: Hit) {
    exists i :: 0 <= i < |pending| && pending[i].hit == h
  }

  /** The hit itself, key, account and all, is in a thread's hands, in the live queue, in the store, or accepted. */
  ghost predicate Kept(s: State, h: Hit) {
    InHands(s, h) || Stored(s.store.pending, h) || h in s.accepted
  }

  predicate Twins(g: Hit, h: Hit) {
    g != h && g.hashStr == h.hashStr
  }

  /** So is the hit, or another one with its digest, prepared too or stored before. */
  ghost predicate Safe(s: State, h: Hit) {
    Kept(s, h) || exists g :: g in s.known && Twins(g, h) && Kept(s, g)
  }

  ghost predicate HasDigest(pending: seq<PendingBlock>, d: string) {
    exists i :: 0 <= i < |pending| && pending[i].hit.hashStr == d
  }

  // ---------- What a wave remembers ----------

  /** The same blocks in the same order; only their queue reasons may differ. */
  ghost predicate SameButReasons(s: seq<PendingBlock>, t: seq<PendingBlock>) {
    |s| == |t| && forall i :: 0 <= i < |s| ==> t[i] == s[i].(queueReason := t[i].queueReason)
  }

  /** The list has only grown at its end since start was read, up to the reasons of its blocks. */
  ghost predicate GrownFrom(start: seq<PendingBlock>, pending: seq<PendingBlock>) {
    |start| <= |pending| && SameButReasons(start, pending[..|start|])
  }

  ghost predicate ItemFrom(item: WorkItem, start: seq<PendingBlock>) {
    exists pb :: pb in start && pb.id == item.id && pb.hit == item.hit
  }

  ghost predicate WaveOk(wave: Wave, pending: seq<PendingBlock>, accepted: set<Hit>) {
    && PoolInv(wave.pool) && wave.pool.size == |wave.work|
    && GrownFrom(wave.start, pending)
    && (forall item :: item in wave.work ==> ItemFrom(item, wave.start))
    && AcceptedKnown(wave.work, wave.pool.handled, accepted)
  }

  ghost predicate AcceptedKnown(work: seq<WorkItem>, handled: seq<Reply>, accepted: set<Hit>) {
    forall k :: (0 <= k < |handled| && Taken()(handled[k])) ==>
      handled[k].i < |work| && work[handled[k].i].hit in accepted
  }

  // ---------- Who still owes a save ----------

  /** Every pending block is in the database file. */
  ghost predicate FullySaved(b: Bag) {
    exists saved :: SavedAs(b, saved) && |saved| == |b.pending|
  }

  predicate MinerWillSave(st: Stage) {
    !(st.FinalStop? || st.FinalJoin? || st.Finished?)
  }

  predicate WorkerWillSave(w: Worker) {
    !(w.LastChoice? || (w.Selecting? && w.last) || (w.Waving? && w.last) || w.Gone?)
  }

  /** finalize_session has emptied the live queue for the last time. */
  predicate LiveClosed(st: Stage) {
    st.FinalBag? || st.FinalDefer? || st.FinalStop? || st.FinalJoin? || st.Finished?
  }

  // ---------- The invariant ----------

  ghost predicate Conserved(s: State) {
    forall h :: h in s.prepared ==> Safe(s, h)
  }

  /** Nothing is invented or altered on the way. */
  ghost predicate OnlyKnown(s: State) {
    forall h :: Kept(s, h) ==> h in s.known
  }

  ghost predicate StoreOk(s: State) {
    Agrees(s.store) && Durable(s.store)
  }

  ghost predicate InFlightOk(s: State) {
    s.worker.Waving? ==> WaveOk(s.worker.wave, s.store.pending, s.accepted)
  }

  predicate PhaseOk(s: State) {
    && (forall h :: h in s.prepared ==> h.hashStr != "")
    && (s.hold.Nothing? || s.stage.Mining? || s.stage.Draining?)
    && (LiveClosed(s.stage) ==> s.live == [])
    && (s.stage.Finished? ==> s.worker.Gone?)
    && (s.worker.Bagging? && ShouldStore(s.cfg) ==> s.worker.keeps)
  }

  predicate SaveOwed(s: State) {
    MinerWillSave(s.stage) || WorkerWillSave(s.worker) || !s.console.Idle?
  }

  ghost predicate Inv(s: State) {
    && StoreOk(s)
    && InFlightOk(s)
    && PhaseOk(s)
    && OnlyKnown(s)
    && (ShouldStore(s.cfg) ==> Conserved(s))
    && (FullySaved(s.store) || SaveOwed(s))
  }

  lemma InitInv(cfg: Config, store: Bag)
    requires Agrees(store) && Durable(store)
    ensures Inv(Init(cfg, store))
  {
  }

  // ---------- Facts about the store operations ----------

  /** A hit whose digest is not bagged is stored as it is, with the reason it came with, under the id that is returned;
      otherwise nothing changes, and there is a block with its digest. */
  lemma EnqueueStores(b: Bag, hit: Hit, reason: string, at: string)
    requires Agrees(b)
    ensures var c := Enqueue(b, hit, reason, at);
      if Bagged(b, hit) then c == b && HasDigest(c.pending, hit.hashStr)
      else
        && EnqueueId(b, hit) == b.nextId
        && |c.pending| == |b.pending| + 1 && c.pending[..|b.pending|] == b.pending
        && c.pending[|b.pending|] == PendingBlock(EnqueueId(b, hit), hit, reason, 0, false)
        && Stored(c.pending, hit)
  {
    if Bagged(b, hit) {
      var pb :| pb in b.pending && pb.hit.hashStr != "" && pb.hit.hashStr == hit.hashStr;
      var i :| 0 <= i < |b.pending| && b.pending[i] == pb;
    } else {
      assert Enqueue(b, hit, reason, at).pending[|b.pending|].hit == hit;
    }
  }

  lemma EnqueueGrows(b: Bag, hit: Hit, reason: string, at: string)
    ensures b.index <= Enqueue(b, hit, reason, at).index
    ensures |b.pending| <= |Enqueue(b, hit, reason, at).pending|
    ensures Enqueue(b, hit, reason, at).pending[..|b.pending|] == b.pending
  {
  }

  lemma GrownOn(start: seq<PendingBlock>, p: seq<PendingBlock>, q: seq<PendingBlock>)
    requires GrownFrom(start, p) && GrownFrom(p, q)
    ensures GrownFrom(start, q)
  {
    forall i | 0 <= i < |start|
      ensures q[..|start|][i] == start[i].(queueReason := q[..|start|][i].queueReason)
    {
      assert p[..|start|][i] == p[i];
      assert q[..|p|][i] == q[i];
    }
  }

  /** A store operation that loses no digest and removes no block. */
  ghost predicate QuietMove(b: Bag, c: Bag) {
    Agrees(c) && Durable(c) && b.index <= c.index && GrownFrom(b.pending, c.pending)
  }

  lemma StayQuiet(b: Bag)
    requires Agrees(b) && Durable(b)
    ensures QuietMove(b, b)
  {
  }

  lemma EnqueueQuiet(b: Bag, hit: Hit, reason: string, at: string)
    requires Agrees(b) && Durable(b)
    ensures QuietMove(b, Enqueue(b, hit, reason, at))
  {
    EnqueueAgrees(b, hit, reason, at);
    EnqueueDurable(b, hit, reason, at);
    EnqueueGrows(b, hit, reason, at);
  }

  lemma DeferQuiet(b: Bag, minute: int)
    requires Agrees(b) && Durable(b)
    ensures QuietMove(b, DeferAll(b, minute)) && FullySaved(DeferAll(b, minute))
  {
    DeferSaves(b, minute);
    DeferSame(b, minute);
    WholePrefix(DeferAll(b, minute).pending);
  }

  lemma WholePrefix(q: seq<PendingBlock>)
    ensures q[..|q|] == q
  {
  }

  lemma FlushQuiet(b: Bag)
    requires Agrees(b) && Durable(b)
    ensures QuietMove(b, Flush(b))
    ensures FullySaved(b) ==> FullySaved(Flush(b))
  {
    FlushDurable(b);
    SaveSaves(b);
    WholePrefix(b.pending);
  }

  lemma ReasonQuiet(b: Bag, id: int, reason: string)
    requires Agrees(b) && Durable(b)
    ensures QuietMove(b, MarkPendingReason(b, id, reason))
    ensures FullySaved(b) ==> FullySaved(MarkPendingReason(b, id, reason))
  {
    ReasonDurable(b, id, reason);
    EditAgrees(b, WithReason(b.pending, id, reason));
    ReasonSame(b, id, reason);
    WholePrefix(MarkPendingReason(b, id, reason).pending);
    if FullySaved(b) {
      ReasonKeepsSaved(b, id, reason);
    }
  }

  lemma DeferSame(b: Bag, minute: int)
    ensures SameButReasons(b.pending, DeferAll(b, minute).pending)
    ensures DeferAll(b, minute).index == b.index
  {
  }

  lemma ReasonSame(b: Bag, id: int, reason: string)
    ensures SameButReasons(b.pending, MarkPendingReason(b, id, reason).pending)
    ensures MarkPendingReason(b, id, reason).index == b.index
  {
  }

  lemma SaveSaves(b: Bag)
    requires Agrees(b)
    ensures FullySaved(Save(b))
  {
    assert SavedAs(Save(b), b.pending);
  }

  lemma DeferSaves(b: Bag, minute: int)
    requires Agrees(b)
    ensures Agrees(DeferAll(b, minute)) && Durable(DeferAll(b, minute)) && FullySaved(DeferAll(b, minute))
  {
    var t := Map((pb: PendingBlock) => Deferred(pb, minute), b.pending);
    EditAgrees(b, t);
    DeferDurable(b, minute);
    SaveSaves(b.(pending := t));
  }

  lemma ReasonKeepsSaved(b: Bag, id: int, reason: string)
    requires Agrees(b) && FullySaved(b)
    ensures FullySaved(MarkPendingReason(b, id, reason))
  {
    if b.dirty + 1 >= SAVE_EVERY_OPS {
      ReasonSaves(b, id, reason);
    } else {
      var saved :| SavedAs(b, saved) && |saved| == |b.pending|;
      SavedThroughReason(b, saved, id, reason);
    }
  }

  lemma ReasonSaves(b: Bag, id: int, reason: string)
    requires Agrees(b) && b.dirty + 1 >= SAVE_EVERY_OPS
    ensures FullySaved(MarkPendingReason(b, id, reason))
  {
    var t := WithReason(b.pending, id, reason);
    EditAgrees(b, t);
    SaveSaves(b.(pending := t));
  }

  lemma SavedThroughReason(b: Bag, saved: seq<PendingBlock>, id: int, reason: string)
    requires SavedAs(b, saved) && |saved| == |b.pending| && b.dirty + 1 < SAVE_EVERY_OPS
    ensures FullySaved(MarkPendingReason(b, id, reason))
  {
    assert Norms(WithReason(b.pending, id, reason)) == Norms(b.pending);
    SavedFully(MarkPendingReason(b, id, reason), saved);
  }

  lemma SavedFully(b: Bag, saved: seq<PendingBlock>)
    requires SavedAs(b, saved) && |saved| == |b.pending|
    ensures FullySaved(b)
  {
  }

  // ---------- Committing a wave ----------

  lemma {:induction false} AcceptedIdsAre(work: seq<WorkItem>, handled: seq<Reply>, id: int)
    requires id in AcceptedIds(work, handled)
    ensures exists k ::
      0 <= k < |handled| && Taken()(handled[k]) && handled[k].i < |work| && work[handled[k].i].id == id
  {
    hide SubmitAccepted;
    var n := |handled| - 1;
    if id in AcceptedIds(work, handled[..n]) {
      AcceptedIdsAre(work, handled[..n], id);
      var k :| 0 <= k < n && Taken()(handled[..n][k]) && handled[..n][k].i < |work|
               && work[handled[..n][k].i].id == id;
      assert handled[k] == handled[..n][k];
    } else {
      assert Taken()(handled[n]);
    }
  }

  /** A pending block that carries the id of an accepted item is the block that was accepted. */
  lemma AcceptedBlock(wave: Wave, pending: seq<PendingBlock>, accepted: set<Hit>, pb: PendingBlock)
    requires DistinctIds(pending) && WaveOk(wave, pending, accepted)
    requires pb in pending && pb.id in AcceptedIds(wave.work, wave.pool.handled)
    ensures pb.hit in accepted
  {
    AcceptedIdsAre(wave.work, wave.pool.handled, pb.id);
    var handled := wave.pool.handled;
    var k :| 0 <= k < |handled| && Taken()(handled[k]) && handled[k].i < |wave.work|
             && wave.work[handled[k].i].id == pb.id;
    var item := wave.work[handled[k].i];
    assert item in wave.work;
    var q :| q in wave.start && q.id == item.id && q.hit == item.hit;
    var i :| 0 <= i < |wave.start| && wave.start[i] == q;
    assert pending[..|wave.start|][i] == pending[i];
    assert pending[i] in pending;
    IdOwner(pending, pending[i], pb);
  }

  lemma CommitLosesNothing(b: Bag, wave: Wave, accepted: set<Hit>, h: Hit)
    requires Agrees(b) && WaveOk(wave, b.pending, accepted) && Stored(b.pending, h)
    ensures Stored(MarkSubmittedMany(b, AcceptedIds(wave.work, wave.pool.handled)).pending, h) || h in accepted
  {
    var ids := AcceptedIds(wave.work, wave.pool.handled);
    var i :| 0 <= i < |b.pending| && b.pending[i].hit == h;
    var pb := b.pending[i];
    if pb.id in ids {
      AcceptedBlock(wave, b.pending, accepted, pb);
    } else if ids != [] {
      KeepMembers(b.pending, Not(IdIn(ids)));
      var kept := Keep(b.pending, Not(IdIn(ids)));
      assert pb in kept;
      var j :| 0 <= j < |kept| && kept[j] == pb;
    }
  }

  lemma CommitInventsNothing(b: Bag, ids: seq<int>, h: Hit)
    requires Stored(MarkSubmittedMany(b, ids).pending, h)
    ensures Stored(b.pending, h)
  {
    var c := MarkSubmittedMany(b, ids).pending;
    var i :| 0 <= i < |c| && c[i].hit == h;
    KeepMembers(b.pending, Not(IdIn(ids)));
    assert c[i] in c && c[i] in b.pending;
    var j :| 0 <= j < |b.pending| && b.pending[j] == c[i];
  }

  lemma CommitKeepsStore(b: Bag, ids: seq<int>)
    requires Agrees(b) && Durable(b)
    ensures Agrees(MarkSubmittedMany(b, ids)) && Durable(MarkSubmittedMany(b, ids))
    ensures FullySaved(b) ==> FullySaved(MarkSubmittedMany(b, ids))
  {
    WithoutAgrees(b, IdIn(ids));
    SubmittedDurable(b, ids);
    SaveSaves(Without(b, IdIn(ids)));
  }

  // ---------- Every step ----------

  /** A step after which the store has moved quietly keeps a wave in flight sound. */
  lemma WaveThroughQuiet(wave: Wave, b: Bag, c: Bag, accepted: set<Hit>, more: set<Hit>)
    requires WaveOk(wave, b.pending, accepted) && QuietMove(b, c)
    ensures WaveOk(wave, c.pending, accepted + more)
  {
    GrownOn(wave.start, b.pending, c.pending);
  }

  /** The hit goes into the store. */
  predicate Enqueues(op: Option<Op>, h: Hit) {
    op.Some? && op.value.OpEnqueue? && op.value.hit == h
  }

  function MoveBy(b: Bag, op: Option<Op>): Bag {
    if op.Some? then Apply(b, op.value) else b
  }

  predicate Adds(op: Op) {
    op.OpEnqueue? || op.OpMarkReason? || op.OpDeferAll? || op.OpFlush?
  }

  lemma MoveQuiet(b: Bag, op: Option<Op>)
    requires Agrees(b) && Durable(b) && (op.Some? ==> Adds(op.value))
    ensures QuietMove(b, MoveBy(b, op))
    ensures FullySaved(b) && (op.Some? ==> !op.value.OpEnqueue?) ==> FullySaved(MoveBy(b, op))
    ensures op.Some? && op.value.OpDeferAll? ==> FullySaved(MoveBy(b, op))
  {
    hide QuietMove, Agrees, Durable, FullySaved, Enqueue, MarkPendingReason, DeferAll, Flush;
    if op == None {
      StayQuiet(b);
    } else {
      match op.value
      case OpEnqueue(hit, reason, at) => EnqueueQuiet(b, hit, reason, at);
      case OpMarkReason(id, reason) => ReasonQuiet(b, id, reason);
      case OpDeferAll(minute) => DeferQuiet(b, minute);
      case OpFlush => FlushQuiet(b);
    }
  }

  lemma StoredOn(p: seq<PendingBlock>, q: seq<PendingBlock>, h: Hit)
    requires GrownFrom(p, q) && Stored(p, h)
    ensures Stored(q, h)
  {
    var i :| 0 <= i < |p| && p[i].hit == h;
    assert q[..|p|][i] == q[i];
  }

  lemma SameStored(p: seq<PendingBlock>, q: seq<PendingBlock>, h: Hit)
    requires SameButReasons(p, q) && Stored(q, h)
    ensures Stored(p, h)
  {
    var i :| 0 <= i < |q| && q[i].hit == h;
  }

  /** What such an operation stores. */
  lemma MoveStores(b: Bag, op: Option<Op>, h: Hit)
    requires Agrees(b) && Durable(b) && (op.Some? ==> Adds(op.value))
    ensures var c := MoveBy(b, op);
      && (Stored(b.pending, h) ==> Stored(c.pending, h))
      && (Enqueues(op, h) ==> Stored(c.pending, h) || HasDigest(c.pending, h.hashStr))
      && (Stored(c.pending, h) ==> Stored(b.pending, h) || Enqueues(op, h))
  {
    var c := MoveBy(b, op);
    if Stored(b.pending, h) {
      MoveQuiet(b, op);
      StoredOn(b.pending, c.pending, h);
    }
    if op.Some? && op.value.OpEnqueue? {
      EnqueueMoves(b, op.value.hit, op.value.reason, op.value.queuedAt, h);
    } else if op.Some? && Stored(c.pending, h) {
      EditStores(b, op.value, h);
    }
  }

  lemma EnqueueMoves(b: Bag, hit: Hit, reason: string, at: string, h: Hit)
    requires Agrees(b)
    ensures var c := Enqueue(b, hit, reason, at);
      && (h == hit ==> Stored(c.pending, h) || HasDigest(c.pending, h.hashStr))
      && (Stored(c.pending, h) ==> Stored(b.pending, h) || h == hit)
  {
    hide Agrees, Enqueue, Stored, HasDigest;
    EnqueueStores(b, hit, reason, at);
    var c := Enqueue(b, hit, reason, at);
    if Stored(c.pending, h) {
      EnqueuedWhole(b.pending, c.pending, hit, h);
    }
  }

  lemma EditStores(b: Bag, op: Op, h: Hit)
    requires Adds(op) && !op.OpEnqueue? && Stored(Apply(b, op).pending, h)
    ensures Stored(b.pending, h)
  {
    hide MarkPendingReason, DeferAll, Flush, Stored, SameButReasons;
    if op.OpFlush? {
      FlushSame(b);
    } else {
      if op.OpMarkReason? {
        ReasonSame(b, op.id, op.reason);
      } else {
        DeferSame(b, op.minute);
      }
      SameStored(b.pending, Apply(b, op).pending, h);
    }
  }

  lemma FlushSame(b: Bag)
    ensures Flush(b).pending == b.pending
  {
  }

  lemma EnqueuedWhole(p: seq<PendingBlock>, q: seq<PendingBlock>, hit: Hit, h: Hit)
    requires q == p || (|q| == |p| + 1 && q[..|p|] == p && q[|p|].hit == hit)
    requires Stored(q, h)
    ensures Stored(p, h) || h == hit
  {
    var i :| 0 <= i < |q| && q[i].hit == h;
    if i < |p| {
      assert q[..|p|][i] == q[i] || q == p;
    }
  }

  /** A step hands every hit on, into the store or to the pool if not to another thread. */
  ghost predicate HandedOn(s: State, t: State, op: Option<Op>) {
    forall h: Hit :: h.hashStr != "" && InHands(s, h) ==> InHands(t, h) || Enqueues(op, h) || h in t.accepted
  }

  /** And none comes from nowhere. */
  ghost predicate NoneInvented(s: State, t: State, op: Option<Op>) {
    && (forall h :: InHands(t, h) || h in t.accepted ==> Kept(s, h) || h in t.known)
    && (forall h :: Enqueues(op, h) ==> InHands(s, h))
  }

  lemma MoveKnown(s: State, t: State, op: Option<Op>)
    requires Agrees(s.store) && Durable(s.store) && (op.Some? ==> Adds(op.value))
    requires t.store == MoveBy(s.store, op) && s.known <= t.known
    requires OnlyKnown(s) && NoneInvented(s, t, op)
    ensures OnlyKnown(t)
  {
    hide Agrees, Durable, MoveBy, InHands, Stored, Enqueues;
    forall h | Kept(t, h) ensures h in t.known {
      MoveStores(s.store, op, h);
      assert h !in t.known ==> Kept(s, h);
    }
  }

  /** The hit, or one with its digest, is still kept. */
  ghost predicate StaysSafe(s: State, t: State, h: Hit) {
    Kept(s, h) ==> Kept(t, h) || HasDigest(t.store.pending, h.hashStr)
  }

  lemma StillSafe(s: State, t: State, h: Hit)
    requires Safe(s, h) && s.known <= t.known && OnlyKnown(t)
    requires forall g: Hit :: g.hashStr == h.hashStr ==> StaysSafe(s, t, g)
    ensures Safe(t, h)
  {
    hide InHands;
    if HasDigest(t.store.pending, h.hashStr) {
      var i :| 0 <= i < |t.store.pending| && t.store.pending[i].hit.hashStr == h.hashStr;
      assert Kept(t, t.store.pending[i].hit);
    } else if Kept(s, h) {
      assert StaysSafe(s, t, h);
    } else {
      var g :| g in s.known && Twins(g, h) && Kept(s, g);
      assert StaysSafe(s, t, g);
    }
  }

  lemma MoveConserves(s: State, t: State, op: Option<Op>)
    requires Agrees(s.store) && Durable(s.store) && (op.Some? ==> Adds(op.value))
    requires t.store == MoveBy(s.store, op) && s.known <= t.known && s.accepted <= t.accepted
    requires Conserved(s) && OnlyKnown(t) && HandedOn(s, t, op)
    requires forall h :: h in t.prepared ==> h.hashStr != "" && (h in s.prepared || InHands(t, h))
    ensures Conserved(t)
  {
    hide Agrees, Durable, MoveBy, InHands, Stored, HasDigest, Enqueues, OnlyKnown;
    forall h | h in t.prepared ensures Safe(t, h) {
      if h in s.prepared {
        forall g: Hit | g.hashStr == h.hashStr ensures StaysSafe(s, t, g) {
          MoveStores(s.store, op, g);
        }
        StillSafe(s, t, h);
      }
    }
  }

  lemma InRest(batch: seq<Hit>, h: Hit)
    requires batch != []
    ensures h in batch <==> h == batch[0] || h in batch[1..]
  {
  }

  // The mining thread

  /** The store operation of a step, if it has one. */
  function MinerOp(s: State, e: MinerEvent): Option<Op> {
    match e
    case PutInBag(at) => if s.hold.ForBag? then Some(OpEnqueue(s.hold.hit, s.hold.reason, at)) else None
    case BagOne(at) =>
      if (s.stage.GraceBag? || s.stage.FinalBag?) && s.stage.batch != []
      then Some(OpEnqueue(s.stage.batch[0], SHUTDOWN_PENDING, at)) else None
    case Defer(minute) => Some(OpDeferAll(minute))
    case FlushStore => Some(OpFlush)
    case _ => None
  }

  lemma MinerMoves(s: State, e: MinerEvent, t: State)
    requires MinerNext(s, e) == Some(t)
    ensures t.store == MoveBy(s.store, MinerOp(s, e))
  {
  }

  lemma MinerKeeps(s: State, e: MinerEvent, t: State, h: Hit)
    requires MinerNext(s, e) == Some(t) && ShouldStore(s.cfg) && InHands(s, h)
    ensures InHands(t, h) || Enqueues(MinerOp(s, e), h)
  {
    hide Enqueue, DeferAll, Flush;
    match e
    case Decide(g) => DropsExactly(s.cfg, s.shuttingDown, Kind(s.hold.hit), g, 0, "");
    case BagOne(at) => if s.stage.batch != [] { InRest(s.stage.batch, h); }
    case _ =>
  }

  lemma MinerInvents(s: State, e: MinerEvent, t: State, h: Hit)
    requires MinerNext(s, e) == Some(t)
    ensures InHands(t, h) ==> InHands(s, h) || h in t.known
    ensures Enqueues(MinerOp(s, e), h) ==> InHands(s, h)
  {
    hide Enqueue, DeferAll, Flush, HandleHit;
    if e.BagOne? && s.stage.batch != [] {
      InRest(s.stage.batch, h);
    }
  }

  lemma MinerPhases(s: State, e: MinerEvent, t: State)
    requires PhaseOk(s) && MinerNext(s, e) == Some(t)
    ensures PhaseOk(t)
    ensures t.cfg == s.cfg && t.worker == s.worker && t.accepted == s.accepted && t.console == s.console
    ensures s.known <= t.known
    ensures forall h :: h in t.prepared ==> h in s.prepared || InHands(t, h)
    ensures e.Defer? || MinerWillSave(t.stage) || (t.store == s.store && !MinerWillSave(s.stage))
  {
    hide Enqueue, DeferAll, Flush, HandleHit, InHands;
    if e.Find? {
      FoundInHands(t, e.hit);
    }
  }

  lemma FoundInHands(s: State, h: Hit)
    requires s.hold == Undecided(h)
    ensures InHands(s, h)
  {
  }

  lemma InFlightThroughQuiet(s: State, t: State)
    requires InFlightOk(s) && t.worker == s.worker && t.accepted == s.accepted && QuietMove(s.store, t.store)
    ensures InFlightOk(t)
  {
    if s.worker.Waving? {
      WaveThroughQuiet(s.worker.wave, s.store, t.store, s.accepted, {});
      assert s.accepted + {} == s.accepted;
    }
  }

  lemma MinerInv(s: State, e: MinerEvent, t: State)
    requires Inv(s) && MinerNext(s, e) == Some(t)
    ensures Inv(t) && t.cfg == s.cfg
  {
    hide MinerNext, Agrees, Durable, FullySaved, WaveOk, Conserved, MoveBy, OnlyKnown, InHands, Enqueues;
    MinerMoves(s, e, t);
    MoveQuiet(s.store, MinerOp(s, e));
    MinerPhases(s, e, t);
    InFlightThroughQuiet(s, t);
    forall h ensures InHands(t, h) ==> InHands(s, h) || h in t.known
             ensures Enqueues(MinerOp(s, e), h) ==> InHands(s, h)
    {
      MinerInvents(s, e, t, h);
    }
    MoveKnown(s, t, MinerOp(s, e));
    if ShouldStore(s.cfg) {
      forall h | InHands(s, h) ensures InHands(t, h) || Enqueues(MinerOp(s, e), h) {
        MinerKeeps(s, e, t, h);
      }
      MoveConserves(s, t, MinerOp(s, e));
    }
  }

  // The console handler

  function ConsoleOp(s: State, e: ConsoleEvent): Option<Op> {
    match e
    case PersistOne(at) =>
      if s.console.Persisting? && s.console.batch != []
      then Some(OpEnqueue(s.console.batch[0], SHUTDOWN_PENDING, at)) else None
    case DeferRest(minute) => Some(OpDeferAll(minute))
    case _ => None
  }

  lemma ConsoleMoves(s: State, e: ConsoleEvent, t: State)
    requires ConsoleNext(s, e) == Some(t)
    ensures t.store == MoveBy(s.store, ConsoleOp(s, e))
  {
  }

  lemma ConsoleKeeps(s: State, e: ConsoleEvent, t: State, h: Hit)
    requires ConsoleNext(s, e) == Some(t)
    ensures InHands(s, h) ==> InHands(t, h) || Enqueues(ConsoleOp(s, e), h)
    ensures InHands(t, h) || Enqueues(ConsoleOp(s, e), h) ==> InHands(s, h)
  {
    hide DeferAll;
    if e.PersistOne? && s.console.batch != [] {
      InRest(s.console.batch, h);
    }
  }

  lemma ConsolePhases(s: State, e: ConsoleEvent, t: State)
    requires PhaseOk(s) && ConsoleNext(s, e) == Some(t)
    ensures PhaseOk(t)
    ensures t.cfg == s.cfg && t.worker == s.worker && t.accepted == s.accepted && t.stage == s.stage
    ensures t.known == s.known && t.prepared == s.prepared
    ensures e.DeferRest? || !t.console.Idle?
  {
  }

  lemma ConsoleInv(s: State, e: ConsoleEvent, t: State)
    requires Inv(s) && ConsoleNext(s, e) == Some(t)
    ensures Inv(t) && t.cfg == s.cfg
  {
    hide ConsoleNext, Agrees, Durable, FullySaved, WaveOk, Conserved, MoveBy, OnlyKnown, InHands, Enqueues;
    ConsoleMoves(s, e, t);
    MoveQuiet(s.store, ConsoleOp(s, e));
    ConsolePhases(s, e, t);
    InFlightThroughQuiet(s, t);
    forall h ensures InHands(s, h) ==> InHands(t, h) || Enqueues(ConsoleOp(s, e), h)
             ensures InHands(t, h) || Enqueues(ConsoleOp(s, e), h) ==> InHands(s, h)
    {
      ConsoleKeeps(s, e, t, h);
    }
    MoveKnown(s, t, ConsoleOp(s, e));
    if ShouldStore(s.cfg) {
      MoveConserves(s, t, ConsoleOp(s, e));
    }
  }

  // The submit worker, up to the last live hit

  function JobOp(s: State, e: JobEvent): Option<Op> {
    match e
    case BagJob(at) =>
      if s.worker.Bagging? && s.worker.batch != [] && s.worker.keeps
      then Some(OpEnqueue(s.worker.batch[0], s.worker.reason, at)) else None
    case BagRouted(at) =>
      if s.worker.LiveBag? then Some(OpEnqueue(s.worker.hit, s.worker.reason, at)) else None
    case _ => None
  }

  lemma JobMoves(s: State, e: JobEvent, t: State)
    requires JobNext(s, e) == Some(t)
    ensures t.store == MoveBy(s.store, JobOp(s, e))
  {
    hide Enqueue, SubmitAccepted, AfterRefusal, BeforePost;
  }

  lemma JobPhases(s: State, e: JobEvent, t: State)
    requires PhaseOk(s) && JobNext(s, e) == Some(t)
    ensures PhaseOk(t)
    ensures t.cfg == s.cfg && t.stage == s.stage && t.hold == s.hold && t.console == s.console
    ensures t.prepared == s.prepared && t.known == s.known && s.accepted <= t.accepted
    ensures !t.worker.Waving? && WorkerWillSave(t.worker)
  {
    hide Enqueue, SubmitAccepted, AfterRefusal, BeforePost;
  }

  lemma JobKeeps(s: State, e: JobEvent, t: State, h: Hit)
    requires PhaseOk(s) && JobNext(s, e) == Some(t) && ShouldStore(s.cfg) && InHands(s, h)
    ensures InHands(t, h) || Enqueues(JobOp(s, e), h) || h in t.accepted
  {
    hide Enqueue, SubmitAccepted, IsDifficultyMismatch, IsPoolHold, IsTransient, IsXuniWindowReject;
    match e
    case BagJob(at) => if s.worker.batch != [] { InRest(s.worker.batch, h); }
    case RouteJob(g) =>
      if s.worker.batch != [] {
        DropsExactly(s.cfg, s.shuttingDown, Kind(s.worker.batch[0]), g, 0, "");
        InRest(s.worker.batch, h);
      }
    case LiveAnswer(status, body) =>
      var g := Gates(true, true, true, true, true, true, true, 0, 0, true, true);
      DropsExactly(s.cfg, s.shuttingDown, "", g, status, body);
    case _ =>
  }

  lemma JobInvents(s: State, e: JobEvent, t: State, h: Hit)
    requires JobNext(s, e) == Some(t)
    ensures InHands(t, h) || Enqueues(JobOp(s, e), h) ==> InHands(s, h)
    ensures h in t.accepted ==> h in s.accepted || InHands(s, h)
  {
    hide Enqueue, SubmitAccepted, AfterRefusal, BeforePost;
    if e.BagJob? && s.worker.batch != [] {
      InRest(s.worker.batch, h);
    } else if e.RouteJob? && s.worker.batch != [] {
      InRest(s.worker.batch, h);
    }
  }

  lemma JobInv(s: State, e: JobEvent, t: State)
    requires Inv(s) && JobNext(s, e) == Some(t)
    ensures Inv(t) && t.cfg == s.cfg
  {
    hide JobNext, Agrees, Durable, FullySaved, WaveOk, Conserved, MoveBy, OnlyKnown, InHands, Enqueues;
    JobMoves(s, e, t);
    MoveQuiet(s.store, JobOp(s, e));
    JobPhases(s, e, t);
    forall h ensures InHands(t, h) || Enqueues(JobOp(s, e), h) ==> InHands(s, h)
             ensures h in t.accepted ==> h in s.accepted || InHands(s, h)
    {
      JobInvents(s, e, t, h);
    }
    MoveKnown(s, t, JobOp(s, e));
    if ShouldStore(s.cfg) {
      forall h | InHands(s, h) ensures InHands(t, h) || Enqueues(JobOp(s, e), h) || h in t.accepted {
        JobKeeps(s, e, t, h);
      }
      MoveConserves(s, t, JobOp(s, e));
    }
  }

  // A flush wave

  predicate IsRejection(s: State, e: FlushEvent) {
    && e.PoolTurn? && e.pe.Answer? && FlushOutcome(e.pe.status, e.pe.body) == Rejected
    && s.worker.Waving? && e.w < |s.worker.wave.pool.workers|
    && s.worker.wave.pool.workers[e.w].Claimed?
    && s.worker.wave.pool.workers[e.w].i < |s.worker.wave.work|
  }

  function FlushOp(s: State, e: FlushEvent): Option<Op> {
    match e
    case NoNetwork(minute) => if s.worker.Selecting? && s.worker.last then Some(OpDeferAll(minute)) else None
    case PoolTurn(w, pe) =>
      if IsRejection(s, e)
      then Some(OpMarkReason(s.worker.wave.work[s.worker.wave.pool.workers[w].i].id, RESUBMISSION)) else None
    case _ => None
  }

  lemma FlushMoves(s: State, e: FlushEvent, t: State)
    requires FlushNext(s, e) == Some(t) && !e.Commit?
    ensures t.store == MoveBy(s.store, FlushOp(s, e))
  {
    hide Selected, DeferAll, MarkPendingReason, FlushOutcome, PoolStep;
  }

  /** All that a wave leaves alone, and whether a save is still owed. */
  lemma FlushPhases(s: State, e: FlushEvent, t: State)
    requires PhaseOk(s) && FlushNext(s, e) == Some(t)
    ensures PhaseOk(t)
    ensures t.(worker := s.worker, store := s.store, accepted := s.accepted, deferrals := s.deferrals) == s
    ensures s.accepted <= t.accepted
    ensures WorkerWillSave(t.worker) || !WorkerWillSave(s.worker)
  {
    hide SelectWork, DeferAll, MarkPendingReason, MarkSubmittedMany, FlushOutcome, PoolStep, Start, Joined;
    hide FlushBatch.ListFlushBatch, Map, Enabled, AcceptedIds;
  }

  /** A wave takes no hit into its hands and lets none go. */
  lemma FlushKeeps(s: State, e: FlushEvent, t: State, h: Hit)
    requires PhaseOk(s) && FlushNext(s, e) == Some(t)
    ensures InHands(t, h) <==> InHands(s, h)
  {
    hide FlushNext;
    FlushPhases(s, e, t);
    NoHitsInWave(s, e, t);
  }

  lemma NoHitsInWave(s: State, e: FlushEvent, t: State)
    requires FlushNext(s, e) == Some(t)
    ensures s.worker.Serving? || s.worker.Selecting? || s.worker.Waving?
    ensures t.worker.Serving? || t.worker.Selecting? || t.worker.Waving? || t.worker.Checking? || t.worker.Gone?
  {
    hide SelectWork, FlushBatch.ListFlushBatch, FlushOutcome, DeferAll, MarkSubmittedMany, MarkPendingReason, Joined;
  }

  /** What a wave adds to the accepted hits is one of the blocks that it was selected from. */
  lemma FlushAccepts(s: State, e: FlushEvent, t: State, h: Hit)
    requires InFlightOk(s) && FlushNext(s, e) == Some(t) && h in t.accepted
    ensures h in s.accepted || Stored(s.store.pending, h)
  {
    hide SelectWork, FlushBatch.ListFlushBatch, FlushOutcome, DeferAll, MarkSubmittedMany, MarkPendingReason, Joined;
    hide PoolInv, AcceptedKnown, PoolStep;
    if h !in s.accepted {
      var wave := s.worker.wave;
      var item := wave.work[wave.pool.workers[e.w].i];
      assert item in wave.work && item.hit == h;
      ItemStored(wave, item, s.store.pending, s.accepted);
    }
  }

  lemma ItemStored(wave: Wave, item: WorkItem, pending: seq<PendingBlock>, accepted: set<Hit>)
    requires WaveOk(wave, pending, accepted) && item in wave.work
    ensures Stored(pending, item.hit)
  {
    hide PoolInv;
    var q :| q in wave.start && q.id == item.id && q.hit == item.hit;
    var i :| 0 <= i < |wave.start| && wave.start[i] == q;
    StoredOn(wave.start, pending, item.hit);
  }

  lemma {:induction false} ItemsFrom(batch: seq<PendingBlock>, start: seq<PendingBlock>)
    requires forall pb :: pb in batch ==> pb in start
    ensures forall item :: item in Map(Item, batch) ==> ItemFrom(item, start)
  {
    forall item | item in Map(Item, batch) ensures ItemFrom(item, start) {
      var i :| 0 <= i < |batch| && Map(Item, batch)[i] == item;
      assert batch[i] in batch && batch[i] in start;
    }
  }

  /** A wave holds blocks of the list it was selected from. */
  lemma SelectedFrom(q: FlushBatch.Query, f: FlushArgs, pending: seq<PendingBlock>, last: bool)
    requires DistinctIds(pending)
    ensures forall pb :: pb in SelectWork(FlushBatch.ListFlushBatch(q, pending), f, last) ==> pb in pending
  {
    var batch := FlushBatch.ListFlushBatch(q, pending);
    FlushBatch.WaveIsRight(q, pending);
    KeepMembers(batch, Sends(f));
  }

  lemma StartedWave(chosen: seq<PendingBlock>, pool: Pool, start: seq<PendingBlock>, accepted: set<Hit>,
                    deferrals: nat)
    requires forall pb :: pb in chosen ==> pb in start
    requires PoolInv(pool) && pool.size == |chosen| && pool.handled == []
    ensures WaveOk(Wave(Map(Item, chosen), pool, start, deferrals), start, accepted)
  {
    hide PoolInv;
    ItemsFrom(chosen, start);
    WholePrefix(start);
  }

  lemma SelectedWave(s: State, q: FlushBatch.Query, f: FlushArgs, nworkers: nat)
    requires StoreOk(s) && s.worker.Selecting?
    ensures var w := Selected(s, q, f, nworkers);
      w.Waving? ==> WaveOk(w.wave, s.store.pending, s.accepted)
  {
    var p := s.store.pending;
    SelectedFrom(q, f, p, s.worker.last);
    hide SelectWork, FlushBatch.ListFlushBatch, Agrees, Durable, WaveOk, PoolInv, Map;
    var chosen := SelectWork(FlushBatch.ListFlushBatch(q, p), f, s.worker.last);
    var n := if s.worker.last || nworkers == 0 then 1 else nworkers;
    StartInv(|chosen|, n, !s.worker.last);
    StartedWave(chosen, Start(|chosen|, n, !s.worker.last), p, s.accepted, s.deferrals);
  }

  lemma TurnWave(s: State, w: nat, pe: PoolEvent)
    requires s.worker.Waving? && Enabled(s.worker.wave.pool, w, pe)
    requires WaveOk(s.worker.wave, s.store.pending, s.accepted)
    requires GrownFrom(s.store.pending, AfterTurn(s, w, pe).store.pending)
    ensures var t := AfterTurn(s, w, pe);
      t.worker.Waving? && WaveOk(t.worker.wave, t.store.pending, t.accepted)
  {
    hide MarkPendingReason, PoolInv, GrownFrom, ItemFrom, FlushOutcome, AcceptedKnown;
    var wave := s.worker.wave;
    PoolStepInv(wave.pool, w, pe);
    StepKeepsSize(wave.pool, w, pe);
    GrownOn(wave.start, s.store.pending, AfterTurn(s, w, pe).store.pending);
    AnswerFiled(wave, w, pe, s.accepted, AfterTurn(s, w, pe).accepted);
  }

  lemma StepKeepsSize(p: Pool, w: nat, pe: PoolEvent)
    requires Enabled(p, w, pe)
    ensures PoolStep(p, w, pe).size == p.size
    ensures !pe.Answer? ==> PoolStep(p, w, pe).handled == p.handled
  {
  }

  lemma AnswerFiled(wave: Wave, w: nat, pe: PoolEvent, accepted: set<Hit>, after: set<Hit>)
    requires Enabled(wave.pool, w, pe)
    requires AcceptedKnown(wave.work, wave.pool.handled, accepted)
    requires pe.Answer? ==> PoolInv(wave.pool) && wave.pool.size == |wave.work|
    requires after == if pe.Answer? && FlushOutcome(pe.status, pe.body) == Accepted
                         && wave.pool.workers[w].i < |wave.work|
                      then accepted + {wave.work[wave.pool.workers[w].i].hit} else accepted
    ensures AcceptedKnown(wave.work, PoolStep(wave.pool, w, pe).handled, after)
  {
  }

  lemma FlushInFlight(s: State, e: FlushEvent, t: State)
    requires StoreOk(s) && InFlightOk(s) && FlushNext(s, e) == Some(t) && !e.Commit?
    requires QuietMove(s.store, t.store)
    ensures InFlightOk(t)
  {
    hide Selected, AfterTurn, WaveOk, DeferAll, Agrees, Durable, GrownFrom, Enabled;
    match e
    case Select(q, f, nworkers) => SelectedWave(s, q, f, nworkers);
    case PoolTurn(w, pe) => TurnWave(s, w, pe);
    case _ =>
  }

  lemma CommitInv(s: State, t: State)
    requires Inv(s) && FlushNext(s, Commit) == Some(t)
    ensures Inv(t) && t.cfg == s.cfg
  {
    hide Agrees, Durable, FullySaved, WaveOk, Conserved, MarkSubmittedMany, AcceptedIds, OnlyKnown, InHands, Joined;
    var wave := s.worker.wave;
    FlushPhases(s, Commit, t);
    CommitKeepsStore(s.store, AcceptedIds(wave.work, wave.pool.handled));
    CommitKnown(s, t);
    if ShouldStore(s.cfg) {
      CommitConserves(s, t);
    }
  }

  lemma CommitKnown(s: State, t: State)
    requires Inv(s) && FlushNext(s, Commit) == Some(t)
    ensures OnlyKnown(t)
  {
    hide StoreOk, WaveOk, Conserved, MarkSubmittedMany, AcceptedIds, InHands, Stored, Joined, FullySaved;
    forall h | Kept(t, h) ensures h in t.known {
      FlushKeeps(s, Commit, t, h);
      if Stored(t.store.pending, h) {
        CommitInventsNothing(s.store, AcceptedIds(s.worker.wave.work, s.worker.wave.pool.handled), h);
      }
      assert Kept(s, h);
    }
  }

  lemma CommitConserves(s: State, t: State)
    requires Inv(s) && FlushNext(s, Commit) == Some(t) && Conserved(s) && OnlyKnown(t)
    ensures Conserved(t)
  {
    hide Agrees, Durable, WaveOk, MarkSubmittedMany, AcceptedIds, InHands, Stored, OnlyKnown, Joined, HasDigest;
    hide FullySaved;
    forall h | h in t.prepared ensures Safe(t, h) {
      forall g: Hit | g.hashStr == h.hashStr ensures StaysSafe(s, t, g) {
        FlushKeeps(s, Commit, t, g);
        if Stored(s.store.pending, g) {
          CommitLosesNothing(s.store, s.worker.wave, s.accepted, g);
        }
      }
      StillSafe(s, t, h);
    }
  }

  lemma FlushInv(s: State, e: FlushEvent, t: State)
    requires Inv(s) && FlushNext(s, e) == Some(t) && !e.Commit?
    ensures Inv(t) && t.cfg == s.cfg
  {
    hide FlushNext, Agrees, Durable, FullySaved, WaveOk, Conserved, MoveBy, OnlyKnown, InHands, Enqueues, Stored;
    FlushMoves(s, e, t);
    MoveQuiet(s.store, FlushOp(s, e));
    FlushPhases(s, e, t);
    FlushInFlight(s, e, t);
    forall h ensures InHands(t, h) <==> InHands(s, h)
             ensures h in t.accepted ==> Kept(s, h)
             ensures !Enqueues(FlushOp(s, e), h)
    {
      FlushKeeps(s, e, t, h);
      if h in t.accepted {
        FlushAccepts(s, e, t, h);
      }
      FlushStoresNothing(s, e, h);
    }
    MoveKnown(s, t, FlushOp(s, e));
    if ShouldStore(s.cfg) {
      MoveConserves(s, t, FlushOp(s, e));
    }
  }

  lemma FlushStoresNothing(s: State, e: FlushEvent, h: Hit)
    ensures !Enqueues(FlushOp(s, e), h)
  {
  }

  // The end of the worker

  function EndOp(s: State, e: EndEvent): Option<Op> {
    match e
    case BagLast(at) =>
      if s.worker.LastBag? && s.worker.batch != []
      then Some(OpEnqueue(s.worker.batch[0], SHUTDOWN_PENDING, at)) else None
    case LastDeferAll(minute) => Some(OpDeferAll(minute))
    case _ => None
  }

  lemma EndMoves(s: State, e: EndEvent, t: State)
    requires EndNext(s, e) == Some(t)
    ensures t.store == MoveBy(s.store, EndOp(s, e))
  {
    hide Enqueue, DeferAll;
  }

  lemma EndPhases(s: State, e: EndEvent, t: State)
    requires PhaseOk(s) && EndNext(s, e) == Some(t)
    ensures PhaseOk(t)
    ensures t.cfg == s.cfg && t.stage == s.stage && t.hold == s.hold && t.console == s.console
    ensures t.prepared == s.prepared && t.known == s.known && t.accepted == s.accepted && !t.worker.Waving?
    ensures WorkerWillSave(t.worker) || !WorkerWillSave(s.worker) || e.LastDeferAll?
    ensures e.BagLast? ==> WorkerWillSave(t.worker)
  {
    hide Enqueue, DeferAll;
  }

  lemma EndKeeps(s: State, e: EndEvent, t: State, h: Hit)
    requires EndNext(s, e) == Some(t)
    ensures InHands(s, h) ==> InHands(t, h) || Enqueues(EndOp(s, e), h)
    ensures InHands(t, h) || Enqueues(EndOp(s, e), h) ==> InHands(s, h)
  {
    hide Enqueue, DeferAll;
    if e.BagLast? && s.worker.batch != [] {
      InRest(s.worker.batch, h);
    }
  }

  lemma EndInv(s: State, e: EndEvent, t: State)
    requires Inv(s) && EndNext(s, e) == Some(t)
    ensures Inv(t) && t.cfg == s.cfg
  {
    hide EndNext, Agrees, Durable, FullySaved, WaveOk, Conserved, MoveBy, OnlyKnown, InHands, Enqueues;
    EndMoves(s, e, t);
    MoveQuiet(s.store, EndOp(s, e));
    EndPhases(s, e, t);
    forall h ensures InHands(s, h) ==> InHands(t, h) || Enqueues(EndOp(s, e), h)
             ensures InHands(t, h) || Enqueues(EndOp(s, e), h) ==> InHands(s, h)
    {
      EndKeeps(s, e, t, h);
    }
    MoveKnown(s, t, EndOp(s, e));
    if ShouldStore(s.cfg) {
      MoveConserves(s, t, EndOp(s, e));
    }
  }

  // The end of a drain window

  lemma WindowInv(s: State, t: State)
    requires Inv(s) && Next(s, WindowClosed) == Some(t)
    ensures Inv(t) && t.cfg == s.cfg
  {
    hide Agrees, Durable, FullySaved, WaveOk, Conserved, OnlyKnown, Flush;
    FlushQuiet(s.store);
    InFlightThroughQuiet(s, t);
    MoveKnown(s, t, Some(OpFlush));
    if ShouldStore(s.cfg) {
      MoveConserves(s, t, Some(OpFlush));
    }
  }

  // ---------- Every run ----------

  lemma NextInv(s: State, e: Event, t: State)
    requires Inv(s) && Next(s, e) == Some(t)
    ensures Inv(t) && t.cfg == s.cfg
  {
    hide Inv, MinerNext, JobNext, FlushNext, EndNext, ConsoleNext;
    match e
    case Miner(m) => MinerInv(s, m, t);
    case Job(j) => JobInv(s, j, t);
    case Flushing(f) =>
      if f.Commit? {
        CommitInv(s, t);
      } else {
        FlushInv(s, f, t);
      }
    case Ending(n) => EndInv(s, n, t);
    case Handler(c) => ConsoleInv(s, c, t);
    case WindowClosed => WindowInv(s, t);
  }

  lemma {:induction false} AfterInv(s: State, events: seq<Event>)
    requires Inv(s) && After(s, events).Some?
    ensures Inv(After(s, events).value) && After(s, events).value.cfg == s.cfg
  {
    hide Inv, Next;
    if events != [] {
      var n := |events| - 1;
      AfterInv(s, events[..n]);
      NextInv(After(s, events[..n]).value, events[n], After(s, events).value);
    }
  }

  /** Where a hit is, after every run: with a place to store, no prepared hit ever disappears. It is there as it was
      prepared, unless its digest was bagged with another hit; then that one is there. */
  lemma NoHitLost(cfg: Config, store: Bag, events: seq<Event>, h: Hit)
    requires Agrees(store) && Durable(store) && ShouldStore(cfg)
    requires var s := After(Init(cfg, store), events); s.Some? && h in s.value.prepared
    ensures var s := After(Init(cfg, store), events).value;
      Kept(s, h) || exists g :: g in s.known && Twins(g, h) && Kept(s, g)
  {
    hide Next, StoreOk, InFlightOk, PhaseOk;
    InitInv(cfg, store);
    AfterInv(Init(cfg, store), events);
  }

  lemma NextKnown(s: State, e: Event, t: State)
    requires Next(s, e) == Some(t)
    ensures var found := if e.Miner? && e.m.Find? then {e.m.hit} else {};
      t.known == s.known + found && t.prepared == s.prepared + found
  {
    hide Enqueue, DeferAll, Flush, HandleHit, SubmitAccepted, AfterRefusal, BeforePost, Selected, AfterTurn, LookAt;
    hide MarkSubmittedMany, Joined;
    if e.Flushing? && e.f.PoolTurn? {
      TurnKnown(s, e.f.w, e.f.pe);
    }
  }

  lemma TurnKnown(s: State, w: nat, pe: PoolEvent)
    requires s.worker.Waving? && Enabled(s.worker.wave.pool, w, pe)
    ensures AfterTurn(s, w, pe).known == s.known && AfterTurn(s, w, pe).prepared == s.prepared
  {
    hide FlushOutcome, PoolStep, MarkPendingReason;
  }

  lemma {:induction false} KnownIs(cfg: Config, store: Bag, events: seq<Event>)
    requires After(Init(cfg, store), events).Some?
    ensures var s := After(Init(cfg, store), events).value;
      s.known == HitsOf(store.pending) + s.prepared
  {
    hide Next;
    if events != [] {
      var n := |events| - 1;
      KnownIs(cfg, store, events[..n]);
      NextKnown(After(Init(cfg, store), events[..n]).value, events[n], After(Init(cfg, store), events).value);
    }
  }

  /** And nothing else is ever held, stored or accepted: each such hit is, as a value, one that was prepared or that was
      stored at the start. */
  lemma NothingInvented(cfg: Config, store: Bag, events: seq<Event>, h: Hit)
    requires Agrees(store) && Durable(store)
    requires var s := After(Init(cfg, store), events); s.Some? && Kept(s.value, h)
    ensures h in After(Init(cfg, store), events).value.prepared || exists pb :: pb in store.pending && pb.hit == h
  {
    hide After, Next, StoreOk, InFlightOk, PhaseOk;
    InitInv(cfg, store);
    AfterInv(Init(cfg, store), events);
    KnownIs(cfg, store, events);
  }

  // ---------- What the pool took ----------

  /** The event is an answer that accepts the hit. */
  predicate Takes(s: State, e: Event, h: Hit) {
    || (e.Job? && e.j.LiveAnswer? && s.worker.Posting? && s.worker.hit == h && SubmitAccepted(e.j.status, e.j.body))
    || (e.Flushing? && e.f.PoolTurn? && e.f.pe.Answer? && s.worker.Waving?
        && e.f.w < |s.worker.wave.pool.workers| && s.worker.wave.pool.workers[e.f.w].Claimed?
        && s.worker.wave.pool.workers[e.f.w].i < |s.worker.wave.work|
        && s.worker.wave.work[s.worker.wave.pool.workers[e.f.w].i].hit == h
        && SubmitAccepted(e.f.pe.status, e.f.pe.body))
  }

  lemma NextAccepts(s: State, e: Event, t: State, h: Hit)
    requires Next(s, e) == Some(t)
    ensures h in t.accepted <==> h in s.accepted || Takes(s, e, h)
  {
    hide Enqueue, DeferAll, Flush, HandleHit, SubmitAccepted, AfterRefusal, BeforePost, Selected, AfterTurn, LookAt;
    hide MarkSubmittedMany, Joined;
    if e.Flushing? && e.f.PoolTurn? {
      TurnAccepts(s, e.f.w, e.f.pe, h);
    }
  }

  lemma TurnAccepts(s: State, w: nat, pe: PoolEvent, h: Hit)
    requires s.worker.Waving? && Enabled(s.worker.wave.pool, w, pe)
    ensures h in AfterTurn(s, w, pe).accepted <==> h in s.accepted || Takes(s, Flushing(PoolTurn(w, pe)), h)
  {
    hide SubmitAccepted, IsTransient, IsPoolHold, IsDifficultyMismatch, IsXuniWindowReject, PoolStep, MarkPendingReason;
  }

  /** The event at position k is such an answer. */
  predicate TakenAt(cfg: Config, store: Bag, events: seq<Event>, k: nat, h: Hit) {
    && k < |events|
    && var s := After(Init(cfg, store), events[..k]);
    s.Some? && Takes(s.value, events[k], h)
  }

  /** A hit counts as accepted exactly when an answer of the run to its own submit says so: a status from 200 to 299, or
      the words of a duplicate. */
  lemma {:induction false} AcceptedExactly(cfg: Config, store: Bag, events: seq<Event>, h: Hit)
    requires After(Init(cfg, store), events).Some?
    ensures h in After(Init(cfg, store), events).value.accepted <==> exists k :: TakenAt(cfg, store, events, k, h)
  {
    hide Next, Takes, Init;
    if events == [] {
      NoneAccepted(cfg, store, h);
    } else {
      var n := |events| - 1;
      AcceptedExactly(cfg, store, events[..n], h);
      NextAccepts(After(Init(cfg, store), events[..n]).value, events[n], After(Init(cfg, store), events).value, h);
      TakenSooner(cfg, store, events, h);
    }
  }

  lemma NoneAccepted(cfg: Config, store: Bag, h: Hit)
    ensures h !in Init(cfg, store).accepted
  {
  }

  lemma TakenSooner(cfg: Config, store: Bag, events: seq<Event>, h: Hit)
    requires events != []
    ensures var n := |events| - 1;
      (exists k :: TakenAt(cfg, store, events, k, h)) <==>
        (exists k :: TakenAt(cfg, store, events[..n], k, h)) || TakenAt(cfg, store, events, n, h)
  {
    hide After, Takes, Init;
    var n := |events| - 1;
    if k: nat :| TakenAt(cfg, store, events, k, h) && k < n {
      assert events[..n][..k] == events[..k];
      assert TakenAt(cfg, store, events[..n], k, h);
    }
    if k: nat :| TakenAt(cfg, store, events[..n], k, h) {
      assert events[..n][..k] == events[..k];
      assert TakenAt(cfg, store, events, k, h);
    }
  }

  // ---------- The end of the session ----------

  /** In that store as it was prepared, up to an attempt count cut to 32 bits, or accepted. */
  ghost predicate Survives(b: Bag, accepted: set<Hit>, h: Hit) {
    h in accepted || exists i :: 0 <= i < |b.pending| && Reloaded(b.pending[i].hit) == Reloaded(h)
  }

  lemma StoredSurvives(b: Bag, c: Bag, accepted: set<Hit>, h: Hit)
    requires Norms(c.pending) == Norms(b.pending) && (Stored(b.pending, h) || h in accepted)
    ensures Survives(c, accepted, h)
  {
    if Stored(b.pending, h) {
      var i :| 0 <= i < |b.pending| && b.pending[i].hit == h;
      assert Norm(b.pending[i]) == Norms(b.pending)[i] == Norms(c.pending)[i] == Norm(c.pending[i]);
    }
  }

  /** What the session leaves behind once finalize_session has returned and the console handler is idle:
      the database file holds every pending block, so the next session starts with exactly these digests,
      and each prepared hit is among them, key and account and all, or was accepted, unless its digest was bagged with
      another hit, of which the same holds. It starts with exactly this list, reasons included, if nothing was unsaved,
      and in any case once the store's destructor has run. */
  lemma SessionEnd(cfg: Config, store: Bag, events: seq<Event>)
    requires Agrees(store) && Durable(store)
    requires var s := After(Init(cfg, store), events);
      s.Some? && s.value.stage.Finished? && s.value.console.Idle?
    ensures var s := After(Init(cfg, store), events).value;
      var c := Reopened(s.store);
      && Load(s.store.disk, s.store.journal) == Some(c)
      && c.index == s.store.index == Digests(s.store.pending)
      && Norms(c.pending) == Norms(s.store.pending)
      && (s.store.dirty == 0 ==> c.pending == Map(ReloadedBlock, s.store.pending))
      && Reopened(Flush(s.store)).pending == Map(ReloadedBlock, s.store.pending)
      && (ShouldStore(cfg) ==> forall h :: h in s.prepared ==>
            Survives(c, s.accepted, h) || exists g :: g in s.known && Twins(g, h) && Survives(c, s.accepted, g))
  {
    hide Next, Durable, Load, Reopened, WaveOk, Norms, Flush, Map, Survives;
    InitInv(cfg, store);
    AfterInv(Init(cfg, store), events);
    var s := After(Init(cfg, store), events).value;
    StoreLeft(s.store);
    if ShouldStore(cfg) {
      forall h | h in s.prepared
        ensures Survives(Reopened(s.store), s.accepted, h)
                || exists g :: g in s.known && Twins(g, h) && Survives(Reopened(s.store), s.accepted, g)
      {
        EndSurvives(s, h);
      }
    }
  }

  lemma EndSurvives(s: State, h: Hit)
    requires Safe(s, h) && PhaseOk(s) && s.stage.Finished? && s.console.Idle?
    requires Norms(Reopened(s.store).pending) == Norms(s.store.pending)
    ensures var c := Reopened(s.store);
      Survives(c, s.accepted, h) || exists g :: g in s.known && Twins(g, h) && Survives(c, s.accepted, g)
  {
    hide Norms, Reopened, Survives, Stored;
    if Kept(s, h) {
      StoredSurvives(s.store, Reopened(s.store), s.accepted, h);
    } else {
      var g :| g in s.known && Twins(g, h) && Kept(s, g);
      StoredSurvives(s.store, Reopened(s.store), s.accepted, g);
    }
  }

  lemma StoreLeft(b: Bag)
    requires Agrees(b) && Durable(b) && FullySaved(b)
    ensures Load(b.disk, b.journal) == Some(Reopened(b))
    ensures Reopened(b).index == b.index && Norms(Reopened(b).pending) == Norms(b.pending)
    ensures b.dirty == 0 ==> Reopened(b).pending == Map(ReloadedBlock, b.pending)
    ensures Reopened(Flush(b)).pending == Map(ReloadedBlock, b.pending)
  {
    hide Agrees, Durable, FullySaved, Load, Reopened, Norms, Flush, Map;
    SavedReopens(b);
    CrashLosesLittle(b);
    RestartKeepsList(b);
  }

  lemma SavedReopens(b: Bag)
    requires Agrees(b) && FullySaved(b)
    ensures Load(b.disk, b.journal) == Some(Reopened(b))
    ensures Reopened(b).index == b.index && Norms(Reopened(b).pending) == Norms(b.pending)
  {
    var saved :| SavedAs(b, saved) && |saved| == |b.pending|;
    LoadSaved(b, saved);
    NormsReloaded(saved);
    NormsDigests(saved, b.pending);
    NormsDigests(b.pending, saved);
  }

  // ---------- What a wave removes ----------

  /** An answer to an item with that id says that the pool took it. */
  predicate AcceptedAt(wave: Wave, id: int, k: nat) {
    && k < |wave.pool.handled| && SubmitAccepted(wave.pool.handled[k].status, wave.pool.handled[k].body)
    && wave.pool.handled[k].i < |wave.work| && wave.work[wave.pool.handled[k].i].id == id
  }

  lemma {:induction false} AcceptedIdsHave(work: seq<WorkItem>, handled: seq<Reply>, k: nat)
    requires k < |handled| && SubmitAccepted(handled[k].status, handled[k].body) && handled[k].i < |work|
    ensures work[handled[k].i].id in AcceptedIds(work, handled)
  {
    hide SubmitAccepted;
    if k < |handled| - 1 {
      assert handled[..|handled| - 1][k] == handled[k];
      AcceptedIdsHave(work, handled[..|handled| - 1], k);
    }
  }

  /** At the end of a wave, in whatever run: the list is what the wave started from, grown at its end and
      unchanged but for reasons, less exactly the blocks that the pool accepted, in order; the answers
      account for a prefix of the work, each item sent once. */
  lemma WaveRemovesAccepted(cfg: Config, store: Bag, events: seq<Event>, t: State)
    requires Agrees(store) && Durable(store)
    requires var s := After(Init(cfg, store), events); s.Some? && FlushNext(s.value, Commit) == Some(t)
    ensures var s := After(Init(cfg, store), events).value;
      var wave := s.worker.wave;
      var ids := AcceptedIds(wave.work, wave.pool.handled);
      && GrownFrom(wave.start, s.store.pending)
      && t.store.pending == Keep(s.store.pending, Not(IdIn(ids)))
      && (forall id :: id in ids <==> exists k :: AcceptedAt(wave, id, k))
      && (forall item :: item in wave.work ==> ItemFrom(item, wave.start))
      && (forall i: nat :: i < Issued(wave.pool) <==> Handled(wave.pool, i))
      && wave.pool.done == Issued(wave.pool)
           == wave.pool.accepted + wave.pool.transients + wave.pool.holds + wave.pool.rejected
      && wave.pool.accepted == |Keep(wave.pool.handled, Taken())|
      && wave.pool.transients == |Keep(wave.pool.handled, Broken())|
      && wave.pool.holds == |Keep(wave.pool.handled, HeldBack())|
      && wave.pool.rejected == |Keep(wave.pool.handled, Refused())|
  {
    hide Next, Durable, PhaseOk, Conserved, PoolInv, GrownFrom, ItemFrom, AcceptedIds;
    InitInv(cfg, store);
    AfterInv(Init(cfg, store), events);
    var s := After(Init(cfg, store), events).value;
    JoinedCounts(s.worker.wave.pool);
    IdsAccepted(s.worker.wave);
    CommitKeeps(s.store.pending, AcceptedIds(s.worker.wave.work, s.worker.wave.pool.handled));
  }

  lemma IdsAccepted(wave: Wave)
    ensures forall id :: id in AcceptedIds(wave.work, wave.pool.handled) <==> exists k :: AcceptedAt(wave, id, k)
  {
    hide SubmitAccepted;
    var handled := wave.pool.handled;
    forall id ensures id in AcceptedIds(wave.work, handled) <==> exists k :: AcceptedAt(wave, id, k) {
      if id in AcceptedIds(wave.work, handled) {
        AcceptedIdsAre(wave.work, handled, id);
        var k :| 0 <= k < |handled| && Taken()(handled[k]) && handled[k].i < |wave.work|
                 && wave.work[handled[k].i].id == id;
        assert AcceptedAt(wave, id, k);
      } else if k :| AcceptedAt(wave, id, k) {
        AcceptedIdsHave(wave.work, handled, k);
      }
    }
  }

  lemma CommitKeeps(pending: seq<PendingBlock>, ids: seq<int>)
    ensures ids == [] ==> Keep(pending, Not(IdIn(ids))) == pending
  {
    if ids == [] {
      KeepAll(pending, Not(IdIn(ids)));
    }
  }
}
