/** What the blocks that a session leaves behind are waiting for (src/app/supervisor.cpp, finalize_session and the end
    of submit_worker_loop). */
module EndReasons {
  import opened Blocks
  import opened Policy
  import opened Seqs
  import opened Bags
  import opened BagInvariants
  import opened Durability
  import opened Responses
  import opened Routing
  import opened WavePool
  import opened Protocol
  import Conservation
  import FlushBatch

  /** Put off to the next start, XUNI perhaps to its window, or refused once. */
  predicate PutOff(pb: PendingBlock) {
    || pb.queueReason == SHUTDOWN_PENDING || pb.queueReason == RESUBMISSION
    || (pb.queueReason == OUTSIDE_XUNI_WINDOW && pb.hit.blockType == "XUNI")
  }

  ghost predicate AllPutOff(pending: seq<PendingBlock>) {
    forall pb :: pb in pending ==> PutOff(pb)
  }

  /** The mining thread has put everything off for the last time. */
  predicate MinerDone(st: Stage) {
    st.FinalStop? || st.FinalJoin? || st.Finished?
  }

  /** And the worker has. */
  predicate WorkerDone(w: Worker) {
    w.LastChoice? || (w.Selecting? && w.last) || (w.Waving? && w.last) || w.Gone?
  }

  /** Once both have, only the console handler and the last wave touch a block, and they leave it so. */
  ghost predicate EndOk(s: State) {
    MinerDone(s.stage) && WorkerDone(s.worker) ==> AllPutOff(s.store.pending)
  }

  // ---------- Store operations ----------

  lemma DeferPutsOff(b: Bag, minute: int)
    ensures AllPutOff(DeferAll(b, minute).pending)
  {
    forall pb | pb in DeferAll(b, minute).pending ensures PutOff(pb) {
      var i :| 0 <= i < |b.pending| && DeferAll(b, minute).pending[i] == pb;
    }
  }

  lemma EnqueuePutOff(b: Bag, hit: Hit, at: string)
    requires AllPutOff(b.pending)
    ensures AllPutOff(Enqueue(b, hit, SHUTDOWN_PENDING, at).pending)
  {
  }

  lemma MarkPutOff(b: Bag, id: int)
    requires AllPutOff(b.pending)
    ensures AllPutOff(MarkPendingReason(b, id, RESUBMISSION).pending)
  {
    var c := MarkPendingReason(b, id, RESUBMISSION).pending;
    forall pb | pb in c ensures PutOff(pb) {
      var i :| 0 <= i < |c| && c[i] == pb;
      assert b.pending[i] in b.pending;
    }
  }

  lemma RemovePutOff(b: Bag, ids: seq<int>)
    requires AllPutOff(b.pending)
    ensures AllPutOff(MarkSubmittedMany(b, ids).pending)
  {
    KeepMembers(b.pending, Not(IdIn(ids)));
  }

  lemma FlushPutOff(b: Bag)
    ensures Flush(b).pending == b.pending
  {
  }

  // ---------- Steps ----------

  lemma MinerEnd(s: State, e: MinerEvent, t: State)
    requires EndOk(s) && Conservation.PhaseOk(s) && MinerNext(s, e) == Some(t)
    ensures EndOk(t)
  {
    hide AllPutOff, Enqueue, DeferAll, Flush, HandleHit;
    if e.Defer? {
      DeferPutsOff(s.store, e.minute);
    }
  }

  lemma ConsoleEnd(s: State, e: ConsoleEvent, t: State)
    requires EndOk(s) && ConsoleNext(s, e) == Some(t)
    ensures EndOk(t)
  {
    hide AllPutOff, Enqueue, DeferAll;
    if e.DeferRest? {
      DeferPutsOff(s.store, e.minute);
    } else if e.PersistOne? && s.console.batch != [] && AllPutOff(s.store.pending) {
      EnqueuePutOff(s.store, s.console.batch[0], e.at);
    }
  }

  lemma JobEnd(s: State, e: JobEvent, t: State)
    requires JobNext(s, e) == Some(t)
    ensures !WorkerDone(t.worker)
  {
    hide Enqueue, SubmitAccepted, AfterRefusal, BeforePost;
  }

  lemma EndingEnd(s: State, e: EndEvent, t: State)
    requires EndOk(s) && EndNext(s, e) == Some(t)
    ensures EndOk(t)
  {
    hide AllPutOff, Enqueue, DeferAll;
    if e.LastDeferAll? {
      DeferPutsOff(s.store, e.minute);
    }
  }

  lemma TurnEnd(s: State, w: nat, pe: PoolEvent)
    requires s.worker.Waving? && Enabled(s.worker.wave.pool, w, pe)
    ensures var t := AfterTurn(s, w, pe);
      && t.worker.Waving? && t.worker.last == s.worker.last && t.stage == s.stage
      && (AllPutOff(s.store.pending) ==> AllPutOff(t.store.pending))
  {
    hide AllPutOff, MarkPendingReason, FlushOutcome, PoolStep;
    if AllPutOff(s.store.pending) && s.worker.wave.pool.workers[w].Claimed?
      && s.worker.wave.pool.workers[w].i < |s.worker.wave.work|
    {
      MarkPutOff(s.store, s.worker.wave.work[s.worker.wave.pool.workers[w].i].id);
    }
  }

  lemma FlushEnd(s: State, e: FlushEvent, t: State)
    requires EndOk(s) && FlushNext(s, e) == Some(t)
    ensures EndOk(t)
  {
    hide AllPutOff, DeferAll, MarkSubmittedMany, AfterTurn, SelectWork, FlushBatch.ListFlushBatch, Joined, AcceptedIds;
    hide Map, Start, Enabled;
    match e
    case NoNetwork(minute) => DeferPutsOff(s.store, minute);
    case PoolTurn(w, pe) => TurnEnd(s, w, pe);
    case Commit =>
      if AllPutOff(s.store.pending) {
        RemovePutOff(s.store, AcceptedIds(s.worker.wave.work, s.worker.wave.pool.handled));
      }
    case _ =>
  }

  // ---------- Every run ----------

  lemma NextEnd(s: State, e: Event, t: State)
    requires EndOk(s) && Conservation.PhaseOk(s) && Next(s, e) == Some(t)
    ensures EndOk(t)
  {
    hide EndOk, MinerNext, JobNext, FlushNext, EndNext, ConsoleNext, Conservation.PhaseOk;
    match e
    case Miner(m) => MinerEnd(s, m, t);
    case Job(j) => JobEndOk(s, j, t);
    case Flushing(f) => FlushEnd(s, f, t);
    case Ending(n) => EndingEnd(s, n, t);
    case Handler(c) => ConsoleEnd(s, c, t);
    case WindowClosed => ClosedEnd(s, t);
  }

  lemma JobEndOk(s: State, e: JobEvent, t: State)
    requires JobNext(s, e) == Some(t)
    ensures EndOk(t)
  {
    hide JobNext;
    JobEnd(s, e, t);
  }

  lemma ClosedEnd(s: State, t: State)
    requires EndOk(s) && t == s.(store := Flush(s.store))
    ensures EndOk(t)
  {
    hide Flush;
    FlushPutOff(s.store);
  }

  lemma {:induction false} AfterEnd(cfg: Config, store: Bag, events: seq<Event>)
    requires Agrees(store) && Durable(store) && After(Init(cfg, store), events).Some?
    ensures EndOk(After(Init(cfg, store), events).value)
  {
    hide Next, Agrees, Durable, Conservation.Inv;
    if events != [] {
      var n := |events| - 1;
      AfterEnd(cfg, store, events[..n]);
      var s := After(Init(cfg, store), events[..n]).value;
      Conservation.InitInv(cfg, store);
      Conservation.AfterInv(Init(cfg, store), events[..n]);
      KnowsPhase(s);
      NextEnd(s, events[n], After(Init(cfg, store), events).value);
    }
  }

  lemma KnowsPhase(s: State)
    requires Conservation.Inv(s)
    ensures Conservation.PhaseOk(s)
  {
  }

  /** When finalize_session has returned, in whatever run, every block that is left waits for the next start, or is XUNI
      and waits for its window, or was refused in the last wave. */
  lemma EverythingPutOff(cfg: Config, store: Bag, events: seq<Event>, pb: PendingBlock)
    requires Agrees(store) && Durable(store)
    requires var s := After(Init(cfg, store), events);
      s.Some? && s.value.stage.Finished? && pb in s.value.store.pending
    ensures || pb.queueReason == "shutdown_pending" || pb.queueReason == "resubmission"
            || (pb.queueReason == "outside_xuni_window" && pb.hit.blockType == "XUNI")
  {
    hide After, Agrees, Durable;
    AfterEnd(cfg, store, events);
    Conservation.InitInv(cfg, store);
    Conservation.AfterInv(Init(cfg, store), events);
  }
}
