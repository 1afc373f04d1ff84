/** What a flush wave does to the reasons of the blocks it was selected from (src/app/supervisor.cpp,
    try_flush_pending). */
module WaveReasons {
  import opened Blocks
  import opened Policy
  import opened Seqs
  import opened Bags
  import opened BagInvariants
  import opened Durability
  import opened Responses
  import opened Routing
  import opened WavePool
  import opened Protocol
  import opened Conservation
  import FlushBatch

  predicate RejectedAt(wave: Wave, id: int, k: nat) {
    && k < |wave.pool.handled| && CountsAsReject(wave.pool.handled[k].status, wave.pool.handled[k].body)
    && wave.pool.handled[k].i < |wave.work| && wave.work[wave.pool.handled[k].i].id == id
  }

  ghost predicate Refused(wave: Wave, id: int) {
    exists k :: RejectedAt(wave, id, k)
  }

  ghost function ReasonNow(wave: Wave, pb: PendingBlock): string {
    if Refused(wave, pb.id) then RESUBMISSION else pb.queueReason
  }

  /** The blocks of the start list have the reasons that they had, except those whose item was rejected. */
  ghost predicate ReasonsKnown(wave: Wave, pending: seq<PendingBlock>) {
    && |wave.start| <= |pending|
    && forall i :: 0 <= i < |wave.start| ==> pending[i].queueReason == ReasonNow(wave, wave.start[i])
  }

  ghost predicate ReasonsOk(s: State) {
    s.worker.Waving? ==>
      && s.worker.wave.deferrals <= s.deferrals
      && (s.worker.wave.deferrals == s.deferrals ==> ReasonsKnown(s.worker.wave, s.store.pending))
  }

  // ---------- Steps of the other threads ----------

  /** The list has grown at its end and not changed otherwise, or all reasons have been rewritten. */
  predicate Apart(s: State, t: State) {
    || t.deferrals > s.deferrals
    || (t.deferrals == s.deferrals && s.store.pending <= t.store.pending)
  }

  lemma ApartReasons(s: State, t: State)
    requires ReasonsOk(s) && t.worker == s.worker && Apart(s, t)
    ensures ReasonsOk(t)
  {
    hide Refused;
  }

  lemma MinerApart(s: State, e: MinerEvent, t: State)
    requires MinerNext(s, e) == Some(t)
    ensures t.worker == s.worker && Apart(s, t)
  {
    hide DeferAll, HandleHit, Enqueue, Flush;
    if e.PutInBag? {
      EnqueueGrows(s.store, s.hold.hit, s.hold.reason, e.at);
    } else if e.BagOne? && s.stage.batch != [] {
      EnqueueGrows(s.store, s.stage.batch[0], SHUTDOWN_PENDING, e.at);
    } else if e.FlushStore? {
      FlushKeepsList(s.store);
    }
  }

  lemma FlushKeepsList(b: Bag)
    ensures Flush(b).pending == b.pending
  {
  }

  lemma ConsoleApart(s: State, e: ConsoleEvent, t: State)
    requires ConsoleNext(s, e) == Some(t)
    ensures t.worker == s.worker && Apart(s, t)
  {
    hide DeferAll;
  }

  lemma NoWave(s: State, e: Event, t: State)
    requires (e.Job? || e.Ending?) && Next(s, e) == Some(t)
    ensures !t.worker.Waving?
  {
    hide Enqueue, DeferAll, SubmitAccepted, AfterRefusal, BeforePost;
  }

  // ---------- Steps of the wave ----------

  lemma NothingRefused(wave: Wave)
    requires wave.pool.handled == []
    ensures forall id :: !Refused(wave, id)
  {
  }

  lemma SelectReasons(s: State, q: FlushBatch.Query, f: FlushArgs, nworkers: nat)
    requires s.worker.Selecting?
    ensures var w := Selected(s, q, f, nworkers);
      w.Waving? ==> w.wave.deferrals == s.deferrals && ReasonsKnown(w.wave, s.store.pending)
  {
    hide SelectWork, FlushBatch.ListFlushBatch, Map, Refused;
    var w := Selected(s, q, f, nworkers);
    if w.Waving? {
      NothingRefused(w.wave);
    }
  }

  /** One more answer: it refuses its own item if it is a reject, and nothing else changes. */
  lemma AnswerRefuses(wave: Wave, r: Reply, id: int)
    requires r.i < |wave.work|
    ensures var later := wave.(pool := wave.pool.(handled := wave.pool.handled + [r]));
      Refused(later, id) <==> Refused(wave, id) || (CountsAsReject(r.status, r.body) && wave.work[r.i].id == id)
  {
    hide CountsAsReject;
    var later := wave.(pool := wave.pool.(handled := wave.pool.handled + [r]));
    if k: nat :| RejectedAt(wave, id, k) {
      assert RejectedAt(later, id, k);
    }
    if CountsAsReject(r.status, r.body) && wave.work[r.i].id == id {
      assert RejectedAt(later, id, |wave.pool.handled|);
    }
    if k: nat :| RejectedAt(later, id, k) {
      assert k < |wave.pool.handled| ==> RejectedAt(wave, id, k);
    }
  }

  lemma SameHandled(wave: Wave, later: Wave, id: int)
    requires later.work == wave.work && later.pool.handled == wave.pool.handled
    ensures Refused(later, id) <==> Refused(wave, id)
  {
    if k: nat :| RejectedAt(wave, id, k) {
      assert RejectedAt(later, id, k);
    }
    if k: nat :| RejectedAt(later, id, k) {
      assert RejectedAt(wave, id, k);
    }
  }

  /** Marking one id changes the reason of its block and of no other. */
  lemma MarksOne(b: Bag, id: int, i: nat)
    requires DistinctIds(b.pending) && i < |b.pending|
    ensures |MarkPendingReason(b, id, RESUBMISSION).pending| == |b.pending|
    ensures MarkPendingReason(b, id, RESUBMISSION).pending[i].queueReason
         == if b.pending[i].id == id then RESUBMISSION else b.pending[i].queueReason
  {
  }

  lemma TurnReasons(s: State, w: nat, pe: PoolEvent)
    requires s.worker.Waving? && Enabled(s.worker.wave.pool, w, pe) && DistinctIds(s.store.pending)
    requires WaveOk(s.worker.wave, s.store.pending, s.accepted)
    requires ReasonsKnown(s.worker.wave, s.store.pending)
    ensures var t := AfterTurn(s, w, pe); t.worker.Waving? && ReasonsKnown(t.worker.wave, t.store.pending)
  {
    var wave := s.worker.wave;
    var t := AfterTurn(s, w, pe);
    if pe.Answer? {
      TurnAnswers(s, w, pe);
    } else {
      hide Refused;
      forall i | 0 <= i < |wave.start|
        ensures t.store.pending[i].queueReason == ReasonNow(t.worker.wave, wave.start[i])
      {
        SameHandled(wave, t.worker.wave, wave.start[i].id);
      }
    }
  }

  lemma ClaimedIsWork(wave: Wave, pending: seq<PendingBlock>, accepted: set<Hit>, w: nat)
    requires WaveOk(wave, pending, accepted) && w < |wave.pool.workers| && wave.pool.workers[w].Claimed?
    ensures wave.pool.workers[w].i < |wave.work|
  {
  }

  lemma TurnAnswers(s: State, w: nat, pe: PoolEvent)
    requires s.worker.Waving? && Enabled(s.worker.wave.pool, w, pe) && pe.Answer? && DistinctIds(s.store.pending)
    requires WaveOk(s.worker.wave, s.store.pending, s.accepted)
    requires ReasonsKnown(s.worker.wave, s.store.pending)
    ensures var t := AfterTurn(s, w, pe); t.worker.Waving? && ReasonsKnown(t.worker.wave, t.store.pending)
  {
    hide WaveOk, Refused, MarkPendingReason, FlushOutcome, PoolStep;
    TurnKeepsLength(s, w, pe);
    TurnKeepsDeferrals(s, w, pe);
    var start := s.worker.wave.start;
    var t := AfterTurn(s, w, pe);
    forall i | 0 <= i < |start| ensures t.store.pending[i].queueReason == ReasonNow(t.worker.wave, start[i]) {
      AnswerOne(s, w, pe, i);
    }
  }

  lemma TurnKeepsLength(s: State, w: nat, pe: PoolEvent)
    requires s.worker.Waving? && Enabled(s.worker.wave.pool, w, pe)
    ensures |AfterTurn(s, w, pe).store.pending| == |s.store.pending|
    ensures AfterTurn(s, w, pe).worker.Waving? && AfterTurn(s, w, pe).worker.wave.start == s.worker.wave.start
  {
    hide FlushOutcome, PoolStep;
  }

  lemma AnswerOne(s: State, w: nat, pe: PoolEvent, i: nat)
    requires s.worker.Waving? && Enabled(s.worker.wave.pool, w, pe) && pe.Answer? && DistinctIds(s.store.pending)
    requires WaveOk(s.worker.wave, s.store.pending, s.accepted)
    requires ReasonsKnown(s.worker.wave, s.store.pending) && i < |s.worker.wave.start|
    ensures var t := AfterTurn(s, w, pe);
      && t.worker.Waving? && |t.store.pending| == |s.store.pending|
      && t.store.pending[i].queueReason == ReasonNow(t.worker.wave, s.worker.wave.start[i])
  {
    hide Refused, FlushOutcome, PoolInv, MarkPendingReason;
    var wave := s.worker.wave;
    var r := Reply(wave.pool.workers[w].i, pe.status, pe.body);
    ClaimedIsWork(wave, s.store.pending, s.accepted, w);
    MarksOne(s.store, wave.work[r.i].id, i);
    AnswerRefuses(wave, r, wave.start[i].id);
    assert s.store.pending[..|wave.start|][i].id == wave.start[i].id;
    var t := AfterTurn(s, w, pe);
    var filed := wave.(pool := wave.pool.(handled := wave.pool.handled + [r]));
    SameHandled(filed, t.worker.wave, wave.start[i].id);
  }

  lemma FlushReasons(s: State, e: FlushEvent, t: State)
    requires Inv(s) && ReasonsOk(s) && FlushNext(s, e) == Some(t)
    ensures ReasonsOk(t)
  {
    hide Selected, AfterTurn, WaveOk, ReasonsKnown, Durable, MarkSubmittedMany, DeferAll, Enabled, Joined;
    match e
    case Select(q, f, nworkers) => SelectReasons(s, q, f, nworkers);
    case PoolTurn(w, pe) =>
      TurnKeepsDeferrals(s, w, pe);
      if s.worker.wave.deferrals == s.deferrals {
        TurnReasons(s, w, pe);
      }
    case _ =>
  }

  lemma TurnKeepsDeferrals(s: State, w: nat, pe: PoolEvent)
    requires s.worker.Waving? && Enabled(s.worker.wave.pool, w, pe)
    ensures var t := AfterTurn(s, w, pe);
      t.worker.Waving? && t.deferrals == s.deferrals && t.worker.wave.deferrals == s.worker.wave.deferrals
  {
    hide MarkPendingReason, FlushOutcome, PoolStep;
  }

  // ---------- Every run ----------

  lemma NextReasons(s: State, e: Event, t: State)
    requires Inv(s) && ReasonsOk(s) && Next(s, e) == Some(t)
    ensures ReasonsOk(t)
  {
    hide Inv, MinerNext, JobNext, FlushNext, EndNext, ConsoleNext, ReasonsKnown;
    match e
    case Miner(m) =>
      MinerApart(s, m, t);
      ApartReasons(s, t);
    case Job(_) => NoWave(s, e, t);
    case Flushing(f) => FlushReasons(s, f, t);
    case Ending(_) => NoWave(s, e, t);
    case Handler(c) =>
      ConsoleApart(s, c, t);
      ApartReasons(s, t);
    case WindowClosed => ApartReasons(s, t);
  }

  lemma {:induction false} AfterReasons(s: State, events: seq<Event>)
    requires Inv(s) && ReasonsOk(s) && After(s, events).Some?
    ensures ReasonsOk(After(s, events).value)
  {
    hide Inv, ReasonsOk, Next;
    if events != [] {
      var n := |events| - 1;
      AfterReasons(s, events[..n]);
      AfterInv(s, events[..n]);
      NextReasons(After(s, events[..n]).value, events[n], After(s, events).value);
    }
  }

  /** At every moment of a wave, in whatever run: unless all reasons have been rewritten since the wave was selected,
      each block it was selected from has the reason it had, or "resubmission" exactly when an item of the wave with
      its id was answered as a reject. */
  lemma RejectsAlone(cfg: Config, store: Bag, events: seq<Event>)
    requires Agrees(store) && Durable(store)
    requires var s := After(Init(cfg, store), events);
      s.Some? && s.value.worker.Waving? && s.value.deferrals == s.value.worker.wave.deferrals
    ensures var s := After(Init(cfg, store), events).value;
      var wave := s.worker.wave;
      && |wave.start| <= |s.store.pending|
      && forall i :: 0 <= i < |wave.start| ==>
           s.store.pending[i] == wave.start[i].(
             queueReason := if Refused(wave, wave.start[i].id) then RESUBMISSION else wave.start[i].queueReason)
  {
    hide After, PoolInv, Refused;
    InitInv(cfg, store);
    AfterInv(Init(cfg, store), events);
    AfterReasons(Init(cfg, store), events);
    var s := After(Init(cfg, store), events).value;
    var wave := s.worker.wave;
    forall i | 0 <= i < |wave.start|
      ensures s.store.pending[i] == wave.start[i].(queueReason := ReasonNow(wave, wave.start[i]))
    {
      assert s.store.pending[..|wave.start|][i] == s.store.pending[i];
      assert s.store.pending[i].queueReason == ReasonNow(wave, wave.start[i]);
    }
  }
}
