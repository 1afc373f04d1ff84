/** When nothing may be sent: submits switched off, or the shutdown flag up (src/app/supervisor.cpp). */
module Sending {
  import opened Blocks
  import opened Seqs
  import opened Bags
  import opened Responses
  import opened Routing
  import opened WavePool
  import opened Protocol
  import opened BagInvariants
  import opened Durability
  import Conservation
  import FlushBatch

  // ---------- Submits switched off ----------

  /** The worker has nothing to do with the pool. */
  predicate OffLine(w: Worker) {
    && !(w.Live? || w.LiveBag? || w.Posting? || w.Serving? || w.Selecting? || w.Waving?)
    && (w.Bagging? ==> w.keeps && !w.serves)
  }

  predicate NothingSent(s: State) {
    OffLine(s.worker) && !s.hold.ForLive? && s.live == [] && s.accepted == {}
  }

  lemma MinerUnsent(s: State, e: MinerEvent, t: State)
    requires BagOnly(s.cfg) && NothingSent(s) && MinerNext(s, e) == Some(t)
    ensures NothingSent(t) && t.cfg == s.cfg
  {
    hide Enqueue, DeferAll, Flush, OffLine;
  }

  lemma WorkerUnsent(s: State, e: Event, t: State)
    requires BagOnly(s.cfg) && NothingSent(s) && Next(s, e) == Some(t) && (e.Job? || e.Flushing? || e.Ending?)
    ensures NothingSent(t) && t.cfg == s.cfg
  {
    hide Enqueue, DeferAll, SubmitAccepted, AfterRefusal, BeforePost, Selected, AfterTurn, MarkSubmittedMany;
  }

  lemma ConsoleUnsent(s: State, e: ConsoleEvent, t: State)
    requires NothingSent(s) && ConsoleNext(s, e) == Some(t)
    ensures NothingSent(t) && t.cfg == s.cfg
  {
    hide Enqueue, DeferAll, OffLine;
  }

  /** With submits off nothing is ever handed over, posted or sent in a wave. */
  lemma {:induction false} NeverSends(cfg: Config, store: Bag, events: seq<Event>)
    requires !cfg.submitEnabled && After(Init(cfg, store), events).Some?
    ensures var s := After(Init(cfg, store), events).value;
      && s.live == [] && s.accepted == {} && !s.worker.Posting? && !s.worker.Waving? && !s.hold.ForLive?
      && NothingSent(s) && s.cfg == cfg
  {
    hide MinerNext, JobNext, FlushNext, EndNext, ConsoleNext, Flush;
    if events != [] {
      var n := |events| - 1;
      NeverSends(cfg, store, events[..n]);
      var s, t := After(Init(cfg, store), events[..n]).value, After(Init(cfg, store), events).value;
      match events[n]
      case Miner(m) => MinerUnsent(s, m, t);
      case Handler(c) => ConsoleUnsent(s, c, t);
      case WindowClosed =>
      case _ => WorkerUnsent(s, events[n], t);
    }
  }

  // ---------- What becomes of a batch that is taken ----------

  /** The worker bags what it takes, with the reason that holds, unless it may send; only with storing and submits both
      off and the pool unreachable does it let hits go. */
  lemma LooksExactly(s: State, draining: bool, verifyReady: bool, t: State)
    requires s.worker.Got? && JobNext(s, Look(draining, verifyReady)) == Some(t)
    ensures var batch := s.worker.batch;
      var bags := (reason: string, keeps: bool, serves: bool) => Bagging(batch, reason, keeps, serves);
      t == s.(worker :=
        if s.shuttingDown then bags("shutdown_pending", true, false)
        else if !s.cfg.submitEnabled then bags("bag_only", true, false)
        else if draining then bags("match_window_new", true, true)
        else if batch != [] && !verifyReady then bags("network_down", s.cfg.storeBlocks, true)
        else Live(batch))
  {
  }

  // ---------- The end of the worker ----------

  /** In its last round. */
  predicate Leaving(w: Worker) {
    || w.LastSwap? || w.LastBag? || w.LastDefer? || w.LastChoice? || w.Gone?
    || (w.Selecting? && w.last) || (w.Waving? && w.last)
  }

  lemma FlushLeaving(s: State, e: FlushEvent, t: State)
    requires FlushNext(s, e) == Some(t)
    ensures t.workerRunning == s.workerRunning && (Leaving(t.worker) <==> Leaving(s.worker))
  {
    hide DeferAll, SelectWork, MarkSubmittedMany, Joined, Map, FlushOutcome, MarkPendingReason, PoolStep;
    hide FlushBatch.ListFlushBatch, Start, Enabled;
  }

  lemma WorkerLeaving(s: State, e: Event, t: State)
    requires (Leaving(s.worker) ==> !s.workerRunning) && Next(s, e) == Some(t) && (e.Job? || e.Ending?)
    ensures Leaving(t.worker) ==> !t.workerRunning
    ensures Leaving(s.worker) ==> Leaving(t.worker)
  {
    hide Enqueue, DeferAll, SubmitAccepted, AfterRefusal, BeforePost, MinerNext, FlushNext, ConsoleNext;
  }

  lemma OthersLeave(s: State, e: Event, t: State)
    requires Next(s, e) == Some(t) && (e.Miner? || e.Handler? || e.WindowClosed?)
    ensures t.worker == s.worker && (t.workerRunning ==> s.workerRunning) && (s.shuttingDown ==> t.shuttingDown)
  {
    hide MinerNext, JobNext, FlushNext, EndNext, ConsoleNext, Flush;
    match e
    case Miner(m) => MinerLeaves(s, m, t);
    case Handler(c) => ConsoleLeaves(s, c, t);
    case _ =>
  }

  lemma MinerLeaves(s: State, e: MinerEvent, t: State)
    requires MinerNext(s, e) == Some(t)
    ensures t.worker == s.worker && (t.workerRunning ==> s.workerRunning) && (s.shuttingDown ==> t.shuttingDown)
  {
    hide Enqueue, DeferAll, Flush, HandleHit;
  }

  lemma ConsoleLeaves(s: State, e: ConsoleEvent, t: State)
    requires ConsoleNext(s, e) == Some(t)
    ensures t.worker == s.worker && (t.workerRunning ==> s.workerRunning) && (s.shuttingDown ==> t.shuttingDown)
  {
    hide Enqueue, DeferAll;
  }

  lemma NextLeaving(s: State, e: Event, t: State)
    requires (Leaving(s.worker) ==> !s.workerRunning) && Next(s, e) == Some(t)
    ensures Leaving(t.worker) ==> !t.workerRunning
    ensures Leaving(s.worker) ==> Leaving(t.worker)
  {
    hide MinerNext, JobNext, FlushNext, EndNext, ConsoleNext, Flush, Leaving;
    if e.Flushing? {
      FlushLeaving(s, e.f, t);
    } else if e.Job? || e.Ending? {
      WorkerLeaving(s, e, t);
    } else {
      OthersLeave(s, e, t);
    }
  }

  /** The worker leaves only after it has been told to, and does not come back. */
  lemma {:induction false} LeavesWhenTold(cfg: Config, store: Bag, events: seq<Event>)
    requires After(Init(cfg, store), events).Some?
    ensures var s := After(Init(cfg, store), events).value;
      && (Leaving(s.worker) ==> !s.workerRunning)
      && forall e, t :: Next(s, e) == Some(t) && Leaving(s.worker) ==> Leaving(t.worker)
  {
    hide Next, Leaving;
    if events == [] {
      BeginsThere(cfg, store);
    } else {
      var n := |events| - 1;
      LeavesWhenTold(cfg, store, events[..n]);
      NextLeaving(After(Init(cfg, store), events[..n]).value, events[n], After(Init(cfg, store), events).value);
    }
    var s := After(Init(cfg, store), events).value;
    forall e, t | Next(s, e) == Some(t) && Leaving(s.worker) ensures Leaving(t.worker) {
      NextLeaving(s, e, t);
    }
  }

  lemma BeginsThere(cfg: Config, store: Bag)
    ensures !Leaving(Init(cfg, store).worker)
  {
  }

  /** And then it does: it stays exactly while it is to run, and tries one last wave exactly if submits are on and
      either no shutdown is under way or live submits may still go out. */
  lemma LeavesExactly(s: State, allowed: bool, t: State)
    requires (s.worker.Checking? && EndNext(s, CheckRunning) == Some(t))
          || (s.worker.LastChoice? && EndNext(s, LastFlush(allowed)) == Some(t))
    ensures t == s.(worker :=
      if s.worker.Checking? then (if s.workerRunning then Waiting else LastSwap)
      else if s.cfg.submitEnabled && (s.shuttingDown ==> allowed) then Selecting(true) else Gone)
  {
  }

  // ---------- The last wave ----------

  /** The last wave does not obey the stop flag, and its workers leave only when nothing is left. */
  ghost predicate WaveKind(w: Worker) {
    w.Waving? ==>
      && |w.wave.pool.workers| > 0 && w.wave.pool.obeysStop == !w.last
      && (w.last ==> LeftForNothing(w.wave.pool))
  }

  lemma FlushKind(s: State, e: FlushEvent, t: State)
    requires WaveKind(s.worker) && FlushNext(s, e) == Some(t)
    ensures WaveKind(t.worker)
  {
    hide SelectWork, MarkSubmittedMany, Joined, Map, FlushOutcome, MarkPendingReason, FlushBatch.ListFlushBatch;
    hide DeferAll, PoolStep, LeftForNothing, Enabled;
    if e.Select? {
      StartsAtTop(s, e.q, e.f, e.nworkers);
    } else if e.PoolTurn? {
      TurnKind(s, e.w, e.pe);
    }
  }

  lemma StartsAtTop(s: State, q: FlushBatch.Query, f: FlushArgs, nworkers: nat)
    requires s.worker.Selecting?
    ensures WaveKind(Selected(s, q, f, nworkers))
  {
    hide SelectWork, FlushBatch.ListFlushBatch, Map;
  }

  lemma TurnKind(s: State, w: nat, pe: PoolEvent)
    requires s.worker.Waving? && Enabled(s.worker.wave.pool, w, pe) && WaveKind(s.worker)
    ensures WaveKind(AfterTurn(s, w, pe).worker)
  {
    hide FlushOutcome, MarkPendingReason;
    if s.worker.last {
      StepLeaves(s.worker.wave.pool, w, pe);
    }
  }

  lemma NextKind(s: State, e: Event, t: State)
    requires WaveKind(s.worker) && Next(s, e) == Some(t)
    ensures WaveKind(t.worker)
  {
    hide MinerNext, JobNext, FlushNext, EndNext, ConsoleNext, Flush, WaveKind;
    if e.Flushing? {
      FlushKind(s, e.f, t);
    } else {
      OthersStartNone(s, e, t);
    }
  }

  lemma OthersStartNone(s: State, e: Event, t: State)
    requires Next(s, e) == Some(t) && !e.Flushing? && WaveKind(s.worker)
    ensures WaveKind(t.worker)
  {
    hide MinerNext, JobNext, FlushNext, EndNext, ConsoleNext, Flush, WaveKind;
    match e
    case Job(j) => JobStartsNone(s, j, t);
    case Ending(n) => EndStartsNone(s, n, t);
    case _ => OthersLeave(s, e, t);
  }

  lemma JobStartsNone(s: State, e: JobEvent, t: State)
    requires JobNext(s, e) == Some(t)
    ensures WaveKind(t.worker)
  {
    hide Enqueue, SubmitAccepted, AfterRefusal, BeforePost, LookAt;
    NoWaveLooked(s);
  }

  lemma EndStartsNone(s: State, e: EndEvent, t: State)
    requires EndNext(s, e) == Some(t)
    ensures WaveKind(t.worker) && !t.worker.Posting? && t.shuttingDown == s.shuttingDown
  {
    hide Enqueue, DeferAll;
  }

  lemma NoWaveLooked(s: State)
    ensures forall batch, draining, ready :: !LookAt(s, batch, draining, ready).Waving?
  {
  }

  lemma {:induction false} AfterKind(cfg: Config, store: Bag, events: seq<Event>)
    requires After(Init(cfg, store), events).Some?
    ensures WaveKind(After(Init(cfg, store), events).value.worker)
  {
    hide Next;
    if events != [] {
      var n := |events| - 1;
      AfterKind(cfg, store, events[..n]);
      NextKind(After(Init(cfg, store), events[..n]).value, events[n], After(Init(cfg, store), events).value);
    }
  }

  /** The last wave, at shutdown, gets an answer for every block it was to send, whatever the flag says. */
  lemma LastWaveSendsAll(cfg: Config, store: Bag, events: seq<Event>, t: State)
    requires Agrees(store) && Durable(store)
    requires var s := After(Init(cfg, store), events);
      s.Some? && FlushNext(s.value, Commit) == Some(t) && s.value.worker.last
    ensures var wave := After(Init(cfg, store), events).value.worker.wave;
      && wave.pool.done == |wave.work|
      && forall i: nat :: i < |wave.work| <==> Handled(wave.pool, i)
  {
    hide After, PoolInv, AfterFlush, AcceptedIds, MarkSubmittedMany;
    Conservation.InitInv(cfg, store);
    Conservation.AfterInv(Init(cfg, store), events);
    AfterKind(cfg, store, events);
    var pool := After(Init(cfg, store), events).value.worker.wave.pool;
    JoinedCounts(pool);
    assert pool.workers[0].Exited?;
  }

  // ---------- The flag up ----------

  lemma JobPosts(s: State, e: JobEvent, t: State)
    requires s.shuttingDown && JobNext(s, e) == Some(t)
    ensures t.shuttingDown && !t.worker.Posting?
  {
    hide Enqueue, SubmitAccepted, AfterRefusal;
  }

  lemma WavePostsNothing(s: State, e: FlushEvent, t: State)
    requires FlushNext(s, e) == Some(t)
    ensures t.shuttingDown == s.shuttingDown && !t.worker.Posting?
  {
    hide DeferAll, SelectWork, MarkSubmittedMany, Joined, FlushOutcome, MarkPendingReason, PoolStep;
    hide FlushBatch.ListFlushBatch, Start, Enabled;
  }

  lemma OthersPostNothing(s: State, e: Event, t: State)
    requires Next(s, e) == Some(t) && !e.Job? && !e.Flushing?
    ensures s.shuttingDown ==> t.shuttingDown
    ensures t.worker.Posting? ==> t.worker == s.worker
  {
    hide MinerNext, JobNext, FlushNext, EndNext, ConsoleNext, Flush;
    if e.Ending? {
      EndStartsNone(s, e.n, t);
    } else {
      OthersLeave(s, e, t);
    }
  }

  /** Once the shutdown flag is up it stays up and no new post begins. */
  lemma NoNewPost(s: State, e: Event, t: State)
    requires s.shuttingDown && Next(s, e) == Some(t)
    ensures t.shuttingDown && (t.worker.Posting? ==> s.worker.Posting?)
  {
    hide JobNext, MinerNext, FlushNext, EndNext, ConsoleNext, Flush;
    if e.Job? {
      JobPosts(s, e.j, t);
    } else if e.Flushing? {
      WavePostsNothing(s, e.f, t);
    } else {
      OthersPostNothing(s, e, t);
    }
  }

  lemma PostStarts(s: State, e: JobEvent, t: State)
    requires JobNext(s, e) == Some(t) && t.worker.Posting? && !s.worker.Posting?
    ensures !s.shuttingDown && s.cfg.submitEnabled && s.worker.Live? && s.worker.batch != []
    ensures t.worker.hit == s.worker.batch[0] && t.worker.rest == s.worker.batch[1..]
  {
    hide Enqueue, SubmitAccepted, AfterRefusal;
  }

  /** The mining thread shuts down, the console handler works and the worker is told to stop only with the flag up. */
  predicate FlagOk(s: State) {
    !s.stage.Mining? || !s.console.Idle? || !s.workerRunning ==> s.shuttingDown
  }

  lemma NextFlag(s: State, e: Event, t: State)
    requires FlagOk(s) && Next(s, e) == Some(t)
    ensures FlagOk(t)
  {
    hide JobNext, FlushNext, EndNext, Enqueue, DeferAll, Flush, HandleHit;
    if e.Job? || e.Flushing? || e.Ending? {
      WorkerKeepsFlags(s, e, t);
    }
  }

  lemma WorkerKeepsFlags(s: State, e: Event, t: State)
    requires Next(s, e) == Some(t) && (e.Job? || e.Flushing? || e.Ending?)
    ensures t.stage == s.stage && t.console == s.console && t.shuttingDown == s.shuttingDown
    ensures t.workerRunning == s.workerRunning
  {
    hide Enqueue, DeferAll, SubmitAccepted, AfterRefusal, BeforePost, Selected, MarkSubmittedMany, Joined, LookAt;
    hide FlushOutcome, MarkPendingReason, PoolStep, Enabled;
  }

  lemma {:induction false} FlagIsUp(cfg: Config, store: Bag, events: seq<Event>)
    requires After(Init(cfg, store), events).Some?
    ensures var s := After(Init(cfg, store), events).value;
      !s.stage.Mining? || !s.console.Idle? || !s.workerRunning ==> s.shuttingDown
  {
    hide Next;
    if events != [] {
      var n := |events| - 1;
      FlagIsUp(cfg, store, events[..n]);
      NextFlag(After(Init(cfg, store), events[..n]).value, events[n], After(Init(cfg, store), events).value);
    }
  }

  /** The joins of both shutdown paths wait only for a worker that has been told to leave, and the console handler takes
      the queue only after it has told it. */
  lemma {:induction false} ToldBeforeJoin(cfg: Config, store: Bag, events: seq<Event>)
    requires After(Init(cfg, store), events).Some?
    ensures var s := After(Init(cfg, store), events).value;
      && (s.stage.GraceJoin? || s.stage.FinalJoin? || s.stage.Finished? ==> !s.workerRunning)
      && (s.console.Stopped? || s.console.Persisting? || s.console.Deferring? ==> !s.workerRunning)
  {
    hide Next;
    if events != [] {
      var n := |events| - 1;
      ToldBeforeJoin(cfg, store, events[..n]);
      NextTold(After(Init(cfg, store), events[..n]).value, events[n], After(Init(cfg, store), events).value);
    }
  }

  predicate ToldOk(s: State) {
    || !s.workerRunning
    || !(s.stage.GraceJoin? || s.stage.FinalJoin? || s.stage.Finished?
         || s.console.Stopped? || s.console.Persisting? || s.console.Deferring?)
  }

  lemma NextTold(s: State, e: Event, t: State)
    requires ToldOk(s) && Next(s, e) == Some(t)
    ensures ToldOk(t)
  {
    hide MinerNext, JobNext, FlushNext, EndNext, ConsoleNext, Flush;
    match e
    case Miner(m) => MinerTold(s, m, t);
    case Handler(h) => ConsoleTold(s, h, t);
    case WindowClosed =>
    case _ => WorkerKeepsFlags(s, e, t);
  }

  lemma MinerTold(s: State, e: MinerEvent, t: State)
    requires ToldOk(s) && MinerNext(s, e) == Some(t)
    ensures ToldOk(t)
  {
    hide Enqueue, DeferAll, Flush, HandleHit;
  }

  lemma ConsoleTold(s: State, e: ConsoleEvent, t: State)
    requires ToldOk(s) && ConsoleNext(s, e) == Some(t)
    ensures ToldOk(t)
  {
    hide Enqueue, DeferAll;
  }

  /** The worker serves the queue wave after wave, and only then checks whether to go on. */
  lemma ServesOn(s: State, e: FlushEvent, t: State)
    requires FlushNext(s, e) == Some(t)
    ensures s.worker.Serving? ==> t == s.(worker := if e == Serve(true) then Selecting(false) else Checking)
    ensures (s.worker.Selecting? && !s.worker.last) || (s.worker.Waving? && !s.worker.last) ==>
      t.worker.Waving? || t.worker.Serving?
  {
    hide DeferAll, SelectWork, MarkSubmittedMany, Joined, FlushOutcome, MarkPendingReason, PoolStep;
    hide FlushBatch.ListFlushBatch, Start, Enabled;
  }

  // ---------- The reasons that steps give ----------

  /** What a hit in hand is put down for, with storing on: the flag is read at that step. */
  lemma DecidesExactly(s: State, g: Gates, t: State)
    requires ShouldStore(s.cfg) && s.hold.Undecided? && MinerNext(s, Decide(g)) == Some(t)
    ensures var hit := s.hold.hit;
      var late := hit.blockType == "XUNI" && !g.inXuniWindow;
      var moved := (g.networkOk && g.networkM > 0 && g.networkM != g.hitM) || (s.cfg.forceMineM <= 0 && g.deferring);
      t.hold ==
        if !s.cfg.submitEnabled then ForBag(hit, "bag_only")
        else if late then ForBag(hit, "outside_xuni_window")
        else if s.shuttingDown then ForBag(hit, "shutdown_pending")
        else if g.draining then ForBag(hit, "match_window_new")
        else if g.liveAllowed && g.matches then ForLive(hit)
        else if moved then ForBag(hit, "difficulty_change") else ForBag(hit, "network_down")
  {
    hide HandleHit;
    ReasonsExactly(s.cfg, s.shuttingDown, s.hold.hit.blockType, g);
  }

  lemma RoutesExactly(s: State, g: Gates, t: State)
    requires ShouldStore(s.cfg) && s.worker.Live? && s.worker.batch != [] && JobNext(s, RouteJob(g)) == Some(t)
    ensures var hit, rest := s.worker.batch[0], s.worker.batch[1..];
      var late := hit.blockType == "XUNI" && !g.inXuniWindow;
      var goes := g.liveAllowed && g.matches;
      t == s.(worker :=
        if !s.cfg.submitEnabled then LiveBag(hit, "bag_only", rest)
        else if s.shuttingDown then LiveBag(hit, "shutdown_pending", rest)
        else if late then LiveBag(hit, "outside_xuni_window", rest)
        else if goes && g.verifyReady then Posting(hit, rest)
        else if !goes && g.allowedAgain && !g.matchesAgain then LiveBag(hit, "difficulty_change", rest)
        else LiveBag(hit, "network_down", rest))
  {
    hide BeforePost;
    ReasonsExactly(s.cfg, s.shuttingDown, s.worker.batch[0].blockType, g);
  }

  /** What becomes of a posted hit by the answer. */
  lemma AnswersExactly(s: State, status: int, body: string, t: State)
    requires ShouldStore(s.cfg) && s.worker.Posting? && JobNext(s, LiveAnswer(status, body)) == Some(t)
    ensures var hit, rest := s.worker.hit, s.worker.rest;
      var wrongM := status != 0 && Says(body, "does not contain") && (Says(body, "m=") || Says(body, "memory_cost"));
      var shed := status in {401, 403, 429} || Says(body, "hash verification failed");
      var broken := status == 0 || Says(body, "timed out") || Says(body, "timeout") || Says(body, "connection");
      var closed := Says(body, "time frame") || Says(body, "time window");
      if status / 100 == 2 || Says(body, "already exists")
      then t == s.(worker := Live(rest), accepted := s.accepted + {hit})
      else t == s.(worker := LiveBag(hit,
        if wrongM || shed then "difficulty_change" else if broken then "network_down"
        else if closed then "outside_xuni_window" else "resubmission", rest))
  {
    hide AfterRefusal, Says, FlushOutcome;
    RefusedReasons(s.cfg, status, body);
    OutcomeTable(status, body);
    TakenIs(status, body);
  }

  lemma TakenIs(status: int, body: string)
    ensures SubmitAccepted(status, body) <==> status / 100 == 2 || Says(body, "already exists")
  {
  }

  // ---------- The live queue ----------

  /** What has been handed over and not yet looked at, in order. */
  function Ahead(w: Worker): seq<Hit> {
    match w
    case Got(batch) => batch
    case Bagging(batch, _, _, _) => batch
    case Live(batch) => batch
    case LiveBag(_, _, rest) => rest
    case Posting(_, rest) => rest
    case _ => []
  }

  /** Hits go through the queue one by one, in the order they were handed over, and each once. */
  lemma QueueInOrder(s: State, e: Event, t: State)
    requires Next(s, e) == Some(t)
    ensures e.Miner? && e.m.HandOver? ==>
      s.hold.ForLive? && Ahead(t.worker) + t.live == Ahead(s.worker) + s.live + [s.hold.hit]
    ensures e.Job? && e.j.TakeJobs? ==> Ahead(t.worker) + t.live == Ahead(s.worker) + s.live
    ensures e.Job? && !e.j.TakeJobs? ==>
      && t.live == s.live
      && (Ahead(t.worker) == Ahead(s.worker)
          || (Ahead(s.worker) != [] && Ahead(t.worker) == Ahead(s.worker)[1..]))
  {
    hide MinerNext, JobNext, FlushNext, EndNext, ConsoleNext, Flush, Ahead;
    if e.Miner? {
      HandedOver(s, e.m, t);
    } else if e.Job? {
      TakenInOrder(s, e.j, t);
    }
  }

  lemma HandedOver(s: State, e: MinerEvent, t: State)
    requires MinerNext(s, e) == Some(t)
    ensures e.HandOver? ==> s.hold.ForLive? && Ahead(t.worker) + t.live == Ahead(s.worker) + s.live + [s.hold.hit]
  {
    hide Enqueue, DeferAll, Flush, HandleHit, Ahead;
    if e.HandOver? {
      assert Ahead(s.worker) + (s.live + [s.hold.hit]) == Ahead(s.worker) + s.live + [s.hold.hit];
    }
  }

  lemma TakenInOrder(s: State, e: JobEvent, t: State)
    requires JobNext(s, e) == Some(t)
    ensures e.TakeJobs? ==> Ahead(t.worker) + t.live == Ahead(s.worker) + s.live
    ensures !e.TakeJobs? ==>
      && t.live == s.live
      && (Ahead(t.worker) == Ahead(s.worker)
          || (Ahead(s.worker) != [] && Ahead(t.worker) == Ahead(s.worker)[1..]))
  {
    hide Enqueue, SubmitAccepted, AfterRefusal, BeforePost;
    if e.TakeJobs? {
      assert s.live + [] == [] + s.live;
    }
  }
}
