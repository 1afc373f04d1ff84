/** The hand-off of hits between the mining thread, the submit worker and the console handler, as steps over
    shared state (src/app/supervisor.cpp). A step holds one mutex or makes one access to an atomic; the
    answers of the pool and the network gates are inputs of the steps. */
module Protocol {
  import opened Blocks
  import opened Policy
  import opened Seqs
  import opened Bags
  import opened Responses
  import opened Routing
  import opened WavePool
  import FlushBatch

  /** The mining thread: mining, then graceful_shutdown, then finalize_session. */
  datatype Stage =
    | Mining
    | Draining                       // shutting_down_ is set; the last GPU results are handed in
    | GraceSwap | GraceBag(batch: seq<Hit>) | GraceDefer | GraceFlush | GraceStop | GraceJoin
    | FinalFlag | FinalSwap | FinalBag(batch: seq<Hit>) | FinalDefer | FinalStop | FinalJoin
    | Finished

  /** A prepared hit inside handle_hit. */
  datatype Hold = Nothing | Undecided(hit: Hit) | ForBag(hit: Hit, reason: string) | ForLive(hit: Hit)

  datatype WorkItem = WorkItem(id: int, hit: Hit)

  /** A wave, with the list that it was selected from and how often all reasons had been rewritten by then. */
  datatype Wave = Wave(work: seq<WorkItem>, pool: Pool, start: seq<PendingBlock>, deferrals: nat)

  datatype Worker =
    | Waiting
    | Got(batch: seq<Hit>)
    | Bagging(batch: seq<Hit>, reason: string, keeps: bool, serves: bool)
    | Live(batch: seq<Hit>)
    | LiveBag(hit: Hit, reason: string, rest: seq<Hit>)
    | Posting(hit: Hit, rest: seq<Hit>)
    | Serving
    | Selecting(last: bool)
    | Waving(wave: Wave, last: bool)
    | Checking
    | LastSwap | LastBag(batch: seq<Hit>) | LastDefer | LastChoice
    | Gone

  datatype Console = Idle | Flagged | Stopped | Persisting(batch: seq<Hit>) | Deferring

  datatype State = State(
    cfg: Config,
    store: Bag,
    live: seq<Hit>,
    shuttingDown: bool,
    workerRunning: bool,
    stage: Stage,
    hold: Hold,
    worker: Worker,
    console: Console,
    prepared: set<Hit>,         // history: every hit that was prepared
    known: set<Hit>,            // history: these, and what was stored at the start
    accepted: set<Hit>,         // history: every hit that the pool took
    deferrals: nat)             // history: how often all reasons have been rewritten for the next start

  function HitsOf(pending: seq<PendingBlock>): set<Hit> {
    set pb | pb in pending :: pb.hit
  }

  function Init(cfg: Config, store: Bag): State {
    State(cfg, store, [], false, true, Mining, Nothing, Waiting, Idle, {}, HitsOf(store.pending), {}, 0)
  }

  // ---------- The mining thread ----------

  datatype MinerEvent =
    | Find(hit: Hit)                 // a hit was prepared, and so has a digest
    | Decide(gates: Gates)
    | PutInBag(at: string)
    | HandOver
    | StopMining
    | Drained
    | TakeLive
    | BagOne(at: string)
    | Defer(minute: int)
    | FlushStore
    | StopWorker
    | Join
    | RaiseFlag

  function Kind(hit: Hit): string {
    hit.blockType
  }

  function MinerNext(s: State, e: MinerEvent): Option<State> {
    match e
    case Find(hit) =>
      if (s.stage.Mining? || s.stage.Draining?) && s.hold.Nothing? && hit.hashStr != ""
      then Some(s.(hold := Undecided(hit), prepared := s.prepared + {hit}, known := s.known + {hit})) else None
    case Decide(g) =>
      if !s.hold.Undecided? then None
      else
        (match HandleHit(s.cfg, s.shuttingDown, Kind(s.hold.hit), g)
         case ToBag(reason) => Some(s.(hold := ForBag(s.hold.hit, reason)))
         case ToLive => Some(s.(hold := ForLive(s.hold.hit)))
         case _ => Some(s.(hold := Nothing)))
    case PutInBag(at) =>
      if s.hold.ForBag?
      then Some(s.(hold := Nothing, store := Enqueue(s.store, s.hold.hit, s.hold.reason, at))) else None
    case HandOver =>
      if s.hold.ForLive? then Some(s.(hold := Nothing, live := s.live + [s.hold.hit])) else None
    case StopMining =>
      if s.stage.Mining? && s.hold.Nothing?
      then Some(if s.shuttingDown then s.(stage := FinalFlag) else s.(stage := Draining, shuttingDown := true))
      else None
    case Drained =>
      if s.stage.Draining? && s.hold.Nothing? then Some(s.(stage := GraceSwap)) else None
    case TakeLive =>
      if s.stage.GraceSwap? then Some(s.(stage := GraceBag(s.live), live := []))
      else if s.stage.FinalSwap? then Some(s.(stage := FinalBag(s.live), live := []))
      else None
    case BagOne(at) =>
      if s.stage.GraceBag? then
        if s.stage.batch == [] then Some(s.(stage := GraceDefer))
        else Some(s.(stage := GraceBag(s.stage.batch[1..]),
                     store := Enqueue(s.store, s.stage.batch[0], SHUTDOWN_PENDING, at)))
      else if s.stage.FinalBag? then
        if s.stage.batch == [] then Some(s.(stage := FinalDefer))
        else Some(s.(stage := FinalBag(s.stage.batch[1..]),
                     store := Enqueue(s.store, s.stage.batch[0], SHUTDOWN_PENDING, at)))
      else None
    case Defer(minute) =>
      if s.stage.GraceDefer?
      then Some(s.(stage := GraceFlush, store := DeferAll(s.store, minute), deferrals := s.deferrals + 1))
      else if s.stage.FinalDefer?
      then Some(s.(stage := FinalStop, store := DeferAll(s.store, minute), deferrals := s.deferrals + 1))
      else None
    case FlushStore =>
      if s.stage.GraceFlush? then Some(s.(stage := GraceStop, store := Flush(s.store))) else None
    case StopWorker =>
      if s.stage.GraceStop? then Some(s.(stage := GraceJoin, workerRunning := false))
      else if s.stage.FinalStop? then Some(s.(stage := FinalJoin, workerRunning := false))
      else None
    case Join =>
      if !s.worker.Gone? then None
      else if s.stage.GraceJoin? then Some(s.(stage := FinalFlag))
      else if s.stage.FinalJoin? then Some(s.(stage := Finished))
      else None
    case RaiseFlag =>
      if s.stage.FinalFlag? then Some(s.(stage := FinalSwap, shuttingDown := true)) else None
  }

  // ---------- The submit worker ----------

  /** What the selection loop of a wave reads. */
  datatype FlushArgs = FlushArgs(minute: int, draining: bool, bagM: int, netM: int, miningM: int, wave: int)

  function Sends(f: FlushArgs): PendingBlock -> bool {
    (pb: PendingBlock) =>
      && ReadyToFlush(pb.hit.blockType, f.minute)
      && var m: int := if pb.hit.memoryCost.Some? then pb.hit.memoryCost.value else f.miningM;
      m == f.netM || (f.draining && m == f.bagM)
  }

  function SelectWork(batch: seq<PendingBlock>, f: FlushArgs, last: bool): seq<PendingBlock> {
    var sendable := Keep(batch, Sends(f));
    if !last && f.wave > 0 then Take(sendable, f.wave) else sendable
  }

  function Item(pb: PendingBlock): WorkItem {
    WorkItem(pb.id, pb.hit)
  }

  /** The ids that a wave found accepted, in the order of the answers. */
  function AcceptedIds(work: seq<WorkItem>, handled: seq<Reply>): seq<int> {
    if handled == [] then []
    else
      var front := AcceptedIds(work, handled[..|handled| - 1]);
      var r := handled[|handled| - 1];
      if FlushOutcome(r.status, r.body) == Accepted && r.i < |work| then front + [work[r.i].id] else front
  }

  function AfterFlush(last: bool): Worker {
    if last then Gone else Serving
  }

  /** From waking up to the last answer for a live hit (submit_worker_loop and process_live_submit). */
  datatype JobEvent =
    | TakeJobs
    | Look(draining: bool, verifyReady: bool)
    | BagJob(at: string)
    | RouteJob(g: Gates)
    | BagRouted(at: string)
    | LiveAnswer(status: int, body: string)

  function JobNext(s: State, e: JobEvent): Option<State> {
    match e
    case TakeJobs =>
      if s.worker.Waiting? then Some(s.(worker := Got(s.live), live := [])) else None
    case Look(draining, verifyReady) =>
      if s.worker.Got? then Some(s.(worker := LookAt(s, s.worker.batch, draining, verifyReady))) else None
    case BagJob(at) =>
      if !s.worker.Bagging? then None
      else
        var w := s.worker;
        if w.batch == [] then Some(s.(worker := if w.serves then Serving else Checking))
        else Some(s.(worker := w.(batch := w.batch[1..]),
                     store := if w.keeps then Enqueue(s.store, w.batch[0], w.reason, at) else s.store))
    case RouteJob(g) =>
      if !s.worker.Live? then None
      else if s.worker.batch == [] then Some(s.(worker := Serving))
      else
        var hit, rest := s.worker.batch[0], s.worker.batch[1..];
        (match BeforePost(s.cfg, s.shuttingDown, Kind(hit), g)
         case ToBag(reason) => Some(s.(worker := LiveBag(hit, reason, rest)))
         case Post => Some(s.(worker := Posting(hit, rest)))
         case _ => Some(s.(worker := Live(rest))))
    case BagRouted(at) =>
      if s.worker.LiveBag?
      then Some(s.(worker := Live(s.worker.rest),
                   store := Enqueue(s.store, s.worker.hit, s.worker.reason, at)))
      else None
    case LiveAnswer(status, body) =>
      if !s.worker.Posting? then None
      else
        var hit, rest := s.worker.hit, s.worker.rest;
        if SubmitAccepted(status, body)
        then Some(s.(worker := Live(rest), accepted := s.accepted + {hit}))
        else
          (match AfterRefusal(s.cfg, status, body)
           case ToBag(reason) => Some(s.(worker := LiveBag(hit, reason, rest)))
           case _ => Some(s.(worker := Live(rest))))
  }

  function LookAt(s: State, batch: seq<Hit>, draining: bool, verifyReady: bool): Worker {
    if s.shuttingDown then Bagging(batch, SHUTDOWN_PENDING, true, false)
    else if BagOnly(s.cfg) then Bagging(batch, BAG_ONLY, true, false)
    else if draining then Bagging(batch, MATCH_WINDOW_NEW, true, true)
    else if batch != [] && !verifyReady then Bagging(batch, NETWORK_DOWN, ShouldStore(s.cfg), true)
    else Live(batch)
  }

  /** A flush wave (try_flush_pending). */
  datatype FlushEvent =
    | Serve(flush: bool)
    | Select(q: FlushBatch.Query, f: FlushArgs, nworkers: nat)
    | NoNetwork(minute: int)
    | PoolTurn(w: nat, pe: PoolEvent)
    | Commit

  function FlushNext(s: State, e: FlushEvent): Option<State> {
    match e
    case Serve(flush) =>
      if s.worker.Serving? then Some(s.(worker := if flush then Selecting(false) else Checking)) else None
    case Select(q, f, nworkers) =>
      if s.worker.Selecting? then Some(s.(worker := Selected(s, q, f, nworkers))) else None
    case NoNetwork(minute) =>
      if s.worker.Selecting? && s.worker.last
      then Some(s.(worker := Gone, store := DeferAll(s.store, minute), deferrals := s.deferrals + 1))
      else if s.worker.Selecting? then Some(s.(worker := Serving))
      else None
    case PoolTurn(w, pe) =>
      if s.worker.Waving? && Enabled(s.worker.wave.pool, w, pe) && (pe.Check? ==> pe.stop == s.shuttingDown)
      then Some(AfterTurn(s, w, pe)) else None
    case Commit =>
      if !(s.worker.Waving? && Joined(s.worker.wave.pool)) then None
      else
        var wave := s.worker.wave;
        Some(s.(worker := AfterFlush(s.worker.last),
                store := MarkSubmittedMany(s.store, AcceptedIds(wave.work, wave.pool.handled))))
  }

  function Selected(s: State, q: FlushBatch.Query, f: FlushArgs, nworkers: nat): Worker
    requires s.worker.Selecting?
  {
    var last := s.worker.last;
    var chosen := SelectWork(FlushBatch.ListFlushBatch(q, s.store.pending), f, last);
    if chosen == [] then AfterFlush(last)
    else
      var pool := Start(|chosen|, if last || nworkers == 0 then 1 else nworkers, !last);
      Waving(Wave(Map(Item, chosen), pool, s.store.pending, s.deferrals), last)
  }

  function AfterTurn(s: State, w: nat, pe: PoolEvent): State
    requires s.worker.Waving? && Enabled(s.worker.wave.pool, w, pe)
  {
    var wave := s.worker.wave;
    var t := s.(worker := Waving(wave.(pool := PoolStep(wave.pool, w, pe)), s.worker.last));
    if !pe.Answer? || wave.pool.workers[w].i >= |wave.work| then t
    else
      var item := wave.work[wave.pool.workers[w].i];
      match FlushOutcome(pe.status, pe.body)
      case Accepted => t.(accepted := s.accepted + {item.hit})
      case Rejected => t.(store := MarkPendingReason(s.store, item.id, RESUBMISSION))
      case _ => t
  }

  /** The end of the worker: one more look at the live queue, and perhaps a last serial wave. */
  datatype EndEvent =
    | CheckRunning
    | TakeLast
    | BagLast(at: string)
    | LastDeferAll(minute: int)
    | LastFlush(allowed: bool)

  function EndNext(s: State, e: EndEvent): Option<State> {
    match e
    case CheckRunning =>
      if s.worker.Checking? then Some(s.(worker := if s.workerRunning then Waiting else LastSwap)) else None
    case TakeLast =>
      if s.worker.LastSwap? then Some(s.(worker := LastBag(s.live), live := [])) else None
    case BagLast(at) =>
      if !s.worker.LastBag? then None
      else
        var batch := s.worker.batch;
        if batch == [] then Some(s.(worker := LastDefer))
        else Some(s.(worker := LastBag(batch[1..]), store := Enqueue(s.store, batch[0], SHUTDOWN_PENDING, at)))
    case LastDeferAll(minute) =>
      if s.worker.LastDefer?
      then Some(s.(worker := LastChoice, store := DeferAll(s.store, minute), deferrals := s.deferrals + 1))
      else None
    case LastFlush(allowed) =>
      if s.worker.LastChoice?
      then Some(s.(worker := if !BagOnly(s.cfg) && (!s.shuttingDown || allowed) then Selecting(true) else Gone))
      else None
  }

  // ---------- The console handler ----------

  datatype ConsoleEvent = Raise | Stop | TakeAll | PersistOne(at: string) | DeferRest(minute: int)

  function ConsoleNext(s: State, e: ConsoleEvent): Option<State> {
    match e
    case Raise =>
      if s.console.Idle? then Some(s.(console := Flagged, shuttingDown := true)) else None
    case Stop =>
      if s.console.Flagged? then Some(s.(console := Stopped, workerRunning := false)) else None
    case TakeAll =>
      if s.console.Stopped? then Some(s.(console := Persisting(s.live), live := [])) else None
    case PersistOne(at) =>
      if !s.console.Persisting? then None
      else
        var batch := s.console.batch;
        if batch == [] then Some(s.(console := Deferring))
        else Some(s.(console := Persisting(batch[1..]), store := Enqueue(s.store, batch[0], SHUTDOWN_PENDING, at)))
    case DeferRest(minute) =>
      if s.console.Deferring?
      then Some(s.(console := Idle, store := DeferAll(s.store, minute), deferrals := s.deferrals + 1))
      else None
  }

  // ---------- Runs ----------

  datatype Event =
    | Miner(m: MinerEvent)
    | Job(j: JobEvent) | Flushing(f: FlushEvent) | Ending(n: EndEvent)   // the submit worker
    | Handler(c: ConsoleEvent)
    | WindowClosed                   // update_match_drain saves the store, on whichever thread ends the window

  /** None when the thread is not at that point. */
  function Next(s: State, e: Event): Option<State> {
    match e
    case Miner(m) => MinerNext(s, m)
    case Job(j) => JobNext(s, j)
    case Flushing(f) => FlushNext(s, f)
    case Ending(n) => EndNext(s, n)
    case Handler(c) => ConsoleNext(s, c)
    case WindowClosed => Some(s.(store := Flush(s.store)))
  }

  /** The state after the events, taken in that order; None when one of them cannot happen. */
  function After(s: State, events: seq<Event>): Option<State> {
    if events == [] then Some(s)
    else
      match After(s, events[..|events| - 1])
      case None => None
      case Some(t) => Next(t, events[|events| - 1])
  }
}
