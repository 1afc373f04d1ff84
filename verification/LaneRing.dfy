/** The mailbox ring between a lane worker and mine_batch (src/mining/cuda_engine.cpp, lane_worker_loop and
    the multi-lane half of mine_batch), one load or store of shared state at a time.

    One lane is modelled. Of the other lanes it sees three things: they share the mutex, mine_batch waits for all of
    them, and it leaves early when an earlier lane throws; the first two only rule interleavings out, the third is
    the step LeaveEarly. LanePasses puts the lanes together. A section that the worker runs under the mutex reads one
    value that can change meanwhile, so it is one step; the kick of mine_batch, which the worker can overlap, is
    four. */
module LaneRing {
  import opened Blocks
  import opened Seqs

  const RING := 4

  datatype Params = Params(salt: string, difficulty: nat, batchSize: nat, xuniLanes: int, allowXuni: bool)

  /** What a GPU batch gave, tagged with the generation it was started under. */
  datatype Result = Result(gen: nat, params: Params, bad: bool, payload: int)

  datatype WorkerPc =
    | Idle                 // waiting for a new generation
    | Top                  // head of the inner loop
    | Gate                 // about to wait for room
    | Recheck              // past the wait, about to look at seq again
    | Running
    | Filled(r: Result)    // about to write the slot
    | Written(r: Result)   // about to count it
    | Gone

  datatype ConsumerPc =
    | Out                                   // not in mine_batch
    | Locked(p: Params)                     // holds the mutex; parameters written
    | Loaded(p: Params, upTo: nat)          // has read produced
    | Cleared(p: Params)                    // has stored consumed
    | Bumped                                // has raised seq; still holds the mutex
    | Waiting
    | Reading
    | Holding(r: Result)

  datatype State = State(
    gen: nat,                    // seq
    box: Params,
    produced: nat,
    consumed: nat,
    ring: seq<Result>,
    stop: bool,
    worker: WorkerPc, seen: nat, req: Params,
    consumer: ConsumerPc,
    // history
    log: seq<Result>,            // all results counted in produced
    published: seq<Params>,      // the parameters of each generation
    out: seq<Option<Result>>,    // for each index below consumed: what was taken there, or None if a kick skipped it
    mark: nat,                   // produced, as the latest kick read it
    staleTaken: nat)             // results taken under a later generation than their own

  function Start(box: Params, empty: Result): State {
    State(0, box, 0, 0, [empty, empty, empty, empty], false, Idle, 0, box, Out, [], [], [], 0, 0)
  }

  predicate MutexFree(s: State) {
    !(s.consumer.Locked? || s.consumer.Loaded? || s.consumer.Cleared? || s.consumer.Bumped?)
  }

  predicate Usable(p: Params) {
    p.batchSize != 0 && p.difficulty != 0 && p.salt != ""
  }

  // ---------- The worker ----------

  datatype WorkerEvent = Wake | LookAtTop | PassGate | LookAgain | RunBatch(bad: bool, payload: int) | WriteSlot | Count

  function WorkerNext(s: State, e: WorkerEvent): Option<State> {
    match e
    case Wake =>
      if !(s.worker.Idle? && MutexFree(s) && (s.stop || s.gen != s.seen)) then None
      else if s.stop then Some(s.(worker := Gone))
      else Some(s.(seen := s.gen, req := s.box, worker := if Usable(s.box) then Top else Idle))
    case LookAtTop =>
      if s.worker.Top? then Some(s.(worker := if s.stop || s.gen != s.seen then Idle else Gate)) else None
    case PassGate =>
      if s.worker.Gate? && MutexFree(s) && (s.stop || s.gen != s.seen || s.produced - s.consumed < RING)
      then Some(s.(worker := Recheck)) else None
    case LookAgain =>
      if s.worker.Recheck? then Some(s.(worker := if s.stop || s.gen != s.seen then Idle else Running)) else None
    case RunBatch(bad, payload) =>
      if s.worker.Running? then Some(s.(worker := Filled(Result(s.seen, s.req, bad, payload)))) else None
    case WriteSlot =>
      if s.worker.Filled? && |s.ring| == RING
      then Some(s.(ring := s.ring[s.produced % RING := s.worker.r], worker := Written(s.worker.r))) else None
    case Count =>
      if s.worker.Written?
      then Some(s.(produced := s.produced + 1, log := s.log + [s.worker.r], worker := Top)) else None
  }

  // ---------- mine_batch ----------

  datatype ConsumerEvent = Enter(p: Params) | LoadProduced | StoreConsumed | RaiseSeq | Unlock
                         | Proceed | LeaveEarly | ReadSlot | Finish | StopAll

  function ConsumerNext(s: State, e: ConsumerEvent): Option<State> {
    match e
    case Enter(p) =>
      if !s.consumer.Out? then None
      else if s.box != p || s.gen == 0 then Some(s.(box := p, consumer := Locked(p)))
      else Some(s.(consumer := Waiting))
    case LoadProduced =>
      if s.consumer.Locked?
      then Some(s.(consumer := Loaded(s.consumer.p, s.produced), mark := s.produced)) else None
    case StoreConsumed =>
      if s.consumer.Loaded?
      then Some(s.(consumer := Cleared(s.consumer.p), consumed := s.consumer.upTo,
                   out := s.out + seq(Gap(s.consumed, s.consumer.upTo), _ => None))) else None
    case RaiseSeq =>
      if s.consumer.Cleared?
      then Some(s.(consumer := Bumped, gen := s.gen + 1, published := s.published + [s.consumer.p])) else None
    case Unlock =>
      if s.consumer.Bumped? then Some(s.(consumer := Waiting)) else None
    case Proceed =>
      if s.consumer.Waiting? && s.produced - s.consumed >= 1 then Some(s.(consumer := Reading)) else None
    case LeaveEarly =>
      if s.consumer.Waiting? then Some(s.(consumer := Out)) else None
    case ReadSlot =>
      if s.consumer.Reading? && |s.ring| == RING
      then Some(s.(consumer := Holding(s.ring[s.consumed % RING]))) else None
    case Finish =>
      if !s.consumer.Holding? then None
      else if s.consumer.r.bad then Some(s.(consumer := Out))
      else Some(s.(consumer := Out, consumed := s.consumed + 1, out := s.out + [Some(s.consumer.r)],
                   staleTaken := s.staleTaken + if s.consumer.r.gen < s.gen then 1 else 0))
    case StopAll =>
      if s.consumer.Out? then Some(s.(stop := true)) else None
  }

  function Gap(from: nat, to: nat): nat {
    if from < to then to - from else 0
  }

  datatype Event = Worker(w: WorkerEvent) | Engine(c: ConsumerEvent)

  function Next(s: State, e: Event): Option<State> {
    match e
    case Worker(w) => WorkerNext(s, w)
    case Engine(c) => ConsumerNext(s, c)
  }

  /** The state after the events; None when one of them cannot happen there. */
  function After(s: State, events: seq<Event>): Option<State> {
    if events == [] then Some(s)
    else
      match After(s, events[..|events| - 1])
      case None => None
      case Some(t) => Next(t, events[|events| - 1])
  }

  // ---------- The invariant ----------

  predicate Busy(s: State) {
    s.worker.Running? || s.worker.Filled? || s.worker.Written?
  }

  predicate Kicking(s: State) {
    s.consumer.Loaded? || s.consumer.Cleared? || s.consumer.Bumped?
  }

  ghost predicate Shape(s: State) {
    && |s.ring| == RING && |s.log| == s.produced && |s.out| == s.consumed && |s.published| == s.gen
    && s.consumed <= s.produced <= s.consumed + RING && s.seen <= s.gen
    && (Busy(s) ==> s.produced - s.consumed < RING)
    && (s.worker.Recheck? ==> s.stop || s.gen != s.seen || s.produced - s.consumed < RING)
    && (s.consumer.Loaded? ==> s.consumed <= s.consumer.upTo <= s.produced)
    && (s.consumer.Reading? || s.consumer.Holding? ==> s.consumed < s.produced)
  }

  ghost predicate Content(s: State)
    requires Shape(s)
  {
    && (forall k :: s.consumed <= k < s.produced ==> s.ring[k % RING] == s.log[k])
    && (forall k :: 0 <= k < s.consumed && s.out[k].Some? ==> s.out[k].value == s.log[k])
    && (s.worker.Written? ==> s.ring[s.produced % RING] == s.worker.r)
    && (s.consumer.Holding? ==> s.consumer.r == s.log[s.consumed])
  }

  /** The worker runs what was published under the generation it saw. */
  ghost predicate Gens(s: State)
    requires Shape(s)
  {
    && (s.worker.Top? || s.worker.Gate? || s.worker.Recheck? || Busy(s) ==>
          1 <= s.seen && s.req == s.published[s.seen - 1] && Usable(s.req))
    && (s.worker.Filled? || s.worker.Written? ==> s.worker.r.gen == s.seen && s.worker.r.params == s.req)
    && (MutexFree(s) || s.consumer.Bumped? ==> s.gen > 0 ==> s.box == s.published[s.gen - 1])
    && (s.consumer.Locked? || s.consumer.Loaded? || s.consumer.Cleared? ==> s.box == s.consumer.p)
  }

  ghost predicate Tagged(s: State, k: nat)
    requires Shape(s) && k < s.produced
  {
    && 1 <= s.log[k].gen <= s.seen && s.log[k].params == s.published[s.log[k].gen - 1]
    && Usable(s.log[k].params)
  }

  ghost predicate LogGens(s: State)
    requires Shape(s)
  {
    && (forall k :: 0 <= k < s.produced ==> Tagged(s, k))
    && (forall j, k :: 0 <= j < k < s.produced ==> s.log[j].gen <= s.log[k].gen)
  }

  ghost predicate Stale(s: State)
    requires Shape(s)
  {
    // of the results counted since the latest kick, only the first can be of an older generation
    && s.mark <= s.produced
    && (forall k :: s.mark <= k < s.produced ==> k == s.mark || s.log[k].gen == s.gen)
    && (s.seen < s.gen && Busy(s) ==> s.produced == s.mark)
    // because the kick keeps the worker from a second round
    && (Kicking(s) ==> s.produced <= s.mark + 1)
    && (Kicking(s) && s.produced == s.mark + 1 ==> s.worker.Top? || s.worker.Gate? || s.worker.Idle? || s.worker.Gone?)
    && (s.consumer.Loaded? ==> s.consumer.upTo == s.mark)
    && (!s.consumer.Loaded? ==> s.mark <= s.consumed)
    && (s.gen == 0 ==> s.produced == 0 && s.staleTaken == 0)
    && (s.gen == 0 ==> s.worker.Idle? || s.worker.Gone?)
    && (s.consumer.Cleared? || s.consumer.Bumped? ==> s.consumed == s.mark)
    && (Kicks(s) <= 1 ==> s.staleTaken == 0)
    && (Kicks(s) > 1 ==> s.staleTaken + (if s.consumed <= s.mark then 1 else 0) < Kicks(s))
  }

  function Kicks(s: State): nat {
    s.gen + if s.consumer.Loaded? || s.consumer.Cleared? then 1 else 0
  }

  ghost predicate Inv(s: State) {
    Shape(s) && Content(s) && Gens(s) && LogGens(s) && Stale(s)
  }

  // ---------- Worker steps ----------

  lemma WorkerShape(s: State, e: WorkerEvent, t: State)
    requires Shape(s) && WorkerNext(s, e) == Some(t)
    ensures Shape(t)
  {
  }

  /** The slot that is written is not the slot of any unread result. */
  lemma OtherSlot(k: nat, produced: nat, consumed: nat)
    requires consumed <= k < produced < consumed + RING
    ensures k % RING != produced % RING
  {
  }

  lemma WriteContent(s: State, t: State)
    requires Shape(s) && Content(s) && WorkerNext(s, WriteSlot) == Some(t)
    ensures Shape(t) && Content(t)
  {
    forall k | s.consumed <= k < s.produced ensures t.ring[k % RING] == t.log[k] {
      OtherSlot(k, s.produced, s.consumed);
    }
  }

  lemma WorkerContent(s: State, e: WorkerEvent, t: State)
    requires Shape(s) && Content(s) && WorkerNext(s, e) == Some(t) && Shape(t)
    ensures Content(t)
  {
    if e.WriteSlot? {
      WriteContent(s, t);
    }
  }

  lemma WorkerGens(s: State, e: WorkerEvent, t: State)
    requires Shape(s) && Gens(s) && Stale(s) && WorkerNext(s, e) == Some(t) && Shape(t)
    ensures Gens(t)
  {
    hide Usable;
  }

  lemma WorkerLogGens(s: State, e: WorkerEvent, t: State)
    requires Shape(s) && Gens(s) && LogGens(s) && WorkerNext(s, e) == Some(t) && Shape(t)
    ensures LogGens(t)
  {
    hide Gap;
    forall k | 0 <= k < t.produced ensures Tagged(t, k) {
      assert k < s.produced ==> Tagged(s, k);
    }
    if e.Count? {
      forall j | 0 <= j < s.produced ensures s.log[j].gen <= s.worker.r.gen {
        assert Tagged(s, j);
      }
    }
  }

  lemma CountStale(s: State, t: State)
    requires Shape(s) && Gens(s) && Stale(s) && WorkerNext(s, Count) == Some(t) && Shape(t)
    ensures Stale(t)
  {
  }

  lemma WorkerStale(s: State, e: WorkerEvent, t: State)
    requires Shape(s) && Gens(s) && Stale(s) && WorkerNext(s, e) == Some(t) && Shape(t) && !e.Count?
    ensures Stale(t)
  {
  }

  lemma WorkerInv(s: State, e: WorkerEvent, t: State)
    requires Inv(s) && WorkerNext(s, e) == Some(t)
    ensures Inv(t)
  {
    hide WorkerNext, Shape, Content, Gens, LogGens, Stale;
    WorkerShape(s, e, t);
    WorkerContent(s, e, t);
    WorkerGens(s, e, t);
    WorkerLogGens(s, e, t);
    if e.Count? {
      CountStale(s, t);
    } else {
      WorkerStale(s, e, t);
    }
  }

  // ---------- Steps of mine_batch ----------

  lemma ConsumerShape(s: State, e: ConsumerEvent, t: State)
    requires Shape(s) && ConsumerNext(s, e) == Some(t)
    ensures Shape(t)
  {
  }

  lemma ConsumerContent(s: State, e: ConsumerEvent, t: State)
    requires Shape(s) && Content(s) && ConsumerNext(s, e) == Some(t) && Shape(t)
    ensures Content(t)
  {
  }

  lemma ConsumerGens(s: State, e: ConsumerEvent, t: State)
    requires Shape(s) && Gens(s) && ConsumerNext(s, e) == Some(t) && Shape(t)
    ensures Gens(t)
  {
    hide Gap;
  }

  lemma ConsumerLogGens(s: State, e: ConsumerEvent, t: State)
    requires Shape(s) && LogGens(s) && ConsumerNext(s, e) == Some(t) && Shape(t)
    ensures LogGens(t)
  {
    forall k | 0 <= k < t.produced ensures Tagged(t, k) {
      assert Tagged(s, k);
    }
  }

  lemma FinishStale(s: State, t: State)
    requires Shape(s) && Content(s) && LogGens(s) && Stale(s) && ConsumerNext(s, Finish) == Some(t) && Shape(t)
    ensures Stale(t)
  {
    assert Tagged(s, s.consumed);
  }

  lemma RaiseStale(s: State, t: State)
    requires Shape(s) && Gens(s) && Stale(s) && ConsumerNext(s, RaiseSeq) == Some(t) && Shape(t)
    ensures Stale(t)
  {
  }

  lemma KickStale(s: State, e: ConsumerEvent, t: State)
    requires Shape(s) && Gens(s) && Stale(s) && ConsumerNext(s, e) == Some(t) && Shape(t)
    requires e.LoadProduced? || e.StoreConsumed?
    ensures Stale(t)
  {
  }

  lemma ConsumerStale(s: State, e: ConsumerEvent, t: State)
    requires Shape(s) && Gens(s) && Stale(s) && ConsumerNext(s, e) == Some(t) && Shape(t) && !e.Finish?
    ensures Stale(t)
  {
    if e.RaiseSeq? {
      RaiseStale(s, t);
    } else if e.LoadProduced? || e.StoreConsumed? {
      KickStale(s, e, t);
    }
  }

  lemma ConsumerInv(s: State, e: ConsumerEvent, t: State)
    requires Inv(s) && ConsumerNext(s, e) == Some(t)
    ensures Inv(t)
  {
    hide ConsumerNext, Shape, Content, Gens, LogGens, Stale;
    ConsumerShape(s, e, t);
    ConsumerContent(s, e, t);
    ConsumerGens(s, e, t);
    ConsumerLogGens(s, e, t);
    if e.Finish? {
      FinishStale(s, t);
    } else {
      ConsumerStale(s, e, t);
    }
  }

  // ---------- Every interleaving ----------

  lemma NextInv(s: State, e: Event, t: State)
    requires Inv(s) && Next(s, e) == Some(t)
    ensures Inv(t)
  {
    hide Inv, WorkerNext, ConsumerNext;
    match e
    case Worker(w) => WorkerInv(s, w, t);
    case Engine(c) => ConsumerInv(s, c, t);
  }

  lemma StartInv(box: Params, empty: Result)
    ensures Inv(Start(box, empty))
  {
  }

  lemma {:induction false} AfterInv(box: Params, empty: Result, events: seq<Event>)
    requires After(Start(box, empty), events).Some?
    ensures Inv(After(Start(box, empty), events).value)
  {
    hide Inv, Next, Start;
    if events == [] {
      StartInv(box, empty);
    } else {
      var n := |events| - 1;
      AfterInv(box, empty, events[..n]);
      NextInv(After(Start(box, empty), events[..n]).value, events[n], After(Start(box, empty), events).value);
    }
  }

  /** What has been produced and neither taken nor skipped. */
  function Unread(s: State): seq<Result> {
    if s.consumed <= s.produced <= |s.log| then s.log[s.consumed..s.produced] else []
  }

  function Nones(n: nat): seq<Option<Result>> {
    seq(n, _ => None)
  }

  predicate MovesQueue(s: State, e: Event) {
    || e == Worker(Count)
    || e == Engine(StoreConsumed)
    || (e == Engine(Finish) && s.consumer.Holding? && !s.consumer.r.bad)
  }

  lemma OthersKeepQueue(s: State, e: Event, t: State)
    requires Next(s, e) == Some(t) && !MovesQueue(s, e)
    ensures t.log == s.log && t.out == s.out && t.produced == s.produced && t.consumed == s.consumed
  {
  }

  lemma KickDrops(s: State, t: State)
    requires Shape(s) && ConsumerNext(s, StoreConsumed) == Some(t)
    ensures exists n: nat :: n <= |Unread(s)| && Unread(t) == Unread(s)[n..] && t.out == s.out + Nones(n)
  {
    var n := Gap(s.consumed, s.consumer.upTo);
    assert Unread(t) == Unread(s)[n..];
    assert t.out == s.out + Nones(n);
  }

  lemma FinishTakes(s: State, t: State)
    requires Shape(s) && Content(s) && ConsumerNext(s, Finish) == Some(t) && !s.consumer.r.bad
    ensures Unread(s) != [] && Unread(t) == Unread(s)[1..] && t.out == s.out + [Some(Unread(s)[0])]
  {
    assert s.log[s.consumed..s.produced][1..] == s.log[s.consumed + 1..s.produced];
  }

  lemma CountAppends(s: State, t: State)
    requires Shape(s) && WorkerNext(s, Count) == Some(t)
    ensures Unread(t) == Unread(s) + [s.worker.r] && t.out == s.out
  {
    hide Usable;
    var l, m := s.log, s.log + [s.worker.r];
    assert t.log == m && m[s.consumed..s.produced + 1] == l[s.consumed..s.produced] + [s.worker.r];
  }

  /** Every step of the ring is a step of a queue, or none: a count appends, a take gives the head, the
      store of a kick drops from the front, and nothing else changes the queue. */
  lemma RefinesQueue(s: State, e: Event, t: State)
    requires Inv(s) && Next(s, e) == Some(t)
    ensures |Unread(s)| <= RING
    ensures e == Worker(Count) ==> Unread(t) == Unread(s) + [s.worker.r] && t.out == s.out
    ensures e == Engine(Finish) && !s.consumer.r.bad ==>
      Unread(s) != [] && Unread(t) == Unread(s)[1..] && t.out == s.out + [Some(Unread(s)[0])]
    ensures e == Engine(StoreConsumed) ==>
      exists n: nat :: n <= |Unread(s)| && Unread(t) == Unread(s)[n..] && t.out == s.out + Nones(n)
    ensures !MovesQueue(s, e) ==> Unread(t) == Unread(s) && t.out == s.out
  {
    assert |Unread(s)| <= RING;
    hide Shape, Content, Unread, Gens, LogGens, Stale;
    if !MovesQueue(s, e) {
      OthersKeepQueue(s, e, t);
      SameUnread(s, t);
    } else if e == Engine(StoreConsumed) {
      KickDrops(s, t);
    } else if e == Engine(Finish) {
      FinishTakes(s, t);
    } else {
      CountAppends(s, t);
    }
  }

  /** A bad result at the head stays at the head through every step but the store of a kick, and is never taken. */
  lemma BadHeadStays(s: State, e: Event, t: State)
    requires Inv(s) && Next(s, e) == Some(t) && e != Engine(StoreConsumed)
    requires Unread(s) != [] && Unread(s)[0].bad
    ensures Unread(t) != [] && Unread(t)[0] == Unread(s)[0] && t.out == s.out
  {
    RefinesQueue(s, e, t);
    if e == Engine(Finish) {
      HeldIsHead(s);
    }
  }

  lemma HeldIsHead(s: State)
    requires Inv(s) && s.consumer.Holding?
    ensures Unread(s) != [] && Unread(s)[0] == s.consumer.r
  {
  }

  lemma SameUnread(s: State, t: State)
    requires t.log == s.log && t.produced == s.produced && t.consumed == s.consumed
    ensures Unread(t) == Unread(s)
  {
  }

  /** In every interleaving: at most four results wait; each waits unharmed in its slot; the slot that the
      worker fills is not the one that mine_batch reads; and whatever mine_batch took is what was produced
      at that place in the order. */
  lemma RingIsSafe(box: Params, empty: Result, events: seq<Event>)
    requires After(Start(box, empty), events).Some?
    ensures var s := After(Start(box, empty), events).value;
      && 0 <= s.produced - s.consumed <= RING && |s.log| == s.produced && |s.out| == s.consumed && |s.ring| == RING
      && (forall k :: s.consumed <= k < s.produced ==> s.ring[k % RING] == s.log[k])
      && (s.worker.Filled? && (s.consumer.Reading? || s.consumer.Holding?) ==> s.produced % RING != s.consumed % RING)
      && (forall k :: 0 <= k < s.consumed ==> s.out[k] == None || s.out[k] == Some(s.log[k]))
  {
    hide After;
    AfterInv(box, empty, events);
    var s := After(Start(box, empty), events).value;
    if s.worker.Filled? && (s.consumer.Reading? || s.consumer.Holding?) {
      OtherSlot(s.consumed, s.produced, s.consumed);
    }
  }

  /** Every result was computed with exactly the parameters that were published with its generation, which are never
      without a salt, a difficulty or a batch, and generations never go back. */
  lemma ResultsKeepParams(box: Params, empty: Result, events: seq<Event>)
    requires After(Start(box, empty), events).Some?
    ensures var s := After(Start(box, empty), events).value;
      && |s.log| == s.produced && |s.published| == s.gen
      && (forall k :: 0 <= k < s.produced ==>
            1 <= s.log[k].gen <= s.gen && s.log[k].params == s.published[s.log[k].gen - 1]
            && s.log[k].params.batchSize > 0 && s.log[k].params.difficulty > 0 && s.log[k].params.salt != "")
      && (forall j, k :: 0 <= j < k < s.produced ==> s.log[j].gen <= s.log[k].gen)
  {
    hide After;
    AfterInv(box, empty, events);
    var s := After(Start(box, empty), events).value;
    forall k | 0 <= k < s.produced
      ensures 1 <= s.log[k].gen <= s.gen && s.log[k].params == s.published[s.log[k].gen - 1]
      ensures s.log[k].params.batchSize > 0 && s.log[k].params.difficulty > 0 && s.log[k].params.salt != ""
    {
      assert Tagged(s, k);
    }
  }

  // ---------- When a kick happens ----------

  /** The parameters that mine_batch was called with, call by call. */
  function Entered(events: seq<Event>): seq<Params> {
    if events == [] then []
    else
      var e := events[|events| - 1];
      Entered(events[..|events| - 1]) + if e.Engine? && e.c.Enter? then [e.c.p] else []
  }

  /** Runs of the same parameters as one. */
  function Collapsed(ps: seq<Params>): (r: seq<Params>)
    ensures ps != [] ==> r != [] && r[|r| - 1] == ps[|ps| - 1]
  {
    if ps == [] then []
    else
      var n := |ps| - 1;
      Collapsed(ps[..n]) + if n > 0 && ps[n] == ps[n - 1] then [] else [ps[n]]
  }

  /** How often a call came with other parameters than the call before. */
  function Changes(ps: seq<Params>): nat {
    if |ps| <= 1 then 0
    else
      var n := |ps| - 1;
      Changes(ps[..n]) + if ps[n] == ps[n - 1] then 0 else 1
  }

  lemma {:induction false} CollapsedCount(ps: seq<Params>)
    ensures |Collapsed(ps)| == if ps == [] then 0 else 1 + Changes(ps)
  {
    if ps != [] {
      CollapsedCount(ps[..|ps| - 1]);
    }
  }

  /** A kick is under way whose generation is not yet published. */
  predicate Publishing(s: State) {
    s.consumer.Locked? || s.consumer.Loaded? || s.consumer.Cleared?
  }

  ghost predicate KicksOk(s: State, ps: seq<Params>) {
    && Collapsed(ps) == s.published + (if Publishing(s) then [s.consumer.p] else [])
    && (ps != [] ==> s.box == ps[|ps| - 1])
    && (ps == [] <==> s.gen == 0 && !Publishing(s))
  }

  lemma EnterKicks(s: State, p: Params, t: State, ps: seq<Params>)
    requires KicksOk(s, ps) && ConsumerNext(s, Enter(p)) == Some(t)
    ensures KicksOk(t, ps + [p])
  {
    assert (ps + [p])[..|ps|] == ps;
    assert s.published + [] == s.published;
  }

  lemma WorkerKicks(s: State, e: WorkerEvent, t: State, ps: seq<Params>)
    requires KicksOk(s, ps) && WorkerNext(s, e) == Some(t)
    ensures KicksOk(t, ps)
  {
    hide Usable, Collapsed;
    assert t.published == s.published && t.consumer == s.consumer && t.box == s.box && t.gen == s.gen;
  }

  lemma ConsumerKicks(s: State, e: ConsumerEvent, t: State, ps: seq<Params>)
    requires KicksOk(s, ps) && ConsumerNext(s, e) == Some(t) && !e.Enter?
    ensures KicksOk(t, ps)
  {
    hide Gap, Collapsed;
    assert s.published + [] == s.published;
  }

  lemma NextKicks(s: State, e: Event, t: State, ps: seq<Params>)
    requires KicksOk(s, ps) && Next(s, e) == Some(t)
    ensures KicksOk(t, ps + if e.Engine? && e.c.Enter? then [e.c.p] else [])
  {
    hide KicksOk, WorkerNext, ConsumerNext;
    if e.Engine? && e.c.Enter? {
      EnterKicks(s, e.c.p, t, ps);
    } else {
      if e.Worker? { WorkerKicks(s, e.w, t, ps); } else { ConsumerKicks(s, e.c, t, ps); }
      assert ps + [] == ps;
    }
  }

  lemma {:induction false} AfterKicks(box: Params, empty: Result, events: seq<Event>)
    requires After(Start(box, empty), events).Some?
    ensures KicksOk(After(Start(box, empty), events).value, Entered(events))
  {
    hide Next, KicksOk;
    if events == [] {
      StartKicks(box, empty);
    } else {
      var n := |events| - 1;
      var s := After(Start(box, empty), events[..n]).value;
      AfterKicks(box, empty, events[..n]);
      NextKicks(s, events[n], After(Start(box, empty), events).value, Entered(events[..n]));
    }
  }

  lemma InvShape(s: State)
    requires Inv(s)
    ensures Shape(s) && Stale(s)
  {
  }

  lemma StartKicks(box: Params, empty: Result)
    ensures KicksOk(Start(box, empty), [])
  {
  }

  function Skips(out: seq<Option<Result>>): nat {
    |Keep(out, (o: Option<Result>) => o.None?)|
  }

  lemma {:induction false} SkipsNones(out: seq<Option<Result>>, n: nat)
    ensures Skips(out + seq(n, _ => None)) == Skips(out) + n
  {
    var skipped := (o: Option<Result>) => o.None?;
    var nones := seq(n, _ => None);
    KeepConcat(out, nones, skipped);
    KeepAll(nones, skipped);
  }

  lemma SkipsTaken(out: seq<Option<Result>>, r: Result)
    ensures Skips(out + [Some(r)]) == Skips(out)
  {
    KeepSnoc(out, Some(r), (o: Option<Result>) => o.None?);
  }

  /** A kick skips what is unread, four results at most, and the first one nothing. */
  predicate SkipsOk(s: State) {
    var kicks := s.gen + if s.consumer.Cleared? then 1 else 0;
    Skips(s.out) <= if kicks == 0 then 0 else RING * (kicks - 1)
  }

  lemma NextSkips(s: State, e: Event, t: State)
    requires Shape(s) && Stale(s) && SkipsOk(s) && Next(s, e) == Some(t)
    ensures SkipsOk(t)
  {
    hide Skips, Usable;
    if e.Engine? && e.c.StoreConsumed? {
      SkipsNones(s.out, Gap(s.consumed, s.consumer.upTo));
    } else if e.Engine? && e.c.Finish? && !s.consumer.r.bad {
      SkipsTaken(s.out, s.consumer.r);
    }
  }

  lemma {:induction false} AfterSkips(box: Params, empty: Result, events: seq<Event>)
    requires After(Start(box, empty), events).Some?
    ensures SkipsOk(After(Start(box, empty), events).value)
  {
    hide Inv, Next, Shape, Stale;
    if events != [] {
      var n := |events| - 1;
      var s := After(Start(box, empty), events[..n]).value;
      AfterSkips(box, empty, events[..n]);
      AfterInv(box, empty, events[..n]);
      InvShape(s);
      NextSkips(s, events[n], After(Start(box, empty), events).value);
    }
  }

  /** The lane is kicked exactly when mine_batch is called for the first time or with other parameters than the time
      before: the generations published, with one whose kick is under way, are the parameters of the calls with
      repetitions as one. So calls that change nothing skip no result, and each change skips at most four. */
  lemma KicksExactly(box: Params, empty: Result, events: seq<Event>)
    requires After(Start(box, empty), events).Some?
    ensures var s := After(Start(box, empty), events).value;
      var ps := Entered(events);
      && Collapsed(ps) == s.published + (if Publishing(s) then [s.consumer.p] else []) && |s.published| == s.gen
      && s.gen + (if Publishing(s) then 1 else 0) == (if ps == [] then 0 else 1 + Changes(ps))
      && Skips(s.out) <= RING * Changes(ps)
      && (Changes(ps) == 0 ==> None !in s.out)
  {
    hide After, Skips, Inv;
    AfterKicks(box, empty, events);
    AfterSkips(box, empty, events);
    AfterInv(box, empty, events);
    var s := After(Start(box, empty), events).value;
    InvShape(s);
    CollapsedCount(Entered(events));
    if Skips(s.out) == 0 {
      NoneSkipped(s.out);
    }
  }

  lemma NoneSkipped(out: seq<Option<Result>>)
    requires Skips(out) == 0
    ensures None !in out
  {
    KeepMembers(out, (o: Option<Result>) => o.None?);
    assert Keep(out, (o: Option<Result>) => o.None?) == [];
  }

  // ---------- When the threads wait ----------

  /** A worker waits before a batch exactly while four results are unread and neither a kick nor a stop has come;
      mine_batch waits exactly while there is none. */
  lemma WaitsExactly(s: State)
    requires s.worker.Gate? && MutexFree(s) && s.consumer.Waiting?
    ensures Next(s, Worker(PassGate)) == None <==> s.produced - s.consumed >= 4 && s.gen == s.seen && !s.stop
    ensures Next(s, Engine(Proceed)) == None <==> s.produced - s.consumed <= 0
  {
  }

  // ---------- After a stop ----------

  lemma StopNext(s: State, e: Event, t: State)
    requires s.stop && Next(s, e) == Some(t)
    ensures t.stop && t.produced + (if Busy(t) then 1 else 0) <= s.produced + (if Busy(s) then 1 else 0)
  {
    hide Gap, Usable;
  }

  /** Once the lanes are told to stop, a worker counts at most the batch it is in, whatever mine_batch does. */
  lemma {:induction false} StopsSoon(s: State, events: seq<Event>)
    requires s.stop && After(s, events).Some?
    ensures var t := After(s, events).value;
      t.stop && t.produced + (if Busy(t) then 1 else 0) <= s.produced + (if Busy(s) then 1 else 0)
  {
    hide Next, Busy;
    if events != [] {
      var n := |events| - 1;
      StopsSoon(s, events[..n]);
      StopNext(After(s, events[..n]).value, events[n], After(s, events).value);
    }
  }

  /** After the latest kick, at most one result of an older generation is still counted, the first; and all
      that mine_batch ever takes late is at most one result for each kick after the first. */
  lemma OneStalePerKick(box: Params, empty: Result, events: seq<Event>)
    requires After(Start(box, empty), events).Some?
    ensures var s := After(Start(box, empty), events).value;
      && (if s.gen == 0 then s.staleTaken == 0 else s.staleTaken < s.gen) && |s.log| == s.produced
      && (forall k :: s.mark < k < s.produced ==> s.log[k].gen == s.gen)
  {
    hide After;
    AfterInv(box, empty, events);
  }

  lemma Nothing(s: State)
    ensures After(s, []) == Some(s)
  {
  }

  lemma Chain(s: State, events: seq<Event>, t: State, e: Event, u: State)
    requires After(s, events) == Some(t) && Next(t, e) == Some(u)
    ensures After(s, events + [e]) == Some(u)
  {
    assert (events + [e])[..|events|] == events;
  }

  /** The state after a whole kick during which the worker has not moved. */
  function Kicked(s: State, p: Params): State {
    s.(box := p, consumer := Waiting, mark := s.produced, consumed := s.produced,
       out := s.out + Nones(Gap(s.consumed, s.produced)), gen := s.gen + 1, published := s.published + [p])
  }

  lemma KickRuns(s: State, p: Params) returns (events: seq<Event>)
    requires s.consumer.Out? && p != s.box
    ensures After(s, events) == Some(Kicked(s, p))
  {
    hide After;
    var s1 := s.(box := p, consumer := Locked(p));
    var s2 := s1.(consumer := Loaded(p, s.produced), mark := s.produced);
    var s3 := s2.(consumer := Cleared(p), consumed := s.produced, out := s.out + Nones(Gap(s.consumed, s.produced)));
    var s4 := s3.(consumer := Bumped, gen := s.gen + 1, published := s.published + [p]);
    events := [];
    Nothing(s);
    Chain(s, events, s, Engine(Enter(p)), s1);
    events := events + [Engine(Enter(p))];
    Chain(s, events, s1, Engine(LoadProduced), s2);
    events := events + [Engine(LoadProduced)];
    Chain(s, events, s2, Engine(StoreConsumed), s3);
    events := events + [Engine(StoreConsumed)];
    Chain(s, events, s3, Engine(RaiseSeq), s4);
    events := events + [Engine(RaiseSeq)];
    Chain(s, events, s4, Engine(Unlock), Kicked(s, p));
    events := events + [Engine(Unlock)];
  }

  /** The state after the worker has pushed what it was running. */
  function Pushed(s: State, r: Result): State
    requires |s.ring| == RING
  {
    s.(ring := s.ring[s.produced % RING := r], produced := s.produced + 1, log := s.log + [r], worker := Top)
  }

  lemma PushRuns(s: State, before: seq<Event>, k: State, payload: int) returns (events: seq<Event>)
    requires After(s, before) == Some(k) && k.worker.Running? && |k.ring| == RING
    ensures After(s, events) == Some(Pushed(k, Result(k.seen, k.req, false, payload)))
  {
    hide After;
    var r := Result(k.seen, k.req, false, payload);
    var k1 := k.(worker := Filled(r));
    var k2 := k1.(ring := k.ring[k.produced % RING := r], worker := Written(r));
    Chain(s, before, k, Worker(RunBatch(false, payload)), k1);
    events := before + [Worker(RunBatch(false, payload))];
    Chain(s, events, k1, Worker(WriteSlot), k2);
    events := events + [Worker(WriteSlot)];
    Chain(s, events, k2, Worker(Count), Pushed(k, r));
    events := events + [Worker(Count)];
  }

  lemma TakeRuns(s: State, before: seq<Event>, k: State) returns (events: seq<Event>)
    requires After(s, before) == Some(k) && k.consumer.Waiting? && |k.ring| == RING
    requires k.produced == k.consumed + 1 && !k.ring[k.consumed % RING].bad
    ensures After(s, events).Some?
    ensures After(s, events).value.staleTaken
         == k.staleTaken + if k.ring[k.consumed % RING].gen < k.gen then 1 else 0
  {
    hide After;
    var r := k.ring[k.consumed % RING];
    var k1 := k.(consumer := Reading);
    var k2 := k.(consumer := Holding(r));
    var k3 := ConsumerNext(k2, Finish).value;
    Chain(s, before, k, Engine(Proceed), k1);
    events := before + [Engine(Proceed)];
    Chain(s, events, k1, Engine(ReadSlot), k2);
    events := events + [Engine(ReadSlot)];
    Chain(s, events, k2, Engine(Finish), k3);
    events := events + [Engine(Finish)];
  }

  /** And that one is real: whenever mine_batch comes with other parameters while the worker is in a batch,
      the result of that batch can still be taken. */
  lemma StaleIsTaken(s: State, p: Params, payload: int)
    requires Inv(s) && s.worker.Running? && s.consumer.Out? && p != s.box
    ensures exists events :: After(s, events).Some? && After(s, events).value.staleTaken == s.staleTaken + 1
  {
    hide After, Inv;
    assert |s.ring| == RING && s.seen <= s.gen by { InvBasics(s); }
    var r := Result(s.seen, s.req, false, payload);
    var kick := KickRuns(s, p);
    var push := PushRuns(s, kick, Kicked(s, p), payload);
    var take := TakeRuns(s, push, Pushed(Kicked(s, p), r));
  }

  lemma InvBasics(s: State)
    requires Inv(s)
    ensures |s.ring| == RING && s.seen <= s.gen
  {
  }
}
