/** The network view of the supervisor in place: the methods of src/app/supervisor.cpp that poll the
    difficulty, move the match-drain window and plan a flush wave. */
module Oracle {
  import opened Blocks
  import opened Policy
  import opened Seqs
  import opened MatchDrain
  import opened Protocol
  import FlushBatch
  import Store = BlockStore

  /** What the clock and the store show at one moment. */
  datatype Glance = Glance(now: real, pending: seq<PendingBlock>)

  datatype Plan =
    | NoWave
    | DeferredAll                                  // at shutdown, without a network
    | NothingSendable(batch: seq<PendingBlock>)
    | SendWave(m: int, work: seq<PendingBlock>)

  class Oracle {
    const c: Settings
    var lastGood: Option<int>
    var ok: bool
    var stale: bool
    var okAt: real
    var failStreak: nat
    var lastSeq: nat
    var deferUntil: real
    var backoffUntil: real
    var alive: bool
    var probedAt: real
    var active: bool
    var until: real
    var skipBefore: int

    constructor (c: Settings)
      ensures this.c == c && View() == FRESH
    {
      this.c := c;
      lastGood, ok, stale, okAt, failStreak, lastSeq := None, false, false, 0.0, 0, 0;
      deferUntil, backoffUntil, alive, probedAt := 0.0, 0.0, false, 0.0;
      active, until, skipBefore := false, 0.0, 0;
    }

    function View(): Net
      reads this
    {
      Net(lastGood, ok, stale, okAt, failStreak, lastSeq, deferUntil, backoffUntil, alive, probedAt,
          active, until, skipBefore)
    }

    method UpdateMatchDrain(g: Glance)
      modifies this
      ensures View() == Update(c, old(View()), g.now, g.pending)
    {
      if !DrainPossible(c) {
        active := false;
        return;
      }
      var bagQueue := Store.CountMatching(g.pending, c.forceM, c.forceM);
      var matches := SaysM(View(), c.forceM);
      if active {
        var timedOut := c.maxSeconds > 0 && until > 0.0 && g.now >= until;
        var empty := matches && bagQueue <= 0;
        if empty || timedOut || LeftM(View(), c.forceM) {
          active := false;
          until := 0.0;
        }
      } else {
        var matchQueue := if matches then bagQueue else 0;
        if matches && matchQueue >= c.minQueue {
          active := true;
          until := if c.maxSeconds > 0 then g.now + c.maxSeconds as real else 0.0;
          skipBefore := 0;
        }
      }
    }

    method NoteDifficulty(raw: int, now: real)
      modifies this
      ensures View() == Absorb(c, old(View()), raw, now)
    {
      var m := AcceptDifficulty(raw, lastGood.GetOr(c.memoryCost));
      if lastGood.Some? && m != lastGood.value {
        deferUntil := now + Max(5.0, c.sampleSeconds as real);
      }
      lastGood, ok, stale, failStreak := Some(m), true, false, 0;
      okAt, backoffUntil := now, 0.0;
    }

    method NoteMiss(now: real)
      modifies this
      ensures View() == Miss(c, old(View()), now)
      ensures ok ==> lastGood.Some?
    {
      failStreak := failStreak + 1;
      var age := if okAt > 0.0 then now - okAt else 1000000000.0;
      var matchingHybrid := Hybrid(c) && lastGood == Some(c.forceM);
      var failBudget := if matchingHybrid then 6 else 3;
      var ageBudget := if matchingHybrid then 120.0 else 60.0;
      if lastGood.Some? && age < 180.0 && failStreak < 8 {
        stale := true;
        ok := failStreak < failBudget && age < ageBudget;
      } else {
        ok := false;
        stale := lastGood.Some?;
      }
    }

    method RefreshNetwork(blocking: bool, st: Status, g: Glance) returns (up: bool)
      modifies this
      ensures View() == Refresh(c, old(View()), blocking, st, g.now, g.pending)
      ensures up == (ok && lastGood.Some?)
    {
      if !blocking && (st.seqNo == 0 || st.seqNo == lastSeq) {
        return ok && lastGood.Some?;
      }
      if st.seqNo != 0 {
        lastSeq := st.seqNo;
      }
      if st.difficulty.Some? {
        NoteDifficulty(st.difficulty.value, g.now);
        ghost var known := View();
        hide Absorb, Pinned;
        UpdateMatchDrain(g);
        UpdateKeepsView(c, known, g.now, g.pending);
        return true;
      }
      NoteMiss(g.now);
      return ok;
    }

    method NoteTransportFailure(status: int, now: real)
      modifies this
      ensures View() == Refused(c, old(View()), status, now)
    {
      var hybridMatch := Hybrid(c) && SaysM(View(), c.forceM);
      var rateLimit := status == 401 || status == 403 || status == 429;
      var pause := if active then 0.15 else if hybridMatch || rateLimit then 3.0
                   else Max(15.0, c.downPollSeconds as real);
      backoffUntil := now + pause;
      if !(hybridMatch || rateLimit || active) {
        ok := false;
      }
    }

    method VerifyReadyToPush(answers: bool, now: real) returns (ready: bool)
      modifies this
      ensures View() == Probed(old(View()), answers, now)
      ensures ready == (ok || alive)
    {
      if ok { return true; }
      if probedAt > 0.0 && now - probedAt < PROBE_TTL { return alive; }
      alive := answers;
      probedAt := now;
      return answers;
    }

    /** The gates before the poll: none when they are passed and the wave does not drain. */
    method PassFirst(shutdown: bool, answers: bool, look: nat -> Glance)
      returns (gate: Option<Gate>, ghost done: seq<MatchDrain.Event>)
      modifies this
      ensures View() == Run(c, old(View()), done) && done <= FirstSteps(shutdown, answers, look)
      ensures old(WindowOk(c, View())) ==> WindowOk(c, View())
      ensures gate.Some? ==> gate.value == Pass(false) || gate.value == Gate.Stop
      ensures gate == Some(Pass(false)) ==> c.submitEnabled && DrainMode(c, View())
      // A poll is made for a wave that does not drain, and only if it may flush, or is the last.
      ensures gate == None ==>
        && c.submitEnabled && !DrainMode(c, View()) && done == FirstSteps(shutdown, answers, look)
        && (shutdown || FlushAllowed(c, View(), look(0).now))
      ensures gate != Some(Gate.Stop) && !shutdown && !Hybrid(c) ==> look(0).now >= old(deferUntil)
      ensures gate == Some(Gate.Stop) && c.submitEnabled && Hybrid(c) ==>
        !(ok || alive) || (!shutdown && !DrainMode(c, View()) && !FlushAllowed(c, View(), look(0).now))
    {
      hide Update, Probed, FlushAllowed, Pinned, Run, WindowOk;
      ghost var n0 := View();
      gate, done := Some(Gate.Stop), [];
      RunNothing(c, n0);
      if !c.submitEnabled { return; }
      done := Then(c, n0, done, Probe(answers, look(0).now));
      ProbeKeepsPause(View(), answers, look(0).now);
      var ready := VerifyReadyToPush(answers, look(0).now);
      if !ready { return; }
      if !shutdown {
        done := Then(c, n0, done, MatchDrain.Event.Look(look(0).now, look(0).pending));
        UpdateKeepsView(c, View(), look(0).now, look(0).pending);
        UpdateMatchDrain(look(0));
      }
      var draining := active || SaysM(View(), BagTarget(c, View()));
      if !shutdown && !draining && !FlushAllowed(c, View(), look(0).now) { return; }
      if !shutdown && !Hybrid(c) && look(0).now < deferUntil { return; }
      gate := if draining then Some(Pass(false)) else None;
    }

    /** The gates of try_flush_pending, with the bodies it has run. */
    method PassGates(shutdown: bool, answers: bool, st: Status, look: nat -> Glance)
      returns (gate: Gate, ghost done: seq<MatchDrain.Event>)
      modifies this
      ensures View() == Run(c, old(View()), done) && done <= GateSteps(shutdown, answers, st, look)
      ensures old(WindowOk(c, View())) ==> WindowOk(c, View())
      ensures gate.Pass? ==>
        && c.submitEnabled
        && (shutdown || DrainMode(c, View()) || FlushAllowed(c, View(), look(if gate.polled then 2 else 0).now))
        && (gate.polled <==> done == GateSteps(shutdown, answers, st, look))
      ensures gate.DeferAll? ==> shutdown && !(ok && lastGood.Some?)
      // A wave that is not a drain goes by an answer that has come.
      ensures gate.Pass? && gate.polled ==> ok && lastGood.Some?
      // In classic mode a wave waits out the pause after a change of m.
      ensures gate.Pass? && !shutdown && !Hybrid(c) ==> look(0).now >= old(deferUntil)
      // Nothing but a dead pool holds a pinned miner back from draining, or from its last wave.
      ensures gate.Stop? && c.submitEnabled && Hybrid(c) ==>
        !(ok || alive) || (!shutdown && !DrainMode(c, View()))
    {
      hide Update, Refresh, FlushAllowed, Pinned, Run, WindowOk;
      ghost var n0 := View();
      var first;
      first, done := PassFirst(shutdown, answers, look);
      if first.Some? { return first.value, done; }
      gate := Gate.Stop;
      DownChangesNothing(c, View(), shutdown, st, look(1).now, look(1).pending);
      done := Then(c, n0, done, Poll(shutdown, st, look(1).now, look(1).pending));
      var up := RefreshNetwork(shutdown, st, look(1));
      if !up && shutdown {
        gate := DeferAll;
        return;
      }
      if !up && (!FlushAllowed(c, View(), look(1).now) || !SaysM(View(), BagTarget(c, View()))) { return; }
      if !shutdown {
        done := Then(c, n0, done, MatchDrain.Event.Look(look(2).now, look(2).pending));
        UpdateKeepsView(c, View(), look(2).now, look(2).pending);
        UpdateMatchDrain(look(2));
      }
      var draining := active || SaysM(View(), BagTarget(c, View()));
      if !shutdown && !draining && !FlushAllowed(c, View(), look(2).now) { return; }
      gate := Pass(true);
    }

    /** The first half of try_flush_pending. A wave holds only blocks of the m it is aimed at that may be sent now, the
        earliest of the batch in its order; and that m is the last-good one if the window was sound. */
    method PlanWave(shutdown: bool, answers: bool, st: Status, look: nat -> Glance, minute: int, miningM: int)
      returns (plan: Plan, ghost gate: Gate, ghost done: seq<MatchDrain.Event>)
      modifies this
      ensures done <= GateSteps(shutdown, answers, st, look)
      ensures View() == Run(c, old(View()), done).(skipBefore := skipBefore)
      ensures !plan.NothingSendable? ==> skipBefore == Run(c, old(View()), done).skipBefore
      ensures old(WindowOk(c, View())) ==> WindowOk(c, View())
      ensures plan.SendWave? ==>
        && c.submitEnabled && plan.m == FlushTarget(c, View()) > 0
        && (old(WindowOk(c, View())) ==> lastGood == Some(plan.m))
        && plan.work == SelectWork(BatchFor(c, View(), shutdown, minute, look(3).pending),
                                   ArgsFor(c, View(), shutdown, minute, miningM), shutdown)
        && plan.work != [] && (forall pb :: pb in plan.work ==> RightFor(plan.m, minute, miningM, pb))
      ensures plan.NothingSendable? ==> plan.batch != [] && skipBefore == plan.batch[|plan.batch| - 1].id + 1
      ensures plan.DeferredAll? <==> gate.DeferAll?
      ensures plan.DeferredAll? ==> shutdown && !(ok && lastGood.Some?)
      // A wave that passes the gates is sent unless there is no m to send to or nothing to send.
      ensures plan.NoWave? ==>
        gate.Stop? || (gate.Pass?
                       && (FlushTarget(c, View()) <= 0 || BatchFor(c, View(), shutdown, minute, look(3).pending) == []))
      ensures gate.Stop? && c.submitEnabled && Hybrid(c) ==> !(ok || alive) || (!shutdown && !DrainMode(c, View()))
    {
      hide FlushBatch.ListFlushBatch, FlushAllowed, EffectiveM, Run;
      var passed;
      passed, done := PassGates(shutdown, answers, st, look);
      gate := passed;
      plan := NoWave;
      if passed.Stop? { return; }
      if passed.DeferAll? {
        plan := DeferredAll;
        return;
      }
      var m := FlushTarget(c, View());
      if m <= 0 { return; }
      var batch := BatchFor(c, View(), shutdown, minute, look(3).pending);
      if batch == [] { return; }
      var args := ArgsFor(c, View(), shutdown, minute, miningM);
      var work := ChooseWork(batch, args, shutdown);
      if work == [] {
        skipBefore := batch[|batch| - 1].id + 1;
        plan := NothingSendable(batch);
        return;
      }
      TargetOfDrain(c, View());
      ChosenRight(batch, args, shutdown);
      plan := SendWave(m, work);
    }
  }

  ghost function FirstSteps(shutdown: bool, answers: bool, look: nat -> Glance): seq<MatchDrain.Event> {
    [Probe(answers, look(0).now)]
    + (if shutdown then [] else [MatchDrain.Event.Look(look(0).now, look(0).pending)])
  }

  /** The bodies that the gates run, all of them unless a gate shuts or the wave drains. */
  ghost function GateSteps(shutdown: bool, answers: bool, st: Status, look: nat -> Glance): seq<MatchDrain.Event> {
    FirstSteps(shutdown, answers, look)
    + [Poll(shutdown, st, look(1).now, look(1).pending)]
    + (if shutdown then [] else [MatchDrain.Event.Look(look(2).now, look(2).pending)])
  }

  lemma RunNothing(c: Settings, n: Net)
    ensures Run(c, n, []) == n
  {
  }

  lemma Then(c: Settings, n: Net, done: seq<MatchDrain.Event>, e: MatchDrain.Event)
    returns (more: seq<MatchDrain.Event>)
    ensures more == done + [e]
    ensures Run(c, n, more) == Step(c, Run(c, n, done), e)
    ensures WindowOk(c, Run(c, n, done)) ==> WindowOk(c, Run(c, n, more))
  {
    more := done + [e];
    assert more[..|done|] == done;
    if WindowOk(c, Run(c, n, done)) {
      StepWindow(c, Run(c, n, done), e);
    }
  }

  datatype Gate = Stop | DeferAll | Pass(polled: bool)

  predicate RightFor(m: int, minute: int, miningM: int, pb: PendingBlock) {
    ReadyToFlush(pb.hit.blockType, minute)
    && (match pb.hit.memoryCost case Some(own) => own == m case None => miningM == m)
  }

  /** A wave never mixes in blocks of another m, even while it drains. */
  lemma ChosenRight(batch: seq<PendingBlock>, f: FlushArgs, last: bool)
    requires f.draining ==> f.bagM == f.netM
    ensures forall pb :: pb in SelectWork(batch, f, last) ==> RightFor(f.netM, f.minute, f.miningM, pb)
  {
    KeepMembers(batch, Sends(f));
    forall pb | pb in SelectWork(batch, f, last) ensures RightFor(f.netM, f.minute, f.miningM, pb) {
      assert pb in Keep(batch, Sends(f));
    }
  }

  lemma TargetOfDrain(c: Settings, n: Net)
    requires FlushTarget(c, n) > 0
    ensures WindowOk(c, n) ==> n.lastGood == Some(FlushTarget(c, n))
    ensures DrainMode(c, n) ==> BagTarget(c, n) == FlushTarget(c, n)
  {
  }

  /** A refresh that leaves the network down has learnt no difficulty. */
  lemma DownChangesNothing(c: Settings, n: Net, blocking: bool, st: Status, now: real, pending: seq<PendingBlock>)
    ensures var t := Refresh(c, n, blocking, st, now, pending);
      (t.ok && t.lastGood.Some?) || (t.lastGood == n.lastGood && t.active == n.active)
  {
  }

  lemma UpdateKeepsView(c: Settings, n: Net, now: real, pending: seq<PendingBlock>)
    ensures var t := Update(c, n, now, pending);
      t.ok == n.ok && t.lastGood == n.lastGood && t.deferUntil == n.deferUntil
  {
  }

  lemma ProbeKeepsPause(n: Net, answers: bool, now: real)
    ensures Probed(n, answers, now).deferUntil == n.deferUntil
  {
  }

  function WaveSize(c: Settings, n: Net, shutdown: bool): int {
    if shutdown then 0 else if DrainMode(c, n) then (if c.drainBatch > 0 then c.drainBatch else 0) else 64
  }

  function BatchFor(c: Settings, n: Net, shutdown: bool, minute: int, pending: seq<PendingBlock>): seq<PendingBlock> {
    var wave := WaveSize(c, n, shutdown);
    FlushBatch.ListFlushBatch(
      FlushBatch.Query(FlushTarget(c, n), BagTarget(c, n), if wave <= 0 then 0 else wave * 2, n.skipBefore, minute),
      pending)
  }

  function ArgsFor(c: Settings, n: Net, shutdown: bool, minute: int, miningM: int): FlushArgs {
    FlushArgs(minute, DrainMode(c, n), BagTarget(c, n), FlushTarget(c, n), miningM, WaveSize(c, n, shutdown))
  }

  /** The selection loop: it stops as soon as the wave is full. */
  method ChooseWork(batch: seq<PendingBlock>, f: FlushArgs, last: bool) returns (work: seq<PendingBlock>)
    ensures work == SelectWork(batch, f, last)
  {
    hide Sends;
    work := [];
    for i := 0 to |batch|
      invariant work == Keep(batch[..i], Sends(f))
      invariant !last && f.wave > 0 ==> |work| < f.wave
    {
      KeepNext(batch, i, Sends(f));
      if Sends(f)(batch[i]) {
        work := work + [batch[i]];
        if !last && f.wave > 0 && |work| >= f.wave {
          KeepConcat(batch[..i + 1], batch[i + 1..], Sends(f));
          assert batch[..i + 1] + batch[i + 1..] == batch;
          return;
        }
      }
    }
    assert batch[..|batch|] == batch;
  }
}
