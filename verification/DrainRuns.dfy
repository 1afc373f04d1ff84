/** Runs of the drain window's threads: what one body does when nothing interrupts it, and runs from the start that
    reach what DrainThreads allows (src/app/supervisor.cpp, refresh_network, update_match_drain, try_flush_pending). */
module DrainRuns {
  import opened Blocks
  import opened Seqs
  import opened Bags
  import opened MatchDrain
  import opened DrainThreads

  // ---------- One body alone ----------

  function Try(c: Settings, s: State, th: nat, act: Act): State {
    Next(c, s, Turn(th, act)).GetOr(s)
  }

  /** What a thread holds after the reads of an update that nothing overtakes. */
  function CountedNow(c: Settings, s: State): Pc {
    Counted(Reads(SaysM(s.net, c.forceM), None, LeftM(s.net, c.forceM), None,
                  |Pinned(c, s.bag)|, Pinned(c, s.bag), []))
  }

  function ReadsAlone(c: Settings, s: State, th: nat): State {
    Try(c, Try(c, Try(c, s, th, ReadMatch), th, ReadLeft), th, CountBag)
  }

  function DecidesAlone(c: Settings, s: State, th: nat, now: real): State {
    Try(c, Try(c, s, th, LoadFlag(now)), th, ReadEnd)
  }

  function StoresAlone(c: Settings, s: State, th: nat): State {
    Try(c, Try(c, Try(c, s, th, StoreFlag), th, StoreEnd), th, StoreSkip)
  }

  /** The steps of an update in the order of its body; those of the branches that it does not take fall out. */
  function Alone(c: Settings, s: State, th: nat, now: real): State {
    StoresAlone(c, DecidesAlone(c, ReadsAlone(c, s, th), th, now), th)
  }

  predicate MayUpdate(s: State, th: nat) {
    th < |s.threads| && (s.threads[th].Free? || s.threads[th].Absorbed?)
  }

  lemma ReadsAloneGives(c: Settings, s: State, th: nat)
    requires MayUpdate(s, th) && DrainPossible(c)
    ensures ReadsAlone(c, s, th) == Goto(s, th, CountedNow(c, s))
  {
    hide Pinned;
  }

  lemma StoresAloneGives(c: Settings, s: State, th: nat)
    requires th < |s.threads| && (s.threads[th].Opening? || s.threads[th].Closing?)
    ensures var pc := s.threads[th];
      var t := StoresAlone(c, s, th);
      && t.net == (if pc.Opening? then s.net.(active := true, until := EndFor(c, pc.now), skipBefore := 0)
                   else s.net.(active := false, until := 0.0))
      && t.threads == (if pc.Opening? then Renewed(s.threads) else s.threads)[th := Free]
      && t.bag == s.bag && t.owing == Paid(s.owing, th)
      && t.astray == (pc.Opening? && pc.since.Some? && pc.since.value != c.forceM)
      && t.ends == (if pc.Opening? then EndFor(c, pc.now) else s.ends)
      && (pc.Opening? ==> t.clock == Set)
  {
  }

  lemma DecidesAloneGives(c: Settings, s: State, th: nat, now: real)
    requires th < |s.threads| && s.threads[th] == CountedNow(c, s)
    ensures var t := DecidesAlone(c, s, th, now);
      && t.net == s.net && th < |t.threads|
      && (t.threads[th].Opening? || t.threads[th].Closing? || t.threads[th].Free?)
      && (t.threads[th].Opening? ==> t.threads[th].now == now)
      && (DrainPossible(c) ==>
            Update(c, s.net, now, s.bag) ==
              match t.threads[th]
              case Opening(_, _) => s.net.(active := true, until := EndFor(c, now), skipBefore := 0)
              case Closing(_, _, _, _) => s.net.(active := false, until := 0.0)
              case _ => s.net)
  {
    hide Pinned;
  }

  lemma SameCount(c: Settings, s: State, th: nat)
    requires th < |s.threads|
    ensures var r := Goto(s, th, CountedNow(c, s));
      r.threads[th] == CountedNow(c, r) && r.net == s.net && r.bag == s.bag
  {
  }

  lemma FreeStoresNothing(c: Settings, s: State, th: nat)
    requires th < |s.threads| && s.threads[th].Free?
    ensures StoresAlone(c, s, th) == s
  {
  }

  lemma FreeReadsNothing(c: Settings, s: State, th: nat, now: real)
    requires MayUpdate(s, th) && !DrainPossible(c)
    ensures var t := Alone(c, s, th, now);
      t.net == s.net.(active := false) && th < |t.threads| && t.threads[th].Free?
  {
    var a := Done(s, th).(net := s.net.(active := false), astray := false);
    assert Try(c, s, th, ReadMatch) == a;
    FreeStoresNothing(c, a, th);
  }

  /** An update whose steps are not interrupted does what the whole body does. */
  lemma AloneIsUpdate(c: Settings, s: State, th: nat, now: real)
    requires MayUpdate(s, th)
    ensures var t := Alone(c, s, th, now);
      t.net == Update(c, s.net, now, s.bag) && th < |t.threads| && t.threads[th].Free?
  {
    if DrainPossible(c) {
      hide ReadsAlone, DecidesAlone, StoresAlone, Update, CountedNow;
      ReadsAloneGives(c, s, th);
      var r := Goto(s, th, CountedNow(c, s));
      SameCount(c, s, th);
      DecidesAloneGives(c, r, th, now);
      var d := DecidesAlone(c, r, th, now);
      if d.threads[th].Free? {
        FreeStoresNothing(c, d, th);
      } else {
        StoresAloneGives(c, d, th);
      }
    } else {
      FreeReadsNothing(c, s, th, now);
    }
  }

  lemma TryInv(c: Settings, s: State, th: nat, act: Act)
    requires Inv(c, s)
    ensures Inv(c, Try(c, s, th, act))
  {
    hide Inv, Next;
    if Next(c, s, Turn(th, act)).Some? {
      NextInv(c, s, Turn(th, act), Try(c, s, th, act));
    }
  }

  lemma AloneInv(c: Settings, s: State, th: nat, now: real)
    requires Inv(c, s)
    ensures Inv(c, Alone(c, s, th, now))
  {
    hide Inv, Try;
    var a := Try(c, s, th, ReadMatch);
    var b := Try(c, a, th, ReadLeft);
    var d := Try(c, b, th, CountBag);
    var e := Try(c, d, th, LoadFlag(now));
    var f := Try(c, e, th, ReadEnd);
    var g := Try(c, f, th, StoreFlag);
    var h := Try(c, g, th, StoreEnd);
    TryInv(c, s, th, ReadMatch);
    TryInv(c, a, th, ReadLeft);
    TryInv(c, b, th, CountBag);
    TryInv(c, d, th, LoadFlag(now));
    TryInv(c, e, th, ReadEnd);
    TryInv(c, f, th, StoreFlag);
    TryInv(c, g, th, StoreEnd);
    TryInv(c, h, th, StoreSkip);
  }

  /** Any update that runs alone while the network is up shuts a window that is not at the last-good m. */
  lemma NextUpdateShuts(c: Settings, s: State, th: nat, now: real)
    requires Inv(c, s) && s.net.active && s.net.ok && s.net.lastGood != Some(c.forceM)
    requires MayUpdate(s, th)
    ensures var t := Alone(c, s, th, now); !t.net.active && !t.astray
  {
    hide Alone, Pinned, ThreadsOk;
    AloneIsUpdate(c, s, th, now);
    AloneInv(c, s, th, now);
  }

  // ---------- That it happens ----------

  ghost predicate Reached(c: Settings, nthreads: nat, s: State) {
    exists turns :: After(c, Start(nthreads), turns) == Some(s)
  }

  lemma TryReached(c: Settings, nthreads: nat, s: State, th: nat, act: Act)
    requires Reached(c, nthreads, s)
    ensures Reached(c, nthreads, Try(c, s, th, act))
  {
    hide Next, Start;
    var turns :| After(c, Start(nthreads), turns) == Some(s);
    if Next(c, s, Turn(th, act)).Some? {
      assert (turns + [Turn(th, act)])[..|turns|] == turns;
      assert After(c, Start(nthreads), turns + [Turn(th, act)]) == Next(c, s, Turn(th, act));
    }
  }

  lemma ReadsReached(c: Settings, nthreads: nat, s: State, th: nat)
    requires Reached(c, nthreads, s)
    ensures Reached(c, nthreads, ReadsAlone(c, s, th))
  {
    hide Reached, Try;
    var a := Try(c, s, th, ReadMatch);
    TryReached(c, nthreads, s, th, ReadMatch);
    TryReached(c, nthreads, a, th, ReadLeft);
    TryReached(c, nthreads, Try(c, a, th, ReadLeft), th, CountBag);
  }

  lemma DecidesReached(c: Settings, nthreads: nat, s: State, th: nat, now: real)
    requires Reached(c, nthreads, s)
    ensures Reached(c, nthreads, DecidesAlone(c, s, th, now))
  {
    hide Reached, Try;
    TryReached(c, nthreads, s, th, LoadFlag(now));
    TryReached(c, nthreads, Try(c, s, th, LoadFlag(now)), th, ReadEnd);
  }

  lemma StoresReached(c: Settings, nthreads: nat, s: State, th: nat)
    requires Reached(c, nthreads, s)
    ensures Reached(c, nthreads, StoresAlone(c, s, th))
  {
    hide Reached, Try;
    var a := Try(c, s, th, StoreFlag);
    TryReached(c, nthreads, s, th, StoreFlag);
    TryReached(c, nthreads, a, th, StoreEnd);
    TryReached(c, nthreads, Try(c, a, th, StoreEnd), th, StoreSkip);
  }

  lemma AloneReached(c: Settings, nthreads: nat, s: State, th: nat, now: real)
    requires Reached(c, nthreads, s)
    ensures Reached(c, nthreads, Alone(c, s, th, now))
  {
    hide Reached, ReadsAlone, DecidesAlone, StoresAlone;
    var a := ReadsAlone(c, s, th);
    ReadsReached(c, nthreads, s, th);
    DecidesReached(c, nthreads, a, th, now);
    StoresReached(c, nthreads, DecidesAlone(c, a, th, now), th);
  }

  /** A poll that returns a plausible number. */
  function Polled(c: Settings, s: State, th: nat, raw: int, now: real): State {
    Try(c, Try(c, s, th, CheckSeq(true, Status(Some(raw), 0))), th, Store(now))
  }

  lemma PolledGives(c: Settings, s: State, th: nat, raw: int, now: real)
    requires th < |s.threads| && s.threads[th].Free? && Plausible(raw)
    ensures var t := Polled(c, s, th, raw, now);
      && t.net == Absorb(c, s.net, raw, now) && t.net.lastGood == Some(raw)
      && t == s.(net := t.net, threads := Overtaken(s.threads, raw)[th := Absorbed],
                 owing := Some(Debt(th, raw)), astray := s.astray && raw != c.forceM)
  {
    var a := Goto(s, th, HasAnswer(Status(Some(raw), 0)));
    assert Try(c, s, th, CheckSeq(true, Status(Some(raw), 0))) == a;
    assert Overtaken(a.threads, raw)[th := Absorbed]
        == Overtaken(s.threads, raw)[th := Absorbed];
  }

  lemma PolledReached(c: Settings, nthreads: nat, s: State, th: nat, raw: int, now: real)
    requires Reached(c, nthreads, s)
    ensures Reached(c, nthreads, Polled(c, s, th, raw, now))
  {
    hide Reached, Try;
    var act := CheckSeq(true, Status(Some(raw), 0));
    TryReached(c, nthreads, s, th, act);
    TryReached(c, nthreads, Try(c, s, th, act), th, Store(now));
  }

  /** A poll that fails. */
  function Missed(c: Settings, s: State, th: nat, now: real): State {
    Try(c, Try(c, s, th, CheckSeq(true, Status(None, 0))), th, Store(now))
  }

  lemma MissedGives(c: Settings, nthreads: nat, s: State, th: nat, now: real)
    requires Reached(c, nthreads, s) && th < |s.threads| && s.threads[th].Free?
    ensures Reached(c, nthreads, Missed(c, s, th, now))
    ensures Missed(c, s, th, now) == s.(net := Miss(c, s.net, now))
  {
    hide Reached, Miss;
    var act := CheckSeq(true, Status(None, 0));
    var a := Goto(s, th, HasAnswer(Status(None, 0)));
    TryReached(c, nthreads, s, th, act);
    TryReached(c, nthreads, Try(c, s, th, act), th, Store(now));
    assert Try(c, s, th, act) == a;
    assert a.threads[th := Free] == s.threads;
  }

  // ---------- Two threads and one block ----------

  /** Settings that open the window for one block. */
  predicate Eager(c: Settings, pb: PendingBlock) {
    DrainPossible(c) && Plausible(c.forceM) && c.minQueue <= 1 && MatchesM(c.forceM, c.forceM)(pb)
  }

  lemma OneCounts(c: Settings, pb: PendingBlock)
    requires MatchesM(c.forceM, c.forceM)(pb)
    ensures Pinned(c, [pb]) == [pb]
  {
    assert [pb] == [] + [pb];
    KeepSnoc([], pb, MatchesM(c.forceM, c.forceM));
  }

  /** Thread 0 may open the window for the one block. */
  predicate Ready(c: Settings, s: State, pb: PendingBlock) {
    |s.threads| == 2 && MayUpdate(s, 0) && s.bag == [pb] && !s.net.active && s.net.lastGood == Some(c.forceM)
  }

  /** And has opened it. */
  predicate OpenedFrom(c: Settings, s: State, t: State, now: real) {
    && |s.threads| == 2 && t.threads == [Free, s.threads[1]] && t.bag == s.bag
    && t.net == s.net.(active := true, until := EndFor(c, now), skipBefore := 0)
    && t.owing == Paid(s.owing, 0) && !t.astray && t.ends == EndFor(c, now) && t.clock == Set
  }

  lemma OpensFor(c: Settings, s: State, pb: PendingBlock, now: real)
    requires Eager(c, pb) && Ready(c, s, pb) && !s.threads[1].Closing?
    ensures OpenedFrom(c, s, Alone(c, s, 0, now), now)
  {
    ReadsAloneGives(c, s, 0);
    OneCounts(c, pb);
    OpensDecides(c, s, now);
    var b := Goto(s, 0, Opening(None, now));
    StoresAloneGives(c, b, 0);
    assert Renewed(b.threads)[0 := Free] == [Free, s.threads[1]];
  }

  lemma OpensDecides(c: Settings, s: State, now: real)
    requires c.minQueue <= 1 && c.forceM > 0 && |s.threads| == 2
    requires !s.net.active && s.net.lastGood == Some(c.forceM) && |Pinned(c, s.bag)| == 1
    ensures DecidesAlone(c, Goto(s, 0, CountedNow(c, s)), 0, now) == Goto(s, 0, Opening(None, now))
  {
    var a := Goto(s, 0, CountedNow(c, s));
    assert a.threads[0 := Opening(None, now)] == s.threads[0 := Opening(None, now)];
  }

  /** Thread 0 has stored the pinned m, and nothing else has happened. */
  lemma StartPolled(c: Settings)
    requires DrainPossible(c) && Plausible(c.forceM)
    ensures var s := Polled(c, Start(2), 0, c.forceM, 1.0);
      && Reached(c, 2, s) && s.threads == [Absorbed, Free] && s.bag == []
      && s.net == Absorb(c, FRESH, c.forceM, 1.0) && s.net.lastGood == Some(c.forceM)
      && s.owing == Some(Debt(0, c.forceM)) && !s.astray
  {
    assert After(c, Start(2), []) == Some(Start(2));
    PolledReached(c, 2, Start(2), 0, c.forceM, 1.0);
    PolledGives(c, Start(2), 0, c.forceM, 1.0);
    assert Overtaken(Start(2).threads, c.forceM)[0 := Absorbed] == [Absorbed, Free];
  }

  /** The window is open for one block, and nothing is under way. */
  predicate OpenForOne(c: Settings, s: State, pb: PendingBlock) {
    && s.threads == [Free, Free] && s.bag == [pb] && s.owing == None && !s.astray && s.clock == Set
    && s.net.active && s.net.lastGood == Some(c.forceM) && s.net.ok && s.net.okAt == 1.0 && s.net.failStreak == 0
    && s.net.until == EndFor(c, 1.0) == s.ends
  }

  lemma OpenReached(c: Settings, pb: PendingBlock) returns (s: State)
    requires Eager(c, pb)
    ensures Reached(c, 2, s) && OpenForOne(c, s, pb)
  {
    hide Reached;
    var p := Polled(c, Start(2), 0, c.forceM, 1.0);
    StartPolled(c);
    var a := Try(c, p, 0, Add(pb));
    TryReached(c, 2, p, 0, Add(pb));
    AddsTo(c, p, pb);
    OpensFor(c, a, pb, 1.0);
    s := Alone(c, a, 0, 1.0);
    AloneReached(c, 2, a, 0, 1.0);
  }

  lemma AddsTo(c: Settings, s: State, pb: PendingBlock)
    requires |s.threads| > 0 && s.bag == [] && MatchesM(c.forceM, c.forceM)(pb)
    ensures Try(c, s, 0, Add(pb)) == s.(bag := [pb], threads := EachReads(s.threads, Gained(pb)))
  {
  }

  // ---------- That it happens ----------

  /** Without any stale read: when an answer with another m is stored under an open window, a wave of another thread
      is aimed at the pinned m until the update has closed the window. */
  lemma StoreMisaims(c: Settings, s: State, poller: nat, sender: nat, raw: int, now: real)
    requires Inv(c, s) && s.net.active && poller != sender
    requires poller < |s.threads| && s.threads[poller].Free?
    requires sender < |s.threads| && s.threads[sender].Free? && Plausible(raw) && raw != c.forceM
    ensures var t := Misaimed(c, s, poller, sender, raw, now);
      && sender < |t.threads| && t.threads[sender] == Aimed(c.forceM, true, None)
      && t.net.active && t.net.lastGood == Some(raw)
  {
    hide ThreadsOk, DebtOk, ClockOk, Absorb;
    var t := Polled(c, s, poller, raw, now);
    PolledGives(c, s, poller, raw, now);
    assert t.net.active by { AbsorbGives(c, s.net, raw, now); }
    assert t.threads[sender] == Overtaken(s.threads, raw)[sender] == Free;
    assert t.owing == Some(Debt(poller, raw)) && Off(c, t) && DrainPossible(c);
    assert Try(c, t, sender, LoadActive) == Goto(t, sender, Moded(true, true, None));
  }

  function Misaimed(c: Settings, s: State, poller: nat, sender: nat, raw: int, now: real): State {
    Try(c, Try(c, Polled(c, s, poller, raw, now), sender, LoadActive), sender, ReadTarget)
  }

  lemma MisaimReached(c: Settings, pb: PendingBlock, raw: int)
    requires Eager(c, pb) && Plausible(raw) && raw != c.forceM
    ensures exists s ::
      && Reached(c, 2, s) && |s.threads| == 2 && s.threads[1] == Aimed(c.forceM, true, None)
      && s.net.active && s.net.lastGood == Some(raw)
  {
    hide Reached, Polled, Inv, Alone;
    var o := OpenReached(c, pb);
    ReachedInv(c, 2, o);
    var t := Polled(c, o, 0, raw, 1.0);
    PolledReached(c, 2, o, 0, raw, 1.0);
    StoreMisaims(c, o, 0, 1, raw, 1.0);
    TryReached(c, 2, t, 1, LoadActive);
    TryReached(c, 2, Try(c, t, 1, LoadActive), 1, ReadTarget);
    var m := Misaimed(c, o, 0, 1, raw, 1.0);
    ReachedInv(c, 2, m);
  }

  lemma ReachedInv(c: Settings, nthreads: nat, s: State)
    requires Reached(c, nthreads, s)
    ensures Inv(c, s) && |s.threads| == nthreads
  {
    hide After, Inv, Start;
    var turns :| After(c, Start(nthreads), turns) == Some(s);
    AfterInv(c, nthreads, turns);
    ThreadsStay(c, nthreads, turns);
  }

  lemma {:induction false} ThreadsStay(c: Settings, nthreads: nat, turns: seq<Turn>)
    requires After(c, Start(nthreads), turns).Some?
    ensures |After(c, Start(nthreads), turns).value.threads| == nthreads
  {
    hide Next;
    if turns != [] {
      var n := |turns| - 1;
      ThreadsStay(c, nthreads, turns[..n]);
      NextThreads(c, After(c, Start(nthreads), turns[..n]).value, turns[n]);
    }
  }

  lemma NextThreads(c: Settings, s: State, turn: Turn)
    ensures Next(c, s, turn).Some? ==> |Next(c, s, turn).value.threads| == |s.threads|
  {
    hide AlreadySeen, Pinned, Absorb, Miss, MatchDrain.Step;
  }

  /** Nor is a stale read needed for a window to go astray: the update of the very thread that stored the answer leaves
      it open when the network counts as down. */
  lemma DownLookStrays(c: Settings, s: State, th: nat, now: real)
    requires Inv(c, s) && s.net.active && !s.net.ok && !TimedOut(c, s.net, now)
    requires th < |s.threads| && s.threads[th].Absorbed? && Owes(s, th) && s.owing.value.m != c.forceM
    ensures var t := Alone(c, s, th, now);
      && t.net == s.net && t.threads == s.threads[th := Free] && t.astray && t.owing == None && t.bag == s.bag
  {
    hide ThreadsOk, ClockOk, Pinned;
    ReadsAloneGives(c, s, th);
    var a := Goto(s, th, CountedNow(c, s));
    DownLookDecides(c, s, a, th, now);
    FreeStoresNothing(c, DecidesAlone(c, a, th, now), th);
  }

  lemma DownLookDecides(c: Settings, s: State, a: State, th: nat, now: real)
    requires s.net.active && !s.net.ok && !TimedOut(c, s.net, now) && s.net.lastGood != Some(c.forceM)
    requires th < |s.threads| && Owes(s, th) && s.owing.value.m != c.forceM && a == Goto(s, th, CountedNow(c, s))
    ensures DecidesAlone(c, a, th, now) == Goto(s, th, Free).(owing := None, astray := true)
  {
    hide Pinned;
    assert a.threads[th := Free] == s.threads[th := Free];
    var b := Try(c, a, th, LoadFlag(now));
    assert b.threads[th := Free] == s.threads[th := Free];
  }

  /** Three failed polls of another thread between the store and the update are enough. */
  lemma DownLookReached(c: Settings, pb: PendingBlock, raw: int)
    requires Eager(c, pb) && Plausible(raw) && raw != c.forceM
    ensures exists s ::
      && Reached(c, 2, s) && s.threads == [Free, Free] && s.owing == None
      && s.net.active && s.astray && s.net.lastGood == Some(raw) && Pinned(c, s.bag) == [pb]
  {
    hide Reached, Polled, Inv, Alone, Missed;
    var o := OpenReached(c, pb);
    OneCounts(c, pb);
    PolledReached(c, 2, o, 0, raw, 1.0);
    PolledGives(c, o, 0, raw, 1.0);
    var p := Polled(c, o, 0, raw, 1.0);
    assert Overtaken(o.threads, raw)[0 := Absorbed] == [Absorbed, Free];
    MissedGives(c, 2, p, 1, 1.0);
    var q := Missed(c, p, 1, 1.0);
    MissedGives(c, 2, q, 1, 1.0);
    var r := Missed(c, q, 1, 1.0);
    MissedGives(c, 2, r, 1, 1.0);
    var d := Missed(c, r, 1, 1.0);
    ReachedInv(c, 2, d);
    AloneReached(c, 2, d, 0, 1.0);
    DownLookStrays(c, d, 0, 1.0);
  }

  /** An update of thread 1 that has counted no block, at the pinned m. */
  function CountedEarly(added: seq<PendingBlock>): Pc {
    Counted(Reads(true, None, false, None, 0, [], added))
  }

  lemma EarlyDecides(c: Settings, s: State, added: seq<PendingBlock>, now: real)
    requires s.net.active && !TimedOut(c, s.net, now) && s.clock == Set && s.threads == [Free, CountedEarly(added)]
    ensures DecidesAlone(c, s, 1, now)
         == s.(threads := [Free, Closing(Reads(true, None, false, None, 0, [], added), now, false, true)])
  {
    var r := Reads(true, None, false, None, 0, [], added);
    assert Try(c, s, 1, LoadFlag(now)) == s.(threads := [Free, Timing(r, now)]);
  }

  /** At ordinary settings a window is shut against the present state, without a time budget and without any answer but
      the pinned m: an update counts no block, a block is added, another thread opens the window for it, and the first
      thread goes on and shuts it. */
  lemma ShutOnOldCount(c: Settings, pb: PendingBlock)
    requires Eager(c, pb)
    ensures exists s ::
      && Reached(c, 2, s) && s.net.active && |s.threads| == 2
      && s.threads[1].Closing? && s.threads[1].right && !s.threads[1].timed
      && WorthOpen(c, s, s.threads[1].now) && !Try(c, s, 1, StoreFlag).net.active
  {
    hide Reached, Polled, Alone, ReadsAlone, DecidesAlone, Absorb, Pinned;
    var p := Polled(c, Start(2), 0, c.forceM, 1.0);
    StartPolled(c);
    FreshAnswer(c);
    var q := ReadsAlone(c, p, 1);
    ReadsReached(c, 2, p, 1);
    ReadsAloneGives(c, p, 1);
    NoneCount(c);
    assert q.threads == [Absorbed, CountedEarly([])];
    var a := Try(c, q, 0, Add(pb));
    TryReached(c, 2, q, 0, Add(pb));
    AddsTo(c, q, pb);
    assert EachReads(q.threads, Gained(pb)) == [Absorbed, CountedEarly([pb])];
    var o := Alone(c, a, 0, 1.0);
    AloneReached(c, 2, a, 0, 1.0);
    OpensFor(c, a, pb, 1.0);
    var s := DecidesAlone(c, o, 1, 1.0);
    DecidesReached(c, 2, o, 1, 1.0);
    EarlyDecides(c, o, [pb], 1.0);
    OneCounts(c, pb);
  }

  /** Or an update reads a mismatch, another thread stores the pinned m again, and the first thread goes on. */
  lemma ShutOnOldMismatch(c: Settings, pb: PendingBlock, raw: int)
    requires Eager(c, pb) && Plausible(raw) && raw != c.forceM
    ensures exists s ::
      && Reached(c, 2, s) && s.net.active && |s.threads| == 2
      && s.threads[1].Closing? && s.threads[1].right && !s.threads[1].timed && s.threads[1].r.added == []
      && WorthOpen(c, s, s.threads[1].now) && !Try(c, s, 1, StoreFlag).net.active
  {
    hide Reached, Polled, Alone, Pinned;
    var o := OpenReached(c, pb);
    var p := Polled(c, o, 1, raw, 1.0);
    PolledReached(c, 2, o, 1, raw, 1.0);
    PolledGives(c, o, 1, raw, 1.0);
    assert Overtaken(o.threads, raw)[1 := Absorbed] == [Free, Absorbed];
    var q := Try(c, Try(c, p, 1, ReadMatch), 1, ReadLeft);
    TryReached(c, 2, p, 1, ReadMatch);
    TryReached(c, 2, Try(c, p, 1, ReadMatch), 1, ReadLeft);
    assert q == p.(threads := [Free, Looked(Reads(false, None, true, None, 0, [], []))]);
    var a := Polled(c, q, 0, c.forceM, 1.0);
    PolledReached(c, 2, q, 0, c.forceM, 1.0);
    PolledGives(c, q, 0, c.forceM, 1.0);
    var pin := Some(c.forceM);
    assert Overtaken(q.threads, c.forceM)[0 := Absorbed]
        == [Absorbed, Looked(Reads(false, pin, true, pin, 0, [], []))];
    var b := Try(c, a, 1, CountBag);
    TryReached(c, 2, a, 1, CountBag);
    var r := Reads(false, pin, true, pin, 1, [pb], []);
    OneCounts(c, pb);
    assert b == a.(threads := [Absorbed, Counted(r)]);
    DecidesReached(c, 2, b, 1, 1.0);
    MismatchDecides(c, b, r, 1.0);
  }

  lemma MismatchDecides(c: Settings, s: State, r: Reads, now: real)
    requires s.net.active && !TimedOut(c, s.net, now) && s.clock == Set && r.left
    requires s.threads == [Absorbed, Counted(r)]
    ensures DecidesAlone(c, s, 1, now) == s.(threads := [Absorbed, Closing(r, now, false, true)])
  {
    assert Try(c, s, 1, LoadFlag(now)) == s.(threads := [Absorbed, Timing(r, now)]);
  }

  lemma FreshAnswer(c: Settings)
    ensures var n := Absorb(c, FRESH, c.forceM, 1.0); n.ok && !n.active
  {
  }

  lemma NoneCount(c: Settings)
    ensures Pinned(c, []) == []
  {
  }

  /** The budget of an open window is wiped when the thread that shut the one before stores its end late: the window
      then has no end, whatever the time. */
  lemma WipedBudgetReached(c: Settings, pb: PendingBlock)
    requires Eager(c, pb) && c.maxSeconds > 0
    ensures exists s ::
      && Reached(c, 2, s) && s.threads == [Free, Free] && s.net.active && s.ends > 0.0
      && (forall now :: !TimedOut(c, s.net, now))
  {
    hide Reached, Alone, ReadsAlone, DecidesAlone, Absorb, Pinned;
    var o := OpenReached(c, pb);
    var e := Try(c, o, 0, Take([pb.id]));
    TryReached(c, 2, o, 0, Take([pb.id]));
    TakesFrom(c, o, pb);
    var q := ReadsAlone(c, e, 1);
    ReadsReached(c, 2, e, 1);
    ReadsAloneGives(c, e, 1);
    NoneCount(c);
    assert q.threads == [Free, CountedEarly([])];
    var d := DecidesAlone(c, q, 1, 1.0);
    DecidesReached(c, 2, q, 1, 1.0);
    EarlyDecides(c, q, [], 1.0);
    var f := Try(c, d, 1, StoreFlag);
    TryReached(c, 2, d, 1, StoreFlag);
    assert f == d.(threads := [Free, Closed], net := d.net.(active := false), owing := None, astray := false);
    var a := Try(c, f, 0, Add(pb));
    TryReached(c, 2, f, 0, Add(pb));
    AddsTo(c, f, pb);
    assert EachReads(f.threads, Gained(pb)) == [Free, Closed];
    var r := Alone(c, a, 0, 1.0);
    AloneReached(c, 2, a, 0, 1.0);
    OpensFor(c, a, pb, 1.0);
    var s := Try(c, r, 1, StoreEnd);
    TryReached(c, 2, r, 1, StoreEnd);
    assert s.threads == [Free, Free] && s.net.until == 0.0;
  }

  lemma TakesFrom(c: Settings, s: State, pb: PendingBlock)
    requires s.threads == [Free, Free] && s.bag == [pb]
    ensures Try(c, s, 0, Take([pb.id])) == s.(bag := [])
  {
    assert pb.id in [pb.id];
    assert Keep([pb], Not(IdIn([pb.id]))) == [];
    assert EachReads(s.threads, Stripped(Not(IdIn([pb.id])))) == [Free, Free];
  }

  /** A status that any thread has taken up is not taken up again by a poll that does not wait, until another one is. */
  lemma TakenUpOnce(c: Settings, s: State, th: nat, blocking: bool, st: Status, t: State, other: nat)
    requires Next(c, s, Turn(th, CheckSeq(blocking, st))) == Some(t) && st.seqNo != 0
    requires other < |t.threads| && t.threads[other].Free?
    ensures Next(c, t, Turn(other, CheckSeq(false, st))) == Some(t)
    ensures forall next: Status :: next.seqNo != 0 && next.seqNo != st.seqNo ==>
      Try(c, t, other, CheckSeq(false, next)).threads[other] == HasAnswer(next)
  {
  }

  /** A thread that has sent its wave aims the next one at what it then reads. */
  lemma AimsAnew(c: Settings, s: State, th: nat, t: State)
    requires Next(c, s, Turn(th, Send)) == Some(t)
    ensures t.net == s.net && t.bag == s.bag
    ensures Try(c, t, th, LoadActive).threads[th]
         == if s.net.active then Moded(true, Off(c, s), None) else Asking
  {
  }
}
