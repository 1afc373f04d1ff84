/** The drain window when the bodies that move it overlap: any number of threads poll, update the window and aim flush
    waves, one access to shared state at a time (src/app/supervisor.cpp, refresh_network, update_match_drain and the
    reads of try_flush_pending). Other threads add blocks to the bag and take blocks out meanwhile; of a block only what
    the count looks at matters here, so notes on blocks are left out. */
module DrainThreads {
  import opened Blocks
  import opened Seqs
  import opened Bags
  import opened MatchDrain

  /** What an update has read so far, and what has overtaken it: the last answer stored since the read of the match and
      since the read of the mismatch, and the pinned blocks that it counted and that came later, less those taken. */
  datatype Reads = Reads(
    matches: bool, since: Option<int>,
    left: bool, sinceLeft: Option<int>,
    queue: nat, held: seq<PendingBlock>, added: seq<PendingBlock>)

  /** Where a thread is. */
  datatype Pc =
    | Free
    | HasAnswer(st: Status)                          // has checked the sequence number; will store
    | Absorbed                                       // has stored a number; the update is next
    | Matched(r: Reads)                              // has read whether the last-good m is the pinned one
    | Looked(r: Reads)                               // and whether the network has left it
    | Counted(r: Reads)                              // and how much waits
    | Timing(r: Reads, now: real)                    // saw the window open; will read its end
    | Opening(since: Option<int>, now: real)         // saw the window shut; will open it
    | Closing(r: Reads, now: real, timed: bool, right: bool)   // will shut it; right: the end it read is this window's
    | Opened(end: real)                              // has opened it; will store its end
    | Resetting                                      // and will reset the rotation point
    | Closed                                         // has shut it; will clear its end
    | Asking                                         // aims a wave; saw the window shut
    | Moded(draining: bool, off: bool, since: Option<int>)
    | Aimed(target: int, off: bool, since: Option<int>)

  /** A thread that has stored the latest answer and has not yet moved the window after it. */
  datatype Debt = Debt(thread: nat, m: int)

  /** Whose end is stored in until: the present window's; the present window's opener has yet to store it; or a thread
      that was late has stored another one after it. */
  datatype Clock = Set | Due(thread: nat) | Lost

  datatype State = State(
    net: Net,
    bag: seq<PendingBlock>,
    threads: seq<Pc>,
    // history
    owing: Option<Debt>,
    astray: bool,        // an update opened or left open the window against the latest answer; see Strays
    ends: real,          // the end that the latest opening gave the window; zero for none
    clock: Clock)

  function Start(nthreads: nat): State {
    State(FRESH, [], seq(nthreads, _ => Free), None, false, 0.0, Set)
  }

  datatype Act =
    | CheckSeq(blocking: bool, st: Status)
    | Store(now: real)
    | ReadMatch | ReadLeft | CountBag | LoadFlag(now: real) | ReadEnd
    | StoreFlag | StoreEnd | StoreSkip
    | LoadActive | AskMatch | ReadTarget | Send
    | Aside(e: Event)            // answers to submits, probes and the like
    | Add(pb: PendingBlock)      // an enqueue
    | Take(ids: seq<int>)        // a removal

  datatype Turn = Turn(thread: nat, act: Act)

  /** The window, if it is open, is set against the latest answer. */
  predicate Off(c: Settings, s: State) {
    (s.owing.Some? && s.owing.value.m != c.forceM) || s.astray
  }

  // ---------- How a step of one thread overtakes the reads of the others ----------

  function OnReads(f: Reads -> Reads, pc: Pc): Pc {
    match pc
    case Matched(r) => Matched(f(r))
    case Looked(r) => Looked(f(r))
    case Counted(r) => Counted(f(r))
    case Timing(r, now) => Timing(f(r), now)
    case Closing(r, now, timed, right) => Closing(f(r), now, timed, right)
    case _ => pc
  }

  function Answered(m: int): Reads -> Reads {
    (r: Reads) => r.(since := Some(m), sinceLeft := Some(m))
  }

  /** A stored answer. */
  function WithSince(pc: Pc, m: int): Pc {
    match pc
    case Opening(_, now) => Opening(Some(m), now)
    case Moded(draining, off, _) => Moded(draining, off, Some(m))
    case Aimed(target, off, _) => Aimed(target, off, Some(m))
    case _ => OnReads(Answered(m), pc)
  }

  function Overtaken(threads: seq<Pc>, m: int): (t: seq<Pc>)
    ensures |t| == |threads|
  {
    Map((pc: Pc) => WithSince(pc, m), threads)
  }

  function Gained(pb: PendingBlock): Reads -> Reads {
    (r: Reads) => r.(added := r.added + [pb])
  }

  function Stripped(stays: PendingBlock -> bool): Reads -> Reads {
    (r: Reads) => r.(held := Keep(r.held, stays), added := Keep(r.added, stays))
  }

  function EachReads(threads: seq<Pc>, f: Reads -> Reads): (t: seq<Pc>)
    ensures |t| == |threads|
  {
    Map((pc: Pc) => OnReads(f, pc), threads)
  }

  /** A new window: the ends that closers have read are not its own. */
  function Renewed(threads: seq<Pc>): (t: seq<Pc>)
    ensures |t| == |threads|
  {
    Map((pc: Pc) => if pc.Closing? then pc.(right := false) else pc, threads)
  }

  // ---------- Steps ----------

  function Paid(owing: Option<Debt>, th: nat): Option<Debt> {
    if owing.Some? && owing.value.thread == th then None else owing
  }

  predicate Owes(s: State, th: nat) {
    s.owing.Some? && s.owing.value.thread == th
  }

  function Goto(s: State, th: nat, pc: Pc): State
    requires th < |s.threads|
  {
    s.(threads := s.threads[th := pc])
  }

  /** The end of an update that leaves the window alone. */
  function Done(s: State, th: nat): State
    requires th < |s.threads|
  {
    Goto(s, th, Free).(owing := Paid(s.owing, th))
  }

  predicate Positive(m: Option<int>) {
    m.Some? && m.value > 0
  }

  /** The answer replaces the last-good m; otherwise the last-good m stays. */
  predicate Effective(n: Net, raw: int) {
    Plausible(raw) || !Positive(n.lastGood)
  }

  function StoreNext(c: Settings, s: State, th: nat, st: Status, now: real): State
    requires th < |s.threads|
  {
    match st.difficulty
    case None => Goto(s, th, Free).(net := Miss(c, s.net, now))
    case Some(raw) =>
      var t := s.(net := Absorb(c, s.net, raw, now));
      if Effective(s.net, raw) then
        var m := t.net.lastGood.value;
        Goto(t.(threads := Overtaken(s.threads, m), owing := Some(Debt(th, m)),
                astray := s.astray && m != c.forceM), th, Absorbed)
      else Goto(t, th, Absorbed)
  }

  predicate HasReason(r: Reads, timed: bool) {
    (r.matches && r.queue == 0) || timed || r.left
  }

  function LoadFlagNext(c: Settings, s: State, th: nat, now: real): State
    requires th < |s.threads| && s.threads[th].Counted?
  {
    var r := s.threads[th].r;
    if s.net.active then Goto(s, th, Timing(r, now))
    else if r.matches && r.queue >= c.minQueue then Goto(s, th, Opening(r.since, now))
    else Done(s, th)
  }

  function ReadEndNext(c: Settings, s: State, th: nat): State
    requires th < |s.threads| && s.threads[th].Timing?
  {
    var pc := s.threads[th];
    var timed := TimedOut(c, s.net, pc.now);
    if HasReason(pc.r, timed) then Goto(s, th, Closing(pc.r, pc.now, timed, s.clock == Set))
    else Done(s, th).(astray := s.astray || (s.net.active && Owes(s, th) && s.owing.value.m != c.forceM))
  }

  function EndFor(c: Settings, now: real): real {
    if c.maxSeconds > 0 then now + c.maxSeconds as real else 0.0
  }

  function StoreFlagNext(c: Settings, s: State, th: nat): State
    requires th < |s.threads| && (s.threads[th].Opening? || s.threads[th].Closing?)
  {
    var pc := s.threads[th];
    if pc.Opening? then
      var end := EndFor(c, pc.now);
      Goto(s.(threads := Renewed(s.threads), net := s.net.(active := true), owing := Paid(s.owing, th),
              astray := pc.since.Some? && pc.since.value != c.forceM, ends := end, clock := Due(th)),
           th, Opened(end))
    else
      Goto(s.(net := s.net.(active := false), owing := Paid(s.owing, th), astray := false), th, Closed)
  }

  function StoreEndNext(s: State, th: nat): State
    requires th < |s.threads| && (s.threads[th].Opened? || s.threads[th].Closed?)
  {
    var pc := s.threads[th];
    var clock := if s.clock == Due(th) then Set else if s.clock == Set then Lost else s.clock;
    if pc.Opened? then Goto(s.(net := s.net.(until := pc.end), clock := clock), th, Resetting)
    else Goto(s.(net := s.net.(until := 0.0), clock := clock), th, Free)
  }

  /** What try_flush_pending aims at, after it has read whether to drain. */
  function Target(c: Settings, n: Net, draining: bool): int {
    if draining && BagTarget(c, n) > 0 then BagTarget(c, n) else SubmitTarget(c, n)
  }

  function AimNext(c: Settings, s: State, th: nat): State
    requires th < |s.threads| && s.threads[th].Moded?
  {
    var pc := s.threads[th];
    var target := Target(c, s.net, pc.draining);
    // the pinned m is a constant, so a pinned drain reads nothing more
    Goto(s, th, if Hybrid(c) && pc.draining then Aimed(target, pc.off, pc.since) else Aimed(target, false, None))
  }

  function AsideNext(c: Settings, s: State, e: Event): State {
    var t := s.(net := MatchDrain.Step(c, s.net, e));
    if e.FallBack? && s.net.lastGood.None? then t.(threads := Overtaken(s.threads, c.memoryCost)) else t
  }

  function AddNext(c: Settings, s: State, pb: PendingBlock): State {
    var t := s.(bag := s.bag + [pb]);
    if MatchesM(c.forceM, c.forceM)(pb) then t.(threads := EachReads(s.threads, Gained(pb))) else t
  }

  function TakeNext(s: State, stays: PendingBlock -> bool): State {
    s.(bag := Keep(s.bag, stays), threads := EachReads(s.threads, Stripped(stays)))
  }

  const NO_READS := Reads(false, None, false, None, 0, [], [])

  /** None when the thread is not at that point. */
  function Next(c: Settings, s: State, turn: Turn): Option<State> {
    var th := turn.thread;
    if th >= |s.threads| then None
    else
      var pc := s.threads[th];
      match turn.act
      case CheckSeq(blocking, st) =>
        if !pc.Free? then None
        else if AlreadySeen(s.net, blocking, st) then Some(s)
        else Some(Goto(s, th, HasAnswer(st)).(net := if st.seqNo != 0 then s.net.(lastSeq := st.seqNo) else s.net))
      case Store(now) => if pc.HasAnswer? then Some(StoreNext(c, s, th, pc.st, now)) else None
      case ReadMatch =>
        if !(pc.Free? || pc.Absorbed?) then None
        else if !DrainPossible(c) then Some(Done(s, th).(net := s.net.(active := false), astray := false))
        else Some(Goto(s, th, Matched(NO_READS.(matches := SaysM(s.net, c.forceM)))))
      case ReadLeft =>
        if pc.Matched?
        then Some(Goto(s, th, Looked(pc.r.(left := LeftM(s.net, c.forceM), sinceLeft := None))))
        else None
      case CountBag =>
        if pc.Looked?
        then Some(Goto(s, th, Counted(pc.r.(queue := |Pinned(c, s.bag)|, held := Pinned(c, s.bag), added := []))))
        else None
      case LoadFlag(now) => if pc.Counted? then Some(LoadFlagNext(c, s, th, now)) else None
      case ReadEnd => if pc.Timing? then Some(ReadEndNext(c, s, th)) else None
      case StoreFlag => if pc.Opening? || pc.Closing? then Some(StoreFlagNext(c, s, th)) else None
      case StoreEnd => if pc.Opened? || pc.Closed? then Some(StoreEndNext(s, th)) else None
      case StoreSkip =>
        if pc.Resetting? then Some(Goto(s.(net := s.net.(skipBefore := 0)), th, Free)) else None
      case LoadActive =>
        if !pc.Free? then None
        else Some(Goto(s, th, if s.net.active then Moded(true, Off(c, s), None) else Asking))
      case AskMatch =>
        if pc.Asking? then Some(Goto(s, th, Moded(SaysM(s.net, BagTarget(c, s.net)), false, None))) else None
      case ReadTarget => if pc.Moded? then Some(AimNext(c, s, th)) else None
      case Send => if pc.Aimed? then Some(Goto(s, th, Free)) else None
      case Aside(e) => if e.Poll? || e.Look? then None else Some(AsideNext(c, s, e))
      case Add(pb) => Some(AddNext(c, s, pb))
      case Take(ids) => Some(TakeNext(s, Not(IdIn(ids))))
  }

  function After(c: Settings, s: State, turns: seq<Turn>): Option<State> {
    if turns == [] then Some(s)
    else
      match After(c, s, turns[..|turns| - 1])
      case None => None
      case Some(t) => Next(c, t, turns[|turns| - 1])
  }

  // ---------- The invariant ----------

  /** In an update, and the window not yet moved by it. */
  predicate Updating(pc: Pc) {
    pc.Absorbed? || pc.Matched? || pc.Looked? || pc.Counted? || pc.Timing? || pc.Opening? || pc.Closing?
  }

  /** The last-good m was m exactly when was, at a read that only since has overtaken. */
  predicate Tells(lastGood: Option<int>, since: Option<int>, was: bool, m: int) {
    if since.Some? then lastGood == since else (lastGood == Some(m) <==> was)
  }

  /** A read that was right exactly when not off. */
  predicate Tracks(lastGood: Option<int>, since: Option<int>, off: bool, m: int) {
    Positive(lastGood) && Tells(lastGood, since, !off, m)
  }

  predicate MatchOk(c: Settings, lastGood: Option<int>, debt: Option<int>, matches: bool, since: Option<int>) {
    && DrainPossible(c)
    && (matches ==> Positive(lastGood))
    && Tells(lastGood, since, matches, c.forceM)
    && (debt.Some? ==> since == None && (matches <==> debt.value == c.forceM))
  }

  /** If the network had left the pinned m, only a stored answer can have brought it back. */
  predicate LeftOk(c: Settings, lastGood: Option<int>, r: Reads) {
    if r.sinceLeft.Some? then lastGood == r.sinceLeft else r.left ==> lastGood != Some(c.forceM)
  }

  predicate CountOk(c: Settings, bag: seq<PendingBlock>, r: Reads) {
    Pinned(c, bag) == r.held + r.added && (r.queue == 0 ==> r.held == [])
  }

  /** What the clock shows at time now for a window that ends at end. */
  predicate Spent(c: Settings, end: real, now: real) {
    c.maxSeconds > 0 && end > 0.0 && now >= end
  }

  /** What a thread holds is true of the shared state; debt is the answer that it owes an update for. */
  predicate PcOk(c: Settings, lastGood: Option<int>, bag: seq<PendingBlock>, ends: real, debt: Option<int>, pc: Pc) {
    match pc
    case Matched(r) => MatchOk(c, lastGood, debt, r.matches, r.since)
    case Looked(r) => MatchOk(c, lastGood, debt, r.matches, r.since) && LeftOk(c, lastGood, r)
    case Counted(r) => MatchOk(c, lastGood, debt, r.matches, r.since) && LeftOk(c, lastGood, r) && CountOk(c, bag, r)
    case Timing(r, _) => MatchOk(c, lastGood, debt, r.matches, r.since) && LeftOk(c, lastGood, r) && CountOk(c, bag, r)
    case Closing(r, now, timed, right) =>
      && MatchOk(c, lastGood, debt, r.matches, r.since) && LeftOk(c, lastGood, r) && CountOk(c, bag, r)
      && HasReason(r, timed) && (right ==> (timed <==> Spent(c, ends, now)))
    case Opening(since, _) => MatchOk(c, lastGood, debt, true, since)
    case Moded(draining, off, since) =>
      draining ==> Positive(lastGood) && (Hybrid(c) ==> Tracks(lastGood, since, off, c.forceM))
    case Aimed(target, off, since) => target > 0 ==> Tracks(lastGood, since, off, target)
    case _ => true
  }

  function DebtOf(s: State, th: nat): Option<int> {
    if Owes(s, th) then Some(s.owing.value.m) else None
  }

  predicate ThreadOk(c: Settings, s: State, th: nat)
    requires th < |s.threads|
  {
    PcOk(c, s.net.lastGood, s.bag, s.ends, DebtOf(s, th), s.threads[th])
  }

  ghost predicate ThreadsOk(c: Settings, s: State) {
    forall th :: 0 <= th < |s.threads| ==> ThreadOk(c, s, th)
  }

  predicate DebtOk(s: State) {
    s.owing.Some? ==>
      && s.owing.value.thread < |s.threads| && Updating(s.threads[s.owing.value.thread])
      && s.owing.value.m > 0 && s.net.lastGood == Some(s.owing.value.m)
  }

  predicate WindowKnown(c: Settings, s: State) {
    && (s.astray ==> s.net.active)
    && (s.net.active ==>
          DrainPossible(c) && Positive(s.net.lastGood) && (s.net.lastGood != Some(c.forceM) <==> Off(c, s)))
  }

  predicate ClockOk(s: State) {
    match s.clock
    case Set => s.net.until == s.ends
    case Due(th) => th < |s.threads| && s.threads[th] == Opened(s.ends)
    case Lost => true
  }

  ghost predicate Inv(c: Settings, s: State) {
    ThreadsOk(c, s) && DebtOk(s) && WindowKnown(c, s) && ClockOk(s)
  }

  // ---------- Every step ----------

  /** A step of th that leaves the last-good m, the bag and the end of the window alone, and the debts of others. */
  lemma OwnStep(c: Settings, s: State, th: nat, t: State)
    requires Inv(c, s) && th < |s.threads| && |t.threads| == |s.threads|
    requires t.net.lastGood == s.net.lastGood && t.bag == s.bag && t.ends == s.ends
    requires t.owing == s.owing || t.owing == Paid(s.owing, th)
    requires forall i :: 0 <= i < |s.threads| && i != th ==> t.threads[i] == s.threads[i]
    requires PcOk(c, t.net.lastGood, t.bag, t.ends, DebtOf(t, th), t.threads[th])
    ensures ThreadsOk(c, t)
  {
    hide PcOk;
    forall i | 0 <= i < |t.threads| ensures ThreadOk(c, t, i) {
      assert ThreadOk(c, s, i);
    }
  }

  lemma QuietThread(c: Settings, lastGood: Option<int>, bag: seq<PendingBlock>, ends: real, debt: Option<int>, pc: Pc)
    requires !(pc.Matched? || pc.Looked? || pc.Counted? || pc.Timing? || pc.Closing? || pc.Opening?)
    requires !pc.Moded? && !pc.Aimed?
    ensures PcOk(c, lastGood, bag, ends, debt, pc)
  {
  }

  lemma AnsweredOk(c: Settings, before: Option<int>, bag: seq<PendingBlock>, ends: real, debt: Option<int>, pc: Pc,
                   m: int)
    requires PcOk(c, before, bag, ends, debt, pc) && (m > 0 || !Positive(before))
    ensures PcOk(c, Some(m), bag, ends, None, WithSince(pc, m))
  {
    hide Pinned;
  }

  lemma AbsorbGives(c: Settings, n: Net, raw: int, now: real)
    ensures var t := Absorb(c, n, raw, now);
      && t.lastGood.Some? && t.lastGood.value > 0 && t.active == n.active && t.until == n.until
      && (Plausible(raw) ==> t.lastGood.value == raw)
      && (!Effective(n, raw) ==> t.lastGood == n.lastGood)
  {
  }

  lemma EffectiveInv(c: Settings, s: State, th: nat, st: Status, now: real)
    requires Inv(c, s) && th < |s.threads| && s.threads[th].HasAnswer?
    requires st.difficulty.Some? && Effective(s.net, st.difficulty.value)
    ensures Inv(c, StoreNext(c, s, th, st, now))
  {
    hide PcOk, Absorb, Effective, WithSince;
    var t := StoreNext(c, s, th, st, now);
    AbsorbGives(c, s.net, st.difficulty.value, now);
    var m := t.net.lastGood.value;
    forall i | 0 <= i < |t.threads| ensures ThreadOk(c, t, i) {
      if i == th {
        QuietThread(c, t.net.lastGood, t.bag, t.ends, DebtOf(t, i), Absorbed);
      } else {
        assert ThreadOk(c, s, i);
        AnsweredOk(c, s.net.lastGood, s.bag, s.ends, DebtOf(s, i), s.threads[i], m);
        assert t.threads[i] == Overtaken(s.threads, m)[i];
      }
    }
    ClockThroughAnswer(s, m, t, th);
  }

  lemma ClockThroughAnswer(s: State, m: int, t: State, th: nat)
    requires ClockOk(s) && th < |s.threads| && s.threads[th].HasAnswer?
    requires t.threads == Overtaken(s.threads, m)[th := Absorbed]
    requires t.clock == s.clock && t.ends == s.ends && t.net.until == s.net.until
    ensures ClockOk(t)
  {
    if s.clock.Due? {
      assert Overtaken(s.threads, m)[s.clock.thread] == s.threads[s.clock.thread];
    }
  }

  lemma IneffectiveInv(c: Settings, s: State, th: nat, st: Status, now: real)
    requires Inv(c, s) && th < |s.threads| && s.threads[th].HasAnswer?
    requires st.difficulty.None? || !Effective(s.net, st.difficulty.value)
    ensures Inv(c, StoreNext(c, s, th, st, now))
  {
    hide Absorb, Effective, PcOk;
    var t := StoreNext(c, s, th, st, now);
    if st.difficulty.Some? {
      AbsorbGives(c, s.net, st.difficulty.value, now);
    }
    QuietThread(c, t.net.lastGood, t.bag, t.ends, DebtOf(t, th), t.threads[th]);
    OwnStep(c, s, th, t);
  }

  lemma LoadFlagInv(c: Settings, s: State, th: nat, now: real)
    requires Inv(c, s) && th < |s.threads| && s.threads[th].Counted?
    ensures Inv(c, LoadFlagNext(c, s, th, now))
  {
    hide Pinned;
    assert ThreadOk(c, s, th);
    OwnStep(c, s, th, LoadFlagNext(c, s, th, now));
  }

  lemma ReadEndInv(c: Settings, s: State, th: nat)
    requires Inv(c, s) && th < |s.threads| && s.threads[th].Timing?
    ensures Inv(c, ReadEndNext(c, s, th))
  {
    hide Pinned;
    assert ThreadOk(c, s, th);
    OwnStep(c, s, th, ReadEndNext(c, s, th));
  }

  lemma RenewedOk(c: Settings, lastGood: Option<int>, bag: seq<PendingBlock>, ends: real, debt: Option<int>, pc: Pc,
                  end: real)
    requires PcOk(c, lastGood, bag, ends, debt, pc)
    ensures PcOk(c, lastGood, bag, end, debt, if pc.Closing? then pc.(right := false) else pc)
  {
  }

  lemma StoreFlagInv(c: Settings, s: State, th: nat)
    requires Inv(c, s) && th < |s.threads| && (s.threads[th].Opening? || s.threads[th].Closing?)
    ensures Inv(c, StoreFlagNext(c, s, th))
  {
    hide Pinned;
    assert ThreadOk(c, s, th);
    var t := StoreFlagNext(c, s, th);
    if s.threads[th].Closing? {
      OwnStep(c, s, th, t);
    } else {
      OpenOthers(c, s, th);
    }
  }

  lemma OpenOthers(c: Settings, s: State, th: nat)
    requires Inv(c, s) && th < |s.threads| && s.threads[th].Opening?
    ensures ThreadsOk(c, StoreFlagNext(c, s, th))
  {
    hide PcOk;
    var t := StoreFlagNext(c, s, th);
    forall i | 0 <= i < |t.threads| ensures ThreadOk(c, t, i) {
      if i == th {
        QuietThread(c, t.net.lastGood, t.bag, t.ends, DebtOf(t, i), t.threads[i]);
      } else {
        assert ThreadOk(c, s, i);
        assert t.threads[i] == Renewed(s.threads)[i];
        RenewedOk(c, s.net.lastGood, s.bag, s.ends, DebtOf(s, i), s.threads[i], t.ends);
      }
    }
  }

  lemma StoreEndInv(c: Settings, s: State, th: nat)
    requires Inv(c, s) && th < |s.threads| && (s.threads[th].Opened? || s.threads[th].Closed?)
    ensures Inv(c, StoreEndNext(s, th))
  {
    hide PcOk;
    var t := StoreEndNext(s, th);
    QuietThread(c, t.net.lastGood, t.bag, t.ends, DebtOf(t, th), t.threads[th]);
    OwnStep(c, s, th, t);
  }

  lemma AimInv(c: Settings, s: State, th: nat)
    requires Inv(c, s) && th < |s.threads| && s.threads[th].Moded?
    ensures Inv(c, AimNext(c, s, th))
  {
    assert ThreadOk(c, s, th);
    OwnStep(c, s, th, AimNext(c, s, th));
  }

  lemma AsideInv(c: Settings, s: State, e: Event)
    requires Inv(c, s) && !e.Poll? && !e.Look?
    ensures Inv(c, AsideNext(c, s, e))
  {
    hide PcOk, WithSince;
    var t := AsideNext(c, s, e);
    if e.FallBack? && s.net.lastGood.None? {
      assert s.owing == None;
      forall i | 0 <= i < |t.threads| ensures ThreadOk(c, t, i) {
        assert ThreadOk(c, s, i);
        AnsweredOk(c, s.net.lastGood, s.bag, s.ends, DebtOf(s, i), s.threads[i], c.memoryCost);
        assert t.threads[i] == Overtaken(s.threads, c.memoryCost)[i];
      }
      ClockThroughFallBack(s, c.memoryCost, t);
    } else {
      assert t.net.lastGood == s.net.lastGood && t.net.active == s.net.active && t.net.until == s.net.until;
      forall i | 0 <= i < |t.threads| ensures ThreadOk(c, t, i) {
        assert ThreadOk(c, s, i);
      }
    }
  }

  lemma ClockThroughFallBack(s: State, m: int, t: State)
    requires ClockOk(s) && t.threads == Overtaken(s.threads, m)
    requires t.clock == s.clock && t.ends == s.ends && t.net.until == s.net.until
    ensures ClockOk(t)
  {
    if s.clock.Due? {
      assert Overtaken(s.threads, m)[s.clock.thread] == s.threads[s.clock.thread];
    }
  }

  /** A change to the bag, followed in what every thread has counted. */
  lemma BagInv(c: Settings, s: State, f: Reads -> Reads, t: State)
    requires Inv(c, s) && t == s.(bag := t.bag, threads := EachReads(s.threads, f))
    requires forall r {:trigger f(r)} :: f(r) == r.(held := f(r).held, added := f(r).added)
    requires forall r {:trigger f(r)} :: CountOk(c, s.bag, r) ==> CountOk(c, t.bag, f(r))
    ensures Inv(c, t)
  {
    forall i | 0 <= i < |t.threads| ensures ThreadOk(c, t, i) {
      assert ThreadOk(c, s, i);
      assert t.threads[i] == OnReads(f, s.threads[i]);
      CountedOn(c, s, f, t, i);
    }
    if s.owing.Some? {
      assert t.threads[s.owing.value.thread] == OnReads(f, s.threads[s.owing.value.thread]);
    }
    if s.clock.Due? {
      assert t.threads[s.clock.thread] == OnReads(f, s.threads[s.clock.thread]);
    }
  }

  lemma CountedOn(c: Settings, s: State, f: Reads -> Reads, t: State, i: nat)
    requires i < |s.threads| && ThreadOk(c, s, i)
    requires t == s.(bag := t.bag, threads := EachReads(s.threads, f)) && t.threads[i] == OnReads(f, s.threads[i])
    requires forall r {:trigger f(r)} :: f(r) == r.(held := f(r).held, added := f(r).added)
    requires forall r {:trigger f(r)} :: CountOk(c, s.bag, r) ==> CountOk(c, t.bag, f(r))
    ensures ThreadOk(c, t, i)
  {
    hide CountOk;
    var pc := s.threads[i];
    if pc.Matched? || pc.Looked? || pc.Counted? || pc.Timing? || pc.Closing? {
      assert f(pc.r) == pc.r.(held := f(pc.r).held, added := f(pc.r).added);
    }
  }

  lemma GainedCount(c: Settings, bag: seq<PendingBlock>, pb: PendingBlock, r: Reads)
    requires CountOk(c, bag, r) && MatchesM(c.forceM, c.forceM)(pb)
    ensures CountOk(c, bag + [pb], Gained(pb)(r))
  {
    KeepSnoc(bag, pb, MatchesM(c.forceM, c.forceM));
    assert r.held + r.added + [pb] == r.held + (r.added + [pb]);
  }

  lemma AddInv(c: Settings, s: State, pb: PendingBlock)
    requires Inv(c, s)
    ensures Inv(c, AddNext(c, s, pb))
  {
    hide PcOk, CountOk;
    var t := AddNext(c, s, pb);
    if MatchesM(c.forceM, c.forceM)(pb) {
      forall r | CountOk(c, s.bag, r) ensures CountOk(c, t.bag, Gained(pb)(r)) {
        GainedCount(c, s.bag, pb, r);
      }
      BagInv(c, s, Gained(pb), t);
    } else {
      KeepSnoc(s.bag, pb, MatchesM(c.forceM, c.forceM));
      assert Pinned(c, t.bag) == Pinned(c, s.bag);
      forall i | 0 <= i < |t.threads| ensures ThreadOk(c, t, i) {
        assert ThreadOk(c, s, i);
        SamePinned(c, s.net.lastGood, s.bag, t.bag, s.ends, DebtOf(s, i), s.threads[i]);
      }
    }
  }

  lemma SamePinned(c: Settings, lastGood: Option<int>, b: seq<PendingBlock>, d: seq<PendingBlock>, ends: real,
                   debt: Option<int>, pc: Pc)
    requires PcOk(c, lastGood, b, ends, debt, pc) && Pinned(c, b) == Pinned(c, d)
    ensures PcOk(c, lastGood, d, ends, debt, pc)
  {
    hide Pinned;
  }

  lemma StrippedCount(c: Settings, bag: seq<PendingBlock>, stays: PendingBlock -> bool, r: Reads)
    requires CountOk(c, bag, r)
    ensures CountOk(c, Keep(bag, stays), Stripped(stays)(r))
  {
    var pinned := MatchesM(c.forceM, c.forceM);
    var both := (pb: PendingBlock) => pinned(pb) && stays(pb);
    KeepTwice(bag, stays, pinned, both);
    KeepTwice(bag, pinned, stays, both);
    KeepConcat(r.held, r.added, stays);
  }

  lemma TakeInv(c: Settings, s: State, stays: PendingBlock -> bool)
    requires Inv(c, s)
    ensures Inv(c, TakeNext(s, stays))
  {
    hide PcOk, CountOk;
    var t := TakeNext(s, stays);
    forall r | CountOk(c, s.bag, r) ensures CountOk(c, t.bag, Stripped(stays)(r)) {
      StrippedCount(c, s.bag, stays, r);
    }
    BagInv(c, s, Stripped(stays), t);
  }

  lemma ReadInv(c: Settings, s: State, turn: Turn, t: State)
    requires Inv(c, s) && Next(c, s, turn) == Some(t)
    requires turn.act.CheckSeq? || turn.act.ReadMatch? || turn.act.ReadLeft? || turn.act.CountBag?
          || turn.act.StoreSkip? || turn.act.LoadActive? || turn.act.AskMatch? || turn.act.Send?
    ensures Inv(c, t)
  {
    hide Pinned, AlreadySeen;
    var th := turn.thread;
    assert ThreadOk(c, s, th);
    OwnStep(c, s, th, t);
  }

  lemma NextInv(c: Settings, s: State, turn: Turn, t: State)
    requires Inv(c, s) && Next(c, s, turn) == Some(t)
    ensures Inv(c, t)
  {
    hide Inv, StoreNext, LoadFlagNext, ReadEndNext, StoreFlagNext, StoreEndNext, AimNext, AsideNext, AddNext, TakeNext;
    var th := turn.thread;
    match turn.act
    case Store(now) =>
      var st := s.threads[th].st;
      if st.difficulty.Some? && Effective(s.net, st.difficulty.value) {
        EffectiveInv(c, s, th, st, now);
      } else {
        IneffectiveInv(c, s, th, st, now);
      }
    case LoadFlag(now) => LoadFlagInv(c, s, th, now);
    case ReadEnd => ReadEndInv(c, s, th);
    case StoreFlag => StoreFlagInv(c, s, th);
    case StoreEnd => StoreEndInv(c, s, th);
    case ReadTarget => AimInv(c, s, th);
    case Aside(e) => AsideInv(c, s, e);
    case Add(pb) => AddInv(c, s, pb);
    case Take(ids) => TakeInv(c, s, Not(IdIn(ids)));
    case _ => ReadInv(c, s, turn, t);
  }

  lemma StartInv(c: Settings, nthreads: nat)
    ensures Inv(c, Start(nthreads))
  {
  }

  lemma {:induction false} AfterInv(c: Settings, nthreads: nat, turns: seq<Turn>)
    requires After(c, Start(nthreads), turns).Some?
    ensures Inv(c, After(c, Start(nthreads), turns).value)
  {
    hide Inv, Next, Start;
    if turns == [] {
      StartInv(c, nthreads);
    } else {
      var n := |turns| - 1;
      AfterInv(c, nthreads, turns[..n]);
      NextInv(c, After(c, Start(nthreads), turns[..n]).value, turns[n], After(c, Start(nthreads), turns).value);
    }
  }

  // ---------- What most steps leave alone ----------

  predicate MovesWindow(act: Act) {
    act.ReadMatch? || act.ReadEnd? || act.StoreFlag? || act.StoreEnd?
  }

  predicate SameWindow(s: State, t: State) {
    t.net.active == s.net.active && t.net.until == s.net.until && t.ends == s.ends && t.clock == s.clock
  }

  lemma OtherSteps(c: Settings, s: State, turn: Turn, t: State)
    requires Next(c, s, turn) == Some(t) && !MovesWindow(turn.act)
    ensures turn.thread < |s.threads| && SameWindow(s, t)
    ensures !turn.act.Store? ==> t.astray == s.astray
  {
    hide AlreadySeen, Pinned, Absorb, Miss, MatchDrain.Step, Goto, Overtaken, EachReads, Renewed;
    hide StoreNext, AsideNext, SameWindow;
    if turn.act.Store? {
      StoreFrame(c, s, turn.thread, s.threads[turn.thread].st, turn.act.now);
    } else if turn.act.Aside? {
      AsideFrame(c, s, turn.act.e);
    } else {
      OwnFrame(c, s, turn, t);
    }
  }

  lemma OwnFrame(c: Settings, s: State, turn: Turn, t: State)
    requires Next(c, s, turn) == Some(t) && !MovesWindow(turn.act) && !turn.act.Store? && !turn.act.Aside?
    ensures SameWindow(s, t) && t.astray == s.astray
  {
    hide AlreadySeen, Pinned, Overtaken, EachReads, Renewed, StoreNext, AsideNext;
  }

  lemma StoreFrame(c: Settings, s: State, th: nat, st: Status, now: real)
    requires th < |s.threads|
    ensures SameWindow(s, StoreNext(c, s, th, st, now))
  {
  }

  lemma AsideFrame(c: Settings, s: State, e: Event)
    requires !e.Poll? && !e.Look?
    ensures SameWindow(s, AsideNext(c, s, e)) && AsideNext(c, s, e).astray == s.astray
  {
  }

  // ---------- What every interleaving shows ----------

  /** The thread that stored the latest answer, another m than m, is still inside its update. */
  predicate Unfinished(s: State, m: int) {
    && s.owing.Some? && s.owing.value.m != m
    && s.owing.value.thread < |s.threads| && Updating(s.threads[s.owing.value.thread])
  }

  /** In every interleaving, an open window is not at the last-good m exactly when the thread that stored the latest
      answer, another m, has not yet moved the window after it, or an update has set the window against that answer
      (astray) and nothing has put it right since. While it is open, the miner is pinned, submits and drains. */
  lemma WindowExactly(c: Settings, nthreads: nat, turns: seq<Turn>)
    requires After(c, Start(nthreads), turns).Some?
    ensures var s := After(c, Start(nthreads), turns).value;
      s.net.active ==>
        && DrainPossible(c)
        && (s.net.lastGood != Some(c.forceM) <==>
              Unfinished(s, c.forceM) || s.astray)
  {
    hide After, Next;
    AfterInv(c, nthreads, turns);
  }

  /** How the window goes astray: a thread opens it on a match that a later answer has overtaken, or a thread that has
      itself stored the latest answer, another m, finds the window open and leaves it so, because the network counted as
      down when it looked. */
  lemma Strays(c: Settings, s: State, turn: Turn, t: State)
    requires Inv(c, s) && Next(c, s, turn) == Some(t) && !s.astray && t.astray
    ensures var pc := s.threads[turn.thread];
      || (turn.act.StoreFlag? && pc.Opening? && pc.since.Some? && pc.since.value != c.forceM)
      || (turn.act.ReadEnd? && pc.Timing? && s.net.active && !pc.r.left && Owes(s, turn.thread)
          && s.owing.value.m != c.forceM && s.net.lastGood == Some(s.owing.value.m))
  {
    hide Inv;
    Known(c, s);
    if MovesWindow(turn.act) {
      hide Renewed;
    } else if turn.act.Store? {
      StoreNotAstray(c, s, turn, t);
    } else {
      hide Next, Off;
      OtherSteps(c, s, turn, t);
    }
  }

  lemma StoreNotAstray(c: Settings, s: State, turn: Turn, t: State)
    requires turn.act.Store? && Next(c, s, turn) == Some(t)
    ensures t.astray ==> s.astray
  {
    hide Absorb, Miss, Overtaken;
  }

  lemma Known(c: Settings, s: State)
    requires Inv(c, s)
    ensures DebtOk(s) && WindowKnown(c, s)
  {
  }

  /** How it is put right: an update closes the window or opens it afresh, or the pinned m is reported. */
  lemma StrayEnds(c: Settings, s: State, turn: Turn, t: State)
    requires Inv(c, s) && Next(c, s, turn) == Some(t) && s.astray && !t.astray
    ensures var pc := s.threads[turn.thread];
      || !t.net.active
      || (turn.act.StoreFlag? && pc.Opening? && pc.since.GetOr(c.forceM) == c.forceM)
      || (turn.act.Store? && pc.HasAnswer? && pc.st.difficulty == Some(c.forceM) && Plausible(c.forceM))
  {
    hide Inv;
    Known(c, s);
    if MovesWindow(turn.act) {
      hide Renewed;
    } else if turn.act.Store? {
      StoreRights(c, s, turn, t);
    } else {
      hide Next, Off;
      OtherSteps(c, s, turn, t);
    }
  }

  lemma StoreRights(c: Settings, s: State, turn: Turn, t: State)
    requires turn.act.Store? && Next(c, s, turn) == Some(t) && s.astray && WindowKnown(c, s)
    ensures turn.thread < |s.threads| && s.threads[turn.thread].HasAnswer?
    ensures !t.astray ==> s.threads[turn.thread].st.difficulty == Some(c.forceM) && Plausible(c.forceM)
  {
    hide Miss, Overtaken;
  }

  /** So whenever no thread is inside an update and no window is astray, an open window is at the last-good m. */
  lemma AtPinBetweenUpdates(c: Settings, nthreads: nat, turns: seq<Turn>)
    requires After(c, Start(nthreads), turns).Some?
    ensures var s := After(c, Start(nthreads), turns).value;
      s.net.active && !s.astray && (forall pc :: pc in s.threads ==> !Updating(pc)) ==>
        s.net.lastGood == Some(c.forceM)
  {
    hide After, Next;
    AfterInv(c, nthreads, turns);
    var s := After(c, Start(nthreads), turns).value;
    if s.owing.Some? {
      assert s.threads[s.owing.value.thread] in s.threads;
    }
  }

  /** A wave that has been aimed, at any moment until its batch is chosen, is aimed at the last-good m exactly when the
      latest answer stored since it was aimed, if there is one, is its target, and otherwise the window it went by was
      not off. */
  lemma WaveExactly(c: Settings, nthreads: nat, turns: seq<Turn>, th: nat)
    requires After(c, Start(nthreads), turns).Some?
    requires var s := After(c, Start(nthreads), turns).value;
      th < |s.threads| && s.threads[th].Aimed? && s.threads[th].target > 0
    ensures var s := After(c, Start(nthreads), turns).value;
      var wave := s.threads[th];
      s.net.lastGood == Some(wave.target) <==>
        if wave.since.Some? then wave.since.value == wave.target else !wave.off
  {
    hide After, Next;
    AfterInv(c, nthreads, turns);
    var s := After(c, Start(nthreads), turns).value;
    assert ThreadOk(c, s, th);
  }

  // ---------- What a window is closed against ----------

  /** There is something to drain: the last-good m is the pinned one, a pinned block waits, and by the time now the
      window has not spent its budget. */
  predicate WorthOpen(c: Settings, s: State, now: real) {
    s.net.lastGood == Some(c.forceM) && Pinned(c, s.bag) != [] && !Spent(c, s.ends, now)
  }

  /** The update has counted no pinned block at the pinned m. */
  predicate CountedNone(r: Reads) {
    r.matches && r.queue == 0
  }

  /** Since then a pinned block has come that is still there, and no answer with another m is the latest. */
  predicate CountOvertaken(c: Settings, r: Reads) {
    r.added != [] && r.since.GetOr(c.forceM) == c.forceM
  }

  /** Since the read of the mismatch the pinned m has been stored, and pinned blocks wait. */
  predicate LeftOvertaken(c: Settings, r: Reads) {
    r.sinceLeft == Some(c.forceM) && r.held + r.added != []
  }

  /** The latest answer was the pinned m when the update read the match, and pinned blocks wait. */
  predicate StillPinned(c: Settings, r: Reads) {
    (if r.since.Some? then r.since.value == c.forceM else r.matches) && r.held + r.added != []
  }

  /** Everything that the closing update goes by has been overtaken. */
  predicate Overruled(c: Settings, r: Reads, ends: real, now: real) {
    && !Spent(c, ends, now)
    && (CountedNone(r) ==> CountOvertaken(c, r))
    && (r.left ==> LeftOvertaken(c, r))
    && (!CountedNone(r) && !r.left ==> StillPinned(c, r))
  }

  /** In every interleaving, an open window is shut by the store of a closing update and by nothing else. That update
      had counted no block, or read a mismatch, or read an end that its clock had passed. It shuts the window against
      the present state exactly when all of these have been overtaken: its count by a block, its mismatch by a stored
      answer with the pinned m, and the end it read by that of a later window; an end that was this window's own (right)
      cannot be. */
  lemma ClosesAgainst(c: Settings, nthreads: nat, turns: seq<Turn>, turn: Turn, t: State)
    requires After(c, Start(nthreads), turns).Some?
    requires After(c, Start(nthreads), turns).value.net.active
    requires Next(c, After(c, Start(nthreads), turns).value, turn) == Some(t)
    ensures var s := After(c, Start(nthreads), turns).value;
      var pc := s.threads[turn.thread];
      && (!t.net.active <==> turn.act.StoreFlag? && pc.Closing?)
      && (!t.net.active ==>
            && HasReason(pc.r, pc.timed)
            && (WorthOpen(c, s, pc.now) <==> Overruled(c, pc.r, s.ends, pc.now))
            && (pc.right ==> (pc.timed <==> Spent(c, s.ends, pc.now))))
  {
    hide After, Next;
    AfterInv(c, nthreads, turns);
    var s := After(c, Start(nthreads), turns).value;
    ShutBy(c, s, turn, t);
    if !t.net.active {
      assert ThreadOk(c, s, turn.thread);
      OverruledExactly(c, s, s.threads[turn.thread], DebtOf(s, turn.thread));
    }
  }

  lemma ShutBy(c: Settings, s: State, turn: Turn, t: State)
    requires WindowKnown(c, s) && s.net.active && Next(c, s, turn) == Some(t)
    ensures turn.thread < |s.threads|
    ensures !t.net.active <==> turn.act.StoreFlag? && s.threads[turn.thread].Closing?
  {
    if MovesWindow(turn.act) {
      hide Off, Renewed;
    } else {
      hide Next, WindowKnown;
      OtherSteps(c, s, turn, t);
    }
  }

  lemma OverruledExactly(c: Settings, s: State, pc: Pc, debt: Option<int>)
    requires pc.Closing? && PcOk(c, s.net.lastGood, s.bag, s.ends, debt, pc)
    ensures WorthOpen(c, s, pc.now) <==> Overruled(c, pc.r, s.ends, pc.now)
  {
    hide Pinned;
  }

  /** So an update that nothing has overtaken closes rightly. */
  lemma ClosesRightly(c: Settings, nthreads: nat, turns: seq<Turn>, th: nat)
    requires After(c, Start(nthreads), turns).Some?
    requires var s := After(c, Start(nthreads), turns).value;
      th < |s.threads| && s.threads[th].Closing?
    ensures var s := After(c, Start(nthreads), turns).value;
      var pc := s.threads[th];
      pc.right && pc.r.added == [] && pc.r.sinceLeft != Some(c.forceM) ==> !WorthOpen(c, s, pc.now)
  {
    hide After, Next, Pinned;
    AfterInv(c, nthreads, turns);
    var s := After(c, Start(nthreads), turns).value;
    assert ThreadOk(c, s, th);
    OverruledExactly(c, s, s.threads[th], DebtOf(s, th));
  }

  // ---------- Whose end a window goes by ----------

  /** In every interleaving, the end in store is the one that the latest opening gave, or that opening has yet to store
      it, or a thread that was late has stored its own after it. */
  lemma EndExactly(c: Settings, nthreads: nat, turns: seq<Turn>, now: real)
    requires After(c, Start(nthreads), turns).Some?
    ensures var s := After(c, Start(nthreads), turns).value;
      || (s.net.until == s.ends && (TimedOut(c, s.net, now) <==> Spent(c, s.ends, now)))
      || (s.clock.Due? && s.clock.thread < |s.threads| && s.threads[s.clock.thread] == Opened(s.ends))
      || s.clock.Lost?
  {
    hide After, Next;
    AfterInv(c, nthreads, turns);
  }

  /** How the end gets lost, and how it comes back. */
  lemma EndLost(c: Settings, s: State, turn: Turn, t: State)
    requires Inv(c, s) && Next(c, s, turn) == Some(t)
    ensures var pc := s.threads[turn.thread];
      && (!s.clock.Lost? && t.clock.Lost? <==>
            s.clock.Set? && turn.act.StoreEnd?)
      && (turn.act.StoreEnd? ==> t.net.until == if pc.Opened? then pc.end else 0.0)
      && (s.clock.Lost? && !t.clock.Lost? <==> s.clock.Lost? && turn.act.StoreFlag? && pc.Opening?)
      && (t.ends != s.ends ==> turn.act.StoreFlag? && pc.Opening? && t.ends == EndFor(c, pc.now))
  {
    hide Inv;
    if MovesWindow(turn.act) {
      hide Renewed;
    } else {
      hide Next;
      OtherSteps(c, s, turn, t);
    }
  }
}
