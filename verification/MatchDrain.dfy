/** The network view and the match-drain window, as values (src/app/supervisor.cpp). Each function is the
    effect of one method body taken as a whole; class Oracle (Oracle.dfy) implements them in place, and DrainThreads
    takes the bodies apart. */
module MatchDrain {
  import opened Blocks
  import opened Bags

  datatype Settings = Settings(
    submitEnabled: bool,
    drainEnabled: bool,
    forceM: int,           // 0 in classic mode
    memoryCost: int,
    minQueue: int,
    maxSeconds: int,
    sampleSeconds: int,
    drainBatch: int,
    downPollSeconds: int)

  /** Times are seconds; zero stands for "never". */
  datatype Net = Net(
    lastGood: Option<int>,
    ok: bool,
    stale: bool,
    okAt: real,
    failStreak: nat,
    lastSeq: nat,
    deferUntil: real,
    backoffUntil: real,
    alive: bool,
    probedAt: real,
    active: bool,          // the window is open
    until: real,
    skipBefore: int)

  const FRESH := Net(None, false, false, 0.0, 0, 0, 0.0, 0.0, false, 0.0, false, 0.0, 0)

  // ---------- What the gates read ----------

  predicate Hybrid(c: Settings) {
    c.forceM > 0
  }

  function BagTarget(c: Settings, n: Net): int {
    if Hybrid(c) then c.forceM else n.lastGood.GetOr(c.memoryCost)
  }

  predicate SaysM(n: Net, m: int) {
    m > 0 && n.lastGood == Some(m)
  }

  predicate LeftM(n: Net, m: int) {
    m > 0 && n.ok && n.lastGood.Some? && n.lastGood.value > 0 && n.lastGood.value != m
  }

  function SubmitTarget(c: Settings, n: Net): int {
    var bag := BagTarget(c, n);
    if SaysM(n, bag) then bag
    else if n.lastGood.Some? && n.lastGood.value > 0 then n.lastGood.value else 0
  }

  predicate DrainMode(c: Settings, n: Net) {
    n.active || SaysM(n, BagTarget(c, n))
  }

  /** The m that a flush wave asks the store for; not positive when there is nothing to send to. */
  function FlushTarget(c: Settings, n: Net): int {
    var bag := BagTarget(c, n);
    if DrainMode(c, n) && bag > 0 then bag else SubmitTarget(c, n)
  }

  const PROBE_TTL := 2.0

  predicate KnownDead(n: Net, now: real) {
    !n.ok && n.probedAt > 0.0 && now - n.probedAt < PROBE_TTL && !n.alive
  }

  predicate LiveAllowed(c: Settings, n: Net, now: real) {
    && c.submitEnabled
    && now >= n.backoffUntil
    && (Hybrid(c) || now >= n.deferUntil)
    && n.lastGood.Some? && n.lastGood.value > 0
    && !KnownDead(n, now)
  }

  predicate FlushAllowed(c: Settings, n: Net, now: real) {
    && c.submitEnabled
    && (n.active || now >= n.backoffUntil)
    && (Hybrid(c) || now >= n.deferUntil)
    && n.lastGood.Some? && n.lastGood.value > 0
    && !KnownDead(n, now)
  }

  /** The queue may be flushed whenever live hits may go out, and beyond that exactly in a pause that an open
      window ignores. */
  lemma FlushBeyondLive(c: Settings, n: Net, now: real)
    ensures FlushAllowed(c, n, now) <==>
      LiveAllowed(c, n, now) || (n.active && LiveAllowed(c, n.(backoffUntil := now), now))
  {
  }

  // ---------- The window ----------

  /** The blocks that wait for the pinned m; a block without one counts as pinned. */
  function Pinned(c: Settings, pending: seq<PendingBlock>): seq<PendingBlock> {
    Matching(pending, c.forceM, c.forceM)
  }

  /** What update_match_drain reads before it decides. */
  datatype Seen = Seen(matches: bool, left: bool, bagQueue: nat)

  function See(c: Settings, n: Net, pending: seq<PendingBlock>): Seen {
    Seen(SaysM(n, c.forceM), LeftM(n, c.forceM), |Pinned(c, pending)|)
  }

  predicate DrainPossible(c: Settings) {
    c.submitEnabled && c.drainEnabled && Hybrid(c)
  }

  predicate TimedOut(c: Settings, n: Net, now: real) {
    c.maxSeconds > 0 && n.until > 0.0 && now >= n.until
  }

  /** What it then decides. */
  function Act(c: Settings, n: Net, seen: Seen, now: real): Net {
    if n.active then
      if (seen.matches && seen.bagQueue == 0) || TimedOut(c, n, now) || seen.left
      then n.(active := false, until := 0.0) else n
    else if seen.matches && seen.bagQueue >= c.minQueue then
      n.(active := true, until := if c.maxSeconds > 0 then now + c.maxSeconds as real else 0.0, skipBefore := 0)
    else n
  }

  function Update(c: Settings, n: Net, now: real, pending: seq<PendingBlock>): Net {
    if !DrainPossible(c) then n.(active := false) else Act(c, n, See(c, n, pending), now)
  }

  // ---------- Polls ----------

  datatype Status = Status(difficulty: Option<int>, seqNo: nat)

  function AcceptDifficulty(raw: int, fallback: int): int {
    if raw <= 0 || raw > 10_000_000 then if fallback > 0 then fallback else 1100
    else raw
  }

  function Max(x: real, y: real): real {
    if x < y then y else x
  }

  /** A poll that returned a number. */
  function Absorb(c: Settings, n: Net, raw: int, now: real): Net {
    var m := AcceptDifficulty(raw, n.lastGood.GetOr(c.memoryCost));
    n.(lastGood := Some(m), ok := true, stale := false, failStreak := 0, okAt := now, backoffUntil := 0.0,
       deferUntil := if n.lastGood.Some? && m != n.lastGood.value then now + Max(5.0, c.sampleSeconds as real)
                     else n.deferUntil)
  }

  function FailBudget(c: Settings, n: Net): nat {
    if SaysM(n, c.forceM) then 6 else 3
  }

  function AgeBudget(c: Settings, n: Net): real {
    if SaysM(n, c.forceM) then 120.0 else 60.0
  }

  function Age(n: Net, now: real): real {
    if n.okAt > 0.0 then now - n.okAt else 1000000000.0
  }

  /** A poll that returned nothing. */
  function Miss(c: Settings, n: Net, now: real): Net {
    var streak := n.failStreak + 1;
    if n.lastGood.Some? && Age(n, now) < 180.0 && streak < 8 then
      n.(failStreak := streak, stale := true, ok := streak < FailBudget(c, n) && Age(n, now) < AgeBudget(c, n))
    else
      n.(failStreak := streak, ok := false, stale := n.lastGood.Some?)
  }

  predicate AlreadySeen(n: Net, blocking: bool, st: Status) {
    !blocking && (st.seqNo == 0 || st.seqNo == n.lastSeq)
  }

  function Refresh(c: Settings, n: Net, blocking: bool, st: Status, now: real, pending: seq<PendingBlock>): Net {
    if AlreadySeen(n, blocking, st) then n
    else
      var n := if st.seqNo != 0 then n.(lastSeq := st.seqNo) else n;
      match st.difficulty
      case Some(raw) => Update(c, Absorb(c, n, raw, now), now, pending)
      case None => Miss(c, n, now)
  }

  // ---------- Answers to /verify ----------

  predicate RateLimit(status: int) {
    status == 401 || status == 403 || status == 429
  }

  /** The last-good m is the pinned one. */
  predicate AtPin(c: Settings, n: Net) {
    Hybrid(c) && SaysM(n, c.forceM)
  }

  function Pause(c: Settings, n: Net, status: int): real {
    if n.active then 0.15 else if AtPin(c, n) || RateLimit(status) then 3.0 else Max(15.0, c.downPollSeconds as real)
  }

  function Refused(c: Settings, n: Net, status: int, now: real): Net {
    n.(backoffUntil := now + Pause(c, n, status), ok := n.ok && (AtPin(c, n) || RateLimit(status) || n.active))
  }

  function Taken(n: Net): Net {
    n.(backoffUntil := 0.0, ok := true)
  }

  function Probed(n: Net, answered: bool, now: real): Net {
    if n.ok || (n.probedAt > 0.0 && now - n.probedAt < PROBE_TTL) then n
    else n.(alive := answered, probedAt := now)
  }

  /** A probe that finds the pool dead holds everything back until it expires, and nothing afterwards. */
  lemma DeadProbeBlocks(c: Settings, n: Net, at: real, now: real)
    requires !n.ok && 0.0 < at <= now && !(n.probedAt > 0.0 && at - n.probedAt < 2.0)
    ensures var t := Probed(n, false, at);
      if now - at < 2.0 then !LiveAllowed(c, t, now) && !FlushAllowed(c, t, now)
      else LiveAllowed(c, t, now) == LiveAllowed(c, n.(probedAt := 0.0), now)
  {
  }

  // ---------- Runs ----------

  /** The bodies that change this state, by any thread, in any order. */
  datatype Event =
    | Poll(blocking: bool, st: Status, now: real, pending: seq<PendingBlock>)
    | Look(now: real, pending: seq<PendingBlock>)
    | Answer(taken: bool, status: int, now: real)
    | Probe(answered: bool, now: real)
    | AllHeld(now: real)           // an ordinary wave without one accept
    | Rotate(skipBefore: int)
    | FallBack                     // start-up without an answer

  function Step(c: Settings, n: Net, e: Event): Net {
    match e
    case Poll(blocking, st, now, pending) => Refresh(c, n, blocking, st, now, pending)
    case Look(now, pending) => Update(c, n, now, pending)
    case Answer(taken, status, now) => if taken then Taken(n) else Refused(c, n, status, now)
    case Probe(answered, now) => Probed(n, answered, now)
    case AllHeld(now) => n.(backoffUntil := now + 2.0)
    case Rotate(id) => n.(skipBefore := id)
    case FallBack => if n.lastGood.None? then n.(lastGood := Some(c.memoryCost), ok := false) else n
  }

  function Run(c: Settings, n: Net, events: seq<Event>): Net {
    if events == [] then n else Step(c, Run(c, n, events[..|events| - 1]), events[|events| - 1])
  }

  // ---------- An open window is at the last-good m ----------

  predicate WindowOk(c: Settings, n: Net) {
    n.active ==> DrainPossible(c) && n.lastGood == Some(c.forceM)
  }

  lemma UpdateWindow(c: Settings, n: Net, now: real, pending: seq<PendingBlock>)
    requires n.active ==> WindowOk(c, n) || LeftM(n, c.forceM) || !DrainPossible(c)
    ensures WindowOk(c, Update(c, n, now, pending))
  {
  }

  lemma AbsorbPositive(c: Settings, n: Net, raw: int, now: real)
    ensures Absorb(c, n, raw, now).lastGood.value > 0
  {
  }

  lemma StepWindow(c: Settings, n: Net, e: Event)
    requires WindowOk(c, n)
    ensures WindowOk(c, Step(c, n, e))
  {
    match e
    case Poll(blocking, st, now, pending) =>
      if !AlreadySeen(n, blocking, st) && st.difficulty.Some? {
        var m := if st.seqNo != 0 then n.(lastSeq := st.seqNo) else n;
        AbsorbPositive(c, m, st.difficulty.value, now);
        UpdateWindow(c, Absorb(c, m, st.difficulty.value, now), now, pending);
      }
    case Look(now, pending) => UpdateWindow(c, n, now, pending);
    case _ =>
  }

  /** In every run of whole bodies: while the window is open the miner is pinned, submits and drains, and
      the last-good m is the pinned m. */
  lemma {:induction false} WindowAtPin(c: Settings, events: seq<Event>)
    ensures WindowOk(c, Run(c, FRESH, events))
  {
    hide Step, WindowOk;
    if events == [] {
      FreshWindow(c);
    } else {
      var n := |events| - 1;
      WindowAtPin(c, events[..n]);
      StepWindow(c, Run(c, FRESH, events[..n]), events[n]);
    }
  }

  lemma FreshWindow(c: Settings)
    ensures WindowOk(c, FRESH)
  {
  }

  /** So a wave is always aimed at the last-good m, whether it drains or not. */
  lemma FlushAtLastGood(c: Settings, events: seq<Event>)
    ensures var n := Run(c, FRESH, events);
      FlushTarget(c, n) > 0 ==> n.lastGood == Some(FlushTarget(c, n))
  {
    hide Run;
    WindowAtPin(c, events);
  }

  // ---------- When the window closes ----------

  predicate Failed(e: Event) {
    e.Poll? && e.st.difficulty.None?
  }

  /** Failed polls, however many and however late, leave the window open and the last-good m as it was. */
  lemma {:induction false} FailedPollsKeepOpen(c: Settings, n: Net, events: seq<Event>)
    requires forall e :: e in events ==> Failed(e)
    ensures Run(c, n, events).active == n.active && Run(c, n, events).lastGood == n.lastGood
  {
    if events != [] {
      var k := |events| - 1;
      FailedPollsKeepOpen(c, n, events[..k]);
      assert events[k] in events;
      StepFailed(c, Run(c, n, events[..k]), events[k]);
    }
  }

  lemma StepFailed(c: Settings, n: Net, e: Event)
    requires Failed(e)
    ensures Step(c, n, e).active == n.active && Step(c, n, e).lastGood == n.lastGood
  {
  }

  /** A number that the miner takes at face value. */
  predicate Plausible(raw: int) {
    0 < raw <= 10_000_000
  }

  predicate ReportsOther(n: Net, e: Event, m: int) {
    && e.Poll? && !AlreadySeen(n, e.blocking, e.st)
    && e.st.difficulty.Some? && Plausible(e.st.difficulty.value) && e.st.difficulty.value != m
  }

  predicate LooksAtBag(n: Net, e: Event) {
    e.Look? || (e.Poll? && !AlreadySeen(n, e.blocking, e.st) && e.st.difficulty.Some?)
  }

  /** An open window closes in a step if and only if that step looks at the bag, and finds no block of the
      pinned m left, or the time spent, or has just been told another m. */
  lemma ClosesExactly(c: Settings, n: Net, e: Event)
    requires WindowOk(c, n) && n.active
    ensures !Step(c, n, e).active <==>
      LooksAtBag(n, e)
      && (Pinned(c, e.pending) == [] || (c.maxSeconds > 0 && 0.0 < n.until <= e.now) || ReportsOther(n, e, c.forceM))
  {
    hide Pinned;
    if e.Poll? && !AlreadySeen(n, e.blocking, e.st) && e.st.difficulty.Some? {
      var m := if e.st.seqNo != 0 then n.(lastSeq := e.st.seqNo) else n;
      var a := Absorb(c, m, e.st.difficulty.value, e.now);
      assert a.lastGood.value == if Plausible(e.st.difficulty.value) then e.st.difficulty.value else c.forceM;
    }
  }

  /** A shut window opens in a step if and only if the miner is pinned, submits and drains, and the step looks at the
      bag with the pinned m as the last-good one and enough blocks waiting for it. It then ends after the configured
      seconds, if there are any, and the rotation starts afresh. */
  lemma OpensExactly(c: Settings, n: Net, e: Event)
    requires !n.active
    ensures var t := Step(c, n, e);
      && (t.active <==>
            && LooksAtBag(n, e) && c.submitEnabled && c.drainEnabled && c.forceM > 0
            && t.lastGood == Some(c.forceM) && |Pinned(c, e.pending)| >= c.minQueue)
      && (t.active ==>
            t.until == (if c.maxSeconds > 0 then e.now + c.maxSeconds as real else 0.0) && t.skipBefore == 0)
      && (!t.active ==> t.until == n.until && (!e.Rotate? ==> t.skipBefore == n.skipBefore))
  {
    hide Pinned, Update;
    if LooksAtBag(n, e) {
      UpdateOpens(c, Known(c, n, e), e.now, e.pending);
    }
  }

  /** What an update goes by, after the poll that it follows. */
  function Known(c: Settings, n: Net, e: Event): Net
    requires LooksAtBag(n, e)
  {
    if e.Look? then n
    else Absorb(c, if e.st.seqNo != 0 then n.(lastSeq := e.st.seqNo) else n, e.st.difficulty.value, e.now)
  }

  lemma UpdateOpens(c: Settings, n: Net, now: real, pending: seq<PendingBlock>)
    requires !n.active
    ensures var t := Update(c, n, now, pending);
      && t.lastGood == n.lastGood
      && (t.active <==>
            && c.submitEnabled && c.drainEnabled && c.forceM > 0
            && n.lastGood == Some(c.forceM) && |Pinned(c, pending)| >= c.minQueue)
      && (t.active ==>
            t.until == (if c.maxSeconds > 0 then now + c.maxSeconds as real else 0.0) && t.skipBefore == 0)
      && (!t.active ==> t.until == n.until && t.skipBefore == n.skipBefore)
  {
    hide Pinned;
  }

  /** Without a last-good m there is no mismatch: the window stays until its time is spent. */
  lemma NoNumberNoMismatch(c: Settings, n: Net, now: real, pending: seq<PendingBlock>)
    requires n.active && DrainPossible(c) && (n.lastGood.None? || n.lastGood.value <= 0)
    ensures Update(c, n, now, pending).active <==> !(c.maxSeconds > 0 && 0.0 < n.until <= now)
  {
  }

  /** On a sound window the target of a wave is the last-good m, and there is none before there is one. */
  lemma TargetExactly(c: Settings, n: Net)
    requires WindowOk(c, n) && (c.memoryCost > 0 || n.lastGood.Some?)
    ensures FlushTarget(c, n) == if n.lastGood.Some? && n.lastGood.value > 0 then n.lastGood.value
                                 else if DrainMode(c, n) then FlushTarget(c, n) else 0
    ensures DrainMode(c, n) ==> n.lastGood.Some? && n.lastGood.value > 0
    ensures DrainMode(c, n) <==>
      n.active || (n.lastGood.Some? && n.lastGood.value > 0 && (c.forceM <= 0 || n.lastGood.value == c.forceM))
  {
  }

  // ---------- What opens and shuts the gates ----------

  /** Without submits nothing goes out, nor before the first answer. */
  lemma NothingBeforeAnswer(c: Settings, n: Net, now: real)
    requires !c.submitEnabled || n.lastGood.None? || n.lastGood.value <= 0
    ensures !LiveAllowed(c, n, now) && !FlushAllowed(c, n, now)
  {
  }

  /** A block that the pool takes ends every pause but that for a change of m. */
  lemma TakenOpens(c: Settings, n: Net, now: real)
    requires c.submitEnabled && n.lastGood.Some? && n.lastGood.value > 0 && now >= 0.0
    ensures var t := Step(c, n, Answer(true, 200, now));
      && t.ok && (LiveAllowed(c, t, now) <==> Hybrid(c) || now >= n.deferUntil)
      && (FlushAllowed(c, t, now) <==> LiveAllowed(c, t, now))
  {
  }

  /** An ordinary wave without one accept holds everything back for two seconds, but for an open window. */
  lemma HeldWavePauses(c: Settings, n: Net, at: real, now: real)
    requires LiveAllowed(c, n.(backoffUntil := now), now)
    ensures var t := Step(c, n, AllHeld(at));
      && (LiveAllowed(c, t, now) <==> now >= at + 2.0)
      && (FlushAllowed(c, t, now) <==> n.active || now >= at + 2.0)
  {
  }

  /** A start-up without an answer goes by the configured m, and counts as down. */
  lemma FallBackIsDown(c: Settings, n: Net)
    ensures var t := Step(c, n, FallBack);
      if n.lastGood.None? then t == n.(lastGood := Some(c.memoryCost), ok := false) else t == n
  {
  }

  // ---------- What an answer holds back ----------

  datatype Heard = Heard(raw: int, at: real)

  /** The answers that are polled, one after the other. */
  function Hears(c: Settings, n: Net, answers: seq<Heard>): Net {
    if answers == [] then n
    else
      var k := |answers| - 1;
      Absorb(c, Hears(c, n, answers[..k]), answers[k].raw, answers[k].at)
  }

  /** The last plausible number among them, or m. */
  function LastHeard(answers: seq<Heard>, m: int): int {
    if answers == [] then m
    else if Plausible(answers[|answers| - 1].raw) then answers[|answers| - 1].raw
    else LastHeard(answers[..|answers| - 1], m)
  }

  /** The answer at i reports another m than the one before it. */
  predicate ChangesM(answers: seq<Heard>, m: int, i: nat) {
    i < |answers| && Plausible(answers[i].raw) && answers[i].raw != LastHeard(answers[..i], m)
  }

  /** One answer holds submits and flushes back, in classic mode, for five seconds or a longer sampling interval if it
      reports another m, and not at all if it repeats the last-good one; in pinned mode nothing is held back. */
  lemma AnswerHolds(c: Settings, n: Net, raw: int, at: real, now: real)
    requires c.submitEnabled && n.lastGood.Some? && n.lastGood.value > 0 && now >= 0.0
    ensures var t := Absorb(c, n, raw, at);
      var pause := if c.sampleSeconds > 5 then c.sampleSeconds else 5;
      var held := !Hybrid(c)
        && now < if Plausible(raw) && raw != n.lastGood.value then at + pause as real else n.deferUntil;
      && (LiveAllowed(c, t, now) <==> !held) && (FlushAllowed(c, t, now) <==> !held)
      && t.lastGood == Some(if Plausible(raw) then raw else n.lastGood.value)
  {
  }

  /** The last plausible of a series of answers is the last-good m. */
  lemma {:induction false} AbsorbedLast(c: Settings, n: Net, answers: seq<Heard>)
    requires n.lastGood.Some? && n.lastGood.value > 0
    ensures var t := Hears(c, n, answers);
      && t.lastGood == Some(LastHeard(answers, n.lastGood.value)) && t.lastGood.value > 0
      && t.active == n.active && t.until == n.until
  {
    if answers != [] {
      AbsorbedLast(c, n, answers[..|answers| - 1]);
    }
  }

  /** The pause that a series of answers leaves behind is that of the last one that changed m, if there is one. */
  lemma {:induction false} PauseOfSeries(c: Settings, n: Net, answers: seq<Heard>, i: nat)
    requires n.lastGood.Some? && n.lastGood.value > 0
    requires forall j :: i < j ==> !ChangesM(answers, n.lastGood.value, j)
    ensures ChangesM(answers, n.lastGood.value, i) ==>
      Hears(c, n, answers).deferUntil == answers[i].at + Max(5.0, c.sampleSeconds as real)
    ensures (forall j :: !ChangesM(answers, n.lastGood.value, j)) ==> Hears(c, n, answers).deferUntil == n.deferUntil
  {
    if answers != [] {
      var k := |answers| - 1;
      var m := n.lastGood.value;
      AbsorbedLast(c, n, answers[..k]);
      forall j: nat | j < k ensures ChangesM(answers[..k], m, j) == ChangesM(answers, m, j) {
        assert answers[..k][..j] == answers[..j];
      }
      if !ChangesM(answers, m, k) {
        PauseOfSeries(c, n, answers[..k], i);
      }
    }
  }

  /** In classic mode, after any series of answers: submits and flushes are held back exactly until the pause of the
      last answer that changed m is over, and not at all by answers that repeat it. */
  lemma OnlyChangesHold(c: Settings, n: Net, answers: seq<Heard>, i: nat, now: real)
    requires !Hybrid(c) && c.submitEnabled && n.lastGood.Some? && n.lastGood.value > 0
    requires now >= 0.0 && answers != []
    requires forall j :: i < j ==> !ChangesM(answers, n.lastGood.value, j)
    ensures var t := Hears(c, n, answers);
      var pause := if c.sampleSeconds > 5 then c.sampleSeconds else 5;
      && (ChangesM(answers, n.lastGood.value, i) ==>
            (LiveAllowed(c, t, now) <==> now >= answers[i].at + pause as real)
            && (FlushAllowed(c, t, now) <==> now >= answers[i].at + pause as real))
      && ((forall j :: !ChangesM(answers, n.lastGood.value, j)) ==>
            (LiveAllowed(c, t, now) <==> now >= n.deferUntil)
            && (FlushAllowed(c, t, now) <==> now >= n.deferUntil))
  {
    PauseOfSeries(c, n, answers, i);
    AbsorbedLast(c, n, answers);
  }

  /** The first answer of all pauses nothing; a number out of range stands for the configured m, or 1100. */
  lemma FirstAnswer(c: Settings, n: Net, raw: int, at: real)
    requires n.lastGood.None?
    ensures var t := Absorb(c, n, raw, at);
      && t.deferUntil == n.deferUntil && t.ok
      && t.lastGood == Some(if Plausible(raw) then raw else if c.memoryCost > 0 then c.memoryCost else 1100)
  {
  }

  /** A snapshot of the poller counts once: read again without a new number it changes nothing, neither as an answer nor
      as a failure; a new one counts. */
  lemma SnapshotOnce(c: Settings, n: Net, blocking: bool, st: Status, now: real, pending: seq<PendingBlock>,
                     later: real, bag: seq<PendingBlock>)
    ensures var t := Refresh(c, n, blocking, st, now, pending);
      && Refresh(c, t, false, st, later, bag) == t
      && (st.seqNo != 0 && st.seqNo != n.lastSeq && st.difficulty.None? ==> t.failStreak == n.failStreak + 1)
      && (st.seqNo != 0 && st.seqNo != n.lastSeq && st.difficulty.Some? ==> t.ok && t.okAt == now)
  {
    hide Pinned;
  }

  // ---------- How long a last-good m counts as live ----------

  /** After any number of failed polls in a row since an answer at time at, the network still counts as up exactly while
      both budgets hold: six misses and 120 s at the pinned m, three and 60 s otherwise. */
  lemma UpAfterMisses(c: Settings, n: Net, raw: int, at: real, times: seq<real>)
    requires at > 0.0 && times != [] && forall i :: 0 <= i < |times| ==> at <= times[i]
    ensures var t := Misses(c, Absorb(c, n, raw, at), times);
      var late := times[|times| - 1] - at;
      && (t.ok <==> if c.forceM > 0 && t.lastGood == Some(c.forceM) then |times| < 6 && late < 120.0
                    else |times| < 3 && late < 60.0)
      && t.lastGood == Absorb(c, n, raw, at).lastGood && t.active == n.active && t.stale
  {
    AbsorbPositive(c, n, raw, at);
    MissesInARow(c, Absorb(c, n, raw, at), times);
  }

  /** The same from any moment without a miss. */
  lemma {:induction false} MissesInARow(c: Settings, n: Net, times: seq<real>)
    requires n.lastGood.Some? && n.failStreak == 0 && n.okAt > 0.0 && times != []
    requires forall i :: 0 <= i < |times| ==> n.okAt <= times[i]
    ensures var t := Misses(c, n, times);
      && t.ok == (|times| < FailBudget(c, n) && times[|times| - 1] - n.okAt < AgeBudget(c, n))
      && t.failStreak == |times| && t.okAt == n.okAt && t.lastGood == n.lastGood && t.active == n.active && t.stale
  {
    var k := |times| - 1;
    if k > 0 {
      MissesInARow(c, n, times[..k]);
    }
  }

  function Misses(c: Settings, n: Net, times: seq<real>): Net {
    if times == [] then n else Miss(c, Misses(c, n, times[..|times| - 1]), times[|times| - 1])
  }

  // ---------- Refusals ----------

  /** A refused submit holds live submits back until exactly the end of its pause, of at least three seconds outside
      a window; an open window goes on flushing as if nothing had happened. */
  lemma RefusalHolds(c: Settings, n: Net, status: int, at: real, now: real)
    ensures var t := Refused(c, n, status, at);
      var pinned := c.forceM > 0 && n.lastGood == Some(c.forceM);
      var long := if c.downPollSeconds > 15 then c.downPollSeconds else 15;
      var pause := if n.active then 0.15 else if pinned || status in {401, 403, 429} then 3.0 else long as real;
      && (LiveAllowed(c, t, now) <==> at + pause <= now && LiveAllowed(c, t.(backoffUntil := now), now))
      && (n.active ==> (FlushAllowed(c, t, now) <==> FlushAllowed(c, n, now)))
      && (!n.active && now < at + 3.0 ==> !LiveAllowed(c, t, now) && !FlushAllowed(c, t, now))
  {
  }

  function Refusals(c: Settings, n: Net, answers: seq<(int, real)>): Net {
    if answers == [] then n
    else
      var k := |answers| - 1;
      Refused(c, Refusals(c, n, answers[..k]), answers[k].0, answers[k].1)
  }

  /** The network stays up through a series of refusals exactly when the last-good m is the pinned one, or a window is
      open, or every one of them was a rate limit; neither window nor last-good m moves. */
  lemma {:induction false} RefusalsInARow(c: Settings, n: Net, answers: seq<(int, real)>)
    ensures var t := Refusals(c, n, answers);
      && t.lastGood == n.lastGood && t.active == n.active
      && (t.ok <==> n.ok && (AtPin(c, n) || n.active || forall a :: a in answers ==> RateLimit(a.0)))
  {
    if answers != [] {
      var k := |answers| - 1;
      assert answers == answers[..k] + [answers[k]];
      RefusalsInARow(c, n, answers[..k]);
    }
  }

  // ---------- Overlapping bodies ----------

  /** When the two halves of update_match_drain are kept apart by answers that another thread stores, the
      window opens on what the first half saw, and is at the last-good m exactly when the last plausible
      of those answers, if there is one, is the pinned m. */
  lemma OpensOnStaleRead(c: Settings, n: Net, pending: seq<PendingBlock>, answers: seq<Heard>, now: real)
    requires DrainPossible(c) && !n.active
    requires SaysM(n, c.forceM) && |Pinned(c, pending)| >= c.minQueue
    ensures var t := Act(c, Hears(c, n, answers), See(c, n, pending), now);
      t.active && (WindowOk(c, t) <==> LastHeard(answers, c.forceM) == c.forceM)
  {
    AbsorbedLast(c, n, answers);
  }

  /** A window that opened that way, without a time budget, outlives three failed polls and any bag, even an
      empty one, and its waves are aimed at an m that is not the last-good one. */
  lemma StaleWindowStays(c: Settings, n: Net, seen: Seen, raw: int, now: real, later: real, bag: seq<PendingBlock>)
    requires DrainPossible(c) && c.maxSeconds <= 0
    requires !n.active && SaysM(n, c.forceM) && seen.matches && seen.bagQueue >= c.minQueue
    requires Plausible(raw) && raw != c.forceM && 0.0 < now <= later
    ensures var stuck := Misses(c, Act(c, Absorb(c, n, raw, now), seen, now), [later, later, later]);
      && Update(c, stuck, later, bag).active
      && FlushTarget(c, stuck) == c.forceM != raw && stuck.lastGood == Some(raw)
  {
    MissesInARow(c, Act(c, Absorb(c, n, raw, now), seen, now), [later, later, later]);
  }
}
