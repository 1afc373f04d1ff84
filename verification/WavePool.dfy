/** The worker pool of a flush wave: threads claim work indices from one shared counter
    (src/app/supervisor.cpp, try_flush_pending). Each step makes one access to shared state. */
module WavePool {
  import opened Responses
  import opened Seqs

  datatype Pc =
    | Top                 // about to look at the stop flag
    | Cleared             // saw the flag down; about to claim
    | Claimed(i: nat)     // index i is in flight over HTTP
    | Filed(i: nat, outcome: Outcome)   // the answer is filed; the counter of its outcome is next
    | Counting(i: nat)    // the done counter is next
    | Exited

  /** An answer of the pool to the item at index i. */
  datatype Reply = Reply(i: nat, status: int, body: string)

  datatype Pool = Pool(
    size: nat,
    obeysStop: bool,                    // false for the serial wave at shutdown
    next: nat,
    workers: seq<Pc>,
    accepted: nat, transients: nat, holds: nat, rejected: nat,
    done: nat,
    handled: seq<Reply>)                // every answer, in the order it was filed

  function Start(size: nat, nworkers: nat, obeysStop: bool): Pool {
    Pool(size, obeysStop, 0, seq(nworkers, _ => Top), 0, 0, 0, 0, 0, [])
  }

  datatype PoolEvent =
    | Check(stop: bool)
    | Claim
    | Answer(status: int, body: string)
    | Tally
    | Count

  predicate Enabled(p: Pool, w: nat, e: PoolEvent) {
    && w < |p.workers|
    && match p.workers[w]
       case Top => e.Check?
       case Cleared => e.Claim?
       case Claimed(_) => e.Answer?
       case Filed(_, _) => e.Tally?
       case Counting(_) => e.Count?
       case Exited => false
  }

  function Tallied(p: Pool, outcome: Outcome): Pool {
    match outcome
    case Accepted => p.(accepted := p.accepted + 1)
    case Transient => p.(transients := p.transients + 1)
    case Held => p.(holds := p.holds + 1)
    case Rejected => p.(rejected := p.rejected + 1)
  }

  function PoolStep(p: Pool, w: nat, e: PoolEvent): Pool
    requires Enabled(p, w, e)
  {
    match e
    case Check(stop) =>
      p.(workers := p.workers[w := if p.obeysStop && stop then Exited else Cleared])
    case Claim =>
      p.(next := p.next + 1, workers := p.workers[w := if p.next < p.size then Claimed(p.next) else Exited])
    case Answer(status, body) =>
      var i, outcome := p.workers[w].i, FlushOutcome(status, body);
      p.(handled := p.handled + [Reply(i, status, body)], workers := p.workers[w := Filed(i, outcome)])
    case Tally =>
      Tallied(p, p.workers[w].outcome).(workers := p.workers[w := Counting(p.workers[w].i)])
    case Count =>
      p.(done := p.done + 1, workers := p.workers[w := Top])
  }

  predicate Joined(p: Pool) {
    forall w :: 0 <= w < |p.workers| ==> p.workers[w] == Exited
  }

  // ---------- The invariant ----------

  predicate InFlight(p: Pool, i: nat) {
    exists w :: 0 <= w < |p.workers| && p.workers[w] == Claimed(i)
  }

  predicate Handled(p: Pool, i: nat) {
    exists k :: 0 <= k < |p.handled| && p.handled[k].i == i
  }

  function Issued(p: Pool): nat {
    if p.next < p.size then p.next else p.size
  }

  function CountClaimed(s: seq<Pc>): nat {
    if s == [] then 0 else CountClaimed(s[1..]) + (if s[0].Claimed? then 1 else 0)
  }

  function CountFiled(s: seq<Pc>): nat {
    if s == [] then 0 else CountFiled(s[1..]) + (if s[0].Filed? then 1 else 0)
  }

  predicate FiledAs(pc: Pc, outcome: Outcome) {
    pc.Filed? && pc.outcome == outcome
  }

  function CountFiledAs(s: seq<Pc>, outcome: Outcome): nat {
    if s == [] then 0 else CountFiledAs(s[1..], outcome) + (if FiledAs(s[0], outcome) then 1 else 0)
  }

  // The four classes of answers, as the submitter tells them apart.

  function Taken(): Reply -> bool {
    (r: Reply) => SubmitAccepted(r.status, r.body)
  }

  function Broken(): Reply -> bool {
    (r: Reply) => !SubmitAccepted(r.status, r.body) && IsTransient(r.status, r.body)
  }

  function HeldBack(): Reply -> bool {
    (r: Reply) =>
      && !SubmitAccepted(r.status, r.body) && !IsTransient(r.status, r.body) && !CountsAsReject(r.status, r.body)
  }

  function Refused(): Reply -> bool {
    (r: Reply) => CountsAsReject(r.status, r.body)
  }

  function ClassOf(outcome: Outcome): Reply -> bool {
    match outcome
    case Accepted => Taken()
    case Transient => Broken()
    case Held => HeldBack()
    case Rejected => Refused()
  }

  function CounterOf(p: Pool, outcome: Outcome): nat {
    match outcome
    case Accepted => p.accepted
    case Transient => p.transients
    case Held => p.holds
    case Rejected => p.rejected
  }

  /** The counter of an outcome, with the workers that are about to raise it, is the number of its answers. */
  predicate Tallies(p: Pool, outcome: Outcome) {
    CounterOf(p, outcome) + CountFiledAs(p.workers, outcome) == |Keep(p.handled, ClassOf(outcome))|
  }

  lemma OneClass(r: Reply, outcome: Outcome)
    ensures ClassOf(outcome)(r) <==> FlushOutcome(r.status, r.body) == outcome
  {
    hide SubmitAccepted, IsTransient, IsPoolHold, IsDifficultyMismatch, IsXuniWindowReject;
  }

  function CountCounting(s: seq<Pc>): nat {
    if s == [] then 0 else CountCounting(s[1..]) + (if s[0].Counting? then 1 else 0)
  }

  ghost predicate PoolInv(p: Pool) {
    // each issued index is with one worker or filed once, and nothing else is
    && (forall w :: 0 <= w < |p.workers| && p.workers[w].Claimed? ==> p.workers[w].i < Issued(p))
    && (forall k :: 0 <= k < |p.handled| ==> p.handled[k].i < Issued(p))
    && (forall w, v :: 0 <= w < v < |p.workers| && p.workers[w].Claimed? ==> p.workers[w] != p.workers[v])
    && (forall j, k :: 0 <= j < k < |p.handled| ==> p.handled[j].i != p.handled[k].i)
    && (forall w, k :: 0 <= w < |p.workers| && 0 <= k < |p.handled| ==> p.workers[w] != Claimed(p.handled[k].i))
    && (forall i :: 0 <= i < Issued(p) ==> InFlight(p, i) || Handled(p, i))
    // the counters add up
    && |p.handled| + CountClaimed(p.workers) == Issued(p)
    && |p.handled| == p.done + CountCounting(p.workers) + CountFiled(p.workers)
    && (forall outcome: Outcome :: Tallies(p, outcome))
  }

  lemma {:induction false} CountUpdate(s: seq<Pc>, w: nat, pc: Pc)
    requires w < |s|
    ensures CountClaimed(s[w := pc])
         == CountClaimed(s) - (if s[w].Claimed? then 1 else 0) + (if pc.Claimed? then 1 else 0)
    ensures CountCounting(s[w := pc])
         == CountCounting(s) - (if s[w].Counting? then 1 else 0) + (if pc.Counting? then 1 else 0)
    ensures CountFiled(s[w := pc])
         == CountFiled(s) - (if s[w].Filed? then 1 else 0) + (if pc.Filed? then 1 else 0)
    ensures forall outcome ::
      (CountFiledAs(s[w := pc], outcome)
       == CountFiledAs(s, outcome) - (if FiledAs(s[w], outcome) then 1 else 0)
          + (if FiledAs(pc, outcome) then 1 else 0))
  {
    if w > 0 {
      assert s[w := pc][1..] == s[1..][w - 1 := pc];
      CountUpdate(s[1..], w - 1, pc);
    } else {
      assert s[w := pc][1..] == s[1..];
    }
  }

  lemma {:induction false} CountNone(s: seq<Pc>)
    requires forall w :: 0 <= w < |s| ==> !s[w].Claimed? && !s[w].Counting? && !s[w].Filed?
    ensures CountClaimed(s) == 0 && CountCounting(s) == 0 && CountFiled(s) == 0
    ensures forall outcome :: CountFiledAs(s, outcome) == 0
  {
    if s != [] {
      CountNone(s[1..]);
    }
  }

  lemma StartInv(size: nat, nworkers: nat, obeysStop: bool)
    ensures PoolInv(Start(size, nworkers, obeysStop))
  {
    CountNone(Start(size, nworkers, obeysStop).workers);
  }

  /** A step of a worker that is not in flight covers what was covered. */
  lemma StillCovers(p: Pool, q: Pool, w: nat)
    requires PoolInv(p) && w < |p.workers| && !p.workers[w].Claimed?
    requires q.next == p.next && q.size == p.size && q.handled == p.handled && |q.workers| == |p.workers|
    requires forall v :: 0 <= v < |p.workers| && v != w ==> q.workers[v] == p.workers[v]
    ensures forall i :: 0 <= i < Issued(q) ==> InFlight(q, i) || Handled(q, i)
  {
    forall i | 0 <= i < Issued(q) ensures InFlight(q, i) || Handled(q, i) {
      if InFlight(p, i) {
        var v :| 0 <= v < |p.workers| && p.workers[v] == Claimed(i);
        assert q.workers[v] == Claimed(i);
      } else {
        var k :| 0 <= k < |p.handled| && p.handled[k].i == i;
        assert q.handled[k].i == i;
      }
    }
  }

  /** A step that files no answer and raises no counter but that of the worker's own outcome. */
  lemma StillTallies(p: Pool, q: Pool, w: nat)
    requires (forall o: Outcome :: Tallies(p, o)) && w < |p.workers| == |q.workers| && q.handled == p.handled
    requires q.workers == p.workers[w := q.workers[w]] && !q.workers[w].Filed?
    requires forall o :: CounterOf(q, o) == CounterOf(p, o) + if FiledAs(p.workers[w], o) then 1 else 0
    ensures forall o: Outcome :: Tallies(q, o)
  {
    hide CounterOf, ClassOf;
    CountUpdate(p.workers, w, q.workers[w]);
    forall o: Outcome ensures Tallies(q, o) {
      assert Tallies(p, o);
    }
  }

  lemma TallyInv(p: Pool, w: nat)
    requires PoolInv(p) && Enabled(p, w, Tally)
    ensures PoolInv(PoolStep(p, w, Tally))
  {
    hide CountClaimed, CountFiled, CountCounting, InFlight, Handled;
    var q := PoolStep(p, w, Tally);
    CountUpdate(p.workers, w, q.workers[w]);
    StillCovers(p, q, w);
    StillTallies(p, q, w);
  }

  lemma QuietStepInv(p: Pool, w: nat, e: PoolEvent)
    requires PoolInv(p) && Enabled(p, w, e) && (e.Check? || e.Count?)
    ensures PoolInv(PoolStep(p, w, e))
  {
    hide CountClaimed, CountFiled, CountCounting, InFlight, Handled;
    var q := PoolStep(p, w, e);
    CountUpdate(p.workers, w, q.workers[w]);
    StillCovers(p, q, w);
    StillTallies(p, q, w);
  }

  lemma ClaimInv(p: Pool, w: nat)
    requires PoolInv(p) && Enabled(p, w, Claim)
    ensures PoolInv(PoolStep(p, w, Claim))
  {
    var q := PoolStep(p, w, Claim);
    CountUpdate(p.workers, w, q.workers[w]);
    StillTallies(p, q, w);
    forall i | 0 <= i < Issued(q) ensures InFlight(q, i) || Handled(q, i) {
      if i == p.next {
        assert q.workers[w] == Claimed(i);
      } else if InFlight(p, i) {
        var v :| 0 <= v < |p.workers| && p.workers[v] == Claimed(i);
        assert q.workers[v] == Claimed(i);
      } else {
        var k :| 0 <= k < |p.handled| && p.handled[k].i == i;
        assert q.handled[k].i == i;
      }
    }
  }

  lemma FileInv(p: Pool, w: nat, status: int, body: string)
    requires PoolInv(p) && w < |p.workers| && p.workers[w].Claimed?
    ensures PoolInv(PoolStep(p, w, Answer(status, body)))
  {
    hide FlushOutcome, ClassOf;
    var i, outcome := p.workers[w].i, FlushOutcome(status, body);
    var q := PoolStep(p, w, Answer(status, body));
    CountUpdate(p.workers, w, Filed(i, outcome));
    FileCovers(p, q, w);
    forall o: Outcome ensures Tallies(q, o) {
      assert Tallies(p, o);
      KeepSnoc(p.handled, Reply(i, status, body), ClassOf(o));
      OneClass(Reply(i, status, body), o);
    }
  }

  lemma FileCovers(p: Pool, q: Pool, w: nat)
    requires PoolInv(p) && w < |p.workers| && p.workers[w].Claimed?
    requires q.next == p.next && q.size == p.size
    requires |q.workers| == |p.workers| && forall v :: 0 <= v < |p.workers| && v != w ==> q.workers[v] == p.workers[v]
    requires |q.handled| == |p.handled| + 1 && q.handled[..|p.handled|] == p.handled
    requires q.handled[|p.handled|].i == p.workers[w].i
    ensures forall i :: 0 <= i < Issued(q) ==> InFlight(q, i) || Handled(q, i)
  {
    forall i | 0 <= i < Issued(q) ensures InFlight(q, i) || Handled(q, i) {
      if i == p.workers[w].i {
        assert q.handled[|p.handled|].i == i;
      } else if InFlight(p, i) {
        var v :| 0 <= v < |p.workers| && p.workers[v] == Claimed(i);
        assert q.workers[v] == Claimed(i);
      } else {
        var k :| 0 <= k < |p.handled| && p.handled[k].i == i;
        assert q.handled[k].i == i;
      }
    }
  }

  lemma PoolStepInv(p: Pool, w: nat, e: PoolEvent)
    requires PoolInv(p) && Enabled(p, w, e)
    ensures PoolInv(PoolStep(p, w, e))
  {
    match e
    case Claim => ClaimInv(p, w);
    case Answer(status, body) => FileInv(p, w, status, body);
    case Tally => TallyInv(p, w);
    case _ => QuietStepInv(p, w, e);
  }

  // ---------- Every interleaving ----------

  datatype Turn = Turn(w: nat, e: PoolEvent)

  /** The turns can be taken one after the other from p on. */
  predicate Runs(p: Pool, turns: seq<Turn>)
    decreases turns
  {
    turns == []
    || (Enabled(p, turns[0].w, turns[0].e) && Runs(PoolStep(p, turns[0].w, turns[0].e), turns[1..]))
  }

  function Ran(p: Pool, turns: seq<Turn>): Pool
    requires Runs(p, turns)
    decreases turns
  {
    if turns == [] then p else Ran(PoolStep(p, turns[0].w, turns[0].e), turns[1..])
  }

  lemma {:induction false} RunInv(p: Pool, turns: seq<Turn>)
    requires PoolInv(p) && Runs(p, turns)
    ensures var q := Ran(p, turns);
      PoolInv(q) && q.size == p.size && |q.workers| == |p.workers|
    decreases turns
  {
    if turns != [] {
      PoolStepInv(p, turns[0].w, turns[0].e);
      RunInv(PoolStep(p, turns[0].w, turns[0].e), turns[1..]);
    }
  }

  /** Whatever the interleaving, and even when shutdown stops the pool early: when all workers have left,
      the indices sent are exactly a prefix of the work, each sent once, and each of the four counters is the number
      of answers of its class, which together are all of them. */
  lemma JoinedWave(size: nat, nworkers: nat, obeysStop: bool, turns: seq<Turn>)
    requires Runs(Start(size, nworkers, obeysStop), turns)
    ensures var p := Ran(Start(size, nworkers, obeysStop), turns);
      Joined(p) ==>
        && (forall i: nat :: i < Issued(p) <==> Handled(p, i))
        && (forall j, k :: 0 <= j < k < |p.handled| ==> p.handled[j].i != p.handled[k].i)
        && p.done == Issued(p) == p.accepted + p.transients + p.holds + p.rejected
        && p.accepted == |Keep(p.handled, Taken())| && p.transients == |Keep(p.handled, Broken())|
        && p.holds == |Keep(p.handled, HeldBack())| && p.rejected == |Keep(p.handled, Refused())|
  {
    StartInv(size, nworkers, obeysStop);
    RunInv(Start(size, nworkers, obeysStop), turns);
    var p := Ran(Start(size, nworkers, obeysStop), turns);
    if Joined(p) {
      JoinedCounts(p);
    }
  }

  lemma JoinedCounts(p: Pool)
    requires PoolInv(p) && Joined(p)
    ensures forall i: nat :: i < Issued(p) <==> Handled(p, i)
    ensures p.done == Issued(p) == p.accepted + p.transients + p.holds + p.rejected
    ensures p.accepted == |Keep(p.handled, Taken())| && p.transients == |Keep(p.handled, Broken())|
    ensures p.holds == |Keep(p.handled, HeldBack())| && p.rejected == |Keep(p.handled, Refused())|
  {
    CountNone(p.workers);
    assert Tallies(p, Accepted) && Tallies(p, Transient) && Tallies(p, Held) && Tallies(p, Rejected);
    FourClasses(p.handled);
    forall i: nat ensures i < Issued(p) <==> Handled(p, i) {
      if i < Issued(p) {
        assert !InFlight(p, i);
      }
    }
  }

  lemma {:induction false} FourClasses(handled: seq<Reply>)
    ensures |handled| == |Keep(handled, Taken())| + |Keep(handled, Broken())| + |Keep(handled, HeldBack())|
                         + |Keep(handled, Refused())|
  {
    if handled != [] {
      var n := |handled| - 1;
      FourClasses(handled[..n]);
      OneClassAtMost(handled[n]);
    }
  }

  lemma OneClassAtMost(r: Reply)
    ensures var o := FlushOutcome(r.status, r.body);
      && (Taken()(r) <==> o == Accepted) && (Broken()(r) <==> o == Transient)
      && (HeldBack()(r) <==> o == Held) && (Refused()(r) <==> o == Rejected)
  {
    OneClass(r, Accepted);
    OneClass(r, Transient);
    OneClass(r, Held);
    OneClass(r, Rejected);
  }

  // ---------- Stopping and not stopping ----------

  /** A worker that has left found nothing more to claim. */
  ghost predicate LeftForNothing(p: Pool) {
    forall w :: 0 <= w < |p.workers| && p.workers[w].Exited? ==> p.next >= p.size
  }

  predicate Unstopped(p: Pool, turns: seq<Turn>) {
    !p.obeysStop || forall t :: t in turns && t.e.Check? ==> !t.e.stop
  }

  lemma {:induction false} RunLeaves(p: Pool, turns: seq<Turn>)
    requires LeftForNothing(p) && Runs(p, turns) && Unstopped(p, turns)
    ensures LeftForNothing(Ran(p, turns))
    decreases turns
  {
    if turns != [] {
      assert turns[0] in turns;
      StepLeaves(p, turns[0].w, turns[0].e);
      RunLeaves(PoolStep(p, turns[0].w, turns[0].e), turns[1..]);
    }
  }

  lemma StepLeaves(p: Pool, w: nat, e: PoolEvent)
    requires LeftForNothing(p) && Enabled(p, w, e) && (e.Check? ==> !(p.obeysStop && e.stop))
    ensures LeftForNothing(PoolStep(p, w, e)) && PoolStep(p, w, e).obeysStop == p.obeysStop
  {
    hide FlushOutcome;
  }

  /** A pool that does not obey the stop flag, as in the last wave, or never sees it up, sends all of its work. */
  lemma SendsAll(size: nat, nworkers: nat, obeysStop: bool, turns: seq<Turn>)
    requires nworkers > 0 && Runs(Start(size, nworkers, obeysStop), turns)
    requires Unstopped(Start(size, nworkers, obeysStop), turns)
    ensures var p := Ran(Start(size, nworkers, obeysStop), turns);
      Joined(p) ==> p.done == size && forall i: nat :: i < size <==> Handled(p, i)
  {
    var s := Start(size, nworkers, obeysStop);
    JoinedWave(size, nworkers, obeysStop, turns);
    StartInv(size, nworkers, obeysStop);
    RunInv(s, turns);
    RunLeaves(s, turns);
    if Joined(Ran(s, turns)) {
      assert Ran(s, turns).workers[0].Exited?;
    }
  }

  /** A worker that will still send: it has passed the flag, or its item is on its way. */
  predicate Sending(pc: Pc) {
    pc.Cleared? || pc.Claimed?
  }

  function CountSending(s: seq<Pc>): nat {
    if s == [] then 0 else CountSending(s[1..]) + (if Sending(s[0]) then 1 else 0)
  }

  lemma {:induction false} SendingUpdate(s: seq<Pc>, w: nat, pc: Pc)
    requires w < |s|
    ensures CountSending(s[w := pc])
         == CountSending(s) - (if Sending(s[w]) then 1 else 0) + (if Sending(pc) then 1 else 0)
  {
    if w > 0 {
      assert s[w := pc][1..] == s[1..][w - 1 := pc];
      SendingUpdate(s[1..], w - 1, pc);
    } else {
      assert s[w := pc][1..] == s[1..];
    }
  }

  lemma {:induction false} SendingAtMost(s: seq<Pc>)
    ensures CountSending(s) <= |s|
  {
    if s != [] {
      SendingAtMost(s[1..]);
    }
  }

  /** Once the flag is up, an ordinary wave gets at most the answers of the workers that were past it: one for each. */
  lemma {:induction false} StopsSoon(p: Pool, turns: seq<Turn>)
    requires p.obeysStop && Runs(p, turns) && forall t :: t in turns && t.e.Check? ==> t.e.stop
    ensures var q := Ran(p, turns);
      |q.handled| + CountSending(q.workers) <= |p.handled| + CountSending(p.workers) <= |p.handled| + |p.workers|
    decreases turns
  {
    SendingAtMost(p.workers);
    if turns != [] {
      assert turns[0] in turns;
      StepStops(p, turns[0].w, turns[0].e);
      StopsSoon(PoolStep(p, turns[0].w, turns[0].e), turns[1..]);
    }
  }

  lemma StepStops(p: Pool, w: nat, e: PoolEvent)
    requires p.obeysStop && Enabled(p, w, e) && (e.Check? ==> e.stop)
    ensures var q := PoolStep(p, w, e);
      q.obeysStop && |q.handled| + CountSending(q.workers) <= |p.handled| + CountSending(p.workers)
  {
    hide FlushOutcome, CountSending;
    SendingUpdate(p.workers, w, PoolStep(p, w, e).workers[w]);
  }
}
