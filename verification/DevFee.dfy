/** The 99 + 1 cycle of the dev fee (src/mining/cuda_engine.cpp, select_payout_salt and
    stamp_and_count_hits). */
module DevFee {

  const USER_FINDS := 99
  const FEE_FINDS := 1

  /** Whether the fee is on, and whether the wallet is the fee address itself. */
  datatype Payee = Payee(feeOn: bool, ownAddress: bool)

  datatype Cycle = Cycle(miningFee: bool, userFinds: nat, feeFinds: nat, payFee: bool)

  const FIRST := Cycle(false, 0, 0, false)

  function Select(p: Payee, s: Cycle): Cycle {
    if !p.feeOn || p.ownAddress then s.(miningFee := false, payFee := false) else s.(payFee := s.miningFee)
  }

  function Counted(p: Payee, s: Cycle, n: nat): Cycle {
    if n == 0 || !p.feeOn then s
    else if s.miningFee then
      var f: nat := s.feeFinds + n;
      if f >= FEE_FINDS then s.(miningFee := false, userFinds := 0, feeFinds := 0) else s.(feeFinds := f)
    else s.(userFinds := s.userFinds + n, miningFee := s.userFinds + n >= USER_FINDS)
  }

  class FeeCycle {
    const p: Payee
    var miningFee: bool
    var userFinds: nat
    var feeFinds: nat
    var payFee: bool       // which account and salt the next batch runs for

    constructor (p: Payee)
      ensures this.p == p && View() == FIRST
    {
      this.p := p;
      miningFee, userFinds, feeFinds, payFee := false, 0, 0, false;
    }

    function View(): Cycle
      reads this
    {
      Cycle(miningFee, userFinds, feeFinds, payFee)
    }

    method SelectPayoutSalt()
      modifies this
      ensures View() == Select(p, old(View()))
    {
      if !p.feeOn || p.ownAddress {
        miningFee := false;
        payFee := false;
        return;
      }
      payFee := miningFee;
    }

    method StampAndCountHits(n: nat)
      modifies this
      ensures View() == Counted(p, old(View()), n)
    {
      if n == 0 || !p.feeOn { return; }
      if miningFee {
        feeFinds := feeFinds + n;
        if feeFinds >= FEE_FINDS {
          miningFee, userFinds, feeFinds := false, 0, 0;
        }
      } else {
        userFinds := userFinds + n;
        if userFinds >= 100 - FEE_FINDS {
          miningFee := true;
        }
      }
    }
  }

  // ---------- Runs ----------

  /** A batch of mine_batch, or the hits of drain_pipeline, which does not select anew. */
  datatype Event = Batch(hits: nat) | Drain(hits: nat)

  /** The finds so far, and how often the cycle has been completed. */
  datatype Tally = Tally(cycle: Cycle, user: nat, fee: nat, rounds: nat)

  /** Hits carry the fee flag as it stands while the batch runs. */
  function Step(p: Payee, t: Tally, e: Event): Tally {
    var s := if e.Batch? then Select(p, t.cycle) else t.cycle;
    Tally(Counted(p, s, e.hits),
          t.user + if s.miningFee then 0 else e.hits,
          t.fee + (if s.miningFee then e.hits else 0),
          t.rounds + if s.miningFee && e.hits > 0 then 1 else 0)
  }

  function Run(p: Payee, events: seq<Event>): Tally {
    if events == [] then Tally(FIRST, 0, 0, 0) else Step(p, Run(p, events[..|events| - 1]), events[|events| - 1])
  }

  predicate UpTo(events: seq<Event>, b: nat) {
    forall e :: e in events ==> e.hits <= b
  }

  ghost predicate Share(t: Tally, b: nat) {
    && t.cycle.feeFinds == 0
    && (t.cycle.miningFee <==> t.cycle.userFinds >= USER_FINDS)
    && t.cycle.userFinds <= t.user && t.cycle.userFinds <= 98 + b
    && t.rounds <= t.fee <= b * t.rounds
    && 99 * t.rounds <= t.user - t.cycle.userFinds <= (98 + b) * t.rounds
  }

  lemma OneMore(x: nat, k: nat)
    ensures x * (k + 1) == x * k + x
  {
  }

  lemma Scaled(x: nat, j: nat, k: nat)
    requires j <= k
    ensures x * j <= x * k
  {
  }

  lemma StepShare(p: Payee, t: Tally, e: Event, b: nat)
    requires p.feeOn && !p.ownAddress && Share(t, b) && e.hits <= b
    ensures Share(Step(p, t, e), b)
  {
    OneMore(b, t.rounds);
    OneMore(98 + b, t.rounds);
  }

  lemma {:induction false} RunShare(p: Payee, events: seq<Event>, b: nat)
    requires p.feeOn && !p.ownAddress && UpTo(events, b)
    ensures Share(Run(p, events), b)
  {
    if events != [] {
      var n := |events| - 1;
      RunShare(p, events[..n], b);
      assert events[n] in events;
      StepShare(p, Run(p, events[..n]), events[n], b);
    }
  }

  /** With the fee on and batches of at most b hits, after every run, and so in every prefix of one: the fee
      has at most b finds for 99 of the user, and the user at most 98 + b for one of the fee, over and above the
      cycle that is under way. */
  lemma FeeShare(p: Payee, events: seq<Event>, b: nat)
    requires p.feeOn && !p.ownAddress && UpTo(events, b) && b > 0
    ensures var t := Run(p, events);
      99 * t.fee <= b * t.user && t.user <= (98 + b) * (t.fee + 1)
  {
    RunShare(p, events, b);
    var t := Run(p, events);
    hide Run;
    FeeSide(b, t.rounds, t.fee, t.user);
    UserSide(98 + b, t.rounds, t.fee, t.user - t.cycle.userFinds, t.user);
  }

  lemma FeeSide(b: nat, rounds: nat, fee: nat, user: nat)
    requires fee <= b * rounds && 99 * rounds <= user
    ensures 99 * fee <= b * user
  {
    Scaled(b, 99 * rounds, user);
    calc {
      99 * (b * rounds);
    ==
      b * (99 * rounds);
    }
  }

  lemma UserSide(c: nat, rounds: nat, fee: nat, settled: int, user: nat)
    requires rounds <= fee && settled <= c * rounds && user <= settled + c
    ensures user <= c * (fee + 1)
  {
    Scaled(c, rounds, fee);
    OneMore(c, fee);
  }

  /** With at most one hit in a batch, the fee has exactly one find in a hundred, rounded down. */
  lemma {:induction false} OneInAHundred(p: Payee, events: seq<Event>)
    requires p.feeOn && !p.ownAddress && UpTo(events, 1)
    ensures var t := Run(p, events);
      t.fee == (t.user + t.fee) / 100
      && t.user + t.fee == 100 * t.fee + t.cycle.userFinds && t.cycle.userFinds <= 99 && t.cycle.feeFinds == 0
      && (t.cycle.miningFee <==> t.cycle.userFinds == 99)
  {
    if events != [] {
      OneInAHundred(p, events[..|events| - 1]);
      assert events[|events| - 1] in events;
    }
  }

  /** With the fee off nothing is flagged as fee, by batches or by drains. */
  lemma {:induction false} FeeOff(p: Payee, events: seq<Event>)
    requires !p.feeOn
    ensures var t := Run(p, events); t.fee == 0 && t.rounds == 0 && t.cycle == FIRST
  {
    if events != [] {
      FeeOff(p, events[..|events| - 1]);
    }
  }

  /** For the fee address itself no batch is flagged; a drain is, all of it, exactly when the batch before it had
      hits and brought the user's finds to 99. */
  lemma OwnAddress(p: Payee, t: Tally, batch: nat, drained: nat)
    requires p.feeOn && p.ownAddress
    ensures var after := Step(p, t, Batch(batch));
      && after.fee == t.fee && !after.cycle.payFee
      && Step(p, after, Drain(drained)).fee
         == t.fee + if batch > 0 && t.cycle.userFinds + batch >= USER_FINDS then drained else 0
  {
  }

  predicate NoDrains(events: seq<Event>) {
    forall e :: e in events ==> e.Batch?
  }

  /** So without drains the fee address itself never has a flagged find, and its finds add up in the cycle. */
  lemma {:induction false} OwnAddressRun(p: Payee, events: seq<Event>)
    requires p.feeOn && p.ownAddress && NoDrains(events)
    ensures var t := Run(p, events); t.fee == 0 && t.cycle.userFinds == t.user
  {
    if events != [] {
      OwnAddressRun(p, events[..|events| - 1]);
      assert events[|events| - 1] in events;
    }
  }

  /** The flag on the hits of a drain is that of the account they were mined for exactly when the batch before
      it did not end a phase of the cycle. */
  lemma DrainAgrees(p: Payee, t: Tally, n: nat)
    requires p.feeOn && !p.ownAddress && t.cycle.feeFinds == 0
    ensures var after := Step(p, t, Batch(n)).cycle;
      after.miningFee == after.payFee <==> n == 0 || (!t.cycle.miningFee && t.cycle.userFinds + n < USER_FINDS)
  {
  }
}
