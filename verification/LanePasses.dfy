/** The lanes together: what mine_batch makes of the heads of their rings (src/mining/cuda_engine.cpp, the multi-lane
    half of mine_batch). Each lane is the queue that its ring refines (LaneRing.RefinesQueue). */
module LanePasses {
  import opened Blocks
  import opened LaneRing

  /** The unread results of every lane, and what mine_batch has handed out so far. */
  datatype Pack = Pack(lanes: seq<seq<Result>>, delivered: seq<seq<Result>>)

  predicate AllReady(lanes: seq<seq<Result>>) {
    forall i :: 0 <= i < |lanes| ==> lanes[i] != []
  }

  /** The first lane whose head is bad, or the number of lanes. */
  function FirstBad(lanes: seq<seq<Result>>): (k: nat)
    requires AllReady(lanes)
    ensures k <= |lanes|
    ensures forall i :: 0 <= i < k ==> !lanes[i][0].bad
    ensures k < |lanes| ==> lanes[k][0].bad
  {
    if lanes == [] then 0
    else if lanes[0][0].bad then 0
    else
      assert AllReady(lanes[1..]);
      1 + FirstBad(lanes[1..])
  }

  function Heads(lanes: seq<seq<Result>>): seq<Result>
    requires AllReady(lanes)
  {
    seq(|lanes|, i requires 0 <= i < |lanes| => lanes[i][0])
  }

  /** Lanes below k without their heads. */
  function Advanced(lanes: seq<seq<Result>>, k: nat): (r: seq<seq<Result>>)
    requires AllReady(lanes)
    ensures |r| == |lanes|
    ensures forall i :: 0 <= i < |lanes| ==> r[i] == if i < k then lanes[i][1..] else lanes[i]
  {
    seq(|lanes|, i requires 0 <= i < |lanes| => if i < k then lanes[i][1..] else lanes[i])
  }

  /** A pass of mine_batch once every lane has a result: it hands out all heads, or, when it comes to a bad one, throws
      and what it has taken in this pass is gone. */
  function Pass(e: Pack): Pack
    requires AllReady(e.lanes)
  {
    var k := FirstBad(e.lanes);
    Pack(Advanced(e.lanes, k), if k == |e.lanes| then e.delivered + [Heads(e.lanes)] else e.delivered)
  }

  /** The consuming loop: take heads in lane order until one throws. */
  method TakeHeads(lanes: seq<seq<Result>>) returns (rest: seq<seq<Result>>, batch: seq<Result>, threw: bool)
    requires AllReady(lanes)
    ensures rest == Advanced(lanes, FirstBad(lanes))
    ensures threw <==> FirstBad(lanes) < |lanes|
    ensures !threw ==> batch == Heads(lanes)
  {
    rest, batch, threw := lanes, [], false;
    for i := 0 to |lanes|
      invariant forall j :: 0 <= j < i ==> !lanes[j][0].bad
      invariant rest == Advanced(lanes, i) && |batch| == i
      invariant forall j :: 0 <= j < i ==> batch[j] == lanes[j][0]
    {
      if rest[i][0].bad {
        assert FirstBad(lanes) == i;
        threw := true;
        return;
      }
      batch := batch + [rest[i][0]];
      rest := rest[i := rest[i][1..]];
    }
    assert FirstBad(lanes) == |lanes|;
  }

  datatype Event = Produce(lane: nat, r: Result) | MineBatch | Kick(lane: nat, n: nat) | Restart(nlanes: nat)

  /** A kick drops results from the front of a lane; a restart of the lanes clears them all. */
  function Step(e: Pack, v: Event): Pack {
    match v
    case Produce(i, r) =>
      if i < |e.lanes| then e.(lanes := e.lanes[i := e.lanes[i] + [r]]) else e
    case MineBatch => if AllReady(e.lanes) then Pass(e) else e
    case Kick(i, n) =>
      if i < |e.lanes| && n <= |e.lanes[i]| then e.(lanes := e.lanes[i := e.lanes[i][n..]]) else e
    case Restart(n) => e.(lanes := seq(n, _ => []))
  }

  function Run(e: Pack, events: seq<Event>): Pack {
    if events == [] then e else Step(Run(e, events[..|events| - 1]), events[|events| - 1])
  }

  predicate BadHead(e: Pack, lane: nat) {
    lane < |e.lanes| && e.lanes[lane] != [] && e.lanes[lane][0].bad
  }

  lemma StepStuck(e: Pack, v: Event, lane: nat)
    requires BadHead(e, lane) && !v.Restart? && (v.Kick? ==> v.lane != lane)
    ensures var f := Step(e, v);
      && BadHead(f, lane) && f.lanes[lane][0] == e.lanes[lane][0] && f.delivered == e.delivered
      && |f.lanes| == |e.lanes|
  {
  }

  /** The lane is not kicked, nor are the lanes restarted. */
  predicate LeftAlone(events: seq<Event>, lane: nat) {
    forall v :: v in events ==> !v.Restart? && (v.Kick? ==> v.lane != lane)
  }

  /** Once a lane has a bad head, mine_batch delivers nothing more, whatever is produced and however often it is called,
      until that lane is kicked or the lanes are restarted; the bad result stays where it is. */
  lemma {:induction false} BadHeadSticks(e: Pack, events: seq<Event>, lane: nat)
    requires BadHead(e, lane) && LeftAlone(events, lane)
    ensures var f := Run(e, events);
      && BadHead(f, lane) && f.lanes[lane][0] == e.lanes[lane][0] && f.delivered == e.delivered
      && |f.lanes| == |e.lanes|
  {
    if events != [] {
      var n := |events| - 1;
      BadHeadSticks(e, events[..n], lane);
      assert events[n] in events;
      StepStuck(Run(e, events[..n]), events[n], lane);
    }
  }

  /** And each such call costs the lanes before the first bad head one good result each, delivered to no one. */
  lemma PassWastes(e: Pack, lane: nat)
    requires AllReady(e.lanes) && BadHead(e, lane)
    ensures var k := FirstBad(e.lanes);
      && k <= lane && Pass(e).delivered == e.delivered && |Pass(e).lanes| == |e.lanes|
      && (forall i :: 0 <= i < k ==> !e.lanes[i][0].bad && Pass(e).lanes[i] == e.lanes[i][1..])
      && (forall i :: k <= i < |e.lanes| ==> Pass(e).lanes[i] == e.lanes[i])
  {
  }

  // ---------- Good passes ----------

  /** What has been handed out of one lane, pass by pass. */
  function Column(delivered: seq<seq<Result>>, lane: nat): seq<Result>
    requires forall row :: row in delivered ==> lane < |row|
  {
    if delivered == [] then []
    else
      assert delivered[|delivered| - 1] in delivered;
      Column(delivered[..|delivered| - 1], lane) + [delivered[|delivered| - 1][lane]]
  }

  /** What is produced in one lane. */
  function Produced(events: seq<Event>, lane: nat): seq<Result> {
    if events == [] then []
    else
      var v := events[|events| - 1];
      Produced(events[..|events| - 1], lane) + if v.Produce? && v.lane == lane then [v.r] else []
  }

  predicate Rows(e: Pack) {
    forall row :: row in e.delivered ==> |row| == |e.lanes|
  }

  predicate AllGood(e: Pack) {
    forall i, r :: 0 <= i < |e.lanes| && r in e.lanes[i] ==> !r.bad
  }

  /** Nothing but calls and good results. */
  predicate GoodEvent(v: Event) {
    v.MineBatch? || (v.Produce? && !v.r.bad)
  }

  lemma NoneBad(e: Pack)
    requires AllReady(e.lanes) && AllGood(e)
    ensures FirstBad(e.lanes) == |e.lanes|
  {
    forall i | 0 <= i < |e.lanes| ensures !e.lanes[i][0].bad {
      assert e.lanes[i][0] in e.lanes[i];
    }
  }

  lemma GoodPassKeeps(e: Pack)
    requires AllReady(e.lanes) && AllGood(e) && Rows(e)
    ensures var f := Pass(e);
      && f.lanes == Advanced(e.lanes, |e.lanes|) && f.delivered == e.delivered + [Heads(e.lanes)]
      && AllGood(f) && Rows(f)
  {
    NoneBad(e);
    hide FirstBad;
    var f := Pass(e);
    forall i, r | 0 <= i < |f.lanes| && r in f.lanes[i] ensures !r.bad {
      assert f.lanes[i] == e.lanes[i][1..];
      assert r in e.lanes[i];
    }
  }

  /** A good pass hands out the heads. */
  lemma GoodPass(e: Pack, lane: nat)
    requires AllReady(e.lanes) && AllGood(e) && Rows(e) && lane < |e.lanes|
    ensures var f := Pass(e);
      && AllGood(f) && Rows(f) && |f.lanes| == |e.lanes|
      && f.delivered == e.delivered + [Heads(e.lanes)]
      && Column(f.delivered, lane) + f.lanes[lane] == Column(e.delivered, lane) + e.lanes[lane]
  {
    GoodPassKeeps(e);
    hide Pass, AllGood, Column, AllReady;
    ColumnSnoc(e.delivered, Heads(e.lanes), lane);
    HeadMoves(Column(e.delivered, lane), e.lanes[lane]);
  }

  lemma HeadMoves(column: seq<Result>, lane: seq<Result>)
    requires lane != []
    ensures column + [lane[0]] + lane[1..] == column + lane
  {
    assert lane == [lane[0]] + lane[1..];
  }

  lemma ColumnSnoc(delivered: seq<seq<Result>>, row: seq<Result>, lane: nat)
    requires (forall r :: r in delivered ==> lane < |r|) && lane < |row|
    ensures Column(delivered + [row], lane) == Column(delivered, lane) + [row[lane]]
  {
    assert (delivered + [row])[..|delivered|] == delivered;
  }

  lemma GoodStep(e: Pack, v: Event, lane: nat)
    requires GoodEvent(v) && AllGood(e) && Rows(e) && lane < |e.lanes|
    ensures var f := Step(e, v);
      && AllGood(f) && Rows(f) && |f.lanes| == |e.lanes|
      && Column(f.delivered, lane) + f.lanes[lane]
         == Column(e.delivered, lane) + e.lanes[lane] + if v.Produce? && v.lane == lane then [v.r] else []
  {
    hide Column;
    if v.MineBatch? {
      if AllReady(e.lanes) {
        GoodPass(e, lane);
      }
    }
  }

  /** As long as all results are good and nothing is kicked or restarted, mine_batch hands out each lane's results once,
      in the order they were produced, and the rest waits. */
  lemma {:induction false} EachOnceInOrder(e: Pack, events: seq<Event>, lane: nat)
    requires (forall v :: v in events ==> GoodEvent(v)) && AllGood(e) && Rows(e) && lane < |e.lanes|
    ensures var f := Run(e, events);
      && AllGood(f) && Rows(f) && |f.lanes| == |e.lanes|
      && Column(f.delivered, lane) + f.lanes[lane]
         == Column(e.delivered, lane) + e.lanes[lane] + Produced(events, lane)
  {
    hide Column, Step, GoodEvent, AllGood;
    if events != [] {
      var n := |events| - 1;
      assert events[n] in events;
      EachOnceInOrder(e, events[..n], lane);
      GoodStep(Run(e, events[..n]), events[n], lane);
    }
  }

  /** A kick takes results from the front of its lane alone, a restart all of them. */
  lemma KickTakesFront(e: Pack, lane: nat, n: nat, i: nat)
    requires lane < |e.lanes| && n <= |e.lanes[lane]| && i < |e.lanes|
    ensures var f := Step(e, Kick(lane, n));
      && |f.lanes| == |e.lanes| && f.delivered == e.delivered
      && e.lanes[i] == (if i == lane then e.lanes[i][..n] else []) + f.lanes[i]
    ensures Step(e, Restart(|e.lanes|)).lanes[i] == []
  {
    assert e.lanes[lane] == e.lanes[lane][..n] + e.lanes[lane][n..];
    assert [] + e.lanes[i] == e.lanes[i];
  }
}
