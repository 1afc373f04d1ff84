/** The thermal hunt for a batch size (src/efficiency/thermal_policy.cpp, hunt_thermal_scale). */
module Thermal {

  datatype Params = Params(
    useMem: bool, target: int, cap: int, gpuCap: int,
    planned: int, step: int, minBatch: int, settle: real)

  datatype Reading = Reading(gpu: int, mem: int, now: real)

  datatype Hunt = Hunt(batch: int, lastAdjust: real, lastTemp: int, coolRun: int, idleMs: int, floor: int, lastOk: int)

  datatype Action = Hold | Cut | Raise

  // ---------- Limits that the code forces on its inputs ----------

  function Settle(p: Params): real {
    if p.settle > 5.0 then p.settle else 5.0
  }

  function StepOf(p: Params): int {
    if p.step < 1 then 1000 else p.step
  }

  function Planned(p: Params): int {
    if p.planned < 1 then 1 else p.planned
  }

  function MinBatch(p: Params): int {
    var low := if p.minBatch < StepOf(p) then StepOf(p) else p.minBatch;
    if low > Planned(p) then Planned(p) else low
  }

  function Target(p: Params): int {
    if p.target < 40 then 40 else p.target
  }

  function CapOf(p: Params): int {
    if p.cap <= Target(p) then Target(p) + 3 else p.cap
  }

  function Clamped(p: Params, batch: int): int {
    var wanted := if batch <= 0 || batch > Planned(p) then Planned(p) else batch;
    if wanted < MinBatch(p) then MinBatch(p) else wanted
  }

  // ---------- Readings ----------

  function Control(p: Params, r: Reading): int {
    var c := if p.useMem && r.mem > 0 then r.mem else r.gpu;
    if p.gpuCap > 0 && r.gpu >= p.gpuCap && r.gpu > c then r.gpu else c
  }

  /** The reading that counts is one of the two sensors: the GPU, unless the memory sensor is asked for and works; then
      the memory, and never less than it; and never less than a GPU that has reached its own limit. */
  lemma SensorThatCounts(p: Params, r: Reading)
    ensures var c := Control(p, r);
      && (c == r.gpu || c == r.mem)
      && (!p.useMem || r.mem <= 0 ==> c == r.gpu)
      && (p.useMem && r.mem > 0 ==> c >= r.mem && (c > r.mem ==> 0 < p.gpuCap <= r.gpu))
      && (0 < p.gpuCap <= r.gpu ==> c >= r.gpu)
  {
  }

  /** A sudden drop from a hot reading is taken for a sensor miss. */
  function Temp(p: Params, st: Hunt, r: Reading): int {
    var c := Control(p, r);
    if st.lastTemp >= Target(p) && c > 0 && st.lastTemp - c >= 12 then st.lastTemp else c
  }

  function Rise(st: Hunt, temp: int): int {
    if st.lastTemp > 0 then temp - st.lastTemp else 0
  }

  predicate IsCool(p: Params, st: Hunt, temp: int) {
    temp <= Target(p) && Rise(st, temp) <= 0
  }

  predicate IsHot(p: Params, st: Hunt, temp: int) {
    temp >= CapOf(p) || temp >= Target(p) + 2 || (temp >= Target(p) && Rise(st, temp) > 0)
  }

  predicate Settled(p: Params, st: Hunt, r: Reading) {
    r.now - st.lastAdjust >= Settle(p)
  }

  function Idle(p: Params, temp: int): int {
    if temp < Target(p) then 0
    else if 12 * (temp - Target(p) + 1) < 80 then 12 * (temp - Target(p) + 1) else 80
  }

  // ---------- One reading ----------

  /** There is room for a cut: the last good count lies strictly between, or a whole step does. */
  predicate CanCut(p: Params, st: Hunt) {
    st.floor < st.lastOk < st.batch || st.floor + StepOf(p) < st.batch
  }

  /** Where a cut goes. */
  function CutTo(p: Params, st: Hunt): int {
    if st.floor < st.lastOk < st.batch then st.lastOk
    else if st.lastOk >= st.batch then st.batch - StepOf(p)
    else st.floor + StepOf(p)
  }

  function RaiseTo(p: Params, st: Hunt): int {
    if st.batch + StepOf(p) > Planned(p) then Planned(p) else st.batch + StepOf(p)
  }

  function First(p: Params, st: Hunt, r: Reading): Hunt {
    var b := Clamped(p, st.batch);
    st.(batch := b, lastAdjust := r.now, lastTemp := Temp(p, st, r),
        floor := if st.floor <= 0 then b else st.floor, lastOk := if st.lastOk <= 0 then b else st.lastOk)
  }

  /** The state as the controller sees it before it decides. */
  function Seen(p: Params, st: Hunt, r: Reading): Hunt {
    var b := Clamped(p, st.batch);
    var floor := if st.floor <= 0 then b else st.floor;
    st.(batch := b, floor := if floor < MinBatch(p) then MinBatch(p) else floor,
        lastOk := if st.lastOk <= 0 then b else st.lastOk, idleMs := Idle(p, Temp(p, st, r)))
  }

  function Decide(p: Params, st: Hunt, r: Reading, temp: int): (Hunt, Action) {
    if IsCool(p, st, temp) then
      var ok := st.(lastOk := st.batch, coolRun := st.coolRun + 1);
      if Settled(p, st, r) && RaiseTo(p, st) != st.batch
      then (ok.(batch := RaiseTo(p, st), lastAdjust := r.now), Raise) else (ok, Hold)
    else if IsHot(p, st, temp) && CanCut(p, st) then
      if Settled(p, st, r)
      then (st.(coolRun := 0, batch := CutTo(p, st), lastAdjust := r.now, floor := CutTo(p, st)), Cut)
      else (st.(coolRun := 0, floor := st.batch), Hold)
    else (st.(coolRun := 0), Hold)
  }

  function Next(p: Params, st: Hunt, r: Reading): (Hunt, Action) {
    if st.lastAdjust <= 0.0 then (First(p, st, r), Hold)
    else
      var temp := Temp(p, st, r);
      var (t, action) := Decide(p, Seen(p, st, r), r, temp);
      (t.(lastTemp := temp), action)
  }

  /** The new count by the five corrections of the code, one after the other. */
  function DropBySteps(p: Params, st: Hunt): int {
    var step := StepOf(p);
    var d := if st.lastOk <= st.floor then st.floor + step else st.lastOk;
    var d := if d >= st.batch then st.batch - step else d;
    var d := if d <= st.floor then st.floor + step else d;
    var d := if d < MinBatch(p) then MinBatch(p) else d;
    if d > st.batch then st.batch else d
  }

  class ThermalHunt {
    var batch: int
    var lastAdjust: real
    var lastTemp: int
    var coolRun: int
    var idleMs: int
    var floor: int
    var lastOk: int

    constructor ()
      ensures View() == Hunt(0, 0.0, 0, 0, 0, 0, 0)
    {
      batch, lastAdjust, lastTemp, coolRun, idleMs, floor, lastOk := 0, 0.0, 0, 0, 0, 0, 0;
    }

    function View(): Hunt
      reads this
    {
      Hunt(batch, lastAdjust, lastTemp, coolRun, idleMs, floor, lastOk)
    }

    /** The drop of the code, found by five corrections in a row, is where a cut goes, or no change. */
    method Drop(p: Params) returns (drop: int)
      requires MinBatch(p) <= floor <= batch
      ensures drop == DropBySteps(p, View())
      ensures drop == if CanCut(p, View()) then CutTo(p, View()) else batch
    {
      var step := StepOf(p);
      drop := lastOk;
      if drop <= floor { drop := floor + step; }
      if drop >= batch { drop := batch - step; }
      if drop <= floor { drop := floor + step; }
      if drop < MinBatch(p) { drop := MinBatch(p); }
      if drop > batch { drop := batch; }
    }

    method Apply(p: Params, next: int, r: Reading) returns (moved: bool)
      modifies `batch, `lastAdjust
      ensures var to := if next > Planned(p) then Planned(p) else if next < MinBatch(p) then MinBatch(p) else next;
        moved == (Settled(p, old(View()), r) && to != old(batch))
        && batch == (if moved then to else old(batch))
        && lastAdjust == (if moved then r.now else old(lastAdjust))
    {
      if r.now - lastAdjust < Settle(p) { return false; }
      var to := next;
      if to > Planned(p) { to := Planned(p); }
      if to < MinBatch(p) { to := MinBatch(p); }
      if to == batch { return false; }
      batch := to;
      lastAdjust := r.now;
      return true;
    }

    /** Raise, cut or hold, by the temperature that counts. */
    method React(p: Params, r: Reading, temp: int) returns (action: Action)
      requires MinBatch(p) <= floor <= batch <= Planned(p)
      modifies this
      ensures (View(), action) == Decide(p, old(View()), r, temp)
    {
      hide IsCool, IsHot;
      action := Hold;
      if IsCool(p, View(), temp) {
        lastOk := batch;
        coolRun := coolRun + 1;
        var raised := Apply(p, batch + StepOf(p), r);
        if raised { action := Raise; }
      } else if IsHot(p, View(), temp) {
        coolRun := 0;
        var drop := Drop(p);
        if drop != batch {
          var cut := Apply(p, drop, r);
          if cut { action := Cut; }
          if batch > floor { floor := batch; }
        }
      } else {
        coolRun := 0;
      }
    }

    method Observe(p: Params, r: Reading) returns (action: Action)
      requires Ordered(p, View())
      modifies this
      ensures (View(), action) == Next(p, old(View()), r)
    {
      hide Temp, Idle, IsCool, IsHot, Decide, CapOf;
      TempIgnoresBatch(p, View(), Clamped(p, batch), r);
      batch := Clamped(p, batch);
      var temp := Temp(p, View(), r);
      action := Hold;
      if lastAdjust <= 0.0 {
        lastAdjust := r.now;
        lastTemp := temp;
        if floor <= 0 { floor := batch; }
        if lastOk <= 0 { lastOk := batch; }
        return;
      }
      if floor <= 0 { floor := batch; }
      if lastOk <= 0 { lastOk := batch; }
      if floor < MinBatch(p) { floor := MinBatch(p); }
      idleMs := Idle(p, temp);
      action := React(p, r, temp);
      lastTemp := temp;
    }
  }

  lemma TempIgnoresBatch(p: Params, st: Hunt, batch: int, r: Reading)
    ensures Temp(p, st.(batch := batch), r) == Temp(p, st, r)
  {
  }

  // ---------- Every run ----------

  /** Floor and batch in order; true of a controller that has not started. */
  predicate Ordered(p: Params, st: Hunt) {
    st.floor <= Clamped(p, st.batch)
  }

  predicate Ready(p: Params, st: Hunt) {
    && st.lastAdjust > 0.0
    && MinBatch(p) <= st.batch <= Planned(p)
    && 0 < st.floor <= st.batch && 0 < st.lastOk
  }

  function Run(p: Params, st: Hunt, readings: seq<Reading>): Hunt {
    if readings == [] then st else Next(p, Run(p, st, readings[..|readings| - 1]), readings[|readings| - 1]).0
  }

  /** The number of cuts in a run. */
  function Cuts(p: Params, st: Hunt, readings: seq<Reading>): nat {
    if readings == [] then 0
    else
      var n := |readings| - 1;
      Cuts(p, st, readings[..n]) + if Next(p, Run(p, st, readings[..n]), readings[n]).1 == Cut then 1 else 0
  }

  /** The number of raises in a run. */
  function Raises(p: Params, st: Hunt, readings: seq<Reading>): nat {
    if readings == [] then 0
    else
      var n := |readings| - 1;
      Raises(p, st, readings[..n]) + if Next(p, Run(p, st, readings[..n]), readings[n]).1 == Raise then 1 else 0
  }

  /** The counts that a run cuts to, one after the other. */
  function CutTargets(p: Params, st: Hunt, readings: seq<Reading>): seq<int> {
    if readings == [] then []
    else
      var n := |readings| - 1;
      var (t, action) := Next(p, Run(p, st, readings[..n]), readings[n]);
      CutTargets(p, st, readings[..n]) + if action == Cut then [t.batch] else []
  }

  /** The times at which the batch changed. */
  function Changes(p: Params, st: Hunt, readings: seq<Reading>): seq<real> {
    if readings == [] then []
    else
      var n := |readings| - 1;
      Changes(p, st, readings[..n])
      + if Next(p, Run(p, st, readings[..n]), readings[n]).1 != Hold then [readings[n].now] else []
  }

  lemma FirstReady(p: Params, st: Hunt, r: Reading)
    requires Ordered(p, st) && st.lastAdjust <= 0.0 && r.now > 0.0
    ensures Ready(p, Next(p, st, r).0)
  {
  }

  /** The first reading starts the clock and takes the batch, within its limits, for good; it changes nothing else. */
  lemma FirstReading(p: Params, st: Hunt, r: Reading)
    requires st.lastAdjust <= 0.0
    ensures var (t, action) := Next(p, st, r);
      && action == Hold && t.lastAdjust == r.now && t.lastTemp == Temp(p, st, r)
      && t.batch == (if st.batch <= 0 || st.batch > Planned(p) then Planned(p)
                     else if st.batch < MinBatch(p) then MinBatch(p) else st.batch)
      && (st.floor <= 0 ==> t.floor == t.batch) && (st.lastOk <= 0 ==> t.lastOk == t.batch)
      && t.coolRun == st.coolRun && t.idleMs == st.idleMs
  {
    LimitsHold(p);
  }

  /** What one reading can do to a running controller. */
  lemma NextKeeps(p: Params, st: Hunt, r: Reading)
    requires Ready(p, st)
    ensures var (t, action) := Next(p, st, r);
      && Ready(p, t) && st.floor <= t.floor
      && (action == Hold ==> t.batch == st.batch && t.lastAdjust == st.lastAdjust)
      && (action != Hold ==> Settled(p, st, r) && t.lastAdjust == r.now)
      && (action == Raise ==> t.batch > st.batch)
      && (action == Cut ==> st.floor < t.floor == t.batch < st.batch)
      && 0 <= t.idleMs <= 80 && (t.idleMs > 0 <==> t.lastTemp >= Target(p))
  {
    hide Temp, IsCool, IsHot;
  }

  /** A cut happens exactly when a hot reading comes after the settling time and the corrected count is another
      one; it goes to that count, which is the last good one whenever that lies between floor and batch. */
  lemma CutsExactly(p: Params, st: Hunt, r: Reading)
    requires Ready(p, st)
    ensures var (t, action) := Next(p, st, r);
      var temp := Temp(p, st, r);
      var drop := DropBySteps(p, Seen(p, st, r));
      && (action == Cut <==>
            !IsCool(p, st, temp) && IsHot(p, st, temp) && Settled(p, st, r) && drop != st.batch)
      && (action == Cut ==> t.batch == drop)
      && (action == Cut && Seen(p, st, r).floor < st.lastOk < st.batch ==> t.batch == st.lastOk)
  {
    hide Temp, Idle, CapOf;
  }

  /** What a running controller does by the temperature and the one before: a raise exactly when it is at the target or
      below, not rising, after the settling time and below the plan, by one step or what is left; no cut below the
      target; and a cut, if there is room and it is time, two degrees above, at the cap, or when it rises at the target.
      A drop of twelve degrees or more from the target counts as no drop at all. */
  lemma ActsByTemperature(p: Params, st: Hunt, r: Reading)
    requires Ready(p, st)
    ensures var (t, action) := Next(p, st, r);
      var temp := t.lastTemp;
      var rising := st.lastTemp > 0 && temp > st.lastTemp;
      var time := r.now - st.lastAdjust >= (if p.settle > 5.0 then p.settle else 5.0);
      var room := MinBatch(p) <= st.floor && st.floor + StepOf(p) < st.batch;
      var hot := temp >= Target(p) + 2 || temp >= CapOf(p) || (temp >= Target(p) && rising);
      && (action == Raise <==> temp <= Target(p) && !rising && time && st.batch < Planned(p))
      && (action == Raise ==> t.batch == if st.batch + StepOf(p) < Planned(p) then st.batch + StepOf(p) else Planned(p))
      && (action == Cut ==> temp >= Target(p))
      && (time && room && hot ==> action == Cut)
      && temp == (if st.lastTemp >= Target(p) && 0 < Control(p, r) <= st.lastTemp - 12
                  then st.lastTemp else Control(p, r))
      && (t.coolRun == if temp <= Target(p) && !rising then st.coolRun + 1 else 0)
      && (temp <= Target(p) && !rising ==> t.lastOk == st.batch)
      && t.idleMs == (if temp < Target(p) then 0 else Least(80, 12 * (temp - Target(p) + 1)))
  {
    hide Control;
  }

  function Least(x: int, y: int): int {
    if x < y then x else y
  }

  /** The limits that the code forces on its inputs. */
  lemma LimitsHold(p: Params)
    ensures 1 <= MinBatch(p) <= Planned(p) && StepOf(p) >= 1 && Target(p) >= 40 && Settle(p) >= 5.0
    ensures CapOf(p) == if p.cap > Target(p) then p.cap else Target(p) + 3
    ensures StepOf(p) == (if p.step >= 1 then p.step else 1000) && Planned(p) == if p.planned >= 1 then p.planned else 1
    ensures MinBatch(p) == Least(Planned(p), if p.minBatch > StepOf(p) then p.minBatch else StepOf(p))
    ensures p.target >= 40 ==> Target(p) == p.target
  {
  }

  ghost predicate Climbs(targets: seq<int>, above: int) {
    forall i :: 0 <= i < |targets| ==> targets[i] > (if i == 0 then above else targets[i - 1])
  }

  lemma ClimbsSnoc(targets: seq<int>, above: int, next: int)
    requires Climbs(targets, above) && next > (if targets == [] then above else targets[|targets| - 1])
    ensures Climbs(targets + [next], above)
  {
    forall i | 0 <= i <= |targets|
      ensures (targets + [next])[i] > (if i == 0 then above else (targets + [next])[i - 1])
    {
      assert i < |targets| ==> targets[i] > (if i == 0 then above else targets[i - 1]);
    }
  }

  /** Cuts always go above the previous low: over a run, each cut goes to a higher count than the cut before it and
      than the first floor. And there is a raise between any two cuts. */
  lemma {:induction false} CutsClimb(p: Params, st: Hunt, readings: seq<Reading>)
    requires Ready(p, st)
    ensures var t := Run(p, st, readings);
      var targets := CutTargets(p, st, readings);
      && Ready(p, t)
      && |targets| == Cuts(p, st, readings) && Climbs(targets, st.floor)
      && (if targets == [] then st.floor else targets[|targets| - 1]) <= t.floor
      && Cuts(p, st, readings) + (if t.floor < t.batch then 1 else 0)
         <= Raises(p, st, readings) + (if st.floor < st.batch then 1 else 0)
  {
    hide Next, Climbs;
    if readings == [] {
      NothingClimbs(st.floor);
    } else {
      var n := |readings| - 1;
      CutsClimb(p, st, readings[..n]);
      NextKeeps(p, Run(p, st, readings[..n]), readings[n]);
      var (t, action) := Next(p, Run(p, st, readings[..n]), readings[n]);
      if action == Cut {
        ClimbsSnoc(CutTargets(p, st, readings[..n]), st.floor, t.batch);
      } else {
        assert CutTargets(p, st, readings) == CutTargets(p, st, readings[..n]);
      }
    }
  }

  lemma NothingClimbs(above: int)
    ensures Climbs([], above)
  {
  }

  function Before(times: seq<real>, start: real, i: nat): real
    requires i <= |times|
  {
    if i == 0 then start else times[i - 1]
  }

  ghost predicate Spaced(times: seq<real>, start: real, gap: real) {
    forall i :: 0 <= i < |times| ==> times[i] - Before(times, start, i) >= gap
  }

  lemma SpacedSnoc(times: seq<real>, start: real, gap: real, t: real)
    requires Spaced(times, start, gap) && t - Before(times, start, |times|) >= gap
    ensures Spaced(times + [t], start, gap)
  {
    forall i | 0 <= i <= |times| ensures (times + [t])[i] - Before(times + [t], start, i) >= gap {
      assert Before(times + [t], start, i) == Before(times, start, i);
    }
  }

  /** In every run with fixed parameters: the batch stays between its bounds and above the floor, the floor never
      falls, changes keep their distance in time, and every cut raises the floor, so that there are at most as
      many cuts as there is room between the first floor and the plan. */
  lemma {:induction false} RunBounded(p: Params, st: Hunt, readings: seq<Reading>)
    requires Ready(p, st)
    ensures var t := Run(p, st, readings);
      && MinBatch(p) <= t.batch <= Planned(p)
      && st.floor + Cuts(p, st, readings) <= t.floor <= t.batch
      && Cuts(p, st, readings) <= Planned(p) - st.floor
      && Spaced(Changes(p, st, readings), st.lastAdjust, Settle(p))
      && Ready(p, t)
      && t.lastAdjust == Before(Changes(p, st, readings), st.lastAdjust, |Changes(p, st, readings)|)
  {
    hide Next;
    if readings != [] {
      var n := |readings| - 1;
      RunBounded(p, st, readings[..n]);
      NextKeeps(p, Run(p, st, readings[..n]), readings[n]);
      if Next(p, Run(p, st, readings[..n]), readings[n]).1 != Hold {
        SpacedSnoc(Changes(p, st, readings[..n]), st.lastAdjust, Settle(p), readings[n].now);
      } else {
        assert Changes(p, st, readings) == Changes(p, st, readings[..n]);
      }
    }
  }

  // ---------- A hot reading that comes too soon ----------

  lemma {:induction false} FloorBlocks(p: Params, st: Hunt, readings: seq<Reading>)
    requires Ready(p, st) && st.floor == st.batch && Raises(p, st, readings) == 0
    ensures var t := Run(p, st, readings); Ready(p, t) && t.floor == t.batch == st.batch
    ensures Cuts(p, st, readings) == 0
  {
    hide Next;
    if readings != [] {
      var n := |readings| - 1;
      FloorBlocks(p, st, readings[..n]);
      BlockedStays(p, Run(p, st, readings[..n]), readings[n]);
    }
  }

  lemma BlockedStays(p: Params, st: Hunt, r: Reading)
    requires Ready(p, st) && st.floor == st.batch && Next(p, st, r).1 != Raise
    ensures var (t, action) := Next(p, st, r); Ready(p, t) && t.floor == t.batch == st.batch && action == Hold
  {
    hide Temp, IsCool, IsHot, Idle, CapOf;
  }

  /** If a hot reading finds room for a cut but comes within the settling time, the floor is lifted to the batch
      at once, and then no reading, however hot and however late, cuts anything until one has raised the batch. */
  lemma HotTooSoon(p: Params, st: Hunt, r: Reading, later: seq<Reading>)
    requires Ready(p, st) && !Settled(p, st, r)
    requires !IsCool(p, st, Temp(p, st, r)) && IsHot(p, st, Temp(p, st, r))
    requires DropBySteps(p, Seen(p, st, r)) != st.batch
    requires Raises(p, Next(p, st, r).0, later) == 0
    ensures var t := Next(p, st, r).0;
      && st.floor < t.floor == t.batch == st.batch
      && Cuts(p, t, later) == 0 && Run(p, t, later).batch == st.batch
  {
    LiftsFloor(p, st, r);
    FloorBlocks(p, Next(p, st, r).0, later);
  }

  lemma LiftsFloor(p: Params, st: Hunt, r: Reading)
    requires Ready(p, st) && !Settled(p, st, r)
    requires !IsCool(p, st, Temp(p, st, r)) && IsHot(p, st, Temp(p, st, r))
    requires DropBySteps(p, Seen(p, st, r)) != st.batch
    ensures var t := Next(p, st, r).0;
      Ready(p, t) && st.floor < t.floor == t.batch == st.batch
  {
    hide Temp, Idle, CapOf;
  }
}
