/** The batch that fits the memory of the card (src/mining/vram_batch.cpp), with the factor 1.001 of bytes per
    attempt as the exact fraction 1001 / 1000. */
module Vram {

  const MIB: nat := 1024 * 1024
  const RESERVE: nat := 100 * MIB
  const MAX_LANES := 32

  /** A thousand times the bytes of one attempt. */
  function Cost(difficulty: nat): (r: nat)
    ensures difficulty > 0 ==> r >= 1024 * 1001
  {
    difficulty * 1024 * 1001
  }

  function Estimate(batch: int, difficulty: int): nat {
    if batch <= 0 || difficulty <= 0 then 0 else batch * Cost(difficulty) / 1000
  }

  function MemoryLimited(free: nat, difficulty: int, reserve: nat): int {
    if difficulty <= 0 || free <= reserve then 0 else (free - reserve) * 1000 / Cost(difficulty)
  }

  function Min(x: int, y: int): int {
    if x < y then x else y
  }

  function AtLeast(low: int, x: int): int {
    if x < low then low else x
  }

  function SelectBatch(budget: nat, difficulty: int, explicitMax: int, fill: bool): int {
    var limit := MemoryLimited(budget + RESERVE, difficulty, RESERVE);
    var tuned := if difficulty <= 1 then 2048 else if difficulty <= 8 then 4096
                 else if difficulty <= 64 then 3072 else 0;
    if limit <= 0 then 0
    else if explicitMax > 0 then Min(limit, explicitMax)
    else if !fill && tuned > 0 then Min(limit, tuned)
    else limit
  }

  datatype Request = Request(
    totalBytes: nat, targetMib: nat, desktopMib: nat, difficulty: nat, maxLanes: int,
    explicitBatch: int, explicitMax: int, overheadMib: nat)

  datatype Plan = Plan(
    lanes: nat, batch: int, budgetBytes: nat, vramBytes: nat, vramMib: nat, usedMib: int, headroomMib: int,
    overheadMib: int, targetMib: int, desktopMib: int, difficulty: int)

  predicate WithinLimits(p: Plan) {
    p.usedMib <= p.targetMib && p.headroomMib >= p.desktopMib
  }

  function AllowedMib(q: Request): nat {
    Min(AtLeast(0, q.targetMib - q.overheadMib), AtLeast(0, q.totalBytes / MIB - q.desktopMib - q.overheadMib))
  }

  function Lanes(q: Request): (r: nat)
    ensures 1 <= q.maxLanes <= 32 ==> r == q.maxLanes
    ensures q.maxLanes < 1 ==> r == 1
    ensures q.maxLanes > 32 ==> r == 32
  {
    AtLeast(1, Min(MAX_LANES, AtLeast(1, q.maxLanes)))
  }

  function LaneBudget(q: Request): (r: nat)
    ensures r >= 1
  {
    AtLeast(1, AllowedMib(q) * MIB / Lanes(q))
  }

  function BatchPerLane(q: Request): int {
    var most := SelectBatch(LaneBudget(q), q.difficulty, q.explicitMax, true);
    if most <= 0 then 0 else if q.explicitBatch > 0 then Min(q.explicitBatch, most) else most
  }

  /** What project computes, put into a plan. */
  function Projected(p: Plan, totalMib: int, batch: int): Plan {
    var bytes := Estimate(batch, p.difficulty) * p.lanes;
    var used := bytes / MIB + p.overheadMib;
    p.(batch := batch, vramBytes := bytes, vramMib := bytes / MIB, usedMib := used,
       headroomMib := AtLeast(0, totalMib - used))
  }

  function FirstPlan(q: Request): Plan {
    var empty := Plan(Lanes(q), 0, AllowedMib(q) * MIB, 0, 0, 0, 0,
                      q.overheadMib, q.targetMib, q.desktopMib, q.difficulty);
    Projected(empty, q.totalBytes / MIB, BatchPerLane(q))
  }

  // ---------- What a plan is good for ----------

  lemma DivBounds(x: nat, c: nat)
    requires c > 0
    ensures x / c * c <= x < (x / c + 1) * c
  {
    assert x == c * (x / c) + x % c;
  }

  lemma MulLe(x: nat, y: nat, c: nat)
    requires x <= y
    ensures x * c <= y * c
  {
  }

  lemma LimitFits(budget: nat, difficulty: nat, batch: nat)
    requires difficulty > 0 && budget > 0 && batch <= MemoryLimited(budget + RESERVE, difficulty, RESERVE)
    ensures batch * Cost(difficulty) <= budget * 1000 && Estimate(batch, difficulty) <= budget
  {
    hide Cost;
    DivBounds(budget * 1000, Cost(difficulty));
    MulLe(batch, budget * 1000 / Cost(difficulty), Cost(difficulty));
  }

  lemma PositiveBatch(q: Request)
    requires BatchPerLane(q) > 0
    ensures q.difficulty > 0 && BatchPerLane(q) <= MemoryLimited(LaneBudget(q) + RESERVE, q.difficulty, RESERVE)
    ensures LaneBudget(q) == AllowedMib(q) * MIB / Lanes(q)
  {
    hide Cost, AllowedMib, Lanes;
    if AllowedMib(q) * MIB / Lanes(q) < 1 {
      DivBounds(1000, Cost(q.difficulty));
    }
  }

  /** A plan with jobs in it fits its budget in every lane and leaves the card within both limits. */
  lemma PlanFits(q: Request)
    requires BatchPerLane(q) > 0
    ensures var p := FirstPlan(q);
      && p.vramBytes == Estimate(p.batch, p.difficulty) * p.lanes <= p.budgetBytes && WithinLimits(p)
      && p.budgetBytes == AllowedMib(q) * MIB
      && p.vramMib == p.vramBytes / MIB && p.usedMib == p.vramMib + q.overheadMib
      && p.headroomMib == AtLeast(0, q.totalBytes / MIB - p.usedMib)
  {
    hide Estimate, BatchPerLane, LaneBudget, Lanes, MemoryLimited;
    PositiveBatch(q);
    LimitFits(LaneBudget(q), q.difficulty, BatchPerLane(q));
    MulLe(Estimate(BatchPerLane(q), q.difficulty), LaneBudget(q), Lanes(q));
    DivBounds(AllowedMib(q) * MIB, Lanes(q));
    var bytes := Estimate(BatchPerLane(q), q.difficulty) * Lanes(q);
    assert bytes <= AllowedMib(q) * MIB;
    assert bytes / MIB <= AllowedMib(q);
    assert bytes > 0 || AllowedMib(q) >= 0;
    SomethingAllowed(q);
  }

  lemma SomethingAllowed(q: Request)
    requires BatchPerLane(q) > 0
    ensures AllowedMib(q) > 0
  {
    hide Cost, MemoryLimited, BatchPerLane;
    PositiveBatch(q);
    DivBounds(AllowedMib(q) * MIB, Lanes(q));
    MulLe(1, AllowedMib(q) * MIB / Lanes(q), Lanes(q));
  }

  /** Without explicit caps, one more job in a lane would not fit. */
  lemma PlanFillsLane(q: Request)
    requires q.difficulty > 0 && q.explicitBatch <= 0 && q.explicitMax <= 0
    ensures (BatchPerLane(q) + 1) * Cost(q.difficulty) > LaneBudget(q) * 1000
  {
    hide Cost, LaneBudget;
    DivBounds(LaneBudget(q) * 1000, Cost(q.difficulty));
  }

  /** The lanes share the budget evenly, to the byte, and an attempt takes 1025.024 bytes for a unit of difficulty. */
  lemma LanesShare(q: Request)
    ensures AllowedMib(q) > 0 ==>
      LaneBudget(q) * Lanes(q) <= AllowedMib(q) * 1_048_576 < (LaneBudget(q) + 1) * Lanes(q)
    ensures Cost(q.difficulty) == 1_025_024 * q.difficulty
  {
    hide AllowedMib, Lanes;
    DivBounds(AllowedMib(q) * MIB, Lanes(q));
    if AllowedMib(q) > 0 {
      ManyBytes(AllowedMib(q) * MIB, Lanes(q));
    }
  }

  lemma ManyBytes(bytes: nat, lanes: nat)
    requires bytes >= 1_048_576 && 1 <= lanes <= 32
    ensures bytes / lanes >= 1
  {
    DivBounds(bytes, lanes);
  }

  /** The caps are kept, and a lane below both of them is full. */
  lemma CapsKept(q: Request)
    requires q.difficulty > 0
    ensures var b := BatchPerLane(q);
      && (q.explicitBatch > 0 ==> b <= q.explicitBatch) && (q.explicitMax > 0 ==> b <= q.explicitMax)
      && ((q.explicitBatch <= 0 || b < q.explicitBatch) && (q.explicitMax <= 0 || b < q.explicitMax) ==>
            (b + 1) * Cost(q.difficulty) > LaneBudget(q) * 1000)
  {
    hide Cost, LaneBudget;
    DivBounds(LaneBudget(q) * 1000, Cost(q.difficulty));
  }

  /** The budget is all that the target and the desktop leave. */
  lemma BudgetIsAll(q: Request, mib: nat)
    ensures mib > 0 ==>
      (mib <= AllowedMib(q) <==>
         mib + q.overheadMib <= q.targetMib && mib + q.overheadMib + q.desktopMib <= q.totalBytes / MIB)
  {
  }

  /** A plan that clamping has nothing to do for: within its limits, or without jobs and projected so. */
  predicate Settled(p: Plan) {
    WithinLimits(p) || (p.batch <= 0 && p == Projected(p, p.usedMib + p.headroomMib, p.batch))
  }

  lemma FirstPlanSettled(q: Request)
    ensures Settled(FirstPlan(q))
  {
    hide Estimate, BatchPerLane;
    if BatchPerLane(q) > 0 {
      PlanFits(q);
    }
  }

  lemma FirstPlanFits(q: Request)
    ensures var p := FirstPlan(q);
      p.batch > 0 ==> WithinLimits(p) && Estimate(p.batch, p.difficulty) * p.lanes <= p.budgetBytes
  {
    hide Estimate, BatchPerLane, WithinLimits, AllowedMib;
    if BatchPerLane(q) > 0 {
      PlanFits(q);
    }
  }

  /** The batch after i rounds of taking two percent off. */
  function Shrunk(batch: int, i: nat): int {
    if i == 0 then batch else AtLeast(1, Shrunk(batch, i - 1) * 98 / 100)
  }

  function Shrinking(p: Plan, i: nat): Plan {
    Projected(p, p.usedMib + p.headroomMib, Shrunk(p.batch, i))
  }

  method ClampPlanToCaps(plan: Plan) returns (r: Plan)
    ensures r == plan || (WithinLimits(r) && r == Projected(plan, plan.usedMib + plan.headroomMib, r.batch)
                          && r.batch <= plan.batch)
    ensures Settled(plan) ==> r == plan
    // The first that fits, taking off two percent at a time.
    ensures r != plan ==>
      exists i: nat :: r == Shrinking(plan, i) && forall j: nat :: j < i ==> !WithinLimits(Shrinking(plan, j))
  {
    if WithinLimits(plan) { return plan; }
    var totalMib := plan.usedMib + plan.headroomMib;
    var batch := plan.batch;
    var i := 0;
    while i < 10000
      invariant 0 <= i && batch == Shrunk(plan.batch, i)
      invariant batch <= plan.batch && (plan.batch <= 0 ==> batch == plan.batch)
      invariant forall j: nat :: j < i ==> !WithinLimits(Shrinking(plan, j))
    {
      var t := Projected(plan, totalMib, batch);
      assert t == Shrinking(plan, i);
      if WithinLimits(t) {
        return t;
      }
      if batch <= 1 { break; }
      batch := AtLeast(1, batch * 98 / 100);
      i := i + 1;
    }
    return plan;
  }

  /** plan_cuda_batch: the clamp never alters the plan it is given. */
  method PlanCudaBatch(q: Request) returns (plan: Plan)
    ensures plan == FirstPlan(q)
    ensures plan.batch > 0 ==>
      WithinLimits(plan) && Estimate(plan.batch, plan.difficulty) * plan.lanes <= plan.budgetBytes
  {
    hide Estimate, SelectBatch, MemoryLimited, Cost, Shrunk, Shrinking, Settled, WithinLimits;
    var totalMib := q.totalBytes / MIB;
    var capMib := AtLeast(0, q.targetMib - q.overheadMib);
    var headroomLimited := AtLeast(0, totalMib - q.desktopMib - q.overheadMib);
    var allowed := Min(capMib, headroomLimited);
    assert allowed == AllowedMib(q);
    var budget := allowed * MIB;
    var lanes := AtLeast(1, Min(MAX_LANES, AtLeast(1, q.maxLanes)));
    var laneBudget := AtLeast(1, budget / AtLeast(1, lanes));
    assert lanes == Lanes(q) && laneBudget == LaneBudget(q);
    hide AllowedMib, LaneBudget, Lanes;
    var most := SelectBatch(laneBudget, q.difficulty, q.explicitMax, true);
    var batch := 0;
    if most > 0 {
      batch := if q.explicitBatch > 0 then Min(q.explicitBatch, most) else most;
    }
    var bytes := Estimate(batch, q.difficulty) * lanes;
    var used := bytes / MIB + q.overheadMib;
    plan := Plan(lanes, batch, budget, bytes, bytes / MIB, used, AtLeast(0, totalMib - used),
                 q.overheadMib, q.targetMib, q.desktopMib, q.difficulty);
    assert plan == FirstPlan(q);
    hide FirstPlan, BatchPerLane;
    FirstPlanSettled(q);
    FirstPlanFits(q);
    plan := ClampPlanToCaps(plan);
  }
}
