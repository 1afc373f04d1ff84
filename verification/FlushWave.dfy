/** How much a flush wave sends (src/app/supervisor.cpp, try_flush_pending). */
module FlushWave {
  import opened Blocks
  import opened Text
  import opened Policy
  import opened Seqs
  import opened BagInvariants
  import opened MatchDrain
  import opened Protocol
  import opened Oracle
  import FlushBatch

  /** A wave takes the sendable blocks of its batch in order, all of them at shutdown or without a size, and else as
      many as its size allows. */
  lemma TakesFirst(batch: seq<PendingBlock>, f: FlushArgs, last: bool)
    ensures var work := SelectWork(batch, f, last);
      var sized := !last && f.wave > 0;
      && (forall pb :: pb in work ==> pb in batch && Sends(f)(pb))
      && (sized ==> |work| <= f.wave)
      && (!sized || |work| < f.wave ==> forall pb :: pb in batch && Sends(f)(pb) ==> pb in work)
      && work <= Keep(batch, Sends(f))
  {
    KeepMembers(batch, Sends(f));
    var sendable := Keep(batch, Sends(f));
    forall pb | pb in SelectWork(batch, f, last) ensures pb in sendable {
    }
  }

  /** A block of the aimed m whose hour it is. */
  predicate DueAt(m: int, minute: int, pb: PendingBlock) {
    pb.hit.memoryCost.Some? && pb.hit.memoryCost.value == m
    && (Upper(pb.hit.blockType) == "XUNI" ==> minute < 5 || minute >= 55)
  }

  /** The wave of a drain without a batch limit, and the last wave of all, holds every pending block of the aimed m that
      may be sent now. With a limit, and in ordinary flushing, where it is 64, it holds that many at most, out of a
      batch twice that size. */
  lemma WaveHoldsAll(c: Settings, n: Net, shutdown: bool, minute: int, miningM: int, pending: seq<PendingBlock>)
    requires DistinctIds(pending) && FlushTarget(c, n) > 0
    ensures var m := FlushTarget(c, n);
      var work := SelectWork(BatchFor(c, n, shutdown, minute, pending), ArgsFor(c, n, shutdown, minute, miningM),
                             shutdown);
      var limit :=
        if shutdown then 0 else if !DrainMode(c, n) then 64 else if c.drainBatch > 0 then c.drainBatch else 0;
      && (limit == 0 ==> forall pb :: pb in pending && DueAt(m, minute, pb) ==> pb in work)
      && (limit > 0 ==> |work| <= limit && |BatchFor(c, n, shutdown, minute, pending)| <= 2 * limit)
      && (limit > 0 && |work| < limit ==> forall pb ::
            pb in BatchFor(c, n, shutdown, minute, pending) && DueAt(m, minute, pb) ==> pb in work)
  {
    hide FlushBatch.ListFlushBatch, DrainMode, FlushTarget, SelectWork, DistinctIds;
    var q := FlushBatch.Query(FlushTarget(c, n), BagTarget(c, n),
      if WaveSize(c, n, shutdown) <= 0 then 0 else WaveSize(c, n, shutdown) * 2, n.skipBefore, minute);
    TakesFirst(BatchFor(c, n, shutdown, minute, pending), ArgsFor(c, n, shutdown, minute, miningM), shutdown);
    if WaveSize(c, n, shutdown) <= 0 {
      FlushBatch.AllChosen(q, pending);
    } else {
      FlushBatch.WaveIsRight(q, pending);
    }
  }
}
