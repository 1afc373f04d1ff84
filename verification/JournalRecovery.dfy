/** What the journal alone brings back when the database file is lost (src/queue/store.cpp). */
module JournalRecovery {
  import opened Blocks
  import opened Codec
  import opened Seqs
  import opened Bags
  import opened BagInvariants
  import opened Durability

  /** The digest that a journal line names; empty for blank and unreadable lines. */
  function LineHash(line: JournalLine): string {
    if line.Rec? then StrOr(line.obj.hashStr, "").GetOr("") else ""
  }

  function Hashes(s: seq<PendingBlock>): seq<string> {
    Map((pb: PendingBlock) => pb.hit.hashStr, s)
  }

  /** The distinct non-empty strings of s, each where it first occurs. */
  function Firsts(s: seq<string>): (r: seq<string>)
    ensures forall x :: x in r <==> x in s && x != ""
  {
    if s == [] then []
    else
      var front, last := s[..|s| - 1], s[|s| - 1];
      assert s == front + [last];
      if last == "" || last in front then Firsts(front) else Firsts(front) + [last]
  }

  /** No field of the line has a type that makes recovery throw. */
  predicate Readable(line: JournalLine) {
    line.Rec? ==> RecoveredBlock(EMPTY_LISTING, line.obj).Some?
  }

  ghost predicate AllReadable(lines: seq<JournalLine>) {
    forall line :: line in lines ==> Readable(line)
  }

  lemma ReadableRecovers(l: Listing, line: JournalLine)
    requires Readable(line) && l.index == Digests(l.pending)
    ensures RecoverLine(l, line).Some?
    ensures var h := LineHash(line);
      Hashes(RecoverLine(l, line).value.pending)
      == if h == "" || h in l.index then Hashes(l.pending) else Hashes(l.pending) + [h]
  {
    if line.Rec? {
      assert HitFromJson(line.obj).Some? && HitFromJson(line.obj).value.hashStr == LineHash(line);
      assert RecoveredBlock(l, line.obj).Some?;
      MapSnoc((pb: PendingBlock) => pb.hit.hashStr, l.pending, RecoveredBlock(l, line.obj).value);
    }
  }

  lemma HashesAreDigests(s: seq<PendingBlock>, d: string)
    requires d != ""
    ensures d in Hashes(s) <==> d in Digests(s)
  {
    if d in Hashes(s) {
      var i :| 0 <= i < |s| && Hashes(s)[i] == d;
      assert s[i] in s && s[i].hit.hashStr == d;
    }
    if d in Digests(s) {
      var p :| p in s && p.hit.hashStr != "" && p.hit.hashStr == d;
      var i :| 0 <= i < |s| && s[i] == p;
      assert Hashes(s)[i] == d;
    }
  }

  lemma {:induction false} RecoversFirsts(lines: seq<JournalLine>)
    requires AllReadable(lines)
    ensures var r := RecoverLines(EMPTY_LISTING, lines);
      r.Some? && Hashes(r.value.pending) == Firsts(Map(LineHash, lines))
  {
    if lines == [] {
      assert Hashes(EMPTY_LISTING.pending) == [];
    } else {
      var n := |lines| - 1;
      var front, last := lines[..n], lines[n];
      assert lines == front + [last];
      RecoversFirsts(front);
      var l := RecoverLines(EMPTY_LISTING, front).value;
      RecoverLinesAgrees(EMPTY_LISTING, front);
      ReadableRecovers(l, last);
      MapSnoc(LineHash, front, last);
      if LineHash(last) != "" {
        HashesAreDigests(l.pending, LineHash(last));
      }
    }
  }

  /** A lost or unreadable database: one block per distinct digest of the journal, where it first occurs,
      with distinct ids. */
  lemma LostDatabase(disk: DbFile, journal: seq<JournalLine>)
    requires disk.Missing? || disk.Unparsable?
    requires AllReadable(journal)
    ensures var c := Load(disk, journal);
      && c.Some? && Agrees(c.value)
      && Hashes(c.value.pending) == Firsts(Map(LineHash, journal))
  {
    RecoversFirsts(journal);
    RecoverAgrees(disk, journal);
  }

  // ---------- Completeness over every run ----------

  /** Every digest in the list has a line in the journal, and every line is readable. */
  ghost predicate Complete(b: Bag) {
    && AllReadable(b.journal)
    && forall d :: d in Digests(b.pending) ==> d in Map(LineHash, b.journal)
  }

  lemma NewLineReadable(pb: PendingBlock, queuedAt: string)
    ensures Readable(Rec(JournalRecord(pb, queuedAt)))
    ensures LineHash(Rec(JournalRecord(pb, queuedAt))) == pb.hit.hashStr
  {
    JournalRoundTrip(pb, queuedAt);
  }

  lemma EnqueueComplete(b: Bag, hit: Hit, reason: string, queuedAt: string)
    requires Complete(b)
    ensures Complete(Enqueue(b, hit, reason, queuedAt))
  {
    if !Bagged(b, hit) {
      var pb := NewBlock(b, hit, reason);
      var line := Rec(JournalRecord(pb, queuedAt));
      NewLineReadable(pb, queuedAt);
      MapSnoc(LineHash, b.journal, line);
      DigestsAppend(b.pending, pb);
    }
  }

  /** Operations other than enqueue leave the journal alone and never add a digest. */
  lemma OtherOpsAddNothing(b: Bag, op: Op)
    requires !op.OpEnqueue?
    ensures Apply(b, op).journal == b.journal
    ensures Digests(Apply(b, op).pending) <= Digests(b.pending)
  {
    match op
    case OpMarkSubmitted(ids) => KeepMembers(b.pending, Not(IdIn(ids)));
    case OpDrop(hashes) => KeepMembers(b.pending, Not(DigestIn(hashes)));
    case OpMarkReason(id, reason) => SameBlocksDigests(WithReason(b.pending, id, reason), b.pending);
    case OpMarkForwarded(ids) =>
      ForwardedSameBlocks(b.pending, ids);
      SameBlocksDigests(WithForwarded(b.pending, ids), b.pending);
    case OpDeferAll(minute) =>
      SameBlocksDigests(Map((pb: PendingBlock) => Deferred(pb, minute), b.pending), b.pending);
    case OpFlush =>
  }

  lemma ReopenedAddsNothing(b: Bag)
    requires Agrees(b) && Durable(b)
    ensures Reopened(b).journal == b.journal
    ensures Digests(Reopened(b).pending) <= Digests(b.pending)
  {
    CrashLosesLittle(b);
    FromDigests(Reopened(b).pending, b.pending);
  }

  lemma StepComplete(b: Bag, e: StoreEvent)
    requires Agrees(b) && Durable(b) && Complete(b)
    ensures Complete(Step(b, e))
  {
    match e
    case Do(op) =>
      if op.OpEnqueue? {
        EnqueueComplete(b, op.hit, op.reason, op.queuedAt);
      } else {
        OtherOpsAddNothing(b, op);
      }
    case Restart =>
      FlushDurable(b);
      ReopenedAddsNothing(Flush(b));
    case Crash => ReopenedAddsNothing(b);
  }

  lemma {:induction false} RunComplete(b: Bag, events: seq<StoreEvent>)
    requires Agrees(b) && Durable(b) && Complete(b)
    ensures Complete(Run(b, events))
  {
    if events != [] {
      var n := |events| - 1;
      RunDurable(b, events[..n]);
      RunComplete(b, events[..n]);
      StepComplete(Run(b, events[..n]), events[n]);
    }
  }

  lemma StartComplete(disk: DbFile, journal: seq<JournalLine>)
    requires (disk.Missing? || disk.Unparsable?) && AllReadable(journal)
    ensures Load(disk, journal).Some? && Complete(Load(disk, journal).value)
  {
    LostDatabase(disk, journal);
    var b := Load(disk, journal).value;
    forall d | d in Digests(b.pending) ensures d in Map(LineHash, journal) {
      HashesAreDigests(b.pending, d);
    }
  }

  /** A session that opens without a readable database on any readable journal, and any run from there: losing the
      database again loses no digest that was pending, saved or not. */
  lemma LostDatabaseLosesNoDigest(disk: DbFile, journal: seq<JournalLine>, events: seq<StoreEvent>, lost: DbFile)
    requires (disk.Missing? || disk.Unparsable?) && AllReadable(journal)
    requires lost.Missing? || lost.Unparsable?
    ensures Load(disk, journal).Some?
    ensures var b := Run(Load(disk, journal).value, events);
      var c := Load(lost, b.journal);
      && c.Some? && Agrees(c.value) && Durable(c.value)
      && Hashes(c.value.pending) == Firsts(Map(LineHash, b.journal))
      && Digests(b.pending) <= Digests(c.value.pending)
  {
    StartComplete(disk, journal);
    FirstSessionDurable(disk, journal);
    var first := Load(disk, journal).value;
    RunComplete(first, events);
    var b := Run(first, events);
    LostDatabase(lost, b.journal);
    FirstSessionDurable(lost, b.journal);
    var c := Load(lost, b.journal).value;
    forall d | d in Digests(b.pending) ensures d in Digests(c.pending) {
      HashesAreDigests(c.pending, d);
    }
  }

  /** A block that is replayed has the hit of its line, no rejects and the reason of the line, and the id of the line
      unless that is taken or not positive. */
  lemma RecoveredWhole(l: Listing, pb: PendingBlock, at: string)
    ensures RecoveredBlock(l, JournalRecord(pb, at)) == Some(PendingBlock(
      if pb.id < 1 || HasId(l.pending, pb.id) then l.nextId else pb.id, Reloaded(pb.hit), pb.queueReason, 0, false))
  {
    JournalRoundTrip(pb, at);
  }

  /** A database without rows keeps its counter, cut to 32 bits, and takes its blocks from the journal. */
  lemma NoRowsCounts(n: int, journal: seq<JournalLine>)
    requires Load(NoRows(n), journal).Some?
    ensures var b := Load(NoRows(n), journal).value;
      && b.nextId >= Wrap32(n) && b.journal == journal
      && (b.pending == [] ==> b.nextId == Wrap32(n) && b.disk == NoRows(n))
      && (b.pending != [] ==> b.disk == Rows(b.nextId, RowsOf(b.pending)))
  {
    CounterGrows(EMPTY_LISTING.(nextId := Wrap32(n)), journal);
  }

  lemma {:induction false} CounterGrows(l: Listing, lines: seq<JournalLine>)
    requires RecoverLines(l, lines).Some?
    ensures var r := RecoverLines(l, lines).value;
      && r.nextId >= l.nextId && |r.pending| >= |l.pending|
      && (|r.pending| == |l.pending| ==> r == l)
  {
    hide RecoveredBlock, HitFromJson;
    if lines != [] {
      CounterGrows(l, lines[..|lines| - 1]);
    }
  }
}
