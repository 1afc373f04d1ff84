/** The state of the block store as a value: the pending list and its digest index in memory, and the
    two files behind them (src/queue/store.cpp, class BlockStore). Each operation is a function from
    states to states; class BlockStore (BlockStore.dfy) implements them in place. */
module Bags {
  import opened Blocks
  import opened Codec
  import opened Policy
  import opened Seqs

  /** The database file. Saved snapshots are Rows; the other forms are lost or foreign files. */
  datatype DbFile = Missing | Unparsable | NoRows(nextId: int) | Rows(nextId: int, rows: seq<Obj>)

  datatype JournalLine = Blank | Junk | Rec(obj: Obj)

  datatype Bag = Bag(
    pending: seq<PendingBlock>,
    index: set<string>,
    nextId: int,
    dirty: nat,
    disk: DbFile,
    journal: seq<JournalLine>)

  const SAVE_EVERY_OPS := 8

  // ---------- Writing ----------

  function RowsOf(pending: seq<PendingBlock>): seq<Obj> {
    Map(RowOf, pending)
  }

  function Save(b: Bag): Bag {
    b.(disk := Rows(b.nextId, RowsOf(b.pending)), dirty := 0)
  }

  function MarkDirtyMaybeSave(b: Bag): Bag {
    if b.dirty + 1 >= SAVE_EVERY_OPS then Save(b) else b.(dirty := b.dirty + 1)
  }

  function Flush(b: Bag): Bag {
    if b.dirty > 0 then Save(b) else b
  }

  predicate Bagged(b: Bag, hit: Hit) {
    hit.hashStr != "" && hit.hashStr in b.index
  }

  /** Zero for a digest that is already there. */
  function EnqueueId(b: Bag, hit: Hit): int {
    if Bagged(b, hit) then 0 else b.nextId
  }

  function NewBlock(b: Bag, hit: Hit, reason: string): PendingBlock {
    PendingBlock(b.nextId, hit, reason, 0, false)
  }

  function Enqueue(b: Bag, hit: Hit, reason: string, queuedAt: string): Bag {
    if Bagged(b, hit) then b
    else
      var pb := NewBlock(b, hit, reason);
      MarkDirtyMaybeSave(b.(
        pending := b.pending + [pb],
        index := b.index + (if hit.hashStr != "" then {hit.hashStr} else {}),
        nextId := b.nextId + 1,
        journal := b.journal + [Rec(JournalRecord(pb, queuedAt))]))
  }

  function IdIn(ids: seq<int>): PendingBlock -> bool {
    (pb: PendingBlock) => pb.id in ids
  }

  function DigestIn(hashes: seq<string>): PendingBlock -> bool {
    (pb: PendingBlock) => pb.hit.hashStr != "" && pb.hit.hashStr in hashes
  }

  function Not(p: PendingBlock -> bool): PendingBlock -> bool {
    (pb: PendingBlock) => !p(pb)
  }

  /** Removes every block that goes, with its digest. */
  function Without(b: Bag, goes: PendingBlock -> bool): Bag {
    b.(pending := Keep(b.pending, Not(goes)),
       index := b.index - Digests(Keep(b.pending, goes)))
  }

  function Digests(pending: seq<PendingBlock>): set<string> {
    set pb | pb in pending && pb.hit.hashStr != "" :: pb.hit.hashStr
  }

  function MarkSubmittedMany(b: Bag, ids: seq<int>): Bag {
    if ids == [] then b else Save(Without(b, IdIn(ids)))
  }

  function DropByHash(b: Bag, hashes: seq<string>): Bag {
    var dropped := Without(b, DigestIn(hashes));
    if |dropped.pending| < |b.pending| then Save(dropped) else b
  }

  /** The first position with that id, or the length. */
  function FirstWithId(pending: seq<PendingBlock>, id: int): (k: nat)
    ensures k <= |pending|
    ensures forall j :: 0 <= j < k ==> pending[j].id != id
    ensures k < |pending| ==> pending[k].id == id
  {
    if pending == [] then 0 else if pending[0].id == id then 0 else 1 + FirstWithId(pending[1..], id)
  }

  function WithReason(pending: seq<PendingBlock>, id: int, reason: string): seq<PendingBlock> {
    var k := FirstWithId(pending, id);
    if k < |pending| then pending[k := pending[k].(queueReason := reason)] else pending
  }

  function MarkPendingReason(b: Bag, id: int, reason: string): Bag {
    MarkDirtyMaybeSave(b.(pending := WithReason(b.pending, id, reason)))
  }

  function WithForwarded(pending: seq<PendingBlock>, ids: seq<int>): seq<PendingBlock>
  {
    if ids == [] then pending
    else
      var front := WithForwarded(pending, ids[..|ids| - 1]);
      var k := FirstWithId(front, ids[|ids| - 1]);
      if k < |front| then front[k := front[k].(forwarded := true)] else front
  }

  function MarkForwardedMany(b: Bag, ids: seq<int>): Bag {
    if ids == [] then b else Save(b.(pending := WithForwarded(b.pending, ids)))
  }

  function Deferred(pb: PendingBlock, minute: int): PendingBlock {
    pb.(queueReason := if pb.hit.blockType == "XUNI" && !InXuniSubmitWindow(minute)
                       then OUTSIDE_XUNI_WINDOW else SHUTDOWN_PENDING)
  }

  function DeferAll(b: Bag, minute: int): Bag {
    Save(b.(pending := Map((pb: PendingBlock) => Deferred(pb, minute), b.pending)))
  }

  // ---------- Counting ----------

  function MatchesM(m: int, defaultM: int): PendingBlock -> bool {
    (pb: PendingBlock) => EffectiveM(pb.hit, defaultM, m) == m
  }

  /** The blocks that count as of memory cost m. */
  function Matching(pending: seq<PendingBlock>, m: int, defaultM: int): seq<PendingBlock> {
    Keep(pending, MatchesM(m, defaultM))
  }

  // ---------- Reading ----------

  function Max(x: int, y: int): int {
    if x < y then y else x
  }

  /** What loading builds up in memory. */
  datatype Listing = Listing(pending: seq<PendingBlock>, index: set<string>, nextId: int)

  function Memory(b: Bag): Listing {
    Listing(b.pending, b.index, b.nextId)
  }

  function Append(l: Listing, pb: PendingBlock, nextId: int): Listing {
    Listing(l.pending + [pb],
            l.index + (if pb.hit.hashStr != "" then {pb.hit.hashStr} else {}),
            nextId)
  }

  /** One row of the database. The id default is evaluated for every row, so the counter always moves.
      The flag is false when the row threw. */
  function LoadRow(l: Listing, row: Obj): (Listing, bool) {
    match BlockOf(row, l.nextId)
    case None => (l.(nextId := l.nextId + 1), false)
    case Some(pb) => (Append(l, pb, Max(l.nextId + 1, pb.id + 1)), true)
  }

  function LoadRows(l: Listing, rows: seq<Obj>): (Listing, bool) {
    if rows == [] then (l, true)
    else
      var (front, ok) := LoadRows(l, rows[..|rows| - 1]);
      if !ok then (front, false) else LoadRow(front, rows[|rows| - 1])
  }

  predicate HasId(pending: seq<PendingBlock>, id: int) {
    exists pb :: pb in pending && pb.id == id
  }

  /** The block that a journal object stands for; None when a field has the wrong type. */
  function RecoveredBlock(l: Listing, obj: Obj): Option<PendingBlock> {
    var hit := HitFromJson(obj);
    var id := Int64Or(obj.id, l.nextId);
    var oldReason := StrOr(obj.reason, "jsonl_recover");
    var reason := if oldReason.Some? then StrOr(obj.queueReason, oldReason.value) else None;
    var rejects := Int32Or(obj.rejectCount, 0);
    if hit.None? || id.None? || reason.None? || rejects.None? then None
    else
      var id := if id.value < 1 || HasId(l.pending, id.value) then l.nextId else id.value;
      Some(PendingBlock(id, hit.value, reason.value, rejects.value, false))
  }

  /** One line of the journal. None when it throws. */
  function RecoverLine(l: Listing, line: JournalLine): Option<Listing> {
    if !line.Rec? then Some(l)
    else
      match HitFromJson(line.obj)
      case None => None
      case Some(hit) =>
        if hit.hashStr == "" || hit.hashStr in l.index then Some(l)
        else
          match RecoveredBlock(l, line.obj)
          case None => None
          case Some(pb) => Some(Append(l, pb, Max(l.nextId, pb.id + 1)))
  }

  function RecoverLines(l: Listing, lines: seq<JournalLine>): Option<Listing> {
    if lines == [] then Some(l)
    else
      match RecoverLines(l, lines[..|lines| - 1])
      case None => None
      case Some(front) => RecoverLine(front, lines[|lines| - 1])
  }

  function BagWith(l: Listing, disk: DbFile, journal: seq<JournalLine>): Bag {
    Bag(l.pending, l.index, l.nextId, 0, disk, journal)
  }

  /** Replays the journal on top of l and saves if that added anything. */
  function Recover(l: Listing, disk: DbFile, journal: seq<JournalLine>): Option<Bag> {
    match RecoverLines(l, journal)
    case None => None
    case Some(r) =>
      var b := BagWith(r, disk, journal);
      Some(if |r.pending| > |l.pending| then Save(b) else b)
  }

  const EMPTY_LISTING := Listing([], {}, 1)

  /** What the constructor makes of the two files; None when it throws. The id counter is read through a
      32-bit int. */
  function Load(disk: DbFile, journal: seq<JournalLine>): Option<Bag> {
    match disk
    case Missing => Recover(EMPTY_LISTING, disk, journal)
    case Unparsable => Recover(EMPTY_LISTING, disk, journal)
    case NoRows(n) => Recover(EMPTY_LISTING.(nextId := Wrap32(n)), disk, journal)
    case Rows(n, rows) =>
      var (loaded, ok) := LoadRows(EMPTY_LISTING.(nextId := Wrap32(n)), rows);
      if ok then Some(BagWith(loaded, disk, journal)) else Recover(loaded, disk, journal)
  }

  // ---------- Runs ----------

  datatype Op =
    | OpEnqueue(hit: Hit, reason: string, queuedAt: string)
    | OpMarkSubmitted(ids: seq<int>)
    | OpMarkReason(id: int, reason: string)
    | OpMarkForwarded(ids: seq<int>)
    | OpDrop(hashes: seq<string>)
    | OpFlush
    | OpDeferAll(minute: int)

  function Apply(b: Bag, op: Op): Bag {
    match op
    case OpEnqueue(hit, reason, queuedAt) => Enqueue(b, hit, reason, queuedAt)
    case OpMarkSubmitted(ids) => MarkSubmittedMany(b, ids)
    case OpMarkReason(id, reason) => MarkPendingReason(b, id, reason)
    case OpMarkForwarded(ids) => MarkForwardedMany(b, ids)
    case OpDrop(hashes) => DropByHash(b, hashes)
    case OpFlush => Flush(b)
    case OpDeferAll(minute) => DeferAll(b, minute)
  }

  /** An operation, or the end of a session and the start of the next: a clean end saves first, a crash
      does not. */
  datatype StoreEvent = Do(op: Op) | Restart | Crash

  function Reopened(b: Bag): Bag {
    match Load(b.disk, b.journal)
    case Some(c) => c
    case None => b
  }

  function Step(b: Bag, e: StoreEvent): Bag {
    match e
    case Do(op) => Apply(b, op)
    case Restart => Reopened(Flush(b))
    case Crash => Reopened(b)
  }

  function Run(b: Bag, events: seq<StoreEvent>): Bag {
    if events == [] then b else Step(Run(b, events[..|events| - 1]), events[|events| - 1])
  }
}
