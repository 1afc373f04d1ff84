/** The digest index agrees with the pending list, whatever is done to the store. */
module BagInvariants {
  import opened Blocks
  import opened Codec
  import opened Seqs
  import opened Bags

  ghost predicate DistinctIds(s: seq<PendingBlock>) {
    forall i, j :: 0 <= i < j < |s| ==> s[i].id != s[j].id
  }

  ghost predicate DistinctDigests(s: seq<PendingBlock>) {
    forall i, j :: 0 <= i < j < |s| && s[i].hit.hashStr != "" ==> s[i].hit.hashStr != s[j].hit.hashStr
  }

  ghost predicate IdsBelow(s: seq<PendingBlock>, nextId: int) {
    forall pb :: pb in s ==> pb.id < nextId
  }

  /** The index is the set of digests in the list; digests and ids are distinct; new ids are unused. */
  ghost predicate ListingAgrees(l: Listing) {
    && l.index == Digests(l.pending)
    && DistinctDigests(l.pending)
    && DistinctIds(l.pending)
    && IdsBelow(l.pending, l.nextId)
  }

  ghost predicate Agrees(b: Bag) {
    ListingAgrees(Memory(b))
  }

  // ---------- Appending ----------

  lemma DigestsAppend(s: seq<PendingBlock>, pb: PendingBlock)
    ensures Digests(s + [pb]) == Digests(s) + (if pb.hit.hashStr != "" then {pb.hit.hashStr} else {})
  {
    forall d | d in Digests(s) ensures d in Digests(s + [pb]) {
      var q :| q in s && q.hit.hashStr != "" && q.hit.hashStr == d;
      assert q in s + [pb];
    }
    assert pb in s + [pb];
  }

  lemma DistinctAppend(s: seq<PendingBlock>, pb: PendingBlock)
    requires DistinctIds(s) && DistinctDigests(s)
    requires forall q :: q in s ==>
      q.id != pb.id && (q.hit.hashStr != "" ==> q.hit.hashStr != pb.hit.hashStr)
    ensures DistinctIds(s + [pb]) && DistinctDigests(s + [pb])
  {
    forall i | 0 <= i < |s| ensures s[i] in s {}
  }

  lemma AppendAgrees(l: Listing, pb: PendingBlock, nextId: int)
    requires ListingAgrees(l)
    requires pb.hit.hashStr == "" || pb.hit.hashStr !in l.index
    requires forall q :: q in l.pending ==> q.id != pb.id
    requires nextId > pb.id && nextId >= l.nextId
    ensures ListingAgrees(Append(l, pb, nextId))
  {
    DigestsAppend(l.pending, pb);
    forall q | q in l.pending && q.hit.hashStr != "" ensures q.hit.hashStr != pb.hit.hashStr {
      assert q.hit.hashStr in Digests(l.pending);
    }
    DistinctAppend(l.pending, pb);
  }

  // ---------- Removing ----------

  lemma {:induction false} KeepDistinctIds(s: seq<PendingBlock>, p: PendingBlock -> bool)
    requires DistinctIds(s)
    ensures DistinctIds(Keep(s, p))
  {
    if s != [] {
      var front, last := s[..|s| - 1], s[|s| - 1];
      KeepDistinctIds(front, p);
      KeepMembers(front, p);
      forall q | q in Keep(front, p) ensures q.id != last.id {
        var i :| 0 <= i < |front| && front[i] == q;
        assert s[i] == q;
      }
      forall i | 0 <= i < |Keep(front, p)| ensures Keep(front, p)[i] in Keep(front, p) {}
    }
  }

  lemma {:induction false} KeepDistinct(s: seq<PendingBlock>, p: PendingBlock -> bool)
    requires DistinctDigests(s)
    ensures DistinctDigests(Keep(s, p))
  {
    if s != [] {
      var front, last := s[..|s| - 1], s[|s| - 1];
      KeepDistinct(front, p);
      KeepMembers(front, p);
      forall q | q in Keep(front, p) && q.hit.hashStr != "" ensures q.hit.hashStr != last.hit.hashStr {
        var i :| 0 <= i < |front| && front[i] == q;
        assert s[i] == q;
      }
      forall i | 0 <= i < |Keep(front, p)| ensures Keep(front, p)[i] in Keep(front, p) {}
    }
  }

  lemma DigestOwner(s: seq<PendingBlock>, p: PendingBlock, q: PendingBlock)
    requires DistinctDigests(s) && p in s && q in s
    requires p.hit.hashStr == q.hit.hashStr != ""
    ensures p == q
  {
    var i :| 0 <= i < |s| && s[i] == p;
    var j :| 0 <= j < |s| && s[j] == q;
    assert i == j;
  }

  lemma IdOwner(s: seq<PendingBlock>, p: PendingBlock, q: PendingBlock)
    requires DistinctIds(s) && p in s && q in s
    requires p.id == q.id
    ensures p == q
  {
    var i :| 0 <= i < |s| && s[i] == p;
    var j :| 0 <= j < |s| && s[j] == q;
    assert i == j;
  }

  /** Removing blocks and their digests leaves exactly the digests of the blocks that stay. */
  lemma DigestsSplit(s: seq<PendingBlock>, goes: PendingBlock -> bool)
    requires DistinctDigests(s)
    ensures Digests(Keep(s, Not(goes))) == Digests(s) - Digests(Keep(s, goes))
  {
    KeepMembers(s, goes);
    KeepMembers(s, Not(goes));
    forall d | d in Digests(Keep(s, Not(goes))) ensures d in Digests(s) && d !in Digests(Keep(s, goes)) {
      var p :| p in Keep(s, Not(goes)) && p.hit.hashStr != "" && p.hit.hashStr == d;
      if d in Digests(Keep(s, goes)) {
        var q :| q in Keep(s, goes) && q.hit.hashStr != "" && q.hit.hashStr == d;
        DigestOwner(s, p, q);
      }
    }
    forall d | d in Digests(s) && d !in Digests(Keep(s, goes)) ensures d in Digests(Keep(s, Not(goes))) {
      var p :| p in s && p.hit.hashStr != "" && p.hit.hashStr == d;
      assert p !in Keep(s, goes);
      assert p in Keep(s, Not(goes));
    }
  }

  lemma WithoutAgrees(b: Bag, goes: PendingBlock -> bool)
    requires Agrees(b)
    ensures Agrees(Without(b, goes))
  {
    KeepDistinctIds(b.pending, Not(goes));
    KeepDistinct(b.pending, Not(goes));
    KeepMembers(b.pending, Not(goes));
    DigestsSplit(b.pending, goes);
  }

  // ---------- Editing in place ----------

  /** Same blocks in the same places, up to the notes that the store keeps on them. */
  ghost predicate SameBlocks(s: seq<PendingBlock>, t: seq<PendingBlock>) {
    |s| == |t| && forall i :: 0 <= i < |s| ==> s[i].id == t[i].id && s[i].hit == t[i].hit
  }

  lemma SameBlocksDigests(s: seq<PendingBlock>, t: seq<PendingBlock>)
    requires SameBlocks(s, t)
    ensures Digests(s) <= Digests(t)
  {
    forall d | d in Digests(s) ensures d in Digests(t) {
      var p :| p in s && p.hit.hashStr != "" && p.hit.hashStr == d;
      var i :| 0 <= i < |s| && s[i] == p;
      assert t[i] in t && t[i].hit == p.hit;
    }
  }

  lemma EditAgrees(b: Bag, t: seq<PendingBlock>)
    requires Agrees(b)
    requires SameBlocks(b.pending, t)
    ensures Agrees(b.(pending := t))
  {
    SameBlocksDigests(b.pending, t);
    SameBlocksDigests(t, b.pending);
    forall pb | pb in t ensures pb.id < b.nextId {
      var i :| 0 <= i < |t| && t[i] == pb;
      assert b.pending[i] in b.pending;
    }
  }

  lemma {:induction false} ForwardedSameBlocks(s: seq<PendingBlock>, ids: seq<int>)
    ensures SameBlocks(s, WithForwarded(s, ids))
  {
    if ids != [] {
      ForwardedSameBlocks(s, ids[..|ids| - 1]);
    }
  }

  // ---------- Loading ----------

  lemma RecoverLineAgrees(l: Listing, line: JournalLine)
    requires ListingAgrees(l)
    requires RecoverLine(l, line).Some?
    ensures ListingAgrees(RecoverLine(l, line).value)
    ensures l.pending <= RecoverLine(l, line).value.pending
    ensures l.nextId <= RecoverLine(l, line).value.nextId
  {
    if line.Rec? {
      var hit := HitFromJson(line.obj).value;
      if hit.hashStr != "" && hit.hashStr !in l.index {
        var pb := RecoveredBlock(l, line.obj).value;
        AppendAgrees(l, pb, Max(l.nextId, pb.id + 1));
      }
    }
  }

  lemma {:induction false} RecoverLinesAgrees(l: Listing, lines: seq<JournalLine>)
    requires ListingAgrees(l)
    requires RecoverLines(l, lines).Some?
    ensures ListingAgrees(RecoverLines(l, lines).value)
    ensures l.pending <= RecoverLines(l, lines).value.pending
    ensures l.nextId <= RecoverLines(l, lines).value.nextId
  {
    if lines != [] {
      var n := |lines| - 1;
      RecoverLinesAgrees(l, lines[..n]);
      RecoverLineAgrees(RecoverLines(l, lines[..n]).value, lines[n]);
    }
  }

  lemma {:induction false} LoadRowsIndexed(l: Listing, rows: seq<Obj>)
    requires l.index == Digests(l.pending) && IdsBelow(l.pending, l.nextId)
    ensures var m := LoadRows(l, rows).0; m.index == Digests(m.pending) && IdsBelow(m.pending, m.nextId)
  {
    if rows != [] {
      var n := |rows| - 1;
      LoadRowsIndexed(l, rows[..n]);
      var front := LoadRows(l, rows[..n]).0;
      var pb := BlockOf(rows[n], front.nextId);
      if pb.Some? {
        DigestsAppend(front.pending, pb.value);
      }
    }
  }

  /** What the database alone puts into memory, before any replay. */
  function FromDisk(disk: DbFile): Listing {
    match disk
    case Missing => EMPTY_LISTING
    case Unparsable => EMPTY_LISTING
    case NoRows(n) => EMPTY_LISTING.(nextId := Wrap32(n))
    case Rows(n, rows) => LoadRows(EMPTY_LISTING.(nextId := Wrap32(n)), rows).0
  }

  /** Whatever the two files hold: a store that opens agrees with itself exactly when the rows that were loaded
      have distinct ids and distinct digests. The journal cannot spoil that, nor repair it. */
  lemma RecoverAgrees(disk: DbFile, journal: seq<JournalLine>)
    requires Load(disk, journal).Some?
    ensures Agrees(Load(disk, journal).value) <==>
      DistinctIds(FromDisk(disk).pending) && DistinctDigests(FromDisk(disk).pending)
  {
    var l := FromDisk(disk);
    if disk.Rows? {
      LoadRowsIndexed(EMPTY_LISTING.(nextId := Wrap32(disk.nextId)), disk.rows);
    }
    var c := Load(disk, journal).value;
    if DistinctIds(l.pending) && DistinctDigests(l.pending) {
      assert ListingAgrees(l);
      if Memory(c) != l {
        assert Recover(l, disk, journal) == Some(c);
        RecoverLinesAgrees(l, journal);
      }
    }
    LoadExtends(disk, journal);
    DistinctPrefix(l.pending, c.pending);
  }

  lemma {:induction false} RecoverLinesExtend(l: Listing, lines: seq<JournalLine>)
    requires RecoverLines(l, lines).Some?
    ensures l.pending <= RecoverLines(l, lines).value.pending
  {
    if lines != [] {
      RecoverLinesExtend(l, lines[..|lines| - 1]);
    }
  }

  lemma LoadExtends(disk: DbFile, journal: seq<JournalLine>)
    requires Load(disk, journal).Some?
    ensures FromDisk(disk).pending <= Load(disk, journal).value.pending
  {
    if RecoverLines(FromDisk(disk), journal).Some? {
      RecoverLinesExtend(FromDisk(disk), journal);
    }
  }

  lemma DistinctPrefix(s: seq<PendingBlock>, t: seq<PendingBlock>)
    requires s <= t
    ensures DistinctIds(t) ==> DistinctIds(s)
    ensures DistinctDigests(t) ==> DistinctDigests(s)
  {
    assert forall i :: 0 <= i < |s| ==> s[i] == t[i];
  }

  // ---------- Every operation ----------

  lemma EnqueueAgrees(b: Bag, hit: Hit, reason: string, queuedAt: string)
    requires Agrees(b)
    ensures Agrees(Enqueue(b, hit, reason, queuedAt))
  {
    if !Bagged(b, hit) {
      AppendAgrees(Memory(b), NewBlock(b, hit, reason), b.nextId + 1);
    }
  }

  lemma OpAgrees(b: Bag, op: Op)
    requires Agrees(b)
    ensures Agrees(Apply(b, op))
  {
    match op
    case OpEnqueue(hit, reason, queuedAt) => EnqueueAgrees(b, hit, reason, queuedAt);
    case OpMarkSubmitted(ids) => WithoutAgrees(b, IdIn(ids));
    case OpMarkReason(id, reason) => EditAgrees(b, WithReason(b.pending, id, reason));
    case OpMarkForwarded(ids) =>
      ForwardedSameBlocks(b.pending, ids);
      EditAgrees(b, WithForwarded(b.pending, ids));
    case OpDrop(hashes) => WithoutAgrees(b, DigestIn(hashes));
    case OpFlush =>
    case OpDeferAll(minute) => EditAgrees(b, Map((pb: PendingBlock) => Deferred(pb, minute), b.pending));
  }

  /** When everything is put off to the next start, XUNI blocks that come to rest between minutes 5 and 54 say so, all
      others wait for the shutdown to be over, and nothing else of a block changes. */
  lemma DeferReasons(b: Bag, minute: int, i: nat)
    requires i < |b.pending|
    ensures var c := DeferAll(b, minute);
      && |c.pending| == |b.pending| && c.index == b.index && c.nextId == b.nextId
      && c.pending[i] == b.pending[i].(
           queueReason := if b.pending[i].hit.blockType == "XUNI" && 5 <= minute < 55
                          then "outside_xuni_window" else "shutdown_pending")
  {
  }

  /** Marking forwards the blocks with those ids and changes nothing else; removing takes exactly them. */
  lemma {:induction false} ForwardsExactly(b: Bag, ids: seq<int>, i: nat)
    requires DistinctIds(b.pending) && i < |b.pending|
    ensures var c := MarkForwardedMany(b, ids);
      && |c.pending| == |b.pending| && c.index == b.index
      && c.pending[i] == b.pending[i].(forwarded := b.pending[i].forwarded || b.pending[i].id in ids)
  {
    ForwardedAt(b.pending, ids, i);
  }

  lemma {:induction false} ForwardedAt(pending: seq<PendingBlock>, ids: seq<int>, i: nat)
    requires DistinctIds(pending) && i < |pending|
    ensures var t := WithForwarded(pending, ids);
      && |t| == |pending|
      && t[i] == pending[i].(forwarded := pending[i].forwarded || pending[i].id in ids)
      && forall j :: 0 <= j < |t| ==> t[j].id == pending[j].id
  {
    if ids != [] {
      var n := |ids| - 1;
      ForwardedAt(pending, ids[..n], i);
      var front := WithForwarded(pending, ids[..n]);
      assert front[i].id == pending[i].id;
      FirstIsOnly(pending, front, ids[n], i);
    }
  }

  lemma FirstIsOnly(pending: seq<PendingBlock>, front: seq<PendingBlock>, id: int, i: nat)
    requires DistinctIds(pending) && |front| == |pending| && i < |pending|
    requires forall j :: 0 <= j < |front| ==> front[j].id == pending[j].id
    ensures pending[i].id == id <==> FirstWithId(front, id) == i
  {
  }

  lemma RemovesExactly(b: Bag, ids: seq<int>, hashes: seq<string>)
    ensures MarkSubmittedMany(b, ids).pending == Keep(b.pending, Not(IdIn(ids)))
    ensures DropByHash(b, hashes).pending == Keep(b.pending, Not(DigestIn(hashes)))
  {
    if ids == [] {
      KeepAll(b.pending, Not(IdIn(ids)));
    }
    var kept := Keep(b.pending, Not(DigestIn(hashes)));
    if |kept| == |b.pending| {
      KeptWhole(b.pending, Not(DigestIn(hashes)));
    }
  }

  lemma {:induction false} KeptWhole(s: seq<PendingBlock>, p: PendingBlock -> bool)
    requires |Keep(s, p)| == |s|
    ensures Keep(s, p) == s
  {
    if s != [] {
      KeptWhole(s[..|s| - 1], p);
    }
  }
}
