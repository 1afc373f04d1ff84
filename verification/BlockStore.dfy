/** The block store as the miner runs it: fields updated in place under one mutex
    (src/queue/store.cpp, class BlockStore). Every method is proved against the function of the same name
    on states; what those functions promise is proved in BagInvariants, Durability, JournalRecovery and
    FlushBatch. */
module BlockStore {
  import opened Blocks
  import opened Codec
  import opened Policy
  import opened Seqs
  import opened Bags
  import opened BagInvariants
  import Batch = FlushBatch

  class BlockStore {
    var pending: seq<PendingBlock>
    var hashIndex: set<string>
    var nextId: int
    var dirtyOps: nat
    var disk: DbFile
    var journal: seq<JournalLine>

    function State(): Bag
      reads this
    {
      Bag(pending, hashIndex, nextId, dirtyOps, disk, journal)
    }

    constructor (disk: DbFile, journal: seq<JournalLine>)
      ensures State() == BagWith(EMPTY_LISTING, disk, journal)
    {
      this.pending, this.hashIndex, this.nextId, this.dirtyOps := [], {}, 1, 0;
      this.disk, this.journal := disk, journal;
    }

    method SaveDb()
      modifies this
      ensures State() == Save(old(State()))
    {
      var rows: seq<Obj> := [];
      for i := 0 to |pending|
        invariant State() == old(State())
        invariant rows == RowsOf(pending[..i])
      {
        MapSnoc(RowOf, pending[..i], pending[i]);
        assert pending[..i + 1] == pending[..i] + [pending[i]];
        rows := rows + [RowOf(pending[i])];
      }
      assert pending[..|pending|] == pending;
      disk := Rows(nextId, rows);
      dirtyOps := 0;
    }

    method MarkDirtyThenMaybeSave()
      modifies this
      ensures State() == MarkDirtyMaybeSave(old(State()))
    {
      dirtyOps := dirtyOps + 1;
      if dirtyOps >= SAVE_EVERY_OPS {
        SaveDb();
      }
    }

    method Flush()
      modifies this
      ensures State() == Bags.Flush(old(State()))
    {
      if dirtyOps > 0 {
        SaveDb();
      }
    }

    /** Returns the new id, or 0 when the digest is already bagged. */
    method Enqueue(hit: Hit, reason: string, queuedAt: string) returns (id: int)
      modifies this
      ensures State() == Bags.Enqueue(old(State()), hit, reason, queuedAt)
      ensures id == EnqueueId(old(State()), hit)
      ensures if Bagged(old(State()), hit) then id == 0 && State() == old(State())
              else pending == old(pending) + [PendingBlock(id, hit, reason, 0, false)]
    {
      if hit.hashStr != "" && hit.hashStr in hashIndex {
        return 0;
      }
      var pb := PendingBlock(nextId, hit, reason, 0, false);
      id := nextId;
      nextId := nextId + 1;
      if hit.hashStr != "" {
        hashIndex := hashIndex + {hit.hashStr};
      }
      journal := journal + [Rec(JournalRecord(pb, queuedAt))];
      pending := pending + [pb];
      MarkDirtyThenMaybeSave();
    }

    /** The erase-remove idiom: keep what stays, and drop the digest of what goes. */
    method EraseIf(goes: PendingBlock -> bool)
      modifies this`pending, this`hashIndex
      ensures State() == Without(old(State()), goes)
    {
      var kept: seq<PendingBlock> := [];
      ghost var gone: seq<PendingBlock> := [];
      ghost var was := pending;
      assert was[..0] == [] && Digests(gone) == {};
      for i := 0 to |pending|
        invariant pending == was
        invariant kept == Keep(was[..i], Not(goes)) && gone == Keep(was[..i], goes)
        invariant hashIndex == old(hashIndex) - Digests(gone)
      {
        KeepNext(was, i, Not(goes));
        KeepNext(was, i, goes);
        var pb := pending[i];
        if goes(pb) {
          ForgetDigest(old(hashIndex), gone, pb);
          gone := gone + [pb];
          if pb.hit.hashStr != "" {
            hashIndex := hashIndex - {pb.hit.hashStr};
          }
        } else {
          kept := kept + [pb];
        }
      }
      assert was[..|was|] == was;
      pending := kept;
      assert State() == Without(old(State()), goes);
    }

    method DropByHash(hashes: seq<string>) returns (n: int)
      modifies this
      ensures State() == Bags.DropByHash(old(State()), hashes)
      ensures n == |old(pending)| - |pending|
    {
      n := 0;
      if forall h :: h in hashes ==> h == "" {
        KeepNothing(pending, DigestIn(hashes));
        return;
      }
      var before := |pending|;
      EraseIf(DigestIn(hashes));
      n := before - |pending|;
      if n != 0 {
        SaveDb();
      } else {
        ErasedNothing(old(State()), DigestIn(hashes));
      }
    }

    method MarkSubmittedMany(ids: seq<int>)
      modifies this
      ensures State() == Bags.MarkSubmittedMany(old(State()), ids)
    {
      if ids == [] {
        return;
      }
      ghost var b := State();
      assert ids[..0] == [];
      WithoutNone(b);
      for i := 0 to |ids|
        invariant State() == Without(b, IdIn(ids[..i]))
      {
        EraseIf(IdIn([ids[i]]));
        WithoutTwice(b, ids[..i], ids[i]);
        assert ids[..i + 1] == ids[..i] + [ids[i]];
      }
      assert ids[..|ids|] == ids;
      dirtyOps := dirtyOps + 1;
      SaveDb();
    }

    method MarkPendingReason(id: int, reason: string)
      modifies this
      ensures State() == Bags.MarkPendingReason(old(State()), id, reason)
    {
      var k := FindById(id);
      if k < |pending| {
        pending := pending[k := pending[k].(queueReason := reason)];
      }
      MarkDirtyThenMaybeSave();
    }

    method FindById(id: int) returns (k: nat)
      ensures k == FirstWithId(pending, id)
    {
      k := 0;
      while k < |pending| && pending[k].id != id
        invariant k <= |pending|
        invariant forall j :: 0 <= j < k ==> pending[j].id != id
      {
        k := k + 1;
      }
    }

    method MarkForwardedMany(ids: seq<int>)
      modifies this
      ensures State() == Bags.MarkForwardedMany(old(State()), ids)
    {
      if ids == [] {
        return;
      }
      for i := 0 to |ids|
        invariant State() == old(State()).(pending := WithForwarded(old(pending), ids[..i]))
      {
        var k := FindById(ids[i]);
        if k < |pending| {
          pending := pending[k := pending[k].(forwarded := true)];
        }
        assert ids[..i + 1][..i] == ids[..i];
      }
      assert ids[..|ids|] == ids;
      dirtyOps := dirtyOps + 1;
      SaveDb();
    }

    method DeferAllToNextStart(minute: int)
      modifies this
      ensures State() == DeferAll(old(State()), minute)
    {
      ghost var f := (pb: PendingBlock) => Deferred(pb, minute);
      for i := 0 to |pending|
        invariant |pending| == |old(pending)|
        invariant forall j :: 0 <= j < i ==> pending[j] == Deferred(old(pending)[j], minute)
        invariant forall j :: i <= j < |pending| ==> pending[j] == old(pending)[j]
        invariant State() == old(State()).(pending := pending)
      {
        var reason := if pending[i].hit.blockType == "XUNI" && !InXuniSubmitWindow(minute)
          then OUTSIDE_XUNI_WINDOW else SHUTDOWN_PENDING;
        pending := pending[i := pending[i].(queueReason := reason)];
      }
      assert pending == Map(f, old(pending));
      dirtyOps := dirtyOps + 1;
      SaveDb();
    }

    method PendingMatchingM(m: int, defaultM: int) returns (n: nat)
      ensures n == |Matching(pending, m, defaultM)|
    {
      n := CountMatching(pending, m, defaultM);
    }

    method ListFlushBatch(q: Batch.Query) returns (out: seq<PendingBlock>)
      ensures out == Batch.ListFlushBatch(q, pending)
    {
      var cap := if q.limit > 0 then q.limit else |pending|;
      var preferred, wrapped := Scan(q, cap);
      FilledFrom(Keep(pending, Batch.Preferred(q)), Keep(pending, Batch.Wrapped(q)), cap, preferred, wrapped);
      if |preferred| < cap {
        preferred := FillUp(preferred, wrapped, cap);
      }
      out := Batch.Sorted(preferred);
    }

    /** One pass over the bag, ended early by a full wave. */
    method Scan(q: Batch.Query, cap: nat) returns (preferred: seq<PendingBlock>, wrapped: seq<PendingBlock>)
      ensures preferred == Take(Keep(pending, Batch.Preferred(q)), cap)
      ensures |preferred| < cap ==> wrapped == Take(Keep(pending, Batch.Wrapped(q)), cap)
    {
      preferred, wrapped := [], [];
      var i := 0;
      while i < |pending|
        invariant 0 <= i <= |pending|
        invariant preferred == Take(Keep(pending[..i], Batch.Preferred(q)), cap)
        invariant wrapped == Take(Keep(pending[..i], Batch.Wrapped(q)), cap)
      {
        var pb := pending[i];
        TakeNext(pending, i, Batch.Preferred(q), cap);
        TakeNext(pending, i, Batch.Wrapped(q), cap);
        if Batch.Skipped(q, pb) {
          if |wrapped| < cap && Batch.Eligible(q, pb) {
            wrapped := wrapped + [pb];
          }
        } else if |preferred| < cap && Batch.Eligible(q, pb) {
          preferred := preferred + [pb];
        }
        i := i + 1;
        if |preferred| >= cap {
          break;
        }
      }
      TakeSoFar(pending, i, Batch.Preferred(q), cap, preferred);
      if i == |pending| {
        TakeSoFar(pending, i, Batch.Wrapped(q), cap, wrapped);
      }
    }

    method FillUp(preferred: seq<PendingBlock>, wrapped: seq<PendingBlock>, cap: nat)
      returns (r: seq<PendingBlock>)
      requires |preferred| < cap
      ensures r == preferred + Take(wrapped, cap - |preferred|)
    {
      r := preferred;
      var k := 0;
      while k < |wrapped| && |r| < cap
        invariant 0 <= k <= |wrapped|
        invariant r == preferred + wrapped[..k]
        invariant |r| <= cap
      {
        r := r + [wrapped[k]];
        k := k + 1;
      }
    }

    // ---------- Opening ----------

    /** Replays the journal; false when a line throws, which ends construction. */
    method RecoverJsonl() returns (ok: bool)
      requires dirtyOps == 0
      modifies this
      ensures ok <==> Bags.Recover(old(Memory(State())), old(disk), old(journal)).Some?
      ensures ok ==> State() == Bags.Recover(old(Memory(State())), old(disk), old(journal)).value
    {
      var added := false;
      ghost var start := Memory(State());
      assert journal[..0] == [];
      for i := 0 to |journal|
        invariant State() == BagWith(Memory(State()), old(disk), old(journal))
        invariant RecoverLines(start, journal[..i]) == Some(Memory(State()))
        invariant |pending| >= |start.pending| && (added <==> |pending| > |start.pending|)
      {
        var line := journal[i];
        ghost var before := Memory(State());
        assert journal[..i + 1][..i] == journal[..i];
        assert RecoverLines(start, journal[..i + 1]) == RecoverLine(before, line);
        if line.Rec? {
          var hit := HitFromJson(line.obj);
          if hit.None? {
            RecoverStaysStuck(start, journal, i + 1);
            return false;
          }
          if hit.value.hashStr != "" && hit.value.hashStr !in hashIndex {
            var pb := RecoveredBlock(Listing(pending, hashIndex, nextId), line.obj);
            if pb.None? {
              RecoverStaysStuck(start, journal, i + 1);
              return false;
            }
            nextId := if nextId < pb.value.id + 1 then pb.value.id + 1 else nextId;
            hashIndex := hashIndex + {pb.value.hit.hashStr};
            pending := pending + [pb.value];
            added := true;
          }
        }
      }
      assert journal[..|journal|] == journal;
      if added {
        SaveDb();
      }
      ok := true;
    }

    /** The rows of the database; false when a row throws, with the rows before it already in. */
    method LoadDb(rows: seq<Obj>) returns (ok: bool)
      modifies this`pending, this`hashIndex, this`nextId
      ensures (Memory(State()), ok) == LoadRows(old(Memory(State())), rows)
    {
      ok := true;
      ghost var start := Memory(State());
      var i := 0;
      assert rows[..0] == [];
      while i < |rows| && ok
        invariant 0 <= i <= |rows|
        invariant LoadRows(start, rows[..i]) == (Memory(State()), ok)
      {
        ghost var before := Memory(State());
        LoadRowsNext(start, rows, i);
        ok := LoadOne(rows[i]);
        i := i + 1;
      }
      LoadStaysStuck(start, rows, i);
    }

    method LoadOne(row: Obj) returns (ok: bool)
      modifies this`pending, this`hashIndex, this`nextId
      ensures (Memory(State()), ok) == LoadRow(old(Memory(State())), row)
    {
      var pb := BlockOf(row, nextId);
      nextId := nextId + 1;
      if pb.None? {
        return false;
      }
      if nextId < pb.value.id + 1 {
        nextId := pb.value.id + 1;
      }
      if pb.value.hit.hashStr != "" {
        hashIndex := hashIndex + {pb.value.hit.hashStr};
      }
      pending := pending + [pb.value];
      assert hashIndex + {} == hashIndex;
      ok := true;
    }

    method Load() returns (ok: bool)
      modifies this
      ensures ok <==> Bags.Load(old(disk), old(journal)).Some?
      ensures ok ==> State() == Bags.Load(old(disk), old(journal)).value
    {
      pending, hashIndex, nextId, dirtyOps := [], {}, 1, 0;
      var dbOk := false;
      match disk {
        case Missing =>
        case Unparsable =>
        case NoRows(n) => nextId := Wrap32(n);
        case Rows(n, rows) =>
          nextId := Wrap32(n);
          dbOk := LoadDb(rows);
      }
      ok := true;
      if !dbOk {
        ok := RecoverJsonl();
      }
    }
  }

  method CountMatching(pending: seq<PendingBlock>, m: int, defaultM: int) returns (n: nat)
    ensures n == |Matching(pending, m, defaultM)|
  {
    n := 0;
    for i := 0 to |pending|
      invariant n == |Matching(pending[..i], m, defaultM)|
    {
      KeepNext(pending, i, MatchesM(m, defaultM));
      if EffectiveM(pending[i].hit, defaultM, m) == m {
        n := n + 1;
      }
    }
    assert pending[..|pending|] == pending;
  }

  // ---------- Facts about the functions that the loops need ----------

  lemma KeepNothing(s: seq<PendingBlock>, p: PendingBlock -> bool)
    requires forall pb :: pb in s ==> !p(pb)
    ensures Keep(s, p) == [] && Keep(s, Not(p)) == s
  {
    KeepAll(s, Not(p));
    KeepNone(s, p);
  }

  lemma {:induction false} KeptCount(s: seq<PendingBlock>, p: PendingBlock -> bool)
    ensures |Keep(s, Not(p))| + |Keep(s, p)| == |s|
  {
    if s != [] {
      KeptCount(s[..|s| - 1], p);
    }
  }

  lemma ForgetDigest(index: set<string>, gone: seq<PendingBlock>, pb: PendingBlock)
    ensures index - Digests(gone + [pb])
         == if pb.hit.hashStr != "" then index - Digests(gone) - {pb.hit.hashStr} else index - Digests(gone)
  {
    DigestsAppend(gone, pb);
  }

  lemma ErasedNothing(b: Bag, goes: PendingBlock -> bool)
    requires |Without(b, goes).pending| == |b.pending|
    ensures Without(b, goes) == b
  {
    KeptCount(b.pending, goes);
    KeepMembers(b.pending, goes);
    forall pb | pb in b.pending ensures !goes(pb) {
      assert pb !in Keep(b.pending, goes);
    }
    KeepNothing(b.pending, goes);
    assert Digests(Keep(b.pending, goes)) == {};
  }

  lemma WithoutNone(b: Bag)
    ensures Without(b, IdIn([])) == b
  {
    KeepNothing(b.pending, IdIn([]));
    assert Digests([]) == {};
  }

  lemma WithoutTwice(b: Bag, ids: seq<int>, id: int)
    ensures Without(Without(b, IdIn(ids)), IdIn([id])) == Without(b, IdIn(ids + [id]))
  {
    var s := b.pending;
    KeepTwice(s, Not(IdIn(ids)), Not(IdIn([id])), Not(IdIn(ids + [id])));
    GoneTwice(s, ids, id);
  }

  lemma GoneTwice(s: seq<PendingBlock>, ids: seq<int>, id: int)
    ensures Digests(Keep(s, IdIn(ids + [id])))
         == Digests(Keep(s, IdIn(ids))) + Digests(Keep(Keep(s, Not(IdIn(ids))), IdIn([id])))
  {
    KeepMembers(s, IdIn(ids + [id]));
    KeepMembers(s, IdIn(ids));
    KeepMembers(s, Not(IdIn(ids)));
    KeepMembers(Keep(s, Not(IdIn(ids))), IdIn([id]));
  }

  lemma {:induction false} KeepPrefix(s: seq<PendingBlock>, i: nat, p: PendingBlock -> bool)
    requires i <= |s|
    ensures Keep(s[..i], p) <= Keep(s, p)
  {
    assert s == s[..i] + s[i..];
    KeepConcat(s[..i], s[i..], p);
  }

  lemma TakeSoFar(s: seq<PendingBlock>, i: nat, p: PendingBlock -> bool, cap: nat, taken: seq<PendingBlock>)
    requires i <= |s| && taken == Take(Keep(s[..i], p), cap)
    requires i == |s| || |taken| >= cap
    ensures taken == Take(Keep(s, p), cap)
  {
    if i == |s| {
      assert s[..i] == s;
    } else {
      KeepPrefix(s, i, p);
      TakeOfPrefix(Keep(s[..i], p), Keep(s, p), cap);
    }
  }

  lemma TakeOfPrefix(a: seq<PendingBlock>, b: seq<PendingBlock>, cap: nat)
    requires a <= b && |a| >= cap
    ensures Take(a, cap) == Take(b, cap)
  {
  }

  lemma TakeTaken(s: seq<PendingBlock>, cap: nat, n: nat)
    requires n <= cap
    ensures Take(Take(s, cap), n) == Take(s, n)
  {
  }

  lemma FilledFrom(
    first: seq<PendingBlock>, second: seq<PendingBlock>, cap: nat,
    preferred: seq<PendingBlock>, wrapped: seq<PendingBlock>)
    requires preferred == Take(first, cap)
    requires |preferred| < cap ==> wrapped == Take(second, cap)
    ensures Batch.Filled(first, second, cap)
         == if |preferred| < cap then preferred + Take(wrapped, cap - |preferred|) else preferred
  {
    if |preferred| < cap {
      TakeTaken(second, cap, cap - |preferred|);
    }
  }

  lemma {:induction false} RecoverStaysStuck(l: Listing, lines: seq<JournalLine>, i: nat)
    requires i <= |lines| && RecoverLines(l, lines[..i]).None?
    ensures RecoverLines(l, lines).None?
  {
    if i < |lines| {
      assert lines[..|lines| - 1][..i] == lines[..i];
      RecoverStaysStuck(l, lines[..|lines| - 1], i);
    } else {
      assert lines[..i] == lines;
    }
  }

  lemma LoadRowsNext(l: Listing, rows: seq<Obj>, i: nat)
    requires i < |rows| && LoadRows(l, rows[..i]).1
    ensures LoadRows(l, rows[..i + 1]) == LoadRow(LoadRows(l, rows[..i]).0, rows[i])
  {
    assert rows[..i + 1][..i] == rows[..i];
  }

  lemma {:induction false} LoadStaysStuck(l: Listing, rows: seq<Obj>, i: nat)
    requires i <= |rows| && (i == |rows| || !LoadRows(l, rows[..i]).1)
    ensures LoadRows(l, rows) == LoadRows(l, rows[..i])
  {
    if i < |rows| {
      assert rows[..|rows| - 1][..i] == rows[..i];
      if i < |rows| - 1 {
        LoadStaysStuck(l, rows[..|rows| - 1], i);
      }
    } else {
      assert rows[..i] == rows;
    }
  }
}
