/** Queue entries as JSON objects (src/queue/store.cpp, hit_to_json and hit_from_json).
    The text form of an object is not modelled. */
module Codec {
  import opened Blocks

  datatype Json = JStr(s: string) | JInt(n: int) | JReal(r: real) | JBool(b: bool) | JNull

  /** A JSON object: one optional member per field name that the store reads or writes. */
  datatype Obj = Obj(
    key: Option<Json>, hashStr: Option<Json>, blockType: Option<Json>, strategy: Option<Json>,
    attempts: Option<Json>, hps: Option<Json>, foundAt: Option<Json>, memoryCost: Option<Json>,
    payout: Option<Json>, salt: Option<Json>, fee: Option<Json>,
    id: Option<Json>, queueReason: Option<Json>, rejectCount: Option<Json>, forwarded: Option<Json>,
    queuedAt: Option<Json>, reason: Option<Json>)

  // Typed lookups with a default. None stands for the exception thrown on a type mismatch.

  function StrOr(j: Option<Json>, default: string): Option<string> {
    if j.None? then Some(default) else if j.value.JStr? then Some(j.value.s) else None
  }

  /** A lookup whose default is a 64-bit integer. */
  function Int64Or(j: Option<Json>, default: int): Option<int> {
    if j.None? then Some(default) else if j.value.JInt? then Some(j.value.n) else None
  }

  /** A lookup whose default is a plain int: the stored number is truncated to 32 bits. */
  function Int32Or(j: Option<Json>, default: int32): Option<int32> {
    if j.None? then Some(default) else if j.value.JInt? then Some(Wrap32(j.value.n)) else None
  }

  function RealOr(j: Option<Json>, default: real): Option<real> {
    if j.None? then Some(default)
    else if j.value.JReal? then Some(j.value.r)
    else if j.value.JInt? then Some(j.value.n as real)
    else None
  }

  function BoolOr(j: Option<Json>, default: bool): Option<bool> {
    if j.None? then Some(default) else if j.value.JBool? then Some(j.value.b) else None
  }

  function MemoryCostOf(j: Option<Json>): Option<Option<int32>> {
    if j.None? || j.value.JNull? then Some(None)
    else if j.value.JInt? then Some(Some(Wrap32(j.value.n)))
    else None
  }

  function HitToJson(hit: Hit): Obj {
    Obj(key := Some(JStr(hit.key)),
        hashStr := Some(JStr(hit.hashStr)),
        blockType := Some(JStr(hit.blockType)),
        strategy := Some(JStr(hit.strategy)),
        attempts := Some(JInt(hit.attempts)),
        hps := Some(JReal(hit.hps)),
        foundAt := Some(JStr(hit.foundAt)),
        memoryCost := if hit.memoryCost.Some? then Some(JInt(hit.memoryCost.value)) else None,
        payout := if hit.payoutAccount != "" then Some(JStr(hit.payoutAccount)) else None,
        salt := if hit.saltHex != "" then Some(JStr(hit.saltHex)) else None,
        fee := if hit.feeBlock then Some(JBool(true)) else None,
        id := None, queueReason := None, rejectCount := None, forwarded := None,
        queuedAt := None, reason := None)
  }

  function HitFromJson(o: Obj): Option<Hit> {
    var key, hashStr, blockType := StrOr(o.key, ""), StrOr(o.hashStr, ""), StrOr(o.blockType, "XNM");
    var strategy, attempts := StrOr(o.strategy, "random"), Int32Or(o.attempts, 0);
    var hps, foundAt, memoryCost := RealOr(o.hps, 0.0), StrOr(o.foundAt, ""), MemoryCostOf(o.memoryCost);
    var payout, salt, fee := StrOr(o.payout, ""), StrOr(o.salt, ""), BoolOr(o.fee, false);
    if key.Some? && hashStr.Some? && blockType.Some? && strategy.Some? && attempts.Some? && hps.Some?
       && foundAt.Some? && memoryCost.Some? && payout.Some? && salt.Some? && fee.Some?
    then
      Some(Hit(key.value, hashStr.value, blockType.value, attempts.value, strategy.value, hps.value,
               foundAt.value, memoryCost.value, payout.value, salt.value, fee.value))
    else
      None
  }

  /** What a hit becomes on its way through the disk. */
  function Reloaded(hit: Hit): Hit {
    hit.(attempts := Wrap32(hit.attempts))
  }

  lemma HitRoundTrip(hit: Hit)
    ensures HitFromJson(HitToJson(hit)) == Some(Reloaded(hit))
    ensures HitFromJson(HitToJson(hit)) == Some(hit) <==> -0x8000_0000 <= hit.attempts < 0x8000_0000
  {
  }

  /** One row of the saved database. */
  function RowOf(pb: PendingBlock): Obj {
    HitToJson(pb.hit).(
      id := Some(JInt(pb.id)), queueReason := Some(JStr(pb.queueReason)),
      rejectCount := Some(JInt(pb.rejectCount)), forwarded := Some(JBool(pb.forwarded)))
  }

  /** One row read back; a row without an id takes the next one. None when a field has the wrong type. */
  function BlockOf(row: Obj, nextId: int): Option<PendingBlock> {
    var id, hit := Int64Or(row.id, nextId), HitFromJson(row);
    var oldReason := StrOr(row.reason, "");
    var reason := if oldReason.Some? then StrOr(row.queueReason, oldReason.value) else None;
    var rejects, forwarded := Int32Or(row.rejectCount, 0), BoolOr(row.forwarded, false);
    if id.Some? && hit.Some? && reason.Some? && rejects.Some? && forwarded.Some?
    then Some(PendingBlock(id.value, hit.value, reason.value, rejects.value, forwarded.value))
    else None
  }

  function ReloadedBlock(pb: PendingBlock): PendingBlock {
    pb.(hit := Reloaded(pb.hit))
  }

  lemma RowRoundTrip(pb: PendingBlock, nextId: int)
    ensures BlockOf(RowOf(pb), nextId) == Some(ReloadedBlock(pb))
  {
    HitRoundTrip(pb.hit);
    assert HitFromJson(RowOf(pb)) == HitFromJson(HitToJson(pb.hit));
  }

  /** One line appended to the journal. */
  function JournalRecord(pb: PendingBlock, queuedAt: string): Obj {
    HitToJson(pb.hit).(
      queuedAt := Some(JStr(queuedAt)), reason := Some(JStr(pb.queueReason)), id := Some(JInt(pb.id)))
  }

  lemma JournalRoundTrip(pb: PendingBlock, queuedAt: string)
    ensures HitFromJson(JournalRecord(pb, queuedAt)) == Some(Reloaded(pb.hit))
  {
    HitRoundTrip(pb.hit);
    assert HitFromJson(JournalRecord(pb, queuedAt)) == HitFromJson(HitToJson(pb.hit));
  }

  const NO_MEMBERS := Obj(None, None, None, None, None, None, None, None, None, None, None, None, None, None, None,
                          None, None)

  /** What missing members stand for: a plain block of strategy "random"; a row takes its reason from an older member
      if that is there. */
  lemma Defaults(nextId: int, reason: string)
    ensures var bare := Hit("", "", "XNM", 0, "random", 0.0, "", None, "", "", false);
      && HitFromJson(NO_MEMBERS) == Some(bare)
      && BlockOf(NO_MEMBERS, nextId) == Some(PendingBlock(nextId, bare, "", 0, false))
      && BlockOf(NO_MEMBERS.(reason := Some(JStr(reason))), nextId)
         == Some(PendingBlock(nextId, bare, reason, 0, false))
  {
  }

  /** A block says which cost it was mined at; a null says none. */
  lemma CostMember(m: int)
    ensures MemoryCostOf(None) == MemoryCostOf(Some(JNull)) == Some(None)
    ensures -0x8000_0000 <= m < 0x8000_0000 ==> MemoryCostOf(Some(JInt(m))) == Some(Some(m))
    ensures MemoryCostOf(Some(JStr(""))) == None
  {
  }
}
