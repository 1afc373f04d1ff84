/** When a queued block may be sent, and in which order (src/queue/policy.cpp). */
module Policy {
  import opened Text

  const OUTSIDE_XUNI_WINDOW := "outside_xuni_window"
  const SHUTDOWN_PENDING := "shutdown_pending"
  const MATCH_WINDOW_NEW := "match_window_new"
  const DIFFICULTY_CHANGE := "difficulty_change"
  const NETWORK_DOWN := "network_down"
  const RESUBMISSION := "resubmission"
  const BAG_ONLY := "bag_only"

  /** Minutes :55 to :04, when queued XUNI may be submitted. */
  predicate InXuniSubmitWindow(minute: int) {
    minute >= 55 || minute < 5
  }

  predicate ReadyToFlush(blockType: string, minute: int) {
    Upper(blockType) != "XUNI" || InXuniSubmitWindow(minute)
  }

  /** Lower is sent sooner: XNM, then XBLK, then XUNI, then the rest. */
  function FlushPriority(blockType: string): int {
    var kind := Upper(blockType);
    if kind == "XNM" || kind == "XEN11" || kind == "NORMAL" then 0
    else if kind == "XBLK" then 1
    else if kind == "XUNI" then 2
    else 3
  }

  /** Which kind goes first, whatever the case of its name. */
  lemma KindsInOrder(a: string, b: string)
    requires Upper(a) in {"XNM", "XEN11", "NORMAL"}
    ensures FlushPriority(a) < FlushPriority("XBLK") < FlushPriority("XUNI")
    ensures FlushPriority("XUNI") <= FlushPriority(b) <==> Upper(b) !in {"XNM", "XEN11", "NORMAL", "XBLK"}
    ensures FlushPriority(a) == FlushPriority(b) <==> Upper(b) in {"XNM", "XEN11", "NORMAL"}
    ensures FlushPriority(b) == FlushPriority("XUNI") <==> Upper(b) == "XUNI"
  {
    assert Upper("XBLK") == "XBLK" && Upper("XUNI") == "XUNI";
    assert "XBLK"[1] != "XUNI"[1] && "XNM"[0] == 'X' && "NORMAL"[0] == 'N';
    assert |"XNM"| == 3 && |"XEN11"| == 5 && |"NORMAL"| == 6;
  }
}
