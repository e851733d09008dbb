/** When a block type may be submitted and in what order, as functions of the local
    minute of the hour. */
module Policy {
  import opened Hits

  const DIFFICULTY_CHANGE := "difficulty_change"
  const OUTSIDE_XUNI_WINDOW := "outside_xuni_window"
  const SHUTDOWN_PENDING := "shutdown_pending"
  const MATCH_WINDOW_NEW := "match_window_new"
  const NETWORK_DOWN := "network_down"

  predicate InXuniSubmitWindow(minute: int) { minute >= 55 || minute < 5 }

  predicate ReadyToFlush(blockType: string, minute: int) {
    ToUpper(blockType) != "XUNI" || InXuniSubmitWindow(minute)
  }

  /** Lower flushes sooner. */
  function FlushPriority(blockType: string): nat {
    var kind := ToUpper(blockType);
    if kind == "XBLK" then 0
    else if kind == "XNM" || kind == "XEN11" || kind == "NORMAL" then 1
    else if kind == "XUNI" then 2
    else 3
  }
}
