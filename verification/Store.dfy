/** The bag as values: what each `BlockStore` operation does to the pending list, the
    digest index and the two files, and what holds over whole runs with crashes. */
module Store {
  import opened Hits
  import opened BagJson
  import opened Policy

  const SAVE_EVERY: nat := 8

  /** One line of the append-only queue log. */
  datatype LogEntry = LogEntry(block: PendingBlock, queuedAt: string)

  /** The snapshot file: never written, cut short by a crash while being rewritten (a
      proper prefix of an object is not JSON), or whole. */
  datatype Snapshot = Missing | Torn | Written(nextId: int, pending: seq<PendingBlock>)

  datatype StoreState = StoreState(
    pending: seq<PendingBlock>, index: set<string>, nextId: int, dirty: nat,
    snapshot: Snapshot, log: seq<LogEntry>)

  const EMPTY := StoreState([], {}, 1, 0, Missing, [])

  function Digests(ps: seq<PendingBlock>): set<string> {
    set p | p in ps && p.hit.hashStr != "" :: p.hit.hashStr
  }

  function LogDigests(log: seq<LogEntry>): set<string> {
    set e | e in log && e.block.hit.hashStr != "" :: e.block.hit.hashStr
  }

  // ---- the files as JSON -----------------------------------------------------------------

  function ItemToJson(p: PendingBlock): Json {
    JObj(HitMembers(p.hit)
         + map[NId := JInt(p.id), NQueueReason := JStr(p.queueReason),
               NRejectCount := JInt(p.rejectCount), NForwarded := JBool(p.forwarded)])
  }

  function SnapshotToJson(nextId: int, pending: seq<PendingBlock>): Json {
    JObj(map[NNextId := JInt(nextId),
             NPending := JArr(seq(|pending|, i requires 0 <= i < |pending| => ItemToJson(pending[i])))])
  }

  function LogToJson(e: LogEntry): Json {
    JObj(HitMembers(e.block.hit)
         + map[NQueuedAt := JStr(e.queuedAt), NReason := JStr(e.block.queueReason), NId := JInt(e.block.id)])
  }

  // ---- load ------------------------------------------------------------------------------

  datatype Loading = Loading(pending: seq<PendingBlock>, index: set<string>, nextId: int)

  function AddLoaded(l: Loading, p: PendingBlock): Loading {
    Loading(l.pending + [p], if p.hit.hashStr == "" then l.index else l.index + {p.hit.hashStr},
            Max(l.nextId, p.id + 1))
  }

  function ItemFromJson(item: Json, defaultId: int): Read<PendingBlock> {
    var id :- Int64At(item, NId, defaultId);
    var hit :- HitFromJson(item);
    var reason :- StrAt(item, NReason, "");
    var queueReason :- StrAt(item, NQueueReason, reason);
    var rejectCount :- IntAt(item, NRejectCount, 0);
    var forwarded :- BoolAt(item, NForwarded, false);
    Ok(PendingBlock(id, hit, queueReason, rejectCount, forwarded))
  }

  /** The snapshot's items in order; the default id is taken (and used up) for every
      item. An item that throws ends the loop, keeping what was read. */
  function LoadItems(l: Loading, items: seq<Json>): Loading
    decreases |items|
  {
    if items == [] then l
    else
      var p := ItemFromJson(items[0], l.nextId);
      var counted := l.(nextId := l.nextId + 1);
      if p.Threw? then counted else LoadItems(AddLoaded(counted, p.value), items[1..])
  }

  function LoadRoot(root: Json): Loading {
    var nextId := IntAt(root, NNextId, 1);
    if nextId.Threw? then Loading([], {}, 1)
    else
      LoadItems(Loading([], {}, nextId.value), if HasArray(root, NPending) then root.members[NPending].items else [])
  }

  predicate UsesId(ps: seq<PendingBlock>, id: int) {
    exists i :: 0 <= i < |ps| && ps[i].id == id
  }

  /** A log record: skipped if it is no object, has no digest or one already present;
      its id is replaced when it is below 1 or taken. */
  function RecoverRecord(l: Loading, rec: Json): Read<Loading> {
    if !rec.JObj? then Ok(l)
    else
      var hit :- HitFromJson(rec);
      if hit.hashStr == "" || hit.hashStr in l.index then Ok(l)
      else
        var id :- Int64At(rec, NId, l.nextId);
        var reason :- StrAt(rec, NReason, "jsonl_recover");
        var queueReason :- StrAt(rec, NQueueReason, reason);
        var rejectCount :- IntAt(rec, NRejectCount, 0);
        var free := if id < 1 || UsesId(l.pending, id) then l.nextId else id;
        Ok(AddLoaded(l, PendingBlock(free, hit, queueReason, rejectCount, false)))
  }

  function RecoverLog(l: Loading, log: seq<Json>): Read<Loading>
    decreases |log|
  {
    if log == [] then Ok(l)
    else
      var next :- RecoverRecord(l, log[0]);
      RecoverLog(next, log[1..])
  }

  function Base(s: Snapshot): Loading {
    if s.Written? then LoadRoot(SnapshotToJson(s.nextId, s.pending)) else Loading([], {}, 1)
  }

  function LogJson(log: seq<LogEntry>): seq<Json> {
    seq(|log|, i requires 0 <= i < |log| => LogToJson(log[i]))
  }

  /** What a new process makes of the files; a recovery that added anything is saved. */
  function Load(s: StoreState): Read<StoreState> {
    var base := Base(s.snapshot);
    var l :- RecoverLog(base, LogJson(s.log));
    var loaded := StoreState(l.pending, l.index, l.nextId, 0, s.snapshot, s.log);
    Ok(if |l.pending| > |base.pending| then Save(loaded) else loaded)
  }

  // ---- the operations ----------------------------------------------------------------------

  function Save(s: StoreState): StoreState {
    s.(snapshot := Written(s.nextId, s.pending), dirty := 0)
  }

  function MaybeSave(s: StoreState): StoreState {
    if s.dirty >= SAVE_EVERY then Save(s) else s
  }

  function Flush(s: StoreState): StoreState {
    if s.dirty > 0 then Save(s) else s
  }

  /** Returns 0 and changes nothing when the digest is already bagged. */
  function Enqueue(s: StoreState, hit: BlockHit, reason: string, at: string): (StoreState, int) {
    if hit.hashStr != "" && hit.hashStr in s.index then (s, 0)
    else
      var p := PendingBlock(s.nextId, hit, reason, 0, false);
      var added := s.(pending := s.pending + [p], nextId := s.nextId + 1,
                      index := if hit.hashStr == "" then s.index else s.index + {hit.hashStr},
                      log := s.log + [LogEntry(p, at)], dirty := s.dirty + 1);
      (MaybeSave(added), p.id)
  }

  function Without(ps: seq<PendingBlock>, ids: set<int>): seq<PendingBlock> {
    if ps == [] then []
    else
      var front, last := Without(ps[..|ps| - 1], ids), ps[|ps| - 1];
      if last.id in ids then front else front + [last]
  }

  function IdSet(ids: seq<int>): set<int> { set i | i in ids }

  function MarkSubmitted(s: StoreState, ids: seq<int>): StoreState {
    if ids == [] then s
    else
      var kept := Without(s.pending, IdSet(ids));
      Save(s.(pending := kept, index := Digests(kept)))
  }

  function Forwarded(ps: seq<PendingBlock>, ids: set<int>): seq<PendingBlock> {
    seq(|ps|, i requires 0 <= i < |ps| => if ps[i].id in ids then ps[i].(forwarded := true) else ps[i])
  }

  function MarkForwarded(s: StoreState, ids: seq<int>): StoreState {
    if ids == [] then s else Save(s.(pending := Forwarded(s.pending, IdSet(ids))))
  }

  function WithReason(ps: seq<PendingBlock>, id: int, reason: string): seq<PendingBlock> {
    seq(|ps|, i requires 0 <= i < |ps| => if ps[i].id == id then ps[i].(queueReason := reason) else ps[i])
  }

  function MarkReason(s: StoreState, id: int, reason: string): StoreState {
    MaybeSave(s.(pending := WithReason(s.pending, id, reason), dirty := s.dirty + 1))
  }

  function DeferReason(p: PendingBlock, minute: int): string {
    if p.hit.blockType == "XUNI" && !InXuniSubmitWindow(minute) then OUTSIDE_XUNI_WINDOW else SHUTDOWN_PENDING
  }

  function Deferred(ps: seq<PendingBlock>, minute: int): seq<PendingBlock> {
    seq(|ps|, i requires 0 <= i < |ps| => ps[i].(queueReason := DeferReason(ps[i], minute)))
  }

  function DeferAll(s: StoreState, minute: int): StoreState {
    Save(s.(pending := Deferred(s.pending, minute)))
  }

  lemma BareItem(hit: BlockHit, id: int)
    ensures ItemFromJson(HitToJson(hit), id) == Ok(PendingBlock(id, Reread(hit), "", 0, false))
  {
    hide HitMembers, HitFromJson;
    HitWithExtras(hit, map[]);
    assert HitMembers(hit) + map[] == HitMembers(hit);
  }

  lemma ReasonItem(hit: BlockHit, id: int, reason: string)
    ensures ItemFromJson(JObj(HitMembers(hit) + map[NReason := JStr(reason)]), id)
            == Ok(PendingBlock(id, Reread(hit), reason, 0, false))
  {
    hide HitMembers, HitFromJson;
    var extra := map[NReason := JStr(reason)];
    HitWithExtras(hit, extra);
  }

  /** What a snapshot item holds beside its hit when members are missing, as in files of
      older versions, and what a file without them holds. */
  lemma ItemDefaults(hit: BlockHit, id: int, reason: string)
    ensures ItemFromJson(HitToJson(hit), id) == Ok(PendingBlock(id, Reread(hit), "", 0, false))
    ensures ItemFromJson(JObj(HitMembers(hit) + map[NReason := JStr(reason)]), id)
            == Ok(PendingBlock(id, Reread(hit), reason, 0, false))
    ensures LoadRoot(JObj(map[])) == LoadRoot(JNull) == Loading([], {}, 1)
  {
    BareItem(hit, id);
    ReasonItem(hit, id, reason);
    hide ItemFromJson, HitMembers;
  }

  /** At shutdown every block is marked with why it waits: XUNI outside the five minutes
      around the full hour for its window, everything else for the next start. */
  lemma DeferredExactly(s: StoreState, minute: int, i: nat)
    requires 0 <= minute < 60 && i < |s.pending|
    ensures var t, p := DeferAll(s, minute), s.pending[i];
            && |t.pending| == |s.pending| && t.nextId == s.nextId && t.log == s.log && t.index == s.index
            && t.pending[i] == p.(queueReason := if p.hit.blockType == "XUNI" && (minute + 5) % 60 >= 10
                                                 then "outside_xuni_window" else "shutdown_pending")
  {
  }

  // ---- the representation invariant ----------------------------------------------------------

  ghost predicate DistinctIds(ps: seq<PendingBlock>) {
    forall i, j :: 0 <= i < j < |ps| ==> ps[i].id != ps[j].id
  }

  ghost predicate DistinctDigests(ps: seq<PendingBlock>) {
    forall i, j :: 0 <= i < j < |ps| && ps[i].hit.hashStr != "" ==> ps[i].hit.hashStr != ps[j].hit.hashStr
  }

  ghost predicate Well(ps: seq<PendingBlock>, index: set<string>, nextId: int) {
    && DistinctIds(ps)
    && (forall i :: 0 <= i < |ps| ==> ps[i].id < nextId)
    && DistinctDigests(ps)
    && index == Digests(ps)
  }

  /** Ids are distinct and below nextId, digests distinct, the index exactly their set;
      and the same is true of what the snapshot holds, all of it also in the log. */
  ghost predicate Inv(s: StoreState) {
    && Well(s.pending, s.index, s.nextId)
    && s.index <= LogDigests(s.log)
    && (s.snapshot.Written? ==>
          && DistinctIds(s.snapshot.pending) && DistinctDigests(s.snapshot.pending)
          && Digests(s.snapshot.pending) <= LogDigests(s.log))
  }

  lemma DigestsAppend(ps: seq<PendingBlock>, p: PendingBlock)
    ensures Digests(ps + [p]) == Digests(ps) + if p.hit.hashStr == "" then {} else {p.hit.hashStr}
  {
    var all := Digests(ps + [p]);
    assert p in ps + [p];
    forall d | d in Digests(ps)
      ensures d in all
    {
      var q :| q in ps && q.hit.hashStr != "" && q.hit.hashStr == d;
      assert q in ps + [p];
    }
  }

  lemma LogDigestsAppend(log: seq<LogEntry>, e: LogEntry)
    ensures LogDigests(log + [e]) ==
            LogDigests(log) + if e.block.hit.hashStr == "" then {} else {e.block.hit.hashStr}
  {
    assert e in log + [e];
    forall d | d in LogDigests(log)
      ensures d in LogDigests(log + [e])
    {
      var q :| q in log && q.block.hit.hashStr != "" && q.block.hit.hashStr == d;
      assert q in log + [e];
    }
  }

  /** Adding a block with a fresh id and a digest not yet present. */
  lemma WellAppend(l: Loading, p: PendingBlock)
    requires Well(l.pending, l.index, l.nextId)
    requires p.id >= l.nextId || !UsesId(l.pending, p.id)
    requires p.hit.hashStr == "" || p.hit.hashStr !in l.index
    ensures var m := AddLoaded(l, p);
            Well(m.pending, m.index, m.nextId)
  {
    DigestsAppend(l.pending, p);
    forall i | 0 <= i < |l.pending|
      ensures l.pending[i].id != p.id
      ensures p.hit.hashStr != "" ==> l.pending[i].hit.hashStr != p.hit.hashStr
    {
      assert l.pending[i] in l.pending;
    }
  }

  // ---- reading back what the store wrote -------------------------------------------------------

  function RereadBlock(p: PendingBlock): PendingBlock {
    p.(hit := Reread(p.hit))
  }

  function RereadAll(ps: seq<PendingBlock>): seq<PendingBlock> {
    seq(|ps|, i requires 0 <= i < |ps| => RereadBlock(ps[i]))
  }

  lemma {:induction false} ItemRoundTrip(p: PendingBlock, defaultId: int)
    ensures ItemFromJson(ItemToJson(p), defaultId) == Ok(RereadBlock(p))
  {
    var extra := map[NId := JInt(p.id), NQueueReason := JStr(p.queueReason),
                     NRejectCount := JInt(p.rejectCount), NForwarded := JBool(p.forwarded)];
    hide HitMembers, HitFromJson;
    HitWithExtras(p.hit, extra);
  }

  function ItemsJson(ps: seq<PendingBlock>): seq<Json> {
    seq(|ps|, i requires 0 <= i < |ps| => ItemToJson(ps[i]))
  }

  lemma RereadCons(front: seq<PendingBlock>, ps: seq<PendingBlock>)
    requires ps != []
    ensures (front + [RereadBlock(ps[0])]) + RereadAll(ps[1..]) == front + RereadAll(ps)
  {
    hide RereadBlock;
    assert [RereadBlock(ps[0])] + RereadAll(ps[1..]) == RereadAll(ps);
  }

  lemma {:induction false} LoadItemsReads(l: Loading, ps: seq<PendingBlock>)
    ensures LoadItems(l, ItemsJson(ps)).pending == l.pending + RereadAll(ps)
    decreases |ps|
  {
    hide ItemFromJson, ItemToJson, RereadBlock;
    if ps == [] {
      assert l.pending + RereadAll(ps) == l.pending;
    } else {
      ItemRoundTrip(ps[0], l.nextId);
      assert ItemsJson(ps)[1..] == ItemsJson(ps[1..]);
      LoadItemsReads(AddLoaded(l.(nextId := l.nextId + 1), RereadBlock(ps[0])), ps[1..]);
      RereadCons(l.pending, ps);
    }
  }

  lemma LoadItemWell(l: Loading, ps: seq<PendingBlock>)
    requires ps != [] && Well(l.pending, l.index, l.nextId)
    requires DistinctIds(l.pending + ps) && DistinctDigests(l.pending + ps)
    ensures var m := AddLoaded(l.(nextId := l.nextId + 1), RereadBlock(ps[0]));
            && Well(m.pending, m.index, m.nextId)
            && DistinctIds(m.pending + ps[1..]) && DistinctDigests(m.pending + ps[1..])
            && m.index + Digests(ps[1..]) == l.index + Digests(ps)
  {
    FreshInFront(l.pending, ps);
    WellAppend(l.(nextId := l.nextId + 1), RereadBlock(ps[0]));
    RereadKeepsDistinct(l.pending, ps);
    assert ps == [ps[0]] + ps[1..];
    DigestsSplit(ps[0], ps[1..]);
  }

  lemma {:induction false} LoadItemsWell(l: Loading, ps: seq<PendingBlock>)
    requires Well(l.pending, l.index, l.nextId)
    requires DistinctIds(l.pending + ps) && DistinctDigests(l.pending + ps)
    ensures var m := LoadItems(l, ItemsJson(ps));
            Well(m.pending, m.index, m.nextId) && m.index == l.index + Digests(ps)
    decreases |ps|
  {
    hide ItemFromJson, ItemToJson, RereadBlock, Well, DistinctIds, DistinctDigests, AddLoaded;
    if ps != [] {
      ItemRoundTrip(ps[0], l.nextId);
      assert ItemsJson(ps)[1..] == ItemsJson(ps[1..]);
      LoadItemWell(l, ps);
      LoadItemsWell(AddLoaded(l.(nextId := l.nextId + 1), RereadBlock(ps[0])), ps[1..]);
    }
  }

  lemma DigestsSplit(p: PendingBlock, ps: seq<PendingBlock>)
    ensures Digests([p] + ps) == (if p.hit.hashStr == "" then {} else {p.hit.hashStr}) + Digests(ps)
  {
    assert p in [p] + ps;
    forall d | d in Digests(ps)
      ensures d in Digests([p] + ps)
    {
      var q :| q in ps && q.hit.hashStr != "" && q.hit.hashStr == d;
      assert q in [p] + ps;
    }
  }

  lemma FreshInFront(front: seq<PendingBlock>, ps: seq<PendingBlock>)
    requires ps != [] && DistinctIds(front + ps) && DistinctDigests(front + ps)
    ensures !UsesId(front, ps[0].id)
    ensures ps[0].hit.hashStr == "" || ps[0].hit.hashStr !in Digests(front)
  {
    var all := front + ps;
    assert all[|front|] == ps[0];
    assert forall i :: 0 <= i < |front| ==> all[i] == front[i];
  }

  lemma RereadKeepsDistinct(front: seq<PendingBlock>, ps: seq<PendingBlock>)
    requires ps != [] && DistinctIds(front + ps) && DistinctDigests(front + ps)
    ensures DistinctIds(front + [RereadBlock(ps[0])] + ps[1..])
    ensures DistinctDigests(front + [RereadBlock(ps[0])] + ps[1..])
  {
    var all, again := front + ps, front + [RereadBlock(ps[0])] + ps[1..];
    assert forall i :: 0 <= i < |all| ==>
        again[i].id == all[i].id && again[i].hit.hashStr == all[i].hit.hashStr;
  }

  /** A log line the store wrote, recovered. */
  function RecoverEntry(l: Loading, e: LogEntry): Loading {
    var p := e.block;
    if p.hit.hashStr == "" || p.hit.hashStr in l.index then l
    else
      var free := if p.id < 1 || UsesId(l.pending, p.id) then l.nextId else p.id;
      AddLoaded(l, PendingBlock(free, Reread(p.hit), p.queueReason, 0, false))
  }

  function RecoverEntries(l: Loading, log: seq<LogEntry>): Loading
    decreases |log|
  {
    if log == [] then l else RecoverEntries(RecoverEntry(l, log[0]), log[1..])
  }

  lemma {:induction false} EntryReads(l: Loading, e: LogEntry)
    ensures RecoverRecord(l, LogToJson(e)) == Ok(RecoverEntry(l, e))
  {
    var extra := map[NQueuedAt := JStr(e.queuedAt), NReason := JStr(e.block.queueReason), NId := JInt(e.block.id)];
    hide HitMembers, HitFromJson;
    HitWithExtras(e.block.hit, extra);
  }

  lemma {:induction false} LogReads(l: Loading, log: seq<LogEntry>)
    ensures RecoverLog(l, LogJson(log)) == Ok(RecoverEntries(l, log))
    decreases |log|
  {
    if log != [] {
      hide RecoverRecord, RecoverEntry, LogToJson;
      EntryReads(l, log[0]);
      assert LogJson(log)[1..] == LogJson(log[1..]);
      LogReads(RecoverEntry(l, log[0]), log[1..]);
    }
  }

  lemma RecoverEntryWell(l: Loading, e: LogEntry)
    requires Well(l.pending, l.index, l.nextId)
    ensures var m := RecoverEntry(l, e);
            && Well(m.pending, m.index, m.nextId)
            && l.pending <= m.pending
            && (forall i :: |l.pending| <= i < |m.pending| ==> m.pending[i].hit.hashStr != "")
            && m.index == l.index + (if e.block.hit.hashStr == "" then {} else {e.block.hit.hashStr})
  {
    hide Well, ToInt32;
    if e.block.hit.hashStr != "" && e.block.hit.hashStr !in l.index {
      var free := if e.block.id < 1 || UsesId(l.pending, e.block.id) then l.nextId else e.block.id;
      WellAppend(l, PendingBlock(free, Reread(e.block.hit), e.block.queueReason, 0, false));
    }
  }

  /** Recovery keeps the invariant, only appends, and ends with every digest in the log
      present. */
  lemma {:induction false} RecoverWell(l: Loading, log: seq<LogEntry>)
    requires Well(l.pending, l.index, l.nextId)
    ensures var m := RecoverEntries(l, log);
            && Well(m.pending, m.index, m.nextId)
            && l.pending <= m.pending
            && (forall i :: |l.pending| <= i < |m.pending| ==> m.pending[i].hit.hashStr != "")
            && m.index == l.index + LogDigests(log)
    decreases |log|
  {
    hide Well, RecoverEntry;
    if log != [] {
      RecoverEntryWell(l, log[0]);
      RecoverWell(RecoverEntry(l, log[0]), log[1..]);
      assert log == [log[0]] + log[1..];
      LogDigestsSplit(log[0], log[1..]);
    }
  }

  lemma LogDigestsSplit(e: LogEntry, log: seq<LogEntry>)
    ensures LogDigests([e] + log)
            == (if e.block.hit.hashStr == "" then {} else {e.block.hit.hashStr}) + LogDigests(log)
  {
    assert e in [e] + log;
    forall d | d in LogDigests(log)
      ensures d in LogDigests([e] + log)
    {
      var q :| q in log && q.block.hit.hashStr != "" && q.block.hit.hashStr == d;
      assert q in [e] + log;
    }
  }

  lemma BaseOfWritten(nextId: int, ps: seq<PendingBlock>)
    ensures LoadRoot(SnapshotToJson(nextId, ps)) == LoadItems(Loading([], {}, ToInt32(nextId)), ItemsJson(ps))
  {
    hide ItemToJson, LoadItems;
    var items := SnapshotToJson(nextId, ps).members[NPending].items;
    assert items == ItemsJson(ps);
  }

  lemma WellEmpty(nextId: int)
    ensures Well([], {}, nextId)
  {
  }

  lemma {:induction false} BaseWell(s: StoreState)
    requires Inv(s)
    ensures var b := Base(s.snapshot);
            && Well(b.pending, b.index, b.nextId)
            && b.index == (if s.snapshot.Written? then Digests(s.snapshot.pending) else {})
            && b.pending == (if s.snapshot.Written? then RereadAll(s.snapshot.pending) else [])
  {
    hide ItemToJson, RereadBlock, RereadAll, LoadItems, LoadRoot, Well, Digests, ToInt32;
    WellEmpty(1);
    if s.snapshot.Written? {
      var ps := s.snapshot.pending;
      var l := Loading([], {}, ToInt32(s.snapshot.nextId));
      WellEmpty(l.nextId);
      assert [] + ps == ps && [] + RereadAll(ps) == RereadAll(ps);
      BaseOfWritten(s.snapshot.nextId, ps);
      LoadItemsReads(l, ps);
      LoadItemsWell(l, ps);
    }
  }

  lemma RereadDigests(ps: seq<PendingBlock>)
    ensures Digests(RereadAll(ps)) == Digests(ps)
    ensures DistinctIds(ps) ==> DistinctIds(RereadAll(ps))
    ensures DistinctDigests(ps) ==> DistinctDigests(RereadAll(ps))
  {
    var again := RereadAll(ps);
    assert forall i :: 0 <= i < |ps| ==> again[i].hit.hashStr == ps[i].hit.hashStr;
    forall d | d in Digests(ps)
      ensures d in Digests(again)
    {
      var i :| 0 <= i < |ps| && ps[i].hit.hashStr == d;
      assert again[i] in again;
    }
    forall d | d in Digests(again)
      ensures d in Digests(ps)
    {
      var i :| 0 <= i < |ps| && again[i].hit.hashStr == d;
      assert ps[i] in ps;
    }
  }

  lemma TailDigests(ps: seq<PendingBlock>, n: nat)
    requires n <= |ps| && DistinctDigests(ps)
    requires forall i :: n <= i < |ps| ==> ps[i].hit.hashStr != ""
    ensures Digests(ps[n..]) == Digests(ps) - Digests(ps[..n])
  {
    forall k | 0 <= k < n && ps[k].hit.hashStr != ""
      ensures ps[k].hit.hashStr in Digests(ps[..n])
    {
      assert ps[..n][k] == ps[k];
    }
    forall d | d in Digests(ps) - Digests(ps[..n])
      ensures d in Digests(ps[n..])
    {
      var i :| 0 <= i < |ps| && ps[i].hit.hashStr == d;
      assert ps[i] == ps[n..][i - n];
    }
    forall d | d in Digests(ps[n..])
      ensures d in Digests(ps) && d !in Digests(ps[..n])
    {
      var i :| 0 <= i < |ps| - n && ps[n..][i].hit.hashStr == d && d != "";
      assert ps[n..][i] == ps[n + i];
    }
  }

  /** Loading never fails on files the store wrote. It reproduces the last snapshot as a
      prefix of the pending list, up to attempts wrapping to an `int`; what follows has
      digests from the log that the snapshot lacked; and afterwards the digests present
      are exactly those ever logged. */
  lemma LoadRestores(s: StoreState)
    requires Inv(s)
    ensures Load(s).Ok?
    ensures var t := Load(s).value;
            && Inv(t) && t.log == s.log
            && t.index == LogDigests(s.log) == Digests(t.pending)
            && (s.snapshot.Written? ==>
                  var n := |s.snapshot.pending|;
                  && n <= |t.pending|
                  && t.pending[..n] == RereadAll(s.snapshot.pending)
                  && Digests(t.pending[n..]) == LogDigests(s.log) - Digests(s.snapshot.pending))
  {
    hide Base, RecoverLog, RecoverEntries, LogJson, RereadBlock, Digests, LogDigests;
    var base := Base(s.snapshot);
    BaseWell(s);
    LogReads(base, s.log);
    RecoverWell(base, s.log);
    var m := RecoverEntries(base, s.log);
    if s.snapshot.Written? {
      RereadDigests(s.snapshot.pending);
      TailDigests(m.pending, |s.snapshot.pending|);
    }
  }
}
