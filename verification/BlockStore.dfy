/** The bag as the source keeps it: a vector, a digest index, two counters and two files,
    all updated in place. Every method is tied to its function on values. */
module BlockStores {
  import opened Hits
  import opened BagJson
  import opened Policy
  import opened Store
  import opened BagRuns
  import opened FlushBatch

  class BlockStore {
    var pending: seq<PendingBlock>
    var hashIndex: set<string>
    var nextId: int
    var dirtyOps: nat
    var snapshot: Snapshot
    var queueLog: seq<LogEntry>

    ghost function State(): StoreState
      reads this
    {
      StoreState(pending, hashIndex, nextId, dirtyOps, snapshot, queueLog)
    }

    ghost predicate Valid()
      reads this
    {
      Inv(State())
    }

    /** A process start on the given files, before they are loaded. */
    constructor (snapshot: Snapshot, queueLog: seq<LogEntry>)
      ensures State() == StoreState([], {}, 1, 0, snapshot, queueLog)
    {
      pending, hashIndex, nextId, dirtyOps := [], {}, 1, 0;
      this.snapshot, this.queueLog := snapshot, queueLog;
    }

    ghost function Loaded(): Loading
      reads this
    {
      Loading(pending, hashIndex, nextId)
    }

    // ---- load --------------------------------------------------------------------------

    /** ok is false when an exception escapes. Files the store wrote always load. */
    method LoadFiles() returns (ok: bool)
      modifies this
      ensures ok == Load(old(State())).Ok?
      ensures ok ==> State() == Load(old(State())).value
      ensures old(Valid()) ==> ok && Valid()
      ensures ok ==> dirtyOps == 0 && queueLog == old(queueLog)
      ensures ok ==> snapshot == (if |pending| > |Base(old(snapshot)).pending| then Written(nextId, pending)
                                  else old(snapshot))
    {
      ghost var before := State();
      pending, hashIndex, nextId, dirtyOps := [], {}, 1, 0;
      if snapshot.Written? {
        ReadSnapshot(SnapshotToJson(snapshot.nextId, snapshot.pending));
      }
      assert Loaded() == Base(snapshot);
      ok := RecoverJsonl();
      if Inv(before) {
        LoadRestores(before);
      }
    }

    method ReadSnapshot(root: Json)
      requires pending == [] && hashIndex == {} && nextId == 1
      modifies this`pending, this`hashIndex, this`nextId
      ensures Loaded() == LoadRoot(root)
    {
      var next := IntAt(root, NNextId, 1);
      if next.Threw? {
        return;
      }
      nextId := next.value;
      var items := if HasArray(root, NPending) then root.members[NPending].items else [];
      for i := 0 to |items|
        invariant LoadItems(Loaded(), items[i..]) == LoadRoot(root)
      {
        var item := ItemFromJson(items[i], nextId);
        assert items[i..][1..] == items[i + 1..];
        nextId := nextId + 1;
        if item.Threw? {
          return;
        }
        AddBlock(item.value);
      }
      assert items[|items|..] == [];
    }

    method AddBlock(p: PendingBlock)
      modifies this`pending, this`hashIndex, this`nextId
      ensures Loaded() == AddLoaded(old(Loaded()), p)
    {
      nextId := Max(nextId, p.id + 1);
      if p.hit.hashStr != "" {
        hashIndex := hashIndex + {p.hit.hashStr};
      }
      pending := pending + [p];
    }

    method RecoverJsonl() returns (ok: bool)
      requires dirtyOps == 0
      modifies this
      ensures var r := RecoverLog(old(Loaded()), LogJson(queueLog));
              && queueLog == old(queueLog)
              && ok == r.Ok?
              && (ok ==>
                    var s := StoreState(r.value.pending, r.value.index, r.value.nextId, 0, old(snapshot), queueLog);
                    State() == if |r.value.pending| > |old(pending)| then Save(s) else s)
    {
      var lines := LogJson(queueLog);
      var added := false;
      for i := 0 to |lines|
        invariant queueLog == old(queueLog) && snapshot == old(snapshot) && dirtyOps == 0
        invariant RecoverLog(Loaded(), lines[i..]) == RecoverLog(old(Loaded()), lines)
        invariant |pending| >= |old(pending)| && (added <==> |pending| > |old(pending)|)
      {
        assert lines[i..][1..] == lines[i + 1..];
        var rec := lines[i];
        if !rec.JObj? {
          continue;
        }
        var hit := HitFromJson(rec);
        if hit.Threw? {
          return false;
        }
        if hit.value.hashStr == "" || hit.value.hashStr in hashIndex {
          continue;
        }
        var id := Int64At(rec, NId, nextId);
        var reason := StrAt(rec, NReason, "jsonl_recover");
        if id.Threw? || reason.Threw? {
          return false;
        }
        var queueReason := StrAt(rec, NQueueReason, reason.value);
        var rejectCount := IntAt(rec, NRejectCount, 0);
        if queueReason.Threw? || rejectCount.Threw? {
          return false;
        }
        var free := FreeId(id.value);
        AddBlock(PendingBlock(free, hit.value, queueReason.value, rejectCount.value, false));
        added := true;
      }
      assert lines[|lines|..] == [];
      ok := true;
      if added {
        SaveDb();
      }
    }

    method FreeId(id: int) returns (free: int)
      ensures free == if id < 1 || UsesId(pending, id) then nextId else id
    {
      free := if id < 1 then nextId else id;
      for k := 0 to |pending|
        invariant !UsesId(pending[..k], free)
      {
        if pending[k].id == free {
          return nextId;
        }
      }
      assert pending[..|pending|] == pending;
    }

    // ---- saving ------------------------------------------------------------------------

    method SaveDb()
      modifies this`snapshot, this`dirtyOps
      ensures State() == Save(old(State()))
      ensures snapshot == Written(nextId, pending) && dirtyOps == 0
    {
      snapshot := Written(nextId, pending);
      dirtyOps := 0;
    }

    method MaybeSaveDb()
      modifies this`snapshot, this`dirtyOps
      ensures State() == MaybeSave(old(State()))
      ensures snapshot == if old(dirtyOps) >= 8 then Written(nextId, pending) else old(snapshot)
    {
      if dirtyOps >= SAVE_EVERY {
        SaveDb();
      }
    }

    method FlushDb()
      requires Valid()
      modifies this`snapshot, this`dirtyOps
      ensures Valid() && State() == Flush(old(State()))
      ensures dirtyOps == 0 && snapshot == if old(dirtyOps) == 0 then old(snapshot) else Written(nextId, pending)
    {
      if dirtyOps > 0 {
        SaveDb();
      }
    }

    // ---- the operations ------------------------------------------------------------------

    method EnqueueHit(hit: BlockHit, reason: string, at: string) returns (id: int)
      requires Valid()
      modifies this
      ensures Valid() && (State(), id) == Enqueue(old(State()), hit, reason, at)
      ensures if hit.hashStr != "" && hit.hashStr in old(hashIndex) then id == 0 && State() == old(State())
              else
                var p := PendingBlock(old(nextId), hit, reason, 0, false);
                && id == p.id && pending == old(pending) + [p] && queueLog == old(queueLog) + [LogEntry(p, at)]
                && nextId == old(nextId) + 1
                && (old(dirtyOps) < 7 ==> dirtyOps == old(dirtyOps) + 1 && snapshot == old(snapshot))
                && (old(dirtyOps) >= 7 ==> dirtyOps == 0 && snapshot == Written(nextId, pending))
    {
      EnqueueKeeps(State(), hit, reason, at);
      if hit.hashStr != "" && hit.hashStr in hashIndex {
        return 0;
      }
      var p := PendingBlock(nextId, hit, reason, 0, false);
      nextId := nextId + 1;
      if hit.hashStr != "" {
        hashIndex := hashIndex + {hit.hashStr};
      }
      queueLog := queueLog + [LogEntry(p, at)];
      pending := pending + [p];
      dirtyOps := dirtyOps + 1;
      MaybeSaveDb();
      id := p.id;
    }

    /** Erases every block with the id, and its digest from the index. */
    method EraseId(id: int)
      requires DistinctDigests(pending) && hashIndex == Digests(pending)
      modifies this`pending, this`hashIndex
      ensures pending == Without(old(pending), {id}) && hashIndex == Digests(pending)
    {
      var kept: seq<PendingBlock> := [];
      for i := 0 to |pending|
        invariant pending == old(pending)
        invariant kept == Without(pending[..i], {id})
        invariant hashIndex == Digests(kept) + Digests(pending[i..])
      {
        var p := pending[i];
        EraseStep(pending, i, id);
        if p.id == id {
          if p.hit.hashStr != "" {
            hashIndex := hashIndex - {p.hit.hashStr};
          }
        } else {
          kept := kept + [p];
        }
      }
      assert pending[..|pending|] == pending && pending[|pending|..] == [];
      pending := kept;
    }

    method MarkSubmittedMany(ids: seq<int>)
      requires Valid()
      modifies this
      ensures Valid() && State() == MarkSubmitted(old(State()), ids)
      ensures forall p :: p in pending <==> p in old(pending) && p.id !in ids
      ensures ids != [] ==> dirtyOps == 0 && snapshot == Written(nextId, pending)
    {
      SubmittedKeeps(State(), ids);
      WithoutMembers(pending, IdSet(ids));
      if ids == [] {
        return;
      }
      WithoutNone(pending);
      assert IdSet(ids[..0]) == {};
      for k := 0 to |ids|
        invariant nextId == old(nextId) && queueLog == old(queueLog) && snapshot == old(snapshot)
        invariant pending == Without(old(pending), IdSet(ids[..k]))
        invariant DistinctIds(pending) && DistinctDigests(pending) && hashIndex == Digests(pending)
      {
        WithoutDistinct(pending, {ids[k]});
        WithoutTwice(old(pending), IdSet(ids[..k]), {ids[k]});
        assert IdSet(ids[..k + 1]) == IdSet(ids[..k]) + {ids[k]};
        EraseId(ids[k]);
      }
      assert ids[..|ids|] == ids;
      dirtyOps := dirtyOps + 1;
      SaveDb();
    }

    method MarkForwardedMany(ids: seq<int>)
      requires Valid()
      modifies this
      ensures Valid() && State() == MarkForwarded(old(State()), ids)
      ensures |pending| == |old(pending)|
      ensures forall i :: 0 <= i < |pending| ==>
                pending[i] == if old(pending)[i].id in ids then old(pending)[i].(forwarded := true) else old(pending)[i]
      ensures ids != [] ==> dirtyOps == 0 && snapshot == Written(nextId, pending)
    {
      LabelOpsKeep(State(), OpMarkForwarded(ids));
      if ids == [] {
        return;
      }
      assert Forwarded(pending, {}) == pending && IdSet(ids[..0]) == {};
      for k := 0 to |ids|
        invariant nextId == old(nextId) && queueLog == old(queueLog) && hashIndex == old(hashIndex)
        invariant pending == Forwarded(old(pending), IdSet(ids[..k]))
      {
        assert IdSet(ids[..k + 1]) == IdSet(ids[..k]) + {ids[k]};
        ghost var before := pending;
        for i := 0 to |pending|
          invariant pending == before
          invariant forall j :: 0 <= j < i ==> pending[j].id != ids[k]
        {
          if pending[i].id == ids[k] {
            pending := pending[i := pending[i].(forwarded := true)];
            break;
          }
        }
        assert pending == Forwarded(old(pending), IdSet(ids[..k + 1]));
      }
      assert ids[..|ids|] == ids;
      dirtyOps := dirtyOps + 1;
      SaveDb();
    }

    method MarkPendingReason(id: int, reason: string)
      requires Valid()
      modifies this
      ensures Valid() && State() == MarkReason(old(State()), id, reason)
      ensures |pending| == |old(pending)|
      ensures forall i :: 0 <= i < |pending| ==>
                pending[i] == if old(pending)[i].id == id then old(pending)[i].(queueReason := reason)
                              else old(pending)[i]
    {
      LabelOpsKeep(State(), OpMarkReason(id, reason));
      ghost var relabelled := WithReason(pending, id, reason);
      var found := false;
      for i := 0 to |pending|
        invariant pending == old(pending)
        invariant forall j :: 0 <= j < i ==> pending[j].id != id
      {
        if pending[i].id == id {
          pending := pending[i := pending[i].(queueReason := reason)];
          break;
        }
      }
      assert pending == relabelled;
      dirtyOps := dirtyOps + 1;
      MaybeSaveDb();
    }

    method DeferAllToNextStart(minute: int)
      requires Valid()
      modifies this
      ensures Valid() && State() == DeferAll(old(State()), minute)
    {
      LabelOpsKeep(State(), OpDeferAll(minute));
      for i := 0 to |pending|
        invariant nextId == old(nextId) && queueLog == old(queueLog) && hashIndex == old(hashIndex)
        invariant |pending| == |old(pending)|
        invariant forall j :: 0 <= j < |pending| ==>
                    pending[j] == if j < i then old(pending)[j].(queueReason := DeferReason(old(pending)[j], minute))
                                  else old(pending)[j]
      {
        if pending[i].hit.blockType == "XUNI" && !InXuniSubmitWindow(minute) {
          pending := pending[i := pending[i].(queueReason := OUTSIDE_XUNI_WINDOW)];
        } else {
          pending := pending[i := pending[i].(queueReason := SHUTDOWN_PENDING)];
        }
      }
      assert pending == Deferred(old(pending), minute);
      dirtyOps := dirtyOps + 1;
      SaveDb();
    }

    method ListUnforwarded(limit: int) returns (out: seq<PendingBlock>)
      ensures out == FirstUnforwarded(pending, limit)
    {
      out := [];
      for i := 0 to |pending|
        invariant out == Unforwarded(pending[..i])
        invariant limit > 0 ==> |out| < limit
      {
        assert pending[..i + 1][..i] == pending[..i];
        if pending[i].forwarded {
          continue;
        }
        out := out + [pending[i]];
        if limit > 0 && |out| >= limit {
          UnforwardedPrefix(pending, i + 1);
          return;
        }
      }
      assert pending[..|pending|] == pending;
    }

    method PendingEligible(netM: int, defaultM: int) returns (n: nat)
      ensures n == CountPayable(pending, netM, defaultM)
    {
      n := 0;
      for i := 0 to |pending|
        invariant n == CountPayable(pending[..i], netM, defaultM)
      {
        assert pending[..i + 1][..i] == pending[..i];
        if CostOf(pending[i].hit, if defaultM > 0 then defaultM else netM) >= netM {
          n := n + 1;
        }
      }
      assert pending[..|pending|] == pending;
    }

    /** The selection, then `std::sort`, for which SortForFlush stands. */
    method ListFlushBatch(netM: int, defaultM: int, limit: int, skipBefore: int, minute: int)
      returns (out: seq<PendingBlock>)
      requires Valid()
      ensures out == Sorted(Chosen(pending, netM, defaultM, limit, skipBefore, minute))
    {
      var chosen := SelectBatch(pending, netM, defaultM, limit, skipBefore, minute);
      SelectionDistinct(pending, netM, defaultM, limit, skipBefore, minute);
      out := SortForFlush(chosen);
      SortedUnique(chosen, out);
    }
  }

  lemma {:induction false} WithoutNone(ps: seq<PendingBlock>)
    ensures Without(ps, {}) == ps
  {
    if ps != [] {
      WithoutNone(ps[..|ps| - 1]);
    }
  }

  lemma {:induction false} WithoutTwice(ps: seq<PendingBlock>, a: set<int>, b: set<int>)
    ensures Without(Without(ps, a), b) == Without(ps, a + b)
  {
    if ps != [] {
      var front, last := ps[..|ps| - 1], ps[|ps| - 1];
      WithoutTwice(front, a, b);
      if last.id !in a {
        assert (Without(front, a) + [last])[..|Without(front, a)|] == Without(front, a);
      }
    }
  }

  lemma EraseStep(ps: seq<PendingBlock>, i: nat, id: int)
    requires i < |ps| && DistinctDigests(ps)
    ensures var p, kept := ps[i], Without(ps[..i], {id});
            && Without(ps[..i + 1], {id}) == (if p.id == id then kept else kept + [p])
            && Digests(kept) + Digests(ps[i + 1..])
               == (if p.hit.hashStr == "" then Digests(kept) + Digests(ps[i..])
                   else Digests(kept) + Digests(ps[i..]) - {p.hit.hashStr})
            && Digests(kept + [p]) + Digests(ps[i + 1..]) == Digests(kept) + Digests(ps[i..])
  {
    var p, kept := ps[i], Without(ps[..i], {id});
    assert ps[..i + 1][..i] == ps[..i];
    assert ps[i..] == [p] + ps[i + 1..];
    DigestsSplit(p, ps[i + 1..]);
    DigestsAppend(kept, p);
    WithoutMembers(ps[..i], {id});
    if p.hit.hashStr != "" {
      assert forall k :: 0 <= k < i ==> ps[..i][k] == ps[k];
      var tail := ps[i + 1..];
      assert forall k :: 0 <= k < |tail| ==> tail[k] == ps[i + 1 + k];
    }
  }
}
