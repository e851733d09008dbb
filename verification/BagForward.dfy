/** Forwarding the bag to the vault: `send_wave` ships the oldest unforwarded hits and
    flags them once the vault has answered. */
module BagForward {
  import opened Hits
  import opened BagJson
  import opened Store
  import opened BagRuns
  import opened FlushBatch
  import opened BlockStores

  /** What the vault answered: HTTP status and whether the body says "ok":false. */
  datatype Reply = Reply(status: int, saysNotOk: bool)

  predicate Accepted(reply: Reply) {
    reply.status == 200 && !reply.saysNotOk
  }

  function Ids(ps: seq<PendingBlock>): seq<int> {
    seq(|ps|, i requires 0 <= i < |ps| => ps[i].id)
  }

  function HitsOf(ps: seq<PendingBlock>): seq<BlockHit> {
    seq(|ps|, i requires 0 <= i < |ps| => ps[i].hit)
  }

  class BagForwarder {
    const store: BlockStore
    const batch: nat
    const worker: string
    var failStreak: nat

    constructor (store: BlockStore, batch: int, worker: string)
      ensures this.store == store && this.batch == (if batch > 0 then batch else 32) && failStreak == 0
    {
      this.store, this.worker, failStreak := store, worker, 0;
      this.batch := if batch > 0 then batch else 32;
    }

    /** body is what is posted, or None when there is nothing to send. */
    method SendWave(reply: Reply) returns (sent: nat, body: Option<Json>)
      requires store.Valid() && batch > 0
      modifies this, store
      ensures store.Valid()
      ensures var wave := FirstUnforwarded(old(store.pending), batch);
              var taken := reply.status == 200 && !reply.saysNotOk;
              && body == (if wave == [] then None else Some(BagToJson(HitsOf(wave), worker)))
              && sent == (if taken then |wave| else 0)
              && store.State() == (if taken then MarkForwarded(old(store.State()), Ids(wave)) else old(store.State()))
              && store.pending == (if taken then AfterWave(old(store.pending), batch) else old(store.pending))
              && failStreak == if wave == [] || taken then 0 else old(failStreak) + 1
    {
      var pending := store.ListUnforwarded(batch);
      if pending == [] {
        failStreak := 0;
        return 0, None;
      }
      var hits: seq<BlockHit>, ids: seq<int> := [], [];
      for i := 0 to |pending|
        invariant hits == HitsOf(pending[..i]) && ids == Ids(pending[..i])
      {
        hits := hits + [pending[i].hit];
        ids := ids + [pending[i].id];
      }
      assert pending[..|pending|] == pending;
      body := Some(BagToJson(hits, worker));
      if Accepted(reply) {
        store.MarkForwardedMany(ids);
        failStreak := 0;
        sent := |ids|;
      } else {
        failStreak := failStreak + 1;
        sent := 0;
      }
    }
  }

  // ---- repeated waves -----------------------------------------------------------------------

  /** The pending list after one accepted wave. */
  function AfterWave(ps: seq<PendingBlock>, batch: nat): seq<PendingBlock> {
    Forwarded(ps, IdSet(Ids(FirstUnforwarded(ps, batch))))
  }

  function AfterWaves(ps: seq<PendingBlock>, batch: nat, k: nat): seq<PendingBlock>
    decreases k
  {
    if k == 0 then ps else AfterWaves(AfterWave(ps, batch), batch, k - 1)
  }

  /** Everything k accepted waves post, in order. */
  function Posted(ps: seq<PendingBlock>, batch: nat, k: nat): seq<PendingBlock>
    decreases k
  {
    if k == 0 then [] else FirstUnforwarded(ps, batch) + Posted(AfterWave(ps, batch), batch, k - 1)
  }

  lemma {:induction false} ForwardedLeaves(ps: seq<PendingBlock>, ids: set<int>)
    ensures Unforwarded(Forwarded(ps, ids)) == Without(Unforwarded(ps), ids)
  {
    if ps != [] {
      var front, p := ps[..|ps| - 1], ps[|ps| - 1];
      ForwardedLeaves(front, ids);
      assert Forwarded(ps, ids)[..|ps| - 1] == Forwarded(front, ids);
      if !p.forwarded {
        assert (Unforwarded(front) + [p])[..|Unforwarded(front)|] == Unforwarded(front);
      }
    }
  }

  lemma {:induction false} UnforwardedDistinct(ps: seq<PendingBlock>)
    requires DistinctIds(ps)
    ensures DistinctIds(Unforwarded(ps)) && forall p :: p in Unforwarded(ps) ==> p in ps
  {
    if ps != [] {
      var front := ps[..|ps| - 1];
      UnforwardedDistinct(front);
      var u := Unforwarded(front);
      assert forall i :: 0 <= i < |u| ==> u[i] in front;
    }
  }

  /** Dropping the ids of the first n of a list with distinct ids leaves the rest. */
  lemma {:induction false} WithoutFirst(u: seq<PendingBlock>, n: nat)
    requires DistinctIds(u) && n <= |u|
    ensures Without(u, IdSet(Ids(u[..n]))) == u[n..]
    decreases |u|
  {
    var ids := IdSet(Ids(u[..n]));
    if u != [] {
      var front, last := u[..|u| - 1], u[|u| - 1];
      if n == |u| {
        forall i | 0 <= i < |u|
          ensures u[i].id in ids
        {
          assert Ids(u[..n])[i] == u[i].id;
        }
        WithoutAll(front, ids);
      } else {
        assert front[..n] == u[..n];
        WithoutFirst(front, n);
        assert last.id !in ids by {
          assert forall i :: 0 <= i < n ==> Ids(u[..n])[i] == u[i].id;
        }
      }
    }
  }

  lemma {:induction false} WithoutAll(u: seq<PendingBlock>, ids: set<int>)
    requires forall i :: 0 <= i < |u| ==> u[i].id in ids
    ensures Without(u, ids) == []
  {
    if u != [] {
      WithoutAll(u[..|u| - 1], ids);
    }
  }

  lemma WaveLeaves(ps: seq<PendingBlock>, batch: nat)
    requires DistinctIds(ps) && batch > 0
    ensures var u := Unforwarded(ps);
            && DistinctIds(AfterWave(ps, batch))
            && FirstUnforwarded(ps, batch) == Take(u, batch)
            && Unforwarded(AfterWave(ps, batch)) == u[|Take(u, batch)|..]
  {
    var u := Unforwarded(ps);
    var n := |Take(u, batch)|;
    assert Take(u, batch) == u[..n];
    UnforwardedDistinct(ps);
    ForwardedLeaves(ps, IdSet(Ids(u[..n])));
    WithoutFirst(u, n);
  }

  /** Forwarding progress: k accepted waves post exactly the first k * batch unforwarded
      hits, each once and in pending order, and leave exactly the others. */
  lemma {:induction false} WavesPost(ps: seq<PendingBlock>, batch: nat, k: nat)
    requires DistinctIds(ps) && batch > 0
    ensures var u := Unforwarded(ps);
            var n := |Take(u, k * batch)|;
            && Posted(ps, batch, k) == u[..n]
            && Unforwarded(AfterWaves(ps, batch, k)) == u[n..]
    decreases k
  {
    hide Unforwarded, AfterWave, FirstUnforwarded, DistinctIds;
    var u := Unforwarded(ps);
    if k > 0 {
      WaveLeaves(ps, batch);
      WavesPost(AfterWave(ps, batch), batch, k - 1);
      TakeInWaves(u, batch, k);
    }
  }

  lemma TakeInWaves(u: seq<PendingBlock>, batch: nat, k: nat)
    requires k > 0
    ensures (k - 1) * batch >= 0 && k * batch >= 0
    ensures var m, n := |Take(u, batch)|, |Take(u, k * batch)|;
            var rest := u[m..];
            var r := |Take(rest, (k - 1) * batch)|;
            && Take(u, batch) == u[..m]
            && u[..m] + rest[..r] == u[..n] && rest[r..] == u[n..]
  {
    assert k * batch == batch + (k - 1) * batch;
    var m, n := |Take(u, batch)|, |Take(u, k * batch)|;
    var rest := u[m..];
    var r := |Take(rest, (k - 1) * batch)|;
    assert n == m + r;
    assert u[..m] + rest[..r] == u[..m + r];
  }

  /** Nothing is left exactly once ceil(n / batch) waves have been accepted, and by then
      every hit has been posted. */
  lemma {:induction false} ForwardingCompletes(ps: seq<PendingBlock>, batch: nat, k: nat)
    requires DistinctIds(ps) && batch > 0
    ensures var u := Unforwarded(ps);
            && (Unforwarded(AfterWaves(ps, batch, k)) == [] <==> k >= (|u| + batch - 1) / batch)
            && (k >= (|u| + batch - 1) / batch ==> Posted(ps, batch, k) == u)
  {
    hide Unforwarded, AfterWaves, Posted, DistinctIds;
    WavesPost(ps, batch, k);
    CeilCovers(|Unforwarded(ps)|, batch, k);
  }

  lemma CeilCovers(n: nat, d: nat, k: nat)
    requires d > 0
    ensures k * d >= n <==> k >= (n + d - 1) / d
  {
    var q := (n + d - 1) / d;
    assert d * q <= n + d - 1 < d * q + d;
    if k >= q {
      assert k * d == q * d + (k - q) * d;
    } else {
      assert q * d == k * d + d + (q - k - 1) * d;
    }
  }
}
