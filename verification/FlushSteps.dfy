/** A wave of the sequential flush is a run of the interleaved machine in which no other
    thread gets in between. */
module FlushSteps {
  import opened Hits
  import opened Store
  import opened BagRuns
  import opened Submit
  import opened FlushWave
  import opened Lifecycle
  import opened HitPaths

  lemma NotedRelabels(s: StoreState, id: int, verdict: Verdict, last: bool)
    ensures Noted(s, id, verdict, last).pending == Relabel(s.pending, id, verdict, last)
  {
  }

  /** The answers to items base .. k-1, in order. */
  function AnswerSteps(replies: seq<Reply>, base: nat, k: nat): seq<Step>
    requires base <= k <= |replies|
  {
    seq(k - base, i requires 0 <= i < k - base => FlushAnswer(replies[base + i]))
  }

  /** The worker has the answers up to k of the wave that began at base; gone are the
      blocks earlier waves removed from the bag. */
  ghost predicate MidWave(y: Sys, bag: seq<PendingBlock>, work: seq<WorkItem>, replies: seq<Reply>,
                          base: nat, k: nat, last: bool)
    requires base <= k <= |work| == |replies|
  {
    && y.worker.Flushing? && y.worker == Flushing(work, k, y.worker.ids, last)
    && AcceptedIds(work, replies, k) == AcceptedIds(work, replies, base) + y.worker.ids
    && y.store.pending == Without(Labelled(bag, work, replies, k, last), IdSet(AcceptedIds(work, replies, base)))
  }

  lemma AnswerIsStep(y: Sys, bag: seq<PendingBlock>, work: seq<WorkItem>, replies: seq<Reply>,
                     base: nat, k: nat, last: bool)
    requires base <= k < |work| == |replies| && MidWave(y, bag, work, replies, base, k, last)
    ensures MidWave(Then(y, SubmitWorker, FlushAnswer(replies[k])), bag, work, replies, base, k + 1, last)
  {
    hide Judge, Noted, Relabel, Without;
    NotedRelabels(y.store, work[k].id, Judge(replies[k]), last);
    RelabelWithout(Labelled(bag, work, replies, k, last), IdSet(AcceptedIds(work, replies, base)),
                   work[k].id, Judge(replies[k]), last);
  }

  lemma {:induction false} AnswersAreSteps(y: Sys, bag: seq<PendingBlock>, work: seq<WorkItem>, replies: seq<Reply>,
                                           base: nat, k: nat, last: bool)
    requires base <= k <= |work| == |replies| && MidWave(y, bag, work, replies, base, base, last)
    ensures MidWave(Lifecycle.Run(y, By(SubmitWorker, AnswerSteps(replies, base, k))),
                    bag, work, replies, base, k, last)
  {
    hide MidWave, Then, Lifecycle.Run, By;
    if k == base {
      NoSteps(y, SubmitWorker);
      assert AnswerSteps(replies, base, k) == [];
    } else {
      var before := AnswerSteps(replies, base, k - 1);
      AnswersAreSteps(y, bag, work, replies, base, k - 1, last);
      assert before + [FlushAnswer(replies[k - 1])] == AnswerSteps(replies, base, k);
      RunOne(y, SubmitWorker, before, FlushAnswer(replies[k - 1]));
      AnswerIsStep(Lifecycle.Run(y, By(SubmitWorker, before)), bag, work, replies, base, k - 1, last);
    }
  }

  /** From the bag settled up to base, the answers to one wave followed by the removal of
      its accepted blocks give the bag settled up to end, which is what SendWaves leaves. */
  lemma {:induction false} WaveIsSteps(y: Sys, bag: seq<PendingBlock>, work: seq<WorkItem>, replies: seq<Reply>,
                                       base: nat, end: nat, last: bool)
    requires base <= end <= |work| == |replies| && y.worker == Flushing(work, base, [], last)
    requires y.store.pending == Settled(bag, work, replies, base, last)
    ensures var z := Lifecycle.Run(y, By(SubmitWorker, AnswerSteps(replies, base, end) + [EndWave]));
            && z.worker == Flushing(work, end, [], last)
            && z.store.pending == Settled(bag, work, replies, end, last)
  {
    hide Lifecycle.Run, By, Without, Labelled;
    AnswersAreSteps(y, bag, work, replies, base, end, last);
    var mid := Lifecycle.Run(y, By(SubmitWorker, AnswerSteps(replies, base, end)));
    RunOne(y, SubmitWorker, AnswerSteps(replies, base, end), EndWave);
    SettledNext(bag, work, replies, base, end, last, mid.worker.ids, mid.store.pending);
  }
}
