/** Eager workers find work: what prepare promises for the start of a run. */
module EagerStart {
  import opened SchedulerModel
  import opened SchedulerLaws
  import opened ChunkSums
  import opened Engine
  import opened EngineLaws
  import opened Guarantees

  /** prepare loses no byte, returns at most n, and returns less only when no
      pending range is big enough to halve. */
  lemma PrepareIsEnough(s: Sched, n: nat, vs: seq<nat>, s': Sched, total: int)
    requires Valid(s, total) && Prepare(s, n, vs, s') && n >= 1
    ensures Valid(s', total) && RemainingSum(s'.chunks, s'.nextID) == RemainingSum(s.chunks, s.nextID)
    ensures 1 <= EagerCount(s', n) <= n
    ensures EagerCount(s', n) < n ==> forall id :: id in s'.pending && id in s'.chunks ==> s'.chunks[id].Remaining() < 2 * s'.minSize
    ensures s'.pending != [] ==> EagerCount(s', n) == n || EagerCount(s', n) == |s'.pending|
    ensures s.pending != [] ==> EagerCount(s', n) <= |s'.pending|
  {
    HalvingsKeep(s, n, vs, s', total);
    SameUnclaimedSameSum(s, s', total);
  }

  function NextCalls(ops: seq<Op>, i: nat): nat
    requires i <= |ops|
  {
    if i == 0 then 0 else NextCalls(ops, i - 1) + if ops[i - 1].NextChunk? then 1 else 0
  }

  predicate NoRetire(ops: seq<Op>, i: nat)
    requires i <= |ops|
  {
    forall k :: 0 <= k < i ==> !ops[k].Retire?
  }

  lemma WorkerLeavesPending(src: Bytes, e: Engine, op: Op, w: nat, e': Engine)
    requires w in e.workers && WorkerStep(src, e, op, w, e') && !op.NextChunk?
    ensures e'.s.pending == e.s.pending && e'.s.limit == e.s.limit && e'.s.retiring <= e.s.retiring
  {
    WorkerSched(src, e, op, w, e');
  }

  lemma StepLeavesPending(src: Bytes, e: Engine, op: Op, e': Engine)
    requires Step(src, e, op, e') && !op.NextChunk? && !op.Retire?
    ensures e'.s.pending == e.s.pending && e'.s.limit == e.s.limit && e'.s.retiring <= e.s.retiring
  {
    if !op.Spawn? && !op.Cancel? && !op.Wake? { WorkerLeavesPending(src, e, op, op.w, e'); }
  }

  lemma NextServed(s: Sched, w: nat, v: nat, r: Granted, s': Sched)
    requires Shape(s) && Next(s, w, v, r, s') && s.limit == 0 && s.retiring == {} && s.pending != []
    ensures r == Granted(s.pending[0]) && s'.pending == s.pending[1..] && s'.limit == 0 && s'.retiring == {}
  {
  }

  /** While nobody was demoted, the i-th state has handed out the eager chunks
      in order, whatever was claimed, written or completed in between. */
  lemma {:induction false} PendingIsQueue(src: Bytes, es: seq<Engine>, ops: seq<Op>, i: nat)
    requires RunFrom(src, es, ops) && i <= |ops| && NoRetire(ops, i)
    requires NextCalls(ops, i) <= |es[0].s.pending|
    ensures es[i].s.pending == es[0].s.pending[NextCalls(ops, i)..]
    ensures es[i].s.limit == 0 && es[i].s.retiring == {}
  {
    if i > 0 {
      PendingIsQueue(src, es, ops, i - 1);
      assert StepAt(src, es, ops, i - 1);
      var op := ops[i - 1];
      if op.NextChunk? {
        ReachedShape(src, es, ops, i - 1);
        NextServed(es[i - 1].s, op.w, op.v, op.r, es[i].s);
      } else {
        StepLeavesPending(src, es[i - 1], op, es[i]);
      }
    }
  }

  lemma ReachedShape(src: Bytes, es: seq<Engine>, ops: seq<Op>, i: nat)
    requires RunFrom(src, es, ops) && i < |es|
    ensures Shape(es[i].s)
  {
    Reached(src, es, ops, i);
  }

  /** Each of the first |pending| calls to next is served from pending. */
  lemma EagerWorkersAreServed(src: Bytes, es: seq<Engine>, ops: seq<Op>, i: nat)
    requires RunFrom(src, es, ops) && i < |ops| && NoRetire(ops, i)
    requires ops[i].NextChunk? && NextCalls(ops, i) < |es[0].s.pending|
    ensures ops[i].r == Granted(es[0].s.pending[NextCalls(ops, i)])
  {
    PendingIsQueue(src, es, ops, i);
    assert StepAt(src, es, ops, i);
    ReachedShape(src, es, ops, i);
    NextServed(es[i].s, ops[i].w, ops[i].v, ops[i].r, es[i + 1].s);
  }
}
