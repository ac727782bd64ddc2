/** How often a whole run can steal. */
module StealBound {
  import opened Intervals
  import opened SchedulerModel
  import opened SchedulerLaws
  import opened ChunkSums
  import opened Engine
  import opened EngineLaws
  import opened Guarantees

  predicate IsSteal(e: Engine, op: Op) {
    op.NextChunk? && op.r.Granted? && e.s.pending == []
  }

  ghost function Steals(es: seq<Engine>, ops: seq<Op>, n: nat): nat
    requires n <= |ops| <= |es|
  {
    if n == 0 then 0 else Steals(es, ops, n - 1) + if IsSteal(es[n - 1], ops[n - 1]) then 1 else 0
  }

  lemma WorkerOnlyClaims(src: Bytes, e: Engine, op: Op, w: nat, e': Engine)
    requires w in e.workers && WorkerStep(src, e, op, w, e') && !op.NextChunk?
    ensures e'.s.minSize == e.s.minSize && e'.s.nextID == e.s.nextID
    ensures forall i :: i in e'.s.chunks ==> i in e.s.chunks && e'.s.chunks[i].Remaining() <= e.s.chunks[i].Remaining()
  {
    WorkerSched(src, e, op, w, e');
  }

  lemma WorkerBudget(src: Bytes, e: Engine, op: Op, w: nat, e': Engine)
    requires Valid(e.s, |src|) && w in e.workers && WorkerStep(src, e, op, w, e') && !op.NextChunk?
    ensures e'.s.minSize == e.s.minSize && SchedBudget(e'.s) <= SchedBudget(e.s)
  {
    WorkerOnlyClaims(src, e, op, w, e');
    BudgetMonotone(e.s.chunks, e'.s.chunks, e.s.minSize, e.s.nextID);
  }

  lemma NextBudget(s: Sched, w: nat, v: nat, r: Granted, s': Sched)
    requires Shape(s) && Next(s, w, v, r, s')
    ensures s'.minSize == s.minSize
    ensures SchedBudget(s') <= SchedBudget(s) - if r.Granted? && s.pending == [] then 1 else 0
  {
    NextCases(s, w, v, r, s');
    if r.Granted? && s.pending == [] {
      StealSpends(Register(s, w), v, w);
    } else {
      BudgetMonotone(s.chunks, s'.chunks, s.minSize, s.nextID);
    }
  }

  lemma StepBudget(src: Bytes, e: Engine, op: Op, e': Engine)
    requires Valid(e.s, |src|) && Step(src, e, op, e')
    ensures e'.s.minSize == e.s.minSize
    ensures SchedBudget(e'.s) <= SchedBudget(e.s) - if IsSteal(e, op) then 1 else 0
  {
    if op.Retire? {
      var s1 := MarkRetiring(e.s, op.keep, op.vs);
      if op.vs != [] {
        MarkKeeps(e.s, op.keep, op.vs, |src|);
        MovableOrder(s1, op.order);
        MoveAllBudget(s1, op.order, e'.s, |src|);
      }
    } else if op.NextChunk? {
      NextBudget(e.s, op.w, op.v, op.r, e'.s);
    } else if !op.Spawn? && !op.Cancel? && !op.Wake? {
      WorkerBudget(src, e, op, op.w, e');
    }
  }

  lemma {:induction false} RunBudget(src: Bytes, es: seq<Engine>, ops: seq<Op>, n: nat)
    requires RunFrom(src, es, ops) && n <= |ops|
    ensures es[n].s.minSize == es[0].s.minSize >= 1
    ensures Steals(es, ops, n) + SchedBudget(es[n].s) <= SchedBudget(es[0].s)
  {
    if n > 0 {
      RunBudget(src, es, ops, n - 1);
      RunStepBudget(src, es, ops, n - 1);
    } else {
      Reached(src, es, ops, 0);
    }
  }

  lemma RunStepBudget(src: Bytes, es: seq<Engine>, ops: seq<Op>, i: nat)
    requires RunFrom(src, es, ops) && i < |ops|
    ensures es[i].s.minSize == es[i + 1].s.minSize >= 1
    ensures SchedBudget(es[i + 1].s) <= SchedBudget(es[i].s) - if IsSteal(es[i], ops[i]) then 1 else 0
  {
    Reached(src, es, ops, i);
    assert StepAt(src, es, ops, i);
    StepBudget(src, es[i], ops[i], es[i + 1]);
  }

  /** Pre-splitting spends the same budget. */
  lemma {:induction false} HalvingsSpend(s: Sched, n: int, vs: seq<nat>, s': Sched, total: int)
    requires Valid(s, total) && Halvings(s, n, vs, s')
    ensures s'.minSize == s.minSize && |vs| + SchedBudget(s') <= SchedBudget(s)
    decreases |vs|
  {
    if vs != [] {
      SplitPendingKeeps(s, vs[0], total);
      SplitPendingSpends(s, vs[0]);
      HalvingsSpend(SplitPending(s, vs[0]), n, vs[1..], s', total);
    }
  }

  /** The budget of any scheduler is at most one split per minSize bytes. */
  lemma BudgetOfAll(s: Sched, total: int)
    requires Valid(s, total) && total >= 0
    ensures 0 <= SchedBudget(s) <= total / s.minSize
  {
    BudgetInBytes(s.chunks, s.minSize, s.nextID, total);
    RemainingIsCount(s.chunks, s.nextID, total);
    BelowInside(s.chunks, s.nextID, total);
    IntervalSize(0, total);
    SubsetSize(UnclaimedBelow(s.chunks, s.nextID), Interval(0, total));
    QuotientBound(SchedBudget(s), total, s.minSize);
  }

  /** All splits of one run, those prepare made before it included: however long
      the run lasts and however its workers come and go, there are at most
      total / minSize of them. */
  lemma SplitsAreBounded(src: Bytes, s0: Sched, n: int, vs: seq<nat>, es: seq<Engine>, ops: seq<Op>)
    requires RunFrom(src, es, ops) && Valid(s0, |src|) && Prepare(s0, n, vs, es[0].s)
    ensures s0.minSize >= 1
    ensures |vs| + Steals(es, ops, |ops|) <= |src| / s0.minSize
  {
    HalvingsSpend(s0, n, vs, es[0].s, |src|);
    RunBudget(src, es, ops, |ops|);
    Reached(src, es, ops, |ops|);
    BudgetOfAll(es[|ops|].s, |src|);
    BudgetOfAll(s0, |src|);
  }

  lemma StealsAreBounded(src: Bytes, es: seq<Engine>, ops: seq<Op>)
    requires RunFrom(src, es, ops)
    ensures es[0].s.minSize >= 1
    ensures Steals(es, ops, |ops|) <= |src| / es[0].s.minSize
  {
    RunBudget(src, es, ops, |ops|);
    Reached(src, es, ops, 0);
    Reached(src, es, ops, |ops|);
    BudgetOfAll(es[|ops|].s, |src|);
    BudgetOfAll(es[0].s, |src|);
  }
}
