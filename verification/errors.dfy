/** Where an error of one worker ends: what a run may swallow and what it must
    report. */
module Errors {
  import opened SchedulerModel
  import opened Engine
  import opened EngineLaws
  import opened Guarantees

  /** Worker w has an error of chunk c in hand, permanent or not, and has not
      reported it. */
  predicate InHand(e: Engine, w: nat, c: nat, permanent: bool) {
    && w in e.workers
    && var pc := e.workers[w].pc;
       pc == Left(c, permanent) || pc == Unretired(c, permanent) || pc == Leaving(true) || pc == Failing
  }

  /** The net takes the error: run()'s first look finds w retired. */
  predicate Absorbed(e: Engine, op: Op, w: nat) {
    op == Settle(w) && w in e.workers && e.workers[w].retired
  }

  lemma OtherErrorStays(src: Bytes, e: Engine, op: Op, e': Engine, w: nat, c: nat, permanent: bool)
    requires Step(src, e, op, e') && InHand(e, w, c, permanent)
    requires op.Cancel? || op.Retire? || op.Wake? || op.w != w
    ensures InHand(e', w, c, permanent) && (e.cancelled ==> e'.cancelled) && e.lost <= e'.lost
  {
    if op.Wake? {
      assert WakeStep(e, op.w, e');
    } else if !op.Spawn? && !op.Cancel? && !op.Retire? {
      OneWorkerSteps(src, e, op, op.w, e');
      WorkerKeepsHistory(src, e, op, op.w, e');
    }
  }

  lemma WorkerKeepsHistory(src: Bytes, e: Engine, op: Op, w: nat, e': Engine)
    requires w in e.workers && WorkerStep(src, e, op, w, e')
    ensures (e.cancelled ==> e'.cancelled) && e.lost <= e'.lost
  {
  }

  /** The worker's own next step reports the error, or it is swallowed, or the
      net takes it. */
  lemma OwnErrorGoesOn(src: Bytes, e: Engine, op: Op, e': Engine, w: nat, c: nat, permanent: bool)
    requires Inv(src, e) && InHand(e, w, c, permanent) && WorkerStep(src, e, op, w, e') && op.w == w
    ensures InHand(e', w, c, permanent) || e'.cancelled || c in e'.lost || (!permanent && Absorbed(e, op, w))
  {
    var pc := e.workers[w].pc;
    assert pc.Left? || pc.Unretired? || pc.Leaving? || pc.Failing?;
    if pc.Left? {
      assert op.Settle?;
    } else if pc.Unretired? {
      assert op.Resign?;
    } else if pc.Leaving? {
      assert op.Leave?;
    }
  }

  lemma ErrorStep(src: Bytes, e: Engine, op: Op, e': Engine, w: nat, c: nat, permanent: bool)
    requires Inv(src, e) && Step(src, e, op, e') && InHand(e, w, c, permanent)
    ensures InHand(e', w, c, permanent) || e'.cancelled || c in e'.lost || (!permanent && Absorbed(e, op, w))
  {
    if !op.Spawn? && !op.Cancel? && !op.Retire? && !op.Wake? && op.w == w {
      OwnErrorGoesOn(src, e, op, e', w, c, permanent);
    } else {
      OtherErrorStays(src, e, op, e', w, c, permanent);
    }
  }

  lemma HistoryGrows(src: Bytes, e: Engine, op: Op, e': Engine)
    requires Step(src, e, op, e')
    ensures (e.cancelled ==> e'.cancelled) && e.lost <= e'.lost
  {
    if op.Wake? {
      assert WakeStep(e, op.w, e');
    } else if !op.Spawn? && !op.Cancel? && !op.Retire? {
      WorkerKeepsHistory(src, e, op, op.w, e');
    }
  }

  ghost predicate AbsorbedWithin(es: seq<Engine>, ops: seq<Op>, i: nat, j: nat, w: nat)
    requires j <= |ops| <= |es|
  {
    exists k {:trigger Absorbed(es[k], ops[k], w)} :: i <= k < j && Absorbed(es[k], ops[k], w)
  }

  /** However long the run goes on: an error is in hand, or has stopped the run,
      or was swallowed, or, not being permanent, was taken by the net. */
  lemma {:induction false} ErrorStays(src: Bytes, es: seq<Engine>, ops: seq<Op>, i: nat, j: nat, w: nat, c: nat, permanent: bool)
    requires RunFrom(src, es, ops) && i <= j < |es| && w in es[i].workers && es[i].workers[w].pc == Left(c, permanent)
    ensures InHand(es[j], w, c, permanent) || es[j].cancelled || c in es[j].lost
      || (!permanent && AbsorbedWithin(es, ops, i, j, w))
    decreases j
  {
    if i < j {
      ErrorStays(src, es, ops, i, j - 1, w, c, permanent);
      assert StepAt(src, es, ops, j - 1);
      HistoryGrows(src, es[j - 1], ops[j - 1], es[j]);
      if InHand(es[j - 1], w, c, permanent) {
        Reached(src, es, ops, j - 1);
        ErrorStep(src, es[j - 1], ops[j - 1], es[j], w, c, permanent);
        if Absorbed(es[j - 1], ops[j - 1], w) { assert i <= j - 1 < j; }
      }
    }
  }

  /** Once all workers have left, every error has stopped the run, but for those
      swallowed between the two looks, whose chunk is then still active, and
      those that were not permanent and that the net took. */
  lemma ErrorsSurface(src: Bytes, es: seq<Engine>, ops: seq<Op>, i: nat, w: nat, c: nat, permanent: bool)
    requires RunFrom(src, es, ops) && AllLeft(es[|ops|])
    requires i < |es| && w in es[i].workers && es[i].workers[w].pc == Left(c, permanent)
    ensures es[|ops|].cancelled || c in es[|ops|].s.active || (!permanent && AbsorbedWithin(es, ops, i, |ops|, w))
  {
    ErrorStays(src, es, ops, i, |ops|, w, c, permanent);
    Reached(src, es, ops, |ops|);
  }
}
