/** What the Reporter is told of chunks that are done: in a finished run every
    chunk that was started is done, once. */
module Completions {
  import opened SchedulerModel
  import opened SchedulerLaws
  import opened Engine
  import opened EngineLaws
  import opened Guarantees
  import opened ReporterTrace

  predicate BeingReported(e: Engine, w: nat, id: nat) {
    w in e.workers && e.workers[w].pc.Reporting? && e.workers[w].pc.c == id
  }

  /** A started chunk is active, done, or about to be called done by one worker;
      what is done is out of the scheduler for good, and called done once. */
  ghost predicate ReportsOk(e: Engine, m: Picture) {
    && NoDup(e.reported)
    && (forall id :: id in e.reported ==> id in m && id !in e.s.chunks)
    && (forall w, id :: BeingReported(e, w, id) ==> id in m && id !in e.s.chunks && id !in e.reported)
    && (forall v, w, id :: BeingReported(e, v, id) && BeingReported(e, w, id) ==> v == w)
    && (forall id :: id in m ==> id in e.s.active || id in e.reported || exists w :: BeingReported(e, w, id))
  }

  // ---- which ids the trace starts ----

  lemma {:induction false} MoveAllStarts(s: Sched, order: seq<nat>, s': Sched)
    requires MoveAll(s, order, s')
    ensures Announced(s'.trace).Keys == Announced(s.trace).Keys
    decreases |order|
  {
    if order != [] {
      Extend(s.trace, Resized(order[0], s.chunks[order[0]].done));
      MoveAllStarts(Move(s, order[0]), order[1..], s');
    }
  }

  lemma NextStarts(s: Sched, w: nat, v: nat, r: Granted, s': Sched)
    requires Shape(s) && Next(s, w, v, r, s')
    ensures Announced(s'.trace).Keys == Announced(s.trace).Keys + if r.Granted? then {r.id} else {}
    ensures s.active <= s'.active && (r.Granted? ==> r.id in s'.active)
  {
    NextCases(s, w, v, r, s');
    if r.Granted? {
      if |s.pending| > 0 {
        var c := s.chunks[s.pending[0]];
        Extend(s.trace, Started(s.pending[0], c.off, c.end - c.off, c.written));
      } else {
        StealStarts(s.trace, v, s.nextID, s.chunks[v]);
      }
    }
  }

  lemma StealStarts(t: seq<Event>, v: nat, added: nat, c: Chunk)
    ensures var mid := Middle(c);
      Announced(t + [Resized(v, mid - c.off)] + [Started(added, mid, c.end - mid, 0)]).Keys == Announced(t).Keys + {added}
  {
    var mid := Middle(c);
    Extend(t, Resized(v, mid - c.off));
    Extend(t + [Resized(v, mid - c.off)], Started(added, mid, c.end - mid, 0));
  }

  // ---- one step ----

  predicate SameReporting(e: Engine, e': Engine) {
    && e'.reported == e.reported
    && (forall w :: w in e'.workers && e'.workers[w].pc.Reporting? ==> w in e.workers && e.workers[w].pc == e'.workers[w].pc)
    && (forall w :: w in e.workers && e.workers[w].pc.Reporting? ==> w in e'.workers && e'.workers[w].pc == e.workers[w].pc)
  }

  /** A step that completes nothing. */
  lemma OtherReports(e: Engine, m: Picture, e': Engine, m': Picture)
    requires ReportsOk(e, m) && SameReporting(e, e') && Fresh(e.s, e'.s)
    requires forall id :: id in m ==> id in m' && id < e.s.nextID
    requires forall id :: id in m' && id !in m ==> id in e'.s.active
    requires e.s.active <= e'.s.active
    ensures ReportsOk(e', m')
  {
    assert forall w, id :: BeingReported(e', w, id) <==> BeingReported(e, w, id);
  }

  lemma DoneReports(e: Engine, w: nat, m: Picture, e': Engine)
    requires ReportsOk(e, m) && w in e.workers && DoneStep(e, w, e')
    requires var c := e.workers[w].pc.c; c in e.s.active && c in e.s.chunks && c in m
    ensures ReportsOk(e', m)
  {
    var c := e.workers[w].pc.c;
    assert BeingReported(e', w, c);
    assert forall u, id :: u != w ==> (BeingReported(e', u, id) <==> BeingReported(e, u, id));
    assert forall id :: !BeingReported(e, w, id);
  }

  lemma ReportReports(e: Engine, w: nat, m: Picture, e': Engine)
    requires ReportsOk(e, m) && w in e.workers && ReportStep(e, w, e')
    ensures ReportsOk(e', m)
  {
    var c := e.workers[w].pc.c;
    assert BeingReported(e, w, c);
    assert forall u, id :: u != w ==> (BeingReported(e', u, id) <==> BeingReported(e, u, id));
    assert forall id :: !BeingReported(e', w, id);
  }

  lemma QuietReporting(src: Bytes, e: Engine, op: Op, e': Engine)
    requires Step(src, e, op, e') && !op.Done? && !op.Report?
    ensures SameReporting(e, e')
  {
    if op.Wake? {
      assert WakeStep(e, op.w, e');
    } else if !op.Spawn? && !op.Cancel? && !op.Retire? {
      WorkerReporting(src, e, op, op.w, e');
    }
  }

  lemma WorkerReporting(src: Bytes, e: Engine, op: Op, w: nat, e': Engine)
    requires w in e.workers && WorkerStep(src, e, op, w, e') && !op.Done? && !op.Report?
    ensures e'.reported == e.reported && w in e'.workers && e'.workers == e.workers[w := e'.workers[w]]
    ensures !e.workers[w].pc.Reporting? && !e'.workers[w].pc.Reporting?
  {
    OneWorkerSteps(src, e, op, w, e');
  }

  lemma StepStarts(src: Bytes, e: Engine, op: Op, e': Engine)
    requires Shape(e.s) && Step(src, e, op, e') && !op.Done?
    ensures e.s.active <= e'.s.active
    ensures Announced(e.s.trace).Keys <= Announced(e'.s.trace).Keys <= Announced(e.s.trace).Keys + e'.s.active
  {
    if op.Retire? {
      RetireStarts(e, op.keep, op.vs, op.order, e');
    } else if op.NextChunk? {
      NextStarts(e.s, op.w, op.v, op.r, e'.s);
    } else if !op.Spawn? && !op.Cancel? && !op.Wake? {
      WorkerSched(src, e, op, op.w, e');
    }
  }

  lemma RetireStarts(e: Engine, keep: int, vs: seq<nat>, order: seq<nat>, e': Engine)
    requires Shape(e.s) && RetireStep(e, keep, vs, order, e')
    ensures e'.s.active == e.s.active && Announced(e'.s.trace).Keys == Announced(e.s.trace).Keys
  {
    if vs != [] {
      MoveAllStarts(MarkRetiring(e.s, keep, vs), order, e'.s);
      MoveAllActive(MarkRetiring(e.s, keep, vs), order, e'.s);
    }
  }

  lemma {:induction false} MoveAllActive(s: Sched, order: seq<nat>, s': Sched)
    requires MoveAll(s, order, s')
    ensures s'.active == s.active
    decreases |order|
  {
    if order != [] { MoveAllActive(Move(s, order[0]), order[1..], s'); }
  }

  lemma StepReports(src: Bytes, e: Engine, op: Op, e': Engine)
    requires Valid(e.s, |src|) && PcsOk(src, e) && Told(e.s, Announced(e.s.trace)) && Step(src, e, op, e')
    requires ReportsOk(e, Announced(e.s.trace))
    ensures ReportsOk(e', Announced(e'.s.trace))
  {
    var m := Announced(e.s.trace);
    if op.Done? {
      assert PcOk(src, e.file, e.s, op.w, e.workers[op.w].pc);
      DoneReports(e, op.w, m, e');
    } else if op.Report? {
      ReportReports(e, op.w, m, e');
    } else {
      QuietReporting(src, e, op, e');
      StepFresh(src, e, op, e');
      StepStarts(src, e, op, e');
      OtherReports(e, m, e', Announced(e'.s.trace));
    }
  }

  // ---- whole runs ----

  lemma {:induction false} RunReports(src: Bytes, es: seq<Engine>, ops: seq<Op>, i: nat)
    requires RunFrom(src, es, ops) && i < |es| && es[0].s.trace == []
    ensures ReportsOk(es[i], Announced(es[i].s.trace))
  {
    if i > 0 {
      RunReports(src, es, ops, i - 1);
      RunStepReports(src, es, ops, i - 1);
    }
  }

  lemma RunStepReports(src: Bytes, es: seq<Engine>, ops: seq<Op>, i: nat)
    requires RunFrom(src, es, ops) && i < |ops| && es[0].s.trace == []
    requires ReportsOk(es[i], Announced(es[i].s.trace))
    ensures ReportsOk(es[i + 1], Announced(es[i + 1].s.trace))
  {
    RunTold(src, es, ops, i);
    ReachedParts(src, es, ops, i);
    assert StepAt(src, es, ops, i);
    StepReports(src, es[i], ops[i], es[i + 1]);
  }

  lemma ReachedParts(src: Bytes, es: seq<Engine>, ops: seq<Op>, i: nat)
    requires RunFrom(src, es, ops) && i < |es|
    ensures Valid(es[i].s, |src|) && PcsOk(src, es[i])
  {
    Reached(src, es, ops, i);
  }

  /** At any moment of any run: no chunk is called done twice, and only chunks
      that were started and that no worker can get any more. */
  lemma DoneOnce(src: Bytes, es: seq<Engine>, ops: seq<Op>, i: nat)
    requires RunFrom(src, es, ops) && i < |es| && es[0].s.trace == []
    ensures NoDup(es[i].reported)
    ensures forall id :: id in es[i].reported ==> id in Announced(es[i].s.trace) && id !in es[i].s.chunks
  {
    RunReports(src, es, ops, i);
  }

  /** Once all workers have left a run that neither failed nor was stopped, each
      chunk that was started has been called done, once, unless it was lost; so
      all of them have exactly if no error was swallowed. */
  lemma EachStartedIsDone(src: Bytes, es: seq<Engine>, ops: seq<Op>)
    requires RunFrom(src, es, ops) && es[0].s.trace == []
    requires AllLeft(es[|ops|]) && !es[|ops|].cancelled
    ensures NoDup(es[|ops|].reported)
    ensures forall id :: id in es[|ops|].reported <==> id in Announced(es[|ops|].s.trace) && id !in es[|ops|].lost
    ensures NoneSwallowed(es, ops) <==> forall id :: id in Announced(es[|ops|].s.trace) ==> id in es[|ops|].reported
  {
    var e := es[|ops|];
    var m := Announced(e.s.trace);
    Reached(src, es, ops, |ops|);
    RunTold(src, es, ops, |ops|);
    RunReports(src, es, ops, |ops|);
    LeftIsLost(src, e);
    LostExactly(src, es, ops);
    assert forall w, id :: !BeingReported(e, w, id);
    assert forall id :: id in e.lost ==> id in m && id in e.s.chunks;
  }
}
