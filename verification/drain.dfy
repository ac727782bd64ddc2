/** Every run drains: each step spends from a finite budget, to which only
    faults, spawns and demotions add, and until all workers have left somebody
    can go on. */
module Draining {
  import opened Intervals
  import opened SchedulerModel
  import opened SchedulerLaws
  import opened ChunkSums
  import opened Engine
  import opened EngineLaws
  import opened Guarantees
  import opened StealBound
  import opened EagerStart

  // ---- the measure ----

  /** How far a worker is from leaving, but for new bytes and new chunks. A
      body read to the end of a capped range has a request to spare. */
  function Stage(pc: Pc): nat {
    match pc
    case Exited => 0
    case Failing => 1
    case Leaving(_) => 2
    case Idle => 3
    case Reporting(_, _) => if pc.last then 3 else 4
    case Unretired(_, _) => 3
    case Netted(_) => 4
    case Left(_, _) => 5
    case Finish(_) => 5
    case Wrote(_, _, _, stop, pos, lim) => if stop then 6 else if pos < lim then 9 else 12
    case Claimed(_, _, _, stop, pos, lim) => if stop then 7 else if pos < lim then 10 else 13
    case Body(_, pos, lim) => if pos < lim then 8 else 11
    case Asked(_, _, _, _) => 9
    case Fetch(_) => 10
  }

  function StageSum(ws: map<nat, Worker>, n: nat): nat {
    if n == 0 then 0 else StageSum(ws, n - 1) + if n - 1 in ws then Stage(ws[n - 1].pc) else 0
  }

  /** Chunks that can still be handed out. */
  function Work(s: Sched): int {
    |s.pending| + if s.minSize >= 1 then SchedBudget(s) else 0
  }

  ghost function Measure(src: Bytes, e: Engine, n: nat): int {
    6 * |StillFree(src, e)| + 8 * Work(e.s) + StageSum(e.workers, n)
  }

  predicate Below(e: Engine, n: nat) { forall w :: w in e.workers ==> w < n }

  /** A request that continues a capped range that was read to its end. */
  predicate CappedRetry(e: Engine, op: Op) {
    op.Retry? && op.w in e.workers && e.workers[op.w].pc.Body? && e.workers[op.w].pc.pos >= e.workers[op.w].pc.lim
  }

  /** What a step may add to the measure, and the step itself. */
  function Allowance(e: Engine, op: Op): nat {
    if op.Spawn? then 4
    else if op.Retire? then 1 + 8 * |op.order|
    else if op.Wake? || op.Cancel? then 1
    else if op.Retry? && !CappedRetry(e, op) then 3
    else 0
  }

  lemma {:induction false} StageChanges(ws: map<nat, Worker>, w: nat, x: Worker, n: nat)
    requires w < n
    ensures StageSum(ws[w := x], n) == StageSum(ws, n) - (if w in ws then Stage(ws[w].pc) else 0) + Stage(x.pc)
  {
    if w == n - 1 {
      StageBelow(ws, w, x, n - 1);
    } else {
      StageChanges(ws, w, x, n - 1);
    }
  }

  lemma {:induction false} StageBelow(ws: map<nat, Worker>, w: nat, x: Worker, n: nat)
    requires n <= w
    ensures StageSum(ws[w := x], n) == StageSum(ws, n)
  {
    if n > 0 { StageBelow(ws, w, x, n - 1); }
  }

  lemma {:induction false} NoStages(n: nat)
    ensures StageSum(map[], n) == 0
  {
    if n > 0 { NoStages(n - 1); }
  }

  // ---- every step spends ----

  predicate OwnStep(op: Op) {
    !op.Spawn? && !op.Cancel? && !op.Retire? && !op.Wake? && !op.NextChunk? && !op.Read?
  }

  lemma RespondFalls(src: Bytes, e: Engine, w: nat, resp: Response, e': Engine)
    requires w in e.workers && RespondStep(src, e, w, resp, e') && PcOk(src, e.file, e.s, w, e.workers[w].pc)
    ensures w in e'.workers && e'.workers == e.workers[w := e'.workers[w]]
    ensures Stage(e'.workers[w].pc) + 1 <= Stage(e.workers[w].pc)
  {
  }

  /** What remains of a claim: write, credit, go on or finish. */
  lemma WriteFalls(src: Bytes, e: Engine, op: Op, e': Engine)
    requires (op.WriteOut? || op.WriteError? || op.CreditWritten?) && op.w in e.workers && WorkerStep(src, e, op, op.w, e')
    ensures op.w in e'.workers && e'.workers == e.workers[op.w := e'.workers[op.w]]
    ensures Stage(e'.workers[op.w].pc) + 1 <= Stage(e.workers[op.w].pc)
  {
  }

  /** Completing a chunk and leaving. */
  predicate WindsUp(op: Op) {
    op.Done? || op.Report? || op.Settle? || op.Resign? || op.Leave? || op.Fail?
  }

  lemma SettledFalls(src: Bytes, e: Engine, op: Op, e': Engine)
    requires (op.Settle? || op.Resign?) && op.w in e.workers && WorkerStep(src, e, op, op.w, e')
    ensures op.w in e'.workers && e'.workers == e.workers[op.w := e'.workers[op.w]]
    ensures Stage(e'.workers[op.w].pc) + 1 <= Stage(e.workers[op.w].pc)
  {
  }

  lemma WindUpFalls(src: Bytes, e: Engine, op: Op, e': Engine)
    requires WindsUp(op) && op.w in e.workers && WorkerStep(src, e, op, op.w, e')
    ensures op.w in e'.workers && e'.workers == e.workers[op.w := e'.workers[op.w]]
    ensures Stage(e'.workers[op.w].pc) + 1 <= Stage(e.workers[op.w].pc)
  {
    if op.Settle? || op.Resign? { SettledFalls(src, e, op, e'); }
  }

  lemma OtherFalls(src: Bytes, e: Engine, op: Op, e': Engine)
    requires OwnStep(op) && !op.Respond? && !op.WriteOut? && !op.WriteError? && !op.CreditWritten? && !WindsUp(op)
    requires op.w in e.workers && WorkerStep(src, e, op, op.w, e')
    ensures op.w in e'.workers && e'.workers == e.workers[op.w := e'.workers[op.w]]
    ensures Stage(e'.workers[op.w].pc) + 1 <= Stage(e.workers[op.w].pc) + Allowance(e, op)
  {
  }

  /** A worker's own step, but for next and a read, leads on. */
  lemma PcFalls(src: Bytes, e: Engine, op: Op, e': Engine)
    requires OwnStep(op) && op.w in e.workers && WorkerStep(src, e, op, op.w, e')
    requires PcOk(src, e.file, e.s, op.w, e.workers[op.w].pc)
    ensures op.w in e'.workers && e'.workers == e.workers[op.w := e'.workers[op.w]]
    ensures Stage(e'.workers[op.w].pc) + 1 <= Stage(e.workers[op.w].pc) + Allowance(e, op)
  {
    if op.Respond? {
      RespondFalls(src, e, op.w, op.resp, e');
    } else if op.WriteOut? || op.WriteError? || op.CreditWritten? {
      WriteFalls(src, e, op, e');
    } else if WindsUp(op) {
      WindUpFalls(src, e, op, e');
    } else {
      OtherFalls(src, e, op, e');
    }
  }

  lemma WorkerSpends(src: Bytes, e: Engine, op: Op, e': Engine, n: nat)
    requires Inv(src, e) && Below(e, n) && OwnStep(op) && op.w in e.workers && WorkerStep(src, e, op, op.w, e')
    ensures Below(e', n)
    ensures Measure(src, e', n) + 1 <= Measure(src, e, n) + Allowance(e, op)
  {
    PcFalls(src, e, op, e');
    StageChanges(e.workers, op.w, e'.workers[op.w], n);
    WorkersOnlyClaimByReading(src, e, op, op.w, e');
    WorkerLeavesPending(src, e, op, op.w, e');
    WorkerBudget(src, e, op, op.w, e');
  }

  /** A read that does not end its chunk claims at least one byte. */
  lemma ReadClaimsSomething(src: Bytes, e: Engine, w: nat, n: nat, e': Engine)
    requires ClaimedOk(src, e) && w in e.workers && ReadStep(src, e, w, n, e')
    ensures w in e'.workers && e'.workers == e.workers[w := e'.workers[w]]
    ensures Stage(e.workers[w].pc) == 8 && Stage(e'.workers[w].pc) <= 13
    ensures Stage(e'.workers[w].pc) > 7 ==> e'.claimed != e.claimed
  {
    var c := e.s.chunks[e.workers[w].pc.c];
    if !e'.workers[w].pc.stop {
      assert Unclaimed(e.s.chunks, c.Cursor());
      assert c.Cursor() !in e.claimed && c.Cursor() in e'.claimed;
    }
  }

  lemma ReadWork(src: Bytes, e: Engine, w: nat, k: nat, e': Engine)
    requires Valid(e.s, |src|) && w in e.workers && ReadStep(src, e, w, k, e')
    ensures Work(e'.s) <= Work(e.s)
  {
    WorkerLeavesPending(src, e, Read(w, k), w, e');
    WorkerBudget(src, e, Read(w, k), w, e');
  }

  lemma ReadSpends(src: Bytes, e: Engine, w: nat, k: nat, e': Engine, n: nat)
    requires Inv(src, e) && Below(e, n) && w in e.workers && ReadStep(src, e, w, k, e')
    ensures Below(e', n)
    ensures Measure(src, e', n) + 1 <= Measure(src, e, n)
  {
    ReadWork(src, e, w, k, e');
    ReadClaimsSomething(src, e, w, k, e');
    ReadTakesFree(src, e, w, k, e');
    ReadAdds(src, e, w, e', n);
  }

  lemma ReadAdds(src: Bytes, e: Engine, w: nat, e': Engine, n: nat)
    requires Work(e'.s) <= Work(e.s) && Below(e, n)
    requires w in e.workers && w in e'.workers && e'.workers == e.workers[w := e'.workers[w]]
    requires Stage(e.workers[w].pc) == 8 && Stage(e'.workers[w].pc) <= 13
    requires Stage(e'.workers[w].pc) > 7 ==> e'.claimed != e.claimed
    requires |StillFree(src, e')| + (if e'.claimed == e.claimed then 0 else 1) <= |StillFree(src, e)|
    ensures Measure(src, e', n) + 1 <= Measure(src, e, n)
  {
    StageChanges(e.workers, w, e'.workers[w], n);
  }

  lemma NextSpends(src: Bytes, e: Engine, w: nat, v: nat, r: Granted, e': Engine, n: nat)
    requires Shape(e.s) && Below(e, n) && w in e.workers && NextStep(e, w, v, r, e')
    ensures Below(e', n)
    ensures Measure(src, e', n) + 1 <= Measure(src, e, n)
  {
    NextWork(e.s, w, v, r, e'.s);
    NextStages(e, w, v, r, e', n);
    assert StillFree(src, e') == StillFree(src, e);
  }

  lemma NextStages(e: Engine, w: nat, v: nat, r: Granted, e': Engine, n: nat)
    requires Below(e, n) && w in e.workers && NextStep(e, w, v, r, e')
    ensures Below(e', n) && e'.claimed == e.claimed
    ensures StageSum(e'.workers, n) == StageSum(e.workers, n) + if r.Granted? then 7 else -3
  {
    var x := Worker(if r == Nothing then Exited else Fetch(r.id), e.workers[w].retired);
    assert e'.workers == e.workers[w := x];
    StageChanges(e.workers, w, x, n);
  }

  lemma NextWork(s: Sched, w: nat, v: nat, r: Granted, s': Sched)
    requires Shape(s) && Next(s, w, v, r, s')
    ensures Work(s') <= Work(s) - if r.Granted? then 1 else 0
  {
    NextBudget(s, w, v, r, s');
    NextPending(s, w, v, r, s');
  }

  lemma NextPending(s: Sched, w: nat, v: nat, r: Granted, s': Sched)
    requires Next(s, w, v, r, s')
    ensures |s'.pending| == |s.pending| - if r.Granted? && s.pending != [] then 1 else 0
  {
  }

  lemma {:induction false} MoveAllPending(s: Sched, order: seq<nat>, s': Sched)
    requires MoveAll(s, order, s')
    ensures |s'.pending| == |s.pending| + |order|
    decreases |order|
  {
    if order != [] { MoveAllPending(Move(s, order[0]), order[1..], s'); }
  }

  lemma RetireSpends(src: Bytes, e: Engine, keep: int, vs: seq<nat>, order: seq<nat>, e': Engine, n: nat)
    requires Inv(src, e) && Below(e, n) && RetireStep(e, keep, vs, order, e')
    ensures Below(e', n)
    ensures Measure(src, e', n) <= Measure(src, e, n) + 8 * |order|
  {
    StepBudget(src, e, Retire(keep, vs, order), e');
    if vs != [] { MoveAllPending(MarkRetiring(e.s, keep, vs), order, e'.s); }
  }

  lemma StepSpends(src: Bytes, e: Engine, op: Op, e': Engine, n: nat)
    requires Inv(src, e) && Below(e, n) && Step(src, e, op, e') && (op.Spawn? ==> op.w < n)
    ensures Below(e', n)
    ensures Measure(src, e', n) + 1 <= Measure(src, e, n) + Allowance(e, op)
  {
    if op.Spawn? {
      StageChanges(e.workers, op.w, Worker(Idle, false), n);
    } else if op.Retire? {
      RetireSpends(src, e, op.keep, op.vs, op.order, e', n);
    } else if op.Wake? {
      if op.w in e.workers { StageChanges(e.workers, op.w, e'.workers[op.w], n); }
    } else if op.Cancel? {
    } else if op.NextChunk? {
      NextSpends(src, e, op.w, op.v, op.r, e', n);
    } else if op.Read? {
      ReadSpends(src, e, op.w, op.n, e', n);
    } else {
      WorkerSpends(src, e, op, e', n);
    }
  }

  // ---- a run is as long as it is paid for ----

  function AllowanceSum(es: seq<Engine>, ops: seq<Op>, k: nat): nat
    requires k <= |ops| <= |es|
  {
    if k == 0 then 0 else AllowanceSum(es, ops, k - 1) + Allowance(es[k - 1], ops[k - 1])
  }

  predicate SpawnsBelow(ops: seq<Op>, n: nat) { forall i :: 0 <= i < |ops| && ops[i].Spawn? ==> ops[i].w < n }

  lemma {:induction false} RunSpends(src: Bytes, es: seq<Engine>, ops: seq<Op>, n: nat, k: nat)
    requires RunFrom(src, es, ops) && SpawnsBelow(ops, n) && k <= |ops|
    ensures Below(es[k], n)
    ensures k + Measure(src, es[k], n) <= Measure(src, es[0], n) + AllowanceSum(es, ops, k)
  {
    if k > 0 {
      RunSpends(src, es, ops, n, k - 1);
      RunStepSpends(src, es, ops, n, k - 1);
    }
  }

  lemma RunStepSpends(src: Bytes, es: seq<Engine>, ops: seq<Op>, n: nat, i: nat)
    requires RunFrom(src, es, ops) && SpawnsBelow(ops, n) && i < |ops| && Below(es[i], n)
    ensures Below(es[i + 1], n)
    ensures Measure(src, es[i + 1], n) + 1 <= Measure(src, es[i], n) + Allowance(es[i], ops[i])
  {
    Reached(src, es, ops, i);
    assert StepAt(src, es, ops, i);
    StepSpends(src, es[i], ops[i], es[i + 1], n);
  }

  lemma {:induction false} StagesNonNegative(ws: map<nat, Worker>, n: nat)
    ensures 0 <= StageSum(ws, n)
  {
    if n > 0 { StagesNonNegative(ws, n - 1); }
  }

  lemma MeasureBounds(src: Bytes, e: Engine, n: nat)
    requires Valid(e.s, |src|)
    ensures e.s.minSize >= 1
    ensures 0 <= Measure(src, e, n) <= 6 * |src| + 8 * (|e.s.pending| + |src| / e.s.minSize) + StageSum(e.workers, n)
  {
    BudgetOfAll(e.s, |src|);
    IntervalSize(0, |src|);
    SubsetSize(StillFree(src, e), Interval(0, |src|));
    StagesNonNegative(e.workers, n);
  }

  /** A run without faults has at most 6 steps a byte and 8 a chunk that can
      ever be handed out; a spawn, a demotion, a wake-up, the run's cancellation
      and a request that has to be repeated add what they allow, and nothing
      else does: a capped range, however short, is paid for by its bytes. */
  lemma EveryRunDrains(src: Bytes, es: seq<Engine>, ops: seq<Op>)
    requires RunFrom(src, es, ops)
    ensures es[0].s.minSize >= 1
    ensures |ops| <= 6 * |src| + 8 * (|es[0].s.pending| + |src| / es[0].s.minSize) + AllowanceSum(es, ops, |ops|)
  {
    var n := AboveSpawns(ops, |ops|);
    RunSpends(src, es, ops, n, |ops|);
    Reached(src, es, ops, 0);
    Reached(src, es, ops, |ops|);
    MeasureBounds(src, es[0], n);
    MeasureBounds(src, es[|ops|], n);
    NoStages(n);
  }

  function AboveSpawns(ops: seq<Op>, k: nat): (n: nat)
    requires k <= |ops|
    ensures forall i :: 0 <= i < k && ops[i].Spawn? ==> ops[i].w < n
  {
    if k == 0 then 0
    else
      var n := AboveSpawns(ops, k - 1);
      if ops[k - 1].Spawn? && ops[k - 1].w >= n then ops[k - 1].w + 1 else n
  }

  // ---- somebody can always go on ----

  /** A step with nothing going wrong: no failed write or repeated request, no
      refused response, and nobody is told to stop. */
  predicate Benign(src: Bytes, e: Engine, op: Op) {
    if op.Respond? then
      && op.w in e.workers && e.workers[op.w].pc.Asked?
      && Accepts(op.resp, e.workers[op.w].pc.cursor, e.workers[op.w].pc.requested, |src|)
    else if op.Retry? then CappedRetry(e, op)
    else !op.GiveUp? && !op.WriteError? && !op.Spawn? && !op.Cancel? && !op.Retire? && !op.Wake? && !op.Quit?
  }

  lemma {:induction false} LargestExists(m: Chunks, ids: set<nat>) returns (v: nat)
    requires ids != {} && forall id :: id in ids ==> id in m
    ensures Largest(m, ids, v)
    decreases |ids|
  {
    v :| v in ids;
    if ids != {v} {
      var u := LargestExists(m, ids - {v});
      if m[u].Remaining() > m[v].Remaining() { v := u; }
    }
  }

  lemma NextExists(s: Sched, w: nat) returns (v: nat, r: Granted, s': Sched)
    requires Shape(s)
    ensures Next(s, w, v, r, s')
  {
    var s1 := Register(s, w);
    v, r := 0, Nothing;
    if Refused(s1, w) {
      s' := Deregister(s1, w);
    } else if |s.pending| > 0 {
      assert s.pending[0] in s.chunks;
      r, s' := Granted(s.pending[0]), GrantPending(s1, w);
    } else if s.active == {} {
      s' := Deregister(s1, w);
    } else {
      v := LargestExists(s.chunks, s.active);
      if s.chunks[v].Remaining() >= 2 * s.minSize {
        r, s' := Granted(s.nextID), Steal(s1, v, w);
      } else {
        s' := Deregister(s1, w);
      }
    }
  }

  lemma ClaimSizeFits(c: Chunk, total: int)
    requires ChunkOk(c, total)
    ensures 0 <= ClaimSize(c, 1) <= 1
  {
  }

  lemma ReadOn(src: Bytes, e: Engine, w: nat) returns (e': Engine)
    requires w in e.workers && e.workers[w].pc.Body? && e.workers[w].pc.pos < e.workers[w].pc.lim
    requires PcOk(src, e.file, e.s, w, e.workers[w].pc) && ChunkOk(e.s.chunks[e.workers[w].pc.c], |src|)
    ensures ReadStep(src, e, w, 1, e')
  {
    var pc := e.workers[w].pc;
    var c := e.s.chunks[pc.c];
    ClaimSizeFits(c, |src|);
    var k := ClaimSize(c, 1);
    var data := src[pc.pos..pc.pos + 1][..k];
    e' := e.(s := Claim(e.s, pc.c, 1),
             claimed := e.claimed + Interval(c.Cursor(), c.Cursor() + k),
             workers := SetPc(e, w, Claimed(pc.c, c.Cursor(), data, c.Cursor() + k >= c.end, pc.pos + 1, pc.lim)));
  }

  lemma RespondOn(src: Bytes, e: Engine, w: nat) returns (resp: Response, e': Engine)
    requires w in e.workers && e.workers[w].pc.Asked? && PcOk(src, e.file, e.s, w, e.workers[w].pc)
    ensures RespondStep(src, e, w, resp, e') && Benign(src, e, Respond(w, resp))
  {
    var pc := e.workers[w].pc;
    resp := Response(pc.cursor, pc.requested - 1, |src|);
    e' := e.(workers := SetPc(e, w, Body(pc.c, resp.first, Min(resp.last + 1, pc.end))));
  }

  lemma NextOn(src: Bytes, e: Engine, w: nat) returns (op: Op, e': Engine)
    requires Inv(src, e) && w in e.workers && e.workers[w].pc.Idle?
    ensures op.NextChunk? && op.w == w && NextStep(e, w, op.v, op.r, e')
  {
    var v, r, s' := NextExists(e.s, w);
    op := NextChunk(w, v, r);
    e' := e.(s := s', registered := true, workers := SetPc(e, w, if r == Nothing then Exited else Fetch(r.id)));
  }

  /** Where a worker is, and what it can do next. */
  function Onward(e: Engine, w: nat): Op
    requires w in e.workers
  {
    var pc := e.workers[w].pc;
    if pc.Fetch? then Attempt(w)
    else if pc.Body? then Retry(w)
    else if pc.Claimed? then WriteOut(w)
    else if pc.Wrote? then CreditWritten(w)
    else if pc.Finish? || pc.Netted? then Done(w)
    else if pc.Reporting? then Report(w)
    else if pc.Left? then Settle(w)
    else if pc.Unretired? then Resign(w)
    else if pc.Leaving? then Leave(w)
    else Fail(w)
  }

  lemma PlainOn(src: Bytes, e: Engine, w: nat) returns (e': Engine)
    requires w in e.workers && PcOk(src, e.file, e.s, w, e.workers[w].pc)
    requires var pc := e.workers[w].pc; !pc.Idle? && !pc.Asked? && !pc.Exited? && (pc.Body? ==> pc.pos >= pc.lim)
    ensures WorkerStep(src, e, Onward(e, w), w, e') && Benign(src, e, Onward(e, w))
  {
    var pc := e.workers[w].pc;
    if pc.Fetch? {
      var c := e.s.chunks[pc.c];
      e' := e.(workers := SetPc(e, w, if c.Drained() then Finish(pc.c) else Asked(pc.c, c.Cursor(), c.end, c.end)));
    } else if pc.Body? {
      e' := e.(workers := SetPc(e, w, Fetch(pc.c)));
    } else if pc.Claimed? {
      e' := e.(file := Overwrite(e.file, pc.at, pc.data),
               workers := SetPc(e, w, Wrote(pc.c, pc.at, |pc.data|, pc.stop, pc.pos, pc.lim)));
    } else if pc.Wrote? {
      e' := e.(s := Credit(e.s, pc.c, pc.n),
               workers := SetPc(e, w, if pc.stop then Finish(pc.c) else Body(pc.c, pc.pos, pc.lim)));
    } else if pc.Finish? || pc.Netted? {
      e' := e.(s := Complete(e.s, pc.c), workers := SetPc(e, w, Reporting(pc.c, pc.Netted?)));
    } else if pc.Reporting? {
      e' := e.(reported := e.reported + [pc.c], workers := SetPc(e, w, if pc.last then Leaving(false) else Idle));
    } else if pc.Left? {
      e' := SettleOn(e, w);
    } else if pc.Unretired? {
      e' := if e.workers[w].retired then e.(lost := e.lost + {pc.c}, workers := SetPc(e, w, Leaving(false)))
            else e.(workers := SetPc(e, w, Leaving(true)));
    } else if pc.Leaving? {
      e' := e.(s := Deregister(e.s, w), workers := SetPc(e, w, if pc.failing then Failing else Exited));
    } else {
      e' := e.(cancelled := true, workers := SetPc(e, w, Exited));
    }
  }

  lemma SettleOn(e: Engine, w: nat) returns (e': Engine)
    requires w in e.workers && e.workers[w].pc.Left? && e.workers[w].pc.c in e.s.chunks
    ensures SettleStep(e, w, e')
  {
    var pc := e.workers[w].pc;
    e' := e.(workers := SetPc(e, w,
      if !e.workers[w].retired then Unretired(pc.c, pc.permanent)
      else if !pc.permanent && NetHolds(e.s.chunks[pc.c]) then Netted(pc.c)
      else Leaving(true)));
  }

  /** No worker is ever stuck: whoever has not left can take a step, with
      nothing going wrong. */
  lemma NobodyIsStuck(src: Bytes, e: Engine, w: nat) returns (op: Op, e': Engine)
    requires Inv(src, e) && w in e.workers && !e.workers[w].pc.Exited?
    ensures Step(src, e, op, e') && Benign(src, e, op)
  {
    var pc := e.workers[w].pc;
    assert PcOk(src, e.file, e.s, w, pc);
    if pc.Idle? {
      op, e' := NextOn(src, e, w);
    } else if pc.Asked? {
      var resp;
      resp, e' := RespondOn(src, e, w);
      op := Respond(w, resp);
    } else if pc.Body? && pc.pos < pc.lim {
      assert ChunkOk(e.s.chunks[pc.c], |src|);
      e' := ReadOn(src, e, w);
      op := Read(w, 1);
    } else {
      e' := PlainOn(src, e, w);
      op := Onward(e, w);
    }
  }

  // ---- so a run that nothing goes wrong in completes ----

  /** Nothing benign can happen any more. */
  ghost predicate Quiet(src: Bytes, e: Engine) {
    forall op, e' :: Step(src, e, op, e') ==> !Benign(src, e, op)
  }

  lemma QuietHasLeft(src: Bytes, e: Engine, w: nat)
    requires Inv(src, e) && Quiet(src, e) && w in e.workers
    ensures e.workers[w].pc.Exited?
  {
    if !e.workers[w].pc.Exited? {
      var op, e' := NobodyIsStuck(src, e, w);
    }
  }

  /** A run that was spawned, went on until nothing could happen, and was
      neither stopped nor failed, has only lost chunks left; it is complete
      exactly if no error was swallowed. */
  lemma QuietRunIsComplete(src: Bytes, es: seq<Engine>, ops: seq<Op>)
    requires RunFrom(src, es, ops) && Quiet(src, es[|ops|])
    requires es[|ops|].workers != map[] && !es[|ops|].cancelled
    ensures AllLeft(es[|ops|]) && es[|ops|].s.pending == []
    ensures SchedIdle(es[|ops|].s) <==> NoneSwallowed(es, ops)
    ensures SchedIdle(es[|ops|].s) ==> es[|ops|].file == src
  {
    Reached(src, es, ops, |ops|);
    var e := es[|ops|];
    forall w | w in e.workers ensures e.workers[w].pc.Exited? {
      QuietHasLeft(src, e, w);
    }
    FinishedRunIsComplete(src, es, ops);
  }

  /** Nobody has an error in hand, and the run was not stopped. */
  ghost predicate Steady(e: Engine) {
    !e.cancelled && forall w :: w in e.workers ==> SteadyPc(e.workers[w].pc)
  }

  predicate SteadyPc(pc: Pc) { !pc.Left? && !pc.Unretired? && pc != Leaving(true) && !pc.Failing? }

  lemma BenignStaysSteady(src: Bytes, e: Engine, op: Op, e': Engine)
    requires Steady(e) && Step(src, e, op, e') && Benign(src, e, op)
    ensures Steady(e') && e'.workers.Keys == e.workers.Keys && e'.lost == e.lost && Allowance(e, op) == 0
  {
    BenignPc(src, e, op, e');
  }

  lemma BenignPc(src: Bytes, e: Engine, op: Op, e': Engine)
    requires Steady(e) && Step(src, e, op, e') && Benign(src, e, op)
    ensures !op.Cancel? && !op.Retire? && op.w in e.workers && op.w in e'.workers && Allowance(e, op) == 0
    ensures e'.workers == e.workers[op.w := e'.workers[op.w]] && SteadyPc(e'.workers[op.w].pc)
    ensures !e'.cancelled && e'.lost == e.lost
  {
  }

  ghost predicate BenignRun(src: Bytes, es: seq<Engine>, ops: seq<Op>) {
    Run(src, es, ops) && forall i :: 0 <= i < |ops| ==> Benign(src, es[i], ops[i])
  }

  lemma RunOn(src: Bytes, e: Engine, op: Op, es: seq<Engine>, ops: seq<Op>)
    requires BenignRun(src, es, ops) && Step(src, e, op, es[0]) && Benign(src, e, op)
    ensures BenignRun(src, [e] + es, [op] + ops)
    ensures ([e] + es)[0] == e && ([e] + es)[|ops| + 1] == es[|ops|]
  {
    var es', ops' := [e] + es, [op] + ops;
    forall i | 0 <= i < |ops'| ensures StepAt(src, es', ops', i) && Benign(src, es'[i], ops'[i]) {
      if i > 0 { assert StepAt(src, es, ops, i - 1); }
    }
  }

  /** A steady state of a run, with the worker ids below n and somebody there. */
  ghost predicate OnCourse(src: Bytes, e: Engine, n: nat) {
    Inv(src, e) && Steady(e) && Below(e, n) && e.workers != map[]
  }

  lemma StepOn(src: Bytes, e: Engine, n: nat, w: nat) returns (op: Op, e': Engine)
    requires OnCourse(src, e, n) && w in e.workers && !e.workers[w].pc.Exited?
    ensures Step(src, e, op, e') && Benign(src, e, op) && OnCourse(src, e', n) && e'.lost == e.lost
    ensures 0 <= Measure(src, e', n) < Measure(src, e, n)
  {
    op, e' := NobodyIsStuck(src, e, w);
    BenignStaysSteady(src, e, op, e');
    StepKeeps(src, e, op, e');
    StepSpends(src, e, op, e', n);
    MeasureBounds(src, e', n);
  }

  lemma OnCourseSize(src: Bytes, e: Engine, n: nat)
    requires OnCourse(src, e, n)
    ensures 0 <= Measure(src, e, n) && !e.cancelled
  {
    MeasureBounds(src, e, n);
  }

  /** From any steady state within a run the run can be completed, in as many
      steps as the measure says, with no further chunk lost. */
  lemma {:induction false} CanFinish(src: Bytes, e: Engine, n: nat) returns (es: seq<Engine>, ops: seq<Op>)
    requires OnCourse(src, e, n)
    ensures BenignRun(src, es, ops) && es[0] == e && |ops| <= Measure(src, e, n)
    ensures AllLeft(es[|ops|]) && !es[|ops|].cancelled && es[|ops|].lost == e.lost
    decreases Measure(src, e, n)
  {
    OnCourseSize(src, e, n);
    if AllLeft(e) {
      es, ops := [e], [];
    } else {
      var w :| w in e.workers && !e.workers[w].pc.Exited?;
      var op, e' := StepOn(src, e, n, w);
      var rest, restOps := CanFinish(src, e', n);
      RunOn(src, e, op, rest, restOps);
      es, ops := [e] + rest, [op] + restOps;
    }
  }

  /** Wherever a run is in which nobody has an error in hand, it can go on with
      nothing going wrong until everybody has left; nothing but the chunks lost
      so far is left then, and if there are none the file is complete. */
  lemma EverySteadyRunCanComplete(src: Bytes, es: seq<Engine>, ops: seq<Op>)
    returns (more: seq<Engine>, moreOps: seq<Op>)
    requires RunFrom(src, es, ops) && Steady(es[|ops|]) && es[|ops|].workers != map[]
    ensures BenignRun(src, more, moreOps) && more[0] == es[|ops|]
    ensures AllLeft(more[|moreOps|]) && !more[|moreOps|].cancelled
    ensures more[|moreOps|].s.pending == [] && more[|moreOps|].s.active == es[|ops|].lost
    ensures NoneSwallowed(es, ops) ==> more[|moreOps|].file == src
  {
    var n := AboveSpawns(ops, |ops|);
    Reached(src, es, ops, |ops|);
    RunSpends(src, es, ops, n, |ops|);
    more, moreOps := CanFinish(src, es[|ops|], n);
    RunKeeps(src, more, moreOps, |moreOps|);
    LeftIsLost(src, more[|moreOps|]);
    LostExactly(src, es, ops);
  }
}
