/** What a whole run guarantees, whatever the interleaving. */
module Guarantees {
  import opened Intervals
  import opened SchedulerModel
  import opened SchedulerLaws
  import opened Engine
  import opened EngineLaws

  /** Before the first worker is spawned: everything that is not pending is
      already right in the file. */
  ghost predicate Initial(src: Bytes, e: Engine) {
    && Valid(e.s, |src|) && e.s.live == {} && e.s.retiring == {} && e.s.active == {} && e.s.limit == 0
    && FileOk(src, e) && ClaimedOk(src, e)
    && e.workers == map[] && e.victims == {} && !e.cancelled && !e.registered
    && e.reported == [] && e.lost == {}
  }

  lemma InitialInv(src: Bytes, e: Engine)
    requires Initial(src, e)
    ensures Inv(src, e)
  {
  }

  ghost predicate RunFrom(src: Bytes, es: seq<Engine>, ops: seq<Op>) {
    Run(src, es, ops) && Initial(src, es[0])
  }

  lemma Reached(src: Bytes, es: seq<Engine>, ops: seq<Op>, i: nat)
    requires RunFrom(src, es, ops) && i < |es|
    ensures Inv(src, es[i])
  {
    InitialInv(src, es[0]);
    RunKeeps(src, es, ops, i);
  }

  /** wg.Wait returned: at least one worker ran and all have left. */
  ghost predicate AllLeft(e: Engine) {
    e.workers != map[] && forall w :: w in e.workers ==> e.workers[w].pc.Exited?
  }

  predicate SchedIdle(s: Sched) { s.pending == [] && s.active == {} }

  lemma LeftIsLost(src: Bytes, e: Engine)
    requires Inv(src, e) && AllLeft(e) && !e.cancelled
    ensures e.s.pending == [] && e.s.active == e.lost && e.s.chunks.Keys == e.lost
    ensures forall id :: id in e.s.chunks ==> e.s.chunks[id].Drained()
    ensures e.lost == {} ==> e.file == src
  {
    assert Healthy(e);
    assert forall w :: w !in e.s.live;
    var w :| w in e.workers;
    assert e.registered;
    assert NonRetiring(e.s) == {};
    assert forall id :: id in e.s.active ==> id in e.s.chunks;
    assert forall id :: id in e.s.active ==> id in e.lost;
    if e.lost == {} {
      assert forall b :: !Owed(e.s.chunks, b);
      forall b | 0 <= b < |src| ensures e.file[b] == src[b] { assert RightAt(src, e.file, b); }
    }
  }

  // ---- the error that is taken for noise ----

  /** At step i a worker with an error in hand, whose context held no retirement
      when run() first looked, is retired by the time run() looks again. */
  predicate Swallows(es: seq<Engine>, ops: seq<Op>, i: nat)
    requires i < |ops| && i < |es|
  {
    ops[i].Resign? && ops[i].w in es[i].workers && es[i].workers[ops[i].w].retired
  }

  predicate Loses(es: seq<Engine>, ops: seq<Op>, i: nat, id: nat)
    requires i < |ops| && i < |es|
  {
    Swallows(es, ops, i) && es[i].workers[ops[i].w].pc.Unretired? && es[i].workers[ops[i].w].pc.c == id
  }

  ghost predicate NoneSwallowed(es: seq<Engine>, ops: seq<Op>) {
    |es| >= |ops| && forall i {:trigger Swallows(es, ops, i)} :: 0 <= i < |ops| ==> !Swallows(es, ops, i)
  }

  lemma LostStep(src: Bytes, e: Engine, op: Op, e': Engine)
    requires Step(src, e, op, e')
    ensures op.Resign? && op.w in e.workers && e.workers[op.w].retired ==>
      e.workers[op.w].pc.Unretired? && e'.lost == e.lost + {e.workers[op.w].pc.c}
    ensures !(op.Resign? && op.w in e.workers && e.workers[op.w].retired) ==> e'.lost == e.lost
  {
    if op.Resign? { assert ResignStep(e, op.w, e'); }
  }

  /** The chunks lost up to a state are those of the errors swallowed up to it. */
  lemma {:induction false} LostAreSwallowed(src: Bytes, es: seq<Engine>, ops: seq<Op>, i: nat, id: nat)
    requires RunFrom(src, es, ops) && i < |es|
    ensures id in es[i].lost <==> exists j :: 0 <= j < i && Loses(es, ops, j, id)
  {
    if i > 0 {
      LostAreSwallowed(src, es, ops, i - 1, id);
      assert StepAt(src, es, ops, i - 1);
      LostStep(src, es[i - 1], ops[i - 1], es[i]);
      assert Loses(es, ops, i - 1, id) <==> Swallows(es, ops, i - 1) && es[i - 1].workers[ops[i - 1].w].pc.c == id;
    }
  }

  lemma LostExactly(src: Bytes, es: seq<Engine>, ops: seq<Op>)
    requires RunFrom(src, es, ops)
    ensures es[|ops|].lost == {} <==> NoneSwallowed(es, ops)
  {
    forall i | 0 <= i < |ops| && Swallows(es, ops, i) ensures es[|ops|].lost != {} {
      assert StepAt(src, es, ops, i);
      LostStep(src, es[i], ops[i], es[i + 1]);
      var id := es[i].workers[ops[i].w].pc.c;
      assert Loses(es, ops, i, id);
      LostAreSwallowed(src, es, ops, |ops|, id);
    }
    if NoneSwallowed(es, ops) {
      forall id ensures id !in es[|ops|].lost { LostAreSwallowed(src, es, ops, |ops|, id); }
    }
  }

  /** When every worker has left, no error was reported and nobody stopped the
      run: nothing is pending and whatever remains is claimed; nothing remains at
      all exactly if no worker's error was swallowed; and if nothing remains,
      the staged file is the source, byte for byte. */
  lemma FinishedRunIsComplete(src: Bytes, es: seq<Engine>, ops: seq<Op>)
    requires RunFrom(src, es, ops)
    requires AllLeft(es[|ops|]) && !es[|ops|].cancelled
    ensures es[|ops|].s.pending == []
    ensures forall id :: id in es[|ops|].s.active ==> id in es[|ops|].s.chunks && es[|ops|].s.chunks[id].Drained()
    ensures SchedIdle(es[|ops|].s) <==> NoneSwallowed(es, ops)
    ensures SchedIdle(es[|ops|].s) ==> es[|ops|].file == src
  {
    Reached(src, es, ops, |ops|);
    LeftIsLost(src, es[|ops|]);
    LostExactly(src, es, ops);
  }

  /** Work never strands: while nothing has failed and no one was stopped,
      pending work has a worker that will come back for it, and every byte of an
      active chunk that is not claimed yet belongs to a worker that holds it. */
  lemma NoWorkStrands(src: Bytes, es: seq<Engine>, ops: seq<Op>, i: nat)
    requires RunFrom(src, es, ops) && i < |es| && Healthy(es[i]) && es[i].registered
    ensures var e := es[i];
      && (e.s.pending != [] ==> exists w :: w in NonRetiring(e.s) && w in e.workers && !e.workers[w].pc.Gone())
      && (forall id :: id in e.s.active && id in e.s.chunks && !e.s.chunks[id].Drained() ==>
            var w := e.s.chunks[id].owner;
            w in NonRetiring(e.s) && w in e.workers && e.workers[w].pc.HasChunk() && e.workers[w].pc.c == id)
  {
    Reached(src, es, ops, i);
    var e := es[i];
    if e.s.pending != [] {
      var w :| w in NonRetiring(e.s);
      assert w in e.s.live;
      assert e.workers[w].pc != Leaving(true);
      assert !e.workers[w].pc.Gone();
    }
  }

  /** The branch run() calls structurally unreachable is unreachable: whoever is
      found retired at run()'s first look, with anything but a permanent error,
      passes the net's check. */
  lemma RetiredWorkerNeverLeavesAGap(src: Bytes, es: seq<Engine>, ops: seq<Op>, i: nat, w: nat)
    requires RunFrom(src, es, ops) && i < |ops| && ops[i] == Settle(w)
    requires w in es[i].workers && es[i].workers[w].retired
    ensures es[i].workers[w].pc.Left?
    ensures !es[i].workers[w].pc.permanent ==>
      w in es[i + 1].workers && es[i + 1].workers[w].pc == Netted(es[i].workers[w].pc.c)
  {
    Reached(src, es, ops, i);
    assert StepAt(src, es, ops, i);
    if !es[i].workers[w].pc.permanent { RetirementNetHolds(src, es[i], w); }
  }

  /** Such a worker completes its chunk before it does anything else. */
  lemma {:induction false} NettedIsCompleted(src: Bytes, es: seq<Engine>, ops: seq<Op>, i: nat, j: nat, w: nat)
    requires RunFrom(src, es, ops) && i <= j < |es| && w in es[i].workers && es[i].workers[w].pc.Netted?
    ensures w in es[j].workers
    ensures var c := es[i].workers[w].pc.c;
      es[j].workers[w].pc == Netted(c) || (c < es[j].s.nextID && c !in es[j].s.chunks)
    decreases j
  {
    Reached(src, es, ops, i);
    assert PcOk(src, es[i].file, es[i].s, w, es[i].workers[w].pc);
    if i < j {
      NettedIsCompleted(src, es, ops, i, j - 1, w);
      assert StepAt(src, es, ops, j - 1);
      Reached(src, es, ops, j - 1);
      StepFresh(src, es[j - 1], ops[j - 1], es[j]);
      NettedStep(src, es[j - 1], ops[j - 1], es[j], w);
    }
  }

  lemma NettedStep(src: Bytes, e: Engine, op: Op, e': Engine, w: nat)
    requires Step(src, e, op, e') && w in e.workers
    ensures w in e'.workers
    ensures e.workers[w].pc.Netted? ==>
      e'.workers[w].pc == e.workers[w].pc || e'.s == Complete(e.s, e.workers[w].pc.c)
  {
    if op.Wake? {
      assert WakeStep(e, op.w, e');
    } else if !op.Spawn? && !op.Cancel? && !op.Retire? {
      OneWorkerSteps(src, e, op, op.w, e');
      if op.w == w && e.workers[w].pc.Netted? { NettedOwnStep(src, e, op, w, e'); }
    }
  }

  lemma OneWorkerSteps(src: Bytes, e: Engine, op: Op, w: nat, e': Engine)
    requires w in e.workers && WorkerStep(src, e, op, w, e')
    ensures w in e'.workers && e'.workers == e.workers[w := e'.workers[w]]
  {
  }

  lemma NettedOwnStep(src: Bytes, e: Engine, op: Op, w: nat, e': Engine)
    requires w in e.workers && e.workers[w].pc.Netted? && WorkerStep(src, e, op, w, e')
    ensures e'.s == Complete(e.s, e.workers[w].pc.c)
  {
    assert op.Done?;
  }

  /** A chunk that is gone does not come back: new chunks have new ids. */
  ghost predicate Fresh(s: Sched, s': Sched) {
    s.nextID <= s'.nextID && forall id :: id in s'.chunks && id !in s.chunks ==> id >= s.nextID
  }

  lemma {:induction false} MoveAllFresh(s: Sched, order: seq<nat>, s': Sched)
    requires MoveAll(s, order, s')
    ensures Fresh(s, s')
    decreases |order|
  {
    if order != [] { MoveAllFresh(Move(s, order[0]), order[1..], s'); }
  }

  lemma NextFresh(s: Sched, w: nat, v: nat, r: Granted, s': Sched)
    requires Next(s, w, v, r, s')
    ensures Fresh(s, s')
  {
  }

  lemma WorkerFresh(src: Bytes, e: Engine, op: Op, w: nat, e': Engine)
    requires w in e.workers && WorkerStep(src, e, op, w, e') && !op.NextChunk?
    ensures Fresh(e.s, e'.s)
  {
    WorkerSched(src, e, op, w, e');
  }

  lemma StepFresh(src: Bytes, e: Engine, op: Op, e': Engine)
    requires Step(src, e, op, e')
    ensures Fresh(e.s, e'.s)
  {
    if op.Retire? {
      if op.vs != [] { MoveAllFresh(MarkRetiring(e.s, op.keep, op.vs), op.order, e'.s); }
    } else if op.NextChunk? {
      NextFresh(e.s, op.w, op.v, op.r, e'.s);
    } else if !op.Spawn? && !op.Cancel? && !op.Wake? {
      WorkerFresh(src, e, op, op.w, e');
    }
  }

  /** Wherever a body is being read, the read position is the claim cursor, and
      every write puts the source's bytes at the claimed offset. */
  lemma WritesAreInPlace(src: Bytes, es: seq<Engine>, ops: seq<Op>, i: nat, w: nat)
    requires RunFrom(src, es, ops) && i < |es| && w in es[i].workers
    ensures var e := es[i]; var pc := e.workers[w].pc;
      && (pc.Body? ==> pc.c in e.s.chunks && pc.pos == e.s.chunks[pc.c].Cursor())
      && (pc.Claimed? ==> 0 <= pc.at && pc.at + |pc.data| <= |src| && pc.data == src[pc.at..pc.at + |pc.data|])
  {
    Reached(src, es, ops, i);
    assert PcOk(src, es[i].file, es[i].s, w, es[i].workers[w].pc);
  }

  predicate Spans(m: Chunks, id: nat, b: int) {
    id in m && m[id].off <= b < m[id].end
  }

  /** Claimed and unclaimed bytes split the file at every moment, and no two
      chunks offer the same byte. */
  lemma ClaimsPartition(src: Bytes, es: seq<Engine>, ops: seq<Op>, i: nat, b: int)
    requires RunFrom(src, es, ops) && i < |es| && 0 <= b < |src|
    ensures b in es[i].claimed <==> !Unclaimed(es[i].s.chunks, b)
    ensures forall j, k :: Spans(es[i].s.chunks, j, b) && Spans(es[i].s.chunks, k, b) ==> j == k
  {
    Reached(src, es, ops, i);
  }

  lemma ClaimedGrows(src: Bytes, e: Engine, op: Op, e': Engine)
    requires Step(src, e, op, e')
    ensures e.claimed <= e'.claimed
  {
    if op.Read? { assert ReadStep(src, e, op.w, op.n, e'); }
  }

  lemma {:induction false} ClaimedGrowsAlong(src: Bytes, es: seq<Engine>, ops: seq<Op>, i: nat, j: nat)
    requires Run(src, es, ops) && i <= j < |es|
    ensures es[i].claimed <= es[j].claimed
    decreases j
  {
    if i < j {
      ClaimedGrowsAlong(src, es, ops, i, j - 1);
      assert StepAt(src, es, ops, j - 1);
      ClaimedGrows(src, es[j - 1], ops[j - 1], es[j]);
    }
  }

  /** The bytes the read at step i takes. */
  ghost function Taken(es: seq<Engine>, i: nat): set<int>
    requires i + 1 < |es|
  {
    es[i + 1].claimed - es[i].claimed
  }

  /** No byte is claimed twice, by anybody, ever. A read's claim is exactly
      what it hands to WriteAt. */
  lemma NoByteClaimedTwice(src: Bytes, es: seq<Engine>, ops: seq<Op>, i: nat, j: nat, w: nat, n: nat, b: int)
    requires RunFrom(src, es, ops) && i < j < |ops| && ops[j] == Read(w, n)
    requires b in Taken(es, i)
    ensures w in es[j + 1].workers && es[j + 1].workers[w].pc.Claimed?
    ensures var pc := es[j + 1].workers[w].pc; !(pc.at <= b < pc.at + |pc.data|)
  {
    Reached(src, es, ops, j);
    assert StepAt(src, es, ops, j);
    ClaimedGrowsAlong(src, es, ops, i + 1, j);
    ReadClaims(src, es[j], w, n, es[j + 1]);
    assert b in es[j].claimed;
  }

  /** The bytes nobody has claimed yet. */
  ghost function StillFree(src: Bytes, e: Engine): set<int> { Interval(0, |src|) - e.claimed }

  lemma WorkersOnlyClaimByReading(src: Bytes, e: Engine, op: Op, w: nat, e': Engine)
    requires w in e.workers && WorkerStep(src, e, op, w, e') && !op.Read?
    ensures e'.claimed == e.claimed
  {
  }

  lemma ReadTakesFree(src: Bytes, e: Engine, w: nat, n: nat, e': Engine)
    requires Inv(src, e) && w in e.workers && ReadStep(src, e, w, n, e')
    ensures |StillFree(src, e')| + (if e'.claimed == e.claimed then 0 else 1) <= |StillFree(src, e)|
  {
    var c := e.s.chunks[e.workers[w].pc.c];
    assert ChunkOk(c, |src|);
    if e'.claimed != e.claimed {
      var b :| b in e'.claimed && b !in e.claimed;
      assert b in StillFree(src, e);
      SubsetSize(StillFree(src, e'), StillFree(src, e) - {b});
    }
  }

  // ---- the limit ----

  lemma {:induction false} InjectionSize(m: Chunks, ids: set<nat>, ws: set<nat>)
    requires forall id :: id in ids ==> id in m && m[id].owner in ws
    requires forall i, j :: i in ids && j in ids && i != j ==> m[i].owner != m[j].owner
    ensures |ids| <= |ws|
    decreases |ids|
  {
    if ids != {} {
      var id :| id in ids;
      InjectionSize(m, ids - {id}, ws - {m[id].owner});
    }
  }

  ghost function Undrained(s: Sched): set<nat> {
    set id | id in s.active && id in s.chunks && !s.chunks[id].Drained()
  }

  /** After any demotion the flows that still have bytes to claim are at most
      the limit, and a live worker that was not told to go is never refused. */
  lemma FlowsWithinLimit(src: Bytes, es: seq<Engine>, ops: seq<Op>, i: nat)
    requires RunFrom(src, es, ops) && i < |es| && es[i].s.limit > 0
    ensures |NonRetiring(es[i].s)| <= es[i].s.limit
    ensures Healthy(es[i]) ==> |Undrained(es[i].s)| <= es[i].s.limit
    ensures forall w :: w in NonRetiring(es[i].s) ==> !Refused(Register(es[i].s, w), w)
  {
    Reached(src, es, ops, i);
    var s := es[i].s;
    if Healthy(es[i]) {
      InjectionSize(s.chunks, Undrained(s), NonRetiring(s));
    }
    forall w | w in NonRetiring(s) ensures !Refused(Register(s, w), w) {
      StayingWorkerNotRefused(s, w);
    }
  }

  lemma WorkerLimit(src: Bytes, e: Engine, op: Op, w: nat, e': Engine)
    requires w in e.workers && WorkerStep(src, e, op, w, e') && !op.NextChunk?
    ensures e'.s.limit == e.s.limit
  {
    WorkerSched(src, e, op, w, e');
  }

  lemma LimitStep(src: Bytes, e: Engine, op: Op, e': Engine)
    requires Inv(src, e) && Step(src, e, op, e')
    ensures e'.s.limit == if op.Retire? then Lowered(e.s.limit, op.keep) else e.s.limit
  {
    if op.Retire? {
      DemoteKeeps(e.s, op.keep, op.vs, op.order, e'.s, |src|);
    } else if op.NextChunk? {
      NextCases(e.s, op.w, op.v, op.r, e'.s);
    } else if !op.Spawn? && !op.Cancel? && !op.Wake? {
      WorkerLimit(src, e, op, op.w, e');
    }
  }

  lemma RunLimit(src: Bytes, es: seq<Engine>, ops: seq<Op>, i: nat)
    requires RunFrom(src, es, ops) && i < |ops|
    ensures es[i + 1].s.limit == if ops[i].Retire? then Lowered(es[i].s.limit, ops[i].keep) else es[i].s.limit
  {
    Reached(src, es, ops, i);
    assert StepAt(src, es, ops, i);
    LimitStep(src, es[i], ops[i], es[i + 1]);
  }

  /** A demotion is lasting: the limit it set is never raised again. */
  lemma {:induction false} LimitOnlyFalls(src: Bytes, es: seq<Engine>, ops: seq<Op>, i: nat, j: nat)
    requires RunFrom(src, es, ops) && i < j < |es| && ops[i].Retire?
    ensures 1 <= es[j].s.limit <= AtLeastOne(ops[i].keep)
    decreases j
  {
    RunLimit(src, es, ops, j - 1);
    if i < j - 1 {
      LimitOnlyFalls(src, es, ops, i, j - 1);
    }
  }
}
