/** What a worker asks for, which answers it takes, and what it does with the
    bytes, exactly. */
module Transfers {
  import opened SchedulerModel
  import opened Engine
  import opened EngineLaws
  import opened Guarantees

  /** An attempt asks for exactly what is left of the chunk, from the claim cursor
      on; if nothing is left the chunk is finished. Only at byte zero, and while
      it is there, the election response can stand in for the answer. */
  lemma RequestsExactly(src: Bytes, es: seq<Engine>, ops: seq<Op>, i: nat, w: nat)
    requires RunFrom(src, es, ops) && i < |ops| && ops[i] == Attempt(w)
    ensures w in es[i].workers && es[i].workers[w].pc.Fetch? && w in es[i + 1].workers
    ensures var c, pc := es[i].workers[w].pc.c, es[i + 1].workers[w].pc;
      && c in es[i].s.chunks && es[i + 1].s == es[i].s
      && var k := es[i].s.chunks[c];
         if k.off + k.done == k.end then pc == Finish(c) && es[i + 1].initial == es[i].initial
         else
           || (pc == Asked(c, k.off + k.done, k.end, k.end) && es[i + 1].initial == es[i].initial)
           || (pc == Asked(c, 0, |src|, k.end) && k.off + k.done == 0 && es[i].initial && !es[i + 1].initial)
  {
    Reached(src, es, ops, i);
    assert StepAt(src, es, ops, i);
    assert PcOk(src, es[i].file, es[i].s, w, es[i].workers[w].pc);
    assert ChunkOk(es[i].s.chunks[es[i].workers[w].pc.c], |src|);
  }

  lemma ElectionStep(src: Bytes, e: Engine, op: Op, e': Engine)
    requires Step(src, e, op, e')
    ensures e'.initial ==> e.initial
  {
    if op.Wake? {
      assert WakeStep(e, op.w, e');
    } else if !op.Spawn? && !op.Cancel? && !op.Retire? {
      ElectionWorkerStep(src, e, op, op.w, e');
    }
  }

  lemma ElectionWorkerStep(src: Bytes, e: Engine, op: Op, w: nat, e': Engine)
    requires w in e.workers && WorkerStep(src, e, op, w, e')
    ensures e'.initial ==> e.initial
  {
  }

  lemma {:induction false} ElectionStaysTaken(src: Bytes, es: seq<Engine>, ops: seq<Op>, i: nat, j: nat)
    requires Run(src, es, ops) && i <= j < |es| && !es[i].initial
    ensures !es[j].initial
    decreases j
  {
    if i < j {
      ElectionStaysTaken(src, es, ops, i, j - 1);
      assert StepAt(src, es, ops, j - 1);
      ElectionStep(src, es[j - 1], ops[j - 1], es[j]);
    }
  }

  /** Step i is where the election response is taken. */
  predicate TakesElection(es: seq<Engine>, i: nat)
    requires i + 1 < |es|
  {
    es[i].initial && !es[i + 1].initial
  }

  /** In no run is the election response taken twice. */
  lemma ElectionIsTakenOnce(src: Bytes, es: seq<Engine>, ops: seq<Op>, i: nat, j: nat)
    requires Run(src, es, ops) && i < |ops| && j < |ops| && TakesElection(es, i) && TakesElection(es, j)
    ensures i == j
  {
    if i < j { ElectionStaysTaken(src, es, ops, i + 1, j); }
    if j < i { ElectionStaysTaken(src, es, ops, j + 1, i); }
  }

  /** A response goes on to a body exactly if it starts at the claim cursor, ends
      within what was asked for and is of the known size or of an unknown one; the
      body is read as far as it and the chunk's end at that time go. Any other
      response is a permanent error. */
  lemma ResponsesAreChecked(src: Bytes, es: seq<Engine>, ops: seq<Op>, i: nat, w: nat, resp: Response)
    requires RunFrom(src, es, ops) && i < |ops| && ops[i] == Respond(w, resp)
    ensures w in es[i].workers && es[i].workers[w].pc.Asked? && w in es[i + 1].workers
    ensures var asked, pc := es[i].workers[w].pc, es[i + 1].workers[w].pc;
      && asked.c in es[i].s.chunks
      && var cursor := es[i].s.chunks[asked.c].off + es[i].s.chunks[asked.c].done;
         if resp.first == cursor && cursor <= resp.last < asked.requested && (resp.total == |src| || resp.total == -1) then
           && pc.Body? && pc.c == asked.c && pc.pos == cursor < pc.lim
           && pc.lim <= resp.last + 1 && pc.lim <= asked.end && (pc.lim == resp.last + 1 || pc.lim == asked.end)
         else pc == Left(asked.c, true)
  {
    Reached(src, es, ops, i);
    assert StepAt(src, es, ops, i);
    assert PcOk(src, es[i].file, es[i].s, w, es[i].workers[w].pc);
  }

  /** n bytes that arrive are claimed from the cursor on, as far as the chunk has
      room; those and no others go on to be written, and the worker stops exactly
      if that drains the chunk. */
  lemma ReadsExactly(src: Bytes, es: seq<Engine>, ops: seq<Op>, i: nat, w: nat, n: nat)
    requires RunFrom(src, es, ops) && i < |ops| && ops[i] == Read(w, n)
    ensures w in es[i].workers && es[i].workers[w].pc.Body? && w in es[i + 1].workers && es[i + 1].workers[w].pc.Claimed?
    ensures var c, pc := es[i].workers[w].pc.c, es[i + 1].workers[w].pc;
      && c in es[i].s.chunks && c in es[i + 1].s.chunks
      && var k, k' := es[i].s.chunks[c], es[i + 1].s.chunks[c];
         var room := k.end - (k.off + k.done);
         && |pc.data| == (if n < room then n else room) && k' == k.(done := k.done + |pc.data|)
         && pc.at == k.off + k.done && 0 <= pc.at && pc.at + |pc.data| <= |src| && pc.data == src[pc.at..pc.at + |pc.data|]
         && (pc.stop <==> k'.off + k'.done == k'.end)
  {
    Reached(src, es, ops, i);
    assert StepAt(src, es, ops, i);
    var c := es[i].workers[w].pc.c;
    assert PcOk(src, es[i].file, es[i].s, w, es[i].workers[w].pc);
    assert ChunkOk(es[i].s.chunks[c], |src|);
    SliceOfSlice(src, es[i].workers[w].pc.pos, n, ClaimSize(es[i].s.chunks[c], n));
  }
}
