/** The one thing a sidecar cannot hold, and a run that makes it. */
module EmptyChunk {
  import opened SchedulerModel
  import opened Engine
  import opened Guarantees
  import opened Snapshots

  // ---- single steps, from any state that allows them ----

  lemma SpawnOn(src: Bytes, e: Engine, w: nat) returns (op: Op, e': Engine)
    requires w !in e.workers
    ensures Step(src, e, op, e') && e' == e.(workers := e.workers[w := Worker(Idle, false)])
  {
    op, e' := Spawn(w), e.(workers := e.workers[w := Worker(Idle, false)]);
  }

  lemma GrantOn(src: Bytes, e: Engine, w: nat) returns (op: Op, e': Engine)
    requires w in e.workers && e.workers[w].pc.Idle? && |e.s.pending| > 0 && e.s.pending[0] in e.s.chunks
    requires e.s.retiring == {} && e.s.limit == 0
    ensures Step(src, e, op, e') && e'.s == GrantPending(Register(e.s, w), w)
    ensures e' == e.(s := e'.s, registered := true, workers := SetPc(e, w, Fetch(e.s.pending[0])))
  {
    var s := Register(e.s, w);
    op := NextChunk(w, 0, Granted(s.pending[0]));
    e' := e.(s := GrantPending(s, w), registered := true, workers := SetPc(e, w, Fetch(s.pending[0])));
    assert FindWork(s, w, 0, Granted(s.pending[0]), e'.s);
    assert NextStep(e, w, 0, Granted(s.pending[0]), e');
  }

  /** Worker 1 is demoted while it holds chunk 1 and has claimed none of it. */
  predicate SecondIsFresh(s: Sched) {
    && s.active == {0, 1} && s.live == {0, 1} && s.retiring == {} && s.nextID == 2 && s.limit == 0
    && s.chunks == map[0 := Chunk(0, 10, 0, 0, 0), 1 := Chunk(10, 20, 0, 0, 1)]
  }

  lemma SecondRetires(s: Sched) returns (s': Sched)
    requires SecondIsFresh(s)
    ensures Demote(s, 1, [1], [1], s') && NoEmptyActive(s) && !NoEmptyActive(s')
  {
    var s1 := MarkRetiring(s, 1, [1]);
    s' := Move(s1, 1);
    assert NonRetiring(s) == {0, 1};
    assert SetOf([1]) == {1};
    assert forall id :: id in [1] <==> MustMove(s1, id);
    assert MoveAll(s', [], s');
    assert [1][1..] == [];
    assert MoveAll(s1, [1], s');
    assert 1 in s'.active && s'.chunks[1] == Chunk(10, 10, 0, 0, 1);
  }

  lemma RetireOn(src: Bytes, e: Engine) returns (op: Op, e': Engine)
    requires SecondIsFresh(e.s)
    ensures Step(src, e, op, e') && op.Retire? && NoEmptyActive(e.s) && !NoEmptyActive(e'.s)
    ensures e' == e.(s := e'.s, victims := e.victims + {1})
  {
    var s' := SecondRetires(e.s);
    op, e' := Retire(1, [1], [1]), e.(s := s', victims := e.victims + SetOf([1]));
    assert RetireStep(e, 1, [1], [1], e');
    assert SetOf([1]) == {1};
  }

  // ---- put together ----

  /** Nobody has started, and two chunks of ten bytes are pending. */
  lemma Start() returns (src: Bytes, e: Engine)
    ensures Initial(src, e) && |src| == 20
    ensures e.s == AddPending(AddPending(Empty(1), 0, 10, 0), 10, 20, 0)
  {
    var s := AddPending(AddPending(Empty(1), 0, 10, 0), 10, 20, 0);
    src := seq(20, _ => 1);
    e := Engine(s, seq(20, _ => 0), map[], {}, false, false, false, {}, [], {});
    assert s.chunks == map[0 := Chunk(0, 10, 0, 0, 0), 1 := Chunk(10, 20, 0, 0, 0)];
    forall b | 0 <= b < 20 ensures Owed(s.chunks, b) && Unclaimed(s.chunks, b) {
      var id: nat := if b < 10 then 0 else 1;
      assert s.chunks[id].off + s.chunks[id].written <= b < s.chunks[id].end;
    }
  }

  lemma TwoGrants(s: Sched)
    requires s == AddPending(AddPending(Empty(1), 0, 10, 0), 10, 20, 0)
    ensures |s.pending| > 0 && s.pending[0] == 0 && 0 in s.chunks && s.retiring == {} && s.limit == 0
    ensures var s1 := GrantPending(Register(s, 0), 0);
      && |s1.pending| > 0 && s1.pending[0] == 1 && 1 in s1.chunks && s1.retiring == {} && s1.limit == 0
      && SecondIsFresh(GrantPending(Register(s1, 1), 1))
  {
    assert s.pending == [0, 1];
    assert GrantPending(Register(s, 0), 0).pending == [1];
  }

  lemma Extends(src: Bytes, es: seq<Engine>, ops: seq<Op>, op: Op, e: Engine)
    requires RunFrom(src, es, ops) && Step(src, es[|ops|], op, e)
    ensures RunFrom(src, es + [e], ops + [op])
  {
    forall i | 0 <= i < |ops| + 1 ensures StepAt(src, es + [e], ops + [op], i) {
      if i < |ops| { assert StepAt(src, es, ops, i); }
    }
  }

  lemma TwoSpawned() returns (src: Bytes, es: seq<Engine>, ops: seq<Op>)
    ensures RunFrom(src, es, ops) && |ops| == 2 && |src| == 20
    ensures es[2].lost == {} && es[2].victims == {} && !es[2].cancelled
    ensures es[2].s == AddPending(AddPending(Empty(1), 0, 10, 0), 10, 20, 0)
    ensures es[2].workers == map[0 := Worker(Idle, false), 1 := Worker(Idle, false)]
  {
    var e0, e1, e2, op;
    src, e0 := Start();
    es, ops := [e0], [];
    op, e1 := SpawnOn(src, e0, 0);
    Extends(src, es, ops, op, e1);
    es, ops := es + [e1], ops + [op];
    op, e2 := SpawnOn(src, e1, 1);
    Extends(src, es, ops, op, e2);
    es, ops := es + [e2], ops + [op];
  }

  lemma BothGranted() returns (src: Bytes, es: seq<Engine>, ops: seq<Op>)
    ensures RunFrom(src, es, ops) && SecondIsFresh(es[|ops|].s) && |src| == 20
    ensures es[|ops|].workers == map[0 := Worker(Fetch(0), false), 1 := Worker(Fetch(1), false)]
    ensures es[|ops|].lost == {} && es[|ops|].victims == {} && !es[|ops|].cancelled
  {
    src, es, ops := TwoSpawned();
    var e3, e4, op;
    TwoGrants(es[2].s);
    op, e3 := GrantOn(src, es[2], 0);
    Extends(src, es, ops, op, e3);
    es, ops := es + [e3], ops + [op];
    op, e4 := GrantOn(src, e3, 1);
    Extends(src, es, ops, op, e4);
    es, ops := es + [e4], ops + [op];
  }

  /** The exception is real: two workers are granted a chunk each, and the
      second is demoted before it has claimed anything. */
  lemma EmptyActiveHappens() returns (src: Bytes, es: seq<Engine>, ops: seq<Op>)
    ensures RunFrom(src, es, ops) && |ops| > 0 && ops[|ops| - 1].Retire?
    ensures NoEmptyActive(es[|ops| - 1].s) && !NoEmptyActive(es[|ops|].s)
  {
    src, es, ops := BothGranted();
    var op, e := RetireOn(src, es[|ops|]);
    Extends(src, es, ops, op, e);
    es, ops := es + [e], ops + [op];
  }
}
