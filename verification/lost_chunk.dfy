/** A run that ends with work remaining, with no error and nobody stopping it:
    a sibling's 429 retires a worker between run()'s two looks at its context. */
module LostChunk {
  import opened SchedulerModel
  import opened Engine
  import opened Guarantees
  import opened Draining
  import opened EmptyChunk

  /** One run after the other. */
  lemma Joined(src: Bytes, es: seq<Engine>, ops: seq<Op>, more: seq<Engine>, moreOps: seq<Op>)
    requires RunFrom(src, es, ops) && Run(src, more, moreOps) && more[0] == es[|ops|]
    ensures RunFrom(src, es + more[1..], ops + moreOps)
    ensures (es + more[1..])[|ops| + |moreOps|] == more[|moreOps|]
    ensures forall i :: 0 <= i < |ops| ==> (es + more[1..])[i] == es[i] && (ops + moreOps)[i] == ops[i]
  {
    var es', ops' := es + more[1..], ops + moreOps;
    forall i | 0 <= i < |ops'| ensures StepAt(src, es', ops', i) {
      if i < |ops| {
        assert StepAt(src, es, ops, i);
      } else {
        assert StepAt(src, more, moreOps, i - |ops|);
      }
    }
  }

  /** Worker 1 asks for its chunk, fails for good, and run() finds its context
      unretired. */
  lemma FailsUnretired(permanent: bool) returns (src: Bytes, es: seq<Engine>, ops: seq<Op>)
    ensures RunFrom(src, es, ops) && SecondIsFresh(es[|ops|].s)
    ensures es[|ops|].workers == map[0 := Worker(Fetch(0), false), 1 := Worker(Unretired(1, permanent), false)]
    ensures es[|ops|].victims == {} && !es[|ops|].cancelled
  {
    src, es, ops := BothGranted();
    var e := es[|ops|];
    var e1 := e.(workers := SetPc(e, 1, Asked(1, 10, 20, 20)));
    Extends(src, es, ops, Attempt(1), e1);
    es, ops := es + [e1], ops + [Attempt(1)];
    var e2 := e1.(workers := SetPc(e1, 1, Left(1, permanent)));
    Extends(src, es, ops, GiveUp(1, permanent), e2);
    es, ops := es + [e2], ops + [GiveUp(1, permanent)];
    var e3 := e2.(workers := SetPc(e2, 1, Unretired(1, permanent)));
    Extends(src, es, ops, Settle(1), e3);
    es, ops := es + [e3], ops + [Settle(1)];
  }

  /** Then it is demoted and cancelled ... */
  lemma RetiredBetween(permanent: bool) returns (src: Bytes, es: seq<Engine>, ops: seq<Op>)
    ensures RunFrom(src, es, ops)
    ensures es[|ops|].workers == map[0 := Worker(Fetch(0), false), 1 := Worker(Unretired(1, permanent), true)]
    ensures !es[|ops|].cancelled
  {
    src, es, ops := FailsUnretired(permanent);
    var op, e1 := RetireOn(src, es[|ops|]);
    Extends(src, es, ops, op, e1);
    es, ops := es + [e1], ops + [op];
    var e2 := e1.(victims := e1.victims - {1}, workers := Woken(e1, 1));
    Extends(src, es, ops, Wake(1), e2);
    es, ops := es + [e2], ops + [Wake(1)];
  }

  /** ... and run() looks again. */
  lemma Swallowed(permanent: bool) returns (src: Bytes, es: seq<Engine>, ops: seq<Op>)
    ensures RunFrom(src, es, ops) && |ops| > 0 && Swallows(es, ops, |ops| - 1)
    ensures 1 in es[|ops| - 1].workers && es[|ops| - 1].workers[1].pc == Unretired(1, permanent)
    ensures ops[|ops| - 1] == Resign(1)
    ensures Steady(es[|ops|]) && es[|ops|].workers != map[] && 1 in es[|ops|].lost
  {
    src, es, ops := RetiredBetween(permanent);
    var e2 := es[|ops|];
    var e3 := e2.(lost := e2.lost + {1}, workers := SetPc(e2, 1, Leaving(false)));
    Extends(src, es, ops, Resign(1), e3);
    assert 1 in e3.workers;
    es, ops := es + [e3], ops + [Resign(1)];
  }

  /** Whatever the error was, the others then finish with nothing else going
      wrong, all workers leave, no error was reported and nobody stopped the run:
      and the scheduler is not idle. */
  lemma WorkRemainsHappens(permanent: bool) returns (src: Bytes, es: seq<Engine>, ops: seq<Op>, i: nat)
    ensures RunFrom(src, es, ops) && i < |ops| && Swallows(es, ops, i)
    ensures es[i].workers[ops[i].w].pc == Unretired(1, permanent)
    ensures AllLeft(es[|ops|]) && !es[|ops|].cancelled && !SchedIdle(es[|ops|].s)
  {
    src, es, ops := Swallowed(permanent);
    i := |ops| - 1;
    var more, moreOps := EverySteadyRunCanComplete(src, es, ops);
    Joined(src, es, ops, more, moreOps);
    es, ops := es + more[1..], ops + moreOps;
  }
}
