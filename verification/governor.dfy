/** The governor's decisions take effect late: workers are spawned and flows
    demoted only after its lock is released, so any amount of work, and any
    other decision, may come in between and deliveries may overtake each
    other. Here the governor and the run are one transition system, with what
    is decided but not delivered in between. */
module Governor {
  import opened Intervals
  import opened SchedulerModel
  import opened Engine
  import opened EngineLaws
  import opened Guarantees
  import W = RampLaws

  /** `toSpawn` and `toDemote` are decided and not delivered. */
  datatype Governed = Governed(
    h: W.Watched,
    e: Engine,
    toSpawn: set<nat>,
    toDemote: multiset<int>,
    delivered: multiset<int>)

  datatype Move =
    | Observe(ev: W.Event)
    | DeliverSpawn(w: nat)
    | DeliverKeep(keep: int, vs: seq<nat>, order: seq<nat>)
    | Work(op: Op)

  function Ids(from: int, to: int): set<nat> { set w: nat | w in Interval(from, to) }

  /** Everything ever asked for, by 429s and by throughput. */
  function Issued(h: W.Watched): multiset<int> { multiset(h.throttleKeeps) + multiset(h.demotions) }

  function Decided(g: Governed, ev: W.Event): Governed {
    var h' := W.After(g.h, ev);
    g.(h := h',
       toSpawn := g.toSpawn + Ids(g.h.spawned, h'.spawned),
       toDemote := g.toDemote + (Issued(h') - Issued(g.h)))
  }

  ghost predicate MoveStep(src: Bytes, g: Governed, m: Move, g': Governed) {
    match m
    case Observe(ev) => g' == Decided(g, ev)
    case DeliverSpawn(w) =>
      && w in g.toSpawn
      && g' == g.(toSpawn := g.toSpawn - {w}, e := g.e.(workers := g.e.workers[w := Worker(Idle, false)]))
    case DeliverKeep(keep, vs, order) =>
      && keep in g.toDemote && RetireStep(g.e, keep, vs, order, g'.e)
      && g' == g.(e := g'.e, toDemote := g.toDemote - multiset{keep}, delivered := g.delivered + multiset{keep})
    case Work(op) =>
      && !op.Spawn? && !op.Retire?
      && Step(src, g.e, op, g'.e) && g' == g.(e := g'.e)
  }

  /** At the start the floor's workers are about to be spawned. */
  ghost predicate Starts(src: Bytes, g: Governed) {
    && Initial(src, g.e) && W.Begins(g.h)
    && g.toSpawn == Ids(0, g.h.spawned) && g.toDemote == multiset{} && g.delivered == multiset{}
  }

  ghost predicate MoveAt(src: Bytes, gs: seq<Governed>, ms: seq<Move>, i: nat)
    requires i < |ms| && i + 1 < |gs|
  {
    MoveStep(src, gs[i], ms[i], gs[i + 1])
  }

  ghost predicate GovernedRun(src: Bytes, gs: seq<Governed>, ms: seq<Move>) {
    && |gs| == |ms| + 1 && Starts(src, gs[0])
    && forall i {:trigger MoveAt(src, gs, ms, i)} :: 0 <= i < |ms| ==> MoveAt(src, gs, ms, i)
  }

  // ---- invariant ----

  /** A worker exists or is about to, never both, and ids are never reused. */
  ghost predicate SpawnsOk(g: Governed) {
    && (forall w :: w in g.toSpawn ==> w < g.h.spawned && w !in g.e.workers)
    && (forall w :: w in g.e.workers ==> w < g.h.spawned)
    && (forall w: nat :: w < g.h.spawned ==> w in g.toSpawn || w in g.e.workers)
  }

  /** The scheduler's limit is the least keep delivered so far, and none is lost. */
  ghost predicate KeepsOk(g: Governed) {
    && g.toDemote + g.delivered == Issued(g.h)
    && (forall k :: k in Issued(g.h) ==> k >= 1)
    && Least(g.delivered, g.e.s.limit)
  }

  /** limit is the least of ks, or 0 when there is none. */
  ghost predicate Least(ks: multiset<int>, limit: nat) {
    if limit == 0 then ks == multiset{}
    else limit in ks && forall k :: k in ks ==> limit <= k
  }

  ghost predicate GovernedOk(src: Bytes, g: Governed) {
    Inv(src, g.e) && W.Good(g.h) && SpawnsOk(g) && KeepsOk(g)
  }

  lemma StartsOk(src: Bytes, g: Governed)
    requires Starts(src, g)
    ensures GovernedOk(src, g)
  {
    InitialInv(src, g.e);
    W.BeginGood(g.h);
  }

  /** A decision only adds to what was asked for. */
  lemma IssuedGrows(h: W.Watched, ev: W.Event)
    requires W.Good(h)
    ensures Issued(h) <= Issued(W.After(h, ev)) && h.spawned <= W.After(h, ev).spawned
    ensures forall k :: k in Issued(W.After(h, ev)) && k !in Issued(h) ==> k >= 1
  {
    W.AsksGrow(h, ev);
    var h' := W.After(h, ev);
    Appended(h.throttleKeeps, h'.throttleKeeps);
    Appended(h.demotions, h'.demotions);
  }

  lemma Appended(s: seq<int>, s': seq<int>)
    requires s' == s || (|s'| == |s| + 1 && s' == s + [s'[|s|]] && s'[|s|] >= 1)
    ensures multiset(s) <= multiset(s')
    ensures forall k :: k in multiset(s') && k !in multiset(s) ==> k >= 1
  {
    if s' != s { assert multiset(s') == multiset(s) + multiset{s'[|s|]}; }
  }

  lemma ObserveOk(src: Bytes, g: Governed, ev: W.Event)
    requires GovernedOk(src, g)
    ensures GovernedOk(src, Decided(g, ev))
  {
    W.AfterGood(g.h, ev);
    IssuedGrows(g.h, ev);
    ObserveSpawns(g, ev);
    ObserveKeeps(g, ev);
  }

  lemma ObserveSpawns(g: Governed, ev: W.Event)
    requires SpawnsOk(g) && g.h.spawned <= W.After(g.h, ev).spawned
    ensures SpawnsOk(Decided(g, ev))
  {
    var h' := W.After(g.h, ev);
    forall w: nat | w < h'.spawned ensures w in Decided(g, ev).toSpawn || w in g.e.workers {
      if w >= g.h.spawned { assert w in Ids(g.h.spawned, h'.spawned); }
    }
  }

  lemma ObserveKeeps(g: Governed, ev: W.Event)
    requires KeepsOk(g) && Issued(g.h) <= Issued(W.After(g.h, ev))
    requires forall k :: k in Issued(W.After(g.h, ev)) && k !in Issued(g.h) ==> k >= 1
    ensures KeepsOk(Decided(g, ev))
  {
    assert Decided(g, ev).toDemote + g.delivered == Issued(W.After(g.h, ev));
  }

  lemma SpawnOk(src: Bytes, g: Governed, w: nat, g': Governed)
    requires GovernedOk(src, g) && MoveStep(src, g, DeliverSpawn(w), g')
    ensures GovernedOk(src, g')
  {
    StepKeeps(src, g.e, Spawn(w), g'.e);
  }

  lemma KeepOk(src: Bytes, g: Governed, keep: int, vs: seq<nat>, order: seq<nat>, g': Governed)
    requires GovernedOk(src, g) && MoveStep(src, g, DeliverKeep(keep, vs, order), g')
    ensures GovernedOk(src, g')
  {
    StepKeeps(src, g.e, Retire(keep, vs, order), g'.e);
    LimitStep(src, g.e, Retire(keep, vs, order), g'.e);
    KeepDelivered(g, keep, g');
  }

  lemma KeepDelivered(g: Governed, keep: int, g': Governed)
    requires KeepsOk(g) && keep in g.toDemote && g'.h == g.h && g'.e.s.limit == Lowered(g.e.s.limit, keep)
    requires g'.toDemote == g.toDemote - multiset{keep} && g'.delivered == g.delivered + multiset{keep}
    ensures KeepsOk(g')
  {
    assert keep in Issued(g.h);
  }

  lemma WorkOk(src: Bytes, g: Governed, op: Op, g': Governed)
    requires GovernedOk(src, g) && MoveStep(src, g, Work(op), g')
    ensures GovernedOk(src, g')
  {
    StepKeeps(src, g.e, op, g'.e);
    LimitStep(src, g.e, op, g'.e);
    SameWorkers(src, g.e, op, g'.e);
  }

  lemma SameWorkers(src: Bytes, e: Engine, op: Op, e': Engine)
    requires Step(src, e, op, e') && !op.Spawn? && !op.Retire?
    ensures e'.workers.Keys == e.workers.Keys
  {
    if op.Resign? { assert ResignStep(e, op.w, e'); }
  }

  lemma MoveOk(src: Bytes, g: Governed, m: Move, g': Governed)
    requires GovernedOk(src, g) && MoveStep(src, g, m, g')
    ensures GovernedOk(src, g')
  {
    match m
    case Observe(ev) => ObserveOk(src, g, ev);
    case DeliverSpawn(w) => SpawnOk(src, g, w, g');
    case DeliverKeep(keep, vs, order) => KeepOk(src, g, keep, vs, order, g');
    case Work(op) => WorkOk(src, g, op, g');
  }

  lemma {:induction false} GovernedReached(src: Bytes, gs: seq<Governed>, ms: seq<Move>, i: nat)
    requires GovernedRun(src, gs, ms) && i < |gs|
    ensures GovernedOk(src, gs[i])
    decreases i
  {
    if i == 0 {
      StartsOk(src, gs[0]);
    } else {
      GovernedReached(src, gs, ms, i - 1);
      assert MoveAt(src, gs, ms, i - 1);
      MoveOk(src, gs[i - 1], ms[i - 1], gs[i]);
    }
  }

  // ---- what follows ----

  /** However late and in whatever order the decisions arrive: the limit is the
      least keep delivered; once all are delivered it is the least ever issued. */
  lemma LimitIsLeastKeep(src: Bytes, gs: seq<Governed>, ms: seq<Move>, i: nat)
    requires GovernedRun(src, gs, ms) && i < |gs|
    ensures Least(gs[i].delivered, gs[i].e.s.limit)
    ensures gs[i].toDemote == multiset{} ==> Least(Issued(gs[i].h), gs[i].e.s.limit)
  {
    GovernedReached(src, gs, ms, i);
  }

  /** A spawn that arrives late brings a worker nobody had. While as many
      workers stay as the limit allows, next turns it away at once, and who was
      there is not affected. */
  lemma LateSpawnIsHarmless(src: Bytes, gs: seq<Governed>, ms: seq<Move>, i: nat, w: nat)
    requires GovernedRun(src, gs, ms) && i < |ms| && ms[i] == DeliverSpawn(w)
    ensures w !in gs[i].e.workers && w !in gs[i].e.s.live
    ensures var s := gs[i + 1].e.s; s.limit > 0 && |NonRetiring(s)| >= s.limit ==> OnlyTurnedAway(s, w)
  {
    GovernedReached(src, gs, ms, i);
    assert MoveAt(src, gs, ms, i);
    var s := gs[i + 1].e.s;
    assert w !in s.live;
    if s.limit > 0 && |NonRetiring(s)| >= s.limit { TurnedAway(s, w); }
  }

  ghost predicate OnlyTurnedAway(s: Sched, w: nat) {
    forall v, r, s' {:trigger Next(s, w, v, r, s')} :: Next(s, w, v, r, s') ==> r == Nothing && s' == s
  }

  lemma TurnedAway(s: Sched, w: nat)
    requires Shape(s) && w !in s.live && s.limit > 0 && |NonRetiring(s)| >= s.limit
    ensures Refused(Register(s, w), w) && Deregister(Register(s, w), w) == s
  {
    assert NonRetiring(Register(s, w)) == NonRetiring(s) + {w};
    assert s.live + {w} - {w} == s.live && s.retiring - {w} == s.retiring;
  }

  /** At every moment after a demotion was delivered, at most `limit` workers
      stay, and at most that many hold bytes still to be claimed. */
  lemma FlowsNeverExceedKeep(src: Bytes, gs: seq<Governed>, ms: seq<Move>, i: nat, keep: int)
    requires GovernedRun(src, gs, ms) && i < |gs| && keep in gs[i].delivered
    ensures 1 <= gs[i].e.s.limit <= keep
    ensures |NonRetiring(gs[i].e.s)| <= keep
    ensures Healthy(gs[i].e) ==> |Undrained(gs[i].e.s)| <= keep
  {
    GovernedReached(src, gs, ms, i);
    var s := gs[i].e.s;
    if Healthy(gs[i].e) { InjectionSize(s.chunks, Undrained(s), NonRetiring(s)); }
  }
}
