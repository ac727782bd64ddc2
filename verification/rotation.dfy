/** Moving workers off a culled address: the lock-protected cull, the rotate
    flag each worker swaps, and the cancellations that are sent after the lock
    is released. Any number of workers, any interleaving. A worker is on the
    address of its own pinned transport, or, while it reads the election body,
    on the election's. */
module Rotation {

  /** Where a worker is within its sequence of attempts. */
  datatype Pc =
    | Between
    | Dropping(goOn: bool)
    | Checked
    | Taken
    | Ready
    | Begun
    | Sent
    | Streaming
    | Failed
    | Over
    | Releasing
  {
    predicate UnderWay() { Begun? || Sent? || Streaming? || Failed? || Over? || (Dropping? && !goOn) }
  }

  /** The address a worker is registered on: none, its transport's, or the
      election connection's. */
  datatype Held = Nothing | Own | Borrowed

  /** `pinned`: it has a transport of its own. `election`: this attempt reads the
      election body. `registered`: the placement has the attempt's cancel.
      `cancelled`: the attempt's context is cancelled because of a cull.
      History: `dirty`, it was hit since it made its transport; `lent`, it was
      hit while on the election's address; `stale`, it was dirty when its
      request was prepared; `missed`, the flag of a hit was spent on an election
      body that was read to its end all the same. */
  datatype Worker = Worker(
    pc: Pc,
    rotate: bool,
    pinned: bool,
    held: Held,
    election: bool,
    registered: bool,
    attempt: nat,
    cancelled: bool,
    dirty: bool,
    lent: bool,
    stale: bool,
    missed: bool)

  const FIRST :=
    Worker(Between, false, false, Nothing, false, false, 0, false, false, false, false, false)

  /** `queued`: cancellations collected by a cull and not yet sent. */
  datatype State = State(workers: map<nat, Worker>, queued: set<(nat, nat)>, electionLeft: bool)

  datatype Op =
    | CheckRotate(w: nat)
    | Drop(w: nat)
    | EnsureClient(w: nat)
    | NoAddress(w: nat)
    | TakeElection(w: nat)
    | Attach(w: nat, known: bool)
    | Begin(w: nat)
    | Send(w: nat)
    | Stream(w: nat)
    | Refused(w: nat)
    | Finish(w: nat, failed: bool)
    | Classify(w: nat, drops: bool)
    | End(w: nat)
    | Release(w: nat)
    | Cull(on: set<nat>)
    | CancelAttempt(c: (nat, nat))

  /** beginAttempt: registers the cancel and consumes the flag in one section. */
  function AfterBegin(x: Worker): Worker {
    x.(pc := Begun, registered := true, attempt := x.attempt + 1,
       cancelled := x.rotate, rotate := false, stale := x.dirty && !x.election)
  }

  predicate LeadsIn(op: Op) {
    op.CheckRotate? || op.Drop? || op.EnsureClient? || op.NoAddress? || op.TakeElection? || op.Attach? || op.Begin?
  }

  /** Up to the request: the flag, a transport or the election body, the cancel. */
  predicate LeadInStep(x: Worker, op: Op, x': Worker) {
    if op.CheckRotate? then
      x.pc.Between? && x' == x.(pc := if x.rotate then Dropping(true) else Checked, rotate := false)
    else if op.Drop? then
      x.pc.Dropping?
      && x' == x.(pc := if x.pc.goOn then Checked else Over, pinned := false, held := Nothing,
                  dirty := false, lent := false, missed := false)
    else if op.EnsureClient? then
      x.pc.Checked?
      && x' == if x.pinned then x.(pc := Ready, election := false)
               else x.(pc := Ready, election := false, pinned := true, held := Own)
    else if op.NoAddress? then
      // reserve finds none: the attempt fails before it has begun.
      x.pc.Checked? && !x.pinned && x' == x.(pc := Between)
    else if op.TakeElection? then
      x.pc.Checked? && x' == x.(pc := Taken, election := true)
    else if op.Attach? then
      // Without a known remote the worker stays where it is registered.
      x.pc.Taken? && x' == if op.known then x.(pc := Ready, held := Borrowed) else x.(pc := Ready)
    else
      op.Begin? && x.pc.Ready? && x' == AfterBegin(x)
  }

  function Sending(x: Worker): Worker { x.(pc := Sent, held := Own) }

  function Finished(x: Worker, failed: bool): Worker {
    if failed then x.(pc := Failed)
    else x.(pc := Over, missed := x.missed || (x.election && x.dirty && !x.rotate))
  }

  function Ended(x: Worker): Worker {
    x.(pc := if x.election then Releasing else Between, registered := false, cancelled := false)
  }

  function Released(x: Worker): Worker {
    if x.held.Borrowed? then x.(pc := Between, held := Nothing, lent := false) else x.(pc := Between)
  }

  /** The request or the body, and what becomes of it. */
  predicate AttemptStep(x: Worker, op: Op, x': Worker) {
    if op.Send? then
      // The connection is attributed to the transport's address.
      x.pc.Begun? && !x.election && !x.cancelled && x' == Sending(x)
    else if op.Stream? then
      // The response is there already: reading begins whatever the context says.
      x.pc.Begun? && x.election && x' == x.(pc := Streaming)
    else if op.Refused? then
      // A request under a cancelled context fails before anything is sent.
      x.pc.Begun? && !x.election && x.cancelled && x' == x.(pc := Failed)
    else if op.Finish? then
      (x.pc.Sent? || x.pc.Streaming?) && x' == Finished(x, op.failed)
    else if op.Classify? then
      // After a cull the transport goes; other failures may drop it as well.
      x.pc.Failed? && (x.cancelled ==> op.drops) && x' == x.(pc := if op.drops then Dropping(false) else Over)
    else if op.End? then
      x.pc.Over? && x' == Ended(x)
    else
      op.Release? && x.pc.Releasing? && x' == Released(x)
  }

  /** The step of one worker on its own. */
  predicate WorkerStep(x: Worker, op: Op, x': Worker) {
    if LeadsIn(op) then LeadInStep(x, op, x') else AttemptStep(x, op, x')
  }

  /** cullLocked, on every worker that is on the address. */
  function Hit(x: Worker): Worker {
    x.(rotate := true, dirty := x.dirty || x.pinned, lent := x.lent || x.held.Borrowed?)
  }

  function AfterCull(s: State, on: set<nat>): State {
    s.(workers := map w | w in s.workers :: if w in on then Hit(s.workers[w]) else s.workers[w],
       queued := s.queued + set w | w in on && w in s.workers && s.workers[w].registered :: (w, s.workers[w].attempt))
  }

  predicate Step(s: State, op: Op, s': State) {
    if op.Cull? then
      // Only workers that are registered on an address can be on the culled one.
      (forall w :: w in op.on ==> w in s.workers && !s.workers[w].held.Nothing?) && s' == AfterCull(s, op.on)
    else if op.CancelAttempt? then
      && op.c in s.queued && op.c.0 in s.workers
      && var x := s.workers[op.c.0];
         s' == s.(workers := if x.registered && x.attempt == op.c.1 then s.workers[op.c.0 := x.(cancelled := true)] else s.workers,
                  queued := s.queued - {op.c})
    else
      && op.w in s.workers && op.w in s'.workers
      && WorkerStep(s.workers[op.w], op, s'.workers[op.w])
      && (op.TakeElection? ==> s.electionLeft)
      && s' == s.(workers := s.workers[op.w := s'.workers[op.w]], electionLeft := s.electionLeft && !op.TakeElection?)
  }

  predicate StepAt(ss: seq<State>, ops: seq<Op>, i: nat)
    requires i < |ops| && i + 1 < |ss|
  {
    Step(ss[i], ops[i], ss[i + 1])
  }

  ghost predicate Run(ss: seq<State>, ops: seq<Op>) {
    && |ss| == |ops| + 1
    && (forall w :: w in ss[0].workers ==> ss[0].workers[w] == FIRST)
    && ss[0].queued == {}
    && forall i {:trigger StepAt(ss, ops, i)} :: 0 <= i < |ops| ==> StepAt(ss, ops, i)
  }

  // ---- invariant ----

  /** Where the election's address may be held. */
  predicate BorrowOk(x: Worker) {
    && (x.held.Borrowed? ==> x.election && !x.pc.Between? && !x.pc.Checked? && !x.pc.Taken? && x.pc != Dropping(true))
    && (x.lent ==> x.held.Borrowed?)
    && (x.pc.Sent? ==> !x.election)
    && (x.pc.Taken? || x.pc.Streaming? || x.pc.Releasing? ==> x.election)
  }

  /** Where there is a transport, and where a cancel is known. */
  predicate OwnOk(x: Worker) {
    && (x.held.Own? ==> x.pinned)
    && (x.dirty ==> x.pinned)
    && (!x.election && (x.pc.Ready? || x.pc.Begun? || x.pc.Sent?) ==> x.pinned)
    && x.registered == x.pc.UnderWay()
    && (x.cancelled ==> x.registered)
  }

  predicate PlacesOk(x: Worker) { BorrowOk(x) && OwnOk(x) }

  /** A worker that was hit is flagged, or about to drop, or in an attempt that
      is cancelled; or the hit was missed. A request is stale exactly if one was. */
  predicate FlagsOk(x: Worker) {
    && (x.dirty ==>
          || x.rotate || x.pc.Dropping? || x.missed
          || (x.cancelled && (x.pc.Begun? || x.pc.Streaming? || x.pc.Failed?)))
    && (x.pc.Begun? && x.stale ==> x.cancelled || x.missed)
    && (x.pc.Sent? && x.stale ==> x.missed)
    && (x.missed ==> x.dirty)
    && ((x.pc.Begun? || x.pc.Sent?) && !x.election && x.missed ==> x.stale)
  }

  /** An attempt under way when its worker was hit has its cancel collected. */
  predicate CancelsOk(x: Worker, id: nat, queued: set<(nat, nat)>) {
    && (x.dirty && (x.pc.Begun? || x.pc.Sent?) ==> x.cancelled || x.missed || (id, x.attempt) in queued)
    && (x.lent && (x.pc.Begun? || x.pc.Streaming?) ==> x.cancelled || (id, x.attempt) in queued)
    && (x.lent && x.pc.Ready? ==> x.rotate)
  }

  predicate WorkerOk(x: Worker, id: nat, queued: set<(nat, nat)>) {
    PlacesOk(x) && FlagsOk(x) && CancelsOk(x, id, queued)
  }

  predicate StateOk(s: State) {
    forall w :: w in s.workers ==> WorkerOk(s.workers[w], w, s.queued)
  }

  /** The failure a worker still has coming. */
  function Due(x: Worker, w: nat, queued: set<(nat, nat)>): nat {
    if x.rotate && (x.pc.Checked? || x.pc.Taken? || x.pc.Ready? || x.pc == Dropping(true)) then 1
    else if (x.pc.Begun? || x.pc.Sent? || x.pc.Streaming? || x.pc.Failed?) && (x.cancelled || (w, x.attempt) in queued) then 1
    else 0
  }

  predicate SlowFailure(x: Worker, op: Op) { op.Classify? && op.drops && x.cancelled }

  /** A step that begins no attempt brings no failure that was not due. */
  predicate Pays(x: Worker, op: Op, x': Worker, id: nat, queued: set<(nat, nat)>) {
    op.Begin? || Due(x', id, queued) + (if SlowFailure(x, op) then 1 else 0) <= Due(x, id, queued)
  }

  /** What a step leaves of a worker's history. */
  predicate Remembers(x: Worker, op: Op, x': Worker) {
    && (x.lent && !op.Release? && !op.Drop? ==> x'.lent)
    && (x.dirty && !op.Drop? ==> x'.dirty)
    && x'.attempt == x.attempt + (if op.Begin? then 1 else 0)
    && (x'.pc.Begun? ==> op.Begin? && x'.stale == (x.dirty && !x.election) && x'.election == x.election)
  }

  lemma CheckRotateKeeps(x: Worker, op: Op, x': Worker, id: nat, queued: set<(nat, nat)>)
    requires WorkerOk(x, id, queued) && op.CheckRotate? && LeadInStep(x, op, x')
    ensures WorkerOk(x', id, queued) && Remembers(x, op, x') && Pays(x, op, x', id, queued)
  {
  }

  lemma DropKeeps(x: Worker, op: Op, x': Worker, id: nat, queued: set<(nat, nat)>)
    requires WorkerOk(x, id, queued) && op.Drop? && LeadInStep(x, op, x')
    ensures WorkerOk(x', id, queued) && Remembers(x, op, x') && Pays(x, op, x', id, queued)
  {
  }

  lemma EnsureClientKeeps(x: Worker, op: Op, x': Worker, id: nat, queued: set<(nat, nat)>)
    requires WorkerOk(x, id, queued) && op.EnsureClient? && LeadInStep(x, op, x')
    ensures WorkerOk(x', id, queued) && Remembers(x, op, x') && Pays(x, op, x', id, queued)
  {
  }

  lemma NoAddressKeeps(x: Worker, op: Op, x': Worker, id: nat, queued: set<(nat, nat)>)
    requires WorkerOk(x, id, queued) && op.NoAddress? && LeadInStep(x, op, x')
    ensures WorkerOk(x', id, queued) && Remembers(x, op, x') && Pays(x, op, x', id, queued)
  {
  }

  lemma TakeElectionKeeps(x: Worker, op: Op, x': Worker, id: nat, queued: set<(nat, nat)>)
    requires WorkerOk(x, id, queued) && op.TakeElection? && LeadInStep(x, op, x')
    ensures WorkerOk(x', id, queued) && Remembers(x, op, x') && Pays(x, op, x', id, queued)
  {
  }

  lemma AttachKeeps(x: Worker, op: Op, x': Worker, id: nat, queued: set<(nat, nat)>)
    requires WorkerOk(x, id, queued) && op.Attach? && LeadInStep(x, op, x')
    ensures WorkerOk(x', id, queued) && Remembers(x, op, x') && Pays(x, op, x', id, queued)
  {
  }

  lemma BeginKeeps(x: Worker, op: Op, x': Worker, id: nat, queued: set<(nat, nat)>)
    requires WorkerOk(x, id, queued) && op.Begin? && LeadInStep(x, op, x')
    ensures WorkerOk(x', id, queued) && Remembers(x, op, x') && Pays(x, op, x', id, queued)
  {
  }

  lemma SendKeeps(x: Worker, op: Op, x': Worker, id: nat, queued: set<(nat, nat)>)
    requires WorkerOk(x, id, queued) && op.Send? && AttemptStep(x, op, x')
    ensures WorkerOk(x', id, queued) && Remembers(x, op, x') && Pays(x, op, x', id, queued)
  {
  }

  lemma StreamKeeps(x: Worker, op: Op, x': Worker, id: nat, queued: set<(nat, nat)>)
    requires WorkerOk(x, id, queued) && op.Stream? && AttemptStep(x, op, x')
    ensures WorkerOk(x', id, queued) && Remembers(x, op, x') && Pays(x, op, x', id, queued)
  {
  }

  lemma RefusedKeeps(x: Worker, op: Op, x': Worker, id: nat, queued: set<(nat, nat)>)
    requires WorkerOk(x, id, queued) && op.Refused? && AttemptStep(x, op, x')
    ensures WorkerOk(x', id, queued) && Remembers(x, op, x') && Pays(x, op, x', id, queued)
  {
  }

  lemma FinishKeeps(x: Worker, op: Op, x': Worker, id: nat, queued: set<(nat, nat)>)
    requires WorkerOk(x, id, queued) && op.Finish? && AttemptStep(x, op, x')
    ensures WorkerOk(x', id, queued) && Remembers(x, op, x') && Pays(x, op, x', id, queued)
  {
  }

  lemma ClassifyKeeps(x: Worker, op: Op, x': Worker, id: nat, queued: set<(nat, nat)>)
    requires WorkerOk(x, id, queued) && op.Classify? && AttemptStep(x, op, x')
    ensures WorkerOk(x', id, queued) && Remembers(x, op, x') && Pays(x, op, x', id, queued)
  {
  }

  lemma EndKeeps(x: Worker, op: Op, x': Worker, id: nat, queued: set<(nat, nat)>)
    requires WorkerOk(x, id, queued) && op.End? && AttemptStep(x, op, x')
    ensures WorkerOk(x', id, queued) && Remembers(x, op, x') && Pays(x, op, x', id, queued)
  {
  }

  lemma ReleaseKeeps(x: Worker, op: Op, x': Worker, id: nat, queued: set<(nat, nat)>)
    requires WorkerOk(x, id, queued) && op.Release? && AttemptStep(x, op, x')
    ensures WorkerOk(x', id, queued) && Remembers(x, op, x') && Pays(x, op, x', id, queued)
  {
  }

  lemma WorkerKeeps(x: Worker, op: Op, x': Worker, id: nat, queued: set<(nat, nat)>)
    requires WorkerOk(x, id, queued) && WorkerStep(x, op, x')
    ensures WorkerOk(x', id, queued) && Remembers(x, op, x') && Pays(x, op, x', id, queued)
  {
    match op
    case CheckRotate(_) => CheckRotateKeeps(x, op, x', id, queued);
    case Drop(_) => DropKeeps(x, op, x', id, queued);
    case EnsureClient(_) => EnsureClientKeeps(x, op, x', id, queued);
    case NoAddress(_) => NoAddressKeeps(x, op, x', id, queued);
    case TakeElection(_) => TakeElectionKeeps(x, op, x', id, queued);
    case Attach(_, _) => AttachKeeps(x, op, x', id, queued);
    case Begin(_) => BeginKeeps(x, op, x', id, queued);
    case Send(_) => SendKeeps(x, op, x', id, queued);
    case Stream(_) => StreamKeeps(x, op, x', id, queued);
    case Refused(_) => RefusedKeeps(x, op, x', id, queued);
    case Finish(_, _) => FinishKeeps(x, op, x', id, queued);
    case Classify(_, _) => ClassifyKeeps(x, op, x', id, queued);
    case End(_) => EndKeeps(x, op, x', id, queued);
    case Release(_) => ReleaseKeeps(x, op, x', id, queued);
    case _ => assert false;
  }

  lemma StepKeeps(s: State, op: Op, s': State)
    requires StateOk(s) && Step(s, op, s')
    ensures StateOk(s')
  {
    if op.Cull? || op.CancelAttempt? {
      forall w | w in s'.workers ensures WorkerOk(s'.workers[w], w, s'.queued) {
        assert WorkerOk(s.workers[w], w, s.queued);
      }
    } else {
      WorkerKeeps(s.workers[op.w], op, s'.workers[op.w], op.w, s.queued);
    }
  }

  lemma {:induction false} Reached(ss: seq<State>, ops: seq<Op>, i: nat)
    requires Run(ss, ops) && i < |ss|
    ensures StateOk(ss[i])
    decreases i
  {
    if i == 0 {
      forall w | w in ss[0].workers ensures WorkerOk(ss[0].workers[w], w, ss[0].queued) {
        assert ss[0].workers[w] == FIRST;
      }
    } else {
      Reached(ss, ops, i - 1);
      assert StepAt(ss, ops, i - 1);
      StepKeeps(ss[i - 1], ops[i - 1], ss[i]);
    }
  }

  // ---- what a single step leaves of the history ----

  lemma StepHistory(s: State, op: Op, s': State, w: nat)
    requires StateOk(s) && Step(s, op, s') && w in s'.workers
    ensures w in s.workers
    ensures var x, x' := s.workers[w], s'.workers[w];
      && (x.lent && op != Release(w) && op != Drop(w) ==> x'.lent)
      && (x.dirty && op != Drop(w) ==> x'.dirty)
      && x'.attempt == x.attempt + (if op == Begin(w) then 1 else 0)
  {
    if !op.Cull? && !op.CancelAttempt? && op.w == w { WorkerKeeps(s.workers[w], op, s'.workers[w], w, s.queued); }
  }

  lemma SameDomain(s: State, op: Op, s': State)
    requires Step(s, op, s')
    ensures s'.workers.Keys == s.workers.Keys
  {
  }

  // ---- the handshake ----

  /** An attempt that is under way when its worker is hit is cancelled, or its
      cancellation is collected and on the way: a request over the worker's own
      transport, and the reading of the election body. */
  lemma RunningAttemptIsCancelled(ss: seq<State>, ops: seq<Op>, i: nat, on: set<nat>, w: nat)
    requires Run(ss, ops) && i < |ops| && ops[i] == Cull(on) && w in on
    requires w in ss[i].workers && (ss[i].workers[w].pc.Begun? || ss[i].workers[w].pc.Sent? || ss[i].workers[w].pc.Streaming?)
    ensures w in ss[i + 1].workers && (w, ss[i + 1].workers[w].attempt) in ss[i + 1].queued
  {
    Reached(ss, ops, i);
    assert StepAt(ss, ops, i);
  }

  /** An election body is never read on a culled address by a worker whose
      attempt is neither cancelled nor about to be. */
  lemma ElectionReaderIsCancelled(ss: seq<State>, ops: seq<Op>, i: nat, w: nat)
    requires Run(ss, ops) && i < |ss| && w in ss[i].workers && ss[i].workers[w].pc.Streaming? && ss[i].workers[w].lent
    ensures ss[i].workers[w].cancelled || (w, ss[i].workers[w].attempt) in ss[i].queued
  {
    Reached(ss, ops, i);
  }

  /** Some step in [from, to) is op. */
  ghost predicate Happens(ops: seq<Op>, from: nat, to: nat, op: Op) {
    exists d {:trigger ops[d]} :: from <= d < to && d < |ops| && ops[d] == op
  }

  ghost predicate LetsGo(ops: seq<Op>, from: nat, to: nat, w: nat) {
    Happens(ops, from, to, Release(w)) || Happens(ops, from, to, Drop(w))
  }

  lemma {:induction false} LentStays(ss: seq<State>, ops: seq<Op>, i: nat, j: nat, w: nat)
    requires Run(ss, ops) && i <= j < |ss| && w in ss[i].workers
    requires ss[i].workers[w].lent && !LetsGo(ops, i, j, w)
    ensures w in ss[j].workers && ss[j].workers[w].lent
    decreases j
  {
    if i < j {
      LentStays(ss, ops, i, j - 1, w);
      Reached(ss, ops, j - 1);
      assert StepAt(ss, ops, j - 1);
      assert ops[j - 1] != Release(w) && ops[j - 1] != Drop(w);
      SameDomain(ss[j - 1], ops[j - 1], ss[j]);
      StepHistory(ss[j - 1], ops[j - 1], ss[j], w);
    }
  }

  /** A worker that read the election body from the culled address has given
      that address back before its next request. */
  lemma ElectionReaderLetsGo(ss: seq<State>, ops: seq<Op>, i: nat, j: nat, on: set<nat>, w: nat)
    requires Run(ss, ops) && i < j < |ops| && ops[i] == Cull(on) && w in on && ops[j] == Send(w)
    requires w in ss[i].workers && ss[i].workers[w].held.Borrowed?
    ensures LetsGo(ops, i + 1, j, w)
  {
    assert StepAt(ss, ops, i);
    assert StepAt(ss, ops, j);
    Reached(ss, ops, j);
    if !LetsGo(ops, i + 1, j, w) { LentStays(ss, ops, i + 1, j, w); }
  }

  /** The election body is taken up beside a transport of the worker's own, with
      the flag of a hit up: the hit landed since the attempt's own look at the
      flag. */
  predicate Overlooks(x: Worker) { x.pc.Ready? && x.election && x.rotate && x.pinned }

  predicate OverlooksAt(ss: seq<State>, ops: seq<Op>, k: nat, w: nat)
    requires k < |ops| && k < |ss|
  {
    ops[k] == Begin(w) && w in ss[k].workers && Overlooks(ss[k].workers[w])
  }

  ghost predicate OverlooksWithin(ss: seq<State>, ops: seq<Op>, from: nat, to: nat, w: nat)
    requires to <= |ops| < |ss|
  {
    exists k {:trigger OverlooksAt(ss, ops, k, w)} :: from <= k < to && OverlooksAt(ss, ops, k, w)
  }

  /** Since it was hit in attempt a, and unless it dropped its transport or
      overlooked the hit: the flag is up, or it is dropping, or in a later
      attempt that is cancelled before its request. */
  predicate Chased(x: Worker, a: nat) {
    && x.dirty && x.attempt >= a
    && (x.attempt == a ==> x.rotate || x.pc == Dropping(true))
    && (x.attempt > a ==> x.cancelled && !x.election && (x.pc.Begun? || x.pc.Failed? || x.pc == Dropping(false)))
  }

  lemma ChaseStep(s: State, op: Op, s': State, w: nat, a: nat)
    requires StateOk(s) && Step(s, op, s') && w in s.workers && Chased(s.workers[w], a)
    requires op != Drop(w) && !(op == Begin(w) && Overlooks(s.workers[w]))
    ensures w in s'.workers && Chased(s'.workers[w], a)
  {
    assert WorkerOk(s.workers[w], w, s.queued);
    if !op.Cull? && !op.CancelAttempt? && op.w == w {
      if LeadsIn(op) {
        ChaseLeadIn(s.workers[w], op, s'.workers[w], a);
      } else {
        ChaseAttempt(s.workers[w], op, s'.workers[w], a);
      }
    }
  }

  lemma ChaseLeadIn(x: Worker, op: Op, x': Worker, a: nat)
    requires OwnOk(x) && LeadsIn(op) && LeadInStep(x, op, x') && Chased(x, a) && !op.Drop?
    requires !(op.Begin? && Overlooks(x))
    ensures Chased(x', a)
  {
  }

  lemma ChaseAttempt(x: Worker, op: Op, x': Worker, a: nat)
    requires AttemptStep(x, op, x') && Chased(x, a)
    ensures Chased(x', a)
  {
    if op.End? || op.Release? { ChaseEnd(x, op, x', a); }
  }

  lemma ChaseEnd(x: Worker, op: Op, x': Worker, a: nat)
    requires AttemptStep(x, op, x') && Chased(x, a) && (op.End? || op.Release?)
    ensures Chased(x', a)
  {
  }

  lemma {:induction false} ChaseLasts(ss: seq<State>, ops: seq<Op>, i: nat, j: nat, w: nat, a: nat)
    requires Run(ss, ops) && i <= j < |ss| && w in ss[i].workers && Chased(ss[i].workers[w], a)
    requires !Happens(ops, i, j, Drop(w)) && !OverlooksWithin(ss, ops, i, j, w)
    ensures w in ss[j].workers && Chased(ss[j].workers[w], a)
    decreases j
  {
    if i < j {
      assert !OverlooksWithin(ss, ops, i, j - 1, w);
      ChaseLasts(ss, ops, i, j - 1, w, a);
      assert ops[j - 1] != Drop(w) && !OverlooksAt(ss, ops, j - 1, w);
      ChaseGoesOn(ss, ops, j - 1, w, a);
    }
  }

  lemma ChaseGoesOn(ss: seq<State>, ops: seq<Op>, i: nat, w: nat, a: nat)
    requires Run(ss, ops) && i < |ops| && w in ss[i].workers && Chased(ss[i].workers[w], a)
    requires ops[i] != Drop(w) && !OverlooksAt(ss, ops, i, w)
    ensures w in ss[i + 1].workers && Chased(ss[i + 1].workers[w], a)
  {
    Reached(ss, ops, i);
    assert StepAt(ss, ops, i);
    ChaseStep(ss[i], ops[i], ss[i + 1], w, a);
  }

  /** After each cull that hits it, a worker sends no request in a later attempt
      before it has dropped its transport, unless after that very cull it went
      on to an election body without looking at the flag. */
  lemma NextRequestIsElsewhere(ss: seq<State>, ops: seq<Op>, i: nat, j: nat, on: set<nat>, w: nat)
    requires Run(ss, ops) && i < j < |ops| && ops[i] == Cull(on) && w in on && ops[j] == Send(w)
    requires w in ss[i].workers && w in ss[j].workers && ss[i].workers[w].pinned
    requires ss[j].workers[w].attempt > ss[i].workers[w].attempt
    ensures Happens(ops, i + 1, j, Drop(w)) || OverlooksWithin(ss, ops, i + 1, j, w)
  {
    assert StepAt(ss, ops, i);
    assert StepAt(ss, ops, j);
    if !Happens(ops, i + 1, j, Drop(w)) && !OverlooksWithin(ss, ops, i + 1, j, w) {
      ChaseLasts(ss, ops, i + 1, j, w, ss[i].workers[w].attempt);
    }
  }

  // ---- exactly when a request goes to a culled address ----

  /** The transport a request is sent over at step j was hit in an earlier
      attempt, at step i. */
  ghost predicate HitBefore(ss: seq<State>, ops: seq<Op>, i: nat, j: nat, w: nat)
    requires i < j < |ops| < |ss|
  {
    && ops[i].Cull? && w in ops[i].on && w in ss[i].workers && w in ss[j].workers && ss[i].workers[w].pinned
    && ss[j].workers[w].attempt > ss[i].workers[w].attempt && !Happens(ops, i + 1, j, Drop(w))
  }

  ghost predicate GoesToCulled(ss: seq<State>, ops: seq<Op>, j: nat, w: nat)
    requires j < |ops| < |ss|
  {
    exists i {:trigger HitBefore(ss, ops, i, j, w)} :: 0 <= i < j && HitBefore(ss, ops, i, j, w)
  }

  ghost predicate OverlookedBefore(ss: seq<State>, ops: seq<Op>, k: nat, j: nat, w: nat)
    requires k < j < |ops| < |ss|
  {
    OverlooksAt(ss, ops, k, w) && !Happens(ops, k, j, Drop(w))
  }

  ghost predicate Overlooked(ss: seq<State>, ops: seq<Op>, j: nat, w: nat)
    requires j < |ops| < |ss|
  {
    exists k {:trigger OverlookedBefore(ss, ops, k, j, w)} :: 0 <= k < j && OverlookedBefore(ss, ops, k, j, w)
  }

  /** A worker that has looked at the flag, has a transport and is not about to
      use it. */
  predicate PastLook(x: Worker) { x.rotate && x.pinned && (x.pc.Checked? || x.pc.Taken? || (x.pc.Ready? && x.election)) }

  lemma LookStep(s: State, op: Op, s': State, w: nat)
    requires StateOk(s) && Step(s, op, s') && w in s'.workers && PastLook(s'.workers[w])
    ensures w in s.workers && op != Drop(w) && s.workers[w].pinned && s.workers[w].attempt == s'.workers[w].attempt
    ensures (op.Cull? && w in op.on) || PastLook(s.workers[w])
  {
    assert w in s.workers && WorkerOk(s.workers[w], w, s.queued);
    if !op.Cull? && !op.CancelAttempt? && op.w == w {
      if LeadsIn(op) {
        LookLeadIn(s.workers[w], op, s'.workers[w]);
      } else {
        LookAttempt(s.workers[w], op, s'.workers[w]);
      }
    }
  }

  lemma LookLeadIn(x: Worker, op: Op, x': Worker)
    requires BorrowOk(x) && LeadsIn(op) && LeadInStep(x, op, x') && PastLook(x')
    ensures !op.Drop? && PastLook(x) && x.attempt == x'.attempt
  {
  }

  /** The later steps of an attempt lead to none of these places. */
  lemma LookAttempt(x: Worker, op: Op, x': Worker)
    requires AttemptStep(x, op, x')
    ensures !PastLook(x')
  {
    if op.Finish? {
      LookOver(x, op.failed);
    } else {
      LookOver(x, false);
    }
  }

  lemma LookOver(x: Worker, failed: bool)
    ensures !PastLook(Finished(x, failed)) && !PastLook(Ended(x)) && !PastLook(Released(x))
  {
  }

  /** So its flag was raised since it looked. */
  lemma {:induction false} FlagWasRaised(ss: seq<State>, ops: seq<Op>, k: nat, w: nat) returns (i: nat)
    requires Run(ss, ops) && k <= |ops| && w in ss[k].workers && PastLook(ss[k].workers[w])
    ensures i < k && ops[i].Cull? && w in ops[i].on && w in ss[i].workers && ss[i].workers[w].pinned
    ensures ss[i].workers[w].attempt == ss[k].workers[w].attempt && !Happens(ops, i, k, Drop(w))
    decreases k
  {
    assert k > 0;
    Reached(ss, ops, k - 1);
    assert StepAt(ss, ops, k - 1);
    LookStep(ss[k - 1], ops[k - 1], ss[k], w);
    if ops[k - 1].Cull? && w in ops[k - 1].on {
      i := k - 1;
    } else {
      i := FlagWasRaised(ss, ops, k - 1, w);
    }
  }

  lemma {:induction false} AttemptsGrow(ss: seq<State>, ops: seq<Op>, i: nat, j: nat, w: nat)
    requires Run(ss, ops) && i <= j < |ss| && w in ss[i].workers
    ensures w in ss[j].workers && ss[j].workers[w].attempt >= ss[i].workers[w].attempt
    decreases j
  {
    if i < j {
      AttemptsGrow(ss, ops, i, j - 1, w);
      Reached(ss, ops, j - 1);
      assert StepAt(ss, ops, j - 1);
      SameDomain(ss[j - 1], ops[j - 1], ss[j]);
      StepHistory(ss[j - 1], ops[j - 1], ss[j], w);
    }
  }

  /** A request goes over a transport that was hit in an earlier attempt exactly
      if, since that transport was made, the worker went on to an election body
      without looking at the flag. */
  lemma CulledRequestsExactly(ss: seq<State>, ops: seq<Op>, j: nat, w: nat)
    requires Run(ss, ops) && j < |ops| && ops[j] == Send(w)
    ensures GoesToCulled(ss, ops, j, w) <==> Overlooked(ss, ops, j, w)
  {
    forall i | 0 <= i < j && HitBefore(ss, ops, i, j, w) ensures Overlooked(ss, ops, j, w) {
      NextRequestIsElsewhere(ss, ops, i, j, ops[i].on, w);
      var k :| i + 1 <= k < j && OverlooksAt(ss, ops, k, w);
      assert OverlookedBefore(ss, ops, k, j, w);
    }
    forall k | 0 <= k < j && OverlookedBefore(ss, ops, k, j, w) ensures GoesToCulled(ss, ops, j, w) {
      var i := FlagWasRaised(ss, ops, k, w);
      assert StepAt(ss, ops, k);
      AttemptsGrow(ss, ops, k + 1, j, w);
      assert HitBefore(ss, ops, i, j, w);
    }
  }

  /** Seen from the worker itself: its request is prepared over a transport that
      was hit exactly if it missed a hit. */
  lemma StaleIsMissed(ss: seq<State>, ops: seq<Op>, j: nat, w: nat)
    requires Run(ss, ops) && j < |ops| && ops[j] == Send(w)
    ensures w in ss[j].workers && (ss[j].workers[w].stale <==> ss[j].workers[w].missed)
  {
    Reached(ss, ops, j);
    assert StepAt(ss, ops, j);
  }

  // ---- the exception is real ----

  /** The run so far, of worker 0 alone. */
  ghost predicate Alone(ss: seq<State>, ops: seq<Op>, x: Worker, electionLeft: bool) {
    Run(ss, ops) && ss[|ops|].workers == map[0 := x] && ss[|ops|].electionLeft == electionLeft
  }

  lemma Go(ss: seq<State>, ops: seq<Op>, x: Worker, left: bool, op: Op, x': Worker) returns (ss': seq<State>)
    requires Alone(ss, ops, x, left) && WorkerStep(x, op, x') && !op.Cull? && !op.CancelAttempt? && op.w == 0
    requires op.TakeElection? ==> left
    ensures Alone(ss', ops + [op], x', left && !op.TakeElection?) && ss' == ss + [ss'[|ss|]]
  {
    var s := ss[|ops|];
    Extends(ss, ops, op, s.(workers := s.workers[0 := x'], electionLeft := left && !op.TakeElection?));
    ss' := ss + [s.(workers := s.workers[0 := x'], electionLeft := left && !op.TakeElection?)];
  }

  lemma GoHit(ss: seq<State>, ops: seq<Op>, x: Worker, left: bool) returns (ss': seq<State>)
    requires Alone(ss, ops, x, left) && !x.held.Nothing?
    ensures Alone(ss', ops + [Cull({0})], Hit(x), left) && ss' == ss + [ss'[|ss|]]
  {
    Extends(ss, ops, Cull({0}), AfterCull(ss[|ops|], {0}));
    ss' := ss + [AfterCull(ss[|ops|], {0})];
  }

  lemma Extends(ss: seq<State>, ops: seq<Op>, op: Op, s: State)
    requires Run(ss, ops) && Step(ss[|ops|], op, s)
    ensures Run(ss + [s], ops + [op])
  {
    forall i | 0 <= i < |ops| + 1 ensures StepAt(ss + [s], ops + [op], i) {
      if i < |ops| { assert StepAt(ss, ops, i); }
    }
  }

  const OWN_DONE := FIRST.(pinned := true, held := Own, attempt := 1)

  /** A first attempt over a transport of its own succeeds. */
  lemma FirstAttempt() returns (ss: seq<State>, ops: seq<Op>)
    ensures Alone(ss, ops, OWN_DONE, true) && |ops| == 6
  {
    ss, ops := [State(map[0 := FIRST], {}, true)], [];
    var x := FIRST.(pc := Checked);
    ss := Go(ss, ops, FIRST, true, CheckRotate(0), x);
    ops := ops + [CheckRotate(0)];
    var y := x.(pc := Ready, pinned := true, held := Own);
    ss := Go(ss, ops, x, true, EnsureClient(0), y);
    ops := ops + [EnsureClient(0)];
    x := AfterBegin(y);
    ss := Go(ss, ops, y, true, Begin(0), x);
    ops := ops + [Begin(0)];
    y := Sending(x);
    ss := Go(ss, ops, x, true, Send(0), y);
    ops := ops + [Send(0)];
    x := Finished(y, false);
    ss := Go(ss, ops, y, true, Finish(0, false), x);
    ops := ops + [Finish(0, false)];
    ss := Go(ss, ops, x, true, End(0), Ended(x));
    ops := ops + [End(0)];
  }

  const MISSED :=
    Worker(Between, false, true, Nothing, true, false, 2, false, true, false, false, true)

  /** Between its rotate check and the election body it takes, the worker is
      hit; the body is there in full and is read although it is cancelled. */
  lemma SecondAttempt(ss0: seq<State>, ops0: seq<Op>) returns (ss: seq<State>, ops: seq<Op>)
    requires Alone(ss0, ops0, OWN_DONE, true) && |ops0| == 6
    ensures Alone(ss, ops, MISSED, false) && |ops| == 15 && ops[8] == Cull({0})
    ensures ss[8].workers == map[0 := OWN_DONE.(pc := Taken, election := true)]
    ensures forall d :: 8 <= d < 15 ==> ops[d] != Drop(0)
  {
    var x := OWN_DONE.(pc := Checked);
    ss := Go(ss0, ops0, OWN_DONE, true, CheckRotate(0), x);
    ops := ops0 + [CheckRotate(0)];
    var y := x.(pc := Taken, election := true);
    ss := Go(ss, ops, x, true, TakeElection(0), y);
    ops := ops + [TakeElection(0)];
    assert |ops| == 8 && ss[8].workers == map[0 := y];
    ss, ops := HitAndMissed(ss, ops, y);
  }

  lemma HitAndMissed(ss0: seq<State>, ops0: seq<Op>, y0: Worker) returns (ss: seq<State>, ops: seq<Op>)
    requires y0 == OWN_DONE.(pc := Taken, election := true)
    requires Alone(ss0, ops0, y0, false) && |ops0| == 8
    ensures Alone(ss, ops, MISSED, false) && |ops| == 15 && ops[8] == Cull({0}) && ss[8] == ss0[8]
    ensures forall d :: 8 <= d < 15 ==> ops[d] != Drop(0)
  {
    ss := GoHit(ss0, ops0, y0, false);
    ops := ops0 + [Cull({0})];
    var x := Hit(y0);
    var y := x.(pc := Ready, held := Borrowed);
    ss := Go(ss, ops, x, false, Attach(0, true), y);
    ops := ops + [Attach(0, true)];
    x := AfterBegin(y);
    ss := Go(ss, ops, y, false, Begin(0), x);
    ops := ops + [Begin(0)];
    ss, ops := ReadThrough(ss, ops, x);
  }

  lemma ReadThrough(ss0: seq<State>, ops0: seq<Op>, x0: Worker) returns (ss: seq<State>, ops: seq<Op>)
    requires x0 == Worker(Begun, false, true, Borrowed, true, true, 2, true, true, false, false, false)
    requires Alone(ss0, ops0, x0, false) && |ops0| == 11
    ensures Alone(ss, ops, MISSED, false) && |ops| == 15 && ss[8] == ss0[8]
    ensures ops == ops0 + [Stream(0), Finish(0, false), End(0), Release(0)]
  {
    var y := x0.(pc := Streaming);
    ss := Go(ss0, ops0, x0, false, Stream(0), y);
    ops := ops0 + [Stream(0)];
    var x := Finished(y, false);
    ss := Go(ss, ops, y, false, Finish(0, false), x);
    ops := ops + [Finish(0, false)];
    y := Ended(x);
    ss := Go(ss, ops, x, false, End(0), y);
    ops := ops + [End(0)];
    ss := Go(ss, ops, y, false, Release(0), Released(y));
    ops := ops + [Release(0)];
  }

  /** A worker that took the election body beside a transport of its own can be
      hit in between and still send its next request over that transport. */
  lemma StaleRequestHappens() returns (ss: seq<State>, ops: seq<Op>, i: nat, j: nat)
    ensures Run(ss, ops) && i < j < |ops| && ops[i] == Cull({0}) && ops[j] == Send(0)
    ensures 0 in ss[i].workers && 0 in ss[j].workers && ss[i].workers[0].pinned
    ensures ss[j].workers[0].attempt > ss[i].workers[0].attempt && !Happens(ops, i + 1, j, Drop(0))
  {
    ss, ops := FirstAttempt();
    ss, ops := SecondAttempt(ss, ops);
    i, j := 8, 18;
    var x := MISSED.(pc := Checked);
    ss := Go(ss, ops, MISSED, false, CheckRotate(0), x);
    ops := ops + [CheckRotate(0)];
    var y := x.(pc := Ready, election := false);
    ss := Go(ss, ops, x, false, EnsureClient(0), y);
    ops := ops + [EnsureClient(0)];
    x := AfterBegin(y);
    ss := Go(ss, ops, y, false, Begin(0), x);
    ops := ops + [Begin(0)];
    ss := Go(ss, ops, x, false, Send(0), Sending(x));
    ops := ops + [Send(0)];
    assert ss[18].workers == map[0 := x];
  }

  // ---- what a cull costs a worker ----

  /** Slow-node failures of w up to step n, and culls that hit it. */
  function SlowFailures(ss: seq<State>, ops: seq<Op>, n: nat, w: nat): nat
    requires n <= |ops| && |ss| == |ops| + 1
  {
    if n == 0 then 0
    else
      var slow := ops[n - 1] == Classify(w, true) && w in ss[n - 1].workers && ss[n - 1].workers[w].cancelled;
      SlowFailures(ss, ops, n - 1, w) + (if slow then 1 else 0)
  }

  function Hits(ops: seq<Op>, n: nat, w: nat): nat
    requires n <= |ops|
  {
    if n == 0 then 0 else Hits(ops, n - 1, w) + (if ops[n - 1].Cull? && w in ops[n - 1].on then 1 else 0)
  }

  predicate NoFutureCancel(s: State) {
    forall c :: c in s.queued && c.0 in s.workers ==> c.1 <= s.workers[c.0].attempt
  }

  lemma FutureStep(s: State, op: Op, s': State)
    requires StateOk(s) && NoFutureCancel(s) && Step(s, op, s')
    ensures NoFutureCancel(s')
  {
    forall c | c in s'.queued && c.0 in s'.workers ensures c.1 <= s'.workers[c.0].attempt {
      StepHistory(s, op, s', c.0);
    }
  }

  lemma BeginPays(s: State, w: nat, s': State)
    requires NoFutureCancel(s) && w in s.workers && Step(s, Begin(w), s')
    ensures w in s'.workers && Due(s'.workers[w], w, s'.queued) <= Due(s.workers[w], w, s.queued)
  {
  }

  /** Only a cull that hits a worker brings it a failure. */
  lemma SharedPays(s: State, op: Op, s': State, w: nat)
    requires (op.Cull? || op.CancelAttempt?) && Step(s, op, s') && w in s.workers
    ensures w in s'.workers
    ensures Due(s'.workers[w], w, s'.queued) <= Due(s.workers[w], w, s.queued) + if op.Cull? && w in op.on then 1 else 0
  {
  }

  lemma DueStep(s: State, op: Op, s': State, w: nat)
    requires StateOk(s) && NoFutureCancel(s) && Step(s, op, s') && w in s.workers
    ensures w in s'.workers
    ensures Due(s'.workers[w], w, s'.queued) + (if op == Classify(w, true) && s.workers[w].cancelled then 1 else 0)
         <= Due(s.workers[w], w, s.queued) + (if op.Cull? && w in op.on then 1 else 0)
  {
    if op.Cull? || op.CancelAttempt? {
      SharedPays(s, op, s', w);
    } else if op == Begin(w) {
      BeginPays(s, w, s');
    } else if op.w == w {
      WorkerKeeps(s.workers[w], op, s'.workers[w], w, s.queued);
    }
  }

  /** Every slow-node failure of a worker, which costs it no retry, is paid for
      by a cull of its own. */
  lemma {:induction false} SlowFailuresNeedCulls(ss: seq<State>, ops: seq<Op>, n: nat, w: nat)
    requires Run(ss, ops) && n <= |ops| && w in ss[0].workers
    ensures NoFutureCancel(ss[n]) && w in ss[n].workers
    ensures SlowFailures(ss, ops, n, w) + Due(ss[n].workers[w], w, ss[n].queued) <= Hits(ops, n, w)
    decreases n
  {
    if n > 0 {
      SlowFailuresNeedCulls(ss, ops, n - 1, w);
      Reached(ss, ops, n - 1);
      assert StepAt(ss, ops, n - 1);
      FutureStep(ss[n - 1], ops[n - 1], ss[n]);
      DueStep(ss[n - 1], ops[n - 1], ss[n], w);
    } else {
      assert ss[0].workers[w] == FIRST;
    }
  }
}
