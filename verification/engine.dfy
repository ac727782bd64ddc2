/** One multipart run as a transition system: the scheduler, the staging file
    and every worker's program counter. Each critical section, each WriteAt and
    each counter update is a step of its own, so a sequence of steps is one
    interleaving of the workers, the retirement calls and the run's
    cancellation. The server is honest: a response whose Content-Range says it
    starts at s delivers the source's bytes from s on, as many as it likes. */
module Engine {
  import opened Intervals
  import opened SchedulerModel

  type Bytes = seq<bv8>

  /** Where a worker is. `c` is the chunk it holds. `Left`: downloadChunk has
      returned an error; `Unretired`: run() has looked at the context's cause and
      not found a retirement; `Netted`: it has, and the chunk passed the check of
      the retirement net; `Reporting`: the chunk is completed and the Reporter
      not told yet. */
  datatype Pc =
    | Idle
    | Fetch(c: nat)
    | Asked(c: nat, cursor: int, requested: int, end: int)
    | Body(c: nat, pos: int, lim: int)
    | Claimed(c: nat, at: int, data: Bytes, stop: bool, pos: int, lim: int)
    | Wrote(c: nat, at: int, n: nat, stop: bool, pos: int, lim: int)
    | Finish(c: nat)
    | Left(c: nat, permanent: bool)
    | Unretired(c: nat, permanent: bool)
    | Netted(c: nat)
    | Reporting(c: nat, last: bool)
    | Leaving(failing: bool)
    | Failing
    | Exited
  {
    predicate HasChunk() {
      Fetch? || Asked? || Body? || Claimed? || Wrote? || Finish? || Left? || Unretired? || Netted?
    }

    /** On the way out with no error to report. */
    predicate Departing() {
      Netted? || (Reporting? && last) || (Leaving? && !failing)
    }

    /** Past the point where the worker could take or finish a chunk. */
    predicate Gone() { Leaving? || Failing? || Exited? }
  }

  /** `retired`: the worker's context carries the retirement cause. */
  datatype Worker = Worker(pc: Pc, retired: bool)

  /** `victims` are demoted workers whose context is not cancelled yet;
      `cancelled` says the run's own context is; `initial` that the election
      response is still there to be taken. The rest is history. `registered`: some
      worker has called next; `claimed`: the bytes claimed so far; `reported`: the
      chunks the Reporter was told are done, in order; `lost`: the chunks whose
      worker was retired between run()'s two looks at its context, so that the
      error it had was taken for the noise of its own cancellation. */
  datatype Engine = Engine(
    s: Sched,
    file: Bytes,
    workers: map<nat, Worker>,
    victims: set<nat>,
    cancelled: bool,
    initial: bool,
    registered: bool,
    claimed: set<int>,
    reported: seq<nat>,
    lost: set<nat>)

  /** The Content-Range of a 206: first and last byte, total or -1. */
  datatype Response = Response(first: int, last: int, total: int)

  datatype Op =
    | Spawn(w: nat)
    | NextChunk(w: nat, v: nat, r: Granted)
    | Quit(w: nat)
    | Attempt(w: nat)
    | Respond(w: nat, resp: Response)
    | Retry(w: nat)
    | GiveUp(w: nat, permanent: bool)
    | Read(w: nat, n: nat)
    | WriteOut(w: nat)
    | WriteError(w: nat, n: nat)
    | CreditWritten(w: nat)
    | Done(w: nat)
    | Report(w: nat)
    | Settle(w: nat)
    | Resign(w: nat)
    | Leave(w: nat)
    | Fail(w: nat)
    | Cancel
    | Retire(keep: int, vs: seq<nat>, order: seq<nat>)
    | Wake(w: nat)

  function Min(a: int, b: int): int { if a < b then a else b }

  /** The header check of readPartialResponse. */
  predicate Accepts(r: Response, cursor: int, requested: int, total: int) {
    && r.first == cursor
    && r.first <= r.last < requested
    && (r.total == -1 || r.total == total)
  }

  /** os.File.WriteAt: overwrites in place, growing the file when it must. */
  function Overwrite(file: Bytes, at: int, data: Bytes): Bytes {
    if at < 0 then file
    else
      var size := if at + |data| > |file| then at + |data| else |file|;
      seq(size, i requires 0 <= i < size =>
        if at <= i < at + |data| then data[i - at] else if i < |file| then file[i] else 0)
  }

  function SetPc(e: Engine, w: nat, pc: Pc): map<nat, Worker>
    requires w in e.workers
  {
    e.workers[w := e.workers[w].(pc := pc)]
  }

  /** Whether the error net of run() may complete the chunk. */
  predicate NetHolds(c: Chunk) {
    c.Drained() && c.written == c.done
  }

  // ---- the steps of one worker ----

  ghost predicate NextStep(e: Engine, w: nat, v: nat, r: Granted, e': Engine)
    requires w in e.workers
  {
    && e.workers[w].pc.Idle? && Next(e.s, w, v, r, e'.s)
    && e' == e.(s := e'.s, registered := true,
                workers := SetPc(e, w, if r == Nothing then Exited else Fetch(r.id)))
  }

  /** The context check at the top of the worker's loop. */
  predicate QuitStep(e: Engine, w: nat, e': Engine)
    requires w in e.workers
  {
    && e.workers[w].pc.Idle? && (e.workers[w].retired || e.cancelled)
    && e' == e.(workers := SetPc(e, w, Leaving(false)))
  }

  /** The request is formed from the claim cursor. At byte zero the worker takes
      the election response instead, unless another one got there first. */
  predicate AttemptStep(src: Bytes, e: Engine, w: nat, e': Engine)
    requires w in e.workers
  {
    var pc := e.workers[w].pc;
    && pc.Fetch? && pc.c in e.s.chunks
    && var c := e.s.chunks[pc.c];
       if c.Drained() then
         e' == e.(workers := SetPc(e, w, Finish(pc.c)))
       else
         || (c.Cursor() == 0 && e.initial
             && e' == e.(initial := false, workers := SetPc(e, w, Asked(pc.c, 0, |src|, c.end))))
         || e' == e.(workers := SetPc(e, w, Asked(pc.c, c.Cursor(), c.end, c.end)))
  }

  predicate RespondStep(src: Bytes, e: Engine, w: nat, resp: Response, e': Engine)
    requires w in e.workers
  {
    var pc := e.workers[w].pc;
    && pc.Asked?
    && e' == e.(workers := SetPc(e, w,
         if Accepts(resp, pc.cursor, pc.requested, |src|)
         then Body(pc.c, resp.first, Min(resp.last + 1, pc.end))
         else Left(pc.c, true)))
  }

  /** A retryable failure, a capped range or a truncated body. */
  predicate RetryStep(e: Engine, w: nat, e': Engine)
    requires w in e.workers
  {
    var pc := e.workers[w].pc;
    && (pc.Asked? || pc.Body?)
    && e' == e.(workers := SetPc(e, w, Fetch(pc.c)))
  }

  /** downloadChunk returns an error. */
  predicate GiveUpStep(e: Engine, w: nat, permanent: bool, e': Engine)
    requires w in e.workers
  {
    var pc := e.workers[w].pc;
    && (pc.Fetch? || pc.Asked? || pc.Body?)
    && e' == e.(workers := SetPc(e, w, Left(pc.c, permanent)))
  }

  /** n body bytes arrive and are claimed; what the chunk no longer has room
      for is dropped. */
  predicate ReadStep(src: Bytes, e: Engine, w: nat, n: nat, e': Engine)
    requires w in e.workers
  {
    var pc := e.workers[w].pc;
    && pc.Body? && 1 <= n <= pc.lim - pc.pos && pc.c in e.s.chunks
    && 0 <= pc.pos && pc.pos + n <= |src|
    && var c := e.s.chunks[pc.c];
       var k := ClaimSize(c, n);
       && 0 <= k <= n
       && e' == e.(s := Claim(e.s, pc.c, n),
                   claimed := e.claimed + Interval(c.Cursor(), c.Cursor() + k),
                   workers := SetPc(e, w, Claimed(pc.c, c.Cursor(), src[pc.pos..pc.pos + n][..k],
                                                  c.Cursor() + k >= c.end, pc.pos + n, pc.lim)))
  }

  predicate WriteStep(e: Engine, w: nat, e': Engine)
    requires w in e.workers
  {
    var pc := e.workers[w].pc;
    && pc.Claimed?
    && e' == e.(file := Overwrite(e.file, pc.at, pc.data),
                workers := SetPc(e, w, Wrote(pc.c, pc.at, |pc.data|, pc.stop, pc.pos, pc.lim)))
  }

  /** WriteAt fails after putting n bytes down. */
  predicate WriteErrorStep(e: Engine, w: nat, n: nat, e': Engine)
    requires w in e.workers
  {
    var pc := e.workers[w].pc;
    && pc.Claimed? && n <= |pc.data|
    && e' == e.(file := Overwrite(e.file, pc.at, pc.data[..n]),
                workers := SetPc(e, w, Left(pc.c, true)))
  }

  predicate CreditStep(e: Engine, w: nat, e': Engine)
    requires w in e.workers
  {
    var pc := e.workers[w].pc;
    && pc.Wrote? && pc.c in e.s.chunks
    && e' == e.(s := Credit(e.s, pc.c, pc.n),
                workers := SetPc(e, w, if pc.stop then Finish(pc.c) else Body(pc.c, pc.pos, pc.lim)))
  }

  /** The chunk is completed, at the end of downloadChunk or in the net. */
  predicate DoneStep(e: Engine, w: nat, e': Engine)
    requires w in e.workers
  {
    var pc := e.workers[w].pc;
    && (pc.Finish? || pc.Netted?)
    && e' == e.(s := Complete(e.s, pc.c), workers := SetPc(e, w, Reporting(pc.c, pc.Netted?)))
  }

  /** ChunkDone, outside the scheduler's lock. */
  predicate ReportStep(e: Engine, w: nat, e': Engine)
    requires w in e.workers
  {
    var pc := e.workers[w].pc;
    && pc.Reporting?
    && e' == e.(reported := e.reported + [pc.c], workers := SetPc(e, w, if pc.last then Leaving(false) else Idle))
  }

  /** run()'s first look at its context, context.Cause: was it a retirement? */
  predicate SettleStep(e: Engine, w: nat, e': Engine)
    requires w in e.workers
  {
    var pc := e.workers[w].pc;
    && pc.Left? && pc.c in e.s.chunks
    && e' == e.(workers := SetPc(e, w,
         if !e.workers[w].retired then Unretired(pc.c, pc.permanent)
         else if !pc.permanent && NetHolds(e.s.chunks[pc.c]) then Netted(pc.c)
         else Leaving(true)))
  }

  /** run()'s second look, ctx.Err: is the error the noise of a cancellation?
      A retirement that landed since the first look counts as one. The run's own
      cancellation reaches the workers one after the other. */
  predicate ResignStep(e: Engine, w: nat, e': Engine)
    requires w in e.workers
  {
    var pc := e.workers[w].pc;
    && pc.Unretired?
    && if e.workers[w].retired then
         e' == e.(lost := e.lost + {pc.c}, workers := SetPc(e, w, Leaving(false)))
       else
         || e' == e.(workers := SetPc(e, w, Leaving(true)))
         || (e.cancelled && e' == e.(workers := SetPc(e, w, Leaving(false))))
  }

  predicate LeaveStep(e: Engine, w: nat, e': Engine)
    requires w in e.workers
  {
    var pc := e.workers[w].pc;
    && pc.Leaving?
    && e' == e.(s := Deregister(e.s, w), workers := SetPc(e, w, if pc.failing then Failing else Exited))
  }

  /** The pool's fail(): the first error stops the run. */
  predicate FailStep(e: Engine, w: nat, e': Engine)
    requires w in e.workers
  {
    && e.workers[w].pc.Failing?
    && e' == e.(cancelled := true, workers := SetPc(e, w, Exited))
  }

  ghost predicate WorkerStep(src: Bytes, e: Engine, op: Op, w: nat, e': Engine)
    requires w in e.workers
  {
    match op
    case NextChunk(_, v, r) => NextStep(e, w, v, r, e')
    case Quit(_) => QuitStep(e, w, e')
    case Attempt(_) => AttemptStep(src, e, w, e')
    case Respond(_, resp) => RespondStep(src, e, w, resp, e')
    case Retry(_) => RetryStep(e, w, e')
    case GiveUp(_, permanent) => GiveUpStep(e, w, permanent, e')
    case Read(_, n) => ReadStep(src, e, w, n, e')
    case WriteOut(_) => WriteStep(e, w, e')
    case WriteError(_, n) => WriteErrorStep(e, w, n, e')
    case CreditWritten(_) => CreditStep(e, w, e')
    case Done(_) => DoneStep(e, w, e')
    case Report(_) => ReportStep(e, w, e')
    case Settle(_) => SettleStep(e, w, e')
    case Resign(_) => ResignStep(e, w, e')
    case Leave(_) => LeaveStep(e, w, e')
    case Fail(_) => FailStep(e, w, e')
    case _ => false
  }

  // ---- the steps of the run ----

  predicate SpawnStep(e: Engine, w: nat, e': Engine) {
    w !in e.workers && e' == e.(workers := e.workers[w := Worker(Idle, false)])
  }

  /** retire() first demotes under the scheduler's lock ... */
  ghost predicate RetireStep(e: Engine, keep: int, vs: seq<nat>, order: seq<nat>, e': Engine) {
    && Demote(e.s, keep, vs, order, e'.s)
    && e' == e.(s := e'.s, victims := e.victims + SetOf(vs))
  }

  function Woken(e: Engine, w: nat): map<nat, Worker> {
    if w in e.workers && !e.workers[w].pc.Exited? then e.workers[w := e.workers[w].(retired := true)] else e.workers
  }

  /** ... and then cancels each victim that is still running and that the run's
      own cancellation has not reached before. */
  predicate WakeStep(e: Engine, w: nat, e': Engine) {
    && w in e.victims
    && (e' == e.(victims := e.victims - {w}, workers := Woken(e, w))
        || (e.cancelled && e' == e.(victims := e.victims - {w})))
  }

  ghost predicate Step(src: Bytes, e: Engine, op: Op, e': Engine) {
    match op
    case Spawn(w) => SpawnStep(e, w, e')
    case Cancel => e' == e.(cancelled := true)
    case Retire(keep, vs, order) => RetireStep(e, keep, vs, order, e')
    case Wake(w) => WakeStep(e, w, e')
    case _ => op.w in e.workers && WorkerStep(src, e, op, op.w, e')
  }

  ghost predicate StepAt(src: Bytes, es: seq<Engine>, ops: seq<Op>, i: nat)
    requires i < |ops| && i + 1 < |es|
  {
    Step(src, es[i], ops[i], es[i + 1])
  }

  /** A run: states and the operations between them. */
  ghost predicate Run(src: Bytes, es: seq<Engine>, ops: seq<Op>) {
    && |es| == |ops| + 1
    && forall i {:trigger StepAt(src, es, ops, i)} :: 0 <= i < |ops| ==> StepAt(src, es, ops, i)
  }

  // ---- invariant ----

  /** No worker is on its way out with an error, and nobody was told to stop. */
  ghost predicate Healthy(e: Engine) {
    && !e.cancelled
    && forall w :: w in e.workers ==> e.workers[w].pc != Leaving(true) && e.workers[w].pc != Failing
  }

  /** Byte b of the file is the source's. */
  predicate RightAt(src: Bytes, file: Bytes, b: int) {
    0 <= b < |file| && b < |src| && file[b] == src[b]
  }

  ghost predicate Matches(src: Bytes, file: Bytes, lo: int, hi: int) {
    forall b :: lo <= b < hi ==> RightAt(src, file, b)
  }

  /** What holds of a worker that holds chunk k of owner w. */
  ghost predicate ChunkPcOk(src: Bytes, file: Bytes, k: Chunk, pc: Pc) {
    match pc
    case Fetch(_) => k.written == k.done
    case Asked(_, cursor, requested, end) =>
      && k.written == k.done && cursor == k.Cursor()
      && cursor < end <= |src| && (requested == end || requested == |src|)
    case Body(_, pos, lim) =>
      k.written == k.done && pos == k.Cursor() && pos <= lim <= |src|
    case Claimed(_, at, data, stop, pos, lim) =>
      && k.done == k.written + |data| && at == k.off + k.written
      && 0 <= at && at + |data| <= |src| && data == src[at..at + |data|]
      && (stop ==> k.Drained()) && (!stop ==> pos == k.Cursor()) && pos <= lim <= |src|
    case Wrote(_, at, n, stop, pos, lim) =>
      && k.done == k.written + n && at == k.off + k.written
      && Matches(src, file, at, at + n)
      && (stop ==> k.Drained()) && (!stop ==> pos == k.Cursor()) && pos <= lim <= |src|
    case Finish(_) => k.written == k.done && k.Drained()
    case Left(_, permanent) => !permanent ==> k.written == k.done
    case Unretired(_, permanent) => !permanent ==> k.written == k.done
    case Netted(_) => k.written == k.done && k.Drained()
    case _ => true
  }

  ghost predicate PcOk(src: Bytes, file: Bytes, s: Sched, w: nat, pc: Pc) {
    pc.HasChunk() ==>
      && pc.c in s.active && pc.c in s.chunks && s.chunks[pc.c].owner == w && w in s.live
      && ChunkPcOk(src, file, s.chunks[pc.c], pc)
  }

  ghost predicate PcsOk(src: Bytes, e: Engine) {
    forall w :: w in e.workers ==> PcOk(src, e.file, e.s, w, e.workers[w].pc)
  }

  /** Every active chunk is held by its owner, or its owner is on the way out. */
  ghost predicate OwnersOk(e: Engine) {
    forall id :: id in e.s.active && id in e.s.chunks ==>
      var w := e.s.chunks[id].owner;
      && w in e.workers
      && (e.workers[w].pc.Gone() || (e.workers[w].pc.HasChunk() && e.workers[w].pc.c == id))
  }

  /** Except for the lost ones, a chunk is abandoned only in a run that is
      failing or was stopped. */
  ghost predicate NoneAbandoned(e: Engine) {
    Healthy(e) ==> forall id :: id in e.s.active && id in e.s.chunks && id !in e.lost ==>
      e.s.chunks[id].owner in e.workers && e.workers[e.s.chunks[id].owner].pc.HasChunk()
  }

  /** A lost chunk is drained, and its worker is gone. */
  ghost predicate LostOk(e: Engine) {
    forall id :: id in e.lost ==>
      && id in e.s.active && id in e.s.chunks && e.s.chunks[id].Drained()
      && e.s.chunks[id].owner in e.workers && e.workers[e.s.chunks[id].owner].pc.Gone()
  }

  ghost predicate LiveOk(e: Engine) {
    forall w :: w in e.s.live ==> w in e.workers && !e.workers[w].pc.Exited? && !e.workers[w].pc.Failing?
  }

  /** Whoever was told to retire is marked in the scheduler or has left it. */
  ghost predicate RetireOk(e: Engine) {
    && (forall w :: w in e.victims ==> w in e.workers)
    && (forall w :: w in e.workers && (w in e.victims || e.workers[w].retired) ==>
          w in e.s.retiring || e.workers[w].pc.Exited? || e.workers[w].pc.Failing?)
    && (forall w :: w in e.workers && e.workers[w].pc.Departing() ==>
          e.workers[w].retired || e.cancelled)
  }

  ghost predicate RegisteredOk(e: Engine) {
    !e.registered ==>
      && e.s.live == {} && e.s.active == {} && e.victims == {}
      && forall w :: w in e.workers ==> !e.workers[w].retired && (e.workers[w].pc.Idle? || e.cancelled)
  }

  ghost predicate ServedOk(e: Engine) {
    Healthy(e) ==> ActiveServed(e.s) && (e.registered ==> PendingServed(e.s))
  }

  /** Claimed and unclaimed bytes partition the file. */
  ghost predicate ClaimedOk(src: Bytes, e: Engine) {
    && (forall b :: b in e.claimed ==> !Unclaimed(e.s.chunks, b))
    && (forall b :: 0 <= b < |src| ==> b in e.claimed || Unclaimed(e.s.chunks, b))
  }

  /** What is not owed is on disk. */
  ghost predicate FileOk(src: Bytes, e: Engine) {
    && |e.file| == |src|
    && forall b :: 0 <= b < |src| && !Owed(e.s.chunks, b) ==> RightAt(src, e.file, b)
  }

  ghost predicate Inv(src: Bytes, e: Engine) {
    && Valid(e.s, |src|) && PcsOk(src, e) && OwnersOk(e) && NoneAbandoned(e) && LostOk(e) && LiveOk(e)
    && RetireOk(e) && RegisteredOk(e) && ServedOk(e) && RetiringDrained(e.s)
    && ClaimedOk(src, e) && FileOk(src, e)
  }
}
