/** Any chain of runs against one staging file, with a process crash possible
    between any two steps: what is on disk never lies.

    A representation is what the server serves at one time. The server is
    trusted in one respect only: two representations of one source and size
    have the same bytes when the validator a sidecar would compare agrees. */
module Resume {
  import opened Wrappers
  import opened SchedulerModel
  import opened SchedulerLaws
  import opened Engine
  import opened EngineLaws
  import opened Guarantees
  import opened Sidecar
  import opened Snapshots

  datatype Rep = Rep(sourceID: string, etag: string, lastModified: string, bytes: Bytes)

  predicate SameValidator(a: Rep, b: Rep) {
    if IsStrongETag(a.etag) then a.etag == b.etag
    else a.lastModified != "" && a.lastModified == b.lastModified
  }

  ghost predicate Honest(reps: set<Rep>) {
    forall a, b :: a in reps && b in reps && a.sourceID == b.sourceID && |a.bytes| == |b.bytes| && SameValidator(a, b)
      ==> a.bytes == b.bytes
  }

  /** run.validator() is not empty. */
  predicate Resumable(r: Rep) {
    IsStrongETag(r.etag) || r.lastModified != ""
  }

  /** What the process that owns the staging file is doing. */
  datatype Process =
    | Nobody
    | Opened(rep: Rep)
    | Invalidated(rep: Rep)
    | Running(rep: Rep, e: Engine, flush: Option<seq<ChunkState>>)
    | Installed
    | SingleOpened
    | SingleWriting

  /** `recorded` is the representation the sidecar on disk was written for. */
  datatype World = World(part: Bytes, sidecar: Option<StateFile>, process: Process, recorded: Rep)

  datatype Move =
    | Open(rep: Rep, e: Engine, n: int, vs: seq<nat>, minSize: int)
    | Invalidate
    | Truncate(e: Engine, n: int, vs: seq<nat>, minSize: int)
    | Work(op: Op)
    | Snapshot(order: seq<nat>, out: seq<ChunkState>)
    | Save
    | SaveFails
    | Install
    | RemoveSidecar
    | Crash
    | OpenSingle
    | InvalidateSingle
    | WriteSingle(part: Bytes)

  function Record(rep: Rep, cs: seq<ChunkState>): StateFile {
    StateFile(STATE_VERSION, rep.sourceID, |rep.bytes|, rep.etag, rep.lastModified, cs)
  }

  /** loadState and usable together. */
  ghost predicate Resumes(w: World, rep: Rep) {
    && w.sidecar.Some? && Loadable(w.sidecar.value)
    && Usable(w.sidecar.value, |w.part|, rep.sourceID, |rep.bytes|, rep.etag, rep.lastModified)
  }

  /** The engine runWorkers starts with, over the chunks multipart seeded. */
  ghost predicate Begins(e: Engine, seeded: Sched, n: int, vs: seq<nat>, file: Bytes, size: nat) {
    && Prepare(seeded, n, vs, e.s)
    && e.file == file && e.workers == map[] && e.victims == {}
    && !e.cancelled && !e.registered && e.reported == [] && e.lost == {}
    && (forall b :: b in e.claimed <==> 0 <= b < size && !Unclaimed(e.s.chunks, b))
  }

  ghost predicate WorldStep(reps: set<Rep>, w: World, m: Move, w': World) {
    match m
    case Open(rep, e, n, vs, minSize) =>
      && w.process.Nobody? && rep in reps && |rep.bytes| > 0 && minSize >= 1
      && (if Resumes(w, rep) then
            var cs := w.sidecar.value.chunks;
            Begins(e, Seeded(cs, |cs|, minSize), n, vs, w.part, |rep.bytes|) && w' == w.(process := Running(rep, e, None))
          else w' == w.(process := Opened(rep)))
    case Invalidate =>
      w.process.Opened? && w' == w.(sidecar := None, process := Invalidated(w.process.rep))
    case Truncate(e, n, vs, minSize) =>
      && w.process.Invalidated? && minSize >= 1
      && var rep := w.process.rep;
         && |e.file| == |rep.bytes|
         && Begins(e, AddPending(Empty(minSize), 0, |rep.bytes|, 0), n, vs, e.file, |rep.bytes|)
         && w' == w.(part := e.file, process := Running(rep, e, None))
    case Work(op) =>
      && w.process.Running? && w'.process.Running?
      && Step(w.process.rep.bytes, w.process.e, op, w'.process.e)
      && w' == w.(part := w'.process.e.file, process := w.process.(e := w'.process.e))
    case Snapshot(order, out) =>
      && w.process.Running? && Resumable(w.process.rep) && IsSnapshot(w.process.e.s, order, out)
      && w' == w.(process := w.process.(flush := Some(out)))
    case Save =>
      && w.process.Running? && w.process.flush.Some?
      && w' == w.(sidecar := Some(Record(w.process.rep, w.process.flush.value)),
                  process := w.process.(flush := None), recorded := w.process.rep)
    case SaveFails =>
      w.process.Running? && w' == w.(process := w.process.(flush := None))
    case Install =>
      && w.process.Running? && AllLeft(w.process.e) && !w.process.e.cancelled && SchedIdle(w.process.e.s)
      && w' == w.(part := [], process := Installed)
    case RemoveSidecar =>
      w.process.Installed? && w' == w.(sidecar := None, process := Nobody)
    case Crash =>
      w' == w.(process := Nobody)
    case OpenSingle =>
      w.process.Nobody? && w' == w.(process := SingleOpened)
    case InvalidateSingle =>
      (w.process.SingleOpened? || w.process.SingleWriting?) && w' == w.(sidecar := None, process := SingleWriting)
    case WriteSingle(part) =>
      w.process.SingleWriting? && w' == w.(part := part)
  }

  // ---- invariant ----

  /** Bytes the sidecar does not ask for are right. */
  ghost predicate Vouched(cs: seq<ChunkState>, part: Bytes, bytes: Bytes) {
    |part| == |bytes| ==> forall b :: 0 <= b < |bytes| && !Needs(cs, b) ==> RightAt(bytes, part, b)
  }

  ghost predicate SidecarSound(reps: set<Rep>, w: World) {
    w.sidecar.Some? ==>
      var st := w.sidecar.value;
      && w.recorded in reps && st == Record(w.recorded, st.chunks)
      && Vouched(st.chunks, w.part, w.recorded.bytes)
  }

  ghost predicate ProcessOk(reps: set<Rep>, w: World) {
    match w.process
    case Opened(rep) => rep in reps && |rep.bytes| > 0
    case Invalidated(rep) => rep in reps && |rep.bytes| > 0 && w.sidecar == None
    case Running(rep, e, flush) =>
      && rep in reps && |rep.bytes| > 0 && Inv(rep.bytes, e) && w.part == e.file
      && (w.sidecar.Some? ==> w.recorded.bytes == rep.bytes)
      && (flush.Some? ==> Vouched(flush.value, w.part, rep.bytes))
    case Installed => w.part == []
    case SingleWriting => w.sidecar == None
    case _ => true
  }

  ghost predicate WorldOk(reps: set<Rep>, w: World) {
    SidecarSound(reps, w) && ProcessOk(reps, w)
  }

  // ---- one step ----

  lemma UsableMeansSame(reps: set<Rep>, w: World, rep: Rep)
    requires Honest(reps) && SidecarSound(reps, w) && rep in reps && Resumes(w, rep)
    ensures w.recorded.bytes == rep.bytes
  {
    assert SameValidator(w.recorded, rep);
  }

  lemma VouchedGrows(cs: seq<ChunkState>, part: Bytes, part': Bytes, bytes: Bytes)
    requires Vouched(cs, part, bytes) && |part| == |bytes| && FileGrows(bytes, part, part')
    ensures Vouched(cs, part', bytes)
  {
  }

  lemma BeginsOk(e: Engine, seeded: Sched, n: int, vs: seq<nat>, file: Bytes, src: Bytes)
    requires Begins(e, seeded, n, vs, file, |src|) && Valid(seeded, |src|)
    requires seeded.live == {} && seeded.retiring == {} && seeded.active == {} && seeded.limit == 0
    requires |file| == |src| && forall b :: 0 <= b < |src| && !Owed(seeded.chunks, b) ==> RightAt(src, file, b)
    ensures Initial(src, e) && Inv(src, e)
  {
    HalvingsKeep(seeded, n, vs, e.s, |src|);
    assert FileOk(src, e) by {
      assert forall b :: Owed(seeded.chunks, b) <==> Owed(e.s.chunks, b);
    }
    assert ClaimedOk(src, e);
    InitialInv(src, e);
  }

  lemma OpenOk(reps: set<Rep>, w: World, rep: Rep, e: Engine, n: int, vs: seq<nat>, minSize: int)
    requires Honest(reps) && WorldOk(reps, w) && rep in reps && Resumes(w, rep) && minSize >= 1
    requires var cs := w.sidecar.value.chunks; Begins(e, Seeded(cs, |cs|, minSize), n, vs, w.part, |rep.bytes|)
    ensures Inv(rep.bytes, e)
  {
    var cs := w.sidecar.value.chunks;
    UsableMeansSame(reps, w, rep);
    SeededValid(cs, |cs|, minSize, |rep.bytes|);
    var seeded := Seeded(cs, |cs|, minSize);
    forall b | 0 <= b < |rep.bytes| && !Owed(seeded.chunks, b) ensures RightAt(rep.bytes, w.part, b) {
      SeededOffers(cs, |cs|, minSize, |rep.bytes|, b);
    }
    BeginsOk(e, seeded, n, vs, w.part, rep.bytes);
  }

  lemma FreshOk(rep: Rep, e: Engine, n: int, vs: seq<nat>, minSize: int)
    requires |rep.bytes| > 0 && minSize >= 1 && |e.file| == |rep.bytes|
    requires Begins(e, AddPending(Empty(minSize), 0, |rep.bytes|, 0), n, vs, e.file, |rep.bytes|)
    ensures Inv(rep.bytes, e)
  {
    var s := AddPending(Empty(minSize), 0, |rep.bytes|, 0);
    AddPendingKeeps(Empty(minSize), 0, |rep.bytes|, 0, |rep.bytes|);
    forall b | 0 <= b < |rep.bytes| ensures Owed(s.chunks, b) {
      AddOffers(Empty(minSize), 0, |rep.bytes|, 0, b);
    }
    BeginsOk(e, s, n, vs, e.file, rep.bytes);
  }

  lemma WriteOutGrows(src: Bytes, e: Engine, w: nat, e': Engine)
    requires FileOk(src, e) && w in e.workers && PcOk(src, e.file, e.s, w, e.workers[w].pc)
    requires WriteStep(e, w, e')
    ensures FileGrows(src, e.file, e'.file) && |e'.file| == |src|
  {
    OverwriteGrows(src, e.file, e.workers[w].pc.at, e.workers[w].pc.data);
  }

  lemma WriteErrorGrows(src: Bytes, e: Engine, w: nat, n: nat, e': Engine)
    requires FileOk(src, e) && w in e.workers && PcOk(src, e.file, e.s, w, e.workers[w].pc)
    requires WriteErrorStep(e, w, n, e')
    ensures FileGrows(src, e.file, e'.file) && |e'.file| == |src|
  {
    var pc := e.workers[w].pc;
    assert pc.data[..n] == src[pc.at..pc.at + n];
    OverwriteGrows(src, e.file, pc.at, pc.data[..n]);
  }

  lemma StepGrows(src: Bytes, e: Engine, op: Op, e': Engine)
    requires FileOk(src, e) && PcsOk(src, e) && Step(src, e, op, e')
    ensures FileGrows(src, e.file, e'.file) && |e'.file| == |src|
  {
    if op.WriteOut? {
      WriteOutGrows(src, e, op.w, e');
    } else if op.WriteError? {
      WriteErrorGrows(src, e, op.w, op.n, e');
    } else if !op.Spawn? && !op.Cancel? && !op.Wake? && !op.Retire? {
      WorkerFile(src, e, op, op.w, e');
    }
  }

  lemma WorkOk(reps: set<Rep>, w: World, op: Op, w': World)
    requires WorldOk(reps, w) && WorldStep(reps, w, Work(op), w')
    ensures WorldOk(reps, w')
  {
    var rep := w.process.rep;
    StepKeeps(rep.bytes, w.process.e, op, w'.process.e);
    StepGrows(rep.bytes, w.process.e, op, w'.process.e);
    if w.sidecar.Some? {
      VouchedGrows(w.sidecar.value.chunks, w.part, w'.part, w.recorded.bytes);
    }
    if w.process.flush.Some? {
      VouchedGrows(w.process.flush.value, w.part, w'.part, rep.bytes);
    }
  }

  lemma SnapshotOk(reps: set<Rep>, w: World, order: seq<nat>, out: seq<ChunkState>, w': World)
    requires WorldOk(reps, w) && WorldStep(reps, w, Snapshot(order, out), w')
    ensures WorldOk(reps, w')
  {
    var rep := w.process.rep;
    forall b | 0 <= b < |rep.bytes| && !Needs(out, b) ensures RightAt(rep.bytes, w.part, b) {
      SnapshotNeedsWhatIsOwed(w.process.e.s, order, out, |rep.bytes|, b);
    }
  }

  lemma WorldStepOk(reps: set<Rep>, w: World, m: Move, w': World)
    requires Honest(reps) && WorldOk(reps, w) && WorldStep(reps, w, m, w')
    ensures WorldOk(reps, w')
  {
    match m {
      case Open(rep, e, n, vs, minSize) =>
        if Resumes(w, rep) {
          UsableMeansSame(reps, w, rep);
          OpenOk(reps, w, rep, e, n, vs, minSize);
        }
      case Truncate(e, n, vs, minSize) => FreshOk(w.process.rep, e, n, vs, minSize);
      case Work(op) => WorkOk(reps, w, op, w');
      case Snapshot(order, out) => SnapshotOk(reps, w, order, out, w');
      case Invalidate =>
      case Save =>
      case SaveFails =>
      case Install =>
      case RemoveSidecar =>
      case Crash =>
      case OpenSingle =>
      case InvalidateSingle =>
      case WriteSingle(part) =>
    }
  }

  // ---- any chain of runs ----

  ghost predicate WorldAt(reps: set<Rep>, ws: seq<World>, ms: seq<Move>, i: nat)
    requires i < |ms| && i + 1 < |ws|
  {
    WorldStep(reps, ws[i], ms[i], ws[i + 1])
  }

  /** A history that begins with no sidecar and nobody at work. */
  ghost predicate History(reps: set<Rep>, ws: seq<World>, ms: seq<Move>) {
    && Honest(reps) && |ws| == |ms| + 1
    && ws[0].sidecar == None && ws[0].process == Nobody
    && forall i {:trigger WorldAt(reps, ws, ms, i)} :: 0 <= i < |ms| ==> WorldAt(reps, ws, ms, i)
  }

  lemma {:induction false} HistoryOk(reps: set<Rep>, ws: seq<World>, ms: seq<Move>, i: nat)
    requires History(reps, ws, ms) && i < |ws|
    ensures WorldOk(reps, ws[i])
  {
    if i > 0 {
      HistoryOk(reps, ws, ms, i - 1);
      assert WorldAt(reps, ws, ms, i - 1);
      WorldStepOk(reps, ws[i - 1], ms[i - 1], ws[i]);
    }
  }

  /** Whenever a new run would accept the sidecar it finds, every byte the
      sidecar does not ask for is already the right one for the representation
      that run downloads: whatever runs, errors and crashes came before. */
  lemma ResumeIsSafe(reps: set<Rep>, ws: seq<World>, ms: seq<Move>, i: nat, rep: Rep, b: int)
    requires History(reps, ws, ms) && i < |ws| && rep in reps && Resumes(ws[i], rep)
    requires 0 <= b < |rep.bytes| && !Needs(ws[i].sidecar.value.chunks, b)
    ensures b < |ws[i].part| && ws[i].part[b] == rep.bytes[b]
  {
    HistoryOk(reps, ws, ms, i);
    UsableMeansSame(reps, ws[i], rep);
  }

  /** What a finished run installs is the representation it set out to fetch,
      even when earlier runs fetched part of it. */
  lemma InstalledFileIsComplete(reps: set<Rep>, ws: seq<World>, ms: seq<Move>, i: nat)
    requires History(reps, ws, ms) && i < |ms| && ms[i] == Install
    ensures ws[i].process.Running? && ws[i].part == ws[i].process.rep.bytes
  {
    HistoryOk(reps, ws, ms, i);
    assert WorldAt(reps, ws, ms, i);
    var rep := ws[i].process.rep;
    var e := ws[i].process.e;
    LeftIsLost(rep.bytes, e);
  }
}
