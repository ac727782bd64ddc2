/** Every step of a run keeps the engine's invariant. */
module EngineLaws {
  import opened Intervals
  import opened SchedulerModel
  import opened SchedulerLaws
  import opened Engine

  // ---- framing: what a step of one worker leaves to the others ----

  /** Bytes that are right stay right. */
  ghost predicate FileGrows(src: Bytes, file: Bytes, file': Bytes) {
    |file| <= |file'| && forall b :: RightAt(src, file, b) ==> RightAt(src, file', b)
  }

  ghost predicate OthersKept(e: Engine, w: nat, e': Engine) {
    && e'.workers.Keys == e.workers.Keys
    && (forall u :: u in e.workers && u != w ==> e'.workers[u] == e.workers[u])
    && (forall id :: id in e.s.active && id in e.s.chunks && e.s.chunks[id].owner != w ==>
          id in e'.s.active && id in e'.s.chunks && Kept(e.s.chunks[id], e'.s.chunks[id]))
    && (forall u :: u in e.s.live && u != w ==> u in e'.s.live)
  }

  lemma MatchesKept(src: Bytes, file: Bytes, file': Bytes, lo: int, hi: int)
    requires Matches(src, file, lo, hi) && FileGrows(src, file, file')
    ensures Matches(src, file', lo, hi)
  {
  }

  lemma ChunkPcKept(src: Bytes, file: Bytes, file': Bytes, k: Chunk, k': Chunk, pc: Pc)
    requires ChunkPcOk(src, file, k, pc) && Kept(k, k') && FileGrows(src, file, file')
    ensures ChunkPcOk(src, file', k', pc)
  {
    if pc.Wrote? { MatchesKept(src, file, file', pc.at, pc.at + pc.n); }
  }

  lemma FramePcs(src: Bytes, e: Engine, w: nat, e': Engine)
    requires PcsOk(src, e) && OthersKept(e, w, e') && FileGrows(src, e.file, e'.file)
    requires w in e'.workers ==> PcOk(src, e'.file, e'.s, w, e'.workers[w].pc)
    ensures PcsOk(src, e')
  {
    forall u | u in e'.workers ensures PcOk(src, e'.file, e'.s, u, e'.workers[u].pc) {
      if u != w && e.workers[u].pc.HasChunk() {
        var pc := e.workers[u].pc;
        assert PcOk(src, e.file, e.s, u, pc);
        ChunkPcKept(src, e.file, e'.file, e.s.chunks[pc.c], e'.s.chunks[pc.c], pc);
      }
    }
  }

  /** The chunks lost so far stay as they are: nobody holds them. */
  lemma FrameLost(e: Engine, w: nat, e': Engine)
    requires LostOk(e) && e'.lost == e.lost && OthersKept(e, w, e') && w in e.workers
    requires !e.workers[w].pc.Gone()
    ensures LostOk(e')
  {
  }

  /** Writing the source's own bytes never spoils the file. */
  lemma OverwriteGrows(src: Bytes, file: Bytes, at: int, data: Bytes)
    requires 0 <= at && at + |data| <= |src| && data == src[at..at + |data|] && |file| == |src|
    ensures |Overwrite(file, at, data)| == |file|
    ensures FileGrows(src, file, Overwrite(file, at, data))
    ensures Matches(src, Overwrite(file, at, data), at, at + |data|)
  {
    var file' := Overwrite(file, at, data);
    forall b | RightAt(src, file, b) ensures RightAt(src, file', b) {
      if at <= b < at + |data| { assert data[b - at] == src[b]; }
    }
    forall b | at <= b < at + |data| ensures RightAt(src, file', b) { assert data[b - at] == src[b]; }
  }

  // ---- steps that change one program counter and perhaps the file ----

  predicate SameHold(pc: Pc, pc': Pc) {
    && pc.HasChunk() == pc'.HasChunk()
    && (pc.HasChunk() ==> pc'.c == pc.c)
    && !pc'.Exited? && !pc'.Failing? && pc' != Leaving(true)
    && (pc.Gone() ==> pc'.Gone())
    && !pc.Gone()
  }

  ghost predicate PcOnly(e: Engine, w: nat, pc': Pc, e': Engine)
    requires w in e.workers
  {
    && e'.s == e.s && e'.victims == e.victims && e'.cancelled == e.cancelled
    && e'.registered == e.registered && e'.claimed == e.claimed && e'.lost == e.lost
    && e'.workers == SetPc(e, w, pc')
  }

  lemma PcOnlyKeeps(src: Bytes, e: Engine, w: nat, pc': Pc, e': Engine)
    requires Inv(src, e) && w in e.workers && PcOnly(e, w, pc', e')
    requires SameHold(e.workers[w].pc, pc')
    requires pc'.Idle? || e.registered || e.cancelled
    requires pc'.Departing() ==> e.workers[w].retired || e.cancelled
    requires PcOk(src, e'.file, e'.s, w, pc')
    requires FileGrows(src, e.file, e'.file) && |e'.file| == |e.file|
    ensures Inv(src, e')
  {
    FramePcs(src, e, w, e');
    HealthyBack(e, w, e');
    FrameLost(e, w, e');
    PcOnlyOwners(e, w, pc', e');
    PcOnlyBook(e, w, pc', e');
    PcOnlyBytes(src, e, w, pc', e');
  }

  lemma PcOnlyOwners(e: Engine, w: nat, pc': Pc, e': Engine)
    requires OwnersOk(e) && NoneAbandoned(e) && w in e.workers && PcOnly(e, w, pc', e')
    requires SameHold(e.workers[w].pc, pc') && (Healthy(e') ==> Healthy(e))
    ensures OwnersOk(e') && NoneAbandoned(e')
  {
  }

  lemma PcOnlyBook(e: Engine, w: nat, pc': Pc, e': Engine)
    requires BookOk(e) && w in e.workers && PcOnly(e, w, pc', e') && SameHold(e.workers[w].pc, pc')
    requires pc'.Idle? || e.registered || e.cancelled
    requires pc'.Departing() ==> e.workers[w].retired || e.cancelled
    ensures BookOk(e')
  {
  }

  lemma PcOnlyBytes(src: Bytes, e: Engine, w: nat, pc': Pc, e': Engine)
    requires FileOk(src, e) && ClaimedOk(src, e) && w in e.workers && PcOnly(e, w, pc', e')
    requires FileGrows(src, e.file, e'.file) && |e'.file| == |e.file|
    ensures FileOk(src, e') && ClaimedOk(src, e')
  {
  }

  /** A step that changes one pc, not from a failing one, does not heal. */
  lemma HealthyBack(e: Engine, w: nat, e': Engine)
    requires w in e.workers && e'.workers.Keys == e.workers.Keys
    requires forall u :: u in e.workers && u != w ==> e'.workers[u] == e.workers[u]
    requires e.workers[w].pc != Leaving(true) && e.workers[w].pc != Failing
    requires e.cancelled ==> e'.cancelled
    ensures Healthy(e') ==> Healthy(e)
  {
  }

  lemma AttemptKeeps(src: Bytes, e: Engine, w: nat, e': Engine)
    requires Inv(src, e) && w in e.workers && AttemptStep(src, e, w, e')
    ensures Inv(src, e')
  {
    var pc := e.workers[w].pc;
    var c := e.s.chunks[pc.c];
    assert ChunkOk(c, |src|);
    assert PcOk(src, e.file, e.s, w, pc);
    RegisteredHolder(src, e, w);
    PcOnlyKeeps(src, e, w, e'.workers[w].pc, e');
  }

  lemma RegisteredHolder(src: Bytes, e: Engine, w: nat)
    requires Inv(src, e) && w in e.workers && e.workers[w].pc.HasChunk()
    ensures e.registered
  {
    assert PcOk(src, e.file, e.s, w, e.workers[w].pc);
  }

  /** The body begins at the claim cursor: a response that passes the header
      check starts where the worker asked. */
  lemma RespondKeeps(src: Bytes, e: Engine, w: nat, resp: Response, e': Engine)
    requires Inv(src, e) && w in e.workers && RespondStep(src, e, w, resp, e')
    ensures Inv(src, e')
  {
    var pc := e.workers[w].pc;
    assert PcOk(src, e.file, e.s, w, pc);
    RegisteredHolder(src, e, w);
    PcOnlyKeeps(src, e, w, e'.workers[w].pc, e');
  }

  lemma GiveUpKeeps(src: Bytes, e: Engine, w: nat, permanent: bool, e': Engine)
    requires Inv(src, e) && w in e.workers && GiveUpStep(e, w, permanent, e')
    ensures Inv(src, e')
  {
    assert PcOk(src, e.file, e.s, w, e.workers[w].pc);
    RegisteredHolder(src, e, w);
    PcOnlyKeeps(src, e, w, e'.workers[w].pc, e');
  }

  lemma RetryKeeps(src: Bytes, e: Engine, w: nat, e': Engine)
    requires Inv(src, e) && w in e.workers && RetryStep(e, w, e')
    ensures Inv(src, e')
  {
    assert PcOk(src, e.file, e.s, w, e.workers[w].pc);
    RegisteredHolder(src, e, w);
    PcOnlyKeeps(src, e, w, e'.workers[w].pc, e');
  }

  lemma WriteOutKeeps(src: Bytes, e: Engine, w: nat, e': Engine)
    requires Inv(src, e) && w in e.workers && WriteStep(e, w, e')
    ensures Inv(src, e')
  {
    var pc := e.workers[w].pc;
    assert PcOk(src, e.file, e.s, w, pc);
    RegisteredHolder(src, e, w);
    OverwriteGrows(src, e.file, pc.at, pc.data);
    PcOnlyKeeps(src, e, w, e'.workers[w].pc, e');
  }

  lemma WriteErrorKeeps(src: Bytes, e: Engine, w: nat, n: nat, e': Engine)
    requires Inv(src, e) && w in e.workers && WriteErrorStep(e, w, n, e')
    ensures Inv(src, e')
  {
    var pc := e.workers[w].pc;
    assert PcOk(src, e.file, e.s, w, pc);
    RegisteredHolder(src, e, w);
    assert pc.data[..n] == src[pc.at..pc.at + n];
    OverwriteGrows(src, e.file, pc.at, pc.data[..n]);
    PcOnlyKeeps(src, e, w, e'.workers[w].pc, e');
  }

  lemma QuitKeeps(src: Bytes, e: Engine, w: nat, e': Engine)
    requires Inv(src, e) && w in e.workers && QuitStep(e, w, e')
    ensures Inv(src, e')
  {
    PcOnlyKeeps(src, e, w, Leaving(false), e');
  }

  // ---- bookkeeping, conjunct by conjunct ----

  lemma SameBytesFile(src: Bytes, e: Engine, e': Engine)
    requires FileOk(src, e) && e'.file == e.file && SameOwed(e.s.chunks, e'.s.chunks)
    ensures FileOk(src, e')
  {
  }

  lemma SameBytesClaimed(src: Bytes, e: Engine, e': Engine)
    requires ClaimedOk(src, e) && e'.claimed == e.claimed && SameUnclaimed(e.s.chunks, e'.s.chunks)
    ensures ClaimedOk(src, e')
  {
  }

  /** Every active chunk of e' is an old one with its old owner, or w's own. */
  lemma FrameOwners(e: Engine, w: nat, e': Engine)
    requires OwnersOk(e) && NoneAbandoned(e) && OthersKept(e, w, e') && w in e.workers && e'.lost == e.lost
    requires Healthy(e') ==> Healthy(e)
    requires forall id :: id in e'.s.active && id in e'.s.chunks && e'.s.chunks[id].owner != w ==>
      id in e.s.active && id in e.s.chunks && e.s.chunks[id].owner == e'.s.chunks[id].owner
    requires forall id :: id in e'.s.active && id in e'.s.chunks && e'.s.chunks[id].owner == w ==>
      e'.workers[w].pc.HasChunk() && e'.workers[w].pc.c == id
    ensures OwnersOk(e') && NoneAbandoned(e')
  {
    forall id | id in e'.s.active && id in e'.s.chunks
      ensures e'.s.chunks[id].owner in e'.workers
      ensures var u := e'.s.chunks[id].owner;
        e'.workers[u].pc.Gone() || (e'.workers[u].pc.HasChunk() && e'.workers[u].pc.c == id)
      ensures Healthy(e') && id !in e'.lost ==> e'.workers[e'.s.chunks[id].owner].pc.HasChunk()
    {
      if e'.s.chunks[id].owner != w {
        assert id in e.s.active && id in e.s.chunks;
        assert e.s.chunks[id].owner in e.workers;
      }
    }
  }

  ghost predicate BookOk(e: Engine) { LiveOk(e) && RetireOk(e) && RegisteredOk(e) }

  lemma BookKept(e: Engine, w: nat, e': Engine)
    requires BookOk(e) && w in e.workers && e.registered && e'.registered
    requires e'.s.live == e.s.live && e'.s.retiring == e.s.retiring && e'.victims == e.victims
    requires w in e'.workers && e'.workers == SetPc(e, w, e'.workers[w].pc)
    requires !e.workers[w].pc.Exited? && !e.workers[w].pc.Failing?
    requires !e'.workers[w].pc.Exited? && !e'.workers[w].pc.Failing?
    requires e.cancelled ==> e'.cancelled
    requires e'.workers[w].pc.Departing() ==> e.workers[w].retired || e.cancelled
    ensures BookOk(e')
  {
  }

  /** A step of the owner on its own chunk: claiming, crediting, completing. */
  ghost predicate OwnerStep(s: Sched, id: nat, s': Sched) {
    && s'.pending == s.pending && s'.live == s.live && s'.retiring == s.retiring
    && s'.active <= s.active
    && (forall i :: i in s'.active && i in s'.chunks ==>
          && i in s.chunks && s'.chunks[i].owner == s.chunks[i].owner
          && (s.chunks[i].Drained() ==> s'.chunks[i].Drained()))
    && (forall i :: i in s.active && i in s.chunks && i != id ==>
          i in s'.active && i in s'.chunks && s'.chunks[i] == s.chunks[i])
  }

  lemma OwnerStepServed(e: Engine, id: nat, e': Engine)
    requires ServedOk(e) && RetiringDrained(e.s) && OwnerStep(e.s, id, e'.s)
    requires (Healthy(e') ==> Healthy(e)) && e'.registered == e.registered
    ensures ServedOk(e') && RetiringDrained(e'.s)
  {
    assert NonRetiring(e'.s) == NonRetiring(e.s);
  }

  lemma OwnerStepOwners(src: Bytes, e: Engine, w: nat, e': Engine)
    requires Valid(e.s, |src|) && OwnersOk(e) && NoneAbandoned(e) && w in e.workers
    requires e.workers[w].pc.HasChunk() && e.workers[w].pc.c in e.s.chunks
    requires e.s.chunks[e.workers[w].pc.c].owner == w
    requires OwnerStep(e.s, e.workers[w].pc.c, e'.s) && e'.lost == e.lost
    requires w in e'.workers && e'.workers == SetPc(e, w, e'.workers[w].pc)
    requires Healthy(e') ==> Healthy(e)
    requires (e'.workers[w].pc.HasChunk() && e'.workers[w].pc.c == e.workers[w].pc.c) ||
             e.workers[w].pc.c !in e'.s.active
    ensures OthersKept(e, w, e') && OwnersOk(e') && NoneAbandoned(e')
  {
    assert forall id :: id in e.s.chunks ==> ChunkOk(e.s.chunks[id], |src|);
    forall id | id in e'.s.active && id in e'.s.chunks && e'.s.chunks[id].owner == w
      ensures e'.workers[w].pc.HasChunk() && e'.workers[w].pc.c == id
    {
      assert id in e.s.active && id in e.s.chunks && e.s.chunks[id].owner == w;
    }
    FrameOwners(e, w, e');
  }

  lemma OwnerStepKeeps(src: Bytes, e: Engine, w: nat, e': Engine)
    requires Inv(src, e) && w in e.workers
    requires e.workers[w].pc.HasChunk() && e.workers[w].pc.c in e.s.chunks
    requires OwnerStep(e.s, e.workers[w].pc.c, e'.s)
    requires w in e'.workers && e' == e.(s := e'.s, claimed := e'.claimed, workers := SetPc(e, w, e'.workers[w].pc))
    requires !e'.workers[w].pc.Exited? && !e'.workers[w].pc.Failing? && e'.workers[w].pc != Leaving(true)
    requires e'.workers[w].pc.Departing() ==> e.workers[w].retired || e.cancelled
    requires (e'.workers[w].pc.HasChunk() && e'.workers[w].pc.c == e.workers[w].pc.c) ||
             e.workers[w].pc.c !in e'.s.active
    requires Valid(e'.s, |src|) && PcOk(src, e'.file, e'.s, w, e'.workers[w].pc)
    requires ClaimedOk(src, e') && FileOk(src, e')
    ensures Inv(src, e')
  {
    assert PcOk(src, e.file, e.s, w, e.workers[w].pc);
    HealthyBack(e, w, e');
    RegisteredHolder(src, e, w);
    OwnerStepOwners(src, e, w, e');
    OwnerStepServed(e, e.workers[w].pc.c, e');
    BookKept(e, w, e');
    FramePcs(src, e, w, e');
    FrameLost(e, w, e');
  }

  // ---- next ----

  lemma IdleHoldsNone(e: Engine, w: nat)
    requires OwnersOk(e) && w in e.workers && e.workers[w].pc.Idle?
    ensures HoldsNone(e.s, w)
  {
  }

  lemma NextOthers(e: Engine, w: nat, r: Granted, e': Engine)
    requires Shape(e.s) && OwnersOk(e) && w in e.workers && e.workers[w].pc.Idle?
    requires ActiveKept(e.s, e'.s) && NextOutcome(e.s, w, r, e'.s)
    requires e'.workers == SetPc(e, w, if r == Nothing then Exited else Fetch(r.id))
    ensures OthersKept(e, w, e')
    ensures forall id :: id in e'.s.active && id in e'.s.chunks && e'.s.chunks[id].owner != w ==>
      id in e.s.active && id in e.s.chunks && e.s.chunks[id].owner == e'.s.chunks[id].owner
    ensures forall id :: id in e'.s.active && id in e'.s.chunks && e'.s.chunks[id].owner == w ==>
      r == Granted(id)
  {
  }

  lemma NextBook(e: Engine, w: nat, r: Granted, e': Engine)
    requires BookOk(e) && w in e.workers && e.workers[w].pc.Idle?
    requires NextOutcome(e.s, w, r, e'.s)
    requires e' == e.(s := e'.s, registered := true, workers := SetPc(e, w, if r == Nothing then Exited else Fetch(r.id)))
    ensures BookOk(e')
  {
  }

  lemma NextStepKeeps(src: Bytes, e: Engine, w: nat, v: nat, r: Granted, e': Engine)
    requires Inv(src, e) && w in e.workers && NextStep(e, w, v, r, e')
    ensures Inv(src, e')
  {
    NextKeeps(e.s, w, v, r, e'.s, |src|);
    NextStepRest(src, e, w, v, r, e');
    NextStepServed(src, e, w, v, r, e');
  }

  lemma NextStepRest(src: Bytes, e: Engine, w: nat, v: nat, r: Granted, e': Engine)
    requires Inv(src, e) && w in e.workers && NextStep(e, w, v, r, e')
    requires SameBytes(e.s.chunks, e'.s.chunks) && ActiveKept(e.s, e'.s) && NextOutcome(e.s, w, r, e'.s)
    ensures PcsOk(src, e') && OwnersOk(e') && NoneAbandoned(e') && LostOk(e') && BookOk(e')
    ensures FileOk(src, e') && ClaimedOk(src, e')
  {
    NextPcs(src, e, w, r, e');
    NextOwners(e, w, r, e');
    NextOthers(e, w, r, e');
    FrameLost(e, w, e');
    NextBook(e, w, r, e');
    SameBytesFile(src, e, e');
    SameBytesClaimed(src, e, e');
  }

  lemma NextPcs(src: Bytes, e: Engine, w: nat, r: Granted, e': Engine)
    requires Shape(e.s) && PcsOk(src, e) && OwnersOk(e) && w in e.workers && e.workers[w].pc.Idle?
    requires ActiveKept(e.s, e'.s) && NextOutcome(e.s, w, r, e'.s) && e'.file == e.file
    requires e'.workers == SetPc(e, w, if r == Nothing then Exited else Fetch(r.id))
    ensures PcsOk(src, e')
  {
    NextOthers(e, w, r, e');
    FramePcs(src, e, w, e');
  }

  lemma NextOwners(e: Engine, w: nat, r: Granted, e': Engine)
    requires Shape(e.s) && OwnersOk(e) && NoneAbandoned(e) && w in e.workers && e.workers[w].pc.Idle?
    requires ActiveKept(e.s, e'.s) && NextOutcome(e.s, w, r, e'.s)
    requires e'.cancelled == e.cancelled && e'.lost == e.lost
    requires e'.workers == SetPc(e, w, if r == Nothing then Exited else Fetch(r.id))
    ensures OwnersOk(e') && NoneAbandoned(e')
  {
    NextOthers(e, w, r, e');
    HealthyBack(e, w, e');
    FrameOwners(e, w, e');
  }

  lemma NextStepServed(src: Bytes, e: Engine, w: nat, v: nat, r: Granted, e': Engine)
    requires Inv(src, e) && w in e.workers && NextStep(e, w, v, r, e')
    ensures ServedOk(e') && RetiringDrained(e'.s)
  {
    NextDrains(e.s, w, v, r, e'.s, |src|);
    HealthyBack(e, w, e');
    if Healthy(e') {
      IdleHoldsNone(e, w);
      NextServes(e.s, w, v, r, e'.s, |src|);
    }
  }

  // ---- reading: claim before write ----

  lemma SliceOfSlice(src: Bytes, pos: int, n: nat, k: nat)
    requires 0 <= pos && pos + n <= |src| && k <= n
    ensures src[pos..pos + n][..k] == src[pos..pos + k]
  {
  }

  lemma ReadPc(src: Bytes, e: Engine, w: nat, n: nat, e': Engine)
    requires Valid(e.s, |src|) && PcsOk(src, e) && w in e.workers && ReadStep(src, e, w, n, e')
    ensures PcOk(src, e'.file, e'.s, w, e'.workers[w].pc)
  {
    var pc := e.workers[w].pc;
    var c := e.s.chunks[pc.c];
    assert PcOk(src, e.file, e.s, w, pc);
    assert ChunkOk(c, |src|);
    SliceOfSlice(src, pc.pos, n, ClaimSize(c, n));
  }

  /** No byte is claimed twice and none is lost: a read takes bytes that were
      unclaimed, and takes them out. */
  lemma ReadClaims(src: Bytes, e: Engine, w: nat, n: nat, e': Engine)
    requires Inv(src, e) && w in e.workers && ReadStep(src, e, w, n, e')
    ensures ClaimedOk(src, e')
    ensures forall b :: b in e'.claimed && b !in e.claimed ==> Unclaimed(e.s.chunks, b)
    ensures e.claimed !! Interval(e'.workers[w].pc.at, e'.workers[w].pc.at + |e'.workers[w].pc.data|)
  {
    var pc := e.workers[w].pc;
    assert PcOk(src, e.file, e.s, w, pc);
    forall b ensures
      && (b in e'.claimed ==> !Unclaimed(e'.s.chunks, b))
      && (0 <= b < |src| ==> b in e'.claimed || Unclaimed(e'.s.chunks, b))
      && (b in e'.claimed && b !in e.claimed ==> Unclaimed(e.s.chunks, b))
    {
      ClaimTakes(e.s, pc.c, n, |src|, b);
    }
    forall b | b in e.claimed
      ensures b !in Interval(e'.workers[w].pc.at, e'.workers[w].pc.at + |e'.workers[w].pc.data|)
    {
      ClaimTakes(e.s, pc.c, n, |src|, b);
    }
  }

  lemma ReadStepKeeps(src: Bytes, e: Engine, w: nat, n: nat, e': Engine)
    requires Inv(src, e) && w in e.workers && ReadStep(src, e, w, n, e')
    ensures Inv(src, e')
  {
    var pc := e.workers[w].pc;
    assert PcOk(src, e.file, e.s, w, pc);
    ReadBytes(src, e, w, n, e');
    ReadPc(src, e, w, n, e');
    ClaimIsOwnerStep(e.s, pc.c, n);
    OwnerStepKeeps(src, e, w, e');
  }

  lemma ReadBytes(src: Bytes, e: Engine, w: nat, n: nat, e': Engine)
    requires Inv(src, e) && w in e.workers && ReadStep(src, e, w, n, e')
    ensures Valid(e'.s, |src|) && ClaimedOk(src, e') && FileOk(src, e')
  {
    var pc := e.workers[w].pc;
    assert PcOk(src, e.file, e.s, w, pc);
    ClaimKeeps(e.s, pc.c, n, |src|);
    ReadClaims(src, e, w, n, e');
    SameBytesFile(src, e, e');
  }

  lemma ClaimIsOwnerStep(s: Sched, id: nat, n: int)
    requires id in s.chunks && n >= 0 && 0 <= s.chunks[id].Remaining()
    ensures OwnerStep(s, id, Claim(s, id, n))
  {
  }

  // ---- crediting ----

  lemma CreditFile(src: Bytes, e: Engine, w: nat, e': Engine)
    requires PcsOk(src, e) && FileOk(src, e) && w in e.workers && CreditStep(e, w, e')
    ensures FileOk(src, e')
  {
    var pc := e.workers[w].pc;
    assert PcOk(src, e.file, e.s, w, pc);
    forall b | 0 <= b < |src| && !Owed(e'.s.chunks, b) ensures RightAt(src, e'.file, b) {
      if Owed(e.s.chunks, b) { CreditPays(e.s, pc.c, pc.n, b); }
    }
  }

  lemma CreditStepKeeps(src: Bytes, e: Engine, w: nat, e': Engine)
    requires Inv(src, e) && w in e.workers && CreditStep(e, w, e')
    ensures Inv(src, e')
  {
    var pc := e.workers[w].pc;
    assert PcOk(src, e.file, e.s, w, pc);
    CreditKeeps(e.s, pc.c, pc.n, |src|);
    CreditFile(src, e, w, e');
    SameBytesClaimed(src, e, e');
    OwnerStepKeeps(src, e, w, e');
  }

  // ---- completing ----

  /** Completing w's drained and written chunk. */
  lemma DoneKeeps(src: Bytes, e: Engine, w: nat, e': Engine)
    requires Inv(src, e) && w in e.workers && DoneStep(e, w, e')
    ensures Inv(src, e')
  {
    var pc := e.workers[w].pc;
    assert PcOk(src, e.file, e.s, w, pc);
    CompleteKeeps(e.s, pc.c, |src|);
    SameBytesClaimed(src, e, e');
    SameBytesFile(src, e, e');
    OwnerStepKeeps(src, e, w, e');
  }

  lemma ReportKeeps(src: Bytes, e: Engine, w: nat, e': Engine)
    requires Inv(src, e) && w in e.workers && ReportStep(e, w, e')
    ensures Inv(src, e')
  {
    assert e.registered || e.cancelled;
    PcOnlyKeeps(src, e, w, e'.workers[w].pc, e');
  }

  // ---- leaving ----

  /** The retirement net: whatever error a retired worker leaves its chunk
      with, short of a permanent one, the chunk is drained and fully written. */
  lemma RetirementNetHolds(src: Bytes, e: Engine, w: nat)
    requires Inv(src, e) && w in e.workers && e.workers[w].retired
    requires e.workers[w].pc.Left? && !e.workers[w].pc.permanent
    ensures e.workers[w].pc.c in e.s.chunks && NetHolds(e.s.chunks[e.workers[w].pc.c])
  {
    assert PcOk(src, e.file, e.s, w, e.workers[w].pc);
    assert w in e.s.retiring;
  }

  /** A worker gives up its chunk because it failed or was stopped. */
  lemma AbandonKeeps(src: Bytes, e: Engine, w: nat, failing: bool, e': Engine)
    requires Inv(src, e) && w in e.workers && e.workers[w].pc.HasChunk()
    requires failing || e.cancelled
    requires e' == e.(workers := SetPc(e, w, Leaving(failing)))
    ensures Inv(src, e')
  {
    RegisteredHolder(src, e, w);
    assert e'.workers[w].pc == Leaving(failing);
    assert !Healthy(e');
    FramePcs(src, e, w, e');
    FrameLost(e, w, e');
  }

  lemma SettleKeeps(src: Bytes, e: Engine, w: nat, e': Engine)
    requires Inv(src, e) && w in e.workers && SettleStep(e, w, e')
    ensures Inv(src, e')
  {
    var pc := e.workers[w].pc;
    assert PcOk(src, e.file, e.s, w, pc);
    if e'.workers[w].pc.Leaving? {
      AbandonKeeps(src, e, w, true, e');
    } else {
      RegisteredHolder(src, e, w);
      PcOnlyKeeps(src, e, w, e'.workers[w].pc, e');
    }
  }

  /** An error that is swallowed leaves a drained chunk behind, with nobody to
      complete it. */
  lemma SwallowKeeps(src: Bytes, e: Engine, w: nat, e': Engine)
    requires Inv(src, e) && w in e.workers && ResignStep(e, w, e') && e.workers[w].retired
    ensures Inv(src, e')
  {
    var pc := e.workers[w].pc;
    assert PcOk(src, e.file, e.s, w, pc);
    assert w in e.s.retiring;
    HealthyBack(e, w, e');
    FramePcs(src, e, w, e');
    BookKept(e, w, e');
    SwallowOwners(e, w, e');
  }

  lemma SwallowOwners(e: Engine, w: nat, e': Engine)
    requires OwnersOk(e) && NoneAbandoned(e) && LostOk(e) && (Healthy(e') ==> Healthy(e))
    requires w in e.workers && e.workers[w].pc.HasChunk()
    requires var c := e.workers[w].pc.c;
      && c in e.s.active && c in e.s.chunks && e.s.chunks[c].Drained() && e.s.chunks[c].owner == w
      && e' == e.(lost := e.lost + {c}, workers := SetPc(e, w, Leaving(false)))
    ensures OwnersOk(e') && NoneAbandoned(e') && LostOk(e')
  {
  }

  lemma ResignKeeps(src: Bytes, e: Engine, w: nat, e': Engine)
    requires Inv(src, e) && w in e.workers && ResignStep(e, w, e')
    ensures Inv(src, e')
  {
    if e.workers[w].retired {
      SwallowKeeps(src, e, w, e');
    } else {
      AbandonKeeps(src, e, w, e'.workers[w].pc == Leaving(true), e');
    }
  }

  /** A worker that leaves without an error had retired or the run was stopped,
      so it takes nobody's future helper away. */
  lemma LeaveKeeps(src: Bytes, e: Engine, w: nat, e': Engine)
    requires Inv(src, e) && w in e.workers && LeaveStep(e, w, e')
    ensures Inv(src, e')
  {
    DeregisterKeeps(e.s, w, |src|);
    LeaveWorkers(src, e, w, e');
    LeaveBook(e, w, e');
    LeaveBytes(src, e, w, e');
  }

  lemma LeaveWorkers(src: Bytes, e: Engine, w: nat, e': Engine)
    requires Valid(e.s, |src|) && PcsOk(src, e) && OwnersOk(e) && NoneAbandoned(e) && ServedOk(e) && RetireOk(e)
    requires LostOk(e) && w in e.workers && LeaveStep(e, w, e')
    ensures PcsOk(src, e') && OwnersOk(e') && NoneAbandoned(e') && LostOk(e') && ServedOk(e')
  {
    if e.workers[w].pc.failing { assert e'.workers[w].pc == Failing; }
    if Healthy(e') { HealthyBack(e, w, e'); }
    LeavePcs(src, e, w, e');
    GoneLost(e, w, e');
    if Healthy(e') { LeaveServed(e, w, e'); }
  }

  /** Who is gone stays gone. */
  lemma GoneLost(e: Engine, w: nat, e': Engine)
    requires LostOk(e) && w in e.workers && e.workers[w].pc.Gone() && e'.lost == e.lost
    requires e'.s.active == e.s.active && e'.s.chunks == e.s.chunks
    requires w in e'.workers && e'.workers == SetPc(e, w, e'.workers[w].pc) && e'.workers[w].pc.Gone()
    ensures LostOk(e')
  {
  }

  lemma LeaveBytes(src: Bytes, e: Engine, w: nat, e': Engine)
    requires FileOk(src, e) && ClaimedOk(src, e) && w in e.workers && LeaveStep(e, w, e')
    ensures FileOk(src, e') && ClaimedOk(src, e')
  {
  }

  lemma LeaveServed(e: Engine, w: nat, e': Engine)
    requires ServedOk(e) && RetireOk(e) && Healthy(e) && w in e.workers && e.workers[w].pc == Leaving(false)
    requires e'.s == Deregister(e.s, w) && e'.registered == e.registered
    ensures ServedOk(e')
  {
    assert e.workers[w].retired;
    assert NonRetiring(e'.s) == NonRetiring(e.s);
  }

  lemma LeavePcs(src: Bytes, e: Engine, w: nat, e': Engine)
    requires Valid(e.s, |src|) && PcsOk(src, e) && OwnersOk(e) && NoneAbandoned(e) && w in e.workers && LeaveStep(e, w, e')
    requires Healthy(e') ==> Healthy(e)
    ensures PcsOk(src, e') && OwnersOk(e') && NoneAbandoned(e')
  {
    assert forall id :: id in e.s.chunks ==> ChunkOk(e.s.chunks[id], |src|);
    FramePcs(src, e, w, e');
    LeaveOwners(e, w, e');
  }

  lemma LeaveOwners(e: Engine, w: nat, e': Engine)
    requires OwnersOk(e) && NoneAbandoned(e) && w in e.workers && LeaveStep(e, w, e')
    requires Healthy(e') ==> Healthy(e)
    ensures OwnersOk(e') && NoneAbandoned(e')
  {
  }

  lemma LeaveBook(e: Engine, w: nat, e': Engine)
    requires BookOk(e) && w in e.workers && LeaveStep(e, w, e')
    ensures BookOk(e')
  {
  }

  lemma FailKeeps(src: Bytes, e: Engine, w: nat, e': Engine)
    requires Inv(src, e) && w in e.workers && FailStep(e, w, e')
    ensures Inv(src, e')
  {
    assert !Healthy(e');
    assert forall id :: id in e.s.chunks ==> ChunkOk(e.s.chunks[id], |src|);
    FramePcs(src, e, w, e');
    GoneLost(e, w, e');
    SameBytesFile(src, e, e');
    SameBytesClaimed(src, e, e');
  }

  // ---- steps of the run ----

  lemma CancelKeeps(src: Bytes, e: Engine)
    requires Inv(src, e)
    ensures Inv(src, e.(cancelled := true))
  {
    var e' := e.(cancelled := true);
    assert !Healthy(e');
    forall w | w in e'.workers ensures PcOk(src, e'.file, e'.s, w, e'.workers[w].pc) {
      assert PcOk(src, e.file, e.s, w, e.workers[w].pc);
    }
    SameBytesFile(src, e, e');
    SameBytesClaimed(src, e, e');
  }

  lemma SpawnKeeps(src: Bytes, e: Engine, w: nat, e': Engine)
    requires Inv(src, e) && SpawnStep(e, w, e')
    ensures Inv(src, e')
  {
    forall u | u in e'.workers ensures PcOk(src, e'.file, e'.s, u, e'.workers[u].pc) {
      if u != w { assert PcOk(src, e.file, e.s, u, e.workers[u].pc); }
    }
    SameBytesFile(src, e, e');
    SameBytesClaimed(src, e, e');
    SpawnOwners(e, w, e');
    SpawnBook(e, w, e');
  }

  lemma SpawnOwners(e: Engine, w: nat, e': Engine)
    requires OwnersOk(e) && NoneAbandoned(e) && LostOk(e) && SpawnStep(e, w, e')
    ensures OwnersOk(e') && NoneAbandoned(e') && LostOk(e') && (Healthy(e') ==> Healthy(e))
  {
    assert forall u :: u in e.workers ==> u in e'.workers && e'.workers[u] == e.workers[u];
  }

  lemma SpawnBook(e: Engine, w: nat, e': Engine)
    requires BookOk(e) && SpawnStep(e, w, e')
    ensures BookOk(e')
  {
  }

  lemma WakeKeeps(src: Bytes, e: Engine, w: nat, e': Engine)
    requires Inv(src, e) && WakeStep(e, w, e')
    ensures Inv(src, e')
  {
    WakePcs(src, e, w, e');
    WakeBook(e, w, e');
    SameBytesFile(src, e, e');
    SameBytesClaimed(src, e, e');
  }

  lemma WakePcs(src: Bytes, e: Engine, w: nat, e': Engine)
    requires PcsOk(src, e) && OwnersOk(e) && NoneAbandoned(e) && LostOk(e) && WakeStep(e, w, e')
    ensures PcsOk(src, e') && OwnersOk(e') && NoneAbandoned(e') && LostOk(e') && (Healthy(e') ==> Healthy(e))
  {
    assert forall u :: u in e.workers ==> u in e'.workers && e'.workers[u].pc == e.workers[u].pc;
    forall u | u in e'.workers ensures PcOk(src, e'.file, e'.s, u, e'.workers[u].pc) {
      assert PcOk(src, e.file, e.s, u, e.workers[u].pc);
    }
  }

  lemma WakeBook(e: Engine, w: nat, e': Engine)
    requires BookOk(e) && WakeStep(e, w, e')
    ensures BookOk(e')
  {
  }

  lemma RetirePcs(src: Bytes, e: Engine, e': Engine)
    requires PcsOk(src, e) && OwnersOk(e) && NoneAbandoned(e) && LostOk(e)
    requires ActiveKept(e.s, e'.s) && e'.s.active == e.s.active && e'.s.live == e.s.live
    requires forall id :: id in e.s.active ==> id in e.s.chunks
    requires e'.workers == e.workers && e'.file == e.file && e'.cancelled == e.cancelled && e'.lost == e.lost
    ensures PcsOk(src, e') && OwnersOk(e') && NoneAbandoned(e') && LostOk(e')
  {
    forall u | u in e'.workers ensures PcOk(src, e'.file, e'.s, u, e'.workers[u].pc) {
      var pc := e.workers[u].pc;
      assert PcOk(src, e.file, e.s, u, pc);
      if pc.HasChunk() {
        ChunkPcKept(src, e.file, e'.file, e.s.chunks[pc.c], e'.s.chunks[pc.c], pc);
      }
    }
  }

  lemma RetireBook(e: Engine, vs: seq<nat>, e': Engine)
    requires BookOk(e) && SetOf(vs) <= e.s.live
    requires e'.s.live == e.s.live && e'.s.retiring == e.s.retiring + SetOf(vs) && e'.s.active == e.s.active
    requires e' == e.(s := e'.s, victims := e.victims + SetOf(vs))
    ensures BookOk(e')
  {
  }

  lemma RetireKeeps(src: Bytes, e: Engine, keep: int, vs: seq<nat>, order: seq<nat>, e': Engine)
    requires Inv(src, e) && RetireStep(e, keep, vs, order, e')
    ensures Inv(src, e')
  {
    DemoteKeeps(e.s, keep, vs, order, e'.s, |src|);
    DemoteDrains(e.s, keep, vs, order, e'.s, |src|);
    VictimsDistinct(e.s, keep, vs);
    RetirePcs(src, e, e');
    RetireBook(e, vs, e');
    SameBytesFile(src, e, e');
    SameBytesClaimed(src, e, e');
    if Healthy(e') {
      assert Healthy(e);
      DemoteServes(e.s, keep, vs, order, e'.s, |src|);
    }
  }

  // ---- every step ----

  lemma WorkerStepKeeps(src: Bytes, e: Engine, op: Op, w: nat, e': Engine)
    requires Inv(src, e) && w in e.workers && WorkerStep(src, e, op, w, e')
    ensures Inv(src, e')
  {
    match op {
      case NextChunk(_, v, r) => NextStepKeeps(src, e, w, v, r, e');
      case Quit(_) => QuitKeeps(src, e, w, e');
      case Attempt(_) => AttemptKeeps(src, e, w, e');
      case Respond(_, resp) => RespondKeeps(src, e, w, resp, e');
      case Retry(_) => RetryKeeps(src, e, w, e');
      case GiveUp(_, permanent) => GiveUpKeeps(src, e, w, permanent, e');
      case Read(_, n) => ReadStepKeeps(src, e, w, n, e');
      case WriteOut(_) => WriteOutKeeps(src, e, w, e');
      case WriteError(_, n) => WriteErrorKeeps(src, e, w, n, e');
      case CreditWritten(_) => CreditStepKeeps(src, e, w, e');
      case Done(_) => DoneKeeps(src, e, w, e');
      case Report(_) => ReportKeeps(src, e, w, e');
      case Settle(_) => SettleKeeps(src, e, w, e');
      case Resign(_) => ResignKeeps(src, e, w, e');
      case Leave(_) => LeaveKeeps(src, e, w, e');
      case Fail(_) => FailKeeps(src, e, w, e');
      case _ =>
    }
  }

  lemma StepKeeps(src: Bytes, e: Engine, op: Op, e': Engine)
    requires Inv(src, e) && Step(src, e, op, e')
    ensures Inv(src, e')
  {
    if op.Spawn? {
      SpawnKeeps(src, e, op.w, e');
    } else if op.Cancel? {
      CancelKeeps(src, e);
    } else if op.Retire? {
      RetireKeeps(src, e, op.keep, op.vs, op.order, e');
    } else if op.Wake? {
      WakeKeeps(src, e, op.w, e');
    } else {
      WorkerStepKeeps(src, e, op, op.w, e');
    }
  }

  /** What a worker's step does to the scheduler, next aside. */
  lemma WorkerSched(src: Bytes, e: Engine, op: Op, w: nat, e': Engine)
    requires w in e.workers && WorkerStep(src, e, op, w, e') && !op.NextChunk?
    ensures e'.s == e.s
      || (op.Read? && e.workers[w].pc.Body? && e.workers[w].pc.c in e.s.chunks &&
          0 <= ClaimSize(e.s.chunks[e.workers[w].pc.c], op.n) && e'.s == Claim(e.s, e.workers[w].pc.c, op.n))
      || (op.CreditWritten? && e.workers[w].pc.Wrote? && e.workers[w].pc.c in e.s.chunks &&
          e'.s == Credit(e.s, e.workers[w].pc.c, e.workers[w].pc.n))
      || (op.Done? && e.workers[w].pc.HasChunk() && e'.s == Complete(e.s, e.workers[w].pc.c))
      || (op.Leave? && e'.s == Deregister(e.s, w))
  {
  }

  /** Only writes touch the file. */
  lemma WorkerFile(src: Bytes, e: Engine, op: Op, w: nat, e': Engine)
    requires w in e.workers && WorkerStep(src, e, op, w, e') && !op.WriteOut? && !op.WriteError?
    ensures e'.file == e.file
  {
  }

  lemma {:induction false} RunKeeps(src: Bytes, es: seq<Engine>, ops: seq<Op>, i: nat)
    requires Run(src, es, ops) && Inv(src, es[0]) && i < |es|
    ensures Inv(src, es[i])
  {
    if i > 0 {
      RunKeeps(src, es, ops, i - 1);
      assert StepAt(src, es, ops, i - 1);
      StepKeeps(src, es[i - 1], ops[i - 1], es[i]);
    }
  }
}
