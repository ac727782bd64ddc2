/** The order in which a Reporter sees chunks handed out and shrunk. */
module ReporterTrace {
  import opened SchedulerModel
  import opened SchedulerLaws
  import opened Engine
  import opened EngineLaws
  import opened Guarantees

  datatype Extent = Extent(off: int, length: int)

  predicate Separate(a: Extent, b: Extent) {
    a.off + a.length <= b.off || b.off + b.length <= a.off
  }

  type Picture = map<nat, Extent>

  function After(m: Picture, ev: Event): Picture {
    match ev
    case Started(id, off, length, _) => m[id := Extent(off, length)]
    case Resized(id, length) => if id in m then m[id := m[id].(length := length)] else m
  }

  /** What a Reporter believes after the events of t. */
  function Announced(t: seq<Event>): Picture {
    if t == [] then map[] else After(Announced(t[..|t| - 1]), t[|t| - 1])
  }

  /** A start introduces a new id on ground nobody else was given; a resize
      concerns a started id and never grows it. */
  ghost predicate GoodEvent(m: Picture, ev: Event) {
    match ev
    case Started(id, off, length, written) =>
      id !in m && 0 <= written <= length && forall k :: k in m ==> Separate(m[k], Extent(off, length))
    case Resized(id, length) =>
      id in m && 0 <= length <= m[id].length
  }

  ghost predicate GoodTrace(t: seq<Event>) {
    t == [] || (GoodTrace(t[..|t| - 1]) && GoodEvent(Announced(t[..|t| - 1]), t[|t| - 1]))
  }

  ghost predicate AllSeparate(m: Picture) {
    forall i, j :: i in m && j in m && i != j ==> Separate(m[i], m[j])
  }

  lemma {:induction false} GoodTraceSeparates(t: seq<Event>)
    requires GoodTrace(t)
    ensures AllSeparate(Announced(t))
  {
    if t != [] { GoodTraceSeparates(t[..|t| - 1]); }
  }

  lemma {:induction false} GoodPrefix(t: seq<Event>, k: nat)
    requires GoodTrace(t) && k <= |t|
    ensures GoodTrace(t[..k])
  {
    if k < |t| {
      GoodPrefix(t[..|t| - 1], k);
      assert t[..|t| - 1][..k] == t[..k];
    } else {
      assert t[..k] == t;
    }
  }

  lemma {:induction false} StartedIsKnown(t: seq<Event>, i: nat)
    requires i < |t| && t[i].Started?
    ensures t[i].id in Announced(t)
  {
    if i < |t| - 1 { StartedIsKnown(t[..|t| - 1], i); }
  }

  /** In a good trace every id is started once. */
  lemma StartedOnce(t: seq<Event>, i: nat, j: nat)
    requires GoodTrace(t) && i < j < |t| && t[i].Started? && t[j].Started?
    ensures t[i].id != t[j].id
  {
    GoodPrefix(t, j + 1);
    var u := t[..j + 1];
    assert u[..|u| - 1] == t[..j] && u[|u| - 1] == t[j];
    StartedIsKnown(t[..j], i);
  }

  // ---- the scheduler's side ----

  function Whole(c: Chunk): Extent { Extent(c.off, c.end - c.off) }

  /** Active chunks are announced at their present length, pending ones not at
      all, and what was completed lies apart from all that remains. */
  ghost predicate Told(s: Sched, m: Picture) {
    && (forall id :: id in m ==> id < s.nextID)
    && (forall id :: id in s.active && id in s.chunks ==> id in m && m[id] == Whole(s.chunks[id]))
    && (forall id :: id in s.pending ==> id !in m)
    && (forall id, k :: id in m && id !in s.active && k in s.chunks ==> Separate(m[id], Whole(s.chunks[k])))
  }

  ghost predicate TraceOk(s: Sched) {
    GoodTrace(s.trace) && Told(s, Announced(s.trace))
  }

  lemma Extend(t: seq<Event>, ev: Event)
    ensures Announced(t + [ev]) == After(Announced(t), ev)
    ensures GoodTrace(t + [ev]) <==> GoodTrace(t) && GoodEvent(Announced(t), ev)
  {
    assert (t + [ev])[..|t|] == t;
  }

  lemma ApartWhole(s: Sched, i: nat, j: nat, total: int)
    requires Valid(s, total) && i in s.chunks && j in s.chunks && i != j
    ensures Separate(Whole(s.chunks[i]), Whole(s.chunks[j]))
  {
  }

  lemma GrantPendingTold(s: Sched, w: nat, total: int)
    requires Valid(s, total) && |s.pending| > 0 && s.pending[0] in s.chunks && TraceOk(s)
    ensures TraceOk(GrantPending(s, w))
  {
    var id := s.pending[0];
    var c := s.chunks[id];
    var m := Announced(s.trace);
    assert id in s.pending;
    assert ChunkOk(c, total);
    Extend(s.trace, Started(id, c.off, c.end - c.off, c.written));
    forall k | k in m ensures Separate(m[k], Extent(c.off, c.end - c.off)) {
      if k in s.active { ApartWhole(s, k, id, total); } else { assert Separate(m[k], Whole(c)); }
    }
    GrantPendingKeeps(s, w, total);
    var s' := GrantPending(s, w);
    assert forall k :: k in s'.pending ==> k in s.pending;
  }

  /** The picture after v was cut at mid and the upper part handed out. */
  function StealPicture(m: Picture, v: nat, added: nat, c: Chunk, mid: int): Picture
    requires v in m
  {
    m[v := m[v].(length := mid - c.off)][added := Extent(mid, c.end - mid)]
  }

  /** Telling of the shrunken victim before the new chunk keeps every prefix
      free of overlaps. */
  lemma StealTold(s: Sched, v: nat, w: nat, total: int)
    requires Valid(s, total) && v in s.active && v in s.chunks && TraceOk(s)
    requires s.chunks[v].Remaining() >= 2 * s.minSize
    ensures TraceOk(Steal(s, v, w))
  {
    StealTraceGood(s, v, w, total);
    StealTold2(s, v, w, Announced(s.trace), total);
  }

  lemma StealTraceGood(s: Sched, v: nat, w: nat, total: int)
    requires Valid(s, total) && v in s.active && v in s.chunks && TraceOk(s)
    requires s.chunks[v].Remaining() >= 2 * s.minSize
    ensures var c := s.chunks[v]; var m := Announced(s.trace); var t := Steal(s, v, w).trace;
      && GoodTrace(t) && v in m
      && Announced(t) == StealPicture(m, v, s.nextID, c, Middle(c))
  {
    var m := Announced(s.trace);
    var c := s.chunks[v];
    var mid := Middle(c);
    assert ChunkOk(c, total);
    UpperSeparate(s, v, mid, m, total);
    StealGood(s.trace, v, s.nextID, m, c, mid);
    StealTrace(s, v, w);
  }

  lemma StealTrace(s: Sched, v: nat, w: nat)
    requires v in s.chunks
    ensures var c := s.chunks[v]; var mid := Middle(c);
      Steal(s, v, w).trace == s.trace + [Resized(v, mid - c.off)] + [Started(s.nextID, mid, c.end - mid, 0)]
  {
  }

  lemma StealGood(t: seq<Event>, v: nat, added: nat, m: Picture, c: Chunk, mid: int)
    requires GoodTrace(t) && m == Announced(t) && v in m && m[v] == Whole(c) && added !in m
    requires c.off + c.done <= mid <= c.end && 0 <= c.done
    requires var m1 := m[v := m[v].(length := mid - c.off)];
      forall k :: k in m1 ==> Separate(m1[k], Extent(mid, c.end - mid))
    ensures var t' := t + [Resized(v, mid - c.off)] + [Started(added, mid, c.end - mid, 0)];
      && GoodTrace(t')
      && Announced(t') == StealPicture(m, v, added, c, mid)
  {
    Extend(t, Resized(v, mid - c.off));
    Extend(t + [Resized(v, mid - c.off)], Started(added, mid, c.end - mid, 0));
  }

  lemma UpperSeparate(s: Sched, v: nat, mid: int, m: Picture, total: int)
    requires Valid(s, total) && v in s.active && v in s.chunks && Told(s, m)
    requires s.chunks[v].off <= mid <= s.chunks[v].end
    ensures var c := s.chunks[v]; var m1 := m[v := m[v].(length := mid - c.off)];
      forall k :: k in m1 ==> Separate(m1[k], Extent(mid, c.end - mid))
  {
    forall k | k in m && k != v ensures Separate(m[k], Whole(s.chunks[v])) {
      if k in s.active { ApartWhole(s, k, v, total); }
    }
  }

  lemma StealTold2(s: Sched, v: nat, w: nat, m: Picture, total: int)
    requires Shape(s) && v in s.active && v in s.chunks && ChunkOk(s.chunks[v], total) && Told(s, m)
    requires s.chunks[v].Remaining() >= 2 * s.minSize
    ensures v in m && Told(Steal(s, v, w), StealPicture(m, v, s.nextID, s.chunks[v], Middle(s.chunks[v])))
  {
    var c := s.chunks[v];
    var s' := Steal(s, v, w);
    var m' := StealPicture(m, v, s.nextID, c, Middle(c));
    CutTold(s, v, Middle(c), m, s', m');
  }

  /** The picture after v was cut at `at`: told of v, and of the new chunk only
      if it went to a worker. */
  lemma CutTold(s: Sched, v: nat, at: int, m: Picture, s': Sched, m': Picture)
    requires Shape(s) && v in s.active && v in s.chunks && Told(s, m)
    requires s.chunks[v].off <= at <= s.chunks[v].end
    requires s'.nextID == s.nextID + 1 && s'.chunks.Keys == s.chunks.Keys + {s.nextID}
    requires forall k :: k in s.chunks && k != v ==> s'.chunks[k] == s.chunks[k]
    requires Whole(s'.chunks[v]) == Extent(s.chunks[v].off, at - s.chunks[v].off)
    requires Whole(s'.chunks[s.nextID]) == Extent(at, s.chunks[v].end - at)
    requires m'.Keys == m.Keys || m'.Keys == m.Keys + {s.nextID}
    requires forall k :: k in m && k != v ==> m'[k] == m[k]
    requires m'[v] == Whole(s'.chunks[v])
    requires s.nextID in m' ==> s'.active == s.active + {s.nextID} && s'.pending == s.pending
    requires s.nextID in m' ==> m'[s.nextID] == Whole(s'.chunks[s.nextID])
    requires s.nextID !in m' ==> s'.active == s.active && s'.pending == s.pending + [s.nextID]
    ensures Told(s', m')
  {
    forall id, k | id in m' && id !in s'.active && k in s'.chunks ensures Separate(m'[id], Whole(s'.chunks[k])) {
      assert id in m && id !in s.active && id != v;
      assert Separate(m[id], Whole(s.chunks[v]));
      if k != v && k != s.nextID { assert Separate(m[id], Whole(s.chunks[k])); }
    }
  }

  lemma MoveTold(s: Sched, v: nat, total: int)
    requires Valid(s, total) && v in s.active && v in s.chunks && !s.chunks[v].Drained() && TraceOk(s)
    ensures TraceOk(Move(s, v))
  {
    var c := s.chunks[v];
    assert ChunkOk(c, total);
    Extend(s.trace, Resized(v, c.done));
    MoveTold2(s, v, Announced(s.trace), total);
  }

  lemma MoveTold2(s: Sched, v: nat, m: Picture, total: int)
    requires Shape(s) && v in s.active && v in s.chunks && ChunkOk(s.chunks[v], total) && Told(s, m)
    ensures Told(Move(s, v), m[v := m[v].(length := s.chunks[v].done)])
  {
    var c := s.chunks[v];
    CutTold(s, v, c.Cursor(), m, Move(s, v), m[v := m[v].(length := c.done)]);
  }

  lemma {:induction false} MoveAllTold(s: Sched, order: seq<nat>, s': Sched, total: int)
    requires Valid(s, total) && NoDup(order) && AllMovable(s, order) && MoveAll(s, order, s') && TraceOk(s)
    ensures TraceOk(s')
    decreases |order|
  {
    if order != [] {
      MoveKeeps(s, order[0], total);
      MoveTold(s, order[0], total);
      var t := Move(s, order[0]);
      var rest := order[1..];
      forall i | 0 <= i < |rest|
        ensures rest[i] in t.active && rest[i] in t.chunks && !t.chunks[rest[i]].Drained()
      {
        assert rest[i] == order[i + 1] && rest[i] != order[0];
      }
      MoveAllTold(t, rest, s', total);
    }
  }

  lemma NextTold(s: Sched, w: nat, v: nat, r: Granted, s': Sched, total: int)
    requires Valid(s, total) && Next(s, w, v, r, s') && TraceOk(s)
    ensures TraceOk(s')
  {
    NextCases(s, w, v, r, s');
    if r.Granted? {
      RegisterKeeps(s, w, total);
      if |s.pending| > 0 {
        GrantPendingTold(Register(s, w), w, total);
      } else {
        StealTold(Register(s, w), v, w, total);
      }
    }
  }

  lemma DemoteTold(s: Sched, keep: int, vs: seq<nat>, order: seq<nat>, s': Sched, total: int)
    requires Valid(s, total) && Demote(s, keep, vs, order, s') && TraceOk(s)
    ensures TraceOk(s')
  {
    var s1 := MarkRetiring(s, keep, vs);
    if vs != [] {
      MarkKeeps(s, keep, vs, total);
      MovableOrder(s1, order);
      MoveAllTold(s1, order, s', total);
    }
  }

  /** Claiming, crediting and completing tell the Reporter nothing about
      extents, and what they leave is still what was told. */
  lemma OwnerTold(s: Sched, id: nat, s': Sched)
    requires TraceOk(s) && s'.trace == s.trace && s'.nextID == s.nextID && s'.pending == s.pending
    requires id in s.active && id in s.chunks
    requires s'.active == s.active || s'.active == s.active - {id}
    requires forall k :: k in s'.chunks ==> k in s.chunks && Whole(s'.chunks[k]) == Whole(s.chunks[k])
    requires id !in s'.active ==> forall k :: k in s'.chunks ==> Separate(Whole(s.chunks[id]), Whole(s.chunks[k]))
    ensures TraceOk(s')
  {
  }

  lemma ClaimTold(s: Sched, id: nat, n: int)
    requires TraceOk(s) && id in s.active && id in s.chunks
    ensures TraceOk(Claim(s, id, n))
  {
    OwnerTold(s, id, Claim(s, id, n));
  }

  lemma CreditTold(s: Sched, id: nat, n: int)
    requires TraceOk(s) && id in s.active && id in s.chunks
    ensures TraceOk(Credit(s, id, n))
  {
    OwnerTold(s, id, Credit(s, id, n));
  }

  lemma CompleteTold(s: Sched, id: nat, total: int)
    requires Valid(s, total) && TraceOk(s) && id in s.active && id in s.chunks
    ensures TraceOk(Complete(s, id))
  {
    forall k | k in Complete(s, id).chunks ensures Separate(Whole(s.chunks[id]), Whole(s.chunks[k])) {
      ApartWhole(s, id, k, total);
    }
    OwnerTold(s, id, Complete(s, id));
  }

  predicate SameExtents(s: Sched, s': Sched) {
    s'.pending == s.pending && s'.active == s.active && s'.chunks == s.chunks &&
    s'.nextID == s.nextID && s'.trace == s.trace
  }

  lemma SameTold(s: Sched, s': Sched)
    requires TraceOk(s) && SameExtents(s, s')
    ensures TraceOk(s')
  {
  }

  lemma WorkerQuiet(src: Bytes, e: Engine, op: Op, w: nat, e': Engine)
    requires w in e.workers && WorkerStep(src, e, op, w, e')
    requires !op.NextChunk? && !op.Read? && !op.CreditWritten? && !op.Done?
    ensures SameExtents(e.s, e'.s)
  {
    WorkerSched(src, e, op, w, e');
  }

  /** What a worker does to the chunk it holds. */
  lemma HolderTold(src: Bytes, e: Engine, op: Op, w: nat, e': Engine)
    requires w in e.workers && Valid(e.s, |src|) && PcOk(src, e.file, e.s, w, e.workers[w].pc)
    requires TraceOk(e.s) && WorkerStep(src, e, op, w, e') && (op.Read? || op.CreditWritten? || op.Done?)
    ensures TraceOk(e'.s)
  {
    var pc := e.workers[w].pc;
    if op.Read? {
      ClaimTold(e.s, pc.c, op.n);
    } else if op.CreditWritten? {
      CreditTold(e.s, pc.c, pc.n);
    } else {
      CompleteTold(e.s, pc.c, |src|);
    }
  }

  lemma WorkerTold(src: Bytes, e: Engine, op: Op, w: nat, e': Engine)
    requires w in e.workers && Valid(e.s, |src|) && PcOk(src, e.file, e.s, w, e.workers[w].pc)
    requires TraceOk(e.s) && WorkerStep(src, e, op, w, e')
    ensures TraceOk(e'.s)
  {
    if op.NextChunk? {
      NextTold(e.s, w, op.v, op.r, e'.s, |src|);
    } else if op.Read? || op.CreditWritten? || op.Done? {
      HolderTold(src, e, op, w, e');
    } else {
      WorkerQuiet(src, e, op, w, e');
      SameTold(e.s, e'.s);
    }
  }

  lemma StepTold(src: Bytes, e: Engine, op: Op, e': Engine)
    requires Valid(e.s, |src|) && PcsOk(src, e) && TraceOk(e.s) && Step(src, e, op, e')
    ensures TraceOk(e'.s)
  {
    if op.Retire? {
      DemoteTold(e.s, op.keep, op.vs, op.order, e'.s, |src|);
    } else if !op.Spawn? && !op.Cancel? && !op.Wake? {
      WorkerTold(src, e, op, op.w, e');
    }
  }

  lemma {:induction false} RunTold(src: Bytes, es: seq<Engine>, ops: seq<Op>, i: nat)
    requires RunFrom(src, es, ops) && i < |es| && es[0].s.trace == []
    ensures TraceOk(es[i].s)
  {
    if i > 0 {
      RunTold(src, es, ops, i - 1);
      Reached(src, es, ops, i - 1);
      assert StepAt(src, es, ops, i - 1);
      StepTold(src, es[i - 1], ops[i - 1], es[i]);
    }
  }

  /** At every prefix of what the Reporter is told during any run, the extents
      announced so far are pairwise disjoint, no id was started twice, and at
      the present end of the trace every active chunk is known at its true
      length. */
  lemma ReporterSeesNoOverlap(src: Bytes, es: seq<Engine>, ops: seq<Op>, i: nat, k: nat)
    requires RunFrom(src, es, ops) && i < |es| && es[0].s.trace == [] && k <= |es[i].s.trace|
    ensures GoodTrace(es[i].s.trace[..k]) && AllSeparate(Announced(es[i].s.trace[..k]))
    ensures forall a, b :: 0 <= a < b < |es[i].s.trace| && es[i].s.trace[a].Started? && es[i].s.trace[b].Started? ==>
      es[i].s.trace[a].id != es[i].s.trace[b].id
    ensures forall id :: id in es[i].s.active && id in es[i].s.chunks ==>
      id in Announced(es[i].s.trace) && Announced(es[i].s.trace)[id] == Whole(es[i].s.chunks[id])
  {
    RunTold(src, es, ops, i);
    var t := es[i].s.trace;
    GoodPrefix(t, k);
    GoodTraceSeparates(t[..k]);
    forall a, b | 0 <= a < b < |t| && t[a].Started? && t[b].Started? ensures t[a].id != t[b].id {
      StartedOnce(t, a, b);
    }
  }

  // ---- resizes never cut into what was claimed ----

  /** The events after the first n are resizes down to, or above, the claims
      the chunks of s had, or starts. */
  ghost predicate CoversClaims(s: Sched, t: seq<Event>, n: nat) {
    forall k :: n <= k < |t| && t[k].Resized? ==> t[k].id in s.chunks && s.chunks[t[k].id].done <= t[k].length
  }

  lemma {:induction false} MoveAllCovers(s: Sched, order: seq<nat>, s': Sched)
    requires NoDup(order) && MoveAll(s, order, s') && s.nextID !in s.chunks
    requires forall i :: 0 <= i < |order| ==> order[i] in s.chunks
    requires forall id :: id in s.chunks ==> id < s.nextID
    ensures s.trace <= s'.trace && CoversClaims(s, s'.trace, |s.trace|)
    decreases |order|
  {
    if order != [] {
      var t := Move(s, order[0]);
      var rest := order[1..];
      forall i | 0 <= i < |rest| ensures rest[i] in t.chunks { assert rest[i] == order[i + 1]; }
      MoveAllCovers(t, rest, s');
      assert t.trace[|s.trace|] == s'.trace[|s.trace|];
      forall k | |s.trace| <= k < |s'.trace| && s'.trace[k].Resized?
        ensures s'.trace[k].id in s.chunks && s.chunks[s'.trace[k].id].done <= s'.trace[k].length
      {
        if k > |s.trace| {
          MoveAllTargets(t, rest, s', k);
        }
      }
    }
  }

  lemma {:induction false} MoveAllTargets(s: Sched, order: seq<nat>, s': Sched, k: nat)
    requires MoveAll(s, order, s') && |s.trace| <= k < |s'.trace|
    ensures s'.trace[k].Resized? && s'.trace[k].id in order
    decreases |order|
  {
    if order != [] {
      var t := Move(s, order[0]);
      if k >= |t.trace| {
        MoveAllTargets(t, order[1..], s', k);
      } else {
        MoveAllPrefix(t, order[1..], s');
      }
    }
  }

  lemma {:induction false} MoveAllPrefix(s: Sched, order: seq<nat>, s': Sched)
    requires MoveAll(s, order, s')
    ensures s.trace <= s'.trace
    decreases |order|
  {
    if order != [] { MoveAllPrefix(Move(s, order[0]), order[1..], s'); }
  }

  /** In every step of a run the trace is extended, and no announced length
      falls below what the chunk's owner has claimed. */
  lemma ResizeCoversClaims(src: Bytes, es: seq<Engine>, ops: seq<Op>, i: nat)
    requires RunFrom(src, es, ops) && i < |ops|
    ensures es[i].s.trace <= es[i + 1].s.trace
    ensures CoversClaims(es[i].s, es[i + 1].s.trace, |es[i].s.trace|)
  {
    Reached(src, es, ops, i);
    assert StepAt(src, es, ops, i);
    StepCovers(src, es[i], ops[i], es[i + 1]);
  }

  lemma StepCovers(src: Bytes, e: Engine, op: Op, e': Engine)
    requires Valid(e.s, |src|) && Step(src, e, op, e')
    ensures e.s.trace <= e'.s.trace && CoversClaims(e.s, e'.s.trace, |e.s.trace|)
  {
    if op.Retire? {
      DemoteCovers(e.s, op.keep, op.vs, op.order, e'.s);
    } else if op.NextChunk? {
      NextCovers(e.s, op.w, op.v, op.r, e'.s, |src|);
    } else if !op.Spawn? && !op.Cancel? && !op.Wake? {
      WorkerCovers(src, e, op, op.w, e');
    }
  }

  lemma WorkerCovers(src: Bytes, e: Engine, op: Op, w: nat, e': Engine)
    requires w in e.workers && WorkerStep(src, e, op, w, e') && !op.NextChunk?
    ensures e'.s.trace == e.s.trace
  {
    WorkerSched(src, e, op, w, e');
  }

  lemma DemoteCovers(s: Sched, keep: int, vs: seq<nat>, order: seq<nat>, s': Sched)
    requires Shape(s) && Demote(s, keep, vs, order, s')
    ensures s.trace <= s'.trace && CoversClaims(s, s'.trace, |s.trace|)
  {
    if vs != [] {
      var s1 := MarkRetiring(s, keep, vs);
      MovableOrder(s1, order);
      MoveAllCovers(s1, order, s');
    }
  }

  lemma NextCovers(s: Sched, w: nat, v: nat, r: Granted, s': Sched, total: int)
    requires Valid(s, total) && Next(s, w, v, r, s')
    ensures s.trace <= s'.trace && CoversClaims(s, s'.trace, |s.trace|)
  {
    NextCases(s, w, v, r, s');
    if r.Granted? && |s.pending| == 0 { assert ChunkOk(s.chunks[v], total); }
  }
}
