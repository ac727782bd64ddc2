/** The range scheduler as a value, and each of its critical sections as a
    relation between the value before and the value after.

    A chunk is a half-open byte range. Ids stand for the pointers of the
    original: an id is issued once, so two chunks with one id are one chunk.
    Where the original ranges over a Go map the order is arbitrary, so the
    relations take the victim or the order as a parameter. */
module SchedulerModel {

  datatype Chunk = Chunk(off: int, end: int, done: int, written: int, owner: nat) {
    /** The first byte nobody has claimed yet. */
    function Cursor(): int { off + done }

    function Remaining(): int { end - (off + done) }

    predicate Drained() { off + done >= end }
  }

  type Chunks = map<nat, Chunk>

  /** What the Reporter is told, in the order it is told. */
  datatype Event =
    | Started(id: nat, off: int, length: int, written: int)
    | Resized(id: nat, length: int)

  datatype Sched = Sched(
    pending: seq<nat>,
    active: set<nat>,
    chunks: Chunks,
    live: set<nat>,
    retiring: set<nat>,
    limit: nat,
    minSize: int,
    nextID: nat,
    trace: seq<Event>)

  // ---- the byte sets everything is measured by ----

  /** b is still to be claimed by somebody. */
  ghost predicate Unclaimed(m: Chunks, b: int) {
    exists id :: id in m && m[id].off + m[id].done <= b < m[id].end
  }

  /** b is not known to be on disk. */
  ghost predicate Owed(m: Chunks, b: int) {
    exists id :: id in m && m[id].off + m[id].written <= b < m[id].end
  }

  /** b lies in the extent of some chunk. */
  ghost predicate Covered(m: Chunks, b: int) {
    exists id :: id in m && m[id].off <= b < m[id].end
  }

  // ---- invariant ----

  predicate ChunkOk(c: Chunk, total: int) {
    0 <= c.off <= c.end <= total && 0 <= c.written <= c.done <= c.end - c.off
  }

  predicate Apart(c: Chunk, d: Chunk) {
    c.end <= d.off || d.end <= c.off
  }

  ghost predicate ChunksOk(m: Chunks, total: int) {
    && (forall id :: id in m ==> ChunkOk(m[id], total))
    && (forall i, j :: i in m && j in m && i != j ==> Apart(m[i], m[j]))
  }

  ghost predicate NoDup(s: seq<nat>) {
    forall i, j :: 0 <= i < j < |s| ==> s[i] != s[j]
  }

  /** The bookkeeping: pending and active partition the chunks. */
  ghost predicate Shape(s: Sched) {
    && s.minSize >= 1
    && NoDup(s.pending)
    && (forall id :: id in s.chunks <==> id in s.pending || id in s.active)
    && (forall id :: id in s.active ==> id !in s.pending)
    && (forall id :: id in s.chunks ==> id < s.nextID)
    && s.retiring <= s.live
  }

  /** A pending chunk has work left and nothing in flight. */
  ghost predicate PendingFresh(s: Sched) {
    forall id :: id in s.pending && id in s.chunks ==>
      s.chunks[id].written == s.chunks[id].done && !s.chunks[id].Drained()
  }

  function NonRetiring(s: Sched): set<nat> { s.live - s.retiring }

  ghost predicate Capped(s: Sched) {
    s.limit > 0 ==> |NonRetiring(s)| <= s.limit
  }

  ghost predicate Valid(s: Sched, total: int) {
    Shape(s) && ChunksOk(s.chunks, total) && PendingFresh(s) && Capped(s)
  }

  // ---- liveness bookkeeping ----

  /** Pending work has somebody who will still come for it. */
  predicate PendingServed(s: Sched) {
    s.pending != [] ==> NonRetiring(s) != {}
  }

  /** Unclaimed bytes of an active chunk belong to a worker that will stay. */
  ghost predicate ActiveServed(s: Sched) {
    forall id :: id in s.active && id in s.chunks && !s.chunks[id].Drained() ==>
      s.chunks[id].owner in NonRetiring(s)
  }

  /** A retiring worker has nothing left to claim. */
  ghost predicate RetiringDrained(s: Sched) {
    forall id :: id in s.active && id in s.chunks && s.chunks[id].owner in s.retiring ==>
      s.chunks[id].Drained()
  }

  ghost predicate HoldsNone(s: Sched, w: nat) {
    forall id :: id in s.active && id in s.chunks ==> s.chunks[id].owner != w
  }

  // ---- operations ----

  function Empty(minSize: int): Sched {
    Sched([], {}, map[], {}, {}, 0, minSize, 0, [])
  }

  function AddPending(s: Sched, off: int, end: int, done: int): Sched {
    s.(chunks := s.chunks[s.nextID := Chunk(off, end, done, done, 0)],
       nextID := s.nextID + 1,
       pending := s.pending + [s.nextID])
  }

  /** The bytes of v from `at` on become the new chunk `added`. */
  function Cut(m: Chunks, v: nat, at: int, added: nat): Chunks
    requires v in m
  {
    m[v := m[v].(end := at)][added := Chunk(at, m[v].end, 0, 0, 0)]
  }

  /** v keeps the lower half of what it has not claimed; the rest is a new
      chunk that is not on any list yet. */
  function Halve(s: Sched, v: nat): Sched
    requires v in s.chunks
  {
    s.(chunks := Cut(s.chunks, v, Middle(s.chunks[v]), s.nextID), nextID := s.nextID + 1)
  }

  function Middle(c: Chunk): int { c.off + c.done + (c.end - (c.off + c.done)) / 2 }

  ghost predicate Largest(m: Chunks, ids: set<nat>, v: nat) {
    v in ids && v in m && forall a :: a in ids && a in m ==> m[a].Remaining() <= m[v].Remaining()
  }

  /** One halving of a pending chunk, as prepare does. */
  function SplitPending(s: Sched, v: nat): Sched
    requires v in s.chunks
  {
    s.(chunks := Cut(s.chunks, v, Middle(s.chunks[v]), s.nextID),
       nextID := s.nextID + 1,
       pending := s.pending + [s.nextID])
  }

  ghost predicate LargestPending(s: Sched, v: nat) {
    && v in s.pending && v in s.chunks
    && forall id :: id in s.pending && id in s.chunks ==> s.chunks[id].Remaining() <= s.chunks[v].Remaining()
  }

  /** The chunks vs are halved one after the other, each the largest pending
      one at its turn, while fewer than n are pending. */
  ghost predicate Halvings(s: Sched, n: int, vs: seq<nat>, s': Sched)
    decreases |vs|
  {
    if vs == [] then s' == s
    else
      && |s.pending| < n && LargestPending(s, vs[0]) && s.chunks[vs[0]].Remaining() >= 2 * s.minSize
      && Halvings(SplitPending(s, vs[0]), n, vs[1..], s')
  }

  /** prepare(n): vs are the chunks its loop halves. */
  ghost predicate Prepare(s: Sched, n: int, vs: seq<nat>, s': Sched) {
    Halvings(s, n, vs, s') && (|s'.pending| >= n || NothingToHalve(s'))
  }

  ghost predicate NothingToHalve(s: Sched) {
    forall id :: id in s.pending && id in s.chunks ==> s.chunks[id].Remaining() < 2 * s.minSize
  }

  /** The number of workers prepare says can be started at once. */
  function EagerCount(s: Sched, n: int): nat {
    var k := if |s.pending| < n then |s.pending| else n;
    if k < 1 then 1 else k
  }

  function Register(s: Sched, w: nat): Sched { s.(live := s.live + {w}) }

  function Deregister(s: Sched, w: nat): Sched {
    s.(live := s.live - {w}, retiring := s.retiring - {w})
  }

  predicate Refused(s: Sched, w: nat) {
    w in s.retiring || (s.limit > 0 && |NonRetiring(s)| > s.limit)
  }

  function GrantPending(s: Sched, w: nat): Sched
    requires |s.pending| > 0 && s.pending[0] in s.chunks
  {
    var id := s.pending[0];
    var c := s.chunks[id];
    s.(pending := s.pending[1..],
       active := s.active + {id},
       chunks := s.chunks[id := c.(owner := w)],
       trace := s.trace + [Started(id, c.off, c.end - c.off, c.written)])
  }

  /** `added`, cut off v's tail, goes to w, and the Reporter is told. */
  function HandOut(s: Sched, v: nat, added: nat, w: nat): Sched
    requires v in s.chunks && added in s.chunks
  {
    var c := s.chunks[added];
    s.(chunks := s.chunks[added := c.(owner := w)],
       active := s.active + {added},
       trace := s.trace + [Resized(v, s.chunks[v].end - s.chunks[v].off)] + [Started(added, c.off, c.end - c.off, c.written)])
  }

  function Steal(s: Sched, v: nat, w: nat): Sched
    requires v in s.chunks
  {
    var c := s.chunks[v];
    var mid := Middle(c);
    var m := Cut(s.chunks, v, mid, s.nextID);
    s.(chunks := m[s.nextID := m[s.nextID].(owner := w)],
       nextID := s.nextID + 1,
       active := s.active + {s.nextID},
       trace := s.trace + [Resized(v, mid - c.off)] + [Started(s.nextID, mid, c.end - mid, 0)])
  }

  datatype Granted = Nothing | Granted(id: nat)

  /** A steal from v, the largest active remainder, if it can be halved. */
  ghost predicate TrySteal(s: Sched, v: nat, w: nat, s': Sched) {
    if s.active == {} then s' == s
    else
      && Largest(s.chunks, s.active, v)
      && s' == if s.chunks[v].Remaining() >= 2 * s.minSize then Steal(s, v, w) else s
  }

  /** What a registered worker that is not refused gets: the head of pending,
      or the upper half of the largest active remainder, or nothing. */
  ghost predicate FindWork(s: Sched, w: nat, v: nat, r: Granted, s': Sched) {
    if |s.pending| > 0 then
      s.pending[0] in s.chunks && r == Granted(s.pending[0]) && s' == GrantPending(s, w)
    else if s.active == {} then
      r == Nothing && s' == Deregister(s, w)
    else
      && Largest(s.chunks, s.active, v)
      && (if s.chunks[v].Remaining() >= 2 * s.minSize
          then r == Granted(s.nextID) && s' == Steal(s, v, w)
          else r == Nothing && s' == Deregister(s, w))
  }

  /** next(w): v is the victim the steal scan settled on, when it ran and
      found one. */
  ghost predicate Next(s: Sched, w: nat, v: nat, r: Granted, s': Sched) {
    var s1 := Register(s, w);
    if Refused(s1, w) then r == Nothing && s' == Deregister(s1, w)
    else FindWork(s1, w, v, r, s')
  }

  function AtLeastOne(keep: int): nat { if keep < 1 then 1 else keep }

  /** The retirement choice: exactly the excess, highest ids first. */
  ghost predicate Victims(s: Sched, keep: int, vs: seq<nat>) {
    var excess := |NonRetiring(s)| - AtLeastOne(keep);
    && |vs| == (if excess <= 0 then 0 else excess)
    && (forall i :: 0 <= i < |vs| ==> vs[i] in NonRetiring(s))
    && (forall i, j :: 0 <= i < j < |vs| ==> vs[i] > vs[j])
    && (forall i, w :: 0 <= i < |vs| && w in NonRetiring(s) && w !in vs ==> w < vs[i])
  }

  /** What is unclaimed of v moves to a fresh pending chunk ... */
  function CutAway(s: Sched, v: nat): Sched
    requires v in s.chunks
  {
    s.(chunks := Cut(s.chunks, v, s.chunks[v].Cursor(), s.nextID),
       nextID := s.nextID + 1,
       pending := s.pending + [s.nextID])
  }

  /** ... and the Reporter is told. */
  function Move(s: Sched, v: nat): Sched
    requires v in s.chunks
  {
    CutAway(s, v).(trace := s.trace + [Resized(v, s.chunks[v].done)])
  }

  ghost predicate MoveAll(s: Sched, order: seq<nat>, s': Sched)
    decreases |order|
  {
    if order == [] then s' == s
    else order[0] in s.chunks && MoveAll(Move(s, order[0]), order[1..], s')
  }

  predicate MustMove(s: Sched, id: nat) {
    id in s.active && id in s.chunks && s.chunks[id].owner in s.retiring && !s.chunks[id].Drained()
  }

  function Lowered(limit: nat, keep: int): nat {
    if limit == 0 || AtLeastOne(keep) < limit then AtLeastOne(keep) else limit
  }

  function SetOf(vs: seq<nat>): set<nat> { set w | w in vs }

  function MarkRetiring(s: Sched, keep: int, vs: seq<nat>): Sched {
    s.(limit := Lowered(s.limit, keep), retiring := s.retiring + SetOf(vs))
  }

  ghost predicate Demote(s: Sched, keep: int, vs: seq<nat>, order: seq<nat>, s': Sched) {
    var s1 := MarkRetiring(s, keep, vs);
    && Victims(s, keep, vs)
    && (if vs == [] then s' == s1
        else
          && NoDup(order)
          && (forall id :: id in order <==> MustMove(s1, id))
          && MoveAll(s1, order, s'))
  }

  function ClaimSize(c: Chunk, n: int): int {
    if n < c.Remaining() then n else c.Remaining()
  }

  function Claim(s: Sched, id: nat, n: int): Sched
    requires id in s.chunks
  {
    var c := s.chunks[id];
    s.(chunks := s.chunks[id := c.(done := c.done + ClaimSize(c, n))])
  }

  /** written.Add: not under the scheduler's lock, but on the scheduler's chunk. */
  function Credit(s: Sched, id: nat, n: int): Sched
    requires id in s.chunks
  {
    var c := s.chunks[id];
    s.(chunks := s.chunks[id := c.(written := c.written + n)])
  }

  function Complete(s: Sched, id: nat): Sched {
    s.(active := s.active - {id}, chunks := s.chunks - {id})
  }
}
