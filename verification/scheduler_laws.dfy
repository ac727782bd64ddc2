/** What every critical section of the scheduler keeps. */
module SchedulerLaws {
  import opened Intervals
  import opened SchedulerModel

  ghost predicate SameUnclaimed(m: Chunks, m': Chunks) {
    forall b :: Unclaimed(m, b) <==> Unclaimed(m', b)
  }

  ghost predicate SameOwed(m: Chunks, m': Chunks) {
    forall b :: Owed(m, b) <==> Owed(m', b)
  }

  ghost predicate SameCovered(m: Chunks, m': Chunks) {
    forall b :: Covered(m, b) <==> Covered(m', b)
  }

  ghost predicate SameBytes(m: Chunks, m': Chunks) {
    SameUnclaimed(m, m') && SameOwed(m, m') && SameCovered(m, m')
  }

  /** What an owner may rely on while somebody else is in the scheduler: only
      the end of its chunk moves, and never below its claim cursor. */
  predicate Kept(c: Chunk, c': Chunk) {
    c' == c.(end := c'.end) && c.Cursor() <= c'.end <= c.end
  }

  ghost predicate ActiveKept(s: Sched, s': Sched) {
    forall id :: id in s.active && id in s.chunks ==>
      id in s'.active && id in s'.chunks && Kept(s.chunks[id], s'.chunks[id])
  }

  // ---- cutting a chunk in two ----

  lemma CutOk(m: Chunks, v: nat, at: int, added: nat, total: int)
    requires ChunksOk(m, total) && v in m && added !in m
    requires m[v].Cursor() <= at <= m[v].end
    ensures ChunksOk(Cut(m, v, at, added), total)
  {
    var m' := Cut(m, v, at, added);
    assert ChunkOk(m[v], total);
    forall i, j | i in m' && j in m' && i != j ensures Apart(m'[i], m'[j]) {
      assert i != added ==> i in m;
      assert j != added ==> j in m;
    }
  }

  lemma CutSame(m: Chunks, v: nat, at: int, added: nat, total: int)
    requires ChunksOk(m, total) && v in m && added !in m
    requires m[v].Cursor() <= at <= m[v].end
    ensures SameBytes(m, Cut(m, v, at, added))
  {
    var m' := Cut(m, v, at, added);
    assert ChunkOk(m[v], total);
    assert m'[v] == m[v].(end := at) && m'[added] == Chunk(at, m[v].end, 0, 0, 0);
    assert forall i :: i in m && i != v ==> i in m' && m'[i] == m[i];
    assert forall i :: i in m' && i != v && i != added ==> i in m && m'[i] == m[i];
    forall b ensures Unclaimed(m, b) <==> Unclaimed(m', b) { CutUnclaimed(m, m', v, at, added, b); }
    forall b ensures Owed(m, b) <==> Owed(m', b) { CutOwed(m, m', v, at, added, b); }
    forall b ensures Covered(m, b) <==> Covered(m', b) { CutCovered(m, m', v, at, added, b); }
  }

  ghost predicate IsCut(m: Chunks, m': Chunks, v: nat, at: int, added: nat) {
    && v in m && added !in m && v in m' && added in m'
    && 0 <= m[v].written <= m[v].done
    && m[v].Cursor() <= at <= m[v].end
    && m'[v] == m[v].(end := at) && m'[added] == Chunk(at, m[v].end, 0, 0, m'[added].owner)
    && (forall i :: i in m && i != v ==> i in m' && m'[i] == m[i])
    && (forall i :: i in m' && i != v && i != added ==> i in m && m'[i] == m[i])
  }

  lemma CutUnclaimed(m: Chunks, m': Chunks, v: nat, at: int, added: nat, b: int)
    requires IsCut(m, m', v, at, added)
    ensures Unclaimed(m, b) <==> Unclaimed(m', b)
  {
    if Unclaimed(m, b) {
      var i :| i in m && m[i].off + m[i].done <= b < m[i].end;
      var k := if i == v && at <= b then added else i;
      assert k in m' && m'[k].off + m'[k].done <= b < m'[k].end;
    }
    if Unclaimed(m', b) {
      var i :| i in m' && m'[i].off + m'[i].done <= b < m'[i].end;
      var k := if i == added then v else i;
      assert k in m && m[k].off + m[k].done <= b < m[k].end;
    }
  }

  lemma CutOwed(m: Chunks, m': Chunks, v: nat, at: int, added: nat, b: int)
    requires IsCut(m, m', v, at, added)
    ensures Owed(m, b) <==> Owed(m', b)
  {
    if Owed(m, b) {
      var i :| i in m && m[i].off + m[i].written <= b < m[i].end;
      var k := if i == v && at <= b then added else i;
      assert k in m' && m'[k].off + m'[k].written <= b < m'[k].end;
    }
    if Owed(m', b) {
      var i :| i in m' && m'[i].off + m'[i].written <= b < m'[i].end;
      var k := if i == added then v else i;
      assert k in m && m[k].off + m[k].written <= b < m[k].end;
    }
  }

  lemma CutCovered(m: Chunks, m': Chunks, v: nat, at: int, added: nat, b: int)
    requires IsCut(m, m', v, at, added)
    ensures Covered(m, b) <==> Covered(m', b)
  {
    if Covered(m, b) {
      var i :| i in m && m[i].off <= b < m[i].end;
      var k := if i == v && at <= b then added else i;
      assert k in m' && m'[k].off <= b < m'[k].end;
    }
    if Covered(m', b) {
      var i :| i in m' && m'[i].off <= b < m'[i].end;
      var k := if i == added then v else i;
      assert k in m && m[k].off <= b < m[k].end;
    }
  }

  // ---- one field of one chunk changes ----

  lemma UnclaimedByFields(m: Chunks, m': Chunks)
    requires m.Keys == m'.Keys
    requires forall i :: i in m ==> m'[i].off == m[i].off && m'[i].done == m[i].done && m'[i].end == m[i].end
    ensures SameUnclaimed(m, m')
  {
    forall b ensures Unclaimed(m, b) <==> Unclaimed(m', b) {
      if Unclaimed(m, b) {
        var i :| i in m && m[i].off + m[i].done <= b < m[i].end;
        assert i in m' && m'[i].off + m'[i].done <= b < m'[i].end;
      }
    }
  }

  lemma OwedByFields(m: Chunks, m': Chunks)
    requires m.Keys == m'.Keys
    requires forall i :: i in m ==> m'[i].off == m[i].off && m'[i].written == m[i].written && m'[i].end == m[i].end
    ensures SameOwed(m, m')
  {
    forall b ensures Owed(m, b) <==> Owed(m', b) {
      if Owed(m, b) {
        var i :| i in m && m[i].off + m[i].written <= b < m[i].end;
        assert i in m' && m'[i].off + m'[i].written <= b < m'[i].end;
      }
    }
  }

  lemma CoveredByFields(m: Chunks, m': Chunks)
    requires m.Keys == m'.Keys
    requires forall i :: i in m ==> m'[i].off == m[i].off && m'[i].end == m[i].end
    ensures SameCovered(m, m')
  {
    forall b ensures Covered(m, b) <==> Covered(m', b) {
      if Covered(m, b) {
        var i :| i in m && m[i].off <= b < m[i].end;
        assert i in m' && m'[i].off <= b < m'[i].end;
      }
    }
  }

  lemma OwnedSame(m: Chunks, id: nat, w: nat, total: int)
    requires ChunksOk(m, total) && id in m
    ensures ChunksOk(m[id := m[id].(owner := w)], total)
    ensures SameBytes(m, m[id := m[id].(owner := w)])
  {
    var m' := m[id := m[id].(owner := w)];
    assert forall i :: i in m <==> i in m';
    assert forall i :: i in m ==> m'[i] == m[i].(owner := m'[i].owner);
    assert forall i, j :: i in m && j in m && Apart(m[i], m[j]) ==> Apart(m'[i], m'[j]);
    UnclaimedByFields(m, m');
    OwedByFields(m, m');
    CoveredByFields(m, m');
  }

  lemma SameTrans(a: Chunks, b: Chunks, c: Chunks)
    requires SameBytes(a, b) && SameBytes(b, c)
    ensures SameBytes(a, c)
  {
  }

  // ---- next ----

  lemma DeregisterKeeps(s: Sched, w: nat, total: int)
    requires Valid(s, total)
    ensures Valid(Deregister(s, w), total)
    ensures NonRetiring(Deregister(s, w)) == NonRetiring(s) - {w}
  {
    SubsetSize(NonRetiring(s) - {w}, NonRetiring(s));
  }

  lemma RefusalKeeps(s: Sched, w: nat, total: int)
    requires Valid(s, total)
    ensures Valid(Deregister(Register(s, w), w), total)
    ensures NonRetiring(Deregister(Register(s, w), w)) == NonRetiring(s) - {w}
  {
    assert Deregister(Register(s, w), w) == Deregister(s, w) by {
      assert s.live + {w} - {w} == s.live - {w};
    }
    DeregisterKeeps(s, w, total);
  }

  lemma GrantPendingShape(s: Sched, w: nat)
    requires Shape(s) && |s.pending| > 0 && s.pending[0] in s.chunks
    ensures Shape(GrantPending(s, w))
  {
    var id := s.pending[0];
    var s' := GrantPending(s, w);
    forall i ensures i in s.pending <==> i == id || i in s'.pending {
      if i in s.pending {
        var k :| 0 <= k < |s.pending| && s.pending[k] == i;
        if k > 0 { assert s'.pending[k - 1] == i; }
      }
    }
    assert id !in s'.pending;
  }

  lemma StealShape(s: Sched, v: nat, w: nat)
    requires Shape(s) && v in s.chunks
    ensures Shape(Steal(s, v, w))
  {
    assert s.nextID !in s.chunks;
    assert Steal(s, v, w).chunks.Keys == s.chunks.Keys + {s.nextID};
  }

  /** A steal is a cut whose upper part is handed out at once. */
  lemma StealIs(s: Sched, v: nat, w: nat)
    requires Shape(s) && v in s.chunks
    ensures HandOut(Halve(s, v), v, s.nextID, w) == Steal(s, v, w)
  {
    assert s.nextID != v;
  }

  lemma FoundNothing(s: Sched, w: nat, v: nat)
    requires |s.pending| == 0 && TrySteal(s, v, w, s)
    ensures FindWork(s, w, v, Nothing, Deregister(s, w))
  {
    if s.active != {} { assert Steal(s, v, w).nextID != s.nextID; }
  }

  lemma FoundSteal(s: Sched, w: nat, v: nat, s': Sched)
    requires |s.pending| == 0 && TrySteal(s, v, w, s') && s' != s
    ensures FindWork(s, w, v, Granted(s.nextID), s')
  {
  }

  lemma ClaimShape(s: Sched, id: nat, n: int)
    requires Shape(s) && id in s.chunks
    ensures Shape(Claim(s, id, n)) && Claim(s, id, n).chunks.Keys == s.chunks.Keys
  {
  }

  lemma CompleteShape(s: Sched, id: nat)
    requires Shape(s) && id in s.active
    ensures Shape(Complete(s, id))
  {
  }

  lemma GrantPendingKeeps(s: Sched, w: nat, total: int)
    requires Valid(s, total) && |s.pending| > 0 && s.pending[0] in s.chunks
    ensures Valid(GrantPending(s, w), total)
    ensures SameBytes(s.chunks, GrantPending(s, w).chunks)
    ensures ActiveKept(s, GrantPending(s, w))
  {
    var id := s.pending[0];
    var s' := GrantPending(s, w);
    OwnedSame(s.chunks, id, w, total);
    forall i ensures i in s.pending <==> i == id || i in s'.pending {
      if i in s.pending {
        var k :| 0 <= k < |s.pending| && s.pending[k] == i;
        if k > 0 { assert s'.pending[k - 1] == i; }
      }
    }
    assert id !in s'.pending;
  }

  lemma StealKeeps(s: Sched, v: nat, w: nat, total: int)
    requires Valid(s, total) && v in s.active && v in s.chunks
    requires s.chunks[v].Remaining() >= 2 * s.minSize
    ensures Valid(Steal(s, v, w), total)
    ensures SameBytes(s.chunks, Steal(s, v, w).chunks)
    ensures ActiveKept(s, Steal(s, v, w))
    ensures s.chunks[v].Cursor() + s.minSize <= Middle(s.chunks[v]) <= s.chunks[v].end - s.minSize
  {
    var c := s.chunks[v];
    var mid := Middle(c);
    var s' := Steal(s, v, w);
    assert s.nextID !in s.chunks;
    CutOk(s.chunks, v, mid, s.nextID, total);
    CutSame(s.chunks, v, mid, s.nextID, total);
    var m := Cut(s.chunks, v, mid, s.nextID);
    OwnedSame(m, s.nextID, w, total);
    SameTrans(s.chunks, m, s'.chunks);
    assert s'.chunks.Keys == s.chunks.Keys + {s.nextID};
  }

  /** What w leaves next with: an exit, or a chunk with work left and nothing
      in flight that nobody held before. */
  ghost predicate NextOutcome(s: Sched, w: nat, r: Granted, s': Sched) {
    if r == Nothing then
      && s'.chunks == s.chunks && s'.active == s.active && s'.pending == s.pending
      && s'.live == s.live - {w} && s'.retiring == s.retiring - {w}
    else
      && r.id !in s.active && s'.active == s.active + {r.id} && r.id in s'.chunks
      && s'.chunks[r.id].owner == w && s'.chunks[r.id].written == s'.chunks[r.id].done
      && !s'.chunks[r.id].Drained()
      && w !in s.retiring && s'.retiring == s.retiring && s'.live == s.live + {w}
  }

  /** The three ways out of next. */
  lemma NextCases(s: Sched, w: nat, v: nat, r: Granted, s': Sched)
    requires Shape(s) && Next(s, w, v, r, s')
    ensures r == Nothing ==> s' == Deregister(Register(s, w), w)
    ensures r.Granted? ==> !Refused(Register(s, w), w)
    ensures r.Granted? && |s.pending| > 0 ==>
      s.pending[0] in s.pending && r.id == s.pending[0] && s' == GrantPending(Register(s, w), w)
    ensures r.Granted? && |s.pending| == 0 ==>
      v in s.active && s.chunks[v].Remaining() >= 2 * s.minSize && r.id == s.nextID && s' == Steal(Register(s, w), v, w)
  {
    if |s.pending| > 0 { assert s.pending[0] in s.pending; }
  }

  lemma RegisterKeeps(s: Sched, w: nat, total: int)
    requires Valid(s, total) && !Refused(Register(s, w), w)
    ensures Valid(Register(s, w), total)
  {
  }

  /** next keeps the invariant and every byte set. */
  lemma NextKeeps(s: Sched, w: nat, v: nat, r: Granted, s': Sched, total: int)
    requires Valid(s, total) && Next(s, w, v, r, s')
    ensures Valid(s', total)
    ensures SameBytes(s.chunks, s'.chunks)
    ensures ActiveKept(s, s')
    ensures NextOutcome(s, w, r, s')
  {
    NextCases(s, w, v, r, s');
    if r == Nothing {
      RefusalKeeps(s, w, total);
    } else {
      RegisterKeeps(s, w, total);
      if |s.pending| > 0 {
        GrantPendingKeeps(Register(s, w), w, total);
      } else {
        StealKeeps(Register(s, w), v, w, total);
      }
    }
  }

  /** A live worker that is not retiring is never turned away by the limit. */
  lemma StayingWorkerNotRefused(s: Sched, w: nat)
    requires Capped(s) && w in NonRetiring(s)
    ensures !Refused(Register(s, w), w)
  {
    assert NonRetiring(Register(s, w)) == NonRetiring(s);
  }

  /** next strands nothing: if pending work was served, it still is, and every
      undrained active chunk keeps an owner that stays. */
  lemma NextServes(s: Sched, w: nat, v: nat, r: Granted, s': Sched, total: int)
    requires Valid(s, total) && Next(s, w, v, r, s')
    requires ActiveServed(s) && HoldsNone(s, w)
    requires w in s.retiring ==> PendingServed(s)
    ensures PendingServed(s') && ActiveServed(s')
  {
    NextKeeps(s, w, v, r, s', total);
    if r == Nothing {
      NextCases(s, w, v, r, s');
      RefusalKeeps(s, w, total);
      if !(w in s.retiring) && s.pending != [] { RefusedByLimit(s, w, v, r, s'); }
    } else {
      assert NonRetiring(s') == NonRetiring(s) + {w};
    }
  }

  /** Only an excess over the limit turns away a worker while work is pending,
      and the excess stays. */
  lemma RefusedByLimit(s: Sched, w: nat, v: nat, r: Granted, s': Sched)
    requires s.retiring <= s.live && Next(s, w, v, r, s') && r == Nothing && w !in s.retiring && s.pending != []
    ensures NonRetiring(s') != {}
  {
    var s1 := Register(s, w);
    assert |NonRetiring(s1)| >= 2;
    assert w in NonRetiring(s1);
    assert NonRetiring(s') == NonRetiring(s1) - {w};
    assert |NonRetiring(s')| >= 1;
  }

  lemma NextDrains(s: Sched, w: nat, v: nat, r: Granted, s': Sched, total: int)
    requires Valid(s, total) && Next(s, w, v, r, s') && RetiringDrained(s)
    ensures RetiringDrained(s')
  {
    NextKeeps(s, w, v, r, s', total);
  }

  // ---- addPending and prepare ----

  lemma AddPendingShape(s: Sched, off: int, end: int, done: int)
    requires Shape(s)
    ensures Shape(AddPending(s, off, end, done))
  {
    var s' := AddPending(s, off, end, done);
    assert s.nextID !in s.chunks && s.nextID !in s.pending;
    assert s'.chunks.Keys == s.chunks.Keys + {s.nextID};
    forall i ensures i in s'.pending <==> i in s.pending || i == s.nextID {}
  }

  lemma SplitPendingKeeps(s: Sched, v: nat, total: int)
    requires Valid(s, total) && v in s.pending && v in s.chunks && s.chunks[v].Remaining() >= 2 * s.minSize
    ensures Valid(SplitPending(s, v), total)
    ensures SameBytes(s.chunks, SplitPending(s, v).chunks)
    ensures var mid := Middle(s.chunks[v]);
      s.chunks[v].Cursor() + s.minSize <= mid <= s.chunks[v].end - s.minSize
  {
    var c := s.chunks[v];
    assert s.nextID !in s.chunks;
    assert ChunkOk(c, total);
    CutOk(s.chunks, v, Middle(c), s.nextID, total);
    CutSame(s.chunks, v, Middle(c), s.nextID, total);
    SplitPendingShape(s, v);
    SplitFresh(s, v);
  }

  lemma SplitPendingShape(s: Sched, v: nat)
    requires Shape(s) && v in s.chunks
    ensures Shape(SplitPending(s, v))
  {
    var s' := SplitPending(s, v);
    assert s.nextID !in s.chunks && s.nextID !in s.pending;
    assert s'.chunks.Keys == s.chunks.Keys + {s.nextID};
    forall i ensures i in s'.pending <==> i in s.pending || i == s.nextID {}
  }

  lemma SplitFresh(s: Sched, v: nat)
    requires Shape(s) && PendingFresh(s) && v in s.pending && v in s.chunks && s.chunks[v].Remaining() >= 2 * s.minSize
    ensures PendingFresh(SplitPending(s, v))
  {
    var s' := SplitPending(s, v);
    assert s.nextID !in s.chunks && s.nextID !in s.pending;
    forall i ensures i in s'.pending <==> i in s.pending || i == s.nextID {}
  }

  lemma {:induction false} HalvingsKeep(s: Sched, n: int, vs: seq<nat>, s': Sched, total: int)
    requires Valid(s, total) && Halvings(s, n, vs, s')
    ensures Valid(s', total) && SameBytes(s.chunks, s'.chunks)
    ensures s'.active == s.active && s'.live == s.live && s'.retiring == s.retiring
    ensures s'.limit == s.limit && s'.trace == s.trace && s'.minSize == s.minSize
    ensures |s'.pending| == |s.pending| + |vs|
    decreases |vs|
  {
    if vs != [] {
      SplitPendingKeeps(s, vs[0], total);
      HalvingsKeep(SplitPending(s, vs[0]), n, vs[1..], s', total);
      SameTrans(s.chunks, SplitPending(s, vs[0]).chunks, s'.chunks);
    }
  }

  lemma {:induction false} HalvingsSnoc(s: Sched, n: int, vs: seq<nat>, t: Sched, v: nat)
    requires Halvings(s, n, vs, t)
    requires |t.pending| < n && LargestPending(t, v) && t.chunks[v].Remaining() >= 2 * t.minSize
    ensures Halvings(s, n, vs + [v], SplitPending(t, v))
    decreases |vs|
  {
    if vs == [] {
      assert ([] + [v])[1..] == [];
      assert Halvings(SplitPending(t, v), n, [], SplitPending(t, v));
    } else {
      HalvingsSnoc(SplitPending(s, vs[0]), n, vs[1..], t, v);
      assert (vs + [v])[1..] == vs[1..] + [v];
    }
  }

  // ---- demote ----

  lemma SeqSetSize(vs: seq<nat>)
    requires NoDup(vs)
    ensures |SetOf(vs)| == |vs|
  {
    if vs != [] {
      var rest := vs[1..];
      SeqSetSize(rest);
      assert vs == [vs[0]] + rest;
      assert SetOf(vs) == SetOf(rest) + {vs[0]};
    }
  }

  /** Half-way through the retirement choice. */
  ghost predicate Choosing(staying: set<nat>, vs: seq<nat>) {
    && SetOf(vs) <= staying && |SetOf(vs)| == |vs|
    && (forall i, j :: 0 <= i < j < |vs| ==> vs[i] > vs[j])
    && (forall i, w :: 0 <= i < |vs| && w in staying && w !in vs ==> w < vs[i])
  }

  lemma SomeoneStays(staying: set<nat>, vs: seq<nat>)
    requires Choosing(staying, vs) && |vs| < |staying|
    ensures exists w :: w in staying && w !in vs
  {
    var gone := SetOf(vs);
    assert |staying - gone| == |staying| - |gone| by { assert staying * gone == gone; }
    var w :| w in staying - gone;
  }

  lemma ChooseOne(staying: set<nat>, vs: seq<nat>, best: nat)
    requires Choosing(staying, vs) && best in staying - SetOf(vs)
    requires forall w :: w in staying - SetOf(vs) ==> w <= best
    ensures Choosing(staying, vs + [best])
    ensures SetOf(vs + [best]) == SetOf(vs) + {best}
  {
    assert SetOf(vs + [best]) == SetOf(vs) + {best};
    assert best !in SetOf(vs);
    forall i, w | 0 <= i < |vs + [best]| && w in staying && w !in vs + [best] ensures w < (vs + [best])[i] {
      assert w !in vs && w != best;
      assert w in staying - SetOf(vs);
    }
  }

  lemma MarkShape(s: Sched, vs: seq<nat>)
    requires Shape(s) && SetOf(vs) <= NonRetiring(s)
    ensures Shape(s.(retiring := s.retiring + SetOf(vs)))
  {
  }

  lemma NoVictims(s: Sched, keep: int)
    requires |NonRetiring(s)| <= AtLeastOne(keep)
    ensures Demote(s, keep, [], [], s.(limit := Lowered(s.limit, keep)))
  {
    assert SetOf([]) == {};
    assert s.retiring + {} == s.retiring;
  }

  lemma DemoteDone(s: Sched, keep: int, vs: seq<nat>, order: seq<nat>, s': Sched)
    requires Choosing(NonRetiring(s), vs) && |vs| == |NonRetiring(s)| - AtLeastOne(keep) > 0
    requires Shrinking(MarkRetiring(s, keep, vs), order, {}, s')
    ensures Demote(s, keep, vs, order, s')
  {
    forall i | 0 <= i < |vs| ensures vs[i] in NonRetiring(s) { assert vs[i] in SetOf(vs); }
  }

  lemma VictimsDistinct(s: Sched, keep: int, vs: seq<nat>)
    requires Victims(s, keep, vs)
    ensures NoDup(vs) && SetOf(vs) <= NonRetiring(s)
  {
  }

  /** Exactly the excess is marked, and what is left respects the new limit. */
  lemma MarkCount(s: Sched, keep: int, vs: seq<nat>)
    requires s.retiring <= s.live && Capped(s) && Victims(s, keep, vs)
    ensures NonRetiring(MarkRetiring(s, keep, vs)) == NonRetiring(s) - SetOf(vs)
    ensures |NonRetiring(MarkRetiring(s, keep, vs))| ==
      if |NonRetiring(s)| > AtLeastOne(keep) then AtLeastOne(keep) else |NonRetiring(s)|
    ensures Capped(MarkRetiring(s, keep, vs))
    ensures vs != [] ==> MarkRetiring(s, keep, vs).limit == AtLeastOne(keep)
  {
    VictimsDistinct(s, keep, vs);
    SeqSetSize(vs);
    var marked := SetOf(vs);
    assert NonRetiring(MarkRetiring(s, keep, vs)) == NonRetiring(s) - marked;
    assert marked * NonRetiring(s) == marked;
    assert |NonRetiring(s) - marked| == |NonRetiring(s)| - |marked|;
  }

  lemma MarkKeeps(s: Sched, keep: int, vs: seq<nat>, total: int)
    requires Valid(s, total) && Victims(s, keep, vs)
    ensures Valid(MarkRetiring(s, keep, vs), total)
  {
    MarkCount(s, keep, vs);
    VictimsDistinct(s, keep, vs);
  }

  lemma MoveKeeps(s: Sched, v: nat, total: int)
    requires Valid(s, total) && v in s.active && v in s.chunks && !s.chunks[v].Drained()
    ensures Valid(Move(s, v), total)
    ensures SameBytes(s.chunks, Move(s, v).chunks)
    ensures ActiveKept(s, Move(s, v))
    ensures Move(s, v).chunks[v].Drained()
    ensures forall i :: i in s.chunks && i != v ==> i in Move(s, v).chunks && Move(s, v).chunks[i] == s.chunks[i]
  {
    var c := s.chunks[v];
    assert s.nextID !in s.chunks;
    assert ChunkOk(c, total);
    CutOk(s.chunks, v, c.Cursor(), s.nextID, total);
    CutSame(s.chunks, v, c.Cursor(), s.nextID, total);
    assert Move(s, v).chunks == Cut(s.chunks, v, c.Cursor(), s.nextID);
    MoveShape(s, v);
    MoveFresh(s, v);
    assert forall i :: i in s.chunks ==> ChunkOk(s.chunks[i], total);
    MoveFrame(s, v);
  }

  lemma MoveFrame(s: Sched, v: nat)
    requires v in s.chunks && s.nextID !in s.chunks
    requires forall i :: i in s.chunks ==> s.chunks[i].Cursor() <= s.chunks[i].end
    ensures ActiveKept(s, Move(s, v))
    ensures v in Move(s, v).chunks && Move(s, v).chunks[v].Drained()
    ensures forall i :: i in s.chunks && i != v ==> i in Move(s, v).chunks && Move(s, v).chunks[i] == s.chunks[i]
  {
  }

  lemma MoveShape(s: Sched, v: nat)
    requires Shape(s) && v in s.chunks
    ensures Shape(Move(s, v))
  {
    var s' := Move(s, v);
    assert s.nextID !in s.chunks;
    assert s'.chunks.Keys == s.chunks.Keys + {s.nextID};
    forall i ensures i in s'.pending <==> i in s.pending || i == s.nextID {}
    assert s.nextID !in s.pending;
  }

  lemma MoveFresh(s: Sched, v: nat)
    requires Shape(s) && PendingFresh(s) && v in s.active && v in s.chunks && !s.chunks[v].Drained()
    ensures PendingFresh(Move(s, v))
  {
    var s' := Move(s, v);
    assert s.nextID !in s.chunks && s.nextID !in s.pending;
    forall i ensures i in s'.pending <==> i in s.pending || i == s.nextID {}
  }

  lemma KeptTrans(s: Sched, t: Sched, u: Sched)
    requires ActiveKept(s, t) && ActiveKept(t, u)
    ensures ActiveKept(s, u)
  {
  }

  ghost predicate AllMovable(s: Sched, order: seq<nat>) {
    forall i :: 0 <= i < |order| ==>
      order[i] in s.active && order[i] in s.chunks && !s.chunks[order[i]].Drained()
  }

  lemma {:induction false} MoveAllSnoc(s: Sched, order: seq<nat>, t: Sched, v: nat)
    requires MoveAll(s, order, t) && v in t.chunks
    ensures MoveAll(s, order + [v], Move(t, v))
    decreases |order|
  {
    if order == [] {
      assert ([] + [v])[1..] == [];
      assert MoveAll(Move(t, v), [], Move(t, v));
    } else {
      MoveAllSnoc(Move(s, order[0]), order[1..], t, v);
      assert (order + [v])[1..] == order[1..] + [v];
    }
  }

  lemma {:induction false} MoveAllShape(s: Sched, order: seq<nat>, s': Sched)
    requires Shape(s) && MoveAll(s, order, s')
    ensures Shape(s')
    decreases |order|
  {
    if order != [] {
      MoveShape(s, order[0]);
      MoveAllShape(Move(s, order[0]), order[1..], s');
    }
  }

  /** Half-way through the shrink loop: `todo` are the active chunks not looked
      at yet, `order` those that were shrunk. */
  ghost predicate Shrinking(s: Sched, order: seq<nat>, todo: set<nat>, t: Sched) {
    && MoveAll(s, order, t) && NoDup(order) && t.active == s.active && t.retiring == s.retiring && todo <= s.active
    && (forall id :: id in order <==> id !in todo && MustMove(s, id))
    && (forall id :: id in todo && id in s.chunks ==> id in t.chunks && t.chunks[id] == s.chunks[id])
  }

  lemma ShrinkStays(s: Sched, order: seq<nat>, todo: set<nat>, t: Sched, id: nat)
    requires Shape(s) && Shrinking(s, order, todo, t) && id in todo
    ensures id in t.active && id in t.chunks
    ensures t.chunks[id].owner in t.retiring && !t.chunks[id].Drained() <==> MustMove(s, id)
  {
  }

  lemma ShrinkSkip(s: Sched, order: seq<nat>, todo: set<nat>, t: Sched, id: nat)
    requires Shrinking(s, order, todo, t) && id in todo && !MustMove(s, id)
    ensures Shrinking(s, order, todo - {id}, t)
  {
  }

  lemma ShrinkMove(s: Sched, order: seq<nat>, todo: set<nat>, t: Sched, id: nat)
    requires Shape(t) && Shrinking(s, order, todo, t) && id in todo && MustMove(s, id)
    ensures id in t.chunks && Shrinking(s, order + [id], todo - {id}, Move(t, id))
  {
    MoveAllSnoc(s, order, t, id);
    assert t.nextID !in t.chunks;
    assert id !in order;
  }

  ghost predicate AllDrained(s: Sched, order: seq<nat>) {
    forall i :: 0 <= i < |order| ==> order[i] in s.chunks && s.chunks[order[i]].Drained()
  }

  lemma {:induction false} MoveAllKeeps(s: Sched, order: seq<nat>, s': Sched, total: int)
    requires Valid(s, total) && NoDup(order) && AllMovable(s, order) && MoveAll(s, order, s')
    ensures Valid(s', total) && SameBytes(s.chunks, s'.chunks) && ActiveKept(s, s')
    ensures s'.live == s.live && s'.retiring == s.retiring && s'.limit == s.limit && s'.active == s.active
    ensures AllDrained(s', order)
    ensures forall i :: i in s.chunks && i !in order ==> i in s'.chunks && s'.chunks[i] == s.chunks[i]
    decreases |order|
  {
    if order != [] {
      var t := Move(s, order[0]);
      MoveKeeps(s, order[0], total);
      var rest := order[1..];
      forall i | 0 <= i < |rest|
        ensures rest[i] in t.active && rest[i] in t.chunks && !t.chunks[rest[i]].Drained()
      {
        assert rest[i] == order[i + 1];
        assert rest[i] != order[0];
      }
      assert NoDup(rest);
      MoveAllKeeps(t, rest, s', total);
      KeptTrans(s, t, s');
      SameTrans(s.chunks, t.chunks, s'.chunks);
      assert order[0] !in rest;
      forall i | 0 <= i < |order| ensures order[i] in s'.chunks && s'.chunks[order[i]].Drained() {
        if i > 0 { assert order[i] == rest[i - 1]; }
      }
      forall i | i in s.chunks && i !in order ensures i in s'.chunks && s'.chunks[i] == s.chunks[i] {
        assert i != order[0] && i !in rest;
      }
    }
  }

  /** demote keeps the invariant and every byte set, removes exactly the excess
      from the staying workers, and only ever lowers the limit. */
  lemma DemoteKeeps(s: Sched, keep: int, vs: seq<nat>, order: seq<nat>, s': Sched, total: int)
    requires Valid(s, total) && Demote(s, keep, vs, order, s')
    ensures Valid(s', total) && SameBytes(s.chunks, s'.chunks) && ActiveKept(s, s')
    ensures s'.live == s.live && s'.active == s.active
    ensures s'.retiring == s.retiring + SetOf(vs)
    ensures s'.limit == Lowered(s.limit, keep)
    ensures NonRetiring(s') == NonRetiring(s) - SetOf(vs)
    ensures |NonRetiring(s')| == if |NonRetiring(s)| > AtLeastOne(keep) then AtLeastOne(keep) else |NonRetiring(s)|
  {
    var s1 := MarkRetiring(s, keep, vs);
    MarkKeeps(s, keep, vs, total);
    MarkCount(s, keep, vs);
    if vs == [] {
      SameRefl(s);
    } else {
      MovableOrder(s1, order);
      MoveAllKeeps(s1, order, s', total);
    }
  }

  lemma SameRefl(s: Sched)
    ensures SameBytes(s.chunks, s.chunks)
  {
  }

  lemma MovableOrder(s: Sched, order: seq<nat>)
    requires forall id :: id in order <==> MustMove(s, id)
    ensures AllMovable(s, order)
  {
    forall i | 0 <= i < |order|
      ensures order[i] in s.active && order[i] in s.chunks && !s.chunks[order[i]].Drained()
    {
      assert order[i] in order;
      assert MustMove(s, order[i]);
    }
  }

  lemma DemoteDrains(s: Sched, keep: int, vs: seq<nat>, order: seq<nat>, s': Sched, total: int)
    requires Valid(s, total) && Demote(s, keep, vs, order, s') && RetiringDrained(s)
    ensures RetiringDrained(s')
  {
    DemoteKeeps(s, keep, vs, order, s', total);
    if vs != [] {
      var s1 := MarkRetiring(s, keep, vs);
      MarkKeeps(s, keep, vs, total);
      MovableOrder(s1, order);
      MoveAllKeeps(s1, order, s', total);
      forall id | id in s'.active && id in s'.chunks && s'.chunks[id].owner in s'.retiring
        ensures s'.chunks[id].Drained()
      {
        assert id in s1.chunks && s1.chunks[id].owner == s'.chunks[id].owner;
        if id in order {
          var k :| 0 <= k < |order| && order[k] == id;
        } else {
          assert !MustMove(s1, id);
        }
      }
    }
  }

  lemma DemoteServes(s: Sched, keep: int, vs: seq<nat>, order: seq<nat>, s': Sched, total: int)
    requires Valid(s, total) && Demote(s, keep, vs, order, s') && RetiringDrained(s)
    requires ActiveServed(s)
    ensures ActiveServed(s')
    ensures PendingServed(s) ==> PendingServed(s')
  {
    DemoteKeeps(s, keep, vs, order, s', total);
    DemoteDrains(s, keep, vs, order, s', total);
    forall id | id in s'.active && id in s'.chunks && !s'.chunks[id].Drained()
      ensures s'.chunks[id].owner in NonRetiring(s')
    {
      assert id in s.active && id in s.chunks;
      assert Kept(s.chunks[id], s'.chunks[id]);
      assert s'.chunks[id].owner !in s'.retiring;
    }
  }

  /** The victims are the highest ids: nobody who stays outranks one who goes. */
  lemma VictimsAreHighest(s: Sched, keep: int, vs: seq<nat>, order: seq<nat>, s': Sched, gone: nat, stays: nat, total: int)
    requires Valid(s, total) && Demote(s, keep, vs, order, s')
    requires gone in s'.retiring && gone !in s.retiring && stays in NonRetiring(s')
    ensures stays < gone
  {
    DemoteKeeps(s, keep, vs, order, s', total);
    var k :| 0 <= k < |vs| && vs[k] == gone;
    assert stays in NonRetiring(s) && stays !in vs;
  }

  // ---- claim, credit, complete ----

  lemma ClaimKeeps(s: Sched, id: nat, n: int, total: int)
    requires Valid(s, total) && id in s.active && id in s.chunks && n >= 0
    ensures Valid(Claim(s, id, n), total)
    ensures SameOwed(s.chunks, Claim(s, id, n).chunks)
    ensures SameCovered(s.chunks, Claim(s, id, n).chunks)
    ensures 0 <= ClaimSize(s.chunks[id], n) <= n
  {
    var s' := Claim(s, id, n);
    assert ChunkOk(s.chunks[id], total);
    OwedByFields(s.chunks, s'.chunks);
    CoveredByFields(s.chunks, s'.chunks);
  }

  lemma ApartAt(m: Chunks, i: nat, j: nat, b: int, total: int)
    requires ChunksOk(m, total) && i in m && j in m
    requires m[i].off <= b < m[i].end && m[j].off <= b < m[j].end
    ensures i == j
  {
  }

  /** A claim takes exactly the bytes it returns out of the unclaimed set. */
  lemma ClaimTakes(s: Sched, id: nat, n: int, total: int, b: int)
    requires Valid(s, total) && id in s.active && id in s.chunks && n >= 0
    ensures var at := s.chunks[id].Cursor(); var k := ClaimSize(s.chunks[id], n);
      && (at <= b < at + k ==> Unclaimed(s.chunks, b))
      && (Unclaimed(Claim(s, id, n).chunks, b) <==> Unclaimed(s.chunks, b) && !(at <= b < at + k))
  {
    var c := s.chunks[id];
    var at := c.Cursor();
    var k := ClaimSize(c, n);
    var m := s.chunks;
    var m' := Claim(s, id, n).chunks;
    assert ChunkOk(c, total);
    assert m'[id] == c.(done := c.done + k);
    if at <= b < at + k {
      assert m[id].off + m[id].done <= b < m[id].end;
      if Unclaimed(m', b) {
        var i :| i in m' && m'[i].off + m'[i].done <= b < m'[i].end;
        ApartAt(m, i, id, b, total);
        assert false;
      }
    } else {
      if Unclaimed(m, b) {
        var i :| i in m && m[i].off + m[i].done <= b < m[i].end;
        assert i in m' && m'[i].off + m'[i].done <= b < m'[i].end;
      }
      if Unclaimed(m', b) {
        var i :| i in m' && m'[i].off + m'[i].done <= b < m'[i].end;
        assert i in m && m[i].off + m[i].done <= b < m[i].end;
      }
    }
  }

  lemma CreditKeeps(s: Sched, id: nat, n: int, total: int)
    requires Valid(s, total) && id in s.active && id in s.chunks
    requires 0 <= n <= s.chunks[id].done - s.chunks[id].written
    ensures Valid(Credit(s, id, n), total)
    ensures SameUnclaimed(s.chunks, Credit(s, id, n).chunks)
  {
    var s' := Credit(s, id, n);
    UnclaimedByFields(s.chunks, s'.chunks);
  }

  /** Crediting n bytes pays for those bytes and for no others. */
  lemma CreditPays(s: Sched, id: nat, n: int, b: int)
    requires id in s.chunks && n >= 0
    requires Owed(s.chunks, b)
    ensures Owed(Credit(s, id, n).chunks, b) ||
      s.chunks[id].off + s.chunks[id].written <= b < s.chunks[id].off + s.chunks[id].written + n
  {
    var m := s.chunks;
    var m' := Credit(s, id, n).chunks;
    var i :| i in m && m[i].off + m[i].written <= b < m[i].end;
    if i != id || b >= m[id].off + m[id].written + n {
      assert i in m' && m'[i].off + m'[i].written <= b < m'[i].end;
    }
  }

  lemma CompleteKeeps(s: Sched, id: nat, total: int)
    requires Valid(s, total) && id in s.active && id in s.chunks
    requires s.chunks[id].Drained() && s.chunks[id].written == s.chunks[id].done
    ensures Valid(Complete(s, id), total)
    ensures SameOwed(s.chunks, Complete(s, id).chunks)
    ensures SameUnclaimed(s.chunks, Complete(s, id).chunks)
  {
    var m := s.chunks;
    var m' := Complete(s, id).chunks;
    forall b ensures Owed(m, b) <==> Owed(m', b) {
      if Owed(m, b) {
        var i :| i in m && m[i].off + m[i].written <= b < m[i].end;
        assert i in m';
      }
    }
    forall b ensures Unclaimed(m, b) <==> Unclaimed(m', b) {
      if Unclaimed(m, b) {
        var i :| i in m && m[i].off + m[i].done <= b < m[i].end;
        assert i in m';
      }
    }
  }
}
