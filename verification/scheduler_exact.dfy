/** Exactly when next hands work out and what, and exactly what demote moves,
    in the chunks' own numbers. */
module SchedulerExact {
  import opened SchedulerModel
  import opened SchedulerLaws
  import opened Engine
  import opened EngineLaws
  import opened Guarantees

  // ---- next ----

  /** Told to go, or one too many for the limit. */
  predicate TurnedAway(s: Sched, w: nat) {
    w in s.retiring || (s.limit > 0 && |s.live + {w} - s.retiring| > s.limit)
  }

  /** Somebody holds enough unclaimed bytes for two chunks of minimum size. */
  ghost predicate CanBeHalved(s: Sched) {
    exists a :: a in s.active && a in s.chunks && s.chunks[a].end - (s.chunks[a].off + s.chunks[a].done) >= 2 * s.minSize
  }

  /** A worker that is not turned away gets work exactly if some is pending or
      some active remainder is worth halving. */
  lemma NextGrantsExactly(s: Sched, w: nat, v: nat, r: Granted, s': Sched)
    requires Shape(s) && Next(s, w, v, r, s')
    ensures r.Granted? <==> !TurnedAway(s, w) && (s.pending != [] || CanBeHalved(s))
    ensures r == Nothing ==> s' == s.(live := s.live - {w}, retiring := s.retiring - {w})
  {
    assert NonRetiring(Register(s, w)) == s.live + {w} - s.retiring;
    if r == Nothing && !TurnedAway(s, w) {
      forall a | a in s.active && a in s.chunks
        ensures s.chunks[a].end - (s.chunks[a].off + s.chunks[a].done) < 2 * s.minSize
      {
        assert s.chunks[a].Remaining() <= s.chunks[v].Remaining();
      }
    }
    if r.Granted? { NextCases(s, w, v, r, s'); }
  }

  /** Pending work is handed out from the head, as it is, and announced with what
      is written of it. */
  lemma PendingIsGranted(s: Sched, w: nat, v: nat, r: Granted, s': Sched)
    requires Shape(s) && Next(s, w, v, r, s') && r.Granted? && s.pending != []
    ensures r.id == s.pending[0] && r.id in s.chunks && s'.pending == s.pending[1..]
    ensures var c := s.chunks[r.id];
      && s'.chunks == s.chunks[r.id := Chunk(c.off, c.end, c.done, c.written, w)]
      && s'.trace == s.trace + [Started(r.id, c.off, c.end - c.off, c.written)]
  {
    NextCases(s, w, v, r, s');
  }

  /** With nothing pending, the upper half of a remainder that none exceeds is
      handed out under a new id; the larger half when they differ. */
  lemma UpperHalfIsStolen(s: Sched, w: nat, v: nat, r: Granted, s': Sched, total: int)
    requires Valid(s, total) && Next(s, w, v, r, s') && r.Granted? && s.pending == []
    ensures v in s.active && v in s.chunks && v in s'.chunks && r.id in s'.chunks && r.id !in s.chunks
    ensures forall a :: a in s.active && a in s.chunks ==>
      s.chunks[a].end - (s.chunks[a].off + s.chunks[a].done) <= s.chunks[v].end - (s.chunks[v].off + s.chunks[v].done)
    ensures var c, lower, upper := s.chunks[v], s'.chunks[v], s'.chunks[r.id];
      && lower == c.(end := lower.end) && upper == Chunk(lower.end, c.end, 0, 0, w)
      && var kept, left := lower.end - (c.off + c.done), c.end - (c.off + c.done);
         s.minSize <= kept && 2 * kept <= left <= 2 * kept + 1
    ensures s'.trace == s.trace + [Resized(v, s'.chunks[v].end - s'.chunks[v].off)]
      + [Started(r.id, s'.chunks[r.id].off, s'.chunks[r.id].end - s'.chunks[r.id].off, 0)]
    ensures s'.pending == [] && s'.chunks.Keys == s.chunks.Keys + {r.id}
    ensures forall a :: a in s.chunks && a != v ==> s'.chunks[a] == s.chunks[a]
  {
    NextCases(s, w, v, r, s');
    assert ChunkOk(s.chunks[v], total);
    assert s.nextID !in s.chunks;
    forall a | a in s.active && a in s.chunks ensures s.chunks[a].Remaining() <= s.chunks[v].Remaining() {}
  }

  /** In any run a worker leaves through next only if it is turned away or if
      nothing is pending and no active remainder is worth halving. */
  lemma LeavesOnlyWithoutWork(src: Bytes, es: seq<Engine>, ops: seq<Op>, i: nat, w: nat, v: nat, r: Granted)
    requires RunFrom(src, es, ops) && i < |ops| && ops[i] == NextChunk(w, v, r)
    ensures w in es[i + 1].workers
    ensures es[i + 1].workers[w].pc.Exited? <==>
      TurnedAway(es[i].s, w) || (es[i].s.pending == [] && !CanBeHalved(es[i].s))
  {
    Reached(src, es, ops, i);
    assert StepAt(src, es, ops, i);
    NextGrantsExactly(es[i].s, w, v, r, es[i + 1].s);
  }

  // ---- demote ----

  /** The worker that holds chunk id is told to go while bytes of it are unclaimed. */
  predicate Loses(s: Sched, s': Sched, id: nat) {
    && id in s.active && id in s.chunks && s.chunks[id].owner in s'.retiring
    && s.chunks[id].off + s.chunks[id].done < s.chunks[id].end
  }

  /** What is left of chunk c when its unclaimed bytes are taken. */
  function Shrunk(c: Chunk): Chunk { c.(end := c.off + c.done) }

  /** A new pending chunk is the unclaimed part of one that lost it. */
  ghost predicate Remainder(s: Sched, s': Sched, d: Chunk) {
    exists id :: Loses(s, s', id) && d == Chunk(s.chunks[id].off + s.chunks[id].done, s.chunks[id].end, 0, 0, 0)
  }

  /** demote takes the unclaimed bytes of exactly the retiring workers' chunks,
      leaves every other chunk alone, and appends what it took to pending. */
  lemma DemoteExactly(s: Sched, keep: int, vs: seq<nat>, order: seq<nat>, s': Sched, total: int)
    requires Valid(s, total) && Demote(s, keep, vs, order, s') && RetiringDrained(s)
    ensures forall id :: id in s.chunks ==>
      id in s'.chunks && s'.chunks[id] == if Loses(s, s', id) then Shrunk(s.chunks[id]) else s.chunks[id]
    ensures s.pending <= s'.pending
    ensures forall k :: |s.pending| <= k < |s'.pending| ==>
      s'.pending[k] in s'.chunks && s'.pending[k] !in s.chunks && Remainder(s, s', s'.chunks[s'.pending[k]])
  {
    var s1 := MarkRetiring(s, keep, vs);
    DemoteKeeps(s, keep, vs, order, s', total);
    if vs == [] {
      forall id | id in s.chunks ensures !Loses(s, s', id) {
        assert s'.retiring == s.retiring;
      }
    } else {
      MarkKeeps(s, keep, vs, total);
      MovableOrder(s1, order);
      MoveAllExactly(s1, order, s', total);
      forall id | id in s.chunks
        ensures s'.chunks[id] == if Loses(s, s', id) then Shrunk(s.chunks[id]) else s.chunks[id]
      {
        assert Loses(s, s', id) <==> MustMove(s1, id);
      }
      forall k | |s.pending| <= k < |s'.pending| ensures Remainder(s, s', s'.chunks[s'.pending[k]]) {
        var id :| id in order && s'.chunks[s'.pending[k]] == Tail(s1.chunks, id);
        assert MustMove(s1, id) && Loses(s, s', id);
      }
    }
  }

  function Tail(m: Chunks, id: nat): Chunk {
    if id in m then Chunk(m[id].off + m[id].done, m[id].end, 0, 0, 0) else Chunk(0, 0, 0, 0, 0)
  }

  ghost predicate IsTail(m: Chunks, ids: seq<nat>, d: Chunk) { exists id :: id in ids && d == Tail(m, id) }

  lemma {:induction false} MoveAllExactly(s: Sched, order: seq<nat>, s': Sched, total: int)
    requires Valid(s, total) && NoDup(order) && AllMovable(s, order) && MoveAll(s, order, s')
    ensures forall id :: id in s.chunks ==> id in s'.chunks
    ensures forall id :: id in s.chunks ==> s'.chunks[id] == if id in order then Shrunk(s.chunks[id]) else s.chunks[id]
    ensures s.pending <= s'.pending
    ensures forall k :: |s.pending| <= k < |s'.pending| ==>
      && s'.pending[k] in s'.chunks && s'.pending[k] !in s.chunks
      && IsTail(s.chunks, order, s'.chunks[s'.pending[k]])
    decreases |order|
  {
    if order != [] {
      var t, rest := Move(s, order[0]), order[1..];
      MoveKeeps(s, order[0], total);
      forall i | 0 <= i < |rest|
        ensures rest[i] in t.active && rest[i] in t.chunks && !t.chunks[rest[i]].Drained() && rest[i] != order[0]
      {
        assert rest[i] == order[i + 1];
      }
      MoveAllExactly(t, rest, s', total);
      MoveOneMore(s, order, t, s', total);
    }
  }

  /** The first move of several. */
  lemma MoveOneMore(s: Sched, order: seq<nat>, t: Sched, s': Sched, total: int)
    requires Valid(s, total) && NoDup(order) && AllMovable(s, order) && order != [] && t == Move(s, order[0])
    requires forall id :: id in t.chunks ==> id in s'.chunks
    requires forall id :: id in t.chunks ==> s'.chunks[id] == if id in order[1..] then Shrunk(t.chunks[id]) else t.chunks[id]
    requires t.pending <= s'.pending
    requires forall k :: |t.pending| <= k < |s'.pending| ==>
      && s'.pending[k] in s'.chunks && s'.pending[k] !in t.chunks
      && IsTail(t.chunks, order[1..], s'.chunks[s'.pending[k]])
    ensures forall id :: id in s.chunks ==> id in s'.chunks
    ensures forall id :: id in s.chunks ==> s'.chunks[id] == if id in order then Shrunk(s.chunks[id]) else s.chunks[id]
    ensures s.pending <= s'.pending
    ensures forall k :: |s.pending| <= k < |s'.pending| ==>
      && s'.pending[k] in s'.chunks && s'.pending[k] !in s.chunks
      && IsTail(s.chunks, order, s'.chunks[s'.pending[k]])
  {
    var v := order[0];
    assert v in s.active && v in s.chunks && s.nextID !in s.chunks;
    assert t.chunks.Keys == s.chunks.Keys + {s.nextID};
    forall i | 0 <= i < |order[1..]| ensures order[1..][i] != v && order[1..][i] != s.nextID && order[1..][i] in s.chunks {
      assert order[1..][i] == order[i + 1];
    }
    assert forall id :: id in order <==> id == v || id in order[1..];
    forall k | |s.pending| <= k < |s'.pending|
      ensures s'.pending[k] in s'.chunks && s'.pending[k] !in s.chunks
      ensures IsTail(s.chunks, order, s'.chunks[s'.pending[k]])
    {
      if k == |s.pending| {
        assert s'.pending[k] == t.pending[k] == s.nextID;
        assert s'.chunks[s.nextID] == Tail(s.chunks, v);
      } else {
        assert |t.pending| <= k && IsTail(t.chunks, order[1..], s'.chunks[s'.pending[k]]);
        var id :| id in order[1..] && s'.chunks[s'.pending[k]] == Tail(t.chunks, id);
        assert id in order && Tail(t.chunks, id) == Tail(s.chunks, id);
      }
    }
  }
}
