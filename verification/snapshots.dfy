/** From the scheduler to the sidecar and back. */
module Snapshots {
  import opened SchedulerModel
  import opened SchedulerLaws
  import opened Sidecar
  import opened ChunkSums

  function Least(a: int, b: int): int { if a < b then a else b }

  /** A pending chunk is recorded with what it has written; an active one with
      that, cut off at its present end. */
  function StateOf(s: Sched, id: nat): ChunkState
    requires id in s.chunks
  {
    var c := s.chunks[id];
    if id in s.active then ChunkState(c.off, c.end, Least(c.written, c.end - c.off))
    else ChunkState(c.off, c.end, c.written)
  }

  /** out lists every chunk once, in the order given by `order`. */
  ghost predicate IsSnapshot(s: Sched, order: seq<nat>, out: seq<ChunkState>) {
    && NoDup(order) && |out| == |order|
    && (forall id :: id in order <==> id in s.chunks)
    && (forall i {:trigger out[i]} :: 0 <= i < |out| ==> order[i] in order && out[i] == StateOf(s, order[i]))
  }

  lemma SnapshotAt(s: Sched, order: seq<nat>, out: seq<ChunkState>, i: nat, total: int)
    requires Valid(s, total) && IsSnapshot(s, order, out) && i < |out|
    ensures order[i] in s.chunks
    ensures var c := s.chunks[order[i]]; out[i] == ChunkState(c.off, c.end, c.written)
  {
    assert order[i] in order;
    assert ChunkOk(s.chunks[order[i]], total);
  }

  /** The snapshot asks for exactly the bytes that are not known to be on disk. */
  lemma SnapshotNeedsWhatIsOwed(s: Sched, order: seq<nat>, out: seq<ChunkState>, total: int, b: int)
    requires Valid(s, total) && IsSnapshot(s, order, out)
    ensures Needs(out, b) <==> Owed(s.chunks, b)
  {
    if Needs(out, b) {
      var i :| 0 <= i < |out| && out[i].off + out[i].done <= b < out[i].end;
      SnapshotAt(s, order, out, i, total);
      assert s.chunks[order[i]].off + s.chunks[order[i]].written <= b < s.chunks[order[i]].end;
    }
    if Owed(s.chunks, b) {
      var id :| id in s.chunks && s.chunks[id].off + s.chunks[id].written <= b < s.chunks[id].end;
      assert id in order;
      var i :| 0 <= i < |order| && order[i] == id;
      SnapshotAt(s, order, out, i, total);
      assert out[i].off + out[i].done <= b < out[i].end;
    }
  }

  /** No active chunk was shrunk to nothing. */
  ghost predicate NoEmptyActive(s: Sched) {
    forall id :: id in s.active && id in s.chunks ==> s.chunks[id].off < s.chunks[id].end
  }

  /** A snapshot passes loadState's scan if and only if no active chunk was
      shrunk to length zero when it was taken. */
  lemma SnapshotLoads(s: Sched, order: seq<nat>, out: seq<ChunkState>, total: int)
    requires Valid(s, total) && IsSnapshot(s, order, out)
    ensures StatesOk(out, total) <==> NoEmptyActive(s)
  {
    if NoEmptyActive(s) {
      forall i | 0 <= i < |out| ensures InBounds(out[i], total) {
        SnapshotAt(s, order, out, i, total);
        NonEmptyChunk(s, order[i], total);
      }
      forall i, j | 0 <= i < j < |out| ensures StatesApart(out[i], out[j]) {
        SnapshotAt(s, order, out, i, total);
        SnapshotAt(s, order, out, j, total);
        assert order[i] != order[j];
        assert Apart(s.chunks[order[i]], s.chunks[order[j]]);
      }
    }
    if StatesOk(out, total) {
      forall id | id in s.active && id in s.chunks ensures s.chunks[id].off < s.chunks[id].end {
        assert id in order;
        var i :| 0 <= i < |order| && order[i] == id;
        SnapshotAt(s, order, out, i, total);
        assert InBounds(out[i], total);
      }
    }
  }

  lemma NonEmptyChunk(s: Sched, id: nat, total: int)
    requires Valid(s, total) && NoEmptyActive(s) && id in s.chunks
    ensures ChunkOk(s.chunks[id], total) && s.chunks[id].off < s.chunks[id].end
  {
    assert ChunkOk(s.chunks[id], total);
    if id !in s.active { assert id in s.pending; }
  }

  // ---- back from the sidecar ----

  /** multipart's loop: every recorded range that still lacks bytes becomes a
      pending chunk. */
  function Seeded(cs: seq<ChunkState>, n: nat, minSize: int): Sched
    requires n <= |cs|
  {
    if n == 0 then Empty(minSize)
    else
      var s := Seeded(cs, n - 1, minSize);
      var c := cs[n - 1];
      if c.done < c.end - c.off then AddPending(s, c.off, c.end, c.done) else s
  }

  /** Chunk id stems from the recorded range it was made from. */
  ghost predicate FromRecord(cs: seq<ChunkState>, n: nat, c: Chunk)
    requires n <= |cs|
  {
    exists i :: 0 <= i < n && c == Chunk(cs[i].off, cs[i].end, cs[i].done, cs[i].done, 0) && cs[i].done < cs[i].end - cs[i].off
  }

  lemma AddPendingKeeps(s: Sched, off: int, end: int, done: int, total: int)
    requires Valid(s, total) && 0 <= off && 0 <= done < end - off && end <= total
    requires forall id :: id in s.chunks ==> Apart(s.chunks[id], Chunk(off, end, done, done, 0))
    ensures Valid(AddPending(s, off, end, done), total)
  {
    AddPendingShape(s, off, end, done);
    assert s.nextID !in s.chunks && s.nextID !in s.pending;
    assert ChunkOk(Chunk(off, end, done, done, 0), total);
  }

  lemma {:induction false} SeededValid(cs: seq<ChunkState>, n: nat, minSize: int, total: int)
    requires StatesOk(cs, total) && n <= |cs| && minSize >= 1
    ensures var s := Seeded(cs, n, minSize);
      && Valid(s, total) && s.live == {} && s.retiring == {} && s.active == {} && s.limit == 0 && s.trace == []
      && (forall id :: id in s.chunks ==> FromRecord(cs, n, s.chunks[id]))
  {
    if n > 0 {
      SeededValid(cs, n - 1, minSize, total);
      var s := Seeded(cs, n - 1, minSize);
      var c := cs[n - 1];
      assert InBounds(c, total);
      forall id | id in s.chunks ensures Apart(s.chunks[id], Chunk(c.off, c.end, c.done, c.done, 0)) {
        var i :| 0 <= i < n - 1 && s.chunks[id] == Chunk(cs[i].off, cs[i].end, cs[i].done, cs[i].done, 0);
        assert StatesApart(cs[i], c);
      }
      forall id | id in s.chunks ensures FromRecord(cs, n, s.chunks[id]) {
        var i :| 0 <= i < n - 1 && s.chunks[id] == Chunk(cs[i].off, cs[i].end, cs[i].done, cs[i].done, 0) && cs[i].done < cs[i].end - cs[i].off;
      }
      if c.done < c.end - c.off {
        AddPendingKeeps(s, c.off, c.end, c.done, total);
        SeededRecord(cs, n, s);
      }
    }
  }

  lemma SeededRecord(cs: seq<ChunkState>, n: nat, s: Sched)
    requires 0 < n <= |cs| && cs[n - 1].done < cs[n - 1].end - cs[n - 1].off
    requires forall id :: id in s.chunks ==> FromRecord(cs, n, s.chunks[id])
    ensures var c := cs[n - 1]; var s' := AddPending(s, c.off, c.end, c.done);
      forall id :: id in s'.chunks ==> FromRecord(cs, n, s'.chunks[id])
  {
    var c := cs[n - 1];
    assert FromRecord(cs, n, Chunk(c.off, c.end, c.done, c.done, 0));
  }

  /** What was recorded as missing is what the rebuilt scheduler will hand out,
      and nothing else. */
  lemma {:induction false} SeededOffers(cs: seq<ChunkState>, n: nat, minSize: int, total: int, b: int)
    requires StatesOk(cs, total) && n <= |cs| && minSize >= 1
    ensures Unclaimed(Seeded(cs, n, minSize).chunks, b) <==>
      exists i :: 0 <= i < n && cs[i].off + cs[i].done <= b < cs[i].end
    ensures Owed(Seeded(cs, n, minSize).chunks, b) <==> Unclaimed(Seeded(cs, n, minSize).chunks, b)
  {
    if n > 0 {
      SeededOffers(cs, n - 1, minSize, total, b);
      SeededValid(cs, n - 1, minSize, total);
      var s := Seeded(cs, n - 1, minSize);
      var c := cs[n - 1];
      if c.done < c.end - c.off {
        AddOffers(s, c.off, c.end, c.done, b);
      }
    }
  }

  lemma AddOffers(s: Sched, off: int, end: int, done: int, b: int)
    requires s.nextID !in s.chunks
    ensures Unclaimed(AddPending(s, off, end, done).chunks, b) <==> Unclaimed(s.chunks, b) || off + done <= b < end
    ensures Owed(AddPending(s, off, end, done).chunks, b) <==> Owed(s.chunks, b) || off + done <= b < end
  {
    var m := s.chunks;
    var m' := AddPending(s, off, end, done).chunks;
    assert m'[s.nextID] == Chunk(off, end, done, done, 0);
    if Unclaimed(m, b) {
      var id :| id in m && m[id].off + m[id].done <= b < m[id].end;
      assert id in m' && m'[id] == m[id];
    }
    if Owed(m, b) {
      var id :| id in m && m[id].off + m[id].written <= b < m[id].end;
      assert id in m' && m'[id] == m[id];
    }
    if Unclaimed(m', b) {
      var id :| id in m' && m'[id].off + m'[id].done <= b < m'[id].end;
      if id != s.nextID { assert id in m && m'[id] == m[id]; }
    }
    if Owed(m', b) {
      var id :| id in m' && m'[id].off + m'[id].written <= b < m'[id].end;
      if id != s.nextID { assert id in m && m'[id] == m[id]; }
    }
  }

  /** Snapshot, save, load, rebuild: the bytes that were owed are exactly the
      bytes the new scheduler has to claim, and its remainingBytes is the
      sidecar's remaining(). */
  lemma SnapshotRoundTrip(s: Sched, order: seq<nat>, out: seq<ChunkState>, minSize: int, total: int)
    requires Valid(s, total) && IsSnapshot(s, order, out) && NoEmptyActive(s) && minSize >= 1
    ensures var s' := Seeded(out, |out|, minSize);
      && Valid(s', total)
      && (forall b :: Unclaimed(s'.chunks, b) <==> Owed(s.chunks, b))
      && RemainingSum(s'.chunks, s'.nextID) == RemainingTo(out, |out|) == |NeedSet(out)|
  {
    SnapshotLoads(s, order, out, total);
    var s' := Seeded(out, |out|, minSize);
    SeededValid(out, |out|, minSize, total);
    forall b ensures (Unclaimed(s'.chunks, b) <==> Owed(s.chunks, b)) && (Unclaimed(s'.chunks, b) <==> Needs(out, b)) {
      SeededOffers(out, |out|, minSize, total, b);
      SnapshotNeedsWhatIsOwed(s, order, out, total, b);
    }
    RemainingCounts(out, |out|, total);
    RebuiltCount(s', out, total);
  }

  lemma RebuiltCount(s: Sched, cs: seq<ChunkState>, total: int)
    requires Valid(s, total) && forall b :: Unclaimed(s.chunks, b) <==> Needs(cs, b)
    ensures RemainingSum(s.chunks, s.nextID) == |NeedSet(cs)|
  {
    RemainingIsCount(s.chunks, s.nextID, total);
    forall b ensures b in UnclaimedBelow(s.chunks, s.nextID) <==> b in NeedSet(cs) {
      AllBelow(s, b);
      NeedSetIs(cs, b);
    }
    assert UnclaimedBelow(s.chunks, s.nextID) == NeedSet(cs);
  }
}
