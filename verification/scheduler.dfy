/** The scheduler as the original has it: chunks are objects that workers keep
    pointers to, and every method changes them in place. `view` is the
    scheduler's value; Valid ties it to the fields, and each method is proved
    against its relation over that value. */
module Scheduling {
  import M = SchedulerModel
  import L = SchedulerLaws
  import S = ChunkSums
  import C = Sidecar
  import N = Snapshots

  class Chunk {
    const id: nat
    const off: int
    var owner: nat
    var end: int
    /** The claim cursor, relative to off. */
    var done: int
    /** Bytes whose WriteAt completed. */
    var written: int

    constructor (id: nat, off: int, end: int, done: int, written: int)
      ensures this.id == id && this.off == off && this.end == end
      ensures this.done == done && this.written == written && this.owner == 0
    {
      this.id, this.off, this.end, this.done, this.written, this.owner := id, off, end, done, written, 0;
    }

    predicate Is(v: M.Chunk)
      reads this
    {
      off == v.off && end == v.end && done == v.done && written == v.written && owner == v.owner
    }
  }

  class Scheduler {
    var pending: seq<Chunk>
    var active: map<nat, Chunk>
    var live: set<nat>
    var retiring: set<nat>
    /** 0 means unlimited. */
    var limit: nat
    var minSize: int
    var nextID: nat

    ghost var view: M.Sched
    /** Every pending and active chunk, by id. */
    ghost var chunks: map<nat, Chunk>
    ghost var repr: set<Chunk>

    ghost predicate ChunksShown()
      reads this, repr
    {
      && chunks.Keys == view.chunks.Keys
      && (forall id :: id in chunks ==> chunks[id] in repr)
      && (forall id :: id in chunks ==> chunks[id].id == id && chunks[id].Is(view.chunks[id]))
    }

    ghost predicate ListsShown()
      reads this
    {
      && |pending| == |view.pending|
      && (forall i :: 0 <= i < |pending| ==>
            pending[i].id == view.pending[i] && view.pending[i] in chunks && chunks[view.pending[i]] == pending[i])
      && active.Keys == view.active
      && (forall id :: id in active ==> id in chunks && chunks[id] == active[id])
    }

    ghost predicate FieldsShown()
      reads this
    {
      && live == view.live && retiring == view.retiring && limit == view.limit
      && minSize == view.minSize && nextID == view.nextID
    }

    ghost predicate Shown()
      reads this, repr
    {
      ChunksShown() && ListsShown() && FieldsShown()
    }

    ghost predicate Valid()
      reads this, repr
    {
      Shown() && M.Shape(view)
    }

    ghost predicate Knows(c: Chunk)
      reads this
    {
      c.id in chunks && chunks[c.id] == c
    }

    constructor (minSize: int)
      requires minSize >= 1
      ensures Valid() && view == M.Empty(minSize) && fresh(repr)
    {
      pending, active, live, retiring, limit := [], map[], {}, {}, 0;
      this.minSize, nextID := minSize, 0;
      view, chunks, repr := M.Empty(minSize), map[], {};
    }

    method AddPending(off: int, end: int, done: int)
      requires Valid()
      modifies this
      ensures Valid() && view == M.AddPending(old(view), off, end, done)
      ensures fresh(repr - old(repr))
    {
      L.AddPendingShape(view, off, end, done);
      assert nextID !in view.chunks;
      var c := NewChunk(off, end, done);
      AppendPending(c);
    }

    method LargestPendingChunk() returns (victim: Chunk?)
      requires Valid()
      ensures victim == null <==> pending == []
      ensures victim != null ==>
        Knows(victim) && M.LargestPending(view, victim.id)
    {
      victim := null;
      for i := 0 to |pending|
        invariant victim == null <==> i == 0
        invariant victim != null ==>
          && victim.id in view.pending && Knows(victim)
          && forall k :: 0 <= k < i ==> view.chunks[view.pending[k]].Remaining() <= view.chunks[victim.id].Remaining()
      {
        var c := pending[i];
        if victim == null || c.end - (c.off + c.done) > victim.end - (victim.off + victim.done) {
          victim := c;
          assert view.pending[i] == victim.id;
        }
      }
    }

    /** A chunk under the next id, on no list yet. */
    method NewChunk(off: int, end: int, done: int) returns (added: Chunk)
      requires Shown() && nextID !in chunks
      modifies this`nextID, this`chunks, this`repr, this`view
      ensures Shown() && Knows(added) && fresh(added) && chunks == old(chunks)[old(nextID) := added] && repr == old(repr) + {added}
      ensures view == old(view).(chunks := old(view).chunks[old(nextID) := M.Chunk(off, end, done, done, 0)], nextID := old(nextID) + 1)
      ensures added.id == old(nextID)
    {
      added := new Chunk(nextID, off, end, done, done);
      chunks, repr := chunks[nextID := added], repr + {added};
      view := view.(chunks := view.chunks[nextID := M.Chunk(off, end, done, done, 0)], nextID := nextID + 1);
      nextID := nextID + 1;
    }

    method SetEnd(c: Chunk, end: int)
      requires Shown() && Knows(c)
      modifies this`view, c`end
      ensures Shown() && c.end == end
      ensures view == old(view).(chunks := old(view).chunks[c.id := old(view).chunks[c.id].(end := end)])
    {
      c.end := end;
      view := view.(chunks := view.chunks[c.id := view.chunks[c.id].(end := end)]);
    }

    /** Gives the bytes of c from `at` on to a new chunk. */
    method CutChunk(c: Chunk, at: int) returns (added: Chunk)
      requires Shown() && Knows(c) && nextID !in chunks
      modifies this`nextID, this`chunks, this`repr, this`view, c`end
      ensures Shown() && Knows(added) && fresh(added) && chunks == old(chunks)[old(nextID) := added] && repr == old(repr) + {added}
      ensures view == old(view).(chunks := M.Cut(old(view).chunks, c.id, at, old(nextID)), nextID := old(nextID) + 1)
      ensures added.id == old(nextID) && c.end == at
    {
      var end := c.end;
      SetEnd(c, at);
      added := NewChunk(at, end, 0);
    }

    method SetOwner(c: Chunk, w: nat)
      requires Shown() && Knows(c)
      modifies this`view, c`owner
      ensures Shown()
      ensures view == old(view).(chunks := old(view).chunks[c.id := old(view).chunks[c.id].(owner := w)])
    {
      c.owner := w;
      view := view.(chunks := view.chunks[c.id := view.chunks[c.id].(owner := w)]);
    }

    method AppendPending(c: Chunk)
      requires Shown() && Knows(c)
      modifies this`pending, this`view
      ensures Shown() && view == old(view).(pending := old(view).pending + [c.id])
    {
      pending := pending + [c];
      view := view.(pending := view.pending + [c.id]);
    }

    method PopPending()
      requires Shown() && pending != []
      modifies this`pending, this`view
      ensures Shown() && view == old(view).(pending := old(view).pending[1..])
    {
      pending := pending[1..];
      view := view.(pending := view.pending[1..]);
    }

    method MakeActive(c: Chunk)
      requires Shown() && Knows(c)
      modifies this`active, this`view
      ensures Shown() && view == old(view).(active := old(view).active + {c.id})
    {
      active := active[c.id := c];
      view := view.(active := view.active + {c.id});
    }

    method Occupy(c: Chunk, w: nat)
      requires Shown() && Knows(c)
      modifies this`active, this`view, c`owner
      ensures Shown()
      ensures view == old(view).(chunks := old(view).chunks[c.id := old(view).chunks[c.id].(owner := w)],
                                 active := old(view).active + {c.id})
    {
      SetOwner(c, w);
      MakeActive(c);
    }

    /** The Reporter callbacks, made while the lock is held. */
    method OnResize(id: nat, length: int)
      requires Shown()
      modifies this`view
      ensures Shown() && view == old(view).(trace := old(view).trace + [M.Resized(id, length)])
    {
      view := view.(trace := view.trace + [M.Resized(id, length)]);
    }

    method OnGrant(id: nat, off: int, length: int, written: int)
      requires Shown()
      modifies this`view
      ensures Shown()
      ensures view == old(view).(trace := old(view).trace + [M.Started(id, off, length, written)])
    {
      view := view.(trace := view.trace + [M.Started(id, off, length, written)]);
    }

    /** Halves c's unclaimed remainder; c keeps the lower half. */
    method SplitLocked(c: Chunk) returns (upper: Chunk)
      requires Shown() && Knows(c) && nextID !in chunks
      modifies this`nextID, this`chunks, this`repr, this`view, c`end
      ensures Shown() && Knows(upper) && fresh(upper) && repr == old(repr) + {upper}
      ensures view == M.Halve(old(view), c.id) && upper.id == old(view).nextID
      ensures c.id in chunks && chunks[c.id] == c
    {
      ghost var s := view;
      assert c.Is(s.chunks[c.id]);
      var cursor := c.off + c.done;
      var mid := cursor + (c.end - cursor) / 2;
      assert mid == M.Middle(s.chunks[c.id]);
      upper := CutChunk(c, mid);
    }

    /** One turn of prepare's loop: the upper half becomes pending. */
    method SplitPendingChunk(victim: Chunk) returns (ghost added: set<Chunk>)
      requires Valid() && Knows(victim)
      modifies this`nextID, this`chunks, this`repr, this`pending, this`view, victim`end
      ensures Valid() && view == M.SplitPending(old(view), victim.id)
      ensures fresh(added) && repr == old(repr) + added
    {
      ghost var s := view;
      L.SplitPendingShape(s, victim.id);
      assert nextID !in s.chunks;
      var upper := SplitLocked(victim);
      AppendPending(upper);
      added := {upper};
      assert view == M.SplitPending(s, victim.id);
    }

    /** Returns how many workers may be started at once. */
    method Prepare(n: int) returns (k: nat, ghost vs: seq<nat>)
      requires Valid()
      modifies this, repr
      ensures Valid() && M.Prepare(old(view), n, vs, view) && k == M.EagerCount(view, n)
      ensures fresh(repr - old(repr))
    {
      vs := [];
      while |pending| < n
        invariant Valid() && M.Halvings(old(view), n, vs, view)
        invariant fresh(repr - old(repr))
        decreases n - |pending|
      {
        var victim := LargestPendingChunk();
        if victim == null || victim.end - (victim.off + victim.done) < 2 * minSize {
          break;
        }
        L.HalvingsSnoc(old(view), n, vs, view, victim.id);
        vs := vs + [victim.id];
        ghost var added := SplitPendingChunk(victim);
      }
      var least := if |pending| < n then |pending| else n;
      k := if least < 1 then 1 else least;
    }

    method NonRetiringLive() returns (n: nat)
      requires Valid()
      ensures n == |M.NonRetiring(view)|
    {
      var m: int := |live|;
      var todo := retiring;
      while todo != {}
        invariant todo <= retiring
        invariant m == |live - (retiring - todo)|
        decreases todo
      {
        var id :| id in todo;
        assert live - (retiring - (todo - {id})) == live - (retiring - todo) - {id};
        if id in live {
          m := m - 1;
        }
        todo := todo - {id};
      }
      n := m;
    }

    method LargestActiveChunk() returns (victim: Chunk?)
      requires Valid()
      ensures victim == null <==> active == map[]
      ensures victim != null ==>
        Knows(victim) && M.Largest(view.chunks, view.active, victim.id)
    {
      victim := null;
      var todo := active.Keys;
      while todo != {}
        invariant todo <= active.Keys
        invariant victim == null ==> todo == active.Keys
        invariant victim != null ==>
          && victim.id in active && active[victim.id] == victim
          && forall a :: a in active && a !in todo ==> view.chunks[a].Remaining() <= view.chunks[victim.id].Remaining()
        decreases todo
      {
        var id :| id in todo;
        todo := todo - {id};
        var a := active[id];
        if victim == null || a.end - (a.off + a.done) > victim.end - (victim.off + victim.done) {
          victim := a;
        }
      }
    }

    method Deregister(w: nat)
      requires Valid()
      modifies this`live, this`retiring, this`view
      ensures Valid() && view == M.Deregister(old(view), w)
    {
      live := live - {w};
      retiring := retiring - {w};
      view := M.Deregister(view, w);
    }

    /** c is the head of pending. */
    method Grant(c: Chunk, w: nat)
      requires Valid() && pending != [] && pending[0] == c
      modifies this`pending, this`active, this`view, c`owner
      ensures Valid() && c.id in old(view).chunks && Knows(c)
      ensures |old(view).pending| > 0 && old(view).pending[0] == c.id && view == M.GrantPending(old(view), w)
    {
      ghost var s := view;
      L.GrantPendingShape(s, w);
      assert c.id == s.pending[0] && Knows(c) && c.Is(s.chunks[c.id]);
      PopPending();
      Occupy(c, w);
      ghost var d := s.chunks[c.id];
      assert c.off == d.off && c.end == d.end && c.written == d.written;
      OnGrant(c.id, c.off, c.end - c.off, c.written);
    }

    /** c, cut off victim's tail, goes to w. */
    method HandOut(victim: Chunk, c: Chunk, w: nat)
      requires Shown() && Knows(victim) && Knows(c)
      modifies this`active, this`view, c`owner
      ensures Shown() && view == M.HandOut(old(view), victim.id, c.id, w)
    {
      ghost var s := view;
      assert c.Is(s.chunks[c.id]) && victim.Is(s.chunks[victim.id]);
      Occupy(c, w);
      assert c.off == s.chunks[c.id].off && c.end == s.chunks[c.id].end && c.written == s.chunks[c.id].written;
      var length := victim.end - victim.off;
      assert length == s.chunks[victim.id].end - s.chunks[victim.id].off;
      OnResize(victim.id, length);
      OnGrant(c.id, c.off, c.end - c.off, c.written);
    }

    method StealChunk(victim: Chunk, w: nat) returns (c: Chunk)
      requires Valid() && Knows(victim)
      modifies this, victim`end
      ensures Valid() && view == M.Steal(old(view), victim.id, w)
      ensures fresh(c) && repr == old(repr) + {c}
      ensures c.id == old(view).nextID && Knows(c)
    {
      ghost var s := view;
      L.StealShape(s, victim.id, w);
      assert nextID !in s.chunks;
      c := SplitLocked(victim);
      HandOut(victim, c, w);
      L.StealIs(s, victim.id, w);
    }

    /** The upper half of the largest active remainder, if that is worth it. */
    method TrySteal(w: nat) returns (c: Chunk?, ghost v: nat, ghost added: set<Chunk>)
      requires Valid()
      modifies this, repr
      ensures Valid() && M.TrySteal(old(view), v, w, view)
      ensures c == null <==> view == old(view)
      ensures c != null ==> c.id == old(view).nextID && Knows(c)
      ensures fresh(added) && repr == old(repr) + added
    {
      c, v, added := null, 0, {};
      var victim := LargestActiveChunk();
      if victim != null {
        v := victim.id;
        if victim.end - (victim.off + victim.done) >= 2 * minSize {
          c := StealChunk(victim, w);
          added := {c};
        }
      }
    }

    method StealOrLeave(w: nat) returns (c: Chunk?, ghost v: nat, ghost r: M.Granted)
      requires Valid() && pending == []
      modifies this, repr
      ensures Valid() && M.FindWork(old(view), w, v, r, view)
      ensures c == null <==> r == M.Nothing
      ensures c != null ==> r == M.Granted(c.id) && Knows(c)
      ensures fresh(repr - old(repr))
    {
      ghost var s := view;
      ghost var added;
      c, v, added := TrySteal(w);
      if c == null {
        r := M.Nothing;
        Deregister(w);
        L.FoundNothing(s, w, v);
      } else {
        r := M.Granted(c.id);
        L.FoundSteal(s, w, v, view);
      }
    }

    method FindWork(w: nat) returns (c: Chunk?, ghost v: nat, ghost r: M.Granted)
      requires Valid()
      modifies this, repr
      ensures Valid() && M.FindWork(old(view), w, v, r, view)
      ensures c == null <==> r == M.Nothing
      ensures c != null ==> r == M.Granted(c.id) && Knows(c)
      ensures fresh(repr - old(repr))
    {
      c, v, r := null, 0, M.Nothing;
      if |pending| > 0 {
        c := pending[0];
        Grant(c, w);
        r := M.Granted(c.id);
        return;
      }
      c, v, r := StealOrLeave(w);
    }

    method Register(w: nat)
      requires Valid()
      modifies this`live, this`view
      ensures Valid() && view == M.Register(old(view), w)
    {
      live := live + {w};
      view := M.Register(view, w);
    }

    /** v is the chunk the steal scan settled on, when it ran. */
    method Next(w: nat) returns (c: Chunk?, ghost v: nat, ghost r: M.Granted)
      requires Valid()
      modifies this, repr
      ensures Valid() && M.Next(old(view), w, v, r, view)
      ensures c == null <==> r == M.Nothing
      ensures c != null ==> r == M.Granted(c.id) && Knows(c)
      ensures fresh(repr - old(repr))
    {
      c, v, r := null, 0, M.Nothing;
      Register(w);
      if w in retiring {
        Deregister(w);
        return;
      }
      var staying := NonRetiringLive();
      if limit > 0 && staying > limit {
        Deregister(w);
        return;
      }
      c, v, r := FindWork(w);
    }

    method Exit(w: nat)
      requires Valid()
      modifies this`live, this`retiring, this`view
      ensures Valid() && view == M.Deregister(old(view), w)
    {
      Deregister(w);
    }

    /** The highest live id that is not retiring, or -1. */
    method HighestStaying() returns (best: int)
      ensures best < 0 ==> live - retiring == {}
      ensures best >= 0 ==> best in live - retiring && forall u :: u in live - retiring ==> u <= best
    {
      best := -1;
      var todo := live;
      while todo != {}
        invariant todo <= live && best >= -1
        invariant best != -1 ==> best in live - retiring
        invariant forall u :: u in live - retiring && u !in todo ==> u <= best
        decreases todo
      {
        var id :| id in todo;
        todo := todo - {id};
        if id !in retiring && id > best {
          best := id;
        }
      }
    }

    method ChooseNext(victims: seq<nat>, ghost staying: set<nat>) returns (more: seq<nat>)
      requires L.Choosing(staying, victims) && |victims| < |staying| && live - retiring == staying - M.SetOf(victims)
      modifies this`retiring
      ensures L.Choosing(staying, more) && |more| == |victims| + 1
      ensures retiring - old(retiring) <= live && old(retiring) <= retiring
      ensures retiring == old(retiring) + (M.SetOf(more) - M.SetOf(victims))
      ensures live - retiring == staying - M.SetOf(more)
    {
      L.SomeoneStays(staying, victims);
      ghost var someone :| someone in staying && someone !in victims;
      assert someone in live - retiring;
      var best := HighestStaying();
      assert best >= 0;
      L.ChooseOne(staying, victims, best);
      more := victims + [best];
      retiring := retiring + {best};
      assert best !in M.SetOf(victims);
      assert live - retiring == (staying - M.SetOf(victims)) - {best};
    }

    /** The retirement choice: highest ids first, exactly the excess. */
    method MarkVictims(excess: nat, ghost staying: set<nat>) returns (victims: seq<nat>)
      requires staying == live - retiring && excess <= |staying|
      modifies this`retiring
      ensures L.Choosing(staying, victims) && |victims| == excess
      ensures retiring == old(retiring) + M.SetOf(victims)
    {
      victims := [];
      while |victims| < excess
        invariant |victims| <= excess && retiring == old(retiring) + M.SetOf(victims)
        invariant L.Choosing(staying, victims)
        invariant live - retiring == staying - M.SetOf(victims)
        decreases excess - |victims|
      {
        victims := ChooseNext(victims, staying);
      }
    }

    /** Moves what c has not claimed to a fresh pending chunk. */
    method CutAway(c: Chunk) returns (ghost moved: Chunk)
      requires Shown() && Knows(c) && nextID !in chunks
      modifies this`nextID, this`pending, this`chunks, this`repr, this`view, c`end
      ensures Shown() && fresh(moved) && chunks == old(chunks)[old(nextID) := moved] && repr == old(repr) + {moved}
      ensures c.end == c.off + c.done && view == M.CutAway(old(view), c.id)
    {
      ghost var s := view;
      assert c.Is(s.chunks[c.id]);
      var rest := CutChunk(c, c.off + c.done);
      assert view.chunks == M.CutAway(s, c.id).chunks;
      AppendPending(rest);
      moved := rest;
    }

    method MoveRemainder(c: Chunk) returns (ghost added: Chunk)
      requires Valid() && Knows(c)
      modifies this`nextID, this`pending, this`chunks, this`repr, this`view, c`end
      ensures Valid() && view == M.Move(old(view), c.id)
      ensures fresh(added) && repr == old(repr) + {added}
    {
      ghost var s := view;
      assert c.Is(s.chunks[c.id]) && nextID !in s.chunks;
      added := CutAway(c);
      var length := c.end - c.off;
      assert length == s.chunks[c.id].done;
      OnResize(c.id, length);
      L.MoveShape(s, c.id);
    }

    method ShrinkIfRetired(c: Chunk) returns (moved: bool, ghost added: set<Chunk>)
      requires Valid() && Knows(c)
      modifies this`nextID, this`pending, this`chunks, this`repr, this`view, c`end
      ensures Valid() && view == if moved then M.Move(old(view), c.id) else old(view)
      ensures moved <==>
        old(view).chunks[c.id].owner in old(view).retiring && !old(view).chunks[c.id].Drained()
      ensures fresh(added) && repr == old(repr) + added
    {
      added := {};
      moved := c.owner in retiring && c.off + c.done < c.end;
      if moved {
        ghost var rest := MoveRemainder(c);
        added := {rest};
      }
    }

    method ShrinkTurn(c: Chunk, ghost s: M.Sched, ghost order: seq<nat>, ghost todo: set<nat>)
      returns (ghost more: seq<nat>, ghost added: set<Chunk>)
      requires Valid() && Knows(c) && c.id in todo && M.Shape(s) && L.Shrinking(s, order, todo, view)
      modifies this`nextID, this`pending, this`chunks, this`repr, this`view, c`end
      ensures Valid() && L.Shrinking(s, more, todo - {c.id}, view)
      ensures fresh(added) && repr == old(repr) + added
    {
      ghost var before := view;
      L.ShrinkStays(s, order, todo, before, c.id);
      var moved;
      moved, added := ShrinkIfRetired(c);
      if moved {
        L.ShrinkMove(s, order, todo, before, c.id);
        more := order + [c.id];
      } else {
        L.ShrinkSkip(s, order, todo, before, c.id);
        more := order;
      }
    }

    /** The shrink loop of demote, over the active chunks in any order. */
    method ShrinkRetired() returns (ghost order: seq<nat>)
      requires Valid()
      modifies this`nextID, this`pending, this`chunks, this`repr, this`view, repr`end
      ensures Valid() && L.Shrinking(old(view), order, {}, view)
      ensures fresh(repr - old(repr))
    {
      ghost var s := view;
      order := [];
      var todo := active.Keys;
      while todo != {}
        invariant Valid() && fresh(repr - old(repr))
        invariant todo <= active.Keys && L.Shrinking(s, order, todo, view)
        decreases todo
      {
        var id :| id in todo;
        ghost var added;
        order, added := ShrinkTurn(active[id], s, order, todo);
        todo := todo - {id};
      }
    }

    method LowerLimit(keepWanted: int) returns (keep: nat)
      requires Valid()
      modifies this`limit, this`view
      ensures Valid() && keep == M.AtLeastOne(keepWanted)
      ensures view == old(view).(limit := M.Lowered(old(view).limit, keepWanted))
    {
      keep := if keepWanted < 1 then 1 else keepWanted;
      if limit == 0 || keep < limit {
        limit := keep;
      }
      view := view.(limit := limit);
    }

    method RetireExcess(excess: nat) returns (victims: seq<nat>, ghost order: seq<nat>)
      requires Valid() && 0 < excess <= |M.NonRetiring(view)|
      modifies this, repr
      ensures Valid() && L.Choosing(M.NonRetiring(old(view)), victims) && |victims| == excess
      ensures L.Shrinking(old(view).(retiring := old(view).retiring + M.SetOf(victims)), order, {}, view)
      ensures fresh(repr - old(repr))
    {
      victims := MarkVictims(excess, M.NonRetiring(view));
      L.MarkShape(view, victims);
      view := view.(retiring := view.retiring + M.SetOf(victims));
      order := ShrinkRetired();
    }

    /** Returns the victims; `order` is the order their chunks were shrunk in. */
    method Demote(keepWanted: int) returns (victims: seq<nat>, ghost order: seq<nat>)
      requires Valid()
      modifies this, repr
      ensures Valid() && M.Demote(old(view), keepWanted, victims, order, view)
      ensures fresh(repr - old(repr))
    {
      ghost var s := view;
      victims, order := [], [];
      var keep := LowerLimit(keepWanted);
      var staying: int := NonRetiringLive();
      var excess := staying - keep;
      if excess <= 0 {
        L.NoVictims(s, keepWanted);
        return;
      }
      victims, order := RetireExcess(excess);
      L.DemoteDone(s, keepWanted, victims, order, view);
    }

    /** Reserves up to n bytes of c: where to write, how many, and whether the
        chunk is finished. */
    method Claim(c: Chunk, n: nat) returns (offset: int, write: int, stop: bool)
      requires Valid() && Knows(c)
      modifies this`view, c`done
      ensures Valid() && view == M.Claim(old(view), c.id, n)
      ensures offset == old(view).chunks[c.id].Cursor()
      ensures write == M.ClaimSize(old(view).chunks[c.id], n)
      ensures stop == view.chunks[c.id].Drained()
    {
      ghost var k := view.chunks[c.id];
      assert c.Is(k);
      offset := c.off + c.done;
      var remaining := c.end - offset;
      write := if n < remaining then n else remaining;
      AdvanceCursor(c, n, write);
      stop := c.off + c.done >= c.end;
    }

    method AdvanceCursor(c: Chunk, ghost n: int, write: int)
      requires Valid() && Knows(c) && write == M.ClaimSize(view.chunks[c.id], n)
      modifies this`view, c`done
      ensures Valid() && view == M.Claim(old(view), c.id, n) && c.done == old(c.done) + write
    {
      L.ClaimShape(view, c.id, n);
      c.done := c.done + write;
      view := M.Claim(view, c.id, n);
    }

    /** written.Add, by the chunk's owner. */
    method CreditWritten(c: Chunk, n: nat)
      requires Valid() && Knows(c)
      modifies this`view, c`written
      ensures Valid() && view == M.Credit(old(view), c.id, n)
    {
      c.written := c.written + n;
      view := M.Credit(view, c.id, n);
    }

    method Cursor(c: Chunk) returns (off: int, end: int, todo: bool)
      requires Valid() && Knows(c)
      ensures off == view.chunks[c.id].Cursor() && end == view.chunks[c.id].end
      ensures todo == !view.chunks[c.id].Drained()
    {
      off := c.off + c.done;
      end := c.end;
      todo := off < end;
    }

    method DropActive(id: nat)
      requires Valid() && id in view.active
      modifies this`active, this`chunks, this`view
      ensures Valid() && view == M.Complete(old(view), id)
    {
      L.CompleteShape(view, id);
      active := active - {id};
      chunks := chunks - {id};
      view := M.Complete(view, id);
    }

    /** Nothing happens to a chunk that is not active. */
    method Complete(c: Chunk)
      requires Valid()
      modifies this`active, this`chunks, this`view
      ensures Valid()
      ensures view == if c.id in old(view).active then M.Complete(old(view), c.id) else old(view)
    {
      if c.id in active {
        DropActive(c.id);
      }
    }

    method PendingBytes() returns (n: int)
      requires Valid()
      ensures n == S.SumOver(view.chunks, M.SetOf(view.pending), view.nextID)
    {
      n := 0;
      S.SumOverNone(view.chunks, view.nextID);
      assert M.SetOf(view.pending[..0]) == {};
      for i := 0 to |pending|
        invariant n == S.SumOver(view.chunks, M.SetOf(view.pending[..i]), view.nextID)
      {
        var c := pending[i];
        ghost var id := view.pending[i];
        assert id in view.chunks;
        assert M.SetOf(view.pending[..i + 1]) == M.SetOf(view.pending[..i]) + {id};
        S.SumOverAdd(view.chunks, M.SetOf(view.pending[..i]), id, view.nextID);
        n := n + (c.end - (c.off + c.done));
      }
      assert view.pending[..|pending|] == view.pending;
    }

    method RemainingBytes() returns (n: int)
      requires Valid()
      ensures n == S.RemainingSum(view.chunks, view.nextID)
    {
      n := PendingBytes();
      ghost var seen := M.SetOf(view.pending);
      var todo := active.Keys;
      while todo != {}
        invariant todo <= view.active
        invariant seen == M.SetOf(view.pending) + (view.active - todo)
        invariant n == S.SumOver(view.chunks, seen, view.nextID)
        decreases todo
      {
        var id :| id in todo;
        var c := active[id];
        S.SumOverAdd(view.chunks, seen, id, view.nextID);
        n := n + (c.end - (c.off + c.done));
        todo := todo - {id};
        seen := seen + {id};
      }
      S.SumOverAll(view.chunks, seen, view.nextID);
    }

    method Idle() returns (idle: bool)
      requires Valid()
      ensures idle <==> view.chunks == map[]
    {
      idle := |pending| == 0 && active == map[];
      if !idle && |pending| > 0 { assert view.pending[0] in view.chunks; }
      if view.chunks != map[] { ghost var id :| id in view.chunks; assert id in view.pending || id in view.active; }
    }

    method Snapshot() returns (out: seq<C.ChunkState>, ghost order: seq<nat>)
      requires Valid()
      ensures N.IsSnapshot(view, order, out)
      ensures forall id :: id in view.chunks ==> N.StateOf(view, id) in out
    {
      out, order := [], [];
      for i := 0 to |pending|
        invariant |out| == i && order == view.pending[..i]
        invariant forall k {:trigger out[k]} :: 0 <= k < i ==> order[k] in view.chunks && out[k] == N.StateOf(view, order[k])
      {
        var c := pending[i];
        assert view.pending[i] in view.chunks;
        out := out + [C.ChunkState(c.off, c.end, c.written)];
        order := order + [view.pending[i]];
      }
      assert order == view.pending;
      var todo := active.Keys;
      while todo != {}
        invariant todo <= view.active && |out| == |order| && M.NoDup(order)
        invariant forall id :: id in order <==> id in view.pending || (id in view.active && id !in todo)
        invariant forall k {:trigger out[k]} :: 0 <= k < |out| ==> order[k] in view.chunks && out[k] == N.StateOf(view, order[k])
        decreases todo
      {
        var id :| id in todo;
        todo := todo - {id};
        var c := active[id];
        var length := c.end - c.off;
        out := out + [C.ChunkState(c.off, c.end, if c.written < length then c.written else length)];
        order := order + [id];
      }
      forall id | id in view.chunks ensures N.StateOf(view, id) in out {
        assert id in order;
        ghost var i :| 0 <= i < |order| && order[i] == id;
        assert out[i] == N.StateOf(view, id);
      }
    }
  }
}
