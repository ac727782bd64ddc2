/** Counting work: the bytes left to claim, and the splits they still allow. */
module ChunkSums {
  import opened Intervals
  import opened SchedulerModel
  import opened SchedulerLaws

  // ---- remaining bytes ----

  /** The sum remainingBytes computes, in id order. */
  function RemainingSum(m: Chunks, n: nat): int {
    if n == 0 then 0 else RemainingSum(m, n - 1) + if n - 1 in m then m[n - 1].Remaining() else 0
  }

  ghost function UnclaimedBelow(m: Chunks, n: nat): set<int> {
    if n == 0 then {}
    else UnclaimedBelow(m, n - 1) + if n - 1 in m then Interval(m[n - 1].Cursor(), m[n - 1].end) else {}
  }

  lemma {:induction false} UnclaimedBelowIs(m: Chunks, n: nat, b: int)
    ensures b in UnclaimedBelow(m, n) <==> exists id :: id in m && id < n && m[id].off + m[id].done <= b < m[id].end
  {
    if n > 0 {
      UnclaimedBelowIs(m, n - 1, b);
      if b in UnclaimedBelow(m, n) {
        if b in UnclaimedBelow(m, n - 1) {
          var id :| id in m && id < n - 1 && m[id].off + m[id].done <= b < m[id].end;
        } else {
          assert n - 1 in m;
        }
      }
    }
  }

  lemma {:induction false} NotBelow(m: Chunks, n: nat, k: nat, b: int, total: int)
    requires ChunksOk(m, total) && n <= k && k in m && m[k].off <= b < m[k].end
    ensures b !in UnclaimedBelow(m, n)
  {
    if n > 0 {
      NotBelow(m, n - 1, k, b, total);
      if n - 1 in m { assert Apart(m[n - 1], m[k]) && ChunkOk(m[n - 1], total); }
    }
  }

  lemma BelowDisjoint(m: Chunks, k: nat, total: int)
    requires ChunksOk(m, total) && k in m
    ensures UnclaimedBelow(m, k) !! Interval(m[k].Cursor(), m[k].end)
  {
    assert ChunkOk(m[k], total);
    forall b | b in Interval(m[k].Cursor(), m[k].end) ensures b !in UnclaimedBelow(m, k) {
      NotBelow(m, k, k, b, total);
    }
  }

  lemma {:induction false} BelowInside(m: Chunks, n: nat, total: int)
    requires ChunksOk(m, total)
    ensures UnclaimedBelow(m, n) <= Interval(0, total)
  {
    if n > 0 {
      BelowInside(m, n - 1, total);
      if n - 1 in m { assert ChunkOk(m[n - 1], total); }
    }
  }

  /** The sum counts bytes: nothing is counted twice. */
  lemma {:induction false} RemainingIsCount(m: Chunks, n: nat, total: int)
    requires ChunksOk(m, total)
    ensures |UnclaimedBelow(m, n)| == RemainingSum(m, n)
  {
    if n > 0 {
      RemainingIsCount(m, n - 1, total);
      if n - 1 in m {
        BelowDisjoint(m, n - 1, total);
        TailSize(m[n - 1], total) by { assert ChunkOk(m[n - 1], total); }
        DisjointSize(UnclaimedBelow(m, n - 1), Interval(m[n - 1].Cursor(), m[n - 1].end));
      }
    }
  }

  lemma TailSize(c: Chunk, total: int)
    requires ChunkOk(c, total)
    ensures |Interval(c.Cursor(), c.end)| == c.Remaining()
  {
    IntervalSize(c.Cursor(), c.end);
  }

  /** Two chunk maps that offer the same bytes have the same sum: splitting,
      stealing and demoting conserve what is left to do, exactly. */
  lemma SameUnclaimedSameSum(s: Sched, s': Sched, total: int)
    requires Valid(s, total) && Valid(s', total) && SameUnclaimed(s.chunks, s'.chunks)
    ensures RemainingSum(s.chunks, s.nextID) == RemainingSum(s'.chunks, s'.nextID)
  {
    RemainingIsCount(s.chunks, s.nextID, total);
    RemainingIsCount(s'.chunks, s'.nextID, total);
    forall b ensures b in UnclaimedBelow(s.chunks, s.nextID) <==> b in UnclaimedBelow(s'.chunks, s'.nextID) {
      AllBelow(s, b);
      AllBelow(s', b);
    }
    assert UnclaimedBelow(s.chunks, s.nextID) == UnclaimedBelow(s'.chunks, s'.nextID);
  }

  lemma AllBelow(s: Sched, b: int)
    requires Shape(s)
    ensures b in UnclaimedBelow(s.chunks, s.nextID) <==> Unclaimed(s.chunks, b)
  {
    UnclaimedBelowIs(s.chunks, s.nextID, b);
    if Unclaimed(s.chunks, b) {
      var id :| id in s.chunks && s.chunks[id].off + s.chunks[id].done <= b < s.chunks[id].end;
      assert id < s.nextID;
    }
  }

  // ---- the sum in any order ----

  /** The part of the sum that falls to the ids in `ids`. */
  function SumOver(m: Chunks, ids: set<nat>, n: nat): int {
    if n == 0 then 0
    else SumOver(m, ids, n - 1) + if n - 1 in m && n - 1 in ids then m[n - 1].Remaining() else 0
  }

  lemma {:induction false} SumOverNone(m: Chunks, n: nat)
    ensures SumOver(m, {}, n) == 0
  {
    if n > 0 { SumOverNone(m, n - 1); }
  }

  lemma {:induction false} SumOverAdd(m: Chunks, ids: set<nat>, id: nat, n: nat)
    requires id in m && id !in ids
    ensures SumOver(m, ids + {id}, n) == SumOver(m, ids, n) + if id < n then m[id].Remaining() else 0
  {
    if n > 0 { SumOverAdd(m, ids, id, n - 1); }
  }

  lemma {:induction false} SumOverAll(m: Chunks, ids: set<nat>, n: nat)
    requires forall id :: id in m ==> id in ids
    ensures SumOver(m, ids, n) == RemainingSum(m, n)
  {
    if n > 0 { SumOverAll(m, ids, n - 1); }
  }

  /** demote moves work, it never makes or loses any. */
  lemma DemoteConserves(s: Sched, keep: int, vs: seq<nat>, order: seq<nat>, s': Sched, total: int)
    requires Valid(s, total) && Demote(s, keep, vs, order, s')
    ensures RemainingSum(s'.chunks, s'.nextID) == RemainingSum(s.chunks, s.nextID)
  {
    DemoteKeeps(s, keep, vs, order, s', total);
    SameUnclaimedSameSum(s, s', total);
  }

  /** next moves work too. */
  lemma NextConserves(s: Sched, w: nat, v: nat, r: Granted, s': Sched, total: int)
    requires Valid(s, total) && Next(s, w, v, r, s')
    ensures RemainingSum(s'.chunks, s'.nextID) == RemainingSum(s.chunks, s.nextID)
  {
    NextKeeps(s, w, v, r, s', total);
    SameUnclaimedSameSum(s, s', total);
  }

  // ---- the splits a chunk still allows ----

  function Spare(c: Chunk, minSize: int): int
    requires minSize >= 1
  {
    if c.Remaining() < minSize then 0 else c.Remaining() / minSize - 1
  }

  function Budget(m: Chunks, minSize: int, n: nat): int
    requires minSize >= 1
  {
    if n == 0 then 0 else Budget(m, minSize, n - 1) + if n - 1 in m then Spare(m[n - 1], minSize) else 0
  }

  lemma FactorBelowOne(m: int, d: int)
    requires m >= 1 && m * d < m
    ensures d < 1
  {
    assert m * (d - 1) < 0;
  }

  lemma QuotientBound(q: int, x: int, m: int)
    requires m >= 1 && m * q <= x
    ensures q <= x / m
  {
    assert x == m * (x / m) + x % m;
    assert m * (q - x / m) == m * q - m * (x / m);
    FactorBelowOne(m, q - x / m);
  }

  lemma SumOfQuotients(a: int, b: int, m: int)
    requires m >= 1 && a >= 0 && b >= 0
    ensures a / m + b / m <= (a + b) / m
  {
    assert m * (a / m) <= a;
    assert m * (b / m) <= b;
    assert m * (a / m + b / m) == m * (a / m) + m * (b / m);
    QuotientBound(a / m + b / m, a + b, m);
  }

  lemma SpareFits(c: Chunk, m: int)
    requires m >= 1
    ensures 0 <= Spare(c, m)
    ensures c.Remaining() >= 0 ==> m * Spare(c, m) <= c.Remaining()
  {
    if c.Remaining() >= m {
      QuotientBound(1, c.Remaining(), m);
      assert m * (c.Remaining() / m) <= c.Remaining();
      assert m * (c.Remaining() / m - 1) == m * (c.Remaining() / m) - m;
    }
  }

  /** Halving a chunk uses up at least one of the splits it allowed. */
  lemma HalvingSpends(c: Chunk, m: int)
    requires m >= 1 && c.Remaining() >= 2 * m
    ensures Spare(c.(end := Middle(c)), m) + Spare(Chunk(Middle(c), c.end, 0, 0, 0), m) <= Spare(c, m) - 1
  {
    var r := c.Remaining();
    QuotientBound(1, r / 2, m);
    QuotientBound(1, r - r / 2, m);
    SumOfQuotients(r / 2, r - r / 2, m);
  }

  lemma {:induction false} BudgetMonotone(m: Chunks, m': Chunks, minSize: int, n: nat)
    requires minSize >= 1
    requires forall i :: i in m' && i < n ==> i in m && m'[i].Remaining() <= m[i].Remaining()
    ensures Budget(m', minSize, n) <= Budget(m, minSize, n)
  {
    if n > 0 {
      BudgetMonotone(m, m', minSize, n - 1);
      if n - 1 in m {
        SpareFits(m[n - 1], minSize);
        if n - 1 in m' { SpareMonotone(m'[n - 1], m[n - 1], minSize); }
      }
    }
  }

  lemma SpareMonotone(c: Chunk, d: Chunk, m: int)
    requires m >= 1 && c.Remaining() <= d.Remaining()
    ensures Spare(c, m) <= Spare(d, m)
  {
    if c.Remaining() >= m {
      assert m * (c.Remaining() / m) <= c.Remaining();
      QuotientBound(c.Remaining() / m, d.Remaining(), m);
    } else {
      SpareFits(d, m);
    }
  }

  lemma {:induction false} BudgetUpdate(m: Chunks, v: nat, c: Chunk, minSize: int, n: nat)
    requires minSize >= 1 && v in m
    ensures Budget(m[v := c], minSize, n) ==
      Budget(m, minSize, n) + if v < n then Spare(c, minSize) - Spare(m[v], minSize) else 0
  {
    if n > 0 { BudgetUpdate(m, v, c, minSize, n - 1); }
  }

  lemma {:induction false} BudgetIgnores(m: Chunks, v: nat, c: Chunk, minSize: int, n: nat)
    requires minSize >= 1 && v >= n
    ensures Budget(m[v := c], minSize, n) == Budget(m, minSize, n)
  {
    if n > 0 { BudgetIgnores(m, v, c, minSize, n - 1); }
  }

  lemma CutBudget(m: Chunks, v: nat, at: int, n: nat, minSize: int)
    requires minSize >= 1 && v in m && v < n && n !in m
    ensures Budget(Cut(m, v, at, n), minSize, n + 1) ==
      Budget(m, minSize, n) - Spare(m[v], minSize)
        + Spare(m[v].(end := at), minSize) + Spare(Chunk(at, m[v].end, 0, 0, 0), minSize)
  {
    var lower := m[v := m[v].(end := at)];
    BudgetUpdate(m, v, m[v].(end := at), minSize, n);
    BudgetIgnores(lower, n, Chunk(at, m[v].end, 0, 0, 0), minSize, n);
  }

  function SchedBudget(s: Sched): int
    requires s.minSize >= 1
  {
    Budget(s.chunks, s.minSize, s.nextID)
  }

  /** Both halves of a steal are worth a request of their own. */
  lemma HalvesAreWorthwhile(s: Sched, v: nat, w: nat)
    requires Shape(s) && v in s.chunks && s.chunks[v].Remaining() >= 2 * s.minSize
    ensures var m := Steal(s, v, w).chunks;
      && s.nextID in m && v in m
      && m[v].Remaining() >= s.minSize && m[s.nextID].Remaining() >= s.minSize
      && m[v].Remaining() + m[s.nextID].Remaining() == s.chunks[v].Remaining()
  {
    assert s.nextID != v;
  }

  lemma StealSpends(s: Sched, v: nat, w: nat)
    requires Shape(s) && v in s.chunks && s.chunks[v].Remaining() >= 2 * s.minSize
    ensures SchedBudget(Steal(s, v, w)) <= SchedBudget(s) - 1
  {
    var c := s.chunks[v];
    var m := Cut(s.chunks, v, Middle(c), s.nextID);
    HalvingSpends(c, s.minSize);
    CutBudget(s.chunks, v, Middle(c), s.nextID, s.minSize);
    BudgetUpdate(m, s.nextID, m[s.nextID].(owner := w), s.minSize, s.nextID + 1);
  }

  /** Pre-splitting for eager workers draws on the same budget. */
  lemma SplitPendingSpends(s: Sched, v: nat)
    requires Shape(s) && v in s.chunks && s.chunks[v].Remaining() >= 2 * s.minSize
    ensures SchedBudget(SplitPending(s, v)) <= SchedBudget(s) - 1
  {
    HalvingSpends(s.chunks[v], s.minSize);
    CutBudget(s.chunks, v, Middle(s.chunks[v]), s.nextID, s.minSize);
  }

  lemma MoveBudget(s: Sched, v: nat)
    requires Shape(s) && v in s.chunks
    ensures SchedBudget(Move(s, v)) == SchedBudget(s)
  {
    CutBudget(s.chunks, v, s.chunks[v].Cursor(), s.nextID, s.minSize);
  }

  lemma {:induction false} MoveAllBudget(s: Sched, order: seq<nat>, s': Sched, total: int)
    requires Valid(s, total) && NoDup(order) && AllMovable(s, order) && MoveAll(s, order, s')
    ensures s'.minSize == s.minSize && SchedBudget(s') == SchedBudget(s)
    decreases |order|
  {
    if order != [] {
      MoveKeeps(s, order[0], total);
      MoveBudget(s, order[0]);
      var t := Move(s, order[0]);
      var rest := order[1..];
      forall i | 0 <= i < |rest|
        ensures rest[i] in t.active && rest[i] in t.chunks && !t.chunks[rest[i]].Drained()
      {
        assert rest[i] == order[i + 1] && rest[i] != order[0];
      }
      MoveAllBudget(t, rest, s', total);
    }
  }

  lemma {:induction false} BudgetInBytes(m: Chunks, minSize: int, n: nat, total: int)
    requires minSize >= 1 && ChunksOk(m, total)
    ensures 0 <= Budget(m, minSize, n) && minSize * Budget(m, minSize, n) <= RemainingSum(m, n)
  {
    if n > 0 {
      BudgetInBytes(m, minSize, n - 1, total);
      if n - 1 in m {
        assert ChunkOk(m[n - 1], total);
        SpareFits(m[n - 1], minSize);
        assert minSize * (Budget(m, minSize, n - 1) + Spare(m[n - 1], minSize)) ==
          minSize * Budget(m, minSize, n - 1) + minSize * Spare(m[n - 1], minSize);
      }
    }
  }
}
