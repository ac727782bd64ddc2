/** Evidence against slow addresses: what a sampling window may be used for,
    and what one window does to an address's record. Rates are exact reals, in
    bytes per nanosecond and connection. */
module Culling {
  import opened Intervals
  import opened Wrappers
  import opened Placement

  const WARMUP_BYTES := 8388608
  const CULL_COOLDOWN := 30_000_000_000

  datatype WorkerSample = WorkerSample(addr: Addr, generation: nat, bytes: nat, tail: bool)

  datatype Snapshot = Snapshot(at: int, membershipGen: nat, workers: map<nat, WorkerSample>)

  datatype NodeRate = NodeRate(bytes: int, conns: int, tailsOnly: bool) {
    /** Over a window of `elapsed` nanoseconds. */
    function PerConn(elapsed: int): real
      requires elapsed > 0
    {
      bytes as real / elapsed as real / (if conns < 1 then 1 else conns) as real
    }
  }

  type Rates = map<Addr, NodeRate>

  /** The number behind a rate: bytes over time and connections. */
  lemma PerConnIs(r: NodeRate, elapsed: int)
    requires elapsed > 0
    ensures r.PerConn(elapsed) * (elapsed as real * (if r.conns < 1 then 1 else r.conns) as real) == r.bytes as real
  {
    var n := (if r.conns < 1 then 1 else r.conns) as real;
    var q := r.bytes as real / elapsed as real;
    assert q * elapsed as real == r.bytes as real;
    assert q / n * n == q;
    Reorder(q / n, n, elapsed as real);
  }

  lemma Reorder(x: real, y: real, z: real)
    ensures x * (z * y) == x * y * z
  {
  }

  predicate SameConnection(s: WorkerSample, e: WorkerSample) {
    e.addr != NO_ADDR && e.addr == s.addr && e.generation == s.generation && e.bytes >= s.bytes
  }

  /** Nobody joined, left or changed connection between the two samples. */
  predicate Stable(start: Snapshot, end: Snapshot) {
    && start.membershipGen == end.membershipGen && |start.workers| == |end.workers|
    && end.at > start.at
    && SameConnections(start, end, end.workers.Keys)
  }

  /** So a stable window shows the same workers at both ends, each on one
      connection that only gained bytes. */
  lemma StableIs(start: Snapshot, end: Snapshot)
    ensures Stable(start, end) <==>
      && start.membershipGen == end.membershipGen && start.workers.Keys == end.workers.Keys && end.at > start.at
      && forall id :: id in end.workers && id in start.workers ==>
           var s, e := start.workers[id], end.workers[id];
           e.addr == s.addr != NO_ADDR && e.generation == s.generation && e.bytes >= s.bytes
  {
    if Stable(start, end) {
      forall id | id in start.workers ensures id in end.workers {
        if id !in end.workers { SubsetSize(end.workers.Keys, start.workers.Keys - {id}); }
      }
    }
    if start.workers.Keys == end.workers.Keys {
      assert |start.workers| == |start.workers.Keys| == |end.workers.Keys| == |end.workers|;
    }
  }

  // ---- sums over workers ----

  function SumTo(m: map<nat, int>, n: nat): int {
    if n == 0 then 0 else SumTo(m, n - 1) + if n - 1 in m then m[n - 1] else 0
  }

  lemma {:induction false} SumAdd(m: map<nat, int>, k: nat, v: int, n: nat)
    requires k !in m
    ensures SumTo(m[k := v], n) == SumTo(m, n) + if k < n then v else 0
  {
    if n > 0 { SumAdd(m, k, v, n - 1); }
  }

  lemma {:induction false} SumEmpty(n: nat)
    ensures SumTo(map[], n) == 0
  {
    if n > 0 { SumEmpty(n - 1); }
  }

  /** What each of `ids` on address a received during the window. */
  function Received(start: Snapshot, end: Snapshot, ids: set<nat>, a: Addr): map<nat, int>
    requires forall id :: id in ids ==> id in start.workers && id in end.workers
  {
    map id | id in ids && end.workers[id].addr == a :: end.workers[id].bytes - start.workers[id].bytes
  }

  function Sampled(end: Snapshot, ids: set<nat>, a: Addr): set<nat> {
    set id | id in ids && id in end.workers && end.workers[id].addr == a
  }

  /** rates describe exactly the workers ids: for each address in use the bytes
      its workers received, how many there are, and whether all drain a tail. */
  ghost predicate Describes(start: Snapshot, end: Snapshot, ids: set<nat>, rates: Rates, n: nat)
    requires forall id :: id in ids ==> id in start.workers && id in end.workers
  {
    && (forall id :: id in ids ==> end.workers[id].addr in rates)
    && (forall a :: a in rates ==> a != NO_ADDR && DescribesOne(start, end, ids, a, rates[a], n))
  }

  ghost predicate DescribesOne(start: Snapshot, end: Snapshot, ids: set<nat>, a: Addr, r: NodeRate, n: nat)
    requires forall id :: id in ids ==> id in start.workers && id in end.workers
  {
    && r.conns == |Sampled(end, ids, a)| && r.conns >= 1
    && r.bytes == SumTo(Received(start, end, ids, a), n) && r.bytes >= 0
    && (r.tailsOnly <==> forall id :: id in Sampled(end, ids, a) ==> end.workers[id].tail)
  }

  function Added(rates: Rates, s: WorkerSample, e: WorkerSample): Rates {
    var r := if e.addr in rates then rates[e.addr] else NodeRate(0, 0, true);
    rates[e.addr := NodeRate(r.bytes + (e.bytes - s.bytes), r.conns + 1, r.tailsOnly && e.tail)]
  }

  lemma AddSame(start: Snapshot, end: Snapshot, ids: set<nat>, r: NodeRate, id: nat, n: nat)
    requires forall i :: i in ids ==> i in start.workers && i in end.workers
    requires id !in ids && id in start.workers && id in end.workers && id < n
    requires SameConnection(start.workers[id], end.workers[id])
    requires DescribesOne(start, end, ids, end.workers[id].addr, r, n) ||
             (r == NodeRate(0, 0, true) && Sampled(end, ids, end.workers[id].addr) == {})
    ensures var e, s := end.workers[id], start.workers[id];
      DescribesOne(start, end, ids + {id}, e.addr, NodeRate(r.bytes + (e.bytes - s.bytes), r.conns + 1, r.tailsOnly && e.tail), n)
  {
    var e, s := end.workers[id], start.workers[id];
    var before := Received(start, end, ids, e.addr);
    if Sampled(end, ids, e.addr) == {} {
      assert forall i :: i in before ==> i in Sampled(end, ids, e.addr);
      assert before == map[];
      SumEmpty(n);
    }
    assert Received(start, end, ids + {id}, e.addr) == before[id := e.bytes - s.bytes];
    SumAdd(before, id, e.bytes - s.bytes, n);
    assert Sampled(end, ids + {id}, e.addr) == Sampled(end, ids, e.addr) + {id};
    assert id !in Sampled(end, ids, e.addr);
  }

  lemma AddOther(start: Snapshot, end: Snapshot, ids: set<nat>, a: Addr, r: NodeRate, id: nat, n: nat)
    requires forall i :: i in ids ==> i in start.workers && i in end.workers
    requires id in start.workers && id in end.workers && end.workers[id].addr != a
    requires DescribesOne(start, end, ids, a, r, n)
    ensures DescribesOne(start, end, ids + {id}, a, r, n)
  {
    assert Received(start, end, ids + {id}, a) == Received(start, end, ids, a);
    assert Sampled(end, ids + {id}, a) == Sampled(end, ids, a);
  }

  lemma AddDescribes(start: Snapshot, end: Snapshot, ids: set<nat>, rates: Rates, id: nat, n: nat)
    requires forall i :: i in ids ==> i in start.workers && i in end.workers
    requires id !in ids && id in start.workers && id in end.workers && id < n
    requires SameConnection(start.workers[id], end.workers[id]) && Describes(start, end, ids, rates, n)
    ensures Describes(start, end, ids + {id}, Added(rates, start.workers[id], end.workers[id]), n)
  {
    var e, s := end.workers[id], start.workers[id];
    var r := if e.addr in rates then rates[e.addr] else NodeRate(0, 0, true);
    if e.addr !in rates { assert Sampled(end, ids, e.addr) == {}; }
    AddSame(start, end, ids, r, id, n);
    forall a | a in rates && a != e.addr ensures DescribesOne(start, end, ids + {id}, a, rates[a], n) {
      AddOther(start, end, ids, a, rates[a], id, n);
    }
  }

  ghost function Above(ids: set<nat>): (n: nat)
    ensures forall id :: id in ids ==> id < n
  {
    if ids == {} then 0
    else
      var x :| x in ids;
      var n := Above(ids - {x});
      assert forall id :: id in ids ==> id == x || id in ids - {x};
      if x < n then n else x + 1
  }

  predicate SameConnections(start: Snapshot, end: Snapshot, ids: set<nat>) {
    forall id :: id in ids ==> id in start.workers && id in end.workers && SameConnection(start.workers[id], end.workers[id])
  }

  /** The accumulating loop of nodeRates. */
  method Accumulate(start: Snapshot, end: Snapshot) returns (rates: Rates, ok: bool)
    ensures ok <==> SameConnections(start, end, end.workers.Keys)
    ensures ok ==> Describes(start, end, end.workers.Keys, rates, Above(end.workers.Keys))
  {
    rates, ok := map[], false;
    ghost var n := Above(end.workers.Keys);
    ghost var seen: set<nat> := {};
    var todo := end.workers.Keys;
    while todo != {}
      invariant seen !! todo && seen + todo == end.workers.Keys
      invariant SameConnections(start, end, seen)
      invariant Describes(start, end, seen, rates, n)
      decreases todo
    {
      var id :| id in todo;
      if id !in start.workers || !SameConnection(start.workers[id], end.workers[id]) {
        return;
      }
      AddDescribes(start, end, seen, rates, id, n);
      rates := Added(rates, start.workers[id], end.workers[id]);
      seen, todo := seen + {id}, todo - {id};
    }
    ok := true;
  }

  /** nodeRates: accepts a window exactly when it is stable, and then accounts
      for every sampled worker once. */
  method NodeRates(start: Snapshot, end: Snapshot) returns (rates: Rates, ok: bool)
    ensures ok <==> Stable(start, end)
    ensures ok ==> Describes(start, end, end.workers.Keys, rates, Above(end.workers.Keys))
  {
    rates, ok := map[], false;
    if start.membershipGen != end.membershipGen || |start.workers| != |end.workers| {
      return;
    }
    if end.at - start.at <= 0 {
      return;
    }
    rates, ok := Accumulate(start, end);
  }

  // ---- the best address of a window ----

  /** Enough bytes to be compared with. */
  predicate Warm(rates: Rates, a: Addr) { a in rates && rates[a].bytes >= WARMUP_BYTES }

  /** The fastest address with warm-up evidence, if it is moving at all. */
  ghost predicate IsBest(rates: Rates, elapsed: int, a: Addr)
    requires elapsed > 0
  {
    && Warm(rates, a) && rates[a].PerConn(elapsed) > 0.0
    && forall b :: Warm(rates, b) ==> rates[b].PerConn(elapsed) <= rates[a].PerConn(elapsed)
  }

  method BestWindowRate(rates: Rates, elapsed: int) returns (best: Option<Addr>)
    requires elapsed > 0
    ensures best.Some? ==> IsBest(rates, elapsed, best.value)
    ensures best.None? ==> forall a :: Warm(rates, a) ==> rates[a].PerConn(elapsed) <= 0.0
  {
    best := None;
    var todo := rates.Keys;
    while todo != {}
      invariant todo <= rates.Keys
      invariant best.None? ==> forall a :: Warm(rates, a) ==> a in todo
      invariant best.Some? ==> Warm(rates, best.value)
      invariant best.Some? ==>
        forall a :: Warm(rates, a) && a !in todo ==> rates[a].PerConn(elapsed) <= rates[best.value].PerConn(elapsed)
      decreases todo
    {
      var a :| a in todo;
      todo := todo - {a};
      if rates[a].bytes >= WARMUP_BYTES
         && (best.None? || rates[a].PerConn(elapsed) > rates[best.value].PerConn(elapsed)) {
        best := Some(a);
      }
    }
    if best.Some? && rates[best.value].PerConn(elapsed) <= 0.0 {
      best := None;
    }
  }

  // ---- one address's record ----

  /** At least a quarter of the best rate. */
  predicate Healthy(rate: real, best: real) { rate >= best * 0.25 }

  /** judgeLocked: the record after a window, and whether it now has enough
      slow windows to be culled. */
  function Judge(n: Node, healthy: bool, tailsOnly: bool): (Node, bool) {
    if n.Probing() && healthy then
      if n.healthySample + 1 >= CULL_EVALUATIONS
      then (n.(belowSample := 0, slowStrikes := 0, healthySample := 0), false)
      else (n.(belowSample := 0, healthySample := n.healthySample + 1), false)
    else
      var m := if n.Probing() then n.(healthySample := 0) else n;
      if healthy || tailsOnly then (m.(belowSample := 0), false)
      else (m.(belowSample := m.belowSample + 1), m.belowSample + 1 >= CULL_EVALUATIONS)
  }

  /** What one window means for an address's record, in numbers. A window is slow
      at less than a quarter of the best rate, unless the address only drains
      tails. Slow windows add up until one is not; healthy ones add up while the
      address is on probation, and the second restores it. */
  predicate RecordFollows(n: Node, rate: real, best: real, tailsOnly: bool, n': Node, condemned: bool) {
    var slow := 4.0 * rate < best && !tailsOnly;
    var probation := n.slowStrikes > 0 && n.conns > 0;
    && n'.belowSample == (if slow then n.belowSample + 1 else 0)
    && (condemned <==> slow && n.belowSample >= 1)
    && n'.healthySample == (if !probation then n.healthySample
                            else if 4.0 * rate >= best && n.healthySample == 0 then 1 else 0)
    && n'.slowStrikes == (if probation && 4.0 * rate >= best && n.healthySample >= 1 then 0 else n.slowStrikes)
    && n' == n.(belowSample := n'.belowSample, healthySample := n'.healthySample, slowStrikes := n'.slowStrikes)
  }

  lemma JudgeFollows(n: Node, rate: real, best: real, tailsOnly: bool)
    ensures var (n', slow) := Judge(n, Healthy(rate, best), tailsOnly); RecordFollows(n, rate, best, tailsOnly, n', slow)
  {
  }

  /** a was judged slow often enough, against best. */
  predicate Condemned(pool: Pool, rates: Rates, elapsed: int, best: Addr, a: Addr)
    requires elapsed > 0 && best in rates
  {
    && a in pool && a in rates && a != best
    && Judge(pool[a], Healthy(rates[a].PerConn(elapsed), rates[best].PerConn(elapsed)), rates[a].tailsOnly).1
  }

  /** The records after judging the addresses in `seen`. */
  function Judged(pool: Pool, rates: Rates, elapsed: int, best: Addr, seen: set<Addr>): Pool
    requires elapsed > 0 && best in rates
  {
    map a | a in pool ::
      if a in seen && a in rates && a != best
      then Judge(pool[a], Healthy(rates[a].PerConn(elapsed), rates[best].PerConn(elapsed)), rates[a].tailsOnly).0
      else pool[a]
  }

  /** The slowest of the condemned among `seen`, if any is condemned. */
  ghost predicate SlowestIn(pool: Pool, rates: Rates, elapsed: int, best: Addr, seen: set<Addr>, candidate: Option<Addr>)
    requires elapsed > 0 && best in rates
  {
    if candidate.None? then forall b :: b in seen ==> !Condemned(pool, rates, elapsed, best, b)
    else
      && candidate.value in seen && Condemned(pool, rates, elapsed, best, candidate.value)
      && forall b :: b in seen && Condemned(pool, rates, elapsed, best, b) ==>
           rates[candidate.value].PerConn(elapsed) <= rates[b].PerConn(elapsed)
  }

  function Cleared(pool: Pool, ordered: seq<Addr>): Pool {
    map a | a in pool :: if a in ordered then pool[a].(belowSample := 0, healthySample := 0) else pool[a]
  }

  /** There is somewhere else to move the work of a. */
  predicate HasAlternative(pool: Pool, a: Addr, alternative: Addr, now: int) {
    && a in pool && pool[a].conns != 0 && alternative in pool && alternative != a
    && pool[alternative].conns != 0 && pool[alternative].slowStrikes == 0 && Eligible(pool[alternative], now)
  }

  function Struck(n: Node, now: int): Node {
    var m := n.(slowStrikes := n.slowStrikes + 1, belowSample := 0, healthySample := 0);
    if m.Banned() then m else m.(unavailableUntil := now + CULL_COOLDOWN)
  }

  /** Every worker on a is told to move. */
  function Rotated(ws: Workers, a: Addr): Workers {
    map id | id in ws :: if ws[id].addr == a then ws[id].(rotate := true) else ws[id]
  }

  /** Records other than the counts may change freely. */
  lemma SameCounts(pool: Pool, pool': Pool, ordered: seq<Addr>, ws: Workers, at: Addr)
    requires pool'.Keys == pool.Keys
    requires forall a :: a in pool ==> pool'[a].conns == pool[a].conns && pool'[a].order == pool[a].order
    ensures Accounted(pool, ws, at) ==> Accounted(pool', ws, at)
    ensures Listed(pool, ordered) ==> Listed(pool', ordered)
  {
    assert forall a :: a in pool' ==> a in pool;
  }

  lemma RotatedSame(ws: Workers, a: Addr)
    ensures MembersOf(Rotated(ws, a)) == MembersOf(ws)
    ensures forall b :: On(Rotated(ws, a), b) == On(ws, b)
  {
    forall b ensures On(Rotated(ws, a), b) == On(ws, b) {}
  }

  /** Judging keeps some address without a strike. */
  lemma JudgedUnstruck(pool: Pool, rates: Rates, elapsed: int, best: Addr, seen: set<Addr>)
    requires elapsed > 0 && best in rates && SomeUnstruck(pool)
    ensures SomeUnstruck(Judged(pool, rates, elapsed, best, seen))
  {
    var a :| a in pool && pool[a].slowStrikes == 0;
    assert Judged(pool, rates, elapsed, best, seen)[a].slowStrikes == 0;
  }
}
