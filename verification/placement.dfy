/** Connection ownership over one host's address pool. Every method is one
    section under the placement's mutex; times are integers. The records the
    original points to are values in the two maps. */
module Placement {
  import opened Intervals

  type Addr = nat

  /** The zero netip.Addr. */
  const NO_ADDR: Addr := 0

  const CULL_EVALUATIONS := 2

  datatype Node = Node(
    order: nat,
    conns: int,
    unavailableUntil: int,
    slowStrikes: nat,
    healthySample: nat,
    belowSample: nat)
  {
    /** A second confirmed slow cull. */
    predicate Banned() { slowStrikes >= 2 }

    /** Culled once and carrying its passive probe. */
    predicate Probing() { slowStrikes > 0 && conns > 0 }
  }

  /** `counting`: bytes are credited to the present generation. `inFlight`: an
      attempt has registered its cancel. */
  datatype Placed = Placed(
    addr: Addr,
    generation: nat,
    counting: bool,
    bytes: nat,
    avoidNext: Addr,
    rotate: bool,
    inFlight: bool)

  const NEWCOMER := Placed(NO_ADDR, 0, true, 0, NO_ADDR, false, false)

  type Pool = map<Addr, Node>
  type Workers = map<nat, Placed>

  /** Which connection each worker is on, by address and generation. */
  type Members = map<nat, (Addr, nat)>

  function MembersOf(ws: Workers): Members { map id | id in ws :: (ws[id].addr, ws[id].generation) }

  /** The workers assigned to a. */
  function On(ws: Workers, a: Addr): set<nat> { set id | id in ws && ws[id].addr == a }

  predicate NoDup(s: seq<Addr>) { forall i, j :: 0 <= i < j < |s| ==> s[i] != s[j] }

  /** A pool's counts are right: assigned workers, and one for the election
      connection nobody has taken over yet. */
  predicate Accounted(pool: Pool, ws: Workers, pendingAt: Addr) {
    forall a :: a in pool ==> pool[a].conns == |On(ws, a)| + (if a == pendingAt then 1 else 0)
  }

  predicate Listed(pool: Pool, ordered: seq<Addr>) {
    && NoDup(ordered) && NO_ADDR !in pool
    && forall i :: 0 <= i < |ordered| ==> ordered[i] in pool && pool[ordered[i]].order == i
  }

  predicate SomeUnstruck(pool: Pool) { exists a :: a in pool && pool[a].slowStrikes == 0 }

  predicate Eligible(n: Node, now: int) { !n.Banned() && now >= n.unavailableUntil }

  /** May be given out by the selection. */
  predicate Selectable(pool: Pool, a: Addr, exclude: Addr, now: int) {
    a in pool && a != exclude && Eligible(pool[a], now) && !pool[a].Probing()
  }

  /** Fewer connections, then earlier in the order. */
  predicate Better(n: Node, m: Node) { n.conns < m.conns || (n.conns == m.conns && n.order < m.order) }

  /** a is the least loaded selectable address, the earliest among equals. */
  predicate Best(pool: Pool, ordered: seq<Addr>, exclude: Addr, now: int, a: Addr) {
    && a in ordered && Selectable(pool, a, exclude, now)
    && forall b :: b in ordered && b != a && Selectable(pool, b, exclude, now) ==> Better(pool[a], pool[b])
  }

  /** Free to be given out: not excluded, not parked, and either never struck or
      struck once and without its one probing connection. */
  predicate Free(pool: Pool, a: Addr, exclude: Addr, now: int) {
    && a in pool && a != exclude && now >= pool[a].unavailableUntil
    && (pool[a].slowStrikes == 0 || (pool[a].slowStrikes == 1 && pool[a].conns <= 0))
  }

  /** The best address is the free one with fewest connections, and of several the
      one that comes first. */
  lemma BestIs(pool: Pool, ordered: seq<Addr>, exclude: Addr, now: int, i: nat)
    requires Listed(pool, ordered) && i < |ordered|
    ensures Best(pool, ordered, exclude, now, ordered[i]) <==>
      && Free(pool, ordered[i], exclude, now)
      && forall j :: 0 <= j < |ordered| && Free(pool, ordered[j], exclude, now) ==>
           pool[ordered[i]].conns < pool[ordered[j]].conns || (pool[ordered[i]].conns == pool[ordered[j]].conns && i <= j)
    ensures NoneSelectable(pool, ordered, exclude, now) <==>
      forall j :: 0 <= j < |ordered| ==> !Free(pool, ordered[j], exclude, now)
  {
    forall a ensures Free(pool, a, exclude, now) <==> Selectable(pool, a, exclude, now) {}
  }

  predicate NoneSelectable(pool: Pool, ordered: seq<Addr>, exclude: Addr, now: int) {
    forall b :: b in ordered ==> !Selectable(pool, b, exclude, now)
  }

  function Bump(pool: Pool, a: Addr, d: int): Pool {
    if a in pool then pool[a := pool[a].(conns := pool[a].conns + d)] else pool
  }

  // ---- the order of a host's addresses ----

  /** Election address first, then its family, then the other one; no address
      twice. `is4` tells the families apart. */
  method OrderNodeAddresses(election: Addr, resolved: seq<Addr>, is4: Addr -> bool) returns (ordered: seq<Addr>)
    ensures NoDup(ordered)
    ensures forall a :: a in ordered <==> a != NO_ADDR && (a == election || a in resolved)
    ensures election != NO_ADDR ==> |ordered| > 0 && ordered[0] == election
    ensures election != NO_ADDR ==>
      forall i, j :: 0 <= i < j < |ordered| && is4(ordered[j]) == is4(election) ==> is4(ordered[i]) == is4(election)
    ensures forall i, j :: 0 <= i < j < |ordered| && ordered[i] != election && SameFamily(election, is4, ordered[i], ordered[j]) ==>
      FirstAt(resolved, ordered[i]) < FirstAt(resolved, ordered[j])
  {
    ordered := if election == NO_ADDR then [] else [election];
    ordered := AppendFamily(election, resolved, is4, true, ordered);
    ghost var same := ordered;
    ordered := AppendFamily(election, resolved, is4, false, ordered);
    forall a ensures a in ordered <==> a != NO_ADDR && (a == election || a in resolved) {
      if election != NO_ADDR && a in resolved { assert is4(a) == is4(election) || is4(a) != is4(election); }
    }
    if election != NO_ADDR {
      forall k | 0 <= k < |ordered| ensures is4(ordered[k]) == is4(election) <==> k < |same| {
        if k < |same| { assert ordered[k] == same[k]; }
      }
    }
  }

  /** Where a occurs first in s; |s| if it does not. */
  function FirstAt(s: seq<Addr>, a: Addr): (n: nat)
    ensures n <= |s| && (n < |s| ==> s[n] == a) && forall i :: 0 <= i < n ==> s[i] != a
  {
    if s == [] || s[0] == a then 0 else 1 + FirstAt(s[1..], a)
  }

  predicate SameFamily(election: Addr, is4: Addr -> bool, a: Addr, b: Addr) { election == NO_ADDR || is4(a) == is4(b) }

  /** Taken in this pass over the answer. */
  predicate Passes(election: Addr, is4: Addr -> bool, sameFamily: bool, a: Addr) {
    a != NO_ADDR && (election == NO_ADDR || (is4(a) == is4(election)) == sameFamily)
  }

  /** One pass over the answer, taking the addresses of one family; both, when
      there is no election address to compare with. */
  method AppendFamily(election: Addr, resolved: seq<Addr>, is4: Addr -> bool, sameFamily: bool, before: seq<Addr>)
    returns (ordered: seq<Addr>)
    requires NoDup(before)
    ensures NoDup(ordered) && before <= ordered
    ensures forall a :: a in ordered <==> a in before || (a in resolved && Passes(election, is4, sameFamily, a))
    ensures forall k :: |before| <= k < |ordered| ==> Passes(election, is4, sameFamily, ordered[k])
    ensures forall i, j :: |before| <= i < j < |ordered| ==> FirstAt(resolved, ordered[i]) < FirstAt(resolved, ordered[j])
  {
    ordered := before;
    for i := 0 to |resolved|
      invariant NoDup(ordered) && before <= ordered
      invariant forall a :: a in ordered <==> a in before || (a in resolved[..i] && Passes(election, is4, sameFamily, a))
      invariant forall k :: |before| <= k < |ordered| ==> Passes(election, is4, sameFamily, ordered[k])
      invariant forall k :: |before| <= k < |ordered| ==> FirstAt(resolved, ordered[k]) < i
      invariant forall i, j :: |before| <= i < j < |ordered| ==> FirstAt(resolved, ordered[i]) < FirstAt(resolved, ordered[j])
    {
      var addr := resolved[i];
      assert resolved[..i + 1] == resolved[..i] + [addr];
      if Passes(election, is4, sameFamily, addr) && addr !in ordered {
        assert FirstAt(resolved, addr) == i by {
          forall k | 0 <= k < i ensures resolved[k] != addr { assert resolved[k] in resolved[..i]; }
        }
        ordered := ordered + [addr];
      }
    }
    assert resolved[..|resolved|] == resolved;
  }

  // ---- counting ----

  lemma OnMoves(ws: Workers, id: nat, w: Placed, a: Addr)
    requires id in ws
    ensures |On(ws[id := w], a)| ==
      |On(ws, a)| - (if ws[id].addr == a then 1 else 0) + (if w.addr == a then 1 else 0)
  {
    var before, after := On(ws, a), On(ws[id := w], a);
    assert after == if w.addr == a then before + {id} else before - {id};
    assert id in before <==> ws[id].addr == a;
    WithAndWithout(before, id);
  }

  lemma OnJoins(ws: Workers, id: nat, w: Placed, a: Addr)
    requires id !in ws && w.addr != a
    ensures On(ws[id := w], a) == On(ws, a)
  {
  }

  lemma OnLeaves(ws: Workers, id: nat, a: Addr)
    requires id in ws
    ensures |On(ws - {id}, a)| == |On(ws, a)| - (if ws[id].addr == a then 1 else 0)
  {
    assert On(ws - {id}, a) == On(ws, a) - {id};
    assert id in On(ws, a) <==> ws[id].addr == a;
    WithAndWithout(On(ws, a), id);
  }

  /** The decrement's guard: an address somebody is on has connections. */
  lemma OccupiedHasConns(pool: Pool, ws: Workers, at: Addr, id: nat)
    requires Accounted(pool, ws, at) && id in ws && ws[id].addr in pool
    ensures pool[ws[id].addr].conns > 0
  {
    assert id in On(ws, ws[id].addr);
  }

  lemma MoveAccounted(pool: Pool, ws: Workers, at: Addr, id: nat, w: Placed)
    requires Accounted(pool, ws, at) && id in ws
    ensures Accounted(Bump(Bump(pool, ws[id].addr, -1), w.addr, 1), ws[id := w], at)
  {
    forall a | a in pool
      ensures Bump(Bump(pool, ws[id].addr, -1), w.addr, 1)[a].conns ==
        |On(ws[id := w], a)| + (if a == at then 1 else 0)
    {
      OnMoves(ws, id, w, a);
    }
  }

  lemma JoinAccounted(pool: Pool, ws: Workers, at: Addr, id: nat)
    requires Accounted(pool, ws, at) && id !in ws && NO_ADDR !in pool
    ensures Accounted(pool, ws[id := NEWCOMER], at)
  {
    forall a | a in pool ensures On(ws[id := NEWCOMER], a) == On(ws, a) { OnJoins(ws, id, NEWCOMER, a); }
  }

  lemma LeaveAccounted(pool: Pool, ws: Workers, at: Addr, id: nat)
    requires Accounted(pool, ws, at) && id in ws
    ensures Accounted(Bump(pool, ws[id].addr, -1), ws - {id}, at)
  {
    forall a | a in pool
      ensures Bump(pool, ws[id].addr, -1)[a].conns == |On(ws - {id}, a)| + (if a == at then 1 else 0)
    {
      OnLeaves(ws, id, a);
    }
  }

  // ---- re-resolution ----

  /** The pool after the addresses in `ordered` are installed. */
  function Installed(pool: Pool, ordered: seq<Addr>): Pool
    decreases |ordered|
  {
    if ordered == [] then pool
    else
      var last := |ordered| - 1;
      var p := Installed(pool, ordered[..last]);
      p[ordered[last] := if ordered[last] in p then p[ordered[last]].(order := last) else Node(last, 0, 0, 0, 0, 0)]
  }

  /** Installing keeps what is known of an address and gives the new ones a
      clean slate. */
  lemma {:induction false} InstalledIs(pool: Pool, ordered: seq<Addr>)
    requires NoDup(ordered)
    ensures var p := Installed(pool, ordered);
      && (forall a :: a in p <==> a in pool || a in ordered)
      && (forall a :: a in pool && a !in ordered ==> p[a] == pool[a])
      && (forall i :: 0 <= i < |ordered| ==>
            p[ordered[i]] == if ordered[i] in pool then pool[ordered[i]].(order := i) else Node(i, 0, 0, 0, 0, 0))
    decreases |ordered|
  {
    if ordered != [] {
      var last := |ordered| - 1;
      var rest := ordered[..last];
      InstalledIs(pool, rest);
      assert ordered == rest + [ordered[last]];
      assert ordered[last] !in rest;
      forall i | 0 <= i < last ensures ordered[i] == rest[i] && ordered[i] != ordered[last] {}
    }
  }

  /** Every worker is on a member of the pool, or on nothing. */
  predicate Housed(pool: Pool, ws: Workers) {
    forall id :: id in ws ==> ws[id].addr == NO_ADDR || ws[id].addr in pool
  }

  /** Nobody is on an address that is about to become a member. */
  predicate NoStray(pool: Pool, ws: Workers, ordered: seq<Addr>) {
    forall id :: id in ws && ws[id].addr in ordered ==> ws[id].addr in pool
  }

  /** Re-resolution keeps the counts exactly when no worker already sits on an
      address that it adds. */
  lemma InstallAccounts(pool: Pool, ws: Workers, at: Addr, ordered: seq<Addr>)
    requires Accounted(pool, ws, at) && NoDup(ordered) && (at != NO_ADDR ==> at in pool) && NO_ADDR !in ordered
    ensures Accounted(Installed(pool, ordered), ws, at) <==> NoStray(pool, ws, ordered)
  {
    InstalledIs(pool, ordered);
    var p := Installed(pool, ordered);
    if NoStray(pool, ws, ordered) {
      forall a | a in p ensures p[a].conns == |On(ws, a)| + (if a == at then 1 else 0) {
        if a !in pool {
          var i :| 0 <= i < |ordered| && ordered[i] == a;
          assert forall id :: id !in On(ws, a);
        }
      }
    } else {
      var id :| id in ws && ws[id].addr in ordered && ws[id].addr !in pool;
      var i :| 0 <= i < |ordered| && ordered[i] == ws[id].addr;
      assert id in On(ws, ordered[i]);
      assert p[ordered[i]].conns == 0;
    }
  }
}
