/** The placement object itself: its critical sections as methods that change
    the maps in place, each proved to keep the counts and the history. */
module NodePlacements {
  import opened Wrappers
  import opened Placement
  import opened Culling

  class NodePlacement {
    const election: Addr
    /** The election connection is open and no worker has taken it over. */
    var electionPending: bool
    var ordered: seq<Addr>
    var byAddr: Pool
    var workers: Workers
    var closed: bool
    var membershipGen: nat
    var lastCull: int

    /** Who was connected where, at every membership generation so far. */
    ghost var past: map<nat, Members>

    function PendingAt(): Addr
      reads this
    {
      if electionPending then election else NO_ADDR
    }

    predicate CountsOk()
      reads this
    {
      Accounted(byAddr, workers, PendingAt())
    }

    /** The present membership is on record, under the newest generation. */
    ghost predicate PastOk()
      reads this
    {
      && membershipGen in past && past[membershipGen] == MembersOf(workers)
      && forall g :: g in past ==> g <= membershipGen
    }

    /** Everything but the counts. */
    ghost predicate Formed()
      reads this
    {
      && Listed(byAddr, ordered) && SomeUnstruck(byAddr) && PastOk()
      && (electionPending ==> election in byAddr)
    }

    ghost predicate Valid()
      reads this
    {
      Formed() && CountsOk()
    }

    constructor (election: Addr, ordered: seq<Addr>, electionInUse: bool)
      requires NoDup(ordered) && |ordered| >= 2 && NO_ADDR !in ordered
      requires election != NO_ADDR ==> election in ordered
      ensures Valid() && this.ordered == ordered && workers == map[] && !closed
      ensures electionPending == (electionInUse && election != NO_ADDR)
      ensures byAddr == if electionPending then Bump(Installed(map[], ordered), election, 1) else Installed(map[], ordered)
    {
      this.election := election;
      electionPending := electionInUse && election != NO_ADDR;
      this.ordered, workers, closed, membershipGen, lastCull := ordered, map[], false, 0, 0;
      byAddr := if electionInUse && election != NO_ADDR then Bump(Installed(map[], ordered), election, 1) else Installed(map[], ordered);
      past := map[0 := map[]];
      new;
      InstalledIs(map[], ordered);
      assert forall a :: On(map[], a) == {};
      assert ordered[0] in byAddr;
    }

    /** A worker joined, left or changed connection. */
    method NewMembership(ws: Workers)
      requires PastOk()
      modifies this`workers, this`membershipGen, this`past
      ensures PastOk() && workers == ws && membershipGen == old(membershipGen) + 1
      ensures Remembers(old(past), past)
    {
      workers := ws;
      membershipGen := membershipGen + 1;
      past := past[membershipGen := MembersOf(workers)];
    }

    /** workerLocked. */
    method WorkerLocked(id: nat)
      requires Valid()
      modifies this`workers, this`membershipGen, this`past
      ensures Valid() && id in workers
      ensures workers == Joined(old(workers), id)
      ensures Remembers(old(past), past) && old(membershipGen) <= membershipGen
      ensures old(Housed(byAddr, workers)) ==> Housed(byAddr, workers)
    {
      if id !in workers {
        JoinAccounted(byAddr, workers, PendingAt(), id);
        NewMembership(workers[id := NEWCOMER]);
      }
    }

    /** One connection fewer at `from`, one more at `to`, where they are members. */
    method MoveConnection(from: Addr, to: Addr)
      requires from != to && (from in byAddr ==> byAddr[from].conns > 0)
      modifies this`byAddr
      ensures byAddr == Bump(Bump(old(byAddr), from, -1), to, 1)
    {
      if from in byAddr && byAddr[from].conns > 0 {
        byAddr := Bump(byAddr, from, -1);
      }
      byAddr := Bump(byAddr, to, 1);
    }

    /** assignLocked: a connection moves and starts a new generation. Only
        members of the pool are counted. */
    method AssignLocked(id: nat, addr: Addr, forceGeneration: bool)
      requires Valid() && id in workers
      modifies this`byAddr, this`workers, this`membershipGen, this`past
      ensures Valid() && Remembers(old(past), past) && old(membershipGen) <= membershipGen
      ensures workers == Reassigned(old(workers), id, addr, forceGeneration)
      ensures byAddr == Bump(Bump(old(byAddr), old(workers)[id].addr, -1), addr, 1)
      ensures workers != old(workers) ==> membershipGen > old(membershipGen)
      ensures old(Housed(byAddr, workers)) && (addr == NO_ADDR || addr in old(byAddr)) ==> Housed(byAddr, workers)
    {
      var w := workers[id];
      if w.addr == addr && !forceGeneration {
        assert Bump(Bump(byAddr, w.addr, -1), addr, 1) == byAddr;
        return;
      }
      Reconnect(id, addr);
    }

    /** The worker's connection is a new one, to addr. */
    method Reconnect(id: nat, addr: Addr)
      requires Valid() && id in workers
      modifies this`byAddr, this`workers, this`membershipGen, this`past
      ensures Valid() && Remembers(old(past), past) && membershipGen == old(membershipGen) + 1
      ensures workers == old(workers)[id := Next(old(workers)[id], addr)]
      ensures byAddr == Bump(Bump(old(byAddr), old(workers)[id].addr, -1), addr, 1)
      ensures old(Housed(byAddr, workers)) && (addr == NO_ADDR || addr in old(byAddr)) ==> Housed(byAddr, workers)
    {
      var w := workers[id];
      MoveAccounted(byAddr, workers, PendingAt(), id, Next(w, addr));
      BumpsKeep(byAddr, ordered, w.addr, addr);
      if w.addr in byAddr { OccupiedHasConns(byAddr, workers, PendingAt(), id); }
      ShiftConnection(w.addr, addr);
      NewMembership(workers[id := Next(w, addr)]);
    }

    method ShiftConnection(from: Addr, to: Addr)
      requires from in byAddr ==> byAddr[from].conns > 0
      modifies this`byAddr
      ensures byAddr == Bump(Bump(old(byAddr), from, -1), to, 1)
    {
      if from != to {
        MoveConnection(from, to);
      } else {
        assert Bump(Bump(byAddr, from, -1), to, 1) == byAddr;
      }
    }

    /** bestLocked. */
    method BestLocked(exclude: Addr, now: int) returns (chosen: Option<Addr>)
      requires Listed(byAddr, ordered)
      ensures chosen.None? ==> NoneSelectable(byAddr, ordered, exclude, now)
      ensures chosen.Some? ==> Best(byAddr, ordered, exclude, now, chosen.value)
    {
      chosen := None;
      for i := 0 to |ordered|
        invariant chosen.None? ==> NoneSelectable(byAddr, ordered[..i], exclude, now)
        invariant chosen.Some? ==> Best(byAddr, ordered[..i], exclude, now, chosen.value)
      {
        var a := ordered[i];
        assert ordered[..i + 1] == ordered[..i] + [a];
        if Selectable(byAddr, a, exclude, now) && (chosen.None? || Better(byAddr[a], byAddr[chosen.value])) {
          BestSoFar(byAddr, ordered, i, exclude, now, chosen);
          chosen := Some(a);
        }
      }
      assert ordered[..|ordered|] == ordered;
    }

    /** reserve: a worker keeps its address, or gets the best one; the address
        it wants to avoid only when nothing else is left. */
    method Reserve(id: nat, now: int) returns (r: Option<Addr>)
      requires Valid()
      modifies this`byAddr, this`workers, this`membershipGen, this`past
      ensures Valid() && Remembers(old(past), past) && old(membershipGen) <= membershipGen
      ensures closed ==> r == None && workers == old(workers) && byAddr == old(byAddr)
      ensures !closed ==> id in workers && Reserved(old(byAddr), ordered, old(WorkerOf(id)), now, r)
      ensures OnlyWorker(old(workers), workers, id) && (r.None? ==> byAddr == old(byAddr))
      ensures !closed && r.Some? ==> workers[id].addr == r.value
      ensures !closed && r.Some? && old(WorkerOf(id)).addr == NO_ADDR ==>
        byAddr == Bump(old(byAddr), r.value, 1) && workers[id].avoidNext == NO_ADDR
      ensures old(Housed(byAddr, workers)) ==> Housed(byAddr, workers)
    {
      if closed {
        return None;
      }
      WorkerLocked(id);
      r := ReserveFor(id, now);
    }

    method ReserveFor(id: nat, now: int) returns (r: Option<Addr>)
      requires Valid() && id in workers
      modifies this`byAddr, this`workers, this`membershipGen, this`past
      ensures Valid() && Remembers(old(past), past) && old(membershipGen) <= membershipGen
      ensures id in workers && Reserved(old(byAddr), ordered, old(workers)[id], now, r)
      ensures OnlyWorker(old(workers), workers, id) && (r.None? ==> byAddr == old(byAddr))
      ensures r.Some? ==> workers[id].addr == r.value
      ensures r.Some? && old(workers)[id].addr == NO_ADDR ==>
        byAddr == Bump(old(byAddr), r.value, 1) && workers[id].avoidNext == NO_ADDR
      ensures old(Housed(byAddr, workers)) ==> Housed(byAddr, workers)
    {
      if workers[id].addr != NO_ADDR {
        return Some(workers[id].addr);
      }
      r := ReserveAnew(id, now);
    }

    method ReserveAnew(id: nat, now: int) returns (r: Option<Addr>)
      requires Valid() && id in workers && workers[id].addr == NO_ADDR
      modifies this`byAddr, this`workers, this`membershipGen, this`past
      ensures Valid() && Remembers(old(past), past) && old(membershipGen) <= membershipGen
      ensures id in workers && Reserved(old(byAddr), ordered, old(workers)[id], now, r)
      ensures OnlyWorker(old(workers), workers, id)
      ensures r.None? ==> byAddr == old(byAddr)
      ensures r.Some? ==> workers[id].addr == r.value && workers[id].avoidNext == NO_ADDR && byAddr == Bump(old(byAddr), r.value, 1)
      ensures old(Housed(byAddr, workers)) ==> Housed(byAddr, workers)
    {
      r := Choose(workers[id], now);
      ClearAvoid(id);
      if r.Some? {
        AssignLocked(id, r.value, false);
      }
    }

    /** The avoided address is only a preference. */
    method Choose(w: Placed, now: int) returns (r: Option<Addr>)
      requires Valid() && w.addr == NO_ADDR
      ensures Reserved(byAddr, ordered, w, now, r) && (r.Some? ==> r.value in byAddr && r.value != NO_ADDR)
    {
      r := BestLocked(w.avoidNext, now);
      if r.None? && w.avoidNext != NO_ADDR {
        r := BestLocked(NO_ADDR, now);
      }
    }

    function WorkerOf(id: nat): Placed
      reads this
    {
      if id in workers then workers[id] else NEWCOMER
    }

    method ClearAvoid(id: nat)
      requires Valid() && id in workers
      modifies this`workers
      ensures Valid() && workers == old(workers)[id := old(workers)[id].(avoidNext := NO_ADDR)]
    {
      SetFlags(id, workers[id].(avoidNext := NO_ADDR));
    }

    /** Changes that do not touch address or generation. */
    method SetFlags(id: nat, w: Placed)
      requires Valid() && id in workers && w.addr == workers[id].addr && w.generation == workers[id].generation
      modifies this`workers
      ensures Valid() && workers == old(workers)[id := w]
    {
      SameOn(workers, id, w);
      workers := workers[id := w];
    }

    method AvoidCurrentOnNextReservation(id: nat)
      requires Valid() && id in workers
      modifies this`workers
      ensures Valid() && workers == old(workers)[id := old(workers)[id].(avoidNext := old(workers)[id].addr)]
    {
      SetFlags(id, workers[id].(avoidNext := workers[id].addr));
    }

    method MarkAvailabilityFailure(addr: Addr, until: int)
      requires Valid()
      modifies this`byAddr
      ensures Valid()
      ensures byAddr == if addr in old(byAddr) then old(byAddr)[addr := old(byAddr)[addr].(unavailableUntil := until)] else old(byAddr)
    {
      if addr in byAddr {
        var pool := byAddr;
        byAddr := pool[addr := pool[addr].(unavailableUntil := until)];
        SameStrikes(pool, byAddr);
      }
    }

    /** A dial is a new connection even when it reaches the same address. */
    method MarkDialWinner(id: nat, addr: Addr)
      requires Valid()
      modifies this`byAddr, this`workers, this`membershipGen, this`past
      ensures Valid() && Remembers(old(past), past)
      ensures closed || addr == NO_ADDR ==> workers == old(workers) && byAddr == old(byAddr)
      ensures !closed && addr != NO_ADDR ==>
        && workers == Reassigned(Joined(old(workers), id), id, addr, true) && membershipGen > old(membershipGen)
        && byAddr == Bump(Bump(old(byAddr), old(WorkerOf(id)).addr, -1), addr, 1)
      ensures old(Housed(byAddr, workers)) && addr in old(byAddr) ==> Housed(byAddr, workers)
    {
      if closed || addr == NO_ADDR {
        return;
      }
      WorkerLocked(id);
      AssignLocked(id, addr, true);
    }

    /** A live connection is attributed to a member of the pool; on any other
        remote the worker gives its address back. */
    method GotConn(id: nat, addr: Addr)
      requires Valid()
      modifies this`byAddr, this`workers, this`membershipGen, this`past
      ensures Valid() && Remembers(old(past), past)
      ensures closed || addr == NO_ADDR ==> workers == old(workers) && byAddr == old(byAddr)
      ensures !closed && addr != NO_ADDR ==>
        && var actual := if addr in old(byAddr) then addr else NO_ADDR;
           && workers == Reassigned(Joined(old(workers), id), id, actual, false)
           && byAddr == Bump(Bump(old(byAddr), old(WorkerOf(id)).addr, -1), actual, 1)
      ensures old(Housed(byAddr, workers)) ==> Housed(byAddr, workers)
    {
      if closed || addr == NO_ADDR {
        return;
      }
      WorkerLocked(id);
      AssignLocked(id, if addr in byAddr then addr else NO_ADDR, false);
    }

    /** Gives up the provisional count of the election connection. */
    method DropElection()
      requires Valid()
      modifies this`byAddr, this`electionPending
      ensures Valid() && !electionPending
      ensures byAddr == if old(electionPending) then Bump(old(byAddr), election, -1) else old(byAddr)
    {
      if electionPending {
        ElectionHasConns(byAddr, workers, election);
        BumpsKeep(byAddr, ordered, election, NO_ADDR);
        if byAddr[election].conns > 0 {
          byAddr := Bump(byAddr, election, -1);
        }
        electionPending := false;
      }
    }

    /** The provisional count passes to a worker in one step, or is dropped
        with it: nobody sees the address free in between. */
    method AttachInitial(id: nat, addr: Addr)
      requires Valid()
      modifies this`byAddr, this`workers, this`membershipGen, this`past, this`electionPending
      ensures Valid() && !electionPending && Remembers(old(past), past)
      ensures workers == if closed || addr == NO_ADDR then old(workers) else Reassigned(Joined(old(workers), id), id, addr, false)
      ensures byAddr ==
        var dropped := if old(electionPending) then Bump(old(byAddr), election, -1) else old(byAddr);
        if closed || addr == NO_ADDR then dropped else Bump(Bump(dropped, old(WorkerOf(id)).addr, -1), addr, 1)
      ensures !closed && addr == election != NO_ADDR && old(electionPending) && old(WorkerOf(id)).addr == NO_ADDR ==>
        byAddr == old(byAddr)
      ensures old(Housed(byAddr, workers)) && addr in old(byAddr) ==> Housed(byAddr, workers)
    {
      if electionPending { HandedOver(byAddr, election); }
      DropElection();
      if !closed && addr != NO_ADDR {
        WorkerLocked(id);
        AssignLocked(id, addr, false);
      }
    }

    method ReleaseAddress(id: nat)
      requires Valid() && id in workers
      modifies this`byAddr, this`workers, this`membershipGen, this`past
      ensures Valid() && Remembers(old(past), past) && id in workers && workers[id].addr == NO_ADDR
      ensures workers == Reassigned(old(workers), id, NO_ADDR, false)
      ensures byAddr == Bump(old(byAddr), old(workers)[id].addr, -1)
      ensures old(Housed(byAddr, workers)) ==> Housed(byAddr, workers)
    {
      if workers[id].addr != NO_ADDR {
        AssignLocked(id, NO_ADDR, false);
      }
    }

    method RemoveWorker(id: nat)
      requires Valid()
      modifies this`byAddr, this`workers, this`membershipGen, this`past
      ensures Valid() && Remembers(old(past), past) && workers == old(workers) - {id}
      ensures id in old(workers) ==> byAddr == Bump(old(byAddr), old(workers)[id].addr, -1)
      ensures id in old(workers) ==> membershipGen > old(membershipGen)
      ensures old(Housed(byAddr, workers)) ==> Housed(byAddr, workers)
    {
      if id !in workers {
        return;
      }
      var a := workers[id].addr;
      LeaveAccounted(byAddr, workers, PendingAt(), id);
      if a in byAddr {
        OccupiedHasConns(byAddr, workers, PendingAt(), id);
        if byAddr[a].conns > 0 {
          var pool := byAddr;
          byAddr := Bump(byAddr, a, -1);
          BumpsKeep(pool, ordered, a, NO_ADDR);
        }
      }
      NewMembership(workers - {id});
    }

    /** installOrderLocked. The counts survive exactly when no worker is on an
        address that this resolution adds to the pool. */
    method InstallOrderLocked(addrs: seq<Addr>)
      requires Valid() && NoDup(addrs) && NO_ADDR !in addrs
      modifies this`byAddr, this`ordered
      ensures ordered == addrs && byAddr == Installed(old(byAddr), addrs)
      ensures Formed() && (CountsOk() <==> NoStray(old(byAddr), workers, addrs))
      ensures old(Housed(byAddr, workers)) ==> Valid() && Housed(byAddr, workers)
    {
      InstallAccounts(byAddr, workers, PendingAt(), addrs);
      InstalledKeeps(byAddr, addrs);
      InstallAll(addrs);
      ordered := addrs;
    }

    method InstallAll(addrs: seq<Addr>)
      modifies this`byAddr
      ensures byAddr == Installed(old(byAddr), addrs)
    {
      for i := 0 to |addrs|
        invariant byAddr == Installed(old(byAddr), addrs[..i])
      {
        var n := if addrs[i] in byAddr then byAddr[addrs[i]] else Node(i, 0, 0, 0, 0, 0);
        assert addrs[..i + 1][..i] == addrs[..i];
        byAddr := byAddr[addrs[i] := n.(order := i)];
      }
      assert addrs[..|addrs|] == addrs;
    }

    // ---- sampling and culling ----

    /** Workers whose bytes are not being credited are left out. */
    method TakeSnapshot(now: int, tailOf: nat -> bool) returns (s: Snapshot)
      requires Valid()
      ensures s.at == now && s.membershipGen == membershipGen
      ensures forall id :: id in s.workers <==> id in workers && workers[id].counting
      ensures forall id :: id in s.workers ==>
        s.workers[id] == WorkerSample(workers[id].addr, workers[id].generation, workers[id].bytes, tailOf(id))
      ensures TakenFrom(past, s)
    {
      s := Snapshot(now, membershipGen,
        map id | id in workers && workers[id].counting ::
          WorkerSample(workers[id].addr, workers[id].generation, workers[id].bytes, tailOf(id)));
    }

    method ResetCullEvidence()
      requires Valid()
      modifies this`byAddr
      ensures Valid() && byAddr == Cleared(old(byAddr), ordered)
      ensures forall a :: a in ordered && a in byAddr ==>
        byAddr[a] == old(byAddr)[a].(belowSample := 0, healthySample := 0)
      ensures forall a :: a !in ordered && a in byAddr ==> byAddr[a] == old(byAddr)[a]
      ensures byAddr.Keys == old(byAddr.Keys) && NoNewStrike(old(byAddr), byAddr, NO_ADDR)
    {
      var pool := byAddr;
      byAddr := Cleared(pool, ordered);
      SameCounts(pool, byAddr, ordered, workers, PendingAt());
      SameStrikes(pool, byAddr);
    }

    /** One turn of the judging loop. */
    method JudgeOne(a: Addr, rates: Rates, elapsed: int, best: Addr, candidate: Option<Addr>, ghost pool: Pool, ghost seen: set<Addr>)
      returns (next: Option<Addr>)
      requires elapsed > 0 && best in rates && a in rates && a !in seen && seen <= rates.Keys
      requires byAddr == Judged(pool, rates, elapsed, best, seen) && SlowestIn(pool, rates, elapsed, best, seen, candidate)
      modifies this`byAddr
      ensures byAddr == Judged(pool, rates, elapsed, best, seen + {a})
      ensures SlowestIn(pool, rates, elapsed, best, seen + {a}, next)
    {
      next := candidate;
      if a in byAddr && a != best {
        JudgedNext(pool, rates, elapsed, best, seen, a);
        var (n, slow) := Judge(byAddr[a], Healthy(rates[a].PerConn(elapsed), rates[best].PerConn(elapsed)), rates[a].tailsOnly);
        byAddr := byAddr[a := n];
        if slow && (candidate.None? || rates[a].PerConn(elapsed) < rates[candidate.value].PerConn(elapsed)) {
          next := Some(a);
        }
      } else {
        assert Judged(pool, rates, elapsed, best, seen + {a}) == Judged(pool, rates, elapsed, best, seen);
      }
    }

    /** The judging loop of evaluateWindow. */
    method JudgeWindow(rates: Rates, elapsed: int, best: Addr) returns (candidate: Option<Addr>)
      requires Valid() && elapsed > 0 && best in rates
      modifies this`byAddr
      ensures Valid() && byAddr == Judged(old(byAddr), rates, elapsed, best, rates.Keys)
      ensures SlowestIn(old(byAddr), rates, elapsed, best, rates.Keys, candidate)
      ensures forall a :: a in old(byAddr) ==> a in byAddr && RecordAfter(old(byAddr), rates, elapsed, best, None, a, byAddr[a], 0)
    {
      ghost var pool := byAddr;
      candidate := JudgeAll(rates, elapsed, best);
      forall a | a in pool ensures RecordAfter(pool, rates, elapsed, best, None, a, byAddr[a], 0) {
        JudgedFollows(pool, rates, elapsed, best, a);
      }
    }

    method JudgeAll(rates: Rates, elapsed: int, best: Addr) returns (candidate: Option<Addr>)
      requires Valid() && elapsed > 0 && best in rates
      modifies this`byAddr
      ensures Valid() && byAddr == Judged(old(byAddr), rates, elapsed, best, rates.Keys)
      ensures SlowestIn(old(byAddr), rates, elapsed, best, rates.Keys, candidate)
    {
      ghost var pool := byAddr;
      ghost var seen: set<Addr> := {};
      candidate := None;
      var todo := rates.Keys;
      assert byAddr == Judged(pool, rates, elapsed, best, {});
      while todo != {}
        invariant seen !! todo && seen + todo == rates.Keys
        invariant byAddr == Judged(pool, rates, elapsed, best, seen)
        invariant SlowestIn(pool, rates, elapsed, best, seen, candidate)
        decreases todo
      {
        var a :| a in todo;
        candidate := JudgeOne(a, rates, elapsed, best, candidate, pool, seen);
        seen, todo := seen + {a}, todo - {a};
      }
      JudgedKeeps(pool, byAddr, ordered, workers, PendingAt(), rates, elapsed, best);
    }

    /** cullLocked: strikes an address, and only when the work can move to a
        different address that is live, eligible and was never struck. */
    method CullLocked(a: Addr, alternative: Addr, now: int) returns (cancels: set<nat>, culled: bool)
      requires Valid()
      modifies this`byAddr, this`workers, this`lastCull
      ensures Valid() && (culled <==> HasAlternative(old(byAddr), a, alternative, now))
      ensures !culled ==> byAddr == old(byAddr) && workers == old(workers) && lastCull == old(lastCull) && cancels == {}
      ensures culled ==> lastCull == now && byAddr == old(byAddr)[a := Struck(old(byAddr)[a], now)]
      ensures culled ==> StruckFollows(old(byAddr)[a], byAddr[a], now)
      ensures culled ==> workers == Rotated(old(workers), a)
      ensures culled ==> cancels == Cancelled(old(workers), a)
    {
      culled, cancels := HasAlternative(byAddr, a, alternative, now), {};
      if culled {
        Strike(a, alternative, now);
        lastCull := now;
        cancels := RotateAll(a);
      }
    }

    /** Tells every worker on a to move, and collects the cancels of those in
        mid-attempt. */
    method RotateAll(a: Addr) returns (cancels: set<nat>)
      requires Valid()
      modifies this`workers
      ensures Valid() && workers == Rotated(old(workers), a) && cancels == Cancelled(old(workers), a)
    {
      RotatedSame(workers, a);
      cancels := Cancelled(workers, a);
      workers := Rotated(workers, a);
    }

    method Strike(a: Addr, alternative: Addr, now: int)
      requires Valid() && HasAlternative(byAddr, a, alternative, now)
      modifies this`byAddr
      ensures Valid() && byAddr == old(byAddr)[a := Struck(old(byAddr)[a], now)]
      ensures StruckFollows(old(byAddr)[a], byAddr[a], now)
    {
      var pool := byAddr;
      byAddr := byAddr[a := Struck(byAddr[a], now)];
      SameCounts(pool, byAddr, ordered, workers, PendingAt());
      assert byAddr[alternative].slowStrikes == 0;
    }

    /** Under one hold of the lock: judge every address, then cull the slowest of
        the condemned, if it may be culled. */
    method JudgeAndCull(rates: Rates, elapsed: int, best: Addr, now: int)
      returns (culled: Option<Addr>, cancels: set<nat>, candidate: Option<Addr>)
      requires Valid() && elapsed > 0 && best in rates
      modifies this`byAddr, this`workers, this`lastCull
      ensures Valid()
      ensures Judges(Record(old(byAddr), old(workers), old(lastCull)), rates, elapsed, best, candidate, culled, cancels,
                     Record(byAddr, workers, lastCull), now)
      ensures Follows(Record(old(byAddr), old(workers), old(lastCull)), rates, elapsed, best, candidate, culled, byAddr, now)
    {
      culled, cancels, candidate := CullSlowest(rates, elapsed, best, now);
      JudgesFollow(Record(old(byAddr), old(workers), old(lastCull)), rates, elapsed, best, candidate, culled, cancels,
                   Record(byAddr, workers, lastCull), now);
    }

    method CullSlowest(rates: Rates, elapsed: int, best: Addr, now: int)
      returns (culled: Option<Addr>, cancels: set<nat>, candidate: Option<Addr>)
      requires Valid() && elapsed > 0 && best in rates
      modifies this`byAddr, this`workers, this`lastCull
      ensures Valid()
      ensures Judges(Record(old(byAddr), old(workers), old(lastCull)), rates, elapsed, best, candidate, culled, cancels,
                     Record(byAddr, workers, lastCull), now)
    {
      culled, cancels := None, {};
      candidate := JudgeWindow(rates, elapsed, best);
      if candidate.None? || now - lastCull < CULL_COOLDOWN {
        return;
      }
      var done;
      cancels, done := CullLocked(candidate.value, best, now);
      if done {
        culled := candidate;
      }
    }

    /** The address that a window measures the others by, if the window is fit
        for it. */
    static method ChooseBest(start: Snapshot, end: Snapshot, rampFinished: bool) returns (rates: Rates, best: Option<Addr>)
      ensures IsJudged(start, end, rampFinished, rates, best)
    {
      var stable;
      rates, stable := NodeRates(start, end);
      best := None;
      if rampFinished && stable && |rates| >= 2 {
        best := BestWindowRate(rates, end.at - start.at);
        assert forall a :: Warm(rates, a) <==> a in rates && rates[a].bytes >= 8_388_608;
      }
    }

    /** evaluateWindow. `culled` is the address struck, if any; its workers in
        mid-attempt are the cancels. */
    method EvaluateWindow(start: Snapshot, end: Snapshot, rampFinished: bool)
      returns (culled: Option<Addr>, cancels: set<nat>, ghost rates: Rates, ghost best: Option<Addr>, ghost candidate: Option<Addr>)
      requires Valid()
      modifies this`byAddr, this`workers, this`lastCull
      ensures Valid()
      ensures IsJudged(start, end, rampFinished, rates, best)
      ensures best.None? ==> culled.None? && cancels == {} && workers == old(workers) && lastCull == old(lastCull)
      ensures best.None? ==> byAddr == Cleared(old(byAddr), ordered)
      ensures best.Some? ==>
        Judges(Record(old(byAddr), old(workers), old(lastCull)), rates, end.at - start.at, best.value, candidate, culled, cancels,
               Record(byAddr, workers, lastCull), end.at)
      ensures best.Some? ==>
        Follows(Record(old(byAddr), old(workers), old(lastCull)), rates, end.at - start.at, best.value, candidate, culled, byAddr, end.at)
    {
      culled, cancels, candidate := None, {}, None;
      var found, fastest := ChooseBest(start, end, rampFinished);
      rates, best := found, fastest;
      if fastest.None? {
        ResetCullEvidence();
        return;
      }
      var chosen;
      culled, cancels, chosen := JudgeAndCull(found, end.at - start.at, fastest.value, end.at);
      candidate := chosen;
    }

    // ---- attempts and bytes ----

    /** beginAttempt: registers the cancel and consumes the flag in one section;
        a flag that was up cancels the attempt at once. */
    method BeginAttempt(id: nat) returns (rotate: bool)
      requires Valid() && id in workers
      modifies this`workers
      ensures Valid() && rotate == old(workers)[id].rotate
      ensures workers == old(workers)[id := old(workers)[id].(inFlight := true, rotate := false)]
    {
      rotate := workers[id].rotate;
      SetFlags(id, workers[id].(inFlight := true, rotate := false));
    }

    method EndAttempt(id: nat)
      requires Valid() && id in workers
      modifies this`workers
      ensures Valid() && workers == old(workers)[id := old(workers)[id].(inFlight := false)]
    {
      SetFlags(id, workers[id].(inFlight := false));
    }

    /** The flag swap at the start of an attempt. */
    method TakeRotate(id: nat) returns (rotate: bool)
      requires Valid() && id in workers
      modifies this`workers
      ensures Valid() && rotate == old(workers)[id].rotate
      ensures workers == old(workers)[id := old(workers)[id].(rotate := false)]
    {
      rotate := workers[id].rotate;
      SetFlags(id, workers[id].(rotate := false));
    }

    /** Bytes read while `generation` was the worker's connection; a read that a
        move overtook is credited to nobody. */
    method CreditBytes(id: nat, generation: nat, n: nat)
      requires Valid() && id in workers
      modifies this`workers
      ensures Valid()
      ensures workers ==
        if old(workers)[id].counting && old(workers)[id].generation == generation
        then old(workers)[id := old(workers)[id].(bytes := old(workers)[id].bytes + n)] else old(workers)
    {
      var w := workers[id];
      if w.counting && w.generation == generation {
        SetFlags(id, w.(bytes := w.bytes + n));
      }
    }

    method Close()
      requires Valid()
      modifies this`closed
      ensures Valid() && closed
    {
      closed := true;
    }
  }

  /** Whether a window is judged at all: probing is over, it is stable, two
      addresses were in use and one of them got eight mebibytes or more; best is
      then the fastest of those. */
  ghost predicate IsJudged(start: Snapshot, end: Snapshot, rampFinished: bool, rates: Rates, best: Option<Addr>) {
    && (Stable(start, end) ==> Describes(start, end, end.workers.Keys, rates, Above(end.workers.Keys)))
    && var usable := rampFinished && Stable(start, end) && |rates| >= 2;
       if best.Some? then
         && usable && best.value in rates && rates[best.value].bytes >= 8_388_608
         && rates[best.value].PerConn(end.at - start.at) > 0.0
         && forall a :: a in rates && rates[a].bytes >= 8_388_608 ==>
              rates[a].PerConn(end.at - start.at) <= rates[best.value].PerConn(end.at - start.at)
       else usable ==> forall a :: a in rates && rates[a].bytes >= 8_388_608 ==> rates[a].PerConn(end.at - start.at) <= 0.0
  }

  /** What a judged window does: every record but the best address's is judged;
      the slowest of the condemned is struck exactly if the last cull is long
      enough ago and its work can move; its workers are then told to move, and
      those in mid-attempt cancelled. */
  ghost predicate Judges(r: Record, rates: Rates, elapsed: int, best: Addr, candidate: Option<Addr>,
                         culled: Option<Addr>, cancels: set<nat>, r': Record, now: int)
    requires elapsed > 0 && best in rates
  {
    var judged := Judged(r.pool, rates, elapsed, best, rates.Keys);
    && SlowestIn(r.pool, rates, elapsed, best, rates.Keys, candidate)
    && (if candidate.Some? && now - r.lastCull >= CULL_COOLDOWN && HasAlternative(judged, candidate.value, best, now) then
          && culled == candidate && cancels == Cancelled(r.workers, candidate.value)
          && r' == Record(judged[candidate.value := Struck(judged[candidate.value], now)], Rotated(r.workers, candidate.value), now)
        else
          culled.None? && cancels == {} && r' == r.(pool := judged))
  }

  /** Slower than a quarter of the best address, not only draining tails, and
      slow before without a better window since. */
  predicate SlowAgain(pool: Pool, rates: Rates, elapsed: int, best: Addr, a: Addr)
    requires elapsed > 0 && best in rates
  {
    && a in pool && a in rates && a != best
    && 4.0 * rates[a].PerConn(elapsed) < rates[best].PerConn(elapsed)
    && !rates[a].tailsOnly && pool[a].belowSample >= 1
  }

  /** The best address can take over: connected to, never struck, not parked. */
  predicate CanTakeOver(pool: Pool, best: Addr, now: int) {
    best in pool && pool[best].conns != 0 && pool[best].slowStrikes == 0 && now >= pool[best].unavailableUntil
  }

  /** One strike more and no evidence; parked after the first strike, and for
      good after the second. */
  predicate StruckFollows(n: Node, n': Node, now: int) {
    && n'.slowStrikes == n.slowStrikes + 1
    && n' == n.(slowStrikes := n'.slowStrikes, belowSample := 0, healthySample := 0, unavailableUntil := n'.unavailableUntil)
    && (n'.slowStrikes >= 2 || n'.unavailableUntil == now + CULL_COOLDOWN)
  }

  /** So it is not given out again before the cooldown is over, and never after a
      second strike. */
  lemma StruckIsAvoided(n: Node, n': Node, now: int, t: int)
    requires StruckFollows(n, n', now)
    ensures Eligible(n', t) <==> n.slowStrikes == 0 && t >= now + CULL_COOLDOWN
  {
  }

  /** What a judged window does, in numbers. */
  ghost predicate Follows(r: Record, rates: Rates, elapsed: int, best: Addr, candidate: Option<Addr>, culled: Option<Addr>,
                          pool': Pool, now: int)
    requires elapsed > 0 && best in rates
  {
    && pool'.Keys == r.pool.Keys
    && (candidate.None? ==> forall a :: !SlowAgain(r.pool, rates, elapsed, best, a))
    && (candidate.Some? ==>
          && SlowAgain(r.pool, rates, elapsed, best, candidate.value)
          && forall a :: SlowAgain(r.pool, rates, elapsed, best, a) ==>
               rates[candidate.value].PerConn(elapsed) <= rates[a].PerConn(elapsed))
    && (culled.Some? ==> culled == candidate)
    && (culled.Some? <==>
          && candidate.Some? && now - r.lastCull >= CULL_COOLDOWN
          && r.pool[candidate.value].conns != 0 && CanTakeOver(r.pool, best, now))
    && (forall a :: a in r.pool ==> RecordAfter(r.pool, rates, elapsed, best, culled, a, pool'[a], now))
  }

  predicate RecordAfter(pool: Pool, rates: Rates, elapsed: int, best: Addr, culled: Option<Addr>, a: Addr, n': Node, now: int)
    requires elapsed > 0 && best in rates && a in pool
  {
    if culled == Some(a) then StruckFollows(pool[a], n', now)
    else if a in rates && a != best then
      RecordFollows(pool[a], rates[a].PerConn(elapsed), rates[best].PerConn(elapsed), rates[a].tailsOnly, n',
                    SlowAgain(pool, rates, elapsed, best, a))
    else n' == pool[a]
  }

  lemma JudgesFollow(r: Record, rates: Rates, elapsed: int, best: Addr, candidate: Option<Addr>,
                     culled: Option<Addr>, cancels: set<nat>, r': Record, now: int)
    requires elapsed > 0 && best in rates
    requires Judges(r, rates, elapsed, best, candidate, culled, cancels, r', now)
    ensures Follows(r, rates, elapsed, best, candidate, culled, r'.pool, now)
  {
    forall a ensures SlowAgain(r.pool, rates, elapsed, best, a) <==> Condemned(r.pool, rates, elapsed, best, a) {
      CondemnedIs(r.pool, rates, elapsed, best, a);
    }
    var judged := Judged(r.pool, rates, elapsed, best, rates.Keys);
    forall a | a in r.pool ensures RecordAfter(r.pool, rates, elapsed, best, culled, a, r'.pool[a], now) {
      JudgedFollows(r.pool, rates, elapsed, best, a);
      CondemnedIs(r.pool, rates, elapsed, best, a);
    }
  }

  lemma CondemnedIs(pool: Pool, rates: Rates, elapsed: int, best: Addr, a: Addr)
    requires elapsed > 0 && best in rates
    ensures SlowAgain(pool, rates, elapsed, best, a) <==> Condemned(pool, rates, elapsed, best, a)
  {
    if a in pool && a in rates && a != best {
      JudgeFollows(pool[a], rates[a].PerConn(elapsed), rates[best].PerConn(elapsed), rates[a].tailsOnly);
    }
  }

  /** Judging keeps what makes a placement valid. */
  lemma JudgedKeeps(pool: Pool, judged: Pool, ordered: seq<Addr>, ws: Workers, at: Addr, rates: Rates, elapsed: int, best: Addr)
    requires elapsed > 0 && best in rates && judged == Judged(pool, rates, elapsed, best, rates.Keys)
    requires Accounted(pool, ws, at) && Listed(pool, ordered) && SomeUnstruck(pool)
    ensures Accounted(judged, ws, at) && Listed(judged, ordered) && SomeUnstruck(judged) && judged.Keys == pool.Keys
  {
    SameCounts(pool, judged, ordered, ws, at);
    JudgedUnstruck(pool, rates, elapsed, best, rates.Keys);
  }

  lemma JudgedFollows(pool: Pool, rates: Rates, elapsed: int, best: Addr, a: Addr)
    requires elapsed > 0 && best in rates && a in pool
    ensures RecordAfter(pool, rates, elapsed, best, None, a, Judged(pool, rates, elapsed, best, rates.Keys)[a], 0)
  {
    if a in rates && a != best {
      JudgeFollows(pool[a], rates[a].PerConn(elapsed), rates[best].PerConn(elapsed), rates[a].tailsOnly);
      CondemnedIs(pool, rates, elapsed, best, a);
    }
  }

  /** A judged window does no more than it may. */
  lemma JudgesWithinLimits(r: Record, rates: Rates, elapsed: int, best: Addr, candidate: Option<Addr>,
                           culled: Option<Addr>, cancels: set<nat>, r': Record, now: int)
    requires elapsed > 0 && best in rates
    requires Judges(r, rates, elapsed, best, candidate, culled, cancels, r', now)
    ensures WindowEffect(r, culled, cancels, r', now)
  {
    var judged := Judged(r.pool, rates, elapsed, best, rates.Keys);
    JudgedStrikes(r.pool, rates, elapsed, best, rates.Keys);
    if culled.Some? { CullIsWell(r.pool, judged, rates, elapsed, best, culled.value, now); }
  }

  datatype Record = Record(pool: Pool, workers: Workers, lastCull: int)

  /** What one window may do: nothing but lower strikes, or, once the last cull
      is long enough ago, one more strike for one address that has an
      alternative, whose workers are then all told to move and, those in
      mid-attempt, cancelled. */
  ghost predicate WindowEffect(r: Record, culled: Option<Addr>, cancels: set<nat>, r': Record, now: int) {
    && r'.pool.Keys == r.pool.Keys
    && if culled.None? then
         r'.workers == r.workers && cancels == {} && r'.lastCull == r.lastCull && NoNewStrike(r.pool, r'.pool, NO_ADDR)
       else
         && now - r.lastCull >= CULL_COOLDOWN && r'.lastCull == now
         && CulledWell(r.pool, r'.pool, culled.value, now) && NoNewStrike(r.pool, r'.pool, culled.value)
         && r'.workers == Rotated(r.workers, culled.value)
         && cancels == Cancelled(r.workers, culled.value)
  }

  function Cancelled(ws: Workers, a: Addr): set<nat> { set id | id in ws && ws[id].addr == a && ws[id].inFlight }

  /** Judging one more address. */
  lemma JudgedNext(pool: Pool, rates: Rates, elapsed: int, best: Addr, seen: set<Addr>, a: Addr)
    requires elapsed > 0 && best in rates && a in pool && a in rates && a != best && a !in seen
    ensures var healthy := Healthy(rates[a].PerConn(elapsed), rates[best].PerConn(elapsed));
      Judged(pool, rates, elapsed, best, seen + {a}) ==
        Judged(pool, rates, elapsed, best, seen)[a := Judge(pool[a], healthy, rates[a].tailsOnly).0]
  {
  }

  lemma JudgedStrikes(pool: Pool, rates: Rates, elapsed: int, best: Addr, seen: set<Addr>)
    requires elapsed > 0 && best in rates
    ensures NoNewStrike(pool, Judged(pool, rates, elapsed, best, seen), NO_ADDR)
    ensures Judged(pool, rates, elapsed, best, seen).Keys == pool.Keys
  {
  }

  lemma CullIsWell(pool: Pool, judged: Pool, rates: Rates, elapsed: int, best: Addr, a: Addr, now: int)
    requires elapsed > 0 && best in rates && judged == Judged(pool, rates, elapsed, best, rates.Keys)
    requires Condemned(pool, rates, elapsed, best, a) && HasAlternative(judged, a, best, now)
    ensures var culled := judged[a := Struck(judged[a], now)];
      CulledWell(pool, culled, a, now) && NoNewStrike(pool, culled, a) && culled.Keys == pool.Keys
  {
    JudgedStrikes(pool, rates, elapsed, best, rates.Keys);
    var culled := judged[a := Struck(judged[a], now)];
    assert judged[a].slowStrikes == pool[a].slowStrikes && judged[a].conns == pool[a].conns;
    assert HasAlternative(culled, a, best, now);
  }

  /** Nobody but `except` has more strikes than before. */
  predicate NoNewStrike(pool: Pool, pool': Pool, except: Addr) {
    forall a :: a in pool && a in pool' && a != except ==> pool'[a].slowStrikes <= pool[a].slowStrikes
  }

  /** a got one strike, had been slow before, and another address without any
      is live and eligible. */
  ghost predicate CulledWell(pool: Pool, pool': Pool, a: Addr, now: int) {
    && a in pool && a in pool' && pool'[a].slowStrikes == pool[a].slowStrikes + 1
    && pool[a].belowSample + 1 >= CULL_EVALUATIONS && pool[a].conns != 0
    && exists b :: HasAlternative(pool', a, b, now)
  }

  /** s shows a membership the placement had at that generation. */
  predicate TakenFrom(past: map<nat, Members>, s: Snapshot) {
    && s.membershipGen in past
    && forall id :: id in s.workers ==>
         id in past[s.membershipGen] && past[s.membershipGen][id] == (s.workers[id].addr, s.workers[id].generation)
  }

  /** Two snapshots of one placement with the same generation show every worker
      on the same connection, however far apart they were taken. */
  lemma SameGenerationSameConnections(past: map<nat, Members>, start: Snapshot, past': map<nat, Members>, end: Snapshot)
    requires TakenFrom(past, start) && Remembers(past, past') && TakenFrom(past', end)
    requires start.membershipGen == end.membershipGen
    ensures forall id :: id in start.workers && id in end.workers ==>
      start.workers[id].addr == end.workers[id].addr && start.workers[id].generation == end.workers[id].generation
  {
    forall id | id in start.workers && id in end.workers
      ensures past[start.membershipGen][id] == past'[end.membershipGen][id] {}
  }

  /** What was recorded stays recorded. */
  ghost predicate Remembers(past: map<nat, Members>, past': map<nat, Members>) {
    forall g :: g in past ==> g in past' && past'[g] == past[g]
  }

  /** The worker record after its connection moved to addr. */
  function Next(w: Placed, addr: Addr): Placed {
    w.(addr := addr, generation := w.generation + 1, counting := addr != NO_ADDR, bytes := 0)
  }

  function Joined(ws: Workers, id: nat): Workers { if id in ws then ws else ws[id := NEWCOMER] }

  /** Nobody but id is touched. */
  predicate OnlyWorker(ws: Workers, ws': Workers, id: nat) { ws' - {id} == ws - {id} }

  function Reassigned(ws: Workers, id: nat, addr: Addr, forceGeneration: bool): Workers
    requires id in ws
  {
    if ws[id].addr == addr && !forceGeneration then ws else ws[id := Next(ws[id], addr)]
  }

  /** Only id moves; a new connection starts from nothing, under a new generation,
      and is counted exactly if it is on an address. */
  lemma ReassignedIs(ws: Workers, id: nat, addr: Addr, forceGeneration: bool)
    requires id in ws
    ensures var ws' := Reassigned(ws, id, addr, forceGeneration);
      && id in ws' && ws'[id].addr == addr && OnlyWorker(ws, ws', id)
      && (addr != ws[id].addr || forceGeneration ==>
            ws'[id].generation == ws[id].generation + 1 && ws'[id].bytes == 0 && (ws'[id].counting <==> addr != NO_ADDR))
      && (addr == ws[id].addr && !forceGeneration ==> ws' == ws)
  {
  }

  /** What a reservation by a worker in state w may answer. */
  predicate Reserved(pool: Pool, ordered: seq<Addr>, w: Placed, now: int, r: Option<Addr>) {
    if w.addr != NO_ADDR then r == Some(w.addr)
    else if NoneSelectable(pool, ordered, w.avoidNext, now) then
      if NoneSelectable(pool, ordered, NO_ADDR, now) then r == None
      else r.Some? && Best(pool, ordered, NO_ADDR, now, r.value)
    else r.Some? && Best(pool, ordered, w.avoidNext, now, r.value)
  }

  /** A reservation keeps an address that is held; else it answers a best free one
      other than the avoided one, the avoided one when it is the only free one,
      and nothing exactly when none is free. */
  lemma ReservedIs(pool: Pool, ordered: seq<Addr>, w: Placed, now: int, r: Option<Addr>)
    requires Listed(pool, ordered) && Reserved(pool, ordered, w, now, r) && w.addr == NO_ADDR
    ensures r.None? <==> forall j :: 0 <= j < |ordered| ==> !Free(pool, ordered[j], NO_ADDR, now)
    ensures r.Some? ==> r.value in ordered && Free(pool, r.value, NO_ADDR, now)
    ensures r.Some? && r.value == w.avoidNext ==>
      forall j :: 0 <= j < |ordered| && Free(pool, ordered[j], NO_ADDR, now) ==> ordered[j] == w.avoidNext
    ensures r.Some? && r.value != w.avoidNext ==>
      forall j :: 0 <= j < |ordered| && Free(pool, ordered[j], NO_ADDR, now) && ordered[j] != w.avoidNext ==>
        pool[r.value].conns <= pool[ordered[j]].conns
  {
    forall a ensures Free(pool, a, NO_ADDR, now) <==> Selectable(pool, a, NO_ADDR, now) {}
    forall a ensures Selectable(pool, a, w.avoidNext, now) <==> Selectable(pool, a, NO_ADDR, now) && a != w.avoidNext {}
  }

  lemma BumpsKeep(pool: Pool, ordered: seq<Addr>, a: Addr, b: Addr)
    requires Listed(pool, ordered) && SomeUnstruck(pool)
    ensures var p := Bump(Bump(pool, a, -1), b, 1); Listed(p, ordered) && SomeUnstruck(p) && p.Keys == pool.Keys
    ensures var p := Bump(pool, a, -1); Listed(p, ordered) && SomeUnstruck(p) && p.Keys == pool.Keys
  {
    var c :| c in pool && pool[c].slowStrikes == 0;
    assert Bump(pool, a, -1)[c].slowStrikes == 0;
    assert Bump(Bump(pool, a, -1), b, 1)[c].slowStrikes == 0;
  }

  lemma HandedOver(pool: Pool, a: Addr)
    requires a in pool && NO_ADDR !in pool
    ensures Bump(Bump(Bump(pool, a, -1), NO_ADDR, -1), a, 1) == pool
  {
  }

  lemma SameStrikes(pool: Pool, pool': Pool)
    requires SomeUnstruck(pool) && pool'.Keys == pool.Keys
    requires forall a :: a in pool ==> pool'[a].slowStrikes == pool[a].slowStrikes
    ensures SomeUnstruck(pool')
  {
    var c :| c in pool && pool[c].slowStrikes == 0;
    assert c in pool';
  }

  lemma InstalledKeeps(pool: Pool, addrs: seq<Addr>)
    requires NoDup(addrs) && NO_ADDR !in addrs && NO_ADDR !in pool && SomeUnstruck(pool)
    ensures var p := Installed(pool, addrs); Listed(p, addrs) && SomeUnstruck(p) && pool.Keys <= p.Keys
  {
    InstalledIs(pool, addrs);
    var p := Installed(pool, addrs);
    var a :| a in pool && pool[a].slowStrikes == 0;
    if a in addrs {
      var i :| 0 <= i < |addrs| && addrs[i] == a;
      assert p[addrs[i]].slowStrikes == 0;
    }
    assert a in p && p[a].slowStrikes == 0;
    forall i | 0 <= i < |addrs| ensures addrs[i] in p && p[addrs[i]].order == i {}
  }

  lemma SameOn(ws: Workers, id: nat, w: Placed)
    requires id in ws && w.addr == ws[id].addr && w.generation == ws[id].generation
    ensures MembersOf(ws[id := w]) == MembersOf(ws) && forall a :: On(ws[id := w], a) == On(ws, a)
  {
    forall a ensures On(ws[id := w], a) == On(ws, a) { }
  }

  lemma ElectionHasConns(pool: Pool, ws: Workers, at: Addr)
    requires Accounted(pool, ws, at) && at in pool && NO_ADDR !in pool
    ensures pool[at].conns > 0 && Accounted(Bump(pool, at, -1), ws, NO_ADDR)
  {
  }

  lemma BestSoFar(pool: Pool, ordered: seq<Addr>, i: nat, exclude: Addr, now: int, chosen: Option<Addr>)
    requires Listed(pool, ordered) && i < |ordered| && Selectable(pool, ordered[i], exclude, now)
    requires chosen.None? ==> NoneSelectable(pool, ordered[..i], exclude, now)
    requires chosen.Some? ==> Best(pool, ordered[..i], exclude, now, chosen.value) && Better(pool[ordered[i]], pool[chosen.value])
    ensures Best(pool, ordered[..i + 1], exclude, now, ordered[i])
  {
    assert ordered[..i + 1] == ordered[..i] + [ordered[i]];
  }
}
