/** The destination lock: one token per canonical path, in an entry that lives
    exactly as long as somebody refers to it. Each method is one atomic step of
    one caller (a section under the registry's mutex or one channel operation),
    so a sequence of calls is an interleaving of any number of callers. */
module PathLock {
  import opened Intervals

  class PathLockEntry {
    const key: string
    /** What the one-slot channel holds. */
    var tokens: nat
    var refs: int

    constructor (key: string)
      ensures this.key == key && tokens == 1 && refs == 0
    {
      this.key, tokens, refs := key, 1, 0;
    }
  }

  const CAPACITY := 1

  /** Where a caller is between the steps of acquire, try-acquire and unlock. */
  datatype Pc =
    | Waiting(entry: PathLockEntry)
    | Took(entry: PathLockEntry)
    | Holding(entry: PathLockEntry)
    | Dropping(entry: PathLockEntry)
  {
    predicate HasToken() { Took? || Holding? }
  }

  type Callers = map<nat, Pc>

  /** The callers that hold a reference to e. */
  ghost function Referring(callers: Callers, e: PathLockEntry): set<nat> {
    set c | c in callers && callers[c].entry == e
  }

  /** The callers that hold e's token. */
  ghost function Owning(callers: Callers, e: PathLockEntry): set<nat> {
    set c | c in callers && callers[c].entry == e && callers[c].HasToken()
  }

  class PathLockRegistry {
    var locks: map<string, PathLockEntry>
    /** Every entry ever made, and every caller that is not outside. */
    ghost var entries: set<PathLockEntry>
    ghost var callers: Callers

    ghost predicate CountsOk()
      reads this, entries
    {
      forall e :: e in entries ==>
        e.refs == |Referring(callers, e)| && e.tokens + |Owning(callers, e)| == CAPACITY
    }

    /** An entry is registered, under its key, exactly while it is referred to. */
    ghost predicate LocksOk()
      reads this, entries
    {
      && (forall k :: k in locks ==> locks[k] in entries && locks[k].key == k && locks[k].refs > 0)
      && (forall e :: e in entries && e.refs > 0 ==> e.key in locks && locks[e.key] == e)
    }

    ghost predicate Valid()
      reads this, entries
    {
      CountsOk() && LocksOk() && forall c :: c in callers ==> callers[c].entry in entries
    }

    constructor ()
      ensures Valid() && locks == map[] && callers == map[] && entries == {}
    {
      locks, entries, callers := map[], {}, map[];
    }

    /** Valid, but for the references to an entry that was just looked up. */
    ghost predicate LookedUp(entry: PathLockEntry)
      reads this, entries
    {
      && entry in entries && entry.key in locks && locks[entry.key] == entry && CountsOk()
      && (forall k :: k in locks ==> locks[k] in entries && locks[k].key == k && (locks[k] != entry ==> locks[k].refs > 0))
      && (forall e :: e in entries && e.refs > 0 ==> e.key in locks && locks[e.key] == e)
      && (forall c :: c in callers ==> callers[c].entry in entries)
    }

    method Lookup(key: string) returns (entry: PathLockEntry)
      requires Valid()
      modifies this`locks, this`entries
      ensures LookedUp(entry) && entry.key == key && locks == old(locks)[key := entry]
      ensures entries == old(entries) + {entry} && (entry in old(entries) || fresh(entry))
      ensures key in old(locks) ==> entry == old(locks)[key]
    {
      if key in locks {
        entry := locks[key];
      } else {
        entry := new PathLockEntry(key);
        NobodyRefers(callers, entries, entry);
        entries := entries + {entry};
        locks := locks[key := entry];
      }
    }

    /** refDestination, once the path is canonical. */
    method RefDestination(ghost c: nat, key: string) returns (entry: PathLockEntry)
      requires Valid() && c !in callers
      modifies this`locks, this`entries, this`callers, entries`refs
      ensures Valid() && callers == old(callers)[c := Waiting(entry)]
      ensures entry.key == key && locks == old(locks)[key := entry]
      ensures key in old(locks) ==> entry == old(locks)[key]
      ensures entries == old(entries) + {entry} && (entry in old(entries) || fresh(entry))
    {
      entry := Lookup(key);
      Refer(c, entry);
    }

    method Refer(ghost c: nat, entry: PathLockEntry)
      requires LookedUp(entry) && c !in callers
      modifies this`callers, entry`refs
      ensures Valid() && callers == old(callers)[c := Waiting(entry)]
    {
      ghost var before := callers;
      entry.refs := entry.refs + 1;
      callers := callers[c := Waiting(entry)];
      forall e | e in entries
        ensures |Referring(callers, e)| == |Referring(before, e)| + (if e == entry then 1 else 0)
        ensures Owning(callers, e) == Owning(before, e)
      {
        CallerJoins(before, c, Waiting(entry), e);
      }
    }

    /** The select takes the token. */
    method Receive(ghost c: nat, entry: PathLockEntry)
      requires Valid() && c in callers && callers[c] == Waiting(entry) && entry.tokens > 0
      modifies this`callers, entry`tokens
      ensures Valid() && callers == old(callers)[c := Took(entry)] && entry.tokens == old(entry.tokens) - 1
    {
      ghost var before := callers;
      entry.tokens := entry.tokens - 1;
      callers := callers[c := Took(entry)];
      Moves(before, c, Took(entry), entries);
    }

    /** The select sees the context done, or, in the try form, no token. */
    method GiveUp(ghost c: nat, ghost entry: PathLockEntry)
      requires Valid() && c in callers && callers[c] == Waiting(entry)
      modifies this`callers
      ensures Valid() && callers == old(callers)[c := Dropping(entry)]
    {
      ghost var before := callers;
      callers := callers[c := Dropping(entry)];
      Moves(before, c, Dropping(entry), entries);
    }

    /** The context is still alive after the token was taken. */
    method Keep(ghost c: nat, ghost entry: PathLockEntry)
      requires Valid() && c in callers && callers[c] == Took(entry)
      modifies this`callers
      ensures Valid() && callers == old(callers)[c := Holding(entry)]
    {
      ghost var before := callers;
      callers := callers[c := Holding(entry)];
      Moves(before, c, Holding(entry), entries);
    }

    /** Sends the token back, after a cancellation or by unlock. The send never
        blocks: the channel has room. */
    method Return(ghost c: nat, entry: PathLockEntry)
      requires Valid() && c in callers && (callers[c] == Took(entry) || callers[c] == Holding(entry))
      modifies this`callers, entry`tokens
      ensures old(entry.tokens) < CAPACITY
      ensures Valid() && callers == old(callers)[c := Dropping(entry)] && entry.tokens == CAPACITY
    {
      ghost var before := callers;
      assert c in Owning(before, entry);
      assert |Owning(before, entry)| > 0;
      entry.tokens := entry.tokens + 1;
      callers := callers[c := Dropping(entry)];
      Moves(before, c, Dropping(entry), entries);
    }

    /** The entry goes with its last reference. */
    method ReleaseDestinationRef(ghost c: nat, entry: PathLockEntry)
      requires Valid() && c in callers && callers[c] == Dropping(entry)
      modifies this`locks, this`callers, entry`refs
      ensures Valid() && callers == old(callers) - {c} && entries == old(entries)
      ensures entry.refs == old(entry.refs) - 1 >= 0
      ensures locks == if entry.refs == 0 then old(locks) - {entry.key} else old(locks)
    {
      DropRef(c, entry);
      Forget(entry);
    }

    /** An entry nobody refers to any more goes. */
    method Forget(entry: PathLockEntry)
      requires LookedUp(entry)
      modifies this`locks
      ensures Valid() && locks == if entry.refs == 0 then old(locks) - {entry.key} else old(locks)
    {
      if entry.refs == 0 && entry.key in locks && locks[entry.key] == entry {
        locks := locks - {entry.key};
      }
    }

    method DropRef(ghost c: nat, entry: PathLockEntry)
      requires Valid() && c in callers && callers[c] == Dropping(entry)
      modifies this`callers, entry`refs
      ensures LookedUp(entry) && callers == old(callers) - {c} && entry.refs == old(entry.refs) - 1 >= 0
    {
      ghost var before := callers;
      entry.refs := entry.refs - 1;
      callers := callers - {c};
      Leaves(before, c, entries);
    }

    // ---- what every reachable state satisfies ----

    /** At most one caller is in possession of a destination, even if the entry
        for it was dropped and made again meanwhile. */
    lemma OneHolderPerKey(c: nat, d: nat)
      requires Valid() && c in callers && d in callers
      requires callers[c].HasToken() && callers[d].HasToken() && callers[c].entry.key == callers[d].entry.key
      ensures c == d
    {
      var e := callers[c].entry;
      assert c in Referring(callers, e) && d in Referring(callers, callers[d].entry);
      assert e == callers[d].entry;
      var owners := Owning(callers, e);
      assert {c, d} <= owners;
      if c != d { SubsetSize({c, d}, owners); }
    }

    /** The guard in the release section never fails for the last reference. */
    lemma ReferredIsRegistered(c: nat)
      requires Valid() && c in callers
      ensures var e := callers[c].entry; e.refs > 0 && e.key in locks && locks[e.key] == e
    {
      assert c in Referring(callers, callers[c].entry);
    }

    /** A destination nobody possesses can be taken: no cancellation loses the
        token. */
    lemma TokenIsAvailable(c: nat)
      requires Valid() && c in callers
      ensures callers[c].entry.tokens == 1 <==>
        forall d :: d in callers && callers[d].entry == callers[c].entry ==> !callers[d].HasToken()
    {
      var e := callers[c].entry;
      if e.tokens == 1 {
        assert |Owning(callers, e)| == 0;
        forall d | d in callers && callers[d].entry == e ensures !callers[d].HasToken() {
          assert d !in Owning(callers, e);
        }
      } else {
        var d :| d in Owning(callers, e);
      }
    }

    /** When every caller is gone no entry is left. */
    lemma NothingAccumulates()
      requires Valid() && callers == map[]
      ensures locks == map[]
    {
      forall e | e in entries ensures e.refs == 0 { assert Referring(callers, e) == {}; }
    }
  }

  lemma NobodyRefers(callers: Callers, entries: set<PathLockEntry>, e: PathLockEntry)
    requires e !in entries && forall c :: c in callers ==> callers[c].entry in entries
    ensures Referring(callers, e) == {} && Owning(callers, e) == {}
  {
  }

  lemma CallerJoins(callers: Callers, c: nat, pc: Pc, e: PathLockEntry)
    requires c !in callers && !pc.HasToken()
    ensures |Referring(callers[c := pc], e)| == |Referring(callers, e)| + (if e == pc.entry then 1 else 0)
    ensures Owning(callers[c := pc], e) == Owning(callers, e)
  {
    if e == pc.entry {
      assert Referring(callers[c := pc], e) == Referring(callers, e) + {c};
    } else {
      assert Referring(callers[c := pc], e) == Referring(callers, e);
    }
  }

  lemma CallerLeaves(callers: Callers, c: nat, e: PathLockEntry)
    requires c in callers && !callers[c].HasToken()
    ensures |Referring(callers - {c}, e)| == |Referring(callers, e)| - (if e == callers[c].entry then 1 else 0)
    ensures Owning(callers - {c}, e) == Owning(callers, e)
  {
    if e == callers[c].entry {
      assert Referring(callers - {c}, e) == Referring(callers, e) - {c};
      assert c in Referring(callers, e);
    } else {
      assert Referring(callers - {c}, e) == Referring(callers, e);
    }
  }

  lemma Leaves(callers: Callers, c: nat, entries: set<PathLockEntry>)
    requires c in callers && !callers[c].HasToken()
    ensures forall e :: e in entries ==>
      |Referring(callers - {c}, e)| == |Referring(callers, e)| - if e == callers[c].entry then 1 else 0
    ensures forall e :: e in entries ==> Owning(callers - {c}, e) == Owning(callers, e)
  {
    forall e | e in entries
      ensures |Referring(callers - {c}, e)| == |Referring(callers, e)| - (if e == callers[c].entry then 1 else 0)
      ensures Owning(callers - {c}, e) == Owning(callers, e)
    {
      CallerLeaves(callers, c, e);
    }
  }

  function Has(pc: Pc): int { if pc.HasToken() then 1 else 0 }

  /** A caller that moves on keeps its reference; the token count follows it. */
  lemma CallerMoves(callers: Callers, c: nat, pc: Pc, e: PathLockEntry)
    requires c in callers && callers[c].entry == pc.entry
    ensures Referring(callers[c := pc], e) == Referring(callers, e)
    ensures |Owning(callers[c := pc], e)| ==
      |Owning(callers, e)| + if e == pc.entry then Has(pc) - Has(callers[c]) else 0
  {
    OwningMoves(callers, c, pc, e);
    var before := Owning(callers, e);
    assert c in before <==> e == pc.entry && callers[c].HasToken();
    WithAndWithout(before, c);
  }

  lemma OwningMoves(callers: Callers, c: nat, pc: Pc, e: PathLockEntry)
    requires c in callers && callers[c].entry == pc.entry
    ensures Owning(callers[c := pc], e) ==
      if e == pc.entry && pc.HasToken() then Owning(callers, e) + {c} else Owning(callers, e) - {c}
  {
    forall d | d != c ensures d in Owning(callers[c := pc], e) <==> d in Owning(callers, e) {
      assert d in callers[c := pc] <==> d in callers;
    }
    assert c in Owning(callers[c := pc], e) <==> e == pc.entry && pc.HasToken();
  }

  lemma Moves(callers: Callers, c: nat, pc: Pc, entries: set<PathLockEntry>)
    requires c in callers && callers[c].entry == pc.entry
    ensures forall e :: e in entries ==> Referring(callers[c := pc], e) == Referring(callers, e)
    ensures forall e :: e in entries ==>
      |Owning(callers[c := pc], e)| == |Owning(callers, e)| + if e == pc.entry then Has(pc) - Has(callers[c]) else 0
  {
    forall e | e in entries
      ensures Referring(callers[c := pc], e) == Referring(callers, e)
      ensures |Owning(callers[c := pc], e)| == |Owning(callers, e)| + if e == pc.entry then Has(pc) - Has(callers[c]) else 0
    {
      CallerMoves(callers, c, pc, e);
    }
  }
}
