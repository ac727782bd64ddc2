/** What an address's record says about the windows it went through. */
module CullHistory {
  import opened Wrappers
  import opened Placement
  import opened Culling
  import N = NodePlacements

  /** What can happen to an address's record: a window in which it was judged,
      with its connections then; a window in which it was the fastest; a window
      that could not be used; a cull; or any section that leaves the evidence. */
  datatype Happening =
    | Judged(rate: real, best: real, tailsOnly: bool, conns: int)
    | Fastest
    | Unusable
    | Culled(now: int)
    | Other

  predicate IsSlow(h: Happening) { h.Judged? && 4.0 * h.rate < h.best && !h.tailsOnly }

  predicate SameEvidence(n: Node, n': Node) {
    n'.slowStrikes == n.slowStrikes && n'.belowSample == n.belowSample && n'.healthySample == n.healthySample
  }

  ghost predicate Happens(n: Node, h: Happening, n': Node) {
    match h
    case Judged(rate, best, tailsOnly, conns) =>
      n.conns == conns && exists condemned :: RecordFollows(n, rate, best, tailsOnly, n', condemned)
    case Unusable => n'.slowStrikes == n.slowStrikes && n'.belowSample == 0 && n'.healthySample == 0
    case Culled(now) => SameEvidence(Struck(n, now), n')
    case _ => SameEvidence(n, n')
  }

  ghost predicate HappensAt(ns: seq<Node>, hs: seq<Happening>, i: nat)
    requires i < |hs| && i + 1 < |ns|
  {
    Happens(ns[i], hs[i], ns[i + 1])
  }

  /** The life of one address's record, from when it was made. */
  ghost predicate Life(ns: seq<Node>, hs: seq<Happening>) {
    && |ns| == |hs| + 1 && ns[0].slowStrikes == ns[0].belowSample == ns[0].healthySample == 0
    && forall i {:trigger HappensAt(ns, hs, i)} :: 0 <= i < |hs| ==> HappensAt(ns, hs, i)
  }

  // ---- slow windows ----

  /** The evidence stands through this. */
  predicate Neutral(h: Happening) { h.Fastest? || h.Other? }

  /** Slow at j, and nothing since that speaks for the address. */
  predicate SlowSince(hs: seq<Happening>, j: nat, i: nat)
    requires j < i <= |hs|
  {
    IsSlow(hs[j]) && forall k :: j < k < i ==> Neutral(hs[k]) || IsSlow(hs[k])
  }

  ghost predicate SlowBefore(hs: seq<Happening>, i: nat)
    requires i <= |hs|
  {
    exists j :: 0 <= j < i && SlowSince(hs, j, i)
  }

  lemma {:induction false} BelowMeansSlow(ns: seq<Node>, hs: seq<Happening>, i: nat)
    requires Life(ns, hs) && i <= |hs|
    ensures ns[i].belowSample >= 1 <==> SlowBefore(hs, i)
  {
    if i > 0 {
      BelowMeansSlow(ns, hs, i - 1);
      assert HappensAt(ns, hs, i - 1);
      SlowOneMore(hs, i - 1);
    }
  }

  lemma SlowOneMore(hs: seq<Happening>, i: nat)
    requires i < |hs|
    ensures SlowBefore(hs, i + 1) <==> IsSlow(hs[i]) || (Neutral(hs[i]) && SlowBefore(hs, i))
  {
    if IsSlow(hs[i]) { assert SlowSince(hs, i, i + 1); }
    if Neutral(hs[i]) && SlowBefore(hs, i) {
      var j :| 0 <= j < i && SlowSince(hs, j, i);
      assert SlowSince(hs, j, i + 1);
    }
    if SlowBefore(hs, i + 1) && !IsSlow(hs[i]) {
      var j :| 0 <= j < i + 1 && SlowSince(hs, j, i + 1);
      assert SlowSince(hs, j, i);
    }
  }

  /** An address is condemned exactly by a slow window after another slow one
      with no window in between that it came through well, that could not be used
      or in which it was culled. Windows in which it was the fastest do not count
      either way. */
  lemma CondemnedExactly(ns: seq<Node>, hs: seq<Happening>, i: nat, condemned: bool)
    requires Life(ns, hs) && i < |hs| && hs[i].Judged?
    requires RecordFollows(ns[i], hs[i].rate, hs[i].best, hs[i].tailsOnly, ns[i + 1], condemned)
    ensures condemned <==> IsSlow(hs[i]) && SlowBefore(hs, i)
  {
    BelowMeansSlow(ns, hs, i);
  }

  // ---- restoration ----

  /** Judged while it carries its probe. */
  predicate OnProbation(n: Node, h: Happening) { h.Judged? && n.slowStrikes > 0 && n.conns > 0 }

  predicate Fast(h: Happening) { h.Judged? && 4.0 * h.rate >= h.best }

  /** The healthy window is not held against or forgotten. */
  predicate KeepsHealth(n: Node, h: Happening) { Neutral(h) || (h.Judged? && !OnProbation(n, h)) }

  predicate FastSince(ns: seq<Node>, hs: seq<Happening>, j: nat, i: nat)
    requires j < i <= |hs| < |ns|
  {
    OnProbation(ns[j], hs[j]) && Fast(hs[j]) && forall k :: j < k < i ==> KeepsHealth(ns[k], hs[k])
  }

  /** ... and it was the first of its kind. */
  predicate FirstFastSince(ns: seq<Node>, hs: seq<Happening>, j: nat, i: nat)
    requires j < i <= |hs| < |ns|
  {
    FastSince(ns, hs, j, i) && ns[j].healthySample == 0
  }

  ghost predicate FirstFastBefore(ns: seq<Node>, hs: seq<Happening>, i: nat)
    requires i <= |hs| < |ns|
  {
    exists j :: 0 <= j < i && FirstFastSince(ns, hs, j, i)
  }

  ghost predicate FastBefore(ns: seq<Node>, hs: seq<Happening>, i: nat)
    requires i <= |hs| < |ns|
  {
    exists j :: 0 <= j < i && FastSince(ns, hs, j, i)
  }

  lemma FastOneMore(ns: seq<Node>, hs: seq<Happening>, i: nat)
    requires i < |hs| < |ns|
    ensures FirstFastBefore(ns, hs, i + 1) <==>
      || (OnProbation(ns[i], hs[i]) && Fast(hs[i]) && ns[i].healthySample == 0)
      || (KeepsHealth(ns[i], hs[i]) && FirstFastBefore(ns, hs, i))
  {
    if OnProbation(ns[i], hs[i]) && Fast(hs[i]) && ns[i].healthySample == 0 { assert FirstFastSince(ns, hs, i, i + 1); }
    if KeepsHealth(ns[i], hs[i]) && FirstFastBefore(ns, hs, i) {
      var j :| 0 <= j < i && FirstFastSince(ns, hs, j, i);
      assert FirstFastSince(ns, hs, j, i + 1);
    }
    if FirstFastBefore(ns, hs, i + 1) {
      var j :| 0 <= j < i + 1 && FirstFastSince(ns, hs, j, i + 1);
      if j < i { assert FirstFastSince(ns, hs, j, i); }
    }
  }

  lemma {:induction false} HealthMeansFast(ns: seq<Node>, hs: seq<Happening>, i: nat)
    requires Life(ns, hs) && i <= |hs|
    ensures ns[i].healthySample >= 1 <==> FirstFastBefore(ns, hs, i)
  {
    if i > 0 {
      HealthMeansFast(ns, hs, i - 1);
      assert HappensAt(ns, hs, i - 1);
      FastOneMore(ns, hs, i - 1);
    }
  }

  lemma {:induction false} StrikesStay(ns: seq<Node>, hs: seq<Happening>, j: nat, i: nat)
    requires Life(ns, hs) && j <= i <= |hs| && forall k :: j <= k < i ==> KeepsHealth(ns[k], hs[k])
    ensures ns[i].slowStrikes == ns[j].slowStrikes
    decreases i - j
  {
    if j < i {
      assert HappensAt(ns, hs, i - 1) && KeepsHealth(ns[i - 1], hs[i - 1]);
      StrikesStay(ns, hs, j, i - 1);
    }
  }

  /** While an address has strikes, the healthy window before was its first. */
  lemma FirstOrRestored(ns: seq<Node>, hs: seq<Happening>, i: nat)
    requires Life(ns, hs) && i <= |hs| && ns[i].slowStrikes > 0
    ensures FastBefore(ns, hs, i) <==> FirstFastBefore(ns, hs, i)
  {
    if FastBefore(ns, hs, i) {
      var j :| 0 <= j < i && FastSince(ns, hs, j, i);
      if ns[j].healthySample > 0 {
        assert HappensAt(ns, hs, j);
        StrikesStay(ns, hs, j + 1, i);
        assert false;
      }
      assert FirstFastSince(ns, hs, j, i);
    }
    if FirstFastBefore(ns, hs, i) {
      var j :| 0 <= j < i && FirstFastSince(ns, hs, j, i);
      assert FastSince(ns, hs, j, i);
    }
  }

  /** A struck address loses its strikes exactly by a healthy window on probation
      after another one, with none in between on probation that was slow, none
      that could not be used, and no cull. */
  lemma RestoredExactly(ns: seq<Node>, hs: seq<Happening>, i: nat)
    requires Life(ns, hs) && i < |hs| && ns[i].slowStrikes > 0
    ensures ns[i + 1].slowStrikes == 0 <==> OnProbation(ns[i], hs[i]) && Fast(hs[i]) && FastBefore(ns, hs, i)
  {
    HealthMeansFast(ns, hs, i);
    FirstOrRestored(ns, hs, i);
    assert HappensAt(ns, hs, i);
  }

  // ---- what evaluateWindow adds to a life ----

  function JudgedAs(pool: Pool, rates: Rates, elapsed: int, best: Addr, a: Addr): Happening
    requires elapsed > 0 && best in rates && a in pool
  {
    if a in rates && a != best
    then Judged(rates[a].PerConn(elapsed), rates[best].PerConn(elapsed), rates[a].tailsOnly, pool[a].conns)
    else if a == best then Fastest else Other
  }

  /** A judged window is one happening of every record, and a cull one more. */
  lemma WindowHappens(r: N.Record, rates: Rates, elapsed: int, best: Addr, candidate: Option<Addr>, culled: Option<Addr>,
                      pool': Pool, now: int, a: Addr)
    requires elapsed > 0 && best in rates && a in r.pool
    requires N.Follows(r, rates, elapsed, best, candidate, culled, pool', now)
    ensures culled != Some(a) ==> a in pool' && Happens(r.pool[a], JudgedAs(r.pool, rates, elapsed, best, a), pool'[a])
    ensures culled == Some(a) ==>
      && a in pool' && a in rates && a != best
      && exists m :: Happens(r.pool[a], JudgedAs(r.pool, rates, elapsed, best, a), m) && Happens(m, Culled(now), pool'[a])
  {
    assert N.RecordAfter(r.pool, rates, elapsed, best, culled, a, pool'[a], now);
    if culled == Some(a) {
      var (m, slow) := Judge(r.pool[a], Healthy(rates[a].PerConn(elapsed), rates[best].PerConn(elapsed)), rates[a].tailsOnly);
      JudgeFollows(r.pool[a], rates[a].PerConn(elapsed), rates[best].PerConn(elapsed), rates[a].tailsOnly);
      assert Happens(r.pool[a], JudgedAs(r.pool, rates, elapsed, best, a), m) && Happens(m, Culled(now), pool'[a]);
    }
  }

  /** A window that cannot be used wipes the evidence of every listed address. */
  lemma ClearedHappens(pool: Pool, ordered: seq<Addr>, a: Addr)
    requires a in pool
    ensures Happens(pool[a], if a in ordered then Unusable else Other, Cleared(pool, ordered)[a])
  {
  }
}
