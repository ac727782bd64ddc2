/** The retry loop around one chunk. What the attempts run into is a script
    the loop cannot foresee; the loop's own branches are the original's. */
module Retrying {
  import opened Intervals
  import R = Rotation

  type Addr = nat

  datatype Failure =
    | Permanent
    /** The Content-Range's first and last byte, and what was asked for. */
    | Capped(first: int, last: int, requested: int, chunkEnd: int)
    | SlowNode
    | Unreachable(addrs: set<Addr>, certificate: bool)
    | Throttled
    | Transient

  datatype Outcome = Finished | Failed(failure: Failure)

  /** One attempt and what is seen after it: the claim cursor, the run's progress
      when a throttle is judged and when a failure is charged, whether the
      context is done, and whether the pause that follows is cut short. */
  datatype Attempt = Attempt(
    outcome: Outcome,
    cursor: int,
    progress: int,
    later: int,
    ctxDone: bool,
    interrupted: bool)

  /** hasPlacement: addresses can be re-resolved. `culls` are those that hit this
      worker. */
  datatype Config = Config(
    maxRetries: int,
    start: int,
    end: int,
    culls: nat,
    progress: int,
    maxProgress: int,
    addrs: set<Addr>,
    hasPlacement: bool)

  datatype Result = Completed | PermanentFailure | GaveUp | Interrupted

  datatype Seen = Seen(cursor: int, slow: nat, progress: int)

  predicate IsSlow(a: Attempt) { a.outcome == Failed(SlowNode) }

  function SlowCount(script: seq<Attempt>, i: nat): nat
    requires i <= |script|
  {
    if i == 0 then 0 else SlowCount(script, i - 1) + if IsSlow(script[i - 1]) then 1 else 0
  }

  function After(a: Attempt, before: Seen): Seen {
    Seen(a.cursor, before.slow + (if IsSlow(a) then 1 else 0), a.later)
  }

  /** What was seen before attempt i: the cursor, the slow-node failures, the
      run's progress. */
  function Before(script: seq<Attempt>, cfg: Config, i: nat): Seen
    requires i <= |script|
  {
    if i == 0 then Seen(cfg.start, 0, cfg.progress)
    else Seen(script[i - 1].cursor, SlowCount(script, i), script[i - 1].later)
  }

  /** readPartialResponse's verdict on a body that ended early: the cursor
      `next` reached the end of the range the server declared, short of what
      was asked. */
  predicate CappedRange(first: int, last: int, cursor: int, requested: int, end: int, next: int) {
    && first == cursor && first <= last < requested
    && var responseEnd := if last + 1 < end then last + 1 else end;
       responseEnd < end && next >= responseEnd
  }

  /** What the rest of the run guarantees of an attempt, given what was seen
      before it: cursor and progress never fall and are bounded; a capped range
      is one by the check above, on the cursor the attempt started from;
      addresses come from a finite set. */
  predicate FairAttempt(a: Attempt, before: Seen, cfg: Config) {
    && before.cursor <= a.cursor <= cfg.end
    && before.progress <= a.progress <= a.later <= cfg.maxProgress
    && (a.outcome.Failed? ==>
          var f := a.outcome.failure;
          && (f.Capped? ==> CappedRange(f.first, f.last, before.cursor, f.requested, f.chunkEnd, a.cursor))
          && (f.Unreachable? ==> f.addrs <= cfg.addrs))
  }

  predicate FairAt(script: seq<Attempt>, cfg: Config, i: nat)
    requires i < |script|
  {
    FairAttempt(script[i], Before(script, cfg, i), cfg)
  }

  ghost predicate Fair(script: seq<Attempt>, cfg: Config) {
    forall i {:trigger FairAt(script, cfg, i)} :: 0 <= i < |script| ==> FairAt(script, cfg, i)
  }

  /** The script's slow-node failures are steps of worker w in a run of the
      rotation handshake, in which cfg.culls culls hit it. */
  ghost predicate Culled(script: seq<Attempt>, cfg: Config, ss: seq<R.State>, rops: seq<R.Op>, w: nat) {
    && R.Run(ss, rops) && w in ss[0].workers && cfg.culls == R.Hits(rops, |rops|, w)
    && SlowCount(script, |script|) <= R.SlowFailures(ss, rops, |rops|, w)
  }

  predicate Sensible(cfg: Config) {
    cfg.start <= cfg.end && cfg.progress <= cfg.maxProgress && 1 <= cfg.maxRetries
  }

  /** One free retry per address that was never tried, then one refresh. */
  class RotationBudget {
    var tried: set<Addr>
    var refreshed: bool
    var permanent: bool

    constructor ()
      ensures tried == {} && !refreshed && !permanent
    {
      tried, refreshed, permanent := {}, false, false;
    }

    /** Free retries left, when addresses come from addrs. */
    ghost function Left(addrs: set<Addr>): nat
      reads this
    {
      |addrs - tried| + if refreshed then 0 else 1
    }

    /** admit: `surface` is the retained certificate failure, once rotations are
        spent. A free retry always uses some of the budget up. */
    method Admit(addrs: set<Addr>, certificate: bool, hasPlacement: bool, ghost universe: set<Addr>)
      returns (free: bool, surface: bool)
      requires addrs <= universe
      modifies this
      ensures free <==> !(addrs <= old(tried)) || (!old(refreshed) && hasPlacement)
      ensures surface <==> !free && (certificate || old(permanent))
      ensures tried == old(tried) + addrs && permanent == (old(permanent) || certificate)
      ensures refreshed == (old(refreshed) || (addrs <= old(tried) && hasPlacement))
      ensures Left(universe) <= old(Left(universe)) && (free ==> Left(universe) < old(Left(universe)))
    {
      if certificate {
        permanent := true;
      }
      free := !(addrs <= tried);
      TriedMore(universe, tried, addrs);
      tried := tried + addrs;
      if free {
        return true, false;
      }
      if !refreshed && hasPlacement {
        refreshed := true;
        return true, false;
      }
      return false, permanent;
    }
  }

  lemma TriedMore(universe: set<Addr>, tried: set<Addr>, addrs: set<Addr>)
    requires addrs <= universe
    ensures |universe - (tried + addrs)| <= |universe - tried|
    ensures !(addrs <= tried) ==> |universe - (tried + addrs)| < |universe - tried|
  {
    SubsetSize(universe - (tried + addrs), universe - tried);
    if !(addrs <= tried) {
      var a :| a in addrs && a !in tried;
      SubsetSize(universe - (tried + addrs), (universe - tried) - {a});
    }
  }

  /** A capped range moved the cursor, to its own end and short of the chunk's,
      which is why its retry is free. */
  lemma CappedAdvances(first: int, last: int, cursor: int, requested: int, end: int, next: int)
    requires CappedRange(first, last, cursor, requested, end, next)
    ensures cursor < last + 1 <= next && last + 1 < end
  {
  }

  lemma {:induction false} SlowGrows(script: seq<Attempt>, i: nat, j: nat)
    requires i <= j <= |script|
    ensures SlowCount(script, i) <= SlowCount(script, j)
    decreases j
  {
    if i < j { SlowGrows(script, i, j - 1); }
  }

  /** No more slow-node failures than culls, which is why theirs are. */
  lemma SlowWithinCulls(script: seq<Attempt>, cfg: Config, ss: seq<R.State>, rops: seq<R.Op>, w: nat)
    requires Culled(script, cfg, ss, rops, w)
    ensures SlowCount(script, |script|) <= cfg.culls
  {
    R.SlowFailuresNeedCulls(ss, rops, |rops|, w);
  }

  lemma Within(script: seq<Attempt>, cfg: Config, i: nat)
    requires Fair(script, cfg) && Sensible(cfg) && i <= |script| && SlowCount(script, |script|) <= cfg.culls
    ensures var seen := Before(script, cfg, i);
      seen.cursor <= cfg.end && seen.slow <= cfg.culls && seen.progress <= cfg.maxProgress
    ensures i > 0 ==> Before(script, cfg, i) == After(script[i - 1], Before(script, cfg, i - 1))
  {
    SlowGrows(script, i, |script|);
    if i > 0 { assert FairAt(script, cfg, i - 1); }
  }

  /** While there is a retry left there is something left to spend. */
  lemma RestIsPositive(script: seq<Attempt>, cfg: Config, i: nat, chargedAt: int, attempt: int)
    requires Fair(script, cfg) && Sensible(cfg) && i <= |script| && SlowCount(script, |script|) <= cfg.culls
    requires chargedAt <= Before(script, cfg, i).progress && attempt < cfg.maxRetries
    ensures 1 <= Rest(cfg, Before(script, cfg, i), chargedAt, attempt)
  {
    Within(script, cfg, i);
  }

  // ---- which failures are charged ----

  predicate Unreached(a: Attempt) { a.outcome.Failed? && a.outcome.failure.Unreachable? }

  /** The addresses that the first i attempts could not reach, and whether one of
      them met a certificate failure. */
  function Tried(script: seq<Attempt>, i: nat): set<Addr>
    requires i <= |script|
  {
    if i == 0 then {} else Tried(script, i - 1) + if Unreached(script[i - 1]) then script[i - 1].outcome.failure.addrs else {}
  }

  predicate CertificateSeen(script: seq<Attempt>, i: nat)
    requires i <= |script|
  {
    exists j :: 0 <= j < i && Unreached(script[j]) && script[j].outcome.failure.certificate
  }

  /** Attempt j could not reach any address that had not been tried. */
  predicate NothingNew(script: seq<Attempt>, j: nat)
    requires j < |script|
  {
    Unreached(script[j]) && script[j].outcome.failure.addrs <= Tried(script, j)
  }

  /** The addresses were resolved anew, once, when nothing new was left. */
  predicate RefreshUsed(script: seq<Attempt>, cfg: Config, i: nat)
    requires i <= |script|
  {
    cfg.hasPlacement && exists j :: 0 <= j < i && NothingNew(script, j)
  }

  /** Attempt i, in a context that is not done, counts against the retry budget:
      a transient failure; a throttle while nobody has made progress since
      `chargedAt`; an address failure when there is neither an untried address nor
      a refresh left and no certificate failure to report instead. */
  predicate IsCharged(script: seq<Attempt>, cfg: Config, i: nat, chargedAt: int)
    requires i < |script|
  {
    && GoesOn(script[i])
    && match script[i].outcome.failure
       case Transient => true
       case Throttled => script[i].progress <= chargedAt
       case Unreachable(_, _) =>
         NothingNew(script, i) && (!cfg.hasPlacement || RefreshUsed(script, cfg, i)) && !CertificateSeen(script, i + 1)
       case _ => false
  }

  /** The run's progress when the last charge, or the last pause for a throttle,
      was made before attempt i. */
  function ChargedAt(script: seq<Attempt>, cfg: Config, i: nat): int
    requires i <= |script|
  {
    if i == 0 then cfg.progress
    else
      var before, a := ChargedAt(script, cfg, i - 1), script[i - 1];
      if IsCharged(script, cfg, i - 1, before) then a.later
      else if a.outcome == Failed(Throttled) then a.progress
      else before
  }

  function Charges(script: seq<Attempt>, cfg: Config, i: nat): nat
    requires i <= |script|
  {
    if i == 0 then 0
    else Charges(script, cfg, i - 1) + if IsCharged(script, cfg, i - 1, ChargedAt(script, cfg, i - 1)) then 1 else 0
  }

  /** The certificate failure met before is reported, because no address is left. */
  predicate Surfaces(script: seq<Attempt>, cfg: Config, i: nat)
    requires i < |script|
  {
    NothingNew(script, i) && (!cfg.hasPlacement || RefreshUsed(script, cfg, i)) && CertificateSeen(script, i + 1)
  }

  /** A chunk whose attempts only end in capped ranges and slow nodes costs
      nothing. */
  lemma {:induction false} CappedAndSlowAreFree(script: seq<Attempt>, cfg: Config, n: nat)
    requires n <= |script|
    requires forall i :: 0 <= i < n && script[i].outcome.Failed? ==>
      script[i].outcome.failure.Capped? || script[i].outcome.failure.SlowNode?
    ensures Charges(script, cfg, n) == 0
  {
    if n > 0 { CappedAndSlowAreFree(script, cfg, n - 1); }
  }

  /** The rotation budget after i attempts. */
  ghost predicate RotationIs(rotations: RotationBudget, script: seq<Attempt>, cfg: Config, i: nat)
    requires i <= |script|
    reads rotations
  {
    && rotations.tried == Tried(script, i)
    && (rotations.refreshed <==> RefreshUsed(script, cfg, i))
    && (rotations.permanent <==> CertificateSeen(script, i))
  }

  /** How many attempts one chunk can take at most. */
  function Bound(cfg: Config): int {
    (cfg.end - cfg.start) + cfg.culls + (cfg.maxProgress - cfg.progress) + |cfg.addrs| + 1 + cfg.maxRetries
  }

  /** The loop never goes on past success, a permanent failure or the end of
      its context. */
  predicate GoesOn(a: Attempt) { a.outcome.Failed? && !a.outcome.failure.Permanent? && !a.ctxDone }

  /** What the loop can still consume, but for the rotation budget. */
  function Rest(cfg: Config, seen: Seen, chargedAt: int, attempt: int): int {
    (cfg.end - seen.cursor) + (cfg.culls - seen.slow) + (cfg.maxProgress - chargedAt) + (cfg.maxRetries - attempt)
  }

  datatype Verdict = Retry | Return(r: Result)

  /** What the loop does about a failure that is neither permanent nor due to
      its context. A free retry uses something up; a charged one an attempt. */
  method Settle(a: Attempt, cfg: Config, rotations: RotationBudget, chargedAt: int, attempt: int, ghost before: Seen,
                ghost script: seq<Attempt>, ghost i: nat)
    returns (v: Verdict, charged': int, attempt': int)
    requires GoesOn(a) && FairAttempt(a, before, cfg) && chargedAt <= before.progress && attempt < cfg.maxRetries
    requires i < |script| && a == script[i] && RotationIs(rotations, script, cfg, i)
    modifies rotations
    ensures RotationIs(rotations, script, cfg, i + 1)
    ensures attempt' == attempt + if IsCharged(script, cfg, i, chargedAt) then 1 else 0
    ensures charged' == if IsCharged(script, cfg, i, chargedAt) then a.later
                        else if a.outcome.failure.Throttled? then a.progress else chargedAt
    ensures v == Return(PermanentFailure) <==> Surfaces(script, cfg, i)
    ensures chargedAt <= charged' <= a.later && attempt <= attempt' <= attempt + 1
    ensures attempt' == cfg.maxRetries <==> v == Return(GaveUp)
    ensures v == Return(Interrupted) ==> a.interrupted
    ensures v != Return(Completed)
    ensures v == Retry ==>
      Rest(cfg, After(a, before), charged', attempt') + rotations.Left(cfg.addrs) <
      Rest(cfg, before, chargedAt, attempt) + old(rotations.Left(cfg.addrs))
  {
    var f := a.outcome.failure;
    v, charged', attempt' := Retry, chargedAt, attempt;
    BudgetGrows(script, cfg, i);
    if f.Capped? {
      CappedAdvances(f.first, f.last, before.cursor, f.requested, f.chunkEnd, a.cursor);
      return;
    }
    if f.SlowNode? {
      return;
    }
    if f.Unreachable? {
      var free, surface := rotations.Admit(f.addrs, f.certificate, cfg.hasPlacement, cfg.addrs);
      if surface {
        return Return(PermanentFailure), chargedAt, attempt;
      }
      if free {
        return;
      }
    }
    if f.Throttled? && a.progress > chargedAt {
      charged' := a.progress;
      if a.interrupted {
        v := Return(Interrupted);
      }
      return;
    }
    charged' := a.later;
    attempt' := attempt + 1;
    if attempt' >= cfg.maxRetries {
      v := Return(GaveUp);
    } else if a.interrupted {
      v := Return(Interrupted);
    }
  }

  /** What one more attempt adds to the record. */
  lemma BudgetGrows(script: seq<Attempt>, cfg: Config, i: nat)
    requires i < |script|
    ensures Tried(script, i + 1) == Tried(script, i) + if Unreached(script[i]) then script[i].outcome.failure.addrs else {}
    ensures CertificateSeen(script, i + 1) <==>
      CertificateSeen(script, i) || (Unreached(script[i]) && script[i].outcome.failure.certificate)
    ensures RefreshUsed(script, cfg, i + 1) <==> RefreshUsed(script, cfg, i) || (cfg.hasPlacement && NothingNew(script, i))
  {
    if NothingNew(script, i) {}
  }

  /** What the loop does after attempt i. */
  method Consider(cfg: Config, rotations: RotationBudget, chargedAt: int, attempt: int, script: seq<Attempt>, i: nat)
    returns (v: Verdict, charged': int, attempt': int)
    requires i < |script| && FairAt(script, cfg, i) && RotationIs(rotations, script, cfg, i)
    requires chargedAt == ChargedAt(script, cfg, i) <= Before(script, cfg, i).progress
    requires attempt == Charges(script, cfg, i) < cfg.maxRetries
    modifies rotations
    ensures attempt' == Charges(script, cfg, i + 1) <= cfg.maxRetries
    ensures v == Return(Completed) <==> script[i].outcome.Finished?
    ensures v == Return(PermanentFailure) <==>
      script[i].outcome == Failed(Permanent) || (GoesOn(script[i]) && Surfaces(script, cfg, i))
    ensures v == Return(GaveUp) <==> attempt' == cfg.maxRetries
    ensures v == Return(Interrupted) ==> script[i].ctxDone || script[i].interrupted
    ensures v == Retry || v == Return(GaveUp) ==> GoesOn(script[i])
    ensures v == Retry ==>
      && RotationIs(rotations, script, cfg, i + 1)
      && charged' == ChargedAt(script, cfg, i + 1) <= Before(script, cfg, i + 1).progress
      && Rest(cfg, Before(script, cfg, i + 1), charged', attempt') + rotations.Left(cfg.addrs) <
         Rest(cfg, Before(script, cfg, i), chargedAt, attempt) + old(rotations.Left(cfg.addrs))
  {
    var a := script[i];
    v, charged', attempt' := Return(Completed), chargedAt, attempt;
    if a.outcome.Finished? {
      return;
    }
    if a.outcome.failure.Permanent? {
      v := Return(PermanentFailure);
      return;
    }
    if a.ctxDone {
      v := Return(Interrupted);
      return;
    }
    v, charged', attempt' := Settle(a, cfg, rotations, chargedAt, attempt, Before(script, cfg, i), script, i);
  }

  /** How the loop ends: r after n attempts. */
  ghost predicate Concludes(script: seq<Attempt>, cfg: Config, r: Result, n: nat) {
    && 1 <= n <= |script| && n <= Bound(cfg)
    && (r == Completed <==> script[n - 1].outcome.Finished?)
    && (r == GaveUp <==> Charges(script, cfg, n) == cfg.maxRetries)
    && (r == PermanentFailure <==>
          script[n - 1].outcome == Failed(Permanent) || (GoesOn(script[n - 1]) && Surfaces(script, cfg, n - 1)))
    && (r == GaveUp ==> GoesOn(script[n - 1]))
    && (r == Interrupted ==> script[n - 1].ctxDone || script[n - 1].interrupted)
    && forall i :: 0 <= i < n - 1 ==> GoesOn(script[i])
  }

  /** downloadChunk. n attempts were made; `charged` of them counted against
      the retry budget. No script needs to be longer than the bound: whatever
      would come after it is never reached. */
  method DownloadChunk(script: seq<Attempt>, cfg: Config, ghost ss: seq<R.State>, ghost rops: seq<R.Op>, ghost w: nat)
    returns (r: Result, n: nat, charged: nat)
    requires Fair(script, cfg) && Sensible(cfg) && |script| >= Bound(cfg) && Culled(script, cfg, ss, rops, w)
    ensures Concludes(script, cfg, r, n) && charged == Charges(script, cfg, n) <= cfg.maxRetries
  {
    SlowWithinCulls(script, cfg, ss, rops, w);
    r, n, charged := RetryLoop(script, cfg);
  }

  /** Where the loop is after n attempts. */
  ghost predicate LoopAt(script: seq<Attempt>, cfg: Config, rotations: RotationBudget, n: nat, chargedAt: int, attempt: int)
    reads rotations
  {
    && n <= |script| && 0 <= attempt == Charges(script, cfg, n) < cfg.maxRetries
    && chargedAt == ChargedAt(script, cfg, n) <= Before(script, cfg, n).progress
    && RotationIs(rotations, script, cfg, n)
    && (forall i :: 0 <= i < n ==> GoesOn(script[i]))
    && n + Rest(cfg, Before(script, cfg, n), chargedAt, attempt) + rotations.Left(cfg.addrs) <= Bound(cfg)
  }

  ghost predicate Bounded(script: seq<Attempt>, cfg: Config) {
    Fair(script, cfg) && Sensible(cfg) && |script| >= Bound(cfg) && SlowCount(script, |script|) <= cfg.culls
  }

  /** One turn of the loop. */
  method Turn(script: seq<Attempt>, cfg: Config, rotations: RotationBudget, n: nat, chargedAt: int, attempt: int)
    returns (v: Verdict, charged': int, attempt': int)
    requires Bounded(script, cfg) && LoopAt(script, cfg, rotations, n, chargedAt, attempt)
    modifies rotations
    ensures n < Bound(cfg) <= |script| && 0 <= attempt' == Charges(script, cfg, n + 1) <= cfg.maxRetries
    ensures v == Retry ==> LoopAt(script, cfg, rotations, n + 1, charged', attempt')
    ensures v.Return? ==> Concludes(script, cfg, v.r, n + 1)
  {
    RestIsPositive(script, cfg, n, chargedAt, attempt);
    assert FairAt(script, cfg, n);
    v, charged', attempt' := Consider(cfg, rotations, chargedAt, attempt, script, n);
  }

  method RetryLoop(script: seq<Attempt>, cfg: Config) returns (r: Result, n: nat, charged: nat)
    requires Bounded(script, cfg)
    ensures Concludes(script, cfg, r, n) && charged == Charges(script, cfg, n) <= cfg.maxRetries
  {
    n := 0;
    var attempt := 0;
    var rotations := new RotationBudget();
    var chargedAt := cfg.progress;
    while true
      invariant fresh(rotations) && LoopAt(script, cfg, rotations, n, chargedAt, attempt)
      decreases Bound(cfg) - n
    {
      var v;
      v, chargedAt, attempt := Turn(script, cfg, rotations, n, chargedAt, attempt);
      n := n + 1;
      if v.Return? {
        return v.r, n, attempt;
      }
    }
  }
}
