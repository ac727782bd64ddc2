/** The governor's rules over its whole history, each with its converse: what a
    window leads to, and what a 429 leads to. */
module RampRules {
  import opened Ramping
  import opened RampLaws

  /** The number behind a rate. */
  lemma RateIs(s: Sample)
    ensures Rate(s) * (if s.elapsed < 1 then 1 else s.elapsed) as real == s.bytes as real
  {
  }

  // ---- what a window leads to ----

  /** Time since the last batch was admitted. */
  function Since(h: Watched, now: int): int { if h.r.admittedAt.At? then now - h.r.admittedAt.t else 0 }

  predicate Waits(h: Watched, e: Effect, h': Watched) {
    e == NONE && !h'.r.done && h'.r.admitted == h.r.admitted && h'.admissions == h.admissions
  }

  /** Probing ends, and everybody stays. */
  predicate Freezes(h: Watched, e: Effect, h': Watched) {
    e == NONE && h'.r.done && h'.r.admitted == h.r.admitted && h'.admissions == h.admissions
  }

  /** Probing ends, and the last batch goes: back to the count before it. */
  predicate Demotes(h: Watched, e: Effect, h': Watched) {
    && h.admissions > 0 && h'.r.done && h'.r.admitted == h.r.admitted && h'.admissions == h.admissions
    && e == Effect(0, 0, Doubled(h.r.floor, h.r.parts, h.admissions - 1))
  }

  /** The next batch doubles the count, as far as parts allows, and is to be
      judged against the sample. */
  predicate Admits(h: Watched, sample: Sample, now: int, e: Effect, h': Watched) {
    && e == Effect(h.spawned, Min(h.spawned, h.r.parts - h.spawned), 0) && !h'.r.done
    && h'.admissions == h.admissions + 1 && h'.r.settling && h'.r.baseline == sample && h'.r.admittedAt == At(now)
  }

  /** The rules. A first full window is burn-in and the second the baseline of
      the first batch. A batch then settles; if it stays silent for more than two
      windows past its settling time it is rejected. The two windows after
      settling are judged together. */
  predicate FollowsRules(h: Watched, total: int, now: int, e: Effect, h': Watched) {
    var judged := Sample(total - h.settledMark, now - h.settledTime);
    if h.r.done || total - h.r.markAt < h.r.window then
      e == NONE && h'.r == h.r
    else
      && h'.r.markAt == total && h'.r.markTime == now
      && if h.admissions == 0 then
           if h.measured == 0 then Waits(h, e, h')
           else Admits(h, Sample(total - h.r.markAt, now - h.r.markTime), now, e, h')
         else if h.r.settling then
           if Since(h, now) < h.r.settleMin then Waits(h, e, h') && h'.r.settling
           else if h.contributor >= 0 then Waits(h, e, h') && !h'.r.settling
           else if h.unheard < 2 then Waits(h, e, h') && h'.r.settling
           else Demotes(h, e, h')
         else if h.measured == 0 then Waits(h, e, h')
         else if Rate(judged) < Rate(h.r.baseline) * 1.02 then Demotes(h, e, h')
         else if Rate(judged) < Rate(h.r.baseline) * 1.15 then Freezes(h, e, h')
         else if h.spawned < h.r.parts then Admits(h, judged, now, e, h')
         else Freezes(h, e, h')
  }

  // ---- what a 429 leads to ----

  /** The flow counts that 429s ask for one after the other, when k batches were
      admitted: the count before the last batch, the floor, one. */
  function Walk(floor: int, parts: int, k: nat): seq<int> {
    (if k == 0 then []
     else if Doubled(floor, parts, k - 1) > floor then [Doubled(floor, parts, k - 1), floor]
     else [Doubled(floor, parts, k - 1)])
    + (if floor > 1 then [1] else [])
  }

  /** How many workers are to stay: those of the last request, or all. */
  function Staying(h: Watched): int {
    if h.throttleKeeps == [] then h.spawned else h.throttleKeeps[|h.throttleKeeps| - 1]
  }

  /** A 429 of a worker that is to stay takes the next step of the walk, while
      there is one; any other changes nothing. Either way probing is over. */
  predicate Walks(h: Watched, id: int, h': Watched) {
    var walk, n := Walk(h.r.floor, h.r.parts, h.admissions), |h.throttleKeeps|;
    && h'.r.done
    && h'.throttleKeeps == if id < Staying(h) && n < |walk| then h.throttleKeeps + [walk[n]] else h.throttleKeeps
  }

  // ---- invariant ----

  /** The governor's fields against what happened. */
  predicate Tracked(h: Watched) {
    var r := h.r;
    && r.admitted == Staying(h) && h.throttleKeeps <= Walk(r.floor, r.parts, h.admissions)
    && (h.admissions == 0 ==> h.spawned == r.floor)
    && (h.admissions > 0 ==> r.floor <= Doubled(r.floor, r.parts, h.admissions - 1) < h.spawned)
    && (h.throttleKeeps == [] && h.admissions > 0 ==> r.prevAdmitted == Doubled(r.floor, r.parts, h.admissions - 1))
    && (h.throttleKeeps != [] ==> r.prevAdmitted == r.floor)
    && (!r.done && h.admissions == 0 ==> (r.warmed <==> h.measured > 0))
    && (!r.done && r.settling ==> r.unreadyWindows == h.unheard && (r.batchReady <==> h.contributor >= 0))
  }

  lemma BeginTracked(h: Watched)
    requires Begins(h)
    ensures Tracked(h)
  {
    BeginGood(h);
  }

  lemma WindowFollows(h: Watched, total: int, now: int)
    requires Good(h) && Tracked(h)
    ensures FollowsRules(h, total, now, Note(h.r, total, now).1, AfterWindow(h, total, now))
    ensures Tracked(AfterWindow(h, total, now))
  {
  }

  /** Where the walk stands, and what the fields make of it. */
  lemma WalkStands(h: Watched)
    requires Good(h) && Tracked(h)
    ensures var walk, n := Walk(h.r.floor, h.r.parts, h.admissions), |h.throttleKeeps|;
      && (n < |walk| <==> h.r.admitted > 1)
      && (n < |walk| ==> walk[n] == if h.r.admitted > h.r.floor then Max(h.r.prevAdmitted, h.r.floor) else 1)
  {
    var walk, n := Walk(h.r.floor, h.r.parts, h.admissions), |h.throttleKeeps|;
    if n > 0 { assert h.r.admitted == walk[n - 1]; }
    if h.admissions == 0 {
      assert |walk| <= 1;
    } else if Doubled(h.r.floor, h.r.parts, h.admissions - 1) > h.r.floor {
      assert walk[1] == h.r.floor;
    } else {
      assert walk[0] == h.r.floor;
    }
  }

  lemma WalkOn(keeps: seq<int>, walk: seq<int>)
    requires keeps <= walk && |keeps| < |walk|
    ensures keeps + [walk[|keeps|]] <= walk
  {
  }

  lemma ThrottleFollows(h: Watched, id: int)
    requires Good(h) && Tracked(h)
    ensures Walks(h, id, After(h, TooMany(id))) && Tracked(After(h, TooMany(id)))
  {
    WalkStands(h);
    var walk := Walk(h.r.floor, h.r.parts, h.admissions);
    if |h.throttleKeeps| < |walk| { WalkOn(h.throttleKeeps, walk); }
  }

  lemma StepFollows(h: Watched, ev: Event)
    requires Good(h) && Tracked(h)
    ensures Tracked(After(h, ev))
  {
    match ev
    case Window(total, now) => WindowFollows(h, total, now);
    case FirstByte(id) =>
    case TooMany(id) => ThrottleFollows(h, id);
  }

  lemma {:induction false} AllTracked(h0: Watched, evs: seq<Event>)
    requires Begins(h0)
    ensures Good(AfterAll(h0, evs)) && Tracked(AfterAll(h0, evs))
  {
    BeginGood(h0);
    RunGood(h0, evs);
    if evs == [] {
      BeginTracked(h0);
    } else {
      AllTracked(h0, evs[..|evs| - 1]);
      StepFollows(AfterAll(h0, evs[..|evs| - 1]), evs[|evs| - 1]);
    }
  }

  // ---- the theorems ----

  /** After any history the next window leads to exactly what the rules say. */
  lemma WindowsFollowRules(h0: Watched, evs: seq<Event>, total: int, now: int)
    requires Begins(h0)
    ensures var h := AfterAll(h0, evs); FollowsRules(h, total, now, Note(h.r, total, now).1, AfterWindow(h, total, now))
  {
    AllTracked(h0, evs);
    WindowFollows(AfterAll(h0, evs), total, now);
  }

  /** A throughput demotion is asked for exactly when a batch stayed silent past
      its windows or the two judged windows fell short of 1.02 times the
      baseline; and it is to the count before the last batch. */
  lemma DemotedExactly(h0: Watched, evs: seq<Event>, total: int, now: int)
    requires Begins(h0)
    ensures var h := AfterAll(h0, evs); var h' := AfterWindow(h, total, now);
      && (h'.demotions != h.demotions <==> CalledFor(h, total, now))
      && (h'.demotions != h.demotions ==> h'.demotions == h.demotions + [Doubled(h.r.floor, h.r.parts, h.admissions - 1)])
  {
    AllTracked(h0, evs);
    WindowFollows(AfterAll(h0, evs), total, now);
  }

  predicate CalledFor(h: Watched, total: int, now: int) {
    && !h.r.done && total - h.r.markAt >= h.r.window && h.admissions > 0
    && if h.r.settling then Since(h, now) >= h.r.settleMin && h.contributor < 0 && h.unheard >= 2
       else h.measured == 1 && Rate(Sample(total - h.settledMark, now - h.settledTime)) < Rate(h.r.baseline) * 1.02
  }

  /** However many 429s arrive: what they ask for is a beginning of the walk, and
      each of a worker that is to stay takes one step of it. */
  lemma ThrottlesWalk(h0: Watched, evs: seq<Event>, id: int)
    requires Begins(h0)
    ensures var h := AfterAll(h0, evs);
      h.throttleKeeps <= Walk(h.r.floor, h.r.parts, h.admissions) && Walks(h, id, After(h, TooMany(id)))
  {
    AllTracked(h0, evs);
    ThrottleFollows(AfterAll(h0, evs), id);
  }
}
