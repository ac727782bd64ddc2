/** What the governor does over any sequence of windows, first bytes and 429s. */
module RampLaws {
  import opened Ramping

  datatype Event =
    | Window(total: int, now: int)
    | FirstByte(id: int)
    | TooMany(id: int)

  /** The governor with its history: how many batches were admitted; the ids
      spawned so far are those below `spawned`; whose first byte made the batch
      ready; where and when settling ended and how many windows were measured
      since; how many windows after its settling time the present batch has been
      silent; the keeps that 429s and that throughput asked for. */
  datatype Watched = Watched(
    r: Ramp,
    admissions: nat,
    spawned: int,
    contributor: int,
    settledMark: int,
    settledTime: int,
    measured: nat,
    unheard: nat,
    throttleKeeps: seq<int>,
    demotions: seq<int>)

  function Begin(parts: int, floor: int, window: int, settleMin: int, now: int, canRamp: bool): Watched {
    Watched(Fresh(parts, floor, window, settleMin, now, canRamp), 0, floor, -1, 0, 0, 0, 0, [], [])
  }

  /** The batch had its settling time and nobody of it has delivered a byte. */
  predicate Silent(h: Watched, now: int) {
    h.r.settling && h.r.admittedAt.At? && now - h.r.admittedAt.t >= h.r.settleMin && h.contributor < 0
  }

  function AfterWindow(h: Watched, total: int, now: int): Watched {
    var (r', e) := Note(h.r, total, now);
    var h' := h.(r := r', demotions := if e.demoteTo > 0 then h.demotions + [e.demoteTo] else h.demotions);
    if e.spawnN > 0 then h'.(admissions := h.admissions + 1, spawned := e.spawnFrom + e.spawnN, contributor := -1, unheard := 0)
    else if h.r.settling && !r'.settling then h'.(settledMark := total, settledTime := now, measured := 0)
    else if !h.r.done && Full(h.r, total) then h'.(measured := h.measured + 1, unheard := h.unheard + if Silent(h, now) then 1 else 0)
    else h'
  }

  function After(h: Watched, ev: Event): Watched {
    match ev
    case Window(total, now) => AfterWindow(h, total, now)
    case FirstByte(id) =>
      h.(r := Ready(h.r, id), contributor := if Ready(h.r, id).batchReady && !h.r.batchReady then id else h.contributor)
    case TooMany(id) =>
      var (r', keep) := Throttle(h.r, id);
      h.(r := r', throttleKeeps := if keep > 0 then h.throttleKeeps + [keep] else h.throttleKeeps)
  }

  function AfterAll(h: Watched, evs: seq<Event>): Watched {
    if evs == [] then h else After(AfterAll(h, evs[..|evs| - 1]), evs[|evs| - 1])
  }

  function Pow2(k: nat): nat { if k == 0 then 1 else 2 * Pow2(k - 1) }

  /** The flow count after k admissions. */
  function Doubled(floor: int, parts: int, k: nat): int { Min(parts, floor * Pow2(k)) }

  /** How many more keeps 429s can still ask for. */
  function Steps(r: Ramp): nat {
    if r.admitted <= 1 then 0
    else if r.admitted <= r.floor then 1
    else if r.floor == 1 then (if r.prevAdmitted <= 1 then 1 else 2)
    else if r.prevAdmitted <= r.floor then 2 else 3
  }

  // ---- invariants ----

  predicate Sane(h: Watched) {
    var r := h.r;
    && 1 <= r.floor && 1 <= r.window && 0 <= r.settleMin
    && 1 <= r.admitted <= h.spawned
    && (r.admittedAt.Never? <==> h.admissions == 0)
    && (!r.done ==> r.floor <= r.admitted <= r.parts && r.floor < r.parts && h.throttleKeeps == [] && h.demotions == [])
    && (r.admitted > r.floor ==> r.floor <= r.prevAdmitted < r.admitted)
    && (r.admittedAt.Never? ==> r.admitted <= r.floor && !r.settling)
  }

  predicate Doubling(h: Watched) {
    && h.spawned == Doubled(h.r.floor, h.r.parts, h.admissions)
    && (!h.r.done ==> h.r.admitted == h.spawned)
    && (!h.r.done && h.admissions > 0 ==> h.r.floor <= h.r.prevAdmitted < h.r.admitted)
  }

  /** While a batch is under judgment: who contributed, how long it settled, and
      that the sample so far is exactly the windows since settling ended. */
  predicate Evidence(h: Watched) {
    var r := h.r;
    && (r.batchReady ==> r.prevAdmitted <= h.contributor < r.admitted)
    && (r.settling || r.admittedAt.Never? ==> r.sampleCount == 0 && r.sample == Sample(0, 0))
    && (r.settling ==> r.warmed && 0 <= r.unreadyWindows <= MEASURE_WINDOWS)
    && (r.admittedAt.At? ==> r.warmed)
    && (r.admittedAt.At? && !r.settling ==>
          && r.batchReady
          && h.settledTime - r.admittedAt.t >= r.settleMin
          && r.sampleCount == h.measured < MEASURE_WINDOWS
          && r.sample == Sample(r.markAt - h.settledMark, r.markTime - h.settledTime))
  }

  predicate Falling(s: seq<int>) {
    (forall i :: 0 <= i < |s| ==> s[i] >= 1) && (forall i, j :: 0 <= i < j < |s| ==> s[i] > s[j])
  }

  predicate Shedding(h: Watched) {
    && Falling(h.throttleKeeps)
    && (h.throttleKeeps != [] ==> h.r.done && h.throttleKeeps[|h.throttleKeeps| - 1] == h.r.admitted)
    && |h.throttleKeeps| + Steps(h.r) <= 3
    && |h.demotions| <= 1
    && (forall i :: 0 <= i < |h.demotions| ==> h.r.floor <= h.demotions[i] < h.spawned)
  }

  predicate Good(h: Watched) {
    Sane(h) && Doubling(h) && (!h.r.done ==> Evidence(h)) && Shedding(h)
  }

  /** A governor as a run makes it. */
  predicate Begins(h: Watched) {
    var r := h.r;
    && 1 <= r.floor <= r.parts && 1 <= r.window && 0 <= r.settleMin
    && (h == Begin(r.parts, r.floor, r.window, r.settleMin, r.markTime, true)
        || h == Begin(r.parts, r.floor, r.window, r.settleMin, r.markTime, false))
  }

  // ---- every event keeps them ----

  lemma DoubledNext(floor: int, parts: int, k: nat)
    requires 1 <= floor && 0 <= parts
    ensures var a := Doubled(floor, parts, k); Doubled(floor, parts, k + 1) == a + Min(a, parts - a)
  {
    assert floor * Pow2(k + 1) == 2 * (floor * Pow2(k));
    assert floor * Pow2(k) >= 0;
  }

  lemma AdmitGood(h: Watched, c: Ramp, sample: Sample, total: int, now: int)
    requires Good(h) && !h.r.done && !h.r.settling && h.r.warmed && h.r.admitted < h.r.parts
    requires c == h.r.(markAt := total, markTime := now, sample := Sample(0, 0), sampleCount := 0)
    requires Note(h.r, total, now) == Admit(c, sample, now)
    ensures Good(AfterWindow(h, total, now))
    ensures AfterWindow(h, total, now).admissions == h.admissions + 1
    ensures AfterWindow(h, total, now).r.admitted > h.spawned
  {
    DoubledNext(h.r.floor, h.r.parts, h.admissions);
  }

  lemma MeasureGood(h: Watched, total: int, now: int)
    requires Good(h) && !h.r.done && Full(h.r, total) && h.r.warmed && !h.r.settling && h.r.admittedAt.At?
    ensures Good(AfterWindow(h, total, now))
  {
    var c := Close(h.r, total, now);
    var sum := Sample(h.r.sample.bytes + (total - h.r.markAt), h.r.sample.elapsed + (now - h.r.markTime));
    if h.r.sampleCount + 1 >= MEASURE_WINDOWS && Note(h.r, total, now).1.spawnN > 0 {
      AdmitGood(h, c.(sample := Sample(0, 0), sampleCount := 0), sum, total, now);
    }
  }

  lemma WindowGood(h: Watched, total: int, now: int)
    requires Good(h)
    ensures Good(AfterWindow(h, total, now))
  {
    var r := h.r;
    if r.done || !Full(r, total) {
    } else if !r.warmed {
    } else if r.settling {
    } else if r.admittedAt.Never? {
      assert Pow2(0) == 1;
      var c := Close(r, total, now);
      AdmitGood(h, c, Sample(total - r.markAt, now - r.markTime), total, now);
    } else {
      MeasureGood(h, total, now);
    }
  }

  lemma TooManyGood(h: Watched, id: int)
    requires Good(h)
    ensures Good(After(h, TooMany(id)))
  {
    var (r', keep) := Throttle(h.r, id);
    if keep > 0 {
      assert keep < h.r.admitted && Steps(r') < Steps(h.r);
    }
  }

  lemma AfterGood(h: Watched, ev: Event)
    requires Good(h)
    ensures Good(After(h, ev))
  {
    match ev
    case Window(total, now) => WindowGood(h, total, now);
    case FirstByte(id) =>
    case TooMany(id) => TooManyGood(h, id);
  }

  lemma {:induction false} RunGood(h: Watched, evs: seq<Event>)
    requires Good(h)
    ensures Good(AfterAll(h, evs))
  {
    if evs != [] {
      RunGood(h, evs[..|evs| - 1]);
      AfterGood(AfterAll(h, evs[..|evs| - 1]), evs[|evs| - 1]);
    }
  }

  lemma BeginGood(h: Watched)
    requires Begins(h)
    ensures Good(h) && h.admissions == 0 && h.throttleKeeps == [] && h.demotions == [] && h.spawned == h.r.floor
  {
    assert Pow2(0) == 1;
  }

  // ---- the theorems ----

  /** After k admissions min(parts, floor * 2^k) workers were spawned, and while
      the governor is still probing that is its flow count. */
  lemma AdmittedDoubles(h0: Watched, evs: seq<Event>)
    requires Begins(h0)
    ensures var h := AfterAll(h0, evs);
      && h.spawned == Min(h0.r.parts, h0.r.floor * Pow2(h.admissions))
      && (!h.r.done ==> h.r.admitted == h.spawned)
  {
    Throughout(h0, evs);
  }

  lemma Throughout(h0: Watched, evs: seq<Event>)
    requires Begins(h0)
    ensures Good(AfterAll(h0, evs))
    ensures var r := AfterAll(h0, evs).r; r.floor == h0.r.floor && r.parts == h0.r.parts && r.window == h0.r.window
  {
    BeginGood(h0);
    RunGood(h0, evs);
    ParametersStay(h0, evs);
  }

  lemma {:induction false} ParametersStay(h: Watched, evs: seq<Event>)
    ensures var r := AfterAll(h, evs).r; r.floor == h.r.floor && r.parts == h.r.parts && r.window == h.r.window
  {
    if evs != [] {
      ParametersStay(h, evs[..|evs| - 1]);
      SameParameters(AfterAll(h, evs[..|evs| - 1]), evs[|evs| - 1]);
    }
  }

  lemma SameParameters(h: Watched, ev: Event)
    ensures var r := After(h, ev).r; r.floor == h.r.floor && r.parts == h.r.parts && r.window == h.r.window
  {
    if ev.Window? { assert Note(h.r, ev.total, ev.now).0.parts == h.r.parts; }
  }

  lemma SpawnStep(h: Watched, total: int, now: int)
    requires Good(h) && Note(h.r, total, now).1.spawnN > 0
    ensures var e := Note(h.r, total, now).1; var h' := AfterWindow(h, total, now);
      && e.spawnFrom == h.spawned && h'.spawned == h.spawned + e.spawnN && e.demoteTo == 0
      && h'.admissions == h.admissions + 1
  {
    assert Pow2(0) == 1;
  }

  /** A batch is spawned with ids nobody had before, right after the last ones,
      and never together with a demotion. */
  lemma SpawnsAreContiguous(h0: Watched, evs: seq<Event>, total: int, now: int)
    requires Begins(h0) && Note(AfterAll(h0, evs).r, total, now).1.spawnN > 0
    ensures var h := AfterAll(h0, evs); var e := Note(h.r, total, now).1; var h' := AfterAll(h0, evs + [Window(total, now)]);
      && e.spawnFrom == h.spawned && h'.spawned == h.spawned + e.spawnN && e.demoteTo == 0
      && h'.admissions == h.admissions + 1
  {
    Throughout(h0, evs);
    SpawnStep(AfterAll(h0, evs), total, now);
    assert (evs + [Window(total, now)])[..|evs|] == evs;
  }

  /** The evidence a further batch needs: a member of the last batch delivered a
      byte, settling took settleMin, and the judged sample is exactly the two
      windows since settling ended, fast enough against the last baseline. */
  predicate Earned(h: Watched, total: int, now: int) {
    var judged := Sample(total - h.settledMark, now - h.settledTime);
    && h.r.admittedAt.At? && h.r.prevAdmitted <= h.contributor < h.r.admitted
    && h.settledTime - h.r.admittedAt.t >= h.r.settleMin
    && h.measured + 1 == MEASURE_WINDOWS && Full(h.r, total)
    && AfterWindow(h, total, now).r.baseline == judged && Rate(judged) >= Rate(h.r.baseline) * 1.15
  }

  lemma EarnedStep(h: Watched, total: int, now: int)
    requires Good(h) && h.admissions > 0 && Note(h.r, total, now).1.spawnN > 0
    ensures Earned(h, total, now)
  {
  }

  /** A further batch is admitted only on evidence. */
  lemma AdmissionIsEarned(h0: Watched, evs: seq<Event>, total: int, now: int)
    requires Begins(h0) && AfterAll(h0, evs).admissions > 0
    requires AfterWindow(AfterAll(h0, evs), total, now).admissions > AfterAll(h0, evs).admissions
    ensures Earned(AfterAll(h0, evs), total, now)
  {
    Throughout(h0, evs);
    EarnedStep(AfterAll(h0, evs), total, now);
  }

  predicate AsksMore(asked: seq<int>, asked': seq<int>) {
    asked' == asked || (|asked'| == |asked| + 1 && asked' == asked + [asked'[|asked|]] && asked'[|asked|] >= 1)
  }

  /** One event spawns upward and asks for at most one more flow count, never
      for none. */
  lemma AsksGrow(h: Watched, ev: Event)
    requires Good(h)
    ensures var h' := After(h, ev);
      AsksMore(h.throttleKeeps, h'.throttleKeeps) && AsksMore(h.demotions, h'.demotions) && h.spawned <= h'.spawned
  {
    if ev.Window? && Note(h.r, ev.total, ev.now).1.spawnN > 0 { SpawnStep(h, ev.total, ev.now); }
  }

  lemma VerdictStep(h: Watched, total: int, now: int)
    requires Good(h)
    ensures var (r', e) := Note(h.r, total, now);
      e.demoteTo > 0 ==>
        && h.demotions == [] && r'.done && r'.admitted == h.r.admitted
        && h.r.floor <= e.demoteTo == h.r.prevAdmitted < h.r.admitted && e.spawnN == 0
  {
  }

  /** A throughput verdict happens once, ends the probing, and never asks for
      fewer than the floor; it leaves the admitted count as it is. */
  lemma VerdictKeepsFloor(h0: Watched, evs: seq<Event>, total: int, now: int)
    requires Begins(h0) && Note(AfterAll(h0, evs).r, total, now).1.demoteTo > 0
    ensures var h := AfterAll(h0, evs); var (r', e) := Note(h.r, total, now);
      && h.demotions == [] && r'.done && r'.admitted == h.r.admitted
      && h0.r.floor <= e.demoteTo == h.r.prevAdmitted < h.r.admitted && e.spawnN == 0
  {
    Throughout(h0, evs);
    VerdictStep(AfterAll(h0, evs), total, now);
  }

  lemma DemotionsKeepFloor(h0: Watched, evs: seq<Event>)
    requires Begins(h0)
    ensures var h := AfterAll(h0, evs);
      |h.demotions| <= 1 && forall i :: 0 <= i < |h.demotions| ==> h0.r.floor <= h.demotions[i] < h.spawned
  {
    Throughout(h0, evs);
  }

  /** The keeps that 429s ask for fall strictly, stay at least one, and there
      are at most three of them, however many 429s arrive. */
  lemma KeepsFall(h0: Watched, evs: seq<Event>)
    requires Begins(h0)
    ensures var keeps := AfterAll(h0, evs).throttleKeeps; Falling(keeps) && |keeps| <= 3
  {
    Throughout(h0, evs);
  }

  // ---- probing ends ----

  /** A window that counts: full, and past the settling time if one runs. */
  predicate Counts(h: Watched, ev: Event) {
    ev.Window? && Full(h.r, ev.total) && (h.r.settling ==> SettledLong(h.r, ev.now))
  }

  /** Windows that can still count before the governor is done. */
  function Budget(r: Ramp): int {
    if r.done then 0 else 6 * (r.parts - r.admitted) + BatchBudget(r)
  }

  function BatchBudget(r: Ramp): int {
    if r.admittedAt.Never? then (if r.warmed then 7 else 8)
    else if r.settling then 4 + MEASURE_WINDOWS - r.unreadyWindows
    else MEASURE_WINDOWS - r.sampleCount
  }

  lemma BudgetSpent(h: Watched, ev: Event)
    requires Good(h)
    ensures 0 <= Budget(h.r) && Budget(After(h, ev).r) <= Budget(h.r)
    ensures !h.r.done ==> 1 <= Budget(h.r)
    ensures Counts(h, ev) && !h.r.done ==> Budget(After(h, ev).r) < Budget(h.r)
  {
    AfterGood(h, ev);
    if ev.Window? && !h.r.done && Note(h.r, ev.total, ev.now).1.spawnN > 0 {
      SpawnStep(h, ev.total, ev.now);
    }
  }

  function CountAll(h: Watched, evs: seq<Event>): nat {
    if evs == [] then 0
    else
      var last := |evs| - 1;
      CountAll(h, evs[..last]) + if Counts(AfterAll(h, evs[..last]), evs[last]) then 1 else 0
  }

  lemma {:induction false} BudgetAlong(h: Watched, evs: seq<Event>)
    requires Good(h)
    ensures AfterAll(h, evs).r.done || Budget(AfterAll(h, evs).r) + CountAll(h, evs) <= Budget(h.r)
  {
    if evs != [] {
      var last := |evs| - 1;
      BudgetAlong(h, evs[..last]);
      RunGood(h, evs[..last]);
      BudgetSpent(AfterAll(h, evs[..last]), evs[last]);
    }
  }

  /** Once enough windows have counted, the governor has made up its mind:
      6 * (parts - floor) + 8 of them always suffice. */
  lemma ProbingEnds(h0: Watched, evs: seq<Event>)
    requires Begins(h0) && CountAll(h0, evs) >= 6 * (h0.r.parts - h0.r.floor) + 8
    ensures AfterAll(h0, evs).r.done
  {
    BeginGood(h0);
    BudgetAlong(h0, evs);
    RunGood(h0, evs);
    if !AfterAll(h0, evs).r.done { BudgetSpent(AfterAll(h0, evs), FirstByte(0)); }
  }
}
