/** The concurrency governor: workers are admitted in doubling batches, each
    batch is judged by the bytes that arrive, and an explicit 429 sheds flows.

    Time is an arbitrary integer count of nanoseconds; nothing here needs it to
    advance. Rates are exact reals where the original uses float64. `Ramp` is
    the governor's value and each of its critical sections a function of it. */
module Ramping {

  datatype Stamp = Never | At(t: int)

  datatype Sample = Sample(bytes: int, elapsed: int)

  const MEASURE_WINDOWS := 2
  const SETTLE_FLOOR := 1_000_000
  const SETTLE_CAP := 200_000_000

  function Min(a: int, b: int): int { if a < b then a else b }

  function Max(a: int, b: int): int { if a > b then a else b }

  /** Bytes per nanosecond, over at least one nanosecond. */
  function Rate(s: Sample): real { s.bytes as real / Max(s.elapsed, 1) as real }

  function SettleFloorFor(electDur: int): (r: int)
    ensures SETTLE_FLOOR <= r <= SETTLE_CAP
    ensures SETTLE_FLOOR <= 2 * electDur <= SETTLE_CAP ==> r == 2 * electDur
    ensures 2 * electDur < SETTLE_FLOOR ==> r == SETTLE_FLOOR
    ensures 2 * electDur > SETTLE_CAP ==> r == SETTLE_CAP
  {
    Min(Max(2 * electDur, SETTLE_FLOOR), SETTLE_CAP)
  }

  /** Every configured connection could be given a chunk of minimum size. */
  predicate Eligible(remaining: int, minPartSize: int, parts: int)
    requires remaining >= 0
  {
    parts > 1 && minPartSize > 0 && remaining / minPartSize >= parts
  }

  lemma EligibleIs(remaining: int, minPartSize: int, parts: int)
    requires remaining >= 0 && minPartSize >= 1
    ensures Eligible(remaining, minPartSize, parts) <==> parts > 1 && remaining >= parts * minPartSize
  {
    var q := remaining / minPartSize;
    assert q * minPartSize <= remaining < (q + 1) * minPartSize;
    if q >= parts { Times(parts, q, minPartSize); } else { Times(q + 1, parts, minPartSize); }
  }

  lemma Times(a: int, b: int, c: int)
    requires a <= b && c >= 0
    ensures a * c <= b * c
  {
    assert (b - a) * c >= 0;
  }

  datatype Ramp = Ramp(
    done: bool,
    parts: int,
    floor: int,
    window: int,
    settleMin: int,
    warmed: bool,
    settling: bool,
    admitted: int,
    admittedAt: Stamp,
    unreadyWindows: int,
    prevAdmitted: int,
    baseline: Sample,
    sample: Sample,
    sampleCount: int,
    markAt: int,
    markTime: int,
    batchReady: bool)

  /** What to do once the lock is released: spawn workers spawnFrom,
      spawnFrom + 1, ... and, when demoteTo > 0, demote to that many. */
  datatype Effect = Effect(spawnFrom: int, spawnN: int, demoteTo: int)

  const NONE := Effect(0, 0, 0)

  function Fresh(parts: int, floor: int, window: int, settleMin: int, now: int, canRamp: bool): Ramp {
    Ramp(floor >= parts || !canRamp, parts, floor, window, settleMin, false, false, floor, Never, 0, 0,
         Sample(0, 0), Sample(0, 0), 0, 0, now, false)
  }

  /** The window that ends now is consumed. */
  function Close(r: Ramp, total: int, now: int): Ramp { r.(markAt := total, markTime := now) }

  function Admit(r: Ramp, sample: Sample, now: int): (Ramp, Effect) {
    var add := Min(r.admitted, r.parts - r.admitted);
    (r.(baseline := sample, admittedAt := At(now), prevAdmitted := r.admitted, admitted := r.admitted + add,
        settling := true, unreadyWindows := 0, batchReady := false),
     Effect(r.admitted, add, 0))
  }

  function Decide(r: Ramp, sample: Sample, now: int): (Ramp, Effect) {
    var rate := Rate(sample);
    var baseline := Rate(r.baseline);
    if rate < baseline * 1.02 then (r.(done := true), Effect(0, 0, r.prevAdmitted))
    else if rate < baseline * 1.15 then (r.(done := true), NONE)
    else if r.admitted < r.parts then Admit(r, sample, now)
    else (r.(done := true), NONE)
  }

  function Measure(r: Ramp, bytes: int, elapsed: int, now: int): (Ramp, Effect) {
    var sum := Sample(r.sample.bytes + bytes, r.sample.elapsed + elapsed);
    if r.sampleCount + 1 < MEASURE_WINDOWS then (r.(sample := sum, sampleCount := r.sampleCount + 1), NONE)
    else Decide(r.(sample := Sample(0, 0), sampleCount := 0), sum, now)
  }

  predicate SettledLong(r: Ramp, now: int) { r.admittedAt.Never? || now - r.admittedAt.t >= r.settleMin }

  function Settle(r: Ramp, now: int): (Ramp, Effect) {
    if !SettledLong(r, now) then (r, NONE)
    else if r.batchReady then (r.(settling := false, unreadyWindows := 0), NONE)
    else
      var r' := r.(unreadyWindows := r.unreadyWindows + 1);
      if r'.unreadyWindows > MEASURE_WINDOWS then (r'.(done := true), Effect(0, 0, r'.prevAdmitted)) else (r', NONE)
  }

  /** A full window has passed since the last mark. */
  predicate Full(r: Ramp, total: int) { total - r.markAt >= r.window }

  function Note(r: Ramp, total: int, now: int): (Ramp, Effect) {
    if r.done || !Full(r, total) then (r, NONE)
    else
      var bytes := total - r.markAt;
      var elapsed := now - r.markTime;
      var c := Close(r, total, now);
      if !r.warmed then (c.(warmed := true), NONE)
      else if r.settling then Settle(c, now)
      else if r.admitted == r.floor && r.admittedAt.Never? then Admit(c, Sample(bytes, elapsed), now)
      else Measure(c, bytes, elapsed, now)
  }

  function Ready(r: Ramp, id: int): Ramp {
    if r.admittedAt.Never? || id < r.prevAdmitted || id >= r.admitted then r else r.(batchReady := true)
  }

  /** A 429 from worker id; the second part is the flow count to demote to, or 0. */
  function Throttle(r: Ramp, id: int): (Ramp, int) {
    if id >= r.admitted || r.admitted <= 1 then (r.(done := true), 0)
    else
      var keep := if r.admitted > r.floor then Max(r.prevAdmitted, r.floor) else 1;
      (r.(done := true, admitted := keep, prevAdmitted := r.floor), keep)
  }
}
