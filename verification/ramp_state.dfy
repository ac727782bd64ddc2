/** The governor as an object. Every section is proved against its function of
    the governor's value, and what that means over the whole history is stated
    where the caller sees it. */
module RampStates {
  import opened Ramping
  import W = RampLaws
  import U = RampRules

  class RampState {
    var done: bool
    const parts: int
    const floor: int
    const window: int
    const settleMin: int
    var warmed: bool
    var settling: bool
    var admitted: int
    var admittedAt: Stamp
    var unreadyWindows: int
    var prevAdmitted: int
    var admissionBaseline: Sample
    var sampleBytes: int
    var sampleTime: int
    var sampleCount: int
    var markAt: int
    var markTime: int
    var batchReady: bool

    /** All that happened so far. */
    ghost var history: W.Watched

    ghost predicate Valid()
      reads this
    {
      history.r == View() && W.Good(history) && U.Tracked(history)
    }

    ghost function View(): Ramp
      reads this
    {
      Ramp(done, parts, floor, window, settleMin, warmed, settling, admitted, admittedAt, unreadyWindows,
           prevAdmitted, admissionBaseline, Sample(sampleBytes, sampleTime), sampleCount, markAt, markTime, batchReady)
    }

    /** The window is big enough to measure and small enough for several of
        them; probing makes sense only if the work can feed every connection. */
    constructor (parts: int, start: int, minPartSize: int, remaining: int, electDur: int, now: int)
      requires 1 <= start <= parts && minPartSize >= 1 && remaining >= 0
      ensures Valid() && W.Begins(history) && floor == admitted == start && this.parts == parts
      ensures done <==> start == parts || parts == 1 || remaining < parts * minPartSize
      ensures remaining >= 32 * minPartSize ==> window == 2 * minPartSize
      ensures 16 <= remaining < 32 * minPartSize ==> 16 * window <= remaining < 16 * window + 16
      ensures remaining < 16 ==> window == 1
      ensures settleMin == SettleFloorFor(electDur)
    {
      var canRamp := Eligible(remaining, minPartSize, parts);
      var size := Max(Min(2 * minPartSize, remaining / 16), 1);
      done := start >= parts || !canRamp;
      this.parts, floor, window, settleMin := parts, start, size, SettleFloorFor(electDur);
      warmed, settling, admitted, admittedAt := false, false, start, Never;
      unreadyWindows, prevAdmitted, admissionBaseline := 0, 0, Sample(0, 0);
      sampleBytes, sampleTime, sampleCount, markAt, markTime, batchReady := 0, 0, 0, 0, now, false;
      history := W.Begin(parts, start, size, SettleFloorFor(electDur), now, canRamp);
      new;
      EligibleIs(remaining, minPartSize, parts);
      W.BeginGood(history);
      U.BeginTracked(history);
    }

    method AdmitLocked(sample: Sample, now: int) returns (effect: Effect)
      modifies this
      ensures history == old(history)
      ensures (View(), effect) == Admit(old(View()), sample, now)
    {
      var add := Min(admitted, parts - admitted);
      admissionBaseline := sample;
      admittedAt := At(now);
      prevAdmitted := admitted;
      var spawnFrom := admitted;
      admitted := admitted + add;
      settling := true;
      unreadyWindows := 0;
      batchReady := false;
      effect := Effect(spawnFrom, add, 0);
    }

    method DecideLocked(sample: Sample, now: int) returns (effect: Effect)
      modifies this
      ensures history == old(history)
      ensures (View(), effect) == Decide(old(View()), sample, now)
      ensures var rate, baseline := Rate(sample), old(Rate(admissionBaseline));
        && (rate < baseline * 1.02 ==> done && effect == Effect(0, 0, old(prevAdmitted)) && admitted == old(admitted))
        && (baseline * 1.02 <= rate < baseline * 1.15 ==> done && effect == NONE && admitted == old(admitted))
        && (baseline * 1.02 <= rate && baseline * 1.15 <= rate && old(admitted) >= parts ==>
              done && effect == NONE && admitted == old(admitted))
        && (baseline * 1.02 <= rate && baseline * 1.15 <= rate && old(admitted) < parts ==>
              done == old(done) && effect.spawnN == admitted - old(admitted) && effect.demoteTo == 0)
    {
      effect := NONE;
      var rate := Rate(sample);
      var baseline := Rate(admissionBaseline);
      if rate < baseline * 1.02 {
        done := true;
        effect := Effect(0, 0, prevAdmitted);
      } else if rate < baseline * 1.15 {
        done := true;
      } else if admitted < parts {
        effect := AdmitLocked(sample, now);
      } else {
        done := true;
      }
    }

    method MeasureLocked(bytes: int, elapsed: int, now: int) returns (effect: Effect)
      modifies this
      ensures history == old(history)
      ensures (View(), effect) == Measure(old(View()), bytes, elapsed, now)
    {
      sampleBytes := sampleBytes + bytes;
      sampleTime := sampleTime + elapsed;
      sampleCount := sampleCount + 1;
      if sampleCount < MEASURE_WINDOWS {
        return NONE;
      }
      var sample := Sample(sampleBytes, sampleTime);
      sampleBytes, sampleTime, sampleCount := 0, 0, 0;
      effect := DecideLocked(sample, now);
    }

    method SettleLocked(now: int) returns (effect: Effect)
      modifies this
      ensures history == old(history)
      ensures (View(), effect) == Settle(old(View()), now)
    {
      effect := NONE;
      if admittedAt.Never? || now - admittedAt.t >= settleMin {
        if batchReady {
          settling := false;
          unreadyWindows := 0;
        } else {
          unreadyWindows := unreadyWindows + 1;
          if unreadyWindows > MEASURE_WINDOWS {
            done := true;
            effect := Effect(0, 0, prevAdmitted);
          }
        }
      }
    }

    /** At most one window, by the rules. In particular no effect once probing is
        over; a batch takes the next fresh ids and needs evidence; a demotion ends
        probing and never goes below the floor. */
    method NoteLocked(total: int, now: int) returns (effect: Effect)
      requires Valid()
      modifies this
      ensures Valid() && history == W.After(old(history), W.Window(total, now))
      ensures (View(), effect) == Note(old(View()), total, now)
      ensures U.FollowsRules(old(history), total, now, effect, history)
      ensures old(done) ==> effect == NONE && done
      ensures effect.spawnN > 0 ==>
        && effect.spawnFrom == old(history).spawned && history.spawned == effect.spawnFrom + effect.spawnN <= parts
        && effect.demoteTo == 0 && admitted == history.spawned
      ensures effect.spawnN > 0 && old(history).admissions > 0 ==> W.Earned(old(history), total, now)
      ensures effect.demoteTo > 0 ==>
        done && floor <= effect.demoteTo < old(admitted) == admitted && effect.spawnN == 0
    {
      W.AfterGood(history, W.Window(total, now));
      U.WindowFollows(history, total, now);
      ghost var h := history;
      if Note(h.r, total, now).1.spawnN > 0 {
        W.SpawnStep(h, total, now);
        if h.admissions > 0 { W.EarnedStep(h, total, now); }
      }
      W.VerdictStep(h, total, now);
      effect := Advance(total, now);
      history := W.After(history, W.Window(total, now));
    }

    method Advance(total: int, now: int) returns (effect: Effect)
      modifies this
      ensures history == old(history) && (View(), effect) == Note(old(View()), total, now)
    {
      effect := NONE;
      if done || total - markAt < window {
        return;
      }
      var bytes := total - markAt;
      var elapsed := now - markTime;
      markAt := total;
      markTime := now;
      if !warmed {
        warmed := true;
      } else if settling {
        effect := SettleLocked(now);
      } else if admitted == floor && admittedAt.Never? {
        effect := AdmitLocked(Sample(bytes, elapsed), now);
      } else {
        effect := MeasureLocked(bytes, elapsed, now);
      }
    }

    method NoteWorkerReady(id: int)
      requires Valid()
      modifies this
      ensures Valid() && history == W.After(old(history), W.FirstByte(id)) && View() == Ready(old(View()), id)
      ensures batchReady <==> old(batchReady) || (old(history).admissions > 0 && prevAdmitted <= id < admitted)
    {
      U.StepFollows(history, W.FirstByte(id));
      W.AfterGood(history, W.FirstByte(id));
      history := W.After(history, W.FirstByte(id));
      if admittedAt.Never? || id < prevAdmitted || id >= admitted {
        return;
      }
      batchReady := true;
    }

    /** A 429 ends probing. It sheds flows exactly when it comes from a worker
        that is to stay and there is more than one, and it never sheds all. */
    method RejectThrottled(id: int) returns (keep: int)
      requires Valid()
      modifies this
      ensures Valid() && history == W.After(old(history), W.TooMany(id)) && (View(), keep) == Throttle(old(View()), id)
      ensures done && (keep > 0 <==> id < old(admitted) && old(admitted) > 1)
      ensures keep > 0 ==> 1 <= keep == admitted < old(admitted) && history.throttleKeeps == old(history).throttleKeeps + [keep]
      ensures U.Walks(old(history), id, history)
      ensures W.Falling(history.throttleKeeps) && |history.throttleKeeps| <= 3
    {
      U.ThrottleFollows(history, id);
      W.AfterGood(history, W.TooMany(id));
      history := W.After(history, W.TooMany(id));
      done := true;
      if id >= admitted || admitted <= 1 {
        return 0;
      }
      keep := 1;
      if admitted > floor {
        keep := Max(prevAdmitted, floor);
      }
      admitted := keep;
      prevAdmitted := floor;
    }
  }
}
