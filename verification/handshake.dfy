/** The handshake of Rotation and the placement object are one thing: what the
    object's critical sections do to its workers is what the steps of the
    handshake do to theirs. */
module Handshake {
  import opened Placement
  import opened Culling
  import opened NodePlacements
  import R = Rotation

  /** The placement's records of the workers of s: their flags, whether a cancel
      is registered, and whether they are on an address. */
  ghost predicate Shows(ws: Workers, s: R.State) {
    && ws.Keys == s.workers.Keys
    && forall id :: id in ws ==> ShowsOne(ws[id], s.workers[id])
  }

  predicate ShowsOne(p: Placed, x: R.Worker) {
    p.rotate == x.rotate && p.inFlight == x.registered && (p.addr == NO_ADDR <==> x.held.Nothing?)
  }

  function Collected(s: R.State, ids: set<nat>): set<(nat, nat)> {
    set id | id in ids && id in s.workers :: (id, s.workers[id].attempt)
  }

  /** cullLocked on address a is the cull of the workers on it: the flags raised
      are the same, and the cancels it collects are those that get queued. */
  lemma CullAgrees(ws: Workers, s: R.State, a: Addr)
    requires Shows(ws, s) && a != NO_ADDR
    ensures var s' := R.AfterCull(s, On(ws, a));
      && R.Step(s, R.Cull(On(ws, a)), s') && Shows(Rotated(ws, a), s')
      && s'.queued == s.queued + Collected(s, Cancelled(ws, a))
  {
    var s' := R.AfterCull(s, On(ws, a));
    forall c ensures c in s'.queued <==> c in s.queued + Collected(s, Cancelled(ws, a)) {
      if c in s'.queued && c !in s.queued { assert c.0 in Cancelled(ws, a); }
      if c in Collected(s, Cancelled(ws, a)) { assert c.0 in On(ws, a) && s.workers[c.0].registered; }
    }
  }

  /** In every reachable state a cull of address a collects the cancel of each
      attempt that is under way there, and raises the flag of everybody there. */
  lemma CullReachesAll(ss: seq<R.State>, ops: seq<R.Op>, i: nat, ws: Workers, a: Addr, id: nat)
    requires R.Run(ss, ops) && i < |ss| && Shows(ws, ss[i]) && id in On(ws, a)
    ensures id in Cancelled(ws, a) <==> ss[i].workers[id].pc.UnderWay()
    ensures id in Rotated(ws, a) && Rotated(ws, a)[id].rotate
  {
    R.Reached(ss, ops, i);
    assert R.WorkerOk(ss[i].workers[id], id, ss[i].queued);
  }

  /** One worker's record and its place in the handshake change together. */
  lemma ShowsUpdate(ws: Workers, s: R.State, id: nat, p: Placed, x: R.Worker)
    requires Shows(ws, s) && id in ws && ShowsOne(p, x)
    ensures Shows(ws[id := p], s.(workers := s.workers[id := x]))
  {
  }

  /** BeginAttempt is Begin, and the flag it returns is whether the attempt is
      cancelled at once. */
  lemma BeginAgrees(ws: Workers, s: R.State, id: nat)
    requires Shows(ws, s) && id in ws && s.workers[id].pc.Ready?
    ensures var x' := R.AfterBegin(s.workers[id]); var s' := s.(workers := s.workers[id := x']);
      && R.Step(s, R.Begin(id), s') && x'.cancelled == ws[id].rotate
      && Shows(ws[id := ws[id].(inFlight := true, rotate := false)], s')
  {
    var x' := R.AfterBegin(s.workers[id]);
    assert R.LeadInStep(s.workers[id], R.Begin(id), x');
    ShowsUpdate(ws, s, id, ws[id].(inFlight := true, rotate := false), x');
  }

  /** TakeRotate is CheckRotate: the worker drops its transport if it returns true. */
  lemma LookAgrees(ws: Workers, s: R.State, id: nat)
    requires Shows(ws, s) && id in ws && s.workers[id].pc.Between?
    ensures var x := s.workers[id];
      var x' := x.(pc := if ws[id].rotate then R.Dropping(true) else R.Checked, rotate := false);
      var s' := s.(workers := s.workers[id := x']);
      R.Step(s, R.CheckRotate(id), s') && Shows(ws[id := ws[id].(rotate := false)], s')
  {
    var x := s.workers[id];
    var x' := x.(pc := if ws[id].rotate then R.Dropping(true) else R.Checked, rotate := false);
    assert R.LeadInStep(x, R.CheckRotate(id), x');
    ShowsUpdate(ws, s, id, ws[id].(rotate := false), x');
  }

  /** EndAttempt is End. */
  lemma EndAgrees(ws: Workers, s: R.State, id: nat)
    requires Shows(ws, s) && id in ws && s.workers[id].pc.Over?
    ensures var s' := s.(workers := s.workers[id := R.Ended(s.workers[id])]);
      R.Step(s, R.End(id), s') && Shows(ws[id := ws[id].(inFlight := false)], s')
  {
    assert R.AttemptStep(s.workers[id], R.End(id), R.Ended(s.workers[id]));
    ShowsUpdate(ws, s, id, ws[id].(inFlight := false), R.Ended(s.workers[id]));
  }

  /** AttachInitial is Attach, and the release after the body is Release. */
  lemma ElectionAgrees(ws: Workers, s: R.State, id: nat, addr: Addr)
    requires Shows(ws, s) && id in ws && addr != NO_ADDR
    ensures s.workers[id].pc.Taken? ==>
      var s' := s.(workers := s.workers[id := s.workers[id].(pc := R.Ready, held := R.Borrowed)]);
      R.Step(s, R.Attach(id, true), s') && Shows(Reassigned(ws, id, addr, false), s')
    ensures s.workers[id].pc.Releasing? && s.workers[id].held.Borrowed? ==>
      var s' := s.(workers := s.workers[id := R.Released(s.workers[id])]);
      R.Step(s, R.Release(id), s') && Shows(Reassigned(ws, id, NO_ADDR, false), s')
  {
    var x := s.workers[id];
    if x.pc.Taken? {
      assert R.LeadInStep(x, R.Attach(id, true), x.(pc := R.Ready, held := R.Borrowed));
    }
    if x.pc.Releasing? {
      assert R.AttemptStep(x, R.Release(id), R.Released(x));
    }
  }
}
