/** The other half of resumption: which sidecars are accepted. A run that finds
    the sidecar of an earlier one goes on from it exactly if it may. */
module ResumeAccepts {
  import opened Wrappers
  import opened SchedulerModel
  import opened Engine
  import opened Sidecar
  import opened Snapshots
  import opened Resume

  /** At step j a run of rep took the snapshot cs. */
  ghost predicate TakenAt(ws: seq<World>, ms: seq<Move>, j: nat, rep: Rep, cs: seq<ChunkState>)
    requires j < |ms| < |ws|
  {
    && ms[j].Snapshot? && ms[j].out == cs && ws[j].process.Running? && ws[j].process.rep == rep
    && Resumable(rep) && IsSnapshot(ws[j].process.e.s, ms[j].order, cs)
  }

  ghost predicate WasTaken(ws: seq<World>, ms: seq<Move>, i: nat, rep: Rep, cs: seq<ChunkState>)
    requires i <= |ms| < |ws|
  {
    exists j {:trigger TakenAt(ws, ms, j, rep, cs)} :: 0 <= j < i && TakenAt(ws, ms, j, rep, cs)
  }

  lemma TakenStays(ws: seq<World>, ms: seq<Move>, i: nat, rep: Rep, cs: seq<ChunkState>)
    requires i < |ms| < |ws| && WasTaken(ws, ms, i, rep, cs)
    ensures WasTaken(ws, ms, i + 1, rep, cs)
  {
    var j :| 0 <= j < i && TakenAt(ws, ms, j, rep, cs);
  }

  /** What waits to be saved, and what was saved, is a snapshot some run took. */
  ghost predicate Traced(ws: seq<World>, ms: seq<Move>, i: nat)
    requires i <= |ms| < |ws|
  {
    var w := ws[i];
    && (w.process.Running? && w.process.flush.Some? ==> WasTaken(ws, ms, i, w.process.rep, w.process.flush.value))
    && (w.sidecar.Some? ==>
          WasTaken(ws, ms, i, w.recorded, w.sidecar.value.chunks) && w.sidecar.value == Record(w.recorded, w.sidecar.value.chunks))
  }

  lemma {:induction false} AllTraced(reps: set<Rep>, ws: seq<World>, ms: seq<Move>, i: nat)
    requires History(reps, ws, ms) && i <= |ms|
    ensures Traced(ws, ms, i)
  {
    if i > 0 {
      AllTraced(reps, ws, ms, i - 1);
      assert WorldAt(reps, ws, ms, i - 1);
      TraceStep(reps, ws, ms, i - 1);
    }
  }

  lemma TraceStep(reps: set<Rep>, ws: seq<World>, ms: seq<Move>, i: nat)
    requires i < |ms| < |ws| && Traced(ws, ms, i) && WorldStep(reps, ws[i], ms[i], ws[i + 1])
    ensures Traced(ws, ms, i + 1)
  {
    var w := ws[i];
    if w.process.Running? && w.process.flush.Some? { TakenStays(ws, ms, i, w.process.rep, w.process.flush.value); }
    if w.sidecar.Some? { TakenStays(ws, ms, i, w.recorded, w.sidecar.value.chunks); }
    if ms[i].Snapshot? { assert TakenAt(ws, ms, i, w.process.rep, ms[i].out); }
  }

  /** What makes a sidecar written for `recorded` fit a run of rep. */
  predicate Fits(recorded: Rep, rep: Rep, partSize: int) {
    && rep.sourceID == recorded.sourceID && |rep.bytes| == |recorded.bytes| == partSize
    && (if |recorded.etag| >= 2 && recorded.etag[0] == '"' then rep.etag == recorded.etag
        else recorded.lastModified != "" && rep.lastModified == recorded.lastModified)
  }

  /** A run that finds a sidecar resumes from it if and only if it is of the same
      source, size and validator, the part file has its size, and no active chunk
      was empty when the snapshot was taken. Source ids are SHA-256 in hex. */
  lemma AcceptedExactly(reps: set<Rep>, ws: seq<World>, ms: seq<Move>, i: nat, rep: Rep) returns (j: nat)
    requires History(reps, ws, ms) && i <= |ms| && ws[i].sidecar.Some? && |ws[i].recorded.sourceID| == SOURCE_ID_LENGTH
    ensures j < i && TakenAt(ws, ms, j, ws[i].recorded, ws[i].sidecar.value.chunks)
    ensures Resumes(ws[i], rep) <==> Fits(ws[i].recorded, rep, |ws[i].part|) && NoEmptyActive(ws[j].process.e.s)
  {
    AllTraced(reps, ws, ms, i);
    var cs := ws[i].sidecar.value.chunks;
    j :| 0 <= j < i && TakenAt(ws, ms, j, ws[i].recorded, cs);
    HistoryOk(reps, ws, ms, j);
    SnapshotLoads(ws[j].process.e.s, ms[j].order, cs, |ws[i].recorded.bytes|);
  }

  /** So with an honest server a sidecar that is accepted was written for the very
      bytes the run fetches; and one that was, of the same source and validator,
      is accepted while the part file is whole and no empty chunk was recorded. */
  lemma AcceptedMeansSameBytes(reps: set<Rep>, ws: seq<World>, ms: seq<Move>, i: nat, rep: Rep) returns (j: nat)
    requires History(reps, ws, ms) && i <= |ms| && ws[i].sidecar.Some? && |ws[i].recorded.sourceID| == SOURCE_ID_LENGTH
    requires rep in reps && rep.sourceID == ws[i].recorded.sourceID && SameValidator(ws[i].recorded, rep)
    ensures j < i && TakenAt(ws, ms, j, ws[i].recorded, ws[i].sidecar.value.chunks)
    ensures Resumes(ws[i], rep) <==>
      rep.bytes == ws[i].recorded.bytes && |ws[i].part| == |rep.bytes| && NoEmptyActive(ws[j].process.e.s)
  {
    j := AcceptedExactly(reps, ws, ms, i, rep);
    HistoryOk(reps, ws, ms, i);
  }
}
