/** The read loop of one worker, on the heap, while nobody else touches its
    chunk: buffers are claimed, written at the claimed offset and credited.
    (With others at work each call below is a step of its own; see Engine.) */
module WorkerLoop {
  import opened Engine
  import M = SchedulerModel
  import Scheduling

  /** os.File.WriteAt. */
  method WriteAt(file: array<bv8>, data: Bytes, at: int)
    requires 0 <= at && at + |data| <= file.Length
    modifies file
    ensures file[..] == Overwrite(old(file[..]), at, data)
  {
    for i := 0 to |data|
      invariant forall k :: 0 <= k < file.Length ==>
        file[k] == if at <= k < at + i then data[k - at] else old(file[k])
    {
      file[at + i] := data[i];
    }
  }

  lemma OverwriteTwice(file: Bytes, at: int, x: Bytes, y: Bytes)
    requires 0 <= at && at + |x| + |y| <= |file|
    ensures Overwrite(Overwrite(file, at, x), at + |x|, y) == Overwrite(file, at, x + y)
  {
  }

  lemma OverwriteNone(file: Bytes, at: int)
    requires 0 <= at <= |file|
    ensures Overwrite(file, at, []) == file
  {
  }

  /** The chunk after n more of its bytes were claimed, written and credited. */
  function Advanced(s: M.Sched, id: nat, n: int): M.Sched
    requires id in s.chunks
  {
    var c := s.chunks[id];
    s.(chunks := s.chunks[id := c.(done := c.done + n, written := c.written + n)])
  }

  lemma ClaimThenCredit(s: M.Sched, id: nat, len: nat)
    requires id in s.chunks
    ensures M.Credit(M.Claim(s, id, len), id, M.ClaimSize(s.chunks[id], len))
         == Advanced(s, id, M.ClaimSize(s.chunks[id], len))
    ensures M.ClaimSize(s.chunks[id], len) == 0 ==> M.Claim(s, id, len) == Advanced(s, id, 0)
    ensures Advanced(s, id, 0) == s
  {
    var c := s.chunks[id];
    var n := M.ClaimSize(c, len);
    assert M.Claim(s, id, len).chunks[id := c.(done := c.done + n, written := c.written + n)] == Advanced(s, id, n).chunks;
  }

  /** The state after the first n bytes of a body went in at a cursor. */
  predicate Stored(s0: M.Sched, f0: Bytes, id: nat, body: Bytes, n: int, s: M.Sched, f: Bytes) {
    && id in s0.chunks && 0 <= n <= |body|
    && s == Advanced(s0, id, n) && f == Overwrite(f0, s0.chunks[id].Cursor(), body[..n])
  }

  /** Write, then credit. */
  method Commit(sched: Scheduling.Scheduler, c: Scheduling.Chunk, data: Bytes, off: int, file: array<bv8>)
    requires sched.Valid() && sched.Knows(c) && 0 <= off && off + |data| <= file.Length
    modifies sched`view, c`written, file
    ensures sched.Valid() && sched.view == M.Credit(old(sched.view), c.id, |data|)
    ensures file[..] == Overwrite(old(file[..]), off, data)
  {
    WriteAt(file, data, off);
    sched.CreditWritten(c, |data|);
  }

  /** Claim, write, credit. */
  method Store(sched: Scheduling.Scheduler, c: Scheduling.Chunk, buf: Bytes, file: array<bv8>) returns (done: bool)
    requires sched.Valid() && sched.Knows(c) && M.ChunkOk(sched.view.chunks[c.id], file.Length)
    modifies sched`view, c`done, c`written, file
    ensures sched.Valid()
    ensures var k := old(sched.view).chunks[c.id]; var n := M.ClaimSize(k, |buf|);
      && Stored(old(sched.view), old(file[..]), c.id, buf, n, sched.view, file[..])
      && (done <==> n == k.Remaining())
  {
    ghost var s := sched.view;
    ghost var k := s.chunks[c.id];
    ClaimThenCredit(s, c.id, |buf|);
    var off, n;
    off, n, done := sched.Claim(c, |buf|);
    assert n == M.ClaimSize(k, |buf|) && off == k.Cursor();
    if n > 0 {
      Commit(sched, c, buf[..n], off, file);
    } else {
      OverwriteNone(file[..], off);
      assert buf[..n] == [];
    }
  }

  /** chunkSink: what the chunk has no room for is dropped. */
  method Sink(sched: Scheduling.Scheduler, c: Scheduling.Chunk, buf: Bytes, file: array<bv8>) returns (stop: bool)
    requires sched.Valid() && sched.Knows(c) && M.ChunkOk(sched.view.chunks[c.id], file.Length)
    modifies sched`view, c`done, c`written, file
    ensures sched.Valid()
    ensures var k := old(sched.view).chunks[c.id]; var n := M.ClaimSize(k, |buf|);
      && Stored(old(sched.view), old(file[..]), c.id, buf, n, sched.view, file[..])
      && (stop <==> |buf| > 0 && n == k.Remaining())
  {
    if |buf| == 0 {
      ClaimThenCredit(sched.view, c.id, 0);
      OverwriteNone(file[..], sched.view.chunks[c.id].Cursor());
      return false;
    }
    stop := Store(sched, c, buf, file);
  }

  datatype Ended = Drained | BodyOver | NoBuffer

  /** How much of a body the chunk takes. */
  function Taken(c: M.Chunk, body: Bytes): int { M.ClaimSize(c, |body|) }

  lemma AdvancedTwice(s: M.Sched, id: nat, n: int, m: int)
    requires id in s.chunks
    ensures Advanced(Advanced(s, id, n), id, m) == Advanced(s, id, n + m)
  {
    assert Advanced(Advanced(s, id, n), id, m).chunks == Advanced(s, id, n + m).chunks;
  }

  lemma StoredMore(s0: M.Sched, f0: Bytes, id: nat, body: Bytes, pos: nat, next: nat, n: nat,
                   s: M.Sched, f: Bytes, s': M.Sched, f': Bytes)
    requires pos <= next <= |body| && Stored(s0, f0, id, body, pos, s, f) && Stored(s, f, id, body[pos..next], n, s', f')
    requires 0 <= s0.chunks[id].Cursor() && s0.chunks[id].Cursor() + pos + n <= |f0|
    ensures Stored(s0, f0, id, body, pos + n, s', f')
  {
    AdvancedTwice(s0, id, pos, n);
    assert body[..pos] + body[pos..next][..n] == body[..pos + n];
    OverwriteTwice(f0, s0.chunks[id].Cursor(), body[..pos], body[pos..next][..n]);
  }

  lemma RoomLeft(s0: M.Sched, f0: Bytes, id: nat, body: Bytes, pos: nat, s: M.Sched, f: Bytes)
    requires Stored(s0, f0, id, body, pos, s, f) && M.ChunkOk(s0.chunks[id], |f0|) && pos <= s0.chunks[id].Remaining()
    ensures id in s.chunks && M.ChunkOk(s.chunks[id], |f0|)
  {
  }

  /** A turn that stored what the chunk had room for. */
  lemma TurnStores(s0: M.Sched, f0: Bytes, id: nat, body: Bytes, pos: nat, next: nat,
                   s: M.Sched, f: Bytes, s': M.Sched, f': Bytes)
    requires Stored(s0, f0, id, body, pos, s, f) && M.ChunkOk(s0.chunks[id], |f0|) && pos <= s0.chunks[id].Remaining()
    requires pos <= next <= |body| && Stored(s, f, id, body[pos..next], M.ClaimSize(s.chunks[id], next - pos), s', f')
    ensures Stored(s0, f0, id, body, M.ClaimSize(s0.chunks[id], next), s', f')
    ensures M.ClaimSize(s.chunks[id], next - pos) == s.chunks[id].Remaining() <==>
      M.ClaimSize(s0.chunks[id], next) == s0.chunks[id].Remaining()
  {
    StoredMore(s0, f0, id, body, pos, next, M.ClaimSize(s.chunks[id], next - pos), s, f, s', f');
  }

  /** One buffer of the body. */
  method Turn(sched: Scheduling.Scheduler, c: Scheduling.Chunk, body: Bytes, pos: nat, next: nat, file: array<bv8>,
              ghost s0: M.Sched, ghost f0: Bytes)
    returns (stop: bool)
    requires sched.Valid() && sched.Knows(c) && pos <= next <= |body| && |f0| == file.Length
    requires c.id in s0.chunks && M.ChunkOk(s0.chunks[c.id], file.Length) && pos <= s0.chunks[c.id].Remaining()
    requires Stored(s0, f0, c.id, body, pos, sched.view, file[..])
    modifies sched`view, c`done, c`written, file
    ensures sched.Valid()
    ensures Stored(s0, f0, c.id, body, M.ClaimSize(s0.chunks[c.id], next), sched.view, file[..])
    ensures stop <==> next > pos && M.ClaimSize(s0.chunks[c.id], next) == s0.chunks[c.id].Remaining()
  {
    ghost var s, f := sched.view, file[..];
    RoomLeft(s0, f0, c.id, body, pos, s, f);
    stop := Sink(sched, c, body[pos..next], file);
    TurnStores(s0, f0, c.id, body, pos, next, s, f, sched.view, file[..]);
  }

  method PumpLoop(sched: Scheduling.Scheduler, c: Scheduling.Chunk, body: Bytes, bufLen: nat, file: array<bv8>)
    returns (drained: bool)
    requires sched.Valid() && sched.Knows(c) && M.ChunkOk(sched.view.chunks[c.id], file.Length) && bufLen > 0
    modifies sched`view, c`done, c`written, file
    ensures sched.Valid()
    ensures var k := old(sched.view).chunks[c.id]; var n := Taken(k, body);
      && Stored(old(sched.view), old(file[..]), c.id, body, n, sched.view, file[..])
      && (drained <==> |body| > 0 && k.Remaining() <= |body|)
  {
    ghost var s, f := sched.view, file[..];
    var pos := 0;
    ClaimThenCredit(s, c.id, 0);
    OverwriteNone(f, s.chunks[c.id].Cursor());
    assert Stored(s, f, c.id, body, 0, sched.view, file[..]);
    while true
      invariant sched.Valid() && pos <= |body| && (pos == 0 || pos < s.chunks[c.id].Remaining())
      invariant Stored(s, f, c.id, body, pos, sched.view, file[..])
      decreases |body| - pos
    {
      var next := if |body| - pos < bufLen then |body| else pos + bufLen;
      var stop := Turn(sched, c, body, pos, next, file, s, f);
      if stop {
        return true;
      }
      if next == |body| {
        return false;
      }
      pos := next;
    }
  }

  /** pump over a body of known length, bufLen bytes at a time: ends when the
      chunk has no bytes left to claim or the body is over. The body's bytes
      stand in the file from the claim cursor on, as many as the chunk had
      room for, all of them claimed and credited, and nothing else changed. */
  method Pump(sched: Scheduling.Scheduler, c: Scheduling.Chunk, body: Bytes, bufLen: nat, file: array<bv8>)
    returns (r: Ended)
    requires sched.Valid() && sched.Knows(c) && M.ChunkOk(sched.view.chunks[c.id], file.Length)
    modifies sched`view, c`done, c`written, file
    ensures sched.Valid()
    ensures bufLen == 0 <==> r == NoBuffer
    ensures bufLen == 0 ==> sched.view == old(sched.view) && file[..] == old(file[..])
    ensures bufLen > 0 ==>
      var k := old(sched.view).chunks[c.id]; var n := Taken(k, body);
      && Stored(old(sched.view), old(file[..]), c.id, body, n, sched.view, file[..])
      && (r == Drained <==> |body| > 0 && k.Remaining() <= |body|)
  {
    if bufLen == 0 {
      return NoBuffer;
    }
    var drained := PumpLoop(sched, c, body, bufLen, file);
    r := if drained then Drained else BodyOver;
  }
}
