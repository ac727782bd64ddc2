/** The resume sidecar: what it says is missing, when it is accepted, and how a
    snapshot of the scheduler becomes one. */
module Sidecar {
  import opened Intervals
  import opened Wrappers

  /** One incomplete range: [off + done, end) still has to be fetched. */
  datatype ChunkState = ChunkState(off: int, end: int, done: int)

  datatype StateFile = StateFile(
    version: int,
    sourceID: string,
    size: int,
    etag: string,
    lastModified: string,
    chunks: seq<ChunkState>)

  const STATE_VERSION := 2
  /** Hex digits of a SHA-256 digest. */
  const SOURCE_ID_LENGTH := 64

  predicate IsStrongETag(etag: string) {
    |etag| >= 2 && etag[0] == '"'
  }

  // ---- what a list of chunk states means ----

  ghost predicate Needs(cs: seq<ChunkState>, b: int) {
    exists i :: 0 <= i < |cs| && cs[i].off + cs[i].done <= b < cs[i].end
  }

  predicate InBounds(c: ChunkState, size: int) {
    0 <= c.off < c.end <= size && 0 <= c.done <= c.end - c.off
  }

  predicate StatesApart(c: ChunkState, d: ChunkState) {
    c.end <= d.off || d.end <= c.off
  }

  ghost predicate PairwiseApart(cs: seq<ChunkState>) {
    forall i, j {:trigger StatesApart(cs[i], cs[j])} :: 0 <= i < j < |cs| ==> StatesApart(cs[i], cs[j])
  }

  /** Non-empty ranges inside the file, no two of which overlap. */
  ghost predicate StatesOk(cs: seq<ChunkState>, size: int) {
    (forall i {:trigger InBounds(cs[i], size)} :: 0 <= i < |cs| ==> InBounds(cs[i], size)) && PairwiseApart(cs)
  }

  ghost predicate Loadable(st: StateFile) {
    && st.version == STATE_VERSION && |st.sourceID| == SOURCE_ID_LENGTH && st.size > 0
    && (st.etag != "" || st.lastModified != "")
    && StatesOk(st.chunks, st.size)
  }

  // ---- sorting by offset ----

  predicate SortedByOff(cs: seq<ChunkState>) {
    forall i, j :: 0 <= i < j < |cs| ==> cs[i].off <= cs[j].off
  }

  function Insert(c: ChunkState, cs: seq<ChunkState>): seq<ChunkState> {
    if cs == [] || c.off <= cs[0].off then [c] + cs else [cs[0]] + Insert(c, cs[1..])
  }

  function SortStates(cs: seq<ChunkState>): seq<ChunkState> {
    if cs == [] then [] else Insert(cs[0], SortStates(cs[1..]))
  }

  lemma {:induction false} InsertSorts(c: ChunkState, cs: seq<ChunkState>)
    requires SortedByOff(cs)
    ensures SortedByOff(Insert(c, cs))
    ensures multiset(Insert(c, cs)) == multiset(cs) + multiset{c}
  {
    if cs != [] && c.off > cs[0].off {
      InsertSorts(c, cs[1..]);
      var rest := Insert(c, cs[1..]);
      assert cs == [cs[0]] + cs[1..];
      forall i | 0 <= i < |rest| ensures cs[0].off <= rest[i].off {
        assert rest[i] in multiset(rest);
        if rest[i] != c {
          assert rest[i] in cs[1..];
        }
      }
    }
  }

  lemma {:induction false} SortSorts(cs: seq<ChunkState>)
    ensures SortedByOff(SortStates(cs)) && multiset(SortStates(cs)) == multiset(cs)
  {
    if cs != [] {
      SortSorts(cs[1..]);
      InsertSorts(cs[0], SortStates(cs[1..]));
      assert cs == [cs[0]] + cs[1..];
    }
  }

  // ---- being apart does not depend on the order ----

  lemma {:induction false} FindOne(cs: seq<ChunkState>, c: ChunkState) returns (i: nat)
    requires multiset(cs)[c] >= 1
    ensures i < |cs| && cs[i] == c
  {
    assert c in multiset(cs);
    i :| 0 <= i < |cs| && cs[i] == c;
  }

  lemma {:induction false} FindTwo(cs: seq<ChunkState>, c: ChunkState) returns (i: nat, j: nat)
    requires multiset(cs)[c] >= 2
    ensures i < j < |cs| && cs[i] == c && cs[j] == c
    decreases |cs|
  {
    assert cs == [cs[0]] + cs[1..];
    if cs[0] == c {
      assert multiset(cs) == multiset{cs[0]} + multiset(cs[1..]);
      var k := FindOne(cs[1..], c);
      i, j := 0, k + 1;
    } else {
      var k, l := FindTwo(cs[1..], c);
      i, j := k + 1, l + 1;
    }
  }

  lemma TwiceHere(cs: seq<ChunkState>, i: nat, j: nat)
    requires i < j < |cs| && cs[i] == cs[j]
    ensures multiset(cs)[cs[i]] >= 2
  {
    assert cs == cs[..i + 1] + cs[i + 1..];
    assert cs[i] in cs[..i + 1] by { assert cs[..i + 1][i] == cs[i]; }
    assert cs[j] in cs[i + 1..] by { assert cs[i + 1..][j - i - 1] == cs[j]; }
    assert multiset(cs) == multiset(cs[..i + 1]) + multiset(cs[i + 1..]);
    assert multiset(cs[..i + 1])[cs[i]] >= 1;
    assert multiset(cs[i + 1..])[cs[i]] >= 1;
  }

  lemma PermutationApart(cs: seq<ChunkState>, ds: seq<ChunkState>)
    requires multiset(cs) == multiset(ds) && PairwiseApart(cs)
    ensures PairwiseApart(ds)
  {
    forall i, j | 0 <= i < j < |ds| ensures StatesApart(ds[i], ds[j]) {
      if ds[i] == ds[j] {
        TwiceHere(ds, i, j);
        var k, l := FindTwo(cs, ds[i]);
        assert StatesApart(cs[k], cs[l]);
      } else {
        assert ds[i] in multiset(ds) && ds[j] in multiset(ds);
        var k := FindOne(cs, ds[i]);
        var l := FindOne(cs, ds[j]);
        assert if k < l then StatesApart(cs[k], cs[l]) else StatesApart(cs[l], cs[k]);
      }
    }
  }

  lemma PermutationBounds(cs: seq<ChunkState>, ds: seq<ChunkState>, size: int)
    requires multiset(cs) == multiset(ds) && forall i :: 0 <= i < |cs| ==> InBounds(cs[i], size)
    ensures forall i :: 0 <= i < |ds| ==> InBounds(ds[i], size)
  {
    forall i | 0 <= i < |ds| ensures InBounds(ds[i], size) {
      assert ds[i] in multiset(ds);
      var k := FindOne(cs, ds[i]);
    }
  }

  lemma PermutationOk(cs: seq<ChunkState>, ds: seq<ChunkState>, size: int)
    requires multiset(cs) == multiset(ds)
    ensures StatesOk(cs, size) <==> StatesOk(ds, size)
  {
    if StatesOk(cs, size) { PermutationBounds(cs, ds, size); PermutationApart(cs, ds); }
    if StatesOk(ds, size) { PermutationBounds(ds, cs, size); PermutationApart(ds, cs); }
  }

  // ---- loadState ----

  /** The scan over the sorted ranges finds a bad or overlapping one exactly
      when there is one, in whatever order the sidecar listed them. */
  method ScanStates(cs: seq<ChunkState>, size: int) returns (ok: bool)
    requires size > 0
    ensures ok <==> StatesOk(cs, size)
  {
    var sorted := SortStates(cs);
    SortSorts(cs);
    PermutationOk(cs, sorted, size);
    var prevEnd := -1;
    for i := 0 to |sorted|
      invariant prevEnd == if i == 0 then -1 else sorted[i - 1].end
      invariant forall k :: 0 <= k < i ==> InBounds(sorted[k], size) && sorted[k].end <= prevEnd
      invariant PairwiseApart(sorted[..i])
    {
      var c := sorted[i];
      if c.off < 0 || c.end > size || c.off >= c.end || c.done < 0 || c.done > c.end - c.off {
        assert !InBounds(sorted[i], size);
        return false;
      }
      if c.off < prevEnd {
        assert sorted[i - 1].off <= sorted[i].off;
        assert !StatesApart(sorted[i - 1], sorted[i]);
        return false;
      }
      prevEnd := c.end;
    }
    assert sorted[..|sorted|] == sorted;
    return true;
  }

  /** `parsed` is None when the sidecar is missing or does not parse. */
  method LoadState(parsed: Option<StateFile>) returns (r: Option<StateFile>)
    ensures r == if parsed.Some? && Loadable(parsed.value) then parsed else None
  {
    if parsed.None? {
      return None;
    }
    var st := parsed.value;
    if st.version != STATE_VERSION || |st.sourceID| != SOURCE_ID_LENGTH || st.size <= 0 {
      return None;
    }
    if st.etag == "" && st.lastModified == "" {
      return None;
    }
    var ok := ScanStates(st.chunks, st.size);
    return if ok then Some(st) else None;
  }

  // ---- usable ----

  /** Whether a sidecar may be trusted for a part file of `partSize` bytes and
      the validators the server sends now. */
  predicate Usable(st: StateFile, partSize: int, sourceID: string, size: int, etag: string, lastModified: string) {
    && st.sourceID == sourceID && st.size == size
    && (if IsStrongETag(st.etag) then st.etag == etag
        else st.lastModified != "" && st.lastModified == lastModified)
    && partSize == size
  }

  // ---- remaining ----

  function RemainingTo(cs: seq<ChunkState>, n: nat): int
    requires n <= |cs|
  {
    if n == 0 then 0 else RemainingTo(cs, n - 1) + (cs[n - 1].end - cs[n - 1].off) - cs[n - 1].done
  }

  function Missing(c: ChunkState): set<int> { Interval(c.off + c.done, c.end) }

  ghost function NeedTo(cs: seq<ChunkState>, n: nat): set<int>
    requires n <= |cs|
  {
    set i, b | 0 <= i < n && b in Missing(cs[i]) :: b
  }

  /** The bytes the sidecar says are missing. */
  ghost function NeedSet(cs: seq<ChunkState>): set<int> { NeedTo(cs, |cs|) }

  lemma NeedSetIs(cs: seq<ChunkState>, b: int)
    ensures b in NeedSet(cs) <==> Needs(cs, b)
  {
    if Needs(cs, b) {
      var i :| 0 <= i < |cs| && cs[i].off + cs[i].done <= b < cs[i].end;
      assert b in Missing(cs[i]);
    }
  }

  lemma NeedInside(cs: seq<ChunkState>, n: nat, size: int)
    requires StatesOk(cs, size) && n <= |cs|
    ensures NeedTo(cs, n) <= Interval(0, size)
  {
    forall i | 0 <= i < n ensures InBounds(cs[i], size) {}
  }

  lemma TailsDisjoint(cs: seq<ChunkState>, k: nat, size: int)
    requires StatesOk(cs, size) && k < |cs|
    ensures NeedTo(cs, k) !! Missing(cs[k])
  {
    assert InBounds(cs[k], size);
    forall i | 0 <= i < k ensures StatesApart(cs[i], cs[k]) && InBounds(cs[i], size) {}
  }

  lemma MissingSize(c: ChunkState, size: int)
    requires InBounds(c, size)
    ensures |Missing(c)| == (c.end - c.off) - c.done
  {
    IntervalSize(c.off + c.done, c.end);
  }

  lemma RemainingNext(cs: seq<ChunkState>, k: nat, size: int)
    requires StatesOk(cs, size) && k < |cs|
    ensures |NeedTo(cs, k + 1)| == |NeedTo(cs, k)| + ((cs[k].end - cs[k].off) - cs[k].done)
  {
    assert NeedTo(cs, k + 1) == NeedTo(cs, k) + Missing(cs[k]);
    assert InBounds(cs[k], size);
    MissingSize(cs[k], size);
    TailsDisjoint(cs, k, size);
    DisjointSize(NeedTo(cs, k), Missing(cs[k]));
  }

  lemma {:induction false} RemainingCounts(cs: seq<ChunkState>, n: nat, size: int)
    requires StatesOk(cs, size) && n <= |cs|
    ensures |NeedTo(cs, n)| == RemainingTo(cs, n)
  {
    if n > 0 {
      RemainingCounts(cs, n - 1, size);
      RemainingNext(cs, n - 1, size);
    }
  }

  /** remaining() of an accepted sidecar is the number of missing bytes, so the
      resumed-byte figure lies between nothing and everything. */
  method Remaining(st: StateFile) returns (n: int)
    ensures n == RemainingTo(st.chunks, |st.chunks|)
    ensures Loadable(st) ==> n == |NeedSet(st.chunks)| && 0 <= st.size - n <= st.size
  {
    n := 0;
    for i := 0 to |st.chunks|
      invariant n == RemainingTo(st.chunks, i)
    {
      n := n + (st.chunks[i].end - st.chunks[i].off) - st.chunks[i].done;
    }
    if Loadable(st) {
      RemainingCounts(st.chunks, |st.chunks|, st.size);
      NeedInside(st.chunks, |st.chunks|, st.size);
      IntervalSize(0, st.size);
      SubsetSize(NeedSet(st.chunks), Interval(0, st.size));
    }
  }
}
