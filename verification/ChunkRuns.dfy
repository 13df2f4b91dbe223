/** GETCHUNKS on the mio server alone, on any schedule of the socket, and the
    chunks the tokio server prepares for it. */
module ChunkRuns {
  import opened Text
  import opened Wire
  import opened Chunks
  import opened ServerMachine
  import opened PutRuns

  /** A connection that sends chunks, and what it has sent for this command. */
  datatype Sending = Sending(s: Server, out: Bytes)

  predicate Enabled(t: Tables, x: Sending, l: Label) {
    && (x.s.phase.ChunksSend? || x.s.phase.ChunksSendLast?) && !l.Reads?
    && (l.Writes? ==> x.s.inCall && x.s.writePos <= |Message(t, x.s)| && 0 < l.n <= |Offer(t, x.s)|)
  }

  function Step(t: Tables, x: Sending, l: Label): Sending
    requires Enabled(t, x, l)
  {
    if l.Writes? then Sending(Wrote(t, x.s, l.n, l.now), x.out + Offer(t, x.s)[..l.n])
        else x.(s := Enter(t, x.s, l.now))
  }

  ghost predicate Run(t: Tables, xs: seq<Sending>, ls: seq<Label>) {
    && |xs| == |ls| + 1
    && forall i | 0 <= i < |ls| :: Enabled(t, xs[i], ls[i]) && xs[i + 1] == Step(t, xs[i], ls[i])
  }

  /** The parser has just taken `GETCHUNKS n size`. */
  predicate Started(x: Sending, n: nat, size: nat) {
    && x.s.phase.ChunksSend? && x.s.numChunks == n && x.s.chunkSize == size && x.s.processed == 0 && x.s.writePos == 0
    && x.out == [] && !x.s.inCall
  }

  function AllChunks(t: Tables, n: nat, size: nat): Bytes
    requires n > 0 && size in t.zero && size in t.last
  {
    Rep(t.zero[size], n - 1) + t.last[size]
  }

  predicate SendInv(t: Tables, x: Sending, n: nat, size: nat) {
    var s := x.s;
    && n > 0 && size in t.zero && size in t.last && |t.zero[size]| == |t.last[size]| == size
    && s.numChunks == n && s.chunkSize == size && s.writePos < size
    && match s.phase
       case ChunksSend =>
         && s.processed < n && (s.inCall ==> s.processed + 1 < n && s.clock.Some?)
         && (s.clock.None? || s.processed + 1 == n ==> s.writePos == 0)
         && x.out == Rep(t.zero[size], s.processed) + t.zero[size][..s.writePos]
       case ChunksSendLast => s.processed + 1 == n && x.out == Rep(t.zero[size], n - 1) + t.last[size][..s.writePos]
       case ChunksReceiveOk => s.processed == 0 && s.writePos == 0 && x.out == AllChunks(t, n, size)
       case _ => false
  }

  lemma SendStep(t: Tables, x: Sending, n: nat, size: nat, l: Label)
    requires ValidTables(t) && size in SIZES && SendInv(t, x, n, size) && Enabled(t, x, l)
    ensures SendInv(t, Step(t, x, l), n, size)
  {
    hide Rep, AllChunks, Time, TimeBytes, Overlay, OK, VERSION, ACCEPT_TOKEN, CHUNK_SIZES, ACCEPT, PONG, Zeros,
      Fresh, Elapsed, ValidTables;
    var (s, z, last) := (x.s, t.zero[size], t.last[size]);
    if l.Writes? {
      if s.phase.ChunksSend? {
        AppendRest(Rep(z, s.processed), z, s.writePos, l.n);
        RepSnoc(z, s.processed);
        assert Rep(z, s.processed + 1) + z[..0] == Rep(z, s.processed + 1) && last[..0] == [];
      } else {
        AppendRest(Rep(z, n - 1), last, s.writePos, l.n);
        assert Rep(z, n - 1) + last == AllChunks(t, n, size) by { Whole(t, n, size); }
      }
    } else {
      assert z[..0] == last[..0] == [];
    }
  }

  lemma Whole(t: Tables, n: nat, size: nat)
    requires n > 0 && size in t.zero && size in t.last
    ensures Rep(t.zero[size], n - 1) + t.last[size] == AllChunks(t, n, size)
  {
  }

  lemma {:induction false} RunSends(t: Tables, xs: seq<Sending>, ls: seq<Label>, n: nat, size: nat, i: nat)
    requires ValidTables(t) && size in SIZES && n > 0 && Run(t, xs, ls) && Started(xs[0], n, size) && i < |xs|
    ensures SendInv(t, xs[i], n, size)
  {
    hide Step, Enabled, ValidTables, AllChunks;
    if i == 0 {
      SendStarts(t, xs[0], n, size);
    } else {
      RunSends(t, xs, ls, n, size, i - 1);
      SendStep(t, xs[i - 1], n, size, ls[i - 1]);
    }
  }

  lemma SendStarts(t: Tables, x: Sending, n: nat, size: nat)
    requires ValidTables(t) && size in SIZES && n > 0 && Started(x, n, size)
    ensures SendInv(t, x, n, size)
  {
    assert IsPair(size, t.zero[size], t.last[size]);
  }

  lemma {:induction false} RepAt(z: Bytes, k: nat, i: nat, tail: Bytes)
    requires z != [] && i < k
    ensures (i + 1) * |z| <= |Rep(z, k)| && BoundaryAt(Rep(z, k) + tail, |z|, i) == z[|z| - 1]
  {
    RepLength(z, k);
    Multiples(i + 1, k, |z|);
    NextCount(i, |z|);
    var rest := Rep(z, k - 1) + tail;
    assert Rep(z, k) + tail == z + rest;
    if i > 0 {
      RepAt(z, k - 1, i - 1, tail);
      RepLength(z, k - 1);
      assert i * |z| >= 1 && (i + 1) * |z| - 1 == |z| + (i * |z| - 1);
    }
  }

  /** GETCHUNKS n with n >= 1 and a table size sends n * size bytes, with 0xFF at
      the end of chunk n only, on every schedule; and the chunk counter is 0 again. */
  lemma GetChunksSends(t: Tables, xs: seq<Sending>, ls: seq<Label>, n: nat, size: nat)
    requires ValidTables(t) && size in SIZES && n > 0 && Run(t, xs, ls) && Started(xs[0], n, size)
    requires xs[|ls|].s.phase.ChunksReceiveOk?
    ensures var x := xs[|ls|];
      && x.out == AllChunks(t, n, size) && |x.out| == n * size && x.s.processed == 0 && x.s.writePos == 0
      && forall i: nat | i < n :: BoundaryAt(x.out, size, i) == if i == n - 1 then 255 else 0
  {
    RunSends(t, xs, ls, n, size, |ls|);
    AllChunksEnds(t, n, size);
  }

  lemma AllChunksEnds(t: Tables, n: nat, size: nat)
    requires ValidTables(t) && size in SIZES && n > 0
    ensures |AllChunks(t, n, size)| == n * size
    ensures forall i: nat | i < n :: BoundaryAt(AllChunks(t, n, size), size, i) == if i == n - 1 then 255 else 0
  {
    var (z, last) := (t.zero[size], t.last[size]);
    assert IsPair(size, z, last);
    RepLength(z, n - 1);
    NextCount(n - 1, size);
    forall i: nat | i < n ensures BoundaryAt(AllChunks(t, n, size), size, i) == if i == n - 1 then 255 else 0 {
      if i < n - 1 {
        RepAt(z, n - 1, i, last);
      } else {
        assert AllChunks(t, n, size)[n * size - 1] == last[size - 1];
      }
    }
  }

  /** `generate_chunks`: random chunks with the boundary byte set. */
  method GenerateChunks(n: nat, size: nat, noise: nat -> Bytes) returns (chunks: seq<Bytes>)
    requires size > 0 && forall i: nat :: |noise(i)| == size
    ensures |chunks| == n
    ensures forall i | 0 <= i < n :: |chunks[i]| == size && chunks[i][..size - 1] == noise(i)[..size - 1]
    ensures forall i | 0 <= i < n :: chunks[i][size - 1] == if i == n - 1 then 255 else 0
  {
    chunks := [];
    for i := 0 to n
      invariant |chunks| == i
      invariant forall j | 0 <= j < i :: |chunks[j]| == size && chunks[j][..size - 1] == noise(j)[..size - 1]
      invariant forall j | 0 <= j < i :: chunks[j][size - 1] == if j == n - 1 then 255 else 0
    {
      chunks := chunks + [noise(i)[size - 1 := if i == n - 1 then 255 else 0]];
    }
  }

  function Joined(chunks: seq<Bytes>): Bytes {
    if chunks == [] then [] else Joined(chunks[..|chunks| - 1]) + chunks[|chunks| - 1]
  }

  lemma {:induction false} JoinedEnds(chunks: seq<Bytes>, size: nat, i: nat)
    requires size > 0 && i < |chunks| && forall j | 0 <= j < |chunks| :: |chunks[j]| == size
    ensures |Joined(chunks)| == |chunks| * size && (i + 1) * size <= |Joined(chunks)|
    ensures BoundaryAt(Joined(chunks), size, i) == chunks[i][size - 1]
  {
    var n := |chunks| - 1;
    NextCount(n, size);
    if n > 0 {
      JoinedEnds(chunks[..n], size, if i < n then i else 0);
      Multiples(i + 1, n + 1, size);
    }
    NextCount(i, size);
  }

  /** Both servers put the same boundary bytes into a GETCHUNKS answer of n chunks. */
  lemma SameBoundaries(t: Tables, chunks: seq<Bytes>, n: nat, size: nat)
    requires ValidTables(t) && size in SIZES && n > 0 && |chunks| == n
    requires forall i | 0 <= i < n :: |chunks[i]| == size && chunks[i][size - 1] == if i == n - 1 then 255 else 0
    ensures |Joined(chunks)| == |AllChunks(t, n, size)|
    ensures forall i: nat | i < n :: BoundaryAt(Joined(chunks), size, i) == BoundaryAt(AllChunks(t, n, size), size, i)
  {
    AllChunksEnds(t, n, size);
    forall i: nat | i < n
        ensures |Joined(chunks)| == n * size && BoundaryAt(Joined(chunks), size, i) == chunks[i][size - 1] {
      JoinedEnds(chunks, size, i);
    }
    JoinedEnds(chunks, size, 0);
  }
}
