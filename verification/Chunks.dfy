/** Chunk tables and the framing of a chunk stream. */
module Chunks {
  import opened Text
  import opened Wire

  const SIZES: set<nat> := {4096, 8192, 16384, 32768, 65536, 131072, 262144, 524288, 1048576, 2097152, 4194304}

  /** CHUNK_STORAGE and CHUNK_TERMINATION_STORAGE of one process. */
  datatype Tables = Tables(zero: map<nat, Bytes>, last: map<nat, Bytes>)

  /** Chunks of one size that differ in the boundary byte. */
  predicate IsPair(size: nat, zero: Bytes, last: Bytes) {
    size > 0 && |zero| == size && |last| == size && zero[size - 1] == 0 && last[size - 1] == 255
  }

  ghost predicate ValidTables(t: Tables) {
    && t.zero.Keys == SIZES && t.last.Keys == SIZES
    && forall n | n in SIZES :: IsPair(n, t.zero[n], t.last[n])
  }

  /** `get_chunk`: a chunk of a size that is not in the tables. */
  function GetChunk(t: Tables, size: nat, terminal: bool): (c: Bytes)
    requires 1 <= size && MAX_CHUNK in t.zero && size <= |t.zero[MAX_CHUNK]|
    ensures |c| == size && c[size - 1] == if terminal then 255 else 0
  {
    t.zero[MAX_CHUNK][..size][size - 1 := if terminal then 255 else 0]
  }

  /** `data` stored into `buf` from index `pos` on. */
  function Store(buf: Bytes, pos: nat, data: Bytes): (r: Bytes)
    requires pos + |data| <= |buf|
    ensures |r| == |buf|
    ensures r[..pos + |data|] == buf[..pos] + data && r[pos + |data|..] == buf[pos + |data|..]
  {
    buf[..pos] + data + buf[pos + |data|..]
  }

  /** `k` copies of a chunk. */
  function Rep(z: Bytes, k: nat): (r: Bytes)
    ensures k > 0 ==> z <= r
  {
    if k == 0 then [] else z + Rep(z, k - 1)
  }

  lemma {:induction false} RepSnoc(z: Bytes, k: nat)
    ensures Rep(z, k) + z == Rep(z, k + 1)
  {
    if k > 0 {
      RepSnoc(z, k - 1);
      assert Rep(z, k) + z == z + (Rep(z, k - 1) + z);
    } else {
      assert Rep(z, 1) == z + [];
    }
  }

  lemma {:induction false} RepLength(z: Bytes, k: nat)
    ensures |Rep(z, k)| == k * |z|
  {
    if k > 0 {
      RepLength(z, k - 1);
    }
  }

  lemma NextCount(k: nat, size: nat)
    ensures k * size + size == (k + 1) * size
  {
  }

  lemma Multiples(i: nat, k: nat, size: nat)
    requires i <= k
    ensures i * size <= k * size
  {
  }

  /** A receiver that holds `got` of the current chunk reads `data` of what is in
      flight: a full chunk is the next zero chunk, or all that was left. */
  lemma ReceiveFrame(z: Bytes, j: nat, part: Bytes, got: Bytes, flight: Bytes, data: Bytes)
    requires got + flight == Rep(z, j) + part && data <= flight
    requires |got| + |data| <= |z| && |part| <= |z|
    ensures |got + data| == |z| && j > 0 ==> got + data == z && flight[|data|..] == Rep(z, j - 1) + part
    ensures |got + data| == |z| && j == 0 ==> got + data == part && flight[|data|..] == []
    ensures (got + data) + flight[|data|..] == Rep(z, j) + part
  {
    var all := got + flight;
    assert flight == data + flight[|data|..];
    assert all == (got + data) + flight[|data|..];
    assert all[..|got + data|] == got + data && all[|got + data|..] == flight[|data|..];
    if |got + data| == |z| && j > 0 {
      assert all == z + (Rep(z, j - 1) + part);
    }
  }
}
