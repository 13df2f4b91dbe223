/** The pre-download ramp and the tables its sizes are looked up in. */
module Ramp {
  import opened Text
  import opened Wire
  import opened Chunks

  const PRE_DOWNLOAD_NS: nat := 2_000_000_000
  const MAX_COUNT: nat := 8

  datatype Round = Round(count: nat, size: nat)

  /** `increase_chunk_size`. */
  function Increase(r: Round): Round {
    if r.count < MAX_COUNT then Round(r.count * 2, r.size)
    else Round(r.count, if r.size * 2 <= MAX_CHUNK then r.size * 2 else MAX_CHUNK)
  }

  /** Whether another GETCHUNKS round follows one that took `time`. */
  predicate Continues(r: Round, time: nat) { time < PRE_DOWNLOAD_NS && r.size < MAX_CHUNK }

  function Pow2(k: nat): (p: nat) ensures p >= 1 { if k == 0 then 1 else 2 * Pow2(k - 1) }

  /** The rounds the ramp visits: the count doubles first, then the size. */
  ghost predicate OnRamp(r: Round) { exists i: nat, j: nat :: Place(r, i, j) }

  ghost predicate Place(r: Round, i: nat, j: nat) {
    i <= 3 && j <= 10 && (j > 0 ==> i == 3) && r == Round(Pow2(i), MIN_CHUNK * Pow2(j))
  }

  lemma Powers()
    ensures Pow2(0) == 1 && Pow2(1) == 2 && Pow2(2) == 4 && Pow2(3) == 8 && Pow2(4) == 16 && Pow2(5) == 32
    ensures Pow2(6) == 64 && Pow2(7) == 128 && Pow2(8) == 256 && Pow2(9) == 512 && Pow2(10) == 1024
  {
  }

  lemma PowerCases(j: nat)
    requires j <= 10
    ensures MIN_CHUNK * Pow2(j) in SIZES && (j < 10 ==> MIN_CHUNK * Pow2(j) < MAX_CHUNK)
        && (j == 10 ==> MIN_CHUNK * Pow2(j) == MAX_CHUNK)
  {
    Powers();
  }

  /** One increase moves one place along the ramp, and there is a next place
      exactly when the size is below the maximum. */
  lemma IncreaseStep(r: Round, i: nat, j: nat)
    requires Place(r, i, j)
    ensures r.size < MAX_CHUNK <==> j < 10
    ensures j < 10 ==> if i < 3 then Place(Increase(r), i + 1, j) else Place(Increase(r), 3, j + 1)
  {
    Powers();
    PowerCases(j);
    if j < 10 {
      PowerCases(j + 1);
    }
  }

  /** The rounds after the first for the reported times, until one stops the ramp. */
  function Rounds(r: Round, times: seq<nat>): seq<Round>
    decreases |times|
  {
    if times == [] || !Continues(r, times[0]) then [] else [Increase(r)] + Rounds(Increase(r), times[1..])
  }

  lemma {:induction false} RampFrom(r: Round, times: seq<nat>, i: nat, j: nat)
    requires Place(r, i, j)
    ensures |Rounds(r, times)| + i + j <= 13
    ensures forall q | q in Rounds(r, times) :: OnRamp(q)
    decreases |times|
  {
    if times != [] && Continues(r, times[0]) {
      IncreaseStep(r, i, j);
      var (i', j') := if i < 3 then (i + 1, j) else (3, j + 1);
      RampFrom(Increase(r), times[1..], i', j');
      assert Place(Increase(r), i', j');
    }
  }

  /** Whatever times arrive the ramp ends after at most 13 increases, and never
      leaves the table of sizes. */
  lemma RampTerminates(times: seq<nat>)
    ensures |Rounds(Round(1, MIN_CHUNK), times)| <= 13
    ensures forall q | q in Rounds(Round(1, MIN_CHUNK), times) :: OnRamp(q) && q.size in SIZES && 1 <= q.count <= 8
  {
    assert Place(Round(1, MIN_CHUNK), 0, 0);
    RampFrom(Round(1, MIN_CHUNK), times, 0, 0);
    forall q | q in Rounds(Round(1, MIN_CHUNK), times) ensures q.size in SIZES && 1 <= q.count <= 8 {
      OnRampInTable(q);
    }
  }

  lemma OnRampInTable(r: Round)
    requires OnRamp(r)
    ensures r.size in SIZES && MIN_CHUNK <= r.size <= MAX_CHUNK && 1 <= r.count <= 8
  {
    var i: nat, j: nat :| Place(r, i, j);
    Powers();
    PowerCases(j);
  }

  lemma OnRampIncrease(r: Round)
    requires OnRamp(r) && r.size < MAX_CHUNK
    ensures OnRamp(Increase(r))
  {
    var i: nat, j: nat :| Place(r, i, j);
    IncreaseStep(r, i, j);
    assert Place(Increase(r), if i < 3 then i + 1 else 3, if i < 3 then j else j + 1);
  }

  /** A table filled by doubling: random bytes with the boundary byte set. */
  method FillTable(noise: nat -> Bytes, boundary: Byte) returns (storage: map<nat, Bytes>)
    requires forall n | n in SIZES :: |noise(n)| == n
    ensures storage.Keys == SIZES
    ensures forall n | n in SIZES ::
        |storage[n]| == n && storage[n][n - 1] == boundary && storage[n][..n - 1] == noise(n)[..n - 1]
  {
    storage := map[];
    var size := MIN_CHUNK;
    while size <= MAX_CHUNK
      invariant size in SIZES || size == 2 * MAX_CHUNK
      invariant storage.Keys == set n | n in SIZES && n < size
      invariant forall n | n in storage ::
          |storage[n]| == n && storage[n][n - 1] == boundary && storage[n][..n - 1] == noise(n)[..n - 1]
    {
      storage := storage[size := noise(size)[size - 1 := boundary]];
      size := size * 2;
    }
  }

  /** Both tables are complete and differ as promised in the boundary byte. */
  method BuildTables(noise: nat -> Bytes, lastNoise: nat -> Bytes) returns (t: Tables)
    requires forall n | n in SIZES :: |noise(n)| == n && |lastNoise(n)| == n
    ensures ValidTables(t)
  {
    var zero := FillTable(noise, 0);
    var last := FillTable(lastNoise, 255);
    t := Tables(zero, last);
  }
}
