/** PUT as the tokio server handles it, straight through, and how far the
    event-driven form refines it. */
module TokioPut {
  import opened Text
  import opened Wire
  import opened Chunks
  import opened Sockets
  import opened PutRuns

  /** The chunks the handler reports: up to one whose last byte is not 0, or as
      many as arrive whole. */
  function Reported(data: Bytes, size: nat, from: nat): (k: nat)
    requires size > 0
    ensures from <= k && (k == from || k * size <= |data|)
    decreases |data| - from * size
  {
    Grows(from, size);
    if (from + 1) * size > |data| then from
    else if BoundaryAt(data, size, from) != 0 then from + 1
    else Reported(data, size, from + 1)
  }

  lemma Grows(k: nat, size: nat)
    requires size > 0
    ensures k * size + size == (k + 1) * size && k * size < (k + 1) * size
  {
  }

  /** The readings a clock gives in turn. */
  function Readings(clock: nat -> nat, n: nat): seq<nat> { seq(n, i requires 0 <= i < n => clock(i)) }

  function TokioAnswer(data: Bytes, size: nat, clock: nat -> nat): Bytes
    requires size > 0
  {
    var k := Reported(data, size, 0);
    Transcript(Readings(clock, k), 0, size, clock(k))
  }

  /** `read` of a blocking stream that holds `left` bytes before its end. */
  function Amount(script: seq<Positive>, room: nat, left: nat): (n: nat)
    ensures n <= room && n <= left && (n == 0 <==> room == 0 || left == 0)
  {
    Least(if script == [] then room else Least(script[0], room), left)
  }

  /** The inner loop: fills the buffer, or stops at the end of the stream. */
  method ReadChunk(buffer: array<Byte>, data: Bytes, start: nat, splits: seq<Positive>) returns (bytesRead: nat,
    rest: seq<Positive>)
    requires start <= |data|
    modifies buffer
    ensures bytesRead == Least(buffer.Length, |data| - start) && buffer[..bytesRead] == data[start..start + bytesRead]
  {
    bytesRead, rest := 0, splits;
    while bytesRead < buffer.Length
      invariant bytesRead <= buffer.Length && start + bytesRead <= |data|
      invariant buffer[..bytesRead] == data[start..start + bytesRead]
    {
      var n := Amount(rest, buffer.Length - bytesRead, |data| - start - bytesRead);
      rest := if rest == [] then [] else rest[1..];
      if n == 0 { return; }
      ghost var got := buffer[..bytesRead];
      forall i | 0 <= i < n {
        buffer[bytesRead + i] := data[start + bytesRead + i];
      }
      assert buffer[..bytesRead] == got;
      assert buffer[bytesRead..bytesRead + n] == data[start + bytesRead..start + bytesRead + n];
      assert buffer[..bytesRead + n] == got + buffer[bytesRead..bytesRead + n];
      bytesRead := bytesRead + n;
    }
  }

  /** The first of `k` lines that the client does not take, or `k`. */
  function FirstRefused(takes: nat -> bool, k: nat): (j: nat)
    ensures j <= k && (j < k ==> !takes(j)) && forall i: nat | i < j :: takes(i)
  {
    if k == 0 then 0 else
    var j := FirstRefused(takes, k - 1);
    if j < k - 1 || !takes(k - 1) then j else k
  }

  lemma FirstIsRefused(takes: nat -> bool, k: nat, j: nat)
    requires j <= k && (j < k ==> !takes(j)) && forall i: nat | i < j :: takes(i)
    ensures FirstRefused(takes, k) == j
  {
  }

  /** What reaches a client that takes these lines, and the final one if `last`. */
  function ServedAnswer(data: Bytes, size: nat, clock: nat -> nat, takes: nat -> bool, last: bool): Bytes
    requires size > 0
  {
    var k := Reported(data, size, 0);
    var j := FirstRefused(takes, k);
    OK + Lines(Readings(clock, j), 0, size) + if last then Time(clock(if j < k then j + 1 else k)) else []
  }

  /** To a client that takes everything it is the whole answer. */
  lemma ServedAll(data: Bytes, size: nat, clock: nat -> nat, takes: nat -> bool)
    requires size > 0 && forall i: nat | i < Reported(data, size, 0) :: takes(i)
    ensures ServedAnswer(data, size, clock, takes, true) == TokioAnswer(data, size, clock)
  {
    hide Lines, Time, Readings;
    FirstIsRefused(takes, Reported(data, size, 0), Reported(data, size, 0));
  }

  /** `handle_put` after the size is parsed. The answer does not depend on how the
      stream splits what it delivers. A line that the client does not take ends the
      upload, and with it the chance to see the terminator. */
  method HandlePut(size: nat, data: Bytes, splits: seq<Positive>, clock: nat -> nat, takes: nat -> bool, last: bool)
    returns (out: Bytes, foundTerminator: bool)
    requires size > 0
    ensures out == ServedAnswer(data, size, clock, takes, last)
    ensures var k := Reported(data, size, 0);
      foundTerminator <==> k > 0 && BoundaryAt(data, size, k - 1) == 255 && forall i: nat | i < k :: takes(i)
  {
    hide Lines, Time, TimeBytes, B, OK, Readings, Reported, ServedAnswer, FirstRefused;
    NoReadings(clock);
    NoLines(size);
    out := OK;
    var totalBytes, chunks, readings, rest := 0, 0, 0, splits;
    var buffer := new Byte[size](_ => 0);
    foundTerminator := false;
    while true
      invariant totalBytes == chunks * size <= |data| && buffer.Length == size && readings == chunks
      invariant out == OK + Lines(Readings(clock, chunks), 0, size)
      invariant Reported(data, size, 0) == Reported(data, size, chunks)
      invariant chunks > 0 ==> BoundaryAt(data, size, chunks - 1) == 0
      invariant !foundTerminator && forall i: nat | i < chunks :: takes(i)
      decreases |data| - totalBytes
    {
      var bytesRead;
      bytesRead, rest := ReadChunk(buffer, data, totalBytes, rest);
      Grows(chunks, size);
      ReportedStep(data, size, chunks);
      if bytesRead != size { break; }
      LastByte(buffer[..], data, chunks, size);
      totalBytes := totalBytes + bytesRead;
      var terminator := buffer[size - 1];
      readings := readings + 1;
      if !takes(chunks) { break; }
      ReadingsSnoc(clock, chunks, size);
      out := out + TimeBytes(clock(chunks), totalBytes);
      chunks := chunks + 1;
      if terminator == 255 {
        foundTerminator := true;
        break;
      } else if terminator != 0 {
        break;
      }
    }
    ServedIs(data, size, clock, takes, last, chunks);
    if last {
      out := out + Time(clock(readings));
    } else {
      assert out + [] == out;
    }
  }

  lemma ReportedStep(data: Bytes, size: nat, from: nat)
    requires size > 0
    ensures Reported(data, size, from) ==
      if (from + 1) * size > |data| then from else if BoundaryAt(data, size, from) != 0 then from + 1
          else Reported(data, size, from + 1)
    ensures from <= Reported(data, size, from)
  {
    hide BoundaryAt;
  }

  lemma ServedIs(data: Bytes, size: nat, clock: nat -> nat, takes: nat -> bool, last: bool, j: nat)
    requires size > 0 && j <= Reported(data, size, 0)
    requires (j < Reported(data, size, 0) ==> !takes(j)) && forall i: nat | i < j :: takes(i)
    ensures ServedAnswer(data, size, clock, takes, last) ==
      OK + Lines(Readings(clock, j), 0, size) + if last
          then Time(clock(if j < Reported(data, size, 0) then j + 1 else j)) else []
  {
    hide Lines, Time, Readings, Reported, OK;
    FirstIsRefused(takes, Reported(data, size, 0), j);
  }

  lemma ReadingsSnoc(clock: nat -> nat, n: nat, size: nat)
    ensures Readings(clock, n + 1)[..n] == Readings(clock, n)
    ensures Lines(Readings(clock, n + 1), 0, size) ==
        Lines(Readings(clock, n), 0, size) + TimeBytes(clock(n), (n + 1) * size)
    ensures OK + Lines(Readings(clock, n), 0, size) + TimeBytes(clock(n), (n + 1) * size) ==
        OK + Lines(Readings(clock, n + 1), 0, size)
  {
    assert Readings(clock, n + 1)[..n] == Readings(clock, n);
  }

  lemma NoReadings(clock: nat -> nat)
    ensures Readings(clock, 0) == []
  {
  }

  lemma NoLines(size: nat)
    ensures OK + Lines([], 0, size) == OK
  {
  }

  // ----- the two forms side by side

  /** The clock that gives these times and then the last one again. */
  function Held(ts: seq<nat>): nat -> nat
    requires ts != []
  {
    (i: nat) => if i < |ts| then ts[i] else ts[|ts| - 1]
  }

  /** Every chunk before the terminal one ends in 0. */
  predicate Clean(data: Bytes, size: nat, k: nat)
    requires size > 0 && k > 0
  {
    forall i: nat | i < k - 1 :: BoundaryAt(data, size, i) == 0
  }

  lemma HeldReadings(ts: seq<nat>, n: nat)
    requires ts != [] && n <= |ts|
    ensures Readings(Held(ts), n) == ts[..n]
  {
  }

  lemma {:induction false} ReportedClean(data: Bytes, size: nat, k: nat, from: nat)
    requires size > 0 && k > 0 && from < k && k * size <= |data|
    requires Clean(data, size, k) && BoundaryAt(data, size, k - 1) != 0
    ensures Reported(data, size, from) == k
    decreases k - from
  {
    Multiples(from + 1, k, size);
    if from + 1 < k {
      ReportedClean(data, size, k, from + 1);
    }
  }

  /** A nonzero last byte before the terminal chunk stops the straight-line form early. */
  lemma {:induction false} ReportedEarly(data: Bytes, size: nat, k: nat, from: nat)
    requires size > 0 && from < k && k * size <= |data|
    requires exists i: nat :: from <= i < k - 1 && BoundaryAt(data, size, i) != 0
    ensures from < Reported(data, size, from) < k
    decreases k - from
  {
    var i: nat :| from <= i < k - 1 && BoundaryAt(data, size, i) != 0;
    Multiples(from + 1, k, size);
    if BoundaryAt(data, size, from) == 0 {
      assert from + 1 <= i;
      ReportedEarly(data, size, k, from + 1);
    }
  }

  lemma {:induction false} LinesSplit(ts: seq<nat>, base: nat, size: nat, j: nat) returns (rest: Bytes)
    requires j < |ts|
    ensures Lines(ts, base, size) == Lines(ts[..j], base, size) + TimeBytes(ts[j], base + (j + 1) * size) + rest
  {
    hide TimeBytes;
    var n := |ts| - 1;
    rest := [];
    if j < n {
      rest := LinesSplit(ts[..n], base, size, j);
      assert ts[..n][..j] == ts[..j];
      rest := rest + TimeBytes(ts[n], base + |ts| * size);
    }
  }

  /** Two texts that start with a number and a byte that is no digit agree only
      if the numbers do. */
  lemma {:induction false} NumbersAgree(a: Bytes, x: Byte, u: Bytes, b: Bytes, y: Byte, v: Bytes)
    requires AllDigits(a) && AllDigits(b) && !IsDigit(x) && !IsDigit(y) && a + [x] + u == b + [y] + v
    ensures a == b && x == y
  {
    var s, r := a + [x] + u, b + [y] + v;
    assert s[|a|] == x && r[|b|] == y;
    assert forall i | 0 <= i < |a| :: s[i] == a[i];
    assert forall i | 0 <= i < |b| :: r[i] == b[i];
    assert s[..|a|] == a && r[..|a|] == b;
  }

  /** The answers already differ in the first line when bytes were counted before. */
  lemma BaseShows(t: nat, b: nat, c: nat, u: Bytes, v: Bytes)
    requires TimeBytes(t, b) + u == TimeBytes(t, c) + v
    ensures b == c
  {
    var head := B("TIME ") + Show(t) + B(" BYTES ");
    assert TimeBytes(t, b) + u == head + (Show(b) + [NL] + u);
    assert TimeBytes(t, c) + v == head + (Show(c) + [NL] + v);
    assert (head + (Show(b) + [NL] + u))[|head|..] == Show(b) + [NL] + u;
    assert (head + (Show(c) + [NL] + v))[|head|..] == Show(c) + [NL] + v;
    NumbersAgree(Show(b), NL, u, Show(c), NL, v);
    ShowInjective(b, c);
  }

  /** A report line is never taken for the final one. */
  lemma LineKindsDiffer(t: nat, b: nat, u: Bytes, v: Bytes)
    ensures TimeBytes(t, b) + u != Time(t) + v
  {
    var head := B("TIME ") + Show(t);
    var tail := B(" BYTES ");
    assert tail[0] == SPACE;
    assert TimeBytes(t, b) + u == head + (tail + (Show(b) + [NL] + u));
    assert (TimeBytes(t, b) + u)[|head|] == SPACE;
    assert (Time(t) + v)[|head|] == NL;
  }

  lemma TranscriptFirst(ts: seq<nat>, base: nat, size: nat, end: nat) returns (rest: Bytes)
    requires ts != []
    ensures Transcript(ts, base, size, end) == OK + (TimeBytes(ts[0], base + size) + rest)
  {
    hide TimeBytes, Time;
    rest := LinesSplit(ts, base, size, 0);
    assert Lines(ts, base, size) == TimeBytes(ts[0], base + size) + rest;
    rest := rest + Time(end);
  }

  lemma CancelFront(a: Bytes, b: Bytes, c: Bytes)
    requires a + b == a + c
    ensures b == c
  {
    assert (a + b)[|a|..] == b && (a + c)[|a|..] == c;
  }

  lemma TranscriptsAgreeOnBase(ts: seq<nat>, us: seq<nat>, base: nat, other: nat, size: nat, end: nat, last: nat)
    requires ts != [] && us != [] && ts[0] == us[0]
    requires Transcript(ts, base, size, end) == Transcript(us, other, size, last)
    ensures base == other
  {
    hide TimeBytes, Transcript;
    var u := TranscriptFirst(ts, base, size, end);
    var v := TranscriptFirst(us, other, size, last);
    CancelFront(OK, TimeBytes(ts[0], base + size) + u, TimeBytes(us[0], other + size) + v);
    BaseShows(ts[0], base + size, other + size, u, v);
  }

  lemma ShorterDiffers(ts: seq<nat>, j: nat, size: nat, end: nat)
    requires j < |ts|
    ensures Transcript(ts, 0, size, end) != Transcript(ts[..j], 0, size, ts[j])
  {
    hide TimeBytes, Time, Lines;
    var rest := LinesSplit(ts, 0, size, j);
    var front := OK + Lines(ts[..j], 0, size);
    assert Transcript(ts, 0, size, end) == front + (TimeBytes(ts[j], (j + 1) * size) + (rest + Time(end)));
    assert Transcript(ts[..j], 0, size, ts[j]) == front + (Time(ts[j]) + []);
    LineKindsDiffer(ts[j], (j + 1) * size, rest + Time(end), []);
    if Transcript(ts, 0, size, end) == Transcript(ts[..j], 0, size, ts[j]) {
      CancelFront(front, TimeBytes(ts[j], (j + 1) * size) + (rest + Time(end)), Time(ts[j]) + []);
    }
  }

  /** The answers of the two servers to the same upload, under the same clock
      readings, are equal exactly when nothing was counted on the connection
      before and every chunk before the terminal one ends in 0. */
  lemma AnswersAgree(data: Bytes, size: nat, ts: seq<nat>, base: nat)
    requires size > 0 && ts != [] && |ts| * size <= |data|
    requires BoundaryAt(data, size, |ts| - 1) == 255
    ensures Transcript(ts, base, size, ts[|ts| - 1]) == TokioAnswer(data, size, Held(ts)) <==>
        base == 0 && Clean(data, size, |ts|)
  {
    hide Transcript, Readings, BoundaryAt;
    var k := |ts|;
    var clock := Held(ts);
    if Clean(data, size, k) {
      ReportedClean(data, size, k, 0);
      HeldReadings(ts, k);
      assert ts[..k] == ts;
      if Transcript(ts, base, size, ts[k - 1]) == TokioAnswer(data, size, clock) {
        TranscriptsAgreeOnBase(ts, ts, base, 0, size, ts[k - 1], ts[k - 1]);
      }
    } else {
      ReportedEarly(data, size, k, 0);
      var j := Reported(data, size, 0);
      HeldReadings(ts, j);
      ShorterDiffers(ts, j, size, ts[k - 1]);
      if Transcript(ts, base, size, ts[k - 1]) == TokioAnswer(data, size, clock) {
        TranscriptsAgreeOnBase(ts, ts[..j], base, 0, size, ts[k - 1], ts[j]);
      }
    }
  }

  /** The answers differ when something was counted before. */
  lemma SecondPutDiffers(data: Bytes, size: nat, time: nat, base: nat)
    requires size > 0 && |data| == size && data[size - 1] == 255 && base > 0
    ensures Transcript([time], base, size, time) != TokioAnswer(data, size, Held([time]))
  {
    hide Transcript, TokioAnswer;
    AnswersAgree(data, size, [time], base);
  }

  /** The event-driven PUT refines the straight-line one: however the socket splits
      its reads and writes, a first PUT on a connection gets the tokio server's answer. */
  lemma PutRefines(t: Tables, xs: seq<Upload>, ls: seq<Label>, base: nat)
    requires Run(t, xs, ls) && Started(xs[0], base) && !InPut(xs[|ls|].s.phase)
    ensures var (x, size) := (xs[|ls|], xs[0].s.chunkSize);
      && x.ts != [] && x.s.phase.CommandSend? && x.taken == |x.ts| * size && x.s.totalBytes == base + x.taken
      && (x.out == TokioAnswer(xs[0].data, size, Held(x.ts)) <==> base == 0 && Clean(xs[0].data, size, |x.ts|))
  {
    hide Transcript, BoundaryAt, TokioAnswer, Clean, Held;
    MioPut(t, xs, ls, base);
    var x := xs[|ls|];
    AnswersAgree(x.data, x.s.chunkSize, x.ts, base);
  }

  lemma TimesDiffer(a: nat, b: nat)
    ensures Time(a) == Time(b) <==> a == b
  {
    if Time(a) == Time(b) {
      assert Time(a) == B("TIME ") + (Show(a) + [NL]) && Time(b) == B("TIME ") + (Show(b) + [NL]);
      CancelFront(B("TIME "), Show(a) + [NL], Show(b) + [NL]);
      assert Show(a) + [NL] + [] == Show(a) + [NL] && Show(b) + [NL] + [] == Show(b) + [NL];
      NumbersAgree(Show(a), NL, [], Show(b), NL, []);
      ShowInjective(a, b);
    }
  }

  /** The straight-line form reads its clock once more for the final time, the
      event-driven one prints its last time again: under one running clock they agree
      on a first clean upload exactly when the clock has not moved in between. */
  lemma FreshLastTime(data: Bytes, size: nat, clock: nat -> nat)
    requires size > 0 && Reported(data, size, 0) > 0
    ensures var k := Reported(data, size, 0);
      var held := Transcript(Readings(clock, k), 0, size, clock(k - 1));
      TokioAnswer(data, size, clock) == held <==> clock(k) == clock(k - 1)
  {
    hide Lines, Time, Readings, Reported, OK;
    var k := Reported(data, size, 0);
    var front := OK + Lines(Readings(clock, k), 0, size);
    TimesDiffer(clock(k), clock(k - 1));
    if front + Time(clock(k)) == front + Time(clock(k - 1)) {
      CancelFront(front, Time(clock(k)), Time(clock(k - 1)));
    }
  }

  /** A client that does not take line `j` gets the lines before it, and, if it takes
      that, the time of the reading after the lost one. */
  lemma LineLost(data: Bytes, size: nat, clock: nat -> nat, takes: nat -> bool, j: nat)
    requires size > 0 && j < Reported(data, size, 0) && !takes(j) && forall i: nat | i < j :: takes(i)
    ensures ServedAnswer(data, size, clock, takes, true) ==
      OK + Lines(Readings(clock, j), 0, size) + Time(clock(j + 1))
    ensures ServedAnswer(data, size, clock, takes, false) == OK + Lines(Readings(clock, j), 0, size)
  {
    hide Lines, Time, Readings, Reported;
    FirstIsRefused(takes, Reported(data, size, 0), j);
  }
}
