/** PUT: the event-driven handlers of the mio server against the straight-line
    handler of the tokio server. */
module PutRuns {
  import opened Text
  import opened Wire
  import opened Chunks
  import opened Sockets
  import opened ServerCalls
  import opened ServerMachine

  /** The `TIME t BYTES b` lines after one chunk each, from a byte count on. */
  function Lines(ts: seq<nat>, base: nat, size: nat): Bytes {
    if ts == [] then [] else Lines(ts[..|ts| - 1], base, size) + TimeBytes(ts[|ts| - 1], base + |ts| * size)
  }

  /** What a client gets for a PUT with the given times. */
  function Transcript(ts: seq<nat>, base: nat, size: nat, end: nat): Bytes { OK + Lines(ts, base, size) + Time(end) }

  /** Last byte of chunk `i` of an upload. */
  function BoundaryAt(data: Bytes, size: nat, i: nat): Byte
    requires size > 0
  {
    if (i + 1) * size <= |data| then
      assert (i + 1) * size > 0;
      data[(i + 1) * size - 1]
    else 0
  }

  // ----- the event-driven form

  /** A connection in PUT: all bytes the client sends, how many were read, what
      was written, and the time after each chunk. */
  datatype Upload = Upload(s: Server, data: Bytes, taken: nat, out: Bytes, ts: seq<nat>)

  datatype Label = Enters(now: nat) | Writes(n: nat, now: nat) | Reads(n: nat, now: nat)

  predicate InPut(p: Phase) { p.PutSendOk? || p.PutReceive? || p.PutSendBytes? || p.PutSendTime? }

  /** What a connection can do next, in any phase of an upload. */
  predicate Acts(t: Tables, x: Upload, l: Label) {
    match l
    case Enters(now) => true
    case Writes(n, now) => WritePhase(x.s.phase) && x.s.inCall && x.s.writePos <= |Message(t, x.s)|
        && 0 < n <= |Offer(t, x.s)|
    case Reads(n, now) => ReadPhase(x.s.phase) && 0 < n <= Room(x.s) && x.taken + n <= |x.data|
  }

  predicate Enabled(t: Tables, x: Upload, l: Label) { InPut(x.s.phase) && Acts(t, x, l) }

  /** `ts` gets one entry per chunk. */
  function Step(t: Tables, x: Upload, l: Label): Upload
    requires Acts(t, x, l)
  {
    match l
    case Enters(now) => x.(s := Enter(t, x.s, now))
    case Writes(n, now) => x.(s := Wrote(t, x.s, n, now), out := x.out + Offer(t, x.s)[..n])
    case Reads(n, now) =>
      x.(s := Got(x.s, x.data[x.taken..x.taken + n], now), taken := x.taken + n,
         ts := if x.s.readPos + n == x.s.chunkSize then x.ts + [Elapsed(x.s, now)] else x.ts)
  }

  ghost predicate Run(t: Tables, xs: seq<Upload>, ls: seq<Label>) {
    && |xs| == |ls| + 1
    && forall i | 0 <= i < |ls| :: Enabled(t, xs[i], ls[i]) && xs[i + 1] == Step(t, xs[i], ls[i])
  }

  /** The parser has just taken a PUT command. */
  predicate Started(x: Upload, base: nat) {
    && x.s.phase.PutSendOk? && x.s.writePos == 0 && x.s.readPos == 0 && x.s.totalBytes == base && x.s.chunkSize > 0
    && x.taken == 0 && x.out == [] && x.ts == [] && !x.s.inCall
  }

  /** No chunk before the last `n` ended the upload. */
  predicate NoEnd(data: Bytes, size: nat, n: nat)
    requires size > 0
  {
    forall i: nat | i < n :: BoundaryAt(data, size, i) != 255
  }

  predicate Receiving(x: Upload, base: nat) {
    var s, k := x.s, |x.ts|;
    && s.phase.PutReceive? && s.clock.Some? && 0 < s.chunkSize == |s.chunkBuffer| && s.readPos < s.chunkSize
        && s.writePos == 0
    && x.taken == k * s.chunkSize + s.readPos <= |x.data| && s.totalBytes == base + x.taken
    && s.chunkBuffer[..s.readPos] == x.data[k * s.chunkSize..x.taken]
    && x.out == OK + Lines(x.ts, base, s.chunkSize) && NoEnd(x.data, s.chunkSize, k)
  }

  predicate Reporting(x: Upload, base: nat) {
    var s, k := x.s, |x.ts|;
    && s.phase.PutSendBytes? && s.clock.Some? && 0 < s.chunkSize == |s.chunkBuffer| == s.readPos && k > 0
    && x.taken == k * s.chunkSize <= |x.data| && s.totalBytes == base + x.taken && s.timeNs == Some(x.ts[k - 1])
    && s.chunkBuffer[s.chunkSize - 1] == BoundaryAt(x.data, s.chunkSize, k - 1)
    && NoEnd(x.data, s.chunkSize, k - 1)
    && var line := TimeBytes(x.ts[k - 1], base + k * s.chunkSize);
       s.writePos < |line| && x.out == OK + Lines(x.ts[..k - 1], base, s.chunkSize) + line[..s.writePos]
  }

  predicate Ending(x: Upload, base: nat) {
    var s, k := x.s, |x.ts|;
    && s.phase.PutSendTime? && s.chunkSize > 0 && k > 0
    && x.taken == k * s.chunkSize <= |x.data| && s.totalBytes == base + x.taken && s.timeNs == Some(x.ts[k - 1])
    && BoundaryAt(x.data, s.chunkSize, k - 1) == 255 && NoEnd(x.data, s.chunkSize, k - 1)
    && var line := Time(x.ts[k - 1]);
       s.writePos < |line| && x.out == OK + Lines(x.ts, base, s.chunkSize) + line[..s.writePos]
  }

  predicate Ended(x: Upload, base: nat) {
    var s, k := x.s, |x.ts|;
    && s.phase.CommandSend? && s.chunkSize > 0 && k > 0 && s.readPos == 0 && s.writePos == 0
    && x.taken == k * s.chunkSize <= |x.data| && s.totalBytes == base + x.taken
    && BoundaryAt(x.data, s.chunkSize, k - 1) == 255 && NoEnd(x.data, s.chunkSize, k - 1)
    && x.out == Transcript(x.ts, base, s.chunkSize, x.ts[k - 1])
  }

  predicate Accepting(x: Upload, base: nat) {
    && x.s.phase.PutSendOk? && x.s.writePos < |OK| && x.s.readPos == 0 && x.s.totalBytes == base && x.s.chunkSize > 0
    && x.taken == 0 && x.ts == [] && x.out == OK[..x.s.writePos] && (x.s.inCall ==> x.s.clock.Some?)
  }

  predicate PutInv(x: Upload, base: nat) {
    Accepting(x, base) || Receiving(x, base) || Reporting(x, base) || Ending(x, base) || Ended(x, base)
  }

  lemma Nonempty(t: nat, b: nat)
    ensures |Time(t)| > 0 && |TimeBytes(t, b)| > 0 && |OK| == 3
  {
  }

  lemma AppendRest(out: Bytes, text: Bytes, pos: nat, n: nat)
    requires pos + n <= |text|
    ensures out + text[..pos] + text[pos..][..n] == out + text[..pos + n]
    ensures pos + n == |text| ==> out + text[..pos] + text[pos..][..n] == out + text
  {
    assert text[..pos] + text[pos..][..n] == text[..pos + n];
  }

  lemma AcceptStep(t: Tables, x: Upload, base: nat, l: Label)
    requires Accepting(x, base) && Enabled(t, x, l)
    ensures PutInv(Step(t, x, l), base)
  {
    hide Time, TimeBytes, Reporting, Ending, Ended;
    if l.Writes? {
      AppendRest([], OK, x.s.writePos, l.n);
      assert [] + OK[..x.s.writePos] == OK[..x.s.writePos];
      assert [] + OK[..x.s.writePos + l.n] == OK[..x.s.writePos + l.n];
      if x.s.writePos + l.n == |OK| {
        assert OK + Lines([], base, x.s.chunkSize) == OK;
        assert Receiving(Step(t, x, l), base);
      } else {
        assert Accepting(Step(t, x, l), base);
      }
    } else {
      assert Accepting(Step(t, x, l), base);
    }
  }

  lemma StoreNext(buffer: Bytes, pos: nat, data: Bytes, start: nat, taken: nat, n: nat)
    requires pos + n <= |buffer| && start + pos == taken && taken + n <= |data| && buffer[..pos] == data[start..taken]
    ensures Store(buffer, pos, data[taken..taken + n])[..pos + n] == data[start..taken + n]
  {
  }

  /** A read of the chunk handler, as assignments. */
  lemma ReadShape(t: Tables, x: Upload, l: Label)
    requires x.s.phase.PutReceive? && x.s.readPos <= |x.s.chunkBuffer| && Enabled(t, x, l) && l.Reads?
    ensures x.s.readPos + l.n <= |x.s.chunkBuffer| && x.taken + l.n <= |x.data| && l.n > 0
    ensures var s := x.s;
      var r := s.(chunkBuffer := Store(s.chunkBuffer, s.readPos, x.data[x.taken..x.taken + l.n]),
          readPos := s.readPos + l.n,
                  totalBytes := s.totalBytes + l.n);
      Step(t, x, l) ==
        if r.readPos != s.chunkSize then x.(s := r, taken := x.taken + l.n)
        else x.(s := r.(phase := PutSendBytes, timeNs := Some(Elapsed(s, l.now)), interest := Writable,
            inCall := false),
                taken := x.taken + l.n, ts := x.ts + [Elapsed(s, l.now)])
  {
    hide Store;
  }

  lemma ReceiveStep(t: Tables, x: Upload, base: nat, l: Label)
    requires Receiving(x, base) && Enabled(t, x, l)
    ensures PutInv(Step(t, x, l), base)
  {
    hide Time, TimeBytes, Lines, Accepting, Reporting, Ending, Ended, Elapsed, Store, NoEnd, BoundaryAt, OK, B, Room,
      Got, Acts, Step;
    var s, k, size := x.s, |x.ts|, x.s.chunkSize;
    ReceiveOnlyReads(t, x, l);
    if l.Reads? {
      ReadShape(t, x, l);
      StoreNext(s.chunkBuffer, s.readPos, x.data, k * size, x.taken, l.n);
      if s.readPos + l.n == size {
        ChunkTaken(t, x, base, l);
      } else {
        assert Receiving(Step(t, x, l), base);
      }
    } else {
      assert Receiving(Step(t, x, l), base);
    }
  }

  lemma ReceiveOnlyReads(t: Tables, x: Upload, l: Label)
    requires x.s.phase.PutReceive? && Enabled(t, x, l)
    ensures !l.Reads? ==> l.Enters? && Step(t, x, l) == x.(s := x.s.(inCall := true))
  {
  }

  lemma ReadKeepsEnds(x: Upload, n: nat, time: nat)
    ensures (x.ts + [time])[..|x.ts|] == x.ts
  {
  }

  /** A chunk is whole. */
  lemma ChunkTaken(t: Tables, x: Upload, base: nat, l: Label)
    requires Receiving(x, base) && Enabled(t, x, l) && l.Reads? && x.s.readPos + l.n == x.s.chunkSize
    ensures Reporting(Step(t, x, l), base)
  {
    hide Time, TimeBytes, Lines, Elapsed, Store, NoEnd, OK, B, Room, Got, Acts, Step;
    var s, k, size := x.s, |x.ts|, x.s.chunkSize;
    ReadShape(t, x, l);
    StoreNext(s.chunkBuffer, s.readPos, x.data, k * size, x.taken, l.n);
    ReadKeepsEnds(x, l.n, Elapsed(s, l.now));
    NextCount(k, size);
    Nonempty(Elapsed(s, l.now), base + (k + 1) * size);
    var b := Store(s.chunkBuffer, s.readPos, x.data[x.taken..x.taken + l.n]);
    LastByte(b, x.data, k, size);
    var line := TimeBytes(Elapsed(s, l.now), base + (k + 1) * size);
    assert line[..0] == [] && x.out + line[..0] == x.out;
  }

  lemma LastByte(buffer: Bytes, data: Bytes, k: nat, size: nat)
    requires 0 < size <= |buffer| && (k + 1) * size == k * size + size <= |data|
    requires buffer[..size] == data[k * size..k * size + size]
    ensures buffer[size - 1] == BoundaryAt(data, size, k)
  {
    assert buffer[..size][size - 1] == data[k * size..k * size + size][size - 1];
  }

  /** A step while a report line goes out, but for what follows the line. */
  lemma ReportTurn(t: Tables, x: Upload, base: nat, l: Label)
    requires Reporting(x, base) && Enabled(t, x, l)
    ensures var (s, y, line) := (x.s, Step(t, x, l), TimeBytes(x.ts[|x.ts| - 1], base + |x.ts| * x.s.chunkSize));
      if !l.Writes? then y == x.(s := s.(inCall := true)) else
      && s.writePos + l.n <= |line| && y.out == x.out + line[s.writePos..][..l.n]
      && (s.writePos + l.n < |line| ==> y == x.(out := y.out, s := s.(writePos := s.writePos + l.n)))
  {
    hide TimeBytes, Lines, Ended, NoEnd, BoundaryAt, Finish;
  }

  lemma ReportStep(t: Tables, x: Upload, base: nat, l: Label)
    requires Reporting(x, base) && Enabled(t, x, l)
    ensures PutInv(Step(t, x, l), base)
  {
    hide Time, TimeBytes, Lines, Accepting, Ended, Elapsed, NoEnd, BoundaryAt, OK, B, Step, Acts;
    var s, k, size := x.s, |x.ts|, x.s.chunkSize;
    var line := TimeBytes(x.ts[k - 1], base + k * size);
    var sent := OK + Lines(x.ts[..k - 1], base, size);
    ReportTurn(t, x, base, l);
    if l.Writes? {
      AppendRest(sent, line, s.writePos, l.n);
      if s.writePos + l.n == |line| {
        LinesSnoc(x.ts, base, size);
        assert Step(t, x, l).out == OK + Lines(x.ts, base, size);
        NoEndNext(x.data, size, k - 1);
        Nonempty(x.ts[k - 1], 0);
        assert Time(x.ts[k - 1])[..0] == [] && OK + Lines(x.ts, base, size) + [] == OK + Lines(x.ts, base, size);
        ReportDone(t, x, base, l);
      } else {
        assert Reporting(Step(t, x, l), base);
      }
    } else {
      assert Reporting(Step(t, x, l), base);
    }
  }

  lemma LinesSnoc(ts: seq<nat>, base: nat, size: nat)
    requires ts != []
    ensures OK + Lines(ts[..|ts| - 1], base, size) + TimeBytes(ts[|ts| - 1], base + |ts| * size) ==
        OK + Lines(ts, base, size)
  {
    hide TimeBytes, OK;
  }

  lemma NoEndNext(data: Bytes, size: nat, n: nat)
    requires size > 0 && NoEnd(data, size, n)
    ensures BoundaryAt(data, size, n) != 255 ==> NoEnd(data, size, n + 1)
  {
  }

  /** The last write of a report line, as assignments. */
  lemma ReportShape(t: Tables, x: Upload, base: nat, l: Label)
    requires Reporting(x, base) && Enabled(t, x, l) && l.Writes?
    requires x.s.writePos + l.n == |TimeBytes(x.ts[|x.ts| - 1], base + |x.ts| * x.s.chunkSize)|
    ensures var (y, s) := (Step(t, x, l), x.s.(writePos := 0));
      && y == x.(s := y.s, out := y.out)
      && var ends := 0 < x.s.chunkSize <= |x.s.chunkBuffer| && x.s.chunkBuffer[x.s.chunkSize - 1] == 255;
         y.s == if ends then Goto(s, PutSendTime, Writable) else Goto(s.(readPos := 0), PutReceive, Readable)
  {
    hide TimeBytes, Lines, Ended, NoEnd, BoundaryAt;
  }

  lemma ReportDone(t: Tables, x: Upload, base: nat, l: Label)
    requires Reporting(x, base) && Enabled(t, x, l) && l.Writes?
    requires x.s.writePos + l.n == |TimeBytes(x.ts[|x.ts| - 1], base + |x.ts| * x.s.chunkSize)|
    requires Step(t, x, l).out == OK + Lines(x.ts, base, x.s.chunkSize)
    requires |Time(x.ts[|x.ts| - 1])| > 0 && Time(x.ts[|x.ts| - 1])[..0] == []
    requires OK + Lines(x.ts, base, x.s.chunkSize) + [] == OK + Lines(x.ts, base, x.s.chunkSize)
    requires BoundaryAt(x.data, x.s.chunkSize, |x.ts| - 1) != 255 ==> NoEnd(x.data, x.s.chunkSize, |x.ts|)
    ensures PutInv(Step(t, x, l), base)
  {
    hide Time, TimeBytes, Lines, Accepting, Reporting, Ended, NoEnd, BoundaryAt, OK, B, Step, Acts;
    var y := Step(t, x, l);
    ReportShape(t, x, base, l);
    ReportFacts(x, base);
    assert y.s.chunkBuffer[..0] == [] && x.data[x.taken..x.taken] == [];
    if x.s.chunkBuffer[x.s.chunkSize - 1] == 255 {
      assert Ending(y, base);
    } else {
      assert Receiving(y, base);
    }
  }

  lemma ReportFacts(x: Upload, base: nat)
    requires Reporting(x, base)
    ensures var (s, k) := (x.s, |x.ts|);
      && s.phase.PutSendBytes? && s.clock.Some? && 0 < s.chunkSize == |s.chunkBuffer| == s.readPos && k > 0
      && x.taken == k * s.chunkSize <= |x.data| && s.totalBytes == base + x.taken && s.timeNs == Some(x.ts[k - 1])
      && s.chunkBuffer[s.chunkSize - 1] == BoundaryAt(x.data, s.chunkSize, k - 1) && NoEnd(x.data, s.chunkSize, k - 1)
      && s.writePos < |TimeBytes(x.ts[k - 1], base + k * s.chunkSize)|
  {
  }

  lemma EndStep(t: Tables, x: Upload, base: nat, l: Label)
    requires Ending(x, base) && Enabled(t, x, l)
    ensures PutInv(Step(t, x, l), base)
  {
    hide Time, TimeBytes, Lines, Accepting, Receiving, Reporting, NoEnd, BoundaryAt, OK, B;
    var s, k := x.s, |x.ts|;
    var line := Time(x.ts[k - 1]);
    if l.Writes? {
      assert Offer(t, s) == line[s.writePos..];
      AppendRest(OK + Lines(x.ts, base, s.chunkSize), line, s.writePos, l.n);
      if s.writePos + l.n == |line| {
        assert Ended(Step(t, x, l), base);
      } else {
        assert Ending(Step(t, x, l), base);
      }
    } else {
      assert Ending(Step(t, x, l), base);
    }
  }

  lemma PutStep(t: Tables, x: Upload, base: nat, l: Label)
    requires PutInv(x, base) && Enabled(t, x, l)
    ensures PutInv(Step(t, x, l), base)
  {
    hide Step, Receiving, Reporting, Ending, Accepting;
    if Accepting(x, base) {
      AcceptStep(t, x, base, l);
    } else if Receiving(x, base) {
      ReceiveStep(t, x, base, l);
    } else if Reporting(x, base) {
      ReportStep(t, x, base, l);
    } else {
      EndStep(t, x, base, l);
    }
  }

  /** Every state of every run of a PUT. */
  lemma {:induction false} RunKeeps(t: Tables, xs: seq<Upload>, ls: seq<Label>, base: nat, i: nat)
    requires Run(t, xs, ls) && Started(xs[0], base) && i < |xs|
    ensures PutInv(xs[i], base) && xs[i].data == xs[0].data
    ensures xs[i].s.chunkSize == xs[0].s.chunkSize
  {
    hide PutInv, Acts, Step;
    if i == 0 {
      StartsPut(xs[0], base);
    } else {
      RunKeeps(t, xs, ls, base, i - 1);
      PutStep(t, xs[i - 1], base, ls[i - 1]);
      SameUpload(t, xs[i - 1], base, ls[i - 1]);
    }
  }

  lemma StartsPut(x: Upload, base: nat)
    requires Started(x, base)
    ensures PutInv(x, base)
  {
    assert OK[..0] == [] && |OK| == 3;
    assert Accepting(x, base);
  }

  lemma SameUpload(t: Tables, x: Upload, base: nat, l: Label)
    requires PutInv(x, base) && Enabled(t, x, l)
    ensures var y := Step(t, x, l); y.data == x.data && y.s.chunkSize == x.s.chunkSize
  {
    hide Message, PutInv, Room;
  }

  /** However the socket splits its reads and writes, a PUT that is over has
      answered one line per chunk up to the terminal one, and its last time again. */
  lemma MioPut(t: Tables, xs: seq<Upload>, ls: seq<Label>, base: nat)
    requires Run(t, xs, ls) && Started(xs[0], base) && !InPut(xs[|ls|].s.phase)
    ensures Ended(xs[|ls|], base) && xs[|ls|].data == xs[0].data && xs[|ls|].s.chunkSize == xs[0].s.chunkSize
  {
    hide Ended;
    RunKeeps(t, xs, ls, base, |ls|);
  }

  // ----- calls of the handlers

  /** An upload whose server part, unread bytes and written bytes are those of an outcome. */
  ghost predicate Reached(x: Upload, base: nat, o: Outcome) {
    exists y :: PutInv(y, base) && Stands(x, y, o)
  }

  predicate Stands(x: Upload, y: Upload, o: Outcome) {
    && y.data == x.data && y.s.chunkSize == x.s.chunkSize && y.s == o.s && y.out == o.w.out
    && y.taken <= |y.data| && y.data[y.taken..] == o.w.inbox
  }

  lemma ReachedHere(x: Upload, base: nat, o: Outcome)
    requires PutInv(x, base) && x.taken <= |x.data| && o.s == x.s && o.w.out == x.out && o.w.inbox == x.data[x.taken..]
    ensures Reached(x, base, o)
  {
    hide PutInv;
    assert Stands(x, x, o);
  }

  lemma ReachedAfter(x: Upload, y: Upload, base: nat, o: Outcome)
    requires Reached(y, base, o) && y.data == x.data && y.s.chunkSize == x.s.chunkSize
    ensures Reached(x, base, o)
  {
    hide PutInv;
    var z :| PutInv(z, base) && Stands(y, z, o);
    assert Stands(x, z, o);
  }

  lemma WriteReady(t: Tables, x: Upload, base: nat)
    requires PutInv(x, base) && InPut(x.s.phase) && WritePhase(x.s.phase)
    ensures x.s.writePos < |Message(t, x.s)|
  {
    hide Lines, NoEnd, BoundaryAt;
  }

  lemma FailsOnZero(p: Phase)
    requires InPut(p)
    ensures OnZero(p).Fail?
  {
  }

  lemma {:induction false} LoopReaches(t: Tables, x: Upload, base: nat, w: World)
    requires PutInv(x, base) && InPut(x.s.phase) && x.s.inCall && x.taken <= |x.data|
    requires w.inbox == x.data[x.taken..] && w.out == x.out
    ensures Reached(x, base, Loop(t, x.s, w))
    decreases |w.script|, 0
  {
    hide PutInv, Loop, Message, Offer, Finish, Got, Room, Reached, ReadCall, WriteCall, OnZero;
    FailsOnZero(x.s.phase);
    if ReadPhase(x.s.phase) {
      ReadTurn(t, x.s, w);
      var (io, data, v) := ReadCall(w, Room(x.s));
      if io.Ok? && io.n > 0 {
        assert data == x.data[x.taken..x.taken + io.n] && v.inbox == x.data[x.taken + io.n..];
        Continues(t, x, base, Reads(io.n, v.now), v, if Got(x.s, data, v.now).phase.Closed? then Failed else io);
      } else {
        ReachedHere(x, base, Loop(t, x.s, w));
      }
    } else {
      WriteReady(t, x, base);
      LoopWrites(t, x.s, w);
      var (io, v) := WriteCall(w, Offer(t, x.s));
      if io.Ok? && io.n > 0 {
        Continues(t, x, base, Writes(io.n, v.now), v, io);
      } else {
        NothingSent(w, Offer(t, x.s));
        ReachedHere(x, base, Loop(t, x.s, w));
      }
    }
  }

  lemma NothingSent(w: World, data: Bytes)
    ensures var (io, v) := WriteCall(w, data); (!io.Ok? || io.n == 0 ==> v.out == w.out) && v.inbox == w.inbox
  {
  }

  /** After one step the loop goes on, or the call is over. */
  lemma {:induction false} Continues(t: Tables, x: Upload, base: nat, l: Label, v: World, io: Io)
    requires PutInv(x, base) && Enabled(t, x, l)
    requires var y := Step(t, x, l); v.out == y.out && y.taken <= |y.data| && v.inbox == y.data[y.taken..]
    ensures var y := Step(t, x, l); Reached(x, base, if y.s.inCall then Loop(t, y.s, v) else Outcome(y.s, v, io))
    decreases |v.script|, 1
  {
    hide PutInv, Loop, Step, Acts, Reached;
    var y := Step(t, x, l);
    PutStep(t, x, base, l);
    SameUpload(t, x, base, l);
    if y.s.inCall {
      RunsOn(t, x, l);
      LoopReaches(t, y, base, v);
      ReachedAfter(x, y, base, Loop(t, y.s, v));
    } else {
      ReachedHere(y, base, Outcome(y.s, v, io));
      ReachedAfter(x, y, base, Outcome(y.s, v, io));
    }
  }

  lemma RunsOn(t: Tables, x: Upload, l: Label)
    requires Enabled(t, x, l)
    ensures var y := Step(t, x, l); y.s.inCall ==> InPut(y.s.phase)
  {
    hide Message, Elapsed, Zeros, Store;
  }

  /** A call of a PUT handler leads from one state of the upload to another,
      whatever the socket answers. */
  lemma PutCall(t: Tables, x: Upload, base: nat, w: World)
    requires PutInv(x, base) && InPut(x.s.phase) && x.taken <= |x.data| && w.inbox == x.data[x.taken..]
        && w.out == x.out
    ensures Reached(x, base, Call(t, x.s, w))
  {
    hide PutInv, Loop, Reached, Enter;
    var y := Step(t, x, Enters(w.now));
    PutStep(t, x, base, Enters(w.now));
    EntersCall(t, x.s, w.now);
    LoopReaches(t, y, base, w);
    ReachedAfter(x, y, base, Call(t, x.s, w));
  }

  lemma EntersCall(t: Tables, s: Server, now: nat)
    requires InPut(s.phase)
    ensures var e := Enter(t, s, now); e.inCall && e.phase == s.phase && e.chunkSize == s.chunkSize
  {
  }

  /** A PUT whose data holds a terminal chunk never gets stuck: once its handler
      is called, it can write or read a byte until it is over. */
  lemma PutNeverStuck(t: Tables, x: Upload, base: nat, k: nat)
    requires PutInv(x, base) && InPut(x.s.phase) && (k + 1) * x.s.chunkSize <= |x.data|
    requires x.s.chunkSize > 0 && BoundaryAt(x.data, x.s.chunkSize, k) == 255
    ensures var y := Step(t, x, Enters(0)); PutInv(y, base) && exists l: Label :: !l.Enters? && Enabled(t, y, l)
  {
    hide Lines, Time, TimeBytes, Enter, Message, PutInv;
    var y := Step(t, x, Enters(0));
    PutStep(t, x, base, Enters(0));
    EntersCall(t, x.s, 0);
    if WritePhase(x.s.phase) {
      WriteReady(t, y, base);
      assert Enabled(t, y, Writes(1, 0));
    } else {
      TerminalAhead(y, base, k);
      assert Enabled(t, y, Reads(1, 0));
    }
  }

  lemma TerminalAhead(x: Upload, base: nat, k: nat)
    requires PutInv(x, base) && x.s.phase.PutReceive? && (k + 1) * x.s.chunkSize <= |x.data|
    requires x.s.chunkSize > 0 && BoundaryAt(x.data, x.s.chunkSize, k) == 255
    ensures x.taken < |x.data| && Room(x.s) > 0
  {
    hide Lines, Time, TimeBytes;
    var n := |x.ts|;
    assert n <= k;
    assert n * x.s.chunkSize <= k * x.s.chunkSize by { Multiples(n, k, x.s.chunkSize); }
    NextCount(k, x.s.chunkSize);
  }
}
