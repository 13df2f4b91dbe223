/** PUTNORESULT: the event-driven handlers of the mio server against the
    straight-line handler of the tokio server. */
module NoResultRuns {
  import opened Text
  import opened Wire
  import opened Chunks
  import opened Sockets
  import opened ServerMachine
  import opened PutRuns
  import TokioPut

  predicate InNoResult(p: Phase) { p.NoResultSendOk? || p.NoResultReceive? || p.NoResultSendTime? }

  predicate Enabled(t: Tables, x: Upload, l: Label) { InNoResult(x.s.phase) && Acts(t, x, l) }

  ghost predicate Run(t: Tables, xs: seq<Upload>, ls: seq<Label>) {
    && |xs| == |ls| + 1
    && forall i | 0 <= i < |ls| :: Enabled(t, xs[i], ls[i]) && xs[i + 1] == Step(t, xs[i], ls[i])
  }

  predicate Begun(x: Upload) {
    && x.s.phase.NoResultSendOk? && x.s.writePos == 0 && x.s.readPos == 0 && x.s.chunkSize > 0
    && x.taken == 0 && x.out == [] && x.ts == []
  }

  predicate AllZero(data: Bytes, size: nat, n: nat)
    requires size > 0
  {
    forall i: nat | i < n :: BoundaryAt(data, size, i) == 0
  }

  predicate Taking(x: Upload) {
    var s, k := x.s, |x.ts|;
    && s.phase.NoResultReceive? && 0 < s.chunkSize == |s.chunkBuffer| && s.readPos < s.chunkSize && s.writePos == 0
    && x.taken == k * s.chunkSize + s.readPos <= |x.data|
    && s.chunkBuffer[..s.readPos] == x.data[k * s.chunkSize..x.taken]
    && x.out == OK && AllZero(x.data, s.chunkSize, k)
  }

  /** The chunks are over: the last taken is the first that does not end in 0. */
  predicate Over(x: Upload) {
    var s, k := x.s, |x.ts|;
    && s.chunkSize > 0 && k > 0 && x.taken == k * s.chunkSize <= |x.data| && AllZero(x.data, s.chunkSize, k - 1)
    && BoundaryAt(x.data, s.chunkSize, k - 1) != 0
  }

  predicate NoResultInv(x: Upload) {
    var (s, k) := (x.s, |x.ts|);
    match s.phase
    case NoResultSendOk => s.writePos < |OK| && s.chunkSize > 0 && x.taken == 0 && x.ts == []
        && x.out == OK[..s.writePos]
    case NoResultReceive => Taking(x)
    case NoResultSendTime =>
      && Over(x) && BoundaryAt(x.data, s.chunkSize, k - 1) == 255 && s.timeNs == Some(x.ts[k - 1])
          && s.writePos < |Time(x.ts[k - 1])|
      && x.out == OK + Time(x.ts[k - 1])[..s.writePos]
    case CommandSend => Over(x) && BoundaryAt(x.data, s.chunkSize, k - 1) == 255 && x.out == OK + Time(x.ts[k - 1])
    case Closed => Over(x) && BoundaryAt(x.data, s.chunkSize, k - 1) != 255 && x.out == OK
    case _ => false
  }

  /** A write of OK, as assignments. */
  lemma AcceptShape(t: Tables, x: Upload, l: Label)
    requires x.s.phase.NoResultSendOk? && x.s.writePos < |OK| && Enabled(t, x, l)
    ensures l.Writes? ==> x.s.writePos + l.n <= |OK|
    ensures Step(t, x, l) ==
      if !l.Writes? then x.(s := x.s.(inCall := true)) else
      var (s, end) := (x.s, x.s.writePos + l.n);
      x.(out := x.out + OK[s.writePos..][..l.n],
         s := if end < |OK| then s.(writePos := end)
              else Goto(s.(writePos := 0, readPos := 0, chunkBuffer := Zeros(s.chunkSize), clock := Some(l.now)),
                  NoResultReceive, Readable))
  {
    hide Time, TimeBytes, OK, Zeros;
  }

  lemma AcceptStep(t: Tables, x: Upload, l: Label)
    requires NoResultInv(x) && x.s.phase.NoResultSendOk? && Enabled(t, x, l)
    ensures NoResultInv(Step(t, x, l))
  {
    hide Time, Step, Acts, OK, BoundaryAt;
    AcceptShape(t, x, l);
    if l.Writes? {
      AppendRest([], OK, x.s.writePos, l.n);
      assert [] + OK[..x.s.writePos] == OK[..x.s.writePos]
          && [] + OK[..x.s.writePos + l.n] == OK[..x.s.writePos + l.n] && [] + OK == OK;
      if x.s.writePos + l.n == |OK| {
        assert OK[..|OK|] == OK;
        assert Taking(Step(t, x, l));
      }
    }
  }

  lemma TimeStep(t: Tables, x: Upload, l: Label)
    requires NoResultInv(x) && x.s.phase.NoResultSendTime? && Enabled(t, x, l)
    ensures NoResultInv(Step(t, x, l))
  {
    hide Time, AllZero, BoundaryAt, OK;
    if l.Writes? {
      var line := Time(x.ts[|x.ts| - 1]);
      assert Offer(t, x.s) == line[x.s.writePos..];
      AppendRest(OK, line, x.s.writePos, l.n);
    }
  }

  /** A read of the chunk handler, as assignments. */
  lemma GotShape(s: Server, data: Bytes, now: nat)
    requires s.phase.NoResultReceive? && data != [] && s.readPos + |data| <= |s.chunkBuffer|
    ensures |data| <= Room(s)
    ensures var r := s.(chunkBuffer := Store(s.chunkBuffer, s.readPos, data), readPos := s.readPos + |data|);
      var end := r.chunkBuffer[r.readPos - 1];
      Got(s, data, now) ==
        if r.readPos != s.chunkSize then r
        else if end == 255 then Goto(r.(timeNs := Some(Elapsed(s, now)), readPos := 0), NoResultSendTime, Writable)
        else if end != 0 then Goto(r, Closed, s.interest) else r.(readPos := 0)
  {
    hide Store;
  }

  lemma ReadShape(t: Tables, x: Upload, l: Label)
    requires x.s.phase.NoResultReceive? && x.s.readPos <= |x.s.chunkBuffer| && Enabled(t, x, l) && l.Reads?
    ensures x.s.readPos + l.n <= |x.s.chunkBuffer| && x.taken + l.n <= |x.data| && l.n > 0
    ensures var s := x.s;
      var r := s.(chunkBuffer := Store(s.chunkBuffer, s.readPos, x.data[x.taken..x.taken + l.n]),
          readPos := s.readPos + l.n);
      var end := r.chunkBuffer[r.readPos - 1];
      var time := Elapsed(s, l.now);
      Step(t, x, l) ==
        if r.readPos != s.chunkSize then x.(s := r, taken := x.taken + l.n)
        else x.(taken := x.taken + l.n, ts := x.ts + [time],
                s := if end == 255 then Goto(r.(timeNs := Some(time), readPos := 0), NoResultSendTime, Writable)
                     else if end != 0 then Goto(r, Closed, s.interest) else r.(readPos := 0))
  {
    hide Store, Elapsed, Got, Message, Offer;
    GotShape(x.s, x.data[x.taken..x.taken + l.n], l.now);
  }

  lemma TakingHolds(x: Upload)
    requires Taking(x)
    ensures NoResultInv(x) && x.s.phase.NoResultReceive? && x.s.readPos < x.s.chunkSize == |x.s.chunkBuffer|
  {
  }

  lemma PartChunk(t: Tables, x: Upload, l: Label)
    requires Taking(x) && Enabled(t, x, l) && l.Reads? && x.s.readPos + l.n < x.s.chunkSize
    ensures Taking(Step(t, x, l))
  {
    hide Store, AllZero, OK, Elapsed, Got, Room, Acts, Step;
    var s, k := x.s, |x.ts|;
    ReadShape(t, x, l);
    StoreNext(s.chunkBuffer, s.readPos, x.data, k * s.chunkSize, x.taken, l.n);
  }

  lemma CalledAgain(x: Upload)
    requires Taking(x)
    ensures Taking(x.(s := x.s.(inCall := true)))
  {
    hide AllZero, OK;
  }

  lemma TakeStep(t: Tables, x: Upload, l: Label)
    requires Taking(x) && Enabled(t, x, l)
    ensures NoResultInv(Step(t, x, l))
  {
    hide Taking, NoResultInv, Acts, Step;
    TakingHolds(x);
    TakingOnlyReads(t, x, l);
    if !l.Reads? {
      CalledAgain(x);
      TakingHolds(Step(t, x, l));
    } else {
      ReadShape(t, x, l);
      if x.s.readPos + l.n < x.s.chunkSize {
        PartChunk(t, x, l);
        TakingHolds(Step(t, x, l));
      } else {
        WholeChunk(t, x, l);
      }
    }
  }

  lemma TakingOnlyReads(t: Tables, x: Upload, l: Label)
    requires x.s.phase.NoResultReceive? && Enabled(t, x, l)
    ensures !l.Reads? ==> Step(t, x, l) == x.(s := x.s.(inCall := true))
  {
  }

  lemma WholeChunk(t: Tables, x: Upload, l: Label)
    requires Taking(x) && Enabled(t, x, l) && l.Reads? && x.s.readPos + l.n == x.s.chunkSize
    ensures NoResultInv(Step(t, x, l))
  {
    hide Time, Store, AllZero, BoundaryAt, OK, Elapsed, Got, Room, Acts, Step;
    var s, k, size := x.s, |x.ts|, x.s.chunkSize;
    ReadShape(t, x, l);
    StoreNext(s.chunkBuffer, s.readPos, x.data, k * size, x.taken, l.n);
    NextCount(k, size);
    var b := Store(s.chunkBuffer, s.readPos, x.data[x.taken..x.taken + l.n]);
    LastByte(b, x.data, k, size);
    ZeroNext(x.data, size, k);
    Nonempty(Elapsed(s, l.now), 0);
    assert b[..0] == [] && x.data[x.taken + l.n..x.taken + l.n] == [];
    assert Time(Elapsed(s, l.now))[..0] == [] && OK + [] == OK;
  }

  lemma ZeroNext(data: Bytes, size: nat, n: nat)
    requires size > 0 && AllZero(data, size, n)
    ensures BoundaryAt(data, size, n) == 0 ==> AllZero(data, size, n + 1)
  {
  }

  lemma {:induction false} RunKeeps(t: Tables, xs: seq<Upload>, ls: seq<Label>, i: nat)
    requires Run(t, xs, ls) && Begun(xs[0]) && i < |xs|
    ensures NoResultInv(xs[i]) && xs[i].data == xs[0].data && xs[i].s.chunkSize == xs[0].s.chunkSize
  {
    hide NoResultInv, Acts, Step;
    if i == 0 {
      assert OK[..0] == [] && |OK| == 3;
      assert NoResultInv(xs[0]) by { BegunHolds(xs[0]); }
    } else {
      RunKeeps(t, xs, ls, i - 1);
      StepKeeps(t, xs[i - 1], ls[i - 1]);
    }
  }

  lemma BegunHolds(x: Upload)
    requires Begun(x)
    ensures NoResultInv(x)
  {
    assert OK[..0] == [] && |OK| == 3;
  }

  lemma StepKeeps(t: Tables, x: Upload, l: Label)
    requires NoResultInv(x) && Enabled(t, x, l)
    ensures NoResultInv(Step(t, x, l)) && Step(t, x, l).data == x.data && Step(t, x, l).s.chunkSize == x.s.chunkSize
  {
    hide NoResultInv, Step;
    SameUpload(t, x, l);
    match x.s.phase {
      case NoResultSendOk => AcceptStep(t, x, l);
      case NoResultSendTime => TimeStep(t, x, l);
      case _ => IsTaking(x); TakeStep(t, x, l);
    }
  }

  lemma IsTaking(x: Upload)
    requires NoResultInv(x) && x.s.phase.NoResultReceive?
    ensures Taking(x)
  {
  }

  lemma SameUpload(t: Tables, x: Upload, l: Label)
    requires Enabled(t, x, l)
    ensures Step(t, x, l).data == x.data && Step(t, x, l).s.chunkSize == x.s.chunkSize
  {
    hide Message, Room;
  }

  // ----- the straight-line form

  /** `handle_put_no_result` after the size is parsed: whatever the data, the
      answer is OK and one time, to a client that takes the last line. */
  method HandlePutNoResult(size: nat, data: Bytes, splits: seq<Positive>, clock: nat, last: bool)
    returns (out: Bytes, foundTerminator: bool)
    requires size > 0
    ensures out == if last then OK + Time(clock) else OK
    ensures var k := TokioPut.Reported(data, size, 0); foundTerminator <==>
        k > 0 && BoundaryAt(data, size, k - 1) == 255
  {
    out := OK;
    var totalBytes, chunks, rest := 0, 0, splits;
    var buffer := new Byte[size](_ => 0);
    foundTerminator := false;
    while true
      invariant totalBytes == chunks * size <= |data| && buffer.Length == size && out == OK
      invariant TokioPut.Reported(data, size, 0) == TokioPut.Reported(data, size, chunks)
      invariant chunks > 0 ==> BoundaryAt(data, size, chunks - 1) == 0
      decreases |data| - totalBytes
    {
      var bytesRead;
      bytesRead, rest := TokioPut.ReadChunk(buffer, data, totalBytes, rest);
      TokioPut.Grows(chunks, size);
      if bytesRead != size { break; }
      LastByte(buffer[..], data, chunks, size);
      totalBytes := totalBytes + bytesRead;
      var terminator := buffer[size - 1];
      chunks := chunks + 1;
      if terminator == 255 {
        foundTerminator := true;
        break;
      } else if terminator != 0 {
        break;
      }
    }
    if last {
      out := out + Time(clock);
    }
  }

  /** However the socket splits its reads and writes, a finished PUTNORESULT has
      taken the chunks the straight-line form takes, up to the first that does not
      end in 0. It has answered OK and its time, as that form does under the same
      clock reading, if and only if that chunk ends in 0xFF; otherwise the
      connection is dropped after the OK. */
  lemma NoResultRefines(t: Tables, xs: seq<Upload>, ls: seq<Label>)
    requires Run(t, xs, ls) && Begun(xs[0]) && !InNoResult(xs[|ls|].s.phase)
    ensures var (x, size) := (xs[|ls|], xs[0].s.chunkSize);
      && x.ts != [] && x.taken == |x.ts| * size && TokioPut.Reported(xs[0].data, size, 0) == |x.ts|
      && (x.out == OK + Time(x.ts[|x.ts| - 1]) <==> BoundaryAt(xs[0].data, size, |x.ts| - 1) == 255)
      && (x.s.phase.Closed? <==> BoundaryAt(xs[0].data, size, |x.ts| - 1) != 255)
  {
    hide BoundaryAt;
    RunKeeps(t, xs, ls, |ls|);
    var x := xs[|ls|];
    assert TokioPut.Clean(x.data, x.s.chunkSize, |x.ts|) by { hide Run; }
    TokioPut.ReportedClean(x.data, x.s.chunkSize, |x.ts|, 0);
    Nonempty(x.ts[|x.ts| - 1], 0);
    assert |OK + Time(x.ts[|x.ts| - 1])| > |OK|;
  }
}
