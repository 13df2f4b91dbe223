/** PUTTIMERESULT on a connection in any state: what came before stays in the
    answer, and what is answered stays for what comes after. */
module ResultRuns {
  import opened Text
  import opened Wire
  import opened Chunks
  import opened TimeResults
  import opened ServerMachine
  import opened PutRuns
  import opened NoResultRuns

  predicate InResult(p: Phase) { p.ResultSendOk? || p.ResultReceive? || p.ResultSend? }

  predicate Able(t: Tables, x: Upload, l: Label) { InResult(x.s.phase) && Acts(t, x, l) }

  ghost predicate Results(t: Tables, xs: seq<Upload>, ls: seq<Label>) {
    && |xs| == |ls| + 1
    && forall i | 0 <= i < |ls| :: Able(t, xs[i], ls[i]) && xs[i + 1] == Step(t, xs[i], ls[i])
  }

  /** The parser has just taken a PUTTIMERESULT. */
  predicate Taken(x: Upload, prior: seq<Sample>, base: nat) {
    && x.s.phase.ResultSendOk? && x.s.writePos == 0 && x.s.readPos == 0 && x.s.chunkSize > 0 && !x.s.inCall
    && x.s.received == prior && x.s.totalBytes == base && x.taken == 0 && x.out == [] && x.ts == []
  }

  /** The rows of the chunks of this upload, behind those the connection held. */
  function Rows(ts: seq<nat>, prior: seq<Sample>, base: nat, size: nat): seq<Sample> {
    if ts == [] then prior else Rows(ts[..|ts| - 1], prior, base, size) + [(ts[|ts| - 1], base + |ts| * size)]
  }

  /** The answer: the line of all rows over the start of the last chunk. */
  function Answer(data: Bytes, k: nat, size: nat, rows: seq<Sample>): (a: Bytes)
    requires 0 < k && k * size <= |data|
    ensures |a| >= size && |a| >= |TimeResult(rows)|
  {
    Multiples(k - 1, k, size);
    NextCount(k - 1, size);
    Overlay(data[(k - 1) * size..k * size], TimeResult(rows))
  }

  predicate Accepts(x: Upload, prior: seq<Sample>, base: nat) {
    && x.s.phase.ResultSendOk? && x.s.writePos < |OK| && x.s.readPos == 0 && x.s.chunkSize > 0
    && x.s.received == prior && x.s.totalBytes == base && x.taken == 0 && x.ts == [] && x.out == OK[..x.s.writePos]
    && (x.s.inCall || x.s.writePos > 0 ==> x.s.clock.Some?)
  }

  predicate Takes(x: Upload, prior: seq<Sample>, base: nat) {
    var (s, k) := (x.s, |x.ts|);
    && s.phase.ResultReceive? && 0 < s.chunkSize == |s.chunkBuffer| && s.readPos < s.chunkSize && s.writePos == 0
    && x.taken == k * s.chunkSize + s.readPos <= |x.data| && s.totalBytes == base + x.taken
    && s.chunkBuffer[..s.readPos] == x.data[k * s.chunkSize..x.taken]
    && s.received == Rows(x.ts, prior, base, s.chunkSize)
    && x.out == OK && AllZero(x.data, s.chunkSize, k)
  }

  /** The chunks are over. */
  predicate Whole(x: Upload) { Over(x) && BoundaryAt(x.data, x.s.chunkSize, |x.ts| - 1) == 255 }

  predicate Answers(x: Upload, prior: seq<Sample>, base: nat) {
    var (s, k) := (x.s, |x.ts|);
    && s.phase.ResultSend? && Whole(x) && s.readPos == 0 && s.totalBytes == base + x.taken
    && s.received == Rows(x.ts, prior, base, s.chunkSize)
    && var a := Answer(x.data, k, s.chunkSize, s.received);
       Overlay(s.chunkBuffer, TimeResult(s.received)) == a && (s.inCall || s.writePos > 0 ==> s.chunkBuffer == a)
       && s.writePos < |a| && x.out == OK + a[..s.writePos]
  }

  /** Over: the rows hold one more, and the answer counts as received. */
  predicate Answered(x: Upload, prior: seq<Sample>, base: nat) {
    var (s, k) := (x.s, |x.ts|);
    && s.phase.CommandSend? && Whole(x) && s.readPos == 0 && s.writePos == 0 && s.received != []
    && var (rows, last) := (s.received[..|s.received| - 1], s.received[|s.received| - 1]);
       && rows == Rows(x.ts, prior, base, s.chunkSize)
       && x.out == OK + Answer(x.data, k, s.chunkSize, rows)
       && s.totalBytes == last.1 == base + x.taken + |Answer(x.data, k, s.chunkSize, rows)|
  }

  /** Dropped at the first chunk that ends in neither 0 nor 0xFF. */
  predicate Dropped(x: Upload, prior: seq<Sample>, base: nat) {
    && x.s.phase.Closed? && Over(x) && BoundaryAt(x.data, x.s.chunkSize, |x.ts| - 1) != 255 && x.out == OK
    && x.s.received == Rows(x.ts, prior, base, x.s.chunkSize) && x.s.totalBytes == base + x.taken
  }

  predicate ResultInv(x: Upload, prior: seq<Sample>, base: nat) {
    match x.s.phase
    case ResultSendOk => Accepts(x, prior, base)
    case ResultReceive => Takes(x, prior, base)
    case ResultSend => Answers(x, prior, base)
    case CommandSend => Answered(x, prior, base)
    case Closed => Dropped(x, prior, base)
    case _ => false
  }

  /** A step while OK goes out, as assignments. */
  lemma AcceptShape(t: Tables, x: Upload, l: Label)
    requires x.s.phase.ResultSendOk? && x.s.writePos < |OK| && Able(t, x, l)
    ensures l.Enters? || (l.Writes? && x.s.inCall && x.s.writePos + l.n <= |OK|)
    ensures l.Enters? ==> var y := Step(t, x, l);
      y.s.clock.Some? && y == x.(s := x.s.(inCall := true, clock := y.s.clock,
                                 writePos := if x.s.clock.None? then 0 else x.s.writePos))
    ensures l.Writes? ==>
      var (s, end) := (x.s, x.s.writePos + l.n);
      var z := s.(writePos := 0, readPos := 0, chunkBuffer := Zeros(s.chunkSize), clock := Some(l.now));
      Step(t, x, l) == x.(out := x.out + OK[s.writePos..][..l.n],
          s := if end < |OK| then s.(writePos := end) else Goto(z, ResultReceive, Readable))
  {
    hide OK, Zeros;
  }

  lemma AcceptStep(t: Tables, x: Upload, prior: seq<Sample>, base: nat, l: Label)
    requires Accepts(x, prior, base) && Able(t, x, l)
    ensures ResultInv(Step(t, x, l), prior, base)
  {
    hide Step, Acts, OK, BoundaryAt;
    AcceptShape(t, x, l);
    if l.Writes? {
      AppendRest([], OK, x.s.writePos, l.n);
      assert [] + OK[..x.s.writePos] == OK[..x.s.writePos];
      assert [] + OK[..x.s.writePos + l.n] == OK[..x.s.writePos + l.n] && [] + OK == OK;
      if x.s.writePos + l.n == |OK| {
        assert OK[..|OK|] == OK;
        assert Takes(Step(t, x, l), prior, base);
      }
    }
  }

  /** What a chunk read leads to: `r` has stored the bytes. */
  function Filled(s: Server, r: Server, time: nat): Server {
    var row := r.(received := r.received + [(time, r.totalBytes)]);
    if r.readPos != s.chunkSize then r
    else if Boundary(r) == 255 then Goto(row.(readPos := 0, writePos := 0), ResultSend, Writable)
    else if Boundary(r) != 0 then Goto(row, Closed, s.interest)
    else row.(readPos := 0)
  }

  function Stored(s: Server, data: Bytes): Server
    requires s.readPos + |data| <= |s.chunkBuffer|
  {
    s.(chunkBuffer := Store(s.chunkBuffer, s.readPos, data), readPos := s.readPos + |data|,
       totalBytes := s.totalBytes + |data|)
  }

  lemma GotShape(s: Server, data: Bytes, now: nat)
    requires s.phase.ResultReceive? && data != [] && s.readPos + |data| <= |s.chunkBuffer|
    ensures |data| <= Room(s) && Got(s, data, now) == Filled(s, Stored(s, data), Elapsed(s, now))
  {
    hide Store;
  }

  lemma TakeShape(t: Tables, x: Upload, l: Label)
    requires x.s.phase.ResultReceive? && x.s.readPos <= |x.s.chunkBuffer| && Able(t, x, l)
    ensures !l.Reads? ==> Step(t, x, l) == x.(s := x.s.(inCall := true))
    ensures l.Reads? ==>
      && x.s.readPos + l.n <= |x.s.chunkBuffer| && x.taken + l.n <= |x.data| && l.n > 0
      && l.n <= Room(x.s)
      && Step(t, x, l) == x.(taken := x.taken + l.n, s := Got(x.s, x.data[x.taken..x.taken + l.n], l.now),
          ts := if x.s.readPos + l.n == x.s.chunkSize then x.ts + [Elapsed(x.s, l.now)] else x.ts)
  {
    hide Got, Message;
  }

  lemma PartStep(t: Tables, x: Upload, prior: seq<Sample>, base: nat, l: Label)
    requires Takes(x, prior, base) && Able(t, x, l) && (l.Reads? ==> x.s.readPos + l.n < x.s.chunkSize)
    ensures Takes(Step(t, x, l), prior, base)
  {
    hide Store, AllZero, OK, Elapsed, Got, Room, Acts, Step, Rows, Boundary;
    var (s, k) := (x.s, |x.ts|);
    TakeShape(t, x, l);
    if l.Reads? {
      GotShape(s, x.data[x.taken..x.taken + l.n], l.now);
      StoreNext(s.chunkBuffer, s.readPos, x.data, k * s.chunkSize, x.taken, l.n);
    }
  }

  /** The connection has stored the last byte of its chunk. */
  predicate Full(x: Upload, r: Server, end: nat, prior: seq<Sample>, base: nat) {
    var (size, k) := (x.s.chunkSize, |x.ts|);
    && 0 < size == r.chunkSize == r.readPos && r.writePos == 0 && r.phase.ResultReceive?
    && k * size + size == (k + 1) * size == end <= |x.data|
    && r.chunkBuffer == x.data[k * size..end] && Boundary(r) == BoundaryAt(x.data, size, k)
    && r.totalBytes == base + end && r.received == Rows(x.ts, prior, base, size)
    && x.out == OK && AllZero(x.data, size, k)
  }

  lemma WholeBuffer(x: Upload, prior: seq<Sample>, base: nat, n: nat)
    requires Takes(x, prior, base) && 0 < n && x.s.readPos + n == x.s.chunkSize && x.taken + n <= |x.data|
    ensures Full(x, Stored(x.s, x.data[x.taken..x.taken + n]), x.taken + n, prior, base)
  {
    hide Store, AllZero, OK, Rows, BoundaryAt;
    var (s, k, size) := (x.s, |x.ts|, x.s.chunkSize);
    StoreNext(s.chunkBuffer, s.readPos, x.data, k * size, x.taken, n);
    NextCount(k, size);
    var b := Store(s.chunkBuffer, s.readPos, x.data[x.taken..x.taken + n]);
    LastByte(b, x.data, k, size);
    assert b[..size] == b;
  }

  /** Where a whole chunk leads. */
  lemma FullNext(x: Upload, r: Server, end: nat, prior: seq<Sample>, base: nat, time: nat)
    requires Full(x, r, end, prior, base)
    ensures ResultInv(x.(taken := end, ts := x.ts + [time], s := Filled(x.s, r, time)), prior, base)
  {
    hide AllZero, BoundaryAt, Boundary, OK, TimeResult, Rows, Overlay, Answer;
    var (size, k) := (x.s.chunkSize, |x.ts|);
    RowsNext(x.ts, time, prior, base, size);
    ZeroNext(x.data, size, k);
    if Boundary(r) == 255 {
      FirstOfAnswer(x.data, k + 1, size, Rows(x.ts + [time], prior, base, size));
    } else {
      assert r.chunkBuffer[..0] == [] && x.data[end..end] == [];
    }
  }

  lemma FirstOfAnswer(data: Bytes, k: nat, size: nat, rows: seq<Sample>)
    requires 0 < k && 0 < size && k * size <= |data|
    ensures |Answer(data, k, size, rows)| > 0 && OK + Answer(data, k, size, rows)[..0] == OK
    ensures (k - 1) * size + size == k * size
    ensures Answer(data, k, size, rows) == Overlay(data[(k - 1) * size..k * size], TimeResult(rows))
  {
    hide TimeResult, Overlay;
  }

  lemma WholeStep(t: Tables, x: Upload, prior: seq<Sample>, base: nat, l: Label)
    requires Takes(x, prior, base) && Able(t, x, l) && l.Reads? && x.s.readPos + l.n == x.s.chunkSize
    ensures ResultInv(Step(t, x, l), prior, base)
  {
    hide Store, AllZero, BoundaryAt, OK, Acts, Step, TimeResult, Rows, Filled, Full, Got, Room, ResultInv, Elapsed;
    TakeShape(t, x, l);
    var data := x.data[x.taken..x.taken + l.n];
    GotShape(x.s, data, l.now);
    WholeBuffer(x, prior, base, l.n);
    FullNext(x, Stored(x.s, data), x.taken + l.n, prior, base, Elapsed(x.s, l.now));
  }

  lemma RowsNext(ts: seq<nat>, time: nat, prior: seq<Sample>, base: nat, size: nat)
    ensures Rows(ts + [time], prior, base, size) == Rows(ts, prior, base, size) + [(time, base + (|ts| + 1) * size)]
  {
    assert (ts + [time])[..|ts|] == ts;
  }

  /** A step while the answer goes out, as assignments. */
  lemma AnswerShape(t: Tables, x: Upload, l: Label, a: Bytes)
    requires x.s.phase.ResultSend? && Able(t, x, l) && x.s.writePos < |a|
    requires Overlay(x.s.chunkBuffer, TimeResult(x.s.received)) == a
    requires x.s.inCall || x.s.writePos > 0 ==> x.s.chunkBuffer == a
    ensures l.Enters? || (l.Writes? && x.s.inCall && x.s.writePos + l.n <= |a|)
    ensures l.Enters? ==> Step(t, x, l) == x.(s := x.s.(inCall := true, chunkBuffer := a))
    ensures l.Writes? ==> var end := x.s.writePos + l.n;
      Step(t, x, l) == x.(out := x.out + a[x.s.writePos..][..l.n],
          s := if end < |a| then x.s.(writePos := end) else Finish(x.s, l.now))
  {
    hide TimeResult, Overlay, Finish;
  }

  lemma AnswerDone(s: Server, now: nat)
    requires s.phase.ResultSend?
    ensures var (y, total) := (Finish(s, now), s.totalBytes + |s.chunkBuffer|);
      && y.phase.CommandSend? && y.readPos == 0 && y.writePos == 0 && y.chunkSize == s.chunkSize
      && y.totalBytes == total && y.received == s.received + [(Elapsed(s, now), total)]
  {
  }

  lemma AnswerStep(t: Tables, x: Upload, prior: seq<Sample>, base: nat, l: Label)
    requires Answers(x, prior, base) && Able(t, x, l)
    ensures ResultInv(Step(t, x, l), prior, base)
  {
    hide AllZero, BoundaryAt, OK, Acts, Step, TimeResult, Rows, Finish, Overlay, Answer;
    var (s, k, y) := (x.s, |x.ts|, Step(t, x, l));
    var a := Answer(x.data, k, s.chunkSize, s.received);
    AnswerShape(t, x, l, a);
    if l.Writes? {
      AppendRest(OK, a, s.writePos, l.n);
      AnswerDone(s, l.now);
      assert y.s.phase.CommandSend? ==> y.s.received[..|y.s.received| - 1] == s.received;
    } else {
      AnswerAgain(x.data, k, s.chunkSize, s.received);
    }
  }

  /** The line written over the answer again changes nothing. */
  lemma AnswerAgain(data: Bytes, k: nat, size: nat, rows: seq<Sample>)
    requires 0 < k && k * size <= |data|
    ensures var a := Answer(data, k, size, rows); Overlay(a, TimeResult(rows)) == a
  {
    hide TimeResult;
  }

  lemma ResultStep(t: Tables, x: Upload, prior: seq<Sample>, base: nat, l: Label)
    requires ResultInv(x, prior, base) && Able(t, x, l)
    ensures var y := Step(t, x, l); ResultInv(y, prior, base) && y.data == x.data && y.s.chunkSize == x.s.chunkSize
  {
    hide ResultInv, Step, Takes, Accepts, Answers, Acts;
    SameUpload(t, x, l);
    match x.s.phase {
      case ResultSendOk => Phases(x, prior, base); AcceptStep(t, x, prior, base, l);
      case ResultReceive =>
        Phases(x, prior, base);
        ChunkStep(t, x, prior, base, l);
      case _ => Phases(x, prior, base); AnswerStep(t, x, prior, base, l);
    }
  }

  lemma Phases(x: Upload, prior: seq<Sample>, base: nat)
    requires InResult(x.s.phase)
    ensures ResultInv(x, prior, base) <==>
      match x.s.phase
      case ResultSendOk => Accepts(x, prior, base)
      case ResultReceive => Takes(x, prior, base)
      case _ => Answers(x, prior, base)
  {
    hide Accepts, Takes, Answers;
  }

  lemma ChunkStep(t: Tables, x: Upload, prior: seq<Sample>, base: nat, l: Label)
    requires Takes(x, prior, base) && Able(t, x, l)
    ensures ResultInv(Step(t, x, l), prior, base)
  {
    hide ResultInv, Step, Acts, OK, AllZero, Rows;
    TakeShape(t, x, l);
    if l.Reads? && x.s.readPos + l.n >= x.s.chunkSize {
      WholeStep(t, x, prior, base, l);
    } else {
      PartStep(t, x, prior, base, l);
      TakesPhase(Step(t, x, l), prior, base);
      Phases(Step(t, x, l), prior, base);
    }
  }

  lemma TakesPhase(x: Upload, prior: seq<Sample>, base: nat)
    requires Takes(x, prior, base)
    ensures x.s.phase.ResultReceive?
  {
  }

  lemma SameUpload(t: Tables, x: Upload, l: Label)
    requires Able(t, x, l)
    ensures Step(t, x, l).data == x.data && Step(t, x, l).s.chunkSize == x.s.chunkSize
  {
    hide Message, Room, Overlay, TimeResult, Elapsed, Store, Zeros;
  }

  lemma {:induction false} RunKeeps(t: Tables, xs: seq<Upload>, ls: seq<Label>, prior: seq<Sample>, base: nat, i: nat)
    requires Results(t, xs, ls) && Taken(xs[0], prior, base) && i < |xs|
    ensures ResultInv(xs[i], prior, base) && xs[i].data == xs[0].data && xs[i].s.chunkSize == xs[0].s.chunkSize
  {
    hide ResultInv, Acts, Step;
    if i == 0 {
      TakenHolds(xs[0], prior, base);
    } else {
      RunKeeps(t, xs, ls, prior, base, i - 1);
      ResultStep(t, xs[i - 1], prior, base, ls[i - 1]);
    }
  }

  lemma TakenHolds(x: Upload, prior: seq<Sample>, base: nat)
    requires Taken(x, prior, base)
    ensures ResultInv(x, prior, base)
  {
    assert OK[..0] == [] && |OK| == 3;
  }

  /** Only the last write of an answer leads back to the prompt. */
  lemma PromptNext(t: Tables, x: Upload, l: Label)
    requires Able(t, x, l) && Step(t, x, l).s.phase.CommandSend?
    ensures l.Writes? && x.s.phase.ResultSend?
  {
    hide OK, TimeResult, Overlay, Elapsed, Store, Boundary, Zeros, Message;
  }

  /** It adds a row. */
  lemma LastWrite(t: Tables, x: Upload, prior: seq<Sample>, base: nat, l: Label)
    requires ResultInv(x, prior, base) && Able(t, x, l) && Step(t, x, l).s.phase.CommandSend?
    ensures var y := Step(t, x, l);
      l.Writes? && x.s.phase.ResultSend? && y.s.received != []
      && y.s.received[|y.s.received| - 1].0 == Elapsed(x.s, l.now)
  {
    hide AllZero, BoundaryAt, OK, Acts, Step, TimeResult, Rows, Finish, Overlay, Answer, Elapsed;
    PromptNext(t, x, l);
    AnswerShape(t, x, l, Answer(x.data, |x.ts|, x.s.chunkSize, x.s.received));
    AnswerDone(x.s, l.now);
  }
}
