/** The stream adapters over a rustls connection: `read` with its spill buffer,
    `write` with the byte it holds back when the socket blocks. */
module Tls {
  import opened Text
  import opened Sockets

  /** What `read_tls` and `process_new_packets` bring: nothing yet, an error, the
      end of the stream, or records that decrypt to `plain` and make the
      connection want to send `reply` bytes. */
  datatype Recv = RecvBlocked | RecvBroken | RecvClosed
                | Records(plain: Bytes, reply: nat, valid: bool, readerFails: bool, wantsMore: bool)

  /** What `write_tls` does with the bytes the connection wants to send. */
  datatype Send = Sent(n: nat) | SendBlocked | SendBroken

  /** What the connection's writer does with an offer: it takes up to `most`
      bytes and has `adds` bytes more to send for them. */
  datatype Take = Takes(most: nat, adds: nat) | TakeBlocked | TakeBroken

  /** An adapter and the connection under it. `plain` is decrypted but not taken
      out of the connection, `pending` counts the bytes it wants to send. */
  datatype Adapter = Adapter(
    tempBuf: Bytes, handshakeDone: bool, finished: bool,
    plain: Bytes, pending: nat, accepted: Bytes,
    recv: seq<Recv>, send: seq<Send>, take: seq<Take>)

  // ----- sending

  function WriteTls(x: Adapter): (r: (Io, Adapter))
    ensures |r.1.send| <= |x.send| && (r.0.Ok? ==> |r.1.send| < |x.send|)
    ensures r.1 == x.(send := r.1.send, pending := r.1.pending) && (!r.0.Ok? ==> r.1.pending == x.pending)
  {
    if x.send == [] then (WouldBlock, x) else
    var y := x.(send := x.send[1..]);
    match x.send[0]
    case SendBlocked => (WouldBlock, y)
    case SendBroken => (Failed, y)
    case Sent(n) => (Ok(n), y.(pending := if n <= x.pending then x.pending - n else 0))
  }

  /** `if wants_write { write_tls }`. */
  function SendOnce(x: Adapter): (r: (Io, Adapter))
    ensures r.1 == x.(send := r.1.send, pending := r.1.pending)
  {
    if x.pending > 0 then WriteTls(x) else (Ok(0), x)
  }

  /** `while wants_write { write_tls }`. */
  function Flush(x: Adapter): (r: (Io, Adapter))
    ensures r.1 == x.(send := r.1.send, pending := r.1.pending)
    ensures r.0.Ok? <==> r.1.pending == 0
    ensures !r.0.Ok? ==> x.pending > 0
    decreases |x.send|
  {
    if x.pending == 0 then (Ok(0), x) else
    var (io, y) := WriteTls(x);
    if io.Ok? then Flush(y) else (io, y)
  }

  /** The loop of `write` from position `total` of the buffer on. */
  function WriteLoop(x: Adapter, buf: Bytes, total: nat): (r: (Io, Adapter))
    requires x.pending == 0
    decreases |x.take|, |buf| - total
  {
    if total >= |buf| then (Ok(total), x) else
    var answer := if x.take == [] then Takes(|buf|, 1) else x.take[0];
    var y := if x.take == [] then x else x.(take := x.take[1..]);
    match answer
    case TakeBlocked => (WouldBlock, y)
    case TakeBroken => (Failed, y)
    case Takes(most, adds) =>
      var n := Least(most, |buf| - total);
      var z := y.(accepted := y.accepted + buf[total..total + n], pending := if n > 0 then adds else 0);
      var (io, f) := Flush(z);
      match io
      case Ok(_) => WriteLoop(f, buf, total + n)
      case WouldBlock => (Ok(total + n - 1), f.(finished := false))
      case Failed => (Failed, f)
  }

  function Write(x: Adapter, buf: Bytes): (Io, Adapter) {
    var (io, y) := Flush(x);
    if !io.Ok? then (io, y) else WriteLoop(y.(finished := true), buf, Held(x))
  }

  /** Bytes the connection has taken that the caller has not been told about. */
  function Held(x: Adapter): nat { if x.finished then 0 else 1 }

  // ----- receiving

  function Give(x: Adapter, size: nat): (Io, Bytes, Adapter) {
    var n := Least(size, |x.tempBuf|);
    (Ok(n), x.tempBuf[..n], x.(tempBuf := x.tempBuf[n..]))
  }

  /** No new bytes from the network: what is held, once some TLS output is out. */
  function ReadIdle(x: Adapter, size: nat): (Io, Bytes, Adapter) {
    var (io, z) := SendOnce(x);
    if !io.Ok? then (io, [], z) else if z.tempBuf != [] then Give(z, size) else (WouldBlock, [], z)
  }

  function Read(x: Adapter, size: nat): (Io, Bytes, Adapter)
    decreases |x.recv|
  {
    if |x.tempBuf| > size then Give(x, size) else
    var y := if x.recv == [] then x else x.(recv := x.recv[1..]);
    match if x.recv == [] then RecvBlocked else x.recv[0]
    case RecvBroken => (Failed, [], y)
    case RecvClosed => (Ok(0), [], y)
    case RecvBlocked => ReadIdle(y, size)
    case Records(plain, reply, valid, readerFails, wantsMore) =>
      var z := y.(plain := y.plain + plain, pending := y.pending + reply);
      if !valid then (Failed, [], z) else
      var (io, h) := if z.handshakeDone then (Ok(0), z) else Flush(z.(handshakeDone := true));
      if !io.Ok? then (io, [], h) else
      var d := h.(tempBuf := h.tempBuf + h.plain, plain := []);
      if readerFails then (Failed, [], d)
      else if size > 0 && d.tempBuf != [] then Give(d, size)
      else if wantsMore then Read(d, size)
      else
        var (last, e) := SendOnce(d);
        if last.Ok? then (Ok(0), [], e) else (last, [], e)
  }

  // ----- what a write does

  lemma JoinSlices(a: Bytes, buf: Bytes, i: nat, j: nat, k: nat)
    requires i <= j <= k <= |buf|
    ensures a + buf[i..j] + buf[j..k] == a + buf[i..k] && a + buf[i..i] == a
  {
  }

  function NextTake(x: Adapter, buf: Bytes): Take { if x.take == [] then Takes(|buf|, 1) else x.take[0] }

  function AfterTake(x: Adapter): Adapter { if x.take == [] then x else x.(take := x.take[1..]) }

  /** One turn of the loop of `write`. */
  lemma WriteTurn(x: Adapter, buf: Bytes, total: nat)
    requires x.pending == 0
    ensures total >= |buf| ==> WriteLoop(x, buf, total) == (Ok(total), x)
    ensures total < |buf| && !NextTake(x, buf).Takes? ==> 
      WriteLoop(x, buf, total) == (if NextTake(x, buf).TakeBlocked? then WouldBlock else Failed, AfterTake(x))
    ensures total < |buf| && NextTake(x, buf).Takes? ==>
      var n := Least(NextTake(x, buf).most, |buf| - total);
      var z := AfterTake(x).(accepted := x.accepted + buf[total..total + n], pending := if n > 0
          then NextTake(x, buf).adds else 0);
      var (io, f) := Flush(z);
      && (io.WouldBlock? ==> total + n > 0)
      && WriteLoop(x, buf, total) == (if io.Ok? then WriteLoop(f, buf, total + n)
                                      else if io.WouldBlock? then (Ok(total + n - 1), f.(finished := false))
                                          else (Failed, f))
  {
    hide Flush;
  }

  lemma {:induction false} WriteLoopTakes(x: Adapter, buf: Bytes, total: nat) returns (m: nat)
    requires x.pending == 0 && x.finished && total <= |buf|
    ensures total + m <= |buf|
    ensures var (io, y) := WriteLoop(x, buf, total);
      && y.accepted == x.accepted + buf[total..total + m]
      && (io.Ok? ==> io.n + Held(y) == total + m && (y.finished ==> io.n == |buf|))
      && (!io.Ok? ==> y.finished)
    decreases |x.take|, |buf| - total
  {
    hide Flush, WriteLoop;
    m := 0;
    JoinSlices(x.accepted, buf, total, total, total);
    WriteTurn(x, buf, total);
    if total < |buf| && NextTake(x, buf).Takes? {
      m := Least(NextTake(x, buf).most, |buf| - total);
      var z := AfterTake(x).(accepted := x.accepted + buf[total..total + m], pending := if m > 0
          then NextTake(x, buf).adds else 0);
      var (io, f) := Flush(z);
      if io.Ok? {
        var k := WriteLoopTakes(f, buf, total + m);
        JoinSlices(x.accepted, buf, total, total + m, total + m + k);
        m := m + k;
      }
    }
  }

  /** A write takes a piece of the buffer, starting behind a byte taken before,
      and reports what was taken but for the byte it holds back. */
  lemma WriteTakes(x: Adapter, buf: Bytes) returns (m: nat)
    requires Held(x) <= |buf|
    ensures Held(x) + m <= |buf|
    ensures var (io, y) := Write(x, buf);
      && y.accepted == x.accepted + buf[Held(x)..Held(x) + m]
      && (io.Ok? ==> io.n + Held(y) == Held(x) + m && (y.finished ==> io.n == |buf|))
      && (!io.Ok? ==> y.finished || (y.accepted == x.accepted && y.finished == x.finished))
  {
    var (io, y) := Flush(x);
    m := 0;
    assert x.accepted == x.accepted + buf[Held(x)..Held(x)];
    if io.Ok? {
      m := WriteLoopTakes(y.(finished := true), buf, Held(x));
    }
  }

  /** The connection has taken what the caller counts as sent, and the held byte. */
  predicate InSync(stream: Bytes, acked: nat, x: Adapter) {
    acked + Held(x) <= |stream| && x.accepted == stream[..acked + Held(x)]
  }

  predicate Offered(stream: Bytes, acked: nat, buf: Bytes) {
    buf != [] && acked + |buf| <= |stream| && buf == stream[acked..acked + |buf|]
  }

  /** The call fails although the connection took bytes in it, or held one from before. */
  predicate FailsLate(x: Adapter, buf: Bytes) {
    var (io, y) := Write(x, buf); !io.Ok? && (y.accepted != x.accepted || y.finished != x.finished)
  }

  // ----- which schedules break a write, as seen before the call

  /** What the socket makes of `pending` bytes to send, and its answers after that. */
  function Drain(pending: nat, send: seq<Send>): (r: (Io, seq<Send>))
    decreases |send|
  {
    if pending == 0 then (Ok(0), send)
    else if send == [] then (WouldBlock, send)
    else match send[0]
      case SendBlocked => (WouldBlock, send[1..])
      case SendBroken => (Failed, send[1..])
      case Sent(n) => Drain(if n <= pending then pending - n else 0, send[1..])
  }

  /** Before `left` bytes are taken and sent, the writer refuses once it has taken
      a byte (`begun`), or the socket breaks. A socket that would block first is
      what the held byte is for. */
  predicate Trips(take: seq<Take>, send: seq<Send>, left: nat, begun: bool)
    decreases |take|
  {
    if left == 0 then false
    else if take == [] then Drain(1, send).0.Failed?
    else match take[0]
      case TakeBlocked | TakeBroken => begun
      case Takes(most, adds) =>
        var n := Least(most, left);
        var (io, rest) := Drain(if n > 0 then adds else 0, send);
        io.Failed? || (io.Ok? && Trips(take[1..], rest, left - n, begun || n > 0))
  }

  /** The old output goes out, and then the call trips. */
  predicate Doomed(x: Adapter, size: nat) {
    var (io, send) := Drain(x.pending, x.send);
    io.Ok? && Held(x) <= size && Trips(x.take, send, size - Held(x), !x.finished)
  }

  lemma {:induction false} FlushDrains(x: Adapter)
    ensures var (io, y) := Flush(x); (io, y.send) == Drain(x.pending, x.send)
    decreases |x.send|
  {
    if x.pending > 0 && x.send != [] && x.send[0].Sent? {
      FlushDrains(WriteTls(x).1);
    }
  }

  lemma {:induction false} LoopTrips(x: Adapter, buf: Bytes, total: nat, begun: bool)
    requires x.pending == 0 && x.finished && total <= |buf|
    ensures var (io, y) := WriteLoop(x, buf, total);
      !io.Ok? && (begun || y.accepted != x.accepted) <==> Trips(x.take, x.send, |buf| - total, begun)
    ensures |WriteLoop(x, buf, total).1.accepted| >= |x.accepted|
    decreases |x.take|, |buf| - total
  {
    hide Flush, WriteLoop, Drain;
    WriteTurn(x, buf, total);
    if total < |buf| && NextTake(x, buf).Takes? {
      var n := Least(NextTake(x, buf).most, |buf| - total);
      var z := AfterTake(x).(accepted := x.accepted + buf[total..total + n], pending := if n > 0
          then NextTake(x, buf).adds else 0);
      var (io, f) := Flush(z);
      FlushDrains(z);
      assert |z.accepted| == |x.accepted| + n;
      if io.Ok? {
        LoopTrips(f, buf, total + n, begun || n > 0);
      }
    }
  }

  /** A call fails late exactly on these schedules. */
  lemma FailsLateExactly(x: Adapter, buf: Bytes)
    requires Held(x) <= |buf|
    ensures FailsLate(x, buf) <==> Doomed(x, |buf|)
  {
    hide Flush, WriteLoop, Drain, Trips;
    var (io, y) := Flush(x);
    FlushDrains(x);
    if io.Ok? {
      LoopTrips(y.(finished := true), buf, Held(x), !x.finished);
      var m := WriteLoopTakes(y.(finished := true), buf, Held(x));
    }
  }

  /** A call whose buffer continues the acknowledged stream keeps connection and
      caller in step exactly when it is not doomed by the schedule it meets. */
  lemma WriteSync(stream: Bytes, acked: nat, x: Adapter, buf: Bytes)
    requires InSync(stream, acked, x) && Offered(stream, acked, buf)
    ensures var (io, y) := Write(x, buf); InSync(stream, acked + (if io.Ok? then io.n else 0), y) <==> !Doomed(x, |buf|)
  {
    hide Write, Doomed;
    FailsLateExactly(x, buf);
    var m := WriteTakes(x, buf);
    var (io, y) := Write(x, buf);
    var h := Held(x);
    PieceOf(stream, acked, buf, h, m);
  }

  /** A piece of an offered buffer is the piece of the stream at its place. */
  lemma PieceOf(stream: Bytes, acked: nat, buf: Bytes, h: nat, m: nat)
    requires Offered(stream, acked, buf) && h + m <= |buf|
    ensures stream[..acked + h] + buf[h..h + m] == stream[..acked + h + m]
  {
    var piece, place := buf[h..h + m], stream[acked + h..acked + h + m];
    forall i | 0 <= i < m ensures piece[i] == place[i] {
      assert buf[h + i] == stream[acked + (h + i)];
    }
    assert piece == place;
    assert stream[..acked + h] + place == stream[..acked + h + m];
  }

  /** A caller that offers the rest of its stream again after every call. */
  ghost predicate Reoffers(stream: Bytes, xs: seq<Adapter>, acks: seq<nat>, bufs: seq<Bytes>) {
    && |xs| == |acks| == |bufs| + 1 && acks[0] == 0 && xs[0].finished && xs[0].accepted == []
    && forall i | 0 <= i < |bufs| ::
         && Offered(stream, acks[i], bufs[i])
         && var (io, y) := Write(xs[i], bufs[i]);
            && xs[i + 1].accepted == y.accepted && xs[i + 1].finished == y.finished  // reads may change the rest
            && acks[i + 1] == acks[i] + if io.Ok? then io.n else 0
  }

  /** Connection and caller stay in step for as long as no call is doomed, and no longer. */
  lemma {:induction false} InStepExactly(stream: Bytes, xs: seq<Adapter>, acks: seq<nat>, bufs: seq<Bytes>, i: nat)
    requires Reoffers(stream, xs, acks, bufs) && i < |xs|
    ensures (forall j | 0 <= j <= i :: InSync(stream, acks[j], xs[j])) <==> forall j | 0 <= j < i ::
        !Doomed(xs[j], |bufs[j]|)
  {
    hide Write, Doomed;
    if i == 0 {
      assert stream[..0] == [];
    } else {
      var (x, buf) := (xs[i - 1], bufs[i - 1]);
      InStepExactly(stream, xs, acks, bufs, i - 1);
      assert InSync(stream, acks[i], xs[i]) <==> var (io, y) := Write(x, buf);
          InSync(stream, acks[i - 1] + (if io.Ok? then io.n else 0), y);
      if forall j | 0 <= j <= i - 1 :: InSync(stream, acks[j], xs[j]) {
        WriteSync(stream, acks[i - 1], x, buf);
      } else {
        var j :| 0 <= j <= i - 1 && !InSync(stream, acks[j], xs[j]);
        var d :| 0 <= d < i - 1 && Doomed(xs[d], |bufs[d]|);
      }
    }
  }

  /** The writer takes what it can and the socket may block at any time, but does not break. */
  predicate Orderly(x: Adapter) { (forall t | t in x.take :: t.Takes?) && forall s | s in x.send :: !s.SendBroken? }

  lemma {:induction false} DrainOrderly(pending: nat, send: seq<Send>)
    requires forall s | s in send :: !s.SendBroken?
    ensures var (io, rest) := Drain(pending, send); !io.Failed? && forall s | s in rest :: s in send
    decreases |send|
  {
    if pending > 0 && send != [] && send[0].Sent? {
      DrainOrderly(if send[0].n <= pending then pending - send[0].n else 0, send[1..]);
    }
  }

  lemma {:induction false} OrderlyNeverTrips(take: seq<Take>, send: seq<Send>, left: nat, begun: bool)
    requires (forall t | t in take :: t.Takes?) && forall s | s in send :: !s.SendBroken?
    ensures !Trips(take, send, left, begun)
    decreases |take|
  {
    hide Drain;
    DrainOrderly(1, send);
    if left > 0 && take != [] {
      assert take[0] in take;
      var n := Least(take[0].most, left);
      var out := if n > 0 then take[0].adds else 0;
      DrainOrderly(out, send);
      OrderlyNeverTrips(take[1..], Drain(out, send).1, left - n, begun || n > 0);
    }
  }

  /** Exactly once: over any calls and any pattern of partial takes, partial sends
      and blocking, the connection has taken the caller's stream in order, nothing
      twice and nothing left out, one byte ahead of what was acknowledged when the
      last call was cut short. */
  lemma WriteExactlyOnce(stream: Bytes, xs: seq<Adapter>, acks: seq<nat>, bufs: seq<Bytes>, i: nat)
    requires Reoffers(stream, xs, acks, bufs) && i < |xs| && forall j | 0 <= j < i :: Orderly(xs[j])
    ensures acks[i] + Held(xs[i]) <= |stream| && xs[i].accepted == stream[..acks[i] + Held(xs[i])]
  {
    hide Reoffers, Drain, Orderly;
    forall j | 0 <= j < i ensures |bufs| + 1 == |xs| && !Doomed(xs[j], |bufs[j]|) {
      assert |bufs| + 1 == |xs| by { ReoffersSizes(stream, xs, acks, bufs); }
      OrderlyDone(xs[j], |bufs[j]|);
    }
    ReoffersSizes(stream, xs, acks, bufs);
    InStepExactly(stream, xs, acks, bufs, i);
  }

  lemma ReoffersSizes(stream: Bytes, xs: seq<Adapter>, acks: seq<nat>, bufs: seq<Bytes>)
    requires Reoffers(stream, xs, acks, bufs)
    ensures |xs| == |acks| == |bufs| + 1
  {
  }

  lemma OrderlyDone(x: Adapter, size: nat)
    requires Orderly(x)
    ensures !Doomed(x, size)
  {
    hide Drain, Trips;
    DrainOrderly(x.pending, x.send);
    if Held(x) <= size {
      OrderlyNeverTrips(x.take, Drain(x.pending, x.send).1, size - Held(x), !x.finished);
    }
  }

  /** A schedule that breaks the order: the socket takes nothing and breaks once
      two bytes are in the connection. The caller, told of an error, has sent none. */
  lemma BrokenSocketLosesStep(x: Adapter, buf: Bytes)
    requires x == Adapter([], true, true, [], 0, [], [], [SendBroken], [Takes(2, 2)]) && |buf| == 2
    ensures InSync(buf, 0, x) && Doomed(x, 2) && Write(x, buf).0.Failed? && Write(x, buf).1.accepted == buf
        && !InSync(buf, 0, Write(x, buf).1)
  {
    assert [SendBroken][1..] == [];
    assert Trips([Takes(2, 2)], [SendBroken], 2, false);
    FailsLateExactly(x, buf);
    WriteTurn(x, buf, 0);
    assert buf[0..2] == buf;
  }

  /** The first offer the writer takes anything of. */
  function FirstTake(take: seq<Take>, left: nat): Take {
    if take == [] then Takes(left, 1) else if take[0].Takes?
        && take[0].most == 0 then FirstTake(take[1..], left) else take[0]
  }

  /** Nothing is held, the old output goes out, and the first byte taken, alone,
      gets stuck. */
  predicate OneByteStuck(x: Adapter, size: nat) {
    var (io, send) := Drain(x.pending, x.send);
    var first := FirstTake(x.take, size);
    x.finished && io.Ok? && first.Takes? && Least(first.most, size) == 1 && Drain(first.adds, send).0.WouldBlock?
  }

  lemma {:induction false} LoopReturnsZero(x: Adapter, buf: Bytes, total: nat)
    requires x.pending == 0 && x.finished && total <= |buf| && buf != []
    ensures var first := FirstTake(x.take, |buf|);
      WriteLoop(x, buf, total).0 == Ok(0) <==>
      total == 0 && first.Takes? && Least(first.most, |buf|) == 1 && Drain(first.adds, x.send).0.WouldBlock?
    decreases |x.take|, |buf| - total
  {
    hide Flush, WriteLoop, Drain;
    WriteTurn(x, buf, total);
    if total < |buf| && NextTake(x, buf).Takes? {
      var n := Least(NextTake(x, buf).most, |buf| - total);
      var z := AfterTake(x).(accepted := x.accepted + buf[total..total + n], pending := if n > 0
          then NextTake(x, buf).adds else 0);
      var (io, f) := Flush(z);
      FlushDrains(z);
      if io.Ok? {
        LoopReturnsZero(f, buf, total + n);
        if n == 0 {
          assert f == z by { FlushNothing(z); }
        }
      }
    }
  }

  lemma FlushNothing(x: Adapter)
    requires x.pending == 0
    ensures Flush(x) == (Ok(0), x) && Drain(0, x.send) == (Ok(0), x.send)
  {
  }

  /** A call on bytes returns 0, which the handlers take for the end of the stream,
      exactly when the first byte taken gets stuck on its own. */
  lemma WriteReturnsZero(x: Adapter, buf: Bytes)
    requires buf != []
    ensures Write(x, buf).0 == Ok(0) <==> OneByteStuck(x, |buf|)
  {
    hide Flush, WriteLoop, Drain, FirstTake;
    var (io, y) := Flush(x);
    FlushDrains(x);
    if io.Ok? {
      LoopReturnsZero(y.(finished := true), buf, Held(x));
    }
  }

  // ----- what a read does

  /** The plaintext of the records to come. */
  function Plaintext(rs: seq<Recv>): Bytes {
    if rs == [] then [] else (if rs[0].Records? then rs[0].plain else []) + Plaintext(rs[1..])
  }

  /** Everything the peer sends, from what the adapter holds on. */
  function Stream(x: Adapter): Bytes { x.tempBuf + x.plain + Plaintext(x.recv) }

  lemma GiveConserves(x: Adapter, size: nat)
    ensures var (io, data, y) := Give(x, size);
        data + Stream(y) == Stream(x) && io.Ok? && |data| == io.n <= size && y.recv == x.recv
    ensures size > 0 && x.tempBuf != [] ==> Give(x, size).0.n > 0
  {
    var (io, data, y) := Give(x, size);
    assert x.tempBuf == data + y.tempBuf;
  }

  /** A read loses nothing and reorders nothing: what it delivers, what the adapter
      keeps and what is still to come are the stream. */
  lemma {:induction false} ReadConserves(x: Adapter, size: nat)
    ensures var (io, data, y) := Read(x, size);
      && data + Stream(y) == Stream(x) && (if io.Ok? then |data| == io.n <= size else data == [])
      && |y.recv| <= |x.recv|
    decreases |x.recv|
  {
    hide Stream, Give, SendOnce, Flush;
    GiveConserves(x, size);
    assert forall a: Adapter :: [] + Stream(a) == Stream(a);
    if |x.tempBuf| > size {
    } else if x.recv != [] && x.recv[0].Records? {
      RecordsConserve(x, size);
    } else {
      var y := if x.recv == [] then x else x.(recv := x.recv[1..]);
      DropsEvent(x, y);
      var (io, z) := SendOnce(y);
      SameStream(y, z);
      GiveConserves(z, size);
    }
  }

  lemma DropsEvent(x: Adapter, y: Adapter)
    requires x.recv == [] || !x.recv[0].Records?
    requires y == if x.recv == [] then x else x.(recv := x.recv[1..])
    ensures Stream(x) == Stream(y)
  {
  }

  lemma {:induction false} RecordsConserve(x: Adapter, size: nat)
    requires |x.tempBuf| <= size && x.recv != [] && x.recv[0].Records?
    ensures var (io, data, y) := Read(x, size);
      && data + Stream(y) == Stream(x) && (if io.Ok? then |data| == io.n <= size else data == [])
      && |y.recv| <= |x.recv|
    decreases |x.recv|, 0
  {
    hide Flush, SendOnce, Give, Stream;
    var r := x.recv[0];
    var z := x.(recv := x.recv[1..], plain := x.plain + r.plain, pending := x.pending + r.reply);
    SameStream(x, z);
    var (io, h) := if z.handshakeDone then (Ok(0), z) else Flush(z.(handshakeDone := true));
    SameStream(z, h);
    var d := h.(tempBuf := h.tempBuf + h.plain, plain := []);
    SameStream(h, d);
    GiveConserves(d, size);
    ReadConserves(d, size);
    var (last, e) := SendOnce(d);
    SameStream(d, e);
    assert forall a: Adapter :: [] + Stream(a) == Stream(a);
  }

  lemma SameStream(x: Adapter, y: Adapter)
    ensures x.tempBuf == y.tempBuf && x.plain == y.plain && x.recv == y.recv ==> Stream(x) == Stream(y)
    ensures y.tempBuf == x.tempBuf + x.plain && y.plain == [] && x.recv == y.recv ==> Stream(x) == Stream(y)
    ensures
      && x.recv != [] && x.recv[0].Records? && y.recv == x.recv[1..] && y.tempBuf == x.tempBuf
      && y.plain == x.plain + x.recv[0].plain
      ==> Stream(x) == Stream(y)
  {
  }

  /** Reads one after the other, whatever came of each. */
  function ReadAll(x: Adapter, sizes: seq<nat>): (Bytes, Adapter)
    decreases |sizes|
  {
    if sizes == [] then ([], x) else
    var (io, data, y) := Read(x, sizes[0]);
    var (rest, z) := ReadAll(y, sizes[1..]);
    (data + rest, z)
  }

  /** Over any reads with any buffer sizes the caller gets the stream from its
      start, and what it has not got yet is still held or to come. */
  lemma {:induction false} ReadsInOrder(x: Adapter, sizes: seq<nat>)
    ensures var (data, y) := ReadAll(x, sizes); data + Stream(y) == Stream(x)
    decreases |sizes|
  {
    hide Read, Stream;
    if sizes == [] {
      assert [] + Stream(x) == Stream(x);
    } else {
      ReadConserves(x, sizes[0]);
      var (io, data, y) := Read(x, sizes[0]);
      ReadsInOrder(y, sizes[1..]);
      var (rest, z) := ReadAll(y, sizes[1..]);
      assert data + (rest + Stream(z)) == data + rest + Stream(z);
    }
  }

  predicate Holds(x: Adapter) { x.tempBuf != [] || x.plain != [] }

  /** The first thing a read meets makes it report that it would block while data
      is held: TLS output that the socket does not take, or plaintext that an
      earlier failed handshake write left in the connection. */
  predicate Stalls(x: Adapter, size: nat) {
    && |x.tempBuf| <= size
    && var y := if x.recv == [] then x else x.(recv := x.recv[1..]);
       match if x.recv == [] then RecvBlocked else x.recv[0]
       case RecvBlocked =>
         if y.pending > 0 && !WriteTls(y).0.Ok? then WriteTls(y).0.WouldBlock? && Holds(x)
         else x.tempBuf == [] && x.plain != []
       case Records(plain, reply, valid, readerFails, wantsMore) =>
         && valid && !x.handshakeDone && (Holds(x) || plain != [])
         && Flush(y.(handshakeDone := true, plain := y.plain + plain, pending := y.pending + reply)).0.WouldBlock?
       case _ => false
  }

  /** A read reports that it would block while data is held exactly when it stalls
      at the first thing it meets; once the handshake output is out and nothing is
      waiting to be sent it never does. */
  lemma {:induction false} BlocksHolding(x: Adapter, size: nat)
    requires size > 0
    ensures var (io, data, y) := Read(x, size); io.WouldBlock? && Holds(y) <==> Stalls(x, size)
    decreases |x.recv|
  {
    hide WriteTls, Flush;
    if |x.tempBuf| <= size && x.recv != [] && x.recv[0].Records? {
      RecordsBlock(x, size);
    }
  }

  lemma {:induction false} RecordsBlock(x: Adapter, size: nat)
    requires size > 0 && |x.tempBuf| <= size && x.recv != [] && x.recv[0].Records?
    ensures var (io, data, y) := Read(x, size); io.WouldBlock? && Holds(y) <==> Stalls(x, size)
    decreases |x.recv|, 0
  {
    hide WriteTls, Flush;
    var r := x.recv[0];
    var z := x.(recv := x.recv[1..], plain := x.plain + r.plain, pending := x.pending + r.reply);
    var (io, h) := if z.handshakeDone then (Ok(0), z) else Flush(z.(handshakeDone := true));
    var d := h.(tempBuf := h.tempBuf + h.plain, plain := []);
    if r.valid && io.Ok? && !r.readerFails && d.tempBuf == [] && r.wantsMore {
      BlocksHolding(d, size);
    }
  }

  /** Held data waits for a socket that takes no TLS output, although nothing has to be sent for it. */
  lemma BlockedWhileHolding()
    ensures var x := Adapter([7], true, true, [], 1, [], [RecvBlocked], [SendBlocked], []);
      Stalls(x, 8) && Read(x, 8).0 == WouldBlock && Read(x, 8).2.tempBuf == [7]
  {
    var recv, send := [RecvBlocked], [SendBlocked];
    assert recv[1..] == [] && send[1..] == [];
  }

  /** Held data is not delivered when the peer has closed its side. */
  lemma EndedWhileHolding()
    ensures var x := Adapter([7], true, true, [], 0, [], [RecvClosed], [], []);
      Read(x, 8).0 == Ok(0) && Read(x, 8).1 == [] && Read(x, 8).2.tempBuf == [7]
  {
  }

  /** A read returns 0, which the handlers take for the end of the stream, while
      data is held exactly when the peer has closed its side by then. */
  lemma {:induction false} EndsHolding(x: Adapter, size: nat)
    requires size > 0
    ensures var (io, data, y) := Read(x, size);
      io == Ok(0) && Holds(y) <==> |x.tempBuf| <= size && Holds(x) && x.recv != [] && x.recv[0].RecvClosed?
    decreases |x.recv|
  {
    hide SendOnce, Flush;
    if |x.tempBuf| <= size && x.recv != [] && x.recv[0].Records? {
      var r := x.recv[0];
      var z := x.(recv := x.recv[1..], plain := x.plain + r.plain, pending := x.pending + r.reply);
      var (io, h) := if z.handshakeDone then (Ok(0), z) else Flush(z.(handshakeDone := true));
      var d := h.(tempBuf := h.tempBuf + h.plain, plain := []);
      if r.valid && io.Ok? && !r.readerFails && d.tempBuf == [] && r.wantsMore {
        EndsHolding(d, size);
      }
    }
  }

  // ----- what a read reports, from the schedule

  /** `reply` more bytes to send, and before the end of the handshake all of them
      out: what the socket makes of that, and what is then pending. */
  function Greets(x: Adapter, reply: nat): (Io, nat, seq<Send>) {
    if x.handshakeDone then (Ok(0), x.pending + reply, x.send)
    else var (io, send) := Drain(x.pending + reply, x.send); (io, 0, send)
  }

  /** The socket's answer when there is something to send. */
  function Sends(pending: nat, send: seq<Send>): Io {
    if pending == 0 then Ok(0) else if send == [] || send[0].SendBlocked? then WouldBlock
    else if send[0].SendBroken? then Failed else Ok(0)
  }

  /** Nothing is held, and the first records bring nothing. */
  predicate Dry(x: Adapter) {
    && x.tempBuf == x.plain == [] && x.recv != [] && x.recv[0].Records? && x.recv[0].plain == []
    && x.recv[0].valid && !x.recv[0].readerFails && Greets(x, x.recv[0].reply).0.Ok?
  }

  /** After such records. */
  function Dried(x: Adapter): Adapter
    requires Dry(x)
  {
    var (_, pending, send) := Greets(x, x.recv[0].reply);
    x.(recv := x.recv[1..], handshakeDone := true, pending := pending, send := send)
  }

  /** The peer's end comes first, or records that bring nothing when no more is wanted. */
  predicate Stops(x: Adapter)
    decreases |x.recv|
  {
    || (x.recv != [] && x.recv[0].RecvClosed?)
    || (Dry(x) && if x.recv[0].wantsMore then Stops(Dried(x)) else Sends(Dried(x).pending, Dried(x).send).Ok?)
  }

  /** The network has nothing yet and nothing is held, or TLS output is stuck. */
  predicate Waits(x: Adapter)
    decreases |x.recv|
  {
    if x.recv == [] || x.recv[0].RecvBlocked? then
      var io := Sends(x.pending, x.send); io.WouldBlock? || (io.Ok? && x.tempBuf == [])
    else if !x.recv[0].Records? || !x.recv[0].valid then false
    else if !Greets(x, x.recv[0].reply).0.Ok? then Greets(x, x.recv[0].reply).0.WouldBlock?
    else Dry(x) && if x.recv[0].wantsMore then Waits(Dried(x)) else Sends(Dried(x).pending, Dried(x).send).WouldBlock?
  }

  lemma SendsOnce(x: Adapter)
    ensures var (io, y) := SendOnce(x);
      (io.Ok? <==> Sends(x.pending, x.send).Ok?) && (io.WouldBlock? <==> Sends(x.pending, x.send).WouldBlock?)
  {
  }

  /** The part of a read that the first records decide. */
  lemma ReadsRecords(x: Adapter, size: nat)
    requires size > 0 && |x.tempBuf| <= size && x.recv != [] && x.recv[0].Records?
    ensures var (r, io) := (x.recv[0], Read(x, size).0);
      && (!r.valid ==> io.Failed?)
      && (r.valid && !Greets(x, r.reply).0.Ok? ==> io == Greets(x, r.reply).0)
      && (r.valid && Greets(x, r.reply).0.Ok? && r.readerFails ==> io.Failed?)
      && (r.valid && Greets(x, r.reply).0.Ok? && !r.readerFails && !Dry(x) ==> io.Ok? && io.n > 0)
      && (Dry(x) ==> if r.wantsMore then Read(x, size) == Read(Dried(x), size) else
                     var sent := Sends(Dried(x).pending, Dried(x).send);
                     if sent.Ok? then io == Ok(0) else io == sent)
  {
    hide Drain, Flush, SendOnce;
    var r := x.recv[0];
    var z := x.(recv := x.recv[1..], handshakeDone := true, plain := x.plain + r.plain, pending := x.pending + r.reply);
    FlushDrains(z);
    var h := if x.handshakeDone then z else Flush(z).1;
    var d := h.(tempBuf := h.tempBuf + h.plain, plain := []);
    SendsOnce(d);
    if Dry(x) {
      assert d == Dried(x);
    }
  }

  /** A read returns 0 exactly when an end, or nothing with nothing more to come,
      is what it meets first; it reports that it would block exactly when it waits.
      This holds whether or not data is held. */
  lemma {:induction false} ReadReports(x: Adapter, size: nat)
    requires size > 0
    ensures Read(x, size).0 == Ok(0) <==> |x.tempBuf| <= size && Stops(x)
    ensures Read(x, size).0.WouldBlock? <==> |x.tempBuf| <= size && Waits(x)
    decreases |x.recv|
  {
    hide Greets, Sends, SendOnce;
    if |x.tempBuf| <= size {
      if x.recv != [] && x.recv[0].Records? {
        RecordsReport(x, size);
      } else {
        SendsOnce(if x.recv == [] then x else x.(recv := x.recv[1..]));
      }
    }
  }

  lemma {:induction false} RecordsReport(x: Adapter, size: nat)
    requires size > 0 && |x.tempBuf| <= size && x.recv != [] && x.recv[0].Records?
    ensures Read(x, size).0 == Ok(0) <==> Stops(x)
    ensures Read(x, size).0.WouldBlock? <==> Waits(x)
    decreases |x.recv|, 0
  {
    hide Greets, Sends, Read;
    ReadsRecords(x, size);
    if Dry(x) && x.recv[0].wantsMore {
      ReadReports(Dried(x), size);
    }
  }

  /** With nothing held, nothing to send and nothing from the network a read waits:
      it does not report an end. */
  lemma QuietSocketWaits(x: Adapter, size: nat)
    requires size > 0 && x.tempBuf == [] && x.pending == 0 && (x.recv == [] || x.recv[0].RecvBlocked?)
    ensures Read(x, size).0 == WouldBlock
  {
    ReadReports(x, size);
  }

  /** A read that gives bytes gives as many as fit, or all it has taken over; after
      records nothing stays in the connection. */
  lemma {:induction false} ReadGivesAll(x: Adapter, size: nat)
    ensures var (io, data, y) := Read(x, size);
      && (io.Ok? && io.n > 0 ==> io.n == size || y.tempBuf == [])
      && (io.Ok? && |x.tempBuf| <= size && x.recv != [] && x.recv[0].Records? ==> y.plain == [])
    decreases |x.recv|
  {
    hide SendOnce, Flush, Give;
    if |x.tempBuf| > size {
      GivesFit(x, size);
    } else if x.recv != [] && x.recv[0].Records? {
      var d := AfterRecords(x);
      GivesFit(d, size);
      ReadGivesAll(d, size);
    } else {
      IdleGives(if x.recv == [] then x else x.(recv := x.recv[1..]), size);
    }
  }

  lemma GivesFit(x: Adapter, size: nat)
    ensures var (io, data, y) := Give(x, size); io.Ok? && (io.n == size || y.tempBuf == []) && y.plain == x.plain
  {
  }

  lemma IdleGives(x: Adapter, size: nat)
    ensures var (io, data, y) := ReadIdle(x, size); io.Ok? && io.n > 0 ==> io.n == size || y.tempBuf == []
  {
    hide SendOnce;
  }

  /** The adapter once the first records are in the spill buffer. */
  function AfterRecords(x: Adapter): Adapter
    requires x.recv != [] && x.recv[0].Records?
  {
    var r := x.recv[0];
    var z := x.(recv := x.recv[1..], plain := x.plain + r.plain, pending := x.pending + r.reply);
    var h := if z.handshakeDone then z else Flush(z.(handshakeDone := true)).1;
    h.(tempBuf := h.tempBuf + h.plain, plain := [])
  }

  /** The handshake counts as done after the first valid records, whatever became of
      its output. */
  lemma {:induction false} HandshakeEnds(x: Adapter, size: nat)
    ensures Read(x, size).2.handshakeDone <==>
      x.handshakeDone || (|x.tempBuf| <= size && x.recv != [] && x.recv[0].Records? && x.recv[0].valid)
    decreases |x.recv|
  {
    hide SendOnce, Flush;
    if |x.tempBuf| <= size && x.recv != [] && x.recv[0].Records? {
      var d := AfterRecords(x);
      if x.recv[0].wantsMore && |d.recv| < |x.recv| {
        HandshakeEnds(d, size);
      }
    }
  }

  /** A read on an idle network puts out one piece of waiting TLS output. */
  lemma IdleSends(x: Adapter, size: nat, n: nat)
    requires |x.tempBuf| <= size && (x.recv == [] || x.recv[0].RecvBlocked?) && x.pending > 0
    requires x.send != [] && x.send[0] == Sent(n)
    ensures var y := Read(x, size).2; y.send == x.send[1..] && y.pending == if n <= x.pending then x.pending - n else 0
  {
  }
}
