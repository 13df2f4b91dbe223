/** The mio server's connection state and the effect of one successful read or
    write of its handlers. A handler call is `Enter` followed by such steps, until
    the socket would block or the phase changes. */
module ServerMachine {
  import opened Text
  import opened Wire
  import opened Commands
  import opened Chunks
  import opened TimeResults

  datatype Phase =
    | SendVersion | SendAcceptToken | ReceiveToken | SendOk | SendChunkSizes
    | CommandSend | CommandReceive
    | ChunksSend | ChunksSendLast | ChunksReceiveOk | ChunksSendTime
    | PongSend | PingReceiveOk | PingSendTime
    | TimeSendChunk | TimeSendLast | TimeReceiveOk | TimeSendTime
    | NoResultSendOk | NoResultReceive | NoResultSendTime
    | PutSendOk | PutReceive | PutSendBytes | PutSendTime
    | ResultSendOk | ResultReceive | ResultSend
    | Closed  // a handler returned an error: the worker drops the connection

  datatype Interest = Readable | Writable | Both

  datatype Server = Server(
    phase: Phase, interest: Interest,
    readBuffer: Bytes, readPos: nat, writePos: nat,
    numChunks: nat, chunkSize: nat, processed: nat,
    clock: Option<nat>, timeNs: Option<nat>, duration: nat,
    chunkBuffer: Bytes, totalBytes: nat, received: seq<(nat, nat)>,
    chunk: Option<Bytes>, terminalChunk: Option<Bytes>,
    isLast: bool,  // local of handle_get_time_send_chunk, fixed when it is called
    inCall: bool)  // a handler call for this phase has begun

  predicate ReadPhase(p: Phase) {
    (p.ReceiveToken? || p.CommandReceive? || p.ChunksReceiveOk? || p.PingReceiveOk? || p.TimeReceiveOk?
        || p.NoResultReceive? || p.PutReceive? || p.ResultReceive?)
  }

  predicate WritePhase(p: Phase) { !ReadPhase(p) && p != Closed }

  /** These read into the start of the buffer, or rewrite the message from its
      start: a message they handle has to travel in one piece. */
  predicate Atomic(p: Phase) {
    (p.ChunksReceiveOk? || p.PingReceiveOk? || p.TimeReceiveOk? || p.ChunksSendTime?
      || p.TimeSendTime? || p.ResultSendOk?)
  }

  predicate NeedsClock(p: Phase) {
    (p.ChunksSendLast? || p.ChunksReceiveOk? || p.PingReceiveOk? || p.TimeSendLast? || p.TimeReceiveOk?
        || p.NoResultReceive? || p.PutReceive? || p.PutSendBytes? || p.ResultReceive? || p.ResultSend?)
  }

  /** A call in these phases starts the clock when it is not running. */
  predicate SetsClock(p: Phase) { p.PongSend? || p.PutSendOk? || p.ResultSendOk? || p.ChunksSend? || p.TimeSendChunk? }

  predicate NeedsTime(p: Phase) {
    (p.ChunksSendTime? || p.PingSendTime? || p.TimeSendTime? || p.NoResultSendTime?
      || p.PutSendBytes? || p.PutSendTime?)
  }

  /** `clock.unwrap().elapsed()`; the phases that use it are reached with a clock. */
  function Elapsed(s: Server, now: nat): (t: nat)
    ensures t <= now
  {
    if s.clock.Some? && s.clock.value <= now then now - s.clock.value else 0
  }

  function TimeOf(s: Server): nat { if s.timeNs.Some? then s.timeNs.value else 0 }

  function TableChunk(m: map<nat, Bytes>, size: nat): Bytes { if size in m then m[size] else [] }

  /** The chunk GETTIME sends: from the table, else the one cached on the connection. */
  function TimeChunk(t: Tables, s: Server): Bytes {
    if s.chunkSize in t.zero then t.zero[s.chunkSize] else if s.chunk.Some? then s.chunk.value else []
  }

  function TimeLastChunk(t: Tables, s: Server): Bytes {
    if s.chunkSize in t.last then t.last[s.chunkSize] else if s.terminalChunk.Some? then s.terminalChunk.value else []
  }

  /** The chunk buffer with a text written over its start, grown when too short. */
  function Overlay(buffer: Bytes, text: Bytes): (r: Bytes)
    ensures |r| >= |text| && |r| >= |buffer|
  {
    if |buffer| < |text| then text else text + buffer[|text|..]
  }

  /** The whole message of a write phase. */
  function Message(t: Tables, s: Server): Bytes {
    match s.phase
    case SendVersion => VERSION
    case SendAcceptToken => ACCEPT_TOKEN
    case SendOk | NoResultSendOk | PutSendOk | ResultSendOk => OK
    case SendChunkSizes => CHUNK_SIZES
    case CommandSend => ACCEPT
    case ChunksSend => TableChunk(t.zero, s.chunkSize)
    case ChunksSendLast => TableChunk(t.last, s.chunkSize)
    case PongSend => PONG
    case TimeSendChunk => TimeChunk(t, s)
    case TimeSendLast => TimeLastChunk(t, s)
    case ChunksSendTime | PingSendTime | TimeSendTime | NoResultSendTime | PutSendTime => Time(TimeOf(s))
    case PutSendBytes => TimeBytes(TimeOf(s), s.totalBytes)
    case ResultSend => Overlay(s.chunkBuffer, TimeResult(s.received))
    case _ => []
  }

  /** What the handler of a write phase offers to the socket. */
  function Offer(t: Tables, s: Server): Bytes
    requires Rewrites(s.phase) || s.writePos <= |Message(t, s)|
  {
    if Rewrites(s.phase) then Message(t, s) else Message(t, s)[s.writePos..]
  }

  /** These handlers offer the whole message every time. */
  predicate Rewrites(p: Phase) { p.ChunksSendTime? || p.TimeSendTime? }

  function Goto(s: Server, p: Phase, i: Interest): Server {
    s.(phase := p, interest := i, inCall := false)
  }

  function WithClock(s: Server, now: nat): Server {
    if s.clock.None? then s.(clock := Some(now)) else s
  }

  /** What a handler does before its loop. */
  function Enter(t: Tables, s: Server, now: nat): Server {
    match s.phase
    case PongSend | PutSendOk => WithClock(s, now).(inCall := true)
    case ResultSendOk => (if s.clock.None? then WithClock(s.(writePos := 0), now) else s).(inCall := true)
    case ChunksSend =>
      var r := if s.clock.None? then WithClock(s.(writePos := 0), now) else s;
      if s.processed + 1 == s.numChunks then Goto(r, ChunksSendLast, Writable) else r.(inCall := true)
    case TimeSendChunk =>
      var r := WithClock(s, now);
      r.(inCall := true, isLast := Elapsed(r, now) > s.duration * 1000000000,
         chunk := if s.chunkSize in t.zero || s.chunk.Some? then s.chunk else Fresh(t, s.chunkSize, false))
    case TimeSendLast =>
      s.(inCall := true,
         terminalChunk := if s.chunkSize in t.last
             || s.terminalChunk.Some? then s.terminalChunk else Fresh(t, s.chunkSize, true))
    case ChunksSendTime | TimeSendTime => s.(clock := None, inCall := true)
    case ResultSend =>
      s.(inCall := true, chunkBuffer := if s.writePos == 0 then Overlay(s.chunkBuffer, TimeResult(s.received))
          else s.chunkBuffer)
    case _ => s.(inCall := true)
  }

  function Fresh(t: Tables, size: nat, terminal: bool): Option<Bytes> {
    if 1 <= size && MAX_CHUNK in t.zero && size <= |t.zero[MAX_CHUNK]| then Some(GetChunk(t, size, terminal)) else None
  }

  function Zeros(n: nat): (z: Bytes) ensures |z| == n { seq(n, _ => 0) }

  /** The last byte of a message went out. */
  function Finish(s: Server, now: nat): Server { Finished(s.(writePos := 0), now) }

  function Finished(s: Server, now: nat): Server {
    match s.phase
    case SendVersion => Goto(s.(readPos := 0), SendAcceptToken, Writable)
    case SendAcceptToken => Goto(s.(readPos := 0), ReceiveToken, Readable)
    case SendOk => Goto(s, SendChunkSizes, Writable)
    case SendChunkSizes => Goto(s, CommandSend, Writable)
    case CommandSend => Goto(s.(readPos := 0), CommandReceive, Readable)
    case ChunksSend =>
      var r := s.(processed := s.processed + 1);
      if r.processed + 1 == s.numChunks then Goto(r, ChunksSendLast, Writable) else r
    case ChunksSendLast => Goto(s.(processed := 0), ChunksReceiveOk, Readable)
    case PongSend => Goto(s, PingReceiveOk, Readable)
    case TimeSendChunk => if s.isLast then Goto(s.(readPos := 0), TimeSendLast, Both) else s
    case TimeSendLast => Goto(s.(readPos := 0), TimeReceiveOk, Both)
    case ChunksSendTime | TimeSendTime => Goto(s, CommandSend, Writable)
    case PingSendTime | NoResultSendTime | PutSendTime => Goto(s.(readPos := 0), CommandSend, Writable)
    case NoResultSendOk => Goto(s.(readPos := 0, chunkBuffer := Zeros(s.chunkSize), clock := Some(now)),
        NoResultReceive, Readable)
    case PutSendOk => Goto(s.(readPos := 0, chunkBuffer := Zeros(s.chunkSize)), PutReceive, Readable)
    case PutSendBytes =>
      if 0 < s.readPos <= |s.chunkBuffer| && s.chunkBuffer[s.readPos - 1] == 255 then Goto(s, PutSendTime, Writable)
      else Goto(s.(readPos := 0), PutReceive, Readable)
    case ResultSendOk => Goto(s.(readPos := 0, chunkBuffer := Zeros(s.chunkSize), clock := Some(now)), ResultReceive,
        Readable)
    case ResultSend =>
      var total := s.totalBytes + |s.chunkBuffer|;
      Goto(s.(readPos := 0, totalBytes := total, received := s.received + [(Elapsed(s, now), total)]), CommandSend,
          Writable)
    case _ => s
  }

  /** The socket took `n` bytes of the offer. */
  function Wrote(t: Tables, s: Server, n: nat, now: nat): Server {
    if s.writePos + n == |Message(t, s)| then Finish(s, now) else s.(writePos := s.writePos + n)
  }

  /** The branches of the command parser as assignments. */
  function Apply(s0: Server, c: Command): Server {
    var s := s0.(readPos := 0);
    match c
    case GetChunks(n, size) => Goto(s.(numChunks := n, chunkSize := size), ChunksSend, Writable)
    case Ping => Goto(s, PongSend, Writable)
    case GetTime(d, size) => Goto(s.(duration := d, chunkSize := size), TimeSendChunk, Writable)
    case PutNoResult(size) => Goto(s.(chunkSize := if size.Some? then size.value else s.chunkSize), NoResultSendOk,
        Writable)
    case PutTimeResult(size) => Goto(s.(chunkSize := size), ResultSendOk, Writable)
    case Put(size) => Goto(s.(chunkSize := size), PutSendOk, Writable)
    case Ignored => s0.(inCall := false)
    case Invalid | Panics => Goto(s0, Closed, s0.interest)
  }

  /** Room the handler of a read phase gives to `read`. */
  function Room(s: Server): nat {
    if (s.phase.NoResultReceive? || s.phase.PutReceive? || s.phase.ResultReceive?) then
      if s.readPos <= |s.chunkBuffer| then |s.chunkBuffer| - s.readPos else 0
    else if Atomic(s.phase) then |s.readBuffer|
    else if s.readPos <= |s.readBuffer| then |s.readBuffer| - s.readPos else 0
  }

  /** `read` returned `data`. */
  function Got(s: Server, data: Bytes, now: nat): Server
    requires 0 < |data| <= Room(s)
  {
    match s.phase
    case ReceiveToken =>
      var r := GotText(s, data);
      if data[|data| - 1] == NL then Goto(r.(readPos := 0), SendOk, Writable) else r
    case CommandReceive =>
      var r := GotText(s, data);
      if data[|data| - 1] == NL then Apply(r, ParseCommand(r.readBuffer[..r.readPos])) else r
    case ChunksReceiveOk =>
      var r := GotFront(s, data);
      if IsOk(r) then Goto(r.(readPos := 0, timeNs := Some(Elapsed(s, now))), ChunksSendTime, Writable) else r
    case TimeReceiveOk =>
      var r := GotFront(s, data);
      if IsOk(r) then Goto(r.(readPos := 0, timeNs := Some(Elapsed(s, now))), TimeSendTime, Writable) else r
    case PingReceiveOk =>
      var r := GotFront(s, data);
      if OK <= r.readBuffer
          then Goto(r.(readPos := 0, timeNs := Some(Elapsed(s, now)), clock := None), PingSendTime, Writable) else r
    case NoResultReceive => GotNoResult(GotChunk(s, data), now)
    case PutReceive => GotPut(GotChunk(s, data).(totalBytes := s.totalBytes + |data|), now)
    case ResultReceive => GotResult(GotChunk(s, data).(totalBytes := s.totalBytes + |data|), now)
    case _ => s
  }

  function GotText(s: Server, data: Bytes): Server
    requires s.readPos + |data| <= |s.readBuffer|
  {
    s.(readBuffer := Store(s.readBuffer, s.readPos, data), readPos := s.readPos + |data|)
  }

  /** The OK readers store at offset 0 whatever was read before. */
  function GotFront(s: Server, data: Bytes): Server
    requires |data| <= |s.readBuffer|
  {
    s.(readBuffer := Store(s.readBuffer, 0, data), readPos := s.readPos + |data|)
  }

  predicate IsOk(s: Server) { s.readPos <= |s.readBuffer| && s.readBuffer[..s.readPos] == OK }

  function GotChunk(s: Server, data: Bytes): Server
    requires s.readPos + |data| <= |s.chunkBuffer|
  {
    s.(chunkBuffer := Store(s.chunkBuffer, s.readPos, data), readPos := s.readPos + |data|)
  }

  function Boundary(s: Server): Byte { if 0 < s.readPos <= |s.chunkBuffer| then s.chunkBuffer[s.readPos - 1] else 0 }

  function GotNoResult(s: Server, now: nat): Server {
    if s.readPos != s.chunkSize then s
    else if Boundary(s) == 255 then Goto(s.(timeNs := Some(Elapsed(s, now)), readPos := 0), NoResultSendTime, Writable)
    else if Boundary(s) != 0 then Goto(s, Closed, s.interest)
    else s.(readPos := 0)
  }

  function GotPut(s: Server, now: nat): Server {
    if s.readPos != s.chunkSize then s else Goto(s.(timeNs := Some(Elapsed(s, now))), PutSendBytes, Writable)
  }

  function GotResult(s0: Server, now: nat): Server {
    if s0.readPos != s0.chunkSize then s0
    else
      var s := s0.(received := s0.received + [(Elapsed(s0, now), s0.totalBytes)]);
      if Boundary(s) == 255 then Goto(s.(readPos := 0, writePos := 0), ResultSend, Writable)
      else if Boundary(s) != 0 then Goto(s, Closed, s.interest)
      else s.(readPos := 0)
  }

  /** The state a worker gives a connection after the HTTP upgrade. */
  function NewConnection(): Server {
    Server(SendVersion, Writable, Zeros(8192), 0, 0, 0, 0, 0, None, None, 0, Zeros(MIN_CHUNK), 0, [], None, None,
        false, false)
  }
}
