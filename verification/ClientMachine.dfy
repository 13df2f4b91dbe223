/** The client's measurement state and the effect of one successful read or write
    of its handlers. */
module ClientMachine {
  import opened Text
  import opened Wire
  import opened Chunks
  import opened TimeResults
  import opened Pings
  import opened Ramp
  import Server = ServerMachine

  datatype Phase =
    | ReceiveGreeting | SendToken | ReceiveResponse | GreetingCompleted
    | ChunksSendCommand | ChunksReceiveChunk | ChunksSendOk | ChunksReceiveTime | ChunksCompleted
    | PingSendPing | PingReceivePong | PingSendOk | PingReceiveTime | PingCompleted
    | TimeSendCommand | TimeReceiveChunk | TimeSendOk | TimeReceiveTime | TimeCompleted
    | PerfSendCommand | PerfReceiveOk | PerfSendChunks | PerfSendLast | PerfReceiveTime | PerfCompleted

  type Interest = Server.Interest

  const TEST_SECONDS: nat := 10
  const TEST_NS: nat := 10_000_000_000

  datatype Client = Client(
    phase: Phase, interest: Interest, token: Word,
    readBuffer: Bytes, readPos: nat, writePos: nat,
    chunkSize: nat, totalChunks: nat, chunkBuffer: Bytes,
    phaseStart: Option<nat>, bytesReceived: nat, bytesSent: nat,
    downloads: seq<Sample>, uploads: seq<Sample>,
    pingTimes: seq<nat>, pingMedian: Option<nat>, downloadTime: Option<nat>,
    resultBuffer: Bytes, uploadResult: Option<Sample>)

  predicate DonePhase(p: Phase) {
    (p.GreetingCompleted? || p.ChunksCompleted? || p.PingCompleted? || p.TimeCompleted? || p.PerfCompleted?)
  }

  predicate ReadPhase(p: Phase) {
    (p.ReceiveGreeting? || p.ReceiveResponse? || p.ChunksReceiveChunk? || p.ChunksReceiveTime? || p.PingReceivePong?
        || p.PingReceiveTime? || p.TimeReceiveChunk? || p.TimeReceiveTime? || p.PerfReceiveOk? || p.PerfReceiveTime?)
  }

  predicate WritePhase(p: Phase) { !ReadPhase(p) && !DonePhase(p) }

  /** Messages whose handler cannot resume them, or whose reader cannot. */
  predicate Atomic(p: Phase) {
    (p.SendToken? || p.ChunksSendCommand? || p.ChunksSendOk? || p.PingSendOk? || p.TimeSendOk? || p.PerfReceiveOk?)
  }

  function Elapsed(c: Client, now: nat): nat {
    if c.phaseStart.Some? && c.phaseStart.value <= now then now - c.phaseStart.value else 0
  }

  function Message(t: Tables, c: Client): Bytes {
    match c.phase
    case SendToken => TokenLine(c.token)
    case ChunksSendCommand => ChunksLine(c.totalChunks, c.chunkSize)
    case ChunksSendOk | PingSendOk | TimeSendOk => OK
    case PingSendPing => PING
    case TimeSendCommand => TimeLine(TEST_SECONDS, c.chunkSize)
    case PerfSendCommand => ResultLine(c.chunkSize)
    case PerfSendChunks => Server.TableChunk(t.zero, c.chunkSize)
    case PerfSendLast => Server.TableChunk(t.last, c.chunkSize)
    case _ => []
  }

  function Offer(t: Tables, c: Client): Bytes
    requires c.writePos <= |Message(t, c)|
  {
    Message(t, c)[c.writePos..]
  }

  function Goto(c: Client, p: Phase, i: Interest): Client { c.(phase := p, interest := i) }

  function Resize(b: Bytes, n: nat): (r: Bytes)
    ensures |r| == n
  {
    if n <= |b| then b[..n] else b + Server.Zeros(n - |b|)
  }

  /** What a handler does before its loop. */
  function Enter(c: Client, now: nat): Client {
    if c.phase == PerfSendChunks && c.phaseStart.None? then c.(writePos := 0, phaseStart := Some(now)) else c
  }

  function Finish(c0: Client, now: nat): Client {
    var c := c0.(writePos := 0);
    match c.phase
    case SendToken => Goto(c.(readPos := 0), ReceiveResponse, Server.Readable)
    case ChunksSendCommand => Goto(c.(readPos := 0, chunkBuffer := Resize(c.chunkBuffer, c.chunkSize)),
        ChunksReceiveChunk, Server.Readable)
    case ChunksSendOk => Goto(c, ChunksReceiveTime, Server.Readable)
    case PingSendPing =>
      Goto(c.(readPos := 0, phaseStart := if c.phaseStart.None? then Some(now) else c.phaseStart), PingReceivePong,
          Server.Readable)
    case PingSendOk => Goto(c.(readPos := 0), PingReceiveTime, Server.Readable)
    case TimeSendCommand =>
      Goto(c.(phaseStart := Some(now), chunkBuffer := Resize(c.chunkBuffer, c.chunkSize)), TimeReceiveChunk,
          Server.Readable)
    case TimeSendOk => Goto(c.(readPos := 0), TimeReceiveTime, Server.Readable)
    case PerfSendCommand => Goto(c.(readPos := 0), PerfReceiveOk, Server.Readable)
    case PerfSendChunks => if Elapsed(c, now) >= TEST_NS then Goto(c, PerfSendLast, Server.Writable) else c
    case PerfSendLast => Goto(c0, PerfReceiveTime, Server.Readable)
    case _ => c
  }

  /** The socket took `n` bytes of the offer. */
  function Wrote(t: Tables, c0: Client, n: nat, now: nat): Client {
    var c := if (c0.phase.PerfSendChunks? || c0.phase.PerfSendLast?) then c0.(bytesSent := c0.bytesSent + n) else c0;
    var d := c.(writePos := c.writePos + n);
    if d.writePos == |Message(t, c0)| then Finish(d, now) else d
  }

  /** `parse_time_response`. */
  function ParseTime(text: Bytes): Option<nat> {
    var start := Find(text, B("TIME "));
    if start.None? then None else
    var end := Find(text[start.value..], [NL]);
    if end.None? || end.value < 5 then None
    else ParseU64(text[start.value + 5..start.value + end.value])
  }

  /** The second word as a number, as after GETTIME. */
  function SecondNumber(text: Bytes): Option<nat> {
    var words := Words(text);
    if |words| < 2 then None else ParseU64(words[1])
  }

  /** End of the part of a buffer that the handler of a read phase lets `read` fill. */
  function Top(c: Client): nat {
    match c.phase
    case ChunksReceiveChunk | TimeReceiveChunk => |c.chunkBuffer|
    case PingReceivePong => 5
    case PerfReceiveOk => 3
    case _ => |c.readBuffer|
  }

  function Room(c: Client): nat { if c.readPos <= Top(c) then Top(c) - c.readPos else 0 }

  /** `read` returned `data`. */
  function Got(c: Client, data: Bytes, now: nat): Client
    requires c.readPos <= Top(c) && |data| <= Room(c) && |c.readBuffer| >= 5
  {
    match c.phase
    case ChunksReceiveChunk => GotChunksChunk(GotChunk(c, data))
    case TimeReceiveChunk => GotTimeChunk(GotChunk(c, data), now)
    case PerfReceiveTime =>
      var d := GotText(c, data).(readPos := c.readPos);
      GotResult(d.(resultBuffer := c.resultBuffer + d.readBuffer[..|data|]))
    case PerfReceiveOk =>
      var d := GotText(c, data).(readPos := c.readPos);
      if |data| == 3 then Goto(d.(readPos := 0), PerfSendChunks, Server.Writable) else d
    case _ => GotReply(GotText(c, data), now)
  }

  function GotText(c: Client, data: Bytes): Client
    requires c.readPos + |data| <= |c.readBuffer|
  {
    c.(readBuffer := Store(c.readBuffer, c.readPos, data), readPos := c.readPos + |data|)
  }

  function GotChunk(c: Client, data: Bytes): Client
    requires c.readPos + |data| <= |c.chunkBuffer|
  {
    c.(chunkBuffer := Store(c.chunkBuffer, c.readPos, data), readPos := c.readPos + |data|)
  }

  function Boundary(c: Client): Byte { if 0 < c.readPos <= |c.chunkBuffer| then c.chunkBuffer[c.readPos - 1] else 1 }

  function GotChunksChunk(c: Client): Client {
    if c.readPos != c.chunkSize then c
    else if Boundary(c) == 0 then c.(readPos := 0)
    else if Boundary(c) == 255 then Goto(c.(readPos := 0), ChunksSendOk, Server.Writable)
    else c
  }

  function GotTimeChunk(c: Client, now: nat): Client {
    if c.readPos != c.chunkSize then c
    else
      var total := c.bytesReceived + c.chunkSize;
      var d := c.(bytesReceived := total, downloads := c.downloads + [(Elapsed(c, now), total)]);
      if Boundary(c) == 255 then Goto(d, TimeSendOk, Server.Writable) else d.(readPos := 0)
  }

  function GotResult(c: Client): Client {
    if !EndsWith(c.resultBuffer, [NL]) then c
    else
      var ps := ParseTimeResult(c.resultBuffer);
      Goto(c.(uploads := c.uploads + ps, uploadResult := if ps == [] then c.uploadResult else Some(ps[|ps| - 1]),
              readPos := 0, resultBuffer := []), PerfCompleted, Server.Writable)
  }

  /** The handlers that collect a text until it is complete. */
  function GotReply(c: Client, now: nat): Client
    requires c.readPos <= |c.readBuffer|
  {
    var text := c.readBuffer[..c.readPos];
    match c.phase
    case ReceiveGreeting => if EndsWith(text, ACCEPT_TOKEN) then Goto(c.(readPos := 0), SendToken, Server.Writable)
        else c
    case ReceiveResponse => if EndsWith(text, ACCEPT)
        then Goto(c.(readPos := 0), GreetingCompleted, Server.Writable) else c
    case PingReceivePong => if c.readPos == 5 then Goto(c.(readPos := 0), PingSendOk, Server.Writable) else c
    case ChunksReceiveTime =>
      if Contains(text, ACCEPT) && ParseTime(text).Some? then RoundDone(c, ParseTime(text).value) else c
    case PingReceiveTime =>
      if EndsWith(text, ACCEPT)
          && ParseTime(c.readBuffer).Some? then PingDone(c, ParseTime(c.readBuffer).value, now) else c
    case TimeReceiveTime =>
      if Contains(text, ACCEPT) && SecondNumber(text).Some? then
        Goto(c.(downloadTime := SecondNumber(text), phaseStart := None), TimeCompleted, Server.Writable)
      else c
    case _ => c
  }

  function RoundDone(c: Client, time: nat): Client {
    var d := c.(readPos := 0, writePos := 0);
    var r := Round(c.totalChunks, c.chunkSize);
    if Continues(r, time) then
      var s := Increase(r);
      Goto(d.(totalChunks := s.count, chunkSize := s.size,
              chunkBuffer := if c.totalChunks < MAX_COUNT then c.chunkBuffer else Resize(c.chunkBuffer, s.size)),
           ChunksSendCommand, Server.Writable)
    else Goto(d, ChunksCompleted, Server.Writable)
  }

  function PingDone(c: Client, time: nat, now: nat): Client {
    var d := c.(pingTimes := c.pingTimes + [time], readPos := 0);
    if Elapsed(c, now) < PING_DURATION_NS && |d.pingTimes| < MAX_PINGS then Goto(d, PingSendPing, Server.Writable)
    else Goto(d.(pingMedian := Some(Median(d.pingTimes))), PingCompleted, Server.Writable)
  }

  /** The `run_*` methods: `thread 0` pings between GETCHUNKS and GETTIME. */
  function Start(c: Client, now: nat): Client {
    var d := c.(phaseStart := Some(now));
    match c.phase
    case GreetingCompleted => Goto(d, ChunksSendCommand, Server.Writable)
    case ChunksCompleted => if c.token == 0 then Goto(d, PingSendPing, Server.Writable)
        else Goto(d, TimeSendCommand, Server.Writable)
    case PingCompleted => Goto(d, TimeSendCommand, Server.Writable)
    case TimeCompleted => Goto(d, PerfSendCommand, Server.Writable)
    case _ => c
  }

  /** A client that has sent its HTTP upgrade request. */
  function NewClient(token: Word): Client {
    Client(ReceiveGreeting, Server.Readable, token, Server.Zeros(8192), 0, 0, MIN_CHUNK, 1, [], Some(0), 0, 0,
           [], [], [], None, None, [], None)
  }
}
