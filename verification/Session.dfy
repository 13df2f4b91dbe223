/** Client, server and the two byte channels between them. Every message except
    those marked Atomic may be split at any byte. */
module Session {
  import opened Text
  import opened Wire
  import opened Chunks
  import opened TimeResults
  import opened Ramp
  import Server = ServerMachine
  import Client = ClientMachine

  datatype Config = Config(client: Tables, server: Tables, token: Word)

  /** Zero chunks sent in this transfer, those of them not yet taken in whole by
      the receiver, and the chunks it has taken in whole. */
  datatype Count = Count(emitted: nat, inTransit: nat, consumed: nat)

  datatype Sess = Sess(
    c: Client.Client, s: Server.Server,
    up: Bytes, down: Bytes,     // in flight to the server and to the client
    now: nat, k: Count,
    series: seq<Sample>,        // the server's series when it took the terminal chunk
    report: Bytes)              // what the client had of the server's answer when it parsed it

  datatype Label =
    | Tick(d: nat) | StartRun
    | ClientEnter | ClientWrite(n: nat) | ClientRead(n: nat)
    | ServerEnter | ServerWrite(n: nat) | ServerRead(n: nat)

  ghost predicate Initial(cfg: Config, x: Sess) {
    && ValidTables(cfg.client) && ValidTables(cfg.server)
    && x == Sess(Client.NewClient(cfg.token), Server.NewConnection(), [], UPGRADE, 0, Count(0, 0, 0), [], [])
  }

  // A read or write of n bytes. Atomic messages travel in one piece.

  predicate CanSend(t: Tables, c: Client.Client, n: nat) {
    && Client.WritePhase(c.phase) && c.writePos <= |Client.Message(t, c)| && 0 < n <= |Client.Offer(t, c)|
    && (Client.Atomic(c.phase) ==> n == |Client.Offer(t, c)|)
  }

  predicate CanTake(c: Client.Client, down: Bytes, n: nat) {
    && Client.ReadPhase(c.phase) && |c.readBuffer| >= 5 && 0 < n <= |down| && n <= Client.Room(c)
    && (Client.Atomic(c.phase) ==> n == |down|)
  }

  predicate CanWrite(t: Tables, s: Server.Server, n: nat) {
    && Server.WritePhase(s.phase) && s.writePos <= |Server.Message(t, s)| && 0 < n <= |Server.Offer(t, s)|
    && (Server.Atomic(s.phase) ==> n == |Server.Offer(t, s)|)
  }

  predicate CanRead(s: Server.Server, up: Bytes, n: nat) {
    && Server.ReadPhase(s.phase) && 0 < n <= |up| && n <= Server.Room(s) && (Server.Atomic(s.phase) ==> n == |up|)
  }

  predicate Enabled(cfg: Config, x: Sess, l: Label) {
    match l
    case Tick(d) => x.now + d < U64
    case StartRun => Client.DonePhase(x.c.phase) && !x.c.phase.PerfCompleted?
    case ClientEnter => Client.WritePhase(x.c.phase)
    case ServerEnter => Server.ReadPhase(x.s.phase) || Server.WritePhase(x.s.phase)
    case ClientWrite(n) => CanSend(cfg.client, x.c, n)
    case ServerWrite(n) => CanWrite(cfg.server, x.s, n) && x.s.inCall
    case ClientRead(n) => CanTake(x.c, x.down, n)
    case ServerRead(n) => CanRead(x.s, x.up, n)
  }

  /** A sender put a whole zero chunk on the wire. */
  function Sent(k: Count): Count { Count(k.emitted + 1, k.inTransit + 1, k.consumed) }

  /** A receiver took in a whole chunk. */
  function Took(k: Count): Count { Count(k.emitted, if k.inTransit > 0 then k.inTransit - 1 else 0, k.consumed + 1) }

  /** The counters after a client write. */
  function CountUp(t: Tables, c: Client.Client, n: nat, k: Count): Count {
    if c.phase.PerfSendChunks? && c.writePos + n == |Client.Message(t, c)| then Sent(k) else k
  }

  /** The counters after a server write. */
  function CountDown(t: Tables, s: Server.Server, n: nat, k: Count): Count {
    if (s.phase.ChunksSend? || s.phase.TimeSendChunk?) && s.writePos + n == |Server.Message(t, s)| then Sent(k) else k
  }

  function AfterClientWrite(cfg: Config, x: Sess, n: nat): Sess
    requires CanSend(cfg.client, x.c, n)
  {
    x.(up := x.up + Client.Offer(cfg.client, x.c)[..n], c := Client.Wrote(cfg.client, x.c, n, x.now),
        k := CountUp(cfg.client, x.c, n, x.k))
  }

  function AfterServerWrite(cfg: Config, x: Sess, n: nat): Sess
    requires CanWrite(cfg.server, x.s, n)
  {
    x.(down := x.down + Server.Offer(cfg.server, x.s)[..n], s := Server.Wrote(cfg.server, x.s, n, x.now),
       k := CountDown(cfg.server, x.s, n, x.k))
  }

  function AfterClientRead(x: Sess, n: nat): Sess
    requires CanTake(x.c, x.down, n)
  {
    var y := x.(down := x.down[n..], c := Client.Got(x.c, x.down[..n], x.now));
    if (x.c.phase.ChunksReceiveChunk? || x.c.phase.TimeReceiveChunk?)
        && x.c.readPos + n == x.c.chunkSize then y.(k := Took(x.k))
    else if x.c.phase.PerfReceiveTime? && !y.c.phase.PerfReceiveTime? then y.(report := x.c.resultBuffer + x.down[..n])
    else y
  }

  function AfterServerRead(x: Sess, n: nat): Sess
    requires CanRead(x.s, x.up, n)
  {
    var y := x.(up := x.up[n..], s := Server.Got(x.s, x.up[..n], x.now));
    if x.s.phase == Server.ResultReceive
        && x.s.readPos + n == x.s.chunkSize then y.(k := Took(x.k), series := y.s.received)
    else if x.s.phase == Server.CommandReceive && y.s.phase != Server.CommandReceive then y.(k := Count(0, 0, 0))
    else y
  }

  function Step(cfg: Config, x: Sess, l: Label): Sess
    requires Enabled(cfg, x, l)
  {
    match l
    case Tick(d) => x.(now := x.now + d)
    case StartRun => x.(c := Client.Start(x.c, x.now))
    case ClientEnter => x.(c := Client.Enter(x.c, x.now))
    case ServerEnter => x.(s := Server.Enter(cfg.server, x.s, x.now))
    case ClientWrite(n) => AfterClientWrite(cfg, x, n)
    case ServerWrite(n) => AfterServerWrite(cfg, x, n)
    case ClientRead(n) => AfterClientRead(x, n)
    case ServerRead(n) => AfterServerRead(x, n)
  }

  /** One enabled step after the other. */
  ghost predicate Path(cfg: Config, xs: seq<Sess>, ls: seq<Label>) {
    && |xs| == |ls| + 1
    && forall i | 0 <= i < |ls| :: Enabled(cfg, xs[i], ls[i]) && xs[i + 1] == Step(cfg, xs[i], ls[i])
  }

  /** A path from the initial state. */
  ghost predicate Run(cfg: Config, xs: seq<Sess>, ls: seq<Label>) { Path(cfg, xs, ls) && Initial(cfg, xs[0]) }

  ghost predicate Leads(cfg: Config, x: Sess, y: Sess) {
    exists xs, ls :: Path(cfg, xs, ls) && xs[0] == x && xs[|ls|] == y
  }

  // ----- the pairing invariant

  function CText(c: Client.Client): Bytes requires c.readPos <= |c.readBuffer| { c.readBuffer[..c.readPos] }

  function SText(s: Server.Server): Bytes requires s.readPos <= |s.readBuffer| { s.readBuffer[..s.readPos] }

  /** What the client asks for in a phase, and the server phase that reads it. */
  function Request(c: Client.Client): Bytes {
    match c.phase
    case SendToken | ReceiveResponse => TokenLine(c.token)
    case ChunksSendCommand | ChunksReceiveChunk => ChunksLine(c.totalChunks, c.chunkSize)
    case PingSendPing | PingReceivePong => PING
    case TimeSendCommand | TimeReceiveChunk => TimeLine(Client.TEST_SECONDS, c.chunkSize)
    case PerfSendCommand | PerfReceiveOk => ResultLine(c.chunkSize)
    case ChunksSendOk | ChunksReceiveTime | PingSendOk | PingReceiveTime | TimeSendOk | TimeReceiveTime => OK
    case _ => []
  }

  function Asked(p: Client.Phase): Server.Phase {
    match p
    case SendToken | ReceiveResponse => Server.ReceiveToken
    case ChunksSendOk | ChunksReceiveTime => Server.ChunksReceiveOk
    case PingSendOk | PingReceiveTime => Server.PingReceiveOk
    case TimeSendOk | TimeReceiveTime => Server.TimeReceiveOk
    case ReceiveGreeting | PerfSendChunks | PerfSendLast | PerfReceiveTime | PerfCompleted => Server.Closed
    case _ => Server.CommandReceive
  }

  /** The part of the request the client has not sent yet. */
  function Unsent(c: Client.Client): Bytes {
    if Client.WritePhase(c.phase) && c.writePos <= |Request(c)| then Request(c)[c.writePos..] else []
  }

  predicate Asking(c: Client.Client, s: Server.Server, up: Bytes, down: Bytes) {
    && s.phase == Asked(c.phase) && s.writePos == 0 && down == []
    && s.readPos <= |s.readBuffer|
    && SText(s) + up + Unsent(c) == Request(c) && s.readPos < |Request(c)|
    && (Client.WritePhase(c.phase) ==> c.writePos < |Request(c)|)
    && (Client.ReadPhase(c.phase) || Client.Atomic(c.phase) ==> c.writePos == 0)
    && (c.phase.TimeSendOk? || c.phase.PerfSendCommand? || c.readPos == 0)
    && (Server.Atomic(s.phase) ==> s.readPos == 0)
  }

  predicate Quiet(c: Client.Client, s: Server.Server, up: Bytes, down: Bytes) {
    && s.phase.CommandReceive? && s.readPos == 0 && s.writePos == 0
    && up == [] && down == [] && c.writePos == 0
    && (c.phase.TimeCompleted? || c.readPos == 0)
  }

  /** The phases that write a text, and the texts that follow it before the
      server reads again. */
  predicate TextPhase(p: Server.Phase) {
    || p.SendVersion? || p.SendAcceptToken? || p.SendOk? || p.SendChunkSizes? || p.CommandSend? || p.ChunksSendTime?
    || p.PongSend? || p.PingSendTime? || p.TimeSendTime? || p.ResultSendOk? || p.ResultSend?
  }

  function After(p: Server.Phase): Bytes {
    match p
    case SendVersion => ACCEPT_TOKEN
    case SendOk => CHUNK_SIZES + ACCEPT
    case SendChunkSizes | ChunksSendTime | PingSendTime | TimeSendTime | ResultSend => ACCEPT
    case _ => []
  }

  function Rest(t: Tables, s: Server.Server): Bytes {
    if s.writePos <= |Server.Message(t, s)| then Server.Message(t, s)[s.writePos..] else []
  }

  /** What the server still writes before it reads again. */
  function Promise(t: Tables, s: Server.Server): Bytes {
    if TextPhase(s.phase) then Rest(t, s) + After(s.phase) else []
  }

  function Reply(p: Client.Phase, time: nat): Bytes {
    match p
    case ReceiveGreeting => UPGRADE + VERSION + ACCEPT_TOKEN
    case ReceiveResponse => OK + CHUNK_SIZES + ACCEPT
    case ChunksReceiveTime | PingReceiveTime | TimeReceiveTime => Time(time) + ACCEPT
    case PingReceivePong => PONG
    case PerfReceiveOk => OK
    case _ => []
  }

  /** The server phases in which the answer to a client phase is under way. */
  predicate Answers(p: Client.Phase, q: Server.Phase) {
    match p
    case ReceiveGreeting => q.SendVersion? || q.SendAcceptToken? || q.ReceiveToken?
    case ReceiveResponse => q.SendOk? || q.SendChunkSizes? || q.CommandSend? || q.CommandReceive?
    case ChunksReceiveTime => q.ChunksSendTime? || q.CommandSend? || q.CommandReceive?
    case PingReceiveTime => q.PingSendTime? || q.CommandSend? || q.CommandReceive?
    case TimeReceiveTime => q.TimeSendTime? || q.CommandSend? || q.CommandReceive?
    case PingReceivePong => q.PongSend? || q.PingReceiveOk?
    case PerfReceiveOk => q.ResultSendOk? || q.ResultReceive?
    case _ => false
  }

  predicate WritePosOk(t: Tables, s: Server.Server) {
    && (Server.WritePhase(s.phase) ==> s.writePos < |Server.Message(t, s)|)
    && (Server.ReadPhase(s.phase) || Server.Atomic(s.phase) ==> s.writePos == 0)
  }

  predicate Answering(t: Tables, c: Client.Client, s: Server.Server, up: Bytes, down: Bytes) {
    && Answers(c.phase, s.phase) && up == [] && s.readPos == 0 && c.writePos == 0
    && WritePosOk(t, s)
    && c.readPos <= |c.readBuffer|
    && CText(c) + down + Promise(t, s) == Reply(c.phase, Server.TimeOf(s))
        && c.readPos < |Reply(c.phase, Server.TimeOf(s))|
    && Server.TimeOf(s) < U64
    && (Client.Atomic(c.phase) ==> c.readPos == 0)
  }

  /** Before an upload: the sizes agree, and nothing has been counted. */
  predicate UploadReady(c: Client.Client, s: Server.Server, k: Count) {
    && s.chunkSize == c.chunkSize && k == Count(0, 0, 0)
    && (s.phase.ResultReceive? ==> |s.chunkBuffer| == s.chunkSize)
  }

  /** Rows of a series: the byte column counts whole chunks, the times do not decrease. */
  predicate Series(ps: seq<Sample>, size: nat, latest: nat) {
    && (forall i | 0 <= i < |ps| :: ps[i].1 == (i + 1) * size && ps[i].0 <= latest)
    && (forall i, j | 0 <= i < j < |ps| :: ps[i].0 <= ps[j].0)
  }

  /** The chunk a sender is in the middle of. */
  function Partial(chunks: (Bytes, Bytes), last: bool, done: bool, pos: nat): Bytes {
    if done then chunks.1 else
    var c := if last then chunks.1 else chunks.0;
    if pos <= |c| then c[..pos] else c
  }

  function SentDown(cfg: Config, s: Server.Server): Bytes
    requires s.chunkSize in cfg.server.zero && s.chunkSize in cfg.server.last
  {
    Partial((cfg.server.zero[s.chunkSize], cfg.server.last[s.chunkSize]),
            (s.phase.ChunksSendLast? || s.phase.TimeSendLast?), (s.phase.ChunksReceiveOk? || s.phase.TimeReceiveOk?),
                s.writePos)
  }

  predicate DownPair(c: Client.Phase, s: Server.Phase) {
    || (c == Client.ChunksReceiveChunk && (s.ChunksSend? || s.ChunksSendLast? || s.ChunksReceiveOk?))
    || (c == Client.TimeReceiveChunk && (s.TimeSendChunk? || s.TimeSendLast? || s.TimeReceiveOk?))
  }

  predicate ChunkCounts(c: Client.Client, s: Server.Server, k: Count) {
    && s.numChunks == c.totalChunks
    && match s.phase
       case ChunksSend => k.emitted == s.processed
           && (if s.inCall then k.emitted + 1 < c.totalChunks else k.emitted < c.totalChunks)
                          && (s.clock.None? || k.emitted + 1 == c.totalChunks ==> s.writePos == 0)
       case ChunksSendLast => k.emitted == s.processed && k.emitted + 1 == c.totalChunks
       case _ => k.emitted + 1 == c.totalChunks
  }

  /** What GETTIME has recorded so far. */
  predicate TimeCounts(c: Client.Client, k: Count, now: nat) {
    && |c.downloads| == k.consumed && c.bytesReceived == k.consumed * c.chunkSize
    && Series(c.downloads, c.chunkSize, Client.Elapsed(c, now))
  }

  predicate Downloading(cfg: Config, c: Client.Client, s: Server.Server, up: Bytes, down: Bytes, k: Count) {
    && DownPair(c.phase, s.phase) && up == [] && c.writePos == 0 && s.readPos == 0
    && s.chunkSize == c.chunkSize == |c.chunkBuffer| && c.readPos < c.chunkSize
    && s.chunkSize in cfg.server.zero && s.chunkSize in cfg.server.last
    && s.writePos < s.chunkSize && (Server.ReadPhase(s.phase) ==> s.writePos == 0)
    && c.chunkBuffer[..c.readPos] + down == Rep(cfg.server.zero[s.chunkSize], k.inTransit) + SentDown(cfg, s)
    && k.consumed + k.inTransit == k.emitted
    && (c.phase.ChunksReceiveChunk? ==> ChunkCounts(c, s, k))
  }

  function SentUp(cfg: Config, c: Client.Client): Bytes
    requires c.chunkSize in cfg.client.zero && c.chunkSize in cfg.client.last
  {
    Partial((cfg.client.zero[c.chunkSize], cfg.client.last[c.chunkSize]),
            c.phase == Client.PerfSendLast, c.phase == Client.PerfReceiveTime, c.writePos)
  }

  predicate Uploading(cfg: Config, c: Client.Client, s: Server.Server, up: Bytes, down: Bytes, k: Count) {
    && s.phase.ResultReceive? && down == [] && s.writePos == 0 && c.readPos == 0
    && s.chunkSize == c.chunkSize == |s.chunkBuffer| && s.readPos < s.chunkSize
    && c.chunkSize in cfg.client.zero && c.chunkSize in cfg.client.last
    && (c.phase.PerfReceiveTime? || c.writePos < c.chunkSize)
    && s.chunkBuffer[..s.readPos] + up == Rep(cfg.client.zero[c.chunkSize], k.inTransit) + SentUp(cfg, c)
    && k.consumed + k.inTransit == k.emitted
    && s.totalBytes + |up| == c.bytesSent
    && c.resultBuffer == [] && c.uploads == []
  }

  /** What PUTTIMERESULT has recorded so far. */
  predicate ResultCounts(s: Server.Server, k: Count, now: nat) {
    && |s.received| == k.consumed && s.totalBytes == k.consumed * s.chunkSize + s.readPos
    && Series(s.received, s.chunkSize, Server.Elapsed(s, now))
  }

  /** The server's whole answer to the upload: the result line over the start of
      the terminal chunk, which its buffer still holds, and the prompt. */
  function Report(t: Tables, size: nat, series: seq<Sample>): Bytes {
    Server.Overlay(Server.TableChunk(t.last, size), TimeResult(series)) + ACCEPT
  }

  /** The answer to the upload is under way. */
  predicate Resulting(cfg: Config, c: Client.Client, s: Server.Server, up: Bytes, down: Bytes, series: seq<Sample>) {
    && AfterUpload(cfg.server, s, up, series) && c.readPos == 0 && c.uploads == []
    && (s.phase.ResultSend? ==> s.received == series)
    && c.resultBuffer + down + Promise(cfg.server, s) == Report(cfg.client, c.chunkSize, series)
        && !EndsWith(c.resultBuffer, [NL])
  }

  predicate AfterUpload(t: Tables, s: Server.Server, up: Bytes, series: seq<Sample>) {
    && (s.phase.ResultSend? || s.phase.CommandSend? || s.phase.CommandReceive?)
    && up == [] && s.readPos == 0 && WritePosOk(t, s) && series != []
  }

  /** The client has parsed as much of the answer as it had when that ended in a newline. */
  predicate Parsed(t: Tables, c: Client.Client, report: Bytes, series: seq<Sample>) {
    report <= Report(t, c.chunkSize, series) && EndsWith(report, [NL]) && c.uploads == ParseTimeResult(report)
  }

  ghost predicate Paired(cfg: Config, x: Sess) {
    match x.c.phase
    case GreetingCompleted | ChunksCompleted | PingCompleted | TimeCompleted => Quiet(x.c, x.s, x.up, x.down)
    case PerfSendChunks | PerfSendLast => Uploading(cfg, x.c, x.s, x.up, x.down, x.k) && ResultCounts(x.s, x.k, x.now)
    case PerfReceiveTime =>
      if x.s.phase.ResultReceive? then Uploading(cfg, x.c, x.s, x.up, x.down, x.k) && ResultCounts(x.s, x.k, x.now)
      else Resulting(cfg, x.c, x.s, x.up, x.down, x.series)
    case PerfCompleted => AfterUpload(cfg.server, x.s, x.up, x.series) && Parsed(cfg.client, x.c, x.report, x.series)
    case ReceiveGreeting => Answering(cfg.server, x.c, x.s, x.up, x.down)
    case ChunksReceiveChunk =>
      if x.s.phase.CommandReceive? then Asking(x.c, x.s, x.up, x.down) && |x.c.chunkBuffer| == x.c.chunkSize
      else Downloading(cfg, x.c, x.s, x.up, x.down, x.k)
    case TimeReceiveChunk =>
      if x.s.phase.CommandReceive? then Asking(x.c, x.s, x.up, x.down) && |x.c.chunkBuffer| == x.c.chunkSize
      else Downloading(cfg, x.c, x.s, x.up, x.down, x.k) && TimeCounts(x.c, x.k, x.now)
    case PerfReceiveOk =>
      if x.s.phase.CommandReceive? then Asking(x.c, x.s, x.up, x.down)
      else Answering(cfg.server, x.c, x.s, x.up, x.down) && UploadReady(x.c, x.s, x.k)
    case _ =>
      if x.s.phase == Asked(x.c.phase) then Asking(x.c, x.s, x.up, x.down)
      else Answering(cfg.server, x.c, x.s, x.up, x.down)
  }

  predicate Covers(read: bool, write: bool, i: Server.Interest) {
    (read ==> i != Server.Writable) && (write ==> i != Server.Readable)
  }

  /** No transfer bytes are counted before the transfer they belong to. */
  predicate NotStarted(c: Client.Client, s: Server.Server) {
    && (UploadPhase(c.phase) ||
        (c.bytesSent == 0 && s.totalBytes == 0 && s.received == [] && c.resultBuffer == [] && c.uploads == []))
    && (UploadPhase(c.phase) || AfterDownload(c.phase) || (c.phase.TimeReceiveChunk? && !s.phase.CommandReceive?)
        || (c.downloads == [] && c.bytesReceived == 0))
  }

  predicate UploadPhase(p: Client.Phase) {
    p.PerfSendChunks? || p.PerfSendLast? || p.PerfReceiveTime? || p.PerfCompleted?
  }

  predicate AfterDownload(p: Client.Phase) {
    p.TimeSendOk? || p.TimeReceiveTime? || p.TimeCompleted? || p.PerfSendCommand? || p.PerfReceiveOk?
  }

  predicate Pinging(p: Client.Phase) { p.PingSendPing? || p.PingReceivePong? || p.PingSendOk? || p.PingReceiveTime? }

  predicate PerfStarted(p: Client.Phase) { p.PerfSendCommand? || p.PerfReceiveOk? || p.PerfSendChunks? }

  predicate BeforePing(p: Client.Phase) {
    || p.ReceiveGreeting? || p.SendToken? || p.ReceiveResponse? || p.GreetingCompleted? || p.ChunksSendCommand?
    || p.ChunksReceiveChunk? || p.ChunksSendOk? || p.ChunksReceiveTime? || p.ChunksCompleted?
  }

  predicate ClientOk(c: Client.Client, now: nat) {
    && |c.readBuffer| == 8192
    && Covers(Client.ReadPhase(c.phase), Client.WritePhase(c.phase), c.interest)
    && (c.phaseStart.Some? ==> c.phaseStart.value <= now)
    && (Pinging(c.phase) || c.phase.TimeReceiveChunk? || PerfStarted(c.phase) ==> c.phaseStart.Some?)
    && (BeforePing(c.phase) ==> c.pingTimes == []) && (Pinging(c.phase) ==> |c.pingTimes| < 200)
    && (c.phase.PingCompleted? ==> 1 <= |c.pingTimes| <= 200)
  }

  predicate ServerOk(s: Server.Server, now: nat) {
    && |s.readBuffer| == 8192
    && Covers(Server.ReadPhase(s.phase), Server.WritePhase(s.phase), s.interest)
    && (Server.NeedsClock(s.phase) || (s.inCall && Server.SetsClock(s.phase)) ==> s.clock.Some?)
    && (s.clock.Some? ==> s.clock.value <= now)
    && (Server.NeedsTime(s.phase) ==> s.timeNs.Some?) && (s.timeNs.Some? ==> s.timeNs.value <= now)
    && (s.phase.ChunksSend? || s.phase.ChunksSendLast? || s.processed == 0)
  }

  ghost predicate Setup(cfg: Config, x: Sess) {
    && ValidTables(cfg.client) && ValidTables(cfg.server) && x.now < U64
    && OnRamp(Round(x.c.totalChunks, x.c.chunkSize))
  }

  ghost predicate Inv(cfg: Config, x: Sess) {
    && Setup(cfg, x) && ClientOk(x.c, x.now) && ServerOk(x.s, x.now) && NotStarted(x.c, x.s)
    && Paired(cfg, x)
  }
}
