/** Every step of the session keeps the pairing invariant. */
module SessionSteps {
  import opened Text
  import opened Wire
  import opened Commands
  import opened Chunks
  import opened TimeResults
  import opened Ramp
  import opened Session
  import Server = ServerMachine
  import Client = ClientMachine

  lemma InitialInv(cfg: Config, x: Sess)
    requires Initial(cfg, x)
    ensures Inv(cfg, x)
  {
    hide ValidTables, TimeResult, Show, Promise, Server.Message;
    assert Ramp.Place(Round(1, MIN_CHUNK), 0, 0);
    assert CText(x.c) == [];
    VersionFirst(cfg.server, x.s);
  }

  lemma VersionFirst(t: Tables, s: Server.Server)
    requires s.phase.SendVersion? && s.writePos == 0
    ensures Promise(t, s) == VERSION + ACCEPT_TOKEN && Server.Message(t, s) == VERSION && |VERSION| == 11
  {
    hide ACCEPT_TOKEN, TimeResult, Show;
  }

  // ----- time, and the start of a run

  lemma SeriesLater(ps: seq<Sample>, size: nat, t: nat, u: nat)
    requires Series(ps, size, t) && t <= u
    ensures Series(ps, size, u)
  {
  }

  lemma TickInv(cfg: Config, x: Sess, d: nat)
    requires Inv(cfg, x) && x.now + d < U64
    ensures Inv(cfg, x.(now := x.now + d))
  {
    hide Asking, Quiet, Answering, Downloading, Uploading, Resulting, Parsed, NotStarted, AfterUpload, OnRamp,
      ValidTables, UploadReady, Series;
    if x.c.phase.TimeReceiveChunk? && !x.s.phase.CommandReceive? {
      SeriesLater(x.c.downloads, x.c.chunkSize, Client.Elapsed(x.c, x.now), Client.Elapsed(x.c, x.now + d));
    } else if x.c.phase.PerfSendChunks? || x.c.phase.PerfSendLast?
        || (x.c.phase.PerfReceiveTime? && x.s.phase.ResultReceive?) {
      SeriesLater(x.s.received, x.s.chunkSize, Server.Elapsed(x.s, x.now), Server.Elapsed(x.s, x.now + d));
    }
  }

  lemma StartAsks(c: Client.Client, s: Server.Server, now: nat)
    requires Quiet(c, s, [], []) && Client.DonePhase(c.phase) && !c.phase.PerfCompleted?
    ensures var d := Client.Start(c, now); Asking(d, s, [], []) && s.phase == Asked(d.phase)
  {
    hide Show, Request;
    var d := Client.Start(c, now);
    assert SText(s) == [];
    assert Unsent(d) == Request(d);
    StartRequest(c, now);
    assert [] + [] + Request(d) == Request(d);
  }

  lemma StartRequest(c: Client.Client, now: nat)
    requires Client.DonePhase(c.phase) && !c.phase.PerfCompleted?
    ensures |Request(Client.Start(c, now))| > 0
  {
    hide Show;
    match c.phase {
      case GreetingCompleted =>
      case ChunksCompleted =>
      case PingCompleted =>
      case TimeCompleted =>
    }
  }

  lemma StartInv(cfg: Config, x: Sess)
    requires Inv(cfg, x) && Client.DonePhase(x.c.phase) && !x.c.phase.PerfCompleted?
    ensures Inv(cfg, x.(c := Client.Start(x.c, x.now)))
  {
    hide Asking, Answering, Downloading, Uploading, Resulting, Parsed, AfterUpload, OnRamp, ValidTables;
    StartAsks(x.c, x.s, x.now);
  }

  lemma ClientEnterInv(cfg: Config, x: Sess)
    requires Inv(cfg, x) && Client.WritePhase(x.c.phase)
    ensures Inv(cfg, x.(c := Client.Enter(x.c, x.now)))
  {
    hide Asking, Answering, Downloading, Uploading, Resulting, Parsed, AfterUpload, OnRamp, ValidTables;
    assert Client.Enter(x.c, x.now) == x.c;
  }

  // ----- a server handler is called

  lemma EnterOk(t: Tables, s: Server.Server, now: nat)
    requires ServerOk(s, now)
    ensures ServerOk(Server.Enter(t, s, now), now)
  {
    hide Server.Overlay, Server.Fresh, TimeResult, Server.Elapsed;
    match s.phase {
      case PongSend | PutSendOk | ResultSendOk =>
      case ChunksSend =>
      case TimeSendChunk =>
      case _ =>
    }
  }

  lemma EnterRead(t: Tables, s: Server.Server, now: nat)
    requires Server.ReadPhase(s.phase)
    ensures Server.Enter(t, s, now) == s.(inCall := true)
  {
  }

  lemma EnterAsked(c: Client.Client, s: Server.Server, up: Bytes, down: Bytes)
    ensures Asking(c, s, up, down) ==> Asking(c, s.(inCall := true), up, down)
    ensures Quiet(c, s, up, down) ==> Quiet(c, s.(inCall := true), up, down) && s.phase.CommandReceive?
  {
    hide Request, Unsent;
  }

  /** The calls that only touch the clock. */
  lemma EnterClock(t: Tables, s: Server.Server, now: nat)
    requires !(s.phase.ChunksSend? || s.phase.TimeSendChunk? || s.phase.TimeSendLast? || s.phase.ResultSend?)
    requires s.phase.ResultSendOk? ==> s.writePos == 0
    ensures var y := Server.Enter(t, s, now); y == s.(clock := y.clock, inCall := true)
  {
    hide Server.Overlay, Server.Fresh, TimeResult, Server.Elapsed;
    match s.phase {
      case PongSend | PutSendOk | ResultSendOk =>
      case ChunksSendTime | TimeSendTime =>
      case _ =>
    }
  }

  lemma MessageClock(t: Tables, s: Server.Server, y: Server.Server)
    requires y == s.(clock := y.clock, inCall := y.inCall)
    ensures Server.Message(t, y) == Server.Message(t, s) && Promise(t, y) == Promise(t, s)
  {
    hide Server.Overlay, TimeResult, Time, TimeBytes;
  }

  lemma EnterAnswering(t: Tables, c: Client.Client, s: Server.Server, up: Bytes, down: Bytes, now: nat)
    requires Answering(t, c, s, up, down)
    ensures var y := Server.Enter(t, s, now); Answering(t, c, y, up, down) && y == s.(clock := y.clock, inCall := true)
  {
    hide Reply, Server.Enter, Server.Message, Promise;
    EnterClock(t, s, now);
    MessageClock(t, s, Server.Enter(t, s, now));
  }

  lemma EnterDownloading(cfg: Config, c: Client.Client, s: Server.Server, up: Bytes, down: Bytes, k: Count, now: nat)
    requires Downloading(cfg, c, s, up, down, k)
    ensures var y := Server.Enter(cfg.server, s, now); Downloading(cfg, c, y, up, down, k) && !y.phase.CommandReceive?
  {
    hide Rep, Server.Fresh, Server.Elapsed;
    match s.phase {
      case ChunksSend =>
        var z, f := cfg.server.zero[s.chunkSize], cfg.server.last[s.chunkSize];
        assert z[..0] == f[..0] == [];
      case TimeSendChunk =>
      case TimeSendLast =>
      case _ =>
    }
  }

  lemma OverlayTwice(b: Bytes, t: Bytes)
    ensures Server.Overlay(Server.Overlay(b, t), t) == Server.Overlay(b, t)
  {
  }

  lemma EnterAfterUpload(t: Tables, s: Server.Server, up: Bytes, series: seq<Sample>, now: nat)
    requires AfterUpload(t, s, up, series)
    ensures var y := Server.Enter(t, s, now);
      AfterUpload(t, y, up, series) && y.phase == s.phase && Promise(t, y) == Promise(t, s) && y.received == s.received
  {
    hide TimeResult, Server.Overlay;
    OverlayTwice(s.chunkBuffer, TimeResult(s.received));
  }

  lemma EnterUploading(cfg: Config, c: Client.Client, s: Server.Server, up: Bytes, down: Bytes, k: Count)
    ensures Uploading(cfg, c, s, up, down, k) ==>
        Uploading(cfg, c, s.(inCall := true), up, down, k) && s.phase.ResultReceive?
  {
  }

  lemma EnterNotStarted(t: Tables, c: Client.Client, s: Server.Server, now: nat)
    requires NotStarted(c, s)
    ensures NotStarted(c, Server.Enter(t, s, now))
  {
    hide Server.Overlay, Server.Fresh, TimeResult, Server.Elapsed;
    match s.phase {
      case PongSend | PutSendOk | ResultSendOk =>
      case ChunksSend =>
      case TimeSendChunk =>
      case _ =>
    }
  }

  lemma EnterKinds(cfg: Config, x: Sess)
    ensures var (c, y) := (x.c, Server.Enter(cfg.server, x.s, x.now));
      && (Answering(cfg.server, c, x.s, x.up, x.down) ==>
          Answering(cfg.server, c, y, x.up, x.down) && y == x.s.(clock := y.clock, inCall := true))
      && (Downloading(cfg, c, x.s, x.up, x.down, x.k) ==>
          Downloading(cfg, c, y, x.up, x.down, x.k) && !y.phase.CommandReceive?)
      && (AfterUpload(cfg.server, x.s, x.up, x.series) ==>
          AfterUpload(cfg.server, y, x.up, x.series) && y.phase == x.s.phase
              && Promise(cfg.server, y) == Promise(cfg.server, x.s) && y.received == x.s.received)
  {
    hide Answering, Downloading, AfterUpload, Promise, Server.Enter;
    if Answering(cfg.server, x.c, x.s, x.up, x.down) {
      EnterAnswering(cfg.server, x.c, x.s, x.up, x.down, x.now);
    }
    if Downloading(cfg, x.c, x.s, x.up, x.down, x.k) {
      EnterDownloading(cfg, x.c, x.s, x.up, x.down, x.k, x.now);
    }
    if AfterUpload(cfg.server, x.s, x.up, x.series) {
      EnterAfterUpload(cfg.server, x.s, x.up, x.series, x.now);
    }
  }

  lemma EnterPaired(cfg: Config, x: Sess)
    requires Paired(cfg, x)
    ensures Paired(cfg, x.(s := Server.Enter(cfg.server, x.s, x.now)))
  {
    hide Asking, Quiet, Answering, Downloading, Uploading, Parsed, AfterUpload, Server.Enter, Promise, TimeResult,
      Series;
    EnterAsked(x.c, x.s, x.up, x.down);
    EnterUploading(cfg, x.c, x.s, x.up, x.down, x.k);
    EnterKinds(cfg, x);
    if Server.ReadPhase(x.s.phase) {
      EnterRead(cfg.server, x.s, x.now);
    }
  }

  lemma ServerEnterInv(cfg: Config, x: Sess)
    requires Inv(cfg, x)
    ensures Inv(cfg, x.(s := Server.Enter(cfg.server, x.s, x.now)))
  {
    hide Paired, ValidTables, OnRamp, Server.Enter, ServerOk, NotStarted;
    EnterOk(cfg.server, x.s, x.now);
    EnterNotStarted(cfg.server, x.c, x.s, x.now);
    EnterPaired(cfg, x);
  }

  // ----- the server writes

  lemma FinishOk(s: Server.Server, now: nat)
    requires ServerOk(s, now) && Server.WritePhase(s.phase) && s.inCall
    ensures ServerOk(Server.Finish(s, now), now)
  {
    hide Server.Zeros, Server.Elapsed;
    match s.phase {
      case NoResultSendOk | ResultSendOk | PutSendOk =>
      case PutSendBytes =>
      case TimeSendChunk =>
      case ChunksSend =>
      case ChunksSendLast | TimeSendLast | PongSend =>
      case _ =>
    }
  }

  lemma WroteOk(t: Tables, s: Server.Server, n: nat, now: nat)
    requires ServerOk(s, now) && CanWrite(t, s, n) && s.inCall
    ensures ServerOk(Server.Wrote(t, s, n, now), now)
  {
    hide Server.Message, Server.Offer, Server.Finish, CanWrite;
    assert Server.WritePhase(s.phase) by { CanWritePhase(t, s, n); }
    FinishOk(s, now);
  }

  lemma CanWritePhase(t: Tables, s: Server.Server, n: nat)
    requires CanWrite(t, s, n)
    ensures Server.WritePhase(s.phase)
  {
  }

  lemma FinishNotStarted(c: Client.Client, s: Server.Server, now: nat)
    requires NotStarted(c, s) && Server.WritePhase(s.phase) && (s.phase.ResultSend? ==> UploadPhase(c.phase))
    requires !s.phase.CommandSend? || !c.phase.TimeReceiveChunk?
    ensures NotStarted(c, Server.Finish(s, now))
  {
    hide Server.Zeros, Server.Elapsed, Server.Overlay;
    match s.phase {
      case NoResultSendOk | ResultSendOk | PutSendOk =>
      case PutSendBytes =>
      case TimeSendChunk =>
      case ChunksSend =>
      case ResultSend =>
      case _ =>
    }
  }

  function NextText(p: Server.Phase): Server.Phase {
    match p
    case SendVersion => Server.SendAcceptToken
    case SendAcceptToken => Server.ReceiveToken
    case SendOk => Server.SendChunkSizes
    case CommandSend => Server.CommandReceive
    case PongSend => Server.PingReceiveOk
    case ResultSendOk => Server.ResultReceive
    case _ => Server.CommandSend
  }

  lemma FinishText(s: Server.Server, now: nat)
    requires TextPhase(s.phase)
    ensures var y := Server.Finish(s, now);
      && y.phase == NextText(s.phase) && y.writePos == 0 && (s.readPos == 0 ==> y.readPos == 0) && y.timeNs == s.timeNs
      && y.chunkSize == s.chunkSize && (y.phase.ResultReceive? ==> |y.chunkBuffer| == y.chunkSize)
  {
    hide Server.Elapsed;
    match s.phase {
      case SendVersion | SendAcceptToken | CommandSend =>
      case SendOk | SendChunkSizes =>
      case ChunksSendTime | TimeSendTime =>
      case PingSendTime =>
      case PongSend =>
      case ResultSendOk =>
      case ResultSend =>
    }
  }

  lemma RestStart(t: Tables, s: Server.Server)
    requires s.writePos == 0
    ensures Rest(t, s) == Server.Message(t, s)
  {
    hide Server.Message;
  }

  /** Finishing a text moves on to the next text of the promise. */
  lemma FinishPromise(t: Tables, s: Server.Server, now: nat)
    requires TextPhase(s.phase)
    ensures Promise(t, Server.Finish(s, now)) == After(s.phase)
  {
    hide Server.Finish, Rest, B;
    FinishText(s, now);
    RestStart(t, Server.Finish(s, now));
  }

  lemma WrotePromise(t: Tables, s: Server.Server, n: nat, now: nat)
    requires TextPhase(s.phase) && CanWrite(t, s, n) && (Server.Atomic(s.phase) ==> s.writePos == 0)
    ensures Server.Offer(t, s)[..n] + Promise(t, Server.Wrote(t, s, n, now)) == Promise(t, s)
  {
    hide Server.Finish, After, Server.Message;
    var rest := Rest(t, s);
    assert Server.Offer(t, s) == rest;
    if s.writePos + n == |Server.Message(t, s)| {
      FinishPromise(t, s, now);
      assert rest[..n] == rest;
    } else {
      SameMessage(t, s, s.writePos + n);
      assert Rest(t, s.(writePos := s.writePos + n)) == rest[n..];
      TakeRest(rest, After(s.phase), n);
    }
  }

  lemma TakeRest(rest: Bytes, after: Bytes, n: nat)
    requires n <= |rest|
    ensures rest[..n] + (rest[n..] + after) == rest + after
  {
  }

  lemma SameMessage(t: Tables, s: Server.Server, p: nat)
    ensures Server.Message(t, s.(writePos := p)) == Server.Message(t, s)
  {
    hide Server.Overlay, TimeResult, Time, TimeBytes;
  }

  lemma MessageNonempty(t: Tables, s: Server.Server)
    requires TextPhase(s.phase)
    ensures |Server.Message(t, s)| > 0
  {
    hide Server.Overlay, TimeResult;
    assert |OK| == 3 && |PONG| == 5;
    if s.phase.ResultSend? {
      assert |TimeResult(s.received)| > 0 by { TimeResultNonempty(s.received); }
    }
  }

  lemma TimeResultNonempty(ps: seq<Sample>)
    ensures |TimeResult(ps)| > 0
  {
  }

  lemma WroteText(t: Tables, s: Server.Server, n: nat, now: nat)
    requires TextPhase(s.phase) && CanWrite(t, s, n) && WritePosOk(t, s) && s.readPos == 0
    ensures var y := Server.Wrote(t, s, n, now);
      && WritePosOk(t, y) && y.readPos == 0 && y.timeNs == s.timeNs && y.chunkSize == s.chunkSize
      && ((y.phase == s.phase && y.received == s.received) || y.phase == NextText(s.phase))
      && (y.phase.ResultReceive? ==> |y.chunkBuffer| == y.chunkSize)
  {
    hide Server.Finish, Server.Message;
    if s.writePos + n == |Server.Message(t, s)| {
      FinishText(s, now);
      if TextPhase(NextText(s.phase)) {
        MessageNonempty(t, Server.Finish(s, now));
      }
    } else {
      SameMessage(t, s, s.writePos + n);
    }
  }

  lemma ServerWriteAnswering(t: Tables, c: Client.Client, s: Server.Server, down: Bytes, n: nat, now: nat)
    requires Answering(t, c, s, [], down) && CanWrite(t, s, n)
    ensures var y := Server.Wrote(t, s, n, now);
      && Answering(t, c, y, [], down + Server.Offer(t, s)[..n]) && y.chunkSize == s.chunkSize
      && (y.phase.ResultReceive? ==> |y.chunkBuffer| == y.chunkSize)
      && Answers(c.phase, y.phase) && !s.phase.ChunksSend? && !s.phase.TimeSendChunk?
  {
    hide Reply, Promise, Server.Wrote, Server.Message, Server.Offer;
    assert TextPhase(s.phase) by { AnsweringText(c.phase, s.phase); }
    assert Server.WritePhase(s.phase) by { CanWritePhase(t, s, n); }
    WroteText(t, s, n, now);
    WrotePromise(t, s, n, now);
    NextAnswers(c.phase, s.phase);
    var y := Server.Wrote(t, s, n, now);
    assert Server.TimeOf(y) == Server.TimeOf(s);
    Regroup(CText(c), down, Server.Offer(t, s)[..n], Promise(t, y));
  }

  lemma Regroup(a: Bytes, b: Bytes, c: Bytes, d: Bytes)
    ensures a + (b + c) + d == a + b + (c + d)
  {
  }

  lemma AnsweringText(p: Client.Phase, q: Server.Phase)
    requires Answers(p, q) && Server.WritePhase(q)
    ensures TextPhase(q)
  {
  }

  lemma NextAnswers(p: Client.Phase, q: Server.Phase)
    requires Answers(p, q) && TextPhase(q)
    ensures Answers(p, NextText(q)) && (p.PerfReceiveOk? ==> !NextText(q).CommandReceive?)
  {
  }

  lemma ServerWriteAfterUpload(t: Tables, s: Server.Server, series: seq<Sample>, n: nat, now: nat)
    requires AfterUpload(t, s, [], series) && CanWrite(t, s, n)
    ensures var y := Server.Wrote(t, s, n, now);
      && AfterUpload(t, y, [], series) && Server.Offer(t, s)[..n] + Promise(t, y) == Promise(t, s)
      && (y.phase.ResultSend? ==> s.phase.ResultSend? && y.received == s.received)
      && !s.phase.ResultReceive? && !y.phase.ResultReceive?
  {
    hide Promise, Server.Wrote, Server.Message, Server.Offer;
    assert Server.WritePhase(s.phase) by { CanWritePhase(t, s, n); }
    WroteText(t, s, n, now);
    WrotePromise(t, s, n, now);
  }

  lemma SendFrame(z: Bytes, j: nat, chunk: Bytes, pos: nat, n: nat, got: Bytes, down: Bytes)
    requires pos + n <= |chunk| && got + down == Rep(z, j) + chunk[..pos]
    ensures got + (down + chunk[pos..][..n]) == Rep(z, j) + chunk[..pos + n]
  {
    assert chunk[..pos] + chunk[pos..][..n] == chunk[..pos + n];
    assert got + (down + chunk[pos..][..n]) == got + down + chunk[pos..][..n];
  }

  lemma SendWhole(z: Bytes, j: nat)
    ensures Rep(z, j) + z[..|z|] == Rep(z, j + 1) + []
  {
    RepSnoc(z, j);
    assert z[..|z|] == z;
  }

  lemma FinishDownload(s: Server.Server, now: nat)
    requires s.phase.ChunksSend? || s.phase.ChunksSendLast? || s.phase.TimeSendChunk? || s.phase.TimeSendLast?
    requires s.readPos == 0
    ensures var y := Server.Finish(s, now);
      && y.writePos == 0 && y.readPos == 0 && y.chunkSize == s.chunkSize && y.numChunks == s.numChunks
      && (s.phase.ChunksSendLast? ==> y.phase.ChunksReceiveOk?) && (s.phase.TimeSendLast? ==> y.phase.TimeReceiveOk?)
      && (s.phase.TimeSendChunk? ==> y.phase.TimeSendChunk? || y.phase.TimeSendLast?)
      && (s.phase.ChunksSend? ==> (y.processed == s.processed + 1 && y.clock == s.clock
                                   && if s.processed + 2 == s.numChunks then y.phase.ChunksSendLast?
                                       else y.phase.ChunksSend? && y.inCall == s.inCall))
  {
    hide Server.Elapsed, Server.Zeros;
  }

  /** What has gone out of the chunk under way, before and after a write. */
  lemma DownWrote(cfg: Config, s: Server.Server, n: nat, now: nat)
    requires ValidTables(cfg.server) && s.chunkSize in cfg.server.zero && s.chunkSize in cfg.server.last
        && s.readPos == 0
    requires s.phase.ChunksSend? || s.phase.ChunksSendLast? || s.phase.TimeSendChunk? || s.phase.TimeSendLast?
    requires CanWrite(cfg.server, s, n)
    ensures var (chunk, y) := (Server.Message(cfg.server, s), Server.Wrote(cfg.server, s, n, now));
      var first := s.phase.ChunksSend? || s.phase.TimeSendChunk?;
      && chunk == (if first then cfg.server.zero[s.chunkSize] else cfg.server.last[s.chunkSize])
      && SentDown(cfg, s) == chunk[..s.writePos] && y.chunkSize == s.chunkSize
      && Server.Offer(cfg.server, s) == chunk[s.writePos..]
      && SentDown(cfg, y) == if s.writePos + n < |chunk| then chunk[..s.writePos + n] else if first then [] else chunk
  {
    hide Server.Finish, ValidTables;
    var z, f := cfg.server.zero[s.chunkSize], cfg.server.last[s.chunkSize];
    if s.writePos + n == |Server.Message(cfg.server, s)| {
      FinishDownload(s, now);
      assert z[..0] == f[..0] == [];
    }
  }

  /** The bytes in flight after a server write of chunk data. */
  lemma DownFrame(cfg: Config, c: Client.Client, s: Server.Server, down: Bytes, k: Count, n: nat, now: nat)
    requires ValidTables(cfg.server) && Downloading(cfg, c, s, [], down, k) && CanWrite(cfg.server, s, n)
    ensures var (y, k') := (Server.Wrote(cfg.server, s, n, now), CountDown(cfg.server, s, n, k));
      && y.chunkSize == s.chunkSize
      && c.chunkBuffer[..c.readPos] + (down + Server.Offer(cfg.server, s)[..n]) ==
         Rep(cfg.server.zero[s.chunkSize], k'.inTransit) + SentDown(cfg, y)
  {
    hide Server.Message, Server.Offer, Server.Wrote, ValidTables, SentDown, Rep, ChunkCounts;
    DownWrote(cfg, s, n, now);
    var z, chunk := cfg.server.zero[s.chunkSize], Server.Message(cfg.server, s);
    SendFrame(z, k.inTransit, chunk, s.writePos, n, c.chunkBuffer[..c.readPos], down);
    if s.writePos + n == |chunk| {
      SendWhole(z, k.inTransit);
      assert chunk[..|chunk|] == chunk;
    }
  }

  lemma DownCounts(cfg: Config, c: Client.Client, s: Server.Server, k: Count, n: nat, now: nat)
    requires (s.phase.ChunksSend? && s.clock.Some?) || s.phase.ChunksSendLast?
    requires ChunkCounts(c, s, k) && s.inCall && s.readPos == 0
    ensures ChunkCounts(c, Server.Wrote(cfg.server, s, n, now), CountDown(cfg.server, s, n, k))
  {
    hide Server.Finish, Server.Message;
    FinishDownload(s, now);
  }

  lemma ServerWriteDownloading(cfg: Config, c: Client.Client, s: Server.Server, down: Bytes, k: Count, n: nat, now: nat)
    requires ValidTables(cfg.server) && Downloading(cfg, c, s, [], down, k) && CanWrite(cfg.server, s, n)
    requires s.inCall && (s.phase.ChunksSend? ==> s.clock.Some?)
    ensures var y := Server.Wrote(cfg.server, s, n, now);
      && Downloading(cfg, c, y, [], down + Server.Offer(cfg.server, s)[..n], CountDown(cfg.server, s, n, k))
      && !y.phase.CommandReceive?
  {
    hide Server.Finish, Rep, SentDown, ChunkCounts, ValidTables;
    DownFrame(cfg, c, s, down, k, n, now);
    FinishDownload(s, now);
    if c.phase.ChunksReceiveChunk? {
      DownCounts(cfg, c, s, k, n, now);
    }
    assert |Server.Message(cfg.server, s)| == s.chunkSize by { DownMessage(cfg, c, s, down, k, n); }
  }

  lemma DownMessage(cfg: Config, c: Client.Client, s: Server.Server, down: Bytes, k: Count, n: nat)
    requires ValidTables(cfg.server) && Downloading(cfg, c, s, [], down, k) && CanWrite(cfg.server, s, n)
    ensures |Server.Message(cfg.server, s)| == s.chunkSize
  {
    hide Rep, SentDown, ChunkCounts;
  }

  lemma WroteNotStarted(t: Tables, c: Client.Client, s: Server.Server, n: nat, now: nat)
    requires NotStarted(c, s) && CanWrite(t, s, n) && (s.phase.ResultSend? ==> UploadPhase(c.phase))
    requires !s.phase.CommandSend? || !c.phase.TimeReceiveChunk?
    ensures NotStarted(c, Server.Wrote(t, s, n, now))
  {
    hide Server.Message, Server.Offer, Server.Finish, CanWrite;
    assert Server.WritePhase(s.phase) by { CanWritePhase(t, s, n); }
    FinishNotStarted(c, s, now);
  }

  /** Which phases a server writes in, for each phase of the client. */
  lemma WritePairs(cfg: Config, x: Sess, n: nat)
    requires Paired(cfg, x) && CanWrite(cfg.server, x.s, n)
    ensures x.up == []
    ensures (x.s.phase.ResultSend? ==> UploadPhase(x.c.phase))
        && (!x.s.phase.CommandSend? || !x.c.phase.TimeReceiveChunk?)
    ensures x.c.phase.PerfReceiveTime? || x.c.phase.PerfCompleted? ==> AfterUpload(cfg.server, x.s, x.up, x.series)
    ensures x.c.phase.ChunksReceiveChunk? || x.c.phase.TimeReceiveChunk? ==> Downloading(cfg, x.c, x.s, [], x.down, x.k)
    ensures x.c.phase.PerfReceiveTime? || x.c.phase.PerfCompleted? || x.c.phase.ChunksReceiveChunk?
        || x.c.phase.TimeReceiveChunk?
      || Answering(cfg.server, x.c, x.s, [], x.down)
  {
    hide Server.Message, Server.Offer, Promise, Reply, Request, Unsent, SText, CText, WritePosOk, SentDown, SentUp, Rep,
      Parsed, TimeResult, Series, UploadReady, ChunkCounts, ResultCounts;
    assert Server.WritePhase(x.s.phase) by { CanWritePhase(cfg.server, x.s, n); }
  }

  lemma ServerWritePaired(cfg: Config, x: Sess, n: nat)
    requires ValidTables(cfg.server) && Paired(cfg, x) && CanWrite(cfg.server, x.s, n) && ServerOk(x.s, x.now)
        && x.s.inCall
    ensures Paired(cfg, AfterServerWrite(cfg, x, n))
  {
    hide Asking, Quiet, Answering, Downloading, Uploading, Parsed, AfterUpload, Server.Wrote, Server.Offer,
      Server.Message,
      Promise, TimeResult, Series, ValidTables;
    var c, s, t := x.c, x.s, cfg.server;
    WritePairs(cfg, x, n);
    if c.phase.PerfReceiveTime? || c.phase.PerfCompleted? {
      ServerWriteAfterUpload(t, s, x.series, n, x.now);
      Regroup(c.resultBuffer, x.down, Server.Offer(t, s)[..n], Promise(t, Server.Wrote(t, s, n, x.now)));
    } else if c.phase.ChunksReceiveChunk? || c.phase.TimeReceiveChunk? {
      ServerWriteDownloading(cfg, c, s, x.down, x.k, n, x.now);
    } else {
      ServerWriteAnswering(t, c, s, x.down, n, x.now);
    }
  }

  // ----- the server reads

  lemma GotOk(s: Server.Server, data: Bytes, now: nat)
    requires ServerOk(s, now) && Server.ReadPhase(s.phase) && 0 < |data| <= Server.Room(s)
    ensures ServerOk(Server.Got(s, data, now), now)
  {
    hide ServerOk, ParseCommand, Server.Elapsed, Server.Apply, Server.GotNoResult, Server.GotPut, Server.GotResult,
      Server.Goto;
    match s.phase {
      case ReceiveToken => GotTextOk(s, data, now);
      case CommandReceive =>
        GotTextOk(s, data, now);
        ApplyOk(Server.GotText(s, data), ParseCommand(Server.GotText(s, data).readBuffer[..s.readPos + |data|]), now);
      case ChunksReceiveOk | TimeReceiveOk | PingReceiveOk => GotReplyOk(s, data, now);
      case NoResultReceive | PutReceive | ResultReceive =>
        StoredOk(s, data, now);
        GotChunkOk(Server.GotChunk(s, data), now);
        GotChunkOk(Server.GotChunk(s, data).(totalBytes := s.totalBytes + |data|), now);
    }
  }

  lemma GotTextOk(s: Server.Server, data: Bytes, now: nat)
    requires ServerOk(s, now) && s.readPos + |data| <= |s.readBuffer| && 0 < |data|
    ensures ServerOk(Server.GotText(s, data), now)
    ensures s.phase.ReceiveToken? ==>
        ServerOk(Server.Goto(Server.GotText(s, data).(readPos := 0), Server.SendOk, Server.Writable), now)
  {
  }

  lemma GotReplyOk(s: Server.Server, data: Bytes, now: nat)
    requires ServerOk(s, now) && (s.phase.ChunksReceiveOk? || s.phase.TimeReceiveOk? || s.phase.PingReceiveOk?)
    requires 0 < |data| <= |s.readBuffer|
    ensures ServerOk(Server.Got(s, data, now), now)
  {
    hide Server.Elapsed, Server.IsOk;
  }

  lemma StoredOk(s: Server.Server, data: Bytes, now: nat)
    requires ServerOk(s, now) && s.readPos + |data| <= |s.chunkBuffer|
    ensures ServerOk(Server.GotChunk(s, data), now)
        && ServerOk(Server.GotChunk(s, data).(totalBytes := s.totalBytes + |data|), now)
  {
  }

  lemma GotChunkOk(s: Server.Server, now: nat)
    requires ServerOk(s, now)
    ensures s.phase.NoResultReceive? ==> ServerOk(Server.GotNoResult(s, now), now)
    ensures s.phase.PutReceive? ==> ServerOk(Server.GotPut(s, now), now)
    ensures s.phase.ResultReceive? ==> ServerOk(Server.GotResult(s, now), now)
  {
    hide Server.Elapsed, Server.Boundary;
    match s.phase {
      case NoResultReceive =>
      case PutReceive =>
      case ResultReceive =>
      case _ =>
    }
  }

  lemma ApplyOk(s: Server.Server, c: Command, now: nat)
    requires ServerOk(s, now) && s.phase.CommandReceive?
    ensures ServerOk(Server.Apply(s, c), now)
  {
    hide ServerOk;
    var y := Server.Apply(s, c);
    if c.Ignored? || c.Invalid? || c.Panics? {
      IdleOk(s, y, now);
    } else {
      CommandOk(s, y, now);
    }
  }

  lemma CommandOk(s: Server.Server, y: Server.Server, now: nat)
    requires ServerOk(s, now) && s.phase.CommandReceive? && y.interest == Server.Writable && !y.inCall
    requires y.phase.ChunksSend? || y.phase.PongSend? || y.phase.TimeSendChunk? || y.phase.NoResultSendOk?
        || y.phase.ResultSendOk? || y.phase.PutSendOk?
    requires y.readBuffer == s.readBuffer && y.clock == s.clock && y.timeNs == s.timeNs && y.processed == s.processed
    ensures ServerOk(y, now)
  {
  }

  lemma IdleOk(s: Server.Server, y: Server.Server, now: nat)
    requires ServerOk(s, now) && s.phase.CommandReceive? && y.interest == s.interest && !y.inCall
    requires y.phase.CommandReceive? || y.phase.Closed?
    requires y.readBuffer == s.readBuffer && y.clock == s.clock && y.timeNs == s.timeNs && y.processed == s.processed
    ensures ServerOk(y, now)
  {
  }

  lemma RequestIsLine(c: Client.Client)
    requires Asked(c.phase).ReceiveToken? || Asked(c.phase).CommandReceive?
    requires Client.ReadPhase(c.phase) || Client.WritePhase(c.phase)
    ensures IsLine(Request(c))
  {
    hide Show, TokenLine, ChunksLine, TimeLine, ResultLine;
    LinesAreLines(c.token, 0);
    LinesAreLines(c.totalChunks, c.chunkSize);
    LinesAreLines(Client.TEST_SECONDS, c.chunkSize);
    LinesAreLines(c.chunkSize, 0);
  }

  /** Part of a line came in: it is all of the line exactly when it ends in a newline. */
  lemma LineArrives(line: Bytes, had: Bytes, up: Bytes, unsent: Bytes, n: nat)
    requires IsLine(line) && had + up + unsent == line && 0 < n <= |up|
    ensures up[n - 1] == NL <==> had + up[..n] == line
    ensures up[n - 1] == NL ==> up[n..] == [] && unsent == []
    ensures up[n - 1] != NL ==> |had| + n < |line|
    ensures had + up[..n] + up[n..] + unsent == line
  {
    assert line[|had| + n - 1] == up[n - 1];
    assert up == up[..n] + up[n..];
    if up[n - 1] == NL {
      assert |had| + n == |line|;
      assert had + up[..n] == line;
    }
  }

  lemma StoreText(buffer: Bytes, pos: nat, data: Bytes)
    requires pos + |data| <= |buffer|
    ensures Store(buffer, pos, data)[..pos + |data|] == buffer[..pos] + data
  {
  }

  /** A fragment of a request that does not complete it. */
  lemma ServerReadPart(c: Client.Client, s: Server.Server, up: Bytes, n: nat)
    requires Asking(c, s, up, []) && (s.phase.ReceiveToken? || s.phase.CommandReceive?)
    requires 0 < n <= |up| && s.readPos + n <= |s.readBuffer| && up[n - 1] != NL && IsLine(Request(c))
    ensures Asking(c, Server.GotText(s, up[..n]), up[n..], [])
  {
    hide Request, Unsent, IsLine, Asked;
    LineArrives(Request(c), SText(s), up, Unsent(c), n);
  }

  /** The whole request line is in: nothing is left in flight and the client waits. */
  lemma RequestDone(c: Client.Client, s: Server.Server, up: Bytes, n: nat)
    requires Asking(c, s, up, []) && (s.phase.ReceiveToken? || s.phase.CommandReceive?) && !Client.DonePhase(c.phase)
    requires 0 < n <= |up| && s.readPos + n <= |s.readBuffer| && up[n - 1] == NL && IsLine(Request(c))
    ensures up[n..] == [] && Client.ReadPhase(c.phase) && c.readPos == 0 && c.writePos == 0
    ensures var r := Server.GotText(s, up[..n]); r.readBuffer[..r.readPos] == Request(c)
  {
    hide Request, IsLine;
    LineArrives(Request(c), SText(s), up, Unsent(c), n);
    StoreText(s.readBuffer, s.readPos, up[..n]);
  }

  /** What the server makes of the request of each client phase. */
  function Answered(c: Client.Client): Command {
    match c.phase
    case ChunksReceiveChunk => GetChunks(c.totalChunks, c.chunkSize)
    case PingReceivePong => Ping
    case TimeReceiveChunk => GetTime(Client.TEST_SECONDS, c.chunkSize)
    case PerfReceiveOk => PutTimeResult(c.chunkSize)
    case _ => Ignored
  }

  lemma RequestParses(c: Client.Client)
    requires Client.ReadPhase(c.phase) && Asked(c.phase).CommandReceive?
    requires InRange(c.chunkSize) && c.totalChunks < U64
    ensures ParseCommand(Request(c)) == Answered(c) && !Answered(c).Ignored?
  {
    hide ParseCommand, ChunksLine, TimeLine, ResultLine;
    match c.phase {
      case ChunksReceiveChunk => ParsesGetChunks(c.totalChunks, c.chunkSize);
      case PingReceivePong => ParsesPing();
      case TimeReceiveChunk => ParsesGetTime(Client.TEST_SECONDS, c.chunkSize);
      case PerfReceiveOk => ParsesPutTimeResult(c.chunkSize);
    }
  }

  /** A fresh answer: nothing in flight, and the promise is the whole reply. */
  lemma StartsAnswer(t: Tables, c: Client.Client, y: Server.Server)
    requires Answers(c.phase, y.phase) && y.readPos == 0 && y.writePos == 0 && c.readPos == 0 && c.writePos == 0
    requires Promise(t, y) == Reply(c.phase, Server.TimeOf(y)) && Server.TimeOf(y) < U64
    requires TextPhase(y.phase)
    ensures Answering(t, c, y, [], [])
  {
    hide Promise, Reply, Server.Message;
    MessageNonempty(t, y);
    ReplyNonempty(c.phase, Server.TimeOf(y));
    assert CText(c) == [];
  }

  lemma ReplyNonempty(p: Client.Phase, time: nat)
    requires p.ReceiveGreeting? || p.ReceiveResponse? || p.ChunksReceiveTime? || p.PingReceiveTime?
        || p.TimeReceiveTime?
      || p.PingReceivePong? || p.PerfReceiveOk?
    ensures |Reply(p, time)| > 0
  {
    hide Time;
    assert |OK| == 3 && |PONG| == 5;
  }

  lemma StartsPromise(t: Tables, y: Server.Server)
    requires y.writePos == 0
    ensures y.phase.SendOk? ==> Promise(t, y) == OK + CHUNK_SIZES + ACCEPT
    ensures y.phase.PongSend? ==> Promise(t, y) == PONG
    ensures y.phase.ResultSendOk? ==> Promise(t, y) == OK
    ensures y.phase.ChunksSendTime? || y.phase.TimeSendTime? || y.phase.PingSendTime? ==>
        Promise(t, y) == Time(Server.TimeOf(y)) + ACCEPT
  {
    hide Rest, B, Time, TimeBytes, TimeResult, Server.Overlay, Server.TableChunk, Server.TimeChunk,
      Server.TimeLastChunk;
    RestStart(t, y);
  }

  lemma TokenAnswered(cfg: Config, c: Client.Client, s: Server.Server, up: Bytes, n: nat, now: nat)
    requires Asking(c, s, up, []) && s.phase.ReceiveToken? && CanRead(s, up, n) && up[n - 1] == NL
        && Server.TimeOf(s) < U64
    ensures Answering(cfg.server, c, Server.Got(s, up[..n], now), up[n..], []) && c.phase.ReceiveResponse?
    ensures Server.Got(s, up[..n], now).phase.SendOk?
  {
    hide Request, Promise, Reply, Server.TimeOf, IsLine;
    RequestIsLine(c);
    RequestDone(c, s, up, n);
    var y := Server.Got(s, up[..n], now);
    assert Server.TimeOf(y) == Server.TimeOf(s) by { SameTime(s, y); }
    StartsPromise(cfg.server, y);
    assert Reply(c.phase, Server.TimeOf(y)) ==
        OK + CHUNK_SIZES + ACCEPT by { ReplyOfResponse(c.phase, Server.TimeOf(y)); }
    StartsAnswer(cfg.server, c, y);
  }

  lemma SameTime(s: Server.Server, y: Server.Server)
    requires s.timeNs == y.timeNs
    ensures Server.TimeOf(s) == Server.TimeOf(y)
  {
  }

  lemma ReplyOfResponse(p: Client.Phase, time: nat)
    ensures p.ReceiveResponse? ==> Reply(p, time) == OK + CHUNK_SIZES + ACCEPT
    ensures p.PingReceivePong? ==> Reply(p, time) == PONG
    ensures p.PerfReceiveOk? ==> Reply(p, time) == OK
    ensures p.ChunksReceiveTime? || p.PingReceiveTime? || p.TimeReceiveTime? ==> Reply(p, time) == Time(time) + ACCEPT
  {
    hide Time, B;
  }

  lemma CommandApplied(c: Client.Client, s: Server.Server, up: Bytes, n: nat, now: nat)
    requires Asking(c, s, up, []) && s.phase.CommandReceive? && CanRead(s, up, n) && up[n - 1] == NL
        && !Client.DonePhase(c.phase)
    requires InRange(c.chunkSize) && c.totalChunks < U64
    ensures up[n..] == [] && Client.ReadPhase(c.phase) && c.readPos == 0 && c.writePos == 0
    ensures Server.Got(s, up[..n], now) == Server.Apply(Server.GotText(s, up[..n]), Answered(c))
        && !Answered(c).Ignored?
  {
    hide Request, IsLine, ParseCommand, Server.Apply;
    RequestIsLine(c);
    RequestDone(c, s, up, n);
    RequestParses(c);
  }

  /** PING and PUTTIMERESULT are answered by a text at once. */
  lemma CommandAnswered(cfg: Config, c: Client.Client, s: Server.Server, up: Bytes, n: nat, now: nat)
    requires Asking(c, s, up, []) && s.phase.CommandReceive? && CanRead(s, up, n) && up[n - 1] == NL
    requires c.phase.PingReceivePong? || c.phase.PerfReceiveOk?
    requires InRange(c.chunkSize) && c.totalChunks < U64 && Server.TimeOf(s) < U64
    ensures var y := Server.Got(s, up[..n], now);
      Answering(cfg.server, c, y, up[n..], []) && !y.phase.CommandReceive? && !y.phase.ResultReceive?
          && (c.phase.PerfReceiveOk? ==> y.chunkSize == c.chunkSize)
  {
    hide Request, IsLine, Promise, Reply, Server.Got;
    CommandApplied(c, s, up, n, now);
    var y := Server.Got(s, up[..n], now);
    SameTime(s, y);
    StartsPromise(cfg.server, y);
    ReplyOfResponse(c.phase, Server.TimeOf(y));
    StartsAnswer(cfg.server, c, y);
  }

  /** GETCHUNKS and GETTIME start a chunk stream. */
  lemma CommandStreams(cfg: Config, c: Client.Client, s: Server.Server, up: Bytes, n: nat, now: nat)
    requires ValidTables(cfg.server) && ServerOk(s, now)
    requires Asking(c, s, up, []) && s.phase.CommandReceive? && CanRead(s, up, n) && up[n - 1] == NL
    requires (c.phase.ChunksReceiveChunk? || c.phase.TimeReceiveChunk?) && |c.chunkBuffer| == c.chunkSize
    requires InRange(c.chunkSize) && c.chunkSize in SIZES && 0 < c.totalChunks < U64
    ensures var y := Server.Got(s, up[..n], now);
      Downloading(cfg, c, y, up[n..], [], Count(0, 0, 0)) && !y.phase.CommandReceive?
  {
    hide Request, IsLine, Server.Got;
    CommandApplied(c, s, up, n, now);
    assert cfg.server.zero[c.chunkSize][..0] == [];
  }

  /** The client's OK, which travels in one piece. */
  lemma OkAnswered(cfg: Config, c: Client.Client, s: Server.Server, up: Bytes, n: nat, now: nat)
    requires Asking(c, s, up, []) && Server.Atomic(s.phase) && CanRead(s, up, n) && s.clock.Some? && now < U64
    ensures Answering(cfg.server, c, Server.Got(s, up[..n], now), up[n..], [])
    ensures Answers(c.phase, Server.Got(s, up[..n], now).phase) && !Client.DonePhase(c.phase)
  {
    hide Promise, Reply, B;
    OkArrives(c, s, up);
    var y := Server.Got(s, up[..n], now);
    assert up[..n] == OK;
    StoreText(s.readBuffer, 0, OK);
    assert y.phase ==
        (match s.phase
         case ChunksReceiveOk => Server.ChunksSendTime
         case TimeReceiveOk => Server.TimeSendTime
         case _ => Server.PingSendTime);
    StartsPromise(cfg.server, y);
    ReplyOfResponse(c.phase, Server.TimeOf(y));
    StartsAnswer(cfg.server, c, y);
  }

  lemma OkArrives(c: Client.Client, s: Server.Server, up: Bytes)
    requires Asking(c, s, up, []) && Server.Atomic(s.phase) && Server.ReadPhase(s.phase) && up != []
    ensures up == OK && Client.ReadPhase(c.phase) && c.readPos == 0 && c.writePos == 0
  {
    hide B;
    assert |OK| == 3;
    assert SText(s) == [];
  }

  lemma PartRead(x: Sess, n: nat)
    requires (x.s.phase.ReceiveToken? || x.s.phase.CommandReceive?) && CanRead(x.s, x.up, n) && x.up[n - 1] != NL
    ensures AfterServerRead(x, n) == x.(up := x.up[n..], s := Server.GotText(x.s, x.up[..n]))
  {
    hide ParseCommand, Server.Apply;
  }

  lemma WholeRead(x: Sess, n: nat)
    requires CanRead(x.s, x.up, n) && !x.s.phase.ResultReceive?
    ensures var y := Server.Got(x.s, x.up[..n], x.now);
      AfterServerRead(x, n) ==
          x.(up := x.up[n..], s := y, k := if x.s.phase.CommandReceive?
          && !y.phase.CommandReceive? then Count(0, 0, 0) else x.k)
  {
    hide Server.Got, CanRead;
    assert CanRead(x.s, x.up, n);
  }

  lemma ServerReadAsking(cfg: Config, x: Sess, n: nat)
    requires Inv(cfg, x) && CanRead(x.s, x.up, n) && Asking(x.c, x.s, x.up, x.down) && !Client.DonePhase(x.c.phase)
    requires x.c.chunkSize in SIZES && InRange(x.c.chunkSize) && 0 < x.c.totalChunks < U64 && Server.TimeOf(x.s) < U64
    ensures Paired(cfg, AfterServerRead(x, n))
  {
    hide Asking, Answering, Downloading, Uploading, Request, Server.Got, OnRamp, CanRead, Server.GotText, Series;
    var c, s, up := x.c, x.s, x.up;
    AskingPhases(c, s, up, x.down);
    CanReadPhase(s, up, n);
    if Server.Atomic(s.phase) {
      OkAnswered(cfg, c, s, up, n, x.now);
      WholeRead(x, n);
    } else if up[n - 1] != NL {
      RequestIsLine(c);
      ServerReadPart(c, s, up, n);
      PartRead(x, n);
      GotTextPhase(s, up[..n]);
    } else {
      WholeRead(x, n);
      if s.phase.ReceiveToken? {
        TokenAnswered(cfg, c, s, up, n, x.now);
      } else if c.phase.ChunksReceiveChunk? || c.phase.TimeReceiveChunk? {
        CommandStreams(cfg, c, s, up, n, x.now);
        SeriesEmpty(c.chunkSize, Client.Elapsed(c, x.now));
      } else {
        CommandAsker(c, s, up, n);
        CommandAnswered(cfg, c, s, up, n, x.now);
      }
    }
  }

  lemma SeriesEmpty(size: nat, latest: nat)
    ensures Series([], size, latest)
  {
  }

  lemma GotTextPhase(s: Server.Server, data: Bytes)
    requires s.readPos + |data| <= |s.readBuffer|
    ensures Server.GotText(s, data).phase == s.phase
  {
  }

  lemma AskingPhases(c: Client.Client, s: Server.Server, up: Bytes, down: Bytes)
    requires Asking(c, s, up, down)
    ensures down == [] && s.phase == Asked(c.phase)
    ensures (c.phase.ReceiveGreeting? || c.phase.PerfSendChunks? || c.phase.PerfSendLast? || c.phase.PerfReceiveTime?
        || c.phase.PerfCompleted?) ==> s.phase.Closed?
  {
  }

  lemma CanReadPhase(s: Server.Server, up: Bytes, n: nat)
    requires CanRead(s, up, n)
    ensures Server.ReadPhase(s.phase) && 0 < n <= |up|
        && (s.phase.ReceiveToken? || s.phase.CommandReceive? ==> s.readPos + n <= |s.readBuffer|)
  {
  }

  /** A command that is complete has been sent by a client that now waits for its answer. */
  lemma CommandAsker(c: Client.Client, s: Server.Server, up: Bytes, n: nat)
    requires Asking(c, s, up, []) && s.phase.CommandReceive? && CanRead(s, up, n) && up[n - 1] == NL
        && !Client.DonePhase(c.phase)
    ensures c.phase.ChunksReceiveChunk? || c.phase.TimeReceiveChunk? || c.phase.PingReceivePong?
        || c.phase.PerfReceiveOk?
  {
    hide Request, IsLine;
    RequestIsLine(c);
    RequestDone(c, s, up, n);
  }

  // ----- the server takes in upload data

  lemma SeriesSnoc(ps: seq<Sample>, size: nat, t: nat, b: nat, latest: nat)
    requires Series(ps, size, latest) && t == latest && b == (|ps| + 1) * size
    ensures Series(ps + [(t, b)], size, latest)
  {
  }

  lemma PartialShort(chunks: (Bytes, Bytes), last: bool, pos: nat, size: nat)
    requires |chunks.0| == size && |chunks.1| == size && pos < size
    ensures |Partial(chunks, last, false, pos)| == pos
  {
  }

  /** What the chunk buffer and the wire hold after a read of upload data. */
  lemma UpFrame(cfg: Config, c: Client.Client, s: Server.Server, up: Bytes, k: Count, n: nat)
    requires ValidTables(cfg.client) && Uploading(cfg, c, s, up, [], k) && CanRead(s, up, n)
    requires c.phase.PerfSendChunks? || c.phase.PerfSendLast? || c.phase.PerfReceiveTime?
    ensures var (z, b) := (cfg.client.zero[c.chunkSize], Store(s.chunkBuffer, s.readPos, up[..n]));
      && s.readPos + n <= s.chunkSize
      && b[..s.readPos + n] + up[n..] == Rep(z, k.inTransit) + SentUp(cfg, c)
      && (s.readPos + n == s.chunkSize && k.inTransit > 0 ==>
          b == z && up[n..] == Rep(z, k.inTransit - 1) + SentUp(cfg, c))
      && (s.readPos + n == s.chunkSize && k.inTransit == 0 ==>
          b == cfg.client.last[c.chunkSize] && up[n..] == [] && c.phase.PerfReceiveTime?)
  {
    hide Rep;
    var z, f := cfg.client.zero[c.chunkSize], cfg.client.last[c.chunkSize];
    assert |z| == c.chunkSize && |f| == c.chunkSize;
    if !c.phase.PerfReceiveTime? {
      PartialShort((z, f), c.phase.PerfSendLast?, c.writePos, c.chunkSize);
    }
    ReceiveFrame(z, k.inTransit, SentUp(cfg, c), s.chunkBuffer[..s.readPos], up, up[..n]);
    var b := Store(s.chunkBuffer, s.readPos, up[..n]);
    assert s.readPos + n == s.chunkSize ==> b[..s.readPos + n] == b;
  }

  /** The effect of a read in the upload phase, by what it completes. */
  lemma GotUpload(s: Server.Server, data: Bytes, now: nat)
    requires s.phase.ResultReceive? && 0 < |data| <= Server.Room(s) && s.readPos <= |s.chunkBuffer| == s.chunkSize
    ensures var (y, b) := (Server.Got(s, data, now), Store(s.chunkBuffer, s.readPos, data));
      && y.chunkBuffer == b && y.totalBytes == s.totalBytes + |data| && y.chunkSize == s.chunkSize && y.clock == s.clock
      && (s.writePos == 0 ==> y.writePos == 0)
      && (s.readPos + |data| < s.chunkSize ==>
          y.phase == s.phase && y.received == s.received && y.readPos == s.readPos + |data|)
      && (s.readPos + |data| == s.chunkSize ==>
          && y.received == s.received + [(Server.Elapsed(s, now), y.totalBytes)]
          && (b[s.chunkSize - 1] == 0 ==> y.phase == s.phase && y.readPos == 0)
          && (b[s.chunkSize - 1] == 255 ==> y.phase.ResultSend? && y.readPos == 0 && y.writePos == 0))
  {
  }

  lemma UploadPart(cfg: Config, c: Client.Client, s: Server.Server, up: Bytes, k: Count, n: nat, now: nat)
    requires ValidTables(cfg.client) && Uploading(cfg, c, s, up, [], k) && CanRead(s, up, n) && ResultCounts(s, k, now)
    requires c.phase.PerfSendChunks? || c.phase.PerfSendLast? || c.phase.PerfReceiveTime?
    requires s.readPos + n < s.chunkSize
    ensures var y := Server.Got(s, up[..n], now); Uploading(cfg, c, y, up[n..], [], k) && ResultCounts(y, k, now)
  {
    hide Server.Got, SentUp, Rep, Series, ValidTables;
    UpFrame(cfg, c, s, up, k, n);
    GotUpload(s, up[..n], now);
    SameElapsed(s, Server.Got(s, up[..n], now), now);
  }

  lemma SameElapsed(s: Server.Server, y: Server.Server, now: nat)
    requires s.clock == y.clock
    ensures Server.Elapsed(s, now) == Server.Elapsed(y, now)
  {
  }

  lemma UploadRow(s: Server.Server, k: Count, data: Bytes, now: nat)
    requires s.phase.ResultReceive? && 0 < |data| <= Server.Room(s) && s.readPos <= |s.chunkBuffer| == s.chunkSize
    requires ResultCounts(s, k, now) && s.readPos + |data| == s.chunkSize
    ensures var y := Server.Got(s, data, now);
      && |y.received| == k.consumed + 1 && y.totalBytes == (k.consumed + 1) * s.chunkSize
      && Series(y.received, s.chunkSize, Server.Elapsed(y, now))
  {
    hide Server.Got, Series, Server.Elapsed;
    GotUpload(s, data, now);
    SameElapsed(s, Server.Got(s, data, now), now);
    NextCount(k.consumed, s.chunkSize);
    SeriesSnoc(s.received, s.chunkSize, Server.Elapsed(s, now), s.totalBytes + |data|, Server.Elapsed(s, now));
  }

  lemma UploadChunk(cfg: Config, c: Client.Client, s: Server.Server, up: Bytes, k: Count, n: nat, now: nat)
    requires ValidTables(cfg.client) && Uploading(cfg, c, s, up, [], k) && CanRead(s, up, n) && ResultCounts(s, k, now)
    requires c.phase.PerfSendChunks? || c.phase.PerfSendLast? || c.phase.PerfReceiveTime?
    requires s.readPos + n == s.chunkSize && k.inTransit > 0
    ensures var y := Server.Got(s, up[..n], now);
        Uploading(cfg, c, y, up[n..], [], Took(k)) && ResultCounts(y, Took(k), now)
  {
    hide Server.Got, SentUp, Rep, Series;
    UpFrame(cfg, c, s, up, k, n);
    GotUpload(s, up[..n], now);
    UploadRow(s, k, up[..n], now);
    assert cfg.client.zero[c.chunkSize][c.chunkSize - 1] == 0;
    assert s.chunkBuffer[..0] == [];
  }

  /** The terminal chunk: all bytes the client sent are counted, and the series is complete. */
  lemma UploadEnds(cfg: Config, c: Client.Client, s: Server.Server, up: Bytes, k: Count, n: nat, now: nat)
    requires ValidTables(cfg.client) && Uploading(cfg, c, s, up, [], k) && CanRead(s, up, n) && ResultCounts(s, k, now)
    requires c.phase.PerfSendChunks? || c.phase.PerfSendLast? || c.phase.PerfReceiveTime?
    requires s.readPos + n == s.chunkSize && k.inTransit == 0
    ensures var y := Server.Got(s, up[..n], now);
      && y.phase.ResultSend? && y.readPos == 0 && y.writePos == 0 && up[n..] == [] && c.phase.PerfReceiveTime?
      && c.chunkSize in cfg.client.last && y.chunkBuffer == cfg.client.last[c.chunkSize]
      && y.totalBytes == c.bytesSent == |y.received| * c.chunkSize && |y.received| == k.consumed + 1
      && Series(y.received, c.chunkSize, Server.Elapsed(y, now))
  {
    hide Server.Got, SentUp, Rep, Series;
    UpFrame(cfg, c, s, up, k, n);
    GotUpload(s, up[..n], now);
    UploadRow(s, k, up[..n], now);
    assert cfg.client.last[c.chunkSize][c.chunkSize - 1] == 255;
  }

  lemma ResultStarts(cfg: Config, c: Client.Client, y: Server.Server)
    requires y.phase.ResultSend? && y.readPos == 0 && y.writePos == 0 && y.received != []
    requires c.resultBuffer == [] && c.readPos == 0 && c.uploads == []
    requires c.chunkSize in cfg.client.last && y.chunkBuffer == cfg.client.last[c.chunkSize]
    ensures Resulting(cfg, c, y, [], [], y.received)
  {
    hide TimeResult, Server.Overlay;
    TimeResultNonempty(y.received);
    RestStart(cfg.server, y);
    assert [] + [] + Promise(cfg.server, y) == Promise(cfg.server, y);
  }

  lemma ServerReadUploading(cfg: Config, x: Sess, n: nat)
    requires Inv(cfg, x) && CanRead(x.s, x.up, n) && x.s.phase.ResultReceive?
    requires x.c.phase.PerfSendChunks? || x.c.phase.PerfSendLast? || x.c.phase.PerfReceiveTime?
    ensures Paired(cfg, AfterServerRead(x, n))
  {
    hide Uploading, ResultCounts, Resulting, Server.Got, CanRead, OnRamp, ValidTables, ServerOk, ClientOk;
    var c, s, up, k := x.c, x.s, x.up, x.k;
    UploadingFacts(cfg, c, s, up, x.down, k, n);
    if s.readPos + n < s.chunkSize {
      UploadPart(cfg, c, s, up, k, n, x.now);
      GotUpload(s, up[..n], x.now);
    } else if k.inTransit > 0 {
      UploadChunk(cfg, c, s, up, k, n, x.now);
      UploadingFacts(cfg, c, Server.Got(s, up[..n], x.now), up[n..], [], Took(k), 0);
    } else {
      UploadEnds(cfg, c, s, up, k, n, x.now);
      ResultStarts(cfg, c, Server.Got(s, up[..n], x.now));
    }
  }

  lemma UploadingFacts(cfg: Config, c: Client.Client, s: Server.Server, up: Bytes, down: Bytes, k: Count, n: nat)
    requires Uploading(cfg, c, s, up, down, k)
    ensures down == [] && s.readPos < |s.chunkBuffer| == s.chunkSize && s.phase.ResultReceive? && c.resultBuffer == []
        && c.uploads == [] && c.readPos == 0
    ensures CanRead(s, up, n) ==> 0 < n <= |up| && s.readPos + n <= s.chunkSize && n <= Server.Room(s)
  {
  }

  lemma ReadPairs(cfg: Config, x: Sess, n: nat)
    requires Paired(cfg, x) && CanRead(x.s, x.up, n)
    ensures x.c.phase.PerfSendChunks? || x.c.phase.PerfSendLast? || x.c.phase.PerfReceiveTime? ==>
        x.s.phase.ResultReceive?
    ensures x.c.phase.PerfSendChunks? || x.c.phase.PerfSendLast? || x.c.phase.PerfReceiveTime? ||
      (Asking(x.c, x.s, x.up, x.down) && !Client.DonePhase(x.c.phase))
  {
    hide Server.Room, Promise, Reply, Request, Unsent, SText, CText, SentDown, SentUp, Rep, Parsed, TimeResult, Series,
      UploadReady, ChunkCounts, ResultCounts, WritePosOk;
  }

  lemma GotNotStarted(c: Client.Client, s: Server.Server, data: Bytes, now: nat)
    requires NotStarted(c, s) && Server.ReadPhase(s.phase) && 0 < |data| <= Server.Room(s)
    requires s.phase.ResultReceive? || s.phase.PutReceive? ==> UploadPhase(c.phase)
    requires s.phase.CommandReceive? || !c.phase.TimeReceiveChunk? || c.downloads == []
    ensures NotStarted(c, Server.Got(s, data, now))
  {
    hide ParseCommand, Server.Elapsed, Server.IsOk, Server.Boundary, Server.GotResult, Server.GotPut;
    match s.phase {
      case ReceiveToken =>
      case CommandReceive =>
      case ChunksReceiveOk | TimeReceiveOk | PingReceiveOk =>
      case NoResultReceive =>
      case PutReceive | ResultReceive =>
    }
  }

  lemma ServerReadInv(cfg: Config, x: Sess, n: nat)
    requires Inv(cfg, x) && CanRead(x.s, x.up, n)
    ensures Inv(cfg, AfterServerRead(x, n))
  {
    hide Paired, ValidTables, OnRamp, Server.Got, NotStarted, ServerOk, Asking;
    var c, s, up := x.c, x.s, x.up;
    ReadPairs(cfg, x, n);
    CanReadPhase(s, up, n);
    OnRampInTable(Round(c.totalChunks, c.chunkSize));
    GotOk(s, up[..n], x.now);
    TimeBound(s, x.now);
    if c.phase.PerfSendChunks? || c.phase.PerfSendLast? || c.phase.PerfReceiveTime? {
      ServerReadUploading(cfg, x, n);
    } else {
      AskingPhases(c, s, up, x.down);
      ServerReadAsking(cfg, x, n);
    }
    GotNotStarted(c, s, up[..n], x.now);
  }

  lemma TimeBound(s: Server.Server, now: nat)
    requires ServerOk(s, now)
    ensures Server.TimeOf(s) <= now
  {
  }

  lemma ServerWriteInv(cfg: Config, x: Sess, n: nat)
    requires Inv(cfg, x) && CanWrite(cfg.server, x.s, n) && x.s.inCall
    ensures Inv(cfg, AfterServerWrite(cfg, x, n))
  {
    hide Paired, ValidTables, OnRamp, Server.Wrote, NotStarted, ServerOk, CanWrite, Server.Message, Server.Offer;
    WritePairs(cfg, x, n);
    WroteOk(cfg.server, x.s, n, x.now);
    WroteNotStarted(cfg.server, x.c, x.s, n, x.now);
    ServerWritePaired(cfg, x, n);
  }
}
