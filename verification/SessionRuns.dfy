/** What holds in every state of every run of a session, and what each transfer
    has done when it ends. */
module SessionRuns {
  import opened Text
  import opened Wire
  import opened Chunks
  import opened TimeResults
  import opened Ramp
  import opened Session
  import opened SessionSteps
  import opened SessionClient
  import Server = ServerMachine
  import Client = ClientMachine

  lemma StepInv(cfg: Config, x: Sess, l: Label)
    requires Inv(cfg, x) && Enabled(cfg, x, l)
    ensures Inv(cfg, Step(cfg, x, l))
  {
    hide Inv, CanSend, CanTake, CanWrite, CanRead, AfterClientRead, AfterClientWrite, AfterServerRead, AfterServerWrite,
      Client.Start, Client.Enter, Server.Enter;
    match l {
      case Tick(d) => TickInv(cfg, x, d);
      case StartRun => StartInv(cfg, x);
      case ClientEnter => ClientEnterInv(cfg, x);
      case ServerEnter => ServerEnterInv(cfg, x);
      case ClientWrite(n) => ClientWriteInv(cfg, x, n);
      case ServerWrite(n) => ServerWriteInv(cfg, x, n);
      case ClientRead(n) => ClientReadInv(cfg, x, n);
      case ServerRead(n) => ServerReadInv(cfg, x, n);
    }
  }

  /** The pairing invariant holds in every state of every run. */
  lemma {:induction false} RunInv(cfg: Config, xs: seq<Sess>, ls: seq<Label>, i: nat)
    requires Run(cfg, xs, ls) && i < |xs|
    ensures Inv(cfg, xs[i])
  {
    hide Inv, Initial, Enabled, Step;
    if i == 0 {
      InitialInv(cfg, xs[0]);
    } else {
      RunInv(cfg, xs, ls, i - 1);
      StepInv(cfg, xs[i - 1], ls[i - 1]);
    }
  }

  // ----- no deadlock

  /** The session is over: the upload result is in and the server waits for a command. */
  predicate Over(x: Sess) { x.c.phase.PerfCompleted? && x.s.phase.CommandReceive? && x.up == [] }

  predicate Moves(l: Label) { l.StartRun? || l.ClientWrite? || l.ClientRead? || l.ServerWrite? || l.ServerRead? }

  /** The server's handler is called, and once more if that only changed its phase. */
  function Called(cfg: Config, x: Sess): Sess {
    x.(s := Server.Enter(cfg.server, Server.Enter(cfg.server, x.s, x.now), x.now))
  }

  ghost predicate CanMove(cfg: Config, x: Sess) { exists l :: Moves(l) && Enabled(cfg, x, l) }

  lemma RequestLength(c: Client.Client)
    requires c.chunkSize < U64 && c.totalChunks < U64
    ensures |Request(c)| <= 100
  {
    ShowLengthU64(c.token);
    ShowLengthU64(c.chunkSize);
    ShowLengthU64(c.totalChunks);
    ShowLengthU64(Client.TEST_SECONDS);
  }

  lemma ReplyLength(p: Client.Phase, time: nat)
    requires time < U64
    ensures |Reply(p, time)| <= 200 && (p.PingReceivePong? ==> |Reply(p, time)| == 5)
  {
    ShowLengthU64(time);
    AcceptMarker();
    TokenMarker();
  }

  lemma WriterMoves(cfg: Config, x: Sess)
    requires Inv(cfg, x) && Client.WritePhase(x.c.phase)
    ensures exists n :: CanSend(cfg.client, x.c, n)
  {
    hide Client.Message, OnRamp, Asking, Uploading, ServerOk, ClientOk, NotStarted, ResultCounts;
    if DataPhase(x.c.phase) {
      assert Uploading(cfg, x.c, x.s, x.up, x.down, x.k);
      UploadRoom(cfg, x.c, x.s, x.up, x.down, x.k);
      UpMessage(cfg, x.c);
    } else {
      assert Asking(x.c, x.s, x.up, x.down);
      AskingRoom(x.c, x.s, x.up, x.down);
      MessageIsRequest(cfg.client, x.c);
    }
    assert CanSend(cfg.client, x.c, |Client.Offer(cfg.client, x.c)|);
  }

  lemma AskingRoom(c: Client.Client, s: Server.Server, up: Bytes, down: Bytes)
    requires Asking(c, s, up, down)
    ensures Client.WritePhase(c.phase) ==> c.writePos < |Request(c)|
    ensures !Client.WritePhase(c.phase) ==> up != []
    ensures s.readPos < |Request(c)|
  {
    assert SText(s) + [] + [] == SText(s);
  }

  lemma UploadRoom(cfg: Config, c: Client.Client, s: Server.Server, up: Bytes, down: Bytes, k: Count)
    requires Uploading(cfg, c, s, up, down, k)
    ensures c.phase.PerfReceiveTime? || c.writePos < c.chunkSize
    ensures c.chunkSize in cfg.client.zero && c.chunkSize in cfg.client.last
  {
  }

  lemma ReaderTakes(cfg: Config, x: Sess)
    requires Inv(cfg, x) && Client.ReadPhase(x.c.phase) && x.down != []
    ensures exists n :: CanTake(x.c, x.down, n)
  {
    hide OnRamp, Asking, Answering, Downloading, Uploading, Resulting, ServerOk, NotStarted, ResultCounts,
      TimeCounts, UploadReady, Parsed, Series;
    var c, s, down := x.c, x.s, x.down;
    DownOwner(cfg, x);
    if c.phase.PerfReceiveOk? {
      OkWhole(cfg.server, c, s, x.up, down);
      assert CanTake(c, down, |down|);
    } else {
      if Collects(c.phase) {
        AnswerRoom(cfg.server, c, s, x.up, down);
      } else if c.phase.PerfReceiveTime? {
        ResultRoom(cfg, c, s, x.up, down, x.series);
      } else {
        DownloadRoom(cfg, c, s, x.up, down, x.k);
      }
      var n := if |down| <= Client.Room(c) then |down| else Client.Room(c);
      assert CanTake(c, down, n);
    }
  }

  /** Who put the bytes on the wire that the client reads. */
  lemma DownOwner(cfg: Config, x: Sess)
    requires Paired(cfg, x) && x.down != []
    ensures x.c.phase.PerfReceiveOk? || Collects(x.c.phase) ==> Answering(cfg.server, x.c, x.s, x.up, x.down)
    ensures x.c.phase.PerfReceiveTime? ==> Resulting(cfg, x.c, x.s, x.up, x.down, x.series)
    ensures x.c.phase.ChunksReceiveChunk? || x.c.phase.TimeReceiveChunk? ==>
        Downloading(cfg, x.c, x.s, x.up, x.down, x.k)
  {
    hide Answering, Downloading, Resulting, ResultCounts, TimeCounts, UploadReady, Parsed, AfterUpload;
  }

  lemma OkWhole(t: Tables, c: Client.Client, s: Server.Server, up: Bytes, down: Bytes)
    requires c.phase.PerfReceiveOk? && Answering(t, c, s, up, down) && down != []
    ensures down == OK && c.readPos == 0 && Client.Room(c) == 3
  {
    OkPromise(t, s);
    assert CText(c) == [];
    assert down + Promise(t, s) == OK;
  }

  lemma AnswerRoom(t: Tables, c: Client.Client, s: Server.Server, up: Bytes, down: Bytes)
    requires Collects(c.phase) && Answering(t, c, s, up, down) && |c.readBuffer| == 8192
    ensures Client.Room(c) > 0
  {
    ReplyLength(c.phase, Server.TimeOf(s));
  }

  lemma ResultRoom(cfg: Config, c: Client.Client, s: Server.Server, up: Bytes, down: Bytes, series: seq<Sample>)
    requires c.phase.PerfReceiveTime? && Resulting(cfg, c, s, up, down, series) && |c.readBuffer| == 8192
    ensures Client.Room(c) > 0
  {
    hide TimeResult, Promise, EndsWith, AfterUpload;
  }

  lemma DownloadRoom(cfg: Config, c: Client.Client, s: Server.Server, up: Bytes, down: Bytes, k: Count)
    requires Downloading(cfg, c, s, up, down, k)
    ensures Client.Room(c) > 0 && Client.ReadPhase(c.phase) && !Client.Atomic(c.phase)
  {
  }

  lemma ServerTakes(cfg: Config, x: Sess)
    requires Inv(cfg, x) && Server.ReadPhase(x.s.phase) && x.up != []
    ensures exists n :: CanRead(x.s, x.up, n)
  {
    hide OnRamp, Asking, Answering, Downloading, Uploading, Resulting, NotStarted, ResultCounts, TimeCounts,
      UploadReady, Parsed, Series, AfterUpload;
    var c, s, up := x.c, x.s, x.up;
    UpOwner(cfg, x);
    if s.phase.ResultReceive? {
      UploadingFacts(cfg, c, s, up, x.down, x.k, 0);
    } else {
      OnRampInTable(Round(c.totalChunks, c.chunkSize));
      RequestLength(c);
      AskingRoom(c, s, up, x.down);
      AskingPhases(c, s, up, x.down);
    }
    var n := if |up| <= Server.Room(s) || Server.Atomic(s.phase) then |up| else Server.Room(s);
    if Server.Atomic(s.phase) {
      AskedLength(c, s, up, x.down);
    }
    assert CanRead(s, up, n);
  }

  lemma AskedLength(c: Client.Client, s: Server.Server, up: Bytes, down: Bytes)
    requires Asking(c, s, up, down)
    ensures |up| <= |Request(c)| && (Server.Atomic(s.phase) ==> s.readPos == 0)
  {
    assert |up| <= |SText(s) + up + Unsent(c)|;
  }

  lemma UpOwner(cfg: Config, x: Sess)
    requires Paired(cfg, x) && x.up != []
    ensures x.s.phase.ResultReceive? ==> Uploading(cfg, x.c, x.s, x.up, x.down, x.k)
    ensures !x.s.phase.ResultReceive? ==> Asking(x.c, x.s, x.up, x.down)
  {
    hide ResultCounts, TimeCounts, UploadReady, Parsed, Request, Unsent, SText, CText, Reply, Promise, SentUp,
      SentDown, Rep, Series;
  }

  lemma ServerSends(cfg: Config, x: Sess)
    requires Inv(cfg, x) && Server.WritePhase(x.s.phase) && x.s.inCall
    ensures exists n :: CanWrite(cfg.server, x.s, n)
  {
    hide Answering, Downloading, AfterUpload, OnRamp, NotStarted, ServerOk, ClientOk, Server.Message, TimeCounts,
      UploadReady;
    var c, s := x.c, x.s;
    WriteOwner(cfg, x);
    if c.phase.ChunksReceiveChunk? || c.phase.TimeReceiveChunk? {
      DownMessageRoom(cfg, c, s, x.up, x.down, x.k);
    } else if !c.phase.PerfReceiveTime? && !c.phase.PerfCompleted? {
      AnsweringRoom(cfg.server, c, s, x.up, x.down);
    } else {
      AfterRoom(cfg.server, s, x.up, x.series);
    }
    assert CanWrite(cfg.server, s, |Server.Offer(cfg.server, s)|);
  }

  lemma WriteOwner(cfg: Config, x: Sess)
    requires Paired(cfg, x) && Server.WritePhase(x.s.phase)
    ensures x.c.phase.PerfReceiveTime? || x.c.phase.PerfCompleted? ==> AfterUpload(cfg.server, x.s, x.up, x.series)
    ensures x.c.phase.ChunksReceiveChunk? || x.c.phase.TimeReceiveChunk? ==>
        Downloading(cfg, x.c, x.s, x.up, x.down, x.k)
    ensures x.c.phase.PerfReceiveTime? || x.c.phase.PerfCompleted? || x.c.phase.ChunksReceiveChunk?
        || x.c.phase.TimeReceiveChunk?
      || Answering(cfg.server, x.c, x.s, x.up, x.down)
  {
    hide ResultCounts, TimeCounts, UploadReady, Parsed, Request, Unsent, SText, CText, Reply, Promise, SentUp,
      SentDown, Rep, Series, WritePosOk;
  }

  lemma DownMessageRoom(cfg: Config, c: Client.Client, s: Server.Server, up: Bytes, down: Bytes, k: Count)
    requires ValidTables(cfg.server) && Downloading(cfg, c, s, up, down, k) && Server.WritePhase(s.phase)
    ensures s.writePos < |Server.Message(cfg.server, s)|
  {
    DownChunks(cfg, s);
  }

  lemma AnsweringRoom(t: Tables, c: Client.Client, s: Server.Server, up: Bytes, down: Bytes)
    requires Answering(t, c, s, up, down) && Server.WritePhase(s.phase)
    ensures s.writePos < |Server.Message(t, s)|
  {
    hide Server.Message, Promise, Reply;
  }

  lemma AfterRoom(t: Tables, s: Server.Server, up: Bytes, series: seq<Sample>)
    requires AfterUpload(t, s, up, series) && Server.WritePhase(s.phase)
    ensures s.writePos < |Server.Message(t, s)|
  {
    hide Server.Message;
  }

  lemma AnswerOnWire(t: Tables, c: Client.Client, s: Server.Server, up: Bytes, down: Bytes)
    requires Answering(t, c, s, up, down) && Server.ReadPhase(s.phase)
    ensures down != []
  {
    hide Reply;
    assert CText(c) + [] + [] == CText(c);
  }

  lemma DownloadOnWire(cfg: Config, c: Client.Client, s: Server.Server, up: Bytes, down: Bytes, k: Count)
    requires ValidTables(cfg.server) && Downloading(cfg, c, s, up, down, k) && Server.ReadPhase(s.phase)
    ensures down != []
  {
    hide Rep;
    DownChunks(cfg, s);
    assert |c.chunkBuffer[..c.readPos] + []| < c.chunkSize;
  }

  lemma UploadOnWire(cfg: Config, c: Client.Client, s: Server.Server, up: Bytes, down: Bytes, k: Count)
    requires ValidTables(cfg.client) && Uploading(cfg, c, s, up, down, k) && c.phase.PerfReceiveTime?
    ensures up != []
  {
    hide Rep;
    assert |s.chunkBuffer[..s.readPos] + []| < s.chunkSize;
  }

  lemma ResultOnWire(cfg: Config, c: Client.Client, s: Server.Server, up: Bytes, down: Bytes, series: seq<Sample>)
    requires Resulting(cfg, c, s, up, down, series) && Server.ReadPhase(s.phase)
    ensures down != []
  {
    hide Report;
    ReportShape(cfg.client, c.chunkSize, series);
    assert c.resultBuffer + [] + [] == c.resultBuffer;
  }

  /** The two sides never both wait to read on empty channels. */
  lemma NeverBothWait(cfg: Config, x: Sess)
    requires Inv(cfg, x) && Client.ReadPhase(x.c.phase) && Server.ReadPhase(x.s.phase)
    ensures x.up != [] || x.down != []
  {
    hide OnRamp, ServerOk, ClientOk, NotStarted, ResultCounts, TimeCounts, UploadReady, Parsed, Asking, Answering,
      Downloading, Uploading, Resulting;
    var c, s := x.c, x.s;
    WaitOwner(cfg, x);
    if Asking(c, s, x.up, x.down) {
      AskingRoom(c, s, x.up, x.down);
    } else if c.phase.PerfReceiveTime? {
      if s.phase.ResultReceive? {
        UploadOnWire(cfg, c, s, x.up, x.down, x.k);
      } else {
        ResultOnWire(cfg, c, s, x.up, x.down, x.series);
      }
    } else if Answering(cfg.server, c, s, x.up, x.down) {
      AnswerOnWire(cfg.server, c, s, x.up, x.down);
    } else {
      DownloadOnWire(cfg, c, s, x.up, x.down, x.k);
    }
  }

  lemma WaitOwner(cfg: Config, x: Sess)
    requires Paired(cfg, x) && Client.ReadPhase(x.c.phase)
    ensures x.c.phase.PerfReceiveTime? ==>
              if x.s.phase.ResultReceive? then Uploading(cfg, x.c, x.s, x.up, x.down, x.k)
                  else Resulting(cfg, x.c, x.s, x.up, x.down, x.series)
    ensures !x.c.phase.PerfReceiveTime? ==>
              Asking(x.c, x.s, x.up, x.down) || Answering(cfg.server, x.c, x.s, x.up, x.down)
                  || Downloading(cfg, x.c, x.s, x.up, x.down, x.k)
  {
    hide ResultCounts, TimeCounts, UploadReady, Parsed, Asking, Answering, Downloading, Uploading, Resulting;
  }

  lemma CalledCalls(t: Tables, s: Server.Server, now: nat)
    requires Server.WritePhase(s.phase)
    ensures var y := Server.Enter(t, Server.Enter(t, s, now), now); Server.WritePhase(y.phase) && y.inCall
  {
    hide Server.Elapsed, Server.Overlay, TimeResult, Server.Fresh;
  }

  /** No deadlock: in every reachable state the session is over, or a thread can
      start its next run, or one side can read or write, if need be once the
      server's handler has been called. */
  lemma Progress(cfg: Config, x: Sess)
    requires Inv(cfg, x)
    ensures Over(x) || CanMove(cfg, x) || (Server.WritePhase(x.s.phase) && CanMove(cfg, Called(cfg, x)))
  {
    hide Inv, Paired, CanSend, CanTake, CanWrite, CanRead, Server.Enter, Called;
    if Client.WritePhase(x.c.phase) {
      WriterMoves(cfg, x);
      var n :| CanSend(cfg.client, x.c, n);
      assert Enabled(cfg, x, ClientWrite(n));
    } else if Client.DonePhase(x.c.phase) && !x.c.phase.PerfCompleted? {
      assert Enabled(cfg, x, StartRun);
    } else if Server.WritePhase(x.s.phase) {
      CalledMoves(cfg, x);
    } else if x.c.phase.PerfCompleted? {
      EndsOver(cfg, x);
    } else {
      NeverClosed(cfg, x);
      NeverBothWait(cfg, x);
      if x.down != [] {
        ReaderTakes(cfg, x);
        var n :| CanTake(x.c, x.down, n);
        assert Enabled(cfg, x, ClientRead(n));
      } else {
        ServerTakes(cfg, x);
        var n :| CanRead(x.s, x.up, n);
        assert Enabled(cfg, x, ServerRead(n));
      }
    }
  }

  lemma CalledMoves(cfg: Config, x: Sess)
    requires Inv(cfg, x) && Server.WritePhase(x.s.phase)
    ensures CanMove(cfg, Called(cfg, x))
  {
    hide Inv, CanWrite, Server.Enter;
    var y := x.(s := Server.Enter(cfg.server, x.s, x.now));
    ServerEnterInv(cfg, x);
    ServerEnterInv(cfg, y);
    CalledCalls(cfg.server, x.s, x.now);
    assert Called(cfg, x) == y.(s := Server.Enter(cfg.server, y.s, y.now));
    ServerSends(cfg, Called(cfg, x));
    var n :| CanWrite(cfg.server, Called(cfg, x).s, n);
    assert Enabled(cfg, Called(cfg, x), ServerWrite(n));
  }

  lemma EndsOver(cfg: Config, x: Sess)
    requires Inv(cfg, x) && x.c.phase.PerfCompleted? && !Server.WritePhase(x.s.phase)
    ensures Over(x)
  {
    hide WritePosOk, Parsed;
  }

  /** No handler of the server ever fails. */
  lemma NeverClosed(cfg: Config, x: Sess)
    requires Inv(cfg, x)
    ensures !x.s.phase.Closed?
  {
    hide Asking, Answering, Downloading, Uploading, AfterUpload, OnRamp, ValidTables, ServerOk, ClientOk, NotStarted,
      ResultCounts, TimeCounts,
      UploadReady, Parsed;
    var (c, s, up, down) := (x.c, x.s, x.up, x.down);
    if Uploading(cfg, c, s, up, down, x.k) {
      UploadingFacts(cfg, c, s, up, down, x.k, 0);
    } else if Downloading(cfg, c, s, up, down, x.k) {
      DownFacts(cfg, c, s, up, down, x.k, 0);
    } else if AfterUpload(cfg.server, s, up, x.series) {
      AfterUploadOpen(cfg.server, s, up, x.series);
    } else if Answering(cfg.server, c, s, up, down) {
      AnsweringFacts(cfg.server, c, s, up, down);
    } else if Asking(c, s, up, down) {
      AskingPhases(c, s, up, down);
    }
  }

  lemma AfterUploadOpen(t: Tables, s: Server.Server, up: Bytes, series: seq<Sample>)
    requires AfterUpload(t, s, up, series)
    ensures !s.phase.Closed?
  {
    hide WritePosOk;
  }

  // ----- whole runs

  /** Every state of every run: no handler has failed, the registered interest
      covers what both phases need, the sides do not starve each other, and the
      run can go on unless the session is over. */
  lemma RunSafe(cfg: Config, xs: seq<Sess>, ls: seq<Label>, i: nat)
    requires Run(cfg, xs, ls) && i < |xs|
    ensures var x := xs[i];
      && !x.s.phase.Closed?
      && Covers(Client.ReadPhase(x.c.phase), Client.WritePhase(x.c.phase), x.c.interest)
      && Covers(Server.ReadPhase(x.s.phase), Server.WritePhase(x.s.phase), x.s.interest)
      && (Client.ReadPhase(x.c.phase) && Server.ReadPhase(x.s.phase) ==> x.up != [] || x.down != [])
      && (Over(x) || CanMove(cfg, x) || (Server.WritePhase(x.s.phase) && CanMove(cfg, Called(cfg, x))))
  {
    hide Run, Paired, Over, CanMove, OnRamp, NotStarted, Covers;
    RunInv(cfg, xs, ls, i);
    NeverClosed(cfg, xs[i]);
    Progress(cfg, xs[i]);
    if Client.ReadPhase(xs[i].c.phase) && Server.ReadPhase(xs[i].s.phase) {
      NeverBothWait(cfg, xs[i]);
    }
  }

  /** A round of greeting, GETCHUNKS, PING or GETTIME leaves the server waiting
      for a command with both channels empty; the sizes are in both tables and
      the pings are between 1 and 200. */
  lemma RoundsEndQuiet(cfg: Config, xs: seq<Sess>, ls: seq<Label>, i: nat)
    requires Run(cfg, xs, ls) && i < |xs|
    requires Client.DonePhase(xs[i].c.phase) && !xs[i].c.phase.PerfCompleted?
    ensures var x := xs[i];
      && x.s.phase.CommandReceive? && x.s.readPos == 0 && x.s.writePos == 0 && x.s.processed == 0
      && x.up == [] && x.down == [] && x.c.writePos == 0
      && x.c.chunkSize in cfg.client.zero && x.c.chunkSize in cfg.server.zero && 1 <= x.c.totalChunks <= 8
      && (x.c.phase.PingCompleted? ==> 1 <= |x.c.pingTimes| <= 200)
  {
    hide Run, OnRamp, NotStarted;
    RunInv(cfg, xs, ls, i);
    OnRampInTable(Round(xs[i].c.totalChunks, xs[i].c.chunkSize));
  }

  lemma Inventory(cfg: Config, x: Sess, n: nat)
    requires Inv(cfg, x) && CanTake(x.c, x.down, n) && (x.c.phase.ChunksReceiveChunk? || x.c.phase.TimeReceiveChunk?)
    ensures x.up == [] && Downloading(cfg, x.c, x.s, [], x.down, x.k)
    ensures x.c.phase.TimeReceiveChunk? ==> TimeCounts(x.c, x.k, x.now)
    ensures ValidTables(cfg.server) && x.c.readPos <= |x.c.chunkBuffer| == x.c.chunkSize
  {
    hide OnRamp, ServerOk, ClientOk, NotStarted, Paired, Downloading, TimeCounts, CanTake, ValidTables;
    TakePairs(cfg, x, n);
    DownFacts(cfg, x.c, x.s, x.up, x.down, x.k, n);
    DownBuffer(cfg, x.c, x.s, x.up, x.down, x.k);
  }

  lemma DownBuffer(cfg: Config, c: Client.Client, s: Server.Server, up: Bytes, down: Bytes, k: Count)
    requires Downloading(cfg, c, s, up, down, k)
    ensures c.readPos <= |c.chunkBuffer| == c.chunkSize
  {
  }

  /** The chunk reader stops exactly at the terminal chunk: everything the server
      emitted has been taken, nothing is in flight, GETCHUNKS has taken the
      chunks it asked for, and GETTIME has one sample per chunk with the byte
      column size, 2 * size, ... and times that do not decrease. */
  lemma DownloadComplete(cfg: Config, xs: seq<Sess>, ls: seq<Label>, i: nat)
    requires Run(cfg, xs, ls) && i < |ls|
    requires xs[i].c.phase.ChunksReceiveChunk? || xs[i].c.phase.TimeReceiveChunk?
    requires xs[i + 1].c.phase != xs[i].c.phase
    ensures var (x, y) := (xs[i], xs[i + 1]);
      && y.up == [] && y.down == [] && y.k.consumed == y.k.emitted + 1 && y.k.inTransit == 0
      && (x.c.phase.ChunksReceiveChunk? ==>
          y.c.phase.ChunksSendOk? && y.s.phase.ChunksReceiveOk? && y.k.consumed == y.c.totalChunks)
      && (x.c.phase.TimeReceiveChunk? ==>
            y.c.phase.TimeSendOk? && y.s.phase.TimeReceiveOk? && |y.c.downloads| == y.k.consumed
            && y.c.bytesReceived == y.k.consumed * y.c.chunkSize && Series(y.c.downloads, y.c.chunkSize, y.now))
  {
    hide Inv, Step, Enabled, Initial;
    RunInv(cfg, xs, ls, i);
    ChunkPhaseEnds(cfg, xs[i], ls[i]);
  }

  lemma ChunkPhaseEnds(cfg: Config, x: Sess, l: Label)
    requires Inv(cfg, x) && Enabled(cfg, x, l)
    requires x.c.phase.ChunksReceiveChunk? || x.c.phase.TimeReceiveChunk?
    requires Step(cfg, x, l).c.phase != x.c.phase
    ensures var y := Step(cfg, x, l);
      && y.up == [] && y.down == [] && y.k.consumed == y.k.emitted + 1 && y.k.inTransit == 0
      && (x.c.phase.ChunksReceiveChunk? ==>
          y.c.phase.ChunksSendOk? && y.s.phase.ChunksReceiveOk? && y.k.consumed == y.c.totalChunks)
      && (x.c.phase.TimeReceiveChunk? ==>
            y.c.phase.TimeSendOk? && y.s.phase.TimeReceiveOk? && |y.c.downloads| == y.k.consumed
            && y.c.bytesReceived == y.k.consumed * y.c.chunkSize && Series(y.c.downloads, y.c.chunkSize, y.now))
  {
    hide Inv, CanTake, Client.Got, Downloading, TimeCounts, ValidTables, AfterClientRead;
    ReadEnds(cfg, x, l);
    var n, y := l.n, Step(cfg, x, l);
    Inventory(cfg, x, n);
    TakesText(x.c, x.down, n);
    ReadChunk(x, n);
    DownFacts(cfg, x.c, x.s, [], x.down, x.k, n);
    GotDownload(x.c, x.down[..n], x.now);
    if x.c.readPos + n == x.c.chunkSize {
      if x.k.inTransit > 0 {
        DownloadChunk(cfg, x.c, x.s, x.down, x.k, n, x.now);
        assert false;
      }
      DownloadEnds(cfg, x.c, x.s, x.down, x.k, n, x.now);
      if x.c.phase.TimeReceiveChunk? {
        SeriesBefore(y.c, y.k, x.now);
      }
    }
  }

  lemma SeriesBefore(c: Client.Client, k: Count, now: nat)
    requires TimeCounts(c, k, now)
    ensures |c.downloads| == k.consumed && c.bytesReceived == k.consumed * c.chunkSize
        && Series(c.downloads, c.chunkSize, now)
  {
    SeriesLater(c.downloads, c.chunkSize, Client.Elapsed(c, now), now);
  }

  /** Only a read takes the client out of a chunk phase. */
  lemma ReadEnds(cfg: Config, x: Sess, l: Label)
    requires Enabled(cfg, x, l) && Client.ReadPhase(x.c.phase) && Step(cfg, x, l).c.phase != x.c.phase
    ensures l.ClientRead? && CanTake(x.c, x.down, l.n) && Step(cfg, x, l) == AfterClientRead(x, l.n)
  {
    hide CanTake, CanSend, CanRead, CanWrite, AfterClientRead;
    CanSendReads(cfg, x);
  }

  lemma CanSendReads(cfg: Config, x: Sess)
    ensures Client.ReadPhase(x.c.phase) ==> forall n :: !CanSend(cfg.client, x.c, n)
  {
  }

  // ----- the upload

  /** The series the server recorded, kept from its terminal chunk on. */
  ghost predicate Recorded(x: Sess) {
    x.series == [] || (UploadPhase(x.c.phase) && Series(x.series, x.c.chunkSize, x.now))
  }

  /** PUTTIMERESULT conserves bytes: when the server accepts the terminal chunk,
      its total is what the client sent, nothing is in flight, and its series has
      one row per chunk with the byte column size, 2 * size, ... */
  lemma UploadComplete(cfg: Config, xs: seq<Sess>, ls: seq<Label>, i: nat)
    requires Run(cfg, xs, ls) && i < |ls|
    requires xs[i].s.phase.ResultReceive? && xs[i + 1].s.phase != xs[i].s.phase
    ensures var y := xs[i + 1];
      && y.s.phase.ResultSend? && y.c.phase.PerfReceiveTime? && y.up == [] && y.down == []
      && y.s.totalBytes == y.c.bytesSent == |y.series| * y.c.chunkSize && y.series == y.s.received
          && |y.series| == y.k.consumed
      && y.k.consumed == y.k.emitted + 1 && Series(y.series, y.c.chunkSize, y.now)
  {
    hide Inv, Step, Enabled, Initial;
    RunInv(cfg, xs, ls, i);
    UploadPhaseEnds(cfg, xs[i], ls[i]);
  }

  lemma UploadPhaseEnds(cfg: Config, x: Sess, l: Label)
    requires Inv(cfg, x) && Enabled(cfg, x, l)
    requires x.s.phase.ResultReceive? && Step(cfg, x, l).s.phase != x.s.phase
    ensures var y := Step(cfg, x, l);
      && y.s.phase.ResultSend? && y.c.phase.PerfReceiveTime? && y.up == [] && y.down == []
      && y.s.totalBytes == y.c.bytesSent == |y.series| * y.c.chunkSize && y.series == y.s.received
          && |y.series| == y.k.consumed
      && y.k.consumed == y.k.emitted + 1 && Series(y.series, y.c.chunkSize, y.now)
  {
    hide Inv, CanRead, Server.Got, Uploading, ResultCounts, ValidTables, Series;
    ServerReadEnds(cfg, x, l);
    var c, s, up, k, n := x.c, x.s, x.up, x.k, l.n;
    UploadOwner(cfg, x, n);
    UploadingFacts(cfg, c, s, up, x.down, k, n);
    GotUpload(s, up[..n], x.now);
    if s.readPos + n == s.chunkSize {
      if k.inTransit > 0 {
        UploadChunk(cfg, c, s, up, k, n, x.now);
        UploadingFacts(cfg, c, Server.Got(s, up[..n], x.now), up[n..], [], Took(k), 0);
        assert false;
      }
      UploadEnds(cfg, c, s, up, k, n, x.now);
      UploadCounts(cfg, c, s, up, k);
      SeriesLater(Server.Got(s, up[..n], x.now).received, c.chunkSize,
          Server.Elapsed(Server.Got(s, up[..n], x.now), x.now), x.now);
    }
  }

  lemma UploadCounts(cfg: Config, c: Client.Client, s: Server.Server, up: Bytes, k: Count)
    requires Uploading(cfg, c, s, up, [], k)
    ensures k.consumed + k.inTransit == k.emitted
  {
  }

  lemma ServerReadEnds(cfg: Config, x: Sess, l: Label)
    requires Enabled(cfg, x, l) && x.s.phase.ResultReceive? && Step(cfg, x, l).s.phase != x.s.phase
    ensures l.ServerRead? && CanRead(x.s, x.up, l.n) && Step(cfg, x, l) == AfterServerRead(x, l.n)
  {
    hide CanTake, CanSend, CanRead, AfterServerRead;
    forall n: nat ensures !CanWrite(cfg.server, x.s, n) {
    }
  }

  lemma UploadOwner(cfg: Config, x: Sess, n: nat)
    requires Inv(cfg, x) && x.s.phase.ResultReceive? && CanRead(x.s, x.up, n)
    ensures Uploading(cfg, x.c, x.s, x.up, [], x.k) && x.down == [] && ResultCounts(x.s, x.k, x.now)
        && ValidTables(cfg.client)
    ensures x.c.phase.PerfSendChunks? || x.c.phase.PerfSendLast? || x.c.phase.PerfReceiveTime?
  {
    hide OnRamp, ServerOk, ClientOk, NotStarted, CanRead, TimeCounts, UploadReady, Parsed, Asking, Answering,
      Downloading,
      Uploading, Resulting, Quiet, ResultCounts, ValidTables;
    ReadPairs(cfg, x, n);
    if Asking(x.c, x.s, x.up, x.down) {
      AskingPhases(x.c, x.s, x.up, x.down);
    }
    if Uploading(cfg, x.c, x.s, x.up, x.down, x.k) {
      UploadingFacts(cfg, x.c, x.s, x.up, x.down, x.k, n);
    }
  }

  lemma RecordedClient(c: Client.Client, data: Bytes, t: Tables, n: nat, now: nat)
    requires UploadPhase(c.phase)
    ensures var d := Client.Enter(c, now); UploadPhase(d.phase) && d.chunkSize == c.chunkSize
    ensures var d := Client.Wrote(t, c, n, now); UploadPhase(d.phase) && d.chunkSize == c.chunkSize
    ensures 0 < |data| <= Client.Room(c) && |c.readBuffer| >= 5 ==>
              var d := Client.Got(c, data, now); UploadPhase(d.phase) && d.chunkSize == c.chunkSize
  {
    hide Client.Message, ParseTimeResult, EndsWith;
  }

  lemma RecordedStep(cfg: Config, x: Sess, l: Label)
    requires Inv(cfg, x) && Enabled(cfg, x, l) && Recorded(x)
    ensures Recorded(Step(cfg, x, l))
  {
    hide Inv, CanSend, CanTake, CanRead, CanWrite, Client.Enter, Client.Wrote, Client.Got, Server.Enter, Server.Got,
      Server.Wrote, Series;
    if l.ServerRead? && x.s.phase.ResultReceive? {
      RecordedRead(cfg, x, l.n);
    } else if x.series != [] {
      var data := if l.ClientRead? && l.n <= |x.down| then x.down[..l.n] else [];
      RecordedClient(x.c, data, cfg.client, if l.ClientWrite? then l.n else 0, x.now);
      if l.ClientRead? {
        TakesText(x.c, x.down, l.n);
      }
      SeriesLater(x.series, x.c.chunkSize, x.now, Step(cfg, x, l).now);
    }
  }

  lemma RecordedRead(cfg: Config, x: Sess, n: nat)
    requires Inv(cfg, x) && Recorded(x) && CanRead(x.s, x.up, n) && x.s.phase.ResultReceive?
    ensures Recorded(AfterServerRead(x, n))
  {
    hide Inv, CanRead, Server.Got, Series, Uploading, ResultCounts, ValidTables;
    CanReadPhase(x.s, x.up, n);
    var s, data := x.s, x.up[..n];
    UploadOwner(cfg, x, n);
    UploadingFacts(cfg, x.c, s, x.up, x.down, x.k, n);
    SameSize(cfg, x.c, s, x.up, x.k);
    if s.readPos + n == s.chunkSize {
      UploadRow(s, x.k, data, x.now);
      var y := Server.Got(s, data, x.now);
      SeriesLater(y.received, s.chunkSize, Server.Elapsed(y, x.now), x.now);
    }
  }

  lemma SameSize(cfg: Config, c: Client.Client, s: Server.Server, up: Bytes, k: Count)
    requires Uploading(cfg, c, s, up, [], k)
    ensures c.chunkSize == s.chunkSize
  {
  }

  lemma NothingRecorded(x: Sess)
    requires x.series == []
    ensures Recorded(x)
  {
  }

  lemma {:induction false} RunRecorded(cfg: Config, xs: seq<Sess>, ls: seq<Label>, i: nat)
    requires Run(cfg, xs, ls) && i < |xs|
    ensures Recorded(xs[i])
  {
    hide Inv, Enabled, Step, Recorded, Client.NewClient, Server.NewConnection;
    if i == 0 {
      NothingRecorded(xs[0]);
    } else {
      RunRecorded(cfg, xs, ls, i - 1);
      RunInv(cfg, xs, ls, i - 1);
      RecordedStep(cfg, xs[i - 1], ls[i - 1]);
    }
  }

  /** What the client ends with: all rows of the server's series but the last, then
      whatever parses in the bytes it took behind the line, which are bytes of the
      terminal chunk and the prompt. It is exactly the rows but the last if and only
      if those bytes hold no further pair. */
  lemma UploadReported(cfg: Config, xs: seq<Sess>, ls: seq<Label>, i: nat)
    requires Run(cfg, xs, ls) && i < |xs| && xs[i].c.phase.PerfCompleted?
    requires |xs[i].series| * xs[i].c.chunkSize < U64
    ensures Reported(cfg, xs[i])
  {
    hide Run, Reported;
    RunInv(cfg, xs, ls, i);
    RunRecorded(cfg, xs, ls, i);
    EndReported(cfg, xs[i]);
  }

  ghost predicate Reported(cfg: Config, x: Sess) {
    var (line, whole, rows) := (TimeResult(x.series), Report(cfg.client, x.c.chunkSize, x.series), x.series);
    && rows != [] && Series(rows, x.c.chunkSize, x.now)
    && line <= x.report <= whole && EndsWith(x.report, [NL])
    && var further := ParsePairs(Split(x.report[|line|..])[1..]);
       && x.c.uploads == rows[..|rows| - 1] + further
       && (x.c.uploads == rows[..|rows| - 1] <==> further == [])
       && (!Contains(whole[|line|..], SEP) ==> further == [])
  }

  lemma EndReported(cfg: Config, x: Sess)
    requires Inv(cfg, x) && Recorded(x) && x.c.phase.PerfCompleted? && |x.series| * x.c.chunkSize < U64
    ensures Reported(cfg, x)
  {
    hide Series, OnRamp, NotStarted, ServerOk, ClientOk, ParseTimeResult, ParsePairs, TimeResult, Split, Report,
      Contains;
    var line, whole := TimeResult(x.series), Report(cfg.client, x.c.chunkSize, x.series);
    SeriesFits(x.series, x.c.chunkSize, x.now);
    ReportShape(cfg.client, x.c.chunkSize, x.series);
    TimeResultIsLine(x.series);
    HoldsFirstLine(line, whole, x.report);
    var tail := x.report[|line|..];
    TimeResultLosesLast(x.series, tail);
    assert tail <= whole[|line|..] by { TailOfPrefix(x.report, whole, |line|); }
    NoSepInside(whole[|line|..], tail);
  }

  lemma TailOfPrefix(a: Bytes, b: Bytes, k: nat)
    requires a <= b && k <= |a|
    ensures a[k..] <= b[k..]
  {
    assert b[k..][..|a| - k] == a[k..];
  }

  lemma NoSepInside(whole: Bytes, part: Bytes)
    requires part <= whole
    ensures !Contains(whole, SEP) ==> !Contains(part, SEP)
  {
    if Contains(part, SEP) {
      assert At(whole, SEP, Find(part, SEP).value);
    }
  }

  lemma SeriesFits(ps: seq<Sample>, size: nat, latest: nat)
    requires Series(ps, size, latest) && latest < U64 && |ps| * size < U64
    ensures AllU64(ps)
  {
    forall i | 0 <= i < |ps| ensures ps[i].1 <= |ps| * size {
      Multiples(i + 1, |ps|, size);
    }
  }
}
