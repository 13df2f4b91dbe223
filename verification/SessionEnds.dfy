/** What ends each phase of a session, by the clocks of its run. */
module SessionEnds {
  import opened Text
  import opened Chunks
  import opened Commands
  import opened TimeResults
  import opened Ramp
  import opened Session
  import opened SessionSteps
  import opened SessionClient
  import opened SessionRuns
  import opened SessionTimes
  import Pings
  import Server = ServerMachine
  import Client = ClientMachine

  // ----- an answer under way has a time

  predicate WaitsTime(p: Client.Phase) { p.ChunksReceiveTime? || p.PingReceiveTime? || p.TimeReceiveTime? }

  /** A server that is past the client's OK holds the time it took. */
  predicate Timed(c: Client.Phase, s: Server.Server) { WaitsTime(c) && s.phase != Asked(c) ==> s.timeNs.Some? }

  lemma TimeStays(t: Tables, s: Server.Server, n: nat, now: nat)
    requires s.timeNs.Some?
    ensures Server.Enter(t, s, now).timeNs.Some? && Server.Wrote(t, s, n, now).timeNs.Some?
  {
    hide Server.Message, Server.Finish, Server.Enter;
    TimeStaysEnter(t, s, now);
    TimeStaysFinish(s, now);
  }

  lemma TimeStaysEnter(t: Tables, s: Server.Server, now: nat)
    ensures Server.Enter(t, s, now).timeNs == s.timeNs
  {
    hide Server.Overlay, Server.Fresh, Server.Elapsed, TimeResult;
  }

  lemma TimeStaysFinish(s: Server.Server, now: nat)
    ensures Server.Finish(s, now).timeNs == s.timeNs
  {
    hide Server.Elapsed, Server.Zeros;
  }

  lemma TimeStaysGot(s: Server.Server, data: Bytes, now: nat)
    requires s.timeNs.Some? && 0 < |data| <= Server.Room(s)
    ensures Server.Got(s, data, now).timeNs.Some?
  {
    hide ParseCommand, Server.Elapsed, Server.IsOk, Store, Server.Boundary;
    match s.phase {
      case CommandReceive =>
      case NoResultReceive | PutReceive | ResultReceive =>
      case _ =>
    }
  }

  /** An OK reader goes on only once it has stored the time. */
  lemma OkStored(s: Server.Server, data: Bytes, now: nat)
    requires s.phase.ChunksReceiveOk? || s.phase.PingReceiveOk? || s.phase.TimeReceiveOk?
    requires 0 < |data| <= Server.Room(s)
    ensures var y := Server.Got(s, data, now); y.phase != s.phase ==> y.timeNs.Some?
  {
    hide Server.Elapsed, Server.IsOk, Store;
  }

  lemma TimedServer(cfg: Config, x: Sess, l: Label)
    requires Enabled(cfg, x, l) && Timed(x.c.phase, x.s) && (l.ServerEnter? || l.ServerWrite? || l.ServerRead?)
    ensures Timed(x.c.phase, Step(cfg, x, l).s)
  {
    hide CanWrite, CanRead, Server.Enter, Server.Got, Server.Wrote, Timed;
    var n := if l.ServerWrite? then l.n else 0;
    if l.ServerRead? {
      ReadFits(x.s, x.up, l.n);
    } else if l.ServerWrite? {
      CanWritePhase(cfg.server, x.s, n);
    }
    if WaitsTime(x.c.phase) && x.s.phase == Asked(x.c.phase) {
      EnterRead(cfg.server, x.s, x.now);
      if l.ServerRead? {
        OkStored(x.s, x.up[..l.n], x.now);
      }
      TimedOk(x.c.phase, Step(cfg, x, l).s, x.s.phase);
    } else if WaitsTime(x.c.phase) {
      TimedHolds(x.c.phase, x.s);
      TimeStays(cfg.server, x.s, n, x.now);
      if l.ServerRead? {
        TimeStaysGot(x.s, x.up[..l.n], x.now);
      }
      TimedOk(x.c.phase, Step(cfg, x, l).s, Server.Closed);
    } else {
      TimedOk(x.c.phase, Step(cfg, x, l).s, Server.Closed);
    }
  }

  lemma TimedHolds(c: Client.Phase, s: Server.Server)
    requires Timed(c, s) && WaitsTime(c) && s.phase != Asked(c)
    ensures s.timeNs.Some?
  {
  }

  lemma TimedOk(c: Client.Phase, s: Server.Server, p: Server.Phase)
    requires WaitsTime(c) ==> s.timeNs.Some? || (p == Asked(c) == s.phase)
    ensures Timed(c, s)
  {
  }

  lemma WaitBegins(t: Tables, c: Client.Client, n: nat, now: nat)
    ensures WaitsTime(Client.Wrote(t, c, n, now).phase) && !WaitsTime(c.phase) ==>
      Client.WritePhase(c.phase) && !DataPhase(c.phase)
    ensures WaitsTime(Client.Enter(c, now).phase) ==> WaitsTime(c.phase)
    ensures WaitsTime(Client.Start(c, now).phase) ==> WaitsTime(c.phase)
  {
    hide Client.Message, Client.Resize, Client.Elapsed;
  }

  lemma WaitSent(cfg: Config, x: Sess, n: nat)
    requires Inv(cfg, x) && CanSend(cfg.client, x.c, n)
    ensures var d := Client.Wrote(cfg.client, x.c, n, x.now); WaitsTime(d.phase) ==> x.s.phase == Asked(d.phase)
  {
    hide Inv, CanSend, Client.Wrote, Asked, Asking;
    CanSendPhase(cfg.client, x.c, n);
    NoWaitWrites(x.c.phase);
    WaitBegins(cfg.client, x.c, n, x.now);
    if WaitsTime(Client.Wrote(cfg.client, x.c, n, x.now).phase) {
      SendOwner(cfg, x, n);
      WroteAsking(cfg.client, x.c, n, x.now);
      AskingPhases(x.c, x.s, x.up, []);
    }
  }

  lemma SendOwner(cfg: Config, x: Sess, n: nat)
    requires Inv(cfg, x) && CanSend(cfg.client, x.c, n) && !DataPhase(x.c.phase)
    ensures Asking(x.c, x.s, x.up, [])
  {
    hide Paired, Setup, ClientOk, ServerOk, NotStarted, CanSend, Asking;
    SendPairs(cfg, x, n);
  }

  lemma NoWaitWrites(p: Client.Phase)
    ensures Client.WritePhase(p) ==> !WaitsTime(p)
  {
  }

  lemma WaitReads(c: Client.Client, data: Bytes, now: nat)
    requires 0 < |data| <= Client.Room(c) && |c.readBuffer| >= 5
    ensures var d := Client.Got(c, data, now); WaitsTime(d.phase) ==> d.phase == c.phase
  {
    hide Store, Client.Boundary, Client.Elapsed, ParseTimeResult, Contains, EndsWith, Client.ParseTime,
      Client.SecondNumber, Client.Resize;
  }

  lemma TimedStep(cfg: Config, x: Sess, l: Label)
    requires Inv(cfg, x) && Enabled(cfg, x, l) && Timed(x.c.phase, x.s)
    ensures var y := Step(cfg, x, l); Timed(y.c.phase, y.s)
  {
    hide Inv, CanSend, CanTake, CanWrite, CanRead, Client.Enter, Client.Start, Client.Wrote, Client.Got,
      Server.Enter, Server.Got, Server.Wrote, WaitsTime, Asked;
    match l {
      case ClientWrite(n) => WaitSent(cfg, x, n);
      case ClientRead(n) =>
        TakesText(x.c, x.down, n);
        WaitReads(x.c, x.down[..n], x.now);
      case ServerEnter => TimedServer(cfg, x, l);
      case ServerWrite(_) => TimedServer(cfg, x, l);
      case ServerRead(_) => TimedServer(cfg, x, l);
      case Tick(_) =>
      case StartRun => StartsNoWait(x.c, x.now);
      case ClientEnter => StartsNoWait(x.c, x.now);
    }
  }

  lemma StartsNoWait(c: Client.Client, now: nat)
    ensures Client.DonePhase(c.phase) ==> !WaitsTime(Client.Start(c, now).phase)
    ensures Client.WritePhase(c.phase) ==> !WaitsTime(Client.Enter(c, now).phase)
  {
  }

  lemma {:induction false} RunTimed(cfg: Config, xs: seq<Sess>, ls: seq<Label>, i: nat)
    requires Run(cfg, xs, ls) && i < |xs|
    ensures Timed(xs[i].c.phase, xs[i].s)
  {
    hide Inv, Step, Enabled, Timed;
    if i == 0 {
      TimedOk(xs[0].c.phase, xs[0].s, Server.Closed);
    } else {
      RunTimed(cfg, xs, ls, i - 1);
      RunInv(cfg, xs, ls, i - 1);
      TimedStep(cfg, xs[i - 1], ls[i - 1]);
    }
  }

  // ----- the answers the client acts on

  /** The client left a phase that waits for a time: it took the whole answer. */
  lemma TimeTaken(cfg: Config, x: Sess, l: Label, g: Tally)
    requires Inv(cfg, x) && Enabled(cfg, x, l) && Clocked(x.s, g) && Timed(x.c.phase, x.s)
    requires x.c.phase.ChunksReceiveTime? || x.c.phase.TimeReceiveTime?
    requires Step(cfg, x, l).c.phase != x.c.phase
    ensures l.ClientRead? && CanTake(x.c, x.down, l.n) && x.c.readPos + l.n <= |x.c.readBuffer|
    ensures Step(cfg, x, l).c == Advance(Client.GotText(x.c, x.down[..l.n]), Server.TimeOf(x.s), x.now)
    ensures g.took == Some(Server.TimeOf(x.s))
  {
    hide Inv, CanTake, Client.Got, Client.GotText, Answering, Promise, Reply, AfterClientRead, Advance, SameTimes;
    ReadEnds(cfg, x, l);
    var (c, s, down, n) := (x.c, x.s, x.down, l.n);
    TakeAnswer(cfg, x, n);
    TakeFacts(c, down, n, x.now);
    AfterReadClient(x, n);
    AnswerHeld(cfg.server, c, s, down);
    if CText(c) + down[..n] != Reply(c.phase, Server.TimeOf(s)) {
      ClientReadPart(cfg.server, c, s, down, n, x.now);
      TextStored(c, down[..n]);
    } else {
      ClientReadWhole(cfg.server, c, s, down, n, x.now);
    }
  }

  lemma TakeAnswer(cfg: Config, x: Sess, n: nat)
    requires Inv(cfg, x) && CanTake(x.c, x.down, n) && Timed(x.c.phase, x.s)
    requires x.c.phase.ChunksReceiveTime? || x.c.phase.TimeReceiveTime?
    ensures Answering(cfg.server, x.c, x.s, [], x.down)
    ensures x.s.timeNs.Some?
  {
    hide Setup, ClientOk, NotStarted, Promise, Reply, CText, WritePosOk, Server.TimeOf;
    TakePairs(cfg, x, n);
  }

  lemma AfterReadClient(x: Sess, n: nat)
    requires CanTake(x.c, x.down, n)
    ensures AfterClientRead(x, n).c == Client.Got(x.c, x.down[..n], x.now)
  {
    hide Client.Got;
    TakesText(x.c, x.down, n);
  }

  /** The ramp goes on exactly while a round stays under two seconds and the size
      under four megabytes: the count doubles up to 8, then the size. */
  lemma RampByTime(cfg: Config, xs: seq<Sess>, ls: seq<Label>, i: nat)
    requires Run(cfg, xs, ls) && i < |ls|
    requires xs[i].c.phase.ChunksReceiveTime? && xs[i + 1].c.phase != xs[i].c.phase
    ensures var (c, d, took) := (xs[i].c, xs[i + 1].c, TallyAt(xs, ls, i).took);
      && took.Some? && (d.phase.ChunksSendCommand? || d.phase.ChunksCompleted?)
      && (d.phase.ChunksSendCommand? <==> took.value < 2_000_000_000 && c.chunkSize < 4_194_304)
      && (d.phase.ChunksSendCommand? ==>
          if c.totalChunks < 8 then d.totalChunks == 2 * c.totalChunks && d.chunkSize == c.chunkSize
          else d.totalChunks == c.totalChunks && d.chunkSize == 2 * c.chunkSize)
      && (d.phase.ChunksCompleted? ==> d.totalChunks == c.totalChunks && d.chunkSize == c.chunkSize)
  {
    hide Inv, Step, Enabled, Initial, Timed, Clocked, Stamped, Pinged, Client.GotText;
    var (x, l) := (xs[i], ls[i]);
    RunInv(cfg, xs, ls, i);
    RunOnTime(cfg, xs, ls, i);
    RunTimed(cfg, xs, ls, i);
    TimeTaken(cfg, x, l, TallyAt(xs, ls, i));
    TextStored(x.c, x.down[..l.n]);
    RoundDecides(cfg, x, Client.GotText(x.c, x.down[..l.n]), Server.TimeOf(x.s), x.now);
  }

  lemma RoundDecides(cfg: Config, x: Sess, r: Client.Client, time: nat, now: nat)
    requires Inv(cfg, x) && r.phase.ChunksReceiveTime?
    requires r.totalChunks == x.c.totalChunks && r.chunkSize == x.c.chunkSize
    ensures var (c, d) := (x.c, Advance(r, time, now));
      && (d.phase.ChunksSendCommand? || d.phase.ChunksCompleted?)
      && (d.phase.ChunksSendCommand? <==> time < 2_000_000_000 && c.chunkSize < 4_194_304)
      && (d.phase.ChunksSendCommand? ==>
          if c.totalChunks < 8 then d.totalChunks == 2 * c.totalChunks && d.chunkSize == c.chunkSize
          else d.totalChunks == c.totalChunks && d.chunkSize == 2 * c.chunkSize)
      && (d.phase.ChunksCompleted? ==> d.totalChunks == c.totalChunks && d.chunkSize == c.chunkSize)
  {
    hide ServerOk, ClientOk, NotStarted, Paired, ValidTables, OnRamp;
    OnRampFits(Round(x.c.totalChunks, x.c.chunkSize));
  }

  /** A size below the last table size has its double in range. */
  lemma OnRampFits(r: Round)
    requires OnRamp(r)
    ensures r.size < 4_194_304 ==> r.size <= 2_097_152
  {
    var i: nat, j: nat :| Place(r, i, j);
    Powers();
    PowerCases(j);
  }

  /** The download time a client reports is the time the server took to send the
      chunks and read the client's OK. */
  lemma DownloadTimed(cfg: Config, xs: seq<Sess>, ls: seq<Label>, i: nat)
    requires Run(cfg, xs, ls) && i < |ls|
    requires xs[i].c.phase.TimeReceiveTime? && xs[i + 1].c.phase != xs[i].c.phase
    ensures var (d, took) := (xs[i + 1].c, TallyAt(xs, ls, i).took);
      d.phase.TimeCompleted? && took.Some? && d.downloadTime == Some(took.value)
  {
    hide Inv, Step, Enabled, Initial, Timed, Clocked, Stamped, Pinged, Client.GotText;
    var (x, l) := (xs[i], ls[i]);
    RunInv(cfg, xs, ls, i);
    RunOnTime(cfg, xs, ls, i);
    RunTimed(cfg, xs, ls, i);
    TimeTaken(cfg, x, l, TallyAt(xs, ls, i));
    TextStored(x.c, x.down[..l.n]);
  }

  /** A ping is recorded, and the next one follows unless the phase has lasted a second
      or 200 pings are recorded; else the phase is over. */
  lemma PingEnds(cfg: Config, xs: seq<Sess>, ls: seq<Label>, i: nat)
    requires Run(cfg, xs, ls) && i < |ls|
    requires xs[i].c.phase.PingReceiveTime? && xs[i + 1].c.phase != xs[i].c.phase
    ensures var (x, d, asked) := (xs[i], xs[i + 1].c, TallyAt(xs, ls, i).asked);
      && asked.Some? && (d.phase.PingSendPing? || d.phase.PingCompleted?)
      && (d.phase.PingCompleted? <==> x.now - asked.value >= 1_000_000_000 || |d.pingTimes| >= 200)
  {
    hide Inv, Step, Enabled, Initial, Clocked, Pinged, SameTimes, AfterClientRead;
    var (x, l) := (xs[i], ls[i]);
    RunInv(cfg, xs, ls, i);
    RunOnTime(cfg, xs, ls, i);
    ReadEnds(cfg, x, l);
    AfterReadClient(x, l.n);
    ClockReady(cfg, x);
    TakesText(x.c, x.down, l.n);
    ClientReadPings(cfg, x, l.n, TallyAt(xs, ls, i));
  }

  // ----- ten seconds each way

  /** A running GETTIME was asked for ten seconds. */
  predicate TenSeconds(s: Server.Server) { s.phase.TimeSendChunk? ==> s.duration == 10 }

  lemma TenStays(t: Tables, s: Server.Server, n: nat, now: nat)
    requires TenSeconds(s)
    ensures TenSeconds(Server.Enter(t, s, now)) && TenSeconds(Server.Wrote(t, s, n, now))
  {
    hide Server.Message, Server.Finish, Server.Enter;
    TenStaysEnter(t, s, now);
    TenStaysFinish(s, now);
  }

  lemma TenStaysEnter(t: Tables, s: Server.Server, now: nat)
    requires TenSeconds(s)
    ensures TenSeconds(Server.Enter(t, s, now))
  {
    hide Server.Overlay, Server.Fresh, Server.Elapsed, TimeResult;
  }

  lemma TenStaysFinish(s: Server.Server, now: nat)
    requires TenSeconds(s)
    ensures TenSeconds(Server.Finish(s, now))
  {
    hide Server.Elapsed, Server.Zeros;
  }

  lemma TenRead(s: Server.Server, data: Bytes, now: nat)
    requires Server.ReadPhase(s.phase) && 0 < |data| <= Server.Room(s)
    requires s.phase.CommandReceive? ==> data[|data| - 1] != NL
    ensures TenSeconds(Server.Got(s, data, now))
  {
    hide Server.Elapsed, Server.IsOk, Store, Server.Boundary;
    match s.phase {
      case NoResultReceive | PutReceive | ResultReceive =>
      case _ =>
    }
  }

  /** Only a client that wants ten seconds of chunks asks for GETTIME. */
  lemma TenAsked(cfg: Config, x: Sess, n: nat)
    requires Inv(cfg, x) && CanRead(x.s, x.up, n) && x.s.phase.CommandReceive? && x.up[n - 1] == NL
    ensures TenSeconds(Server.Got(x.s, x.up[..n], x.now))
  {
    hide Setup, ServerOk, ClientOk, NotStarted, Paired, Asking, Server.Got, CanRead, Server.GotText;
    CanReadPhase(x.s, x.up, n);
    UpAsks(cfg, x);
    DoneIsQuiet(cfg, x);
    SizesFit(cfg, x);
    CommandApplied(x.c, x.s, x.up, n, x.now);
    CommandAsker(x.c, x.s, x.up, n);
  }

  lemma DoneIsQuiet(cfg: Config, x: Sess)
    requires Inv(cfg, x) && x.s.phase.CommandReceive? && x.up != []
    ensures !Client.DonePhase(x.c.phase)
  {
    hide Setup, ServerOk, ClientOk, NotStarted;
  }

  lemma SizesFit(cfg: Config, x: Sess)
    requires Inv(cfg, x)
    ensures InRange(x.c.chunkSize) && x.c.totalChunks < U64
  {
    hide Paired, ServerOk, ClientOk, NotStarted, OnRamp, ValidTables;
    OnRampInTable(Round(x.c.totalChunks, x.c.chunkSize));
  }

  lemma {:induction false} RunTenSeconds(cfg: Config, xs: seq<Sess>, ls: seq<Label>, i: nat)
    requires Run(cfg, xs, ls) && i < |xs|
    ensures TenSeconds(xs[i].s)
  {
    hide Inv, CanSend, CanTake, CanWrite, CanRead, Client.Enter, Client.Start, Client.Wrote, Client.Got,
      Server.Enter, Server.Got, Server.Wrote, TenSeconds, Client.NewClient;
    if i == 0 {
      TenBegins();
    } else {
      var (x, l) := (xs[i - 1], ls[i - 1]);
      RunTenSeconds(cfg, xs, ls, i - 1);
      RunInv(cfg, xs, ls, i - 1);
      TenStays(cfg.server, x.s, if l.ServerWrite? then l.n else 0, x.now);
      if l.ServerRead? {
        ReadFits(x.s, x.up, l.n);
        if x.s.phase.CommandReceive? && x.up[l.n - 1] == NL {
          TenAsked(cfg, x, l.n);
        } else {
          TenRead(x.s, x.up[..l.n], x.now);
        }
      }
    }
  }

  lemma TenBegins()
    ensures TenSeconds(Server.NewConnection())
  {
  }

  /** A GETTIME call marks its next chunk as the last one exactly when more than
      ten seconds have passed since the first call. */
  lemma DownloadStops(cfg: Config, xs: seq<Sess>, ls: seq<Label>, i: nat)
    requires Run(cfg, xs, ls) && i < |ls| && xs[i].s.phase.TimeSendChunk? && ls[i].ServerEnter?
    ensures var (x, y, began) := (xs[i], xs[i + 1], TallyAt(xs, ls, i + 1).began);
      && y.s.phase.TimeSendChunk? && began.Some? && began.value <= x.now
      && (y.s.isLast <==> x.now > began.value + 10_000_000_000)
      && (TallyAt(xs, ls, i).began.None? ==> began == Some(x.now))
  {
    hide Inv, Initial, Stamped, Pinged, SameTimes, Server.Fresh;
    RunInv(cfg, xs, ls, i);
    RunOnTime(cfg, xs, ls, i);
    RunTenSeconds(cfg, xs, ls, i);
    ClockPast(cfg, xs[i]);
  }

  lemma ClockPast(cfg: Config, x: Sess)
    requires Inv(cfg, x)
    ensures x.s.clock.Some? ==> x.s.clock.value <= x.now
  {
    hide Setup, ClientOk, Paired, NotStarted;
  }

  /** An upload goes on until the first chunk boundary ten seconds or more after the
      client began the phase; then the terminal chunk follows. */
  lemma UploadStops(cfg: Config, xs: seq<Sess>, ls: seq<Label>, i: nat)
    requires Run(cfg, xs, ls) && i < |ls| && xs[i].c.phase.PerfSendChunks? && ls[i].ClientWrite?
    ensures var (c, d, asked) := (xs[i].c, xs[i + 1].c, TallyAt(xs, ls, i).asked);
      && asked.Some? && (d.phase.PerfSendChunks? || d.phase.PerfSendLast?)
      && (d.phase.PerfSendLast? <==>
          c.writePos + ls[i].n == c.chunkSize && xs[i].now >= asked.value + 10_000_000_000)
  {
    hide Inv, Initial, Clocked, Pinged, SameTimes, CanSend, Client.Wrote;
    var (x, l) := (xs[i], ls[i]);
    RunInv(cfg, xs, ls, i);
    RunOnTime(cfg, xs, ls, i);
    ClockReady(cfg, x);
    UploadMessage(cfg, x, l.n);
    UploadDecides(cfg.client, x.c, l.n, x.now);
  }

  lemma UploadMessage(cfg: Config, x: Sess, n: nat)
    requires Inv(cfg, x) && CanSend(cfg.client, x.c, n) && x.c.phase.PerfSendChunks?
    ensures |Client.Message(cfg.client, x.c)| == x.c.chunkSize
  {
    hide OnRamp, ServerOk, ClientOk, NotStarted, CanSend, Uploading, ValidTables, Client.Message;
    SendPairs(cfg, x, n);
    UploadRoom(cfg, x.c, x.s, x.up, [], x.k);
    UpMessage(cfg, x.c);
  }

  lemma UploadDecides(t: Tables, c: Client.Client, n: nat, now: nat)
    requires c.phase.PerfSendChunks? && |Client.Message(t, c)| == c.chunkSize
    requires c.phaseStart.Some? && c.phaseStart.value <= now
    ensures var d := Client.Wrote(t, c, n, now);
      && (d.phase.PerfSendChunks? || d.phase.PerfSendLast?)
      && (d.phase.PerfSendLast? <==> c.writePos + n == c.chunkSize && now >= c.phaseStart.value + 10_000_000_000)
  {
    hide Client.Message;
  }

  // ----- the last row of the upload

  /** The upload's result is the last pair the client parsed. */
  predicate ResultIsLast(c: Client.Client) {
    c.uploadResult == if c.uploads == [] then None else Some(c.uploads[|c.uploads| - 1])
  }

  lemma LastRowStays(t: Tables, c: Client.Client, n: nat, now: nat)
    requires ResultIsLast(c)
    ensures ResultIsLast(Client.Enter(c, now)) && ResultIsLast(Client.Start(c, now))
    ensures ResultIsLast(Client.Wrote(t, c, n, now))
  {
    hide Client.Message, Client.Resize, Client.Elapsed;
  }

  lemma LastRowGot(c: Client.Client, data: Bytes, now: nat)
    requires ResultIsLast(c) && 0 < |data| <= Client.Room(c) && |c.readBuffer| >= 5
    ensures ResultIsLast(Client.Got(c, data, now))
  {
    hide Store, Client.Boundary, Client.Elapsed, ParseTimeResult, EndsWith, Client.GotReply;
    if !c.phase.ChunksReceiveChunk? && !c.phase.TimeReceiveChunk? && c.readPos + |data| <= |c.readBuffer| {
      LastRowReply(Client.GotText(c, data), now);
    }
  }

  lemma LastRowReply(c: Client.Client, now: nat)
    requires c.readPos <= |c.readBuffer|
    ensures var d := Client.GotReply(c, now); d.uploads == c.uploads && d.uploadResult == c.uploadResult
  {
    hide Client.Elapsed, Contains, EndsWith, Client.ParseTime, Client.SecondNumber, Client.Resize;
  }

  /** What a finished upload reports is the last pair of the parsed series. */
  lemma {:induction false} RunLastRow(cfg: Config, xs: seq<Sess>, ls: seq<Label>, i: nat)
    requires Run(cfg, xs, ls) && i < |xs|
    ensures ResultIsLast(xs[i].c)
  {
    hide Inv, CanSend, CanTake, CanWrite, CanRead, Client.Enter, Client.Start, Client.Wrote, Client.Got,
      Server.Enter, Server.Got, Server.Wrote, ResultIsLast, Server.NewConnection;
    if i == 0 {
      LastRowBegins(cfg.token);
    } else {
      var (x, l) := (xs[i - 1], ls[i - 1]);
      RunLastRow(cfg, xs, ls, i - 1);
      LastRowStays(cfg.client, x.c, if l.ClientWrite? then l.n else 0, x.now);
      if l.ClientRead? {
        TakesText(x.c, x.down, l.n);
        LastRowGot(x.c, x.down[..l.n], x.now);
      }
    }
  }

  lemma LastRowBegins(token: Word)
    ensures ResultIsLast(Client.NewClient(token))
  {
  }

  // ----- which thread pings

  /** From the first GETTIME on. */
  predicate AfterPing(p: Client.Phase) { !BeforePing(p) && !Pinging(p) && !p.PingCompleted? }

  /** Pings are for thread 0: no other client pings or has a time or a median, and from
      the first GETTIME on thread 0 has one. */
  predicate PingsOfFirst(c: Client.Client) {
    && (Pinging(c.phase) || c.phase.PingCompleted? || c.pingTimes != [] || c.pingMedian.Some? ==> c.token == 0)
    && (c.phase.PingCompleted? || (AfterPing(c.phase) && c.token == 0) ==> c.pingMedian.Some?)
  }

  /** A step inside a phase: it brings no pings that were not there. */
  predicate SameThread(c: Client.Client, d: Client.Client) {
    && d.token == c.token && d.pingTimes == c.pingTimes && d.pingMedian == c.pingMedian
    && (Pinging(d.phase) ==> Pinging(c.phase)) && (AfterPing(d.phase) ==> AfterPing(c.phase))
    && (d.phase.PingCompleted? ==> c.phase.PingCompleted?)
  }

  lemma FirstStays(c: Client.Client, d: Client.Client)
    requires PingsOfFirst(c) && SameThread(c, d)
    ensures PingsOfFirst(d)
  {
  }

  lemma ThreadWrites(t: Tables, c: Client.Client, n: nat, now: nat)
    requires Client.WritePhase(c.phase)
    ensures SameThread(c, Client.Wrote(t, c, n, now)) && SameThread(c, Client.Enter(c, now))
  {
    hide Client.Message, Client.Resize, Client.Elapsed;
  }

  lemma ThreadReads(c: Client.Client, data: Bytes, now: nat)
    requires Client.ReadPhase(c.phase) && 0 < |data| <= Client.Room(c) && |c.readBuffer| >= 5
    ensures var d := Client.Got(c, data, now); SameThread(c, d) || (c.phase.PingReceiveTime? && ThreadPinged(c, d))
  {
    hide Store, Client.Boundary, Client.Elapsed, ParseTimeResult, EndsWith, Client.GotReply;
    if !c.phase.ChunksReceiveChunk? && !c.phase.TimeReceiveChunk? && c.readPos + |data| <= |c.readBuffer| {
      ThreadReplies(Client.GotText(c, data), now);
    }
  }

  predicate ThreadPinged(c: Client.Client, d: Client.Client) {
    d.token == c.token && (d.phase.PingSendPing? || (d.phase.PingCompleted? && d.pingMedian.Some?))
  }

  lemma ThreadReplies(c: Client.Client, now: nat)
    requires Client.ReadPhase(c.phase) && c.readPos <= |c.readBuffer|
    ensures var d := Client.GotReply(c, now); SameThread(c, d) || (c.phase.PingReceiveTime? && ThreadPinged(c, d))
  {
    hide Client.Elapsed, Contains, EndsWith, Client.ParseTime, Client.SecondNumber, Client.Resize, Pings.Median;
  }

  /** What each start of a run leads to: the pings are skipped but by thread 0. */
  lemma FirstStarts(c: Client.Client, now: nat)
    requires PingsOfFirst(c) && Client.DonePhase(c.phase) && !c.phase.PerfCompleted?
    ensures var d := Client.Start(c, now);
      && PingsOfFirst(d) && d.token == c.token
      && (c.phase.GreetingCompleted? ==> d.phase.ChunksSendCommand?)
      && (c.phase.ChunksCompleted? ==> if c.token == 0 then d.phase.PingSendPing? else d.phase.TimeSendCommand?)
      && (c.phase.PingCompleted? ==> d.phase.TimeSendCommand?)
      && (c.phase.TimeCompleted? ==> d.phase.PerfSendCommand?)
  {
  }

  /** In every state of every run exactly thread 0 pings: the others go from GETCHUNKS
      to GETTIME at once, and thread 0 goes there with a median. */
  lemma {:induction false} RunPings(cfg: Config, xs: seq<Sess>, ls: seq<Label>, i: nat)
    requires Run(cfg, xs, ls) && i < |xs|
    ensures PingsOfFirst(xs[i].c) && xs[i].c.token == cfg.token
    ensures i < |ls| && ls[i].StartRun? ==>
      var (p, q) := (xs[i].c.phase, xs[i + 1].c.phase);
      && (p.GreetingCompleted? ==> q.ChunksSendCommand?)
      && (p.ChunksCompleted? ==> if cfg.token == 0 then q.PingSendPing? else q.TimeSendCommand?)
      && (p.PingCompleted? ==> q.TimeSendCommand?)
      && (p.TimeCompleted? ==> q.PerfSendCommand?)
  {
    hide Inv, CanSend, CanTake, CanWrite, CanRead, Client.Enter, Client.Start, Client.Wrote, Client.Got,
      Server.Enter, Server.Got, Server.Wrote, PingsOfFirst, SameThread, Server.NewConnection;
    if i == 0 {
      ThreadBegins(cfg.token);
    } else {
      var (x, l) := (xs[i - 1], ls[i - 1]);
      RunPings(cfg, xs, ls, i - 1);
      if l.StartRun? {
        FirstStarts(x.c, x.now);
      } else if l.ClientEnter? || l.ClientWrite? {
        ThreadWritesOn(cfg, x, l);
      } else if l.ClientRead? {
        TakesText(x.c, x.down, l.n);
        TakesIn(x.c, x.down, l.n);
        ThreadReadsOn(x.c, x.down[..l.n], x.now);
      }
    }
    if i < |ls| && ls[i].StartRun? {
      FirstStarts(xs[i].c, xs[i].now);
    }
  }

  lemma ThreadBegins(token: Word)
    ensures PingsOfFirst(Client.NewClient(token)) && Client.NewClient(token).token == token
  {
  }

  lemma ThreadWritesOn(cfg: Config, x: Sess, l: Label)
    requires Enabled(cfg, x, l) && PingsOfFirst(x.c) && (l.ClientEnter? || l.ClientWrite?)
    ensures var d := Step(cfg, x, l).c; PingsOfFirst(d) && d.token == x.c.token
  {
    hide CanSend, Client.Enter, Client.Wrote, PingsOfFirst;
    var n := if l.ClientWrite? then l.n else 0;
    if l.ClientWrite? {
      CanSendPhase(cfg.client, x.c, n);
    }
    ThreadWrites(cfg.client, x.c, n, x.now);
    FirstStays(x.c, Step(cfg, x, l).c);
  }

  lemma ThreadReadsOn(c: Client.Client, data: Bytes, now: nat)
    requires PingsOfFirst(c) && Client.ReadPhase(c.phase) && 0 < |data| <= Client.Room(c) && |c.readBuffer| >= 5
    ensures var d := Client.Got(c, data, now); PingsOfFirst(d) && d.token == c.token
  {
    hide Client.Got, SameThread;
    var d := Client.Got(c, data, now);
    ThreadReads(c, data, now);
    if SameThread(c, d) {
      FirstStays(c, d);
      SameToken(c, d);
    }
  }

  lemma SameToken(c: Client.Client, d: Client.Client)
    requires SameThread(c, d)
    ensures d.token == c.token
  {
  }
}
