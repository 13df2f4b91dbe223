/** Paths of a session, and what the client and the server have recorded in every
    state of a run once a transfer is over. */
module SessionPaths {
  import opened Text
  import opened Chunks
  import opened TimeResults
  import opened Commands
  import opened Session
  import opened SessionSteps
  import opened SessionClient
  import opened SessionRuns
  import Server = ServerMachine
  import Client = ClientMachine

  // ----- paths

  lemma LeadsSelf(cfg: Config, x: Sess)
    ensures Leads(cfg, x, x)
  {
    var none: seq<Label> := [];
    assert Path(cfg, [x], none);
    assert [x][|none|] == x;
  }

  lemma LeadsStep(cfg: Config, x: Sess, l: Label)
    requires Enabled(cfg, x, l)
    ensures Leads(cfg, x, Step(cfg, x, l))
  {
    hide Enabled, Step;
    var xs, ls := [x, Step(cfg, x, l)], [l];
    assert Path(cfg, xs, ls) && xs[|ls|] == Step(cfg, x, l);
  }

  lemma PathsJoin(cfg: Config, xs: seq<Sess>, ls: seq<Label>, ys: seq<Sess>, ms: seq<Label>)
    requires Path(cfg, xs, ls) && Path(cfg, ys, ms) && ys[0] == xs[|ls|]
    ensures Path(cfg, xs + ys[1..], ls + ms) && (xs + ys[1..])[0] == xs[0] && (xs + ys[1..])[|ls + ms|] == ys[|ms|]
  {
    hide Enabled, Step;
    var (zs, ns) := (xs + ys[1..], ls + ms);
    forall i | 0 <= i < |ns| ensures Enabled(cfg, zs[i], ns[i]) && zs[i + 1] == Step(cfg, zs[i], ns[i]) {
      if i < |ls| {
        assert zs[i] == xs[i] && zs[i + 1] == xs[i + 1] && ns[i] == ls[i];
      } else {
        var j := i - |ls|;
        assert zs[i] == ys[j] && zs[i + 1] == ys[j + 1] && ns[i] == ms[j];
      }
    }
  }

  lemma LeadsOn(cfg: Config, x: Sess, y: Sess, z: Sess)
    requires Leads(cfg, x, y) && Leads(cfg, y, z)
    ensures Leads(cfg, x, z)
  {
    hide Enabled, Step;
    var xs, ls :| Path(cfg, xs, ls) && xs[0] == x && xs[|ls|] == y;
    var ys, ms :| Path(cfg, ys, ms) && ys[0] == y && ys[|ms|] == z;
    PathsJoin(cfg, xs, ls, ys, ms);
    var zs, ns := xs + ys[1..], ls + ms;
    assert Path(cfg, zs, ns) && zs[0] == x && zs[|ns|] == z;
  }

  /** The clock moves on, then a step is made. */
  lemma LeadsLater(cfg: Config, x: Sess, now: nat, l: Label)
    requires x.now <= now < U64 && Enabled(cfg, x.(now := now), l)
    ensures Leads(cfg, x, x.(now := now)) && Leads(cfg, x, Step(cfg, x.(now := now), l))
  {
    var y := x.(now := now);
    LeadsTick(cfg, x, now);
    LeadsStep(cfg, y, l);
    LeadsOn(cfg, x, y, Step(cfg, y, l));
  }

  lemma LeadsTick(cfg: Config, x: Sess, now: nat)
    requires x.now <= now < U64
    ensures Leads(cfg, x, x.(now := now))
  {
    LeadsStep(cfg, x, Tick(now - x.now));
  }

  lemma {:induction false} PathInv(cfg: Config, xs: seq<Sess>, ls: seq<Label>, i: nat)
    requires Path(cfg, xs, ls) && i < |xs| && Inv(cfg, xs[0])
    ensures Inv(cfg, xs[i])
  {
    hide Inv, Enabled, Step;
    if i > 0 {
      PathInv(cfg, xs, ls, i - 1);
      StepInv(cfg, xs[i - 1], ls[i - 1]);
    }
  }

  lemma LeadsInv(cfg: Config, x: Sess, y: Sess)
    requires Leads(cfg, x, y) && Inv(cfg, x)
    ensures Inv(cfg, y)
  {
    hide Inv, Enabled, Step;
    var xs, ls :| Path(cfg, xs, ls) && xs[0] == x && xs[|ls|] == y;
    PathInv(cfg, xs, ls, |ls|);
  }

  // ----- what is recorded

  predicate Past(p: Client.Phase) { AfterDownload(p) || UploadPhase(p) }

  /** After a download: one sample per chunk, and the bytes they stand for. */
  ghost predicate Measured(x: Sess) {
    Past(x.c.phase) ==>
      && x.c.downloads != [] && x.c.bytesReceived == |x.c.downloads| * x.c.chunkSize
      && Series(x.c.downloads, x.c.chunkSize, x.now)
  }

  /** After an upload: the server's rows stand for the bytes the client sent. */
  predicate Balanced(x: Sess) {
    x.series != [] && !x.s.phase.ResultReceive? ==>
      && x.c.bytesSent == |x.series| * x.c.chunkSize
      && (x.s.phase.ResultSend? ==> x.s.received == x.series && x.s.totalBytes == x.c.bytesSent)
  }

  /** What a client step does not touch after the download. */
  predicate SameDownload(c: Client.Client, d: Client.Client) {
    && Past(d.phase) && d.downloads == c.downloads && d.bytesReceived == c.bytesReceived && d.chunkSize == c.chunkSize
  }

  lemma DownloadStaysOn(c: Client.Client, t: Tables, n: nat, now: nat)
    requires Past(c.phase)
    ensures SameDownload(c, Client.Enter(c, now)) && SameDownload(c, Client.Start(c, now))
        && SameDownload(c, Client.Wrote(t, c, n, now))
  {
    hide Client.Message;
  }

  lemma DownloadStaysGot(c: Client.Client, data: Bytes, now: nat)
    requires Past(c.phase) && 0 < |data| <= Client.Room(c) && |c.readBuffer| >= 5
    ensures SameDownload(c, Client.Got(c, data, now))
  {
    hide ParseTimeResult, EndsWith, Contains, Client.SecondNumber, Client.ParseTime, Store;
    match c.phase {
      case TimeReceiveTime =>
      case PerfReceiveOk =>
      case PerfReceiveTime =>
      case _ =>
    }
  }

  /** Only the end of GETTIME leads to the phases after the download. */
  lemma NotYetOn(c: Client.Client, t: Tables, n: nat, now: nat)
    requires !Past(c.phase)
    ensures !Past(Client.Enter(c, now).phase) && !Past(Client.Start(c, now).phase)
        && !Past(Client.Wrote(t, c, n, now).phase)
  {
    hide Client.Message, Client.Resize;
  }

  lemma NotYetGot(c: Client.Client, data: Bytes, now: nat)
    requires !Past(c.phase) && !c.phase.TimeReceiveChunk? && 0 < |data| <= Client.Room(c) && |c.readBuffer| >= 5
    ensures !Past(Client.Got(c, data, now).phase)
  {
    hide ParseTimeResult, EndsWith, Contains, Client.SecondNumber, Client.ParseTime, Store, Client.RoundDone,
      Client.PingDone;
    RoundStays(c, data, now);
    match c.phase {
      case ChunksReceiveChunk =>
      case _ =>
    }
  }

  lemma RoundStays(c: Client.Client, data: Bytes, now: nat)
    ensures forall d: Client.Client, t: nat :: d.phase.ChunksReceiveTime? ==> !Past(Client.RoundDone(d, t).phase)
    ensures forall d: Client.Client, t: nat :: d.phase.PingReceiveTime? ==> !Past(Client.PingDone(d, t, now).phase)
  {
  }

  lemma MeasuredStep(cfg: Config, x: Sess, l: Label)
    requires Inv(cfg, x) && Enabled(cfg, x, l) && Measured(x)
    ensures Measured(Step(cfg, x, l))
  {
    hide Inv, CanSend, CanTake, CanRead, CanWrite, Client.Enter, Client.Wrote, Client.Got, Client.Start,
      Server.Enter, Server.Got,
      Server.Wrote, Series, Measured;
    var y := Step(cfg, x, l);
    if x.c.phase.TimeReceiveChunk? {
      if y.c.phase != x.c.phase {
        ChunkPhaseEnds(cfg, x, l);
      }
    } else {
      var n := if l.ClientWrite? then l.n else 0;
      if Past(x.c.phase) {
        DownloadStaysOn(x.c, cfg.client, n, x.now);
      } else {
        NotYetOn(x.c, cfg.client, n, x.now);
      }
      if l.ClientRead? {
        TakesText(x.c, x.down, l.n);
        if Past(x.c.phase) {
          DownloadStaysGot(x.c, x.down[..l.n], x.now);
        } else {
          NotYetGot(x.c, x.down[..l.n], x.now);
        }
      }
    }
    MeasuredOn(x, y);
  }

  /** A state with the samples of an earlier one, or of a download that has just ended. */
  lemma MeasuredOn(x: Sess, y: Sess)
    requires Measured(x) && x.now <= y.now
    requires Past(y.c.phase) ==>
      || (Past(x.c.phase) && (SameDownload(x.c, y.c) || y.c == x.c))
      || (y.c.downloads != [] && y.c.bytesReceived == |y.c.downloads| * y.c.chunkSize
          && Series(y.c.downloads, y.c.chunkSize, y.now))
    ensures Measured(y)
  {
    hide Series;
    if Past(x.c.phase) {
      SeriesLater(x.c.downloads, x.c.chunkSize, x.now, y.now);
    }
  }

  lemma BalancedStep(cfg: Config, x: Sess, l: Label)
    requires Inv(cfg, x) && Enabled(cfg, x, l) && Recorded(x) && Balanced(x)
    ensures Balanced(Step(cfg, x, l))
  {
    hide Inv, CanSend, CanTake, CanRead, CanWrite, Client.Enter, Client.Wrote, Client.Got, Client.Start,
      Server.Enter, Server.Got,
      Server.Wrote, Series;
    var y := Step(cfg, x, l);
    if x.s.phase.ResultReceive? {
      if !y.s.phase.ResultReceive? {
        UploadPhaseEnds(cfg, x, l);
      }
    } else if x.series != [] {
      AfterTerminal(cfg, x);
      if l.ClientRead? {
        TakesText(x.c, x.down, l.n);
        SentStays(x.c, x.down[..l.n], x.now);
      } else if l.ServerEnter? {
        ResultEnters(cfg.server, x.s, x.now);
      } else if l.ServerWrite? {
        ResultWrites(cfg.server, x.s, l.n, x.now);
      } else if l.ServerRead? {
        ReadSome(x.s, x.up, l.n);
        NoResultRead(x.s, x.up[..l.n], x.now);
      } else if l.ClientWrite? {
        CanSendPhase(cfg.client, x.c, l.n);
      }
    }
  }

  lemma AfterTerminal(cfg: Config, x: Sess)
    requires Inv(cfg, x) && UploadPhase(x.c.phase) && !x.s.phase.ResultReceive?
    ensures x.c.phase.PerfReceiveTime? || x.c.phase.PerfCompleted?
  {
    hide Setup, ServerOk, ClientOk, NotStarted, TimeCounts, ResultCounts, Resulting, AfterUpload, Parsed, Rep,
      SentUp, ValidTables;
  }

  lemma SentStays(c: Client.Client, data: Bytes, now: nat)
    requires (c.phase.PerfReceiveTime? || c.phase.PerfCompleted?) && 0 < |data| <= Client.Room(c) && |c.readBuffer| >= 5
    ensures var d := Client.Got(c, data, now); d.bytesSent == c.bytesSent && d.chunkSize == c.chunkSize
  {
    hide ParseTimeResult, EndsWith;
  }

  lemma ResultEnters(t: Tables, s: Server.Server, now: nat)
    ensures var y := Server.Enter(t, s, now); y.phase.ResultSend? ==>
        s.phase.ResultSend? && y.received == s.received && y.totalBytes == s.totalBytes
  {
    hide Server.Overlay, TimeResult, Server.Fresh, Server.Elapsed;
  }

  lemma ResultWrites(t: Tables, s: Server.Server, n: nat, now: nat)
    ensures var y := Server.Wrote(t, s, n, now);
      y.phase.ResultSend? ==> s.phase.ResultSend? && y.received == s.received && y.totalBytes == s.totalBytes
  {
    hide Server.Message, Server.Finish;
    NoResultFinish(s, now);
  }

  lemma NoResultFinish(s: Server.Server, now: nat)
    ensures !Server.Finish(s, now).phase.ResultSend?
  {
    hide Server.Elapsed, Server.Zeros;
    match s.phase {
      case NoResultSendOk | ResultSendOk | PutSendOk =>
      case PutSendBytes =>
      case ResultSend =>
      case _ =>
    }
  }

  lemma ReadSome(s: Server.Server, up: Bytes, n: nat)
    requires CanRead(s, up, n)
    ensures Server.ReadPhase(s.phase) && 0 < n <= |up| && n <= Server.Room(s)
  {
  }

  lemma NoResultRead(s: Server.Server, data: Bytes, now: nat)
    requires Server.ReadPhase(s.phase) && !s.phase.ResultReceive? && 0 < |data| <= Server.Room(s)
    ensures !Server.Got(s, data, now).phase.ResultSend?
  {
    hide ParseCommand, Server.Elapsed, Server.IsOk, Store, Server.Boundary;
    match s.phase {
      case CommandReceive =>
      case NoResultReceive =>
      case PutReceive =>
      case _ =>
    }
  }

  /** In every state of every run: after the download the client holds one sample
      per chunk and the bytes they stand for; after the upload the rows the server
      recorded stand for the bytes the client sent. */
  lemma {:induction false} RunRecords(cfg: Config, xs: seq<Sess>, ls: seq<Label>, i: nat)
    requires Run(cfg, xs, ls) && i < |xs|
    ensures Measured(xs[i]) && Recorded(xs[i]) && Balanced(xs[i])
  {
    hide Inv, Enabled, Step, Measured, Recorded, Balanced;
    RunRecorded(cfg, xs, ls, i);
    if i == 0 {
      RecordsBegin(cfg, xs[0]);
    } else {
      var x := xs[i - 1];
      RunRecords(cfg, xs, ls, i - 1);
      RunInv(cfg, xs, ls, i - 1);
      MeasuredStep(cfg, x, ls[i - 1]);
      BalancedStep(cfg, x, ls[i - 1]);
    }
  }

  lemma RecordsBegin(cfg: Config, x: Sess)
    requires Initial(cfg, x)
    ensures Measured(x) && Balanced(x)
  {
  }
}
