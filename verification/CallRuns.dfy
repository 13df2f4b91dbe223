/** A client and a server joined by two byte streams and driven by handler calls
    alone: whatever the sockets answer, it is a session, so that what sessions
    record is what the handlers record. */
module CallRuns {
  import opened Text
  import opened Wire
  import opened Chunks
  import opened TimeResults
  import opened Session
  import opened SessionRuns
  import opened SessionPaths
  import opened Sockets
  import ServerCalls
  import ClientCalls
  import ServerRuns
  import ClientRuns
  import Server = ServerMachine
  import Client = ClientMachine

  /** Both ends with the client's write buffer, and the bytes in flight. */
  datatype Link = Link(c: Client.Client, buffer: Bytes, s: Server.Server, up: Bytes, down: Bytes, now: nat)

  datatype Move = Pause(d: nat) | Begin | ServerCall(script: seq<Answer>) | ClientCall(script: seq<Answer>)

  ghost predicate Starts(cfg: Config, p: Link) {
    && ValidTables(cfg.client) && ValidTables(cfg.server)
    && p == Link(Client.NewClient(cfg.token), p.buffer, Server.NewConnection(), [], UPGRADE, 0)
  }

  /** A call is made in a phase with a handler, on a socket that lets the messages
      which cannot be resumed through in one piece. */
  predicate Allowed(cfg: Config, p: Link, m: Move) {
    match m
    case Pause(d) => p.now + d < U64
    case Begin => Client.DonePhase(p.c.phase) && !p.c.phase.PerfCompleted?
    case ServerCall(script) =>
      && (Server.ReadPhase(p.s.phase) || Server.WritePhase(p.s.phase))
      && ServerRuns.Gentle(cfg.server, Server.Enter(cfg.server, p.s, p.now), World(p.up, [], p.now, script))
    case ClientCall(script) =>
      && (Client.ReadPhase(p.c.phase) || Client.WritePhase(p.c.phase))
      && var d := Client.Enter(p.c, p.now);
         ClientRuns.Gentle(cfg.client, d, ClientCalls.Filled(cfg.client, d, p.buffer), World(p.down, [], p.now, script))
  }

  function Next(cfg: Config, p: Link, m: Move): Link {
    match m
    case Pause(d) => p.(now := p.now + d)
    case Begin => p.(c := Client.Start(p.c, p.now))
    case ServerCall(script) =>
      var o := ServerCalls.Call(cfg.server, p.s, World(p.up, [], p.now, script));
      p.(s := o.s, up := o.w.inbox, down := p.down + o.w.out, now := o.w.now)
    case ClientCall(script) =>
      var o := ClientCalls.Call(cfg.client, p.c, p.buffer, World(p.down, [], p.now, script));
      p.(c := o.c, buffer := o.b, down := o.w.inbox, up := p.up + o.w.out, now := o.w.now)
  }

  ghost predicate CallRun(cfg: Config, ps: seq<Link>, ms: seq<Move>) {
    && |ps| == |ms| + 1 && Starts(cfg, ps[0])
    && forall i | 0 <= i < |ms| :: Allowed(cfg, ps[i], ms[i]) && ps[i + 1] == Next(cfg, ps[i], ms[i])
  }

  // ----- calls are paths

  predicate Shows(x: Sess, p: Link) { x.c == p.c && x.s == p.s && x.up == p.up && x.down == p.down && x.now == p.now }

  ghost predicate Reached(cfg: Config, x: Sess) { exists xs, ls :: Run(cfg, xs, ls) && xs[|ls|] == x }

  lemma ReachedOn(cfg: Config, x: Sess, y: Sess)
    requires Reached(cfg, x) && Leads(cfg, x, y)
    ensures Reached(cfg, y)
  {
    hide Enabled, Step, Initial;
    var xs, ls :| Run(cfg, xs, ls) && xs[|ls|] == x;
    var ys, ms :| Path(cfg, ys, ms) && ys[0] == x && ys[|ms|] == y;
    PathsJoin(cfg, xs, ls, ys, ms);
    var zs, ns := xs + ys[1..], ls + ms;
    assert Run(cfg, zs, ns) && zs[|ns|] == y;
  }

  lemma ReachedFacts(cfg: Config, x: Sess)
    requires Reached(cfg, x)
    ensures Inv(cfg, x) && Measured(x) && Recorded(x) && Balanced(x)
  {
    hide Enabled, Step, Initial, Inv, Measured, Recorded, Balanced;
    var xs, ls :| Run(cfg, xs, ls) && xs[|ls|] == x;
    RunInv(cfg, xs, ls, |ls|);
    RunRecords(cfg, xs, ls, |ls|);
  }

  lemma StartReached(cfg: Config, p: Link)
    requires Starts(cfg, p)
    ensures var x := Sess(p.c, p.s, p.up, p.down, p.now, Count(0, 0, 0), [], []); Reached(cfg, x) && Shows(x, p)
  {
    var x := Sess(p.c, p.s, p.up, p.down, p.now, Count(0, 0, 0), [], []);
    var xs, ls: seq<Label> := [x], [];
    assert Run(cfg, xs, ls) && xs[|ls|] == x;
  }

  /** Every move continues the session. */
  lemma MoveLeads(cfg: Config, x: Sess, p: Link, m: Move) returns (y: Sess)
    requires Reached(cfg, x) && Shows(x, p) && Allowed(cfg, p, m)
    ensures Reached(cfg, y) && Shows(y, Next(cfg, p, m))
  {
    hide Inv, Leads, Measured, Recorded, Balanced, Reached, ServerRuns.Gentle, ClientRuns.Gentle, ServerCalls.Call,
      ClientCalls.Call,
      Client.Enter, Client.Start, Server.Enter, ClientCalls.Filled;
    ReachedFacts(cfg, x);
    match m {
      case Pause(d) =>
        y := x.(now := x.now + d);
        LeadsTick(cfg, x, x.now + d);
      case Begin =>
        y := Step(cfg, x, StartRun);
        LeadsStep(cfg, x, StartRun);
      case ServerCall(script) =>
        ServerRuns.CallKeeps(cfg, x, script);
        var o := ServerCalls.Call(cfg.server, x.s, World(x.up, [], x.now, script));
        y :| Inv(cfg, y) && Leads(cfg, x, y) && ServerRuns.Follows(x, y, o, []);
        assert o.w.out[0..] == o.w.out;
      case ClientCall(script) =>
        ClientRuns.CallKeeps(cfg, x, p.buffer, script);
        var o := ClientCalls.Call(cfg.client, x.c, p.buffer, World(x.down, [], x.now, script));
        y :| Inv(cfg, y) && Leads(cfg, x, y) && ClientRuns.Follows(x, y, o, []);
        assert o.w.out[0..] == o.w.out;
    }
    ReachedOn(cfg, x, y);
  }

  /** A run of calls is a run of the session. */
  lemma {:induction false} CallsAreSteps(cfg: Config, ps: seq<Link>, ms: seq<Move>, i: nat) returns (x: Sess)
    requires CallRun(cfg, ps, ms) && i < |ps|
    ensures Reached(cfg, x) && Shows(x, ps[i])
  {
    hide Reached, Shows, Allowed, Next;
    if i == 0 {
      StartReached(cfg, ps[0]);
      x := Sess(ps[0].c, ps[0].s, ps[0].up, ps[0].down, ps[0].now, Count(0, 0, 0), [], []);
    } else {
      x := CallsAreSteps(cfg, ps, ms, i - 1);
      x := MoveLeads(cfg, x, ps[i - 1], ms[i - 1]);
    }
  }

  // ----- what the handlers have recorded

  /** After any calls on any sockets: no server handler has failed. When the client
      has left GETTIME it holds one sample per chunk with the byte column size,
      2 * size, ... and times that do not decrease; as it leaves, both streams are
      empty and the server waits for its OK. */
  lemma DownloadByCalls(cfg: Config, ps: seq<Link>, ms: seq<Move>, i: nat)
    requires CallRun(cfg, ps, ms) && i < |ps|
    ensures var p := ps[i];
      && !p.s.phase.Closed?
      && (Past(p.c.phase) ==>
            && p.c.downloads != [] && p.c.bytesReceived == |p.c.downloads| * p.c.chunkSize
            && Series(p.c.downloads, p.c.chunkSize, p.now))
      && (p.c.phase.TimeSendOk? ==> p.up == [] && p.down == [] && p.s.phase.TimeReceiveOk?)
  {
    hide Inv, Reached, CallRun, Recorded, Balanced, Series;
    var x := CallsAreSteps(cfg, ps, ms, i);
    ReachedFacts(cfg, x);
    NeverClosed(cfg, x);
    if ps[i].c.phase.TimeSendOk? {
      AsksAtEnd(cfg, x);
    }
  }

  lemma AsksAtEnd(cfg: Config, x: Sess)
    requires Inv(cfg, x) && x.c.phase.TimeSendOk?
    ensures x.up == [] && x.down == [] && x.s.phase.TimeReceiveOk?
  {
    hide Setup, ServerOk, ClientOk, NotStarted;
    assert OK[0..] == OK;
  }

  /** When the server has taken the terminal chunk, the bytes it counted are those
      the client sent, and its series has one row per chunk. */
  lemma UploadByCalls(cfg: Config, ps: seq<Link>, ms: seq<Move>, i: nat)
    requires CallRun(cfg, ps, ms) && i < |ps| && ps[i].s.phase.ResultSend?
    ensures var (c, s) := (ps[i].c, ps[i].s);
      && s.received != [] && s.totalBytes == c.bytesSent == |s.received| * c.chunkSize
          && Series(s.received, c.chunkSize, ps[i].now)
  {
    hide Inv, Reached, CallRun, Measured, Series;
    var x := CallsAreSteps(cfg, ps, ms, i);
    ReachedFacts(cfg, x);
    SeriesAtEnd(cfg, x);
  }

  lemma SeriesAtEnd(cfg: Config, x: Sess)
    requires Inv(cfg, x) && (x.s.phase.ResultSend? || x.c.phase.PerfCompleted?)
    ensures x.series != [] && !x.s.phase.ResultReceive?
  {
    hide Setup, ServerOk, ClientOk, NotStarted, WritePosOk, Promise, Reply, Report, Parsed, Request, Unsent, SText,
      CText, SentDown,
      SentUp, Rep, TimeCounts, ResultCounts, UploadReady, ChunkCounts, EndsWith;
  }

  /** What the client ends with, when the bytes sent fit in 64 bits: for some rows
      that stand for them, all but the last, and then the pairs in what it took
      behind the result line. */
  lemma ReportByCalls(cfg: Config, ps: seq<Link>, ms: seq<Move>, i: nat) returns (rows: seq<Sample>, report: Bytes)
    requires CallRun(cfg, ps, ms) && i < |ps| && ps[i].c.phase.PerfCompleted? && ps[i].c.bytesSent < U64
    ensures var (c, line) := (ps[i].c, TimeResult(rows));
      && rows != [] && c.bytesSent == |rows| * c.chunkSize && Series(rows, c.chunkSize, ps[i].now)
      && line <= report <= Report(cfg.client, c.chunkSize, rows)
      && var further := ParsePairs(Split(report[|line|..])[1..]);
         && c.uploads == rows[..|rows| - 1] + further
         && (c.uploads == rows[..|rows| - 1] <==> further == [])
  {
    hide Inv, Reached, CallRun, Measured, Series, TimeResult, Report, ParsePairs, Split, Contains, EndsWith;
    var x := CallsAreSteps(cfg, ps, ms, i);
    ReachedFacts(cfg, x);
    SeriesAtEnd(cfg, x);
    EndReported(cfg, x);
    rows, report := x.series, x.report;
  }
}
