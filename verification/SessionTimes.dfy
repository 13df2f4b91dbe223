/** The clocks of a session. A tally is kept beside a run from the steps alone: when
    the server began a command, how long it took, when the client began a phase.
    Every time that the two machines store, print and act on agrees with it. */
module SessionTimes {
  import opened Text
  import opened Wire
  import opened Chunks
  import opened Commands
  import opened TimeResults
  import opened Pings
  import opened Session
  import opened SessionSteps
  import opened SessionClient
  import opened SessionRuns
  import Server = ServerMachine
  import Client = ClientMachine

  /** `began`: when the server began the command. `took`: the time from there to its
      last measurement. `rows`: to each chunk of an upload. `answers`: the times of all
      pings. `asked`: when the client began the phase. `samples`: the time from there
      to each chunk of GETTIME. */
  datatype Tally = Tally(began: Option<nat>, took: Option<int>, rows: seq<int>, answers: seq<int>,
                         asked: Option<nat>, samples: seq<int>)

  const FIRST: Tally := Tally(None, None, [], [], Some(0), [])

  function Ago(start: Option<nat>, now: nat): int { if start.Some? then now - start.value else 0 }

  predicate Begins(p: Server.Phase) {
    p.PongSend? || p.ChunksSend? || p.TimeSendChunk? || p.ResultSendOk? || p.PutSendOk?
  }

  /** A handler's entry begins the command, once; the time answers end it. */
  function NoteEnter(p: Server.Phase, now: nat, g: Tally): Tally {
    if Begins(p) && g.began.None? then g.(began := Some(now))
    else if p.ChunksSendTime? || p.TimeSendTime? then g.(began := None)
    else g
  }

  /** The upload is timed from the OK on; its line adds a last row. */
  function NoteWrite(p: Server.Phase, q: Server.Phase, now: nat, g: Tally): Tally {
    if p.ResultSendOk? && q != p then g.(began := Some(now))
    else if p.ResultSend? && q != p then g.(rows := g.rows + [Ago(g.began, now)])
    else g
  }

  /** The client's OK ends the measured time; every whole upload chunk is timed. */
  function NoteRead(s: Server.Server, q: Server.Phase, n: nat, now: nat, g: Tally): Tally {
    var ago := Ago(g.began, now);
    if s.phase.ResultReceive? then if s.readPos + n == s.chunkSize then g.(rows := g.rows + [ago]) else g
    else if q == s.phase then g
    else if s.phase.ChunksReceiveOk? || s.phase.TimeReceiveOk? then g.(took := Some(ago))
    else if s.phase.PingReceiveOk? then g.(took := Some(ago), answers := g.answers + [ago], began := None)
    else g
  }

  function NoteClientWrite(p: Client.Phase, q: Client.Phase, now: nat, g: Tally): Tally {
    if p.TimeSendCommand? && q != p then g.(asked := Some(now))
    else if p.PingSendPing? && q != p && g.asked.None? then g.(asked := Some(now))
    else g
  }

  function NoteClientRead(c: Client.Client, q: Client.Phase, n: nat, now: nat, g: Tally): Tally {
    if c.phase.TimeReceiveChunk? then
      if c.readPos + n == c.chunkSize then g.(samples := g.samples + [Ago(g.asked, now)]) else g
    else if c.phase.TimeReceiveTime? && q != c.phase then g.(asked := None)
    else g
  }

  function Noted(x: Sess, l: Label, y: Sess, g: Tally): Tally {
    match l
    case Tick(_) => g
    case StartRun => g.(asked := Some(x.now))
    case ClientEnter => if x.c.phase.PerfSendChunks? && g.asked.None? then g.(asked := Some(x.now)) else g
    case ServerEnter => NoteEnter(x.s.phase, x.now, g)
    case ClientWrite(n) => NoteClientWrite(x.c.phase, y.c.phase, x.now, g)
    case ServerWrite(n) => NoteWrite(x.s.phase, y.s.phase, x.now, g)
    case ClientRead(n) => NoteClientRead(x.c, y.c.phase, n, x.now, g)
    case ServerRead(n) => NoteRead(x.s, y.s.phase, n, x.now, g)
  }

  function TallyAt(xs: seq<Sess>, ls: seq<Label>, i: nat): Tally
    requires |xs| == |ls| + 1 && i < |xs|
  {
    if i == 0 then FIRST else Noted(xs[i - 1], ls[i - 1], xs[i], TallyAt(xs, ls, i - 1))
  }

  predicate SameTimes(ps: seq<Sample>, ts: seq<int>) { |ps| == |ts| && forall j | 0 <= j < |ps| :: ps[j].0 == ts[j] }

  // ----- the server

  predicate Clocked(s: Server.Server, g: Tally) {
    && s.clock == g.began && SameTimes(s.received, g.rows)
    && (s.timeNs.Some? <==> g.took.Some?) && (s.timeNs.Some? ==> s.timeNs.value == g.took.value)
  }

  /** The phases of a session: no PUT and no PUTNORESULT. */
  predicate InSession(p: Server.Phase) {
    && !p.PutSendOk? && !p.PutReceive? && !p.PutSendBytes? && !p.PutSendTime?
    && !p.NoResultSendOk? && !p.NoResultReceive? && !p.NoResultSendTime?
  }

  lemma EnterClocked(t: Tables, s: Server.Server, now: nat, g: Tally)
    requires Clocked(s, g)
    ensures Clocked(Server.Enter(t, s, now), NoteEnter(s.phase, now, g))
  {
    hide SameTimes, Server.Overlay, Server.Fresh, TimeResult, Server.Elapsed;
    match s.phase {
      case PongSend | PutSendOk | ResultSendOk =>
      case ChunksSend =>
      case TimeSendChunk =>
      case _ =>
    }
  }

  lemma ElapsedIs(s: Server.Server, g: Tally, now: nat)
    requires s.clock == g.began && s.clock.Some? && s.clock.value <= now
    ensures Server.Elapsed(s, now) == Ago(g.began, now)
  {
  }

  lemma SameSnoc(ps: seq<Sample>, ts: seq<int>, p: Sample, t: int)
    requires SameTimes(ps, ts) && p.0 == t
    ensures SameTimes(ps + [p], ts + [t])
  {
  }

  predicate SameClock(s: Server.Server, y: Server.Server) {
    y.clock == s.clock && y.timeNs == s.timeNs && y.received == s.received
  }

  lemma KeptClock(s: Server.Server, y: Server.Server, g: Tally)
    requires Clocked(s, g) && SameClock(s, y)
    ensures Clocked(y, g)
  {
    hide SameTimes;
  }

  lemma FinishFrame(s: Server.Server, now: nat)
    requires InSession(s.phase) && !s.phase.ResultSend? && !s.phase.ResultSendOk?
    ensures var y := Server.Finish(s, now); SameClock(s, y)
  {
    hide Server.Elapsed, Server.Zeros;
  }

  lemma WriteClocked(t: Tables, s: Server.Server, n: nat, now: nat, g: Tally)
    requires Clocked(s, g) && Server.WritePhase(s.phase) && InSession(s.phase)
    requires s.phase.ResultSend? ==> s.clock.Some? && s.clock.value <= now
    ensures var y := Server.Wrote(t, s, n, now); Clocked(y, NoteWrite(s.phase, y.phase, now, g))
  {
    hide Clocked, SameClock, InSession, Server.Message, Server.Finish, Server.Elapsed, Ago;
    assert SameClock(s, s.(writePos := s.writePos + n)) by { PosFrame(s, s.writePos + n); }
    if s.writePos + n != |Server.Message(t, s)| {
      KeptClock(s, s.(writePos := s.writePos + n), g);
    } else if s.phase.ResultSend? {
      LastRow(s, now, g);
    } else if s.phase.ResultSendOk? {
      UploadBegins(s, now, g);
    } else {
      FinishFrame(s, now);
      KeptClock(s, Server.Finish(s, now), g);
    }
  }

  lemma PosFrame(s: Server.Server, pos: nat)
    ensures SameClock(s, s.(writePos := pos))
  {
  }

  lemma LastRow(s: Server.Server, now: nat, g: Tally)
    requires Clocked(s, g) && s.phase.ResultSend? && s.clock.Some? && s.clock.value <= now
    ensures Server.Finish(s, now).phase.CommandSend?
    ensures Clocked(Server.Finish(s, now), g.(rows := g.rows + [Ago(g.began, now)]))
  {
    hide SameTimes, Server.Elapsed, Ago;
    ElapsedIs(s.(writePos := 0), g, now);
    SameSnoc(s.received, g.rows, (Ago(g.began, now), s.totalBytes + |s.chunkBuffer|), Ago(g.began, now));
  }

  lemma UploadBegins(s: Server.Server, now: nat, g: Tally)
    requires Clocked(s, g) && s.phase.ResultSendOk?
    ensures Server.Finish(s, now).phase.ResultReceive? && Clocked(Server.Finish(s, now), g.(began := Some(now)))
  {
    hide SameTimes, Server.Zeros;
  }

  /** Commands and tokens do not touch the clock. */
  lemma LineFrame(s: Server.Server, data: Bytes, now: nat)
    requires (s.phase.CommandReceive? || s.phase.ReceiveToken?) && 0 < |data| <= Server.Room(s)
    ensures SameClock(s, Server.Got(s, data, now))
  {
    hide ParseCommand, Store;
  }

  /** The client's OK is complete, or not. */
  lemma OkTimed(s: Server.Server, data: Bytes, now: nat, g: Tally)
    requires Clocked(s, g) && (s.phase.ChunksReceiveOk? || s.phase.TimeReceiveOk? || s.phase.PingReceiveOk?)
    requires 0 < |data| <= Server.Room(s) && s.clock.Some? && s.clock.value <= now
    ensures var y := Server.Got(s, data, now); Clocked(y, NoteRead(s, y.phase, |data|, now, g))
  {
    hide SameTimes, Store, Server.IsOk, Server.Elapsed, Ago;
    ElapsedIs(s, g, now);
  }

  lemma ReadClocked(s: Server.Server, data: Bytes, now: nat, g: Tally)
    requires Clocked(s, g) && Server.ReadPhase(s.phase) && InSession(s.phase) && 0 < |data| <= Server.Room(s)
    requires Server.NeedsClock(s.phase) ==> s.clock.Some? && s.clock.value <= now
    ensures var y := Server.Got(s, data, now); Clocked(y, NoteRead(s, y.phase, |data|, now, g))
  {
    hide Clocked, SameClock, Server.Got, Ago, Server.Room;
    if s.phase.CommandReceive? || s.phase.ReceiveToken? {
      LineFrame(s, data, now);
      KeptClock(s, Server.Got(s, data, now), g);
    } else if s.phase.ResultReceive? {
      ClockedElapsed(s, g, now);
      ResultRow(s, data, now, g);
    } else {
      OkTimed(s, data, now, g);
    }
  }

  lemma ClockedElapsed(s: Server.Server, g: Tally, now: nat)
    requires Clocked(s, g) && s.clock.Some? && s.clock.value <= now
    ensures Server.Elapsed(s, now) == Ago(g.began, now)
  {
  }

  lemma ResultRow(s: Server.Server, data: Bytes, now: nat, g: Tally)
    requires Clocked(s, g) && s.phase.ResultReceive? && 0 < |data| <= Server.Room(s)
    requires Server.Elapsed(s, now) == Ago(g.began, now)
    ensures var y := Server.Got(s, data, now); Clocked(y, NoteRead(s, y.phase, |data|, now, g))
  {
    hide SameTimes, Store, Server.Boundary, Ago, Server.Elapsed;
    SameElapsed(s, Server.GotChunk(s, data).(totalBytes := s.totalBytes + |data|), now);
    SameSnoc(s.received, g.rows, (Server.Elapsed(s, now), s.totalBytes + |data|), Ago(g.began, now));
  }

  lemma SessionPhases(cfg: Config, x: Sess)
    requires Inv(cfg, x)
    ensures InSession(x.s.phase)
  {
    hide Setup, ServerOk, ClientOk, NotStarted, WritePosOk, Promise, Reply, Report, Parsed, Request, Unsent, SText,
      CText, SentDown, SentUp, Rep, TimeCounts, ResultCounts, UploadReady, ChunkCounts, EndsWith;
  }

  lemma ServerClocked(cfg: Config, x: Sess, l: Label, g: Tally)
    requires Inv(cfg, x) && Enabled(cfg, x, l) && Clocked(x.s, g)
    ensures var y := Step(cfg, x, l); Clocked(y.s, Noted(x, l, y, g))
  {
    hide Inv, CanSend, CanTake, CanRead, CanWrite, Client.Enter, Client.Wrote, Client.Got, Client.Start, Server.Enter,
      Server.Got, Server.Wrote, NoteEnter, NoteRead, NoteWrite, NoteClientRead, NoteClientWrite, SameTimes;
    SessionPhases(cfg, x);
    ClockReady(cfg, x);
    match l {
      case ServerEnter => EnterClocked(cfg.server, x.s, x.now, g);
      case ServerWrite(n) =>
        CanWritePhase(cfg.server, x.s, n);
        WriteClocked(cfg.server, x.s, n, x.now, g);
      case ServerRead(n) =>
        ReadFits(x.s, x.up, n);
        ReadClocked(x.s, x.up[..n], x.now, g);
      case ClientWrite(n) => ClientNotes(x.c, Client.Wrote(cfg.client, x.c, n, x.now).phase, n, x.now, g);
      case ClientRead(n) =>
        TakesText(x.c, x.down, n);
        ClientNotes(x.c, Client.Got(x.c, x.down[..n], x.now).phase, n, x.now, g);
      case _ =>
    }
  }

  lemma ClockReady(cfg: Config, x: Sess)
    requires Inv(cfg, x)
    ensures Server.NeedsClock(x.s.phase) ==> x.s.clock.Some? && x.s.clock.value <= x.now
    ensures x.c.phaseStart.Some? ==> x.c.phaseStart.value <= x.now
    ensures var p := x.c.phase;
      p.TimeReceiveChunk? || p.PingReceiveTime? || p.PerfSendChunks? ==> x.c.phaseStart.Some?
  {
    hide Paired, Setup, NotStarted;
  }

  lemma ReadFits(s: Server.Server, up: Bytes, n: nat)
    requires CanRead(s, up, n)
    ensures Server.ReadPhase(s.phase) && 0 < n <= |up| && n <= Server.Room(s)
  {
  }

  lemma ClientNotes(c: Client.Client, q: Client.Phase, n: nat, now: nat, g: Tally)
    ensures var h := NoteClientWrite(c.phase, q, now, g); h == g.(asked := h.asked)
    ensures var h := NoteClientRead(c, q, n, now, g); h == g.(asked := h.asked, samples := h.samples)
  {
  }

  lemma ServerNotes(s: Server.Server, q: Server.Phase, n: nat, now: nat, g: Tally)
    ensures var h := NoteEnter(s.phase, now, g); h == g.(began := h.began)
    ensures var h := NoteWrite(s.phase, q, now, g); h == g.(began := h.began, rows := h.rows)
    ensures var h := NoteRead(s, q, n, now, g);
      h == g.(began := h.began, took := h.took, rows := h.rows, answers := h.answers)
  {
  }

  // ----- the client

  predicate Stamped(c: Client.Client, g: Tally) { c.phaseStart == g.asked && SameTimes(c.downloads, g.samples) }

  lemma ClientElapsedIs(c: Client.Client, g: Tally, now: nat)
    requires c.phaseStart == g.asked && c.phaseStart.Some? && c.phaseStart.value <= now
    ensures Client.Elapsed(c, now) == Ago(g.asked, now)
  {
  }

  lemma WriteStamped(t: Tables, c: Client.Client, n: nat, now: nat, g: Tally)
    requires Stamped(c, g) && Client.WritePhase(c.phase)
    ensures var d := Client.Wrote(t, c, n, now); Stamped(d, NoteClientWrite(c.phase, d.phase, now, g))
  {
    hide SameTimes, Client.Message, Client.Elapsed, Client.Resize;
    match c.phase {
      case PingSendPing =>
      case TimeSendCommand =>
      case PerfSendChunks =>
      case PerfSendLast =>
      case _ =>
    }
  }

  lemma ReadStamped(c: Client.Client, data: Bytes, now: nat, g: Tally)
    requires Stamped(c, g) && Client.ReadPhase(c.phase) && 0 < |data| <= Client.Room(c) && |c.readBuffer| >= 5
    requires c.phase.TimeReceiveChunk? ==> c.phaseStart.Some? && c.phaseStart.value <= now
    ensures var d := Client.Got(c, data, now); Stamped(d, NoteClientRead(c, d.phase, |data|, now, g))
  {
    hide SameTimes, Store, Client.Boundary, Client.Elapsed, Ago, Client.RoundDone, Client.PingDone, ParseTimeResult,
      Contains, EndsWith, Client.ParseTime, Client.SecondNumber, Client.GotChunksChunk;
    if c.phase.TimeReceiveChunk? {
      ClientElapsedIs(c, g, now);
      SampleStamped(c, data, now, g);
    } else if c.phase.ChunksReceiveChunk? {
      ChunkKeeps(c, data, now);
    } else if !c.phase.PerfReceiveTime? && !c.phase.PerfReceiveOk? {
      RoundKeeps(Client.GotText(c, data), now);
    }
  }

  lemma SampleStamped(c: Client.Client, data: Bytes, now: nat, g: Tally)
    requires Stamped(c, g) && c.phase.TimeReceiveChunk? && 0 < |data| <= Client.Room(c) && |c.readBuffer| >= 5
    requires Client.Elapsed(c, now) == Ago(g.asked, now)
    ensures var d := Client.Got(c, data, now); Stamped(d, NoteClientRead(c, d.phase, |data|, now, g))
  {
    hide SameTimes, Store, Client.Boundary, Ago;
    SameSnoc(c.downloads, g.samples, (Client.Elapsed(c, now), c.bytesReceived + c.chunkSize), Ago(g.asked, now));
  }

  lemma ChunkKeeps(c: Client.Client, data: Bytes, now: nat)
    requires c.phase.ChunksReceiveChunk? && 0 < |data| <= Client.Room(c) && |c.readBuffer| >= 5
    ensures var d := Client.Got(c, data, now); d.phaseStart == c.phaseStart && d.downloads == c.downloads
  {
    hide Store, Client.Boundary;
  }

  predicate SameStamps(c: Client.Client, d: Client.Client) {
    d.phaseStart == c.phaseStart && d.downloads == c.downloads
  }

  lemma RoundKeeps(c: Client.Client, now: nat)
    ensures forall t: nat :: SameStamps(c, Client.RoundDone(c, t)) && SameStamps(c, Client.PingDone(c, t, now))
  {
  }

  lemma ClientStamped(cfg: Config, x: Sess, l: Label, g: Tally)
    requires Inv(cfg, x) && Enabled(cfg, x, l) && Stamped(x.c, g)
    ensures var y := Step(cfg, x, l); Stamped(y.c, Noted(x, l, y, g))
  {
    hide Inv, CanSend, CanTake, CanRead, CanWrite, Client.Wrote, Client.Got, Server.Enter, Server.Got,
      Server.Wrote, NoteEnter, NoteRead, NoteWrite, NoteClientRead, NoteClientWrite, SameTimes;
    ClockReady(cfg, x);
    match l {
      case ClientWrite(n) =>
        CanSendPhase(cfg.client, x.c, n);
        WriteStamped(cfg.client, x.c, n, x.now, g);
      case ClientRead(n) =>
        TakesText(x.c, x.down, n);
        TakesIn(x.c, x.down, n);
        ReadStamped(x.c, x.down[..n], x.now, g);
      case ServerEnter => ServerNotes(x.s, x.s.phase, 0, x.now, g);
      case ServerWrite(n) => ServerNotes(x.s, Step(cfg, x, l).s.phase, n, x.now, g);
      case ServerRead(n) => ServerNotes(x.s, Step(cfg, x, l).s.phase, n, x.now, g);
      case _ =>
    }
  }

  lemma TakesIn(c: Client.Client, down: Bytes, n: nat)
    requires CanTake(c, down, n)
    ensures Client.ReadPhase(c.phase)
  {
  }

  // ----- pings

  /** The server has answered a ping and the client has not taken the answer. */
  predicate InFlight(x: Sess) { x.c.phase.PingReceiveTime? && !x.s.phase.PingReceiveOk? }

  /** The client has recorded the times of all answers but one in flight; its median
      is that of all of them, and it has one when the pings are over. */
  predicate Pinged(x: Sess, g: Tally) {
    var ts := x.c.pingTimes;
    && |g.answers| == |ts| + (if InFlight(x) then 1 else 0)
    && (forall j | 0 <= j < |ts| :: ts[j] == g.answers[j])
    && (InFlight(x) ==> g.took == Some(g.answers[|ts|]))
    && Averaged(x.c)
  }

  predicate Averaged(c: Client.Client) {
    && (c.phase.PingCompleted? ==> c.pingMedian.Some?)
    && (c.pingMedian.Some? ==> c.pingTimes != [] && c.pingMedian.value == Median(c.pingTimes))
    && (BeforePing(c.phase) || Pinging(c.phase) ==> c.pingMedian.None?)
  }

  predicate SamePings(c: Client.Client, d: Client.Client) {
    && d.pingTimes == c.pingTimes && d.pingMedian == c.pingMedian
    && (BeforePing(d.phase) || Pinging(d.phase) ==> BeforePing(c.phase) || Pinging(c.phase))
    && (d.phase.PingCompleted? ==> c.phase.PingCompleted?)
  }

  lemma PingsStayOn(t: Tables, c: Client.Client, n: nat, now: nat)
    ensures SamePings(c, Client.Enter(c, now)) && SamePings(c, Client.Start(c, now))
    ensures SamePings(c, Client.Wrote(t, c, n, now))
    ensures !c.phase.PingSendOk? && !c.phase.PingReceiveTime? ==> !Client.Wrote(t, c, n, now).phase.PingReceiveTime?
    ensures !c.phase.PingReceiveTime? ==>
      !Client.Enter(c, now).phase.PingReceiveTime? && !Client.Start(c, now).phase.PingReceiveTime?
  {
    hide Client.Message, Client.Resize, Client.Elapsed;
  }

  lemma PingsStayGot(c: Client.Client, data: Bytes, now: nat)
    requires !c.phase.PingReceiveTime? && 0 < |data| <= Client.Room(c) && |c.readBuffer| >= 5
    ensures var d := Client.Got(c, data, now); SamePings(c, d) && !d.phase.PingReceiveTime?
  {
    hide Store, Client.Boundary, Client.Elapsed, ParseTimeResult, Contains, EndsWith, Client.ParseTime,
      Client.SecondNumber, Client.PingDone, Client.RoundDone, Client.GotChunk, Client.GotText, Client.GotTimeChunk,
      Client.GotChunksChunk, Client.GotResult, Client.GotReply;
    if c.phase.TimeReceiveChunk? || c.phase.ChunksReceiveChunk? {
      ChunkPings(c, data, now);
    } else if c.phase.PerfReceiveTime? || c.phase.PerfReceiveOk? {
      UploadPings(c, data, now);
    } else {
      ReplyPings(c, data, now);
    }
  }

  lemma ChunkPings(c: Client.Client, data: Bytes, now: nat)
    requires c.phase.TimeReceiveChunk? || c.phase.ChunksReceiveChunk?
    requires 0 < |data| <= Client.Room(c) && |c.readBuffer| >= 5
    ensures var d := Client.Got(c, data, now); SamePings(c, d) && !d.phase.PingReceiveTime?
  {
    hide Store, Client.Boundary, Client.Elapsed;
  }

  lemma UploadPings(c: Client.Client, data: Bytes, now: nat)
    requires c.phase.PerfReceiveTime? || c.phase.PerfReceiveOk?
    requires 0 < |data| <= Client.Room(c) && |c.readBuffer| >= 5
    ensures var d := Client.Got(c, data, now); SamePings(c, d) && !d.phase.PingReceiveTime?
  {
    hide Store, ParseTimeResult, EndsWith;
  }

  lemma ReplyPings(c: Client.Client, data: Bytes, now: nat)
    requires !c.phase.PingReceiveTime? && !c.phase.TimeReceiveChunk? && !c.phase.ChunksReceiveChunk?
    requires !c.phase.PerfReceiveTime? && !c.phase.PerfReceiveOk? && 0 < |data| <= Client.Room(c) && |c.readBuffer| >= 5
    ensures var d := Client.Got(c, data, now); SamePings(c, d) && !d.phase.PingReceiveTime?
  {
    hide Store, Contains, EndsWith, Client.ParseTime, Client.SecondNumber, Client.PingDone, Client.RoundDone;
    RoundPings(c, data, now);
  }

  lemma RoundPings(c: Client.Client, data: Bytes, now: nat)
    ensures forall d: Client.Client, t: nat ::
      d.phase.ChunksReceiveTime? ==>
        SamePings(d, Client.RoundDone(d, t)) && !Client.RoundDone(d, t).phase.PingReceiveTime?
  {
  }

  /** What a recorded ping leads to. */
  lemma PingTaken(c: Client.Client, time: nat, now: nat, g: Tally)
    requires c.phase.PingReceiveTime? && c.phaseStart == g.asked && c.phaseStart.Some? && c.phaseStart.value <= now
    requires Averaged(c)
    ensures var d := Client.PingDone(c, time, now);
      && d.pingTimes == c.pingTimes + [time] && Averaged(d) && !d.phase.PingReceiveTime?
      && (d.phase.PingCompleted? <==> Ago(g.asked, now) >= 1_000_000_000 || |c.pingTimes| + 1 >= 200)
      && (!d.phase.PingCompleted? ==> d.phase.PingSendPing?)
  {
    hide Median;
  }

  /** An answer in flight: the server writes its time or the prompt, or waits. */
  lemma InFlightPhases(cfg: Config, x: Sess)
    requires Inv(cfg, x) && InFlight(x)
    ensures Answering(cfg.server, x.c, x.s, x.up, x.down) && x.up == []
    ensures x.s.phase.PingSendTime? || x.s.phase.CommandSend? || x.s.phase.CommandReceive?
  {
    hide Setup, ServerOk, ClientOk, NotStarted, Promise, Reply, CText, WritePosOk;
  }

  lemma {:induction false} ClientReadPings(cfg: Config, x: Sess, n: nat, g: Tally)
    requires Inv(cfg, x) && CanTake(x.c, x.down, n) && Pinged(x, g) && Clocked(x.s, g) && x.c.phaseStart == g.asked
    ensures Pinged(x.(down := x.down[n..], c := Client.Got(x.c, x.down[..n], x.now)), g)
    ensures var d := Client.Got(x.c, x.down[..n], x.now); x.c.phase.PingReceiveTime? && d.phase != x.c.phase ==>
      && (d.phase.PingCompleted? <==> Ago(g.asked, x.now) >= 1_000_000_000 || |d.pingTimes| >= 200)
      && (!d.phase.PingCompleted? ==> d.phase.PingSendPing?)
  {
    hide Inv, Client.Got, CanTake, Answering, Averaged, SameTimes;
    var (c, down) := (x.c, x.down);
    TakesText(c, down, n);
    if !c.phase.PingReceiveTime? {
      PingsStayGot(c, down[..n], x.now);
      AveragedStays(c, Client.Got(c, down[..n], x.now));
    } else {
      TakePingAnswer(cfg, x, n);
      ClockReady(cfg, x);
      PingAnswerRead(cfg, x, n, g);
    }
  }

  lemma AveragedStays(c: Client.Client, d: Client.Client)
    requires Averaged(c) && SamePings(c, d)
    ensures Averaged(d)
  {
    hide Median;
  }

  /** A client that takes bytes while it waits for a time takes them from an answer. */
  lemma TakePingAnswer(cfg: Config, x: Sess, n: nat)
    requires Inv(cfg, x) && CanTake(x.c, x.down, n) && x.c.phase.PingReceiveTime?
    ensures InFlight(x) && Answering(cfg.server, x.c, x.s, [], x.down)
  {
    hide Setup, ServerOk, ClientOk, NotStarted, Promise, Reply, CText, WritePosOk, Server.TimeOf;
    TakePairs(cfg, x, n);
  }

  lemma PingAnswerRead(cfg: Config, x: Sess, n: nat, g: Tally)
    requires Answering(cfg.server, x.c, x.s, [], x.down) && CanTake(x.c, x.down, n) && x.c.phase.PingReceiveTime?
    requires Pinged(x, g) && InFlight(x) && Clocked(x.s, g)
    requires x.c.phaseStart == g.asked && x.c.phaseStart.Some? && x.c.phaseStart.value <= x.now
    ensures var d := Client.Got(x.c, x.down[..n], x.now);
      && Pinged(x.(down := x.down[n..], c := d), g)
      && (d.phase != x.c.phase ==>
            && (d.phase.PingCompleted? <==> Ago(g.asked, x.now) >= 1_000_000_000 || |d.pingTimes| >= 200)
            && (!d.phase.PingCompleted? ==> d.phase.PingSendPing?))
  {
    hide Answering, Client.Got, Client.GotText, Promise, Reply, CanTake, Pinged, Clocked, Client.PingDone;
    var (c, s, down) := (x.c, x.s, x.down);
    TakeFacts(c, down, n, x.now);
    TextStored(c, down[..n]);
    var r := Client.GotText(c, down[..n]);
    AnsweringFacts(cfg.server, c, s, [], down);
    assert c.readPos <= |c.readBuffer| by { AnswerHeld(cfg.server, c, s, down); }
    if CText(c) + down[..n] != Reply(c.phase, Server.TimeOf(s)) {
      ClientReadPart(cfg.server, c, s, down, n, x.now);
      StillPinged(x, x.(down := down[n..], c := r), g);
    } else {
      ClientReadWhole(cfg.server, c, s, down, n, x.now);
      PingRecorded(x, r, down[n..], g);
    }
  }

  lemma StillPinged(x: Sess, y: Sess, g: Tally)
    requires Pinged(x, g) && y.s == x.s && y.c.phase == x.c.phase
    requires y.c.pingTimes == x.c.pingTimes && y.c.pingMedian == x.c.pingMedian
    ensures Pinged(y, g)
  {
    hide Median;
  }

  /** A whole answer: its time is the one the server noted. */
  lemma PingRecorded(x: Sess, r: Client.Client, rest: Bytes, g: Tally)
    requires Pinged(x, g) && InFlight(x) && Clocked(x.s, g)
    requires r == x.c.(readBuffer := r.readBuffer, readPos := r.readPos)
    requires x.c.phaseStart == g.asked && x.c.phaseStart.Some? && x.c.phaseStart.value <= x.now
    ensures var d := Client.PingDone(r, Server.TimeOf(x.s), x.now);
      && Pinged(x.(down := rest, c := d), g)
      && (d.phase.PingCompleted? <==> Ago(g.asked, x.now) >= 1_000_000_000 || |d.pingTimes| >= 200)
      && (!d.phase.PingCompleted? ==> d.phase.PingSendPing?) && d.phase != x.c.phase
  {
    hide Client.PingDone, Averaged, SameTimes, Ago;
    AveragedStays(x.c, r) by { TextPings(x.c, r); }
    PingTaken(r, Server.TimeOf(x.s), x.now, g);
  }

  lemma AnswerHeld(t: Tables, c: Client.Client, s: Server.Server, down: Bytes)
    requires Answering(t, c, s, [], down)
    ensures c.readPos <= |c.readBuffer|
  {
    hide Promise, Reply;
  }

  lemma TextPings(c: Client.Client, r: Client.Client)
    requires r == c.(readBuffer := r.readBuffer, readPos := r.readPos)
    ensures SamePings(c, r)
  {
  }

  lemma PingPhases(cfg: Config, x: Sess)
    requires Inv(cfg, x) && x.c.phase.PingReceiveTime?
    ensures x.s.phase.PingReceiveOk? || x.s.phase.PingSendTime? || x.s.phase.CommandSend? || x.s.phase.CommandReceive?
  {
    hide Inv;
    if InFlight(x) {
      InFlightPhases(cfg, x);
    }
  }

  lemma PhaseEnters(t: Tables, s: Server.Server, n: nat, now: nat)
    requires s.phase.PingReceiveOk? || s.phase.PingSendTime? || s.phase.CommandSend? || s.phase.CommandReceive?
    ensures Server.Enter(t, s, now).phase == s.phase
    ensures s.phase.PingSendTime? || s.phase.CommandSend? ==>
      Server.Wrote(t, s, n, now).phase.PingSendTime? || Server.Wrote(t, s, n, now).phase.CommandSend?
      || Server.Wrote(t, s, n, now).phase.CommandReceive?
  {
    hide Server.Message;
  }

  /** When the server reads the OK of a ping the client is waiting for its time. */
  lemma PingOkRead(cfg: Config, x: Sess, n: nat)
    requires Inv(cfg, x) && CanRead(x.s, x.up, n) && x.s.phase.PingReceiveOk?
    ensures x.c.phase.PingReceiveTime?
    ensures Server.Got(x.s, x.up[..n], x.now).phase.PingSendTime?
  {
    hide Inv, Request, Unsent, CanRead, Server.Got;
    ReadFits(x.s, x.up, n);
    UpAsks(cfg, x);
    OkArrives(x.c, x.s, x.up);
    OkWholeRead(x, n);
  }

  lemma UpAsks(cfg: Config, x: Sess)
    requires Inv(cfg, x) && x.up != [] && !x.s.phase.ResultReceive?
    ensures Asking(x.c, x.s, x.up, [])
  {
    hide Setup, ServerOk, ClientOk, NotStarted, Paired, Asking;
    UpOwner(cfg, x);
    AskingPhases(x.c, x.s, x.up, x.down);
  }

  lemma OkWholeRead(x: Sess, n: nat)
    requires CanRead(x.s, x.up, n) && x.s.phase.PingReceiveOk? && x.up == OK
    ensures Server.Got(x.s, x.up[..n], x.now).phase.PingSendTime?
  {
    hide B, Server.Elapsed;
    assert x.up[..n] == OK;
    StoreText(x.s.readBuffer, 0, OK);
  }

  lemma ServerReadPings(cfg: Config, x: Sess, n: nat, g: Tally)
    requires Inv(cfg, x) && CanRead(x.s, x.up, n) && Pinged(x, g) && !x.s.phase.PingReceiveOk?
    ensures var y := Server.Got(x.s, x.up[..n], x.now);
      Pinged(x.(up := x.up[n..], s := y), NoteRead(x.s, y.phase, n, x.now, g))
  {
    hide Inv, CanRead, Server.Got, Averaged;
    ReadFits(x.s, x.up, n);
    if x.c.phase.PingReceiveTime? {
      InFlightPhases(cfg, x);
      assert false;
    }
  }

  lemma ServerPinged(cfg: Config, x: Sess, l: Label, g: Tally)
    requires Inv(cfg, x) && Enabled(cfg, x, l) && Pinged(x, g) && (l.ServerEnter? || l.ServerWrite? || l.ServerRead?)
    ensures var y := Step(cfg, x, l); Pinged(y, Noted(x, l, y, g))
  {
    hide Inv, CanRead, CanWrite, Server.Enter, Server.Got, Server.Wrote, Averaged, NoteRead, NoteEnter, NoteWrite;
    match l {
      case ServerEnter =>
        ServerNotes(x.s, x.s.phase, 0, x.now, g);
        if x.c.phase.PingReceiveTime? {
          PingPhases(cfg, x);
          PhaseEnters(cfg.server, x.s, 0, x.now);
        }
      case ServerWrite(n) =>
        ServerNotes(x.s, Step(cfg, x, l).s.phase, n, x.now, g);
        CanWritePhase(cfg.server, x.s, n);
        if x.c.phase.PingReceiveTime? {
          PingPhases(cfg, x);
          PhaseEnters(cfg.server, x.s, n, x.now);
        }
      case ServerRead(n) =>
        if x.s.phase.PingReceiveOk? {
          ReadFits(x.s, x.up, n);
          PingOkRead(cfg, x, n);
          PingAnswered(x, Server.Got(x.s, x.up[..n], x.now), n, g);
        } else {
          ServerReadPings(cfg, x, n, g);
        }
    }
  }

  lemma PingAnswered(x: Sess, y: Server.Server, n: nat, g: Tally)
    requires Pinged(x, g) && x.s.phase.PingReceiveOk? && x.c.phase.PingReceiveTime? && y.phase.PingSendTime?
    ensures Pinged(x.(s := y), NoteRead(x.s, y.phase, n, x.now, g))
  {
    hide Averaged, Ago;
  }

  /** A client that begins to wait for a ping's time has a server that waits for its OK. */
  lemma SendPings(cfg: Config, x: Sess, n: nat, g: Tally)
    requires Inv(cfg, x) && CanSend(cfg.client, x.c, n) && Pinged(x, g)
    ensures Pinged(x.(up := x.up + Client.Offer(cfg.client, x.c)[..n], c := Client.Wrote(cfg.client, x.c, n, x.now)), g)
  {
    hide Inv, CanSend, Client.Wrote, Averaged, Client.Message;
    CanSendPhase(cfg.client, x.c, n);
    PingsStayOn(cfg.client, x.c, n, x.now);
    AveragedStays(x.c, Client.Wrote(cfg.client, x.c, n, x.now));
    if x.c.phase.PingSendOk? {
      PingOkSent(cfg, x, n);
    }
  }

  lemma PingOkSent(cfg: Config, x: Sess, n: nat)
    requires Inv(cfg, x) && CanSend(cfg.client, x.c, n) && x.c.phase.PingSendOk?
    ensures x.s.phase.PingReceiveOk?
  {
    hide Setup, ServerOk, ClientOk, NotStarted, Paired, CanSend, Request, Unsent, SText;
    SendPairs(cfg, x, n);
    AskingPhases(x.c, x.s, x.up, []);
  }

  lemma ClientPinged(cfg: Config, x: Sess, l: Label, g: Tally)
    requires Inv(cfg, x) && Enabled(cfg, x, l) && Pinged(x, g) && Clocked(x.s, g) && Stamped(x.c, g)
    requires !l.ServerEnter? && !l.ServerWrite? && !l.ServerRead?
    ensures var y := Step(cfg, x, l); Pinged(y, Noted(x, l, y, g))
  {
    hide Inv, CanSend, CanTake, Client.Enter, Client.Wrote, Client.Got, Client.Start, Averaged, NoteClientRead,
      NoteClientWrite, SameTimes, Client.DonePhase;
    match l {
      case Tick(_) =>
      case StartRun =>
        StartPhase(x.c);
        PingsStayOn(cfg.client, x.c, 0, x.now);
        AveragedStays(x.c, Client.Start(x.c, x.now));
      case ClientEnter =>
        EnterPhase(x.c);
        PingsStayOn(cfg.client, x.c, 0, x.now);
        AveragedStays(x.c, Client.Enter(x.c, x.now));
      case ClientWrite(n) =>
        SendPings(cfg, x, n, g);
        ClientNotes(x.c, Client.Wrote(cfg.client, x.c, n, x.now).phase, n, x.now, g);
      case ClientRead(n) =>
        TakesText(x.c, x.down, n);
        ClientReadPings(cfg, x, n, g);
        ClientNotes(x.c, Client.Got(x.c, x.down[..n], x.now).phase, n, x.now, g);
    }
  }

  lemma StartPhase(c: Client.Client)
    ensures Client.DonePhase(c.phase) ==> !c.phase.PingReceiveTime?
  {
  }

  lemma EnterPhase(c: Client.Client)
    ensures Client.WritePhase(c.phase) ==> !c.phase.PingReceiveTime?
  {
  }

  /** Every time in a state of a run agrees with the tally of the steps so far. */
  ghost predicate OnTime(x: Sess, g: Tally) { Clocked(x.s, g) && Stamped(x.c, g) && Pinged(x, g) }

  lemma StepOnTime(cfg: Config, x: Sess, l: Label, g: Tally)
    requires Inv(cfg, x) && Enabled(cfg, x, l) && OnTime(x, g)
    ensures var y := Step(cfg, x, l); OnTime(y, Noted(x, l, y, g))
  {
    hide Inv, Step, Enabled, Noted, Clocked, Stamped, Pinged;
    ServerClocked(cfg, x, l, g);
    ClientStamped(cfg, x, l, g);
    if l.ServerEnter? || l.ServerWrite? || l.ServerRead? {
      ServerPinged(cfg, x, l, g);
    } else {
      ClientPinged(cfg, x, l, g);
    }
  }

  lemma {:induction false} RunOnTime(cfg: Config, xs: seq<Sess>, ls: seq<Label>, i: nat)
    requires Run(cfg, xs, ls) && i < |xs|
    ensures OnTime(xs[i], TallyAt(xs, ls, i))
  {
    hide Inv, Step, Enabled, Noted, OnTime;
    if i == 0 {
      TimesBegin(cfg, xs[0]);
    } else {
      RunOnTime(cfg, xs, ls, i - 1);
      RunInv(cfg, xs, ls, i - 1);
      StepOnTime(cfg, xs[i - 1], ls[i - 1], TallyAt(xs, ls, i - 1));
    }
  }

  lemma TimesBegin(cfg: Config, x: Sess)
    requires Initial(cfg, x)
    ensures OnTime(x, FIRST)
  {
  }

  /** In every state of every run: the time the server holds is the one it took by
      its clock; each row it has recorded and each sample of GETTIME holds the time
      of that very chunk; the client's pings are the answers of the server in order,
      all but one still under way, and once they are over the median is theirs. */
  lemma RunTimes(cfg: Config, xs: seq<Sess>, ls: seq<Label>, i: nat)
    requires Run(cfg, xs, ls) && i < |xs|
    ensures var (x, g) := (xs[i], TallyAt(xs, ls, i));
      && (Server.NeedsTime(x.s.phase) ==> x.s.timeNs.Some?)
      && (x.s.timeNs.Some? ==> g.took == Some(Server.TimeOf(x.s)))
      && SameTimes(x.s.received, g.rows) && SameTimes(x.c.downloads, g.samples)
      && (x.c.pingTimes == g.answers || (InFlight(x) && x.c.pingTimes + [Server.TimeOf(x.s)] == g.answers))
      && (x.c.phase.PingCompleted? ==>
          x.c.pingTimes == g.answers != [] && x.c.pingMedian == Some(Median(x.c.pingTimes)))
  {
    hide Step, Enabled, Initial, Setup, Paired, NotStarted, SameTimes, Median;
    RunOnTime(cfg, xs, ls, i);
    RunInv(cfg, xs, ls, i);
    PingsInOrder(xs[i], TallyAt(xs, ls, i));
  }

  lemma PingsInOrder(x: Sess, g: Tally)
    requires Pinged(x, g) && Clocked(x.s, g)
    ensures x.c.pingTimes == g.answers || (InFlight(x) && x.c.pingTimes + [Server.TimeOf(x.s)] == g.answers)
  {
    hide SameTimes, Averaged;
    var ts := x.c.pingTimes;
    if InFlight(x) {
      assert g.took.Some? && Server.TimeOf(x.s) == g.answers[|ts|];
      assert ts + [Server.TimeOf(x.s)] == g.answers;
    } else {
      assert ts == g.answers;
    }
  }
}
