/** Calls of the server's handlers inside a session: whatever the socket answers,
    a call is a sequence of session steps, so it keeps the pairing invariant. */
module ServerRuns {
  import opened Text
  import opened Chunks
  import opened Ramp
  import opened Session
  import opened SessionSteps
  import opened SessionRuns
  import opened SessionPaths
  import opened Sockets
  import opened ServerCalls
  import opened ServerTurns
  import TimeResults
  import opened Commands
  import Server = ServerMachine
  import Client = ClientMachine

  /** The socket's clock does not run backwards, and the messages that a handler
      cannot resume travel in one piece. */
  predicate Gentle(t: Tables, s: Server.Server, w: World)
    decreases |w.script|
  {
    if w.script == [] then true else
    match w.script[0]
    case Blocked => true
    case Broken => true
    case Ended(at) => w.now <= at < U64
        && (OnZero(s.phase).Again? ==> Gentle(t, s, w.(now := at, script := w.script[1..])))
    case Ready(most, at) =>
      && w.now <= at < U64
      && if Server.ReadPhase(s.phase) then
           var (io, data, v) := ReadCall(w, Server.Room(s));
           && (Server.Atomic(s.phase) ==> most >= |w.inbox|)
           && (io.Ok? && io.n > 0 ==> Gentle(t, Server.Got(s, data, v.now), v))
           && (io == Ok(0) ==> Gentle(t, s, v))
         else if Server.WritePhase(s.phase) && s.writePos <= |Server.Message(t, s)| then
           var (io, v) := WriteCall(w, Server.Offer(t, s));
           && (Server.Atomic(s.phase) ==> most >= |Server.Offer(t, s)|)
           && (io.Ok? && io.n > 0 ==> Gentle(t, Server.Wrote(t, s, io.n, v.now), v))
           && (io == Ok(0) ==> Gentle(t, s, v))
         else true
  }

  /** `y` is the session after the server part of `x` became that of an outcome;
      `sent` had been handed to the socket before `x`. */
  ghost predicate Follows(x: Sess, y: Sess, o: Outcome, sent: Bytes) {
    && y.c == x.c && y.s == o.s && y.up == o.w.inbox && y.now == o.w.now
    && sent <= o.w.out && y.down == x.down + o.w.out[|sent|..]
  }

  ghost predicate Keeps(cfg: Config, x: Sess, o: Outcome, sent: Bytes) {
    exists y :: Inv(cfg, y) && Leads(cfg, x, y) && Follows(x, y, o, sent)
  }

  lemma KeepsHere(cfg: Config, x: Sess, o: Outcome)
    requires Inv(cfg, x) && x.s == o.s && x.up == o.w.inbox && x.now == o.w.now
    ensures Keeps(cfg, x, o, o.w.out)
  {
    hide Inv, Leads;
    LeadsSelf(cfg, x);
    assert x.down == x.down + o.w.out[|o.w.out|..];
    assert Follows(x, x, o, o.w.out);
  }

  lemma KeepsAfter(cfg: Config, x: Sess, y: Sess, o: Outcome, sent: Bytes, more: Bytes)
    requires Keeps(cfg, y, o, sent + more) && Leads(cfg, x, y) && y.c == x.c && y.down == x.down + more
    ensures Keeps(cfg, x, o, sent)
  {
    hide Inv, Leads;
    var z :| Inv(cfg, z) && Leads(cfg, y, z) && Follows(y, z, o, sent + more);
    LeadsOn(cfg, x, y, z);
    assert o.w.out[|sent|..] == more + o.w.out[|sent + more|..];
    assert Follows(x, z, o, sent);
  }

  lemma LeadsRead(cfg: Config, x: Sess, now: nat, n: nat)
    requires x.now <= now < U64 && CanRead(x.s, x.up, n)
    ensures Leads(cfg, x, AfterServerRead(x.(now := now), n))
  {
    hide Leads, CanRead, AfterServerRead;
    LeadsLater(cfg, x, now, ServerRead(n));
  }

  lemma LeadsWrite(cfg: Config, x: Sess, now: nat, n: nat)
    requires x.now <= now < U64 && CanWrite(cfg.server, x.s, n) && x.s.inCall
    ensures Leads(cfg, x, AfterServerWrite(cfg, x.(now := now), n))
  {
    hide Leads, CanWrite, AfterServerWrite;
    LeadsLater(cfg, x, now, ServerWrite(n));
  }

  lemma {:induction false} LoopKeeps(cfg: Config, x: Sess, w: World)
    requires Inv(cfg, x) && x.s.inCall && w.inbox == x.up && w.now == x.now && Gentle(cfg.server, x.s, w)
    ensures Keeps(cfg, x, Loop(cfg.server, x.s, w), w.out)
    decreases |w.script|, 2
  {
    hide Inv, Leads, Gentle, Keeps, Loop, Server.Got, Server.Wrote, Server.Message, Server.Offer, ReadCall,
      WriteCall, Server.Room;
    NeverClosed(cfg, x);
    if Server.ReadPhase(x.s.phase) {
      ReadKeeps(cfg, x, w);
    } else {
      WriteKeeps(cfg, x, w);
    }
  }

  lemma {:induction false} ReadKeeps(cfg: Config, x: Sess, w: World)
    requires Inv(cfg, x) && x.s.inCall && w.inbox == x.up && w.now == x.now && Gentle(cfg.server, x.s, w)
        && Server.ReadPhase(x.s.phase)
    ensures Keeps(cfg, x, Loop(cfg.server, x.s, w), w.out)
    decreases |w.script|, 1
  {
    hide Inv, Leads, Gentle, Keeps, Loop, Server.Got, ReadCall, Server.Room, Enabled, Step, AfterZero;
    var s, t := x.s, cfg.server;
    var (io, data, v) := ReadCall(w, Server.Room(s));
    ReadTurn(t, s, w);
    GentleRead(t, s, w);
    ReadFacts(w, Server.Room(s));
    if io.Ok? {
      TickInv(cfg, x, v.now - x.now);
      var x' := x.(now := v.now);
      if io.n > 0 {
        if Server.Atomic(s.phase) {
          AtomicFits(cfg, x);
        }
        assert CanRead(x'.s, x'.up, io.n);
        LeadsRead(cfg, x, v.now, io.n);
        ServerReadInv(cfg, x', io.n);
        ReadEffect(x', io.n);
        var y := AfterServerRead(x', io.n);
        if y.s.inCall {
          LoopKeeps(cfg, y, v);
        } else {
          NeverClosed(cfg, y);
          KeepsHere(cfg, y, Outcome(y.s, v, io));
        }
        assert w.out + [] == w.out && x.down + [] == x.down;
        KeepsAfter(cfg, x, y, Loop(t, s, w), w.out, []);
      } else {
        LeadsTick(cfg, x, v.now);
        ZeroKeeps(cfg, x', v, |w.script|);
        assert w.out + [] == w.out && x.down + [] == x.down;
        KeepsAfter(cfg, x, x', Loop(t, s, w), w.out, []);
      }
    } else {
      KeepsHere(cfg, x, Outcome(s, v, io));
    }
  }

  lemma ReadFacts(w: World, room: nat)
    ensures var (io, data, v) := ReadCall(w, room);
      && v.out == w.out && (!io.Ok? ==> v.now == w.now && v.inbox == w.inbox)
      && (io.Ok? ==> data == w.inbox[..io.n] && v.inbox == w.inbox[io.n..] && io.n <= room && |v.script| < |w.script|)
  {
  }

  lemma ReadEffect(x: Sess, n: nat)
    requires CanRead(x.s, x.up, n)
    ensures var y := AfterServerRead(x, n);
      y.c == x.c && y.s == Server.Got(x.s, x.up[..n], x.now) && y.up == x.up[n..] && y.down == x.down && y.now == x.now
  {
    hide Server.Got;
  }

  lemma GentleRead(t: Tables, s: Server.Server, w: World)
    requires Gentle(t, s, w) && Server.ReadPhase(s.phase)
    ensures var (io, data, v) := ReadCall(w, Server.Room(s));
      && (io.Ok? ==> w.now <= v.now < U64)
      && (io.Ok? && io.n > 0 ==>
          Gentle(t, Server.Got(s, data, v.now), v)
          && (Server.Atomic(s.phase) && |w.inbox| <= Server.Room(s) ==> io.n == |w.inbox|))
      && (io == Ok(0) && OnZero(s.phase).Again? ==> Gentle(t, s, v))
  {
    hide Server.Got, Server.Room, Server.Message;
  }

  lemma {:induction false} ZeroKeeps(cfg: Config, x: Sess, v: World, bound: nat)
    requires Inv(cfg, x) && x.s.inCall && v.inbox == x.up && v.now == x.now && |v.script| < bound
    requires OnZero(x.s.phase).Again? ==> Gentle(cfg.server, x.s, v)
    ensures Keeps(cfg, x, AfterZero(cfg.server, x.s, v), v.out)
    decreases bound, 0
  {
    hide Inv, Leads, Gentle, Keeps, Loop;
    match OnZero(x.s.phase) {
      case Stop => KeepsHere(cfg, x, Outcome(x.s, v, Ok(0)));
      case Fail => KeepsHere(cfg, x, Outcome(x.s, v, Failed));
      case Again => LoopKeeps(cfg, x, v);
    }
  }

  lemma AtomicFits(cfg: Config, x: Sess)
    requires Inv(cfg, x) && Server.Atomic(x.s.phase) && Server.ReadPhase(x.s.phase)
    ensures |x.up| <= Server.Room(x.s)
  {
    hide Paired, OnRamp, Asking, NotStarted, Request;
    if x.up != [] {
      UpOwner(cfg, x);
      AskedLength(x.c, x.s, x.up, x.down);
      AskingPhases(x.c, x.s, x.up, x.down);
      OnRampInTable(Round(x.c.totalChunks, x.c.chunkSize));
      RequestLength(x.c);
    }
  }

  lemma {:induction false} WriteKeeps(cfg: Config, x: Sess, w: World)
    requires Inv(cfg, x) && x.s.inCall && w.inbox == x.up && w.now == x.now && Gentle(cfg.server, x.s, w)
        && Server.WritePhase(x.s.phase)
    ensures Keeps(cfg, x, Loop(cfg.server, x.s, w), w.out)
    decreases |w.script|, 1
  {
    hide Inv, Leads, Gentle, Keeps, Loop, Server.Wrote, Server.Message, Server.Finish, WriteCall, Enabled, Step,
      AfterZero;
    var s, t := x.s, cfg.server;
    ServerSends(cfg, x);
    var (io, v) := WriteCall(w, Server.Offer(t, s));
    LoopWrites(t, s, w);
    GentleWrite(t, s, w);
    WriteFacts(w, Server.Offer(t, s));
    if io.Ok? {
      TickInv(cfg, x, v.now - x.now);
      var x' := x.(now := v.now);
      if io.n > 0 {
        assert CanWrite(t, x'.s, io.n);
        LeadsWrite(cfg, x, v.now, io.n);
        ServerWriteInv(cfg, x', io.n);
        var more := Server.Offer(t, s)[..io.n];
        var y := AfterServerWrite(cfg, x', io.n);
        if y.s.inCall {
          LoopKeeps(cfg, y, v);
        } else {
          KeepsHere(cfg, y, Outcome(y.s, v, io));
        }
        KeepsAfter(cfg, x, y, Loop(t, s, w), w.out, more);
      } else {
        LeadsTick(cfg, x, v.now);
        ZeroKeeps(cfg, x', v, |w.script|);
        assert w.out + [] == w.out && x.down + [] == x.down;
        KeepsAfter(cfg, x, x', Loop(t, s, w), w.out, []);
      }
    } else {
      KeepsHere(cfg, x, Outcome(s, v, io));
    }
  }

  lemma WriteFacts(w: World, data: Bytes)
    ensures var (io, v) := WriteCall(w, data);
      && v.inbox == w.inbox && (!io.Ok? ==> v.now == w.now && v.out == w.out)
      && (io.Ok? ==> io.n <= |data| && v.out == w.out + data[..io.n] && |v.script| < |w.script|)
          && (io == Ok(0) ==> v.out == w.out)
  {
  }

  lemma GentleWrite(t: Tables, s: Server.Server, w: World)
    requires Gentle(t, s, w) && Server.WritePhase(s.phase) && s.writePos <= |Server.Message(t, s)|
    ensures var (io, v) := WriteCall(w, Server.Offer(t, s));
      && (io.Ok? ==> w.now <= v.now < U64)
      && (io.Ok? && io.n > 0 ==>
          Gentle(t, Server.Wrote(t, s, io.n, v.now), v) && (Server.Atomic(s.phase) ==> io.n == |Server.Offer(t, s)|))
      && (io == Ok(0) && OnZero(s.phase).Again? ==> Gentle(t, s, v))
  {
    hide Server.Message, Server.Offer, Server.Finish;
  }

  /** A call of a server handler is a path of session steps, on every schedule of
      the socket, and so keeps the pairing invariant. */
  lemma CallKeeps(cfg: Config, x: Sess, script: seq<Answer>)
    requires Inv(cfg, x) && (Server.ReadPhase(x.s.phase) || Server.WritePhase(x.s.phase))
    requires Gentle(cfg.server, Server.Enter(cfg.server, x.s, x.now), World(x.up, [], x.now, script))
    ensures Keeps(cfg, x, Call(cfg.server, x.s, World(x.up, [], x.now, script)), [])
  {
    hide Inv, Leads, Gentle, Loop, Keeps, Server.Enter;
    var w := World(x.up, [], x.now, script);
    var y := x.(s := Server.Enter(cfg.server, x.s, x.now));
    ServerEnterInv(cfg, x);
    LeadsStep(cfg, x, ServerEnter);
    if y.s.inCall {
      LoopKeeps(cfg, y, w);
    } else {
      KeepsHere(cfg, y, Outcome(y.s, w, Ok(1)));
    }
    var none: Bytes := [];
    assert x.down + none == x.down && none + none == none;
    KeepsAfter(cfg, x, y, Call(cfg.server, x.s, w), none, none);
  }

  // ----- the handlers' preconditions

  lemma AskingRuns(cfg: Config, c: Client.Client, s: Server.Server, up: Bytes, down: Bytes, now: nat)
    requires Asking(c, s, up, down) && ServerOk(s, now) && !s.phase.Closed?
    ensures Runnable(cfg.server, s)
  {
    hide Request, Unsent, Server.Message;
  }

  lemma AnsweringRuns(cfg: Config, c: Client.Client, s: Server.Server, up: Bytes, down: Bytes, k: Count, now: nat)
    requires Answering(cfg.server, c, s, up, down) && ServerOk(s, now)
    requires c.phase.PerfReceiveOk? ==> UploadReady(c, s, k) && c.chunkSize > 0
    ensures Runnable(cfg.server, s)
  {
    hide Reply, Promise, CText, Server.Message;
    PingAnswer(cfg.server, s);
  }

  lemma PingAnswer(t: Tables, s: Server.Server)
    ensures s.phase.PingSendTime? && Server.TimeOf(s) < U64 ==> |Server.Message(t, s)| <= 100
  {
    if Server.TimeOf(s) < U64 {
      ShowLengthU64(Server.TimeOf(s));
    }
  }

  lemma DownloadingRuns(cfg: Config, c: Client.Client, s: Server.Server, up: Bytes, down: Bytes, k: Count, now: nat)
    requires ValidTables(cfg.server) && Downloading(cfg, c, s, up, down, k) && ServerOk(s, now) && InRange(s.chunkSize)
    ensures Runnable(cfg.server, s)
  {
    hide Rep, SentDown, Server.Message;
  }

  lemma UploadingRuns(cfg: Config, c: Client.Client, s: Server.Server, up: Bytes, down: Bytes, k: Count, now: nat)
    requires Uploading(cfg, c, s, up, down, k) && ServerOk(s, now)
    ensures Runnable(cfg.server, s)
  {
    hide Rep, SentUp, Server.Message;
  }

  lemma AfterUploadRuns(cfg: Config, s: Server.Server, up: Bytes, series: seq<TimeResults.Sample>, now: nat)
    requires AfterUpload(cfg.server, s, up, series) && ServerOk(s, now)
    ensures Runnable(cfg.server, s)
  {
    hide Server.Message;
  }

  /** In a session no handler ever meets a state it would panic in. */
  lemma SessionRunnable(cfg: Config, x: Sess)
    requires Inv(cfg, x)
    ensures Runnable(cfg.server, x.s)
  {
    hide Asking, Answering, Downloading, Uploading, ServerOk, ClientOk, NotStarted, OnRamp, ValidTables,
      ResultCounts, TimeCounts,
      UploadReady, Parsed, AfterUpload, Runnable;
    var c, s := x.c, x.s;
    OnRampInTable(Round(c.totalChunks, c.chunkSize));
    NeverClosed(cfg, x);
    if Asking(c, s, x.up, x.down) {
      AskingRuns(cfg, c, s, x.up, x.down, x.now);
    } else if Uploading(cfg, c, s, x.up, x.down, x.k) {
      UploadingRuns(cfg, c, s, x.up, x.down, x.k, x.now);
    } else if AfterUpload(cfg.server, s, x.up, x.series) {
      AfterUploadRuns(cfg, s, x.up, x.series, x.now);
    } else if Downloading(cfg, c, s, x.up, x.down, x.k) {
      SameChunk(cfg, c, s, x.up, x.down, x.k);
      DownloadingRuns(cfg, c, s, x.up, x.down, x.k, x.now);
    } else if Quiet(c, s, x.up, x.down) {
      QuietRuns(cfg, c, s);
    } else {
      AnsweringRuns(cfg, c, s, x.up, x.down, x.k, x.now);
    }
  }

  lemma SameChunk(cfg: Config, c: Client.Client, s: Server.Server, up: Bytes, down: Bytes, k: Count)
    requires Downloading(cfg, c, s, up, down, k)
    ensures c.chunkSize == s.chunkSize
  {
  }

  lemma QuietRuns(cfg: Config, c: Client.Client, s: Server.Server)
    requires s.phase.CommandReceive? && s.readPos == 0
    ensures Runnable(cfg.server, s)
  {
  }
}
