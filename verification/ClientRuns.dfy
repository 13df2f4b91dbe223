/** Calls of the client's handlers inside a session: whatever the socket answers,
    a call is a sequence of session steps, so it keeps the pairing invariant. */
module ClientRuns {
  import opened Text
  import opened Chunks
  import opened Ramp
  import opened Session
  import opened SessionSteps
  import opened SessionClient
  import opened SessionRuns
  import opened SessionPaths
  import opened Sockets
  import opened ClientCalls
  import opened ClientTurns
  import Server = ServerMachine
  import Client = ClientMachine

  /** The socket's clock does not run backwards, no end of the stream is seen, and
      the messages that a handler cannot resume travel in one piece. */
  predicate Gentle(t: Tables, c: Client.Client, b: Bytes, w: World)
    decreases |w.script|
  {
    if w.script == [] then true else
    match w.script[0]
    case Blocked => true
    case Broken => true
    case Ended(at) => false
    case Ready(most, at) =>
      && w.now <= at < U64
      && if Client.ReadPhase(c.phase) && c.readPos <= Client.Top(c) && |c.readBuffer| >= 5 then
           var (io, data, v) := ReadCall(w, Client.Room(c));
           && (Client.Atomic(c.phase) ==> most >= |w.inbox|)
           && (io.Ok? ==> Gentle(t, Client.Got(c, data, v.now), b, v))
         else if Client.WritePhase(c.phase) && Slice(t, c, b).Some? then
           var (io, v) := WriteCall(w, Slice(t, c, b).value);
           && (Client.Atomic(c.phase) ==> most >= |Client.Message(t, c)|)
           && (io.Ok? ==> Gentle(t, Client.Wrote(t, c, io.n, v.now), b, v))
         else true
  }

  /** `y` is the session after the client part of `x` became that of an outcome;
      `sent` had been handed to the socket before `x`. */
  ghost predicate Follows(x: Sess, y: Sess, o: Outcome, sent: Bytes) {
    && y.s == x.s && y.c == o.c && y.down == o.w.inbox && y.now == o.w.now
    && sent <= o.w.out && y.up == x.up + o.w.out[|sent|..]
  }

  ghost predicate Keeps(cfg: Config, x: Sess, o: Outcome, sent: Bytes) {
    exists y :: Inv(cfg, y) && Leads(cfg, x, y) && Follows(x, y, o, sent)
  }

  lemma KeepsHere(cfg: Config, x: Sess, o: Outcome)
    requires Inv(cfg, x) && x.c == o.c && x.down == o.w.inbox && x.now == o.w.now
    ensures Keeps(cfg, x, o, o.w.out)
  {
    hide Inv, Leads;
    LeadsSelf(cfg, x);
    assert x.up == x.up + o.w.out[|o.w.out|..];
    assert Follows(x, x, o, o.w.out);
  }

  lemma KeepsAfter(cfg: Config, x: Sess, y: Sess, o: Outcome, sent: Bytes, more: Bytes)
    requires Keeps(cfg, y, o, sent + more) && Leads(cfg, x, y) && y.s == x.s && y.up == x.up + more
    ensures Keeps(cfg, x, o, sent)
  {
    hide Inv, Leads;
    var z :| Inv(cfg, z) && Leads(cfg, y, z) && Follows(y, z, o, sent + more);
    LeadsOn(cfg, x, y, z);
    assert o.w.out[|sent|..] == more + o.w.out[|sent + more|..];
    assert Follows(x, z, o, sent);
  }

  lemma LeadsTake(cfg: Config, x: Sess, now: nat, n: nat)
    requires x.now <= now < U64 && CanTake(x.c, x.down, n)
    ensures Leads(cfg, x, AfterClientRead(x.(now := now), n))
  {
    hide Leads, CanTake, AfterClientRead;
    LeadsLater(cfg, x, now, ClientRead(n));
  }

  lemma LeadsSend(cfg: Config, x: Sess, now: nat, n: nat)
    requires x.now <= now < U64 && CanSend(cfg.client, x.c, n)
    ensures Leads(cfg, x, AfterClientWrite(cfg, x.(now := now), n))
  {
    hide Leads, CanSend, AfterClientWrite;
    LeadsLater(cfg, x, now, ClientWrite(n));
  }

  lemma {:induction false} LoopKeeps(cfg: Config, x: Sess, b: Bytes, w: World)
    requires Inv(cfg, x) && w.inbox == x.down && w.now == x.now && Gentle(cfg.client, x.c, b, w)
    requires Client.ReadPhase(x.c.phase) || Client.WritePhase(x.c.phase)
    requires Overruns(x.c.phase) ==> Client.Message(cfg.client, x.c) <= b
    ensures Keeps(cfg, x, Loop(cfg.client, x.c, b, w), w.out)
    decreases |w.script|, 1
  {
    hide Inv, Leads, Gentle, Keeps, Loop, Client.Message;
    if Client.ReadPhase(x.c.phase) {
      ReadKeeps(cfg, x, b, w);
    } else {
      WriteKeeps(cfg, x, b, w);
    }
  }

  lemma {:induction false} ReadKeeps(cfg: Config, x: Sess, b: Bytes, w: World)
    requires Inv(cfg, x) && w.inbox == x.down && w.now == x.now && Gentle(cfg.client, x.c, b, w)
    requires Client.ReadPhase(x.c.phase)
    ensures Keeps(cfg, x, Loop(cfg.client, x.c, b, w), w.out)
    decreases |w.script|, 0
  {
    hide Inv, Leads, Gentle, Keeps, Loop, Client.Got, ReadCall, Client.Room, Client.Top, Enabled, Step;
    var c, t := x.c, cfg.client;
    RoomPositive(cfg, x);
    var (io, data, v) := ReadCall(w, Client.Room(c));
    LoopReads(t, c, b, w);
    GentleRead(t, c, b, w);
    ReadFacts(w, Client.Room(c));
    if io.Ok? {
      TickInv(cfg, x, v.now - x.now);
      var x' := x.(now := v.now);
      if Client.Atomic(c.phase) {
        AtomicFits(cfg, x);
      }
      assert CanTake(x'.c, x'.down, io.n);
      LeadsTake(cfg, x, v.now, io.n);
      ClientReadInv(cfg, x', io.n);
      ReadEffect(x', io.n);
      var y := AfterClientRead(x', io.n);
      if y.c.phase != c.phase {
        KeepsHere(cfg, y, Outcome(y.c, b, v, io));
      } else {
        LoopKeeps(cfg, y, b, v);
      }
      assert w.out + [] == w.out && x.up + [] == x.up;
      KeepsAfter(cfg, x, y, Loop(t, c, b, w), w.out, []);
    } else {
      KeepsHere(cfg, x, Outcome(c, b, v, io));
    }
  }

  lemma ReadFacts(w: World, room: nat)
    requires room > 0 && (w.script == [] || !w.script[0].Ended?)
    ensures var (io, data, v) := ReadCall(w, room);
      && v.out == w.out && (!io.Ok? ==> v.now == w.now && v.inbox == w.inbox)
      && (io.Ok? ==>
          data == w.inbox[..io.n] && v.inbox == w.inbox[io.n..] && 0 < io.n <= room && |v.script| < |w.script|)
  {
  }

  lemma ReadEffect(x: Sess, n: nat)
    requires CanTake(x.c, x.down, n)
    ensures x.c.readPos <= Client.Top(x.c) && n <= Client.Room(x.c) && n <= |x.down| && |x.c.readBuffer| >= 5
    ensures var y := AfterClientRead(x, n);
      y.s == x.s && y.c == Client.Got(x.c, x.down[..n], x.now) && y.down == x.down[n..] && y.up == x.up
          && y.now == x.now
  {
    hide Client.Got;
  }

  lemma GentleRead(t: Tables, c: Client.Client, b: Bytes, w: World)
    requires Gentle(t, c, b, w) && Client.ReadPhase(c.phase) && c.readPos <= Client.Top(c) && |c.readBuffer| >= 5
    ensures w.script == [] || !w.script[0].Ended?
    ensures var (io, data, v) := ReadCall(w, Client.Room(c));
      && (io.Ok? ==> w.now <= v.now < U64 && Gentle(t, Client.Got(c, data, v.now), b, v)
                     && (Client.Atomic(c.phase) && |w.inbox| <= Client.Room(c) ==> io.n == |w.inbox|))
  {
    hide Client.Got, Client.Room, Client.Top, Client.Message;
  }

  lemma RoomPositive(cfg: Config, x: Sess)
    requires Inv(cfg, x) && Client.ReadPhase(x.c.phase)
    ensures Client.Room(x.c) > 0 && x.c.readPos <= Client.Top(x.c) && |x.c.readBuffer| == 8192
  {
    hide OnRamp, ServerOk, NotStarted, ResultCounts, TimeCounts, UploadReady, Parsed, Asking, Answering, Downloading,
      Uploading, Resulting, ValidTables,
      Client.Room, Client.Top;
    var c, s := x.c, x.s;
    WaitOwner(cfg, x);
    OnRampInTable(Round(c.totalChunks, c.chunkSize));
    if Asking(c, s, x.up, x.down) {
      AskerRoom(cfg, x);
    } else if c.phase.PerfReceiveTime? {
      if s.phase.ResultReceive? {
        UploadingFacts(cfg, c, s, x.up, x.down, x.k, 0);
      } else {
        ResultRoom(cfg, c, s, x.up, x.down, x.series);
      }
      TimeRoom(c);
    } else if Answering(cfg.server, c, s, x.up, x.down) {
      AnswererRoom(cfg.server, c, s, x.up, x.down);
    } else {
      DownloadRoom(cfg, c, s, x.up, x.down, x.k);
      DownloadTop(c);
    }
  }

  lemma TimeRoom(c: Client.Client)
    requires c.phase.PerfReceiveTime? && |c.readBuffer| == 8192 && (c.readPos == 0 || Client.Room(c) > 0)
    ensures Client.Room(c) > 0 && c.readPos <= Client.Top(c)
  {
  }

  lemma DownloadTop(c: Client.Client)
    requires Client.Room(c) > 0
    ensures c.readPos <= Client.Top(c)
  {
  }

  lemma AskerRoom(cfg: Config, x: Sess)
    requires Paired(cfg, x) && Asking(x.c, x.s, x.up, x.down) && Client.ReadPhase(x.c.phase)
        && |x.c.readBuffer| == 8192 && x.c.chunkSize > 0
    ensures Client.Room(x.c) > 0 && x.c.readPos <= Client.Top(x.c)
  {
    hide Answering, Uploading, Resulting, Request, Unsent, SText, ResultCounts, TimeCounts, SentDown, Rep;
  }

  lemma AnswererRoom(t: Tables, c: Client.Client, s: Server.Server, up: Bytes, down: Bytes)
    requires Answering(t, c, s, up, down) && |c.readBuffer| == 8192
    ensures Client.Room(c) > 0 && c.readPos <= Client.Top(c)
  {
    hide Promise, CText;
    ReplyLength(c.phase, Server.TimeOf(s));
  }

  lemma AtomicFits(cfg: Config, x: Sess)
    requires Inv(cfg, x) && Client.Atomic(x.c.phase) && Client.ReadPhase(x.c.phase)
    ensures |x.down| <= Client.Room(x.c)
  {
    hide OnRamp, Asking, Answering, NotStarted, ServerOk, UploadReady;
    if x.down != [] {
      DownOwner(cfg, x);
      OkWhole(cfg.server, x.c, x.s, x.up, x.down);
    }
  }

  lemma {:induction false} WriteKeeps(cfg: Config, x: Sess, b: Bytes, w: World)
    requires Inv(cfg, x) && w.inbox == x.down && w.now == x.now && Gentle(cfg.client, x.c, b, w)
    requires Client.WritePhase(x.c.phase) && (Overruns(x.c.phase) ==> Client.Message(cfg.client, x.c) <= b)
    ensures Keeps(cfg, x, Loop(cfg.client, x.c, b, w), w.out)
    decreases |w.script|, 0
  {
    hide Inv, Leads, Gentle, Keeps, Loop, Client.Wrote, Client.Message, WriteCall, Slice, Enabled, Step;
    var c, t := x.c, cfg.client;
    OffersRest(cfg, x, b);
    var offer := Client.Offer(t, c);
    var (io, v) := WriteCall(w, offer);
    LoopWrites(t, c, b, w, offer);
    GentleWrite(t, c, b, w, offer);
    WriteFacts(w, offer);
    if io.Ok? {
      TickInv(cfg, x, v.now - x.now);
      var x' := x.(now := v.now);
      assert CanSend(t, x'.c, io.n);
      LeadsSend(cfg, x, v.now, io.n);
      ClientWriteInv(cfg, x', io.n);
      var y := AfterClientWrite(cfg, x', io.n);
      if y.c.phase != c.phase {
        KeepsHere(cfg, y, Outcome(y.c, b, v, io));
      } else {
        SameMessage(t, c, io.n, v.now);
        LoopKeeps(cfg, y, b, v);
      }
      KeepsAfter(cfg, x, y, Loop(t, c, b, w), w.out, offer[..io.n]);
    } else {
      KeepsHere(cfg, x, Outcome(c, b, v, io));
    }
  }

  lemma WriteFacts(w: World, data: Bytes)
    requires data != [] && (w.script == [] || !w.script[0].Ended?)
    ensures var (io, v) := WriteCall(w, data);
      && v.inbox == w.inbox && (!io.Ok? ==> v.now == w.now && v.out == w.out)
      && (io.Ok? ==> 0 < io.n <= |data| && v.out == w.out + data[..io.n] && |v.script| < |w.script|)
  {
  }

  /** In a session a handler offers what is left of its message, and something is left. */
  lemma OffersRest(cfg: Config, x: Sess, b: Bytes)
    requires Inv(cfg, x) && Client.WritePhase(x.c.phase)
        && (Overruns(x.c.phase) ==> Client.Message(cfg.client, x.c) <= b)
    ensures x.c.writePos <= |Client.Message(cfg.client, x.c)|
    ensures var offer := Client.Offer(cfg.client, x.c); offer != [] && Slice(cfg.client, x.c, b) == Some(offer)
    ensures Client.Atomic(x.c.phase) ==> x.c.writePos == 0
  {
    hide Inv, Client.Message, Asking;
    WriterMoves(cfg, x);
    if Client.Atomic(x.c.phase) {
      AtomicStart(cfg, x);
      if Overruns(x.c.phase) {
        assert b[..|Client.Message(cfg.client, x.c)|] == Client.Message(cfg.client, x.c);
      }
      assert Client.Message(cfg.client, x.c)[0..] == Client.Message(cfg.client, x.c);
    }
  }

  lemma AtomicStart(cfg: Config, x: Sess)
    requires Inv(cfg, x) && Client.WritePhase(x.c.phase) && Client.Atomic(x.c.phase)
    ensures x.c.writePos == 0
  {
    hide OnRamp, NotStarted, ServerOk, UploadReady, Request, Unsent, Promise, Reply, CText, SText;
  }

  lemma SameMessage(t: Tables, c: Client.Client, n: nat, now: nat)
    ensures var d := Client.Wrote(t, c, n, now); d.phase == c.phase && Overruns(c.phase) ==>
        Client.Message(t, d) == Client.Message(t, c)
  {
  }

  lemma GentleWrite(t: Tables, c: Client.Client, b: Bytes, w: World, offer: Bytes)
    requires Gentle(t, c, b, w) && Client.WritePhase(c.phase) && Slice(t, c, b) == Some(offer) && offer != []
    ensures w.script == [] || !w.script[0].Ended?
    ensures var (io, v) := WriteCall(w, offer);
      && (io.Ok? ==> w.now <= v.now < U64 && Gentle(t, Client.Wrote(t, c, io.n, v.now), b, v)
                     && (Client.Atomic(c.phase) && |offer| <= |Client.Message(t, c)| ==> io.n == |offer|))
  {
    hide Client.Wrote, Client.Message, Slice;
  }

  /** A call of a client handler is a path of session steps, on every schedule of
      the socket and whatever the write buffer held before, and so keeps the pairing
      invariant. */
  lemma CallKeeps(cfg: Config, x: Sess, b: Bytes, script: seq<Answer>)
    requires Inv(cfg, x) && (Client.ReadPhase(x.c.phase) || Client.WritePhase(x.c.phase))
    requires var d := Client.Enter(x.c, x.now);
        Gentle(cfg.client, d, Filled(cfg.client, d, b), World(x.down, [], x.now, script))
    ensures Keeps(cfg, x, Call(cfg.client, x.c, b, World(x.down, [], x.now, script)), [])
  {
    hide Inv, Leads, Gentle, Loop, Keeps, Client.Message;
    var w := World(x.down, [], x.now, script);
    var y := x.(c := Client.Enter(x.c, x.now));
    if Client.WritePhase(x.c.phase) {
      ClientEnterInv(cfg, x);
      LeadsStep(cfg, x, ClientEnter);
      if Overruns(x.c.phase) {
        AtomicStart(cfg, y);
      }
    }
    if Client.ReadPhase(x.c.phase) {
      LeadsSelf(cfg, x);
    }
    LoopKeeps(cfg, y, Filled(cfg.client, y.c, b), w);
    var none: Bytes := [];
    assert x.up + none == x.up && none + none == none;
    KeepsAfter(cfg, x, y, Call(cfg.client, x.c, b, w), none, none);
  }

  /** In a session no handler ever meets a state it would panic in. */
  lemma SessionRunnable(cfg: Config, x: Sess)
    requires Inv(cfg, x) && (Client.ReadPhase(x.c.phase) || Client.WritePhase(x.c.phase))
    ensures Runnable(x.c)
  {
    hide OnRamp, ServerOk, NotStarted, ResultCounts, TimeCounts, UploadReady, Parsed, Asking, Answering, Downloading,
      Uploading, Resulting, ValidTables;
    OnRampInTable(Round(x.c.totalChunks, x.c.chunkSize));
    if Client.ReadPhase(x.c.phase) {
      RoomPositive(cfg, x);
    } else if DataPhase(x.c.phase) {
      UploadRoom(cfg, x.c, x.s, x.up, x.down, x.k);
    }
  }
}
