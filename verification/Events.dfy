/** What a handler call leaves for the poll loop: the events the connection is
    registered for, and what becomes of a socket whose peer has closed it. */
module Events {
  import opened Text
  import opened Chunks
  import opened Commands
  import opened TimeResults
  import opened Sockets
  import opened ServerMachine
  import opened ServerCalls
  import Client = ClientMachine
  import ClientCalls

  // ----- registration

  /** A connection is registered for the event its phase waits for and no other,
      but for both from the last chunk of GETTIME to its OK. */
  predicate Registered(s: Server) {
    s.phase.Closed? ||
    s.interest == if s.phase.TimeSendLast? || s.phase.TimeReceiveOk? then Both
                  else if ReadPhase(s.phase) then Readable else Writable
  }

  /** A call's entry registers nothing but the last chunk of GETCHUNKS. */
  lemma EnterRegistered(t: Tables, s: Server, now: nat)
    requires Registered(s)
    ensures Registered(Enter(t, s, now))
  {
    hide Enter;
    EnterKeeps(t, s, now);
  }

  lemma EnterKeeps(t: Tables, s: Server, now: nat)
    ensures var y := Enter(t, s, now);
      (y.phase == s.phase && y.interest == s.interest) || (y.phase.ChunksSendLast? && y.interest == Writable)
  {
    hide Overlay, Fresh, TimeResult, Elapsed;
  }

  lemma FinishRegistered(s: Server, now: nat)
    requires Registered(s)
    ensures Registered(Finish(s, now))
  {
    hide Elapsed, Zeros;
  }

  lemma GotRegistered(s: Server, data: Bytes, now: nat)
    requires Registered(s) && 0 < |data| <= Room(s)
    ensures Registered(Got(s, data, now))
  {
    hide Got, Registered;
    if s.phase.NoResultReceive? || s.phase.PutReceive? || s.phase.ResultReceive? {
      ChunkRegistered(s, data, now);
    } else if s.phase.CommandReceive? {
      CommandRegistered(s, data, now);
    } else {
      TextRegistered(s, data, now);
    }
  }

  lemma ChunkRegistered(s: Server, data: Bytes, now: nat)
    requires Registered(s) && (s.phase.NoResultReceive? || s.phase.PutReceive? || s.phase.ResultReceive?)
    requires 0 < |data| <= Room(s)
    ensures Registered(Got(s, data, now))
  {
    hide Store, Elapsed, Boundary;
  }

  lemma CommandRegistered(s: Server, data: Bytes, now: nat)
    requires Registered(s) && s.phase.CommandReceive? && 0 < |data| <= Room(s)
    ensures Registered(Got(s, data, now))
  {
    hide Store, ParseCommand;
  }

  lemma TextRegistered(s: Server, data: Bytes, now: nat)
    requires Registered(s) && !s.phase.NoResultReceive? && !s.phase.PutReceive? && !s.phase.ResultReceive?
    requires !s.phase.CommandReceive? && 0 < |data| <= Room(s)
    ensures Registered(Got(s, data, now))
  {
    hide Store, Elapsed, IsOk;
  }

  lemma WroteRegistered(t: Tables, s: Server, n: nat, now: nat)
    requires Registered(s)
    ensures Registered(Wrote(t, s, n, now))
  {
    hide Finish, Message;
    FinishRegistered(s, now);
  }

  lemma {:induction false} LoopRegistered(t: Tables, s: Server, w: World)
    requires Registered(s)
    ensures Registered(Loop(t, s, w).s)
    decreases |w.script|
  {
    hide Registered, Got, Wrote, Message, Offer, Room, ReadCall, WriteCall, OnZero;
    if ReadPhase(s.phase) {
      var (io, data, v) := ReadCall(w, Room(s));
      if io.Ok? && io.n > 0 {
        GotRegistered(s, data, v.now);
        LoopRegistered(t, Got(s, data, v.now), v);
      } else if io.Ok? {
        LoopRegistered(t, s, v);
      }
    } else if Rewrites(s.phase) || s.writePos <= |Message(t, s)| {
      var (io, v) := WriteCall(w, Offer(t, s));
      if io.Ok? && io.n > 0 {
        WroteRegistered(t, s, io.n, v.now);
        LoopRegistered(t, Wrote(t, s, io.n, v.now), v);
      } else if io.Ok? {
        LoopRegistered(t, s, v);
      }
    }
  }

  /** Every handler call of the server, in any phase and on any answers of the socket,
      leaves the connection registered for exactly what its phase waits for. */
  lemma CallRegisters(t: Tables, s: Server, w: World)
    requires Registered(s)
    ensures Registered(Call(t, s, w).s) && Registered(NewConnection())
  {
    hide Registered, Loop, Enter;
    EnterRegistered(t, s, w.now);
    LoopRegistered(t, Enter(t, s, w.now), w);
    assert Registered(NewConnection()) by { FirstRegistered(); }
  }

  lemma FirstRegistered()
    ensures Registered(NewConnection())
  {
  }

  /** The client is registered for what its phase waits for, and between two phases
      for writing. */
  predicate ClientRegistered(c: Client.Client) {
    c.interest == if Client.ReadPhase(c.phase) then Readable else Writable
  }

  lemma ClientWrites(t: Tables, c: Client.Client, n: nat, now: nat)
    requires ClientRegistered(c) && Client.WritePhase(c.phase)
    ensures ClientRegistered(Client.Wrote(t, c, n, now))
  {
    hide Client.Message, Client.Elapsed, Client.Resize;
  }

  lemma ClientReads(c: Client.Client, data: Bytes, now: nat)
    requires ClientRegistered(c) && Client.ReadPhase(c.phase)
    requires c.readPos <= Client.Top(c) && |data| <= Client.Room(c) && |c.readBuffer| >= 5
    ensures ClientRegistered(Client.Got(c, data, now))
  {
    hide Store, Client.Boundary, Client.Elapsed, ParseTimeResult, Client.GotReply;
    if !c.phase.ChunksReceiveChunk? && !c.phase.TimeReceiveChunk? && c.readPos + |data| <= |c.readBuffer| {
      ClientReplies(Client.GotText(c, data), now);
    }
  }

  lemma ClientReplies(c: Client.Client, now: nat)
    requires ClientRegistered(c) && Client.ReadPhase(c.phase) && c.readPos <= |c.readBuffer|
    ensures ClientRegistered(Client.GotReply(c, now))
  {
    hide Client.Elapsed, Client.ParseTime, Client.SecondNumber, Client.Resize, Contains, EndsWith;
  }

  lemma {:induction false} ClientLoop(t: Tables, c: Client.Client, b: Bytes, w: World)
    requires ClientRegistered(c)
    ensures ClientRegistered(ClientCalls.Loop(t, c, b, w).c)
    decreases |w.script|
  {
    hide ClientRegistered, Client.Got, Client.Wrote, ClientCalls.Slice, Client.Room, Client.Top, ReadCall, WriteCall;
    if Client.ReadPhase(c.phase) && c.readPos <= Client.Top(c) && |c.readBuffer| >= 5 {
      var (io, data, v) := ReadCall(w, Client.Room(c));
      if io.Ok? {
        ClientReads(c, data, v.now);
        ClientLoop(t, Client.Got(c, data, v.now), b, v);
        ClientLoop(t, c, b, v);
      }
    } else if Client.WritePhase(c.phase) && ClientCalls.Slice(t, c, b).Some? {
      var (io, v) := WriteCall(w, ClientCalls.Slice(t, c, b).value);
      if io.Ok? {
        ClientWrites(t, c, io.n, v.now);
        ClientLoop(t, Client.Wrote(t, c, io.n, v.now), b, v);
        ClientLoop(t, c, b, v);
      }
    }
  }

  /** The same for every handler call of the client, and for the start of each phase. */
  lemma ClientCallRegisters(t: Tables, c: Client.Client, b: Bytes, w: World, now: nat)
    requires ClientRegistered(c)
    ensures ClientRegistered(ClientCalls.Call(t, c, b, w).c)
    ensures Client.DonePhase(c.phase) ==> ClientRegistered(Client.Start(c, now))
    ensures ClientRegistered(Client.NewClient(c.token))
  {
    hide ClientCalls.Loop, Zeros;
    ClientLoop(t, Client.Enter(c, w.now), ClientCalls.Filled(t, Client.Enter(c, w.now), b), w);
  }

  // ----- a call goes on while the socket does

  /** What a read or write leaves: the call goes on exactly while the phase stays, but
      for a command line that is not known. */
  lemma GoesOn(t: Tables, s: Server, data: Bytes, n: nat, now: nat)
    requires s.inCall
    ensures WritePhase(s.phase) ==>
      var r := Wrote(t, s, n, now); (r.inCall <==> r.phase == s.phase) && !r.phase.Closed?
    ensures ReadPhase(s.phase) && 0 < |data| <= Room(s) ==>
      var r := Got(s, data, now); r.inCall ==> r.phase == s.phase
    ensures ReadPhase(s.phase) && 0 < |data| <= Room(s) ==>
      var r := Got(s, data, now); !r.inCall ==> r.phase != s.phase || s.phase.CommandReceive?
  {
    hide Got, Finish, Message;
    if WritePhase(s.phase) {
      FinishGoesOn(s, now);
    } else if ReadPhase(s.phase) && 0 < |data| <= Room(s) {
      GotGoesOn(s, data, now);
    }
  }

  lemma FinishGoesOn(s: Server, now: nat)
    requires s.inCall && WritePhase(s.phase)
    ensures var r := Finish(s, now); (r.inCall <==> r.phase == s.phase) && !r.phase.Closed?
  {
    hide Elapsed, Zeros;
  }

  lemma GotGoesOn(s: Server, data: Bytes, now: nat)
    requires s.inCall && ReadPhase(s.phase) && 0 < |data| <= Room(s)
    ensures var r := Got(s, data, now);
      (r.inCall ==> r.phase == s.phase) && (!r.inCall ==> r.phase != s.phase || s.phase.CommandReceive?)
  {
    hide Store, ParseCommand, Elapsed, Boundary, IsOk;
    match s.phase {
      case CommandReceive =>
      case NoResultReceive =>
      case PutReceive =>
      case ResultReceive =>
      case _ =>
    }
  }

  lemma {:induction false} LoopRunsOn(t: Tables, s: Server, w: World)
    requires s.inCall && !s.phase.Closed?
    ensures var o := Loop(t, s, w);
      && (o.io.Ok? && o.io.n > 0 ==> o.s.phase != s.phase || s.phase.CommandReceive?)
      && (o.s.phase.Closed? ==> o.io.Failed?)
    decreases |w.script|
  {
    hide Got, Wrote, Message, Offer, Room, ReadCall, WriteCall, OnZero;
    if ReadPhase(s.phase) {
      var (io, data, v) := ReadCall(w, Room(s));
      if io.Ok? {
        if io.n > 0 {
          GoesOn(t, s, data, 0, v.now);
          if Got(s, data, v.now).inCall {
            LoopRunsOn(t, Got(s, data, v.now), v);
          }
        }
        LoopRunsOn(t, s, v);
      }
    } else if Rewrites(s.phase) || s.writePos <= |Message(t, s)| {
      var (io, v) := WriteCall(w, Offer(t, s));
      if io.Ok? {
        GoesOn(t, s, [], io.n, v.now);
        if Wrote(t, s, io.n, v.now).inCall {
          LoopRunsOn(t, Wrote(t, s, io.n, v.now), v);
        }
        LoopRunsOn(t, s, v);
      }
    }
  }

  /** Events are reported once, so a handler must not stop early. One that returns a
      positive count has finished its phase, or dropped a line it does not know; else
      the socket would block, has failed, or has moved no bytes. One that gives the
      connection up reports a failure. */
  lemma CallRunsOn(t: Tables, s: Server, w: World)
    requires !s.phase.Closed?
    ensures var o := Call(t, s, w);
      && (o.io.Ok? && o.io.n > 0 ==> o.s.phase != s.phase || s.phase.CommandReceive?)
      && (o.s.phase.Closed? ==> o.io.Failed?)
  {
    hide Loop;
    var e := Enter(t, s, w.now);
    EntersPhase(t, s, w.now);
    if e.inCall {
      LoopRunsOn(t, e, w);
    }
  }

  lemma EntersPhase(t: Tables, s: Server, now: nat)
    ensures var e := Enter(t, s, now);
      if e.inCall then e.phase == s.phase else s.phase.ChunksSend? && e.phase.ChunksSendLast?
  {
    hide Overlay, Fresh, TimeResult, Elapsed;
  }

  /** The same for the client: a call that returns a positive count has changed its phase. */
  lemma {:induction false} ClientLoopRunsOn(t: Tables, c: Client.Client, b: Bytes, w: World)
    ensures var o := ClientCalls.Loop(t, c, b, w); o.io.Ok? && o.io.n > 0 ==> o.c.phase != c.phase
    decreases |w.script|
  {
    hide Client.Got, Client.Wrote, ClientCalls.Slice, Client.Room, Client.Top, ReadCall, WriteCall;
    if Client.ReadPhase(c.phase) && c.readPos <= Client.Top(c) && |c.readBuffer| >= 5 {
      var (io, data, v) := ReadCall(w, Client.Room(c));
      if io.Ok? {
        ClientLoopRunsOn(t, Client.Got(c, data, v.now), b, v);
        ClientLoopRunsOn(t, c, b, v);
      }
    } else if Client.WritePhase(c.phase) && ClientCalls.Slice(t, c, b).Some? {
      var (io, v) := WriteCall(w, ClientCalls.Slice(t, c, b).value);
      if io.Ok? {
        ClientLoopRunsOn(t, Client.Wrote(t, c, io.n, v.now), b, v);
        ClientLoopRunsOn(t, c, b, v);
      }
    }
  }

  // ----- the end of the stream

  /** A peer that has closed: every read or write of the next `k` moves no bytes. */
  function Ends(k: nat, at: nat): seq<Answer> { if k == 0 then [] else [Ended(at)] + Ends(k - 1, at) }

  /** Handlers that fail at a read or write of no bytes, and those that return it. */
  predicate FailsAtEnd(p: Phase) {
    || p.SendVersion? || p.SendAcceptToken? || p.PingReceiveOk?
    || p.NoResultSendOk? || p.NoResultReceive? || p.NoResultSendTime?
    || p.PutSendOk? || p.PutReceive? || p.PutSendBytes? || p.PutSendTime?
    || p.ResultSendOk? || p.ResultReceive? || p.ResultSend?
  }

  predicate ReturnsAtEnd(p: Phase) { p.CommandReceive? || p.ChunksSend? || p.ChunksSendLast? || p.ChunksSendTime? }

  lemma EndsFirst(k: nat, at: nat)
    requires k > 0
    ensures var ends := Ends(k, at); |ends| == k && ends[0] == Ended(at) && ends[1..] == Ends(k - 1, at)
    decreases k
  {
    if k > 1 {
      EndsFirst(k - 1, at);
    }
  }

  lemma TableAtEnd(p: Phase)
    requires !p.Closed?
    ensures (OnZero(p).Fail? <==> FailsAtEnd(p)) && (OnZero(p).Stop? <==> ReturnsAtEnd(p))
    ensures FailsAtEnd(p) ==> !ReturnsAtEnd(p)
  {
  }

  lemma {:induction false} LoopAtEnd(t: Tables, s: Server, w: World, k: nat, at: nat)
    requires !s.phase.Closed? && w.script == Ends(k, at)
    requires ReadPhase(s.phase) || Rewrites(s.phase) || s.writePos <= |Message(t, s)|
    ensures var o := Loop(t, s, w);
      && o.s == s && o.w.out == w.out && o.w.inbox == w.inbox
      && (k > 0 && FailsAtEnd(s.phase) ==> o.io == Failed && |o.w.script| == k - 1)
      && (k > 0 && ReturnsAtEnd(s.phase) ==> o.io == Ok(0) && |o.w.script| == k - 1)
      && (k == 0 || (!FailsAtEnd(s.phase) && !ReturnsAtEnd(s.phase)) ==> o.io == WouldBlock && o.w.script == [])
    decreases k
  {
    hide Got, Message, Offer, Room, ReadCall, WriteCall, OnZero, FailsAtEnd, ReturnsAtEnd;
    TableAtEnd(s.phase);
    if k > 0 {
      EndsFirst(k, at);
      if k > 1 {
        EndsFirst(k - 1, at);
      }
      MovesNothing(w, at, Room(s));
      if ReadPhase(s.phase) {
        LoopAtEnd(t, s, ReadCall(w, Room(s)).2, k - 1, at);
      } else {
        EndsWrite(w, at, Offer(t, s));
        LoopAtEnd(t, s, WriteCall(w, Offer(t, s)).1, k - 1, at);
      }
    } else {
      NoAnswers(w, Room(s));
      if !ReadPhase(s.phase) {
        NoWrite(w, Offer(t, s));
      }
    }
  }

  lemma MovesNothing(w: World, at: nat, room: nat)
    requires w.script != [] && w.script[0] == Ended(at)
    ensures ReadCall(w, room) == (Ok(0), [], w.(script := w.script[1..], now := at))
  {
  }

  lemma EndsWrite(w: World, at: nat, data: Bytes)
    requires w.script != [] && w.script[0] == Ended(at)
    ensures WriteCall(w, data) == (Ok(0), w.(script := w.script[1..], now := at))
  {
  }

  lemma NoAnswers(w: World, room: nat)
    requires w.script == []
    ensures ReadCall(w, room) == (WouldBlock, [], w)
  {
  }

  lemma NoWrite(w: World, data: Bytes)
    requires w.script == []
    ensures WriteCall(w, data) == (WouldBlock, w)
  {
  }

  /** A peer that has closed, met `k` times. The upload handlers, the ping's OK and the
      first two greetings fail at once; the prompt and GETCHUNKS return no bytes at
      once. All others take every one of the `k` in the same call: they never return
      while the stream stays at its end. Nothing is read, written or changed. */
  lemma ServerAtEnd(t: Tables, s: Server, w: World, k: nat, at: nat)
    requires !s.phase.Closed? && k > 0 && w.script == Ends(k, at)
    requires var e := Enter(t, s, w.now);
      e.inCall && (ReadPhase(e.phase) || Rewrites(e.phase) || e.writePos <= |Message(t, e)|)
    ensures var (o, e) := (Call(t, s, w), Enter(t, s, w.now));
      && o.s == e && o.w.out == w.out && o.w.inbox == w.inbox
      && (FailsAtEnd(e.phase) ==> o.io == Failed && |o.w.script| == k - 1)
      && (ReturnsAtEnd(e.phase) ==> o.io == Ok(0) && |o.w.script| == k - 1)
      && (!FailsAtEnd(e.phase) && !ReturnsAtEnd(e.phase) ==> o.io == WouldBlock && o.w.script == [])
  {
    hide Loop, Enter, Message;
    StaysOpen(t, s, w.now);
    LoopAtEnd(t, Enter(t, s, w.now), w, k, at);
  }

  lemma StaysOpen(t: Tables, s: Server, now: nat)
    requires !s.phase.Closed?
    ensures !Enter(t, s, now).phase.Closed?
  {
    hide Overlay, Fresh, TimeResult, Elapsed;
  }

  /** A client reader at the end of its stream never returns either, unless what it
      holds was already complete. */
  lemma {:induction false} ClientAtEnd(t: Tables, c: Client.Client, b: Bytes, w: World, k: nat, at: nat)
    requires Client.ReadPhase(c.phase) && c.readPos <= Client.Top(c) && |c.readBuffer| >= 5 && w.script == Ends(k, at)
    requires c.phase.ReceiveGreeting? || c.phase.ReceiveResponse? || Client.Got(c, [], at) == c
    ensures var o := ClientCalls.Loop(t, c, b, w);
      o.c == c && o.io == WouldBlock && o.w.script == [] && o.w.out == w.out && o.w.inbox == w.inbox
    decreases k
  {
    hide Client.Got, Client.Room, Client.Top, ReadCall;
    if k > 0 {
      EndsFirst(k, at);
      MovesNothing(w, at, Client.Room(c));
      ClientAtEnd(t, c, b, ReadCall(w, Client.Room(c)).2, k - 1, at);
    } else {
      NoAnswers(w, Client.Room(c));
    }
  }

  /** Of the client's writers only the one of upload chunks returns when the socket takes
      no bytes. The others offer the same again until it answers otherwise. */
  lemma {:induction false} ClientWritesAtEnd(t: Tables, c: Client.Client, b: Bytes, w: World, k: nat, at: nat)
    requires Client.WritePhase(c.phase) && ClientCalls.Slice(t, c, b).Some? && w.script == Ends(k, at)
    ensures var o := ClientCalls.Loop(t, c, b, w);
      && o.c == c && o.w.out == w.out && o.w.inbox == w.inbox
      && (k > 0 && c.phase.PerfSendChunks? ==> o.io == Ok(0) && |o.w.script| == k - 1)
      && (k == 0 || !c.phase.PerfSendChunks? ==> o.io == WouldBlock && o.w.script == [])
    decreases k
  {
    hide Client.Wrote, ClientCalls.Slice, WriteCall;
    var data := ClientCalls.Slice(t, c, b).value;
    if k > 0 {
      EndsFirst(k, at);
      if k > 1 {
        EndsFirst(k - 1, at);
      }
      EndsWrite(w, at, data);
      ClientWritesAtEnd(t, c, b, WriteCall(w, data).1, k - 1, at);
    } else {
      NoWrite(w, data);
    }
  }

  // ----- chunks that end in neither 0 nor 0xFF

  /** What the client makes of a chunk that is whole, by its last byte. GETCHUNKS knows
      0 and 0xFF; GETTIME takes every other byte for 0. */
  lemma WholeChunkTaken(c: Client.Client, data: Bytes, now: nat)
    requires (c.phase.ChunksReceiveChunk? || c.phase.TimeReceiveChunk?) && data != [] && |c.readBuffer| >= 5
    requires c.readPos + |data| == c.chunkSize == |c.chunkBuffer|
    ensures |data| <= Client.Room(c)
    ensures var (d, last) := (Client.Got(c, data, now), data[|data| - 1]);
      && (c.phase.ChunksReceiveChunk? ==>
          if last == 0 then d.phase == c.phase && d.readPos == 0
          else if last == 255 then d.phase.ChunksSendOk? && d.readPos == 0
          else d == c.(chunkBuffer := d.chunkBuffer, readPos := c.chunkSize)
               && Client.Boundary(d) != 0 && Client.Boundary(d) != 255)
      && (c.phase.TimeReceiveChunk? ==>
          && |d.downloads| == |c.downloads| + 1
          && if last == 255 then d.phase.TimeSendOk? else d.phase == c.phase && d.readPos == 0)
  {
    hide Client.Elapsed;
    var b := Store(c.chunkBuffer, c.readPos, data);
    assert b[..c.chunkSize][c.chunkSize - 1] == data[|data| - 1];
  }

  /** A GETCHUNKS reader with an odd chunk has no room left and takes no further byte:
      it returns only when the socket would block or fails. */
  lemma {:induction false} OddChunkStuck(t: Tables, c: Client.Client, b: Bytes, w: World)
    requires c.phase.ChunksReceiveChunk? && 0 < c.readPos == c.chunkSize == |c.chunkBuffer| && |c.readBuffer| >= 5
    requires Client.Boundary(c) != 0 && Client.Boundary(c) != 255
    ensures var o := ClientCalls.Loop(t, c, b, w); o.c == c && !o.io.Ok? && o.w.inbox == w.inbox
    decreases |w.script|
  {
    hide Client.Boundary;
    var (io, data, v) := ReadCall(w, Client.Room(c));
    if io.Ok? {
      assert data == [] && Store(c.chunkBuffer, c.readPos, []) == c.chunkBuffer;
      assert Client.GotChunk(c, []) == c;
      OddChunkStuck(t, c, b, v);
    }
  }

  // ----- no chunks asked for

  predicate Endless(s: Server) { s.phase.ChunksSend? && s.numChunks == 0 }

  lemma {:induction false} EndlessLoop(t: Tables, s: Server, w: World)
    requires Endless(s)
    ensures Endless(Loop(t, s, w).s)
    decreases |w.script|
  {
    hide Message, Offer, WriteCall;
    if s.writePos <= |Message(t, s)| {
      var (io, v) := WriteCall(w, Offer(t, s));
      if io.Ok? {
        EndlessLoop(t, Wrote(t, s, io.n, v.now), v);
      }
    }
  }

  /** A GETCHUNKS of 0 chunks never comes to its terminal chunk, whatever the socket
      answers: the count to compare with has wrapped. */
  lemma NoChunksNeverEnds(t: Tables, s: Server, size: nat, w: World)
    ensures Endless(Apply(s, GetChunks(0, size)))
    ensures Endless(s) ==> Endless(Call(t, s, w).s)
  {
    hide Loop;
    if Endless(s) {
      EndlessLoop(t, Enter(t, s, w.now), w);
    }
  }
}
