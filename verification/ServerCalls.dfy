/** A call of a mio server handler, as a function of the connection and of what
    the socket will answer: `Enter`, then reads or writes until the socket would
    block, fails, or the call ends. */
module ServerCalls {
  import opened Chunks
  import opened ServerMachine
  import opened Sockets

  /** What a handler makes of a `read` or `write` of no bytes. */
  datatype Zero = Stop | Fail | Again

  function OnZero(p: Phase): Zero {
    match p
    case CommandReceive | ChunksSend | ChunksSendLast | ChunksSendTime => Stop
    case SendVersion | SendAcceptToken | PingReceiveOk | NoResultSendOk | NoResultReceive | NoResultSendTime
       | PutSendOk | PutReceive | PutSendBytes | PutSendTime | ResultSendOk | ResultReceive | ResultSend => Fail
    case _ => Again
  }

  datatype Outcome = Outcome(s: Server, w: World, io: Io)

  /** The loop of the handler for the current phase, from a state in which it runs. */
  function Loop(t: Tables, s: Server, w: World): Outcome
    decreases |w.script|
  {
    if ReadPhase(s.phase) then
      var (io, data, v) := ReadCall(w, Room(s));
      if !io.Ok? then Outcome(s, v, io)
      else if io.n == 0 then LoopZero(t, s, v, |w.script|)
      else
        var r := Got(s, data, v.now);
        if r.inCall then Loop(t, r, v) else Outcome(r, v, if r.phase.Closed? then Failed else io)
    else if Rewrites(s.phase) || s.writePos <= |Message(t, s)| then
      var (io, v) := WriteCall(w, Offer(t, s));
      if !io.Ok? then Outcome(s, v, io)
      else if io.n == 0 then LoopZero(t, s, v, |w.script|)
      else
        var r := Wrote(t, s, io.n, v.now);
        if r.inCall then Loop(t, r, v) else Outcome(r, v, io)
    else Outcome(s, w, Failed)
  }

  function LoopZero(t: Tables, s: Server, v: World, bound: nat): Outcome
    requires |v.script| < bound
    decreases bound, 0
  {
    match OnZero(s.phase)
    case Stop => Outcome(s, v, Ok(0))
    case Fail => Outcome(s, v, Failed)
    case Again => Loop(t, s, v)
  }

  /** A read or write of no bytes, after any call before it. */
  function AfterZero(t: Tables, s: Server, v: World): Outcome { LoopZero(t, s, v, |v.script| + 1) }

  /** The whole call. */
  function Call(t: Tables, s: Server, w: World): Outcome {
    var e := Enter(t, s, w.now);
    if e.inCall then Loop(t, e, w) else Outcome(e, w, Ok(1))
  }

  /** One turn of a write loop. */
  lemma WriteTurn(t: Tables, s: Server, w: World)
    requires WritePhase(s.phase) && s.inCall && (Rewrites(s.phase) || s.writePos <= |Message(t, s)|)
    ensures var (io, v) := WriteCall(w, Offer(t, s));
      && (!io.Ok? ==> Loop(t, s, w) == Outcome(s, v, io))
      && (io == Ok(0) ==> Loop(t, s, w) == AfterZero(t, s, v))
      && (io.Ok? && io.n > 0 && s.writePos + io.n != |Message(t, s)| ==>
          Loop(t, s, w) == Loop(t, s.(writePos := s.writePos + io.n), v))
      && (io.Ok? && io.n > 0 && s.writePos + io.n == |Message(t, s)| ==>
            var r := Finish(s, v.now); Loop(t, s, w) == if r.inCall then Loop(t, r, v) else Outcome(r, v, io))
  {
    hide Message, Offer, Finish, WriteCall, OnZero;
  }

  /** The same turn, by its effect on the connection. */
  lemma LoopWrites(t: Tables, s: Server, w: World)
    requires WritePhase(s.phase) && s.inCall && s.writePos <= |Message(t, s)|
    ensures var (io, v) := WriteCall(w, Offer(t, s));
      && (!io.Ok? ==> Loop(t, s, w) == Outcome(s, v, io))
      && (io == Ok(0) ==> Loop(t, s, w) == AfterZero(t, s, v))
      && (io.Ok? && io.n > 0 ==>
            var r := Wrote(t, s, io.n, v.now); Loop(t, s, w) == if r.inCall then Loop(t, r, v) else Outcome(r, v, io))
  {
    hide Message, Offer, Finish, WriteCall, Loop, AfterZero;
    WriteTurn(t, s, w);
  }

  /** One turn of a read loop. */
  lemma ReadTurn(t: Tables, s: Server, w: World)
    requires ReadPhase(s.phase) && s.inCall
    ensures var (io, data, v) := ReadCall(w, Room(s));
      && (!io.Ok? ==> Loop(t, s, w) == Outcome(s, v, io))
      && (io == Ok(0) ==> Loop(t, s, w) == AfterZero(t, s, v))
      && (io.Ok? && io.n > 0 ==>
            var r := Got(s, data, v.now);
            Loop(t, s, w) == if r.inCall then Loop(t, r, v) else Outcome(r, v, if r.phase.Closed? then Failed else io))
  {
    hide Got, ReadCall, OnZero, Room;
  }
}
