/** One turn of each server handler's loop, spelled out as the assignments the
    handler makes; what a handler may take for granted. */
module ServerTurns {
  import opened Text
  import opened Wire
  import opened Chunks
  import opened TimeResults
  import opened Commands
  import opened ServerMachine
  import opened Sockets
  import opened ServerCalls

  /** Phases whose handler copies its text to the write buffer and sends from there. */
  predicate Buffered(p: Phase) {
    WritePhase(p) && !(p.ChunksSend? || p.ChunksSendLast? || p.TimeSendChunk? || p.TimeSendLast? || p.ChunksSendTime?
        || p.TimeSendTime? || p.ResultSend?)
  }

  /** Phases whose handler sends a slice of a chunk. */
  predicate Sliced(p: Phase) {
    p.ChunksSend? || p.ChunksSendLast? || p.TimeSendChunk? || p.TimeSendLast? || p.ResultSend?
  }

  /** A write position is inside its message and 0 while the handler reads, and the text a handler has begun to
      send is still in the buffer it sends from. */
  predicate Kept(t: Tables, s: Server, writeBuffer: Bytes) {
    && (ReadPhase(s.phase) ==> s.writePos == 0)
    && (Sliced(s.phase) ==> s.writePos == 0 || s.writePos < |Message(t, s)|)
    && (Buffered(s.phase) ==> s.writePos < |Message(t, s)| && (s.writePos > 0 ==> Message(t, s) <= writeBuffer))
    && (s.phase.ResultSend? && s.writePos > 0 ==> Overlay(s.chunkBuffer, TimeResult(s.received)) == s.chunkBuffer)
  }

  lemma TextsNonempty(t: Tables, s: Server)
    requires Buffered(s.phase)
    ensures |Message(t, s)| > 0
  {
    hide Show, TimeResult, TableChunk, TimeChunk, TimeLastChunk, Overlay;
  }

  lemma KeptFresh(t: Tables, s: Server, b: Bytes)
    ensures s.writePos == 0 || Rewrites(s.phase) || s.phase.Closed? ==> Kept(t, s, b)
    ensures Kept(t, s, b) && ReadPhase(s.phase) ==> s.writePos == 0
    ensures s.writePos < |Message(t, s)| && Buffered(s.phase) && Message(t, s) <= b ==> Kept(t, s, b)
    ensures Kept(t, s, b) && Buffered(s.phase) ==>
        s.writePos < |Message(t, s)| && (s.writePos > 0 ==> Message(t, s) <= b)
  {
    hide Message, Overlay, TimeResult;
    if Buffered(s.phase) {
      TextsNonempty(t, s);
    }
  }

  lemma KeptSlice(t: Tables, s: Server, b: Bytes)
    ensures Sliced(s.phase) && !s.phase.ResultSend? ==>
        (Kept(t, s, b) <==> s.writePos == 0 || s.writePos < |Message(t, s)|)
  {
    hide Message, Overlay, TimeResult;
  }

  /** What the handler of a phase takes for granted: it would panic otherwise. */
  predicate Runnable(t: Tables, s: Server) {
    && (NeedsTime(s.phase) ==> s.timeNs.Some?)
    && match s.phase
       case ReceiveToken | CommandReceive => s.readPos <= |s.readBuffer|
       case ChunksReceiveOk | TimeReceiveOk => s.clock.Some? && !IsOk(s)
       case PingReceiveOk | ResultSend => s.clock.Some?
       case ChunksSend | ChunksSendLast => s.chunkSize in SIZES
       case TimeSendChunk => MIN_CHUNK <= s.chunkSize <= MAX_CHUNK
           && (s.chunkSize in t.zero || (s.chunk.Some? ==> s.chunk.value != []))
       case TimeSendLast => MIN_CHUNK <= s.chunkSize <= MAX_CHUNK
           && (s.chunkSize in t.last || (s.terminalChunk.Some? ==> s.terminalChunk.value != []))
       case PutReceive => s.clock.Some? && s.readPos <= |s.chunkBuffer|
       case NoResultReceive | ResultReceive => s.clock.Some? && s.chunkSize > 0 && s.readPos <= |s.chunkBuffer|
       case PutSendBytes => 0 < s.readPos <= |s.chunkBuffer| && |Message(t, s)| <= 8192
       case PingSendTime | NoResultSendTime | PutSendTime => |Message(t, s)| <= 8192
       case _ => true
  }

  lemma SameText(t: Tables, s: Server, p: nat)
    ensures Message(t, s.(writePos := p)) == Message(t, s)
  {
    hide TimeResult, Overlay, Time, TimeBytes, TableChunk, VERSION, ACCEPT_TOKEN, CHUNK_SIZES, ACCEPT, PONG, OK;
  }

  /** The end of a text is the end of the call. */
  lemma TextEndsCall(s: Server, now: nat)
    requires Buffered(s.phase)
    ensures !Finish(s, now).inCall && Finish(s.(writePos := 0), now) == Finish(s, now)
  {
    hide Elapsed, Zeros;
  }

  /** One turn of the loop of a handler that sends a text. */
  lemma Sends(t: Tables, s: Server, w: World, text: Bytes)
    requires Buffered(s.phase) && s.inCall && Message(t, s) == text && s.writePos <= |text|
    ensures var (io, v) := WriteCall(w, text[s.writePos..]);
      && (!io.Ok? ==> Loop(t, s, w) == Outcome(s, v, io))
      && (io == Ok(0) && OnZero(s.phase).Fail? ==> Loop(t, s, w) == Outcome(s, v, Failed))
      && (io == Ok(0) && OnZero(s.phase).Stop? ==> Loop(t, s, w) == Outcome(s, v, Ok(0)))
      && (io == Ok(0) && OnZero(s.phase).Again? ==> Loop(t, s, w) == Loop(t, s, v))
      && (io.Ok? && io.n > 0 && s.writePos + io.n != |text| ==>
          Loop(t, s, w) == Loop(t, s.(writePos := s.writePos + io.n), v))
      && (io.Ok? && io.n > 0 && s.writePos + io.n == |text| ==>
            Loop(t, s, w) == Outcome(Finish(s.(writePos := s.writePos + io.n), v.now), v, io))
  {
    hide Message, Loop, Finished, OnZero, WriteCall;
    WriteTurn(t, s, w);
    TextEndsCall(s, WriteCall(w, text[s.writePos..]).1.now);
  }

  /** A call in a read phase goes straight into its loop. */
  lemma CallReads(t: Tables, s: Server, w: World)
    requires ReadPhase(s.phase)
    ensures Call(t, s, w) == Loop(t, s.(inCall := true), w)
  {
    hide Loop;
  }

  // One turn of the loops of the handlers that take chunks.

  lemma PutTurn(t: Tables, s: Server, w: World)
    requires s.phase.PutReceive? && s.inCall && s.readPos <= |s.chunkBuffer|
    ensures var (io, data, v) := ReadCall(w, |s.chunkBuffer| - s.readPos);
      && (!io.Ok? ==> Loop(t, s, w) == Outcome(s, v, io))
      && (io == Ok(0) ==> Loop(t, s, w) == Outcome(s, v, Failed))
      && (io.Ok? && io.n > 0 ==>
            var r := s.(chunkBuffer := Store(s.chunkBuffer, s.readPos, data), readPos := s.readPos + io.n,
                totalBytes := s.totalBytes + io.n);
            Loop(t, s, w) == if r.readPos != r.chunkSize then Loop(t, r, v)
                             else Outcome(r.(phase := PutSendBytes, timeNs := Some(Elapsed(r, v.now)),
                                 interest := Writable, inCall := false), v, io))
  {
    hide Loop, ReadCall, Elapsed;
    ReadTurn(t, s, w);
  }

  lemma NoResultTurn(t: Tables, s: Server, w: World)
    requires s.phase.NoResultReceive? && s.inCall && s.readPos <= |s.chunkBuffer|
    ensures var (io, data, v) := ReadCall(w, |s.chunkBuffer| - s.readPos);
      && (!io.Ok? ==> Loop(t, s, w) == Outcome(s, v, io))
      && (io == Ok(0) ==> Loop(t, s, w) == Outcome(s, v, Failed))
      && (io.Ok? && io.n > 0 ==>
            var r := s.(chunkBuffer := Store(s.chunkBuffer, s.readPos, data), readPos := s.readPos + io.n);
            var end := r.chunkBuffer[r.readPos - 1];
            Loop(t, s, w) ==
              if r.readPos != r.chunkSize then Loop(t, r, v)
              else if end == 255 then
                Outcome(r.(timeNs := Some(Elapsed(r, v.now)), readPos := 0, phase := NoResultSendTime,
                    interest := Writable, inCall := false), v, io)
              else if end != 0 then Outcome(r.(phase := Closed, inCall := false), v, Failed)
              else Loop(t, r.(readPos := 0), v))
  {
    hide Loop, ReadCall, Elapsed, Store;
    ReadTurn(t, s, w);
  }

  lemma ResultTurn(t: Tables, s: Server, w: World)
    requires s.phase.ResultReceive? && s.inCall && s.readPos <= |s.chunkBuffer|
    ensures var (io, data, v) := ReadCall(w, |s.chunkBuffer| - s.readPos);
      && (!io.Ok? ==> Loop(t, s, w) == Outcome(s, v, io))
      && (io == Ok(0) ==> Loop(t, s, w) == Outcome(s, v, Failed))
      && (io.Ok? && io.n > 0 ==>
            var r := s.(chunkBuffer := Store(s.chunkBuffer, s.readPos, data), readPos := s.readPos + io.n,
                totalBytes := s.totalBytes + io.n);
            var q := r.(received := r.received + [(Elapsed(r, v.now), r.totalBytes)]);
            var end := r.chunkBuffer[r.readPos - 1];
            Loop(t, s, w) ==
              if r.readPos != r.chunkSize then Loop(t, r, v)
              else if end == 255
                  then Outcome(q.(readPos := 0, writePos := 0, phase := ResultSend, interest := Writable,
                  inCall := false), v, io)
              else if end != 0 then Outcome(q.(phase := Closed, inCall := false), v, Failed)
              else Loop(t, q.(readPos := 0), v))
  {
    hide Loop, ReadCall, Elapsed, Store;
    ReadTurn(t, s, w);
  }

  /** One turn of the loop of a handler that collects a line. */
  lemma TextTurn(t: Tables, s: Server, w: World)
    requires (s.phase.ReceiveToken? || s.phase.CommandReceive?) && s.inCall && s.readPos <= |s.readBuffer|
    ensures var (io, data, v) := ReadCall(w, |s.readBuffer| - s.readPos);
      && (!io.Ok? ==> Loop(t, s, w) == Outcome(s, v, io))
      && (io == Ok(0) ==> Loop(t, s, w) == if s.phase.ReceiveToken? then Loop(t, s, v) else Outcome(s, v, io))
      && (io.Ok? && io.n > 0 ==>
            var g := GotText(s, data);
            var r := if data[io.n - 1] != NL then g else if s.phase.ReceiveToken?
                then Goto(g.(readPos := 0), SendOk, Writable)
                     else Apply(g, ParseCommand(g.readBuffer[..g.readPos]));
            Loop(t, s, w) == if r.inCall then Loop(t, r, v) else Outcome(r, v, if r.phase.Closed? then Failed else io))
  {
    hide Loop, GotText, ParseCommand, ReadCall, Apply;
    ReadTurn(t, s, w);
  }

  /** One turn of the loop of a handler that waits for `OK`. */
  lemma OkTurn(t: Tables, s: Server, w: World)
    requires (s.phase.ChunksReceiveOk? || s.phase.TimeReceiveOk? || s.phase.PingReceiveOk?) && s.inCall
    ensures var (io, data, v) := ReadCall(w, |s.readBuffer|);
      && (!io.Ok? ==> Loop(t, s, w) == Outcome(s, v, io))
      && (io == Ok(0) ==> Loop(t, s, w) == if s.phase.PingReceiveOk? then Outcome(s, v, Failed) else Loop(t, s, v))
      && (io.Ok? && io.n > 0 ==>
            var g := GotFront(s, data);
            var r := if s.phase.PingReceiveOk? then OK <= g.readBuffer else IsOk(g);
            Loop(t, s, w) == if !r then Loop(t, g, v) else
              Outcome(Goto(g.(readPos := 0, timeNs := Some(Elapsed(s, v.now)), clock := if s.phase.PingReceiveOk?
                  then None else s.clock),
                           if s.phase.PingReceiveOk? then PingSendTime else if s.phase.ChunksReceiveOk?
                               then ChunksSendTime else TimeSendTime,
                           Writable), v, io))
  {
    hide Loop, ReadCall, IsOk, Elapsed;
    ReadTurn(t, s, w);
  }

  lemma CallEnters(t: Tables, s: Server, w: World)
    ensures var e := Enter(t, s, w.now); Call(t, s, w) == if e.inCall then Loop(t, e, w) else Outcome(e, w, Ok(1))
  {
    hide Enter, Loop;
  }

  lemma EnterChunks(t: Tables, s: Server, now: nat)
    requires s.phase.ChunksSend? && ValidTables(t) && s.chunkSize in SIZES
    ensures var r := if s.clock.None? then s.(writePos := 0, clock := Some(now)) else s;
      Enter(t, s, now) == if s.processed + 1 == s.numChunks then Goto(r, ChunksSendLast, Writable)
          else r.(inCall := true)
  {
    hide Message;
  }

  lemma ChunkMessage(t: Tables, s: Server)
    requires ValidTables(t) && s.chunkSize in SIZES
    ensures s.chunkSize in t.zero && s.chunkSize in t.last
    ensures |t.zero[s.chunkSize]| == |t.last[s.chunkSize]| == s.chunkSize
    ensures s.phase.ChunksSend? ==> Message(t, s) == t.zero[s.chunkSize]
    ensures s.phase.ChunksSendLast? ==> Message(t, s) == t.last[s.chunkSize]
  {
  }

  lemma ChunksTurn(t: Tables, s: Server, w: World)
    requires s.phase.ChunksSend? && ValidTables(t) && s.chunkSize in SIZES && s.inCall && s.writePos <= s.chunkSize
    ensures |t.zero[s.chunkSize]| == s.chunkSize
    ensures var (io, v) := WriteCall(w, t.zero[s.chunkSize][s.writePos..]);
      && (!io.Ok? || io.n == 0 ==> Loop(t, s, w) == Outcome(s, v, io))
      && (io.Ok? && io.n > 0 && s.writePos + io.n != s.chunkSize ==>
          Loop(t, s, w) == Loop(t, s.(writePos := s.writePos + io.n), v))
      && (io.Ok? && io.n > 0 && s.writePos + io.n == s.chunkSize ==>
            var r := s.(processed := s.processed + 1, writePos := 0);
            Loop(t, s, w) == if r.processed + 1 == s.numChunks
                then Outcome(Goto(r, ChunksSendLast, Writable), v, io) else Loop(t, r, v))
  {
    hide Loop, WriteCall, Show, TimeResult, B;
    WriteTurn(t, s, w);
  }

  lemma CallSlices(t: Tables, s: Server, w: World)
    requires s.phase.ChunksSendLast?
    ensures Call(t, s, w) == Loop(t, s.(inCall := true), w)
  {
    hide Loop;
  }

  lemma SliceMessage(t: Tables, s: Server)
    ensures s.phase.TimeSendChunk? ==> Message(t, s) == TimeChunk(t, s)
    ensures s.phase.TimeSendLast? ==> Message(t, s) == TimeLastChunk(t, s)
  {
  }

  /** What a GETTIME call starts with: the chunk it will send is not empty. */
  lemma EnterTime(t: Tables, s: Server, w: World)
    requires s.phase.TimeSendChunk? && ValidTables(t) && MIN_CHUNK <= s.chunkSize <= MAX_CHUNK
    ensures var r := if s.clock.None? then s.(clock := Some(w.now)) else s;
      Call(t, s, w) == Loop(t, r.(inCall := true, isLast := Elapsed(r, w.now) > s.duration * 1000000000,
                                  chunk := if s.chunkSize in t.zero
                                      || s.chunk.Some? then s.chunk else Some(GetChunk(t, s.chunkSize, false))), w)
    ensures MAX_CHUNK in t.zero && s.chunkSize <= |t.zero[MAX_CHUNK]|
    ensures s.chunkSize in t.zero ==> t.zero[s.chunkSize] != []
    ensures Message(t, s) == TimeChunk(t, s)
  {
    hide Loop, Elapsed, GetChunk;
    assert MAX_CHUNK in SIZES;
  }

  /** One turn of the loop of a handler that sends slices of a chunk. */
  lemma SliceTurn(t: Tables, s: Server, w: World, chunk: Bytes)
    requires (s.phase.ChunksSendLast? || s.phase.TimeSendChunk? || s.phase.TimeSendLast?) && s.inCall
    requires Message(t, s) == chunk && s.writePos < |chunk|
    ensures var (io, v) := WriteCall(w, chunk[s.writePos..]);
      && (!io.Ok? ==> Loop(t, s, w) == Outcome(s, v, io))
      && (io == Ok(0) ==> Loop(t, s, w) == if s.phase.ChunksSendLast? then Outcome(s, v, io) else Loop(t, s, v))
      && (io.Ok? && io.n > 0 && s.writePos + io.n != |chunk| ==>
          Loop(t, s, w) == Loop(t, s.(writePos := s.writePos + io.n), v))
      && (io.Ok? && io.n > 0 && s.writePos + io.n == |chunk| ==>
            var r := SliceDone(s); Loop(t, s, w) == if r.inCall then Loop(t, r, v) else Outcome(r, v, io))
  {
    hide Loop, WriteCall, Message;
    WriteTurn(t, s, w);
  }

  function SliceDone(s0: Server): Server {
    var s := s0.(writePos := 0);
    if s.phase.ChunksSendLast? then s.(processed := 0, phase := ChunksReceiveOk, interest := Readable, inCall := false)
    else if s.phase.TimeSendLast? then s.(readPos := 0, phase := TimeReceiveOk, interest := Both, inCall := false)
    else if s.isLast then s.(readPos := 0, phase := TimeSendLast, interest := Both, inCall := false)
    else s
  }

  lemma EnterLast(t: Tables, s: Server, w: World)
    requires s.phase.TimeSendLast? && ValidTables(t) && MIN_CHUNK <= s.chunkSize <= MAX_CHUNK
    ensures Call(t, s, w) ==
      Loop(t, s.(inCall := true, terminalChunk := if s.chunkSize in t.last || s.terminalChunk.Some? then s.terminalChunk
                                                   else Some(GetChunk(t, s.chunkSize, true))), w)
    ensures MAX_CHUNK in t.zero && s.chunkSize <= |t.zero[MAX_CHUNK]|
    ensures s.chunkSize in t.last ==> t.last[s.chunkSize] != []
    ensures Message(t, s) == TimeLastChunk(t, s)
  {
    hide Loop, GetChunk;
    assert MAX_CHUNK in SIZES;
  }

  lemma EnterRewrite(t: Tables, s: Server, w: World)
    requires Rewrites(s.phase)
    ensures Call(t, s, w) == Loop(t, s.(clock := None, inCall := true), w)
  {
    hide Loop;
  }

  lemma RewriteTurn(t: Tables, s: Server, w: World)
    requires Rewrites(s.phase) && s.inCall
    ensures var (io, v) := WriteCall(w, Time(TimeOf(s)));
      && (!io.Ok? ==> Loop(t, s, w) == Outcome(s, v, io))
      && (io == Ok(0) ==> Loop(t, s, w) == if s.phase.ChunksSendTime? then Outcome(s, v, io) else Loop(t, s, v))
      && (io.Ok? && io.n > 0 ==>
            var r := s.(writePos := s.writePos + io.n);
            Loop(t, s, w) == if r.writePos != |Time(TimeOf(s))| then Loop(t, r, v)
                else Outcome(Goto(s.(writePos := 0), CommandSend, Writable), v, io))
  {
    hide Loop, WriteCall, Time;
    WriteTurn(t, s, w);
  }

  lemma KeptResult(t: Tables, s: Server, b: Bytes)
    ensures s.phase.ResultSend? ==>
      (Kept(t, s, b) <==>
          s.writePos == 0
          || (s.writePos < |s.chunkBuffer| && Overlay(s.chunkBuffer, TimeResult(s.received)) == s.chunkBuffer))
  {
    hide Overlay, TimeResult;
  }

  lemma EnterResult(t: Tables, s: Server, w: World)
    requires s.phase.ResultSend?
    ensures Call(t, s, w) ==
      Loop(t, s.(inCall := true, chunkBuffer := if s.writePos == 0
          then Overlay(s.chunkBuffer, TimeResult(s.received)) else s.chunkBuffer), w)
    ensures var b := Overlay(s.chunkBuffer, TimeResult(s.received)); Overlay(b, TimeResult(s.received)) == b && b != []
  {
    hide Loop, TimeResult;
    TextIsNonempty(s.received);
  }

  lemma TextIsNonempty(ps: seq<Sample>)
    ensures |TimeResult(ps)| > 0
  {
  }

  lemma ResultSendTurn(t: Tables, s: Server, w: World)
    requires s.phase.ResultSend? && s.inCall
    requires Overlay(s.chunkBuffer, TimeResult(s.received)) == s.chunkBuffer && s.writePos < |s.chunkBuffer|
    ensures var (io, v) := WriteCall(w, s.chunkBuffer[s.writePos..]);
      && (!io.Ok? ==> Loop(t, s, w) == Outcome(s, v, io))
      && (io == Ok(0) ==> Loop(t, s, w) == Outcome(s, v, Failed))
      && (io.Ok? && io.n > 0 ==>
            var r := s.(writePos := s.writePos + io.n);
            var total := s.totalBytes + |s.chunkBuffer|;
            Loop(t, s, w) == if r.writePos != |s.chunkBuffer| then Loop(t, r, v)
              else Outcome(Goto(s.(writePos := 0, readPos := 0, totalBytes := total,
                  received := s.received + [(Elapsed(s, v.now), total)]),
                                CommandSend, Writable), v, io))
  {
    hide Loop, WriteCall, Message, Offer, Finish, AfterZero;
    ResultMessage(t, s);
    ResultZero(t, s, WriteCall(w, s.chunkBuffer[s.writePos..]).1);
    ResultDone(s, WriteCall(w, s.chunkBuffer[s.writePos..]).1.now);
    WriteTurn(t, s, w);
  }

  lemma ResultMessage(t: Tables, s: Server)
    requires s.phase.ResultSend? && Overlay(s.chunkBuffer, TimeResult(s.received)) == s.chunkBuffer
    ensures Message(t, s) == s.chunkBuffer
    ensures s.writePos <= |s.chunkBuffer| ==> Offer(t, s) == s.chunkBuffer[s.writePos..]
  {
    hide TimeResult, Overlay;
  }

  lemma ResultZero(t: Tables, s: Server, v: World)
    requires s.phase.ResultSend?
    ensures AfterZero(t, s, v) == Outcome(s, v, Failed)
  {
  }

  lemma ResultDone(s: Server, now: nat)
    requires s.phase.ResultSend?
    ensures var total := s.totalBytes + |s.chunkBuffer|;
      Finish(s, now) ==
        Goto(s.(writePos := 0, readPos := 0, totalBytes := total, received := s.received + [(Elapsed(s, now), total)]),
             CommandSend, Writable)
  {
  }
}
