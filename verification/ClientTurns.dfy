/** One turn of each client handler's loop, spelled out as the assignments the
    handler makes; what a handler may take for granted. */
module ClientTurns {
  import opened Text
  import opened Chunks
  import opened TimeResults
  import opened ClientMachine
  import opened ClientCalls
  import opened Sockets
  import Server = ServerMachine

  /** A text that a handler has begun to send is still in the buffer, and nothing
      is half sent while a handler reads. */
  predicate Kept(t: Tables, c: Client, b: Bytes) {
    && |b| == 8192 && (Buffered(c.phase) ==> c.writePos != |Message(t, c)|)
    && (ReadPhase(c.phase) && !c.phase.PerfReceiveTime? ==> c.writePos == 0)
    && (Buffered(c.phase) && !Overruns(c.phase) ==>
        c.writePos < |Message(t, c)| && (c.writePos > 0 ==> Message(t, c) <= b))
  }

  /** What the handler of a phase takes for granted: it would panic otherwise. */
  predicate Runnable(c: Client) {
    && |c.readBuffer| == 8192
    && match c.phase
       case ChunksReceiveChunk | TimeReceiveChunk =>
         c.readPos <= |c.chunkBuffer| && c.chunkSize > 0 && (c.phase.TimeReceiveChunk? ==> c.phaseStart.Some?)
       case PerfSendChunks | PerfSendLast => c.chunkSize in SIZES && c.writePos < c.chunkSize
       case PerfReceiveOk => c.readPos <= 3
       case PingReceivePong => c.readPos <= 5
       case PingReceiveTime => c.readPos <= 8192 && c.phaseStart.Some?
       case SendToken | ChunksSendCommand | ChunksSendOk | PingSendPing | PingSendOk | TimeSendCommand | TimeSendOk
          | PerfSendCommand =>
         c.chunkSize < U64 && c.totalChunks < U64
       case _ => c.readPos <= 8192
  }

  lemma KeptFresh(t: Tables, c: Client, b: Bytes)
    ensures
      && |b| == 8192
      && (c.writePos == 0 || c.phase.PerfReceiveTime? || c.phase.PerfSendChunks? || c.phase.PerfSendLast?
          || DonePhase(c.phase))
      ==> Kept(t, c, b)
    ensures Kept(t, c, b) && ReadPhase(c.phase) && !c.phase.PerfReceiveTime? ==> c.writePos == 0
    ensures |b| == 8192 && Overruns(c.phase) ==> (Kept(t, c, b) <==> c.writePos != |Message(t, c)|)
    ensures |b| == 8192 && Buffered(c.phase) && c.writePos < |Message(t, c)| && Message(t, c) <= b ==> Kept(t, c, b)
    ensures Kept(t, c, b) ==> |b| == 8192 && (Buffered(c.phase) ==> c.writePos != |Message(t, c)|)
    ensures Kept(t, c, b) && Buffered(c.phase) && !Overruns(c.phase) ==>
              c.writePos < |Message(t, c)| && (c.writePos > 0 ==> Message(t, c) <= b)
  {
    hide Message;
    if Buffered(c.phase) {
      TextsNonempty(t, c);
    }
  }

  lemma TextsNonempty(t: Tables, c: Client)
    requires Buffered(c.phase)
    ensures |Message(t, c)| > 0
  {
    hide Show;
  }

  lemma TextsFit(t: Tables, c: Client)
    requires Buffered(c.phase) && c.chunkSize < U64 && c.totalChunks < U64
    ensures |Message(t, c)| <= 100
  {
    ShowLengthU64(c.token);
    ShowLengthU64(c.chunkSize);
    ShowLengthU64(c.totalChunks);
    ShowLengthU64(TEST_SECONDS);
  }

  lemma SameText(t: Tables, c: Client, p: nat)
    ensures Message(t, c.(writePos := p)) == Message(t, c)
  {
  }

  /** The call of a handler that sends a text. */
  lemma CallSends(t: Tables, c: Client, b: Bytes, w: World)
    requires Buffered(c.phase)
    ensures Call(t, c, b, w) == Loop(t, c, if c.writePos == 0 then Server.Overlay(b, Message(t, c)) else b, w)
  {
    hide Loop, Message, Server.Overlay;
  }

  /** One turn of the loop of a handler that sends a text. */
  lemma Sends(t: Tables, c: Client, b: Bytes, w: World, data: Bytes)
    requires Buffered(c.phase) && Slice(t, c, b) == Some(data)
    ensures var (io, v) := WriteCall(w, data);
      && (!io.Ok? ==> Loop(t, c, b, w) == Outcome(c, b, v, io))
      && (io == Ok(0) ==> Loop(t, c, b, w) == Loop(t, c, b, v))
      && (io.Ok? && io.n > 0 ==>
            var d := c.(writePos := c.writePos + io.n);
            Loop(t, c, b, w) == if d.writePos != |Message(t, c)| then Loop(t, d, b, v)
                else Outcome(Finish(d, v.now), b, v, io))
  {
    hide Loop, Message, Finish, WriteCall, Slice;
    var (io, v) := WriteCall(w, data);
    TextEnds(c.(writePos := c.writePos + (if io.Ok? then io.n else 0)), v.now);
    LoopWrites(t, c, b, w, data);
  }

  lemma LoopWrites(t: Tables, c: Client, b: Bytes, w: World, data: Bytes)
    requires WritePhase(c.phase) && Slice(t, c, b) == Some(data)
    ensures var (io, v) := WriteCall(w, data);
      && (!io.Ok? || (io.n == 0 && c.phase.PerfSendChunks?) ==> Loop(t, c, b, w) == Outcome(c, b, v, io))
      && (io == Ok(0) && !c.phase.PerfSendChunks? ==> Loop(t, c, b, w) == Loop(t, c, b, v))
      && (io.Ok? && io.n > 0 ==>
            var r := Wrote(t, c, io.n, v.now);
                Loop(t, c, b, w) == if r.phase != c.phase then Outcome(r, b, v, io) else Loop(t, r, b, v))
  {
    hide Message, Wrote, WriteCall, Slice;
  }

  /** The end of a text is the end of the call. */
  lemma TextEnds(c: Client, now: nat)
    requires Buffered(c.phase)
    ensures Finish(c, now).phase != c.phase
  {
    hide Resize;
  }

  /** What a sending handler offers. */
  lemma SliceOf(t: Tables, c: Client, b: Bytes, w: World)
    requires Buffered(c.phase) && (Overruns(c.phase) || c.writePos < |Message(t, c)|)
    ensures Overruns(c.phase) && c.writePos + |Message(t, c)| <= |b| ==>
        Slice(t, c, b) == Some(b[c.writePos..c.writePos + |Message(t, c)|])
    ensures Overruns(c.phase) && c.writePos + |Message(t, c)| > |b| ==> Loop(t, c, b, w) == Outcome(c, b, w, Failed)
    ensures !Overruns(c.phase) ==> Slice(t, c, b) == Some(Message(t, c)[c.writePos..])
  {
    hide Message;
  }

  /** One turn of the loops that upload chunks. */
  lemma DataTurn(t: Tables, c: Client, b: Bytes, w: World, chunk: Bytes)
    requires (c.phase.PerfSendChunks? || c.phase.PerfSendLast?) && ValidTables(t) && c.chunkSize in SIZES
        && c.writePos < c.chunkSize
    requires chunk == if c.phase.PerfSendChunks? then t.zero[c.chunkSize] else t.last[c.chunkSize]
    ensures |chunk| == c.chunkSize
    ensures var (io, v) := WriteCall(w, chunk[c.writePos..]);
      && (!io.Ok? ==> Loop(t, c, b, w) == Outcome(c, b, v, io))
      && (io == Ok(0) ==>
          Loop(t, c, b, w) == if c.phase.PerfSendChunks? then Outcome(c, b, v, io) else Loop(t, c, b, v))
      && (io.Ok? && io.n > 0 ==>
            var d := c.(bytesSent := c.bytesSent + io.n, writePos := c.writePos + io.n);
            Loop(t, c, b, w) ==
              if d.writePos != c.chunkSize then Loop(t, d, b, v)
              else if c.phase.PerfSendLast?
                  then Outcome(d.(phase := PerfReceiveTime, interest := Server.Readable), b, v, io)
              else if Elapsed(c, v.now) >= TEST_NS
                  then Outcome(d.(writePos := 0, phase := PerfSendLast, interest := Server.Writable), b, v, io)
              else Loop(t, d.(writePos := 0), b, v))
  {
    hide Loop, WriteCall;
    LoopWrites(t, c, b, w, chunk[c.writePos..]);
  }

  lemma CallData(t: Tables, c: Client, b: Bytes, w: World)
    requires c.phase.PerfSendChunks? || c.phase.PerfSendLast?
    ensures Call(t, c, b, w) ==
      var first := c.phase.PerfSendChunks? && c.phaseStart.None?;
      var d := if first then c.(writePos := 0, phaseStart := Some(w.now)) else c;
      Loop(t, d, b, w)
  {
    hide Loop;
  }

  /** A call in a read phase goes straight into its loop. */
  lemma CallReads(t: Tables, c: Client, b: Bytes, w: World)
    requires ReadPhase(c.phase)
    ensures Call(t, c, b, w) == Loop(t, c, b, w)
  {
    hide Loop, Message;
  }

  lemma LoopReads(t: Tables, c: Client, b: Bytes, w: World)
    requires ReadPhase(c.phase) && c.readPos <= Top(c) && |c.readBuffer| >= 5
    ensures var (io, data, v) := ReadCall(w, Room(c));
      && (!io.Ok? ==> Loop(t, c, b, w) == Outcome(c, b, v, io))
      && (io.Ok? ==>
            var r := if io.n == 0 && NeedsBytes(c.phase) then c else Got(c, data, v.now);
            Loop(t, c, b, w) == if r.phase != c.phase then Outcome(r, b, v, io) else Loop(t, r, b, v))
  {
    hide Got, ReadCall, Room, Top;
  }

  lemma ChunksChunkTurn(t: Tables, c: Client, b: Bytes, w: World)
    requires c.phase.ChunksReceiveChunk? && c.readPos <= |c.chunkBuffer| && |c.readBuffer| >= 5 && c.chunkSize > 0
    ensures var (io, data, v) := ReadCall(w, |c.chunkBuffer| - c.readPos);
      && (!io.Ok? ==> Loop(t, c, b, w) == Outcome(c, b, v, io))
      && (io.Ok? ==>
            var d := c.(chunkBuffer := Store(c.chunkBuffer, c.readPos, data), readPos := c.readPos + io.n);
            Loop(t, c, b, w) ==
              if d.readPos != d.chunkSize then Loop(t, d, b, v)
              else if d.chunkBuffer[d.readPos - 1] == 0 then Loop(t, d.(readPos := 0), b, v)
              else if d.chunkBuffer[d.readPos - 1] == 255 then
                Outcome(d.(phase := ChunksSendOk, readPos := 0, interest := Server.Writable), b, v, io)
              else Loop(t, d, b, v))
  {
    hide Loop, ReadCall, Store;
    LoopReads(t, c, b, w);
  }

  /** One turn of the loops that collect a text. */
  lemma ReplyTurn(t: Tables, c: Client, b: Bytes, w: World)
    requires ReadPhase(c.phase) && !c.phase.ChunksReceiveChunk? && !c.phase.TimeReceiveChunk?
        && !c.phase.PerfReceiveOk? && !c.phase.PerfReceiveTime?
    requires |c.readBuffer| == 8192 && c.readPos <= (if c.phase.PingReceivePong? then 5 else 8192)
    ensures var (io, data, v) := ReadCall(w, (if c.phase.PingReceivePong? then 5 else 8192) - c.readPos);
      && (!io.Ok? ==> Loop(t, c, b, w) == Outcome(c, b, v, io))
      && (io.Ok? ==>
            var d := c.(readBuffer := Store(c.readBuffer, c.readPos, data), readPos := c.readPos + io.n);
            var r := if io.n == 0 && NeedsBytes(c.phase) then d else GotReply(d, v.now);
            Loop(t, c, b, w) == if r.phase != c.phase then Outcome(r, b, v, io) else Loop(t, r, b, v))
  {
    hide Loop, ReadCall, GotReply;
    LoopReads(t, c, b, w);
    assert Store(c.readBuffer, c.readPos, []) == c.readBuffer;
  }

  lemma PerfOkTurn(t: Tables, c: Client, b: Bytes, w: World)
    requires c.phase.PerfReceiveOk? && |c.readBuffer| == 8192 && c.readPos <= 3
    ensures var (io, data, v) := ReadCall(w, 3 - c.readPos);
      && (!io.Ok? ==> Loop(t, c, b, w) == Outcome(c, b, v, io))
      && (io.Ok? ==>
            var d := c.(readBuffer := Store(c.readBuffer, c.readPos, data));
            Loop(t, c, b, w) == if io.n == 3
                then Outcome(d.(phase := PerfSendChunks, readPos := 0, interest := Server.Writable), b, v, io)
                                else Loop(t, d, b, v))
  {
    hide Loop, ReadCall, Store;
    LoopReads(t, c, b, w);
  }

  lemma ResultTurn(t: Tables, c: Client, b: Bytes, w: World)
    requires c.phase.PerfReceiveTime? && |c.readBuffer| == 8192 && c.readPos <= 8192
    ensures var (io, data, v) := ReadCall(w, 8192 - c.readPos);
      && (!io.Ok? ==> Loop(t, c, b, w) == Outcome(c, b, v, io))
      && (io.Ok? ==>
            var buffer := Store(c.readBuffer, c.readPos, data);
            var d := c.(readBuffer := buffer, resultBuffer := c.resultBuffer + buffer[..io.n]);
            var ps := ParseTimeResult(d.resultBuffer);
            Loop(t, c, b, w) ==
              if !EndsWith(d.resultBuffer, [NL]) then Loop(t, d, b, v)
              else Outcome(d.(uploads := d.uploads + ps, uploadResult := if ps == [] then d.uploadResult
                  else Some(ps[|ps| - 1]),
                              phase := PerfCompleted, interest := Server.Writable, readPos := 0, resultBuffer := []),
                                  b, v, io))
  {
    hide Loop, ReadCall, Store, ParseTimeResult, EndsWith;
    LoopReads(t, c, b, w);
  }

  lemma TableChunks(t: Tables, size: nat)
    requires ValidTables(t) && size in SIZES
    ensures size in t.zero && size in t.last
  {
  }
}
