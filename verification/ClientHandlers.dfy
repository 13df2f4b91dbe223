/** The client's handlers: methods that advance the measurement state of one
    thread in place while they talk to its socket. */
module ClientHandlers {
  import opened Text
  import opened Wire
  import opened Chunks
  import opened TimeResults
  import opened Ramp
  import opened Pings
  import opened ClientMachine
  import opened ClientCalls
  import opened ClientTurns
  import opened Sockets
  import Server = ServerMachine

  class Measurement {
    const tables: Tables
    var stream: World
    var writeBuffer: Bytes
    var state: Client

    /** A thread that has sent its HTTP upgrade request. */
    constructor (t: Tables, socket: World, token: Word)
      requires ValidTables(t)
      ensures tables == t && stream == socket && Valid() && state == NewClient(token)
    {
      tables, stream, writeBuffer, state := t, socket, Server.Zeros(8192), NewClient(token);
    }

    ghost predicate Valid()
      reads this
    {
      ValidTables(tables) && Kept(tables, state, writeBuffer)
    }

    method Write(data: Bytes) returns (io: Io)
      modifies this`stream
      ensures (io, stream) == WriteCall(old(stream), data)
    {
      if stream.script == [] { return WouldBlock; }
      var answer := stream.script[0];
      stream := stream.(script := stream.script[1..]);
      match answer {
        case Blocked => io := WouldBlock;
        case Broken => io := Failed;
        case Ended(at) =>
          stream := stream.(now := at);
          io := Ok(0);
        case Ready(most, at) =>
          var n := Least(most, |data|);
          stream := stream.(out := stream.out + data[..n], now := at);
          io := Ok(n);
      }
    }

    /** `read` into a buffer with `room` bytes left. */
    method Read(room: nat) returns (io: Io, data: Bytes)
      modifies this`stream
      ensures (io, data, stream) == ReadCall(old(stream), room)
    {
      io, data := WouldBlock, [];
      if stream.script == [] { return; }
      var answer := stream.script[0];
      stream := stream.(script := stream.script[1..]);
      match answer {
        case Blocked =>
        case Broken => io := Failed;
        case Ended(at) =>
          stream := stream.(now := at);
          io := Ok(0);
        case Ready(most, at) =>
          if stream.inbox != [] || room == 0 {
            var n := Least(Least(most, room), |stream.inbox|);
            io, data := Ok(n), stream.inbox[..n];
            stream := stream.(inbox := stream.inbox[n..], now := at);
          }
      }
    }

    /** The loop shared by the handlers that send a text from the write buffer:
        the call ends exactly when the whole text is out. */
    method SendText(command: Bytes) returns (io: Io)
      requires Buffered(state.phase) && command == Message(tables, state) && |command| <= 100 && |writeBuffer| == 8192
      requires state.writePos != |command|
      requires Overruns(state.phase) || (state.writePos < |command| && (state.writePos > 0 ==> command <= writeBuffer))
      modifies this
      ensures |writeBuffer| == 8192 && state == old(state).(writePos := state.writePos)
      ensures !(io.Ok? && state.writePos == |command|) ==> Kept(tables, state, writeBuffer)
      ensures Call(tables, old(state), old(writeBuffer), old(stream)) ==
                Outcome(if io.Ok?
                    && state.writePos == |command| then Finish(state, stream.now) else state, writeBuffer, stream, io)
      ensures io.Ok? ==> state.writePos == |command|
    {
      hide Call, Loop, Message, Finish, Slice, WriteCall, Kept, Buffered, WritePhase;
      CallSends(tables, state, writeBuffer, stream);
      TextsNonempty(tables, state);
      if state.writePos == 0 {
        writeBuffer := Server.Overlay(writeBuffer, command);
      }
      while true
        invariant |writeBuffer| == 8192
            && (!Overruns(state.phase) ==> command <= writeBuffer && state.writePos < |command|)
        invariant state.writePos != |command|
        invariant state == old(state).(writePos := state.writePos)
        invariant Call(tables, old(state), old(writeBuffer), old(stream)) == Loop(tables, state, writeBuffer, stream)
        decreases |stream.script|
      {
        SameText(tables, old(state), state.writePos);
        KeptFresh(tables, state, writeBuffer);
        SliceOf(tables, state, writeBuffer, stream);
        var end := if Overruns(state.phase) then state.writePos + |command| else |command|;
        if end > |writeBuffer| { return Failed; }  // the slice panics
        var data := writeBuffer[state.writePos..end];
        if !Overruns(state.phase) {
          assert data == command[state.writePos..];
        }
        Sends(tables, state, writeBuffer, stream, data);
        io := Write(data);
        if !io.Ok? { return; }
        state := state.(writePos := state.writePos + io.n);
        if state.writePos == |command| { return; }
      }
    }

    // ----- the texts

    method HandleGreetingSendToken() returns (io: Io)
      requires Valid() && Runnable(state) && state.phase.SendToken?
      modifies this
      ensures Valid()
          && Outcome(state, writeBuffer, stream, io) == Call(tables, old(state), old(writeBuffer), old(stream))
    {
      hide Call, Loop, Kept, Show, B, Resize, Elapsed;
      KeptFresh(tables, state, writeBuffer);
      TextsFit(tables, state);
      var command := TokenLine(state.token);
      io := SendText(command);
      if io.Ok? {
        state := state.(writePos := 0, readPos := 0, phase := ReceiveResponse, interest := Server.Readable);
        KeptFresh(tables, state, writeBuffer);
      }
    }

    method HandleGetChunksSendChunksCommand() returns (io: Io)
      requires Valid() && Runnable(state) && state.phase.ChunksSendCommand?
      modifies this
      ensures Valid()
          && Outcome(state, writeBuffer, stream, io) == Call(tables, old(state), old(writeBuffer), old(stream))
    {
      hide Call, Loop, Kept, Show, B, Resize, Elapsed;
      KeptFresh(tables, state, writeBuffer);
      TextsFit(tables, state);
      var command := ChunksLine(state.totalChunks, state.chunkSize);
      io := SendText(command);
      if io.Ok? {
        state := state.(writePos := 0, readPos := 0, chunkBuffer := Resize(state.chunkBuffer, state.chunkSize),
                        phase := ChunksReceiveChunk, interest := Server.Readable);
        KeptFresh(tables, state, writeBuffer);
      }
    }

    method HandleGetChunksSendOk() returns (io: Io)
      requires Valid() && Runnable(state) && state.phase.ChunksSendOk?
      modifies this
      ensures Valid()
          && Outcome(state, writeBuffer, stream, io) == Call(tables, old(state), old(writeBuffer), old(stream))
    {
      hide Call, Loop, Kept, Show, B, Resize, Elapsed;
      KeptFresh(tables, state, writeBuffer);
      TextsFit(tables, state);
      var command := OK;
      io := SendText(command);
      if io.Ok? {
        state := state.(writePos := 0, phase := ChunksReceiveTime, interest := Server.Readable);
        KeptFresh(tables, state, writeBuffer);
      }
    }

    method HandlePingSendPing() returns (io: Io)
      requires Valid() && Runnable(state) && state.phase.PingSendPing?
      modifies this
      ensures Valid()
          && Outcome(state, writeBuffer, stream, io) == Call(tables, old(state), old(writeBuffer), old(stream))
    {
      hide Call, Loop, Kept, Show, B, Resize, Elapsed;
      KeptFresh(tables, state, writeBuffer);
      TextsFit(tables, state);
      var command := PING;
      io := SendText(command);
      if io.Ok? {
        state := state.(writePos := 0, readPos := 0, phaseStart := if state.phaseStart.None? then Some(stream.now)
            else state.phaseStart,
                        phase := PingReceivePong, interest := Server.Readable);
        KeptFresh(tables, state, writeBuffer);
      }
    }

    method HandlePingSendOk() returns (io: Io)
      requires Valid() && Runnable(state) && state.phase.PingSendOk?
      modifies this
      ensures Valid()
          && Outcome(state, writeBuffer, stream, io) == Call(tables, old(state), old(writeBuffer), old(stream))
    {
      hide Call, Loop, Kept, Show, B, Resize, Elapsed;
      KeptFresh(tables, state, writeBuffer);
      TextsFit(tables, state);
      var command := OK;
      io := SendText(command);
      if io.Ok? {
        state := state.(writePos := 0, readPos := 0, phase := PingReceiveTime, interest := Server.Readable);
        KeptFresh(tables, state, writeBuffer);
      }
    }

    method HandleGetTimeSendCommand() returns (io: Io)
      requires Valid() && Runnable(state) && state.phase.TimeSendCommand?
      modifies this
      ensures Valid()
          && Outcome(state, writeBuffer, stream, io) == Call(tables, old(state), old(writeBuffer), old(stream))
    {
      hide Call, Loop, Kept, Show, B, Resize, Elapsed;
      KeptFresh(tables, state, writeBuffer);
      TextsFit(tables, state);
      var command := TimeLine(TEST_SECONDS, state.chunkSize);
      io := SendText(command);
      if io.Ok? {
        state := state.(writePos := 0, phaseStart := Some(stream.now),
            chunkBuffer := Resize(state.chunkBuffer, state.chunkSize),
                        phase := TimeReceiveChunk, interest := Server.Readable);
        KeptFresh(tables, state, writeBuffer);
      }
    }

    method HandleGetTimeSendOk() returns (io: Io)
      requires Valid() && Runnable(state) && state.phase.TimeSendOk?
      modifies this
      ensures Valid()
          && Outcome(state, writeBuffer, stream, io) == Call(tables, old(state), old(writeBuffer), old(stream))
    {
      hide Call, Loop, Kept, Show, B, Resize, Elapsed;
      KeptFresh(tables, state, writeBuffer);
      TextsFit(tables, state);
      var command := OK;
      io := SendText(command);
      if io.Ok? {
        state := state.(writePos := 0, readPos := 0, phase := TimeReceiveTime, interest := Server.Readable);
        KeptFresh(tables, state, writeBuffer);
      }
    }

    method HandlePutTimeResultSendCommand() returns (io: Io)
      requires Valid() && Runnable(state) && state.phase.PerfSendCommand?
      modifies this
      ensures Valid()
          && Outcome(state, writeBuffer, stream, io) == Call(tables, old(state), old(writeBuffer), old(stream))
    {
      hide Call, Loop, Kept, Show, B, Resize, Elapsed;
      KeptFresh(tables, state, writeBuffer);
      TextsFit(tables, state);
      var command := ResultLine(state.chunkSize);
      io := SendText(command);
      if io.Ok? {
        state := state.(writePos := 0, readPos := 0, phase := PerfReceiveOk, interest := Server.Readable);
        KeptFresh(tables, state, writeBuffer);
      }
    }

    // ----- the readers

    method HandleGreetingReceiveGreeting() returns (io: Io)
      requires Valid() && Runnable(state) && state.phase.ReceiveGreeting?
      modifies this
      ensures Valid()
          && Outcome(state, writeBuffer, stream, io) == Call(tables, old(state), old(writeBuffer), old(stream))
    {
      hide Call, Loop, Kept, ReadCall, Store, Message, Elapsed, EndsWith, Contains, ParseTime, SecondNumber,
        ParseTimeResult, B, Median, RoundDone, PingDone;
      CallReads(tables, state, writeBuffer, stream);
      KeptFresh(tables, state, writeBuffer);
      while true
        invariant |writeBuffer| == 8192 && state.writePos == 0 && state.phase.ReceiveGreeting?
            && |state.readBuffer| == 8192 && state.readPos <= 8192
        invariant Call(tables, old(state), old(writeBuffer), old(stream)) == Loop(tables, state, writeBuffer, stream)
        decreases |stream.script|
      {
        ReplyTurn(tables, state, writeBuffer, stream);
        KeptFresh(tables, state, writeBuffer);
        var data;
        io, data := Read(|state.readBuffer| - state.readPos);
        if !io.Ok? { return; }
        state := state.(readBuffer := Store(state.readBuffer, state.readPos, data), readPos := state.readPos + io.n);
        if io.n > 0 && EndsWith(state.readBuffer[..state.readPos], ACCEPT_TOKEN) {
          state := state.(phase := SendToken, readPos := 0, interest := Server.Writable);
          KeptFresh(tables, state, writeBuffer);
          return;
        }
      }
    }

    method HandleGreetingReceiveResponse() returns (io: Io)
      requires Valid() && Runnable(state) && state.phase.ReceiveResponse?
      modifies this
      ensures Valid()
          && Outcome(state, writeBuffer, stream, io) == Call(tables, old(state), old(writeBuffer), old(stream))
    {
      hide Call, Loop, Kept, ReadCall, Store, Message, Elapsed, EndsWith, Contains, ParseTime, SecondNumber,
        ParseTimeResult, B, Median, RoundDone, PingDone;
      CallReads(tables, state, writeBuffer, stream);
      KeptFresh(tables, state, writeBuffer);
      while true
        invariant |writeBuffer| == 8192 && state.writePos == 0 && state.phase.ReceiveResponse?
            && |state.readBuffer| == 8192 && state.readPos <= 8192
        invariant Call(tables, old(state), old(writeBuffer), old(stream)) == Loop(tables, state, writeBuffer, stream)
        decreases |stream.script|
      {
        ReplyTurn(tables, state, writeBuffer, stream);
        KeptFresh(tables, state, writeBuffer);
        var data;
        io, data := Read(|state.readBuffer| - state.readPos);
        if !io.Ok? { return; }
        state := state.(readBuffer := Store(state.readBuffer, state.readPos, data), readPos := state.readPos + io.n);
        if io.n > 0 && EndsWith(state.readBuffer[..state.readPos], ACCEPT) {
          state := state.(phase := GreetingCompleted, readPos := 0, interest := Server.Writable);
          KeptFresh(tables, state, writeBuffer);
          return;
        }
      }
    }

    method HandleGetChunksReceiveChunk() returns (io: Io)
      requires Valid() && Runnable(state) && state.phase.ChunksReceiveChunk?
      modifies this
      ensures Valid()
          && Outcome(state, writeBuffer, stream, io) == Call(tables, old(state), old(writeBuffer), old(stream))
    {
      hide Call, Loop, Kept, ReadCall, Store, Message, Elapsed, EndsWith, Contains, ParseTime, SecondNumber,
        ParseTimeResult, B, Median, RoundDone, PingDone;
      CallReads(tables, state, writeBuffer, stream);
      KeptFresh(tables, state, writeBuffer);
      while true
        invariant |writeBuffer| == 8192 && state.writePos == 0 && state.phase.ChunksReceiveChunk?
            && |state.readBuffer| == 8192 && state.readPos <= |state.chunkBuffer| && state.chunkSize > 0
        invariant Call(tables, old(state), old(writeBuffer), old(stream)) == Loop(tables, state, writeBuffer, stream)
        decreases |stream.script|
      {
        ChunksChunkTurn(tables, state, writeBuffer, stream);
        KeptFresh(tables, state, writeBuffer);
        var data;
        io, data := Read(|state.chunkBuffer| - state.readPos);
        if !io.Ok? { return; }
        state := state.(chunkBuffer := Store(state.chunkBuffer, state.readPos, data), readPos := state.readPos + io.n);
        if state.readPos == state.chunkSize {
          if state.chunkBuffer[state.readPos - 1] == 0 {
            state := state.(readPos := 0);
          } else if state.chunkBuffer[state.readPos - 1] == 255 {
            state := state.(phase := ChunksSendOk, readPos := 0, interest := Server.Writable);
            KeptFresh(tables, state, writeBuffer);
            return;
          }
        }
      }
    }

    /** What `handle_get_time_receive_chunk` does with the bytes of one read. */
    method TakeTimeChunk(data: Bytes)
      requires state.phase.TimeReceiveChunk? && state.readPos + |data| <= |state.chunkBuffer|
          && |state.readBuffer| >= 5 && state.chunkSize > 0
      modifies this`state
      ensures |data| <= Room(old(state)) && state == Got(old(state), data, stream.now)
      ensures state.readPos <= |state.chunkBuffer| && (state.phase.TimeReceiveChunk? || state.phase.TimeSendOk?)
      ensures state == old(state).(phase := state.phase, interest := state.interest, readPos := state.readPos,
                                   chunkBuffer := state.chunkBuffer, bytesReceived := state.bytesReceived,
                                       downloads := state.downloads)
    {
      hide Store, Elapsed;
      state := state.(chunkBuffer := Store(state.chunkBuffer, state.readPos, data), readPos := state.readPos + |data|);
      if state.readPos == state.chunkSize {
        state := state.(bytesReceived := state.bytesReceived + state.chunkSize,
                        downloads := state.downloads
                            + [(Elapsed(state, stream.now), state.bytesReceived + state.chunkSize)]);
        if state.chunkBuffer[state.readPos - 1] == 255 {
          state := state.(phase := TimeSendOk, interest := Server.Writable);
        } else {
          state := state.(readPos := 0);
        }
      }
    }

    method HandleGetTimeReceiveChunk() returns (io: Io)
      requires Valid() && Runnable(state) && state.phase.TimeReceiveChunk?
      modifies this
      ensures Valid()
          && Outcome(state, writeBuffer, stream, io) == Call(tables, old(state), old(writeBuffer), old(stream))
    {
      hide Call, Loop, Kept, ReadCall, Got, Message, ValidTables;
      CallReads(tables, state, writeBuffer, stream);
      KeptFresh(tables, state, writeBuffer);
      while true
        invariant |writeBuffer| == 8192 && state.writePos == 0 && state.phase.TimeReceiveChunk?
        invariant |state.readBuffer| == 8192 && state.readPos <= |state.chunkBuffer| && state.chunkSize > 0
        invariant Call(tables, old(state), old(writeBuffer), old(stream)) == Loop(tables, state, writeBuffer, stream)
        decreases |stream.script|
      {
        LoopReads(tables, state, writeBuffer, stream);
        KeptFresh(tables, state, writeBuffer);
        var data;
        io, data := Read(|state.chunkBuffer| - state.readPos);
        if !io.Ok? { return; }
        TakeTimeChunk(data);
        KeptFresh(tables, state, writeBuffer);
        if state.phase.TimeSendOk? { return; }
      }
    }

    method HandleGetTimeReceiveTime() returns (io: Io)
      requires Valid() && Runnable(state) && state.phase.TimeReceiveTime?
      modifies this
      ensures Valid()
          && Outcome(state, writeBuffer, stream, io) == Call(tables, old(state), old(writeBuffer), old(stream))
    {
      hide Call, Loop, Kept, ReadCall, Store, Message, Elapsed, EndsWith, Contains, ParseTime, SecondNumber,
        ParseTimeResult, B, Median, RoundDone, PingDone;
      CallReads(tables, state, writeBuffer, stream);
      KeptFresh(tables, state, writeBuffer);
      while true
        invariant |writeBuffer| == 8192 && state.writePos == 0 && state.phase.TimeReceiveTime?
            && |state.readBuffer| == 8192 && state.readPos <= 8192
        invariant Call(tables, old(state), old(writeBuffer), old(stream)) == Loop(tables, state, writeBuffer, stream)
        decreases |stream.script|
      {
        ReplyTurn(tables, state, writeBuffer, stream);
        KeptFresh(tables, state, writeBuffer);
        var data;
        io, data := Read(|state.readBuffer| - state.readPos);
        if !io.Ok? { return; }
        state := state.(readBuffer := Store(state.readBuffer, state.readPos, data), readPos := state.readPos + io.n);
        if Contains(state.readBuffer[..state.readPos], ACCEPT) {
          var time := SecondNumber(state.readBuffer[..state.readPos]);
          if time.Some? {
            state := state.(downloadTime := time, phase := TimeCompleted, phaseStart := None,
                interest := Server.Writable);
            KeptFresh(tables, state, writeBuffer);
            return;
          }
        }
      }
    }

    method HandlePingReceivePong() returns (io: Io)
      requires Valid() && Runnable(state) && state.phase.PingReceivePong?
      modifies this
      ensures Valid()
          && Outcome(state, writeBuffer, stream, io) == Call(tables, old(state), old(writeBuffer), old(stream))
    {
      hide Call, Loop, Kept, ReadCall, Store, Message, Elapsed, EndsWith, Contains, ParseTime, SecondNumber,
        ParseTimeResult, B, Median, RoundDone, PingDone;
      CallReads(tables, state, writeBuffer, stream);
      KeptFresh(tables, state, writeBuffer);
      while true
        invariant |writeBuffer| == 8192 && state.writePos == 0 && state.phase.PingReceivePong?
            && |state.readBuffer| == 8192 && state.readPos <= 5
        invariant Call(tables, old(state), old(writeBuffer), old(stream)) == Loop(tables, state, writeBuffer, stream)
        decreases |stream.script|
      {
        ReplyTurn(tables, state, writeBuffer, stream);
        KeptFresh(tables, state, writeBuffer);
        var data;
        io, data := Read(5 - state.readPos);
        if !io.Ok? { return; }
        state := state.(readBuffer := Store(state.readBuffer, state.readPos, data), readPos := state.readPos + io.n);
        if state.readPos == 5 {
          state := state.(readPos := 0, phase := PingSendOk, interest := Server.Writable);
          KeptFresh(tables, state, writeBuffer);
          return;
        }
      }
    }

    method HandlePutTimeResultReceiveOk() returns (io: Io)
      requires Valid() && Runnable(state) && state.phase.PerfReceiveOk?
      modifies this
      ensures Valid()
          && Outcome(state, writeBuffer, stream, io) == Call(tables, old(state), old(writeBuffer), old(stream))
    {
      hide Call, Loop, Kept, ReadCall, Store, Message, Elapsed, EndsWith, Contains, ParseTime, SecondNumber,
        ParseTimeResult, B, Median, RoundDone, PingDone;
      CallReads(tables, state, writeBuffer, stream);
      KeptFresh(tables, state, writeBuffer);
      while true
        invariant |writeBuffer| == 8192 && state.writePos == 0 && state.phase.PerfReceiveOk?
            && |state.readBuffer| == 8192 && state.readPos <= 3
        invariant Call(tables, old(state), old(writeBuffer), old(stream)) == Loop(tables, state, writeBuffer, stream)
        decreases |stream.script|
      {
        PerfOkTurn(tables, state, writeBuffer, stream);
        KeptFresh(tables, state, writeBuffer);
        var data;
        io, data := Read(3 - state.readPos);
        if !io.Ok? { return; }
        state := state.(readBuffer := Store(state.readBuffer, state.readPos, data));
        if io.n == 3 {
          state := state.(phase := PerfSendChunks, readPos := 0, interest := Server.Writable);
          KeptFresh(tables, state, writeBuffer);
          return;
        }
      }
    }

    method HandlePutTimeResultReceiveTime() returns (io: Io)
      requires Valid() && Runnable(state) && state.phase.PerfReceiveTime?
      modifies this
      ensures Valid()
          && Outcome(state, writeBuffer, stream, io) == Call(tables, old(state), old(writeBuffer), old(stream))
    {
      hide Call, Loop, Kept, ReadCall, Store, Message, Elapsed, EndsWith, Contains, ParseTime, SecondNumber,
        ParseTimeResult, B, Median, RoundDone, PingDone;
      CallReads(tables, state, writeBuffer, stream);
      KeptFresh(tables, state, writeBuffer);
      while true
        invariant |writeBuffer| == 8192 && state.phase.PerfReceiveTime? && |state.readBuffer| == 8192
            && state.readPos <= 8192
        invariant Call(tables, old(state), old(writeBuffer), old(stream)) == Loop(tables, state, writeBuffer, stream)
        decreases |stream.script|
      {
        ResultTurn(tables, state, writeBuffer, stream);
        KeptFresh(tables, state, writeBuffer);
        var data;
        io, data := Read(|state.readBuffer| - state.readPos);
        if !io.Ok? { return; }
        state := state.(readBuffer := Store(state.readBuffer, state.readPos, data));
        state := state.(resultBuffer := state.resultBuffer + state.readBuffer[..io.n]);
        if EndsWith(state.resultBuffer, [NL]) {
          var pairs := ParseTimeResult(state.resultBuffer);
          state := state.(uploads := state.uploads + pairs);
          if pairs != [] {
            state := state.(uploadResult := Some(pairs[|pairs| - 1]));
          }
          state := state.(phase := PerfCompleted, readPos := 0, resultBuffer := [], interest := Server.Writable);
          KeptFresh(tables, state, writeBuffer);
          return;
        }
      }
    }

    method IncreaseChunkSize()
      modifies this`state
      ensures var r := Increase(Round(old(state).totalChunks, old(state).chunkSize));
        state == old(state).(totalChunks := r.count, chunkSize := r.size,
                             chunkBuffer := if old(state).totalChunks < MAX_COUNT then old(state).chunkBuffer
                                 else Resize(old(state).chunkBuffer, r.size))
    {
      if state.totalChunks < MAX_COUNT {
        state := state.(totalChunks := state.totalChunks * 2);
      } else {
        state := state.(chunkSize := if state.chunkSize * 2 <= MAX_CHUNK then state.chunkSize * 2 else MAX_CHUNK);
        state := state.(chunkBuffer := Resize(state.chunkBuffer, state.chunkSize));
      }
    }

    method HandleGetChunksReceiveTime() returns (io: Io)
      requires Valid() && Runnable(state) && state.phase.ChunksReceiveTime?
      modifies this
      ensures Valid()
          && Outcome(state, writeBuffer, stream, io) == Call(tables, old(state), old(writeBuffer), old(stream))
    {
      hide Call, Loop, Kept, ReadCall, Store, Message, EndsWith, Contains, ParseTime, SecondNumber, ParseTimeResult, B,
        Median, Elapsed, PingDone, Resize, Increase;
      CallReads(tables, state, writeBuffer, stream);
      KeptFresh(tables, state, writeBuffer);
      while true
        invariant |writeBuffer| == 8192 && state.writePos == 0 && state.phase.ChunksReceiveTime?
            && |state.readBuffer| == 8192 && state.readPos <= 8192
        invariant Call(tables, old(state), old(writeBuffer), old(stream)) == Loop(tables, state, writeBuffer, stream)
        decreases |stream.script|
      {
        ReplyTurn(tables, state, writeBuffer, stream);
        KeptFresh(tables, state, writeBuffer);
        var data;
        io, data := Read(|state.readBuffer| - state.readPos);
        if !io.Ok? { return; }
        state := state.(readBuffer := Store(state.readBuffer, state.readPos, data), readPos := state.readPos + io.n);
        var text := state.readBuffer[..state.readPos];
        if Contains(text, ACCEPT) {
          var time := ParseTime(text);
          if time.Some? {
            if time.value < PRE_DOWNLOAD_NS && state.chunkSize < MAX_CHUNK {
              IncreaseChunkSize();
              state := state.(phase := ChunksSendCommand);
            } else {
              state := state.(phase := ChunksCompleted);
            }
            state := state.(interest := Server.Writable, readPos := 0, writePos := 0);
            KeptFresh(tables, state, writeBuffer);
            return;
          }
        }
      }
    }

    method HandlePingReceiveTime() returns (io: Io)
      requires Valid() && Runnable(state) && state.phase.PingReceiveTime?
      modifies this
      ensures Valid()
          && Outcome(state, writeBuffer, stream, io) == Call(tables, old(state), old(writeBuffer), old(stream))
    {
      hide Call, Loop, Kept, ReadCall, Store, Message, EndsWith, Contains, ParseTime, SecondNumber, ParseTimeResult,
        B, Median, RoundDone;
      CallReads(tables, state, writeBuffer, stream);
      KeptFresh(tables, state, writeBuffer);
      while true
        invariant |writeBuffer| == 8192 && state.writePos == 0 && state.phase.PingReceiveTime?
            && |state.readBuffer| == 8192 && state.readPos <= 8192
        invariant Call(tables, old(state), old(writeBuffer), old(stream)) == Loop(tables, state, writeBuffer, stream)
        decreases |stream.script|
      {
        ReplyTurn(tables, state, writeBuffer, stream);
        KeptFresh(tables, state, writeBuffer);
        var data;
        io, data := Read(|state.readBuffer| - state.readPos);
        if !io.Ok? { return; }
        state := state.(readBuffer := Store(state.readBuffer, state.readPos, data), readPos := state.readPos + io.n);
        if EndsWith(state.readBuffer[..state.readPos], ACCEPT) {
          var elapsed := Elapsed(state, stream.now);
          var time := ParseTime(state.readBuffer);
          if time.Some? {
            state := state.(pingTimes := state.pingTimes + [time.value], readPos := 0, interest := Server.Writable);
            if elapsed < PING_DURATION_NS && |state.pingTimes| < MAX_PINGS {
              state := state.(phase := PingSendPing);
            } else {
              state := state.(pingMedian := Some(Median(state.pingTimes)), phase := PingCompleted);
            }
            KeptFresh(tables, state, writeBuffer);
            return;
          }
        }
      }
    }

    // ----- the upload loops

    method HandlePutTimeResultSendChunks() returns (io: Io)
      requires Valid() && Runnable(state) && state.phase.PerfSendChunks?
      modifies this
      ensures Valid()
          && Outcome(state, writeBuffer, stream, io) == Call(tables, old(state), old(writeBuffer), old(stream))
    {
      hide Call, Loop, Kept, WriteCall, Message, ValidTables;
      CallData(tables, state, writeBuffer, stream);
      KeptFresh(tables, state, writeBuffer);
      if state.phaseStart.None? {
        state := state.(writePos := 0, phaseStart := Some(stream.now));
      }
      TableChunks(tables, state.chunkSize);
      var chunk := tables.zero[state.chunkSize];
      while true
        invariant |writeBuffer| == 8192 && state.phase.PerfSendChunks? && state.writePos < state.chunkSize
            && state.chunkSize == old(state.chunkSize)
        invariant Call(tables, old(state), old(writeBuffer), old(stream)) == Loop(tables, state, writeBuffer, stream)
        decreases |stream.script|
      {
        DataTurn(tables, state, writeBuffer, stream, chunk);
        KeptFresh(tables, state, writeBuffer);
        io := Write(chunk[state.writePos..]);
        if !io.Ok? || io.n == 0 { return; }
        state := state.(bytesSent := state.bytesSent + io.n, writePos := state.writePos + io.n);
        if state.writePos == state.chunkSize {
          if Elapsed(state, stream.now) >= TEST_NS {
            state := state.(phase := PerfSendLast, interest := Server.Writable, writePos := 0);
            KeptFresh(tables, state, writeBuffer);
            return;
          }
          state := state.(writePos := 0);
        }
      }
    }

    method HandlePutTimeResultSendLastChunk() returns (io: Io)
      requires Valid() && Runnable(state) && state.phase.PerfSendLast?
      modifies this
      ensures Valid()
          && Outcome(state, writeBuffer, stream, io) == Call(tables, old(state), old(writeBuffer), old(stream))
    {
      hide Call, Loop, Kept, WriteCall, Message, Elapsed, ValidTables;
      CallData(tables, state, writeBuffer, stream);
      KeptFresh(tables, state, writeBuffer);
      TableChunks(tables, state.chunkSize);
      var chunk := tables.last[state.chunkSize];
      while true
        invariant |writeBuffer| == 8192 && state.phase.PerfSendLast? && state.writePos < state.chunkSize
            && state.chunkSize == old(state.chunkSize)
        invariant Call(tables, old(state), old(writeBuffer), old(stream)) == Loop(tables, state, writeBuffer, stream)
        decreases |stream.script|
      {
        DataTurn(tables, state, writeBuffer, stream, chunk);
        KeptFresh(tables, state, writeBuffer);
        io := Write(chunk[state.writePos..]);
        if !io.Ok? { return; }
        if io.n == 0 { continue; }
        state := state.(bytesSent := state.bytesSent + io.n, writePos := state.writePos + io.n);
        if state.writePos == state.chunkSize {
          state := state.(phase := PerfReceiveTime, interest := Server.Readable);
          KeptFresh(tables, state, writeBuffer);
          return;
        }
      }
    }

    // ----- basic_handler.rs: the phase tables

    method HandleReadable() returns (io: Io)
      requires Valid() && Runnable(state)
      modifies this
      ensures Valid()
      ensures Outcome(state, writeBuffer, stream, io) ==
                if ReadPhase(old(state).phase) then Call(tables, old(state), old(writeBuffer), old(stream))
                else Outcome(old(state), old(writeBuffer), old(stream), Ok(1))
    {
      hide Call, Kept;
      match state.phase {
        case ReceiveGreeting => io := HandleGreetingReceiveGreeting();
        case ReceiveResponse => io := HandleGreetingReceiveResponse();
        case ChunksReceiveChunk => io := HandleGetChunksReceiveChunk();
        case ChunksReceiveTime => io := HandleGetChunksReceiveTime();
        case TimeReceiveChunk => io := HandleGetTimeReceiveChunk();
        case TimeReceiveTime => io := HandleGetTimeReceiveTime();
        case PingReceivePong => io := HandlePingReceivePong();
        case PingReceiveTime => io := HandlePingReceiveTime();
        case PerfReceiveOk => io := HandlePutTimeResultReceiveOk();
        case PerfReceiveTime => io := HandlePutTimeResultReceiveTime();
        case _ => io := Ok(1);
      }
    }

    method HandleWritable() returns (io: Io)
      requires Valid() && Runnable(state)
      modifies this
      ensures Valid()
      ensures Outcome(state, writeBuffer, stream, io) ==
                if WritePhase(old(state).phase) then Call(tables, old(state), old(writeBuffer), old(stream))
                else Outcome(old(state), old(writeBuffer), old(stream), Ok(1))
    {
      hide Call, Kept;
      match state.phase {
        case SendToken => io := HandleGreetingSendToken();
        case ChunksSendCommand => io := HandleGetChunksSendChunksCommand();
        case ChunksSendOk => io := HandleGetChunksSendOk();
        case PingSendPing => io := HandlePingSendPing();
        case PingSendOk => io := HandlePingSendOk();
        case TimeSendCommand => io := HandleGetTimeSendCommand();
        case TimeSendOk => io := HandleGetTimeSendOk();
        case PerfSendCommand => io := HandlePutTimeResultSendCommand();
        case PerfSendChunks => io := HandlePutTimeResultSendChunks();
        case PerfSendLast => io := HandlePutTimeResultSendLastChunk();
        case _ => io := Ok(1);
      }
    }
  }
}
