/** The mio server's handlers: methods that advance the state of one connection
    in place while they talk to its socket. */
module ServerHandlers {
  import opened Text
  import opened Wire
  import opened Chunks
  import opened TimeResults
  import opened Commands
  import opened ServerMachine
  import opened Sockets
  import opened ServerCalls
  import opened ServerTurns

  class Connection {
    const tables: Tables
    var stream: World
    var writeBuffer: Bytes
    var state: Server

    /** A connection whose HTTP upgrade is done, as the worker stores it. */
    constructor (t: Tables, socket: World)
      requires ValidTables(t)
      ensures tables == t && stream == socket && Valid() && state == NewConnection()
    {
      tables, stream, writeBuffer, state := t, socket, Zeros(8192), NewConnection();
    }

    ghost predicate Valid()
      reads this
    {
      ValidTables(tables) && |writeBuffer| == 8192 && Kept(tables, state, writeBuffer)
    }

    method Write(data: Bytes) returns (io: Io)
      modifies this`stream
      ensures (io, stream) == WriteCall(old(stream), data)
    {
      if stream.script == [] { return WouldBlock; }
      var answer := stream.script[0];
      stream := stream.(script := stream.script[1..]);
      match answer {
        case Blocked => io := WouldBlock;
        case Broken => io := Failed;
        case Ended(at) =>
          stream := stream.(now := at);
          io := Ok(0);
        case Ready(most, at) =>
          var n := Least(most, |data|);
          stream := stream.(out := stream.out + data[..n], now := at);
          io := Ok(n);
      }
    }

    /** `read` into a buffer with `room` bytes left. */
    method Read(room: nat) returns (io: Io, data: Bytes)
      modifies this`stream
      ensures (io, data, stream) == ReadCall(old(stream), room)
    {
      io, data := WouldBlock, [];
      if stream.script == [] { return; }
      var answer := stream.script[0];
      stream := stream.(script := stream.script[1..]);
      match answer {
        case Blocked =>
        case Broken => io := Failed;
        case Ended(at) =>
          stream := stream.(now := at);
          io := Ok(0);
        case Ready(most, at) =>
          if stream.inbox != [] || room == 0 {
            var n := Least(Least(most, room), |stream.inbox|);
            io, data := Ok(n), stream.inbox[..n];
            stream := stream.(inbox := stream.inbox[n..], now := at);
          }
      }
    }

    /** The loop shared by the handlers that send a text from the write buffer:
        `io` is a positive count exactly when the whole text is out. */
    method SendText(command: Bytes) returns (io: Io)
      requires Buffered(state.phase) && state.inCall && command == Message(tables, state)
          && |command| <= 8192 == |writeBuffer|
      requires state.writePos < |command| && (state.writePos > 0 ==> command <= writeBuffer)
      modifies this
      ensures |writeBuffer| == 8192 && command <= writeBuffer
          && (state.writePos < |command| ==> Kept(tables, state, writeBuffer))
      ensures state == old(state).(writePos := state.writePos) && state.writePos <= |command|
      ensures state.writePos == |command| <==> io.Ok? && io.n > 0
      ensures Loop(tables, old(state), old(stream)) ==
                Outcome(if state.writePos == |command| then Finish(state, stream.now) else state, stream, io)
    {
      hide Loop, Message, Finish, Offer, WriteCall, OnZero, Kept, Buffered, WritePhase;
      if state.writePos == 0 {
        writeBuffer := Overlay(writeBuffer, command);
      }
      while true
        invariant |writeBuffer| == 8192 && command <= writeBuffer && state.writePos < |command|
        invariant state == old(state).(writePos := state.writePos)
        invariant Loop(tables, old(state), old(stream)) == Loop(tables, state, stream)
        decreases |stream.script|
      {
        SameText(tables, old(state), state.writePos);
        KeptFresh(tables, state, writeBuffer);
        assert writeBuffer[state.writePos..|command|] == command[state.writePos..];
        Sends(tables, state, stream, command);
        io := Write(writeBuffer[state.writePos..|command|]);
        if !io.Ok? { return; }
        if io.n == 0 {
          match OnZero(state.phase) {
            case Stop => return;
            case Fail => return Failed;
            case Again => continue;
          }
        }
        state := state.(writePos := state.writePos + io.n);
        if state.writePos == |command| { return; }
      }
    }

    // ----- greeting_handler.rs and common.rs: the texts

    method HandleGreetingSendVersion() returns (io: Io)
      requires Valid() && state.phase.SendVersion?
      modifies this
      ensures Valid() && Outcome(state, stream, io) == Call(tables, old(state), old(stream))
    {
      hide Loop, Kept, TimeResult, TableChunk, TimeChunk, TimeLastChunk, Fresh, B, Time, TimeBytes;
      KeptFresh(tables, state, writeBuffer);
      var command := VERSION;
      state := state.(inCall := true);
      io := SendText(command);
      if state.writePos == |command| {
        state := state.(writePos := 0, readPos := 0, phase := SendAcceptToken, interest := Writable, inCall := false);
      }
      KeptFresh(tables, state, writeBuffer);
    }

    method HandleGreetingSendAcceptToken() returns (io: Io)
      requires Valid() && state.phase.SendAcceptToken?
      modifies this
      ensures Valid() && Outcome(state, stream, io) == Call(tables, old(state), old(stream))
    {
      hide Loop, Kept, TimeResult, TableChunk, TimeChunk, TimeLastChunk, Fresh, B, Time, TimeBytes;
      KeptFresh(tables, state, writeBuffer);
      var command := ACCEPT_TOKEN;
      state := state.(inCall := true);
      io := SendText(command);
      if state.writePos == |command| {
        state := state.(writePos := 0, readPos := 0, phase := ReceiveToken, interest := Readable, inCall := false);
      }
      KeptFresh(tables, state, writeBuffer);
    }

    method HandleGreetingSendOk() returns (io: Io)
      requires Valid() && state.phase.SendOk?
      modifies this
      ensures Valid() && Outcome(state, stream, io) == Call(tables, old(state), old(stream))
    {
      hide Loop, Kept, TimeResult, TableChunk, TimeChunk, TimeLastChunk, Fresh, B, Time, TimeBytes;
      KeptFresh(tables, state, writeBuffer);
      var command := OK;
      state := state.(inCall := true);
      io := SendText(command);
      if state.writePos == |command| {
        state := state.(writePos := 0, phase := SendChunkSizes, interest := Writable, inCall := false);
      }
      KeptFresh(tables, state, writeBuffer);
    }

    method HandleGreetingSendChunksize() returns (io: Io)
      requires Valid() && state.phase.SendChunkSizes?
      modifies this
      ensures Valid() && Outcome(state, stream, io) == Call(tables, old(state), old(stream))
    {
      hide Loop, Kept, TimeResult, TableChunk, TimeChunk, TimeLastChunk, Fresh, B, Time, TimeBytes;
      KeptFresh(tables, state, writeBuffer);
      var command := CHUNK_SIZES;
      state := state.(inCall := true);
      io := SendText(command);
      if state.writePos == |command| {
        state := state.(writePos := 0, phase := CommandSend, interest := Writable, inCall := false);
      }
      KeptFresh(tables, state, writeBuffer);
    }

    method HandleMainCommandSend() returns (io: Io)
      requires Valid() && state.phase.CommandSend?
      modifies this
      ensures Valid() && Outcome(state, stream, io) == Call(tables, old(state), old(stream))
    {
      hide Loop, Kept, TimeResult, TableChunk, TimeChunk, TimeLastChunk, Fresh, B, Time, TimeBytes;
      KeptFresh(tables, state, writeBuffer);
      var command := ACCEPT;
      state := state.(inCall := true);
      io := SendText(command);
      if state.writePos == |command| {
        state := state.(writePos := 0, readPos := 0, phase := CommandReceive, interest := Readable, inCall := false);
      }
      KeptFresh(tables, state, writeBuffer);
    }

    // ----- ping.rs

    method HandlePongSend() returns (io: Io)
      requires Valid() && state.phase.PongSend?
      modifies this
      ensures Valid() && Outcome(state, stream, io) == Call(tables, old(state), old(stream))
    {
      hide Loop, Kept, TimeResult, TableChunk, TimeChunk, TimeLastChunk, Fresh, B, Time, TimeBytes;
      KeptFresh(tables, state, writeBuffer);
      if state.clock.None? {
        state := state.(clock := Some(stream.now));
      }
      var command := PONG;
      state := state.(inCall := true);
      io := SendText(command);
      if state.writePos == |command| {
        state := state.(writePos := 0, phase := PingReceiveOk, interest := Readable, inCall := false);
      }
      KeptFresh(tables, state, writeBuffer);
    }

    method HandlePingSendTime() returns (io: Io)
      requires Valid() && state.phase.PingSendTime? && state.timeNs.Some? && |Message(tables, state)| <= 8192
      modifies this
      ensures Valid() && Outcome(state, stream, io) == Call(tables, old(state), old(stream))
    {
      hide Loop, Kept, TimeResult, TableChunk, TimeChunk, TimeLastChunk, Fresh, B, Time, TimeBytes;
      KeptFresh(tables, state, writeBuffer);
      var command := Time(state.timeNs.value);
      state := state.(inCall := true);
      io := SendText(command);
      if state.writePos == |command| {
        state := state.(writePos := 0, readPos := 0, phase := CommandSend, interest := Writable, inCall := false);
      }
      KeptFresh(tables, state, writeBuffer);
    }

    // ----- put.rs

    method HandlePutSendOk() returns (io: Io)
      requires Valid() && state.phase.PutSendOk?
      modifies this
      ensures Valid() && Outcome(state, stream, io) == Call(tables, old(state), old(stream))
    {
      hide Loop, Kept, TimeResult, TableChunk, TimeChunk, TimeLastChunk, Fresh, B, Time, TimeBytes;
      KeptFresh(tables, state, writeBuffer);
      if state.clock.None? {
        state := state.(clock := Some(stream.now));
      }
      var command := OK;
      state := state.(inCall := true);
      io := SendText(command);
      if state.writePos == |command| {
        state := state.(writePos := 0, readPos := 0, chunkBuffer := Zeros(state.chunkSize), phase := PutReceive,
            interest := Readable, inCall := false);
      }
      KeptFresh(tables, state, writeBuffer);
    }

    method HandlePutSendBytes() returns (io: Io)
      requires Valid() && state.phase.PutSendBytes? && state.timeNs.Some?
          && 0 < state.readPos <= |state.chunkBuffer| && |Message(tables, state)| <= 8192
      modifies this
      ensures Valid() && Outcome(state, stream, io) == Call(tables, old(state), old(stream))
    {
      hide Loop, Kept, TimeResult, TableChunk, TimeChunk, TimeLastChunk, Fresh, B, Time, TimeBytes;
      KeptFresh(tables, state, writeBuffer);
      var command := TimeBytes(state.timeNs.value, state.totalBytes);
      state := state.(inCall := true);
      io := SendText(command);
      if state.writePos == |command| {
        if state.chunkBuffer[state.readPos - 1] == 255 {
          state := state.(writePos := 0, phase := PutSendTime, interest := Writable, inCall := false);
        } else {
          state := state.(writePos := 0, readPos := 0, phase := PutReceive, interest := Readable, inCall := false);
        }
      }
      KeptFresh(tables, state, writeBuffer);
    }

    method HandlePutSendTime() returns (io: Io)
      requires Valid() && state.phase.PutSendTime? && state.timeNs.Some? && |Message(tables, state)| <= 8192
      modifies this
      ensures Valid() && Outcome(state, stream, io) == Call(tables, old(state), old(stream))
    {
      hide Loop, Kept, TimeResult, TableChunk, TimeChunk, TimeLastChunk, Fresh, B, Time, TimeBytes;
      KeptFresh(tables, state, writeBuffer);
      var command := Time(state.timeNs.value);
      state := state.(inCall := true);
      io := SendText(command);
      if state.writePos == |command| {
        state := state.(writePos := 0, readPos := 0, phase := CommandSend, interest := Writable, inCall := false);
      }
      KeptFresh(tables, state, writeBuffer);
    }

    // ----- putnoresult.rs

    method HandlePutNoResultSendOk() returns (io: Io)
      requires Valid() && state.phase.NoResultSendOk?
      modifies this
      ensures Valid() && Outcome(state, stream, io) == Call(tables, old(state), old(stream))
    {
      hide Loop, Kept, TimeResult, TableChunk, TimeChunk, TimeLastChunk, Fresh, B, Time, TimeBytes;
      KeptFresh(tables, state, writeBuffer);
      var command := OK;
      state := state.(inCall := true);
      io := SendText(command);
      if state.writePos == |command| {
        state := state.(writePos := 0, readPos := 0, chunkBuffer := Zeros(state.chunkSize),
            clock := Some(stream.now), phase := NoResultReceive, interest := Readable, inCall := false);
      }
      KeptFresh(tables, state, writeBuffer);
    }

    method HandlePutNoResultSendTime() returns (io: Io)
      requires Valid() && state.phase.NoResultSendTime? && state.timeNs.Some? && |Message(tables, state)| <= 8192
      modifies this
      ensures Valid() && Outcome(state, stream, io) == Call(tables, old(state), old(stream))
    {
      hide Loop, Kept, TimeResult, TableChunk, TimeChunk, TimeLastChunk, Fresh, B, Time, TimeBytes;
      KeptFresh(tables, state, writeBuffer);
      var command := Time(state.timeNs.value);
      state := state.(inCall := true);
      io := SendText(command);
      if state.writePos == |command| {
        state := state.(writePos := 0, readPos := 0, phase := CommandSend, interest := Writable, inCall := false);
      }
      KeptFresh(tables, state, writeBuffer);
    }

    // ----- puttimeresult.rs

    method HandlePutTimeResultSendOk() returns (io: Io)
      requires Valid() && state.phase.ResultSendOk?
      modifies this
      ensures Valid() && Outcome(state, stream, io) == Call(tables, old(state), old(stream))
    {
      hide Loop, Kept, TimeResult, TableChunk, TimeChunk, TimeLastChunk, Fresh, B, Time, TimeBytes;
      KeptFresh(tables, state, writeBuffer);
      if state.clock.None? {
        state := state.(writePos := 0, clock := Some(stream.now));
      }
      var command := OK;
      state := state.(inCall := true);
      io := SendText(command);
      if state.writePos == |command| {
        state := state.(writePos := 0, readPos := 0, chunkBuffer := Zeros(state.chunkSize),
            clock := Some(stream.now), phase := ResultReceive, interest := Readable, inCall := false);
      }
      KeptFresh(tables, state, writeBuffer);
    }

    // ----- the reading handlers

    method HandlePutReceiveChunk() returns (io: Io)
      requires Valid() && state.phase.PutReceive?
      requires state.clock.Some? && state.readPos <= |state.chunkBuffer|
      modifies this
      ensures Valid() && Outcome(state, stream, io) == Call(tables, old(state), old(stream))
    {
      hide Loop, Call, Enter, Got, Room, AfterZero, OnZero, ReadCall, Kept, Store, Message, Elapsed;
      CallReads(tables, state, stream);
      KeptFresh(tables, state, writeBuffer);
      state := state.(inCall := true);
      while true
        invariant |writeBuffer| == 8192 && state.writePos == 0 && state.phase.PutReceive? && state.inCall
            && state.clock.Some? && state.readPos <= |state.chunkBuffer|
        invariant Call(tables, old(state), old(stream)) == Loop(tables, state, stream)
        decreases |stream.script|
      {
        PutTurn(tables, state, stream);
        KeptFresh(tables, state, writeBuffer);
        var data;
        io, data := Read(|state.chunkBuffer| - state.readPos);
        if !io.Ok? { return; }
        if io.n == 0 { return Failed; }
        state := state.(chunkBuffer := Store(state.chunkBuffer, state.readPos, data), readPos := state.readPos + io.n,
                        totalBytes := state.totalBytes + io.n);
        if state.readPos == state.chunkSize {
          state := state.(phase := PutSendBytes, timeNs := Some(Elapsed(state, stream.now)), interest := Writable,
              inCall := false);
          KeptFresh(tables, state, writeBuffer);
          return;
        }
      }
    }

    method HandlePutNoResultReceiveChunk() returns (io: Io)
      requires Valid() && state.phase.NoResultReceive?
      requires state.clock.Some? && state.readPos <= |state.chunkBuffer| && state.chunkSize > 0
      modifies this
      ensures Valid() && Outcome(state, stream, io) == Call(tables, old(state), old(stream))
    {
      hide Loop, Call, Enter, Got, Room, AfterZero, OnZero, ReadCall, Kept, Store, Message, Elapsed;
      CallReads(tables, state, stream);
      KeptFresh(tables, state, writeBuffer);
      state := state.(inCall := true);
      while true
        invariant |writeBuffer| == 8192 && state.writePos == 0 && state.phase.NoResultReceive? && state.inCall
            && state.clock.Some? && state.chunkSize > 0 && state.readPos <= |state.chunkBuffer|
        invariant Call(tables, old(state), old(stream)) == Loop(tables, state, stream)
        decreases |stream.script|
      {
        NoResultTurn(tables, state, stream);
        KeptFresh(tables, state, writeBuffer);
        var data;
        io, data := Read(|state.chunkBuffer| - state.readPos);
        if !io.Ok? { return; }
        if io.n == 0 { return Failed; }
        state := state.(chunkBuffer := Store(state.chunkBuffer, state.readPos, data), readPos := state.readPos + io.n);
        if state.readPos == state.chunkSize {
          if state.chunkBuffer[state.readPos - 1] == 255 {
            state := state.(timeNs := Some(Elapsed(state, stream.now)), phase := NoResultSendTime, readPos := 0,
                            interest := Writable, inCall := false);
            KeptFresh(tables, state, writeBuffer);
            return;
          } else if state.chunkBuffer[state.readPos - 1] != 0 {
            state := state.(phase := Closed, inCall := false);
            KeptFresh(tables, state, writeBuffer);
            return Failed;
          }
          state := state.(readPos := 0);
        }
      }
    }

    method HandlePutTimeResultReceiveChunk() returns (io: Io)
      requires Valid() && state.phase.ResultReceive?
      requires state.clock.Some? && state.readPos <= |state.chunkBuffer| && state.chunkSize > 0
      modifies this
      ensures Valid() && Outcome(state, stream, io) == Call(tables, old(state), old(stream))
    {
      hide Loop, Call, Enter, Got, Room, AfterZero, OnZero, ReadCall, Kept, Store, Message, Elapsed;
      CallReads(tables, state, stream);
      KeptFresh(tables, state, writeBuffer);
      state := state.(inCall := true);
      while true
        invariant |writeBuffer| == 8192 && state.writePos == 0 && state.phase.ResultReceive? && state.inCall
            && state.clock.Some? && state.chunkSize > 0 && state.readPos <= |state.chunkBuffer|
        invariant Call(tables, old(state), old(stream)) == Loop(tables, state, stream)
        decreases |stream.script|
      {
        ResultTurn(tables, state, stream);
        KeptFresh(tables, state, writeBuffer);
        var data;
        io, data := Read(|state.chunkBuffer| - state.readPos);
        if !io.Ok? { return; }
        if io.n == 0 { return Failed; }
        state := state.(chunkBuffer := Store(state.chunkBuffer, state.readPos, data), readPos := state.readPos + io.n,
                        totalBytes := state.totalBytes + io.n);
        if state.readPos == state.chunkSize {
          state := state.(received := state.received + [(Elapsed(state, stream.now), state.totalBytes)]);
          if state.chunkBuffer[state.readPos - 1] == 255 {
            state := state.(phase := ResultSend, readPos := 0, writePos := 0, interest := Writable, inCall := false);
            KeptFresh(tables, state, writeBuffer);
            return;
          } else if state.chunkBuffer[state.readPos - 1] != 0 {
            state := state.(phase := Closed, inCall := false);
            KeptFresh(tables, state, writeBuffer);
            return Failed;
          }
          state := state.(readPos := 0);
        }
      }
    }

    method HandleGreetingReceiveToken() returns (io: Io)
      requires Valid() && state.phase.ReceiveToken?
      requires state.readPos <= |state.readBuffer|
      modifies this
      ensures Valid() && Outcome(state, stream, io) == Call(tables, old(state), old(stream))
    {
      hide Loop, Call, Enter, Got, Room, AfterZero, OnZero, ReadCall, Kept, Store, Message, Elapsed;
      CallReads(tables, state, stream);
      KeptFresh(tables, state, writeBuffer);
      state := state.(inCall := true);
      while true
        invariant |writeBuffer| == 8192 && state.writePos == 0 && state.phase.ReceiveToken? && state.inCall
            && state.readPos <= |state.readBuffer|
        invariant Call(tables, old(state), old(stream)) == Loop(tables, state, stream)
        decreases |stream.script|
      {
        TextTurn(tables, state, stream);
        KeptFresh(tables, state, writeBuffer);
        var data;
        io, data := Read(|state.readBuffer| - state.readPos);
        if !io.Ok? { return; }
        if io.n == 0 { continue; }
        state := state.(readBuffer := Store(state.readBuffer, state.readPos, data), readPos := state.readPos + io.n);
        if data[io.n - 1] == NL {
          state := state.(phase := SendOk, readPos := 0, interest := Writable, inCall := false);
          KeptFresh(tables, state, writeBuffer);
          return;
        }
      }
    }

    /** The assignments of the branch for a command. */
    method StartCommand(command: Command)
      modifies this`state
      ensures state == Apply(old(state), command) && !state.inCall && state.writePos == old(state.writePos)
    {
      state := state.(inCall := false);
      match command {
        case GetChunks(count, size) =>
          state := state.(numChunks := count, chunkSize := size, phase := ChunksSend, readPos := 0,
              interest := Writable);
        case Ping =>
          state := state.(readPos := 0, phase := PongSend, interest := Writable);
        case GetTime(seconds, size) =>
          state := state.(duration := seconds, chunkSize := size, readPos := 0, phase := TimeSendChunk,
              interest := Writable);
        case PutNoResult(size) =>
          if size.Some? {
            state := state.(chunkSize := size.value);
          }
          state := state.(readPos := 0, phase := NoResultSendOk, interest := Writable);
        case PutTimeResult(size) =>
          state := state.(readPos := 0, phase := ResultSendOk, chunkSize := size, interest := Writable);
        case Put(size) =>
          state := state.(chunkSize := size, readPos := 0, phase := PutSendOk, interest := Writable);
        case Ignored =>
        case Invalid | Panics =>
          state := state.(phase := Closed);
      }
    }

    method HandleMainCommandReceive() returns (io: Io)
      requires Valid() && state.phase.CommandReceive?
      requires state.readPos <= |state.readBuffer|
      modifies this
      ensures Valid() && Outcome(state, stream, io) == Call(tables, old(state), old(stream))
    {
      hide Loop, Call, Enter, Got, Room, AfterZero, OnZero, ReadCall, Kept, Store, Message, Elapsed, ParseCommand,
        Apply;
      CallReads(tables, state, stream);
      KeptFresh(tables, state, writeBuffer);
      state := state.(inCall := true);
      while true
        invariant |writeBuffer| == 8192 && state.writePos == 0 && state.phase.CommandReceive? && state.inCall
            && state.readPos <= |state.readBuffer|
        invariant Call(tables, old(state), old(stream)) == Loop(tables, state, stream)
        decreases |stream.script|
      {
        TextTurn(tables, state, stream);
        KeptFresh(tables, state, writeBuffer);
        var data;
        io, data := Read(|state.readBuffer| - state.readPos);
        if !io.Ok? { return; }
        if io.n == 0 { return; }
        state := state.(readBuffer := Store(state.readBuffer, state.readPos, data), readPos := state.readPos + io.n);
        if data[io.n - 1] == NL {
          StartCommand(ParseCommand(state.readBuffer[..state.readPos]));
          if state.phase.Closed? {
            io := Failed;
          }
          KeptFresh(tables, state, writeBuffer);
          return;
        }
      }
    }

    method HandleGetChunksReceiveOk() returns (io: Io)
      requires Valid() && state.phase.ChunksReceiveOk?
      requires state.clock.Some? && !IsOk(state)
      modifies this
      ensures Valid() && Outcome(state, stream, io) == Call(tables, old(state), old(stream))
    {
      hide Loop, Call, Enter, Got, Room, AfterZero, OnZero, ReadCall, Kept, Store, Message;
      CallReads(tables, state, stream);
      KeptFresh(tables, state, writeBuffer);
      state := state.(inCall := true);
      while true
        invariant |writeBuffer| == 8192 && state.writePos == 0 && state.phase.ChunksReceiveOk? && state.inCall
            && state.clock.Some? && !IsOk(state)
        invariant Call(tables, old(state), old(stream)) == Loop(tables, state, stream)
        decreases |stream.script|
      {
        OkTurn(tables, state, stream);
        KeptFresh(tables, state, writeBuffer);
        var data;
        io, data := Read(|state.readBuffer|);
        if !io.Ok? { return; }
        if io.n == 0 { continue; }
        state := state.(readBuffer := Store(state.readBuffer, 0, data), readPos := state.readPos + io.n);
        if state.readPos <= |state.readBuffer| && state.readBuffer[..state.readPos] == OK {
          state := state.(phase := ChunksSendTime, timeNs := Some(Elapsed(state, stream.now)), readPos := 0,
              interest := Writable, inCall := false);
          KeptFresh(tables, state, writeBuffer);
          return;
        }
      }
    }

    method HandleGetTimeReceiveOk() returns (io: Io)
      requires Valid() && state.phase.TimeReceiveOk?
      requires state.clock.Some? && !IsOk(state)
      modifies this
      ensures Valid() && Outcome(state, stream, io) == Call(tables, old(state), old(stream))
    {
      hide Loop, Call, Enter, Got, Room, AfterZero, OnZero, ReadCall, Kept, Store, Message;
      CallReads(tables, state, stream);
      KeptFresh(tables, state, writeBuffer);
      state := state.(inCall := true);
      while true
        invariant |writeBuffer| == 8192 && state.writePos == 0 && state.phase.TimeReceiveOk? && state.inCall
            && state.clock.Some? && !IsOk(state)
        invariant Call(tables, old(state), old(stream)) == Loop(tables, state, stream)
        decreases |stream.script|
      {
        OkTurn(tables, state, stream);
        KeptFresh(tables, state, writeBuffer);
        var data;
        io, data := Read(|state.readBuffer|);
        if !io.Ok? { return; }
        if io.n == 0 { continue; }
        state := state.(readBuffer := Store(state.readBuffer, 0, data), readPos := state.readPos + io.n);
        if state.readPos <= |state.readBuffer| && state.readBuffer[..state.readPos] == OK {
          state := state.(phase := TimeSendTime, timeNs := Some(Elapsed(state, stream.now)), readPos := 0,
              interest := Writable, inCall := false);
          KeptFresh(tables, state, writeBuffer);
          return;
        }
      }
    }

    method HandlePingReceiveOk() returns (io: Io)
      requires Valid() && state.phase.PingReceiveOk?
      requires state.clock.Some?
      modifies this
      ensures Valid() && Outcome(state, stream, io) == Call(tables, old(state), old(stream))
    {
      hide Loop, Call, Enter, Got, Room, AfterZero, OnZero, ReadCall, Kept, Store, Message;
      CallReads(tables, state, stream);
      KeptFresh(tables, state, writeBuffer);
      state := state.(inCall := true);
      while true
        invariant |writeBuffer| == 8192 && state.writePos == 0 && state.phase.PingReceiveOk? && state.inCall
            && state.clock.Some?
        invariant Call(tables, old(state), old(stream)) == Loop(tables, state, stream)
        decreases |stream.script|
      {
        OkTurn(tables, state, stream);
        KeptFresh(tables, state, writeBuffer);
        var data;
        io, data := Read(|state.readBuffer|);
        if !io.Ok? { return; }
        if io.n == 0 { return Failed; }
        state := state.(readBuffer := Store(state.readBuffer, 0, data), readPos := state.readPos + io.n);
        if OK <= state.readBuffer {
          state := state.(timeNs := Some(Elapsed(state, stream.now)), clock := None, phase := PingSendTime,
              readPos := 0,
                          interest := Writable, inCall := false);
          KeptFresh(tables, state, writeBuffer);
          return;
        }
      }
    }

    // ----- getchunks.rs and gettime.rs: the chunk senders

    method HandleGetChunksSendChunks() returns (io: Io)
      requires Valid() && state.phase.ChunksSend?
      requires state.chunkSize in SIZES
      modifies this
      ensures Valid() && Outcome(state, stream, io) == Call(tables, old(state), old(stream))
    {
      hide Loop, Call, Kept, WriteCall, Message, Finish, Enter, Offer, AfterZero, ValidTables;
      KeptSlice(tables, state, writeBuffer);
      CallEnters(tables, state, stream);
      EnterChunks(tables, state, stream.now);
      ChunkMessage(tables, state);
      if state.clock.None? {
        state := state.(writePos := 0, clock := Some(stream.now));
      }
      var chunk := tables.zero[state.chunkSize];
      if state.processed + 1 == state.numChunks {
        state := state.(phase := ChunksSendLast, interest := Writable, inCall := false);
        ChunkMessage(tables, state);
        KeptSlice(tables, state, writeBuffer);
        return Ok(1);
      }
      state := state.(inCall := true);
      while true
        invariant |writeBuffer| == 8192 && state.phase.ChunksSend? && state.inCall && state.writePos < |chunk|
        invariant state.chunkSize == old(state.chunkSize) == |chunk|
        invariant Call(tables, old(state), old(stream)) == Loop(tables, state, stream)
        decreases |stream.script|
      {
        ChunksTurn(tables, state, stream);
        ChunkMessage(tables, state);
        KeptSlice(tables, state, writeBuffer);
        io := Write(chunk[state.writePos..]);
        if !io.Ok? || io.n == 0 { return; }
        state := state.(writePos := state.writePos + io.n);
        if state.writePos == |chunk| {
          state := state.(processed := state.processed + 1, writePos := 0);
          if state.processed + 1 == state.numChunks {
            state := state.(phase := ChunksSendLast, interest := Writable, inCall := false);
            KeptFresh(tables, state, writeBuffer);
            return;
          }
        }
      }
    }

    method HandleGetChunksSendChunksLast() returns (io: Io)
      requires Valid() && state.phase.ChunksSendLast?
      requires state.chunkSize in SIZES
      modifies this
      ensures Valid() && Outcome(state, stream, io) == Call(tables, old(state), old(stream))
    {
      hide Loop, Call, Kept, WriteCall, Message, Finish, Enter, Offer, AfterZero, ValidTables;
      KeptSlice(tables, state, writeBuffer);
      CallSlices(tables, state, stream);
      ChunkMessage(tables, state);
      var chunk := tables.last[state.chunkSize];
      state := state.(inCall := true);
      while true
        invariant |writeBuffer| == 8192 && state.phase.ChunksSendLast? && state.inCall && state.writePos < |chunk|
        invariant state.chunkSize == old(state.chunkSize) == |chunk|
        invariant Call(tables, old(state), old(stream)) == Loop(tables, state, stream)
        decreases |stream.script|
      {
        ChunkMessage(tables, state);
        SliceTurn(tables, state, stream, chunk);
        KeptSlice(tables, state, writeBuffer);
        io := Write(chunk[state.writePos..]);
        if !io.Ok? || io.n == 0 { return; }
        state := state.(writePos := state.writePos + io.n);
        if state.writePos == |chunk| {
          state := state.(writePos := 0, processed := 0, phase := ChunksReceiveOk, interest := Readable,
              inCall := false);
          KeptFresh(tables, state, writeBuffer);
          return;
        }
      }
    }

    /** The chunk of the tables, or the one that the connection keeps for its size. */
    method CachedChunk() returns (chunk: Bytes)
      requires state.chunkSize in tables.zero ||
        (1 <= state.chunkSize && MAX_CHUNK in tables.zero && state.chunkSize <= |tables.zero[MAX_CHUNK]|)
      modifies this`state
      ensures state == old(state).(chunk :=
        if old(state).chunkSize in tables.zero || old(state).chunk.Some? then old(state).chunk
        else Some(GetChunk(tables, old(state).chunkSize, false)))
      ensures chunk == TimeChunk(tables, state)
    {
      hide GetChunk;
      if state.chunkSize in tables.zero {
        chunk := tables.zero[state.chunkSize];
      } else {
        if state.chunk.None? {
          state := state.(chunk := Some(GetChunk(tables, state.chunkSize, false)));
        }
        chunk := state.chunk.value;
      }
    }

    method HandleGetTimeSendChunk() returns (io: Io)
      requires Valid() && state.phase.TimeSendChunk?
      requires MIN_CHUNK <= state.chunkSize <= MAX_CHUNK
          && (state.chunkSize in tables.zero || (state.chunk.Some? ==> state.chunk.value != []))
      modifies this
      ensures Valid() && Outcome(state, stream, io) == Call(tables, old(state), old(stream))
    {
      hide Loop, Call, Kept, WriteCall, Message, Finish, Enter, Offer, AfterZero, ValidTables, Elapsed, GetChunk;
      KeptSlice(tables, state, writeBuffer);
      EnterTime(tables, state, stream);
      if state.clock.None? {
        state := state.(clock := Some(stream.now));
      }
      var isLast := Elapsed(state, stream.now) > state.duration * 1000000000;
      var chunk := CachedChunk();
      state := state.(isLast := isLast, inCall := true);
      while true
        invariant |writeBuffer| == 8192 && state.phase.TimeSendChunk? && state.inCall && state.writePos < |chunk|
        invariant chunk == TimeChunk(tables, state) && state.isLast == isLast
        invariant Call(tables, old(state), old(stream)) == Loop(tables, state, stream)
        decreases |stream.script|
      {
        SliceMessage(tables, state);
        SliceTurn(tables, state, stream, chunk);
        KeptSlice(tables, state, writeBuffer);
        io := Write(chunk[state.writePos..]);
        if !io.Ok? { return; }
        state := state.(writePos := state.writePos + io.n);
        if state.writePos == |chunk| {
          state := state.(writePos := 0);
          if isLast {
            state := state.(phase := TimeSendLast, readPos := 0, interest := Both, inCall := false);
            KeptFresh(tables, state, writeBuffer);
            return;
          }
        }
      }
    }

    method HandlePerfSendLastChunk() returns (io: Io)
      requires Valid() && state.phase.TimeSendLast?
      requires MIN_CHUNK <= state.chunkSize <= MAX_CHUNK && (state.chunkSize in tables.last
          || (state.terminalChunk.Some? ==> state.terminalChunk.value != []))
      modifies this
      ensures Valid() && Outcome(state, stream, io) == Call(tables, old(state), old(stream))
    {
      hide Loop, Call, Kept, WriteCall, Message, Finish, Enter, Offer, AfterZero, ValidTables, GetChunk;
      KeptSlice(tables, state, writeBuffer);
      EnterLast(tables, state, stream);
      var chunk;
      if state.chunkSize in tables.last {
        chunk := tables.last[state.chunkSize];
      } else {
        if state.terminalChunk.None? {
          state := state.(terminalChunk := Some(GetChunk(tables, state.chunkSize, true)));
        }
        chunk := state.terminalChunk.value;
      }
      state := state.(inCall := true);
      while true
        invariant |writeBuffer| == 8192 && state.phase.TimeSendLast? && state.inCall && state.writePos < |chunk|
        invariant chunk == TimeLastChunk(tables, state)
        invariant Call(tables, old(state), old(stream)) == Loop(tables, state, stream)
        decreases |stream.script|
      {
        SliceMessage(tables, state);
        SliceTurn(tables, state, stream, chunk);
        KeptSlice(tables, state, writeBuffer);
        io := Write(chunk[state.writePos..]);
        if !io.Ok? { return; }
        state := state.(writePos := state.writePos + io.n);
        if state.writePos == |chunk| {
          state := state.(writePos := 0, readPos := 0, phase := TimeReceiveOk, interest := Both, inCall := false);
          KeptFresh(tables, state, writeBuffer);
          return;
        }
      }
    }

    // ----- the TIME answers that are rewritten from the start on every call

    method HandleGetChunksSendTime() returns (io: Io)
      requires Valid() && state.phase.ChunksSendTime? && state.timeNs.Some?
      modifies this
      ensures Valid() && Outcome(state, stream, io) == Call(tables, old(state), old(stream))
    {
      hide Loop, Call, Kept, WriteCall, Message, Finish, Enter, Offer, AfterZero, ValidTables, Time;
      EnterRewrite(tables, state, stream);
      var command := Time(state.timeNs.value);
      state := state.(clock := None, inCall := true);
      while true
        invariant |writeBuffer| == 8192 && state.phase.ChunksSendTime? && state.inCall && command == Time(TimeOf(state))
        invariant Call(tables, old(state), old(stream)) == Loop(tables, state, stream)
        decreases |stream.script|
      {
        RewriteTurn(tables, state, stream);
        KeptFresh(tables, state, writeBuffer);
        io := Write(command);
        if !io.Ok? || io.n == 0 { return; }
        state := state.(writePos := state.writePos + io.n);
        if state.writePos == |command| {
          state := state.(writePos := 0, phase := CommandSend, interest := Writable, inCall := false);
          KeptFresh(tables, state, writeBuffer);
          return;
        }
      }
    }

    method HandleGetTimeSendTime() returns (io: Io)
      requires Valid() && state.phase.TimeSendTime? && state.timeNs.Some?
      modifies this
      ensures Valid() && Outcome(state, stream, io) == Call(tables, old(state), old(stream))
    {
      hide Loop, Call, Kept, WriteCall, Message, Finish, Enter, Offer, AfterZero, ValidTables, Time;
      EnterRewrite(tables, state, stream);
      var command := Time(state.timeNs.value);
      state := state.(clock := None, inCall := true);
      while true
        invariant |writeBuffer| == 8192 && state.phase.TimeSendTime? && state.inCall && command == Time(TimeOf(state))
        invariant Call(tables, old(state), old(stream)) == Loop(tables, state, stream)
        decreases |stream.script|
      {
        RewriteTurn(tables, state, stream);
        KeptFresh(tables, state, writeBuffer);
        io := Write(command);
        if !io.Ok? { return; }
        if io.n == 0 { continue; }
        state := state.(writePos := state.writePos + io.n);
        if state.writePos == |command| {
          state := state.(writePos := 0, phase := CommandSend, interest := Writable, inCall := false);
          KeptFresh(tables, state, writeBuffer);
          return;
        }
      }
    }

    // ----- the TIMERESULT answer goes out with the whole chunk buffer

    method HandlePutTimeResultSendTime() returns (io: Io)
      requires Valid() && state.phase.ResultSend? && state.clock.Some?
      modifies this
      ensures Valid() && Outcome(state, stream, io) == Call(tables, old(state), old(stream))
    {
      hide Loop, Call, Kept, WriteCall, Message, Finish, Enter, Offer, AfterZero, ValidTables, TimeResult, Overlay;
      KeptResult(tables, state, writeBuffer);
      EnterResult(tables, state, stream);
      var command := TimeResult(state.received);
      if state.writePos == 0 {
        state := state.(chunkBuffer := Overlay(state.chunkBuffer, command));
      }
      state := state.(inCall := true);
      while true
        invariant |writeBuffer| == 8192 && state.phase.ResultSend? && state.inCall && state.clock.Some?
        invariant Overlay(state.chunkBuffer, TimeResult(state.received)) == state.chunkBuffer
            && state.writePos < |state.chunkBuffer|
        invariant Call(tables, old(state), old(stream)) == Loop(tables, state, stream)
        decreases |stream.script|
      {
        ResultSendTurn(tables, state, stream);
        KeptResult(tables, state, writeBuffer);
        io := Write(state.chunkBuffer[state.writePos..]);
        if !io.Ok? { return; }
        if io.n == 0 { return Failed; }
        state := state.(writePos := state.writePos + io.n);
        if state.writePos == |state.chunkBuffer| {
          var total := state.totalBytes + |state.chunkBuffer|;
          state := state.(totalBytes := total, received := state.received + [(Elapsed(state, stream.now), total)],
                          writePos := 0, readPos := 0, phase := CommandSend, interest := Writable, inCall := false);
          KeptFresh(tables, state, writeBuffer);
          return;
        }
      }
    }

    // ----- basic_handler.rs: the phase tables

    method HandleReadable() returns (io: Io)
      requires Valid() && Runnable(tables, state)
      modifies this
      ensures Valid()
      ensures Outcome(state, stream, io) ==
                if ReadPhase(old(state).phase) then Call(tables, old(state), old(stream))
                    else Outcome(old(state), old(stream), Ok(1))
    {
      hide Call, Kept;
      match state.phase {
        case ReceiveToken => io := HandleGreetingReceiveToken();
        case ChunksReceiveOk => io := HandleGetChunksReceiveOk();
        case CommandReceive => io := HandleMainCommandReceive();
        case TimeReceiveOk => io := HandleGetTimeReceiveOk();
        case PingReceiveOk => io := HandlePingReceiveOk();
        case NoResultReceive => io := HandlePutNoResultReceiveChunk();
        case PutReceive => io := HandlePutReceiveChunk();
        case ResultReceive => io := HandlePutTimeResultReceiveChunk();
        case _ => io := Ok(1);
      }
    }

    method HandleWritable() returns (io: Io)
      requires Valid() && Runnable(tables, state)
      modifies this
      ensures Valid()
      ensures Outcome(state, stream, io) ==
                if WritePhase(old(state).phase) then Call(tables, old(state), old(stream))
                    else Outcome(old(state), old(stream), Ok(1))
    {
      hide Call, Kept;
      match state.phase {
        case SendVersion => io := HandleGreetingSendVersion();
        case SendAcceptToken => io := HandleGreetingSendAcceptToken();
        case SendOk => io := HandleGreetingSendOk();
        case SendChunkSizes => io := HandleGreetingSendChunksize();
        case ChunksSend => io := HandleGetChunksSendChunks();
        case ChunksSendLast => io := HandleGetChunksSendChunksLast();
        case ChunksSendTime => io := HandleGetChunksSendTime();
        case CommandSend => io := HandleMainCommandSend();
        case PongSend => io := HandlePongSend();
        case PingSendTime => io := HandlePingSendTime();
        case TimeSendChunk => io := HandleGetTimeSendChunk();
        case TimeSendLast => io := HandlePerfSendLastChunk();
        case TimeSendTime => io := HandleGetTimeSendTime();
        case NoResultSendOk => io := HandlePutNoResultSendOk();
        case NoResultSendTime => io := HandlePutNoResultSendTime();
        case PutSendOk => io := HandlePutSendOk();
        case PutSendTime => io := HandlePutSendTime();
        case PutSendBytes => io := HandlePutSendBytes();
        case ResultSendOk => io := HandlePutTimeResultSendOk();
        case ResultSend => io := HandlePutTimeResultSendTime();
        case _ => io := Ok(1);
      }
    }
  }
}
