/** A command line may reach the server in any pieces; and a GETTIME call that
    starts in time cannot end the transfer. */
module CommandLines {
  import opened Text
  import opened Wire
  import opened Chunks
  import opened Commands
  import opened Sockets
  import opened ServerMachine
  import opened ServerCalls

  function Flat(pieces: seq<Bytes>): Bytes { if pieces == [] then [] else pieces[0] + Flat(pieces[1..]) }

  /** The prompt's reads, one piece each, until a command is taken. */
  function GotAll(s: Server, pieces: seq<Bytes>, now: nat): Server
    decreases |pieces|
  {
    if pieces == [] || !s.phase.CommandReceive? || !(0 < |pieces[0]| <= Room(s)) then s
    else GotAll(Got(s, pieces[0], now), pieces[1..], now)
  }

  lemma StoreTwice(b: Bytes, p: nat, x: Bytes, y: Bytes)
    requires p + |x| + |y| <= |b|
    ensures Store(Store(b, p, x), p + |x|, y) == Store(b, p, x + y)
    ensures Store(b, p, x)[..p + |x|] == b[..p] + x
  {
  }

  lemma OnePiece(s: Server, piece: Bytes, now: nat)
    requires s.phase.CommandReceive? && piece != [] && s.readPos + |piece| <= |s.readBuffer|
    ensures 0 < |piece| <= Room(s)
    ensures var g := s.(readBuffer := Store(s.readBuffer, s.readPos, piece), readPos := s.readPos + |piece|);
      Got(s, piece, now) == if piece[|piece| - 1] == NL then Apply(g, ParseCommand(g.readBuffer[..g.readPos])) else g
  {
    hide ParseCommand, Apply, Store;
  }

  lemma LastOfLine(front: Bytes, piece: Bytes, rest: Bytes)
    requires IsLine(front + (piece + rest)) && piece != []
    ensures piece[|piece| - 1] == NL <==> rest == []
  {
    var line := front + (piece + rest);
    assert line[|front| + |piece| - 1] == piece[|piece| - 1];
  }

  /** Whatever the pieces, the server acts on the line as a whole. */
  lemma {:induction false} LineInPieces(s: Server, pieces: seq<Bytes>, now: nat)
    requires s.phase.CommandReceive? && s.readPos + |Flat(pieces)| <= |s.readBuffer|
    requires pieces != [] && (forall i | 0 <= i < |pieces| :: pieces[i] != [])
        && IsLine(s.readBuffer[..s.readPos] + Flat(pieces))
    ensures GotAll(s, pieces, now) ==
      Apply(s.(readBuffer := Store(s.readBuffer, s.readPos, Flat(pieces)), readPos := s.readPos + |Flat(pieces)|),
            ParseCommand(s.readBuffer[..s.readPos] + Flat(pieces)))
    decreases |pieces|
  {
    hide ParseCommand, Apply, Store, Got, Room, IsLine;
    var (piece, rest) := (pieces[0], Flat(pieces[1..]));
    StoreTwice(s.readBuffer, s.readPos, piece, rest);
    LastOfLine(s.readBuffer[..s.readPos], piece, rest);
    OnePiece(s, piece, now);
    var g := s.(readBuffer := Store(s.readBuffer, s.readPos, piece), readPos := s.readPos + |piece|);
    if |pieces| == 1 {
      assert piece + rest == piece;
      assert GotAll(Got(s, piece, now), pieces[1..], now) == Got(s, piece, now);
    } else {
      assert pieces[1..][0] != [];
      assert s.readBuffer[..s.readPos] + (piece + rest) == g.readBuffer[..g.readPos] + rest;
      LineInPieces(g, pieces[1..], now);
    }
  }

  lemma LineApplied(s: Server, pieces: seq<Bytes>, line: Bytes, now: nat)
    requires s.phase.CommandReceive? && s.readPos == 0 && |s.readBuffer| == 8192
    requires (forall i | 0 <= i < |pieces| :: pieces[i] != []) && Flat(pieces) == line && IsLine(line) && |line| <= 8192
    ensures GotAll(s, pieces, now) ==
        Apply(s.(readBuffer := Store(s.readBuffer, 0, line), readPos := |line|), ParseCommand(line))
  {
    hide ParseCommand, Store, GotAll, Apply;
    assert s.readBuffer[..0] + line == line && pieces != [];
    LineInPieces(s, pieces, now);
  }

  /** From any split of the client's line into reads the server recovers exactly the
      numbers and the phase meant. */
  lemma CommandsInPieces(s: Server, pieces: seq<Bytes>, count: nat, size: nat, now: nat)
    requires s.phase.CommandReceive? && s.readPos == 0 && |s.readBuffer| == 8192
    requires count < U64 && InRange(size) && forall i | 0 <= i < |pieces| :: pieces[i] != []
    ensures var r := GotAll(s, pieces, now); Flat(pieces) == ChunksLine(count, size) ==>
      r.phase.ChunksSend? && r.numChunks == count && r.chunkSize == size && r.readPos == 0 && r.interest == Writable
    ensures var r := GotAll(s, pieces, now); Flat(pieces) == TimeLine(count, size) ==>
      r.phase.TimeSendChunk? && r.duration == count && r.chunkSize == size && r.readPos == 0 && r.interest == Writable
    ensures var r := GotAll(s, pieces, now); Flat(pieces) == ResultLine(size) ==>
      r.phase.ResultSendOk? && r.chunkSize == size && r.readPos == 0 && r.interest == Writable
    ensures var r := GotAll(s, pieces, now); Flat(pieces) == PING ==>
        r.phase.PongSend? && r.readPos == 0 && r.interest == Writable
  {
    hide ParseCommand, Store, GotAll, Flat, IsLine;
    ShortLines(count, size);
    ParsesGetChunks(count, size);
    ParsesGetTime(count, size);
    ParsesPutTimeResult(size);
    ParsesPing();
    var line := Flat(pieces);
    if line == ChunksLine(count, size) || line == TimeLine(count, size) || line == ResultLine(size) || line == PING {
      LineApplied(s, pieces, line, now);
    }
  }

  lemma ShortLines(count: nat, size: nat)
    requires count < U64 && size < U64
    ensures IsLine(ChunksLine(count, size)) && IsLine(TimeLine(count, size)) && IsLine(ResultLine(size)) && IsLine(PING)
    ensures |ChunksLine(count, size)| <= 100 && |TimeLine(count, size)| <= 100 && |ResultLine(size)| <= 100
        && |PING| <= 100
  {
    LinesAreLines(count, size);
    LinesAreLines(size, size);
    ShowLengthU64(count);
    ShowLengthU64(size);
  }

  /** From any split of an upload command with one word behind it the server takes the
      size the word names, if it is in range. Otherwise PUT and PUTTIMERESULT take the
      least size and PUTNORESULT keeps the one of the command before. */
  lemma UploadsInPieces(s: Server, pieces: seq<Bytes>, word: Bytes, now: nat)
    requires s.phase.CommandReceive? && s.readPos == 0 && |s.readBuffer| == 8192
    requires forall i | 0 <= i < |pieces| :: pieces[i] != []
    requires word != [] && NoSpace(word) && |Flat(pieces)| <= 8192 && !Contains(Flat(pieces), GETCHUNKS)
    ensures var r := GotAll(s, pieces, now); Flat(pieces) == Sized(PUT, word) ==>
      r.phase.PutSendOk? && r.readPos == 0 && r.chunkSize == if IsSize(word) then ParseU64(word).value else 4096
    ensures var r := GotAll(s, pieces, now); Flat(pieces) == Sized(PUTTIMERESULT, word) ==>
      r.phase.ResultSendOk? && r.readPos == 0 && r.chunkSize == if IsSize(word) then ParseU64(word).value else 4096
    ensures var r := GotAll(s, pieces, now); Flat(pieces) == Sized(PUTNORESULT, word) ==>
      r.phase.NoResultSendOk? && r.readPos == 0
      && r.chunkSize == if IsSize(word) then ParseU64(word).value else s.chunkSize
  {
    hide ParseCommand, Store, GotAll, Flat, IsLine, ParseU64, Contains, NoSpace, B, Sized;
    var line := Flat(pieces);
    UploadSizes(word);
    SizedIsLine(word);
    if line == Sized(PUT, word) || line == Sized(PUTTIMERESULT, word) || line == Sized(PUTNORESULT, word) {
      LineApplied(s, pieces, line, now);
    }
  }

  lemma SizedIsLine(word: Bytes)
    requires NoSpace(word)
    ensures IsLine(Sized(PUT, word)) && IsLine(Sized(PUTTIMERESULT, word)) && IsLine(Sized(PUTNORESULT, word))
  {
    Keywords();
  }

  /** A text that goes on after an unknown line is unknown as well, without GETCHUNKS. */
  lemma StillUnknown(first: Bytes, more: Bytes)
    requires first != [] && first[|first| - 1] == NL && ParseCommand(first).Ignored?
    ensures ParseCommand(first + more).Ignored? <==> !Contains(first + more, GETCHUNKS)
  {
    hide Contains, ParseCommand, B;
    UnknownLines(first);
    UnknownLines(first + more);
    NoNewlineBefore(first, more);
  }

  lemma NoNewlineBefore(first: Bytes, more: Bytes)
    requires first != [] && first[|first| - 1] == NL
    ensures PING <= first + more ==> PING <= first
    ensures GETTIME <= first + more ==> GETTIME <= first
    ensures PUT <= first + more ==> PUT <= first
  {
    assert (first + more)[|first| - 1] == NL;
    assert forall i | 0 <= i < 4 :: PING[i] != NL;
  }

  /** An unknown line spoils the prompt: it stays in the buffer, so whatever line
      follows is not understood either, unless it brings a GETCHUNKS. */
  lemma UnknownSpoils(s: Server, first: Bytes, more: Bytes, now: nat)
    requires s.phase.CommandReceive? && s.readPos == 0 && |s.readBuffer| == 8192
    requires first != [] && first[|first| - 1] == NL && ParseCommand(first).Ignored?
    requires more != [] && more[|more| - 1] == NL && |first| + |more| <= 8192
    ensures |first| <= Room(s) && |more| <= Room(Got(s, first, now))
    ensures var r := Got(s, first, now);
      r.phase.CommandReceive? && r.readPos == |first| && r.readBuffer[..|first|] == first
    ensures !Contains(first + more, GETCHUNKS) ==>
      var r := Got(Got(s, first, now), more, now); r.phase.CommandReceive? && r.readPos == |first| + |more|
  {
    hide ParseCommand, Contains, Store, Got;
    var r := Got(s, first, now);
    OnePiece(s, first, now);
    StoreTwice(s.readBuffer, 0, first, more);
    assert s.readBuffer[..0] + first == first;
    OnePiece(r, more, now);
    StillUnknown(first, more);
    assert Store(r.readBuffer, r.readPos, more)[..r.readPos + |more|] == first + more;
  }

  /** Whether the last chunk is due is decided when the handler is called: a call
      that starts in time sends chunks until the socket would block or fails. */
  lemma {:induction false} GetTimeNeedsBlock(t: Tables, s: Server, w: World)
    requires s.phase.TimeSendChunk? && s.inCall && !s.isLast
    ensures var o := Loop(t, s, w); o.s.phase.TimeSendChunk? && !o.io.Ok?
    decreases |w.script|
  {
    hide Message, Offer, WriteCall;
    if s.writePos <= |Message(t, s)| {
      var (io, v) := WriteCall(w, Offer(t, s));
      if io.Ok? {
        var r := if io.n == 0 then s else Wrote(t, s, io.n, v.now);
        GetTimeNeedsBlock(t, r, v);
      }
    }
  }

  /** How many bytes a socket takes before it does anything else. */
  function Takes(script: seq<Answer>): nat {
    if script == [] || !script[0].Ready? then 0 else script[0].most + Takes(script[1..])
  }

  /** A call that starts after the deadline ends the transfer at the next chunk
      boundary, whenever the socket takes the rest of the chunk. */
  lemma {:induction false} GetTimeEnds(t: Tables, s: Server, w: World)
    requires s.phase.TimeSendChunk? && s.inCall && s.isLast && s.writePos < |Message(t, s)|
    requires Takes(w.script) >= |Message(t, s)| - s.writePos
    ensures var o := Loop(t, s, w);
      && o.s == s.(writePos := 0, readPos := 0, phase := TimeSendLast, interest := Both, inCall := false) && o.io.Ok?
      && o.w.out == w.out + Message(t, s)[s.writePos..]
    decreases |w.script|
  {
    hide Message, Loop, WriteCall;
    var m, n := Message(t, s), Least(w.script[0].most, |Message(t, s)| - s.writePos);
    LastTurn(t, s, w);
    RestSent(w.out, m, s.writePos, n);
    if s.writePos + n < |m| {
      var r := s.(writePos := s.writePos + n);
      SameMessage(t, s, r);
      GetTimeEnds(t, r, WriteCall(w, m[s.writePos..]).1);
    }
  }

  /** One turn of the loop of a call past its deadline. */
  lemma LastTurn(t: Tables, s: Server, w: World)
    requires s.phase.TimeSendChunk? && s.inCall && s.isLast && s.writePos < |Message(t, s)| && w.script != []
        && w.script[0].Ready?
    ensures var n, v := Least(w.script[0].most, |Message(t, s)| - s.writePos),
        WriteCall(w, Message(t, s)[s.writePos..]).1;
      && n > 0 && v.out == w.out + Message(t, s)[s.writePos..][..n] && v.script == w.script[1..]
      && Loop(t, s, w) ==
           if s.writePos + n < |Message(t, s)| then Loop(t, s.(writePos := s.writePos + n), v)
           else Outcome(s.(writePos := 0, readPos := 0, phase := TimeSendLast, interest := Both, inCall := false), v,
               Ok(n))
  {
    hide Message, Offer, Loop, Wrote, WriteCall;
    var rest := Message(t, s)[s.writePos..];
    OfferIs(t, s);
    LoopWrites(t, s, w);
    ReadyTakes(w, rest);
    LastChunkWrote(t, s, WriteCall(w, rest).0.n, WriteCall(w, rest).1.now);
  }

  lemma RestSent(out: Bytes, m: Bytes, p: nat, n: nat)
    requires p + n <= |m|
    ensures out + m[p..][..n] + m[p + n..] == out + m[p..]
  {
    assert m[p..] == m[p..][..n] + m[p + n..];
  }

  lemma ReadyTakes(w: World, data: Bytes)
    requires w.script != [] && w.script[0].Ready? && data != []
    ensures var (io, v) := WriteCall(w, data);
      && io == Ok(Least(w.script[0].most, |data|)) && io.n > 0 && v.script == w.script[1..]
          && v.out == w.out + data[..io.n]
  {
  }

  lemma SameMessage(t: Tables, s: Server, r: Server)
    requires r == s.(writePos := r.writePos)
    ensures Message(t, r) == Message(t, s)
  {
    hide Show, B;
  }

  lemma LastChunkWrote(t: Tables, s: Server, n: nat, now: nat)
    requires s.phase.TimeSendChunk? && s.isLast
    ensures Wrote(t, s, n, now) ==
      if s.writePos + n != |Message(t, s)| then s.(writePos := s.writePos + n)
      else s.(writePos := 0, readPos := 0, phase := TimeSendLast, interest := Both, inCall := false)
  {
    hide Message;
  }

  /** A call is past the deadline when more whole seconds than asked for have passed
      since the clock was started, by an earlier call or by this one. */
  lemma GetTimeDecides(t: Tables, s: Server, now: nat)
    requires s.phase.TimeSendChunk?
    ensures var r := Enter(t, s, now);
      && r.inCall && r.phase.TimeSendChunk? && r.clock.Some?
      && (s.clock.Some? ==> r.clock == s.clock) && (s.clock.None? ==> r.clock == Some(now))
      && (r.isLast <==> now > r.clock.value + s.duration * 1_000_000_000)
  {
    hide Fresh;
  }

  /** The chunk a GETTIME call has at hand, once it has begun. */
  lemma ChunkAtHand(t: Tables, s: Server, now: nat)
    requires ValidTables(t) && InRange(s.chunkSize) && s.phase.TimeSendChunk?
    ensures var r := Enter(t, s, now);
      && Message(t, r) == TimeChunk(t, r) && r.chunkSize == s.chunkSize && r.phase == s.phase
      && r.chunk == (if s.chunkSize in SIZES || s.chunk.Some? then s.chunk else Some(GetChunk(t, s.chunkSize, false)))
  {
    hide TimeChunk, Elapsed;
    assert IsPair(MAX_CHUNK, t.zero[MAX_CHUNK], t.last[MAX_CHUNK]);
  }

  /** GETTIME sends chunks of the size it was asked for exactly when that size is in
      the table, or no chunk is cached on the connection, or the cached one has it. */
  lemma GetTimeChunk(t: Tables, s: Server, now: nat)
    requires ValidTables(t) && InRange(s.chunkSize) && s.phase.TimeSendChunk?
    ensures var r := Enter(t, s, now);
      && (|Message(t, r)| == s.chunkSize <==> s.chunkSize in SIZES || s.chunk.None? || |s.chunk.value| == s.chunkSize)
      && (s.chunkSize in SIZES || s.chunk.None? ==> Message(t, r)[s.chunkSize - 1] == 0)
  {
    hide Message, Enter;
    ChunkAtHand(t, s, now);
    if s.chunkSize in SIZES {
      assert IsPair(s.chunkSize, t.zero[s.chunkSize], t.last[s.chunkSize]);
    }
  }

  /** The terminal chunk has a cache of its own. */
  lemma GetTimeLastChunk(t: Tables, s: Server, now: nat)
    requires ValidTables(t) && InRange(s.chunkSize) && s.phase.TimeSendLast?
    ensures var (r, cached) := (Enter(t, s, now), s.terminalChunk);
      && (|Message(t, r)| == s.chunkSize <==> s.chunkSize in SIZES || cached.None? || |cached.value| == s.chunkSize)
      && (s.chunkSize in SIZES || cached.None? ==> Message(t, r)[s.chunkSize - 1] == 255)
  {
    assert IsPair(MAX_CHUNK, t.zero[MAX_CHUNK], t.last[MAX_CHUNK]);
    if s.chunkSize in SIZES {
      assert IsPair(s.chunkSize, t.zero[s.chunkSize], t.last[s.chunkSize]);
    }
  }

  /** A second GETTIME on a connection, of another size that is in no table, sends
      chunks of the first one's size. */
  lemma StaleChunk(t: Tables, s: Server, first: nat, second: nat, now: nat, later: nat)
    requires ValidTables(t) && InRange(first) && InRange(second) && first !in SIZES && second !in SIZES
    requires first != second && s.phase.TimeSendChunk? && s.chunk.None?
    ensures var r := Enter(t, s.(chunkSize := first), now);
      |Message(t, r)| == first && |Message(t, Enter(t, r.(chunkSize := second), later))| == first
  {
    hide Message, Enter;
    ChunkAtHand(t, s.(chunkSize := first), now);
    ChunkAtHand(t, Enter(t, s.(chunkSize := first), now).(chunkSize := second), later);
  }

  /** A call can last for any time and then fail: a slow socket takes a byte, then breaks. */
  lemma GetTimeOverruns(t: Tables, s: Server, w: World, at: nat)
    requires s.phase.TimeSendChunk? && s.inCall && s.writePos + 1 < |Message(t, s)|
        && w.script == [Ready(1, at), Broken]
    ensures Loop(t, s, w).io.Failed? && Loop(t, s, w).w.now == at
  {
    hide Message, Finish, Offer;
    LoopWrites(t, s, w);
    var (io, v) := WriteCall(w, Offer(t, s));
    OfferIs(t, s);
    assert io == Ok(1) && v.script == [Broken] && v.now == at;
    var r := s.(writePos := s.writePos + 1);
    SameMessage(t, s, r);
    LoopWrites(t, r, v);
  }

  lemma OfferIs(t: Tables, s: Server)
    requires s.phase.TimeSendChunk? && s.writePos <= |Message(t, s)|
    ensures Offer(t, s) == Message(t, s)[s.writePos..]
  {
    hide Message;
  }
}
