/** A call of a client handler, as a function of the measurement state, of the
    write buffer and of what the socket will answer. */
module ClientCalls {
  import opened Text
  import opened Chunks
  import opened ClientMachine
  import opened Sockets
  import Server = ServerMachine

  /** Phases whose handler copies its text to the write buffer and sends from there. */
  predicate Buffered(p: Phase) { WritePhase(p) && !p.PerfSendChunks? && !p.PerfSendLast? }

  /** These handlers offer as many bytes as the message is long wherever they
      are in it: past its end, once part of it is out. */
  predicate Overruns(p: Phase) { p.SendToken? || p.ChunksSendCommand? || p.ChunksSendOk? }

  /** The greeting handlers look at what they have only after a read of some bytes. */
  predicate NeedsBytes(p: Phase) { p.ReceiveGreeting? || p.ReceiveResponse? }

  datatype Outcome = Outcome(c: Client, b: Bytes, w: World, io: Io)

  /** What the handler offers, `None` where the slice it takes does not exist. */
  function Slice(t: Tables, c: Client, b: Bytes): Option<Bytes> {
    var text := Message(t, c);
    if Overruns(c.phase) then
      if c.writePos + |text| <= |b| then Some(b[c.writePos..c.writePos + |text|]) else None
    else if c.writePos <= |text| then Some(text[c.writePos..])
    else None
  }

  /** The loop of the handler for the current phase. */
  function Loop(t: Tables, c: Client, b: Bytes, w: World): Outcome
    decreases |w.script|
  {
    if ReadPhase(c.phase) && c.readPos <= Top(c) && |c.readBuffer| >= 5 then
      var (io, data, v) := ReadCall(w, Room(c));
      if !io.Ok? then Outcome(c, b, v, io) else
      var r := if io.n == 0 && NeedsBytes(c.phase) then c else Got(c, data, v.now);
      if r.phase != c.phase then Outcome(r, b, v, io) else Loop(t, r, b, v)
    else if WritePhase(c.phase) && Slice(t, c, b).Some? then
      var (io, v) := WriteCall(w, Slice(t, c, b).value);
      if !io.Ok? || (io.n == 0 && c.phase.PerfSendChunks?) then Outcome(c, b, v, io) else
      var r := if io.n == 0 then c else Wrote(t, c, io.n, v.now);
      if r.phase != c.phase then Outcome(r, b, v, io) else Loop(t, r, b, v)
    else Outcome(c, b, w, Failed)
  }

  /** The write buffer once the handler has copied its text. */
  function Filled(t: Tables, c: Client, b: Bytes): Bytes {
    if Buffered(c.phase) && c.writePos == 0 then Server.Overlay(b, Message(t, c)) else b
  }

  /** The whole call. */
  function Call(t: Tables, c: Client, b: Bytes, w: World): Outcome {
    var d := Enter(c, w.now);
    Loop(t, d, Filled(t, d, b), w)
  }
}
