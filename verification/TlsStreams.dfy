/** The client's rustls stream as an object. The server's stream is the same code
    without the handshake loop: it behaves as this one with `handshakeDone` set. */
module TlsStreams {
  import opened Text
  import opened Sockets
  import opened Tls

  class RustlsStream {
    var tempBuf: Bytes
    var handshakeDone: bool
    var finished: bool
    // the connection
    var plain: Bytes
    var pending: nat
    var accepted: Bytes
    // what the socket and the connection will answer
    var recv: seq<Recv>
    var send: seq<Send>
    var take: seq<Take>

    function View(): Adapter
      reads this
    {
      Adapter(tempBuf, handshakeDone, finished, plain, pending, accepted, recv, send, take)
    }

    constructor (server: bool, recv: seq<Recv>, send: seq<Send>, take: seq<Take>)
      ensures View() == Adapter([], server, true, [], 0, [], recv, send, take)
    {
      tempBuf, handshakeDone, finished := [], server, true;
      plain, pending, accepted := [], 0, [];
      this.recv, this.send, this.take := recv, send, take;
    }

    /** `conn.write_tls`. */
    method SendTls() returns (io: Io)
      modifies this`send, this`pending
      ensures (io, View()) == WriteTls(old(View()))
    {
      if send == [] { return WouldBlock; }
      var answer := send[0];
      send := send[1..];
      match answer {
        case SendBlocked => io := WouldBlock;
        case SendBroken => io := Failed;
        case Sent(n) =>
          pending, io := if n <= pending then pending - n else 0, Ok(n);
      }
    }

    /** `if conn.wants_write() { conn.write_tls }`. */
    method SendOnce() returns (io: Io)
      modifies this`send, this`pending
      ensures (io, View()) == Tls.SendOnce(old(View()))
    {
      io := Ok(0);
      if pending > 0 {
        io := SendTls();
      }
    }

    /** `while conn.wants_write() { conn.write_tls }`. */
    method FlushTls() returns (io: Io)
      modifies this`send, this`pending
      ensures (io, View()) == Flush(old(View()))
    {
      while pending > 0
        invariant Flush(View()) == Flush(old(View()))
        invariant View() == old(View()).(send := send, pending := pending)
        decreases |send|
      {
        io := SendTls();
        if !io.Ok? { return; }
      }
      io := Ok(0);
    }

    /** `conn.writer().write`: what the connection takes of the buffer from `total` on. */
    method WritePlain(buf: Bytes, total: nat) returns (answer: Take, n: nat)
      requires total < |buf| && pending == 0
      modifies this`take, this`accepted, this`pending
      ensures answer == NextTake(old(View()), buf)
          && n == (if answer.Takes? then Least(answer.most, |buf| - total) else 0)
      ensures !answer.Takes? ==> View() == AfterTake(old(View()))
      ensures answer.Takes? ==>
        View() == AfterTake(old(View())).(accepted := old(accepted) + buf[total..total + n], pending := if n > 0
            then answer.adds else 0)
      ensures |take| < old(|take|) || (take == old(take) && n > 0)
    {
      answer, n := NextTake(View(), buf), 0;
      take := if take == [] then [] else take[1..];
      if answer.Takes? {
        n := Least(answer.most, |buf| - total);
        accepted, pending := accepted + buf[total..total + n], if n > 0 then answer.adds else 0;
      }
    }

    method Write(buf: Bytes) returns (io: Io)
      modifies this
      ensures (io, View()) == Tls.Write(old(View()), buf)
    {
      hide Flush, WriteTls, WriteLoop, NextTake, AfterTake;
      io := FlushTls();
      if !io.Ok? { return; }
      var totalWritten: nat := 0;
      if !finished {
        totalWritten, finished := 1, true;
      }
      while totalWritten < |buf|
        invariant pending == 0
        invariant WriteLoop(View(), buf, totalWritten) == Tls.Write(old(View()), buf)
        decreases |take|, |buf| - totalWritten
      {
        WriteTurn(View(), buf, totalWritten);
        var answer, n := WritePlain(buf, totalWritten);
        match answer {
          case TakeBlocked => return WouldBlock;
          case TakeBroken => return Failed;
          case Takes(_, _) =>
            totalWritten := totalWritten + n;
            io := FlushTls();
            match io {
              case Ok(_) =>
              case WouldBlock =>
                finished := false;
                return Ok(totalWritten - 1);
              case Failed => return;
            }
        }
      }
      WriteTurn(View(), buf, totalWritten);
      io := Ok(totalWritten);
    }

    /** Moves up to `size` bytes out of the spill buffer. */
    method GiveOut(size: nat) returns (io: Io, data: Bytes)
      modifies this`tempBuf
      ensures (io, data, View()) == Give(old(View()), size)
    {
      var toCopy := Least(size, |tempBuf|);
      io, data := Ok(toCopy), tempBuf[..toCopy];
      tempBuf := tempBuf[toCopy..];
    }

    /** `read` when the socket would block. */
    method ReadHeld(size: nat) returns (io: Io, data: Bytes)
      modifies this`send, this`pending, this`tempBuf
      ensures (io, data, View()) == ReadIdle(old(View()), size)
    {
      hide Tls.SendOnce;
      data := [];
      io := SendOnce();
      if !io.Ok? { return; }
      if tempBuf != [] {
        io, data := GiveOut(size);
      } else {
        io := WouldBlock;
      }
    }

    method Read(size: nat) returns (io: Io, data: Bytes)
      modifies this
      ensures (io, data, View()) == Tls.Read(old(View()), size)
      decreases |recv|
    {
      hide Flush, Tls.SendOnce, Give, ReadIdle;
      data := [];
      if |tempBuf| > size {
        io, data := GiveOut(size);
        return;
      }
      var event := if recv == [] then RecvBlocked else recv[0];
      recv := if recv == [] then [] else recv[1..];
      match event {
        case RecvBroken => io := Failed;
        case RecvClosed => io := Ok(0);
        case RecvBlocked =>
          io, data := ReadHeld(size);
        case Records(records, reply, valid, readerFails, wantsMore) =>
          plain, pending := plain + records, pending + reply;
          if !valid { return Failed, []; }
          if !handshakeDone {
            handshakeDone := true;
            io := FlushTls();
            if !io.Ok? { return; }
          }
          DrainReader();
          if readerFails { return Failed, []; }
          if size > 0 && tempBuf != [] {
            io, data := GiveOut(size);
          } else if wantsMore {
            io, data := Read(size);
          } else {
            io := SendOnce();
            if !io.Ok? { return; }
            io := Ok(0);
          }
      }
    }

    /** Takes the decrypted bytes out of the connection, 80 KiB at a time. */
    method DrainReader()
      modifies this`tempBuf, this`plain
      ensures plain == [] && tempBuf == old(tempBuf) + old(plain)
    {
      while plain != []
        invariant tempBuf + plain == old(tempBuf) + old(plain)
        decreases |plain|
      {
        var n := Least(81920, |plain|);
        tempBuf, plain := tempBuf + plain[..n], plain[n..];
      }
    }
  }
}
