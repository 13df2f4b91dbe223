/** Why some messages have to travel in one piece: what their handlers do when the
    socket splits them. */
module Splits {
  import opened Text
  import opened Wire
  import opened Chunks
  import opened Session
  import opened SessionSteps
  import opened SessionRuns
  import opened SessionTimes
  import opened ClientCalls
  import Server = ServerMachine
  import Client = ClientMachine

  // ----- OK at the server

  lemma OkBytes()
    ensures OK == [79, 75, 10] && PING == [80, 73, 78, 71, 10]
  {
  }

  /** Each piece of OK is stored at the front of the buffer. */
  lemma PiecesStored(buffer: Bytes, a: Bytes, b: Bytes)
    requires |buffer| >= 3 && a + b == OK && a != [] && b != []
    ensures |a| + |b| == 3 && |a| < 3
    ensures Store(buffer, 0, a)[..|a|] == a && Store(buffer, 0, a)[|a|..] == buffer[|a|..]
    ensures Store(Store(buffer, 0, a), 0, b)[..3] != OK
  {
    OkBytes();
    assert Store(Store(buffer, 0, a), 0, b)[..|b|] == b;
    if |a| == 1 {
      assert b[0] == OK[1];
    } else {
      assert b[0] == OK[2];
    }
    assert Store(Store(buffer, 0, a), 0, b)[..3][0] == b[0];
  }

  /** OK in two reads: the server counts three bytes and goes on waiting. */
  lemma OkSplit(s: Server.Server, a: Bytes, b: Bytes, now: nat)
    requires (s.phase.ChunksReceiveOk? || s.phase.TimeReceiveOk?) && s.readPos == 0 && |s.readBuffer| == 8192
    requires a + b == OK && a != [] && b != []
    ensures |a| <= Server.Room(s) && |b| <= Server.Room(Server.Got(s, a, now))
    ensures var r := Server.Got(Server.Got(s, a, now), b, now); r == s.(readPos := 3, readBuffer := r.readBuffer)
  {
    hide Server.Got, Store;
    PiecesStored(s.readBuffer, a, b);
    OkPart(s, a, now);
    OkPart(Server.Got(s, a, now), b, now);
  }

  /** A read that does not make the buffer hold OK, and nothing else, is only stored. */
  lemma OkPart(s: Server.Server, data: Bytes, now: nat)
    requires (s.phase.ChunksReceiveOk? || s.phase.TimeReceiveOk?) && 3 <= |s.readBuffer| && 0 < |data| <= |s.readBuffer|
    requires s.readPos + |data| == 3 ==> Store(s.readBuffer, 0, data)[..3] != OK
    ensures |data| <= Server.Room(s)
    ensures Server.Got(s, data, now) == s.(readPos := s.readPos + |data|, readBuffer := Store(s.readBuffer, 0, data))
  {
    hide Store, Server.Elapsed;
    OkBytes();
  }

  /** Whatever comes after that, it waits forever: it has counted too many bytes. */
  lemma OkNeverSeen(s: Server.Server, data: Bytes, now: nat)
    requires (s.phase.ChunksReceiveOk? || s.phase.TimeReceiveOk?) && s.readPos >= 3 && |s.readBuffer| == 8192
    requires 0 < |data| <= Server.Room(s)
    ensures var r := Server.Got(s, data, now); r == s.(readPos := s.readPos + |data|, readBuffer := r.readBuffer)
  {
    hide Server.Got, Store;
    OkPart(s, data, now);
  }

  /** The OK of a ping, over the PING that the buffer still holds. */
  lemma PingOkSplit(s: Server.Server, a: Bytes, b: Bytes, now: nat)
    requires s.phase.PingReceiveOk? && PING <= s.readBuffer && |s.readBuffer| == 8192
    requires a + b == OK && a != [] && b != []
    ensures |a| <= Server.Room(s) && |b| <= Server.Room(Server.Got(s, a, now))
    ensures Server.Got(Server.Got(s, a, now), b, now).phase.PingReceiveOk?
  {
    hide Store, Server.Elapsed;
    OkBytes();
    PiecesStored(s.readBuffer, a, b);
    var first := Store(s.readBuffer, 0, a);
    assert first[2] == s.readBuffer[2] == 78 by { assert first[|a|..][2 - |a|] == s.readBuffer[|a|..][2 - |a|]; }
    assert Store(first, 0, b)[..3] != OK;
  }

  /** A session in which the server gets the OK of a transfer in two pieces: both sides
      wait to read, and nothing is under way. */
  lemma SplitOkStarves(cfg: Config, x: Sess, n: nat)
    requires Inv(cfg, x) && (x.s.phase.ChunksReceiveOk? || x.s.phase.TimeReceiveOk?) && x.up != [] && 0 < n < |x.up|
    ensures n <= Server.Room(x.s) && |x.up| - n <= Server.Room(Server.Got(x.s, x.up[..n], x.now))
    ensures var s := Server.Got(Server.Got(x.s, x.up[..n], x.now), x.up[n..], x.now);
      Client.ReadPhase(x.c.phase) && Server.ReadPhase(s.phase) && s.phase == x.s.phase && x.down == []
  {
    hide Setup, ClientOk, NotStarted, Paired, Asking, Server.Got, Server.Room;
    UpAsks(cfg, x);
    UpOwner(cfg, x);
    AskingPhases(x.c, x.s, x.up, x.down);
    OkArrives(x.c, x.s, x.up);
    StartsAtZero(x.c, x.s, x.up);
    assert x.up[..n] + x.up[n..] == OK;
    OkSplit(x.s, x.up[..n], x.up[n..], x.now);
  }

  lemma StartsAtZero(c: Client.Client, s: Server.Server, up: Bytes)
    requires Asking(c, s, up, []) && Server.Atomic(s.phase)
    ensures s.readPos == 0
  {
    hide Request, Unsent, SText;
  }

  // ----- the server's times

  /** A time answer that the socket takes in two pieces: the second piece starts the
      text again, so what goes out is not the answer; and a socket that takes all it is
      offered the second time leaves the handler writing for good. */
  lemma TimeSplit(t: Tables, s: Server.Server, n: nat, now: nat)
    requires (s.phase.ChunksSendTime? || s.phase.TimeSendTime?) && s.inCall && s.writePos == 0
    requires 0 < n < |Server.Message(t, s)|
    ensures var (msg, r) := (Server.Message(t, s), Server.Wrote(t, s, n, now));
      && r == s.(writePos := n) && Server.Offer(t, r) == msg
      && Server.Wrote(t, r, |msg| - n, now).phase.CommandSend? && msg[..n] + msg[..|msg| - n] != msg
      && Server.Wrote(t, r, |msg|, now) == s.(writePos := n + |msg|)
  {
    hide Show, B;
    var msg := Server.Message(t, s);
    EndsOnce(msg, n) by { TimeIsLine(Server.TimeOf(s)); }
  }

  lemma TimeIsLine(time: nat)
    ensures IsLine(Time(time))
  {
  }

  lemma EndsOnce(msg: Bytes, n: nat)
    requires IsLine(msg) && 0 < n < |msg|
    ensures msg[..n] + msg[..|msg| - n] != msg
  {
    var sent := msg[..n] + msg[..|msg| - n];
    assert sent[|msg| - 1] == msg[|msg| - n - 1] != NL;
  }

  // ----- the client

  /** A token line or GETCHUNKS line or its OK of which the socket takes a part: the
      next slice runs past the text, and unless the socket takes exactly the rest of
      the text the handler never ends. */
  lemma SliceOverruns(t: Tables, c: Client.Client, b: Bytes, n: nat, m: nat, now: nat)
    requires Overruns(c.phase) && c.writePos == 0 && 0 < n < |Client.Message(t, c)|
    ensures var (text, d) := (Client.Message(t, c), Client.Wrote(t, c, n, now));
      && d == c.(writePos := n)
      && (n + |text| > |b| ==> Slice(t, d, b).None?)
      && (n + |text| <= |b| && text <= b ==> Slice(t, d, b) == Some(text[n..] + b[|text|..n + |text|]))
      && (m != |text| - n ==> Client.Wrote(t, d, m, now).phase == c.phase)
  {
    hide Show, B;
    var text := Client.Message(t, c);
    SameText(t, c, n);
    if n + |text| <= |b| && text <= b {
      assert b[n..n + |text|] == text[n..] + b[|text|..n + |text|];
    }
  }

  lemma SameText(t: Tables, c: Client.Client, n: nat)
    ensures Client.Message(t, c.(writePos := n)) == Client.Message(t, c)
  {
  }

  /** The OK before an upload in two reads: the client counts neither and waits on. */
  lemma UploadOkSplit(c: Client.Client, a: Bytes, b: Bytes, now: nat)
    requires c.phase.PerfReceiveOk? && c.readPos == 0 && |c.readBuffer| == 8192 && a + b == OK && a != [] && b != []
    ensures |a| <= Client.Room(c) && |b| <= Client.Room(Client.Got(c, a, now))
    ensures var r := Client.Got(Client.Got(c, a, now), b, now); r == c.(readBuffer := r.readBuffer)
  {
    hide Store;
    OkBytes();
    assert |a| + |b| == 3;
  }
}
