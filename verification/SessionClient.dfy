/** The client's steps keep the pairing invariant. */
module SessionClient {
  import opened Text
  import opened Wire
  import opened Chunks
  import opened TimeResults
  import opened Ramp
  import opened Pings
  import opened Session
  import opened SessionSteps
  import Server = ServerMachine
  import Client = ClientMachine

  // ----- the client writes

  predicate DataPhase(p: Client.Phase) { p.PerfSendChunks? || p.PerfSendLast? }

  lemma CanSendPhase(t: Tables, c: Client.Client, n: nat)
    requires CanSend(t, c, n)
    ensures Client.WritePhase(c.phase) && n > 0
  {
  }

  lemma SentOk(t: Tables, c: Client.Client, n: nat, now: nat)
    requires ClientOk(c, now) && CanSend(t, c, n)
    ensures ClientOk(Client.Wrote(t, c, n, now), now)
  {
    hide Client.Message, Client.Offer, Client.Finish, CanSend;
    CanSendPhase(t, c, n);
    var d := (if DataPhase(c.phase) then c.(bytesSent := c.bytesSent + n) else c).(writePos := c.writePos + n);
    FinishClientOk(d, now);
  }

  lemma FinishClientOk(c: Client.Client, now: nat)
    requires ClientOk(c, now) && Client.WritePhase(c.phase)
    ensures ClientOk(Client.Finish(c, now), now)
  {
    hide Client.Resize, Client.Elapsed;
    match c.phase {
      case SendToken =>
      case ChunksSendCommand | TimeSendCommand =>
      case ChunksSendOk | PingSendOk | TimeSendOk =>
      case PingSendPing =>
      case _ =>
    }
  }

  /** A message phase goes to the phase that waits for the answer. */
  lemma FinishMessage(c: Client.Client, now: nat)
    requires Client.WritePhase(c.phase) && !DataPhase(c.phase)
    ensures var d := Client.Finish(c, now);
      && Client.ReadPhase(d.phase) && d.writePos == 0
          && (c.readPos == 0 || c.phase.TimeSendOk? || c.phase.PerfSendCommand? ==> d.readPos == 0)
      && Asked(d.phase) == Asked(c.phase) && Request(d) == Request(c)
      && (d.phase.ChunksReceiveChunk? || d.phase.TimeReceiveChunk? ==> |d.chunkBuffer| == d.chunkSize)
      && d.downloads == c.downloads && d.bytesReceived == c.bytesReceived && d.bytesSent == c.bytesSent
      && d.resultBuffer == c.resultBuffer && d.uploads == c.uploads
      && d.totalChunks == c.totalChunks && d.chunkSize == c.chunkSize
      && (AfterDownload(c.phase) ==> AfterDownload(d.phase)) && !UploadPhase(d.phase)
  {
    hide TokenLine, ChunksLine, TimeLine, ResultLine, B;
    match c.phase {
      case SendToken =>
      case ChunksSendCommand =>
      case TimeSendCommand =>
      case ChunksSendOk | PingSendOk | TimeSendOk =>
      case PingSendPing =>
      case PerfSendCommand =>
    }
  }

  lemma MessageIsRequest(t: Tables, c: Client.Client)
    requires Client.WritePhase(c.phase) && !DataPhase(c.phase)
    ensures Client.Message(t, c) == Request(c)
  {
    hide TokenLine, ChunksLine, TimeLine, ResultLine, B;
  }

  lemma RequestMoves(c: Client.Client, p: nat)
    ensures Request(c.(writePos := p)) == Request(c)
  {
    hide TokenLine, ChunksLine, TimeLine, ResultLine, B;
  }

  lemma ClientWriteAsking(t: Tables, c: Client.Client, s: Server.Server, up: Bytes, n: nat, now: nat)
    requires Asking(c, s, up, []) && CanSend(t, c, n) && !DataPhase(c.phase)
    ensures var d := Client.Wrote(t, c, n, now); Asking(d, s, up + Client.Offer(t, c)[..n], [])
  {
    hide Request, Client.Finish, Asked;
    MessageIsRequest(t, c);
    RequestMoves(c, c.writePos + n);
    FinishMessage(c.(writePos := c.writePos + n), now);
    var rest := Unsent(c);
    assert rest == Client.Offer(t, c);
    SplitSent(SText(s), up, rest, n);
    if c.writePos + n < |Request(c)| {
      assert rest[n..] == Request(c)[c.writePos + n..];
    } else {
      assert rest[n..] == [];
    }
  }

  lemma SplitSent(a: Bytes, up: Bytes, rest: Bytes, n: nat)
    requires n <= |rest|
    ensures a + (up + rest[..n]) + rest[n..] == a + up + rest
  {
    assert rest == rest[..n] + rest[n..];
  }

  lemma FinishUpload(c: Client.Client, now: nat)
    requires DataPhase(c.phase)
    ensures var d := Client.Finish(c, now);
      && d == c.(phase := d.phase, interest := d.interest, writePos := d.writePos)
      && (c.phase.PerfSendChunks? ==> d.writePos == 0 && (d.phase.PerfSendChunks? || d.phase.PerfSendLast?))
      && (c.phase.PerfSendLast? ==> d.phase.PerfReceiveTime?)
  {
    hide Client.Elapsed;
  }

  lemma UpMessage(cfg: Config, c: Client.Client)
    requires ValidTables(cfg.client) && DataPhase(c.phase) && c.chunkSize in cfg.client.zero
        && c.chunkSize in cfg.client.last
    ensures Client.Message(cfg.client, c) == if c.phase.PerfSendChunks? then cfg.client.zero[c.chunkSize]
        else cfg.client.last[c.chunkSize]
    ensures |cfg.client.zero[c.chunkSize]| == |cfg.client.last[c.chunkSize]| == c.chunkSize ==
        |Client.Message(cfg.client, c)| > 0
  {
  }

  /** What has gone out of the chunk under way, before and after a write. */
  lemma UpWrote(cfg: Config, c: Client.Client, n: nat, now: nat)
    requires ValidTables(cfg.client) && DataPhase(c.phase) && c.chunkSize in cfg.client.zero
        && c.chunkSize in cfg.client.last
    requires CanSend(cfg.client, c, n)
    ensures var (chunk, d) := (Client.Message(cfg.client, c), Client.Wrote(cfg.client, c, n, now));
      && chunk == (if c.phase.PerfSendChunks? then cfg.client.zero[c.chunkSize] else cfg.client.last[c.chunkSize])
      && SentUp(cfg, c) == chunk[..c.writePos] && d.chunkSize == c.chunkSize
      && SentUp(cfg, d) == if c.writePos + n < |chunk| then chunk[..c.writePos + n] else if c.phase.PerfSendChunks?
          then [] else chunk
  {
    hide Client.Finish, ValidTables;
    UpMessage(cfg, c);
    var z, f := cfg.client.zero[c.chunkSize], cfg.client.last[c.chunkSize];
    if c.writePos + n == |Client.Message(cfg.client, c)| {
      FinishUpload(c.(bytesSent := c.bytesSent + n, writePos := c.writePos + n), now);
      assert z[..0] == f[..0] == [];
    }
  }

  lemma UpSent(cfg: Config, c: Client.Client, s: Server.Server, up: Bytes, k: Count, n: nat, now: nat)
    requires ValidTables(cfg.client) && Uploading(cfg, c, s, up, [], k) && CanSend(cfg.client, c, n)
        && DataPhase(c.phase)
    ensures var (d, k') := (Client.Wrote(cfg.client, c, n, now), CountUp(cfg.client, c, n, k));
      && d.chunkSize == c.chunkSize
      && s.chunkBuffer[..s.readPos] + (up + Client.Offer(cfg.client, c)[..n]) ==
         Rep(cfg.client.zero[c.chunkSize], k'.inTransit) + SentUp(cfg, d)
  {
    hide Client.Message, Client.Wrote, ValidTables, SentUp, Rep;
    UpWrote(cfg, c, n, now);
    var z, chunk := cfg.client.zero[c.chunkSize], Client.Message(cfg.client, c);
    SendFrame(z, k.inTransit, chunk, c.writePos, n, s.chunkBuffer[..s.readPos], up);
    if c.writePos + n == |chunk| {
      SendWhole(z, k.inTransit);
      assert chunk[..|chunk|] == chunk;
    }
  }

  lemma ClientWriteUploading(cfg: Config, c: Client.Client, s: Server.Server, up: Bytes, k: Count, n: nat, now: nat)
    requires ValidTables(cfg.client) && Uploading(cfg, c, s, up, [], k) && CanSend(cfg.client, c, n)
        && DataPhase(c.phase)
    ensures var d := Client.Wrote(cfg.client, c, n, now);
      && Uploading(cfg, d, s, up + Client.Offer(cfg.client, c)[..n], [], CountUp(cfg.client, c, n, k))
      && (d.phase.PerfSendChunks? || d.phase.PerfSendLast? || d.phase.PerfReceiveTime?)
      && CountUp(cfg.client, c, n, k).consumed == k.consumed
  {
    hide Client.Finish, Rep, SentUp, ValidTables;
    UpSent(cfg, c, s, up, k, n, now);
    UpMessage(cfg, c);
    FinishUpload(c.(bytesSent := c.bytesSent + n, writePos := c.writePos + n), now);
  }

  lemma SendPairs(cfg: Config, x: Sess, n: nat)
    requires Paired(cfg, x) && CanSend(cfg.client, x.c, n)
    ensures x.down == []
    ensures DataPhase(x.c.phase) ==> Uploading(cfg, x.c, x.s, x.up, [], x.k)
    ensures !DataPhase(x.c.phase) ==> Asking(x.c, x.s, x.up, [])
  {
    hide Client.Message, Client.Offer, Promise, Reply, Request, Unsent, SText, CText, WritePosOk, SentDown, SentUp, Rep,
      Parsed, TimeResult, Series, UploadReady, ChunkCounts, ResultCounts;
    CanSendPhase(cfg.client, x.c, n);
  }

  lemma SentFrame(t: Tables, c: Client.Client, n: nat, now: nat)
    requires CanSend(t, c, n)
    ensures var d := Client.Wrote(t, c, n, now);
      && d.totalChunks == c.totalChunks && d.chunkSize == c.chunkSize && d.downloads == c.downloads
          && d.bytesReceived == c.bytesReceived
      && d.resultBuffer == c.resultBuffer && d.uploads == c.uploads
      && (DataPhase(c.phase) ==> UploadPhase(d.phase))
      && (!DataPhase(c.phase) ==> d.bytesSent == c.bytesSent && (AfterDownload(c.phase) ==> AfterDownload(d.phase)))
  {
    hide Client.Message, Client.Offer, Client.Finish, Request, CanSend;
    CanSendPhase(t, c, n);
    var d := (if DataPhase(c.phase) then c.(bytesSent := c.bytesSent + n) else c).(writePos := c.writePos + n);
    if DataPhase(c.phase) {
      FinishUpload(d, now);
    } else {
      FinishMessage(d, now);
    }
  }

  lemma WroteAsking(t: Tables, c: Client.Client, n: nat, now: nat)
    requires CanSend(t, c, n) && !DataPhase(c.phase)
    ensures var d := Client.Wrote(t, c, n, now);
      && (Client.WritePhase(d.phase) || Client.ReadPhase(d.phase)) && Asked(d.phase) == Asked(c.phase)
      && (d.phase.ChunksReceiveChunk? || d.phase.TimeReceiveChunk? ==> |d.chunkBuffer| == d.chunkSize)
  {
    hide Client.Message, Client.Offer, Request, CanSend, Client.Finish, Asked;
    CanSendPhase(t, c, n);
    FinishMessage(c.(writePos := c.writePos + n), now);
    if c.writePos + n != |Client.Message(t, c)| {
      assert Client.Wrote(t, c, n, now).phase == c.phase;
    }
  }

  lemma ClientWritePaired(cfg: Config, x: Sess, n: nat)
    requires ValidTables(cfg.client) && Paired(cfg, x) && CanSend(cfg.client, x.c, n)
    ensures Paired(cfg, AfterClientWrite(cfg, x, n))
  {
    hide Asking, Uploading, Quiet, Answering, Downloading, Resulting, Client.Wrote, ValidTables, CanSend, CountUp,
      Series, Parsed, AfterUpload;
    SendPairs(cfg, x, n);
    CanSendPhase(cfg.client, x.c, n);
    if DataPhase(x.c.phase) {
      ClientWriteUploading(cfg, x.c, x.s, x.up, x.k, n, x.now);
      UploadingFacts(cfg, x.c, x.s, x.up, [], x.k, 0);
    } else {
      AskingPhases(x.c, x.s, x.up, []);
      ClientWriteAsking(cfg.client, x.c, x.s, x.up, n, x.now);
      WroteAsking(cfg.client, x.c, n, x.now);
    }
  }

  lemma ClientWriteInv(cfg: Config, x: Sess, n: nat)
    requires Inv(cfg, x) && CanSend(cfg.client, x.c, n)
    ensures Inv(cfg, AfterClientWrite(cfg, x, n))
  {
    hide Paired, ValidTables, OnRamp, Client.Wrote, ServerOk, ClientOk, CanSend;
    SendPairs(cfg, x, n);
    SentOk(cfg.client, x.c, n, x.now);
    SentFrame(cfg.client, x.c, n, x.now);
    ClientWritePaired(cfg, x, n);
    if !DataPhase(x.c.phase) {
      AskingPhases(x.c, x.s, x.up, []);
    }
  }

  // ----- the client reads

  /** A server that still owes part of a text owes at least one byte. */
  lemma OwesNothing(t: Tables, c: Client.Client, s: Server.Server, up: Bytes, down: Bytes)
    requires Answering(t, c, s, up, down) && Promise(t, s) == []
    ensures !TextPhase(s.phase)
  {
    hide Server.Message, Reply;
  }

  /** Part of an answer came in; it is all of it exactly when nothing is left. */
  lemma AnswerArrives(reply: Bytes, had: Bytes, down: Bytes, promise: Bytes, n: nat)
    requires had + down + promise == reply && 0 < n <= |down|
    ensures had + down[..n] <= reply && had + down[..n] + down[n..] + promise == reply
    ensures had + down[..n] == reply <==> down[n..] == [] && promise == []
    ensures had + down[..n] != reply ==> |had| + n < |reply|
  {
    assert down == down[..n] + down[n..];
    assert had + down[..n] + (down[n..] + promise) == reply;
  }

  lemma FirstNewline(digits: Bytes, rest: Bytes)
    requires AllDigits(digits)
    ensures Find(B("TIME ") + digits + [NL] + rest, [NL]) == Some(5 + |digits|)
  {
    var text := B("TIME ") + digits + [NL] + rest;
    assert text[5 + |digits|..5 + |digits| + 1] == [NL];
    forall j: nat | j < 5 + |digits| ensures !At(text, [NL], j) {
      assert text[j..j + 1][0] == text[j];
    }
    FindIs(text, [NL], 5 + |digits|);
  }

  /** The time is read off an answer, whatever stale bytes follow it. */
  lemma ParsesTime(t: nat, rest: Bytes)
    requires t < U64
    ensures Client.ParseTime(Time(t) + rest) == Some(t)
  {
    var text := Time(t) + rest;
    assert text == B("TIME ") + Show(t) + [NL] + rest;
    assert At(text, B("TIME "), 0);
    FindIs(text, B("TIME "), 0);
    assert text[0..] == text;
    FirstNewline(Show(t), rest);
    assert text[5..5 + |Show(t)|] == Show(t);
    ParseShow(t);
  }

  lemma ParsesSecond(t: nat, rest: Bytes)
    requires t < U64
    ensures Client.SecondNumber(Time(t) + rest) == Some(t)
  {
    hide Words;
    assert Time(t) + rest == B("TIME") + ([SPACE] + (Show(t) + ([NL] + rest)));
    assert NoSpace(B("TIME"));
    SecondWord(B("TIME"), Show(t), [NL] + rest);
    ParseShow(t);
  }

  predicate Collects(p: Client.Phase) {
    p.ReceiveGreeting? || p.ReceiveResponse? || p.PingReceivePong? || p.ChunksReceiveTime? || p.PingReceiveTime?
        || p.TimeReceiveTime?
  }

  /** An answer that is not complete is only stored. */
  lemma ReplyPart(c: Client.Client, time: nat, now: nat)
    requires Collects(c.phase) && c.readPos <= |c.readBuffer|
    requires CText(c) <= Reply(c.phase, time) && CText(c) != Reply(c.phase, time)
    ensures Client.GotReply(c, now) == c
  {
    hide Client.RoundDone, Client.PingDone, Client.ParseTime, Client.SecondNumber, Time, B;
    match c.phase {
      case ReceiveGreeting => GreetingSeen(CText(c));
      case ReceiveResponse => ResponseSeen(CText(c));
      case PingReceivePong => assert |PONG| == 5;
      case ChunksReceiveTime | PingReceiveTime | TimeReceiveTime => TimeSeen(time, CText(c));
    }
  }

  /** Where a complete answer leads. */
  function Advance(c: Client.Client, time: nat, now: nat): Client.Client {
    match c.phase
    case ReceiveGreeting => Client.Goto(c.(readPos := 0), Client.SendToken, Server.Writable)
    case ReceiveResponse => Client.Goto(c.(readPos := 0), Client.GreetingCompleted, Server.Writable)
    case PingReceivePong => Client.Goto(c.(readPos := 0), Client.PingSendOk, Server.Writable)
    case ChunksReceiveTime => Client.RoundDone(c, time)
    case PingReceiveTime => Client.PingDone(c, time, now)
    case _ => Client.Goto(c.(downloadTime := Some(time), phaseStart := None), Client.TimeCompleted, Server.Writable)
  }

  lemma StaleTime(buffer: Bytes, pos: nat, time: nat)
    requires pos <= |buffer| && buffer[..pos] == Time(time) + ACCEPT && time < U64
    ensures Client.ParseTime(buffer) == Some(time)
  {
    hide Client.ParseTime, Time, B;
    ParsesTime(time, ACCEPT + buffer[pos..]);
    assert buffer == Time(time) + (ACCEPT + buffer[pos..]);
  }

  lemma ReplyWhole(c: Client.Client, time: nat, now: nat)
    requires Collects(c.phase) && c.readPos <= |c.readBuffer| && CText(c) == Reply(c.phase, time) && time < U64
    ensures Client.GotReply(c, now) == Advance(c, time, now)
  {
    hide Client.RoundDone, Client.PingDone, Client.ParseTime, Client.SecondNumber, Time, B;
    match c.phase {
      case ReceiveGreeting => GreetingSeen(CText(c));
      case ReceiveResponse => ResponseSeen(CText(c));
      case PingReceivePong => assert |PONG| == 5;
      case ChunksReceiveTime =>
        TimeSeen(time, CText(c));
        ParsesTime(time, ACCEPT);
      case PingReceiveTime =>
        TimeSeen(time, CText(c));
        StaleTime(c.readBuffer, c.readPos, time);
      case TimeReceiveTime =>
        TimeSeen(time, CText(c));
        ParsesSecond(time, ACCEPT);
    }
  }

  /** Bytes behind the prompt: GETCHUNKS and GETTIME find the time all the same, a ping
      does not, unless they end in a prompt again. */
  lemma TrailingBytes(c: Client.Client, time: nat, extra: Bytes, now: nat)
    requires c.readPos <= |c.readBuffer| && CText(c) == Time(time) + ACCEPT + extra && time < U64
    ensures c.phase.ChunksReceiveTime? || c.phase.TimeReceiveTime? ==>
      Client.GotReply(c, now) == Advance(c, time, now)
    ensures c.phase.PingReceiveTime? && !EndsWith(CText(c), ACCEPT) ==> Client.GotReply(c, now) == c
  {
    hide Client.ParseTime, Client.SecondNumber, EndsWith, B;
    var text := CText(c);
    assert text == Time(time) + (ACCEPT + extra);
    ParsesTime(time, ACCEPT + extra);
    ParsesSecond(time, ACCEPT + extra);
    assert At(text, ACCEPT, |Time(time)|);
  }

  /** After a complete answer the client asks again or is done, and the server waits. */
  lemma AdvanceShape(c: Client.Client, time: nat, now: nat)
    requires Collects(c.phase) && c.writePos == 0
    ensures var d := Advance(c, time, now);
      && d.writePos == 0 && (d.readPos == 0 || d.phase.TimeCompleted?)
      && (d.phase.GreetingCompleted? || d.phase.ChunksCompleted? || d.phase.PingCompleted? || d.phase.TimeCompleted?
          || d.phase.SendToken? || d.phase.ChunksSendCommand? || d.phase.PingSendPing? || d.phase.PingSendOk?)
      && (c.phase.ReceiveGreeting? ==> d.phase.SendToken?) && (c.phase.PingReceivePong? ==> d.phase.PingSendOk?)
      && (!c.phase.ReceiveGreeting? && !c.phase.PingReceivePong? ==> !d.phase.SendToken? && !d.phase.PingSendOk?)
      && d.bytesSent == c.bytesSent && d.resultBuffer == c.resultBuffer && d.uploads == c.uploads
      && d.downloads == c.downloads && d.bytesReceived == c.bytesReceived
          && (AfterDownload(c.phase) ==> AfterDownload(d.phase))
  {
    hide Median, Client.Elapsed, Client.Resize, Increase;
    match c.phase {
      case ReceiveGreeting =>
      case ReceiveResponse =>
      case PingReceivePong =>
      case ChunksReceiveTime =>
      case PingReceiveTime =>
      case _ =>
    }
  }

  lemma AdvanceOk(c: Client.Client, time: nat, now: nat)
    requires Collects(c.phase) && ClientOk(c, now)
    ensures ClientOk(Advance(c, time, now), now)
  {
    hide Median, Client.Elapsed, Client.Resize, Increase, Continues;
    match c.phase {
      case ReceiveGreeting =>
      case ReceiveResponse =>
      case PingReceivePong =>
      case ChunksReceiveTime =>
      case PingReceiveTime =>
      case _ =>
    }
  }

  lemma AdvanceOnRamp(c: Client.Client, time: nat, now: nat)
    requires Collects(c.phase) && OnRamp(Round(c.totalChunks, c.chunkSize))
    ensures var d := Advance(c, time, now); OnRamp(Round(d.totalChunks, d.chunkSize))
  {
    hide Median, Client.Elapsed, Client.Resize, OnRamp;
    if c.phase.ChunksReceiveTime? && Continues(Round(c.totalChunks, c.chunkSize), time) {
      OnRampIncrease(Round(c.totalChunks, c.chunkSize));
    }
  }

  lemma StartsAsking(c: Client.Client, s: Server.Server)
    requires Client.WritePhase(c.phase) && !DataPhase(c.phase) && s.phase == Asked(c.phase)
    requires c.writePos == 0 && c.readPos == 0 && s.readPos == 0 && s.writePos == 0
    ensures Asking(c, s, [], [])
  {
    hide Show, B;
    assert SText(s) == [];
    RequestIsLineOrOk(c);
  }

  lemma RequestIsLineOrOk(c: Client.Client)
    requires Client.WritePhase(c.phase) && !DataPhase(c.phase)
    ensures |Request(c)| > 0
  {
    hide Show, B;
    assert |OK| == 3 && |PING| == 5;
  }

  lemma TakeFacts(c: Client.Client, down: Bytes, n: nat, now: nat)
    requires CanTake(c, down, n) && Collects(c.phase)
    ensures c.readPos + n <= |c.readBuffer| && 0 < n <= |down|
    ensures Client.Got(c, down[..n], now) == Client.GotReply(Client.GotText(c, down[..n]), now)
  {
    hide Client.GotReply;
  }

  /** The fields of a client that reading text leaves alone. */
  lemma TextStored(c: Client.Client, data: Bytes)
    requires c.readPos + |data| <= |c.readBuffer|
    ensures var d := Client.GotText(c, data);
      && |d.readBuffer| == |c.readBuffer| && d == c.(readBuffer := d.readBuffer, readPos := c.readPos + |data|)
      && CText(d) == CText(c) + data
  {
    StoreText(c.readBuffer, c.readPos, data);
  }

  /** The first part of a reply, or a middle one: the client goes on waiting. */
  lemma ClientReadPart(t: Tables, c: Client.Client, s: Server.Server, down: Bytes, n: nat, now: nat)
    requires Answering(t, c, s, [], down) && CanTake(c, down, n) && Collects(c.phase)
    requires CText(c) + down[..n] != Reply(c.phase, Server.TimeOf(s))
    ensures var d := Client.Got(c, down[..n], now);
      && Answering(t, d, s, [], down[n..]) && d == Client.GotText(c, down[..n])
  {
    hide Promise, Reply, Client.Got, Client.GotText, CanTake, Server.TimeOf, Client.GotReply;
    TakeFacts(c, down, n, now);
    TextStored(c, down[..n]);
    AnswerArrives(Reply(c.phase, Server.TimeOf(s)), CText(c), down, Promise(t, s), n);
    ReplyPart(Client.GotText(c, down[..n]), Server.TimeOf(s), now);
  }

  /** The last part of a reply: both channels are empty and the server waits. */
  lemma ClientReadWhole(t: Tables, c: Client.Client, s: Server.Server, down: Bytes, n: nat, now: nat)
    requires Answering(t, c, s, [], down) && CanTake(c, down, n) && Collects(c.phase)
    requires CText(c) + down[..n] == Reply(c.phase, Server.TimeOf(s))
    ensures Client.Got(c, down[..n], now) == Advance(Client.GotText(c, down[..n]), Server.TimeOf(s), now)
    ensures down[n..] == [] && !TextPhase(s.phase) && s.writePos == 0 && s.readPos == 0
  {
    hide Promise, Reply, Client.Got, Client.GotText, CanTake, Advance, Server.TimeOf, Client.GotReply, Server.Message;
    TakeFacts(c, down, n, now);
    TextStored(c, down[..n]);
    AnswerArrives(Reply(c.phase, Server.TimeOf(s)), CText(c), down, Promise(t, s), n);
    ReplyWhole(Client.GotText(c, down[..n]), Server.TimeOf(s), now);
    OwesNothing(t, c, s, [], down);
  }

  lemma ReadNoChunk(x: Sess, n: nat)
    requires CanTake(x.c, x.down, n) && !x.c.phase.ChunksReceiveChunk? && !x.c.phase.TimeReceiveChunk?
    ensures var d := Client.Got(x.c, x.down[..n], x.now);
      AfterClientRead(x, n) ==
        x.(down := x.down[n..], c := d,
           report := if x.c.phase.PerfReceiveTime?
               && !d.phase.PerfReceiveTime? then x.c.resultBuffer + x.down[..n] else x.report)
  {
    hide Client.Got;
  }

  /** Between two exchanges: the client asks next, or rests. */
  lemma PairedBetween(cfg: Config, x: Sess)
    requires x.up == [] && x.down == [] && x.s.readPos == 0 && x.s.writePos == 0 && x.c.writePos == 0
    requires x.c.readPos == 0 || x.c.phase.TimeCompleted?
    requires match x.c.phase
      case GreetingCompleted | ChunksCompleted | PingCompleted | TimeCompleted | ChunksSendCommand | PingSendPing =>
        x.s.phase.CommandReceive?
      case SendToken => x.s.phase.ReceiveToken?
      case PingSendOk => x.s.phase.PingReceiveOk?
      case _ => false
    ensures Paired(cfg, x)
  {
    hide Asking, Answering, Downloading, Uploading, Resulting, AfterUpload, Parsed;
    if Client.WritePhase(x.c.phase) {
      StartsAsking(x.c, x.s);
    }
  }

  lemma PairedAnswering(cfg: Config, x: Sess)
    requires Answering(cfg.server, x.c, x.s, x.up, x.down) && Collects(x.c.phase)
    ensures Paired(cfg, x)
  {
    hide Asking, Answering, Downloading, Uploading, Resulting, AfterUpload, Parsed;
    AnsweringFacts(cfg.server, x.c, x.s, x.up, x.down);
  }

  lemma ClientReadAnswering(cfg: Config, x: Sess, n: nat)
    requires Answering(cfg.server, x.c, x.s, x.up, x.down) && CanTake(x.c, x.down, n) && Collects(x.c.phase)
    ensures Paired(cfg, AfterClientRead(x, n))
  {
    hide Answering, Client.Got, Client.GotText, Promise, Reply, CanTake, Server.TimeOf, Advance, Paired;
    var c, s, down := x.c, x.s, x.down;
    AnsweringFacts(cfg.server, c, s, x.up, down);
    TakeFacts(c, down, n, x.now);
    TextStored(c, down[..n]);
    ReadNoChunk(x, n);
    var y := AfterClientRead(x, n);
    if CText(c) + down[..n] != Reply(c.phase, Server.TimeOf(s)) {
      ClientReadPart(cfg.server, c, s, down, n, x.now);
      PairedAnswering(cfg, y);
    } else {
      ClientReadWhole(cfg.server, c, s, down, n, x.now);
      AdvanceShape(Client.GotText(c, down[..n]), Server.TimeOf(s), x.now);
      PairedBetween(cfg, y);
    }
  }

  lemma AnsweringFacts(t: Tables, c: Client.Client, s: Server.Server, up: Bytes, down: Bytes)
    requires Answering(t, c, s, up, down)
    ensures up == [] && Answers(c.phase, s.phase) && c.writePos == 0 && Server.TimeOf(s) < U64
  {
    hide Promise, Reply;
  }

  // ----- the upload may start

  lemma ClientReadPerfOk(cfg: Config, c: Client.Client, s: Server.Server, down: Bytes, k: Count, n: nat, now: nat)
    requires ValidTables(cfg.client) && c.chunkSize in SIZES
    requires c.phase.PerfReceiveOk? && Answering(cfg.server, c, s, [], down) && CanTake(c, down, n)
        && UploadReady(c, s, k)
    requires c.bytesSent == 0 && s.totalBytes == 0 && s.received == [] && c.resultBuffer == [] && c.uploads == []
    ensures var d := Client.Got(c, down[..n], now);
      && Uploading(cfg, d, s, [], down[n..], k) && ResultCounts(s, k, now) && d.phase.PerfSendChunks?
  {
    hide Server.Message, B, Client.GotText;
    assert |OK| == 3;
    assert CText(c) == [];
    assert down[..n] == down;
    var d := Client.GotText(c, down);
    TextStored(c, down);
    OkPromise(cfg.server, s);
    assert down == OK && Promise(cfg.server, s) == [];
    assert cfg.client.zero[c.chunkSize][..0] == s.chunkBuffer[..0] == [];
  }

  lemma OkPromise(t: Tables, s: Server.Server)
    requires (s.phase.ResultSendOk? || s.phase.ResultReceive?) && WritePosOk(t, s)
    ensures Promise(t, s) == if s.phase.ResultSendOk? then OK else []
  {
    hide B;
  }

  // ----- the client takes in download data

  lemma DownChunks(cfg: Config, s: Server.Server)
    requires ValidTables(cfg.server) && s.chunkSize in cfg.server.zero && s.chunkSize in cfg.server.last
    ensures var (z, f) := (cfg.server.zero[s.chunkSize], cfg.server.last[s.chunkSize]);
      |z| == |f| == s.chunkSize > 0 && z[s.chunkSize - 1] == 0 && f[s.chunkSize - 1] == 255
  {
  }

  /** What the chunk buffer and the wire hold after a read of download data. */
  lemma DownTaken(cfg: Config, c: Client.Client, s: Server.Server, down: Bytes, k: Count, n: nat)
    requires ValidTables(cfg.server) && Downloading(cfg, c, s, [], down, k) && CanTake(c, down, n)
    ensures var (z, b) := (cfg.server.zero[s.chunkSize], Store(c.chunkBuffer, c.readPos, down[..n]));
      && c.readPos + n <= c.chunkSize
      && b[..c.readPos + n] + down[n..] == Rep(z, k.inTransit) + SentDown(cfg, s)
      && (c.readPos + n == c.chunkSize && k.inTransit > 0 ==>
          b == z && down[n..] == Rep(z, k.inTransit - 1) + SentDown(cfg, s))
      && (c.readPos + n == c.chunkSize && k.inTransit == 0 ==>
          b == cfg.server.last[s.chunkSize] && down[n..] == [] && (s.phase.ChunksReceiveOk? || s.phase.TimeReceiveOk?))
  {
    hide Rep, ChunkCounts, ValidTables;
    var z, f := cfg.server.zero[s.chunkSize], cfg.server.last[s.chunkSize];
    DownChunks(cfg, s);
    if !s.phase.ChunksReceiveOk? && !s.phase.TimeReceiveOk? {
      PartialShort((z, f), s.phase.ChunksSendLast? || s.phase.TimeSendLast?, s.writePos, s.chunkSize);
    }
    ReceiveFrame(z, k.inTransit, SentDown(cfg, s), c.chunkBuffer[..c.readPos], down, down[..n]);
    var b := Store(c.chunkBuffer, c.readPos, down[..n]);
    assert c.readPos + n == c.chunkSize ==> b[..c.readPos + n] == b;
  }

  /** The effect of a read of download data, by what it completes. */
  lemma GotDownload(c: Client.Client, data: Bytes, now: nat)
    requires (c.phase.ChunksReceiveChunk? || c.phase.TimeReceiveChunk?) && 0 < |data| <= Client.Room(c)
    requires |c.readBuffer| >= 5 && c.readPos <= |c.chunkBuffer| == c.chunkSize
    ensures var (d, b) := (Client.Got(c, data, now), Store(c.chunkBuffer, c.readPos, data));
      && d.chunkBuffer == b && d.chunkSize == c.chunkSize && d.totalChunks == c.totalChunks
      && d.phaseStart == c.phaseStart && d.writePos == c.writePos
      && (c.readPos + |data| < c.chunkSize ==> d == c.(chunkBuffer := b, readPos := c.readPos + |data|))
      && (c.readPos + |data| == c.chunkSize && b[c.chunkSize - 1] == 0 ==> d.phase == c.phase && d.readPos == 0)
      && (c.readPos + |data| == c.chunkSize && b[c.chunkSize - 1] == 255 ==>
          if c.phase.ChunksReceiveChunk? then d.phase.ChunksSendOk? && d.readPos == 0 else d.phase.TimeSendOk?)
      && (c.phase.ChunksReceiveChunk? ==> d.downloads == c.downloads && d.bytesReceived == c.bytesReceived)
      && (c.phase.TimeReceiveChunk? && c.readPos + |data| == c.chunkSize ==>
          && d.bytesReceived == c.bytesReceived + c.chunkSize
          && d.downloads == c.downloads + [(Client.Elapsed(c, now), d.bytesReceived)])
  {
    hide Store;
    if c.phase.ChunksReceiveChunk? {
      assert Client.Got(c, data, now) == Client.GotChunksChunk(Client.GotChunk(c, data));
    } else {
      assert Client.Got(c, data, now) == Client.GotTimeChunk(Client.GotChunk(c, data), now);
    }
  }

  lemma SameStart(c: Client.Client, d: Client.Client, now: nat)
    requires c.phaseStart == d.phaseStart
    ensures Client.Elapsed(c, now) == Client.Elapsed(d, now)
  {
  }

  lemma TimeRow(c: Client.Client, k: Count, data: Bytes, now: nat)
    requires c.phase.TimeReceiveChunk? && 0 < |data| <= Client.Room(c) && |c.readBuffer| >= 5
        && c.readPos <= |c.chunkBuffer| == c.chunkSize
    requires TimeCounts(c, k, now) && c.readPos + |data| == c.chunkSize
    ensures TimeCounts(Client.Got(c, data, now), Took(k), now)
  {
    hide Client.Got, Series, Client.Elapsed;
    var d := Client.Got(c, data, now);
    GotDownload(c, data, now);
    SameStart(c, d, now);
    NextCount(k.consumed, c.chunkSize);
    SeriesSnoc(c.downloads, c.chunkSize, Client.Elapsed(c, now), d.bytesReceived, Client.Elapsed(c, now));
  }

  lemma DownloadPart(cfg: Config, c: Client.Client, s: Server.Server, down: Bytes, k: Count, n: nat, now: nat)
    requires ValidTables(cfg.server) && Downloading(cfg, c, s, [], down, k) && CanTake(c, down, n)
    requires c.readPos + n < c.chunkSize
    ensures var d := Client.Got(c, down[..n], now);
      Downloading(cfg, d, s, [], down[n..], k) && d.phase == c.phase
          && (TimeCounts(c, k, now) ==> TimeCounts(d, k, now))
  {
    hide Client.Got, SentDown, Rep, Series, ValidTables;
    DownTaken(cfg, c, s, down, k, n);
    GotDownload(c, down[..n], now);
    SameStart(c, Client.Got(c, down[..n], now), now);
  }

  lemma DownloadChunk(cfg: Config, c: Client.Client, s: Server.Server, down: Bytes, k: Count, n: nat, now: nat)
    requires ValidTables(cfg.server) && Downloading(cfg, c, s, [], down, k) && CanTake(c, down, n)
    requires c.readPos + n == c.chunkSize && k.inTransit > 0
    ensures var d := Client.Got(c, down[..n], now);
      && Downloading(cfg, d, s, [], down[n..], Took(k)) && d.phase == c.phase
      && (c.phase.TimeReceiveChunk? && TimeCounts(c, k, now) ==> TimeCounts(d, Took(k), now))
  {
    hide Client.Got, SentDown, Rep, TimeCounts, ValidTables;
    DownTaken(cfg, c, s, down, k, n);
    DownChunks(cfg, s);
    GotDownload(c, down[..n], now);
    if c.phase.TimeReceiveChunk? && TimeCounts(c, k, now) {
      TimeRow(c, k, down[..n], now);
    }
    assert Client.Got(c, down[..n], now).chunkBuffer[..0] == [];
  }

  /** The terminal chunk: it is the last thing on the wire, and the server waits for the OK. */
  lemma DownloadEnds(cfg: Config, c: Client.Client, s: Server.Server, down: Bytes, k: Count, n: nat, now: nat)
    requires ValidTables(cfg.server) && Downloading(cfg, c, s, [], down, k) && CanTake(c, down, n)
    requires c.readPos + n == c.chunkSize && k.inTransit == 0
    ensures var d := Client.Got(c, down[..n], now);
      && down[n..] == [] && Took(k).consumed == k.emitted + 1
      && (c.phase.ChunksReceiveChunk? ==>
          d.phase.ChunksSendOk? && d.readPos == 0 && s.phase.ChunksReceiveOk? && Took(k).consumed == c.totalChunks)
      && (c.phase.TimeReceiveChunk? ==>
          d.phase.TimeSendOk? && s.phase.TimeReceiveOk? && (TimeCounts(c, k, now) ==> TimeCounts(d, Took(k), now)))
      && d.writePos == 0 && s.writePos == 0 && s.readPos == 0
  {
    hide Client.Got, SentDown, Rep, TimeCounts, ValidTables;
    DownTaken(cfg, c, s, down, k, n);
    DownChunks(cfg, s);
    GotDownload(c, down[..n], now);
    if c.phase.TimeReceiveChunk? && TimeCounts(c, k, now) {
      TimeRow(c, k, down[..n], now);
    }
  }

  lemma ReadChunk(x: Sess, n: nat)
    requires CanTake(x.c, x.down, n) && (x.c.phase.ChunksReceiveChunk? || x.c.phase.TimeReceiveChunk?)
    ensures AfterClientRead(x, n) ==
      x.(down := x.down[n..], c := Client.Got(x.c, x.down[..n], x.now), k := if x.c.readPos + n == x.c.chunkSize
          then Took(x.k) else x.k)
  {
    hide Client.Got;
  }

  lemma DownFacts(cfg: Config, c: Client.Client, s: Server.Server, up: Bytes, down: Bytes, k: Count, n: nat)
    requires Downloading(cfg, c, s, up, down, k)
    ensures up == [] && DownPair(c.phase, s.phase) && !s.phase.CommandReceive?
    ensures CanTake(c, down, n) ==>
        c.readPos + n <= c.chunkSize && 0 < n <= |down| && n <= Client.Room(c) && |c.readBuffer| >= 5
  {
    hide SentDown, ChunkCounts;
  }

  lemma AsksOk(c: Client.Client, s: Server.Server)
    requires (c.phase.ChunksSendOk? && c.readPos == 0 && s.phase.ChunksReceiveOk?)
        || (c.phase.TimeSendOk? && s.phase.TimeReceiveOk?)
    requires c.writePos == 0 && s.readPos == 0 && s.writePos == 0
    ensures Asking(c, s, [], []) && s.phase == Asked(c.phase)
  {
    hide B;
    assert |OK| == 3;
    assert SText(s) == [];
    assert Unsent(c) == OK;
  }

  lemma ClientReadDownloading(cfg: Config, x: Sess, n: nat)
    requires ValidTables(cfg.server) && Downloading(cfg, x.c, x.s, x.up, x.down, x.k) && CanTake(x.c, x.down, n)
    requires x.c.phase.TimeReceiveChunk? ==> TimeCounts(x.c, x.k, x.now)
    ensures Paired(cfg, AfterClientRead(x, n))
  {
    hide Downloading, Asking, Client.Got, CanTake, TimeCounts, ValidTables, Answering, Uploading, Resulting, Parsed,
      AfterUpload;
    var c, s, down, k := x.c, x.s, x.down, x.k;
    DownFacts(cfg, c, s, x.up, down, k, n);
    ReadChunk(x, n);
    if c.readPos + n < c.chunkSize {
      DownloadPart(cfg, c, s, down, k, n, x.now);
    } else if k.inTransit > 0 {
      DownloadChunk(cfg, c, s, down, k, n, x.now);
    } else {
      DownloadEnds(cfg, c, s, down, k, n, x.now);
      AsksOk(Client.Got(c, down[..n], x.now), s);
    }
  }

  // ----- the client takes in the result

  lemma GotResultText(c: Client.Client, data: Bytes, now: nat)
    requires c.phase.PerfReceiveTime? && c.readPos == 0 && 0 < |data| <= Client.Room(c) && |c.readBuffer| >= 5
    ensures var (d, text) := (Client.Got(c, data, now), c.resultBuffer + data);
      && d.readPos == 0 && d.bytesSent == c.bytesSent && d.downloads == c.downloads
          && d.bytesReceived == c.bytesReceived
      && d.totalChunks == c.totalChunks && d.chunkSize == c.chunkSize
      && (if EndsWith(text, [NL]) then d.phase.PerfCompleted? && d.uploads == c.uploads + ParseTimeResult(text)
          else d.phase == c.phase && d.resultBuffer == text && d.uploads == c.uploads)
  {
    hide ParseTimeResult;
    assert Store(c.readBuffer, 0, data)[..|data|] == data;
  }

  /** Text that ends in a newline holds at least the first line of what it is part of. */
  lemma HoldsFirstLine(line: Bytes, all: Bytes, got: Bytes)
    requires IsLine(line) && line <= all && got <= all && EndsWith(got, [NL])
    ensures line <= got && got == line + got[|line|..]
  {
    assert got[|got| - 1] == all[|got| - 1] == NL;
    assert forall i | 0 <= i < |line| :: line[i] == all[i];
  }

  lemma RestTaken(text: Bytes, down: Bytes, promise: Bytes, n: nat)
    requires n <= |down|
    ensures text + down + promise == (text + down[..n]) + down[n..] + promise
    ensures text + down[..n] <= text + down + promise
  {
    assert down == down[..n] + down[n..];
  }

  /** The answer starts with the result line and ends in a newline. */
  lemma ReportShape(t: Tables, size: nat, series: seq<Sample>)
    ensures TimeResult(series) <= Report(t, size, series) && EndsWith(Report(t, size, series), [NL])
  {
    hide TimeResult;
    AcceptMarker();
    assert ACCEPT[50] == NL;
    var body := Server.Overlay(Server.TableChunk(t.last, size), TimeResult(series));
    assert (body + ACCEPT)[..|TimeResult(series)|] == body[..|TimeResult(series)|] == TimeResult(series);
  }

  /** The line is not all there yet. */
  lemma ResultPart(cfg: Config, c: Client.Client, d: Client.Client, s: Server.Server, up: Bytes, down: Bytes,
    series: seq<Sample>, n: nat)
    requires Resulting(cfg, c, s, up, down, series) && n <= |down| && d.readPos == 0 && d.uploads == c.uploads
        && d.chunkSize == c.chunkSize
    requires d.resultBuffer == c.resultBuffer + down[..n] && !EndsWith(d.resultBuffer, [NL])
    ensures Resulting(cfg, d, s, up, down[n..], series)
  {
    hide Promise, Report, AfterUpload, EndsWith;
    RestTaken(c.resultBuffer, down, Promise(cfg.server, s), n);
  }

  /** The client parses as soon as what it holds ends in a newline. */
  lemma ResultWhole(cfg: Config, c: Client.Client, d: Client.Client, s: Server.Server, up: Bytes, down: Bytes,
    series: seq<Sample>, n: nat)
    requires Resulting(cfg, c, s, up, down, series) && n <= |down| && EndsWith(c.resultBuffer + down[..n], [NL])
    requires d.chunkSize == c.chunkSize && d.uploads == c.uploads + ParseTimeResult(c.resultBuffer + down[..n])
    ensures AfterUpload(cfg.server, s, up, series) && Parsed(cfg.client, d, c.resultBuffer + down[..n], series)
  {
    hide Promise, Report, AfterUpload, ParseTimeResult;
    var text := c.resultBuffer + down[..n];
    RestTaken(c.resultBuffer, down, Promise(cfg.server, s), n);
    assert [] + ParseTimeResult(text) == ParseTimeResult(text);
  }

  lemma ResultFacts(cfg: Config, c: Client.Client, s: Server.Server, up: Bytes, down: Bytes, series: seq<Sample>)
    requires Resulting(cfg, c, s, up, down, series)
    ensures c.readPos == 0 && c.uploads == []
  {
    hide Promise, Report, AfterUpload, EndsWith;
  }

  lemma ClientReadResulting(cfg: Config, x: Sess, n: nat)
    requires Resulting(cfg, x.c, x.s, x.up, x.down, x.series) && CanTake(x.c, x.down, n) && x.c.phase.PerfReceiveTime?
    requires !x.s.phase.ResultReceive?
    ensures Paired(cfg, AfterClientRead(x, n))
  {
    hide Client.Got, Parsed, ParseTimeResult, AfterUpload, Resulting, EndsWith, CanTake, Asking, Answering, Uploading,
      Downloading, Quiet, ResultCounts, TimeCounts;
    var c, down := x.c, x.down;
    ResultFacts(cfg, c, x.s, x.up, down, x.series);
    TakesText(c, down, n);
    ReadNoChunk(x, n);
    GotResultText(c, down[..n], x.now);
    if EndsWith(c.resultBuffer + down[..n], [NL]) {
      ResultWhole(cfg, c, Client.Got(c, down[..n], x.now), x.s, x.up, down, x.series, n);
    } else {
      ResultPart(cfg, c, Client.Got(c, down[..n], x.now), x.s, x.up, down, x.series, n);
    }
  }

  lemma TakesText(c: Client.Client, down: Bytes, n: nat)
    requires CanTake(c, down, n)
    ensures 0 < n <= |down| && n <= Client.Room(c) && |c.readBuffer| >= 5
  {
  }

  // ----- all client reads

  lemma TakePairs(cfg: Config, x: Sess, n: nat)
    requires Paired(cfg, x) && CanTake(x.c, x.down, n)
    ensures x.c.phase.PerfReceiveTime? ==> Resulting(cfg, x.c, x.s, x.up, x.down, x.series) && !x.s.phase.ResultReceive?
    ensures x.c.phase.ChunksReceiveChunk? || x.c.phase.TimeReceiveChunk? ==>
        Downloading(cfg, x.c, x.s, x.up, x.down, x.k)
    ensures x.c.phase.TimeReceiveChunk? ==> TimeCounts(x.c, x.k, x.now)
    ensures x.c.phase.PerfReceiveOk? || Collects(x.c.phase) ==> Answering(cfg.server, x.c, x.s, x.up, x.down)
    ensures x.c.phase.PerfReceiveOk? ==> UploadReady(x.c, x.s, x.k)
    ensures x.c.phase.PerfReceiveTime? || x.c.phase.ChunksReceiveChunk? || x.c.phase.TimeReceiveChunk?
        || x.c.phase.PerfReceiveOk? || Collects(x.c.phase)
  {
    hide Promise, Reply, Request, Unsent, SText, CText, WritePosOk, SentDown, SentUp, Rep, Parsed, TimeResult, Series,
      UploadReady, ChunkCounts, ResultCounts, TimeCounts, AfterUpload;
  }

  lemma ClientReadPaired(cfg: Config, x: Sess, n: nat)
    requires Inv(cfg, x) && CanTake(x.c, x.down, n)
    ensures Paired(cfg, AfterClientRead(x, n))
  {
    hide Paired, Answering, Downloading, Resulting, Client.Got, CanTake, TimeCounts, OnRamp, ValidTables, ServerOk,
      ClientOk, UploadReady, Uploading;
    TakePairs(cfg, x, n);
    if Collects(x.c.phase) {
      ClientReadAnswering(cfg, x, n);
    } else if x.c.phase.PerfReceiveTime? {
      ClientReadResulting(cfg, x, n);
    } else if x.c.phase.PerfReceiveOk? {
      OnRampInTable(Round(x.c.totalChunks, x.c.chunkSize));
      AnsweringFacts(cfg.server, x.c, x.s, x.up, x.down);
      ReadNoChunk(x, n);
      ClientReadPerfOk(cfg, x.c, x.s, x.down, x.k, n, x.now);
      PairedUpload(cfg, AfterClientRead(x, n));
    } else {
      ClientReadDownloading(cfg, x, n);
    }
  }

  lemma PairedUpload(cfg: Config, x: Sess)
    requires x.c.phase.PerfSendChunks? && Uploading(cfg, x.c, x.s, x.up, x.down, x.k) && ResultCounts(x.s, x.k, x.now)
    ensures Paired(cfg, x)
  {
    hide Uploading, ResultCounts;
  }

  /** What a client read must keep besides the pairing. */
  ghost predicate ReadKeeps(c: Client.Client, d: Client.Client, s: Server.Server, now: nat) {
    && (ClientOk(c, now) ==> ClientOk(d, now)) && (NotStarted(c, s) ==> NotStarted(d, s))
    && (OnRamp(Round(c.totalChunks, c.chunkSize)) ==> OnRamp(Round(d.totalChunks, d.chunkSize)))
  }

  lemma StoredKeeps(c: Client.Client, s: Server.Server, data: Bytes, now: nat)
    requires c.readPos + |data| <= |c.readBuffer|
    ensures ReadKeeps(c, Client.GotText(c, data), s, now)
  {
  }

  lemma AdvanceKeeps(c: Client.Client, s: Server.Server, time: nat, now: nat)
    requires Collects(c.phase) && c.writePos == 0
    ensures ReadKeeps(c, Advance(c, time, now), s, now)
  {
    hide Advance, ClientOk, OnRamp;
    if ClientOk(c, now) { AdvanceOk(c, time, now); }
    if OnRamp(Round(c.totalChunks, c.chunkSize)) { AdvanceOnRamp(c, time, now); }
    AdvanceShape(c, time, now);
  }

  lemma AnsweringKeeps(t: Tables, c: Client.Client, s: Server.Server, down: Bytes, n: nat, now: nat)
    requires Answering(t, c, s, [], down) && CanTake(c, down, n) && Collects(c.phase)
    ensures ReadKeeps(c, Client.Got(c, down[..n], now), s, now)
  {
    hide Answering, Client.Got, Client.GotText, Promise, Reply, CanTake, Server.TimeOf, Advance, ClientOk,
      NotStarted, OnRamp;
    AnsweringFacts(t, c, s, [], down);
    TakeFacts(c, down, n, now);
    TextStored(c, down[..n]);
    StoredKeeps(c, s, down[..n], now);
    if CText(c) + down[..n] != Reply(c.phase, Server.TimeOf(s)) {
      ClientReadPart(t, c, s, down, n, now);
    } else {
      ClientReadWhole(t, c, s, down, n, now);
      AdvanceKeeps(Client.GotText(c, down[..n]), s, Server.TimeOf(s), now);
    }
  }

  lemma DownloadKeeps(c: Client.Client, s: Server.Server, data: Bytes, now: nat)
    requires (c.phase.ChunksReceiveChunk? || c.phase.TimeReceiveChunk?) && !s.phase.CommandReceive?
    requires 0 < |data| <= Client.Room(c) && |c.readBuffer| >= 5
    ensures ReadKeeps(c, Client.Got(c, data, now), s, now)
  {
    hide OnRamp, Client.Elapsed;
  }

  lemma ResultKeeps(c: Client.Client, s: Server.Server, data: Bytes, now: nat)
    requires (c.phase.PerfReceiveTime? || (c.phase.PerfReceiveOk? && |data| == 3)) && c.readPos == 0
    requires 0 < |data| <= Client.Room(c) && |c.readBuffer| >= 5
    ensures ReadKeeps(c, Client.Got(c, data, now), s, now)
  {
    hide OnRamp, ParseTimeResult;
  }

  lemma TakesOk(t: Tables, c: Client.Client, s: Server.Server, down: Bytes, n: nat)
    requires c.phase.PerfReceiveOk? && Answering(t, c, s, [], down) && CanTake(c, down, n)
    ensures n == 3 && c.readPos == 0
  {
    hide B, Server.Message;
    assert |OK| == 3;
    OkPromise(t, s);
    assert CText(c) == [];
  }

  lemma ClientReadKeeps(cfg: Config, x: Sess, n: nat)
    requires Inv(cfg, x) && CanTake(x.c, x.down, n)
    ensures ReadKeeps(x.c, Client.Got(x.c, x.down[..n], x.now), x.s, x.now)
  {
    hide Paired, Answering, Downloading, Client.Got, CanTake, TimeCounts, OnRamp, ValidTables, ServerOk, ClientOk,
      UploadReady, Uploading, ReadKeeps;
    TakePairs(cfg, x, n);
    TakesText(x.c, x.down, n);
    if Collects(x.c.phase) {
      AnsweringFacts(cfg.server, x.c, x.s, x.up, x.down);
      AnsweringKeeps(cfg.server, x.c, x.s, x.down, n, x.now);
    } else if x.c.phase.PerfReceiveTime? {
      ResultKeeps(x.c, x.s, x.down[..n], x.now);
    } else if x.c.phase.PerfReceiveOk? {
      AnsweringFacts(cfg.server, x.c, x.s, x.up, x.down);
      TakesOk(cfg.server, x.c, x.s, x.down, n);
      ResultKeeps(x.c, x.s, x.down[..n], x.now);
    } else {
      DownFacts(cfg, x.c, x.s, x.up, x.down, x.k, n);
      DownloadKeeps(x.c, x.s, x.down[..n], x.now);
    }
  }

  lemma ClientReadInv(cfg: Config, x: Sess, n: nat)
    requires Inv(cfg, x) && CanTake(x.c, x.down, n)
    ensures Inv(cfg, AfterClientRead(x, n))
  {
    hide Paired, Client.Got, CanTake, OnRamp, ValidTables, ServerOk, ClientOk, NotStarted;
    TakesText(x.c, x.down, n);
    ClientReadPaired(cfg, x, n);
    ClientReadKeeps(cfg, x, n);
    if x.c.phase.ChunksReceiveChunk? || x.c.phase.TimeReceiveChunk? {
      ReadChunk(x, n);
    } else {
      ReadNoChunk(x, n);
    }
  }
}
