/** Any number of GETCHUNKS on one connection of the mio server: each is answered
    like the first, on any schedule of the socket. */
module ChunkRounds {
  import opened Text
  import opened Wire
  import opened Chunks
  import opened Commands
  import opened CommandLines
  import opened ServerMachine
  import PutRuns
  import opened ChunkRuns

  /** A connection, the commands the client has still to finish, how much of the
      line of the first it has sent, what the server has written for it, and the
      whole answers to the commands before. */
  datatype Serving = Serving(s: Server, todo: seq<(nat, nat)>, sent: nat, out: Bytes, done: seq<Bytes>)

  function Line(x: Serving): Bytes { if x.todo == [] then [] else ChunksLine(x.todo[0].0, x.todo[0].1) }

  /** What the client sends next: the rest of its line, or its OK. */
  function Incoming(x: Serving): Bytes {
    if x.s.phase.CommandReceive?
        && x.sent <= |Line(x)| then Line(x)[x.sent..] else if x.s.phase.ChunksReceiveOk? then OK else []
  }

  predicate Able(t: Tables, x: Serving, l: PutRuns.Label) {
    match l
    case Enters(now) => !x.s.phase.Closed?
    case Writes(n, now) =>
      && WritePhase(x.s.phase) && x.s.inCall && x.s.writePos <= |Message(t, x.s)| && 0 < n <= |Offer(t, x.s)|
      && (Atomic(x.s.phase) ==> n == |Offer(t, x.s)|)
    case Reads(n, now) =>
      ReadPhase(x.s.phase) && 0 < n <= Room(x.s) && n <= |Incoming(x)| && (Atomic(x.s.phase) ==> n == |Incoming(x)|)
  }

  function Next(t: Tables, x: Serving, l: PutRuns.Label): Serving
    requires Able(t, x, l)
  {
    match l
    case Enters(now) => x.(s := Enter(t, x.s, now))
    case Writes(n, now) =>
      var y := x.(s := Wrote(t, x.s, n, now), out := x.out + Offer(t, x.s)[..n]);
      if y.s.phase.CommandReceive?
          && x.todo != [] then y.(todo := x.todo[1..], sent := 0, out := [], done := x.done + [y.out]) else y
    case Reads(n, now) =>
      x.(s := Got(x.s, Incoming(x)[..n], now), sent := if x.s.phase.CommandReceive? then x.sent + n else x.sent)
  }

  ghost predicate Rounds(t: Tables, xs: seq<Serving>, ls: seq<PutRuns.Label>) {
    && |xs| == |ls| + 1
    && forall i | 0 <= i < |ls| :: Able(t, xs[i], ls[i]) && xs[i + 1] == Next(t, xs[i], ls[i])
  }

  /** The server waits for a command, whatever came before. */
  predicate AtPrompt(s: Server) {
    s.phase.CommandReceive? && s.readPos == 0 && s.writePos == 0 && s.processed == 0 && |s.readBuffer| == 8192
  }

  predicate Good(cmd: (nat, nat)) { 0 < cmd.0 < U64 && cmd.1 in SIZES }

  function Answer(t: Tables, cmd: (nat, nat), time: nat): Bytes
    requires ValidTables(t) && Good(cmd)
  {
    AllChunks(t, cmd.0, cmd.1) + Time(time) + ACCEPT
  }

  predicate AllGood(cmds: seq<(nat, nat)>) { forall i | 0 <= i < |cmds| :: Good(cmds[i]) }

  /** The answers so far, each with some time. */
  ghost predicate Answered(t: Tables, cmds: seq<(nat, nat)>, done: seq<Bytes>)
    requires ValidTables(t) && AllGood(cmds)
  {
    |done| <= |cmds| && forall i | 0 <= i < |done| :: IsAnswer(t, cmds[i], done[i])
  }

  ghost predicate IsAnswer(t: Tables, cmd: (nat, nat), a: Bytes)
    requires ValidTables(t) && Good(cmd)
  {
    exists time :: a == Answer(t, cmd, time)
  }

  // ----- the invariant

  predicate Listening(x: Serving) {
    var s := x.s;
    && s.phase.CommandReceive? && s.writePos == 0 && s.processed == 0 && x.out == [] && (x.done != [] ==> s.clock.None?)
    && s.readPos == x.sent <= 8192 == |s.readBuffer|
    && (x.todo == [] ==> x.sent == 0)
    && (x.todo != [] ==> x.sent < |Line(x)| && s.readBuffer[..s.readPos] == Line(x)[..x.sent])
  }

  predicate Timing(t: Tables, x: Serving)
    requires ValidTables(t) && x.todo != [] && Good(x.todo[0])
  {
    var s := x.s;
    && s.phase.ChunksSendTime? && s.writePos == 0 && s.readPos == 0 && s.processed == 0 && (s.inCall ==> s.clock.None?)
    && x.out == AllChunks(t, x.todo[0].0, x.todo[0].1)
  }

  predicate Prompting(t: Tables, x: Serving)
    requires ValidTables(t) && x.todo != [] && Good(x.todo[0])
  {
    var s := x.s;
    && s.phase.CommandSend? && s.writePos < |ACCEPT| && s.readPos == 0 && s.processed == 0 && s.clock.None?
    && x.out == AllChunks(t, x.todo[0].0, x.todo[0].1) + Time(TimeOf(s)) + ACCEPT[..s.writePos]
  }

  ghost predicate RoundInv(t: Tables, cmds: seq<(nat, nat)>, x: Serving)
    requires ValidTables(t) && AllGood(cmds)
  {
    && Answered(t, cmds, x.done) && x.todo == cmds[|x.done|..] && |x.s.readBuffer| == 8192
    && (x.todo == [] ==> x.s.phase.CommandReceive?) && (x.todo != [] ==> Good(x.todo[0]))
    && match x.s.phase
       case CommandReceive => Listening(x)
       case ChunksSend | ChunksSendLast | ChunksReceiveOk =>
         SendInv(t, Sending(x.s, x.out), x.todo[0].0, x.todo[0].1) && x.s.readPos == 0
       case ChunksSendTime => Timing(t, x)
       case CommandSend => Prompting(t, x)
       case _ => false
  }

  lemma SizeInRange(size: nat)
    requires size in SIZES
    ensures InRange(size)
  {
  }

  lemma LineShort(cmd: (nat, nat))
    requires Good(cmd)
    ensures var line := ChunksLine(cmd.0, cmd.1);
        IsLine(line) && |line| <= 100 && ParseCommand(line) == GetChunks(cmd.0, cmd.1)
  {
    SizeInRange(cmd.1);
    ShortLines(cmd.0, cmd.1);
    ParsesGetChunks(cmd.0, cmd.1);
  }

  /** A piece of a line read at the prompt: the command starts when it is whole. */
  lemma HearPiece(s: Server, line: Bytes, sent: nat, n: nat, now: nat)
    requires s.phase.CommandReceive? && s.readPos == sent && 0 < n && sent + n <= |line| <= |s.readBuffer|
        && IsLine(line)
    requires s.readBuffer[..sent] == line[..sent]
    ensures n <= Room(s)
    ensures var piece := line[sent..][..n];
      var g := s.(readBuffer := Store(s.readBuffer, sent, piece), readPos := sent + n);
      && g.readBuffer[..sent + n] == line[..sent + n]
      && Got(s, piece, now) == if sent + n == |line| then Apply(g, ParseCommand(line)) else g
  {
    hide ParseCommand, Store, Got, Apply, IsLine;
    var piece, rest := line[sent..][..n], line[sent + n..];
    assert line == line[..sent] + (piece + rest);
    LastOfLine(line[..sent], piece, rest);
    OnePiece(s, piece, now);
    StoreTwice(s.readBuffer, sent, piece, []);
    assert line[..sent] + piece == line[..sent + n];
    assert line[..|line|] == line;
  }

  lemma HearShape(t: Tables, x: Serving, l: PutRuns.Label)
    requires Listening(x) && x.todo != [] && Good(x.todo[0]) && Able(t, x, l) && l.Reads?
    ensures x.sent + l.n <= |Line(x)| <= 100
    ensures var s, piece := x.s, Line(x)[x.sent..][..l.n];
      var g := s.(readBuffer := Store(s.readBuffer, x.sent, piece), readPos := x.sent + l.n);
      && g.readBuffer[..g.readPos] == Line(x)[..x.sent + l.n]
      && Next(t, x, l) ==
          x.(sent := x.sent + l.n, s := if x.sent + l.n == |Line(x)|
          then Apply(g, GetChunks(x.todo[0].0, x.todo[0].1)) else g)
  {
    hide ParseCommand, Store, Got, Apply, Line, Good, IsLine;
    LineIs(x);
    HearPiece(x.s, Line(x), x.sent, l.n, l.now);
  }

  lemma LineIs(x: Serving)
    requires x.todo != [] && Good(x.todo[0])
    ensures IsLine(Line(x)) && |Line(x)| <= 100 && ParseCommand(Line(x)) == GetChunks(x.todo[0].0, x.todo[0].1)
  {
    hide ChunksLine, ParseCommand, IsLine, Good;
    LineShort(x.todo[0]);
  }

  lemma HearStep(t: Tables, cmds: seq<(nat, nat)>, x: Serving, l: PutRuns.Label)
    requires ValidTables(t) && AllGood(cmds) && RoundInv(t, cmds, x) && x.s.phase.CommandReceive? && Able(t, x, l)
        && l.Reads?
    ensures RoundInv(t, cmds, Next(t, x, l))
  {
    hide ChunksLine, ParseCommand, Answered, ValidTables, Store, SendInv, Able, Next, Good, Message;
    HasCommand(t, x, l);
    HearShape(t, x, l);
    var y := Next(t, x, l);
    if x.sent + l.n == |Line(x)| {
      GoodFacts(x.todo[0]);
      SendStarts(t, Sending(y.s, []), x.todo[0].0, x.todo[0].1);
    }
  }

  lemma HasCommand(t: Tables, x: Serving, l: PutRuns.Label)
    requires x.s.phase.CommandReceive? && Able(t, x, l) && l.Reads?
    ensures x.todo != []
  {
  }

  lemma GoodFacts(cmd: (nat, nat))
    requires Good(cmd)
    ensures 0 < cmd.0 < U64 && cmd.1 in SIZES && InRange(cmd.1)
  {
    SizeInRange(cmd.1);
  }

  lemma SendingStep(t: Tables, cmds: seq<(nat, nat)>, x: Serving, l: PutRuns.Label)
    requires ValidTables(t) && AllGood(cmds) && RoundInv(t, cmds, x)
        && (x.s.phase.ChunksSend? || x.s.phase.ChunksSendLast?) && Able(t, x, l)
    ensures RoundInv(t, cmds, Next(t, x, l))
  {
    hide Answered, ValidTables, SendInv, Message, Offer, Good;
    var z := Sending(x.s, x.out);
    GoodFacts(x.todo[0]);
    SendStep(t, z, x.todo[0].0, x.todo[0].1, l);
    SendKeeps(t, z, x.todo[0].0, x.todo[0].1, l);
  }

  lemma SendKeeps(t: Tables, x: Sending, n: nat, size: nat, l: PutRuns.Label)
    requires SendInv(t, x, n, size) && Enabled(t, x, l)
    ensures var y := Step(t, x, l);
      && (y.s.phase.ChunksSend? || y.s.phase.ChunksSendLast? || y.s.phase.ChunksReceiveOk?)
      && y.s.readBuffer == x.s.readBuffer && y.s.readPos == x.s.readPos
  {
    hide Message, AllChunks, Rep;
  }

  /** The client's OK comes in one piece. */
  lemma OkStep(t: Tables, cmds: seq<(nat, nat)>, x: Serving, l: PutRuns.Label)
    requires ValidTables(t) && AllGood(cmds) && RoundInv(t, cmds, x) && x.s.phase.ChunksReceiveOk? && Able(t, x, l)
    ensures RoundInv(t, cmds, Next(t, x, l))
  {
    hide Answered, ValidTables, Elapsed;
    if l.Reads? {
      assert |OK| == 3 && OK[..3] == OK;
      assert GotFront(x.s, OK).readBuffer[..3] == OK;
    }
  }

  lemma TimeStep(t: Tables, cmds: seq<(nat, nat)>, x: Serving, l: PutRuns.Label)
    requires ValidTables(t) && AllGood(cmds) && RoundInv(t, cmds, x) && x.s.phase.ChunksSendTime? && Able(t, x, l)
    ensures RoundInv(t, cmds, Next(t, x, l))
  {
    hide Answered, ValidTables, Time, AllChunks;
    if l.Writes? {
      var line := Time(TimeOf(x.s));
      assert line[..|line|] == line && x.out + line + ACCEPT[..0] == x.out + line;
    }
  }

  lemma PromptStep(t: Tables, cmds: seq<(nat, nat)>, x: Serving, l: PutRuns.Label)
    requires ValidTables(t) && AllGood(cmds) && RoundInv(t, cmds, x) && x.s.phase.CommandSend? && Able(t, x, l)
    ensures RoundInv(t, cmds, Next(t, x, l))
  {
    hide Time, AllChunks, ChunksLine;
    if l.Writes? {
      var (s, cmd) := (x.s, x.todo[0]);
      var front := AllChunks(t, cmd.0, cmd.1) + Time(TimeOf(s));
      PutRuns.AppendRest(front, ACCEPT, s.writePos, l.n);
      if s.writePos + l.n == |ACCEPT| {
        var y := Next(t, x, l);
        assert ACCEPT[..|ACCEPT|] == ACCEPT;
        assert y.done == x.done + [Answer(t, cmd, TimeOf(s))];
        assert IsAnswer(t, cmd, Answer(t, cmd, TimeOf(s)));
        NextPrompt(y);
      }
    }
  }

  lemma NextPrompt(y: Serving)
    ensures y.todo != [] && Good(y.todo[0]) ==> |Line(y)| > 0
    ensures y.sent == y.s.readPos == 0 && |y.s.readBuffer| == 8192 ==>
        y.s.readBuffer[..y.s.readPos] == Line(y)[..y.sent]
  {
    if y.todo != [] && Good(y.todo[0]) {
      LineShort(y.todo[0]);
    }
  }

  lemma RoundStep(t: Tables, cmds: seq<(nat, nat)>, x: Serving, l: PutRuns.Label)
    requires ValidTables(t) && AllGood(cmds) && RoundInv(t, cmds, x) && Able(t, x, l)
    ensures RoundInv(t, cmds, Next(t, x, l))
  {
    hide RoundInv, Able, Next;
    assert RoundPhase(x.s.phase) by { KnownPhase(t, cmds, x); }
    match x.s.phase {
      case CommandReceive =>
        HearsOnly(t, cmds, x, l);
        if l.Reads? {
          HearStep(t, cmds, x, l);
        }
      case ChunksReceiveOk => OkStep(t, cmds, x, l);
      case ChunksSendTime => TimeStep(t, cmds, x, l);
      case CommandSend => PromptStep(t, cmds, x, l);
      case _ => SendingStep(t, cmds, x, l);
    }
  }

  predicate RoundPhase(p: Phase) {
    p.CommandReceive? || p.ChunksSend? || p.ChunksSendLast? || p.ChunksReceiveOk? || p.ChunksSendTime? || p.CommandSend?
  }

  lemma KnownPhase(t: Tables, cmds: seq<(nat, nat)>, x: Serving)
    requires ValidTables(t) && AllGood(cmds) && RoundInv(t, cmds, x)
    ensures RoundPhase(x.s.phase)
  {
    hide Answered, ValidTables, SendInv;
  }

  lemma HearsOnly(t: Tables, cmds: seq<(nat, nat)>, x: Serving, l: PutRuns.Label)
    requires ValidTables(t) && AllGood(cmds) && RoundInv(t, cmds, x) && Able(t, x, l) && x.s.phase.CommandReceive?
    ensures !l.Reads? ==> RoundInv(t, cmds, Next(t, x, l))
  {
    hide Answered, ValidTables;
  }

  lemma {:induction false} RunRounds(t: Tables, cmds: seq<(nat, nat)>, xs: seq<Serving>, ls: seq<PutRuns.Label>, i: nat)
    requires ValidTables(t) && AllGood(cmds) && Rounds(t, xs, ls) && i < |xs|
    requires AtPrompt(xs[0].s) && xs[0] == Serving(xs[0].s, cmds, 0, [], [])
    ensures RoundInv(t, cmds, xs[i])
  {
    hide RoundInv, ValidTables, Able, Next;
    if i == 0 {
      assert RoundInv(t, cmds, xs[0]) by { RoundsBegin(t, cmds, xs[0]); }
    } else {
      RunRounds(t, cmds, xs, ls, i - 1);
      RoundStep(t, cmds, xs[i - 1], ls[i - 1]);
    }
  }

  lemma RoundsBegin(t: Tables, cmds: seq<(nat, nat)>, x: Serving)
    requires ValidTables(t) && AllGood(cmds) && AtPrompt(x.s) && x == Serving(x.s, cmds, 0, [], [])
    ensures RoundInv(t, cmds, x)
  {
    hide ValidTables;
    NextPrompt(x);
    assert cmds[0..] == cmds;
  }

  /** Any sequence of GETCHUNKS on one connection behaves alike. On every schedule
      of the socket, from any prompt: every finished answer is n * size bytes with
      0xFF at the end of chunk n only, a time and the prompt; and the command after
      it finds the chunk counter 0 and the clock off. */
  lemma EveryRoundAlike(t: Tables, cmds: seq<(nat, nat)>, xs: seq<Serving>, ls: seq<PutRuns.Label>, i: nat)
    requires ValidTables(t) && AllGood(cmds) && Rounds(t, xs, ls) && i < |xs|
    requires AtPrompt(xs[0].s) && xs[0] == Serving(xs[0].s, cmds, 0, [], [])
    ensures var x := xs[i];
      && |x.done| <= |cmds| && x.todo == cmds[|x.done|..] && !x.s.phase.Closed?
      && (forall j | 0 <= j < |x.done| :: IsAnswer(t, cmds[j], x.done[j]))
      && (x.s.phase.CommandReceive? && x.sent == 0 ==> AtPrompt(x.s) && (x.done != [] ==> x.s.clock.None?))
  {
    hide Answer, SendInv;
    RunRounds(t, cmds, xs, ls, i);
  }
}
