/** The times that the uploads and repeated GETCHUNKS answer with. They are
    measured by a clock kept beside the run, from its steps alone. */
module CommandTimes {
  import opened Text
  import opened Wire
  import opened Chunks
  import opened Commands
  import opened ServerMachine
  import opened PutRuns
  import opened ChunkRounds
  import opened TimeResults
  import NoResultRuns
  import ResultRuns
  import ChunkRuns

  /** Time since a start; a clock that was never started, or is ahead, reads 0. */
  function Since(start: Option<nat>, now: nat): nat {
    match start
    case Some(b) => if b <= now then now - b else 0
    case None => 0
  }

  // ----- uploads

  predicate InUpload(p: Phase) { InPut(p) || NoResultRuns.InNoResult(p) || ResultRuns.InResult(p) }

  /** A path of one of the three commands. */
  ghost predicate Uploads(t: Tables, xs: seq<Upload>, ls: seq<Label>) {
    && |xs| == |ls| + 1
    && forall i | 0 <= i < |ls| ::
      InUpload(xs[i].s.phase) && Acts(t, xs[i], ls[i]) && xs[i + 1] == Step(t, xs[i], ls[i])
  }

  /** When the upload began: PUT at the first call of its handler unless a clock was
      running, the others when their OK was out. */
  function Began(xs: seq<Upload>, ls: seq<Label>, i: nat): Option<nat>
    requires |xs| == |ls| + 1 && i < |xs|
  {
    if i == 0 then xs[0].s.clock
    else NoteUpload(xs[i - 1].s.phase, xs[i].s.phase, ls[i - 1], Began(xs, ls, i - 1))
  }

  function NoteUpload(p: Phase, q: Phase, l: Label, began: Option<nat>): Option<nat> {
    match l
    case Enters(now) => if (p.PutSendOk? || p.ResultSendOk?) && began.None? then Some(now) else began
    case Writes(n, now) => if (p.NoResultSendOk? || p.ResultSendOk?) && q != p then Some(now) else began
    case Reads(n, now) => began
  }

  /** The time from there to the read that completed each chunk. */
  function ChunkTimes(xs: seq<Upload>, ls: seq<Label>, i: nat): seq<nat>
    requires |xs| == |ls| + 1 && i < |xs|
  {
    if i == 0 then [] else
    var (x, l) := (xs[i - 1], ls[i - 1]);
    ChunkTimes(xs, ls, i - 1) +
    if l.Reads? && x.s.readPos + l.n == x.s.chunkSize then [Since(Began(xs, ls, i - 1), l.now)] else []
  }

  /** Past the point where the upload begins. */
  predicate ClockRuns(s: Server) {
    !s.phase.NoResultSendOk? && (s.phase.PutSendOk? || s.phase.ResultSendOk? ==> s.inCall)
  }

  lemma UploadClock(t: Tables, x: Upload, l: Label)
    requires InUpload(x.s.phase) && Acts(t, x, l) && (ClockRuns(x.s) ==> x.s.clock.Some?)
    ensures var y := Step(t, x, l);
      y.s.clock == NoteUpload(x.s.phase, y.s.phase, l, x.s.clock) && (ClockRuns(y.s) ==> y.s.clock.Some?)
  {
    hide Store, Boundary, Message, Elapsed, Zeros, Finish, Enter, Got, InUpload;
    match l {
      case Enters(now) => EnterClock(t, x.s, now);
      case Writes(n, now) => FinishClock(x.s, now);
      case Reads(n, now) =>
        assert InUpload(x.s.phase) && ReadPhase(x.s.phase);
        Reading(x.s.phase);
        GotClock(x.s, x.data[x.taken..x.taken + n], now);
    }
  }

  lemma Reading(p: Phase)
    requires InUpload(p) && ReadPhase(p)
    ensures p.PutReceive? || p.NoResultReceive? || p.ResultReceive?
  {
  }

  lemma EnterClock(t: Tables, s: Server, now: nat)
    requires InUpload(s.phase)
    ensures var y := Enter(t, s, now);
      y.phase == s.phase && (ClockRuns(s) && s.clock.Some? ==> y.clock.Some?)
      && y.clock == (if (s.phase.PutSendOk? || s.phase.ResultSendOk?) && s.clock.None? then Some(now) else s.clock)
  {
    hide Overlay, TimeResult;
  }

  lemma FinishClock(s: Server, now: nat)
    requires InUpload(s.phase) && WritePhase(s.phase)
    ensures var y := Finish(s, now);
      y.phase != s.phase && !y.phase.PutSendOk? && !y.phase.NoResultSendOk? && !y.phase.ResultSendOk?
      && y.clock == if s.phase.NoResultSendOk? || s.phase.ResultSendOk? then Some(now) else s.clock
  {
    hide Zeros, Elapsed;
  }

  lemma GotClock(s: Server, data: Bytes, now: nat)
    requires (s.phase.PutReceive? || s.phase.NoResultReceive? || s.phase.ResultReceive?) && 0 < |data| <= Room(s)
    ensures var y := Got(s, data, now);
      y.clock == s.clock && !y.phase.PutSendOk? && !y.phase.NoResultSendOk? && !y.phase.ResultSendOk?
  {
    hide Store, Boundary, Elapsed;
  }

  /** Every chunk of a run has the time from the start of the upload to its last byte. */
  lemma {:induction false} UploadTimed(t: Tables, xs: seq<Upload>, ls: seq<Label>, i: nat)
    requires Uploads(t, xs, ls) && i < |xs| && xs[0].ts == [] && !ClockRuns(xs[0].s)
    ensures xs[i].s.clock == Began(xs, ls, i) && (ClockRuns(xs[i].s) ==> Began(xs, ls, i).Some?)
    ensures xs[i].ts == ChunkTimes(xs, ls, i)
  {
    hide Acts, InUpload, ClockRuns, NoteUpload, Enter, Wrote, Got, Message;
    if i > 0 {
      UploadTimed(t, xs, ls, i - 1);
      UploadClock(t, xs[i - 1], ls[i - 1]);
      TimedRead(t, xs[i - 1], ls[i - 1]);
    }
  }

  lemma TimedRead(t: Tables, x: Upload, l: Label)
    requires Acts(t, x, l)
    ensures Step(t, x, l).ts ==
      x.ts + if l.Reads? && x.s.readPos + l.n == x.s.chunkSize then [Since(x.s.clock, l.now)] else []
  {
    hide Got, Enter, Wrote, Message, Room;
  }

  /** A PUT that is over has answered each chunk with the time from the start of the
      upload to that chunk, and the last of them again. */
  lemma PutTimes(t: Tables, xs: seq<Upload>, ls: seq<Label>, base: nat)
    requires PutRuns.Run(t, xs, ls) && Started(xs[0], base) && !InPut(xs[|ls|].s.phase)
    ensures var (x, ts) := (xs[|ls|], ChunkTimes(xs, ls, |ls|));
      Began(xs, ls, |ls|).Some? && ts != [] && x.out == Transcript(ts, base, xs[0].s.chunkSize, ts[|ts| - 1])
  {
    hide PutRuns.Acts, PutRuns.Step, Transcript, NoEnd;
    MioPut(t, xs, ls, base);
    assert Uploads(t, xs, ls);
    UploadTimed(t, xs, ls, |ls|);
  }

  /** A PUTNORESULT that is answered prints the time from its OK to its last chunk. */
  lemma NoResultTimes(t: Tables, xs: seq<Upload>, ls: seq<Label>)
    requires NoResultRuns.Run(t, xs, ls) && NoResultRuns.Begun(xs[0]) && xs[|ls|].s.phase.CommandSend?
    ensures var (x, ts) := (xs[|ls|], ChunkTimes(xs, ls, |ls|));
      Began(xs, ls, |ls|).Some? && ts != [] && x.out == OK + Time(ts[|ts| - 1])
  {
    hide PutRuns.Acts, PutRuns.Step, NoResultRuns.Over, OK, Time, BoundaryAt;
    NoResultRuns.RunKeeps(t, xs, ls, |ls|);
    assert Uploads(t, xs, ls);
    UploadTimed(t, xs, ls, |ls|);
    OverChunks(xs[|ls|]);
  }

  lemma OverChunks(x: Upload)
    requires NoResultRuns.Over(x)
    ensures x.ts != []
  {
    hide BoundaryAt, NoResultRuns.AllZero;
  }

  /** A PUTTIMERESULT on a connection that holds earlier rows and bytes. Once it is
      answered, the line has listed the earlier rows and one for each chunk with its
      time and the bytes so far; and a further row stays behind, whose time is that of
      the last write and whose bytes count the answer as if it had been received. */
  lemma ResultTimes(t: Tables, xs: seq<Upload>, ls: seq<Label>, prior: seq<Sample>, base: nat)
    requires ResultRuns.Results(t, xs, ls) && ResultRuns.Taken(xs[0], prior, base) && xs[|ls|].s.phase.CommandSend?
    ensures var (x, ts, size) := (xs[|ls|], ChunkTimes(xs, ls, |ls|), xs[0].s.chunkSize);
      var rows := ResultRuns.Rows(ts, prior, base, size);
      && ts != [] && size > 0 && |ts| * size == x.taken <= |xs[0].data| && Began(xs, ls, |ls|).Some? && ls != []
      && NoResultRuns.AllZero(xs[0].data, size, |ts| - 1) && BoundaryAt(xs[0].data, size, |ts| - 1) == 255
      && var answer := ResultRuns.Answer(xs[0].data, |ts|, size, rows);
         && x.out == OK + answer
         && x.s.received == rows + [(Since(Began(xs, ls, |ls|), ls[|ls| - 1].now), base + |ts| * size + |answer|)]
         && x.s.totalBytes == base + |ts| * size + |answer|
  {
    hide PutRuns.Acts, PutRuns.Step, OK, BoundaryAt, NoResultRuns.AllZero, ResultRuns.Rows, ResultRuns.Answer,
      ResultRuns.ResultInv;
    var n := |ls|;
    ResultRuns.RunKeeps(t, xs, ls, prior, base, n);
    assert Uploads(t, xs, ls);
    UploadTimed(t, xs, ls, n);
    FinalResult(xs[n], prior, base);
    FinalTime(t, xs, ls, prior, base);
  }

  lemma FinalTime(t: Tables, xs: seq<Upload>, ls: seq<Label>, prior: seq<Sample>, base: nat)
    requires ResultRuns.Results(t, xs, ls) && ResultRuns.Taken(xs[0], prior, base) && xs[|ls|].s.phase.CommandSend?
    ensures ls != [] && xs[|ls|].s.received != []
    ensures var rows := xs[|ls|].s.received; rows[|rows| - 1].0 == Since(Began(xs, ls, |ls|), ls[|ls| - 1].now)
  {
    hide PutRuns.Acts, PutRuns.Step, ResultRuns.ResultInv, OK;
    var n := |ls|;
    assert Uploads(t, xs, ls);
    UploadTimed(t, xs, ls, n - 1);
    ResultRuns.RunKeeps(t, xs, ls, prior, base, n - 1);
    ResultRuns.LastWrite(t, xs[n - 1], prior, base, ls[n - 1]);
  }

  lemma FinalResult(x: Upload, prior: seq<Sample>, base: nat)
    requires ResultRuns.ResultInv(x, prior, base) && x.s.phase.CommandSend?
    ensures x.s.received != [] && ResultRuns.Answered(x, prior, base) && x.ts != []
  {
    hide BoundaryAt, NoResultRuns.AllZero, ResultRuns.Rows, ResultRuns.Answer;
  }

  // ----- GETCHUNKS, again and again

  /** When the command under way began, the time it took, and those of the commands before. */
  datatype RoundClock = RoundClock(began: Option<nat>, took: nat, times: seq<nat>)

  /** The first call that sends chunks starts the clock; the client's OK ends the time,
      and the next call stops the clock. */
  function NoteRound(x: Serving, y: Serving, l: Label, g: RoundClock): RoundClock {
    match l
    case Enters(now) =>
      if x.s.phase.ChunksSend? && g.began.None? then g.(began := Some(now))
      else if x.s.phase.ChunksSendTime? then g.(began := None)
      else g
    case Reads(n, now) =>
      if x.s.phase.ChunksReceiveOk? && y.s.phase != x.s.phase then g.(took := Since(g.began, now)) else g
    case Writes(n, now) => if |y.done| > |x.done| then g.(times := g.times + [g.took]) else g
  }

  function RoundClockAt(xs: seq<Serving>, ls: seq<Label>, i: nat): RoundClock
    requires |xs| == |ls| + 1 && i < |xs|
  {
    if i == 0 then RoundClock(xs[0].s.clock, 0, [])
    else NoteRound(xs[i - 1], xs[i], ls[i - 1], RoundClockAt(xs, ls, i - 1))
  }

  /** The answers so far with the times of the clock. */
  ghost predicate TimedAnswers(t: Tables, cmds: seq<(nat, nat)>, x: Serving, g: RoundClock)
    requires ValidTables(t) && AllGood(cmds)
  {
    && |x.done| == |g.times| <= |cmds| && (forall j | 0 <= j < |x.done| :: x.done[j] == Answer(t, cmds[j], g.times[j]))
    && x.s.clock == g.began
    && (x.s.phase.ChunksSendTime? || x.s.phase.CommandSend? ==> x.s.timeNs == Some(g.took))
  }

  lemma RoundTimedStep(t: Tables, cmds: seq<(nat, nat)>, x: Serving, l: Label, g: RoundClock)
    requires ValidTables(t) && AllGood(cmds) && RoundInv(t, cmds, x) && Able(t, x, l) && TimedAnswers(t, cmds, x, g)
    ensures var y := Next(t, x, l); TimedAnswers(t, cmds, y, NoteRound(x, y, l, g))
  {
    hide RoundInv, Able, Next, Answer, ValidTables, NoteRound, TimedAnswers;
    KnownPhase(t, cmds, x);
    match l {
      case Enters(now) => RoundEnters(t, cmds, x, now, g);
      case Reads(n, now) => RoundReads(t, cmds, x, l, g);
      case Writes(n, now) =>
        if x.s.phase.CommandSend? {
          RoundAnswers(t, cmds, x, l, g);
        } else {
          RoundWrites(t, cmds, x, l, g);
        }
    }
  }

  lemma RoundEnters(t: Tables, cmds: seq<(nat, nat)>, x: Serving, now: nat, g: RoundClock)
    requires ValidTables(t) && AllGood(cmds) && RoundPhase(x.s.phase) && TimedAnswers(t, cmds, x, g)
    requires Able(t, x, Enters(now))
    ensures var y := Next(t, x, Enters(now)); TimedAnswers(t, cmds, y, NoteRound(x, y, Enters(now), g))
  {
    hide Answer, ValidTables;
  }

  lemma RoundReads(t: Tables, cmds: seq<(nat, nat)>, x: Serving, l: Label, g: RoundClock)
    requires ValidTables(t) && AllGood(cmds) && RoundPhase(x.s.phase) && TimedAnswers(t, cmds, x, g)
    requires RoundInv(t, cmds, x) && l.Reads? && Able(t, x, l)
    ensures var y := Next(t, x, l); TimedAnswers(t, cmds, y, NoteRound(x, y, l, g))
  {
    hide Answer, ValidTables, RoundInv, Store, ParseCommand, Able, Next, Line;
    ReadsWhileReading(t, x, l);
    if x.s.phase.CommandReceive? {
      RoundHears(t, cmds, x, l);
    } else {
      RoundOk(t, x, l);
    }
  }

  lemma ReadsWhileReading(t: Tables, x: Serving, l: Label)
    requires Able(t, x, l) && l.Reads?
    ensures ReadPhase(x.s.phase)
  {
  }

  /** A command line does not touch the clock. */
  lemma RoundHears(t: Tables, cmds: seq<(nat, nat)>, x: Serving, l: Label)
    requires ValidTables(t) && AllGood(cmds) && RoundInv(t, cmds, x) && x.s.phase.CommandReceive?
    requires l.Reads? && Able(t, x, l)
    ensures var y := Next(t, x, l);
      && y == x.(s := y.s, sent := y.sent) && y.s.clock == x.s.clock && y.s.timeNs == x.s.timeNs
      && !y.s.phase.ChunksSendTime? && !y.s.phase.CommandSend?
  {
    hide Answered, ValidTables, Store, Line, Able, Next, Good;
    HasCommand(t, x, l);
    HearShape(t, x, l);
  }

  lemma RoundOk(t: Tables, x: Serving, l: Label)
    requires x.s.phase.ChunksReceiveOk? && l.Reads? && Able(t, x, l)
    ensures var y := Next(t, x, l);
      && y == x.(s := y.s) && y.s.clock == x.s.clock && (y.s.phase.ChunksReceiveOk? || y.s.phase.ChunksSendTime?)
      && (y.s.phase.ChunksSendTime? ==> y.s.timeNs == Some(Since(x.s.clock, l.now)))
  {
    hide Store, IsOk;
  }

  lemma RoundWrites(t: Tables, cmds: seq<(nat, nat)>, x: Serving, l: Label, g: RoundClock)
    requires ValidTables(t) && AllGood(cmds) && RoundPhase(x.s.phase) && TimedAnswers(t, cmds, x, g)
    requires !x.s.phase.CommandSend? && l.Writes? && Able(t, x, l)
    ensures var y := Next(t, x, l); TimedAnswers(t, cmds, y, NoteRound(x, y, l, g))
  {
    hide Answer, ValidTables, Message;
  }

  lemma RoundAnswers(t: Tables, cmds: seq<(nat, nat)>, x: Serving, l: Label, g: RoundClock)
    requires ValidTables(t) && AllGood(cmds) && RoundInv(t, cmds, x) && TimedAnswers(t, cmds, x, g)
    requires x.s.phase.CommandSend? && l.Writes? && Able(t, x, l)
    ensures var y := Next(t, x, l); TimedAnswers(t, cmds, y, NoteRound(x, y, l, g))
  {
    hide Answer, ValidTables, ChunkRuns.AllChunks, Good, Answered, Next, Able, RoundInv;
    PromptShape(t, cmds, x, l);
  }

  lemma PromptShape(t: Tables, cmds: seq<(nat, nat)>, x: Serving, l: Label)
    requires ValidTables(t) && AllGood(cmds) && RoundInv(t, cmds, x) && x.s.phase.CommandSend?
    requires l.Writes? && Able(t, x, l)
    ensures |x.done| < |cmds|
    ensures var y := Next(t, x, l);
      && y.s.clock == x.s.clock && y.s.timeNs == x.s.timeNs && (y.s.phase.CommandSend? || y.s.phase.CommandReceive?)
      && (y.done == x.done || (y.done == x.done + [Answer(t, cmds[|x.done|], TimeOf(x.s))]))
  {
    hide Time, ChunkRuns.AllChunks, ChunksLine;
    PutRuns.AppendRest(ChunkRuns.AllChunks(t, x.todo[0].0, x.todo[0].1) + Time(TimeOf(x.s)), ACCEPT, x.s.writePos, l.n);
  }

  lemma {:induction false} RoundsTimed(t: Tables, cmds: seq<(nat, nat)>, xs: seq<Serving>, ls: seq<Label>, i: nat)
    requires ValidTables(t) && AllGood(cmds) && Rounds(t, xs, ls) && i < |xs|
    requires AtPrompt(xs[0].s) && xs[0] == Serving(xs[0].s, cmds, 0, [], [])
    ensures TimedAnswers(t, cmds, xs[i], RoundClockAt(xs, ls, i))
  {
    hide RoundInv, ValidTables, Able, Next, Answer, NoteRound;
    if i > 0 {
      RoundsTimed(t, cmds, xs, ls, i - 1);
      RunRounds(t, cmds, xs, ls, i - 1);
      RoundTimedStep(t, cmds, xs[i - 1], ls[i - 1], RoundClockAt(xs, ls, i - 1));
    }
  }

  /** Each finished GETCHUNKS of a connection is answered with the time from the first
      call that sent its chunks to its client's OK, whatever came before it. */
  lemma EveryRoundTimed(t: Tables, cmds: seq<(nat, nat)>, xs: seq<Serving>, ls: seq<Label>, i: nat)
    requires ValidTables(t) && AllGood(cmds) && Rounds(t, xs, ls) && i < |xs|
    requires AtPrompt(xs[0].s) && xs[0] == Serving(xs[0].s, cmds, 0, [], [])
    ensures var (done, times) := (xs[i].done, RoundClockAt(xs, ls, i).times);
      |done| == |times| <= |cmds| && forall j | 0 <= j < |done| :: done[j] == Answer(t, cmds[j], times[j])
  {
    hide ValidTables, Able, Next, Answer;
    RoundsTimed(t, cmds, xs, ls, i);
  }
}
