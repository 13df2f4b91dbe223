/** The client's threads in step: every thread goes through six waits on one
    reusable barrier, and shares its samples under a lock. */
module Runner {
  import opened Text

  const LAST: nat := 6

  /** What a thread does in a stage, before the wait that ends it. */
  datatype Work = Greeting | PreDownload | Ping | Download | DownloadSpeed | Upload | UploadSpeed

  function WorkOf(stage: nat): Work
    requires stage <= LAST
  {
    match stage
    case 0 => Greeting
    case 1 => PreDownload
    case 2 => Ping
    case 3 => Download
    case 4 => DownloadSpeed
    case 5 => Upload
    case _ => UploadSpeed
  }

  /** Where a thread is: the stage it works in, about to wait, waiting with the
      generation it saw, through, or lost: it could not connect, or panicked. */
  datatype Place =
    | Connecting
    | Working(stage: nat)
    | Arriving(stage: nat)
    | Waiting(stage: nat, seen: nat)
    | Done
    | Lost(stage: nat)

  /** `count` and `generation` of the barrier; the threads whose samples are in the
      shared statistics, in the order they came; what thread 0 computed from. */
  datatype State = State(
    at: seq<Place>, count: nat, generation: nat,
    downloads: seq<nat>, uploads: seq<nat>,
    downloadInput: Option<seq<nat>>, uploadInput: Option<seq<nat>>)

  datatype Label = Connect(i: nat, ok: bool) | Finish(i: nat, ok: bool) | Arrive(i: nat) | Resume(i: nat)

  ghost predicate Initial(x: State) {
    x.at != [] && (forall i | 0 <= i < |x.at| :: x.at[i].Connecting?)
    && x == State(x.at, 0, 0, [], [], None, None)
  }

  predicate Enabled(x: State, l: Label) {
    && l.i < |x.at|
    && match l
       case Connect(i, ok) => x.at[i].Connecting?
       case Finish(i, ok) => x.at[i].Working?
       case Arrive(i) => x.at[i].Arriving?
       case Resume(i) => x.at[i].Waiting? && x.at[i].seen != x.generation
  }

  function Move(x: State, i: nat, p: Place): State
    requires i < |x.at|
  {
    x.(at := x.at[i := p])
  }

  function Step(x: State, l: Label): State
    requires Enabled(x, l)
  {
    match l
    case Connect(i, ok) => Move(x, i, if ok then Working(0) else Lost(0))
    case Finish(i, ok) => if ok then Finished(x, i) else Move(x, i, Lost(x.at[i].stage))
    case Arrive(i) => Arrived(x, i)
    case Resume(i) => Move(x, i, Working(x.at[i].stage + 1))
  }

  /** The work of the stage is done. Only thread 0 pings and computes speeds. */
  function Finished(x: State, i: nat): State
    requires i < |x.at| && x.at[i].Working?
  {
    var s := x.at[i].stage;
    var y := Move(x, i, if s >= LAST then Done else Arriving(s));
    if s == 3 then y.(downloads := x.downloads + [i])
    else if s == 4 && i == 0 then y.(downloadInput := Some(x.downloads))
    else if s == 5 then y.(uploads := x.uploads + [i])
    else if s == 6 && i == 0 then y.(uploadInput := Some(x.uploads))
    else y
  }

  /** `Barrier::wait` up to where the thread sleeps: the last of the threads opens
      the barrier, all others note the generation. */
  function Arrived(x: State, i: nat): State
    requires i < |x.at| && x.at[i].Arriving?
  {
    var s := x.at[i].stage;
    if x.count + 1 < |x.at| then Move(x, i, Waiting(s, x.generation)).(count := x.count + 1)
    else Move(x, i, Working(s + 1)).(count := 0, generation := x.generation + 1)
  }

  ghost predicate Run(xs: seq<State>, ls: seq<Label>) {
    && |xs| == |ls| + 1 && Initial(xs[0])
    && forall i | 0 <= i < |ls| :: Enabled(xs[i], ls[i]) && xs[i + 1] == Step(xs[i], ls[i])
  }

  /** A thread that is sending or receiving bytes. */
  predicate Transfers(x: State, i: nat)
    requires i < |x.at|
  {
    && x.at[i].Working? && x.at[i].stage <= LAST
    && match WorkOf(x.at[i].stage)
       case Greeting | PreDownload | Download | Upload => true
       case Ping => i == 0
       case DownloadSpeed | UploadSpeed => false
  }

  // ----- the invariant

  predicate Asleep(p: Place, generation: nat) { p == Waiting(generation, generation) }

  function Sleepers(at: seq<Place>, generation: nat): nat {
    if at == [] then 0 else Sleepers(at[1..], generation) + if Asleep(at[0], generation) then 1 else 0
  }

  /** Every thread is in the stage the generation counts, or asleep at the wait
      that ends it, or was let through the wait before and has not noticed yet. */
  predicate InStep(p: Place, generation: nat) {
    match p
    case Connecting => generation == 0
    case Working(s) => s == generation
    case Arriving(s) => s == generation && s < LAST
    case Waiting(s, g) => g == s && s < LAST && (s == generation || s + 1 == generation)
    case Done => generation == LAST
    case Lost(s) => generation <= s <= LAST && (s == LAST ==> generation == LAST)
  }

  predicate PastDownload(p: Place) {
    match p
    case Connecting => false
    case Working(s) => s > 3
    case Arriving(s) => s >= 3
    case Waiting(s, _) => s >= 3
    case Done => true
    case Lost(s) => s > 3
  }

  predicate PastUpload(p: Place) {
    match p
    case Connecting => false
    case Working(s) => s > 5
    case Arriving(s) => s >= 5
    case Waiting(s, _) => s >= 5
    case Done => true
    case Lost(s) => s > 5
  }

  predicate Distinct(s: seq<nat>) { forall i, j | 0 <= i < j < |s| :: s[i] != s[j] }

  ghost predicate Inv(x: State) {
    && x.generation <= LAST && x.count == Sleepers(x.at, x.generation) < |x.at|
    && (forall i | 0 <= i < |x.at| :: InStep(x.at[i], x.generation))
    && Distinct(x.downloads) && Distinct(x.uploads)
    && (forall i :: i in x.downloads <==> 0 <= i < |x.at| && PastDownload(x.at[i]))
    && (forall i :: i in x.uploads <==> 0 <= i < |x.at| && PastUpload(x.at[i]))
    && (x.downloadInput.Some? ==> Complete(x, x.downloadInput.value))
        && (x.uploadInput.Some? ==> Complete(x, x.uploadInput.value))
  }

  /** One series of each thread. */
  predicate Complete(x: State, s: seq<nat>) { |s| == |x.at| && Distinct(s) && forall i | 0 <= i < |x.at| :: i in s }

  // ----- counting

  lemma {:induction false} SleepersMove(at: seq<Place>, i: nat, p: Place, g: nat)
    requires i < |at|
    ensures Sleepers(at[i := p], g) + (if Asleep(at[i], g) then 1 else 0) == Sleepers(at, g) + if Asleep(p, g)
        then 1 else 0
  {
    if i == 0 {
      assert at[i := p][1..] == at[1..];
    } else {
      SleepersMove(at[1..], i - 1, p, g);
      assert at[i := p][1..] == at[1..][i - 1 := p];
    }
  }

  lemma {:induction false} SleepersCount(at: seq<Place>, g: nat)
    ensures Sleepers(at, g) <= |at|
    ensures Sleepers(at, g) == |at| <==> forall i | 0 <= i < |at| :: Asleep(at[i], g)
    ensures Sleepers(at, g) == 0 <==> forall i | 0 <= i < |at| :: !Asleep(at[i], g)
  {
    if at != [] {
      SleepersCount(at[1..], g);
      assert forall i | 0 < i < |at| :: at[i] == at[1..][i - 1];
    }
  }

  /** The last thread to arrive finds all others asleep. */
  lemma OthersAsleep(at: seq<Place>, i: nat, g: nat)
    requires i < |at| && !Asleep(at[i], g) && Sleepers(at, g) + 1 >= |at|
    ensures forall j | 0 <= j < |at| && j != i :: Asleep(at[j], g)
  {
    var all := at[i := Waiting(g, g)];
    SleepersMove(at, i, Waiting(g, g), g);
    SleepersCount(all, g);
    assert forall j | 0 <= j < |at| && j != i :: all[j] == at[j];
  }

  lemma WithoutMember(s: seq<nat>, k: nat, i: nat)
    requires Distinct(s) && k < |s|
    ensures i in s[..k] + s[k + 1..] <==> i in s && i != s[k]
  {
    var rest := s[..k] + s[k + 1..];
    if i in rest {
      var j :| 0 <= j < |rest| && rest[j] == i;
      assert i == s[if j < k then j else j + 1];
    }
    if i in s && i != s[k] {
      var j :| 0 <= j < |s| && s[j] == i;
      assert rest[if j < k then j else j - 1] == i;
    }
  }

  lemma {:induction false} DistinctCover(s: seq<nat>, n: nat)
    requires Distinct(s) && forall i :: i in s <==> 0 <= i < n
    ensures |s| == n
    decreases n
  {
    if n == 0 {
      assert s == [] by { assert forall i | 0 <= i < |s| :: s[i] in s; }
    } else {
      assert n - 1 in s;
      var k :| 0 <= k < |s| && s[k] == n - 1;
      var rest := s[..k] + s[k + 1..];
      forall i: nat ensures i in rest <==> i < n - 1 {
        WithoutMember(s, k, i);
      }
      DistinctCover(rest, n - 1);
    }
  }

  // ----- every step keeps the invariant

  lemma KeptMove(x: State, i: nat, p: Place)
    requires Inv(x) && i < |x.at| && InStep(p, x.generation) && Asleep(p, x.generation) == Asleep(x.at[i], x.generation)
    requires PastDownload(p) == PastDownload(x.at[i]) && PastUpload(p) == PastUpload(x.at[i])
    ensures Inv(Move(x, i, p))
  {
    SleepersMove(x.at, i, p, x.generation);
  }

  lemma FinishInv(x: State, i: nat)
    requires Inv(x) && i < |x.at| && x.at[i].Working?
    ensures Inv(Finished(x, i))
  {
    hide Inv;
    var s := x.at[i].stage;
    var p := if s >= LAST then Done else Arriving(s);
    Stages(x, i);
    if s == 3 {
      DownloadPushed(x, i);
    } else if s == 5 {
      UploadPushed(x, i);
    } else {
      KeptMove(x, i, p);
      if s == 4 && i == 0 {
        AllDownloaded(x);
        InputsNoted(Move(x, i, p), Some(x.downloads), x.uploadInput);
      } else if s == 6 && i == 0 {
        AllUploaded(x);
        InputsNoted(Move(x, i, p), x.downloadInput, Some(x.uploads));
      }
    }
  }

  lemma DownloadPushed(x: State, i: nat)
    requires Inv(x) && i < |x.at| && x.at[i] == Working(3)
    ensures Inv(Move(x, i, Arriving(3)).(downloads := x.downloads + [i]))
  {
    SleepersMove(x.at, i, Arriving(3), x.generation);
  }

  lemma UploadPushed(x: State, i: nat)
    requires Inv(x) && i < |x.at| && x.at[i] == Working(5)
    ensures Inv(Move(x, i, Arriving(5)).(uploads := x.uploads + [i]))
  {
    SleepersMove(x.at, i, Arriving(5), x.generation);
  }

  lemma InputsNoted(x: State, d: Option<seq<nat>>, u: Option<seq<nat>>)
    requires Inv(x) && (d.Some? ==> Complete(x, d.value)) && (u.Some? ==> Complete(x, u.value))
    ensures Inv(x.(downloadInput := d, uploadInput := u))
  {
  }

  lemma AllDownloaded(x: State)
    requires Inv(x) && x.generation >= 4
    ensures Complete(x, x.downloads)
  {
    DistinctCover(x.downloads, |x.at|);
  }

  lemma AllUploaded(x: State)
    requires Inv(x) && x.generation >= 6
    ensures Complete(x, x.uploads)
  {
    DistinctCover(x.uploads, |x.at|);
  }

  lemma ArriveInv(x: State, i: nat)
    requires Inv(x) && i < |x.at| && x.at[i].Arriving?
    ensures Inv(Arrived(x, i))
  {
    if x.count + 1 < |x.at| {
      SleepersMove(x.at, i, Waiting(x.at[i].stage, x.generation), x.generation);
    } else {
      OpensInv(x, i);
    }
  }

  /** The last of the threads opens the barrier. */
  lemma OpensInv(x: State, i: nat)
    requires Inv(x) && i < |x.at| && x.at[i].Arriving? && x.count + 1 >= |x.at|
    ensures Inv(Arrived(x, i))
  {
    hide Sleepers;
    OthersAsleep(x.at, i, x.generation);
    SleepersCount(Arrived(x, i).at, x.generation + 1);
  }

  lemma StepInv(x: State, l: Label)
    requires Inv(x) && Enabled(x, l)
    ensures Inv(Step(x, l))
  {
    hide Inv, Finished, Arrived;
    match l {
      case Connect(i, ok) => Stages(x, i); KeptMove(x, i, if ok then Working(0) else Lost(0));
      case Finish(i, ok) =>
        if ok {
          FinishInv(x, i);
        } else {
          Stages(x, i);
          KeptMove(x, i, Lost(x.at[i].stage));
        }
      case Arrive(i) => ArriveInv(x, i);
      case Resume(i) => Stages(x, i); KeptMove(x, i, Working(x.at[i].stage + 1));
    }
  }

  lemma Stages(x: State, i: nat)
    requires Inv(x) && i < |x.at|
    ensures InStep(x.at[i], x.generation) && x.generation <= LAST
    ensures x.downloadInput.Some? ==> Complete(x, x.downloadInput.value)
    ensures x.uploadInput.Some? ==> Complete(x, x.uploadInput.value)
  {
  }

  lemma {:induction false} RunInv(xs: seq<State>, ls: seq<Label>, i: nat)
    requires Run(xs, ls) && i < |xs|
    ensures Inv(xs[i]) && |xs[i].at| == |xs[0].at|
  {
    hide Inv, Enabled, Step;
    if i == 0 {
      InitialInv(xs[0]);
    } else {
      RunInv(xs, ls, i - 1);
      StepInv(xs[i - 1], ls[i - 1]);
      SameThreads(xs[i - 1], ls[i - 1]);
    }
  }

  lemma SameThreads(x: State, l: Label)
    requires Enabled(x, l)
    ensures |Step(x, l).at| == |x.at|
  {
  }

  lemma InitialInv(x: State)
    requires Initial(x)
    ensures Inv(x)
  {
    SleepersCount(x.at, 0);
  }

  // ----- results

  /** While thread 0 pings no other thread sends or receives bytes, and when it
      computes a speed the statistics hold one series of every thread. */
  lemma LockStep(xs: seq<State>, ls: seq<Label>, k: nat)
    requires Run(xs, ls) && k < |xs|
    ensures xs[k].at != []
    ensures var x := xs[k];
      && (x.at[0] == Working(2) ==> forall i | 0 < i < |x.at| :: !Transfers(x, i))
      && (x.at[0] == Working(4) ==> Complete(x, x.downloads)) && (x.at[0] == Working(6) ==> Complete(x, x.uploads))
      && (x.downloadInput.Some? ==> Complete(x, x.downloadInput.value))
          && (x.uploadInput.Some? ==> Complete(x, x.uploadInput.value))
  {
    RunInv(xs, ls, k);
    if xs[k].at[0] == Working(4) {
      AllDownloaded(xs[k]);
    } else if xs[k].at[0] == Working(6) {
      AllUploaded(xs[k]);
    }
  }

  /** No thread can make a step. */
  ghost predicate Stopped(x: State) { forall l :: !Enabled(x, l) }

  /** A thread that will never come to a wait the others need. */
  predicate LostEarly(p: Place) { p.Lost? && p.stage < LAST }

  predicate Ended(p: Place) { p.Done? || p.Lost? }

  lemma StoppedPlaces(x: State, i: nat)
    requires Stopped(x) && i < |x.at|
    ensures Ended(x.at[i]) || (x.at[i].Waiting? && x.at[i].seen == x.generation)
  {
    assert !Enabled(x, Connect(i, true)) && !Enabled(x, Finish(i, true)) && !Enabled(x, Arrive(i))
        && !Enabled(x, Resume(i));
  }

  /** When nothing moves any more, threads are left asleep at the barrier exactly
      when some thread was lost before its last wait and some thread was not lost. */
  lemma DeadlockExactly(x: State)
    requires Inv(x) && Stopped(x)
    ensures (exists i :: 0 <= i < |x.at| && x.at[i].Waiting?) <==>
            (exists i :: 0 <= i < |x.at| && LostEarly(x.at[i])) && (exists i :: 0 <= i < |x.at| && !x.at[i].Lost?)
  {
    SleepersCount(x.at, x.generation);
    forall i | 0 <= i < |x.at| ensures Ended(x.at[i]) || Asleep(x.at[i], x.generation) {
      StoppedPlaces(x, i);
    }
    if i :| 0 <= i < |x.at| && x.at[i].Waiting? {
      var j :| 0 <= j < |x.at| && !Asleep(x.at[j], x.generation);
      assert InStep(x.at[j], x.generation) && InStep(x.at[i], x.generation);
      assert LostEarly(x.at[j]) && !x.at[i].Lost?;
    }
    if (exists i :: 0 <= i < |x.at| && LostEarly(x.at[i])) && (exists i :: 0 <= i < |x.at| && !x.at[i].Lost?) {
      var i :| 0 <= i < |x.at| && LostEarly(x.at[i]);
      var j :| 0 <= j < |x.at| && !x.at[j].Lost?;
      assert InStep(x.at[i], x.generation) && InStep(x.at[j], x.generation);
      assert x.at[j].Waiting?;
    }
  }

  function At(a: Place, b: Place, count: nat): State { State([a, b], count, 0, [], [], None, None) }

  /** Two threads of which one cannot connect: the other waits for ever. */
  lemma LostConnection()
    ensures var xs := [At(Connecting, Connecting, 0), At(Working(0), Connecting, 0), At(Arriving(0), Connecting, 0),
                       At(Waiting(0, 0), Connecting, 1), At(Waiting(0, 0), Lost(0), 1)];
      Run(xs, [Connect(0, true), Finish(0, true), Arrive(0), Connect(1, false)]) && Stopped(xs[4])
  {
  }

  // ----- every run ends

  /** Steps a thread can still make, at most. */
  function Rank(p: Place): nat {
    match p
    case Connecting => 29
    case Working(s) => if s <= LAST then 4 * (LAST - s) + 3 else 0
    case Arriving(s) => if s <= LAST then 4 * (LAST - s) + 2 else 0
    case Waiting(s, _) => if s <= LAST then 4 * (LAST - s) + 1 else 0
    case Done | Lost(_) => 0
  }

  function Ranks(at: seq<Place>): nat { if at == [] then 0 else Rank(at[0]) + Ranks(at[1..]) }

  lemma {:induction false} RanksMove(at: seq<Place>, i: nat, p: Place)
    requires i < |at|
    ensures Ranks(at[i := p]) + Rank(at[i]) == Ranks(at) + Rank(p)
  {
    if i == 0 {
      assert at[i := p][1..] == at[1..];
    } else {
      RanksMove(at[1..], i - 1, p);
      assert at[i := p][1..] == at[1..][i - 1 := p];
    }
  }

  lemma StepShrinks(x: State, l: Label)
    requires Inv(x) && Enabled(x, l)
    ensures Ranks(Step(x, l).at) < Ranks(x.at)
  {
    hide Inv, Ranks;
    PlaceShrinks(x, l);
    RanksMove(x.at, l.i, Step(x, l).at[l.i]);
  }

  /** Only the thread that steps moves, and it has fewer steps left. */
  lemma PlaceShrinks(x: State, l: Label)
    requires Inv(x) && Enabled(x, l)
    ensures Step(x, l).at == x.at[l.i := Step(x, l).at[l.i]] && Rank(Step(x, l).at[l.i]) < Rank(x.at[l.i])
  {
    hide Inv, InStep, Finished, Arrived, Rank;
    var p := x.at[l.i];
    Stages(x, l.i);
    StageBound(p, x.generation);
    RankFalls(p);
    match l {
      case Connect(i, ok) =>
      case Finish(i, ok) => FinishMoves(x, i);
      case Arrive(i) => ArriveMoves(x, i);
      case Resume(i) =>
    }
  }

  lemma StageBound(p: Place, generation: nat)
    requires InStep(p, generation) && generation <= LAST
    ensures (p.Working? ==> p.stage <= LAST) && (p.Arriving? || p.Waiting? ==> p.stage < LAST)
  {
  }

  lemma RankFalls(p: Place)
    ensures Rank(Done) == 0 && (forall s :: Rank(Lost(s)) == 0) && (p.Connecting? ==> Rank(Working(0)) < Rank(p))
    ensures p.Working? && p.stage <= LAST ==> Rank(p) > 0 && Rank(Arriving(p.stage)) < Rank(p)
    ensures p.Arriving? && p.stage < LAST ==>
        (forall g :: Rank(Waiting(p.stage, g)) < Rank(p)) && Rank(Working(p.stage + 1)) < Rank(p)
    ensures p.Waiting? && p.stage < LAST ==> Rank(Working(p.stage + 1)) < Rank(p)
    ensures p.Connecting? ==> Rank(p) > 0
  {
  }

  lemma FinishMoves(x: State, i: nat)
    requires i < |x.at| && x.at[i].Working?
    ensures var s := x.at[i].stage; Finished(x, i).at == x.at[i := if s >= LAST then Done else Arriving(s)]
  {
  }

  lemma ArriveMoves(x: State, i: nat)
    requires i < |x.at| && x.at[i].Arriving?
    ensures var s := x.at[i].stage;
      Arrived(x, i).at == x.at[i := if x.count + 1 < |x.at| then Waiting(s, x.generation) else Working(s + 1)]
  {
  }

  lemma {:induction false} RanksStart(at: seq<Place>)
    requires forall i | 0 <= i < |at| :: at[i].Connecting?
    ensures Ranks(at) == 29 * |at|
  {
    if at != [] {
      RanksStart(at[1..]);
    }
  }

  /** Every run ends: N threads make at most 29 N steps. */
  lemma {:induction false} RunsEnd(xs: seq<State>, ls: seq<Label>, k: nat)
    requires Run(xs, ls) && k < |xs|
    ensures k + Ranks(xs[k].at) <= 29 * |xs[0].at|
  {
    hide Inv, Enabled, Step;
    if k == 0 {
      RanksStart(xs[0].at);
    } else {
      RunsEnd(xs, ls, k - 1);
      RunInv(xs, ls, k - 1);
      StepShrinks(xs[k - 1], ls[k - 1]);
    }
  }

  predicate Succeeds(l: Label) { (l.Connect? ==> l.ok) && (l.Finish? ==> l.ok) }

  /** No thread was lost, and thread 0 has noted its inputs by the time it is past them. */
  predicate Healthy(x: State) {
    && (forall i | 0 <= i < |x.at| :: !x.at[i].Lost?)
    && (x.at != [] && PastUpload(x.at[0]) ==> x.downloadInput.Some?)
    && (x.at != [] && x.at[0].Arriving? && x.at[0].stage >= 4 ==> x.downloadInput.Some?)
    && (x.at != [] && x.at[0].Waiting? && x.at[0].stage >= 4 ==> x.downloadInput.Some?)
    && (x.at != [] && x.at[0].Working? && x.at[0].stage >= 5 ==> x.downloadInput.Some?)
    && (x.at != [] && x.at[0].Done? ==> x.uploadInput.Some?)
  }

  lemma {:induction false} RunHealthy(xs: seq<State>, ls: seq<Label>, k: nat)
    requires Run(xs, ls) && k < |xs| && forall i | 0 <= i < |ls| :: Succeeds(ls[i])
    ensures Healthy(xs[k])
  {
    hide Inv, Step, Enabled;
    if k > 0 {
      RunHealthy(xs, ls, k - 1);
      RunInv(xs, ls, k - 1);
      HealthyStep(xs[k - 1], ls[k - 1]);
    }
  }

  lemma HealthyStep(x: State, l: Label)
    requires Inv(x) && Healthy(x) && Enabled(x, l) && Succeeds(l)
    ensures Healthy(Step(x, l))
  {
    hide Inv;
    Stages(x, l.i);
  }

  /** When all threads connect and none panics, a run that cannot go on has brought
      every thread through, and both speeds were computed from one series of each. */
  lemma AllThrough(xs: seq<State>, ls: seq<Label>)
    requires Run(xs, ls) && (forall i | 0 <= i < |ls| :: Succeeds(ls[i])) && Stopped(xs[|ls|])
    ensures var x := xs[|ls|];
      && (forall i | 0 <= i < |x.at| :: x.at[i].Done?)
      && x.downloadInput.Some? && Complete(x, x.downloadInput.value) && x.uploadInput.Some?
          && Complete(x, x.uploadInput.value)
  {
    hide Inv;
    var x := xs[|ls|];
    RunInv(xs, ls, |ls|);
    RunHealthy(xs, ls, |ls|);
    DeadlockExactly(x);
    forall i | 0 <= i < |x.at| ensures x.at[i].Done? {
      StoppedPlaces(x, i);
    }
    Stages(x, 0);
  }
}
