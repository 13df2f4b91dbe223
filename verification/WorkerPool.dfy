/** The mio server's shared queue and its workers, which hold one connection each.
    Connections are numbered in the order they are accepted. Counts are 64 bits
    wide and wrap. */
module WorkerPool {
  import opened Text

  /** `connections` maps tokens to connections; `setup` is one taken from the queue
      that is not in it yet. A dead worker has panicked or left its loop. `failures`
      and `extra` count failed setups and repeated removals. */
  datatype Worker = Worker(
    connections: map<nat, nat>, setup: Option<(nat, nat)>, nextToken: nat, alive: bool,
    count: nat, failures: nat, extra: nat)

  datatype Pool = Pool(accepted: nat, queue: seq<nat>, workers: seq<Worker>, closed: seq<nat>, failed: seq<nat>)

  datatype Label =
    | Accept
    | Take(w: nat)
    | SetUp(w: nat, result: Outcome)
    | Process(w: nat, removals: seq<nat>)  // the tokens one poll collects for removal
    | PollError(w: nat)

  datatype Outcome = Ready | Failed | Panicked

  const FRESH: Worker := Worker(map[], None, 1, true, 0, 0, 0)

  ghost predicate Initial(x: Pool) {
    x == Pool(0, [], x.workers, [], []) && forall w | 0 <= w < |x.workers| :: x.workers[w] == FRESH
  }

  predicate Enabled(x: Pool, l: Label) {
    (l.Accept? || (l.w < |x.workers| && x.workers[l.w].alive)) &&
    match l
    case Accept => true
    case Take(w) => x.workers[w].setup.None? && x.workers[w].connections == map[] && x.queue != []
    case SetUp(w, _) => x.workers[w].setup.Some?
    case Process(w, removals) => x.workers[w].setup.None? && forall t | t in removals :: t in x.workers[w].connections
    case PollError(w) => x.workers[w].setup.None?
  }

  /** The connections of a list of tokens, in the order of their first mention. */
  function Held(m: map<nat, nat>, tokens: seq<nat>): seq<nat>
    decreases |tokens|
  {
    if tokens == [] then []
    else (if tokens[0] in m then [m[tokens[0]]] else []) + Held(m - {tokens[0]}, tokens[1..])
  }

  /** The removal loop. */
  function Removed(v: Worker, tokens: seq<nat>): Worker
    decreases |tokens|
  {
    if tokens == [] then v else
    var t := tokens[0];
    Removed(v.(connections := v.connections - {t}, count := (v.count + U64 - 1) % U64,
               extra := if t in v.connections then v.extra else v.extra + 1), tokens[1..])
  }

  function Put(x: Pool, w: nat, v: Worker): Pool
    requires w < |x.workers|
  {
    x.(workers := x.workers[w := v])
  }

  function Step(x: Pool, l: Label): Pool
    requires Enabled(x, l)
  {
    match l
    case Accept => x.(accepted := x.accepted + 1, queue := x.queue + [x.accepted])
    case Take(w) =>
      var v := x.workers[w];
      Put(x, w, v.(setup := Some((v.nextToken, x.queue[0])), nextToken := v.nextToken + 1,
          count := (v.count + 1) % U64)).(queue := x.queue[1..])
    case SetUp(w, result) =>
      var v := x.workers[w];
      var (token, c) := v.setup.value;
      match result {
        case Ready => Put(x, w, v.(setup := None, connections := v.connections[token := c]))
        case Failed =>  // the count stays
          Put(x, w, v.(setup := None, failures := v.failures + 1)).(failed := x.failed + [c])
        case Panicked => Put(x, w,
            v.(setup := None, failures := v.failures + 1, alive := false)).(failed := x.failed + [c])
      }
    case Process(w, removals) =>
      var v := x.workers[w];
      var r := Removed(v, removals);
      Put(x, w, r).(closed := x.closed + Held(v.connections, removals))
    case PollError(w) =>
      var v := x.workers[w];
      Put(x, w, v.(alive := false))
  }

  // ----- the invariant

  function One(b: bool): nat { if b then 1 else 0 }

  /** How often a connection is in a worker's hands, in a list, in the pool. */
  function OwnedBy(v: Worker, c: nat): nat {
    One(c in v.connections.Values) + One(v.setup.Some? && v.setup.value.1 == c)
  }

  function OwnedAll(vs: seq<Worker>, c: nat): nat { if vs == [] then 0 else OwnedBy(vs[0], c) + OwnedAll(vs[1..], c) }

  function Times(s: seq<nat>, c: nat): nat { multiset(s)[c] }

  function Copies(x: Pool, c: nat): nat {
    Times(x.queue, c) + OwnedAll(x.workers, c) + Times(x.closed, c) + Times(x.failed, c)
  }

  /** What a worker has in hand or has failed on it. */
  function Owed(v: Worker): nat { One(v.connections != map[]) + One(v.setup.Some?) + v.failures }

  /** A worker holds at most one connection, under a token it will not give again,
      and its count is what it holds and what failed on it, less repeated removals. */
  predicate WorkerOk(v: Worker) {
    && (forall t, u | t in v.connections && u in v.connections :: t == u)
    && (v.setup.Some? ==> v.connections == map[] && v.setup.value.0 < v.nextToken)
    && (forall t | t in v.connections :: t < v.nextToken)
    && v.count < U64 && (v.count + v.extra) % U64 == Owed(v) % U64
  }

  /** Every accepted connection is in exactly one place, once: waiting, with one
      worker, closed or failed; those that wait are the last accepted, in order. */
  ghost predicate Inv(x: Pool) {
    && (forall w | 0 <= w < |x.workers| :: WorkerOk(x.workers[w]))
    && (forall c: nat :: Copies(x, c) == One(c < x.accepted))
    && |x.queue| <= x.accepted && forall i | 0 <= i < |x.queue| :: x.queue[i] == x.accepted - |x.queue| + i
  }

  lemma {:induction false} OwnedAllPut(vs: seq<Worker>, w: nat, v: Worker, c: nat)
    requires w < |vs|
    ensures OwnedAll(vs[w := v], c) + OwnedBy(vs[w], c) == OwnedAll(vs, c) + OwnedBy(v, c)
  {
    hide OwnedBy;
    if w == 0 {
      assert vs[w := v][1..] == vs[1..];
    } else {
      OwnedAllPut(vs[1..], w - 1, v, c);
      assert vs[w := v][1..] == vs[1..][w - 1 := v];
    }
  }

  lemma {:induction false} NothingOwned(vs: seq<Worker>, c: nat)
    requires forall w | 0 <= w < |vs| :: vs[w] == FRESH
    ensures OwnedAll(vs, c) == 0
  {
    if vs != [] {
      NothingOwned(vs[1..], c);
    }
  }

  lemma InitialInv(x: Pool)
    requires Initial(x)
    ensures Inv(x)
  {
    forall c: nat ensures Copies(x, c) == One(c < x.accepted) {
      NothingOwned(x.workers, c);
    }
  }

  lemma WrapsBack(a: nat, b: nat, c: nat)
    requires a % U64 == b % U64
    ensures (a + c) % U64 == (b + c) % U64
  {
  }

  lemma OneBack(count: nat, less: nat, r: nat, k: nat)
    requires count < U64 && less == (count + U64 - 1) % U64 && (r + k) % U64 == less
    ensures (r + k + 1) % U64 == count
  {
    WrapsBack(r + k, less, 1);
  }

  /** Removing the one held token, however often it is named. */
  lemma {:induction false} RemovesOne(v: Worker, k: nat, tokens: seq<nat>)
    requires (forall t | t in tokens :: t == k) && (forall t | t in v.connections :: t == k) && v.count < U64
    ensures var r := Removed(v, tokens);
      && r == v.(connections := r.connections, count := r.count, extra := r.extra)
      && r.connections == (if tokens == [] then v.connections else map[])
      && r.count < U64 && (r.count + |tokens|) % U64 == v.count
      && r.extra + One(tokens != [] && k in v.connections) == v.extra + |tokens|
    ensures Held(v.connections, tokens) == if tokens != [] && k in v.connections then [v.connections[k]] else []
    decreases |tokens|
  {
    if tokens != [] {
      assert tokens[0] in tokens && forall t | t in tokens[1..] :: t in tokens;
      assert v.connections - {k} == map[];
      HeldNone(tokens[1..]);
      var less := (v.count + U64 - 1) % U64;
      var rest := v.(connections := map[], count := less, extra := if k in v.connections then v.extra else v.extra + 1);
      RemovesOne(rest, k, tokens[1..]);
      OneBack(v.count, less, Removed(rest, tokens[1..]).count, |tokens[1..]|);
    }
  }

  lemma {:induction false} HeldNone(tokens: seq<nat>)
    ensures Held(map[], tokens) == []
    decreases |tokens|
  {
    if tokens != [] {
      var none: map<nat, nat> := map[];
      assert none - {tokens[0]} == none;
      HeldNone(tokens[1..]);
    }
  }

  // ----- every step keeps the invariant

  lemma PutInv(x: Pool, y: Pool, w: nat, v: Worker)
    requires Inv(x) && w < |x.workers| && WorkerOk(v) && y.workers == x.workers[w := v] && y.accepted == x.accepted
    requires forall c: nat :: Times(y.queue, c) + OwnedBy(v, c) + Times(y.closed, c) + Times(y.failed, c) ==
                              Times(x.queue, c) + OwnedBy(x.workers[w], c) + Times(x.closed, c) + Times(x.failed, c)
    requires y.queue == x.queue || (x.queue != [] && y.queue == x.queue[1..])
    ensures Inv(y)
  {
    hide OwnedBy, Times, WorkerOk;
    forall c: nat ensures Copies(y, c) == One(c < y.accepted) {
      OwnedAllPut(x.workers, w, v, c);
      assert Copies(x, c) == One(c < x.accepted);
    }
  }

  lemma TimesSnoc(s: seq<nat>, a: nat)
    ensures forall c: nat :: Times(s + [a], c) == Times(s, c) + One(c == a)
  {
  }

  lemma TimesHead(s: seq<nat>)
    requires s != []
    ensures forall c: nat :: Times(s, c) == Times(s[1..], c) + One(c == s[0])
  {
    assert s == [s[0]] + s[1..];
  }

  lemma AcceptInv(x: Pool)
    requires Inv(x)
    ensures Inv(Step(x, Accept))
  {
    hide Times, OwnedAll, WorkerOk;
    TimesSnoc(x.queue, x.accepted);
    var y := Step(x, Accept);
    forall c: nat ensures Copies(y, c) == One(c < y.accepted) {
      assert Copies(x, c) == One(c < x.accepted);
    }
  }

  lemma TakeInv(x: Pool, w: nat)
    requires Inv(x) && Enabled(x, Take(w))
    ensures Inv(Step(x, Take(w)))
  {
    hide Times, OwnedAll, Copies;
    var (v, y) := (x.workers[w], Step(x, Take(w)));
    TimesHead(x.queue);
    assert WorkerOk(y.workers[w]) by {
      WrapsBack(v.count + v.extra, Owed(v), 1);
      assert (v.count + 1) % U64 + v.extra == v.count + v.extra + 1
          || (v.count + 1) % U64 + v.extra + U64 == v.count + v.extra + 1;
    }
    PutInv(x, y, w, y.workers[w]);
  }

  lemma OneValue(m: map<nat, nat>, token: nat, c: nat)
    requires m == map[]
    ensures m[token := c].Values == {c}
  {
    assert m[token := c][token] == c && token in m[token := c];
  }

  lemma SetUpInv(x: Pool, w: nat, result: Outcome)
    requires Inv(x) && Enabled(x, SetUp(w, result))
    ensures Inv(Step(x, SetUp(w, result)))
  {
    hide Times;
    var (v, y) := (x.workers[w], Step(x, SetUp(w, result)));
    var (token, c) := v.setup.value;
    if result.Ready? {
      OneValue(v.connections, token, c);
    } else {
      TimesSnoc(x.failed, c);
    }
    PutInv(x, y, w, y.workers[w]);
  }

  lemma ProcessInv(x: Pool, w: nat, removals: seq<nat>)
    requires Inv(x) && Enabled(x, Process(w, removals))
    ensures Inv(Step(x, Process(w, removals)))
  {
    hide Times, OwnedAll, OwnedBy, Copies, WorkerOk, Removed, Held;
    var (v, y) := (x.workers[w], Step(x, Process(w, removals)));
    if removals == [] {
      NothingRemoved(v);
      assert x.closed + [] == x.closed;
      PutInv(x, y, w, v);
    } else {
      RemovedOk(v, x.closed, removals);
      PutInv(x, y, w, y.workers[w]);
    }
  }

  lemma NothingRemoved(v: Worker)
    ensures Removed(v, []) == v && Held(v.connections, []) == []
  {
  }

  /** A count that has gone down by `n` of which one was owed. */
  lemma OneLessOwed(count: nat, extra: nat, less: nat, more: nat, n: nat, owed: nat)
    requires count < U64 && less < U64 && (less + n) % U64 == count && more + 1 == extra + n
    requires (count + extra) % U64 == (owed + 1) % U64
    ensures (less + more) % U64 == owed % U64
  {
    SameAfter(less + n, count, extra);
    assert less + n + extra == less + more + 1;
    OneBackBoth(less + more, owed);
  }

  lemma SameAfter(a: nat, b: nat, e: nat)
    requires a % U64 == b < U64
    ensures (a + e) % U64 == (b + e) % U64
  {
    var q := a / U64;
    assert a == q * U64 + b;
    Multiple(b + e, q);
  }

  lemma {:induction false} Multiple(a: nat, q: nat)
    ensures (q * U64 + a) % U64 == a % U64
  {
    if q > 0 {
      Multiple(a, q - 1);
      assert q * U64 + a == ((q - 1) * U64 + a) + U64;
    }
  }

  lemma OneBackBoth(a: nat, b: nat)
    requires (a + 1) % U64 == (b + 1) % U64
    ensures a % U64 == b % U64
  {
  }

  /** The connection a poll removes goes from the worker to the closed ones. */
  lemma RemovedOk(v: Worker, closed: seq<nat>, removals: seq<nat>)
    requires WorkerOk(v) && removals != [] && forall t | t in removals :: t in v.connections
    ensures WorkerOk(Removed(v, removals)) && Removed(v, removals).alive == v.alive
    ensures forall c: nat ::
      OwnedBy(Removed(v, removals), c) + Times(closed + Held(v.connections, removals), c) ==
      OwnedBy(v, c) + Times(closed, c)
  {
    hide Times, Removed, Held, Owed, OwnedBy;
    var (k, r) := (removals[0], Removed(v, removals));
    assert k in removals && k in v.connections;
    RemovesOne(v, k, removals);
    OwedLess(v, r);
    OneLessOwed(v.count, v.extra, r.count, r.extra, |removals|, Owed(r));
    OwnedMoves(v, r, closed, k);
  }

  lemma OwedLess(v: Worker, r: Worker)
    requires v.connections != map[] && v.setup.None?
    requires r == v.(connections := map[], count := r.count, extra := r.extra)
    ensures Owed(v) == Owed(r) + 1
  {
  }

  lemma OwnedMoves(v: Worker, r: Worker, closed: seq<nat>, k: nat)
    requires k in v.connections && (forall t | t in v.connections :: t == k) && v.setup.None?
    requires r == v.(connections := map[], count := r.count, extra := r.extra)
    ensures forall c: nat ::
      OwnedBy(r, c) + Times(closed + [v.connections[k]], c) == OwnedBy(v, c) + Times(closed, c)
  {
    hide Times;
    assert v.connections.Values == {v.connections[k]};
    TimesSnoc(closed, v.connections[k]);
  }

  lemma StepInv(x: Pool, l: Label)
    requires Inv(x) && Enabled(x, l)
    ensures Inv(Step(x, l))
  {
    hide Inv, Enabled;
    match l {
      case Accept => AcceptInv(x);
      case Take(w) => TakeInv(x, w);
      case SetUp(w, result) => SetUpInv(x, w, result);
      case Process(w, removals) => ProcessInv(x, w, removals);
      case PollError(w) => ErrorInv(x, w);
    }
  }

  lemma ErrorInv(x: Pool, w: nat)
    requires Inv(x) && Enabled(x, PollError(w))
    ensures Inv(Step(x, PollError(w)))
  {
    hide Times;
    var y := Step(x, PollError(w));
    PutInv(x, y, w, y.workers[w]);
  }

  ghost predicate Run(xs: seq<Pool>, ls: seq<Label>) {
    && |xs| == |ls| + 1 && Initial(xs[0])
    && forall i | 0 <= i < |ls| :: Enabled(xs[i], ls[i]) && xs[i + 1] == Step(xs[i], ls[i])
  }

  lemma {:induction false} RunInv(xs: seq<Pool>, ls: seq<Label>, i: nat)
    requires Run(xs, ls) && i < |xs|
    ensures Inv(xs[i])
  {
    hide Inv, Enabled, Step;
    if i == 0 {
      InitialInv(xs[0]);
    } else {
      RunInv(xs, ls, i - 1);
      StepInv(xs[i - 1], ls[i - 1]);
    }
  }

  // ----- results

  /** In every state of every run each connection is in exactly one place, a worker
      holds at most one, and its count is what it has in hand plus its failed setups,
      short by the removals that named a connection again, as a 64-bit number. */
  lemma PoolConserves(xs: seq<Pool>, ls: seq<Label>, i: nat)
    requires Run(xs, ls) && i < |xs|
    ensures forall c: nat :: Copies(xs[i], c) == One(c < xs[i].accepted)
    ensures forall w | 0 <= w < |xs[i].workers| ::
      var v := xs[i].workers[w];
      && |v.connections| + One(v.setup.Some?) <= 1
      && v.count < U64 && (v.count + v.extra) % U64 == (|v.connections| + One(v.setup.Some?) + v.failures) % U64
  {
    hide Copies;
    RunInv(xs, ls, i);
    forall w | 0 <= w < |xs[i].workers|
      ensures WorkerOk(xs[i].workers[w]) && |xs[i].workers[w].connections| == One(xs[i].workers[w].connections != map[])
    {
      assert WorkerOk(xs[i].workers[w]);
      AtMostOne(xs[i].workers[w].connections);
    }
  }

  lemma AtMostOne(m: map<nat, nat>)
    requires forall t, u | t in m && u in m :: t == u
    ensures |m| == One(m != map[])
  {
    if m != map[] {
      var t :| t in m;
      assert m.Keys == {t};
    }
  }

  /** Connections leave the queue in the order they were accepted: the one taken
      next is the number of those taken so far. */
  lemma FirstComeFirstServed(xs: seq<Pool>, ls: seq<Label>, i: nat)
    requires Run(xs, ls) && i < |ls| && ls[i].Take?
    ensures xs[i + 1].workers[ls[i].w].setup.Some?
    ensures var c := xs[i + 1].workers[ls[i].w].setup.value.1;
      c == xs[i].accepted - |xs[i].queue| && xs[i + 1].accepted - |xs[i + 1].queue| == c + 1
  {
    hide Copies;
    RunInv(xs, ls, i);
  }

  /** A poll takes its removals off the count exactly when the count holds as many;
      otherwise the count wraps, up to 2^64 less. The worker lives on in either case. */
  lemma PollUnderflows(x: Pool, w: nat, removals: seq<nat>)
    requires Inv(x) && Enabled(x, Process(w, removals))
    ensures var (v, r) := (x.workers[w], Step(x, Process(w, removals)).workers[w]);
      && r.alive && r.count < U64
      && (r.count == v.count - |removals| <==> |removals| <= v.count)
      && (v.count < |removals| <= v.count + U64 ==> r.count == v.count + U64 - |removals|)
      && (|removals| <= 1 && v.extra == 0 ==> r.extra == 0 && (v.failures + 1 < U64 ==> |removals| <= v.count))
  {
    hide Copies, Removed;
    var v := x.workers[w];
    assert WorkerOk(v);
    var k := if removals != [] then removals[0] else if v.connections != map[] then AnyKey(v.connections) else 0;
    if removals != [] {
      assert k in removals;
    }
    RemovesOne(v, k, removals);
    UnwrapCount(Removed(v, removals).count, |removals|, v.count);
  }

  lemma UnwrapCount(r: nat, k: nat, count: nat)
    requires r < U64 && count < U64 && (r + k) % U64 == count
    ensures r == count - k <==> k <= count
    ensures count < k <= count + U64 ==> r == count + U64 - k
  {
    var q := (r + k) / U64;
    assert r + k == q * U64 + count;
    if k <= count + U64 {
      assert q <= 1;
    }
  }

  ghost function AnyKey(m: map<nat, nat>): (t: nat)
    requires m != map[]
    ensures t in m
  {
    var t :| t in m; t
  }

  predicate Single(l: Label) { l.Process? ==> |l.removals| <= 1 }

  /** When every poll removes a connection at most once, the counts are exact and
      no removal takes more than the count holds. */
  lemma {:induction false} CountsExact(xs: seq<Pool>, ls: seq<Label>, i: nat)
    requires Run(xs, ls) && i < |xs| && forall j | 0 <= j < |ls| :: Single(ls[j])
    ensures forall w | 0 <= w < |xs[i].workers| ::
      var v := xs[i].workers[w];
      v.extra == 0 && (v.failures + 1 < U64 ==> v.count == |v.connections| + One(v.setup.Some?) + v.failures)
    ensures i < |ls| && ls[i].Process? && xs[i].workers[ls[i].w].failures + 1 < U64 ==>
        |ls[i].removals| <= xs[i].workers[ls[i].w].count
  {
    hide Inv, Enabled, Step, Single;
    NoneExtra(xs, ls, i);
    RunInv(xs, ls, i);
    forall w | 0 <= w < |xs[i].workers|
      ensures WorkerOk(xs[i].workers[w]) && |xs[i].workers[w].connections| == One(xs[i].workers[w].connections != map[])
    {
      assert WorkerOk(xs[i].workers[w]) by { EachOk(xs[i], w); }
      AtMostOne(xs[i].workers[w].connections);
    }
    if i < |ls| && ls[i].Process? {
      assert Enabled(xs[i], ls[i]) && Single(ls[i]);
      SingleFits(xs[i], ls[i].w, ls[i].removals);
    }
  }

  lemma EachOk(x: Pool, w: nat)
    requires Inv(x) && w < |x.workers|
    ensures WorkerOk(x.workers[w])
  {
  }

  lemma SingleFits(x: Pool, w: nat, removals: seq<nat>)
    requires Inv(x) && Enabled(x, Process(w, removals)) && Single(Process(w, removals))
    requires forall u | 0 <= u < |x.workers| :: x.workers[u].extra == 0
    ensures w < |x.workers| && (x.workers[w].failures + 1 < U64 ==> |removals| <= x.workers[w].count)
  {
    hide Inv, Step;
    PollUnderflows(x, w, removals);
  }

  lemma {:induction false} NoneExtra(xs: seq<Pool>, ls: seq<Label>, i: nat)
    requires Run(xs, ls) && i < |xs| && forall j | 0 <= j < |ls| :: Single(ls[j])
    ensures forall w | 0 <= w < |xs[i].workers| :: xs[i].workers[w].extra == 0
  {
    hide Inv;
    if i > 0 {
      NoneExtra(xs, ls, i - 1);
      RunInv(xs, ls, i - 1);
      var (x, l) := (xs[i - 1], ls[i - 1]);
      if l.Process? {
        PollUnderflows(x, l.w, l.removals);
      }
    }
  }

  /** Two removals of the one connection of a worker without failed setups leave it
      with the largest count there is, and the next connection it takes with 0. */
  lemma TwiceIsTooOften(x: Pool, w: nat, t: nat)
    requires Inv(x) && Enabled(x, Process(w, [t, t])) && x.workers[w].failures == x.workers[w].extra == 0
    ensures var y := Step(x, Process(w, [t, t]));
      && y.workers[w].count == U64 - 1 && y.workers[w].connections == map[]
      && (Enabled(y, Take(w)) ==> Step(y, Take(w)).workers[w].count == 0)
  {
    hide Copies, Removed;
    assert t in [t, t] && WorkerOk(x.workers[w]);
    assert forall u | u in [t, t] :: u == t;
    RemovesOne(x.workers[w], t, [t, t]);
    PollUnderflows(x, w, [t, t]);
  }

  /** A worker's next token only grows, and each connection it takes gets the current one. */
  lemma {:induction false} TokensGrow(xs: seq<Pool>, ls: seq<Label>, w: nat, i: nat, j: nat)
    requires Run(xs, ls) && i <= j < |xs| && w < |xs[i].workers|
    ensures w < |xs[j].workers| && xs[i].workers[w].nextToken <= xs[j].workers[w].nextToken
    decreases j
  {
    hide Inv;
    if i < j {
      TokensGrow(xs, ls, w, i, j - 1);
      TokenStep(xs[j - 1], ls[j - 1], w);
    }
  }

  lemma TokenStep(x: Pool, l: Label, w: nat)
    requires Enabled(x, l) && w < |x.workers|
    ensures var y := Step(x, l);
      && w < |y.workers| && x.workers[w].nextToken <= y.workers[w].nextToken
      && (l.Take? && l.w == w ==> y.workers[w].setup.Some? && y.workers[w].setup.value.0 == x.workers[w].nextToken
                                   && y.workers[w].nextToken == x.workers[w].nextToken + 1)
  {
    if l.Process? {
      RemovalKeepsTokens(x.workers[l.w], l.removals);
    }
  }

  lemma {:induction false} RemovalKeepsTokens(v: Worker, tokens: seq<nat>)
    ensures Removed(v, tokens).nextToken == v.nextToken
    decreases |tokens|
  {
    if tokens != [] {
      var t := tokens[0];
      RemovalKeepsTokens(v.(connections := v.connections - {t}, count := (v.count + U64 - 1) % U64,
                            extra := if t in v.connections then v.extra else v.extra + 1), tokens[1..]);
    }
  }

  /** A worker never gives the same token twice. */
  lemma TokensNotReused(xs: seq<Pool>, ls: seq<Label>, i: nat, j: nat)
    requires Run(xs, ls) && i < j < |ls| && ls[i].Take? && ls[j].Take? && ls[i].w == ls[j].w
    ensures xs[i + 1].workers[ls[i].w].setup.Some? && xs[j + 1].workers[ls[j].w].setup.Some?
    ensures xs[i + 1].workers[ls[i].w].setup.value.0 < xs[j + 1].workers[ls[j].w].setup.value.0
  {
    hide Step;
    var w := ls[i].w;
    TokenStep(xs[i], ls[i], w);
    TokensGrow(xs, ls, w, i + 1, j);
    TokenStep(xs[j], ls[j], w);
  }

  // ----- what the fields stand for, counted over the steps of a run

  function Takes(ls: seq<Label>, w: nat): nat {
    if ls == [] then 0 else Takes(ls[..|ls| - 1], w) + One(ls[|ls| - 1] == Take(w))
  }

  /** Removals carried out by a worker, repeated ones too. */
  function Removals(ls: seq<Label>, w: nat): nat {
    if ls == [] then 0 else
    var l := ls[|ls| - 1];
    Removals(ls[..|ls| - 1], w) + if l.Process? && l.w == w then |l.removals| else 0
  }

  /** Setups of a worker that failed, with an error or a panic. */
  function BadSetups(ls: seq<Label>, w: nat): nat {
    if ls == [] then 0 else
    var l := ls[|ls| - 1];
    BadSetups(ls[..|ls| - 1], w) + One(l == SetUp(w, Failed) || l == SetUp(w, Panicked))
  }

  /** The steps that end a worker's thread. */
  predicate Ends(l: Label, w: nat) { l == SetUp(w, Panicked) || l == PollError(w) }

  lemma {:induction false} RemovedCounts(v: Worker, tokens: seq<nat>)
    requires v.count < U64
    ensures var r := Removed(v, tokens);
      r.count < U64 && r.count == (v.count - |tokens|) % U64
      && r == v.(connections := r.connections, count := r.count, extra := r.extra)
    decreases |tokens|
  {
    if tokens != [] {
      var less := (v.count + U64 - 1) % U64;
      RemovedCounts(v.(connections := v.connections - {tokens[0]}, count := less,
                       extra := if tokens[0] in v.connections then v.extra else v.extra + 1), tokens[1..]);
      ModMinus(v.count - 1, |tokens| - 1);
    }
  }

  lemma ModMinus(a: int, k: int)
    ensures ((a + U64) % U64 - k) % U64 == (a - k) % U64
    ensures (a % U64 - k) % U64 == (a - k) % U64 && (a % U64 + k) % U64 == (a + k) % U64
  {
    var q := a / U64;
    assert a == q * U64 + a % U64;
    Shifts(a % U64 - k, q);
    Shifts(a % U64 + k, q);
    Shifts(a, 1);
  }

  lemma {:induction false} Shifts(a: int, q: int)
    ensures (a + q * U64) % U64 == a % U64
    decreases if q >= 0 then q else -q
  {
    if q > 0 {
      Shifts(a, q - 1);
      assert a + q * U64 == (a + (q - 1) * U64) + U64;
    } else if q < 0 {
      Shifts(a, q + 1);
      assert a + q * U64 == (a + (q + 1) * U64) - U64;
    }
  }

  /** In every run a worker's count is, modulo 2^64, the connections it took less the
      removals it carried out: a failed setup takes nothing off. Its failures are its
      failed setups, its next token counts what it took, and it lives until a setup
      panics or a poll fails. */
  lemma {:induction false} CountsByLabels(xs: seq<Pool>, ls: seq<Label>, i: nat, w: nat)
    requires Run(xs, ls) && i < |xs| && w < |xs[0].workers|
    ensures |xs[i].workers| == |xs[0].workers|
    ensures var (v, past) := (xs[i].workers[w], ls[..i]);
      && v.count == (Takes(past, w) - Removals(past, w)) % U64
      && v.failures == BadSetups(past, w) && v.nextToken == 1 + Takes(past, w)
      && (v.alive <==> forall j | 0 <= j < i :: !Ends(ls[j], w))
  {
    hide Step, Enabled;
    if i == 0 {
      assert xs[0].workers[w] == FRESH;
    } else {
      CountsByLabels(xs, ls, i - 1, w);
      assert ls[..i][..i - 1] == ls[..i - 1] && ls[..i][i - 1] == ls[i - 1];
      var before := ls[..i - 1];
      StepCounts(xs[i - 1], ls[i - 1], w, Takes(before, w) - Removals(before, w));
    }
  }

  lemma StepCounts(x: Pool, l: Label, w: nat, count: int)
    requires Enabled(x, l) && w < |x.workers| && x.workers[w].count == count % U64
    ensures |Step(x, l).workers| == |x.workers|
    ensures var (v, r) := (x.workers[w], Step(x, l).workers[w]);
      && r.count == (count + One(l == Take(w)) - if l.Process? && l.w == w then |l.removals| else 0) % U64
      && r.failures == v.failures + One(l == SetUp(w, Failed) || l == SetUp(w, Panicked))
      && r.nextToken == v.nextToken + One(l == Take(w))
      && (r.alive <==> v.alive && !Ends(l, w))
  {
    hide Removed, Held;
    ModMinus(count, 1);
    if l.Process? && l.w == w {
      RemovedCounts(x.workers[w], l.removals);
      ModMinus(count, |l.removals|);
    }
  }

  /** The connections whose setup failed, and those that a poll removed, in order. */
  ghost function FailedOnes(xs: seq<Pool>, ls: seq<Label>, i: nat): seq<nat>
    requires Run(xs, ls) && i < |xs|
  {
    if i == 0 then [] else
    var (x, l) := (xs[i - 1], ls[i - 1]);
    FailedOnes(xs, ls, i - 1) + if l.SetUp? && l.result != Ready then [x.workers[l.w].setup.value.1] else []
  }

  ghost function ClosedOnes(xs: seq<Pool>, ls: seq<Label>, i: nat): seq<nat>
    requires Run(xs, ls) && i < |xs|
  {
    if i == 0 then [] else
    var (x, l) := (xs[i - 1], ls[i - 1]);
    ClosedOnes(xs, ls, i - 1) +
    if l.Process? && l.removals != [] then
      assert l.removals[0] in l.removals;
      [x.workers[l.w].connections[l.removals[0]]]
    else []
  }

  /** A connection is counted as failed, or as closed, for what happened to it. */
  lemma {:induction false} PlacesByLabels(xs: seq<Pool>, ls: seq<Label>, i: nat)
    requires Run(xs, ls) && i < |xs|
    ensures xs[i].failed == FailedOnes(xs, ls, i) && xs[i].closed == ClosedOnes(xs, ls, i)
  {
    hide Inv;
    if i > 0 {
      PlacesByLabels(xs, ls, i - 1);
      RunInv(xs, ls, i - 1);
      StepPlaces(xs[i - 1], ls[i - 1]);
    }
  }

  lemma StepPlaces(x: Pool, l: Label)
    requires Inv(x) && Enabled(x, l)
    ensures Step(x, l).failed == x.failed + if l.SetUp? && l.result != Ready then [x.workers[l.w].setup.value.1] else []
    ensures l.Process? && l.removals != [] ==> l.removals[0] in x.workers[l.w].connections
    ensures Step(x, l).closed ==
      x.closed + if l.Process? && l.removals != [] then [x.workers[l.w].connections[l.removals[0]]] else []
  {
    hide Copies, Removed;
    if l.Process? && l.removals != [] {
      assert l.removals[0] in l.removals && WorkerOk(x.workers[l.w]);
      RemovesOne(x.workers[l.w], l.removals[0], l.removals);
    }
  }
}
