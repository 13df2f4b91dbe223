/** The shared pool as an object that the accept loop and the workers update. */
module Workers {
  import opened Text
  import opened Sockets
  import WorkerPool

  /** An event: its token, what its handler returned, and when it was taken up. */
  datatype Event = Event(token: nat, io: Io, at: nat)

  const LIMIT: nat := 15_000_000_000

  /** The tokens that one poll collects for removal: a handler saw the end of the
      stream or an error, and then every connection whose last event was taken up
      too long ago. `since` is the last event before this poll, `end` the time of
      the second look. */
  function Collected(m: map<nat, nat>, since: nat, events: seq<Event>, end: nat): seq<nat> {
    FromEvents(m, events) + TimedOut(m, since, events, end)
  }

  predicate Ends(io: Io) { io == Ok(0) || io.Failed? }

  function FromEvents(m: map<nat, nat>, events: seq<Event>): seq<nat> {
    if events == [] then []
    else FromEvents(m, events[..|events| - 1]) +
         var e := events[|events| - 1]; if e.token in m && Ends(e.io) then [e.token] else []
  }

  /** `last_active` of a token after the events. */
  function LastActive(t: nat, since: nat, events: seq<Event>): nat {
    if events == [] then since else
    var e := events[|events| - 1];
    if e.token == t then e.at else LastActive(t, since, events[..|events| - 1])
  }

  predicate Overdue(since: nat, end: nat) { end > since + LIMIT }

  function TimedOut(m: map<nat, nat>, since: nat, events: seq<Event>, end: nat): seq<nat> {
    if |m| != 1 then [] else
    var t := TheKey(m);
    if Overdue(LastActive(t, since, events), end) then [t] else []
  }

  /** Some handler ended its connection and took longer than the limit for it. */
  predicate Overran(m: map<nat, nat>, events: seq<Event>, end: nat) {
    exists i :: 0 <= i < |events| && events[i].token in m && Ends(events[i].io) && Overdue(events[i].at, end)
  }

  /** A poll reports each token at most once. */
  predicate OncePerToken(events: seq<Event>) {
    forall i, j | 0 <= i < j < |events| :: events[i].token != events[j].token
  }

  function TheKey(m: map<nat, nat>): (t: nat)
    requires |m| == 1
    ensures m.Keys == {t}
  {
    OneKey(m);
    var t :| t in m; t
  }

  lemma OneKey(m: map<nat, nat>)
    requires |m| == 1
    ensures m != map[] && forall t, u | t in m && u in m :: t == u
  {
    assert m.Keys != {};
    var k :| k in m;
    assert |m.Keys - {k}| == 0;
    assert forall t | t in m :: t == k || t in m.Keys - {k};
  }

  lemma {:induction false} CollectedHeld(m: map<nat, nat>, since: nat, events: seq<Event>, end: nat)
    ensures forall t | t in Collected(m, since, events, end) :: t in m
    ensures forall t | t in FromEvents(m, events) :: t in m
    decreases |events|
  {
    if events != [] {
      CollectedHeld(m, since, events[..|events| - 1], end);
    }
  }

  /** What the events alone collect of the one connection that is held. */
  lemma {:induction false} EventsOnce(m: map<nat, nat>, since: nat, events: seq<Event>, t: nat)
    requires m.Keys == {t} && OncePerToken(events)
    ensures FromEvents(m, events) == [] || FromEvents(m, events) == [t]
    ensures FromEvents(m, events) == [t] <==> exists i ::
        0 <= i < |events| && events[i].token == t && Ends(events[i].io)
    ensures forall i | 0 <= i < |events| && events[i].token == t :: LastActive(t, since, events) == events[i].at
    decreases |events|
  {
    if events != [] {
      var n := |events| - 1;
      EventsOnce(m, since, events[..n], t);
      assert forall i | 0 <= i < n :: events[..n][i] == events[i];
      if events[n].token == t {
        assert forall i | 0 <= i < n :: events[i].token != t;
      }
    }
  }

  /** A poll collects the connection twice exactly when a handler ended it and the
      handler overran the limit: the event and the look at the clock both name it. */
  lemma CollectedTwice(m: map<nat, nat>, since: nat, events: seq<Event>, end: nat)
    requires |m| <= 1 && OncePerToken(events)
    ensures |Collected(m, since, events, end)| <= 2
    ensures |Collected(m, since, events, end)| == 2 <==> Overran(m, events, end)
  {
    if |m| == 1 {
      var t := TheKey(m);
      EventsOnce(m, since, events, t);
      assert forall i | 0 <= i < |events| && events[i].token in m :: events[i].token == t;
      if FromEvents(m, events) == [t] {
        var i :| 0 <= i < |events| && events[i].token == t && Ends(events[i].io);
        assert LastActive(t, since, events) == events[i].at;
      }
    } else {
      assert m == map[];
      NothingCollected(m, events);
    }
  }

  lemma {:induction false} NothingCollected(m: map<nat, nat>, events: seq<Event>)
    requires m == map[]
    ensures FromEvents(m, events) == []
  {
    if events != [] {
      NothingCollected(m, events[..|events| - 1]);
    }
  }

  /** `at` is when the last of the events for a token was taken up, or else `since`. */
  ghost predicate LastEvent(t: nat, since: nat, events: seq<Event>, at: nat) {
    || (exists j :: 0 <= j < |events| && events[j].token == t && events[j].at == at
                    && forall k | j < k < |events| :: events[k].token != t)
    || (at == since && forall j | 0 <= j < |events| :: events[j].token != t)
  }

  /** The held connection is collected if and only if a handler for it returned 0 or
      an error, or more than 15 seconds have passed since its last event. */
  lemma CollectedExactly(m: map<nat, nat>, since: nat, events: seq<Event>, end: nat, t: nat, at: nat)
    requires |m| <= 1 && LastEvent(t, since, events, at)
    ensures t in Collected(m, since, events, end) <==>
      && t in m
      && ((exists i :: 0 <= i < |events| && events[i].token == t && (events[i].io == Ok(0) || events[i].io == Failed))
          || end > at + 15_000_000_000)
  {
    if t in m {
      assert |m| != 0;
      assert TheKey(m) == t;
      LastIs(t, since, events, at);
      FromMembers(m, events, t);
    } else {
      CollectedHeld(m, since, events, end);
    }
  }

  lemma {:induction false} LastIs(t: nat, since: nat, events: seq<Event>, at: nat)
    requires LastEvent(t, since, events, at)
    ensures LastActive(t, since, events) == at
    decreases |events|
  {
    if events != [] {
      var n := |events| - 1;
      if events[n].token != t {
        if j :| 0 <= j < |events| && events[j].token == t && events[j].at == at
                && forall k | j < k < |events| :: events[k].token != t {
          assert events[..n][j] == events[j];
        }
        LastIs(t, since, events[..n], at);
      }
    }
  }

  lemma {:induction false} FromMembers(m: map<nat, nat>, events: seq<Event>, t: nat)
    requires t in m
    ensures t in FromEvents(m, events) <==>
      exists i :: 0 <= i < |events| && events[i].token == t && (events[i].io == Ok(0) || events[i].io == Failed)
    decreases |events|
  {
    if events != [] {
      var n := |events| - 1;
      FromMembers(m, events[..n], t);
      assert forall i | 0 <= i < n :: events[..n][i] == events[i];
    }
  }

  /** So the removals of a poll are single, as exact counts need it, exactly when
      no handler that ended its connection overran the limit. */
  lemma SingleExactly(w: nat, m: map<nat, nat>, since: nat, events: seq<Event>, end: nat)
    requires |m| <= 1 && OncePerToken(events)
    ensures WorkerPool.Single(WorkerPool.Process(w, Collected(m, since, events, end))) <==> !Overran(m, events, end)
  {
    CollectedTwice(m, since, events, end);
  }

  /** A handler that fails after 16 seconds: its connection is collected twice, and
      a count of 1 becomes the largest there is. */
  lemma SlowFailure(v: WorkerPool.Worker, c: nat)
    requires v == WorkerPool.FRESH.(connections := map[1 := c], nextToken := 2, count := 1)
    ensures Collected(v.connections, 0, [Event(1, Failed, 0)], 16_000_000_000) == [1, 1]
    ensures WorkerPool.Removed(v, [1, 1]).count == U64 - 1 && WorkerPool.Removed(v, [1, 1]).connections == map[]
  {
    var m, events := v.connections, [Event(1, Failed, 0)];
    assert m.Keys == {1} && |m| == |m.Keys|;
    assert FromEvents(m, events[..0]) == [];
    assert events[..0] == [];
    assert [1, 1][1..] == [1] && [1][1..] == [];
    assert m - {1} == map[];
    var none: map<nat, nat> := map[];
    assert none - {1} == none;
  }

  class SharedPool {
    var accepted: nat
    var queue: seq<nat>
    var workers: seq<WorkerPool.Worker>
    var closed: seq<nat>
    var failed: seq<nat>
    var lastActive: seq<nat>  // of the connection each worker holds

    ghost predicate Valid()
      reads this
    {
      |lastActive| == |workers| && forall w | 0 <= w < |workers| :: |workers[w].connections| <= 1
    }

    function View(): WorkerPool.Pool
      reads this
    {
      WorkerPool.Pool(accepted, queue, workers, closed, failed)
    }

    constructor (n: nat)
      ensures Valid() && WorkerPool.Initial(View()) && |workers| == n
    {
      accepted, queue, closed, failed := 0, [], [], [];
      workers, lastActive := seq(n, _ => WorkerPool.FRESH), seq(n, _ => 0);
    }

    /** `handle_connection`: the accepted connection joins the queue. */
    method HandleConnection()
      requires Valid()
      modifies this
      ensures Valid() && View() == WorkerPool.Step(old(View()), WorkerPool.Accept) && lastActive == old(lastActive)
    {
      queue := queue + [accepted];
      accepted := accepted + 1;
    }

    /** The head of a worker's loop: it takes a connection only when it has none. */
    method TakeConnection(w: nat) returns (taken: bool)
      requires Valid() && w < |workers| && workers[w].alive && workers[w].setup.None?
      modifies this
      ensures Valid() && lastActive == old(lastActive)
      ensures taken <==> WorkerPool.Enabled(old(View()), WorkerPool.Take(w))
      ensures View() == if taken then WorkerPool.Step(old(View()), WorkerPool.Take(w)) else old(View())
    {
      taken := workers[w].connections == map[] && queue != [];
      if taken {
        var connection := queue[0];
        queue := queue[1..];
        var v := workers[w];
        workers := workers[w := v.(count := (v.count + 1) % U64, setup := Some((v.nextToken, connection)),
            nextToken := v.nextToken + 1)];
      }
    }

    /** Registration and handshake of the connection just taken. */
    method FinishSetup(w: nat, result: WorkerPool.Outcome, now: nat)
      requires Valid() && WorkerPool.Enabled(View(), WorkerPool.SetUp(w, result)) && workers[w].connections == map[]
      modifies this
      ensures Valid() && lastActive == if result.Ready? then old(lastActive)[w := now] else old(lastActive)
      ensures View() == WorkerPool.Step(old(View()), WorkerPool.SetUp(w, result))
    {
      var v := workers[w];
      var (token, connection) := v.setup.value;
      v := v.(setup := None);
      match result {
        case Ready =>
          v := v.(connections := v.connections[token := connection]);
          lastActive := lastActive[w := now];
        case Failed =>
          v := v.(failures := v.failures + 1);
          failed := failed + [connection];
        case Panicked =>
          v := v.(failures := v.failures + 1, alive := false);
          failed := failed + [connection];
      }
      workers := workers[w := v];
    }

    /** The removal loop; the count wraps. */
    method RemoveConnections(w: nat, toRemove: seq<nat>)
      requires w < |workers|
      modifies this`workers
      ensures workers == old(workers)[w := WorkerPool.Removed(old(workers)[w], toRemove)]
    {
      var v, k := workers[w], 0;
      assert toRemove[0..] == toRemove;
      while k < |toRemove|
        invariant k <= |toRemove|
        invariant WorkerPool.Removed(v, toRemove[k..]) == WorkerPool.Removed(workers[w], toRemove)
      {
        var token := toRemove[k];
        assert toRemove[k..][1..] == toRemove[k + 1..];
        var extra := if token in v.connections then v.extra else v.extra + 1;
        v := v.(connections := v.connections - {token}, count := (v.count + U64 - 1) % U64, extra := extra);
        k := k + 1;
      }
      workers := workers[w := v];
    }

    /** `process_all_connections` for what a poll and the handlers reported. Each
        event marks its connection active before the handler runs; the second look
        at the clock comes after all handlers, and only then is anything removed. */
    method ProcessAllConnections(w: nat, events: seq<Event>, end: nat)
      requires Valid() && w < |workers| && workers[w].alive && workers[w].setup.None?
      modifies this
      ensures Valid()
      ensures var removals := Collected(old(workers)[w].connections, old(lastActive)[w], events, end);
        && WorkerPool.Enabled(old(View()), WorkerPool.Process(w, removals))
        && View() == WorkerPool.Step(old(View()), WorkerPool.Process(w, removals))
      ensures forall u | 0 <= u < |workers| && u != w :: lastActive[u] == old(lastActive)[u]
      ensures forall t | old(workers)[w].connections.Keys == {t} ::
          lastActive[w] == LastActive(t, old(lastActive)[w], events)
    {
      var connections, since := workers[w].connections, lastActive[w];
      var toRemove: seq<nat> := [];
      var i := 0;
      while i < |events|
        invariant i <= |events| && toRemove == FromEvents(connections, events[..i])
        invariant |lastActive| == |workers| && workers == old(workers) && closed == old(closed)
        invariant forall u | 0 <= u < |workers| && u != w :: lastActive[u] == old(lastActive)[u]
        invariant forall t | connections.Keys == {t} :: lastActive[w] == LastActive(t, since, events[..i])
        invariant View() == old(View())
      {
        assert events[..i + 1][..i] == events[..i];
        var event := events[i];
        if event.token in connections {
          lastActive := lastActive[w := event.at];
          if Ends(event.io) {
            toRemove := toRemove + [event.token];
          }
        }
        i := i + 1;
      }
      assert events[..i] == events;
      ScanIsTimedOut(connections, since, events, end);
      if connections != map[] {
        var token := TheKey(connections);
        if Overdue(lastActive[w], end) {
          toRemove := toRemove + [token];
        }
      }
      assert toRemove == Collected(connections, since, events, end);
      CollectedHeld(connections, since, events, end);
      closed := closed + WorkerPool.Held(connections, toRemove);
      RemoveConnections(w, toRemove);
      RemovedFits(old(workers)[w], toRemove);
    }
  }

  lemma ScanIsTimedOut(m: map<nat, nat>, since: nat, events: seq<Event>, end: nat)
    requires |m| <= 1
    ensures m == map[] ==> TimedOut(m, since, events, end) == []
    ensures m != map[] ==>
        |m| == 1 && TimedOut(m, since, events, end) == if Overdue(LastActive(TheKey(m), since, events), end)
        then [TheKey(m)] else []
  {
    if m != map[] {
      assert |m| != 0;
    }
  }

  lemma {:induction false} RemovedKeys(v: WorkerPool.Worker, tokens: seq<nat>)
    ensures WorkerPool.Removed(v, tokens).connections.Keys <= v.connections.Keys
    decreases |tokens|
  {
    if tokens != [] {
      RemovedKeys(v.(connections := v.connections - {tokens[0]}, count := (v.count + U64 - 1) % U64,
                     extra := if tokens[0] in v.connections then v.extra else v.extra + 1), tokens[1..]);
    }
  }

  lemma RemovedFits(v: WorkerPool.Worker, tokens: seq<nat>)
    requires |v.connections| <= 1
    ensures |WorkerPool.Removed(v, tokens).connections| <= 1
  {
    hide WorkerPool.Removed;
    RemovedKeys(v, tokens);
    Fewer(WorkerPool.Removed(v, tokens).connections.Keys, v.connections.Keys);
  }

  lemma Fewer(a: set<nat>, b: set<nat>)
    requires a <= b
    ensures |a| <= |b|
  {
    assert b == a + (b - a);
  }
}
