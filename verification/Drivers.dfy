/** The handler objects themselves, driven over two byte streams: they go through
    the run of calls, and no handler ever meets a state it would panic in. */
module Drivers {
  import opened Text
  import opened Wire
  import opened Chunks
  import opened Session
  import opened SessionRuns
  import opened SessionPaths
  import opened Sockets
  import opened CallRuns
  import ServerCalls
  import ClientCalls
  import ServerTurns
  import ClientTurns
  import ServerRuns
  import ClientRuns
  import ServerHandlers
  import ClientHandlers
  import Server = ServerMachine
  import Client = ClientMachine

  /** Where a list of moves leads. */
  function After(cfg: Config, p: Link, ms: seq<Move>): Link {
    if ms == [] then p else Next(cfg, After(cfg, p, ms[..|ms| - 1]), ms[|ms| - 1])
  }

  ghost predicate AllAllowed(cfg: Config, p: Link, ms: seq<Move>) {
    forall i | 0 <= i < |ms| :: Allowed(cfg, After(cfg, p, ms[..i]), ms[i])
  }

  lemma Ready(cfg: Config, x: Sess, p: Link)
    requires Reached(cfg, x) && Shows(x, p)
    ensures ServerTurns.Runnable(cfg.server, p.s)
    ensures Client.ReadPhase(p.c.phase) || Client.WritePhase(p.c.phase) ==> ClientTurns.Runnable(p.c)
    ensures Client.DonePhase(p.c.phase) && !p.c.phase.PerfCompleted? ==> p.c.writePos == 0
  {
    hide Reached, Measured, Recorded, Balanced, Inv, ServerTurns.Runnable, ClientTurns.Runnable;
    ReachedFacts(cfg, x);
    ServerRuns.SessionRunnable(cfg, x);
    if Client.ReadPhase(p.c.phase) || Client.WritePhase(p.c.phase) {
      ClientRuns.SessionRunnable(cfg, x);
    } else if !p.c.phase.PerfCompleted? {
      RestsQuiet(cfg, x);
    }
  }

  lemma RestsQuiet(cfg: Config, x: Sess)
    requires Inv(cfg, x) && Client.DonePhase(x.c.phase) && !x.c.phase.PerfCompleted?
    ensures x.c.writePos == 0
  {
    hide Setup, ServerOk, ClientOk, NotStarted;
  }

  lemma StartKept(t: Tables, c: Client.Client, b: Bytes, now: nat)
    requires ClientTurns.Kept(t, c, b) && c.writePos == 0
    ensures ClientTurns.Kept(t, Client.Start(c, now), b)
  {
    ClientTurns.KeptFresh(t, c, b);
    ClientTurns.KeptFresh(t, Client.Start(c, now), b);
  }

  /** One event on the server's side of the streams. */
  method CallServer(cfg: Config, server: ServerHandlers.Connection, script: seq<Answer>, up: Bytes, down: Bytes,
    now: nat)
    returns (up': Bytes, down': Bytes, now': nat)
    requires server.Valid() && server.tables == cfg.server && ServerTurns.Runnable(cfg.server, server.state)
    requires Server.ReadPhase(server.state.phase) || Server.WritePhase(server.state.phase)
    modifies server
    ensures server.Valid()
    ensures var o := ServerCalls.Call(cfg.server, old(server.state), World(up, [], now, script));
      server.state == o.s && up' == o.w.inbox && down' == down + o.w.out && now' == o.w.now
  {
    hide ServerTurns.Kept, ServerTurns.Runnable, ServerCalls.Call;
    server.stream := World(up, [], now, script);
    if Server.ReadPhase(server.state.phase) {
      var _ := server.HandleReadable();
    } else {
      var _ := server.HandleWritable();
    }
    up', down', now' := server.stream.inbox, down + server.stream.out, server.stream.now;
  }

  /** One event on the client's side. */
  method CallClient(cfg: Config, client: ClientHandlers.Measurement, script: seq<Answer>, up: Bytes, down: Bytes,
    now: nat)
    returns (up': Bytes, down': Bytes, now': nat)
    requires client.Valid() && client.tables == cfg.client && ClientTurns.Runnable(client.state)
    requires Client.ReadPhase(client.state.phase) || Client.WritePhase(client.state.phase)
    modifies client
    ensures client.Valid()
    ensures var o := ClientCalls.Call(cfg.client, old(client.state), old(client.writeBuffer),
        World(down, [], now, script));
      client.state == o.c && client.writeBuffer == o.b && down' == o.w.inbox && up' == up + o.w.out && now' == o.w.now
  {
    hide ClientTurns.Kept, ClientTurns.Runnable, ClientCalls.Call;
    client.stream := World(down, [], now, script);
    if Client.ReadPhase(client.state.phase) {
      var _ := client.HandleReadable();
    } else {
      var _ := client.HandleWritable();
    }
    down', up', now' := client.stream.inbox, up + client.stream.out, client.stream.now;
  }

  method MakeMove(cfg: Config, server: ServerHandlers.Connection, client: ClientHandlers.Measurement, m: Move,
                  up: Bytes, down: Bytes, now: nat, ghost x: Sess)
    returns (up': Bytes, down': Bytes, now': nat)
    requires server.Valid() && client.Valid() && server.tables == cfg.server && client.tables == cfg.client
    requires var p := Link(client.state, client.writeBuffer, server.state, up, down, now);
        Reached(cfg, x) && Shows(x, p) && Allowed(cfg, p, m)
    modifies server, client
    ensures server.Valid() && client.Valid()
    ensures Link(client.state, client.writeBuffer, server.state, up', down', now') ==
              Next(cfg, Link(old(client.state), old(client.writeBuffer), old(server.state), up, down, now), m)
  {
    hide Reached, Allowed, ServerTurns.Kept, ClientTurns.Kept, ServerTurns.Runnable, ClientTurns.Runnable,
      ServerCalls.Call,
      ClientCalls.Call, Client.Start;
    ghost var p := Link(client.state, client.writeBuffer, server.state, up, down, now);
    Ready(cfg, x, p);
    Phases(cfg, p, m);
    up', down', now' := up, down, now;
    match m {
      case Pause(d) =>
        now' := now + d;
      case Begin =>
        StartKept(cfg.client, client.state, client.writeBuffer, now);
        client.state := Client.Start(client.state, now);
      case ServerCall(script) =>
        up', down', now' := CallServer(cfg, server, script, up, down, now);
      case ClientCall(script) =>
        up', down', now' := CallClient(cfg, client, script, up, down, now);
    }
  }

  /** A server and a client object, from a fresh connection on, through any moves. */
  method Drive(cfg: Config, server: ServerHandlers.Connection, client: ClientHandlers.Measurement, moves: seq<Move>)
    returns (up: Bytes, down: Bytes, now: nat)
    requires server.Valid() && client.Valid() && server.tables == cfg.server && client.tables == cfg.client
    requires server.state == Server.NewConnection() && client.state == Client.NewClient(cfg.token)
    requires AllAllowed(cfg, Link(client.state, client.writeBuffer, server.state, [], UPGRADE, 0), moves)
    modifies server, client
    ensures Link(client.state, client.writeBuffer, server.state, up, down, now) ==
              After(cfg, Link(old(client.state), old(client.writeBuffer), old(server.state), [], UPGRADE, 0), moves)
  {
    hide Reached, Allowed, Next, ServerTurns.Kept, ClientTurns.Kept, Client.NewClient, Server.NewConnection;
    up, down, now := [], UPGRADE, 0;
    ghost var first := Link(client.state, client.writeBuffer, server.state, up, down, now);
    ghost var x := Sess(first.c, first.s, first.up, first.down, first.now, Count(0, 0, 0), [], []);
    assert server.Valid() && client.Valid();
    StartReached(cfg, first);
    var k := 0;
    while k < |moves|
      invariant k <= |moves| && server.Valid() && client.Valid()
      invariant Link(client.state, client.writeBuffer, server.state, up, down, now) == After(cfg, first, moves[..k])
      invariant Reached(cfg, x) && Shows(x, After(cfg, first, moves[..k]))
    {
      ghost var p := After(cfg, first, moves[..k]);
      AfterOne(cfg, first, moves, k);
      ghost var y := MoveLeads(cfg, x, p, moves[k]);
      up, down, now := MakeMove(cfg, server, client, moves[k], up, down, now, x);
      x := y;
      k := k + 1;
    }
    assert moves[..|moves|] == moves;
  }

  lemma AfterOne(cfg: Config, p: Link, ms: seq<Move>, k: nat)
    requires AllAllowed(cfg, p, ms) && k < |ms|
    ensures After(cfg, p, ms[..k + 1]) == Next(cfg, After(cfg, p, ms[..k]), ms[k])
        && Allowed(cfg, After(cfg, p, ms[..k]), ms[k])
  {
    hide Next, Allowed;
    assert ms[..k + 1][..k] == ms[..k];
  }

  lemma Phases(cfg: Config, p: Link, m: Move)
    requires Allowed(cfg, p, m)
    ensures m.Begin? ==> Client.DonePhase(p.c.phase) && !p.c.phase.PerfCompleted?
    ensures m.ServerCall? ==> Server.ReadPhase(p.s.phase) || Server.WritePhase(p.s.phase)
    ensures m.ClientCall? ==> Client.ReadPhase(p.c.phase) || Client.WritePhase(p.c.phase)
  {
  }
}
