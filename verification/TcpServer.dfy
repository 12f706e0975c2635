/** TcpServer as an object: the counter, and the map from generated names to connections. */
module TcpServers {
  import opened Decimal
  import opened Lifecycles
  import Polling

  /** A step, with what the code sees when it takes it: the connection, and whether the weak
      pointer locks (an event) or the functor is a removal (a functor). */
  datatype Seen = Seen(action: Action, conn: ConnId, flag: bool)

  ghost predicate Agrees(w: World, s: Seen) {
    && Enabled(w, s.action)
    && (s.action.HandleEvent? && 0 < s.action.closes ==>
          s.conn == w.loops[s.action.l].active[0] && s.flag == Held(w, s.conn))
    && (s.action.RunNext? ==>
          var f := w.loops[s.action.l].batch[w.loops[s.action.l].next]; s.conn == f.c && s.flag == f.RemoveInLoop?)
  }

  ghost predicate Follows(w: World, script: seq<Seen>)
    decreases |script|
  {
    script != [] ==> Agrees(w, script[0]) && Follows(Step(w, script[0].action), script[1..])
  }

  function Actions(script: seq<Seen>): (run: seq<Action>)
    ensures |run| == |script|
  {
    if script == [] then [] else [script[0].action] + Actions(script[1..])
  }

  lemma {:induction false} FollowsRun(w: World, script: seq<Seen>)
    requires Follows(w, script)
    ensures Legal(w, Actions(script))
    decreases |script|
  {
    if script == [] {
    } else {
      FollowsRun(Step(w, script[0].action), script[1..]);
      assert Actions(script)[1..] == Actions(script[1..]);
    }
  }

  /** Every run of the machine can be followed. */
  lemma {:induction false} EveryRunIsFollowed(w: World, run: seq<Action>) returns (script: seq<Seen>)
    requires Legal(w, run)
    ensures Follows(w, script) && Actions(script) == run
    decreases |run|
  {
    if run == [] {
      script := [];
    } else {
      var a := run[0];
      var rest := EveryRunIsFollowed(Step(w, a), run[1..]);
      var s := Seen(a, 0, false);
      if a.HandleEvent? && 0 < a.closes {
        s := Seen(a, w.loops[a.l].active[0], Held(w, w.loops[a.l].active[0]));
      } else if a.RunNext? {
        var f := w.loops[a.l].batch[w.loops[a.l].next];
        s := Seen(a, f.c, f.RemoveInLoop?);
      }
      script := [s] + rest;
      assert script[1..] == rest;
    }
  }

  class TcpServer {
    const name: string
    const ipPort: string
    var nextConnId: nat
    var connections: map<string, ConnId>
    ghost var world: World
    ghost var strays: set<ConnId>

    constructor (name: string, ipPort: string, ghost world: World)
      requires Initial(world)
      ensures Valid() && connections == map[] && this.world == world && strays == {}
      ensures this.name == name && this.ipPort == ipPort
    {
      InitialHolds(world);
      this.name, this.ipPort, this.world, this.strays := name, ipPort, world, {};
      nextConnId, connections := 1, map[];
    }

    /** The name given to the c-th connection; the counter starts at 1. */
    function NameOf(c: ConnId): string {
      ConnectionName(name, ipPort, c + 1)
    }

    /** The map holds exactly the connections the machine has in its set, each under its own
        name, and the counter runs one ahead of the connections made. */
    ghost predicate Named()
      reads this
    {
      && nextConnId == |world.conns| + 1
      && (forall c: ConnId :: c in world.connections <==> NameOf(c) in connections && connections[NameOf(c)] == c)
      && (forall s :: s in connections ==> s == NameOf(connections[s]))
      && (forall c: ConnId :: c in world.connections ==> c < |world.conns|)
    }

    ghost predicate Valid()
      reads this
    {
      Named() && Invariant(world, strays)
    }

    /** The state in which the close callback, or a queued removal, finds the server: the
        connection is closed and its departure not, or no longer, arranged. */
    ghost predicate Departing(conn: ConnId)
      reads this
    {
      && Named() && Invariant(world, strays + {conn})
      && conn < |world.conns| && Held(world, conn) && 0 < world.conns[conn].downs
    }

    lemma NamesDiffer(c: ConnId, d: ConnId)
      requires NameOf(c) == NameOf(d)
      ensures c == d
    {
      ConnectionNameInjective(name, ipPort, c + 1, d + 1);
    }

    /** The new name is never one in use, so no connection is overwritten. */
    method NewConnection(sockfd: Fd, ioLoop: LoopId) returns (conn: ConnId)
      requires Valid() && Enabled(world, Accept(sockfd, ioLoop))
      modifies this
      ensures Valid() && world == Step(old(world), Accept(sockfd, ioLoop)) && strays == old(strays)
      ensures conn == |old(world).conns| && NameOf(conn) !in old(connections)
      ensures connections == old(connections)[NameOf(conn) := conn]
    {
      conn := nextConnId - 1;
      var connName := ConnectionName(name, ipPort, nextConnId);
      nextConnId := nextConnId + 1;
      forall s | s in connections ensures s != connName {
        if s == connName {
          NamesDiffer(connections[s], conn);
        }
      }
      forall c: ConnId | NameOf(c) == connName ensures c == conn {
        NamesDiffer(c, conn);
      }
      connections := connections[connName := conn];
      AcceptKeeps(world, sockfd, ioLoop, strays);
      world := Step(world, Accept(sockfd, ioLoop));
    }

    /** Erases by name: exactly this connection leaves, whichever others share its prefix. */
    method RemoveConnectionInLoop(conn: ConnId)
      requires Departing(conn)
      modifies this`connections, this`world
      ensures Valid() && world == Lifecycles.RemoveConnectionInLoop(old(world), conn)
      ensures connections == old(connections) - {NameOf(conn)}
      ensures forall c: ConnId :: c != conn ==> (c in world.connections <==> c in old(world).connections)
    {
      forall c: ConnId | NameOf(c) == NameOf(conn) ensures c == conn {
        NamesDiffer(c, conn);
      }
      connections := connections - {NameOf(conn)};
      RemoveKeeps(world, conn, strays);
      world := Lifecycles.RemoveConnectionInLoop(world, conn);
    }

    /** runInLoop: at once on the server's own loop, queued there from any other. */
    method RemoveConnection(conn: ConnId, caller: LoopId)
      requires Departing(conn) && (conn !in strays ==> RegistrationOk(world, conn))
      modifies this`connections, this`world
      ensures Valid()
      ensures world == if caller == MAIN then Lifecycles.RemoveConnectionInLoop(old(world), conn)
                       else Push(old(world), MAIN, RemoveInLoop(conn))
      ensures connections == if caller == MAIN then old(connections) - {NameOf(conn)} else old(connections)
    {
      if caller == MAIN {
        RemoveConnectionInLoop(conn);
      } else {
        QueueRemovalKeeps(world, conn, strays);
        world := Push(world, MAIN, RemoveInLoop(conn));
      }
    }

    /** The first of the two calls in the source: closeCallback_ at the end of handleClose, on
        the connection's own loop, while its channel is being handled. */
    method ConnectionClosed(conn: ConnId, loop: LoopId)
      requires Valid() && conn < |world.conns| && Held(world, conn) && loop == world.conns[conn].loop
      requires world.conns[conn].index != Polling.New && conn !in world.loops[world.conns[conn].loop].active
      modifies this`connections, this`world
      ensures Valid() && world == HandleClose(old(world), conn)
      ensures connections == if loop == MAIN then old(connections) - {NameOf(conn)} else old(connections)
    {
      ClosedRecordKeeps(world, conn, strays);
      world := SetConn(world, conn, ClosedRecord(world.conns[conn]));
      RemoveConnection(conn, loop);
    }

    /** The second: the server's loop takes the removal off its queue and runs it. */
    method RunRemoval(conn: ConnId, loop: LoopId, ghost keeps: bool)
      requires Valid() && Enabled(world, RunNext(loop, keeps))
      requires world.loops[loop].batch[world.loops[loop].next] == RemoveInLoop(conn)
      modifies this`connections, this`world
      ensures Valid() && world == Step(old(world), RunNext(loop, keeps))
      ensures connections == old(connections) - {NameOf(conn)}
    {
      AdvanceKeeps(world, loop, keeps, strays);
      AdvanceRecords(world, loop, keeps, strays);
      world := Advanced(world, loop);
      RemoveConnectionInLoop(conn);
    }

    /** A loop takes the next channel off its active list. */
    ghost method TakeActive(loop: LoopId)
      requires Valid() && loop < |world.loops| && world.loops[loop].active != []
      modifies this`world
      ensures Valid() && world == Popped(old(world), loop)
    {
      PoppedKeeps(world, loop, strays);
      world := Popped(world, loop);
    }

    /** An event that closes its connection, once or twice, if the weak pointer locks. */
    method ClosingEvent(loop: LoopId, closes: nat, ghost drains: bool, conn: ConnId, locked: bool)
      requires Valid() && Enabled(world, HandleEvent(loop, closes, drains)) && 0 < closes
      requires conn == world.loops[loop].active[0] && locked == Held(world, conn)
      modifies this`connections, this`world
      ensures Valid() && world == Step(old(world), HandleEvent(loop, closes, drains))
    {
      PoppedKeeps(world, loop, strays);
      TakeActive(loop);
      if locked {
        HandleCloseKeeps(world, conn, strays);
        ConnectionClosed(conn, loop);
        if closes == 2 {
          ConnectionClosed(conn, loop);
        }
      }
    }

    /** Everything else that the loops and the other threads do: the map is not concerned. */
    ghost method OtherStep(a: Action)
      requires Valid() && Enabled(world, a) && LeavesMap(world, a)
      modifies this`world, this`strays
      ensures Valid() && world == Step(old(world), a) && strays == old(strays) + StrayBy(old(world), a)
    {
      StepKeepsInvariant(world, a, strays);
      MapIsLeft(world, a);
      strays := strays + StrayBy(world, a);
      world := Step(world, a);
    }

    method Perform(s: Seen)
      requires Valid() && Agrees(world, s)
      modifies this
      ensures Valid() && world == Step(old(world), s.action)
    {
      if s.action.Accept? {
        var conn := NewConnection(s.action.fd, s.action.l);
      } else if s.action.HandleEvent? && 0 < s.action.closes {
        ClosingEvent(s.action.l, s.action.closes, s.action.drains, s.conn, s.flag);
      } else if s.action.RunNext? && s.flag {
        RunRemoval(s.conn, s.action.l, s.action.keeps);
      } else {
        OtherStep(s.action);
      }
    }

    /** The server through any run of the machine: afterwards, as at every point, its map
        holds exactly the machine's connections, each under its own name. */
    method Follow(script: seq<Seen>)
      requires Valid() && Follows(world, script)
      modifies this
      ensures Valid() && Legal(old(world), Actions(script)) && world == Run(old(world), Actions(script))
      decreases |script|
    {
      FollowsRun(world, script);
      if script != [] {
        Perform(script[0]);
        Follow(script[1..]);
        assert Actions(script)[1..] == Actions(script[1..]);
      }
    }
  }
}
