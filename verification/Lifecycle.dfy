/** The life of a connection across loops: ads_TcpServer.cc together with the parts of
    TcpConnection, Channel and EventLoop that create, register, remove and destroy it. Loop 0
    is the server's own loop; every interleaving of the loops' threads is a run. */
module Lifecycles {
  import opened OutputPath
  import Polling

  type ConnId = nat
  type LoopId = nat
  type Fd = nat

  const MAIN: LoopId := 0

  /** A queued functor that owns a reference to its connection. */
  datatype Functor =
    | Establish(c: ConnId)      // connectEstablished
    | RemoveInLoop(c: ConnId)   // removeConnectionInLoop
    | Destroy(c: ConnId)        // connectDestroyed
    | Send(c: ConnId)           // sendInLoop
    | Callback(c: ConnId)       // write-complete, high-water or a sendFile round

  datatype Stage = Waiting | Dispatching | Executing

  datatype LoopInfo = LoopInfo(
    stage: Stage,
    active: seq<ConnId>,     // reported by the last poll and not handled yet
    pending: seq<Functor>,
    batch: seq<Functor>,     // the swapped-out vector, kept whole until the pass ends
    next: nat)               // the first functor of the batch not yet run

  datatype ConnInfo = ConnInfo(
    loop: LoopId,
    fd: Fd,
    state: StateE,
    index: Polling.Index,    // its channel's place in the loop's poller
    writing: bool,           // the channel asks for EPOLLOUT
    ups: nat,                // connectionCallback_ calls made when connected
    downs: nat,              // and when disconnected
    alive: bool)             // the object exists

  datatype World = World(
    conns: seq<ConnInfo>,          // every connection ever accepted
    connections: set<ConnId>,      // the server's map
    loops: seq<LoopInfo>,
    held: multiset<ConnId>,        // references on stacks and in user data
    tokens: multiset<ConnId>,      // threads between shutdown()'s test of the state and its store
    sending: multiset<ConnId>,     // threads between send()'s test of the state and its push
    open: set<Fd>)

  // ---------- References ----------

  ghost predicate Mentions(fs: seq<Functor>, c: ConnId) {
    exists f :: f in fs && f.c == c
  }

  ghost predicate QueueHolds(w: World, l: LoopId, c: ConnId) {
    l < |w.loops| && (Mentions(w.loops[l].batch, c) || Mentions(w.loops[l].pending, c))
  }

  /** Some shared_ptr to the connection exists. */
  ghost predicate Held(w: World, c: ConnId) {
    c in w.connections || c in w.held || exists l :: QueueHolds(w, l, c)
  }

  /** The functors a loop has yet to run, in order. */
  function Todo(loop: LoopInfo): seq<Functor> {
    (if loop.next <= |loop.batch| then loop.batch[loop.next..] else []) + loop.pending
  }

  // ---------- The methods ----------

  function Push(w: World, l: LoopId, f: Functor): World
    requires l < |w.loops|
  {
    w.(loops := w.loops[l := w.loops[l].(pending := w.loops[l].pending + [f])])
  }

  function SetConn(w: World, c: ConnId, info: ConnInfo): World
    requires c < |w.conns|
  {
    w.(conns := w.conns[c := info])
  }

  function ConnectEstablished(w: World, c: ConnId): World
    requires c < |w.conns|
  {
    var i := w.conns[c];
    SetConn(w, c, i.(state := Connected, index := Polling.Added, ups := i.ups + 1))
  }

  /** disableALL always calls update: a channel not in the kernel's set is put there. */
  function AfterDisableAll(index: Polling.Index): Polling.Index {
    if index == Polling.Added then Polling.Deleted else Polling.Added
  }

  function RemoveConnectionInLoop(w: World, c: ConnId): World
    requires c < |w.conns| && w.conns[c].loop < |w.loops|
  {
    Push(w.(connections := w.connections - {c}), w.conns[c].loop, Destroy(c))
  }

  function ClosedRecord(i: ConnInfo): ConnInfo {
    i.(state := Disconnected, index := AfterDisableAll(i.index), writing := false, downs := i.downs + 1)
  }

  /** handleClose on the connection's own loop, with closeCallback_ bound to removeConnection. */
  function HandleClose(w: World, c: ConnId): World
    requires c < |w.conns| && w.conns[c].loop < |w.loops|
  {
    var v := SetConn(w, c, ClosedRecord(w.conns[c]));
    if w.conns[c].loop == MAIN then RemoveConnectionInLoop(v, c) else Push(v, MAIN, RemoveInLoop(c))
  }

  function ConnectDestroyed(w: World, c: ConnId): World
    requires c < |w.conns|
  {
    var i := w.conns[c];
    var j := if i.state == Connected then i.(state := Disconnected, writing := false, downs := i.downs + 1) else i;
    SetConn(w, c, j.(index := Polling.New))
  }

  /** newConnection up to its runInLoop: the object is made and entered in the map. */
  function AddConn(w: World, fd: Fd, l: LoopId): World {
    w.(conns := w.conns + [ConnInfo(l, fd, Connecting, Polling.New, false, 0, 0, true)],
       connections := w.connections + {|w.conns|}, open := w.open + {fd})
  }

  function NewConnection(w: World, fd: Fd, l: LoopId): World
    requires l < |w.loops|
  {
    var c := |w.conns|;
    var v := AddConn(w, fd, l);
    if l == MAIN then ConnectEstablished(v, c) else Push(v, l, Establish(c))
  }

  /** A send that cannot write everything enables writing, unless the channel asks for it
      already, and whatever has become of the channel meanwhile; only kDisconnected stops it. */
  function SendInLoop(w: World, c: ConnId, keeps: bool): World
    requires c < |w.conns|
  {
    if keeps && w.conns[c].state != Disconnected && !w.conns[c].writing
    then SetConn(w, c, w.conns[c].(index := Polling.Added, writing := true)) else w
  }

  function Execute(w: World, f: Functor, keeps: bool): World
    requires f.c < |w.conns| && w.conns[f.c].loop < |w.loops|
  {
    match f
    case Establish(c) => ConnectEstablished(w, c)
    case RemoveInLoop(c) => RemoveConnectionInLoop(w, c)
    case Destroy(c) => ConnectDestroyed(w, c)
    case Send(c) => SendInLoop(w, c, keeps)
    case Callback(_) => w
  }

  // ---------- Steps ----------

  datatype Action =
    | Accept(fd: Fd, l: LoopId)                    // the acceptor's handler, on loop 0
    | PollReturn(l: LoopId, ready: seq<ConnId>)
    | HandleEvent(l: LoopId, closes: nat, drains: bool)  // the next active channel: how often it
                                                         // closes, and if not, whether it empties the buffer
    | Swap(l: LoopId)
    | RunNext(l: LoopId, keeps: bool)              // whether a send leaves something to write
    | EndPass(l: LoopId)
    | ShutdownTest(c: ConnId)
    | ShutdownStore(c: ConnId)
    | OwnSend(c: ConnId)                           // send() on the loop's thread, leaving something to write
    | SendTest(c: ConnId)
    | SendPush(c: ConnId)
    | QueueCallback(c: ConnId)
    | Take(c: ConnId)
    | Drop(c: ConnId)
    | Destruct(c: ConnId)                          // ~TcpConnection, which closes the fd
    | OpenOther(fd: Fd)
    | CloseOther(fd: Fd)

  ghost predicate Enabled(w: World, a: Action) {
    match a
    case Accept(fd, l) => MAIN < |w.loops| && w.loops[MAIN].stage == Dispatching && fd !in w.open && l < |w.loops|
    case PollReturn(l, ready) =>
      && l < |w.loops| && w.loops[l].stage == Waiting
      && (forall i :: 0 <= i < |ready| ==>
            ready[i] < |w.conns| && w.conns[ready[i]].loop == l && w.conns[ready[i]].index == Polling.Added)
      && (forall i, j :: 0 <= i < j < |ready| ==> ready[i] != ready[j])
    case HandleEvent(l, closes, _) =>
      && l < |w.loops| && w.loops[l].stage == Dispatching && w.loops[l].active != [] && closes <= 2
      && w.loops[l].active[0] < |w.conns| && w.conns[w.loops[l].active[0]].loop == l
    case Swap(l) => l < |w.loops| && w.loops[l].stage == Dispatching && w.loops[l].active == []
    case RunNext(l, _) =>
      && l < |w.loops| && w.loops[l].stage == Executing && w.loops[l].next < |w.loops[l].batch|
      && var c := w.loops[l].batch[w.loops[l].next].c; c < |w.conns| && w.conns[c].loop < |w.loops|
    case EndPass(l) => l < |w.loops| && w.loops[l].stage == Executing && w.loops[l].next == |w.loops[l].batch|
    case ShutdownTest(c) => c < |w.conns| && Held(w, c)
    case ShutdownStore(c) => c < |w.conns| && c in w.tokens && Held(w, c)
    case OwnSend(c) => c < |w.conns| && Held(w, c) && w.conns[c].state == Connected
    case SendTest(c) => c < |w.conns| && Held(w, c)
    case SendPush(c) => c < |w.conns| && c in w.sending && Held(w, c) && w.conns[c].loop < |w.loops|
    case QueueCallback(c) => c < |w.conns| && Held(w, c) && w.conns[c].loop < |w.loops|
    case Take(c) => c < |w.conns| && Held(w, c)
    case Drop(c) => c in w.held
    case Destruct(c) => c < |w.conns| && w.conns[c].alive && !Held(w, c)
    case OpenOther(fd) => fd !in w.open
    case CloseOther(fd) => fd in w.open && forall c :: 0 <= c < |w.conns| && w.conns[c].alive ==> w.conns[c].fd != fd
  }

  function CloseTimes(w: World, c: ConnId, times: nat): World
    requires c < |w.conns| && w.conns[c].loop < |w.loops|
  {
    if times == 0 then w
    else if times == 1 then HandleClose(w, c)
    else HandleClose(HandleClose(w, c), c)
  }

  /** handleWrite emptying the buffer: a closed connection then wants no event any more, while
      a live one goes on reading. */
  function Drained(w: World, c: ConnId): World
    requires c < |w.conns|
  {
    var i := w.conns[c];
    if !i.writing then w
    else SetConn(w, c, i.(writing := false, index := if i.downs == 0 then i.index else AfterDisableAll(i.index)))
  }

  function Handled(w: World, c: ConnId, closes: nat, drains: bool): World
    requires c < |w.conns| && w.conns[c].loop < |w.loops|
  {
    if closes == 0 && drains then Drained(w, c) else CloseTimes(w, c, closes)
  }

  function Popped(w: World, l: LoopId): World
    requires l < |w.loops| && w.loops[l].active != []
  {
    w.(loops := w.loops[l := w.loops[l].(active := w.loops[l].active[1..])])
  }

  function Advanced(w: World, l: LoopId): World
    requires l < |w.loops|
  {
    w.(loops := w.loops[l := w.loops[l].(next := w.loops[l].next + 1)])
  }

  ghost function Step(w: World, a: Action): World
    requires Enabled(w, a)
  {
    match a
    case Accept(fd, l) => NewConnection(w, fd, l)
    case PollReturn(l, ready) =>
      w.(loops := w.loops[l := w.loops[l].(stage := Dispatching, active := ready)])
    case HandleEvent(l, closes, drains) =>
      var c := w.loops[l].active[0];
      if Held(w, c) then Handled(Popped(w, l), c, closes, drains) else Popped(w, l)
    case Swap(l) =>
      w.(loops := w.loops[l := w.loops[l].(stage := Executing, batch := w.loops[l].pending, pending := [], next := 0)])
    case RunNext(l, keeps) => Execute(Advanced(w, l), w.loops[l].batch[w.loops[l].next], keeps)
    case EndPass(l) => w.(loops := w.loops[l := w.loops[l].(stage := Waiting, batch := [], next := 0)])
    case ShutdownTest(c) => if w.conns[c].state == Connected then w.(tokens := w.tokens + multiset{c}) else w
    case ShutdownStore(c) =>
      SetConn(w, c, w.conns[c].(state := Disconnecting)).(tokens := w.tokens - multiset{c})
    case OwnSend(c) => SendInLoop(w, c, true)
    case SendTest(c) => if w.conns[c].state == Connected then w.(sending := w.sending + multiset{c}) else w
    case SendPush(c) => Push(w.(sending := w.sending - multiset{c}), w.conns[c].loop, Functor.Send(c))
    case QueueCallback(c) => Push(w, w.conns[c].loop, Callback(c))
    case Take(c) => w.(held := w.held + multiset{c})
    case Drop(c) => w.(held := w.held - multiset{c})
    case Destruct(c) => SetConn(w, c, w.conns[c].(alive := false)).(open := w.open - {w.conns[c].fd})
    case OpenOther(fd) => w.(open := w.open + {fd})
    case CloseOther(fd) => w.(open := w.open - {fd})
  }

  // ---------- What every interleaving keeps ----------

  /** Everything refers to connections and loops that exist, and the stages make sense. */
  ghost predicate Shaped(w: World) {
    && MAIN < |w.loops|
    && (forall c :: 0 <= c < |w.conns| ==> w.conns[c].loop < |w.loops|)
    && (forall l :: 0 <= l < |w.loops| ==>
          && w.loops[l].next <= |w.loops[l].batch|
          && (w.loops[l].stage != Executing ==> w.loops[l].batch == [])
          && (w.loops[l].stage != Dispatching ==> w.loops[l].active == []))
  }

  /** What a loop has yet to run stands on the right loop and finds its connection in the
      state it expects. */
  predicate FunctorOk(w: World, l: LoopId, f: Functor) {
    && f.c < |w.conns|
    && match f
       case Establish(c) =>
         w.conns[c].loop == l && w.conns[c].state == Connecting && w.conns[c].index == Polling.New && c in w.connections
       case RemoveInLoop(c) => l == MAIN && 0 < w.conns[c].downs
       case Destroy(c) => w.conns[c].loop == l && 0 < w.conns[c].downs && c !in w.connections
       case Send(c) => w.conns[c].loop == l && w.conns[c].state != Connecting
       case Callback(c) => true
  }

  ghost predicate Queues(w: World) {
    && (forall l, f :: 0 <= l < |w.loops| && f in Todo(w.loops[l]) ==> FunctorOk(w, l, f))
    && (forall l, i, j :: 0 <= l < |w.loops| && 0 <= i < j < |Todo(w.loops[l])| && Todo(w.loops[l])[i].Establish? ==>
          Todo(w.loops[l])[i] != Todo(w.loops[l])[j])
  }

  /** A reference keeps the object alive, and a live object keeps an fd of its own open. */
  ghost predicate Owning(w: World) {
    && (forall c: ConnId :: Held(w, c) ==> c < |w.conns| && w.conns[c].alive)
    && (forall c :: 0 <= c < |w.conns| && w.conns[c].alive ==> w.conns[c].fd in w.open)
    && (forall c, d :: 0 <= c < d < |w.conns| && w.conns[c].alive && w.conns[d].alive ==>
          w.conns[c].fd != w.conns[d].fd)
  }

  /** A registered channel's connection is in the map or about to be destroyed by its loop. */
  predicate RegistrationOk(w: World, c: ConnId)
    requires c < |w.conns| && w.conns[c].loop < |w.loops|
  {
    w.conns[c].index != Polling.New ==> c in w.connections || Destroy(c) in Todo(w.loops[w.conns[c].loop])
  }

  /** A connection once closed is on its way out: its removal or its destruction is queued,
      or it is out of the map and out of the poller. */
  predicate DepartureOk(w: World, c: ConnId)
    requires c < |w.conns| && w.conns[c].loop < |w.loops| && MAIN < |w.loops|
  {
    0 < w.conns[c].downs ==>
      || RemoveInLoop(c) in Todo(w.loops[MAIN])
      || (c !in w.connections && (Destroy(c) in Todo(w.loops[w.conns[c].loop]) || w.conns[c].index == Polling.New))
  }

  predicate CountsOk(i: ConnInfo) {
    && (i.state == Connecting ==> i.index == Polling.New)
    && i.ups == (if i.state == Connecting then 0 else 1)
    && (i.state == Disconnected ==> 0 < i.downs)
    && (0 < i.downs ==> i.state == Disconnected || i.state == Disconnecting)
    && (i.state != Connecting && i.downs == 0 ==> i.index == Polling.Added)
  }

  /** A connection whose channel connectDestroyed has removed is out of the map. */
  predicate RemovalOk(w: World, c: ConnId)
    requires c < |w.conns|
  {
    w.conns[c].index == Polling.New && w.conns[c].state != Connecting ==> c !in w.connections
  }

  /** A connection that is not established yet is about to be, by its own loop; and on loop 0
      none has to wait for that. */
  predicate EstablishOk(w: World, c: ConnId)
    requires c < |w.conns| && w.conns[c].loop < |w.loops|
  {
    w.conns[c].state == Connecting ==> w.conns[c].loop != MAIN && Establish(c) in Todo(w.loops[w.conns[c].loop])
  }

  /** The record of one connection. `strays` are those whose queued send has registered them
      again after connectDestroyed: nothing is promised about who owns them. */
  predicate RecordOk(w: World, strays: set<ConnId>, c: ConnId)
    requires c < |w.conns| && w.conns[c].loop < |w.loops| && MAIN < |w.loops|
  {
    && CountsOk(w.conns[c]) && RemovalOk(w, c) && EstablishOk(w, c)
    && (c !in strays ==> RegistrationOk(w, c) && DepartureOk(w, c))
  }

  ghost predicate Records(w: World, strays: set<ConnId>)
    requires Shaped(w)
  {
    forall c :: 0 <= c < |w.conns| ==> RecordOk(w, strays, c)
  }

  /** The records of all connections but one, while that one is being changed. */
  ghost predicate RecordsBut(w: World, strays: set<ConnId>, c: ConnId)
    requires Shaped(w)
  {
    forall d :: 0 <= d < |w.conns| && d != c ==> RecordOk(w, strays, d)
  }

  /** Channels waiting to be handled are each there once, in the kernel's set of their own
      loop's poller. */
  predicate ActiveOk(w: World, l: LoopId)
    requires l < |w.loops|
  {
    var active := w.loops[l].active;
    && (forall i :: 0 <= i < |active| ==>
          active[i] < |w.conns| && w.conns[active[i]].loop == l && w.conns[active[i]].index == Polling.Added)
    && (forall i, j :: 0 <= i < j < |active| ==> active[i] != active[j])
  }

  ghost predicate Actives(w: World) {
    forall l :: 0 <= l < |w.loops| ==> ActiveOk(w, l)
  }

  /** Only an established connection passes the test of shutdown() or send(). */
  ghost predicate Tokens(w: World) {
    forall c: ConnId :: c in w.tokens || c in w.sending ==> c < |w.conns| && w.conns[c].state != Connecting
  }

  ghost predicate Core(w: World) {
    Shaped(w) && Queues(w) && Owning(w) && Actives(w) && Tokens(w)
  }

  ghost predicate Invariant(w: World, strays: set<ConnId>) {
    Core(w) && Records(w, strays)
  }

  lemma ExemptingMore(w: World, strays: set<ConnId>, y: set<ConnId>)
    requires Invariant(w, strays) && strays <= y
    ensures Invariant(w, y)
  {
    forall c | 0 <= c < |w.conns| ensures RecordOk(w, y, c) {
      assert RecordOk(w, strays, c);
    }
  }

  // ---------- Queues ----------

  lemma TodoAfterPush(loop: LoopInfo, f: Functor)
    ensures Todo(loop.(pending := loop.pending + [f])) == Todo(loop) + [f]
  {
  }

  lemma TodoAfterSwap(loop: LoopInfo)
    requires loop.batch == [] && loop.next == 0
    ensures Todo(loop.(stage := Executing, batch := loop.pending, pending := [], next := 0)) == Todo(loop)
  {
  }

  lemma TodoAfterAdvance(loop: LoopInfo)
    requires loop.next < |loop.batch|
    ensures Todo(loop) == [loop.batch[loop.next]] + Todo(loop.(next := loop.next + 1))
  {
  }

  lemma TodoAfterPass(loop: LoopInfo)
    requires loop.next == |loop.batch|
    ensures Todo(loop.(stage := Waiting, batch := [], next := 0)) == Todo(loop)
  {
  }

  /** A functor yet to run keeps its connection. */
  lemma TodoHolds(w: World, l: LoopId, f: Functor)
    requires l < |w.loops| && f in Todo(w.loops[l])
    ensures Held(w, f.c)
  {
    var loop := w.loops[l];
    assert f in loop.batch || f in loop.pending;
    assert QueueHolds(w, l, f.c);
  }

  lemma PushHolds(w: World, l: LoopId, f: Functor)
    requires l < |w.loops| && Held(w, f.c)
    ensures forall c: ConnId :: Held(Push(w, l, f), c) ==> Held(w, c)
  {
    var v := Push(w, l, f);
    forall c: ConnId | Held(v, c) ensures Held(w, c) {
      if c !in v.connections && c !in v.held && c != f.c {
        var k :| QueueHolds(v, k, c);
        assert QueueHolds(w, k, c);
      }
    }
  }

  // ---------- Steps that leave every connection and every queue as they were ----------

  ghost predicate SameWork(w: World, v: World) {
    && v.conns == w.conns && v.connections == w.connections && |v.loops| == |w.loops|
    && v.tokens <= w.tokens && v.sending <= w.sending
    && forall l :: 0 <= l < |w.loops| ==> Todo(v.loops[l]) == Todo(w.loops[l])
  }

  lemma SameWorkKeeps(w: World, v: World, strays: set<ConnId>)
    requires Invariant(w, strays) && SameWork(w, v) && Shaped(v)
    ensures Queues(v) && Records(v, strays) && Tokens(v)
  {
    forall l, f | 0 <= l < |v.loops| && f in Todo(v.loops[l]) ensures FunctorOk(v, l, f) {
      assert f in Todo(w.loops[l]);
      assert FunctorOk(w, l, f);
    }
    forall c | 0 <= c < |v.conns| ensures RecordOk(v, strays, c) {
      assert RecordOk(w, strays, c);
    }
  }

  /** References may only go, and the fds of live connections stay open. */
  lemma OwningShrinks(w: World, v: World)
    requires Owning(w) && v.conns == w.conns
    requires forall c: ConnId :: Held(v, c) ==> Held(w, c)
    requires forall c :: 0 <= c < |w.conns| && w.conns[c].alive ==> w.conns[c].fd in v.open
    ensures Owning(v)
  {
  }

  /** No queue holds a functor that it did not hold before. */
  ghost predicate QueuesWithin(v: World, w: World) {
    && |v.loops| == |w.loops|
    && forall l, f :: 0 <= l < |w.loops| && (f in v.loops[l].batch || f in v.loops[l].pending) ==>
         f in w.loops[l].batch || f in w.loops[l].pending
  }

  lemma SameQueuesHeld(w: World, v: World, c: ConnId)
    requires Held(v, c) && v.connections <= w.connections && v.held <= w.held && QueuesWithin(v, w)
    ensures Held(w, c)
  {
    if c !in v.connections && c !in v.held {
      var k :| QueueHolds(v, k, c);
      assert QueueHolds(w, k, c);
    }
  }

  /** PollReturn, Swap and EndPass move one loop from stage to stage. */
  lemma StageKeeps(w: World, v: World, strays: set<ConnId>)
    requires Invariant(w, strays) && SameWork(w, v) && Shaped(v)
    requires v.held == w.held && v.open == w.open && QueuesWithin(v, w) && Actives(v)
    ensures Invariant(v, strays)
  {
    SameWorkKeeps(w, v, strays);
    forall c: ConnId | Held(v, c) ensures Held(w, c) {
      SameQueuesHeld(w, v, c);
    }
    OwningShrinks(w, v);
  }

  /** What these three steps do, without what they keep. */
  lemma StageWork(w: World, a: Action)
    requires Shaped(w) && Enabled(w, a) && (a.PollReturn? || a.Swap? || a.EndPass?)
    ensures SameWork(w, Step(w, a)) && Shaped(Step(w, a))
  {
    if a.Swap? {
      TodoAfterSwap(w.loops[a.l]);
    } else if a.EndPass? {
      TodoAfterPass(w.loops[a.l]);
    }
  }

  lemma StageQueues(w: World, a: Action)
    requires Shaped(w) && Enabled(w, a) && (a.PollReturn? || a.Swap? || a.EndPass?)
    ensures QueuesWithin(Step(w, a), w)
  {
  }

  lemma StageActives(w: World, a: Action)
    requires Actives(w) && Enabled(w, a) && (a.PollReturn? || a.Swap? || a.EndPass?)
    ensures Actives(Step(w, a))
  {
    forall k | 0 <= k < |w.loops| ensures ActiveOk(Step(w, a), k) {
      assert ActiveOk(w, k);
    }
  }

  lemma StageStepKeeps(w: World, a: Action, strays: set<ConnId>)
    requires Invariant(w, strays) && Enabled(w, a) && (a.PollReturn? || a.Swap? || a.EndPass?)
    ensures Invariant(Step(w, a), strays)
  {
    StageWork(w, a);
    StageQueues(w, a);
    StageActives(w, a);
    StageKeeps(w, Step(w, a), strays);
  }

  lemma ReferencesOwn(w: World, a: Action)
    requires Owning(w) && Enabled(w, a) && (a.Take? || a.Drop? || a.OpenOther? || a.CloseOther?)
    ensures Owning(Step(w, a))
  {
    var v := Step(w, a);
    forall c: ConnId | Held(v, c) ensures Held(w, c) {
      if a.Take? && c == a.c {
      } else if c !in v.connections && c !in v.held {
        var k :| QueueHolds(v, k, c);
        assert QueueHolds(w, k, c);
      }
    }
    OwningShrinks(w, v);
  }

  lemma ReferencesKeep(w: World, a: Action, strays: set<ConnId>)
    requires Invariant(w, strays) && Enabled(w, a) && (a.Take? || a.Drop? || a.OpenOther? || a.CloseOther?)
    ensures Invariant(Step(w, a), strays)
  {
    var v := Step(w, a);
    SameWorkKeeps(w, v, strays);
    ReferencesOwn(w, a);
    forall l | 0 <= l < |v.loops| ensures ActiveOk(v, l) {
      assert ActiveOk(w, l);
    }
  }

  lemma DestructOwns(w: World, c: ConnId)
    requires Owning(w) && Enabled(w, Destruct(c))
    ensures Owning(Step(w, Destruct(c)))
  {
    var v := Step(w, Destruct(c));
    forall d: ConnId | Held(v, d) ensures d < |v.conns| && v.conns[d].alive {
      SameQueuesHeld(w, v, d);
    }
  }

  /** Only an object without references is destroyed; unless it is a stray, its channel is
      then not registered. */
  lemma DestructKeeps(w: World, c: ConnId, strays: set<ConnId>)
    requires Invariant(w, strays) && Enabled(w, Destruct(c))
    ensures c !in strays ==> w.conns[c].index == Polling.New
    ensures Invariant(Step(w, Destruct(c)), strays)
  {
    var v := Step(w, Destruct(c));
    assert RecordOk(w, strays, c);
    if Destroy(c) in Todo(w.loops[w.conns[c].loop]) {
      TodoHolds(w, w.conns[c].loop, Destroy(c));
    }
    DestructOwns(w, c);
    forall l, f | 0 <= l < |v.loops| && f in Todo(v.loops[l]) ensures FunctorOk(v, l, f) {
      assert f in Todo(w.loops[l]) && FunctorOk(w, l, f);
    }
    forall d | 0 <= d < |v.conns| ensures RecordOk(v, strays, d) {
      assert RecordOk(w, strays, d);
    }
    forall l | 0 <= l < |v.loops| ensures ActiveOk(v, l) {
      assert ActiveOk(w, l);
    }
  }

  // ---------- Steps that change one connection or one queue ----------

  /** Changing a held connection's record, other than its loop, fd and existence. */
  lemma SetConnOwns(w: World, c: ConnId, i: ConnInfo)
    requires c < |w.conns| && Owning(w)
    requires i.fd == w.conns[c].fd && i.alive == w.conns[c].alive
    ensures Owning(SetConn(w, c, i))
  {
    var v := SetConn(w, c, i);
    forall d: ConnId | Held(v, d) ensures d < |v.conns| && v.conns[d].alive {
      SameQueuesHeld(w, v, d);
    }
  }

  lemma PushOwns(w: World, l: LoopId, f: Functor)
    requires Owning(w) && l < |w.loops| && Held(w, f.c)
    ensures Owning(Push(w, l, f))
  {
    PushHolds(w, l, f);
    OwningShrinks(w, Push(w, l, f));
  }

  /** Pushing a well-placed functor other than connectEstablished keeps the queues in order. */
  lemma PushQueues(w: World, l: LoopId, f: Functor)
    requires Queues(w) && l < |w.loops| && FunctorOk(w, l, f) && !f.Establish?
    ensures Queues(Push(w, l, f))
    ensures forall k, g :: 0 <= k < |w.loops| && g in Todo(w.loops[k]) ==> g in Todo(Push(w, l, f).loops[k])
    ensures f in Todo(Push(w, l, f).loops[l])
  {
    var v := Push(w, l, f);
    TodoAfterPush(w.loops[l], f);
    forall k, g | 0 <= k < |v.loops| && g in Todo(v.loops[k]) ensures FunctorOk(v, k, g) {
      assert (k == l && g == f) || g in Todo(w.loops[k]);
      assert FunctorOk(w, k, g);
    }
  }

  lemma TestKeeps(w: World, a: Action, strays: set<ConnId>)
    requires Invariant(w, strays) && Enabled(w, a) && (a.ShutdownTest? || a.SendTest?)
    ensures Invariant(Step(w, a), strays)
  {
    var v := Step(w, a);
    forall d: ConnId | Held(v, d) ensures Held(w, d) {
      SameQueuesHeld(w, v, d);
    }
    OwningShrinks(w, v);
    forall l | 0 <= l < |v.loops| ensures ActiveOk(v, l) {
      assert ActiveOk(w, l);
    }
    forall d | 0 <= d < |v.conns| ensures RecordOk(v, strays, d) {
      assert RecordOk(w, strays, d);
    }
    forall l, f | 0 <= l < |v.loops| && f in Todo(v.loops[l]) ensures FunctorOk(v, l, f) {
      assert FunctorOk(w, l, f);
    }
  }

  lemma ShutdownStoreKeeps(w: World, c: ConnId, strays: set<ConnId>)
    requires Invariant(w, strays) && Enabled(w, ShutdownStore(c))
    ensures Invariant(Step(w, ShutdownStore(c)), strays)
  {
    var u := w.(tokens := w.tokens - multiset{c});
    ReferencesGone(w, u, strays);
    StoreRecordKeeps(u, c, strays);
  }

  /** Fewer tokens, and nothing else changed. */
  lemma ReferencesGone(w: World, u: World, strays: set<ConnId>)
    requires Invariant(w, strays) && u == w.(tokens := u.tokens, sending := u.sending)
    requires u.tokens <= w.tokens && u.sending <= w.sending
    ensures Invariant(u, strays)
    ensures forall c: ConnId :: Held(w, c) ==> Held(u, c)
  {
    forall l | 0 <= l < |u.loops| ensures ActiveOk(u, l) {
      assert ActiveOk(w, l);
    }
    StageKeeps(w, u, strays);
    forall c: ConnId | Held(w, c) ensures Held(u, c) {
      HeldSame(w, u, c);
    }
  }

  lemma StoreRecordKeeps(u: World, c: ConnId, strays: set<ConnId>)
    requires Invariant(u, strays) && c < |u.conns| && u.conns[c].state != Connecting
    ensures Invariant(SetConn(u, c, u.conns[c].(state := Disconnecting)), strays)
  {
    var v := SetConn(u, c, u.conns[c].(state := Disconnecting));
    assert RecordOk(u, strays, c);
    SetConnOwns(u, c, v.conns[c]);
    forall l, f | 0 <= l < |v.loops| && f in Todo(v.loops[l]) ensures FunctorOk(v, l, f) {
      assert FunctorOk(u, l, f);
    }
    forall d | 0 <= d < |v.conns| ensures RecordOk(v, strays, d) {
      assert RecordOk(u, strays, d);
    }
    forall l | 0 <= l < |v.loops| ensures ActiveOk(v, l) {
      assert ActiveOk(u, l);
    }
  }

  /** Queueing a send or a callback. */
  lemma PushKeeps(w: World, l: LoopId, f: Functor, strays: set<ConnId>)
    requires Invariant(w, strays) && l < |w.loops| && FunctorOk(w, l, f) && Held(w, f.c) && (f.Send? || f.Callback?)
    ensures Invariant(Push(w, l, f), strays)
  {
    PushOwns(w, l, f);
    PushQueues(w, l, f);
    PushActives(w, l, f);
    PushRecords(w, l, f, strays);
  }

  lemma PushActives(w: World, l: LoopId, f: Functor)
    requires Actives(w) && l < |w.loops|
    ensures Actives(Push(w, l, f))
  {
    forall k | 0 <= k < |w.loops| ensures ActiveOk(Push(w, l, f), k) {
      assert ActiveOk(w, k);
    }
  }

  lemma PushRecords(w: World, l: LoopId, f: Functor, strays: set<ConnId>)
    requires Shaped(w) && Records(w, strays) && l < |w.loops|
    ensures Shaped(Push(w, l, f)) && Records(Push(w, l, f), strays)
  {
    var v := Push(w, l, f);
    TodoAfterPush(w.loops[l], f);
    forall d | 0 <= d < |v.conns| ensures RecordOk(v, strays, d) {
      assert RecordOk(w, strays, d);
    }
  }

  lemma SendPushKeeps(w: World, c: ConnId, strays: set<ConnId>)
    requires Invariant(w, strays) && Enabled(w, SendPush(c))
    ensures Invariant(Step(w, SendPush(c)), strays)
  {
    var u := w.(sending := w.sending - multiset{c});
    ReferencesGone(w, u, strays);
    PushKeeps(u, u.conns[c].loop, Functor.Send(c), strays);
  }

  lemma RemoveOwns(w: World, c: ConnId)
    requires Owning(w) && c < |w.conns| && w.conns[c].loop < |w.loops| && Held(w, c)
    ensures Owning(RemoveConnectionInLoop(w, c))
  {
    var v := RemoveConnectionInLoop(w, c);
    forall d: ConnId | Held(v, d) ensures d < |v.conns| && v.conns[d].alive {
      if d != c && d !in v.connections && d !in v.held {
        var k :| QueueHolds(v, k, d);
        assert QueueHolds(w, k, d);
      }
      assert Held(w, d);
    }
  }

  lemma RemoveQueues(w: World, c: ConnId)
    requires Shaped(w) && Queues(w) && c < |w.conns| && w.conns[c].state != Connecting && 0 < w.conns[c].downs
    ensures var v := RemoveConnectionInLoop(w, c);
            && Queues(v) && Destroy(c) in Todo(v.loops[w.conns[c].loop])
            && forall k, g :: 0 <= k < |w.loops| && g in Todo(w.loops[k]) ==> g in Todo(v.loops[k])
  {
    var u := w.(connections := w.connections - {c});
    forall k, f | 0 <= k < |u.loops| && f in Todo(u.loops[k]) ensures FunctorOk(u, k, f) {
      assert FunctorOk(w, k, f);
    }
    PushQueues(u, w.conns[c].loop, Destroy(c));
  }

  lemma RemoveRecords(w: World, c: ConnId, strays: set<ConnId>)
    requires Shaped(w) && Records(w, strays + {c}) && c < |w.conns|
    ensures var v := RemoveConnectionInLoop(w, c);
            Shaped(v) && Records(v, strays)
  {
    var v := RemoveConnectionInLoop(w, c);
    TodoAfterPush(w.loops[w.conns[c].loop], Destroy(c));
    forall d | 0 <= d < |v.conns| ensures RecordOk(v, strays, d) {
      assert RecordOk(w, strays + {c}, d);
    }
  }

  lemma RemoveActives(w: World, c: ConnId)
    requires Actives(w) && c < |w.conns| && w.conns[c].loop < |w.loops|
    ensures Actives(RemoveConnectionInLoop(w, c))
  {
    forall k | 0 <= k < |w.loops| ensures ActiveOk(RemoveConnectionInLoop(w, c), k) {
      assert ActiveOk(w, k);
    }
  }

  /** Removal from the map, on loop 0: the destruction takes over as the reason to stay. So
      the record of the connection itself need not have been in order before. */
  lemma RemoveKeeps(w: World, c: ConnId, strays: set<ConnId>)
    requires Invariant(w, strays + {c}) && c < |w.conns| && Held(w, c) && 0 < w.conns[c].downs
    ensures Invariant(RemoveConnectionInLoop(w, c), strays)
  {
    assert RecordOk(w, strays + {c}, c);
    RemoveQueues(w, c);
    RemoveOwns(w, c);
    RemoveActives(w, c);
    RemoveRecords(w, c, strays);
  }

  /** handleClose up to its callbacks: only the departure is still to be queued. */
  lemma ClosedRecordKeeps(w: World, c: ConnId, strays: set<ConnId>)
    requires Invariant(w, strays) && c < |w.conns| && Held(w, c) && w.conns[c].index != Polling.New
    requires c !in w.loops[w.conns[c].loop].active
    ensures var u := SetConn(w, c, ClosedRecord(w.conns[c]));
            && Invariant(u, strays + {c}) && Held(u, c) && 0 < u.conns[c].downs
            && (c !in strays ==> RegistrationOk(u, c))
  {
    var u := SetConn(w, c, ClosedRecord(w.conns[c]));
    assert RecordOk(w, strays, c);
    SetConnOwns(w, c, u.conns[c]);
    forall k, f | 0 <= k < |u.loops| && f in Todo(u.loops[k]) ensures FunctorOk(u, k, f) {
      assert FunctorOk(w, k, f);
    }
    forall k | 0 <= k < |u.loops| ensures ActiveOk(u, k) {
      assert ActiveOk(w, k);
    }
    forall d | 0 <= d < |u.conns| ensures RecordOk(u, strays + {c}, d) {
      assert RecordOk(w, strays, d);
    }
    HeldSame(w, u, c);
  }

  /** Queueing the removal on loop 0, from another loop. */
  lemma QueueRemovalKeeps(u: World, c: ConnId, strays: set<ConnId>)
    requires Invariant(u, strays + {c}) && c < |u.conns| && Held(u, c) && 0 < u.conns[c].downs
    requires c !in strays ==> RegistrationOk(u, c)
    ensures Invariant(Push(u, MAIN, RemoveInLoop(c)), strays) && Held(Push(u, MAIN, RemoveInLoop(c)), c)
  {
    var v := Push(u, MAIN, RemoveInLoop(c));
    PushOwns(u, MAIN, RemoveInLoop(c));
    PushQueues(u, MAIN, RemoveInLoop(c));
    PushActives(u, MAIN, RemoveInLoop(c));
    PushRecords(u, MAIN, RemoveInLoop(c), strays + {c});
    TodoHolds(v, MAIN, RemoveInLoop(c));
    forall d | 0 <= d < |v.conns| ensures RecordOk(v, strays, d) {
      assert RecordOk(v, strays + {c}, d);
    }
  }

  /** Closing a registered connection queues its departure and leaves it registered. */
  lemma HandleCloseKeeps(w: World, c: ConnId, strays: set<ConnId>)
    requires Invariant(w, strays) && c < |w.conns| && Held(w, c) && w.conns[c].index != Polling.New
    requires c !in w.loops[w.conns[c].loop].active
    ensures var v := HandleClose(w, c);
            && Invariant(v, strays) && Held(v, c) && v.conns[c].index != Polling.New
            && c !in v.loops[v.conns[c].loop].active
  {
    var u := SetConn(w, c, ClosedRecord(w.conns[c]));
    ClosedRecordKeeps(w, c, strays);
    if w.conns[c].loop == MAIN {
      RemoveKeeps(u, c, strays);
      TodoAfterPush(u.loops[MAIN], Destroy(c));
      TodoHolds(RemoveConnectionInLoop(u, c), MAIN, Destroy(c));
    } else {
      QueueRemovalKeeps(u, c, strays);
    }
  }

  lemma HeldSame(w: World, u: World, c: ConnId)
    requires Held(w, c) && u.connections == w.connections && u.held == w.held && |u.loops| == |w.loops|
    requires forall l :: 0 <= l < |w.loops| ==>
               u.loops[l].batch == w.loops[l].batch && u.loops[l].pending == w.loops[l].pending
    ensures Held(u, c)
  {
    if c !in w.connections && c !in w.held {
      var k :| QueueHolds(w, k, c);
      assert QueueHolds(u, k, c);
    }
  }

  /** A registered channel's connection is referenced. */
  lemma RegisteredIsHeld(w: World, c: ConnId, strays: set<ConnId>)
    requires Invariant(w, strays) && c < |w.conns| && c !in strays && w.conns[c].index != Polling.New
    ensures Held(w, c) && (c in w.connections || Mentions(Todo(w.loops[w.conns[c].loop]), c))
  {
    assert RecordOk(w, strays, c);
    if c !in w.connections {
      TodoHolds(w, w.conns[c].loop, Destroy(c));
    }
  }

  lemma PoppedActives(w: World, l: LoopId)
    requires Actives(w) && l < |w.loops| && w.loops[l].active != []
    ensures var u, c := Popped(w, l), w.loops[l].active[0];
            && Actives(u) && c !in u.loops[l].active
            && c < |w.conns| && w.conns[c].loop == l && w.conns[c].index == Polling.Added
  {
    var c, u := w.loops[l].active[0], Popped(w, l);
    assert ActiveOk(w, l);
    forall i | 0 <= i < |u.loops[l].active| ensures u.loops[l].active[i] == w.loops[l].active[i + 1] != c {
    }
    forall k | 0 <= k < |u.loops| ensures ActiveOk(u, k) {
      assert ActiveOk(w, k);
    }
  }

  /** Taking the next active channel: it is in the kernel's set, and not reported again. */
  lemma PoppedKeeps(w: World, l: LoopId, strays: set<ConnId>)
    requires Invariant(w, strays) && l < |w.loops| && w.loops[l].active != []
    ensures var u, c := Popped(w, l), w.loops[l].active[0];
            && Invariant(u, strays) && c < |w.conns| && w.conns[c].loop == l && w.conns[c].index == Polling.Added
            && c !in u.loops[l].active && (Held(w, c) ==> Held(u, c))
  {
    var c, u := w.loops[l].active[0], Popped(w, l);
    PoppedActives(w, l);
    forall k | 0 <= k < |u.loops| ensures Todo(u.loops[k]) == Todo(w.loops[k]) {
    }
    StageKeeps(w, u, strays);
    if Held(w, c) {
      HeldSame(w, u, c);
    }
  }

  lemma DrainedKeeps(u: World, c: ConnId, strays: set<ConnId>)
    requires Invariant(u, strays) && c < |u.conns| && u.conns[c].index == Polling.Added
    requires c !in u.loops[u.conns[c].loop].active
    ensures Invariant(Drained(u, c), strays)
  {
    assert RecordOk(u, strays, c);
    if u.conns[c].writing {
      ConnChangeKeeps(u, c, Drained(u, c).conns[c], strays);
    }
  }

  lemma HandleEventKeeps(w: World, l: LoopId, closes: nat, drains: bool, strays: set<ConnId>)
    requires Invariant(w, strays) && Enabled(w, HandleEvent(l, closes, drains))
    ensures Invariant(Step(w, HandleEvent(l, closes, drains)), strays)
  {
    var c := w.loops[l].active[0];
    var u := Popped(w, l);
    PoppedKeeps(w, l, strays);
    if !Held(w, c) {
    } else if closes == 0 {
      DrainedKeeps(u, c, strays);
    } else {
      HandleCloseKeeps(u, c, strays);
      if closes == 2 {
        HandleCloseKeeps(HandleClose(u, c), c, strays);
      }
    }
  }

  lemma AdvanceQueues(w: World, l: LoopId)
    requires Queues(w) && l < |w.loops| && w.loops[l].next < |w.loops[l].batch|
    ensures var u, f := Advanced(w, l), w.loops[l].batch[w.loops[l].next];
            && Queues(u) && FunctorOk(u, l, f)
            && (forall k, g :: 0 <= k < |w.loops| && g in Todo(w.loops[k]) && !(k == l && g == f) ==>
                  g in Todo(u.loops[k]))
            && (f.Establish? ==> f !in Todo(u.loops[l]))
  {
    var u, f := Advanced(w, l), w.loops[l].batch[w.loops[l].next];
    TodoAfterAdvance(w.loops[l]);
    var all, rest := Todo(w.loops[l]), Todo(u.loops[l]);
    assert all == [f] + rest && all[0] == f;
    assert FunctorOk(w, l, f);
    forall k, g | 0 <= k < |u.loops| && g in Todo(u.loops[k]) ensures FunctorOk(u, k, g) {
      assert g in Todo(w.loops[k]) && FunctorOk(w, k, g);
    }
    forall i, j | 0 <= i < j < |rest| && rest[i].Establish? ensures rest[i] != rest[j] {
      assert all[i + 1] == rest[i] && all[j + 1] == rest[j];
    }
    forall j | 0 <= j < |rest| && f.Establish? ensures rest[j] != f {
      assert all[j + 1] == rest[j];
    }
  }

  /** What is left to run after the head of the batch. */
  lemma AdvanceKeeps(w: World, l: LoopId, keeps: bool, strays: set<ConnId>)
    requires Invariant(w, strays) && Enabled(w, RunNext(l, keeps))
    ensures var u, f := Advanced(w, l), w.loops[l].batch[w.loops[l].next];
            && Core(u) && Held(u, f.c) && FunctorOk(u, l, f)
            && (forall k, g :: 0 <= k < |w.loops| && g in Todo(w.loops[k]) && !(k == l && g == f) ==>
                  g in Todo(u.loops[k]))
            && (f.Establish? ==> f !in Todo(u.loops[l]))
  {
    var u, f := Advanced(w, l), w.loops[l].batch[w.loops[l].next];
    AdvanceQueues(w, l);
    forall d: ConnId | Held(u, d) ensures Held(w, d) {
      SameQueuesHeld(w, u, d);
    }
    OwningShrinks(w, u);
    forall k | 0 <= k < |u.loops| ensures ActiveOk(u, k) {
      assert ActiveOk(w, k);
    }
    assert f in u.loops[l].batch;
    assert QueueHolds(u, l, f.c);
  }

  /** The records a functor does not concern survive its leaving the queue. */
  lemma AdvanceRecords(w: World, l: LoopId, keeps: bool, strays: set<ConnId>)
    requires Invariant(w, strays) && Enabled(w, RunNext(l, keeps))
    ensures var u, f := Advanced(w, l), w.loops[l].batch[w.loops[l].next];
            && Core(u) && RecordsBut(u, strays, f.c)
            && (f.RemoveInLoop? ==> Invariant(u, strays + {f.c}))
            && (f.Callback? || f.Send? ==> Invariant(u, strays))
  {
    AdvanceQueues(w, l);
    AdvanceKeeps(w, l, keeps, strays);
    var u, f := Advanced(w, l), w.loops[l].batch[w.loops[l].next];
    forall d | 0 <= d < |u.conns|
      ensures d != f.c || f.Callback? || f.Send? ==> RecordOk(u, strays, d)
      ensures f.RemoveInLoop? ==> RecordOk(u, strays + {f.c}, d)
    {
      assert RecordOk(w, strays, d);
    }
  }

  lemma RunRemoveKeeps(w: World, l: LoopId, keeps: bool, strays: set<ConnId>)
    requires Invariant(w, strays) && Enabled(w, RunNext(l, keeps)) && w.loops[l].batch[w.loops[l].next].RemoveInLoop?
    ensures Invariant(Step(w, RunNext(l, keeps)), strays)
  {
    var u, c := Advanced(w, l), w.loops[l].batch[w.loops[l].next].c;
    AdvanceKeeps(w, l, keeps, strays);
    AdvanceRecords(w, l, keeps, strays);
    RemoveKeeps(u, c, strays);
  }

  lemma RunDestroyKeeps(w: World, l: LoopId, keeps: bool, strays: set<ConnId>)
    requires Invariant(w, strays) && Enabled(w, RunNext(l, keeps)) && w.loops[l].batch[w.loops[l].next].Destroy?
    ensures Invariant(Step(w, RunNext(l, keeps)), strays)
  {
    var u, c := Advanced(w, l), w.loops[l].batch[w.loops[l].next].c;
    AdvanceKeeps(w, l, keeps, strays);
    AdvanceRecords(w, l, keeps, strays);
    assert RecordOk(w, strays, c);
    ConnChangeKeeps(u, c, ConnectDestroyed(u, c).conns[c], strays);
  }

  lemma RunEstablishKeeps(w: World, l: LoopId, keeps: bool, strays: set<ConnId>)
    requires Invariant(w, strays) && Enabled(w, RunNext(l, keeps)) && w.loops[l].batch[w.loops[l].next].Establish?
    ensures Invariant(Step(w, RunNext(l, keeps)), strays)
  {
    var u, c := Advanced(w, l), w.loops[l].batch[w.loops[l].next].c;
    AdvanceKeeps(w, l, keeps, strays);
    AdvanceRecords(w, l, keeps, strays);
    assert RecordOk(w, strays, c);
    ConnChangeKeeps(u, c, ConnectEstablished(u, c).conns[c], strays);
  }

  /** A queued send registers a channel again that connectDestroyed has already removed, and
      no other connectDestroyed is queued for it. */
  predicate GoesAstray(u: World, c: ConnId, keeps: bool)
    requires c < |u.conns| && u.conns[c].loop < |u.loops|
  {
    && keeps && u.conns[c].state != Disconnected && !u.conns[c].writing && u.conns[c].index == Polling.New
    && Destroy(c) !in Todo(u.loops[u.conns[c].loop])
  }

  /** The connection that a step makes a stray, if any. */
  ghost function StrayBy(w: World, a: Action): set<ConnId>
    requires Enabled(w, a)
  {
    if a.RunNext? && w.loops[a.l].batch[w.loops[a.l].next].Send?
       && GoesAstray(Advanced(w, a.l), w.loops[a.l].batch[w.loops[a.l].next].c, a.keeps)
    then {w.loops[a.l].batch[w.loops[a.l].next].c} else {}
  }

  lemma RunSendKeeps(w: World, l: LoopId, keeps: bool, strays: set<ConnId>)
    requires Invariant(w, strays) && Enabled(w, RunNext(l, keeps)) && w.loops[l].batch[w.loops[l].next].Send?
    ensures Invariant(Step(w, RunNext(l, keeps)), strays + StrayBy(w, RunNext(l, keeps)))
  {
    var u, c := Advanced(w, l), w.loops[l].batch[w.loops[l].next].c;
    AdvanceKeeps(w, l, keeps, strays);
    AdvanceRecords(w, l, keeps, strays);
    if keeps && u.conns[c].state != Disconnected && !u.conns[c].writing {
      SendKeeps(u, c, strays);
    } else {
      assert strays + StrayBy(w, RunNext(l, keeps)) == strays;
    }
  }

  lemma SendKeeps(u: World, c: ConnId, strays: set<ConnId>)
    requires Invariant(u, strays) && c < |u.conns| && u.conns[c].state != Connecting
    requires u.conns[c].state != Disconnected && !u.conns[c].writing
    ensures Invariant(SendInLoop(u, c, true), strays + if GoesAstray(u, c, true) then {c} else {})
  {
    var stray := if GoesAstray(u, c, true) then {c} else {};
    assert RecordOk(u, strays, c);
    ExemptingMore(u, strays, strays + stray);
    ConnChangeKeeps(u, c, SendInLoop(u, c, true).conns[c], strays + stray);
  }

  lemma OwnSendKeeps(w: World, c: ConnId, strays: set<ConnId>)
    requires Invariant(w, strays) && Enabled(w, OwnSend(c))
    ensures Invariant(Step(w, OwnSend(c)), strays)
  {
    assert RecordOk(w, strays, c);
    if !w.conns[c].writing {
      SendKeeps(w, c, strays);
      assert strays + {} == strays;
    }
  }

  lemma RunNextKeeps(w: World, l: LoopId, keeps: bool, strays: set<ConnId>)
    requires Invariant(w, strays) && Enabled(w, RunNext(l, keeps))
    ensures Invariant(Step(w, RunNext(l, keeps)), strays + StrayBy(w, RunNext(l, keeps)))
  {
    var f := w.loops[l].batch[w.loops[l].next];
    if f.Send? {
      RunSendKeeps(w, l, keeps, strays);
    } else {
      assert strays + StrayBy(w, RunNext(l, keeps)) == strays;
      if f.Establish? {
        RunEstablishKeeps(w, l, keeps, strays);
      } else if f.RemoveInLoop? {
        RunRemoveKeeps(w, l, keeps, strays);
      } else if f.Destroy? {
        RunDestroyKeeps(w, l, keeps, strays);
      } else {
        AdvanceRecords(w, l, keeps, strays);
      }
    }
  }

  /** Writing one connection's record, when the record suits everything that waits for it. */
  lemma ConnChangeKeeps(u: World, c: ConnId, i: ConnInfo, strays: set<ConnId>)
    requires Core(u) && RecordsBut(u, strays, c) && c < |u.conns|
    requires i.state != Connecting || u.conns[c].state == Connecting
    requires i.fd == u.conns[c].fd && i.alive == u.conns[c].alive && i.loop == u.conns[c].loop
    requires i.index == Polling.Added || c !in u.loops[i.loop].active
    requires forall l, f :: 0 <= l < |u.loops| && f in Todo(u.loops[l]) && f.c == c ==>
               FunctorOk(SetConn(u, c, i), l, f)
    requires RecordOk(SetConn(u, c, i), strays, c)
    ensures Invariant(SetConn(u, c, i), strays)
  {
    var v := SetConn(u, c, i);
    SetConnOwns(u, c, i);
    forall l, f | 0 <= l < |v.loops| && f in Todo(v.loops[l]) ensures FunctorOk(v, l, f) {
      assert FunctorOk(u, l, f);
    }
    assert Queues(v);
    forall d | 0 <= d < |v.conns| ensures RecordOk(v, strays, d) {
      assert d != c ==> RecordOk(u, strays, d);
    }
    forall l | 0 <= l < |v.loops| ensures ActiveOk(v, l) {
      assert ActiveOk(u, l);
    }
  }

  lemma AddConnOwns(w: World, fd: Fd, l: LoopId)
    requires Owning(w) && fd !in w.open
    ensures Owning(AddConn(w, fd, l))
  {
    var c, v := |w.conns|, AddConn(w, fd, l);
    forall d: ConnId | Held(v, d) ensures d < |v.conns| && v.conns[d].alive {
      if d != c {
        if d !in v.connections && d !in v.held {
          var k :| QueueHolds(v, k, d);
          assert QueueHolds(w, k, d);
        }
        assert Held(w, d);
      }
    }
  }

  lemma AddConnKeeps(w: World, fd: Fd, l: LoopId, strays: set<ConnId>)
    requires Invariant(w, strays) && fd !in w.open && l < |w.loops|
    ensures var v, c := AddConn(w, fd, l), |w.conns|;
            && Core(v) && RecordsBut(v, strays, c) && Held(v, c)
            && forall k, f :: 0 <= k < |v.loops| && f in Todo(v.loops[k]) ==> f.c != c
  {
    var c, v := |w.conns|, AddConn(w, fd, l);
    AddConnOwns(w, fd, l);
    forall k, f | 0 <= k < |v.loops| && f in Todo(v.loops[k]) ensures FunctorOk(v, k, f) && f.c != c {
      assert FunctorOk(w, k, f);
    }
    forall d | 0 <= d < c ensures RecordOk(v, strays, d) {
      assert RecordOk(w, strays, d);
    }
    forall k | 0 <= k < |v.loops| ensures ActiveOk(v, k) {
      assert ActiveOk(w, k);
    }
  }

  lemma PushEstablishQueues(w: World, l: LoopId, c: ConnId)
    requires Queues(w) && l < |w.loops| && FunctorOk(w, l, Establish(c)) && Establish(c) !in Todo(w.loops[l])
    ensures Queues(Push(w, l, Establish(c)))
    ensures forall k, g :: 0 <= k < |w.loops| && g in Todo(w.loops[k]) ==> g in Todo(Push(w, l, Establish(c)).loops[k])
  {
    var v := Push(w, l, Establish(c));
    TodoAfterPush(w.loops[l], Establish(c));
    forall k, f | 0 <= k < |v.loops| && f in Todo(v.loops[k]) ensures FunctorOk(v, k, f) {
      assert (k == l && f == Establish(c)) || FunctorOk(w, k, f);
    }
  }

  lemma PushEstablishKeeps(w: World, c: ConnId, strays: set<ConnId>)
    requires Core(w) && RecordsBut(w, strays, c) && c < |w.conns| && Held(w, c) && CountsOk(w.conns[c])
    requires w.conns[c].loop != MAIN && w.conns[c].downs == 0 && FunctorOk(w, w.conns[c].loop, Establish(c))
    requires Establish(c) !in Todo(w.loops[w.conns[c].loop])
    ensures Invariant(Push(w, w.conns[c].loop, Establish(c)), strays)
  {
    var l := w.conns[c].loop;
    PushEstablishQueues(w, l, c);
    PushOwns(w, l, Establish(c));
    PushActives(w, l, Establish(c));
    PushEstablishRecords(w, c, strays);
  }

  lemma PushEstablishRecords(w: World, c: ConnId, strays: set<ConnId>)
    requires Shaped(w) && RecordsBut(w, strays, c) && c < |w.conns| && CountsOk(w.conns[c])
    requires w.conns[c].loop != MAIN && w.conns[c].downs == 0 && w.conns[c].state == Connecting
    ensures var v := Push(w, w.conns[c].loop, Establish(c)); Shaped(v) && Records(v, strays)
  {
    var v := Push(w, w.conns[c].loop, Establish(c));
    TodoAfterPush(w.loops[w.conns[c].loop], Establish(c));
    forall d | 0 <= d < |v.conns| ensures RecordOk(v, strays, d) {
      assert d != c ==> RecordOk(w, strays, d);
    }
  }

  lemma AcceptKeeps(w: World, fd: Fd, l: LoopId, strays: set<ConnId>)
    requires Invariant(w, strays) && Enabled(w, Accept(fd, l))
    ensures Invariant(Step(w, Accept(fd, l)), strays)
  {
    var c, v := |w.conns|, AddConn(w, fd, l);
    AddConnKeeps(w, fd, l, strays);
    if l == MAIN {
      ConnChangeKeeps(v, c, ConnectEstablished(v, c).conns[c], strays);
    } else {
      PushEstablishKeeps(v, c, strays);
    }
  }

  lemma OthersKeepInvariant(w: World, a: Action, strays: set<ConnId>)
    requires Invariant(w, strays) && Enabled(w, a) && !a.RunNext? && !a.HandleEvent? && !a.Accept? && !a.Destruct?
    ensures Invariant(Step(w, a), strays)
  {
    if a.PollReturn? || a.Swap? || a.EndPass? {
      StageStepKeeps(w, a, strays);
    } else if a.ShutdownTest? || a.SendTest? {
      TestKeeps(w, a, strays);
    } else if a.ShutdownStore? {
      ShutdownStoreKeeps(w, a.c, strays);
    } else if a.OwnSend? {
      OwnSendKeeps(w, a.c, strays);
    } else if a.SendPush? {
      SendPushKeeps(w, a.c, strays);
    } else if a.QueueCallback? {
      PushKeeps(w, w.conns[a.c].loop, Callback(a.c), strays);
    } else {
      ReferencesKeep(w, a, strays);
    }
  }

  /** Every step of every thread keeps the invariant, up to the connection it makes a stray. */
  lemma StepKeepsInvariant(w: World, a: Action, strays: set<ConnId>)
    requires Invariant(w, strays) && Enabled(w, a)
    ensures Invariant(Step(w, a), strays + StrayBy(w, a))
  {
    if a.RunNext? {
      RunNextKeeps(w, a.l, a.keeps, strays);
    } else {
      assert strays + StrayBy(w, a) == strays;
      if a.Accept? {
        AcceptKeeps(w, a.fd, a.l, strays);
      } else if a.HandleEvent? {
        HandleEventKeeps(w, a.l, a.closes, a.drains, strays);
      } else if a.Destruct? {
        DestructKeeps(w, a.c, strays);
      } else {
        OthersKeepInvariant(w, a, strays);
      }
    }
  }

  // ---------- Runs ----------

  /** A server that has accepted nothing yet, with its loops waiting in poll. */
  ghost predicate Initial(w: World) {
    && w.conns == [] && w.connections == {} && w.held == multiset{} && w.tokens == multiset{} && w.sending == multiset{}
    && MAIN < |w.loops|
    && forall l :: 0 <= l < |w.loops| ==> w.loops[l] == LoopInfo(Waiting, [], [], [], 0)
  }

  ghost predicate Legal(w: World, run: seq<Action>)
    decreases |run|
  {
    run != [] ==> Enabled(w, run[0]) && Legal(Step(w, run[0]), run[1..])
  }

  ghost function Run(w: World, run: seq<Action>): World
    requires Legal(w, run)
    decreases |run|
  {
    if run == [] then w else Run(Step(w, run[0]), run[1..])
  }

  /** The connections that some step of the run makes strays. */
  ghost function StraysOf(w: World, run: seq<Action>): set<ConnId>
    requires Legal(w, run)
    decreases |run|
  {
    if run == [] then {} else StrayBy(w, run[0]) + StraysOf(Step(w, run[0]), run[1..])
  }

  lemma {:induction false} RunKeepsInvariant(w: World, run: seq<Action>, strays: set<ConnId>)
    requires Legal(w, run) && Invariant(w, strays)
    ensures Invariant(Run(w, run), strays + StraysOf(w, run))
    decreases |run|
  {
    if run == [] {
      assert strays + {} == strays;
    } else {
      StepKeepsInvariant(w, run[0], strays);
      RunKeepsInvariant(Step(w, run[0]), run[1..], strays + StrayBy(w, run[0]));
      assert strays + StrayBy(w, run[0]) + StraysOf(Step(w, run[0]), run[1..]) == strays + StraysOf(w, run);
    }
  }

  lemma InitialHolds(w: World)
    requires Initial(w)
    ensures Invariant(w, {})
  {
    forall c: ConnId ensures !Held(w, c) {
      forall l: LoopId ensures !QueueHolds(w, l, c) {
      }
    }
  }

  lemma ReachedHolds(w: World, run: seq<Action>)
    requires Initial(w) && Legal(w, run)
    ensures Invariant(Run(w, run), StraysOf(w, run))
  {
    InitialHolds(w);
    RunKeepsInvariant(w, run, {});
    assert {} + StraysOf(w, run) == StraysOf(w, run);
  }

  /** Steps that the server's map has no part in. */
  ghost predicate LeavesMap(w: World, a: Action)
    requires Enabled(w, a)
  {
    && !a.Accept? && !(a.HandleEvent? && 0 < a.closes)
    && !(a.RunNext? && w.loops[a.l].batch[w.loops[a.l].next].RemoveInLoop?)
  }

  lemma MapIsLeft(w: World, a: Action)
    requires Enabled(w, a) && LeavesMap(w, a)
    ensures Step(w, a).connections == w.connections && |Step(w, a).conns| == |w.conns|
  {
  }

  // ---------- Who owns a registered connection ----------

  /** In every reachable state, a connection whose channel stands in its loop's table, and
      that no queued send has made a stray, is still owned by the server's map or by a functor
      of its loop; its fd is open; and no other such connection, on any loop, has the same fd. */
  lemma RegisteredIsSafe(w: World, run: seq<Action>, c: ConnId)
    requires Initial(w) && Legal(w, run) && c !in StraysOf(w, run)
    requires c < |Run(w, run).conns| && Run(w, run).conns[c].index != Polling.New
    ensures var v := Run(w, run);
            && v.conns[c].loop < |v.loops|
            && (c in v.connections || Mentions(Todo(v.loops[v.conns[c].loop]), c))
            && v.conns[c].alive && v.conns[c].fd in v.open
            && forall d: ConnId :: d < |v.conns| && d != c && d !in StraysOf(w, run) ==>
                 (v.conns[d].index != Polling.New ==> v.conns[d].fd != v.conns[c].fd)
  {
    var v, strays := Run(w, run), StraysOf(w, run);
    ReachedHolds(w, run);
    RegisteredIsHeld(v, c, strays);
    forall d: ConnId | d < |v.conns| && d != c && d !in strays && v.conns[d].index != Polling.New
      ensures v.conns[d].fd != v.conns[c].fd
    {
      RegisteredIsHeld(v, d, strays);
    }
  }

  /** A channel stands in its loop's table although its connection is out of the map and no
      connectDestroyed is queued for it. */
  ghost predicate Unowned(w: World, c: ConnId) {
    c < |w.conns| && w.conns[c].loop < |w.loops| && !RegistrationOk(w, c)
  }

  ghost predicate EverUnowned(w: World, run: seq<Action>, c: ConnId)
    requires Legal(w, run)
    decreases |run|
  {
    Unowned(w, c) || (run != [] && EverUnowned(Step(w, run[0]), run[1..], c))
  }

  lemma StraysAreUnowned(w: World, a: Action, c: ConnId, strays: set<ConnId>)
    requires Invariant(w, strays) && Enabled(w, a) && c in StrayBy(w, a)
    ensures Unowned(Step(w, a), c)
  {
    AdvanceKeeps(w, a.l, a.keeps, strays);
    assert RecordOk(w, strays, c);
  }

  lemma {:induction false} UnownedFrom(w: World, run: seq<Action>, c: ConnId, strays: set<ConnId>)
    requires Invariant(w, strays) && Legal(w, run) && c !in strays
    ensures EverUnowned(w, run, c) <==> c in StraysOf(w, run)
    decreases |run|
  {
    assert c < |w.conns| ==> RecordOk(w, strays, c);
    if run == [] {
    } else {
      var v := Step(w, run[0]);
      StepKeepsInvariant(w, run[0], strays);
      if c in StrayBy(w, run[0]) {
        StraysAreUnowned(w, run[0], c, strays);
        assert EverUnowned(v, run[1..], c);
      } else {
        UnownedFrom(v, run[1..], c, strays + StrayBy(w, run[0]));
      }
    }
  }

  /** Over any run and any interleaving, a registered channel comes to be without an owner,
      that is, out of the map and with no connectDestroyed queued on its loop, if and only if
      a queued send enables writing on its connection, in kDisconnecting, after one
      connectDestroyed has run and while no other is queued. */
  lemma OwnershipExactly(w: World, run: seq<Action>, c: ConnId)
    requires Initial(w) && Legal(w, run)
    ensures EverUnowned(w, run, c) <==> c in StraysOf(w, run)
  {
    InitialHolds(w);
    UnownedFrom(w, run, c, {});
  }

  /** Whenever a loop is about to handle an event, the channel is in the kernel's set and
      belongs to a connection of that loop; and unless it is a stray, the connection exists
      and is referenced, so the weak pointer that ties the channel to it locks. */
  lemma EventsFindTheirConnection(w: World, run: seq<Action>, l: LoopId)
    requires Initial(w) && Legal(w, run)
    requires l < |Run(w, run).loops| && Run(w, run).loops[l].active != []
    ensures var v := Run(w, run); var c := v.loops[l].active[0];
            && v.loops[l].stage == Dispatching && c < |v.conns| && v.conns[c].loop == l
            && v.conns[c].index == Polling.Added
            && (c !in StraysOf(w, run) ==> v.conns[c].alive && Held(v, c))
  {
    var v := Run(w, run);
    var c := v.loops[l].active[0];
    ReachedHolds(w, run);
    PoppedKeeps(v, l, StraysOf(w, run));
    if c !in StraysOf(w, run) {
      RegisteredIsHeld(v, c, StraysOf(w, run));
    }
  }

  /** Unless it is a stray, a connection closes its fd only after removeChannel. */
  lemma CloseAfterRemove(w: World, run: seq<Action>, c: ConnId)
    requires Initial(w) && Legal(w, run) && Enabled(Run(w, run), Destruct(c)) && c !in StraysOf(w, run)
    ensures Run(w, run).conns[c].index == Polling.New
  {
    ReachedHolds(w, run);
    DestructKeeps(Run(w, run), c, StraysOf(w, run));
  }

  /** With the object its fd goes, and no other that is in use. */
  lemma DestructClosesFd(w: World, run: seq<Action>, c: ConnId)
    requires Initial(w) && Legal(w, run) && Enabled(Run(w, run), Destruct(c))
    ensures var v := Run(w, run); var u := Step(v, Destruct(c));
            && u.open == v.open - {v.conns[c].fd} && v.conns[c].fd in v.open && !u.conns[c].alive
            && forall d: ConnId :: d < |u.conns| && u.conns[d].alive ==> u.conns[d].fd in u.open
  {
    ReachedHolds(w, run);
  }

  /** connectDestroyed never finds its connection still connected, so its branch for that
      case does not run while the server lives: handleClose has always run before. */
  lemma DestroyFindsClosed(w: World, run: seq<Action>, l: LoopId, keeps: bool)
    requires Initial(w) && Legal(w, run) && Enabled(Run(w, run), RunNext(l, keeps))
    ensures var v := Run(w, run); var f := v.loops[l].batch[v.loops[l].next];
            f.Destroy? ==> v.conns[f.c].state != Connected && 0 < v.conns[f.c].downs
  {
    var v := Run(w, run);
    ReachedHolds(w, run);
    AdvanceKeeps(v, l, keeps, StraysOf(w, run));
    assert RecordOk(v, StraysOf(w, run), v.loops[l].batch[v.loops[l].next].c);
  }

  /** Nothing is leaked: once no functor of a closed connection is waiting anywhere, it is out
      of the map and, unless it is a stray, out of the poller, and only user references keep it. */
  lemma DepartsCompletely(w: World, run: seq<Action>, c: ConnId)
    requires Initial(w) && Legal(w, run) && c < |Run(w, run).conns| && c !in StraysOf(w, run)
    requires 0 < Run(w, run).conns[c].downs
    requires forall l :: 0 <= l < |Run(w, run).loops| ==> !Mentions(Todo(Run(w, run).loops[l]), c)
    ensures c !in Run(w, run).connections && Run(w, run).conns[c].index == Polling.New
  {
    var v := Run(w, run);
    ReachedHolds(w, run);
    assert RecordOk(v, StraysOf(w, run), c);
    QueuedIsMentioned(Todo(v.loops[MAIN]), RemoveInLoop(c));
    QueuedIsMentioned(Todo(v.loops[v.conns[c].loop]), Destroy(c));
  }

  lemma QueuedIsMentioned(fs: seq<Functor>, f: Functor)
    ensures f in fs ==> Mentions(fs, f.c)
  {
  }

  // ---------- Every closed connection departs ----------

  /** The steps by which a loop comes round to its functors. */
  predicate Serves(a: Action, l: LoopId) {
    (a.PollReturn? || a.Swap? || a.RunNext? || a.EndPass?) && a.l == l
  }

  function ServingSteps(run: seq<Action>, l: LoopId): nat {
    if run == [] then 0 else (if Serves(run[0], l) then 1 else 0) + ServingSteps(run[1..], l)
  }

  function Position(fs: seq<Functor>, f: Functor): (p: nat)
    requires f in fs
    ensures p < |fs| && fs[p] == f
  {
    if fs[0] == f then 0 else 1 + Position(fs[1..], f)
  }

  /** How many of these steps its loop takes at most until it has run f. */
  function Wait(loop: LoopInfo, f: Functor): (n: nat)
    requires f in Todo(loop)
    ensures n <= |Todo(loop)| + 3
  {
    var p := Position(Todo(loop), f);
    match loop.stage
    case Executing => if p + loop.next < |loop.batch| then p + 1 else p + 4
    case Waiting => p + 3
    case Dispatching => p + 2
  }

  /** The same loop, with functors pushed behind what was there. */
  predicate Appended(a: LoopInfo, b: LoopInfo) {
    b.stage == a.stage && b.batch == a.batch && b.next == a.next && a.pending <= b.pending
  }

  lemma {:induction false} PositionAppend(fs: seq<Functor>, more: seq<Functor>, f: Functor)
    requires f in fs
    ensures f in fs + more && Position(fs + more, f) == Position(fs, f)
    decreases |fs|
  {
    assert (fs + more)[0] == fs[0];
    if fs[0] == f {
    } else {
      assert (fs + more)[1..] == fs[1..] + more;
      PositionAppend(fs[1..], more, f);
    }
  }

  lemma AppendedWaits(a: LoopInfo, b: LoopInfo, f: Functor)
    requires Appended(a, b) && f in Todo(a)
    ensures f in Todo(b) && Wait(b, f) == Wait(a, f)
  {
    var more := b.pending[|a.pending|..];
    assert b.pending == a.pending + more;
    assert Todo(b) == Todo(a) + more;
    PositionAppend(Todo(a), more, f);
  }

  lemma RemoveAppends(w: World, c: ConnId, l: LoopId)
    requires c < |w.conns| && w.conns[c].loop < |w.loops| && l < |w.loops|
    ensures Appended(w.loops[l], RemoveConnectionInLoop(w, c).loops[l])
  {
  }

  lemma CloseAppends(w: World, c: ConnId, l: LoopId)
    requires c < |w.conns| && w.conns[c].loop < |w.loops| && MAIN < |w.loops| && l < |w.loops|
    ensures var v := HandleClose(w, c);
            && |v.conns| == |w.conns| && |v.loops| == |w.loops| && v.conns[c].loop == w.conns[c].loop
            && Appended(w.loops[l], v.loops[l])
  {
  }

  lemma HandledAppends(w: World, c: ConnId, closes: nat, drains: bool, l: LoopId)
    requires c < |w.conns| && w.conns[c].loop < |w.loops| && MAIN < |w.loops| && l < |w.loops|
    ensures var v := Handled(w, c, closes, drains); |v.loops| == |w.loops| && Appended(w.loops[l], v.loops[l])
  {
    CloseAppends(w, c, l);
    CloseAppends(HandleClose(w, c), c, l);
  }

  lemma EventAppends(w: World, k: LoopId, closes: nat, drains: bool, l: LoopId)
    requires Shaped(w) && Enabled(w, HandleEvent(k, closes, drains)) && l < |w.loops|
    ensures var v := Step(w, HandleEvent(k, closes, drains)); |v.loops| == |w.loops| && Appended(w.loops[l], v.loops[l])
  {
    HandledAppends(Popped(w, k), w.loops[k].active[0], closes, drains, l);
  }

  lemma ExecuteAppends(u: World, f: Functor, keeps: bool, l: LoopId)
    requires f.c < |u.conns| && u.conns[f.c].loop < |u.loops| && l < |u.loops|
    ensures var v := Execute(u, f, keeps); |v.loops| == |u.loops| && Appended(u.loops[l], v.loops[l])
  {
    if f.RemoveInLoop? {
      RemoveAppends(u, f.c, l);
    }
  }

  lemma OthersAppend(w: World, a: Action, l: LoopId)
    requires Shaped(w) && Enabled(w, a) && l < |w.loops| && !Serves(a, l) && !a.HandleEvent? && !a.RunNext?
    ensures |Step(w, a).loops| == |w.loops| && Appended(w.loops[l], Step(w, a).loops[l])
  {
  }

  /** The functor that a step takes off a batch and runs. */
  ghost predicate Executes(w: World, a: Action, l: LoopId, f: Functor)
    requires Enabled(w, a)
  {
    a.RunNext? && a.l == l && w.loops[l].batch[w.loops[l].next] == f
  }

  /** What waits goes on waiting, and with every serving step it has less to wait for. */
  ghost predicate WaitsLess(w: World, v: World, l: LoopId, f: Functor, served: bool)
    requires l < |w.loops| && f in Todo(w.loops[l])
  {
    && |v.loops| == |w.loops| && f in Todo(v.loops[l])
    && Wait(v.loops[l], f) + (if served then 1 else 0) <= Wait(w.loops[l], f)
  }

  lemma AdvanceWaits(w: World, l: LoopId, f: Functor)
    requires Shaped(w) && l < |w.loops| && w.loops[l].stage == Executing && w.loops[l].next < |w.loops[l].batch|
    requires f in Todo(w.loops[l]) && w.loops[l].batch[w.loops[l].next] != f
    ensures WaitsLess(w, Advanced(w, l), l, f, true)
  {
    var loop := w.loops[l];
    var rest := loop.(next := loop.next + 1);
    TodoAfterAdvance(loop);
    assert Todo(loop)[0] == loop.batch[loop.next] && Todo(loop)[1..] == Todo(rest);
  }

  lemma FunctorWaits(w: World, k: LoopId, keeps: bool, l: LoopId, f: Functor)
    requires Shaped(w) && Enabled(w, RunNext(k, keeps)) && l < |w.loops| && f in Todo(w.loops[l])
    requires !Executes(w, RunNext(k, keeps), l, f)
    ensures WaitsLess(w, Step(w, RunNext(k, keeps)), l, f, k == l)
  {
    var u, g := Advanced(w, k), w.loops[k].batch[w.loops[k].next];
    ExecuteAppends(u, g, keeps, l);
    if k == l {
      AdvanceWaits(w, l, f);
    }
    AppendedWaits(u.loops[l], Execute(u, g, keeps).loops[l], f);
  }

  lemma StageWaits(w: World, a: Action, l: LoopId, f: Functor)
    requires Shaped(w) && Enabled(w, a) && l < |w.loops| && f in Todo(w.loops[l])
    requires Serves(a, l) && !a.RunNext?
    ensures WaitsLess(w, Step(w, a), l, f, true)
  {
    if a.Swap? {
      TodoAfterSwap(w.loops[l]);
    } else if a.EndPass? {
      TodoAfterPass(w.loops[l]);
    } else {
      assert Todo(Step(w, a).loops[l]) == Todo(w.loops[l]);
    }
  }

  lemma StepWaits(w: World, a: Action, l: LoopId, f: Functor)
    requires Shaped(w) && Enabled(w, a) && l < |w.loops| && f in Todo(w.loops[l]) && !Executes(w, a, l, f)
    ensures WaitsLess(w, Step(w, a), l, f, Serves(a, l))
  {
    if a.RunNext? {
      FunctorWaits(w, a.l, a.keeps, l, f);
    } else if Serves(a, l) {
      StageWaits(w, a, l, f);
    } else {
      if a.HandleEvent? {
        EventAppends(w, a.l, a.closes, a.drains, l);
      } else {
        OthersAppend(w, a, l);
      }
      AppendedWaits(w.loops[l], Step(w, a).loops[l], f);
    }
  }

  ghost predicate EverExecutes(w: World, run: seq<Action>, l: LoopId, f: Functor)
    requires Legal(w, run)
    decreases |run|
  {
    run != [] && (Executes(w, run[0], l, f) || EverExecutes(Step(w, run[0]), run[1..], l, f))
  }

  /** Whatever the other threads do, a queued functor is run once its loop has taken as many
      serving steps as it has to wait for, and until it is run it stays queued. */
  lemma {:induction false} FunctorsAreServed(w: World, run: seq<Action>, l: LoopId, f: Functor, strays: set<ConnId>)
    requires Invariant(w, strays) && Legal(w, run) && l < |w.loops| && f in Todo(w.loops[l])
    ensures l < |Run(w, run).loops|
    ensures EverExecutes(w, run, l, f) || f in Todo(Run(w, run).loops[l])
    ensures Wait(w.loops[l], f) <= ServingSteps(run, l) ==> EverExecutes(w, run, l, f)
    decreases |run|
  {
    if run == [] {
    } else {
      var v := Step(w, run[0]);
      StepKeepsInvariant(w, run[0], strays);
      LoopsRemain(w, run);
      if !Executes(w, run[0], l, f) {
        StepWaits(w, run[0], l, f);
        FunctorsAreServed(v, run[1..], l, f, strays + StrayBy(w, run[0]));
      }
    }
  }

  lemma {:induction false} LoopsRemain(w: World, run: seq<Action>)
    requires Legal(w, run) && MAIN < |w.loops|
    ensures |Run(w, run).loops| == |w.loops|
    decreases |run|
  {
    if run == [] {
    } else {
      StepKeepsHomes(w, run[0]);
      LoopsRemain(Step(w, run[0]), run[1..]);
    }
  }

  /** No connection changes its loop, and no loop is lost. */
  predicate SameHomes(w: World, v: World) {
    && |v.loops| == |w.loops| && |w.conns| <= |v.conns|
    && forall c :: 0 <= c < |w.conns| ==> v.conns[c].loop == w.conns[c].loop
  }

  lemma ExecuteKeepsHomes(u: World, f: Functor, keeps: bool)
    requires f.c < |u.conns| && u.conns[f.c].loop < |u.loops|
    ensures SameHomes(u, Execute(u, f, keeps))
  {
  }

  lemma HandledKeepsHomes(u: World, c: ConnId, closes: nat, drains: bool)
    requires c < |u.conns| && u.conns[c].loop < |u.loops| && MAIN < |u.loops|
    ensures SameHomes(u, Handled(u, c, closes, drains))
  {
  }

  lemma OthersKeepHomes(w: World, a: Action)
    requires Enabled(w, a) && !a.RunNext? && !a.HandleEvent?
    ensures SameHomes(w, Step(w, a))
  {
  }

  lemma StepKeepsHomes(w: World, a: Action)
    requires Enabled(w, a) && MAIN < |w.loops|
    ensures SameHomes(w, Step(w, a))
  {
    if a.RunNext? {
      ExecuteKeepsHomes(Advanced(w, a.l), w.loops[a.l].batch[w.loops[a.l].next], a.keeps);
    } else if a.HandleEvent? {
      HandledKeepsHomes(Popped(w, a.l), w.loops[a.l].active[0], a.closes, a.drains);
    } else {
      OthersKeepHomes(w, a);
    }
  }

  /** Out of the map and out of the poller. */
  ghost predicate Out(w: World, c: ConnId) {
    c < |w.conns| && c !in w.connections && w.conns[c].index == Polling.New
  }

  ghost predicate EverOut(w: World, run: seq<Action>, c: ConnId)
    requires Legal(w, run)
    decreases |run|
  {
    Out(w, c) || (run != [] && EverOut(Step(w, run[0]), run[1..], c))
  }

  lemma DestroyIsOut(w: World, a: Action, l: LoopId, c: ConnId, strays: set<ConnId>)
    requires Invariant(w, strays) && Enabled(w, a) && Executes(w, a, l, Destroy(c))
    ensures Out(Step(w, a), c)
  {
    AdvanceKeeps(w, l, a.keeps, strays);
  }

  lemma {:induction false} DestroyLeadsOut(w: World, run: seq<Action>, l: LoopId, c: ConnId, strays: set<ConnId>)
    requires Invariant(w, strays) && Legal(w, run) && EverExecutes(w, run, l, Destroy(c))
    ensures EverOut(w, run, c)
    decreases |run|
  {
    if Executes(w, run[0], l, Destroy(c)) {
      DestroyIsOut(w, run[0], l, c, strays);
      assert EverOut(Step(w, run[0]), run[1..], c);
    } else {
      StepKeepsInvariant(w, run[0], strays);
      DestroyLeadsOut(Step(w, run[0]), run[1..], l, c, strays + StrayBy(w, run[0]));
    }
  }

  lemma RemovalQueues(w: World, a: Action, c: ConnId, strays: set<ConnId>)
    requires Invariant(w, strays) && Enabled(w, a) && Executes(w, a, MAIN, RemoveInLoop(c)) && c < |w.conns|
    ensures var v, l := Step(w, a), w.conns[c].loop; l < |v.loops| && Destroy(c) in Todo(v.loops[l])
  {
    var u := Advanced(w, MAIN);
    TodoAfterPush(u.loops[w.conns[c].loop], Destroy(c));
  }

  /** A removal that runs on loop 0 queues the destruction, which then runs or stays queued. */
  lemma {:induction false} RemovalLeadsOn(w: World, run: seq<Action>, c: ConnId, strays: set<ConnId>)
    requires Invariant(w, strays) && Legal(w, run) && c < |w.conns|
    requires EverExecutes(w, run, MAIN, RemoveInLoop(c))
    ensures var v, l := Run(w, run), w.conns[c].loop;
            l < |v.loops| && (EverExecutes(w, run, l, Destroy(c)) || Destroy(c) in Todo(v.loops[l]))
    decreases |run|
  {
    var v := Step(w, run[0]);
    StepKeepsInvariant(w, run[0], strays);
    StepKeepsHomes(w, run[0]);
    if Executes(w, run[0], MAIN, RemoveInLoop(c)) {
      RemovalQueues(w, run[0], c, strays);
      FunctorsAreServed(v, run[1..], w.conns[c].loop, Destroy(c), strays + StrayBy(w, run[0]));
    } else {
      RemovalLeadsOn(v, run[1..], c, strays + StrayBy(w, run[0]));
    }
  }

  /** Whatever is queued meanwhile, and however the threads interleave: a closed connection
      that is no stray comes to be out of the map and out of the poller, once loop 0 has come
      round to everything it had queued, and after that its own loop too. */
  lemma DepartsEventually(w: World, first: seq<Action>, second: seq<Action>, c: ConnId, strays: set<ConnId>)
    requires Invariant(w, strays) && c < |w.conns| && c !in strays && 0 < w.conns[c].downs
    requires Legal(w, first) && Legal(Run(w, first), second)
    requires |Todo(w.loops[MAIN])| + 3 <= ServingSteps(first, MAIN)
    requires var v, l := Run(w, first), w.conns[c].loop;
             l < |v.loops| ==> |Todo(v.loops[l])| + 3 <= ServingSteps(second, l)
    ensures EverOut(w, first, c) || EverOut(Run(w, first), second, c)
  {
    var v, l := Run(w, first), w.conns[c].loop;
    assert RecordOk(w, strays, c);
    LoopsRemain(w, first);
    if RemoveInLoop(c) in Todo(w.loops[MAIN]) {
      FunctorsAreServed(w, first, MAIN, RemoveInLoop(c), strays);
      RemovalLeadsOn(w, first, c, strays);
      DestructionLeadsOut(w, first, second, c, strays);
    } else if Destroy(c) in Todo(w.loops[l]) {
      FunctorsAreServed(w, first, l, Destroy(c), strays);
      DestructionLeadsOut(w, first, second, c, strays);
    } else {
      assert EverOut(w, first, c);
    }
  }

  lemma DestructionLeadsOut(w: World, first: seq<Action>, second: seq<Action>, c: ConnId, strays: set<ConnId>)
    requires Invariant(w, strays) && c < |w.conns| && Legal(w, first) && Legal(Run(w, first), second)
    requires var v, l := Run(w, first), w.conns[c].loop;
             && l < |v.loops| && |Todo(v.loops[l])| + 3 <= ServingSteps(second, l)
             && (EverExecutes(w, first, l, Destroy(c)) || Destroy(c) in Todo(v.loops[l]))
    ensures EverOut(w, first, c) || EverOut(Run(w, first), second, c)
  {
    var v, l := Run(w, first), w.conns[c].loop;
    if EverExecutes(w, first, l, Destroy(c)) {
      DestroyLeadsOut(w, first, l, c, strays);
    } else {
      var later := strays + StraysOf(w, first);
      RunKeepsInvariant(w, first, strays);
      FunctorsAreServed(v, second, l, Destroy(c), later);
      DestroyLeadsOut(v, second, l, c, later);
    }
  }

  // ---------- Every accepted connection is established ----------

  /** In every reachable state, a connection that is still connecting belongs to another loop
      than 0, and its connectEstablished waits there. */
  lemma EstablishIsQueued(w: World, run: seq<Action>, c: ConnId)
    requires Initial(w) && Legal(w, run) && c < |Run(w, run).conns| && Run(w, run).conns[c].state == Connecting
    ensures var v := Run(w, run); var l := v.conns[c].loop;
            l != MAIN && l < |v.loops| && Establish(c) in Todo(v.loops[l])
  {
    ReachedHolds(w, run);
    assert RecordOk(Run(w, run), StraysOf(w, run), c);
  }

  ghost predicate Established(w: World, c: ConnId) {
    c < |w.conns| && w.conns[c].state != Connecting
  }

  lemma StaysEstablished(w: World, a: Action, c: ConnId, strays: set<ConnId>)
    requires Invariant(w, strays) && Enabled(w, a) && Established(w, c)
    ensures Established(Step(w, a), c)
  {
    DownsGrow(w, a, c, strays);
    if a.RunNext? {
      ExecuteMovesForward(w, a.l, a.keeps, c, strays);
    } else if a.HandleEvent? {
      EventMovesForward(w, a.l, a.closes, a.drains, c);
    } else if a.ShutdownStore? {
      StoreRecord(w, a.c, c);
    } else if a.OwnSend? {
      OwnSendRecord(w, a.c, c, strays);
    } else {
      OthersKeepRecord(w, a, c);
    }
  }

  lemma {:induction false} RunStaysEstablished(w: World, run: seq<Action>, c: ConnId, strays: set<ConnId>)
    requires Invariant(w, strays) && Legal(w, run) && Established(w, c)
    ensures Established(Run(w, run), c)
    decreases |run|
  {
    if run == [] {
    } else {
      StepKeepsInvariant(w, run[0], strays);
      StaysEstablished(w, run[0], c, strays);
      RunStaysEstablished(Step(w, run[0]), run[1..], c, strays + StrayBy(w, run[0]));
    }
  }

  lemma EstablishIsDone(w: World, a: Action, l: LoopId, c: ConnId, strays: set<ConnId>)
    requires Invariant(w, strays) && Enabled(w, a) && Executes(w, a, l, Establish(c))
    ensures Established(Step(w, a), c)
  {
  }

  lemma {:induction false} EstablishLeads(w: World, run: seq<Action>, l: LoopId, c: ConnId, strays: set<ConnId>)
    requires Invariant(w, strays) && Legal(w, run) && EverExecutes(w, run, l, Establish(c))
    ensures Established(Run(w, run), c)
    decreases |run|
  {
    var v := Step(w, run[0]);
    StepKeepsInvariant(w, run[0], strays);
    if Executes(w, run[0], l, Establish(c)) {
      EstablishIsDone(w, run[0], l, c, strays);
      RunStaysEstablished(v, run[1..], c, strays + StrayBy(w, run[0]));
    } else {
      EstablishLeads(v, run[1..], l, c, strays + StrayBy(w, run[0]));
    }
  }

  /** Under every interleaving, an accepted connection has been established, and reported
      connected once, when its loop has come round to what it had queued; one accepted for
      loop 0 at once. */
  lemma EstablishedEventually(w: World, run: seq<Action>, c: ConnId, strays: set<ConnId>)
    requires Invariant(w, strays) && Legal(w, run) && c < |w.conns| && w.conns[c].loop < |w.loops|
    requires w.conns[c].loop == MAIN || |Todo(w.loops[w.conns[c].loop])| + 3 <= ServingSteps(run, w.conns[c].loop)
    ensures var v := Run(w, run); c < |v.conns| && v.conns[c].state != Connecting && v.conns[c].ups == 1
  {
    var l := w.conns[c].loop;
    assert RecordOk(w, strays, c);
    if w.conns[c].state == Connecting {
      FunctorsAreServed(w, run, l, Establish(c), strays);
      EstablishLeads(w, run, l, c, strays);
    } else {
      RunStaysEstablished(w, run, c, strays);
    }
    RunKeepsInvariant(w, run, strays);
    assert RecordOk(Run(w, run), strays + StraysOf(w, run), c);
  }

  /** A callback queued on the connection's loop is run there likewise. */
  lemma CallbackRuns(w: World, c: ConnId, run: seq<Action>, strays: set<ConnId>)
    requires Invariant(w, strays) && Enabled(w, QueueCallback(c)) && Legal(Step(w, QueueCallback(c)), run)
    requires |Todo(w.loops[w.conns[c].loop])| + 4 <= ServingSteps(run, w.conns[c].loop)
    ensures EverExecutes(Step(w, QueueCallback(c)), run, w.conns[c].loop, Callback(c))
  {
    var l := w.conns[c].loop;
    TodoAfterPush(w.loops[l], Callback(c));
    StepKeepsInvariant(w, QueueCallback(c), strays);
    FunctorsAreServed(Step(w, QueueCallback(c)), run, l, Callback(c), strays + StrayBy(w, QueueCallback(c)));
  }

  // ---------- States and connection callbacks ----------

  lemma ExecuteMovesForward(w: World, l: LoopId, keeps: bool, c: ConnId, strays: set<ConnId>)
    requires Invariant(w, strays) && Enabled(w, RunNext(l, keeps)) && c < |w.conns|
    ensures var i, j := w.conns[c], Step(w, RunNext(l, keeps)).conns[c];
            Rank(i.state) <= Rank(j.state) && i.downs == j.downs
  {
    AdvanceKeeps(w, l, keeps, strays);
    var f := w.loops[l].batch[w.loops[l].next];
    assert RecordOk(w, strays, f.c);
  }

  lemma EventMovesForward(w: World, l: LoopId, closes: nat, drains: bool, c: ConnId)
    requires Enabled(w, HandleEvent(l, closes, drains)) && c < |w.conns|
    ensures Rank(w.conns[c].state) <= Rank(Step(w, HandleEvent(l, closes, drains)).conns[c].state)
  {
  }

  lemma EventDowns(w: World, l: LoopId, closes: nat, drains: bool, c: ConnId)
    requires Enabled(w, HandleEvent(l, closes, drains)) && c < |w.conns|
    ensures Step(w, HandleEvent(l, closes, drains)).conns[c].downs
            == w.conns[c].downs + if c == w.loops[l].active[0] && Held(w, c) then closes else 0
  {
  }

  /** The one step that moves a state backward is shutdown()'s store after handleClose. */
  predicate LateStore(w: World, a: Action, c: ConnId)
    requires c < |w.conns|
  {
    a == ShutdownStore(c) && w.conns[c].state == Disconnected
  }

  /** Steps that touch no record but to end an object. */
  predicate KeepsRecords(a: Action) {
    !a.RunNext? && !a.HandleEvent? && !a.ShutdownStore? && !a.OwnSend?
  }

  lemma OthersKeepRecord(w: World, a: Action, c: ConnId)
    requires Enabled(w, a) && c < |w.conns| && KeepsRecords(a)
    ensures c < |Step(w, a).conns|
    ensures Step(w, a).conns[c] == w.conns[c].(alive := w.conns[c].alive && a != Destruct(c))
  {
  }

  lemma StoreMovesForward(w: World, d: ConnId, c: ConnId)
    requires Tokens(w) && Enabled(w, ShutdownStore(d)) && c < |w.conns|
    ensures var i, j := w.conns[c], Step(w, ShutdownStore(d)).conns[c];
            i.downs == j.downs && (Rank(i.state) <= Rank(j.state) <==> !(d == c && i.state == Disconnected))
  {
    assert w.conns[d].state != Connecting;
  }

  lemma StoreRecord(w: World, c: ConnId, d: ConnId)
    requires Enabled(w, ShutdownStore(c)) && d < |w.conns|
    ensures var v := Step(w, ShutdownStore(c));
            && |v.conns| == |w.conns| && v.tokens <= w.tokens
            && v.conns[d] == if c == d then w.conns[d].(state := Disconnecting) else w.conns[d]
  {
  }

  lemma OwnSendRecord(w: World, c: ConnId, d: ConnId, strays: set<ConnId>)
    requires Invariant(w, strays) && Enabled(w, OwnSend(c)) && d < |w.conns|
    ensures var v := Step(w, OwnSend(c));
            && |v.conns| == |w.conns| && v.tokens == w.tokens
            && v.conns[d] == w.conns[d].(writing := v.conns[d].writing)
            && (v.conns[d] == w.conns[d] || w.conns[d].downs == 0)
  {
    assert RecordOk(w, strays, c);
  }

  /** A connection that a step adds has not been closed yet. */
  lemma NewRecord(w: World, a: Action, d: ConnId)
    requires Enabled(w, a) && |w.conns| <= d < |Step(w, a).conns|
    ensures Step(w, a).conns[d].downs == 0
  {
  }

  predicate DownsGrown(w: World, v: World, c: ConnId)
    requires c < |w.conns|
  {
    c < |v.conns| && w.conns[c].downs <= v.conns[c].downs
  }

  lemma FunctorDowns(w: World, l: LoopId, keeps: bool, c: ConnId, strays: set<ConnId>)
    requires Invariant(w, strays) && Enabled(w, RunNext(l, keeps)) && c < |w.conns|
    ensures DownsGrown(w, Step(w, RunNext(l, keeps)), c)
  {
    ExecuteMovesForward(w, l, keeps, c, strays);
  }

  lemma HandlingDowns(w: World, l: LoopId, closes: nat, drains: bool, c: ConnId)
    requires Enabled(w, HandleEvent(l, closes, drains)) && c < |w.conns|
    ensures DownsGrown(w, Step(w, HandleEvent(l, closes, drains)), c)
  {
    EventDowns(w, l, closes, drains, c);
  }

  lemma DownsGrow(w: World, a: Action, c: ConnId, strays: set<ConnId>)
    requires Invariant(w, strays) && Enabled(w, a) && c < |w.conns|
    ensures DownsGrown(w, Step(w, a), c)
  {
    if a.RunNext? {
      FunctorDowns(w, a.l, a.keeps, c, strays);
    } else if a.HandleEvent? {
      HandlingDowns(w, a.l, a.closes, a.drains, c);
    } else if a.ShutdownStore? {
      StoreRecord(w, a.c, c);
    } else if a.OwnSend? {
      OwnSendRecord(w, a.c, c, strays);
    } else {
      OthersDowns(w, a, c);
    }
  }

  lemma OthersDowns(w: World, a: Action, c: ConnId)
    requires Enabled(w, a) && c < |w.conns| && KeepsRecords(a)
    ensures DownsGrown(w, Step(w, a), c)
  {
    OthersKeepRecord(w, a, c);
  }

  lemma StatesMoveForward(w: World, a: Action, c: ConnId, strays: set<ConnId>)
    requires Invariant(w, strays) && Enabled(w, a) && c < |w.conns|
    ensures c < |Step(w, a).conns|
    ensures Rank(w.conns[c].state) <= Rank(Step(w, a).conns[c].state) <==> !LateStore(w, a, c)
  {
    DownsGrow(w, a, c, strays);
    if a.RunNext? {
      ExecuteMovesForward(w, a.l, a.keeps, c, strays);
    } else if a.HandleEvent? {
      EventMovesForward(w, a.l, a.closes, a.drains, c);
    } else if a.ShutdownStore? {
      StoreMovesForward(w, a.c, c);
    } else if a.OwnSend? {
      OwnSendRecord(w, a.c, c, strays);
    } else {
      OthersKeepRecord(w, a, c);
    }
  }

  /** connectionCallback_ reports a connection as connected exactly once: when, on its own
      loop, it leaves the connecting state. It has reported it disconnected exactly when
      handleClose has run; and until then its channel is in the kernel's set. */
  lemma ConnectedReportedOnce(w: World, run: seq<Action>, c: ConnId)
    requires Initial(w) && Legal(w, run) && c < |Run(w, run).conns|
    ensures var i := Run(w, run).conns[c];
            && i.ups == (if i.state == Connecting then 0 else 1)
            && (i.state == Disconnected ==> 0 < i.downs)
            && (i.state == Connecting || i.state == Connected ==> i.downs == 0)
            && (i.state != Connecting && i.downs == 0 ==> i.index == Polling.Added)
  {
    ReachedHolds(w, run);
    assert RecordOk(Run(w, run), StraysOf(w, run), c);
  }

  /** A send that leaves something to write makes the channel ask for EPOLLOUT, on either
      thread; and a channel that asks for it already is not registered again. */
  lemma SendAsksOnce(w: World, a: Action, c: ConnId, strays: set<ConnId>)
    requires Invariant(w, strays) && Enabled(w, a) && c < |w.conns| && w.conns[c].state != Disconnected
    requires a == OwnSend(c) || (a.RunNext? && a.keeps && w.loops[a.l].batch[w.loops[a.l].next] == Functor.Send(c))
    ensures var v := Step(w, a);
            && |v.conns| == |w.conns| && v.conns[c].writing
            && v.conns[c].index == if w.conns[c].writing then w.conns[c].index else Polling.Added
  {
  }

  // ---------- Watched again, and reported down again ----------

  /** One event that calls handleClose twice. */
  ghost predicate DoublyCloses(w: World, a: Action)
    requires Enabled(w, a)
  {
    a.HandleEvent? && a.closes == 2 && Held(w, w.loops[a.l].active[0])
  }

  ghost predicate SomeDoublyCloses(w: World, run: seq<Action>)
    requires Legal(w, run)
    decreases |run|
  {
    run != [] && (DoublyCloses(w, run[0]) || SomeDoublyCloses(Step(w, run[0]), run[1..]))
  }

  /** The closed connection, if any, on which the step runs a queued send that enables
      writing: a late store has made its state kDisconnecting. */
  ghost function RevivedBy(w: World, a: Action): set<ConnId>
    requires Enabled(w, a)
  {
    if a.RunNext? && w.loops[a.l].batch[w.loops[a.l].next].Send? then
      var c := w.loops[a.l].batch[w.loops[a.l].next].c;
      if a.keeps && w.conns[c].state != Disconnected && !w.conns[c].writing && 0 < w.conns[c].downs then {c} else {}
    else {}
  }

  ghost function RevivedIn(w: World, run: seq<Action>): set<ConnId>
    requires Legal(w, run)
    decreases |run|
  {
    if run == [] then {} else RevivedBy(w, run[0]) + RevivedIn(Step(w, run[0]), run[1..])
  }

  predicate WatchedClosed(i: ConnInfo) {
    0 < i.downs && (i.index == Polling.Added || i.writing)
  }

  /** Some closed connection is in the kernel's set, or its channel asks for EPOLLOUT. */
  ghost predicate Watched(w: World) {
    exists c :: 0 <= c < |w.conns| && WatchedClosed(w.conns[c])
  }

  ghost predicate EverWatched(w: World, run: seq<Action>)
    requires Legal(w, run)
    decreases |run|
  {
    Watched(w) || (run != [] && EverWatched(Step(w, run[0]), run[1..]))
  }

  /** What one event does to the record of its own connection. */
  lemma EventRecord(w: World, l: LoopId, closes: nat, drains: bool, d: ConnId, strays: set<ConnId>)
    requires Invariant(w, strays) && Enabled(w, HandleEvent(l, closes, drains)) && d < |w.conns|
    ensures var v, c := Step(w, HandleEvent(l, closes, drains)), w.loops[l].active[0];
            && |v.conns| == |w.conns| && w.conns[c].index == Polling.Added
            && (d != c || !Held(w, c) ==> v.conns[d] == w.conns[d])
            && (d == c && Held(w, c) && 0 < closes ==> !v.conns[d].writing)
            && (d == c && Held(w, c) && closes == 1 ==> v.conns[d].index == Polling.Deleted)
            && (d == c && Held(w, c) && closes == 2 ==> v.conns[d].index == Polling.Added)
            && (d == c && closes == 0 ==> v.conns[d] == w.conns[d]
                                          || (!v.conns[d].writing && v.conns[d].index == w.conns[d].index)
                                          || (!v.conns[d].writing && v.conns[d].index == Polling.Deleted))
  {
    PoppedKeeps(w, l, strays);
  }

  /** An event that empties the buffer takes the channel's write interest; and a closed
      connection that had only that leaves the kernel's set with it. */
  lemma DrainStopsWatching(w: World, l: LoopId, strays: set<ConnId>)
    requires Invariant(w, strays) && Enabled(w, HandleEvent(l, 0, true)) && Held(w, w.loops[l].active[0])
    ensures var v, c := Step(w, HandleEvent(l, 0, true)), w.loops[l].active[0];
            && c < |v.conns| && !v.conns[c].writing
            && v.conns[c].index == if 0 < w.conns[c].downs && w.conns[c].writing then Polling.Deleted else Polling.Added
  {
    PoppedKeeps(w, l, strays);
  }

  /** What one functor does to the record of a connection. */
  lemma FunctorRecord(w: World, l: LoopId, keeps: bool, d: ConnId, strays: set<ConnId>)
    requires Invariant(w, strays) && Enabled(w, RunNext(l, keeps)) && d < |w.conns|
    ensures var v := Step(w, RunNext(l, keeps));
            && |v.conns| == |w.conns| && v.conns[d].downs == w.conns[d].downs
            && (w.conns[d].downs == 0 || d in RevivedBy(w, RunNext(l, keeps))
                || ((v.conns[d].index == w.conns[d].index || v.conns[d].index == Polling.New)
                    && (v.conns[d].writing ==> w.conns[d].writing)))
  {
    AdvanceKeeps(w, l, keeps, strays);
    assert RecordOk(w, strays, w.loops[l].batch[w.loops[l].next].c);
  }

  lemma EventUnwatched(w: World, l: LoopId, closes: nat, drains: bool, d: ConnId, strays: set<ConnId>)
    requires Invariant(w, strays) && Enabled(w, HandleEvent(l, closes, drains)) && d < |w.conns|
    requires !DoublyCloses(w, HandleEvent(l, closes, drains)) && !WatchedClosed(w.conns[d])
    ensures var v := Step(w, HandleEvent(l, closes, drains)); |v.conns| == |w.conns| && !WatchedClosed(v.conns[d])
  {
    EventRecord(w, l, closes, drains, d, strays);
    EventDowns(w, l, closes, drains, d);
  }

  lemma FunctorUnwatched(w: World, l: LoopId, keeps: bool, d: ConnId, strays: set<ConnId>)
    requires Invariant(w, strays) && Enabled(w, RunNext(l, keeps)) && d < |w.conns|
    requires d !in RevivedBy(w, RunNext(l, keeps)) && !WatchedClosed(w.conns[d])
    ensures var v := Step(w, RunNext(l, keeps)); |v.conns| == |w.conns| && !WatchedClosed(v.conns[d])
  {
    FunctorRecord(w, l, keeps, d, strays);
  }

  lemma StaysUnwatched(w: World, a: Action, d: ConnId, strays: set<ConnId>)
    requires Invariant(w, strays) && Enabled(w, a) && d < |Step(w, a).conns|
    requires !DoublyCloses(w, a) && d !in RevivedBy(w, a) && (d < |w.conns| ==> !WatchedClosed(w.conns[d]))
    ensures !WatchedClosed(Step(w, a).conns[d])
  {
    if d < |w.conns| {
      if a.HandleEvent? {
        EventUnwatched(w, a.l, a.closes, a.drains, d, strays);
      } else if a.RunNext? {
        FunctorUnwatched(w, a.l, a.keeps, d, strays);
      } else if a.ShutdownStore? {
        StoreRecord(w, a.c, d);
      } else if a.OwnSend? {
        OwnSendRecord(w, a.c, d, strays);
      } else {
        OthersKeepRecord(w, a, d);
      }
    } else {
      NewRecord(w, a, d);
    }
  }

  lemma StepWatched(w: World, a: Action, strays: set<ConnId>)
    requires Invariant(w, strays) && Enabled(w, a) && !Watched(w)
    ensures Watched(Step(w, a)) <==> DoublyCloses(w, a) || RevivedBy(w, a) != {}
  {
    var v := Step(w, a);
    if DoublyCloses(w, a) {
      var c := w.loops[a.l].active[0];
      PoppedKeeps(w, a.l, strays);
      EventRecord(w, a.l, 2, a.drains, c, strays);
      EventDowns(w, a.l, 2, a.drains, c);
      assert WatchedClosed(v.conns[c]);
    } else if RevivedBy(w, a) != {} {
      var c := w.loops[a.l].batch[w.loops[a.l].next].c;
      assert WatchedClosed(v.conns[c]);
    } else {
      forall d | 0 <= d < |v.conns| ensures !WatchedClosed(v.conns[d]) {
        StaysUnwatched(w, a, d, strays);
      }
    }
  }

  lemma {:induction false} WatchedFrom(w: World, run: seq<Action>, strays: set<ConnId>)
    requires Invariant(w, strays) && Legal(w, run) && !Watched(w)
    ensures EverWatched(w, run) <==> SomeDoublyCloses(w, run) || RevivedIn(w, run) != {}
    decreases |run|
  {
    if run == [] {
    } else {
      var v := Step(w, run[0]);
      StepKeepsInvariant(w, run[0], strays);
      StepWatched(w, run[0], strays);
      if !Watched(v) {
        WatchedFrom(v, run[1..], strays + StrayBy(w, run[0]));
      } else {
        assert EverWatched(v, run[1..]);
      }
    }
  }

  /** Over any run and any interleaving, the kernel comes to watch a closed connection again
      if and only if one event closes a connection twice, or a queued send enables writing on
      one that a late store has made kDisconnecting. */
  lemma WatchedAgainExactly(w: World, run: seq<Action>)
    requires Initial(w) && Legal(w, run)
    ensures EverWatched(w, run) <==> SomeDoublyCloses(w, run) || RevivedIn(w, run) != {}
  {
    InitialHolds(w);
    WatchedFrom(w, run, {});
  }

  ghost predicate ReportedTwice(w: World, c: ConnId) {
    c < |w.conns| && 2 <= w.conns[c].downs
  }

  ghost predicate SomeReportedTwice(w: World) {
    exists c: ConnId :: ReportedTwice(w, c)
  }

  lemma {:induction false} ReportsRemain(w: World, run: seq<Action>, c: ConnId, strays: set<ConnId>)
    requires Invariant(w, strays) && Legal(w, run) && ReportedTwice(w, c)
    ensures ReportedTwice(Run(w, run), c)
    decreases |run|
  {
    if run == [] {
    } else {
      DownsGrow(w, run[0], c, strays);
      StepKeepsInvariant(w, run[0], strays);
      ReportsRemain(Step(w, run[0]), run[1..], c, strays + StrayBy(w, run[0]));
    }
  }

  /** An event that closes its connection twice, or closes one that was revived before. */
  ghost predicate ClosesAgain(w: World, a: Action, revived: set<ConnId>)
    requires Enabled(w, a)
  {
    && a.HandleEvent? && Held(w, w.loops[a.l].active[0])
    && (a.closes == 2 || (a.closes == 1 && w.loops[a.l].active[0] in revived))
  }

  ghost predicate SomeClosesAgain(w: World, run: seq<Action>, revived: set<ConnId>)
    requires Legal(w, run)
    decreases |run|
  {
    run != [] && (ClosesAgain(w, run[0], revived)
                  || SomeClosesAgain(Step(w, run[0]), run[1..], revived + RevivedBy(w, run[0])))
  }

  /** Reported down once at most; and what is watched though closed was revived. */
  predicate SingleOk(i: ConnInfo, revived: bool) {
    i.downs <= 1 && (WatchedClosed(i) ==> revived) && (revived ==> 0 < i.downs)
  }

  ghost predicate Single(w: World, revived: set<ConnId>) {
    && (forall c: ConnId :: c < |w.conns| ==> SingleOk(w.conns[c], c in revived))
    && (forall c: ConnId :: c in revived ==> c < |w.conns|)
  }

  lemma StaysSingle(w: World, a: Action, d: ConnId, revived: set<ConnId>, strays: set<ConnId>)
    requires Invariant(w, strays) && Enabled(w, a) && Single(w, revived) && d < |Step(w, a).conns|
    requires !ClosesAgain(w, a, revived)
    ensures SingleOk(Step(w, a).conns[d], d in revived + RevivedBy(w, a))
  {
    if d < |w.conns| {
      assert SingleOk(w.conns[d], d in revived);
      if a.HandleEvent? {
        EventRecord(w, a.l, a.closes, a.drains, d, strays);
        EventDowns(w, a.l, a.closes, a.drains, d);
      } else if a.RunNext? {
        FunctorRecord(w, a.l, a.keeps, d, strays);
        assert d in RevivedBy(w, a) ==> 0 < w.conns[d].downs;
      } else if a.ShutdownStore? {
        StoreRecord(w, a.c, d);
      } else if a.OwnSend? {
        OwnSendRecord(w, a.c, d, strays);
      } else {
        OthersKeepRecord(w, a, d);
      }
    } else {
      NewRecord(w, a, d);
    }
  }

  lemma StepKeepsSingle(w: World, a: Action, revived: set<ConnId>, strays: set<ConnId>)
    requires Invariant(w, strays) && Enabled(w, a) && Single(w, revived) && !ClosesAgain(w, a, revived)
    ensures Single(Step(w, a), revived + RevivedBy(w, a))
  {
    var v := Step(w, a);
    forall d: ConnId | d < |v.conns| ensures SingleOk(v.conns[d], d in revived + RevivedBy(w, a)) {
      StaysSingle(w, a, d, revived, strays);
    }
    forall c: ConnId | c in revived + RevivedBy(w, a) ensures c < |v.conns| {
      DownsGrow(w, a, c, strays);
    }
  }

  lemma ClosingAgainReports(w: World, a: Action, revived: set<ConnId>, strays: set<ConnId>) returns (c: ConnId)
    requires Invariant(w, strays) && Enabled(w, a) && Single(w, revived) && ClosesAgain(w, a, revived)
    ensures ReportedTwice(Step(w, a), c)
  {
    c := w.loops[a.l].active[0];
    PoppedKeeps(w, a.l, strays);
    EventRecord(w, a.l, a.closes, a.drains, c, strays);
    EventDowns(w, a.l, a.closes, a.drains, c);
    assert SingleOk(w.conns[c], c in revived);
  }

  lemma {:induction false} ReportsFrom(w: World, run: seq<Action>, revived: set<ConnId>, strays: set<ConnId>)
    requires Invariant(w, strays) && Legal(w, run) && Single(w, revived)
    ensures SomeReportedTwice(Run(w, run)) <==> SomeClosesAgain(w, run, revived)
    decreases |run|
  {
    if run == [] {
      forall c: ConnId ensures !ReportedTwice(w, c) {
        assert c < |w.conns| ==> SingleOk(w.conns[c], c in revived);
      }
    } else {
      var v := Step(w, run[0]);
      StepKeepsInvariant(w, run[0], strays);
      if ClosesAgain(w, run[0], revived) {
        var c := ClosingAgainReports(w, run[0], revived, strays);
        ReportsRemain(v, run[1..], c, strays + StrayBy(w, run[0]));
        assert SomeReportedTwice(Run(v, run[1..]));
      } else {
        StepKeepsSingle(w, run[0], revived, strays);
        ReportsFrom(v, run[1..], revived + RevivedBy(w, run[0]), strays + StrayBy(w, run[0]));
      }
    }
  }

  /** Over any run and any interleaving, some connection is reported disconnected more than
      once if and only if one event closes a connection twice, or an event closes one that a
      queued send has revived. */
  lemma DisconnectedReportedOnceExactly(w: World, run: seq<Action>)
    requires Initial(w) && Legal(w, run)
    ensures SomeReportedTwice(Run(w, run)) <==> SomeClosesAgain(w, run, {})
  {
    InitialHolds(w);
    ReportsFrom(w, run, {}, {});
  }

  // ---------- Calls after the connection ----------

  lemma EventTokens(w: World, l: LoopId, closes: nat, drains: bool)
    requires Enabled(w, HandleEvent(l, closes, drains)) && Shaped(w)
    ensures var v := Step(w, HandleEvent(l, closes, drains)); v.tokens == w.tokens && v.sending == w.sending
  {
  }

  lemma OthersSenders(w: World, a: Action, c: ConnId)
    requires Enabled(w, a) && !a.HandleEvent? && c < |w.conns| && w.conns[c].state != Connected
    ensures Step(w, a).tokens[c] <= w.tokens[c] && Step(w, a).sending[c] <= w.sending[c]
  {
  }

  /** Once a connection has left kConnected, no thread gets past the test of send() or
      shutdown() on it any more: those inside can only come out. */
  lemma {:induction false} CallersOnlyLeave(w: World, run: seq<Action>, c: ConnId, strays: set<ConnId>)
    requires Invariant(w, strays) && Legal(w, run) && c < |w.conns|
    requires w.conns[c].state == Disconnecting || w.conns[c].state == Disconnected
    ensures Run(w, run).tokens[c] <= w.tokens[c] && Run(w, run).sending[c] <= w.sending[c]
    decreases |run|
  {
    if run == [] {
    } else {
      StepKeepsInvariant(w, run[0], strays);
      StaysUnconnected(w, run[0], c, strays);
      if run[0].HandleEvent? {
        EventTokens(w, run[0].l, run[0].closes, run[0].drains);
      } else {
        OthersSenders(w, run[0], c);
      }
      CallersOnlyLeave(Step(w, run[0]), run[1..], c, strays + StrayBy(w, run[0]));
    }
  }

  lemma StaysUnconnected(w: World, a: Action, c: ConnId, strays: set<ConnId>)
    requires Invariant(w, strays) && Enabled(w, a) && c < |w.conns|
    requires w.conns[c].state == Disconnecting || w.conns[c].state == Disconnected
    ensures c < |Step(w, a).conns|
    ensures Step(w, a).conns[c].state == Disconnecting || Step(w, a).conns[c].state == Disconnected
  {
    StatesMoveForward(w, a, c, strays);
    if a.ShutdownStore? {
      StoreRecord(w, a.c, c);
    }
  }

  // ---------- What a caller can do about it ----------

  /** No other thread stands in shutdown() between test and store when handleClose runs. */
  ghost predicate RaceFree(w: World, run: seq<Action>)
    requires Legal(w, run)
    decreases |run|
  {
    run != [] ==>
      && (run[0].HandleEvent? && 0 < run[0].closes ==> w.loops[run[0].l].active[0] !in w.tokens)
      && RaceFree(Step(w, run[0]), run[1..])
  }

  ghost predicate NeverLate(w: World) {
    forall c: ConnId :: c < |w.conns| && 0 < w.conns[c].downs ==> w.conns[c].state == Disconnected && c !in w.tokens
  }

  lemma EventOnTime(w: World, l: LoopId, closes: nat, drains: bool, d: ConnId)
    requires Enabled(w, HandleEvent(l, closes, drains)) && NeverLate(w) && d < |w.conns|
    requires 0 < closes ==> w.loops[l].active[0] !in w.tokens
    ensures var v := Step(w, HandleEvent(l, closes, drains));
            |v.conns| == |w.conns| && (0 < v.conns[d].downs ==> v.conns[d].state == Disconnected && d !in v.tokens)
  {
    var c := w.loops[l].active[0];
    var u := Popped(w, l);
    HandledEffect(u, c, closes, drains, d);
  }

  lemma HandledEffect(u: World, c: ConnId, closes: nat, drains: bool, d: ConnId)
    requires c < |u.conns| && u.conns[c].loop < |u.loops| && MAIN < |u.loops| && d < |u.conns|
    ensures var v := Handled(u, c, closes, drains);
            && |v.conns| == |u.conns| && v.tokens == u.tokens
            && v.conns[d].state == (if d == c && 0 < closes then Disconnected else u.conns[d].state)
            && (d != c || closes == 0 ==> v.conns[d].downs == u.conns[d].downs)
  {
  }

  lemma FunctorTokens(w: World, l: LoopId, keeps: bool)
    requires Enabled(w, RunNext(l, keeps))
    ensures Step(w, RunNext(l, keeps)).tokens == w.tokens
  {
  }

  lemma OthersTokens(w: World, a: Action)
    requires Enabled(w, a) && KeepsRecords(a)
    ensures forall c: ConnId :: c in Step(w, a).tokens ==>
              c in w.tokens || (c < |w.conns| && w.conns[c].state == Connected)
  {
  }

  lemma StaysOnTime(w: World, a: Action, d: ConnId, strays: set<ConnId>)
    requires Invariant(w, strays) && Enabled(w, a) && NeverLate(w) && d < |Step(w, a).conns|
    requires a.HandleEvent? && 0 < a.closes ==> w.loops[a.l].active[0] !in w.tokens
    requires 0 < Step(w, a).conns[d].downs
    ensures Step(w, a).conns[d].state == Disconnected && d !in Step(w, a).tokens
  {
    if d < |w.conns| {
      if a.HandleEvent? {
        EventOnTime(w, a.l, a.closes, a.drains, d);
      } else if a.RunNext? {
        ExecuteMovesForward(w, a.l, a.keeps, d, strays);
        FunctorTokens(w, a.l, a.keeps);
      } else if a.ShutdownStore? {
        StoreRecord(w, a.c, d);
      } else if a.OwnSend? {
        OwnSendRecord(w, a.c, d, strays);
      } else {
        OthersKeepRecord(w, a, d);
        OthersTokens(w, a);
      }
    } else {
      NewRecord(w, a, d);
    }
  }

  lemma OnTimeIsOwned(w: World, a: Action, strays: set<ConnId>)
    requires Invariant(w, strays) && Enabled(w, a) && NeverLate(w)
    ensures StrayBy(w, a) == {} && RevivedBy(w, a) == {}
  {
    if a.RunNext? && w.loops[a.l].batch[w.loops[a.l].next].Send? {
      var c := w.loops[a.l].batch[w.loops[a.l].next].c;
      AdvanceKeeps(w, a.l, a.keeps, strays);
      assert RecordOk(w, strays, c);
    }
  }

  lemma {:induction false} RaceFreeFrom(w: World, run: seq<Action>, strays: set<ConnId>)
    requires Invariant(w, strays) && Legal(w, run) && RaceFree(w, run) && NeverLate(w)
    ensures StraysOf(w, run) == {} && RevivedIn(w, run) == {}
    decreases |run|
  {
    if run == [] {
    } else {
      var v := Step(w, run[0]);
      StepKeepsInvariant(w, run[0], strays);
      OnTimeIsOwned(w, run[0], strays);
      forall d: ConnId | d < |v.conns| && 0 < v.conns[d].downs
        ensures v.conns[d].state == Disconnected && d !in v.tokens
      {
        StaysOnTime(w, run[0], d, strays);
      }
      RaceFreeFrom(v, run[1..], strays + StrayBy(w, run[0]));
    }
  }

  /** Then no connection is revived, and none goes astray. */
  lemma RaceFreeIsSafe(w: World, run: seq<Action>)
    requires Initial(w) && Legal(w, run) && RaceFree(w, run)
    ensures StraysOf(w, run) == {} && RevivedIn(w, run) == {}
  {
    InitialHolds(w);
    RaceFreeFrom(w, run, {});
  }

  // ---------- Runs in which a connection is revived and goes astray ----------

  lemma {:induction false} RunThen(w: World, run: seq<Action>, a: Action)
    requires Legal(w, run) && Enabled(Run(w, run), a)
    ensures Legal(w, run + [a]) && Run(w, run + [a]) == Step(Run(w, run), a)
    decreases |run|
  {
    if run == [] {
      assert run + [a] == [a] && [a][1..] == [];
    } else {
      assert (run + [a])[0] == run[0] && (run + [a])[1..] == run[1..] + [a];
      RunThen(Step(w, run[0]), run[1..], a);
    }
  }

  lemma {:induction false} StraysThen(w: World, run: seq<Action>, a: Action)
    requires Legal(w, run) && Enabled(Run(w, run), a) && Legal(w, run + [a])
    ensures StraysOf(w, run + [a]) == StraysOf(w, run) + StrayBy(Run(w, run), a)
    decreases |run|
  {
    if run == [] {
      assert run + [a] == [a] && [a][1..] == [];
    } else {
      assert (run + [a])[0] == run[0] && (run + [a])[1..] == run[1..] + [a];
      RunThen(Step(w, run[0]), run[1..], a);
      StraysThen(Step(w, run[0]), run[1..], a);
    }
  }

  /** The server of the examples has one loop, and at most one connection, on fd 7; a user
      holds it as long as `held` says. */
  function Alone(loop: LoopInfo, conns: seq<ConnInfo>, connections: set<ConnId>, held: multiset<ConnId>,
                 tokens: multiset<ConnId>, sending: multiset<ConnId>): World
  {
    World(conns, connections, [loop], held, tokens, sending, if conns == [] then {} else {7})
  }

  function Client(state: StateE, index: Polling.Index, downs: nat): seq<ConnInfo> {
    [ConnInfo(MAIN, 7, state, index, index == Polling.Added && 0 < downs, 1, downs, true)]
  }

  const WAITING := LoopInfo(Waiting, [], [], [], 0)
  const IDLE := Alone(WAITING, [], {}, multiset{}, multiset{}, multiset{})

  /** A run of that server in which no event closes twice. */
  ghost predicate Leads(run: seq<Action>, strays: set<ConnId>, v: World) {
    && Initial(IDLE) && Legal(IDLE, run) && Run(IDLE, run) == v && StraysOf(IDLE, run) == strays
    && forall i :: 0 <= i < |run| ==> !(run[i].HandleEvent? && run[i].closes == 2)
  }

  lemma LeadsOn(run: seq<Action>, strays: set<ConnId>, u: World, a: Action) returns (longer: seq<Action>)
    requires Leads(run, strays, u) && Enabled(u, a) && !(a.HandleEvent? && a.closes == 2)
    ensures Leads(longer, strays + StrayBy(u, a), Step(u, a))
  {
    RunThen(IDLE, run, a);
    StraysThen(IDLE, run, a);
    longer := run + [a];
  }

  /** A step that is no queued send makes no strays. */
  lemma LeadsPlainly(run: seq<Action>, strays: set<ConnId>, u: World, a: Action) returns (longer: seq<Action>)
    requires Leads(run, strays, u) && Enabled(u, a) && !(a.HandleEvent? && a.closes == 2)
    requires a.RunNext? ==> !u.loops[a.l].batch[u.loops[a.l].next].Send?
    ensures Leads(longer, strays, Step(u, a))
  {
    longer := LeadsOn(run, strays, u, a);
    assert strays + {} == strays;
  }

  /** A client is accepted, and the user keeps a reference to it. */
  lemma ClientConnects() returns (run: seq<Action>)
    ensures Leads(run, {},
                  Alone(WAITING, Client(Connected, Polling.Added, 0), {0}, multiset{0}, multiset{}, multiset{}))
  {
    var conns, none := Client(Connected, Polling.Added, 0), multiset{};
    assert Leads([], {}, IDLE);
    var u0 := Alone(WAITING.(stage := Dispatching), [], {}, none, none, none);
    var u1 := Alone(WAITING.(stage := Dispatching), conns, {0}, none, none, none);
    run := LeadsPlainly([], {}, IDLE, PollReturn(MAIN, []));
    assert Step(IDLE, PollReturn(MAIN, [])) == u0;
    run := LeadsPlainly(run, {}, u0, Accept(7, MAIN));
    assert Step(u0, Accept(7, MAIN)) == u1;
    run := ClientIsTaken(run, u1);
  }

  lemma ClientIsTaken(run: seq<Action>, u: World) returns (longer: seq<Action>)
    requires u == Alone(WAITING.(stage := Dispatching), Client(Connected, Polling.Added, 0), {0},
                        multiset{}, multiset{}, multiset{})
    requires Leads(run, {}, u)
    ensures Leads(longer, {},
                  Alone(WAITING, Client(Connected, Polling.Added, 0), {0}, multiset{0}, multiset{}, multiset{}))
  {
    var u1 := u.(held := multiset{0});
    var u2 := u1.(loops := [WAITING.(stage := Executing)]);
    longer := LeadsPlainly(run, {}, u, Take(0));
    assert Step(u, Take(0)) == u1;
    longer := LeadsPlainly(longer, {}, u1, Swap(MAIN));
    assert Step(u1, Swap(MAIN)) == u2;
    longer := LeadsPlainly(longer, {}, u2, EndPass(MAIN));
    assert Step(u2, EndPass(MAIN)) == u2.(loops := [WAITING]);
  }

  /** Two other threads pass the tests of send() and shutdown(). */
  lemma ClientIsTested() returns (run: seq<Action>)
    ensures Leads(run, {},
                  Alone(WAITING, Client(Connected, Polling.Added, 0), {0}, multiset{0}, multiset{0}, multiset{0}))
  {
    run := ClientConnects();
    var u := Alone(WAITING, Client(Connected, Polling.Added, 0), {0}, multiset{0}, multiset{}, multiset{});
    var u1 := u.(sending := multiset{0});
    run := LeadsPlainly(run, {}, u, SendTest(0));
    assert Step(u, SendTest(0)) == u1;
    run := LeadsPlainly(run, {}, u1, ShutdownTest(0));
    assert Step(u1, ShutdownTest(0)) == u1.(tokens := multiset{0});
  }

  /** Then the peer closes. */
  lemma ClientCloses() returns (run: seq<Action>)
    ensures Leads(run, {}, Alone(LoopInfo(Dispatching, [], [Destroy(0)], [], 0),
                                 Client(Disconnected, Polling.Deleted, 1), {}, multiset{0}, multiset{0}, multiset{0}))
  {
    run := ClientIsTested();
    var u := Alone(WAITING, Client(Connected, Polling.Added, 0), {0}, multiset{0}, multiset{0}, multiset{0});
    var u1 := u.(loops := [LoopInfo(Dispatching, [0], [], [], 0)]);
    run := LeadsPlainly(run, {}, u, PollReturn(MAIN, [0]));
    assert Step(u, PollReturn(MAIN, [0])) == u1;
    run := LeadsPlainly(run, {}, u1, HandleEvent(MAIN, 1, false));
    EventCloses(u1, 0);
  }

  lemma EventCloses(u: World, downs: nat)
    requires |u.conns| == 1 && u.conns == Client(u.conns[0].state, Polling.Added, downs) && u.open == {7}
    requires u.loops == [LoopInfo(Dispatching, [0], [], [], 0)] && 0 in u.held
    ensures Step(u, HandleEvent(MAIN, 1, false))
            == Alone(LoopInfo(Dispatching, [], [Destroy(0)], [], 0), Client(Disconnected, Polling.Deleted, downs + 1),
                     u.connections - {0}, u.held, u.tokens, u.sending)
  {
    assert Held(u, 0);
    var p := u.(loops := [LoopInfo(Dispatching, [], [], [], 0)]);
    assert u.loops[MAIN].active[1..] == [] && [u.loops[0]][MAIN := p.loops[0]] == p.loops;
    assert Popped(u, MAIN) == p;
    var q := p.(conns := Client(Disconnected, Polling.Deleted, downs + 1));
    assert SetConn(p, 0, ClosedRecord(p.conns[0])) == q;
    assert [] + [Destroy(0)] == [Destroy(0)];
    assert RemoveConnectionInLoop(q, 0)
        == q.(connections := u.connections - {0}, loops := [LoopInfo(Dispatching, [], [Destroy(0)], [], 0)]);
  }

  /** The send is queued, and the late store is made. */
  lemma ClientIsStored() returns (run: seq<Action>)
    ensures Leads(run, {}, Alone(LoopInfo(Dispatching, [], [Destroy(0), Functor.Send(0)], [], 0),
                                 Client(Disconnecting, Polling.Deleted, 1), {}, multiset{0}, multiset{}, multiset{}))
  {
    run := ClientCloses();
    var u := Alone(LoopInfo(Dispatching, [], [Destroy(0)], [], 0), Client(Disconnected, Polling.Deleted, 1), {},
                   multiset{0}, multiset{0}, multiset{0});
    var u1 := Alone(LoopInfo(Dispatching, [], [Destroy(0), Functor.Send(0)], [], 0), u.conns, {},
                    multiset{0}, multiset{0}, multiset{});
    run := LeadsPlainly(run, {}, u, SendPush(0));
    assert [Destroy(0)] + [Functor.Send(0)] == [Destroy(0), Functor.Send(0)];
    assert u.sending - multiset{0} == multiset{};
    assert Step(u, SendPush(0)) == u1;
    run := LeadsPlainly(run, {}, u1, ShutdownStore(0));
    assert Step(u1, ShutdownStore(0)) == u1.(conns := Client(Disconnecting, Polling.Deleted, 1), tokens := multiset{});
  }

  /** The loop runs connectDestroyed. */
  lemma ClientIsDestroyed() returns (run: seq<Action>)
    ensures Leads(run, {}, Alone(LoopInfo(Executing, [], [], [Destroy(0), Functor.Send(0)], 1),
                                 Client(Disconnecting, Polling.New, 1), {}, multiset{0}, multiset{}, multiset{}))
  {
    run := ClientIsStored();
    var u := Alone(LoopInfo(Dispatching, [], [Destroy(0), Functor.Send(0)], [], 0),
                   Client(Disconnecting, Polling.Deleted, 1), {}, multiset{0}, multiset{}, multiset{});
    var u1 := u.(loops := [LoopInfo(Executing, [], [], [Destroy(0), Functor.Send(0)], 0)]);
    run := LeadsPlainly(run, {}, u, Swap(MAIN));
    assert Step(u, Swap(MAIN)) == u1;
    run := LeadsPlainly(run, {}, u1, RunNext(MAIN, false));
    assert Step(u1, RunNext(MAIN, false)) == u1.(loops := [u1.loops[0].(next := 1)],
                                                 conns := Client(Disconnecting, Polling.New, 1));
  }

  lemma LastSend(u: World)
    requires u == Alone(LoopInfo(Executing, [], [], [Destroy(0), Functor.Send(0)], 1),
                        Client(Disconnecting, Polling.New, 1), {}, multiset{0}, multiset{}, multiset{})
    ensures StrayBy(u, RunNext(MAIN, true)) == {0}
    ensures Step(u, RunNext(MAIN, true))
            == u.(loops := [u.loops[0].(next := 2)], conns := Client(Disconnecting, Polling.Added, 1))
  {
    assert Todo(Advanced(u, MAIN).loops[0]) == [];
  }

  /** Then the send registers the connection once more, and nobody will ever remove it. */
  lemma ClientGoesAstray() returns (run: seq<Action>)
    ensures Leads(run, {0},
                  Alone(WAITING, Client(Disconnecting, Polling.Added, 1), {}, multiset{0}, multiset{}, multiset{}))
  {
    run := ClientIsDestroyed();
    var u := Alone(LoopInfo(Executing, [], [], [Destroy(0), Functor.Send(0)], 1),
                   Client(Disconnecting, Polling.New, 1), {}, multiset{0}, multiset{}, multiset{});
    var u1 := u.(loops := [u.loops[0].(next := 2)], conns := Client(Disconnecting, Polling.Added, 1));
    LastSend(u);
    run := LeadsOn(run, {}, u, RunNext(MAIN, true));
    assert {} + {0} == {0 as ConnId};
    run := LeadsPlainly(run, {0}, u1, EndPass(MAIN));
    assert Step(u1, EndPass(MAIN)) == u1.(loops := [WAITING]);
  }

  /** The object can then be destroyed, and its fd closed, with its channel still registered. */
  lemma DestroyedWhileRegistered() returns (run: seq<Action>)
    ensures Initial(IDLE) && Legal(IDLE, run) && Enabled(Run(IDLE, run), Destruct(0))
    ensures Run(IDLE, run).conns[0].index == Polling.Added
  {
    run := ClientGoesAstray();
    var u := Alone(WAITING, Client(Disconnecting, Polling.Added, 1), {}, multiset{0}, multiset{}, multiset{});
    run := LeadsPlainly(run, {0}, u, Drop(0));
    var v := u.(held := multiset{});
    assert Step(u, Drop(0)) == v;
    forall l: LoopId ensures !QueueHolds(v, l, 0) {
    }
  }

  /** Or the peer's next event closes the connection a second time. */
  lemma ReportedTwiceWithoutDoubleClose() returns (run: seq<Action>)
    ensures Initial(IDLE) && Legal(IDLE, run) && ReportedTwice(Run(IDLE, run), 0)
    ensures forall i :: 0 <= i < |run| ==> !(run[i].HandleEvent? && run[i].closes == 2)
  {
    run := ClientGoesAstray();
    var u := Alone(WAITING, Client(Disconnecting, Polling.Added, 1), {}, multiset{0}, multiset{}, multiset{});
    var u1 := u.(loops := [LoopInfo(Dispatching, [0], [], [], 0)]);
    run := LeadsPlainly(run, {0}, u, PollReturn(MAIN, [0]));
    assert Step(u, PollReturn(MAIN, [0])) == u1;
    run := LeadsPlainly(run, {0}, u1, HandleEvent(MAIN, 1, false));
    EventCloses(u1, 1);
  }
}
