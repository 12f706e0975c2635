/** The output path of ads_TcpConnection.cc as a state machine: partial writes, the output
    buffer, half-close and high-water notices, with sends and shutdowns also arriving from
    other threads through the loop's functor queue. */
module OutputPath {
  import opened Buffers

  datatype StateE = Disconnected | Connecting | Connected | Disconnecting

  datatype Errno = WouldBlock | BrokenPipe | ConnectionReset | OtherError

  /** What one call of write, or of sendfile, returned. */
  datatype WriteResult = Wrote(n: nat) | WriteFailed(errno: Errno)

  /** The callbacks that the connection queues on its loop. */
  datatype Notice = WriteComplete | HighWater(size: nat)

  /** Which callbacks are set, and the high-water mark. */
  datatype Config = Config(mark: nat, onComplete: bool, onHighWater: bool)

  datatype Conn = Conn(
    state: StateE,
    out: seq<byte>,          // the readable bytes of outputBuffer_
    writing: bool,           // channel_->isWriting()
    wire: seq<byte>,         // everything the socket accepted so far
    notices: seq<Notice>,    // the callbacks queued so far
    halfCloses: nat,         // how often shutdownWrite was called
    closed: bool)            // has handleClose run?

  const ESTABLISHED := Conn(Connected, [], false, [], [], 0, false)

  predicate Fits(r: WriteResult, len: nat) {
    r.Wrote? ==> r.n <= len
  }

  predicate Fatal(r: WriteResult) {
    r == WriteFailed(BrokenPipe) || r == WriteFailed(ConnectionReset)
  }

  /** Does sendInLoop try the socket at once? */
  predicate Direct(c: Conn) {
    !c.writing && c.out == []
  }

  // ---------- The methods, on values ----------

  /** The part of sendInLoop that keeps what is left for later. */
  function Keep(cfg: Config, c: Conn, rest: seq<byte>): Conn {
    if rest == [] then c
    else
      var crosses := (|c.out| < cfg.mark <= |c.out| + |rest|) && cfg.onHighWater;
      c.(out := c.out + rest, writing := true,
         notices := c.notices + if crosses then [HighWater(|c.out| + |rest|)] else [])
  }

  function SendInLoop(cfg: Config, c: Conn, data: seq<byte>, r: WriteResult): Conn
    requires Fits(r, |data|)
  {
    if c.state == Disconnected then c
    else if !Direct(c) then Keep(cfg, c, data)
    else match r
      case Wrote(n) =>
        var d := c.(wire := c.wire + data[..n]);
        if n == |data| then (if cfg.onComplete then d.(notices := d.notices + [WriteComplete]) else d)
        else Keep(cfg, d, data[n..])
      case WriteFailed(_) =>
        if Fatal(r) then c else Keep(cfg, c, data)
  }

  function ShutdownInLoop(c: Conn): Conn {
    if c.writing then c else c.(halfCloses := c.halfCloses + 1)
  }

  function HandleWrite(cfg: Config, c: Conn, r: WriteResult): Conn
    requires Fits(r, |c.out|)
  {
    if !c.writing || !r.Wrote? || r.n == 0 then c
    else
      var d := c.(wire := c.wire + c.out[..r.n], out := c.out[r.n..]);
      if d.out != [] then d
      else
        var e := d.(writing := false,
                    notices := d.notices + if cfg.onComplete then [WriteComplete] else []);
        if e.state == Disconnecting then ShutdownInLoop(e) else e
  }

  function HandleClose(c: Conn): Conn {
    c.(state := Disconnected, writing := false, closed := true)
  }

  // ---------- The connection among threads ----------

  /** What other threads leave in the loop's queue for this connection. A queued send holds
      the address of its caller's string, not the bytes. */
  datatype Job = SendJob(id: nat, data: seq<byte>) | ShutdownJob

  datatype System = System(
    conn: Conn,
    jobs: seq<Job>,
    sending: map<nat, seq<byte>>,  // threads in send(), between its test of the state and its push
    strings: nat,                  // how many strings were passed to send() so far
    ended: set<nat>,               // those that their callers have destroyed or overwritten
    tokens: nat,                   // threads in shutdown(), between its test and its store
    stored: nat,                   // threads in shutdown(), between its store and its push
    late: bool)                    // has such a store happened after handleClose?

  const START := System(ESTABLISHED, [], map[], 0, {}, 0, 0, false)

  datatype Event =
    | Send(data: seq<byte>, r: WriteResult)        // send() on the loop's thread
    | Writable(r: WriteResult)                     // EPOLLOUT
    | Shutdown                                     // shutdown() on the loop's thread
    | PeerClose                                    // handleClose
    | RemoteSendTest(data: seq<byte>)              // send() on another thread: its test,
    | RemoteSendPush(id: nat)                      //   and later its runInLoop
    | StringEnd(id: nat)                           // some time after send() has returned
    | RemoteTest                                   // shutdown() on another thread: its test,
    | RemoteStore                                  //   later its store,
    | RemotePush                                   //   and then its runInLoop
    | RunJob(seen: seq<byte>, r: WriteResult)      // the loop runs the next queued job

  /** What write can return. After shutdownWrite the kernel takes nothing more: POSIX gives
      EPIPE, or ECONNRESET when a reset is pending. */
  predicate Returns(c: Conn, r: WriteResult, len: nat) {
    Fits(r, len) && (0 < c.halfCloses ==> Fatal(r))
  }

  /** The bytes a queued send finds behind its pointer: its payload until the string ends,
      and afterwards whatever is there. */
  predicate Sees(s: System, seen: seq<byte>)
    requires s.jobs != []
  {
    match s.jobs[0]
    case SendJob(id, data) => |seen| == |data| && (id !in s.ended ==> seen == data)
    case ShutdownJob => seen == []
  }

  predicate Allowed(s: System, e: Event) {
    match e
    case Send(data, r) => Returns(s.conn, r, |data|)
    case Writable(r) => Returns(s.conn, r, |s.conn.out|)
    case RemoteSendPush(id) => id in s.sending
    case StringEnd(id) => id < s.strings && id !in s.sending
    case RemoteStore => 0 < s.tokens
    case RemotePush => 0 < s.stored
    case RunJob(seen, r) => s.jobs != [] && Sees(s, seen) && Returns(s.conn, r, |seen|)
    case _ => true
  }

  function Step(cfg: Config, s: System, e: Event): System
    requires Allowed(s, e)
  {
    var c := s.conn;
    match e
    case Send(data, r) => if c.state == Connected then s.(conn := SendInLoop(cfg, c, data, r)) else s
    case Writable(r) => s.(conn := HandleWrite(cfg, c, r))
    case Shutdown =>
      if c.state == Connected then s.(conn := ShutdownInLoop(c.(state := Disconnecting))) else s
    case PeerClose => s.(conn := HandleClose(c))
    case RemoteSendTest(data) =>
      var t := s.(strings := s.strings + 1);
      if c.state == Connected then t.(sending := s.sending[s.strings := data]) else t
    case RemoteSendPush(id) =>
      s.(jobs := s.jobs + [SendJob(id, s.sending[id])], sending := s.sending - {id})
    case StringEnd(id) => s.(ended := s.ended + {id})
    case RemoteTest => if c.state == Connected then s.(tokens := s.tokens + 1) else s
    case RemoteStore =>
      s.(conn := c.(state := Disconnecting), tokens := s.tokens - 1, stored := s.stored + 1,
         late := s.late || c.closed)
    case RemotePush => s.(jobs := s.jobs + [ShutdownJob], stored := s.stored - 1)
    case RunJob(seen, r) =>
      var d := if s.jobs[0].SendJob? then SendInLoop(cfg, c, seen, r) else ShutdownInLoop(c);
      s.(conn := d, jobs := s.jobs[1..])
  }

  predicate Legal(cfg: Config, s: System, run: seq<Event>)
    decreases |run|
  {
    run != [] ==> Allowed(s, run[0]) && Legal(cfg, Step(cfg, s, run[0]), run[1..])
  }

  function Run(cfg: Config, s: System, run: seq<Event>): System
    requires Legal(cfg, s, run)
    decreases |run|
  {
    if run == [] then s else Run(cfg, Step(cfg, s, run[0]), run[1..])
  }

  lemma RunCons(cfg: Config, s: System, e: Event, rest: seq<Event>)
    requires Allowed(s, e) && Legal(cfg, Step(cfg, s, e), rest)
    ensures Legal(cfg, s, [e] + rest) && Run(cfg, s, [e] + rest) == Run(cfg, Step(cfg, s, e), rest)
  {
    assert ([e] + rest)[1..] == rest;
  }

  // ---------- Conservation of the stream ----------

  /** The payload a step hands to sendInLoop, if any. */
  function Offer(s: System, e: Event): seq<seq<byte>>
    requires Allowed(s, e)
  {
    match e
    case Send(data, _) => if s.conn.state == Connected then [data] else []
    case RunJob(seen, _) => if s.jobs[0].SendJob? then [seen] else []
    case _ => []
  }

  /** sendInLoop discards a payload only when disconnected, or when its own first write
      finds the connection broken. */
  predicate Drops(c: Conn, r: WriteResult) {
    c.state == Disconnected || (Direct(c) && Fatal(r))
  }

  function AcceptedAt(s: System, e: Event): seq<seq<byte>>
    requires Allowed(s, e)
  {
    if Offer(s, e) != [] && Drops(s.conn, e.r) then [] else Offer(s, e)
  }

  /** Every payload the run accepts, in the order sendInLoop took them. */
  function Accepted(cfg: Config, s: System, run: seq<Event>): seq<seq<byte>>
    requires Legal(cfg, s, run)
    decreases |run|
  {
    if run == [] then [] else AcceptedAt(s, run[0]) + Accepted(cfg, Step(cfg, s, run[0]), run[1..])
  }

  function Flatten(parts: seq<seq<byte>>): seq<byte> {
    if parts == [] then [] else parts[0] + Flatten(parts[1..])
  }

  lemma {:induction false} FlattenConcat(a: seq<seq<byte>>, b: seq<seq<byte>>)
    ensures Flatten(a + b) == Flatten(a) + Flatten(b)
    decreases |a|
  {
    if a == [] {
      assert a + b == b;
    } else {
      assert (a + b)[0] == a[0] && (a + b)[1..] == a[1..] + b;
      FlattenConcat(a[1..], b);
    }
  }

  lemma SendConserves(cfg: Config, c: Conn, data: seq<byte>, r: WriteResult)
    requires Fits(r, |data|)
    ensures var d := SendInLoop(cfg, c, data, r);
            d.wire + d.out == c.wire + c.out + if Drops(c, r) then [] else data
  {
    if !Drops(c, r) && Direct(c) && r.Wrote? {
      assert data == data[..r.n] + data[r.n..];
    }
  }

  lemma WriteConserves(cfg: Config, c: Conn, r: WriteResult)
    requires Fits(r, |c.out|)
    ensures HandleWrite(cfg, c, r).wire + HandleWrite(cfg, c, r).out == c.wire + c.out
  {
    if r.Wrote? {
      assert c.out == c.out[..r.n] + c.out[r.n..];
    }
  }

  lemma StepConserves(cfg: Config, s: System, e: Event)
    requires Allowed(s, e)
    ensures var d := Step(cfg, s, e).conn;
            d.wire + d.out == s.conn.wire + s.conn.out + Flatten(AcceptedAt(s, e))
  {
    match e
    case Send(data, r) =>
      SendConserves(cfg, s.conn, data, r);
      assert Flatten([data]) == data + [];
    case Writable(r) => WriteConserves(cfg, s.conn, r);
    case RunJob(seen, r) =>
      SendConserves(cfg, s.conn, seen, r);
      assert Flatten([seen]) == seen + [];
    case _ =>
  }

  /** On every run, whatever the threads do: the wire followed by the buffer is exactly the
      accepted payloads, each whole, in order. */
  lemma {:induction false} StreamConserved(cfg: Config, s: System, run: seq<Event>)
    requires Legal(cfg, s, run)
    ensures var d := Run(cfg, s, run).conn;
            d.wire + d.out == s.conn.wire + s.conn.out + Flatten(Accepted(cfg, s, run))
    decreases |run|
  {
    if run == [] {
      assert s.conn.wire + s.conn.out + [] == s.conn.wire + s.conn.out;
    } else {
      var t := Step(cfg, s, run[0]);
      StepConserves(cfg, s, run[0]);
      StreamConserved(cfg, t, run[1..]);
      FlattenConcat(AcceptedAt(s, run[0]), Accepted(cfg, t, run[1..]));
      assert s.conn.wire + s.conn.out + Flatten(AcceptedAt(s, run[0])) + Flatten(Accepted(cfg, t, run[1..]))
          == s.conn.wire + s.conn.out + (Flatten(AcceptedAt(s, run[0])) + Flatten(Accepted(cfg, t, run[1..])));
    }
  }

  /** How many bytes the socket takes in a step: what the write returned that the step makes.
      A writable event makes one while the channel is writing; an offered payload makes one
      while nothing is buffered, the channel is not writing, and the state not kDisconnected. */
  function WrittenAt(s: System, e: Event): nat
    requires Allowed(s, e)
  {
    if e.Writable? then
      if s.conn.writing && e.r.Wrote? then e.r.n else 0
    else if Offer(s, e) != [] && s.conn.state != Disconnected && !s.conn.writing && s.conn.out == [] then
      if e.r.Wrote? then e.r.n else 0
    else 0
  }

  function Written(cfg: Config, s: System, run: seq<Event>): nat
    requires Legal(cfg, s, run)
    decreases |run|
  {
    if run == [] then 0 else WrittenAt(s, run[0]) + Written(cfg, Step(cfg, s, run[0]), run[1..])
  }

  lemma StepWrites(cfg: Config, s: System, e: Event)
    requires Allowed(s, e)
    ensures |Step(cfg, s, e).conn.wire| == |s.conn.wire| + WrittenAt(s, e)
  {
  }

  /** On every run the wire grows by exactly what the writes returned. */
  lemma {:induction false} WireCountsWrites(cfg: Config, s: System, run: seq<Event>)
    requires Legal(cfg, s, run)
    ensures |Run(cfg, s, run).conn.wire| == |s.conn.wire| + Written(cfg, s, run)
    decreases |run|
  {
    if run == [] {
    } else {
      StepWrites(cfg, s, run[0]);
      WireCountsWrites(cfg, Step(cfg, s, run[0]), run[1..]);
    }
  }

  /** So both the wire and the buffer are known: the accepted payloads, cut at the number of
      bytes that the socket has taken. */
  lemma StreamIsCut(cfg: Config, run: seq<Event>)
    requires Legal(cfg, START, run)
    ensures var stream, n := Flatten(Accepted(cfg, START, run)), Written(cfg, START, run);
            && n <= |stream|
            && Run(cfg, START, run).conn.wire == stream[..n] && Run(cfg, START, run).conn.out == stream[n..]
  {
    var d, stream := Run(cfg, START, run).conn, Flatten(Accepted(cfg, START, run));
    StreamConserved(cfg, START, run);
    WireCountsWrites(cfg, START, run);
    assert [] + [] + stream == stream;
    assert d.wire == (d.wire + d.out)[..|d.wire|] && d.out == (d.wire + d.out)[|d.wire|..];
  }

  // ---------- Sends from other threads ----------

  function Sends(jobs: seq<Job>): seq<seq<byte>> {
    if jobs == [] then []
    else (if jobs[0].SendJob? then [jobs[0].data] else []) + Sends(jobs[1..])
  }

  lemma {:induction false} SendsConcat(a: seq<Job>, b: seq<Job>)
    ensures Sends(a + b) == Sends(a) + Sends(b)
    decreases |a|
  {
    if a == [] {
      assert a + b == b;
    } else {
      assert (a + b)[0] == a[0] && (a + b)[1..] == a[1..] + b;
      SendsConcat(a[1..], b);
    }
  }

  /** The payload that enters the queue with a step, the one that leaves it, and the bytes
      that the step hands to sendInLoop for it. */
  function PushedAt(s: System, e: Event): seq<seq<byte>>
    requires Allowed(s, e)
  {
    if e.RemoteSendPush? then [s.sending[e.id]] else []
  }

  function TakenAt(s: System, e: Event): seq<seq<byte>>
    requires Allowed(s, e)
  {
    if e.RunJob? && s.jobs[0].SendJob? then [s.jobs[0].data] else []
  }

  function HandedAt(s: System, e: Event): seq<seq<byte>>
    requires Allowed(s, e)
  {
    if e.RunJob? then Offer(s, e) else []
  }

  function Pushed(cfg: Config, s: System, run: seq<Event>): seq<seq<byte>>
    requires Legal(cfg, s, run)
    decreases |run|
  {
    if run == [] then [] else PushedAt(s, run[0]) + Pushed(cfg, Step(cfg, s, run[0]), run[1..])
  }

  function Taken(cfg: Config, s: System, run: seq<Event>): seq<seq<byte>>
    requires Legal(cfg, s, run)
    decreases |run|
  {
    if run == [] then [] else TakenAt(s, run[0]) + Taken(cfg, Step(cfg, s, run[0]), run[1..])
  }

  function Handed(cfg: Config, s: System, run: seq<Event>): seq<seq<byte>>
    requires Legal(cfg, s, run)
    decreases |run|
  {
    if run == [] then [] else HandedAt(s, run[0]) + Handed(cfg, Step(cfg, s, run[0]), run[1..])
  }

  lemma StepSends(cfg: Config, s: System, e: Event)
    requires Allowed(s, e)
    ensures Sends(s.jobs) + PushedAt(s, e) == TakenAt(s, e) + Sends(Step(cfg, s, e).jobs)
  {
    if e.RemoteSendPush? {
      var job := SendJob(e.id, s.sending[e.id]);
      SendsConcat(s.jobs, [job]);
      assert Sends([job]) == [job.data] + [];
    } else if e.RemotePush? {
      SendsConcat(s.jobs, [ShutdownJob]);
      assert Sends([ShutdownJob]) == [] + [];
    }
  }

  lemma Regroup<T>(a: seq<T>, b: seq<T>, rest: seq<T>, x: seq<T>, y: seq<T>)
    requires a + b == x + y
    ensures a + (b + rest) == x + (y + rest)
  {
    assert a + (b + rest) == (a + b) + rest;
    assert x + (y + rest) == (x + y) + rest;
  }

  /** Queued sends are taken up once each, in the order they were queued. */
  lemma {:induction false} QueuedSendsInOrder(cfg: Config, s: System, run: seq<Event>)
    requires Legal(cfg, s, run)
    ensures Sends(s.jobs) + Pushed(cfg, s, run) == Taken(cfg, s, run) + Sends(Run(cfg, s, run).jobs)
    decreases |run|
  {
    if run == [] {
      assert Sends(s.jobs) + [] == [] + Sends(s.jobs);
    } else {
      var e, t, rest := run[0], Step(cfg, s, run[0]), run[1..];
      StepSends(cfg, s, e);
      QueuedSendsInOrder(cfg, t, rest);
      Regroup(Sends(s.jobs), PushedAt(s, e), Pushed(cfg, t, rest), TakenAt(s, e), Sends(t.jobs));
      assert TakenAt(s, e) + (Taken(cfg, t, rest) + Sends(Run(cfg, t, rest).jobs))
          == (TakenAt(s, e) + Taken(cfg, t, rest)) + Sends(Run(cfg, t, rest).jobs);
    }
  }

  // ---------- Whose bytes a queued send hands on ----------

  /** The same step, up to the bytes that a job finds behind its pointer. */
  predicate SameBut(e: Event, f: Event) {
    e == f || (e.RunJob? && f.RunJob? && e.r == f.r)
  }

  predicate SameSchedule(a: seq<Event>, b: seq<Event>) {
    |a| == |b| && forall i :: 0 <= i < |a| ==> SameBut(a[i], b[i])
  }

  /** Equal up to the values of the bytes buffered and written. */
  predicate Similar(s: System, t: System) {
    && t.(conn := s.conn) == s
    && t.conn.(out := s.conn.out, wire := s.conn.wire) == s.conn
    && |t.conn.out| == |s.conn.out| && |t.conn.wire| == |s.conn.wire|
  }

  lemma SendSimilar(cfg: Config, s: System, t: System, data: seq<byte>, seen: seq<byte>, r: WriteResult)
    requires Similar(s, t) && |data| == |seen| && Fits(r, |data|)
    ensures Similar(s.(conn := SendInLoop(cfg, s.conn, data, r)), t.(conn := SendInLoop(cfg, t.conn, seen, r)))
  {
  }

  lemma StepSimilar(cfg: Config, s: System, t: System, e: Event, f: Event)
    requires Similar(s, t) && Allowed(s, e) && Allowed(t, f) && SameBut(e, f)
    ensures Similar(Step(cfg, s, e), Step(cfg, t, f))
  {
    if e.RunJob? {
      JobSimilar(cfg, s, t, e, f);
    } else if e.Send? {
      SendSimilar(cfg, s, t, e.data, e.data, e.r);
    }
  }

  lemma JobSimilar(cfg: Config, s: System, t: System, e: Event, f: Event)
    requires Similar(s, t) && Allowed(s, e) && Allowed(t, f) && SameBut(e, f) && e.RunJob?
    ensures Similar(Step(cfg, s, e), Step(cfg, t, f))
  {
    SendSimilar(cfg, s, t, e.seen, f.seen, e.r);
  }

  lemma {:induction false} SimilarLegal(cfg: Config, s: System, t: System, run: seq<Event>)
    requires Similar(s, t) && Legal(cfg, s, run)
    ensures Legal(cfg, t, run)
    decreases |run|
  {
    if run == [] {
    } else {
      StepSimilar(cfg, s, t, run[0], run[0]);
      SimilarLegal(cfg, Step(cfg, s, run[0]), Step(cfg, t, run[0]), run[1..]);
    }
  }

  /** A queued send that runs before its caller's string ends, or has nothing to read. */
  predicate TimelyAt(s: System, e: Event)
    requires Allowed(s, e)
  {
    e.RunJob? && s.jobs[0].SendJob? && s.jobs[0].data != [] ==> s.jobs[0].id !in s.ended
  }

  predicate Timely(cfg: Config, s: System, run: seq<Event>)
    requires Legal(cfg, s, run)
    decreases |run|
  {
    run != [] ==> TimelyAt(s, run[0]) && Timely(cfg, Step(cfg, s, run[0]), run[1..])
  }

  lemma SplitEqual<T>(a: seq<T>, x: seq<T>, b: seq<T>, y: seq<T>)
    requires |a| == |b|
    ensures a + x == b + y <==> a == b && x == y
  {
    if a + x == b + y {
      assert a == (a + x)[..|a|] == (b + y)[..|a|] == b;
      assert x == (a + x)[|a|..] == (b + y)[|a|..] == y;
    }
  }

  lemma {:induction false} TimelyHandsOn(cfg: Config, s: System, run: seq<Event>, t: System, other: seq<Event>)
    requires Similar(s, t) && Legal(cfg, s, run) && Timely(cfg, s, run)
    requires Legal(cfg, t, other) && SameSchedule(run, other)
    ensures Handed(cfg, t, other) == Taken(cfg, t, other)
    decreases |run|
  {
    if run == [] {
    } else {
      assert SameBut(run[0], other[0]);
      StepSimilar(cfg, s, t, run[0], other[0]);
      TimelyHandsOn(cfg, Step(cfg, s, run[0]), run[1..], Step(cfg, t, other[0]), other[1..]);
    }
  }

  function Flipped(data: seq<byte>): (other: seq<byte>)
    requires data != []
    ensures |other| == |data| && other != data
  {
    var other := [if data[0] == 0 then 1 else 0] + data[1..];
    assert other[0] != data[0];
    other
  }

  lemma {:induction false} UntimelySpoils(cfg: Config, s: System, run: seq<Event>) returns (other: seq<Event>)
    requires Legal(cfg, s, run) && !Timely(cfg, s, run)
    ensures Legal(cfg, s, other) && SameSchedule(run, other)
    ensures Handed(cfg, s, other) != Taken(cfg, s, other)
    decreases |run|
  {
    var e, rest := run[0], run[1..];
    if TimelyAt(s, e) {
      rest := UntimelySpoils(cfg, Step(cfg, s, e), rest);
    } else {
      e := RunJob(Flipped(s.jobs[0].data), run[0].r);
      StepSimilar(cfg, s, s, run[0], e);
      SimilarLegal(cfg, Step(cfg, s, run[0]), Step(cfg, s, e), rest);
    }
    RunCons(cfg, s, e, rest);
    other := [e] + rest;
    assert other[1..] == rest;
    var t := Step(cfg, s, e);
    SplitEqual(HandedAt(s, e), Handed(cfg, t, rest), TakenAt(s, e), Taken(cfg, t, rest));
  }

  /** What the loop hands on is what the callers passed, whatever stands in memory that they
      have given up, if and only if every queued send with a payload runs before its caller's
      string ends. */
  lemma QueuedSendsExactly(cfg: Config, s: System, run: seq<Event>)
    requires Legal(cfg, s, run)
    ensures (forall other :: Legal(cfg, s, other) && SameSchedule(run, other) ==>
               Handed(cfg, s, other) == Taken(cfg, s, other))
            <==> Timely(cfg, s, run)
  {
    if Timely(cfg, s, run) {
      forall other | Legal(cfg, s, other) && SameSchedule(run, other)
        ensures Handed(cfg, s, other) == Taken(cfg, s, other)
      {
        TimelyHandsOn(cfg, s, run, s, other);
      }
    } else {
      var other := UntimelySpoils(cfg, s, run);
    }
  }

  /** A caller whose string ends as soon as send() returns: the peer gets other bytes. */
  lemma DanglingSend(cfg: Config, data: seq<byte>, garbage: seq<byte>)
    requires |garbage| == |data|
    ensures var run := [RemoteSendTest(data), RemoteSendPush(0), StringEnd(0), RunJob(garbage, Wrote(|data|))];
            Legal(cfg, START, run) && Run(cfg, START, run).conn.wire == garbage
  {
    var last := RunJob(garbage, Wrote(|data|));
    var s1 := Step(cfg, START, RemoteSendTest(data));
    var s2 := Step(cfg, s1, RemoteSendPush(0));
    var s3 := Step(cfg, s2, StringEnd(0));
    assert s3.jobs == [SendJob(0, data)] && garbage[..|data|] == garbage;
    RunCons(cfg, s3, last, []);
    RunCons(cfg, s2, StringEnd(0), [last]);
    RunCons(cfg, s1, RemoteSendPush(0), [StringEnd(0), last]);
    RunCons(cfg, START, RemoteSendTest(data), [RemoteSendPush(0), StringEnd(0), last]);
  }

  // ---------- The write interest, and what follows it ----------

  /** Until handleClose, the channel asks for writability exactly while bytes are buffered;
      after it, until a late store, the connection stays disconnected and silent. */
  predicate Invariant(s: System) {
    var c := s.conn;
    && (!c.closed ==> c.state != Disconnected && (c.writing <==> c.out != []))
    && (c.closed && !s.late ==> c.state == Disconnected && !c.writing)
    && (s.late ==> c.closed && (c.state == Disconnecting || c.state == Disconnected))
    && c.state != Connecting
    && (c.writing ==> c.out != [])
  }

  lemma StepKeepsInvariant(cfg: Config, s: System, e: Event)
    requires Allowed(s, e) && Invariant(s)
    ensures Invariant(Step(cfg, s, e))
  {
  }

  lemma {:induction false} RunKeepsInvariant(cfg: Config, s: System, run: seq<Event>)
    requires Legal(cfg, s, run) && Invariant(s)
    ensures Invariant(Run(cfg, s, run))
    decreases |run|
  {
    if run == [] {
    } else {
      StepKeepsInvariant(cfg, s, run[0]);
      RunKeepsInvariant(cfg, Step(cfg, s, run[0]), run[1..]);
    }
  }

  function Rank(state: StateE): nat {
    match state
    case Connecting => 0
    case Connected => 1
    case Disconnecting => 2
    case Disconnected => 3
  }

  /** In every run, until handleClose the channel is writing exactly while bytes are buffered. */
  lemma InterestFollowsBuffer(cfg: Config, run: seq<Event>)
    requires Legal(cfg, START, run) && !Run(cfg, START, run).conn.closed
    ensures var c := Run(cfg, START, run).conn;
            (c.writing <==> c.out != []) && (c.state == Connected || c.state == Disconnecting)
  {
    RunKeepsInvariant(cfg, START, run);
  }

  /** Such a late store revives the connection: a send queued earlier is then taken, and the
      channel registers for writing again after handleClose. */
  lemma LateShutdownRevives(cfg: Config, data: seq<byte>)
    requires data != []
    ensures var run := [RemoteSendTest(data), RemoteSendPush(0), RemoteTest, PeerClose, RemoteStore,
                        RunJob(data, WriteFailed(WouldBlock))];
            && Legal(cfg, START, run)
            && Run(cfg, START, run).conn.closed && Run(cfg, START, run).conn.writing
            && Run(cfg, START, run).conn.state == Disconnecting
  {
    var last := RunJob(data, WriteFailed(WouldBlock));
    var s0 := Step(cfg, START, RemoteSendTest(data));
    var s1 := Step(cfg, s0, RemoteSendPush(0));
    assert s1 == System(ESTABLISHED, [SendJob(0, data)], map[], 1, {}, 0, 0, false);
    LateStoreTail(cfg, s1, data);
    RunCons(cfg, s0, RemoteSendPush(0), [RemoteTest, PeerClose, RemoteStore, last]);
    RunCons(cfg, START, RemoteSendTest(data), [RemoteSendPush(0), RemoteTest, PeerClose, RemoteStore, last]);
  }

  lemma LateStoreTail(cfg: Config, s: System, data: seq<byte>)
    requires data != [] && s == System(ESTABLISHED, [SendJob(0, data)], map[], 1, {}, 0, 0, false)
    ensures var run := [RemoteTest, PeerClose, RemoteStore, RunJob(data, WriteFailed(WouldBlock))];
            && Legal(cfg, s, run)
            && Run(cfg, s, run).conn == Conn(Disconnecting, data, true, [], Run(cfg, s, run).conn.notices, 0, true)
  {
    var last := RunJob(data, WriteFailed(WouldBlock));
    var s2 := Step(cfg, s, RemoteTest);
    var s3 := Step(cfg, s2, PeerClose);
    var s4 := Step(cfg, s3, RemoteStore);
    RunCons(cfg, s4, last, []);
    RunCons(cfg, s3, RemoteStore, [last]);
    RunCons(cfg, s2, PeerClose, [RemoteStore, last]);
    RunCons(cfg, s, RemoteTest, [PeerClose, RemoteStore, last]);
  }

  /** If nothing is sent meanwhile, positive writes empty the buffer in at most as many
      rounds as it holds bytes. */
  lemma {:induction false} BufferDrains(cfg: Config, s: System, run: seq<Event>)
    requires Legal(cfg, s, run) && Invariant(s) && !s.conn.closed
    requires forall i :: 0 <= i < |run| ==> run[i].Writable? && run[i].r.Wrote? && 0 < run[i].r.n
    ensures |Run(cfg, s, run).conn.out| + |run| <= |s.conn.out|
    decreases |run|
  {
    if run == [] {
    } else {
      StepKeepsInvariant(cfg, s, run[0]);
      BufferDrains(cfg, Step(cfg, s, run[0]), run[1..]);
    }
  }

  // ---------- Half-close ----------

  predicate HalfCloses(cfg: Config, s: System, e: Event)
    requires Allowed(s, e)
  {
    s.conn.halfCloses < Step(cfg, s, e).conn.halfCloses
  }

  /** With bytes buffered, only two kinds of step half-close: the write that empties the
      buffer, and a queued shutdown behind handleClose. The first leaves nothing unsent, the
      second everything. */
  lemma HalfClosingStep(cfg: Config, run: seq<Event>, e: Event)
    requires Legal(cfg, START, run) && Allowed(Run(cfg, START, run), e) && HalfCloses(cfg, Run(cfg, START, run), e)
    ensures var s := Run(cfg, START, run);
            var t := Step(cfg, s, e);
            && (t.conn.out != [] <==> e.RunJob? && s.conn.closed && s.conn.out != [])
            && (t.conn.out != [] ==> t.conn.out == s.conn.out && t.conn.wire == s.conn.wire)
            && (s.conn.out != [] && t.conn.out == [] ==> e.Writable?)
  {
    RunKeepsInvariant(cfg, START, run);
  }

  /** A client is cut off: the first write is blocked, another thread shuts down, the peer
      closes, and the queued shutdown half-closes with everything still in the buffer. */
  lemma HalfCloseTruncatesExample(cfg: Config, data: seq<byte>)
    requires data != []
    ensures var run := [Send(data, WriteFailed(WouldBlock)), RemoteTest, RemoteStore, RemotePush, PeerClose,
                        RunJob([], Wrote(0))];
            && Legal(cfg, START, run)
            && Run(cfg, START, run).conn.halfCloses == 1 && Run(cfg, START, run).conn.out == data
  {
    var rest := [RemoteTest, RemoteStore, RemotePush, PeerClose, RunJob([], Wrote(0))];
    var first := Send(data, WriteFailed(WouldBlock));
    var s1 := Step(cfg, START, first);
    assert s1 == START.(conn := ESTABLISHED.(out := data, writing := true, notices := s1.conn.notices));
    CutOffTail(cfg, s1, data);
    RunCons(cfg, START, first, rest);
  }

  lemma CutOffTail(cfg: Config, s: System, data: seq<byte>)
    requires data != [] && s == START.(conn := ESTABLISHED.(out := data, writing := true, notices := s.conn.notices))
    ensures var run := [RemoteTest, RemoteStore, RemotePush, PeerClose, RunJob([], Wrote(0))];
            && Legal(cfg, s, run)
            && Run(cfg, s, run).conn.halfCloses == 1 && Run(cfg, s, run).conn.out == data
  {
    var c, last := s.conn, RunJob([], Wrote(0));
    var s2 := s.(tokens := 1);
    var s3 := s.(conn := c.(state := Disconnecting), stored := 1);
    var s4 := s3.(jobs := [ShutdownJob], stored := 0);
    var s5 := s4.(conn := c.(state := Disconnected, writing := false, closed := true));
    assert Step(cfg, s, RemoteTest) == s2 && Step(cfg, s2, RemoteStore) == s3;
    assert Step(cfg, s3, RemotePush) == s4 && Step(cfg, s4, PeerClose) == s5;
    RunCons(cfg, s5, last, []);
    RunCons(cfg, s4, PeerClose, [last]);
    RunCons(cfg, s3, RemotePush, [PeerClose, last]);
    RunCons(cfg, s2, RemoteStore, [RemotePush, PeerClose, last]);
    RunCons(cfg, s, RemoteTest, [RemoteStore, RemotePush, PeerClose, last]);
  }

  predicate OnLoopThread(e: Event) {
    e.Send? || e.Writable? || e.Shutdown? || e.PeerClose?
  }

  predicate Orderly(s: System) {
    && Invariant(s) && !s.late
    && s.conn.halfCloses <= 1
    && (s.conn.halfCloses == 1 ==> s.conn.out == [] && Rank(Disconnecting) <= Rank(s.conn.state))
    && (s.conn.state == Disconnecting && s.conn.halfCloses == 0 ==> s.conn.writing)
  }

  lemma StepKeepsOrderly(cfg: Config, s: System, e: Event)
    requires Allowed(s, e) && OnLoopThread(e) && Orderly(s)
    ensures Orderly(Step(cfg, s, e))
    ensures s.conn.halfCloses == 1 ==> AcceptedAt(s, e) == []
  {
  }

  lemma {:induction false} RunKeepsOrderly(cfg: Config, s: System, run: seq<Event>)
    requires Legal(cfg, s, run) && (forall i :: 0 <= i < |run| ==> OnLoopThread(run[i])) && Orderly(s)
    ensures Orderly(Run(cfg, s, run))
    ensures s.conn.halfCloses == 1 ==> Accepted(cfg, s, run) == []
    decreases |run|
  {
    if run == [] {
    } else {
      StepKeepsOrderly(cfg, s, run[0]);
      RunKeepsOrderly(cfg, Step(cfg, s, run[0]), run[1..]);
    }
  }

  /** When send and shutdown stay on the loop's thread, the connection half-closes at most
      once, and then everything ever accepted, before or after, is on the wire. */
  lemma HalfCloseIsFinal(cfg: Config, run: seq<Event>)
    requires Legal(cfg, START, run) && forall i :: 0 <= i < |run| ==> OnLoopThread(run[i])
    ensures var c := Run(cfg, START, run).conn;
            && c.halfCloses <= 1
            && (c.halfCloses == 1 ==> c.wire == Flatten(Accepted(cfg, START, run)))
  {
    RunKeepsOrderly(cfg, START, run);
    StreamConserved(cfg, START, run);
    var c := Run(cfg, START, run).conn;
    assert c.wire + [] == c.wire && [] + [] + Flatten(Accepted(cfg, START, run)) == Flatten(Accepted(cfg, START, run));
  }

  // ---------- What shutdown and handleClose do to the state ----------

  /** The last handleClose of the run has no store of another thread's shutdown() behind it. */
  predicate ClosedLast(run: seq<Event>, was: bool) {
    if run == [] then was
    else ClosedLast(run[1..], run[0].PeerClose? || (was && !run[0].RemoteStore?))
  }

  predicate ShutsDown(e: Event) {
    e.Shutdown? || e.RemoteStore?
  }

  predicate SomeShutDown(run: seq<Event>) {
    run != [] && (ShutsDown(run[0]) || SomeShutDown(run[1..]))
  }

  predicate SomeClose(run: seq<Event>) {
    run != [] && (run[0].PeerClose? || SomeClose(run[1..]))
  }

  lemma {:induction false} StateFollowsFrom(cfg: Config, s: System, run: seq<Event>)
    requires Legal(cfg, s, run) && Invariant(s)
    ensures var c := Run(cfg, s, run).conn;
            && (c.closed <==> s.conn.closed || SomeClose(run))
            && (c.state == Connected <==> s.conn.state == Connected && !SomeShutDown(run) && !SomeClose(run))
            && (c.state == Disconnected <==> ClosedLast(run, s.conn.state == Disconnected))
    decreases |run|
  {
    if run == [] {
    } else {
      StepKeepsInvariant(cfg, s, run[0]);
      StateFollowsFrom(cfg, Step(cfg, s, run[0]), run[1..]);
    }
  }

  /** In every run the state is settled by these events alone: connected until the first
      shutdown() or handleClose, and disconnected from each handleClose to the next late store. */
  lemma StateFollowsEvents(cfg: Config, run: seq<Event>)
    requires Legal(cfg, START, run)
    ensures var c := Run(cfg, START, run).conn;
            && (c.closed <==> SomeClose(run))
            && (c.state == Connected <==> !SomeShutDown(run) && !SomeClose(run))
            && (c.state == Disconnected <==> ClosedLast(run, false))
            && (c.state == Disconnecting <==> (SomeShutDown(run) || SomeClose(run)) && !ClosedLast(run, false))
  {
    StateFollowsFrom(cfg, START, run);
    RunKeepsInvariant(cfg, START, run);
  }

  predicate ShutdownOwed(s: System) {
    s.conn.state == Disconnecting && s.conn.out == [] && s.stored == 0 && ShutdownJob !in s.jobs ==>
      0 < s.conn.halfCloses
  }

  lemma StepKeepsOwed(cfg: Config, s: System, e: Event)
    requires Allowed(s, e) && Invariant(s) && ShutdownOwed(s)
    ensures ShutdownOwed(Step(cfg, s, e))
  {
    if e.RunJob? {
      assert s.jobs == [s.jobs[0]] + s.jobs[1..];
    }
  }

  lemma {:induction false} RunKeepsOwed(cfg: Config, s: System, run: seq<Event>)
    requires Legal(cfg, s, run) && Invariant(s) && ShutdownOwed(s)
    ensures ShutdownOwed(Run(cfg, s, run))
    decreases |run|
  {
    if run == [] {
    } else {
      StepKeepsInvariant(cfg, s, run[0]);
      StepKeepsOwed(cfg, s, run[0]);
      RunKeepsOwed(cfg, Step(cfg, s, run[0]), run[1..]);
    }
  }

  /** A shutdown is not forgotten: in every run, a disconnecting connection with nothing
      buffered, and with no shutdown queued or about to be, has half-closed. */
  lemma ShutdownReachesSocket(cfg: Config, run: seq<Event>)
    requires Legal(cfg, START, run)
    ensures var s := Run(cfg, START, run);
            s.conn.state == Disconnecting && s.conn.out == [] && s.stored == 0 && ShutdownJob !in s.jobs ==>
              0 < s.conn.halfCloses
  {
    RunKeepsOwed(cfg, START, run);
  }

  // ---------- What a disconnecting or closed connection can still do ----------

  predicate HasFill(jobs: seq<Job>) {
    jobs != [] && ((jobs[0].SendJob? && jobs[0].data != []) || HasFill(jobs[1..]))
  }

  /** A send with a payload is queued, and no shutdown before it. */
  predicate FillLeads(jobs: seq<Job>) {
    jobs != [] && jobs[0].SendJob? && (jobs[0].data != [] || FillLeads(jobs[1..]))
  }

  predicate SomeoneSends(s: System) {
    exists id :: id in s.sending && s.sending[id] != []
  }

  /** The buffer can get something more: anything queued or on its way to the queue while it
      holds bytes; and while it is empty, only before the half-close and with no shutdown
      queued ahead. */
  predicate CanFill(s: System) {
    if s.conn.out != [] then HasFill(s.jobs) || SomeoneSends(s)
    else s.conn.halfCloses == 0 && (FillLeads(s.jobs) || (ShutdownJob !in s.jobs && SomeoneSends(s)))
  }

  /** A disconnected connection must first be put back by a shutdown under way. */
  predicate CanReturn(s: System) {
    s.conn.state == Disconnected ==> 0 < s.tokens
  }

  /** A shutdown is queued, or another thread is inside shutdown(). */
  predicate ShutdownComes(s: System) {
    ShutdownJob in s.jobs || 0 < s.tokens || 0 < s.stored
  }

  lemma {:induction false} FillConcat(jobs: seq<Job>, job: Job)
    ensures HasFill(jobs + [job]) <==> HasFill(jobs) || (job.SendJob? && job.data != [])
    ensures FillLeads(jobs + [job]) <==>
              FillLeads(jobs) || (ShutdownJob !in jobs && job.SendJob? && job.data != [])
    decreases |jobs|
  {
    if jobs == [] {
      assert jobs + [job] == [job];
    } else {
      assert (jobs + [job])[0] == jobs[0] && (jobs + [job])[1..] == jobs[1..] + [job];
      FillConcat(jobs[1..], job);
      assert jobs == [jobs[0]] + jobs[1..];
    }
  }

  /** Neither condition comes back once it is gone, and without them nothing is accepted and
      the channel does not ask to write. */
  lemma StepKeepsSilent(cfg: Config, s: System, e: Event)
    requires Allowed(s, e) && Invariant(s) && s.conn.state != Connected && !(CanFill(s) && CanReturn(s))
    ensures var t := Step(cfg, s, e);
            && t.conn.state != Connected && !(CanFill(t) && CanReturn(t))
            && Flatten(AcceptedAt(s, e)) == [] && (t.conn.writing ==> s.conn.writing)
            && (s.conn.out == [] ==> t.conn.out == [])
  {
    if e.RemoteSendPush? {
      SilentPush(cfg, s, e);
    } else if e.RemotePush? {
      FillConcat(s.jobs, ShutdownJob);
    } else if e.RunJob? {
      SilentJob(cfg, s, e);
    } else if e.Writable? {
      SilentWrite(cfg, s, e);
    } else {
      assert Flatten(AcceptedAt(s, e)) == [];
    }
  }

  lemma SilentPush(cfg: Config, s: System, e: Event)
    requires Allowed(s, e) && Invariant(s) && s.conn.state != Connected && !(CanFill(s) && CanReturn(s))
    requires e.RemoteSendPush?
    ensures var t := Step(cfg, s, e); !(CanFill(t) && CanReturn(t))
  {
    var t := Step(cfg, s, e);
    FillConcat(s.jobs, SendJob(e.id, s.sending[e.id]));
    if SomeoneSends(t) {
      var id :| id in t.sending && t.sending[id] != [];
      assert id in s.sending && s.sending[id] != [];
    }
    if s.sending[e.id] != [] {
      assert SomeoneSends(s);
    }
  }

  lemma SilentJob(cfg: Config, s: System, e: Event)
    requires Allowed(s, e) && Invariant(s) && s.conn.state != Connected && !(CanFill(s) && CanReturn(s))
    requires e.RunJob?
    ensures var t := Step(cfg, s, e);
            && !(CanFill(t) && CanReturn(t))
            && Flatten(AcceptedAt(s, e)) == [] && (t.conn.writing ==> s.conn.writing)
            && (s.conn.out == [] ==> t.conn.out == [])
  {
    assert s.jobs == [s.jobs[0]] + s.jobs[1..];
    assert Flatten([[]]) == [];
  }

  lemma SilentWrite(cfg: Config, s: System, e: Event)
    requires Allowed(s, e) && Invariant(s) && s.conn.state != Connected && !(CanFill(s) && CanReturn(s))
    requires e.Writable?
    ensures var t := Step(cfg, s, e);
            && !(CanFill(t) && CanReturn(t)) && (t.conn.writing ==> s.conn.writing)
            && (s.conn.out == [] ==> t.conn.out == [])
  {
    LeadingFill(s.jobs);
  }

  lemma {:induction false} LeadingFill(jobs: seq<Job>)
    ensures FillLeads(jobs) ==> HasFill(jobs)
  {
    if jobs == [] {
    } else {
      LeadingFill(jobs[1..]);
    }
  }

  lemma {:induction false} RunKeepsSilent(cfg: Config, s: System, run: seq<Event>)
    requires Legal(cfg, s, run) && Invariant(s) && s.conn.state != Connected && !(CanFill(s) && CanReturn(s))
    ensures Flatten(Accepted(cfg, s, run)) == [] && (Run(cfg, s, run).conn.writing ==> s.conn.writing)
    decreases |run|
  {
    if run == [] {
    } else {
      var t := Step(cfg, s, run[0]);
      StepKeepsInvariant(cfg, s, run[0]);
      StepKeepsSilent(cfg, s, run[0]);
      RunKeepsSilent(cfg, t, run[1..]);
      FlattenConcat(AcceptedAt(s, run[0]), Accepted(cfg, t, run[1..]));
    }
  }

  /** The loop works off its queue until the first payload goes into the buffer. */
  lemma {:induction false} FillRuns(cfg: Config, s: System) returns (run: seq<Event>)
    requires s.conn.state == Disconnecting && (s.conn.writing ==> s.conn.out != [])
    requires if s.conn.out != [] then HasFill(s.jobs) else s.conn.halfCloses == 0 && FillLeads(s.jobs)
    ensures Legal(cfg, s, run) && Flatten(Accepted(cfg, s, run)) != [] && Run(cfg, s, run).conn.writing
    ensures s.conn.out == [] && ShutdownComes(s) ==> ShutdownComes(Run(cfg, s, run))
    decreases |s.jobs|
  {
    var seen := if s.jobs[0].SendJob? then s.jobs[0].data else [];
    var e := RunJob(seen, WriteFailed(if s.conn.halfCloses == 0 then WouldBlock else BrokenPipe));
    var t := Step(cfg, s, e);
    var rest := [];
    if seen == [] {
      rest := FillRuns(cfg, t);
    }
    RunCons(cfg, s, e, rest);
    run := [e] + rest;
    assert run[1..] == rest;
    FlattenConcat(AcceptedAt(s, e), Accepted(cfg, t, rest));
    assert seen != [] ==> Flatten([seen]) == seen + [];
  }

  /** First the shutdown under way makes its store, if the connection has to be put back. */
  lemma ReturnRuns(cfg: Config, s: System) returns (run: seq<Event>)
    requires Invariant(s) && s.conn.state != Connected && CanReturn(s)
    requires if s.conn.out != [] then HasFill(s.jobs) else s.conn.halfCloses == 0 && FillLeads(s.jobs)
    ensures Legal(cfg, s, run) && Flatten(Accepted(cfg, s, run)) != [] && Run(cfg, s, run).conn.writing
    ensures s.conn.out == [] && ShutdownComes(s) ==> ShutdownComes(Run(cfg, s, run))
  {
    if s.conn.state == Disconnected {
      var t := Step(cfg, s, RemoteStore);
      run := FillRuns(cfg, t);
      RunCons(cfg, s, RemoteStore, run);
      assert ([RemoteStore] + run)[1..] == run;
      assert AcceptedAt(s, RemoteStore) + Accepted(cfg, t, run) == Accepted(cfg, t, run);
      run := [RemoteStore] + run;
    } else {
      run := FillRuns(cfg, s);
    }
  }

  /** And before that, a send under way is queued, if there is none yet. */
  lemma SilenceEnds(cfg: Config, s: System) returns (run: seq<Event>)
    requires Invariant(s) && s.conn.state != Connected && CanFill(s) && CanReturn(s)
    ensures Legal(cfg, s, run) && Flatten(Accepted(cfg, s, run)) != [] && Run(cfg, s, run).conn.writing
    ensures s.conn.out == [] && ShutdownComes(s) ==> ShutdownComes(Run(cfg, s, run))
  {
    if if s.conn.out != [] then HasFill(s.jobs) else FillLeads(s.jobs) {
      run := ReturnRuns(cfg, s);
    } else {
      var id :| id in s.sending && s.sending[id] != [];
      var e := RemoteSendPush(id);
      var t := Step(cfg, s, e);
      FillConcat(s.jobs, SendJob(id, s.sending[id]));
      StepKeepsInvariant(cfg, s, e);
      run := ReturnRuns(cfg, t);
      RunCons(cfg, s, e, run);
      assert ([e] + run)[1..] == run;
      assert AcceptedAt(s, e) + Accepted(cfg, t, run) == Accepted(cfg, t, run);
      run := [e] + run;
    }
  }

  /** A connection that is disconnecting or disconnected, half-closed or not, closed or not,
      can still take a payload if and only if one is queued or on its way where the buffer
      can get it, and, once disconnected, a shutdown() of another thread is between its test
      and its store. */
  lemma AcceptsAfterShutdownExactly(cfg: Config, s: System)
    requires Invariant(s) && s.conn.state != Connected
    ensures (exists run :: Legal(cfg, s, run) && Flatten(Accepted(cfg, s, run)) != []) <==> CanFill(s) && CanReturn(s)
  {
    if CanFill(s) && CanReturn(s) {
      var run := SilenceEnds(cfg, s);
      assert Legal(cfg, s, run) && Flatten(Accepted(cfg, s, run)) != [];
    } else {
      forall run | Legal(cfg, s, run) ensures Flatten(Accepted(cfg, s, run)) == [] {
        RunKeepsSilent(cfg, s, run);
      }
    }
  }

  /** The same condition decides whether a silent connection, in particular one that
      handleClose has just withdrawn, ever registers for writing again. */
  lemma RegistersAgainExactly(cfg: Config, s: System)
    requires Invariant(s) && s.conn.state != Connected && !s.conn.writing
    ensures (exists run :: Legal(cfg, s, run) && Run(cfg, s, run).conn.writing) <==> CanFill(s) && CanReturn(s)
  {
    if CanFill(s) && CanReturn(s) {
      var run := SilenceEnds(cfg, s);
      assert Legal(cfg, s, run) && Run(cfg, s, run).conn.writing;
    } else {
      forall run | Legal(cfg, s, run) ensures !Run(cfg, s, run).conn.writing {
        RunKeepsSilent(cfg, s, run);
      }
    }
  }

  /** kDisconnected is final if and only if no other thread stands between the test and the
      store of shutdown(). */
  lemma DisconnectIsFinalExactly(cfg: Config, s: System)
    requires s.conn.state == Disconnected
    ensures (forall run :: Legal(cfg, s, run) ==> Run(cfg, s, run).conn.state == Disconnected) <==> s.tokens == 0
  {
    if s.tokens == 0 {
      forall run | Legal(cfg, s, run) ensures Run(cfg, s, run).conn.state == Disconnected {
        StaysDisconnected(cfg, s, run);
      }
    } else {
      RunCons(cfg, s, RemoteStore, []);
      assert Legal(cfg, s, [RemoteStore] + []) && Run(cfg, s, [RemoteStore] + []).conn.state == Disconnecting;
    }
  }

  lemma {:induction false} StaysDisconnected(cfg: Config, s: System, run: seq<Event>)
    requires Legal(cfg, s, run) && s.conn.state == Disconnected && s.tokens == 0
    ensures Run(cfg, s, run).conn.state == Disconnected
    decreases |run|
  {
    if run == [] {
    } else {
      StaysDisconnected(cfg, Step(cfg, s, run[0]), run[1..]);
    }
  }

  /** So it is enough that no shutdown() of another thread is under way when handleClose runs:
      after it nothing is accepted, the state stays, and the channel is silent. */
  lemma QuietWithoutRace(cfg: Config, s: System, run: seq<Event>)
    requires Invariant(s) && s.tokens == 0 && Legal(cfg, Step(cfg, s, PeerClose), run)
    ensures var t := Step(cfg, s, PeerClose);
            && Run(cfg, t, run).conn.state == Disconnected && !Run(cfg, t, run).conn.writing
            && Flatten(Accepted(cfg, t, run)) == []
  {
    StepKeepsInvariant(cfg, s, PeerClose);
    StaysDisconnected(cfg, Step(cfg, s, PeerClose), run);
    RunKeepsSilent(cfg, Step(cfg, s, PeerClose), run);
  }

  // ---------- When a half-close can cut something off ----------

  /** A half-close that leaves bytes in the buffer. */
  predicate CutsOff(cfg: Config, s: System, e: Event) {
    Allowed(s, e) && HalfCloses(cfg, s, e) && Step(cfg, s, e).conn.out != []
  }

  ghost predicate WillCutOff(cfg: Config, s: System) {
    exists run, e :: Legal(cfg, s, run) && CutsOff(cfg, Run(cfg, s, run), e)
  }

  /** While connected always; later, if a shutdown is still to come, and there are bytes in
      the buffer or some can still get there. */
  predicate CanCutOff(s: System) {
    || s.conn.state == Connected
    || (ShutdownComes(s) && (s.conn.out != [] || (CanFill(s) && CanReturn(s))))
  }

  lemma StepKeepsWhole(cfg: Config, s: System, e: Event)
    requires Allowed(s, e) && Invariant(s) && !CanCutOff(s)
    ensures !CanCutOff(Step(cfg, s, e)) && !CutsOff(cfg, s, e)
  {
    if ShutdownComes(s) {
      StepKeepsSilent(cfg, s, e);
    }
  }

  lemma {:induction false} RunKeepsWhole(cfg: Config, s: System, run: seq<Event>)
    requires Legal(cfg, s, run) && Invariant(s) && !CanCutOff(s)
    ensures !CanCutOff(Run(cfg, s, run)) && Invariant(Run(cfg, s, run))
    decreases |run|
  {
    if run == [] {
    } else {
      StepKeepsInvariant(cfg, s, run[0]);
      StepKeepsWhole(cfg, s, run[0]);
      RunKeepsWhole(cfg, Step(cfg, s, run[0]), run[1..]);
    }
  }

  lemma StepThenCutOff(cfg: Config, s: System, e: Event)
    requires Allowed(s, e) && WillCutOff(cfg, Step(cfg, s, e))
    ensures WillCutOff(cfg, s)
  {
    var run, last :| Legal(cfg, Step(cfg, s, e), run) && CutsOff(cfg, Run(cfg, Step(cfg, s, e), run), last);
    RunCons(cfg, s, e, run);
    assert CutsOff(cfg, Run(cfg, s, [e] + run), last);
  }

  lemma {:induction false} RunThenCutOff(cfg: Config, s: System, run: seq<Event>)
    requires Legal(cfg, s, run) && WillCutOff(cfg, Run(cfg, s, run))
    ensures WillCutOff(cfg, s)
    decreases |run|
  {
    if run == [] {
    } else {
      RunThenCutOff(cfg, Step(cfg, s, run[0]), run[1..]);
      StepThenCutOff(cfg, s, run[0]);
    }
  }

  /** Disconnected and silent, the loop drops the queued sends and comes to the shutdown. */
  lemma {:induction false} QueueCutsOff(cfg: Config, s: System)
    requires s.conn.state == Disconnected && !s.conn.writing && s.conn.out != [] && ShutdownJob in s.jobs
    ensures WillCutOff(cfg, s)
    decreases |s.jobs|
  {
    var seen := if s.jobs[0].SendJob? then s.jobs[0].data else [];
    var e := RunJob(seen, WriteFailed(BrokenPipe));
    if s.jobs[0].ShutdownJob? {
      assert Legal(cfg, s, []) && CutsOff(cfg, Run(cfg, s, []), e);
    } else {
      QueueCutsOff(cfg, Step(cfg, s, e));
      StepThenCutOff(cfg, s, e);
    }
  }

  lemma QueuedCutsOff(cfg: Config, s: System)
    requires s.conn.out != [] && ShutdownJob in s.jobs
    ensures WillCutOff(cfg, s)
  {
    QueueCutsOff(cfg, Step(cfg, s, PeerClose));
    StepThenCutOff(cfg, s, PeerClose);
  }

  lemma StoredCutsOff(cfg: Config, s: System)
    requires s.conn.out != [] && 0 < s.stored
    ensures WillCutOff(cfg, s)
  {
    QueuedCutsOff(cfg, Step(cfg, s, RemotePush));
    StepThenCutOff(cfg, s, RemotePush);
  }

  lemma BufferedCutsOff(cfg: Config, s: System)
    requires s.conn.out != [] && ShutdownComes(s)
    ensures WillCutOff(cfg, s)
  {
    if ShutdownJob in s.jobs {
      QueuedCutsOff(cfg, s);
    } else if 0 < s.stored {
      StoredCutsOff(cfg, s);
    } else {
      StoredCutsOff(cfg, Step(cfg, s, RemoteStore));
      StepThenCutOff(cfg, s, RemoteStore);
    }
  }

  lemma ConnectedCutsOff(cfg: Config, s: System)
    requires Invariant(s) && s.conn.state == Connected && s.conn.halfCloses == 0
    ensures WillCutOff(cfg, s)
  {
    if s.conn.out != [] {
      BufferedCutsOff(cfg, Step(cfg, s, RemoteTest));
      StepThenCutOff(cfg, s, RemoteTest);
    } else {
      var e := Send([0], WriteFailed(WouldBlock));
      var t := Step(cfg, s, e);
      BufferedCutsOff(cfg, Step(cfg, t, RemoteTest));
      StepThenCutOff(cfg, t, RemoteTest);
      StepThenCutOff(cfg, s, e);
    }
  }

  /** Before kDisconnecting is stored there is neither a half-close nor anything to cause one. */
  predicate NotYetShut(s: System) {
    s.conn.state == Connected ==> s.conn.halfCloses == 0 && s.stored == 0 && ShutdownJob !in s.jobs
  }

  lemma {:induction false} RunKeepsNotYetShut(cfg: Config, s: System, run: seq<Event>)
    requires Legal(cfg, s, run) && Invariant(s) && NotYetShut(s)
    ensures NotYetShut(Run(cfg, s, run))
    decreases |run|
  {
    if run == [] {
    } else {
      StepKeepsInvariant(cfg, s, run[0]);
      StepKeepsNotYetShut(cfg, s, run[0]);
      RunKeepsNotYetShut(cfg, Step(cfg, s, run[0]), run[1..]);
    }
  }

  lemma StepKeepsNotYetShut(cfg: Config, s: System, e: Event)
    requires Allowed(s, e) && Invariant(s) && NotYetShut(s)
    ensures NotYetShut(Step(cfg, s, e))
  {
  }

  /** In any reachable state, some continuation half-closes with bytes still in the buffer if
      and only if the connection is connected; or a shutdown is queued or another thread is
      inside shutdown(), and bytes are buffered or a payload can still be accepted. */
  lemma HalfCloseTruncatesExactly(cfg: Config, run: seq<Event>)
    requires Legal(cfg, START, run)
    ensures WillCutOff(cfg, Run(cfg, START, run)) <==> CanCutOff(Run(cfg, START, run))
  {
    var s := Run(cfg, START, run);
    RunKeepsInvariant(cfg, START, run);
    RunKeepsNotYetShut(cfg, START, run);
    if !CanCutOff(s) {
      forall more, e | Legal(cfg, s, more) && Allowed(Run(cfg, s, more), e)
        ensures !CutsOff(cfg, Run(cfg, s, more), e)
      {
        RunKeepsWhole(cfg, s, more);
        StepKeepsWhole(cfg, Run(cfg, s, more), e);
      }
    } else if s.conn.state == Connected {
      ConnectedCutsOff(cfg, s);
    } else if s.conn.out != [] {
      BufferedCutsOff(cfg, s);
    } else {
      FilledCutsOff(cfg, s);
    }
  }

  lemma FilledCutsOff(cfg: Config, s: System)
    requires Invariant(s) && s.conn.state != Connected && s.conn.out == []
    requires ShutdownComes(s) && CanFill(s) && CanReturn(s)
    ensures WillCutOff(cfg, s)
  {
    var run := SilenceEnds(cfg, s);
    RunKeepsInvariant(cfg, s, run);
    BufferedCutsOff(cfg, Run(cfg, s, run));
    RunThenCutOff(cfg, s, run);
  }

  // ---------- Notices ----------

  function HighWaters(notices: seq<Notice>): nat {
    if notices == [] then 0 else (if notices[0].HighWater? then 1 else 0) + HighWaters(notices[1..])
  }

  lemma {:induction false} HighWatersConcat(a: seq<Notice>, b: seq<Notice>)
    ensures HighWaters(a + b) == HighWaters(a) + HighWaters(b)
    decreases |a|
  {
    if a == [] {
      assert a + b == b;
    } else {
      assert (a + b)[0] == a[0] && (a + b)[1..] == a[1..] + b;
      HighWatersConcat(a[1..], b);
    }
  }

  /** How often the number of buffered bytes passes from below the mark to at or above it. */
  function Crossings(cfg: Config, s: System, run: seq<Event>): nat
    requires Legal(cfg, s, run)
    decreases |run|
  {
    if run == [] then 0
    else
      var t := Step(cfg, s, run[0]);
      (if |s.conn.out| < cfg.mark <= |t.conn.out| then 1 else 0) + Crossings(cfg, t, run[1..])
  }

  lemma KeepCrosses(cfg: Config, c: Conn, rest: seq<byte>)
    ensures var d := Keep(cfg, c, rest);
            HighWaters(d.notices) == HighWaters(c.notices)
              + if cfg.onHighWater && |c.out| < cfg.mark <= |d.out| then 1 else 0
  {
    HighWatersConcat(c.notices, [HighWater(|c.out| + |rest|)]);
    assert c.notices + [] == c.notices;
  }

  lemma CompleteCrosses(notices: seq<Notice>)
    ensures HighWaters(notices + [WriteComplete]) == HighWaters(notices)
  {
    HighWatersConcat(notices, [WriteComplete]);
  }

  lemma SendCrosses(cfg: Config, c: Conn, data: seq<byte>, r: WriteResult)
    requires Fits(r, |data|)
    ensures var d := SendInLoop(cfg, c, data, r);
            HighWaters(d.notices) == HighWaters(c.notices)
              + if cfg.onHighWater && |c.out| < cfg.mark <= |d.out| then 1 else 0
  {
    KeepCrosses(cfg, c, data);
    if r.Wrote? {
      KeepCrosses(cfg, c.(wire := c.wire + data[..r.n]), data[r.n..]);
    }
    CompleteCrosses(c.notices);
  }

  lemma StepCrosses(cfg: Config, s: System, e: Event)
    requires Allowed(s, e)
    ensures var c, d := s.conn, Step(cfg, s, e).conn;
            HighWaters(d.notices) == HighWaters(c.notices)
              + if cfg.onHighWater && |c.out| < cfg.mark <= |d.out| then 1 else 0
  {
    match e
    case Send(data, r) => SendCrosses(cfg, s.conn, data, r);
    case RunJob(seen, r) => SendCrosses(cfg, s.conn, seen, r);
    case Writable(r) =>
      CompleteCrosses(s.conn.notices);
      assert s.conn.notices + [] == s.conn.notices;
    case _ =>
  }

  /** Over any run, the high-water callback is queued once per upward crossing of the mark;
      so between two of them the buffer must have fallen below it. */
  lemma {:induction false} HighWaterCountsCrossings(cfg: Config, s: System, run: seq<Event>)
    requires Legal(cfg, s, run)
    ensures HighWaters(Run(cfg, s, run).conn.notices)
            == HighWaters(s.conn.notices) + if cfg.onHighWater then Crossings(cfg, s, run) else 0
    decreases |run|
  {
    if run == [] {
    } else {
      StepCrosses(cfg, s, run[0]);
      HighWaterCountsCrossings(cfg, Step(cfg, s, run[0]), run[1..]);
    }
  }

  /** Does the step write a whole payload at its first attempt? */
  predicate WritesWhole(s: System, e: Event)
    requires Allowed(s, e)
  {
    Offer(s, e) != [] && s.conn.state != Disconnected && Direct(s.conn) && e.r == Wrote(|Offer(s, e)[0]|)
  }

  /** The notices a step owes: write-complete when it has emptied the buffer or written a
      payload whole, high-water when the buffered bytes reach the mark from below, with their
      number; and neither unless its callback is set. */
  function Owed(cfg: Config, s: System, e: Event): seq<Notice>
    requires Allowed(s, e)
  {
    var c, d := s.conn, Step(cfg, s, e).conn;
    (if cfg.onComplete && d.out == [] && (c.out != [] || WritesWhole(s, e)) then [WriteComplete] else [])
    + (if cfg.onHighWater && |c.out| < cfg.mark <= |d.out| then [HighWater(|d.out|)] else [])
  }

  function AllOwed(cfg: Config, s: System, run: seq<Event>): seq<Notice>
    requires Legal(cfg, s, run)
    decreases |run|
  {
    if run == [] then [] else Owed(cfg, s, run[0]) + AllOwed(cfg, Step(cfg, s, run[0]), run[1..])
  }

  lemma SendOwes(cfg: Config, c: Conn, data: seq<byte>, r: WriteResult)
    requires Fits(r, |data|)
    ensures var d := SendInLoop(cfg, c, data, r);
            d.notices == c.notices
              + ((if cfg.onComplete && d.out == []
                     && (c.out != [] || (c.state != Disconnected && Direct(c) && r == Wrote(|data|)))
                  then [WriteComplete] else [])
                 + (if cfg.onHighWater && |c.out| < cfg.mark <= |d.out| then [HighWater(|d.out|)] else []))
  {
    assert c.notices + ([] + []) == c.notices;
    assert forall n: Notice :: [] + [n] == [n] && [n] + [] == [n];
  }

  lemma WriteOwes(cfg: Config, c: Conn, r: WriteResult)
    requires Fits(r, |c.out|)
    ensures var d := HandleWrite(cfg, c, r);
            d.notices == c.notices + if cfg.onComplete && d.out == [] && c.out != [] then [WriteComplete] else []
    ensures |HandleWrite(cfg, c, r).out| <= |c.out|
  {
    assert c.notices + [] == c.notices;
  }

  lemma Associates<T>(a: seq<T>, b: seq<T>, c: seq<T>)
    ensures (a + b) + c == a + (b + c)
  {
  }

  lemma StepOwes(cfg: Config, s: System, e: Event)
    requires Allowed(s, e)
    ensures Step(cfg, s, e).conn.notices == s.conn.notices + Owed(cfg, s, e)
  {
    if e.Send? || e.RunJob? {
      OfferOwes(cfg, s, e);
    } else if e.Writable? {
      WriteOwes(cfg, s.conn, e.r);
      assert Owed(cfg, s, e) == if s.conn.out != [] && Step(cfg, s, e).conn.out == [] && cfg.onComplete
                                then [WriteComplete] else [];
    } else {
      assert Owed(cfg, s, e) == [];
    }
  }

  lemma OfferOwes(cfg: Config, s: System, e: Event)
    requires Allowed(s, e) && (e.Send? || e.RunJob?)
    ensures Step(cfg, s, e).conn.notices == s.conn.notices + Owed(cfg, s, e)
  {
    if Offer(s, e) == [] {
      assert Owed(cfg, s, e) == [];
    } else {
      SendOwes(cfg, s.conn, Offer(s, e)[0], e.r);
    }
  }

  /** Over any run, the callbacks queued are exactly those that its steps owe, in order. */
  lemma {:induction false} CompletionExactly(cfg: Config, s: System, run: seq<Event>)
    requires Legal(cfg, s, run)
    ensures Run(cfg, s, run).conn.notices == s.conn.notices + AllOwed(cfg, s, run)
    decreases |run|
  {
    if run == [] {
    } else {
      var t, rest := Step(cfg, s, run[0]), run[1..];
      StepOwes(cfg, s, run[0]);
      CompletionExactly(cfg, t, rest);
      Associates(s.conn.notices, Owed(cfg, s, run[0]), AllOwed(cfg, t, rest));
    }
  }

  /** A write-complete notice always finds nothing buffered and everything
      accepted so far on the wire. */
  lemma CompletionMeansWritten(cfg: Config, run: seq<Event>, e: Event)
    requires Legal(cfg, START, run) && Allowed(Run(cfg, START, run), e)
    requires WriteComplete in Owed(cfg, Run(cfg, START, run), e)
    ensures Step(cfg, Run(cfg, START, run), e).conn.out == []
    ensures Step(cfg, Run(cfg, START, run), e).conn.wire
            == Flatten(Accepted(cfg, START, run) + AcceptedAt(Run(cfg, START, run), e))
  {
    var s := Run(cfg, START, run);
    StreamConserved(cfg, START, run);
    StepConserves(cfg, s, e);
    FlattenConcat(Accepted(cfg, START, run), AcceptedAt(s, e));
    var d := Step(cfg, s, e).conn;
    assert d.wire + [] == d.wire;
    assert [] + [] + Flatten(Accepted(cfg, START, run)) == Flatten(Accepted(cfg, START, run));
  }
}
