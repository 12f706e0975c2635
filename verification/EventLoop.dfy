/** The event loop of ads_EventLoop.cc: the functor queue, the eventfd that wakes a blocked
    poll, and every interleaving of the loop's thread with other threads. */
module EventLoops {

  type Functor = nat
  type Thread = nat

  /** The largest value an eventfd counter holds; a further write fails and changes nothing. */
  const COUNTER_MAX: nat := 0xFFFF_FFFF_FFFF_FFFE

  /** Where the loop's own thread stands. */
  datatype Phase =
    | Before                        // loop() has not been called
    | Testing                       // about to read quit_
    | Polling                       // blocked in, or about to call, epoll_wait
    | Dispatching(wakeReady: bool)  // running channel handlers; is the wakeup channel still to come?
    | Entering                      // callingPendingFunctors_ set, mutex not yet taken
    | Running                       // running the swapped-out batch
    | Stopped

  datatype Loop = Loop(
    phase: Phase,
    quit: bool,
    calling: bool,
    pending: seq<Functor>,
    batch: seq<Functor>,     // the part of the swapped vector not yet run
    counter: nat,            // the eventfd
    owing: set<Thread>,      // other threads between their store and their wakeup
    selfOwing: bool,         // the loop's thread between its push and its wakeup
    executed: seq<Functor>,
    history: seq<Functor>,   // every functor ever pushed, in the order of the mutex
    swapped: nat,            // the length of history at the last swap
    polled: bool,            // has a poll returned yet?
    early: bool,             // did the loop's thread push before loop()?
    foreign: bool)           // has another thread pushed or quit?

  const INITIAL := Loop(Before, false, false, [], [], 0, {}, false, [], [], 0, false, false, false)

  datatype Action =
    // another thread
    | Push(t: Thread, f: Functor)
    | SetQuit(t: Thread)
    | Wake(t: Thread)
    // the loop's thread, from user code
    | OwnPush(f: Functor)
    | OwnWake
    | OwnQuit
    // the loop's thread, in loop()
    | Start
    | TestQuit
    | PollReturn(wakeReady: bool)
    | Drain
    | EndDispatch
    | Swap
    | RunNext
    | EndBatch

  function Bump(counter: nat): (c: nat)
    ensures 0 < c
  {
    if counter < COUNTER_MAX then counter + 1 else COUNTER_MAX
  }

  function Raised(counter: nat, times: nat): nat {
    if times == 0 then counter else Bump(Raised(counter, times - 1))
  }

  /** User code runs on the loop's thread before loop(), in handlers and in functors. */
  predicate InUserCode(s: Loop) {
    (s.phase == Before || s.phase.Dispatching? || s.phase == Running) && !s.selfOwing
  }

  predicate Enabled(s: Loop, a: Action) {
    match a
    case Push(t, _) => t !in s.owing
    case SetQuit(t) => t !in s.owing
    case Wake(t) => t in s.owing
    case OwnPush(_) => InUserCode(s)
    case OwnWake => s.selfOwing
    case OwnQuit => InUserCode(s)
    case Start => s.phase == Before && !s.selfOwing
    case TestQuit => s.phase == Testing
    case PollReturn(wakeReady) => s.phase == Polling && (wakeReady ==> 0 < s.counter)
    case Drain => s.phase == Dispatching(true) && !s.selfOwing
    case EndDispatch => s.phase == Dispatching(false) && !s.selfOwing
    case Swap => s.phase == Entering
    case RunNext => s.phase == Running && s.batch != [] && !s.selfOwing
    case EndBatch => s.phase == Running && s.batch == [] && !s.selfOwing
  }

  function Step(s: Loop, a: Action): Loop
    requires Enabled(s, a)
  {
    match a
    case Push(t, f) =>
      s.(pending := s.pending + [f], history := s.history + [f], owing := s.owing + {t}, foreign := true)
    case SetQuit(t) => s.(quit := true, owing := s.owing + {t}, foreign := true)
    case Wake(t) => s.(counter := Bump(s.counter), owing := s.owing - {t})
    case OwnPush(f) =>
      s.(pending := s.pending + [f], history := s.history + [f], selfOwing := s.calling,
         early := s.early || s.phase == Before)
    case OwnWake => s.(counter := Bump(s.counter), selfOwing := false)
    case OwnQuit => s.(quit := true)
    case Start => s.(phase := Testing, quit := false)
    case TestQuit => s.(phase := if s.quit then Stopped else Polling)
    case PollReturn(wakeReady) => s.(phase := Dispatching(wakeReady), polled := true)
    case Drain => s.(phase := Dispatching(false), counter := 0)
    case EndDispatch => s.(phase := Entering, calling := true)
    case Swap => s.(phase := Running, batch := s.pending, pending := [], swapped := |s.history|)
    case RunNext => s.(executed := s.executed + [s.batch[0]], batch := s.batch[1..])
    case EndBatch => s.(phase := Testing, calling := false)
  }

  // ---------- Runs ----------

  predicate Legal(s: Loop, run: seq<Action>)
    decreases |run|
  {
    run != [] ==> Enabled(s, run[0]) && Legal(Step(s, run[0]), run[1..])
  }

  function Run(s: Loop, run: seq<Action>): Loop
    requires Legal(s, run)
    decreases |run|
  {
    if run == [] then s else Run(Step(s, run[0]), run[1..])
  }

  lemma RunCons(s: Loop, a: Action, rest: seq<Action>)
    requires Enabled(s, a) && Legal(Step(s, a), rest)
    ensures Legal(s, [a] + rest) && Run(s, [a] + rest) == Run(Step(s, a), rest)
  {
    assert ([a] + rest)[1..] == rest;
  }

  lemma {:induction false} RunConcat(s: Loop, a: seq<Action>, b: seq<Action>)
    requires Legal(s, a) && Legal(Run(s, a), b)
    ensures Legal(s, a + b) && Run(s, a + b) == Run(Run(s, a), b)
    decreases |a|
  {
    if a == [] {
      assert a + b == b;
    } else {
      assert (a + b)[0] == a[0] && (a + b)[1..] == a[1..] + b;
      RunConcat(Step(s, a[0]), a[1..], b);
    }
  }

  ghost predicate Reachable(s: Loop) {
    exists run :: Legal(INITIAL, run) && Run(INITIAL, run) == s
  }

  lemma StepReachable(s: Loop, a: Action)
    requires Reachable(s) && Enabled(s, a)
    ensures Reachable(Step(s, a))
  {
    var run :| Legal(INITIAL, run) && Run(INITIAL, run) == s;
    RunCons(s, a, []);
    RunConcat(INITIAL, run, [a]);
  }

  // ---------- What every interleaving keeps ----------

  /** Something will make the next poll return: the counter, or a thread about to raise it. */
  predicate Covered(s: Loop) {
    0 < s.counter || s.owing != {} || s.selfOwing
  }

  predicate Fifo(s: Loop) {
    s.history == s.executed + s.batch + s.pending
  }

  predicate Bookkeeping(s: Loop) {
    && (s.calling <==> s.phase == Entering || s.phase == Running)
    && (s.batch != [] ==> s.phase == Running)
    && s.swapped == |s.executed| + |s.batch|
    && (s.selfOwing ==> s.phase == Running)
    && (s.polled ==> s.phase != Before)
    && (s.polled <== s.phase.Dispatching? || s.phase == Entering || s.phase == Running)
  }

  predicate Waking(s: Loop) {
    && (!s.polled ==> (Covered(s) <==> s.foreign) && (s.early ==> s.pending != [])
                      && (s.pending != [] ==> s.early || s.foreign))
    && (s.polled && (s.phase == Running || s.phase == Testing || s.phase == Polling) ==>
          s.pending != [] ==> Covered(s))
    && (s.phase == Polling && s.quit ==> Covered(s))
  }

  predicate Invariant(s: Loop) {
    Fifo(s) && Bookkeeping(s) && Waking(s)
  }

  lemma StepKeepsFifo(s: Loop, a: Action)
    requires Enabled(s, a) && Fifo(s) && Bookkeeping(s)
    ensures Fifo(Step(s, a))
  {
    var t := Step(s, a);
    match a
    case Push(_, f) =>
      assert s.executed + s.batch + (s.pending + [f]) == s.executed + s.batch + s.pending + [f];
    case OwnPush(f) =>
      assert s.executed + s.batch + (s.pending + [f]) == s.executed + s.batch + s.pending + [f];
    case Swap =>
      assert s.executed + [] + s.pending == s.executed + s.pending + [];
    case RunNext =>
      assert s.batch == [s.batch[0]] + s.batch[1..];
      assert t.executed + t.batch == s.executed + s.batch;
    case _ =>
  }

  lemma StepKeepsInvariant(s: Loop, a: Action)
    requires Enabled(s, a) && Invariant(s)
    ensures Invariant(Step(s, a))
  {
    StepKeepsFifo(s, a);
    if a.Push? {
      assert a.t in Step(s, a).owing;
    } else if a.SetQuit? {
      assert a.t in Step(s, a).owing;
    }
  }

  lemma {:induction false} RunKeepsInvariant(s: Loop, run: seq<Action>)
    requires Legal(s, run) && Invariant(s)
    ensures Invariant(Run(s, run))
    decreases |run|
  {
    if run == [] {
    } else {
      StepKeepsInvariant(s, run[0]);
      RunKeepsInvariant(Step(s, run[0]), run[1..]);
    }
  }

  lemma ReachableInvariant(s: Loop)
    requires Reachable(s)
    ensures Invariant(s)
  {
    var run :| Legal(INITIAL, run) && Run(INITIAL, run) == s;
    RunKeepsInvariant(INITIAL, run);
  }

  /** The thread is at its poll, work is queued, and nothing but the timeout will wake it. */
  predicate LostWakeup(s: Loop) {
    s.phase == Polling && s.pending != [] && !Covered(s)
  }

  /** A wakeup is lost in exactly one situation: the loop's own thread pushed before loop(),
      no poll has returned yet, and no other thread has pushed or quit so far. */
  lemma LostWakeupExactly(run: seq<Action>)
    requires Legal(INITIAL, run)
    ensures var s := Run(INITIAL, run);
            LostWakeup(s) <==> s.phase == Polling && s.early && !s.polled && !s.foreign
  {
    RunKeepsInvariant(INITIAL, run);
  }

  lemma LostWakeupExample(f: Functor)
    ensures Legal(INITIAL, [OwnPush(f), Start, TestQuit])
    ensures LostWakeup(Run(INITIAL, [OwnPush(f), Start, TestQuit]))
  {
    var s1 := Step(INITIAL, OwnPush(f));
    var s2 := Step(s1, Start);
    RunCons(s2, TestQuit, []);
    RunCons(s1, Start, [TestQuit]);
    RunCons(INITIAL, OwnPush(f), [Start, TestQuit]);
  }

  /** A quit seen at the poll is never missed, in any interleaving. */
  lemma QuitIsNoticed(run: seq<Action>)
    requires Legal(INITIAL, run)
    requires Run(INITIAL, run).phase == Polling && Run(INITIAL, run).quit
    ensures Covered(Run(INITIAL, run))
  {
    RunKeepsInvariant(INITIAL, run);
  }

  predicate Quits(a: Action) {
    a.SetQuit? || a.OwnQuit?
  }

  predicate SomeQuit(run: seq<Action>) {
    run != [] && (Quits(run[0]) || SomeQuit(run[1..]))
  }

  lemma StepQuit(s: Loop, a: Action)
    requires Enabled(s, a) && !s.phase.Before?
    ensures !Step(s, a).phase.Before? && (Step(s, a).quit <==> s.quit || Quits(a))
  {
    if a.SetQuit? || a.OwnQuit? {
      assert Quits(a);
    } else if a.Start? {
      assert false;
    } else {
      assert Step(s, a).quit == s.quit;
    }
  }

  /** Once loop() has begun, quit_ is set exactly when somebody called quit() after that. */
  lemma {:induction false} QuitSinceStart(s: Loop, run: seq<Action>)
    requires Legal(s, run) && s.phase != Before
    ensures Run(s, run).quit <==> s.quit || SomeQuit(run)
    decreases |run|
  {
    if run == [] {
    } else {
      StepQuit(s, run[0]);
      QuitSinceStart(Step(s, run[0]), run[1..]);
    }
  }

  /** Line 82 forgets every earlier quit: what was called before loop() has no effect. */
  lemma EarlyQuitIsForgotten(before: seq<Action>, after: seq<Action>)
    requires Legal(INITIAL, before) && Enabled(Run(INITIAL, before), Start)
    requires Legal(Step(Run(INITIAL, before), Start), after)
    ensures Legal(INITIAL, before + ([Start] + after))
    ensures Run(INITIAL, before + ([Start] + after)).quit <==> SomeQuit(after)
  {
    var s := Run(INITIAL, before);
    RunCons(s, Start, after);
    RunConcat(INITIAL, before, [Start] + after);
    QuitSinceStart(Step(s, Start), after);
  }

  /** Functors run exactly once each and in the order they were pushed; what has not run is
      the rest of the swapped batch followed by the queue. Between batches, and so also when
      the loop has stopped, exactly the pushes made before the last swap have run. */
  lemma ExactlyOnceInOrder(run: seq<Action>)
    requires Legal(INITIAL, run)
    ensures var s := Run(INITIAL, run);
            && s.history == s.executed + s.batch + s.pending
            && s.swapped <= |s.history|
            && s.pending == s.history[s.swapped..]
            && (s.phase != Running ==> s.executed == s.history[..s.swapped])
  {
    RunKeepsInvariant(INITIAL, run);
    var s := Run(INITIAL, run);
    if s.phase != Running {
      assert s.executed + s.batch == s.executed;
    }
  }

  // ---------- What the loop does by itself ----------

  /** A step that the loop's thread takes by itself, outside user code. */
  predicate LoopStep(a: Action) {
    a.TestQuit? || a.PollReturn? || a.Drain? || a.EndDispatch? || a.Swap? || a.RunNext? || a.EndBatch?
  }

  /** Every step is the loop's own, except that one wakeup some thread owes may come first. */
  predicate Alone(run: seq<Action>) {
    forall i :: 0 <= i < |run| ==> LoopStep(run[i]) || (i == 0 && run[i].Wake?)
  }

  /** No poll of the run needs its timeout, or another channel, in order to return. */
  predicate Untimed(s: Loop, run: seq<Action>)
    requires Legal(s, run)
    decreases |run|
  {
    run != [] ==> (run[0].PollReturn? ==> 0 < s.counter) && Untimed(Step(s, run[0]), run[1..])
  }

  predicate Solo(s: Loop, run: seq<Action>) {
    Legal(s, run) && Alone(run) && Untimed(s, run)
  }

  /** At a poll with work queued, the loop by itself comes to run everything pushed so far if
      and only if the wakeup is not lost: no timeout, no other event, and from other threads
      at most the one write they already owe. */
  lemma ServedAloneExactly(s: Loop)
    requires Invariant(s) && s.phase == Polling && s.pending != []
    ensures (exists run :: Solo(s, run) && s.history <= Run(s, run).executed) <==> !LostWakeup(s)
  {
    if LostWakeup(s) {
      forall run: seq<Action> | Solo(s, run) ensures !(s.history <= Run(s, run).executed) {
        LostIsStuck(s, run);
        assert |s.history| == |s.executed| + |s.pending|;
      }
    } else {
      var run := WakeAndServe(s);
      assert Solo(s, run) && s.history <= Run(s, run).executed;
    }
  }

  lemma LostIsStuck(s: Loop, run: seq<Action>)
    requires LostWakeup(s) && Solo(s, run)
    ensures run == []
  {
    if run != [] {
      assert false;
    }
  }

  lemma SoloCons(s: Loop, a: Action, rest: seq<Action>)
    requires Enabled(s, a) && (a.PollReturn? ==> 0 < s.counter) && (LoopStep(a) || a.Wake?)
    requires Solo(Step(s, a), rest) && (forall i :: 0 <= i < |rest| ==> LoopStep(rest[i]))
    ensures Solo(s, [a] + rest) && Run(s, [a] + rest) == Run(Step(s, a), rest)
    ensures LoopStep(a) ==> forall i :: 0 <= i < |[a] + rest| ==> LoopStep(([a] + rest)[i])
  {
    RunCons(s, a, rest);
    assert ([a] + rest)[1..] == rest;
  }

  /** The run that serves: the owed write if the counter is still zero, then one pass. */
  lemma WakeAndServe(s: Loop) returns (run: seq<Action>)
    requires Fifo(s) && Bookkeeping(s) && s.phase == Polling && Covered(s)
    ensures Solo(s, run) && Run(s, run).executed == s.history && Run(s, run).pending == []
    ensures s.quit ==> Run(s, run).phase == Stopped
  {
    if 0 < s.counter {
      run := RoundServes(s);
    } else {
      var t :| t in s.owing;
      var rest := RoundServes(Step(s, Wake(t)));
      SoloCons(s, Wake(t), rest);
      run := [Wake(t)] + rest;
    }
  }

  lemma RoundServes(s: Loop) returns (run: seq<Action>)
    requires Fifo(s) && Bookkeeping(s) && s.phase == Polling && 0 < s.counter
    ensures Solo(s, run) && (forall i :: 0 <= i < |run| ==> LoopStep(run[i]))
    ensures Run(s, run).executed == s.history && Run(s, run).pending == []
    ensures s.quit ==> Run(s, run).phase == Stopped
  {
    var s1 := Step(s, PollReturn(true));
    var s2 := Step(s1, Drain);
    var s3 := Step(s2, EndDispatch);
    var s4 := Step(s3, Swap);
    assert s4.executed + s4.batch == s.history;
    run := BatchRuns(s4);
    SoloCons(s3, Swap, run);
    run := [Swap] + run;
    SoloCons(s2, EndDispatch, run);
    run := [EndDispatch] + run;
    SoloCons(s1, Drain, run);
    run := [Drain] + run;
    SoloCons(s, PollReturn(true), run);
    run := [PollReturn(true)] + run;
  }

  /** The rest of a batch, and the test of quit_ behind it. */
  lemma {:induction false} BatchRuns(s: Loop) returns (run: seq<Action>)
    requires s.phase == Running && !s.selfOwing
    ensures Solo(s, run) && (forall i :: 0 <= i < |run| ==> LoopStep(run[i]))
    ensures Run(s, run).executed == s.executed + s.batch && Run(s, run).pending == s.pending
    ensures s.quit ==> Run(s, run).phase == Stopped
    decreases |s.batch|
  {
    if s.batch == [] {
      var t := Step(s, EndBatch);
      SoloCons(t, TestQuit, []);
      SoloCons(s, EndBatch, [TestQuit]);
      run := [EndBatch] + [TestQuit];
      assert s.executed + [] == s.executed;
    } else {
      var t := Step(s, RunNext);
      var rest := BatchRuns(t);
      assert t.executed + t.batch == s.executed + s.batch;
      SoloCons(s, RunNext, rest);
      run := [RunNext] + rest;
    }
  }

  function LoopSteps(run: seq<Action>): nat {
    if run == [] then 0 else (if LoopStep(run[0]) then 1 else 0) + LoopSteps(run[1..])
  }

  /** How many steps of its own the loop needs at most, from inside a pass, until the first
      n functors ever pushed have run. */
  function Remaining(s: Loop, n: nat): nat {
    var k := if |s.executed| < n then n - |s.executed| else 0;
    match s.phase
    case Dispatching(wakeReady) => if wakeReady then k + 3 else k + 2
    case Entering => k + 1
    case Running => k
    case _ => k + 4
  }

  /** The loop is on its way to running them: in a poll, in the handlers behind it, or with
      all of them executed or swapped out. */
  predicate OnTheWay(s: Loop, n: nat) {
    && n <= |s.history|
    && (|s.executed| < n ==>
          s.phase == Polling || s.phase.Dispatching? || s.phase == Entering
          || (s.phase == Running && n <= |s.executed| + |s.batch|))
  }

  lemma StepApproaches(s: Loop, a: Action, n: nat)
    requires Enabled(s, a) && Invariant(s) && OnTheWay(s, n) && |s.executed| < n
    ensures OnTheWay(Step(s, a), n)
    ensures var before, after := Remaining(s, n), Remaining(Step(s, a), n);
            if LoopStep(a) then after < before || n <= |Step(s, a).executed| else after == before
  {
    StepKeepsInvariant(s, a);
  }

  lemma StepExtends(s: Loop, a: Action)
    requires Enabled(s, a)
    ensures s.history <= Step(s, a).history && |s.executed| <= |Step(s, a).executed|
  {
    var added := if a.Push? || a.OwnPush? then [a.f] else [];
    assert Step(s, a).history == s.history + added;
  }

  lemma {:induction false} HistoryExtends(s: Loop, run: seq<Action>)
    requires Legal(s, run)
    ensures s.history <= Run(s, run).history
    decreases |run|
  {
    if run == [] {
    } else {
      StepExtends(s, run[0]);
      HistoryExtends(Step(s, run[0]), run[1..]);
    }
  }

  lemma {:induction false} Approaches(s: Loop, run: seq<Action>, n: nat)
    requires Legal(s, run) && Invariant(s) && OnTheWay(s, n)
    requires n <= |s.executed| || Remaining(s, n) <= LoopSteps(run)
    ensures n <= |Run(s, run).executed|
    decreases |run|
  {
    if run == [] {
    } else {
      StepKeepsInvariant(s, run[0]);
      if |s.executed| < n {
        StepApproaches(s, run[0], n);
      } else {
        StepExtends(s, run[0]);
      }
      Approaches(Step(s, run[0]), run[1..], n);
    }
  }

  /** However the other threads and the user's code interleave, and whatever they push: once
      a poll has let the loop take four steps and one for each functor queued, everything
      pushed before that poll has run. */
  lemma EveryRunServes(s: Loop, run: seq<Action>)
    requires Legal(s, run) && Invariant(s) && s.phase == Polling
    requires |s.pending| + 4 <= LoopSteps(run)
    ensures s.history <= Run(s, run).executed
  {
    Approaches(s, run, |s.history|);
    HistoryExtends(s, run);
    RunKeepsInvariant(s, run);
  }

  // ---------- The counter ----------

  /** The writes to the eventfd since it was last read, on top of n before. */
  function Writes(run: seq<Action>, n: nat): nat
    decreases |run|
  {
    if run == [] then n
    else Writes(run[1..], if run[0].Drain? then 0 else if run[0].Wake? || run[0].OwnWake? then n + 1 else n)
  }

  lemma {:induction false} CounterFrom(s: Loop, run: seq<Action>, n: nat)
    requires Legal(s, run) && s.counter == if n < 0xFFFF_FFFF_FFFF_FFFE then n else 0xFFFF_FFFF_FFFF_FFFE
    ensures Run(s, run).counter
            == if Writes(run, n) < 0xFFFF_FFFF_FFFF_FFFE then Writes(run, n) else 0xFFFF_FFFF_FFFF_FFFE
    decreases |run|
  {
    if run == [] {
    } else {
      CounterFrom(Step(s, run[0]), run[1..],
                  if run[0].Drain? then 0 else if run[0].Wake? || run[0].OwnWake? then n + 1 else n);
    }
  }

  /** In every run the counter is the number of wakeups since the loop last read it, up to
      the largest that an eventfd holds. */
  lemma CounterCountsWakeups(run: seq<Action>)
    requires Legal(INITIAL, run)
    ensures Run(INITIAL, run).counter
            == if Writes(run, 0) < 0xFFFF_FFFF_FFFF_FFFE then Writes(run, 0) else 0xFFFF_FFFF_FFFF_FFFE
  {
    CounterFrom(INITIAL, run, 0);
  }

  // ---------- Stopping ----------

  /** A loop at its poll with quit_ set stops by itself, after running what was queued. */
  lemma QuitStops(s: Loop) returns (run: seq<Action>)
    requires Invariant(s) && s.phase == Polling && s.quit
    ensures Solo(s, run) && Run(s, run).phase == Stopped && Run(s, run).executed == s.history
  {
    run := WakeAndServe(s);
  }

  function Polls(run: seq<Action>): nat {
    if run == [] then 0 else (if run[0].PollReturn? then 1 else 0) + Polls(run[1..])
  }

  /** Once quit_ is set in a running loop, no interleaving lets it poll again, except for
      the poll it may already be in. */
  lemma {:induction false} NoPollAfterQuit(s: Loop, run: seq<Action>)
    requires Legal(s, run) && s.phase != Before && s.quit
    ensures Polls(run) <= if s.phase == Polling then 1 else 0
    decreases |run|
  {
    if run == [] {
    } else {
      StepQuit(s, run[0]);
      NoPollAfterQuit(Step(s, run[0]), run[1..]);
    }
  }

  // ---------- The object ----------

  datatype Caller = LoopThread | Other(thread: Thread)

  /** What running each functor of a batch pushes onto the queue, in order. */
  function Pushed(effects: Functor -> seq<Functor>, batch: seq<Functor>): seq<Functor> {
    if batch == [] then [] else effects(batch[0]) + Pushed(effects, batch[1..])
  }

  lemma {:induction false} PushedConcat(effects: Functor -> seq<Functor>, a: seq<Functor>, b: seq<Functor>)
    ensures Pushed(effects, a + b) == Pushed(effects, a) + Pushed(effects, b)
    decreases |a|
  {
    if a == [] {
      assert a + b == b;
    } else {
      assert (a + b)[0] == a[0] && (a + b)[1..] == a[1..] + b;
      PushedConcat(effects, a[1..], b);
    }
  }

  lemma PushedOneMore(effects: Functor -> seq<Functor>, batch: seq<Functor>, i: nat)
    requires i < |batch|
    ensures Pushed(effects, batch[..i + 1]) == Pushed(effects, batch[..i]) + effects(batch[i])
  {
    assert batch[..i + 1] == batch[..i] + [batch[i]];
    PushedConcat(effects, batch[..i], [batch[i]]);
    assert Pushed(effects, [batch[i]]) == effects(batch[i]) + [];
  }

  /** One scripted pass of loop(): whether poll reports the eventfd, and what the channel
      handlers push and whether one of them calls quit(). */
  datatype Round = Round(ready: bool, pushes: seq<Functor>, quits: bool)

  /** What whole passes run, in order, and what they leave queued: each pass runs what it
      finds in the queue and what its handlers push, and leaves what these push. */
  function Ran(effects: Functor -> seq<Functor>, pending: seq<Functor>, rounds: seq<Round>): seq<Functor>
    decreases |rounds|
  {
    if rounds == [] then []
    else
      var batch := pending + rounds[0].pushes;
      batch + Ran(effects, Pushed(effects, batch), rounds[1..])
  }

  function Left(effects: Functor -> seq<Functor>, pending: seq<Functor>, rounds: seq<Round>): seq<Functor>
    decreases |rounds|
  {
    if rounds == [] then pending
    else Left(effects, Pushed(effects, pending + rounds[0].pushes), rounds[1..])
  }

  lemma {:induction false} RanOneMore(effects: Functor -> seq<Functor>, pending: seq<Functor>, rounds: seq<Round>,
                                      round: Round)
    ensures var batch := Left(effects, pending, rounds) + round.pushes;
            && Ran(effects, pending, rounds + [round]) == Ran(effects, pending, rounds) + batch
            && Left(effects, pending, rounds + [round]) == Pushed(effects, batch)
    decreases |rounds|
  {
    if rounds == [] {
      assert rounds + [round] == [round] && [round][1..] == [];
      assert Ran(effects, pending, [round]) == pending + round.pushes + [];
    } else {
      var first := pending + rounds[0].pushes;
      assert (rounds + [round])[0] == rounds[0] && (rounds + [round])[1..] == rounds[1..] + [round];
      RanOneMore(effects, Pushed(effects, first), rounds[1..], round);
    }
  }

  lemma RanNext(effects: Functor -> seq<Functor>, before: seq<Functor>, pending: seq<Functor>, rounds: seq<Round>,
                i: nat)
    requires i < |rounds|
    ensures var batch := Left(effects, pending, rounds[..i]) + rounds[i].pushes;
            && before + Ran(effects, pending, rounds[..i + 1])
               == before + Ran(effects, pending, rounds[..i]) + Left(effects, pending, rounds[..i]) + rounds[i].pushes
            && Left(effects, pending, rounds[..i + 1]) == Pushed(effects, batch)
  {
    assert rounds[..i + 1] == rounds[..i] + [rounds[i]];
    RanOneMore(effects, pending, rounds[..i], rounds[i]);
  }

  lemma {:induction false} RaisedTwice(counter: nat, m: nat, n: nat)
    ensures Raised(Raised(counter, m), n) == Raised(counter, m + n)
  {
    if n == 0 {
    } else {
      RaisedTwice(counter, m, n - 1);
    }
  }

  class EventLoop {
    var looping: bool
    var quit: bool
    var callingPendingFunctors: bool
    var pendingFunctors: seq<Functor>
    var wakeups: nat
    ghost var model: Loop

    /** The fields are those of a state the machine can reach. */
    ghost predicate Valid()
      reads this
    {
      && Reachable(model)
      && quit == model.quit && callingPendingFunctors == model.calling
      && pendingFunctors == model.pending && wakeups == model.counter
    }

    constructor ()
      ensures Valid() && model == INITIAL && !looping
    {
      assert Legal(INITIAL, []);
      looping, quit, callingPendingFunctors, pendingFunctors, wakeups := false, false, false, [], 0;
      model := INITIAL;
    }

    ghost method Record(a: Action)
      requires Reachable(model) && Enabled(model, a)
      modifies this`model
      ensures Reachable(model) && model == Step(old(model), a)
    {
      StepReachable(model, a);
      model := Step(model, a);
    }

    ghost predicate MayCall(caller: Caller)
      reads this
    {
      match caller
      case LoopThread => InUserCode(model)
      case Other(t) => t !in model.owing
    }

    method Wakeup(caller: Caller)
      requires Valid()
      requires match caller case LoopThread => model.selfOwing case Other(t) => t in model.owing
      modifies this`wakeups, this`model
      ensures Valid() && wakeups == Bump(old(wakeups))
      ensures wakeups == if old(wakeups) < 0xFFFF_FFFF_FFFF_FFFE then old(wakeups) + 1 else 0xFFFF_FFFF_FFFF_FFFE
      ensures model == Step(old(model), if caller == LoopThread then OwnWake else Wake(caller.thread))
    {
      wakeups := Bump(wakeups);
      Record(if caller == LoopThread then OwnWake else Wake(caller.thread));
    }

    /** The counter is raised unless the caller is the loop's thread outside a batch. */
    method QueueInLoop(cb: Functor, caller: Caller)
      requires Valid() && MayCall(caller)
      modifies this`pendingFunctors, this`wakeups, this`model
      ensures Valid() && pendingFunctors == old(pendingFunctors) + [cb]
      ensures wakeups == if caller != LoopThread || callingPendingFunctors then Bump(old(wakeups)) else old(wakeups)
      ensures model.phase == old(model.phase) && model.selfOwing == old(model.selfOwing)
      ensures model.owing == old(model.owing) && model.executed == old(model.executed)
      ensures model.batch == old(model.batch) && model.history == old(model.history) + [cb]
    {
      pendingFunctors := pendingFunctors + [cb];
      Record(if caller == LoopThread then OwnPush(cb) else Push(caller.thread, cb));
      if caller != LoopThread || callingPendingFunctors {
        Wakeup(caller);
      }
    }

    /** On the loop's own thread the functor runs at once, and what it pushes is queued. */
    method RunInLoop(cb: Functor, caller: Caller, effects: Functor -> seq<Functor>) returns (ranNow: bool)
      requires Valid() && MayCall(caller)
      modifies this`pendingFunctors, this`wakeups, this`model
      ensures Valid() && ranNow == (caller == LoopThread)
      ensures pendingFunctors == old(pendingFunctors) + if ranNow then effects(cb) else [cb]
      ensures wakeups == if ranNow && !callingPendingFunctors then old(wakeups)
                         else Raised(old(wakeups), if ranNow then |effects(cb)| else 1)
    {
      ranNow := caller == LoopThread;
      if ranNow {
        PushAll(effects(cb));
      } else {
        QueueInLoop(cb, caller);
      }
    }

    method Quit(caller: Caller)
      requires Valid() && MayCall(caller)
      modifies this`quit, this`wakeups, this`model
      ensures Valid() && quit && model.phase == old(model.phase) && model.selfOwing == old(model.selfOwing)
      ensures model.executed == old(model.executed) && model.history == old(model.history)
      ensures wakeups == if caller != LoopThread then Bump(old(wakeups)) else old(wakeups)
    {
      quit := true;
      Record(if caller == LoopThread then OwnQuit else SetQuit(caller.thread));
      if caller != LoopThread {
        Wakeup(caller);
      }
    }

    method HandleRead()
      requires Valid() && model.phase == Dispatching(true) && !model.selfOwing
      modifies this`wakeups, this`model
      ensures Valid() && wakeups == 0 && model == Step(old(model), Drain)
    {
      wakeups := 0;
      Record(Drain);
    }

    /** One functor of the batch: what it pushes while running is queued, and wakes the loop. */
    method RunFunctor(functor: Functor, effects: Functor -> seq<Functor>)
      requires Valid() && model.phase == Running && !model.selfOwing && callingPendingFunctors
      requires model.batch != [] && model.batch[0] == functor
      modifies this`pendingFunctors, this`wakeups, this`model
      ensures Valid() && model.phase == Running && !model.selfOwing && model.quit == old(model.quit)
      ensures model.batch == old(model.batch)[1..] && model.executed == old(model.executed) + [functor]
      ensures pendingFunctors == old(pendingFunctors) + effects(functor)
      ensures wakeups == Raised(old(wakeups), |effects(functor)|)
    {
      Record(RunNext);
      PushAll(effects(functor));
    }

    /** The loop of doPendingFunctors over the swapped-out vector. */
    method RunBatch(functors: seq<Functor>, effects: Functor -> seq<Functor>)
      requires Valid() && model.phase == Running && !model.selfOwing
      requires model.batch == functors && pendingFunctors == [] && callingPendingFunctors
      modifies this`pendingFunctors, this`wakeups, this`model
      ensures Valid() && model.phase == Running && !model.selfOwing && model.batch == []
      ensures model.executed == old(model.executed) + functors
      ensures pendingFunctors == Pushed(effects, functors) && model.quit == old(model.quit)
      ensures wakeups == Raised(old(wakeups), |Pushed(effects, functors)|)
    {
      for i := 0 to |functors|
        invariant Valid() && model.phase == Running && !model.selfOwing
        invariant model.batch == functors[i..]
        invariant model.executed == old(model.executed) + functors[..i]
        invariant pendingFunctors == Pushed(effects, functors[..i]) && model.quit == old(model.quit)
        invariant wakeups == Raised(old(wakeups), |pendingFunctors|)
      {
        RaisedTwice(old(wakeups), |pendingFunctors|, |effects(functors[i])|);
        PushedOneMore(effects, functors, i);
        RunFunctor(functors[i], effects);
      }
      assert functors[..|functors|] == functors;
    }

    /** Runs the functors queued on entry, once each and in order; those that they push while
        running stay queued, in order. */
    method DoPendingFunctors(effects: Functor -> seq<Functor>)
      requires Valid() && model.phase == Dispatching(false) && !model.selfOwing
      modifies this`callingPendingFunctors, this`pendingFunctors, this`wakeups, this`model
      ensures Valid() && model.phase == Testing && !model.selfOwing
      ensures model.executed == old(model.executed) + old(pendingFunctors)
      ensures pendingFunctors == Pushed(effects, old(pendingFunctors)) && model.quit == old(model.quit)
      ensures wakeups == Raised(old(wakeups), |pendingFunctors|)
    {
      callingPendingFunctors := true;
      Record(EndDispatch);
      var functors := pendingFunctors;
      pendingFunctors := [];
      Record(Swap);
      RunBatch(functors, effects);
      callingPendingFunctors := false;
      Record(EndBatch);
    }

    /** The queueInLoop calls one functor or handler makes on the loop's thread. */
    method PushAll(pushes: seq<Functor>)
      requires Valid() && InUserCode(model)
      modifies this`pendingFunctors, this`wakeups, this`model
      ensures Valid() && pendingFunctors == old(pendingFunctors) + pushes
      ensures model.phase == old(model.phase) && !model.selfOwing && model.quit == old(model.quit)
      ensures model.batch == old(model.batch) && model.executed == old(model.executed)
      ensures wakeups == if callingPendingFunctors then Raised(old(wakeups), |pushes|) else old(wakeups)
    {
      for k := 0 to |pushes|
        invariant Valid() && InUserCode(model) && model.phase == old(model.phase) && model.quit == old(model.quit)
        invariant pendingFunctors == old(pendingFunctors) + pushes[..k]
        invariant model.batch == old(model.batch) && model.executed == old(model.executed)
        invariant wakeups == if callingPendingFunctors then Raised(old(wakeups), k) else old(wakeups)
      {
        QueueInLoop(pushes[k], LoopThread);
        assert pushes[..k + 1] == pushes[..k] + [pushes[k]];
      }
      assert pushes[..|pushes|] == pushes;
    }

    /** quit_ tested, poll returned, and the wakeup channel handled if it was reported. */
    method TestAndPoll(ready: bool)
      requires Valid() && model.phase == Testing && !model.selfOwing && !quit
      modifies this`wakeups, this`model
      ensures Valid() && model.phase == Dispatching(false) && !model.selfOwing
      ensures model.executed == old(model.executed) && wakeups == if ready then 0 else old(wakeups)
    {
      Record(TestQuit);
      var wakeReady := ready && 0 < wakeups;
      Record(PollReturn(wakeReady));
      if wakeReady {
        HandleRead();
      }
    }

    /** The body of loop()'s while loop. */
    method OnePass(round: Round, effects: Functor -> seq<Functor>)
      requires Valid() && model.phase == Testing && !model.selfOwing && !quit
      modifies this`quit, this`callingPendingFunctors, this`pendingFunctors, this`wakeups, this`model
      ensures Valid() && model.phase == Testing && !model.selfOwing
      ensures quit == round.quits
      ensures model.executed == old(model.executed) + old(pendingFunctors) + round.pushes
      ensures pendingFunctors == Pushed(effects, old(pendingFunctors) + round.pushes)
      ensures wakeups == Raised(if round.ready then 0 else old(wakeups), |pendingFunctors|)
    {
      TestAndPoll(round.ready);
      ReachableInvariant(model);
      PushAll(round.pushes);
      if round.quits {
        Quit(LoopThread);
      }
      DoPendingFunctors(effects);
      assert old(model.executed) + (old(pendingFunctors) + round.pushes)
          == old(model.executed) + old(pendingFunctors) + round.pushes;
    }

    method Begin()
      requires Valid() && model.phase == Before && !model.selfOwing
      modifies this`looping, this`quit, this`model
      ensures Valid() && looping && !quit && model.phase == Testing && !model.selfOwing
      ensures model.executed == old(model.executed)
    {
      looping, quit := true, false;
      Record(Start);
    }

    method Finish()
      requires Valid() && model.phase == Testing && quit
      modifies this`looping, this`model
      ensures Valid() && !looping && model.phase == Stopped
      ensures model.executed + pendingFunctors == model.history && model.executed == old(model.executed)
    {
      Record(TestQuit);
      looping := false;
      ReachableInvariant(model);
      assert model.executed + model.batch == model.executed;
    }

    /** The while loop of loop(). */
    method RunPasses(rounds: seq<Round>, effects: Functor -> seq<Functor>) returns (passes: nat)
      requires Valid() && model.phase == Testing && !model.selfOwing && !quit
      modifies this`quit, this`callingPendingFunctors, this`pendingFunctors, this`wakeups, this`model
      ensures Valid() && model.phase == Testing && !model.selfOwing && passes <= |rounds|
      ensures forall i :: 0 <= i < passes - 1 ==> !rounds[i].quits
      ensures quit <==> 0 < passes && rounds[passes - 1].quits
      ensures !quit ==> passes == |rounds|
      ensures model.executed == old(model.executed) + Ran(effects, old(pendingFunctors), rounds[..passes])
      ensures pendingFunctors == Left(effects, old(pendingFunctors), rounds[..passes])
    {
      ghost var before, queue := model.executed, pendingFunctors;
      passes := 0;
      assert before + [] == before;
      while !quit && passes < |rounds|
        invariant Valid() && model.phase == Testing && !model.selfOwing && passes <= |rounds|
        invariant forall i :: 0 <= i < passes - 1 ==> !rounds[i].quits
        invariant quit <==> 0 < passes && rounds[passes - 1].quits
        invariant model.executed == before + Ran(effects, queue, rounds[..passes])
        invariant pendingFunctors == Left(effects, queue, rounds[..passes])
        decreases |rounds| - passes
      {
        RanNext(effects, before, queue, rounds, passes);
        OnePass(rounds[passes], effects);
        passes := passes + 1;
      }
    }

    /** loop(), on a script of passes: it runs whole passes up to and including the first
        that quits, and only what that last pass pushed while running is left over. */
    method Loop(rounds: seq<Round>, effects: Functor -> seq<Functor>) returns (passes: nat)
      requires Valid() && model.phase == Before && !model.selfOwing
      modifies this
      ensures Valid() && passes <= |rounds|
      ensures forall i :: 0 <= i < passes - 1 ==> !rounds[i].quits
      ensures !looping <==> 0 < passes && rounds[passes - 1].quits
      ensures looping ==> passes == |rounds|
      ensures !looping ==> model.phase == Stopped && model.executed + pendingFunctors == model.history
      ensures model.executed == old(model.executed) + Ran(effects, old(pendingFunctors), rounds[..passes])
      ensures pendingFunctors == Left(effects, old(pendingFunctors), rounds[..passes])
    {
      Begin();
      passes := RunPasses(rounds, effects);
      if quit {
        Finish();
      }
    }
  }
}
