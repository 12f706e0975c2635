/** sendFileInLoop of ads_TcpConnection.cc: each round sends one piece of a file and, if
    something remains, queues the next round. */
module FileSend {
  import opened Buffers
  import opened OutputPath

  /** The arguments a queued round carries. */
  datatype FileJob = FileJob(offset: nat, count: nat)

  /** What the next round is asked to send: the source repeats `count`; the repaired form
      passes what remains. */
  datatype Variant = AsWritten | Repaired

  datatype Round = Done | Again(job: FileJob)

  /** sendfile sends no more than asked and no more than the file holds from there on. */
  predicate Sendable(file: seq<byte>, job: FileJob, n: nat) {
    n <= job.count && (0 < n ==> job.offset + n <= |file|)
  }

  /** The bytes one round sends. */
  function Piece(file: seq<byte>, job: FileJob, n: nat): seq<byte>
    requires Sendable(file, job, n)
  {
    if n == 0 then [] else file[job.offset..job.offset + n]
  }

  /** The job of the round queued after one that sent n bytes and left something. */
  function NextJob(v: Variant, job: FileJob, n: nat): FileJob
    requires n < job.count
  {
    FileJob(job.offset + n, if v == AsWritten then job.count else job.count - n)
  }

  /** The round after one that sent n bytes (none, if it was blocked or could not try). */
  function Next(v: Variant, job: FileJob, n: nat): Round
    requires n <= job.count
  {
    if n == job.count then Done else Again(NextJob(v, job, n))
  }

  /** One call of sendFileInLoop on a connection: what it leaves, and the round it queues. */
  function SendFileInLoop(v: Variant, cfg: Config, c: Conn, file: seq<byte>, job: FileJob, r: WriteResult)
    : (result: (Conn, Round))
    requires r.Wrote? ==> Sendable(file, job, r.n)
  {
    if c.state == Disconnected then (c, Done)
    else if !Direct(c) then (c, Next(v, job, 0))
    else match r
      case Wrote(n) =>
        var d := c.(wire := c.wire + Piece(file, job, n));
        var e := if n == job.count && cfg.onComplete then d.(notices := d.notices + [WriteComplete]) else d;
        (e, Next(v, job, n))
      case WriteFailed(_) =>
        if Fatal(r) then (c, Done) else (c, Next(v, job, 0))
  }

  // ---------- Runs of rounds ----------

  /** The bytes sent by successive rounds, up to the first that queues no other. */
  predicate Legal(v: Variant, file: seq<byte>, job: FileJob, sent: seq<nat>)
    decreases |sent|
  {
    sent != [] ==>
      && Sendable(file, job, sent[0])
      && if sent[0] == job.count then sent[1..] == [] else Legal(v, file, NextJob(v, job, sent[0]), sent[1..])
  }

  function Delivered(v: Variant, file: seq<byte>, job: FileJob, sent: seq<nat>): seq<byte>
    requires Legal(v, file, job, sent)
    decreases |sent|
  {
    if sent == [] then []
    else if sent[0] == job.count then Piece(file, job, sent[0])
    else Piece(file, job, sent[0]) + Delivered(v, file, NextJob(v, job, sent[0]), sent[1..])
  }

  predicate Finished(v: Variant, job: FileJob, sent: seq<nat>)
    decreases |sent|
  {
    sent != [] && sent[0] <= job.count &&
    (sent[0] == job.count || Finished(v, NextJob(v, job, sent[0]), sent[1..]))
  }

  function Sum(sent: seq<nat>): nat {
    if sent == [] then 0 else sent[0] + Sum(sent[1..])
  }

  lemma PiecesJoin(file: seq<byte>, a: nat, n: nat, m: nat, first: seq<byte>, second: seq<byte>)
    requires a + n + m <= |file| && first == file[a..a + n] && second == file[a + n..a + n + m]
    ensures first + second == file[a..a + n + m]
  {
  }

  lemma {:induction false} DeliversWithin(v: Variant, file: seq<byte>, job: FileJob, sent: seq<nat>)
    requires Legal(v, file, job, sent) && job.offset <= |file|
    ensures job.offset + Sum(sent) <= |file|
    decreases |sent|
  {
    if sent == [] {
    } else if sent[0] == job.count {
      assert Sum(sent[1..]) == 0;
    } else {
      DeliversWithin(v, file, NextJob(v, job, sent[0]), sent[1..]);
    }
  }

  /** In either form the rounds deliver one contiguous piece of the file, in order. */
  lemma {:induction false} DeliversInOrder(v: Variant, file: seq<byte>, job: FileJob, sent: seq<nat>)
    requires Legal(v, file, job, sent) && job.offset <= |file|
    ensures job.offset + Sum(sent) <= |file|
    ensures Delivered(v, file, job, sent) == file[job.offset..job.offset + Sum(sent)]
    decreases |sent|
  {
    DeliversWithin(v, file, job, sent);
    if sent == [] {
    } else {
      var n, rest := sent[0], sent[1..];
      PieceIsSlice(file, job, n);
      if n == job.count {
        assert Sum(rest) == 0;
      } else {
        var next := NextJob(v, job, n);
        var more := Delivered(v, file, next, rest);
        DeliversInOrder(v, file, next, rest);
        PiecesJoin(file, job.offset, n, Sum(rest), Piece(file, job, n), more);
      }
    }
  }

  lemma PieceIsSlice(file: seq<byte>, job: FileJob, n: nat)
    requires Sendable(file, job, n) && job.offset <= |file|
    ensures job.offset + n <= |file| && Piece(file, job, n) == file[job.offset..job.offset + n]
  {
  }

  /** Passing on what remains, the rounds finish exactly when the request is delivered, and
      until then never deliver more than was asked. */
  lemma {:induction false} RepairedDeliversExactly(file: seq<byte>, job: FileJob, sent: seq<nat>)
    requires Legal(Repaired, file, job, sent) && 0 < job.count
    ensures Sum(sent) <= job.count && (Finished(Repaired, job, sent) <==> Sum(sent) == job.count)
    decreases |sent|
  {
    if sent == [] {
    } else {
      if sent[0] == job.count {
        assert Sum(sent[1..]) == 0;
      } else {
        RepairedDeliversExactly(file, NextJob(Repaired, job, sent[0]), sent[1..]);
      }
    }
  }

  /** Then the bytes are the requested ones; and rounds that progress number at most count. */
  lemma RepairedDelivery(file: seq<byte>, job: FileJob, sent: seq<nat>)
    requires Legal(Repaired, file, job, sent) && 0 < job.count && job.offset + job.count <= |file|
    requires Finished(Repaired, job, sent)
    ensures Delivered(Repaired, file, job, sent) == file[job.offset..job.offset + job.count]
    ensures (forall i :: 0 <= i < |sent| ==> 0 < sent[i]) ==> |sent| <= job.count
  {
    DeliversInOrder(Repaired, file, job, sent);
    RepairedDeliversExactly(file, job, sent);
    if forall i :: 0 <= i < |sent| ==> 0 < sent[i] {
      LengthBelowSum(sent);
    }
  }

  lemma {:induction false} LengthBelowSum(sent: seq<nat>)
    requires forall i :: 0 <= i < |sent| ==> 0 < sent[i]
    ensures |sent| <= Sum(sent)
  {
    if sent == [] {
    } else {
      LengthBelowSum(sent[1..]);
    }
  }

  /** As written, the last round alone sends count bytes, on top of all earlier ones. */
  lemma {:induction false} AsWrittenOverSends(file: seq<byte>, job: FileJob, sent: seq<nat>)
    requires Legal(AsWritten, file, job, sent) && 0 < job.count && Finished(AsWritten, job, sent)
    ensures sent != [] && Sum(sent) == Sum(sent[..|sent| - 1]) + job.count
    decreases |sent|
  {
    var rest := sent[1..];
    if sent[0] == job.count {
      assert rest == [] && sent[..|sent| - 1] == [];
    } else {
      AsWrittenOverSends(file, NextJob(AsWritten, job, sent[0]), rest);
      assert sent[..|sent| - 1] == [sent[0]] + rest[..|rest| - 1];
      assert ([sent[0]] + rest[..|rest| - 1])[1..] == rest[..|rest| - 1];
    }
  }

  /** So a finished request delivers exactly the requested bytes if and only if no round
      before the last sent anything. */
  lemma AsWrittenDeliversExactly(file: seq<byte>, job: FileJob, sent: seq<nat>)
    requires Legal(AsWritten, file, job, sent) && 0 < job.count && job.offset + job.count <= |file|
    requires Finished(AsWritten, job, sent)
    ensures Delivered(AsWritten, file, job, sent) == file[job.offset..job.offset + job.count]
            <==> forall i :: 0 <= i < |sent| - 1 ==> sent[i] == 0
  {
    DeliversInOrder(AsWritten, file, job, sent);
    AsWrittenOverSends(file, job, sent);
    SumIsZero(sent[..|sent| - 1]);
    assert |Delivered(AsWritten, file, job, sent)| == Sum(sent);
    forall i | 0 <= i < |sent| - 1 ensures sent[i] == sent[..|sent| - 1][i] {
    }
  }

  lemma {:induction false} SumIsZero(sent: seq<nat>)
    ensures Sum(sent) == 0 <==> forall i :: 0 <= i < |sent| ==> sent[i] == 0
  {
    if sent == [] {
    } else {
      SumIsZero(sent[1..]);
      assert Sum(sent) == 0 ==> forall i :: 0 < i < |sent| ==> sent[i] == sent[1..][i - 1];
    }
  }

  /** Can the rounds still come to an end, after those that sent `sent`? */
  ghost predicate CanFinish(v: Variant, file: seq<byte>, job: FileJob, sent: seq<nat>) {
    exists more :: Legal(v, file, job, sent + more) && Finished(v, job, sent + more)
  }

  /** A request that is still going on can come to an end if and only if its last round fits
      into the file. Passing on what remains, that is so whenever the request fits. As
      written, the last round must find all of count behind what has already gone out: a
      request that fits is lost for ever once partial rounds have passed |file| - count. */
  lemma {:induction false} CanFinishExactly(v: Variant, file: seq<byte>, job: FileJob, sent: seq<nat>)
    requires Legal(v, file, job, sent) && !Finished(v, job, sent)
    ensures CanFinish(v, file, job, sent) <==>
              job.count == 0 || job.offset + (if v == AsWritten then Sum(sent) else 0) + job.count <= |file|
    decreases |sent|
  {
    if sent == [] {
      FirstRoundsFinishExactly(v, file, job);
    } else {
      var next, rest := NextJob(v, job, sent[0]), sent[1..];
      CanFinishExactly(v, file, next, rest);
      forall more: seq<nat>
        ensures Legal(v, file, job, sent + more) && Finished(v, job, sent + more)
                <==> Legal(v, file, next, rest + more) && Finished(v, next, rest + more)
      {
        assert (sent + more)[0] == sent[0] && (sent + more)[1..] == rest + more;
      }
      assert CanFinish(v, file, job, sent) <==> CanFinish(v, file, next, rest);
    }
  }

  lemma FirstRoundsFinishExactly(v: Variant, file: seq<byte>, job: FileJob)
    ensures CanFinish(v, file, job, []) <==> job.count == 0 || job.offset + job.count <= |file|
  {
    if job.count == 0 || job.offset + job.count <= |file| {
      assert [] + [job.count] == [job.count] && [job.count][1..] == [];
      assert Legal(v, file, job, [] + [job.count]) && Finished(v, job, [] + [job.count]);
    } else {
      forall more: seq<nat> | Legal(v, file, job, [] + more) ensures !Finished(v, job, [] + more) {
        NeverFinishes(v, file, job, [] + more);
      }
    }
  }

  lemma {:induction false} NeverFinishes(v: Variant, file: seq<byte>, job: FileJob, sent: seq<nat>)
    requires Legal(v, file, job, sent) && 0 < job.count && |file| < job.offset + job.count
    ensures !Finished(v, job, sent)
    decreases |sent|
  {
    if sent != [] && sent[0] < job.count {
      NeverFinishes(v, file, NextJob(v, job, sent[0]), sent[1..]);
    }
  }

  // ---------- A request among everything else on its connection ----------

  /** A connection with one request for a piece of a file under way. */
  datatype Transfer = Transfer(sys: System, round: Round)

  datatype Move = Other(e: Event) | RunRound(r: WriteResult)

  predicate Allows(t: Transfer, file: seq<byte>, m: Move) {
    match m
    case Other(e) => Allowed(t.sys, e)
    case RunRound(r) =>
      t.round.Again? && (r.Wrote? ==> Sendable(file, t.round.job, r.n)) && (0 < t.sys.conn.halfCloses ==> Fatal(r))
  }

  function Moved(v: Variant, cfg: Config, file: seq<byte>, t: Transfer, m: Move): Transfer
    requires Allows(t, file, m)
  {
    match m
    case Other(e) => t.(sys := OutputPath.Step(cfg, t.sys, e))
    case RunRound(r) =>
      var (d, next) := SendFileInLoop(v, cfg, t.sys.conn, file, t.round.job, r);
      Transfer(t.sys.(conn := d), next)
  }

  predicate Possible(v: Variant, cfg: Config, file: seq<byte>, t: Transfer, moves: seq<Move>)
    decreases |moves|
  {
    moves != [] ==>
      Allows(t, file, moves[0]) && Possible(v, cfg, file, Moved(v, cfg, file, t, moves[0]), moves[1..])
  }

  function After(v: Variant, cfg: Config, file: seq<byte>, t: Transfer, moves: seq<Move>): Transfer
    requires Possible(v, cfg, file, t, moves)
    decreases |moves|
  {
    if moves == [] then t else After(v, cfg, file, Moved(v, cfg, file, t, moves[0]), moves[1..])
  }

  /** What a round sends: it tries the socket only when nothing is buffered, the channel is
      not writing, and the state is not kDisconnected. */
  function SentNow(t: Transfer, file: seq<byte>, m: Move): nat
    requires Allows(t, file, m)
  {
    if m.RunRound? && t.sys.conn.out == [] && !t.sys.conn.writing && t.sys.conn.state != Disconnected && m.r.Wrote?
    then m.r.n else 0
  }

  /** A round is the last one in exactly these cases: the connection is disconnected, its own
      attempt found it broken, or it sent all it was asked for. */
  predicate EndsNow(t: Transfer, file: seq<byte>, m: Move)
    requires Allows(t, file, m)
  {
    && m.RunRound?
    && (|| t.sys.conn.state == Disconnected
        || (t.sys.conn.out == [] && !t.sys.conn.writing
            && (m.r == WriteFailed(BrokenPipe) || m.r == WriteFailed(ConnectionReset)))
        || SentNow(t, file, m) == t.round.job.count)
  }

  function SentBy(v: Variant, cfg: Config, file: seq<byte>, t: Transfer, moves: seq<Move>): nat
    requires Possible(v, cfg, file, t, moves)
    decreases |moves|
  {
    if moves == [] then 0
    else SentNow(t, file, moves[0]) + SentBy(v, cfg, file, Moved(v, cfg, file, t, moves[0]), moves[1..])
  }

  predicate EverEnds(v: Variant, cfg: Config, file: seq<byte>, t: Transfer, moves: seq<Move>)
    requires Possible(v, cfg, file, t, moves)
    decreases |moves|
  {
    moves != [] &&
    (EndsNow(t, file, moves[0]) || EverEnds(v, cfg, file, Moved(v, cfg, file, t, moves[0]), moves[1..]))
  }

  lemma RoundDecides(v: Variant, cfg: Config, file: seq<byte>, t: Transfer, m: Move)
    requires Allows(t, file, m) && t.round.Again?
    ensures var u, n := Moved(v, cfg, file, t, m), SentNow(t, file, m);
            && (u.round == Done <==> EndsNow(t, file, m))
            && (u.round.Again? ==> u.round.job.offset == t.round.job.offset + n)
            && (u.round.Again? ==> u.round.job.count == t.round.job.count - if v == Repaired then n else 0)
  {
  }

  lemma {:induction false} NoRoundsAfterDone(v: Variant, cfg: Config, file: seq<byte>, t: Transfer, moves: seq<Move>)
    requires Possible(v, cfg, file, t, moves) && t.round == Done
    ensures After(v, cfg, file, t, moves).round == Done
    decreases |moves|
  {
    if moves == [] {
    } else {
      NoRoundsAfterDone(v, cfg, file, Moved(v, cfg, file, t, moves[0]), moves[1..]);
    }
  }

  /** Whatever else happens on the connection, from any state of it: the request comes to an
      end exactly by a round that may end it, and until then the queued round asks for the
      bytes from where the last piece stopped; as written for the full count again, repaired
      for what remains. */
  lemma {:induction false} RequestSurvives(v: Variant, cfg: Config, file: seq<byte>, t: Transfer, moves: seq<Move>)
    requires Possible(v, cfg, file, t, moves) && t.round.Again?
    ensures var u, n := After(v, cfg, file, t, moves), SentBy(v, cfg, file, t, moves);
            && (u.round == Done <==> EverEnds(v, cfg, file, t, moves))
            && (u.round.Again? ==> u.round.job.offset == t.round.job.offset + n)
            && (u.round.Again? ==> u.round.job.count == t.round.job.count - if v == Repaired then n else 0)
    decreases |moves|
  {
    if moves == [] {
    } else {
      var u := Moved(v, cfg, file, t, moves[0]);
      RoundDecides(v, cfg, file, t, moves[0]);
      if u.round == Done {
        NoRoundsAfterDone(v, cfg, file, u, moves[1..]);
      } else {
        RequestSurvives(v, cfg, file, u, moves[1..]);
      }
    }
  }

  /** What the stream gains in a step: the payloads accepted, or a piece of the file. */
  function Gained(t: Transfer, file: seq<byte>, m: Move): seq<byte>
    requires Allows(t, file, m)
  {
    match m
    case Other(e) => Flatten(AcceptedAt(t.sys, e))
    case RunRound(r) => if SentNow(t, file, m) == 0 then [] else
      file[t.round.job.offset..t.round.job.offset + SentNow(t, file, m)]
  }

  function AllGained(v: Variant, cfg: Config, file: seq<byte>, t: Transfer, moves: seq<Move>): seq<byte>
    requires Possible(v, cfg, file, t, moves)
    decreases |moves|
  {
    if moves == [] then []
    else Gained(t, file, moves[0]) + AllGained(v, cfg, file, Moved(v, cfg, file, t, moves[0]), moves[1..])
  }

  lemma MoveConserves(v: Variant, cfg: Config, file: seq<byte>, t: Transfer, m: Move)
    requires Allows(t, file, m)
    ensures var c, d := t.sys.conn, Moved(v, cfg, file, t, m).sys.conn;
            d.wire + d.out == c.wire + c.out + Gained(t, file, m)
    ensures m.RunRound? ==>
              var c, d := t.sys.conn, Moved(v, cfg, file, t, m).sys.conn;
              && |d.wire| == |c.wire| + SentNow(t, file, m)
              && d == c.(wire := d.wire, notices := d.notices)
              && d.notices == c.notices + if cfg.onComplete && c.out == [] && !c.writing && c.state != Disconnected
                                             && m.r == Wrote(t.round.job.count) then [WriteComplete] else []
  {
    var c := t.sys.conn;
    if m.Other? {
      StepConserves(cfg, t.sys, m.e);
    } else {
      assert c.wire + [] == c.wire && c.notices + [] == c.notices;
      if c.out == [] {
        assert c.wire + c.out == c.wire;
      }
    }
  }

  /** The wire followed by the buffer is the accepted payloads and the pieces sent, each whole,
      in the order in which they were taken. */
  lemma {:induction false} TransferConserved(v: Variant, cfg: Config, file: seq<byte>, t: Transfer, moves: seq<Move>)
    requires Possible(v, cfg, file, t, moves)
    ensures var d := After(v, cfg, file, t, moves).sys.conn;
            d.wire + d.out == t.sys.conn.wire + t.sys.conn.out + AllGained(v, cfg, file, t, moves)
    decreases |moves|
  {
    var c := t.sys.conn;
    if moves == [] {
      assert c.wire + c.out + [] == c.wire + c.out;
    } else {
      var u := Moved(v, cfg, file, t, moves[0]);
      MoveConserves(v, cfg, file, t, moves[0]);
      TransferConserved(v, cfg, file, u, moves[1..]);
      Associates(c.wire + c.out, Gained(t, file, moves[0]), AllGained(v, cfg, file, u, moves[1..]));
    }
  }

  // ---------- Rounds on a connection ----------

  function Sent(r: WriteResult): nat {
    if r.Wrote? then r.n else 0
  }

  function SentOf(rs: seq<WriteResult>): seq<nat> {
    if rs == [] then [] else [Sent(rs[0])] + SentOf(rs[1..])
  }

  /** Successive rounds on one connection, each run with the job that the last one queued. */
  function RunRounds(v: Variant, cfg: Config, c: Conn, file: seq<byte>, job: FileJob, rs: seq<WriteResult>): Conn
    requires Legal(v, file, job, SentOf(rs)) && Direct(c) && c.state != Disconnected
    requires forall i :: 0 <= i < |rs| ==> !Fatal(rs[i])
    decreases |rs|
  {
    if rs == [] then c
    else
      var (d, next) := SendFileInLoop(v, cfg, c, file, job, rs[0]);
      if next == Done then d else RunRounds(v, cfg, d, file, next.job, rs[1..])
  }

  lemma RoundEffect(v: Variant, cfg: Config, c: Conn, file: seq<byte>, job: FileJob, r: WriteResult)
    requires Direct(c) && c.state != Disconnected && !Fatal(r) && Sendable(file, job, Sent(r))
    ensures var (d, next) := SendFileInLoop(v, cfg, c, file, job, r);
            && d.wire == c.wire + Piece(file, job, Sent(r)) && next == Next(v, job, Sent(r))
            && d.out == c.out && d.writing == c.writing && d.state == c.state
  {
  }

  /** On an idle connection the wire grows by exactly what the rounds deliver, and nothing
      else of the stream changes. */
  lemma {:induction false} RoundsExtendWire(v: Variant, cfg: Config, c: Conn, file: seq<byte>, job: FileJob,
                                            rs: seq<WriteResult>)
    requires Legal(v, file, job, SentOf(rs)) && Direct(c) && c.state != Disconnected
    requires forall i :: 0 <= i < |rs| ==> !Fatal(rs[i])
    ensures var d := RunRounds(v, cfg, c, file, job, rs);
            && d.wire == c.wire + Delivered(v, file, job, SentOf(rs))
            && d.out == c.out && d.writing == c.writing && d.state == c.state
    decreases |rs|
  {
    if rs == [] {
      assert c.wire + [] == c.wire;
    } else {
      RoundEffect(v, cfg, c, file, job, rs[0]);
      var n, piece := Sent(rs[0]), Piece(file, job, Sent(rs[0]));
      var d := SendFileInLoop(v, cfg, c, file, job, rs[0]).0;
      if n < job.count {
        var next := NextJob(v, job, n);
        RoundsExtendWire(v, cfg, d, file, next, rs[1..]);
        var more := Delivered(v, file, next, SentOf(rs[1..]));
        Associates(c.wire, piece, more);
      }
    }
  }

  /** Two rounds of one request for two bytes, as written: three bytes are sent. */
  lemma AsWrittenExample(b: byte)
    ensures var file, job, sent := [b, b, b], FileJob(0, 2), [1, 2];
            && Legal(AsWritten, file, job, sent) && Finished(AsWritten, job, sent)
            && |Delivered(AsWritten, file, job, sent)| == 3
  {
    var file, next := [b, b, b], FileJob(1, 2);
    assert [1, 2][1..] == [2] && [2][1..] == [];
    assert NextJob(AsWritten, FileJob(0, 2), 1) == next;
    assert Legal(AsWritten, file, next, [2]) && Finished(AsWritten, next, [2]);
    assert Delivered(AsWritten, file, FileJob(0, 2), [1, 2]) == file[0..1] + Delivered(AsWritten, file, next, [2]);
  }
}
