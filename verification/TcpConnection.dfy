/** TcpConnection as an object: a real output buffer, input buffer and channel, whose
    combined value follows the functions of OutputPath. */
module TcpConnections {
  import opened Buffers
  import opened Polling
  import opened OutputPath
  import FileSend

  class TcpConnection {
    const channel: Channel
    const config: Config
    const inputBuffer: Buffer
    const outputBuffer: Buffer
    var state: StateE
    var notices: seq<Notice>
    var connectionCalls: seq<StateE>   // the state seen by each call of connectionCallback_
    var closeCalls: nat                // calls of closeCallback_
    var messageCalls: seq<seq<byte>>   // the input each call of messageCallback_ is shown
    var errorCalls: nat                // calls of handleError
    var jobs: seq<Job>                 // what other threads queued on the loop for this connection
    ghost var wire: seq<byte>
    ghost var halfCloses: nat
    ghost var closed: bool

    ghost function View(): Conn
      requires outputBuffer.Valid()
      reads this, channel, outputBuffer, outputBuffer.data
    {
      Conn(state, outputBuffer.Contents(), channel.IsWriting(), wire, notices, halfCloses, closed)
    }

    /** The objects are well formed, separate, and in step with the poller. */
    ghost predicate Joined()
      reads this, channel, outputBuffer, inputBuffer, channel.poller, channel.poller.all
    {
      && outputBuffer.Valid() && inputBuffer.Valid()
      && inputBuffer != outputBuffer && inputBuffer.data != outputBuffer.data
      && channel in channel.poller.all && channel.poller.Valid() && channel.OwnsFd()
    }

    /** Between connectEstablished and handleClose, the channel is registered and listens for
        reading always. */
    ghost predicate Attached()
      reads this, channel
    {
      && (state == Connected || state == Disconnecting) && !closed
      && channel.index == Added && Wants(channel.events, EPOLLIN) && Wants(channel.events, EPOLLPRI)
    }

    /** It also listens for writing, exactly while the output buffer holds bytes. */
    ghost predicate Live()
      reads this, channel, outputBuffer
    {
      Attached() && (channel.IsWriting() <==> outputBuffer.readerIndex < outputBuffer.writerIndex)
    }

    /** handleClose has run. Nothing is read any more; but shutdown() of another thread may
        have stored kDisconnecting since, and then a send may have asked for EPOLLOUT. */
    ghost predicate Over()
      reads this, channel
    {
      && closed && (state == Disconnected || state == Disconnecting)
      && (channel.events == NONE_EVENT || channel.events == WRITE_EVENT)
    }

    ghost predicate Valid()
      reads this, channel, outputBuffer, inputBuffer, channel.poller, channel.poller.all
    {
      Joined() && (Live() || Over())
    }

    /** While live, the kernel watches the fd and reports writability exactly when bytes are
        waiting; at any time it watches the fd exactly if the channel's index is kAdded. */
    lemma KernelFollowsBuffer()
      requires Valid()
      ensures Live() ==> channel.fd in channel.poller.kernel &&
                         var wanted := channel.poller.kernel[channel.fd].events;
                         && Wants(wanted, EPOLLIN) && Wants(wanted, EPOLLPRI)
                         && (Wants(wanted, EPOLLOUT) <==> outputBuffer.Contents() != [])
      ensures channel.fd in channel.poller.kernel <==> channel.index == Added
    {
      KernelHasAdded();
      if channel.index == Added {
        assert channel.poller.channels[channel.fd] == channel;
      }
    }

    lemma KernelHasAdded()
      requires Joined()
      ensures channel.fd in channel.poller.kernel <==> channel.index == Added
    {
      if channel.fd in channel.poller.kernel || channel.index == Added {
        assert channel.poller.channels[channel.fd] == channel;
      }
    }

    constructor (channel: Channel, config: Config)
      requires channel in channel.poller.all && channel.poller.Valid() && channel.OwnsFd()
      requires channel.index == New && channel.events == NONE_EVENT
      ensures this.channel == channel && this.config == config
      ensures fresh(inputBuffer) && fresh(outputBuffer) && fresh(inputBuffer.data) && fresh(outputBuffer.data)
      ensures Joined() && outputBuffer.Contents() == []
      ensures state == Connecting && !closed && wire == [] && notices == [] && halfCloses == 0
      ensures connectionCalls == [] && closeCalls == 0 && jobs == [] && messageCalls == [] && errorCalls == 0
    {
      this.channel, this.config := channel, config;
      jobs, messageCalls, errorCalls := [], [], 0;
      inputBuffer := new Buffer();
      outputBuffer := new Buffer();
      state, notices, connectionCalls, closeCalls := Connecting, [], [], 0;
      wire, halfCloses, closed := [], 0, false;
    }

    method ConnectEstablished()
      requires Joined() && state == Connecting && !closed && outputBuffer.Contents() == []
      requires channel.index == New && channel.events == NONE_EVENT
      modifies this`state, this`connectionCalls
      modifies channel`events, channel`index, channel.poller`channels, channel.poller`kernel
      ensures Valid() && Live() && state == Connected
      ensures wire == old(wire) && notices == old(notices) && halfCloses == old(halfCloses)
      ensures View() == Conn(Connected, [], false, wire, notices, halfCloses, false)
      ensures connectionCalls == old(connectionCalls) + [Connected]
    {
      NoBits();
      state := Connected;
      var ok := channel.EnableReading();
      connectionCalls := connectionCalls + [state];
    }

    method NoteHighWater(more: nat)
      requires outputBuffer.Valid()
      modifies this`notices
      ensures notices == old(notices) +
                if config.onHighWater && |outputBuffer.Contents()| < config.mark <= |outputBuffer.Contents()| + more
                then [HighWater(|outputBuffer.Contents()| + more)] else []
    {
      var oldLen := outputBuffer.ReadableBytes();
      if oldLen + more >= config.mark && oldLen < config.mark && config.onHighWater {
        notices := notices + [HighWater(oldLen + more)];
      }
    }

    /** Asks for EPOLLOUT if the channel does not have it yet. */
    method WantWriting()
      requires Joined() && outputBuffer.Contents() != [] && (Attached() || Over())
      modifies channel`events, channel`index, channel.poller`channels, channel.poller`kernel
      ensures Valid() && channel.IsWriting()
      ensures channel.index == if old(channel.IsWriting()) then old(channel.index) else Added
    {
      WriteBits();
      if !channel.IsWriting() {
        ghost var was := channel.events;
        var ok := channel.EnableWriting();
        SameReadBits(was, channel.events);
      }
    }

    /** Gives notice of a crossing of the high-water mark, and appends to the output buffer. */
    method AppendRest(rest: seq<byte>)
      requires Valid() && rest != []
      modifies this`notices, outputBuffer, outputBuffer.data
      ensures outputBuffer.data == old(outputBuffer.data) || fresh(outputBuffer.data)
      ensures Joined() && (Attached() || Over()) && outputBuffer.Contents() != []
      ensures outputBuffer.Contents() == old(outputBuffer.Contents()) + rest
      ensures notices == old(notices) +
                if config.onHighWater && |old(outputBuffer.Contents())| < config.mark
                                         <= |old(outputBuffer.Contents())| + |rest|
                then [HighWater(|old(outputBuffer.Contents())| + |rest|)] else []
    {
      NoteHighWater(|rest|);
      outputBuffer.Append(rest);
    }

    /** Appends to the output buffer what could not be written, and asks for EPOLLOUT. */
    method KeepRest(rest: seq<byte>)
      requires Valid() && rest != []
      modifies this`notices, outputBuffer, outputBuffer.data
      modifies channel`events, channel`index, channel.poller`channels, channel.poller`kernel
      ensures outputBuffer.data == old(outputBuffer.data) || fresh(outputBuffer.data)
      ensures Valid() && View() == Keep(config, old(View()), rest)
      ensures channel.index == if old(channel.IsWriting()) then old(channel.index) else Added
    {
      ghost var view := View();
      KeepMeans(config, view, rest);
      AppendRest(rest);
      WantWriting();
    }

    method SendInLoop(data: seq<byte>, r: WriteResult)
      requires Valid() && Fits(r, |data|)
      modifies this`notices, this`wire, outputBuffer, outputBuffer.data
      modifies channel`events, channel`index, channel.poller`channels, channel.poller`kernel
      ensures outputBuffer.data == old(outputBuffer.data) || fresh(outputBuffer.data)
      ensures Valid() && View() == OutputPath.SendInLoop(config, old(View()), data, r)
      ensures channel.index == if !old(channel.IsWriting()) && channel.IsWriting() then Added else old(channel.index)
    {
      if state == Disconnected {
        return;
      }
      var nwrote, remaining, faultError := 0, |data|, false;
      if !channel.IsWriting() && outputBuffer.ReadableBytes() == 0 {
        if r.Wrote? {
          nwrote := r.n;
          remaining := |data| - nwrote;
          wire := wire + data[..nwrote];
          if remaining == 0 && config.onComplete {
            notices := notices + [WriteComplete];
          }
        } else if r.errno != WouldBlock {
          faultError := r.errno == BrokenPipe || r.errno == ConnectionReset;
        }
      }
      if !faultError && remaining > 0 {
        assert data[0..] == data;
        KeepRest(data[nwrote..]);
      }
    }

    /** send(): on the loop's thread at once, from any other through the queue, with the
        address of the caller's string. */
    method Send(id: nat, data: seq<byte>, inLoopThread: bool, r: WriteResult)
      requires Valid() && Fits(r, |data|)
      modifies this`notices, this`wire, this`jobs, outputBuffer, outputBuffer.data
      modifies channel`events, channel`index, channel.poller`channels, channel.poller`kernel
      ensures outputBuffer.data == old(outputBuffer.data) || fresh(outputBuffer.data)
      ensures Valid()
      ensures View() == if old(state) == Connected && inLoopThread
                        then OutputPath.SendInLoop(config, old(View()), data, r) else old(View())
      ensures jobs == old(jobs) + if old(state) == Connected && !inLoopThread then [SendJob(id, data)] else []
    {
      assert jobs + [] == jobs;
      if state == Connected {
        if inLoopThread {
          SendInLoop(data, r);
        } else {
          jobs := jobs + [SendJob(id, data)];
        }
      }
    }

    method ShutdownInLoop()
      requires Joined()
      modifies this`halfCloses
      ensures View() == OutputPath.ShutdownInLoop(old(View()))
    {
      if !channel.IsWriting() {
        halfCloses := halfCloses + 1;
      }
    }

    /** shutdown(), when nothing comes between its test and its store. */
    method Shutdown(inLoopThread: bool)
      requires Valid()
      modifies this`state, this`halfCloses, this`jobs
      ensures Valid()
      ensures View() == if old(state) != Connected then old(View())
                        else if inLoopThread then OutputPath.ShutdownInLoop(old(View()).(state := Disconnecting))
                        else old(View()).(state := Disconnecting)
      ensures jobs == old(jobs) + if old(state) == Connected && !inLoopThread then [ShutdownJob] else []
    {
      assert jobs + [] == jobs;
      if state == Connected {
        if inLoopThread {
          state := Disconnecting;
          ShutdownInLoop();
        } else {
          ShutdownStore();
        }
      }
    }

    /** What is left of shutdown() on another thread after its test, in whatever state the
        loop's thread has put the connection meanwhile. */
    method ShutdownStore()
      requires Valid()
      modifies this`state, this`jobs
      ensures Valid() && View() == old(View()).(state := Disconnecting) && jobs == old(jobs) + [ShutdownJob]
    {
      state := Disconnecting;
      jobs := jobs + [ShutdownJob];
    }

    /** The loop runs the next of these functors; a send finds `seen` behind its pointer. */
    method RunJob(seen: seq<byte>, r: WriteResult)
      requires Valid() && jobs != [] && Fits(r, |seen|)
      modifies this`notices, this`wire, this`halfCloses, this`jobs, outputBuffer, outputBuffer.data
      modifies channel`events, channel`index, channel.poller`channels, channel.poller`kernel
      ensures outputBuffer.data == old(outputBuffer.data) || fresh(outputBuffer.data)
      ensures Valid() && jobs == old(jobs)[1..]
      ensures View() == if old(jobs)[0].SendJob? then OutputPath.SendInLoop(config, old(View()), seen, r)
                        else OutputPath.ShutdownInLoop(old(View()))
    {
      var job := jobs[0];
      jobs := jobs[1..];
      if job.SendJob? {
        SendInLoop(seen, r);
      } else {
        ShutdownInLoop();
      }
    }

    /** The part of handleWrite that runs when the buffer has just been emptied. */
    method Drained()
      requires Joined() && outputBuffer.Contents() == [] && channel.IsWriting() && (Attached() || Over())
      modifies this`notices, this`halfCloses
      modifies channel`events, channel`index, channel.poller`channels, channel.poller`kernel
      ensures Valid() && !channel.IsWriting() && (old(Attached()) ==> Live())
      ensures channel.index == if old(Attached()) then Added else Toggled(old(channel.index))
      ensures notices == old(notices) + if config.onComplete then [WriteComplete] else []
      ensures halfCloses == old(halfCloses) + if state == Disconnecting then 1 else 0
    {
      WriteBits();
      ghost var was := channel.events;
      var ok := channel.DisableWriting();
      SameReadBits(was, channel.events);
      ReadingIsSome(channel.events);
      if config.onComplete {
        notices := notices + [WriteComplete];
      }
      if state == Disconnecting {
        ShutdownInLoop();
      }
    }

    method HandleWrite(r: WriteResult)
      requires Valid() && Fits(r, |outputBuffer.Contents()|)
      modifies this`notices, this`wire, this`halfCloses, outputBuffer`readerIndex, outputBuffer`writerIndex
      modifies channel`events, channel`index, channel.poller`channels, channel.poller`kernel
      ensures Valid() && View() == OutputPath.HandleWrite(config, old(View()), r)
      ensures old(Live()) ==> Live()
      ensures channel.fd in channel.poller.kernel <==> channel.index == Added
      ensures old(Over()) ==>
                channel.index == if old(channel.IsWriting()) && !channel.IsWriting() then Toggled(old(channel.index))
                                 else old(channel.index)
    {
      if channel.IsWriting() && r.Wrote? && r.n > 0 {
        wire := wire + outputBuffer.Contents()[..r.n];
        outputBuffer.Retrieve(r.n);
        if outputBuffer.ReadableBytes() == 0 {
          Drained();
        }
      }
      KernelHasAdded();
    }

    /** Called on a live connection this withdraws the fd from the kernel. Called again it
        puts the fd back, with no event wanted: disableALL always calls update, and update on
        a deleted channel adds it. */
    method HandleClose()
      requires Valid()
      modifies this`state, this`closed, this`connectionCalls, this`closeCalls
      modifies channel`events, channel`index, channel.poller`channels, channel.poller`kernel
      ensures Valid() && Over() && channel.IsNoneEvent() && View() == OutputPath.HandleClose(old(View()))
      ensures channel.index == Toggled(old(channel.index)) && (old(Live()) ==> channel.index == Deleted)
      ensures connectionCalls == old(connectionCalls) + [Disconnected] && closeCalls == old(closeCalls) + 1
    {
      NoBits();
      state, closed := Disconnected, true;
      var ok := channel.DisableAll();
      connectionCalls := connectionCalls + [state];
      closeCalls := closeCalls + 1;
    }

    /** handleError reads and logs the socket's error. */
    method HandleError()
      modifies this`errorCalls
      ensures errorCalls == old(errorCalls) + 1
    {
      errorCalls := errorCalls + 1;
    }

    /** The choice handleRead makes by what readFd returned. */
    method AfterRead(outcome: ReadOutcome)
      requires Valid()
      modifies this`state, this`closed, this`connectionCalls, this`closeCalls, this`messageCalls, this`errorCalls
      modifies channel`events, channel`index, channel.poller`channels, channel.poller`kernel
      ensures Valid()
      ensures View() == if outcome == Count(0) then OutputPath.HandleClose(old(View())) else old(View())
      ensures closeCalls == old(closeCalls) + if outcome == Count(0) then 1 else 0
      ensures errorCalls == old(errorCalls) + if outcome.Failed? then 1 else 0
      ensures messageCalls == old(messageCalls)
                              + if outcome.Count? && 0 < outcome.n then [inputBuffer.Contents()] else []
      ensures channel.index == if outcome == Count(0) then Toggled(old(channel.index)) else old(channel.index)
      ensures outcome == Count(0) ==> channel.IsNoneEvent()
      ensures outcome != Count(0) ==> channel.events == old(channel.events)
    {
      assert messageCalls + [] == messageCalls;
      if outcome == Count(0) {
        HandleClose();
      } else if outcome.Count? {
        messageCalls := messageCalls + [inputBuffer.data[inputBuffer.readerIndex..inputBuffer.writerIndex]];
      } else if outcome.Failed? {
        HandleError();
      }
    }

    /** handleRead: the sign of what readFd returned decides between the message callback,
        handleClose and handleError. No claim is made once readFd has copied from beyond its
        spill. */
    method HandleRead(result: ReadResult) returns (outcome: ReadOutcome)
      requires Valid() && (result.Data? ==> |result.bytes| <= Offered(inputBuffer.WriteableBytes()))
      modifies this`state, this`closed, this`connectionCalls, this`closeCalls, this`messageCalls, this`errorCalls
      modifies inputBuffer, inputBuffer.data
      modifies channel`events, channel`index, channel.poller`channels, channel.poller`kernel
      ensures inputBuffer.data == old(inputBuffer.data) || fresh(inputBuffer.data)
      ensures Valid()
      ensures View() == if result == Data([]) then OutputPath.HandleClose(old(View())) else old(View())
      ensures closeCalls == old(closeCalls) + if result == Data([]) then 1 else 0
      ensures channel.index == if result == Data([]) then Toggled(old(channel.index)) else old(channel.index)
      ensures result == Data([]) ==> channel.IsNoneEvent()
      ensures result != Data([]) ==> channel.events == old(channel.events)
      ensures outcome.Undefined? <==> result.Data? && old(inputBuffer.WriteableBytes()) < |result.bytes| < EXTRA_SIZE
      ensures result.Error? ==> outcome == Failed(result.errno)
      ensures result.Data? && !outcome.Undefined? ==> outcome == Count(|result.bytes|)
      ensures ReadTakes(old(Input()), Input(), old(inputBuffer.WriteableBytes()), result)
    {
      outcome := inputBuffer.ReadFd(result);
      AfterRead(outcome);
    }

    ghost function Input(): Inbox
      requires inputBuffer.Valid()
      reads this, inputBuffer, inputBuffer.data
    {
      Inbox(inputBuffer.Contents(), messageCalls, errorCalls)
    }

    /** The branches of handleEventWithGuard up to the read. Data reaches the input buffer, and
        the message callback, exactly with EPOLLIN or EPOLLPRI. */
    method CloseAndRead(revents: Events, read: ReadResult)
      requires Valid() && (read.Data? ==> |read.bytes| <= Offered(inputBuffer.WriteableBytes()))
      modifies this`state, this`closed, this`connectionCalls, this`closeCalls, this`messageCalls, this`errorCalls
      modifies inputBuffer, inputBuffer.data
      modifies channel`events, channel`index, channel.poller`channels, channel.poller`kernel
      ensures inputBuffer.data == old(inputBuffer.data) || fresh(inputBuffer.data)
      ensures Valid() && closeCalls == old(closeCalls) + Closes(revents, read == Data([]))
      ensures channel.index == ToggledTimes(old(channel.index), Closes(revents, read == Data([])))
      ensures old(channel.index) == Added ==> (channel.index == Added <==> Closes(revents, read == Data([])) != 1)
      ensures if 0 < Closes(revents, read == Data([]))
              then Over() && channel.IsNoneEvent() && !channel.IsWriting()
                   && View() == OutputPath.HandleClose(old(View()))
              else View() == old(View()) && channel.events == old(channel.events)
      ensures channel.fd in channel.poller.kernel <==> channel.index == Added
      ensures Takes(old(Input()), Input(), old(inputBuffer.WriteableBytes()), revents, read)
    {
      NoBits();
      EitherReadBit(revents);
      ToggledTwice(channel.index);
      if Wants(revents, EPOLLHUP) && !Wants(revents, EPOLLIN) {
        HandleClose();
      }
      if Wants(revents, EPOLLERR) {
        HandleError();
      }
      if Wants(revents, READ_EVENT) {
        var outcome := HandleRead(read);
      }
      KernelHasAdded();
    }

    /** The last branch of handleEventWithGuard. */
    method WriteIfAsked(revents: Events, write: WriteResult)
      requires Valid() && Fits(write, |outputBuffer.Contents()|)
      modifies this`notices, this`wire, this`halfCloses, outputBuffer`readerIndex, outputBuffer`writerIndex
      modifies channel`events, channel`index, channel.poller`channels, channel.poller`kernel
      ensures Valid() && (channel.fd in channel.poller.kernel <==> channel.index == Added)
      ensures View() == if old(channel.IsWriting()) && Wants(revents, EPOLLOUT)
                        then OutputPath.HandleWrite(config, old(View()), write) else old(View())
      ensures Input() == old(Input())
      ensures channel.index == if old(closed && channel.IsWriting()) && !channel.IsWriting()
                               then Toggled(old(channel.index)) else old(channel.index)
    {
      if Wants(revents, EPOLLOUT) {
        HandleWrite(write);
      }
      KernelHasAdded();
    }

    /** Channel::handleEventWithGuard on this connection, in whatever state it is. One event
        closes it Closes(...) times, and every close toggles what the kernel watches: a live
        connection is withdrawn unless the event closes it twice. */
    method HandleEvent(revents: Events, read: ReadResult, write: WriteResult)
      requires Valid()
      requires read.Data? ==> |read.bytes| <= Offered(inputBuffer.WriteableBytes())
      requires Fits(write, |outputBuffer.Contents()|)
      modifies this`state, this`closed, this`connectionCalls, this`closeCalls, this`messageCalls, this`errorCalls
      modifies inputBuffer, inputBuffer.data
      modifies this`notices, this`wire, this`halfCloses, outputBuffer`readerIndex, outputBuffer`writerIndex
      modifies channel`events, channel`index, channel.poller`channels, channel.poller`kernel
      ensures Valid() && (inputBuffer.data == old(inputBuffer.data) || fresh(inputBuffer.data))
      ensures closeCalls == old(closeCalls) + Closes(revents, read == Data([]))
      ensures old(Live()) ==> (channel.fd in channel.poller.kernel <==> Closes(revents, read == Data([])) != 1)
      ensures View() == if 0 < Closes(revents, read == Data([])) then OutputPath.HandleClose(old(View()))
                        else if Wants(revents, EPOLLOUT) then OutputPath.HandleWrite(config, old(View()), write)
                        else old(View())
      ensures channel.index == if 0 < Closes(revents, read == Data([]))
                               then ToggledTimes(old(channel.index), Closes(revents, read == Data([])))
                               else if old(closed && channel.IsWriting()) && !channel.IsWriting()
                               then Toggled(old(channel.index)) else old(channel.index)
      ensures Takes(old(Input()), Input(), old(inputBuffer.WriteableBytes()), revents, read)
    {
      CloseAndRead(revents, read);
      WriteIfAsked(revents, write);
    }

    /** sendFile(): the round is run at once on the loop's thread, and queued from any other. */
    method SendFile(v: FileSend.Variant, file: seq<byte>, job: FileSend.FileJob, inLoopThread: bool, r: WriteResult)
      returns (next: FileSend.Round)
      requires Valid() && (r.Wrote? ==> FileSend.Sendable(file, job, r.n))
      modifies this`notices, this`wire
      ensures Valid()
      ensures (View(), next) == if old(state) != Connected then (old(View()), FileSend.Done)
                                else if inLoopThread then FileSend.SendFileInLoop(v, config, old(View()), file, job, r)
                                else (old(View()), FileSend.Again(job))
    {
      if state != Connected {
        return FileSend.Done;
      }
      if !inLoopThread {
        return FileSend.Again(job);
      }
      next := SendFileInLoop(v, file, job, r);
    }

    method SendFileInLoop(v: FileSend.Variant, file: seq<byte>, job: FileSend.FileJob, r: WriteResult)
      returns (next: FileSend.Round)
      requires Valid() && (r.Wrote? ==> FileSend.Sendable(file, job, r.n))
      modifies this`notices, this`wire
      ensures Valid()
      ensures (View(), next) == FileSend.SendFileInLoop(v, config, old(View()), file, job, r)
    {
      if state == Disconnected {
        return FileSend.Done;
      }
      var bytesSent := 0;
      if !channel.IsWriting() && outputBuffer.ReadableBytes() == 0 {
        if r.Wrote? {
          bytesSent := r.n;
          wire := wire + FileSend.Piece(file, job, r.n);
          if bytesSent == job.count && config.onComplete {
            notices := notices + [WriteComplete];
          }
        } else if r.errno == BrokenPipe || r.errno == ConnectionReset {
          return FileSend.Done;
        }
      }
      return FileSend.Next(v, job, bytesSent);
    }

    /** The state test never succeeds after handleClose, and then nothing but the removal of
        the channel is left to do. */
    method ConnectDestroyed()
      requires Valid()
      modifies this`state, this`connectionCalls
      modifies channel`events, channel`index, channel.poller`channels, channel.poller`kernel
      ensures Joined() && channel.index == New && (old(Over()) ==> Over())
      ensures channel.fd !in channel.poller.channels && channel.fd !in channel.poller.kernel
      ensures connectionCalls == old(connectionCalls) + if old(state) == Connected then [Disconnected] else []
      ensures old(closed) ==> state == old(state) && connectionCalls == old(connectionCalls)
      ensures state == if old(state) == Connected then Disconnected else old(state)
      ensures channel.events == if old(state) == Connected then NONE_EVENT else old(channel.events)
    {
      if state == Connected {
        state := Disconnected;
        var ok := channel.DisableAll();
        connectionCalls := connectionCalls + [state];
      }
      var ok := channel.Remove();
    }
  }

  /** What an update that leaves no event wanted does to a channel: one that is registered
      with the kernel is withdrawn, and any other is added. */
  function Toggled(index: Index): Index {
    if index == Added then Deleted else Added
  }

  function ToggledTimes(index: Index, n: nat): Index {
    if n == 0 then index else Toggled(ToggledTimes(index, n - 1))
  }

  /** The readable bytes of inputBuffer_, what messageCallback_ was shown, and how often
      handleError ran. */
  datatype Inbox = Inbox(contents: seq<byte>, messages: seq<seq<byte>>, errors: nat)

  /** What handleRead does to the input: as long as readFd stays within its spill, data is
      stored and the message callback shown all there is; a failure is counted; and neither
      happens at the end of the stream. */
  predicate ReadTakes(before: Inbox, after: Inbox, writeable: nat, read: ReadResult) {
    && after.errors == before.errors + (if read.Error? then 1 else 0)
    && (if read.Data? && read.bytes != [] then
          EXTRA_SIZE <= |read.bytes| <= Offered(writeable) || |read.bytes| <= writeable ==>
            && after.contents == before.contents + Stored(writeable, read.bytes)
            && after.messages == before.messages + [after.contents]
        else after.contents == before.contents && after.messages == before.messages)
  }

  /** What one event does to it: handleRead runs exactly with EPOLLIN or EPOLLPRI. */
  predicate Takes(before: Inbox, after: Inbox, writeable: nat, revents: Events, read: ReadResult) {
    var logged := before.(errors := before.errors + if Wants(revents, EPOLLERR) then 1 else 0);
    if Readable(revents) then ReadTakes(logged, after, writeable, read) else after == logged
  }

  /** The socket has data, ordinary or urgent. */
  predicate Readable(revents: Events) {
    Wants(revents, EPOLLIN) || Wants(revents, EPOLLPRI)
  }

  lemma ToggledTwice(index: Index)
    ensures ToggledTimes(index, 0) == index && ToggledTimes(index, 1) == Toggled(index)
    ensures ToggledTimes(index, 2) == Toggled(Toggled(index))
  {
    assert ToggledTimes(index, 1) == Toggled(ToggledTimes(index, 0));
  }

  lemma WriteBits()
    ensures Wants(WRITE_EVENT, WRITE_EVENT) && !Wants(WRITE_EVENT, READ_EVENT)
    ensures NONE_EVENT | WRITE_EVENT == WRITE_EVENT && WRITE_EVENT & !WRITE_EVENT == NONE_EVENT
    ensures !Wants(NONE_EVENT, READ_EVENT) && !Wants(NONE_EVENT, WRITE_EVENT)
  {
  }

  lemma KeepMeans(config: Config, c: Conn, rest: seq<byte>)
    requires rest != []
    ensures var crosses := config.onHighWater && |c.out| < config.mark <= |c.out| + |rest|;
            Keep(config, c, rest)
            == c.(out := c.out + rest, writing := true,
                  notices := c.notices + if crosses then [HighWater(|c.out| + |rest|)] else [])
  {
  }

  lemma ReadingIsSome(e: Events)
    ensures Wants(e, EPOLLIN) ==> e != NONE_EVENT
  {
    NoBits();
  }
}
