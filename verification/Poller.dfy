/** Channels and the epoll bookkeeping: ads_Channel.h, ads_Channel.cc, ads_EPollPoller.cc
    and ads_Poller.cc. The kernel's interest set is a ghost field that only EpollCtl changes. */
module Polling {

  type Events = bv32

  const EPOLLIN: Events := 0x001
  const EPOLLPRI: Events := 0x002
  const EPOLLOUT: Events := 0x004
  const EPOLLERR: Events := 0x008
  const EPOLLHUP: Events := 0x010

  const NONE_EVENT: Events := 0
  const READ_EVENT: Events := EPOLLIN | EPOLLPRI
  const WRITE_EVENT: Events := EPOLLOUT

  const INIT_EVENT_LIST_SIZE: nat := 16

  /** kNew, kAdded and kDeleted. */
  datatype Index = New | Added | Deleted

  predicate Wants(events: Events, bits: Events) {
    events & bits != 0
  }

  // ---------- The order in which one event's callbacks run ----------

  datatype Handler = Close | Error | Read | Write

  /** handleEventWithGuard, with all four callbacks set. */
  function Dispatch(revents: Events): (calls: seq<Handler>)
    ensures Close in calls <==> Wants(revents, EPOLLHUP) && !Wants(revents, EPOLLIN)
    ensures Error in calls <==> Wants(revents, EPOLLERR)
    ensures Read in calls <==> Wants(revents, READ_EVENT)
    ensures Write in calls <==> Wants(revents, EPOLLOUT)
  {
    (if Wants(revents, EPOLLHUP) && !Wants(revents, EPOLLIN) then [Close] else [])
    + (if Wants(revents, EPOLLERR) then [Error] else [])
    + (if Wants(revents, READ_EVENT) then [Read] else [])
    + (if Wants(revents, EPOLLOUT) then [Write] else [])
  }

  function HandlerRank(h: Handler): nat {
    match h
    case Close => 0
    case Error => 1
    case Read => 2
    case Write => 3
  }

  /** Each handler runs at most once, and close before error before read before write. */
  lemma DispatchOrder(revents: Events)
    ensures forall i, j :: 0 <= i < j < |Dispatch(revents)| ==>
              HandlerRank(Dispatch(revents)[i]) < HandlerRank(Dispatch(revents)[j])
  {
  }

  /** How often one event calls handleClose: once from the hang-up branch, and once more
      from handleRead when the read it makes returns 0. */
  function Closes(revents: Events, readReturnsZero: bool): nat {
    (if Wants(revents, EPOLLHUP) && !Wants(revents, EPOLLIN) then 1 else 0)
    + (if Wants(revents, READ_EVENT) && readReturnsZero then 1 else 0)
  }

  /** One event closes the connection twice exactly when a hang-up arrives with urgent
      data but no ordinary data and the read then finds the end of the stream. */
  lemma ClosesTwice(revents: Events, readReturnsZero: bool)
    ensures Closes(revents, readReturnsZero) <= 2
    ensures Closes(revents, readReturnsZero) ==
            (if Close in Dispatch(revents) then 1 else 0)
            + (if Read in Dispatch(revents) && readReturnsZero then 1 else 0)
    ensures Closes(revents, readReturnsZero) == 2 <==>
              Wants(revents, EPOLLHUP) && Wants(revents, EPOLLPRI) && !Wants(revents, EPOLLIN) && readReturnsZero
  {
    if !Wants(revents, EPOLLIN) {
      assert revents & 1 == 0;
      assert (revents & 3 != 0) == (revents & 2 != 0);
    }
  }

  // ---------- Channels ----------

  class Channel {
    const poller: EPollPoller
    const fd: int
    var events: Events
    var revents: Events
    var index: Index

    constructor (poller: EPollPoller, fd: int)
      requires poller.Valid()
      modifies poller`all
      ensures this.poller == poller && this.fd == fd
      ensures events == NONE_EVENT && index == New
      ensures poller.all == old(poller.all) + {this} && poller.Valid()
    {
      this.poller, this.fd := poller, fd;
      events, revents, index := NONE_EVENT, 0, New;
      new;
      poller.all := poller.all + {this};
    }

    /** No other channel stands in the poller's table under this channel's fd. */
    predicate OwnsFd()
      reads this, poller
    {
      fd in poller.channels ==> poller.channels[fd] == this
    }

    predicate IsReading()
      reads this
    {
      Wants(events, READ_EVENT)
    }

    predicate IsWriting()
      reads this
    {
      Wants(events, WRITE_EVENT)
    }

    predicate IsNoneEvent()
      reads this
    {
      events == NONE_EVENT
    }

    /** The part shared by the five enable and disable methods: set the mask, tell the poller. */
    method SetEvents(mask: Events) returns (ok: bool)
      requires poller.Valid() && this in poller.all
      modifies this`events, this`index, poller`channels, poller`kernel
      ensures events == mask
      ensures index == if old(index) == Added && mask == NONE_EVENT then Deleted else Added
      ensures ok && poller.Valid() <==> old(OwnsFd())
      ensures old(OwnsFd()) ==> poller.channels == old(poller.channels)[fd := this]
      ensures old(OwnsFd()) && index == Added ==> poller.kernel == old(poller.kernel)[fd := Interest(this, mask)]
      ensures old(OwnsFd()) && index == Deleted ==> poller.kernel == old(poller.kernel) - {fd}
    {
      events := mask;
      ok := poller.UpdateChannel(this);
    }

    method EnableReading() returns (ok: bool)
      requires poller.Valid() && this in poller.all && OwnsFd()
      modifies this`events, this`index, poller`channels, poller`kernel
      ensures ok && poller.Valid() && OwnsFd() && index == Added
      ensures IsReading() && IsWriting() == old(IsWriting())
      ensures fd in poller.kernel && poller.kernel[fd].events == events
      ensures Wants(events, EPOLLIN) && Wants(events, EPOLLPRI)
      ensures SameBut(old(events), events, EPOLLIN | EPOLLPRI)
    {
      ReadOn(events);
      ok := SetEvents(events | READ_EVENT);
    }

    method EnableWriting() returns (ok: bool)
      requires poller.Valid() && this in poller.all && OwnsFd()
      modifies this`events, this`index, poller`channels, poller`kernel
      ensures ok && poller.Valid() && OwnsFd() && index == Added
      ensures IsWriting() && IsReading() == old(IsReading()) && events == old(events) | WRITE_EVENT
      ensures fd in poller.kernel && poller.kernel[fd].events == events && Wants(events, EPOLLOUT)
      ensures SameBut(old(events), events, EPOLLOUT)
    {
      WriteOn(events);
      ok := SetEvents(events | WRITE_EVENT);
    }

    method DisableReading() returns (ok: bool)
      requires poller.Valid() && this in poller.all && OwnsFd()
      modifies this`events, this`index, poller`channels, poller`kernel
      ensures ok && poller.Valid() && OwnsFd()
      ensures !IsReading() && IsWriting() == old(IsWriting())
      ensures fd in poller.kernel <==> index == Added
      ensures fd in poller.kernel ==> poller.kernel[fd].events == events
      ensures !Wants(events, EPOLLIN) && !Wants(events, EPOLLPRI)
      ensures SameBut(old(events), events, EPOLLIN | EPOLLPRI)
    {
      ReadOff(events);
      ok := SetEvents(events & !READ_EVENT);
    }

    method DisableWriting() returns (ok: bool)
      requires poller.Valid() && this in poller.all && OwnsFd()
      modifies this`events, this`index, poller`channels, poller`kernel
      ensures ok && poller.Valid() && OwnsFd()
      ensures index == if old(index) == Added && IsNoneEvent() then Deleted else Added
      ensures !IsWriting() && IsReading() == old(IsReading()) && events == old(events) & !WRITE_EVENT
      ensures fd in poller.kernel <==> index == Added
      ensures fd in poller.kernel ==> poller.kernel[fd].events == events
      ensures !Wants(events, EPOLLOUT)
      ensures SameBut(old(events), events, EPOLLOUT)
    {
      WriteOff(events);
      ok := SetEvents(events & !WRITE_EVENT);
    }

    method DisableAll() returns (ok: bool)
      requires poller.Valid() && this in poller.all && OwnsFd()
      modifies this`events, this`index, poller`channels, poller`kernel
      ensures ok && poller.Valid() && OwnsFd()
      ensures IsNoneEvent() && !IsReading() && !IsWriting()
      ensures index == if old(index) == Added then Deleted else Added
      ensures fd in poller.kernel <==> index == Added
    {
      NoBits();
      ok := SetEvents(NONE_EVENT);
    }

    method Remove() returns (ok: bool)
      requires poller.Valid() && this in poller.all && OwnsFd()
      modifies this`index, poller`channels, poller`kernel
      ensures ok && poller.Valid() && index == New
      ensures fd !in poller.channels && fd !in poller.kernel
    {
      ok := poller.RemoveChannel(this);
    }
  }

  /** Two masks that differ at most in the given bits. */
  predicate SameBut(a: Events, b: Events, bits: Events) {
    a | bits == b | bits
  }

  lemma Masks()
    ensures READ_EVENT == 3 && WRITE_EVENT == 4 && EPOLLIN | EPOLLPRI == 3
    ensures !READ_EVENT == 0xFFFF_FFFC && !WRITE_EVENT == 0xFFFF_FFFB
  {
  }

  lemma ReadSet(e: Events)
    ensures (e | 3) & 1 == 1 && (e | 3) & 2 == 2 && (e | 3) & 3 == 3 && (e | 3) & 4 == e & 4
    ensures e | 3 == (e | 3) | 3 && e | 3 != 0
  {
  }

  lemma ReadCleared(e: Events)
    ensures (e & 0xFFFF_FFFC) & 1 == 0 && (e & 0xFFFF_FFFC) & 2 == 0 && (e & 0xFFFF_FFFC) & 3 == 0
    ensures (e & 0xFFFF_FFFC) & 4 == e & 4 && e | 3 == (e & 0xFFFF_FFFC) | 3
  {
  }

  lemma WriteSet(e: Events)
    ensures (e | 4) & 4 == 4 && (e | 4) & 3 == e & 3 && e | 4 == (e | 4) | 4 && e | 4 != 0
  {
  }

  lemma WriteCleared(e: Events)
    ensures (e & 0xFFFF_FFFB) & 4 == 0 && (e & 0xFFFF_FFFB) & 3 == e & 3 && e | 4 == (e & 0xFFFF_FFFB) | 4
  {
  }

  lemma ReadOn(e: Events)
    ensures Wants(e | READ_EVENT, EPOLLIN) && Wants(e | READ_EVENT, EPOLLPRI) && Wants(e | READ_EVENT, READ_EVENT)
    ensures SameBut(e, e | READ_EVENT, EPOLLIN | EPOLLPRI)
    ensures Wants(e | READ_EVENT, WRITE_EVENT) == Wants(e, WRITE_EVENT) && e | READ_EVENT != NONE_EVENT
  {
    Masks();
    ReadSet(e);
    ReadOnSame(e);
  }

  lemma ReadOnSame(e: Events)
    ensures SameBut(e, e | READ_EVENT, EPOLLIN | EPOLLPRI)
  {
    Masks();
    ReadSet(e);
  }

  lemma ReadOff(e: Events)
    ensures !Wants(e & !READ_EVENT, EPOLLIN) && !Wants(e & !READ_EVENT, EPOLLPRI) && !Wants(e & !READ_EVENT, READ_EVENT)
    ensures SameBut(e, e & !READ_EVENT, EPOLLIN | EPOLLPRI)
    ensures Wants(e & !READ_EVENT, WRITE_EVENT) == Wants(e, WRITE_EVENT)
  {
    Masks();
    ReadCleared(e);
    ReadOffSame(e);
  }

  lemma ReadOffSame(e: Events)
    ensures SameBut(e, e & !READ_EVENT, EPOLLIN | EPOLLPRI)
  {
    Masks();
    ReadCleared(e);
  }

  lemma WriteOn(e: Events)
    ensures Wants(e | WRITE_EVENT, EPOLLOUT) && Wants(e | WRITE_EVENT, WRITE_EVENT)
    ensures SameBut(e, e | WRITE_EVENT, EPOLLOUT)
    ensures Wants(e | WRITE_EVENT, READ_EVENT) == Wants(e, READ_EVENT) && e | WRITE_EVENT != NONE_EVENT
  {
    Masks();
    WriteSet(e);
    WriteOnSame(e);
  }

  lemma WriteOnSame(e: Events)
    ensures SameBut(e, e | WRITE_EVENT, EPOLLOUT)
  {
    Masks();
    WriteSet(e);
  }

  lemma WriteOff(e: Events)
    ensures !Wants(e & !WRITE_EVENT, EPOLLOUT) && !Wants(e & !WRITE_EVENT, WRITE_EVENT)
    ensures SameBut(e, e & !WRITE_EVENT, EPOLLOUT)
    ensures Wants(e & !WRITE_EVENT, READ_EVENT) == Wants(e, READ_EVENT)
  {
    Masks();
    WriteCleared(e);
    WriteOffSame(e);
  }

  lemma WriteOffSame(e: Events)
    ensures SameBut(e, e & !WRITE_EVENT, EPOLLOUT)
  {
    Masks();
    WriteCleared(e);
  }

  lemma SameReadBits(a: Events, b: Events)
    requires SameBut(a, b, EPOLLOUT)
    ensures Wants(a, EPOLLIN) == Wants(b, EPOLLIN) && Wants(a, EPOLLPRI) == Wants(b, EPOLLPRI)
  {
    OrKeepsReadBits(a);
    OrKeepsReadBits(b);
  }

  lemma OrKeepsReadBits(e: Events)
    ensures (e | 4) & 1 == e & 1 && (e | 4) & 2 == e & 2
  {
  }

  /** The reading branch of handleEventWithGuard tests for either bit. */
  lemma EitherReadBit(e: Events)
    ensures Wants(e, READ_EVENT) <==> Wants(e, EPOLLIN) || Wants(e, EPOLLPRI)
  {
    Masks();
    EitherBit(e);
  }

  lemma EitherBit(e: Events)
    ensures e & 3 != 0 <==> e & 1 != 0 || e & 2 != 0
  {
  }

  lemma NoBits()
    ensures !Wants(NONE_EVENT, READ_EVENT) && !Wants(NONE_EVENT, WRITE_EVENT)
  {
  }

  // ---------- The poller ----------

  /** What the kernel holds for one registered fd: the data pointer and the event mask. */
  datatype Interest = Interest(channel: Channel, events: Events)

  datatype Operation = Add | Mod | Del

  class EPollPoller {
    var channels: map<int, Channel>
    var capacity: nat
    var kernel: map<int, Interest>
    ghost var all: set<Channel>

    /** The table, the indices and the kernel agree; only the event masks of the channels
        in `changing` may differ from what the kernel was last told. */
    ghost predicate Agrees(changing: set<Channel>)
      reads this, all
    {
      && (forall c :: c in all ==> c.poller == this && (c.index != New <==> c.fd in channels && channels[c.fd] == c))
      && (forall fd :: fd in channels ==> channels[fd] in all && channels[fd].fd == fd)
      && (forall fd :: fd in kernel <==> fd in channels && channels[fd].index == Added)
      && (forall fd :: fd in kernel ==> kernel[fd].channel == channels[fd])
      && (forall fd :: fd in kernel && channels[fd] !in changing ==> kernel[fd].events == channels[fd].events)
    }

    ghost predicate Valid()
      reads this, all
    {
      Agrees({})
    }

    constructor ()
      ensures Valid() && channels == map[] && all == {} && capacity == 16
    {
      channels, kernel, all, capacity := map[], map[], {}, INIT_EVENT_LIST_SIZE;
    }

    /** epoll_ctl: fails, changing nothing, on an ADD of a present fd or a MOD or DEL of an
        absent one. The callers only log a failure. */
    method EpollCtl(op: Operation, c: Channel) returns (ok: bool)
      modifies this`kernel
      ensures ok <==> (op == Add <==> c.fd !in old(kernel))
      ensures !ok ==> kernel == old(kernel)
      ensures ok && op == Del ==> kernel == old(kernel) - {c.fd}
      ensures ok && op != Del ==> kernel == old(kernel)[c.fd := Interest(c, c.events)]
    {
      ok := op == Add <==> c.fd !in kernel;
      if ok {
        kernel := if op == Del then kernel - {c.fd} else kernel[c.fd := Interest(c, c.events)];
      }
    }

    /** Every epoll_ctl succeeds and the bookkeeping still agrees exactly when no other
        channel stands in the table under the same fd. */
    method UpdateChannel(c: Channel) returns (ok: bool)
      requires Agrees({c}) && c in all
      modifies c`index, this`channels, this`kernel
      ensures c.index == if old(c.index) == Added && c.events == NONE_EVENT then Deleted else Added
      ensures ok && Valid() <==> old(c.OwnsFd())
      ensures old(c.OwnsFd()) ==> channels == old(channels)[c.fd := c]
      ensures old(c.OwnsFd()) && c.index == Added ==> kernel == old(kernel)[c.fd := Interest(c, c.events)]
      ensures old(c.OwnsFd()) && c.index == Deleted ==> kernel == old(kernel) - {c.fd}
    {
      ghost var rival := if c.fd in channels then channels[c.fd] else c;
      if c.index == New || c.index == Deleted {
        if c.index == New {
          channels := channels[c.fd := c];
        }
        c.index := Added;
        ok := EpollCtl(Add, c);
      } else if c.events == NONE_EVENT {
        ok := EpollCtl(Del, c);
        c.index := Deleted;
      } else {
        ok := EpollCtl(Mod, c);
      }
      if rival == c {
        assert ok && Valid();
      } else {
        assert rival in all && rival.index != New && channels[rival.fd] != rival;
      }
    }

    method RemoveChannel(c: Channel) returns (ok: bool)
      requires Agrees({c}) && c in all
      modifies c`index, this`channels, this`kernel
      ensures c.index == New
      ensures ok && Valid() <==> old(c.OwnsFd())
      ensures channels == old(channels) - {c.fd}
      ensures old(c.OwnsFd()) ==> kernel == old(kernel) - {c.fd}
    {
      ghost var rival := if c.fd in channels then channels[c.fd] else c;
      channels := channels - {c.fd};
      ok := true;
      if c.index == Added {
        ok := EpollCtl(Del, c);
      }
      c.index := New;
      if rival == c {
        assert ok && Valid();
      } else {
        assert rival in all && rival.index != New && rival.fd !in channels;
      }
    }

    predicate HasChannel(c: Channel)
      reads this, c
    {
      c.fd in channels && channels[c.fd] == c
    }

    /** What epoll_wait may report: at most as many events as the list holds, each for an
        fd in the kernel's set, with the pointer stored there, and no fd twice. */
    ghost predicate Reportable(ready: seq<Interest>)
      reads this
    {
      && |ready| <= capacity
      && (forall i :: 0 <= i < |ready| ==>
            ready[i].channel.fd in kernel && kernel[ready[i].channel.fd].channel == ready[i].channel)
      && (forall i, j :: 0 <= i < j < |ready| ==> ready[i].channel != ready[j].channel)
    }

    /** poll: every channel handed to the loop is registered, in the order reported, with its
        own event bits; a full event list doubles. */
    method Poll(ready: seq<Interest>) returns (active: seq<Channel>)
      requires Valid() && 0 < capacity && Reportable(ready)
      modifies this`capacity, (set r | r in ready :: r.channel)`revents
      ensures Valid() && |active| == |ready|
      ensures forall i :: 0 <= i < |active| ==>
                active[i] == ready[i].channel && active[i].revents == ready[i].events && HasChannel(active[i])
      ensures capacity == if |ready| == old(capacity) then 2 * old(capacity) else old(capacity)
    {
      active := FillActiveChannels(ready);
      if 0 < |ready| && |ready| == capacity {
        capacity := 2 * capacity;
      }
    }

    method FillActiveChannels(ready: seq<Interest>) returns (active: seq<Channel>)
      requires forall i, j :: 0 <= i < j < |ready| ==> ready[i].channel != ready[j].channel
      modifies (set r | r in ready :: r.channel)`revents
      ensures |active| == |ready|
      ensures forall i :: 0 <= i < |active| ==>
                active[i] == ready[i].channel && active[i].revents == ready[i].events
    {
      active := [];
      for i := 0 to |ready|
        invariant |active| == i
        invariant forall k :: 0 <= k < i ==> active[k] == ready[k].channel && active[k].revents == ready[k].events
      {
        var c := ready[i].channel;
        assert ready[i] in ready;
        c.revents := ready[i].events;
        active := active + [c];
      }
    }
  }
}
