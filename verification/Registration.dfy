/**
 Channels and the event loop's registration of them: the loop's channels_ map on one side, the
 kernel's epoll interest table on the other, and the NEW/ADD/DELETE state in between.
 */
module Registration {
  datatype ChannelState = NEW | ADD | DELETE

  /** The EPOLLIN and EPOLLOUT bits of events_. */
  datatype Interest = Interest(recv: bool, send: bool)

  const NONE := Interest(false, false)

  // ----- On values -----

  datatype Chan = Chan(fd: int, events: Interest, state: ChannelState)

  /** channels_, and the kernel's table: what is watched, and the pointer handed back with it. */
  datatype Tables<Id> = Tables(channels: map<int, Id>, epoll: map<int, (Id, Interest)>)

  datatype EpollOp = CtlAdd | CtlMod | CtlDel

  /** The kernel accepts ADD for absent descriptors, MOD and DEL for present ones. */
  predicate CtlLegal<Id>(epoll: map<int, (Id, Interest)>, op: EpollOp, fd: int) {
    op.CtlAdd? <==> fd !in epoll
  }

  function AfterCtl<Id>(epoll: map<int, (Id, Interest)>, op: EpollOp, fd: int, id: Id, events: Interest)
    : map<int, (Id, Interest)>
  {
    if op.CtlDel? then epoll - {fd} else epoll[fd := (id, events)]
  }

  /** updateChannel: what it asserts, and what it does to the tables and to the channel. */
  predicate UpdateAsserts<Id>(t: Tables<Id>, ch: Chan) {
    && (ch.state.NEW? ==> ch.fd !in t.channels)
    && (ch.state.DELETE? ==> ch.fd in t.channels)
  }

  function UpdateOp(ch: Chan): EpollOp {
    if !ch.state.ADD? then CtlAdd else if ch.events == NONE then CtlDel else CtlMod
  }

  function AfterUpdate<Id>(t: Tables<Id>, id: Id, ch: Chan): Tables<Id> {
    Tables(
      if ch.state.NEW? then t.channels[ch.fd := id] else t.channels,
      AfterCtl(t.epoll, UpdateOp(ch), ch.fd, id, ch.events))
  }

  function ChanAfterUpdate(ch: Chan): Chan {
    ch.(state := if UpdateOp(ch).CtlDel? then DELETE else ADD)
  }

  /** removeChannel, and Channel::remove, which asserts that no interest is left. */
  predicate RemoveAsserts<Id>(t: Tables<Id>, ch: Chan) {
    ch.events == NONE && ch.fd in t.channels
  }

  function AfterRemove<Id>(t: Tables<Id>, ch: Chan): Tables<Id> {
    Tables(t.channels - {ch.fd}, if ch.state.ADD? then t.epoll - {ch.fd} else t.epoll)
  }

  // ----- On objects -----

  class EventLoop {
    var channels: map<int, Channel>
    var epoll: map<int, (Channel, Interest)>

    constructor ()
      ensures Valid() && channels == map[] && epoll == map[]
    {
      channels, epoll := map[], map[];
    }

    ghost function View(): Tables<Channel>
      reads this
    {
      Tables(channels, epoll)
    }

    /** Registration agreement: channels_ holds channels in state ADD or DELETE under their own
        descriptor, and the kernel watches exactly those in ADD, for exactly their events_. */
    ghost predicate Valid()
      reads this, channels.Values
    {
      && (forall fd <- channels :: channels[fd].fd == fd && channels[fd].loop == this && !channels[fd].state.NEW?)
      && (forall fd :: fd in epoll <==> fd in channels && channels[fd].state.ADD?)
      && (forall fd <- epoll :: epoll[fd] == (channels[fd], channels[fd].events))
    }

    method EpollCtl(op: EpollOp, ch: Channel)
      requires CtlLegal(epoll, op, ch.fd)
      modifies this`epoll
      ensures epoll == AfterCtl(old(epoll), op, ch.fd, ch, ch.events)
    {
      match op {
        case CtlDel => epoll := epoll - {ch.fd};
        case _ => epoll := epoll[ch.fd := (ch, ch.events)];
      }
    }

    /** Called with events_ already changed. Everything but that change was in agreement. */
    method UpdateChannel(ch: Channel)
      requires ch.loop == this && UpdateAsserts(View(), ch.View())
      requires ch.Placed()
      requires CtlLegal(epoll, UpdateOp(ch.View()), ch.fd)
      modifies this, ch`state
      ensures View() == AfterUpdate(old(View()), ch, old(ch.View()))
      ensures ch.View() == ChanAfterUpdate(old(ch.View()))
    {
      if ch.state == NEW || ch.state == DELETE {
        if ch.state == NEW {
          assert ch.fd !in channels;
          channels := channels[ch.fd := ch];
        } else {
          assert ch.fd in channels;
        }
        ch.state := ADD;
        EpollCtl(CtlAdd, ch);
      } else {
        if ch.events == NONE {
          EpollCtl(CtlDel, ch);
          ch.state := DELETE;
        } else {
          EpollCtl(CtlMod, ch);
        }
      }
    }

    method RemoveChannel(ch: Channel)
      requires ch.loop == this && ch.fd in channels
      requires ch.state.ADD? ==> CtlLegal(epoll, CtlDel, ch.fd)
      modifies this, ch`state
      ensures View() == AfterRemove(old(View()), old(ch.View()))
      ensures ch.View() == old(ch.View()).(state := NEW)
    {
      assert ch.fd in channels;
      channels := channels - {ch.fd};
      if ch.state == ADD {
        EpollCtl(CtlDel, ch);
      }
      ch.state := NEW;
    }
  }

  class Channel {
    const loop: EventLoop
    const fd: int
    var events: Interest
    var state: ChannelState

    constructor (loop: EventLoop, fd: int)
      ensures this.loop == loop && View() == Chan(fd, NONE, NEW)
    {
      this.loop, this.fd, events, state := loop, fd, NONE, NEW;
    }

    ghost function View(): Chan
      reads this
    {
      Chan(fd, events, state)
    }

    /** The channel's state says whether this very object is in the loop's map. */
    ghost predicate Placed()
      reads this, loop
    {
      state.NEW? <==> !(fd in loop.channels && loop.channels[fd] == this)
    }

    ghost predicate Registered()
      reads this, loop, loop.channels.Values
    {
      loop.Valid() && Placed()
    }

    /** The effect of update() with a new interest, for a loop in agreement: the agreement is
        kept, and nothing about the loop's other channels changes. */
    method SetInterest(e: Interest)
      requires Registered() && (state.NEW? ==> fd !in loop.channels)
      modifies this, loop
      ensures Registered()
      ensures events == e && !state.NEW?
      ensures state.DELETE? <==> old(state).ADD? && e == NONE
      ensures loop.channels == old(loop.channels)[fd := this]
      ensures loop.epoll == if state.ADD? then old(loop.epoll)[fd := (this, e)] else old(loop.epoll) - {fd}
    {
      events := e;
      loop.UpdateChannel(this);
    }

    method EnableSend()
      requires Registered() && (state.NEW? ==> fd !in loop.channels)
      modifies this, loop
      ensures Registered() && state.ADD? && events == old(events).(send := true)
      ensures loop.channels == old(loop.channels)[fd := this]
      ensures loop.epoll == old(loop.epoll)[fd := (this, events)]
    {
      SetInterest(events.(send := true));
    }

    method EnableRecv()
      requires Registered() && (state.NEW? ==> fd !in loop.channels)
      modifies this, loop
      ensures Registered() && state.ADD? && events == old(events).(recv := true)
      ensures loop.channels == old(loop.channels)[fd := this]
      ensures loop.epoll == old(loop.epoll)[fd := (this, events)]
    {
      SetInterest(events.(recv := true));
    }

    method DisableSend()
      requires Registered() && (state.NEW? ==> fd !in loop.channels)
      modifies this, loop
      ensures Registered() && events == old(events).(send := false)
      ensures loop.channels == old(loop.channels)[fd := this]
      ensures loop.epoll == if state.ADD? then old(loop.epoll)[fd := (this, events)] else old(loop.epoll) - {fd}
      ensures state.DELETE? <==> old(state).ADD? && events == NONE
    {
      SetInterest(events.(send := false));
    }

    method DisableRecv()
      requires Registered() && (state.NEW? ==> fd !in loop.channels)
      modifies this, loop
      ensures Registered() && events == old(events).(recv := false)
      ensures loop.channels == old(loop.channels)[fd := this]
      ensures loop.epoll == if state.ADD? then old(loop.epoll)[fd := (this, events)] else old(loop.epoll) - {fd}
      ensures state.DELETE? <==> old(state).ADD? && events == NONE
    {
      SetInterest(events.(recv := false));
    }

    /** Interest off. A watched channel leaves the kernel's table; any other one is put into it,
        with no events, which the kernel still reports errors and hang-ups for. */
    method DisableAll()
      requires Registered() && (state.NEW? ==> fd !in loop.channels)
      modifies this, loop
      ensures Registered() && events == NONE
      ensures loop.channels == old(loop.channels)[fd := this]
      ensures loop.epoll == if old(state).ADD? then old(loop.epoll) - {fd} else old(loop.epoll)[fd := (this, NONE)]
      ensures fd in loop.epoll <==> !old(state).ADD?
    {
      SetInterest(NONE);
    }

    /** After remove() neither table knows the channel, and the rest is as it was. */
    method Remove()
      requires Registered() && RemoveAsserts(loop.View(), View()) && !state.NEW?
      modifies this, loop
      ensures Registered() && state.NEW?
      ensures loop.channels == old(loop.channels) - {fd}
      ensures loop.epoll == old(loop.epoll) - {fd}
    {
      assert events == NONE;
      loop.RemoveChannel(this);
    }
  }
}
