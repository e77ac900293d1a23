/** Channels, the kernel's interest list behind Epoll, and the table of connections (src/header/Channel.cpp,
    src/header/Epoll.cpp, src/header/ReactorMainServer.cpp). A mask of event bits is a set of flags. */
module Reactor {

  datatype Flag = IN | PRI | OUT | ERR | HUP | ET | ONESHOT

  /** One entry of the interest list: the mask, the channel in `data.ptr`, and whether events are delivered. */
  datatype Registration = Registration(events: set<Flag>, channel: nat, armed: bool)

  type Interest = map<nat, Registration>

  datatype Op = Add | Mod | Del

  datatype Option<T> = None | Some(value: T)

  /** `epoll_ctl`: ADD of a registered and MOD or DEL of an unregistered descriptor fail. ADD and MOD arm. */
  function Control(interest: Interest, op: Op, fd: nat, events: set<Flag>, channel: nat): Option<Interest> {
    match op
    case Add => if fd in interest then None else Some(interest[fd := Registration(events, channel, true)])
    case Mod => if fd in interest then Some(interest[fd := Registration(events, channel, true)]) else None
    case Del => if fd in interest then Some(interest - {fd}) else None
  }

  /** `epoll_wait` hands out an event of `fd`: a one-shot registration is disarmed. */
  function Delivered(interest: Interest, fd: nat): Interest
    requires fd in interest
  {
    var r := interest[fd];
    interest[fd := r.(armed := r.armed && ONESHOT !in r.events)]
  }

  datatype Callback = NoCallback | ReadCallback | ErrorCallback | CloseCallback

  /** Which callback HandleEvent calls. */
  function Dispatched(ready: set<Flag>, hasRead: bool, hasError: bool, hasClose: bool): Callback {
    if HUP in ready && IN !in ready && hasClose then CloseCallback
    else if ERR in ready && hasError then ErrorCallback
    else if (IN in ready || PRI in ready) && hasRead then ReadCallback
    else NoCallback
  }

  /** Sub-server of a descriptor. */
  function Hash(fd: nat, subServers: nat): (k: nat)
    requires subServers > 0
    ensures k < subServers && exists q: nat :: fd == q * subServers + k
  {
    assert fd == fd / subServers * subServers + fd % subServers;
    fd % subServers
  }

  class Epoll {
    var interest: Interest

    constructor ()
      ensures interest == map[]
    {
      interest := map[];
    }

    /** False stands for the exception. A channel is ADDed the first time and MODified afterwards. */
    method UpdateChannel(channel: Channel) returns (ok: bool)
      modifies this, channel`inEpoll
      ensures var r := Control(old(interest), if old(channel.inEpoll) then Mod else Add,
                               channel.fd, channel.events, channel.id);
              && ok == r.Some?
              && interest == (if ok then r.value else old(interest))
              && channel.inEpoll == (old(channel.inEpoll) || ok)
      ensures ok <==> (old(channel.inEpoll) <==> channel.fd in old(interest))
      ensures ok ==> interest == old(interest)[channel.fd := Registration(channel.events, channel.id, true)]
    {
      var op := if channel.inEpoll then Mod else Add;
      var r := Control(interest, op, channel.fd, channel.events, channel.id);
      if r.None? { return false; }
      interest := r.value;
      if !channel.inEpoll {
        channel.inEpoll := true;
      }
      ok := true;
    }

    method RemoveChannel(channel: Channel) returns (ok: bool)
      modifies this
      ensures ok == (channel.fd in old(interest))
      ensures interest == old(interest) - {channel.fd}
    {
      var r := Control(interest, Del, channel.fd, {}, channel.id);
      if r.None? {
        assert interest - {channel.fd} == interest;
        return false;
      }
      interest := r.value;
      ok := true;
    }

    /** The answer of `epoll_wait`, handed to the channels one by one. */
    method Start(events: seq<(Channel, set<Flag>)>) returns (active: seq<Channel>)
      requires forall i, j | 0 <= i < j < |events| :: events[i].0 != events[j].0
      modifies (set i | 0 <= i < |events| :: events[i].0)`readyEvents
      ensures |active| == |events|
      ensures forall i | 0 <= i < |events| ::
                active[i] == events[i].0 && active[i].readyEvents == events[i].1
    {
      active := [];
      for i := 0 to |events|
        invariant |active| == i
        invariant forall j | 0 <= j < i :: active[j] == events[j].0 && active[j].readyEvents == events[j].1
      {
        events[i].0.readyEvents := events[i].1;
        active := active + [events[i].0];
      }
    }
  }

  class Channel {
    const loop: Epoll
    const fd: nat
    const id: nat
    var events: set<Flag>
    var readyEvents: set<Flag>
    var inEpoll: bool
    var hasRead: bool
    var hasError: bool
    var hasClose: bool

    /** The flag says whether the kernel knows the channel, and the kernel's mask is the channel's. */
    ghost predicate Valid()
      reads this, loop
    {
      && (inEpoll <==> fd in loop.interest)
      && (inEpoll ==> loop.interest[fd].channel == id && loop.interest[fd].events == events)
    }

    constructor (loop: Epoll, fd: nat, id: nat)
      ensures Valid() <==> fd !in loop.interest
      ensures this.loop == loop && this.fd == fd && this.id == id
      ensures events == {} && readyEvents == {} && !inEpoll && !hasRead && !hasError && !hasClose
    {
      this.loop, this.fd, this.id := loop, fd, id;
      events, readyEvents, inEpoll := {}, {}, false;
      hasRead, hasError, hasClose := false, false, false;
    }

    /** Every mutator of the mask tells the kernel; in this state it never fails, and it arms the channel. */
    method Reset(mask: set<Flag>)
      requires Valid()
      modifies this`events, this`inEpoll, loop
      ensures Valid() && inEpoll && events == mask
      ensures loop.interest == old(loop.interest)[fd := Registration(mask, id, true)]
    {
      events := mask;
      var ok := loop.UpdateChannel(this);
    }

    method EnableRead()
      requires Valid()
      modifies this`events, this`inEpoll, loop
      ensures Valid() && inEpoll && events == old(events) + {IN, PRI}
      ensures loop.interest == old(loop.interest)[fd := Registration(events, id, true)]
    {
      Reset(events + {IN, PRI});
    }

    method DisableRead()
      requires Valid()
      modifies this`events, this`inEpoll, loop
      ensures Valid() && inEpoll && events == old(events) - {IN, PRI}
      ensures loop.interest == old(loop.interest)[fd := Registration(events, id, true)]
    {
      Reset(events - {IN, PRI});
    }

    method SetOneShot(flag: bool)
      requires Valid()
      modifies this`events, this`inEpoll, loop
      ensures Valid() && inEpoll
      ensures events == if flag then old(events) + {ONESHOT} else old(events) - {ONESHOT}
      ensures loop.interest == old(loop.interest)[fd := Registration(events, id, true)]
    {
      Reset(if flag then events + {ONESHOT} else events - {ONESHOT});
    }

    /** The name of the callback that runs. */
    method HandleEvent() returns (called: Callback)
      ensures called == Dispatched(readyEvents, hasRead, hasError, hasClose)
      ensures called == CloseCallback <==> hasClose && HUP in readyEvents && IN !in readyEvents
      ensures called == ErrorCallback <==> hasError && ERR in readyEvents && called != CloseCallback
      ensures called == ReadCallback <==>
                && hasRead && (IN in readyEvents || PRI in readyEvents)
                && called != CloseCallback && called != ErrorCallback
    {
      if HUP in readyEvents && IN !in readyEvents {
        if hasClose { return CloseCallback; }
      }
      if ERR in readyEvents {
        if hasError { return ErrorCallback; }
      }
      if IN in readyEvents || PRI in readyEvents {
        if hasRead { return ReadCallback; }
      }
      called := NoCallback;
    }
  }

  /** `connections_map_.insert`: an entry that is there already stays. */
  function Inserted(table: map<nat, nat>, fd: nat, connection: nat): map<nat, nat> {
    if fd in table then table else table[fd := connection]
  }

  class ConnectionTable {
    var connections: map<nat, nat>

    constructor ()
      ensures connections == map[]
    {
      connections := map[];
    }

    /** The accept callback, under the mutex. */
    method Insert(fd: nat, connection: nat)
      modifies this
      ensures connections == Inserted(old(connections), fd, connection)
      ensures connections == if fd in old(connections) then old(connections) else old(connections)[fd := connection]
    {
      if fd !in connections {
        connections := connections[fd := connection];
      }
    }

    /** The end of the close callback, under the mutex. */
    method Erase(fd: nat)
      modifies this
      ensures connections == old(connections) - {fd}
    {
      connections := connections - {fd};
    }
  }
}
