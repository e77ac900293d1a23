/** Two runs that leak, of a server with one sub-server, one worker and one connection of descriptor 0. */
module LifecycleLeaks {
  import opened Reactor
  import opened ConnectionIo
  import opened Lifecycle
  import opened LifecycleSafety
  import opened LifecycleCleanup

  function Small(k: Conn, interest: Interest, table: map<nat, Id>, active: seq<Id>, queue: seq<Id>,
                 acceptor: Acceptor, worker: Worker): State
  {
    State([k], {0}, interest, table, [active], queue, acceptor, [worker], false)
  }

  function Fresh(phase: Phase, ready: set<Flag>): Conn {
    Conn(0, MASK, ready, false, false, false, false, false, false,
         phase, 1, 0, 0, if phase == Idle then 0 else 1, 0, 0, RecvPending, false, false, false, false, false)
  }

  function Known(armed: bool): Interest { map[0 := Registration(MASK, 0, armed)] }

  lemma Accepts(s: State, t: State)
    requires s == Initial({}, 1, 1)
    requires t == Small(Fresh(Idle, {}).(adds := 0), map[], map[], [], [], Adding(0), Free)
    ensures Enabled(s, Step.Accept(0)) && Next(s, Step.Accept(0)) == t
  {
    assert s.active == [[]] && s.workers == [Free];
    assert Next(s, Step.Accept(0)).conns == t.conns;
  }

  lemma Registers(s: State, t: State)
    requires s == Small(Fresh(Idle, {}).(adds := 0), map[], map[], [], [], Adding(0), Free)
    requires t == Small(Fresh(Idle, {}), Known(true), map[], [], [], Flagging(0), Free)
    ensures Enabled(s, Register) && Next(s, Register) == t
  {
    assert Next(s, Register).conns == t.conns;
  }

  lemma Arrives(s: State, t: State)
    requires s == Small(Fresh(Idle, {}), Known(true), map[], [], [], Flagging(0), Free)
    requires t == Small(Fresh(Active, {IN}), Known(false), map[], [0], [], Flagging(0), Free)
    ensures Enabled(s, Deliver(0, {IN})) && Next(s, Deliver(0, {IN})) == t
  {
    var u := Next(s, Deliver(0, {IN}));
    assert [] + [0] == [0 as Id];
    assert u.active == [[0]] && u.conns == t.conns;
    assert u.interest == Known(false);
  }

  lemma Commits(s: State, t: State)
    requires s == Small(Fresh(Active, {IN}), Known(false), map[], [0], [], Flagging(0), Free)
    requires t == Small(Fresh(Queued, {IN}), Known(false), map[], [], [0], Flagging(0), Free)
    ensures Enabled(s, Commit(0)) && Next(s, Commit(0)) == t
  {
    assert s.active[0][1..] == [] && s.queue + [0] == [0];
    assert Next(s, Commit(0)).active == [[]] && Next(s, Commit(0)).conns == t.conns;
  }

  lemma SmallCommitted() returns (s: State)
    ensures Reached(s) && s == Small(Fresh(Queued, {IN}), Known(false), map[], [], [0], Flagging(0), Free)
  {
    var s0 := Initial({}, 1, 1);
    assert Legal(s0, []) && s0 == After(s0, []);
    assert Reached(s0);
    hide *;
    var s1 := Small(Fresh(Idle, {}).(adds := 0), map[], map[], [], [], Adding(0), Free);
    Accepts(s0, s1);
    ReachedStep(s0, Step.Accept(0));
    var s2 := Small(Fresh(Idle, {}), Known(true), map[], [], [], Flagging(0), Free);
    Registers(s1, s2);
    ReachedStep(s1, Register);
    var s3 := Small(Fresh(Active, {IN}), Known(false), map[], [0], [], Flagging(0), Free);
    Arrives(s2, s3);
    ReachedStep(s2, Deliver(0, {IN}));
    s := Small(Fresh(Queued, {IN}), Known(false), map[], [], [0], Flagging(0), Free);
    Commits(s3, s);
    ReachedStep(s3, Commit(0));
  }

  /** The event is handled before the accepting thread has set the read callback, so that the handler does nothing. */
  lemma LeakHappens() returns (s: State)
    ensures Reached(s) && |s.conns| == 1 && s.acceptor == Flagging(0) && Leaked(s, 0)
    ensures var k := s.conns[0]; k.phase == Handled && Readable(k) && !k.declined && k.messageCalls == 0
  {
    var t := SmallCommitted();
    hide Reached;
    var u := Small(Fresh(Busy(0), {IN}), Known(false), map[], [], [], Flagging(0), Entering(0));
    ReachedStep(t, Dequeue(0));
    assert Next(t, Dequeue(0)) == u;
    ReachedStep(u, Enter(0));
    s := Next(u, Enter(0));
    CleanIff(s, 0);
  }

  function SetUp(phase: Phase): Conn {
    Fresh(phase, {IN}).(inEpoll := true, hasRead := true, shared := true, hasMessage := true, hasClose := true)
  }

  function IsKnown(): Conn { Fresh(Queued, {IN}).(inEpoll := true) }

  function HasRead(): Conn { IsKnown().(hasRead := true) }

  function IsShared(): Conn { HasRead().(shared := true) }

  function Heard(): Conn { SetUp(Busy(0)).(heard := Ready) }

  function Called(): Conn { Heard().(messageCalls := 1) }

  function Replied(): Conn { Called().(sent := true) }

  function TooSoon(): Conn { Replied().(closeCalls := 1, dels := 1, missed := true) }

  function Over(): Conn { TooSoon().(inserted := true, phase := Handled) }

  lemma Flags(s: State, t: State)
    requires s == Small(Fresh(Queued, {IN}), Known(false), map[], [], [0], Flagging(0), Free)
    requires t == Small(IsKnown(), Known(false), map[], [], [0], SettingRead(0), Free)
    ensures Enabled(s, SetFlag) && Next(s, SetFlag) == t
  {
  }

  lemma SetsRead(s: State, t: State)
    requires s == Small(IsKnown(), Known(false), map[], [], [0], SettingRead(0), Free)
    requires t == Small(HasRead(), Known(false), map[], [], [0], Sharing(0), Free)
    ensures Enabled(s, SetRead) && Next(s, SetRead) == t
  {
  }

  lemma Shares(s: State, t: State)
    requires s == Small(HasRead(), Known(false), map[], [], [0], Sharing(0), Free)
    requires t == Small(IsShared(), Known(false), map[], [], [0], SettingMessage(0), Free)
    ensures Enabled(s, Share) && Next(s, Share) == t
  {
  }

  lemma SetsMessage(s: State, t: State)
    requires s == Small(IsShared(), Known(false), map[], [], [0], SettingMessage(0), Free)
    requires t == Small(SetUp(Queued).(hasClose := false), Known(false), map[], [], [0], SettingClose(0), Free)
    ensures Enabled(s, SetMessage) && Next(s, SetMessage) == t
  {
  }

  lemma SetsClose(s: State, t: State)
    requires s == Small(SetUp(Queued).(hasClose := false), Known(false), map[], [], [0], SettingClose(0), Free)
    requires t == Small(SetUp(Queued), Known(false), map[], [], [0], Inserting(0), Free)
    ensures Enabled(s, SetClose) && Next(s, SetClose) == t
  {
  }

  lemma Dequeues(s: State, t: State)
    requires s == Small(SetUp(Queued), Known(false), map[], [], [0], Inserting(0), Free)
    requires t == Small(SetUp(Busy(0)), Known(false), map[], [], [], Inserting(0), Entering(0))
    ensures Enabled(s, Dequeue(0)) && Next(s, Dequeue(0)) == t
  {
  }

  lemma Enters(s: State, t: State)
    requires s == Small(SetUp(Busy(0)), Known(false), map[], [], [], Inserting(0), Entering(0))
    requires t == Small(SetUp(Busy(0)), Known(false), map[], [], [], Inserting(0), Receiving(0))
    ensures Enabled(s, Enter(0)) && Next(s, Enter(0)) == t
  {
  }

  lemma Receives(s: State, t: State)
    requires s == Small(SetUp(Busy(0)), Known(false), map[], [], [], Inserting(0), Receiving(0))
    requires t == Small(Heard(), Known(false), map[], [], [], Inserting(0), Messaging(0))
    ensures Enabled(s, Recv(0, RecvWouldBlock)) && Next(s, Recv(0, RecvWouldBlock)) == t
  {
  }

  lemma CallsMessage(s: State, t: State)
    requires s == Small(Heard(), Known(false), map[], [], [], Inserting(0), Messaging(0))
    requires t == Small(Called(), Known(false), map[], [], [], Inserting(0), InCallback(0, true))
    ensures Enabled(s, CallMessage(0)) && Next(s, CallMessage(0)) == t
  {
  }

  lemma CallsSend(s: State, t: State)
    requires s == Small(Called(), Known(false), map[], [], [], Inserting(0), InCallback(0, true))
    requires t == Small(Replied(), Known(false), map[], [], [], Inserting(0), Sending(0))
    ensures Enabled(s, CallSend(0)) && Next(s, CallSend(0)) == t
  {
  }

  lemma Sends(s: State, t: State)
    requires s == Small(Replied(), Known(false), map[], [], [], Inserting(0), Sending(0))
    requires t == Small(Replied(), Known(false), map[], [], [], Inserting(0), Closing(0, true))
    ensures Enabled(s, Send(0, true)) && Next(s, Send(0, true)) == t
  {
  }

  lemma CallsClose(s: State, t: State)
    requires s == Small(Replied(), Known(false), map[], [], [], Inserting(0), Closing(0, true))
    requires t == Small(Replied().(closeCalls := 1), Known(false), map[], [], [], Inserting(0), Deleting(0, true))
    ensures Enabled(s, CallClose(0)) && Next(s, CallClose(0)) == t
  {
  }

  lemma Deletes(s: State, t: State)
    requires s == Small(Replied().(closeCalls := 1), Known(false), map[], [], [], Inserting(0), Deleting(0, true))
    requires t == Small(Replied().(closeCalls := 1, dels := 1), map[], map[], [], [], Inserting(0), Erasing(0, true))
    ensures Enabled(s, Delete(0)) && Next(s, Delete(0)) == t
  {
  }

  lemma ErasesNothing(s: State, t: State)
    requires s == Small(Replied().(closeCalls := 1, dels := 1), map[], map[], [], [], Inserting(0), Erasing(0, true))
    requires t == Small(TooSoon(), map[], map[], [], [], Inserting(0), Closed(0, true))
    ensures Enabled(s, Erase(0)) && Next(s, Erase(0)) == t
  {
  }

  lemma Inserts(s: State, t: State)
    requires s == Small(TooSoon(), map[], map[], [], [], Inserting(0), Closed(0, true))
    requires t == Small(TooSoon().(inserted := true), map[], map[0 := 0], [], [], Releasing(0), Closed(0, true))
    ensures Enabled(s, Insert) && Next(s, Insert) == t
  {
  }

  lemma Leaves(s: State, t: State)
    requires s == Small(TooSoon().(inserted := true), map[], map[0 := 0], [], [], Releasing(0), Closed(0, true))
    requires t == Small(TooSoon().(inserted := true), map[], map[0 := 0], [], [], Releasing(0), InCallback(0, false))
    ensures Enabled(s, LeaveClose(0)) && Next(s, LeaveClose(0)) == t
  {
  }

  lemma Returns(s: State, t: State)
    requires s == Small(TooSoon().(inserted := true), map[], map[0 := 0], [], [], Releasing(0), InCallback(0, false))
    requires t == Small(Over(), map[], map[0 := 0], [], [], Releasing(0), Free)
    ensures Enabled(s, Return(0)) && Next(s, Return(0)) == t
  {
  }

  lemma SetsUp(s: State) returns (t: State)
    requires Reached(s) && s == Small(Fresh(Queued, {IN}), Known(false), map[], [], [0], Flagging(0), Free)
    ensures Reached(t) && t == Small(SetUp(Queued), Known(false), map[], [], [0], Inserting(0), Free)
  {
    hide *;
    t := s;
    var u: State;
    u := Small(IsKnown(), Known(false), map[], [], [0], SettingRead(0), Free);
    Flags(t, u);
    ReachedStep(t, SetFlag);
    t := u;
    u := Small(HasRead(), Known(false), map[], [], [0], Sharing(0), Free);
    SetsRead(t, u);
    ReachedStep(t, SetRead);
    t := u;
    u := Small(IsShared(), Known(false), map[], [], [0], SettingMessage(0), Free);
    Shares(t, u);
    ReachedStep(t, Share);
    t := u;
    u := Small(SetUp(Queued).(hasClose := false), Known(false), map[], [], [0], SettingClose(0), Free);
    SetsMessage(t, u);
    ReachedStep(t, SetMessage);
    t := u;
    u := Small(SetUp(Queued), Known(false), map[], [], [0], Inserting(0), Free);
    SetsClose(t, u);
    ReachedStep(t, SetClose);
    t := u;
  }

  lemma Replies(s: State) returns (t: State)
    requires Reached(s) && s == Small(SetUp(Queued), Known(false), map[], [], [0], Inserting(0), Free)
    ensures Reached(t) && t == Small(Replied(), Known(false), map[], [], [], Inserting(0), Closing(0, true))
  {
    hide *;
    t := s;
    var u: State;
    u := Small(SetUp(Busy(0)), Known(false), map[], [], [], Inserting(0), Entering(0));
    Dequeues(t, u);
    ReachedStep(t, Dequeue(0));
    t := u;
    u := Small(SetUp(Busy(0)), Known(false), map[], [], [], Inserting(0), Receiving(0));
    Enters(t, u);
    ReachedStep(t, Enter(0));
    t := u;
    u := Small(Heard(), Known(false), map[], [], [], Inserting(0), Messaging(0));
    Receives(t, u);
    ReachedStep(t, Recv(0, RecvWouldBlock));
    t := u;
    u := Small(Called(), Known(false), map[], [], [], Inserting(0), InCallback(0, true));
    CallsMessage(t, u);
    ReachedStep(t, CallMessage(0));
    t := u;
    u := Small(Replied(), Known(false), map[], [], [], Inserting(0), Sending(0));
    CallsSend(t, u);
    ReachedStep(t, CallSend(0));
    t := u;
    u := Small(Replied(), Known(false), map[], [], [], Inserting(0), Closing(0, true));
    Sends(t, u);
    ReachedStep(t, Send(0, true));
    t := u;
  }

  lemma ClosesTooSoon(s: State) returns (t: State)
    requires Reached(s) && s == Small(Replied(), Known(false), map[], [], [], Inserting(0), Closing(0, true))
    ensures Reached(t) && t == Small(Over(), map[], map[0 := 0], [], [], Releasing(0), Free)
  {
    hide *;
    t := s;
    var u: State;
    u := Small(Replied().(closeCalls := 1), Known(false), map[], [], [], Inserting(0), Deleting(0, true));
    CallsClose(t, u);
    ReachedStep(t, CallClose(0));
    t := u;
    u := Small(Replied().(closeCalls := 1, dels := 1), map[], map[], [], [], Inserting(0), Erasing(0, true));
    Deletes(t, u);
    ReachedStep(t, Delete(0));
    t := u;
    u := Small(TooSoon(), map[], map[], [], [], Inserting(0), Closed(0, true));
    ErasesNothing(t, u);
    ReachedStep(t, Erase(0));
    t := u;
    u := Small(TooSoon().(inserted := true), map[], map[0 := 0], [], [], Releasing(0), Closed(0, true));
    Inserts(t, u);
    ReachedStep(t, Insert);
    t := u;
    u := Small(TooSoon().(inserted := true), map[], map[0 := 0], [], [], Releasing(0), InCallback(0, false));
    Leaves(t, u);
    ReachedStep(t, LeaveClose(0));
    t := u;
    u := Small(Over(), map[], map[0 := 0], [], [], Releasing(0), Free);
    Returns(t, u);
    ReachedStep(t, Return(0));
    t := u;
  }

  /** All callbacks are set, the peer gets its reply and the connection is closed once and taken out of epoll; but the
      erase comes before the insert, which then stores a connection that nobody will ever close. */
  lemma LeakAfterReply() returns (s: State)
    ensures Reached(s) && |s.conns| == 1 && Leaked(s, 0) && InTable(s, 0) && s.interest == map[]
    ensures var k := s.conns[0];
            && k.phase == Handled && Readable(k) && !k.declined && k.inserted
            && k.messageCalls == k.closeCalls == k.dels == 1
  {
    var t := SmallCommitted();
    t := SetsUp(t);
    t := Replies(t);
    s := ClosesTooSoon(t);
    hide Reached;
    CleanIff(s, 0);
  }
}
