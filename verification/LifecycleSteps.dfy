/** What one step of the life of connections can change, and what stays. */
module LifecycleSteps {
  import opened Reactor
  import opened ConnectionIo
  import opened Lifecycle
  import opened LifecycleProofs
  import opened LifecycleSafety

  // What a step may touch.

  /** The connection a step works on; for Accept, the one it makes. */
  function Subject(s: State, step: Step): Id
    requires Enabled(s, step)
  {
    match step
    case Accept(_) => |s.conns|
    case Register => s.acceptor.conn
    case SetFlag => s.acceptor.conn
    case SetRead => s.acceptor.conn
    case Share => s.acceptor.conn
    case SetMessage => s.acceptor.conn
    case SetClose => s.acceptor.conn
    case Insert => s.acceptor.conn
    case Release => s.acceptor.conn
    case Deliver(fd, _) => s.interest[fd].channel
    case Commit(sub) => s.active[sub][0]
    case Dequeue(_) => s.queue[0]
    case _ => s.workers[step.worker].conn
  }

  function Rank(phase: Phase): nat {
    match phase
    case Idle => 0
    case Active => 1
    case Queued => 2
    case Busy(_) => 3
    case Handled => 4
  }

  /** What can become of a connection: it goes forward, and once handled only the accepting thread, or the last
      pointer, still changes it. */
  predicate Later(k: Conn, l: Conn) {
    && l.fd == k.fd && l.events == k.events
    && k.adds <= l.adds && k.deliveries <= l.deliveries && k.dels <= l.dels
    && k.messageCalls <= l.messageCalls && k.closeCalls <= l.closeCalls
    && (k.inserted ==> l.inserted) && (k.destroyed ==> l.destroyed)
    && (k.missed ==> l.missed) && (k.inserted && !k.missed ==> !l.missed)
    && Rank(k.phase) <= Rank(l.phase)
    && (k.phase == Handled ==>
          && l.ready == k.ready && l.missed == k.missed && l.declined == k.declined && l.erased == k.erased
          && l.heard == k.heard && l.sent == k.sent
          && l.deliveries == k.deliveries && l.messageCalls == k.messageCalls
          && l.closeCalls == k.closeCalls && l.dels == k.dels)
  }

  /** Only the kernel, the loops and the dequeue move what is in flight. */
  predicate Moves(step: Step) { step.Deliver? || step.Commit? || step.Dequeue? }

  /** What `step` records in the history of its subject. */
  predicate Records(k: Conn, l: Conn, step: Step) {
    && (l.inserted <==> k.inserted || step.Insert?)
    && l.erased == (if step.Erase? then k.inserted else k.erased)
    && l.heard == (if step.Recv? && step.received == RecvWouldBlock then Ready
                   else if step.Recv? && (step.received == RecvFailed || step.received == PeerClosed) then Gone
                   else k.heard)
    && (l.sent <==> k.sent || step.CallSend?)
    && l.deliveries == k.deliveries + (if step.Deliver? then 1 else 0)
    && l.messageCalls == k.messageCalls + (if step.CallMessage? && k.shared && k.hasMessage then 1 else 0)
    && l.closeCalls == k.closeCalls + (if step.CallClose? && k.shared && k.hasClose then 1 else 0)
  }

  /** What `step` does to its subject `c` and to everything else: only `c` changes, and goes forward; a descriptor is
      closed just when its connection is destroyed; what is in flight moves only in steps made for it. */
  predicate Touches(s: State, t: State, c: Id, step: Step) {
    && c < |s.conns| == |t.conns|
    && t.conns == s.conns[c := t.conns[c]]
    && Later(s.conns[c], t.conns[c]) && Records(s.conns[c], t.conns[c], step)
    && t.open == (if t.conns[c].destroyed && !s.conns[c].destroyed then s.open - {s.conns[c].fd} else s.open)
    && (!Moves(step) ==>
          && t.active == s.active && t.queue == s.queue
          && (t.conns[c].phase == s.conns[c].phase || (t.conns[c].phase == Handled && s.conns[c].phase.Busy?)))
  }

  lemma PutTouches(s: State, t: State, c: Id, k: Conn, step: Step)
    requires c < |s.conns| && t.conns == s.conns[c := k] && Later(s.conns[c], k) && Records(s.conns[c], k, step)
    requires t.open == s.open && k.destroyed == s.conns[c].destroyed
    requires !Moves(step) ==> t.active == s.active && t.queue == s.queue
    requires !Moves(step) ==> k.phase == s.conns[c].phase || (k.phase == Handled && s.conns[c].phase.Busy?)
    ensures Touches(s, t, c, step)
  {
  }

  lemma SameTouches(s: State, t: State, c: Id, step: Step)
    requires c < |s.conns| && t.conns == s.conns && t.open == s.open && t.active == s.active && t.queue == s.queue
    requires Records(s.conns[c], s.conns[c], step)
    ensures Touches(s, t, c, step)
  {
  }

  lemma DestroyedTouches(k: Conn, l: Conn, step: Step)
    requires Later(k, l) && Records(k, l, step)
    ensures Later(k, l.(destroyed := true)) && Records(k, l.(destroyed := true), step)
  {
  }

  lemma ReapTouches(s: State, u: State, c: Id, step: Step)
    requires Touches(s, u, c, step) && u.open == s.open && u.conns[c].destroyed == s.conns[c].destroyed
    ensures Touches(s, Reap(u, c), c, step)
  {
    DestroyedTouches(s.conns[c], u.conns[c], step);
    hide Referenced;
    hide Records;
    hide Later;
  }

  /** The end of a handler. */
  lemma EndTouches(s: State, w: nat, c: Id, k: Conn, step: Step)
    requires At(s, w) && c < |s.conns| && s.conns[c].phase.Busy?
    requires Records(s.conns[c], k, step)
    requires k == s.conns[c].(declined := k.declined, missed := k.missed)
    requires s.conns[c].missed ==> k.missed
    requires s.conns[c].inserted && !s.conns[c].missed ==> !k.missed
    ensures Touches(s, Finish(s, w, c, k), c, step) && Touches(s, Reap(Finish(s, w, c, k), c), c, step)
  {
    hide Reap;
    hide Touches;
    PutTouches(s, Finish(s, w, c, k), c, k.(phase := Handled), step);
    ReapTouches(s, Finish(s, w, c, k), c, step);
  }

  predicate ByAcceptor(step: Step) {
    || step.Register? || step.SetFlag? || step.SetRead? || step.Share? || step.SetMessage? || step.SetClose?
    || step.Insert? || step.Release?
  }

  /** A step of the accepting thread that makes `k` of its connection. */
  lemma AcceptorPut(s: State, t: State, c: Id, k: Conn, step: Step)
    requires ByAcceptor(step) && c < |s.conns| && t.conns == s.conns[c := k] && Later(s.conns[c], k)
    requires k.inserted <==> s.conns[c].inserted || step.Insert?
    requires k.erased == s.conns[c].erased && k.heard == s.conns[c].heard && k.sent == s.conns[c].sent
    requires k.deliveries == s.conns[c].deliveries
    requires k.messageCalls == s.conns[c].messageCalls && k.closeCalls == s.conns[c].closeCalls
    requires t.open == s.open && k.destroyed == s.conns[c].destroyed && k.phase == s.conns[c].phase
    requires t.active == s.active && t.queue == s.queue
    ensures Touches(s, t, c, step)
  {
    hide Later;
    hide Touches;
    PutTouches(s, t, c, k, step);
  }

  lemma AcceptorSame(s: State, t: State, c: Id, step: Step)
    requires ByAcceptor(step) && !step.Insert? && c < |s.conns|
    requires t.conns == s.conns && t.open == s.open && t.active == s.active && t.queue == s.queue
    ensures Touches(s, t, c, step)
  {
    hide Later;
    hide Touches;
    SameTouches(s, t, c, step);
  }

  lemma AcceptorTouches(s: State, step: Step)
    requires Inv(s) && Enabled(s, step)
    requires ByAcceptor(step)
    ensures Touches(s, NextAccept(s, step), s.acceptor.conn, step)
  {
    hide ConnsOk;
    hide DistinctFds;
    hide KeysOk;
    hide FlightOk;
    hide WorkersOk;
    hide Typed;
    hide Touches;
    hide Reap;
    var t, c := NextAccept(s, step), s.acceptor.conn;
    var k := s.conns[c];
    match step
    case Register =>
      if t.conns == s.conns {
        AcceptorSame(s, t, c, step);
      } else {
        AcceptorPut(s, t, c, if k.inEpoll then k.(mods := k.mods + 1) else k.(adds := k.adds + 1), step);
      }
    case SetFlag => AcceptorPut(s, t, c, k.(inEpoll := true), step);
    case SetRead => AcceptorPut(s, t, c, k.(hasRead := true), step);
    case Share => AcceptorPut(s, t, c, k.(shared := true), step);
    case SetMessage => AcceptorPut(s, t, c, k.(hasMessage := true), step);
    case SetClose => AcceptorPut(s, t, c, k.(hasClose := true), step);
    case Insert => AcceptorPut(s, t, c, k.(inserted := true), step);
    case Release =>
      var u := s.(acceptor := Accepting);
      AcceptorSame(s, u, c, step);
      assert u.conns[c].destroyed == s.conns[c].destroyed;
      ReapTouches(s, u, c, step);
  }

  lemma LoopTouches(s: State, step: Step)
    requires Inv(s) && Enabled(s, step) && Moves(step)
    ensures Touches(s, NextLoop(s, step), Subject(s, step), step)
  {
    LoopPhase(s, step);
    hide Inv;
    if step.Deliver? {
      DeliverTouches(s, step);
    } else {
      var t, c := NextLoop(s, step), Subject(s, step);
      hide Typed;
      hide Touches;
      var phase := if step.Commit? then Queued else Busy(step.worker);
      PutTouches(s, t, c, s.conns[c].(phase := phase), step);
    }
  }

  lemma DeliverTouches(s: State, step: Step)
    requires Enabled(s, step) && step.Deliver?
    requires Subject(s, step) < |s.conns| && s.conns[Subject(s, step)].phase == Idle
    ensures Touches(s, NextLoop(s, step), Subject(s, step), step)
  {
    var t, c := NextLoop(s, step), Subject(s, step);
    hide Typed;
    hide Touches;
    var k := s.conns[c];
    PutTouches(s, t, c, k.(ready := step.ready, phase := Active, deliveries := k.deliveries + 1), step);
  }

  lemma LoopPhase(s: State, step: Step)
    requires Inv(s) && Enabled(s, step) && Moves(step)
    ensures var c := Subject(s, step);
            && c < |s.conns| && (step.Deliver? ==> s.conns[c].phase == Idle)
            && (step.Commit? ==> s.conns[c].phase == Active) && (step.Dequeue? ==> s.conns[c].phase == Queued)
  {
    var c := Subject(s, step);
    assert step.Deliver? ==> s.conns[c].phase == Idle by { assert ConnOk(s, c); }
    hide ConnsOk;
    hide DistinctFds;
    hide WorkersOk;
  }

  lemma IoTouches(s: State, step: Step, c: Id)
    requires Inv(s) && Enabled(s, step) && (step.Recv? || step.CallSend? || step.Send?)
    requires c == s.workers[step.worker].conn
    ensures Touches(s, NextHandler(s, step), c, step)
  {
    var t, k := NextHandler(s, step), s.conns[c];
    Handling(s, step.worker, c);
    hide Inv;
    hide Typed;
    hide Touches;
    if step.CallSend? {
      PutTouches(s, t, c, k.(sent := true), step);
    } else if step.Send? {
      SameTouches(s, t, c, step);
    } else {
      RecvTouches(s, step, c);
    }
  }

  lemma RecvTouches(s: State, step: Step, c: Id)
    requires Enabled(s, step) && step.Recv? && c == s.workers[step.worker].conn && c < |s.conns|
    requires s.conns[c].phase.Busy?
    ensures Touches(s, NextHandler(s, step), c, step)
  {
    RecvNext(s, step, c);
    hide Enabled;
    hide NextHandler;
    hide Touches;
    var k := s.conns[c];
    if RecvGoesOn(step.received) {
      SameTouches(s, s, c, step);
    } else {
      var end := if step.received.RecvWouldBlock? then Ready else Gone;
      HeardLater(k, end, step);
      hide Later;
      hide Records;
      PutTouches(s, NextHandler(s, step), c, k.(heard := end), step);
    }
  }

  lemma RecvNext(s: State, step: Step, c: Id)
    requires Enabled(s, step) && step.Recv? && c == s.workers[step.worker].conn && c < |s.conns|
    ensures var t, end := NextHandler(s, step), if step.received.RecvWouldBlock? then Ready else Gone;
            if RecvGoesOn(step.received) then t == s
            else
              && t.conns == s.conns[c := s.conns[c].(heard := end)]
              && t.open == s.open && t.active == s.active && t.queue == s.queue
  {
    hide Typed;
  }

  lemma HeardLater(k: Conn, end: RecvEnd, step: Step)
    requires step.Recv? && k.phase.Busy? && !RecvGoesOn(step.received)
    requires end == if step.received.RecvWouldBlock? then Ready else Gone
    ensures Later(k, k.(heard := end)) && Records(k, k.(heard := end), step)
  {
  }

  /** What the invariant says of the connection in the hands of worker `w`. */
  lemma Handling(s: State, w: nat, c: Id)
    requires Inv(s) && At(s, w) && !s.workers[w].Free? && s.workers[w].conn == c
    ensures c < |s.conns| && s.conns[c].phase.Busy?
    ensures var k := s.conns[c];
            && (k.inserted ==> k.hasRead && k.shared && k.hasMessage && k.hasClose)
            && (k.missed ==> s.workers[w].Closed? || (s.workers[w].InCallback? && !s.workers[w].maySend))
  {
    Own(s, w);
  }

  lemma HandlerTouches(s: State, step: Step, c: Id)
    requires Inv(s) && Enabled(s, step) && (step.Enter? || step.CallMessage? || step.Return?)
    requires c == s.workers[step.worker].conn
    ensures Touches(s, NextHandler(s, step), c, step)
  {
    var t, w := NextHandler(s, step), step.worker;
    Handling(s, w, c);
    assert At(s, w) && (step.Return? ==> s.workers[w].InCallback?);
    hide Inv;
    hide Enabled;
    hide Typed;
    hide Reap;
    hide Finish;
    hide Touches;
    hide Dispatched;
    var k := s.conns[c];
    if step.Enter? {
      EnterTouches(s, step, c);
    } else if step.Return? {
      EndTouches(s, w, c, k.(declined := s.workers[w].maySend), step);
    } else if k.shared && k.hasMessage {
      PutTouches(s, t, c, k.(messageCalls := k.messageCalls + 1), step);
    } else {
      EndTouches(s, w, c, k.(missed := true), step);
    }
  }

  lemma EnterTouches(s: State, step: Step, c: Id)
    requires Enabled(s, step) && step.Enter? && c == s.workers[step.worker].conn
    requires c < |s.conns| && s.conns[c].phase.Busy? && !s.conns[c].missed
    requires s.conns[c].inserted ==> s.conns[c].hasRead
    ensures Touches(s, NextHandler(s, step), c, step)
  {
    var t, w, k := NextHandler(s, step), step.worker, s.conns[c];
    hide Typed;
    hide Finish;
    hide Touches;
    hide Dispatched;
    if t == Move(s, w, Receiving(c)) {
      SameTouches(s, t, c, step);
    } else {
      EndTouches(s, w, c, k.(missed := !k.hasRead), step);
    }
  }

  lemma RemovalTouches(s: State, step: Step, c: Id)
    requires Inv(s) && Enabled(s, step) && (step.Delete? || step.Erase?)
    requires c == s.workers[step.worker].conn
    ensures Touches(s, NextClose(s, step), c, step)
  {
    var t, w := NextClose(s, step), step.worker;
    Handling(s, w, c);
    hide Inv;
    hide Typed;
    hide Touches;
    hide Control;
    var k := s.conns[c];
    if step.Delete? {
      if t.conns == s.conns { SameTouches(s, t, c, step); } else { PutTouches(s, t, c, k.(dels := k.dels + 1), step); }
    } else {
      PutTouches(s, t, c, k.(erased := k.inserted, missed := !k.inserted), step);
    }
  }

  lemma CloseTouches(s: State, step: Step, c: Id)
    requires Inv(s) && Enabled(s, step) && (step.CallClose? || step.LeaveClose?)
    requires c == s.workers[step.worker].conn
    ensures Touches(s, NextClose(s, step), c, step)
  {
    var t, w := NextClose(s, step), step.worker;
    Handling(s, w, c);
    hide Inv;
    hide Typed;
    hide Reap;
    hide Finish;
    hide Touches;
    var k := s.conns[c];
    if step.CallClose? {
      if k.shared && k.hasClose { PutTouches(s, t, c, k.(closeCalls := k.closeCalls + 1), step); }
      else { EndTouches(s, w, c, k.(missed := true), step); }
    } else {
      if s.workers[w].inSend { SameTouches(s, t, c, step); } else { EndTouches(s, w, c, k, step); }
    }
  }

  /** What one step can change. */
  lemma StepTouches(s: State, step: Step)
    requires Inv(s) && Enabled(s, step) && !step.Accept?
    ensures Touches(s, Next(s, step), Subject(s, step), step)
  {
    hide Inv;
    hide Enabled;
    hide Touches;
    hide NextAccept;
    hide NextLoop;
    hide NextHandler;
    hide NextClose;
    if Moves(step) {
      LoopTouches(s, step);
    } else if ByAcceptor(step) {
      AcceptorTouches(s, step);
    } else if step.Delete? || step.Erase? {
      RemovalTouches(s, step, Subject(s, step));
    } else if step.CallClose? || step.LeaveClose? {
      CloseTouches(s, step, Subject(s, step));
    } else if step.Recv? || step.CallSend? || step.Send? {
      IoTouches(s, step, Subject(s, step));
    } else {
      HandlerTouches(s, step, Subject(s, step));
    }
  }

  /** Over any run a connection goes forward only. */
  lemma {:induction false} RunLater(s: State, steps: seq<Step>, c: Id)
    requires Inv(s) && Legal(s, steps) && c < |s.conns|
    ensures c < |After(s, steps).conns| && Later(s.conns[c], After(s, steps).conns[c])
    decreases |steps|
  {
    hide Inv;
    hide Enabled;
    if steps != [] {
      var t := Next(s, steps[0]);
      StepKeepsInv(s, steps[0]);
      assert c < |t.conns| && Later(s.conns[c], t.conns[c]) by { StepLater(s, steps[0], c); }
      hide Next;
      RunLater(t, steps[1..], c);
    }
  }

  lemma TouchesLater(s: State, t: State, c: Id, step: Step, d: Id)
    requires Touches(s, t, c, step) && d < |s.conns|
    ensures d < |t.conns| && Later(s.conns[d], t.conns[d])
  {
  }

  lemma StepLater(s: State, step: Step, c: Id)
    requires Inv(s) && Enabled(s, step) && c < |s.conns|
    ensures c < |Next(s, step).conns| && Later(s.conns[c], Next(s, step).conns[c])
  {
    hide Inv;
    hide Touches;
    if step.Accept? {
      assert Next(s, step).conns[c] == s.conns[c];
    } else {
      StepTouches(s, step);
      hide Next;
      hide Subject;
      TouchesLater(s, Next(s, step), Subject(s, step), step, c);
    }
  }
}
