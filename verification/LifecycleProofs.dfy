/** Every step keeps the invariant of the life of connections. */
module LifecycleProofs {
  import opened Reactor
  import opened ConnectionIo
  import opened Lifecycle

  // What the invariant says about the connection at hand.

  lemma SameFd(s: State, c: Id, d: Id)
    requires DistinctFds(s) && c < |s.conns| && d < |s.conns|
    requires !s.conns[c].destroyed && !s.conns[d].destroyed && s.conns[c].fd == s.conns[d].fd
    ensures c == d
  {
  }

  /** The ADD finds the descriptor free: epoll_ctl does not fail with EEXIST. */
  lemma AddFindsFree(s: State)
    requires Inv(s) && s.acceptor.Adding?
    ensures var k := s.conns[s.acceptor.conn]; !k.inEpoll && k.fd !in s.interest
  {
    var c := s.acceptor.conn;
    var fd := s.conns[c].fd;
    assert ConnOk(s, c);
    if fd in s.interest {
      SameFd(s, s.interest[fd].channel, c);
    }
  }

  /** The insert finds the key free. */
  lemma InsertFindsFree(s: State)
    requires Inv(s) && s.acceptor.Inserting?
    ensures s.conns[s.acceptor.conn].fd !in s.table
  {
    var c := s.acceptor.conn;
    var fd := s.conns[c].fd;
    assert ConnOk(s, c);
    if fd in s.table {
      SameFd(s, s.table[fd], c);
    }
  }

  /** The DEL finds its own registration: epoll_ctl does not fail with ENOENT. */
  lemma DeleteFindsOwn(s: State, w: nat)
    requires Inv(s) && At(s, w) && s.workers[w].Deleting?
    ensures IsRegistered(s, s.workers[w].conn)
  {
    assert ConnOk(s, s.workers[w].conn);
  }

  /** The erase meets the entry of the closing connection or none. */
  lemma EraseFindsOwn(s: State, w: nat)
    requires Inv(s) && At(s, w) && s.workers[w].Erasing?
    ensures var c := s.workers[w].conn; s.conns[c].fd in s.table ==> s.table[s.conns[c].fd] == c
  {
    var c := s.workers[w].conn;
    assert ConnOk(s, c);
    if s.conns[c].fd in s.table {
      SameFd(s, s.table[s.conns[c].fd], c);
    }
  }

  // Frames. A step changes one connection `c`; the others keep what they have.

  /** Registrations other than those of `c` stay; those of `c` are keyed by its own descriptor. */
  predicate SameButFor(s: State, t: State, c: Id)
    requires c < |s.conns| == |t.conns|
  {
    && t.conns == s.conns[c := t.conns[c]] && t.conns[c].fd == s.conns[c].fd
    && (t.interest == s.interest
        || (t.interest == s.interest - {s.conns[c].fd} && IsRegistered(s, c))
        || (s.conns[c].fd !in s.interest
            && t.interest == s.interest[s.conns[c].fd := Registration(MASK, c, true)]))
    && (t.table == s.table
        || (t.table == s.table - {s.conns[c].fd} && (s.conns[c].fd in s.table ==> InTable(s, c)))
        || (s.conns[c].fd !in s.table && t.table == s.table[s.conns[c].fd := c]))
  }

  lemma OtherConn(s: State, t: State, c: Id, d: Id)
    requires |t.conns| == |s.conns| && c < |s.conns| && SameButFor(s, t, c) && d < |s.conns| && d != c
    requires ConnOk(s, d)
    requires t.open == s.open && HeldByAcceptor(t.acceptor, d) == HeldByAcceptor(s.acceptor, d)
    requires HeldByAcceptor(s.acceptor, d) ==> t.acceptor == s.acceptor
    requires |t.workers| == |s.workers|
    requires forall w | 0 <= w < |s.workers| && !s.workers[w].Free? && s.workers[w].conn == d ::
               t.workers[w] == s.workers[w]
    ensures ConnOk(t, d)
  {
    assert IsRegistered(t, d) == IsRegistered(s, d);
    assert InTable(t, d) == InTable(s, d);
    hide CountersOk;
  }

  lemma KeysKept(s: State, t: State, c: Id)
    requires |t.conns| == |s.conns| && c < |s.conns| && SameButFor(s, t, c)
    requires DistinctFds(s) && KeysOk(s)
    requires !s.conns[c].destroyed && !t.conns[c].destroyed
    ensures DistinctFds(t) && KeysOk(t)
  {
  }

  // The accepting thread.

  function Outline(k: Conn): (set<Flag>, bool, bool, bool, bool, nat, nat, nat, RecvEnd, bool, Phase) {
    (k.ready, k.destroyed, k.erased, k.declined, k.missed, k.messageCalls, k.closeCalls, k.dels, k.heard, k.sent,
     k.phase)
  }

  lemma AcceptorFlight(s: State, t: State, c: Id)
    requires |t.conns| == |s.conns| && c < |s.conns| && t.conns == s.conns[c := t.conns[c]]
    requires t.conns[c].fd == s.conns[c].fd && Outline(t.conns[c]) == Outline(s.conns[c])
    requires s.conns[c].shared ==> t.conns[c].shared
    requires FlightOk(s) && WorkersOk(s) && t.queue == s.queue && t.active == s.active && t.workers == s.workers
    ensures FlightOk(t) && WorkersOk(t)
  {
  }

  /** A step of the accepting thread on the connection it is building. */
  lemma AcceptorMove(s: State, t: State, c: Id)
    requires Inv(s) && HeldByAcceptor(s.acceptor, c) && HeldByAcceptor(t.acceptor, c)
    requires |t.conns| == |s.conns| && c < |s.conns| && SameButFor(s, t, c)
    requires t == s.(conns := t.conns, interest := t.interest, table := t.table, acceptor := t.acceptor)
    requires Outline(t.conns[c]) == Outline(s.conns[c]) && (s.conns[c].shared ==> t.conns[c].shared)
    requires ConnOk(s, c) ==> ConnOk(t, c)
    ensures Inv(t)
  {
    hide ConnOk;
    assert ConnOk(s, c);
    assert !s.conns[c].destroyed by { NotDestroyed(s, c); }
    KeysKept(s, t, c);
    AcceptorFlight(s, t, c);
    forall d | 0 <= d < |t.conns| ensures ConnOk(t, d) {
      assert ConnOk(s, d);
      if d != c { OtherConn(s, t, c, d); }
    }
    hide DistinctFds;
    hide KeysOk;
    hide FlightOk;
    hide WorkersOk;
  }

  lemma NotDestroyed(s: State, c: Id)
    requires c < |s.conns| && ConnOk(s, c) && (HeldByAcceptor(s.acceptor, c) || s.conns[c].phase != Handled)
    ensures !s.conns[c].destroyed
  {
  }

  lemma AcceptKeeps(s: State, fd: nat)
    requires Inv(s) && Enabled(s, Step.Accept(fd))
    ensures Inv(Next(s, Step.Accept(fd)))
  {
    var t := Next(s, Step.Accept(fd));
    AcceptConns(s, fd);
    hide ConnsOk;
    assert FlightOk(t) && WorkersOk(t) by {
      hide KeysOk;
      hide DistinctFds;
      hide HandlerOk;
    }
    hide FlightOk;
    hide WorkersOk;
  }

  lemma AcceptConns(s: State, fd: nat)
    requires Inv(s) && Enabled(s, Step.Accept(fd))
    ensures ConnsOk(Next(s, Step.Accept(fd)))
    ensures forall c | 0 <= c < |s.conns| && !s.conns[c].destroyed :: s.conns[c].fd != fd
  {
    var t := Next(s, Step.Accept(fd));
    hide FlightOk;
    hide DistinctFds;
    forall c | 0 <= c < |s.conns| ensures ConnOk(t, c) && (!s.conns[c].destroyed ==> s.conns[c].fd != fd) {
      assert ConnOk(s, c);
    }
    assert ConnOk(t, |s.conns|);
    hide ConnOk;
  }

  lemma RegisterKeeps(s: State)
    requires Inv(s) && Enabled(s, Step.Register)
    ensures Inv(Next(s, Step.Register))
  {
    AddFindsFree(s);
    assert ConnOk(s, s.acceptor.conn);
    AcceptorMove(s, Next(s, Step.Register), s.acceptor.conn);
  }

  /** The five steps that set a field of the connection. */
  lemma SetterKeeps(s: State, step: Step)
    requires Inv(s) && Enabled(s, step)
    requires step.SetFlag? || step.SetRead? || step.Share? || step.SetMessage? || step.SetClose?
    ensures Inv(Next(s, step))
  {
    hide Inv;
    hide Enabled;
    if step.SetFlag? || step.SetRead? {
      ConstructorKeeps(s, step);
    } else {
      CallbackKeeps(s, step);
    }
  }

  lemma ConstructorKeeps(s: State, step: Step)
    requires Inv(s) && Enabled(s, step) && (step.SetFlag? || step.SetRead?)
    ensures Inv(Next(s, step))
  {
    hide ConnsOk;
    hide DistinctFds;
    hide KeysOk;
    hide FlightOk;
    hide WorkersOk;
    AcceptorMove(s, Next(s, step), s.acceptor.conn);
  }

  lemma CallbackKeeps(s: State, step: Step)
    requires Inv(s) && Enabled(s, step) && (step.Share? || step.SetMessage? || step.SetClose?)
    ensures Inv(Next(s, step))
  {
    hide ConnsOk;
    hide DistinctFds;
    hide KeysOk;
    hide FlightOk;
    hide WorkersOk;
    AcceptorMove(s, Next(s, step), s.acceptor.conn);
  }

  lemma InsertKeeps(s: State)
    requires Inv(s) && Enabled(s, Step.Insert)
    ensures Inv(Next(s, Step.Insert))
  {
    InsertFindsFree(s);
    AcceptorMove(s, Next(s, Step.Insert), s.acceptor.conn);
  }

  // Handlers.

  /** What the invariant says of the connection whose handler worker `w` runs. */
  lemma Own(s: State, w: nat)
    requires Inv(s) && At(s, w) && !s.workers[w].Free?
    ensures var c := s.workers[w].conn;
            && c < |s.conns| && ConnOk(s, c) && s.conns[c].phase == Busy(w) && !s.conns[c].destroyed
            && HandlerOk(s.conns[c], s.workers[w])
  {
    assert ConnOk(s, s.workers[w].conn);
  }

  lemma HandlerFlight(s: State, t: State, w: nat, c: Id)
    requires |t.conns| == |s.conns| && c < |s.conns| && t.conns == s.conns[c := t.conns[c]]
    requires t.conns[c].fd == s.conns[c].fd && t.conns[c].phase == s.conns[c].phase
    requires At(s, w) && !s.workers[w].Free? && s.workers[w].conn == c
    requires |t.workers| == |s.workers| && t.workers == s.workers[w := t.workers[w]]
    requires !t.workers[w].Free? && t.workers[w].conn == c && HandlerOk(t.conns[c], t.workers[w])
    requires FlightOk(s) && WorkersOk(s) && t.queue == s.queue && t.active == s.active
    ensures FlightOk(t) && WorkersOk(t)
  {
    hide HandlerOk;
  }

  /** A step of a worker inside the handler of `c`. */
  lemma HandlerMove(s: State, t: State, w: nat)
    requires Inv(s) && At(s, w) && !s.workers[w].Free?
    requires var c := s.workers[w].conn;
             && |t.conns| == |s.conns| && SameButFor(s, t, c)
             && |t.workers| == |s.workers| && t.workers == s.workers[w := t.workers[w]]
             && t == s.(conns := t.conns, interest := t.interest, table := t.table, workers := t.workers)
             && t.conns[c].phase == s.conns[c].phase && t.conns[c].destroyed == s.conns[c].destroyed
             && !t.workers[w].Free? && t.workers[w].conn == c
             && HandlerOk(t.conns[c], t.workers[w]) && ConnOk(t, c)
    ensures Inv(t)
  {
    hide ConnOk;
    hide HandlerOk;
    var c := s.workers[w].conn;
    assert ConnOk(s, c);
    NotDestroyed(s, c);
    KeysKept(s, t, c);
    HandlerFlight(s, t, w, c);
    forall d | 0 <= d < |t.conns| ensures ConnOk(t, d) {
      assert ConnOk(s, d);
      if d != c { OtherConn(s, t, c, d); }
    }
    hide DistinctFds;
    hide KeysOk;
    hide FlightOk;
    hide WorkersOk;
  }

  lemma RecvKeeps(s: State, w: nat, received: RecvResult)
    requires Inv(s) && Enabled(s, Step.Recv(w, received))
    ensures Inv(Next(s, Step.Recv(w, received)))
  {
    hide ConnsOk;
    hide DistinctFds;
    hide KeysOk;
    hide FlightOk;
    hide WorkersOk;
    Own(s, w);
    HandlerMove(s, Next(s, Step.Recv(w, received)), w);
  }

  lemma CallSendKeeps(s: State, w: nat)
    requires Inv(s) && Enabled(s, Step.CallSend(w))
    ensures Inv(Next(s, Step.CallSend(w)))
  {
    hide ConnsOk;
    hide DistinctFds;
    hide KeysOk;
    hide FlightOk;
    hide WorkersOk;
    Own(s, w);
    HandlerMove(s, Next(s, Step.CallSend(w)), w);
  }

  lemma SendKeeps(s: State, w: nat, done: bool)
    requires Inv(s) && Enabled(s, Step.Send(w, done))
    ensures Inv(Next(s, Step.Send(w, done)))
  {
    hide ConnsOk;
    hide DistinctFds;
    hide KeysOk;
    hide FlightOk;
    hide WorkersOk;
    Own(s, w);
    HandlerMove(s, Next(s, Step.Send(w, done)), w);
  }

  lemma DeleteKeeps(s: State, w: nat)
    requires Inv(s) && Enabled(s, Step.Delete(w))
    ensures Inv(Next(s, Step.Delete(w)))
  {
    hide ConnsOk;
    hide DistinctFds;
    hide KeysOk;
    hide FlightOk;
    hide WorkersOk;
    Own(s, w);
    DeleteFindsOwn(s, w);
    HandlerMove(s, Next(s, Step.Delete(w)), w);
  }

  lemma EraseKeeps(s: State, w: nat)
    requires Inv(s) && Enabled(s, Step.Erase(w))
    ensures Inv(Next(s, Step.Erase(w)))
  {
    hide ConnsOk;
    hide DistinctFds;
    hide KeysOk;
    hide FlightOk;
    hide WorkersOk;
    Own(s, w);
    EraseFindsOwn(s, w);
    HandlerMove(s, Next(s, Step.Erase(w)), w);
  }

  // Kernel, loops and dequeue: the phase changes.

  lemma PhaseOther(s: State, t: State, c: Id, d: Id)
    requires c < |s.conns| == |t.conns| && d < |s.conns| && d != c && ConnOk(s, d)
    requires t.conns == s.conns[c := t.conns[c]]
    requires t.table == s.table && t.open == s.open && t.acceptor == s.acceptor
    requires t.interest == s.interest || (IsRegistered(s, c) && t.interest == Delivered(s.interest, s.conns[c].fd))
    requires |t.workers| == |s.workers|
    requires forall w | 0 <= w < |s.workers| && !s.workers[w].Free? :: t.workers[w] == s.workers[w]
    ensures ConnOk(t, d)
  {
    assert IsRegistered(t, d) == IsRegistered(s, d);
    assert InTable(t, d) == InTable(s, d);
    hide CountersOk;
    hide AcceptorOk;
  }

  lemma PhaseMove(s: State, t: State, c: Id)
    requires Inv(s) && c < |s.conns| == |t.conns| && !s.conns[c].destroyed && !t.conns[c].destroyed
    requires t.conns == s.conns[c := t.conns[c]] && t.conns[c].fd == s.conns[c].fd
    requires t.table == s.table && t.open == s.open && t.acceptor == s.acceptor && t.failed == s.failed
    requires t.interest == s.interest || (IsRegistered(s, c) && t.interest == Delivered(s.interest, s.conns[c].fd))
    requires |t.active| == |s.active| && |t.workers| == |s.workers|
    requires forall w | 0 <= w < |s.workers| && !s.workers[w].Free? :: t.workers[w] == s.workers[w]
    requires ConnOk(t, c) && FlightOk(t) && WorkersOk(t)
    ensures Inv(t)
  {
    hide FlightOk;
    hide WorkersOk;
    hide ConnOk;
    assert DistinctFds(t);
    assert KeysOk(t);
    hide DistinctFds;
    hide KeysOk;
    forall d | 0 <= d < |t.conns| ensures ConnOk(t, d) {
      assert ConnOk(s, d);
      if d != c { PhaseOther(s, t, c, d); }
    }
  }

  lemma DeliverKeeps(s: State, fd: nat, ready: set<Flag>)
    requires Inv(s) && Enabled(s, Step.Deliver(fd, ready))
    ensures Inv(Next(s, Step.Deliver(fd, ready)))
  {
    var t, c := Next(s, Step.Deliver(fd, ready)), s.interest[fd].channel;
    assert ConnOk(s, c);
    DeliverFlight(s, fd, ready);
    PhaseMove(s, t, c);
  }

  lemma DeliverFlight(s: State, fd: nat, ready: set<Flag>)
    requires Inv(s) && Enabled(s, Step.Deliver(fd, ready))
    ensures var t := Next(s, Step.Deliver(fd, ready)); FlightOk(t) && WorkersOk(t)
  {
    var t, c := Next(s, Step.Deliver(fd, ready)), s.interest[fd].channel;
    assert s.conns[c].phase == Idle by { assert ConnOk(s, c); }
    hide ConnsOk;
    hide ConnOk;
    hide HandlerOk;
    assert WorkersOk(t) by { hide FlightOk; }
    hide WorkersOk;
    hide DistinctFds;
  }

  lemma CommitKeeps(s: State, sub: nat)
    requires Inv(s) && Enabled(s, Step.Commit(sub))
    ensures Inv(Next(s, Step.Commit(sub)))
  {
    var t, c := Next(s, Step.Commit(sub)), s.active[sub][0];
    assert ConnOk(s, c);
    CommitFlight(s, sub);
    PhaseMove(s, t, c);
  }

  lemma CommitFlight(s: State, sub: nat)
    requires Inv(s) && Enabled(s, Step.Commit(sub))
    ensures var t := Next(s, Step.Commit(sub)); FlightOk(t) && WorkersOk(t)
  {
    hide ConnsOk;
    hide KeysOk;
    hide DistinctFds;
    hide HandlerOk;
  }

  lemma DequeueKeeps(s: State, w: nat)
    requires Inv(s) && Enabled(s, Step.Dequeue(w))
    ensures Inv(Next(s, Step.Dequeue(w)))
  {
    var t, c := Next(s, Step.Dequeue(w)), s.queue[0];
    assert ConnOk(s, c);
    DequeueFlight(s, w);
    PhaseMove(s, t, c);
  }

  lemma DequeueFlight(s: State, w: nat)
    requires Inv(s) && Enabled(s, Step.Dequeue(w))
    ensures var t := Next(s, Step.Dequeue(w)); FlightOk(t) && WorkersOk(t)
  {
    assert ConnOk(s, s.queue[0]);
    hide ConnsOk;
    hide ConnOk;
  }

  // The end of a handler, and the last pointer.

  /** Only the worker in its handler can hold a connection. */
  lemma OneHolder(s: State, w: nat, c: Id)
    requires WorkersOk(s) && At(s, w) && HeldBy(s.workers[w], c)
    ensures c < |s.conns| && s.conns[c].phase == Busy(w)
  {
  }

  /** The descriptor of a living connection that is not registered is not in the interest list at all. */
  lemma NotInInterest(s: State, c: Id)
    requires DistinctFds(s) && KeysOk(s) && c < |s.conns| && !s.conns[c].destroyed && !IsRegistered(s, c)
    ensures s.conns[c].fd !in s.interest
  {
    if s.conns[c].fd in s.interest {
      SameFd(s, s.interest[s.conns[c].fd].channel, c);
    }
  }

  /** Dropping a pointer: `u` is `s` after the drop, when the last pointer may be gone. */
  lemma ReapKeeps(s: State, u: State, c: Id)
    requires Inv(s) && |u.conns| == |s.conns| && c < |s.conns| && !s.conns[c].destroyed
    requires u.conns == s.conns[c := u.conns[c]] && u.conns[c].fd == s.conns[c].fd && !u.conns[c].destroyed
    requires u == s.(conns := u.conns, acceptor := u.acceptor, workers := u.workers)
    requires u.acceptor == s.acceptor || (HeldByAcceptor(s.acceptor, c) && u.acceptor.Accepting?)
    requires |u.workers| == |s.workers|
    requires forall v | 0 <= v < |s.workers| && !s.workers[v].Free? && s.workers[v].conn != c ::
               u.workers[v] == s.workers[v]
    requires FlightOk(u) && WorkersOk(u)
    requires u.conns[c].erased == s.conns[c].erased
    requires u.conns[c].dels == s.conns[c].dels && u.conns[c].adds == s.conns[c].adds
    requires Referenced(u, c) <==> !(u.conns[c].erased && u.conns[c].phase == Handled && !HeldByAcceptor(u.acceptor, c))
    requires Referenced(u, c) ==> ConnOk(u, c)
    requires !Referenced(u, c) ==> CountersOk(u.conns[c]) && AcceptorOk(u.acceptor, c, u.conns[c])
    ensures Inv(Reap(u, c))
  {
    var t := Reap(u, c);
    hide FlightOk;
    hide WorkersOk;
    assert FlightOk(t) && WorkersOk(t) by { ReapFlight(u, c); }
    assert ConnOk(s, c);
    if !Referenced(u, c) {
      NotInInterest(s, c);
      assert t.interest == s.interest;
    }
    ReapKeys(s, u, c);
    forall d | 0 <= d < |t.conns| ensures ConnOk(t, d) {
      assert ConnOk(s, d);
      if d != c {
        ReapOther(s, u, c, d);
      } else {
        hide CountersOk;
        hide AcceptorOk;
      }
    }
    hide DistinctFds;
    hide KeysOk;
    hide ConnOk;
  }

  lemma ReapFlight(u: State, c: Id)
    requires c < |u.conns| && FlightOk(u) && WorkersOk(u)
    ensures FlightOk(Reap(u, c)) && WorkersOk(Reap(u, c))
  {
  }

  lemma ReapKeys(s: State, u: State, c: Id)
    requires c < |s.conns| == |u.conns| && DistinctFds(s) && KeysOk(s) && !s.conns[c].destroyed
    requires u.conns == s.conns[c := u.conns[c]] && u.conns[c].fd == s.conns[c].fd && !u.conns[c].destroyed
    requires u.interest == s.interest && u.table == s.table
    requires !Referenced(u, c) ==> s.conns[c].fd !in s.interest
    ensures DistinctFds(Reap(u, c)) && KeysOk(Reap(u, c))
  {
    forall fd | fd in s.table && s.table[fd] == c ensures InTable(u, c) {
    }
  }

  lemma ReapOther(s: State, u: State, c: Id, d: Id)
    requires c < |s.conns| == |u.conns| && d < |s.conns| && d != c
    requires u.conns == s.conns[c := u.conns[c]] && u.conns[c].fd == s.conns[c].fd
    requires u == s.(conns := u.conns, acceptor := u.acceptor, workers := u.workers)
    requires u.acceptor == s.acceptor || (HeldByAcceptor(s.acceptor, c) && u.acceptor.Accepting?)
    requires |u.workers| == |s.workers|
    requires forall v | 0 <= v < |s.workers| && !s.workers[v].Free? && s.workers[v].conn != c ::
               u.workers[v] == s.workers[v]
    requires !Referenced(u, c) ==> s.conns[c].fd !in s.interest
    requires ConnOk(s, d) && DistinctFds(s) && !s.conns[c].destroyed
    ensures ConnOk(Reap(u, c), d)
  {
    hide CountersOk;
    if !s.conns[d].destroyed && s.conns[d].fd == s.conns[c].fd {
      SameFd(s, c, d);
    }
    assert IsRegistered(Reap(u, c), d) == IsRegistered(s, d);
    assert InTable(Reap(u, c), d) == InTable(s, d);
  }

  lemma ReleaseKeeps(s: State)
    requires Inv(s) && Enabled(s, Step.Release)
    ensures Inv(Next(s, Step.Release))
  {
    var c := s.acceptor.conn;
    var u := s.(acceptor := Accepting);
    assert ConnOk(s, c);
    ReleaseReferences(s, u, c);
    ReapKeeps(s, u, c);
  }

  lemma ReleaseReferences(s: State, u: State, c: Id)
    requires Inv(s) && s.acceptor == Releasing(c) && u == s.(acceptor := Accepting)
    ensures Referenced(u, c) <==> !(s.conns[c].erased && s.conns[c].phase == Handled)
  {
    assert ConnOk(s, c);
    var phase := s.conns[c].phase;
    if s.conns[c].erased && phase.Busy? {
      assert HeldBy(u.workers[phase.worker], c);
    }
    forall w | 0 <= w < |u.workers| && HeldBy(u.workers[w], c) ensures s.conns[c].phase == Busy(w) {
      OneHolder(s, w, c);
    }
  }

  /** The state after the end of the handler of `c` in worker `w`, when the last pointer may be gone. */
  predicate EndOk(s: State, w: nat, c: Id, k: Conn)
    requires At(s, w) && c < |s.conns|
  {
    var u := Finish(s, w, c, k);
    Inv(Reap(u, c)) && (!k.erased ==> Reap(u, c) == u)
  }

  lemma EndKeeps(s: State, w: nat, c: Id, k: Conn)
    requires Inv(s) && At(s, w) && !s.workers[w].Free? && s.workers[w].conn == c && c < |s.conns|
    requires k == s.conns[c].(declined := k.declined, missed := k.missed) && CountersOk(k.(phase := Handled))
    ensures EndOk(s, w, c, k)
  {
    var u := Finish(s, w, c, k);
    assert ConnOk(s, c);
    EndFlight(s, w, c, k);
    EndReferences(s, u, w, c);
    ReapKeeps(s, u, c);
  }

  lemma EndFlight(s: State, w: nat, c: Id, k: Conn)
    requires FlightOk(s) && WorkersOk(s) && At(s, w) && !s.workers[w].Free? && s.workers[w].conn == c && c < |s.conns|
    requires k.fd == s.conns[c].fd
    ensures var u := Finish(s, w, c, k); FlightOk(u) && WorkersOk(u)
  {
    hide HandlerOk;
  }

  lemma EndReferences(s: State, u: State, w: nat, c: Id)
    requires Inv(s) && At(s, w) && !s.workers[w].Free? && s.workers[w].conn == c
    requires |u.conns| == |s.conns| && u.conns[c].fd == s.conns[c].fd && u.workers == s.workers[w := Free]
    requires u.acceptor == s.acceptor && u.table == s.table
    ensures Referenced(u, c) <==> HeldByAcceptor(s.acceptor, c) || InTable(s, c)
    ensures Referenced(u, c) <==> !(s.conns[c].erased && !HeldByAcceptor(s.acceptor, c))
  {
    assert ConnOk(s, c);
    forall v | 0 <= v < |u.workers| && v != w ensures !HeldBy(u.workers[v], c) {
      if HeldBy(s.workers[v], c) {
        OneHolder(s, v, c);
      }
    }
  }

  lemma EnterKeeps(s: State, w: nat)
    requires Inv(s) && Enabled(s, Step.Enter(w))
    ensures Inv(Next(s, Step.Enter(w)))
  {
    hide ConnsOk;
    hide DistinctFds;
    hide KeysOk;
    hide FlightOk;
    hide WorkersOk;
    Own(s, w);
    var c := s.workers[w].conn;
    var k := s.conns[c];
    if Dispatched(k.ready, k.hasRead, false, false) == ReadCallback {
      HandlerMove(s, Next(s, Step.Enter(w)), w);
    } else {
      EndKeeps(s, w, c, k.(missed := !k.hasRead));
    }
  }

  lemma CallMessageKeeps(s: State, w: nat)
    requires Inv(s) && Enabled(s, Step.CallMessage(w))
    ensures Inv(Next(s, Step.CallMessage(w)))
  {
    Own(s, w);
    var k := s.conns[s.workers[w].conn];
    hide Inv;
    hide Next;
    hide ConnOk;
    hide HandlerOk;
    if !k.shared || !k.hasMessage {
      CallMessageThrows(s, w);
    } else {
      CallMessageRuns(s, w);
    }
  }

  lemma CallMessageThrows(s: State, w: nat)
    requires Inv(s) && Enabled(s, Step.CallMessage(w)) && s.workers[w].conn < |s.conns|
    requires var k := s.conns[s.workers[w].conn]; !k.shared || !k.hasMessage
    ensures Inv(Next(s, Step.CallMessage(w)))
  {
    hide ConnsOk;
    hide DistinctFds;
    hide KeysOk;
    hide FlightOk;
    hide WorkersOk;
    Own(s, w);
    hide Reap;
    var c := s.workers[w].conn;
    EndKeeps(s, w, c, s.conns[c].(missed := true));
  }

  lemma CallMessageRuns(s: State, w: nat)
    requires Inv(s) && Enabled(s, Step.CallMessage(w)) && s.workers[w].conn < |s.conns|
    requires var k := s.conns[s.workers[w].conn]; k.shared && k.hasMessage
    ensures Inv(Next(s, Step.CallMessage(w)))
  {
    hide ConnsOk;
    hide DistinctFds;
    hide KeysOk;
    hide FlightOk;
    hide WorkersOk;
    Own(s, w);
    HandlerMove(s, Next(s, Step.CallMessage(w)), w);
  }

  lemma ReturnKeeps(s: State, w: nat)
    requires Inv(s) && Enabled(s, Step.Return(w))
    ensures Inv(Next(s, Step.Return(w)))
  {
    hide ConnsOk;
    hide DistinctFds;
    hide KeysOk;
    hide FlightOk;
    hide WorkersOk;
    Own(s, w);
    var c := s.workers[w].conn;
    EndKeeps(s, w, c, s.conns[c].(declined := s.workers[w].maySend));
  }

  lemma CallCloseKeeps(s: State, w: nat)
    requires Inv(s) && Enabled(s, Step.CallClose(w))
    ensures Inv(Next(s, Step.CallClose(w)))
  {
    hide ConnsOk;
    hide DistinctFds;
    hide KeysOk;
    hide FlightOk;
    hide WorkersOk;
    Own(s, w);
    var c := s.workers[w].conn;
    var k := s.conns[c];
    if !k.shared || !k.hasClose {
      EndKeeps(s, w, c, k.(missed := true));
    } else {
      HandlerMove(s, Next(s, Step.CallClose(w)), w);
    }
  }

  lemma LeaveCloseKeeps(s: State, w: nat)
    requires Inv(s) && Enabled(s, Step.LeaveClose(w))
    ensures Inv(Next(s, Step.LeaveClose(w)))
  {
    hide ConnsOk;
    hide DistinctFds;
    hide KeysOk;
    hide FlightOk;
    hide WorkersOk;
    Own(s, w);
    var c := s.workers[w].conn;
    if s.workers[w].inSend {
      HandlerMove(s, Next(s, Step.LeaveClose(w)), w);
    } else {
      EndKeeps(s, w, c, s.conns[c]);
    }
  }
}
