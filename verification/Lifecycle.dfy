/** The life of connections as a system of atomic steps: the accepting thread, the kernel, the sub-server
    loops and the pool workers (src/header/ReactorMainServer.cpp, src/header/ReactorSubServer.cpp,
    src/header/Connection.cpp, src/header/Epoll.cpp, src/header/EventLoop.cpp). Events may fire as soon
    as the constructor has registered the channel. */
module Lifecycle {
  import opened Reactor
  import opened ConnectionIo

  type Id = nat

  /** How far the event of a connection has got. A history variable: no step looks at it. */
  datatype Phase = Idle | Active | Queued | Busy(worker: nat) | Handled

  /** One Connection with its Channel, and what has happened to it. */
  datatype Conn = Conn(
    fd: nat,
    events: set<Flag>,
    ready: set<Flag>,
    inEpoll: bool,
    hasRead: bool,         // the read callback is set
    shared: bool,          // make_shared has returned, shared_from_this works
    hasMessage: bool,
    hasClose: bool,
    destroyed: bool,
    // history
    phase: Phase,
    adds: nat,
    mods: nat,
    dels: nat,
    deliveries: nat,
    messageCalls: nat,
    closeCalls: nat,
    heard: RecvEnd,        // how the receive loop has ended
    sent: bool,            // the message callback has called SendMessage
    inserted: bool,        // the accept callback has run
    missed: bool,          // the handler met something that the accepting thread had not done yet
    declined: bool,        // the message callback returned, or threw, without sending
    erased: bool)          // the close callback erased the entry after it had been inserted

  /** The accepting thread, inside ReactorSubServer::AcceptConnection. */
  datatype Acceptor =
    | Accepting
    | Adding(conn: Id)
    | Flagging(conn: Id)
    | SettingRead(conn: Id)
    | Sharing(conn: Id)
    | SettingMessage(conn: Id)
    | SettingClose(conn: Id)
    | Inserting(conn: Id)
    | Releasing(conn: Id)

  /** A pool worker, inside Channel::HandleEvent. `inSend` tells the two callers of the close callback apart. */
  datatype Worker =
    | Free
    | Entering(conn: Id)
    | Receiving(conn: Id)
    | Messaging(conn: Id)
    | InCallback(conn: Id, maySend: bool)
    | Sending(conn: Id)
    | Closing(conn: Id, inSend: bool)
    | Deleting(conn: Id, inSend: bool)
    | Erasing(conn: Id, inSend: bool)
    | Closed(conn: Id, inSend: bool)

  datatype State = State(
    conns: seq<Conn>,
    open: set<nat>,             // open descriptors of the process
    interest: Interest,         // interest lists of all sub-servers: a descriptor is in that of its own
    table: map<nat, Id>,        // connections_map_
    active: seq<seq<Id>>,       // channels each loop has got from epoll_wait and not committed
    queue: seq<Id>,             // committed handlers
    acceptor: Acceptor,
    workers: seq<Worker>,
    failed: bool)               // some epoll_ctl has failed, which throws

  function Initial(open: set<nat>, subServers: nat, threads: nat): State {
    State([], open, map[], map[], seq(subServers, i => []), [], Accepting, seq(threads, i => Free), false)
  }

  datatype Step =
    | Accept(fd: nat)
    | Register
    | SetFlag
    | SetRead
    | Share
    | SetMessage
    | SetClose
    | Insert
    | Release
    | Deliver(fd: nat, ready: set<Flag>)
    | Commit(sub: nat)
    | Dequeue(worker: nat)
    | Enter(worker: nat)
    | Recv(worker: nat, received: RecvResult)
    | CallMessage(worker: nat)
    | CallSend(worker: nat)
    | Send(worker: nat, done: bool)
    | Return(worker: nat)
    | CallClose(worker: nat)
    | Delete(worker: nat)
    | Erase(worker: nat)
    | LeaveClose(worker: nat)

  const MASK: set<Flag> := {IN, PRI, ET, ONESHOT}

  /** Ids are positions in `conns`, which only grows. */
  predicate Typed(s: State) {
    && |s.active| > 0
    && (s.acceptor.Accepting? || s.acceptor.conn < |s.conns|)
    && (forall w | 0 <= w < |s.workers| :: s.workers[w].Free? || s.workers[w].conn < |s.conns|)
    && (forall i | 0 <= i < |s.queue| :: s.queue[i] < |s.conns|)
    && (forall k, i | 0 <= k < |s.active| && 0 <= i < |s.active[k]| :: s.active[k][i] < |s.conns|)
    && (forall fd | fd in s.interest :: s.interest[fd].channel < |s.conns|)
    && (forall fd | fd in s.table :: s.table[fd] < |s.conns|)
  }

  predicate At(s: State, w: nat) { w < |s.workers| }

  /** `accept4` returns a descriptor that is not open; the kernel delivers events of armed registrations. */
  predicate Enabled(s: State, step: Step) {
    && Typed(s)
    && match step
       case Accept(fd) => s.acceptor.Accepting? && fd !in s.open
       case Register => s.acceptor.Adding?
       case SetFlag => s.acceptor.Flagging?
       case SetRead => s.acceptor.SettingRead?
       case Share => s.acceptor.Sharing?
       case SetMessage => s.acceptor.SettingMessage?
       case SetClose => s.acceptor.SettingClose?
       case Insert => s.acceptor.Inserting?
       case Release => s.acceptor.Releasing?
       case Deliver(fd, ready) => fd in s.interest && s.interest[fd].armed && ready != {}
       case Commit(sub) => sub < |s.active| && s.active[sub] != []
       case Dequeue(w) => At(s, w) && s.workers[w].Free? && s.queue != []
       case Enter(w) => At(s, w) && s.workers[w].Entering?
       case Recv(w, received) => At(s, w) && s.workers[w].Receiving? && LegalRecv(received)
       case CallMessage(w) => At(s, w) && s.workers[w].Messaging?
       case CallSend(w) => At(s, w) && s.workers[w].InCallback? && s.workers[w].maySend
       case Send(w, done) => At(s, w) && s.workers[w].Sending?
       case Return(w) => At(s, w) && s.workers[w].InCallback?
       case CallClose(w) => At(s, w) && s.workers[w].Closing?
       case Delete(w) => At(s, w) && s.workers[w].Deleting?
       case Erase(w) => At(s, w) && s.workers[w].Erasing?
       case LeaveClose(w) => At(s, w) && s.workers[w].Closed?
  }

  // Lifetime: shared pointers to a connection.

  predicate HeldByAcceptor(a: Acceptor, c: Id) { !a.Accepting? && a.conn == c }

  predicate InTable(s: State, c: Id)
    requires c < |s.conns|
  {
    s.conns[c].fd in s.table && s.table[s.conns[c].fd] == c
  }

  /** The message callback's argument, or the argument of the close callback. */
  predicate HeldBy(w: Worker, c: Id) {
    match w
    case InCallback(d, _) => d == c
    case Sending(d) => d == c
    case Closing(d, inSend) => d == c && inSend
    case Deleting(d, _) => d == c
    case Erasing(d, _) => d == c
    case Closed(d, _) => d == c
    case _ => false
  }

  predicate Referenced(s: State, c: Id)
    requires c < |s.conns|
  {
    || HeldByAcceptor(s.acceptor, c)
    || InTable(s, c)
    || exists w | 0 <= w < |s.workers| :: HeldBy(s.workers[w], c)
  }

  /** When the last pointer goes, the socket is closed, and closing takes it out of the interest list. */
  function Reap(s: State, c: Id): State
    requires c < |s.conns|
  {
    if Referenced(s, c) || s.conns[c].destroyed then s
    else
      var k := s.conns[c];
      s.(conns := s.conns[c := k.(destroyed := true)], open := s.open - {k.fd}, interest := s.interest - {k.fd})
  }

  function Put(s: State, c: Id, k: Conn): State
    requires c < |s.conns|
  {
    s.(conns := s.conns[c := k])
  }

  function Move(s: State, w: nat, to: Worker): State
    requires At(s, w)
  {
    s.(workers := s.workers[w := to])
  }

  /** The handler of `c` is over: it has returned, or thrown into the future of its packaged_task. */
  function Finish(s: State, w: nat, c: Id, k: Conn): State
    requires At(s, w) && c < |s.conns|
  {
    Put(Move(s, w, Free), c, k.(phase := Handled))
  }

  // The steps.

  /** UpdateChannel: ADD for a channel that is not marked, MOD for one that is. */
  function Registered(s: State, c: Id): State
    requires c < |s.conns|
  {
    var k := s.conns[c];
    match Control(s.interest, if k.inEpoll then Mod else Add, k.fd, k.events, c)
    case None => s.(failed := true)
    case Some(interest) =>
      var t := s.(interest := interest, acceptor := Flagging(c));
      if k.inEpoll then Put(t, c, k.(mods := k.mods + 1)) else Put(t, c, k.(adds := k.adds + 1))
  }

  function NextAccept(s: State, step: Step): State
    requires Enabled(s, step)
  {
    match step
    case Accept(fd) =>
      s.(open := s.open + {fd},
         acceptor := Adding(|s.conns|),
         conns := s.conns + [Conn(fd, MASK, {}, false, false, false, false, false, false,
                                  Idle, 0, 0, 0, 0, 0, 0, RecvPending, false, false, false, false, false)])
    case Register => Registered(s, s.acceptor.conn)
    case SetFlag =>
      var c := s.acceptor.conn;
      Put(s.(acceptor := SettingRead(c)), c, s.conns[c].(inEpoll := true))
    case SetRead =>
      var c := s.acceptor.conn;
      Put(s.(acceptor := Sharing(c)), c, s.conns[c].(hasRead := true))
    case Share =>
      var c := s.acceptor.conn;
      Put(s.(acceptor := SettingMessage(c)), c, s.conns[c].(shared := true))
    case SetMessage =>
      var c := s.acceptor.conn;
      Put(s.(acceptor := SettingClose(c)), c, s.conns[c].(hasMessage := true))
    case SetClose =>
      var c := s.acceptor.conn;
      Put(s.(acceptor := Inserting(c)), c, s.conns[c].(hasClose := true))
    case Insert =>
      var c := s.acceptor.conn;
      Put(s.(acceptor := Releasing(c), table := Inserted(s.table, s.conns[c].fd, c)), c,
          s.conns[c].(inserted := true))
    case Release =>
      Reap(s.(acceptor := Accepting), s.acceptor.conn)
    case _ => s
  }

  function NextLoop(s: State, step: Step): State
    requires Enabled(s, step)
  {
    match step
    case Deliver(fd, ready) =>
      var c, sub := s.interest[fd].channel, Hash(fd, |s.active|);
      var k := s.conns[c];
      Put(s.(interest := Delivered(s.interest, fd), active := s.active[sub := s.active[sub] + [c]]), c,
          k.(ready := ready, phase := Active, deliveries := k.deliveries + 1))
    case Commit(sub) =>
      var c := s.active[sub][0];
      Put(s.(active := s.active[sub := s.active[sub][1..]], queue := s.queue + [c]), c,
          s.conns[c].(phase := Queued))
    case Dequeue(w) =>
      var c := s.queue[0];
      Put(Move(s.(queue := s.queue[1..]), w, Entering(c)), c, s.conns[c].(phase := Busy(w)))
    case _ => s
  }

  function NextHandler(s: State, step: Step): State
    requires Enabled(s, step)
  {
    match step
    case Enter(w) =>
      var c := s.workers[w].conn;
      var k := s.conns[c];
      if Dispatched(k.ready, k.hasRead, false, false) == ReadCallback then Move(s, w, Receiving(c))
      else Finish(s, w, c, k.(missed := !k.hasRead))
    case Recv(w, received) =>
      var c := s.workers[w].conn;
      (match Verdict(received)
       case RecvPending => s
       case Ready => Put(Move(s, w, Messaging(c)), c, s.conns[c].(heard := Ready))
       case Gone => Put(Move(s, w, Closing(c, false)), c, s.conns[c].(heard := Gone)))
    case CallMessage(w) =>
      var c := s.workers[w].conn;
      var k := s.conns[c];
      if !k.shared || !k.hasMessage then Reap(Finish(s, w, c, k.(missed := true)), c)
      else Put(Move(s, w, InCallback(c, true)), c, k.(messageCalls := k.messageCalls + 1))
    case CallSend(w) =>
      var c := s.workers[w].conn;
      Put(Move(s, w, Sending(c)), c, s.conns[c].(sent := true))
    case Send(w, done) => if done then Move(s, w, Closing(s.workers[w].conn, true)) else s
    case Return(w) =>
      var c := s.workers[w].conn;
      Reap(Finish(s, w, c, s.conns[c].(declined := s.workers[w].maySend)), c)
    case _ => s
  }

  function NextClose(s: State, step: Step): State
    requires Enabled(s, step)
  {
    match step
    case CallClose(w) =>
      var c, inSend := s.workers[w].conn, s.workers[w].inSend;
      var k := s.conns[c];
      if !k.shared || !k.hasClose then Reap(Finish(s, w, c, k.(missed := true)), c)
      else Put(Move(s, w, Deleting(c, inSend)), c, k.(closeCalls := k.closeCalls + 1))
    case Delete(w) =>
      var c, inSend := s.workers[w].conn, s.workers[w].inSend;
      var k := s.conns[c];
      (match Control(s.interest, Del, k.fd, {}, c)
       case None => s.(failed := true)
       case Some(interest) =>
         Put(Move(s.(interest := interest), w, Erasing(c, inSend)), c, k.(dels := k.dels + 1)))
    case Erase(w) =>
      var c, inSend := s.workers[w].conn, s.workers[w].inSend;
      var k := s.conns[c];
      Put(Move(s.(table := s.table - {k.fd}), w, Closed(c, inSend)), c, k.(erased := k.inserted, missed := !k.inserted))
    case LeaveClose(w) =>
      var c, inSend := s.workers[w].conn, s.workers[w].inSend;
      if inSend then Move(s, w, InCallback(c, false)) else Reap(Finish(s, w, c, s.conns[c]), c)
    case _ => s
  }

  function Next(s: State, step: Step): State
    requires Enabled(s, step)
  {
    match step
    case Deliver(_, _) => NextLoop(s, step)
    case Commit(_) => NextLoop(s, step)
    case Dequeue(_) => NextLoop(s, step)
    case Enter(_) => NextHandler(s, step)
    case Recv(_, _) => NextHandler(s, step)
    case CallMessage(_) => NextHandler(s, step)
    case CallSend(_) => NextHandler(s, step)
    case Send(_, _) => NextHandler(s, step)
    case Return(_) => NextHandler(s, step)
    case CallClose(_) => NextClose(s, step)
    case Delete(_) => NextClose(s, step)
    case Erase(_) => NextClose(s, step)
    case LeaveClose(_) => NextClose(s, step)
    case _ => NextAccept(s, step)
  }

  predicate Legal(s: State, steps: seq<Step>)
    decreases |steps|
  {
    steps == [] || (Enabled(s, steps[0]) && Legal(Next(s, steps[0]), steps[1..]))
  }

  function After(s: State, steps: seq<Step>): State
    requires Legal(s, steps)
    decreases |steps|
  {
    if steps == [] then s else After(Next(s, steps[0]), steps[1..])
  }

  // The invariant.

  /** What holds of a connection while a worker is in its handler. */
  predicate HandlerOk(k: Conn, w: Worker) {
    && (!w.Free? && !w.Entering? ==> Readable(k))
    && (!w.Free? ==> !k.declined && k.heard == HeardIn(w) && (k.sent <==> SentIn(w)))
    && (k.missed ==> w.Free? || w.Closed? || (w.InCallback? && !w.maySend))
    && match w
       case Free => true
       case Entering(_) => k.messageCalls == k.closeCalls == k.dels == 0 && !k.erased
       case Receiving(_) => k.messageCalls == k.closeCalls == k.dels == 0 && !k.erased
       case Messaging(_) => k.messageCalls == k.closeCalls == k.dels == 0 && !k.erased
       case InCallback(_, maySend) =>
         && k.messageCalls == 1 && k.shared
         && (if maySend then k.closeCalls == k.dels == 0 && !k.erased
             else k.closeCalls == k.dels == 1 && (k.erased <==> !k.missed))
       case Sending(_) => k.messageCalls == 1 && k.shared && k.closeCalls == k.dels == 0 && !k.erased
       case Closing(_, inSend) =>
         && k.messageCalls == (if inSend then 1 else 0)
         && k.closeCalls == k.dels == 0 && !k.erased
       case Deleting(_, inSend) =>
         && k.messageCalls == (if inSend then 1 else 0)
         && k.closeCalls == 1 && k.dels == 0 && !k.erased && k.shared
       case Erasing(_, inSend) =>
         && k.messageCalls == (if inSend then 1 else 0)
         && k.closeCalls == 1 && k.dels == 1 && !k.erased && k.shared
       case Closed(_, inSend) =>
         && k.messageCalls == (if inSend then 1 else 0)
         && k.closeCalls == 1 && k.dels == 1 && (k.erased <==> !k.missed) && k.shared
  }

  /** How the receive loop has ended when the handler is there. */
  function HeardIn(w: Worker): RecvEnd {
    if w.Free? || w.Entering? || w.Receiving? then RecvPending
    else if w.Messaging? || w.InCallback? || w.Sending? || w.inSend then Ready
    else Gone
  }

  predicate SentIn(w: Worker) {
    || w.Sending? || (w.InCallback? && !w.maySend)
    || ((w.Closing? || w.Deleting? || w.Erasing? || w.Closed?) && w.inSend)
  }

  predicate Readable(k: Conn) { IN in k.ready || PRI in k.ready }

  /** The counters of a connection, by phase. */
  predicate CountersOk(k: Conn) {
    && k.mods == 0 && k.adds <= 1 && k.dels <= k.closeCalls <= 1 && k.messageCalls <= 1
    && k.deliveries == (if k.phase == Idle then 0 else 1)
    && (k.deliveries == 1 ==> k.adds == 1)
    && (k.phase in {Idle, Active, Queued} ==>
          k.messageCalls == k.closeCalls == 0 && !k.erased && !k.declined && !k.missed
          && k.heard == RecvPending && !k.sent)
    && (k.phase == Handled ==> k.dels == k.closeCalls)
    && (k.erased ==> k.dels == 1 && k.inserted && !k.declined && !k.missed && Readable(k))
    && (k.inserted ==> k.adds == 1 && k.inEpoll && k.hasRead && k.shared && k.hasMessage && k.hasClose)
    && (k.phase == Handled ==> (k.erased <==> Readable(k) && !k.declined && !k.missed))
    && (k.phase == Handled && k.closeCalls == 1 ==> k.erased || k.missed)
    && (k.phase == Handled ==> EndedOk(k))
    && k.events == MASK
  }

  /** What a handler that is over has called. */
  predicate EndedOk(k: Conn) {
    && (k.messageCalls == 1 ==> k.heard == Ready)
    && (k.heard != RecvPending ==> Readable(k))
    && (k.sent ==> k.messageCalls == 1)
    && (k.declined <==> k.messageCalls == 1 && !k.sent)
    && (!k.missed ==>
          && (k.heard == RecvPending ==> !Readable(k))
          && (k.heard == Ready ==> k.messageCalls == 1)
          && (k.closeCalls == 1 <==> k.heard == Gone || k.sent))
  }

  /** How far the accepting thread has got with `c`. */
  predicate AcceptorOk(a: Acceptor, c: Id, k: Conn) {
    && (k.adds == 0 <==> a == Adding(c))
    && (k.inserted <==> !HeldByAcceptor(a, c) || a.Releasing?)
    && (a in {Adding(c), Flagging(c)} ==> !k.inEpoll)
    && (HeldByAcceptor(a, c) && !(a.Adding? || a.Flagging?) ==> k.inEpoll)
    && (HeldByAcceptor(a, c) && (a.Sharing? || a.SettingMessage? || a.SettingClose? || a.Inserting?) ==> k.hasRead)
    && (HeldByAcceptor(a, c) && (a.SettingMessage? || a.SettingClose? || a.Inserting?) ==> k.shared)
    && (HeldByAcceptor(a, c) && (a.SettingClose? || a.Inserting?) ==> k.hasMessage)
    && (HeldByAcceptor(a, c) && a.Inserting? ==> k.hasClose)
  }

  predicate IsRegistered(s: State, c: Id)
    requires c < |s.conns|
  {
    s.conns[c].fd in s.interest && s.interest[s.conns[c].fd].channel == c
  }

  predicate ConnOk(s: State, c: Id)
    requires c < |s.conns|
  {
    var k := s.conns[c];
    && CountersOk(k)
    && AcceptorOk(s.acceptor, c, k)
    && (k.adds == 1 && k.dels == 0 <==> IsRegistered(s, c))
    && (IsRegistered(s, c) && s.interest[k.fd].armed ==> k.deliveries == 0)
    && (IsRegistered(s, c) ==> ONESHOT in s.interest[k.fd].events)
    && (k.inserted && !k.erased <==> InTable(s, c))
    && (!k.destroyed ==> k.fd in s.open)
    && (k.destroyed <==> k.erased && k.phase == Handled && !HeldByAcceptor(s.acceptor, c))
    && (k.phase.Busy? ==>
          At(s, k.phase.worker) && !s.workers[k.phase.worker].Free? && s.workers[k.phase.worker].conn == c)
  }

  predicate ConnsOk(s: State) {
    forall c | 0 <= c < |s.conns| :: ConnOk(s, c)
  }

  /** Two living connections have different descriptors. */
  predicate DistinctFds(s: State) {
    forall c, d | 0 <= c < d < |s.conns| && !s.conns[c].destroyed && !s.conns[d].destroyed ::
      s.conns[c].fd != s.conns[d].fd
  }

  /** Every interest entry and every table entry is keyed by the descriptor of its own living connection. */
  predicate KeysOk(s: State) {
    && (forall fd | fd in s.interest ::
          s.interest[fd].channel < |s.conns| && s.conns[s.interest[fd].channel].fd == fd
          && !s.conns[s.interest[fd].channel].destroyed)
    && (forall fd | fd in s.table ::
          s.table[fd] < |s.conns| && s.conns[s.table[fd]].fd == fd && !s.conns[s.table[fd]].destroyed)
  }

  /** Whatever is in flight belongs to a connection in the matching phase, and is in flight once. */
  predicate FlightOk(s: State) {
    && (forall i | 0 <= i < |s.queue| :: s.queue[i] < |s.conns| && s.conns[s.queue[i]].phase == Queued)
    && (forall i, j | 0 <= i < j < |s.queue| :: s.queue[i] != s.queue[j])
    && (forall k, i | 0 <= k < |s.active| && 0 <= i < |s.active[k]| ::
          && s.active[k][i] < |s.conns| && s.conns[s.active[k][i]].phase == Active
          && Hash(s.conns[s.active[k][i]].fd, |s.active|) == k)
    && (forall k, i, j | 0 <= k < |s.active| && 0 <= i < j < |s.active[k]| :: s.active[k][i] != s.active[k][j])
  }

  predicate WorkersOk(s: State) {
    forall w | 0 <= w < |s.workers| && !s.workers[w].Free? ::
      && s.workers[w].conn < |s.conns|
      && s.conns[s.workers[w].conn].phase == Busy(w)
      && HandlerOk(s.conns[s.workers[w].conn], s.workers[w])
  }

  predicate Inv(s: State) {
    && |s.active| > 0
    && (s.acceptor.Accepting? || s.acceptor.conn < |s.conns|)
    && !s.failed
    && ConnsOk(s)
    && DistinctFds(s)
    && KeysOk(s)
    && FlightOk(s)
    && WorkersOk(s)
  }
}
