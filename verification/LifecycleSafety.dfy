/** What holds in every run of the life of connections. */
module LifecycleSafety {
  import opened Reactor
  import opened ConnectionIo
  import opened Lifecycle
  import opened LifecycleProofs

  // The invariant holds in every reachable state.

  lemma InvTyped(s: State)
    requires Inv(s)
    ensures Typed(s)
  {
    hide ConnsOk;
    hide DistinctFds;
  }

  lemma InitialInv(open: set<nat>, subServers: nat, threads: nat)
    requires subServers > 0
    ensures Inv(Initial(open, subServers, threads))
  {
  }

  /** Every step keeps the invariant, whatever the kernel answers and whichever thread moves. */
  lemma StepKeepsInv(s: State, step: Step)
    requires Inv(s) && Enabled(s, step)
    ensures Inv(Next(s, step))
  {
    hide *;
    match step
    case Accept(fd) => AcceptKeeps(s, fd);
    case Register => RegisterKeeps(s);
    case SetFlag => SetterKeeps(s, step);
    case SetRead => SetterKeeps(s, step);
    case Share => SetterKeeps(s, step);
    case SetMessage => SetterKeeps(s, step);
    case SetClose => SetterKeeps(s, step);
    case Insert => InsertKeeps(s);
    case Release => ReleaseKeeps(s);
    case Deliver(fd, ready) => DeliverKeeps(s, fd, ready);
    case Commit(sub) => CommitKeeps(s, sub);
    case Dequeue(w) => DequeueKeeps(s, w);
    case Enter(w) => EnterKeeps(s, w);
    case Recv(w, received) => RecvKeeps(s, w, received);
    case CallMessage(w) => CallMessageKeeps(s, w);
    case CallSend(w) => CallSendKeeps(s, w);
    case Send(w, done) => SendKeeps(s, w, done);
    case Return(w) => ReturnKeeps(s, w);
    case CallClose(w) => CallCloseKeeps(s, w);
    case Delete(w) => DeleteKeeps(s, w);
    case Erase(w) => EraseKeeps(s, w);
    case LeaveClose(w) => LeaveCloseKeeps(s, w);
  }

  lemma {:induction false} RunKeepsInv(s: State, steps: seq<Step>)
    requires Inv(s) && Legal(s, steps)
    ensures Inv(After(s, steps))
    decreases |steps|
  {
    hide Inv;
    hide Next;
    hide Enabled;
    if steps != [] {
      StepKeepsInv(s, steps[0]);
      RunKeepsInv(Next(s, steps[0]), steps[1..]);
    }
  }

  ghost predicate Reached(s: State) {
    exists open: set<nat>, subServers: nat, threads: nat, steps: seq<Step> ::
      && subServers > 0
      && Legal(Initial(open, subServers, threads), steps)
      && s == After(Initial(open, subServers, threads), steps)
  }

  lemma ReachedInv(s: State)
    requires Reached(s)
    ensures Inv(s)
  {
    hide Inv;
    hide Next;
    hide Enabled;
    var open: set<nat>, subServers: nat, threads: nat, steps: seq<Step> :|
      && subServers > 0
      && Legal(Initial(open, subServers, threads), steps)
      && s == After(Initial(open, subServers, threads), steps);
    InitialInv(open, subServers, threads);
    RunKeepsInv(Initial(open, subServers, threads), steps);
  }

  // Once each.

  /** In every interleaving a connection is added once, never modified, removed at most once and only after the
      add, gets at most one event, and runs each of its callbacks at most once; no epoll_ctl ever fails. */
  lemma OnceEach(s: State, c: Id)
    requires Reached(s) && c < |s.conns|
    ensures var k := s.conns[c];
            && !s.failed && k.events == {IN, PRI, ET, ONESHOT}
            && k.dels <= k.adds <= 1 && k.mods == 0
            && k.deliveries <= k.adds
            && k.messageCalls <= k.deliveries
            && k.dels <= k.closeCalls <= k.deliveries
  {
    ReachedInv(s);
    assert ConnOk(s, c);
  }

  /** Where a connection with a delivered event can be. */
  datatype Place =
    | InLoop(sub: nat, position: nat)
    | InPool(position: nat)
    | InWorker(worker: nat)

  predicate IsAt(s: State, c: Id, p: Place) {
    match p
    case InLoop(sub, i) => sub < |s.active| && i < |s.active[sub]| && s.active[sub][i] == c
    case InPool(i) => i < |s.queue| && s.queue[i] == c
    case InWorker(w) => At(s, w) && !s.workers[w].Free? && s.workers[w].conn == c
  }

  /** At most one handler of a connection is waiting or running, over all loops, the pool and its workers. */
  lemma OnePlace(s: State, c: Id, p: Place, q: Place)
    requires Reached(s) && IsAt(s, c, p) && IsAt(s, c, q)
    ensures p == q
  {
    ReachedInv(s);
    PhaseAt(s, c, p);
    PhaseAt(s, c, q);
    hide ConnsOk;
  }

  function PhaseOf(p: Place): Phase {
    match p
    case InLoop(_, _) => Active
    case InPool(_) => Queued
    case InWorker(w) => Busy(w)
  }

  lemma PhaseAt(s: State, c: Id, p: Place)
    requires Inv(s) && IsAt(s, c, p)
    ensures c < |s.conns| && s.conns[c].phase == PhaseOf(p)
    ensures p.InLoop? ==> p.sub == Hash(s.conns[c].fd, |s.active|)
  {
  }

  // Keys and pointers.

  /** The channel pointers of the kernel, the loops, the pool and the workers, and the pointers of the table, lead to
      connections that are not destroyed; a registration and an entry carry the open descriptor of their own
      connection, and no two living connections share one. */
  lemma LivePointers(s: State)
    requires Reached(s)
    ensures forall fd | fd in s.interest :: Owns(s, s.interest[fd].channel, fd)
    ensures forall fd | fd in s.table :: Owns(s, s.table[fd], fd)
    ensures forall c: Id, p: Place | IsAt(s, c, p) :: c < |s.conns| && Owns(s, c, s.conns[c].fd)
    ensures forall c: Id, d: Id, fd: nat | Owns(s, c, fd) && Owns(s, d, fd) :: c == d
  {
    ReachedInv(s);
    forall c | 0 <= c < |s.conns| && !s.conns[c].destroyed ensures Owns(s, c, s.conns[c].fd) {
      assert ConnOk(s, c);
    }
    forall c: Id, p: Place | IsAt(s, c, p) ensures c < |s.conns| && Owns(s, c, s.conns[c].fd) {
      PhaseAt(s, c, p);
      assert ConnOk(s, c);
    }
    hide ConnsOk;
  }

  predicate Owns(s: State, c: Id, fd: nat) {
    c < |s.conns| && !s.conns[c].destroyed && s.conns[c].fd == fd && fd in s.open
  }

  // Longer runs.

  lemma {:induction false} Chain(s: State, front: seq<Step>, back: seq<Step>)
    requires Legal(s, front) && Legal(After(s, front), back)
    ensures Legal(s, front + back) && After(s, front + back) == After(After(s, front), back)
    decreases |front|
  {
    hide Enabled;
    hide Next;
    if front == [] {
      assert front + back == back;
    } else {
      assert (front + back)[1..] == front[1..] + back;
      Chain(Next(s, front[0]), front[1..], back);
    }
  }

  lemma OneStep(s: State, step: Step)
    requires Enabled(s, step)
    ensures Legal(s, [step]) && After(s, [step]) == Next(s, step)
  {
    hide Enabled;
    hide Next;
    assert [step][1..] == [];
    assert Legal(Next(s, step), []);
  }

  lemma ReachedRun(s: State, steps: seq<Step>)
    requires Reached(s) && Legal(s, steps)
    ensures Reached(After(s, steps))
  {
    hide Enabled;
    hide Next;
    var open: set<nat>, subServers: nat, threads: nat, front: seq<Step> :|
      && subServers > 0
      && Legal(Initial(open, subServers, threads), front)
      && s == After(Initial(open, subServers, threads), front);
    hide Legal;
    hide After;
    Chain(Initial(open, subServers, threads), front, steps);
  }

  lemma ReachedStep(s: State, step: Step)
    requires Reached(s) && Enabled(s, step)
    ensures Reached(Next(s, step))
  {
    hide *;
    OneStep(s, step);
    ReachedRun(s, [step]);
  }
}
