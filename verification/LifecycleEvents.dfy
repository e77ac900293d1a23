/** Events and descriptors are conserved, and every delivered event can be handled. */
module LifecycleEvents {
  import opened Reactor
  import opened ConnectionIo
  import opened Lifecycle
  import opened LifecycleProofs
  import opened LifecycleSafety
  import opened LifecycleSteps

  // Conservation.

  /** A delivered event is where its phase says. */
  predicate EventKept(s: State, c: Id)
    requires c < |s.conns| && |s.active| > 0
  {
    match s.conns[c].phase
    case Active => c in s.active[Hash(s.conns[c].fd, |s.active|)]
    case Queued => c in s.queue
    case _ => true
  }

  predicate EventsKept(s: State)
    requires |s.active| > 0
  {
    forall c | 0 <= c < |s.conns| :: EventKept(s, c)
  }

  /** The descriptors open in the process are those it started with and those of its living connections. */
  ghost predicate Descriptors(s: State, base: set<nat>) {
    && base <= s.open
    && (forall c | 0 <= c < |s.conns| :: s.conns[c].fd !in base)
    && (forall fd | fd in s.open && fd !in base :: exists c :: Owns(s, c, fd))
  }

  /** No event is lost and no descriptor leaks otherwise than with its connection. */
  lemma StepConserves(s: State, step: Step, base: set<nat>)
    requires Inv(s) && Enabled(s, step) && EventsKept(s) && Descriptors(s, base)
    ensures |Next(s, step).active| > 0 && EventsKept(Next(s, step)) && Descriptors(Next(s, step), base)
  {
    StepKeepsInv(s, step);
    hide Inv;
    hide Next;
    hide Enabled;
    hide Subject;
    hide Touches;
    hide EventsKept;
    hide Descriptors;
    if step.Accept? {
      AcceptConserves(s, step.fd, base);
    } else {
      StepTouches(s, step);
      OwnersStay(s, Next(s, step), Subject(s, step), step, base);
      if Moves(step) {
        LoopConserves(s, step);
      } else {
        EventsStay(s, Next(s, step), Subject(s, step), step);
      }
    }
  }

  lemma AcceptConserves(s: State, fd: nat, base: set<nat>)
    requires Inv(s) && Enabled(s, Step.Accept(fd)) && EventsKept(s) && Descriptors(s, base)
    ensures var t := Next(s, Step.Accept(fd)); |t.active| > 0 && EventsKept(t) && Descriptors(t, base)
  {
    hide Inv;
    var t := Next(s, Step.Accept(fd));
    assert Owns(t, |s.conns|, fd);
    forall c: Id, d: nat | Owns(s, c, d) ensures Owns(t, c, d) {
    }
    forall c | 0 <= c < |t.conns| ensures EventKept(t, c) {
      assert c < |s.conns| ==> EventKept(s, c);
    }
  }

  lemma OwnersStay(s: State, t: State, c: Id, step: Step, base: set<nat>)
    requires Descriptors(s, base) && Touches(s, t, c, step)
    ensures Descriptors(t, base)
  {
    forall fd | fd in t.open && fd !in base ensures exists d :: Owns(t, d, fd) {
      var d :| Owns(s, d, fd);
      assert Owns(t, d, fd);
    }
  }

  lemma EventsStay(s: State, t: State, c: Id, step: Step)
    requires |s.active| > 0 && EventsKept(s) && Touches(s, t, c, step) && !Moves(step)
    ensures |t.active| > 0 && EventsKept(t)
  {
    forall d | 0 <= d < |t.conns| ensures EventKept(t, d) {
      assert EventKept(s, d);
    }
  }

  lemma LoopConserves(s: State, step: Step)
    requires Inv(s) && Enabled(s, step) && Moves(step) && EventsKept(s)
    ensures |Next(s, step).active| > 0 && EventsKept(Next(s, step))
  {
    var t := Next(s, step);
    hide ConnsOk;
    hide DistinctFds;
    hide KeysOk;
    forall d | 0 <= d < |t.conns| ensures |t.active| > 0 && EventKept(t, d) {
      assert EventKept(s, d);
    }
  }

  lemma {:induction false} RunConserves(s: State, steps: seq<Step>, base: set<nat>)
    requires Inv(s) && Legal(s, steps) && EventsKept(s) && Descriptors(s, base)
    ensures var t := After(s, steps); Inv(t) && EventsKept(t) && Descriptors(t, base)
    decreases |steps|
  {
    assert |s.active| > 0;
    hide Inv;
    hide Next;
    hide Enabled;
    hide EventsKept;
    hide Descriptors;
    if steps == [] {
      assert After(s, steps) == s;
    } else {
      StepKeepsInv(s, steps[0]);
      StepConserves(s, steps[0], base);
      RunConserves(Next(s, steps[0]), steps[1..], base);
      ActiveKept(After(s, steps));
    }
  }

  lemma ActiveKept(s: State)
    requires Inv(s)
    ensures |s.active| > 0
  {
  }

  /** In every run the open descriptors are the ones the process had before and those of the connections that are not
      destroyed, each of exactly one. */
  lemma OpenDescriptors(open: set<nat>, subServers: nat, threads: nat, steps: seq<Step>)
    requires subServers > 0 && Legal(Initial(open, subServers, threads), steps)
    ensures var s := After(Initial(open, subServers, threads), steps);
            && (forall fd :: fd in s.open <==> fd in open || exists c :: Owns(s, c, fd))
            && (forall c: Id, fd: nat | Owns(s, c, fd) :: fd !in open)
            && (forall c: Id, d: Id, fd: nat | Owns(s, c, fd) && Owns(s, d, fd) :: c == d)
  {
    var s0 := Initial(open, subServers, threads);
    var s := After(s0, steps);
    InitialInv(open, subServers, threads);
    assert EventsKept(s0) && Descriptors(s0, open);
    RunConserves(s0, steps, open);
    assert Reached(s);
    LivePointers(s);
    hide Reached;
    hide Inv;
    hide Initial;
  }

  /** No delivered event is lost: until its handler is over it is in a loop, in the pool or with a worker, in exactly
      one place. */
  lemma EventInOnePlace(s: State, c: Id)
    requires Reached(s) && c < |s.conns| && s.conns[c].deliveries == 1 && s.conns[c].phase != Handled
    ensures exists p :: IsAt(s, c, p) && forall q :: IsAt(s, c, q) ==> q == p
  {
    var p := PlaceOf(s, c);
    forall q | IsAt(s, c, q) ensures q == p {
      OnePlace(s, c, p, q);
    }
  }

  lemma PlaceOf(s: State, c: Id) returns (p: Place)
    requires Reached(s) && c < |s.conns| && s.conns[c].deliveries == 1 && s.conns[c].phase != Handled
    ensures IsAt(s, c, p)
  {
    ReachedInv(s);
    ReachedKeeps(s);
    assert EventKept(s, c);
    assert ConnOk(s, c);
    match s.conns[c].phase
    case Active =>
      var sub := Hash(s.conns[c].fd, |s.active|);
      var i :| 0 <= i < |s.active[sub]| && s.active[sub][i] == c;
      p := InLoop(sub, i);
    case Queued =>
      var i :| 0 <= i < |s.queue| && s.queue[i] == c;
      p := InPool(i);
    case Busy(w) => p := InWorker(w);
  }

  lemma ReachedKeeps(s: State)
    requires Reached(s)
    ensures |s.active| > 0 && EventsKept(s)
  {
    var open: set<nat>, subServers: nat, threads: nat, steps: seq<Step> :|
      && subServers > 0
      && Legal(Initial(open, subServers, threads), steps)
      && s == After(Initial(open, subServers, threads), steps);
    var s0 := Initial(open, subServers, threads);
    InitialInv(open, subServers, threads);
    assert EventsKept(s0) && Descriptors(s0, open);
    hide Initial;
    RunConserves(s0, steps, open);
    hide ConnsOk;
  }

  // Progress of a handler.

  /** How many steps a handler has still to make at most, apart from repeated system calls. */
  function Left(w: Worker): nat {
    match w
    case Free => 0
    case InCallback(_, maySend) => if maySend then 7 else 1
    case Closed(_, _) => 2
    case Erasing(_, _) => 3
    case Deleting(_, _) => 4
    case Closing(_, _) => 5
    case Sending(_) => 6
    case Messaging(_) => 8
    case Receiving(_) => 9
    case Entering(_) => 10
  }

  predicate InHandler(step: Step) {
    || step.Enter? || step.Recv? || step.CallMessage? || step.CallSend? || step.Send? || step.Return?
    || step.CallClose? || step.Delete? || step.Erase? || step.LeaveClose?
  }

  /** Worker `w` gets nearer to the end of its handler, or nothing happens, which only `retry` allows; the other
      workers stay where they are. */
  predicate Advances(s: State, t: State, w: nat, retry: bool) {
    && w < |s.workers| == |t.workers|
    && t.workers == s.workers[w := t.workers[w]]
    && (Left(t.workers[w]) < Left(s.workers[w]) || (retry && t == s))
  }

  /** Whatever the system calls answer, a step in a handler brings it nearer to its end or repeats a system call. */
  lemma HandlerAdvances(s: State, step: Step)
    requires Inv(s) && Enabled(s, step) && InHandler(step)
    ensures Advances(s, Next(s, step), step.worker, step.Recv? || step.Send?)
  {
    var w := step.worker;
    assert s.workers[w].conn < |s.conns| by { Own(s, w); }
    if step.Delete? {
      DeleteFindsOwn(s, w);
    }
    hide Inv;
    hide Typed;
    if step.CallClose? || step.LeaveClose? {
      CloseAdvances(s, step);
    } else if step.Delete? || step.Erase? {
      RemovalAdvances(s, step);
    } else if step.Recv? || step.Send? || step.CallSend? {
      IoAdvances(s, step);
    } else {
      CallAdvances(s, step);
    }
  }

  lemma MoveAdvances(s: State, t: State, w: nat, to: Worker)
    requires At(s, w) && t.workers == s.workers[w := to] && Left(to) < Left(s.workers[w])
    ensures Advances(s, t, w, false) && Advances(s, t, w, true)
  {
  }

  lemma ReapWorkers(u: State, c: Id)
    requires c < |u.conns|
    ensures Reap(u, c).workers == u.workers
  {
    hide Referenced;
  }

  lemma CloseAdvances(s: State, step: Step)
    requires Enabled(s, step) && (step.CallClose? || step.LeaveClose?)
    requires s.workers[step.worker].conn < |s.conns|
    ensures Advances(s, NextClose(s, step), step.worker, false)
  {
    var w, t, c := step.worker, NextClose(s, step), s.workers[step.worker].conn;
    ReapWorkers(Finish(s, w, c, s.conns[c]), c);
    ReapWorkers(Finish(s, w, c, s.conns[c].(missed := true)), c);
    hide Typed;
    hide Reap;
    hide Advances;
    MoveAdvances(s, t, w, t.workers[w]);
  }

  lemma RemovalAdvances(s: State, step: Step)
    requires Enabled(s, step) && (step.Delete? || step.Erase?)
    requires s.workers[step.worker].conn < |s.conns| && (step.Delete? ==> IsRegistered(s, s.workers[step.worker].conn))
    ensures Advances(s, NextClose(s, step), step.worker, false)
  {
    hide Typed;
    hide Advances;
    var w, t := step.worker, NextClose(s, step);
    MoveAdvances(s, t, w, t.workers[w]);
  }

  lemma IoAdvances(s: State, step: Step)
    requires Enabled(s, step) && (step.Recv? || step.Send? || step.CallSend?)
    ensures Advances(s, NextHandler(s, step), step.worker, step.Recv? || step.Send?)
  {
    hide Typed;
    hide Advances;
    var w, t := step.worker, NextHandler(s, step);
    if t == s && !step.CallSend? {
      SameAdvances(s, w);
    } else {
      MoveAdvances(s, t, w, t.workers[w]);
    }
  }

  lemma SameAdvances(s: State, w: nat)
    requires At(s, w)
    ensures Advances(s, s, w, true)
  {
  }

  lemma CallAdvances(s: State, step: Step)
    requires Enabled(s, step) && (step.Enter? || step.CallMessage? || step.Return?)
    requires s.workers[step.worker].conn < |s.conns|
    ensures Advances(s, NextHandler(s, step), step.worker, false)
  {
    var w, t, c := step.worker, NextHandler(s, step), s.workers[step.worker].conn;
    var k := s.conns[c];
    ReapWorkers(Finish(s, w, c, k.(missed := true)), c);
    if step.Return? {
      ReapWorkers(Finish(s, w, c, k.(declined := s.workers[w].maySend)), c);
    }
    hide Typed;
    hide Reap;
    hide Advances;
    hide Dispatched;
    MoveAdvances(s, t, w, t.workers[w]);
  }

  /** The next step of a handler when `recv` and `send` have nothing more to do. */
  function Onward(s: State, w: nat): Step
    requires At(s, w) && !s.workers[w].Free?
  {
    match s.workers[w]
    case Entering(_) => Enter(w)
    case Receiving(_) => Recv(w, RecvWouldBlock)
    case Messaging(_) => CallMessage(w)
    case InCallback(_, _) => Return(w)
    case Sending(_) => Send(w, true)
    case Closing(_, _) => CallClose(w)
    case Deleting(_, _) => Delete(w)
    case Erasing(_, _) => Erase(w)
    case Closed(_, _) => LeaveClose(w)
  }

  /** No handler is ever stuck: its worker alone can bring it to its end. */
  lemma {:induction false} HandlerEnds(s: State, w: nat) returns (steps: seq<Step>)
    requires Inv(s) && At(s, w)
    ensures |steps| <= Left(s.workers[w]) && Legal(s, steps)
    ensures forall i | 0 <= i < |steps| :: InHandler(steps[i]) && steps[i].worker == w
    ensures var t := After(s, steps);
            && Inv(t) && t.workers == s.workers[w := Free] && t.active == s.active && t.queue == s.queue
            && |t.conns| == |s.conns|
    decreases Left(s.workers[w])
  {
    if s.workers[w].Free? {
      steps := [];
      assert s.workers[w := Free] == s.workers;
    } else {
      var step, t := OnwardStep(s, w);
      hide Inv;
      hide Next;
      hide Enabled;
      var more := HandlerEnds(t, w);
      steps := [step] + more;
      assert steps[1..] == more;
      assert t.workers[w := Free] == s.workers[w := Free];
    }
  }

  lemma OnwardStep(s: State, w: nat) returns (step: Step, t: State)
    requires Inv(s) && At(s, w) && !s.workers[w].Free?
    ensures Enabled(s, step) && InHandler(step) && step.worker == w && t == Next(s, step) && Inv(t)
    ensures At(t, w) && t.workers == s.workers[w := t.workers[w]] && Left(t.workers[w]) < Left(s.workers[w])
    ensures t.active == s.active && t.queue == s.queue && |t.conns| == |s.conns|
  {
    step := Onward(s, w);
    OnwardEnabled(s, w);
    StepKeepsInv(s, step);
    HandlerAdvances(s, step);
    StepTouches(s, step);
    t := Next(s, step);
    hide Inv;
    hide Next;
    hide Enabled;
    hide Subject;
    hide Later;
    hide Records;
    hide Onward;
  }

  lemma OnwardEnabled(s: State, w: nat)
    requires Inv(s) && At(s, w) && !s.workers[w].Free?
    ensures var step := Onward(s, w); Enabled(s, step) && InHandler(step) && step.worker == w
    ensures Enabled(s, Onward(s, w)) && (Onward(s, w).Recv? || Onward(s, w).Send? ==> Next(s, Onward(s, w)) != s)
  {
    InvTyped(s);
    hide Inv;
    hide Typed;
  }

  // Every delivered event can be handled.

  /** What the loops and the workers do by themselves. */
  predicate ByLoopsAndWorkers(steps: seq<Step>) {
    forall i | 0 <= i < |steps| :: steps[i].Commit? || steps[i].Dequeue? || InHandler(steps[i])
  }

  lemma HandlerServes(s: State, w: nat, c: Id) returns (steps: seq<Step>)
    requires Inv(s) && At(s, w) && c < |s.conns| && s.conns[c].phase == Busy(w)
    ensures |steps| <= 10 && Legal(s, steps) && ByLoopsAndWorkers(steps)
    ensures var t := After(s, steps); c < |t.conns| && t.conns[c].phase == Handled
  {
    steps := HandlerEnds(s, w);
    RunLater(s, steps, c);
    var t := After(s, steps);
    BusyOver(s, t, w, c);
    hide Inv;
    hide Legal;
    hide After;
  }

  lemma BusyOver(s: State, t: State, w: nat, c: Id)
    requires Inv(s) && Inv(t) && At(s, w) && c < |s.conns| == |t.conns| && s.conns[c].phase == Busy(w)
    requires t.workers == s.workers[w := Free] && Later(s.conns[c], t.conns[c])
    ensures t.conns[c].phase == Handled
  {
    assert ConnOk(t, c);
    hide ConnsOk;
    hide FlightOk;
  }

  /** The queue is worked off up to position `j`. */
  lemma {:induction false} QueueServes(s: State, j: nat, c: Id) returns (steps: seq<Step>)
    requires Inv(s) && |s.workers| > 0 && j < |s.queue| && s.queue[j] == c
    ensures |steps| <= 11 * (j + 1) + 10 && Legal(s, steps) && ByLoopsAndWorkers(steps)
    ensures var t := After(s, steps); c < |t.conns| && t.conns[c].phase == Handled
    decreases j
  {
    hide *;
    var front, u := Frees(s);
    var t := Takes(u);
    var rest;
    if j == 0 {
      rest := HandlerServes(t, 0, c);
    } else {
      rest := QueueServes(t, j - 1, c);
    }
    Follow(s, front, Dequeue(0), rest);
    steps := front + ([Dequeue(0)] + rest);
    AllByLoops(front, Dequeue(0), rest);
  }

  /** A free worker takes the first handler of the queue. */
  lemma Takes(s: State) returns (t: State)
    requires Inv(s) && |s.workers| > 0 && s.workers[0] == Free && s.queue != []
    ensures Enabled(s, Dequeue(0)) && t == Next(s, Dequeue(0)) && Inv(t)
    ensures t.queue == s.queue[1..] && |t.workers| == |s.workers| && At(t, 0)
    ensures s.queue[0] < |t.conns| && t.conns[s.queue[0]].phase == Busy(0)
  {
    InvTyped(s);
    hide Inv;
    t := Next(s, Dequeue(0));
    StepKeepsInv(s, Dequeue(0));
  }

  /** The first worker gets free, with nothing taken from the queue. */
  lemma Frees(s: State) returns (front: seq<Step>, u: State)
    requires Inv(s) && |s.workers| > 0
    ensures |front| <= 10 && (forall i | 0 <= i < |front| :: InHandler(front[i]))
    ensures Legal(s, front) && u == After(s, front) && Inv(u)
    ensures |u.workers| == |s.workers| && u.workers[0] == Free && u.queue == s.queue
  {
    front := HandlerEnds(s, 0);
    u := After(s, front);
    hide Inv;
    hide Legal;
    hide After;
  }

  lemma AllByLoops(front: seq<Step>, step: Step, rest: seq<Step>)
    requires forall i | 0 <= i < |front| :: InHandler(front[i])
    requires ByLoopsAndWorkers(rest) && (step.Commit? || step.Dequeue?)
    ensures ByLoopsAndWorkers(front + ([step] + rest)) && |front + ([step] + rest)| == |front| + 1 + |rest|
  {
  }

  lemma Follow(s: State, front: seq<Step>, step: Step, rest: seq<Step>)
    requires Legal(s, front) && Enabled(After(s, front), step) && Legal(Next(After(s, front), step), rest)
    ensures Legal(s, front + ([step] + rest))
    ensures After(s, front + ([step] + rest)) == After(Next(After(s, front), step), rest)
  {
    hide Enabled;
    hide Next;
    OneStep(After(s, front), step);
    Chain(After(s, front), [step], rest);
    Chain(s, front, [step] + rest);
  }

  /** The loop hands over its channels up to position `i`. */
  lemma {:induction false} LoopServes(s: State, sub: nat, i: nat, c: Id) returns (steps: seq<Step>)
    requires Inv(s) && |s.workers| > 0 && sub < |s.active| && i < |s.active[sub]| && s.active[sub][i] == c
    ensures |steps| <= 12 * (i + 1) + 11 * |s.queue| + 10 && Legal(s, steps) && ByLoopsAndWorkers(steps)
    ensures var t := After(s, steps); c < |t.conns| && t.conns[c].phase == Handled
    decreases i
  {
    InvTyped(s);
    var step := Commit(sub);
    assert Enabled(s, step);
    StepKeepsInv(s, step);
    var t := Next(s, step);
    assert t.queue == s.queue + [s.active[sub][0]] && t.active == s.active[sub := s.active[sub][1..]];
    assert |t.workers| == |s.workers|;
    assert Legal(s, []) && After(s, []) == s;
    hide *;
    var rest;
    if i == 0 {
      rest := QueueServes(t, |s.queue|, c);
    } else {
      rest := LoopServes(t, sub, i - 1, c);
    }
    Follow(s, [], step, rest);
    steps := [] + ([step] + rest);
    AllByLoops([], step, rest);
  }

  /** Whatever has happened before, a connection whose event has been delivered can be brought to the end of its
      handler by the loops and the workers alone, in a bounded number of steps. */
  lemma EventServed(s: State, c: Id) returns (steps: seq<Step>)
    requires Reached(s) && |s.workers| > 0 && c < |s.conns| && s.conns[c].deliveries == 1
    ensures Legal(s, steps) && ByLoopsAndWorkers(steps)
    ensures |s.active| > 0 && |steps| <= 12 * |s.active[Hash(s.conns[c].fd, |s.active|)]| + 11 * |s.queue| + 10
    ensures var t := After(s, steps); c < |t.conns| && t.conns[c].phase == Handled
  {
    ReachedInv(s);
    if s.conns[c].phase == Handled {
      steps := [];
    } else {
      var p := PlaceOf(s, c);
      PhaseAt(s, c, p);
      hide Inv;
      hide Reached;
      hide Legal;
      hide After;
      match p
      case InLoop(sub, i) => steps := LoopServes(s, sub, i, c);
      case InPool(j) => steps := QueueServes(s, j, c);
      case InWorker(w) => steps := HandlerServes(s, w, c);
    }
  }
}
