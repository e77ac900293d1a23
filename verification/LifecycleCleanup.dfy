/** Exactly when a connection is cleaned up, and that it leaks otherwise. */
module LifecycleCleanup {
  import opened Reactor
  import opened ConnectionIo
  import opened Lifecycle
  import opened LifecycleProofs
  import opened LifecycleSafety
  import opened LifecycleSteps

  // What is left when a handler is over.

  predicate Mentioned(s: State, c: Id) {
    || (exists fd :: fd in s.interest && s.interest[fd].channel == c)
    || (exists fd :: fd in s.table && s.table[fd] == c)
  }

  /** Closed once, taken out of epoll and of the table, and destroyed unless the accepting thread still has it. */
  predicate Clean(s: State, c: Id)
    requires c < |s.conns|
  {
    var k := s.conns[c];
    k.closeCalls == k.dels == 1 && k.inserted && !Mentioned(s, c) && (k.destroyed <==> !HeldByAcceptor(s.acceptor, c))
  }

  /** A leak: open, and in the table as soon as the accept callback has run. */
  predicate Leaked(s: State, c: Id)
    requires c < |s.conns|
  {
    Owns(s, c, s.conns[c].fd) && (s.conns[c].inserted <==> InTable(s, c))
  }

  /** Every handled connection is clean or leaked. It is clean if and only if its event was readable, the message
      callback, if it was called, sent, and the handler found done whatever it needed of the accepting thread: the read
      callback when it was entered, pointer and callbacks when it called them, the table entry when it erased it. */
  lemma CleanIff(s: State, c: Id)
    requires Reached(s) && c < |s.conns| && s.conns[c].phase == Handled
    ensures var k := s.conns[c]; Clean(s, c) <==> Readable(k) && !k.declined && !k.missed
    ensures Clean(s, c) <==> !Leaked(s, c)
    ensures !Clean(s, c) && !s.conns[c].missed ==> s.conns[c].closeCalls == s.conns[c].dels == 0 && IsRegistered(s, c)
  {
    ErasedIsClean(s, c);
    ReachedInv(s);
    assert ConnOk(s, c);
    hide Reached;
    hide ConnsOk;
    hide KeysOk;
    hide FlightOk;
    hide WorkersOk;
    hide DistinctFds;
    hide Mentioned;
  }

  lemma ErasedIsClean(s: State, c: Id)
    requires Reached(s) && c < |s.conns| && s.conns[c].phase == Handled
    ensures s.conns[c].erased ==> Clean(s, c)
    ensures !s.conns[c].erased ==> Leaked(s, c) && !Clean(s, c)
  {
    ReachedInv(s);
    assert ConnOk(s, c);
    hide Reached;
    hide ConnsOk;
    hide FlightOk;
    hide WorkersOk;
    hide DistinctFds;
    if !s.conns[c].erased && s.conns[c].inserted {
      assert s.conns[c].fd in s.table;
    }
  }

  // The same in terms of the steps of a run.

  /** What a run can have done to a connection. */
  datatype Mark =
    | Inserts        // the table insert
    | Delivers       // the delivery of an event
    | WouldBlock     // the receive loop ends with EAGAIN
    | Ends           // it ends with an error or the end of input
    | Sends          // the message callback calls SendMessage
    | Erases         // the close callback comes to its erase

  predicate HasMark(step: Step, mark: Mark) {
    match mark
    case Inserts => step.Insert?
    case Delivers => step.Deliver?
    case WouldBlock => step.Recv? && step.received == RecvWouldBlock
    case Ends => step.Recv? && (step.received == RecvFailed || step.received == PeerClosed)
    case Sends => step.CallSend?
    case Erases => step.Erase?
  }

  /** Some step of the run does it to `c`. */
  predicate Occurs(s: State, steps: seq<Step>, c: Id, mark: Mark)
    requires Legal(s, steps)
    decreases |steps|
  {
    && steps != []
    && ((HasMark(steps[0], mark) && Subject(s, steps[0]) == c) || Occurs(Next(s, steps[0]), steps[1..], c, mark))
  }

  /** The run has the table insert of `c` and, later, its erase. */
  predicate InsertsThenErases(s: State, steps: seq<Step>, c: Id)
    requires Legal(s, steps)
    decreases |steps|
  {
    && steps != []
    && ((HasMark(steps[0], Inserts) && Subject(s, steps[0]) == c && Occurs(Next(s, steps[0]), steps[1..], c, Erases))
        || InsertsThenErases(Next(s, steps[0]), steps[1..], c))
  }

  /** What the history of `c` says about a mark. */
  predicate Recorded(s: State, c: Id, mark: Mark)
    requires mark != Erases
  {
    && c < |s.conns|
    && match mark
       case Inserts => s.conns[c].inserted
       case Delivers => s.conns[c].deliveries == 1
       case WouldBlock => s.conns[c].heard == Ready
       case Ends => s.conns[c].heard == Gone
       case Sends => s.conns[c].sent
  }

  predicate Erased(s: State, c: Id) { c < |s.conns| && s.conns[c].erased }

  /** The history variables say what they are meant to say. */
  lemma StepRecorded(s: State, step: Step, c: Id, mark: Mark)
    requires Inv(s) && Enabled(s, step) && mark != Erases
    ensures Recorded(Next(s, step), c, mark) <==>
            Recorded(s, c, mark) || (HasMark(step, mark) && Subject(s, step) == c)
  {
    if !step.Accept? {
      StepTouches(s, step);
      BeforeStep(s, step);
      TouchesRecorded(s, Next(s, step), Subject(s, step), step, c, mark);
      hide Next;
    }
    hide Inv;
    hide Touches;
  }

  /** No event has come before the delivery, and nothing has been heard before the end of the receive loop. */
  lemma BeforeStep(s: State, step: Step)
    requires Inv(s) && Enabled(s, step) && !step.Accept?
    ensures Subject(s, step) < |s.conns|
    ensures var k := s.conns[Subject(s, step)];
            && (step.Deliver? ==> k.deliveries == 0)
            && (step.Recv? ==> k.heard == RecvPending)
            && (step.Erase? ==> !k.erased)
  {
    StepTouches(s, step);
    if step.Deliver? {
      assert ConnOk(s, Subject(s, step));
    } else if step.Recv? || step.Erase? {
      Own(s, step.worker);
    }
    hide Inv;
    hide Later;
    hide Records;
    hide Next;
  }

  lemma TouchesRecorded(s: State, t: State, d: Id, step: Step, c: Id, mark: Mark)
    requires Touches(s, t, d, step) && mark != Erases
    requires step.Deliver? ==> s.conns[d].deliveries == 0
    requires step.Recv? ==> s.conns[d].heard == RecvPending
    ensures Recorded(t, c, mark) <==> Recorded(s, c, mark) || (HasMark(step, mark) && d == c)
  {
    hide Later;
  }

  lemma {:induction false} RunRecorded(s: State, steps: seq<Step>, c: Id, mark: Mark)
    requires Inv(s) && Legal(s, steps) && mark != Erases
    ensures Recorded(After(s, steps), c, mark) <==> Recorded(s, c, mark) || Occurs(s, steps, c, mark)
    decreases |steps|
  {
    hide Inv;
    hide Next;
    hide Enabled;
    hide Subject;
    hide Recorded;
    hide HasMark;
    if steps != [] {
      StepRecorded(s, steps[0], c, mark);
      StepKeepsInv(s, steps[0]);
      RunRecorded(Next(s, steps[0]), steps[1..], c, mark);
    }
  }

  lemma StepErased(s: State, step: Step, c: Id)
    requires Inv(s) && Enabled(s, step)
    ensures Erased(Next(s, step), c) <==>
            Erased(s, c) || (HasMark(step, Erases) && Subject(s, step) == c && Recorded(s, c, Inserts))
  {
    if !step.Accept? {
      StepTouches(s, step);
      BeforeStep(s, step);
      TouchesErased(s, Next(s, step), Subject(s, step), step, c);
      hide Next;
    }
    hide Inv;
    hide Touches;
  }

  lemma TouchesErased(s: State, t: State, d: Id, step: Step, c: Id)
    requires Touches(s, t, d, step) && (step.Erase? ==> !s.conns[d].erased)
    ensures Erased(t, c) <==> Erased(s, c) || (HasMark(step, Erases) && d == c && Recorded(s, c, Inserts))
  {
    hide Later;
  }

  lemma {:induction false} RunErased(s: State, steps: seq<Step>, c: Id)
    requires Inv(s) && Legal(s, steps)
    ensures Erased(After(s, steps), c) <==>
            || Erased(s, c) || (Recorded(s, c, Inserts) && Occurs(s, steps, c, Erases))
            || InsertsThenErases(s, steps, c)
    decreases |steps|
  {
    hide Inv;
    hide Next;
    hide Enabled;
    hide Subject;
    hide Erased;
    hide Recorded;
    hide HasMark;
    if steps != [] {
      StepErased(s, steps[0], c);
      StepRecorded(s, steps[0], c, Inserts);
      StepKeepsInv(s, steps[0]);
      RunErased(Next(s, steps[0]), steps[1..], c);
    }
  }

  /** In every run: what the handler of `c`, when it is over, has called. The message callback is called only after the
      peer has been read up to EAGAIN, and never after an error or the end of input. With nothing missed: one of the two
      happens exactly for a readable event, the message callback is called exactly after EAGAIN, and the close callback
      exactly after an error or the end of input, or when the message callback has sent. */
  lemma HandlerCourse(open: set<nat>, subServers: nat, threads: nat, steps: seq<Step>, c: Id)
    requires subServers > 0 && Legal(Initial(open, subServers, threads), steps)
    requires c < |After(Initial(open, subServers, threads), steps).conns|
    requires After(Initial(open, subServers, threads), steps).conns[c].phase == Handled
    ensures var s0 := Initial(open, subServers, threads);
            var k := After(s0, steps).conns[c];
            var wouldBlock, ends := Occurs(s0, steps, c, WouldBlock), Occurs(s0, steps, c, Ends);
            && Occurs(s0, steps, c, Delivers)
            && !(wouldBlock && ends)
            && (k.messageCalls == 1 ==> wouldBlock) && (ends ==> k.messageCalls == 0)
            && (k.declined <==> k.messageCalls == 1 && !Occurs(s0, steps, c, Sends))
            && (wouldBlock || ends ==> Readable(k))
            && (!k.missed ==>
                  && (Readable(k) ==> wouldBlock || ends)
                  && (wouldBlock ==> k.messageCalls == 1)
                  && (k.closeCalls == 1 <==> ends || Occurs(s0, steps, c, Sends)))
  {
    var s0 := Initial(open, subServers, threads);
    var s := After(s0, steps);
    InitialInv(open, subServers, threads);
    RunKeepsInv(s0, steps);
    assert |s0.conns| == 0;
    RunRecorded(s0, steps, c, Delivers);
    RunRecorded(s0, steps, c, WouldBlock);
    RunRecorded(s0, steps, c, Ends);
    RunRecorded(s0, steps, c, Sends);
    assert ConnOk(s, c);
    hide Inv;
    hide Initial;
    hide After;
    hide Legal;
    hide Occurs;
    hide Readable;
  }

  /** In every run: a handled connection is clean if and only if its table insert came before the erase of its
      handler. A handler that never came to its erase, or came to it first, has leaked its connection. */
  lemma CleanByOrder(open: set<nat>, subServers: nat, threads: nat, steps: seq<Step>, c: Id)
    requires subServers > 0 && Legal(Initial(open, subServers, threads), steps)
    ensures var s0 := Initial(open, subServers, threads);
            var s := After(s0, steps);
            c < |s.conns| && s.conns[c].phase == Handled ==>
              (Clean(s, c) <==> InsertsThenErases(s0, steps, c)) && (Leaked(s, c) <==> !InsertsThenErases(s0, steps, c))
  {
    var s0 := Initial(open, subServers, threads);
    var s := After(s0, steps);
    InitialInv(open, subServers, threads);
    RunErased(s0, steps, c);
    assert Reached(s);
    hide Reached;
    hide Clean;
    hide Leaked;
    if c < |s.conns| && s.conns[c].phase == Handled {
      ErasedIsClean(s, c);
      CleanIff(s, c);
    }
  }

  /** Once the table insert is done and nothing has been missed so far, nothing will be: then the clean-up depends on
      the event and the message callback alone. */
  lemma CleanInTime(s: State, steps: seq<Step>, c: Id)
    requires Reached(s) && c < |s.conns| && s.conns[c].inserted && !s.conns[c].missed && Legal(s, steps)
    ensures var t := After(s, steps);
            c < |t.conns| && (t.conns[c].phase == Handled ==>
              (Clean(t, c) <==> Readable(t.conns[c]) && !t.conns[c].declined))
  {
    ReachedInv(s);
    hide Inv;
    RunLater(s, steps, c);
    ReachedRun(s, steps);
    hide Reached;
    hide Clean;
    hide Readable;
    var t := After(s, steps);
    hide After;
    if t.conns[c].phase == Handled {
      CleanIff(t, c);
    }
  }

  /** In particular when it is done before the handler begins, or before the event is delivered. */
  lemma NothingMissedYet(s: State, c: Id)
    requires Reached(s) && c < |s.conns|
    requires Rank(s.conns[c].phase) < 3 || exists w: nat :: At(s, w) && s.workers[w] == Entering(c)
    ensures !s.conns[c].missed
  {
    ReachedInv(s);
    assert ConnOk(s, c);
    if w: nat :| At(s, w) && s.workers[w] == Entering(c) {
      Own(s, w);
    }
    hide Inv;
  }

  // Leaks.

  /** A leak is for good: in every continuation the descriptor stays open and no other event comes. */
  lemma LeakedForever(s: State, steps: seq<Step>, c: Id)
    requires Reached(s) && c < |s.conns| && s.conns[c].phase == Handled && Leaked(s, c)
    requires Legal(s, steps)
    ensures var t := After(s, steps);
            && c < |t.conns| && t.conns[c].phase == Handled && Leaked(t, c)
            && t.conns[c].deliveries == s.conns[c].deliveries
  {
    ReachedInv(s);
    hide Inv;
    assert !s.conns[c].erased by {
      ErasedIsClean(s, c);
      CleanIff(s, c);
    }
    RunLater(s, steps, c);
    ReachedRun(s, steps);
    hide Reached;
    ErasedIsClean(After(s, steps), c);
    hide Leaked;
    hide Clean;
    hide After;
  }

  /** A handler that is over before the accept callback has run leaks its connection. */
  lemma EarlyHandlerLeaks(s: State, steps: seq<Step>, c: Id)
    requires Reached(s) && c < |s.conns| && s.conns[c].phase == Handled && !s.conns[c].inserted
    requires Legal(s, steps)
    ensures c < |After(s, steps).conns| && Leaked(After(s, steps), c)
  {
    CleanIff(s, c);
    hide Leaked;
    LeakedForever(s, steps, c);
  }
}
