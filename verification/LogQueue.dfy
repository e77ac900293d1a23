/** The queue between the threads that log and the one thread that writes (src/log/Log.h:40-70 and
    160-165), as a system of atomic steps: every critical section is one step, and so is every wake-up. */
module LogQueues {

  /** Where the writing thread is: on its way into `pop`, asleep in `cv_.wait`, between `pop` and the end of
      the file output, or past its loop. */
  datatype Consumer = Heading | Blocked | Writing(msg: string) | Done

  /** `pushed` is every message pushed so far, `written` every message in the file. */
  datatype State = State(
    queue: seq<string>,
    isShutdown: bool,
    consumer: Consumer,
    pushed: seq<string>,
    written: seq<string>)

  const INITIAL := State([], false, Heading, [], [])

  datatype Step =
    | Push(msg: string)
    | Pop
    | Write
    | Shutdown
    | SpuriousWakeup

  predicate Enabled(s: State, step: Step) {
    match step
    case Push(_) => true
    case Pop => s.consumer == Heading
    case Write => s.consumer.Writing?
    case Shutdown => true
    case SpuriousWakeup => s.consumer == Blocked
  }

  /** `notify`: a sleeping consumer goes back to look at the queue. */
  function Notified(c: Consumer): Consumer {
    if c == Blocked then Heading else c
  }

  function Next(s: State, step: Step): State
    requires Enabled(s, step)
  {
    match step
    case Push(msg) =>
      var queue := s.queue + [msg];
      s.(queue := queue, pushed := s.pushed + [msg],
         consumer := if |queue| == 1 then Notified(s.consumer) else s.consumer)
    case Pop =>
      if s.queue == [] && !s.isShutdown then s.(consumer := Blocked)
      else if s.isShutdown && s.queue == [] then s.(consumer := Done)
      else s.(consumer := Writing(s.queue[0]), queue := s.queue[1..])
    case Write => s.(consumer := Heading, written := s.written + [s.consumer.msg])
    case Shutdown => s.(isShutdown := true, consumer := Notified(s.consumer))
    case SpuriousWakeup => s.(consumer := Heading)
  }

  predicate Legal(s: State, steps: seq<Step>)
    decreases |steps|
  {
    steps == [] || (Enabled(s, steps[0]) && Legal(Next(s, steps[0]), steps[1..]))
  }

  function After(s: State, steps: seq<Step>): State
    requires Legal(s, steps)
    decreases |steps|
  {
    if steps == [] then s else After(Next(s, steps[0]), steps[1..])
  }

  /** The messages between `pop` and the file. */
  function InFlight(c: Consumer): seq<string> {
    if c.Writing? then [c.msg] else []
  }

  /** No wake-up is lost, and no message is lost, doubled or reordered. */
  predicate Inv(s: State) {
    && (s.consumer == Blocked ==> s.queue == [] && !s.isShutdown)
    && s.written + InFlight(s.consumer) + s.queue == s.pushed
    && (s.consumer == Done ==> s.isShutdown)
  }

  lemma StepKeepsInv(s: State, step: Step)
    requires Inv(s) && Enabled(s, step)
    ensures Inv(Next(s, step))
  {
    var w, f, q := s.written, InFlight(s.consumer), s.queue;
    match step
    case Push(msg) =>
      assert w + f + (q + [msg]) == (w + f + q) + [msg];
    case Pop =>
      if q != [] {
        assert w + [q[0]] + q[1..] == w + [] + q;
      }
    case Write =>
      assert (w + f) + [] + q == w + f + q;
    case Shutdown =>
    case SpuriousWakeup =>
  }

  /** Safety over whole runs. */
  lemma {:induction false} RunKeepsInv(s: State, steps: seq<Step>)
    requires Inv(s) && Legal(s, steps)
    ensures Inv(After(s, steps))
    decreases |steps|
  {
    if steps != [] {
      StepKeepsInv(s, steps[0]);
      RunKeepsInv(Next(s, steps[0]), steps[1..]);
    }
  }

  /** The messages that the `push` calls of a run were given, in order. */
  function PushedBy(steps: seq<Step>): seq<string> {
    if steps == [] then []
    else (if steps[0].Push? then [steps[0].msg] else []) + PushedBy(steps[1..])
  }

  /** Every message gets into the queue, and no other; the flag is set by a shutdown, and stays. */
  lemma {:induction false} RunRecords(s: State, steps: seq<Step>)
    requires Legal(s, steps)
    ensures After(s, steps).pushed == s.pushed + PushedBy(steps)
    ensures After(s, steps).isShutdown <==> s.isShutdown || Shutdown in steps
    decreases |steps|
  {
    if steps == [] {
      assert s.pushed + [] == s.pushed;
    } else {
      var t, first := Next(s, steps[0]), if steps[0].Push? then [steps[0].msg] else [];
      assert t.pushed == s.pushed + first && (t.isShutdown <==> s.isShutdown || steps[0] == Shutdown) by {
        StepRecords(s, steps[0]);
      }
      assert steps == [steps[0]] + steps[1..];
      hide Next;
      hide Enabled;
      RunRecords(t, steps[1..]);
      Regroup(s.pushed, first, PushedBy(steps[1..]));
    }
  }

  lemma StepRecords(s: State, step: Step)
    requires Enabled(s, step)
    ensures Next(s, step).pushed == s.pushed + if step.Push? then [step.msg] else []
    ensures Next(s, step).isShutdown <==> s.isShutdown || step == Shutdown
  {
  }

  lemma Regroup(a: seq<string>, b: seq<string>, c: seq<string>)
    ensures (a + b) + c == a + (b + c)
  {
  }

  /** What the invariant means: the file holds a prefix of what was pushed; a sleeping consumer has nothing to do; and
      a `pop` that returns false does so when everything pushed so far is in the file. */
  predicate Sound(s: State) {
    && s.written <= s.pushed
    && s.written + InFlight(s.consumer) + s.queue == s.pushed
    && (s.consumer == Blocked ==> s.queue == [] && !s.isShutdown && s.written == s.pushed)
    && (Enabled(s, Pop) && Next(s, Pop).consumer == Done ==> s.written == s.pushed)
  }

  lemma InvSound(s: State)
    requires Inv(s)
    ensures Sound(s)
  {
    assert s.written + InFlight(s.consumer) + s.queue == s.written + (InFlight(s.consumer) + s.queue);
  }

  /** Every run is sound, `pushed` is what its pushes were given, in order, and the flag says whether there was a
      shutdown. */
  lemma LogRun(steps: seq<Step>)
    requires Legal(INITIAL, steps)
    ensures var s := After(INITIAL, steps);
            Sound(s) && s.pushed == PushedBy(steps) && (s.isShutdown <==> Shutdown in steps)
  {
    assert Inv(INITIAL) && INITIAL.pushed == [] && !INITIAL.isShutdown;
    hide *;
    RunKeepsInv(INITIAL, steps);
    RunRecords(INITIAL, steps);
    InvSound(After(INITIAL, steps));
    assert [] + PushedBy(steps) == PushedBy(steps);
  }

  predicate ByConsumer(steps: seq<Step>) {
    forall i | 0 <= i < |steps| :: steps[i] == Pop || steps[i] == Write
  }

  /** After a shutdown the consumer alone, with at most two steps for each message and two more, gets every
      message into the file and ends its loop: the join in the logger's destructor finishes. */
  lemma {:induction false} Drains(s: State) returns (steps: seq<Step>)
    requires Inv(s) && s.isShutdown
    ensures Legal(s, steps) && ByConsumer(steps) && |steps| <= 2 * |s.queue| + if s.consumer.Writing? then 2 else 1
    ensures var t := After(s, steps); t.consumer == Done && (s.consumer != Done ==> t.written == s.pushed)
    decreases |s.queue|, s.consumer.Writing?
  {
    if s.consumer == Done {
      steps := [];
    } else {
      var step := if s.consumer == Heading then Pop else Write;
      StepKeepsInv(s, step);
      var more := [];
      if Next(s, step).consumer != Done {
        more := Drains(Next(s, step));
      }
      steps := [step] + more;
      assert steps[1..] == more;
    }
  }

  /** The object. The mutex makes each method one step; `consumer`, `pushed` and `written` are what the
      threads around it do. */
  class LogQueue {
    var queue: seq<string>
    var isShutdown: bool
    ghost var consumer: Consumer
    ghost var pushed: seq<string>
    ghost var written: seq<string>

    ghost function View(): State
      reads this
    {
      State(queue, isShutdown, consumer, pushed, written)
    }

    constructor ()
      ensures View() == INITIAL
      ensures queue == [] && !isShutdown && consumer == Heading
    {
      queue, isShutdown := [], false;
      consumer, pushed, written := Heading, [], [];
    }

    method PushMessage(msg: string)
      modifies this
      ensures View() == Next(old(View()), Push(msg))
      ensures queue == old(queue) + [msg]
    {
      queue := queue + [msg];
      pushed := pushed + [msg];
      if |queue| == 1 {
        consumer := Notified(consumer);
      }
    }

    /** One pass of `pop` under the mutex: sleep, end with false, or take the oldest message. */
    method PopMessage() returns (asleep: bool, ok: bool, msg: string)
      requires consumer == Heading
      modifies this
      ensures View() == Next(old(View()), Pop)
      ensures asleep == (consumer == Blocked)
      ensures !asleep ==> ok == (consumer != Done)
      ensures ok ==> !asleep && consumer == Writing(msg) && old(queue) == [msg] + queue
    {
      asleep, ok, msg := false, false, "";
      if queue == [] && !isShutdown {
        consumer := Blocked;
        asleep := true;
        return;
      }
      if isShutdown && queue == [] {
        consumer := Done;
        return;
      }
      ok, msg := true, queue[0];
      queue := queue[1..];
      consumer := Writing(msg);
    }

    method ShutDown()
      modifies this
      ensures View() == Next(old(View()), Shutdown)
      ensures isShutdown && consumer != Blocked
    {
      isShutdown := true;
      consumer := Notified(consumer);
    }
  }
}
