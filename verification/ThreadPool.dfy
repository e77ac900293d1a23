/** The thread pool (src/header/ThreadPool.cpp:22-42, src/header/ThreadPool.h:21-36) while nobody stops it, as
    a system of atomic steps: every critical section is one step, and so is every wake-up. */
module ThreadPools {

  /** What is committed: the endless loop of a sub-server, or the handling of one event. */
  datatype Task = Endless | Handler(id: nat)

  /** A worker is on its way to the dequeue, asleep in `cv_.wait`, or inside a task. */
  datatype Worker = Heading | Blocked | Running(task: Task)

  datatype State = State(
    queue: seq<Task>,
    workers: seq<Worker>,
    committed: seq<Task>,
    started: seq<Task>)

  function Initial(threads: nat): State {
    State([], seq(threads, i => Heading), [], [])
  }

  datatype Step =
    | Commit(task: Task, woken: nat)
    | Dequeue(worker: nat)
    | SpuriousWakeup(worker: nat)
    | Finish(worker: nat)

  function CountEndless(tasks: seq<Task>): nat {
    if tasks == [] then 0 else CountEndless(tasks[1..]) + if tasks[0] == Endless then 1 else 0
  }

  predicate AnyBlocked(ws: seq<Worker>) {
    exists i | 0 <= i < |ws| :: ws[i] == Blocked
  }

  /** `subServers` loops at most are ever committed; `notify_one` wakes a sleeping worker if there is one. */
  predicate Enabled(s: State, step: Step, subServers: nat) {
    match step
    case Commit(task, woken) =>
      && (task == Endless ==> CountEndless(s.committed) < subServers)
      && (AnyBlocked(s.workers) ==> woken < |s.workers| && s.workers[woken] == Blocked)
    case Dequeue(w) => w < |s.workers| && s.workers[w] == Heading
    case SpuriousWakeup(w) => w < |s.workers| && s.workers[w] == Blocked
    case Finish(w) => w < |s.workers| && s.workers[w].Running? && s.workers[w].task.Handler?
  }

  function Next(s: State, step: Step, subServers: nat): State
    requires Enabled(s, step, subServers)
  {
    match step
    case Commit(task, woken) =>
      s.(queue := s.queue + [task],
         committed := s.committed + [task],
         workers := if AnyBlocked(s.workers) then s.workers[woken := Heading] else s.workers)
    case Dequeue(w) =>
      if s.queue == [] then s.(workers := s.workers[w := Blocked])
      else s.(workers := s.workers[w := Running(s.queue[0])],
              queue := s.queue[1..],
              started := s.started + [s.queue[0]])
    case SpuriousWakeup(w) => s.(workers := s.workers[w := Heading])
    case Finish(w) => s.(workers := s.workers[w := Heading])
  }

  predicate Legal(s: State, steps: seq<Step>, subServers: nat)
    decreases |steps|
  {
    steps == [] || (Enabled(s, steps[0], subServers) && Legal(Next(s, steps[0], subServers), steps[1..], subServers))
  }

  function After(s: State, steps: seq<Step>, subServers: nat): State
    requires Legal(s, steps, subServers)
    decreases |steps|
  {
    if steps == [] then s else After(Next(s, steps[0], subServers), steps[1..], subServers)
  }

  // Counting workers.

  function Count(ws: seq<Worker>, w: Worker): nat {
    if ws == [] then 0 else Count(ws[1..], w) + if ws[0] == w then 1 else 0
  }

  lemma {:induction false} CountUpdate(ws: seq<Worker>, i: nat, new_: Worker, w: Worker)
    requires i < |ws|
    ensures Count(ws[i := new_], w) == Count(ws, w) - (if ws[i] == w then 1 else 0) + (if new_ == w then 1 else 0)
  {
    if i == 0 {
      assert ws[0 := new_][1..] == ws[1..];
    } else {
      assert ws[i := new_][1..] == ws[1..][i - 1 := new_];
      CountUpdate(ws[1..], i - 1, new_, w);
    }
  }

  lemma {:induction false} CountWitness(ws: seq<Worker>, w: Worker)
    ensures Count(ws, w) > 0 <==> exists i | 0 <= i < |ws| :: ws[i] == w
  {
    if ws != [] {
      CountWitness(ws[1..], w);
      if j :| 0 <= j < |ws[1..]| && ws[1..][j] == w {
        assert ws[j + 1] == w;
      }
      if i :| 0 < i < |ws| && ws[i] == w {
        assert ws[1..][i - 1] == w;
      }
    }
  }

  lemma {:induction false} CountAll(ws: seq<Worker>, w: Worker)
    requires forall i | 0 <= i < |ws| :: ws[i] == w
    ensures Count(ws, w) == |ws|
  {
    if ws != [] {
      CountAll(ws[1..], w);
    }
  }

  lemma {:induction false} CountEndlessAppend(ts: seq<Task>, t: Task)
    ensures CountEndless(ts + [t]) == CountEndless(ts) + if t == Endless then 1 else 0
  {
    if ts == [] {
      assert ts + [t] == [t] && [t][1..] == [];
    } else {
      assert (ts + [t])[1..] == ts[1..] + [t];
      CountEndlessAppend(ts[1..], t);
    }
  }

  lemma {:induction false} CountEndlessPrefix(ts: seq<Task>, us: seq<Task>)
    ensures CountEndless(ts) <= CountEndless(ts + us)
  {
    if ts == [] {
    } else {
      assert (ts + us)[1..] == ts[1..] + us;
      CountEndlessPrefix(ts[1..], us);
    }
  }

  // The invariant.

  predicate Inv(s: State, subServers: nat) {
    && (AnyBlocked(s.workers) ==> |s.queue| <= Count(s.workers, Heading))
    && s.committed == s.started + s.queue
    && CountEndless(s.committed) <= subServers
    && Count(s.workers, Running(Endless)) == CountEndless(s.started)
  }

  lemma {:induction false} InitialInv(threads: nat, subServers: nat)
    ensures Inv(Initial(threads), subServers)
  {
    CountWitness(Initial(threads).workers, Running(Endless));
  }

  lemma StepKeepsInv(s: State, step: Step, subServers: nat)
    requires Inv(s, subServers) && Enabled(s, step, subServers)
    ensures Inv(Next(s, step, subServers), subServers)
    ensures |Next(s, step, subServers).workers| == |s.workers|
  {
    match step
    case Commit(task, woken) =>
      CountEndlessAppend(s.committed, task);
      if AnyBlocked(s.workers) {
        CountUpdate(s.workers, woken, Heading, Heading);
        CountUpdate(s.workers, woken, Heading, Running(Endless));
      }
      assert s.started + s.queue + [task] == s.started + (s.queue + [task]);
    case Dequeue(w) =>
      var to := if s.queue == [] then Blocked else Running(s.queue[0]);
      CountUpdate(s.workers, w, to, Heading);
      CountUpdate(s.workers, w, to, Running(Endless));
      if s.queue != [] {
        CountEndlessAppend(s.started, s.queue[0]);
        assert s.started + s.queue == (s.started + [s.queue[0]]) + s.queue[1..];
        assert AnyBlocked(s.workers[w := to]) ==> AnyBlocked(s.workers);
      }
    case SpuriousWakeup(w) =>
      CountUpdate(s.workers, w, Heading, Heading);
      CountUpdate(s.workers, w, Heading, Running(Endless));
    case Finish(w) =>
      CountUpdate(s.workers, w, Heading, Heading);
      CountUpdate(s.workers, w, Heading, Running(Endless));
  }

  lemma {:induction false} RunKeepsInv(s: State, steps: seq<Step>, subServers: nat)
    requires Inv(s, subServers) && Legal(s, steps, subServers)
    ensures Inv(After(s, steps, subServers), subServers)
    ensures |After(s, steps, subServers).workers| == |s.workers|
    decreases |steps|
  {
    if steps != [] {
      StepKeepsInv(s, steps[0], subServers);
      RunKeepsInv(Next(s, steps[0], subServers), steps[1..], subServers);
    }
  }

  /** The tasks that the `commit` calls of a run were given, in order. */
  function CommittedBy(steps: seq<Step>): seq<Task> {
    if steps == [] then []
    else (if steps[0].Commit? then [steps[0].task] else []) + CommittedBy(steps[1..])
  }

  /** Every committed task gets into the pool, and no other. */
  lemma {:induction false} RunCommits(s: State, steps: seq<Step>, subServers: nat)
    requires Legal(s, steps, subServers)
    ensures After(s, steps, subServers).committed == s.committed + CommittedBy(steps)
    decreases |steps|
  {
    if steps == [] {
      assert s.committed + [] == s.committed;
    } else {
      var t, first := Next(s, steps[0], subServers), if steps[0].Commit? then [steps[0].task] else [];
      assert t.committed == s.committed + first by { StepCommits(s, steps[0], subServers); }
      hide Next;
      hide Enabled;
      RunCommits(t, steps[1..], subServers);
      Regroup(s.committed, first, CommittedBy(steps[1..]));
    }
  }

  lemma StepCommits(s: State, step: Step, subServers: nat)
    requires Enabled(s, step, subServers)
    ensures Next(s, step, subServers).committed == s.committed + if step.Commit? then [step.task] else []
  {
    hide AnyBlocked;
  }

  lemma Regroup(a: seq<Task>, b: seq<Task>, c: seq<Task>)
    ensures (a + b) + c == a + (b + c)
  {
  }

  // Theorems about every run.

  /** Some worker is going to look at the queue, at once or after a handler that ends. */
  predicate Available(w: Worker) {
    w == Heading || (w.Running? && w.task.Handler?)
  }

  predicate Stranded(s: State) {
    s.queue != [] && forall i | 0 <= i < |s.workers| :: !Available(s.workers[i])
  }

  lemma NotStranded(s: State, subServers: nat)
    requires Inv(s, subServers) && |s.workers| > subServers
    ensures !Stranded(s)
  {
    CountWitness(s.workers, Heading);
    if forall i | 0 <= i < |s.workers| :: s.workers[i] == Running(Endless) {
      CountAll(s.workers, Running(Endless));
      CountEndlessPrefix(s.started, s.queue);
    }
  }

  /** Tasks start in the order in which they were committed, each at most once, and no other task does;
      with more threads than sub-servers no queued task is ever stranded. */
  lemma PoolRun(threads: nat, subServers: nat, steps: seq<Step>)
    requires Legal(Initial(threads), steps, subServers)
    ensures var s := After(Initial(threads), steps, subServers);
            && s.committed == s.started + s.queue == CommittedBy(steps)
            && Count(s.workers, Running(Endless)) <= subServers
            && (AnyBlocked(s.workers) ==> |s.queue| <= Count(s.workers, Heading))
            && (threads > subServers ==> !Stranded(s))
  {
    InitialInv(threads, subServers);
    RunKeepsInv(Initial(threads), steps, subServers);
    RunCommits(Initial(threads), steps, subServers);
    assert [] + CommittedBy(steps) == CommittedBy(steps);
    var s := After(Initial(threads), steps, subServers);
    CountEndlessPrefix(s.started, s.queue);
    if threads > subServers {
      NotStranded(s, subServers);
    }
  }

  predicate ByWorkers(steps: seq<Step>) {
    forall i | 0 <= i < |steps| :: steps[i].Dequeue? || steps[i].Finish?
  }

  /** With more threads than sub-servers, the workers can always start every queued task, in at most two
      steps for each, whatever else is running. */
  lemma {:induction false} QueueDrains(s: State, subServers: nat) returns (steps: seq<Step>)
    requires Inv(s, subServers) && |s.workers| > subServers
    ensures Legal(s, steps, subServers) && ByWorkers(steps) && |steps| <= 2 * |s.queue|
    ensures var t := After(s, steps, subServers); t.queue == [] && t.started == s.committed
    decreases |s.queue|
  {
    if s.queue == [] {
      steps := [];
    } else {
      NotStranded(s, subServers);
      var w :| 0 <= w < |s.workers| && Available(s.workers[w]);
      var front: seq<Step>, t := [], s;
      if s.workers[w] != Heading {
        front := [Finish(w)];
        StepKeepsInv(s, Finish(w), subServers);
        t := Next(s, Finish(w), subServers);
      }
      StepKeepsInv(t, Dequeue(w), subServers);
      var more := QueueDrains(Next(t, Dequeue(w), subServers), subServers);
      assert ([Dequeue(w)] + more)[1..] == more;
      steps := front + ([Dequeue(w)] + more);
      if front != [] {
        assert steps[1..] == [Dequeue(w)] + more;
      } else {
        assert steps == [Dequeue(w)] + more;
      }
    }
  }

  // More threads than sub-servers: needed, too.

  function LoopsTaken(k: nat, threads: nat): State
    requires k <= threads
  {
    State([], seq(threads, i => if i < k then Running(Endless) else Heading),
          seq(k, i => Endless), seq(k, i => Endless))
  }

  lemma {:induction false} EndlessSeq(k: nat)
    ensures CountEndless(seq(k, i => Endless)) == k
  {
    if k > 0 {
      EndlessSeq(k - 1);
      assert seq(k, i => Endless) == seq(k - 1, i => Endless) + [Endless];
      CountEndlessAppend(seq(k - 1, i => Endless), Endless);
    }
  }

  lemma {:induction false} LegalAppend(s: State, front: seq<Step>, step: Step, subServers: nat)
    requires Legal(s, front, subServers) && Enabled(After(s, front, subServers), step, subServers)
    ensures Legal(s, front + [step], subServers)
    ensures After(s, front + [step], subServers) == Next(After(s, front, subServers), step, subServers)
    decreases |front|
  {
    if front == [] {
      assert front + [step] == [step] && [step][1..] == [];
    } else {
      assert (front + [step])[1..] == front[1..] + [step];
      LegalAppend(Next(s, front[0], subServers), front[1..], step, subServers);
    }
  }

  lemma {:induction false} LoopsTake(k: nat, threads: nat, subServers: nat) returns (steps: seq<Step>)
    requires k <= threads <= subServers
    ensures Legal(Initial(threads), steps, subServers)
    ensures After(Initial(threads), steps, subServers) == LoopsTaken(k, threads)
    decreases k
  {
    if k == 0 {
      steps := [];
      assert LoopsTaken(0, threads) == Initial(threads);
    } else {
      steps := LoopsTake(k - 1, threads, subServers);
      var s := LoopsTaken(k - 1, threads);
      EndlessSeq(k - 1);
      LegalAppend(Initial(threads), steps, Commit(Endless, 0), subServers);
      steps := steps + [Commit(Endless, 0)];
      LegalAppend(Initial(threads), steps, Dequeue(k - 1), subServers);
      steps := steps + [Dequeue(k - 1)];
      assert s.committed + [Endless] == seq(k, i => Endless);
      assert After(Initial(threads), steps, subServers) == LoopsTaken(k, threads);
    }
  }

  /** A pool whose threads can all be taken by the loops of sub-servers strands work, and only such a pool. */
  lemma StrandsIff(threads: nat, subServers: nat)
    ensures (exists steps :: Legal(Initial(threads), steps, subServers)
                          && Stranded(After(Initial(threads), steps, subServers)))
            <==> threads <= subServers
  {
    if threads <= subServers {
      var steps := LoopsTake(threads, threads, subServers);
      LegalAppend(Initial(threads), steps, Commit(Handler(0), 0), subServers);
      var all := steps + [Commit(Handler(0), 0)];
      assert Stranded(After(Initial(threads), all, subServers));
    }
    if steps :| Legal(Initial(threads), steps, subServers)
                && Stranded(After(Initial(threads), steps, subServers)) {
      PoolRun(threads, subServers, steps);
    }
  }

  /** The object. The mutex makes each method one step. */
  class ThreadPool {
    var tasks: seq<Task>
    ghost var workers: seq<Worker>
    ghost var committed: seq<Task>
    ghost var started: seq<Task>

    ghost function View(): State
      reads this
    {
      State(tasks, workers, committed, started)
    }

    constructor (threads: nat)
      ensures View() == Initial(threads)
      ensures tasks == [] && |workers| == threads && forall i | 0 <= i < threads :: workers[i] == Heading
    {
      tasks, committed, started := [], [], [];
      workers := seq(threads, i => Heading);
    }

    /** `woken` is the worker that `notify_one` wakes. */
    method CommitTask(task: Task, ghost woken: nat, ghost subServers: nat)
      requires Enabled(View(), Commit(task, woken), subServers)
      modifies this
      ensures View() == Next(old(View()), Commit(task, woken), subServers)
      ensures tasks == old(tasks) + [task]
      ensures AnyBlocked(old(workers)) ==> old(workers)[woken] == Blocked && workers == old(workers)[woken := Heading]
    {
      tasks := tasks + [task];
      committed := committed + [task];
      if AnyBlocked(workers) {
        workers := workers[woken := Heading];
      }
    }

    /** One pass of the worker's critical section: sleep, or take the oldest task. */
    method TakeTask(ghost worker: nat, ghost subServers: nat) returns (asleep: bool, task: Task)
      requires Enabled(View(), Dequeue(worker), subServers)
      modifies this
      ensures View() == Next(old(View()), Dequeue(worker), subServers)
      ensures asleep == (old(tasks) == [])
      ensures !asleep ==> old(tasks) == [task] + tasks && workers[worker] == Running(task)
    {
      asleep, task := false, Endless;
      if tasks == [] {
        workers := workers[worker := Blocked];
        asleep := true;
      } else {
        task := tasks[0];
        tasks := tasks[1..];
        workers := workers[worker := Running(task)];
        started := started + [task];
      }
    }
  }
}
