/**
 * ThreadPool: a bounded queue, its mutex and two condition variables, as interleaved steps of any number
 * of workers and outside producers. Waiters may wake up for no reason.
 */
module ThreadPools {

  type TaskId = nat

  /**
   * Where runInThread and takeTask are. Deciding: holding the mutex, about to wait. Woken: not yet holding it again.
   */
  datatype Worker =
    | Top
    | Entering
    | Deciding
    | Sleeping
    | Woken
    | Executing(task: TaskId)
    | Exited

  /** Where a call of runTask is. */
  datatype Producer =
    | Idle
    | Calling(task: TaskId)
    | Blocked(task: TaskId)
    | Notified(task: TaskId)

  datatype Stopper = NotStopping | FlagDown | AllNotified | Joined

  datatype Pool = Pool(
    capacity: nat, // maxQueueSize_
    workers: seq<Worker>,
    producers: seq<Producer>,
    queue: seq<TaskId>,
    running: bool,
    stopper: Stopper,
    submitted: seq<TaskId>,
    taken: seq<TaskId>,
    takenLate: seq<nat>) // by each worker, since running_ is false
  {
    /** Only a worker about to wait holds the mutex between two steps. */
    predicate LockFree() {
      Deciding !in workers
    }
  }

  function NewPool(threads: nat, callers: nat, capacity: nat): Pool {
    Pool(capacity, seq(threads, _ => Top), seq(callers, _ => Idle), [], true, NotStopping, [], [], seq(threads, _ => 0))
  }

  datatype Action =
    | Test(w: nat)                // while (running_)
    | Take(w: nat, wake: nat)     // takeTask with the mutex, up to its wait or its return
    | Wait(w: nat)                // the wait releases the mutex
    | Finish(w: nat)              // the task returns
    | StirWorker(w: nat)          // a spurious wakeup
    | Call(p: nat, task: TaskId)  // runTask
    | Put(p: nat, wake: nat)      // runTask with the mutex, up to its wait or its return
    | StirProducer(p: nat)
    | StopFlag                    // running_ = false
    | StopNotify                  // notify_all with the mutex
    | StopJoin

  /** notify_one on nonEmpty_ wakes some sleeping worker, if there is one. */
  predicate MayWakeWorker(ws: seq<Worker>, wake: nat) {
    Sleeping in ws ==> wake < |ws| && ws[wake] == Sleeping
  }

  function WakeWorker(ws: seq<Worker>, wake: nat): (r: seq<Worker>)
    ensures |r| == |ws|
  {
    if Sleeping in ws && wake < |ws| then ws[wake := Woken] else ws
  }

  predicate SomeBlocked(ps: seq<Producer>) {
    exists i :: 0 <= i < |ps| && ps[i].Blocked?
  }

  predicate MayWakeProducer(ps: seq<Producer>, wake: nat) {
    SomeBlocked(ps) ==> wake < |ps| && ps[wake].Blocked?
  }

  function WakeProducer(ps: seq<Producer>, wake: nat): (r: seq<Producer>)
    ensures |r| == |ps|
  {
    if SomeBlocked(ps) && wake < |ps| && ps[wake].Blocked? then ps[wake := Notified(ps[wake].task)] else ps
  }

  function WakeAll(ws: seq<Worker>): (r: seq<Worker>)
    ensures |r| == |ws|
  {
    seq(|ws|, i requires 0 <= i < |ws| => if ws[i] == Sleeping then Woken else ws[i])
  }

  function SetWorker(s: Pool, w: nat, pc: Worker): Pool
    requires w < |s.workers|
  {
    s.(workers := s.workers[w := pc])
  }

  function TakeTask(s: Pool, w: nat, wake: nat): Pool
    requires w < |s.workers| && s.queue != []
  {
    s.(workers := s.workers[w := Executing(s.queue[0])],
       queue := s.queue[1..],
       taken := s.taken + [s.queue[0]],
       takenLate := if !s.running && w < |s.takenLate| then s.takenLate[w := s.takenLate[w] + 1] else s.takenLate,
       producers := WakeProducer(s.producers, wake))
  }

  function PutTask(s: Pool, p: nat, task: TaskId, wake: nat): Pool
    requires p < |s.producers|
  {
    s.(producers := s.producers[p := Idle],
       queue := s.queue + [task],
       submitted := s.submitted + [task],
       workers := WakeWorker(s.workers, wake))
  }

  /** An action that cannot happen now changes nothing. */
  function Next(s: Pool, a: Action): Pool {
    match a
    case Test(w) =>
      if w < |s.workers| && s.workers[w] == Top then SetWorker(s, w, if s.running then Entering else Exited) else s
    case Take(w, wake) =>
      if w < |s.workers| && (s.workers[w] == Entering || s.workers[w] == Woken) && s.LockFree()
      then
        if s.queue != [] then (if MayWakeProducer(s.producers, wake) then TakeTask(s, w, wake) else s)
        else SetWorker(s, w, if s.running then Deciding else Top)
      else s
    case Wait(w) => if w < |s.workers| && s.workers[w] == Deciding then SetWorker(s, w, Sleeping) else s
    case Finish(w) => if w < |s.workers| && s.workers[w].Executing? then SetWorker(s, w, Top) else s
    case StirWorker(w) => if w < |s.workers| && s.workers[w] == Sleeping then SetWorker(s, w, Woken) else s
    case Call(p, task) =>
      if p < |s.producers| && s.producers[p] == Idle && s.running
      then
        if s.workers == [] then s.(submitted := s.submitted + [task], taken := s.taken + [task])
        else s.(producers := s.producers[p := Calling(task)])
      else s
    case Put(p, wake) =>
      if p < |s.producers| && (s.producers[p].Calling? || s.producers[p].Notified?) && s.LockFree()
      then
        var task := s.producers[p].task;
        if |s.queue| >= s.capacity then s.(producers := s.producers[p := Blocked(task)])
        else if MayWakeWorker(s.workers, wake) then PutTask(s, p, task, wake)
        else s
      else s
    case StirProducer(p) =>
      if p < |s.producers| && s.producers[p].Blocked?
      then s.(producers := s.producers[p := Notified(s.producers[p].task)]) else s
    case StopFlag =>
      if s.stopper == NotStopping
      then s.(running := false, stopper := FlagDown) else s
    case StopNotify =>
      if s.stopper == FlagDown && s.LockFree() then s.(workers := WakeAll(s.workers), stopper := AllNotified) else s
    case StopJoin =>
      if s.stopper == AllNotified && (forall i :: 0 <= i < |s.workers| ==> s.workers[i] == Exited)
      then s.(stopper := Joined) else s
  }

  function Run(s: Pool, actions: seq<Action>): Pool
    decreases |actions|
  {
    if actions == [] then s else Run(Next(s, actions[0]), actions[1..])
  }

  // ---------- counting ----------

  function WokenWorkers(ws: seq<Worker>): nat {
    if ws == [] then 0 else WokenWorkers(ws[..|ws| - 1]) + if ws[|ws| - 1] == Woken then 1 else 0
  }

  function NotifiedProducers(ps: seq<Producer>): nat {
    if ps == [] then 0 else NotifiedProducers(ps[..|ps| - 1]) + if ps[|ps| - 1].Notified? then 1 else 0
  }

  lemma {:induction false} WokenAfter(ws: seq<Worker>, i: nat, pc: Worker)
    requires i < |ws|
    ensures WokenWorkers(ws[i := pc]) + (if ws[i] == Woken then 1 else 0)
            == WokenWorkers(ws) + (if pc == Woken then 1 else 0)
  {
    var n := |ws| - 1;
    if i == n {
      assert ws[i := pc][..n] == ws[..n];
    } else {
      WokenAfter(ws[..n], i, pc);
      assert ws[i := pc][..n] == ws[..n][i := pc];
    }
  }

  lemma {:induction false} NotifiedAfter(ps: seq<Producer>, i: nat, pc: Producer)
    requires i < |ps|
    ensures NotifiedProducers(ps[i := pc]) + (if ps[i].Notified? then 1 else 0)
            == NotifiedProducers(ps) + (if pc.Notified? then 1 else 0)
  {
    var n := |ps| - 1;
    if i == n {
      assert ps[i := pc][..n] == ps[..n];
    } else {
      NotifiedAfter(ps[..n], i, pc);
      assert ps[i := pc][..n] == ps[..n][i := pc];
    }
  }

  lemma {:induction false} WokenExists(ws: seq<Worker>)
    requires WokenWorkers(ws) > 0
    ensures Woken in ws
  {
    if ws[|ws| - 1] != Woken {
      WokenExists(ws[..|ws| - 1]);
    }
  }

  lemma {:induction false} NotifiedExists(ps: seq<Producer>)
    requires NotifiedProducers(ps) > 0
    ensures exists i :: 0 <= i < |ps| && ps[i].Notified?
  {
    if !ps[|ps| - 1].Notified? {
      NotifiedExists(ps[..|ps| - 1]);
    }
  }

  // ---------- the invariant ----------

  /** If a worker sleeps un-notified while the pool runs, each queued task has a notified worker of its own. */
  predicate WorkersServed(s: Pool) {
    s.running && Sleeping in s.workers ==> |s.queue| <= WokenWorkers(s.workers)
  }

  /** If a producer sleeps un-notified, each free slot has a notified producer of its own. */
  predicate ProducersServed(s: Pool) {
    SomeBlocked(s.producers) ==> s.capacity - |s.queue| <= NotifiedProducers(s.producers)
  }

  predicate MutexHeld(s: Pool) {
    && (Deciding in s.workers ==> s.queue == [])
    && (forall i, j :: 0 <= i < j < |s.workers| && s.workers[i] == Deciding ==> s.workers[j] != Deciding)
  }

  /** Tasks are taken in the order they were submitted, and none is lost or duplicated. */
  predicate Fifo(s: Pool) {
    s.submitted == s.taken + s.queue && |s.queue| <= s.capacity
  }

  /** A pool without threads queues nothing: its callers run their tasks. */
  predicate Threadless(s: Pool) {
    s.workers == [] ==> s.queue == [] && forall i :: 0 <= i < |s.producers| ==> s.producers[i] == Idle
  }

  /** Once running_ is false a worker takes at most one more task. */
  predicate LateOnce(s: Pool) {
    && |s.takenLate| == |s.workers|
    && (s.running <==> s.stopper == NotStopping)
    && (forall i :: 0 <= i < |s.workers| ==>
          && s.takenLate[i] <= (if s.running then 0 else 1)
          && (s.takenLate[i] == 1 ==> s.workers[i].Executing? || s.workers[i] == Top || s.workers[i] == Exited))
  }

  /** After notify_all no worker sleeps, nor is about to. */
  predicate NoSleep(s: Pool) {
    && (s.stopper == AllNotified || s.stopper == Joined ==> Sleeping !in s.workers && Deciding !in s.workers)
    && (s.stopper == Joined ==> forall i :: 0 <= i < |s.workers| ==> s.workers[i] == Exited)
  }

  predicate Inv(s: Pool) {
    MutexHeld(s) && Fifo(s) && Threadless(s) && WorkersServed(s) && ProducersServed(s) && LateOnce(s) && NoSleep(s)
  }

  lemma NewPoolInv(threads: nat, callers: nat, capacity: nat)
    ensures Inv(NewPool(threads, callers, capacity))
  {
  }

  // ---------- steps ----------

  /** A worker moves between two states in which it does not sleep un-notified, or the queue is empty. */
  lemma MoveKeeps(s: Pool, w: nat, pc: Worker)
    requires Inv(s) && w < |s.workers| && pc != Deciding && !pc.Executing?
    requires s.workers[w] == Woken ==> s.queue == []
    requires pc == Sleeping ==> s.queue == [] && s.stopper != AllNotified && s.stopper != Joined
    requires s.stopper == Joined ==> pc == Exited
    requires s.takenLate[w] == 1 ==> pc == Top || pc == Exited
    ensures Inv(SetWorker(s, w, pc))
  {
    WokenAfter(s.workers, w, pc);
    var t := SetWorker(s, w, pc);
    assert forall i :: 0 <= i < |t.workers| && i != w ==> t.workers[i] == s.workers[i];
    assert Sleeping in t.workers ==> Sleeping in s.workers || pc == Sleeping;
    assert Deciding in t.workers ==> Deciding in s.workers;
  }

  lemma DecideKeeps(s: Pool, w: nat)
    requires Inv(s) && w < |s.workers| && s.LockFree() && s.running && s.queue == []
    requires s.workers[w] == Entering || s.workers[w] == Woken
    ensures Inv(SetWorker(s, w, Deciding))
  {
    WokenAfter(s.workers, w, Deciding);
    assert forall i :: 0 <= i < |s.workers| ==> s.workers[i] != Deciding;
  }

  lemma WakeProducerServes(s: Pool, ps: seq<Producer>, wake: nat)
    requires MayWakeProducer(ps, wake)
    ensures SomeBlocked(ps) ==> NotifiedProducers(WakeProducer(ps, wake)) == NotifiedProducers(ps) + 1
    ensures !SomeBlocked(ps) ==> WakeProducer(ps, wake) == ps
    ensures SomeBlocked(WakeProducer(ps, wake)) ==> SomeBlocked(ps)
  {
    if SomeBlocked(ps) {
      NotifiedAfter(ps, wake, Notified(ps[wake].task));
    }
  }

  lemma TakeKeeps(s: Pool, w: nat, wake: nat)
    requires Inv(s) && w < |s.workers| && s.LockFree() && s.queue != [] && MayWakeProducer(s.producers, wake)
    requires s.workers[w] == Entering || s.workers[w] == Woken
    ensures Inv(TakeTask(s, w, wake))
  {
    var t := TakeTask(s, w, wake);
    WokenAfter(s.workers, w, Executing(s.queue[0]));
    WakeProducerServes(s, s.producers, wake);
    assert t.taken + t.queue == s.taken + s.queue;
    assert forall i :: 0 <= i < |t.workers| && i != w ==> t.workers[i] == s.workers[i];
    assert Sleeping in t.workers ==> Sleeping in s.workers;
    assert Deciding !in t.workers;
  }

  lemma WakeWorkerServes(ws: seq<Worker>, wake: nat)
    requires MayWakeWorker(ws, wake)
    ensures var r := WakeWorker(ws, wake);
            && (Sleeping in ws ==> WokenWorkers(r) == WokenWorkers(ws) + 1)
            && (Sleeping !in ws ==> r == ws)
            && (Sleeping in r ==> Sleeping in ws) && (Deciding in r ==> Deciding in ws)
            && forall i :: 0 <= i < |ws| ==> r[i] == ws[i] || (ws[i] == Sleeping && r[i] == Woken)
  {
    if Sleeping in ws {
      WokenAfter(ws, wake, Woken);
    }
  }

  lemma PutKeeps(s: Pool, p: nat, task: TaskId, wake: nat)
    requires Inv(s) && p < |s.producers| && s.LockFree() && |s.queue| < s.capacity && MayWakeWorker(s.workers, wake)
    requires s.producers[p].Calling? || s.producers[p].Notified?
    ensures Inv(PutTask(s, p, task, wake))
  {
    var t := PutTask(s, p, task, wake);
    NotifiedAfter(s.producers, p, Idle);
    WakeWorkerServes(s.workers, wake);
    assert t.taken + t.queue == s.taken + s.queue + [task];
    assert forall i :: 0 <= i < |t.producers| && i != p ==> t.producers[i] == s.producers[i];
  }

  lemma ProducerKeeps(s: Pool, p: nat, pc: Producer)
    requires Inv(s) && p < |s.producers|
    requires s.producers[p].Notified? || pc.Blocked? ==> |s.queue| >= s.capacity
    requires s.workers != []
    ensures Inv(s.(producers := s.producers[p := pc]))
  {
    NotifiedAfter(s.producers, p, pc);
    var t := s.(producers := s.producers[p := pc]);
    assert forall i :: 0 <= i < |t.producers| && i != p ==> t.producers[i] == s.producers[i];
  }

  lemma NextKeeps(s: Pool, a: Action)
    requires Inv(s)
    ensures Inv(Next(s, a))
  {
    match a {
      case Test(w) =>
        if w < |s.workers| && s.workers[w] == Top { MoveKeeps(s, w, if s.running then Entering else Exited); }
      case Take(w, wake) =>
        if w < |s.workers| && (s.workers[w] == Entering || s.workers[w] == Woken) && s.LockFree() {
          if s.queue != [] {
            if MayWakeProducer(s.producers, wake) { TakeKeeps(s, w, wake); }
          } else if s.running {
            DecideKeeps(s, w);
          } else {
            MoveKeeps(s, w, Top);
          }
        }
      case Wait(w) =>
        if w < |s.workers| && s.workers[w] == Deciding { MoveKeeps(s, w, Sleeping); }
      case Finish(w) =>
        if w < |s.workers| && s.workers[w].Executing? { MoveKeeps(s, w, Top); }
      case StirWorker(w) =>
        if w < |s.workers| && s.workers[w] == Sleeping { MoveKeeps(s, w, Woken); }
      case Call(p, task) =>
        if p < |s.producers| && s.producers[p] == Idle && s.running && s.workers != [] {
          ProducerKeeps(s, p, Calling(task));
        }
        InlineKeeps(s, a);
      case Put(p, wake) =>
        if p < |s.producers| && (s.producers[p].Calling? || s.producers[p].Notified?) && s.LockFree() {
          if |s.queue| >= s.capacity {
            ProducerKeeps(s, p, Blocked(s.producers[p].task));
          } else if MayWakeWorker(s.workers, wake) {
            PutKeeps(s, p, s.producers[p].task, wake);
          }
        }
      case StirProducer(p) =>
        if p < |s.producers| && s.producers[p].Blocked? { ProducerKeeps(s, p, Notified(s.producers[p].task)); }
      case StopFlag =>
      case StopNotify =>
      case StopJoin =>
    }
  }

  lemma InlineKeeps(s: Pool, a: Action)
    requires Inv(s) && a.Call?
    ensures s.workers == [] ==> Inv(Next(s, a))
  {
    assert s.workers == [] ==> s.taken + s.queue == s.taken;
  }

  lemma {:induction false} RunKeeps(s: Pool, actions: seq<Action>)
    requires Inv(s)
    ensures Inv(Run(s, actions))
    ensures Run(s, actions).capacity == s.capacity && |Run(s, actions).workers| == |s.workers|
    decreases |actions|
  {
    if actions != [] {
      NextKeeps(s, actions[0]);
      RunKeeps(Next(s, actions[0]), actions[1..]);
    }
  }

  // ---------- theorems ----------

  /** s is what some run of a pool leaves. */
  ghost predicate Reachable(s: Pool) {
    exists start, actions :: Constructed(start) && Run(start, actions) == s
  }

  /** The constructor asserts a positive maxQueueSize. */
  predicate Constructed(s: Pool) {
    s.capacity > 0 && s == NewPool(|s.workers|, |s.producers|, s.capacity)
  }

  lemma ReachableInv(s: Pool)
    requires Reachable(s)
    ensures Inv(s) && s.capacity > 0
  {
    var start, actions :| Constructed(start) && Run(start, actions) == s;
    NewPoolInv(|start.workers|, |start.producers|, start.capacity);
    RunKeeps(start, actions);
  }

  /** No wakeup of a worker is lost: while one sleeps un-notified, there are notified workers for all queued tasks. */
  lemma NoLostWorkerWakeup(s: Pool)
    requires Reachable(s) && s.running && Sleeping in s.workers
    ensures |s.queue| <= WokenWorkers(s.workers)
    ensures s.queue != [] ==> Woken in s.workers
  {
    ReachableInv(s);
    if s.queue != [] {
      WokenExists(s.workers);
    }
  }

  /** No wakeup of a producer is lost: while one sleeps un-notified, there are notified producers for all free slots. */
  lemma NoLostProducerWakeup(s: Pool)
    requires Reachable(s) && SomeBlocked(s.producers)
    ensures s.capacity - |s.queue| <= NotifiedProducers(s.producers)
    ensures |s.queue| < s.capacity ==> exists i :: 0 <= i < |s.producers| && s.producers[i].Notified?
  {
    ReachableInv(s);
    if |s.queue| < s.capacity {
      NotifiedExists(s.producers);
    }
  }

  /** A running pool with work to do, queued or in a call of runTask, never has everyone asleep. */
  lemma NeverAllAsleep(s: Pool)
    requires Reachable(s) && s.running && s.workers != []
    requires s.queue != [] || SomeBlocked(s.producers)
    ensures (exists i :: 0 <= i < |s.workers| && s.workers[i] != Sleeping)
            || (exists i :: 0 <= i < |s.producers| && s.producers[i].Notified?)
  {
    ReachableInv(s);
    if s.workers[0] == Sleeping {
      if s.queue != [] {
        WokenExists(s.workers);
      } else {
        NotifiedExists(s.producers);
      }
    }
  }

  /** The queue is bounded, and tasks are taken in the order they were submitted, each once. */
  lemma TasksConserved(s: Pool)
    requires Reachable(s)
    ensures |s.queue| <= s.capacity && s.submitted == s.taken + s.queue
  {
    ReachableInv(s);
  }

  // ---------- the object ----------

  /** The monitor; each method is one stretch of code between two scheduling points of the source. */
  class ThreadPool {
    const maxQueueSize: nat
    var taskQueue: seq<TaskId>
    var running: bool
    var threads: seq<Worker>
    var callers: seq<Producer>
    ghost var log: Pool // the histories

    ghost predicate Valid()
      reads this
    {
      |log.takenLate| == |threads|
    }

    ghost function View(): Pool
      reads this
    {
      log.(capacity := maxQueueSize, workers := threads, producers := callers, queue := taskQueue, running := running)
    }

    constructor (numThread: nat, numCallers: nat, maxQueueSize: nat)
      requires maxQueueSize > 0
      ensures Valid() && View() == NewPool(numThread, numCallers, maxQueueSize)
    {
      this.maxQueueSize := maxQueueSize;
      taskQueue := [];
      running := true;
      threads := seq(numThread, _ => Top);
      callers := seq(numCallers, _ => Idle);
      log := NewPool(numThread, numCallers, maxQueueSize);
    }

    method NotifyOneWorker(wake: nat)
      requires MayWakeWorker(threads, wake)
      modifies this`threads
      ensures threads == WakeWorker(old(threads), wake)
    {
      if Sleeping in threads {
        threads := threads[wake := Woken];
      }
    }

    method NotifyOneCaller(wake: nat)
      requires MayWakeProducer(callers, wake)
      modifies this`callers
      ensures callers == WakeProducer(old(callers), wake)
    {
      if wake < |callers| && callers[wake].Blocked? {
        callers := callers[wake := Producer.Notified(callers[wake].task)];
      }
    }

    /** runTask holding the mutex, from its lock or the return of its wait. */
    method RunTask(p: nat, wake: nat)
      requires Valid() && p < |callers| && (callers[p].Calling? || callers[p].Notified?) && Deciding !in threads
      requires |taskQueue| < maxQueueSize ==> MayWakeWorker(threads, wake)
      modifies this
      ensures Valid() && View() == Next(old(View()), Put(p, wake))
    {
      var task := callers[p].task;
      if |taskQueue| >= maxQueueSize {
        callers := callers[p := Blocked(task)];
      } else {
        taskQueue := taskQueue + [task];
        log := log.(submitted := log.submitted + [task]);
        callers := callers[p := Idle];
        NotifyOneWorker(wake);
      }
    }

    /** takeTask holding the mutex, from its lock or the return of its wait. */
    method TakeTask(w: nat, wake: nat)
      requires Valid() && w < |threads| && (threads[w] == Entering || threads[w] == Woken) && Deciding !in threads
      requires taskQueue != [] ==> MayWakeProducer(callers, wake)
      modifies this
      ensures Valid() && View() == Next(old(View()), Take(w, wake))
    {
      if taskQueue == [] && running {
        threads := threads[w := Deciding];
      } else if taskQueue != [] {
        var task := taskQueue[0];
        taskQueue := taskQueue[1..];
        log := log.(taken := log.taken + [task],
                    takenLate := if running then log.takenLate else log.takenLate[w := log.takenLate[w] + 1]);
        threads := threads[w := Executing(task)];
        NotifyOneCaller(wake);
      } else {
        threads := threads[w := Top];
      }
    }

    /** stop() up to its join. */
    method StopRunning()
      requires Valid() && log.stopper == NotStopping
      modifies this
      ensures Valid() && View() == Next(old(View()), StopFlag)
    {
      running := false;
      log := log.(stopper := FlagDown);
    }

    method NotifyAll()
      requires Valid() && log.stopper == FlagDown && Deciding !in threads
      modifies this
      ensures Valid() && View() == Next(old(View()), StopNotify)
    {
      ghost var was := threads;
      var n := |threads|;
      for i := 0 to n
        invariant |threads| == n == |was|
        invariant threads[..i] == WakeAll(was)[..i] && threads[i..] == was[i..]
        invariant unchanged(`taskQueue) && unchanged(`running) && unchanged(`callers) && unchanged(`log)
      {
        if threads[i] == Sleeping {
          threads := threads[i := Woken];
        }
      }
      assert threads == WakeAll(was);
      log := log.(stopper := AllNotified);
    }
  }
}
