/** What a run of the pool does with every task it was given, from the call of runTask to the end of the task. */
module ThreadPoolRuns {
  import opened ThreadPools

  // ---------- the calls under way ----------

  /** Whether this is a call of runTask, with this task, that has not returned. */
  predicate Carries(pc: Producer, task: TaskId) {
    pc == Calling(task) || pc == Blocked(task) || pc == Notified(task)
  }

  function One(b: bool): nat {
    if b then 1 else 0
  }

  /** How many calls with this task are under way. */
  function Underway(ps: seq<Producer>, task: TaskId): nat {
    if ps == [] then 0 else Underway(ps[..|ps| - 1], task) + One(Carries(ps[|ps| - 1], task))
  }

  lemma {:induction false} UnderwayAfter(ps: seq<Producer>, i: nat, pc: Producer, task: TaskId)
    requires i < |ps|
    ensures Underway(ps[i := pc], task) + One(Carries(ps[i], task)) == Underway(ps, task) + One(Carries(pc, task))
  {
    var n := |ps| - 1;
    if i == n {
      assert ps[i := pc][..n] == ps[..n];
    } else {
      UnderwayAfter(ps[..n], i, pc, task);
      assert ps[i := pc][..n] == ps[..n][i := pc];
    }
  }

  /** A caller that is not in a call makes one, while the pool runs as the assert demands. */
  predicate CanCall(s: Pool, p: nat) {
    p < |s.producers| && s.producers[p] == Idle && s.running
  }

  /** The caller's turn with the mutex, and there is room. */
  predicate Puts(s: Pool, a: Action) {
    && a.Put? && a.p < |s.producers| && (s.producers[a.p].Calling? || s.producers[a.p].Notified?) && s.LockFree()
    && |s.queue| < s.capacity && MayWakeWorker(s.workers, a.wake)
  }

  /**
   * A call keeps its task, whatever happens meanwhile, until it finds room, and then queues that task at the end and
   * returns.
   */
  lemma CallKeepsTask(s: Pool, a: Action, p: nat, task: TaskId)
    requires p < |s.producers| && Carries(s.producers[p], task)
    ensures var t := Next(s, a);
            && |t.producers| == |s.producers|
            && (if Puts(s, a) && a.p == p
                then t.producers[p] == Idle && t.queue == s.queue + [task] && t.submitted == s.submitted + [task]
                else Carries(t.producers[p], task))
  {
  }

  // ---------- the tasks given to the pool ----------

  function GivenBy(s: Pool, a: Action, task: TaskId): nat {
    One(a.Call? && CanCall(s, a.p) && a.task == task)
  }

  /** How often this task was given to the pool: the calls that could be made. */
  function Given(s: Pool, actions: seq<Action>, task: TaskId): nat
    decreases |actions|
  {
    if actions == [] then 0
    else GivenBy(s, actions[0], task) + Given(Next(s, actions[0]), actions[1..], task)
  }

  function Occurs(tasks: seq<TaskId>, task: TaskId): nat {
    multiset(tasks)[task]
  }

  lemma OccursAppend(tasks: seq<TaskId>, more: TaskId, task: TaskId)
    ensures Occurs(tasks + [more], task) == Occurs(tasks, task) + One(more == task)
  {
  }

  lemma StepGiven(s: Pool, a: Action, task: TaskId)
    ensures var t := Next(s, a);
            Occurs(t.submitted, task) + Underway(t.producers, task)
            == Occurs(s.submitted, task) + Underway(s.producers, task) + GivenBy(s, a, task)
  {
    match a {
      case Take(w, wake) => TakeGiven(s, w, wake, task);
      case Call(p, u) => CallGiven(s, p, u, task);
      case Put(p, wake) => PutGiven(s, p, wake, task);
      case StirProducer(p) =>
        if p < |s.producers| && s.producers[p].Blocked? {
          UnderwayAfter(s.producers, p, Notified(s.producers[p].task), task);
        }
      case _ =>
    }
  }

  lemma CallGiven(s: Pool, p: nat, u: TaskId, task: TaskId)
    ensures var t := Next(s, Call(p, u));
            Occurs(t.submitted, task) + Underway(t.producers, task)
            == Occurs(s.submitted, task) + Underway(s.producers, task) + GivenBy(s, Call(p, u), task)
  {
    OccursAppend(s.submitted, u, task);
    if CanCall(s, p) {
      UnderwayAfter(s.producers, p, Calling(u), task);
    }
  }

  lemma TakeGiven(s: Pool, w: nat, wake: nat, task: TaskId)
    ensures Underway(Next(s, Take(w, wake)).producers, task) == Underway(s.producers, task)
    ensures Next(s, Take(w, wake)).submitted == s.submitted
  {
    if wake < |s.producers| && s.producers[wake].Blocked? {
      UnderwayAfter(s.producers, wake, Notified(s.producers[wake].task), task);
    }
  }

  lemma PutGiven(s: Pool, p: nat, wake: nat, task: TaskId)
    ensures var t := Next(s, Put(p, wake));
            Occurs(t.submitted, task) + Underway(t.producers, task)
            == Occurs(s.submitted, task) + Underway(s.producers, task)
  {
    if p < |s.producers| && (s.producers[p].Calling? || s.producers[p].Notified?) {
      UnderwayAfter(s.producers, p, Idle, task);
      UnderwayAfter(s.producers, p, Blocked(s.producers[p].task), task);
      OccursAppend(s.submitted, s.producers[p].task, task);
    }
  }

  lemma {:induction false} RunGiven(s: Pool, actions: seq<Action>, task: TaskId)
    ensures var t := Run(s, actions);
            Occurs(t.submitted, task) + Underway(t.producers, task)
            == Occurs(s.submitted, task) + Underway(s.producers, task) + Given(s, actions, task)
    decreases |actions|
  {
    if actions != [] {
      StepGiven(s, actions[0], task);
      RunGiven(Next(s, actions[0]), actions[1..], task);
    }
  }

  lemma {:induction false} NobodyCalls(ps: seq<Producer>, task: TaskId)
    requires forall i :: 0 <= i < |ps| ==> ps[i] == Idle
    ensures Underway(ps, task) == 0
  {
    if ps != [] {
      NobodyCalls(ps[..|ps| - 1], task);
    }
  }

  // ---------- the tasks executed ----------

  /** How many workers are executing this task. */
  function InExecution(ws: seq<Worker>, task: TaskId): nat {
    if ws == [] then 0 else InExecution(ws[..|ws| - 1], task) + One(ws[|ws| - 1] == Executing(task))
  }

  lemma {:induction false} ExecutingAfter(ws: seq<Worker>, i: nat, pc: Worker, task: TaskId)
    requires i < |ws|
    ensures InExecution(ws[i := pc], task) + One(ws[i] == Executing(task))
            == InExecution(ws, task) + One(pc == Executing(task))
  {
    var n := |ws| - 1;
    if i == n {
      assert ws[i := pc][..n] == ws[..n];
    } else {
      ExecutingAfter(ws[..n], i, pc, task);
      assert ws[i := pc][..n] == ws[..n][i := pc];
    }
  }

  lemma {:induction false} SameExecuting(ws: seq<Worker>, vs: seq<Worker>, task: TaskId)
    requires |ws| == |vs| && forall i :: 0 <= i < |ws| ==> (ws[i] == Executing(task) <==> vs[i] == Executing(task))
    ensures InExecution(ws, task) == InExecution(vs, task)
  {
    if ws != [] {
      SameExecuting(ws[..|ws| - 1], vs[..|vs| - 1], task);
    }
  }

  /** Whether an action is the return of this task: on a worker, or in the caller of a pool without threads. */
  function DoneBy(s: Pool, a: Action, task: TaskId): nat {
    match a
    case Finish(w) => One(w < |s.workers| && s.workers[w] == Executing(task))
    case Call(p, u) => One(CanCall(s, p) && s.workers == [] && u == task)
    case _ => 0
  }

  /** How often this task was executed to its end. */
  function Done(s: Pool, actions: seq<Action>, task: TaskId): nat
    decreases |actions|
  {
    if actions == [] then 0
    else DoneBy(s, actions[0], task) + Done(Next(s, actions[0]), actions[1..], task)
  }

  lemma StepDone(s: Pool, a: Action, task: TaskId)
    ensures var t := Next(s, a);
            Occurs(t.taken, task) + InExecution(s.workers, task)
            == Occurs(s.taken, task) + InExecution(t.workers, task) + DoneBy(s, a, task)
  {
    match a {
      case Take(w, wake) => TakeDone(s, w, wake, task);
      case Finish(w) =>
        if w < |s.workers| { ExecutingAfter(s.workers, w, Top, task); }
      case Call(_, u) => OccursAppend(s.taken, u, task);
      case _ => OthersDone(s, a, task);
    }
  }

  /** Only taking a task makes a worker execute it. */
  lemma OthersDone(s: Pool, a: Action, task: TaskId)
    requires !a.Take? && !a.Finish? && !a.Call?
    ensures Next(s, a).taken == s.taken && InExecution(Next(s, a).workers, task) == InExecution(s.workers, task)
  {
    OthersKeepExecuting(s, a, task);
    SameExecuting(s.workers, Next(s, a).workers, task);
  }

  lemma OthersKeepExecuting(s: Pool, a: Action, task: TaskId)
    requires !a.Take? && !a.Finish? && !a.Call?
    ensures var ws, vs := s.workers, Next(s, a).workers;
            |ws| == |vs| && forall i :: 0 <= i < |ws| ==> (ws[i] == Executing(task) <==> vs[i] == Executing(task))
  {
  }

  lemma TakeDone(s: Pool, w: nat, wake: nat, task: TaskId)
    ensures var t := Next(s, Take(w, wake));
            Occurs(t.taken, task) + InExecution(s.workers, task)
            == Occurs(s.taken, task) + InExecution(t.workers, task)
  {
    if w < |s.workers| {
      ExecutingAfter(s.workers, w, Deciding, task);
      ExecutingAfter(s.workers, w, Top, task);
      if s.queue != [] {
        ExecutingAfter(s.workers, w, Executing(s.queue[0]), task);
        OccursAppend(s.taken, s.queue[0], task);
      }
    }
  }

  lemma {:induction false} RunDone(s: Pool, actions: seq<Action>, task: TaskId)
    ensures var t := Run(s, actions);
            Occurs(t.taken, task) + InExecution(s.workers, task)
            == Occurs(s.taken, task) + InExecution(t.workers, task) + Done(s, actions, task)
    decreases |actions|
  {
    if actions != [] {
      StepDone(s, actions[0], task);
      RunDone(Next(s, actions[0]), actions[1..], task);
    }
  }

  lemma {:induction false} NobodyExecutes(ws: seq<Worker>, task: TaskId)
    requires forall i :: 0 <= i < |ws| ==> ws[i] == Top
    ensures InExecution(ws, task) == 0
  {
    if ws != [] {
      NobodyExecutes(ws[..|ws| - 1], task);
    }
  }

  /**
   * Over every run and for every task: as often as it was given to the pool, it has returned, is being executed, is
   * queued, or is carried by a call that has not returned.
   */
  lemma EveryTaskAccounted(threads: nat, callers: nat, capacity: nat, actions: seq<Action>, task: TaskId)
    requires capacity > 0
    ensures var start := NewPool(threads, callers, capacity); var s := Run(start, actions);
            Given(start, actions, task)
            == Done(start, actions, task) + InExecution(s.workers, task) + Occurs(s.queue, task)
               + Underway(s.producers, task)
  {
    var start := NewPool(threads, callers, capacity);
    RunGiven(start, actions, task);
    RunDone(start, actions, task);
    NobodyCalls(start.producers, task);
    NobodyExecutes(start.workers, task);
    NewPoolInv(threads, callers, capacity);
    RunKeeps(start, actions);
    TakenOrQueued(Run(start, actions), task);
  }

  lemma TakenOrQueued(s: Pool, task: TaskId)
    requires Inv(s)
    ensures Occurs(s.submitted, task) == Occurs(s.taken, task) + Occurs(s.queue, task)
  {
    assert s.submitted == s.taken + s.queue;
  }

  // ---------- progress ----------

  predicate NobodyExited(s: Pool) {
    s.running ==> Exited !in s.workers
  }

  lemma NextNobodyExited(s: Pool, a: Action)
    requires NobodyExited(s)
    ensures NobodyExited(Next(s, a))
  {
  }

  lemma {:induction false} RunNobodyExited(s: Pool, actions: seq<Action>)
    requires NobodyExited(s)
    ensures NobodyExited(Run(s, actions))
    decreases |actions|
  {
    if actions != [] {
      NextNobodyExited(s, actions[0]);
      RunNobodyExited(Next(s, actions[0]), actions[1..]);
    }
  }

  lemma ReachableNobodyExited(s: Pool)
    requires Reachable(s)
    ensures NobodyExited(s)
  {
    var start, actions :| Constructed(start) && Run(start, actions) == s;
    RunNobodyExited(start, actions);
  }

  /** A worker that neither sleeps nor has to wait. */
  lemma SomebodyAwake(s: Pool) returns (w: nat)
    requires Reachable(s) && s.running && s.workers != [] && s.queue != []
    ensures w < |s.workers| && s.LockFree()
    ensures s.workers[w] != Sleeping && s.workers[w] != Exited && s.workers[w] != Deciding
  {
    ReachableInv(s);
    ReachableNobodyExited(s);
    if Sleeping in s.workers {
      NoLostWorkerWakeup(s);
      w :| w < |s.workers| && s.workers[w] == Woken;
    } else {
      w := 0;
    }
  }

  lemma Wakeable(ps: seq<Producer>) returns (wake: nat)
    ensures MayWakeProducer(ps, wake)
  {
    wake := 0;
    if SomeBlocked(ps) {
      if i: nat :| i < |ps| && ps[i].Blocked? {
        wake := i;
      }
    }
  }

  /** What worker w does before it can take a task. */
  function Approach(pc: Worker, w: nat): seq<Action> {
    match pc
    case Executing(_) => [Finish(w), Test(w)]
    case Top => [Test(w)]
    case _ => []
  }

  lemma {:induction false} RunAppend(s: Pool, actions: seq<Action>, a: Action)
    ensures Run(s, actions + [a]) == Next(Run(s, actions), a)
    decreases |actions|
  {
    if actions == [] {
      assert [] + [a] == [a] && [a][1..] == [];
    } else {
      assert (actions + [a])[0] == actions[0] && (actions + [a])[1..] == actions[1..] + [a];
      RunAppend(Next(s, actions[0]), actions[1..], a);
    }
  }

  lemma OneAction(s: Pool, a: Action)
    ensures Run(s, [a]) == Next(s, a)
  {
    assert [a][1..] == [];
  }

  lemma Approaches(s: Pool, w: nat)
    requires w < |s.workers| && s.running
    requires s.workers[w] != Sleeping && s.workers[w] != Exited && s.workers[w] != Deciding
    ensures var t := Run(s, Approach(s.workers[w], w));
            t == SetWorker(s, w, if s.workers[w] == Woken then Woken else Entering)
  {
    assert s.workers[w := s.workers[w]] == s.workers;
    if s.workers[w].Executing? {
      assert [Finish(w)] + [Test(w)] == [Finish(w), Test(w)];
      OneAction(s, Finish(w));
      RunAppend(s, [Finish(w)], Test(w));
    } else if s.workers[w] == Top {
      OneAction(s, Test(w));
    }
  }

  /** In every reachable state of a running pool some worker can take the first queued task within three actions. */
  lemma QueuedTaskCanRun(s: Pool) returns (actions: seq<Action>, w: nat)
    requires Reachable(s) && s.running && s.workers != [] && s.queue != []
    ensures |actions| <= 3 && w < |s.workers|
    ensures var t := Run(s, actions);
            && |t.workers| == |s.workers| && t.workers[w] == Executing(s.queue[0])
            && t.queue == s.queue[1..] && t.taken == s.taken + [s.queue[0]]
            && forall i :: 0 <= i < |s.workers| && i != w ==> t.workers[i] == s.workers[i]
  {
    w := SomebodyAwake(s);
    var wake := Wakeable(s.producers);
    actions := Approach(s.workers[w], w) + [Take(w, wake)];
    Approaches(s, w);
    RunAppend(s, Approach(s.workers[w], w), Take(w, wake));
  }

  /** A call that is not waiting for room and finds some can return at once; its task is queued, and a sleeper woken. */
  lemma CallCanReturn(s: Pool, p: nat, task: TaskId) returns (wake: nat)
    requires p < |s.producers| && (s.producers[p] == Calling(task) || s.producers[p] == Notified(task))
    requires s.LockFree() && |s.queue| < s.capacity
    ensures var t := Next(s, Put(p, wake));
            && t.producers == s.producers[p := Idle] && t.queue == s.queue + [task]
            && (if Sleeping in s.workers
                then wake < |s.workers| && s.workers[wake] == Sleeping && t.workers == s.workers[wake := Woken]
                else t.workers == s.workers)
  {
    wake := 0;
    if Sleeping in s.workers {
      wake :| wake < |s.workers| && s.workers[wake] == Sleeping;
    }
  }

  /** A wait may end for no reason, and does nothing else. */
  lemma WaitsMayEnd(s: Pool, i: nat)
    ensures i < |s.workers| && s.workers[i] == Sleeping ==>
              Next(s, StirWorker(i)) == s.(workers := s.workers[i := Woken])
    ensures i < |s.producers| && s.producers[i].Blocked? ==>
              Next(s, StirProducer(i)) == s.(producers := s.producers[i := Notified(s.producers[i].task)])
  {
  }

  /** With nothing queued a worker goes to sleep, and does nothing else. */
  lemma IdleWorkerSleeps(s: Pool, w: nat)
    requires w < |s.workers| && s.workers[w] == Top && s.running && s.queue == [] && s.LockFree()
    ensures Run(s, [Test(w), Take(w, 0), Wait(w)]) == SetWorker(s, w, Sleeping)
  {
    OneAction(s, Test(w));
    RunAppend(s, [Test(w)], Take(w, 0));
    assert [Test(w)] + [Take(w, 0)] == [Test(w), Take(w, 0)];
    RunAppend(s, [Test(w), Take(w, 0)], Wait(w));
    assert [Test(w), Take(w, 0)] + [Wait(w)] == [Test(w), Take(w, 0), Wait(w)];
  }

  // ---------- the tasks taken after stop() began ----------

  /** Worker w's turn with the mutex, and it gets a task. */
  predicate Takes(s: Pool, a: Action, w: nat) {
    && a.Take? && a.w == w && w < |s.workers| && (s.workers[w] == Entering || s.workers[w] == Woken) && s.LockFree()
    && s.queue != [] && MayWakeProducer(s.producers, a.wake)
  }

  /** How often worker w took a task while running_ was false. */
  function LateTakes(s: Pool, actions: seq<Action>, w: nat): nat
    decreases |actions|
  {
    if actions == [] then 0
    else One(!s.running && Takes(s, actions[0], w)) + LateTakes(Next(s, actions[0]), actions[1..], w)
  }

  lemma {:induction false} LateCounts(s: Pool, actions: seq<Action>, w: nat)
    requires w < |s.workers| && |s.takenLate| == |s.workers|
    ensures var t := Run(s, actions);
            |t.takenLate| == |s.takenLate| && t.takenLate[w] == s.takenLate[w] + LateTakes(s, actions, w)
    decreases |actions|
  {
    if actions != [] {
      var t := Next(s, actions[0]);
      assert |t.workers| == |s.workers| && |t.takenLate| == |s.takenLate|;
      LateCounts(t, actions[1..], w);
    }
  }

  /** Over every run: once stop() has begun, each worker takes one more task at most. */
  lemma TakesOneMore(threads: nat, callers: nat, capacity: nat, actions: seq<Action>, w: nat)
    requires w < threads
    ensures LateTakes(NewPool(threads, callers, capacity), actions, w) <= 1
  {
    var start := NewPool(threads, callers, capacity);
    LateCounts(start, actions, w);
    NewPoolInv(threads, callers, capacity);
    RunKeeps(start, actions);
  }
}
