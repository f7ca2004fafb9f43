/** What stop() does to the workers of a pool, and to its tasks. */
module ThreadPoolStop {
  import opened ThreadPools

  /** After stop()'s notify_all no worker sleeps, nor will. */
  lemma NobodySleepsAfterStop(s: Pool, actions: seq<Action>)
    requires Reachable(s) && (s.stopper == AllNotified || s.stopper == Joined)
    ensures Sleeping !in Run(s, actions).workers && Deciding !in Run(s, actions).workers
  {
    ReachableInv(s);
    RunKeeps(s, actions);
    StaysNotified(s, actions);
  }

  lemma {:induction false} StaysNotified(s: Pool, actions: seq<Action>)
    requires s.stopper == AllNotified || s.stopper == Joined
    ensures Run(s, actions).stopper == AllNotified || Run(s, actions).stopper == Joined
    decreases |actions|
  {
    if actions != [] {
      StaysNotified(Next(s, actions[0]), actions[1..]);
    }
  }

  /** A worker takes at most one task once running_ is false, and none before that is counted. */
  lemma TakesAtMostOneMore(s: Pool)
    requires Reachable(s)
    ensures |s.takenLate| == |s.workers|
    ensures forall i :: 0 <= i < |s.takenLate| ==> s.takenLate[i] <= if s.running then 0 else 1
  {
    ReachableInv(s);
  }

  // ---------- stop() returns ----------

  /** How many steps a worker still has before it exits, once nobody sleeps. */
  function StepsLeft(pc: Worker): nat {
    match pc
    case Exited => 0
    case Top => 1
    case Executing(_) => 2
    case _ => 3
  }

  function AllStepsLeft(ws: seq<Worker>): nat {
    if ws == [] then 0 else AllStepsLeft(ws[..|ws| - 1]) + StepsLeft(ws[|ws| - 1])
  }

  lemma {:induction false} StepsAfter(ws: seq<Worker>, i: nat, pc: Worker)
    requires i < |ws|
    ensures AllStepsLeft(ws[i := pc]) + StepsLeft(ws[i]) == AllStepsLeft(ws) + StepsLeft(pc)
  {
    var n := |ws| - 1;
    if i == n {
      assert ws[i := pc][..n] == ws[..n];
    } else {
      StepsAfter(ws[..n], i, pc);
      assert ws[i := pc][..n] == ws[..n][i := pc];
    }
  }

  lemma {:induction false} NoStepsLeft(ws: seq<Worker>)
    ensures AllStepsLeft(ws) == 0 <==> forall i :: 0 <= i < |ws| ==> ws[i] == Exited
  {
    if ws != [] {
      NoStepsLeft(ws[..|ws| - 1]);
      assert forall i :: 0 <= i < |ws| - 1 ==> ws[..|ws| - 1][i] == ws[i];
    }
  }

  predicate Stopping(s: Pool) {
    Inv(s) && s.stopper == AllNotified
  }

  /** While stopping, an action leaves every worker alone or brings one nearer to its exit. */
  lemma StoppingProgress(s: Pool, a: Action)
    requires Stopping(s)
    ensures Next(s, a).workers != s.workers ==> AllStepsLeft(Next(s, a).workers) < AllStepsLeft(s.workers)
  {
    match a {
      case Test(w) => if w < |s.workers| { StepsAfter(s.workers, w, Exited); }
      case Take(w, wake) => if w < |s.workers| { TakingProgress(s, w, wake); }
      case Finish(w) => if w < |s.workers| { StepsAfter(s.workers, w, Top); }
      case _ =>
    }
  }

  lemma TakingProgress(s: Pool, w: nat, wake: nat)
    requires Stopping(s) && w < |s.workers|
    ensures var t := Next(s, Take(w, wake));
            t.workers != s.workers ==> AllStepsLeft(t.workers) < AllStepsLeft(s.workers)
  {
    StepsAfter(s.workers, w, if s.queue != [] then Executing(s.queue[0]) else Top);
  }

  /** ... and as long as a worker has not exited, it can take such a step: no one waits for a lock or a notification. */
  lemma StoppingEnabled(s: Pool, w: nat)
    requires Stopping(s) && w < |s.workers| && s.workers[w] != Exited
    ensures Next(s, WayOut(s, w)).workers[w] != s.workers[w]
  {
  }

  /** What a worker does next on its way out; taking a task, it notifies some blocked producer. */
  ghost function WayOut(s: Pool, w: nat): Action
    requires w < |s.workers|
  {
    if s.workers[w] == Top then Test(w)
    else if s.workers[w].Executing? then Finish(w)
    else if SomeBlocked(s.producers)
    then
      var wake :| 0 <= wake < |s.producers| && s.producers[wake].Blocked?;
      Take(w, wake)
    else Take(w, 0)
  }

  /** The actions of a run that change some worker. */
  function Effective(s: Pool, actions: seq<Action>): nat
    decreases |actions|
  {
    if actions == [] then 0
    else Effective(Next(s, actions[0]), actions[1..]) + if Next(s, actions[0]).workers != s.workers then 1 else 0
  }

  /** However stop() is scheduled, the workers make at most three steps each before all have exited and it returns. */
  lemma {:induction false} StopTerminates(s: Pool, actions: seq<Action>)
    requires Inv(s) && (s.stopper == AllNotified || s.stopper == Joined)
    ensures Effective(s, actions) + AllStepsLeft(Run(s, actions).workers) <= AllStepsLeft(s.workers)
    decreases |actions|
  {
    if actions != [] {
      NextKeeps(s, actions[0]);
      if s.stopper == AllNotified {
        StoppingProgress(s, actions[0]);
      } else {
        assert Next(s, actions[0]).workers == s.workers;
      }
      StopTerminates(Next(s, actions[0]), actions[1..]);
    }
  }

  lemma {:induction false} StepsBound(ws: seq<Worker>)
    ensures AllStepsLeft(ws) <= 3 * |ws|
  {
    if ws != [] {
      StepsBound(ws[..|ws| - 1]);
    }
  }

  /** No action changes a worker any more. */
  ghost predicate Quiescent(s: Pool) {
    forall a :: Next(s, a).workers == s.workers
  }

  ghost predicate AllExited(s: Pool) {
    forall i :: 0 <= i < |s.workers| ==> s.workers[i] == Exited
  }

  /**
   * After stop()'s notify_all, under every schedule: the workers make at most three steps each, and they
   * stop making steps exactly when all have exited.
   */
  lemma WorkersExit(s: Pool, actions: seq<Action>)
    requires Reachable(s) && s.stopper == AllNotified
    ensures Effective(s, actions) <= AllStepsLeft(s.workers) <= 3 * |s.workers|
    ensures Quiescent(Run(s, actions)) <==> AllExited(Run(s, actions))
  {
    ReachableInv(s);
    StopTerminates(s, actions);
    StepsBound(s.workers);
    RunKeeps(s, actions);
    StaysNotified(s, actions);
    ExitIsQuiescence(Run(s, actions));
  }

  lemma ExitIsQuiescence(s: Pool)
    requires Inv(s) && (s.stopper == AllNotified || s.stopper == Joined)
    ensures Quiescent(s) <==> AllExited(s)
  {
    if AllExited(s) {
      forall a
        ensures Next(s, a).workers == s.workers
      {
        assert forall w :: 0 <= w < |s.workers| ==> s.workers[w] == Exited;
      }
    } else {
      var w :| 0 <= w < |s.workers| && s.workers[w] != Exited;
      StoppingEnabled(s, w);
      assert Next(s, WayOut(s, w)).workers != s.workers;
    }
  }

  /** What a run without calls of runTask leaves of the calls there are: a call that is under way stays so. */
  ghost predicate NoPuts(s: Pool, t: Pool) {
    && t.submitted == s.submitted && t.capacity == s.capacity && |t.producers| == |s.producers|
    && forall p :: 0 <= p < |s.producers| && s.producers[p] != Idle ==> t.producers[p] != Idle
  }

  /** Some run of at most n actions, none of them a call of runTask, makes stop() return. */
  ghost predicate Returns(s: Pool, n: nat) {
    exists actions :: |actions| <= n && Run(s, actions).stopper == Joined && NoPuts(s, Run(s, actions))
  }

  lemma ReturnsAfter(s: Pool, a: Action, n: nat)
    requires Returns(Next(s, a), n) && NoPuts(s, Next(s, a))
    ensures Returns(s, n + 1)
  {
    var t := Next(s, a);
    var actions :| |actions| <= n && Run(t, actions).stopper == Joined && NoPuts(t, Run(t, actions));
    assert ([a] + actions)[1..] == actions;
    assert Run(s, [a] + actions) == Run(t, actions);
  }

  /** Once all sleepers were notified, stop() can return after as many steps as the workers have left, and its join. */
  lemma {:induction false} StopCanReturn(s: Pool)
    requires Inv(s) && s.stopper == AllNotified
    ensures Returns(s, AllStepsLeft(s.workers) + 1)
    decreases AllStepsLeft(s.workers)
  {
    if AllStepsLeft(s.workers) == 0 {
      NoStepsLeft(s.workers);
      assert Run(Next(s, StopJoin), []).stopper == Joined;
      assert Returns(Next(s, StopJoin), 0);
      ReturnsAfter(s, StopJoin, 0);
    } else {
      var a := StepOut(s);
      StopCanReturn(Next(s, a));
      ReturnsAfter(s, a, AllStepsLeft(Next(s, a).workers) + 1);
      MoreActions(s, AllStepsLeft(Next(s, a).workers) + 2, AllStepsLeft(s.workers) + 1);
    }
  }

  /** Some worker takes a step on its way out. */
  lemma StepOut(s: Pool) returns (a: Action)
    requires Stopping(s) && AllStepsLeft(s.workers) > 0
    ensures Stopping(Next(s, a)) && NoPuts(s, Next(s, a)) && AllStepsLeft(Next(s, a).workers) < AllStepsLeft(s.workers)
  {
    NoStepsLeft(s.workers);
    var w :| 0 <= w < |s.workers| && s.workers[w] != Exited;
    a := WayOut(s, w);
    StoppingEnabled(s, w);
    NextKeeps(s, a);
    StoppingProgress(s, a);
  }

  lemma MoreActions(s: Pool, m: nat, n: nat)
    requires Returns(s, m) && m <= n
    ensures Returns(s, n)
  {
    var actions :| |actions| <= m && Run(s, actions).stopper == Joined && NoPuts(s, Run(s, actions));
  }

  lemma NotifyingCanReturn(s: Pool)
    requires Inv(s) && s.stopper == FlagDown && s.LockFree()
    ensures exists n :: Returns(s, n)
  {
    NextKeeps(s, StopNotify);
    StopCanReturn(Next(s, StopNotify));
    ReturnsAfter(s, StopNotify, AllStepsLeft(Next(s, StopNotify).workers) + 1);
  }

  /** From the fall of the flag on, stop() can return in every state. */
  lemma StopCanAlwaysReturn(s: Pool)
    requires Inv(s) && !s.running
    ensures exists n :: Returns(s, n)
  {
    if s.stopper == Joined {
      assert Run(s, []) == s;
      assert Returns(s, 0);
    } else if s.stopper == AllNotified {
      StopCanReturn(s);
    } else if s.LockFree() {
      NotifyingCanReturn(s);
    } else {
      var w :| 0 <= w < |s.workers| && s.workers[w] == Deciding;
      NextKeeps(s, Wait(w));
      NotifyingCanReturn(Next(s, Wait(w)));
      var n :| Returns(Next(s, Wait(w)), n);
      ReturnsAfter(s, Wait(w), n);
    }
  }

  // ---------- the tasks stop() leaves ----------

  /** In takeTask, or committed to it: while (running_) has been tested, and nothing has been taken since. */
  predicate Committed(pc: Worker) {
    pc == Entering || pc == Deciding || pc == Sleeping || pc == Woken
  }

  function CommittedWorkers(ws: seq<Worker>): nat {
    if ws == [] then 0 else CommittedWorkers(ws[..|ws| - 1]) + if Committed(ws[|ws| - 1]) then 1 else 0
  }

  lemma {:induction false} CommittedAfter(ws: seq<Worker>, i: nat, pc: Worker)
    requires i < |ws|
    ensures CommittedWorkers(ws[i := pc]) + (if Committed(ws[i]) then 1 else 0)
            == CommittedWorkers(ws) + (if Committed(pc) then 1 else 0)
  {
    var n := |ws| - 1;
    if i == n {
      assert ws[i := pc][..n] == ws[..n];
    } else {
      CommittedAfter(ws[..n], i, pc);
      assert ws[i := pc][..n] == ws[..n][i := pc];
    }
  }

  lemma {:induction false} CommittedSame(ws: seq<Worker>, vs: seq<Worker>)
    requires |vs| == |ws| && forall i :: 0 <= i < |ws| ==> Committed(vs[i]) == Committed(ws[i])
    ensures CommittedWorkers(vs) == CommittedWorkers(ws)
  {
    if ws != [] {
      CommittedSame(ws[..|ws| - 1], vs[..|vs| - 1]);
    }
  }

  lemma {:induction false} NoneCommitted(ws: seq<Worker>)
    requires forall i :: 0 <= i < |ws| ==> ws[i] == Exited
    ensures CommittedWorkers(ws) == 0
  {
    if ws != [] {
      NoneCommitted(ws[..|ws| - 1]);
    }
  }

  /** The tasks for which there is no committed worker. */
  function Surplus(s: Pool): nat {
    var c := CommittedWorkers(s.workers);
    if |s.queue| > c then |s.queue| - c else 0
  }

  /** Once the flag fell only runTask changes the surplus, by adding to it. */
  lemma SurplusStays(s: Pool, a: Action)
    requires Inv(s) && !s.running
    ensures Surplus(Next(s, a)) >= Surplus(s)
    ensures Next(s, a).submitted == s.submitted ==> Surplus(Next(s, a)) == Surplus(s)
  {
    var t := Next(s, a);
    match a {
      case Take(w, _) =>
        if t.workers != s.workers { CommittedAfter(s.workers, w, t.workers[w]); }
      case _ => CommittedSame(s.workers, t.workers);
    }
  }

  lemma {:induction false} SurplusOfRun(s: Pool, actions: seq<Action>)
    requires Inv(s) && !s.running
    ensures |Run(s, actions).submitted| >= |s.submitted| && Surplus(Run(s, actions)) >= Surplus(s)
    ensures |Run(s, actions).submitted| == |s.submitted| ==> Surplus(Run(s, actions)) == Surplus(s)
    decreases |actions|
  {
    if actions != [] {
      NextKeeps(s, actions[0]);
      SurplusStays(s, actions[0]);
      SurplusOfRun(Next(s, actions[0]), actions[1..]);
    }
  }

  /** Nobody is inside runTask. */
  predicate NoCallers(s: Pool) {
    forall p :: 0 <= p < |s.producers| ==> s.producers[p] == Idle
  }

  lemma {:induction false} NoCallersNoPuts(s: Pool, actions: seq<Action>)
    requires Inv(s) && !s.running && NoCallers(s)
    ensures Run(s, actions).submitted == s.submitted
    decreases |actions|
  {
    if actions != [] {
      NextKeeps(s, actions[0]);
      NoCallersNoPuts(Next(s, actions[0]), actions[1..]);
    }
  }

  lemma JoinedSurplus(s: Pool)
    requires Inv(s) && s.stopper == Joined
    ensures |s.queue| == Surplus(s)
  {
    NoneCommitted(s.workers);
  }

  /**
   * stop() discards tasks, and how many is decided when the flag falls: the surplus of queued tasks over the
   * workers then in takeTask or committed to it. Calls of runTask still under way can only add to that.
   */
  lemma StopLeavesTasks(s: Pool, actions: seq<Action>)
    requires Reachable(s) && s.stopper == NotStopping
    ensures var t := Run(Next(s, StopFlag), actions);
            t.stopper == Joined ==> |t.queue| >= Surplus(s) && (NoCallers(s) ==> |t.queue| == Surplus(s))
  {
    ReachableInv(s);
    NextKeeps(s, StopFlag);
    var u := Next(s, StopFlag);
    SurplusOfRun(u, actions);
    RunKeeps(u, actions);
    if Run(u, actions).stopper == Joined {
      JoinedSurplus(Run(u, actions));
    }
    if NoCallers(s) {
      NoCallersNoPuts(u, actions);
    }
  }

  /** Every task submitted has been taken whenever stop() has returned, however that came about. */
  ghost predicate NothingLeft(s: Pool) {
    forall actions :: Run(s, actions).stopper == Joined ==> Run(s, actions).queue == []
  }

  lemma {:induction false} RunAppend(s: Pool, actions: seq<Action>, more: seq<Action>)
    ensures Run(s, actions + more) == Run(Run(s, actions), more)
    decreases |actions|
  {
    if actions == [] {
      assert actions + more == more;
    } else {
      assert (actions + more)[0] == actions[0] && (actions + more)[1..] == actions[1..] + more;
      RunAppend(Next(s, actions[0]), actions[1..], more);
    }
  }

  /** After the join a call of runTask that is under way can still put its task, and nobody will take it. */
  lemma LatePut(s: Pool, p: nat) returns (actions: seq<Action>)
    requires Inv(s) && s.stopper == Joined && s.capacity > 0 && p < |s.producers| && s.producers[p] != Idle
    ensures Run(s, actions).stopper == Joined && Run(s, actions).queue != []
  {
    if s.queue != [] {
      actions := [];
    } else if s.producers[p].Blocked? {
      actions := [StirProducer(p), Put(p, 0)];
      var t := Next(s, StirProducer(p));
      assert Run(s, actions) == Run(t, [Put(p, 0)]) == Run(Next(t, Put(p, 0)), []);
    } else {
      actions := [Put(p, 0)];
      assert Run(s, actions) == Run(Next(s, Put(p, 0)), []);
    }
  }

  /**
   * No task is discarded if and only if, when the flag falls, no call is under way and each task has a committed
   * worker.
   */
  lemma DiscardsNothingExactly(s: Pool)
    requires Reachable(s) && s.stopper == NotStopping
    ensures NothingLeft(Next(s, StopFlag)) <==> NoCallers(s) && |s.queue| <= CommittedWorkers(s.workers)
  {
    ReachableInv(s);
    NextKeeps(s, StopFlag);
    var u := Next(s, StopFlag);
    if NoCallers(s) && |s.queue| <= CommittedWorkers(s.workers) {
      forall actions | Run(u, actions).stopper == Joined
        ensures Run(u, actions).queue == []
      {
        StopLeavesTasks(s, actions);
      }
    } else {
      StopCanAlwaysReturn(u);
      var n :| Returns(u, n);
      var actions :| |actions| <= n && Run(u, actions).stopper == Joined && NoPuts(u, Run(u, actions));
      StopLeavesTasks(s, actions);
      if !NoCallers(s) {
        var p :| 0 <= p < |s.producers| && s.producers[p] != Idle;
        RunKeeps(u, actions);
        var more := LatePut(Run(u, actions), p);
        RunAppend(u, actions, more);
      }
    }
  }

  /** A pool of one worker, whose task is queued while the worker is about to test running_. */
  function OneTask(worker: Worker, running: bool, stopper: Stopper, task: TaskId): Pool {
    Pool(1, [worker], [Idle], [task], running, stopper, [task], [], [0])
  }

  lemma TaskArrives(task: TaskId)
    ensures Run(NewPool(1, 1, 1), [Call(0, task), Put(0, 0)]) == OneTask(Top, true, NotStopping, task)
  {
    var s := NewPool(1, 1, 1);
    var t := s.(producers := [Calling(task)]);
    assert Next(s, Call(0, task)) == t;
    assert Next(t, Put(0, 0)) == OneTask(Top, true, NotStopping, task);
    assert Run(t, [Put(0, 0)]) == Run(Next(t, Put(0, 0)), []);
  }

  lemma TaskIsLeft(task: TaskId)
    ensures Run(OneTask(Top, true, NotStopping, task), [StopFlag, StopNotify, Test(0), StopJoin])
            == OneTask(Exited, false, Joined, task)
  {
    var s1 := OneTask(Top, false, FlagDown, task);
    var s2 := OneTask(Top, false, AllNotified, task);
    var s3 := OneTask(Exited, false, AllNotified, task);
    assert Next(s1, StopNotify) == s2;
    assert Run(s3, [StopJoin]) == Run(Next(s3, StopJoin), []);
    assert Run(s2, [Test(0), StopJoin]) == Run(s3, [StopJoin]);
    assert Run(s1, [StopNotify, Test(0), StopJoin]) == Run(s2, [Test(0), StopJoin]);
  }

  /** A run that discards a task. */
  lemma StopDiscards(task: TaskId)
    ensures var s := Run(NewPool(1, 1, 1), [Call(0, task), Put(0, 0)] + [StopFlag, StopNotify, Test(0), StopJoin]);
            s.stopper == Joined && s.submitted == s.queue == [task] && s.taken == []
  {
    TaskArrives(task);
    TaskIsLeft(task);
    RunAppend(NewPool(1, 1, 1), [Call(0, task), Put(0, 0)], [StopFlag, StopNotify, Test(0), StopJoin]);
  }
}
