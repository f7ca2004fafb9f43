/** EventLoop's job queue and wakeup protocol: other threads push and then write the eventfd, as two steps. */
module EventLoops {
  import opened Common

  /** The largest value an eventfd holds; a write that would pass it is refused (EAGAIN). */
  const EVENTFD_MAX: nat := 0xFFFF_FFFF_FFFF_FFFE

  function Bump(counter: nat): nat {
    if counter < EVENTFD_MAX then counter + 1 else counter
  }

  /** Where loop() is. Running(batch, true): a task queued a job and has not yet written the eventfd. */
  datatype LoopPc<T> =
    | Checking
    | AtPoll
    | Handling(wakeReady: bool)
    | Running(batch: seq<T>, owes: bool)
    | Stopped

  datatype Loop<T> = Loop(
    pc: LoopPc<T>,
    pending: seq<T>,
    eventfd: nat,
    quit: bool,
    owing: set<nat>, // other threads between their push, or their quit flag, and their eventfd write
    pushed: seq<T>,
    ran: seq<T>)
  {
    function Batch(): seq<T> {
      if pc.Running? then pc.batch else []
    }
  }

  datatype Move<T> =
    | Check
    | Poll(wakeReady: bool)       // epoll_wait returns, with or without the wakeup channel
    | Drain                       // handleRead
    | OwnPush(task: T)            // queueInLoop on the loop thread
    | OwnWake                     // ... and its wakeup(), inside doPendingJobs
    | OwnQuit
    | Swap
    | RunTask
    | EndJobs
    | Push(thread: nat, task: T)  // queueInLoop on another thread
    | Quit(thread: nat)           // quit() on another thread
    | Wake(thread: nat)           // and the wakeup() that follows

  /** loop() is entered with the given jobs already queued by its own thread. */
  function Start<T>(early: seq<T>): Loop<T> {
    Loop(Checking, early, 0, false, {}, early, [])
  }

  /** A move that cannot be made now changes nothing. */
  function Next<T>(l: Loop<T>, m: Move<T>): Loop<T> {
    match m
    case Check => if l.pc.Checking? then l.(pc := if l.quit then Stopped else AtPoll) else l
    case Poll(wakeReady) => if l.pc.AtPoll? && (wakeReady ==> l.eventfd > 0) then l.(pc := Handling(wakeReady)) else l
    case Drain => if l.pc == Handling(true) then l.(pc := Handling(false), eventfd := 0) else l
    case OwnPush(task) =>
      if l.pc.Handling? then l.(pending := l.pending + [task], pushed := l.pushed + [task])
      else if l.pc.Running? && !l.pc.owes
      then l.(pc := l.pc.(owes := true), pending := l.pending + [task], pushed := l.pushed + [task])
      else l
    case OwnWake => if l.pc.Running? && l.pc.owes then l.(pc := l.pc.(owes := false), eventfd := Bump(l.eventfd)) else l
    case OwnQuit => if (l.pc.Handling? || l.pc.Running?) && !l.quit then l.(quit := true) else l
    case Swap => if l.pc == Handling(false) then l.(pc := Running(l.pending, false), pending := []) else l
    case RunTask =>
      if l.pc.Running? && !l.pc.owes && l.pc.batch != []
      then l.(pc := Running(l.pc.batch[1..], false), ran := l.ran + [l.pc.batch[0]]) else l
    case EndJobs => if l.pc == Running([], false) then l.(pc := Checking) else l
    case Push(t, task) =>
      if t !in l.owing
      then l.(pending := l.pending + [task], pushed := l.pushed + [task], owing := l.owing + {t}) else l
    case Quit(t) => if t !in l.owing && !l.quit then l.(quit := true, owing := l.owing + {t}) else l
    case Wake(t) => if t in l.owing then l.(eventfd := Bump(l.eventfd), owing := l.owing - {t}) else l
  }

  function Run<T>(l: Loop<T>, ms: seq<Move<T>>): Loop<T>
    decreases |ms|
  {
    if ms == [] then l else Run(Next(l, ms[0]), ms[1..])
  }

  /** The eventfd will be readable: it is, or a thread is about to write it. */
  predicate Waking<T>(l: Loop<T>) {
    l.eventfd > 0 || l.owing != {} || (l.pc.Running? && l.pc.owes)
  }

  predicate WakeInv<T>(l: Loop<T>) {
    && (l.pending != [] && !l.pc.Handling? && !l.pc.Stopped? ==> Waking(l))
    && (l.pc.AtPoll? && l.quit ==> Waking(l))
  }

  predicate QueueInv<T(==)>(l: Loop<T>) {
    l.pushed == l.ran + l.Batch() + l.pending
  }

  lemma NextWakes<T>(l: Loop<T>, m: Move<T>)
    requires WakeInv(l)
    ensures WakeInv(Next(l, m))
  {
    if m.Wake? && m.thread in l.owing {
      assert Next(l, m).eventfd > 0;
    }
  }

  lemma NextConserves<T>(l: Loop<T>, m: Move<T>)
    requires QueueInv(l)
    ensures QueueInv(Next(l, m))
  {
    var n := Next(l, m);
    if n.pushed != l.pushed {
      assert n.pushed == l.ran + l.Batch() + (l.pending + [m.task]);
    } else if m.RunTask? && n != l {
      assert l.pc.batch == [l.pc.batch[0]] + l.pc.batch[1..];
      assert n.ran + n.Batch() == l.ran + l.Batch();
    } else {
      assert n.ran == l.ran && n.Batch() + n.pending == l.Batch() + l.pending;
      assert l.ran + l.Batch() + l.pending == l.ran + (l.Batch() + l.pending);
      assert n.ran + n.Batch() + n.pending == n.ran + (n.Batch() + n.pending);
    }
  }

  lemma {:induction false} RunKeeps<T>(l: Loop<T>, ms: seq<Move<T>>)
    requires QueueInv(l)
    ensures QueueInv(Run(l, ms))
    ensures WakeInv(l) ==> WakeInv(Run(l, ms))
    decreases |ms|
  {
    if ms != [] {
      NextConserves(l, ms[0]);
      if WakeInv(l) {
        NextWakes(l, ms[0]);
      }
      RunKeeps(Next(l, ms[0]), ms[1..]);
    }
  }

  /**
   * epoll_wait would block although there is a job to run or the loop was asked to quit, and nobody is about to wake
   * it.
   */
  predicate Stuck<T>(l: Loop<T>) {
    l.pc.AtPoll? && !Waking(l) && (l.pending != [] || l.quit)
  }

  /**
   * No wakeup is ever lost, under any interleaving, if and only if the loop thread had queued no job
   * before it entered loop().
   */
  lemma NoLostWakeup<T>(early: seq<T>)
    ensures (forall ms :: !Stuck(Run(Start(early), ms))) <==> early == []
  {
    if early == [] {
      forall ms: seq<Move<T>>
        ensures !Stuck(Run(Start(early), ms))
      {
        RunKeeps(Start(early), ms);
      }
    } else {
      var ms: seq<Move<T>> := [Check];
      assert Run(Start(early), ms) == Next(Start(early), Check);
      assert Stuck(Run(Start(early), ms));
    }
  }

  /** Jobs run, the rest of the batch and the pending jobs are all pushes, in the order of the lock. */
  lemma JobsConserved<T>(early: seq<T>, ms: seq<Move<T>>)
    ensures var l := Run(Start(early), ms); l.ran + l.Batch() + l.pending == l.pushed
  {
    RunKeeps(Start(early), ms);
  }

  lemma NextInBatch<T>(l: Loop<T>, m: Move<T>)
    requires l.pc.Running? && Next(l, m).pc.Running?
    ensures Next(l, m).ran + Next(l, m).Batch() == l.ran + l.Batch()
    ensures |Next(l, m).Batch()| <= |l.Batch()|
    ensures m.RunTask? && Next(l, m) != l ==> |Next(l, m).Batch()| == |l.Batch()| - 1
  {
    if m.RunTask? && Next(l, m) != l {
      assert l.pc.batch == [l.pc.batch[0]] + l.pc.batch[1..];
    }
  }

  /** Until it ends, no EndJobs move being made, doPendingJobs keeps to the jobs present at its swap. */
  lemma {:induction false} BatchIsFixed<T>(l: Loop<T>, ms: seq<Move<T>>)
    requires l.pc.Running? && forall m :: m in ms ==> !m.EndJobs?
    ensures Run(l, ms).pc.Running? && Run(l, ms).ran + Run(l, ms).Batch() == l.ran + l.Batch()
    decreases |ms|
  {
    if ms != [] {
      NextInBatch(l, ms[0]);
      BatchIsFixed(Next(l, ms[0]), ms[1..]);
    }
  }

  /** One doPendingJobs runs exactly the jobs that were pending at its swap, whatever is queued meanwhile. */
  lemma OneBatch<T>(l: Loop<T>, ms: seq<Move<T>>)
    requires l.pc == Handling(false) && forall m :: m in ms ==> !m.EndJobs?
    ensures var before := Run(Next(l, Swap), ms);
            Next(before, EndJobs).pc.Checking? ==> before.ran == l.ran + l.pending
  {
    BatchIsFixed(Next(l, Swap), ms);
    var before := Run(Next(l, Swap), ms);
    assert before.ran + [] == before.ran;
  }

  /** The fields of EventLoop that concern its jobs; the client's tasks are values of T. */
  class EventLoop<T> {
    var pendingJobs: seq<T>
    var doingPendingJobs: bool
    var quit: bool
    var eventfd: nat
    ghost var ran: seq<T>

    constructor ()
      ensures pendingJobs == [] && !doingPendingJobs && !quit && eventfd == 0 && ran == []
    {
      pendingJobs := [];
      doingPendingJobs := false;
      quit := false;
      eventfd := 0;
      ran := [];
    }

    method Wakeup()
      modifies this`eventfd
      ensures eventfd == Bump(old(eventfd)) && eventfd > 0
    {
      if eventfd < EVENTFD_MAX {
        eventfd := eventfd + 1;
      }
    }

    method HandleRead()
      modifies this`eventfd
      ensures eventfd == 0
    {
      eventfd := 0;
    }

    method QueueInLoop(task: T, inLoopThread: bool := true)
      modifies this`pendingJobs, this`eventfd
      ensures pendingJobs == old(pendingJobs) + [task]
      ensures eventfd == if !inLoopThread || doingPendingJobs then Bump(old(eventfd)) else old(eventfd)
    {
      pendingJobs := pendingJobs + [task];
      if !inLoopThread || doingPendingJobs {
        Wakeup();
      }
    }

    method QuitLoop(inLoopThread: bool)
      requires !quit
      modifies this`quit, this`eventfd
      ensures quit && eventfd == if inLoopThread then old(eventfd) else Bump(old(eventfd))
    {
      quit := true;
      if !inLoopThread {
        Wakeup();
      }
    }

    /**
     * queued[i] is what is queued while the i-th job runs, and the job numbered quits, if any, quits the loop.
     * Whatever is queued, the next epoll_wait returns for it.
     */
    method DoPendingJobs(queued: seq<seq<T>>, quits: Option<nat>)
      requires |queued| == |pendingJobs| && !doingPendingJobs
      requires quits.Some? ==> quits.value < |pendingJobs| && !quit
      modifies this
      ensures ran == old(ran) + old(pendingJobs)
      ensures pendingJobs == Flatten(queued)
      ensures pendingJobs != [] ==> eventfd > 0
      ensures !doingPendingJobs && quit == (old(quit) || quits.Some?)
    {
      var jobs := pendingJobs;
      pendingJobs := [];
      doingPendingJobs := true;
      assert queued[..0] == [];
      for i := 0 to |jobs|
        invariant ran == old(ran) + jobs[..i]
        invariant pendingJobs == Flatten(queued[..i])
        invariant pendingJobs != [] ==> eventfd > 0
        invariant doingPendingJobs && quit == (old(quit) || (quits.Some? && quits.value < i))
      {
        RunTask(jobs[i], queued[i], quits == Some(i));
        FlattenAppend(queued[..i], queued[i]);
        assert queued[..i + 1] == queued[..i] + [queued[i]];
        assert jobs[..i + 1] == jobs[..i] + [jobs[i]];
      }
      assert queued[..|jobs|] == queued && jobs[..|jobs|] == jobs;
      doingPendingJobs := false;
    }

    /** A job runs, queues further jobs and may quit the loop. */
    method RunTask(job: T, queued: seq<T>, quits: bool)
      requires doingPendingJobs && (pendingJobs != [] ==> eventfd > 0) && (quits ==> !quit)
      modifies this`pendingJobs, this`eventfd, this`quit, this`ran
      ensures ran == old(ran) + [job] && quit == (old(quit) || quits)
      ensures pendingJobs == old(pendingJobs) + queued
      ensures pendingJobs != [] ==> eventfd > 0
    {
      ran := ran + [job];
      for i := 0 to |queued|
        invariant pendingJobs == old(pendingJobs) + queued[..i]
        invariant pendingJobs != [] ==> eventfd > 0
        invariant ran == old(ran) + [job] && quit == old(quit)
      {
        QueueInLoop(queued[i]);
        assert queued[..i + 1] == queued[..i] + [queued[i]];
      }
      assert queued[..|queued|] == queued;
      if quits {
        QuitLoop(true);
      }
    }
  }
}
