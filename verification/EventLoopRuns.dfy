/** What a run of the event loop does with every job it was asked to queue, every wakeup and every quit. */
module EventLoopRuns {
  import opened Common
  import opened EventLoops

  // ---------- jobs ----------

  /** The job that a move hands to queueInLoop, if the thread that makes it can call it now. */
  function Asks<T>(l: Loop<T>, m: Move<T>): seq<T> {
    match m
    case OwnPush(task) => if l.pc.Handling? || (l.pc.Running? && !l.pc.owes) then [task] else []
    case Push(t, task) => if t in l.owing then [] else [task]
    case _ => []
  }

  function AskedOf<T>(l: Loop<T>, ms: seq<Move<T>>): seq<T>
    decreases |ms|
  {
    if ms == [] then [] else Asks(l, ms[0]) + AskedOf(Next(l, ms[0]), ms[1..])
  }

  lemma {:induction false} PushedAsAsked<T>(l: Loop<T>, ms: seq<Move<T>>)
    ensures Run(l, ms).pushed == l.pushed + AskedOf(l, ms)
    decreases |ms|
  {
    if ms == [] {
      assert l.pushed + [] == l.pushed;
    } else {
      var n := Next(l, ms[0]);
      assert n.pushed == l.pushed + Asks(l, ms[0]);
      PushedAsAsked(n, ms[1..]);
      assert (l.pushed + Asks(l, ms[0])) + AskedOf(n, ms[1..]) == l.pushed + (Asks(l, ms[0]) + AskedOf(n, ms[1..]));
    }
  }

  /** Under any interleaving no job is lost, invented or overtaken: all that were asked for ran or wait, in order. */
  lemma AskedJobsConserved<T>(early: seq<T>, ms: seq<Move<T>>)
    ensures var l := Run(Start(early), ms);
            l.ran + l.Batch() + l.pending == early + AskedOf(Start(early), ms)
  {
    JobsConserved(early, ms);
    PushedAsAsked(Start(early), ms);
  }

  /** Once a doPendingJobs has ended, every job asked for before its swap has run, and nothing else has. */
  lemma AskedJobsRun<T>(early: seq<T>, ms: seq<Move<T>>, during: seq<Move<T>>)
    requires Run(Start(early), ms).pc == Handling(false) && forall m :: m in during ==> !m.EndJobs?
    ensures var ended := Next(Run(Next(Run(Start(early), ms), Swap), during), EndJobs);
            ended.pc.Checking? ==> ended.ran == early + AskedOf(Start(early), ms)
  {
    var l := Run(Start(early), ms);
    AskedJobsConserved(early, ms);
    OneBatch(l, during);
    assert l.Batch() == [] && l.ran + [] == l.ran;
  }

  function Repeat<T>(m: Move<T>, n: nat): seq<Move<T>> {
    if n == 0 then [] else [m] + Repeat(m, n - 1)
  }

  /** From wherever doPendingJobs is it can go on to its end, and has then run its whole batch. */
  lemma {:induction false} BatchCanEnd<T>(l: Loop<T>)
    requires l.pc.Running? && !l.pc.owes
    ensures var ended := Next(Run(l, Repeat(RunTask, |l.pc.batch|)), EndJobs);
            ended == l.(pc := Checking, ran := l.ran + l.pc.batch)
    decreases |l.Batch()|
  {
    if l.pc.batch == [] {
      assert l.ran + [] == l.ran;
    } else {
      var n, ms := Next(l, RunTask), Repeat<T>(RunTask, |l.pc.batch|);
      BatchCanEnd(n);
      assert ms[0] == RunTask && ms[1..] == Repeat(RunTask, |n.pc.batch|);
      assert l.pc.batch == [l.pc.batch[0]] + l.pc.batch[1..];
      assert (l.ran + [l.pc.batch[0]]) + l.pc.batch[1..] == l.ran + l.pc.batch;
    }
  }

  /** What queueInLoop does undisturbed: queue the job, and write the eventfd unless a channel's handler called it. */
  lemma QueueInLoopMoves<T>(l: Loop<T>, t: nat, task: T)
    ensures var queued := l.(pending := l.pending + [task], pushed := l.pushed + [task]);
            var woken := queued.(eventfd := Bump(l.eventfd));
            && (t !in l.owing ==> Next(Next(l, Push(t, task)), Wake(t)) == woken)
            && (l.pc.Running? && !l.pc.owes ==> Next(Next(l, OwnPush(task)), OwnWake) == woken)
            && (l.pc.Handling? ==> Next(l, OwnPush(task)) == queued)
  {
    assert t !in l.owing ==> l.owing + {t} - {t} == l.owing;
  }

  /** A task that queued a job writes the eventfd before it goes on. */
  lemma TaskWakes<T>(l: Loop<T>)
    requires l.pc.Running? && l.pc.owes
    ensures var n := Next(l, OwnWake);
            n.pc == Running(l.pc.batch, false) && n.eventfd > 0 && n.pending == l.pending && n.ran == l.ran
    ensures forall m: Move<T> :: m.RunTask? || m.OwnPush? || m.EndJobs? ==> Next(l, m) == l
  {
  }

  lemma {:induction false} RunAppend<T>(l: Loop<T>, ms: seq<Move<T>>, more: seq<Move<T>>)
    ensures Run(l, ms + more) == Run(Run(l, ms), more)
    decreases |ms|
  {
    if ms == [] {
      assert ms + more == more;
    } else {
      assert (ms + more)[0] == ms[0] && (ms + more)[1..] == ms[1..] + more;
      RunAppend(Next(l, ms[0]), ms[1..], more);
    }
  }

  lemma OneMove<T>(l: Loop<T>, m: Move<T>)
    ensures Run(l, [m]) == Next(l, m)
  {
    assert [m][1..] == [];
  }

  /** The loop thread's moves from epoll_wait until it gets back there, or out. */
  function Turn<T>(wakeReady: bool, jobs: nat): seq<Move<T>> {
    [Poll(wakeReady)] + (if wakeReady then [Drain] else []) + [Swap] + (Repeat(RunTask, jobs) + [EndJobs, Check])
  }

  /**
   * One turn of the loop, undisturbed: the eventfd is read if epoll_wait reported it, every pending job runs, and the
   * loop waits again unless it was asked to quit.
   */
  lemma TurnRunsPending<T>(l: Loop<T>, wakeReady: bool)
    requires l.pc.AtPoll? && (wakeReady ==> l.eventfd > 0)
    ensures Run(l, Turn(wakeReady, |l.pending|))
            == l.(pc := if l.quit then Stopped else AtPoll, eventfd := if wakeReady then 0 else l.eventfd,
                  pending := [], ran := l.ran + l.pending)
  {
    var woken: seq<Move<T>> := [Poll(wakeReady)] + (if wakeReady then [Drain] else []);
    var h := l.(pc := Handling(false), eventfd := if wakeReady then 0 else l.eventfd);
    assert Run(l, woken) == h by {
      if wakeReady {
        RunAppend(l, [Poll(true)], [Drain]);
        OneMove(l, Poll(true));
        OneMove(Next(l, Poll(true)), Drain);
      } else {
        assert woken == [Poll(false)];
        OneMove(l, Poll(false));
      }
    }
    RunAppend(l, woken, [Swap]);
    OneMove(h, Swap);
    var j, jobs := Next(h, Swap), Repeat<T>(RunTask, |l.pending|);
    RunAppend(l, woken + [Swap], jobs + [EndJobs, Check]);
    RunAppend(j, jobs, [EndJobs, Check]);
    BatchCanEnd(j);
    TwoMoves(Run(j, jobs), EndJobs, Check);
  }

  lemma TwoMoves<T>(l: Loop<T>, m: Move<T>, n: Move<T>)
    ensures Run(l, [m, n]) == Next(Next(l, m), n)
  {
    assert [m] + [n] == [m, n];
    RunAppend(l, [m], [n]);
    OneMove(l, m);
    OneMove(Next(l, m), n);
  }

  // ---------- the eventfd ----------

  /** The writes of the eventfd since it was last read, n of them before the run. */
  function Writes<T>(n: nat, l: Loop<T>, ms: seq<Move<T>>): nat
    decreases |ms|
  {
    if ms == [] then n
    else
      var more := match ms[0]
        case Drain => if l.pc == Handling(true) then 0 else n
        case OwnWake => if l.pc.Running? && l.pc.owes then n + 1 else n
        case Wake(t) => if t in l.owing then n + 1 else n
        case _ => n;
      Writes(more, Next(l, ms[0]), ms[1..])
  }

  lemma {:induction false} CounterCounts<T>(n: nat, l: Loop<T>, ms: seq<Move<T>>)
    requires l.eventfd == Min(n, EVENTFD_MAX)
    ensures Run(l, ms).eventfd == Min(Writes(n, l, ms), EVENTFD_MAX)
    decreases |ms|
  {
    if ms != [] {
      var more := match ms[0]
        case Drain => if l.pc == Handling(true) then 0 else n
        case OwnWake => if l.pc.Running? && l.pc.owes then n + 1 else n
        case Wake(t) => if t in l.owing then n + 1 else n
        case _ => n;
      assert Next(l, ms[0]).eventfd == Min(more, EVENTFD_MAX);
      CounterCounts(more, Next(l, ms[0]), ms[1..]);
    }
  }

  /** The eventfd counts the wakeups since it was last read: it is readable for them, and for nothing else. */
  lemma EventfdExact<T>(early: seq<T>, ms: seq<Move<T>>)
    ensures Run(Start(early), ms).eventfd == Min(Writes(0, Start(early), ms), EVENTFD_MAX)
  {
    CounterCounts(0, Start(early), ms);
  }

  // ---------- quitting ----------

  /** A call of quit() that finds the flag unset, as its assert demands, made by a thread that can. */
  predicate Quits<T>(l: Loop<T>, m: Move<T>) {
    match m
    case OwnQuit => (l.pc.Handling? || l.pc.Running?) && !l.quit
    case Quit(t) => t !in l.owing && !l.quit
    case _ => false
  }

  predicate QuitsIn<T>(l: Loop<T>, ms: seq<Move<T>>)
    decreases |ms|
  {
    ms != [] && (Quits(l, ms[0]) || QuitsIn(Next(l, ms[0]), ms[1..]))
  }

  lemma {:induction false} QuitFlag<T>(l: Loop<T>, ms: seq<Move<T>>)
    requires l.pc.Stopped? ==> l.quit
    ensures Run(l, ms).quit <==> l.quit || QuitsIn(l, ms)
    ensures Run(l, ms).pc.Stopped? ==> Run(l, ms).quit
    decreases |ms|
  {
    if ms != [] {
      QuitFlag(Next(l, ms[0]), ms[1..]);
    }
  }

  /**
   * loop() is left exactly by a test of the flag that comes after a call of quit(), and once left it is never entered
   * again.
   */
  lemma QuitsExactly<T>(early: seq<T>, ms: seq<Move<T>>, more: seq<Move<T>>)
    ensures var l := Run(Start(early), ms);
            && (l.pc.Checking? ==> (Next(l, Check).pc.Stopped? <==> QuitsIn(Start(early), ms)))
            && (l.pc.Stopped? ==> QuitsIn(Start(early), ms) && Run(l, more).pc.Stopped?)
  {
    QuitFlag(Start(early), ms);
    if Run(Start(early), ms).pc.Stopped? {
      StaysStopped(Run(Start(early), ms), more);
    }
  }

  lemma {:induction false} StaysStopped<T>(l: Loop<T>, ms: seq<Move<T>>)
    requires l.pc.Stopped?
    ensures Run(l, ms).pc.Stopped?
    decreases |ms|
  {
    if ms != [] {
      StaysStopped(Next(l, ms[0]), ms[1..]);
    }
  }

  // ---------- the other threads ----------

  /** Whether thread t is between its push, or its quit(), and its wakeup(); owes, before the run. */
  function Owes<T>(l: Loop<T>, ms: seq<Move<T>>, t: nat, owes: bool): bool
    decreases |ms|
  {
    if ms == [] then owes
    else
      var now := match ms[0]
        case Push(u, _) => owes || u == t
        case Quit(u) => owes || (u == t && !l.quit)
        case Wake(u) => owes && u != t
        case _ => owes;
      Owes(Next(l, ms[0]), ms[1..], t, now)
  }

  lemma {:induction false} OwingFollows<T>(l: Loop<T>, ms: seq<Move<T>>, t: nat)
    ensures t in Run(l, ms).owing <==> Owes(l, ms, t, t in l.owing)
    decreases |ms|
  {
    if ms != [] {
      OwingFollows(Next(l, ms[0]), ms[1..], t);
    }
  }

  /** Each push and each quit() of another thread is followed by its own wakeup(), and by no other. */
  lemma OwingExactly<T>(early: seq<T>, ms: seq<Move<T>>, t: nat)
    ensures t in Run(Start(early), ms).owing <==> Owes(Start(early), ms, t, false)
  {
    OwingFollows(Start(early), ms, t);
  }
}
