/** A complete run of the echo server to a failed assert. */
module EchoCrash {
  import opened Common
  import opened Epoll
  import opened Connection
  import opened Reactor
  import opened ReactorRuns
  import opened Echo
  import opened EchoServe
  import opened EchoRuns
  import opened EchoLimits

  /** w with connection c replaced, at the given place of the loop, with the given pending jobs. */
  function With(w: World, c: nat, k: Conn, phase: Phase, pending: seq<Job>): World {
    w.(conns := w.conns[c := k], phase := phase, pending := pending)
  }

  /** Same connections, place and pending jobs; histories of jobs and the server's set may differ. */
  predicate Like(v: World, w: World) {
    v.conns == w.conns && v.phase == w.phase && v.pending == w.pending
  }

  /** A connection in use with output pending, seen writable. */
  ghost predicate Pending(k: Conn) {
    Sound(k) && k.state == Connected && k.onWriteComplete && k.output != []
  }

  function Closing(k: Conn): Conn {
    k.(state := Disconnecting)
  }

  function Drained(k: Conn): Conn {
    ShutdownInLoop(k.(state := Disconnecting, output := [], events := k.events - {OUT},
                      log := k.log.(wire := k.log.wire + k.output)))
  }

  function Gone(k: Conn): Conn {
    CalledBack(Drained(k).(state := Disconnected, events := {}))
  }

  /** onTimeout asks for the closing ... */
  lemma ClosingStep(w: World, c: nat)
    requires c in w.conns && Pending(w.conns[c]) && w.phase.Handling? && w.pending == []
    ensures var o := Step(w, OtherHandler(CloseAll([c])));
            && o.Ok? && o.world.server == w.server
            && Like(o.world, With(w, c, Closing(w.conns[c]), w.phase, [ForceClose(c)]))
  {
    assert CloseAll([c]) == [CloseSoon(c)];
    OneCall(w, CloseSoon(c));
  }

  /** ... the same iteration flushes the rest, which queues a WriteComplete behind the ForceClose ... */
  lemma FlushingStep(w: World, k: Conn, c: nat, wr: WriteResult)
    requires Pending(k) && c in w.conns && w.conns[c] == Closing(k)
    requires w.phase == Handling([Ready(c, {OUT})]) && w.pending == [ForceClose(c)]
    ensures var o := Step(w, Handle(Env(Buffers.Failed(0), Wrote(|k.output|), OnMessage(c, wr), [])));
            && o.Ok? && o.world.server == w.server
            && Like(o.world, With(w, c, Drained(k), Handling([]), [ForceClose(c), WriteComplete(c)]))
  {
    assert k.output[|k.output|..] == [] && k.output[..|k.output|] == k.output;
    assert w.phase.active[1..] == [];
  }

  /** ... the ForceClose job closes the connection ... */
  lemma ClosingJob(w: World, k: Conn, c: nat)
    requires Pending(k) && c in w.conns && w.conns[c] == Drained(k) && c in w.server
    requires w.phase == Running([ForceClose(c), WriteComplete(c)]) && w.pending == []
    ensures var o := Step(w, RunNext(Env(Buffers.Failed(0), WouldBlock, [], [])));
            o.Ok? && Like(o.world, With(w, c, Gone(k), Running([WriteComplete(c)]), []))
  {
    assert w.phase.batch[1..] == [WriteComplete(c)];
    assert PRI in Drained(k).events;
    assert Close(Drained(k)) == Effect(Gone(k), []);
  }

  /** ... and the WriteComplete job finds reading off and switches it on, for a connection that is closed. */
  lemma RevivingJob(w: World, k: Conn, c: nat)
    requires Pending(k) && c in w.conns && w.conns[c] == Gone(k)
    requires w.phase == Running([WriteComplete(c)]) && w.pending == []
    ensures var o := Step(w, RunNext(Env(Buffers.Failed(0), WouldBlock, OnJob(w, WriteComplete(c)), [])));
            o.Ok? && Like(o.world, With(w, c, Gone(k).(events := {IN, PRI}), Running([]), []))
  {
    var u := Popped(w);
    assert w.phase.batch[1..] == [];
    JobStep(u, c, WriteComplete(c));
    assert {} + {IN, PRI} == {IN, PRI};
    assert StartRead(Gone(k)) == Gone(k).(events := {IN, PRI});
    assert OnJob(w, WriteComplete(c)) == OnJob(u, WriteComplete(c));
  }

  /** The next readable event of the connection fails the assert of handleRead. */
  lemma CrashingStep(w: World, c: nat, env: Env)
    requires c in w.conns && w.conns[c].state == Disconnected && w.phase == Handling([Ready(c, {IN})])
    ensures Step(w, Handle(env)) == Aborted(ReadWhenClosed)
  {
  }

  function CrashRun(now: int, c: nat, n: nat): seq<EchoEvent> {
    [Timeout(now, [c]), Handled(now, Buffers.Failed(0), WouldBlock, Wrote(n)),
     Swapped, JobRuns(now), JobRuns(now), JobsEnd,
     Polled([Ready(c, {IN})]), Handled(now, Buffers.Failed(0), WouldBlock, WouldBlock)]
  }

  lemma EchoExecStep(s: EchoState, es: seq<EchoEvent>, timeout: nat, t: EchoState)
    requires es != [] && EchoStep(s, es[0], timeout) == Serving(t)
    ensures EchoExec(s, es, timeout) == EchoExec(t, es[1..], timeout)
  {
  }

  lemma EchoExecThree(s: EchoState, a: EchoEvent, s1: EchoState, b: EchoEvent, s2: EchoState, c: EchoEvent,
                      t: EchoState, rest: seq<EchoEvent>, timeout: nat)
    requires EchoStep(s, a, timeout) == Serving(s1) && EchoStep(s1, b, timeout) == Serving(s2)
    requires EchoStep(s2, c, timeout) == Serving(t)
    ensures EchoExec(s, [a, b, c] + rest, timeout) == EchoExec(t, rest, timeout)
  {
    var es := [a, b, c] + rest;
    assert es[1..] == [b, c] + rest;
    assert es[1..][1..] == [c] + rest;
    assert es[1..][1..][1..] == rest;
    EchoExecStep(s, es, timeout, s1);
    EchoExecStep(s1, es[1..], timeout, s2);
    EchoExecStep(s2, es[1..][1..], timeout, t);
  }

  /** From the closed and registered connection to the crash. */
  lemma RevivedCrashes(s: EchoState, k: Conn, c: nat, now: int, timeout: nat)
    requires c in s.world.conns && s.world.conns[c] == Gone(k).(events := {IN, PRI})
    requires s.world.phase == Running([]) && s.world.pending == []
    ensures EchoExec(s, [JobsEnd, Polled([Ready(c, {IN})]), Handled(now, Buffers.Failed(0), WouldBlock, WouldBlock)],
                     timeout)
            == Crashed(ReadWhenClosed)
  {
    var last := Handled(now, Buffers.Failed(0), WouldBlock, WouldBlock);
    var poll := Polled([Ready(c, {IN})]);
    var s1 := s.(world := s.world.(phase := Polling));
    var s2 := s.(world := s.world.(phase := Handling([Ready(c, {IN})])));
    assert EchoStep(s, JobsEnd, timeout) == Serving(s1);
    assert EchoStep(s1, poll, timeout) == Serving(s2);
    CrashingStep(s2.world, c, Lower(s2, last).env);
    EchoExecStep(s, [JobsEnd, poll, last], timeout, s1);
    EchoExecStep(s1, [poll, last], timeout, s2);
    assert EchoExec(s2, [last], timeout) == Crashed(ReadWhenClosed);
  }

  /** The two jobs. */
  lemma JobsRevive(s: EchoState, k: Conn, c: nat, now: int, timeout: nat, rest: seq<EchoEvent>) returns (t: EchoState)
    requires Pending(k) && c in s.world.conns && s.world.conns[c] == Drained(k) && c in s.world.server
    requires s.world.phase == Handling([]) && s.world.pending == [ForceClose(c), WriteComplete(c)]
    ensures EchoExec(s, [Swapped, JobRuns(now), JobRuns(now)] + rest, timeout) == EchoExec(t, rest, timeout)
    ensures c in t.world.conns && t.world.conns[c] == Gone(k).(events := {IN, PRI})
    ensures t.world.phase == Running([]) && t.world.pending == []
  {
    var jobs := [ForceClose(c), WriteComplete(c)];
    var s1 := EchoState(s.world.(phase := Running(jobs), pending := []), s.expiry);
    assert EchoStep(s, Swapped, timeout) == Serving(s1);
    ClosingJob(s1.world, k, c);
    var s2 := EchoStep(s1, JobRuns(now), timeout).state;
    RevivingJob(s2.world, k, c);
    t := EchoStep(s2, JobRuns(now), timeout).state;
    EchoExecThree(s, Swapped, s1, JobRuns(now), s2, JobRuns(now), t, rest, timeout);
  }

  /** The timeout and the flush. */
  lemma EventsQueueBoth(s: EchoState, k: Conn, c: nat, now: int, timeout: nat, rest: seq<EchoEvent>)
    returns (t: EchoState)
    requires Pending(k) && c in s.world.conns && s.world.conns[c] == k && c in s.world.server
    requires s.world.phase == Handling([Ready(c, {OUT})]) && s.world.pending == [] && Visits(s.expiry, now, [c])
    ensures EchoExec(s, [Timeout(now, [c]), Handled(now, Buffers.Failed(0), WouldBlock, Wrote(|k.output|))] + rest,
                     timeout)
            == EchoExec(t, rest, timeout)
    ensures c in t.world.conns && t.world.conns[c] == Drained(k) && c in t.world.server
    ensures t.world.phase == Handling([]) && t.world.pending == [ForceClose(c), WriteComplete(c)]
  {
    var flush := Handled(now, Buffers.Failed(0), WouldBlock, Wrote(|k.output|));
    var es := [Timeout(now, [c]), flush] + rest;
    ClosingStep(s.world, c);
    var s1 := EchoStep(s, Timeout(now, [c]), timeout).state;
    FlushingStep(s1.world, k, c, WouldBlock);
    t := EchoStep(s1, flush, timeout).state;
    assert es[1..] == [flush] + rest && es[1..][1..] == rest;
    EchoExecStep(s, es, timeout, s1);
    EchoExecStep(s1, es[1..], timeout, t);
  }

  lemma PendingTimeoutCrashes(s: EchoState, k: Conn, c: nat, now: int, timeout: nat)
    requires Pending(k) && c in s.world.conns && s.world.conns[c] == k && c in s.world.server
    requires s.world.phase == Handling([Ready(c, {OUT})]) && s.world.pending == [] && Visits(s.expiry, now, [c])
    ensures EchoExec(s, CrashRun(now, c, |k.output|), timeout) == Crashed(ReadWhenClosed)
  {
    var tail := [JobsEnd, Polled([Ready(c, {IN})]), Handled(now, Buffers.Failed(0), WouldBlock, WouldBlock)];
    var jobs := [Swapped, JobRuns(now), JobRuns(now)] + tail;
    assert CrashRun(now, c, |k.output|)
           == [Timeout(now, [c]), Handled(now, Buffers.Failed(0), WouldBlock, Wrote(|k.output|))] + jobs;
    var t := EventsQueueBoth(s, k, c, now, timeout, jobs);
    var u := JobsRevive(t, k, c, now, timeout, tail);
    RevivedCrashes(u, k, c, now, timeout);
  }

  // A run to such a state: two bytes arrive, one is echoed at once, five seconds pass.

  function HalfEchoed(): Conn {
    Fresh().(events := {IN, PRI, OUT}, output := [66],
             log := Fresh().log.(got := [65, 66], wire := [65], accepted := [Direct([65, 66])]))
  }

  function Serves(k: Conn, phase: Phase, expires: int): EchoState {
    EchoState(World(map[0 := k], {0}, phase, [], [], [], map[], map[]), map[0 := expires])
  }

  function OpeningRun(): seq<EchoEvent> {
    [Polled([]), Connects(0, 0), Swapped, JobsEnd]
  }

  function EchoingRun(): seq<EchoEvent> {
    [Polled([Ready(0, {IN})]), Handled(1, Buffers.Got([65, 66]), Wrote(1), WouldBlock), Swapped, JobsEnd,
     Polled([Ready(0, {OUT})])]
  }

  lemma ConnectsStep(timeout: nat)
    ensures EchoStep(EchoState(Initial().(phase := Handling([])), map[]), Connects(0, 0), timeout)
            == Serving(Serves(Fresh(), Handling([]), timeout))
  {
    var w := Initial().(phase := Handling([]));
    ConnectEchoes(w, 0);
    OneCall(Accepted(w, 0, true), MarkHighWater(0, MARK));
    var empty: seq<Job> := [];
    assert empty + [] == empty;
    assert Accepted(w, 0, true).conns[0 := Fresh()] == map[0 := Fresh()];
    assert w.server + {0} == {0};
    assert map[][0 := timeout] == map[0 := timeout];
  }

  lemma Opens(timeout: nat)
    ensures EchoExec(START, OpeningRun(), timeout) == Serving(Serves(Fresh(), Polling, timeout))
  {
    var es := OpeningRun();
    var s1 := EchoState(Initial().(phase := Handling([])), map[]);
    var s2 := Serves(Fresh(), Handling([]), timeout);
    var s3 := Serves(Fresh(), Running([]), timeout);
    ConnectsStep(timeout);
    EchoExecStep(START, es, timeout, s1);
    EchoExecStep(s1, es[1..], timeout, s2);
    EchoExecStep(s2, es[1..][1..], timeout, s3);
    EchoExecStep(s3, es[1..][1..][1..], timeout, Serves(Fresh(), Polling, timeout));
  }

  lemma EchoesHalf(timeout: nat)
    ensures EchoStep(Serves(Fresh(), Handling([Ready(0, {IN})]), timeout),
                     Handled(1, Buffers.Got([65, 66]), Wrote(1), WouldBlock), timeout)
            == Serving(Serves(HalfEchoed(), Handling([]), 1 + timeout))
  {
    var s := Serves(Fresh(), Handling([Ready(0, {IN})]), timeout);
    var u := Taken(s.world);
    assert s.world.phase.active[1..] == [];
    var data: seq<byte> := [65, 66];
    assert data[..1] == [65] && data[1..] == [66];
    var empty: seq<byte> := [];
    assert empty + data == data && empty + [65] == [65] && empty + [66] == [66];
    assert Message(Fresh(), 0, data, Wrote(1)) == Effect(HalfEchoed(), []);
    MessageStep(u, 0, data, Wrote(1));
    assert u.conns[0 := HalfEchoed()] == map[0 := HalfEchoed()];
    assert s.expiry[0 := 1 + timeout] == map[0 := 1 + timeout];
  }

  /** An iteration with no job, up to the next poll. */
  lemma NextPoll(k: Conn, expires: int, timeout: nat)
    requires k.events == {IN, PRI, OUT}
    ensures EchoExec(Serves(k, Handling([]), expires), [Swapped, JobsEnd, Polled([Ready(0, {OUT})])], timeout)
            == Serving(Serves(k, Handling([Ready(0, {OUT})]), expires))
  {
    var es := [Swapped, JobsEnd, Polled([Ready(0, {OUT})])];
    EchoExecStep(Serves(k, Handling([]), expires), es, timeout, Serves(k, Running([]), expires));
    EchoExecStep(Serves(k, Running([]), expires), es[1..], timeout, Serves(k, Polling, expires));
    EchoExecStep(Serves(k, Polling, expires), es[1..][1..], timeout, Serves(k, Handling([Ready(0, {OUT})]), expires));
  }

  lemma Echoes(timeout: nat)
    ensures EchoExec(Serves(Fresh(), Polling, timeout), EchoingRun(), timeout)
            == Serving(Serves(HalfEchoed(), Handling([Ready(0, {OUT})]), 1 + timeout))
  {
    var es := EchoingRun();
    var s1 := Serves(Fresh(), Handling([Ready(0, {IN})]), timeout);
    EchoesHalf(timeout);
    EchoExecStep(Serves(Fresh(), Polling, timeout), es, timeout, s1);
    EchoExecStep(s1, es[1..], timeout, Serves(HalfEchoed(), Handling([]), 1 + timeout));
    assert es[1..][1..] == [Swapped, JobsEnd, Polled([Ready(0, {OUT})])];
    NextPoll(HalfEchoed(), 1 + timeout, timeout);
  }

  lemma HalfEchoedReached(timeout: nat)
    ensures var s := Serves(HalfEchoed(), Handling([Ready(0, {OUT})]), 1 + timeout);
            EchoExec(START, OpeningRun() + EchoingRun(), timeout) == Serving(s) && EchoReachable(s, timeout)
  {
    Opens(timeout);
    Echoes(timeout);
    EchoExecAppend(START, OpeningRun(), EchoingRun(), timeout);
  }

  /** The state of this run is calm, and its time-out risky: the theorems on risky time-outs apply to it. */
  lemma RiskyIsMet(timeout: nat)
    ensures var s := Serves(HalfEchoed(), Handling([Ready(0, {OUT})]), 1 + timeout);
            EchoReachable(s, timeout) && Calm(s.world) && Visits(s.expiry, 1 + timeout, [0]) && Risky(s, [0])
  {
    HalfEchoedReached(timeout);
    var s := Serves(HalfEchoed(), Handling([Ready(0, {OUT})]), 1 + timeout);
    assert s.world.Queue() == [];
    assert AboutToFlush(s.world, s.world.phase.active[0]);
  }

  /** A run of the echo server, from its start to a failed assert, with a kernel that does nothing unusual. */
  lemma EchoServerCrashes(timeout: nat)
    ensures EchoExec(START, OpeningRun() + EchoingRun() + CrashRun(1 + timeout, 0, 1), timeout)
            == Crashed(ReadWhenClosed)
  {
    HalfEchoedReached(timeout);
    EchoExecAppend(START, OpeningRun() + EchoingRun(), CrashRun(1 + timeout, 0, 1), timeout);
    HalfEchoedPends();
    var s := Serves(HalfEchoed(), Handling([Ready(0, {OUT})]), 1 + timeout);
    PendingTimeoutCrashes(s, HalfEchoed(), 0, 1 + timeout, timeout);
  }

  lemma HalfEchoedPends()
    ensures Pending(HalfEchoed())
  {
    assert Stream([Direct([65, 66])]) == [65, 66];
  }
}
