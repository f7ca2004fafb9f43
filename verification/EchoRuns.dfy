/** Every run of the echo server. */
module EchoRuns {
  import opened Common
  import opened Epoll
  import opened Connection
  import opened Reactor
  import opened ReactorProofs
  import opened ReactorRuns
  import opened ReactorTheorems
  import opened Echo
  import opened EchoServe

  predicate EchoJob(w: World, j: Job) {
    (j.WriteComplete? || j.HighWater? || j.ForceClose?) && j.conn in w.conns
  }

  /** All connections are served as echo connections, and no other job or thread is about. */
  ghost predicate EchoOk(w: World) {
    && w.submitting == map[]
    && (forall i :: 0 <= i < |w.Queue()| ==> EchoJob(w, w.Queue()[i]))
    && forall c :: c in w.conns ==> EchoConn(w.conns[c], c, w.Queue())
  }

  /** What a handler, a call or a job of the echo server does to one connection and the queue. */
  lemma EffectEchoes(w: World, c: nat, e: Effect, v: World)
    requires EchoOk(w) && c in w.conns && e.Effect? && Matches(w, c, e, Ok(v))
    requires OwnJobs(c, e.jobs) && EchoConn(e.conn, c, w.Queue() + e.jobs)
    ensures EchoOk(v) && v.Queue() == w.Queue() + e.jobs
  {
    assert v.Queue() == w.Queue() + e.jobs;
    forall d | d in v.conns
      ensures EchoConn(v.conns[d], d, v.Queue())
    {
      if d != c {
        MoreJobs(w.conns[d], d, w.Queue(), e.jobs);
      }
    }
    forall i | 0 <= i < |v.Queue()|
      ensures EchoJob(v, v.Queue()[i])
    {
      if i < |w.Queue()| {
        assert EchoJob(w, w.Queue()[i]);
      }
    }
  }

  lemma InputEchoes(k: Conn, c: nat, queue: seq<Job>, revents: Mask, read: Buffers.ReadResult, wr: WriteResult)
    requires Sound(k) && EchoConn(k, c, queue) && !Fatal(k, revents)
    ensures var e := CloseOrRead(k, c, revents, read, wr);
            && e.Effect? && EchoConn(e.conn, c, queue + e.jobs) && OwnJobs(c, e.jobs) && ForceClose(c) !in e.jobs
            && (e.conn.Alive() ==> e.conn.state == k.state)
            && (!e.conn.Alive() ==> e.jobs == [] && (k.Alive() ==> e.conn.events == {}))
            && (e.jobs != [] ==> k.state == Connected)
  {
    assert queue + [] == queue;
    if k.Alive() {
      CloseEchoes(k, c, queue);
      if read.Got? {
        MessageEchoes(k, c, queue, read.data, wr);
      }
    }
  }

  lemma CloseEchoes(k: Conn, c: nat, queue: seq<Job>)
    requires Sound(k) && k.Alive() && EchoConn(k, c, queue)
    ensures Close(k).Effect? && EchoConn(Close(k).conn, c, queue) && Close(k).jobs == []
    ensures !Close(k).conn.Alive() && Close(k).conn.events == {}
  {
  }

  /** One handleEvents on its connection: what it pushes, and that the connection goes on echoing. */
  lemma ServedEchoes(k: Conn, c: nat, queue: seq<Job>, revents: Mask, read: Buffers.ReadResult,
                     echoWrite: WriteResult, flushWrite: WriteResult)
    requires Sound(k) && EchoConn(k, c, queue) && !Fatal(k, revents) && (OUT in revents ==> k.Writing() || !k.Alive())
    ensures var e := Served(k, c, revents, read, echoWrite, flushWrite);
            && e.Effect? && EchoConn(e.conn, c, queue + e.jobs) && OwnJobs(c, e.jobs) && ForceClose(c) !in e.jobs
            && (e.conn.Alive() ==> e.conn.state == k.state)
            && (!e.conn.Alive() ==> e.jobs == [] && (k.Alive() ==> e.conn.events == {}))
            && (e.jobs != [] ==> k.state == Connected || OUT in revents)
  {
    InputSound(k, c, revents, read, echoWrite);
    InputEchoes(k, c, queue, revents, read, echoWrite);
    var e := CloseOrRead(k, c, revents, read, echoWrite);
    if OUT in revents {
      FlushEchoes(e.conn, c, queue + e.jobs, flushWrite);
      assert queue + e.jobs + Flush(e.conn, c, flushWrite).jobs == queue + (e.jobs + Flush(e.conn, c, flushWrite).jobs);
    }
  }

  // ---------- timeouts ----------

  lemma CloseSoonEchoes(w: World, c: nat)
    requires EchoOk(w)
    ensures var o := DoCall(w, CloseSoon(c));
            && o.Ok? && EchoOk(o.world) && o.world.conns.Keys == w.conns.Keys && o.world.phase == w.phase
            && (c in w.conns ==> o.world.conns[c].state != Connected)
            && (forall d :: d in w.conns && w.conns[d].state != Connected ==> o.world.conns[d].state != Connected)
            && forall d :: WriteComplete(d) in o.world.Queue() ==> WriteComplete(d) in w.Queue()
  {
    if c in w.conns {
      ClosingEchoes(w.conns[c], c, w.Queue());
      EffectEchoes(w, c, RequestClose(w.conns[c], c), DoCall(w, CloseSoon(c)).world);
    }
  }

  lemma {:induction false} CloseAllEchoes(w: World, order: seq<nat>)
    requires EchoOk(w)
    ensures var o := RunScript(w, CloseAll(order));
            && o.Ok? && EchoOk(o.world) && o.world.conns.Keys == w.conns.Keys && o.world.phase == w.phase
            && (forall d :: d in w.conns && (d in order || w.conns[d].state != Connected) ==>
                  o.world.conns[d].state != Connected)
            && forall d :: WriteComplete(d) in o.world.Queue() ==> WriteComplete(d) in w.Queue()
    decreases |order|
  {
    if order != [] {
      CloseSoonEchoes(w, order[0]);
      var v := DoCall(w, CloseSoon(order[0])).world;
      CloseAllEchoes(v, order[1..]);
      assert CloseAll(order)[1..] == CloseAll(order[1..]);
      assert forall d :: d in order <==> d == order[0] || d in order[1..];
    }
  }

  // ---------- steps ----------

  lemma SameQueueEchoes(w: World, v: World)
    requires EchoOk(w) && v.conns == w.conns && v.Queue() == w.Queue() && v.submitting == w.submitting
    ensures EchoOk(v)
  {
    assert forall i :: 0 <= i < |v.Queue()| ==> EchoJob(w, w.Queue()[i]);
  }

  /** A new connection, as onConnection leaves it. */
  function Fresh(): Conn {
    Established(true).(highWater := Some(MARK))
  }

  lemma ConnectStep(w: World, c: nat)
    requires c !in w.conns
    ensures RunScript(Accepted(w, c, true), [MarkHighWater(c, MARK)])
            == Ok(w.(conns := w.conns[c := Fresh()], server := w.server + {c}))
  {
    var u := Accepted(w, c, true);
    OneCall(u, MarkHighWater(c, MARK));
    assert u.conns[c := Fresh()] == w.conns[c := Fresh()];
    assert u.pending + [] == u.pending && u.pushed + [] == u.pushed;
  }

  lemma NewJobless(w: World, c: nat)
    requires EchoOk(w) && c !in w.conns
    ensures forall i :: 0 <= i < |w.Queue()| ==> !Concerns(w.Queue()[i], c)
  {
    assert forall i :: 0 <= i < |w.Queue()| ==> EchoJob(w, w.Queue()[i]);
  }

  lemma ConnectEchoes(w: World, c: nat)
    requires EchoOk(w) && c !in w.conns
    ensures var o := RunScript(Accepted(w, c, true), [MarkHighWater(c, MARK)]);
            && o.Ok? && EchoOk(o.world) && o.world.phase == w.phase && o.world.Queue() == w.Queue()
            && o.world.conns == w.conns[c := Fresh()]
  {
    ConnectStep(w, c);
    NewJobless(w, c);
    FreshEchoes(c, w.Queue());
    ConnectedEchoes(w, w.(conns := w.conns[c := Fresh()], server := w.server + {c}), c);
  }

  lemma FreshEchoes(c: nat, queue: seq<Job>)
    requires forall i :: 0 <= i < |queue| ==> !Concerns(queue[i], c)
    ensures EchoConn(Fresh(), c, queue)
  {
    ReadsAfterOthers(true, c, queue);
  }

  lemma ConnectedEchoes(w: World, v: World, c: nat)
    requires EchoOk(w) && c !in w.conns && EchoConn(Fresh(), c, w.Queue())
    requires v == w.(conns := w.conns[c := Fresh()], server := v.server)
    ensures EchoOk(v) && v.Queue() == w.Queue()
  {
    assert v.Queue() == w.Queue();
    forall i | 0 <= i < |v.Queue()|
      ensures EchoJob(v, v.Queue()[i])
    {
      assert EchoJob(w, w.Queue()[i]);
    }
  }

  /** Every job of the queue, run with the echo server's callbacks, from a world in which it is popped. */
  lemma JobStep(u: World, c: nat, j: Job)
    requires c in u.conns && (j.WriteComplete? || j.HighWater?) && j.conn == c
    ensures RunScript(u, OnJob(u, j))
            == Ok(u.(conns := u.conns[c := if j.WriteComplete? then StartRead(u.conns[c]) else StopRead(u.conns[c])]))
  {
    assert u.pending + [] == u.pending && u.pushed + [] == u.pushed;
    OneCall(u, ResumeRead(c));
    OneCall(u, PauseRead(c));
    assert u.conns[c := u.conns[c]] == u.conns;
  }

  lemma PoppedEchoes(w: World)
    requires AllSound(w) && EchoOk(w) && HasJob(w)
    ensures var j, rest := w.phase.batch[0], Popped(w).Queue();
            && EchoJob(w, j) && w.Queue() == [j] + rest
            && (forall i :: 0 <= i < |rest| ==> EchoJob(w, rest[i]))
            && forall d :: d in w.conns ==>
                 EchoConn(if d == j.conn then AfterJob(w.conns[d], j) else w.conns[d], d, rest)
  {
    var j, rest := w.phase.batch[0], Popped(w).Queue();
    assert w.Queue() == [j] + rest;
    assert forall i :: 0 <= i < |rest| ==> rest[i] == w.Queue()[i + 1] && EchoJob(w, w.Queue()[i + 1]);
    assert w.Queue()[0] == j && EchoJob(w, j);
    forall d | d in w.conns
      ensures EchoConn(if d == j.conn then AfterJob(w.conns[d], j) else w.conns[d], d, rest)
    {
      JobEchoes(w.conns[d], d, j, rest);
    }
  }

  /** The next job runs with the echo server's callbacks. */
  function JobEnv(w: World): Env
    requires HasJob(w)
  {
    Env(Buffers.Failed(0), WouldBlock, OnJob(w, w.phase.batch[0]), [])
  }

  lemma JobResult(w: World, env: Env)
    requires Basic(w) && EchoOk(w) && HasJob(w) && env.onMessage == OnJob(w, w.phase.batch[0]) && env.onClose == []
    ensures var j := w.phase.batch[0]; EchoJob(w, j)
    ensures var j, c, u := w.phase.batch[0], w.phase.batch[0].conn, Popped(w);
            && Step(w, RunNext(env)).Ok?
            && var v := Step(w, RunNext(env)).world;
               v == u.(conns := u.conns[c := AfterJob(u.conns[c], j)], server := v.server)
  {
    var j, u := w.phase.batch[0], Popped(w);
    PoppedEchoes(w);
    var c := j.conn;
    assert u.conns[c := u.conns[c]] == u.conns;
    if j.ForceClose? {
      CallsSound(u.conns[c], c);
      if u.conns[c].Alive() {
        ClosedProceeds(u, c);
        assert Step(w, RunNext(env))
               == Ok(u.(conns := u.conns[c := AfterJob(u.conns[c], j)], server := u.server - {c}));
      } else {
        assert Step(w, RunNext(env)) == Ok(u.(conns := u.conns[c := AfterJob(u.conns[c], j)], server := u.server));
      }
    } else {
      assert OnJob(w, j) == OnJob(u, j);
      JobStep(u, c, j);
      assert Step(w, RunNext(env)) == Ok(u.(conns := u.conns[c := AfterJob(u.conns[c], j)], server := u.server));
    }
  }

  lemma RunNextEchoes(w: World, env: Env)
    requires Basic(w) && EchoOk(w) && HasJob(w) && env.onMessage == OnJob(w, w.phase.batch[0]) && env.onClose == []
    ensures Step(w, RunNext(env)).Ok? && EchoOk(Step(w, RunNext(env)).world)
  {
    var j, u := w.phase.batch[0], Popped(w);
    PoppedEchoes(w);
    JobResult(w, env);
    assert Step(w, RunNext(env)).world.Queue() == u.Queue();
  }

  // ---------- the invariant of every run ----------

  /** Jobs are queued while channels are handled, and a connection's write-complete job by its own handler. */
  ghost predicate Punctual(w: World) {
    && (!w.phase.Handling? ==> w.pending == [])
    && (w.phase.Handling? ==>
          forall i :: 0 <= i < |w.phase.active| ==> WriteComplete(w.phase.active[i].conn) !in w.Queue())
  }

  /** Every connected connection is in the timeout map. */
  ghost predicate Watched(s: EchoState) {
    forall c :: c in s.world.conns && s.world.conns[c].state == Connected ==> c in s.expiry
  }

  ghost predicate EchoInv(s: EchoState) {
    Inv(s.world) && EchoOk(s.world) && Punctual(s.world) && Watched(s)
  }

  /** What handling the next active channel does, when it is not fatal. */
  function NextServed(w: World, read: Buffers.ReadResult, echoWrite: WriteResult, flushWrite: WriteResult): Effect
    requires HasNext(w)
  {
    var r := w.phase.active[0];
    Served(w.conns[r.conn], r.conn, r.revents, read, echoWrite, flushWrite)
  }

  function HandleEnv(w: World, read: Buffers.ReadResult, echoWrite: WriteResult, flushWrite: WriteResult): Env
    requires HasNext(w)
  {
    Env(read, flushWrite, OnMessage(w.phase.active[0].conn, echoWrite), [])
  }

  lemma HandleServes(w: World, read: Buffers.ReadResult, echoWrite: WriteResult, flushWrite: WriteResult)
    requires Basic(w) && ActiveAgrees(w) && HasNext(w)
    ensures var r, o := w.phase.active[0], Step(w, Handle(HandleEnv(w, read, echoWrite, flushWrite)));
            && Matches(Taken(w), r.conn, NextServed(w, read, echoWrite, flushWrite), o)
            && (o.Aborted? <==> Fatal(w.conns[r.conn], r.revents))
            && Sound(w.conns[r.conn]) && (OUT in r.revents ==> w.conns[r.conn].Writing() || w.Dead(r.conn))
  {
    var r := w.phase.active[0];
    SameConnsBasic(w, Taken(w));
    assert Sound(w.conns[r.conn]);
    ServedSound(w.conns[r.conn], r.conn, r.revents, read, echoWrite, flushWrite);
    DispatchServes(Taken(w), r.conn, r.revents, HandleEnv(w, read, echoWrite, flushWrite), echoWrite);
  }

  lemma HandleEchoes(w: World, read: Buffers.ReadResult, echoWrite: WriteResult, flushWrite: WriteResult)
    requires Basic(w) && ActiveAgrees(w) && EchoOk(w) && HasNext(w)
    requires !Fatal(w.conns[w.phase.active[0].conn], w.phase.active[0].revents)
    ensures var e := NextServed(w, read, echoWrite, flushWrite);
            var o := Step(w, Handle(HandleEnv(w, read, echoWrite, flushWrite)));
            && e.Effect? && o.Ok? && EchoOk(o.world) && OwnJobs(w.phase.active[0].conn, e.jobs)
            && o.world.Queue() == w.Queue() + e.jobs
            && o.world.phase == Handling(w.phase.active[1..])
  {
    var r, u := w.phase.active[0], Taken(w);
    SameQueueEchoes(w, u);
    assert EchoConn(w.conns[r.conn], r.conn, u.Queue());
    HandleServes(w, read, echoWrite, flushWrite);
    ServedEchoes(w.conns[r.conn], r.conn, u.Queue(), r.revents, read, echoWrite, flushWrite);
    EffectEchoes(u, r.conn, NextServed(w, read, echoWrite, flushWrite),
                 Step(w, Handle(HandleEnv(w, read, echoWrite, flushWrite))).world);
  }

  lemma PunctualAfter(w: World, v: World, jobs: seq<Job>)
    requires ActiveAgrees(w) && HasNext(w) && Punctual(w) && OwnJobs(w.phase.active[0].conn, jobs)
    requires v.phase == Handling(w.phase.active[1..]) && v.Queue() == w.Queue() + jobs
    ensures Punctual(v)
  {
    forall i | 0 <= i < |v.phase.active|
      ensures WriteComplete(v.phase.active[i].conn) !in v.Queue()
    {
      assert v.phase.active[i] == w.phase.active[i + 1];
    }
  }

  lemma HandledPunctual(w: World, read: Buffers.ReadResult, echoWrite: WriteResult, flushWrite: WriteResult)
    requires Basic(w) && ActiveAgrees(w) && EchoOk(w) && Punctual(w) && HasNext(w)
    ensures var o := Step(w, Handle(HandleEnv(w, read, echoWrite, flushWrite))); o.Ok? ==> Punctual(o.world)
  {
    HandleServes(w, read, echoWrite, flushWrite);
    var o := Step(w, Handle(HandleEnv(w, read, echoWrite, flushWrite)));
    if o.Ok? {
      HandleEchoes(w, read, echoWrite, flushWrite);
      PunctualAfter(w, o.world, NextServed(w, read, echoWrite, flushWrite).jobs);
    }
  }

  lemma StepPunctual(s: EchoState, e: EchoEvent)
    requires Inv(s.world) && EchoOk(s.world) && Punctual(s.world) && Step(s.world, Lower(s, e)).Ok?
    ensures Punctual(Step(s.world, Lower(s, e)).world)
  {
    var w := s.world;
    match e {
      case Handled(_, read, echoWrite, flushWrite) =>
        if HasNext(w) { HandledPunctual(w, read, echoWrite, flushWrite); }
      case Connects(_, c) =>
        if w.phase.Handling? && c !in w.conns { ConnectEchoes(w, c); }
      case Timeout(now, order) => CloseAllEchoes(w, order);
      case JobRuns(_) =>
        if HasJob(w) { JobResult(w, JobEnv(w)); }
      case _ =>
    }
  }

  lemma StepEchoOk(s: EchoState, e: EchoEvent)
    requires Inv(s.world) && EchoOk(s.world) && Step(s.world, Lower(s, e)).Ok?
    ensures EchoOk(Step(s.world, Lower(s, e)).world)
  {
    var w := s.world;
    match e {
      case Handled(_, read, echoWrite, flushWrite) =>
        if HasNext(w) {
          HandleServes(w, read, echoWrite, flushWrite);
          HandleEchoes(w, read, echoWrite, flushWrite);
        }
      case Connects(_, c) => if c !in w.conns { ConnectEchoes(w, c); }
      case Timeout(now, order) => CloseAllEchoes(w, order);
      case JobRuns(_) =>
        if HasJob(w) { RunNextEchoes(w, JobEnv(w)); }
      case _ => PlaceEchoes(s, e);
    }
  }

  lemma PlaceEchoes(s: EchoState, e: EchoEvent)
    requires EchoOk(s.world) && (e.Polled? || e.Swapped? || e.JobsEnd?)
    ensures Step(s.world, Lower(s, e)).Ok? && EchoOk(Step(s.world, Lower(s, e)).world)
  {
    var v := Step(s.world, Lower(s, e)).world;
    assert v.Queue() == s.world.Queue();
    SameQueueEchoes(s.world, v);
  }

  /** Only closing, and a visit of onTimeout, takes a connection out of the map. */
  lemma ExpiryKeeps(s: EchoState, e: EchoEvent, v: World, timeout: nat, c: nat)
    requires c in s.expiry
    ensures c in Expiry(s, e, v, timeout) || v.Dead(c)
            || (e.Timeout? && s.world.phase.Handling? && Visits(s.expiry, e.now, e.order) && c in e.order)
  {
  }

  lemma TimeoutDisconnects(s: EchoState, now: int, order: seq<nat>, c: nat)
    requires EchoOk(s.world) && s.world.phase.Handling? && Visits(s.expiry, now, order)
    requires c in order && c in s.world.conns
    ensures var o := Step(s.world, Lower(s, Timeout(now, order)));
            o.Ok? && c in o.world.conns && o.world.conns[c].state != Connected
  {
    CloseAllEchoes(s.world, order);
  }

  lemma StepWatched(s: EchoState, e: EchoEvent, timeout: nat)
    requires EchoInv(s) && EchoStep(s, e, timeout).Serving?
    ensures Watched(EchoStep(s, e, timeout).state)
  {
    var w, t := s.world, EchoStep(s, e, timeout).state;
    forall c | c in t.world.conns && t.world.conns[c].state == Connected
      ensures c in t.expiry
    {
      if c in w.conns {
        StepGrows(w, Lower(s, e), c);
        assert c in s.expiry;
        ExpiryKeeps(s, e, t.world, timeout, c);
        if e.Timeout? && w.phase.Handling? && Visits(s.expiry, e.now, e.order) && c in e.order {
          TimeoutDisconnects(s, e.now, e.order, c);
        }
      } else {
        NewConnection(s, e, c);
      }
    }
  }

  lemma NewConnection(s: EchoState, e: EchoEvent, c: nat)
    requires Inv(s.world) && EchoOk(s.world) && c !in s.world.conns
    requires Step(s.world, Lower(s, e)).Ok? && c in Step(s.world, Lower(s, e)).world.conns
    ensures e.Connects? && e.conn == c && s.world.phase.Handling?
  {
    var w := s.world;
    StepProceedsUnlessSend(s, e);
    match e {
      case Connects(_, d) => if w.phase.Handling? && d !in w.conns { ConnectStep(w, d); }
      case _ =>
    }
  }

  lemma StepProceedsUnlessSend(s: EchoState, e: EchoEvent)
    requires Inv(s.world) && EchoOk(s.world) && Step(s.world, Lower(s, e)).Ok?
    ensures Proceeds(Prepared(s.world, Lower(s, e)), Step(s.world, Lower(s, e)).world)
  {
    if HasJob(s.world) {
      PoppedEchoes(s.world);
    }
    StepProceeds(s.world, Lower(s, e));
  }

  lemma EchoStepKeeps(s: EchoState, e: EchoEvent, timeout: nat)
    requires EchoInv(s) && EchoStep(s, e, timeout).Serving?
    ensures EchoInv(EchoStep(s, e, timeout).state)
  {
    StepKeeps(s.world, Lower(s, e));
    StepEchoOk(s, e);
    StepPunctual(s, e);
    StepWatched(s, e, timeout);
  }

  lemma {:induction false} EchoExecKeeps(s: EchoState, es: seq<EchoEvent>, timeout: nat)
    requires EchoInv(s) && EchoExec(s, es, timeout).Serving?
    ensures EchoInv(EchoExec(s, es, timeout).state)
    decreases |es|
  {
    if es != [] {
      EchoStepKeeps(s, es[0], timeout);
      EchoExecKeeps(EchoStep(s, es[0], timeout).state, es[1..], timeout);
    }
  }

  /** s is what some run of the echo server leaves. */
  ghost predicate EchoReachable(s: EchoState, timeout: nat) {
    exists es :: EchoExec(START, es, timeout) == Serving(s)
  }

  lemma EchoReachableInv(s: EchoState, timeout: nat)
    requires EchoReachable(s, timeout)
    ensures EchoInv(s)
  {
    var es :| EchoExec(START, es, timeout) == Serving(s);
    InitialInv();
    EchoExecKeeps(START, es, timeout);
  }

  lemma {:induction false} EchoExecAppend(s: EchoState, es: seq<EchoEvent>, fs: seq<EchoEvent>, timeout: nat)
    requires EchoExec(s, es, timeout).Serving?
    ensures EchoExec(s, es + fs, timeout) == EchoExec(EchoExec(s, es, timeout).state, fs, timeout)
    decreases |es|
  {
    if es == [] {
      assert es + fs == fs;
    } else {
      EchoExecAppend(EchoStep(s, es[0], timeout).state, es[1..], fs, timeout);
      assert (es + fs)[1..] == es[1..] + fs;
    }
  }

  lemma EchoReachableNext(s: EchoState, e: EchoEvent, t: EchoState, timeout: nat)
    requires EchoReachable(s, timeout) && EchoStep(s, e, timeout) == Serving(t)
    ensures EchoReachable(t, timeout)
  {
    var es :| EchoExec(START, es, timeout) == Serving(s);
    EchoExecAppend(START, es, [e], timeout);
    assert EchoExec(s, [e], timeout) == EchoExec(t, [], timeout);
  }

  // ---------- theorems ----------

  /**
   * Backpressure, exactly: counting the jobs already queued, an open connection with nothing to write will be
   * reading, and one with output at or above the high-water mark will not.
   */
  lemma Backpressure(s: EchoState, timeout: nat, c: nat)
    requires EchoReachable(s, timeout) && c in s.world.conns && s.world.conns[c].Alive()
    ensures var k := s.world.conns[c]; var will := ReadsAfter(IN in k.events, c, s.world.Queue());
            (k.output == [] ==> will) && (|k.output| >= MARK ==> !will)
  {
    EchoReachableInv(s, timeout);
    assert EchoConn(s.world.conns[c], c, s.world.Queue());
  }

  /** It never stalls: when reading is off, output is pending or a WriteComplete job is queued. */
  lemma BackpressureNeverStalls(s: EchoState, timeout: nat, c: nat)
    requires EchoReachable(s, timeout) && c in s.world.conns && s.world.conns[c].Alive()
    requires IN !in s.world.conns[c].events
    ensures s.world.conns[c].output != [] || WriteComplete(c) in s.world.Queue()
  {
    Backpressure(s, timeout, c);
    ReadsAfterWhy(false, c, s.world.Queue());
  }

  /** It never fails to engage: from the mark on reading is off, or a HighWater job is queued. */
  lemma BackpressureEngages(s: EchoState, timeout: nat, c: nat)
    requires EchoReachable(s, timeout) && c in s.world.conns && s.world.conns[c].Alive()
    requires |s.world.conns[c].output| >= MARK
    ensures IN !in s.world.conns[c].events || exists size :: HighWater(c, size) in s.world.Queue()
  {
    Backpressure(s, timeout, c);
    ReadsAfterWhy(IN in s.world.conns[c].events, c, s.world.Queue());
  }

  /** An open connection with nothing to write and no job queued is reading. */
  lemma IdleReads(s: EchoState, timeout: nat, c: nat)
    requires EchoReachable(s, timeout) && c in s.world.conns && s.world.conns[c].Alive()
    requires s.world.Queue() == [] && s.world.conns[c].output == []
    ensures IN in s.world.conns[c].events
  {
    Backpressure(s, timeout, c);
  }

  /**
   * Everything read is on the wire, in the output buffer or in the input buffer, in order, if and only if no write
   * lost bytes.
   */
  lemma EchoConservation(s: EchoState, timeout: nat, c: nat)
    requires EchoReachable(s, timeout) && c in s.world.conns
    ensures var k := s.world.conns[c]; k.log.got == k.log.wire + k.output + k.input <==> k.log.lost == 0
  {
    EchoReachableInv(s, timeout);
    assert EchoConn(s.world.conns[c], c, s.world.Queue());
  }

  /** No open connection escapes the timeout: it is in the map, or its ForceClose job is queued. */
  lemma EveryConnectionWatched(s: EchoState, timeout: nat, c: nat)
    requires EchoReachable(s, timeout) && c in s.world.conns && s.world.conns[c].Alive()
    ensures c in s.expiry || ForceClose(c) in s.world.Queue()
  {
    EchoReachableInv(s, timeout);
    assert EchoConn(s.world.conns[c], c, s.world.Queue());
  }

  lemma ClosedSoon(w: World, order: seq<nat>, c: nat)
    requires AllSound(w) && EchoOk(w) && c in order && c in w.conns && w.conns[c].Alive()
    ensures var o := RunScript(w, CloseAll(order)); o.Ok? && ForceClose(c) in o.world.Queue()
  {
    CloseAllEchoes(w, order);
    ScriptEvolves(w, CloseAll(order));
    var v := RunScript(w, CloseAll(order)).world;
    assert ConnEvolves(w.conns[c], v.conns[c]);
    assert EchoConn(v.conns[c], c, v.Queue());
  }

  /** onTimeout asks for the closing of every open connection whose time has come, and forgets it. */
  lemma TimeoutCloses(s: EchoState, timeout: nat, now: int, order: seq<nat>, c: nat)
    requires EchoReachable(s, timeout) && s.world.phase.Handling? && Visits(s.expiry, now, order)
    requires c in s.world.conns && s.world.conns[c].Alive() && c in s.expiry && s.expiry[c] <= now
    ensures var o := EchoStep(s, Timeout(now, order), timeout);
            o.Serving? && ForceClose(c) in o.state.world.Queue() && c !in o.state.expiry
  {
    EchoReachableInv(s, timeout);
    ClosedSoon(s.world, order, c);
  }
}
