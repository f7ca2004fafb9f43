/** When the echo server fails an assert of the library, and when it does not: exactly. */
module EchoLimits {
  import opened Epoll
  import opened Connection
  import opened Reactor
  import opened ReactorProofs
  import opened ReactorRuns
  import opened Echo
  import opened EchoServe
  import opened EchoRuns

  // ---------- one step ----------

  lemma NeverMisuses(w: World, s: EchoState, e: EchoEvent)
    ensures var lowered := Lower(s, e);
            && (lowered.Handle? || lowered.RunNext? ==> !Misuses(w, lowered.env.onMessage) && lowered.env.onClose == [])
            && (lowered.Accept? || lowered.OtherHandler? ==> !Misuses(w, lowered.script))
  {
  }

  /** A step of the echo server fails an assert exactly when it handles an event that is fatal to its connection. */
  lemma CrashesExactly(s: EchoState, e: EchoEvent, timeout: nat)
    requires EchoReachable(s, timeout)
    ensures EchoStep(s, e, timeout).Crashed? <==>
              && e.Handled? && HasNext(s.world)
              && Fatal(s.world.conns[s.world.phase.active[0].conn], s.world.phase.active[0].revents)
  {
    EchoReachableInv(s, timeout);
    StepKeeps(s.world, Lower(s, e));
    NeverMisuses(s.world, s, e);
    if e.Handled? && HasNext(s.world) {
      HandleServes(s.world, e.read, e.echoWrite, e.flushWrite);
    }
    if e.JobRuns? && HasJob(s.world) {
      NeverMisuses(Popped(s.world), s, e);
    }
  }

  /** A WriteComplete job that runs after its connection was closed registers the closed connection for reading. */
  lemma WriteCompleteAfterClose(s: EchoState, timeout: nat, now: int, c: nat)
    requires EchoReachable(s, timeout) && HasJob(s.world) && s.world.phase.batch[0] == WriteComplete(c)
    requires s.world.Dead(c) && s.world.conns[c].events == {}
    ensures var o := EchoStep(s, JobRuns(now), timeout);
            o.Serving? && o.state.world.Dead(c) && o.state.world.conns[c].events == {IN, PRI}
  {
    EchoReachableInv(s, timeout);
    JobResult(s.world, Env(Buffers.Failed(0), WouldBlock, OnJob(s.world, WriteComplete(c)), []));
  }

  // ---------- what the queued jobs will do to a connection ----------

  /** The connection once the queued jobs have run. */
  function AfterJobs(k: Conn, c: nat, queue: seq<Job>): Conn
    decreases |queue|
  {
    if queue == [] then k else AfterJobs(if Concerns(queue[0], c) then AfterJob(k, queue[0]) else k, c, queue[1..])
  }

  /** Closed, and registered all the same. */
  predicate Revived(k: Conn) {
    !k.Alive() && k.events != {}
  }

  lemma {:induction false} AfterMoreJobs(k: Conn, c: nat, queue: seq<Job>, more: seq<Job>)
    ensures AfterJobs(k, c, queue + more) == AfterJobs(AfterJobs(k, c, queue), c, more)
    decreases |queue|
  {
    if queue == [] {
      assert queue + more == more;
    } else {
      AfterMoreJobs(if Concerns(queue[0], c) then AfterJob(k, queue[0]) else k, c, queue[1..], more);
      assert (queue + more)[1..] == queue[1..] + more;
    }
  }

  lemma AfterOneMore(k: Conn, c: nat, queue: seq<Job>, j: Job)
    requires Concerns(j, c)
    ensures AfterJobs(k, c, queue + [j]) == AfterJob(AfterJobs(k, c, queue), j)
  {
    AfterMoreJobs(k, c, queue, [j]);
    assert [j][1..] == [];
  }

  lemma {:induction false} AfterOthers(k: Conn, c: nat, queue: seq<Job>)
    requires forall i :: 0 <= i < |queue| ==> !Concerns(queue[i], c)
    ensures AfterJobs(k, c, queue) == k
    decreases |queue|
  {
    if queue != [] {
      AfterOthers(k, c, queue[1..]);
    }
  }

  /** Jobs leave a connection open exactly when none of them is its forced close. */
  lemma {:induction false} AfterJobsOpen(k: Conn, c: nat, queue: seq<Job>)
    requires k.state != Connecting && (k.Alive() ==> PRI in k.events)
    ensures var l := AfterJobs(k, c, queue);
            (l.Alive() <==> k.Alive() && ForceClose(c) !in queue) && (l.Alive() ==> PRI in l.events)
    decreases |queue|
  {
    if queue != [] {
      AfterJobsOpen(if Concerns(queue[0], c) then AfterJob(k, queue[0]) else k, c, queue[1..]);
      assert ForceClose(c) in queue <==> queue[0] == ForceClose(c) || ForceClose(c) in queue[1..];
    }
  }

  /** Without a write-complete job nothing is revived. */
  lemma {:induction false} NoneRevives(k: Conn, c: nat, queue: seq<Job>)
    requires WriteComplete(c) !in queue && !Revived(k) && k.state != Connecting && (k.Alive() ==> PRI in k.events)
    ensures !Revived(AfterJobs(k, c, queue))
    decreases |queue|
  {
    if queue != [] {
      assert queue[0] in queue && forall j :: j in queue[1..] ==> j in queue;
      NoneRevives(if Concerns(queue[0], c) then AfterJob(k, queue[0]) else k, c, queue[1..]);
    }
  }

  /** A write-complete job behind the forced close revives. */
  lemma LastRevives(k: Conn, c: nat, queue: seq<Job>)
    requires k.state != Connecting && (k.Alive() ==> PRI in k.events && ForceClose(c) in queue)
    ensures Revived(AfterJobs(k, c, queue + [WriteComplete(c)]))
  {
    AfterJobsOpen(k, c, queue);
    AfterOneMore(k, c, queue, WriteComplete(c));
  }

  // ---------- the states from which ordinary events alone cannot crash it ----------

  /** Handling r fails an assert, or may queue a write-complete job behind a forced close. */
  predicate Dooms(k: Conn, r: Ready) {
    Fatal(k, r.revents) || (k.state == Disconnecting && OUT in r.revents && !HangsUp(r.revents))
  }

  ghost predicate ConnsCalm(w: World) {
    forall c :: c in w.conns ==> !Revived(AfterJobs(w.conns[c], c, w.Queue()))
  }

  ghost predicate ActiveCalm(w: World) {
    w.phase.Handling? ==>
      forall i :: 0 <= i < |w.phase.active| && w.phase.active[i].conn in w.conns ==>
        !Dooms(w.conns[w.phase.active[i].conn], w.phase.active[i])
  }

  ghost predicate Calm(w: World) {
    ConnsCalm(w) && ActiveCalm(w)
  }

  lemma EffectCalm(w: World, c: nat, e: Effect, v: World)
    requires ConnsCalm(w) && c in w.conns && e.Effect? && OwnJobs(c, e.jobs)
    requires v.conns == w.conns[c := e.conn] && v.Queue() == w.Queue() + e.jobs
    requires !Revived(AfterJobs(e.conn, c, v.Queue()))
    ensures ConnsCalm(v)
  {
    forall d | d in v.conns
      ensures !Revived(AfterJobs(v.conns[d], d, v.Queue()))
    {
      if d != c {
        AfterMoreJobs(w.conns[d], d, w.Queue(), e.jobs);
        AfterOthers(AfterJobs(w.conns[d], d, w.Queue()), d, e.jobs);
      }
    }
  }

  lemma ServedCalm(k: Conn, c: nat, queue: seq<Job>, r: Ready, read: Buffers.ReadResult,
                   echoWrite: WriteResult, flushWrite: WriteResult)
    requires Sound(k) && EchoConn(k, c, queue) && !Dooms(k, r) && (OUT in r.revents ==> k.Writing() || !k.Alive())
    requires WriteComplete(c) !in queue && !Revived(AfterJobs(k, c, queue))
    ensures var e := Served(k, c, r.revents, read, echoWrite, flushWrite);
            e.Effect? && !Revived(AfterJobs(e.conn, c, queue + e.jobs))
  {
    ServedEchoes(k, c, queue, r.revents, read, echoWrite, flushWrite);
    ServedSound(k, c, r.revents, read, echoWrite, flushWrite);
    var e := Served(k, c, r.revents, read, echoWrite, flushWrite);
    if e.conn.Alive() && k.state == Connected {
      AfterJobsOpen(e.conn, c, queue + e.jobs);
    } else if k.Alive() {
      assert e.jobs == [] && queue + e.jobs == queue;
      NoneRevives(e.conn, c, queue);
    } else {
      assert e == Effect(k, []) && queue + [] == queue;
    }
  }

  lemma HandleCalm(w: World, read: Buffers.ReadResult, echoWrite: WriteResult, flushWrite: WriteResult)
    requires Basic(w) && ActiveAgrees(w) && EchoOk(w) && Punctual(w) && Calm(w) && HasNext(w)
    ensures var o := Step(w, Handle(HandleEnv(w, read, echoWrite, flushWrite))); o.Ok? && Calm(o.world)
  {
    var r := w.phase.active[0];
    assert EchoConn(w.conns[r.conn], r.conn, w.Queue());
    HandleServes(w, read, echoWrite, flushWrite);
    HandleEchoes(w, read, echoWrite, flushWrite);
    ServedCalm(w.conns[r.conn], r.conn, w.Queue(), r, read, echoWrite, flushWrite);
    EffectCalm(w, r.conn, NextServed(w, read, echoWrite, flushWrite),
               Step(w, Handle(HandleEnv(w, read, echoWrite, flushWrite))).world);
    OthersCalm(w, Step(w, Handle(HandleEnv(w, read, echoWrite, flushWrite))).world);
  }

  /** The channels still to be handled are other connections'. */
  lemma OthersCalm(w: World, v: World)
    requires ActiveAgrees(w) && ActiveCalm(w) && HasNext(w) && v.phase == Handling(w.phase.active[1..])
    requires forall d :: d in w.conns && d != w.phase.active[0].conn ==> d in v.conns && v.conns[d] == w.conns[d]
    ensures ActiveCalm(v)
  {
    assert forall i :: 0 <= i < |v.phase.active| ==> v.phase.active[i] == w.phase.active[i + 1];
  }

  // ---------- time-outs ----------

  /** forceClose() of a connection, unless it is closed. */
  function Asked(k: Conn): Conn {
    if k.state == Disconnected then k else k.(state := Disconnecting)
  }

  lemma AskedCalm(k: Conn, c: nat, queue: seq<Job>)
    requires Sound(k) && EchoConn(k, c, queue) && !Revived(AfterJobs(k, c, queue))
    ensures !Revived(AfterJobs(RequestClose(k, c).conn, c, queue + RequestClose(k, c).jobs))
  {
    if k.Alive() {
      AfterOneMore(Asked(k), c, queue, ForceClose(c));
      AfterJobsOpen(Asked(k), c, queue);
    } else {
      assert queue + [] == queue;
    }
  }

  lemma CloseSoonStep(w: World, c: nat)
    requires c in w.conns
    ensures Matches(w, c, RequestClose(w.conns[c], c), DoCall(w, CloseSoon(c)))
    ensures RequestClose(w.conns[c], c).Effect? && RequestClose(w.conns[c], c).conn == Asked(w.conns[c])
    ensures OwnJobs(c, RequestClose(w.conns[c], c).jobs)
  {
  }

  lemma CloseSoonSound(w: World, c: nat)
    requires AllSound(w)
    ensures DoCall(w, CloseSoon(c)).Ok? && AllSound(DoCall(w, CloseSoon(c)).world)
  {
    DoCallEvolves(w, CloseSoon(c));
    EvolvesSound(w, DoCall(w, CloseSoon(c)).world);
  }

  lemma CloseSoonCalm(w: World, c: nat)
    requires c in w.conns ==> Sound(w.conns[c]) && EchoConn(w.conns[c], c, w.Queue())
    requires ConnsCalm(w)
    ensures var o := DoCall(w, CloseSoon(c)); o.Ok? && ConnsCalm(o.world)
  {
    if c in w.conns {
      var v := DoCall(w, CloseSoon(c)).world;
      CloseSoonStep(w, c);
      AskedCalm(w.conns[c], c, w.Queue());
      assert v.Queue() == w.Queue() + RequestClose(w.conns[c], c).jobs;
      EffectCalm(w, c, RequestClose(w.conns[c], c), v);
    }
  }

  lemma {:induction false} CloseAllCalm(w: World, order: seq<nat>)
    requires AllSound(w) && EchoOk(w) && ConnsCalm(w)
    ensures var o := RunScript(w, CloseAll(order)); o.Ok? && ConnsCalm(o.world)
    decreases |order|
  {
    if order != [] {
      CloseSoonEchoes(w, order[0]);
      CloseSoonSound(w, order[0]);
      CloseSoonCalm(w, order[0]);
      CloseAllCalm(DoCall(w, CloseSoon(order[0])).world, order[1..]);
      assert CloseAll(order)[1..] == CloseAll(order[1..]);
    }
  }

  /** What onTimeout does to the connections. */
  lemma {:induction false} CloseAllAsks(w: World, order: seq<nat>)
    ensures var o := RunScript(w, CloseAll(order));
            && o.Ok? && o.world.conns.Keys == w.conns.Keys && o.world.phase == w.phase
            && forall d :: d in w.conns ==> o.world.conns[d] == if d in order then Asked(w.conns[d]) else w.conns[d]
    decreases |order|
  {
    if order != [] {
      if order[0] in w.conns {
        CloseSoonStep(w, order[0]);
      }
      CloseAllAsks(DoCall(w, CloseSoon(order[0])).world, order[1..]);
      assert CloseAll(order)[1..] == CloseAll(order[1..]);
      assert forall d :: d in order <==> d == order[0] || d in order[1..];
    }
  }

  /** onTimeout visits an open connection of which the same iteration is still to handle that it is writable. */
  ghost predicate Risky(s: EchoState, order: seq<nat>) {
    && s.world.phase.Handling?
    && var a := s.world.phase.active;
       exists i :: 0 <= i < |a| && AboutToFlush(s.world, a[i]) && a[i].conn in order
  }

  predicate AboutToFlush(w: World, r: Ready) {
    r.conn in w.conns && w.conns[r.conn].Alive() && OUT in r.revents && !HangsUp(r.revents)
  }

  /** No hang-up that also reads, and no risky time-out. */
  ghost predicate Gentle(s: EchoState, e: EchoEvent) {
    match e
    case Polled(active) => forall i :: 0 <= i < |active| ==> !(HangsUp(active[i].revents) && Reads(active[i].revents))
    case Timeout(now, order) => Visits(s.expiry, now, order) ==> !Risky(s, order)
    case _ => true
  }

  lemma TimeoutCalm(s: EchoState, now: int, order: seq<nat>, timeout: nat)
    requires Basic(s.world) && EchoOk(s.world) && Calm(s.world) && Gentle(s, Timeout(now, order))
    ensures var o := EchoStep(s, Timeout(now, order), timeout); o.Serving? && Calm(o.state.world)
  {
    if s.world.phase.Handling? && Visits(s.expiry, now, order) {
      CloseAllCalm(s.world, order);
      CloseAllAsks(s.world, order);
      assert forall d :: d in s.world.conns ==> EchoConn(s.world.conns[d], d, s.world.Queue());
      AskedActive(s, RunScript(s.world, CloseAll(order)).world, order);
    }
  }

  lemma AskedActive(s: EchoState, v: World, order: seq<nat>)
    requires ActiveCalm(s.world) && s.world.phase.Handling? && !Risky(s, order)
    requires v.phase == s.world.phase && v.conns.Keys == s.world.conns.Keys
    requires forall d :: d in s.world.conns ==> s.world.conns[d].state != Connecting
    requires forall d :: d in v.conns ==> v.conns[d] == if d in order then Asked(s.world.conns[d]) else s.world.conns[d]
    ensures ActiveCalm(v)
  {
    forall i | 0 <= i < |v.phase.active| && v.phase.active[i].conn in v.conns
      ensures !Dooms(v.conns[v.phase.active[i].conn], v.phase.active[i])
    {
      assert AboutToFlush(s.world, s.world.phase.active[i]) ==> s.world.phase.active[i].conn !in order;
    }
  }

  /** After a risky time-out the connection is bound to be closed and about to be flushed. */
  lemma RiskyDooms(s: EchoState, now: int, order: seq<nat>, timeout: nat)
    requires Visits(s.expiry, now, order) && Risky(s, order)
    ensures var o := EchoStep(s, Timeout(now, order), timeout); o.Serving? && !Calm(o.state.world)
  {
    CloseAllAsks(s.world, order);
    var a := s.world.phase.active;
    var i :| 0 <= i < |a| && AboutToFlush(s.world, a[i]) && a[i].conn in order;
    var v := EchoStep(s, Timeout(now, order), timeout).state.world;
    assert Dooms(v.conns[v.phase.active[i].conn], v.phase.active[i]);
  }

  // ---------- the other steps ----------

  lemma JobsCalm(w: World)
    requires Basic(w) && EchoOk(w) && HasJob(w)
    ensures var o := Step(w, RunNext(JobEnv(w)));
            && o.Ok? && o.world.phase == Popped(w).phase && o.world.conns.Keys == w.conns.Keys
            && forall c :: c in w.conns ==>
                 AfterJobs(o.world.conns[c], c, o.world.Queue()) == AfterJobs(w.conns[c], c, w.Queue())
  {
    var j, u := w.phase.batch[0], Popped(w);
    JobResult(w, JobEnv(w));
    JobPopped(w, Step(w, RunNext(JobEnv(w))).world);
  }

  lemma JobPopped(w: World, v: World)
    requires HasJob(w) && EchoJob(w, w.phase.batch[0])
    requires var j, c, u := w.phase.batch[0], w.phase.batch[0].conn, Popped(w);
             v == u.(conns := u.conns[c := AfterJob(u.conns[c], j)], server := v.server)
    ensures forall c :: c in w.conns ==>
              AfterJobs(v.conns[c], c, v.Queue()) == AfterJobs(w.conns[c], c, w.Queue())
  {
    var j, u := w.phase.batch[0], Popped(w);
    assert v.Queue() == u.Queue();
    assert w.Queue() == [j] + u.Queue() && w.Queue()[0] == j && w.Queue()[1..] == u.Queue();
  }

  lemma PollCalm(w: World, active: seq<Ready>)
    requires AllSound(w) && EchoOk(w) && Punctual(w) && ConnsCalm(w) && w.phase.Polling? && Pollable(w, active)
    requires forall i :: 0 <= i < |active| ==> !(HangsUp(active[i].revents) && Reads(active[i].revents))
    ensures Calm(w.(phase := Handling(active)))
  {
    var v := w.(phase := Handling(active));
    assert v.Queue() == w.Queue() == [];
    forall i | 0 <= i < |active|
      ensures !Dooms(v.conns[active[i].conn], active[i])
    {
      var c := active[i].conn;
      assert EchoConn(w.conns[c], c, w.Queue()) && !Revived(AfterJobs(w.conns[c], c, w.Queue()));
    }
  }

  lemma SameCalm(w: World, v: World)
    requires ConnsCalm(w) && v.conns == w.conns && v.Queue() == w.Queue()
    ensures ConnsCalm(v)
  {
  }

  lemma ConnectCalm(w: World, c: nat)
    requires EchoOk(w) && Calm(w) && ActiveAgrees(w) && w.phase.Handling? && c !in w.conns
    ensures var o := RunScript(Accepted(w, c, true), [MarkHighWater(c, MARK)]); o.Ok? && Calm(o.world)
  {
    ConnectStep(w, c);
    NewJobless(w, c);
    AfterOthers(Fresh(), c, w.Queue());
  }

  lemma GentleStep(s: EchoState, e: EchoEvent, timeout: nat)
    requires EchoInv(s) && Calm(s.world) && Gentle(s, e)
    ensures EchoStep(s, e, timeout).Serving? && Calm(EchoStep(s, e, timeout).state.world)
  {
    var w := s.world;
    match e {
      case Polled(active) => if w.phase.Polling? && Pollable(w, active) { PollCalm(w, active); }
      case Handled(_, read, echoWrite, flushWrite) => if HasNext(w) { HandleCalm(w, read, echoWrite, flushWrite); }
      case Connects(_, c) => if w.phase.Handling? && c !in w.conns { ConnectCalm(w, c); }
      case Timeout(now, order) => TimeoutCalm(s, now, order, timeout);
      case JobRuns(_) => if HasJob(w) { JobsCalm(w); }
      case _ => PlaceCalm(s, e, timeout);
    }
  }

  lemma PlaceCalm(s: EchoState, e: EchoEvent, timeout: nat)
    requires Calm(s.world) && (e.Swapped? || e.JobsEnd?)
    ensures EchoStep(s, e, timeout).Serving? && Calm(EchoStep(s, e, timeout).state.world)
  {
    var v := EchoStep(s, e, timeout).state.world;
    assert v.Queue() == s.world.Queue();
    SameCalm(s.world, v);
  }

  ghost predicate GentleRun(s: EchoState, es: seq<EchoEvent>, timeout: nat)
    decreases |es|
  {
    es != [] ==>
      var o := EchoStep(s, es[0], timeout);
      Gentle(s, es[0]) && (o.Serving? ==> GentleRun(o.state, es[1..], timeout))
  }

  lemma {:induction false} GentleFrom(s: EchoState, es: seq<EchoEvent>, timeout: nat)
    requires EchoInv(s) && Calm(s.world) && GentleRun(s, es, timeout)
    ensures EchoExec(s, es, timeout).Serving? && Calm(EchoExec(s, es, timeout).state.world)
    decreases |es|
  {
    if es != [] {
      GentleStep(s, es[0], timeout);
      EchoStepKeeps(s, es[0], timeout);
      GentleFrom(EchoStep(s, es[0], timeout).state, es[1..], timeout);
    }
  }

  /** No run without hang-ups that read and without risky time-outs fails an assert. */
  lemma GentleRunsServe(es: seq<EchoEvent>, timeout: nat)
    requires GentleRun(START, es, timeout)
    ensures EchoExec(START, es, timeout).Serving? && Calm(EchoExec(START, es, timeout).state.world)
  {
    InitialInv();
    GentleFrom(START, es, timeout);
  }
}
