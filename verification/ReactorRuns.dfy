/** The invariant of every run of the reactor, and what follows from it. */
module ReactorRuns {
  import opened Epoll
  import opened Connection
  import opened Reactor
  import opened ReactorProofs

  /** p's thread pushed p before q. */
  predicate Before(p: Payload, q: Payload) {
    p.Queued? && q.Queued? && p.sender == q.sender ==> p.no < q.no
  }

  ghost predicate Increasing(ps: seq<Payload>) {
    forall i, j :: 0 <= i < j < |ps| ==> Before(ps[i], ps[j])
  }

  ghost predicate JobsIncreasing(jobs: seq<Job>) {
    forall i, j :: 0 <= i < j < |jobs| && jobs[i].SendJob? && jobs[j].SendJob? ==>
      Before(jobs[i].payload, jobs[j].payload)
  }

  ghost predicate AllBefore(ps: seq<Payload>, jobs: seq<Job>) {
    forall i, j :: 0 <= i < |ps| && 0 <= j < |jobs| && jobs[j].SendJob? ==> Before(ps[i], jobs[j].payload)
  }

  predicate Numbered(w: World, p: Payload) {
    p.Queued? ==> p.no < w.Submitted(p.sender)
  }

  ghost predicate AllNumbered(w: World, ps: seq<Payload>) {
    forall i :: 0 <= i < |ps| ==> Numbered(w, ps[i])
  }

  ghost predicate JobsNumbered(w: World, jobs: seq<Job>) {
    forall i :: 0 <= i < |jobs| && jobs[i].SendJob? ==> jobs[i].payload.Queued? && Numbered(w, jobs[i].payload)
  }

  ghost predicate ConnOrdered(w: World, ps: seq<Payload>, queue: seq<Job>) {
    Increasing(ps) && AllBefore(ps, queue) && AllNumbered(w, ps)
  }

  /** Each thread's payloads are accepted, and wait in the queue, in the order it pushed them. */
  ghost predicate Ordered(w: World) {
    && JobsIncreasing(w.Queue())
    && JobsNumbered(w, w.Queue())
    && forall c :: c in w.conns ==> ConnOrdered(w, w.conns[c].log.accepted, w.Queue())
  }

  /** EPOLLOUT is only ever delivered to a connection that still wants it, or that was closed meanwhile. */
  ghost predicate ActiveAgrees(w: World) {
    w.phase.Handling? ==>
      var a := w.phase.active;
      && (forall i :: 0 <= i < |a| ==> a[i].conn in w.conns)
      && (forall i :: 0 <= i < |a| && OUT in a[i].revents ==> w.conns[a[i].conn].Writing() || w.Dead(a[i].conn))
      && (forall i, j :: 0 <= i < j < |a| ==> a[i].conn != a[j].conn)
  }

  /** Every job pushed was run, is in the current batch, or is pending, in lock order. */
  predicate Conserved(w: World) {
    w.ran + w.Queue() == w.pushed
  }

  ghost predicate Inv(w: World) {
    Basic(w) && ActiveAgrees(w) && Conserved(w) && Ordered(w)
  }

  lemma InitialInv()
    ensures Inv(Initial())
  {
  }

  // ---------- handlers ----------

  lemma Regroup<T>(a: seq<T>, b: seq<T>, c: seq<T>)
    ensures a + (b + c) == (a + b) + c
  {
  }

  lemma QueueGrows(w: World, v: World)
    requires JobsAdded(w, v) && v.phase == w.phase && v.ran == w.ran
    ensures v.Queue() == w.Queue() + v.pending[|w.pending|..]
    ensures Conserved(w) ==> Conserved(v)
  {
    var more := v.pending[|w.pending|..];
    assert v.pending == w.pending + more;
    Regroup(w.Batch(), w.pending, more);
    Regroup(w.ran, w.Queue(), more);
  }

  lemma QueueProceeds(w: World, v: World)
    requires Proceeds(w, v)
    ensures v.Queue() == w.Queue() + v.pending[|w.pending|..]
    ensures Conserved(w) ==> Conserved(v)
  {
    QueueGrows(w, v);
  }

  lemma ConnOrderedProceeds(w: World, v: World, ps: seq<Payload>, qs: seq<Payload>, queue: seq<Job>, more: seq<Job>)
    requires ConnOrdered(w, ps, queue) && ps <= qs && OnlyDirect(ps, qs)
    requires forall i :: 0 <= i < |more| ==> !more[i].SendJob?
    requires v.submitted == w.submitted
    ensures ConnOrdered(v, qs, queue + more)
  {
    assert forall i :: 0 <= i < |ps| ==> qs[i] == ps[i];
    assert forall p :: Numbered(w, p) <==> Numbered(v, p);
  }

  lemma OrderedProceeds(w: World, v: World)
    requires Ordered(w) && Proceeds(w, v)
    ensures Ordered(v)
  {
    QueueProceeds(w, v);
    var more := v.pending[|w.pending|..];
    assert forall i :: 0 <= i < |more| ==> !more[i].SendJob?;
    assert forall p :: Numbered(w, p) <==> Numbered(v, p);
    forall c | c in v.conns
      ensures ConnOrdered(v, v.conns[c].log.accepted, v.Queue())
    {
      assert ConnProceeds(w.conns[c], v.conns[c]);
      ConnOrderedProceeds(w, v, w.conns[c].log.accepted, v.conns[c].log.accepted, w.Queue(), more);
    }
  }

  lemma ActiveProceeds(w: World, v: World)
    requires ActiveAgrees(w) && Proceeds(w, v)
    requires w.phase.Handling? ==>
               forall i :: 0 <= i < |w.phase.active| && w.phase.active[i].conn in w.conns ==>
                 KeepsWriting(w.conns[w.phase.active[i].conn], v.conns[w.phase.active[i].conn])
    ensures ActiveAgrees(v)
  {
    assert forall c :: c in w.conns ==> ConnProceeds(w.conns[c], v.conns[c]);
  }

  /** A handler that leaves the world basically well formed keeps the invariant. */
  lemma ProceedsKeeps(w: World, v: World)
    requires Inv(w) && Basic(v) && Proceeds(w, v) && WritingKept(w, v)
    ensures Inv(v)
  {
    OrderedProceeds(w, v);
    QueueProceeds(w, v);
    ActiveProceeds(w, v);
  }

  // ---------- steps ----------

  /** The world in which the next active channel is handled. */
  function Taken(w: World): World
    requires w.phase.Handling? && w.phase.active != []
  {
    w.(phase := Handling(w.phase.active[1..]))
  }

  /** The world in which the next job runs. */
  function Popped(w: World): World
    requires w.phase.Running? && w.phase.batch != []
  {
    w.(phase := Running(w.phase.batch[1..]), ran := w.ran + [w.phase.batch[0]])
  }

  lemma SameQueueOrdered(w: World, v: World)
    requires Ordered(w) && v.conns == w.conns && v.submitted == w.submitted && v.Queue() == w.Queue()
    ensures Ordered(v)
  {
    assert forall p :: Numbered(w, p) <==> Numbered(v, p);
    forall c | c in v.conns
      ensures ConnOrdered(v, v.conns[c].log.accepted, v.Queue())
    {
      assert ConnOrdered(w, w.conns[c].log.accepted, w.Queue());
    }
  }

  lemma TakenInv(w: World)
    requires Inv(w) && w.phase.Handling? && w.phase.active != []
    ensures Inv(Taken(w))
  {
    SameQueueOrdered(w, Taken(w));
  }

  lemma PoppedInv(w: World)
    requires Inv(w) && w.phase.Running? && w.phase.batch != []
    ensures Inv(Popped(w)) && w.Queue() == [w.phase.batch[0]] + Popped(w).Queue()
  {
    var v := Popped(w);
    assert w.Queue() == [w.phase.batch[0]] + v.Queue();
    assert v.ran + v.Queue() == w.ran + w.Queue();
    assert forall i :: 0 <= i < |v.Queue()| ==> v.Queue()[i] == w.Queue()[i + 1];
    assert forall p :: Numbered(w, p) <==> Numbered(v, p);
    forall c | c in v.conns
      ensures ConnOrdered(v, v.conns[c].log.accepted, v.Queue())
    {
      assert ConnOrdered(w, w.conns[c].log.accepted, w.Queue());
    }
  }

  lemma HandleKeeps(w: World, env: Env)
    requires Inv(w) && w.phase.Handling? && w.phase.active != []
    ensures var r := w.phase.active[0]; var o := Dispatch(Taken(w), r.conn, r.revents, env);
            && (o.Aborted? <==> DispatchFaults(Taken(w), r.conn, r.revents, env))
            && (o.Aborted? ==> CanFail(o.site))
            && (o.Ok? ==> Inv(o.world) && Proceeds(Taken(w), o.world))
  {
    var r := w.phase.active[0];
    TakenInv(w);
    assert (OUT in r.revents ==> w.conns[r.conn].Writing() || w.Dead(r.conn)) && r.conn in w.conns;
    HandlerKeeps(Taken(w), r.conn, r.revents, env);
  }

  /** The handler of a connection that is not among those still to be handled. */
  lemma HandlerKeeps(u: World, c: nat, revents: Mask, env: Env)
    requires Inv(u) && c in u.conns && (OUT in revents ==> u.conns[c].Writing() || u.Dead(c))
    requires u.phase.Handling? && forall i :: 0 <= i < |u.phase.active| ==> u.phase.active[i].conn != c
    ensures var o := Dispatch(u, c, revents, env);
            && (o.Aborted? <==> DispatchFaults(u, c, revents, env))
            && (o.Aborted? ==> CanFail(o.site))
            && (o.Ok? ==> Inv(o.world) && Proceeds(u, o.world))
  {
    DispatchProceeds(u, c, revents, env);
    var o := Dispatch(u, c, revents, env);
    if o.Ok? {
      OrderedProceeds(u, o.world);
      QueueProceeds(u, o.world);
      ActiveProceeds(u, o.world);
    }
  }

  lemma ScriptKeeps(w: World, script: seq<Call>)
    requires Inv(w)
    ensures var o := RunScript(w, script);
            && (o.Aborted? <==> Misuses(w, script))
            && (o.Aborted? ==> CanFail(o.site))
            && (o.Ok? ==> Inv(o.world) && Proceeds(w, o.world))
  {
    ScriptProceeds(w, script);
    if RunScript(w, script).Ok? {
      ProceedsKeeps(w, RunScript(w, script).world);
    }
  }

  /** The world in which a new connection is established, before its connection callback. */
  function Accepted(w: World, c: nat, onWriteComplete: bool): World {
    w.(conns := w.conns[c := Established(onWriteComplete)], server := w.server + {c})
  }

  lemma AcceptedInv(w: World, c: nat, onWriteComplete: bool)
    requires Inv(w) && c !in w.conns
    ensures Inv(Accepted(w, c, onWriteComplete))
  {
    var v := Accepted(w, c, onWriteComplete);
    EstablishedSound(onWriteComplete);
    assert forall p :: Numbered(w, p) <==> Numbered(v, p);
    assert v.Queue() == w.Queue();
    forall d | d in v.conns
      ensures ConnOrdered(v, v.conns[d].log.accepted, v.Queue())
    {
      if d != c {
        assert ConnOrdered(w, w.conns[d].log.accepted, w.Queue());
      }
    }
  }

  lemma AcceptKeeps(w: World, c: nat, onWriteComplete: bool, script: seq<Call>)
    requires Inv(w) && c !in w.conns
    ensures var o := RunScript(Accepted(w, c, onWriteComplete), script);
            && (o.Aborted? <==> Misuses(w, script))
            && (o.Aborted? ==> CanFail(o.site))
            && (o.Ok? ==> Inv(o.world) && Proceeds(Accepted(w, c, onWriteComplete), o.world))
  {
    AcceptedInv(w, c, onWriteComplete);
    ScriptKeeps(Accepted(w, c, onWriteComplete), script);
    AcceptedMisuses(w, c, onWriteComplete, script);
  }

  lemma AcceptedMisuses(w: World, c: nat, onWriteComplete: bool, script: seq<Call>)
    requires c !in w.conns
    ensures Misuses(Accepted(w, c, onWriteComplete), script) <==> Misuses(w, script)
  {
    assert forall call :: Misused(w, call) <==> Misused(Accepted(w, c, onWriteComplete), call);
  }

  /** A queued send of another thread extends the accepted payloads by itself, or not at all. */
  lemma QueuedSend(k: Conn, id: nat, p: Payload, wr: WriteResult)
    requires Sound(k)
    ensures var e := SendInLoop(k, id, p, wr);
            && e.Effect? && Sound(e.conn) && Grows(k, e.conn) && e.conn.state == k.state
            && (e.conn.log.accepted == k.log.accepted || e.conn.log.accepted == k.log.accepted + [p])
            && e.conn.log.lateSends == (if k.Alive() && k.log.shuts > 0 then k.log.lateSends + 1 else k.log.lateSends)
            && forall i :: 0 <= i < |e.jobs| ==> !e.jobs[i].SendJob?
  {
    SendInLoopSound(k, id, p, wr);
    SendFrame(k, id, p, wr);
    SendGrows(k, id, p, wr);
  }

  /** The first job of a queue, accepted by a connection, keeps that connection's payloads in order. */
  lemma AcceptNext(w: World, ps: seq<Payload>, c: nat, p: Payload, rest: seq<Job>)
    requires ConnOrdered(w, ps, [SendJob(c, p)] + rest)
    requires JobsIncreasing([SendJob(c, p)] + rest) && Numbered(w, p)
    ensures ConnOrdered(w, ps + [p], rest)
  {
    var queue := [SendJob(c, p)] + rest;
    assert queue[0] == SendJob(c, p);
    assert forall i :: 0 <= i < |rest| ==> queue[i + 1] == rest[i];
    forall i, j | 0 <= i < |ps + [p]| && 0 <= j < |rest| && rest[j].SendJob?
      ensures Before((ps + [p])[i], rest[j].payload)
    {
      assert queue[j + 1] == rest[j];
    }
  }

  lemma SendJobOrders(w: World, c: nat, p: Payload, l: Conn)
    requires w.phase.Running? && w.phase.batch != [] && c in w.conns
    requires Ordered(w) && Ordered(Popped(w)) && w.Queue() == [SendJob(c, p)] + Popped(w).Queue()
    requires l.log.accepted == w.conns[c].log.accepted || l.log.accepted == w.conns[c].log.accepted + [p]
    ensures Ordered(Popped(w).(conns := w.conns[c := l]))
  {
    var u := Popped(w);
    var v := u.(conns := w.conns[c := l]);
    assert v.Queue() == u.Queue();
    assert forall q :: (Numbered(w, q) <==> Numbered(v, q)) && (Numbered(u, q) <==> Numbered(v, q));
    assert Numbered(w, p) by {
      assert w.Queue()[0] == SendJob(c, p);
    }
    AcceptNext(w, w.conns[c].log.accepted, c, p, u.Queue());
    forall d | d in v.conns
      ensures ConnOrdered(v, v.conns[d].log.accepted, v.Queue())
    {
      assert ConnOrdered(u, u.conns[d].log.accepted, u.Queue());
    }
  }

  lemma SendJobReplaces(w: World, c: nat, p: Payload, l: Conn)
    requires Inv(w) && w.phase.Running? && w.phase.batch != [] && w.phase.batch[0] == SendJob(c, p) && c in w.conns
    requires Sound(l) && l.Alive() == w.conns[c].Alive()
    requires l.log.accepted == w.conns[c].log.accepted || l.log.accepted == w.conns[c].log.accepted + [p]
    ensures Inv(Popped(w).(conns := w.conns[c := l]))
  {
    PoppedInv(w);
    SendJobOrders(w, c, p, l);
    var v := Popped(w).(conns := w.conns[c := l]);
    assert Basic(v);
  }

  lemma SendJobKeeps(w: World, c: nat, p: Payload, env: Env)
    requires Inv(w) && w.phase.Running? && w.phase.batch != [] && w.phase.batch[0] == SendJob(c, p)
    ensures var o := RunJob(Popped(w), w.phase.batch[0], env); o.Ok? && Inv(o.world)
  {
    PoppedInv(w);
    if c in w.conns {
      var e := SendInLoop(w.conns[c], c, p, env.write);
      QueuedSend(w.conns[c], c, p, env.write);
      SendJobReplaces(w, c, p, e.conn);
      PushKeeps(Popped(w).(conns := w.conns[c := e.conn]), e.jobs);
    }
  }

  lemma PushKeeps(w: World, jobs: seq<Job>)
    requires Inv(w) && forall i :: 0 <= i < |jobs| ==> !jobs[i].SendJob?
    ensures Inv(w.(pending := w.pending + jobs, pushed := w.pushed + jobs))
  {
    var v := w.(pending := w.pending + jobs, pushed := w.pushed + jobs);
    PushProceeds(w, jobs);
    OrderedProceeds(w, v);
    QueueProceeds(w, v);
  }

  /** When a job fails an assert. */
  ghost predicate JobFaults(w: World, j: Job, env: Env) {
    match j
    case SendJob(_, _) => false
    case ForceClose(c) => c in w.conns && w.conns[c].Alive() && Misuses(Closed(w, c), env.onClose)
    case _ => Misuses(w, env.onMessage)
  }

  /** A job other than a queued send. A ForceClose job leaves its connection closed. */
  lemma OtherJobKeeps(w: World, j: Job, env: Env)
    requires Inv(w) && !j.SendJob?
    ensures var o := RunJob(w, j, env);
            && (o.Aborted? <==> JobFaults(w, j, env))
            && (o.Aborted? ==> CanFail(o.site))
            && (o.Ok? ==> Inv(o.world) && Proceeds(w, o.world))
            && (o.Ok? && j.ForceClose? && j.conn in w.conns ==> o.world.Dead(j.conn))
  {
    match j {
      case ForceClose(c) =>
        if c in w.conns && w.conns[c].state != Disconnected {
          CloseConnProceeds(w, c, env.onClose);
          var o := CloseConn(w, c, env.onClose);
          if o.Ok? {
            ProceedsKeeps(w, o.world);
          }
        } else {
          ProceedsRefl(w);
        }
      case _ => ScriptKeeps(w, env.onMessage);
    }
  }

  /** Pushing a thread's next payload at the end of the queue. */
  lemma PushOrders(w: World, v: World, c: nat, p: Payload)
    requires Ordered(w) && p.Queued? && p.no == w.Submitted(p.sender)
    requires v.conns == w.conns && v.Queue() == w.Queue() + [SendJob(c, p)]
    requires v.submitted == w.submitted[p.sender := p.no + 1]
    ensures Ordered(v)
  {
    assert forall q :: Numbered(w, q) ==> Numbered(v, q) && Before(q, p);
    forall d | d in v.conns
      ensures ConnOrdered(v, v.conns[d].log.accepted, v.Queue())
    {
      assert ConnOrdered(w, w.conns[d].log.accepted, w.Queue());
    }
  }

  lemma PushSendKeeps(w: World, t: nat)
    requires Inv(w) && t in w.submitting
    ensures Inv(Step(w, PushSend(t)).world)
  {
    var v := Step(w, PushSend(t)).world;
    var p := Queued(t, w.Submitted(t), w.submitting[t].data);
    var job := SendJob(w.submitting[t].conn, p);
    assert v.Queue() == w.Queue() + [job];
    assert w.ran + (w.Queue() + [job]) == (w.ran + w.Queue()) + [job];
    PushOrders(w, v, job.conn, p);
  }

  lemma SameConnsBasic(w: World, v: World)
    requires Basic(w) && v.conns == w.conns && v.server == w.server
    ensures Basic(v)
  {
  }

  lemma PollActive(w: World, active: seq<Ready>)
    requires Pollable(w, active)
    ensures ActiveAgrees(w.(phase := Handling(active)))
  {
  }

  lemma PollKeeps(w: World, active: seq<Ready>)
    requires Inv(w) && w.phase.Polling? && Pollable(w, active)
    ensures Inv(w.(phase := Handling(active)))
  {
    SameConnsBasic(w, w.(phase := Handling(active)));
    PollActive(w, active);
    SameQueueOrdered(w, w.(phase := Handling(active)));
  }

  lemma SwapKeeps(w: World)
    requires Inv(w) && w.phase == Handling([])
    ensures Inv(w.(phase := Running(w.pending), pending := []))
  {
    var v := w.(phase := Running(w.pending), pending := []);
    assert v.Queue() == w.Queue();
    SameQueueOrdered(w, v);
  }

  /** The exact condition under which a step fails an assert of the source. */
  ghost predicate Faults(w: World, e: Event) {
    match e
    case Handle(env) =>
      && w.phase.Handling? && w.phase.active != [] && w.phase.active[0].conn in w.conns
      && DispatchFaults(Taken(w), w.phase.active[0].conn, w.phase.active[0].revents, env)
    case Accept(c, _, script) => w.phase.Handling? && c !in w.conns && Misuses(w, script)
    case OtherHandler(script) => w.phase.Handling? && Misuses(w, script)
    case RunNext(env) => w.phase.Running? && w.phase.batch != [] && JobFaults(Popped(w), w.phase.batch[0], env)
    case _ => false
  }

  lemma RunNextKeeps(w: World, env: Env)
    requires Inv(w) && w.phase.Running? && w.phase.batch != []
    ensures var o := RunJob(Popped(w), w.phase.batch[0], env);
            && (o.Aborted? <==> JobFaults(Popped(w), w.phase.batch[0], env))
            && (o.Aborted? ==> CanFail(o.site))
            && (o.Ok? ==> Inv(o.world))
  {
    match w.phase.batch[0] {
      case SendJob(c, p) => SendJobKeeps(w, c, p, env);
      case _ =>
        PoppedInv(w);
        OtherJobKeeps(Popped(w), w.phase.batch[0], env);
    }
  }

  /** Every step keeps the invariant, or fails an assert exactly when Faults says so. */
  lemma StepKeeps(w: World, e: Event)
    requires Inv(w)
    ensures Step(w, e).Aborted? <==> Faults(w, e)
    ensures Step(w, e).Aborted? ==> CanFail(Step(w, e).site)
    ensures Step(w, e).Ok? ==> Inv(Step(w, e).world)
  {
    match e {
      case PollReturns(active) =>
        if w.phase.Polling? && Pollable(w, active) { PollKeeps(w, active); }
      case Handle(env) =>
        if w.phase.Handling? && w.phase.active != [] { HandleKeeps(w, env); }
      case Accept(c, onWriteComplete, script) =>
        if c !in w.conns { AcceptKeeps(w, c, onWriteComplete, script); }
      case OtherHandler(script) => ScriptKeeps(w, script);
      case RunNext(env) =>
        if w.phase.Running? && w.phase.batch != [] { RunNextKeeps(w, env); }
      case _ => QueueStepKeeps(w, e);
    }
  }

  /** The steps that run no handler and no job. */
  lemma QueueStepKeeps(w: World, e: Event)
    requires Inv(w) && (e.SwapJobs? || e.EndJobs? || e.Submit? || e.PushSend? || e.PushTask?)
    ensures Step(w, e).Ok? && Inv(Step(w, e).world)
  {
    match e {
      case SwapJobs =>
        if w.phase == Handling([]) { SwapKeeps(w); }
      case EndJobs =>
        if w.phase == Running([]) { SameQueueOrdered(w, w.(phase := Polling)); }
      case Submit(t, c, data) =>
        if Step(w, e).world != w { SameQueueOrdered(w, Step(w, e).world); }
      case PushSend(t) =>
        if t in w.submitting { PushSendKeeps(w, t); }
      case PushTask(task) => PushKeeps(w, [Task(task)]);
      case _ =>
    }
  }

  lemma {:induction false} ExecKeeps(w: World, es: seq<Event>)
    requires Inv(w)
    ensures Exec(w, es).Aborted? ==> CanFail(Exec(w, es).site)
    ensures Exec(w, es).Ok? ==> Inv(Exec(w, es).world)
    decreases |es|
  {
    if es != [] {
      StepKeeps(w, es[0]);
      if Step(w, es[0]).Ok? {
        ExecKeeps(Step(w, es[0]).world, es[1..]);
      }
    }
  }
}
