/** What holds of every run of the reactor, whatever the kernel and the clients do. */
module ReactorTheorems {
  import opened Common
  import opened Connection
  import opened Reactor
  import opened ReactorProofs
  import opened ReactorRuns

  /** w is what some run leaves. */
  ghost predicate Reachable(w: World) {
    exists es :: Exec(Initial(), es) == Ok(w)
  }

  lemma ReachableInv(w: World)
    requires Reachable(w)
    ensures Inv(w)
  {
    var es :| Exec(Initial(), es) == Ok(w);
    InitialInv();
    ExecKeeps(Initial(), es);
  }

  lemma {:induction false} ExecAppend(w: World, es: seq<Event>, fs: seq<Event>)
    requires Exec(w, es).Ok?
    ensures Exec(w, es + fs) == Exec(Exec(w, es).world, fs)
    decreases |es|
  {
    if es == [] {
      assert es + fs == fs;
    } else {
      ExecAppend(Step(w, es[0]).world, es[1..], fs);
      assert (es + fs)[1..] == es[1..] + fs;
    }
  }

  /** A single step of a run. */
  lemma ExecStep(w: World, es: seq<Event>)
    requires es != [] && Step(w, es[0]).Ok?
    ensures Exec(w, es) == Exec(Step(w, es[0]).world, es[1..])
  {
  }

  lemma ReachableNext(w: World, e: Event, v: World)
    requires Reachable(w) && Step(w, e) == Ok(v)
    ensures Reachable(v)
  {
    var es :| Exec(Initial(), es) == Ok(w);
    ExecAppend(Initial(), es, [e]);
    assert Exec(w, [e]) == Exec(v, []);
  }

  /**
   * Stream integrity, with senders on any thread: wire and output buffer are the accepted payloads,
   * each contiguous, in the order they were accepted; the wire alone is a prefix, also after closing;
   * each thread's payloads are accepted in the order it pushed them, each at most once.
   */
  lemma StreamIntegrity(w: World, c: nat)
    requires Reachable(w) && c in w.conns
    ensures w.conns[c].log.wire + w.conns[c].output == Stream(w.conns[c].log.accepted)
    ensures w.conns[c].log.wire <= Stream(w.conns[c].log.accepted)
    ensures forall i, j :: 0 <= i < j < |w.conns[c].log.accepted| ==>
              Before(w.conns[c].log.accepted[i], w.conns[c].log.accepted[j])
  {
    ReachableInv(w);
    assert Sound(w.conns[c]);
    assert ConnOrdered(w, w.conns[c].log.accepted, w.Queue());
  }

  /** EPOLLOUT is registered exactly while there is output to flush. */
  lemma OutputFlag(w: World, c: nat)
    requires Reachable(w) && c in w.conns && w.conns[c].Alive()
    ensures w.conns[c].Writing() <==> w.conns[c].output != []
  {
    ReachableInv(w);
  }

  /** connections_ holds exactly the open connections, and each went up once, and down once if it is closed. */
  lemma ClosedOnce(w: World, c: nat)
    requires Reachable(w) && c in w.conns
    ensures c in w.server <==> w.conns[c].Alive()
    ensures w.conns[c].log.ups == 1
    ensures w.conns[c].log.downs == if w.conns[c].state == Disconnected then 1 else 0
  {
    ReachableInv(w);
    assert Sound(w.conns[c]);
  }

  /** Jobs run, the rest of the batch and the pending jobs are together all pushes, in lock order. */
  lemma JobsConserved(w: World)
    requires Reachable(w)
    ensures w.ran + w.Batch() + w.pending == w.pushed
  {
    ReachableInv(w);
    assert w.ran + w.Batch() + w.pending == w.ran + (w.Batch() + w.pending);
  }

  /** Five of the eight asserts never fail; the other three fail only as Faults says. */
  lemma AssertsThatHold(es: seq<Event>)
    requires Exec(Initial(), es).Aborted?
    ensures var site := Exec(Initial(), es).site;
            && site != OutputWhileNotWriting && site != NothingToWrite && site != WriteNotEnabled
            && site != EmptyMask && site != NotInServer
  {
    InitialInv();
    ExecKeeps(Initial(), es);
  }

  // ---------- histories only grow ----------

  /** The step runs a queued send. */
  predicate RunsSend(w: World, e: Event) {
    e.RunNext? && w.phase.Running? && w.phase.batch != [] && w.phase.batch[0].SendJob?
  }

  predicate RunsSendFor(w: World, e: Event, c: nat) {
    RunsSend(w, e) && w.phase.batch[0].conn == c
  }

  /** The world in which the handler of a step starts; all of the step when it has none. */
  function Prepared(w: World, e: Event): World {
    match e
    case Handle(_) => if w.phase.Handling? && w.phase.active != [] then Taken(w) else w
    case Accept(c, onWriteComplete, _) =>
      if w.phase.Handling? && c !in w.conns then Accepted(w, c, onWriteComplete) else w
    case RunNext(_) => if w.phase.Running? && w.phase.batch != [] then Popped(w) else w
    case OtherHandler(_) => w
    case _ => if Step(w, e).Ok? then Step(w, e).world else w
  }

  lemma StepProceeds(w: World, e: Event)
    requires Inv(w) && Step(w, e).Ok? && !RunsSend(w, e)
    ensures Proceeds(Prepared(w, e), Step(w, e).world)
  {
    ProceedsRefl(Prepared(w, e));
    match e {
      case Handle(env) =>
        if w.phase.Handling? && w.phase.active != [] { HandleKeeps(w, env); }
      case Accept(d, onWriteComplete, script) =>
        if w.phase.Handling? && d !in w.conns { AcceptKeeps(w, d, onWriteComplete, script); }
      case OtherHandler(script) => ScriptKeeps(w, script);
      case RunNext(env) =>
        if w.phase.Running? && w.phase.batch != [] {
          PoppedInv(w);
          OtherJobKeeps(Popped(w), w.phase.batch[0], env);
        }
      case _ =>
    }
  }

  /** A queued send that runs changes its connection only, as QueuedSend says, and pushes no other. */
  lemma SendStep(w: World, e: Event)
    requires Inv(w) && RunsSend(w, e) && Step(w, e).Ok?
    ensures var v := Step(w, e).world;
            var d := w.phase.batch[0].conn;
            && v.conns.Keys == w.conns.Keys && v.submitting == w.submitting
            && (forall c :: c in w.conns && c != d ==> v.conns[c] == w.conns[c])
            && (d in w.conns ==>
                  && Grows(w.conns[d], v.conns[d])
                  && v.conns[d].log.lateSends == w.conns[d].log.lateSends
                     + (if w.conns[d].Alive() && w.conns[d].log.shuts > 0 then 1 else 0))
            && JobsAdded(Popped(w), v) && v.phase == Popped(w).phase
  {
    var SendJob(d, p) := w.phase.batch[0];
    PushProceeds(Popped(w), []);
    if d in w.conns {
      QueuedSend(w.conns[d], d, p, e.env.write);
      PushProceeds(Popped(w), SendInLoop(w.conns[d], d, p, e.env.write).jobs);
    } else {
      ProceedsRefl(Popped(w));
    }
  }

  lemma PreparedSame(w: World, e: Event, c: nat)
    requires c in w.conns
    ensures c in Prepared(w, e).conns && Prepared(w, e).conns[c] == w.conns[c]
  {
  }

  /**
   * One step only extends the history of a connection; and a send comes after a SHUT_WR exactly
   * when a queued send runs for a connection that is still open and has attempted it.
   */
  lemma StepGrows(w: World, e: Event, c: nat)
    requires Inv(w) && c in w.conns && Step(w, e).Ok?
    ensures c in Step(w, e).world.conns
    ensures var k, l := w.conns[c], Step(w, e).world.conns[c];
            && Grows(k, l)
            && l.log.lateSends == k.log.lateSends
               + (if RunsSendFor(w, e, c) && k.Alive() && k.log.shuts > 0 then 1 else 0)
  {
    if RunsSend(w, e) {
      SendStep(w, e);
    } else {
      StepProceeds(w, e);
      PreparedSame(w, e, c);
      assert ConnProceeds(Prepared(w, e).conns[c], Step(w, e).world.conns[c]);
    }
  }

  lemma {:induction false} ExecGrows(w: World, es: seq<Event>, c: nat)
    requires Inv(w) && c in w.conns && Exec(w, es).Ok?
    ensures c in Exec(w, es).world.conns && Grows(w.conns[c], Exec(w, es).world.conns[c])
    decreases |es|
  {
    if es != [] {
      StepKeeps(w, es[0]);
      StepGrows(w, es[0], c);
      var v := Step(w, es[0]).world;
      ExecGrows(v, es[1..], c);
      GrowsTrans(w.conns[c], v.conns[c], Exec(v, es[1..]).world.conns[c]);
    }
  }

  /** Closing is final. */
  lemma ClosedForever(w: World, es: seq<Event>, c: nat)
    requires Reachable(w) && w.Dead(c) && Exec(w, es).Ok?
    ensures Exec(w, es).world.Dead(c) && Exec(w, es).world.conns[c].log.downs == 1
  {
    ReachableInv(w);
    ExecKeeps(w, es);
    ExecGrows(w, es, c);
    assert Sound(Exec(w, es).world.conns[c]);
  }

  /** A ForceClose job that ran leaves its connection closed. */
  lemma ForceCloseCloses(w: World, env: Env, c: nat)
    requires Reachable(w) && c in w.conns && w.phase.Running? && w.phase.batch != []
    requires w.phase.batch[0] == ForceClose(c) && Step(w, RunNext(env)).Ok?
    ensures Step(w, RunNext(env)).world.Dead(c)
  {
    ReachableInv(w);
    PoppedInv(w);
    OtherJobKeeps(Popped(w), ForceClose(c), env);
  }

  // ---------- graceful shutdown ----------

  /** Another thread's send for c is queued, or has passed its state test. */
  ghost predicate InFlight(w: World, c: nat) {
    || (exists i :: 0 <= i < |w.Queue()| && w.Queue()[i].SendJob? && w.Queue()[i].conn == c)
    || (exists t :: t in w.submitting && w.submitting[t].conn == c)
  }

  lemma QuietAfter(w: World, v: World, c: nat)
    requires JobsAdded(w, v) && w.Batch() == v.Batch() && v.submitting == w.submitting && !InFlight(w, c)
    ensures !InFlight(v, c)
  {
    var more := v.pending[|w.pending|..];
    assert v.pending == w.pending + more;
    assert v.Queue() == w.Queue() + more;
  }

  lemma QuietPopped(w: World, c: nat)
    requires w.phase.Running? && w.phase.batch != [] && !InFlight(w, c)
    ensures !InFlight(Popped(w), c) && !(w.phase.batch[0].SendJob? && w.phase.batch[0].conn == c)
  {
    assert w.Queue() == [w.phase.batch[0]] + Popped(w).Queue();
    assert forall i :: 0 <= i < |Popped(w).Queue()| ==> Popped(w).Queue()[i] == w.Queue()[i + 1];
    assert w.Queue()[0] == w.phase.batch[0];
  }

  lemma QuietPush(w: World, v: World, c: nat, job: Job)
    requires !InFlight(w, c) && v.Queue() == w.Queue() + [job] && !(job.SendJob? && job.conn == c)
    requires forall t :: t in v.submitting ==> t in w.submitting && v.submitting[t] == w.submitting[t]
    ensures !InFlight(v, c)
  {
  }

  lemma QuietSubmit(w: World, t: nat, d: nat, data: seq<byte>, c: nat)
    requires !InFlight(w, c) && c in w.conns && w.conns[c].state != Connected
    ensures !InFlight(Step(w, Submit(t, d, data)).world, c)
  {
    assert Step(w, Submit(t, d, data)).world.Queue() == w.Queue();
  }

  lemma QuietPrepared(w: World, e: Event, c: nat)
    requires !InFlight(w, c) && (e.Submit? ==> c in w.conns && w.conns[c].state != Connected)
    ensures !InFlight(Prepared(w, e), c) && !RunsSendFor(w, e, c)
  {
    var u := Prepared(w, e);
    match e {
      case RunNext(_) =>
        if w.phase.Running? && w.phase.batch != [] { QuietPopped(w, c); }
      case Submit(t, d, data) => QuietSubmit(w, t, d, data, c);
      case PushSend(t) =>
        if t in w.submitting {
          assert w.submitting[t].conn != c;
          var job := SendJob(w.submitting[t].conn, Queued(t, w.Submitted(t), w.submitting[t].data));
          assert u.Queue() == w.Queue() + [job];
          QuietPush(w, u, c, job);
        }
      case PushTask(task) =>
        assert u.Queue() == w.Queue() + [Task(task)];
        QuietPush(w, u, c, Task(task));
      case SwapJobs => assert u.Queue() == w.Queue() && u.submitting == w.submitting;
      case _ => assert u.Queue() == w.Queue() && u.submitting == w.submitting;
    }
  }

  /** While no send for a connection is in flight, only another thread that finds it connected changes that. */
  lemma StaysQuiet(w: World, e: Event, c: nat)
    requires Inv(w) && !InFlight(w, c) && Step(w, e).Ok?
    requires e.Submit? ==> c in w.conns && w.conns[c].state != Connected
    ensures !InFlight(Step(w, e).world, c) && !RunsSendFor(w, e, c)
  {
    QuietPrepared(w, e, c);
    if RunsSend(w, e) {
      SendStep(w, e);
    } else {
      StepProceeds(w, e);
    }
    QuietAfter(Prepared(w, e), Step(w, e).world, c);
  }

  lemma {:induction false} QuietRun(w: World, es: seq<Event>, c: nat)
    requires Inv(w) && c in w.conns && w.conns[c].state != Connected && !InFlight(w, c) && Exec(w, es).Ok?
    ensures c in Exec(w, es).world.conns
    ensures Exec(w, es).world.conns[c].log.lateSends == w.conns[c].log.lateSends
    decreases |es|
  {
    if es != [] {
      StepKeeps(w, es[0]);
      StepGrows(w, es[0], c);
      StaysQuiet(w, es[0], c);
      QuietRun(Step(w, es[0]).world, es[1..], c);
    }
  }

  /**
   * Graceful shutdown. Once SHUT_WR was attempted and no other thread's send is in flight, then for ever:
   * it is not attempted again, it had been attempted with every accepted byte on the wire, and nothing
   * is written afterwards.
   */
  lemma NothingAfterShutdown(w: World, es: seq<Event>, c: nat)
    requires Reachable(w) && c in w.conns && w.conns[c].log.shuts > 0 && w.conns[c].log.lateSends == 0
    requires !InFlight(w, c) && Exec(w, es).Ok?
    ensures c in Exec(w, es).world.conns
    ensures var log := Exec(w, es).world.conns[c].log;
            && log.shuts == 1 && log.wire == log.shutWire == w.conns[c].log.wire
            && log.wire == Stream(log.accepted)
  {
    ReachableInv(w);
    assert Sound(w.conns[c]);
    QuietRun(w, es, c);
    ExecGrows(w, es, c);
    ExecKeeps(w, es);
    assert Sound(Exec(w, es).world.conns[c]);
  }

  /** No other thread sends, and none did. */
  ghost predicate OnlyLoopThread(w: World) {
    forall c :: !InFlight(w, c)
  }

  lemma OnlyLoopThreadStays(w: World, e: Event)
    requires Inv(w) && OnlyLoopThread(w) && !e.Submit? && Step(w, e).Ok?
    ensures OnlyLoopThread(Step(w, e).world)
    ensures forall c :: !RunsSendFor(w, e, c)
  {
    forall c
      ensures !InFlight(Step(w, e).world, c) && !RunsSendFor(w, e, c)
    {
      assert !InFlight(w, c);
      StaysQuiet(w, e, c);
    }
  }

  ghost predicate NeverLate(w: World) {
    forall c :: c in w.conns ==> w.conns[c].log.lateSends == 0
  }

  lemma NeverLateStays(w: World, e: Event)
    requires Inv(w) && OnlyLoopThread(w) && NeverLate(w) && !e.Submit? && Step(w, e).Ok?
    ensures NeverLate(Step(w, e).world)
  {
    var v := Step(w, e).world;
    OnlyLoopThreadStays(w, e);
    StepKeeps(w, e);
    forall c | c in v.conns
      ensures v.conns[c].log.lateSends == 0
    {
      if c in w.conns {
        StepGrows(w, e, c);
      } else {
        NewNotLate(w, e, c);
      }
    }
  }

  /** A connection that a step adds has no history of sends. */
  lemma NewNotLate(w: World, e: Event, c: nat)
    requires Inv(w) && OnlyLoopThread(w) && Step(w, e).Ok? && c !in w.conns && c in Step(w, e).world.conns
    ensures Step(w, e).world.conns[c].log.lateSends == 0
  {
    if RunsSend(w, e) {
      SendStep(w, e);
    } else {
      StepProceeds(w, e);
      assert c in Prepared(w, e).conns && Prepared(w, e).conns[c].log.lateSends == 0;
      assert ConnProceeds(Prepared(w, e).conns[c], Step(w, e).world.conns[c]);
    }
  }

  lemma {:induction false} LoopThreadRun(w: World, es: seq<Event>)
    requires Inv(w) && OnlyLoopThread(w) && NeverLate(w) && Exec(w, es).Ok? && forall e :: e in es ==> !e.Submit?
    ensures Inv(Exec(w, es).world) && NeverLate(Exec(w, es).world)
    decreases |es|
  {
    if es != [] {
      StepKeeps(w, es[0]);
      NeverLateStays(w, es[0]);
      OnlyLoopThreadStays(w, es[0]);
      LoopThreadRun(Step(w, es[0]).world, es[1..]);
    }
  }

  /**
   * Graceful shutdown of every run in which only the loop thread sends: at most one SHUT_WR, attempted
   * with every accepted byte on the wire, and not a byte written since.
   */
  lemma LoopThreadShutdown(es: seq<Event>, c: nat)
    requires Exec(Initial(), es).Ok? && c in Exec(Initial(), es).world.conns && forall e :: e in es ==> !e.Submit?
    ensures var k := Exec(Initial(), es).world.conns[c];
            && k.log.shuts <= 1
            && (k.log.shuts == 1 ==> k.output == [] && k.log.wire == k.log.shutWire == Stream(k.log.accepted))
  {
    InitialInv();
    LoopThreadRun(Initial(), es);
    assert Sound(Exec(Initial(), es).world.conns[c]);
  }

  /**
   * shutdown() on a connected connection takes effect: SHUT_WR was attempted, or output is pending, or it is closed.
   */
  lemma ShutdownTakesEffect(w: World, c: nat)
    requires Reachable(w) && c in w.conns && w.conns[c].log.asked
    ensures w.conns[c].log.shuts > 0 || w.conns[c].output != [] || w.Dead(c)
  {
    ReachableInv(w);
    assert Sound(w.conns[c]);
  }
}
