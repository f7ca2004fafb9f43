/**
 * Where the source's own asserts and the graceful shutdown stop holding, and the discipline under which no assert
 * fails.
 */
module ReactorLimits {
  import opened Epoll
  import opened Connection
  import opened Reactor
  import opened ReactorProofs
  import opened ReactorRuns
  import opened ReactorTheorems

  // ---------- no assert fails in a disciplined run ----------

  /** The calls that must not target a closed connection: one fails an assert, the other registers it again. */
  predicate NeedsOpen(call: Call) {
    call.ShutdownWrite? || call.ResumeRead?
  }

  ghost predicate Careful(w: World, script: seq<Call>) {
    forall i :: 0 <= i < |script| && NeedsOpen(script[i]) ==> !w.Dead(script[i].conn)
  }

  /** Closed connections are not registered. */
  ghost predicate Unregistered(w: World) {
    forall c :: w.Dead(c) ==> w.conns[c].events == {}
  }

  /** ... and none is about to be handled; nor is a hang-up that also reads. */
  ghost predicate NoStale(w: World) {
    && Unregistered(w)
    && (w.phase.Handling? ==>
          forall i :: 0 <= i < |w.phase.active| ==>
            && !w.Dead(w.phase.active[i].conn)
            && !(HangsUp(w.phase.active[i].revents) && Reads(w.phase.active[i].revents)))
  }

  lemma DeadCall(w: World, call: Call)
    requires call.conn in w.conns && w.Dead(call.conn) && w.conns[call.conn].events == {} && !NeedsOpen(call)
    requires AllSound(w)
    ensures CallEffect(w, call).Effect? && CallEffect(w, call).conn.events == {}
  {
    assert Sound(w.conns[call.conn]);
  }

  lemma CallFrame(w: World, call: Call, c: nat)
    requires DoCall(w, call).Ok? && c in w.conns
    ensures var v := DoCall(w, call).world;
            c in v.conns && v.conns[c].events
              == (if c == call.conn then CallEffect(w, call).conn.events else w.conns[c].events)
  {
  }

  lemma CallUnregistered(w: World, call: Call)
    requires AllSound(w) && Unregistered(w) && (NeedsOpen(call) ==> !w.Dead(call.conn))
    ensures DoCall(w, call).Ok? && Unregistered(DoCall(w, call).world) && DoCall(w, call).world.phase == w.phase
    ensures AllSound(DoCall(w, call).world)
    ensures forall c :: w.Dead(c) <==> DoCall(w, call).world.Dead(c)
  {
    DoCallEvolves(w, call);
    var v := DoCall(w, call).world;
    EvolvesSound(w, v);
    if w.Dead(call.conn) {
      DeadCall(w, call);
    }
    forall c | v.Dead(c)
      ensures v.conns[c].events == {}
    {
      CallFrame(w, call, c);
    }
  }

  lemma {:induction false} ScriptUnregistered(w: World, script: seq<Call>)
    requires AllSound(w) && Unregistered(w) && Careful(w, script)
    ensures RunScript(w, script).Ok? && RunScript(w, script).world.phase == w.phase
    ensures Unregistered(RunScript(w, script).world)
    ensures forall c :: w.Dead(c) <==> RunScript(w, script).world.Dead(c)
    decreases |script|
  {
    if script != [] {
      CallUnregistered(w, script[0]);
      var v := DoCall(w, script[0]).world;
      assert forall i :: 0 <= i < |script| - 1 ==> script[1..][i] == script[i + 1];
      ScriptUnregistered(v, script[1..]);
    }
  }

  /** What a careful handler of c leaves: at most c is newly closed, and nothing closed is registered. */
  ghost predicate Tidy(w: World, o: Outcome, c: nat) {
    o.Ok? && Unregistered(o.world) && o.world.phase == w.phase && forall d :: o.world.Dead(d) ==> d == c || w.Dead(d)
  }

  lemma ClosedUnregistered(w: World, c: nat)
    requires Unregistered(w) && c in w.conns && w.conns[c].Alive() && Closed(w, c).Dead(c)
    ensures Unregistered(Closed(w, c)) && Closed(w, c).phase == w.phase
    ensures forall d :: Closed(w, c).Dead(d) ==> d == c || w.Dead(d)
  {
  }

  lemma CloseTidy(w: World, c: nat, onClose: seq<Call>)
    requires Basic(w) && Unregistered(w) && c in w.conns && w.conns[c].Alive() && Careful(Closed(w, c), onClose)
    ensures Tidy(w, CloseConn(w, c, onClose), c)
  {
    ClosedProceeds(w, c);
    ClosedUnregistered(w, c);
    ScriptUnregistered(Closed(w, c), onClose);
  }

  lemma ReadTidy(w: World, c: nat, env: Env)
    requires Basic(w) && Unregistered(w) && c in w.conns && w.conns[c].Alive()
    requires Careful(w, env.onMessage) && Careful(Closed(w, c), env.onClose)
    ensures Tidy(w, ReadConn(w, c, env), c)
  {
    match env.read {
      case Failed(_) =>
      case Got(data) =>
        if data == [] {
          CloseTidy(w, c, env.onClose);
        } else {
          ReceiveProceeds(w, c, data);
          ScriptUnregistered(w.(conns := w.conns[c := Receive(w.conns[c], data)]), env.onMessage);
        }
    }
  }

  lemma CloseAndReadTidy(w: World, c: nat, revents: Mask, env: Env)
    requires Basic(w) && Unregistered(w) && c in w.conns && w.conns[c].Alive()
    requires Careful(w, env.onMessage) && Careful(Closed(w, c), env.onClose)
    requires !(HangsUp(revents) && Reads(revents))
    ensures Tidy(w, CloseAndRead(w, c, revents, env), c)
  {
    if HangsUp(revents) {
      CloseTidy(w, c, env.onClose);
    } else if Reads(revents) {
      ReadTidy(w, c, env);
    }
  }

  lemma FlushTidy(w: World, c: nat, wr: WriteResult)
    requires Unregistered(w) && c in w.conns && Flush(w.conns[c], c, wr).Effect?
    ensures var o := Apply(w, c, Flush(w.conns[c], c, wr));
            o.Ok? && Unregistered(o.world) && o.world.phase == w.phase && forall d :: o.world.Dead(d) <==> w.Dead(d)
  {
  }

  lemma DispatchTidy(w: World, c: nat, revents: Mask, env: Env)
    requires Basic(w) && Unregistered(w) && c in w.conns && w.conns[c].Alive()
    requires OUT in revents ==> w.conns[c].Writing()
    requires Careful(w, env.onMessage) && Careful(Closed(w, c), env.onClose)
    requires !(HangsUp(revents) && Reads(revents))
    ensures Tidy(w, Dispatch(w, c, revents, env), c)
  {
    CloseAndReadTidy(w, c, revents, env);
    CloseAndReadProceeds(w, c, revents, env);
    var o := CloseAndRead(w, c, revents, env);
    if OUT in revents {
      assert KeepsWriting(w.conns[c], o.world.conns[c]);
      FlushProceeds(o.world, c, env.write);
      FlushTidy(o.world, c, env.write);
    }
  }

  lemma TidyNoStale(w: World, v: World, c: nat)
    requires NoStale(w) && v.phase == w.phase && Unregistered(v)
    requires forall d :: v.Dead(d) ==> d == c || w.Dead(d)
    requires w.phase.Handling? ==> forall i :: 0 <= i < |w.phase.active| ==> w.phase.active[i].conn != c
    ensures NoStale(v)
  {
  }

  ghost predicate CarefulJob(w: World, j: Job, env: Env) {
    match j
    case SendJob(_, _) => true
    case ForceClose(c) => c in w.conns ==> Careful(Closed(w, c), env.onClose)
    case _ => Careful(w, env.onMessage)
  }

  /** What clients and kernel must respect in one step for the asserts of the source to hold. */
  ghost predicate Disciplined(w: World, e: Event) {
    match e
    case PollReturns(active) =>
      forall i :: 0 <= i < |active| ==> !(HangsUp(active[i].revents) && Reads(active[i].revents))
    case Handle(env) =>
      w.phase.Handling? && w.phase.active != [] && w.phase.active[0].conn in w.conns ==>
        Careful(w, env.onMessage) && Careful(Closed(w, w.phase.active[0].conn), env.onClose)
    case Accept(_, _, script) => Careful(w, script)
    case OtherHandler(script) => Careful(w, script)
    case RunNext(env) =>
      w.phase.Running? && w.phase.batch != [] ==>
        CarefulJob(w, w.phase.batch[0], env)
    case _ => true
  }

  lemma CarefulTaken(w: World, c: nat, script: seq<Call>)
    requires w.phase.Handling? && w.phase.active != [] && c in w.conns
    ensures Careful(w, script) ==> Careful(Taken(w), script)
    ensures Careful(Closed(w, c), script) ==> Careful(Closed(Taken(w), c), script)
  {
    assert forall d :: w.Dead(d) <==> Taken(w).Dead(d);
    assert forall d :: Closed(w, c).Dead(d) <==> Closed(Taken(w), c).Dead(d);
  }

  lemma TakenNoStale(w: World)
    requires NoStale(w) && w.phase.Handling? && w.phase.active != []
    ensures NoStale(Taken(w))
  {
    assert forall d :: w.Dead(d) <==> Taken(w).Dead(d);
  }

  lemma HandlerDisciplined(u: World, c: nat, revents: Mask, env: Env)
    requires Basic(u) && NoStale(u) && c in u.conns && u.conns[c].Alive()
    requires OUT in revents ==> u.conns[c].Writing()
    requires Careful(u, env.onMessage) && Careful(Closed(u, c), env.onClose)
    requires !(HangsUp(revents) && Reads(revents))
    requires u.phase.Handling? ==> forall i :: 0 <= i < |u.phase.active| ==> u.phase.active[i].conn != c
    ensures Dispatch(u, c, revents, env).Ok? && NoStale(Dispatch(u, c, revents, env).world)
  {
    DispatchTidy(u, c, revents, env);
    DispatchProceeds(u, c, revents, env);
    TidyNoStale(u, Dispatch(u, c, revents, env).world, c);
  }

  lemma HandleDisciplined(w: World, env: Env)
    requires Basic(w) && ActiveAgrees(w) && NoStale(w) && Disciplined(w, Handle(env))
    requires w.phase.Handling? && w.phase.active != []
    ensures Step(w, Handle(env)).Ok? && NoStale(Step(w, Handle(env)).world)
  {
    var r := w.phase.active[0];
    assert r.conn in w.conns && !w.Dead(r.conn);
    CarefulTaken(w, r.conn, env.onMessage);
    CarefulTaken(w, r.conn, env.onClose);
    TakenNoStale(w);
    HandlerDisciplined(Taken(w), r.conn, r.revents, env);
  }

  lemma SendTidy(w: World, c: nat, p: Payload, wr: WriteResult)
    requires Unregistered(w) && c in w.conns && Sound(w.conns[c])
    ensures var o := Apply(w, c, SendInLoop(w.conns[c], c, p, wr));
            o.Ok? && Unregistered(o.world) && o.world.phase == w.phase
  {
    QueuedSend(w.conns[c], c, p, wr);
  }

  lemma JobTidy(w: World, j: Job, env: Env)
    requires Basic(w) && Unregistered(w) && w.phase.Running? && CarefulJob(w, j, env)
    ensures RunJob(w, j, env).Ok? && Unregistered(RunJob(w, j, env).world) && RunJob(w, j, env).world.phase.Running?
  {
    match j {
      case SendJob(c, p) =>
        if c in w.conns { SendTidy(w, c, p, env.write); }
      case ForceClose(c) =>
        if c in w.conns && w.conns[c].Alive() {
          CloseTidy(w, c, env.onClose);
        }
      case _ =>
        ScriptUnregistered(w, env.onMessage);
    }
  }

  lemma RunNextDisciplined(w: World, env: Env)
    requires Inv(w) && NoStale(w) && Disciplined(w, RunNext(env)) && w.phase.Running? && w.phase.batch != []
    ensures Step(w, RunNext(env)).Ok? && NoStale(Step(w, RunNext(env)).world)
  {
    var u, j := Popped(w), w.phase.batch[0];
    assert forall d :: w.Dead(d) <==> u.Dead(d);
    assert CarefulJob(u, j, env) by {
      if j.ForceClose? && j.conn in w.conns {
        assert forall d :: Closed(w, j.conn).Dead(d) <==> Closed(u, j.conn).Dead(d);
      }
    }
    JobTidy(u, j, env);
  }

  lemma AcceptDisciplined(w: World, c: nat, onWriteComplete: bool, script: seq<Call>)
    requires Inv(w) && NoStale(w) && Careful(w, script) && w.phase.Handling? && c !in w.conns
    ensures var o := RunScript(Accepted(w, c, onWriteComplete), script); o.Ok? && NoStale(o.world)
  {
    var u := Accepted(w, c, onWriteComplete);
    assert forall d :: w.Dead(d) <==> u.Dead(d);
    EstablishedSound(onWriteComplete);
    ScriptUnregistered(u, script);
    TidyNoStale(u, RunScript(u, script).world, c);
  }

  lemma StepDisciplined(w: World, e: Event)
    requires Inv(w) && NoStale(w) && Disciplined(w, e)
    ensures Step(w, e).Ok? && NoStale(Step(w, e).world)
  {
    match e {
      case Handle(env) =>
        if w.phase.Handling? && w.phase.active != [] { HandleDisciplined(w, env); }
      case Accept(c, onWriteComplete, script) =>
        if w.phase.Handling? && c !in w.conns { AcceptDisciplined(w, c, onWriteComplete, script); }
      case OtherHandler(script) =>
        ScriptUnregistered(w, script);
        ScriptKeeps(w, script);
      case RunNext(env) =>
        if w.phase.Running? && w.phase.batch != [] { RunNextDisciplined(w, env); }
      case _ =>
    }
  }

  ghost predicate DisciplinedRun(w: World, es: seq<Event>)
    decreases |es|
  {
    es != [] ==> Disciplined(w, es[0]) && (Step(w, es[0]).Ok? ==> DisciplinedRun(Step(w, es[0]).world, es[1..]))
  }

  /** No assert of the source fails in a run that respects the discipline. */
  lemma {:induction false} DisciplinedRunsSucceed(w: World, es: seq<Event>)
    requires Inv(w) && NoStale(w) && DisciplinedRun(w, es)
    ensures Exec(w, es).Ok? && Inv(Exec(w, es).world) && NoStale(Exec(w, es).world)
    decreases |es|
  {
    if es != [] {
      StepDisciplined(w, es[0]);
      StepKeeps(w, es[0]);
      DisciplinedRunsSucceed(Step(w, es[0]).world, es[1..]);
    }
  }

  // ---------- and without it ----------

  /**
   * An open connection whose callbacks are careful: handling its events fails an assert exactly when
   * it hangs up without EPOLLIN yet also reads, whatever the kernel and the client do next.
   */
  lemma HangUpThatReads(w: World, env: Env)
    requires Inv(w) && w.phase.Handling? && w.phase.active != []
    requires var c := w.phase.active[0].conn;
             c in w.conns && w.conns[c].Alive() && Careful(w, env.onMessage) && Careful(Closed(w, c), env.onClose)
    ensures var revents := w.phase.active[0].revents;
            Step(w, Handle(env)).Aborted? <==> HangsUp(revents) && Reads(revents)
  {
    HandleKeeps(w, env);
    var c := w.phase.active[0].conn;
    CarefulTaken(w, c, env.onMessage);
    CarefulTaken(w, c, env.onClose);
    CarefulIsNoMisuse(Taken(w), env.onMessage);
    CarefulIsNoMisuse(Closed(Taken(w), c), env.onClose);
  }

  lemma CarefulIsNoMisuse(w: World, script: seq<Call>)
    requires Careful(w, script)
    ensures !Misuses(w, script)
  {
  }

  /** A new connection, the loop at a given place, and no job ever. */
  function OneConn(phase: Phase): World {
    World(map[0 := Established(false)], {0}, phase, [], [], [], map[], map[])
  }

  const HUNG: Ready := Ready(0, {HUP, PRI})

  const POLLED: seq<Event> := [PollReturns([]), Accept(0, false, []), SwapJobs, EndJobs]

  lemma NewConnPolled()
    ensures Exec(Initial(), POLLED) == Ok(OneConn(Polling))
  {
    var w := Initial().(phase := Handling([]));
    assert Step(w, Accept(0, false, [])) == Ok(OneConn(Handling([])));
    ExecStep(Initial(), POLLED);
    ExecStep(w, [Accept(0, false, []), SwapJobs, EndJobs]);
    ExecStep(OneConn(Handling([])), [SwapJobs, EndJobs]);
    ExecStep(OneConn(Running([])), [EndJobs]);
  }

  /** A run to a hang-up that also reads, and to its failed assert, whatever the kernel and the client do then. */
  lemma HangUpFailsAssert(env: Env)
    requires Careful(Closed(OneConn(Handling([HUNG])), 0), env.onClose)
    requires Careful(OneConn(Handling([HUNG])), env.onMessage)
    ensures Exec(Initial(), POLLED + [PollReturns([HUNG]), Handle(env)]).Aborted?
  {
    HungReached();
    HangUpThatReads(OneConn(Handling([HUNG])), env);
    NewConnPolled();
    ExecAppend(Initial(), POLLED, [PollReturns([HUNG]), Handle(env)]);
    ExecStep(OneConn(Polling), [PollReturns([HUNG]), Handle(env)]);
  }

  lemma HungReached()
    ensures Step(OneConn(Polling), PollReturns([HUNG])) == Ok(OneConn(Handling([HUNG])))
    ensures Inv(OneConn(Handling([HUNG])))
  {
    NewConnPolled();
    InitialInv();
    ExecKeeps(Initial(), POLLED);
    assert Pollable(OneConn(Polling), [HUNG]);
    StepKeeps(OneConn(Polling), PollReturns([HUNG]));
  }
}
