/** What is on the wire when SHUT_WR is attempted, whoever sends. */
module DrainedShutdown {
  import opened Epoll
  import opened Connection
  import opened Reactor
  import opened ReactorProofs
  import opened ReactorRuns
  import opened ReactorTheorems
  import opened LateSends

  /** If SHUT_WR was attempted on the way from k to l, all output was written before and nothing since. */
  predicate ShutDrained(k: Conn, l: Conn) {
    && l.log.shuts >= k.log.shuts
    && (l.log.shuts > k.log.shuts ==> Shut(l) && l.output == [] && l.log.shutWire == l.log.wire)
  }

  lemma CallDrained(w: World, call: Call, c: nat)
    requires c in w.conns && Sound(w.conns[c]) && DoCall(w, call).Ok?
    ensures c in DoCall(w, call).world.conns && ShutDrained(w.conns[c], DoCall(w, call).world.conns[c])
  {
    if Shut(w.conns[c]) {
      CallSilent(w, call, c);
    }
  }

  lemma {:induction false} ScriptDrained(w: World, script: seq<Call>, c: nat)
    requires AllSound(w) && c in w.conns && RunScript(w, script).Ok?
    ensures c in RunScript(w, script).world.conns && ShutDrained(w.conns[c], RunScript(w, script).world.conns[c])
    decreases |script|
  {
    if Shut(w.conns[c]) {
      ScriptSilent(w, script, c);
    } else if script != [] {
      var v := DoCall(w, script[0]).world;
      CallDrained(w, script[0], c);
      DoCallEvolves(w, script[0]);
      EvolvesSound(w, v);
      if Shut(v.conns[c]) {
        ScriptSilent(v, script[1..], c);
      } else {
        ScriptDrained(v, script[1..], c);
      }
    }
  }

  lemma CloseDrained(w: World, d: nat, onClose: seq<Call>, c: nat)
    requires Basic(w) && d in w.conns && c in w.conns && CloseConn(w, d, onClose).Ok?
    ensures c in CloseConn(w, d, onClose).world.conns
    ensures ShutDrained(w.conns[c], CloseConn(w, d, onClose).world.conns[c])
  {
    CloseConnProceeds(w, d, onClose);
    ClosedProceeds(w, d);
    ClosedShutsNothing(w, d, c);
    ScriptDrained(Closed(w, d), onClose, c);
    assert CloseConn(w, d, onClose) == RunScript(Closed(w, d), onClose);
  }

  lemma ClosedShutsNothing(w: World, d: nat, c: nat)
    requires d in w.conns && c in w.conns
    ensures c in Closed(w, d).conns && Closed(w, d).conns[c].log.shuts == w.conns[c].log.shuts
  {
  }

  lemma ReadDrained(w: World, d: nat, env: Env, c: nat)
    requires Basic(w) && d in w.conns && c in w.conns && ReadConn(w, d, env).Ok?
    ensures c in ReadConn(w, d, env).world.conns && ShutDrained(w.conns[c], ReadConn(w, d, env).world.conns[c])
  {
    ReadConnProceeds(w, d, env);
    match env.read {
      case Failed(_) =>
      case Got(data) =>
        if data == [] {
          CloseDrained(w, d, env.onClose, c);
        } else {
          ReceiveProceeds(w, d, data);
          ScriptDrained(w.(conns := w.conns[d := Receive(w.conns[d], data)]), env.onMessage, c);
        }
    }
  }

  lemma InputDrained(w: World, d: nat, revents: Mask, env: Env, c: nat)
    requires Basic(w) && d in w.conns && c in w.conns && CloseAndRead(w, d, revents, env).Ok?
    ensures c in CloseAndRead(w, d, revents, env).world.conns
    ensures ShutDrained(w.conns[c], CloseAndRead(w, d, revents, env).world.conns[c])
  {
    CloseAndReadProceeds(w, d, revents, env);
    if HangsUp(revents) {
      CloseDrained(w, d, env.onClose, c);
    } else if Reads(revents) {
      ReadDrained(w, d, env, c);
    }
  }

  lemma FlushDrained(k: Conn, l: Conn, c: nat, wr: WriteResult)
    requires ShutDrained(k, l) && Flush(l, c, wr).Effect?
    ensures ShutDrained(k, Flush(l, c, wr).conn)
  {
  }

  lemma HandleDrained(w: World, env: Env, c: nat)
    requires Inv(w) && w.phase.Handling? && w.phase.active != [] && c in w.conns && Step(w, Handle(env)).Ok?
    ensures c in Step(w, Handle(env)).world.conns
    ensures ShutDrained(w.conns[c], Step(w, Handle(env)).world.conns[c])
  {
    SameConnsBasic(w, Taken(w));
    CloseAndReadProceeds(Taken(w), w.phase.active[0].conn, w.phase.active[0].revents, env);
    DispatchDrained(Taken(w), w.phase.active[0].conn, w.phase.active[0].revents, env, c);
  }

  lemma DispatchDrained(w: World, d: nat, revents: Mask, env: Env, c: nat)
    requires Basic(w) && d in w.conns && c in w.conns && Dispatch(w, d, revents, env).Ok?
    ensures c in Dispatch(w, d, revents, env).world.conns
    ensures ShutDrained(w.conns[c], Dispatch(w, d, revents, env).world.conns[c])
  {
    InputDrained(w, d, revents, env, c);
    InputDrained(w, d, revents, env, d);
    var v := CloseAndRead(w, d, revents, env).world;
    if OUT in revents {
      FlushDrained(w.conns[d], v.conns[d], d, env.write);
    }
  }

  lemma JobDrained(w: World, env: Env, c: nat)
    requires Inv(w) && HasNextJob(w) && c in w.conns && Step(w, RunNext(env)).Ok?
    ensures c in Step(w, RunNext(env)).world.conns
    ensures ShutDrained(w.conns[c], Step(w, RunNext(env)).world.conns[c])
  {
    PoppedInv(w);
    var u, j := Popped(w), w.phase.batch[0];
    if j.SendJob? {
      SendStep(w, RunNext(env));
      SendShutsNothing(w, env, c);
    } else if j.ForceClose? {
      if j.conn in w.conns && w.conns[j.conn].state != Disconnected { CloseDrained(u, j.conn, env.onClose, c); }
    } else {
      ScriptDrained(u, env.onMessage, c);
    }
  }

  lemma SendShutsNothing(w: World, env: Env, c: nat)
    requires RunsSend(w, RunNext(env)) && c in w.conns && Step(w, RunNext(env)).Ok?
    ensures c in Step(w, RunNext(env)).world.conns
    ensures Step(w, RunNext(env)).world.conns[c].log.shuts == w.conns[c].log.shuts
  {
  }

  /** The connection before a step; one that the step adds starts without a history. */
  function Before(w: World, e: Event, c: nat): Conn
    requires c in w.conns || e.Accept?
  {
    if c in w.conns then w.conns[c] else Established(e.onWriteComplete)
  }

  /** Whoever sends: SHUT_WR is attempted only once every accepted byte is on the wire. */
  lemma ShutWhenDrained(w: World, e: Event, c: nat)
    requires Reachable(w) && Step(w, e).Ok? && c in Step(w, e).world.conns && (c in w.conns || e.Accept?)
    ensures var k, l := Before(w, e, c), Step(w, e).world.conns[c];
            l.log.shuts > k.log.shuts ==> l.output == [] && l.log.shutWire == l.log.wire == Stream(l.log.accepted)
  {
    ReachableInv(w);
    StepDrained(w, e, c);
    StepKeeps(w, e);
    assert Sound(Step(w, e).world.conns[c]);
  }

  lemma StepDrained(w: World, e: Event, c: nat)
    requires Inv(w) && Step(w, e).Ok? && c in Step(w, e).world.conns && (c in w.conns || e.Accept?)
    ensures ShutDrained(Before(w, e, c), Step(w, e).world.conns[c])
  {
    match e {
      case Handle(env) =>
        if w.phase.Handling? && w.phase.active != [] { HandleDrained(w, env, c); }
      case Accept(d, onWriteComplete, script) =>
        if w.phase.Handling? && d !in w.conns { AcceptDrained(w, d, onWriteComplete, script, c); }
      case OtherHandler(script) =>
        if w.phase.Handling? { ScriptDrained(w, script, c); }
      case RunNext(env) =>
        if HasNextJob(w) { JobDrained(w, env, c); }
      case _ => QueueStepDrained(w, e, c);
    }
  }

  lemma QueueStepDrained(w: World, e: Event, c: nat)
    requires !e.Handle? && !e.Accept? && !e.OtherHandler? && !e.RunNext?
    requires c in w.conns && Step(w, e).Ok? && c in Step(w, e).world.conns
    ensures Step(w, e).world.conns[c] == w.conns[c]
  {
  }

  lemma AcceptDrained(w: World, d: nat, onWriteComplete: bool, script: seq<Call>, c: nat)
    requires Inv(w) && d !in w.conns && RunScript(Accepted(w, d, onWriteComplete), script).Ok?
    requires c in RunScript(Accepted(w, d, onWriteComplete), script).world.conns
    ensures ShutDrained(if c in w.conns then w.conns[c] else Established(onWriteComplete),
                        RunScript(Accepted(w, d, onWriteComplete), script).world.conns[c])
  {
    var u := Accepted(w, d, onWriteComplete);
    AcceptedInv(w, d, onWriteComplete);
    ScriptKeepsConns(u, script);
    ScriptDrained(u, script, c);
  }
}
