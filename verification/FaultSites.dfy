/** Which assert a step fails, when it fails one. */
module FaultSites {
  import opened Epoll
  import opened Connection
  import opened Reactor
  import opened ReactorProofs
  import opened ReactorRuns

  /**
   * A closed connection's events fail in the first callback that runs; an open one's in the read callback after a
   * hang-up, unless a client shut down a closed connection before that.
   */
  ghost function DispatchSite(w: World, c: nat, revents: Mask, env: Env): Site
    requires c in w.conns
  {
    if w.Dead(c) then (if HangsUp(revents) then CloseWhenClosed else ReadWhenClosed)
    else if HangsUp(revents) && !Misuses(Closed(w, c), env.onClose) then ReadWhenClosed
    else ShutdownWhenClosed
  }

  ghost function StepSite(w: World, e: Event): Site {
    if e.Handle? && w.phase.Handling? && w.phase.active != [] && w.phase.active[0].conn in w.conns
    then DispatchSite(Taken(w), w.phase.active[0].conn, w.phase.active[0].revents, e.env)
    else ShutdownWhenClosed
  }

  lemma CloseFailsAt(w: World, c: nat, onClose: seq<Call>)
    requires Basic(w) && c in w.conns && CloseConn(w, c, onClose).Aborted?
    ensures CloseConn(w, c, onClose).site == if w.Dead(c) then CloseWhenClosed else ShutdownWhenClosed
  {
    if !w.Dead(c) {
      ClosedProceeds(w, c);
      ScriptEvolves(Closed(w, c), onClose);
      assert CloseConn(w, c, onClose) == RunScript(Closed(w, c), onClose);
    }
  }

  lemma ReadFailsAt(w: World, c: nat, env: Env)
    requires Basic(w) && c in w.conns && ReadConn(w, c, env).Aborted?
    ensures ReadConn(w, c, env).site == if w.Dead(c) then ReadWhenClosed else ShutdownWhenClosed
  {
    if !w.Dead(c) && env.read.Got? {
      if env.read.data == [] {
        CloseFailsAt(w, c, env.onClose);
      } else {
        ReceiveProceeds(w, c, env.read.data);
        ScriptEvolves(w.(conns := w.conns[c := Receive(w.conns[c], env.read.data)]), env.onMessage);
      }
    }
  }

  lemma InputFailsAt(w: World, c: nat, revents: Mask, env: Env)
    requires Basic(w) && c in w.conns && CloseAndRead(w, c, revents, env).Aborted?
    ensures CloseAndRead(w, c, revents, env).site == DispatchSite(w, c, revents, env)
  {
    if HangsUp(revents) {
      CloseConnProceeds(w, c, env.onClose);
      var o := CloseConn(w, c, env.onClose);
      if o.Aborted? {
        CloseFailsAt(w, c, env.onClose);
      } else {
        ReadFailsAt(o.world, c, env);
      }
    } else {
      ReadFailsAt(w, c, env);
    }
  }

  lemma DispatchFailsAt(w: World, c: nat, revents: Mask, env: Env)
    requires Basic(w) && c in w.conns && Dispatch(w, c, revents, env).Aborted?
    requires OUT in revents ==> w.conns[c].Writing() || w.Dead(c)
    ensures Dispatch(w, c, revents, env).site == DispatchSite(w, c, revents, env)
  {
    DispatchProceeds(w, c, revents, env);
    CloseAndReadProceeds(w, c, revents, env);
    InputFailsAt(w, c, revents, env);
  }

  lemma HandleFailsAt(w: World, env: Env)
    requires Inv(w) && w.phase.Handling? && w.phase.active != [] && Step(w, Handle(env)).Aborted?
    ensures Step(w, Handle(env)).site == StepSite(w, Handle(env))
  {
    var r := w.phase.active[0];
    SameConnsBasic(w, Taken(w));
    assert r.conn in w.conns && (OUT in r.revents ==> w.conns[r.conn].Writing() || w.Dead(r.conn));
    DispatchFailsAt(Taken(w), r.conn, r.revents, env);
  }

  lemma JobFailsAt(w: World, j: Job, env: Env)
    requires Basic(w) && RunJob(w, j, env).Aborted?
    ensures RunJob(w, j, env).site == ShutdownWhenClosed
  {
    match j {
      case SendJob(c, p) => QueuedSend(w.conns[c], c, p, env.write);
      case ForceClose(c) =>
        assert Sound(w.conns[c]);
        CloseFailsAt(w, c, env.onClose);
      case _ => ScriptEvolves(w, env.onMessage);
    }
  }

  /** A step that fails an assert fails this one: there is no other that it could be. */
  lemma FailsExactlyAt(w: World, e: Event)
    requires Inv(w) && Step(w, e).Aborted?
    ensures Step(w, e).site == StepSite(w, e)
  {
    match e {
      case Handle(env) => HandleFailsAt(w, env);
      case Accept(c, onWriteComplete, script) =>
        AcceptedInv(w, c, onWriteComplete);
        ScriptEvolves(Accepted(w, c, onWriteComplete), script);
      case OtherHandler(script) => ScriptEvolves(w, script);
      case RunNext(env) =>
        SameConnsBasic(w, Popped(w));
        JobFailsAt(Popped(w), w.phase.batch[0], env);
      case _ => QueueStepKeeps(w, e);
    }
  }
}
