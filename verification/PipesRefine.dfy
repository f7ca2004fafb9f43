/** The reactor does what the pipes do, over every run. */
module PipesRefine {
  import opened Common
  import opened Epoll
  import opened Connection
  import opened Reactor
  import opened ReactorProofs
  import opened ReactorRuns
  import opened Pipes

  function PipeOf(k: Conn): Pipe {
    Pipe(k.state, k.events, k.input, k.log.got, k.output, k.log.wire, k.log.accepted, k.log.lost,
         k.log.asked, k.log.shuts, k.highWater, k.onWriteComplete, k.log.ups, k.log.downs)
  }

  function BookOf(w: World): Book {
    Book(map c | c in w.conns :: PipeOf(w.conns[c]), w.server, w.phase, w.pending, w.pushed, w.ran, w.submitting,
         w.submitted)
  }

  // ---------- connections ----------

  /** sendInLoop hands the kernel a payload as far as it takes it, and keeps the rest behind what waits already. */
  lemma OfferRefines(k: Conn, c: nat, payload: Payload, wr: WriteResult)
    requires Sound(k) && k.Alive()
    ensures var e := SendInLoop(k, c, payload, wr);
            e.Effect? && Offer(PipeOf(k), c, payload, wr) == (PipeOf(e.conn), e.jobs)
  {
    if k.Writing() {
      OfferWaits(k, c, payload, wr);
    } else if !wr.BrokenPipe? {
      OfferWrites(k, c, payload, wr);
    }
  }

  lemma OfferWaits(k: Conn, c: nat, payload: Payload, wr: WriteResult)
    requires Sound(k) && k.Alive() && k.Writing()
    ensures var e := SendInLoop(k, c, payload, wr);
            e.Effect? && Offer(PipeOf(k), c, payload, wr) == (PipeOf(e.conn), e.jobs)
  {
    assert payload.data[0..] == payload.data && payload.data[..0] == [];
    assert k.output + [] == k.output && k.log.wire + [] == k.log.wire && k.events + {OUT} == k.events;
  }

  lemma OfferWrites(k: Conn, c: nat, payload: Payload, wr: WriteResult)
    requires Sound(k) && k.Alive() && !k.Writing() && !wr.BrokenPipe?
    ensures var e := SendInLoop(k, c, payload, wr);
            e.Effect? && Offer(PipeOf(k), c, payload, wr) == (PipeOf(e.conn), e.jobs)
  {
    if wr.Taken(|payload.data|) == |payload.data| {
      OfferWritesAll(k, c, payload, wr);
    } else {
      OfferWritesPart(k, c, payload, wr);
    }
  }

  lemma OfferWritesAll(k: Conn, c: nat, payload: Payload, wr: WriteResult)
    requires k.Alive() && !k.Writing() && k.output == [] && !wr.BrokenPipe?
    requires wr.Taken(|payload.data|) == |payload.data|
    ensures var e := SendInLoop(k, c, payload, wr);
            e.Effect? && Offer(PipeOf(k), c, payload, wr) == (PipeOf(e.conn), e.jobs)
  {
    var data := payload.data;
    assert data[|data|..] == [] && k.output + [] == k.output;
    assert Amount(wr, |data|) == |data|;
    assert !(PipeOf(k).buffer == [] && wr == BrokenPipe);
    if !wr.Wrote? {
      assert Warning(PipeOf(k), c, 0) == [];
    }
  }

  lemma OfferWritesPart(k: Conn, c: nat, payload: Payload, wr: WriteResult)
    requires k.Alive() && !k.Writing() && k.output == [] && !wr.BrokenPipe?
    requires wr.Taken(|payload.data|) < |payload.data|
    ensures var e := SendInLoop(k, c, payload, wr);
            e.Effect? && Offer(PipeOf(k), c, payload, wr) == (PipeOf(e.conn), e.jobs)
  {
    var rest := payload.data[wr.Taken(|payload.data|)..];
    assert k.output + rest == rest && rest != [];
  }

  /** handleWrite takes from the output what the kernel took, in order, and no more. */
  lemma DrainRefines(k: Conn, c: nat, wr: WriteResult)
    requires Sound(k) && k.Alive() && k.Writing()
    ensures var e := Flush(k, c, wr);
            e.Effect? && Drain(PipeOf(k), c, wr) == (PipeOf(e.conn), e.jobs)
  {
  }

  /** What leaves the output of an open connection is what the kernel took, from its front, and it goes to the wire. */
  lemma FlushTakes(k: Conn, c: nat, wr: WriteResult)
    requires Sound(k) && k.Alive() && k.Writing()
    ensures var l, n := Flush(k, c, wr).conn, Amount(wr, |k.output|);
            && k.output[..n] + l.output == k.output && l.log.wire == k.log.wire + k.output[..n]
            && l.log.accepted == k.log.accepted && l.log.lost == k.log.lost
  {
    DrainRefines(k, c, wr);
    var n := Amount(wr, |k.output|);
    assert k.output[..n] + k.output[n..] == k.output;
  }

  /**
   * A payload that reaches an open connection is accepted: what the kernel takes at once is on the wire, the rest
   * waits behind what waited before. Only a write to a broken pipe loses it, and all of it.
   */
  lemma SendTakes(k: Conn, c: nat, payload: Payload, wr: WriteResult)
    requires Sound(k) && k.Alive()
    ensures var e, data := SendInLoop(k, c, payload, wr), payload.data;
            && e.Effect?
            && (if k.output == [] && wr.BrokenPipe?
                then e.conn.log.accepted == k.log.accepted && e.conn.log.lost == k.log.lost + |data|
                     && e.conn.log.wire == k.log.wire && e.conn.output == []
                else
                  var n := if k.output == [] then Amount(wr, |data|) else 0;
                  && e.conn.log.accepted == k.log.accepted + [payload] && e.conn.log.lost == k.log.lost
                  && e.conn.log.wire == k.log.wire + data[..n] && e.conn.output == k.output + data[n..])
  {
    OfferRefines(k, c, payload, wr);
  }

  // ---------- books ----------

  lemma ApplyBook(w: World, c: nat, e: Effect)
    requires c in w.conns && e.Effect?
    ensures BookOf(Apply(w, c, e).world) == Post(BookOf(w), c, (PipeOf(e.conn), e.jobs))
  {
    ReplaceBook(w, c, e.conn);
  }

  lemma ReplaceBook(w: World, c: nat, k: Conn)
    ensures BookOf(w.(conns := w.conns[c := k])) == Replaced(BookOf(w), c, PipeOf(k))
  {
  }

  lemma SamePost(b: Book, c: nat)
    requires c in b.pipes
    ensures Post(b, c, (b.pipes[c], [])) == b
  {
    assert b.pipes[c := b.pipes[c]] == b.pipes && b.waiting + [] == b.waiting && b.pushed + [] == b.pushed;
  }

  // ---------- client calls ----------

  lemma SendRefines(w: World, c: nat, data: seq<byte>, wr: WriteResult)
    requires AllSound(w) && c in w.conns
    ensures var e := Send(w.conns[c], c, data, wr); var b := BookOf(w);
            && e.Effect?
            && BookOf(Apply(w, c, e).world)
               == if b.pipes[c].state == Connected then Post(b, c, Offer(b.pipes[c], c, Direct(data), wr)) else b
  {
    ApplyBook(w, c, Send(w.conns[c], c, data, wr));
    if w.conns[c].state == Connected {
      OfferRefines(w.conns[c], c, Direct(data), wr);
    } else {
      SamePost(BookOf(w), c);
    }
  }

  /** A send() of the loop thread: given up unless connected, and then accepted, or lost to a broken pipe. */
  lemma SendDataExactly(w: World, c: nat, data: seq<byte>, wr: WriteResult)
    requires AllSound(w) && c in w.conns
    ensures var o := DoCall(w, SendData(c, data, wr));
            && o.Ok? && c in o.world.conns
            && var k, l := w.conns[c], o.world.conns[c];
               if k.state != Connected then l == k
               else if k.output == [] && wr.BrokenPipe?
               then l.log.accepted == k.log.accepted && l.log.lost == k.log.lost + |data|
               else l.log.accepted == k.log.accepted + [Direct(data)] && l.log.lost == k.log.lost
  {
    if w.conns[c].state == Connected {
      SendTakes(w.conns[c], c, Direct(data), wr);
    }
  }

  lemma SendInputRefines(w: World, call: Call)
    requires AllSound(w) && call.SendInput? && call.conn in w.conns
    ensures DoCall(w, call).Ok? && BookOf(DoCall(w, call).world) == Called(BookOf(w), call)
  {
    var SendInput(c, from, wr) := call;
    if from in w.conns {
      SendRefines(w, c, w.conns[from].input, wr);
      var v := Apply(w, c, Send(w.conns[c], c, w.conns[from].input, wr)).world;
      ReplaceBook(v, from, v.conns[from].(input := []));
    } else {
      NothingApplied(w, c);
    }
  }

  lemma ControlRefines(w: World, call: Call)
    requires AllSound(w) && call.conn in w.conns && !call.SendInput? && !call.SendData? && DoCall(w, call).Ok?
    ensures BookOf(DoCall(w, call).world) == Called(BookOf(w), call)
  {
    ApplyBook(w, call.conn, CallEffect(w, call));
    if call.ShutdownWrite? || call.CloseSoon? {
      SamePost(BookOf(w), call.conn);
      EndingRefines(w.conns[call.conn], call.conn);
    } else {
      SettingRefines(w, call);
    }
  }

  lemma EndingRefines(k: Conn, c: nat)
    requires Sound(k)
    ensures k.state == Connected ==>
              Shutdown(k).Effect? && Shutdown(k).jobs == []
              && PipeOf(Shutdown(k).conn) == Ending(PipeOf(k))
    ensures k.state == Disconnecting ==> Shutdown(k) == Effect(k, [])
    ensures k.state == Disconnected ==> RequestClose(k, c) == Effect(k, [])
    ensures k.state != Disconnected ==>
              RequestClose(k, c).Effect? && RequestClose(k, c).jobs == [ForceClose(c)]
              && PipeOf(RequestClose(k, c).conn) == PipeOf(k).(state := Disconnecting)
  {
  }

  lemma SettingRefines(w: World, call: Call)
    requires call.conn in w.conns && CallEffect(w, call).Effect?
    requires call.PauseRead? || call.ResumeRead? || call.MarkHighWater? || call.DiscardInput? || call.QueueTask?
    ensures Post(BookOf(w), call.conn, (PipeOf(CallEffect(w, call).conn), CallEffect(w, call).jobs))
            == Called(BookOf(w), call)
  {
    assert w.pending + [] == w.pending && w.pushed + [] == w.pushed;
    if call.ResumeRead? {
      SamePost(BookOf(w), call.conn);
    } else if call.QueueTask? {
      assert BookOf(w).pipes[call.conn := BookOf(w).pipes[call.conn]] == BookOf(w).pipes;
    } else if call.DiscardInput? {
      var input := w.conns[call.conn].input;
      assert input[|input|..] == [];
    } else if call.PauseRead? {
      assert IN !in w.conns[call.conn].events ==> w.conns[call.conn].events - {IN} == w.conns[call.conn].events;
    }
  }

  /** Each client call does to a connection what it does to the pipe. */
  lemma CallRefines(w: World, call: Call)
    requires AllSound(w) && DoCall(w, call).Ok?
    ensures BookOf(DoCall(w, call).world) == Called(BookOf(w), call)
  {
    if call.conn in w.conns {
      match call {
        case SendData(c, data, wr) => SendRefines(w, c, data, wr);
        case SendInput(_, _, _) => SendInputRefines(w, call);
        case _ => ControlRefines(w, call);
      }
    }
  }

  lemma {:induction false} ScriptRefines(w: World, script: seq<Call>)
    requires AllSound(w) && RunScript(w, script).Ok?
    ensures BookOf(RunScript(w, script).world) == CalledAll(BookOf(w), script)
    decreases |script|
  {
    if script != [] {
      CallRefines(w, script[0]);
      DoCallEvolves(w, script[0]);
      EvolvesSound(w, DoCall(w, script[0]).world);
      ScriptRefines(DoCall(w, script[0]).world, script[1..]);
    }
  }

  // ---------- handlers ----------

  lemma ClosedBook(w: World, c: nat)
    requires Basic(w) && c in w.conns && w.conns[c].Alive()
    ensures BookOf(Closed(w, c)) == Removed(BookOf(w), c)
  {
    assert Sound(w.conns[c]);
    CloseBook(w, c);
  }

  lemma CloseBook(w: World, c: nat)
    requires c in w.conns && w.conns[c].Alive() && w.conns[c].events != {}
    ensures BookOf(Closed(w, c)) == Removed(BookOf(w), c)
  {
    ReplaceBook(w, c, Close(w.conns[c]).conn);
  }

  lemma CloseRefines(w: World, c: nat, onClose: seq<Call>)
    requires Basic(w) && c in w.conns && CloseConn(w, c, onClose).Ok?
    ensures BookOf(CloseConn(w, c, onClose).world) == Ended(BookOf(w), c, onClose)
  {
    ClosedRuns(w, c, onClose);
    ClosedBook(w, c);
    ClosedScript(Closed(w, c), Removed(BookOf(w), c), onClose);
  }

  lemma ClosedScript(v: World, b: Book, script: seq<Call>)
    requires AllSound(v) && BookOf(v) == b && RunScript(v, script).Ok?
    ensures BookOf(RunScript(v, script).world) == CalledAll(b, script)
  {
    ScriptRefines(v, script);
  }

  lemma ClosedRuns(w: World, c: nat, onClose: seq<Call>)
    requires Basic(w) && c in w.conns && CloseConn(w, c, onClose).Ok?
    ensures w.conns[c].Alive() && AllSound(Closed(w, c)) && CloseConn(w, c, onClose) == RunScript(Closed(w, c), onClose)
  {
    CloseConnProceeds(w, c, onClose);
    ClosedProceeds(w, c);
  }

  lemma MessageRefines(w: World, c: nat, data: seq<byte>, onMessage: seq<Call>)
    requires Basic(w) && c in w.conns && w.conns[c].Alive()
    requires RunScript(w.(conns := w.conns[c := Receive(w.conns[c], data)]), onMessage).Ok?
    ensures var p := BookOf(w).pipes[c];
            BookOf(RunScript(w.(conns := w.conns[c := Receive(w.conns[c], data)]), onMessage).world)
            == CalledAll(Replaced(BookOf(w), c, p.(input := p.input + data, got := p.got + data)), onMessage)
  {
    ReceiveProceeds(w, c, data);
    ReplaceBook(w, c, Receive(w.conns[c], data));
    ScriptRefines(w.(conns := w.conns[c := Receive(w.conns[c], data)]), onMessage);
  }

  lemma ReadRefines(w: World, c: nat, env: Env)
    requires Basic(w) && c in w.conns && ReadConn(w, c, env).Ok?
    ensures BookOf(ReadConn(w, c, env).world) == Pipes.Read(BookOf(w), c, env)
  {
    match env.read {
      case Failed(_) =>
      case Got(data) =>
        assert Sound(w.conns[c]);
        if data == [] {
          CloseRefines(w, c, env.onClose);
        } else {
          MessageRefines(w, c, data, env.onMessage);
        }
    }
  }

  lemma InputRefines(w: World, c: nat, revents: Mask, env: Env)
    requires Basic(w) && c in w.conns && CloseAndRead(w, c, revents, env).Ok?
    ensures BookOf(CloseAndRead(w, c, revents, env).world) == Entered(BookOf(w), c, revents, env)
  {
    ReadsMask(revents);
    if HangsUp(revents) {
      CloseConnProceeds(w, c, env.onClose);
      CloseRefines(w, c, env.onClose);
      if Reads(revents) {
        ReadConnProceeds(CloseConn(w, c, env.onClose).world, c, env);
      }
    } else if Reads(revents) {
      ReadRefines(w, c, env);
    }
  }

  lemma ReadsMask(revents: Mask)
    ensures Reads(revents) <==> revents * {IN, PRI, RDHUP} != {}
  {
    if Reads(revents) {
      var e :| e in revents && (e == IN || e == PRI || e == RDHUP);
      assert e in revents * {IN, PRI, RDHUP};
    }
  }

  lemma FlushRefines(w: World, c: nat, wr: WriteResult)
    requires AllSound(w) && c in w.conns && (w.conns[c].Writing() || w.Dead(c))
    ensures var o := Apply(w, c, Flush(w.conns[c], c, wr)); var p := BookOf(w).pipes[c];
            && o.Ok?
            && BookOf(o.world) == if p.state != Disconnected then Post(BookOf(w), c, Drain(p, c, wr)) else BookOf(w)
  {
    assert Sound(w.conns[c]);
    FlushSound(w.conns[c], c, wr);
    ApplyBook(w, c, Flush(w.conns[c], c, wr));
    if w.conns[c].Alive() {
      DrainRefines(w.conns[c], c, wr);
    } else {
      SamePost(BookOf(w), c);
    }
  }

  /** One handleEvents does to the books what the events of the connection do. */
  lemma DispatchRefines(w: World, c: nat, revents: Mask, env: Env)
    requires Basic(w) && c in w.conns && Dispatch(w, c, revents, env).Ok?
    requires OUT in revents ==> w.conns[c].Writing() || w.Dead(c)
    ensures BookOf(Dispatch(w, c, revents, env).world) == Handled(BookOf(w), c, revents, env)
  {
    CloseAndReadProceeds(w, c, revents, env);
    InputRefines(w, c, revents, env);
    var v := CloseAndRead(w, c, revents, env).world;
    if OUT in revents {
      assert KeepsWriting(w.conns[c], v.conns[c]) && Grows(w.conns[c], v.conns[c]);
      FlushRefines(v, c, env.write);
    }
  }

  lemma JobRefines(w: World, j: Job, env: Env)
    requires Basic(w) && RunJob(w, j, env).Ok?
    ensures BookOf(RunJob(w, j, env).world) == Ran(BookOf(w), j, env)
  {
    match j {
      case SendJob(c, payload) =>
        if c in w.conns { SendJobRefines(w, c, payload, env.write); }
      case ForceClose(c) =>
        if c in w.conns && w.conns[c].state != Disconnected { CloseRefines(w, c, env.onClose); }
      case _ => ScriptRefines(w, env.onMessage);
    }
  }

  lemma SendJobRefines(w: World, c: nat, payload: Payload, wr: WriteResult)
    requires AllSound(w) && c in w.conns
    ensures var o := Apply(w, c, SendInLoop(w.conns[c], c, payload, wr)); var p := BookOf(w).pipes[c];
            && o.Ok?
            && BookOf(o.world)
               == if p.state != Disconnected then Post(BookOf(w), c, Offer(p, c, payload, wr)) else BookOf(w)
  {
    if w.conns[c].Alive() {
      OfferRefines(w.conns[c], c, payload, wr);
      ApplyBook(w, c, SendInLoop(w.conns[c], c, payload, wr));
    } else {
      NothingApplied(w, c);
    }
  }

  // ---------- steps and runs ----------

  lemma QueueStepRefines(w: World, e: Event)
    requires e.SwapJobs? || e.EndJobs? || e.Submit? || e.PushSend? || e.PushTask?
    ensures Step(w, e).Ok? && BookOf(Step(w, e).world) == Happened(BookOf(w), e)
  {
  }

  lemma PollRefines(w: World, active: seq<Ready>)
    ensures Step(w, PollReturns(active)).Ok?
    ensures BookOf(Step(w, PollReturns(active)).world) == Happened(BookOf(w), PollReturns(active))
  {
    PollableReportable(w, active);
  }

  lemma PollableReportable(w: World, active: seq<Ready>)
    ensures Pollable(w, active) <==> Reportable(BookOf(w), active)
  {
    if Pollable(w, active) {
      forall r | r in active
        ensures r.conn in w.conns && w.conns[r.conn].events != {}
        ensures forall bit :: bit in r.revents ==> bit in w.conns[r.conn].events || bit == ERR || bit == HUP
      {
        var i :| 0 <= i < |active| && active[i] == r;
      }
    }
    if Reportable(BookOf(w), active) {
      forall i | 0 <= i < |active|
        ensures active[i].conn in w.conns && w.conns[active[i].conn].events != {}
        ensures active[i].revents <= w.conns[active[i].conn].events + {ERR, HUP}
      {
        assert active[i] in active;
      }
    }
  }

  lemma HandleRefines(w: World, env: Env)
    requires Inv(w) && w.phase.Handling? && w.phase.active != [] && Step(w, Handle(env)).Ok?
    ensures BookOf(Step(w, Handle(env)).world) == Happened(BookOf(w), Handle(env))
  {
    var r := w.phase.active[0];
    SameConnsBasic(w, Taken(w));
    assert r.conn in w.conns && (OUT in r.revents ==> w.conns[r.conn].Writing() || w.Dead(r.conn));
    DispatchRefines(Taken(w), r.conn, r.revents, env);
    assert BookOf(Taken(w)) == BookOf(w).(at := Handling(w.phase.active[1..]));
  }

  lemma AcceptRefines(w: World, c: nat, notifies: bool, script: seq<Call>)
    requires Inv(w) && w.phase.Handling? && c !in w.conns && Step(w, Accept(c, notifies, script)).Ok?
    ensures BookOf(Step(w, Accept(c, notifies, script)).world) == Happened(BookOf(w), Accept(c, notifies, script))
  {
    AcceptedInv(w, c, notifies);
    ReplaceBook(w, c, Established(notifies));
    assert PipeOf(Established(notifies)) == NewPipe(notifies) by {
      assert ApplyMask({}, EnableRead) == {IN, PRI};
    }
    ScriptRefines(Accepted(w, c, notifies), script);
  }

  lemma RunNextRefines(w: World, env: Env)
    requires Inv(w) && w.phase.Running? && w.phase.batch != [] && Step(w, RunNext(env)).Ok?
    ensures BookOf(Step(w, RunNext(env)).world) == Happened(BookOf(w), RunNext(env))
  {
    SameConnsBasic(w, Popped(w));
    JobRefines(Popped(w), w.phase.batch[0], env);
    assert BookOf(Popped(w)) == BookOf(w).(at := Running(w.phase.batch[1..]), ran := w.ran + [w.phase.batch[0]]);
  }

  /** Every step of the reactor is what happened, and nothing else. */
  lemma StepRefines(w: World, e: Event)
    requires Inv(w) && Step(w, e).Ok?
    ensures BookOf(Step(w, e).world) == Happened(BookOf(w), e)
  {
    match e {
      case PollReturns(active) => PollRefines(w, active);
      case Handle(env) =>
        if w.phase.Handling? && w.phase.active != [] { HandleRefines(w, env); }
      case Accept(c, notifies, script) =>
        if w.phase.Handling? && c !in w.conns { AcceptRefines(w, c, notifies, script); }
      case OtherHandler(script) =>
        if w.phase.Handling? { ScriptRefines(w, script); }
      case RunNext(env) =>
        if w.phase.Running? && w.phase.batch != [] { RunNextRefines(w, env); }
      case _ => QueueStepRefines(w, e);
    }
  }

  lemma {:induction false} ExecRefines(w: World, es: seq<Event>)
    requires Inv(w) && Exec(w, es).Ok?
    ensures BookOf(Exec(w, es).world) == HappenedAll(BookOf(w), es)
    decreases |es|
  {
    if es != [] {
      StepRefines(w, es[0]);
      StepKeeps(w, es[0]);
      ExecRefines(Step(w, es[0]).world, es[1..]);
    }
  }

  /** Over every run: all that the connections hold and did, and all jobs, are what its events make of empty books. */
  lemma RunRefines(es: seq<Event>)
    requires Exec(Initial(), es).Ok?
    ensures BookOf(Exec(Initial(), es).world) == HappenedAll(NewBook(), es)
  {
    InitialInv();
    assert BookOf(Initial()) == NewBook();
    ExecRefines(Initial(), es);
  }
}
