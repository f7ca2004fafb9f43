/** What is written to a connection after SHUT_WR: exactly by which steps, and a run that attempts it twice. */
module LateSends {
  import opened Common
  import opened Epoll
  import opened Connection
  import opened Reactor
  import opened ReactorProofs
  import opened ReactorRuns
  import opened ReactorTheorems

  // ---------- client calls write nothing to a connection that is shut down ----------

  predicate Shut(k: Conn) {
    k.state == Disconnecting || k.state == Disconnected
  }

  /** A connection stays shut down; nothing was accepted, buffered or written, and SHUT_WR was not attempted. */
  predicate Silent(k: Conn, l: Conn) {
    && Shut(l) && l.output == k.output && l.log.wire == k.log.wire && l.log.accepted == k.log.accepted
    && l.log.shuts == k.log.shuts && l.log.shutWire == k.log.shutWire
  }

  lemma CallSilent(w: World, call: Call, c: nat)
    requires c in w.conns && Shut(w.conns[c]) && DoCall(w, call).Ok?
    ensures c in DoCall(w, call).world.conns
    ensures var k, l := w.conns[c], DoCall(w, call).world.conns[c]; Silent(k, l) && l.Alive() == k.Alive()
  {
    if call.conn == c {
      OwnCallSilent(w, call);
    }
  }

  lemma OwnCallSilent(w: World, call: Call)
    requires call.conn in w.conns && Shut(w.conns[call.conn]) && CallEffect(w, call).Effect?
    ensures var k, l := w.conns[call.conn], CallEffect(w, call).conn; Silent(k, l) && l.Alive() == k.Alive()
  {
  }

  lemma {:induction false} ScriptSilent(w: World, script: seq<Call>, c: nat)
    requires c in w.conns && Shut(w.conns[c]) && RunScript(w, script).Ok?
    ensures c in RunScript(w, script).world.conns
    ensures var k, l := w.conns[c], RunScript(w, script).world.conns[c]; Silent(k, l) && l.Alive() == k.Alive()
    decreases |script|
  {
    if script != [] {
      CallSilent(w, script[0], c);
      ScriptSilent(DoCall(w, script[0]).world, script[1..], c);
    }
  }

  lemma CloseSilent(w: World, d: nat, onClose: seq<Call>, c: nat)
    requires d in w.conns && c in w.conns && Shut(w.conns[c]) && CloseConn(w, d, onClose).Ok?
    ensures c in CloseConn(w, d, onClose).world.conns
    ensures var k, l := w.conns[c], CloseConn(w, d, onClose).world.conns[c];
            Silent(k, l) && l.Alive() == (k.Alive() && c != d)
  {
    var e := Close(w.conns[d]);
    var v := w.(conns := w.conns[d := e.conn], server := w.server - {d});
    assert w.pending + [] == w.pending && w.pushed + [] == w.pushed;
    assert CloseConn(w, d, onClose) == RunScript(v, onClose);
    ScriptSilent(v, onClose, c);
  }

  /** The close and read callbacks close their connection exactly on a hang-up or an empty read. */
  predicate Closes(revents: Mask, read: Buffers.ReadResult) {
    HangsUp(revents) || (Reads(revents) && read == Buffers.Got([]))
  }

  lemma ReadSilent(w: World, d: nat, env: Env, c: nat)
    requires d in w.conns && c in w.conns && Shut(w.conns[c]) && ReadConn(w, d, env).Ok?
    ensures c in ReadConn(w, d, env).world.conns
    ensures var k, l := w.conns[c], ReadConn(w, d, env).world.conns[c];
            Silent(k, l) && l.Alive() == (k.Alive() && !(c == d && env.read == Buffers.Got([])))
  {
    match env.read {
      case Failed(_) =>
      case Got(data) =>
        if data == [] {
          CloseSilent(w, d, env.onClose, c);
        } else {
          ScriptSilent(w.(conns := w.conns[d := Receive(w.conns[d], data)]), env.onMessage, c);
        }
    }
  }

  lemma InputSilent(w: World, d: nat, revents: Mask, env: Env, c: nat)
    requires d in w.conns && c in w.conns && Shut(w.conns[c]) && CloseAndRead(w, d, revents, env).Ok?
    ensures c in CloseAndRead(w, d, revents, env).world.conns && d in CloseAndRead(w, d, revents, env).world.conns
    ensures var k, l := w.conns[c], CloseAndRead(w, d, revents, env).world.conns[c];
            Silent(k, l) && l.Alive() == (k.Alive() && !(c == d && Closes(revents, env.read)))
  {
    if HangsUp(revents) {
      CloseSilent(w, d, env.onClose, c);
      KeepsConn(w, d, env.onClose);
      var v := CloseConn(w, d, env.onClose).world;
      if Reads(revents) {
        ReadSilent(v, d, env, c);
        ReadKeepsConn(v, d, env);
      }
    } else if Reads(revents) {
      ReadSilent(w, d, env, c);
      ReadKeepsConn(w, d, env);
    }
  }

  lemma {:induction false} ScriptKeepsConns(w: World, script: seq<Call>)
    requires RunScript(w, script).Ok?
    ensures w.conns.Keys == RunScript(w, script).world.conns.Keys
    decreases |script|
  {
    if script != [] {
      ScriptKeepsConns(DoCall(w, script[0]).world, script[1..]);
    }
  }

  lemma KeepsConn(w: World, d: nat, onClose: seq<Call>)
    requires d in w.conns && CloseConn(w, d, onClose).Ok?
    ensures d in CloseConn(w, d, onClose).world.conns
  {
    var v := w.(conns := w.conns[d := Close(w.conns[d]).conn], server := w.server - {d});
    assert w.pending + [] == w.pending && w.pushed + [] == w.pushed;
    assert CloseConn(w, d, onClose) == RunScript(v, onClose);
    ScriptKeepsConns(v, onClose);
  }

  lemma ReadKeepsConn(w: World, d: nat, env: Env)
    requires d in w.conns && ReadConn(w, d, env).Ok?
    ensures d in ReadConn(w, d, env).world.conns
  {
    match env.read {
      case Failed(_) =>
      case Got(data) =>
        if data == [] {
          KeepsConn(w, d, env.onClose);
        } else {
          ScriptKeepsConns(w.(conns := w.conns[d := Receive(w.conns[d], data)]), env.onMessage);
        }
    }
  }

  // ---------- the steps that write ----------

  /** The step handles c as writable and does not close it first. */
  predicate Flushes(w: World, e: Event, c: nat)
    requires c in w.conns
  {
    && e.Handle? && w.phase.Handling? && w.phase.active != [] && w.phase.active[0].conn == c && w.conns[c].Alive()
    && OUT in w.phase.active[0].revents && !Closes(w.phase.active[0].revents, e.env.read)
  }

  /** What a step offers to the kernel on a shut-down connection: its output, or another thread's payload. */
  function Offered(w: World, e: Event, c: nat): seq<byte>
    requires c in w.conns
  {
    if Flushes(w, e, c) then w.conns[c].output
    else if RunsSendFor(w, e, c) && w.conns[c].Alive() && !w.conns[c].Writing() then w.phase.batch[0].payload.data
    else []
  }

  function Written(w: World, e: Event, c: nat): (n: nat)
    requires c in w.conns
    ensures n <= |Offered(w, e, c)|
  {
    if e.Handle? || e.RunNext? then e.env.write.Taken(|Offered(w, e, c)|) else 0
  }

  /** The step flushes the last of the output of c. */
  predicate Drains(w: World, e: Event, c: nat)
    requires c in w.conns
  {
    Flushes(w, e, c) && w.conns[c].output != [] && e.env.write.Wrote? && e.env.write.n >= |w.conns[c].output|
  }

  /**
   * A step leaves l of k: what it wrote is a prefix of what it offered; with nothing buffered or sent, nothing is
   * buffered; SHUT_WR is attempted by flushing the last of the output.
   */
  ghost predicate Writes(w: World, e: Event, c: nat, l: Conn)
    requires c in w.conns
  {
    && Shut(l) && l.log.wire == w.conns[c].log.wire + Offered(w, e, c)[..Written(w, e, c)]
    && (w.conns[c].output == [] && (RunsSendFor(w, e, c) ==> w.phase.batch[0].payload.data == []) ==> l.output == [])
    && l.log.shuts == w.conns[c].log.shuts + (if Drains(w, e, c) then 1 else 0)
  }

  lemma SilentWrites(w: World, e: Event, c: nat, l: Conn)
    requires c in w.conns && Shut(w.conns[c]) && Silent(w.conns[c], l) && Offered(w, e, c) == []
    ensures Writes(w, e, c, l)
  {
    assert w.conns[c].log.wire + [] == w.conns[c].log.wire;
  }

  lemma HandleWrites(w: World, env: Env, c: nat)
    requires w.phase.Handling? && w.phase.active != [] && w.phase.active[0].conn in w.conns
    requires c in w.conns && Shut(w.conns[c]) && Step(w, Handle(env)).Ok?
    ensures c in Step(w, Handle(env)).world.conns && Writes(w, Handle(env), c, Step(w, Handle(env)).world.conns[c])
  {
    var r := w.phase.active[0];
    InputSilent(Taken(w), r.conn, r.revents, env, c);
    var v := CloseAndRead(Taken(w), r.conn, r.revents, env).world;
    if OUT in r.revents {
      assert Step(w, Handle(env)) == Apply(v, r.conn, Flush(v.conns[r.conn], r.conn, env.write));
      if r.conn == c && v.conns[c].Alive() {
        FlushWrites(w, env, c, v.conns[c]);
      } else {
        SilentWrites(w, Handle(env), c, v.conns[c]);
      }
    } else {
      assert Step(w, Handle(env)) == Ok(v);
      SilentWrites(w, Handle(env), c, v.conns[c]);
    }
  }

  lemma FlushWrites(w: World, env: Env, c: nat, k: Conn)
    requires c in w.conns && Flushes(w, Handle(env), c) && Silent(w.conns[c], k) && k.Alive()
    requires Flush(k, c, env.write).Effect?
    ensures Writes(w, Handle(env), c, Flush(k, c, env.write).conn)
  {
    assert k.log.wire + k.output[..0] == k.log.wire;
  }

  lemma SendWrites(w: World, env: Env, c: nat)
    requires RunsSend(w, RunNext(env)) && c in w.conns && Sound(w.conns[c]) && Shut(w.conns[c])
    requires Step(w, RunNext(env)).Ok?
    ensures c in Step(w, RunNext(env)).world.conns
    ensures Writes(w, RunNext(env), c, Step(w, RunNext(env)).world.conns[c])
  {
    var k, d, p := w.conns[c], w.phase.batch[0].conn, w.phase.batch[0].payload;
    if d == c && k.Alive() {
      LateSendWrites(k, c, p, env.write);
      SentIsWritten(w, env, c, SendInLoop(k, c, p, env.write).conn);
    } else {
      SilentWrites(w, RunNext(env), c, k);
    }
  }

  lemma SentIsWritten(w: World, env: Env, c: nat, l: Conn)
    requires RunsSendFor(w, RunNext(env), c) && c in w.conns && w.conns[c].Alive() && Shut(l)
    requires var k, data := w.conns[c], w.phase.batch[0].payload.data;
             && l.log.wire == k.log.wire + (if k.Writing() then [] else data[..env.write.Taken(|data|)])
             && (k.output == [] && data == [] ==> l.output == []) && l.log.shuts == k.log.shuts
    ensures Writes(w, RunNext(env), c, l)
  {
  }

  /** A send that finds SHUT_WR attempted is written all the same, unless output is pending already. */
  lemma LateSendWrites(k: Conn, c: nat, p: Payload, wr: WriteResult)
    requires Sound(k) && Shut(k) && k.Alive()
    ensures var e := SendInLoop(k, c, p, wr);
            && e.Effect? && Shut(e.conn)
            && e.conn.log.wire == k.log.wire + (if k.Writing() then [] else p.data[..wr.Taken(|p.data|)])
            && (k.output == [] && p.data == [] ==> e.conn.output == [])
            && e.conn.log.lateSends == (if k.log.shuts > 0 then k.log.lateSends + 1 else k.log.lateSends)
            && e.conn.log.shuts == k.log.shuts
  {
    assert p.data[..0] == [];
  }

  predicate HasNextJob(w: World) {
    w.phase.Running? && w.phase.batch != []
  }

  lemma OtherJobSilent(w: World, env: Env, c: nat)
    requires HasNextJob(w) && !w.phase.batch[0].SendJob? && Step(w, RunNext(env)).Ok?
    requires c in w.conns && Shut(w.conns[c])
    ensures c in Step(w, RunNext(env)).world.conns && Silent(w.conns[c], Step(w, RunNext(env)).world.conns[c])
  {
    var j := w.phase.batch[0];
    if !j.ForceClose? {
      ScriptSilent(Popped(w), env.onMessage, c);
    } else if j.conn in w.conns && w.conns[j.conn].state != Disconnected {
      CloseSilent(Popped(w), j.conn, env.onClose, c);
    }
  }

  lemma OtherStepSilent(w: World, e: Event, c: nat)
    requires c in w.conns && Shut(w.conns[c]) && !e.Handle? && !RunsSend(w, e) && Step(w, e).Ok?
    ensures c in Step(w, e).world.conns && Silent(w.conns[c], Step(w, e).world.conns[c])
  {
    match e {
      case Accept(d, onWriteComplete, script) =>
        if w.phase.Handling? && d !in w.conns { ScriptSilent(Accepted(w, d, onWriteComplete), script, c); }
      case OtherHandler(script) =>
        if w.phase.Handling? { ScriptSilent(w, script, c); }
      case RunNext(env) =>
        if HasNextJob(w) { OtherJobSilent(w, env, c); }
      case _ =>
    }
  }

  lemma StepWrites(w: World, e: Event, c: nat)
    requires Inv(w) && c in w.conns && Shut(w.conns[c]) && Step(w, e).Ok?
    ensures c in Step(w, e).world.conns && Writes(w, e, c, Step(w, e).world.conns[c])
  {
    if e.Handle? && w.phase.Handling? && w.phase.active != [] {
      HandleWrites(w, e.env, c);
    } else if RunsSend(w, e) {
      assert Sound(w.conns[c]);
      SendWrites(w, e.env, c);
    } else {
      if !e.Handle? {
        OtherStepSilent(w, e, c);
      }
      SilentWrites(w, e, c, Step(w, e).world.conns[c]);
    }
  }

  /**
   * After SHUT_WR a step writes exactly when it runs another thread's send for the open connection, which has no
   * output pending, or flushes what an earlier such send left; and the kernel takes something.
   */
  lemma WrittenAfterShutdown(w: World, e: Event, c: nat)
    requires Reachable(w) && c in w.conns && w.conns[c].log.shuts > 0 && Step(w, e).Ok?
    ensures c in Step(w, e).world.conns
    ensures Step(w, e).world.conns[c].log.wire != w.conns[c].log.wire
            <==> || (RunsSendFor(w, e, c) && w.conns[c].Alive() && !w.conns[c].Writing()
                     && e.env.write.Taken(|w.phase.batch[0].payload.data|) > 0)
                 || (Flushes(w, e, c) && e.env.write.Taken(|w.conns[c].output|) > 0)
  {
    ReachableInv(w);
    assert Sound(w.conns[c]);
    StepWrites(w, e, c);
    var k, l := w.conns[c], Step(w, e).world.conns[c];
    assert |l.log.wire| == |k.log.wire| + Written(w, e, c);
    assert Written(w, e, c) == 0 ==> k.log.wire + Offered(w, e, c)[..0] == k.log.wire;
  }

  /** After SHUT_WR a step attempts it again exactly when it flushes the last of what a late send left. */
  lemma ShutsAgainExactly(w: World, e: Event, c: nat)
    requires Reachable(w) && c in w.conns && w.conns[c].log.shuts > 0 && Step(w, e).Ok?
    ensures c in Step(w, e).world.conns
    ensures Step(w, e).world.conns[c].log.shuts == w.conns[c].log.shuts + (if Drains(w, e, c) then 1 else 0)
  {
    ReachableInv(w);
    assert Sound(w.conns[c]);
    StepWrites(w, e, c);
  }

  // ---------- a run that writes after SHUT_WR, and attempts it twice ----------

  // A send of thread 7 that passes its state test just before the loop thread shuts down.

  const LATE_JOB: Job := SendJob(0, Queued(7, 0, [1, 2]))

  function LateRun(): seq<Event> {
    [PollReturns([]), Accept(0, false, []), Submit(7, 0, [1, 2]), PushSend(7),
     OtherHandler([ShutdownWrite(0)]), SwapJobs]
  }

  function LateConn(): Conn {
    Established(false).(state := Disconnecting, log := Established(false).log.(asked := true, shuts := 1))
  }

  function LateWorld(k: Conn, phase: Phase, pending: seq<Job>, pushed: seq<Job>): World {
    World(map[0 := k], {0}, phase, pending, pushed, [], map[], if pushed == [] then map[] else map[7 := 1])
  }

  lemma LateOpening()
    ensures Exec(Initial(), [PollReturns([]), Accept(0, false, [])])
            == Ok(LateWorld(Established(false), Handling([]), [], []))
  {
    var w := Initial().(phase := Handling([]));
    assert Step(w, Accept(0, false, [])) == Ok(LateWorld(Established(false), Handling([]), [], []));
    ExecStep(Initial(), [PollReturns([]), Accept(0, false, [])]);
    ExecStep(w, [Accept(0, false, [])]);
  }

  lemma LateSubmission()
    ensures var w := LateWorld(Established(false), Handling([]), [], []);
            Exec(w, [Submit(7, 0, [1, 2]), PushSend(7)])
            == Ok(LateWorld(Established(false), Handling([]), [LATE_JOB], [LATE_JOB]))
  {
    var w := LateWorld(Established(false), Handling([]), [], []);
    var v := w.(submitting := map[7 := Submission(0, [1, 2])]);
    assert Step(w, Submit(7, 0, [1, 2])) == Ok(v);
    assert map[7 := Submission(0, [1, 2])] - {7} == map[];
    assert Step(v, PushSend(7)) == Ok(LateWorld(Established(false), Handling([]), [LATE_JOB], [LATE_JOB]));
    ExecStep(w, [Submit(7, 0, [1, 2]), PushSend(7)]);
    ExecStep(v, [PushSend(7)]);
  }

  lemma LateShutdown()
    ensures var w := LateWorld(Established(false), Handling([]), [LATE_JOB], [LATE_JOB]);
            Exec(w, [OtherHandler([ShutdownWrite(0)]), SwapJobs])
            == Ok(LateWorld(LateConn(), Running([LATE_JOB]), [], [LATE_JOB]))
  {
    var w := LateWorld(Established(false), Handling([]), [LATE_JOB], [LATE_JOB]);
    var v := LateWorld(LateConn(), Handling([]), [LATE_JOB], [LATE_JOB]);
    assert DoCall(w, ShutdownWrite(0)) == Ok(v);
    assert Step(v, SwapJobs) == Ok(LateWorld(LateConn(), Running([LATE_JOB]), [], [LATE_JOB]));
    ExecStep(w, [OtherHandler([ShutdownWrite(0)]), SwapJobs]);
    ExecStep(v, [SwapJobs]);
  }

  /** A run to a connection that is shut down, with a send of another thread about to run. */
  lemma LateSendReachable()
    ensures Exec(Initial(), LateRun()) == Ok(LateWorld(LateConn(), Running([LATE_JOB]), [], [LATE_JOB]))
    ensures Reachable(LateWorld(LateConn(), Running([LATE_JOB]), [], [LATE_JOB]))
  {
    LateOpening();
    LateSubmission();
    LateShutdown();
    var a := [PollReturns([]), Accept(0, false, [])];
    var b := [Submit(7, 0, [1, 2]), PushSend(7)];
    var c := [OtherHandler([ShutdownWrite(0)]), SwapJobs];
    ExecAppend(Initial(), a, b);
    ExecAppend(Initial(), a + b, c);
    assert LateRun() == a + b + c;
  }

  // The kernel takes one byte of it, and the other once the connection is seen writable.

  const ONE: Env := Env(Buffers.Failed(0), Wrote(1), [], [])

  function AgainRun(): seq<Event> {
    [RunNext(ONE), EndJobs, PollReturns([Ready(0, {OUT})]), Handle(ONE)]
  }

  /** After the first byte. */
  function HalfConn(): Conn {
    LateConn().(events := {IN, PRI, OUT}, output := [2],
                log := LateConn().log.(wire := [1], accepted := [Queued(7, 0, [1, 2])], lateSends := 1))
  }

  function HalfWorld(phase: Phase): World {
    LateWorld(HalfConn(), phase, [], [LATE_JOB]).(ran := [LATE_JOB])
  }

  lemma FirstByte()
    ensures Step(LateWorld(LateConn(), Running([LATE_JOB]), [], [LATE_JOB]), RunNext(ONE)) == Ok(HalfWorld(Running([])))
  {
    var k, data: seq<byte> := LateConn(), [1, 2];
    assert data[..1] == [1] && data[1..] == [2];
    var none: seq<byte> := [];
    assert none + [1] == [1] && none + [2] == [2];
    assert SendInLoop(k, 0, Queued(7, 0, data), Wrote(1)) == Effect(HalfConn(), []);
    var w, jobs: seq<Job> := LateWorld(k, Running([LATE_JOB]), [], [LATE_JOB]), [];
    assert w.phase.batch[1..] == [] && jobs + [LATE_JOB] == [LATE_JOB] && w.pushed + [] == w.pushed;
    assert w.conns[0 := HalfConn()] == map[0 := HalfConn()];
  }

  lemma LastByte()
    ensures var o := Step(HalfWorld(Handling([Ready(0, {OUT})])), Handle(ONE));
            o.Ok? && 0 in o.world.conns && o.world.conns[0].log.shuts == 2 && o.world.conns[0].log.wire == [1, 2]
  {
    var data: seq<byte> := [2];
    assert data[1..] == [] && data[..1] == [2];
  }

  /** A run that attempts SHUT_WR twice. */
  lemma LateSendShutsAgain()
    ensures var o := Exec(Initial(), LateRun() + AgainRun());
            && o.Ok? && 0 in o.world.conns
            && o.world.conns[0].log.shuts == 2 && o.world.conns[0].log.wire == [1, 2]
  {
    LateSendReachable();
    ExecAppend(Initial(), LateRun(), AgainRun());
    FirstByte();
    ExecStep(LateWorld(LateConn(), Running([LATE_JOB]), [], [LATE_JOB]), AgainRun());
    assert AgainRun()[1..] == [EndJobs, PollReturns([Ready(0, {OUT})]), Handle(ONE)];
    SecondByte();
  }

  lemma SecondByte()
    ensures var o := Exec(HalfWorld(Running([])), [EndJobs, PollReturns([Ready(0, {OUT})]), Handle(ONE)]);
            && o.Ok? && 0 in o.world.conns
            && o.world.conns[0].log.shuts == 2 && o.world.conns[0].log.wire == [1, 2]
  {
    LastByte();
    ExecStep(HalfWorld(Running([])), [EndJobs, PollReturns([Ready(0, {OUT})]), Handle(ONE)]);
    ExecStep(HalfWorld(Polling), [PollReturns([Ready(0, {OUT})]), Handle(ONE)]);
    ExecStep(HalfWorld(Handling([Ready(0, {OUT})])), [Handle(ONE)]);
  }
}
