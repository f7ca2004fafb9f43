/** What client calls and channel handlers keep, and exactly when they fail an assert of the source. */
module ReactorProofs {
  import opened Common
  import opened Epoll
  import opened Connection
  import opened Reactor

  ghost predicate AllSound(w: World) {
    forall c :: c in w.conns ==> Sound(w.conns[c])
  }

  /** The server's set is exactly the connections that are not closed. */
  ghost predicate ServerAgrees(w: World) {
    forall c :: c in w.server <==> c in w.conns && w.conns[c].Alive()
  }

  // ---------- client calls ----------

  /** How client calls may change a connection. */
  ghost predicate ConnEvolves(k: Conn, l: Conn) {
    && Sound(l)
    && Grows(k, l)
    && l.Alive() == k.Alive()
    && (k.Writing() ==> l.Writing())
    && l.log.lateSends == k.log.lateSends
    && OnlyDirect(k.log.accepted, l.log.accepted)
  }

  ghost predicate OnlyDirect(a: seq<Payload>, b: seq<Payload>) {
    forall i :: |a| <= i < |b| ==> b[i].Direct?
  }

  /** How client calls may change the world: they close nothing, and push no other thread's jobs. */
  ghost predicate Evolves(w: World, v: World) {
    && v == w.(conns := v.conns, pending := v.pending, pushed := v.pushed)
    && v.conns.Keys == w.conns.Keys
    && (forall c :: c in w.conns ==> ConnEvolves(w.conns[c], v.conns[c]))
    && JobsAdded(w, v)
  }

  ghost predicate JobsAdded(w: World, v: World) {
    && |w.pending| <= |v.pending| && v.pending[..|w.pending|] == w.pending
    && v.pushed == w.pushed + v.pending[|w.pending|..]
    && forall i :: |w.pending| <= i < |v.pending| ==> !v.pending[i].SendJob?
  }

  lemma EvolvesRefl(w: World)
    requires AllSound(w)
    ensures Evolves(w, w)
  {
    assert w.pushed + w.pending[|w.pending|..] == w.pushed;
  }

  lemma JobsAddedTrans(u: World, v: World, w: World)
    requires JobsAdded(u, v) && JobsAdded(v, w)
    ensures JobsAdded(u, w)
  {
    assert w.pending[..|u.pending|] == w.pending[..|v.pending|][..|u.pending|];
    assert w.pending[|u.pending|..] == v.pending[|u.pending|..] + w.pending[|v.pending|..] by {
      assert w.pending == v.pending + w.pending[|v.pending|..];
    }
    forall i | |u.pending| <= i < |w.pending|
      ensures !w.pending[i].SendJob?
    {
      if i < |v.pending| {
        assert w.pending[i] == w.pending[..|v.pending|][i];
      }
    }
  }

  lemma ConnEvolvesTrans(k: Conn, l: Conn, m: Conn)
    requires ConnEvolves(k, l) && ConnEvolves(l, m)
    ensures ConnEvolves(k, m)
  {
    GrowsTrans(k, l, m);
    var a, b, c := k.log.accepted, l.log.accepted, m.log.accepted;
    forall i | |a| <= i < |c|
      ensures c[i].Direct?
    {
      if i < |b| {
        assert c[i] == c[..|b|][i];
      }
    }
  }

  lemma EvolvesTrans(u: World, v: World, w: World)
    requires Evolves(u, v) && Evolves(v, w)
    ensures Evolves(u, w)
  {
    JobsAddedTrans(u, v, w);
    forall c | c in u.conns
      ensures ConnEvolves(u.conns[c], w.conns[c])
    {
      ConnEvolvesTrans(u.conns[c], v.conns[c], w.conns[c]);
    }
  }

  /** An effect on one connection, as a step of the world. */
  lemma ApplyEvolves(w: World, c: nat, e: Effect)
    requires AllSound(w) && c in w.conns && e.Effect? && ConnEvolves(w.conns[c], e.conn)
    requires forall i :: 0 <= i < |e.jobs| ==> !e.jobs[i].SendJob?
    ensures Apply(w, c, e).Ok? && Evolves(w, Apply(w, c, e).world)
  {
    var v := Apply(w, c, e).world;
    assert v.pending[|w.pending|..] == e.jobs;
  }

  lemma SendEvolves(k: Conn, id: nat, data: seq<byte>, wr: WriteResult)
    requires Sound(k)
    ensures var e := Send(k, id, data, wr);
            && e.Effect? && ConnEvolves(k, e.conn)
            && forall i :: 0 <= i < |e.jobs| ==> !e.jobs[i].SendJob?
  {
    if k.state == Connected {
      SentEvolves(k, id, data, wr);
    } else {
      FieldsEvolve(k, k.input, k.highWater);
    }
  }

  lemma SentEvolves(k: Conn, id: nat, data: seq<byte>, wr: WriteResult)
    requires Sound(k) && k.state == Connected
    ensures var e := SendInLoop(k, id, Direct(data), wr);
            && e.Effect? && ConnEvolves(k, e.conn)
            && forall i :: 0 <= i < |e.jobs| ==> !e.jobs[i].SendJob?
  {
    SendInLoopSound(k, id, Direct(data), wr);
    SendFrame(k, id, Direct(data), wr);
    SendGrows(k, id, Direct(data), wr);
  }

  lemma UpdateEvolves(w: World, c: nat, l: Conn)
    requires AllSound(w) && c in w.conns && ConnEvolves(w.conns[c], l)
    ensures Evolves(w, w.(conns := w.conns[c := l]))
  {
    EvolvesRefl(w);
    forall d | d in w.conns
      ensures ConnEvolves(w.conns[d], w.conns[c := l][d])
    {
      if d != c {
        assert Evolves(w, w);
      }
    }
  }

  /** Changes of the fields no invariant mentions. */
  lemma FieldsEvolve(k: Conn, input: seq<byte>, highWater: Option<nat>)
    requires Sound(k)
    ensures ConnEvolves(k, k.(input := input)) && ConnEvolves(k, k.(highWater := highWater)) && ConnEvolves(k, k)
  {
  }

  lemma ControlEvolves(k: Conn, id: nat)
    requires Sound(k)
    ensures Shutdown(k).Failed? <==> !k.Alive()
    ensures k.Alive() ==> ConnEvolves(k, Shutdown(k).conn) && Shutdown(k).jobs == []
    ensures RequestClose(k, id).Effect? && ConnEvolves(k, RequestClose(k, id).conn)
    ensures ConnEvolves(k, StopRead(k)) && ConnEvolves(k, StartRead(k))
  {
    CallsSound(k, id);
    ControlGrows(k, id, []);
  }

  /** The asserts a run can fail: the client's misuse of shutdown(), and events of a closed connection. */
  predicate CanFail(site: Site) {
    site == ShutdownWhenClosed || site == ReadWhenClosed || site == CloseWhenClosed
  }

  /** A call fails an assert exactly when it shuts down a closed connection. */
  predicate Misused(w: World, call: Call) {
    call.ShutdownWrite? && w.Dead(call.conn)
  }

  lemma CallEffectEvolves(w: World, call: Call)
    requires AllSound(w) && call.conn in w.conns
    ensures var e := CallEffect(w, call);
            && (e.Failed? <==> Misused(w, call))
            && (e.Failed? ==> e.site == ShutdownWhenClosed)
            && (e.Effect? ==> ConnEvolves(w.conns[call.conn], e.conn)
                              && forall i :: 0 <= i < |e.jobs| ==> !e.jobs[i].SendJob?)
  {
    var c, k := call.conn, w.conns[call.conn];
    match call {
      case SendData(_, data, wr) => SendEvolves(k, c, data, wr);
      case SendInput(_, from, wr) =>
        if from in w.conns { SendEvolves(k, c, w.conns[from].input, wr); } else { FieldsEvolve(k, [], None); }
      case MarkHighWater(_, mark) => FieldsEvolve(k, [], Some(mark));
      case DiscardInput(_, n) => FieldsEvolve(k, k.input[Min(n, |k.input|)..], None);
      case QueueTask(_, _) => FieldsEvolve(k, [], None);
      case _ => ControlEvolves(k, c);
    }
  }

  lemma EmptyingEvolves(w: World, v: World, from: nat)
    requires Evolves(w, v) && from in v.conns
    ensures Evolves(w, v.(conns := v.conns[from := v.conns[from].(input := [])]))
  {
    EvolvesSound(w, v);
    FieldsEvolve(v.conns[from], [], None);
    UpdateEvolves(v, from, v.conns[from].(input := []));
    EvolvesTrans(w, v, v.(conns := v.conns[from := v.conns[from].(input := [])]));
  }

  lemma EvolvesSound(w: World, v: World)
    requires Evolves(w, v)
    ensures AllSound(v)
    ensures forall c :: w.Dead(c) <==> v.Dead(c)
  {
    forall c | c in v.conns
      ensures Sound(v.conns[c])
    {
      assert ConnEvolves(w.conns[c], v.conns[c]);
    }
    forall c
      ensures w.Dead(c) <==> v.Dead(c)
    {
      assert c in w.conns ==> ConnEvolves(w.conns[c], v.conns[c]);
    }
  }

  lemma DoCallEvolves(w: World, call: Call)
    requires AllSound(w)
    ensures DoCall(w, call).Aborted? <==> Misused(w, call)
    ensures DoCall(w, call).Aborted? ==> DoCall(w, call).site == ShutdownWhenClosed
    ensures DoCall(w, call).Ok? ==> Evolves(w, DoCall(w, call).world)
  {
    if call.conn !in w.conns {
      EvolvesRefl(w);
    } else if call.SendInput? {
      SendInputEvolves(w, call);
    } else {
      OtherCallEvolves(w, call);
    }
  }

  lemma OtherCallEvolves(w: World, call: Call)
    requires AllSound(w) && !call.SendInput? && call.conn in w.conns
    ensures var o := DoCall(w, call);
            && (o.Aborted? <==> Misused(w, call)) && (o.Aborted? ==> o.site == ShutdownWhenClosed)
            && (o.Ok? ==> Evolves(w, o.world))
  {
    CallEffectEvolves(w, call);
    var e := CallEffect(w, call);
    assert DoCall(w, call) == Apply(w, call.conn, e);
    if e.Effect? {
      ApplyEvolves(w, call.conn, e);
    }
  }

  lemma SendInputEvolves(w: World, call: Call)
    requires AllSound(w) && call.SendInput? && call.conn in w.conns
    ensures DoCall(w, call).Ok? && Evolves(w, DoCall(w, call).world)
  {
    if w.conns[call.conn].state == Connected && call.from in w.conns {
      SentInputEvolves(w, call.conn, call.from, call.wr);
    } else {
      EvolvesRefl(w);
      NothingApplied(w, call.conn);
    }
  }

  lemma SentInputEvolves(w: World, c: nat, from: nat, wr: WriteResult)
    requires AllSound(w) && c in w.conns && w.conns[c].state == Connected && from in w.conns
    ensures DoCall(w, SendInput(c, from, wr)).Ok? && Evolves(w, DoCall(w, SendInput(c, from, wr)).world)
  {
    var e := Send(w.conns[c], c, w.conns[from].input, wr);
    SendEvolves(w.conns[c], c, w.conns[from].input, wr);
    ApplyEvolves(w, c, e);
    var v := Apply(w, c, e).world;
    EmptyingEvolves(w, v, from);
    assert DoCall(w, SendInput(c, from, wr)) == Ok(v.(conns := v.conns[from := v.conns[from].(input := [])]));
  }

  lemma NothingApplied(w: World, c: nat)
    requires c in w.conns
    ensures Apply(w, c, Effect(w.conns[c], [])) == Ok(w)
  {
    assert w.conns[c := w.conns[c]] == w.conns && w.pending + [] == w.pending && w.pushed + [] == w.pushed;
  }

  /** Some call of the script shuts down a connection that is closed. */
  ghost predicate Misuses(w: World, script: seq<Call>) {
    exists i :: 0 <= i < |script| && Misused(w, script[i])
  }

  lemma {:induction false} ScriptEvolves(w: World, script: seq<Call>)
    requires AllSound(w)
    ensures RunScript(w, script).Aborted? <==> Misuses(w, script)
    ensures RunScript(w, script).Aborted? ==> RunScript(w, script).site == ShutdownWhenClosed
    ensures RunScript(w, script).Ok? ==> Evolves(w, RunScript(w, script).world)
    decreases |script|
  {
    if script == [] {
      EvolvesRefl(w);
    } else {
      DoCallEvolves(w, script[0]);
      var o := DoCall(w, script[0]);
      if o.Ok? {
        EvolvesSound(w, o.world);
        ScriptEvolves(o.world, script[1..]);
        MisusesTail(w, o.world, script);
        if RunScript(o.world, script[1..]).Ok? {
          EvolvesTrans(w, o.world, RunScript(o.world, script[1..]).world);
        }
      }
    }
  }

  lemma MisusesTail(w: World, v: World, script: seq<Call>)
    requires script != [] && !Misused(w, script[0])
    requires forall c :: w.Dead(c) <==> v.Dead(c)
    ensures Misuses(w, script) <==> Misuses(v, script[1..])
  {
    assert forall i :: 0 < i < |script| ==> script[i] == script[1..][i - 1];
    if Misuses(v, script[1..]) {
      var i :| 0 <= i < |script| - 1 && Misused(v, script[1..][i]);
      assert Misused(w, script[i + 1]);
    }
  }

  // ---------- handlers on the loop thread ----------

  ghost predicate Basic(w: World) {
    AllSound(w) && ServerAgrees(w)
  }

  /**
   * How a handler may change a connection: its history grows, by direct payloads only, and no send comes after a
   * SHUT_WR.
   */
  ghost predicate ConnProceeds(k: Conn, l: Conn) {
    && Grows(k, l)
    && l.log.lateSends == k.log.lateSends
    && OnlyDirect(k.log.accepted, l.log.accepted)
  }

  /** EPOLLOUT is only switched off by closing. */
  predicate KeepsWriting(k: Conn, l: Conn) {
    k.Writing() ==> l.Writing() || !l.Alive()
  }

  ghost predicate Proceeds(w: World, v: World) {
    && v == w.(conns := v.conns, server := v.server, pending := v.pending, pushed := v.pushed)
    && v.conns.Keys == w.conns.Keys
    && (forall c :: c in w.conns ==> ConnProceeds(w.conns[c], v.conns[c]))
    && JobsAdded(w, v)
  }

  ghost predicate WritingKept(w: World, v: World) {
    forall c :: c in w.conns && c in v.conns ==> KeepsWriting(w.conns[c], v.conns[c])
  }

  lemma ProceedsRefl(w: World)
    ensures Proceeds(w, w) && WritingKept(w, w)
  {
    assert w.pushed + w.pending[|w.pending|..] == w.pushed;
  }

  lemma ConnProceedsTrans(k: Conn, l: Conn, m: Conn)
    requires ConnProceeds(k, l) && ConnProceeds(l, m)
    ensures ConnProceeds(k, m)
    ensures KeepsWriting(k, l) && KeepsWriting(l, m) ==> KeepsWriting(k, m)
  {
    GrowsTrans(k, l, m);
    var a, b, c := k.log.accepted, l.log.accepted, m.log.accepted;
    forall i | |a| <= i < |c|
      ensures c[i].Direct?
    {
      if i < |b| {
        assert c[i] == c[..|b|][i];
      }
    }
  }

  lemma ProceedsTrans(u: World, v: World, w: World)
    requires Proceeds(u, v) && Proceeds(v, w)
    ensures Proceeds(u, w)
    ensures WritingKept(u, v) && WritingKept(v, w) ==> WritingKept(u, w)
  {
    JobsAddedTrans(u, v, w);
    forall c | c in u.conns
      ensures ConnProceeds(u.conns[c], w.conns[c])
    {
      ConnProceedsTrans(u.conns[c], v.conns[c], w.conns[c]);
    }
    if WritingKept(u, v) && WritingKept(v, w) {
      forall c | c in u.conns && c in w.conns
        ensures KeepsWriting(u.conns[c], w.conns[c])
      {
        ConnProceedsTrans(u.conns[c], v.conns[c], w.conns[c]);
      }
    }
  }

  lemma EvolvesProceeds(w: World, v: World)
    requires Basic(w) && Evolves(w, v)
    ensures Basic(v) && Proceeds(w, v) && WritingKept(w, v)
  {
    EvolvesSound(w, v);
    forall c | c in w.conns
      ensures ConnEvolves(w.conns[c], v.conns[c])
    {
    }
    forall c
      ensures c in v.server <==> c in v.conns && v.conns[c].Alive()
    {
      assert w.Dead(c) <==> v.Dead(c);
    }
  }

  /** Exactly when a callback fails an assert; otherwise it is a handler like any other. */
  lemma ScriptProceeds(w: World, script: seq<Call>)
    requires Basic(w)
    ensures var o := RunScript(w, script);
            && (o.Aborted? <==> Misuses(w, script))
            && (o.Aborted? ==> CanFail(o.site))
            && (o.Ok? ==> Basic(o.world) && Proceeds(w, o.world) && WritingKept(w, o.world))
  {
    ScriptEvolves(w, script);
    if RunScript(w, script).Ok? {
      EvolvesProceeds(w, RunScript(w, script).world);
    }
  }

  /** Replacing one connection, the server's set following its state. */
  lemma ReplaceProceeds(w: World, c: nat, l: Conn, server: set<nat>)
    requires Basic(w) && c in w.conns && Sound(l) && ConnProceeds(w.conns[c], l)
    requires server == if l.Alive() then w.server else w.server - {c}
    ensures var v := w.(conns := w.conns[c := l], server := server);
            Basic(v) && Proceeds(w, v) && (KeepsWriting(w.conns[c], l) ==> WritingKept(w, v))
  {
    ProceedsRefl(w);
    var v := w.(conns := w.conns[c := l], server := server);
    forall d | d in w.conns
      ensures ConnProceeds(w.conns[d], v.conns[d])
    {
      assert Proceeds(w, w);
    }
  }

  /** The world once c is closed and erased from the server, before the connection callback. */
  function Closed(w: World, c: nat): World
    requires c in w.conns
  {
    if w.conns[c].Alive() && w.conns[c].events != {}
    then w.(conns := w.conns[c := Close(w.conns[c]).conn], server := w.server - {c})
    else w
  }

  lemma ClosedProceeds(w: World, c: nat)
    requires Basic(w) && c in w.conns && w.conns[c].Alive()
    ensures Basic(Closed(w, c)) && Proceeds(w, Closed(w, c)) && WritingKept(w, Closed(w, c)) && Closed(w, c).Dead(c)
    ensures forall script :: CloseConn(w, c, script) == RunScript(Closed(w, c), script)
  {
    var k := w.conns[c];
    CallsSound(k, c);
    ControlGrows(k, c, []);
    ReplaceProceeds(w, c, Close(k).conn, w.server - {c});
    assert w.pending + [] == w.pending && w.pushed + [] == w.pushed;
  }

  /** closing fails an assert exactly on a closed connection, or when its callback misuses one. */
  lemma CloseConnProceeds(w: World, c: nat, onClose: seq<Call>)
    requires Basic(w) && c in w.conns
    ensures var o := CloseConn(w, c, onClose);
            && (o.Aborted? <==> w.Dead(c) || Misuses(Closed(w, c), onClose))
            && (o.Aborted? ==> CanFail(o.site))
            && (o.Ok? ==> Basic(o.world) && Proceeds(w, o.world) && WritingKept(w, o.world) && o.world.Dead(c))
  {
    if w.conns[c].Alive() {
      ClosedProceeds(w, c);
      ScriptProceeds(Closed(w, c), onClose);
      var o := CloseConn(w, c, onClose);
      if o.Ok? {
        ProceedsTrans(w, Closed(w, c), o.world);
      }
    }
  }

  /** handleRead() fails an assert exactly when the connection is closed, or its callback misuses a closed one. */
  ghost predicate ReadFaults(w: World, c: nat, env: Env)
    requires c in w.conns
  {
    || w.Dead(c)
    || (env.read.Got? && env.read.data == [] && Misuses(Closed(w, c), env.onClose))
    || (env.read.Got? && env.read.data != [] && Misuses(w, env.onMessage))
  }

  lemma ReceiveProceeds(w: World, c: nat, data: seq<byte>)
    requires Basic(w) && c in w.conns && w.conns[c].Alive()
    ensures var v := w.(conns := w.conns[c := Receive(w.conns[c], data)]);
            Basic(v) && Proceeds(w, v) && WritingKept(w, v) && forall d :: w.Dead(d) <==> v.Dead(d)
  {
    ControlGrows(w.conns[c], c, data);
    ReplaceProceeds(w, c, Receive(w.conns[c], data), w.server);
  }

  lemma MessageProceeds(w: World, c: nat, data: seq<byte>, onMessage: seq<Call>)
    requires Basic(w) && c in w.conns && w.conns[c].Alive()
    ensures var o := RunScript(w.(conns := w.conns[c := Receive(w.conns[c], data)]), onMessage);
            && (o.Aborted? <==> Misuses(w, onMessage))
            && (o.Aborted? ==> CanFail(o.site))
            && (o.Ok? ==> Basic(o.world) && Proceeds(w, o.world) && WritingKept(w, o.world))
  {
    ReceiveProceeds(w, c, data);
    var v := w.(conns := w.conns[c := Receive(w.conns[c], data)]);
    ScriptProceeds(v, onMessage);
    assert forall call :: Misused(v, call) <==> Misused(w, call);
    if RunScript(v, onMessage).Ok? {
      ProceedsTrans(w, v, RunScript(v, onMessage).world);
    }
  }

  lemma ReadConnProceeds(w: World, c: nat, env: Env)
    requires Basic(w) && c in w.conns
    ensures var o := ReadConn(w, c, env);
            && (o.Aborted? <==> ReadFaults(w, c, env))
            && (o.Aborted? ==> CanFail(o.site))
            && (o.Ok? ==> Basic(o.world) && Proceeds(w, o.world) && WritingKept(w, o.world))
  {
    if w.conns[c].Alive() {
      match env.read {
        case Failed(_) => ProceedsRefl(w);
        case Got(data) =>
          if data == [] {
            CloseConnProceeds(w, c, env.onClose);
          } else {
            MessageProceeds(w, c, data, env.onMessage);
          }
      }
    } else {
      assert w.conns[c].state == Disconnected;
    }
  }

  /** The events that fail an assert by themselves: any that reads or hangs up once closed, both at once before. */
  predicate Fatal(k: Conn, revents: Mask) {
    if k.Alive() then HangsUp(revents) && Reads(revents) else HangsUp(revents) || Reads(revents)
  }

  /** The exact conditions under which one handleEvents fails an assert. */
  ghost predicate DispatchFaults(w: World, c: nat, revents: Mask, env: Env)
    requires c in w.conns
  {
    if w.Dead(c) then HangsUp(revents) || Reads(revents)
    else if HangsUp(revents) then Reads(revents) || Misuses(Closed(w, c), env.onClose)
    else Reads(revents) && ReadFaults(w, c, env)
  }

  /** The close and read callbacks of one handleEvents. */
  function CloseAndRead(w: World, c: nat, revents: Mask, env: Env): Outcome
    requires c in w.conns
  {
    var w1 :- if HangsUp(revents) then CloseConn(w, c, env.onClose) else Ok(w);
    if Reads(revents) && c in w1.conns then ReadConn(w1, c, env) else Ok(w1)
  }

  lemma CloseAndReadProceeds(w: World, c: nat, revents: Mask, env: Env)
    requires Basic(w) && c in w.conns
    ensures var o := CloseAndRead(w, c, revents, env);
            && (o.Aborted? <==> DispatchFaults(w, c, revents, env))
            && (o.Aborted? ==> CanFail(o.site))
            && (o.Ok? ==> Basic(o.world) && Proceeds(w, o.world) && WritingKept(w, o.world))
  {
    if HangsUp(revents) {
      CloseConnProceeds(w, c, env.onClose);
      var o := CloseConn(w, c, env.onClose);
      if o.Ok? && Reads(revents) {
        ReadConnProceeds(o.world, c, env);
      }
    } else {
      ProceedsRefl(w);
      ReadConnProceeds(w, c, env);
    }
  }

  lemma FlushFrame(k: Conn, id: nat, wr: WriteResult)
    requires Flush(k, id, wr).Effect?
    ensures var e := Flush(k, id, wr);
            && ConnProceeds(k, e.conn) && e.conn.Alive() == k.Alive()
            && forall i :: 0 <= i < |e.jobs| ==> e.jobs[i] == WriteComplete(id)
  {
    FlushGrows(k, id, wr);
  }

  lemma PushProceeds(w: World, jobs: seq<Job>)
    requires forall i :: 0 <= i < |jobs| ==> !jobs[i].SendJob?
    ensures Proceeds(w, w.(pending := w.pending + jobs, pushed := w.pushed + jobs))
  {
    ProceedsRefl(w);
    assert (w.pending + jobs)[|w.pending|..] == jobs;
  }

  lemma FlushProceeds(w: World, c: nat, wr: WriteResult)
    requires Basic(w) && c in w.conns && (w.conns[c].Writing() || w.Dead(c))
    ensures var o := Apply(w, c, Flush(w.conns[c], c, wr));
            && o.Ok? && Basic(o.world) && Proceeds(w, o.world)
            && forall d :: d in w.conns && d != c ==> o.world.conns[d] == w.conns[d]
  {
    var e := Flush(w.conns[c], c, wr);
    FlushSound(w.conns[c], c, wr);
    FlushFrame(w.conns[c], c, wr);
    ApplyProceeds(w, c, e);
  }

  /** An effect that neither opens nor closes its connection, as a step of the world. */
  lemma ApplyProceeds(w: World, c: nat, e: Effect)
    requires Basic(w) && c in w.conns && e.Effect? && Sound(e.conn) && ConnProceeds(w.conns[c], e.conn)
    requires e.conn.Alive() == w.conns[c].Alive() && forall i :: 0 <= i < |e.jobs| ==> !e.jobs[i].SendJob?
    ensures Apply(w, c, e).Ok? && Basic(Apply(w, c, e).world) && Proceeds(w, Apply(w, c, e).world)
  {
    var v := w.(conns := w.conns[c := e.conn]);
    assert (if e.conn.Alive() then w.server else w.server - {c}) == w.server;
    ReplaceProceeds(w, c, e.conn, w.server);
    PushProceeds(v, e.jobs);
    ProceedsTrans(w, v, Apply(w, c, e).world);
  }

  /** One handleEvents: only the handled connection may stop writing without being closed. */
  lemma DispatchProceeds(w: World, c: nat, revents: Mask, env: Env)
    requires Basic(w) && c in w.conns
    requires OUT in revents ==> w.conns[c].Writing() || w.Dead(c)
    ensures var o := Dispatch(w, c, revents, env);
            && (o.Aborted? <==> DispatchFaults(w, c, revents, env))
            && (o.Aborted? ==> CanFail(o.site))
            && (o.Ok? ==> Basic(o.world) && Proceeds(w, o.world)
                          && forall d :: d in w.conns && d != c ==> KeepsWriting(w.conns[d], o.world.conns[d]))
  {
    CloseAndReadProceeds(w, c, revents, env);
    var o := CloseAndRead(w, c, revents, env);
    if o.Ok? && OUT in revents {
      FlushAfter(w, o.world, c, env.write);
    }
  }

  lemma FlushAfter(w: World, v: World, c: nat, wr: WriteResult)
    requires Basic(v) && Proceeds(w, v) && WritingKept(w, v) && c in w.conns && (w.conns[c].Writing() || w.Dead(c))
    ensures var o := Apply(v, c, Flush(v.conns[c], c, wr));
            && o.Ok? && Basic(o.world) && Proceeds(w, o.world)
            && forall d :: d in w.conns && d != c ==> KeepsWriting(w.conns[d], o.world.conns[d])
  {
    assert KeepsWriting(w.conns[c], v.conns[c]) && Grows(w.conns[c], v.conns[c]);
    FlushProceeds(v, c, wr);
    ProceedsTrans(w, v, Apply(v, c, Flush(v.conns[c], c, wr)).world);
  }
}
