/** When the echo server gives a connection more time, when it closes it, and that it never keeps input to itself. */
module EchoExpiry {
  import opened Common
  import opened Epoll
  import opened Connection
  import opened Reactor
  import opened ReactorProofs
  import opened ReactorRuns
  import opened Echo
  import opened EchoServe
  import opened EchoRuns

  // ---------- what one handleEvents did, seen from outside ----------

  /** What handling an event reads, and whether the connection survives it. */
  lemma ServedSeen(k: Conn, c: nat, revents: Mask, read: Buffers.ReadResult,
                   echoWrite: WriteResult, flushWrite: WriteResult)
    requires Sound(k) && k.Alive() && !Fatal(k, revents) && (OUT in revents ==> k.Writing())
    ensures var e := Served(k, c, revents, read, echoWrite, flushWrite);
            && e.Effect?
            && e.conn.log.got
               == (if Reads(revents) && !HangsUp(revents) && read.Got? then k.log.got + read.data else k.log.got)
            && (e.conn.Alive() <==> !HangsUp(revents) && (Reads(revents) ==> read != Buffers.Got([])))
            && (e.conn.state == Connected ==> k.state == Connected)
            && (k.input == [] && e.conn.state == Connected ==> e.conn.input == [])
  {
    ServedSound(k, c, revents, read, echoWrite, flushWrite);
    InputSeen(k, c, revents, read, echoWrite);
    var e := CloseOrRead(k, c, revents, read, echoWrite);
    if OUT in revents {
      FlushSeen(e.conn, c, flushWrite);
    }
  }

  lemma FlushSeen(k: Conn, c: nat, wr: WriteResult)
    ensures var e := Flush(k, c, wr);
            e.Effect? ==> e.conn.log.got == k.log.got && e.conn.state == k.state && e.conn.input == k.input
  {
  }

  lemma InputSeen(k: Conn, c: nat, revents: Mask, read: Buffers.ReadResult, wr: WriteResult)
    requires Sound(k) && k.Alive() && !Fatal(k, revents)
    ensures var e := CloseOrRead(k, c, revents, read, wr);
            && e.Effect?
            && e.conn.log.got
               == (if Reads(revents) && !HangsUp(revents) && read.Got? then k.log.got + read.data else k.log.got)
            && (e.conn.Alive() <==> !HangsUp(revents) && (Reads(revents) ==> read != Buffers.Got([])))
            && (e.conn.state == Connected ==> k.state == Connected)
            && (k.input == [] && e.conn.state == Connected ==> e.conn.input == [])
  {
    InputSound(k, c, revents, read, wr);
    if !HangsUp(revents) && Reads(revents) && read.Got? {
      if read.data == [] {
        assert k.log.got + [] == k.log.got;
      } else {
        MessageSeen(k, c, read.data, wr);
      }
    }
  }

  lemma MessageSeen(k: Conn, c: nat, data: seq<byte>, wr: WriteResult)
    requires Sound(k) && k.Alive()
    ensures var e := Message(k, c, data, wr);
            && e.Effect? && e.conn.log.got == k.log.got + data && e.conn.state == k.state
            && (k.state == Connected ==> e.conn.input == [])
  {
    var r := Receive(k, data);
    assert Sound(r);
    SendInLoopSound(r, c, Direct(r.input), wr);
    SendFrame(r, c, Direct(r.input), wr);
  }

  // ---------- nothing lingers in the input buffer ----------

  ghost predicate AllSent(w: World) {
    forall c :: c in w.conns && w.conns[c].state == Connected ==> w.conns[c].input == []
  }

  lemma {:induction false} CloseAllSent(w: World, order: seq<nat>)
    requires AllSent(w)
    ensures RunScript(w, CloseAll(order)).Ok? && AllSent(RunScript(w, CloseAll(order)).world)
    decreases |order|
  {
    if order != [] {
      var v := DoCall(w, CloseSoon(order[0])).world;
      assert CloseAll(order)[1..] == CloseAll(order[1..]);
      CloseAllSent(v, order[1..]);
    }
  }

  lemma HandledSent(w: World, read: Buffers.ReadResult, echoWrite: WriteResult, flushWrite: WriteResult)
    requires Basic(w) && ActiveAgrees(w) && HasNext(w) && AllSent(w)
    ensures var o := Step(w, Handle(HandleEnv(w, read, echoWrite, flushWrite))); o.Ok? ==> AllSent(o.world)
  {
    var r := w.phase.active[0];
    HandleServes(w, read, echoWrite, flushWrite);
    if !Fatal(w.conns[r.conn], r.revents) {
      if w.conns[r.conn].Alive() {
        ServedSeen(w.conns[r.conn], r.conn, r.revents, read, echoWrite, flushWrite);
      } else {
        ServedDead(w.conns[r.conn], r.conn, r.revents, read, echoWrite, flushWrite);
      }
    }
  }

  lemma ServedDead(k: Conn, c: nat, revents: Mask, read: Buffers.ReadResult,
                   echoWrite: WriteResult, flushWrite: WriteResult)
    requires Sound(k) && !k.Alive() && !Fatal(k, revents)
    ensures Served(k, c, revents, read, echoWrite, flushWrite) == Effect(k, [])
  {
  }

  lemma JobSent(w: World)
    requires Basic(w) && EchoOk(w) && HasJob(w) && AllSent(w)
    ensures var o := Step(w, RunNext(JobEnv(w))); o.Ok? ==> AllSent(o.world)
  {
    JobResult(w, JobEnv(w));
    var j := w.phase.batch[0];
    AfterJobInput(w.conns[j.conn], j);
    OneSent(w, Step(w, RunNext(JobEnv(w))).world, j.conn);
  }

  lemma AfterJobInput(k: Conn, j: Job)
    ensures AfterJob(k, j).input == k.input && (AfterJob(k, j).state == Connected ==> k.state == Connected)
  {
  }

  lemma OneSent(w: World, v: World, c: nat)
    requires AllSent(w) && c in w.conns && c in v.conns && v.conns == w.conns[c := v.conns[c]]
    requires v.conns[c].input == w.conns[c].input && (v.conns[c].state == Connected ==> w.conns[c].state == Connected)
    ensures AllSent(v)
  {
  }

  lemma PlaceSent(s: EchoState, e: EchoEvent)
    requires AllSent(s.world) && !e.Handled? && !e.JobRuns? && Step(s.world, Lower(s, e)).Ok?
    ensures AllSent(Step(s.world, Lower(s, e)).world)
  {
    match e {
      case Connects(_, c) =>
        if s.world.phase.Handling? && c !in s.world.conns { ConnectStep(s.world, c); }
      case Timeout(now, order) => CloseAllSent(s.world, order);
      case _ =>
    }
  }

  lemma StepSent(s: EchoState, e: EchoEvent)
    requires Basic(s.world) && ActiveAgrees(s.world) && EchoOk(s.world)
    requires AllSent(s.world) && Step(s.world, Lower(s, e)).Ok?
    ensures AllSent(Step(s.world, Lower(s, e)).world)
  {
    if e.Handled? && HasNext(s.world) {
      HandledSent(s.world, e.read, e.echoWrite, e.flushWrite);
    } else if e.JobRuns? && HasJob(s.world) {
      JobSent(s.world);
    } else if !e.Handled? && !e.JobRuns? {
      PlaceSent(s, e);
    }
  }

  lemma {:induction false} ExecSent(s: EchoState, es: seq<EchoEvent>, timeout: nat)
    requires EchoInv(s) && AllSent(s.world) && EchoExec(s, es, timeout).Serving?
    ensures AllSent(EchoExec(s, es, timeout).state.world)
    decreases |es|
  {
    if es != [] {
      StepSent(s, es[0]);
      EchoStepKeeps(s, es[0], timeout);
      ExecSent(EchoStep(s, es[0], timeout).state, es[1..], timeout);
    }
  }

  /**
   * The server keeps nothing to itself: whatever a connected client sent is on its way back, on the wire or in the
   * output buffer, unless a write lost it.
   */
  lemma NothingLingers(s: EchoState, timeout: nat, c: nat)
    requires EchoReachable(s, timeout) && c in s.world.conns && s.world.conns[c].state == Connected
    ensures var k := s.world.conns[c];
            && k.input == []
            && |k.log.got| == |k.log.wire| + |k.output| + k.log.lost
            && (k.log.lost == 0 ==> k.log.got == k.log.wire + k.output)
  {
    var es :| EchoExec(START, es, timeout) == Serving(s);
    InitialInv();
    ExecSent(START, es, timeout);
    EchoReachableInv(s, timeout);
    assert EchoConn(s.world.conns[c], c, s.world.Queue());
    var sent := s.world.conns[c].log.wire + s.world.conns[c].output;
    assert sent + [] == sent;
  }

  // ---------- who is closed for idling ----------

  lemma {:induction false} CloseAllSpares(w: World, order: seq<nat>, c: nat)
    requires c in w.conns && c !in order
    ensures var o := RunScript(w, CloseAll(order));
            && o.Ok? && c in o.world.conns && o.world.conns[c] == w.conns[c]
            && (ForceClose(c) in o.world.pending <==> ForceClose(c) in w.pending)
    decreases |order|
  {
    if order != [] {
      var v := DoCall(w, CloseSoon(order[0])).world;
      assert CloseAll(order)[1..] == CloseAll(order[1..]);
      CloseAllSpares(v, order[1..], c);
    }
  }

  /** onTimeout leaves every connection alone whose time has not come, or that it no longer knows. */
  lemma TimeoutSpares(s: EchoState, timeout: nat, now: int, order: seq<nat>, c: nat)
    requires c in s.world.conns && (c in s.expiry ==> s.expiry[c] > now)
    ensures var o := EchoStep(s, Timeout(now, order), timeout);
            && o.Serving? && c in o.state.world.conns && o.state.world.conns[c] == s.world.conns[c]
            && (ForceClose(c) in o.state.world.pending <==> ForceClose(c) in s.world.pending)
            && Lookup(o.state.expiry, c) == Lookup(s.expiry, c)
  {
    if s.world.phase.Handling? && Visits(s.expiry, now, order) {
      CloseAllSpares(s.world, order, c);
    }
  }

  // ---------- who is given more time ----------

  function Lookup(m: map<nat, int>, c: nat): Option<int> {
    if c in m then Some(m[c]) else None
  }

  /** The job that runs tells the client that the output of c reached the mark. */
  predicate Warned(w: World, e: EchoEvent, c: nat) {
    e.JobRuns? && HasJob(w) && w.phase.batch[0].HighWater? && w.phase.batch[0].conn == c
  }

  predicate Visited(s: EchoState, e: EchoEvent, c: nat) {
    e.Timeout? && s.world.phase.Handling? && Visits(s.expiry, e.now, e.order) && c in e.order
  }

  /**
   * The time a connection has after a step, from what the step is seen to do to it: k is the connection before, l
   * after.
   */
  function Time(s: EchoState, e: EchoEvent, k: Conn, l: Conn, c: nat, timeout: nat): Option<int> {
    if k.log.downs < l.log.downs || Visited(s, e, c) then None
    else if e.Handled? && k.log.got != l.log.got then Some(e.now + timeout)
    else if e.JobRuns? && IN !in k.events && IN in l.events then Some(e.now + timeout)
    else if Warned(s.world, e, c) then Some(e.now + 2 * timeout)
    else Lookup(s.expiry, c)
  }

  /** Closing is seen by the count of down callbacks, and reading by what was got. */
  lemma ServedTells(k: Conn, c: nat, revents: Mask, read: Buffers.ReadResult,
                    echoWrite: WriteResult, flushWrite: WriteResult)
    requires Sound(k) && !Fatal(k, revents) && (OUT in revents ==> k.Writing() || !k.Alive())
    ensures var e := Served(k, c, revents, read, echoWrite, flushWrite);
            && e.Effect?
            && (k.log.downs < e.conn.log.downs <==> k.Alive() && !e.conn.Alive())
            && (e.conn.Alive() || !k.Alive() ==> (k.log.got != e.conn.log.got <==> Reads(revents) && read.Got?))
  {
    ServedSound(k, c, revents, read, echoWrite, flushWrite);
    if k.Alive() {
      ServedSeen(k, c, revents, read, echoWrite, flushWrite);
      var l := Served(k, c, revents, read, echoWrite, flushWrite).conn;
      assert |l.log.got| == |k.log.got| + if Reads(revents) && !HangsUp(revents) && read.Got? then |read.data| else 0;
    } else {
      ServedDead(k, c, revents, read, echoWrite, flushWrite);
    }
  }

  lemma HandledTime(s: EchoState, e: EchoEvent, v: World, timeout: nat, c: nat)
    requires e.Handled? && HasNext(s.world) && c in s.world.conns
    requires var w, r := s.world, s.world.phase.active[0];
             var k := w.conns[r.conn];
             && r.conn in v.conns && v.conns == w.conns[r.conn := v.conns[r.conn]]
             && (k.log.downs < v.conns[r.conn].log.downs <==> k.Alive() && !v.conns[r.conn].Alive())
             && (v.conns[r.conn].Alive() || !k.Alive() ==>
                   (k.log.got != v.conns[r.conn].log.got <==> Reads(r.revents) && e.read.Got?))
    ensures c in v.conns
    ensures Lookup(Expiry(s, e, v, timeout), c) == Time(s, e, s.world.conns[c], v.conns[c], c, timeout)
  {
  }

  lemma HandledTimes(s: EchoState, e: EchoEvent, timeout: nat, c: nat)
    requires Basic(s.world) && ActiveAgrees(s.world)
    requires e.Handled? && EchoStep(s, e, timeout).Serving? && c in s.world.conns
    ensures var t := EchoStep(s, e, timeout).state;
            c in t.world.conns
            && Lookup(t.expiry, c) == Time(s, e, s.world.conns[c], t.world.conns[c], c, timeout)
  {
    var w, v := s.world, EchoStep(s, e, timeout).state.world;
    if HasNext(w) {
      var r := w.phase.active[0];
      HandleServes(w, e.read, e.echoWrite, e.flushWrite);
      ServedTells(w.conns[r.conn], r.conn, r.revents, e.read, e.echoWrite, e.flushWrite);
      HandledTime(s, e, v, timeout, c);
    } else {
      assert v == w;
    }
  }

  /** What a job is seen to do to its connection. */
  lemma JobTells(k: Conn, j: Job)
    requires Sound(k) && (j.WriteComplete? || j.HighWater? || j.ForceClose?)
    ensures var l := AfterJob(k, j);
            && (k.log.downs < l.log.downs <==> k.Alive() && !l.Alive()) && (l.Alive() ==> k.Alive())
            && (IN !in k.events && IN in l.events <==> j.WriteComplete? && IN !in k.events)
  {
    CallsSound(k, 0);
  }

  lemma JobTime(s: EchoState, e: EchoEvent, v: World, timeout: nat, c: nat)
    requires e.JobRuns? && HasJob(s.world) && c in s.world.conns
    requires var w, j := s.world, s.world.phase.batch[0];
             && (j.WriteComplete? || j.HighWater? || j.ForceClose?) && j.conn in w.conns && j.conn in v.conns
             && v.conns == w.conns[j.conn := AfterJob(w.conns[j.conn], j)] && Sound(w.conns[j.conn])
    ensures c in v.conns
    ensures Lookup(Expiry(s, e, v, timeout), c) == Time(s, e, s.world.conns[c], v.conns[c], c, timeout)
  {
    var j := s.world.phase.batch[0];
    JobTells(s.world.conns[j.conn], j);
  }

  lemma JobTimes(s: EchoState, e: EchoEvent, timeout: nat, c: nat)
    requires Basic(s.world) && EchoOk(s.world)
    requires e.JobRuns? && EchoStep(s, e, timeout).Serving? && c in s.world.conns
    ensures var t := EchoStep(s, e, timeout).state;
            c in t.world.conns
            && Lookup(t.expiry, c) == Time(s, e, s.world.conns[c], t.world.conns[c], c, timeout)
  {
    if HasJob(s.world) {
      JobResult(s.world, JobEnv(s.world));
      JobTime(s, e, EchoStep(s, e, timeout).state.world, timeout, c);
    }
  }

  lemma TimeoutTimes(s: EchoState, e: EchoEvent, timeout: nat, c: nat)
    requires e.Timeout? && EchoStep(s, e, timeout).Serving? && c in s.world.conns
    ensures var t := EchoStep(s, e, timeout).state;
            c in t.world.conns
            && Lookup(t.expiry, c) == Time(s, e, s.world.conns[c], t.world.conns[c], c, timeout)
  {
    if s.world.phase.Handling? && Visits(s.expiry, e.now, e.order) {
      CloseAllCloses(s.world, e.order, c);
    }
  }

  lemma {:induction false} CloseAllCloses(w: World, order: seq<nat>, c: nat)
    requires c in w.conns && RunScript(w, CloseAll(order)).Ok?
    ensures var v := RunScript(w, CloseAll(order)).world;
            c in v.conns && v.conns[c].log == w.conns[c].log
    decreases |order|
  {
    if order != [] {
      assert CloseAll(order)[1..] == CloseAll(order[1..]);
      CloseAllCloses(DoCall(w, CloseSoon(order[0])).world, order[1..], c);
    }
  }

  lemma PlaceTimes(s: EchoState, e: EchoEvent, timeout: nat, c: nat)
    requires e.Polled? || e.Swapped? || e.JobsEnd? || e.Connects?
    requires EchoStep(s, e, timeout).Serving? && c in s.world.conns
    ensures var t := EchoStep(s, e, timeout).state;
            c in t.world.conns
            && Lookup(t.expiry, c) == Time(s, e, s.world.conns[c], t.world.conns[c], c, timeout)
  {
    if e.Connects? && s.world.phase.Handling? && e.conn !in s.world.conns {
      ConnectStep(s.world, e.conn);
    }
  }

  lemma ReachableParts(s: EchoState, timeout: nat)
    requires EchoReachable(s, timeout)
    ensures Basic(s.world) && ActiveAgrees(s.world) && EchoOk(s.world)
  {
    EchoReachableInv(s, timeout);
  }

  /**
   * Every step, for every connection: a message gives it the whole time-out, reading again after a write completes
   * likewise, the high-water mark twice as much; closing and onTimeout take its time away, and nothing else touches it.
   */
  lemma TimesExactly(s: EchoState, e: EchoEvent, timeout: nat, c: nat)
    requires EchoReachable(s, timeout) && EchoStep(s, e, timeout).Serving? && c in s.world.conns
    ensures var t := EchoStep(s, e, timeout).state;
            c in t.world.conns
            && Lookup(t.expiry, c) == Time(s, e, s.world.conns[c], t.world.conns[c], c, timeout)
  {
    if e.Handled? {
      ReachableParts(s, timeout);
      HandledTimes(s, e, timeout, c);
    } else if e.JobRuns? {
      ReachableParts(s, timeout);
      JobTimes(s, e, timeout, c);
    } else if e.Timeout? {
      TimeoutTimes(s, e, timeout, c);
    } else {
      PlaceTimes(s, e, timeout, c);
    }
  }

  /** A new connection has the whole time-out before it. */
  lemma NewTimes(s: EchoState, e: EchoEvent, timeout: nat, c: nat)
    requires EchoReachable(s, timeout) && EchoStep(s, e, timeout).Serving?
    requires c !in s.world.conns && c in EchoStep(s, e, timeout).state.world.conns
    ensures e.Connects? && Lookup(EchoStep(s, e, timeout).state.expiry, c) == Some(e.now + timeout)
  {
    EchoReachableInv(s, timeout);
    NewConnection(s, e, c);
  }
}
