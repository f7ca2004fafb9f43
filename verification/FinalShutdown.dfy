/** From which states exactly SHUT_WR is final: nothing more is written, and it is not attempted again. */
module FinalShutdown {
  import opened Common
  import opened Epoll
  import opened Connection
  import opened Reactor
  import opened ReactorProofs
  import opened ReactorRuns
  import opened ReactorTheorems
  import opened LateSends
  import opened ComingSends

  // ---------- states from which nothing is written ----------

  /** Closed, or shut down with nothing buffered and no bytes coming. */
  ghost predicate Final(w: World, c: nat) {
    && c in w.conns && Shut(w.conns[c])
    && (w.conns[c].Alive() ==> w.conns[c].output == [] && !BytesComing(w, c, false))
  }

  lemma FinalStays(w: World, e: Event, c: nat)
    requires Inv(w) && Final(w, c) && Step(w, e).Ok?
    ensures Final(Step(w, e).world, c) && Step(w, e).world.conns[c].log.wire == w.conns[c].log.wire
  {
    StepWrites(w, e, c);
    StepGrows(w, e, c);
    var k, v := w.conns[c], Step(w, e).world;
    assert k.log.wire + [] == k.log.wire;
    if k.Alive() {
      if RunsSendFor(w, e, c) {
        NextSendIsEmpty(w, c, false);
      }
      if v.conns[c].Alive() && BytesComing(v, c, false) {
        StepBringsNone(w, e, c, false);
      }
    }
  }

  lemma NextSendIsEmpty(w: World, c: nat, again: bool)
    requires HasNextJob(w) && w.phase.batch[0].SendJob? && w.phase.batch[0].conn == c && !BytesComing(w, c, again)
    ensures w.phase.batch[0].payload.data == [] || (again && ForceClose(c) in w.Batch())
  {
    assert w.Queue()[0] == w.phase.batch[0] && w.Queue()[..0] == [];
    assert !QueuedBytes(w, c, 0, again);
  }

  lemma {:induction false} FinalFrom(w: World, es: seq<Event>, c: nat)
    requires Inv(w) && Final(w, c) && Exec(w, es).Ok?
    ensures c in Exec(w, es).world.conns && Exec(w, es).world.conns[c].log.wire == w.conns[c].log.wire
    decreases |es|
  {
    if es != [] {
      StepKeeps(w, es[0]);
      FinalStays(w, es[0], c);
      FinalFrom(Step(w, es[0]).world, es[1..], c);
    }
  }

  // ---------- states from which SHUT_WR is not attempted ----------

  /** Closed, or to be closed in this batch, or shut down with nothing buffered and nothing coming to be flushed. */
  ghost predicate Sealed(w: World, c: nat) {
    && c in w.conns && Shut(w.conns[c])
    && (w.conns[c].Alive() ==>
          ForceClose(c) in w.Batch() || (w.conns[c].output == [] && !BytesComing(w, c, true)))
  }

  lemma SealedStays(w: World, e: Event, c: nat)
    requires Inv(w) && Sealed(w, c) && Step(w, e).Ok?
    ensures Sealed(Step(w, e).world, c) && Step(w, e).world.conns[c].log.shuts == w.conns[c].log.shuts
  {
    StepWrites(w, e, c);
    StepGrows(w, e, c);
    var v := Step(w, e).world;
    if v.conns[c].Alive() {
      if RunsSendFor(w, e, c) && ForceClose(c) !in w.Batch() {
        NextSendIsEmpty(w, c, true);
      }
      if ForceClose(c) in w.Batch() {
        ClosingStays(w, e, c);
      } else if BytesComing(v, c, true) {
        StepBringsNone(w, e, c, true);
      }
    }
  }

  /** A forced close stays in the batch until it runs. */
  lemma ClosingStays(w: World, e: Event, c: nat)
    requires Inv(w) && c in w.conns && ForceClose(c) in w.Batch() && Step(w, e).Ok?
    requires c in Step(w, e).world.conns && Step(w, e).world.conns[c].Alive()
    ensures ForceClose(c) in Step(w, e).world.Batch()
  {
    if e.RunNext? {
      RanOther(w, e, c);
    }
    HandlerEffect(w, e);
  }

  lemma {:induction false} SealedFrom(w: World, es: seq<Event>, c: nat)
    requires Inv(w) && Sealed(w, c) && Exec(w, es).Ok?
    ensures c in Exec(w, es).world.conns && Exec(w, es).world.conns[c].log.shuts == w.conns[c].log.shuts
    decreases |es|
  {
    if es != [] {
      StepKeeps(w, es[0]);
      SealedStays(w, es[0], c);
      SealedFrom(Step(w, es[0]).world, es[1..], c);
    }
  }

  // ---------- runs that write, or attempt SHUT_WR ----------

  /** What the two theorems are about: the wire, or the SHUT_WR attempts. */
  predicate Differs(k: Conn, l: Conn, again: bool) {
    if again then l.log.shuts != k.log.shuts else l.log.wire != k.log.wire
  }

  /** Some run leaves c different from k. */
  ghost predicate CanDiffer(w: World, c: nat, k: Conn, again: bool) {
    exists es :: Exec(w, es).Ok? && c in Exec(w, es).world.conns && Differs(k, Exec(w, es).world.conns[c], again)
  }

  lemma DiffersNow(w: World, e: Event, c: nat, k: Conn, again: bool)
    requires Step(w, e).Ok? && c in Step(w, e).world.conns && Differs(k, Step(w, e).world.conns[c], again)
    ensures CanDiffer(w, c, k, again)
  {
    assert Exec(w, [e]) == Exec(Step(w, e).world, []);
  }

  lemma DiffersLater(w: World, e: Event, v: World, c: nat, k: Conn, again: bool)
    requires Step(w, e) == Ok(v) && CanDiffer(v, c, k, again)
    ensures CanDiffer(w, c, k, again)
  {
    var es :| Exec(v, es).Ok? && c in Exec(v, es).world.conns && Differs(k, Exec(v, es).world.conns[c], again);
    assert ([e] + es)[1..] == es;
    assert Exec(w, [e] + es) == Exec(v, es);
  }

  /** Open and shut down, with the history of k. */
  ghost predicate Like(w: World, c: nat, k: Conn) {
    && Reachable(w) && c in w.conns && w.conns[c].state == Disconnecting
    && w.conns[c].log.wire == k.log.wire && w.conns[c].log.shuts == k.log.shuts
  }

  /** ... with nothing buffered. */
  ghost predicate Idle(w: World, c: nat, k: Conn) {
    Like(w, c, k) && w.conns[c].output == []
  }

  /** The kernel gives and takes nothing, and the client does nothing. */
  const QUIET: Env := Env(Buffers.Failed(0), WouldBlock, [], [])

  lemma WritesNow(w: World, c: nat, k: Conn)
    requires Idle(w, c, k) && HasNextJob(w) && BytesFor(w.phase.batch[0], c)
    ensures CanDiffer(w, c, k, false)
  {
    ReachableInv(w);
    var data := w.phase.batch[0].payload.data;
    assert Sound(w.conns[c]);
    WholeSend(w, c, data);
    var e := RunNext(QUIET.(write := Wrote(|data|)));
    assert |Step(w, e).world.conns[c].log.wire| == |k.log.wire| + |data|;
    DiffersNow(w, e, c, k, false);
  }

  lemma WholeSend(w: World, c: nat, data: seq<byte>)
    requires c in w.conns && Sound(w.conns[c]) && w.conns[c].state == Disconnecting && w.conns[c].output == []
    requires HasNextJob(w) && w.phase.batch[0].SendJob? && w.phase.batch[0].conn == c
    requires data == w.phase.batch[0].payload.data
    ensures var o := Step(w, RunNext(QUIET.(write := Wrote(|data|))));
            o.Ok? && c in o.world.conns && o.world.conns[c].log.wire == w.conns[c].log.wire + data
  {
    LateSendWrites(w.conns[c], c, w.phase.batch[0].payload, Wrote(|data|));
    assert data[..|data|] == data;
  }

  lemma QuietJob(w: World, c: nat, i: nat, k: Conn, again: bool) returns (v: World)
    requires Idle(w, c, k) && HasNextJob(w) && QueuedBytes(w, c, i, again) && !BytesFor(w.phase.batch[0], c)
    ensures i > 0 && Step(w, RunNext(QUIET)) == Ok(v) && Idle(v, c, k)
    ensures v.phase == Running(w.phase.batch[1..]) && QueuedBytes(v, c, i - 1, again)
  {
    ReachableInv(w);
    var e := RunNext(QUIET);
    assert w.Queue()[0] == w.phase.batch[0] && w.Queue()[..i][0] == w.phase.batch[0];
    v := QuietJobOpen(w, c);
    StepWrites(w, e, c);
    HandlerEffect(w, e);
    assert k.log.wire + [] == k.log.wire;
    QueueAfterJob(w, v, c, i, again);
  }

  lemma QueueAfterJob(w: World, v: World, c: nat, i: nat, again: bool)
    requires HasNextJob(w) && i > 0 && QueuedBytes(w, c, i, again) && JobsAdded(Popped(w), v)
    requires v.phase == Popped(w).phase && (ForceClose(c) in v.pending ==> ForceClose(c) in w.pending)
    ensures QueuedBytes(v, c, i - 1, again)
  {
    ShiftedQueue(w, v);
    assert v.Queue()[..i - 1] == w.Queue()[..i][1..];
    assert ForceClose(c) in v.Queue() ==> ForceClose(c) in w.Queue() by {
      assert forall j :: j in v.Queue() <==> j in v.Batch() || j in v.pending;
      assert forall j :: j in w.Queue() <==> j in w.Batch() || j in w.pending;
    }
  }

  lemma ShiftedQueue(w: World, v: World)
    requires HasNextJob(w) && JobsAdded(Popped(w), v) && v.phase == Popped(w).phase
    ensures w.Batch() == [w.phase.batch[0]] + v.Batch() && |v.Queue()| >= |w.Queue()| - 1
    ensures forall i :: 0 < i < |w.Queue()| ==> v.Queue()[i - 1] == w.Queue()[i]
  {
    assert v.pending == w.pending + v.pending[|w.pending|..];
  }

  lemma QuietJobOpen(w: World, c: nat) returns (v: World)
    requires Reachable(w) && c in w.conns && w.conns[c].state == Disconnecting
    requires HasNextJob(w) && w.phase.batch[0] != ForceClose(c)
    ensures Step(w, RunNext(QUIET)) == Ok(v) && Reachable(v)
    ensures c in v.conns && v.conns[c].Alive() && (w.conns[c].output != [] ==> v.conns[c].output != [])
    ensures ForceClose(c) in v.pending ==> ForceClose(c) in w.pending
  {
    ReachableInv(w);
    StepKeeps(w, RunNext(QUIET));
    v := Step(w, RunNext(QUIET)).world;
    ReachableNext(w, RunNext(QUIET), v);
    assert Sound(w.conns[c]);
    if RunsSend(w, RunNext(QUIET)) {
      SendStaysOpen(w, c);
    } else {
      OtherJobStaysOpen(w, c);
      OtherJobSilent(w, QUIET, c);
    }
    assert Sound(v.conns[c]);
  }

  lemma SendStaysOpen(w: World, c: nat)
    requires AllSound(w) && c in w.conns && w.conns[c].Alive()
    requires RunsSend(w, RunNext(QUIET))
    ensures var o := Step(w, RunNext(QUIET));
            && o.Ok? && c in o.world.conns && o.world.conns[c].Alive()
            && (w.conns[c].Writing() ==> o.world.conns[c].Writing())
            && (ForceClose(c) in o.world.pending ==> ForceClose(c) in w.pending)
  {
    var SendJob(d, p) := w.phase.batch[0];
    if d in w.conns {
      QueuedSend(w.conns[d], d, p, WouldBlock);
      SendFrame(w.conns[d], d, p, WouldBlock);
    }
  }

  lemma OtherJobStaysOpen(w: World, c: nat)
    requires c in w.conns && w.conns[c].state == Disconnecting && HasNextJob(w) && Step(w, RunNext(QUIET)).Ok?
    requires !w.phase.batch[0].SendJob? && w.phase.batch[0] != ForceClose(c)
    ensures c in Step(w, RunNext(QUIET)).world.conns && Step(w, RunNext(QUIET)).world.conns[c].Alive()
    ensures ForceClose(c) in Step(w, RunNext(QUIET)).world.pending ==> ForceClose(c) in w.pending
  {
    var j := w.phase.batch[0];
    if j.ForceClose? && j.conn in w.conns && w.conns[j.conn].state != Disconnected {
      CloseSilent(Popped(w), j.conn, [], c);
    }
  }

  lemma QuietChannel(w: World, c: nat, i: nat, k: Conn, again: bool) returns (v: World)
    requires Idle(w, c, k) && w.phase.Handling? && w.phase.active != [] && QueuedBytes(w, c, i, again)
    ensures Step(w, Handle(QUIET)) == Ok(v) && Idle(v, c, k)
    ensures v.phase == Handling(w.phase.active[1..]) && QueuedBytes(v, c, i, again)
  {
    ReachableInv(w);
    var e, r := Handle(QUIET), w.phase.active[0];
    assert Passes(w, r, c);
    SameConnsBasic(w, Taken(w));
    QuietDispatch(Taken(w), r.conn, r.revents);
    v := Step(w, e).world;
    ReachableNext(w, e, v);
    assert v.Queue() == w.Queue();
    QuietPasses(w, v, c);
  }

  /**
   * A channel that is not fatal, handled quietly: its connection is closed if it hangs up, and nothing else happens.
   */
  lemma QuietDispatch(w: World, d: nat, revents: Mask)
    requires Basic(w) && d in w.conns && !Fatal(w.conns[d], revents)
    requires OUT in revents ==> w.conns[d].Writing() || w.Dead(d)
    ensures var o := Dispatch(w, d, revents, QUIET);
            && o.Ok? && o.world == w.(conns := o.world.conns, server := o.world.server)
            && o.world.conns == w.conns[d :=
                 if w.conns[d].Alive() && HangsUp(revents) then Close(w.conns[d]).conn else w.conns[d]]
  {
    QuietInput(w, d, revents);
    var v := CloseAndRead(w, d, revents, QUIET).world;
    if OUT in revents {
      BlockedFlush(v.conns[d], d);
      NothingApplied(v, d);
    }
  }

  lemma QuietInput(w: World, d: nat, revents: Mask)
    requires Basic(w) && d in w.conns && !Fatal(w.conns[d], revents)
    ensures var o := CloseAndRead(w, d, revents, QUIET);
            && o.Ok? && o.world == w.(conns := o.world.conns, server := o.world.server)
            && o.world.conns == w.conns[d :=
                 if w.conns[d].Alive() && HangsUp(revents) then Close(w.conns[d]).conn else w.conns[d]]
            && Sound(o.world.conns[d])
            && (w.conns[d].Writing() ==> o.world.conns[d].Writing() || !o.world.conns[d].Alive())
  {
    var k := w.conns[d];
    CallsSound(k, d);
    assert w.conns[d := k] == w.conns;
    if HangsUp(revents) {
      ClosedProceeds(w, d);
      assert CloseConn(w, d, []) == RunScript(Closed(w, d), []);
    }
  }

  lemma QuietPasses(w: World, v: World, c: nat)
    requires ActiveAgrees(w) && Passable(w, c) && w.phase.Handling? && w.phase.active != []
    requires v.phase == Handling(w.phase.active[1..])
    requires forall d :: d in w.conns && d != w.phase.active[0].conn ==> d in v.conns && v.conns[d] == w.conns[d]
    ensures Passable(v, c)
  {
    forall i | 0 <= i < |v.phase.active|
      ensures Passes(v, v.phase.active[i], c)
    {
      assert v.phase.active[i] == w.phase.active[i + 1] && Passes(w, w.phase.active[i + 1], c);
    }
  }

  /** How far the loop is from running the next batch. */
  function Distance(w: World): nat {
    match w.phase
    case Running(batch) => if batch == [] then 3 else 0
    case Polling => 2
    case Handling(_) => 1
  }

  function Channels(w: World): nat {
    if w.phase.Handling? then |w.phase.active| else 0
  }

  lemma {:induction false} QueuedDiffers(w: World, c: nat, i: nat, k: Conn, again: bool)
    requires Idle(w, c, k) && QueuedBytes(w, c, i, again)
    ensures CanDiffer(w, c, k, again)
    decreases i, Distance(w), Channels(w)
  {
    if HasNextJob(w) {
      if BytesFor(w.phase.batch[0], c) {
        NextDiffers(w, c, i, k, again);
      } else {
        var v := QuietJob(w, c, i, k, again);
        QueuedDiffers(v, c, i - 1, k, again);
        DiffersLater(w, RunNext(QUIET), v, c, k, again);
      }
    } else if w.phase.Handling? && w.phase.active != [] {
      var v := QuietChannel(w, c, i, k, again);
      QueuedDiffers(v, c, i, k, again);
      DiffersLater(w, Handle(QUIET), v, c, k, again);
    } else {
      var e, v := NextPlace(w, c, i, again);
      ReachableNext(w, e, v);
      QueuedDiffers(v, c, i, k, again);
      DiffersLater(w, e, v, c, k, again);
    }
  }

  /** From the end of a batch to the poll, from the poll to the jobs, from the last channel to the next batch. */
  lemma NextPlace(w: World, c: nat, i: nat, again: bool) returns (e: Event, v: World)
    requires QueuedBytes(w, c, i, again) && !HasNextJob(w) && (w.phase.Handling? ==> w.phase.active == [])
    ensures Step(w, e) == Ok(v) && v.conns == w.conns && QueuedBytes(v, c, i, again) && Distance(v) < Distance(w)
  {
    e := match w.phase
      case Running(_) => EndJobs
      case Polling => PollReturns([])
      case Handling(_) => SwapJobs;
    v := Step(w, e).world;
    assert v.Queue() == w.Queue();
  }

  lemma SubmittedDiffers(w: World, c: nat, t: nat, k: Conn, again: bool)
    requires Idle(w, c, k) && SubmittedBytes(w, c, t)
    ensures CanDiffer(w, c, k, again)
  {
    var v := Step(w, PushSend(t)).world;
    var job := SendJob(c, Queued(t, w.Submitted(t), w.submitting[t].data));
    assert v.Queue() == w.Queue() + [job];
    assert v.Queue()[..|w.Queue()|] == w.Queue();
    assert Passable(v, c) by {
      assert Passable(w, c);
    }
    assert QueuedBytes(v, c, |w.Queue()|, again);
    ReachableNext(w, PushSend(t), v);
    QueuedDiffers(v, c, |w.Queue()|, k, again);
    DiffersLater(w, PushSend(t), v, c, k, again);
  }

  // ---------- the flush of what a late send left ----------

  /** ... with something buffered that the loop will come to flush. */
  ghost predicate Owing(w: World, c: nat, k: Conn) {
    && Like(w, c, k) && w.conns[c].output != []
    && w.phase.Running? && ForceClose(c) !in w.phase.batch
  }

  lemma NextDiffers(w: World, c: nat, i: nat, k: Conn, again: bool)
    requires Idle(w, c, k) && HasNextJob(w) && BytesFor(w.phase.batch[0], c) && QueuedBytes(w, c, i, again)
    ensures CanDiffer(w, c, k, again)
  {
    if again {
      assert forall j :: j in w.Batch() ==> j in w.Queue();
      var v := BlockedSend(w, c, k);
      OwingShuts(v, c, k);
      DiffersLater(w, RunNext(QUIET), v, c, k, true);
    } else {
      WritesNow(w, c, k);
    }
  }

  /** A late send of which the kernel takes nothing. */
  lemma BlockedSend(w: World, c: nat, k: Conn) returns (v: World)
    requires Idle(w, c, k) && HasNextJob(w) && BytesFor(w.phase.batch[0], c) && ForceClose(c) !in w.Batch()
    ensures Step(w, RunNext(QUIET)) == Ok(v) && Owing(v, c, k)
  {
    v := QuietJobOpen(w, c);
    DrainedIsSilent(w, c);
    BlockedSendBuffers(w.conns[c], c, w.phase.batch[0].payload);
    BlockedSendStep(w, c);
  }

  lemma DrainedIsSilent(w: World, c: nat)
    requires Reachable(w) && c in w.conns && w.conns[c].Alive() && w.conns[c].output == []
    ensures !w.conns[c].Writing()
  {
    ReachableInv(w);
    assert Sound(w.conns[c]);
  }

  lemma BlockedSendBuffers(k: Conn, c: nat, p: Payload)
    requires k.Alive() && !k.Writing() && k.output == [] && p.data != []
    ensures var e := SendInLoop(k, c, p, WouldBlock);
            && e.Effect? && e.conn.output == p.data && e.conn.state == k.state
            && e.conn.log.wire == k.log.wire && e.conn.log.shuts == k.log.shuts
  {
    assert p.data[0..] == p.data && k.log.wire + p.data[..0] == k.log.wire;
  }

  lemma BlockedSendStep(w: World, c: nat)
    requires HasNextJob(w) && w.phase.batch[0].SendJob? && w.phase.batch[0].conn == c && c in w.conns
    requires SendInLoop(w.conns[c], c, w.phase.batch[0].payload, WouldBlock).Effect?
    ensures var o := Step(w, RunNext(QUIET));
            && o.Ok? && c in o.world.conns && o.world.phase == Running(w.phase.batch[1..])
            && o.world.conns[c] == SendInLoop(w.conns[c], c, w.phase.batch[0].payload, WouldBlock).conn
  {
  }

  lemma {:induction false} OwingShuts(w: World, c: nat, k: Conn)
    requires Owing(w, c, k)
    ensures CanDiffer(w, c, k, true)
    decreases |w.phase.batch|
  {
    if w.phase.batch == [] {
      FlushShuts(w, c, k);
    } else {
      var v := OwingJob(w, c, k);
      OwingShuts(v, c, k);
      DiffersLater(w, RunNext(QUIET), v, c, k, true);
    }
  }

  lemma OwingJob(w: World, c: nat, k: Conn) returns (v: World)
    requires Owing(w, c, k) && HasNextJob(w)
    ensures Step(w, RunNext(QUIET)) == Ok(v) && Owing(v, c, k)
    ensures v.phase == Running(w.phase.batch[1..])
  {
    ReachableInv(w);
    v := QuietJobOpen(w, c);
    StepWrites(w, RunNext(QUIET), c);
    HandlerEffect(w, RunNext(QUIET));
    assert k.log.wire + [] == k.log.wire;
  }

  lemma FlushShuts(w: World, c: nat, k: Conn)
    requires Owing(w, c, k) && w.phase.batch == []
    ensures CanDiffer(w, c, k, true)
  {
    ReachableInv(w);
    assert Sound(w.conns[c]);
    var r, e := Ready(c, {OUT}), Handle(QUIET.(write := Wrote(|w.conns[c].output|)));
    var v1 := w.(phase := Polling);
    var v2 := w.(phase := Handling([r]));
    assert Step(w, EndJobs) == Ok(v1) && Step(v1, PollReturns([r])) == Ok(v2);
    ReachableNext(w, EndJobs, v1);
    ReachableNext(v1, PollReturns([r]), v2);
    LastFlush(v2, c, e);
    DiffersNow(v2, e, c, k, true);
    DiffersLater(v1, PollReturns([r]), v2, c, k, true);
    DiffersLater(w, EndJobs, v1, c, k, true);
  }

  lemma LastFlush(w: World, c: nat, e: Event)
    requires Reachable(w) && c in w.conns && w.conns[c].state == Disconnecting && w.conns[c].output != []
    requires w.phase == Handling([Ready(c, {OUT})]) && e == Handle(QUIET.(write := Wrote(|w.conns[c].output|)))
    ensures Step(w, e).Ok? && c in Step(w, e).world.conns
    ensures Step(w, e).world.conns[c].log.shuts == w.conns[c].log.shuts + 1
  {
    ReachableInv(w);
    StepKeeps(w, e);
    StepWrites(w, e, c);
  }

  // ---------- theorems ----------

  /** No run makes c different from what it is. */
  ghost predicate IsFinal(w: World, c: nat, again: bool)
    requires c in w.conns
  {
    forall es :: Exec(w, es).Ok? ==>
      c in Exec(w, es).world.conns && !Differs(w.conns[c], Exec(w, es).world.conns[c], again)
  }

  lemma ComingDiffers(w: World, c: nat, again: bool)
    requires Reachable(w) && c in w.conns && w.conns[c].state == Disconnecting && w.conns[c].output == []
    requires BytesComing(w, c, again)
    ensures CanDiffer(w, c, w.conns[c], again)
  {
    if i: nat :| QueuedBytes(w, c, i, again) {
      QueuedDiffers(w, c, i, w.conns[c], again);
    } else {
      var t :| SubmittedBytes(w, c, t);
      SubmittedDiffers(w, c, t, w.conns[c], again);
    }
  }

  /**
   * When what is on the wire is final: from an open connection that is shut down, with nothing buffered, some run
   * writes more if and only if a send of bytes by another thread is coming: queued or submitted, with no forced close
   * before it, and with no fatal event or hang-up of the connection still to be handled before it.
   */
  lemma FinalExactly(w: World, c: nat)
    requires Reachable(w) && c in w.conns && w.conns[c].state == Disconnecting && w.conns[c].output == []
    ensures IsFinal(w, c, false) <==> !BytesComing(w, c, false)
  {
    if BytesComing(w, c, false) {
      ComingDiffers(w, c, false);
    } else {
      ReachableInv(w);
      forall es | Exec(w, es).Ok?
        ensures c in Exec(w, es).world.conns && !Differs(w.conns[c], Exec(w, es).world.conns[c], false)
      {
        FinalFrom(w, es, c);
      }
    }
  }

  /**
   * When the SHUT_WR attempt is final: from such a state some run attempts it if and only if such a send is coming
   * that the connection outlives, so that the rest of it can be flushed: no forced close is in its batch.
   */
  lemma ShutIsFinalExactly(w: World, c: nat)
    requires Reachable(w) && c in w.conns && w.conns[c].state == Disconnecting && w.conns[c].output == []
    ensures IsFinal(w, c, true) <==> !BytesComing(w, c, true)
  {
    if BytesComing(w, c, true) {
      ComingDiffers(w, c, true);
    } else {
      ReachableInv(w);
      forall es | Exec(w, es).Ok?
        ensures c in Exec(w, es).world.conns && !Differs(w.conns[c], Exec(w, es).world.conns[c], true)
      {
        SealedFrom(w, es, c);
      }
    }
  }
}
