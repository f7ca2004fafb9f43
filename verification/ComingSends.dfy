/** Sends of other threads that a shut-down connection is still to run: no step brings one. */
module ComingSends {
  import opened Common
  import opened Epoll
  import opened Connection
  import opened Reactor
  import opened ReactorProofs
  import opened ReactorRuns
  import opened ReactorTheorems
  import opened LateSends

  predicate BytesFor(j: Job, c: nat) {
    j.SendJob? && j.conn == c && j.payload.data != []
  }

  predicate Passes(w: World, r: Ready, c: nat) {
    r.conn in w.conns && !Fatal(w.conns[r.conn], r.revents) && !(r.conn == c && HangsUp(r.revents))
  }

  /** The channels still to be handled stand in the way of no job: none is fatal, and c does not hang up. */
  ghost predicate Passable(w: World, c: nat) {
    w.phase.Handling? ==> forall i :: 0 <= i < |w.phase.active| ==> Passes(w, w.phase.active[i], c)
  }

  /**
   * The i-th queued job is a send of bytes to c, before any forced close of it; and if what it leaves is to be
   * flushed, none in its batch.
   */
  ghost predicate QueuedBytes(w: World, c: nat, i: nat, again: bool) {
    && i < |w.Queue()| && BytesFor(w.Queue()[i], c)
    && (again && i < |w.Batch()| ==> ForceClose(c) !in w.Batch())
    && (again && i >= |w.Batch()| ==> ForceClose(c) !in w.Queue())
    && ForceClose(c) !in w.Queue()[..i]
    && (i < |w.Batch()| || Passable(w, c))
  }

  /** Thread t is about to push such a job. */
  ghost predicate SubmittedBytes(w: World, c: nat, t: nat) {
    && t in w.submitting && w.submitting[t].conn == c && w.submitting[t].data != []
    && ForceClose(c) !in w.Queue() && Passable(w, c)
  }

  /** A send of bytes to c is coming, and again: c is there to flush what it leaves. */
  ghost predicate BytesComing(w: World, c: nat, again: bool) {
    (exists i :: QueuedBytes(w, c, i, again)) || (exists t :: SubmittedBytes(w, c, t))
  }

  /** A handler brings no such send, nor does it clear the way for one. */
  lemma HandlerBringsNone(u: World, v: World, c: nat, again: bool)
    requires JobsAdded(u, v) && v.phase == u.phase && v.submitting == u.submitting && ActiveAgrees(u)
    requires forall d :: u.Dead(d) ==> v.Dead(d)
    requires BytesComing(v, c, again)
    ensures BytesComing(u, c, again)
  {
    HandlerPassable(u, v, c);
    if i: nat :| QueuedBytes(v, c, i, again) {
      QueuedBefore(u, v, c, i, again);
    } else {
      var t :| SubmittedBytes(v, c, t);
      SubmittedBefore(u, v, c, t);
    }
  }

  lemma QueuedBefore(u: World, v: World, c: nat, i: nat, again: bool)
    requires JobsAdded(u, v) && v.phase == u.phase && (Passable(v, c) ==> Passable(u, c)) && QueuedBytes(v, c, i, again)
    ensures QueuedBytes(u, c, i, again)
  {
    var more := v.pending[|u.pending|..];
    assert v.pending == u.pending + more;
    assert v.Queue() == u.Queue() + more;
    assert v.Queue()[..i] == u.Queue()[..i];
  }

  lemma SubmittedBefore(u: World, v: World, c: nat, t: nat)
    requires JobsAdded(u, v) && v.phase == u.phase && v.submitting == u.submitting
    requires (Passable(v, c) ==> Passable(u, c)) && SubmittedBytes(v, c, t)
    ensures SubmittedBytes(u, c, t)
  {
    assert v.pending == u.pending + v.pending[|u.pending|..];
    assert v.Queue() == u.Queue() + v.pending[|u.pending|..];
  }

  /** Nor does a step that leaves the queue alone. */
  lemma SameQueueBringsNone(w: World, v: World, c: nat, again: bool)
    requires v.Queue() == w.Queue() && BytesComing(v, c, again)
    requires forall t :: t in v.submitting && v.submitting[t].conn == c ==>
               t in w.submitting && w.submitting[t] == v.submitting[t]
    requires Passable(v, c) ==> Passable(w, c)
    requires v.Batch() == w.Batch() || (w.Batch() == [] && v.Batch() == v.Queue() && Passable(w, c))
    ensures BytesComing(w, c, again)
  {
    if i: nat :| QueuedBytes(v, c, i, again) {
      assert QueuedBytes(w, c, i, again);
    } else {
      var t :| SubmittedBytes(v, c, t);
      assert SubmittedBytes(w, c, t);
    }
  }

  lemma HandlerPassable(u: World, v: World, c: nat)
    requires v.phase == u.phase && ActiveAgrees(u) && forall d :: u.Dead(d) ==> v.Dead(d)
    ensures Passable(v, c) ==> Passable(u, c)
  {
    forall r: Ready | Passes(v, r, c) && r.conn in u.conns
      ensures Passes(u, r, c)
    {
      assert u.Dead(r.conn) ==> v.Dead(r.conn);
    }
  }

  lemma TakenPassable(w: World, c: nat)
    requires w.phase.Handling? && w.phase.active != [] && Passes(w, w.phase.active[0], c)
    ensures Passable(Taken(w), c) ==> Passable(w, c)
  {
    assert forall i :: 0 < i < |w.phase.active| ==> w.phase.active[i] == Taken(w).phase.active[i - 1];
  }

  lemma AcceptedPassable(w: World, d: nat, onWriteComplete: bool, c: nat)
    requires ActiveAgrees(w) && d !in w.conns
    ensures Passable(Accepted(w, d, onWriteComplete), c) ==> Passable(w, c)
  {
    forall r: Ready | Passes(Accepted(w, d, onWriteComplete), r, c) && r.conn in w.conns
      ensures Passes(w, r, c)
    {
    }
  }

  lemma PoppedBringsNone(w: World, c: nat, again: bool)
    requires HasNextJob(w) && w.phase.batch[0] != ForceClose(c) && BytesComing(Popped(w), c, again)
    ensures BytesComing(w, c, again)
  {
    var u := Popped(w);
    assert w.Queue() == [w.phase.batch[0]] + u.Queue();
    if i: nat :| QueuedBytes(u, c, i, again) {
      assert w.Queue()[..i + 1] == [w.phase.batch[0]] + u.Queue()[..i];
      assert QueuedBytes(w, c, i + 1, again);
    } else {
      var t :| SubmittedBytes(u, c, t);
      assert SubmittedBytes(w, c, t);
    }
  }

  lemma PushBringsNone(w: World, t: nat, c: nat, again: bool)
    requires t in w.submitting && BytesComing(Step(w, PushSend(t)).world, c, again)
    ensures BytesComing(w, c, again)
  {
    var v := Step(w, PushSend(t)).world;
    var job := SendJob(w.submitting[t].conn, Queued(t, w.Submitted(t), w.submitting[t].data));
    assert v.Queue() == w.Queue() + [job];
    assert Passable(v, c) <==> Passable(w, c);
    if i: nat :| QueuedBytes(v, c, i, again) {
      if i < |w.Queue()| {
        assert v.Queue()[..i] == w.Queue()[..i];
        assert QueuedBytes(w, c, i, again);
      } else {
        assert v.Queue()[..i] == w.Queue();
        assert SubmittedBytes(w, c, t);
      }
    } else {
      var s :| SubmittedBytes(v, c, s);
      assert SubmittedBytes(w, c, s);
    }
  }

  lemma TaskBringsNone(w: World, v: World, c: nat, task: nat, again: bool)
    requires v == w.(pending := w.pending + [Task(task)], pushed := v.pushed) && BytesComing(v, c, again)
    ensures BytesComing(w, c, again)
  {
    assert v.Queue() == w.Queue() + [Task(task)];
    assert Passable(v, c) <==> Passable(w, c);
    if i: nat :| QueuedBytes(v, c, i, again) {
      assert v.Queue()[..i] == w.Queue()[..i];
      assert QueuedBytes(w, c, i, again);
    } else {
      var t :| SubmittedBytes(v, c, t);
      assert SubmittedBytes(w, c, t);
    }
  }

  /** What a step does before its handler starts. */
  lemma PreparedBringsNone(w: World, e: Event, c: nat, again: bool)
    requires ActiveAgrees(w) && c in w.conns && w.conns[c].state != Connected && BytesComing(Prepared(w, e), c, again)
    requires e.Handle? && w.phase.Handling? && w.phase.active != [] ==> Passes(w, w.phase.active[0], c)
    requires e.RunNext? && HasNextJob(w) ==> w.phase.batch[0] != ForceClose(c)
    ensures BytesComing(w, c, again)
  {
    var u := Prepared(w, e);
    match e {
      case Handle(_) => if w.phase.Handling? && w.phase.active != [] { TakenBringsNone(w, c, again); }
      case Accept(d, onWriteComplete, _) =>
        if w.phase.Handling? && d !in w.conns { AcceptedBringsNone(w, d, onWriteComplete, c, again); }
      case RunNext(_) => if HasNextJob(w) { PoppedBringsNone(w, c, again); }
      case Submit(t, d, data) => if u != w { SubmitBringsNone(w, t, d, data, c, again); }
      case PushSend(t) => if t in w.submitting { PushBringsNone(w, t, c, again); }
      case PushTask(task) => TaskBringsNone(w, u, c, task, again);
      case OtherHandler(_) =>
      case _ => LoopBringsNone(w, e, c, again);
    }
  }

  lemma TakenBringsNone(w: World, c: nat, again: bool)
    requires w.phase.Handling? && w.phase.active != [] && Passes(w, w.phase.active[0], c)
    requires BytesComing(Taken(w), c, again)
    ensures BytesComing(w, c, again)
  {
    TakenPassable(w, c);
    SameQueueBringsNone(w, Taken(w), c, again);
  }

  lemma AcceptedBringsNone(w: World, d: nat, onWriteComplete: bool, c: nat, again: bool)
    requires ActiveAgrees(w) && d !in w.conns && BytesComing(Accepted(w, d, onWriteComplete), c, again)
    ensures BytesComing(w, c, again)
  {
    AcceptedPassable(w, d, onWriteComplete, c);
    SameQueueBringsNone(w, Accepted(w, d, onWriteComplete), c, again);
  }

  lemma SubmitBringsNone(w: World, t: nat, d: nat, data: seq<byte>, c: nat, again: bool)
    requires d != c && BytesComing(w.(submitting := w.submitting[t := Submission(d, data)]), c, again)
    ensures BytesComing(w, c, again)
  {
    var v := w.(submitting := w.submitting[t := Submission(d, data)]);
    assert Passable(v, c) <==> Passable(w, c);
    SameQueueBringsNone(w, v, c, again);
  }

  /** From the poll to the channels, from the last channel to the batch, from the last job to the poll. */
  lemma LoopBringsNone(w: World, e: Event, c: nat, again: bool)
    requires e.PollReturns? || e.SwapJobs? || e.EndJobs?
    requires Step(w, e).Ok? && BytesComing(Step(w, e).world, c, again)
    ensures BytesComing(w, c, again)
  {
    var v := Step(w, e).world;
    if v != w {
      assert v.Queue() == w.Queue() && Passable(w, c);
      SameQueueBringsNone(w, v, c, again);
    }
  }

  // ---------- whole steps ----------

  /** Handling a hang-up of c closes it, and handling a fatal event fails an assert. */
  lemma HandledPasses(w: World, e: Event, c: nat)
    requires Inv(w) && e.Handle? && w.phase.Handling? && w.phase.active != [] && c in w.conns && Shut(w.conns[c])
    requires Step(w, e).Ok? && c in Step(w, e).world.conns && Step(w, e).world.conns[c].Alive()
    ensures Passes(w, w.phase.active[0], c)
  {
    HandleKeeps(w, e.env);
    if w.phase.active[0].conn == c && HangsUp(w.phase.active[0].revents) {
      HangUpCloses(w, e.env, c);
    }
  }

  lemma HangUpCloses(w: World, env: Env, c: nat)
    requires w.phase.Handling? && w.phase.active != []
    requires w.phase.active[0].conn == c && HangsUp(w.phase.active[0].revents)
    requires c in w.conns && Shut(w.conns[c]) && Step(w, Handle(env)).Ok?
    ensures c in Step(w, Handle(env)).world.conns && !Step(w, Handle(env)).world.conns[c].Alive()
  {
    var r := w.phase.active[0];
    InputSilent(Taken(w), c, r.revents, env, c);
    var v := CloseAndRead(Taken(w), c, r.revents, env).world;
    if OUT in r.revents {
      assert Step(w, Handle(env)) == Apply(v, c, Flush(v.conns[c], c, env.write));
    } else {
      assert Step(w, Handle(env)) == Ok(v);
    }
  }

  lemma RanOther(w: World, e: Event, c: nat)
    requires Inv(w) && e.RunNext? && HasNextJob(w) && c in w.conns
    requires Step(w, e).Ok? && c in Step(w, e).world.conns && Step(w, e).world.conns[c].Alive()
    ensures w.phase.batch[0] != ForceClose(c)
  {
    if w.phase.batch[0] == ForceClose(c) {
      PoppedInv(w);
      OtherJobKeeps(Popped(w), ForceClose(c), e.env);
    }
  }

  /** No step that leaves c open brings a send of bytes. */
  lemma StepBringsNone(w: World, e: Event, c: nat, again: bool)
    requires Inv(w) && c in w.conns && Shut(w.conns[c]) && Step(w, e).Ok?
    requires c in Step(w, e).world.conns && Step(w, e).world.conns[c].Alive() && BytesComing(Step(w, e).world, c, again)
    ensures BytesComing(w, c, again)
  {
    if e.Handle? && w.phase.Handling? && w.phase.active != [] {
      HandledPasses(w, e, c);
    }
    if e.RunNext? && HasNextJob(w) {
      RanOther(w, e, c);
    }
    PreparedAgrees(w, e);
    HandlerEffect(w, e);
    HandlerBringsNone(Prepared(w, e), Step(w, e).world, c, again);
    PreparedBringsNone(w, e, c, again);
  }

  lemma PreparedAgrees(w: World, e: Event)
    requires Inv(w) && Step(w, e).Ok?
    ensures ActiveAgrees(Prepared(w, e))
  {
    match e {
      case Handle(_) => if w.phase.Handling? && w.phase.active != [] { TakenInv(w); }
      case Accept(c, onWriteComplete, _) => if c !in w.conns { AcceptedInv(w, c, onWriteComplete); }
      case RunNext(_) =>
      case OtherHandler(_) =>
      case _ => StepKeeps(w, e);
    }
  }

  lemma HandlerEffect(w: World, e: Event)
    requires Inv(w) && Step(w, e).Ok?
    ensures var u, v := Prepared(w, e), Step(w, e).world;
            && JobsAdded(u, v) && v.phase == u.phase && v.submitting == u.submitting
            && forall d :: u.Dead(d) ==> v.Dead(d)
  {
    if RunsSend(w, e) {
      SendStep(w, e);
    } else {
      StepProceeds(w, e);
    }
  }
}
