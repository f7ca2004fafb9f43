/** The accepted payloads of other threads are those whose jobs ran, but for the ones given up or lost. */
module RanSends {
  import opened Connection
  import opened Reactor
  import opened ReactorProofs
  import opened ReactorRuns
  import opened ReactorTheorems

  /** The payloads that other threads' jobs brought to c, in the order they ran. */
  function SendsRan(jobs: seq<Job>, c: nat): seq<Payload> {
    if jobs == [] then []
    else
      var last := jobs[|jobs| - 1];
      SendsRan(jobs[..|jobs| - 1], c) + if last.SendJob? && last.conn == c then [last.payload] else []
  }

  function FromThreads(ps: seq<Payload>): seq<Payload> {
    if ps == [] then []
    else FromThreads(ps[..|ps| - 1]) + if ps[|ps| - 1].Queued? then [ps[|ps| - 1]] else []
  }

  /** a is b without some of its elements. */
  predicate Subsequence<T(==)>(a: seq<T>, b: seq<T>)
    decreases |b|
  {
    a == []
    || (b != []
        && ((a[|a| - 1] == b[|b| - 1] && Subsequence(a[..|a| - 1], b[..|b| - 1])) || Subsequence(a, b[..|b| - 1])))
  }

  lemma SendsRanSnoc(jobs: seq<Job>, j: Job, c: nat)
    ensures SendsRan(jobs + [j], c) == SendsRan(jobs, c) + if j.SendJob? && j.conn == c then [j.payload] else []
  {
    assert (jobs + [j])[..|jobs|] == jobs;
  }

  lemma FromThreadsSnoc(ps: seq<Payload>, p: Payload)
    ensures FromThreads(ps + [p]) == FromThreads(ps) + if p.Queued? then [p] else []
  {
    assert (ps + [p])[..|ps|] == ps;
  }

  lemma SubsequenceSnoc<T>(a: seq<T>, b: seq<T>, x: T)
    requires Subsequence(a, b)
    ensures Subsequence(a, b + [x]) && Subsequence(a + [x], b + [x])
  {
    assert (b + [x])[..|b|] == b && (a + [x])[..|a|] == a;
  }

  lemma {:induction false} DirectAddsNone(ps: seq<Payload>, qs: seq<Payload>)
    requires ps <= qs && OnlyDirect(ps, qs)
    ensures FromThreads(qs) == FromThreads(ps)
    decreases |qs|
  {
    if |qs| > |ps| {
      DirectAddsNone(ps, qs[..|qs| - 1]);
    } else {
      assert qs == ps;
    }
  }

  ghost predicate ConnRan(w: World, c: nat)
    requires c in w.conns
  {
    Subsequence(FromThreads(w.conns[c].log.accepted), SendsRan(w.ran, c))
  }

  ghost predicate RanInOrder(w: World) {
    forall c :: c in w.conns ==> ConnRan(w, c)
  }

  /** Exactly which queued sends are accepted as they run, and which lose their bytes. */
  lemma RanSendExactly(w: World, e: Event, c: nat)
    requires Inv(w) && RunsSendFor(w, e, c) && c in w.conns
    ensures Step(w, e).Ok? && c in Step(w, e).world.conns
    ensures var k, l, p := w.conns[c], Step(w, e).world.conns[c], w.phase.batch[0].payload;
            var kept := k.Alive() && (k.Writing() || !e.env.write.BrokenPipe?);
            && p.Queued?
            && l.log.accepted == (if kept then k.log.accepted + [p] else k.log.accepted)
            && l.log.lost == k.log.lost + (if k.Alive() && !kept then |p.data| else 0)
  {
    assert Sound(w.conns[c]);
    SendExactly(w.conns[c], c, w.phase.batch[0].payload, e.env.write);
    NextIsQueued(w);
  }

  lemma SendExactly(k: Conn, c: nat, p: Payload, wr: WriteResult)
    requires Sound(k)
    ensures var o, kept := SendInLoop(k, c, p, wr), k.Alive() && (k.Writing() || !wr.BrokenPipe?);
            && o.Effect?
            && o.conn.log.accepted == (if kept then k.log.accepted + [p] else k.log.accepted)
            && o.conn.log.lost == k.log.lost + (if k.Alive() && !kept then |p.data| else 0)
  {
  }

  lemma NextIsQueued(w: World)
    requires JobsNumbered(w, w.Queue()) && w.phase.Running? && w.phase.batch != [] && w.phase.batch[0].SendJob?
    ensures w.phase.batch[0].payload.Queued?
  {
    assert w.Queue()[0] == w.phase.batch[0];
  }

  lemma SendRanInOrder(w: World, e: Event)
    requires Inv(w) && RunsSend(w, e) && RanInOrder(w) && Step(w, e).Ok?
    ensures RanInOrder(Step(w, e).world)
  {
    var v, job := Step(w, e).world, w.phase.batch[0];
    SendStep(w, e);
    assert v.ran == w.ran + [job];
    forall c | c in v.conns
      ensures ConnRan(v, c)
    {
      assert ConnRan(w, c);
      SendsRanSnoc(w.ran, job, c);
      if job.conn == c {
        RanSendExactly(w, e, c);
        FromThreadsSnoc(w.conns[c].log.accepted, job.payload);
        SubsequenceSnoc(FromThreads(w.conns[c].log.accepted), SendsRan(w.ran, c), job.payload);
        assert SendsRan(v.ran, c) == SendsRan(w.ran, c) + [job.payload];
      } else {
        assert SendsRan(v.ran, c) == SendsRan(w.ran, c) + [] == SendsRan(w.ran, c);
        assert v.conns[c] == w.conns[c];
      }
    }
  }

  lemma PreparedRan(w: World, e: Event, c: nat)
    requires !RunsSend(w, e)
    ensures SendsRan(Prepared(w, e).ran, c) == SendsRan(w.ran, c)
    ensures c in Prepared(w, e).conns && c !in w.conns ==> Prepared(w, e).conns[c].log.accepted == []
  {
    if e.RunNext? && w.phase.Running? && w.phase.batch != [] {
      SendsRanSnoc(w.ran, w.phase.batch[0], c);
    }
  }

  lemma OtherRanInOrder(w: World, e: Event)
    requires Inv(w) && !RunsSend(w, e) && RanInOrder(w) && Step(w, e).Ok?
    ensures RanInOrder(Step(w, e).world)
  {
    var u, v := Prepared(w, e), Step(w, e).world;
    StepProceeds(w, e);
    forall c | c in v.conns
      ensures ConnRan(v, c)
    {
      PreparedRan(w, e, c);
      if c in w.conns {
        assert ConnRan(w, c);
        PreparedSame(w, e, c);
      }
      assert ConnProceeds(u.conns[c], v.conns[c]);
      DirectAddsNone(u.conns[c].log.accepted, v.conns[c].log.accepted);
    }
  }

  lemma {:induction false} ExecRanInOrder(w: World, es: seq<Event>)
    requires Inv(w) && RanInOrder(w) && Exec(w, es).Ok?
    ensures RanInOrder(Exec(w, es).world)
    decreases |es|
  {
    if es != [] {
      StepKeeps(w, es[0]);
      if RunsSend(w, es[0]) {
        SendRanInOrder(w, es[0]);
      } else {
        OtherRanInOrder(w, es[0]);
      }
      ExecRanInOrder(Step(w, es[0]).world, es[1..]);
    }
  }

  /** What c accepted from other threads is, in order, what their jobs brought to it, some left out. */
  lemma AcceptedRan(w: World, c: nat)
    requires Reachable(w) && c in w.conns
    ensures Subsequence(FromThreads(w.conns[c].log.accepted), SendsRan(w.ran, c))
  {
    var es :| Exec(Initial(), es) == Ok(w);
    InitialInv();
    ExecRanInOrder(Initial(), es);
    assert ConnRan(w, c);
  }
}
