/**
 * The client's map holds the closed connections that can crash the server: what EchoDoom says of them does not rest
 * on their living for ever, unless a time-out forgot one.
 */
module EchoHeld {
  import opened Epoll
  import opened Connection
  import opened Reactor
  import opened ReactorProofs
  import opened ReactorRuns
  import opened Echo
  import opened EchoServe
  import opened EchoRuns
  import opened EchoLimits
  import opened EchoDoom

  /** Every closed connection that is registered, or has a fatal event still to be handled, is in the map. */
  ghost predicate Held(s: EchoState) {
    && (forall c :: c in s.world.conns && Revived(s.world.conns[c]) ==> c in s.expiry)
    && (s.world.phase.Handling? ==>
          forall i :: 0 <= i < |s.world.phase.active| && FatalTo(s.world, s.world.phase.active[i]) ==>
            s.world.phase.active[i].conn in s.expiry)
  }

  predicate FatalTo(w: World, r: Ready) {
    w.Dead(r.conn) && Fatal(w.conns[r.conn], r.revents)
  }

  lemma PolledHeld(s: EchoState, active: seq<Ready>, timeout: nat)
    requires Held(s)
    ensures EchoStep(s, Polled(active), timeout).Serving? && Held(EchoStep(s, Polled(active), timeout).state)
  {
    var w, t := s.world, EchoStep(s, Polled(active), timeout).state;
    if w.phase.Polling? && Pollable(w, active) {
      forall i | 0 <= i < |active| && FatalTo(w, active[i])
        ensures active[i].conn in s.expiry
      {
        assert Revived(w.conns[active[i].conn]);
      }
    }
  }

  /** A handler, a job or a new connection changes c only, and revives it only by putting it into the map. */
  lemma OneChanges(s: EchoState, t: EchoState, c: nat)
    requires Held(s) && (t.world.phase.Handling? ==> s.world.phase.Handling?)
    requires t.world.phase.Handling? ==>
               forall r :: r in t.world.phase.active ==> r in s.world.phase.active
    requires forall d :: d in t.world.conns && d != c ==> d in s.world.conns && t.world.conns[d] == s.world.conns[d]
    requires forall d :: d in s.expiry && d != c ==> d in t.expiry
    requires c in t.world.conns && Revived(t.world.conns[c]) ==> c in t.expiry
    requires t.world.phase.Handling? && t.world.Dead(c) ==>
               forall r :: r in t.world.phase.active && r.conn == c ==>
                 c in t.expiry || !Fatal(t.world.conns[c], r.revents)
    ensures Held(t)
  {
    if t.world.phase.Handling? {
      forall i | 0 <= i < |t.world.phase.active| && FatalTo(t.world, t.world.phase.active[i])
        ensures t.world.phase.active[i].conn in t.expiry
      {
        var r := t.world.phase.active[i];
        assert r in t.world.phase.active && r in s.world.phase.active;
        if r.conn != c {
          assert FatalTo(s.world, r);
        }
      }
    }
  }

  lemma HandledHeld(s: EchoState, e: EchoEvent, timeout: nat)
    requires EchoInv(s) && Held(s) && e.Handled? && EchoStep(s, e, timeout).Serving?
    ensures Held(EchoStep(s, e, timeout).state)
  {
    if HasNext(s.world) {
      var t := EchoStep(s, e, timeout).state;
      HandledChanges(s, e, t, timeout);
      HandledExpiry(s, e, t.world, timeout);
      LaterDiffer(s.world, t.world);
      OneChanges(s, t, s.world.phase.active[0].conn);
    }
  }

  lemma HandledChanges(s: EchoState, e: EchoEvent, t: EchoState, timeout: nat)
    requires Basic(s.world) && ActiveAgrees(s.world) && EchoOk(s.world)
    requires e.Handled? && HasNext(s.world) && EchoStep(s, e, timeout) == Serving(t)
    ensures t.world.phase == Handling(s.world.phase.active[1..]) && t.world.conns.Keys == s.world.conns.Keys
    ensures var c := s.world.phase.active[0].conn;
            && (forall d :: d in s.world.conns && d != c ==> t.world.conns[d] == s.world.conns[d])
            && (Revived(t.world.conns[c]) ==> t.world.conns[c] == s.world.conns[c])
  {
    var w, r := s.world, s.world.phase.active[0];
    HandleServes(w, e.read, e.echoWrite, e.flushWrite);
    assert EchoConn(w.conns[r.conn], r.conn, w.Queue());
    HandledLeaves(w.conns[r.conn], r.conn, w.Queue(), r.revents, e);
    assert Matches(Taken(w), r.conn, NextServed(w, e.read, e.echoWrite, e.flushWrite), Ok(t.world));
    MatchedChanges(Taken(w), r.conn, NextServed(w, e.read, e.echoWrite, e.flushWrite), t.world);
  }

  lemma MatchedChanges(w: World, c: nat, o: Effect, v: World)
    requires c in w.conns && o.Effect? && Matches(w, c, o, Ok(v))
    ensures v.phase == w.phase && v.conns == w.conns[c := o.conn]
  {
  }

  /** A closed connection is served by doing nothing, and one that is closed is not registered. */
  lemma HandledLeaves(k: Conn, c: nat, queue: seq<Job>, revents: Mask, e: EchoEvent)
    requires e.Handled? && Sound(k) && EchoConn(k, c, queue) && !Fatal(k, revents)
    requires OUT in revents ==> k.Writing() || !k.Alive()
    ensures var o := Served(k, c, revents, e.read, e.echoWrite, e.flushWrite);
            o.Effect? && (Revived(o.conn) ==> o.conn == k)
  {
    ServedEchoes(k, c, queue, revents, e.read, e.echoWrite, e.flushWrite);
  }

  lemma HandledExpiry(s: EchoState, e: EchoEvent, v: World, timeout: nat)
    requires e.Handled? && HasNext(s.world)
    ensures var c, after := s.world.phase.active[0].conn, Expiry(s, e, v, timeout);
            && (forall d :: d in s.expiry && d != c ==> d in after)
            && (c in s.expiry && s.world.Dead(c) ==> c in after)
  {
  }

  lemma LaterDiffer(w: World, v: World)
    requires ActiveAgrees(w) && HasNext(w) && v.phase == Handling(w.phase.active[1..])
    ensures forall r :: r in v.phase.active ==> r in w.phase.active && r.conn != w.phase.active[0].conn
  {
    forall i | 0 <= i < |v.phase.active|
      ensures v.phase.active[i] in w.phase.active && v.phase.active[i].conn != w.phase.active[0].conn
    {
      assert v.phase.active[i] == w.phase.active[i + 1];
    }
  }

  lemma JobHeld(s: EchoState, now: int, timeout: nat)
    requires EchoInv(s) && Held(s) && EchoStep(s, JobRuns(now), timeout).Serving?
    ensures Held(EchoStep(s, JobRuns(now), timeout).state)
  {
    if HasJob(s.world) {
      var t := EchoStep(s, JobRuns(now), timeout).state;
      JobChanges(s, now, t, timeout);
      JobExpiry(s, now, t.world, timeout);
      OneChanges(s, t, s.world.phase.batch[0].conn);
    }
  }

  lemma JobChanges(s: EchoState, now: int, t: EchoState, timeout: nat)
    requires Basic(s.world) && EchoOk(s.world) && HasJob(s.world) && EchoStep(s, JobRuns(now), timeout) == Serving(t)
    ensures t.world.phase.Running? && EchoJob(s.world, s.world.phase.batch[0])
    ensures var j, c := s.world.phase.batch[0], s.world.phase.batch[0].conn;
            t.world.conns == s.world.conns[c := AfterJob(s.world.conns[c], j)]
  {
    JobResult(s.world, JobEnv(s.world));
  }

  /** A job that revives a connection renews its expiry. */
  lemma JobExpiry(s: EchoState, now: int, v: World, timeout: nat)
    requires HasJob(s.world) && EchoJob(s.world, s.world.phase.batch[0])
    requires var j, c := s.world.phase.batch[0], s.world.phase.batch[0].conn;
             && c in v.conns && v.conns[c] == AfterJob(s.world.conns[c], j)
             && (Revived(s.world.conns[c]) ==> c in s.expiry)
    ensures var c, after := s.world.phase.batch[0].conn, Expiry(s, JobRuns(now), v, timeout);
            && (forall d :: d in s.expiry && d != c ==> d in after)
            && (Revived(v.conns[c]) ==> c in after)
  {
  }

  lemma ConnectHeld(s: EchoState, e: EchoEvent, timeout: nat)
    requires EchoInv(s) && Held(s) && e.Connects? && EchoStep(s, e, timeout).Serving?
    ensures Held(EchoStep(s, e, timeout).state)
  {
    if s.world.phase.Handling? && e.conn !in s.world.conns {
      ConnectStep(s.world, e.conn);
      OneChanges(s, EchoStep(s, e, timeout).state, e.conn);
    }
  }

  /** Only a time-out forgets a closed connection. */
  lemma OrdinaryHeld(s: EchoState, e: EchoEvent, timeout: nat)
    requires EchoInv(s) && Held(s) && Ordinary(e) && EchoStep(s, e, timeout).Serving?
    ensures Held(EchoStep(s, e, timeout).state)
  {
    match e {
      case Polled(active) => PolledHeld(s, active, timeout);
      case Handled(_, _, _, _) => HandledHeld(s, e, timeout);
      case Connects(_, _) => ConnectHeld(s, e, timeout);
      case JobRuns(now) => JobHeld(s, now, timeout);
      case _ =>
    }
  }

  /** In a calm state there is nothing to hold. */
  lemma CalmIsHeld(s: EchoState)
    requires EchoOk(s.world) && Calm(s.world)
    ensures Held(s)
  {
    forall c | c in s.world.conns
      ensures !Revived(s.world.conns[c])
    {
      assert EchoConn(s.world.conns[c], c, s.world.Queue());
      if PRI in s.world.conns[c].events && !s.world.conns[c].Alive() {
        StaysRevived(s.world.conns[c], c, s.world.Queue());
      }
    }
  }

  lemma {:induction false} StaysRevived(k: Conn, c: nat, queue: seq<Job>)
    requires !k.Alive() && PRI in k.events
    ensures Revived(AfterJobs(k, c, queue))
    decreases |queue|
  {
    if queue != [] {
      StaysRevived(if Concerns(queue[0], c) then AfterJob(k, queue[0]) else k, c, queue[1..]);
    }
  }

  /** Some run of ordinary events fails an assert, on an event of a connection that is open or in the client's map. */
  ghost predicate CanCrashHeld(s: EchoState, timeout: nat) {
    exists es, t, e :: CrashesAt(s, es, t, e, timeout)
  }

  ghost predicate CrashesAt(s: EchoState, es: seq<EchoEvent>, t: EchoState, e: EchoEvent, timeout: nat) {
    && (forall x :: x in es ==> Ordinary(x)) && Ordinary(e)
    && EchoExec(s, es, timeout) == Serving(t) && EchoStep(t, e, timeout).Crashed?
    && HasNext(t.world)
    && var c := t.world.phase.active[0].conn; t.world.conns[c].Alive() || c in t.expiry
  }

  lemma {:induction false} CrashIsHeld(s: EchoState, es: seq<EchoEvent>, timeout: nat)
    requires EchoReachable(s, timeout) && Held(s) && (forall e :: e in es ==> Ordinary(e))
    requires EchoExec(s, es, timeout).Crashed?
    ensures CanCrashHeld(s, timeout)
    decreases |es|
  {
    assert es[0] in es && forall e :: e in es[1..] ==> e in es;
    if EchoStep(s, es[0], timeout).Crashed? {
      CrashesHere(s, es[0], timeout);
    } else {
      var u := HeldNext(s, es[0], timeout);
      CrashIsHeld(u, es[1..], timeout);
      CrashesLater(s, es[0], u, timeout);
    }
  }

  lemma CrashesHere(s: EchoState, e: EchoEvent, timeout: nat)
    requires EchoReachable(s, timeout) && Held(s) && Ordinary(e) && EchoStep(s, e, timeout).Crashed?
    ensures CanCrashHeld(s, timeout)
  {
    CrashesExactly(s, e, timeout);
    assert FatalTo(s.world, s.world.phase.active[0]) || s.world.conns[s.world.phase.active[0].conn].Alive();
    assert CrashesAt(s, [], s, e, timeout);
  }

  lemma HeldNext(s: EchoState, e: EchoEvent, timeout: nat) returns (t: EchoState)
    requires EchoReachable(s, timeout) && Held(s) && Ordinary(e) && EchoStep(s, e, timeout).Serving?
    ensures EchoStep(s, e, timeout) == Serving(t) && EchoReachable(t, timeout) && Held(t)
  {
    EchoReachableInv(s, timeout);
    OrdinaryHeld(s, e, timeout);
    t := EchoStep(s, e, timeout).state;
    EchoReachableNext(s, e, t, timeout);
  }

  lemma CrashesLater(s: EchoState, e: EchoEvent, u: EchoState, timeout: nat)
    requires Ordinary(e) && EchoStep(s, e, timeout) == Serving(u) && CanCrashHeld(u, timeout)
    ensures CanCrashHeld(s, timeout)
  {
    var fs, t, last :| CrashesAt(u, fs, t, last, timeout);
    assert ([e] + fs)[1..] == fs;
    assert EchoExec(s, [e] + fs, timeout) == EchoExec(u, fs, timeout);
    assert CrashesAt(s, [e] + fs, t, last, timeout);
  }

  /** While the client's map holds what it should, the exact condition needs no closed connection to outlive it. */
  lemma HeldCrashesExactly(s: EchoState, timeout: nat)
    requires EchoReachable(s, timeout) && Held(s)
    ensures CanCrashHeld(s, timeout) <==> !Calm(s.world)
  {
    CanCrashExactly(s, timeout);
    if es, t, e :| CrashesAt(s, es, t, e, timeout) {
      CrashesThere(s, es, t, e, timeout);
    }
    if es :| (forall e :: e in es ==> Ordinary(e)) && EchoExec(s, es, timeout).Crashed? {
      CrashIsHeld(s, es, timeout);
    }
  }

  lemma CrashesThere(s: EchoState, es: seq<EchoEvent>, t: EchoState, e: EchoEvent, timeout: nat)
    requires CrashesAt(s, es, t, e, timeout)
    ensures CanCrash(s, timeout)
  {
    EchoExecAppend(s, es, [e], timeout);
    assert EchoExec(s, es + [e], timeout).Crashed?;
  }
}
