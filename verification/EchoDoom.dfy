/**
 * The converse of EchoLimits: from every state that is not calm, ordinary events alone can crash the echo server.
 */
module EchoDoom {
  import opened Epoll
  import opened Connection
  import opened Reactor
  import opened ReactorProofs
  import opened Echo
  import opened EchoServe
  import opened EchoRuns
  import opened EchoLimits

  /** Not a time-out, nor a hang-up that also reads. */
  predicate Ordinary(e: EchoEvent) {
    match e
    case Polled(active) => forall i :: 0 <= i < |active| ==> !(HangsUp(active[i].revents) && Reads(active[i].revents))
    case Timeout(_, _) => false
    case _ => true
  }

  /** Some run of ordinary events fails an assert. */
  ghost predicate CanCrash(s: EchoState, timeout: nat) {
    exists es :: (forall e :: e in es ==> Ordinary(e)) && EchoExec(s, es, timeout).Crashed?
  }

  lemma CrashesAfter(s: EchoState, e: EchoEvent, timeout: nat)
    requires Ordinary(e)
    requires EchoStep(s, e, timeout).Crashed? || CanCrash(EchoStep(s, e, timeout).state, timeout)
    ensures CanCrash(s, timeout)
  {
    if EchoStep(s, e, timeout).Crashed? {
      assert EchoExec(s, [e], timeout).Crashed?;
    } else {
      var t := EchoStep(s, e, timeout).state;
      var es :| (forall e :: e in es ==> Ordinary(e)) && EchoExec(t, es, timeout).Crashed?;
      assert ([e] + es)[1..] == es;
      assert EchoExec(s, [e] + es, timeout) == EchoExec(t, es, timeout);
    }
  }

  lemma CrashesVia(s: EchoState, e: EchoEvent, t: EchoState, timeout: nat)
    requires Ordinary(e) && EchoStep(s, e, timeout) == Serving(t) && CanCrash(t, timeout)
    ensures CanCrash(s, timeout)
  {
    CrashesAfter(s, e, timeout);
  }

  // ---------- a connection that the queued jobs revive ----------

  /** A closed connection that is registered crashes the server at the next poll. */
  lemma PolledCrashes(s: EchoState, c: nat, timeout: nat)
    requires EchoReachable(s, timeout) && s.world.phase.Polling? && c in s.world.conns && Revived(s.world.conns[c])
    ensures CanCrash(s, timeout)
  {
    EchoReachableInv(s, timeout);
    var k, r := s.world.conns[c], Ready(c, {PRI});
    assert Sound(k) && EchoConn(k, c, s.world.Queue());
    assert Pollable(s.world, [r]);
    var t := s.(world := s.world.(phase := Handling([r])));
    assert EchoStep(s, Polled([r]), timeout) == Serving(t);
    FatalCrashes(t, timeout);
    CrashesVia(s, Polled([r]), t, timeout);
  }

  predicate FatalNext(w: World) {
    HasNext(w) && Fatal(w.conns[w.phase.active[0].conn], w.phase.active[0].revents)
  }

  lemma FatalCrashes(s: EchoState, timeout: nat)
    requires FatalNext(s.world) && Sound(s.world.conns[s.world.phase.active[0].conn])
    ensures CanCrash(s, timeout)
  {
    assert EchoStep(s, QUIET, timeout).Crashed? by {
      var k := s.world.conns[s.world.phase.active[0].conn];
      assert k.state == Disconnected <==> !k.Alive();
    }
    CrashesAfter(s, QUIET, timeout);
  }

  /** Running the next job changes nothing about what the queue will do to c. */
  lemma JobsStep(s: EchoState, c: nat, timeout: nat) returns (t: EchoState)
    requires EchoReachable(s, timeout) && HasJob(s.world) && c in s.world.conns
    ensures EchoStep(s, JobRuns(0), timeout) == Serving(t) && EchoReachable(t, timeout)
    ensures t.world.phase == Running(s.world.phase.batch[1..]) && c in t.world.conns
    ensures AfterJobs(t.world.conns[c], c, t.world.Queue()) == AfterJobs(s.world.conns[c], c, s.world.Queue())
  {
    EchoReachableInv(s, timeout);
    JobsCalm(s.world);
    t := JobRunsStep(s, timeout);
    EchoReachableNext(s, JobRuns(0), t, timeout);
  }

  lemma JobRunsStep(s: EchoState, timeout: nat) returns (t: EchoState)
    requires HasJob(s.world) && Step(s.world, RunNext(JobEnv(s.world))).Ok?
    ensures EchoStep(s, JobRuns(0), timeout) == Serving(t) && Step(s.world, RunNext(JobEnv(s.world))) == Ok(t.world)
  {
    t := EchoStep(s, JobRuns(0), timeout).state;
  }

  lemma {:induction false} JobsCrash(s: EchoState, c: nat, timeout: nat)
    requires EchoReachable(s, timeout) && s.world.phase.Running? && c in s.world.conns
    requires Revived(AfterJobs(s.world.conns[c], c, s.world.Queue()))
    ensures CanCrash(s, timeout)
    decreases |s.world.Batch()|
  {
    if HasJob(s.world) {
      var t := JobsStep(s, c, timeout);
      JobsCrash(t, c, timeout);
      CrashesVia(s, JobRuns(0), t, timeout);
    } else {
      EchoReachableInv(s, timeout);
      assert s.world.Queue() == [];
      var t := EchoStep(s, JobsEnd, timeout).state;
      EchoReachableNext(s, JobsEnd, t, timeout);
      PolledCrashes(t, c, timeout);
      CrashesVia(s, JobsEnd, t, timeout);
    }
  }

  /** Handling the next channel with nothing read and nothing written. */
  const QUIET: EchoEvent := Handled(0, Buffers.Failed(0), WouldBlock, WouldBlock)

  lemma QuietServed(k: Conn, c: nat, revents: Mask)
    requires Sound(k) && !Fatal(k, revents) && (OUT in revents ==> k.Writing() || !k.Alive())
    ensures Served(k, c, revents, Buffers.Failed(0), WouldBlock, WouldBlock)
            == Effect(if k.Alive() && HangsUp(revents) then Close(k).conn else k, [])
  {
    var l := if k.Alive() && HangsUp(revents) then Close(k).conn else k;
    assert CloseOrRead(k, c, revents, Buffers.Failed(0), WouldBlock) == Effect(l, []) by {
      if k.Alive() {
        CloseSound(k);
      }
    }
    if OUT in revents {
      InputSound(k, c, revents, Buffers.Failed(0), WouldBlock);
      BlockedFlush(l, c);
    }
  }

  /** ... closes that connection if it hangs up, and does nothing otherwise. */
  lemma QuietStep(s: EchoState, timeout: nat) returns (t: EchoState)
    requires EchoReachable(s, timeout) && HasNext(s.world) && !FatalNext(s.world)
    ensures EchoStep(s, QUIET, timeout) == Serving(t) && EchoReachable(t, timeout)
    ensures t.world.phase == Handling(s.world.phase.active[1..]) && t.world.Queue() == s.world.Queue()
    ensures var r := s.world.phase.active[0];
            t.world.conns == s.world.conns[r.conn :=
              if s.world.conns[r.conn].Alive() && HangsUp(r.revents) then Close(s.world.conns[r.conn]).conn
              else s.world.conns[r.conn]]
  {
    EchoReachableInv(s, timeout);
    var r := s.world.phase.active[0];
    HandleServes(s.world, Buffers.Failed(0), WouldBlock, WouldBlock);
    QuietServed(s.world.conns[r.conn], r.conn, r.revents);
    t := EchoStep(s, QUIET, timeout).state;
    EchoReachableNext(s, QUIET, t, timeout);
  }

  /** Before its own channel is handled no write-complete job of an open connection is queued, so it is not revived. */
  lemma NextNotRevived(s: EchoState, timeout: nat)
    requires EchoReachable(s, timeout) && HasNext(s.world) && s.world.conns[s.world.phase.active[0].conn].Alive()
    ensures var c := s.world.phase.active[0].conn;
            !Revived(AfterJobs(s.world.conns[c], c, s.world.Queue()))
  {
    EchoReachableInv(s, timeout);
    var c := s.world.phase.active[0].conn;
    assert Sound(s.world.conns[c]);
    NoneRevives(s.world.conns[c], c, s.world.Queue());
  }

  lemma NextKnown(s: EchoState, timeout: nat)
    requires EchoReachable(s, timeout) && s.world.phase.Handling? && s.world.phase.active != []
    ensures HasNext(s.world) && Sound(s.world.conns[s.world.phase.active[0].conn])
  {
    EchoReachableInv(s, timeout);
  }

  lemma SwappedCrashes(s: EchoState, c: nat, timeout: nat)
    requires EchoReachable(s, timeout) && s.world.phase == Handling([]) && c in s.world.conns
    requires Revived(AfterJobs(s.world.conns[c], c, s.world.Queue()))
    ensures CanCrash(s, timeout)
  {
    var t := EchoStep(s, Swapped, timeout).state;
    EchoReachableNext(s, Swapped, t, timeout);
    assert t.world.Queue() == s.world.Queue();
    JobsCrash(t, c, timeout);
    CrashesVia(s, Swapped, t, timeout);
  }

  lemma {:induction false} HandlingCrashes(s: EchoState, c: nat, timeout: nat)
    requires EchoReachable(s, timeout) && s.world.phase.Handling? && c in s.world.conns
    requires Revived(AfterJobs(s.world.conns[c], c, s.world.Queue()))
    ensures CanCrash(s, timeout)
    decreases |s.world.phase.active|
  {
    if s.world.phase.active == [] {
      SwappedCrashes(s, c, timeout);
    } else {
      NextKnown(s, timeout);
      if FatalNext(s.world) {
        FatalCrashes(s, timeout);
      } else {
        if s.world.conns[s.world.phase.active[0].conn].Alive() {
          NextNotRevived(s, timeout);
        }
        var t := QuietStep(s, timeout);
        HandlingCrashes(t, c, timeout);
        CrashesVia(s, QUIET, t, timeout);
      }
    }
  }

  // ---------- a channel that is doomed ----------

  lemma LastByte(k: Conn, c: nat, queue: seq<Job>, revents: Mask)
    requires Sound(k) && EchoConn(k, c, queue) && k.state == Disconnecting && k.Writing()
    requires OUT in revents && !HangsUp(revents)
    ensures var e := Served(k, c, revents, Buffers.Failed(0), WouldBlock, Wrote(|k.output|));
            e.Effect? && e.jobs == [WriteComplete(c)] && Sound(e.conn) && e.conn.state == Disconnecting
  {
    FlushSound(k, c, Wrote(|k.output|));
    assert k.output[|k.output|..] == [];
  }

  /** The last byte of a connection bound to be closed is written: its write-complete job will revive it. */
  lemma LastByteStep(s: EchoState, e: EchoEvent, timeout: nat) returns (t: EchoState)
    requires EchoReachable(s, timeout) && HasNext(s.world)
    requires var r := s.world.phase.active[0];
             && s.world.conns[r.conn].state == Disconnecting && OUT in r.revents && !HangsUp(r.revents)
             && e == Handled(0, Buffers.Failed(0), WouldBlock, Wrote(|s.world.conns[r.conn].output|))
    ensures EchoStep(s, e, timeout) == Serving(t) && EchoReachable(t, timeout) && t.world.phase.Handling?
    ensures var c := s.world.phase.active[0].conn;
            c in t.world.conns && Revived(AfterJobs(t.world.conns[c], c, t.world.Queue()))
  {
    EchoReachableInv(s, timeout);
    var r, w := s.world.phase.active[0], s.world;
    HandleServes(w, e.read, e.echoWrite, e.flushWrite);
    assert EchoConn(w.conns[r.conn], r.conn, w.Queue());
    LastByte(w.conns[r.conn], r.conn, w.Queue(), r.revents);
    t := EchoStep(s, e, timeout).state;
    assert t.world.Queue() == w.Queue() + [WriteComplete(r.conn)];
    LastRevives(t.world.conns[r.conn], r.conn, w.Queue());
    EchoReachableNext(s, e, t, timeout);
  }

  lemma FlushCrashes(s: EchoState, timeout: nat)
    requires EchoReachable(s, timeout) && HasNext(s.world)
    requires var r := s.world.phase.active[0];
             s.world.conns[r.conn].state == Disconnecting && OUT in r.revents && !HangsUp(r.revents)
    ensures CanCrash(s, timeout)
  {
    var c := s.world.phase.active[0].conn;
    var e := Handled(0, Buffers.Failed(0), WouldBlock, Wrote(|s.world.conns[c].output|));
    var t := LastByteStep(s, e, timeout);
    HandlingCrashes(t, c, timeout);
    CrashesVia(s, e, t, timeout);
  }

  /** The i-th channel still to be handled is doomed. */
  predicate DoomedAt(w: World, i: nat) {
    && w.phase.Handling? && i < |w.phase.active| && w.phase.active[i].conn in w.conns
    && Dooms(w.conns[w.phase.active[i].conn], w.phase.active[i])
  }

  lemma {:induction false} DoomedCrashes(s: EchoState, i: nat, timeout: nat)
    requires EchoReachable(s, timeout) && DoomedAt(s.world, i)
    ensures CanCrash(s, timeout)
    decreases i
  {
    NextKnown(s, timeout);
    if FatalNext(s.world) {
      FatalCrashes(s, timeout);
    } else if i == 0 {
      FlushCrashes(s, timeout);
    } else {
      var t := QuietStep(s, timeout);
      StaysDoomed(s, t, i, timeout);
      DoomedCrashes(t, i - 1, timeout);
      CrashesVia(s, QUIET, t, timeout);
    }
  }

  lemma StaysDoomed(s: EchoState, t: EchoState, i: nat, timeout: nat)
    requires EchoReachable(s, timeout) && HasNext(s.world) && i > 0 && DoomedAt(s.world, i)
    requires t.world.phase == Handling(s.world.phase.active[1..])
    requires forall d :: d in s.world.conns && d != s.world.phase.active[0].conn ==>
               d in t.world.conns && t.world.conns[d] == s.world.conns[d]
    ensures DoomedAt(t.world, i - 1)
  {
    EchoReachableInv(s, timeout);
  }

  // ---------- theorems ----------

  /** Of a state that is not calm: a connection that will be revived, or a doomed channel. */
  lemma RestlessCrashes(s: EchoState, timeout: nat)
    requires EchoReachable(s, timeout) && !Calm(s.world)
    ensures CanCrash(s, timeout)
  {
    if !ConnsCalm(s.world) {
      var c :| c in s.world.conns && Revived(AfterJobs(s.world.conns[c], c, s.world.Queue()));
      match s.world.phase {
        case Polling =>
          EchoReachableInv(s, timeout);
          PolledCrashes(s, c, timeout);
        case Handling(_) => HandlingCrashes(s, c, timeout);
        case Running(_) => JobsCrash(s, c, timeout);
      }
    } else {
      var a := s.world.phase.active;
      var i :| 0 <= i < |a| && a[i].conn in s.world.conns && Dooms(s.world.conns[a[i].conn], a[i]);
      DoomedCrashes(s, i, timeout);
    }
  }

  lemma {:induction false} OrdinaryIsGentle(s: EchoState, es: seq<EchoEvent>, timeout: nat)
    requires forall e :: e in es ==> Ordinary(e)
    ensures GentleRun(s, es, timeout)
    decreases |es|
  {
    if es != [] {
      assert es[0] in es && forall e :: e in es[1..] ==> e in es;
      if EchoStep(s, es[0], timeout).Serving? {
        OrdinaryIsGentle(EchoStep(s, es[0], timeout).state, es[1..], timeout);
      }
    }
  }

  /** Ordinary events can crash the echo server from exactly the states that are not calm. */
  lemma CanCrashExactly(s: EchoState, timeout: nat)
    requires EchoReachable(s, timeout)
    ensures CanCrash(s, timeout) <==> !Calm(s.world)
  {
    if Calm(s.world) {
      EchoReachableInv(s, timeout);
      forall es | forall e :: e in es ==> Ordinary(e)
        ensures EchoExec(s, es, timeout).Serving?
      {
        OrdinaryIsGentle(s, es, timeout);
        GentleFrom(s, es, timeout);
      }
    } else {
      RestlessCrashes(s, timeout);
    }
  }

  /** onTimeout fails no assert itself, and leaves a calm state calm exactly when it is not risky. */
  lemma TimeoutStep(s: EchoState, now: int, order: seq<nat>, timeout: nat) returns (t: EchoState)
    requires EchoReachable(s, timeout) && Visits(s.expiry, now, order)
    ensures EchoStep(s, Timeout(now, order), timeout) == Serving(t) && EchoReachable(t, timeout)
    ensures Risky(s, order) ==> !Calm(t.world)
    ensures Calm(s.world) && !Risky(s, order) ==> Calm(t.world)
  {
    CloseAllAsks(s.world, order);
    t := EchoStep(s, Timeout(now, order), timeout).state;
    EchoReachableNext(s, Timeout(now, order), t, timeout);
    if Risky(s, order) {
      RiskyDooms(s, now, order, timeout);
    } else if Calm(s.world) {
      EchoReachableInv(s, timeout);
      TimeoutCalm(s, now, order, timeout);
    }
  }

  /**
   * A time-out in a calm state makes a crash possible if and only if it visits an open connection that the same
   * iteration is still to handle as writable, without a hang-up.
   */
  lemma TimeoutCrashesExactly(s: EchoState, now: int, order: seq<nat>, timeout: nat)
    requires EchoReachable(s, timeout) && Calm(s.world) && Visits(s.expiry, now, order)
    ensures EchoStep(s, Timeout(now, order), timeout).Serving?
    ensures CanCrash(EchoStep(s, Timeout(now, order), timeout).state, timeout) <==> Risky(s, order)
  {
    var t := TimeoutStep(s, now, order, timeout);
    CanCrashExactly(t, timeout);
  }

  /** Whatever else is active or queued, calm or not: after a risky time-out the server can crash. */
  lemma UndrainedTimeoutCrashes(s: EchoState, now: int, order: seq<nat>, timeout: nat)
    requires EchoReachable(s, timeout) && Visits(s.expiry, now, order) && Risky(s, order)
    ensures EchoStep(s, Timeout(now, order), timeout).Serving?
    ensures CanCrash(EchoStep(s, Timeout(now, order), timeout).state, timeout)
  {
    var t := TimeoutStep(s, now, order, timeout);
    CanCrashExactly(t, timeout);
  }
}
