/** The echo server as the reactor's client: its callbacks, its timeout map, and what every one of its runs keeps. */
module Echo {
  import opened Common
  import opened Epoll
  import opened Connection
  import opened Reactor

  const MARK: nat := 1024

  /** Connections by the time at which they expire, next to the reactor. */
  datatype EchoState = EchoState(world: World, expiry: map<nat, int>)

  /** What kernel and clock decide. */
  datatype EchoEvent =
    | Polled(active: seq<Ready>)
    | Handled(now: int, read: Buffers.ReadResult, echoWrite: WriteResult, flushWrite: WriteResult)
    | Connects(now: int, conn: nat)
    | Timeout(now: int, order: seq<nat>)
    | Swapped
    | JobRuns(now: int)
    | JobsEnd

  predicate HasNext(w: World) {
    w.phase.Handling? && w.phase.active != [] && w.phase.active[0].conn in w.conns
  }

  predicate HasJob(w: World) {
    w.phase.Running? && w.phase.batch != []
  }

  /** onMessage */
  function OnMessage(c: nat, wr: WriteResult): seq<Call> {
    [SendInput(c, c, wr)]
  }

  /** onWriteComplete and onHighWaterMark, as jobs. */
  function OnJob(w: World, j: Job): seq<Call> {
    match j
    case WriteComplete(c) => if c in w.conns && IN !in w.conns[c].events then [ResumeRead(c)] else []
    case HighWater(c, _) => [PauseRead(c)]
    case _ => []
  }

  /** onTimeout visits every connection whose time has come, in the order of its map. */
  predicate Visits(expiry: map<nat, int>, now: int, order: seq<nat>) {
    && (forall i :: 0 <= i < |order| ==> order[i] in expiry && expiry[order[i]] <= now)
    && (forall c :: c in expiry && expiry[c] <= now ==> c in order)
  }

  function CloseAll(order: seq<nat>): seq<Call> {
    seq(|order|, i requires 0 <= i < |order| => CloseSoon(order[i]))
  }

  function NoCalls(read: Buffers.ReadResult, wr: WriteResult): Env {
    Env(read, wr, [], [])
  }

  /** The reactor's event, with the echo server's callbacks filled in. */
  function Lower(s: EchoState, e: EchoEvent): Event {
    match e
    case Polled(active) => PollReturns(active)
    case Handled(_, read, echoWrite, flushWrite) =>
      Handle(if HasNext(s.world) then Env(read, flushWrite, OnMessage(s.world.phase.active[0].conn, echoWrite), [])
             else NoCalls(read, flushWrite))
    case Connects(_, c) => Accept(c, true, [MarkHighWater(c, MARK)])
    case Timeout(now, order) => OtherHandler(if Visits(s.expiry, now, order) then CloseAll(order) else [])
    case Swapped => SwapJobs
    case JobRuns(_) =>
      RunNext(if HasJob(s.world) then Env(Buffers.Failed(0), WouldBlock, OnJob(s.world, s.world.phase.batch[0]), [])
              else NoCalls(Buffers.Failed(0), WouldBlock))
    case JobsEnd => EndJobs
  }

  /**
   * The timeout map after the step: renewed by traffic, doubled by a high-water mark, erased by closing and by
   * onTimeout.
   */
  function Expiry(s: EchoState, e: EchoEvent, v: World, timeout: nat): map<nat, int> {
    var w := s.world;
    match e
    case Handled(now, read, _, _) =>
      if !HasNext(w) then s.expiry
      else
        var r := w.phase.active[0];
        if !w.Dead(r.conn) && v.Dead(r.conn) then s.expiry - {r.conn}
        else if Reads(r.revents) && read.Got? then s.expiry[r.conn := now + timeout]
        else s.expiry
    case Connects(now, c) => if w.phase.Handling? && c !in w.conns then s.expiry[c := now + timeout] else s.expiry
    case Timeout(now, order) =>
      if w.phase.Handling? && Visits(s.expiry, now, order) then s.expiry - (set c | c in order) else s.expiry
    case JobRuns(now) =>
      if !HasJob(w) then s.expiry
      else (match w.phase.batch[0]
            case WriteComplete(c) => if OnJob(w, w.phase.batch[0]) != [] then s.expiry[c := now + timeout] else s.expiry
            case HighWater(c, _) => s.expiry[c := now + 2 * timeout]
            case ForceClose(c) => if !w.Dead(c) && v.Dead(c) then s.expiry - {c} else s.expiry
            case _ => s.expiry)
    case _ => s.expiry
  }

  datatype EchoOutcome = Serving(state: EchoState) | Crashed(site: Site)

  function EchoStep(s: EchoState, e: EchoEvent, timeout: nat): EchoOutcome {
    match Step(s.world, Lower(s, e))
    case Aborted(site) => Crashed(site)
    case Ok(v) => Serving(EchoState(v, Expiry(s, e, v, timeout)))
  }

  function EchoExec(s: EchoState, es: seq<EchoEvent>, timeout: nat): EchoOutcome
    decreases |es|
  {
    if es == [] then Serving(s)
    else
      match EchoStep(s, es[0], timeout)
      case Crashed(site) => Crashed(site)
      case Serving(t) => EchoExec(t, es[1..], timeout)
  }

  const START: EchoState := EchoState(Initial(), map[])

  // ---------- what holds of one echo connection ----------

  /** Bytes read are echoed, or still buffered, unless a write failed for good. */
  ghost predicate Echoed(k: Conn) {
    && |k.log.got| == |k.log.wire| + |k.output| + |k.input| + k.log.lost
    && (k.log.lost == 0 ==> k.log.got == k.log.wire + k.output + k.input)
  }

  /** What a job does to the reading of connection c. */
  function Switch(j: Job, c: nat, reading: bool): bool {
    if j == WriteComplete(c) then true
    else if j.HighWater? && j.conn == c then false
    else reading
  }

  /** Whether c will be reading once the jobs of the queue have run. */
  function ReadsAfter(reading: bool, c: nat, queue: seq<Job>): bool
    decreases |queue|
  {
    if queue == [] then reading else ReadsAfter(Switch(queue[0], c, reading), c, queue[1..])
  }

  lemma {:induction false} ReadsAfterMore(reading: bool, c: nat, queue: seq<Job>, more: seq<Job>)
    ensures ReadsAfter(reading, c, queue + more) == ReadsAfter(ReadsAfter(reading, c, queue), c, more)
    decreases |queue|
  {
    if queue == [] {
      assert queue + more == more;
    } else {
      ReadsAfterMore(Switch(queue[0], c, reading), c, queue[1..], more);
      assert (queue + more)[1..] == queue[1..] + more;
    }
  }

  lemma {:induction false} ReadsAfterOthers(reading: bool, c: nat, queue: seq<Job>)
    requires forall i :: 0 <= i < |queue| ==>
               queue[i] != WriteComplete(c) && !(queue[i].HighWater? && queue[i].conn == c)
    ensures ReadsAfter(reading, c, queue) == reading
    decreases |queue|
  {
    if queue != [] {
      ReadsAfterOthers(reading, c, queue[1..]);
    }
  }

  /** A change of mind is a job in the queue. */
  lemma {:induction false} ReadsAfterWhy(reading: bool, c: nat, queue: seq<Job>)
    ensures ReadsAfter(reading, c, queue) ==> reading || WriteComplete(c) in queue
    ensures !ReadsAfter(reading, c, queue) ==> !reading || exists size :: HighWater(c, size) in queue
    decreases |queue|
  {
    if queue != [] {
      ReadsAfterWhy(Switch(queue[0], c, reading), c, queue[1..]);
      assert forall j :: j in queue[1..] ==> j in queue;
      assert queue[0].HighWater? && queue[0].conn == c ==> queue[0] == HighWater(c, queue[0].size);
    }
  }

  /** With the queued jobs run, a connection with nothing to write reads, and one at or above the mark does not. */
  ghost predicate Throttled(k: Conn, c: nat, queue: seq<Job>) {
    && (k.output == [] ==> ReadsAfter(IN in k.events, c, queue))
    && (|k.output| >= MARK ==> !ReadsAfter(IN in k.events, c, queue))
  }

  ghost predicate EchoConn(k: Conn, c: nat, queue: seq<Job>) {
    && k.onWriteComplete && k.highWater == Some(MARK) && k.state != Connecting
    && Echoed(k)
    && (k.Alive() ==> Throttled(k, c, queue) && (k.state == Disconnecting <==> ForceClose(c) in queue))
    && (!k.Alive() ==> k.events == {} || PRI in k.events)
  }

  /** j is a job of connection c. */
  predicate Concerns(j: Job, c: nat) {
    (j.WriteComplete? || j.HighWater? || j.ForceClose?) && j.conn == c
  }

  ghost predicate OwnJobs(c: nat, jobs: seq<Job>) {
    forall i :: 0 <= i < |jobs| ==> Concerns(jobs[i], c)
  }

  /** Jobs of other connections change nothing. */
  lemma MoreJobs(k: Conn, c: nat, queue: seq<Job>, more: seq<Job>)
    requires EchoConn(k, c, queue) && forall i :: 0 <= i < |more| ==> !Concerns(more[i], c)
    ensures EchoConn(k, c, queue + more)
  {
    ReadsAfterMore(IN in k.events, c, queue, more);
    ReadsAfterOthers(ReadsAfter(IN in k.events, c, queue), c, more);
  }

  /** onMessage on one connection: what was read, then send(Buffer&) of all input. */
  function Message(k: Conn, c: nat, data: seq<byte>, wr: WriteResult): Effect {
    SentInput(Receive(k, data), c, wr)
  }

  lemma EchoedAfterSend(k: Conn, c: nat, wr: WriteResult)
    requires Sound(k) && k.state == Connected && Echoed(k)
    ensures var e := SendInLoop(k, c, Direct(k.input), wr); e.Effect? && Echoed(e.conn.(input := []))
  {
    SendInLoopSound(k, c, Direct(k.input), wr);
    SendFrame(k, c, Direct(k.input), wr);
    var l := SendInLoop(k, c, Direct(k.input), wr).conn;
    if k.Writing() {
      assert k.input[0..] == k.input && k.log.wire + k.input[..0] == k.log.wire;
      assert l.log.wire + l.output == k.log.wire + k.output + k.input;
    } else {
      assert k.output == [];
      if !wr.BrokenPipe? {
        var n := wr.Taken(|k.input|);
        assert k.input == k.input[..n] + k.input[n..];
        assert l.log.wire + l.output == k.log.wire + k.output + k.input;
      }
    }
  }

  /** What a send pushes are its connection's own write-complete and high-water jobs. */
  lemma SendJobs(k: Conn, c: nat, p: Payload, wr: WriteResult)
    requires Sound(k) && k.Alive() && k.onWriteComplete
    ensures var e := SendInLoop(k, c, p, wr);
            && e.Effect? && e.conn.onWriteComplete && e.conn.highWater == k.highWater
            && OwnJobs(c, e.jobs) && ForceClose(c) !in e.jobs
  {
  }

  lemma OneMore(reading: bool, c: nat, queue: seq<Job>, j: Job)
    ensures ReadsAfter(reading, c, queue + [j]) == Switch(j, c, ReadsAfter(reading, c, queue))
  {
    ReadsAfterMore(reading, c, queue, [j]);
    assert [j][1..] == [];
  }

  lemma SendThrottles(k: Conn, c: nat, queue: seq<Job>, p: Payload, wr: WriteResult)
    requires Sound(k) && k.Alive() && k.onWriteComplete && k.highWater == Some(MARK) && Throttled(k, c, queue)
    ensures var e := SendInLoop(k, c, p, wr); e.Effect? && Throttled(e.conn, c, queue + e.jobs)
  {
    var e := SendInLoop(k, c, p, wr);
    if e.jobs == [] {
      assert queue + e.jobs == queue;
    } else {
      assert e.jobs == [e.jobs[0]];
      OneMore(IN in k.events, c, queue, e.jobs[0]);
    }
  }

  lemma MessageEchoes(k: Conn, c: nat, queue: seq<Job>, data: seq<byte>, wr: WriteResult)
    requires Sound(k) && k.Alive() && EchoConn(k, c, queue)
    ensures var e := Message(k, c, data, wr);
            && e.Effect? && EchoConn(e.conn, c, queue + e.jobs) && e.conn.state == k.state
            && OwnJobs(c, e.jobs) && ForceClose(c) !in e.jobs && (e.jobs != [] ==> k.state == Connected)
  {
    var r := Receive(k, data);
    assert Sound(r) && Echoed(r);
    if r.state != Connected {
      assert queue + [] == queue;
    } else {
      var p := Direct(r.input);
      EchoedAfterSend(r, c, wr);
      SendJobs(r, c, p, wr);
      SendThrottles(r, c, queue, p, wr);
      SendFrame(r, c, p, wr);
    }
  }

  lemma FlushEchoes(k: Conn, c: nat, queue: seq<Job>, wr: WriteResult)
    requires Sound(k) && (k.Writing() || !k.Alive()) && EchoConn(k, c, queue)
    ensures var e := Flush(k, c, wr);
            && e.Effect? && EchoConn(e.conn, c, queue + e.jobs) && e.conn.state == k.state
            && (e.jobs == [] || e.jobs == [WriteComplete(c)])
  {
    FlushSound(k, c, wr);
    var e := Flush(k, c, wr);
    if k.Alive() {
      var n := wr.Taken(|k.output|);
      assert k.output == k.output[..n] + k.output[n..];
      assert Echoed(e.conn) by {
        assert e.conn.log.wire + e.conn.output == k.log.wire + k.output;
      }
    }
    if e.jobs == [] {
      assert queue + e.jobs == queue;
    } else {
      OneMore(IN in k.events, c, queue, WriteComplete(c));
    }
  }

  /** forceClose(), as onTimeout calls it. */
  lemma ClosingEchoes(k: Conn, c: nat, queue: seq<Job>)
    requires EchoConn(k, c, queue)
    ensures EchoConn(RequestClose(k, c).conn, c, queue + RequestClose(k, c).jobs)
  {
    if k.Alive() {
      OneMore(IN in k.events, c, queue, ForceClose(c));
    } else {
      assert queue + [] == queue;
    }
  }

  /** The connection a job leaves, with the echo server's callbacks. */
  function AfterJob(k: Conn, j: Job): Conn {
    match j
    case WriteComplete(_) => StartRead(k)
    case HighWater(_, _) => StopRead(k)
    case ForceClose(_) => if Close(k).Effect? then Close(k).conn else k
    case _ => k
  }

  /** The first job of the queue has run. */
  lemma JobEchoes(k: Conn, c: nat, j: Job, rest: seq<Job>)
    requires Sound(k) && EchoConn(k, c, [j] + rest)
    ensures EchoConn(if Concerns(j, c) then AfterJob(k, j) else k, c, rest)
  {
    var queue := [j] + rest;
    assert queue[0] == j && queue[1..] == rest;
    assert j != ForceClose(c) ==> (ForceClose(c) in queue <==> ForceClose(c) in rest);
  }
}
