/**
 * All connections of one EventLoop and its TcpServer: what every client call, kernel answer
 * and loop iteration does to them. Client callbacks are arbitrary lists of calls.
 */
module Reactor {
  import opened Common
  import opened Epoll
  import opened Connection
  import Buffers

  /** One entry of activeChnls_. */
  datatype Ready = Ready(conn: nat, revents: Mask)

  /** Where loop() is: in epoll_wait, handling active channels, or inside doPendingJobs. */
  datatype Phase =
    | Polling
    | Handling(active: seq<Ready>)
    | Running(batch: seq<Job>)

  /** A send() of another thread that passed its state test and has not pushed its job. */
  datatype Submission = Submission(conn: nat, data: seq<byte>)

  datatype World = World(
    conns: map<nat, Conn>,
    server: set<nat>,                // TcpServer::connections_
    phase: Phase,
    pending: seq<Job>,               // pendingJobs_
    pushed: seq<Job>,                // every job ever pushed, in lock order
    ran: seq<Job>,                   // every job run
    submitting: map<nat, Submission>,
    submitted: map<nat, nat>)        // sends pushed so far, by thread
  {
    function Batch(): seq<Job> {
      if phase.Running? then phase.batch else []
    }

    /** The jobs still to run, in the order they will. */
    function Queue(): seq<Job> {
      Batch() + pending
    }

    function Submitted(thread: nat): nat {
      if thread in submitted then submitted[thread] else 0
    }

    predicate Dead(c: nat) {
      c in conns && !conns[c].Alive()
    }
  }

  function Initial(): World {
    World(map[], {}, Polling, [], [], [], map[], map[])
  }

  datatype Outcome = Ok(world: World) | Aborted(site: Site) {
    predicate IsFailure() {
      Aborted?
    }

    function PropagateFailure(): Outcome
      requires Aborted?
    {
      this
    }

    function Extract(): World
      requires Ok?
    {
      world
    }
  }

  /** What a client may call from a callback on the loop thread. */
  datatype Call =
    | SendData(conn: nat, data: seq<byte>, wr: WriteResult)
    | SendInput(conn: nat, from: nat, wr: WriteResult) // send(Buffer&) of some connection's input buffer
    | ShutdownWrite(conn: nat)
    | CloseSoon(conn: nat)
    | PauseRead(conn: nat)
    | ResumeRead(conn: nat)
    | MarkHighWater(conn: nat, mark: nat)
    | DiscardInput(conn: nat, n: nat)
    | QueueTask(conn: nat, task: nat)

  function Apply(w: World, c: nat, e: Effect): Outcome {
    match e
    case Failed(site) => Aborted(site)
    case Effect(k, jobs) => Ok(w.(conns := w.conns[c := k], pending := w.pending + jobs, pushed := w.pushed + jobs))
  }

  function CallEffect(w: World, call: Call): Effect
    requires call.conn in w.conns
  {
    var c, k := call.conn, w.conns[call.conn];
    match call
    case SendData(_, data, wr) => Send(k, c, data, wr)
    case SendInput(_, from, wr) => if from in w.conns then Send(k, c, w.conns[from].input, wr) else Effect(k, [])
    case ShutdownWrite(_) => Shutdown(k)
    case CloseSoon(_) => RequestClose(k, c)
    case PauseRead(_) => Effect(StopRead(k), [])
    case ResumeRead(_) => Effect(StartRead(k), [])
    case MarkHighWater(_, mark) => Effect(k.(highWater := Some(mark)), [])
    case DiscardInput(_, n) => Effect(k.(input := k.input[Min(n, |k.input|)..]), [])
    case QueueTask(_, task) => Effect(k, [Task(task)])
  }

  /** One call. A send(Buffer&) that is not given up also empties the buffer it was handed. */
  function DoCall(w: World, call: Call): Outcome {
    if call.conn !in w.conns then Ok(w)
    else
      var v :- Apply(w, call.conn, CallEffect(w, call));
      if call.SendInput? && call.from in v.conns && w.conns[call.conn].state == Connected
      then Ok(v.(conns := v.conns[call.from := v.conns[call.from].(input := [])]))
      else Ok(v)
  }

  function RunScript(w: World, script: seq<Call>): Outcome
    decreases |script|
  {
    if script == [] then Ok(w)
    else
      var v :- DoCall(w, script[0]);
      RunScript(v, script[1..])
  }

  /** What the kernel and the client do while one channel is handled, or one job runs. */
  datatype Env = Env(read: Buffers.ReadResult, write: WriteResult, onMessage: seq<Call>, onClose: seq<Call>)

  /** handleClose(), closeConnection() and the connection callback. */
  function CloseConn(w: World, c: nat, onClose: seq<Call>): Outcome
    requires c in w.conns
  {
    var v :- Apply(w, c, Close(w.conns[c]));
    if c !in v.server then Aborted(NotInServer)
    else RunScript(v.(server := v.server - {c}), onClose)
  }

  function ReadConn(w: World, c: nat, env: Env): Outcome
    requires c in w.conns
  {
    if w.conns[c].state == Disconnected then Aborted(ReadWhenClosed)
    else match env.read
      case Failed(_) => Ok(w)
      case Got(data) =>
        if data == [] then CloseConn(w, c, env.onClose)
        else RunScript(w.(conns := w.conns[c := Receive(w.conns[c], data)]), env.onMessage)
  }

  predicate HangsUp(revents: Mask) {
    HUP in revents && IN !in revents
  }

  predicate Reads(revents: Mask) {
    IN in revents || PRI in revents || RDHUP in revents
  }

  /** Channel::handleEventsWithGuard: close, error, read and write callbacks, in this order. */
  function Dispatch(w: World, c: nat, revents: Mask, env: Env): Outcome
    requires c in w.conns
  {
    var w1 :- if HangsUp(revents) then CloseConn(w, c, env.onClose) else Ok(w);
    var w2 :- if Reads(revents) && c in w1.conns then ReadConn(w1, c, env) else Ok(w1);
    if OUT in revents && c in w2.conns then Apply(w2, c, Flush(w2.conns[c], c, env.write)) else Ok(w2)
  }

  function RunJob(w: World, j: Job, env: Env): Outcome {
    match j
    case SendJob(c, p) => if c in w.conns then Apply(w, c, SendInLoop(w.conns[c], c, p, env.write)) else Ok(w)
    case ForceClose(c) =>
      if c in w.conns && w.conns[c].state != Disconnected then CloseConn(w, c, env.onClose) else Ok(w)
    case _ => RunScript(w, env.onMessage)
  }

  datatype Event =
    | PollReturns(active: seq<Ready>)
    | Handle(env: Env)                                // the next active connection's channel
    | Accept(conn: nat, onWriteComplete: bool, script: seq<Call>)
    | OtherHandler(script: seq<Call>)                 // another channel's callback, a timer's for one
    | SwapJobs
    | RunNext(env: Env)
    | EndJobs
    | Submit(thread: nat, conn: nat, data: seq<byte>) // another thread tests state_ ...
    | PushSend(thread: nat)                           // ... and pushes the job
    | PushTask(task: nat)                             // another thread's queueInLoop

  /** epoll_wait reports registered channels once each, with what they asked for, EPOLLERR and EPOLLHUP. */
  predicate Pollable(w: World, active: seq<Ready>) {
    && (forall i :: 0 <= i < |active| ==>
          && active[i].conn in w.conns
          && w.conns[active[i].conn].events != {}
          && active[i].revents <= w.conns[active[i].conn].events + {ERR, HUP})
    && (forall i, j :: 0 <= i < j < |active| ==> active[i].conn != active[j].conn)
  }

  /** One step of the loop thread or of another thread; an event that cannot happen now changes nothing. */
  function Step(w: World, e: Event): Outcome {
    match e
    case PollReturns(active) =>
      if w.phase.Polling? && Pollable(w, active) then Ok(w.(phase := Handling(active))) else Ok(w)
    case Handle(env) =>
      if w.phase.Handling? && w.phase.active != [] && w.phase.active[0].conn in w.conns
      then Dispatch(w.(phase := Handling(w.phase.active[1..])), w.phase.active[0].conn, w.phase.active[0].revents, env)
      else Ok(w)
    case Accept(c, onWriteComplete, script) =>
      if w.phase.Handling? && c !in w.conns
      then RunScript(w.(conns := w.conns[c := Established(onWriteComplete)], server := w.server + {c}), script)
      else Ok(w)
    case OtherHandler(script) =>
      if w.phase.Handling? then RunScript(w, script) else Ok(w)
    case SwapJobs =>
      if w.phase == Handling([]) then Ok(w.(phase := Running(w.pending), pending := [])) else Ok(w)
    case RunNext(env) =>
      if w.phase.Running? && w.phase.batch != []
      then RunJob(w.(phase := Running(w.phase.batch[1..]), ran := w.ran + [w.phase.batch[0]]), w.phase.batch[0], env)
      else Ok(w)
    case EndJobs =>
      if w.phase == Running([]) then Ok(w.(phase := Polling)) else Ok(w)
    case Submit(t, c, data) =>
      if t !in w.submitting && c in w.conns && w.conns[c].state == Connected
      then Ok(w.(submitting := w.submitting[t := Submission(c, data)])) else Ok(w)
    case PushSend(t) =>
      if t in w.submitting
      then
        var job := SendJob(w.submitting[t].conn, Queued(t, w.Submitted(t), w.submitting[t].data));
        Ok(w.(pending := w.pending + [job], pushed := w.pushed + [job],
              submitting := w.submitting - {t}, submitted := w.submitted[t := w.Submitted(t) + 1]))
      else Ok(w)
    case PushTask(task) => Ok(w.(pending := w.pending + [Task(task)], pushed := w.pushed + [Task(task)]))
  }

  /** A whole run; it ends where an assert fails. */
  function Exec(w: World, es: seq<Event>): Outcome
    decreases |es|
  {
    if es == [] then Ok(w)
    else
      var v :- Step(w, es[0]);
      Exec(v, es[1..])
  }
}
