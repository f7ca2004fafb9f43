/**
 * The reactor as its clients and the kernel see it: byte pipes, a queue of jobs, and no asserts. Every operation is
 * defined here on its own; module PipesRefine proves that the reactor does nothing else.
 */
module Pipes {
  import opened Common
  import opened Epoll
  import opened Connection
  import opened Reactor

  datatype Pipe = Pipe(
    state: State,
    interest: Mask,
    input: seq<byte>,
    got: seq<byte>,
    buffer: seq<byte>,  // accepted, and not yet taken by the kernel
    wire: seq<byte>,
    accepted: seq<Payload>,
    lost: nat,
    asked: bool,
    shuts: nat,
    mark: Option<nat>,
    notifies: bool,     // of completed writes
    ups: nat,
    downs: nat)

  datatype Book = Book(
    pipes: map<nat, Pipe>,
    server: set<nat>,
    at: Phase,
    waiting: seq<Job>,
    pushed: seq<Job>,
    ran: seq<Job>,
    outbox: map<nat, Submission>, // of the threads between their state test and their push
    counts: map<nat, nat>)

  function NewBook(): Book {
    Book(map[], {}, Polling, [], [], [], map[], map[])
  }

  function NewPipe(notifies: bool): Pipe {
    Pipe(Connected, {IN, PRI}, [], [], [], [], [], 0, false, 0, None, notifies, 1, 0)
  }

  /** How much of len bytes a write takes. */
  function Amount(wr: WriteResult, len: nat): (n: nat)
    ensures n <= len
  {
    if !wr.Wrote? then 0 else if wr.n <= len then wr.n else len
  }

  /** A payload goes to the kernel as far as it takes it, unless bytes wait before it; the rest waits. */
  function Offer(p: Pipe, c: nat, payload: Payload, wr: WriteResult): (Pipe, seq<Job>) {
    var data := payload.data;
    if p.buffer == [] && wr == BrokenPipe then (p.(lost := p.lost + |data|), [])
    else
      var n := if p.buffer == [] then Amount(wr, |data|) else 0;
      var rest := p.buffer + data[n..];
      (p.(wire := p.wire + data[..n], buffer := rest, accepted := p.accepted + [payload],
          interest := if rest == [] then p.interest else p.interest + {OUT}),
       if p.buffer == [] && wr.Wrote? && n == |data| then Notice(p, c) else Warning(p, c, |rest|))
  }

  function Notice(p: Pipe, c: nat): seq<Job> {
    if p.notifies then [WriteComplete(c)] else []
  }

  function Warning(p: Pipe, c: nat, size: nat): seq<Job> {
    if p.mark.Some? && |p.buffer| < p.mark.value <= size then [HighWater(c, size)] else []
  }

  /** The kernel takes waiting bytes; with the last of them go the notice, and SHUT_WR if the connection is to close. */
  function Drain(p: Pipe, c: nat, wr: WriteResult): (Pipe, seq<Job>) {
    var n := Amount(wr, |p.buffer|);
    var q := p.(wire := p.wire + p.buffer[..n], buffer := p.buffer[n..]);
    if n < |p.buffer| then (q, [])
    else
      (q.(interest := p.interest - {OUT}, shuts := if p.state == Disconnecting then p.shuts + 1 else p.shuts),
       Notice(p, c))
  }

  function Pushed(b: Book, jobs: seq<Job>): Book {
    b.(waiting := b.waiting + jobs, pushed := b.pushed + jobs)
  }

  function Replaced(b: Book, c: nat, p: Pipe): Book {
    b.(pipes := b.pipes[c := p])
  }

  function Post(b: Book, c: nat, change: (Pipe, seq<Job>)): Book {
    Pushed(Replaced(b, c, change.0), change.1)
  }

  /** One client call. */
  function Called(b: Book, call: Call): Book {
    if call.conn !in b.pipes then b
    else
      var c, p := call.conn, b.pipes[call.conn];
      match call
      case SendData(_, data, wr) => if p.state == Connected then Post(b, c, Offer(p, c, Direct(data), wr)) else b
      case SendInput(_, from, wr) =>
        if p.state == Connected && from in b.pipes
        then Emptied(Post(b, c, Offer(p, c, Direct(b.pipes[from].input), wr)), from) else b
      case ShutdownWrite(_) => if p.state == Connected then Replaced(b, c, Ending(p)) else b
      case CloseSoon(_) =>
        if p.state == Disconnected then b else Post(b, c, (p.(state := Disconnecting), [ForceClose(c)]))
      case PauseRead(_) => Replaced(b, c, p.(interest := p.interest - {IN}))
      case ResumeRead(_) =>
        if IN in p.interest then b else Replaced(b, c, p.(interest := p.interest + {IN, PRI}))
      case MarkHighWater(_, mark) => Replaced(b, c, p.(mark := Some(mark)))
      case DiscardInput(_, n) => Replaced(b, c, p.(input := if n <= |p.input| then p.input[n..] else []))
      case QueueTask(_, task) => Pushed(b, [Task(task)])
  }

  /** The sending side is shut down at once if nothing waits. */
  function Ending(p: Pipe): Pipe {
    p.(state := Disconnecting, asked := true, shuts := if p.buffer == [] then p.shuts + 1 else p.shuts)
  }

  function Emptied(b: Book, c: nat): Book {
    if c in b.pipes then Replaced(b, c, b.pipes[c].(input := [])) else b
  }

  function CalledAll(b: Book, script: seq<Call>): Book
    decreases |script|
  {
    if script == [] then b else CalledAll(Called(b, script[0]), script[1..])
  }

  function Removed(b: Book, c: nat): Book
    requires c in b.pipes
  {
    var p := b.pipes[c];
    Replaced(b, c, p.(state := Disconnected, interest := {}, downs := p.downs + 1)).(server := b.server - {c})
  }

  /** A connection closes, and its client hears of it. */
  function Ended(b: Book, c: nat, onClose: seq<Call>): Book
    requires c in b.pipes
  {
    CalledAll(Removed(b, c), onClose)
  }

  function Read(b: Book, c: nat, env: Env): Book
    requires c in b.pipes
  {
    match env.read
    case Failed(_) => b
    case Got(data) =>
      if data == [] then Ended(b, c, env.onClose)
      else
        var p := b.pipes[c];
        CalledAll(Replaced(b, c, p.(input := p.input + data, got := p.got + data)), env.onMessage)
  }

  /** A hang-up, then what there is to read. */
  function Entered(b: Book, c: nat, revents: Mask, env: Env): Book
    requires c in b.pipes
  {
    var b1 := if HUP in revents && IN !in revents then Ended(b, c, env.onClose) else b;
    if revents * {IN, PRI, RDHUP} != {} && c in b1.pipes then Read(b1, c, env) else b1
  }

  /** ... and then room to write. */
  function Handled(b: Book, c: nat, revents: Mask, env: Env): Book
    requires c in b.pipes
  {
    var b2 := Entered(b, c, revents, env);
    if OUT in revents && c in b2.pipes && b2.pipes[c].state != Disconnected
    then Post(b2, c, Drain(b2.pipes[c], c, env.write)) else b2
  }

  function Ran(b: Book, j: Job, env: Env): Book {
    match j
    case SendJob(c, payload) =>
      if c in b.pipes && b.pipes[c].state != Disconnected
      then Post(b, c, Offer(b.pipes[c], c, payload, env.write)) else b
    case ForceClose(c) =>
      if c in b.pipes && b.pipes[c].state != Disconnected then Ended(b, c, env.onClose) else b
    case _ => CalledAll(b, env.onMessage)
  }

  function Count(b: Book, thread: nat): nat {
    if thread in b.counts then b.counts[thread] else 0
  }

  /** The kernel reports what was asked for, errors and hang-ups, of registered connections, once each. */
  ghost predicate Reportable(b: Book, active: seq<Ready>) {
    && (forall r :: r in active ==>
          && r.conn in b.pipes && b.pipes[r.conn].interest != {}
          && forall bit :: bit in r.revents ==> bit in b.pipes[r.conn].interest || bit == ERR || bit == HUP)
    && forall i, j :: 0 <= i < |active| && 0 <= j < |active| && active[i].conn == active[j].conn ==> i == j
  }

  /** One event of the loop thread, of another thread, or of the kernel. */
  ghost function Happened(b: Book, e: Event): Book {
    match e
    case PollReturns(active) => if b.at == Polling && Reportable(b, active) then b.(at := Handling(active)) else b
    case Handle(env) =>
      if b.at.Handling? && b.at.active != [] && b.at.active[0].conn in b.pipes
      then Handled(b.(at := Handling(b.at.active[1..])), b.at.active[0].conn, b.at.active[0].revents, env) else b
    case Accept(c, notifies, script) =>
      if b.at.Handling? && c !in b.pipes
      then CalledAll(Replaced(b, c, NewPipe(notifies)).(server := b.server + {c}), script) else b
    case OtherHandler(script) => if b.at.Handling? then CalledAll(b, script) else b
    case SwapJobs => if b.at == Handling([]) then b.(at := Running(b.waiting), waiting := []) else b
    case RunNext(env) =>
      if b.at.Running? && b.at.batch != []
      then
        var j := b.at.batch[0];
        Ran(b.(at := Running(b.at.batch[1..]), ran := b.ran + [j]), j, env)
      else b
    case EndJobs => if b.at == Running([]) then b.(at := Polling) else b
    case Submit(t, c, data) =>
      if t !in b.outbox && c in b.pipes && b.pipes[c].state == Connected
      then b.(outbox := b.outbox[t := Submission(c, data)]) else b
    case PushSend(t) =>
      if t !in b.outbox then b
      else
        var Submission(c, data) := b.outbox[t];
        Pushed(b, [SendJob(c, Queued(t, Count(b, t), data))])
        .(outbox := b.outbox - {t}, counts := b.counts[t := Count(b, t) + 1])
    case PushTask(task) => Pushed(b, [Task(task)])
  }

  ghost function HappenedAll(b: Book, es: seq<Event>): Book
    decreases |es|
  {
    if es == [] then b else HappenedAll(Happened(b, es[0]), es[1..])
  }
}
