/** One TcpConnection: its fields, what it did to its socket, and its methods as functions on both. */
module Connection {
  import opened Common
  import opened Epoll

  datatype State = Connecting | Connected | Disconnecting | Disconnected

  /** What is handed to sendInLoop: by the loop thread itself, or by another thread's queued job (its no-th). */
  datatype Payload =
    | Direct(data: seq<byte>)
    | Queued(sender: nat, no: nat, data: seq<byte>)

  /** What write(2) reported: n bytes taken, or the errno class the code distinguishes. */
  datatype WriteResult = Wrote(n: nat) | WouldBlock | BrokenPipe | OtherError {
    /** The kernel takes at most what it is offered. */
    function Taken(offered: nat): nat {
      if Wrote? then Min(n, offered) else 0
    }
  }

  datatype Job =
    | SendJob(conn: nat, payload: Payload)
    | HighWater(conn: nat, size: nat)
    | WriteComplete(conn: nat)
    | ForceClose(conn: nat)
    | Task(id: nat)

  /** The eight asserts modelled; those on the lifetime of channels and connections are not. */
  datatype Site =
    | OutputWhileNotWriting // TcpConnection.cc:97
    | ShutdownWhenClosed    // TcpConnection.cc:155
    | ReadWhenClosed        // TcpConnection.cc:217
    | NothingToWrite        // TcpConnection.cc:238
    | WriteNotEnabled       // TcpConnection.cc:239
    | CloseWhenClosed       // TcpConnection.cc:261
    | EmptyMask             // Epoller.cc:50
    | NotInServer           // TcpServer.cc:39

  /** What happened on the socket and at the callbacks so far. */
  datatype History = History(
    got: seq<byte>,          // read from the socket
    wire: seq<byte>,         // taken by write(2)
    accepted: seq<Payload>,  // payloads sendInLoop neither gave up nor lost
    lost: nat,               // bytes of payloads dropped on EPIPE or ECONNRESET
    asked: bool,             // shutdown() found the connection connected
    shuts: nat,              // SHUT_WR attempts
    shutWire: seq<byte>,     // the wire at the latest of them
    lateSends: nat,          // sendInLoop runs that came after one
    ups: nat,
    downs: nat)

  datatype Conn = Conn(
    state: State,
    events: Mask,
    input: seq<byte>,
    output: seq<byte>,
    onWriteComplete: bool,
    highWater: Option<nat>,
    log: History)
  {
    predicate Alive() {
      state == Connected || state == Disconnecting
    }

    predicate Writing() {
      OUT in events
    }
  }

  /** The connection a method leaves and the jobs it pushed, or the assert it failed. */
  datatype Effect = Effect(conn: Conn, jobs: seq<Job>) | Failed(site: Site)

  /** The accepted bytes, in the order sendInLoop ran. */
  function Stream(ps: seq<Payload>): seq<byte> {
    if ps == [] then [] else Stream(ps[..|ps| - 1]) + ps[|ps| - 1].data
  }

  /** newConnection up to what the connection callback does: constructed, callbacks set, established. */
  function Established(onWriteComplete: bool): Conn {
    CalledBack(Constructed(onWriteComplete).(state := Connected, events := ApplyMask({}, EnableRead)))
  }

  function Constructed(onWriteComplete: bool): Conn {
    Conn(Connecting, {}, [], [], onWriteComplete, None, History([], [], [], 0, false, 0, [], 0, 0, 0))
  }

  /** The connection callback runs, and tells up from down by asking whether the connection is connected. */
  function CalledBack(k: Conn): Conn {
    k.(log := Reported(k.log, k.state == Connected))
  }

  function Reported(log: History, up: bool): History {
    if up then log.(ups := log.ups + 1) else log.(downs := log.downs + 1)
  }

  function SendInLoop(k: Conn, id: nat, p: Payload, wr: WriteResult): Effect {
    if k.state == Disconnected then Effect(k, [])
    else if !k.Writing() && k.output != [] then Failed(OutputWhileNotWriting)
    else if !k.Writing() && wr.BrokenPipe? then Effect(Lose(k, p), [])
    else
      var n := if k.Writing() then 0 else wr.Taken(|p.data|);
      var sent := Accept(k, p, n);
      if !k.Writing() && wr.Wrote? && n == |p.data| then Effect(sent, WhenComplete(k, id))
      else Buffered(sent, id, p.data[n..])
  }

  /** The first n bytes of p went to the socket. */
  function Accept(k: Conn, p: Payload, n: nat): Conn
    requires n <= |p.data|
  {
    k.(log := k.log.(wire := k.log.wire + p.data[..n], accepted := k.log.accepted + [p], lateSends := LateSends(k)))
  }

  function Lose(k: Conn, p: Payload): Conn {
    k.(log := k.log.(lost := k.log.lost + |p.data|, lateSends := LateSends(k)))
  }

  function LateSends(k: Conn): nat {
    if k.log.shuts > 0 then k.log.lateSends + 1 else k.log.lateSends
  }

  /** The rest of a payload goes to the output buffer, with a job when that crosses the high-water mark. */
  function Buffered(k: Conn, id: nat, rest: seq<byte>): Effect {
    if rest == [] then Effect(k, [])
    else
      var size := |k.output| + |rest|;
      Effect(k.(output := k.output + rest, events := ApplyMask(k.events, EnableWrite)),
             if k.highWater.Some? && |k.output| < k.highWater.value <= size then [HighWater(id, size)] else [])
  }

  function WhenComplete(k: Conn, id: nat): seq<Job> {
    if k.onWriteComplete then [WriteComplete(id)] else []
  }

  /** send(): given up unless connected. */
  function Send(k: Conn, id: nat, data: seq<byte>, wr: WriteResult): Effect {
    if k.state != Connected then Effect(k, []) else SendInLoop(k, id, Direct(data), wr)
  }

  /** send(Buffer&) of a connection's own input, which is emptied unless the send is given up. */
  function SentInput(k: Conn, id: nat, wr: WriteResult): Effect {
    if k.state != Connected then Effect(k, [])
    else
      match SendInLoop(k, id, Direct(k.input), wr)
      case Failed(site) => Failed(site)
      case Effect(l, jobs) => Effect(l.(input := []), jobs)
  }

  function ShutdownInLoop(k: Conn): Conn {
    if k.state != Disconnected && !k.Writing()
    then k.(log := k.log.(shuts := k.log.shuts + 1, shutWire := k.log.wire))
    else k
  }

  function Shutdown(k: Conn): Effect {
    if k.state == Disconnected then Failed(ShutdownWhenClosed)
    else if k.state == Connected
    then Effect(ShutdownInLoop(k.(state := Disconnecting, log := k.log.(asked := true))), [])
    else Effect(k.(state := Disconnecting), [])
  }

  function RequestClose(k: Conn, id: nat): Effect {
    if k.state == Disconnected then Effect(k, [])
    else Effect(k.(state := Disconnecting), [ForceClose(id)])
  }

  function StopRead(k: Conn): Conn {
    if IN in k.events then k.(events := ApplyMask(k.events, DisableRead)) else k
  }

  function StartRead(k: Conn): Conn {
    if IN !in k.events then k.(events := ApplyMask(k.events, EnableRead)) else k
  }

  /** handleWrite() */
  function Flush(k: Conn, id: nat, wr: WriteResult): Effect {
    if k.state == Disconnected then Effect(k, [])
    else if k.output == [] then Failed(NothingToWrite)
    else if !k.Writing() then Failed(WriteNotEnabled)
    else
      var n := wr.Taken(|k.output|);
      var sent := k.(output := k.output[n..], log := k.log.(wire := k.log.wire + k.output[..n]));
      if !wr.Wrote? || sent.output != [] then Effect(sent, [])
      else
        var idle := sent.(events := ApplyMask(k.events, DisableWrite));
        Effect(if k.state == Disconnecting then ShutdownInLoop(idle) else idle, WhenComplete(k, id))
  }

  /** handleClose() up to what the connection callback does. */
  function Close(k: Conn): Effect {
    if !k.Alive() then Failed(CloseWhenClosed)
    else if k.events == {} then Failed(EmptyMask)
    else Effect(CalledBack(k.(state := Disconnected, events := ApplyMask(k.events, DisableAll))), [])
  }

  /** handleRead() of at least one byte, up to the message callback. */
  function Receive(k: Conn, data: seq<byte>): Conn {
    k.(input := k.input + data, log := k.log.(got := k.log.got + data))
  }

  /** What holds of a connection whenever no method of it is running. */
  ghost predicate Sound(k: Conn) {
    && k.state != Connecting
    && (k.Alive() ==> PRI in k.events && (k.Writing() <==> k.output != []))
    && (!k.Alive() ==> !k.Writing())
    && k.log.wire + k.output == Stream(k.log.accepted)
    && k.log.ups == 1
    && k.log.downs == (if k.Alive() then 0 else 1)
    && (k.state == Connected ==> !k.log.asked && k.log.shuts == 0)
    && (k.log.asked && k.Alive() && k.log.shuts == 0 ==> k.output != [])
    && ShutOnce(k)
  }

  /**
   * Without late sends: at most one SHUT_WR, at which all accepted bytes were on the wire, and the wire did not grow
   * since.
   */
  ghost predicate ShutOnce(k: Conn) {
    && (k.log.shuts == 0 ==> k.log.lateSends == 0)
    && (k.log.lateSends == 0 ==>
          && k.log.shuts <= 1
          && (k.log.shuts == 1 ==> k.output == [] && k.log.shutWire == k.log.wire == Stream(k.log.accepted)))
  }

  lemma StreamSnoc(ps: seq<Payload>, p: Payload)
    ensures Stream(ps + [p]) == Stream(ps) + p.data
  {
    assert (ps + [p])[..|ps|] == ps;
  }

  lemma EstablishedSound(onWriteComplete: bool)
    ensures Sound(Established(onWriteComplete))
  {
  }

  /** A payload of which n bytes went to the socket and the rest, if any, to the output buffer. */
  lemma AcceptSound(k: Conn, id: nat, p: Payload, n: nat)
    requires Sound(k) && k.Alive() && n <= |p.data| && (n > 0 ==> !k.Writing())
    ensures Sound(Buffered(Accept(k, p, n), id, p.data[n..]).conn)
    ensures n == |p.data| ==> Sound(Accept(k, p, n))
  {
    if n == |p.data| {
      AcceptAllSound(k, p);
    } else {
      AcceptPartSound(k, id, p, n);
    }
  }

  lemma AcceptAllSound(k: Conn, p: Payload)
    requires Sound(k) && k.Alive() && (p.data != [] ==> !k.Writing())
    ensures Sound(Accept(k, p, |p.data|))
  {
    StreamSnoc(k.log.accepted, p);
    Moved(k.log.wire, k.output, p.data, |p.data|);
    assert k.output + p.data[|p.data|..] == k.output;
    assert p.data == [] ==> LateSends(k) == k.log.lateSends || k.log.shuts > 0;
  }

  lemma Moved(wire: seq<byte>, output: seq<byte>, data: seq<byte>, n: nat)
    requires n <= |data| && (n == 0 || output == [])
    ensures (wire + data[..n]) + (output + data[n..]) == (wire + output) + data
  {
    assert data == data[..n] + data[n..];
  }

  lemma AcceptPartSound(k: Conn, id: nat, p: Payload, n: nat)
    requires Sound(k) && k.Alive() && n < |p.data| && (n > 0 ==> !k.Writing())
    ensures Sound(Buffered(Accept(k, p, n), id, p.data[n..]).conn)
  {
    StreamSnoc(k.log.accepted, p);
    var sent, rest := Accept(k, p, n), p.data[n..];
    Moved(k.log.wire, k.output, p.data, n);
    var l := Buffered(sent, id, rest).conn;
    assert l.output == k.output + rest && l.log.accepted == k.log.accepted + [p];
    assert l.Writing() && PRI in l.events;
    assert l.log.shuts == 0 || l.log.lateSends > 0;
  }

  lemma SendInLoopSound(k: Conn, id: nat, p: Payload, wr: WriteResult)
    requires Sound(k)
    ensures SendInLoop(k, id, p, wr).Effect? && Sound(SendInLoop(k, id, p, wr).conn)
  {
    if k.Alive() {
      if k.Writing() {
        AcceptSound(k, id, p, 0);
      } else if wr.BrokenPipe? {
        LoseSound(k, p);
      } else {
        DirectSendSound(k, id, p, wr);
      }
    }
  }

  lemma DirectSendSound(k: Conn, id: nat, p: Payload, wr: WriteResult)
    requires Sound(k) && k.Alive() && !k.Writing() && !wr.BrokenPipe?
    ensures SendInLoop(k, id, p, wr).Effect? && Sound(SendInLoop(k, id, p, wr).conn)
  {
    AcceptSound(k, id, p, wr.Taken(|p.data|));
  }

  lemma LoseSound(k: Conn, p: Payload)
    requires Sound(k) && k.Alive()
    ensures Sound(Lose(k, p))
  {
  }

  /** What sending leaves alone, and what it accepts. */
  lemma SendFrame(k: Conn, id: nat, p: Payload, wr: WriteResult)
    ensures var e := SendInLoop(k, id, p, wr);
            e.Effect? ==>
              && e.conn.state == k.state && e.conn.input == k.input && e.conn.log.got == k.log.got
              && (k.Writing() ==> e.conn.Writing())
              && (e.conn.log.accepted == k.log.accepted || e.conn.log.accepted == k.log.accepted + [p])
              && e.conn.log.lateSends == (if k.state == Disconnected then k.log.lateSends else LateSends(k))
              && forall i :: 0 <= i < |e.jobs| ==> !e.jobs[i].SendJob? && !e.jobs[i].ForceClose?
  {
  }

  lemma FlushSound(k: Conn, id: nat, wr: WriteResult)
    requires Sound(k) && (k.Writing() || !k.Alive())
    ensures var e := Flush(k, id, wr);
            e.Effect? && Sound(e.conn)
  {
    var n := wr.Taken(|k.output|);
    assert k.output == k.output[..n] + k.output[n..];
    assert (k.log.wire + k.output[..n]) + k.output[n..] == k.log.wire + k.output;
  }

  /**
   * The jobs that sending and flushing push. Write-complete: exactly when this call empties the output, or leaves it
   * empty having sent something; for an empty payload, when its write succeeds. High-water: exactly when this send
   * takes the output to the mark or beyond it.
   */
  lemma JobsExactly(k: Conn, id: nat, p: Payload, wr: WriteResult)
    requires Sound(k) && k.Alive()
    ensures var e := SendInLoop(k, id, p, wr);
            && e.Effect? && |e.jobs| <= 1
            && (WriteComplete(id) in e.jobs <==>
                  && k.onWriteComplete && e.conn.output == []
                  && (if p.data == [] then wr.Wrote? else k.log.wire != e.conn.log.wire))
            && forall size :: HighWater(id, size) in e.jobs <==>
                 && k.highWater.Some? && |k.output| < k.highWater.value <= |e.conn.output|
                 && size == |e.conn.output|
    ensures var e := Flush(k, id, wr);
            k.output != [] ==>
              && e.Effect? && (forall j :: j in e.jobs ==> j == WriteComplete(id))
              && (WriteComplete(id) in e.jobs <==> k.onWriteComplete && e.conn.output == [])
  {
    SendJobsExactly(k, id, p, wr);
  }

  lemma SendJobsExactly(k: Conn, id: nat, p: Payload, wr: WriteResult)
    requires Sound(k) && k.Alive()
    ensures var e := SendInLoop(k, id, p, wr);
            && e.Effect? && |e.jobs| <= 1
            && (WriteComplete(id) in e.jobs <==>
                  && k.onWriteComplete && e.conn.output == []
                  && (if p.data == [] then wr.Wrote? else k.log.wire != e.conn.log.wire))
            && forall size :: HighWater(id, size) in e.jobs <==>
                 && k.highWater.Some? && |k.output| < k.highWater.value <= |e.conn.output|
                 && size == |e.conn.output|
  {
    var e := SendInLoop(k, id, p, wr);
    var n := if k.Writing() then 0 else wr.Taken(|p.data|);
    assert n > 0 ==> |e.conn.log.wire| > |k.log.wire|;
    assert p.data[..0] == [];
    assert k.log.wire + [] == k.log.wire;
  }

  lemma CallsSound(k: Conn, id: nat)
    requires Sound(k)
    ensures Shutdown(k).Failed? <==> !k.Alive()
    ensures k.Alive() ==> Sound(Shutdown(k).conn) && Shutdown(k).conn.state == Disconnecting
    ensures RequestClose(k, id).Effect? && Sound(RequestClose(k, id).conn)
    ensures Sound(StopRead(k)) && Sound(StartRead(k))
    ensures Close(k).Failed? <==> !k.Alive()
    ensures k.Alive() ==> Sound(Close(k).conn) && !Close(k).conn.Alive()
  {
    assert k.log.wire + [] == k.log.wire;
  }

  /** Nothing that happened is undone: the later of two states of one connection extends the earlier. */
  ghost predicate Grows(k: Conn, l: Conn) {
    && k.log.wire <= l.log.wire
    && k.log.got <= l.log.got
    && k.log.accepted <= l.log.accepted
    && k.log.shuts <= l.log.shuts
    && (k.log.shuts == l.log.shuts ==> k.log.shutWire == l.log.shutWire)
    && k.log.lateSends <= l.log.lateSends
    && (k.state != Connected ==> l.state != Connected)
    && (!k.Alive() ==> !l.Alive())
    && k.onWriteComplete == l.onWriteComplete
  }

  lemma PrefixTrans<T>(a: seq<T>, b: seq<T>, c: seq<T>)
    requires a <= b <= c
    ensures a <= c
  {
    assert c[..|a|] == c[..|b|][..|a|];
  }

  lemma GrowsTrans(k: Conn, l: Conn, m: Conn)
    requires Grows(k, l) && Grows(l, m)
    ensures Grows(k, m)
  {
    PrefixTrans(k.log.wire, l.log.wire, m.log.wire);
    PrefixTrans(k.log.got, l.log.got, m.log.got);
    PrefixTrans(k.log.accepted, l.log.accepted, m.log.accepted);
  }

  lemma OutputGrows(k: Conn, id: nat, p: Payload, wr: WriteResult)
    ensures SendInLoop(k, id, p, wr).Effect? ==> Grows(k, SendInLoop(k, id, p, wr).conn)
    ensures Flush(k, id, wr).Effect? ==> Grows(k, Flush(k, id, wr).conn)
  {
    SendGrows(k, id, p, wr);
    FlushGrows(k, id, wr);
  }

  lemma SendGrows(k: Conn, id: nat, p: Payload, wr: WriteResult)
    ensures SendInLoop(k, id, p, wr).Effect? ==> Grows(k, SendInLoop(k, id, p, wr).conn)
  {
    if k.state == Disconnected {
      GrowsRefl(k);
    } else if !k.Writing() && wr.BrokenPipe? {
      GrowsRefl(k);
    } else {
      AcceptGrows(k, p, if k.Writing() then 0 else wr.Taken(|p.data|));
    }
  }

  lemma GrowsRefl(k: Conn)
    ensures Grows(k, k)
  {
  }

  lemma AcceptGrows(k: Conn, p: Payload, n: nat)
    requires n <= |p.data|
    ensures Grows(k, Accept(k, p, n))
  {
    PrefixAppend(k.log.wire, p.data[..n]);
    PrefixAppend(k.log.accepted, [p]);
  }

  lemma PrefixAppend<T>(a: seq<T>, b: seq<T>)
    ensures a <= a + b
  {
  }

  lemma FlushGrows(k: Conn, id: nat, wr: WriteResult)
    ensures Flush(k, id, wr).Effect? ==> Grows(k, Flush(k, id, wr).conn)
  {
    PrefixAppend(k.log.wire, k.output[..wr.Taken(|k.output|)]);
  }

  /** With nothing read and nothing written, nothing happens. */
  lemma BlockedFlush(k: Conn, id: nat)
    requires Sound(k) && (k.Writing() || !k.Alive())
    ensures Flush(k, id, WouldBlock) == Effect(k, [])
  {
    if k.state != Disconnected {
      assert k.output[0..] == k.output && k.output[..0] == [];
      assert k.log.wire + [] == k.log.wire;
    }
  }

  lemma ControlGrows(k: Conn, id: nat, data: seq<byte>)
    requires Sound(k)
    ensures Shutdown(k).Effect? ==> Grows(k, Shutdown(k).conn)
    ensures Grows(k, RequestClose(k, id).conn) && Grows(k, StopRead(k)) && Grows(k, StartRead(k))
    ensures Close(k).Effect? ==> Grows(k, Close(k).conn)
    ensures Grows(k, Receive(k, data))
  {
  }
}
