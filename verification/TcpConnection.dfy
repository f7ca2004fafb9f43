/**
 * TcpConnection, TcpServer and EchoServer as objects: their methods, step by step, do to their fields
 * what module Connection's functions say.
 */
module TcpConnections {
  import opened Common
  import opened Epoll
  import opened Connection
  import opened Buffers
  import opened EventLoops
  import opened ReactorProofs
  import opened EchoServe

  class TcpServer {
    const echo: EchoServer
    var connections: set<TcpConnection>

    constructor (echo: EchoServer)
      ensures this.echo == echo && connections == {}
    {
      this.echo := echo;
      connections := {};
    }

    method CloseConnection(conn: TcpConnection)
      requires conn in connections && conn.state == Disconnected
      modifies this, echo, conn`highWater, conn`log
      ensures conn.highWater == old(conn.highWater) && conn.log == Reported(old(conn.log), false)
      ensures connections == old(connections) - {conn}
      ensures echo.connections == old(echo.connections) - {conn}
    {
      connections := connections - {conn};
      echo.OnConnection(conn, 0);
    }

    /** A new socket: established, watched by the timeout, and with a high-water mark. */
    method NewConnection(loop: EventLoop<Job>, epoller: Epoller, id: nat, fd: int, now: int)
      returns (conn: TcpConnection)
      requires fd !in epoller.interest
      modifies this, echo, epoller
      ensures fresh(conn) && conn.Valid() && conn.server == this && conn.loop == loop
      ensures conn.View() == Established(true).(highWater := Some(Echo.MARK))
      ensures connections == old(connections) + {conn}
      ensures echo.connections == old(echo.connections)[conn := now + echo.timeout]
      ensures epoller.interest == old(epoller.interest)[fd := {IN, PRI}]
    {
      conn := new TcpConnection(this, loop, epoller, id, fd);
      connections := connections + {conn};
      Welcome(conn, now);
    }

    method Welcome(conn: TcpConnection, now: int)
      requires conn.Valid() && conn.state == Connecting && conn.channel.events == {}
      modifies echo, conn`state, conn`onWriteComplete, conn`highWater, conn`log, conn.channel, conn.channel.epoller
      ensures conn.Valid()
      ensures conn.View() == CalledBack(old(conn.View()).(state := Connected, events := {IN, PRI},
                                                          onWriteComplete := true, highWater := Some(Echo.MARK)))
      ensures conn.channel.epoller.interest == old(conn.channel.epoller.interest)[conn.channel.fd := {IN, PRI}]
      ensures echo.connections == old(echo.connections)[conn := now + echo.timeout]
    {
      SetUp(conn);
      echo.OnConnection(conn, now);
    }

    method SetUp(conn: TcpConnection)
      requires conn.Valid() && conn.state == Connecting && conn.channel.events == {}
      modifies conn`state, conn`onWriteComplete, conn.channel, conn.channel.epoller
      ensures conn.Valid()
      ensures conn.View() == old(conn.View()).(state := Connected, events := {IN, PRI}, onWriteComplete := true)
      ensures conn.channel.epoller.interest == old(conn.channel.epoller.interest)[conn.channel.fd := {IN, PRI}]
    {
      conn.onWriteComplete := true;
      conn.ConnectEstablished();
      assert conn.channel.events == {IN, PRI};
    }
  }

  class EchoServer {
    const timeout: nat
    var connections: map<TcpConnection, int> // by the time at which they expire

    constructor (timeout: nat)
      ensures this.timeout == timeout && connections == map[]
    {
      this.timeout := timeout;
      connections := map[];
    }

    method OnConnection(conn: TcpConnection, now: int)
      modifies this, conn`highWater, conn`log
      ensures conn.log == Reported(old(conn.log), conn.state == Connected)
      ensures conn.state == Connected ==>
                connections == old(connections)[conn := now + timeout] && conn.highWater == Some(Echo.MARK)
      ensures conn.state != Connected ==>
                connections == old(connections) - {conn} && conn.highWater == old(conn.highWater)
    {
      conn.log := Reported(conn.log, conn.state == Connected);
      if conn.state == Connected {
        conn.highWater := Some(Echo.MARK);
        ExpireAfter(conn, now, timeout);
      } else {
        connections := connections - {conn};
      }
    }

    method ExpireAfter(conn: TcpConnection, now: int, interval: int)
      modifies this
      ensures connections == old(connections)[conn := now + interval]
    {
      connections := connections[conn := now + interval];
    }

    method OnMessage(conn: TcpConnection, now: int, wr: WriteResult)
      requires conn.Valid() && FlagAgrees(conn.View())
      modifies this, conn`log, conn.loop, conn.channel, conn.channel.epoller
      modifies conn.inputBuffer, conn.outputBuffer, conn.outputBuffer.buffer
      ensures conn.Valid()
      ensures var e := SentInput(old(conn.View()), conn.id, wr);
              && e.Effect? && conn.View() == e.conn
              && conn.loop.pendingJobs == old(conn.loop.pendingJobs) + e.jobs
      ensures connections == old(connections)[conn := now + timeout]
    {
      conn.SendBuffer(wr);
      ExpireAfter(conn, now, timeout);
    }

    method OnWriteComplete(conn: TcpConnection, now: int)
      requires conn.Valid()
      modifies this, conn.channel, conn.channel.epoller
      ensures conn.Valid() && conn.View() == StartRead(old(conn.View()))
      ensures connections == if IN in old(conn.channel.events) then old(connections)
                             else old(connections)[conn := now + timeout]
    {
      if !conn.channel.IsReading() {
        conn.StartReading();
        ExpireAfter(conn, now, timeout);
      }
    }

    method OnHighWaterMark(conn: TcpConnection, now: int)
      requires conn.Valid() && PRI in conn.channel.events
      modifies this, conn.channel, conn.channel.epoller
      ensures conn.Valid() && conn.View() == StopRead(old(conn.View()))
      ensures connections == old(connections)[conn := now + 2 * timeout]
    {
      conn.StopReading();
      ExpireAfter(conn, now, 2 * timeout);
    }
  }

  /** EPOLLOUT is registered exactly while there is output to flush. */
  predicate FlagAgrees(k: Conn) {
    k.Alive() ==> (k.Writing() <==> k.output != [])
  }

  /** ... also after the read callback, so that the write callback finds something to write. */
  lemma InputAgrees(k: Conn, id: nat, revents: Mask, result: ReadResult, wr: WriteResult)
    requires Sound(k) && !Fatal(k, revents) && (OUT in revents ==> k.Writing() || !k.Alive())
    ensures FlagAgrees(k) && k.state != Connecting && (k.Alive() ==> k.events != {})
    ensures var e := CloseOrRead(k, id, revents, result, wr);
            && e.Effect?
            && (OUT in revents ==> (e.conn.Writing() && e.conn.output != []) || e.conn.state == Disconnected)
  {
    InputSound(k, id, revents, result, wr);
  }

  /** Who calls send(): the loop thread, or another one for the no-th time. */
  datatype Caller = LoopThread | OtherThread(thread: nat, no: nat)

  class TcpConnection {
    const id: nat
    const server: TcpServer // its closeConnection is the close callback
    const loop: EventLoop<Job>
    const channel: Channel
    const inputBuffer: Buffer
    const outputBuffer: Buffer
    var state: State
    var onWriteComplete: bool // writeCompleteCallback_ is set
    var highWater: Option<nat> // highWaterMark_, once its callback is set
    ghost var log: History

    ghost predicate Valid()
      reads this, channel, channel.epoller, inputBuffer, outputBuffer
    {
      && inputBuffer != outputBuffer && inputBuffer.buffer != outputBuffer.buffer
      && inputBuffer.Valid() && outputBuffer.Valid()
      && channel.Mirrored()
    }

    /** The connection as a value of module Connection. */
    ghost function View(): Conn
      requires Valid()
      reads this, channel, channel.epoller, inputBuffer, outputBuffer, inputBuffer.buffer, outputBuffer.buffer
    {
      Conn(state, channel.events, inputBuffer.Readable(), outputBuffer.Readable(), onWriteComplete, highWater, log)
    }

    constructor (server: TcpServer, loop: EventLoop<Job>, epoller: Epoller, id: nat, fd: int)
      requires fd !in epoller.interest
      ensures Valid() && this.server == server && this.loop == loop && this.id == id
      ensures fresh(inputBuffer) && fresh(outputBuffer) && fresh(inputBuffer.buffer) && fresh(outputBuffer.buffer)
      ensures fresh(channel) && channel.epoller == epoller && channel.fd == fd
      ensures View() == Constructed(false)
    {
      this.id := id;
      this.server := server;
      this.loop := loop;
      var chan := new Channel(epoller, fd);
      var input := new Buffer();
      var output := new Buffer();
      channel := chan;
      inputBuffer := input;
      outputBuffer := output;
      state := Connecting;
      onWriteComplete := false;
      highWater := None;
      log := Constructed(false).log;
    }

    method ConnectEstablished()
      requires Valid() && state == Connecting
      modifies this`state, channel, channel.epoller
      ensures Valid()
      ensures View() == old(View()).(state := Connected, events := ApplyMask(old(channel.events), EnableRead))
      ensures channel.epoller.interest == Registered(old(channel.epoller.interest), channel.fd, channel.events)
    {
      state := Connected;
      channel.EnableRead();
    }

    method SendInLoop(data: seq<byte>, ghost p: Payload, wr: WriteResult)
      requires Valid() && p.data == data
      requires state == Disconnected || channel.IsWriting() || outputBuffer.Readable() == []
      modifies this`log, loop, channel, channel.epoller, outputBuffer, outputBuffer.buffer
      ensures Valid()
      ensures outputBuffer.buffer == old(outputBuffer.buffer) || fresh(outputBuffer.buffer)
      ensures var e := Connection.SendInLoop(old(View()), id, p, wr);
              e.Effect? && View() == e.conn && loop.pendingJobs == old(loop.pendingJobs) + e.jobs
    {
      if state == Disconnected {
        return;
      }
      var n, faultError := Attempt(data, p, wr);
      if !faultError && n < |data| {
        BufferRest(data[n..]);
      }
    }

    /** The write(2) of sendInLoop, unless output is pending, and what it says in the history. */
    method Attempt(data: seq<byte>, ghost p: Payload, wr: WriteResult) returns (n: nat, faultError: bool)
      requires Valid() && p.data == data && (channel.IsWriting() || outputBuffer.Readable() == [])
      modifies this`log, loop
      ensures Valid()
      ensures faultError == (!channel.IsWriting() && wr.BrokenPipe?)
      ensures n == if channel.IsWriting() then 0 else wr.Taken(|data|)
      ensures View() == if faultError then Lose(old(View()), p) else Accept(old(View()), p, n)
      ensures loop.pendingJobs == old(loop.pendingJobs)
                                  + (if !channel.IsWriting() && wr.Wrote? && n == |data|
                                     then WhenComplete(old(View()), id) else [])
    {
      n := 0;
      faultError := false;
      log := log.(lateSends := LateSends(View()));
      if !channel.IsWriting() {
        var output := outputBuffer.ReadableBytes();
        assert output == 0;
        n, faultError := WriteAtOnce(|data|, wr);
      }
      if faultError {
        log := log.(lost := log.lost + |data|);
      } else {
        log := log.(wire := log.wire + data[..n], accepted := log.accepted + [p]);
      }
    }

    /** ... and its write-complete job. */
    method WriteAtOnce(len: nat, wr: WriteResult) returns (n: nat, faultError: bool)
      modifies loop
      ensures n == wr.Taken(len) && faultError == wr.BrokenPipe?
      ensures loop.pendingJobs == old(loop.pendingJobs)
                                  + (if wr.Wrote? && n == len && onWriteComplete then [WriteComplete(id)] else [])
    {
      n := 0;
      faultError := false;
      match wr {
        case Wrote(_) =>
          n := wr.Taken(len);
          if n == len && onWriteComplete {
            loop.QueueInLoop(WriteComplete(id));
          }
        case BrokenPipe =>
          faultError := true;
        case _ =>
      }
    }

    /** The high-water mark, the output buffer and EPOLLOUT. */
    method BufferRest(rest: seq<byte>)
      requires Valid() && rest != []
      modifies loop, channel, channel.epoller, outputBuffer, outputBuffer.buffer
      ensures Valid()
      ensures outputBuffer.buffer == old(outputBuffer.buffer) || fresh(outputBuffer.buffer)
      ensures var e := Buffered(old(View()), id, rest);
              View() == e.conn && loop.pendingJobs == old(loop.pendingJobs) + e.jobs
    {
      CheckMark(|rest|);
      outputBuffer.Append(rest);
      channel.EnableWrite();
    }

    method CheckMark(more: nat)
      requires Valid()
      modifies loop
      ensures var oldLen := |outputBuffer.Readable()|;
              loop.pendingJobs == old(loop.pendingJobs)
                                  + (if highWater.Some? && oldLen < highWater.value <= oldLen + more
                                     then [HighWater(id, oldLen + more)] else [])
    {
      if highWater.Some? {
        var oldLen := outputBuffer.ReadableBytes();
        var newLen := oldLen + more;
        if oldLen < highWater.value <= newLen {
          loop.QueueInLoop(HighWater(id, newLen));
        }
      }
    }

    method Send(data: seq<byte>, caller: Caller, wr: WriteResult)
      requires Valid() && FlagAgrees(View())
      modifies this`log, loop, channel, channel.epoller, outputBuffer, outputBuffer.buffer
      ensures Valid()
      ensures caller.LoopThread? ==>
                var e := Connection.Send(old(View()), id, data, wr);
                e.Effect? && View() == e.conn && loop.pendingJobs == old(loop.pendingJobs) + e.jobs
      ensures caller.OtherThread? ==> View() == old(View())
      ensures caller.OtherThread? && state == Connected ==>
                && loop.pendingJobs == old(loop.pendingJobs) + [SendJob(id, Queued(caller.thread, caller.no, data))]
                && loop.eventfd > 0
      ensures caller.OtherThread? && state != Connected ==> loop.pendingJobs == old(loop.pendingJobs)
    {
      if state != Connected {
        return;
      }
      match caller {
        case LoopThread => SendInLoop(data, Direct(data), wr);
        case OtherThread(thread, no) => loop.QueueInLoop(SendJob(id, Queued(thread, no, data)), false);
      }
    }

    /** send(Buffer&) of the input buffer, which is emptied unless the send is given up. */
    method SendBuffer(wr: WriteResult)
      requires Valid() && FlagAgrees(View())
      modifies this`log, loop, channel, channel.epoller, inputBuffer, outputBuffer, outputBuffer.buffer
      ensures Valid()
      ensures var e := SentInput(old(View()), id, wr);
              e.Effect? && View() == e.conn && loop.pendingJobs == old(loop.pendingJobs) + e.jobs
    {
      if state != Connected {
        return;
      }
      var readable := inputBuffer.ReadableBytes();
      var data := inputBuffer.buffer[inputBuffer.readerIndex..inputBuffer.readerIndex + readable];
      assert data == inputBuffer.Readable();
      SendInLoop(data, Direct(data), wr);
      inputBuffer.RetrieveAll();
    }

    method ShutdownInLoop()
      requires Valid()
      modifies this`log
      ensures Valid() && View() == Connection.ShutdownInLoop(old(View()))
    {
      if state != Disconnected && !channel.IsWriting() {
        log := log.(shuts := log.shuts + 1, shutWire := log.wire);
      }
    }

    method Shutdown()
      requires Valid() && state != Disconnected
      modifies this`state, this`log
      ensures Valid() && Connection.Shutdown(old(View())) == Effect(View(), [])
    {
      var was := state;
      state := Disconnecting;
      if was == Connected {
        log := log.(asked := true);
        ShutdownInLoop();
      }
    }

    method ForceCloseConnection()
      requires Valid()
      modifies this`state, loop
      ensures Valid()
      ensures var e := RequestClose(old(View()), id);
              View() == e.conn && loop.pendingJobs == old(loop.pendingJobs) + e.jobs
    {
      if state != Disconnected {
        state := Disconnecting;
        loop.QueueInLoop(Job.ForceClose(id));
      }
    }

    method StopReading()
      requires Valid()
      modifies channel, channel.epoller
      ensures Valid() && View() == StopRead(old(View()))
    {
      if channel.IsReading() {
        channel.DisableRead();
      }
    }

    method StartReading()
      requires Valid()
      modifies channel, channel.epoller
      ensures Valid() && View() == StartRead(old(View()))
    {
      if !channel.IsReading() {
        channel.EnableRead();
      }
    }

    method HandleClose()
      requires Valid() && View().Alive() && channel.events != {} && this in server.connections
      modifies this`state, this`log, this`highWater, channel, channel.epoller, server, server.echo
      ensures Valid() && Close(old(View())) == Effect(View(), [])
      ensures server.connections == old(server.connections) - {this}
      ensures server.echo.connections == old(server.echo.connections) - {this}
    {
      state := Disconnected;
      channel.DisableAll();
      server.CloseConnection(this);
    }

    method HandleWrite(wr: WriteResult)
      requires Valid() && ((channel.IsWriting() && outputBuffer.Readable() != []) || state == Disconnected)
      modifies this`log, loop, channel, channel.epoller, outputBuffer
      ensures Valid() && outputBuffer.buffer == old(outputBuffer.buffer)
      ensures var e := Flush(old(View()), id, wr);
              e.Effect? && View() == e.conn && loop.pendingJobs == old(loop.pendingJobs) + e.jobs
    {
      if state == Disconnected {
        return;
      }
      var offered := outputBuffer.ReadableBytes();
      assert offered > 0;
      assert channel.IsWriting();
      ghost var k := View();
      if wr.Wrote? {
        var n := wr.Taken(offered);
        log := log.(wire := log.wire + k.output[..n]);
        outputBuffer.Retrieve(n);
        var left := outputBuffer.ReadableBytes();
        if left == 0 {
          OutputFlushed();
        }
      } else {
        assert k.log.wire + k.output[..0] == k.log.wire && k.output[0..] == k.output;
      }
    }

    /** The output buffer has just become empty. */
    method OutputFlushed()
      requires Valid() && channel.events != {}
      modifies this`log, loop, channel, channel.epoller
      ensures Valid()
      ensures var idle := old(View()).(events := ApplyMask(old(channel.events), DisableWrite));
              View() == if state == Disconnecting then Connection.ShutdownInLoop(idle) else idle
      ensures loop.pendingJobs == old(loop.pendingJobs) + WhenComplete(old(View()), id)
    {
      channel.DisableWrite();
      if state == Disconnecting {
        ShutdownInLoop();
      }
      if onWriteComplete {
        loop.QueueInLoop(WriteComplete(id));
      }
    }

    /** handleRead(), with the echo server's onMessage as message callback. */
    method HandleRead(result: ReadResult, now: int, wr: WriteResult)
      requires Valid() && FlagAgrees(View()) && View().Alive() && channel.events != {} && this in server.connections
      requires result.Got? ==> |result.data| <= inputBuffer.ReadCapacity()
      modifies this`state, this`log, this`highWater, loop, channel, channel.epoller, server, server.echo
      modifies inputBuffer, inputBuffer.buffer, outputBuffer, outputBuffer.buffer
      ensures Valid()
      ensures result.Failed? ==> View() == old(View()) && loop.pendingJobs == old(loop.pendingJobs)
      ensures result.Got? && result.data == [] ==>
                && Close(old(View())) == Effect(View(), []) && loop.pendingJobs == old(loop.pendingJobs)
                && server.connections == old(server.connections) - {this}
      ensures result.Got? && result.data != [] ==>
                var e := Echo.Message(old(View()), id, result.data, wr);
                && e.Effect? && View() == e.conn && loop.pendingJobs == old(loop.pendingJobs) + e.jobs
                && server.connections == old(server.connections)
    {
      var n := inputBuffer.ReadFd(result);
      if n == -1 {
        return;
      } else if n == 0 {
        assert inputBuffer.Readable() == old(inputBuffer.Readable()) + [];
        HandleClose();
      } else {
        log := log.(got := log.got + result.data);
        assert View() == Receive(old(View()), result.data);
        server.echo.OnMessage(this, now, wr);
      }
    }

    /** The close and read callbacks of handleEventsWithGuard. */
    method HandleInput(revents: Mask, result: ReadResult, now: int, wr: WriteResult)
      requires Valid() && FlagAgrees(View()) && !Fatal(View(), revents) && state != Connecting
      requires View().Alive() ==> channel.events != {} && this in server.connections
      requires result.Got? ==> |result.data| <= inputBuffer.ReadCapacity()
      modifies this`state, this`log, this`highWater, loop, channel, channel.epoller, server, server.echo
      modifies inputBuffer, inputBuffer.buffer, outputBuffer, outputBuffer.buffer
      ensures Valid()
      ensures var e := CloseOrRead(old(View()), id, revents, result, wr);
              e.Effect? && View() == e.conn && loop.pendingJobs == old(loop.pendingJobs) + e.jobs
    {
      if HUP in revents && IN !in revents {
        HandleClose();
      }
      if IN in revents || PRI in revents || RDHUP in revents {
        HandleRead(result, now, wr);
      }
    }

    /** Channel::handleEventsWithGuard with this connection's callbacks, for every event that fails no assert. */
    method HandleEvents(revents: Mask, result: ReadResult, now: int, echoWrite: WriteResult, flushWrite: WriteResult)
      requires Valid() && Sound(View()) && !Fatal(View(), revents) && (View().Alive() ==> this in server.connections)
      requires OUT in revents ==> channel.IsWriting() || !View().Alive()
      requires result.Got? ==> |result.data| <= inputBuffer.ReadCapacity()
      modifies this`state, this`log, this`highWater, loop, channel, channel.epoller, server, server.echo
      modifies inputBuffer, inputBuffer.buffer, outputBuffer, outputBuffer.buffer
      ensures Valid()
      ensures var e := Served(old(View()), id, revents, result, echoWrite, flushWrite);
              e.Effect? && View() == e.conn && loop.pendingJobs == old(loop.pendingJobs) + e.jobs
    {
      InputAgrees(View(), id, revents, result, echoWrite);
      HandleInput(revents, result, now, echoWrite);
      if OUT in revents {
        HandleWrite(flushWrite);
      }
    }
  }
}
