/** One handleEvents with the echo server's callbacks, as a function on the connection it is for. */
module EchoServe {
  import opened Common
  import opened Epoll
  import opened Connection
  import opened Reactor
  import opened ReactorProofs
  import opened Echo

  /** handleRead() with onMessage as message callback. */
  function ReadInput(k: Conn, c: nat, read: Buffers.ReadResult, wr: WriteResult): Effect {
    if k.state == Disconnected then Failed(ReadWhenClosed)
    else
      match read
      case Failed(_) => Effect(k, [])
      case Got(data) => if data == [] then Close(k) else Message(k, c, data, wr)
  }

  /** The close and read callbacks. */
  function CloseOrRead(k: Conn, c: nat, revents: Mask, read: Buffers.ReadResult, wr: WriteResult): Effect {
    if !HangsUp(revents) then (if Reads(revents) then ReadInput(k, c, read, wr) else Effect(k, []))
    else
      match Close(k)
      case Failed(site) => Failed(site)
      case Effect(l, jobs) => if Reads(revents) then ReadInput(l, c, read, wr) else Effect(l, jobs)
  }

  /** ... and the write callback. */
  function Served(k: Conn, c: nat, revents: Mask, read: Buffers.ReadResult,
                  echoWrite: WriteResult, flushWrite: WriteResult): Effect
  {
    match CloseOrRead(k, c, revents, read, echoWrite)
    case Failed(site) => Failed(site)
    case Effect(l, jobs) => if OUT in revents then Flushed(l, c, jobs, flushWrite) else Effect(l, jobs)
  }

  function Flushed(k: Conn, c: nat, jobs: seq<Job>, wr: WriteResult): Effect {
    match Flush(k, c, wr)
    case Failed(site) => Failed(site)
    case Effect(l, more) => Effect(l, jobs + more)
  }

  lemma MessageSound(k: Conn, c: nat, data: seq<byte>, wr: WriteResult)
    requires Sound(k) && k.Alive()
    ensures var e := Message(k, c, data, wr);
            e.Effect? && Sound(e.conn) && (k.Writing() ==> e.conn.Writing()) && e.conn.Alive()
  {
    var r := Receive(k, data);
    assert Sound(r);
    if r.state == Connected {
      SendEvolves(r, c, r.input, wr);
      var l := Send(r, c, r.input, wr).conn;
      FieldsEvolve(l, [], None);
    }
  }

  lemma InputSound(k: Conn, c: nat, revents: Mask, read: Buffers.ReadResult, wr: WriteResult)
    requires Sound(k)
    ensures var e := CloseOrRead(k, c, revents, read, wr);
            && (e.Failed? <==> Fatal(k, revents))
            && (e.Effect? ==>
                  && Sound(e.conn)
                  && (k.Writing() ==> e.conn.Writing() || !e.conn.Alive()) && (e.conn.Alive() ==> k.Alive()))
  {
    if k.Alive() {
      CloseSound(k);
      if !HangsUp(revents) && Reads(revents) {
        ReadSound(k, c, read, wr);
      }
    }
  }

  lemma CloseSound(k: Conn)
    requires Sound(k) && k.Alive()
    ensures Close(k).Effect? && Sound(Close(k).conn) && Close(k).conn.state == Disconnected
  {
    CallsSound(k, 0);
  }

  lemma ReadSound(k: Conn, c: nat, read: Buffers.ReadResult, wr: WriteResult)
    requires Sound(k) && k.Alive()
    ensures var e := ReadInput(k, c, read, wr);
            e.Effect? && Sound(e.conn) && (k.Writing() ==> e.conn.Writing() || !e.conn.Alive())
  {
    CloseSound(k);
    if read.Got? {
      MessageSound(k, c, read.data, wr);
    }
  }

  /** Serving a connection keeps it sound, or fails an assert exactly on a fatal event. */
  lemma ServedSound(k: Conn, c: nat, revents: Mask, read: Buffers.ReadResult,
                    echoWrite: WriteResult, flushWrite: WriteResult)
    requires Sound(k) && (OUT in revents ==> k.Writing() || !k.Alive())
    ensures var e := Served(k, c, revents, read, echoWrite, flushWrite);
            (e.Failed? <==> Fatal(k, revents)) && (e.Effect? ==> Sound(e.conn))
  {
    InputSound(k, c, revents, read, echoWrite);
    var e := CloseOrRead(k, c, revents, read, echoWrite);
    if e.Effect? && OUT in revents {
      FlushSound(e.conn, c, flushWrite);
    }
  }

  // ---------- the reactor's steps ----------

  /** o is what e does to connection c of w. */
  ghost predicate Matches(w: World, c: nat, e: Effect, o: Outcome) {
    match e
    case Failed(site) => o == Aborted(site)
    case Effect(k, jobs) =>
      o.Ok? && o.world == w.(conns := w.conns[c := k], server := o.world.server,
                             pending := w.pending + jobs, pushed := w.pushed + jobs)
  }

  lemma OneCall(w: World, call: Call)
    ensures RunScript(w, [call]) == DoCall(w, call)
  {
    assert [call][1..] == [];
  }

  /** The read callback on received bytes, with the echo server's onMessage, is Message on the one connection. */
  lemma MessageStep(w: World, c: nat, data: seq<byte>, wr: WriteResult)
    requires c in w.conns
    ensures RunScript(w.(conns := w.conns[c := Receive(w.conns[c], data)]), OnMessage(c, wr))
            == Apply(w, c, Message(w.conns[c], c, data, wr))
  {
    var r := Receive(w.conns[c], data);
    var w1 := w.(conns := w.conns[c := r]);
    OneCall(w1, SendInput(c, c, wr));
    if r.state == Connected && SendInLoop(r, c, Direct(r.input), wr).Effect? {
      var l := SendInLoop(r, c, Direct(r.input), wr).conn;
      assert w1.conns[c := l][c := l.(input := [])] == w.conns[c := l.(input := [])];
    } else {
      assert w1.conns[c := r] == w.conns[c := r];
    }
  }

  lemma NothingMatches(w: World, c: nat)
    requires c in w.conns
    ensures Matches(w, c, Effect(w.conns[c], []), Ok(w))
  {
    assert w.conns[c := w.conns[c]] == w.conns;
  }

  lemma CloseMatches(w: World, c: nat)
    requires Basic(w) && c in w.conns
    ensures Matches(w, c, Close(w.conns[c]), CloseConn(w, c, []))
  {
    assert Sound(w.conns[c]);
    assert forall v :: RunScript(v, []) == Ok(v);
  }

  lemma ReadMatches(w: World, c: nat, env: Env, wr: WriteResult)
    requires Basic(w) && c in w.conns && env.onMessage == OnMessage(c, wr) && env.onClose == []
    ensures Matches(w, c, ReadInput(w.conns[c], c, env.read, wr), ReadConn(w, c, env))
  {
    NothingMatches(w, c);
    CloseMatches(w, c);
    if env.read.Got? {
      MessageStep(w, c, env.read.data, wr);
    }
  }

  lemma MatchesTrans(w: World, v: World, c: nat, e1: Effect, e2: Effect, o: Outcome)
    requires c in w.conns && e1.Effect? && Matches(w, c, e1, Ok(v)) && Matches(v, c, e2, o)
    ensures Matches(w, c, if e2.Effect? then Effect(e2.conn, e1.jobs + e2.jobs) else e2, o)
  {
    if e2.Effect? {
      assert w.conns[c := e1.conn][c := e2.conn] == w.conns[c := e2.conn];
      assert w.pending + e1.jobs + e2.jobs == w.pending + (e1.jobs + e2.jobs);
      assert w.pushed + e1.jobs + e2.jobs == w.pushed + (e1.jobs + e2.jobs);
    }
  }

  lemma InputMatches(w: World, c: nat, revents: Mask, env: Env, wr: WriteResult)
    requires Basic(w) && c in w.conns && env.onMessage == OnMessage(c, wr) && env.onClose == []
    ensures Matches(w, c, CloseOrRead(w.conns[c], c, revents, env.read, wr), CloseAndRead(w, c, revents, env))
  {
    if HangsUp(revents) {
      CloseMatches(w, c);
      CloseConnProceeds(w, c, []);
      var o := CloseConn(w, c, []);
      if o.Ok? && Reads(revents) {
        ReadMatches(o.world, c, env, wr);
        MatchesTrans(w, o.world, c, Close(w.conns[c]), ReadInput(o.world.conns[c], c, env.read, wr),
                     ReadConn(o.world, c, env));
      }
    } else if Reads(revents) {
      ReadMatches(w, c, env, wr);
    } else {
      NothingMatches(w, c);
    }
  }

  /** What the reactor's handler does, with the echo server's callbacks, is to serve the one connection. */
  lemma DispatchServes(w: World, c: nat, revents: Mask, env: Env, echoWrite: WriteResult)
    requires Basic(w) && c in w.conns && env.onMessage == OnMessage(c, echoWrite) && env.onClose == []
    ensures Matches(w, c, Served(w.conns[c], c, revents, env.read, echoWrite, env.write), Dispatch(w, c, revents, env))
  {
    InputMatches(w, c, revents, env, echoWrite);
    var e := CloseOrRead(w.conns[c], c, revents, env.read, echoWrite);
    if e.Effect? && OUT in revents {
      var v := CloseAndRead(w, c, revents, env).world;
      MatchesTrans(w, v, c, e, Flush(v.conns[c], c, env.write), Apply(v, c, Flush(v.conns[c], c, env.write)));
    }
  }
}
