/**
 * The timers as their users see them: alarms that ring at their deadlines, without the ordered set, the entries and
 * the batches of the queue. The queue does what the clock does, over every run.
 */
module TimerClock {
  import opened Common
  import opened Timers

  datatype Alarm = Alarm(first: int, interval: int, rings: seq<int>, over: bool) {
    /** When it rings next. */
    function Deadline(): int {
      if interval > 0 then first + |rings| * interval else first
    }
  }

  datatype Clock = Clock(alarms: map<nat, Alarm>, armed: Option<Arm>)

  /** The alarms a client can still cancel: those of the batch being rung are busy. */
  predicate Waiting(c: Clock, busy: set<nat>, id: nat) {
    id in c.alarms && !c.alarms[id].over && id !in busy
  }

  /** An alarm at ts is due before every waiting one. */
  ghost predicate Earliest(c: Clock, busy: set<nat>, ts: int, id: nat) {
    forall d :: Waiting(c, busy, d) ==> ts < c.alarms[d].Deadline() || (ts == c.alarms[d].Deadline() && id < d)
  }

  /** The kernel's timer set at now: for ts, or a millisecond later than now. */
  function Setting(ts: int, now: int): Arm {
    Arm(now, if ts < now + 1_000_000 then now + 1_000_000 else ts)
  }

  ghost function Called(c: Clock, busy: set<nat>, op: Op): Clock {
    match op
    case Add(now, id, ts, interval) =>
      if id == 0 || id in c.alarms then c
      else Clock(c.alarms[id := Alarm(ts, interval, [], false)],
                 if Earliest(c, busy, ts, id) then Some(Setting(ts, now)) else c.armed)
    case Cancel(id) =>
      if Waiting(c, busy, id) then c.(alarms := c.alarms[id := c.alarms[id].(over := true)]) else c
  }

  ghost function CalledAll(c: Clock, busy: set<nat>, ops: seq<Op>): Clock
    decreases |ops|
  {
    if ops == [] then c else CalledAll(Called(c, busy, ops[0]), busy, ops[1..])
  }

  /** One alarm rings; one without an interval is over then. */
  function Rang(c: Clock, id: nat, now: int): Clock {
    if id !in c.alarms then c
    else
      var a := c.alarms[id];
      c.(alarms := c.alarms[id := a.(rings := a.rings + [now], over := a.interval <= 0)])
  }

  function Members(ids: seq<nat>): set<nat> {
    set id | id in ids
  }

  /** A batch rings, each alarm after its callback. */
  ghost function RangAll(c: Clock, ids: seq<nat>, now: int, callbacks: seq<seq<Op>>): Clock
    requires |callbacks| == |ids|
    decreases |ids|
  {
    if ids == [] then c
    else RangAll(Rang(CalledAll(c, Members(ids), callbacks[0]), ids[0], now), ids[1..], now, callbacks[1..])
  }

  /** The alarms whose deadline has come, each once, the earlier deadline first. */
  ghost predicate IsBatch(c: Clock, now: int, ids: seq<nat>) {
    && (forall id :: id in ids <==> Waiting(c, {}, id) && c.alarms[id].Deadline() <= now)
    && forall i, j :: 0 <= i < j < |ids| ==> Sooner(c, ids[i], ids[j])
  }

  predicate Sooner(c: Clock, i: nat, j: nat) {
    && i in c.alarms && j in c.alarms
    && (c.alarms[i].Deadline() < c.alarms[j].Deadline()
        || (c.alarms[i].Deadline() == c.alarms[j].Deadline() && i < j))
  }

  /** Reading the timerfd disarms the kernel's timer once it has expired. */
  function Read(c: Clock, now: int): Clock {
    c.(armed := if c.armed.Some? && c.armed.value.deadline <= now then None else c.armed)
  }

  /** After a batch the kernel's timer is set for the earliest alarm left. */
  ghost predicate SetAfter(c: Clock, end: int, armed: Option<Arm>) {
    if forall id :: !Waiting(c, {}, id) then armed == c.armed
    else exists id :: Waiting(c, {}, id) && armed == Some(Setting(c.alarms[id].Deadline(), end))
                      && forall d :: Waiting(c, {}, d) ==> c.alarms[id].Deadline() <= c.alarms[d].Deadline()
  }

  /** One step takes the clock from c to d. */
  ghost predicate Ticks(c: Clock, s: Step, d: Clock) {
    match s
    case Client(op) => d == Called(c, {}, op)
    case Expired(now, end, callbacks) =>
      exists ids :: IsBatch(c, now, ids) && Expires(c, now, end, ids, callbacks, d)
  }

  ghost predicate Expires(c: Clock, now: int, end: int, ids: seq<nat>, callbacks: seq<seq<Op>>, d: Clock) {
    if |callbacks| != |ids| then d == c
    else
      var rung := RangAll(Read(c, now), ids, now, callbacks);
      d.alarms == rung.alarms && SetAfter(rung, end, d.armed)
  }

  ghost predicate TicksThrough(c: Clock, steps: seq<Step>, d: Clock)
    decreases |steps|
  {
    if steps == [] then d == c else exists m :: Ticks(c, steps[0], m) && TicksThrough(m, steps[1..], d)
  }

  // ---------- the queue as a clock ----------

  function AlarmOf(b: Birth, rings: seq<int>, live: bool): Alarm {
    Alarm(b.first, b.interval, rings, !live)
  }

  function ClockOf(q: Queue): Clock {
    Clock(map id | id in q.births && id in q.fired :: AlarmOf(q.births[id], q.fired[id], id in q.table), q.armed)
  }

  function Busy(batch: seq<Entry>): set<nat> {
    set e | e in batch :: e.id
  }

  lemma WaitingQueued(q: Queue, batch: seq<Entry>, id: nat)
    requires Mid(q, batch)
    ensures Waiting(ClockOf(q), Busy(batch), id) <==> q.Queued(id)
    ensures id in q.table ==> id in ClockOf(q).alarms && ClockOf(q).alarms[id].Deadline() == q.table[id].when
  {
    if id in q.table {
      assert OnSchedule(q.table[id], q.births[id], |q.fired[id]|);
      if !q.Queued(id) {
        assert Entry(q.table[id].when, id) in batch;
      }
    }
  }

  /** A new entry comes first exactly when its deadline is before all others. */
  lemma AddFirst(q: Queue, batch: seq<Entry>, ts: int, id: nat)
    requires Mid(q, batch) && id > 0 && id !in q.births
    ensures Insert(q.timers, Entry(ts, id))[..1] == [Entry(ts, id)] <==> Earliest(ClockOf(q), Busy(batch), ts, id)
  {
    var e, c := Entry(ts, id), ClockOf(q);
    InsertFirst(q.timers, e);
    if Insert(q.timers, e)[..1] == [e] {
      assert Insert(q.timers, e)[0] == e;
      forall d | Waiting(c, Busy(batch), d)
        ensures ts < c.alarms[d].Deadline() || (ts == c.alarms[d].Deadline() && id < d)
      {
        WaitingQueued(q, batch, d);
        assert Entry(q.table[d].when, d) in q.timers;
      }
    } else {
      var f := q.timers[0];
      assert f in q.timers && f != e;
      WaitingQueued(q, batch, f.id);
    }
  }

  lemma CallRefines(q: Queue, batch: seq<Entry>, op: Op)
    requires Mid(q, batch)
    ensures ClockOf(Apply(q, op)) == Called(ClockOf(q), Busy(batch), op)
  {
    match op {
      case Add(now, id, ts, interval) =>
        if id > 0 && id !in q.births { AddRefines(q, batch, now, id, ts, interval); }
      case Cancel(id) =>
        WaitingQueued(q, batch, id);
    }
  }

  lemma AddRefines(q: Queue, batch: seq<Entry>, now: int, id: nat, ts: int, interval: int)
    requires Mid(q, batch) && id > 0 && id !in q.births
    ensures ClockOf(AddTimer(q, now, id, ts, interval))
            == Called(ClockOf(q), Busy(batch), Add(now, id, ts, interval))
  {
    AddFirst(q, batch, ts, id);
    SettingExact(ts, now);
    AddedAlarms(q, now, id, ts, interval);
  }

  /** The timespec that is armed says the deadline to the nanosecond, or a millisecond from now. */
  lemma SettingExact(ts: int, now: int)
    ensures SetTimer(ts, now) == Setting(ts, now)
  {
    DurationExact(ts, now);
  }

  lemma AddedAlarms(q: Queue, now: int, id: nat, ts: int, interval: int)
    requires Scheduled(q) && id !in q.births
    ensures ClockOf(AddTimer(q, now, id, ts, interval)).alarms
            == ClockOf(q).alarms[id := Alarm(ts, interval, [], false)]
  {
  }

  lemma {:induction false} ScriptRefines(q: Queue, batch: seq<Entry>, ops: seq<Op>)
    requires Mid(q, batch)
    ensures ClockOf(ApplyAll(q, ops)) == CalledAll(ClockOf(q), Busy(batch), ops)
    decreases |ops|
  {
    if ops != [] {
      CallRefines(q, batch, ops[0]);
      ApplyKeeps(q, batch, ops[0]);
      ScriptRefines(Apply(q, ops[0]), batch, ops[1..]);
    }
  }

  lemma FinishRefines(q: Queue, id: nat, now: int)
    requires Scheduled(q) && id in q.table && id in q.fired
    ensures ClockOf(Finish(q, id, now)) == Rang(ClockOf(q), id, now)
  {
    assert OnSchedule(q.table[id], q.births[id], |q.fired[id]|);
    var r := Finish(q, id, now);
    assert r.births == q.births && r.armed == q.armed && r.fired == q.fired[id := q.fired[id] + [now]];
    assert r.table.Keys == if q.births[id].interval > 0 then q.table.Keys else q.table.Keys - {id};
    AlarmRang(q, r, id, now);
  }

  lemma AlarmRang(q: Queue, r: Queue, id: nat, now: int)
    requires id in q.births && id in q.fired && id in q.table
    requires r.births == q.births && r.armed == q.armed && r.fired == q.fired[id := q.fired[id] + [now]]
    requires r.table.Keys == if q.births[id].interval > 0 then q.table.Keys else q.table.Keys - {id}
    ensures ClockOf(r) == Rang(ClockOf(q), id, now)
  {
  }

  lemma FireRefines(q: Queue, e: Entry, rest: seq<Entry>, now: int, callback: seq<Op>)
    requires Mid(q, [e] + rest) && e.when <= now
    ensures ClockOf(FireOne(q, e, now, callback))
            == Rang(CalledAll(ClockOf(q), Busy([e] + rest), callback), e.id, now)
  {
    FireOneFinishes(q, e, rest, now, callback);
    ApplyAllKeeps(q, [e] + rest, callback);
    ScriptRefines(q, [e] + rest, callback);
    FinishRefines(ApplyAll(q, callback), e.id, now);
  }

  function IdsOf(batch: seq<Entry>): (ids: seq<nat>)
    ensures |ids| == |batch| && forall i :: 0 <= i < |batch| ==> ids[i] == batch[i].id
  {
    seq(|batch|, i requires 0 <= i < |batch| => batch[i].id)
  }

  lemma BusyMembers(batch: seq<Entry>)
    ensures Members(IdsOf(batch)) == Busy(batch)
  {
    forall id
      ensures id in Members(IdsOf(batch)) <==> id in Busy(batch)
    {
      if id in Members(IdsOf(batch)) {
        var i :| 0 <= i < |batch| && IdsOf(batch)[i] == id;
        assert batch[i] in batch;
      }
      if id in Busy(batch) {
        var e :| e in batch && e.id == id;
        var i :| 0 <= i < |batch| && batch[i] == e;
        assert IdsOf(batch)[i] == id;
      }
    }
  }

  lemma {:induction false} BatchRefines(q: Queue, batch: seq<Entry>, now: int, callbacks: seq<seq<Op>>)
    requires |callbacks| == |batch| && Mid(q, batch) && forall i :: 0 <= i < |batch| ==> batch[i].when <= now
    ensures ClockOf(FireAll(q, batch, now, callbacks)) == RangAll(ClockOf(q), IdsOf(batch), now, callbacks)
    decreases |batch|
  {
    if batch != [] {
      var e, rest := batch[0], batch[1..];
      assert batch == [e] + rest;
      FireRefines(q, e, rest, now, callbacks[0]);
      FireOneKeeps(q, e, rest, now, callbacks[0]);
      BatchRefines(FireOne(q, e, now, callbacks[0]), rest, now, callbacks[1..]);
      BusyMembers(batch);
      assert IdsOf(batch)[1..] == IdsOf(rest);
    }
  }

  /** getExpired takes exactly the alarms that are due, the earlier deadline first. */
  lemma DueBatch(q: Queue, now: int)
    requires Inv(q)
    ensures IsBatch(ClockOf(q), now, IdsOf(q.timers[..Due(q.timers, now)]))
  {
    var c, batch := ClockOf(q), q.timers[..Due(q.timers, now)];
    var ids := IdsOf(batch);
    forall id
      ensures id in ids <==> Waiting(c, {}, id) && c.alarms[id].Deadline() <= now
    {
      DueInBatch(q, now, id);
      WaitingQueued(q, [], id);
      assert Busy([]) == {};
      if id in ids {
        var i :| 0 <= i < |ids| && ids[i] == id;
        assert InBatch(batch, id);
      }
      if InBatch(batch, id) {
        var i :| 0 <= i < |batch| && batch[i].id == id;
        assert ids[i] == id;
      }
    }
    forall i, j | 0 <= i < j < |ids|
      ensures Sooner(c, ids[i], ids[j])
    {
      assert batch[i] == q.timers[i] && batch[j] == q.timers[j];
      assert q.timers[i] in q.timers && q.timers[j] in q.timers && Less(q.timers[i], q.timers[j]);
      WaitingQueued(q, [], ids[i]);
      WaitingQueued(q, [], ids[j]);
    }
  }

  lemma RearmRefines(q: Queue, end: int)
    requires Mid(q, [])
    ensures ClockOf(Rearm(q, end)).alarms == ClockOf(q).alarms && SetAfter(ClockOf(q), end, Rearm(q, end).armed)
  {
    var c := ClockOf(q);
    assert Busy([]) == {};
    if q.timers == [] {
      forall id
        ensures !Waiting(c, {}, id)
      {
        WaitingQueued(q, [], id);
      }
    } else {
      var f := q.timers[0];
      assert f in q.timers;
      WaitingQueued(q, [], f.id);
      SettingExact(f.when, end);
      forall d | Waiting(c, {}, d)
        ensures f.when <= c.alarms[d].Deadline()
      {
        WaitingQueued(q, [], d);
        FirstIsLeast(q.timers, Entry(q.table[d].when, d));
      }
      assert Waiting(c, {}, f.id);
    }
  }

  /** Every step of the queue is a step of the clock. */
  lemma StepTicks(q: Queue, s: Step)
    requires Inv(q)
    ensures Ticks(ClockOf(q), s, ClockOf(Next(q, s)))
  {
    assert Busy([]) == {};
    match s {
      case Client(op) => CallRefines(q, [], op);
      case Expired(now, end, callbacks) =>
        DueBatch(q, now);
        if |callbacks| == Due(q.timers, now) { ExpiryTicks(q, now, end, callbacks); }
        assert Expires(ClockOf(q), now, end, IdsOf(q.timers[..Due(q.timers, now)]), callbacks, ClockOf(Next(q, s)));
    }
  }

  lemma ExpiryTicks(q: Queue, now: int, end: int, callbacks: seq<seq<Op>>)
    requires Inv(q) && |callbacks| == Due(q.timers, now)
    ensures var rung := RangAll(Read(ClockOf(q), now), IdsOf(q.timers[..Due(q.timers, now)]), now, callbacks);
            var d := ClockOf(HandleRead(q, now, end, callbacks));
            d.alarms == rung.alarms && SetAfter(rung, end, d.armed)
  {
    var batch := q.timers[..Due(q.timers, now)];
    TakenBatch(q, now);
    BatchRefines(Taken(q, now), batch, now, callbacks);
    FireAllKeeps(Taken(q, now), batch, now, callbacks);
    RearmRefines(FireAll(Taken(q, now), batch, now, callbacks), end);
    assert ClockOf(Taken(q, now)) == Read(ClockOf(q), now);
  }

  lemma {:induction false} RunTicksFrom(q: Queue, steps: seq<Step>)
    requires Inv(q)
    ensures TicksThrough(ClockOf(q), steps, ClockOf(Run(q, steps)))
    decreases |steps|
  {
    if steps != [] {
      StepTicks(q, steps[0]);
      NextKeeps(q, steps[0]);
      RunTicksFrom(Next(q, steps[0]), steps[1..]);
    }
  }

  /** Over every run the timers are what its steps make of an empty clock. */
  lemma RunTicks(steps: seq<Step>)
    ensures TicksThrough(Clock(map[], None), steps, ClockOf(Run(Empty(), steps)))
  {
    EmptyInv();
    assert ClockOf(Empty()) == Clock(map[], None);
    RunTicksFrom(Empty(), steps);
  }

  // ---------- the clock says all there is to say ----------

  /** A batch is determined by the clock. */
  lemma {:induction false} BatchUnique(c: Clock, a: seq<nat>, b: seq<nat>)
    requires forall id :: id in a <==> id in b
    requires forall i, j :: 0 <= i < j < |a| ==> Sooner(c, a[i], a[j])
    requires forall i, j :: 0 <= i < j < |b| ==> Sooner(c, b[i], b[j])
    ensures a == b
    decreases |a|
  {
    if a == [] {
      assert forall i :: 0 <= i < |b| ==> b[i] in b;
    } else {
      assert a[0] in b && b[0] in a by { assert a[0] in a; }
      SameFirst(c, a, b);
      forall id
        ensures id in a[1..] <==> id in b[1..]
      {
        TailMembers(c, a, id);
        TailMembers(c, b, id);
      }
      BatchUnique(c, a[1..], b[1..]);
      assert a == [a[0]] + a[1..] && b == [b[0]] + b[1..];
    }
  }

  lemma SameFirst(c: Clock, a: seq<nat>, b: seq<nat>)
    requires a != [] && b != [] && a[0] in b && b[0] in a
    requires forall i, j :: 0 <= i < j < |a| ==> Sooner(c, a[i], a[j])
    requires forall i, j :: 0 <= i < j < |b| ==> Sooner(c, b[i], b[j])
    ensures a[0] == b[0]
  {
    var i :| 0 <= i < |b| && b[i] == a[0];
    var j :| 0 <= j < |a| && a[j] == b[0];
    assert i > 0 ==> Sooner(c, b[0], a[0]);
    assert j > 0 ==> Sooner(c, a[0], b[0]);
  }

  lemma TailMembers(c: Clock, a: seq<nat>, id: nat)
    requires a != [] && forall i, j :: 0 <= i < j < |a| ==> Sooner(c, a[i], a[j])
    ensures id in a[1..] <==> id in a && id != a[0]
  {
    if id in a[1..] {
      var i :| 0 <= i < |a[1..]| && a[1..][i] == id;
      assert Sooner(c, a[0], a[i + 1]);
    }
  }

  /** Each step has one outcome, so the clock determines what every run of the queue does. */
  lemma TicksOnce(c: Clock, s: Step, d: Clock, e: Clock)
    requires Ticks(c, s, d) && Ticks(c, s, e)
    ensures d == e
  {
    match s {
      case Client(_) =>
      case Expired(now, end, callbacks) =>
        var a :| IsBatch(c, now, a) && Expires(c, now, end, a, callbacks, d);
        var b :| IsBatch(c, now, b) && Expires(c, now, end, b, callbacks, e);
        BatchUnique(c, a, b);
        ExpiresOnce(c, now, end, a, callbacks, d, e);
    }
  }

  lemma ExpiresOnce(c: Clock, now: int, end: int, ids: seq<nat>, callbacks: seq<seq<Op>>, d: Clock, e: Clock)
    requires Expires(c, now, end, ids, callbacks, d) && Expires(c, now, end, ids, callbacks, e)
    ensures d == e
  {
    if |callbacks| == |ids| {
      SetAfterOnce(RangAll(Read(c, now), ids, now, callbacks), end, d.armed, e.armed);
    }
  }

  lemma SetAfterOnce(c: Clock, end: int, a: Option<Arm>, b: Option<Arm>)
    requires SetAfter(c, end, a) && SetAfter(c, end, b)
    ensures a == b
  {
  }

  lemma {:induction false} TicksThroughOnce(c: Clock, steps: seq<Step>, d: Clock, e: Clock)
    requires TicksThrough(c, steps, d) && TicksThrough(c, steps, e)
    ensures d == e
    decreases |steps|
  {
    if steps != [] {
      var m :| Ticks(c, steps[0], m) && TicksThrough(m, steps[1..], d);
      var n :| Ticks(c, steps[0], n) && TicksThrough(n, steps[1..], e);
      TicksOnce(c, steps[0], m, n);
      TicksThroughOnce(m, steps[1..], d, e);
    }
  }

  // ---------- what a client asked for ----------

  /** A new timer is queued with the deadline and the interval asked for, and disturbs no other. */
  lemma AddsAsAsked(q: Queue, now: int, id: nat, ts: int, interval: int)
    requires Reachable(q) && id > 0 && id !in q.births
    ensures var r := Apply(q, Add(now, id, ts, interval));
            && id in r.table && r.table[id].when == ts && r.table[id].interval == interval
            && (r.table[id].Repeats() <==> interval > 0)
            && (forall e :: e in r.timers <==> e in q.timers || e == Entry(ts, id))
            && forall d :: d in q.table ==> d in r.table && r.table[d] == q.table[d]
  {
    ReachableInv(q);
    InsertSorted(q.timers, Entry(ts, id));
  }

  /** What the Adds among some calls ask for, the first of each timer number counting. */
  function Asked(births: map<nat, Birth>, ops: seq<Op>): map<nat, Birth>
    decreases |ops|
  {
    if ops == [] then births
    else
      match ops[0]
      case Add(_, id, ts, interval) =>
        Asked(if id > 0 && id !in births then births[id := Birth(ts, interval)] else births, ops[1..])
      case Cancel(_) => Asked(births, ops[1..])
  }

  function Joined(callbacks: seq<seq<Op>>): seq<Op>
    decreases |callbacks|
  {
    if callbacks == [] then [] else callbacks[0] + Joined(callbacks[1..])
  }

  /** All calls of a run, in order: the clients' and those of the callbacks. */
  function CallsOf(q: Queue, steps: seq<Step>): seq<Op>
    decreases |steps|
  {
    if steps == [] then []
    else
      var ops := match steps[0]
        case Client(op) => [op]
        case Expired(now, _, callbacks) => if |callbacks| == Due(q.timers, now) then Joined(callbacks) else [];
      ops + CallsOf(Next(q, steps[0]), steps[1..])
  }

  lemma {:induction false} AskedJoined(births: map<nat, Birth>, a: seq<Op>, b: seq<Op>)
    ensures Asked(births, a + b) == Asked(Asked(births, a), b)
    decreases |a|
  {
    if a == [] {
      assert a + b == b;
    } else {
      assert (a + b)[0] == a[0] && (a + b)[1..] == a[1..] + b;
      match a[0] {
        case Add(_, id, ts, interval) =>
          AskedJoined(if id > 0 && id !in births then births[id := Birth(ts, interval)] else births, a[1..], b);
        case Cancel(_) => AskedJoined(births, a[1..], b);
      }
    }
  }

  lemma {:induction false} ScriptAsked(q: Queue, ops: seq<Op>)
    ensures ApplyAll(q, ops).births == Asked(q.births, ops)
    decreases |ops|
  {
    if ops != [] {
      ScriptAsked(Apply(q, ops[0]), ops[1..]);
    }
  }

  lemma {:induction false} BatchAsked(q: Queue, batch: seq<Entry>, now: int, callbacks: seq<seq<Op>>)
    requires |callbacks| == |batch| && Mid(q, batch) && forall i :: 0 <= i < |batch| ==> batch[i].when <= now
    ensures FireAll(q, batch, now, callbacks).births == Asked(q.births, Joined(callbacks))
    decreases |batch|
  {
    if batch != [] {
      var e, rest := batch[0], batch[1..];
      assert batch == [e] + rest;
      FireOneFinishes(q, e, rest, now, callbacks[0]);
      FireOneKeeps(q, e, rest, now, callbacks[0]);
      ScriptAsked(q, callbacks[0]);
      BatchAsked(FireOne(q, e, now, callbacks[0]), rest, now, callbacks[1..]);
      AskedJoined(q.births, callbacks[0], Joined(callbacks[1..]));
    }
  }

  lemma {:induction false} RunAsked(q: Queue, steps: seq<Step>)
    requires Inv(q)
    ensures Run(q, steps).births == Asked(q.births, CallsOf(q, steps))
    decreases |steps|
  {
    if steps != [] {
      var r := Next(q, steps[0]);
      NextKeeps(q, steps[0]);
      StepAsked(q, steps[0]);
      RunAsked(r, steps[1..]);
      CallsOfFirst(q, steps);
      AskedJoined(q.births, CallsOf(q, [steps[0]]), CallsOf(r, steps[1..]));
    }
  }

  lemma CallsOfFirst(q: Queue, steps: seq<Step>)
    requires steps != []
    ensures CallsOf(q, steps) == CallsOf(q, [steps[0]]) + CallsOf(Next(q, steps[0]), steps[1..])
  {
    assert [steps[0]][1..] == [];
  }

  lemma StepAsked(q: Queue, s: Step)
    requires Inv(q)
    ensures Next(q, s).births == Asked(q.births, CallsOf(q, [s]))
  {
    match s {
      case Client(op) => assert CallsOf(q, [s]) == [op];
      case Expired(now, _, callbacks) =>
        if |callbacks| == Due(q.timers, now) {
          assert CallsOf(q, [s]) == Joined(callbacks);
          TakenBatch(q, now);
          BatchAsked(Taken(q, now), q.timers[..Due(q.timers, now)], now, callbacks);
        } else {
          assert CallsOf(q, [s]) == [];
        }
    }
  }

  /** Over every run each timer has the first deadline and the interval of the call that created it. */
  lemma CreatedAsAsked(steps: seq<Step>)
    ensures Run(Empty(), steps).births == Asked(map[], CallsOf(Empty(), steps))
  {
    EmptyInv();
    RunAsked(Empty(), steps);
  }

  // ---------- periodic timers go on ----------

  /** Once an alarm can be cancelled, it is over exactly when it was. */
  lemma {:induction false} ScriptOver(c: Clock, busy: set<nat>, ops: seq<Op>, id: nat)
    requires id in c.alarms
    ensures var a, b := c.alarms, CalledAll(c, busy, ops).alarms;
            && id in b && b[id].interval == a[id].interval
            && (b[id].over <==> a[id].over || (id !in busy && Cancel(id) in ops))
    decreases |ops|
  {
    if ops != [] {
      assert forall op :: op in ops <==> op == ops[0] || op in ops[1..];
      ScriptOver(Called(c, busy, ops[0]), busy, ops[1..], id);
    }
  }

  predicate CancelledFrom(callbacks: seq<seq<Op>>, id: nat, from: nat) {
    exists j :: from <= j < |callbacks| && Cancel(id) in callbacks[j]
  }

  lemma {:induction false} OthersOver(c: Clock, ids: seq<nat>, now: int, callbacks: seq<seq<Op>>, id: nat)
    requires |callbacks| == |ids| && id in c.alarms && id !in ids
    ensures var b := RangAll(c, ids, now, callbacks).alarms;
            && id in b && b[id].interval == c.alarms[id].interval
            && (b[id].over <==> c.alarms[id].over || CancelledFrom(callbacks, id, 0))
    decreases |ids|
  {
    if ids != [] {
      ScriptOver(c, Members(ids), callbacks[0], id);
      OthersOver(Rang(CalledAll(c, Members(ids), callbacks[0]), ids[0], now), ids[1..], now, callbacks[1..], id);
      CancelledTail(callbacks, id, 0);
    }
  }

  lemma CancelledTail(callbacks: seq<seq<Op>>, id: nat, from: nat)
    requires callbacks != []
    ensures CancelledFrom(callbacks, id, from + 1) <==> CancelledFrom(callbacks[1..], id, from)
    ensures CancelledFrom(callbacks, id, 0) <==> Cancel(id) in callbacks[0] || CancelledFrom(callbacks[1..], id, 0)
  {
    assert forall j :: 0 < j < |callbacks| ==> callbacks[j] == callbacks[1..][j - 1];
    if CancelledFrom(callbacks[1..], id, from) {
      var j :| from <= j < |callbacks| - 1 && Cancel(id) in callbacks[1..][j];
      assert Cancel(id) in callbacks[j + 1];
    }
    if CancelledFrom(callbacks[1..], id, 0) {
      var j :| 0 <= j < |callbacks| - 1 && Cancel(id) in callbacks[1..][j];
      assert Cancel(id) in callbacks[j + 1];
    }
  }

  /** An alarm that rings in a batch is over afterwards unless it repeats and no later callback cancels it. */
  lemma {:induction false} RungOver(c: Clock, ids: seq<nat>, now: int, callbacks: seq<seq<Op>>, i: nat)
    requires |callbacks| == |ids| && i < |ids| && ids[i] in c.alarms && !c.alarms[ids[i]].over
    requires forall j, k :: 0 <= j < k < |ids| ==> ids[j] != ids[k]
    ensures var b := RangAll(c, ids, now, callbacks).alarms;
            && ids[i] in b
            && (b[ids[i]].over <==> c.alarms[ids[i]].interval <= 0 || CancelledFrom(callbacks, ids[i], i + 1))
    decreases |ids|
  {
    var id := ids[i];
    var d := Rang(CalledAll(c, Members(ids), callbacks[0]), ids[0], now);
    ScriptOver(c, Members(ids), callbacks[0], id);
    assert id in Members(ids);
    CancelledTail(callbacks, id, i);
    if i == 0 {
      assert id !in ids[1..];
      OthersOver(d, ids[1..], now, callbacks[1..], id);
    } else {
      assert ids[1..][i - 1] == id && d.alarms[id] == CalledAll(c, Members(ids), callbacks[0]).alarms[id];
      RungOver(d, ids[1..], now, callbacks[1..], i - 1);
      CancelledTail(callbacks, id, i);
    }
  }

  lemma DueWaits(q: Queue, now: int, i: nat)
    requires Inv(q) && i < Due(q.timers, now)
    ensures var id := q.timers[i].id;
            && id in q.table && id in q.births && id in q.fired && q.table[id].when == q.timers[i].when <= now
            && OnSchedule(q.table[id], q.births[id], |q.fired[id]|)
  {
    assert q.timers[i] in q.timers;
    assert q.timers[i] in q.timers[..Due(q.timers, now)];
    DueSplits(q.timers, now);
  }

  lemma BatchDistinct(q: Queue, now: int)
    requires Inv(q)
    ensures var ids := IdsOf(q.timers[..Due(q.timers, now)]);
            forall j, k :: 0 <= j < k < |ids| ==> ids[j] != ids[k]
  {
    TakenBatch(q, now);
  }

  lemma RungAlarm(q: Queue, now: int, end: int, callbacks: seq<seq<Op>>, i: nat)
    requires Inv(q) && |callbacks| == Due(q.timers, now) && i < |callbacks|
    ensures var id, d := q.timers[i].id, ClockOf(HandleRead(q, now, end, callbacks)).alarms;
            && id in q.births && id in d
            && (d[id].over <==> q.births[id].interval <= 0 || CancelledFrom(callbacks, id, i + 1))
  {
    DueWaits(q, now, i);
    BatchDistinct(q, now);
    ExpiryTicks(q, now, end, callbacks);
    RungOver(Read(ClockOf(q), now), IdsOf(q.timers[..Due(q.timers, now)]), now, callbacks, i);
  }

  /**
   * A timer that is due runs and is queued again, one interval later, exactly when it repeats and the callbacks that
   * run after its own do not cancel it.
   */
  lemma RequeuedExactly(q: Queue, now: int, end: int, callbacks: seq<seq<Op>>, i: nat)
    requires Reachable(q) && |callbacks| == Due(q.timers, now) && i < |callbacks|
    ensures var e, r := q.timers[i], HandleRead(q, now, end, callbacks);
            && e.id in q.table && e.id in q.births
            && (e.id in r.table <==> q.births[e.id].interval > 0 && !CancelledFrom(callbacks, e.id, i + 1))
            && (e.id in r.table ==> Entry(e.when + q.births[e.id].interval, e.id) in r.timers)
  {
    ReachableInv(q);
    DueWaits(q, now, i);
    RungAlarm(q, now, end, callbacks, i);
    RanAgain(q, now, end, callbacks, q.timers[i].id);
  }

  lemma RanAgain(q: Queue, now: int, end: int, callbacks: seq<seq<Op>>, id: nat)
    requires Inv(q) && |callbacks| == Due(q.timers, now) && id in q.table && q.table[id].when <= now
    ensures var r := HandleRead(q, now, end, callbacks);
            id in q.births && id in r.births && r.births[id] == q.births[id]
            && (id in r.table && q.births[id].interval > 0 ==>
                  Entry(q.table[id].when + q.births[id].interval, id) in r.timers)
  {
    HandleReadFiresExactly(q, now, end, callbacks);
    var r := HandleRead(q, now, end, callbacks);
    if id in r.table && q.births[id].interval > 0 {
      OneIntervalLater(q, r, id, now);
    }
  }

  lemma OneIntervalLater(q: Queue, r: Queue, id: nat, now: int)
    requires Inv(r) && id in r.table && id in q.table && id in q.births && id in q.fired
    requires OnSchedule(q.table[id], q.births[id], |q.fired[id]|)
    requires id in r.births && r.births[id] == q.births[id] && q.births[id].interval > 0
    requires id in r.fired && r.fired[id] == q.fired[id] + [now]
    ensures Entry(q.table[id].when + q.births[id].interval, id) in r.timers
  {
    assert r.Queued(id) && OnSchedule(r.table[id], r.births[id], |r.fired[id]|);
    NextDeadline(q.births[id].first, |q.fired[id]|, q.births[id].interval);
  }
}
