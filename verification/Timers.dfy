/** Timer and TimerQueue: an ordered set of deadlines, a one-shot kernel timer, and batches of expired timers. */
module Timers {
  import opened Common

  const MILLISECOND: int := 1_000_000
  const SECOND: int := 1_000_000_000

  // ---------- the ordered set ----------

  /** std::pair<Timestamp, Timer*>; timers are numbered from 1, and 0 stands for nullptr. */
  datatype Entry = Entry(when: int, id: nat)

  predicate Less(a: Entry, b: Entry) {
    a.when < b.when || (a.when == b.when && a.id < b.id)
  }

  ghost predicate Sorted(s: seq<Entry>) {
    forall i, j :: 0 <= i < j < |s| ==> Less(s[i], s[j])
  }

  function Insert(s: seq<Entry>, e: Entry): seq<Entry> {
    if s == [] || Less(e, s[0]) then [e] + s
    else if s[0] == e then s
    else [s[0]] + Insert(s[1..], e)
  }

  function Erase(s: seq<Entry>, e: Entry): seq<Entry> {
    if s == [] then [] else if s[0] == e then s[1..] else [s[0]] + Erase(s[1..], e)
  }

  /** The number of entries before e: std::set::lower_bound. */
  function LowerBound(s: seq<Entry>, e: Entry): (n: nat)
    ensures n <= |s|
  {
    if s == [] || !Less(s[0], e) then 0 else 1 + LowerBound(s[1..], e)
  }

  lemma {:induction false} InsertSorted(s: seq<Entry>, e: Entry)
    requires Sorted(s)
    ensures Sorted(Insert(s, e))
    ensures forall x :: x in Insert(s, e) <==> x == e || x in s
  {
    if s != [] && !Less(e, s[0]) && s[0] != e {
      InsertSorted(s[1..], e);
      assert forall x :: x in s <==> x == s[0] || x in s[1..];
      assert forall x :: x in s[1..] ==> Less(s[0], x);
      var r := Insert(s[1..], e);
      assert forall i :: 0 <= i < |r| ==> Less(s[0], r[i]) by {
        assert forall i :: 0 <= i < |r| ==> r[i] in r;
      }
    }
  }

  lemma {:induction false} EraseSorted(s: seq<Entry>, e: Entry)
    requires Sorted(s)
    ensures Sorted(Erase(s, e))
    ensures forall x :: x in Erase(s, e) <==> x in s && x != e
  {
    if s != [] {
      assert forall x :: x in s <==> x == s[0] || x in s[1..];
      assert forall x :: x in s[1..] ==> Less(s[0], x);
      if s[0] != e {
        EraseSorted(s[1..], e);
        var r := Erase(s[1..], e);
        assert forall i :: 0 <= i < |r| ==> Less(s[0], r[i]) by {
          assert forall i :: 0 <= i < |r| ==> r[i] in r;
        }
      }
    }
  }

  lemma {:induction false} LowerBoundSplits(s: seq<Entry>, e: Entry)
    requires Sorted(s)
    ensures forall x :: x in s[..LowerBound(s, e)] ==> Less(x, e)
    ensures forall x :: x in s[LowerBound(s, e)..] ==> !Less(x, e)
  {
    if s != [] && Less(s[0], e) {
      LowerBoundSplits(s[1..], e);
      var n := LowerBound(s[1..], e);
      assert s[..n + 1] == [s[0]] + s[1..][..n];
      assert s[n + 1..] == s[1..][n..];
    } else if s != [] {
      assert forall x :: x in s ==> x == s[0] || Less(s[0], x);
    }
  }

  /** getExpired's bound, now plus one nanosecond and nullptr, splits at exactly now. */
  function Due(s: seq<Entry>, now: int): (n: nat)
    ensures n <= |s|
  {
    LowerBound(s, Entry(now + 1, 0))
  }

  /** The expired entries are exactly those with a deadline of at most now, in order, and the others stay. */
  lemma DueSplits(s: seq<Entry>, now: int)
    requires Sorted(s)
    ensures forall x :: x in s ==> (x in s[..Due(s, now)] <==> x.when <= now)
    ensures forall x :: x in s ==> (x in s[Due(s, now)..] <==> x.when > now)
    ensures Sorted(s[..Due(s, now)]) && Sorted(s[Due(s, now)..])
  {
    var n := Due(s, now);
    LowerBoundSplits(s, Entry(now + 1, 0));
    assert s == s[..n] + s[n..];
  }

  // ---------- the kernel timer ----------

  datatype Timespec = Timespec(sec: int, nsec: int)

  /** How far the kernel timer is set: at least a millisecond, even for a deadline that has passed. */
  function Delay(ts: int, now: int): int {
    Max(ts - now, MILLISECOND)
  }

  function DurationFromNow(ts: int, now: int): Timespec {
    Timespec(Delay(ts, now) / SECOND, Delay(ts, now) % SECOND)
  }

  /** The value armed is a legal one, never zero (which would disarm the timer), and is the delay to the nanosecond. */
  lemma DurationExact(ts: int, now: int)
    ensures var d := DurationFromNow(ts, now);
            && d.sec >= 0 && 0 <= d.nsec < 1_000_000_000 && (d.sec > 0 || d.nsec > 0)
            && d.sec * 1_000_000_000 + d.nsec == Max(ts - now, 1_000_000)
  {
  }

  /** timerfd_settime at a time: it becomes readable at the deadline, and stays so until it is read or set again. */
  datatype Arm = Arm(at: int, deadline: int)

  function SetTimer(ts: int, now: int): Arm {
    var d := DurationFromNow(ts, now);
    Arm(now, now + d.sec * SECOND + d.nsec)
  }

  // ---------- timers ----------

  datatype TimerData = TimerData(when: int, interval: int, canceled: bool) {
    predicate Repeats() {
      interval > 0
    }
  }

  datatype Birth = Birth(first: int, interval: int)

  datatype Queue = Queue(
    timers: seq<Entry>,
    table: map<nat, TimerData>,  // the Timer objects that exist
    armed: Option<Arm>,
    births: map<nat, Birth>,     // every timer ever created
    fired: map<nat, seq<int>>)   // and the times at which it ran
  {
    predicate Queued(id: nat) {
      id in table && Entry(table[id].when, id) in timers
    }
  }

  function Empty(): Queue {
    Queue([], map[], None, map[], map[])
  }

  /** What client code on the loop thread does at a given time. */
  datatype Op =
    | Add(now: int, id: nat, ts: int, interval: int)
    | Cancel(id: nat)

  function AddTimer(q: Queue, now: int, id: nat, ts: int, interval: int): Queue {
    var timers := Insert(q.timers, Entry(ts, id));
    q.(timers := timers,
       table := q.table[id := TimerData(ts, interval, false)],
       armed := if timers[..1] == [Entry(ts, id)] then Some(SetTimer(ts, now)) else q.armed,
       births := q.births[id := Birth(ts, interval)],
       fired := q.fired[id := []])
  }

  function CancelTimer(q: Queue, id: nat): Queue
    requires id in q.table
  {
    q.(timers := Erase(q.timers, Entry(q.table[id].when, id)), table := q.table - {id})
  }

  /** A new timer has a new number; only queued timers are cancelled. */
  function Apply(q: Queue, op: Op): Queue {
    match op
    case Add(now, id, ts, interval) => if id > 0 && id !in q.births then AddTimer(q, now, id, ts, interval) else q
    case Cancel(id) => if q.Queued(id) then CancelTimer(q, id) else q
  }

  function ApplyAll(q: Queue, ops: seq<Op>): Queue
    decreases |ops|
  {
    if ops == [] then q else ApplyAll(Apply(q, ops[0]), ops[1..])
  }

  /** One expired timer runs its callback unless it was cancelled, and is queued again if it repeats. */
  function FireOne(q: Queue, e: Entry, now: int, callback: seq<Op>): Queue {
    if e.id !in q.table || e.id !in q.fired then q
    else
      var ran := if q.table[e.id].canceled then q else ApplyAll(Record(q, e.id, now), callback);
      if e.id !in ran.table then ran
      else if !ran.table[e.id].canceled && ran.table[e.id].Repeats() then Requeue(ran, e.id)
      else ran.(table := ran.table - {e.id})
  }

  function Record(q: Queue, id: nat, now: int): Queue
    requires id in q.fired
  {
    q.(fired := q.fired[id := q.fired[id] + [now]])
  }

  function Requeue(q: Queue, id: nat): Queue
    requires id in q.table
  {
    var t := q.table[id];
    q.(table := q.table[id := t.(when := t.when + t.interval)],
       timers := Insert(q.timers, Entry(t.when + t.interval, id)))
  }

  /** The callbacks of a batch, callbacks[i] being what the i-th does. */
  function FireAll(q: Queue, batch: seq<Entry>, now: int, callbacks: seq<seq<Op>>): Queue
    requires |callbacks| == |batch|
    decreases |batch|
  {
    if batch == [] then q
    else FireAll(FireOne(q, batch[0], now, callbacks[0]), batch[1..], now, callbacks[1..])
  }

  /** Reading the timerfd and taking the expired timers out of the set. */
  function Taken(q: Queue, now: int): Queue {
    q.(timers := q.timers[Due(q.timers, now)..],
       armed := if q.armed.Some? && q.armed.value.deadline <= now then None else q.armed)
  }

  function Rearm(q: Queue, now: int): Queue {
    if q.timers != [] then q.(armed := Some(SetTimer(q.timers[0].when, now))) else q
  }

  /** handleRead, begun at now and finished at end. */
  function HandleRead(q: Queue, now: int, end: int, callbacks: seq<seq<Op>>): Queue
    requires |callbacks| == Due(q.timers, now)
  {
    Rearm(FireAll(Taken(q, now), q.timers[..Due(q.timers, now)], now, callbacks), end)
  }

  // ---------- the invariant ----------

  /** A timer that exists has a deadline of its first one plus an interval for each time it ran. */
  predicate OnSchedule(t: TimerData, b: Birth, runs: nat) {
    && t.interval == b.interval && !t.canceled
    && (if b.interval > 0 then t.when == b.first + runs * b.interval else t.when == b.first && runs == 0)
  }

  /** Each run came no earlier than its deadline; a timer that does not repeat ran at most once. */
  ghost predicate RanInTime(b: Birth, runs: seq<int>) {
    && (forall k :: 0 <= k < |runs| ==> runs[k] >= b.first + (if b.interval > 0 then k * b.interval else 0))
    && (b.interval <= 0 ==> |runs| <= 1)
  }

  ghost predicate Scheduled(q: Queue) {
    && q.births.Keys == q.fired.Keys && 0 !in q.births
    && (forall id :: id in q.table ==> id in q.births && OnSchedule(q.table[id], q.births[id], |q.fired[id]|))
    && (forall id :: id in q.births ==> RanInTime(q.births[id], q.fired[id]))
  }

  /** Every entry agrees with its timer, so a timer occurs at most once. */
  ghost predicate Indexed(q: Queue) {
    && Sorted(q.timers)
    && forall e :: e in q.timers ==> e.id in q.table && q.table[e.id].when == e.when
  }

  /** Every timer that exists is in the set, except those still to run in the current batch. */
  ghost predicate Complete(q: Queue, batch: seq<Entry>) {
    && (forall id :: id in q.table ==> q.Queued(id) || Entry(q.table[id].when, id) in batch)
    && (forall i :: 0 <= i < |batch| ==> batch[i].id in q.table && q.table[batch[i].id].when == batch[i].when)
    && (forall i :: 0 <= i < |batch| ==> !q.Queued(batch[i].id))
    && (forall i, j :: 0 <= i < j < |batch| ==> batch[i].id != batch[j].id)
  }

  /** The kernel timer is set, for the earliest deadline or a millisecond after it was set. */
  predicate Armed(q: Queue) {
    q.timers != [] ==>
      q.armed.Some? && q.armed.value.deadline <= Max(q.timers[0].when, q.armed.value.at + MILLISECOND)
  }

  ghost predicate Mid(q: Queue, batch: seq<Entry>) {
    Scheduled(q) && Indexed(q) && Complete(q, batch)
  }

  ghost predicate Inv(q: Queue) {
    Mid(q, []) && Armed(q)
  }

  lemma EmptyInv()
    ensures Inv(Empty())
  {
  }

  // ---------- steps ----------

  lemma {:induction false} InsertFirst(s: seq<Entry>, e: Entry)
    ensures Insert(s, e) != [] && (Insert(s, e)[0] == e || (s != [] && Insert(s, e)[0] == s[0]))
  {
  }

  lemma FirstIsLeast(s: seq<Entry>, e: Entry)
    requires Sorted(s) && e in s
    ensures s[0].when <= e.when
  {
  }

  lemma AddKeeps(q: Queue, batch: seq<Entry>, now: int, id: nat, ts: int, interval: int)
    requires Mid(q, batch) && id > 0 && id !in q.births
    ensures Mid(AddTimer(q, now, id, ts, interval), batch)
    ensures Armed(q) ==> Armed(AddTimer(q, now, id, ts, interval))
  {
    AddIndexes(q, now, id, ts, interval);
    AddCompletes(q, batch, now, id, ts, interval);
    AddArms(q, now, id, ts, interval);
  }

  lemma AddIndexes(q: Queue, now: int, id: nat, ts: int, interval: int)
    requires Scheduled(q) && Indexed(q) && id > 0 && id !in q.births
    ensures Scheduled(AddTimer(q, now, id, ts, interval)) && Indexed(AddTimer(q, now, id, ts, interval))
  {
    InsertSorted(q.timers, Entry(ts, id));
  }

  lemma AddCompletes(q: Queue, batch: seq<Entry>, now: int, id: nat, ts: int, interval: int)
    requires Complete(q, batch) && Sorted(q.timers) && id !in q.table
    ensures Complete(AddTimer(q, now, id, ts, interval), batch)
  {
    InsertSorted(q.timers, Entry(ts, id));
    var t := AddTimer(q, now, id, ts, interval);
    assert forall d :: d in q.table && q.Queued(d) ==> t.Queued(d);
    forall i | 0 <= i < |batch|
      ensures !t.Queued(batch[i].id)
    {
      assert !q.Queued(batch[i].id);
    }
  }

  lemma AddArms(q: Queue, now: int, id: nat, ts: int, interval: int)
    ensures Armed(q) ==> Armed(AddTimer(q, now, id, ts, interval))
  {
    InsertFirst(q.timers, Entry(ts, id));
    DurationExact(ts, now);
    var t := AddTimer(q, now, id, ts, interval);
    assert t.timers[..1] == [t.timers[0]];
  }

  lemma CancelKeeps(q: Queue, batch: seq<Entry>, id: nat)
    requires Mid(q, batch) && q.Queued(id)
    ensures Mid(CancelTimer(q, id), batch)
    ensures Armed(q) ==> Armed(CancelTimer(q, id))
  {
    var e := Entry(q.table[id].when, id);
    EraseSorted(q.timers, e);
    var t := CancelTimer(q, id);
    if t.timers != [] {
      assert t.timers[0] in t.timers;
      FirstIsLeast(q.timers, t.timers[0]);
    }
  }

  /** Client calls leave the history of the timers there are alone, and the timers of the batch being run. */
  ghost predicate Untouched(q: Queue, r: Queue) {
    && (forall id :: id in q.births ==> id in r.births && r.births[id] == q.births[id])
    && (forall id :: id in q.births && id in q.fired ==> id in r.fired && r.fired[id] == q.fired[id])
  }

  lemma ApplyKeeps(q: Queue, batch: seq<Entry>, op: Op)
    requires Mid(q, batch)
    ensures Mid(Apply(q, op), batch) && Untouched(q, Apply(q, op))
    ensures forall i :: 0 <= i < |batch| ==> Apply(q, op).table[batch[i].id] == q.table[batch[i].id]
    ensures Armed(q) ==> Armed(Apply(q, op))
  {
    match op {
      case Add(now, id, ts, interval) => if id > 0 && id !in q.births { AddKeeps(q, batch, now, id, ts, interval); }
      case Cancel(id) => if q.Queued(id) { CancelKeeps(q, batch, id); }
    }
  }

  lemma {:induction false} ApplyAllKeeps(q: Queue, batch: seq<Entry>, ops: seq<Op>)
    requires Mid(q, batch)
    ensures var r := ApplyAll(q, ops);
            && Mid(r, batch) && Untouched(q, r)
            && forall i :: 0 <= i < |batch| ==> r.table[batch[i].id] == q.table[batch[i].id]
    decreases |ops|
  {
    if ops != [] {
      ApplyKeeps(q, batch, ops[0]);
      ApplyAllKeeps(Apply(q, ops[0]), batch, ops[1..]);
    }
  }

  /** A run recorded before the client's calls might as well be recorded after them. */
  lemma RecordCommutes(q: Queue, id: nat, now: int, op: Op)
    requires id in q.births && id in q.fired
    ensures id in Apply(q, op).fired && Apply(Record(q, id, now), op) == Record(Apply(q, op), id, now)
  {
    if op.Add? && op.id !in q.births {
      assert q.fired[id := q.fired[id] + [now]][op.id := []] == q.fired[op.id := []][id := q.fired[id] + [now]];
    }
  }

  lemma {:induction false} RecordLater(q: Queue, id: nat, now: int, ops: seq<Op>)
    requires id in q.births && id in q.fired
    ensures id in ApplyAll(q, ops).fired && ApplyAll(Record(q, id, now), ops) == Record(ApplyAll(q, ops), id, now)
    decreases |ops|
  {
    if ops != [] {
      RecordCommutes(q, id, now, ops[0]);
      RecordLater(Apply(q, ops[0]), id, now, ops[1..]);
    }
  }

  /** What is left to do for a timer of the batch once its callback returned. */
  function Finish(q: Queue, id: nat, now: int): Queue
    requires id in q.table && id in q.fired
  {
    Settled(Record(q, id, now), id)
  }

  function Settled(q: Queue, id: nat): Queue
    requires id in q.table
  {
    if q.table[id].Repeats() then Requeue(q, id) else q.(table := q.table - {id})
  }

  lemma NextDeadline(first: int, runs: nat, interval: int)
    ensures first + (runs + 1) * interval == first + runs * interval + interval
  {
  }

  lemma FinishSchedules(q: Queue, id: nat, now: int)
    requires Scheduled(q) && id in q.table && q.table[id].when <= now
    ensures Scheduled(Finish(q, id, now))
  {
    var b, runs := q.births[id], q.fired[id];
    NextDeadline(b.first, |runs|, b.interval);
    var r := Finish(q, id, now);
    assert RanInTime(b, runs + [now]);
    forall d | d in r.table
      ensures d in r.births && OnSchedule(r.table[d], r.births[d], |r.fired[d]|)
    {
      assert OnSchedule(q.table[d], q.births[d], |q.fired[d]|);
    }
  }

  lemma FinishIndexes(q: Queue, id: nat, now: int)
    requires Indexed(q) && id in q.table && id in q.fired && !q.Queued(id)
    ensures Indexed(Finish(q, id, now))
  {
    var t := q.table[id];
    InsertSorted(q.timers, Entry(t.when + t.interval, id));
    assert forall e :: e in q.timers ==> e.id != id;
  }

  /** The first timer of a batch, and the rest. */
  lemma CompleteHead(q: Queue, e: Entry, rest: seq<Entry>)
    requires Complete(q, [e] + rest)
    ensures e.id in q.table && !q.Queued(e.id) && q.table[e.id].when == e.when
    ensures Complete(q.(table := q.table - {e.id}), rest)
    ensures forall i :: 0 <= i < |rest| ==> rest[i].id != e.id
  {
    var batch, r := [e] + rest, q.(table := q.table - {e.id});
    assert batch[0] == e && forall i :: 0 <= i < |rest| ==> batch[i + 1] == rest[i];
    forall id | id in r.table
      ensures r.Queued(id) || Entry(r.table[id].when, id) in rest
    {
      if !q.Queued(id) {
        assert Entry(q.table[id].when, id) in batch;
      }
    }
    forall i | 0 <= i < |rest|
      ensures !r.Queued(rest[i].id)
    {
      assert !q.Queued(batch[i + 1].id);
    }
  }

  lemma FinishCompletes(q: Queue, id: nat, rest: seq<Entry>, now: int)
    requires id in q.table && id in q.fired && Sorted(q.timers)
    requires Complete(q.(table := q.table - {id}), rest) && forall i :: 0 <= i < |rest| ==> rest[i].id != id
    ensures Complete(Finish(q, id, now), rest)
  {
    var t, gone, r := q.table[id], q.(table := q.table - {id}), Finish(q, id, now);
    InsertSorted(q.timers, Entry(t.when + t.interval, id));
    forall i | 0 <= i < |rest|
      ensures !r.Queued(rest[i].id)
    {
      assert !gone.Queued(rest[i].id);
    }
    forall d | d in r.table
      ensures r.Queued(d) || Entry(r.table[d].when, d) in rest
    {
      assert d != id ==> gone.Queued(d) || Entry(gone.table[d].when, d) in rest;
    }
  }

  lemma FinishKeeps(q: Queue, e: Entry, rest: seq<Entry>, now: int)
    requires Mid(q, [e] + rest) && e.when <= now
    ensures e.id in q.table && e.id in q.fired && Mid(Finish(q, e.id, now), rest)
  {
    CompleteHead(q, e, rest);
    FinishSchedules(q, e.id, now);
    FinishIndexes(q, e.id, now);
    FinishCompletes(q, e.id, rest, now);
  }

  /** Firing one timer of the batch adds exactly one run, now, to it alone. */
  lemma FireOneKeeps(q: Queue, e: Entry, rest: seq<Entry>, now: int, callback: seq<Op>)
    requires Mid(q, [e] + rest) && e.when <= now
    ensures var r := FireOne(q, e, now, callback);
            && Mid(r, rest)
            && e.id in q.births && e.id in q.fired
            && (forall id :: id in q.births ==> id in r.births && r.births[id] == q.births[id])
            && (forall id :: id in q.births && id in q.fired ==>
                  id in r.fired && r.fired[id] == if id == e.id then q.fired[id] + [now] else q.fired[id])
  {
    var batch := [e] + rest;
    assert batch[0] == e;
    assert e.id in q.births && OnSchedule(q.table[e.id], q.births[e.id], |q.fired[e.id]|);
    RecordLater(q, e.id, now, callback);
    ApplyAllKeeps(q, batch, callback);
    var ran := ApplyAll(q, callback);
    assert ran.table[batch[0].id] == q.table[batch[0].id];
    FinishKeeps(ran, e, rest, now);
    assert FireOne(q, e, now, callback) == Finish(ran, e.id, now);
  }

  /** What the loop over a batch relies on: each timer is in use, due, and not removed by its own callback. */
  predicate Runnable(q: Queue, batch: seq<Entry>, now: int, callbacks: seq<seq<Op>>)
    requires |callbacks| == |batch|
    decreases |batch|
  {
    batch != [] ==>
      var e, ran := batch[0], ApplyAll(q, callbacks[0]);
      && e.id in q.table && q.table[e.id].when == e.when <= now
      && e.id in ran.table && e.id in ran.fired
      && FireOne(q, e, now, callbacks[0]) == Finish(ran, e.id, now)
      && Runnable(FireOne(q, e, now, callbacks[0]), batch[1..], now, callbacks[1..])
  }

  /** The first timer of a batch: its callback, the record of its run, and its restart or deletion. */
  lemma FireOneFinishes(q: Queue, e: Entry, rest: seq<Entry>, now: int, callback: seq<Op>)
    requires Mid(q, [e] + rest) && e.when <= now
    ensures var ran := ApplyAll(q, callback);
            && e.id in q.table && q.table[e.id].when == e.when && e.id in ran.fired && e.id in ran.table
            && FireOne(q, e, now, callback) == Finish(ran, e.id, now)
  {
    var batch := [e] + rest;
    assert batch[0] == e;
    assert OnSchedule(q.table[e.id], q.births[e.id], |q.fired[e.id]|);
    RecordLater(q, e.id, now, callback);
    ApplyAllKeeps(q, batch, callback);
    assert ApplyAll(q, callback).table[batch[0].id] == q.table[batch[0].id];
  }

  lemma {:induction false} BatchRunnable(q: Queue, batch: seq<Entry>, now: int, callbacks: seq<seq<Op>>)
    requires |callbacks| == |batch| && Mid(q, batch) && forall k :: 0 <= k < |batch| ==> batch[k].when <= now
    ensures Runnable(q, batch, now, callbacks)
    decreases |batch|
  {
    if batch != [] {
      assert batch == [batch[0]] + batch[1..];
      FireOneFinishes(q, batch[0], batch[1..], now, callbacks[0]);
      FireOneKeeps(q, batch[0], batch[1..], now, callbacks[0]);
      BatchRunnable(FireOne(q, batch[0], now, callbacks[0]), batch[1..], now, callbacks[1..]);
    }
  }

  /** Every batch that getExpired takes can be run. */
  lemma DueRunnable(q: Queue, now: int, callbacks: seq<seq<Op>>)
    requires Inv(q) && |callbacks| == Due(q.timers, now)
    ensures Runnable(Taken(q, now), q.timers[..Due(q.timers, now)], now, callbacks)
  {
    TakenBatch(q, now);
    BatchRunnable(Taken(q, now), q.timers[..Due(q.timers, now)], now, callbacks);
  }

  lemma TakenBatch(q: Queue, now: int)
    requires Mid(q, [])
    ensures var batch := q.timers[..Due(q.timers, now)];
            Mid(Taken(q, now), batch) && forall k :: 0 <= k < |batch| ==> batch[k].when <= now
  {
    TakenKeeps(q, now);
    DueSplits(q.timers, now);
    var batch := q.timers[..Due(q.timers, now)];
    assert forall k :: 0 <= k < |batch| ==> batch[k] in batch && batch[k] in q.timers;
  }

  predicate InBatch(batch: seq<Entry>, id: nat) {
    exists i :: 0 <= i < |batch| && batch[i].id == id
  }

  lemma InBatchTail(e: Entry, rest: seq<Entry>)
    ensures forall id :: InBatch([e] + rest, id) <==> id == e.id || InBatch(rest, id)
  {
    var batch := [e] + rest;
    assert batch[0] == e && forall i :: 0 <= i < |rest| ==> batch[i + 1] == rest[i];
    forall id | InBatch(rest, id)
      ensures InBatch(batch, id)
    {
      var i :| 0 <= i < |rest| && rest[i].id == id;
      assert batch[i + 1].id == id;
    }
  }

  lemma {:induction false} FireAllKeeps(q: Queue, batch: seq<Entry>, now: int, callbacks: seq<seq<Op>>)
    requires |callbacks| == |batch| && Mid(q, batch) && forall i :: 0 <= i < |batch| ==> batch[i].when <= now
    ensures var r := FireAll(q, batch, now, callbacks);
            && Mid(r, [])
            && (forall id :: id in q.births ==> id in r.births && r.births[id] == q.births[id])
            && (forall id :: id in q.births && id in q.fired ==>
                  id in r.fired && r.fired[id] == if InBatch(batch, id) then q.fired[id] + [now] else q.fired[id])
    decreases |batch|
  {
    if batch != [] {
      var e, rest := batch[0], batch[1..];
      assert batch == [e] + rest;
      FireOneKeeps(q, e, rest, now, callbacks[0]);
      FireAllKeeps(FireOne(q, e, now, callbacks[0]), rest, now, callbacks[1..]);
      CompleteHead(q, e, rest);
      InBatchTail(e, rest);
    }
  }

  lemma TakenKeeps(q: Queue, now: int)
    requires Mid(q, [])
    ensures Mid(Taken(q, now), q.timers[..Due(q.timers, now)])
  {
    var n := Due(q.timers, now);
    DueSplits(q.timers, now);
    var r, batch := Taken(q, now), q.timers[..n];
    assert forall x :: x in q.timers <==> x in batch || x in r.timers by {
      assert q.timers == batch + r.timers;
    }
    forall id | id in r.table
      ensures r.Queued(id) || Entry(r.table[id].when, id) in batch
    {
      assert q.Queued(id);
    }
    forall i | 0 <= i < |batch|
      ensures batch[i].id in r.table && r.table[batch[i].id].when == batch[i].when && !r.Queued(batch[i].id)
    {
      assert batch[i] in batch && batch[i] in q.timers;
    }
    forall i, j | 0 <= i < j < |batch|
      ensures batch[i].id != batch[j].id
    {
      assert batch[i] in q.timers && batch[j] in q.timers && Less(batch[i], batch[j]);
    }
  }

  lemma RearmArms(q: Queue, now: int)
    ensures Armed(Rearm(q, now)) && Rearm(q, now) == q.(armed := Rearm(q, now).armed)
  {
    if q.timers != [] {
      DurationExact(q.timers[0].when, now);
    }
  }

  /**
   * handleRead runs exactly the timers whose deadline has come, each once even if its next deadline is
   * already past, and leaves the kernel timer set for the earliest deadline.
   */
  lemma HandleReadFiresExactly(q: Queue, now: int, end: int, callbacks: seq<seq<Op>>)
    requires Inv(q) && |callbacks| == Due(q.timers, now)
    ensures var r := HandleRead(q, now, end, callbacks);
            && Inv(r)
            && (forall id :: id in q.births ==> id in r.births && r.births[id] == q.births[id])
            && (forall id :: id in q.births ==>
                  && id in q.fired && id in r.fired
                  && r.fired[id]
                     == if id in q.table && q.table[id].when <= now then q.fired[id] + [now] else q.fired[id])
  {
    var n := Due(q.timers, now);
    var batch := q.timers[..n];
    TakenBatch(q, now);
    FireAllKeeps(Taken(q, now), batch, now, callbacks);
    RearmArms(FireAll(Taken(q, now), batch, now, callbacks), end);
    forall id
      ensures InBatch(batch, id) <==> id in q.table && q.table[id].when <= now
    {
      DueInBatch(q, now, id);
    }
  }

  lemma DueInBatch(q: Queue, now: int, id: nat)
    requires Mid(q, [])
    ensures InBatch(q.timers[..Due(q.timers, now)], id) <==> id in q.table && q.table[id].when <= now
  {
    var batch := q.timers[..Due(q.timers, now)];
    DueSplits(q.timers, now);
    if InBatch(batch, id) {
      var i :| 0 <= i < |batch| && batch[i].id == id;
      assert batch[i] in batch && batch[i] in q.timers;
    }
    if id in q.table && q.table[id].when <= now {
      assert q.Queued(id);
      assert Entry(q.table[id].when, id) in batch;
      var i :| 0 <= i < |batch| && batch[i] == Entry(q.table[id].when, id);
      assert batch[i].id == id;
    }
  }

  // ---------- runs ----------

  /** A client call on the loop thread, or the timerfd's read callback. */
  datatype Step = Client(op: Op) | Expired(now: int, end: int, callbacks: seq<seq<Op>>)

  function Next(q: Queue, s: Step): Queue {
    match s
    case Client(op) => Apply(q, op)
    case Expired(now, end, callbacks) =>
      if |callbacks| == Due(q.timers, now) then HandleRead(q, now, end, callbacks) else q
  }

  function Run(q: Queue, steps: seq<Step>): Queue
    decreases |steps|
  {
    if steps == [] then q else Run(Next(q, steps[0]), steps[1..])
  }

  lemma NextKeeps(q: Queue, s: Step)
    requires Inv(q)
    ensures Inv(Next(q, s))
  {
    match s {
      case Client(op) => ApplyKeeps(q, [], op);
      case Expired(now, end, callbacks) =>
        if |callbacks| == Due(q.timers, now) { HandleReadFiresExactly(q, now, end, callbacks); }
    }
  }

  lemma {:induction false} RunKeeps(q: Queue, steps: seq<Step>)
    requires Inv(q)
    ensures Inv(Run(q, steps))
    decreases |steps|
  {
    if steps != [] {
      NextKeeps(q, steps[0]);
      RunKeeps(Next(q, steps[0]), steps[1..]);
    }
  }

  /** q is what some run leaves. */
  ghost predicate Reachable(q: Queue) {
    exists steps :: Run(Empty(), steps) == q
  }

  lemma ReachableInv(q: Queue)
    requires Reachable(q)
    ensures Inv(q)
  {
    var steps :| Run(Empty(), steps) == q;
    EmptyInv();
    RunKeeps(Empty(), steps);
  }

  /** While a timer is queued the kernel timer is set, in time for the earliest or a millisecond after it was set. */
  lemma ArmedInTime(q: Queue, e: Entry)
    requires Reachable(q) && e in q.timers
    ensures q.armed.Some? && q.armed.value.deadline <= Max(e.when, q.armed.value.at + MILLISECOND)
  {
    ReachableInv(q);
    FirstIsLeast(q.timers, e);
  }

  /** The set and the timers agree: cancelling or restarting a timer finds its one entry, and a new entry is new. */
  lemma IndexAgrees(q: Queue, id: nat)
    requires Reachable(q)
    ensures id in q.table <==> q.Queued(id)
    ensures forall i, j :: 0 <= i < j < |q.timers| ==> q.timers[i].id != q.timers[j].id
    ensures forall ts :: id !in q.births ==> Entry(ts, id) !in q.timers
  {
    ReachableInv(q);
    forall i, j | 0 <= i < j < |q.timers|
      ensures q.timers[i].id != q.timers[j].id
    {
      assert q.timers[i] in q.timers && q.timers[j] in q.timers && Less(q.timers[i], q.timers[j]);
    }
  }

  /** Cancelling takes the one entry of a queued timer, and the timer never runs again. */
  lemma CancelRemoves(q: Queue, id: nat)
    requires Reachable(q) && id in q.table
    ensures var r := Apply(q, Cancel(id));
            id !in r.table && (forall e :: e in r.timers <==> e in q.timers && e.id != id) && r.fired == q.fired
  {
    ReachableInv(q);
    EraseSorted(q.timers, Entry(q.table[id].when, id));
  }

  lemma {:induction false} GoneStaysGone(q: Queue, steps: seq<Step>, id: nat)
    requires Inv(q) && id in q.births && id !in q.table
    ensures id in Run(q, steps).fired && id in q.fired && Run(q, steps).fired[id] == q.fired[id]
    ensures id in Run(q, steps).births && id !in Run(q, steps).table
    decreases |steps|
  {
    if steps != [] {
      var s := steps[0];
      NextKeeps(q, s);
      NextGone(q, s, id);
      GoneStaysGone(Next(q, s), steps[1..], id);
    }
  }

  /** A timer that is gone is not brought back by client calls. */
  lemma {:induction false} ApplyAllGone(q: Queue, ops: seq<Op>, id: nat)
    requires id in q.births && id !in q.table
    ensures id in ApplyAll(q, ops).births && id !in ApplyAll(q, ops).table
    decreases |ops|
  {
    if ops != [] {
      ApplyAllGone(Apply(q, ops[0]), ops[1..], id);
    }
  }

  lemma {:induction false} FireAllGone(q: Queue, batch: seq<Entry>, now: int, callbacks: seq<seq<Op>>, id: nat)
    requires |callbacks| == |batch| && id in q.births && id !in q.table
    ensures id in FireAll(q, batch, now, callbacks).births && id !in FireAll(q, batch, now, callbacks).table
    decreases |batch|
  {
    if batch != [] {
      var e := batch[0];
      if e.id in q.table && e.id in q.fired {
        ApplyAllGone(Record(q, e.id, now), callbacks[0], id);
      }
      FireAllGone(FireOne(q, e, now, callbacks[0]), batch[1..], now, callbacks[1..], id);
    }
  }

  lemma NextGone(q: Queue, s: Step, id: nat)
    requires Inv(q) && id in q.births && id !in q.table
    ensures var r := Next(q, s);
            id in r.births && id !in r.table && id in q.fired && id in r.fired && r.fired[id] == q.fired[id]
  {
    match s {
      case Client(op) =>
        ApplyKeeps(q, [], op);
        ApplyAllGone(q, [op], id);
      case Expired(now, end, callbacks) =>
        if |callbacks| == Due(q.timers, now) {
          HandleReadFiresExactly(q, now, end, callbacks);
          FireAllGone(Taken(q, now), q.timers[..Due(q.timers, now)], now, callbacks, id);
        }
    }
  }

  /** A one-shot timer that ran is gone. */
  lemma OneShotGone(q: Queue, id: nat)
    requires Reachable(q) && id in q.births && q.births[id].interval <= 0
    ensures id in q.fired && (q.fired[id] != [] ==> id !in q.table)
  {
    ReachableInv(q);
  }

  /** A timer that is gone, cancelled or having run its only time, never runs again. */
  lemma NeverAgain(q: Queue, steps: seq<Step>, id: nat)
    requires Reachable(q) && id in q.births && id !in q.table
    ensures id in q.fired && id in Run(q, steps).fired && Run(q, steps).fired[id] == q.fired[id]
  {
    ReachableInv(q);
    GoneStaysGone(q, steps, id);
  }

  /**
   * No timer runs before its deadline, and a periodic one that ran k times is due at its first deadline plus k
   * intervals.
   */
  lemma OnTime(q: Queue, id: nat)
    requires Reachable(q) && id in q.births
    ensures id in q.fired && RanInTime(q.births[id], q.fired[id])
    ensures id in q.table && q.births[id].interval > 0 ==>
              q.table[id].when == q.births[id].first + |q.fired[id]| * q.births[id].interval
  {
    ReachableInv(q);
    if id in q.table {
      assert OnSchedule(q.table[id], q.births[id], |q.fired[id]|);
    }
  }

  lemma MoreMultiples(k: nat, m: int, d: int)
    requires d > 0
    ensures k > m ==> k * d >= (m + 1) * d
  {
  }

  lemma QuotientBound(a: nat, k: nat, d: int)
    requires d > 0 && k * d <= a
    ensures k <= a / d
  {
    MoreMultiples(k, a / d, d);
    assert (a / d + 1) * d > a;
  }

  /**
   * By any time a periodic timer ran no more often than once per interval since its first deadline, and once for that.
   */
  lemma NeverTooOften(q: Queue, id: nat, now: int)
    requires Reachable(q) && id in q.births && q.births[id].interval > 0 && id in q.fired && q.fired[id] != []
    requires forall k :: 0 <= k < |q.fired[id]| ==> q.fired[id][k] <= now
    ensures |q.fired[id]| <= (now - q.births[id].first) / q.births[id].interval + 1
  {
    OnTime(q, id);
    var b, k := q.births[id], |q.fired[id]| - 1;
    assert q.fired[id][k] >= b.first + k * b.interval;
    QuotientBound(now - b.first, k, b.interval);
  }
}
