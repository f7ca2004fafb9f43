/** Timer and TimerQueue as objects: the steps of their methods are the functions of module Timers. */
module TimerQueues {
  import opened Common
  import opened Timers

  class Timer {
    const id: nat
    const interval: int
    const repeat: bool
    var when: int
    var canceled: bool

    ghost function View(): TimerData
      reads this
    {
      TimerData(when, interval, canceled)
    }

    ghost predicate Valid()
      reads this
    {
      repeat == (interval > 0)
    }

    constructor (id: nat, when: int, interval: int)
      ensures this.id == id && Valid() && View() == TimerData(when, interval, false)
    {
      this.id := id;
      this.when := when;
      this.interval := interval;
      repeat := interval > 0;
      canceled := false;
    }

    predicate HasExpired(now: int)
      reads this
    {
      now >= when
    }

    method Restart()
      requires Valid() && repeat
      modifies this`when
      ensures View() == old(View()).(when := old(when) + interval)
    {
      when := when + interval;
    }

    method Cancel()
      requires !canceled
      modifies this`canceled
      ensures View() == old(View()).(canceled := true)
    {
      canceled := true;
    }
  }

  class TimerQueue {
    var timers: seq<Entry>
    var live: map<nat, Timer> // what the pointers in entries and in clients' hands refer to
    var armed: Option<Arm>    // the kernel's side of timerfd_
    var births: map<nat, Birth> // every timer ever created: a new one is none of them
    ghost var fired: map<nat, seq<int>>

    /** A pointer in use leads to its own timer, which was created and is not cancelled. */
    ghost predicate Valid()
      reads this`live, this`births, this`fired, live.Values
    {
      && births.Keys == fired.Keys
      && forall id :: id in live ==> live[id].id == id && live[id].Valid() && id in births && !live[id].canceled
    }

    ghost function Table(): map<nat, TimerData>
      reads this`live, live.Values
    {
      map id | id in live :: live[id].View()
    }

    ghost function View(): Queue
      reads this, live.Values
    {
      Queue(timers, Table(), armed, births, fired)
    }

    constructor ()
      ensures Valid() && View() == Empty()
    {
      timers := [];
      live := map[];
      armed := None;
      births := map[];
      fired := map[];
    }

    method DurationUntil(ts: int, now: int) returns (d: Timespec)
      ensures d == DurationFromNow(ts, now)
      ensures d.sec * SECOND + d.nsec == Max(ts - now, MILLISECOND) && 0 <= d.nsec < SECOND
    {
      var ns := ts - now;
      if ns < MILLISECOND {
        ns := MILLISECOND;
      }
      d := Timespec(ns / SECOND, ns % SECOND);
      DurationExact(ts, now);
    }

    method TimerfdSet(ts: int, now: int)
      modifies this`armed
      ensures armed == Some(SetTimer(ts, now))
    {
      var d := DurationUntil(ts, now);
      armed := Some(Arm(now, now + d.sec * SECOND + d.nsec));
    }

    method NewTimer(id: nat, ts: int, interval: int) returns (timer: Timer)
      requires Valid() && id !in births
      modifies this`live, this`births, this`fired
      ensures Valid() && fresh(timer) && live == old(live)[id := timer]
      ensures Table() == old(Table())[id := TimerData(ts, interval, false)]
      ensures births == old(births)[id := Birth(ts, interval)] && fired == old(fired)[id := []]
    {
      timer := new Timer(id, ts, interval);
      live := live[id := timer];
      births := births[id := Birth(ts, interval)];
      fired := fired[id := []];
      forall d | d in old(live)
        ensures live[d] == old(live[d]) && live[d].View() == old(live[d].View())
      {
      }
    }

    method AddTimerTask(now: int, id: nat, ts: int, interval: int) returns (timer: Timer)
      requires Valid() && id > 0 && id !in births
      modifies this
      ensures Valid() && View() == AddTimer(old(View()), now, id, ts, interval)
      ensures fresh(timer) && live == old(live)[id := timer]
    {
      timer := NewTimer(id, ts, interval);
      timers := Insert(timers, Entry(ts, id));
      if timers[..1] == [Entry(ts, id)] {
        TimerfdSet(ts, now);
      }
    }

    method CancelTimerById(id: nat)
      requires Valid() && id in live
      modifies this, live[id]
      ensures Valid() && View() == CancelTimer(old(View()), id)
      ensures live == old(live) - {id}
    {
      var timer := live[id];
      timer.Cancel();
      timers := Erase(timers, Entry(timer.when, id));
      live := live - {id};
    }

    /** One call of the client on the loop thread. */
    method ApplyOp(op: Op)
      requires Valid()
      modifies this, live.Values
      ensures Valid() && View() == Apply(old(View()), op)
      ensures fresh(live.Values - old(live.Values))
    {
      match op {
        case Add(now, id, ts, interval) =>
          if id > 0 && id !in births {
            var timer := AddTimerTask(now, id, ts, interval);
          }
        case Cancel(id) =>
          if id in live && Entry(live[id].when, id) in timers {
            CancelTimerById(id);
          }
      }
    }

    /** A callback: calls of the client, one after the other. */
    method RunCallback(ops: seq<Op>)
      requires Valid()
      modifies this, live.Values
      ensures Valid() && View() == ApplyAll(old(View()), ops)
      ensures fresh(live.Values - old(live.Values))
    {
      ghost var start := View();
      var i := 0;
      while i < |ops|
        invariant i <= |ops| && Valid()
        invariant ApplyAll(View(), ops[i..]) == ApplyAll(start, ops)
        invariant fresh(live.Values - old(live.Values))
      {
        assert ops[i..][1..] == ops[i + 1..];
        ApplyOp(ops[i]);
        i := i + 1;
      }
    }

    method RestartById(id: nat)
      requires Valid() && id in live && live[id].repeat
      modifies this`timers, live[id]
      ensures Valid() && View() == Requeue(old(View()), id)
    {
      var timer := live[id];
      timer.Restart();
      assert Table() == old(Table())[id := timer.View()] by {
        forall d | d in live
          ensures d != id ==> live[d] != timer
        {
        }
      }
      timers := Insert(timers, Entry(timer.when, id));
    }

    /** One expired timer: run unless cancelled, then restarted or deleted. Its callback leaves it in use. */
    method Fire(e: Entry, now: int, callback: seq<Op>)
      requires Valid() && e.id in live && e.when == live[e.id].when <= now
      requires var ran := ApplyAll(View(), callback); e.id in ran.table && e.id in ran.fired
      modifies this, live.Values
      ensures Valid() && View() == Finish(ApplyAll(old(View()), callback), e.id, now)
      ensures fresh(live.Values - old(live.Values))
    {
      var timer := live[e.id];
      assert timer.HasExpired(now);
      if !timer.canceled {
        RunRecorded(e.id, now, callback);
      }
      Settle(e.id);
    }

    method RunRecorded(id: nat, now: int, callback: seq<Op>)
      requires Valid() && id in ApplyAll(View(), callback).fired
      modifies this, live.Values
      ensures Valid() && View() == Record(ApplyAll(old(View()), callback), id, now)
      ensures fresh(live.Values - old(live.Values))
    {
      RunCallback(callback);
      fired := fired[id := fired[id] + [now]];
    }

    /** What follows the callback. */
    method Settle(id: nat)
      requires Valid() && id in live
      modifies this`timers, this`live, live[id]
      ensures Valid() && live.Values <= old(live.Values)
      ensures View() == Settled(old(View()), id)
    {
      var timer := live[id];
      if !timer.canceled && timer.repeat {
        RestartById(id);
      } else {
        live := live - {id};
        assert Table() == old(Table()) - {id};
      }
    }

    method GetExpired(now: int) returns (entries: seq<Entry>)
      requires Valid()
      modifies this`timers
      ensures entries == old(timers)[..Due(old(timers), now)] && timers == old(timers)[Due(old(timers), now)..]
    {
      var end := 0;
      while end < |timers| && Less(timers[end], Entry(now + 1, 0))
        invariant end <= |timers|
        invariant end + LowerBound(timers[end..], Entry(now + 1, 0)) == Due(timers, now)
      {
        assert timers[end..][1..] == timers[end + 1..];
        end := end + 1;
      }
      entries := timers[..end];
      timers := timers[end..];
    }

    /** Reading the timerfd and taking the expired entries. */
    method TakeExpired(now: int) returns (expired: seq<Entry>)
      requires Valid()
      modifies this`timers, this`armed
      ensures Valid() && View() == Taken(old(View()), now)
      ensures expired == old(timers)[..Due(old(timers), now)]
    {
      if armed.Some? && armed.value.deadline <= now {
        armed := None;
      }
      expired := GetExpired(now);
    }

    /** handleRead, called at now and done at end; callbacks[i] is what the i-th expired timer's callback does. */
    method HandleReadable(now: int, end: int, callbacks: seq<seq<Op>>)
      requires Valid() && Inv(View()) && |callbacks| == Due(timers, now)
      modifies this, live.Values
      ensures Valid() && View() == HandleRead(old(View()), now, end, callbacks)
    {
      DueRunnable(View(), now, callbacks);
      FireDue(now, end, callbacks);
    }

    method FireDue(now: int, end: int, callbacks: seq<seq<Op>>)
      requires Valid() && |callbacks| == Due(timers, now)
      requires Runnable(Taken(View(), now), timers[..Due(timers, now)], now, callbacks)
      modifies this, live.Values
      ensures Valid() && View() == HandleRead(old(View()), now, end, callbacks)
    {
      var expired := TakeExpired(now);
      FireBatch(expired, now, callbacks);
      RearmFirst(end);
    }

    method RearmFirst(now: int)
      requires Valid()
      modifies this`armed
      ensures Valid() && View() == Rearm(old(View()), now)
    {
      if timers != [] {
        TimerfdSet(timers[0].when, now);
      }
    }

    method FireBatch(expired: seq<Entry>, now: int, callbacks: seq<seq<Op>>)
      requires Valid() && |callbacks| == |expired| && Runnable(View(), expired, now, callbacks)
      modifies this, live.Values
      ensures Valid() && View() == FireAll(old(View()), expired, now, callbacks)
    {
      ghost var start := View();
      var i := 0;
      while i < |expired|
        invariant i <= |expired| && Valid()
        invariant Runnable(View(), expired[i..], now, callbacks[i..])
        invariant FireAll(View(), expired[i..], now, callbacks[i..]) == FireAll(start, expired, now, callbacks)
        invariant fresh(live.Values - old(live.Values))
      {
        assert expired[i..][1..] == expired[i + 1..] && callbacks[i..][1..] == callbacks[i + 1..];
        Fire(expired[i], now, callbacks[i]);
        i := i + 1;
      }
    }
  }
}
