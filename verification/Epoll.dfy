/** Channel masks, Epoller::updateChannel and the kernel's interest list. */
module Epoll {
  import opened Common

  datatype EventBit = IN | PRI | OUT | RDHUP | ERR | HUP

  type Mask = set<EventBit>

  datatype MaskOp = EnableRead | EnableWrite | DisableRead | DisableWrite | DisableAll

  function ApplyMask(m: Mask, op: MaskOp): Mask {
    match op
    case EnableRead => m + {IN, PRI}
    case EnableWrite => m + {OUT}
    case DisableRead => m - {IN}
    case DisableWrite => m - {OUT}
    case DisableAll => {}
  }

  datatype CtlOp = Add | Mod | Del

  /** epoll_ctl: EEXIST for an Add of a registered descriptor, ENOENT for a Mod or Del of an unregistered one. */
  function Ctl(interest: map<int, Mask>, op: CtlOp, fd: int, events: Mask): Option<map<int, Mask>> {
    match op
    case Add => if fd in interest then None else Some(interest[fd := events])
    case Mod => if fd in interest then Some(interest[fd := events]) else None
    case Del => if fd in interest then Some(interest - {fd}) else None
  }

  datatype Chan = Chan(events: Mask, polling: bool)

  /** The operation updateChannel picks and the polling flag it leaves; None is its failed assert. */
  function ChooseOp(c: Chan): Option<(CtlOp, bool)> {
    if !c.polling then if c.events == {} then None else Some((Add, true))
    else if c.events != {} then Some((Mod, true))
    else Some((Del, false))
  }

  /** The channels of one loop by descriptor, and what the kernel holds. */
  datatype Registry = Registry(chans: map<int, Chan>, interest: map<int, Mask>)

  datatype UpdateOutcome = Done(reg: Registry) | AssertFailed | Refused

  function Update(r: Registry, fd: int, op: MaskOp): UpdateOutcome
    requires fd in r.chans
  {
    var c := r.chans[fd].(events := ApplyMask(r.chans[fd].events, op));
    match ChooseOp(c)
    case None => AssertFailed
    case Some((ctl, polling)) =>
      match Ctl(r.interest, ctl, fd, c.events)
      case None => Refused
      case Some(interest) => Done(Registry(r.chans[fd := c.(polling := polling)], interest))
  }

  /** The kernel's interest list is exactly the masks of the polled channels. */
  ghost predicate Mirror(r: Registry) {
    && (forall fd :: fd in r.chans ==> (r.chans[fd].polling <==> r.chans[fd].events != {}))
    && (forall fd :: fd in r.interest <==> fd in r.chans && r.chans[fd].polling)
    && (forall fd :: fd in r.interest ==> r.interest[fd] == r.chans[fd].events)
  }

  /**
   * A mirrored registry stays mirrored, the kernel never refuses, and the assert fails exactly when an unregistered
   * channel is left with nothing.
   */
  lemma UpdateMirrors(r: Registry, fd: int, op: MaskOp)
    requires Mirror(r) && fd in r.chans
    ensures Update(r, fd, op) != Refused
    ensures Update(r, fd, op) == AssertFailed <==> r.chans[fd].events == {} && ApplyMask({}, op) == {}
    ensures Update(r, fd, op).Done? ==>
              var s := Update(r, fd, op).reg;
              && Mirror(s) && s.chans.Keys == r.chans.Keys
              && s.interest == Registered(r.interest, fd, ApplyMask(r.chans[fd].events, op))
  {
  }

  /** The operation chosen is the one epoll_ctl accepts: ADD of what it does not hold, MOD or DEL of what it does. */
  lemma ChoiceIsLegal(r: Registry, fd: int, events: Mask)
    requires Mirror(r) && fd in r.chans
    ensures match ChooseOp(r.chans[fd].(events := events))
            case None => events == {} && fd !in r.interest
            case Some((Add, polling)) => events != {} && fd !in r.interest && polling
            case Some((Mod, polling)) => events != {} && fd in r.interest && polling
            case Some((Del, polling)) => events == {} && fd in r.interest && !polling
  {
  }

  /** The interest list after a descriptor's mask became m. */
  function Registered(interest: map<int, Mask>, fd: int, m: Mask): map<int, Mask> {
    if m == {} then interest - {fd} else interest[fd := m]
  }

  /** Any updates of any channels; the run ends where an assert fails. */
  function RunUpdates(r: Registry, ops: seq<(int, MaskOp)>): UpdateOutcome
    requires forall p :: p in ops ==> p.0 in r.chans
    decreases |ops|
  {
    if ops == [] then Done(r)
    else
      var o := Update(r, ops[0].0, ops[0].1);
      if o.Done? then RunUpdates(o.reg, ops[1..]) else o
  }

  lemma {:induction false} RunMirrors(r: Registry, ops: seq<(int, MaskOp)>)
    requires Mirror(r) && forall p :: p in ops ==> p.0 in r.chans
    ensures RunUpdates(r, ops) != Refused
    ensures RunUpdates(r, ops).Done? ==> Mirror(RunUpdates(r, ops).reg)
    decreases |ops|
  {
    if ops != [] {
      UpdateMirrors(r, ops[0].0, ops[0].1);
      var o := Update(r, ops[0].0, ops[0].1);
      if o.Done? {
        RunMirrors(o.reg, ops[1..]);
      }
    }
  }

  /** From a loop with no channel registered, over every run: mirrored, and no epoll_ctl call is refused. */
  lemma KernelMirrorsChannels(fds: set<int>, ops: seq<(int, MaskOp)>)
    requires forall p :: p in ops ==> p.0 in fds
    ensures var r := Registry(map fd | fd in fds :: Chan({}, false), map[]);
            RunUpdates(r, ops) != Refused && (RunUpdates(r, ops).Done? ==> Mirror(RunUpdates(r, ops).reg))
  {
    RunMirrors(Registry(map fd | fd in fds :: Chan({}, false), map[]), ops);
  }

  /** Once a channel was enabled for reading, EPOLLPRI keeps it registered until disableAll, and only until then. */
  lemma {:induction false} OnlyDisableAllRemoves(r: Registry, ops: seq<(int, MaskOp)>, fd: int)
    requires Mirror(r) && fd in r.chans && PRI in r.chans[fd].events
    requires forall p :: p in ops ==> p.0 in r.chans
    requires RunUpdates(r, ops).Done?
    ensures (fd, DisableAll) !in ops ==>
              fd in RunUpdates(r, ops).reg.interest && PRI in RunUpdates(r, ops).reg.interest[fd]
    ensures fd !in Update(r, fd, DisableAll).reg.interest
    decreases |ops|
  {
    UpdateMirrors(r, fd, DisableAll);
    if ops != [] && (fd, DisableAll) !in ops {
      UpdateMirrors(r, ops[0].0, ops[0].1);
      assert ops[0] in ops;
      OnlyDisableAllRemoves(Update(r, ops[0].0, ops[0].1).reg, ops[1..], fd);
    }
  }

  /** The epoll instance of a loop; interest stands for what the kernel holds. */
  class Epoller {
    var interest: map<int, Mask>

    constructor ()
      ensures interest == map[]
    {
      interest := map[];
    }

    /** The choice between Add, Mod and Del. */
    method UpdateChannel(channel: Channel)
      requires channel.epoller == this
      requires ChooseOp(Chan(channel.events, channel.polling)).Some?
      modifies this, channel`polling
      ensures var choice := ChooseOp(Chan(old(channel.events), old(channel.polling))).value;
              && channel.polling == choice.1
              && interest == Ctl(old(interest), choice.0, channel.fd, channel.events).GetOr(old(interest))
    {
      var op;
      if !channel.polling {
        assert channel.events != {};
        op := Add;
        channel.polling := true;
      } else if channel.events != {} {
        op := Mod;
      } else {
        op := Del;
        channel.polling := false;
      }
      EpollCtl(op, channel);
    }

    method EpollCtl(op: CtlOp, channel: Channel)
      modifies this
      ensures interest == Ctl(old(interest), op, channel.fd, channel.events).GetOr(old(interest))
    {
      match Ctl(interest, op, channel.fd, channel.events) {
        case Some(updated) => interest := updated;
        case None =>
      }
    }
  }

  class Channel {
    const epoller: Epoller
    const fd: int
    var events: Mask
    var polling: bool

    constructor (epoller: Epoller, fd: int)
      ensures this.epoller == epoller && this.fd == fd
      ensures events == {} && !polling
    {
      this.epoller := epoller;
      this.fd := fd;
      events := {};
      polling := false;
    }

    /** The polling flag and the kernel's entry for this descriptor both reflect the mask m. */
    ghost predicate Holds(m: Mask)
      reads this, epoller
    {
      && (polling <==> m != {})
      && (fd in epoller.interest <==> m != {})
      && (m != {} ==> epoller.interest[fd] == m)
    }

    ghost predicate Mirrored()
      reads this, epoller
    {
      Holds(events)
    }

    predicate IsReading()
      reads this
    {
      IN in events
    }

    predicate IsWriting()
      reads this
    {
      OUT in events
    }

    method Update(ghost was: Mask)
      requires Holds(was) && (was != {} || events != {})
      modifies epoller, `polling
      ensures Mirrored() && epoller.interest == Registered(old(epoller.interest), fd, events)
    {
      epoller.UpdateChannel(this);
    }

    method EnableRead()
      requires Mirrored()
      modifies this, epoller
      ensures events == ApplyMask(old(events), MaskOp.EnableRead) && Mirrored()
      ensures epoller.interest == Registered(old(epoller.interest), fd, events)
    {
      events := events + {IN, PRI};
      Update(old(events));
    }

    method EnableWrite()
      requires Mirrored()
      modifies this, epoller
      ensures events == ApplyMask(old(events), MaskOp.EnableWrite) && Mirrored()
      ensures epoller.interest == Registered(old(epoller.interest), fd, events)
    {
      events := events + {OUT};
      Update(old(events));
    }

    method DisableRead()
      requires Mirrored() && events != {}
      modifies this, epoller
      ensures events == ApplyMask(old(events), MaskOp.DisableRead) && Mirrored()
      ensures epoller.interest == Registered(old(epoller.interest), fd, events)
    {
      events := events - {IN};
      Update(old(events));
    }

    method DisableWrite()
      requires Mirrored() && events != {}
      modifies this, epoller
      ensures events == ApplyMask(old(events), MaskOp.DisableWrite) && Mirrored()
      ensures epoller.interest == Registered(old(epoller.interest), fd, events)
    {
      events := events - {OUT};
      Update(old(events));
    }

    method DisableAll()
      requires Mirrored() && events != {}
      modifies this, epoller
      ensures events == ApplyMask(old(events), MaskOp.DisableAll) && Mirrored()
      ensures epoller.interest == Registered(old(epoller.interest), fd, events)
    {
      events := {};
      Update(old(events));
    }
  }
}
