/**
 The pollers with their fields updated in place, over channels shared with their owners.
 `Change` is a channel's `enable_*` or `disable_*`: the mask changes, then the poller is told.
 The channels' fields that a poller sees, its own fields and the kernel set make up `Value()`.
 */
module Pollers {
  import opened PollerSpec
  import opened PollerProofs

  class Channel {
    const fd: int
    var events: Mask
    var revents: nat
    var index: int

    constructor (fd: int)
      ensures this.fd == fd && events == NONE_EVENT && revents == 0 && index == NEW
    {
      this.fd, events, revents, index := fd, NONE_EVENT, 0, NEW;
    }

    /** `enable_reading` and its like, up to the update. */
    method ChangeMask(op: MaskOp)
      modifies this`events
      ensures events == Apply(op, old(events)) && MaskChanged(op, old(events), events)
    {
      ApplyChangesMask(op, events);
      hide Apply, MaskChanged;
      events := Apply(op, events);
    }

    ghost function Value(): Chan
      reads this
    {
      Chan(fd, events, index)
    }
  }

  ghost function Values(known: set<Channel>): map<Channel, Chan>
    reads known
  {
    map c | c in known :: c.Value()
  }

  class PollPoller {
    var channels: map<int, Channel>
    var pollFds: seq<PollFd>
    ghost var known: set<Channel>  // every channel that any call may be about

    ghost function Value(): PollState<Channel>
      reads this, known
    {
      PollState(Values(known), channels, pollFds)
    }

    constructor (ghost known: set<Channel>)
      requires forall c <- known :: c.fd >= 0 && c.index == NEW
      ensures this.known == known && Value() == PollState(Values(known), map[], []) && PollInv(Value())
    {
      this.channels, this.pollFds, this.known := map[], [], known;
    }

    method UpdateChannel(channel: Channel)
      requires channel in known && PollMayUpdate(Value(), channel)
      modifies this`channels, this`pollFds, channel`index
      ensures Value() == PollUpdate(old(Value()), channel)
    {
      if channel.index < 0 {
        pollFds := pollFds + [PollFd(channel.fd, channel.events, 0)];
        channel.index := |pollFds| - 1;
        channels := channels[channel.fd := channel];
      } else {
        var pfd := PollFd(channel.fd, channel.events, 0);
        if channel.events == NONE_EVENT {
          pfd := pfd.(fd := -channel.fd - 1);
        }
        pollFds := pollFds[channel.index := pfd];
      }
    }

    method Change(channel: Channel, op: MaskOp)
      requires channel in known && PollInv(Value()) && PollLegal(Value(), channel, Apply(op, channel.events))
      modifies this`channels, this`pollFds, channel`events, channel`index
      ensures PollMayUpdate(old(Value()).(chans := WithEvents(old(Value()).chans, channel, Apply(op, old(channel.events)))), channel)
      ensures Value() == PollSet(old(Value()), channel, Apply(op, old(channel.events)))
      ensures PollInv(Value()) && MaskChanged(op, old(channel.events), channel.events)
    {
      hide Apply, MaskChanged;
      PollSetKeeps(Value(), channel, Apply(op, channel.events));
      ghost var told := Value().(chans := WithEvents(Value().chans, channel, Apply(op, channel.events)));
      channel.ChangeMask(op);
      assert Value() == told;
      UpdateChannel(channel);
    }

    method RemoveChannel(channel: Channel)
      requires channel in known && PollInv(Value()) && Registered(Value().chans, channels, channel) && channel.events == NONE_EVENT
      modifies this`channels, this`pollFds, known`index
      ensures PollMayRemove(old(Value()), channel) && Value() == PollRemove(old(Value()), channel)
      ensures PollInv(Value())
    {
      PollMayRemoveIdle(Value(), channel);
      PollRemoveKeeps(Value(), channel);
      ghost var before := Value();
      PollRemoveFinds(before, channel);
      hide PollInv;
      var index, n := channel.index, |pollFds| - 1;
      channels := channels - {channel.fd};
      if index != n {
        var atEnd := pollFds[n].fd;
        pollFds := pollFds[index := pollFds[n]][n := pollFds[index]];
        if atEnd < 0 {
          atEnd := -atEnd - 1;
        }
        channels[atEnd].index := index;
      }
      pollFds := pollFds[..n];
      assert Value().fds == PollRemove(before, channel).fds;
      assert Value().chans == PollRemove(before, channel).chans;
    }

    /** `set_revents`: no field that a poller goes by changes. */
    method SetRevents(channel: Channel, revents: nat)
      modifies channel`revents
      ensures channel.revents == revents && Values(known) == old(Values(known))
    {
      channel.revents := revents;
    }

    /** `::poll` has filled in the slots and returned `numEvents`; the scan stops when it has seen so many. */
    method FillActiveChannels(numEvents: nat) returns (active: seq<Channel>)
      requires PollInv(Value()) && MaskedReportNone(pollFds)
      modifies known`revents
      ensures Value() == old(Value())
      ensures ReadyFound(pollFds, channels) && active == FirstReady(Value(), numEvents)
      ensures forall c <- active :: c in known && 0 <= Value().chans[c].index < |pollFds| && c.revents == pollFds[Value().chans[c].index].revents
    {
      hide PollInv, MaskedReportNone, ReadySlots, FirstReady;
      active := [];
      var left, i := numEvents, 0;
      ReadyAreRegistered(Value());
      ghost var state := Value();
      while i < |pollFds| && left > 0
        invariant 0 <= i <= |pollFds| && Value() == state
        invariant |active| + left == numEvents && active == ReadyChannels(pollFds, channels, i)
        invariant forall c <- active :: c in known && 0 <= state.chans[c].index < i && c.revents == pollFds[state.chans[c].index].revents
      {
        if pollFds[i].revents > 0 {
          left := left - 1;
          var channel := channels[pollFds[i].fd];
          SetRevents(channel, pollFds[i].revents);
          active := active + [channel];
        }
        i := i + 1;
      }
      ScanIsFirst(state, i, numEvents);
    }
  }

  class EpollPoller {
    var channels: map<int, Channel>
    var kernel: map<int, Watch<Channel>>  // the interest list behind epoll_fd_
    ghost var known: set<Channel>

    ghost function Value(): EpollState<Channel>
      reads this, known
    {
      EpollState(Values(known), channels, kernel)
    }

    constructor (ghost known: set<Channel>)
      requires forall c <- known :: c.fd >= 0 && c.index == NEW
      ensures this.known == known && Value() == EpollState(Values(known), map[], map[]) && EpollInv(Value())
    {
      this.channels, this.kernel, this.known := map[], map[], known;
    }

    /** `epoll_ctl`: a failed DEL is logged, and a failed ADD or MOD ends the process. */
    method Update(op: CtlOp, channel: Channel) returns (alive: bool)
      modifies this`kernel
      ensures kernel == Ctl(old(kernel), op, channel.fd, Watch(channel.events, channel))
      ensures alive <==> op == Del || CtlSucceeds(old(kernel), op, channel.fd)
    {
      var fd := channel.fd;
      var failed := if op == Add then fd in kernel else fd !in kernel;
      if !failed {
        kernel := if op == Del then kernel - {fd} else kernel[fd := Watch(channel.events, channel)];
      }
      alive := !failed || op == Del;
    }

    method UpdateChannel(channel: Channel) returns (alive: bool)
      requires channel in known && EpollMayUpdate(Value(), channel)
      modifies this`channels, this`kernel, channel`index
      ensures Value() == EpollUpdate(old(Value()), channel)
      ensures var op := UpdateOp(old(Value()).chans[channel]); alive <==> op == Del || CtlSucceeds(old(kernel), op, channel.fd)
    {
      var index := channel.index;
      if index == NEW || index == DELETED {
        channels := channels[channel.fd := channel];
        channel.index := ADDED;
        alive := Update(Add, channel);
      } else if channel.events == NONE_EVENT {
        alive := Update(Del, channel);
        channel.index := DELETED;
      } else {
        alive := Update(Mod, channel);
      }
      assert Value().channels == EpollUpdate(old(Value()), channel).channels;
      assert Value().chans == EpollUpdate(old(Value()), channel).chans;
    }

    method Change(channel: Channel, op: MaskOp) returns (alive: bool)
      requires channel in known && EpollInv(Value()) && EpollLegal(Value(), channel)
      modifies this`channels, this`kernel, channel`events, channel`index
      ensures EpollMayUpdate(old(Value()).(chans := WithEvents(old(Value()).chans, channel, Apply(op, old(channel.events)))), channel)
      ensures Value() == EpollSet(old(Value()), channel, Apply(op, old(channel.events)))
      ensures EpollInv(Value()) && alive && MaskChanged(op, old(channel.events), channel.events)
    {
      hide Apply, MaskChanged;
      hide EpollInv, EpollLegal, EpollUpdate, CtlSucceeds, Ctl;
      EpollSetKeeps(Value(), channel, Apply(op, channel.events));
      ghost var told := Value().(chans := WithEvents(Value().chans, channel, Apply(op, channel.events)));
      channel.ChangeMask(op);
      assert Value() == told;
      alive := UpdateChannel(channel);
    }

    method RemoveChannel(channel: Channel)
      requires channel in known && EpollInv(Value()) && Registered(Value().chans, channels, channel) && channel.events == NONE_EVENT
      modifies this`channels, this`kernel, channel`index
      ensures EpollMayRemove(old(Value()), channel) && Value() == EpollRemove(old(Value()), channel)
      ensures EpollInv(Value())
    {
      EpollRemoveKeeps(Value(), channel);
      ghost var before := Value();
      var index := channel.index;
      channels := channels - {channel.fd};
      if index == ADDED {
        var _ := Update(Del, channel);
      }
      channel.index := NEW;
      assert Value().chans == EpollRemove(before, channel).chans;
    }

    /** `epoll_wait` has reported the kernel's entries for `fds`, with these events. */
    method FillActiveChannels(fds: seq<int>, revents: seq<nat>) returns (active: seq<Channel>)
      requires EpollInv(Value()) && EpollReports(kernel, fds) && |revents| == |fds|
      modifies known`revents
      ensures Value() == old(Value())
      ensures |active| == |fds| && forall i :: 0 <= i < |fds| ==> active[i] == channels[fds[i]] && active[i].revents == revents[i]
    {
      active := [];
      EpollKernelIsAdded(Value());
      ghost var state := Value();
      var i := 0;
      while i < |fds|
        invariant 0 <= i <= |fds| && |active| == i && Value() == state
        invariant forall j :: 0 <= j < i ==> fds[j] in channels && active[j] == channels[fds[j]] && active[j].fd == fds[j] && active[j].revents == revents[j]
      {
        var fd := fds[i];
        assert fd in kernel && fd in channels && channels[fd] in known;
        var channel := kernel[fd].ch;
        channel.revents := revents[i];
        active := active + [channel];
        i := i + 1;
      }
    }
  }
}
