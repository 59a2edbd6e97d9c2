/** The invariants of the two pollers, and that both watch exactly what the channels want. */
module PollerProofs {
  import opened Prelude
  import opened PollerSpec

  // ----- poll -----

  /** The slot of a channel holds its fd, masked or not, and its mask. */
  predicate SlotMatches(fds: seq<PollFd>, ch: Chan) {
    0 <= ch.index < |fds| && fds[ch.index].fd == SlotFor(ch) && fds[ch.index].events == ch.events
  }

  /** Slot `i` is the slot of the channel registered under its fd. */
  predicate SlotOwned<C(==)>(chans: map<C, Chan>, channels: map<int, C>, fds: seq<PollFd>, i: int)
    requires 0 <= i < |fds|
  {
    var fd := Decode(fds[i].fd);
    fd in channels && channels[fd] in chans && chans[channels[fd]].index == i
  }

  /** `channels_` and `poll_fds_` are in bijection through the indexes, and the masks agree. */
  ghost predicate PollInv<C>(s: PollState<C>) {
    && Known(s.chans, s.channels)
    && (forall fd :: fd in s.channels ==> SlotMatches(s.fds, s.chans[s.channels[fd]]))
    && (forall i :: 0 <= i < |s.fds| ==> SlotOwned(s.chans, s.channels, s.fds, i))
  }

  /** When the poll back end may be told of a new mask: the channel is registered, or was never and wants something. */
  predicate PollLegal<C(==)>(s: PollState<C>, c: C, events: Mask) {
    && c in s.chans
    && (Registered(s.chans, s.channels, c)
        || (s.chans[c].index < 0 && s.chans[c].fd !in s.channels && events != NONE_EVENT))
  }

  lemma PollSetRegistered<C>(s: PollState<C>, c: C, events: Mask)
    requires PollInv(s) && Registered(s.chans, s.channels, c)
    ensures PollMayUpdate(s.(chans := WithEvents(s.chans, c, events)), c)
    ensures PollInv(PollSet(s, c, events))
  {
    var ch := s.chans[c];
    assert SlotMatches(s.fds, s.chans[s.channels[ch.fd]]);
    var s' := PollSet(s, c, events);
    forall fd | fd in s'.channels ensures SlotMatches(s'.fds, s'.chans[s'.channels[fd]]) {
      assert SlotMatches(s.fds, s.chans[s.channels[fd]]);
      if s.channels[fd] != c { assert s.chans[s.channels[fd]].index != ch.index; }
    }
    forall i | 0 <= i < |s'.fds| ensures SlotOwned(s'.chans, s'.channels, s'.fds, i) {
      assert SlotOwned(s.chans, s.channels, s.fds, i);
    }
  }

  lemma PollSetNew<C>(s: PollState<C>, c: C, events: Mask)
    requires PollInv(s) && c in s.chans && s.chans[c].index < 0 && s.chans[c].fd !in s.channels && events != NONE_EVENT
    ensures PollMayUpdate(s.(chans := WithEvents(s.chans, c, events)), c)
    ensures PollInv(PollSet(s, c, events))
  {
    var ch := s.chans[c];
    var s' := PollSet(s, c, events);
    forall fd | fd in s'.channels ensures SlotMatches(s'.fds, s'.chans[s'.channels[fd]]) {
      if fd != ch.fd {
        assert SlotMatches(s.fds, s.chans[s.channels[fd]]);
      }
    }
    forall i | 0 <= i < |s'.fds| ensures SlotOwned(s'.chans, s'.channels, s'.fds, i) {
      if i < |s.fds| { assert SlotOwned(s.chans, s.channels, s.fds, i); }
    }
  }

  /** Every assertion of `update_channel` holds, and it keeps the bijection. */
  lemma PollSetKeeps<C>(s: PollState<C>, c: C, events: Mask)
    requires PollInv(s) && PollLegal(s, c, events)
    ensures PollMayUpdate(s.(chans := WithEvents(s.chans, c, events)), c)
    ensures PollInv(PollSet(s, c, events))
  {
    if Registered(s.chans, s.channels, c) { PollSetRegistered(s, c, events); } else { PollSetNew(s, c, events); }
  }

  /** An updated channel has nothing to report until poll says so, and no other slot is touched. */
  lemma PollSetClears<C>(s: PollState<C>, c: C, events: Mask)
    requires PollInv(s) && PollLegal(s, c, events)
    ensures PollMayUpdate(s.(chans := WithEvents(s.chans, c, events)), c)
    ensures var s' := PollSet(s, c, events); var i := s'.chans[c].index;
            && 0 <= i < |s'.fds| && s'.fds[i].revents == 0
            && forall k :: 0 <= k < |s.fds| && k != i ==> k < |s'.fds| && s'.fds[k] == s.fds[k]
  {
    PollSetKeeps(s, c, events);
    if Registered(s.chans, s.channels, c) { assert SlotMatches(s.fds, s.chans[s.channels[s.chans[c].fd]]); }
  }

  lemma PollMayRemoveIdle<C>(s: PollState<C>, c: C)
    requires PollInv(s) && Registered(s.chans, s.channels, c) && s.chans[c].events == NONE_EVENT
    ensures PollMayRemove(s, c)
  {
    assert SlotMatches(s.fds, s.chans[s.channels[s.chans[c].fd]]);
  }

  /** The channel of the last slot, if it is not the removed one, is found, and is another. */
  lemma PollRemoveFinds<C>(s: PollState<C>, c: C)
    requires PollInv(s) && PollMayRemove(s, c)
    ensures var last := Decode(s.fds[|s.fds| - 1].fd);
            && last in s.channels && s.channels[last] in s.chans
            && (s.chans[c].index != |s.fds| - 1 ==> s.channels[last] != c && last != s.chans[c].fd)
  {
    assert SlotOwned(s.chans, s.channels, s.fds, |s.fds| - 1);
    assert SlotOwned(s.chans, s.channels, s.fds, s.chans[c].index);
  }

  /** The swap with the last slot keeps the bijection. */
  lemma PollRemoveKeeps<C>(s: PollState<C>, c: C)
    requires PollInv(s) && PollMayRemove(s, c)
    ensures PollInv(PollRemove(s, c))
  {
    var ch := s.chans[c];
    var i, n := ch.index, |s.fds| - 1;
    var s' := PollRemove(s, c);
    var last := Decode(s.fds[n].fd);
    assert SlotOwned(s.chans, s.channels, s.fds, n) && SlotOwned(s.chans, s.channels, s.fds, i);
    forall fd | fd in s'.channels ensures SlotMatches(s'.fds, s'.chans[s'.channels[fd]]) {
      var d := s.channels[fd];
      assert SlotMatches(s.fds, s.chans[d]);
      assert s.chans[d].index != i;
      if s.chans[d].index == n { assert fd == last; }
    }
    forall k | 0 <= k < n ensures SlotOwned(s'.chans, s'.channels, s'.fds, k) {
      assert SlotOwned(s.chans, s.channels, s.fds, k);
    }
  }

  lemma {:induction false} EventsAt(fds: seq<PollFd>, fd: int, i: int)
    requires 0 <= i < |fds| && fds[i].fd == fd && forall k :: i < k < |fds| ==> fds[k].fd != fd
    ensures EventsOf(fds, fd) == fds[i].events
  {
    if i < |fds| - 1 { EventsAt(fds[..|fds| - 1], fd, i); }
  }

  /** Poll watches exactly what the channels want. */
  lemma PollWatchesWanted<C>(s: PollState<C>)
    requires PollInv(s)
    ensures PollInterest(s.fds) == Wanted(s.chans, s.channels)
  {
    var interest, wanted := PollInterest(s.fds), Wanted(s.chans, s.channels);
    forall fd | fd in interest ensures fd in wanted && wanted[fd] == interest[fd] {
      var i :| 0 <= i < |s.fds| && s.fds[i].fd >= 0 && s.fds[i].fd == fd;
      assert SlotOwned(s.chans, s.channels, s.fds, i);
      assert SlotMatches(s.fds, s.chans[s.channels[fd]]);
      OneSlot(s, fd, i);
    }
    forall fd | fd in wanted ensures fd in interest {
      assert SlotMatches(s.fds, s.chans[s.channels[fd]]);
    }
  }

  lemma OneSlot<C>(s: PollState<C>, fd: int, i: int)
    requires PollInv(s) && 0 <= i < |s.fds| && s.fds[i].fd == fd && fd >= 0
    ensures EventsOf(s.fds, fd) == s.fds[i].events
  {
    assert SlotOwned(s.chans, s.channels, s.fds, i);
    forall k | i < k < |s.fds| ensures s.fds[k].fd != fd { assert SlotOwned(s.chans, s.channels, s.fds, k); }
    EventsAt(s.fds, fd, i);
  }

  /** When the assertions of `update_channel` hold. */
  lemma PollAcceptsExactly<C>(s: PollState<C>, c: C, events: Mask)
    requires PollInv(s) && c in s.chans
    ensures PollMayUpdate(s.(chans := WithEvents(s.chans, c, events)), c)
        <==> Registered(s.chans, s.channels, c) || (s.chans[c].index < 0 && s.chans[c].fd !in s.channels)
  {
    if Registered(s.chans, s.channels, c) { assert SlotMatches(s.fds, s.chans[s.channels[s.chans[c].fd]]); }
  }

  /** Removal leaves the channel's index as it was, so `update_channel` must never see that channel again. */
  lemma PollIndexGoesStale<C>(s: PollState<C>, c: C, events: Mask)
    requires PollInv(s) && PollMayRemove(s, c)
    ensures var s' := PollRemove(s, c);
            c in s'.chans && s'.chans[c].index >= 0 && !Registered(s'.chans, s'.channels, c)
            && !PollMayUpdate(s'.(chans := WithEvents(s'.chans, c, events)), c)
  {
  }

  /** A first registration with no events is not masked: `remove_channel` then fails its assertion, with any such mask and only then. */
  lemma PollFirstMaskMatters<C>(s: PollState<C>, c: C, events: Mask)
    requires PollInv(s) && c in s.chans && s.chans[c].index < 0 && s.chans[c].fd !in s.channels
    ensures PollMayUpdate(s.(chans := WithEvents(s.chans, c, events)), c)
    ensures PollInv(PollSet(s, c, events)) <==> events != NONE_EVENT
    ensures events == NONE_EVENT ==> !PollMayRemove(PollSet(s, c, events), c)
  {
    if events != NONE_EVENT {
      PollSetNew(s, c, events);
    } else {
      var s' := PollSet(s, c, events);
      assert !SlotMatches(s'.fds, s'.chans[s'.channels[s.chans[c].fd]]);
    }
  }

  // ----- epoll -----

  /** The kernel watches a registered channel exactly when it is marked added; a deleted one wants nothing. */
  predicate MarkedRight<C(==)>(kernel: map<int, Watch<C>>, c: C, ch: Chan) {
    || (ch.index == ADDED && ch.fd in kernel && kernel[ch.fd] == Watch(ch.events, c))
    || (ch.index == DELETED && ch.fd !in kernel && ch.events == NONE_EVENT)
  }

  ghost predicate EpollInv<C>(s: EpollState<C>) {
    && Known(s.chans, s.channels)
    && (forall fd :: fd in s.channels ==> MarkedRight(s.kernel, s.channels[fd], s.chans[s.channels[fd]]))
    && s.kernel.Keys <= s.channels.Keys
    && (forall c :: c in s.chans && !Registered(s.chans, s.channels, c) ==> s.chans[c].index == NEW)
  }

  predicate EpollLegal<C(==)>(s: EpollState<C>, c: C) {
    c in s.chans && (Registered(s.chans, s.channels, c) || s.chans[c].fd !in s.channels)
  }

  lemma EpollMaySet<C>(s: EpollState<C>, c: C, events: Mask)
    requires EpollInv(s) && EpollLegal(s, c)
    ensures EpollMayUpdate(s.(chans := WithEvents(s.chans, c, events)), c)
    ensures CtlSucceeds(s.kernel, UpdateOp(s.chans[c].(events := events)), s.chans[c].fd)
    ensures Registered(s.chans, s.channels, c) ==> MarkedRight(s.kernel, c, s.chans[c])
  {
    var ch := s.chans[c];
    if Registered(s.chans, s.channels, c) { assert MarkedRight(s.kernel, s.channels[ch.fd], s.chans[s.channels[ch.fd]]); }
  }

  /** The updated channel is marked right, and its entry of the kernel set is the only one that changed. */
  lemma EpollSetMarks<C>(s: EpollState<C>, c: C, events: Mask)
    requires EpollInv(s) && EpollLegal(s, c)
    ensures EpollMayUpdate(s.(chans := WithEvents(s.chans, c, events)), c)
    ensures var s' := EpollSet(s, c, events); var fd := s.chans[c].fd;
            && c in s'.chans && MarkedRight(s'.kernel, c, s'.chans[c])
            && s'.channels == s.channels[fd := c] && s'.chans == s.chans[c := s'.chans[c]] && s'.chans[c].fd == fd
            && (forall k :: k != fd ==> (k in s'.kernel <==> k in s.kernel) && (k in s.kernel ==> s'.kernel[k] == s.kernel[k]))
  {
    EpollMaySet(s, c, events);
  }

  /** Every assertion of `update_channel` holds, its `epoll_ctl` succeeds, and the marks stay right. */
  lemma EpollSetKeeps<C>(s: EpollState<C>, c: C, events: Mask)
    requires EpollInv(s) && EpollLegal(s, c)
    ensures EpollMayUpdate(s.(chans := WithEvents(s.chans, c, events)), c)
    ensures CtlSucceeds(s.kernel, UpdateOp(s.chans[c].(events := events)), s.chans[c].fd)
    ensures EpollInv(EpollSet(s, c, events))
  {
    hide EpollUpdate, EpollMayUpdate, Ctl;
    EpollMaySet(s, c, events);
    EpollSetMarks(s, c, events);
    var s' := EpollSet(s, c, events);
    forall fd | fd in s'.channels ensures MarkedRight(s'.kernel, s'.channels[fd], s'.chans[s'.channels[fd]]) {
      if fd != s.chans[c].fd { assert MarkedRight(s.kernel, s.channels[fd], s.chans[s.channels[fd]]); }
    }
    forall fd | fd in s'.kernel ensures fd in s'.channels {}
    forall d | d in s'.chans && !Registered(s'.chans, s'.channels, d) ensures s'.chans[d].index == NEW {
      assert d != c && d in s.chans && !Registered(s.chans, s.channels, d);
    }
  }

  lemma EpollRemoveKeeps<C>(s: EpollState<C>, c: C)
    requires EpollInv(s) && Registered(s.chans, s.channels, c) && s.chans[c].events == NONE_EVENT
    ensures EpollMayRemove(s, c) && (s.chans[c].index == ADDED ==> CtlSucceeds(s.kernel, Del, s.chans[c].fd))
    ensures EpollInv(EpollRemove(s, c))
  {
    var ch := s.chans[c];
    assert MarkedRight(s.kernel, s.channels[ch.fd], s.chans[s.channels[ch.fd]]);
    var s' := EpollRemove(s, c);
    forall fd | fd in s'.channels ensures MarkedRight(s'.kernel, s'.channels[fd], s'.chans[s'.channels[fd]]) {
      assert MarkedRight(s.kernel, s.channels[fd], s.chans[s.channels[fd]]);
    }
  }

  /** The kernel set is exactly the channels marked added, each under its own fd and mask. */
  lemma EpollKernelIsAdded<C>(s: EpollState<C>)
    requires EpollInv(s)
    ensures forall fd :: fd in s.kernel <==> fd in s.channels && s.chans[s.channels[fd]].index == ADDED
    ensures forall fd :: fd in s.kernel ==> s.kernel[fd] == Watch(s.chans[s.channels[fd]].events, s.channels[fd])
  {
    forall fd | fd in s.channels
      ensures fd in s.kernel <==> s.chans[s.channels[fd]].index == ADDED
      ensures fd in s.kernel ==> s.kernel[fd] == Watch(s.chans[s.channels[fd]].events, s.channels[fd])
    {
      assert MarkedRight(s.kernel, s.channels[fd], s.chans[s.channels[fd]]);
    }
    forall fd | fd in s.kernel ensures fd in s.channels {}
  }

  /** Epoll watches exactly what the channels want. */
  lemma EpollWatchesWanted<C>(s: EpollState<C>)
    requires EpollInv(s)
    ensures EpollInterest(s.kernel) == Wanted(s.chans, s.channels)
  {
    EpollKernelIsAdded(s);
    forall fd | fd in s.channels && s.chans[s.channels[fd]].events != NONE_EVENT ensures fd in s.kernel {
      assert MarkedRight(s.kernel, s.channels[fd], s.chans[s.channels[fd]]);
    }
    var interest, wanted := EpollInterest(s.kernel), Wanted(s.chans, s.channels);
    assert forall fd :: fd in interest ==> fd in wanted && wanted[fd] == interest[fd];
    assert forall fd :: fd in wanted ==> fd in interest;
  }

  // ----- what the loop is given to dispatch -----

  lemma {:induction false} ReadySlotsAscend(fds: seq<PollFd>, k: nat)
    requires k <= |fds|
    ensures forall i, j :: 0 <= i < j < |ReadySlots(fds, k)| ==> ReadySlots(fds, k)[i] < ReadySlots(fds, k)[j]
  {
    if k > 0 { ReadySlotsAscend(fds, k - 1); }
  }

  lemma ReadyAreRegistered<C>(s: PollState<C>)
    requires PollInv(s) && MaskedReportNone(s.fds)
    ensures ReadyFound(s.fds, s.channels)
    ensures forall i :: 0 <= i < |s.fds| && s.fds[i].revents > 0 ==>
                          s.channels[s.fds[i].fd] in s.chans && s.chans[s.channels[s.fds[i].fd]].index == i
  {
    forall i | 0 <= i < |s.fds| && s.fds[i].revents > 0
      ensures s.fds[i].fd in s.channels && s.channels[s.fds[i].fd] in s.chans && s.chans[s.channels[s.fds[i].fd]].index == i
    {
      assert SlotOwned(s.chans, s.channels, s.fds, i);
    }
  }

  /** Channel `c` has a slot that poll filled in. */
  predicate IsReady<C(==)>(s: PollState<C>, c: C) {
    Registered(s.chans, s.channels, c) && 0 <= s.chans[c].index < |s.fds| && s.fds[s.chans[c].index].revents > 0
  }

  lemma FirstReadyAt<C>(s: PollState<C>, n: nat, j: nat)
    requires PollInv(s) && MaskedReportNone(s.fds) && j < Min(n, |ReadySlots(s.fds, |s.fds|)|)
    ensures ReadyFound(s.fds, s.channels)
    ensures |FirstReady(s, n)| == Min(n, |ReadySlots(s.fds, |s.fds|)|)
    ensures var c := FirstReady(s, n)[j]; IsReady(s, c) && s.chans[c].index == ReadySlots(s.fds, |s.fds|)[j]
  {
    ReadyAreRegistered(s);
    ReadyChannelsAt(s.fds, s.channels, |s.fds|);
    var i := ReadySlots(s.fds, |s.fds|)[j];
    SlotReady(s.fds, |s.fds|, i);
    assert SlotOwned(s.chans, s.channels, s.fds, i);
  }

  /** The scan reports ready channels, each once; and it reports them all exactly when it is told of at least as many events. */
  lemma ScanReportsOnce<C>(s: PollState<C>, n: nat)
    requires PollInv(s) && MaskedReportNone(s.fds)
    ensures ReadyFound(s.fds, s.channels)
    ensures forall i, j :: 0 <= i < j < |FirstReady(s, n)| ==> FirstReady(s, n)[i] != FirstReady(s, n)[j]
    ensures forall c :: c in FirstReady(s, n) ==> IsReady(s, c)
    ensures (forall c :: IsReady(s, c) ==> c in FirstReady(s, n)) <==> n >= |ReadySlots(s.fds, |s.fds|)|
  {
    hide PollInv;
    ReadyAreRegistered(s);
    ReadyChannelsAt(s.fds, s.channels, |s.fds|);
    var slots := ReadySlots(s.fds, |s.fds|);
    var active := FirstReady(s, n);
    ReadySlotsAscend(s.fds, |s.fds|);
    forall i, j | 0 <= i < j < |active| ensures active[i] != active[j] {
      FirstReadyAt(s, n, i);
      FirstReadyAt(s, n, j);
    }
    forall c | c in active ensures IsReady(s, c) {
      var j :| 0 <= j < |active| && active[j] == c;
      FirstReadyAt(s, n, j);
    }
    if n >= |slots| {
      forall c | IsReady(s, c) ensures c in active { ReadyIsReported(s, n, c); }
    } else {
      FirstReadyAt(s, |slots|, n);
      var c := FirstReady(s, |slots|)[n];
      if c in active {
        var j :| 0 <= j < |active| && active[j] == c;
        FirstReadyAt(s, n, j);
      }
      assert IsReady(s, c) && c !in active;
    }
  }

  lemma ReadyIsReported<C>(s: PollState<C>, n: nat, c: C)
    requires PollInv(s) && MaskedReportNone(s.fds) && IsReady(s, c) && n >= |ReadySlots(s.fds, |s.fds|)|
    ensures ReadyFound(s.fds, s.channels)
    ensures c in FirstReady(s, n)
  {
    ReadyAreRegistered(s);
    ReadyChannelsAt(s.fds, s.channels, |s.fds|);
    var slots := ReadySlots(s.fds, |s.fds|);
    SlotReady(s.fds, |s.fds|, s.chans[c].index);
    var j :| 0 <= j < |slots| && slots[j] == s.chans[c].index;
    assert SlotMatches(s.fds, s.chans[s.channels[s.chans[c].fd]]);
    assert FirstReady(s, n)[j] == c;
  }

  /** A scan that has seen every slot, or as many events as it was told of, has seen the first of them. */
  lemma ScanIsFirst<C>(s: PollState<C>, i: nat, n: nat)
    requires ReadyFound(s.fds, s.channels) && i <= |s.fds|
    requires |ReadyChannels(s.fds, s.channels, i)| <= n
    requires i == |s.fds| || |ReadyChannels(s.fds, s.channels, i)| == n
    ensures ReadyChannels(s.fds, s.channels, i) == FirstReady(s, n)
  {
    PrefixOfReady(s.fds, s.channels, i, |s.fds|);
  }

  lemma {:induction false} PrefixOfReady<C>(fds: seq<PollFd>, channels: map<int, C>, k: nat, n: nat)
    requires k <= n <= |fds| && ReadyFound(fds, channels)
    ensures ReadyChannels(fds, channels, k) <= ReadyChannels(fds, channels, n)
  {
    if k < n { PrefixOfReady(fds, channels, k, n - 1); }
  }

  /** The scan goes through the slots in their order. */
  lemma ScanKeepsOrder<C>(s: PollState<C>, n: nat, i: nat, j: nat)
    requires PollInv(s) && MaskedReportNone(s.fds) && ReadyFound(s.fds, s.channels) && i < j < |FirstReady(s, n)|
    ensures FirstReady(s, n)[i] in s.chans && FirstReady(s, n)[j] in s.chans
    ensures s.chans[FirstReady(s, n)[i]].index < s.chans[FirstReady(s, n)[j]].index
  {
    hide PollInv;
    ReadyChannelsAt(s.fds, s.channels, |s.fds|);
    ReadySlotsAscend(s.fds, |s.fds|);
    FirstReadyAt(s, n, i);
    FirstReadyAt(s, n, j);
  }

  /** epoll's contract: it reports entries of the kernel set, each fd once. */
  ghost predicate EpollReports<C>(kernel: map<int, Watch<C>>, fds: seq<int>) {
    && (forall i :: 0 <= i < |fds| ==> fds[i] in kernel)
    && (forall i, j :: 0 <= i < j < |fds| ==> fds[i] != fds[j])
  }

  /** Whatever epoll reports is a registered channel, and no channel twice. */
  lemma EpollReportsRegistered<C>(s: EpollState<C>, fds: seq<int>)
    requires EpollInv(s) && EpollReports(s.kernel, fds)
    ensures forall i :: 0 <= i < |fds| ==> Registered(s.chans, s.channels, s.kernel[fds[i]].ch) && s.chans[s.kernel[fds[i]].ch].fd == fds[i]
    ensures forall i, j :: 0 <= i < j < |fds| ==> s.kernel[fds[i]].ch != s.kernel[fds[j]].ch
  {
    EpollKernelIsAdded(s);
    forall i | 0 <= i < |fds| ensures Registered(s.chans, s.channels, s.kernel[fds[i]].ch) && s.chans[s.kernel[fds[i]].ch].fd == fds[i] {
      var fd := fds[i];
      assert fd in s.kernel && fd in s.channels && s.kernel[fd].ch == s.channels[fd];
    }
  }

  // ----- over every trace -----

  datatype Op<C> = Set(c: C, op: MaskOp) | Remove(c: C)

  /** The two pollers have the same channels, with the same fds and masks; only their indexes differ. */
  ghost predicate Alike<C>(p: PollState<C>, e: EpollState<C>) {
    && p.channels == e.channels && p.chans.Keys == e.chans.Keys
    && forall c :: c in p.chans ==> p.chans[c].fd == e.chans[c].fd && p.chans[c].events == e.chans[c].events
  }

  /** Operations that the poll back end accepts; the epoll back end then accepts them too. */
  predicate Legal<C(==)>(p: PollState<C>, op: Op<C>) {
    match op
    case Set(c, m) => c in p.chans && PollLegal(p, c, Apply(m, p.chans[c].events))
    case Remove(c) => Registered(p.chans, p.channels, c) && p.chans[c].events == NONE_EVENT
  }

  ghost predicate Both<C>(p: PollState<C>, e: EpollState<C>) {
    PollInv(p) && EpollInv(e) && Alike(p, e)
  }

  ghost function PollStep<C>(p: PollState<C>, op: Op<C>): PollState<C>
    requires PollInv(p) && Legal(p, op)
  {
    match op
    case Set(c, m) => PollSetKeeps(p, c, Apply(m, p.chans[c].events)); PollSet(p, c, Apply(m, p.chans[c].events))
    case Remove(c) => PollMayRemoveIdle(p, c); PollRemove(p, c)
  }

  ghost function EpollStep<C>(e: EpollState<C>, op: Op<C>): EpollState<C>
    requires EpollInv(e)
    requires match op case Set(c, _) => EpollLegal(e, c) case Remove(c) => Registered(e.chans, e.channels, c) && e.chans[c].events == NONE_EVENT
  {
    match op
    case Set(c, m) => EpollSetKeeps(e, c, Apply(m, e.chans[c].events)); EpollSet(e, c, Apply(m, e.chans[c].events))
    case Remove(c) => EpollRemoveKeeps(e, c); EpollRemove(e, c)
  }

  /** Of the fields that the two pollers share, a change of mask changes the mask and registers the channel. */
  ghost predicate SetResult<C>(chans: map<C, Chan>, channels: map<int, C>, c: C, events: Mask, chans': map<C, Chan>, channels': map<int, C>)
    requires c in chans
  {
    && chans'.Keys == chans.Keys && channels' == channels[chans[c].fd := c]
    && (forall d :: d in chans' ==> chans'[d].fd == chans[d].fd && chans'[d].events == if d == c then events else chans[d].events)
  }

  lemma PollSetResult<C>(p: PollState<C>, c: C, events: Mask)
    requires PollInv(p) && PollLegal(p, c, events)
    ensures PollMayUpdate(p.(chans := WithEvents(p.chans, c, events)), c)
    ensures var p' := PollSet(p, c, events); SetResult(p.chans, p.channels, c, events, p'.chans, p'.channels)
  {
    hide SlotOwned;
    PollSetKeeps(p, c, events);
    if Registered(p.chans, p.channels, c) { assert SlotMatches(p.fds, p.chans[p.channels[p.chans[c].fd]]); }
  }

  lemma EpollSetResult<C>(e: EpollState<C>, c: C, events: Mask)
    requires c in e.chans && EpollMayUpdate(e.(chans := WithEvents(e.chans, c, events)), c)
    ensures var e' := EpollSet(e, c, events); SetResult(e.chans, e.channels, c, events, e'.chans, e'.channels)
  {
    hide Ctl, UpdateOp;
  }

  lemma SetShared<C>(p: PollState<C>, e: EpollState<C>, c: C, events: Mask)
    requires Both(p, e) && PollLegal(p, c, events)
    ensures EpollLegal(e, c)
    ensures PollMayUpdate(p.(chans := WithEvents(p.chans, c, events)), c)
    ensures EpollMayUpdate(e.(chans := WithEvents(e.chans, c, events)), c)
    ensures Alike(PollSet(p, c, events), EpollSet(e, c, events))
  {
    hide PollInv, EpollInv, PollMayUpdate, EpollMayUpdate, PollUpdate, EpollUpdate;
    assert p.chans[c].fd == e.chans[c].fd;
    PollSetResult(p, c, events);
    EpollSetKeeps(e, c, events);
    EpollSetResult(e, c, events);
  }

  lemma RemoveShared<C>(p: PollState<C>, e: EpollState<C>, c: C)
    requires Alike(p, e) && Known(p.chans, p.channels) && PollMayRemove(p, c) && EpollMayRemove(e, c)
    ensures Alike(PollRemove(p, c), EpollRemove(e, c))
  {
  }

  lemma {:induction false} StepAlike<C>(p: PollState<C>, e: EpollState<C>, op: Op<C>)
    requires Both(p, e) && Legal(p, op)
    ensures match op case Set(c, _) => EpollLegal(e, c) case Remove(c) => Registered(e.chans, e.channels, c) && e.chans[c].events == NONE_EVENT
    ensures Both(PollStep(p, op), EpollStep(e, op))
  {
    hide SlotMatches, SlotOwned, MarkedRight, PollUpdate, PollRemove, EpollUpdate, EpollRemove;
    match op
    case Set(c, m) =>
      assert p.chans[c].events == e.chans[c].events;
      PollSetKeeps(p, c, Apply(m, p.chans[c].events));
      SetShared(p, e, c, Apply(m, p.chans[c].events));
      EpollSetKeeps(e, c, Apply(m, e.chans[c].events));
    case Remove(c) =>
      assert p.chans[c].fd == e.chans[c].fd;
      PollMayRemoveIdle(p, c);
      PollRemoveKeeps(p, c);
      EpollRemoveKeeps(e, c);
      RemoveShared(p, e, c);
  }

  ghost predicate Reaches<C>(p: PollState<C>, e: EpollState<C>, ops: seq<Op<C>>, p': PollState<C>, e': EpollState<C>)
    requires Both(p, e)
    decreases |ops|
  {
    if ops == [] then p' == p && e' == e
    else
      Legal(p, ops[0]) && (StepAlike(p, e, ops[0]); Reaches(PollStep(p, ops[0]), EpollStep(e, ops[0]), ops[1..], p', e'))
  }

  /** After any legal trace the two pollers watch the same fds for the same events, namely what the channels want. */
  lemma {:induction false} PollersAgree<C>(p: PollState<C>, e: EpollState<C>, ops: seq<Op<C>>, p': PollState<C>, e': EpollState<C>)
    requires Both(p, e) && Reaches(p, e, ops, p', e')
    ensures Both(p', e')
    ensures PollInterest(p'.fds) == EpollInterest(e'.kernel) == Wanted(p'.chans, p'.channels)
    decreases |ops|
  {
    if ops == [] {
      BothWatch(p, e);
    } else {
      StepAlike(p, e, ops[0]);
      PollersAgree(PollStep(p, ops[0]), EpollStep(e, ops[0]), ops[1..], p', e');
    }
  }

  /** Two fresh pollers over the same unregistered channels are alike. */
  lemma FreshPollersAlike<C>(chans: map<C, Chan>)
    requires forall c :: c in chans ==> chans[c].fd >= 0 && chans[c].index == NEW
    ensures Both(PollState(chans, map[], []), EpollState(chans, map[], map[]))
  {
  }

  // ----- one operation -----

  /** After one operation on a channel both pollers watch its fd for its old mask with just the operation's bits changed, and every other fd as before. */
  lemma {:induction false} OneOperation<C>(p: PollState<C>, e: EpollState<C>, c: C, op: MaskOp, m: Mask)
    requires Both(p, e) && Legal(p, Set(c, op)) && MaskChanged(op, p.chans[c].events, m)
    ensures EpollLegal(e, c) && Both(PollStep(p, Set(c, op)), EpollStep(e, Set(c, op)))
    ensures PollInterest(PollStep(p, Set(c, op)).fds) == EpollInterest(EpollStep(e, Set(c, op)).kernel)
    ensures PollInterest(PollStep(p, Set(c, op)).fds) ==
            if m == 0 then PollInterest(p.fds) - {p.chans[c].fd} else PollInterest(p.fds)[p.chans[c].fd := m]
  {
    OneMask(op, p.chans[c].events, m);
    StepAlike(p, e, Set(c, op));
    SetWants(p, c, op);
    hide PollStep, EpollStep, Apply, MaskChanged, Legal, Wanted, PollInterest, EpollInterest;
    PollWatchesWanted(p);
    StepWatches(p, e, Set(c, op));
  }

  lemma StepWatches<C>(p: PollState<C>, e: EpollState<C>, op: Op<C>)
    requires Both(p, e) && Legal(p, op)
    requires match op case Set(c, _) => EpollLegal(e, c) case Remove(c) => Registered(e.chans, e.channels, c) && e.chans[c].events == NONE_EVENT
    ensures var p', e' := PollStep(p, op), EpollStep(e, op);
            PollInterest(p'.fds) == EpollInterest(e'.kernel) == Wanted(p'.chans, p'.channels)
  {
    hide PollStep, EpollStep, PollInv, EpollInv, Legal;
    StepAlike(p, e, op);
    BothWatch(PollStep(p, op), EpollStep(e, op));
  }

  lemma BothWatch<C>(p: PollState<C>, e: EpollState<C>)
    requires Both(p, e)
    ensures PollInterest(p.fds) == EpollInterest(e.kernel) == Wanted(p.chans, p.channels)
  {
    PollWatchesWanted(p);
    EpollWatchesWanted(e);
    hide PollInv, EpollInv;
    assert Wanted(p.chans, p.channels) == Wanted(e.chans, e.channels);
  }

  lemma SetWants<C>(p: PollState<C>, c: C, op: MaskOp)
    requires PollInv(p) && Legal(p, Set(c, op))
    ensures var p', m, fd := PollStep(p, Set(c, op)), Apply(op, p.chans[c].events), p.chans[c].fd;
            Wanted(p'.chans, p'.channels) == if m == 0 then Wanted(p.chans, p.channels) - {fd} else Wanted(p.chans, p.channels)[fd := m]
  {
    hide Apply, SlotOwned;
    var m := Apply(op, p.chans[c].events);
    PollSetKeeps(p, c, m);
    PollSetResult(p, c, m);
    hide PollUpdate, PollMayUpdate;
    WantedAfter(p, PollStep(p, Set(c, op)), c, m);
  }

  lemma WantedAfter<C>(p: PollState<C>, p': PollState<C>, c: C, m: Mask)
    requires Known(p.chans, p.channels) && Known(p'.chans, p'.channels)
    requires c in p.chans && SetResult(p.chans, p.channels, c, m, p'.chans, p'.channels)
    requires p.chans[c].fd in p.channels ==> p.channels[p.chans[c].fd] == c
    ensures var w, w', fd := Wanted(p.chans, p.channels), Wanted(p'.chans, p'.channels), p.chans[c].fd;
            w' == if m == 0 then w - {fd} else w[fd := m]
  {
    var w, w', fd := Wanted(p.chans, p.channels), Wanted(p'.chans, p'.channels), p.chans[c].fd;
    forall k | k in w' ensures if k == fd then m != 0 && w'[k] == m else k in w && w'[k] == w[k] {}
    forall k | k in w && k != fd ensures k in w' {}
    if m != 0 { assert fd in w'; }
  }

  // ----- what the loop sees of a poller -----

  /** Of either poller's registered channels, a change of mask adds the channel at most, and a removal takes it away, and only it. */
  lemma {:induction false} PollRegisters<C>(p: PollState<C>, c: C, events: Mask, d: C)
    requires PollInv(p)
    ensures PollLegal(p, c, events) ==>
              && PollMayUpdate(p.(chans := WithEvents(p.chans, c, events)), c)
              && var p' := PollSet(p, c, events); Registered(p'.chans, p'.channels, d) <==> d == c || Registered(p.chans, p.channels, d)
    ensures PollMayRemove(p, c) ==>
              var p' := PollRemove(p, c); Registered(p'.chans, p'.channels, d) <==> d != c && Registered(p.chans, p.channels, d)
  {
    hide SlotOwned, SlotMatches;
    if PollLegal(p, c, events) { PollSetResult(p, c, events); }
  }

  lemma {:induction false} EpollRegisters<C>(e: EpollState<C>, c: C, events: Mask, d: C)
    requires EpollInv(e)
    ensures EpollLegal(e, c) ==>
              && EpollMayUpdate(e.(chans := WithEvents(e.chans, c, events)), c)
              && var e' := EpollSet(e, c, events); Registered(e'.chans, e'.channels, d) <==> d == c || Registered(e.chans, e.channels, d)
    ensures EpollMayRemove(e, c) ==>
              var e' := EpollRemove(e, c); Registered(e'.chans, e'.channels, d) <==> d != c && Registered(e.chans, e.channels, d)
  {
    hide MarkedRight;
    if EpollLegal(e, c) {
      EpollMaySet(e, c, events);
      EpollSetResult(e, c, events);
    }
  }

  // ----- a removed channel of the poll back end -----

  /** It has an index, but no slot. */
  predicate Stale<C(==)>(p: PollState<C>, c: C) {
    c in p.chans && p.chans[c].index >= 0 && !Registered(p.chans, p.channels, c)
  }

  lemma {:induction false} StepKeepsStale<C>(p: PollState<C>, op: Op<C>, c: C)
    requires PollInv(p) && Legal(p, op) && Stale(p, c)
    ensures Stale(PollStep(p, op), c)
  {
    match op
    case Set(d, m) =>
      PollSetResult(p, d, Apply(m, p.chans[d].events));
      if d != c { PollSetSpares(p, d, Apply(m, p.chans[d].events), c); }
    case Remove(d) => PollMayRemoveIdle(p, d);
  }

  lemma PollSetSpares<C>(p: PollState<C>, d: C, events: Mask, c: C)
    requires d in p.chans && PollMayUpdate(p.(chans := WithEvents(p.chans, d, events)), d) && c in p.chans && c != d
    ensures c in PollSet(p, d, events).chans && PollSet(p, d, events).chans[c] == p.chans[c]
  {
  }

  /** Once removed, a channel is refused by `update_channel` after every legal trace, with whatever mask. */
  lemma {:induction false} StaleForEver<C>(p: PollState<C>, e: EpollState<C>, ops: seq<Op<C>>, p': PollState<C>, e': EpollState<C>, c: C, events: Mask)
    requires Both(p, e) && Reaches(p, e, ops, p', e') && Stale(p, c)
    ensures Stale(p', c) && !PollMayUpdate(p'.(chans := WithEvents(p'.chans, c, events)), c)
    decreases |ops|
  {
    hide Both, PollStep, EpollStep;
    if ops != [] {
      StepAlike(p, e, ops[0]);
      BothGivesPoll(p, e);
      StepKeepsStale(p, ops[0], c);
      StaleForEver(PollStep(p, ops[0]), EpollStep(e, ops[0]), ops[1..], p', e', c, events);
    }
  }

  lemma BothGivesPoll<C>(p: PollState<C>, e: EpollState<C>)
    requires Both(p, e)
    ensures PollInv(p) && EpollInv(e)
  {
  }

  /** So it is in every legal trace that begins with its removal. */
  lemma {:induction false} RemovedIsRefused<C>(p: PollState<C>, e: EpollState<C>, ops: seq<Op<C>>, p': PollState<C>, e': EpollState<C>, c: C, events: Mask)
    requires Both(p, e) && Reaches(p, e, ops, p', e') && ops != [] && ops[0] == Remove(c)
    ensures c in p'.chans && !PollMayUpdate(p'.(chans := WithEvents(p'.chans, c, events)), c)
  {
    StepAlike(p, e, ops[0]);
    PollMayRemoveIdle(p, c);
    PollIndexGoesStale(p, c, events);
    hide Both, PollMayUpdate;
    StaleForEver(PollStep(p, ops[0]), EpollStep(e, ops[0]), ops[1..], p', e', c, events);
  }

  /** The epoll back end takes a removed channel back. */
  lemma EpollTakesBack<C>(e: EpollState<C>, c: C)
    requires EpollMayRemove(e, c)
    ensures EpollLegal(EpollRemove(e, c), c)
  {
  }
}
