/**
 The two pollers (src/net/poller/poll_poller_t.cpp, src/net/poller/epoll_poller_t.cpp) and the
 channel operations that drive them (src/net/channel_t.h), on values: `C` identifies a channel.
 */
module PollerSpec {
  import opened Prelude

  // ----- channels -----

  type Mask = bv16

  const NONE_EVENT: Mask := 0
  const READ_EVENT: Mask := 3    // POLLIN | POLLPRI
  const WRITE_EVENT: Mask := 4   // POLLOUT

  datatype MaskOp = EnableReading | DisableReading | EnableWriting | DisableWriting | DisableAll

  function Apply(op: MaskOp, events: Mask): Mask {
    match op
    case EnableReading => events | READ_EVENT
    case DisableReading => events & !READ_EVENT
    case EnableWriting => events | WRITE_EVENT
    case DisableWriting => events & !WRITE_EVENT
    case DisableAll => NONE_EVENT
  }

  // The bits of poll's events.
  const POLLIN: Mask := 1
  const POLLPRI: Mask := 2
  const POLLOUT: Mask := 4

  /** What an operation is for, bit by bit: reading asks for input and priority input, writing for output. */
  predicate MaskChanged(op: MaskOp, before: Mask, after: Mask) {
    match op
    case EnableReading => after & POLLIN != 0 && after & POLLPRI != 0 && after & 0xFFFC == before & 0xFFFC
    case DisableReading => after & POLLIN == 0 && after & POLLPRI == 0 && after & 0xFFFC == before & 0xFFFC
    case EnableWriting => after & POLLOUT != 0 && after & 0xFFFB == before & 0xFFFB
    case DisableWriting => after & POLLOUT == 0 && after & 0xFFFB == before & 0xFFFB
    case DisableAll => after == 0
  }

  lemma ReadingOnBits(e: Mask)
    ensures (e | READ_EVENT) & POLLIN != 0 && (e | READ_EVENT) & POLLPRI != 0 && (e | READ_EVENT) & 0xFFFC == e & 0xFFFC
  {
  }

  lemma ReadingOn(e: Mask)
    ensures MaskChanged(EnableReading, e, e | READ_EVENT)
  {
    ReadingOnBits(e);
  }

  lemma ReadingOnOnly(e: Mask, m: Mask)
    requires m & POLLIN != 0 && m & POLLPRI != 0 && m & 0xFFFC == e & 0xFFFC
    ensures m == e | READ_EVENT
  {
  }

  lemma ReadingOffBits(e: Mask)
    ensures (e & !READ_EVENT) & POLLIN == 0 && (e & !READ_EVENT) & POLLPRI == 0 && (e & !READ_EVENT) & 0xFFFC == e & 0xFFFC
  {
  }

  lemma ReadingOff(e: Mask)
    ensures MaskChanged(DisableReading, e, e & !READ_EVENT)
  {
    ReadingOffBits(e);
  }

  lemma ReadingOffOnly(e: Mask, m: Mask)
    requires m & POLLIN == 0 && m & POLLPRI == 0 && m & 0xFFFC == e & 0xFFFC
    ensures m == e & !READ_EVENT
  {
  }

  lemma WritingOnBits(e: Mask)
    ensures (e | WRITE_EVENT) & POLLOUT != 0 && (e | WRITE_EVENT) & 0xFFFB == e & 0xFFFB
  {
  }

  lemma WritingOn(e: Mask)
    ensures MaskChanged(EnableWriting, e, e | WRITE_EVENT)
  {
    WritingOnBits(e);
  }

  lemma WritingOnOnly(e: Mask, m: Mask)
    requires m & POLLOUT != 0 && m & 0xFFFB == e & 0xFFFB
    ensures m == e | WRITE_EVENT
  {
  }

  lemma WritingOffBits(e: Mask)
    ensures (e & !WRITE_EVENT) & POLLOUT == 0 && (e & !WRITE_EVENT) & 0xFFFB == e & 0xFFFB
  {
  }

  lemma WritingOff(e: Mask)
    ensures MaskChanged(DisableWriting, e, e & !WRITE_EVENT)
  {
    WritingOffBits(e);
  }

  lemma WritingOffOnly(e: Mask, m: Mask)
    requires m & POLLOUT == 0 && m & 0xFFFB == e & 0xFFFB
    ensures m == e & !WRITE_EVENT
  {
  }

  lemma NothingOn(e: Mask)
    ensures MaskChanged(DisableAll, e, NONE_EVENT)
  {
  }

  /** The mask operations set and clear just those bits. */
  lemma ApplyChangesMask(op: MaskOp, events: Mask)
    ensures MaskChanged(op, events, Apply(op, events))
  {
    NothingOn(events);
    hide MaskChanged;
    match op
    case EnableReading => ReadingOn(events);
    case DisableReading => ReadingOff(events);
    case EnableWriting => WritingOn(events);
    case DisableWriting => WritingOff(events);
    case DisableAll =>
  }

  lemma OneMask(op: MaskOp, events: Mask, m: Mask)
    requires MaskChanged(op, events, m)
    ensures m == Apply(op, events)
  {
    match op
    case EnableReading => ReadingOnOnly(events, m);
    case DisableReading => ReadingOffOnly(events, m);
    case EnableWriting => WritingOnOnly(events, m);
    case DisableWriting => WritingOffOnly(events, m);
    case DisableAll =>
  }

  /** The fields of a channel that a poller reads and writes. */
  datatype Chan = Chan(fd: int, events: Mask, index: int)

  const NEW: int := -1
  const ADDED: int := 1
  const DELETED: int := 2

  /** fd to mask, for the channels that ask for some event: what a poller is for. */
  function Wanted<C(==)>(chans: map<C, Chan>, channels: map<int, C>): map<int, Mask> {
    map fd | fd in channels && channels[fd] in chans && chans[channels[fd]].events != NONE_EVENT :: chans[channels[fd]].events
  }

  /** The channels of the map are known, under their own fd, which is not negative. */
  ghost predicate Known<C>(chans: map<C, Chan>, channels: map<int, C>) {
    && (forall c :: c in chans ==> chans[c].fd >= 0)
    && (forall fd :: fd in channels ==> channels[fd] in chans && chans[channels[fd]].fd == fd)
  }

  predicate Registered<C(==)>(chans: map<C, Chan>, channels: map<int, C>, c: C) {
    c in chans && chans[c].fd in channels && channels[chans[c].fd] == c
  }

  function WithEvents<C>(chans: map<C, Chan>, c: C, events: Mask): map<C, Chan>
    requires c in chans
  {
    chans[c := chans[c].(events := events)]
  }

  // ----- poll -----

  datatype PollFd = PollFd(fd: int, events: Mask, revents: nat)

  datatype PollState<C> = PollState(chans: map<C, Chan>, channels: map<int, C>, fds: seq<PollFd>)

  /** The fd of a slot, whether or not `-fd - 1` masks it. */
  function Decode(fd: int): int { if fd < 0 then -fd - 1 else fd }

  /** A slot that poll ignores has a negative fd. */
  function SlotFor(ch: Chan): int { if ch.events == NONE_EVENT then -ch.fd - 1 else ch.fd }

  /** The assertions of `update_channel`. */
  predicate PollMayUpdate<C(==)>(s: PollState<C>, c: C) {
    && c in s.chans
    && (if s.chans[c].index < 0 then s.chans[c].fd !in s.channels
        else
          && Registered(s.chans, s.channels, c)
          && s.chans[c].index < |s.fds|
          && Decode(s.fds[s.chans[c].index].fd) == s.chans[c].fd)
  }

  function PollUpdate<C>(s: PollState<C>, c: C): PollState<C>
    requires PollMayUpdate(s, c)
  {
    var ch := s.chans[c];
    if ch.index < 0 then
      PollState(s.chans[c := ch.(index := |s.fds|)], s.channels[ch.fd := c], s.fds + [PollFd(ch.fd, ch.events, 0)])
    else
      s.(fds := s.fds[ch.index := PollFd(SlotFor(ch), ch.events, 0)])
  }

  /** The assertions of `remove_channel`. */
  predicate PollMayRemove<C(==)>(s: PollState<C>, c: C) {
    && Registered(s.chans, s.channels, c)
    && s.chans[c].events == NONE_EVENT
    && 0 <= s.chans[c].index < |s.fds|
    && s.fds[s.chans[c].index].fd == -s.chans[c].fd - 1
    && s.fds[s.chans[c].index].events == s.chans[c].events
  }

  /** The channel whose slot is last, when it is found, is moved into the freed slot. */
  function PollRemove<C>(s: PollState<C>, c: C): PollState<C>
    requires PollMayRemove(s, c)
  {
    var i, n := s.chans[c].index, |s.fds| - 1;
    var channels := s.channels - {s.chans[c].fd};
    if i == n then PollState(s.chans, channels, s.fds[..n])
    else
      var last := Decode(s.fds[n].fd);
      var chans := if last in channels && channels[last] in s.chans
                   then s.chans[channels[last] := s.chans[channels[last]].(index := i)] else s.chans;
      PollState(chans, channels, s.fds[i := s.fds[n]][..n])
  }

  /** A channel operation: its mask changes, then the poller is told. */
  function PollSet<C>(s: PollState<C>, c: C, events: Mask): PollState<C>
    requires c in s.chans && PollMayUpdate(s.(chans := WithEvents(s.chans, c, events)), c)
  {
    PollUpdate(s.(chans := WithEvents(s.chans, c, events)), c)
  }

  /** What the kernel is asked to watch: the slots that are not masked. */
  function PollInterest(fds: seq<PollFd>): map<int, Mask> {
    map fd | fd in (set i | 0 <= i < |fds| && fds[i].fd >= 0 :: fds[i].fd) :: EventsOf(fds, fd)
  }

  function EventsOf(fds: seq<PollFd>, fd: int): Mask {
    if fds == [] then NONE_EVENT else if fds[|fds| - 1].fd == fd then fds[|fds| - 1].events else EventsOf(fds[..|fds| - 1], fd)
  }

  /** The slots below `k` that poll filled in, in order. */
  function ReadySlots(fds: seq<PollFd>, k: nat): (r: seq<int>)
    requires k <= |fds|
    ensures forall j :: 0 <= j < |r| ==> 0 <= r[j] < k
  {
    if k == 0 then [] else ReadySlots(fds, k - 1) + (if fds[k - 1].revents > 0 then [k - 1] else [])
  }

  /** poll's contract: a masked slot reports nothing. */
  predicate MaskedReportNone(fds: seq<PollFd>) {
    forall i :: 0 <= i < |fds| && fds[i].fd < 0 ==> fds[i].revents == 0
  }

  /** Every slot that poll filled in has a channel. */
  predicate ReadyFound<C>(fds: seq<PollFd>, channels: map<int, C>) {
    forall i :: 0 <= i < |fds| && fds[i].revents > 0 ==> fds[i].fd in channels
  }

  /** The channels of the ready slots below `k`, in order. */
  function ReadyChannels<C>(fds: seq<PollFd>, channels: map<int, C>, k: nat): (r: seq<C>)
    requires k <= |fds| && ReadyFound(fds, channels)
  {
    if k == 0 then []
    else ReadyChannels(fds, channels, k - 1) + (if fds[k - 1].revents > 0 then [channels[fds[k - 1].fd]] else [])
  }

  lemma {:induction false} ReadyChannelsAt<C>(fds: seq<PollFd>, channels: map<int, C>, k: nat)
    requires k <= |fds| && ReadyFound(fds, channels)
    ensures |ReadyChannels(fds, channels, k)| == |ReadySlots(fds, k)|
    ensures forall j :: 0 <= j < |ReadySlots(fds, k)| ==>
              fds[ReadySlots(fds, k)[j]].fd in channels && ReadyChannels(fds, channels, k)[j] == channels[fds[ReadySlots(fds, k)[j]].fd]
  {
    if k > 0 {
      ReadyChannelsAt(fds, channels, k - 1);
      var slots, before := ReadySlots(fds, k), ReadySlots(fds, k - 1);
      forall j | 0 <= j < |slots| ensures fds[slots[j]].fd in channels && ReadyChannels(fds, channels, k)[j] == channels[fds[slots[j]].fd] {
        if j < |before| { assert slots[j] == before[j]; } else { assert slots[j] == k - 1; }
      }
    }
  }

  /** The channels of the first `n` ready slots, or of all when there are fewer. */
  function FirstReady<C>(s: PollState<C>, n: nat): seq<C>
    requires ReadyFound(s.fds, s.channels)
  {
    var r := ReadyChannels(s.fds, s.channels, |s.fds|);
    r[..Min(n, |r|)]
  }

  lemma {:induction false} SlotReady(fds: seq<PollFd>, k: nat, i: int)
    requires k <= |fds|
    ensures i in ReadySlots(fds, k) <==> 0 <= i < k && fds[i].revents > 0
  {
    if k > 0 { SlotReady(fds, k - 1, i); }
  }

  // ----- epoll -----

  datatype Watch<C> = Watch(events: Mask, ch: C)

  datatype CtlOp = Add | Mod | Del

  datatype EpollState<C> = EpollState(chans: map<C, Chan>, channels: map<int, C>, kernel: map<int, Watch<C>>)

  /** When `epoll_ctl` succeeds. */
  predicate CtlSucceeds<C>(kernel: map<int, Watch<C>>, op: CtlOp, fd: int) {
    if op == Add then fd !in kernel else fd in kernel
  }

  function Ctl<C>(kernel: map<int, Watch<C>>, op: CtlOp, fd: int, w: Watch<C>): map<int, Watch<C>> {
    if !CtlSucceeds(kernel, op, fd) then kernel
    else if op == Del then kernel - {fd}
    else kernel[fd := w]
  }

  /** The assertions of `update_channel`; for a deleted channel the one on its identity is an assignment. */
  predicate EpollMayUpdate<C(==)>(s: EpollState<C>, c: C) {
    && c in s.chans
    && (if s.chans[c].index == NEW then s.chans[c].fd !in s.channels
        else if s.chans[c].index == DELETED then s.chans[c].fd in s.channels
        else Registered(s.chans, s.channels, c) && s.chans[c].index == ADDED)
  }

  /** The operation that `update_channel` hands to `epoll_ctl`. */
  function UpdateOp(ch: Chan): CtlOp {
    if ch.index == NEW || ch.index == DELETED then Add else if ch.events == NONE_EVENT then Del else Mod
  }

  function EpollUpdate<C>(s: EpollState<C>, c: C): EpollState<C>
    requires EpollMayUpdate(s, c)
  {
    var ch := s.chans[c];
    var op := UpdateOp(ch);
    EpollState(s.chans[c := ch.(index := if op == Del then DELETED else ADDED)], s.channels[ch.fd := c],
               Ctl(s.kernel, op, ch.fd, Watch(ch.events, c)))
  }

  predicate EpollMayRemove<C(==)>(s: EpollState<C>, c: C) {
    Registered(s.chans, s.channels, c) && s.chans[c].events == NONE_EVENT && s.chans[c].index in {ADDED, DELETED}
  }

  function EpollRemove<C>(s: EpollState<C>, c: C): EpollState<C>
    requires EpollMayRemove(s, c)
  {
    var ch := s.chans[c];
    EpollState(s.chans[c := ch.(index := NEW)], s.channels - {ch.fd},
               if ch.index == ADDED then Ctl(s.kernel, Del, ch.fd, Watch(ch.events, c)) else s.kernel)
  }

  function EpollSet<C>(s: EpollState<C>, c: C, events: Mask): EpollState<C>
    requires c in s.chans && EpollMayUpdate(s.(chans := WithEvents(s.chans, c, events)), c)
  {
    EpollUpdate(s.(chans := WithEvents(s.chans, c, events)), c)
  }

  /** What the kernel set asks for beyond the errors it always reports. */
  function EpollInterest<C>(kernel: map<int, Watch<C>>): map<int, Mask> {
    map fd | fd in kernel && kernel[fd].events != NONE_EVENT :: kernel[fd].events
  }
}
