/**
 Timers (src/net/timer_t.h, src/net/timer_t.cpp), the ordered set of
 (expiration, pointer) keys that indexes them, and the timerfd that wakes the loop.
 Times are microseconds on one clock; an address is a machine word.
 */
module Timers {
  import opened Prelude

  const UINTPTR_MAX: int := 0xFFFF_FFFF_FFFF_FFFF
  const MICROS_PER_SECOND: int := 1_000_000
  const MIN_DELAY: int := 100

  // ----- timer_t -----

  datatype Timer = Timer(expiration: int, interval: real, sequence: int) {
    predicate Repeat() { interval > 0.0 }

    /** The interval in whole microseconds, as `add_time` truncates it. */
    function Period(): (p: int)
      ensures Repeat() ==> p >= 0
    {
      (interval * (MICROS_PER_SECOND as real)).Floor
    }

    function Restart(now: int): Timer {
      this.(expiration := if Repeat() then now + Period() else 0)
    }
  }

  /** A repeating timer expires next when its interval is over, to the microsecond; any other is made invalid. */
  lemma RestartAddsInterval(t: Timer, now: int)
    ensures t.interval > 0.0 ==>
              var d := t.Restart(now).expiration - now; d as real <= t.interval * 1_000_000.0 < (d + 1) as real
    ensures t.interval <= 0.0 ==> t.Restart(now).expiration == 0
    ensures t.Restart(now).interval == t.interval && t.Restart(now).sequence == t.sequence
  {
  }

  /** What a `timer_id_t` and a member of `active_timers_` both hold. */
  datatype Id = Id(addr: int, sequence: int)

  // ----- timer_list_t: std::set<std::pair<timestamp, timer_t*>> -----

  datatype Entry = Entry(when: int, addr: int)

  predicate Less(a: Entry, b: Entry) {
    a.when < b.when || (a.when == b.when && a.addr < b.addr)
  }

  ghost predicate Sorted(ts: seq<Entry>) {
    forall i, j :: 0 <= i < j < |ts| ==> Less(ts[i], ts[j])
  }

  /** The position of the first entry that is not below `e`. */
  function LowerBound(ts: seq<Entry>, e: Entry): (k: nat)
    ensures k <= |ts|
    ensures forall i :: 0 <= i < k ==> Less(ts[i], e)
    ensures k < |ts| ==> !Less(ts[k], e)
  {
    if ts == [] || !Less(ts[0], e) then 0 else 1 + LowerBound(ts[1..], e)
  }

  function Inserted(ts: seq<Entry>, e: Entry): seq<Entry> {
    var k := LowerBound(ts, e);
    if k < |ts| && ts[k] == e then ts else ts[..k] + [e] + ts[k..]
  }

  function Erased(ts: seq<Entry>, e: Entry): seq<Entry> {
    var k := LowerBound(ts, e);
    if k < |ts| && ts[k] == e then ts[..k] + ts[k + 1..] else ts
  }

  lemma {:induction false} LowerBoundSplits(ts: seq<Entry>, e: Entry)
    requires Sorted(ts)
    ensures var k := LowerBound(ts, e);
            && (e in ts <==> k < |ts| && ts[k] == e)
            && forall i :: k <= i < |ts| ==> ts[i] == e || Less(e, ts[i])
  {
    var k := LowerBound(ts, e);
    forall i | k <= i < |ts| ensures ts[i] == ts[k] || Less(ts[k], ts[i]) {
      if k < i { assert Less(ts[k], ts[i]); }
    }
  }

  lemma {:induction false} InsertedIsSet(ts: seq<Entry>, e: Entry)
    requires Sorted(ts) && e !in ts
    ensures Sorted(Inserted(ts, e))
    ensures forall x :: x in Inserted(ts, e) <==> x in ts || x == e
    ensures |Inserted(ts, e)| == |ts| + 1
    ensures Inserted(ts, e)[0] == if ts == [] || Less(e, ts[0]) then e else ts[0]
  {
    LowerBoundSplits(ts, e);
    var k := LowerBound(ts, e);
    var r := Inserted(ts, e);
    SplitMembers(ts, k);
    assert forall i :: 0 <= i < |r| ==> r[i] == if i < k then ts[i] else if i == k then e else ts[i - 1];
  }

  lemma {:induction false} ErasedIsSet(ts: seq<Entry>, e: Entry)
    requires Sorted(ts) && e in ts
    ensures Sorted(Erased(ts, e))
    ensures forall x :: x in Erased(ts, e) <==> x in ts && x != e
    ensures |Erased(ts, e)| == |ts| - 1
    ensures Erased(ts, e) != [] ==> !Less(Erased(ts, e)[0], ts[0])
  {
    LowerBoundSplits(ts, e);
    var k := LowerBound(ts, e);
    var r := Erased(ts, e);
    assert forall i :: 0 <= i < |r| ==> r[i] == if i < k then ts[i] else ts[i + 1];
    forall x | x in ts && x != e ensures x in r {
      var i :| 0 <= i < |ts| && ts[i] == x;
      assert x == r[if i < k then i else i - 1];
    }
  }

  lemma SplitMembers(ts: seq<Entry>, k: nat)
    requires k <= |ts|
    ensures forall x :: x in ts <==> x in ts[..k] || x in ts[k..]
  {
    assert ts == ts[..k] + ts[k..];
  }

  /** How many leading entries `get_expired` takes: the sentry pairs `now` with the greatest pointer. */
  function ExpiredCount(ts: seq<Entry>, now: int): nat {
    LowerBound(ts, Entry(now, UINTPTR_MAX))
  }

  /** The sentry splits a set of real pointers exactly at `when <= now`. */
  lemma {:induction false} ExpiredCountSplits(ts: seq<Entry>, now: int)
    requires Sorted(ts)
    requires forall e :: e in ts ==> e.addr < UINTPTR_MAX
    ensures forall e :: e in ts[..ExpiredCount(ts, now)] <==> e in ts && e.when <= now
    ensures forall e :: e in ts[ExpiredCount(ts, now)..] <==> e in ts && now < e.when
  {
    var k := ExpiredCount(ts, now);
    LowerBoundSplits(ts, Entry(now, UINTPTR_MAX));
    SplitMembers(ts, k);
    assert forall e :: e in ts[..k] ==> Less(e, Entry(now, UINTPTR_MAX));
    assert forall e :: e in ts[k..] ==> e == Entry(now, UINTPTR_MAX) || Less(Entry(now, UINTPTR_MAX), e);
  }

  // ----- the timerfd -----

  /** `at` is when the descriptor was last set, `deadline` when it becomes readable. */
  datatype TimerFd = Disarmed | Armed(at: int, deadline: int) {
    predicate Readable(clock: int) { Armed? && deadline <= clock }
  }

  datatype Timespec = Timespec(sec: int, nsec: int)

  function HowMuchTimeFromNow(when: int, now: int): Timespec {
    var micros := Max(when - now, MIN_DELAY);
    Timespec(CDiv(micros, MICROS_PER_SECOND), CMod(micros, MICROS_PER_SECOND) * 1000)
  }

  /**
   The relative time handed to `timerfd_settime` is well formed, is exactly the clamped
   delay, and is never the zero value that would disarm the descriptor.
   */
  lemma TimespecIsClampedDelay(when: int, now: int)
    ensures var ts := HowMuchTimeFromNow(when, now);
            && 0 <= ts.sec && 0 <= ts.nsec < 1_000_000_000
            && ts != Timespec(0, 0)
            && ts.sec * 1_000_000_000 + ts.nsec == 1000 * (if when - now < 100 then 100 else when - now)
  {
    var micros := Max(when - now, MIN_DELAY);
    assert micros == MICROS_PER_SECOND * (micros / MICROS_PER_SECOND) + micros % MICROS_PER_SECOND;
  }

  /** `timerfd_settime` with that timespec at time `now`. */
  function SetTime(ts: Timespec, now: int): TimerFd {
    Armed(now, now + ts.sec * MICROS_PER_SECOND + ts.nsec / 1000)
  }

  function ResetTimerFd(when: int, now: int): (fd: TimerFd)
    ensures fd == Armed(now, Max(when, now + MIN_DELAY))
  {
    TimespecIsClampedDelay(when, now);
    SetTime(HowMuchTimeFromNow(when, now), now)
  }
}
