/**
 Local time (src/base/time_zone.cpp): the search for the type in force under a GMT or a
 local key, and exactly when `from_local_time` undoes `to_local_time`.
 `gmtime_r` and `timegm` are the repository's own `to_utc_time` and `from_utc_time`.
 */
module TimeZone {
  import opened Prelude
  import opened CivilDate
  import opened UtcTime

  datatype Transition = Transition(gmttime: int, localtime: int, localtimeIdx: int)

  datatype Localtime = Localtime(gmtOffset: int, isDst: bool, arrbIdx: int)

  datatype Data = Data(transitions: seq<Transition>, localtimes: seq<Localtime>)

  /** The key that `Comp(compareGmt)` compares. */
  function Key(compareGmt: bool, x: Transition): int {
    if compareGmt then x.gmttime else x.localtime
  }

  predicate Comp(compareGmt: bool, lhs: Transition, rhs: Transition) {
    Key(compareGmt, lhs) < Key(compareGmt, rhs)
  }

  predicate CompEqual(compareGmt: bool, lhs: Transition, rhs: Transition) {
    Key(compareGmt, lhs) == Key(compareGmt, rhs)
  }

  /** What `readTimeZoneFile` builds: 32-bit times and offsets, and local = gmt + offset. */
  ghost predicate WellFormed(data: Data) {
    && data.localtimes != []
    && (forall i :: 0 <= i < |data.localtimes| ==> FitsInInt(data.localtimes[i].gmtOffset))
    && (forall i :: 0 <= i < |data.transitions| ==>
          var x := data.transitions[i];
          && 0 <= x.localtimeIdx < |data.localtimes| && FitsInInt(x.gmttime)
          && x.localtime == x.gmttime + data.localtimes[x.localtimeIdx].gmtOffset)
  }

  ghost predicate Increasing(compareGmt: bool, xs: seq<Transition>) {
    forall i, j :: 0 <= i < j < |xs| ==> Comp(compareGmt, xs[i], xs[j])
  }

  // ----- the linear scan that the search refines -----

  /** The last transition whose key is at or before `t`, or -1. */
  function LastAtOrBefore(compareGmt: bool, xs: seq<Transition>, t: int): (i: int)
    ensures -1 <= i < |xs|
  {
    if xs == [] then -1
    else if Key(compareGmt, xs[|xs| - 1]) <= t then |xs| - 1
    else LastAtOrBefore(compareGmt, xs[..|xs| - 1], t)
  }

  /** The type after transition `i`; the first type before them all. */
  function TypeAfter(data: Data, i: int): Localtime
    requires WellFormed(data) && -1 <= i < |data.transitions|
  {
    if i == -1 then data.localtimes[0] else data.localtimes[data.transitions[i].localtimeIdx]
  }

  function TypeAt(data: Data, compareGmt: bool, t: int): Localtime
    requires WellFormed(data)
  {
    TypeAfter(data, LastAtOrBefore(compareGmt, data.transitions, t))
  }

  lemma {:induction false} LastIs(compareGmt: bool, xs: seq<Transition>, t: int, i: int)
    requires Increasing(compareGmt, xs) && -1 <= i < |xs|
    requires i >= 0 ==> Key(compareGmt, xs[i]) <= t
    requires i + 1 < |xs| ==> t < Key(compareGmt, xs[i + 1])
    ensures LastAtOrBefore(compareGmt, xs, t) == i
  {
    if i + 1 < |xs| {
      var n := |xs| - 1;
      assert i + 1 < n ==> Comp(compareGmt, xs[i + 1], xs[n]);
      assert t < Key(compareGmt, xs[n]);
      LastIs(compareGmt, xs[..n], t, i);
    }
  }

  lemma {:induction false} LastBounds(compareGmt: bool, xs: seq<Transition>, t: int)
    ensures var i := LastAtOrBefore(compareGmt, xs, t);
            && (i >= 0 ==> Key(compareGmt, xs[i]) <= t)
            && (i + 1 < |xs| ==> t < Key(compareGmt, xs[i + 1]))
  {
    if xs != [] && t < Key(compareGmt, xs[|xs| - 1]) {
      LastBounds(compareGmt, xs[..|xs| - 1], t);
    }
  }

  // ----- the source's search -----

  /** `std::lower_bound`: the first position whose transition is not below the sentry. */
  method LowerBound(xs: seq<Transition>, sentry: Transition, compareGmt: bool) returns (first: nat)
    requires Increasing(compareGmt, xs)
    ensures first <= |xs|
    ensures forall i :: 0 <= i < first ==> Comp(compareGmt, xs[i], sentry)
    ensures forall i :: first <= i < |xs| ==> !Comp(compareGmt, xs[i], sentry)
  {
    first := 0;
    var count := |xs|;
    while count > 0
      invariant 0 <= first <= first + count <= |xs|
      invariant forall i :: 0 <= i < first ==> Comp(compareGmt, xs[i], sentry)
      invariant forall i :: first + count <= i < |xs| ==> !Comp(compareGmt, xs[i], sentry)
    {
      var step := count / 2;
      var it := first + step;
      assert forall i :: 0 <= i < it ==> Comp(compareGmt, xs[i], xs[it]);
      assert forall i :: it < i < |xs| ==> Comp(compareGmt, xs[it], xs[i]);
      if Comp(compareGmt, xs[it], sentry) {
        first, count := it + 1, count - (step + 1);
      } else {
        count := step;
      }
    }
  }

  method FindLocaltime(data: Data, sentry: Transition, compareGmt: bool) returns (local: Localtime)
    requires WellFormed(data) && Increasing(compareGmt, data.transitions)
    ensures local == TypeAt(data, compareGmt, Key(compareGmt, sentry))
  {
    ghost var t := Key(compareGmt, sentry);
    if data.transitions == [] || Comp(compareGmt, sentry, data.transitions[0]) {
      local := data.localtimes[0];
      LastIs(compareGmt, data.transitions, t, -1);
    } else {
      var transI := LowerBound(data.transitions, sentry, compareGmt);
      if transI < |data.transitions| {
        if !CompEqual(compareGmt, sentry, data.transitions[transI]) {
          assert transI != 0;
          transI := transI - 1;
        } else {
          assert transI + 1 < |data.transitions| ==> Comp(compareGmt, data.transitions[transI], data.transitions[transI + 1]);
        }
        LastIs(compareGmt, data.transitions, t, transI);
        local := data.localtimes[data.transitions[transI].localtimeIdx];
      } else {
        LastIs(compareGmt, data.transitions, t, |data.transitions| - 1);
        local := data.localtimes[data.transitions[|data.transitions| - 1].localtimeIdx];
      }
    }
  }

  // ----- the two conversions -----

  function ToLocal(data: Data, seconds: int): Tm
    requires WellFormed(data)
  {
    var local := TypeAt(data, true, seconds);
    ToUtcTime(seconds + local.gmtOffset, true).(isdst := local.isDst, gmtoff := local.gmtOffset)
  }

  function FromLocal(data: Data, localTm: Tm): int
    requires WellFormed(data)
  {
    var seconds := FromUtcTime(localTm);
    var offset := TypeAt(data, false, seconds).gmtOffset;
    if localTm.isdst then
      var tryTm := ToLocal(data, seconds - offset);
      if !tryTm.isdst && tryTm.hour == localTm.hour && tryTm.min == localTm.min then seconds - 3600 - offset
      else seconds - offset
    else seconds - offset
  }

  method ToLocalTime(data: Data, seconds: int) returns (localTime: Tm)
    requires WellFormed(data) && Increasing(true, data.transitions)
    ensures localTime == ToLocal(data, seconds)
  {
    hide ToUtcTime, LastAtOrBefore;
    var sentry := Transition(seconds, 0, 0);
    var local := FindLocaltime(data, sentry, true);
    var localSeconds := seconds + local.gmtOffset;
    localTime := ToUtcTime(localSeconds, true);
    localTime := localTime.(isdst := local.isDst, gmtoff := local.gmtOffset);
  }

  method FromLocalTime(data: Data, localTm: Tm) returns (t: int)
    requires WellFormed(data) && Increasing(true, data.transitions) && Increasing(false, data.transitions)
    ensures t == FromLocal(data, localTm)
  {
    hide ToUtcTime, FromUtcTime;
    var seconds := FromUtcTime(localTm);
    var sentry := Transition(0, seconds, 0);
    var local := FindLocaltime(data, sentry, false);
    if localTm.isdst {
      var tryTm := ToLocalTime(data, seconds - local.gmtOffset);
      if !tryTm.isdst && tryTm.hour == localTm.hour && tryTm.min == localTm.min {
        seconds := seconds - 3600;
      }
    }
    t := seconds - local.gmtOffset;
  }

  // ----- the round trip -----

  /** Transitions in order, and further apart than the offset changes at either end. */
  ghost predicate Separated(data: Data)
    requires WellFormed(data)
  {
    && Increasing(true, data.transitions)
    && forall k :: 0 <= k < |data.transitions| - 1 ==> Gap(data, k) > Abs(Change(data, k)) + Abs(Change(data, k + 1))
  }

  function Gap(data: Data, k: int): int
    requires 0 <= k < |data.transitions| - 1
  {
    data.transitions[k + 1].gmttime - data.transitions[k].gmttime
  }

  /** By how much transition `k` moves local time; the initial type is the predecessor of the first. */
  function Change(data: Data, k: int): int
    requires WellFormed(data) && 0 <= k < |data.transitions|
  {
    TypeAfter(data, k).gmtOffset - TypeAfter(data, k - 1).gmtOffset
  }

  lemma {:induction false} LocalKeysIncrease(data: Data)
    requires WellFormed(data) && Separated(data)
    ensures Increasing(false, data.transitions)
  {
    forall i, j | 0 <= i < j < |data.transitions| ensures Comp(false, data.transitions[i], data.transitions[j]) {
      LocalKeysIncreaseFrom(data, i, j);
    }
  }

  lemma {:induction false} LocalKeysIncreaseFrom(data: Data, i: nat, j: nat)
    requires WellFormed(data) && Separated(data) && i < j < |data.transitions|
    ensures data.transitions[i].localtime < data.transitions[j].localtime
    decreases j
  {
    assert Gap(data, j - 1) > Abs(Change(data, j - 1)) + Abs(Change(data, j));
    if i < j - 1 { LocalKeysIncreaseFrom(data, i, j - 1); }
  }

  /** `t` is in the last seconds before a transition that repeats them on the local clock. */
  predicate InFold(data: Data, t: int)
    requires WellFormed(data)
  {
    var i := LastAtOrBefore(true, data.transitions, t);
    i + 1 < |data.transitions| && t + TypeAfter(data, i).gmtOffset >= data.transitions[i + 1].localtime
  }

  /** The transition after `t` goes from daylight saving to standard time. */
  predicate EndsDst(data: Data, k: int)
    requires WellFormed(data) && 0 <= k < |data.transitions|
  {
    TypeAfter(data, k - 1).isDst && !TypeAfter(data, k).isDst
  }

  /** Local time is within the years that the calendar arithmetic covers. */
  predicate Covered(data: Data, t: int)
    requires WellFormed(data)
  {
    t + TypeAt(data, true, t).gmtOffset >= FIRST_SECOND
  }

  /** Which type the local key finds for the local time of `t`. */
  lemma {:induction false} LocalKeyFinds(data: Data, t: int)
    requires WellFormed(data) && Separated(data)
    ensures var i := LastAtOrBefore(true, data.transitions, t);
            LastAtOrBefore(false, data.transitions, t + TypeAfter(data, i).gmtOffset) == if InFold(data, t) then i + 1 else i
  {
    hide LastAtOrBefore;
    var xs := data.transitions;
    var i := LastAtOrBefore(true, xs, t);
    LastBounds(true, xs, t);
    LocalKeysIncrease(data);
    var l := t + TypeAfter(data, i).gmtOffset;
    if InFold(data, t) {
      if i + 2 < |xs| {
        assert Gap(data, i + 1) > Abs(Change(data, i + 1)) + Abs(Change(data, i + 2));
        assert l < xs[i + 2].localtime;
      }
      LastIs(false, xs, l, i + 1);
    } else {
      LastIs(false, xs, l, i);
    }
  }

  /** In a fold, the time that the second offset gives lies after the transition, and before the next. */
  lemma {:induction false} FoldedTime(data: Data, t: int)
    requires WellFormed(data) && Separated(data) && InFold(data, t)
    ensures var i := LastAtOrBefore(true, data.transitions, t);
            LastAtOrBefore(true, data.transitions, t - Change(data, i + 1)) == i + 1
  {
    hide LastAtOrBefore;
    var xs := data.transitions;
    var i := LastAtOrBefore(true, xs, t);
    LastBounds(true, xs, t);
    if i + 2 < |xs| {
      assert Gap(data, i + 1) > Abs(Change(data, i + 1)) + Abs(Change(data, i + 2));
    }
    LastIs(true, xs, t - Change(data, i + 1), i + 1);
  }

  /** Outside a fold the conversions are inverse; inside, they differ by the change, less the source's hour. */
  lemma {:induction false} RoundTripValue(data: Data, t: int)
    requires WellFormed(data) && Separated(data) && Covered(data, t)
    ensures var k := LastAtOrBefore(true, data.transitions, t) + 1;
            FromLocal(data, ToLocal(data, t)) ==
            if InFold(data, t) then t - Change(data, k) - (if EndsDst(data, k) then 3600 else 0) else t
  {
    hide ToUtcTime, FromUtcTime, LastAtOrBefore;
    var i := LastAtOrBefore(true, data.transitions, t);
    var l := t + TypeAfter(data, i).gmtOffset;
    assert FromUtcTime(ToLocal(data, t)) == l by { LocalFieldsSame(data, t); }
    LocalKeyFinds(data, t);
    if InFold(data, t) { FoldedTime(data, t); }
  }

  /** The flag and the offset are not among the fields that `from_utc_time` reads. */
  lemma LocalFieldsSame(data: Data, t: int)
    requires WellFormed(data) && Covered(data, t)
    ensures FromUtcTime(ToLocal(data, t)) == t + TypeAt(data, true, t).gmtOffset
  {
    hide ToUtcTime, LastAtOrBefore, GetJulianDayNumber;
    var l := t + TypeAt(data, true, t).gmtOffset;
    UtcRoundTrip(l, true);
    assert FromUtcTime(ToLocal(data, t)) == FromUtcTime(ToUtcTime(l, true));
  }

  /** `from_local_time(to_local_time(t)) == t` exactly when `t` is not repeated, or is the DST side of an hour that is. */
  lemma {:induction false} RoundTripExactly(data: Data, t: int)
    requires WellFormed(data) && Separated(data) && Covered(data, t)
    ensures FromLocal(data, ToLocal(data, t)) == t <==>
            var k := LastAtOrBefore(true, data.transitions, t) + 1;
            InFold(data, t) ==> EndsDst(data, k) && Change(data, k) == -3600
  {
    hide ToLocal, FromLocal, LastAtOrBefore;
    RoundTripValue(data, t);
    if InFold(data, t) { FoldIsADecrease(data, t); }
  }

  lemma FoldIsADecrease(data: Data, t: int)
    requires WellFormed(data) && InFold(data, t)
    ensures Change(data, LastAtOrBefore(true, data.transitions, t) + 1) < 0
  {
    LastBounds(true, data.transitions, t);
  }

  /** Every set-back of the local clock is the end of daylight saving, by one hour. */
  ghost predicate SetBacksEndDst(data: Data)
    requires WellFormed(data)
  {
    forall k :: 0 <= k < |data.transitions| && Change(data, k) < 0 ==> EndsDst(data, k) && Change(data, k) == -3600
  }

  /** The zones in which every time survives the round trip are those whose set-backs all end DST by an hour. */
  lemma {:induction false} RoundTripZones(data: Data)
    requires WellFormed(data) && Separated(data)
    ensures SetBacksEndDst(data) <==> forall t :: Covered(data, t) ==> FromLocal(data, ToLocal(data, t)) == t
  {
    hide ToLocal, FromLocal, LastAtOrBefore;
    if SetBacksEndDst(data) {
      forall t | Covered(data, t) ensures FromLocal(data, ToLocal(data, t)) == t {
        RoundTripExactly(data, t);
        if InFold(data, t) { FoldIsADecrease(data, t); }
      }
    } else {
      var k :| 0 <= k < |data.transitions| && Change(data, k) < 0 && !(EndsDst(data, k) && Change(data, k) == -3600);
      var t := data.transitions[k].gmttime - 1;
      SecondBefore(data, k);
      RoundTripExactly(data, t);
    }
  }

  /** The second before a set-back is in its fold. */
  lemma SecondBefore(data: Data, k: nat)
    requires WellFormed(data) && Separated(data) && k < |data.transitions| && Change(data, k) < 0
    ensures var t := data.transitions[k].gmttime - 1;
            LastAtOrBefore(true, data.transitions, t) == k - 1 && InFold(data, t) && Covered(data, t)
  {
    hide LastAtOrBefore;
    var xs := data.transitions;
    var t := xs[k].gmttime - 1;
    assert k > 0 ==> Comp(true, xs[k - 1], xs[k]);
    LastIs(true, xs, t, k - 1);
    assert FIRST_SECOND < -0x1_0000_0000;
  }

  /** In such a zone no two times share a local time and flag, so both sides of a repeated hour are told apart. */
  lemma {:induction false} LocalTimesDistinct(data: Data, t: int, t': int)
    requires WellFormed(data) && Separated(data) && SetBacksEndDst(data)
    requires Covered(data, t) && Covered(data, t') && t != t'
    ensures ToLocal(data, t) != ToLocal(data, t')
  {
    hide ToLocal, FromLocal;
    RoundTripZones(data);
  }

  // ----- the other fields, and times that no clock shows -----

  /** The day fields of an instant are those of the calendar. */
  predicate DayFields(tm: Tm, x: int) {
    && InRange(DateOf(tm))
    && (DateOf(tm).year > -4800 ==> tm.yday == DaysBefore(tm.year + 1900, tm.mon + 1) + tm.mday - 1)
    && (SplitSeconds(x).0 >= -2440589 ==> tm.wday == (SplitSeconds(x).0 + 4) % 7)
  }

  lemma UtcDay(x: int, local: Localtime)
    requires x >= FIRST_SECOND
    ensures DayFields(ToUtcTime(x, true).(isdst := local.isDst, gmtoff := local.gmtOffset), x)
  {
    UtcDayFields(x);
    hide ToUtcTime, DaysBefore, SplitSeconds, InRange;
  }

  /** Every field of the local time: those of the shifted instant, and the flag and offset of the type in force. */
  lemma {:induction false} LocalFields(data: Data, t: int)
    requires WellFormed(data) && Covered(data, t)
    ensures var tm, local := ToLocal(data, t), TypeAt(data, true, t);
            && tm.gmtoff == local.gmtOffset && tm.isdst == local.isDst
            && ValidTm(tm) && FromUtcTime(tm) == t + tm.gmtoff && DayFields(tm, t + tm.gmtoff)
  {
    hide ToUtcTime, FromUtcTime, ValidTm, DayFields, TypeAt;
    var local := TypeAt(data, true, t);
    UtcRoundTrip(t + local.gmtOffset, true);
    UtcDay(t + local.gmtOffset, local);
    FlagsDoNotMatter(ToUtcTime(t + local.gmtOffset, true), local);
  }

  lemma FlagsDoNotMatter(tm: Tm, local: Localtime)
    ensures var tm' := tm.(isdst := local.isDst, gmtoff := local.gmtOffset);
            FromUtcTime(tm') == FromUtcTime(tm) && DateOf(tm') == DateOf(tm) && (ValidTm(tm') <==> ValidTm(tm))
  {
    hide FromUtcFields, InRange;
  }

  /** Local time `x` is among those that transition `k` skips. */
  predicate Skipped(data: Data, k: nat, x: int)
    requires WellFormed(data) && k < |data.transitions|
  {
    data.transitions[k].gmttime + TypeAfter(data, k - 1).gmtOffset <= x < data.transitions[k].localtime
  }

  lemma {:induction false} SkippedKeys(data: Data, k: nat, x: int)
    requires WellFormed(data) && Separated(data) && k < |data.transitions| && Skipped(data, k, x)
    ensures LastAtOrBefore(false, data.transitions, x) == k - 1
    ensures LastAtOrBefore(true, data.transitions, x - TypeAfter(data, k - 1).gmtOffset) == k
  {
    LocalKeysIncrease(data);
    if k > 0 { assert Comp(true, data.transitions[k - 1], data.transitions[k]); }
    LastIs(false, data.transitions, x, k - 1);
    if k + 1 < |data.transitions| { assert Gap(data, k) > Abs(Change(data, k)) + Abs(Change(data, k + 1)); }
    LastIs(true, data.transitions, x - TypeAfter(data, k - 1).gmtOffset, k);
  }

  /** A local time that a transition skips is read on the clock that was in force before it. */
  lemma {:induction false} SkippedTimes(data: Data, k: nat, x: int)
    requires WellFormed(data) && Separated(data) && k < |data.transitions| && x >= FIRST_SECOND && Skipped(data, k, x)
    ensures FromLocal(data, ToUtcTime(x, true)) == x - TypeAfter(data, k - 1).gmtOffset >= data.transitions[k].gmttime
  {
    hide ToUtcTime, FromUtcTime, LastAtOrBefore, Separated, ToLocal;
    UtcRoundTrip(x, true);
    SkippedKeys(data, k, x);
    NotDst(x);
  }

  /** Times of one minute of the day are less than a minute of the day apart. */
  lemma SameMinute(x: int, y: int)
    requires ToUtcTime(x, true).hour == ToUtcTime(y, true).hour && ToUtcTime(x, true).min == ToUtcTime(y, true).min
    ensures -60 < SplitSeconds(x).1 - SplitSeconds(y).1 < 60
  {
    HmsBounds(SplitSeconds(x).1);
    HmsBounds(SplitSeconds(y).1);
    hide FillHMS, SplitSeconds, GetYearMonthDay, GetJulianDayNumber, WeekDay;
  }

  lemma OtherMinute(x: int, c: int)
    requires 60 <= c <= 86340
    ensures !(ToUtcTime(x, true).hour == ToUtcTime(x + c, true).hour && ToUtcTime(x, true).min == ToUtcTime(x + c, true).min)
  {
    hide ToUtcTime;
    var (d, r) := SplitSeconds(x);
    var (e, q) := SplitSeconds(x + c);
    assert (e - d) * SECONDS_PER_DAY == c + r - q;
    if ToUtcTime(x, true).hour == ToUtcTime(x + c, true).hour && ToUtcTime(x, true).min == ToUtcTime(x + c, true).min {
      SameMinute(x, x + c);
    }
  }

  /** So it is read with the daylight flag set, when a minute is skipped at least, and not a day. */
  lemma {:induction false} SkippedDstTimes(data: Data, k: nat, x: int)
    requires WellFormed(data) && Separated(data) && k < |data.transitions| && x >= FIRST_SECOND && Skipped(data, k, x)
    requires 60 <= Change(data, k) <= 86340
    ensures FromLocal(data, ToUtcTime(x, true).(isdst := true)) == x - TypeAfter(data, k - 1).gmtOffset
  {
    hide ToUtcTime, FromUtcTime, LastAtOrBefore, Separated, Skipped;
    var tm := ToUtcTime(x, true);
    UtcRoundTrip(x, true);
    FlagsDoNotMatter(tm, Localtime(tm.gmtoff, true, 0));
    SkippedKeys(data, k, x);
    OtherMinute(x, Change(data, k));
    var u := x - TypeAfter(data, k - 1).gmtOffset;
    assert u + TypeAt(data, true, u).gmtOffset == x + Change(data, k);
  }

  lemma NotDst(x: int)
    ensures !ToUtcTime(x, true).isdst
  {
  }
}
