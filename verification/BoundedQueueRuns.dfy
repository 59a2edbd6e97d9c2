/** Every step of the bounded queue keeps its invariant, and what that says to the threads that use it. */
module BoundedQueueRuns {
  import opened Prelude
  import opened Traces
  import opened Conditions
  import opened BoundedQueueSpec

  // ----- who waits for what -----

  lemma PutPassPlaces(s: State, t: nat, x: int, who: Option<nat>)
    requires Places(s.notEmpty, s.notFull, s.wants) && Free(s.notEmpty, s.notFull, t) && MayNotify(s.notEmpty, who)
    ensures var s' := PutPass(s, t, x, who); Places(s'.notEmpty, s'.notFull, s'.wants)
  {
    hide Apart, Threads, NotifyOne, Sleep, MayNotify, Served;
    SleepServes(s.notFull, t);
    NotifyLeaves(s.notEmpty, who);
  }

  lemma PutPassPromises(s: State, t: nat, x: int, who: Option<nat>)
    requires Apart(s.notEmpty) && Apart(s.notFull) && t !in Threads(s.notFull) && MayNotify(s.notEmpty, who)
    requires |s.queue| <= s.cap && Served(s.notEmpty, |s.queue|) && Served(s.notFull, s.cap - |s.queue| - 1)
    ensures Promised(PutPass(s, t, x, who))
  {
    if |s.queue| == s.cap { SleepServes(s.notFull, t); } else { NotifyServes(s.notEmpty, |s.queue|, who); }
  }

  lemma TakePassPlaces(s: State, t: nat, who: Option<nat>)
    requires Places(s.notEmpty, s.notFull, s.wants) && Free(s.notEmpty, s.notFull, t) && MayNotify(s.notFull, who)
    ensures var s' := TakePass(s, t, who); Places(s'.notEmpty, s'.notFull, s'.wants)
  {
    hide Apart, Threads, NotifyOne, Sleep, MayNotify, Served;
    SleepServes(s.notEmpty, t);
    NotifyLeaves(s.notFull, who);
  }

  lemma TakePassPromises(s: State, t: nat, who: Option<nat>)
    requires Apart(s.notEmpty) && Apart(s.notFull) && t !in Threads(s.notEmpty) && MayNotify(s.notFull, who)
    requires |s.queue| <= s.cap && Served(s.notEmpty, |s.queue| - 1) && Served(s.notFull, s.cap - |s.queue|)
    ensures Promised(TakePass(s, t, who))
  {
    if s.queue == [] { SleepServes(s.notEmpty, t); } else { NotifyServes(s.notFull, s.cap - |s.queue|, who); }
  }

  lemma {:induction false} StepKeepsPromises(s: State, ev: Event)
    requires Places(s.notEmpty, s.notFull, s.wants) && Promised(s) && Enabled(s, ev)
    ensures var s' := Step(s, ev); Places(s'.notEmpty, s'.notFull, s'.wants) && Promised(s')
  {
    hide PutPass, TakePass, Apart, Threads;
    match ev
    case Put(t, x, who) =>
      PutPassPlaces(s.(offered := s.offered + [Entry(t, x)]), t, x, who);
      PutPassPromises(s.(offered := s.offered + [Entry(t, x)]), t, x, who);
    case ResumePut(t, who) =>
      ResumeServes(s.notFull, s.cap - |s.queue|, t);
      PutPassPlaces(BackToPut(s, t), t, s.wants[t], who);
      PutPassPromises(BackToPut(s, t), t, s.wants[t], who);
    case Take(t, who) =>
      TakePassPlaces(s, t, who);
      TakePassPromises(s, t, who);
    case ResumeTake(t, who) =>
      ResumeServes(s.notEmpty, |s.queue|, t);
      TakePassPlaces(BackToTake(s, t), t, who);
      TakePassPromises(BackToTake(s, t), t, who);
    case StirPutter(t) => StirServes(s.notFull, s.cap - |s.queue|, t);
    case StirTaker(t) => StirServes(s.notEmpty, |s.queue|, t);
  }

  // ----- what became of every element -----

  ghost predicate Ordered(s: State) { ValuesOf(s.accepted) == s.taken + s.queue }

  lemma PutPassKeepsOrder(s: State, t: nat, x: int, who: Option<nat>)
    requires Ordered(s)
    ensures Ordered(PutPass(s, t, x, who))
  {
    hide NotifyOne, Sleep;
    assert (s.accepted + [Entry(t, x)])[..|s.accepted|] == s.accepted;
  }

  lemma TakePassKeepsOrder(s: State, t: nat, who: Option<nat>)
    requires Ordered(s)
    ensures Ordered(TakePass(s, t, who))
  {
    hide NotifyOne, Sleep;
    if s.queue != [] { assert s.queue == [s.queue[0]] + s.queue[1..]; }
  }

  lemma {:induction false} StepKeepsOrder(s: State, ev: Event)
    requires ValuesOf(s.accepted) == s.taken + s.queue && Enabled(s, ev)
    ensures var s' := Step(s, ev); ValuesOf(s'.accepted) == s'.taken + s'.queue
  {
    hide Free, Awake, MayNotify, PutPass, TakePass, ValuesOf;
    match ev
    case Put(t, x, who) => PutPassKeepsOrder(s.(offered := s.offered + [Entry(t, x)]), t, x, who);
    case ResumePut(t, who) => PutPassKeepsOrder(BackToPut(s, t), t, s.wants[t], who);
    case Take(t, who) => TakePassKeepsOrder(s, t, who);
    case ResumeTake(t, who) => TakePassKeepsOrder(BackToTake(s, t), t, who);
    case _ =>
  }

  lemma BySnoc(log: seq<Entry>, e: Entry, t: nat)
    ensures By(log + [e], t) == By(log, t) + if e.thread == t then [e.x] else []
  {
    assert (log + [e])[..|log|] == log;
  }

  /** A pass of `put` accepts the value or keeps it. */
  lemma PutPassKeepsValues(s: State, t: nat, x: int, who: Option<nat>)
    requires t !in s.wants
    requires forall u: nat :: By(s.offered, u) == By(s.accepted, u) + (if u == t then [x] else Blocked(s.wants, u))
    ensures var s' := PutPass(s, t, x, who); Kept(s'.offered, s'.accepted, s'.wants)
  {
    var s' := PutPass(s, t, x, who);
    forall u: nat | true ensures By(s'.offered, u) == By(s'.accepted, u) + Blocked(s'.wants, u) {
      BySnoc(s.accepted, Entry(t, x), u);
    }
  }

  lemma {:induction false} StepKeepsValues(s: State, ev: Event)
    requires Places(s.notEmpty, s.notFull, s.wants) && Kept(s.offered, s.accepted, s.wants) && Enabled(s, ev)
    ensures var s' := Step(s, ev); Kept(s'.offered, s'.accepted, s'.wants)
  {
    match ev
    case Put(t, x, who) =>
      hide PutPass;
      var s1 := s.(offered := s.offered + [Entry(t, x)]);
      forall u: nat | true ensures By(s1.offered, u) == By(s1.accepted, u) + (if u == t then [x] else Blocked(s1.wants, u)) {
        BySnoc(s.offered, Entry(t, x), u);
      }
      PutPassKeepsValues(s1, t, x, who);
    case ResumePut(t, who) =>
      hide PutPass;
      PutPassKeepsValues(BackToPut(s, t), t, s.wants[t], who);
    case _ =>
  }

  lemma {:induction false} StepKeeps(s: State, ev: Event)
    requires Inv(s) && Enabled(s, ev)
    ensures Inv(Step(s, ev))
  {
    hide Places, Promised, ValuesOf, Kept, Step, Enabled;
    StepKeepsPromises(s, ev);
    StepKeepsOrder(s, ev);
    StepKeepsValues(s, ev);
  }

  lemma {:induction false} EveryStateHolds(cap: nat, ss: seq<State>, evs: seq<Event>, j: nat)
    requires Run(ss, evs) && ss[0] == Init(cap) && j < |ss|
    ensures Inv(ss[j])
  {
    assert Inv(Init(cap));
    hide Inv;
    forall s, ev, s' | Inv(s) && Next(s, ev, s') ensures Inv(s') { StepKeeps(s, ev); }
    Always(Next, s => Inv(s), ss, evs, 0, j);
  }

  // ----- no wakeup is lost -----

  /** While a taker sleeps, a notified one is on its way for every element; and dually for putters and free slots. */
  lemma {:induction false} NoWakeupIsLost(cap: nat, ss: seq<State>, evs: seq<Event>, j: nat)
    requires Run(ss, evs) && ss[0] == Init(cap) && j < |ss|
    ensures ss[j].cap == cap
    ensures ss[j].notEmpty.asleep != {} ==> |ss[j].queue| <= |ss[j].notEmpty.notified|
    ensures ss[j].notFull.asleep != {} ==> cap - |ss[j].queue| <= |ss[j].notFull.notified|
  {
    EveryStateHolds(cap, ss, evs, j);
    CapStays(cap, ss, evs, j);
  }

  lemma {:induction false} CapStays(cap: nat, ss: seq<State>, evs: seq<Event>, j: nat)
    requires Run(ss, evs) && ss[0] == Init(cap) && j < |ss|
    ensures ss[j].cap == cap
  {
    if j > 0 {
      CapStays(cap, ss, evs, j - 1);
      assert Next(ss[j - 1], evs[j - 1], ss[j]);
    }
  }

  lemma SomeNotification(c: Cond) returns (who: Option<nat>)
    ensures MayNotify(c, who)
  {
    if c.asleep == {} { who := None; } else { var t :| t in c.asleep; who := Some(t); }
  }

  /** Whenever a taker sleeps over an element, a notified one can go on, and takes the first element when it does. */
  lemma {:induction false} ElementsAreNeverSleptOn(cap: nat, ss: seq<State>, evs: seq<Event>, j: nat) returns (t: nat, who: Option<nat>)
    requires Run(ss, evs) && ss[0] == Init(cap) && j < |ss|
    requires ss[j].queue != [] && ss[j].notEmpty.asleep != {}
    ensures t in ss[j].notEmpty.notified && Enabled(ss[j], ResumeTake(t, who))
    ensures Step(ss[j], ResumeTake(t, who)).taken == ss[j].taken + [ss[j].queue[0]]
  {
    NoWakeupIsLost(cap, ss, evs, j);
    t :| t in ss[j].notEmpty.notified;
    who := SomeNotification(ss[j].notFull);
  }

  /** Whenever a putter sleeps over a free slot, a notified one can go on, and puts its value when it does. */
  lemma {:induction false} SlotsAreNeverSleptOn(cap: nat, ss: seq<State>, evs: seq<Event>, j: nat) returns (t: nat, who: Option<nat>)
    requires Run(ss, evs) && ss[0] == Init(cap) && j < |ss|
    requires |ss[j].queue| < cap && ss[j].notFull.asleep != {}
    ensures t in ss[j].notFull.notified && Enabled(ss[j], ResumePut(t, who))
    ensures Step(ss[j], ResumePut(t, who)).accepted == ss[j].accepted + [Entry(t, ss[j].wants[t])]
  {
    NoWakeupIsLost(cap, ss, evs, j);
    EveryStateHolds(cap, ss, evs, j);
    t :| t in ss[j].notFull.notified;
    who := SomeNotification(ss[j].notEmpty);
  }

  /** Takers and putters of a queue with room for something never sleep together with nobody on the way. */
  lemma {:induction false} NeverAllAsleep(cap: nat, ss: seq<State>, evs: seq<Event>, j: nat)
    requires Run(ss, evs) && ss[0] == Init(cap) && j < |ss| && cap > 0
    requires ss[j].notEmpty.asleep != {} && ss[j].notFull.asleep != {}
    ensures ss[j].notEmpty.notified != {} || ss[j].notFull.notified != {}
  {
    NoWakeupIsLost(cap, ss, evs, j);
  }

  // ----- first in, first out -----

  lemma {:induction false} ValuesAt(log: seq<Entry>)
    ensures |ValuesOf(log)| == |log| && forall i :: 0 <= i < |log| ==> ValuesOf(log)[i] == log[i].x
  {
    if log != [] { ValuesAt(log[..|log| - 1]); }
  }

  /** Elements leave in the order in which they were accepted, each once, and the queue never holds more than its capacity. */
  lemma {:induction false} FirstInFirstOut(cap: nat, ss: seq<State>, evs: seq<Event>, j: nat)
    requires Run(ss, evs) && ss[0] == Init(cap) && j < |ss|
    ensures var s := ss[j];
            && |s.queue| <= cap && |s.taken| + |s.queue| == |s.accepted|
            && (forall i :: 0 <= i < |s.taken| ==> s.taken[i] == s.accepted[i].x)
            && (forall i :: 0 <= i < |s.queue| ==> s.queue[i] == s.accepted[|s.taken| + i].x)
  {
    EveryStateHolds(cap, ss, evs, j);
    CapStays(cap, ss, evs, j);
    var s := ss[j];
    ValuesAt(s.accepted);
    assert forall i :: 0 <= i < |s.queue| ==> (s.taken + s.queue)[|s.taken| + i] == s.queue[i];
    assert forall i :: 0 <= i < |s.taken| ==> (s.taken + s.queue)[i] == s.taken[i];
  }

  /** Of each thread the queue accepts what it put, in order and each once, save the value it is now waiting to put. */
  lemma {:induction false} PutsAreKept(cap: nat, ss: seq<State>, evs: seq<Event>, j: nat, t: nat)
    requires Run(ss, evs) && ss[0] == Init(cap) && j < |ss|
    ensures var s := ss[j];
            && (t in Threads(s.notFull) <==> t in s.wants)
            && By(s.offered, t) == By(s.accepted, t) + if t in s.wants then [s.wants[t]] else []
  {
    EveryStateHolds(cap, ss, evs, j);
  }

  // ----- what one pass does -----

  /** A pass of `put` puts the value, if there is room, and otherwise sleeps with it. */
  lemma {:induction false} PutOutcome(s: State, ev: Event)
    requires Places(s.notEmpty, s.notFull, s.wants) && Enabled(s, ev) && (ev.Put? || ev.ResumePut?)
    ensures var x := if ev.Put? then ev.x else s.wants[ev.t]; var s' := Step(s, ev);
            if |s.queue| == s.cap then
              ev.t in s'.notFull.asleep && ev.t in s'.wants && s'.wants[ev.t] == x && s'.queue == s.queue && s'.accepted == s.accepted
            else
              s'.queue == s.queue + [x] && s'.accepted == s.accepted + [Entry(ev.t, x)] && ev.t !in Threads(s'.notFull)
  {
    hide MayNotify;
  }

  /** A pass of `take` takes the first element, if there is one, and otherwise sleeps. */
  lemma {:induction false} TakeOutcome(s: State, ev: Event)
    requires Places(s.notEmpty, s.notFull, s.wants) && Enabled(s, ev) && (ev.Take? || ev.ResumeTake?)
    ensures var s' := Step(s, ev);
            if s.queue == [] then ev.t in s'.notEmpty.asleep && s'.queue == [] && s'.taken == s.taken
            else s'.queue == s.queue[1..] && s'.taken == s.taken + [s.queue[0]] && ev.t !in Threads(s'.notEmpty)
  {
    hide MayNotify;
  }

  /** The calls of `put` among the events, in their order. */
  function Puts(evs: seq<Event>): seq<Entry> {
    if evs == [] then []
    else Puts(evs[..|evs| - 1]) + (if evs[|evs| - 1].Put? then [Entry(evs[|evs| - 1].t, evs[|evs| - 1].x)] else [])
  }

  /** What `PutsAreKept` says is offered is what was put. */
  lemma {:induction false} OfferedAreCalls(cap: nat, ss: seq<State>, evs: seq<Event>, j: nat)
    requires Run(ss, evs) && ss[0] == Init(cap) && j < |ss|
    ensures ss[j].offered == Puts(evs[..j])
  {
    hide Enabled, Step;
    if j > 0 {
      OfferedAreCalls(cap, ss, evs, j - 1);
      assert Next(ss[j - 1], evs[j - 1], ss[j]);
      StepOffers(ss[j - 1], evs[j - 1]);
      assert evs[..j][..j - 1] == evs[..j - 1];
    }
  }

  lemma {:induction false} StepOffers(s: State, ev: Event)
    requires Enabled(s, ev)
    ensures Step(s, ev).offered == s.offered + if ev.Put? then [Entry(ev.t, ev.x)] else []
  {
    hide Free, Awake, MayNotify, NotifyOne, Sleep, Resume, Stir;
  }
}
