/**
 `bounded_blocking_queue` with its fields updated in place, and the wait loops of `put` and
 `take`: while the caller waits, other threads do as they like, for as many waits as `waits`
 tells of. Each call is proved to be one of the runs of BoundedQueueRuns.
 */
module BoundedQueueObject {
  import opened Prelude
  import opened Traces
  import opened Conditions
  import opened BoundedQueueSpec
  import opened BoundedQueueRuns

  /** A step that thread `t` does not take itself. */
  predicate ByOther(ev: Event, t: nat) {
    match ev
    case ResumePut(u, _) => u != t
    case ResumeTake(u, _) => u != t
    case _ => true
  }

  function Perform(s: State, ev: Event, t: nat): State {
    if ByOther(ev, t) && Enabled(s, ev) then Step(s, ev) else s
  }

  function PerformAll(s: State, evs: seq<Event>, t: nat): State
    decreases |evs|
  {
    if evs == [] then s else PerformAll(Perform(s, evs[0], t), evs[1..], t)
  }

  /** The loop of `put`, for a thread at its test. */
  function PutLoop(s: State, t: nat, x: int, pick: set<nat> -> nat, waits: seq<seq<Event>>): State
    decreases |waits|
  {
    var s1 := PutPass(s, t, x, Chosen(s.notEmpty, pick));
    if |s.queue| != s.cap || waits == [] then s1
    else
      var s2 := PerformAll(s1, waits[0], t);
      if Awake(s2.notFull, t) then PutLoop(BackToPut(s2, t), t, x, pick, waits[1..]) else s2
  }

  /** The loop of `take`, for a thread at its test. */
  function TakeLoop(s: State, t: nat, pick: set<nat> -> nat, waits: seq<seq<Event>>): State
    decreases |waits|
  {
    var s1 := TakePass(s, t, Chosen(s.notFull, pick));
    if s.queue != [] || waits == [] then s1
    else
      var s2 := PerformAll(s1, waits[0], t);
      if Awake(s2.notEmpty, t) then TakeLoop(BackToTake(s2, t), t, pick, waits[1..]) else s2
  }

  class BoundedBlockingQueue {
    const cap: nat
    var queue: seq<int>
    var notEmpty: Cond
    var notFull: Cond
    var wants: map<nat, int>  // the arguments of the calls of put that wait
    ghost var offered: seq<Entry>
    ghost var accepted: seq<Entry>
    ghost var taken: seq<int>

    ghost function Value(): State
      reads this
    {
      State(cap, queue, notEmpty, notFull, wants, offered, accepted, taken)
    }

    constructor (maxSize: nat)
      ensures Value() == Init(maxSize) && Inv(Value())
    {
      cap, queue, notEmpty, notFull, wants := maxSize, [], NOBODY, NOBODY, map[];
      offered, accepted, taken := [], [], [];
    }

    /** What `put` does to a queue that is not full. */
    method PushBack(t: nat, x: int, who: Option<nat>)
      requires |queue| != cap
      modifies this`queue, this`notEmpty, this`accepted
      ensures Value() == PutPass(old(Value()), t, x, who)
    {
      queue := queue + [x];
      notEmpty := NotifyOne(notEmpty, who);
      accepted := accepted + [Entry(t, x)];
    }

    method WaitNotFull(t: nat, x: int)
      requires |queue| == cap
      modifies this`notFull, this`wants
      ensures forall who: Option<nat> :: Value() == PutPass(old(Value()), t, x, who)
    {
      notFull := Sleep(notFull, t);
      wants := wants[t := x];
    }

    method ResumePutter(t: nat)
      modifies this`notFull, this`wants
      ensures Value() == BackToPut(old(Value()), t)
    {
      notFull := Resume(notFull, t);
      wants := wants - {t};
    }

    /** What `take` does to a queue that is not empty. */
    method PopFront(t: nat, who: Option<nat>) returns (front: int)
      requires queue != []
      modifies this`queue, this`notFull, this`taken
      ensures Value() == TakePass(old(Value()), t, who) && [front] + queue == old(queue)
    {
      front := queue[0];
      taken := taken + [front];
      queue := queue[1..];
      notFull := NotifyOne(notFull, who);
    }

    method WaitNotEmpty(t: nat)
      requires queue == []
      modifies this`notEmpty
      ensures forall who: Option<nat> :: Value() == TakePass(old(Value()), t, who)
    {
      notEmpty := Sleep(notEmpty, t);
    }

    method ResumeTaker(t: nat)
      modifies this`notEmpty
      ensures Value() == BackToTake(old(Value()), t)
    {
      notEmpty := Resume(notEmpty, t);
    }

    /** One hold of the lock by a thread at its test. */
    method TryPut(t: nat, x: int, who: Option<nat>)
      modifies this`queue, this`notEmpty, this`accepted, this`notFull, this`wants
      ensures Value() == PutPass(old(Value()), t, x, who)
    {
      if |queue| == cap { WaitNotFull(t, x); } else { PushBack(t, x, who); }
    }

    method TryTake(t: nat, who: Option<nat>)
      modifies this`queue, this`notFull, this`taken, this`notEmpty
      ensures Value() == TakePass(old(Value()), t, who)
    {
      if queue == [] { WaitNotEmpty(t); } else { var _ := PopFront(t, who); }
    }

    method PerformEvent(ev: Event, caller: nat)
      modifies this
      ensures Value() == Perform(old(Value()), ev, caller)
    {
      hide PutPass, TakePass, BackToPut, BackToTake, MayNotify, Awake, Free;
      if !ByOther(ev, caller) || !MayHappen(notEmpty, notFull, wants, ev) { return; }
      match ev
      case Put(t, x, who) =>
        offered := offered + [Entry(t, x)];
        TryPut(t, x, who);
      case ResumePut(t, who) =>
        var x := wants[t];
        ResumePutter(t);
        TryPut(t, x, who);
      case Take(t, who) => TryTake(t, who);
      case ResumeTake(t, who) =>
        ResumeTaker(t);
        TryTake(t, who);
      case StirPutter(t) => notFull := Stir(notFull, t);
      case StirTaker(t) => notEmpty := Stir(notEmpty, t);
    }

    /** The lock is free: other threads take their steps. */
    method PerformEvents(evs: seq<Event>, caller: nat)
      modifies this
      ensures Value() == PerformAll(old(Value()), evs, caller)
    {
      hide Perform;
      ghost var s := Value();
      var i := 0;
      while i < |evs|
        invariant 0 <= i <= |evs| && PerformAll(Value(), evs[i..], caller) == PerformAll(s, evs, caller)
      {
        assert evs[i..][0] == evs[i] && evs[i..][1..] == evs[i + 1..];
        PerformEvent(evs[i], caller);
        i := i + 1;
      }
    }

    /** `put`: the value is in the queue when it is done, and otherwise the call still waits. */
    method Put(t: nat, x: int, pick: set<nat> -> nat, waits: seq<seq<Event>>) returns (done: bool)
      modifies this
      ensures Value() == PutLoop(old(Value()).(offered := old(offered) + [Entry(t, x)]), t, x, pick, waits)
      ensures done ==> |accepted| > 0 && accepted[|accepted| - 1] == Entry(t, x) && queue != [] && queue[|queue| - 1] == x
    {
      hide PerformAll, BackToPut;
      offered := offered + [Entry(t, x)];
      ghost var s := Value();
      var k := 0;
      while |queue| == cap
        invariant 0 <= k <= |waits| && PutLoop(Value(), t, x, pick, waits[k..]) == PutLoop(s, t, x, pick, waits)
        decreases |waits| - k
      {
        WaitNotFull(t, x);
        if k == |waits| { return false; }
        assert waits[k..][0] == waits[k] && waits[k..][1..] == waits[k + 1..];
        PerformEvents(waits[k], t);
        if !Awake(notFull, t) { return false; }
        ResumePutter(t);
        k := k + 1;
      }
      PushBack(t, x, Chosen(notEmpty, pick));
      done := true;
    }

    /** `take`: the first element, or nothing while the call still waits. */
    method Take(t: nat, pick: set<nat> -> nat, waits: seq<seq<Event>>) returns (front: Option<int>)
      modifies this
      ensures Value() == TakeLoop(old(Value()), t, pick, waits)
      ensures front.Some? ==> |taken| > 0 && taken[|taken| - 1] == front.value
    {
      hide PerformAll, BackToTake;
      ghost var s := Value();
      var k := 0;
      while queue == []
        invariant 0 <= k <= |waits| && TakeLoop(Value(), t, pick, waits[k..]) == TakeLoop(s, t, pick, waits)
        decreases |waits| - k
      {
        WaitNotEmpty(t);
        if k == |waits| { return None; }
        assert waits[k..][0] == waits[k] && waits[k..][1..] == waits[k + 1..];
        PerformEvents(waits[k], t);
        if !Awake(notEmpty, t) { return None; }
        ResumeTaker(t);
        k := k + 1;
      }
      var x := PopFront(t, Chosen(notFull, pick));
      front := Some(x);
    }
  }

  // ----- each call is a run -----

  lemma {:induction false} PerformAllIsRun(s: State, todo: seq<Event>, t: nat) returns (ss: seq<State>, evs: seq<Event>)
    ensures Run(ss, evs) && ss[0] == s && ss[|evs|] == PerformAll(s, todo, t)
    decreases |todo|
  {
    hide Step, Enabled;
    ss, evs := [s], [];
    if todo != [] {
      if ByOther(todo[0], t) && Enabled(s, todo[0]) {
        ss, evs := Extend(Next, ss, evs, todo[0], Step(ss[|evs|], todo[0]));
      }
      var ss2, evs2 := PerformAllIsRun(Perform(s, todo[0], t), todo[1..], t);
      ss, evs := Concat(Next, ss, evs, ss2, evs2);
    }
  }

  /** A value leaves `wants` only when its own putter resumes. */
  lemma {:induction false} StepKeepsWant(s: State, ev: Event, t: nat)
    requires s.wants.Keys == Threads(s.notFull) && t in s.wants && Enabled(s, ev) && ByOther(ev, t)
    ensures var s' := Step(s, ev); t in s'.wants && s'.wants[t] == s.wants[t]
  {
    hide Threads, MayNotify, Awake;
    match ev
    case Put(u, _, _) => assert u != t;
    case _ =>
  }

  lemma StepsOfOthersKeepWants(s: State, ev: Event, t: nat)
    requires Places(s.notEmpty, s.notFull, s.wants) && Promised(s) && t in s.wants
    ensures var s' := Perform(s, ev, t); Places(s'.notEmpty, s'.notFull, s'.wants) && Promised(s')
    ensures var s' := Perform(s, ev, t); t in s'.wants && s'.wants[t] == s.wants[t]
  {
    hide Step, Enabled, Threads, Apart, Promised;
    if ByOther(ev, t) && Enabled(s, ev) {
      StepKeepsPromises(s, ev);
      StepKeepsWant(s, ev, t);
    }
  }

  /** Whatever other threads do, a waiting putter keeps its place and its value. */
  lemma {:induction false} OthersKeepWants(s: State, todo: seq<Event>, t: nat)
    requires Places(s.notEmpty, s.notFull, s.wants) && Promised(s) && t in s.wants
    ensures var s' := PerformAll(s, todo, t);
            Places(s'.notEmpty, s'.notFull, s'.wants) && Promised(s') && t in s'.wants && s'.wants[t] == s.wants[t]
    decreases |todo|
  {
    hide Places, Promised, Perform;
    if todo != [] {
      StepsOfOthersKeepWants(s, todo[0], t);
      OthersKeepWants(Perform(s, todo[0], t), todo[1..], t);
    }
  }

  /** The rest of a call of `put`, from the step `ev` that puts thread `t` at its test. */
  lemma {:induction false} PutLoopIsRun(s: State, ev: Event, s0: State, t: nat, x: int, pick: set<nat> -> nat, waits: seq<seq<Event>>)
    returns (ss: seq<State>, evs: seq<Event>)
    requires Chooses(pick) && Places(s.notEmpty, s.notFull, s.wants) && Promised(s) && Enabled(s, ev)
    requires Step(s, ev) == PutPass(s0, t, x, Chosen(s0.notEmpty, pick)) && |s0.queue| <= s0.cap
    ensures Run(ss, evs) && ss[0] == s && ss[|evs|] == PutLoop(s0, t, x, pick, waits)
    decreases |waits|
  {
    hide PerformAll, Enabled, Step, Places, Promised;
    ss, evs := Extend(Next, [s], [], ev, Step(s, ev));
    if |s0.queue| == s0.cap && waits != [] {
      var s1 := Step(s, ev);
      var ss2, evs2 := PerformAllIsRun(s1, waits[0], t);
      ss, evs := Concat(Next, ss, evs, ss2, evs2);
      StepKeepsPromises(s, ev);
      OthersKeepWants(s1, waits[0], t);
      var s2 := PerformAll(s1, waits[0], t);
      if Awake(s2.notFull, t) {
        var who := Chosen(s2.notEmpty, pick);
        ResumedPut(s2, t, who, pick);
        ss2, evs2 := PutLoopIsRun(s2, ResumePut(t, who), BackToPut(s2, t), t, x, pick, waits[1..]);
        ss, evs := Concat(Next, ss, evs, ss2, evs2);
      }
    }
  }

  lemma ResumedPut(s: State, t: nat, who: Option<nat>, pick: set<nat> -> nat)
    requires Chooses(pick) && Places(s.notEmpty, s.notFull, s.wants) && Promised(s) && t in s.wants && Awake(s.notFull, t)
    requires who == Chosen(s.notEmpty, pick)
    ensures Enabled(s, ResumePut(t, who)) && |s.queue| <= s.cap
    ensures Step(s, ResumePut(t, who)) == PutPass(BackToPut(s, t), t, s.wants[t], who)
  {
  }

  /** `put`, whatever happens in its waits, is one of the runs of BoundedQueueRuns. */
  lemma {:induction false} PutIsRun(s: State, t: nat, x: int, pick: set<nat> -> nat, waits: seq<seq<Event>>)
    returns (ss: seq<State>, evs: seq<Event>)
    requires Inv(s) && Free(s.notEmpty, s.notFull, t) && Chooses(pick)
    ensures Run(ss, evs) && ss[0] == s
    ensures ss[|evs|] == PutLoop(s.(offered := s.offered + [Entry(t, x)]), t, x, pick, waits)
  {
    hide PutLoop, Free, Threads, Apart, Kept, By, ValuesOf;
    ss, evs := PutLoopIsRun(s, Event.Put(t, x, Chosen(s.notEmpty, pick)), s.(offered := s.offered + [Entry(t, x)]), t, x, pick, waits);
  }

  lemma ResumedTake(s: State, t: nat, who: Option<nat>, pick: set<nat> -> nat)
    requires Chooses(pick) && Awake(s.notEmpty, t) && who == Chosen(s.notFull, pick)
    ensures Enabled(s, ResumeTake(t, who))
    ensures Step(s, ResumeTake(t, who)) == TakePass(BackToTake(s, t), t, who)
  {
  }

  lemma {:induction false} TakeLoopIsRun(s: State, ev: Event, s0: State, t: nat, pick: set<nat> -> nat, waits: seq<seq<Event>>)
    returns (ss: seq<State>, evs: seq<Event>)
    requires Chooses(pick) && Enabled(s, ev) && Step(s, ev) == TakePass(s0, t, Chosen(s0.notFull, pick))
    ensures Run(ss, evs) && ss[0] == s && ss[|evs|] == TakeLoop(s0, t, pick, waits)
    decreases |waits|
  {
    hide PerformAll, Enabled, Step;
    ss, evs := Extend(Next, [s], [], ev, Step(s, ev));
    if s0.queue == [] && waits != [] {
      var s1 := Step(s, ev);
      var ss2, evs2 := PerformAllIsRun(s1, waits[0], t);
      ss, evs := Concat(Next, ss, evs, ss2, evs2);
      var s2 := PerformAll(s1, waits[0], t);
      if Awake(s2.notEmpty, t) {
        var who := Chosen(s2.notFull, pick);
        ResumedTake(s2, t, who, pick);
        ss2, evs2 := TakeLoopIsRun(s2, ResumeTake(t, who), BackToTake(s2, t), t, pick, waits[1..]);
        ss, evs := Concat(Next, ss, evs, ss2, evs2);
      }
    }
  }

  /** `take` is too. */
  lemma {:induction false} TakeIsRun(s: State, t: nat, pick: set<nat> -> nat, waits: seq<seq<Event>>)
    returns (ss: seq<State>, evs: seq<Event>)
    requires Free(s.notEmpty, s.notFull, t) && Chooses(pick)
    ensures Run(ss, evs) && ss[0] == s && ss[|evs|] == TakeLoop(s, t, pick, waits)
  {
    hide TakeLoop, Free;
    ss, evs := TakeLoopIsRun(s, Event.Take(t, Chosen(s.notFull, pick)), s, t, pick, waits);
  }

  // ----- the wait loops -----

  /** A spurious wakeup of a putter, while the queue stays full, makes no difference. */
  lemma SpuriousPut(s: State, t: nat, x: int, pick: set<nat> -> nat, rest: seq<seq<Event>>)
    requires |s.queue| == s.cap && t !in Threads(s.notFull) && t !in s.wants
    ensures PutLoop(s, t, x, pick, [[StirPutter(t)]] + rest) == PutLoop(s, t, x, pick, rest)
  {
    var s1 := PutPass(s, t, x, Chosen(s.notEmpty, pick));
    var s2 := s1.(notFull := Stir(s1.notFull, t));
    SleepStirResume(s.notFull, t);
    hide Sleep, Resume, Stir;
    PerformOne(s1, StirPutter(t), t);
    assert s1.wants - {t} == s.wants;
    assert ([[StirPutter(t)]] + rest)[1..] == rest;
    assert BackToPut(s2, t) == s;
  }

  lemma PerformOne(s: State, ev: Event, t: nat)
    ensures PerformAll(s, [ev], t) == Perform(s, ev, t)
  {
    assert [ev][1..] == [];
  }

  /** When another thread takes an element and notifies the putter, the value goes in. */
  lemma {:induction false} FreedPut(s: State, t: nat, x: int, u: nat, pick: set<nat> -> nat, rest: seq<seq<Event>>)
    requires |s.queue| == s.cap > 0 && Free(s.notEmpty, s.notFull, t) && Free(s.notEmpty, s.notFull, u) && t != u && t !in s.wants
    ensures var e := PutLoop(s, t, x, pick, [[Event.Take(u, Some(t))]] + rest);
            && e.taken == s.taken + [s.queue[0]] && e.queue == s.queue[1..] + [x]
            && e.accepted == s.accepted + [Entry(t, x)] && t !in Threads(e.notFull) && t !in e.wants
  {
    var s1 := PutPass(s, t, x, Chosen(s.notEmpty, pick));
    var take := Event.Take(u, Some(t));
    SleepNotifyResume(s.notFull, t);
    assert Free(s1.notEmpty, s1.notFull, u);
    hide Sleep, Resume, NotifyOne, Free, MayNotify, Awake, Threads;
    PerformOne(s1, take, t);
    var s2 := TakePass(s1, u, Some(t));
    assert PerformAll(s1, [take], t) == s2;
    assert ([[take]] + rest)[0] == [take] && ([[take]] + rest)[1..] == rest;
    assert |BackToPut(s2, t).queue| != s.cap;
  }

  /** A spurious wakeup of a taker, while the queue stays empty, makes no difference. */
  lemma SpuriousTake(s: State, t: nat, pick: set<nat> -> nat, rest: seq<seq<Event>>)
    requires s.queue == [] && t !in Threads(s.notEmpty)
    ensures TakeLoop(s, t, pick, [[StirTaker(t)]] + rest) == TakeLoop(s, t, pick, rest)
  {
    var s1 := TakePass(s, t, Chosen(s.notFull, pick));
    var s2 := s1.(notEmpty := Stir(s1.notEmpty, t));
    SleepStirResume(s.notEmpty, t);
    hide Sleep, Resume, Stir;
    PerformOne(s1, StirTaker(t), t);
    assert ([[StirTaker(t)]] + rest)[1..] == rest;
    assert BackToTake(s2, t) == s;
  }

  /** When another thread puts an element and notifies the taker, it is taken. */
  lemma {:induction false} FedTake(s: State, t: nat, u: nat, y: int, pick: set<nat> -> nat, rest: seq<seq<Event>>)
    requires s.queue == [] && s.cap > 0 && Free(s.notEmpty, s.notFull, t) && Free(s.notEmpty, s.notFull, u) && t != u
    ensures var e := TakeLoop(s, t, pick, [[Event.Put(u, y, Some(t))]] + rest);
            e.taken == s.taken + [y] && e.queue == [] && t !in Threads(e.notEmpty)
  {
    var s1 := TakePass(s, t, Chosen(s.notFull, pick));
    var put := Event.Put(u, y, Some(t));
    SleepNotifyResume(s.notEmpty, t);
    assert Free(s1.notEmpty, s1.notFull, u);
    hide Sleep, Resume, NotifyOne, Free, MayNotify, Awake, Threads;
    PerformOne(s1, put, t);
    var s2 := PutPass(s1.(offered := s1.offered + [Entry(u, y)]), u, y, Some(t));
    assert PerformAll(s1, [put], t) == s2;
    assert ([[put]] + rest)[0] == [put] && ([[put]] + rest)[1..] == rest;
    assert BackToTake(s2, t).queue == [y];
  }

  /** What a putter at its test can rely on. */
  predicate AtPut(s: State, t: nat) {
    && Places(s.notEmpty, s.notFull, s.wants) && Free(s.notEmpty, s.notFull, t)
    && |s.queue| <= s.cap && Served(s.notEmpty, |s.queue|) && Served(s.notFull, s.cap - |s.queue| - 1)
  }

  lemma SleepingPutter(s: State, t: nat, x: int, who: Option<nat>)
    requires AtPut(s, t) && |s.queue| == s.cap && MayNotify(s.notEmpty, who)
    ensures var s1 := PutPass(s, t, x, who);
            Places(s1.notEmpty, s1.notFull, s1.wants) && Promised(s1) && t in s1.wants && s1.wants[t] == x && t in s1.notFull.asleep
  {
    PutPassPlaces(s, t, x, who);
    PutPassPromises(s, t, x, who);
    SleepServes(s.notFull, t);
    hide Apart, Threads, Sleep, Served;
  }

  lemma BackAtPut(s: State, t: nat)
    requires Places(s.notEmpty, s.notFull, s.wants) && Promised(s) && Awake(s.notFull, t)
    ensures AtPut(BackToPut(s, t), t)
  {
    ResumeServes(s.notFull, s.cap - |s.queue|, t);
    hide Apart, Threads, Resume, Served;
  }

  /** The call is over with the value in, or it sleeps with it. */
  predicate PutOver(s: State, t: nat, x: int) {
    if t in Threads(s.notFull) then t in s.notFull.asleep && t in s.wants && s.wants[t] == x
    else |s.accepted| > 0 && s.accepted[|s.accepted| - 1] == Entry(t, x)
  }

  lemma PushedPutter(s: State, t: nat, x: int, who: Option<nat>)
    requires AtPut(s, t) && |s.queue| != s.cap
    ensures PutOver(PutPass(s, t, x, who), t, x)
  {
  }

  lemma SleepsOn(s: State, t: nat)
    requires Places(s.notEmpty, s.notFull, s.wants) && t in s.wants && !Awake(s.notFull, t)
    ensures PutOver(s, t, s.wants[t])
  {
  }

  lemma AsleepIsNotAwake(s: State, t: nat)
    requires Apart(s.notFull) && t in s.notFull.asleep
    ensures !Awake(s.notFull, t)
  {
  }

  /** Whatever happens in its waits, a call of `put` ends with the value in, or asleep with it: it never gives up awake. */
  lemma {:induction false} PutEnds(s: State, t: nat, x: int, pick: set<nat> -> nat, waits: seq<seq<Event>>)
    requires AtPut(s, t) && Chooses(pick)
    ensures PutOver(PutLoop(s, t, x, pick, waits), t, x)
    decreases |waits|
  {
    var who := Chosen(s.notEmpty, pick);
    var s1 := PutPass(s, t, x, who);
    if |s.queue| == s.cap {
      SleepingPutter(s, t, x, who);
      AsleepIsNotAwake(s1, t);
      hide PerformAll, PutPass, BackToPut, AtPut, Promised, Places, Awake, PutOver, Threads;
      if waits == [] {
        SleepsOn(s1, t);
      } else {
        OthersKeepWants(s1, waits[0], t);
        var s2 := PerformAll(s1, waits[0], t);
        if Awake(s2.notFull, t) {
          BackAtPut(s2, t);
          PutEnds(BackToPut(s2, t), t, x, pick, waits[1..]);
        } else {
          SleepsOn(s2, t);
        }
      }
    } else {
      PushedPutter(s, t, x, who);
    }
  }

  /** What a taker at its test can rely on. */
  predicate AtTake(s: State, t: nat) {
    && Places(s.notEmpty, s.notFull, s.wants) && Free(s.notEmpty, s.notFull, t)
    && |s.queue| <= s.cap && Served(s.notEmpty, |s.queue| - 1) && Served(s.notFull, s.cap - |s.queue|)
  }

  ghost predicate WaitingTaker(s: State, t: nat) {
    Places(s.notEmpty, s.notFull, s.wants) && Promised(s) && t in Threads(s.notEmpty)
  }

  lemma SleepingTaker(s: State, t: nat, who: Option<nat>)
    requires AtTake(s, t) && s.queue == [] && MayNotify(s.notFull, who)
    ensures var s1 := TakePass(s, t, who); WaitingTaker(s1, t) && !Awake(s1.notEmpty, t)
  {
    TakePassPlaces(s, t, who);
    TakePassPromises(s, t, who);
    SleepServes(s.notEmpty, t);
    hide Apart, Sleep, Served, Awake;
  }

  lemma BackAtTake(s: State, t: nat)
    requires WaitingTaker(s, t) && Awake(s.notEmpty, t)
    ensures AtTake(BackToTake(s, t), t)
  {
    ResumeServes(s.notEmpty, |s.queue|, t);
    hide Apart, Resume, Served;
  }

  /** A taker stops waiting only when it resumes itself. */
  lemma StepKeepsTaker(s: State, ev: Event, t: nat)
    requires WaitingTaker(s, t)
    ensures WaitingTaker(Perform(s, ev, t), t) && s.taken <= Perform(s, ev, t).taken
  {
    if ByOther(ev, t) && Enabled(s, ev) {
      StepKeepsPromises(s, ev);
      StaysInThreads(s, ev, t);
      hide Apart, Threads, Promised, Places;
    }
  }

  lemma {:induction false} StaysInThreads(s: State, ev: Event, t: nat)
    requires t in Threads(s.notEmpty) && Enabled(s, ev) && ByOther(ev, t)
    ensures t in Threads(Step(s, ev).notEmpty)
  {
  }

  lemma {:induction false} OthersKeepTaker(s: State, todo: seq<Event>, t: nat)
    requires WaitingTaker(s, t)
    ensures WaitingTaker(PerformAll(s, todo, t), t) && s.taken <= PerformAll(s, todo, t).taken
    decreases |todo|
  {
    hide WaitingTaker, Perform;
    if todo != [] {
      StepKeepsTaker(s, todo[0], t);
      OthersKeepTaker(Perform(s, todo[0], t), todo[1..], t);
    }
  }

  lemma SleepingIsAsleep(s: State, t: nat)
    requires WaitingTaker(s, t) && !Awake(s.notEmpty, t)
    ensures t in s.notEmpty.asleep
  {
  }

  /** A call of `take` too ends with an element taken or asleep. */
  lemma {:induction false} TakeEnds(s: State, t: nat, pick: set<nat> -> nat, waits: seq<seq<Event>>)
    requires AtTake(s, t) && Chooses(pick)
    ensures var e := TakeLoop(s, t, pick, waits);
            s.taken <= e.taken && (t in e.notEmpty.asleep || (t !in Threads(e.notEmpty) && |s.taken| < |e.taken|))
    decreases |waits|
  {
    var who := Chosen(s.notFull, pick);
    if s.queue == [] {
      var s1 := TakePass(s, t, who);
      SleepingTaker(s, t, who);
      assert s1.taken == s.taken;
      hide PerformAll, TakePass, BackToTake, AtTake, WaitingTaker, Awake, Threads;
      if waits == [] {
        SleepingIsAsleep(s1, t);
      } else {
        OthersKeepTaker(s1, waits[0], t);
        var s2 := PerformAll(s1, waits[0], t);
        if Awake(s2.notEmpty, t) {
          BackAtTake(s2, t);
          BackTakesNothing(s2, t);
          TakeEnds(BackToTake(s2, t), t, pick, waits[1..]);
        } else {
          SleepingIsAsleep(s2, t);
        }
      }
    }
  }

  lemma BackTakesNothing(s: State, t: nat)
    ensures BackToTake(s, t).taken == s.taken
  {
  }
}
