/**
 `event_loop_t` with its fields updated in place; `LoopBody` is one turn of the loop in
 `loop()`, in which handlers and functors call back into the loop and foreign threads
 interrupt at will, and is proved to be one of the runs of EventLoopRuns.
 */
module EventLoopObject {
  import opened Prelude
  import opened Traces
  import opened EventLoopSpec
  import opened EventLoopRuns

  /** What may happen while the loop thread runs user code. */
  predicate Interrupts(ev: Event) {
    ev.OwnQueue? || ev.OwnQuit? || ev.Register? || ev.Remove? || ev.Store? || ev.StoreQuit? || ev.Write?
  }

  function Perform(s: State, ev: Event): (s': State)
    ensures s'.pc == s.pc && s'.functors == s.functors && s'.active == s.active && s'.cur == s.cur
    ensures s'.handling == s.handling && s'.calling == s.calling
  {
    if Interrupts(ev) && Enabled(s, ev) then Step(s, ev) else s
  }

  function PerformAll(s: State, evs: seq<Event>): (s': State)
    ensures s'.pc == s.pc && s'.functors == s.functors && s'.active == s.active && s'.cur == s.cur
    ensures s'.handling == s.handling && s'.calling == s.calling
    decreases |evs|
  {
    if evs == [] then s else PerformAll(Perform(s, evs[0]), evs[1..])
  }

  /** Steps of any threads that can be taken one after the other, none of them `barred`. */
  ghost predicate Legal(s: State, evs: seq<Event>, barred: Event)
    decreases |evs|
  {
    evs != [] ==> evs[0] != barred && Enabled(s, evs[0]) && Legal(Step(s, evs[0]), evs[1..], barred)
  }

  ghost function After(s: State, evs: seq<Event>, barred: Event): State
    requires Legal(s, evs, barred)
    decreases |evs|
  {
    if evs == [] then s else After(Step(s, evs[0]), evs[1..], barred)
  }

  /** A foreign thread's store, whatever comes between, and its write. */
  ghost function StoreAndWrite(s: State, store: Event, tid: nat, between: seq<Event>): State
    requires Enabled(s, store) && Legal(Step(s, store), between, Write(tid))
  {
    var s1 := After(Step(s, store), between, Write(tid));
    Wakeup(s1).(owing := s1.owing - {tid})
  }

  /** `queue_in_loop` by the loop thread, or by the given foreign thread. */
  ghost predicate MayQueue(s: State, f: int, caller: Option<nat>, between: seq<Event>) {
    caller.Some? ==> caller.value !in s.owing && Legal(Step(s, Store(caller.value, f)), between, Write(caller.value))
  }

  ghost function QueueOf(s: State, f: int, caller: Option<nat>, between: seq<Event>): State
    requires MayQueue(s, f, caller, between)
  {
    if caller.None? then QueueByLoopThread(s, f) else StoreAndWrite(s, Store(caller.value, f), caller.value, between)
  }

  /** `quit`, likewise. */
  ghost predicate MayQuit(s: State, caller: Option<nat>, between: seq<Event>) {
    caller.Some? ==> caller.value !in s.owing && Legal(Step(s, StoreQuit(caller.value)), between, Write(caller.value))
  }

  ghost function QuitOf(s: State, caller: Option<nat>, between: seq<Event>): State
    requires MayQuit(s, caller, between)
  {
    if caller.None? then s.(quit := true) else StoreAndWrite(s, StoreQuit(caller.value), caller.value, between)
  }

  /** `run_in_loop`, with what the functor does when it is called at once. */
  ghost function RunInLoopOf(s: State, f: int, caller: Option<nat>, body: seq<Event>, between: seq<Event>): State
    requires MayQueue(s, f, caller, between)
  {
    if caller.None? then PerformAll(s, body) else QueueOf(s, f, caller, between)
  }

  function DispatchAll(s: State, during: nat -> seq<Event>): (s': State)
    requires s.pc == Handling && -1 <= s.cur < |s.active|
    ensures s'.pc == Handling && s'.cur + 1 == |s'.active|
    decreases |s.active| - s.cur
  {
    if s.cur + 1 == |s.active| then s
    else DispatchAll(PerformAll(Dispatch(s), during(s.cur + 1)), during)
  }

  function DrainAll(s: State, during: nat -> seq<Event>, k: nat): (s': State)
    requires s.pc == Draining
    ensures s'.pc == Draining && s'.functors == []
    decreases |s.functors|
  {
    if s.functors == [] then s
    else DrainAll(PerformAll(CallFunctor(s), during(k)), during, k + 1)
  }

  /** One turn of the loop, from poll's return. */
  function BodyOf(s: State, ready: seq<int>, handlers: nat -> seq<Event>, functors: nat -> seq<Event>): State
    requires s.pc == Polling
  {
    FinishDrain(DrainAll(StartDrain(DispatchAll(StartHandling(s, ready), handlers)), functors, 0))
  }

  lemma CalledOne(s: State)
    requires s.pc == Draining && s.functors != []
    ensures var s' := CallFunctor(s); s'.functors == s.functors[1..] && s'.pc == Draining
  {
  }

  class EventLoop {
    var pending: seq<int>
    var evt: nat
    var quitFlag: bool
    var calling: bool
    var handling: bool
    var active: seq<int>
    var cur: int
    var registered: set<int>
    var owing: set<nat>  // foreign threads between their store and their write
    var functors: seq<int>  // what is left of the local vector of do_pending_functors
    ghost var pc: Pc
    ghost var drains: nat
    ghost var queued: seq<Stamped>
    ghost var ran: seq<Stamped>
    ghost var early: bool

    ghost function Value(): State
      reads this
    {
      State(pending, functors, evt, quitFlag, calling, handling, active, cur, registered, pc, owing, drains, queued, ran, early)
    }

    constructor ()
      ensures Value() == Init() && Inv(Value())
    {
      pending, functors, evt, quitFlag, calling, handling := [], [], 0, false, false, false;
      active, cur, registered, pc, owing, drains := [], -1, {WAKEUP}, Outside, {}, 0;
      queued, ran, early := [], [], false;
    }

    /** `wakeup`: the eventfd adds up its writes. */
    method WriteEventFd()
      modifies this`evt
      ensures Value() == Wakeup(old(Value()))
    {
      evt := evt + 1;
    }

    /** `handle_read`: one read empties the counter. */
    method ReadEventFd()
      modifies this`evt
      ensures Value() == HandleRead(old(Value()))
    {
      evt := 0;
    }

    /** `queue_in_loop` in the loop thread. */
    method QueueOwn(f: int)
      modifies this`pending, this`evt, this`queued, this`early
      ensures Value() == QueueByLoopThread(old(Value()), f)
    {
      pending := pending + [f];
      queued := queued + [Stamped(f, drains)];
      early := early || pc == Outside;
      if calling {
        WriteEventFd();
      }
    }

    /** `queue_in_loop`, by the loop thread or by a foreign one, which others interrupt before it wakes the loop. */
    method QueueInLoop(f: int, caller: Option<nat>, between: seq<Event>)
      requires MayQueue(Value(), f, caller, between)
      modifies this
      ensures Value() == QueueOf(old(Value()), f, caller, between)
    {
      hide Legal;
      match caller
      case None => QueueOwn(f);
      case Some(tid) =>
        ForeignStore(tid, f);
        PerformSteps(between, Write(tid));
        WakeupBy(tid);
    }

    /** In the loop thread the functor is called on the spot, where it may do what user code does; otherwise it is queued. */
    method RunInLoop(f: int, caller: Option<nat>, body: seq<Event>, between: seq<Event>) returns (called: bool)
      requires MayQueue(Value(), f, caller, between) && (caller.None? ==> InUserCode(Value()))
      modifies this
      ensures called == caller.None?
      ensures Value() == RunInLoopOf(old(Value()), f, caller, body, between)
    {
      called := caller.None?;
      if called {
        PerformEvents(body);
      } else {
        QueueInLoop(f, caller, between);
      }
    }

    method Quit(caller: Option<nat>, between: seq<Event>)
      requires MayQuit(Value(), caller, between)
      modifies this
      ensures Value() == QuitOf(old(Value()), caller, between)
    {
      hide Legal;
      match caller
      case None => quitFlag := true;
      case Some(tid) =>
        ForeignQuit(tid);
        PerformSteps(between, Write(tid));
        WakeupBy(tid);
    }

    method WakeupBy(tid: nat)
      modifies this`evt, this`owing
      ensures Value() == Wakeup(old(Value())).(owing := old(owing) - {tid})
    {
      WriteEventFd();
      owing := owing - {tid};
    }

    /** One step of any thread. */
    method PerformStep(ev: Event)
      requires Enabled(Value(), ev)
      modifies this
      ensures Value() == Step(old(Value()), ev)
    {
      hide PollReports, MayRemove, Dispatch, StartDrain, StartHandling, CallFunctor, QueueByLoopThread;
      match ev
      case Enter => quitFlag, pc := false, Testing;
      case TestQuit => PerformTest();
      case PollReturns(ready) => BeginDispatch(ready);
      case HandleNext => DispatchNext();
      case TakeFunctors => var _ := TakePending();
      case RunFunctor => CallFirst(functors[0]);
      case EndDrain => calling, pc := false, Testing;
      case OwnQueue(f) => QueueOwn(f);
      case OwnQuit => quitFlag := true;
      case Register(ch) => registered := registered + {ch};
      case Remove(ch) => registered := registered - {ch};
      case Store(tid, f) => ForeignStore(tid, f);
      case StoreQuit(tid) => ForeignQuit(tid);
      case Write(tid) => ForeignWrite(tid);
    }

    method PerformTest()
      modifies this`pc, this`active
      ensures Value() == if old(quitFlag) then old(Value()).(pc := Outside) else old(Value()).(active := [], pc := Polling)
    {
      if quitFlag {
        pc := Outside;
      } else {
        active, pc := [], Polling;
      }
    }

    method DispatchNext()
      requires cur + 1 < |active|
      modifies this`cur, this`evt
      ensures Value() == Dispatch(old(Value()))
    {
      cur := cur + 1;
      if 0 <= cur && active[cur] == WAKEUP {
        ReadEventFd();
      }
    }

    method PerformSteps(evs: seq<Event>, barred: Event)
      requires Legal(Value(), evs, barred)
      modifies this
      ensures Value() == After(old(Value()), evs, barred)
    {
      hide Step, Enabled;
      ghost var s := Value();
      var i := 0;
      while i < |evs|
        invariant 0 <= i <= |evs| && Legal(Value(), evs[i..], barred)
        invariant After(Value(), evs[i..], barred) == After(s, evs, barred)
      {
        assert evs[i..][0] == evs[i] && evs[i..][1..] == evs[i + 1..];
        PerformStep(evs[i]);
        i := i + 1;
      }
    }

    method RemoveChannel(ch: int)
      requires ch in registered && MayRemove(Value(), ch)
      modifies this`registered
      ensures Value() == old(Value()).(registered := old(registered) - {ch})
      ensures old(Flags(Value()) && Dispatchable(Value())) && ch != WAKEUP ==> Dispatchable(Value())
    {
      if handling {
        assert (0 <= cur < |active| && active[cur] == ch) || ch !in active;
      }
      registered := registered - {ch};
    }

    /** One thing that user code or a foreign thread does. */
    method PerformEvent(ev: Event)
      requires InUserCode(Value())
      modifies this
      ensures Value() == Perform(old(Value()), ev)
    {
      hide PollReports, MayRemove;
      match ev
      case OwnQueue(f) => QueueOwn(f);
      case OwnQuit => quitFlag := true;
      case Register(ch) => registered := registered + {ch};
      case Remove(ch) => RemoveIfAllowed(ch);
      case Store(tid, f) => ForeignStore(tid, f);
      case StoreQuit(tid) => ForeignQuit(tid);
      case Write(tid) => ForeignWrite(tid);
      case _ =>
    }

    method RemoveIfAllowed(ch: int)
      requires InUserCode(Value())
      modifies this`registered
      ensures Value() == Perform(old(Value()), Remove(ch))
    {
      if ch in registered && ch != WAKEUP && (!handling || (0 <= cur < |active| && active[cur] == ch) || ch !in active) {
        RemoveChannel(ch);
      }
    }

    /** The halves of a foreign thread's `queue_in_loop` and `quit`. */
    method ForeignStore(tid: nat, f: int)
      modifies this`pending, this`queued, this`owing
      ensures Value() == Perform(old(Value()), Store(tid, f))
    {
      if tid !in owing {
        pending := pending + [f];
        queued := queued + [Stamped(f, drains)];
        owing := owing + {tid};
      }
    }

    method ForeignQuit(tid: nat)
      modifies this`quitFlag, this`owing
      ensures Value() == Perform(old(Value()), StoreQuit(tid))
    {
      if tid !in owing {
        quitFlag := true;
        owing := owing + {tid};
      }
    }

    method ForeignWrite(tid: nat)
      modifies this`evt, this`owing
      ensures Value() == Perform(old(Value()), Write(tid))
    {
      if tid in owing {
        WriteEventFd();
        owing := owing - {tid};
      }
    }

    method PerformEvents(evs: seq<Event>)
      requires InUserCode(Value())
      modifies this
      ensures Value() == PerformAll(old(Value()), evs)
    {
      hide Perform;
      ghost var s := Value();
      var i := 0;
      while i < |evs|
        invariant 0 <= i <= |evs| && InUserCode(Value())
        invariant PerformAll(Value(), evs[i..]) == PerformAll(s, evs)
      {
        assert evs[i..][0] == evs[i] && evs[i..][1..] == evs[i + 1..];
        PerformEvent(evs[i]);
        i := i + 1;
      }
    }

    /** The dispatch loop of `loop()`. */
    method DispatchActive(during: nat -> seq<Event>)
      requires pc == Handling && cur == -1
      modifies this
      ensures Value() == DispatchAll(old(Value()), during)
    {
      hide PerformAll;
      ghost var s := Value();
      var channels := active;
      var k := 0;
      while k < |channels|
        invariant 0 <= k <= |channels| && pc == Handling && active == channels && cur == k - 1
        invariant DispatchAll(Value(), during) == DispatchAll(s, during)
      {
        ghost var s1 := Value();
        cur := k;
        if channels[k] == WAKEUP {
          ReadEventFd();
        }
        assert Value() == Dispatch(s1);
        PerformEvents(during(k));
        k := k + 1;
      }
    }

    method EndDispatch()
      modifies this`cur, this`handling
      ensures Value() == old(Value()).(cur := -1, handling := false)
    {
      cur, handling := -1, false;
    }

    /** The swap under the lock. */
    method SwapPending() returns (taken: seq<int>)
      modifies this`pending, this`functors
      ensures Value() == old(Value()).(functors := old(pending), pending := []) && taken == functors
    {
      taken := pending;
      pending := [];
      functors := taken;
    }

    /** The end of the dispatch loop, and the start of `do_pending_functors`. */
    method TakePending() returns (taken: seq<int>)
      modifies this`cur, this`handling, this`calling, this`pending, this`functors, this`drains, this`early, this`pc
      ensures Value() == StartDrain(old(Value())) && taken == functors
    {
      EndDispatch();
      calling := true;
      taken := SwapPending();
      drains, early, pc := drains + 1, false, Draining;
    }

    method CallFirst(f: int)
      requires functors != [] && functors[0] == f
      modifies this`functors, this`ran
      ensures Value() == CallFunctor(old(Value()))
    {
      ran := ran + [Stamped(f, drains)];
      functors := functors[1..];
    }

    method CallFunctors(taken: seq<int>, during: nat -> seq<Event>)
      requires pc == Draining && functors == taken
      modifies this
      ensures Value() == DrainAll(old(Value()), during, 0)
    {
      hide PerformAll, CallFunctor;
      ghost var s := Value();
      var k := 0;
      while k < |taken|
        invariant 0 <= k <= |taken| && pc == Draining && functors == taken[k..]
        invariant DrainAll(Value(), during, k) == DrainAll(s, during, 0)
      {
        ghost var s1 := Value();
        CallFirst(taken[k]);
        CalledOne(s1);
        PerformEvents(during(k));
        k := k + 1;
      }
    }

    /** The functors taken at the start are called outside the lock; what they queue waits for the next drain. */
    method DoPendingFunctors(during: nat -> seq<Event>)
      requires pc == Handling
      modifies this
      ensures Value() == FinishDrain(DrainAll(StartDrain(old(Value())), during, 0))
    {
      var taken := TakePending();
      CallFunctors(taken, during);
      hide DrainAll, StartDrain;
      calling := false;
      pc := Testing;
    }

    method BeginDispatch(ready: seq<int>)
      modifies this`active, this`cur, this`handling, this`pc
      ensures Value() == StartHandling(old(Value()), ready)
    {
      active, cur, handling, pc := ready, -1, true, Handling;
    }

    /** The body of the loop in `loop()`, with what poll reported. */
    method LoopBody(ready: seq<int>, handlers: nat -> seq<Event>, functorsDo: nat -> seq<Event>)
      requires pc == Polling
      modifies this
      ensures Value() == BodyOf(old(Value()), ready, handlers, functorsDo)
    {
      hide DispatchAll, DrainAll, StartDrain, FinishDrain;
      BeginDispatch(ready);
      DispatchActive(handlers);
      DoPendingFunctors(functorsDo);
    }
  }

  // ----- one turn of the loop is a run -----

  /** The steps can be taken one after the other. */
  ghost predicate Possible(s: State, todo: seq<Event>)
    decreases |todo|
  {
    todo != [] ==> Interrupts(todo[0]) && Enabled(s, todo[0]) && Possible(Step(s, todo[0]), todo[1..])
  }

  lemma {:induction false} PerformAllIsRun(s: State, todo: seq<Event>) returns (ss: seq<State>, evs: seq<Event>)
    ensures Run(ss, evs) && ss[0] == s && ss[|evs|] == PerformAll(s, todo)
    ensures forall ev <- evs :: Interrupts(ev)
    ensures Possible(s, todo) ==> evs == todo
    decreases |todo|
  {
    hide Step, Enabled;
    ss, evs := [s], [];
    if todo != [] {
      if Interrupts(todo[0]) && Enabled(s, todo[0]) {
        ss, evs := Extend(Next, ss, evs, todo[0], Step(ss[|evs|], todo[0]));
      }
      var ss2, evs2 := PerformAllIsRun(Perform(s, todo[0]), todo[1..]);
      ss, evs := Concat(Next, ss, evs, ss2, evs2);
      assert todo == [todo[0]] + todo[1..];
    }
  }

  /** A foreign `queue_in_loop` with nothing between its store and its write. */
  lemma QueueIsStoreThenWrite(s: State, tid: nat, f: int)
    requires tid !in s.owing
    ensures Step(Step(s, Store(tid, f)), Write(tid)) == StoreAndWrite(s, Store(tid, f), tid, []) == Wakeup(Push(s, f))
  {
    assert s.owing + {tid} - {tid} == s.owing;
  }

  /** The loop thread's `queue_in_loop`: it wakes itself exactly when it is draining, and else only queues. */
  lemma OwnQueueing(s: State, f: int)
    requires Flags(s)
    ensures var s' := QueueOf(s, f, None, []);
            && s'.pending == s.pending + [f] && s'.evt == s.evt + (if s.pc == Draining then 1 else 0)
            && s' == s.(pending := s'.pending, evt := s'.evt, queued := s'.queued, early := s'.early)
            && (InUserCode(s) ==> s' == Step(s, OwnQueue(f)))
  {
  }

  /** A foreign `quit`, likewise. */
  lemma QuitIsStoreThenWrite(s: State, tid: nat)
    requires tid !in s.owing
    ensures Step(Step(s, StoreQuit(tid)), Write(tid)) == StoreAndWrite(s, StoreQuit(tid), tid, []) == Wakeup(s.(quit := true))
  {
    assert s.owing + {tid} - {tid} == s.owing;
  }

  /** From its store until its write a foreign thread owes the write, so that the loop cannot be stranded. */
  lemma {:induction false} OwesUntilWrite(ss: seq<State>, evs: seq<Event>, tid: nat, i: nat, j: nat)
    requires Run(ss, evs) && i <= j < |ss| && tid in ss[i].owing
    requires forall k :: i <= k < j ==> evs[k] != Write(tid)
    ensures tid in ss[j].owing && !Stranded(ss[j]) && Enabled(ss[j], Write(tid))
  {
    if i < j {
      OwesUntilWrite(ss, evs, tid, i, j - 1);
      assert Next(ss[j - 1], evs[j - 1], ss[j]);
    }
  }

  lemma {:induction false} AfterIsRun(s: State, todo: seq<Event>, barred: Event) returns (ss: seq<State>, evs: seq<Event>)
    requires Legal(s, todo, barred)
    ensures Run(ss, evs) && ss[0] == s && ss[|evs|] == After(s, todo, barred) && evs == todo && forall ev <- evs :: ev != barred
    decreases |todo|
  {
    hide Step, Enabled;
    ss, evs := [s], [];
    if todo != [] {
      var s1 := Step(s, todo[0]);
      var ss2, evs2 := AfterIsRun(s1, todo[1..], barred);
      ss, evs := Concat(Next, [s, s1], [todo[0]], ss2, evs2);
    }
  }

  lemma {:induction false} StoreAndWriteIsRun(s: State, store: Event, tid: nat, between: seq<Event>) returns (ss: seq<State>, evs: seq<Event>)
    requires Enabled(s, store) && tid in Step(s, store).owing && Legal(Step(s, store), between, Write(tid))
    ensures Run(ss, evs) && ss[0] == s && ss[|evs|] == StoreAndWrite(s, store, tid, between)
    ensures evs == [store] + between + [Write(tid)]
  {
    hide Legal;
    var s1 := Step(s, store);
    assert Next(s, store, s1);
    var ss2, evs2 := AfterIsRun(s1, between, Write(tid));
    OwesUntilWriteIn(ss2, evs2, tid);
    var s2 := ss2[|evs2|];
    ss, evs := Concat(Next, [s, s1], [store], ss2, evs2);
    ss, evs := Extend(Next, ss, evs, Write(tid), Step(s2, Write(tid)));
  }

  lemma OwesUntilWriteIn(ss: seq<State>, evs: seq<Event>, tid: nat)
    requires Run(ss, evs) && tid in ss[0].owing && forall ev <- evs :: ev != Write(tid)
    ensures Enabled(ss[|evs|], Write(tid))
  {
    forall k | 0 <= k < |evs| ensures evs[k] != Write(tid) { assert evs[k] in evs; }
    hide Enabled;
    OwesUntilWrite(ss, evs, tid, 0, |evs|);
  }

  /** `run_in_loop`, and so `queue_in_loop`, by whichever thread and whatever comes between its store and its write, is a run. */
  lemma {:induction false} RunInLoopIsRun(s: State, f: int, caller: Option<nat>, body: seq<Event>, between: seq<Event>)
    returns (ss: seq<State>, evs: seq<Event>)
    requires MayQueue(s, f, caller, between)
    ensures Run(ss, evs) && ss[0] == s && ss[|evs|] == RunInLoopOf(s, f, caller, body, between)
    ensures if caller.None? then Possible(s, body) ==> evs == body else evs == [Store(caller.value, f)] + between + [Write(caller.value)]
  {
    hide Legal;
    match caller
    case None => ss, evs := PerformAllIsRun(s, body);
    case Some(tid) => ss, evs := StoreAndWriteIsRun(s, Store(tid, f), tid, between);
  }

  /** So is `quit`. */
  lemma {:induction false} QuitIsRun(s: State, caller: Option<nat>, between: seq<Event>)
    returns (ss: seq<State>, evs: seq<Event>)
    requires MayQuit(s, caller, between) && (caller.None? ==> InUserCode(s))
    ensures Run(ss, evs) && ss[0] == s && ss[|evs|] == QuitOf(s, caller, between)
    ensures evs == if caller.None? then [OwnQuit] else [StoreQuit(caller.value)] + between + [Write(caller.value)]
  {
    hide Legal;
    match caller
    case None => ss, evs := Extend(Next, [s], [], OwnQuit, Step(s, OwnQuit));
    case Some(tid) => ss, evs := StoreAndWriteIsRun(s, StoreQuit(tid), tid, between);
  }

  /** A step of `loop()` itself. */
  function Loops(): Event -> bool { (ev: Event) => !Interrupts(ev) }

  lemma LoopsThen(ev: Event, others: seq<Event>, rest: seq<Event>, n: nat)
    requires (ev.HandleNext? || ev.RunFunctor?) && (forall e <- others :: Interrupts(e)) && Only(Loops(), rest) == Times(ev, n)
    ensures Only(Loops(), [ev] + others + rest) == Times(ev, n + 1)
  {
    OnlyNone(Loops(), others);
    OneThen(Loops(), ev, others, rest, n);
  }

  lemma NoLoops(ev: Event)
    ensures Only(Loops(), []) == Times(ev, 0) == []
  {
  }

  /** What the handlers do can be done, each thing in turn. */
  ghost predicate HandlersPossible(s: State, during: nat -> seq<Event>)
    requires s.pc == Handling && -1 <= s.cur < |s.active|
    decreases |s.active| - s.cur
  {
    s.cur + 1 < |s.active| ==>
      Possible(Dispatch(s), during(s.cur + 1)) && HandlersPossible(PerformAll(Dispatch(s), during(s.cur + 1)), during)
  }

  lemma {:induction false} DispatchAllIsRun(s: State, during: nat -> seq<Event>) returns (ss: seq<State>, evs: seq<Event>)
    requires s.pc == Handling && -1 <= s.cur < |s.active|
    ensures Run(ss, evs) && ss[0] == s && ss[|evs|] == DispatchAll(s, during)
    ensures Only(Loops(), evs) == Times(HandleNext, |s.active| - s.cur - 1)
    ensures HandlersPossible(s, during) ==> evs == Interleaved(HandleNext, during, s.cur + 1, |s.active|)
    decreases |s.active| - s.cur
  {
    hide PerformAll, Possible, Only, Times, Interrupts;
    if s.cur + 1 < |s.active| {
      var s1 := Dispatch(s);
      assert Next(s, HandleNext, s1);
      hide Next, Dispatch;
      var ss2, evs2 := PerformAllIsRun(s1, during(s.cur + 1));
      ss, evs := Concat(Next, [s, s1], [HandleNext], ss2, evs2);
      var ss3, evs3 := DispatchAllIsRun(PerformAll(s1, during(s.cur + 1)), during);
      ss, evs := Concat(Next, ss, evs, ss3, evs3);
      LoopsThen(HandleNext, evs2, evs3, |s.active| - s.cur - 2);
    } else {
      ss, evs := [s], [];
      NoLoops(HandleNext);
    }
  }

  /** What the functors do can be done, each thing in turn. */
  ghost predicate FunctorsPossible(s: State, during: nat -> seq<Event>, k: nat)
    requires s.pc == Draining
    decreases |s.functors|
  {
    s.functors != [] ==>
      Possible(CallFunctor(s), during(k)) && FunctorsPossible(PerformAll(CallFunctor(s), during(k)), during, k + 1)
  }

  lemma {:induction false} DrainAllIsRun(s: State, during: nat -> seq<Event>, k: nat) returns (ss: seq<State>, evs: seq<Event>)
    requires s.pc == Draining
    ensures Run(ss, evs) && ss[0] == s && ss[|evs|] == DrainAll(s, during, k)
    ensures Only(Loops(), evs) == Times(RunFunctor, |s.functors|)
    ensures FunctorsPossible(s, during, k) ==> evs == Interleaved(RunFunctor, during, k, k + |s.functors|)
    decreases |s.functors|
  {
    hide PerformAll, Possible, Only, Times, Interrupts;
    if s.functors != [] {
      var s1 := CallFunctor(s);
      assert Next(s, RunFunctor, s1);
      hide Next;
      var ss2, evs2 := PerformAllIsRun(s1, during(k));
      ss, evs := Concat(Next, [s, s1], [RunFunctor], ss2, evs2);
      var ss3, evs3 := DrainAllIsRun(PerformAll(s1, during(k)), during, k + 1);
      ss, evs := Concat(Next, ss, evs, ss3, evs3);
      LoopsThen(RunFunctor, evs2, evs3, |s.functors| - 1);
    } else {
      ss, evs := [s], [];
      NoLoops(RunFunctor);
    }
  }

  lemma TurnShape(ready: seq<int>, evs2: seq<Event>, evs3: seq<Event>)
    ensures Only(Loops(), [PollReturns(ready)] + evs2 + ([TakeFunctors] + evs3 + [EndDrain])) ==
            [PollReturns(ready)] + Only(Loops(), evs2) + [TakeFunctors] + Only(Loops(), evs3) + [EndDrain]
  {
    OnlyOne(Loops(), PollReturns(ready));
    OnlyOne(Loops(), TakeFunctors);
    OnlyOne(Loops(), EndDrain);
    hide Only;
    OnlyConcat(Loops(), [PollReturns(ready)], evs2);
    OnlyConcat(Loops(), [TakeFunctors], evs3);
    OnlyConcat(Loops(), [TakeFunctors] + evs3, [EndDrain]);
    OnlyConcat(Loops(), [PollReturns(ready)] + evs2, [TakeFunctors] + evs3 + [EndDrain]);
  }

  /** The first half of a turn: what poll reported is handled. */
  lemma {:induction false} HandlingIsRun(s: State, ready: seq<int>, handlers: nat -> seq<Event>) returns (ss: seq<State>, evs: seq<Event>)
    requires s.pc == Polling && PollReports(s, ready) && Flags(s)
    ensures Run(ss, evs) && ss[0] == s && ss[|evs|] == DispatchAll(StartHandling(s, ready), handlers)
    ensures |evs| > 0 && evs[0] == PollReturns(ready) && Only(Loops(), evs[1..]) == Times(HandleNext, |ready|)
    ensures Handled(ss, evs, 0, |evs|) == ready
  {
    var s1 := StartHandling(s, ready);
    assert Next(s, PollReturns(ready), s1);
    hide DispatchAll, PollReports, Only, Times, Flags, Next;
    var ss2, evs2 := DispatchAllIsRun(s1, handlers);
    ss, evs := Concat(Next, [s, s1], [PollReturns(ready)], ss2, evs2);
    assert evs[1..] == evs2;
    AllHandled(ss, evs, ready);
  }

  /** The second half: the functors that are pending at its start are called. */
  lemma {:induction false} DrainingIsRun(s: State, functors: nat -> seq<Event>) returns (ss: seq<State>, evs: seq<Event>, evs3: seq<Event>)
    requires s.pc == Handling && s.cur + 1 == |s.active|
    ensures Run(ss, evs) && ss[0] == s && ss[|evs|] == FinishDrain(DrainAll(StartDrain(s), functors, 0))
    ensures evs == [TakeFunctors] + evs3 + [EndDrain] && Only(Loops(), evs3) == Times(RunFunctor, |s.pending|)
  {
    hide DrainAll, Only, Times;
    var s1 := StartDrain(s);
    assert Next(s, TakeFunctors, s1);
    var ss3;
    ss3, evs3 := DrainAllIsRun(s1, functors, 0);
    ss, evs := Concat(Next, [s, s1], [TakeFunctors], ss3, evs3);
    ss, evs := Extend(Next, ss, evs, EndDrain, FinishDrain(ss[|evs|]));
  }

  /**
   One turn of the loop, whatever the user code and the foreign threads do meanwhile, is one of the
   runs of EventLoopRuns: up to event `k` it handles exactly what poll reported, in order, and then
   it runs as many functors as are pending there.
   */
  lemma {:induction false} LoopBodyIsRun(s: State, ready: seq<int>, handlers: nat -> seq<Event>, functors: nat -> seq<Event>)
    returns (ss: seq<State>, evs: seq<Event>, k: nat)
    requires s.pc == Polling && PollReports(s, ready) && Flags(s)
    ensures Run(ss, evs) && ss[0] == s && ss[|evs|] == BodyOf(s, ready, handlers, functors)
    ensures 0 < k < |evs| && evs[0] == PollReturns(ready) && evs[k] == TakeFunctors && Handled(ss, evs, 0, k) == ready
    ensures Only(Loops(), evs) ==
            [PollReturns(ready)] + Times(HandleNext, |ready|) + [TakeFunctors] + Times(RunFunctor, |ss[k].pending|) + [EndDrain]
  {
    hide DispatchAll, DrainAll, PollReports, Only, Times, Flags, Handled, StartDrain, StartHandling, FinishDrain, Next;
    var ss1, evs1 := HandlingIsRun(s, ready, handlers);
    k := |evs1|;
    var ss2, evs2, evs3 := DrainingIsRun(ss1[k], functors);
    ss, evs := Concat(Next, ss1, evs1, ss2, evs2);
    assert evs1 == [PollReturns(ready)] + evs1[1..];
    TurnShape(ready, evs1[1..], evs3);
    SameHandled(ss1, evs1, ss, evs, k);
  }

  lemma {:induction false} AllHandled(ss: seq<State>, evs: seq<Event>, ready: seq<int>)
    requires Run(ss, evs) && |evs| > 0 && Flags(ss[0]) && evs[0] == PollReturns(ready)
    requires Only(Loops(), evs[1..]) == Times(HandleNext, |ready|)
    requires ss[|evs|].cur + 1 == |ss[|evs|].active|
    ensures Handled(ss, evs, 0, |evs|) == ready
  {
    forall i | 0 < i < |evs| ensures evs[i] != TakeFunctors {
      if evs[i] == TakeFunctors { KeptIsIn(Loops(), evs[1..], i - 1); }
    }
    hide Only, Times, Next, Flags;
    HandledSoFar(ss, evs, 0, |evs|, ready);
    assert ready[..|ready|] == ready;
  }

  lemma {:induction false} SameHandled(ss1: seq<State>, evs1: seq<Event>, ss2: seq<State>, evs2: seq<Event>, k: nat)
    requires k < |ss1| == |evs1| + 1 && ss1 <= ss2 && evs1 <= evs2 && |ss2| == |evs2| + 1
    ensures Handled(ss1, evs1, 0, k) == Handled(ss2, evs2, 0, k)
  {
    if k > 0 { SameHandled(ss1, evs1, ss2, evs2, k - 1); }
  }
}
