/**
 The event loop (src/net/event_loop_t.cpp): one loop thread, any number of foreign threads,
 an eventfd counter, a locked vector of functors, and the channels that poll reports.
 A foreign thread's `queue_in_loop` or `quit` is two steps: its store, and then its write.
 */
module EventLoopSpec {
  import opened Traces

  /** Where the loop thread is: outside `loop()`, at its test of `quit_`, or past each call in the body. */
  datatype Pc = Outside | Testing | Polling | Handling | Draining

  /** A functor's place in a log: which functor, and how many drains had begun. */
  datatype Stamped = Stamped(f: int, drain: nat)

  datatype State = State(
    pending: seq<int>,        // pending_functors_
    functors: seq<int>,       // what is left of the local vector of do_pending_functors
    evt: nat,                 // the eventfd counter
    quit: bool,               // quit_
    calling: bool,            // calling_pending_functors_
    handling: bool,           // event_handling_
    active: seq<int>,         // active_channels_
    cur: int,                 // the position of current_active_channel_, or -1
    registered: set<int>,     // the channels the poller has
    pc: Pc,
    owing: set<nat>,          // foreign threads between their store and their write
    drains: nat,              // how many times the pending functors were taken
    queued: seq<Stamped>,     // every functor queued, in lock order
    ran: seq<Stamped>,        // every functor run
    early: bool               // the loop thread queued outside loop() and nothing was taken since
  )

  /** The channel of wakeup_fd_. */
  const WAKEUP: int := 0

  function Init(): State {
    State([], [], 0, false, false, false, [], -1, {WAKEUP}, Outside, {}, 0, [], [], false)
  }

  datatype Event =
    // the loop thread, in loop()
    | Enter
    | TestQuit
    | PollReturns(ready: seq<int>)
    | HandleNext
    | TakeFunctors
    | RunFunctor
    | EndDrain
    // the loop thread, in a callback or outside loop()
    | OwnQueue(f: int)
    | OwnQuit
    | Register(ch: int)
    | Remove(ch: int)
    // foreign threads
    | Store(tid: nat, f: int)
    | StoreQuit(tid: nat)
    | Write(tid: nat)

  /** The loop thread runs the user's code. */
  predicate InUserCode(s: State) {
    s.pc == Outside || (s.pc == Handling && 0 <= s.cur) || s.pc == Draining
  }

  predicate Distinct(cs: seq<int>) {
    forall i, j :: 0 <= i < j < |cs| ==> cs[i] != cs[j]
  }

  /** What poll may report: registered channels, each once, and the wakeup channel exactly when its counter is positive. */
  predicate PollReports(s: State, ready: seq<int>) {
    && Distinct(ready)
    && (forall i :: 0 <= i < |ready| ==> ready[i] in s.registered)
    && (WAKEUP in s.registered ==> (WAKEUP in ready <==> s.evt > 0))
  }

  /** The assertion in `remove_channel`. */
  predicate MayRemove(s: State, ch: int) {
    s.handling ==> (0 <= s.cur < |s.active| && s.active[s.cur] == ch) || ch !in s.active
  }

  predicate Enabled(s: State, ev: Event) {
    match ev
    case Enter => s.pc == Outside
    case TestQuit => s.pc == Testing
    case PollReturns(ready) => s.pc == Polling && PollReports(s, ready)
    case HandleNext => s.pc == Handling && s.cur + 1 < |s.active|
    case TakeFunctors => s.pc == Handling && s.cur + 1 == |s.active|
    case RunFunctor => s.pc == Draining && s.functors != []
    case EndDrain => s.pc == Draining && s.functors == []
    case OwnQueue(_) => InUserCode(s)
    case OwnQuit => InUserCode(s)
    case Register(_) => InUserCode(s)
    case Remove(ch) => InUserCode(s) && ch in s.registered && ch != WAKEUP && MayRemove(s, ch)
    case Store(tid, _) => tid !in s.owing
    case StoreQuit(tid) => tid !in s.owing
    case Write(tid) => tid in s.owing
  }

  // ----- the calls -----

  function Push(s: State, f: int): State {
    s.(pending := s.pending + [f], queued := s.queued + [Stamped(f, s.drains)])
  }

  function Wakeup(s: State): State { s.(evt := s.evt + 1) }

  /** `queue_in_loop` by the loop thread: it wakes itself only during a drain. */
  function QueueByLoopThread(s: State, f: int): State {
    var s1 := Push(s, f).(early := s.early || s.pc == Outside);
    if s.calling then Wakeup(s1) else s1
  }

  function HandleRead(s: State): State { s.(evt := 0) }

  function StartHandling(s: State, ready: seq<int>): State {
    s.(active := ready, cur := -1, handling := true, pc := Handling)
  }

  function Dispatch(s: State): State {
    var s1 := s.(cur := s.cur + 1);
    if 0 <= s1.cur < |s.active| && s.active[s1.cur] == WAKEUP then HandleRead(s1) else s1
  }

  /** The end of the dispatch loop, and the swap at the start of `do_pending_functors`. */
  function StartDrain(s: State): State {
    s.(cur := -1, handling := false, calling := true, functors := s.pending, pending := [], drains := s.drains + 1,
       early := false, pc := Draining)
  }

  function CallFunctor(s: State): State
    requires s.functors != []
  {
    s.(functors := s.functors[1..], ran := s.ran + [Stamped(s.functors[0], s.drains)])
  }

  function FinishDrain(s: State): State { s.(calling := false, pc := Testing) }

  function Step(s: State, ev: Event): State
    requires Enabled(s, ev)
  {
    match ev
    case Enter => s.(quit := false, pc := Testing)
    case TestQuit => if s.quit then s.(pc := Outside) else s.(active := [], pc := Polling)
    case PollReturns(ready) => StartHandling(s, ready)
    case HandleNext => Dispatch(s)
    case TakeFunctors => StartDrain(s)
    case RunFunctor => CallFunctor(s)
    case EndDrain => FinishDrain(s)
    case OwnQueue(f) => QueueByLoopThread(s, f)
    case OwnQuit => s.(quit := true)
    case Register(ch) => s.(registered := s.registered + {ch})
    case Remove(ch) => s.(registered := s.registered - {ch})
    case Store(tid, f) => Push(s, f).(owing := s.owing + {tid})
    case StoreQuit(tid) => s.(quit := true, owing := s.owing + {tid})
    case Write(tid) => Wakeup(s).(owing := s.owing - {tid})
  }

  // ----- the invariant -----

  /** Poll will return, or some thread is about to make it. */
  predicate WillWake(s: State) { s.evt > 0 || s.owing != {} }

  /** Functors wait only where a wakeup is sure, except those the loop thread queued outside `loop()`. */
  predicate NotStranded(s: State) {
    && (s.pc != Handling && s.pending != [] ==> WillWake(s) || s.early)
    && (s.pc == Polling && s.quit ==> WillWake(s))
  }

  predicate Flags(s: State) {
    && s.calling == (s.pc == Draining)
    && s.handling == (s.pc == Handling)
    && (s.pc != Draining ==> s.functors == [])
    && (s.pc == Handling ==> -1 <= s.cur < |s.active| )
    && (s.pc != Handling ==> s.cur == -1)
  }

  function Values(log: seq<Stamped>): seq<int> {
    seq(|log|, i requires 0 <= i < |log| => log[i].f)
  }

  /** The log of the queue is what ran, then what is being drained, then what is pending. */
  ghost predicate InOrder(queued: seq<Stamped>, ran: seq<Stamped>, functors: seq<int>, pending: seq<int>) {
    Values(queued) == Values(ran) + functors + pending
  }

  /** Everything runs in a drain that began after it was queued. */
  ghost predicate LaterDrain(queued: seq<Stamped>, ran: seq<Stamped>, waiting: nat, drains: nat) {
    && |ran| <= |queued|
    && (forall i :: 0 <= i < |ran| ==> queued[i].drain < ran[i].drain)
    && (forall i :: 0 <= i < |queued| ==> queued[i].drain <= drains)
    && (forall i :: 0 <= i < |ran| + waiting && i < |queued| ==> queued[i].drain < drains)
  }

  /** What is still to be dispatched is registered. */
  ghost predicate Dispatchable(s: State) {
    && WAKEUP in s.registered
    && (s.pc == Handling ==> Distinct(s.active) && forall i :: 0 <= i < |s.active| && s.cur < i ==> s.active[i] in s.registered)
  }

  ghost predicate Inv(s: State) {
    && Flags(s) && NotStranded(s) && Dispatchable(s)
    && InOrder(s.queued, s.ran, s.functors, s.pending)
    && LaterDrain(s.queued, s.ran, |s.functors|, s.drains)
  }

  ghost predicate Next(s: State, ev: Event, s': State) {
    Enabled(s, ev) && s' == Step(s, ev)
  }

  ghost predicate Run(ss: seq<State>, evs: seq<Event>) { Trace(Next, ss, evs) }
}
