/** Every step of the event loop keeps its invariant, and what that says to callers. */
module EventLoopRuns {
  import opened Traces
  import opened EventLoopSpec

  lemma {:induction false} StepKeepsFlags(s: State, ev: Event)
    requires Flags(s) && Enabled(s, ev)
    ensures Flags(Step(s, ev))
  {
  }

  lemma {:induction false} StepKeepsNotStranded(s: State, ev: Event)
    requires Flags(s) && NotStranded(s) && Enabled(s, ev)
    ensures NotStranded(Step(s, ev))
  {
    hide PollReports, MayRemove;
    match ev
    case Store(tid, _) => assert tid in Step(s, ev).owing;
    case StoreQuit(tid) => assert tid in Step(s, ev).owing;
    case _ =>
  }

  lemma {:induction false} StepKeepsDispatchable(s: State, ev: Event)
    requires Flags(s) && Dispatchable(s) && Enabled(s, ev)
    ensures Dispatchable(Step(s, ev))
  {
  }

  lemma ValuesSnoc(log: seq<Stamped>, x: Stamped)
    ensures Values(log + [x]) == Values(log) + [x.f]
  {
  }

  lemma {:induction false} StepKeepsOrder(s: State, ev: Event)
    requires Flags(s) && Enabled(s, ev)
    requires InOrder(s.queued, s.ran, s.functors, s.pending)
    ensures var s' := Step(s, ev); InOrder(s'.queued, s'.ran, s'.functors, s'.pending)
  {
    hide Values, PollReports, MayRemove;
    match ev
    case OwnQueue(f) => ValuesSnoc(s.queued, Stamped(f, s.drains));
      assert Values(s.ran) + s.functors + (s.pending + [f]) == Values(s.ran) + s.functors + s.pending + [f];
    case Store(_, f) => ValuesSnoc(s.queued, Stamped(f, s.drains));
      assert Values(s.ran) + s.functors + (s.pending + [f]) == Values(s.ran) + s.functors + s.pending + [f];
    case TakeFunctors =>
      assert Values(s.ran) + [] + s.pending == Values(s.ran) + s.pending + [];
    case RunFunctor => ValuesSnoc(s.ran, Stamped(s.functors[0], s.drains));
      assert s.functors == [s.functors[0]] + s.functors[1..];
      assert Values(s.ran) + s.functors == Values(s.ran) + [s.functors[0]] + s.functors[1..];
    case _ =>
  }

  lemma QueueKeepsLater(queued: seq<Stamped>, ran: seq<Stamped>, waiting: nat, drains: nat, f: int)
    requires LaterDrain(queued, ran, waiting, drains) && |ran| + waiting <= |queued|
    ensures LaterDrain(queued + [Stamped(f, drains)], ran, waiting, drains)
  {
  }

  lemma TakeKeepsLater(queued: seq<Stamped>, ran: seq<Stamped>, waiting: nat, drains: nat)
    requires LaterDrain(queued, ran, 0, drains)
    ensures LaterDrain(queued, ran, waiting, drains + 1)
  {
  }

  lemma RunKeepsLater(queued: seq<Stamped>, ran: seq<Stamped>, waiting: nat, drains: nat, f: int)
    requires LaterDrain(queued, ran, waiting + 1, drains) && |ran| < |queued|
    ensures LaterDrain(queued, ran + [Stamped(f, drains)], waiting, drains)
  {
  }

  lemma {:induction false} StepKeepsLaterDrain(s: State, ev: Event)
    requires Flags(s) && Enabled(s, ev)
    requires InOrder(s.queued, s.ran, s.functors, s.pending) && LaterDrain(s.queued, s.ran, |s.functors|, s.drains)
    ensures var s' := Step(s, ev); LaterDrain(s'.queued, s'.ran, |s'.functors|, s'.drains)
  {
    hide PollReports, MayRemove, LaterDrain;
    InOrderPointwise(s.queued, s.ran, s.functors, s.pending);
    hide InOrder, Values;
    match ev
    case OwnQueue(f) => QueueKeepsLater(s.queued, s.ran, |s.functors|, s.drains, f);
    case Store(_, f) => QueueKeepsLater(s.queued, s.ran, |s.functors|, s.drains, f);
    case TakeFunctors => TakeKeepsLater(s.queued, s.ran, |s.pending|, s.drains);
    case RunFunctor => RunKeepsLater(s.queued, s.ran, |s.functors| - 1, s.drains, s.functors[0]);
    case _ =>
  }

  lemma {:induction false} StepKeeps(s: State, ev: Event)
    requires Inv(s) && Enabled(s, ev)
    ensures Inv(Step(s, ev))
  {
    hide Flags, NotStranded, Dispatchable, InOrder, LaterDrain, Step, Enabled;
    StepKeepsFlags(s, ev);
    StepKeepsNotStranded(s, ev);
    StepKeepsDispatchable(s, ev);
    StepKeepsOrder(s, ev);
    StepKeepsLaterDrain(s, ev);
  }

  lemma {:induction false} EveryStateHolds(ss: seq<State>, evs: seq<Event>, j: nat)
    requires Run(ss, evs) && ss[0] == Init() && j < |ss|
    ensures Inv(ss[j])
  {
    assert Inv(Init());
    hide Flags, NotStranded, Dispatchable, InOrder, LaterDrain;
    forall s, ev, s' | Inv(s) && Next(s, ev, s') ensures Inv(s') { StepKeeps(s, ev); }
    Always(Next, s => Inv(s), ss, evs, 0, j);
  }

  // ----- nothing is stranded -----

  /** The loop is blocked with work queued, and nobody will wake it before the poll times out. */
  predicate Stranded(s: State) {
    s.pc == Polling && (s.pending != [] || s.quit) && s.evt == 0 && s.owing == {}
  }

  /** No functor of a foreign thread, and no quit after `loop()` was entered, is ever left waiting without a wakeup. */
  lemma {:induction false} StrandedOnlyIfEarly(ss: seq<State>, evs: seq<Event>, j: nat)
    requires Run(ss, evs) && ss[0] == Init() && j < |ss| && Stranded(ss[j])
    ensures ss[j].early && !ss[j].quit
  {
    EveryStateHolds(ss, evs, j);
  }

  predicate QueuesOutside(ss: seq<State>, evs: seq<Event>, i: nat)
    requires |ss| == |evs| + 1
  {
    i < |evs| && evs[i].OwnQueue? && ss[i].pc == Outside
  }

  lemma {:induction false} EarlyMeansQueuedOutside(ss: seq<State>, evs: seq<Event>, j: nat)
    requires Run(ss, evs) && ss[0] == Init() && j < |ss| && ss[j].early
    ensures exists i: nat :: i < j && QueuesOutside(ss, evs, i)
  {
    assert Next(ss[j - 1], evs[j - 1], ss[j]);
    if ss[j - 1].early {
      EarlyMeansQueuedOutside(ss, evs, j - 1);
    } else {
      assert QueuesOutside(ss, evs, j - 1);
    }
  }

  /** If the loop thread queues only inside `loop()`, the loop is never stranded. */
  lemma {:induction false} NeverStranded(ss: seq<State>, evs: seq<Event>, j: nat)
    requires Run(ss, evs) && ss[0] == Init() && j < |ss|
    requires forall i :: 0 <= i < |evs| && evs[i].OwnQueue? ==> ss[i].pc != Outside
    ensures !Stranded(ss[j])
  {
    if Stranded(ss[j]) {
      StrandedOnlyIfEarly(ss, evs, j);
      EarlyMeansQueuedOutside(ss, evs, j);
    }
  }

  /** Some run from `s` begins with the loop thread's `queue_in_loop`, and blocks before the functor is taken. */
  ghost predicate Strands(s: State, f: int) {
    exists ss: seq<State>, evs: seq<Event> :: StrandsIn(s, f, ss, evs)
  }

  ghost predicate StrandsIn(s: State, f: int, ss: seq<State>, evs: seq<Event>) {
    && Run(ss, evs) && ss[0] == s && |evs| > 0 && evs[0] == OwnQueue(f)
    && (forall i :: 0 <= i < |evs| ==> evs[i] != TakeFunctors)
    && Stranded(ss[|evs|])
  }

  /** What is pending will be taken before the loop blocks, or somebody will wake it. */
  predicate Safe(s: State) { s.pc == Handling || WillWake(s) }

  lemma {:induction false} StepKeepsSafe(s: State, ev: Event)
    requires Flags(s) && Safe(s) && Enabled(s, ev) && ev != TakeFunctors
    ensures Safe(Step(s, ev))
  {
    hide PollReports, MayRemove;
    match ev
    case Write(tid) => assert Step(s, ev).evt > 0;
    case Store(tid, _) => assert tid in Step(s, ev).owing;
    case StoreQuit(tid) => assert tid in Step(s, ev).owing;
    case _ =>
  }

  lemma {:induction false} StaysSafe(ss: seq<State>, evs: seq<Event>, i: nat, j: nat)
    requires Run(ss, evs) && i <= j < |ss| && Flags(ss[i]) && Safe(ss[i])
    requires forall k :: i <= k < j ==> evs[k] != TakeFunctors
    ensures Flags(ss[j]) && Safe(ss[j])
  {
    if i < j {
      StaysSafe(ss, evs, i, j - 1);
      assert Next(ss[j - 1], evs[j - 1], ss[j]);
      StepKeepsSafe(ss[j - 1], evs[j - 1]);
      StepKeepsFlags(ss[j - 1], evs[j - 1]);
    }
  }

  /** The next round's poll blocks, if nobody is about to wake it. */
  lemma QueueThenBlock(s: State, f: int) returns (ss: seq<State>, evs: seq<Event>)
    requires Flags(s) && s.pc == Outside && !WillWake(s)
    ensures StrandsIn(s, f, ss, evs) && ss[|evs|].pending == s.pending + [f]
  {
    var s1 := QueueByLoopThread(s, f);
    var s2 := s1.(quit := false, pc := Testing);
    ss, evs := [s, s1, s2, s2.(active := [], pc := Polling)], [OwnQueue(f), Enter, TestQuit];
  }

  /** A functor that the loop thread queues can strand exactly when it is queued outside `loop()` with no wakeup on its way. */
  lemma {:induction false} StrandsExactly(s: State, f: int)
    requires Flags(s) && InUserCode(s)
    ensures Strands(s, f) <==> s.pc == Outside && !WillWake(s)
  {
    if s.pc == Outside && !WillWake(s) {
      var ss, evs := QueueThenBlock(s, f);
    } else if Strands(s, f) {
      var ss, evs :| StrandsIn(s, f, ss, evs);
      assert Next(ss[0], evs[0], ss[1]);
      StepKeepsFlags(s, evs[0]);
      StaysSafe(ss, evs, 1, |evs|);
    }
  }

  /** The shortest such run: a functor queued before the first `loop()`. */
  lemma StrandedWhenQueuedOutside() returns (ss: seq<State>, evs: seq<Event>)
    ensures StrandsIn(Init(), 7, ss, evs) && ss[|evs|].pending == [7]
  {
    ss, evs := QueueThenBlock(Init(), 7);
  }

  // ----- which quits are heard -----

  predicate Quits(ev: Event) { ev.StoreQuit? || ev.OwnQuit? }

  lemma {:induction false} StaysInside(ss: seq<State>, evs: seq<Event>, i: nat, j: nat)
    requires Run(ss, evs) && i <= j < |ss| && ss[i].pc != Outside
    requires forall k :: i <= k < j ==> !evs[k].TestQuit?
    ensures ss[j].pc != Outside
  {
    if i < j {
      StaysInside(ss, evs, i, j - 1);
      assert Next(ss[j - 1], evs[j - 1], ss[j]);
    }
  }

  /** Event `k` is a quit, made inside `loop()`, that the loop had not tested for before state `j`. */
  predicate Untested(ss: seq<State>, evs: seq<Event>, k: nat, j: nat)
    requires k < j < |ss| == |evs| + 1
  {
    Quits(evs[k]) && ss[k].pc != Outside && forall m :: k < m < j ==> !evs[m].TestQuit?
  }

  lemma {:induction false} QuitFlagStep(s: State, ev: Event)
    requires Enabled(s, ev)
    ensures var s' := Step(s, ev);
            match ev
            case Enter => s.pc == Outside && s'.pc != Outside && !s'.quit
            case TestQuit => s'.pc == Outside <==> s'.quit
            case _ => (s'.pc == Outside <==> s.pc == Outside) && (s'.quit <==> s.quit || Quits(ev))
  {
    hide PollReports, MayRemove;
  }

  lemma UntestedAfter(ss: seq<State>, evs: seq<Event>, k: nat, j: nat)
    requires k < j - 1 && j < |ss| == |evs| + 1
    ensures Untested(ss, evs, k, j) <==> Untested(ss, evs, k, j - 1) && !evs[j - 1].TestQuit?
  {
  }

  /** Inside `loop()` the flag says that there is such a quit. */
  lemma {:induction false} FlagMeansUntested(ss: seq<State>, evs: seq<Event>, j: nat)
    requires Run(ss, evs) && ss[0].pc == Outside && j < |ss| && ss[j].pc != Outside
    ensures ss[j].quit <==> exists k: nat :: k < j && Untested(ss, evs, k, j)
  {
    var ev := evs[j - 1];
    assert Next(ss[j - 1], ev, ss[j]);
    QuitFlagStep(ss[j - 1], ev);
    hide Next, Step, Enabled;
    if ev == Enter {
      forall k: nat | k < j - 1 && Untested(ss, evs, k, j) ensures false { StaysInside(ss, evs, k, j - 1); }
    } else if Quits(ev) {
      assert Untested(ss, evs, j - 1, j);
    } else {
      if ev != TestQuit {
        FlagMeansUntested(ss, evs, j - 1);
        if ss[j].quit {
          var k: nat :| k < j - 1 && Untested(ss, evs, k, j - 1);
          UntestedAfter(ss, evs, k, j);
        }
      }
      if k: nat :| k < j && Untested(ss, evs, k, j) {
        UntestedAfter(ss, evs, k, j);
      }
    }
  }

  /** A test of `quit_` ends the loop exactly when some quit was made inside `loop()` since the test before. */
  lemma {:induction false} LoopEndsExactly(ss: seq<State>, evs: seq<Event>, j: nat)
    requires Run(ss, evs) && ss[0] == Init() && j < |evs| && evs[j] == TestQuit
    ensures ss[j + 1].pc == Outside <==> exists k: nat :: k < j && Untested(ss, evs, k, j)
  {
    assert Next(ss[j], evs[j], ss[j + 1]);
    FlagMeansUntested(ss, evs, j);
  }

  /** What a quit leaves until the next test: the flag and the loop thread inside, or outside, or inside with the flag cleared. */
  lemma {:induction false} QuitUntilTest(ss: seq<State>, evs: seq<Event>, i: nat, j: nat)
    requires Run(ss, evs) && i < j < |ss| && Quits(evs[i])
    requires forall m :: i < m < j ==> !evs[m].TestQuit? && !Quits(evs[m])
    ensures if ss[i].pc != Outside then ss[j].quit && ss[j].pc != Outside else ss[j].pc == Outside || !ss[j].quit
  {
    assert Next(ss[j - 1], evs[j - 1], ss[j]);
    if i < j - 1 { QuitUntilTest(ss, evs, i, j - 1); }
  }

  /** The next test hears a quit, if no other is made meanwhile, exactly when it was made inside `loop()`. */
  lemma {:induction false} QuitIsHeardExactly(ss: seq<State>, evs: seq<Event>, i: nat, j: nat)
    requires Run(ss, evs) && i < j < |evs| && Quits(evs[i]) && evs[j] == TestQuit
    requires forall m :: i < m < j ==> !evs[m].TestQuit? && !Quits(evs[m])
    ensures ss[j + 1].pc == Outside <==> ss[i].pc != Outside
  {
    assert Next(ss[j], evs[j], ss[j + 1]);
    QuitUntilTest(ss, evs, i, j);
  }

  /** A foreign thread quits, completely, and only then does the loop thread enter `loop()`. */
  lemma QuitThenEnter() returns (ss: seq<State>, evs: seq<Event>)
    ensures Run(ss, evs) && ss[0] == Init() && |evs| == 4 && evs[0] == StoreQuit(1)
    ensures ss[4] == Init().(evt := 1, pc := Polling)
  {
    hide PollReports, MayRemove;
    var s0 := Init();
    var s1 := s0.(quit := true, owing := {1});
    var s2 := s0.(quit := true, evt := 1);
    assert s0.owing + {1} == {1} && s1.owing - {1} == {};
    var s3 := s0.(evt := 1, pc := Testing);
    ss, evs := [s0, s1, s2, s3, s0.(evt := 1, pc := Polling)], [StoreQuit(1), Write(1), Enter, TestQuit];
  }

  /** The write makes one poll return; the round finds nothing to do, and the next poll blocks. */
  lemma OneIdleRound() returns (ss: seq<State>, evs: seq<Event>)
    ensures Run(ss, evs) && ss[0] == Init().(evt := 1, pc := Polling)
    ensures ss[|evs|] == Init().(pc := Polling, drains := 1)
  {
    hide MayRemove;
    var s0 := Init().(evt := 1, pc := Polling);
    var s1 := s0.(active := [WAKEUP], handling := true, pc := Handling);
    var s2 := s1.(evt := 0, cur := 0);
    var s3 := s2.(cur := -1, handling := false, calling := true, drains := 1, pc := Draining);
    var s4 := s3.(calling := false, pc := Testing);
    ss := [s0, s1, s2, s3, s4, s4.(active := [], pc := Polling)];
    evs := [PollReturns([WAKEUP]), HandleNext, TakeFunctors, EndDrain, TestQuit];
  }

  /** Such a quit, complete before `loop()` is entered: after one round the loop blocks, and runs on. */
  lemma QuitBeforeLoopIsLost() returns (ss: seq<State>, evs: seq<Event>)
    ensures Run(ss, evs) && ss[0] == Init() && |evs| > 0 && evs[0] == StoreQuit(1)
    ensures var s := ss[|evs|]; s.pc == Polling && !s.quit && s.evt == 0 && s.owing == {}
  {
    var ss1, evs1 := QuitThenEnter();
    var ss2, evs2 := OneIdleRound();
    hide Next;
    Joined(Next, ss1, evs1, ss2, evs2);
    ss, evs := ss1 + ss2[1..], evs1 + evs2;
  }

  // ----- functors -----

  /** Functors run exactly once each, in the order in which they were queued, and each in a drain begun after it was queued. */
  lemma {:induction false} FunctorsRunInOrder(ss: seq<State>, evs: seq<Event>, j: nat)
    requires Run(ss, evs) && ss[0] == Init() && j < |ss|
    ensures var s := ss[j];
            && |s.queued| == |s.ran| + |s.functors| + |s.pending|
            && (forall i :: 0 <= i < |s.ran| ==> s.ran[i].f == s.queued[i].f && s.queued[i].drain < s.ran[i].drain)
            && (forall i :: 0 <= i < |s.functors| ==> s.functors[i] == s.queued[|s.ran| + i].f)
            && (forall i :: 0 <= i < |s.pending| ==> s.pending[i] == s.queued[|s.ran| + |s.functors| + i].f)
  {
    EveryStateHolds(ss, evs, j);
    InOrderPointwise(ss[j].queued, ss[j].ran, ss[j].functors, ss[j].pending);
  }

  lemma InOrderPointwise(queued: seq<Stamped>, ran: seq<Stamped>, functors: seq<int>, pending: seq<int>)
    requires InOrder(queued, ran, functors, pending)
    ensures |queued| == |ran| + |functors| + |pending|
    ensures forall i :: 0 <= i < |ran| ==> ran[i].f == queued[i].f
    ensures forall i :: 0 <= i < |functors| ==> functors[i] == queued[|ran| + i].f
    ensures forall i :: 0 <= i < |pending| ==> pending[i] == queued[|ran| + |functors| + i].f
  {
    var all := Values(ran) + functors + pending;
    assert |all| == |ran| + |functors| + |pending|;
    forall i | 0 <= i < |ran| ensures ran[i].f == queued[i].f { assert all[i] == Values(queued)[i]; }
    forall i | 0 <= i < |functors| ensures functors[i] == queued[|ran| + i].f { assert all[|ran| + i] == Values(queued)[|ran| + i]; }
    forall i | 0 <= i < |pending| ensures pending[i] == queued[|ran| + |functors| + i].f {
      assert all[|ran| + |functors| + i] == Values(queued)[|ran| + |functors| + i];
    }
  }

  // ----- dispatch -----

  /** Every channel that the loop comes to handle is still registered, whatever earlier handlers removed. */
  lemma {:induction false} DispatchedAreRegistered(ss: seq<State>, evs: seq<Event>, j: nat)
    requires Run(ss, evs) && ss[0] == Init() && j < |evs| && evs[j] == HandleNext
    ensures ss[j].cur + 1 < |ss[j].active| && ss[j].cur >= -1 && ss[j].active[ss[j].cur + 1] in ss[j].registered
  {
    EveryStateHolds(ss, evs, j);
    assert Next(ss[j], evs[j], ss[j + 1]);
  }

  /** A removal during dispatch leaves what is still to come registered exactly when the channel is not among it, which is what `remove_channel` makes sure of. */
  lemma {:induction false} RemovalIsSafeExactly(s: State, ch: int)
    requires Flags(s) && Dispatchable(s) && s.pc == Handling && ch in s.registered && ch != WAKEUP
    ensures Dispatchable(s.(registered := s.registered - {ch})) <==> forall i :: s.cur < i < |s.active| ==> s.active[i] != ch
    ensures MayRemove(s, ch) ==> Dispatchable(s.(registered := s.registered - {ch}))
  {
  }

  /** The channels that the steps from `i` to `j` made current, one after the other. */
  function Handled(ss: seq<State>, evs: seq<Event>, i: nat, j: nat): seq<int>
    requires i <= j < |ss| == |evs| + 1
    decreases j
  {
    if i == j then []
    else
      Handled(ss, evs, i, j - 1)
      + (if evs[j - 1] == HandleNext && 0 <= ss[j].cur < |ss[j].active| then [ss[j].active[ss[j].cur]] else [])
  }

  lemma {:induction false} HandlingStep(s: State, ev: Event)
    requires Flags(s) && s.pc == Handling && Enabled(s, ev) && ev != TakeFunctors
    ensures var s' := Step(s, ev);
            s'.pc == Handling && s'.active == s.active && s'.cur == s.cur + (if ev == HandleNext then 1 else 0)
  {
    hide PollReports, MayRemove;
  }

  lemma {:induction false} ReportStep(s: State, ready: seq<int>)
    requires Flags(s) && Enabled(s, PollReturns(ready))
    ensures var s' := Step(s, PollReturns(ready)); Flags(s') && s'.pc == Handling && s'.active == ready && s'.cur == -1
  {
  }

  lemma {:induction false} HandledSoFar(ss: seq<State>, evs: seq<Event>, i: nat, j: nat, ready: seq<int>)
    requires Run(ss, evs) && i < j < |ss| && Flags(ss[i]) && evs[i] == PollReturns(ready)
    requires forall k :: i < k < j ==> evs[k] != TakeFunctors
    ensures Flags(ss[j]) && ss[j].pc == Handling && ss[j].active == ready && -1 <= ss[j].cur < |ready|
    ensures Handled(ss, evs, i, j) == ready[..ss[j].cur + 1]
  {
    hide Flags, Step, Enabled;
    assert Next(ss[j - 1], evs[j - 1], ss[j]);
    if i == j - 1 {
      ReportStep(ss[i], ready);
      assert Handled(ss, evs, i, i) == [];
    } else {
      HandledSoFar(ss, evs, i, j - 1, ready);
      StepKeepsFlags(ss[j - 1], evs[j - 1]);
      HandlingStep(ss[j - 1], evs[j - 1]);
      CurInRange(ss[j]);
      var c := ss[j - 1].cur;
      if evs[j - 1] == HandleNext { assert ready[..c + 2] == ready[..c + 1] + [ready[c + 1]]; }
    }
  }

  lemma CurInRange(s: State)
    requires Flags(s) && s.pc == Handling
    ensures -1 <= s.cur < |s.active|
  {
  }

  /** Between poll's report and the drain the loop handles exactly what was reported, in order and each once. */
  lemma {:induction false} HandlesWhatPollReports(ss: seq<State>, evs: seq<Event>, i: nat, j: nat, ready: seq<int>)
    requires Run(ss, evs) && ss[0] == Init() && i < j < |evs| && evs[i] == PollReturns(ready) && evs[j] == TakeFunctors
    requires forall k :: i < k < j ==> evs[k] != TakeFunctors
    ensures Handled(ss, evs, i, j) == ready
  {
    EveryStateHolds(ss, evs, i);
    HandledSoFar(ss, evs, i, j, ready);
    assert Next(ss[j], evs[j], ss[j + 1]);
    assert ready[..|ready|] == ready;
  }

  // ----- what calls amount to -----

  /** The functors that the events queue, in their order. */
  function Functors(evs: seq<Event>): seq<int> {
    if evs == [] then []
    else
      Functors(evs[..|evs| - 1])
      + (match evs[|evs| - 1]
         case OwnQueue(f) => [f]
         case Store(_, f) => [f]
         case _ => [])
  }

  lemma {:induction false} StepQueues(s: State, ev: Event)
    requires Enabled(s, ev)
    ensures Values(Step(s, ev).queued) ==
            Values(s.queued) + match ev case OwnQueue(f) => [f] case Store(_, f) => [f] case _ => []
  {
    hide PollReports, MayRemove;
    match ev
    case OwnQueue(f) => ValuesSnoc(s.queued, Stamped(f, s.drains));
    case Store(_, f) => ValuesSnoc(s.queued, Stamped(f, s.drains));
    case _ => assert Values(s.queued) + [] == Values(s.queued);
  }

  /** What `FunctorsRunInOrder` says is queued is what was put in, by whichever thread. */
  lemma {:induction false} QueuedAreCalls(ss: seq<State>, evs: seq<Event>, j: nat)
    requires Run(ss, evs) && ss[0] == Init() && j < |ss|
    ensures Values(ss[j].queued) == Functors(evs[..j])
  {
    hide Values, Step, Enabled;
    if j == 0 {
      NoValues();
    } else {
      QueuedAreCalls(ss, evs, j - 1);
      assert Next(ss[j - 1], evs[j - 1], ss[j]);
      StepQueues(ss[j - 1], evs[j - 1]);
      assert evs[..j][..j - 1] == evs[..j - 1];
    }
  }

  lemma NoValues()
    ensures Values([]) == []
  {
  }

  lemma {:induction false} DrainingStep(s: State, ev: Event)
    requires s.pc == Draining && Enabled(s, ev) && ev != EndDrain
    ensures var s' := Step(s, ev); s'.pc == Draining && |s'.ran| + |s'.functors| == |s.ran| + |s.functors|
  {
    hide PollReports, MayRemove, Dispatch, StartDrain, StartHandling;
    if ev.RunFunctor? { assert |s.functors[1..]| == |s.functors| - 1; }
    match ev
    case OwnQueue(_) =>
    case Store(_, _) =>
    case _ =>
  }

  lemma {:induction false} DrainSoFar(ss: seq<State>, evs: seq<Event>, i: nat, j: nat)
    requires Run(ss, evs) && ss[0] == Init() && i < j < |ss| && evs[i] == TakeFunctors
    requires forall k :: i < k < j ==> evs[k] != EndDrain
    ensures ss[j].pc == Draining && |ss[j].ran| + |ss[j].functors| == |ss[i].queued|
  {
    assert Next(ss[j - 1], evs[j - 1], ss[j]);
    if i == j - 1 {
      FunctorsRunInOrder(ss, evs, i);
      EveryStateHolds(ss, evs, i);
    } else {
      DrainSoFar(ss, evs, i, j - 1);
      DrainingStep(ss[j - 1], evs[j - 1]);
    }
  }

  /** By the end of a drain every functor queued before it has run, and no other. */
  lemma {:induction false} DrainRunsAll(ss: seq<State>, evs: seq<Event>, i: nat, j: nat)
    requires Run(ss, evs) && ss[0] == Init() && i < j < |evs| && evs[i] == TakeFunctors && evs[j] == EndDrain
    requires forall k :: i < k < j ==> evs[k] != EndDrain
    ensures |ss[j].ran| == |ss[i].queued|
  {
    DrainSoFar(ss, evs, i, j);
    assert Next(ss[j], evs[j], ss[j + 1]);
  }

  /** The last word on a channel was to register it; the wakeup channel is there from the start. */
  predicate RegisteredBy(evs: seq<Event>, ch: int) {
    if evs == [] then ch == WAKEUP
    else if evs[|evs| - 1] == Register(ch) then true
    else if evs[|evs| - 1] == Remove(ch) then false
    else RegisteredBy(evs[..|evs| - 1], ch)
  }

  lemma {:induction false} RegisteredAreCalls(ss: seq<State>, evs: seq<Event>, j: nat, ch: int)
    requires Run(ss, evs) && ss[0] == Init() && j < |ss|
    ensures ch in ss[j].registered <==> RegisteredBy(evs[..j], ch)
  {
    if j > 0 {
      RegisteredAreCalls(ss, evs, j - 1, ch);
      assert Next(ss[j - 1], evs[j - 1], ss[j]);
      StepRegisters(ss[j - 1], evs[j - 1], ch);
      assert evs[..j][..j - 1] == evs[..j - 1];
    }
  }

  lemma {:induction false} StepRegisters(s: State, ev: Event, ch: int)
    requires Enabled(s, ev)
    ensures ch in Step(s, ev).registered <==> ev == Register(ch) || (ch in s.registered && ev != Remove(ch))
  {
    hide PollReports, MayRemove;
  }
}
