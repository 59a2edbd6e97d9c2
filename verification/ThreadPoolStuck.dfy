/** When a pool with tasks can come to a state in which every worker sleeps, and when it cannot. */
module ThreadPoolStuck {
  import opened Prelude
  import opened Traces
  import opened Conditions
  import opened ThreadPoolSpec
  import opened ThreadPoolRuns

  /** There is a task, and every worker sleeps. */
  predicate Stuck(s: State) {
    s.queue != [] && forall w <- s.workers :: Asleep(s, w)
  }

  ghost predicate CallsOnlyBy(evs: seq<Event>, callers: set<nat>) {
    forall ev <- evs :: ev.Call? ==> ev.t in callers
  }

  // ----- the pools that cannot -----

  lemma {:induction false} StepWants(s: State, ev: Event, t: nat)
    requires Enabled(s, ev) && t in Step(s, ev).wants
    ensures t in s.wants || (ev.Call? && ev.t == t)
  {
    hide Threads, MayNotify, Awake, At;
  }

  /** A thread that waits in `run` has called it. */
  lemma {:induction false} WaitersCalled(max: nat, workers: set<nat>, ss: seq<State>, evs: seq<Event>, j: nat, t: nat)
    requires Run(ss, evs) && ss[0] == Init(max, workers) && j < |ss| && t in ss[j].wants
    ensures exists i :: 0 <= i < j && evs[i].Call? && evs[i].t == t
  {
    assert Next(ss[j - 1], evs[j - 1], ss[j]);
    StepWants(ss[j - 1], evs[j - 1], t);
    if t in ss[j - 1].wants { WaitersCalled(max, workers, ss, evs, j - 1, t); }
  }

  /** An unbounded pool, or one of whose workers some task never calls `run`, is never stuck. */
  lemma {:induction false} NeverStuck(max: nat, workers: set<nat>, ss: seq<State>, evs: seq<Event>, j: nat, w: nat)
    requires Run(ss, evs) && ss[0] == Init(max, workers) && j < |ss| && w in workers
    requires max == 0 || forall ev <- evs :: ev.Call? ==> ev.t != w
    ensures !Stuck(ss[j])
  {
    MaxAndWorkersStay(max, workers, ss, evs, j);
    if Stuck(ss[j]) {
      StuckOnlyInTasks(max, workers, ss, evs, j, w);
      EveryStateHolds(max, workers, ss, evs, j);
      WaitersCalled(max, workers, ss, evs, j, w);
    }
  }

  /** No task is queued, run or waited for. */
  ghost predicate Idle(s: State) {
    s.queue == [] && s.wants == map[] && forall w :: w in s.workers ==> !s.workers[w].Running?
  }

  lemma {:induction false} StepKeepsIdle(s: State, ev: Event)
    requires Idle(s) && Enabled(s, ev) && (ev.Call? ==> ev.t in s.workers)
    ensures Idle(Step(s, ev))
  {
    hide Threads, MayNotify, Awake;
  }

  lemma IdleAtFirst(max: nat, workers: set<nat>)
    ensures Idle(Init(max, workers))
  {
  }

  /** While only its own workers could call `run`, nothing happens in a pool. */
  lemma {:induction false} IdleWithoutOthers(max: nat, workers: set<nat>, ss: seq<State>, evs: seq<Event>, j: nat)
    requires Run(ss, evs) && ss[0] == Init(max, workers) && j < |ss| && CallsOnlyBy(evs, workers)
    ensures Idle(ss[j])
  {
    hide Step, Enabled, Idle, Threads;
    IdleAtFirst(max, workers);
    if j > 0 {
      IdleWithoutOthers(max, workers, ss, evs, j - 1);
      MaxAndWorkersStay(max, workers, ss, evs, j - 1);
      assert Next(ss[j - 1], evs[j - 1], ss[j]);
      assert evs[j - 1] in evs;
      StepKeepsIdle(ss[j - 1], evs[j - 1]);
    }
  }

  // ----- the pools that can -----

  /** Nobody waits in the pool. */
  predicate Calm(s: State) { s.running && s.notEmpty == NOBODY && s.notFull == NOBODY && s.wants == map[] }

  /** `t` hands worker `w` a task. */
  lemma {:induction false} GiveTask(s: State, w: nat, t: nat) returns (ss: seq<State>, evs: seq<Event>)
    requires Calm(s) && s.queue == [] && At(s.workers, w, Top) && t !in s.workers
    ensures Run(ss, evs) && ss[0] == s && CallsOnlyBy(evs, {t})
    ensures var e := ss[|evs|];
            Calm(e) && e.queue == [] && e.max == s.max && e.workers == s.workers[w := Running(1)]
  {
    hide Threads, CallsOnlyBy;
    NobodyWaits();
    var s1 := s.(queue := [1], accepted := s.accepted + [1]);
    var s2 := s1.(workers := s.workers[w := Taking]);
    var s3 := s1.(queue := [], dequeued := s.dequeued + [1], workers := s.workers[w := Running(1)]);
    ss, evs := [s, s1, s2, s3], [Call(t, 1, None), Test(w), Take(w, None)];
    assert Next(s, evs[0], s1);
    assert Next(s1, evs[1], s2);
    assert s2.workers[w := Running(1)] == s3.workers;
    assert Next(s2, evs[2], s3);
    OnlyOneCalls(t, w);
  }

  lemma NobodyWaits()
    ensures Threads(NOBODY) == {}
  {
  }

  lemma OnlyOneCalls(t: nat, w: nat)
    ensures CallsOnlyBy([Call(t, 1, None), Test(w), Take(w, None)], {t})
  {
  }

  /** Every idle worker is handed a task. */
  lemma {:induction false} GiveTasks(s: State, idle: set<nat>, t: nat) returns (ss: seq<State>, evs: seq<Event>)
    requires Calm(s) && s.queue == [] && t !in s.workers
    requires forall w <- s.workers :: if w in idle then s.workers[w] == Top else s.workers[w].Running?
    requires idle <= s.workers.Keys
    ensures Run(ss, evs) && ss[0] == s && CallsOnlyBy(evs, {t})
    ensures var e := ss[|evs|];
            Calm(e) && e.queue == [] && e.max == s.max && e.workers.Keys == s.workers.Keys && forall w <- e.workers :: e.workers[w].Running?
    decreases idle
  {
    ss, evs := [s], [];
    if idle != {} {
      var w :| w in idle;
      ss, evs := GiveTask(s, w, t);
      hide Next, Calm, CallsOnlyBy;
      var ss2, evs2 := GiveTasks(ss[|evs|], idle - {w}, t);
      ss, evs := JoinedRuns(ss, evs, ss2, evs2, {t});
    }
  }

  lemma {:induction false} JoinedRuns(ss1: seq<State>, evs1: seq<Event>, ss2: seq<State>, evs2: seq<Event>, callers: set<nat>)
    returns (ss: seq<State>, evs: seq<Event>)
    requires Run(ss1, evs1) && Run(ss2, evs2) && ss1[|evs1|] == ss2[0] && CallsOnlyBy(evs1, callers) && CallsOnlyBy(evs2, callers)
    ensures Run(ss, evs) && ss[0] == ss1[0] && ss[|evs|] == ss2[|evs2|] && CallsOnlyBy(evs, callers)
  {
    hide Next;
    ss, evs := Concat(Next, ss1, evs1, ss2, evs2);
  }

  /** `t` fills the queue. */
  lemma {:induction false} FillQueue(s: State, t: nat) returns (ss: seq<State>, evs: seq<Event>)
    requires Calm(s) && t !in s.workers && |s.queue| <= s.max
    ensures Run(ss, evs) && ss[0] == s && CallsOnlyBy(evs, {t})
    ensures var e := ss[|evs|]; Calm(e) && |e.queue| == e.max == s.max && e.workers == s.workers
    decreases s.max - |s.queue|
  {
    ss, evs := [s], [];
    if |s.queue| < s.max {
      var s1 := s.(queue := s.queue + [2], accepted := s.accepted + [2]);
      var call := Call(t, 2, None);
      assert Next(s, call, s1);
      hide Next, Calm;
      var ss2, evs2 := FillQueue(s1, t);
      ss, evs := JoinedRuns([s, s1], [call], ss2, evs2, {t});
    }
  }

  /** The tasks of the workers in `awake` call `run` while the queue is full. */
  lemma {:induction false} CallFromTasks(s: State, awake: set<nat>) returns (ss: seq<State>, evs: seq<Event>)
    requires s.running && s.notEmpty == NOBODY && 0 < s.max == |s.queue| && awake <= s.workers.Keys
    requires s.notFull == Cond(s.workers.Keys - awake, {}, {}) && forall w <- s.workers :: s.workers[w].Running?
    ensures Run(ss, evs) && ss[0] == s && CallsOnlyBy(evs, s.workers.Keys)
    ensures Stuck(ss[|evs|])
    decreases awake
  {
    ss, evs := [s], [];
    if awake != {} {
      var w :| w in awake;
      var call := Call(w, 3, None);
      var s1 := s.(notFull := Sleep(s.notFull, w), wants := s.wants[w := 3]);
      assert Next(s, call, s1);
      assert s.workers.Keys - awake + {w} == s.workers.Keys - (awake - {w});
      hide Next, Stuck;
      var ss2, evs2 := CallFromTasks(s1, awake - {w});
      ss, evs := JoinedRuns([s, s1], [call], ss2, evs2, s.workers.Keys);
    }
  }

  /** Some run in which no thread outside `callers` calls `run` gets stuck. */
  ghost predicate CanStick(max: nat, workers: set<nat>, callers: set<nat>) {
    exists ss: seq<State>, evs: seq<Event> :: SticksIn(max, workers, callers, ss, evs)
  }

  ghost predicate SticksIn(max: nat, workers: set<nat>, callers: set<nat>, ss: seq<State>, evs: seq<Event>) {
    Run(ss, evs) && ss[0] == Init(max, workers) && CallsOnlyBy(evs, callers) && Stuck(ss[|evs|])
  }

  lemma MoreCallers(evs: seq<Event>, some: set<nat>, all: set<nat>)
    requires CallsOnlyBy(evs, some) && some <= all
    ensures CallsOnlyBy(evs, all)
  {
  }

  /** For every limit and every set of workers: tasks for all, a full queue, and then a call of `run` from each task. */
  lemma {:induction false} Stick(max: nat, workers: set<nat>, callers: set<nat>, t: nat) returns (ss: seq<State>, evs: seq<Event>)
    requires max > 0 && workers <= callers && t in callers && t !in workers
    ensures SticksIn(max, workers, callers, ss, evs)
  {
    hide Next, CallsOnlyBy, Stuck;
    var s := Init(max, workers);
    assert s.workers.Keys == workers;
    ss, evs := GiveTasks(s, workers, t);
    var ss2, evs2 := FillQueue(ss[|evs|], t);
    ss, evs := JoinedRuns(ss, evs, ss2, evs2, {t});
    ss2, evs2 := CallFromTasks(ss[|evs|], workers);
    MoreCallers(evs, {t}, callers);
    MoreCallers(evs2, workers, callers);
    ss, evs := JoinedRuns(ss, evs, ss2, evs2, callers);
  }

  /** A pool can get stuck exactly when it is bounded, every worker's tasks may call `run`, and so may some other thread. */
  lemma {:induction false} SticksExactly(max: nat, workers: set<nat>, callers: set<nat>)
    requires workers != {}
    ensures CanStick(max, workers, callers) <==> max > 0 && workers <= callers && !(callers <= workers)
  {
    if max > 0 && workers <= callers && !(callers <= workers) {
      var t :| t in callers && t !in workers;
      var ss, evs := Stick(max, workers, callers, t);
    } else if CanStick(max, workers, callers) {
      var ss, evs :| SticksIn(max, workers, callers, ss, evs);
      if callers <= workers {
        MoreCallers(evs, callers, workers);
        IdleWithoutOthers(max, workers, ss, evs, |evs|);
      } else {
        var w :| w in workers && (max == 0 || w !in callers);
        NeverStuck(max, workers, ss, evs, |evs|, w);
      }
    }
  }
}
