/** Every step of the thread pool keeps its invariant, and what that says of tasks, waits and shutdown. */
module ThreadPoolRuns {
  import opened Prelude
  import opened Traces
  import opened Conditions
  import opened ThreadPoolSpec

  // ----- who waits for what -----

  lemma CallPassKeepsSeats(s: State, t: nat, f: nat, who: Option<nat>)
    requires Seats(s.workers, s.notEmpty, s.notFull, s.wants) && InUserCode(s.workers, s.notFull, t) && MayNotify(s.notEmpty, who)
    ensures var s' := CallPass(s, t, f, who); Seats(s'.workers, s'.notEmpty, s'.notFull, s'.wants)
  {
    hide Apart, Threads, NotifyOne, Sleep, MayNotify, Served;
    SleepServes(s.notFull, t);
    NotifyLeaves(s.notEmpty, who);
  }

  lemma CallPassPromises(s: State, t: nat, f: nat, who: Option<nat>)
    requires Apart(s.notEmpty) && Apart(s.notFull) && t !in Threads(s.notFull) && MayNotify(s.notEmpty, who)
    requires (s.max > 0 ==> |s.queue| <= s.max && Served(s.notFull, s.max - |s.queue| - 1)) && (s.notFull.asleep != {} ==> s.max > 0)
    requires Served(s.notEmpty, |s.queue|) && (!s.running ==> s.notFull.asleep == {})
    ensures Promised(CallPass(s, t, f, who))
  {
    SleepServes(s.notFull, t);
    NotifyServes(s.notEmpty, |s.queue|, who);
    hide Apart, Threads, NotifyOne, MayNotify;
  }

  lemma TakePassKeepsSeats(s: State, w: nat, who: Option<nat>)
    requires Seats(s.workers, s.notEmpty, s.notFull, s.wants) && At(s.workers, w, Taking) && MayNotify(s.notFull, who)
    ensures var s' := TakePass(s, w, who); Seats(s'.workers, s'.notEmpty, s'.notFull, s'.wants)
  {
    hide Apart, Threads, NotifyOne, Sleep, MayNotify, Served;
    assert w !in Threads(s.notEmpty);
    SleepServes(s.notEmpty, w);
    NotifyLeaves(s.notFull, who);
  }

  lemma TakePassPromises(s: State, w: nat, who: Option<nat>)
    requires Apart(s.notEmpty) && Apart(s.notFull) && w !in Threads(s.notEmpty) && MayNotify(s.notFull, who)
    requires (s.max > 0 ==> |s.queue| <= s.max && Served(s.notFull, s.max - |s.queue|)) && (s.notFull.asleep != {} ==> s.max > 0)
    requires Served(s.notEmpty, |s.queue| - 1) && (!s.running ==> s.notEmpty.asleep == {})
    ensures Promised(TakePass(s, w, who))
  {
    hide Apart, Threads, MayNotify, NotifyOne, Sleep;
    SleepServes(s.notEmpty, w);
    if s.max > 0 { NotifyServes(s.notFull, s.max - |s.queue|, who); }
  }

  lemma {:induction false} StepKeepsSeats(s: State, ev: Event)
    requires Seats(s.workers, s.notEmpty, s.notFull, s.wants) && Enabled(s, ev)
    ensures var s' := Step(s, ev); Seats(s'.workers, s'.notEmpty, s'.notFull, s'.wants)
  {
    hide CallPass, TakePass, Apart, Threads, MayNotify;
    match ev
    case Take(w, who) => TakePassKeepsSeats(s, w, who);
    case ResumeTake(w, who) =>
      ResumeServes(s.notEmpty, |s.notEmpty.notified|, w);
      TakePassKeepsSeats(BackToTake(s, w), w, who);
    case Call(t, f, who) => CallPassKeepsSeats(s, t, f, who);
    case ResumeCall(t, who) =>
      ResumeServes(s.notFull, |s.notFull.notified|, t);
      CallPassKeepsSeats(BackToCall(s, t), t, s.wants[t], who);
    case StirWorker(w) => StirServes(s.notEmpty, |s.notEmpty.notified|, w);
    case StirCaller(t) => StirServes(s.notFull, |s.notFull.notified|, t);
    case Stop =>
      NotifyAllKeeps(s.notEmpty);
      NotifyAllKeeps(s.notFull);
    case _ =>
  }

  lemma {:induction false} StepKeepsPromises(s: State, ev: Event)
    requires Seats(s.workers, s.notEmpty, s.notFull, s.wants) && Promised(s) && Enabled(s, ev)
    requires !s.running ==> s.notEmpty.asleep == {} && s.notFull.asleep == {}
    ensures Promised(Step(s, ev))
  {
    hide CallPass, TakePass, Apart, Threads, MayNotify;
    match ev
    case Take(w, who) => TakePassPromises(s, w, who);
    case ResumeTake(w, who) =>
      ResumeServes(s.notEmpty, |s.queue|, w);
      TakePassPromises(BackToTake(s, w), w, who);
    case Call(t, f, who) => CallPassPromises(s, t, f, who);
    case ResumeCall(t, who) =>
      ResumeServes(s.notFull, s.max - |s.queue|, t);
      CallPassPromises(BackToCall(s, t), t, s.wants[t], who);
    case _ =>
  }

  lemma {:induction false} StepKeepsAlive(s: State, ev: Event)
    requires Alive(s.workers, s.running, s.notEmpty, s.notFull) && Enabled(s, ev)
    ensures var s' := Step(s, ev); Alive(s'.workers, s'.running, s'.notEmpty, s'.notFull)
  {
    hide Threads, Awake;
  }

  lemma {:induction false} StepKeepsOrder(s: State, ev: Event)
    requires s.accepted == s.dequeued + s.queue && Enabled(s, ev)
    ensures var s' := Step(s, ev); s'.accepted == s'.dequeued + s'.queue
  {
    hide Threads, Awake, MayNotify, NotifyOne, Sleep, Resume, Stir, NotifyAll;
    var s' := Step(s, ev);
    if s'.accepted == s.accepted && s'.queue != s.queue {
      assert s.queue == [s.queue[0]] + s'.queue;
    }
  }

  lemma {:induction false} StepKeeps(s: State, ev: Event)
    requires Inv(s) && Enabled(s, ev)
    ensures Inv(Step(s, ev))
  {
    StepKeepsSeats(s, ev);
    StepKeepsPromises(s, ev);
    StepKeepsAlive(s, ev);
    StepKeepsOrder(s, ev);
    hide Seats, Promised, Alive, Step, Enabled;
  }

  lemma {:induction false} EveryStateHolds(max: nat, workers: set<nat>, ss: seq<State>, evs: seq<Event>, j: nat)
    requires Run(ss, evs) && ss[0] == Init(max, workers) && j < |ss|
    ensures Inv(ss[j])
  {
    assert Inv(Init(max, workers));
    hide Inv;
    forall s, ev, s' | Inv(s) && Next(s, ev, s') ensures Inv(s') { StepKeeps(s, ev); }
    Always(Next, s => Inv(s), ss, evs, 0, j);
  }

  lemma {:induction false} MaxAndWorkersStay(max: nat, workers: set<nat>, ss: seq<State>, evs: seq<Event>, j: nat)
    requires Run(ss, evs) && ss[0] == Init(max, workers) && j < |ss|
    ensures ss[j].max == max && ss[j].workers.Keys == workers
  {
    if j > 0 {
      MaxAndWorkersStay(max, workers, ss, evs, j - 1);
      assert Next(ss[j - 1], evs[j - 1], ss[j]);
      StepKeepsKeys(ss[j - 1], evs[j - 1]);
    }
  }

  lemma {:induction false} StepKeepsKeys(s: State, ev: Event)
    requires Enabled(s, ev)
    ensures Step(s, ev).max == s.max && Step(s, ev).workers.Keys == s.workers.Keys
  {
    hide Threads, Awake, MayNotify, NotifyOne, Sleep, Resume, Stir, NotifyAll;
  }

  // ----- tasks -----

  /** Tasks are dequeued in the order in which they were accepted, each at most once, and a bounded queue stays within its limit. */
  lemma {:induction false} TasksLeaveInOrder(max: nat, workers: set<nat>, ss: seq<State>, evs: seq<Event>, j: nat)
    requires Run(ss, evs) && ss[0] == Init(max, workers) && j < |ss|
    ensures max > 0 ==> |ss[j].queue| <= max
    ensures |ss[j].dequeued| <= |ss[j].accepted| && ss[j].dequeued == ss[j].accepted[..|ss[j].dequeued|]
    ensures ss[j].queue == ss[j].accepted[|ss[j].dequeued|..]
  {
    EveryStateHolds(max, workers, ss, evs, j);
    MaxAndWorkersStay(max, workers, ss, evs, j);
  }

  // ----- what one pass does -----

  /** A worker at its test goes on exactly while the pool runs; at the end of a task it is back there. */
  lemma TestOutcome(s: State, w: nat)
    ensures Enabled(s, Test(w)) ==> Step(s, Test(w)) == s.(workers := s.workers[w := if s.running then Taking else Exited])
    ensures Enabled(s, Finish(w)) ==> Step(s, Finish(w)) == s.(workers := s.workers[w := Top])
  {
  }

  /** A pass of `take` takes the first task into a run of it, or sleeps if the pool runs, or goes back with none. */
  lemma {:induction false} TakeOutcome(s: State, ev: Event)
    requires Seats(s.workers, s.notEmpty, s.notFull, s.wants) && Enabled(s, ev) && (ev.Take? || ev.ResumeTake?)
    ensures var s' := Step(s, ev);
            && ev.w in s'.workers && s'.accepted == s.accepted && s'.running == s.running
            && if s.queue != [] then
                 s'.workers[ev.w] == Running(s.queue[0]) && s'.queue == s.queue[1..] && s'.dequeued == s.dequeued + [s.queue[0]]
               else
                 && s'.queue == [] && s'.dequeued == s.dequeued
                 && if s.running then s'.workers[ev.w] == Waiting && ev.w in s'.notEmpty.asleep else s'.workers[ev.w] == Top
  {
    hide MayNotify;
  }

  /** A pass of `run` queues the task if the pool runs and has room, sleeps with it if it has none, and drops it if the pool is stopped. */
  lemma {:induction false} CallOutcome(s: State, ev: Event)
    requires Seats(s.workers, s.notEmpty, s.notFull, s.wants) && Enabled(s, ev) && (ev.Call? || ev.ResumeCall?)
    ensures var f := if ev.Call? then ev.f else s.wants[ev.t]; var s' := Step(s, ev);
            && s'.workers == s.workers && s'.dequeued == s.dequeued
            && if s.running && (s.max == 0 || |s.queue| < s.max) then
                 s'.queue == s.queue + [f] && s'.accepted == s.accepted + [f] && ev.t !in Threads(s'.notFull)
               else
                 && s'.queue == s.queue && s'.accepted == s.accepted
                 && if s.running then ev.t in s'.notFull.asleep && ev.t in s'.wants && s'.wants[ev.t] == f
                    else ev.t !in Threads(s'.notFull)
  {
    hide MayNotify;
  }

  // ----- no wakeup is lost -----

  /** While a worker sleeps, a notified one is on its way for every task; and dually for callers and free slots. */
  lemma {:induction false} NoWakeupIsLost(max: nat, workers: set<nat>, ss: seq<State>, evs: seq<Event>, j: nat)
    requires Run(ss, evs) && ss[0] == Init(max, workers) && j < |ss|
    ensures ss[j].notEmpty.asleep != {} ==> |ss[j].queue| <= |ss[j].notEmpty.notified|
    ensures ss[j].notFull.asleep != {} ==> max > 0 && max - |ss[j].queue| <= |ss[j].notFull.notified|
  {
    EveryStateHolds(max, workers, ss, evs, j);
    MaxAndWorkersStay(max, workers, ss, evs, j);
  }

  predicate Asleep(s: State, t: nat) { t in s.notEmpty.asleep || t in s.notFull.asleep }

  lemma WokenAreAwake(s: State, w: nat)
    requires Seats(s.workers, s.notEmpty, s.notFull, s.wants) && w in s.notEmpty.notified
    ensures w in s.workers && !Asleep(s, w)
  {
    assert At(s.workers, w, Waiting);
  }

  /** A running pool with tasks gets stuck in one way only: every worker is in a task that waits to call `run`. */
  lemma {:induction false} StuckOnlyInTasks(max: nat, workers: set<nat>, ss: seq<State>, evs: seq<Event>, j: nat, w: nat)
    requires Run(ss, evs) && ss[0] == Init(max, workers) && j < |ss|
    requires ss[j].queue != [] && w in workers && forall v :: v in workers ==> Asleep(ss[j], v)
    ensures ss[j].running && max > 0 && w in ss[j].notFull.asleep && ss[j].workers.Keys == workers && ss[j].workers[w].Running?
    ensures |ss[j].queue| == max || exists t :: t in ss[j].notFull.notified && t !in workers
  {
    EveryStateHolds(max, workers, ss, evs, j);
    MaxAndWorkersStay(max, workers, ss, evs, j);
    NoWakeupIsLost(max, workers, ss, evs, j);
    var s := ss[j];
    forall v | v in s.notEmpty.notified ensures false { WokenAreAwake(s, v); }
    if |s.queue| != max {
      var t :| t in s.notFull.notified;
      assert t in workers ==> Asleep(s, t);
    }
  }

  /** It does get stuck: with one worker and room for one task, a task calls `run` while another is queued. */
  lemma TaskThatCallsRunSticks() returns (ss: seq<State>, evs: seq<Event>)
    ensures Run(ss, evs) && ss[0] == Init(1, {0}) && evs == [Call(9, 1, None), Test(0), Take(0, None), Call(9, 2, None), Call(0, 3, None)]
    ensures var s := ss[5]; s.running && s.queue == [2] && s.notFull.asleep == {0} && s.workers == map[0 := Running(1)]
  {
    var s0 := Init(1, {0});
    hide Apart, Served, Awake;
    assert Threads(NOBODY) == {} && Threads(Cond({0}, {}, {})) == {0};
    hide Threads;
    assert s0.workers == map[0 := Top];
    var s1 := s0.(queue := [1], accepted := [1]);
    var s2 := s1.(workers := map[0 := Taking]);
    var s3 := s2.(queue := [], dequeued := [1], workers := map[0 := Running(1)]);
    var s4 := s3.(queue := [2], accepted := [1, 2]);
    var s5 := s4.(notFull := Cond({0}, {}, {}), wants := map[0 := 3]);
    ss := [s0, s1, s2, s3, s4, s5];
    evs := [Call(9, 1, None), Test(0), Take(0, None), Call(9, 2, None), Call(0, 3, None)];
    assert Next(s0, evs[0], s1);
    assert Next(s1, evs[1], s2);
    assert Next(s2, evs[2], s3);
    assert Next(s3, evs[3], s4);
    assert Next(s4, evs[4], s5);
    hide Next;
  }

  // ----- shutdown -----

  /** A step by which a worker gets on with its loop. */
  predicate Own(ev: Event, w: nat) {
    match ev
    case Test(v) => v == w
    case Take(v, _) => v == w
    case ResumeTake(v, _) => v == w
    case Finish(v) => v == w
    case ResumeCall(t, _) => t == w
    case _ => false
  }

  /** How far a worker of a stopped pool is from its exit. */
  function Rank(pc: Pc, waits: bool): (r: nat)
    ensures r <= 5
  {
    match pc
    case Exited => 0
    case Top => 1
    case Running(_) => if waits then 3 else 2
    case Taking => 4
    case Waiting => 5
  }

  function RankOf(s: State, w: nat): (r: nat)
    requires w in s.workers
    ensures r <= 5
  {
    Rank(s.workers[w], w in Threads(s.notFull))
  }

  /** In a stopped pool a worker's own steps bring it nearer to its exit, and no step takes it further from it. */
  lemma {:induction false} StoppedStep(s: State, ev: Event, w: nat)
    requires Inv(s) && !s.running && w in s.workers && Enabled(s, ev)
    ensures var s' := Step(s, ev); !s'.running && w in s'.workers && RankOf(s', w) + (if Own(ev, w) then 1 else 0) <= RankOf(s, w)
  {
    hide Promised, Served, MayNotify;
    StepKeepsSeats(s, ev);
  }

  function OwnSteps(evs: seq<Event>, w: nat): nat {
    if evs == [] then 0 else OwnSteps(evs[..|evs| - 1], w) + if Own(evs[|evs| - 1], w) then 1 else 0
  }

  /** After `stop` no thread sleeps or goes to sleep, and a worker takes at most five more steps of its own. */
  lemma {:induction false} StoppedRun(ss: seq<State>, evs: seq<Event>, w: nat, j: nat)
    requires Run(ss, evs) && Inv(ss[0]) && !ss[0].running && w in ss[0].workers && j < |ss|
    ensures Inv(ss[j]) && !ss[j].running && w in ss[j].workers
    ensures ss[j].notEmpty.asleep == {} && ss[j].notFull.asleep == {}
    ensures OwnSteps(evs[..j], w) + RankOf(ss[j], w) <= RankOf(ss[0], w) <= 5
  {
    hide Seats, Promised, Step, Enabled, RankOf;
    if j > 0 {
      StoppedRun(ss, evs, w, j - 1);
      assert Next(ss[j - 1], evs[j - 1], ss[j]);
      StoppedStep(ss[j - 1], evs[j - 1], w);
      StepKeeps(ss[j - 1], evs[j - 1]);
      assert evs[..j][..j - 1] == evs[..j - 1];
    }
  }

  /** Until it exits, a worker of a stopped pool has a step to take; the end of its task is one. */
  lemma {:induction false} StoppedWorkersCanMove(s: State, w: nat) returns (ev: Event)
    requires Inv(s) && !s.running && w in s.workers && s.workers[w] != Exited
    ensures Own(ev, w) && Enabled(s, ev)
    ensures ev.Finish? <==> s.workers[w].Running? && w !in Threads(s.notFull)
  {
    match s.workers[w]
    case Top => ev := Test(w);
    case Taking => ev := Take(w, None);
    case Waiting => ev := ResumeTake(w, None); assert w in Threads(s.notEmpty);
    case Running(_) => if w in Threads(s.notFull) { ev := ResumeCall(w, None); } else { ev := Finish(w); }
  }

  predicate Dequeues(s: State, ev: Event, w: nat) {
    (ev.Take? || ev.ResumeTake?) && ev.w == w && s.queue != []
  }

  lemma {:induction false} DequeueLowersRank(s: State, ev: Event, w: nat)
    requires Enabled(s, ev) && Dequeues(s, ev, w) && Seats(s.workers, s.notEmpty, s.notFull, s.wants)
    ensures w in s.workers && RankOf(s, w) >= 4
    ensures w in Step(s, ev).workers && RankOf(Step(s, ev), w) <= 3
  {
    hide Threads, Apart, MayNotify;
  }

  /** After `stop`, each worker dequeues at most one more task. */
  lemma {:induction false} AtMostOneMoreTask(ss: seq<State>, evs: seq<Event>, w: nat, i: nat, j: nat)
    requires Run(ss, evs) && Inv(ss[0]) && !ss[0].running && w in ss[0].workers
    requires i < j < |evs| && Dequeues(ss[i], evs[i], w)
    ensures !Dequeues(ss[j], evs[j], w)
  {
    hide Promised, Alive, Step, Enabled, RankOf, Dequeues, Seats;
    StoppedRun(ss, evs, w, i);
    StoppedRun(ss, evs, w, j);
    assert Next(ss[i], evs[i], ss[i + 1]) && Next(ss[j], evs[j], ss[j + 1]);
    DequeueLowersRank(ss[i], evs[i], w);
    RankFalls(ss, evs, w, i + 1, j);
    if Dequeues(ss[j], evs[j], w) { DequeueLowersRank(ss[j], evs[j], w); }
  }

  lemma {:induction false} RankFalls(ss: seq<State>, evs: seq<Event>, w: nat, i: nat, j: nat)
    requires Run(ss, evs) && Inv(ss[0]) && !ss[0].running && w in ss[0].workers && i <= j < |ss|
    ensures w in ss[i].workers && w in ss[j].workers && RankOf(ss[j], w) <= RankOf(ss[i], w)
    decreases j - i
  {
    hide Seats, Promised, Alive, Step, Enabled, RankOf;
    StoppedRun(ss, evs, w, i);
    if i < j {
      assert Next(ss[i], evs[i], ss[i + 1]);
      StoppedStep(ss[i], evs[i], w);
      RankFalls(ss, evs, w, i + 1, j);
    }
  }
}
