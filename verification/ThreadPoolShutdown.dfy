/** What a stopped pool still runs, and what it leaves in its queue. */
module ThreadPoolShutdown {
  import opened Prelude
  import opened Traces
  import opened Conditions
  import opened ThreadPoolSpec
  import opened ThreadPoolRuns

  /** The workers in `take`: of a stopped pool, those that still look at the queue. */
  function Takers(workers: map<nat, Pc>): set<nat> {
    set w | w in workers && (workers[w] == Taking || workers[w] == Waiting)
  }

  /** How many tasks the queue of a stopped pool will keep. */
  function Leftover(s: State): int { Max(0, |s.queue| - |Takers(s.workers)|) }

  lemma TakerLeaves(workers: map<nat, Pc>, w: nat, pc: Pc)
    requires w in Takers(workers) && pc != Taking && pc != Waiting
    ensures |Takers(workers[w := pc])| == |Takers(workers)| - 1
  {
    assert Takers(workers[w := pc]) == Takers(workers) - {w};
  }

  lemma OthersKeepTakers(workers: map<nat, Pc>, w: nat, pc: Pc)
    requires w in workers && w !in Takers(workers) && pc != Taking && pc != Waiting
    ensures Takers(workers[w := pc]) == Takers(workers)
  {
  }

  /** A pass of `take` by a worker of a stopped pool: one task less, if there is one, and one taker less. */
  lemma TakePassKeepsLeftover(s: State, w: nat, who: Option<nat>)
    requires !s.running && w in Takers(s.workers)
    ensures var s' := TakePass(s, w, who); Leftover(s') == Leftover(s) && s'.accepted == s.accepted && !s'.running
  {
    TakerLeaves(s.workers, w, if s.queue == [] then Top else Running(s.queue[0]));
    hide Takers;
  }

  lemma {:induction false} StepKeepsLeftover(s: State, ev: Event)
    requires Inv(s) && !s.running && Enabled(s, ev)
    ensures var s' := Step(s, ev); Leftover(s') == Leftover(s) && s'.accepted == s.accepted && !s'.running
  {
    hide Promised, Threads, Apart, MayNotify, Awake, TakePass;
    match ev
    case Test(w) => OthersKeepTakers(s.workers, w, Exited);
    case Finish(w) => OthersKeepTakers(s.workers, w, Top);
    case Take(w, who) => TakePassKeepsLeftover(s, w, who);
    case ResumeTake(w, who) =>
      assert Takers(s.workers[w := Taking]) == Takers(s.workers);
      TakePassKeepsLeftover(BackToTake(s, w), w, who);
    case _ =>
  }

  /** A stopped pool accepts nothing more, and what it will leave is settled. */
  lemma {:induction false} LeftoverStays(ss: seq<State>, evs: seq<Event>, j: nat)
    requires Run(ss, evs) && Inv(ss[0]) && !ss[0].running && j < |ss|
    ensures Inv(ss[j]) && !ss[j].running && ss[j].accepted == ss[0].accepted && Leftover(ss[j]) == Leftover(ss[0])
  {
    hide Seats, Promised, Alive, Step, Enabled, Leftover;
    if j > 0 {
      LeftoverStays(ss, evs, j - 1);
      assert Next(ss[j - 1], evs[j - 1], ss[j]);
      StepKeeps(ss[j - 1], evs[j - 1]);
      StepKeepsLeftover(ss[j - 1], evs[j - 1]);
    }
  }

  /** After a stop no more tasks are dequeued than workers were in `take`. */
  lemma {:induction false} AtMostOneEach(ss: seq<State>, evs: seq<Event>, j: nat)
    requires Run(ss, evs) && Inv(ss[0]) && !ss[0].running && j < |ss|
    ensures 0 <= |ss[j].dequeued| - |ss[0].dequeued| <= |Takers(ss[0].workers)| <= |ss[0].workers|
  {
    DequeuedGrows(ss, evs, j);
    LeftoverStays(ss, evs, j);
    TakersAreWorkers(ss[0].workers);
    hide Seats, Promised, Alive, Takers;
  }

  lemma TakersAreWorkers(workers: map<nat, Pc>)
    ensures |Takers(workers)| <= |workers|
  {
    SubsetSize(Takers(workers), workers.Keys);
  }

  lemma {:induction false} SubsetSize(a: set<nat>, b: set<nat>)
    requires a <= b
    ensures |a| <= |b|
    decreases a
  {
    if x :| x in a { SubsetSize(a - {x}, b - {x}); }
  }

  lemma {:induction false} DequeuedGrows(ss: seq<State>, evs: seq<Event>, j: nat)
    requires Run(ss, evs) && j < |ss|
    ensures ss[0].dequeued <= ss[j].dequeued
  {
    if j > 0 {
      DequeuedGrows(ss, evs, j - 1);
      assert Next(ss[j - 1], evs[j - 1], ss[j]);
      StepGrowsDequeued(ss[j - 1], evs[j - 1]);
    }
  }

  lemma {:induction false} StepGrowsDequeued(s: State, ev: Event)
    requires Enabled(s, ev)
    ensures s.dequeued <= Step(s, ev).dequeued
  {
    hide Threads, MayNotify, Awake;
  }

  predicate AllExited(s: State) { forall w <- s.workers :: s.workers[w] == Exited }

  /**
   When all workers have exited, and from then on, the tasks dequeued since the stop are the
   first of the queue, one for each worker that was in `take`, as far as there were so many;
   the others stay in the queue, accepted and never run.
   */
  lemma {:induction false} StoppedPoolLeaves(ss: seq<State>, evs: seq<Event>, j: nat)
    requires Run(ss, evs) && Inv(ss[0]) && !ss[0].running && j < |ss| && AllExited(ss[j])
    ensures var n := Min(|ss[0].queue|, |Takers(ss[0].workers)|);
            ss[j].dequeued == ss[0].dequeued + ss[0].queue[..n] && ss[j].queue == ss[0].queue[n..]
  {
    LeftoverStays(ss, evs, j);
    DequeuedGrows(ss, evs, j);
    NoTakers(ss[j]);
    hide Seats, Promised, Alive, Takers, AllExited, Run;
    var n := Min(|ss[0].queue|, |Takers(ss[0].workers)|);
    var before, after := ss[0], ss[j];
    assert before.dequeued + before.queue == after.dequeued + after.queue;
    assert |after.queue| == |before.queue| - n;
    assert (after.dequeued + after.queue)[|before.dequeued| + n..] == after.queue;
    assert (before.dequeued + before.queue)[|before.dequeued| + n..] == before.queue[n..];
    assert (after.dequeued + after.queue)[..|before.dequeued| + n] == after.dequeued;
  }

  lemma NoTakers(s: State)
    requires AllExited(s)
    ensures Takers(s.workers) == {}
  {
  }

  /** And so it stays. */
  lemma {:induction false} ExitedForEver(ss: seq<State>, evs: seq<Event>, i: nat, j: nat)
    requires Run(ss, evs) && Inv(ss[0]) && !ss[0].running && i <= j < |ss| && AllExited(ss[i])
    ensures AllExited(ss[j])
  {
    hide Seats, Promised, Alive, Step, Enabled;
    if i < j {
      ExitedForEver(ss, evs, i, j - 1);
      LeftoverStays(ss, evs, j - 1);
      assert Next(ss[j - 1], evs[j - 1], ss[j]);
      ExitedStep(ss[j - 1], evs[j - 1]);
    }
  }

  lemma {:induction false} ExitedStep(s: State, ev: Event)
    requires Inv(s) && Enabled(s, ev) && AllExited(s)
    ensures AllExited(Step(s, ev))
  {
    hide Promised, Apart, MayNotify;
  }
}
