/** What the wait loops of `run` and `take`, and a turn of a worker, come to. */
module ThreadPoolTurns {
  import opened Prelude
  import opened Traces
  import opened Conditions
  import opened ThreadPoolSpec
  import opened ThreadPoolRuns
  import opened ThreadPoolObject

  lemma PerformOne(s: State, ev: Event, may: Event -> bool)
    ensures PerformAll(s, [ev], may) == Perform(s, ev, may)
  {
    assert [ev][1..] == [];
  }

  // ----- take -----

  /** A spurious wakeup of a worker, while the queue stays empty, makes no difference. */
  lemma SpuriousTake(s: State, w: nat, pick: set<nat> -> nat, rest: seq<seq<Event>>)
    requires s.queue == [] && s.running && At(s.workers, w, Taking) && w !in Threads(s.notEmpty)
    ensures TakeLoop(s, w, pick, [[StirWorker(w)]] + rest) == TakeLoop(s, w, pick, rest)
  {
    var s1 := TakePass(s, w, Chosen(s.notFull, pick));
    var s2 := s1.(notEmpty := Conditions.Stir(s1.notEmpty, w));
    SleepStirResume(s.notEmpty, w);
    hide Sleep, Resume, Conditions.Stir;
    PerformOne(s1, StirWorker(w), Others(w));
    assert ([[StirWorker(w)]] + rest)[0] == [StirWorker(w)] && ([[StirWorker(w)]] + rest)[1..] == rest;
    assert s.workers[w := Waiting][w := Taking] == s.workers;
    assert BackToTake(s2, w) == s;
  }

  /** When another thread queues a task and notifies the worker, the worker runs it. */
  lemma {:induction false} FedTake(s: State, w: nat, t: nat, f: nat, pick: set<nat> -> nat, rest: seq<seq<Event>>)
    requires s.queue == [] && s.running && At(s.workers, w, Taking) && w !in Threads(s.notEmpty)
    requires InUserCode(s.workers, s.notFull, t)
    ensures var e := TakeLoop(s, w, pick, [[Call(t, f, Some(w))]] + rest);
            && e.dequeued == s.dequeued + [f] && e.queue == [] && At(e.workers, w, Running(f)) && w !in Threads(e.notEmpty)
            && e.notFull == if s.max > 0 then NotifyOne(s.notFull, Chosen(s.notFull, pick)) else s.notFull
  {
    var s1 := TakePass(s, w, Chosen(s.notFull, pick));
    var call := Call(t, f, Some(w));
    SleepNotifyResume(s.notEmpty, w);
    assert InUserCode(s1.workers, s1.notFull, t) && t != w;
    hide Sleep, Resume, NotifyOne, InUserCode, MayNotify, Awake, Threads;
    PerformOne(s1, call, Others(w));
    var s2 := CallPass(s1, t, f, Some(w));
    assert PerformAll(s1, [call], Others(w)) == s2;
    assert ([[call]] + rest)[0] == [call] && ([[call]] + rest)[1..] == rest;
    assert BackToTake(s2, w).queue == [f];
  }

  /** A worker in the wait of `take`. */
  ghost predicate WaitingWorker(s: State, w: nat) { Inv(s) && At(s.workers, w, Waiting) }

  lemma {:induction false} StepKeepsWorker(s: State, ev: Event, w: nat)
    requires At(s.workers, w, Waiting) && Enabled(s, ev) && Others(w)(ev)
    ensures At(Step(s, ev).workers, w, Waiting) && s.dequeued <= Step(s, ev).dequeued
  {
    hide Threads, MayNotify, Awake;
  }

  lemma {:induction false} OthersKeepWorker(s: State, todo: seq<Event>, w: nat)
    requires WaitingWorker(s, w)
    ensures WaitingWorker(PerformAll(s, todo, Others(w)), w) && s.dequeued <= PerformAll(s, todo, Others(w)).dequeued
    decreases |todo|
  {
    hide Inv, Step, Enabled, Others, At;
    if todo != [] {
      if Others(w)(todo[0]) && Enabled(s, todo[0]) {
        StepKeeps(s, todo[0]);
        StepKeepsWorker(s, todo[0], w);
      }
      OthersKeepWorker(Perform(s, todo[0], Others(w)), todo[1..], w);
    }
  }

  /** The call of `take` is over, or the worker sleeps: it never gives up awake. */
  predicate TakeOver(s: State, w: nat) {
    && w in s.workers
    && (if s.workers[w] == Waiting then w in s.notEmpty.asleep else s.workers[w].Running? || (s.workers[w] == Top && !s.running))
  }

  lemma AsleepOrAwake(s: State, w: nat)
    requires WaitingWorker(s, w) && !Awake(s.notEmpty, w)
    ensures TakeOver(s, w)
  {
    assert w in Threads(s.notEmpty);
  }

  /** The worker's own step `ev` puts it at its test in state `s0`; the rest of the call. */
  lemma {:induction false} TakeEnds(s: State, ev: Event, s0: State, w: nat, pick: set<nat> -> nat, waits: seq<seq<Event>>)
    requires Chooses(pick) && Inv(s) && Enabled(s, ev) && (ev.Take? || ev.ResumeTake?) && ev.w == w
    requires Step(s, ev) == TakePass(s0, w, Chosen(s0.notFull, pick)) && s0.queue == s.queue && s0.running == s.running
    ensures TakeOver(TakeLoop(s0, w, pick, waits), w) && s.dequeued <= TakeLoop(s0, w, pick, waits).dequeued
    ensures s.queue != [] ==> s.dequeued + [s.queue[0]] <= TakeLoop(s0, w, pick, waits).dequeued
    decreases |waits|
  {
    TakeOutcome(s, ev);
    StepKeeps(s, ev);
    hide PerformAll, Enabled, Step, Seats, Promised, Alive, TakePass, Awake;
    var s1 := Step(s, ev);
    if s0.queue == [] && s0.running {
      if waits != [] {
        OthersKeepWorker(s1, waits[0], w);
        var s2 := PerformAll(s1, waits[0], Others(w));
        if Awake(s2.notEmpty, w) {
          var who := Chosen(s2.notFull, pick);
          ResumedTake(s2, w, who, pick);
          TakeEnds(s2, ResumeTake(w, who), BackToTake(s2, w), w, pick, waits[1..]);
        } else {
          AsleepOrAwake(s2, w);
        }
      }
    }
  }

  // ----- run -----

  /** A spurious wakeup of a caller, while the queue stays full, makes no difference. */
  lemma SpuriousCall(s: State, t: nat, f: nat, pick: set<nat> -> nat, rest: seq<seq<Event>>)
    requires IsFull(s) && s.running && t !in Threads(s.notFull) && t !in s.wants
    ensures CallLoop(s, t, f, pick, [[StirCaller(t)]] + rest) == CallLoop(s, t, f, pick, rest)
  {
    var s1 := CallPass(s, t, f, Chosen(s.notEmpty, pick));
    var s2 := s1.(notFull := Conditions.Stir(s1.notFull, t));
    SleepStirResume(s.notFull, t);
    hide Sleep, Resume, Conditions.Stir;
    PerformOne(s1, StirCaller(t), Others(t));
    assert ([[StirCaller(t)]] + rest)[0] == [StirCaller(t)] && ([[StirCaller(t)]] + rest)[1..] == rest;
    assert s1.wants - {t} == s.wants;
    assert BackToCall(s2, t) == s;
  }

  /** When a worker takes a task and notifies the caller, the new task is queued. */
  lemma {:induction false} FreedCall(s: State, t: nat, f: nat, w: nat, pick: set<nat> -> nat, rest: seq<seq<Event>>)
    requires IsFull(s) && |s.queue| == s.max && s.running && t !in Threads(s.notFull) && t !in s.wants
    requires At(s.workers, w, Taking) && w != t
    ensures var e := CallLoop(s, t, f, pick, [[Take(w, Some(t))]] + rest);
            && e.dequeued == s.dequeued + [s.queue[0]] && e.queue == s.queue[1..] + [f]
            && e.accepted == s.accepted + [f] && t !in e.wants
  {
    var s1 := CallPass(s, t, f, Chosen(s.notEmpty, pick));
    var take := Take(w, Some(t));
    SleepNotifyResume(s.notFull, t);
    hide Sleep, Resume, NotifyOne, MayNotify, Awake, Threads;
    PerformOne(s1, take, Others(t));
    var s2 := TakePass(s1, w, Some(t));
    assert PerformAll(s1, [take], Others(t)) == s2;
    assert ([[take]] + rest)[0] == [take] && ([[take]] + rest)[1..] == rest;
    assert !IsFull(BackToCall(s2, t));
  }

  // ----- a turn -----

  lemma TestedTake(s: State, w: nat)
    requires Inv(s) && At(s.workers, w, Top) && s.running
    ensures var s1 := TestRunning(s, w);
            && Inv(s1) && At(s1.workers, w, Taking) && w !in Threads(s1.notEmpty) && s1.queue == s.queue && s1.running
            && s1.dequeued == s.dequeued && s1.accepted == s.accepted && s1.workers == s.workers[w := Taking]
            && s1.notEmpty == s.notEmpty && s1.notFull == s.notFull
  {
    StepKeeps(s, Test(w));
  }

  /** In a stopped pool the worker exits. */
  lemma TurnExits(s: State, w: nat, pick: set<nat> -> nat, waits: seq<seq<Event>>, during: seq<Event>)
    requires !s.running
    ensures Turn(s, w, pick, waits, during) == s.(workers := s.workers[w := Exited])
  {
  }

  lemma TopIsFree(s: State, w: nat, who: Option<nat>)
    requires Inv(s) && At(s.workers, w, Top) && MayNotify(s.notFull, who)
    ensures w !in Threads(s.notFull) && w !in Threads(NotifyOne(s.notFull, who))
  {
    NotifyLeaves(s.notFull, who);
  }

  /** In a running pool with tasks it takes the first one, and when nothing else happens it is back at its test. */
  lemma {:induction false} TurnRunsFirst(s: State, w: nat, pick: set<nat> -> nat, waits: seq<seq<Event>>)
    requires Inv(s) && At(s.workers, w, Top) && s.running && s.queue != [] && Chooses(pick)
    ensures var e := Turn(s, w, pick, waits, []);
            e.dequeued == s.dequeued + [s.queue[0]] && e.queue == s.queue[1..] && At(e.workers, w, Top) && e.accepted == s.accepted
  {
    var s1 := TestRunning(s, w);
    var who := Chosen(s1.notFull, pick);
    TestedTake(s, w);
    TopIsFree(s, w, who);
    TakenAtOnce(s1, w, pick, waits);
    TakesTask(s1, w, who);
    hide Inv, Threads, NotifyOne, Chosen, TakeLoop, TestRunning, Turn, TakePass;
    TurnWithTask(s, w, pick, waits);
  }

  lemma TakesTask(s: State, w: nat, who: Option<nat>)
    requires s.queue != [] && w !in Threads(s.notFull) && w !in Threads(NotifyOne(s.notFull, who))
    ensures var s2 := TakePass(s, w, who);
            && At(s2.workers, w, Running(s.queue[0])) && InUserCode(s2.workers, s2.notFull, w)
            && s2.dequeued == s.dequeued + [s.queue[0]] && s2.queue == s.queue[1..] && s2.accepted == s.accepted
  {
    hide Threads, NotifyOne;
  }

  lemma TurnWithTask(s: State, w: nat, pick: set<nat> -> nat, waits: seq<seq<Event>>)
    requires s.running && var s2 := TakeLoop(TestRunning(s, w), w, pick, waits);
             w in s2.workers && s2.workers[w].Running? && InUserCode(s2.workers, s2.notFull, w)
    ensures Turn(s, w, pick, waits, []) == EndTask(TakeLoop(TestRunning(s, w), w, pick, waits), w)
  {
    hide TakeLoop, InUserCode, TestRunning;
  }

  lemma TakenAtOnce(s: State, w: nat, pick: set<nat> -> nat, waits: seq<seq<Event>>)
    requires s.queue != []
    ensures TakeLoop(s, w, pick, waits) == TakePass(s, w, Chosen(s.notFull, pick))
  {
  }

  /** Whatever else happens, it takes the first task. */
  lemma {:induction false} TurnTakesFirst(s: State, w: nat, pick: set<nat> -> nat, waits: seq<seq<Event>>, during: seq<Event>)
    requires Inv(s) && At(s.workers, w, Top) && s.running && s.queue != []
    ensures s.dequeued + [s.queue[0]] <= Turn(s, w, pick, waits, during).dequeued
  {
    var s1 := TestRunning(s, w);
    var s2 := TakePass(s1, w, Chosen(s1.notFull, pick));
    DequeuedStays(s2, during, InTask(w));
    hide PerformAll, InUserCode, NotifyOne, Chosen;
    assert TakeLoop(s1, w, pick, waits) == s2;
  }

  lemma {:induction false} DequeuedStays(s: State, todo: seq<Event>, may: Event -> bool)
    ensures s.dequeued <= PerformAll(s, todo, may).dequeued
    decreases |todo|
  {
    if todo != [] {
      StepDequeues(s, todo[0], may);
      DequeuedStays(Perform(s, todo[0], may), todo[1..], may);
    }
  }

  lemma {:induction false} StepDequeues(s: State, ev: Event, may: Event -> bool)
    ensures s.dequeued <= Perform(s, ev, may).dequeued
  {
    hide Threads, MayNotify, Awake;
  }

  lemma SleepsAtOnce(s: State, w: nat, pick: set<nat> -> nat)
    requires s.queue == [] && s.running
    ensures var s1 := TakeLoop(s, w, pick, []); At(s1.workers, w, Waiting) && w in s1.notEmpty.asleep
  {
  }

  /** With an empty queue it waits, and goes on waiting after a spurious wakeup. */
  lemma TurnWaits(s: State, w: nat, pick: set<nat> -> nat, rest: seq<seq<Event>>, during: seq<Event>)
    requires Inv(s) && At(s.workers, w, Top) && s.running && s.queue == []
    ensures At(Turn(s, w, pick, [], during).workers, w, Waiting) && w in Turn(s, w, pick, [], during).notEmpty.asleep
    ensures Turn(s, w, pick, [[StirWorker(w)]] + rest, during) == Turn(s, w, pick, rest, during)
  {
    TestedTake(s, w);
    var s1 := TestRunning(s, w);
    SpuriousTake(s1, w, pick, rest);
    SleepsAtOnce(s1, w, pick);
    hide Inv, Threads, TakeLoop, TestRunning, Chosen, TakePass;
  }

  /** When a task is queued and the worker notified, it runs it, and is back at its test. */
  lemma {:induction false} TurnFed(s: State, w: nat, t: nat, f: nat, pick: set<nat> -> nat, rest: seq<seq<Event>>)
    requires Inv(s) && At(s.workers, w, Top) && s.running && s.queue == [] && InUserCode(s.workers, s.notFull, t) && Chooses(pick)
    ensures var e := Turn(s, w, pick, [[Call(t, f, Some(w))]] + rest, []);
            e.dequeued == s.dequeued + [f] && e.queue == [] && At(e.workers, w, Top)
  {
    var s1 := TestRunning(s, w);
    var waits := [[Call(t, f, Some(w))]] + rest;
    TestedTake(s, w);
    FedTake(s1, w, t, f, pick, rest);
    var e := TakeLoop(s1, w, pick, waits);
    FedIsFree(s1, w, t, f, pick, rest);
    hide Inv, Threads, TakeLoop, Turn, TestRunning, Chosen;
    TurnWithTask(s, w, pick, waits);
  }

  /** A worker with a task is not among the callers that wait. */
  lemma {:induction false} FedIsFree(s: State, w: nat, t: nat, f: nat, pick: set<nat> -> nat, rest: seq<seq<Event>>)
    requires Inv(s) && s.queue == [] && s.running && At(s.workers, w, Taking) && w !in Threads(s.notEmpty) && Chooses(pick)
    requires InUserCode(s.workers, s.notFull, t)
    ensures w !in Threads(TakeLoop(s, w, pick, [[Call(t, f, Some(w))]] + rest).notFull)
  {
    assert w !in Threads(s.notFull);
    FedTake(s, w, t, f, pick, rest);
    NotifyLeaves(s.notFull, Chosen(s.notFull, pick));
    hide Inv, Threads, TakeLoop, NotifyOne;
  }
}
