/**
 The thread pool (src/base/thread_pool.cpp) after `start` with at least one thread: workers,
 callers of `run` (a task may call it too), and `stop`. Each pass that holds the lock is one step.
 */
module ThreadPoolSpec {
  import opened Prelude
  import opened Traces
  import opened Conditions

  /** Where a worker is: at the test of its loop, before or in the wait of `take`, in a task, or done. */
  datatype Pc = Top | Taking | Waiting | Running(task: nat) | Exited

  datatype State = State(
    max: nat,                // max_queue_size_, 0 for no limit
    queue: seq<nat>,
    running: bool,
    workers: map<nat, Pc>,
    notEmpty: Cond,
    notFull: Cond,
    wants: map<nat, nat>,    // the tasks of the calls of run that wait
    accepted: seq<nat>,      // every push
    dequeued: seq<nat>       // every pop
  )

  function Init(max: nat, workers: set<nat>): State {
    State(max, [], true, map w | w in workers :: Top, NOBODY, NOBODY, map[], [], [])
  }

  datatype Event =
    | Test(w: nat)
    | Take(w: nat, who: Option<nat>)
    | ResumeTake(w: nat, who: Option<nat>)
    | Finish(w: nat)
    | Call(t: nat, f: nat, who: Option<nat>)
    | ResumeCall(t: nat, who: Option<nat>)
    | StirWorker(w: nat)
    | StirCaller(t: nat)
    | Stop

  predicate At(workers: map<nat, Pc>, w: nat, pc: Pc) { w in workers && workers[w] == pc }

  /** Threads that run user code: those outside the pool, and workers in a task. */
  predicate InUserCode(workers: map<nat, Pc>, notFull: Cond, t: nat) {
    t !in Threads(notFull) && (t in workers ==> workers[t].Running?)
  }

  predicate MayHappen(workers: map<nat, Pc>, notEmpty: Cond, notFull: Cond, wants: map<nat, nat>, ev: Event) {
    match ev
    case Test(w) => At(workers, w, Top)
    case Take(w, who) => At(workers, w, Taking) && MayNotify(notFull, who)
    case ResumeTake(w, who) => At(workers, w, Waiting) && Awake(notEmpty, w) && MayNotify(notFull, who)
    case Finish(w) => w in workers && InUserCode(workers, notFull, w)
    case Call(t, _, who) => InUserCode(workers, notFull, t) && MayNotify(notEmpty, who)
    case ResumeCall(t, who) => Awake(notFull, t) && t in wants && MayNotify(notEmpty, who)
    case StirWorker(w) => w in notEmpty.asleep
    case StirCaller(t) => t in notFull.asleep
    case Stop => true
  }

  predicate Enabled(s: State, ev: Event) { MayHappen(s.workers, s.notEmpty, s.notFull, s.wants, ev) }

  predicate IsFull(s: State) { s.max > 0 && |s.queue| >= s.max }

  /** `run` from its test: wait while the queue is full, refuse when stopped, else push and notify a worker. */
  function CallPass(s: State, t: nat, f: nat, who: Option<nat>): State {
    if IsFull(s) && s.running then s.(notFull := Sleep(s.notFull, t), wants := s.wants[t := f])
    else if !s.running then s
    else s.(queue := s.queue + [f], notEmpty := NotifyOne(s.notEmpty, who), accepted := s.accepted + [f])
  }

  /** `take` from its test: wait while the queue is empty and the pool runs, else pop, or return no task. */
  function TakePass(s: State, w: nat, who: Option<nat>): State {
    if s.queue == [] && s.running then s.(notEmpty := Sleep(s.notEmpty, w), workers := s.workers[w := Waiting])
    else if s.queue == [] then s.(workers := s.workers[w := Top])
    else s.(queue := s.queue[1..], dequeued := s.dequeued + [s.queue[0]], workers := s.workers[w := Running(s.queue[0])],
            notFull := if s.max > 0 then NotifyOne(s.notFull, who) else s.notFull)
  }

  function BackToTake(s: State, w: nat): State { s.(notEmpty := Resume(s.notEmpty, w), workers := s.workers[w := Taking]) }

  function BackToCall(s: State, t: nat): State { s.(notFull := Resume(s.notFull, t), wants := s.wants - {t}) }

  function TestRunning(s: State, w: nat): State { s.(workers := s.workers[w := if s.running then Taking else Exited]) }

  function EndTask(s: State, w: nat): State { s.(workers := s.workers[w := Top]) }

  function StopAll(s: State): State {
    s.(running := false, notEmpty := NotifyAll(s.notEmpty), notFull := NotifyAll(s.notFull))
  }

  function Step(s: State, ev: Event): State
    requires Enabled(s, ev)
  {
    match ev
    case Test(w) => TestRunning(s, w)
    case Take(w, who) => TakePass(s, w, who)
    case ResumeTake(w, who) => TakePass(BackToTake(s, w), w, who)
    case Finish(w) => EndTask(s, w)
    case Call(t, f, who) => CallPass(s, t, f, who)
    case ResumeCall(t, who) => CallPass(BackToCall(s, t), t, s.wants[t], who)
    case StirWorker(w) => s.(notEmpty := Stir(s.notEmpty, w))
    case StirCaller(t) => s.(notFull := Stir(s.notFull, t))
    case Stop => StopAll(s)
  }

  // ----- the invariant -----

  /** Waiting workers and waiting callers are where the condition variables say; a worker waits to call only from a task. */
  ghost predicate Seats(workers: map<nat, Pc>, notEmpty: Cond, notFull: Cond, wants: map<nat, nat>) {
    && Apart(notEmpty) && Apart(notFull)
    && (forall w: nat :: w in Threads(notEmpty) <==> At(workers, w, Waiting))
    && wants.Keys == Threads(notFull)
    && (forall t: nat :: t in Threads(notFull) && t in workers ==> workers[t].Running?)
  }

  /** Tasks are promised to workers, and free slots to callers. */
  predicate Promised(s: State) {
    && (s.max > 0 ==> |s.queue| <= s.max)
    && Served(s.notEmpty, |s.queue|)
    && (s.notFull.asleep != {} ==> s.max > 0)
    && (s.max > 0 ==> Served(s.notFull, s.max - |s.queue|))
  }

  /** A stopped pool has no sleepers, and a running one has lost no worker. */
  ghost predicate Alive(workers: map<nat, Pc>, running: bool, notEmpty: Cond, notFull: Cond) {
    && (!running ==> notEmpty.asleep == {} && notFull.asleep == {})
    && (running ==> forall w :: w in workers ==> workers[w] != Exited)
  }

  ghost predicate Inv(s: State) {
    && Seats(s.workers, s.notEmpty, s.notFull, s.wants)
    && Promised(s)
    && Alive(s.workers, s.running, s.notEmpty, s.notFull)
    && s.accepted == s.dequeued + s.queue
  }

  ghost predicate Next(s: State, ev: Event, s': State) {
    Enabled(s, ev) && s' == Step(s, ev)
  }

  ghost predicate Run(ss: seq<State>, evs: seq<Event>) { Trace(Next, ss, evs) }
}
