/**
 The bounded blocking queue (src/base/bounded_blocking_queue.h): any number of threads, each
 pass through `put` or `take` that holds the lock being one step. `notify_one` wakes any
 waiting thread, and a waiting thread may stir without a notification.
 */
module BoundedQueueSpec {
  import opened Prelude
  import opened Traces
  import opened Conditions

  datatype Entry = Entry(thread: nat, x: int)

  datatype State = State(
    cap: nat,                // the capacity of queue_
    queue: seq<int>,
    notEmpty: Cond,
    notFull: Cond,
    wants: map<nat, int>,    // what the waiting putters have to put
    offered: seq<Entry>,     // every call of put, in lock order
    accepted: seq<Entry>,    // every push, in lock order
    taken: seq<int>          // every pop
  )

  function Init(cap: nat): State { State(cap, [], NOBODY, NOBODY, map[], [], [], []) }

  datatype Event =
    | Put(t: nat, x: int, who: Option<nat>)
    | ResumePut(t: nat, who: Option<nat>)
    | Take(t: nat, who: Option<nat>)
    | ResumeTake(t: nat, who: Option<nat>)
    | StirPutter(t: nat)
    | StirTaker(t: nat)

  predicate Free(notEmpty: Cond, notFull: Cond, t: nat) { t !in Threads(notEmpty) && t !in Threads(notFull) }

  predicate MayHappen(notEmpty: Cond, notFull: Cond, wants: map<nat, int>, ev: Event) {
    match ev
    case Put(t, _, who) => Free(notEmpty, notFull, t) && MayNotify(notEmpty, who)
    case ResumePut(t, who) => Awake(notFull, t) && t in wants && MayNotify(notEmpty, who)
    case Take(t, who) => Free(notEmpty, notFull, t) && MayNotify(notFull, who)
    case ResumeTake(t, who) => Awake(notEmpty, t) && MayNotify(notFull, who)
    case StirPutter(t) => t in notFull.asleep
    case StirTaker(t) => t in notEmpty.asleep
  }

  predicate Enabled(s: State, ev: Event) { MayHappen(s.notEmpty, s.notFull, s.wants, ev) }

  /** `put` from its test: wait while the queue is full, else push and notify a taker. */
  function PutPass(s: State, t: nat, x: int, who: Option<nat>): State {
    if |s.queue| == s.cap then s.(notFull := Sleep(s.notFull, t), wants := s.wants[t := x])
    else s.(queue := s.queue + [x], notEmpty := NotifyOne(s.notEmpty, who), accepted := s.accepted + [Entry(t, x)])
  }

  /** `take` from its test: wait while the queue is empty, else pop and notify a putter. */
  function TakePass(s: State, t: nat, who: Option<nat>): State {
    if s.queue == [] then s.(notEmpty := Sleep(s.notEmpty, t))
    else s.(queue := s.queue[1..], notFull := NotifyOne(s.notFull, who), taken := s.taken + [s.queue[0]])
  }

  /** A putter is back from its wait, with its value. */
  function BackToPut(s: State, t: nat): State { s.(notFull := Resume(s.notFull, t), wants := s.wants - {t}) }

  function BackToTake(s: State, t: nat): State { s.(notEmpty := Resume(s.notEmpty, t)) }

  function Step(s: State, ev: Event): State
    requires Enabled(s, ev)
  {
    match ev
    case Put(t, x, who) => PutPass(s.(offered := s.offered + [Entry(t, x)]), t, x, who)
    case ResumePut(t, who) => PutPass(BackToPut(s, t), t, s.wants[t], who)
    case Take(t, who) => TakePass(s, t, who)
    case ResumeTake(t, who) => TakePass(BackToTake(s, t), t, who)
    case StirPutter(t) => s.(notFull := Stir(s.notFull, t))
    case StirTaker(t) => s.(notEmpty := Stir(s.notEmpty, t))
  }

  // ----- the invariant -----

  /** A thread waits for at most one thing, and a putter keeps its value while it waits. */
  predicate Places(notEmpty: Cond, notFull: Cond, wants: map<nat, int>) {
    && Apart(notEmpty) && Apart(notFull)
    && Threads(notEmpty) !! Threads(notFull)
    && wants.Keys == Threads(notFull)
  }

  /** Elements are promised to takers, and free slots to putters. */
  predicate Promised(s: State) {
    && |s.queue| <= s.cap
    && Served(s.notEmpty, |s.queue|)
    && Served(s.notFull, s.cap - |s.queue|)
  }

  function ValuesOf(log: seq<Entry>): seq<int> {
    if log == [] then [] else ValuesOf(log[..|log| - 1]) + [log[|log| - 1].x]
  }

  /** One thread's part of a log. */
  function By(log: seq<Entry>, t: nat): seq<int> {
    if log == [] then []
    else By(log[..|log| - 1], t) + (if log[|log| - 1].thread == t then [log[|log| - 1].x] else [])
  }

  function Blocked(wants: map<nat, int>, t: nat): seq<int> { if t in wants then [wants[t]] else [] }

  /** What a thread has put is what was accepted from it, and then what it still waits to put. */
  ghost predicate Kept(offered: seq<Entry>, accepted: seq<Entry>, wants: map<nat, int>) {
    forall t: nat :: By(offered, t) == By(accepted, t) + Blocked(wants, t)
  }

  ghost predicate Inv(s: State) {
    && Places(s.notEmpty, s.notFull, s.wants)
    && Promised(s)
    && ValuesOf(s.accepted) == s.taken + s.queue
    && Kept(s.offered, s.accepted, s.wants)
  }

  ghost predicate Next(s: State, ev: Event, s': State) {
    Enabled(s, ev) && s' == Step(s, ev)
  }

  ghost predicate Run(ss: seq<State>, evs: seq<Event>) { Trace(Next, ss, evs) }
}
