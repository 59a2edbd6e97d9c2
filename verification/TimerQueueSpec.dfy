/**
 What each entry point of `timer_queue_t` does to the state, the invariant of all its
 runs, and the step relation in which callbacks, foreign threads and the clock interleave.
 */
module TimerQueueSpec {
  import opened Prelude
  import opened Timers
  import opened TimerQueueState

  // ----- add_timer_in_loop and cancel_in_loop -----

  /** The result of `insert`: whether the new timer is now the earliest. */
  predicate EarliestChanged(s: State, a: int)
    requires a in s.heap
  {
    s.timers == [] || s.heap[a].expiration < s.timers[0].when
  }

  function AddInLoop(s: State, a: int): (s': State)
    requires Core(s) && a in s.loose
    ensures Core(s')
  {
    var s1 := Insert(s, a);
    if EarliestChanged(s, a) then s1.(fd := ResetTimerFd(s.heap[a].expiration, s.clock)) else s1
  }

  function CancelInLoop(s: State, id: Id): (s': State)
    requires Core(s)
    ensures Core(s')
  {
    if id in s.active then Delete(Unqueue(s, id.addr), id.addr)
    else if s.calling then s.(canceling := s.canceling + {id})
    else s
  }

  // ----- handle_read, in the steps between which callbacks run -----

  function BeginRead(s: State): (s': State)
    requires Core(s) && s.batch == []
    ensures Core(s')
  {
    var read := s.(fd := if s.fd.Readable(s.clock) then Disarmed else s.fd);
    GetExpired(read, s.clock).(calling := true, canceling := {}, next := 0, batches := s.batches + 1)
  }

  function CallNext(s: State): (s': State)
    requires Core(s) && s.next < |s.batch|
    ensures Core(s')
  {
    var a := s.batch[s.next].addr;
    s.(history := s.history + [Firing(s.batches, IdOf(s.heap, a), s.heap[a], s.batchNow)], next := s.next + 1)
  }

  /** Whether `reset` puts a batch member back. */
  predicate Survives(s: State, a: int)
    requires a in s.heap
  {
    s.heap[a].Repeat() && IdOf(s.heap, a) !in s.canceling
  }

  function ResetOne(s: State): (s': State)
    requires Core(s) && s.batch != []
    ensures Core(s') && s'.batch == s.batch[1..]
  {
    var a := s.batch[0].addr;
    var s1 := TakeHead(s);
    if Survives(s, a) then Insert(Restarted(s1, a), a) else Delete(s1, a)
  }

  function ResetAll(s: State): (s': State)
    requires Core(s)
    ensures Core(s') && s'.batch == []
    decreases |s.batch|
  {
    if s.batch == [] then s else ResetAll(ResetOne(s))
  }

  function Rearmed(s: State): State {
    if s.timers != [] && s.timers[0].when > 0 then s.(fd := ResetTimerFd(s.timers[0].when, s.clock)) else s
  }

  function FinishRead(s: State): (s': State)
    requires Core(s)
    ensures Core(s')
  {
    Rearmed(ResetAll(s.(calling := false, next := 0)))
  }

  // ----- what reset leaves -----

  /** `reset` re-arms or deletes each batch member and touches no other timer. */
  ghost predicate ResetHeap(s: State, heap: map<int, Timer>) {
    && (forall a :: a in heap <==> a in s.heap && (InBatch(s, a) ==> Survives(s, a)))
    && (forall a :: a in heap ==> heap[a] == if InBatch(s, a) then s.heap[a].Restart(s.batchNow) else s.heap[a])
  }

  ghost predicate ResetResult(s: State, s': State) {
    s' == s.(heap := s'.heap, timers := s'.timers, active := s'.active, batch := []) && ResetHeap(s, s'.heap)
  }

  lemma {:induction false} ResetOneShape(s: State)
    requires Core(s) && s.batch != []
    ensures var s' := ResetOne(s); var a := s.batch[0].addr;
            && s' == s.(heap := s'.heap, timers := s'.timers, active := s'.active, batch := s.batch[1..])
            && s'.heap == if Survives(s, a) then s.heap[a := s.heap[a].Restart(s.batchNow)] else s.heap - {a}
  {
    HeadOnly(s);
  }

  lemma {:induction false} ResetOneResult(s: State)
    requires Core(s) && s.batch != []
    ensures var s' := ResetOne(s); var a := s.batch[0].addr;
            && s' == s.(heap := s'.heap, timers := s'.timers, active := s'.active, batch := s.batch[1..])
            && (forall b :: b in s'.heap <==> b in s.heap && (b == a ==> Survives(s, a)))
            && (forall b :: b in s'.heap ==> s'.heap[b] == if b == a then s.heap[a].Restart(s.batchNow) else s.heap[b])
            && (forall b :: b in s'.heap ==> (InBatch(s', b) <==> InBatch(s, b) && b != a))
            && (InBatch(s, a))
  {
    var a := s.batch[0].addr;
    var s' := ResetOne(s);
    HeadOnly(s);
    ResetOneShape(s);
    forall b | b in s'.heap ensures InBatch(s', b) <==> InBatch(s, b) && b != a {
      if b == a {
        assert Key(s'.heap, a) !in s'.batch;
      } else {
        assert Key(s'.heap, b) == Key(s.heap, b);
      }
    }
  }

  lemma {:induction false} HeadOnly(s: State)
    requires Core(s) && s.batch != []
    ensures var a := s.batch[0].addr;
            && InBatch(s, a) && a !in s.loose
            && forall e :: e in s.batch ==> e in s.batch[1..] || e == s.batch[0]
    ensures forall e :: e in s.batch[1..] ==> e in s.batch && e.addr != s.batch[0].addr
  {
    assert s.batch[0] in s.batch;
    assert s.batch == [s.batch[0]] + s.batch[1..];
    assert forall e :: e in s.batch[1..] ==> Less(s.batch[0], e);
  }

  lemma {:induction false} ResetAllResult(s: State)
    requires Core(s)
    ensures ResetResult(s, ResetAll(s))
    decreases |s.batch|
  {
    if s.batch != [] {
      var s1 := ResetOne(s);
      ResetOneResult(s);
      ResetAllResult(s1);
      var s' := ResetAll(s);
      assert s' == ResetAll(s1);
      forall b | b in s.heap ensures b in s'.heap <==> (InBatch(s, b) ==> Survives(s, b)) {
        if b in s1.heap && InBatch(s1, b) { assert s1.heap[b] == s.heap[b]; }
      }
    }
  }

  // ----- events -----

  datatype Event =
    | Construct(addr: int, when: int, interval: real)  // new timer_t, in any thread
    | Add(addr: int)                                   // add_timer_in_loop
    | Cancel(id: Id)                                   // cancel_in_loop, with any id at all
    | Tick(to: int)
    | Begin                                            // handle_read up to its callback loop
    | Call                                             // the next callback of the batch
    | Finish                                           // the rest of handle_read

  predicate Enabled(s: State, ev: Event) {
    match ev
    case Construct(a, _, _) => a !in s.heap && 0 < a < UINTPTR_MAX
    case Add(a) => a in s.loose
    case Cancel(_) => true
    case Tick(to) => s.clock <= to
    case Begin => !s.calling
    case Call => s.calling && s.next < |s.batch|
    case Finish => s.calling && s.next == |s.batch|
  }

  // ----- the invariant of all runs -----

  ghost predicate Phase(s: State) {
    && 0 < s.clock
    && s.batchNow <= s.clock
    && s.next <= |s.batch|
    && (!s.calling ==> s.batch == [])
    && (s.calling ==> 0 < s.batchNow && forall e :: e in s.batch ==> e.when <= s.batchNow)
  }

  /** The descriptor will be readable by the earliest expiration, or 100 microseconds after it was last set. */
  predicate Covered(fd: TimerFd, earliest: int) {
    fd.Armed? && fd.deadline <= Max(earliest, fd.at + MIN_DELAY)
  }

  /** Inside `handle_read` only a nonpositive expiration, which `reset` skips, must be covered already. */
  predicate NeverLate(timers: seq<Entry>, fd: TimerFd, calling: bool) {
    timers != [] && (!calling || timers[0].when <= 0) ==> Covered(fd, timers[0].when)
  }

  /** `h` records the call of the k-th member of the batch. */
  ghost predicate LogsMember(s: State, h: Firing, k: int) {
    && 0 <= k < |s.batch| && s.batch[k].addr in s.heap
    && h == Firing(s.batches, IdOf(s.heap, s.batch[k].addr), s.heap[s.batch[k].addr], s.batchNow)
  }

  /** The callbacks of the current batch so far are the last `next` firings, in batch order. */
  ghost predicate BatchLogged(s: State) {
    && s.next <= |s.history|
    && (forall h :: h in s.history ==> h.batch <= s.batches && h.now <= s.batchNow && h.timer.expiration <= h.now)
    && (s.calling ==>
          && (forall i :: 0 <= i < |s.history| - s.next ==> s.history[i].batch < s.batches)
          && (forall i :: |s.history| - s.next <= i < |s.history| ==>
                LogsMember(s, s.history[i], i - (|s.history| - s.next))))
  }

  /** A timer that has fired as `h` and may fire again: it repeats, and not before its interval is over. */
  predicate Rested(t: Timer, h: Firing) {
    t.interval == h.timer.interval && t.Repeat() && h.now + t.Period() <= t.expiration
  }

  /** The timer that fired as `h`, if it lives, is never loose again; in the queue it is rested. */
  ghost predicate RestedInQueue(heap: map<int, Timer>, loose: set<int>, timers: seq<Entry>, h: Firing) {
    forall a :: a in heap && IdOf(heap, a) == h.id ==>
      a !in loose && heap[a].interval == h.timer.interval && (Keyed(heap, timers, a) ==> Rested(heap[a], h))
  }

  /** Among the members of the batch not called yet it is rested, and `h` is from an earlier batch. */
  ghost predicate RestedInBatch(heap: map<int, Timer>, batch: seq<Entry>, next: nat, batches: nat, h: Firing) {
    forall k :: next <= k < |batch| && batch[k].addr in heap && IdOf(heap, batch[k].addr) == h.id ==>
      h.batch < batches && Rested(heap[batch[k].addr], h)
  }

  ghost predicate Spaced(s: State) {
    forall h :: h in s.history ==>
      && h.id in s.issued
      && RestedInQueue(s.heap, s.loose, s.timers, h)
      && RestedInBatch(s.heap, s.batch, s.next, s.batches, h)
  }

  /** Two firings of one timer: it repeats, they are in different batches, and an interval apart. */
  ghost predicate Apart(h: Firing, h': Firing) {
    h.id.sequence == h'.id.sequence ==>
      && h.id == h'.id && h.timer.Repeat()
      && h.batch < h'.batch
      && h.now + h.timer.Period() <= h'.now
  }

  ghost predicate PairsApart(history: seq<Firing>) {
    forall i, j :: 0 <= i < j < |history| ==> Apart(history[i], history[j])
  }

  ghost predicate Inv(s: State) {
    && Core(s) && Phase(s) && NeverLate(s.timers, s.fd, s.calling)
    && BatchLogged(s) && Spaced(s) && PairsApart(s.history)
  }

  function Step(s: State, ev: Event): (s': State)
    requires Inv(s) && Enabled(s, ev)
  {
    match ev
    case Construct(a, when, interval) => NewTimer(s, a, when, interval)
    case Add(a) => AddInLoop(s, a)
    case Cancel(id) => CancelInLoop(s, id)
    case Tick(to) => s.(clock := to)
    case Begin => BeginRead(s)
    case Call => CallNext(s)
    case Finish => FinishRead(s)
  }
}
