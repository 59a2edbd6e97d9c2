/**
 Every step keeps the invariant, hence every run does; and what that means for callers:
 cancellation is final, one-shot timers fire once, repeating ones an interval apart,
 and the timerfd is never armed late.
 */
module TimerQueueRuns {
  import opened Prelude
  import opened Timers
  import opened Traces
  import opened TimerQueueState
  import opened TimerQueueSpec

  // ----- each step keeps the invariant -----

  lemma {:induction false} ConstructKeepsSpaced(s: State, a: int, when: int, interval: real)
    requires Core(s) && Spaced(s) && Enabled(s, Construct(a, when, interval))
    ensures Spaced(NewTimer(s, a, when, interval))
  {
    var s' := NewTimer(s, a, when, interval);
    forall h | h in s'.history
      ensures h.id in s'.issued && RestedInQueue(s'.heap, s'.loose, s'.timers, h)
              && RestedInBatch(s'.heap, s'.batch, s'.next, s'.batches, h)
    {
      assert h.id in s.issued && IdOf(s'.heap, a) != h.id;
      assert forall b :: b in s'.heap && b != a ==> s'.heap[b] == s.heap[b];
      assert forall k :: 0 <= k < |s.batch| ==> s.batch[k] in s.batch;
    }
  }

  lemma {:induction false} SameBatchStaysLogged(s: State, s': State)
    requires BatchLogged(s)
    requires s' == s.(heap := s'.heap, created := s'.created, issued := s'.issued, timers := s'.timers, active := s'.active,
                      canceling := s'.canceling, loose := s'.loose, clock := s'.clock, fd := s'.fd)
    requires forall e :: e in s.batch && e.addr in s.heap ==> e.addr in s'.heap && s'.heap[e.addr] == s.heap[e.addr]
    ensures BatchLogged(s')
  {
    forall h: Firing, k | LogsMember(s, h, k) ensures LogsMember(s', h, k) { assert s.batch[k] in s.batch; }
  }

  lemma {:induction false} ConstructKeeps(s: State, a: int, when: int, interval: real)
    requires Inv(s) && Enabled(s, Construct(a, when, interval))
    ensures Inv(NewTimer(s, a, when, interval))
  {
    ConstructKeepsSpaced(s, a, when, interval);
    SameBatchStaysLogged(s, NewTimer(s, a, when, interval));
  }

  lemma {:induction false} AddKeepsSpaced(s: State, a: int)
    requires Core(s) && Spaced(s) && a in s.loose
    ensures Spaced(Insert(s, a))
  {
    var s' := Insert(s, a);
    InsertedIsSet(s.timers, Key(s.heap, a));
    forall h | h in s'.history ensures RestedInQueue(s'.heap, s'.loose, s'.timers, h) {
      assert RestedInQueue(s.heap, s.loose, s.timers, h);
      assert forall b :: Keyed(s'.heap, s'.timers, b) && b != a ==> Keyed(s.heap, s.timers, b);
    }
  }

  lemma {:induction false} AddKeeps(s: State, a: int)
    requires Inv(s) && Enabled(s, Add(a))
    ensures Inv(AddInLoop(s, a))
  {
    AddKeepsSpaced(s, a);
    InsertedIsSet(s.timers, Key(s.heap, a));
    SameBatchStaysLogged(s, AddInLoop(s, a));
  }

  lemma {:induction false} CancelShape(s: State, id: Id)
    requires Core(s) && id in s.active
    ensures var s' := CancelInLoop(s, id);
            && s' == s.(heap := s.heap - {id.addr}, timers := s'.timers, active := s'.active)
            && (forall e :: e in s'.timers <==> e in s.timers && e != Key(s.heap, id.addr))
            && (s'.timers != [] ==> !Less(s'.timers[0], s.timers[0]))
            && (forall e :: e in s.batch ==> e.addr != id.addr)
  {
    assert Queued(s, id.addr) && !InBatch(s, id.addr);
    ErasedIsSet(s.timers, Key(s.heap, id.addr));
  }

  lemma {:induction false} CancelKeepsSpaced(s: State, id: Id)
    requires Core(s) && Spaced(s) && id in s.active
    ensures Spaced(CancelInLoop(s, id))
  {
    CancelShape(s, id);
    var s' := CancelInLoop(s, id);
    forall h | h in s'.history ensures RestedInQueue(s'.heap, s'.loose, s'.timers, h) {
      assert RestedInQueue(s.heap, s.loose, s.timers, h);
      assert forall b :: Keyed(s'.heap, s'.timers, b) ==> Keyed(s.heap, s.timers, b);
    }
  }

  lemma {:induction false} CancelKeeps(s: State, id: Id)
    requires Inv(s)
    ensures Inv(CancelInLoop(s, id))
  {
    if id in s.active {
      CancelShape(s, id);
      CancelKeepsSpaced(s, id);
      SameBatchStaysLogged(s, CancelInLoop(s, id));
    }
  }

  lemma {:induction false} BeginKeeps(s: State)
    requires Inv(s) && !s.calling
    ensures Inv(BeginRead(s))
  {
    var s' := BeginRead(s);
    ExpiredCountSplits(s.timers, s.clock);
    assert s'.heap == s.heap;
    assert s'.timers != [] ==> s'.timers[0] in s'.timers;
    assert Spaced(s') by {
      forall a | Queued(s', a) || InBatch(s', a) ensures Queued(s, a) {}
      assert forall k :: 0 <= k < |s'.batch| ==> s'.batch[k] in s'.batch;
    }
  }

  lemma {:induction false} CallKeepsLog(s: State)
    requires Core(s) && Phase(s) && BatchLogged(s) && Enabled(s, Call)
    ensures BatchLogged(CallNext(s))
  {
    var s' := CallNext(s);
    var n := |s.history|;
    assert s.batch[s.next] in s.batch;
    forall i | n + 1 - s'.next <= i < n + 1 ensures LogsMember(s', s'.history[i], i - (n + 1 - s'.next)) {
      if i < n { assert LogsMember(s, s.history[i], i - (n - s.next)); }
    }
  }

  /** The firing that `CallNext` adds. */
  function Latest(s: State): Firing
    requires Core(s) && s.next < |s.batch|
  {
    var a := s.batch[s.next].addr;
    Firing(s.batches, IdOf(s.heap, a), s.heap[a], s.batchNow)
  }

  lemma {:induction false} CallKeepsSpaced(s: State)
    requires Core(s) && Spaced(s) && Enabled(s, Call)
    ensures Spaced(CallNext(s))
  {
    var s' := CallNext(s);
    var f := Latest(s);
    var a := s.batch[s.next].addr;
    assert s.batch[s.next] in s.batch;
    assert InBatch(s, a);
    assert RestedInQueue(s.heap, s.loose, s.timers, f) by {
      assert !Queued(s, a) && a !in s.loose;
      forall b | b in s.heap && IdOf(s.heap, b) == f.id ensures b == a {}
    }
    forall k | s'.next <= k < |s.batch| && s.batch[k].addr in s.heap ensures IdOf(s.heap, s.batch[k].addr) != f.id {
      assert Less(s.batch[s.next], s.batch[k]) && s.batch[k] in s.batch;
    }
    assert f.id in s.issued;
    assert forall h :: h in s'.history ==> h in s.history || h == f;
  }

  lemma {:induction false} CallKeepsApart(s: State)
    requires Core(s) && Phase(s) && BatchLogged(s) && Spaced(s) && PairsApart(s.history) && Enabled(s, Call)
    ensures PairsApart(CallNext(s).history)
  {
    var f := Latest(s);
    assert s.batch[s.next] in s.batch;
    forall i | 0 <= i < |s.history| ensures Apart(s.history[i], f) {
      var h := s.history[i];
      assert h in s.history;
      assert h.id in s.issued && f.id in s.issued;
      assert RestedInBatch(s.heap, s.batch, s.next, s.batches, h);
    }
  }

  lemma {:induction false} CallKeeps(s: State)
    requires Inv(s) && Enabled(s, Call)
    ensures Inv(CallNext(s))
  {
    CallKeepsLog(s);
    CallKeepsSpaced(s);
    CallKeepsApart(s);
  }

  lemma {:induction false} FinishKeepsOneSpaced(s: State, s1: State, h: Firing)
    requires Core(s) && Phase(s) && BatchLogged(s) && Spaced(s) && h in s.history
    requires ResetHeap(s, s1.heap) && s1.loose == s.loose && Core(s1)
    ensures RestedInQueue(s1.heap, s1.loose, s1.timers, h)
  {
    assert RestedInQueue(s.heap, s.loose, s.timers, h);
    forall a | a in s1.heap && IdOf(s1.heap, a) == h.id
      ensures a !in s1.loose && s1.heap[a].interval == h.timer.interval && Rested(s1.heap[a], h)
    {
      assert IdOf(s.heap, a) == h.id;
      assert h.now <= s.batchNow;
      if !InBatch(s, a) { assert Queued(s, a); }
    }
  }

  /** `reset`, seen from the state in which the last callback returned. */
  lemma {:induction false} FinishShape(s: State)
    requires Core(s) && s.calling
    ensures var s1 := ResetAll(s.(calling := false, next := 0));
            && s1 == s.(heap := s1.heap, timers := s1.timers, active := s1.active, batch := [], calling := false, next := 0)
            && ResetHeap(s, s1.heap) && Core(s1) && FinishRead(s) == Rearmed(s1)
  {
    var s0 := s.(calling := false, next := 0);
    ResetAllResult(s0);
    forall a ensures InBatch(s0, a) <==> InBatch(s, a) {}
    forall a | a in s.heap ensures Survives(s0, a) <==> Survives(s, a) {}
  }

  lemma {:induction false} FinishKeepsSpaced(s: State)
    requires Core(s) && Phase(s) && BatchLogged(s) && Spaced(s) && Enabled(s, Finish)
    ensures Spaced(FinishRead(s))
  {
    FinishShape(s);
    var s1 := ResetAll(s.(calling := false, next := 0));
    forall h | h in s.history ensures RestedInQueue(s1.heap, s1.loose, s1.timers, h) {
      FinishKeepsOneSpaced(s, s1, h);
    }
  }

  /** What `reset` puts back expires after its `now`; the rest of the queue it leaves. */
  lemma {:induction false} EarlyEntryWasThere(s: State, s1: State, e: Entry)
    requires Core(s) && Phase(s) && Core(s1) && s.calling
    requires ResetHeap(s, s1.heap) && s1.loose == s.loose && s1.batch == []
    requires e in s1.timers && e.when <= 0
    ensures e in s.timers
  {
    assert Queued(s1, e.addr);
    assert InBatch(s, e.addr) ==> e.when == s.batchNow + s.heap[e.addr].Period();
    assert Queued(s, e.addr);
  }

  lemma {:induction false} FinishKeepsNeverLate(s: State)
    requires Core(s) && Phase(s) && NeverLate(s.timers, s.fd, s.calling) && Enabled(s, Finish)
    ensures var s' := FinishRead(s); NeverLate(s'.timers, s'.fd, s'.calling)
  {
    FinishShape(s);
    var s1 := ResetAll(s.(calling := false, next := 0));
    if s1.timers != [] && s1.timers[0].when <= 0 {
      EarlyEntryWasThere(s, s1, s1.timers[0]);
      assert s.timers[0].when <= s1.timers[0].when;
    }
  }

  lemma {:induction false} FinishKeeps(s: State)
    requires Inv(s) && Enabled(s, Finish)
    ensures Inv(FinishRead(s))
  {
    FinishShape(s);
    FinishKeepsSpaced(s);
    FinishKeepsNeverLate(s);
  }

  lemma {:induction false} TickKeeps(s: State, to: int)
    requires Inv(s) && s.clock <= to
    ensures Inv(s.(clock := to))
  {
    SameBatchStaysLogged(s, s.(clock := to));
  }

  lemma {:induction false} StepKeeps(s: State, ev: Event)
    requires Inv(s) && Enabled(s, ev)
    ensures Inv(Step(s, ev))
  {
    match ev
    case Construct(a, when, interval) => ConstructKeeps(s, a, when, interval);
    case Add(a) => AddKeeps(s, a);
    case Cancel(id) => CancelKeeps(s, id);
    case Tick(to) => TickKeeps(s, to);
    case Begin => BeginKeeps(s);
    case Call => CallKeeps(s);
    case Finish => FinishKeeps(s);
  }

  // ----- runs -----

  /** One step; it is defined where the invariant is, and `EveryStateHolds` shows that no run from `Init` gets elsewhere. */
  ghost predicate Next(s: State, ev: Event, s': State) {
    Inv(s) && Enabled(s, ev) && s' == Step(s, ev)
  }

  ghost predicate Run(ss: seq<State>, evs: seq<Event>) {
    Trace(Next, ss, evs)
  }

  lemma InitHolds(clock: int)
    requires 0 < clock
    ensures Inv(Init(clock))
  {
  }

  lemma {:induction false} EveryStateHolds(ss: seq<State>, evs: seq<Event>, i: nat, j: nat)
    requires Run(ss, evs) && i <= j < |ss| && Inv(ss[i])
    ensures Inv(ss[j])
  {
    forall s, ev, s' | Inv(s) && Next(s, ev, s') ensures Inv(s') { StepKeeps(s, ev); }
    Always(Next, s => Inv(s), ss, evs, i, j);
  }

  /**
   What holds after every run from a fresh queue: the two indexes agree entry for entry,
   every live timer has one owner and a number of its own, and no callback ran early.
   */
  lemma {:induction false} EveryRunIsConsistent(ss: seq<State>, evs: seq<Event>, clock: int, j: nat)
    requires Run(ss, evs) && ss[0] == Init(clock) && 0 < clock && j < |ss|
    ensures var s := ss[j];
            && |s.timers| == |s.active|
            && (forall id: Id :: id in s.active <==>
                  id.addr in s.heap && s.heap[id.addr].sequence == id.sequence
                  && Entry(s.heap[id.addr].expiration, id.addr) in s.timers)
            && (forall e :: e in s.timers || e in s.batch ==> e.addr in s.heap && s.heap[e.addr].expiration == e.when)
            && (forall a :: a in s.heap ==>
                  (if a in s.loose then 1 else 0)
                  + (if Entry(s.heap[a].expiration, a) in s.timers then 1 else 0)
                  + (if Entry(s.heap[a].expiration, a) in s.batch then 1 else 0) == 1)
            && (forall a, b :: a in s.heap && b in s.heap && a != b ==> s.heap[a].sequence != s.heap[b].sequence)
            && (forall h :: h in s.history ==> h.timer.expiration <= h.now)
  {
    InitHolds(clock);
    EveryStateHolds(ss, evs, 0, j);
    InvIsConsistent(ss[j]);
  }

  lemma {:induction false} InvIsConsistent(s: State)
    requires Inv(s)
    ensures |s.timers| == |s.active|
    ensures forall id: Id :: id in s.active <==>
              id.addr in s.heap && s.heap[id.addr].sequence == id.sequence
              && Entry(s.heap[id.addr].expiration, id.addr) in s.timers
    ensures forall e :: e in s.timers || e in s.batch ==> e.addr in s.heap && s.heap[e.addr].expiration == e.when
    ensures forall a :: a in s.heap ==>
              (if a in s.loose then 1 else 0)
              + (if Entry(s.heap[a].expiration, a) in s.timers then 1 else 0)
              + (if Entry(s.heap[a].expiration, a) in s.batch then 1 else 0) == 1
    ensures forall a, b :: a in s.heap && b in s.heap && a != b ==> s.heap[a].sequence != s.heap[b].sequence
    ensures forall h :: h in s.history ==> h.timer.expiration <= h.now
  {
    SizesAgree(s);
    forall id: Id | id.addr in s.heap && s.heap[id.addr].sequence == id.sequence && Entry(s.heap[id.addr].expiration, id.addr) in s.timers
      ensures id in s.active
    {
      assert Queued(s, id.addr) && IdOf(s.heap, id.addr) == id;
    }
    forall a | a in s.heap
      ensures (if a in s.loose then 1 else 0)
              + (if Entry(s.heap[a].expiration, a) in s.timers then 1 else 0)
              + (if Entry(s.heap[a].expiration, a) in s.batch then 1 else 0) == 1
    {
      assert Queued(s, a) <==> Entry(s.heap[a].expiration, a) in s.timers;
      assert InBatch(s, a) <==> Entry(s.heap[a].expiration, a) in s.batch;
    }
    forall a, b | a in s.heap && b in s.heap && a != b ensures s.heap[a].sequence != s.heap[b].sequence {
      assert IdOf(s.heap, a) in s.issued && IdOf(s.heap, b) in s.issued;
    }
  }

  /** Over any run a one-shot timer fires at most once, and a repeating one at least an interval apart. */
  lemma {:induction false} FiringsAreSpaced(ss: seq<State>, evs: seq<Event>, clock: int, k: nat, i: nat, j: nat)
    requires Run(ss, evs) && ss[0] == Init(clock) && 0 < clock && k < |ss|
    requires i < j < |ss[k].history| && ss[k].history[i].id.sequence == ss[k].history[j].id.sequence
    ensures var h, h' := ss[k].history[i], ss[k].history[j];
            && h.timer.interval > 0.0
            && h.batch < h'.batch
            && h'.now >= h.now + h.timer.Period()
            && h.timer.interval * 1_000_000.0 < (h'.now - h.now + 1) as real
  {
    InitHolds(clock);
    EveryStateHolds(ss, evs, 0, k);
    RestartAddsInterval(ss[k].history[i].timer, ss[k].history[i].now);
    assert Apart(ss[k].history[i], ss[k].history[j]);
  }

  /** When `handle_read` ends its loop, the callbacks it made are those of the batch, each once, in batch order. */
  lemma {:induction false} BatchFiresInOrder(s: State, k: int)
    requires Inv(s) && Enabled(s, Finish) && 0 <= k < |s.batch|
    ensures |s.batch| <= |s.history|
    ensures var h := s.history[|s.history| - |s.batch| + k];
            h.batch == s.batches && h.now == s.batchNow && Entry(h.timer.expiration, h.id.addr) == s.batch[k]
  {
    var i := |s.history| - |s.batch| + k;
    assert LogsMember(s, s.history[i], i - (|s.history| - s.next));
    assert s.batch[k] in s.batch;
  }

  /** `handle_read` takes exactly the timers that are due, in ascending order, out of both indexes. */
  lemma {:induction false} BeginTakesTheDue(s: State)
    requires Inv(s) && !s.calling
    ensures var s' := BeginRead(s);
            && Sorted(s'.batch)
            && (forall a :: a in s.heap ==> (InBatch(s', a) <==> Queued(s, a) && s.heap[a].expiration <= s.clock))
            && (forall a :: a in s.heap ==> (Queued(s', a) <==> Queued(s, a) && s.clock < s.heap[a].expiration))
            && (forall a :: a in s.heap && InBatch(s', a) ==> IdOf(s.heap, a) !in s'.active)
    ensures BeginRead(s).fd == if s.fd.Readable(s.clock) then Disarmed else s.fd
  {
    BeginKeeps(s);
    ExpiredCountSplits(s.timers, s.clock);
  }

  /** Outside `handle_read`, once the earliest timer is due and 100 microseconds have passed, the loop is woken and takes it. */
  lemma {:induction false} DueTimersWake(s: State)
    requires Inv(s) && !s.calling && s.timers != []
    ensures s.fd.Armed? && s.fd.deadline <= Max(s.timers[0].when, s.fd.at + 100)
    ensures s.clock >= Max(s.timers[0].when, s.fd.at + 100) ==>
              s.fd.Readable(s.clock) && s.timers[0] in BeginRead(s).batch
  {
    ExpiredCountSplits(s.timers, s.clock);
    assert s.timers[0] in s.timers;
  }

  /** What becomes of a member of the batch: a repeating timer nobody cancelled is back in the queue, its interval after the batch's time. */
  lemma {:induction false} SurvivorExpires(s: State, a: int)
    requires Inv(s) && Enabled(s, Finish) && InBatch(s, a)
    ensures a in FinishRead(s).heap <==> s.heap[a].interval > 0.0 && Id(a, s.heap[a].sequence) !in s.canceling
    ensures a in FinishRead(s).heap ==>
              var t, t' := s.heap[a], FinishRead(s).heap[a]; var d := t'.expiration - s.batchNow;
              && Queued(FinishRead(s), a) && t'.interval == t.interval && t'.sequence == t.sequence
              && d as real <= t.interval * 1_000_000.0 < (d + 1) as real
  {
    FinishShape(s);
    RestartAddsInterval(s.heap[a], s.batchNow);
  }

  /** State `i` has a head for which the descriptor was set, for its time or for 100 microseconds later. */
  predicate SetForHead(s: State, fd: TimerFd) {
    fd.Armed? && s.timers != [] && s.clock == fd.at && fd.deadline == Max(s.timers[0].when, fd.at + 100)
  }

  lemma {:induction false} StepSetsForHead(s: State, ev: Event)
    requires Inv(s) && Enabled(s, ev)
    ensures var s' := Step(s, ev); s'.fd == s.fd || s'.fd == Disarmed || SetForHead(s', s'.fd)
  {
    hide NeverLate, BatchLogged, Spaced, PairsApart;
    match ev
    case Add(a) => InsertedIsSet(s.timers, Key(s.heap, a));
    case Finish => FinishShape(s);
    case _ =>
  }

  /** The descriptor is never set for another time than that of the earliest timer, when it was set. */
  lemma {:induction false} ArmedForAHead(ss: seq<State>, evs: seq<Event>, clock: int, j: nat)
    requires Run(ss, evs) && ss[0] == Init(clock) && 0 < clock && j < |ss| && ss[j].fd.Armed?
    ensures exists i: nat :: i <= j && SetForHead(ss[i], ss[j].fd)
  {
    hide Inv, Step, Enabled;
    var s := ss[j - 1];
    assert Next(s, evs[j - 1], ss[j]);
    StepSetsForHead(s, evs[j - 1]);
    if SetForHead(ss[j], ss[j].fd) {
    } else {
      ArmedForAHead(ss, evs, clock, j - 1);
    }
  }
}
