/**
 `timer_queue_t` with its fields updated in place, each method proved to move the
 abstract state exactly as TimerQueueSpec says, and `handle_read` with callbacks that
 re-enter the queue proved to be one of the runs of TimerQueueRuns.
 */
module TimerQueueObject {
  import opened Timers
  import opened Traces
  import opened TimerQueueState
  import opened TimerQueueSpec
  import opened TimerQueueRuns

  /** What may happen while a callback runs: anything but another `handle_read`. */
  predicate Interrupts(ev: Event) {
    ev.Construct? || ev.Add? || ev.Cancel? || ev.Tick?
  }

  function Perform(s: State, ev: Event): (s': State)
    requires Inv(s)
    ensures Inv(s') && s'.batch == s.batch && s'.next == s.next && s'.calling == s.calling && s'.batches == s.batches && s'.batchNow == s.batchNow
  {
    if Interrupts(ev) && Enabled(s, ev) then (StepKeeps(s, ev); Step(s, ev)) else s
  }

  function PerformAll(s: State, evs: seq<Event>): (s': State)
    requires Inv(s)
    decreases |evs|
    ensures Inv(s') && s'.batch == s.batch && s'.next == s.next && s'.calling == s.calling && s'.batches == s.batches && s'.batchNow == s.batchNow
  {
    if evs == [] then s else PerformAll(Perform(s, evs[0]), evs[1..])
  }

  /** The callback loop of `handle_read`; `during(k)` is what the k-th callback does. */
  function CallAll(s: State, during: nat -> seq<Event>): (s': State)
    requires Inv(s) && s.calling
    ensures Inv(s') && Enabled(s', Finish)
    decreases |s.batch| - s.next
  {
    if s.next == |s.batch| then s
    else
      CallKeeps(s);
      CallAll(PerformAll(CallNext(s), during(s.next)), during)
  }

  function HandleRead(s: State, during: nat -> seq<Event>): State
    requires Inv(s) && !s.calling
  {
    BeginKeeps(s);
    FinishRead(CallAll(BeginRead(s), during))
  }

  lemma {:induction false} NotYetErased(s: State, expired: seq<Entry>, i: nat)
    requires Core(s) && Sorted(expired) && i < |expired| && forall e :: e in expired ==> e in s.timers
    ensures forall e :: e in expired[..i] ==> e in s.timers
    ensures IdOf(s.heap, expired[i].addr) in s.active - IdsOf(s.heap, expired[..i])
  {
    assert expired[i] in s.timers;
    assert Queued(s, expired[i].addr);
    assert forall k :: 0 <= k < i ==> Less(expired[k], expired[i]) && expired[k] in s.timers;
  }

  class TimerQueue {
    var heap: map<int, Timer>
    var created: nat
    var timers: seq<Entry>
    var active: set<Id>
    var canceling: set<Id>
    var calling: bool
    var clock: int
    var fd: TimerFd
    var loose: set<int>  // timers held by queued adds, or by the method that is running

    ghost var issued: set<Id>
    ghost var batch: seq<Entry>
    ghost var batchNow: int
    ghost var next: nat
    ghost var batches: nat
    ghost var history: seq<Firing>

    ghost function Value(): State
      reads this
    {
      State(heap, created, issued, timers, active, canceling, calling, loose, batch, batchNow, next, batches, clock, fd, history)
    }

    constructor (now: int)
      requires 0 < now
      ensures Value() == Init(now) && Inv(Value())
    {
      heap, created, timers, active, canceling, calling := map[], 0, [], {}, {}, false;
      clock, fd := now, Disarmed;
      issued, loose, batch, batchNow, next, batches, history := {}, {}, [], 0, 0, 0, [];
    }

    /** The assertion that opens and closes most methods of the source. */
    lemma AssertSizes()
      requires Core(Value())
      ensures |timers| == |active|
    {
      SizesAgree(Value());
    }

    /** The allocation in `add_timer`, at an address the allocator has free. */
    method NewTimerObject(a: int, when: int, interval: real) returns (id: Id)
      requires Core(Value()) && a !in heap && 0 < a < UINTPTR_MAX
      modifies this
      ensures Value() == NewTimer(old(Value()), a, when, interval)
      ensures id == Id(a, created) && id in issued && id !in old(issued)
    {
      created := created + 1;
      heap := heap[a := Timer(when, interval, created)];
      id := Id(a, created);
      issued, loose := issued + {id}, loose + {a};
    }

    method InsertTimer(a: int) returns (earliestChanged: bool)
      requires Core(Value()) && a in loose
      modifies this`timers, this`active, this`loose
      ensures Value() == Insert(old(Value()), a)
      ensures earliestChanged == EarliestChanged(old(Value()), a)
    {
      ghost var s := Value();
      AssertSizes();
      var when := heap[a].expiration;
      earliestChanged := timers == [] || when < timers[0].when;
      assert !Queued(s, a);
      assert Entry(when, a) !in timers && Id(a, heap[a].sequence) !in active;
      timers := Inserted(timers, Entry(when, a));
      active := active + {Id(a, heap[a].sequence)};
      loose := loose - {a};
      assert Value() == Insert(s, a);
      AssertSizes();
    }

    method AddTimerInLoop(a: int)
      requires Core(Value()) && a in loose
      modifies this`timers, this`active, this`loose, this`fd
      ensures Value() == AddInLoop(old(Value()), a)
    {
      var earliestChanged := InsertTimer(a);
      if earliestChanged {
        fd := ResetTimerFd(heap[a].expiration, clock);
      }
    }

    method EraseTimer(id: Id)
      requires Core(Value()) && id in active
      modifies this`timers, this`active, this`loose
      ensures Queued(old(Value()), id.addr)
      ensures Value() == Unqueue(old(Value()), id.addr)
    {
      assert Queued(Value(), id.addr);
      var key := Entry(heap[id.addr].expiration, id.addr);
      assert key in timers;
      timers := Erased(timers, key);
      active := active - {id};
      loose := loose + {id.addr};
    }

    method DeleteTimer(a: int)
      requires Core(Value()) && a in loose
      modifies this`heap, this`loose
      ensures Value() == Delete(old(Value()), a)
    {
      heap := heap - {a};
      loose := loose - {a};
    }

    method CancelTimer(id: Id)
      requires Core(Value())
      modifies this`heap, this`timers, this`active, this`canceling, this`loose
      ensures Value() == CancelInLoop(old(Value()), id)
    {
      AssertSizes();
      if id in active {
        EraseTimer(id);
        DeleteTimer(id.addr);
      } else if calling {
        canceling := canceling + {id};
      }
      AssertSizes();
    }

    method TakeExpired(now: int) returns (expired: seq<Entry>)
      requires Core(Value()) && batch == []
      modifies this`timers, this`active, this`batch, this`batchNow
      ensures Value() == GetExpired(old(Value()), now)
      ensures expired == batch
      ensures forall e :: e in expired <==> e in old(timers) && e.when <= now
    {
      ghost var s := Value();
      AssertSizes();
      var end := ExpiredCount(timers, now);
      ExpiredOf(s, now);
      assert end == |timers| || now < timers[end].when;
      expired := timers[..end];
      EraseExpired(expired);
      timers := timers[end..];
      batch, batchNow := expired, now;
      assert Value() == GetExpired(s, now);
      AssertSizes();
    }

    method EraseExpired(expired: seq<Entry>)
      requires Core(Value()) && Sorted(expired) && forall e :: e in expired ==> e in timers
      modifies this`active
      ensures forall e :: e in expired ==> e.addr in heap
      ensures active == old(active) - IdsOf(heap, expired)
    {
      ghost var s := Value();
      var i := 0;
      while i < |expired|
        invariant 0 <= i <= |expired|
        invariant forall e :: e in expired[..i] ==> e in s.timers
        invariant active == s.active - IdsOf(heap, expired[..i])
      {
        IdsOfGrows(heap, expired, i);
        NotYetErased(s, expired, i);
        var id := Id(expired[i].addr, heap[expired[i].addr].sequence);
        assert id in active;
        active := active - {id};
        i := i + 1;
      }
      assert expired[..i] == expired;
    }

    /** One turn of the loop in `reset`. */
    method ResetTimer(e: Entry, now: int)
      requires Core(Value()) && batch != [] && e == batch[0] && now == batchNow
      modifies this`heap, this`timers, this`active, this`loose, this`batch
      ensures Value() == ResetOne(old(Value()))
    {
      ghost var s := Value();
      var a := e.addr;
      HeadOnly(s);
      var id := Id(a, heap[a].sequence);
      loose, batch := loose + {a}, batch[1..];
      if heap[a].Repeat() && id !in canceling {
        heap := heap[a := heap[a].Restart(now)];
        assert Value() == Restarted(TakeHead(s), a);
        var _ := InsertTimer(a);
      } else {
        heap := heap - {a};
        loose := loose - {a};
      }
    }

    method Reset(expired: seq<Entry>, now: int)
      requires Core(Value()) && expired == batch && now == batchNow
      modifies this`heap, this`timers, this`active, this`loose, this`batch, this`fd
      ensures Value() == Rearmed(ResetAll(old(Value())))
    {
      hide ResetOne, Rearmed;
      ghost var s := Value();
      var i := 0;
      while i < |expired|
        invariant 0 <= i <= |expired| && batch == expired[i..] && batchNow == now
        invariant Core(Value()) && ResetAll(Value()) == ResetAll(s)
      {
        ResetTimer(expired[i], now);
        i := i + 1;
      }
      RearmTimerFd();
    }

    /** The end of `reset`: the descriptor is set for the earliest timer left, if its time is valid. */
    method RearmTimerFd()
      requires Core(Value())
      modifies this`fd
      ensures Value() == Rearmed(old(Value()))
    {
      var nextExpire := 0;
      if timers != [] {
        assert timers[0] in timers;
        nextExpire := heap[timers[0].addr].expiration;
      }
      if nextExpire > 0 {
        fd := ResetTimerFd(nextExpire, clock);
      }
    }

    method PerformEvent(ev: Event)
      requires Inv(Value())
      modifies this
      ensures Value() == Perform(old(Value()), ev)
    {
      match ev
      case Construct(a, when, interval) =>
        if a !in heap && 0 < a < UINTPTR_MAX {
          var _ := NewTimerObject(a, when, interval);
        }
      case Add(a) =>
        if a in loose { AddTimerInLoop(a); }
      case Cancel(id) => CancelTimer(id);
      case Tick(to) =>
        if clock <= to { clock := to; }
      case _ =>
    }

    method PerformEvents(evs: seq<Event>)
      requires Inv(Value())
      modifies this
      ensures Value() == PerformAll(old(Value()), evs)
    {
      var i := 0;
      while i < |evs|
        invariant 0 <= i <= |evs| && Inv(Value())
        invariant PerformAll(Value(), evs[i..]) == PerformAll(old(Value()), evs)
      {
        assert evs[i..][0] == evs[i] && evs[i..][1..] == evs[i + 1..];
        PerformEvent(evs[i]);
        i := i + 1;
      }
    }

    method RecordFiring(e: Entry)
      requires Inv(Value()) && calling && next < |batch| && e == batch[next]
      modifies this`history, this`next
      ensures Value() == CallNext(old(Value()))
    {
      assert e in batch;
      history := history + [Firing(batches, IdOf(heap, e.addr), heap[e.addr], batchNow)];
      next := next + 1;
    }

    /** `timer->run()`: the callback is called, and re-enters the queue as it likes. */
    method RunCallback(e: Entry, during: seq<Event>)
      requires Inv(Value()) && calling && next < |batch| && e == batch[next]
      modifies this
      ensures Inv(CallNext(old(Value()))) && Value() == PerformAll(CallNext(old(Value())), during)
    {
      CallKeeps(Value());
      RecordFiring(e);
      PerformEvents(during);
    }

    method ReadTimerFd(now: int)
      modifies this`fd
      ensures fd == if old(fd).Readable(now) then Disarmed else old(fd)
    {
      if fd.Readable(now) { fd := Disarmed; }
    }

    /** `handle_read` up to its callback loop. */
    method StartRead() returns (expired: seq<Entry>, now: int)
      requires Core(Value()) && batch == []
      modifies this`timers, this`active, this`batch, this`batchNow, this`fd, this`calling, this`canceling, this`next, this`batches
      ensures Value() == BeginRead(old(Value()))
      ensures expired == batch && now == batchNow
    {
      hide KeysOf, Bijection, OneOwner, Numbered;
      now := clock;
      ReadTimerFd(now);
      expired := TakeExpired(now);
      BeginCalling();
    }

    method BeginCalling()
      modifies this`calling, this`canceling, this`next, this`batches
      ensures Value() == old(Value()).(calling := true, canceling := {}, next := 0, batches := old(batches) + 1)
    {
      calling := true;
      canceling := {};
      next, batches := 0, batches + 1;
    }

    method HandleReadEvent(during: nat -> seq<Event>)
      requires Inv(Value()) && !calling
      modifies this
      ensures Value() == HandleRead(old(Value()), during)
    {
      BeginKeeps(Value());
      var expired, now := StartRead();
      CallCallbacks(expired, now, during);
      calling := false;
      next := 0;
      Reset(expired, now);
    }

    method CallCallbacks(expired: seq<Entry>, now: int, during: nat -> seq<Event>)
      requires Inv(Value()) && calling && next == 0 && expired == batch && now == batchNow
      modifies this
      ensures Value() == CallAll(old(Value()), during)
      ensures expired == batch && now == batchNow
    {
      var i := 0;
      while i < |expired|
        invariant 0 <= i <= |expired| && Inv(Value()) && calling
        invariant batch == expired && next == i && batchNow == now
        invariant CallAll(Value(), during) == CallAll(old(Value()), during)
      {
        RunCallback(expired[i], during(i));
        i := i + 1;
      }
    }
  }

  // ----- handle_read is a run -----

  /** The steps can be taken one after the other. */
  ghost predicate Possible(s: State, todo: seq<Event>)
    requires Inv(s)
    decreases |todo|
  {
    todo != [] ==> Interrupts(todo[0]) && Enabled(s, todo[0]) && (StepKeeps(s, todo[0]); Possible(Step(s, todo[0]), todo[1..]))
  }

  lemma {:induction false} PerformIsRun(s: State, ev: Event) returns (ss: seq<State>, evs: seq<Event>)
    requires Inv(s)
    ensures Run(ss, evs) && ss[0] == s && ss[|evs|] == Perform(s, ev)
    ensures forall e <- evs :: Interrupts(e)
    ensures Interrupts(ev) && Enabled(s, ev) ==> evs == [ev]
  {
    if Interrupts(ev) && Enabled(s, ev) {
      ss, evs := [s, Step(s, ev)], [ev];
    } else {
      ss, evs := [s], [];
    }
  }

  lemma {:induction false} PerformAllIsRun(s: State, todo: seq<Event>) returns (ss: seq<State>, evs: seq<Event>)
    requires Inv(s)
    ensures Run(ss, evs) && ss[0] == s && ss[|evs|] == PerformAll(s, todo)
    ensures forall e <- evs :: Interrupts(e)
    ensures Possible(s, todo) ==> evs == todo
    decreases |todo|
  {
    hide Inv, Step, Enabled;
    if todo == [] {
      ss, evs := [s], [];
    } else {
      var ss1, evs1 := PerformIsRun(s, todo[0]);
      var ss2, evs2 := PerformAllIsRun(Perform(s, todo[0]), todo[1..]);
      ss, evs := Concat(Next, ss1, evs1, ss2, evs2);
      assert todo == [todo[0]] + todo[1..];
    }
  }

  /** A step of `handle_read` itself. */
  function Reads(): Event -> bool { (ev: Event) => ev.Begin? || ev.Call? || ev.Finish? }

  lemma InterruptsAreNotReads(evs: seq<Event>)
    requires forall e <- evs :: Interrupts(e)
    ensures Only(Reads(), evs) == []
  {
    OnlyNone(Reads(), evs);
  }

  /** What the callbacks do can be done, each thing in turn. */
  ghost predicate CallsPossible(s: State, during: nat -> seq<Event>)
    requires Inv(s) && s.calling
    decreases |s.batch| - s.next
  {
    s.next < |s.batch| ==>
      (CallKeeps(s); Possible(CallNext(s), during(s.next)) && CallsPossible(PerformAll(CallNext(s), during(s.next)), during))
  }

  lemma {:induction false} CallAllIsRun(s: State, during: nat -> seq<Event>) returns (ss: seq<State>, evs: seq<Event>)
    requires Inv(s) && s.calling
    ensures Run(ss, evs) && ss[0] == s && ss[|evs|] == CallAll(s, during)
    ensures s.next <= |s.batch| && Only(Reads(), evs) == Times(Call, |s.batch| - s.next)
    ensures CallsPossible(s, during) ==> evs == Interleaved(Call, during, s.next, |s.batch|)
    decreases |s.batch| - s.next
  {
    hide Core, NeverLate, BatchLogged, Spaced, PairsApart, Only, Possible;
    if s.next == |s.batch| {
      ss, evs := [s], [];
      InterruptsAreNotReads([]);
    } else {
      CallKeeps(s);
      var ss2, evs2 := PerformAllIsRun(CallNext(s), during(s.next));
      InterruptsAreNotReads(evs2);
      ss, evs := Concat(Next, [s, CallNext(s)], [Call], ss2, evs2);
      var ss3, evs3 := CallAllIsRun(ss[|evs|], during);
      ss, evs := Concat(Next, ss, evs, ss3, evs3);
      OneThen(Reads(), Call, evs2, evs3, |s.batch| - s.next - 1);
    }
  }

  lemma BeginAndFinish(evs: seq<Event>, n: nat)
    requires Only(Reads(), evs) == Times(Call, n)
    ensures Only(Reads(), [Begin] + evs + [Finish]) == [Begin] + Times(Call, n) + [Finish]
  {
    OnlyOne(Reads(), Begin);
    OnlyOne(Reads(), Finish);
    hide Only, Times;
    OnlyConcat(Reads(), [Begin] + evs, [Finish]);
    OnlyConcat(Reads(), [Begin], evs);
  }

  /** Whatever the callbacks do, `handle_read` is one `Begin`, one `Call` for each timer of the batch, and one `Finish`. */
  lemma {:induction false} HandleReadIsRun(s: State, during: nat -> seq<Event>) returns (ss: seq<State>, evs: seq<Event>)
    requires Inv(s) && !s.calling
    ensures Run(ss, evs) && ss[0] == s && ss[|evs|] == HandleRead(s, during)
    ensures Only(Reads(), evs) == [Begin] + Times(Call, |BeginRead(s).batch|) + [Finish]
    ensures Inv(BeginRead(s)) && (CallsPossible(BeginRead(s), during) ==>
              evs == [Begin] + Interleaved(Call, during, 0, |BeginRead(s).batch|) + [Finish])
  {
    hide Core, NeverLate, BatchLogged, Spaced, PairsApart, Only;
    BeginKeeps(s);
    var s1 := BeginRead(s);
    var ss2, evs2 := CallAllIsRun(s1, during);
    ss, evs := Concat(Next, [s, s1], [Begin], ss2, evs2);
    var s2 := CallAll(s1, during);
    ss, evs := Concat(Next, ss, evs, [s2, FinishRead(s2)], [Finish]);
    BeginAndFinish(evs2, |s1.batch|);
  }
}
