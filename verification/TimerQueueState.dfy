/**
 The state behind `timer_queue_t` (src/net/timer_queue_t.h) and the moves its methods
 are made of.  The heap is explicit: an address leaves it on `delete` and may come back
 with a later `new`, so that only the (pointer, sequence) pair names a timer.
 */
module TimerQueueState {
  import opened Timers

  /** One call of a timer's callback: in which `handle_read`, for which timer, at what time. */
  datatype Firing = Firing(batch: nat, id: Id, timer: Timer, now: int)

  datatype State = State(
    heap: map<int, Timer>,   // the live timer_t objects
    created: nat,            // s_num_created_
    issued: set<Id>,         // every id add_timer ever returned
    timers: seq<Entry>,      // timers_
    active: set<Id>,         // active_timers_
    canceling: set<Id>,      // canceling_timers_
    calling: bool,           // calling_expired_timers_
    loose: set<int>,         // live timers in no container: their add is still queued, or one method has them in hand
    batch: seq<Entry>,       // `expired`, the local of handle_read
    batchNow: int,           // `now`, the local of handle_read
    next: nat,               // how many callbacks of the batch have been called
    batches: nat,            // how many times handle_read has started
    clock: int,
    fd: TimerFd,
    history: seq<Firing>
  )

  function Init(clock: int): State {
    State(map[], 0, {}, [], {}, {}, false, {}, [], 0, 0, 0, clock, Disarmed, [])
  }

  function Key(heap: map<int, Timer>, a: int): Entry
    requires a in heap
  {
    Entry(heap[a].expiration, a)
  }

  function IdOf(heap: map<int, Timer>, a: int): Id
    requires a in heap
  {
    Id(a, heap[a].sequence)
  }

  ghost predicate Keyed(heap: map<int, Timer>, ts: seq<Entry>, a: int) {
    a in heap && Key(heap, a) in ts
  }

  ghost predicate Queued(s: State, a: int) { Keyed(s.heap, s.timers, a) }

  ghost predicate InBatch(s: State, a: int) { Keyed(s.heap, s.batch, a) }

  // ----- the invariant of the containers -----

  /** Every key is the key of a live timer. */
  ghost predicate KeysOf(heap: map<int, Timer>, ts: seq<Entry>) {
    Sorted(ts) && forall e :: e in ts ==> e.addr in heap && Key(heap, e.addr) == e
  }

  /** `active_timers_` indexes exactly the timers that `timers_` indexes. */
  ghost predicate Bijection(heap: map<int, Timer>, timers: seq<Entry>, active: set<Id>) {
    && (forall a :: Keyed(heap, timers, a) ==> IdOf(heap, a) in active)
    && (forall id :: id in active ==> Keyed(heap, timers, id.addr) && IdOf(heap, id.addr) == id)
  }

  /** Every live timer has exactly one owner: the queue, the batch, or whoever holds it loose. */
  ghost predicate OneOwner(heap: map<int, Timer>, loose: set<int>, timers: seq<Entry>, batch: seq<Entry>) {
    && loose <= heap.Keys
    && forall a :: a in heap ==>
         && (a in loose || Keyed(heap, timers, a) || Keyed(heap, batch, a))
         && !(a in loose && Keyed(heap, timers, a))
         && !(a in loose && Keyed(heap, batch, a))
         && !(Keyed(heap, timers, a) && Keyed(heap, batch, a))
  }

  ghost predicate Numbered(heap: map<int, Timer>, issued: set<Id>, created: nat) {
    && (forall a :: a in heap ==> 0 < a < UINTPTR_MAX && IdOf(heap, a) in issued)
    && (forall id :: id in issued ==> 1 <= id.sequence <= created)
    && (forall id, id' :: id in issued && id' in issued && id.sequence == id'.sequence ==> id == id')
  }

  ghost predicate Core(s: State) {
    && KeysOf(s.heap, s.timers) && KeysOf(s.heap, s.batch)
    && Bijection(s.heap, s.timers, s.active)
    && OneOwner(s.heap, s.loose, s.timers, s.batch)
    && Numbered(s.heap, s.issued, s.created)
  }

  /** The size test asserted throughout timer_queue_t.cpp. */
  lemma SizesAgree(s: State)
    requires Core(s)
    ensures |s.timers| == |s.active|
  {
    IdsOfSize(s.heap, s.timers);
    assert s.active == IdsOf(s.heap, s.timers) by {
      forall id | id in s.active ensures id in IdsOf(s.heap, s.timers) {
        assert Key(s.heap, id.addr) in s.timers;
      }
    }
  }

  function IdsOf(heap: map<int, Timer>, ts: seq<Entry>): set<Id>
    requires forall e :: e in ts ==> e.addr in heap
  {
    set e | e in ts :: IdOf(heap, e.addr)
  }

  lemma {:induction false} IdsOfSize(heap: map<int, Timer>, ts: seq<Entry>)
    requires KeysOf(heap, ts)
    ensures |IdsOf(heap, ts)| == |ts|
  {
    if ts != [] {
      assert ts == [ts[0]] + ts[1..];
      assert forall e :: e in ts[1..] ==> e in ts && Less(ts[0], e);
      IdsOfSize(heap, ts[1..]);
      var first := IdOf(heap, ts[0].addr);
      assert IdsOf(heap, ts) == {first} + IdsOf(heap, ts[1..]);
      assert first !in IdsOf(heap, ts[1..]);
    }
  }

  lemma IdsOfGrows(heap: map<int, Timer>, ts: seq<Entry>, i: nat)
    requires i < |ts| && forall e :: e in ts ==> e.addr in heap
    ensures (forall e :: e in ts[..i] ==> e in ts) && (forall e :: e in ts[..i + 1] ==> e in ts)
    ensures IdsOf(heap, ts[..i + 1]) == IdsOf(heap, ts[..i]) + {IdOf(heap, ts[i].addr)}
  {
    assert ts[..i + 1] == ts[..i] + [ts[i]];
  }

  // ----- moves: each takes one timer from one owner to another -----

  /** `new timer_t(cb, when, interval)`; the object is loose until its add runs in the loop. */
  function NewTimer(s: State, a: int, when: int, interval: real): (s': State)
    requires Core(s) && a !in s.heap && 0 < a < UINTPTR_MAX
    ensures Core(s')
  {
    var id := Id(a, s.created + 1);
    var s' := s.(heap := s.heap[a := Timer(when, interval, s.created + 1)], created := s.created + 1,
                 issued := s.issued + {id}, loose := s.loose + {a});
    assert forall b :: b in s.heap ==> Key(s'.heap, b) == Key(s.heap, b) && IdOf(s'.heap, b) == IdOf(s.heap, b);
    s'
  }

  /** `delete timer`: only a live timer that no container refers to. */
  function Delete(s: State, a: int): (s': State)
    requires Core(s) && a in s.loose
    ensures Core(s')
  {
    var s' := s.(heap := s.heap - {a}, loose := s.loose - {a});
    assert forall b :: b in s'.heap ==> Key(s'.heap, b) == Key(s.heap, b) && IdOf(s'.heap, b) == IdOf(s.heap, b);
    s'
  }

  /** The two set insertions of `insert`. */
  function Insert(s: State, a: int): (s': State)
    requires Core(s) && a in s.loose
    ensures Core(s') && Queued(s', a)
  {
    var s' := s.(timers := Inserted(s.timers, Key(s.heap, a)), active := s.active + {IdOf(s.heap, a)},
                 loose := s.loose - {a});
    InsertedIsSet(s.timers, Key(s.heap, a));
    s'
  }

  /** The two erasures of `cancel_in_loop`. */
  function Unqueue(s: State, a: int): (s': State)
    requires Core(s) && Queued(s, a)
    ensures Core(s') && a in s'.loose
  {
    var s' := s.(timers := Erased(s.timers, Key(s.heap, a)), active := s.active - {IdOf(s.heap, a)},
                 loose := s.loose + {a});
    ErasedIsSet(s.timers, Key(s.heap, a));
    s'
  }

  /** `reset` takes the next member of the batch in hand. */
  function TakeHead(s: State): (s': State)
    requires Core(s) && s.batch != []
    ensures Core(s') && s.batch[0].addr in s'.loose
  {
    var s' := s.(batch := s.batch[1..], loose := s.loose + {s.batch[0].addr});
    assert s.batch == [s.batch[0]] + s.batch[1..];
    assert forall e :: e in s.batch[1..] ==> e in s.batch && Less(s.batch[0], e);
    s'
  }

  function Restarted(s: State, a: int): (s': State)
    requires Core(s) && a in s.loose
    ensures Core(s')
  {
    var s' := s.(heap := s.heap[a := s.heap[a].Restart(s.batchNow)]);
    assert forall e :: e in s.timers || e in s.batch ==> e.addr != a by {
      assert !Queued(s, a) && !InBatch(s, a);
    }
    assert forall b :: b in s'.heap && b != a ==> Key(s'.heap, b) == Key(s.heap, b);
    assert forall b :: b in s'.heap ==> IdOf(s'.heap, b) == IdOf(s.heap, b);
    s'
  }

  lemma {:induction false} ExpiredOf(s: State, now: int)
    requires Core(s)
    ensures var k := ExpiredCount(s.timers, now); var due := s.timers[..k];
            && Sorted(due)
            && (forall e :: e in due <==> e in s.timers && e.when <= now)
            && (k < |s.timers| ==> now < s.timers[k].when)
            && (forall e :: e in s.timers[k..] <==> e in s.timers && now < e.when)
  {
    ExpiredCountSplits(s.timers, now);
  }

  /** `get_expired`: the entries up to the sentry leave both sets and become the batch. */
  function GetExpired(s: State, now: int): (s': State)
    requires Core(s) && s.batch == []
    ensures Core(s')
  {
    ExpiredOf(s, now);
    var k := ExpiredCount(s.timers, now);
    s.(timers := s.timers[k..], batch := s.timers[..k], batchNow := now,
       active := s.active - IdsOf(s.heap, s.timers[..k]))
  }
}
