/** When `cancel` is final: exactly for timers whose add has reached the loop. */
module TimerCancellation {
  import opened Prelude
  import opened Timers
  import opened Traces
  import opened TimerQueueState
  import opened TimerQueueSpec
  import opened TimerQueueRuns

  /** The number of the batch being called, or -1 outside `handle_read`. */
  function Current(s: State): int { if s.calling then s.batches else -1 }

  /** The timer numbered `q` can be called by batch `b` at most, and will not be put back. */
  ghost predicate Doomed(s: State, q: int, b: int) {
    && q <= s.created
    && forall a :: a in s.heap && s.heap[a].sequence == q ==>
         InBatch(s, a) && !Survives(s, a) && Current(s) == b && b >= 0
  }

  /** An add that is still on its way to the loop. */
  predicate AddPending(s: State, id: Id) {
    id.addr in s.loose && id.addr in s.heap && s.heap[id.addr].sequence == id.sequence
  }

  lemma {:induction false} CancelDooms(s: State, id: Id)
    requires Inv(s) && id in s.issued && !AddPending(s, id)
    ensures Doomed(CancelInLoop(s, id), id.sequence, Current(s))
  {
    var s' := CancelInLoop(s, id);
    forall a | a in s'.heap && s'.heap[a].sequence == id.sequence
      ensures InBatch(s', a) && !Survives(s', a) && s'.calling
    {
      assert IdOf(s.heap, a) in s.issued;
      assert IdOf(s.heap, a) == id;
    }
  }

  /** A cancel, with any id, leaves every timer with another id where it was, and as likely to be put back. */
  lemma {:induction false} CancelSparesOthers(s: State, id: Id, a: int)
    requires Inv(s) && a in s.heap && IdOf(s.heap, a) != id
    ensures var s' := CancelInLoop(s, id);
            && a in s'.heap && s'.heap[a] == s.heap[a]
            && (Queued(s', a) <==> Queued(s, a)) && (InBatch(s', a) <==> InBatch(s, a)) && (a in s'.loose <==> a in s.loose)
            && (Survives(s', a) <==> Survives(s, a))
  {
    if id in s.active { ErasedIsSet(s.timers, Key(s.heap, id.addr)); }
  }

  lemma {:induction false} DoomedKeepsFinish(s: State, q: int, b: int)
    requires Inv(s) && Enabled(s, Finish) && Doomed(s, q, b)
    ensures Doomed(FinishRead(s), q, b)
  {
    FinishShape(s);
  }

  lemma {:induction false} DoomedKeepsCancel(s: State, q: int, b: int, id: Id)
    requires Inv(s) && Doomed(s, q, b)
    ensures Doomed(CancelInLoop(s, id), q, b)
  {
    var s' := CancelInLoop(s, id);
    forall a | a in s'.heap && s'.heap[a].sequence == q ensures InBatch(s', a) && !Survives(s', a) {
      assert a in s.heap && s'.heap[a] == s.heap[a];
    }
  }

  lemma {:induction false} DoomedKeeps(s: State, q: int, b: int, ev: Event)
    requires Inv(s) && Enabled(s, ev) && Doomed(s, q, b)
    ensures Doomed(Step(s, ev), q, b)
  {
    match ev
    case Finish => DoomedKeepsFinish(s, q, b);
    case Cancel(id) => DoomedKeepsCancel(s, q, b, id);
    case Begin =>
      assert s.batch == [];
      assert forall a :: a in s.heap ==> s.heap[a].sequence != q;
    case _ =>
  }

  /** The timer that the next `Call` would call. */
  ghost predicate CallsNext(s: State, q: int) {
    s.next < |s.batch| && s.batch[s.next].addr in s.heap && s.heap[s.batch[s.next].addr].sequence == q
  }

  /**
   Once `cancel_in_loop` has been given the id of a timer whose add was processed, no
   `handle_read` that starts later calls that timer; only the batch in progress, if any, may.
   */
  lemma {:induction false} CancelIsFinal(ss: seq<State>, evs: seq<Event>, i: nat, id: Id, j: nat)
    requires Run(ss, evs) && i < j < |evs| && evs[i] == Cancel(id) && evs[j] == Call
    requires id in ss[i].issued && !AddPending(ss[i], id)
    ensures CallsNext(ss[j], id.sequence) ==> ss[i].calling && ss[j].batches == ss[i].batches
  {
    var q, b := id.sequence, Current(ss[i]);
    assert Next(ss[i], evs[i], ss[i + 1]);
    StepKeeps(ss[i], evs[i]);
    CancelDooms(ss[i], id);
    var p := s => Inv(s) && Doomed(s, q, b);
    forall s, ev, s' | p(s) && Next(s, ev, s') ensures p(s') {
      StepKeeps(s, ev);
      DoomedKeeps(s, q, b, ev);
    }
    Always(Next, p, ss, evs, i + 1, j);
  }

  // ----- and only then: a cancel that overtakes the add is lost -----

  predicate NoCancel(evs: seq<Event>) { forall ev <- evs :: !ev.Cancel? }

  /** The callbacks of the batch that are still to come, up to the one at position `k`. */
  lemma {:induction false} CallUpTo(s: State, k: nat) returns (ss: seq<State>, evs: seq<Event>)
    requires Inv(s) && s.calling && s.next <= k <= |s.batch|
    ensures Run(ss, evs) && ss[0] == s && NoCancel(evs)
    ensures var e := ss[|evs|]; Inv(e) && e == s.(next := k, history := e.history)
    decreases k - s.next
  {
    if s.next == k {
      ss, evs := [s], [];
    } else {
      StepKeeps(s, Call);
      var s1 := Step(s, Call);
      var ss2, evs2 := CallUpTo(s1, k);
      ss, evs := Concat(Next, [s, s1], [Call], ss2, evs2);
    }
  }

  /** Any state can reach one outside `handle_read`, with the loose timers as they are. */
  lemma {:induction false} BecomeIdle(s: State) returns (ss: seq<State>, evs: seq<Event>)
    requires Inv(s)
    ensures Run(ss, evs) && ss[0] == s && NoCancel(evs)
    ensures var e := ss[|evs|];
            Inv(e) && !e.calling && e.loose == s.loose && e.batches == s.batches && forall a :: a in s.loose ==> e.heap[a] == s.heap[a]
  {
    if !s.calling {
      ss, evs := [s], [];
    } else {
      var ss1, evs1 := CallUpTo(s, |s.batch|);
      var e1 := ss1[|evs1|];
      StepKeeps(e1, Finish);
      FinishSparesLoose(e1);
      ss, evs := Extend(Next, ss1, evs1, Finish, Step(e1, Finish));
    }
  }

  lemma {:induction false} FinishSparesLoose(s: State)
    requires Inv(s) && Enabled(s, Finish)
    ensures var s' := FinishRead(s);
            !s'.calling && s'.loose == s.loose && s'.batches == s.batches
            && forall a :: a in s.loose ==> a in s'.heap && s'.heap[a] == s.heap[a]
  {
    FinishShape(s);
    assert forall a :: a in s.loose ==> !InBatch(s, a);
  }

  /** The add runs, and time passes until the timer is due. */
  lemma {:induction false} AddAndWait(s: State, a: int) returns (ss: seq<State>, evs: seq<Event>)
    requires Inv(s) && !s.calling && a in s.loose
    ensures Run(ss, evs) && ss[0] == s && NoCancel(evs)
    ensures var e := ss[|evs|];
            Inv(e) && !e.calling && e.batches == s.batches && e.heap == s.heap && Queued(e, a) && s.heap[a].expiration <= e.clock
  {
    StepKeeps(s, Add(a));
    var s1 := Step(s, Add(a));
    var tick := Tick(Max(s1.clock, s.heap[a].expiration));
    StepKeeps(s1, tick);
    ss, evs := Extend(Next, [s, s1], [Add(a)], tick, Step(s1, tick));
  }

  /** The next `handle_read` takes a due timer and comes to call it. */
  lemma {:induction false} BeginAndReach(s: State, a: int) returns (ss: seq<State>, evs: seq<Event>)
    requires Inv(s) && !s.calling && Queued(s, a) && s.heap[a].expiration <= s.clock
    ensures Run(ss, evs) && ss[0] == s && NoCancel(evs)
    ensures var e := ss[|evs|];
            Inv(e) && Enabled(e, Call) && e.batches == s.batches + 1 && CallsNext(e, s.heap[a].sequence)
            && e.heap == s.heap && InBatch(e, a)
  {
    StepKeeps(s, Begin);
    BeginTakesTheDue(s);
    var s1 := Step(s, Begin);
    var k :| 0 <= k < |s1.batch| && s1.batch[k] == Key(s1.heap, a);
    var ss2, evs2 := CallUpTo(s1, k);
    ss, evs := Concat(Next, [s, s1], [Begin], ss2, evs2);
  }

  lemma {:induction false} CancelKeepsPending(s: State, id: Id)
    requires Inv(s) && AddPending(s, id)
    ensures var s' := CancelInLoop(s, id); AddPending(s', id) && s'.batches == s.batches
  {
    assert id !in s.active;
  }

  lemma {:induction false} CancelOfPendingIsLost(s: State, id: Id) returns (ss: seq<State>, evs: seq<Event>, j: nat)
    requires Inv(s) && AddPending(s, id)
    ensures FiresAt(s, id, ss, evs, j)
  {
    StepKeeps(s, Cancel(id));
    CancelKeepsPending(s, id);
    var s1 := Step(s, Cancel(id));
    var ss2, evs2 := BecomeIdle(s1);
    var ss3, evs3 := AddAndWait(ss2[|evs2|], id.addr);
    var ss4, evs4 := BeginAndReach(ss3[|evs3|], id.addr);
    ss, evs := Concat(Next, [s, s1], [Cancel(id)], ss2, evs2);
    ss, evs := Concat(Next, ss, evs, ss3, evs3);
    ss, evs := Concat(Next, ss, evs, ss4, evs4);
    j := |evs|;
    ss, evs := Extend(Next, ss, evs, Call, Step(ss[j], Call));
  }

  /** In some run from `s` that begins with `Cancel(id)`, a later `handle_read` calls the timer. */
  ghost predicate FiresAgain(s: State, id: Id) {
    exists ss: seq<State>, evs: seq<Event>, j: nat ::
      FiresAt(s, id, ss, evs, j)
  }

  ghost predicate FiresAt(s: State, id: Id, ss: seq<State>, evs: seq<Event>, j: nat) {
    && Run(ss, evs) && ss[0] == s && 0 < j < |evs| && evs[0] == Cancel(id) && evs[j] == Call
    && CallsNext(ss[j], id.sequence) && ss[j].batches > s.batches
  }

  /** Cancelling is final exactly when the add has been processed. */
  lemma {:induction false} CancelIsFinalIff(s: State, id: Id)
    requires Inv(s) && id in s.issued
    ensures FiresAgain(s, id) <==> AddPending(s, id)
  {
    if AddPending(s, id) {
      var ss, evs, j := CancelOfPendingIsLost(s, id);
    } else if FiresAgain(s, id) {
      var ss, evs, j: nat :| FiresAt(s, id, ss, evs, j);
      CancelIsFinal(ss, evs, 0, id, j);
    }
  }
}
