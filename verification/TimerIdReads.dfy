/**
 `add_timer` reads the sequence of its timer for the id it returns, after it has handed the
 timer to the loop: when the timer is sure to be alive still.
 */
module TimerIdReads {
  import opened Prelude
  import opened Timers
  import opened Traces
  import opened TimerQueueState
  import opened TimerQueueSpec
  import opened TimerQueueRuns
  import opened TimerCancellation

  /** The object at the address is still the timer that the id names, so that its sequence can be read. */
  predicate Readable(s: State, id: Id) {
    id.addr in s.heap && s.heap[id.addr].sequence == id.sequence
  }

  function IdOfNew(s: State, a: int): Id { Id(a, s.created + 1) }

  /** A repeating timer that the current batch, if it is in it, will put back. */
  ghost predicate LivesOn(s: State, id: Id) {
    Readable(s, id) && s.heap[id.addr].Repeat() && (InBatch(s, id.addr) ==> id !in s.canceling)
  }

  lemma {:induction false} StepKeepsLivesOn(s: State, id: Id, ev: Event)
    requires Inv(s) && Enabled(s, ev) && LivesOn(s, id) && ev != Cancel(id)
    ensures LivesOn(Step(s, ev), id)
  {
    hide NeverLate, BatchLogged, Spaced, PairsApart;
    match ev
    case Cancel(id') => CancelSparesOthers(s, id', id.addr);
    case Finish => FinishShape(s);
    case _ =>
  }

  lemma {:induction false} StaysLive(ss: seq<State>, evs: seq<Event>, id: Id, i: nat, j: nat)
    requires Run(ss, evs) && i <= j < |ss| && Inv(ss[i]) && LivesOn(ss[i], id)
    requires forall k :: i <= k < j ==> evs[k] != Cancel(id)
    ensures Inv(ss[j]) && LivesOn(ss[j], id)
  {
    hide Inv, LivesOn, Step, Enabled;
    if i < j {
      StaysLive(ss, evs, id, i, j - 1);
      assert Next(ss[j - 1], evs[j - 1], ss[j]);
      StepKeeps(ss[j - 1], evs[j - 1]);
      StepKeepsLivesOn(ss[j - 1], id, evs[j - 1]);
    }
  }

  lemma {:induction false} MadeTimer(s: State, a: int, when: int, interval: real)
    requires Inv(s) && Enabled(s, Construct(a, when, interval))
    ensures var s1 := Step(s, Construct(a, when, interval)); var id := IdOfNew(s, a);
            && Inv(s1) && AddPending(s1, id) && !InBatch(s1, a) && s1.heap[a] == Timer(when, interval, id.sequence)
  {
    StepKeeps(s, Construct(a, when, interval));
  }

  /** The loop thread adds the timer itself, and then reads. */
  lemma {:induction false} LoopThreadReadsLive(s: State, a: int, when: int, interval: real)
    requires Inv(s) && Enabled(s, Construct(a, when, interval))
    ensures var s1 := Step(s, Construct(a, when, interval));
            Inv(s1) && Enabled(s1, Add(a)) && Readable(Step(s1, Add(a)), IdOfNew(s, a))
  {
    hide NeverLate, BatchLogged, Spaced, PairsApart;
    MadeTimer(s, a, when, interval);
  }

  /** Some run from `s` begins with the construction, never cancels the new id, and ends with the timer gone. */
  ghost predicate CanDangle(s: State, a: int, when: int, interval: real) {
    exists ss: seq<State>, evs: seq<Event> :: DanglesIn(s, a, when, interval, ss, evs)
  }

  ghost predicate DanglesIn(s: State, a: int, when: int, interval: real, ss: seq<State>, evs: seq<Event>) {
    && Run(ss, evs) && ss[0] == s && |evs| > 0 && evs[0] == Construct(a, when, interval)
    && (forall ev <- evs :: ev != Cancel(IdOfNew(s, a)))
    && !Readable(ss[|evs|], IdOfNew(s, a))
  }

  /** The rest of `handle_read` deletes a one-shot member of the batch. */
  lemma {:induction false} OneShotEnds(s: State, a: int)
    requires Inv(s) && Enabled(s, Finish) && InBatch(s, a) && !s.heap[a].Repeat()
    ensures a !in FinishRead(s).heap
  {
    FinishShape(s);
  }

  /** Meanwhile the loop gets to add the timer, calls it, and deletes it. */
  lemma {:induction false} Dangle(s: State, a: int, when: int, interval: real) returns (ss: seq<State>, evs: seq<Event>)
    requires Inv(s) && Enabled(s, Construct(a, when, interval)) && interval <= 0.0
    ensures DanglesIn(s, a, when, interval, ss, evs)
  {
    hide Inv, Step, Core;
    var made := Construct(a, when, interval);
    MadeTimer(s, a, when, interval);
    var s1 := Step(s, made);
    assert Next(s, made, s1);
    var ss2, evs2 := BecomeIdle(s1);
    var ss3, evs3 := AddAndWait(ss2[|evs2|], a);
    var ss4, evs4 := CallAndDelete(ss3[|evs3|], a);
    ss, evs := Concat(Next, [s, s1], [made], ss2, evs2);
    ss, evs := Concat(Next, ss, evs, ss3, evs3);
    ss, evs := Concat(Next, ss, evs, ss4, evs4);
  }

  lemma {:induction false} CallAndDelete(s: State, a: int) returns (ss: seq<State>, evs: seq<Event>)
    requires Inv(s) && !s.calling && Queued(s, a) && s.heap[a].expiration <= s.clock && !s.heap[a].Repeat()
    ensures Run(ss, evs) && ss[0] == s && NoCancel(evs) && a !in ss[|evs|].heap
  {
    hide Core, NeverLate, BatchLogged, Spaced, PairsApart;
    ss, evs := BeginAndReach(s, a);
    var e := ss[|evs|];
    var ss2, evs2 := CallUpTo(e, |e.batch|);
    ss, evs := Concat(Next, ss, evs, ss2, evs2);
    e := ss[|evs|];
    OneShotEnds(e, a);
    ss, evs := Extend(Next, ss, evs, Finish, Step(e, Finish));
  }

  /**
   A foreign thread reads while the loop runs on: the timer can be gone exactly when it is
   one-shot, unless its id, which nobody has yet, is cancelled.
   */
  lemma {:induction false} DanglesExactly(s: State, a: int, when: int, interval: real)
    requires Inv(s) && Enabled(s, Construct(a, when, interval))
    ensures CanDangle(s, a, when, interval) <==> interval <= 0.0
  {
    if interval <= 0.0 {
      var ss, evs := Dangle(s, a, when, interval);
    } else if CanDangle(s, a, when, interval) {
      var ss, evs :| DanglesIn(s, a, when, interval, ss, evs);
      MadeTimer(s, a, when, interval);
      assert Next(ss[0], evs[0], ss[1]);
      assert LivesOn(ss[1], IdOfNew(s, a));
      hide Inv;
      forall k | 1 <= k < |evs| ensures evs[k] != Cancel(IdOfNew(s, a)) { assert evs[k] in evs; }
      StaysLive(ss, evs, IdOfNew(s, a), 1, |evs|);
    }
  }
}
