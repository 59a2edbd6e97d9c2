/**
 `thread_pool` with its fields updated in place, the wait loops of `run` and `take`, and one turn
 of the loop in `run_in_thread`. While a thread waits or runs a task, the others do as they like.
 Each is proved to be one of the runs of ThreadPoolRuns.
 */
module ThreadPoolObject {
  import opened Prelude
  import opened Traces
  import opened Conditions
  import opened ThreadPoolSpec
  import opened ThreadPoolRuns

  /** The steps that thread `t` does not take itself: what may happen while it waits. */
  function Others(t: nat): Event -> bool { ev => !Own(ev, t) && !(ev.Call? && ev.t == t) }

  /** What may happen in a task of worker `w`, which may call `run` too. */
  function InTask(w: nat): Event -> bool { ev => !Own(ev, w) || ev.ResumeCall? }

  function Perform(s: State, ev: Event, may: Event -> bool): State {
    if may(ev) && Enabled(s, ev) then Step(s, ev) else s
  }

  function PerformAll(s: State, evs: seq<Event>, may: Event -> bool): State
    decreases |evs|
  {
    if evs == [] then s else PerformAll(Perform(s, evs[0], may), evs[1..], may)
  }

  /** The loop of `run`, for a thread at its test. */
  function CallLoop(s: State, t: nat, f: nat, pick: set<nat> -> nat, waits: seq<seq<Event>>): State
    decreases |waits|
  {
    var s1 := CallPass(s, t, f, Chosen(s.notEmpty, pick));
    if !IsFull(s) || !s.running || waits == [] then s1
    else
      var s2 := PerformAll(s1, waits[0], Others(t));
      if Awake(s2.notFull, t) then CallLoop(BackToCall(s2, t), t, f, pick, waits[1..]) else s2
  }

  /** The loop of `take`, for a worker at its test. */
  function TakeLoop(s: State, w: nat, pick: set<nat> -> nat, waits: seq<seq<Event>>): State
    decreases |waits|
  {
    var s1 := TakePass(s, w, Chosen(s.notFull, pick));
    if s.queue != [] || !s.running || waits == [] then s1
    else
      var s2 := PerformAll(s1, waits[0], Others(w));
      if Awake(s2.notEmpty, w) then TakeLoop(BackToTake(s2, w), w, pick, waits[1..]) else s2
  }

  /** The part of a turn after `take`. */
  function RestOfTurn(s: State, w: nat, during: seq<Event>): State {
    if w in s.workers && s.workers[w].Running? then
      var s3 := PerformAll(s, during, InTask(w));
      if w in s3.workers && InUserCode(s3.workers, s3.notFull, w) then EndTask(s3, w) else s3
    else s
  }

  /** One turn of the loop of a worker, up to where its task or its wait may hold it. */
  function Turn(s: State, w: nat, pick: set<nat> -> nat, waits: seq<seq<Event>>, during: seq<Event>): State {
    if s.running then RestOfTurn(TakeLoop(TestRunning(s, w), w, pick, waits), w, during) else TestRunning(s, w)
  }

  class ThreadPool {
    const max: nat
    var queue: seq<nat>
    var running: bool
    var workers: map<nat, Pc>  // where each of threads_ is
    var notEmpty: Cond
    var notFull: Cond
    var wants: map<nat, nat>   // the arguments of the calls of run that wait
    ghost var accepted: seq<nat>
    ghost var dequeued: seq<nat>

    ghost function Value(): State
      reads this
    {
      State(max, queue, running, workers, notEmpty, notFull, wants, accepted, dequeued)
    }

    /** The pool after `start`. */
    constructor (maxSize: nat, threads: set<nat>)
      ensures Value() == Init(maxSize, threads) && Inv(Value())
    {
      max, queue, running, workers := maxSize, [], true, map w | w in threads :: Top;
      notEmpty, notFull, wants := NOBODY, NOBODY, map[];
      accepted, dequeued := [], [];
    }

    predicate IsFull()
      reads this
    {
      max > 0 && |queue| >= max
    }

    method Stop()
      modifies this`running, this`notEmpty, this`notFull
      ensures Value() == StopAll(old(Value()))
    {
      running := false;
      notEmpty := NotifyAll(notEmpty);
      notFull := NotifyAll(notFull);
    }

    method WaitNotFull(t: nat, f: nat)
      requires IsFull() && running
      modifies this`notFull, this`wants
      ensures forall who: Option<nat> :: Value() == CallPass(old(Value()), t, f, who)
    {
      notFull := Sleep(notFull, t);
      wants := wants[t := f];
    }

    /** The end of `run`, past its wait loop. */
    method PushUnlessStopped(t: nat, f: nat, who: Option<nat>) returns (pushed: bool)
      requires !IsFull() || !running
      modifies this`queue, this`notEmpty, this`accepted
      ensures Value() == CallPass(old(Value()), t, f, who)
      ensures pushed == running && queue == old(queue) + if running then [f] else []
    {
      if !running { return false; }
      queue := queue + [f];
      notEmpty := NotifyOne(notEmpty, who);
      accepted := accepted + [f];
      pushed := true;
    }

    method ResumeCaller(t: nat)
      modifies this`notFull, this`wants
      ensures Value() == BackToCall(old(Value()), t)
    {
      notFull := Resume(notFull, t);
      wants := wants - {t};
    }

    method WaitNotEmpty(w: nat)
      requires queue == [] && running
      modifies this`notEmpty, this`workers
      ensures forall who: Option<nat> :: Value() == TakePass(old(Value()), w, who)
    {
      notEmpty := Sleep(notEmpty, w);
      workers := workers[w := Waiting];
    }

    /** The end of `take`, past its wait loop: the first task, if there is one. */
    method PopFront(w: nat, who: Option<nat>) returns (task: Option<nat>)
      requires queue != [] || !running
      modifies this`queue, this`workers, this`notFull, this`dequeued
      ensures Value() == TakePass(old(Value()), w, who)
      ensures old(queue) == (if task.Some? then [task.value] else []) + queue && (task.None? <==> old(queue) == [])
    {
      task := None;
      if queue == [] {
        workers := workers[w := Top];
      } else {
        task := Some(queue[0]);
        dequeued := dequeued + [queue[0]];
        workers := workers[w := Running(queue[0])];
        queue := queue[1..];
        if max > 0 {
          notFull := NotifyOne(notFull, who);
        }
      }
    }

    method ResumeTaker(w: nat)
      modifies this`notEmpty, this`workers
      ensures Value() == BackToTake(old(Value()), w)
    {
      notEmpty := Resume(notEmpty, w);
      workers := workers[w := Taking];
    }

    method TestLoop(w: nat)
      modifies this`workers
      ensures Value() == TestRunning(old(Value()), w)
    {
      workers := workers[w := if running then Taking else Exited];
    }

    method FinishTask(w: nat)
      modifies this`workers
      ensures Value() == EndTask(old(Value()), w)
    {
      workers := workers[w := Top];
    }

    /** One hold of the lock by a caller, or by a worker, at its test. */
    method TryCall(t: nat, f: nat, who: Option<nat>)
      modifies this`queue, this`notEmpty, this`accepted, this`notFull, this`wants
      ensures Value() == CallPass(old(Value()), t, f, who)
    {
      if IsFull() && running { WaitNotFull(t, f); } else { var _ := PushUnlessStopped(t, f, who); }
    }

    method TryTake(w: nat, who: Option<nat>)
      modifies this`queue, this`workers, this`notFull, this`dequeued, this`notEmpty
      ensures Value() == TakePass(old(Value()), w, who)
    {
      if queue == [] && running { WaitNotEmpty(w); } else { var _ := PopFront(w, who); }
    }

    method PerformEvent(ev: Event, may: Event -> bool)
      modifies this
      ensures Value() == Perform(old(Value()), ev, may)
    {
      hide CallPass, TakePass, BackToTake, BackToCall, StopAll, MayNotify, Awake, Threads, At, InUserCode, TestRunning, EndTask;
      if !may(ev) || !MayHappen(workers, notEmpty, notFull, wants, ev) { return; }
      match ev
      case Test(w) => TestLoop(w);
      case Take(w, who) => TryTake(w, who);
      case ResumeTake(w, who) =>
        ResumeTaker(w);
        TryTake(w, who);
      case Finish(w) => FinishTask(w);
      case Call(t, f, who) => TryCall(t, f, who);
      case ResumeCall(t, who) =>
        var f := wants[t];
        ResumeCaller(t);
        TryCall(t, f, who);
      case StirWorker(w) => notEmpty := Conditions.Stir(notEmpty, w);
      case StirCaller(t) => notFull := Conditions.Stir(notFull, t);
      case Stop => Stop();
    }

    /** Those of the steps that may happen, in turn. */
    method PerformEvents(evs: seq<Event>, may: Event -> bool)
      modifies this
      ensures Value() == PerformAll(old(Value()), evs, may)
    {
      hide Perform;
      ghost var s := Value();
      var i := 0;
      while i < |evs|
        invariant 0 <= i <= |evs| && PerformAll(Value(), evs[i..], may) == PerformAll(s, evs, may)
      {
        assert evs[i..][0] == evs[i] && evs[i..][1..] == evs[i + 1..];
        PerformEvent(evs[i], may);
        i := i + 1;
      }
    }

    /** `run` with at least one thread: whether the task was accepted, or nothing while the call waits. */
    method Run(t: nat, f: nat, pick: set<nat> -> nat, waits: seq<seq<Event>>) returns (pushed: Option<bool>)
      modifies this
      ensures Value() == CallLoop(old(Value()), t, f, pick, waits)
      ensures pushed.Some? ==> pushed.value == running && (running ==> queue != [] && queue[|queue| - 1] == f)
    {
      hide PerformAll, BackToCall;
      ghost var s := Value();
      var k := 0;
      while IsFull() && running
        invariant 0 <= k <= |waits| && CallLoop(Value(), t, f, pick, waits[k..]) == CallLoop(s, t, f, pick, waits)
        decreases |waits| - k
      {
        WaitNotFull(t, f);
        if k == |waits| { return None; }
        assert waits[k..][0] == waits[k] && waits[k..][1..] == waits[k + 1..];
        PerformEvents(waits[k], Others(t));
        if !Awake(notFull, t) { return None; }
        ResumeCaller(t);
        k := k + 1;
      }
      var accepted := PushUnlessStopped(t, f, Chosen(notEmpty, pick));
      pushed := Some(accepted);
    }

    /** `take`: done with a task or with none, or still waiting. */
    method Take(w: nat, pick: set<nat> -> nat, waits: seq<seq<Event>>) returns (done: bool, task: Option<nat>)
      modifies this
      ensures Value() == TakeLoop(old(Value()), w, pick, waits)
      ensures done ==> w in workers && workers[w] == if task.Some? then Running(task.value) else Top
      ensures done && task.None? ==> !running && queue == []
    {
      hide PerformAll, BackToTake;
      ghost var s := Value();
      task := None;
      var k := 0;
      while queue == [] && running
        invariant 0 <= k <= |waits| && TakeLoop(Value(), w, pick, waits[k..]) == TakeLoop(s, w, pick, waits)
        decreases |waits| - k
      {
        WaitNotEmpty(w);
        if k == |waits| { return false, None; }
        assert waits[k..][0] == waits[k] && waits[k..][1..] == waits[k + 1..];
        PerformEvents(waits[k], Others(w));
        if !Awake(notEmpty, w) { return false, None; }
        ResumeTaker(w);
        k := k + 1;
      }
      task := PopFront(w, Chosen(notFull, pick));
      done := true;
    }

    /** One turn of the loop in `run_in_thread`; `during` is what happens while its task runs. */
    method WorkerTurn(w: nat, pick: set<nat> -> nat, waits: seq<seq<Event>>, during: seq<Event>)
      requires At(workers, w, Top)
      modifies this
      ensures Value() == Turn(old(Value()), w, pick, waits, during)
    {
      hide TakeLoop, PerformAll;
      TestLoop(w);
      if running {
        var done, task := Take(w, pick, waits);
        if w in workers && workers[w].Running? {
          PerformEvents(during, InTask(w));
          if w in workers && InUserCode(workers, notFull, w) {
            FinishTask(w);
          }
        }
      }
    }
  }

  // ----- each is a run -----

  /** The steps may happen, and can be taken one after the other. */
  ghost predicate Possible(s: State, todo: seq<Event>, may: Event -> bool)
    decreases |todo|
  {
    todo != [] ==> may(todo[0]) && Enabled(s, todo[0]) && Possible(Step(s, todo[0]), todo[1..], may)
  }

  lemma {:induction false} PerformAllIsRun(s: State, todo: seq<Event>, may: Event -> bool) returns (ss: seq<State>, evs: seq<Event>)
    ensures ThreadPoolSpec.Run(ss, evs) && ss[0] == s && ss[|evs|] == PerformAll(s, todo, may)
    ensures forall ev <- evs :: may(ev)
    ensures Possible(s, todo, may) ==> evs == todo
    decreases |todo|
  {
    hide Step, Enabled;
    ss, evs := [s], [];
    if todo != [] {
      if may(todo[0]) && Enabled(s, todo[0]) {
        ss, evs := Extend(Next, ss, evs, todo[0], Step(ss[|evs|], todo[0]));
      }
      var ss2, evs2 := PerformAllIsRun(Perform(s, todo[0], may), todo[1..], may);
      ss, evs := Concat(Next, ss, evs, ss2, evs2);
      assert todo == [todo[0]] + todo[1..];
    }
  }

  /** A step of the loop of worker `w`, its calls of `run` aside. */
  function Works(w: nat): Event -> bool { ev => Own(ev, w) && !ev.ResumeCall? }

  lemma NoneWorks(w: nat, evs: seq<Event>)
    requires forall ev <- evs :: Others(w)(ev) || InTask(w)(ev)
    ensures Only(Works(w), evs) == []
  {
    OnlyNone(Works(w), evs);
  }

  lemma WorksFirst(w: nat, ev: Event, others: seq<Event>, rest: seq<Event>)
    requires Works(w)(ev) && forall e <- others :: Others(w)(e) || InTask(w)(e)
    ensures Only(Works(w), [ev] + others + rest) == [ev] + Only(Works(w), rest)
  {
    NoneWorks(w, others);
    OnlyOne(Works(w), ev);
    hide Only, Works;
    OnlyConcat(Works(w), [ev] + others, rest);
    OnlyConcat(Works(w), [ev], others);
  }

  lemma {:induction false} PerformAllKeeps(s: State, todo: seq<Event>, may: Event -> bool)
    requires Inv(s)
    ensures Inv(PerformAll(s, todo, may))
    decreases |todo|
  {
    hide Inv, Step, Enabled;
    if todo != [] {
      if may(todo[0]) && Enabled(s, todo[0]) { StepKeeps(s, todo[0]); }
      PerformAllKeeps(Perform(s, todo[0], may), todo[1..], may);
    }
  }

  /** A task leaves `wants` only when its own caller resumes. */
  lemma {:induction false} StepKeepsWant(s: State, ev: Event, t: nat)
    requires s.wants.Keys == Threads(s.notFull) && t in s.wants && Enabled(s, ev) && Others(t)(ev)
    ensures var s' := Step(s, ev); t in s'.wants && s'.wants[t] == s.wants[t]
  {
    hide Threads, MayNotify, Awake;
  }

  /** Whatever other threads do, a waiting caller keeps its place and its task. */
  lemma {:induction false} OthersKeepWants(s: State, todo: seq<Event>, t: nat)
    requires Inv(s) && t in s.wants
    ensures var s' := PerformAll(s, todo, Others(t)); Inv(s') && t in s'.wants && s'.wants[t] == s.wants[t]
    decreases |todo|
  {
    hide Promised, Alive, Step, Enabled, Apart, Threads, Others, At;
    if todo != [] {
      if Others(t)(todo[0]) && Enabled(s, todo[0]) {
        StepKeeps(s, todo[0]);
        StepKeepsWant(s, todo[0], t);
      }
      OthersKeepWants(Perform(s, todo[0], Others(t)), todo[1..], t);
    }
  }

  lemma ResumedCall(s: State, t: nat, who: Option<nat>, pick: set<nat> -> nat)
    requires Chooses(pick) && t in s.wants && Awake(s.notFull, t) && who == Chosen(s.notEmpty, pick)
    ensures Enabled(s, ResumeCall(t, who))
    ensures Step(s, ResumeCall(t, who)) == CallPass(BackToCall(s, t), t, s.wants[t], who)
  {
  }

  /** The rest of a call of `run`, from the step `ev` that puts thread `t` at its test. */
  lemma {:induction false} CallLoopIsRun(s: State, ev: Event, s0: State, t: nat, f: nat, pick: set<nat> -> nat, waits: seq<seq<Event>>)
    returns (ss: seq<State>, evs: seq<Event>)
    requires Chooses(pick) && Inv(s) && Enabled(s, ev) && Step(s, ev) == CallPass(s0, t, f, Chosen(s0.notEmpty, pick))
    ensures ThreadPoolSpec.Run(ss, evs) && ss[0] == s && ss[|evs|] == CallLoop(s0, t, f, pick, waits)
    decreases |waits|
  {
    hide PerformAll, Enabled, Step, Inv, Others;
    ss, evs := Extend(Next, [s], [], ev, Step(s, ev));
    if IsFull(s0) && s0.running && waits != [] {
      var s1 := Step(s, ev);
      var ss2, evs2 := PerformAllIsRun(s1, waits[0], Others(t));
      ss, evs := Concat(Next, ss, evs, ss2, evs2);
      StepKeeps(s, ev);
      OthersKeepWants(s1, waits[0], t);
      var s2 := PerformAll(s1, waits[0], Others(t));
      if Awake(s2.notFull, t) {
        var who := Chosen(s2.notEmpty, pick);
        ResumedCall(s2, t, who, pick);
        ss2, evs2 := CallLoopIsRun(s2, ResumeCall(t, who), BackToCall(s2, t), t, f, pick, waits[1..]);
        ss, evs := Concat(Next, ss, evs, ss2, evs2);
      }
    }
  }

  /** `run`, called from outside the pool or from a task, and whatever happens in its waits, is one of the runs of ThreadPoolRuns. */
  lemma {:induction false} CallIsRun(s: State, t: nat, f: nat, pick: set<nat> -> nat, waits: seq<seq<Event>>)
    returns (ss: seq<State>, evs: seq<Event>)
    requires Inv(s) && InUserCode(s.workers, s.notFull, t) && Chooses(pick)
    ensures ThreadPoolSpec.Run(ss, evs) && ss[0] == s && ss[|evs|] == CallLoop(s, t, f, pick, waits)
  {
    hide CallLoop, Inv, InUserCode;
    ss, evs := CallLoopIsRun(s, Call(t, f, Chosen(s.notEmpty, pick)), s, t, f, pick, waits);
  }

  lemma ResumedTake(s: State, w: nat, who: Option<nat>, pick: set<nat> -> nat)
    requires Chooses(pick) && Seats(s.workers, s.notEmpty, s.notFull, s.wants) && Awake(s.notEmpty, w) && who == Chosen(s.notFull, pick)
    ensures Enabled(s, ResumeTake(w, who))
    ensures Step(s, ResumeTake(w, who)) == TakePass(BackToTake(s, w), w, who)
  {
    assert w in Threads(s.notEmpty);
  }

  /** From the step `ev` that puts worker `w` at its test, the rest of a call of `take`; its own steps are its resumes. */
  lemma {:induction false} TakeLoopIsRun(s: State, ev: Event, s0: State, w: nat, pick: set<nat> -> nat, waits: seq<seq<Event>>)
    returns (ss: seq<State>, evs: seq<Event>, resumes: seq<Event>)
    requires Chooses(pick) && Inv(s) && Enabled(s, ev) && Step(s, ev) == TakePass(s0, w, Chosen(s0.notFull, pick)) && Works(w)(ev)
    ensures ThreadPoolSpec.Run(ss, evs) && ss[0] == s && ss[|evs|] == TakeLoop(s0, w, pick, waits)
    ensures Only(Works(w), evs) == [ev] + resumes && forall r <- resumes :: r.ResumeTake? && r.w == w
    decreases |waits|
  {
    hide PerformAll, Enabled, Step, Seats, Promised, Alive, Others, Only, InTask, Possible;
    var s1 := Step(s, ev);
    assert Next(s, ev, s1);
    resumes := [];
    if s0.queue == [] && s0.running && waits != [] {
      var ss2, evs2 := PerformAllIsRun(s1, waits[0], Others(w));
      ss, evs := Concat(Next, [s, s1], [ev], ss2, evs2);
      StepKeeps(s, ev);
      PerformAllKeeps(s1, waits[0], Others(w));
      var s2 := PerformAll(s1, waits[0], Others(w));
      var evs3 := [];
      if Awake(s2.notEmpty, w) {
        var who := Chosen(s2.notFull, pick);
        ResumedTake(s2, w, who, pick);
        var ss3;
        ss3, evs3, resumes := TakeLoopIsRun(s2, ResumeTake(w, who), BackToTake(s2, w), w, pick, waits[1..]);
        ss, evs := Concat(Next, ss, evs, ss3, evs3);
        resumes := [ResumeTake(w, who)] + resumes;
      } else {
        NoneWorks(w, []);
      }
      WorksFirst(w, ev, evs2, evs3);
      assert evs == [ev] + evs2 + evs3;
    } else {
      ss, evs := [s, s1], [ev];
      OnlyOne(Works(w), ev);
    }
  }

  lemma {:induction false} RestOfTurnIsRun(s: State, w: nat, during: seq<Event>) returns (ss: seq<State>, evs: seq<Event>, evs3: seq<Event>, ended: bool)
    ensures ThreadPoolSpec.Run(ss, evs) && ss[0] == s && ss[|evs|] == RestOfTurn(s, w, during)
    ensures evs == evs3 + (if ended then [Finish(w)] else []) && forall ev <- evs3 :: InTask(w)(ev)
    ensures w in s.workers && s.workers[w].Running? && Possible(s, during, InTask(w)) ==> evs3 == during
  {
    hide PerformAll, InTask, InUserCode, Possible;
    ss, evs, evs3, ended := [s], [], [], false;
    if w in s.workers && s.workers[w].Running? {
      ss, evs3 := PerformAllIsRun(s, during, InTask(w));
      evs := evs3;
      var s3 := PerformAll(s, during, InTask(w));
      if w in s3.workers && InUserCode(s3.workers, s3.notFull, w) {
        ss, evs := Extend(Next, ss, evs3, Finish(w), Step(s3, Finish(w)));
        ended := true;
      }
    }
  }

  /**
   One turn of a worker is too: the test, and while the pool runs the call of `take`, its resumes,
   and the end of the task, if it comes to that.
   */
  lemma {:induction false} TurnIsRun(s: State, w: nat, pick: set<nat> -> nat, waits: seq<seq<Event>>, during: seq<Event>)
    returns (ss: seq<State>, evs: seq<Event>, resumes: seq<Event>, ended: bool)
    requires Inv(s) && At(s.workers, w, Top) && Chooses(pick)
    ensures ThreadPoolSpec.Run(ss, evs) && ss[0] == s && ss[|evs|] == Turn(s, w, pick, waits, during)
    ensures forall r <- resumes :: r.ResumeTake? && r.w == w
    ensures Only(Works(w), evs) ==
            if !s.running then [Test(w)]
            else [Test(w), Take(w, Chosen(s.notFull, pick))] + resumes + (if ended then [Finish(w)] else [])
    ensures s.running ==>
              var s2, fin := TakeLoop(TestRunning(s, w), w, pick, waits), if ended then [Finish(w)] else [];
              w in s2.workers && s2.workers[w].Running? && Possible(s2, during, InTask(w)) ==>
                |evs| >= |during + fin| && evs[|evs| - |during + fin|..] == during + fin
  {
    var s1 := TestRunning(s, w);
    assert Next(s, Test(w), s1);
    StepKeeps(s, Test(w));
    hide TakeLoop, PerformAll, Inv, InTask, InUserCode, Only, Next, RestOfTurn, TestRunning, Possible;
    resumes, ended := [], false;
    if s.running {
      var take := Take(w, Chosen(s1.notFull, pick));
      var ss2, evs2, ss3, evs3, all3;
      ss2, evs2, resumes := TakeLoopIsRun(s1, take, s1, w, pick, waits);
      ss3, all3, evs3, ended := RestOfTurnIsRun(ss2[|evs2|], w, during);
      ss, evs := Concat(Next, ss2, evs2, ss3, all3);
      ss, evs := Concat(Next, [s, s1], [Test(w)], ss, evs);
      TurnWorks(w, take, evs2, resumes, evs3, ended);
      TurnEndsWith(w, evs2, evs3, if ended then [Finish(w)] else []);
    } else {
      ss, evs := [s, s1], [Test(w)];
      OnlyOne(Works(w), Test(w));
    }
  }

  lemma TurnEndsWith(w: nat, evs2: seq<Event>, evs3: seq<Event>, fin: seq<Event>)
    ensures var evs := [Test(w)] + (evs2 + (evs3 + fin)); |evs| >= |evs3 + fin| && evs[|evs| - |evs3 + fin|..] == evs3 + fin
  {
  }

  lemma TurnWorks(w: nat, take: Event, evs2: seq<Event>, resumes: seq<Event>, evs3: seq<Event>, ended: bool)
    requires Only(Works(w), evs2) == [take] + resumes && forall ev <- evs3 :: InTask(w)(ev)
    ensures Only(Works(w), [Test(w)] + (evs2 + (evs3 + if ended then [Finish(w)] else []))) ==
            [Test(w), take] + resumes + (if ended then [Finish(w)] else [])
  {
    NoneWorks(w, evs3);
    NoneWorks(w, []);
    OnlyOne(Works(w), Test(w));
    OnlyOne(Works(w), Finish(w));
    var fin := if ended then [Finish(w)] else [];
    assert Only(Works(w), fin) == fin;
    hide Only, Works, Own;
    assert [Test(w)] + ([take] + resumes + fin) == [Test(w), take] + resumes + fin;
    OnlyConcat(Works(w), [Test(w)], evs2 + (evs3 + fin));
    OnlyConcat(Works(w), evs2, evs3 + fin);
    OnlyConcat(Works(w), evs3, fin);
  }
}
