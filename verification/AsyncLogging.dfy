/**
 `async_logging` with its fields updated in place.  Each lock-protected section of the
 source is one method; `Round` is one turn of the loop in `thread_func`, with producers
 and `stop` at every point where the backend does not hold the lock.
 */
module AsyncLoggingObject {
  import opened Prelude
  import opened Traces
  import opened AsyncLogSpec
  import opened AsyncLogRuns

  /**
   What producers and `stop` do: until the backend has the lock, after it has collected,
   before each write and after the last, and before it loops.
   */
  datatype Arrivals = Arrivals(waiting: seq<Event>, collected: seq<Event>, writing: nat -> seq<Event>, recycled: seq<Event>)

  /** A step of another thread than the backend; nothing else happens. */
  ghost function Happens(s: State, ev: Event): (s': State)
    requires Inv(s)
    ensures Inv(s') && SparesBackend(s, s')
  {
    match ev
    case Append(msg) => AppendSparesBackend(s, msg); AppendMsg(s, msg)
    case Stop => FlagsKeep(s, s.(running := false)); s.(running := false)
    case _ => s
  }

  ghost function Meanwhile(s: State, evs: seq<Event>): (s': State)
    requires Inv(s)
    ensures Inv(s') && SparesBackend(s, s')
    decreases |evs|
  {
    if evs == [] then s
    else
      hide Inv, Happens;
      Meanwhile(Happens(s, evs[0]), evs[1..])
  }

  predicate SparesBackend(s: State, s': State) {
    s'.pc == s.pc && s'.toWrite == s.toWrite && s'.fates == s.fates && s'.cut == s.cut && (s'.running ==> s.running)
  }

  lemma AppendSparesBackend(s: State, msg: string)
    requires Inv(s)
    ensures s.current.Some? && Inv(AppendMsg(s, msg)) && SparesBackend(s, AppendMsg(s, msg))
  {
    hide Shape, Everything, Owned, NoAlias, Recorded, Fitting;
    ShapeHasCurrent(s);
    AppendKeeps(s, msg);
  }

  lemma WritingInRange(s: State)
    requires Inv(s) && s.pc.Writing?
    ensures s.pc.done <= |s.toWrite|
    ensures s.pc.done < |s.toWrite| ==>
              Inv(WriteNext(s)) && WriteNext(s).pc == Writing(s.pc.done + 1) && WriteNext(s).toWrite == s.toWrite
  {
    hide Everything, Owned, NoAlias, Recorded, Fitting, Flat;
    if s.pc.done < |s.toWrite| { WriteKeeps(s); }
  }

  /** The writing loop. */
  ghost function WriteAll(s: State, during: nat -> seq<Event>): (s': State)
    requires Inv(s) && s.pc.Writing?
    ensures Inv(s') && Enabled(s', DoRecycle)
    decreases if s.pc.Writing? then |s.toWrite| - s.pc.done else 0
  {
    hide Inv, Flat, Meanwhile, WriteNext;
    var s1 := Meanwhile(s, during(s.pc.done));
    WritingInRange(s1);
    if s1.pc.done == |s1.toWrite| then s1 else WriteAll(WriteNext(s1), during)
  }

  ghost function RoundOf(s: State, a: Arrivals): (s': State)
    requires Inv(s) && Enabled(s, DoTest)
    ensures Inv(s') && s'.pc.Top?
  {
    hide Shape, Everything, Owned, NoAlias, Recorded, Fitting, Meanwhile, WriteAll;
    FlagsKeep(s, s.(pc := Waiting));
    var s1 := Meanwhile(s.(pc := Waiting), a.waiting);
    ShapeHasCurrent(s1);
    CollectKeeps(s1);
    var s2 := Meanwhile(Collect(s1), a.collected);
    TrimKeeps(s2);
    var s3 := WriteAll(Trim(s2), a.writing);
    RecycleShape(s3);
    RecycleKeeps(s3);
    Meanwhile(Recycle(s3), a.recycled)
  }

  /** `thread_func`: rounds until `running_` is found false, which it is after these at the latest. */
  ghost function ThreadOf(s: State, rounds: seq<Arrivals>): (s': State)
    requires Inv(s) && s.pc.Top?
    ensures Inv(s') && s'.pc.Exited? && !s'.running
    decreases |rounds|
  {
    hide Shape, Everything, Owned, NoAlias, Recorded, Fitting, RoundOf;
    if s.running && rounds != [] then ThreadOf(RoundOf(s, rounds[0]), rounds[1..])
    else
      FlagsKeep(s, s.(running := false));
      FlagsKeep(s.(running := false), s.(running := false, pc := Exited));
      s.(running := false, pc := Exited)
  }

  class AsyncLogging {
    var current: Option<Buffer>
    var next: Option<Buffer>
    var buffers: seq<Buffer>
    var new1: Option<Buffer>
    var new2: Option<Buffer>
    var toWrite: seq<Buffer>
    var running: bool
    var created: nat
    var file: seq<Record>
    ghost var pc: Pc
    ghost var appended: seq<string>
    ghost var fates: seq<Fate>
    ghost var cut: seq<Buffer>

    ghost function Value(): State
      reads this
    {
      State(current, next, buffers, new1, new2, toWrite, running, pc, created, file, appended, fates, cut)
    }

    constructor ()
      ensures Value() == Init() && Inv(Value())
    {
      current, next, buffers := Some(Buffer(0, [])), Some(Buffer(1, [])), [];
      new1, new2, toWrite := Some(Buffer(2, [])), Some(Buffer(3, [])), [];
      running, created, file, pc, appended, fates, cut := true, 4, [], Top, [], [], [];
      new;
      InitHolds();
    }

    /** A producer's call. */
    method Append(logline: string)
      requires current.Some?
      modifies this`current, this`next, this`buffers, this`created, this`appended
      ensures Value() == AppendMsg(old(Value()), logline)
    {
      hide Flat;
      appended := appended + [logline];
      if Avail(current.value) > |logline| {
        current := Some(Put(current.value, logline));
      } else {
        buffers := buffers + [current.value];
        if next.Some? {
          current, next := next, None;
        } else {
          current, created := Some(Buffer(created, [])), created + 1;
        }
        current := Some(Put(current.value, logline));
      }
    }

    method StopLogging()
      modifies this`running
      ensures Value() == old(Value()).(running := false)
    {
      running := false;
    }

    /** The critical section of `thread_func`. */
    method CollectBuffers()
      requires Shape(Value()) && pc.Waiting?
      modifies this`current, this`next, this`buffers, this`new1, this`new2, this`toWrite, this`pc
      ensures Value() == Collect(old(Value()))
    {
      assert new1.Some? && new1.value.msgs == [] && new2.Some? && new2.value.msgs == [] && toWrite == [];
      buffers := buffers + [current.value];
      current, new1 := new1, None;
      toWrite, buffers := buffers, toWrite;
      if next.None? {
        next, new2 := new2, None;
      }
      pc := Collected;
      assert toWrite != [];
    }

    method TrimExcess()
      requires pc.Collected?
      modifies this`file, this`toWrite, this`pc, this`cut
      ensures Value() == Trim(old(Value()))
    {
      if |toWrite| > 25 {
        file := file + [Notice(|toWrite| - 2)];
        cut := toWrite[2..];
        toWrite := toWrite[..2];
      }
      pc := Writing(0);
    }

    method WriteBuffers(during: nat -> seq<Event>)
      requires Inv(Value()) && pc == Writing(0)
      modifies this
      ensures Value() == WriteAll(old(Value()), during)
    {
      hide Inv, Flat, Meanwhile;
      ghost var s := Value();
      WritingInRange(s);
      var i := 0;
      while i < |toWrite|
        invariant 0 <= i <= |toWrite| && pc == Writing(i) && toWrite == s.toWrite
        invariant Inv(Value()) && WriteAll(Value(), during) == WriteAll(s, during)
      {
        Arrive(during(i));
        ghost var s1 := Value();
        WritingInRange(s1);
        WriteBuffer(i);
        i := i + 1;
      }
      Arrive(during(i));
    }

    method WriteBuffer(i: nat)
      requires pc == Writing(i) && i < |toWrite|
      modifies this`fates, this`file, this`pc
      ensures Value() == WriteNext(old(Value()))
    {
      fates := fates + [Written(toWrite[i].msgs)];
      file := file + [Data(Flat(toWrite[i].msgs))];
      pc := Writing(i + 1);
    }

    /** `buffersToWrite.resize(2)`, then the two spares from the back of what is left. */
    method TakeSpares()
      requires CanRecycle(Value())
      modifies this`new1, this`new2, this`toWrite
      ensures var s := old(Value());
              var bs := if |s.toWrite| > 2 then s.toWrite[..2] else s.toWrite;
              var (n1, bs1) := Refill(s.new1, bs);
              new1 == n1 && new2 == Refill(s.new2, bs1).0
    {
      if |toWrite| > 2 {
        toWrite := toWrite[..2];
      }
      if new1.None? {
        assert toWrite != [];
        new1, toWrite := Some(toWrite[|toWrite| - 1].(msgs := [])), toWrite[..|toWrite| - 1];
      }
      if new2.None? {
        assert toWrite != [];
        new2, toWrite := Some(toWrite[|toWrite| - 1].(msgs := [])), toWrite[..|toWrite| - 1];
      }
    }

    /** The end of a round. */
    method RecycleBuffers()
      requires Shape(Value()) && Enabled(Value(), DoRecycle)
      modifies this`new1, this`new2, this`toWrite, this`fates, this`cut, this`pc
      ensures CanRecycle(old(Value())) && Value() == Recycle(old(Value()))
    {
      hide FatesOfCut, Refill;
      RecycleShape(Value());
      TakeSpares();
      toWrite := [];
      fates, cut, pc := fates + FatesOfCut(cut), [], Top;
    }

    /** One step of another thread. */
    method Happen(ev: Event)
      requires Inv(Value())
      modifies this`current, this`next, this`buffers, this`created, this`appended, this`running
      ensures Value() == Happens(old(Value()), ev)
    {
      hide Shape, Everything, Owned, NoAlias, Recorded, Fitting, AppendMsg;
      match ev
      case Append(msg) =>
        AppendSparesBackend(Value(), msg);
        Append(msg);
      case Stop => StopLogging();
      case _ =>
    }

    /** Other threads take their steps. */
    method Arrive(evs: seq<Event>)
      requires Inv(Value())
      modifies this`current, this`next, this`buffers, this`created, this`appended, this`running
      ensures Value() == Meanwhile(old(Value()), evs)
    {
      hide Inv, Happens;
      var i := 0;
      while i < |evs|
        invariant 0 <= i <= |evs| && Inv(Value())
        invariant Meanwhile(Value(), evs[i..]) == Meanwhile(old(Value()), evs)
      {
        assert evs[i..][0] == evs[i] && evs[i..][1..] == evs[i + 1..];
        Happen(evs[i]);
        i := i + 1;
      }
    }

    method PassTest()
      modifies this`pc
      ensures Value() == old(Value()).(pc := Waiting)
    {
      pc := Waiting;
    }

    method Round(a: Arrivals)
      requires Inv(Value()) && pc.Top? && running
      modifies this
      ensures Value() == RoundOf(old(Value()), a)
    {
      hide Shape, Everything, Owned, NoAlias, Recorded, Fitting, Recycle, Meanwhile, WriteAll;
      FlagsKeep(Value(), Value().(pc := Waiting));
      PassTest();
      Arrive(a.waiting);
      ShapeHasCurrent(Value());
      CollectKeeps(Value());
      CollectBuffers();
      Arrive(a.collected);
      TrimKeeps(Value());
      TrimExcess();
      WriteBuffers(a.writing);
      RecycleShape(Value());
      RecycleKeeps(Value());
      RecycleBuffers();
      Arrive(a.recycled);
    }

    /** `thread_func`: the rounds, until `running_` is found false. */
    method ThreadFunc(rounds: seq<Arrivals>)
      requires Inv(Value()) && pc.Top?
      modifies this
      ensures Value() == ThreadOf(old(Value()), rounds)
    {
      hide Shape, Everything, Owned, NoAlias, Recorded, Fitting, RoundOf;
      ghost var s := Value();
      var i := 0;
      while running
        invariant 0 <= i <= |rounds| && Inv(Value()) && pc.Top?
        invariant ThreadOf(Value(), rounds[i..]) == ThreadOf(s, rounds)
        decreases |rounds| - i, running
      {
        if i < |rounds| {
          assert rounds[i..][0] == rounds[i] && rounds[i..][1..] == rounds[i + 1..];
          Round(rounds[i]);
          i := i + 1;
        } else {
          FlagsKeep(Value(), Value().(running := false));
          StopLogging();
        }
      }
      FlagsKeep(Value(), Value().(pc := Exited));
      pc := Exited;
    }
  }

  // ----- a round is a run -----

  /** A step of another thread than the backend. */
  function Foreign(): Event -> bool { (ev: Event) => ev.Append? || ev.Stop? }

  lemma {:induction false} OnlyFirst(todo: seq<Event>)
    requires todo != []
    ensures Only(Foreign(), todo) == (if Foreign()(todo[0]) then [todo[0]] else []) + Only(Foreign(), todo[1..])
  {
    OnlyOne(Foreign(), todo[0]);
    OnlyConcat(Foreign(), [todo[0]], todo[1..]);
    assert [todo[0]] + todo[1..] == todo;
  }

  /** Every append and every stop is performed, and nothing else. */
  lemma {:induction false} MeanwhileIsRun(s: State, todo: seq<Event>) returns (ss: seq<State>, evs: seq<Event>)
    requires Inv(s)
    ensures Run(ss, evs) && ss[0] == s && ss[|evs|] == Meanwhile(s, todo) && evs == Only(Foreign(), todo)
    decreases |todo|
  {
    hide Shape, Everything, Owned, NoAlias, Recorded, Fitting, AppendMsg, Only;
    ss, evs := [s], [];
    if todo != [] {
      if todo[0].Append? || todo[0].Stop? {
        ss, evs := Extend(Next, ss, evs, todo[0], Step(s, todo[0]));
      }
      var ss2, evs2 := MeanwhileIsRun(Happens(s, todo[0]), todo[1..]);
      ss, evs := Concat(Next, ss, evs, ss2, evs2);
      OnlyFirst(todo);
    } else {
      OnlyNone(Foreign(), todo);
    }
  }

  /** The writes from the `k`-th of `n` on, with what others do before each and after the last. */
  function Writes(during: nat -> seq<Event>, k: nat, n: nat): seq<Event>
    requires k <= n
    decreases n - k
  {
    Only(Foreign(), during(k)) + (if k == n then [] else [DoWrite] + Writes(during, k + 1, n))
  }

  lemma {:induction false} WriteAllIsRun(s: State, during: nat -> seq<Event>) returns (ss: seq<State>, evs: seq<Event>)
    requires Inv(s) && s.pc.Writing?
    ensures Run(ss, evs) && ss[0] == s && ss[|evs|] == WriteAll(s, during)
    ensures s.pc.done <= |s.toWrite| && evs == Writes(during, s.pc.done, |s.toWrite|)
    decreases if s.pc.Writing? then |s.toWrite| - s.pc.done else 0
  {
    hide Shape, Everything, Owned, NoAlias, Recorded, Fitting, Meanwhile, Only;
    ss, evs := MeanwhileIsRun(s, during(s.pc.done));
    var s1 := Meanwhile(s, during(s.pc.done));
    WritingInRange(s1);
    if s1.pc.done < |s1.toWrite| {
      var evs1 := evs;
      ss, evs := Extend(Next, ss, evs, DoWrite, WriteNext(s1));
      var ss2, evs2 := WriteAllIsRun(WriteNext(s1), during);
      ss, evs := Concat(Next, ss, evs, ss2, evs2);
      assert evs1 + [DoWrite] + evs2 == evs1 + ([DoWrite] + evs2);
    }
  }

  /** The events of a round that writes `n` buffers. */
  function RoundEvents(a: Arrivals, n: nat): seq<Event> {
    [DoTest] + Only(Foreign(), a.waiting) + [DoCollect] + Only(Foreign(), a.collected) + [DoTrim]
    + Writes(a.writing, 0, n) + [DoRecycle] + Only(Foreign(), a.recycled)
  }

  /** A round up to its collection. */
  lemma {:induction false} CollectingIsRun(s: State, a: Arrivals) returns (ss: seq<State>, evs: seq<Event>, s1: State)
    requires Inv(s) && Enabled(s, DoTest)
    ensures Inv(s.(pc := Waiting)) && s1 == Meanwhile(s.(pc := Waiting), a.waiting) && s1.current.Some? && Inv(Collect(s1))
    ensures Run(ss, evs) && ss[0] == s && ss[|evs|] == Collect(s1)
    ensures evs == [DoTest] + Only(Foreign(), a.waiting) + [DoCollect] && ss[|evs| - 1] == s1
  {
    hide Shape, Everything, Owned, NoAlias, Recorded, Fitting, Meanwhile, Only;
    FlagsKeep(s, s.(pc := Waiting));
    var s0 := s.(pc := Waiting);
    var ss', evs' := MeanwhileIsRun(s0, a.waiting);
    s1 := ss'[|evs'|];
    assert Next(s, DoTest, s0);
    ss, evs := Concat(Next, [s, s0], [DoTest], ss', evs');
    ShapeHasCurrent(s1);
    CollectKeeps(s1);
    ss, evs := Extend(Next, ss, evs, DoCollect, Step(s1, DoCollect));
  }

  /** From the collection to the last write. */
  lemma {:induction false} WritingIsRun(s: State, a: Arrivals) returns (ss: seq<State>, evs: seq<Event>, s2: State)
    requires Inv(s) && s.pc.Collected?
    ensures s2 == Meanwhile(s, a.collected) && Inv(Trim(s2))
    ensures Run(ss, evs) && ss[0] == s && ss[|evs|] == WriteAll(Trim(s2), a.writing)
    ensures evs == Only(Foreign(), a.collected) + [DoTrim] + Writes(a.writing, 0, |Trim(s2).toWrite|)
  {
    hide Shape, Everything, Owned, NoAlias, Recorded, Fitting, Meanwhile, WriteAll, Only, Writes;
    ss, evs := MeanwhileIsRun(s, a.collected);
    s2 := ss[|evs|];
    TrimKeeps(s2);
    ss, evs := Extend(Next, ss, evs, DoTrim, Step(s2, DoTrim));
    var ss', evs' := WriteAllIsRun(Trim(s2), a.writing);
    ss, evs := Concat(Next, ss, evs, ss', evs');
  }

  /** The rest of a round. */
  lemma {:induction false} RecyclingIsRun(s: State, a: Arrivals) returns (ss: seq<State>, evs: seq<Event>)
    requires Inv(s) && Enabled(s, DoRecycle)
    ensures CanRecycle(s) && Inv(Recycle(s))
    ensures Run(ss, evs) && ss[0] == s && ss[|evs|] == Meanwhile(Recycle(s), a.recycled)
    ensures evs == [DoRecycle] + Only(Foreign(), a.recycled)
  {
    hide Shape, Everything, Owned, NoAlias, Recorded, Fitting, Meanwhile, Recycle, CanRecycle, Only;
    RecycleShape(s);
    RecycleKeeps(s);
    var ss', evs' := MeanwhileIsRun(Recycle(s), a.recycled);
    assert Next(s, DoRecycle, Recycle(s));
    ss, evs := Concat(Next, [s, Recycle(s)], [DoRecycle], ss', evs');
  }

  /**
   One turn of the backend's loop, with producers and `stop` at any point, is one of the runs of
   AsyncLogRuns, and goes through all its stages: of the buffers in front and the current one at
   the collection, it writes all, or two if they are more than 25.
   */
  lemma {:induction false} RoundIsRun(s: State, a: Arrivals) returns (ss: seq<State>, evs: seq<Event>, n: nat)
    requires Inv(s) && Enabled(s, DoTest)
    ensures Run(ss, evs) && ss[0] == s && ss[|evs|] == RoundOf(s, a) && evs == RoundEvents(a, n)
    ensures var m := |ss[1 + |Only(Foreign(), a.waiting)|].buffers| + 1; n == if m > 25 then 2 else m
  {
    hide Inv, Recycle, Meanwhile, WriteAll, Only, Writes, Next;
    var s1, s2;
    ss, evs, s1 := CollectingIsRun(s, a);
    var k := |evs| - 1;
    var ss', evs';
    ss', evs', s2 := WritingIsRun(Collect(s1), a);
    n := |Trim(s2).toWrite|;
    ss, evs := Concat(Next, ss, evs, ss', evs');
    ss', evs' := RecyclingIsRun(ss[|evs|], a);
    ss, evs := Concat(Next, ss, evs, ss', evs');
    assert ss[k] == s1;
    hide Collect, Trim;
  }

  /** The backend, from its first round to its exit, is a run. */
  lemma {:induction false} ThreadIsRun(s: State, rounds: seq<Arrivals>) returns (ss: seq<State>, evs: seq<Event>)
    requires Inv(s) && s.pc.Top?
    ensures Run(ss, evs) && ss[0] == s && ss[|evs|] == ThreadOf(s, rounds)
    decreases |rounds|
  {
    hide Shape, Everything, Owned, NoAlias, Recorded, Fitting, RoundOf;
    if s.running && rounds != [] {
      var n;
      ss, evs, n := RoundIsRun(s, rounds[0]);
      var ss', evs' := ThreadIsRun(RoundOf(s, rounds[0]), rounds[1..]);
      ss, evs := Concat(Next, ss, evs, ss', evs');
    } else {
      ss, evs := Extend(Next, [s], [], Stop, Step(s, Stop));
      StepKeeps(s, Stop);
      ss, evs := Extend(Next, ss, evs, DoExit, Step(ss[|evs|], DoExit));
    }
  }

  // ----- what a round drops -----

  /** The first two buffers of a batch larger than 25 are written, and the others dropped; of any other batch all are written. */
  function FatesOfBatch(batch: seq<Buffer>): seq<Fate> {
    seq(|batch|, i requires 0 <= i < |batch| => if |batch| > 25 && i >= 2 then Dropped(batch[i].msgs) else Written(batch[i].msgs))
  }

  function AsWritten(bs: seq<Buffer>): seq<Fate> {
    seq(|bs|, i requires 0 <= i < |bs| => Written(bs[i].msgs))
  }

  lemma AsWrittenFrom(bs: seq<Buffer>, k: nat)
    requires k < |bs|
    ensures AsWritten(bs[k..]) == [Written(bs[k].msgs)] + AsWritten(bs[k + 1..])
  {
  }

  lemma {:induction false} WriteAllFates(s: State, during: nat -> seq<Event>)
    requires Inv(s) && s.pc.Writing?
    ensures WriteAll(s, during).fates == s.fates + AsWritten(Unwritten(s)) && WriteAll(s, during).cut == s.cut
    decreases if s.pc.Writing? then |s.toWrite| - s.pc.done else 0
  {
    hide Inv, Flat, Meanwhile, AsWritten;
    var s1 := Meanwhile(s, during(s.pc.done));
    WritingInRange(s1);
    if s1.pc.done < |s1.toWrite| {
      WriteAllFates(WriteNext(s1), during);
      AsWrittenFrom(s.toWrite, s.pc.done);
    } else {
      NoneWritten();
      assert Unwritten(s) == [] && s1.fates + [] == s1.fates;
    }
  }

  lemma NoneWritten()
    ensures AsWritten([]) == []
  {
  }

  /** A round finishes the buffers it collected, in their order, and drops exactly the third and later of more than 25. */
  lemma {:induction false} RoundDrops(s: State, a: Arrivals)
    requires Inv(s) && Enabled(s, DoTest)
    ensures Inv(s.(pc := Waiting)) && Meanwhile(s.(pc := Waiting), a.waiting).current.Some?
    ensures var s1 := Meanwhile(s.(pc := Waiting), a.waiting);
            RoundOf(s, a).fates == s.fates + FatesOfBatch(s1.buffers + [s1.current.value])
  {
    hide Shape, Everything, Owned, NoAlias, Recorded, Fitting, Meanwhile, WriteAll;
    FlagsKeep(s, s.(pc := Waiting));
    var s1 := Meanwhile(s.(pc := Waiting), a.waiting);
    ShapeHasCurrent(s1);
    CollectKeeps(s1);
    var batch := Collect(s1).toWrite;
    NothingCut(s1);
    var s2 := Meanwhile(Collect(s1), a.collected);
    TrimKeeps(s2);
    var s3 := Trim(s2);
    WriteAllFates(s3, a.writing);
    RecycleShape(WriteAll(s3, a.writing));
    RecycleKeeps(WriteAll(s3, a.writing));
    assert s3.toWrite[0..] == s3.toWrite;
    assert AsWritten(s3.toWrite) + FatesOfCut(s3.cut) == FatesOfBatch(batch);
  }

  lemma NothingCut(s: State)
    requires Inv(s) && s.pc.Waiting?
    ensures s.cut == []
  {
  }

  // ----- the rounds of the backend -----

  /** The states at the loop tops: every round but the last began with `running_` set, and ended as a round does. */
  ghost predicate Tops(s: State, rounds: seq<Arrivals>, tops: seq<State>) {
    && 1 <= |tops| <= |rounds| + 1 && tops[0] == s
    && (forall i :: 0 <= i < |tops| ==> Inv(tops[i]) && tops[i].pc.Top?)
    && (forall i :: 0 <= i < |tops| - 1 ==> tops[i].running && tops[i + 1] == RoundOf(tops[i], rounds[i]))
  }

  /** `thread_func` goes through round after round while `running_` holds, and exits as soon as it does not, or they are used up. */
  lemma {:induction false} ThreadTakesRounds(s: State, rounds: seq<Arrivals>) returns (tops: seq<State>)
    requires Inv(s) && s.pc.Top?
    ensures Tops(s, rounds, tops) && (|tops| == |rounds| + 1 || !tops[|tops| - 1].running)
    ensures ThreadOf(s, rounds) == tops[|tops| - 1].(running := false, pc := Exited)
    decreases |rounds|
  {
    hide Inv, RoundOf;
    if s.running && rounds != [] {
      var s1 := RoundOf(s, rounds[0]);
      var rest := ThreadTakesRounds(s1, rounds[1..]);
      tops := [s] + rest;
      forall i | 0 <= i < |tops| - 1 ensures tops[i].running && tops[i + 1] == RoundOf(tops[i], rounds[i]) {
        if i > 0 { assert rest[i] == RoundOf(rest[i - 1], rounds[1..][i - 1]); }
      }
    } else {
      tops := [s];
    }
  }

  /** What the rounds finish is finished at the exit: of each in turn, the buffers that it collected. */
  lemma {:induction false} RoundsAreFinished(s: State, rounds: seq<Arrivals>, tops: seq<State>, i: nat)
    requires Inv(s) && s.pc.Top? && Tops(s, rounds, tops) && i < |tops| - 1
    ensures Inv(tops[i].(pc := Waiting)) && Meanwhile(tops[i].(pc := Waiting), rounds[i].waiting).current.Some?
    ensures var s1 := Meanwhile(tops[i].(pc := Waiting), rounds[i].waiting);
            tops[i].fates + FatesOfBatch(s1.buffers + [s1.current.value]) <= tops[|tops| - 1].fates
    decreases |tops| - i
  {
    hide Inv, Meanwhile, RoundOf, FatesOfBatch;
    RoundDropsAt(tops[i], rounds[i]);
    if i + 1 < |tops| - 1 {
      RoundsAreFinished(s, rounds, tops, i + 1);
      assert tops[i + 1].fates <= tops[|tops| - 1].fates;
    }
  }

  lemma RoundDropsAt(s: State, a: Arrivals)
    requires Inv(s) && s.pc.Top? && s.running
    ensures Inv(s.(pc := Waiting)) && Meanwhile(s.(pc := Waiting), a.waiting).current.Some?
    ensures var s1 := Meanwhile(s.(pc := Waiting), a.waiting);
            RoundOf(s, a).fates == s.fates + FatesOfBatch(s1.buffers + [s1.current.value])
  {
    RoundDrops(s, a);
  }

  /** So a running backend with a round to go finishes what its first collection takes. */
  lemma {:induction false} FirstBatchIsFinished(s: State, rounds: seq<Arrivals>)
    requires Inv(s) && s.pc.Top? && s.running && rounds != []
    ensures Inv(s.(pc := Waiting)) && Meanwhile(s.(pc := Waiting), rounds[0].waiting).current.Some?
    ensures var s1 := Meanwhile(s.(pc := Waiting), rounds[0].waiting);
            s.fates + FatesOfBatch(s1.buffers + [s1.current.value]) <= ThreadOf(s, rounds).fates
  {
    hide Inv, Meanwhile, RoundOf, FatesOfBatch;
    var tops := ThreadTakesRounds(s, rounds);
    RoundsAreFinished(s, rounds, tops, 0);
  }

  // ----- nobody stops it -----

  predicate NoStop(evs: seq<Event>) { forall ev <- evs :: ev != Stop }

  ghost predicate NeverStopped(a: Arrivals) {
    NoStop(a.waiting) && NoStop(a.collected) && NoStop(a.recycled) && forall k: nat :: NoStop(a.writing(k))
  }

  lemma {:induction false} MeanwhileRuns(s: State, evs: seq<Event>)
    requires Inv(s) && NoStop(evs)
    ensures Meanwhile(s, evs).running == s.running
    decreases |evs|
  {
    hide Inv, AppendMsg;
    if evs != [] {
      assert evs[0] in evs && forall ev <- evs[1..] :: ev in evs;
      HappensRuns(s, evs[0]);
      MeanwhileRuns(Happens(s, evs[0]), evs[1..]);
    }
  }

  lemma HappensRuns(s: State, ev: Event)
    requires Inv(s) && ev != Stop
    ensures Happens(s, ev).running == s.running
  {
  }

  lemma {:induction false} WriteAllRuns(s: State, during: nat -> seq<Event>)
    requires Inv(s) && s.pc.Writing? && forall k: nat :: NoStop(during(k))
    ensures WriteAll(s, during).running == s.running
    decreases if s.pc.Writing? then |s.toWrite| - s.pc.done else 0
  {
    hide Inv, Flat, Meanwhile;
    var s1 := Meanwhile(s, during(s.pc.done));
    MeanwhileRuns(s, during(s.pc.done));
    WritingInRange(s1);
    if s1.pc.done < |s1.toWrite| { WriteAllRuns(WriteNext(s1), during); }
  }

  lemma {:induction false} RoundRuns(s: State, a: Arrivals)
    requires Inv(s) && Enabled(s, DoTest) && NeverStopped(a)
    ensures RoundOf(s, a).running
  {
    hide Shape, Everything, Owned, NoAlias, Recorded, Fitting, Meanwhile, WriteAll;
    FlagsKeep(s, s.(pc := Waiting));
    var s1 := Meanwhile(s.(pc := Waiting), a.waiting);
    MeanwhileRuns(s.(pc := Waiting), a.waiting);
    ShapeHasCurrent(s1);
    CollectKeeps(s1);
    MeanwhileRuns(Collect(s1), a.collected);
    var s2 := Meanwhile(Collect(s1), a.collected);
    TrimKeeps(s2);
    WriteAllRuns(Trim(s2), a.writing);
    var s3 := WriteAll(Trim(s2), a.writing);
    RecycleShape(s3);
    RecycleKeeps(s3);
    MeanwhileRuns(Recycle(s3), a.recycled);
  }

  /** A running backend that nobody stops goes through all the rounds. */
  lemma {:induction false} UnstoppedTakesAll(s: State, rounds: seq<Arrivals>, tops: seq<State>)
    requires Inv(s) && s.pc.Top? && s.running && (forall a <- rounds :: NeverStopped(a))
    requires Tops(s, rounds, tops) && (|tops| == |rounds| + 1 || !tops[|tops| - 1].running)
    ensures |tops| == |rounds| + 1
  {
    hide Inv, RoundOf, NeverStopped;
    var i := |tops| - 2;
    if i >= 0 { RoundRuns(tops[i], rounds[i]); }
  }
}
