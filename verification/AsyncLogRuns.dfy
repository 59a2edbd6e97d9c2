/** Every step of the logger keeps its invariant, and what that says about the messages and the buffers. */
module AsyncLogRuns {
  import opened Prelude
  import opened Traces
  import opened AsyncLogSpec
  import LogStream

  // ----- concatenation -----

  lemma {:induction false} MsgsOfAppend(a: seq<Buffer>, b: seq<Buffer>)
    ensures MsgsOf(a + b) == MsgsOf(a) + MsgsOf(b)
  {
    if a == [] {
      assert a + b == b;
    } else {
      assert (a + b)[1..] == a[1..] + b;
      MsgsOfAppend(a[1..], b);
    }
  }

  lemma MsgsOfOne(b: Buffer)
    ensures MsgsOf([b]) == b.msgs
  {
    assert [b][1..] == [];
  }

  lemma {:induction false} BagAppend(a: seq<Buffer>, b: seq<Buffer>)
    ensures Bag(a + b) == Bag(a) + Bag(b)
  {
    if a == [] {
      assert a + b == b;
    } else {
      assert (a + b)[1..] == a[1..] + b;
      BagAppend(a[1..], b);
    }
  }

  lemma {:induction false} FateMsgsAppend(a: seq<Fate>, b: seq<Fate>)
    ensures MsgsOfFates(a + b) == MsgsOfFates(a) + MsgsOfFates(b)
  {
    if a == [] {
      assert a + b == b;
    } else {
      assert (a + b)[1..] == a[1..] + b;
      FateMsgsAppend(a[1..], b);
    }
  }

  lemma {:induction false} FateDataAppend(a: seq<Fate>, b: seq<Fate>)
    ensures DataFor(a + b) == DataFor(a) + DataFor(b)
  {
    hide Flat;
    if a == [] {
      assert a + b == b;
    } else {
      assert (a + b)[1..] == a[1..] + b;
      FateDataAppend(a[1..], b);
    }
  }

  lemma {:induction false} FateDropsAppend(a: seq<Fate>, b: seq<Fate>)
    ensures DroppedIn(a + b) == DroppedIn(a) + DroppedIn(b)
  {
    if a == [] {
      assert a + b == b;
    } else {
      assert (a + b)[1..] == a[1..] + b;
      FateDropsAppend(a[1..], b);
    }
  }

  lemma FatesAppend(a: seq<Fate>, b: seq<Fate>)
    ensures MsgsOfFates(a + b) == MsgsOfFates(a) + MsgsOfFates(b)
    ensures DataFor(a + b) == DataFor(a) + DataFor(b)
    ensures DroppedIn(a + b) == DroppedIn(a) + DroppedIn(b)
  {
    hide MsgsOfFates, DataFor, DroppedIn;
    FateMsgsAppend(a, b);
    FateDataAppend(a, b);
    FateDropsAppend(a, b);
  }

  lemma {:induction false} FatesOfCutAre(cut: seq<Buffer>)
    ensures MsgsOfFates(FatesOfCut(cut)) == MsgsOf(cut)
    ensures DataFor(FatesOfCut(cut)) == [] && DroppedIn(FatesOfCut(cut)) == |cut|
  {
    if cut != [] {
      assert FatesOfCut(cut)[1..] == FatesOfCut(cut[1..]);
      FatesOfCutAre(cut[1..]);
    }
  }

  lemma {:induction false} DataSnoc(file: seq<Record>, r: Record)
    ensures DataIn(file + [r]) == DataIn(file) + (if r.Data? then [r] else [])
  {
    if file == [] {
      assert file + [r] == [r] && [r][1..] == [];
    } else {
      assert (file + [r])[1..] == file[1..] + [r] && (file + [r])[0] == file[0];
      DataSnoc(file[1..], r);
      var h, t := if file[0].Data? then [file[0]] else [], if r.Data? then [r] else [];
      assert h + (DataIn(file[1..]) + t) == h + DataIn(file[1..]) + t;
    }
  }

  lemma {:induction false} NoticeSnoc(file: seq<Record>, r: Record)
    ensures Announced(file + [r]) == Announced(file) + (if r.Notice? then r.larger else 0)
  {
    if file == [] {
      assert file + [r] == [r] && [r][1..] == [];
    } else {
      assert (file + [r])[1..] == file[1..] + [r];
      NoticeSnoc(file[1..], r);
    }
  }

  lemma FileSnoc(file: seq<Record>, r: Record)
    ensures DataIn(file + [r]) == DataIn(file) + (if r.Data? then [r] else [])
    ensures Announced(file + [r]) == Announced(file) + (if r.Notice? then r.larger else 0)
  {
    hide DataIn, Announced;
    DataSnoc(file, r);
    NoticeSnoc(file, r);
  }

  lemma FittingSnoc(msgs: seq<string>, msg: string)
    ensures Fitting(msgs + [msg]) == Fitting(msgs) + (if |msg| < SIZE then [msg] else [])
  {
    assert (msgs + [msg])[..|msgs|] == msgs;
  }

  lemma BagSnoc(a: seq<Buffer>, b: Buffer)
    ensures Bag(a + [b]) == Bag(a) + multiset{b.id}
  {
    BagAppend(a, [b]);
    assert [b][1..] == [];
  }

  lemma MsgsOfSnoc(a: seq<Buffer>, b: Buffer)
    ensures MsgsOf(a + [b]) == MsgsOf(a) + b.msgs
  {
    MsgsOfAppend(a, [b]);
    MsgsOfOne(b);
  }

  // ----- append -----

  lemma EmptyIsFlat()
    ensures Flat([]) == ""
  {
  }

  lemma {:induction false} AppendShape(s: State, msg: string)
    requires Shape(s)
    ensures Shape(AppendMsg(s, msg))
  {
    hide Flat;
  }

  lemma {:induction false} AppendOwns(s: State, msg: string)
    requires s.current.Some?
    ensures var s' := AppendMsg(s, msg);
            (s'.created == s.created && Owned(s') == Owned(s))
            || (s'.created == s.created + 1 && Owned(s') == Owned(s) + multiset{s.created})
  {
    hide Avail, Bag, BagOpt, OwnedInBack;
    var s' := AppendMsg(s, msg);
    BagSnoc(s.buffers, s.current.value);
    PutOwns(s.current.value, msg);
    if s.next.Some? { PutOwns(s.next.value, msg); }
    PutOwns(Buffer(s.created, []), msg);
    var front, front' := OwnedInFront(s.current, s.next, s.buffers), OwnedInFront(s'.current, s'.next, s'.buffers);
    assert front' == if s'.created == s.created then front else front + multiset{s.created};
    hide OwnedInFront, AppendMsg;
  }

  lemma PutOwns(b: Buffer, msg: string)
    ensures BagOpt(Some(Put(b, msg))) == BagOpt(Some(b)) == multiset{b.id}
    ensures BagOpt(None) == multiset{}
  {
    hide Avail;
  }

  lemma {:induction false} AppendOwned(s: State, msg: string)
    requires s.current.Some? && NoAlias(Owned(s), s.created)
    ensures var s' := AppendMsg(s, msg); NoAlias(Owned(s'), s'.created)
  {
    hide AppendMsg, Owned;
    AppendOwns(s, msg);
    var owned := Owned(s);
    assert s.created !in owned;
    forall id | id in owned + multiset{s.created}
      ensures (owned + multiset{s.created})[id] == 1 && id < s.created + 1
    {
      if id != s.created { assert id in owned; }
    }
  }

  lemma {:induction false} AppendInFront(s: State, msg: string)
    requires Shape(s)
    ensures var s' := AppendMsg(s, msg);
            InFront(s'.buffers, s'.current) == InFront(s.buffers, s.current) + (if |msg| < SIZE then [msg] else [])
  {
    hide Flat, MsgsOf;
    var s' := AppendMsg(s, msg);
    var b := s.current.value;
    EmptyIsFlat();
    if Avail(b) > |msg| {
      assert MsgsOf(s.buffers) + (b.msgs + [msg]) == MsgsOf(s.buffers) + b.msgs + [msg];
    } else {
      MsgsOfSnoc(s.buffers, b);
    }
  }

  lemma {:induction false} AppendEverything(s: State, msg: string)
    requires Shape(s) && Everything(s) == Fitting(s.appended)
    ensures var s' := AppendMsg(s, msg); Everything(s') == Fitting(s'.appended)
  {
    hide Flat, Fitting, InFront, InBack, Avail;
    var s' := AppendMsg(s, msg);
    FittingSnoc(s.appended, msg);
    AppendInFront(s, msg);
    assert Unwritten(s') == Unwritten(s);
    var more := if |msg| < SIZE then [msg] else [];
    assert InBack(s.fates, Unwritten(s), s.cut) + (InFront(s.buffers, s.current) + more) == Everything(s) + more;
  }

  lemma {:induction false} AppendKeeps(s: State, msg: string)
    requires Inv(s)
    ensures Inv(AppendMsg(s, msg))
  {
    hide Everything, Owned, Shape, Recorded, NoAlias, Fitting, Flat;
    assert s.current.Some? by { ShapeHasCurrent(s); }
    AppendShape(s, msg);
    AppendOwned(s, msg);
    AppendEverything(s, msg);
  }

  /** A buffer is handed over exactly when the message does not fit with a byte to spare; an empty one, never in use before or the spare one, takes its place. */
  lemma HandedOverWhenFull(s: State, msg: string)
    requires Shape(s)
    ensures var b, s' := s.current.value, AppendMsg(s, msg);
            s'.current.Some? &&
            if SIZE - |Flat(b.msgs)| > |msg| then
              s'.buffers == s.buffers && s'.next == s.next && s'.current.value == Buffer(b.id, b.msgs + [msg])
            else
              && s'.buffers == s.buffers + [b] && s'.next == None
              && s'.current.value == Buffer(if s.next.Some? then s.next.value.id else s.created, if |msg| < SIZE then [msg] else [])
  {
    EmptyIsFlat();
    hide Flat;
  }

  lemma ShapeHasCurrent(s: State)
    requires Shape(s)
    ensures s.current.Some?
  {
  }

  // ----- collect -----

  lemma {:induction false} CollectShape(s: State)
    requires Shape(s) && s.pc.Waiting?
    ensures Shape(Collect(s))
  {
  }

  lemma {:induction false} CollectOwned(s: State)
    requires s.current.Some? && s.toWrite == []
    ensures Owned(Collect(s)) == Owned(s)
  {
    BagSnoc(s.buffers, s.current.value);
    hide Bag;
    EmptyBag();
  }

  lemma EmptyBag()
    ensures Bag([]) == multiset{} && MsgsOf([]) == []
  {
  }

  lemma {:induction false} CollectEverything(s: State)
    requires Shape(s) && s.pc.Waiting?
    ensures Everything(Collect(s)) == Everything(s)
  {
    hide MsgsOf, MsgsOfFates;
    EmptyBag();
    MsgsOfSnoc(s.buffers, s.current.value);
    assert Unwritten(s) == [] && Unwritten(Collect(s)) == s.buffers + [s.current.value];
  }

  lemma {:induction false} CollectKeeps(s: State)
    requires Inv(s) && s.pc.Waiting?
    ensures Inv(Collect(s))
  {
    CollectShape(s);
    CollectOwned(s);
    CollectEverything(s);
    hide Everything, Owned, Shape, Recorded, NoAlias, Fitting;
  }

  // ----- trim -----

  lemma {:induction false} TrimEverything(s: State)
    requires s.pc.Collected? && s.cut == []
    ensures Everything(Trim(s)) == Everything(s)
  {
    hide MsgsOfFates, MsgsOf;
    var s' := Trim(s);
    EmptyBag();
    assert Unwritten(s') == s'.toWrite;
    if |s.toWrite| > 25 {
      assert s.toWrite == s.toWrite[..2] + s.toWrite[2..];
      MsgsOfAppend(s.toWrite[..2], s.toWrite[2..]);
    }
  }

  lemma {:induction false} TrimOwned(s: State)
    ensures Owned(Trim(s)) <= Owned(s)
  {
    hide Bag;
    if |s.toWrite| > 25 {
      assert s.toWrite == s.toWrite[..2] + s.toWrite[2..];
      BagAppend(s.toWrite[..2], s.toWrite[2..]);
      assert Owned(s) == Owned(Trim(s)) + Bag(s.toWrite[2..]);
    }
  }

  lemma {:induction false} TrimRecorded(s: State)
    requires Recorded(s.file, s.fates, |s.cut|) && s.cut == []
    ensures var s' := Trim(s); Recorded(s'.file, s'.fates, |s'.cut|)
  {
    FileSnoc(s.file, Notice(|s.toWrite| - 2));
    hide DataIn, DataFor, Announced, DroppedIn;
  }

  lemma NoAliasShrinks(owned: multiset<nat>, owned': multiset<nat>, created: nat)
    requires NoAlias(owned, created) && owned' <= owned
    ensures NoAlias(owned', created)
  {
    forall id | id in owned' ensures owned'[id] == 1 && id < created { assert id in owned; }
  }

  lemma TrimShape(s: State)
    requires Shape(s) && s.pc.Collected?
    ensures s.cut == [] && Shape(Trim(s)) && Trim(s).created == s.created && Trim(s).appended == s.appended
  {
  }

  lemma {:induction false} TrimKeeps(s: State)
    requires Inv(s) && s.pc.Collected?
    ensures Inv(Trim(s))
  {
    hide Everything, Owned, Recorded, NoAlias, Fitting, Shape, Trim;
    TrimShape(s);
    TrimEverything(s);
    TrimOwned(s);
    TrimRecorded(s);
    NoAliasShrinks(Owned(s), Owned(Trim(s)), s.created);
  }

  // ----- write -----

  lemma {:induction false} WriteEverything(s: State)
    requires Enabled(s, DoWrite)
    ensures Everything(WriteNext(s)) == Everything(s)
  {
    hide MsgsOf, MsgsOfFates;
    var s' := WriteNext(s);
    var b := s.toWrite[s.pc.done];
    assert Unwritten(s) == [b] + Unwritten(s');
    MsgsOfAppend([b], Unwritten(s'));
    MsgsOfOne(b);
    FatesSnoc(s.fates, b.msgs);
    var rest := MsgsOf(s.cut) + MsgsOf(s.buffers) + (if s.current.Some? then s.current.value.msgs else []);
    assert MsgsOfFates(s.fates) + (b.msgs + MsgsOf(Unwritten(s'))) == MsgsOfFates(s.fates) + b.msgs + MsgsOf(Unwritten(s'));
  }

  lemma FatesSnoc(fates: seq<Fate>, msgs: seq<string>)
    ensures MsgsOfFates(fates + [Written(msgs)]) == MsgsOfFates(fates) + msgs
    ensures DataFor(fates + [Written(msgs)]) == DataFor(fates) + [Data(Flat(msgs))]
    ensures DroppedIn(fates + [Written(msgs)]) == DroppedIn(fates)
  {
    hide Flat;
    FatesAppend(fates, [Written(msgs)]);
    assert [Written(msgs)][1..] == [];
  }

  lemma {:induction false} WriteRecorded(s: State)
    requires Enabled(s, DoWrite) && Recorded(s.file, s.fates, |s.cut|)
    ensures var s' := WriteNext(s); Recorded(s'.file, s'.fates, |s'.cut|)
  {
    var b := s.toWrite[s.pc.done];
    FatesSnoc(s.fates, b.msgs);
    FileSnoc(s.file, Data(Flat(b.msgs)));
    hide Flat, DataIn, DataFor, Announced, DroppedIn;
  }

  lemma {:induction false} WriteShape(s: State)
    requires Shape(s) && Enabled(s, DoWrite)
    ensures Shape(WriteNext(s))
  {
  }

  lemma {:induction false} WriteKeeps(s: State)
    requires Inv(s) && Enabled(s, DoWrite)
    ensures Inv(WriteNext(s))
  {
    WriteEverything(s);
    WriteRecorded(s);
    WriteShape(s);
    assert Owned(WriteNext(s)) == Owned(s);
    hide Shape, Everything, Owned, Recorded, NoAlias, Fitting, Flat;
  }

  // ----- recycle -----

  lemma {:induction false} RefillBag(spare: Option<Buffer>, bs: seq<Buffer>)
    requires spare.None? ==> bs != []
    ensures var (n, bs') := Refill(spare, bs); BagOpt(n) + Bag(bs') == BagOpt(spare) + Bag(bs)
  {
    hide Bag;
    if spare.None? {
      var last := bs[|bs| - 1];
      assert bs == bs[..|bs| - 1] + [last];
      BagSnoc(bs[..|bs| - 1], last);
    }
  }

  lemma {:induction false} FirstTwoBag(bs: seq<Buffer>)
    ensures Bag(if |bs| > 2 then bs[..2] else bs) <= Bag(bs)
  {
    hide Bag;
    if |bs| > 2 {
      assert bs == bs[..2] + bs[2..];
      BagAppend(bs[..2], bs[2..]);
    }
  }

  lemma TwoRefills(new1: Option<Buffer>, new2: Option<Buffer>, bs: seq<Buffer>)
    requires |bs| >= (if new1.None? then 1 else 0) + (if new2.None? then 1 else 0)
    ensures var (n1, bs1) := Refill(new1, bs); var (n2, _) := Refill(new2, bs1);
            BagOpt(n1) + BagOpt(n2) <= BagOpt(new1) + BagOpt(new2) + Bag(bs)
  {
    hide Bag, BagOpt;
    var (n1, bs1) := Refill(new1, bs);
    var (n2, bs2) := Refill(new2, bs1);
    RefillBag(new1, bs);
    RefillBag(new2, bs1);
    AddUp(BagOpt(n1), Bag(bs1), BagOpt(new1), Bag(bs), BagOpt(n2), Bag(bs2), BagOpt(new2));
  }

  lemma AddUp(n1: multiset<nat>, b1: multiset<nat>, o1: multiset<nat>, b: multiset<nat>,
              n2: multiset<nat>, b2: multiset<nat>, o2: multiset<nat>)
    requires n1 + b1 == o1 + b && n2 + b2 == o2 + b1
    ensures n1 + n2 <= o1 + o2 + b
  {
    forall id: nat ensures (n1 + n2)[id] <= (o1 + o2 + b)[id] {
      assert (n1 + b1)[id] == (o1 + b)[id];
      assert (n2 + b2)[id] == (o2 + b1)[id];
    }
  }

  lemma {:induction false} RecycleOwned(s: State)
    requires CanRecycle(s)
    ensures Owned(Recycle(s)) <= Owned(s)
  {
    hide Bag, BagOpt, Refill;
    var bs := if |s.toWrite| > 2 then s.toWrite[..2] else s.toWrite;
    FirstTwoBag(s.toWrite);
    TwoRefills(s.new1, s.new2, bs);
    EmptyBag();
    var s' := Recycle(s);
    assert OwnedInBack(s'.new1, s'.new2, s'.toWrite) <= OwnedInBack(s.new1, s.new2, s.toWrite);
    hide OwnedInFront, OwnedInBack;
  }

  lemma {:induction false} RecycleEverything(s: State)
    requires Enabled(s, DoRecycle) && CanRecycle(s)
    ensures Everything(Recycle(s)) == Everything(s)
  {
    hide MsgsOf, MsgsOfFates;
    EmptyBag();
    assert Unwritten(s) == [] && Unwritten(Recycle(s)) == [];
    FatesAppend(s.fates, FatesOfCut(s.cut));
    FatesOfCutAre(s.cut);
    hide InFront, FatesOfCut;
  }

  lemma {:induction false} RecycleRecorded(s: State)
    requires CanRecycle(s) && Recorded(s.file, s.fates, |s.cut|)
    ensures var s' := Recycle(s); Recorded(s'.file, s'.fates, |s'.cut|)
  {
    FatesAppend(s.fates, FatesOfCut(s.cut));
    FatesOfCutAre(s.cut);
    hide DataIn, DataFor, Announced, DroppedIn, FatesOfCut, Refill;
  }

  /** Two spares are refilled from what was written, and both are empty. */
  lemma {:induction false} RecycleShape(s: State)
    requires Shape(s) && Enabled(s, DoRecycle)
    ensures CanRecycle(s) && Shape(Recycle(s))
  {
  }

  lemma {:induction false} RecycleKeeps(s: State)
    requires Inv(s) && Enabled(s, DoRecycle)
    ensures Inv(Recycle(s))
  {
    RecycleShape(s);
    RecycleOwned(s);
    RecycleEverything(s);
    RecycleRecorded(s);
    NoAliasShrinks(Owned(s), Owned(Recycle(s)), s.created);
    hide Everything, Owned, Recorded, NoAlias, Fitting, Shape, FatesOfCut;
  }

  // ----- every run -----

  lemma {:induction false} FlagsKeep(s: State, s': State)
    requires Inv(s)
    requires s' == s.(running := false) || (s.pc.Top? && (s' == s.(pc := Waiting) || s' == s.(pc := Exited)))
    ensures Inv(s')
  {
    hide InFront, InBack, OwnedInFront, OwnedInBack, Recorded, NoAlias, Fitting;
    assert Unwritten(s') == Unwritten(s);
  }

  lemma {:induction false} StepKeeps(s: State, ev: Event)
    requires Inv(s) && Enabled(s, ev)
    ensures Inv(Step(s, ev))
  {
    hide Everything, Owned, Recorded, NoAlias, Fitting, Shape, AppendMsg, Collect, Trim, WriteNext, Recycle;
    match ev
    case Append(msg) => AppendKeeps(s, msg);
    case DoTest => FlagsKeep(s, s.(pc := Waiting));
    case DoCollect => CollectKeeps(s);
    case DoTrim => TrimKeeps(s);
    case DoWrite => WriteKeeps(s);
    case DoRecycle => RecycleKeeps(s);
    case Stop => FlagsKeep(s, s.(running := false));
    case DoExit => FlagsKeep(s, s.(pc := Exited));
  }

  lemma InitHolds()
    ensures Inv(Init())
  {
    EmptyBag();
    assert Owned(Init()) == multiset{0, 1, 2, 3} by { hide Bag; }
  }

  lemma {:induction false} EveryStateHolds(ss: seq<State>, evs: seq<Event>, j: nat)
    requires Run(ss, evs) && ss[0] == Init() && j < |ss|
    ensures Inv(ss[j])
  {
    InitHolds();
    forall s, ev, s' | Inv(s) && Next(s, ev, s') ensures Inv(s') { StepKeeps(s, ev); }
    Always(Next, s => Inv(s), ss, evs, 0, j);
  }

  // ----- what it means: the messages -----

  /** The messages that the events append, in their order. */
  function Messages(evs: seq<Event>): seq<string> {
    if evs == [] then []
    else
      var last := evs[|evs| - 1];
      Messages(evs[..|evs| - 1]) + (if last.Append? then [last.msg] else [])
  }

  lemma {:induction false} AppendedAreMessages(ss: seq<State>, evs: seq<Event>, j: nat)
    requires Run(ss, evs) && ss[0] == Init() && j < |ss|
    ensures ss[j].appended == Messages(evs[..j])
  {
    hide Shape, Everything, Owned, NoAlias, Recorded, Fitting, Step;
    if j > 0 {
      AppendedAreMessages(ss, evs, j - 1);
      assert Next(ss[j - 1], evs[j - 1], ss[j]);
      assert evs[..j][..j - 1] == evs[..j - 1];
      OnlyAppendAppends(ss[j - 1], evs[j - 1]);
    }
  }

  lemma OnlyAppendAppends(s: State, ev: Event)
    requires Shape(s) && Enabled(s, ev)
    ensures Step(s, ev).appended == s.appended + (if ev.Append? then [ev.msg] else [])
  {
    hide Flat, FatesOfCut;
  }

  lemma {:induction false} AllFit(msgs: seq<string>)
    requires forall i :: 0 <= i < |msgs| ==> |msgs[i]| < SIZE
    ensures Fitting(msgs) == msgs
  {
    if msgs != [] {
      AllFit(msgs[..|msgs| - 1]);
      assert msgs == msgs[..|msgs| - 1] + [msgs[|msgs| - 1]];
    }
  }

  /**
   Under any interleaving of producers and backend, every message shorter than a buffer is,
   in append order, in exactly one place: in a finished buffer (written or dropped), in one
   the backend has yet to write or has cut, or with the producers.
   */
  lemma {:induction false} EveryMessageIsSomewhere(ss: seq<State>, evs: seq<Event>, j: nat)
    requires Run(ss, evs) && ss[0] == Init() && j < |ss|
    ensures ss[j].current.Some?
    ensures Fitting(Messages(evs[..j])) ==
            MsgsOfFates(ss[j].fates) + MsgsOf(Unwritten(ss[j])) + MsgsOf(ss[j].cut)
            + (MsgsOf(ss[j].buffers) + ss[j].current.value.msgs)
    ensures (forall i :: 0 <= i < j && evs[i].Append? ==> |evs[i].msg| < SIZE) ==>
              Fitting(Messages(evs[..j])) == Messages(evs[..j])
  {
    hide Fitting;
    EveryStateHolds(ss, evs, j);
    AppendedAreMessages(ss, evs, j);
    if forall i :: 0 <= i < j && evs[i].Append? ==> |evs[i].msg| < SIZE {
      ShortMessages(evs[..j]);
      AllFit(Messages(evs[..j]));
    }
  }

  lemma {:induction false} ShortMessages(evs: seq<Event>)
    requires forall i :: 0 <= i < |evs| && evs[i].Append? ==> |evs[i].msg| < SIZE
    ensures forall i :: 0 <= i < |Messages(evs)| ==> |Messages(evs)[i]| < SIZE
  {
    if evs != [] { ShortMessages(evs[..|evs| - 1]); }
  }

  /** A message as long as a buffer or longer is lost, and only such a message. */
  lemma MessageKeptIffShort(s: State, msg: string)
    requires Inv(s)
    ensures Everything(AppendMsg(s, msg)) == Everything(s) + [msg] <==> |msg| < SIZE
  {
    hide Everything, Fitting, AppendMsg;
    assert s.current.Some? by { ShapeHasCurrent(s); }
    AppendEverything(s, msg);
    OnlyAppendAppends(s, Append(msg));
    FittingSnoc(s.appended, msg);
    assert Step(s, Append(msg)) == AppendMsg(s, msg);
    assert |Everything(s) + [msg]| == |Everything(s)| + 1;
  }

  /** The bytes of the data records of the file. */
  function BytesIn(file: seq<Record>): string {
    if file == [] then "" else (if file[0].Data? then file[0].bytes else "") + BytesIn(file[1..])
  }

  predicate HasNotice(file: seq<Record>) {
    exists i :: 0 <= i < |file| && file[i].Notice?
  }

  lemma {:induction false} FlatAppend(a: seq<string>, b: seq<string>)
    ensures Flat(a + b) == Flat(a) + Flat(b)
  {
    if a == [] {
      assert a + b == b;
    } else {
      assert (a + b)[1..] == a[1..] + b;
      FlatAppend(a[1..], b);
    }
  }

  lemma {:induction false} AllWritten(fates: seq<Fate>)
    requires DroppedIn(fates) == 0
    ensures BytesIn(DataFor(fates)) == Flat(MsgsOfFates(fates))
  {
    if fates != [] {
      AllWritten(fates[1..]);
      FlatAppend(fates[0].msgs, MsgsOfFates(fates[1..]));
      assert ([Data(Flat(fates[0].msgs))] + DataFor(fates[1..]))[1..] == DataFor(fates[1..]);
    }
  }

  lemma {:induction false} OnlyDataCounts(file: seq<Record>)
    ensures BytesIn(DataIn(file)) == BytesIn(file)
    ensures !HasNotice(file) ==> Announced(file) == 0
  {
    if file != [] {
      OnlyDataCounts(file[1..]);
      if !HasNotice(file) {
        assert !file[0].Notice?;
        assert !HasNotice(file[1..]);
      }
      if file[0].Data? {
        assert ([file[0]] + DataIn(file[1..]))[1..] == DataIn(file[1..]);
      } else {
        assert DataIn(file) == DataIn(file[1..]);
      }
    }
  }

  /** As long as no notice is in the file, what was written and what is held are all that was appended, in order. */
  lemma {:induction false} NothingDropped(ss: seq<State>, evs: seq<Event>, j: nat) returns (written: seq<string>)
    requires Run(ss, evs) && ss[0] == Init() && j < |ss| && !HasNotice(ss[j].file)
    ensures BytesIn(ss[j].file) == Flat(written)
    ensures ss[j].current.Some?
    ensures Fitting(Messages(evs[..j])) ==
            written + MsgsOf(Unwritten(ss[j])) + (MsgsOf(ss[j].buffers) + ss[j].current.value.msgs)
  {
    EveryStateHolds(ss, evs, j);
    AppendedAreMessages(ss, evs, j);
    NothingDroppedIn(ss[j]);
    written := MsgsOfFates(ss[j].fates);
  }

  lemma {:induction false} NothingDroppedIn(s: State)
    requires Inv(s) && !HasNotice(s.file)
    ensures s.current.Some? && BytesIn(s.file) == Flat(MsgsOfFates(s.fates))
    ensures Fitting(s.appended) == MsgsOfFates(s.fates) + MsgsOf(Unwritten(s)) + (MsgsOf(s.buffers) + s.current.value.msgs)
  {
    hide Fitting, Owned, NoAlias, Recorded, Flat, MsgsOf, MsgsOfFates, BytesIn, HasNotice;
    NoNoticeNoDrop(s.file, s.fates, s.cut);
    EmptyBag();
    assert MsgsOfFates(s.fates) + MsgsOf(Unwritten(s)) + [] == MsgsOfFates(s.fates) + MsgsOf(Unwritten(s));
  }

  lemma NoNoticeNoDrop(file: seq<Record>, fates: seq<Fate>, cut: seq<Buffer>)
    requires Recorded(file, fates, |cut|) && !HasNotice(file)
    ensures cut == [] && BytesIn(file) == Flat(MsgsOfFates(fates))
  {
    hide Flat, MsgsOfFates, BytesIn, HasNotice, DataIn, DataFor, Announced, DroppedIn;
    OnlyDataCounts(file);
    AllWritten(fates);
  }

  // ----- what it means: what `stop` leaves behind -----

  /** The backend's last collection, or -1. */
  function LastCollect(evs: seq<Event>): (c: int)
    ensures -1 <= c < |evs|
    ensures c >= 0 ==> evs[c] == DoCollect
    ensures forall k :: c < k < |evs| ==> evs[k] != DoCollect
  {
    if evs == [] then -1
    else if evs[|evs| - 1] == DoCollect then |evs| - 1
    else LastCollect(evs[..|evs| - 1])
  }

  /** What happened after the last collection. */
  function Late(evs: seq<Event>): seq<Event> { evs[LastCollect(evs) + 1..] }

  lemma {:induction false} StepInFront(s: State, ev: Event)
    requires Inv(s) && Enabled(s, ev)
    ensures var s' := Step(s, ev);
            InFront(s'.buffers, s'.current) ==
            if ev == DoCollect then []
            else InFront(s.buffers, s.current) + (if ev.Append? && |ev.msg| < SIZE then [ev.msg] else [])
  {
    hide Everything, Owned, NoAlias, Recorded, Fitting, Flat;
    match ev
    case Append(msg) => AppendInFront(s, msg);
    case DoCollect => EmptyBag();
    case _ =>
  }

  lemma LateSnoc(evs: seq<Event>, ev: Event)
    ensures Late(evs + [ev]) == if ev == DoCollect then [] else Late(evs) + [ev]
  {
    assert (evs + [ev])[..|evs|] == evs;
  }

  /** The producers hold exactly what was appended after the last collection, in order. */
  lemma {:induction false} ProducersHold(ss: seq<State>, evs: seq<Event>, j: nat)
    requires Run(ss, evs) && ss[0] == Init() && j < |ss|
    ensures InFront(ss[j].buffers, ss[j].current) == Fitting(Messages(Late(evs[..j])))
    decreases j
  {
    hide Inv, Step, Enabled, InFront, Late, Messages, Fitting;
    if j == 0 {
      NothingInFront();
    } else {
      var before, ev := evs[..j - 1], evs[j - 1];
      ProducersHold(ss, evs, j - 1);
      assert Next(ss[j - 1], ev, ss[j]);
      StepInFront(ss[j - 1], ev);
      assert evs[..j] == before + [ev];
      LateSnoc(before, ev);
      if ev == DoCollect { NothingInFront(); } else { MessagesSnoc(Late(before), ev); }
    }
  }

  lemma NothingInFront()
    ensures InFront(Init().buffers, Init().current) == [] && Fitting(Messages([])) == [] && Late([]) == []
  {
    EmptyBag();
  }

  lemma MessagesSnoc(evs: seq<Event>, ev: Event)
    ensures Messages(evs + [ev]) == Messages(evs) + if ev.Append? then [ev.msg] else []
    ensures Fitting(Messages(evs + [ev])) == Fitting(Messages(evs)) + if ev.Append? && |ev.msg| < SIZE then [ev.msg] else []
  {
    assert (evs + [ev])[..|evs|] == evs;
    if ev.Append? { FittingSnoc(Messages(evs), ev.msg); } else { assert Messages(evs + [ev]) == Messages(evs); }
  }

  lemma {:induction false} NoneFits(evs: seq<Event>)
    ensures Fitting(Messages(evs)) == [] <==> forall ev <- evs :: ev.Append? ==> |ev.msg| >= SIZE
  {
    hide Messages, Fitting;
    if evs == [] {
      NothingInFront();
    } else {
      var n := |evs| - 1;
      NoneFits(evs[..n]);
      MessagesSnoc(evs[..n], evs[n]);
      assert evs == evs[..n] + [evs[n]];
    }
  }

  /**
   When the backend has exited, what it neither wrote nor dropped is what was appended after its
   last collection: nothing is left exactly when no message shorter than a buffer was.
   */
  lemma {:induction false} LeftAtExit(ss: seq<State>, evs: seq<Event>, j: nat)
    requires Run(ss, evs) && ss[0] == Init() && j < |ss| && ss[j].pc.Exited?
    ensures Fitting(Messages(evs[..j])) == MsgsOfFates(ss[j].fates) + Fitting(Messages(Late(evs[..j])))
    ensures MsgsOfFates(ss[j].fates) == Fitting(Messages(evs[..j])) <==>
            forall ev <- Late(evs[..j]) :: ev.Append? ==> |ev.msg| >= SIZE
  {
    assert j <= |evs|;
    hide Messages, Fitting, MsgsOfFates, InFront, Late, Run;
    ExitedHolds(ss, evs, j);
    ProducersHold(ss, evs, j);
    NoneFits(Late(evs[..j]));
  }

  lemma {:induction false} ExitedHolds(ss: seq<State>, evs: seq<Event>, j: nat)
    requires Run(ss, evs) && ss[0] == Init() && j < |ss| && ss[j].pc.Exited?
    ensures Fitting(Messages(evs[..j])) == MsgsOfFates(ss[j].fates) + InFront(ss[j].buffers, ss[j].current)
  {
    hide Owned, NoAlias, Recorded, Fitting;
    EveryStateHolds(ss, evs, j);
    AppendedAreMessages(ss, evs, j);
    EmptyBag();
  }

  /** What a stopped logger will leave, if nothing more is appended: nothing if the backend will still collect. */
  function ToBeLeft(s: State): seq<string> {
    if s.pc.Waiting? then [] else InFront(s.buffers, s.current)
  }

  lemma {:induction false} StepKeepsToBeLeft(s: State, ev: Event)
    requires Inv(s) && Enabled(s, ev) && !s.running && !ev.Append?
    ensures !Step(s, ev).running && ToBeLeft(Step(s, ev)) == ToBeLeft(s)
  {
    hide Everything, Owned, NoAlias, Recorded, Fitting, InFront, AppendMsg;
    StepInFront(s, ev);
  }

  lemma {:induction false} ToBeLeftStays(ss: seq<State>, evs: seq<Event>, i: nat, j: nat)
    requires Run(ss, evs) && i <= j < |ss| && !ss[i].running
    requires forall k :: i <= k < j ==> !evs[k].Append?
    ensures !ss[j].running && ToBeLeft(ss[j]) == ToBeLeft(ss[i])
  {
    hide Inv, Step, Enabled, ToBeLeft;
    if i < j {
      ToBeLeftStays(ss, evs, i, j - 1);
      assert Next(ss[j - 1], evs[j - 1], ss[j]);
      StepKeepsToBeLeft(ss[j - 1], evs[j - 1]);
    }
  }

  /**
   From a stopped state without later appends, what the producers hold is left at the exit,
   unless the backend has passed its test and not yet collected: then nothing is.
   */
  lemma {:induction false} LeftByStop(ss: seq<State>, evs: seq<Event>, i: nat, j: nat)
    requires Run(ss, evs) && ss[0] == Init() && i <= j < |ss| && !ss[i].running && ss[j].pc.Exited?
    requires forall k :: i <= k < j ==> !evs[k].Append?
    ensures InFront(ss[j].buffers, ss[j].current) == if ss[i].pc.Waiting? then [] else InFront(ss[i].buffers, ss[i].current)
    ensures MsgsOfFates(ss[j].fates) == Fitting(Messages(evs[..j])) <==>
            ss[i].pc.Waiting? || InFront(ss[i].buffers, ss[i].current) == []
  {
    hide Inv, Step, Enabled, InFront, Messages, Fitting, MsgsOfFates;
    ToBeLeftStays(ss, evs, i, j);
    ExitedHolds(ss, evs, j);
  }

  /** A logged buffer is a `fixed_buffer`: `Put` is its `append`. */
  lemma PutIsAppend(b: Buffer, msg: string)
    ensures Flat(Put(b, msg).msgs) == LogStream.AppendText(Flat(b.msgs), SIZE, msg)
  {
    FlatAppend(b.msgs, [msg]);
    assert Flat([msg]) == msg by { EmptyIsFlat(); assert [msg][1..] == []; }
  }

  lemma OneAppend()
    ensures AppendMsg(Init(), "x") == Init().(current := Some(Buffer(0, ["x"])), appended := ["x"])
  {
    EmptyIsFlat();
    hide Flat;
    assert Avail(Buffer(0, [])) > |"x"|;
    assert [] + ["x"] == ["x"];
  }

  /** The shortest run that leaves one: the backend looks at `running_` before it looks at the buffers. */
  lemma ResidueAfterStop() returns (ss: seq<State>, evs: seq<Event>)
    ensures Run(ss, evs) && ss[0] == Init() && ss[|evs|].pc == Exited
    ensures Messages(evs) == ["x"] && ss[|evs|].file == []
    ensures ss[|evs|].current == Some(Buffer(0, ["x"])) && ss[|evs|].buffers == []
  {
    hide Inv, AppendMsg;
    InitHolds();
    OneAppend();
    var s0 := Init();
    var s1 := Init().(current := Some(Buffer(0, ["x"])), appended := ["x"]);
    StepKeeps(s0, Append("x"));
    var s2 := s1.(running := false);
    StepKeeps(s1, Stop);
    evs := [Append("x"), Stop, DoExit];
    ss := [s0, s1, s2, s2.(pc := Exited)];
    assert Messages(evs) == ["x"] by {
      assert evs[..2][..1][..0] == [];
      assert Messages(evs[..2][..1]) == ["x"];
      assert Messages(evs[..2]) == ["x"];
    }
  }

  // ----- what it means: the buffers -----

  lemma {:induction false} InBag(bs: seq<Buffer>, k: nat)
    requires k < |bs|
    ensures bs[k].id in Bag(bs)
  {
    if k > 0 { InBag(bs[1..], k - 1); }
  }

  /** At every loop top, and until the backend has the lock, both spares are there, empty, and are neither each other nor any buffer the producers use. */
  lemma {:induction false} SparesAtLoopTop(ss: seq<State>, evs: seq<Event>, j: nat)
    requires Run(ss, evs) && ss[0] == Init() && j < |ss| && (ss[j].pc.Top? || ss[j].pc.Waiting?)
    ensures var s := ss[j];
            && s.new1.Some? && s.new2.Some? && s.new1.value.msgs == [] && s.new2.value.msgs == [] && s.toWrite == []
            && s.current.Some? && s.new1.value.id != s.new2.value.id
            && s.current.value.id !in {s.new1.value.id, s.new2.value.id}
            && (s.next.Some? ==> s.next.value.id !in {s.new1.value.id, s.new2.value.id, s.current.value.id})
            && (forall k :: 0 <= k < |s.buffers| ==> s.buffers[k].id !in {s.new1.value.id, s.new2.value.id, s.current.value.id})
  {
    EveryStateHolds(ss, evs, j);
    var s := ss[j];
    hide Everything, Recorded, Fitting, Bag;
    forall k | 0 <= k < |s.buffers| ensures s.buffers[k].id !in {s.new1.value.id, s.new2.value.id, s.current.value.id} {
      InBag(s.buffers, k);
      Twice(s, s.buffers[k].id);
    }
    Twice(s, s.new1.value.id);
    Twice(s, s.new2.value.id);
    Twice(s, s.current.value.id);
  }

  lemma Twice(s: State, id: nat)
    requires NoAlias(Owned(s), s.created)
    ensures BagOpt(s.current)[id] + BagOpt(s.next)[id] + Bag(s.buffers)[id]
            + BagOpt(s.new1)[id] + BagOpt(s.new2)[id] + Bag(s.toWrite)[id] <= 1
  {
    hide Bag, BagOpt;
    assert id in Owned(s) || Owned(s)[id] == 0;
  }
}
