/**
 The asynchronous logger (src/base/async_logging.cpp): any number of producers and one
 backend exchange owned buffers under a mutex.  Each lock-protected section, and each
 piece of backend work between them, is one step.
 */
module AsyncLogSpec {
  import opened Prelude
  import opened Traces
  import LogStream

  /** A `unique_ptr` to a `fixed_buffer`: which allocation it is, and the messages in it. */
  datatype Buffer = Buffer(id: nat, msgs: seq<string>)

  /** What the output file is given: the notice of a drop, or the bytes of one buffer. */
  datatype Record = Notice(larger: int) | Data(bytes: string)

  /** What became of the messages of one buffer. */
  datatype Fate = Written(msgs: seq<string>) | Dropped(msgs: seq<string>)

  /** Where the backend is: at its test of `running_`, past it and until it has the lock, past each later stage of a round, or gone. */
  datatype Pc = Top | Waiting | Collected | Writing(done: nat) | Exited

  datatype State = State(
    current: Option<Buffer>,   // current_buffer_
    next: Option<Buffer>,      // next_buffer_
    buffers: seq<Buffer>,      // buffers_
    new1: Option<Buffer>,      // newBuffer1
    new2: Option<Buffer>,      // newBuffer2
    toWrite: seq<Buffer>,      // buffersToWrite
    running: bool,             // running_
    pc: Pc,
    created: nat,            // buffers allocated so far
    file: seq<Record>,         // output
    appended: seq<string>,     // every message passed to append, in lock order
    fates: seq<Fate>,          // finished buffers, in the order of their messages
    cut: seq<Buffer>           // what this round erased, until the round ends
  )

  const SIZE: nat := LogStream.LARGE_BUFFER

  function Flat(msgs: seq<string>): string {
    if msgs == [] then "" else msgs[0] + Flat(msgs[1..])
  }

  /** `start`: both threads' buffers are allocated, the backend is about to loop. */
  function Init(): State {
    State(Some(Buffer(0, [])), Some(Buffer(1, [])), [], Some(Buffer(2, [])), Some(Buffer(3, [])), [], true, Top, 4, [], [], [], [])
  }

  // ----- the steps -----

  function Avail(b: Buffer): int { SIZE - |Flat(b.msgs)| }

  /** `fixed_buffer::append`, which ignores what does not fit. */
  function Put(b: Buffer, msg: string): Buffer {
    if Avail(b) > |msg| then b.(msgs := b.msgs + [msg]) else b
  }

  function AppendMsg(s: State, msg: string): State
    requires s.current.Some?
  {
    var s0 := s.(appended := s.appended + [msg]);
    if Avail(s.current.value) > |msg| then
      s0.(current := Some(Put(s.current.value, msg)))
    else if s.next.Some? then
      s0.(buffers := s.buffers + [s.current.value], current := Some(Put(s.next.value, msg)), next := None)
    else
      s0.(buffers := s.buffers + [s.current.value], current := Some(Put(Buffer(s.created, []), msg)), created := s.created + 1)
  }

  /** The backend's critical section, after its wait if there is one: `running_` is not looked at again. */
  function Collect(s: State): State
    requires s.current.Some?
  {
    s.(toWrite := s.buffers + [s.current.value], buffers := [], current := s.new1, new1 := None,
       next := if s.next.None? then s.new2 else s.next, new2 := if s.next.None? then None else s.new2,
       pc := Collected)
  }

  function Trim(s: State): State {
    var s0 := s.(pc := Writing(0));
    if |s.toWrite| > 25 then
      s0.(file := s.file + [Notice(|s.toWrite| - 2)], toWrite := s.toWrite[..2], cut := s.toWrite[2..])
    else s0
  }

  function WriteNext(s: State): State
    requires s.pc.Writing? && s.pc.done < |s.toWrite|
  {
    var msgs := s.toWrite[s.pc.done].msgs;
    s.(file := s.file + [Data(Flat(msgs))], fates := s.fates + [Written(msgs)], pc := Writing(s.pc.done + 1))
  }

  /** Takes a spare from the back of the written buffers, reset, if it is missing. */
  function Refill(spare: Option<Buffer>, bs: seq<Buffer>): (Option<Buffer>, seq<Buffer>)
    requires spare.None? ==> bs != []
  {
    if spare.Some? then (spare, bs) else (Some(bs[|bs| - 1].(msgs := [])), bs[..|bs| - 1])
  }

  function FatesOfCut(cut: seq<Buffer>): seq<Fate> {
    seq(|cut|, i requires 0 <= i < |cut| => Dropped(cut[i].msgs))
  }

  predicate CanRecycle(s: State) {
    var bs := if |s.toWrite| > 2 then s.toWrite[..2] else s.toWrite;
    |bs| >= (if s.new1.None? then 1 else 0) + (if s.new2.None? then 1 else 0)
  }

  function Recycle(s: State): State
    requires CanRecycle(s)
  {
    var bs := if |s.toWrite| > 2 then s.toWrite[..2] else s.toWrite;
    var (n1, bs1) := Refill(s.new1, bs);
    var (n2, _) := Refill(s.new2, bs1);
    s.(new1 := n1, new2 := n2, toWrite := [], fates := s.fates + FatesOfCut(s.cut), cut := [], pc := Top)
  }

  // ----- the invariant -----

  predicate Spare(b: Option<Buffer>) { b.Some? && b.value.msgs == [] }

  /** What the assertions at the loop top, and every move of a buffer, rely on. */
  predicate Shape(s: State) {
    && s.current.Some?
    && (s.next.None? ==> s.buffers != [])
    && (s.next.Some? ==> Spare(s.next))
    && (s.new2.Some? ==> Spare(s.new2))
    && match s.pc
       case Top | Waiting => Spare(s.new1) && Spare(s.new2) && s.toWrite == [] && s.cut == []
       case Exited => s.toWrite == [] && s.cut == []
       case Collected => s.new1.None? && |s.toWrite| >= (if s.new2.None? then 2 else 1) && s.cut == []
       case Writing(done) => s.new1.None? && |s.toWrite| >= (if s.new2.None? then 2 else 1) && done <= |s.toWrite| <= 25
  }

  function Bag(bs: seq<Buffer>): multiset<nat> {
    if bs == [] then multiset{} else multiset{bs[0].id} + Bag(bs[1..])
  }

  function BagOpt(b: Option<Buffer>): multiset<nat> {
    if b.Some? then multiset{b.value.id} else multiset{}
  }

  function OwnedInFront(current: Option<Buffer>, next: Option<Buffer>, buffers: seq<Buffer>): multiset<nat> {
    BagOpt(current) + BagOpt(next) + Bag(buffers)
  }

  function OwnedInBack(new1: Option<Buffer>, new2: Option<Buffer>, toWrite: seq<Buffer>): multiset<nat> {
    BagOpt(new1) + BagOpt(new2) + Bag(toWrite)
  }

  /** Every buffer that some variable owns. */
  function Owned(s: State): multiset<nat> {
    OwnedInFront(s.current, s.next, s.buffers) + OwnedInBack(s.new1, s.new2, s.toWrite)
  }

  /** No allocation is owned twice. */
  ghost predicate NoAlias(owned: multiset<nat>, created: nat) {
    forall id :: id in owned ==> owned[id] == 1 && id < created
  }

  /** The messages that fit in a buffer at all. */
  function Fitting(msgs: seq<string>): seq<string> {
    if msgs == [] then []
    else Fitting(msgs[..|msgs| - 1]) + (if |msgs[|msgs| - 1]| < SIZE then [msgs[|msgs| - 1]] else [])
  }

  function MsgsOf(bs: seq<Buffer>): seq<string> {
    if bs == [] then [] else bs[0].msgs + MsgsOf(bs[1..])
  }

  function MsgsOfFates(fs: seq<Fate>): seq<string> {
    if fs == [] then [] else fs[0].msgs + MsgsOfFates(fs[1..])
  }

  /** The buffers of the round that are still to be written. */
  function Unwritten(s: State): seq<Buffer> {
    if s.pc.Writing? && s.pc.done <= |s.toWrite| then s.toWrite[s.pc.done..]
    else s.toWrite
  }

  /** The messages that the backend has finished or holds. */
  function InBack(fates: seq<Fate>, unwritten: seq<Buffer>, cut: seq<Buffer>): seq<string> {
    MsgsOfFates(fates) + MsgsOf(unwritten) + MsgsOf(cut)
  }

  /** The messages that wait in front. */
  function InFront(buffers: seq<Buffer>, current: Option<Buffer>): seq<string> {
    MsgsOf(buffers) + (if current.Some? then current.value.msgs else [])
  }

  /** Every message, in order: finished, then in the backend's hands, then with the producers. */
  function Everything(s: State): seq<string> {
    InBack(s.fates, Unwritten(s), s.cut) + InFront(s.buffers, s.current)
  }

  /** What the file must hold besides notices. */
  function DataFor(fs: seq<Fate>): seq<Record> {
    if fs == [] then []
    else if fs[0].Written? then [Data(Flat(fs[0].msgs))] + DataFor(fs[1..])
    else DataFor(fs[1..])
  }

  function DataIn(file: seq<Record>): seq<Record> {
    if file == [] then [] else (if file[0].Data? then [file[0]] else []) + DataIn(file[1..])
  }

  /** How many buffers the notices say were dropped. */
  function Announced(file: seq<Record>): int {
    if file == [] then 0 else (if file[0].Notice? then file[0].larger else 0) + Announced(file[1..])
  }

  function DroppedIn(fs: seq<Fate>): nat {
    if fs == [] then 0 else (if fs[0].Dropped? then 1 else 0) + DroppedIn(fs[1..])
  }

  /** The file holds the written buffers, in order, and its notices count the dropped ones. */
  predicate Recorded(file: seq<Record>, fates: seq<Fate>, cut: nat) {
    DataIn(file) == DataFor(fates) && Announced(file) == DroppedIn(fates) + cut
  }

  ghost predicate Inv(s: State) {
    && Shape(s) && NoAlias(Owned(s), s.created)
    && Everything(s) == Fitting(s.appended)
    && Recorded(s.file, s.fates, |s.cut|)
  }

  // ----- runs -----

  datatype Event =
    | Append(msg: string)   // any producer, at any time
    | Stop
    | DoTest | DoCollect | DoTrim | DoWrite | DoRecycle | DoExit

  predicate Enabled(s: State, ev: Event) {
    match ev
    case Append(_) => true
    case Stop => true
    case DoTest => s.pc.Top? && s.running
    case DoCollect => s.pc.Waiting?
    case DoTrim => s.pc.Collected?
    case DoWrite => s.pc.Writing? && s.pc.done < |s.toWrite|
    case DoRecycle => s.pc.Writing? && s.pc.done == |s.toWrite|
    case DoExit => s.pc.Top? && !s.running
  }

  function Step(s: State, ev: Event): State
    requires Shape(s) && Enabled(s, ev)
  {
    match ev
    case Append(msg) => AppendMsg(s, msg)
    case Stop => s.(running := false)
    case DoTest => s.(pc := Waiting)
    case DoCollect => Collect(s)
    case DoTrim => Trim(s)
    case DoWrite => WriteNext(s)
    case DoRecycle => Recycle(s)
    case DoExit => s.(pc := Exited)
  }

  ghost predicate Next(s: State, ev: Event, s': State) {
    Inv(s) && Enabled(s, ev) && s' == Step(s, ev)
  }

  ghost predicate Run(ss: seq<State>, evs: seq<Event>) { Trace(Next, ss, evs) }
}
