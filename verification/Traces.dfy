/** Runs of a step relation, for the components that are modelled as state machines. */
module Traces {

  /** `ss[0]`, `evs[0]`, `ss[1]`, `evs[1]`, ...: each event leads from one state to the next. */
  ghost predicate Trace<S(!new), E(!new)>(next: (S, E, S) -> bool, ss: seq<S>, evs: seq<E>) {
    && |ss| == |evs| + 1
    && forall i :: 0 <= i < |evs| ==> next(ss[i], evs[i], ss[i + 1])
  }

  ghost predicate Inductive<S(!new), E(!new)>(next: (S, E, S) -> bool, p: S -> bool) {
    forall s, e, s' :: p(s) && next(s, e, s') ==> p(s')
  }

  /** What each step keeps holds in every later state. */
  lemma {:induction false} Always<S(!new), E(!new)>(next: (S, E, S) -> bool, p: S -> bool, ss: seq<S>, evs: seq<E>, from: nat, to: nat)
    requires Trace(next, ss, evs) && Inductive(next, p)
    requires from <= to < |ss| && p(ss[from])
    ensures p(ss[to])
    decreases |ss| - from
  {
    if from < to {
      assert next(ss[from], evs[from], ss[from + 1]);
      Always(next, p, ss, evs, from + 1, to);
    }
  }

  lemma Joined<S(!new), E(!new)>(next: (S, E, S) -> bool, ss: seq<S>, evs: seq<E>, ss': seq<S>, evs': seq<E>)
    requires Trace(next, ss, evs) && Trace(next, ss', evs') && ss[|evs|] == ss'[0]
    ensures Trace(next, ss + ss'[1..], evs + evs')
    ensures (ss + ss'[1..])[|evs| + |evs'|] == ss'[|evs'|]
  {
    var all, es := ss + ss'[1..], evs + evs';
    assert forall i :: |evs| <= i < |all| ==> all[i] == ss'[i - |evs|];
    forall i | 0 <= i < |es| ensures next(all[i], es[i], all[i + 1]) {
      if i < |evs| {
        assert next(ss[i], evs[i], ss[i + 1]);
      } else {
        assert next(ss'[i - |evs|], evs'[i - |evs|], ss'[i - |evs| + 1]);
      }
    }
  }

  lemma Concat<S(!new), E(!new)>(next: (S, E, S) -> bool, ss1: seq<S>, evs1: seq<E>, ss2: seq<S>, evs2: seq<E>)
    returns (ss: seq<S>, evs: seq<E>)
    requires Trace(next, ss1, evs1) && Trace(next, ss2, evs2) && ss1[|evs1|] == ss2[0]
    ensures Trace(next, ss, evs) && ss == ss1 + ss2[1..] && evs == evs1 + evs2
    ensures ss[0] == ss1[0] && ss[|evs|] == ss2[|evs2|]
  {
    Joined(next, ss1, evs1, ss2, evs2);
    ss, evs := ss1 + ss2[1..], evs1 + evs2;
  }

  /** One step, added at the end of a run. */
  lemma Extend<S(!new), E(!new)>(next: (S, E, S) -> bool, ss1: seq<S>, evs1: seq<E>, ev: E, s': S) returns (ss: seq<S>, evs: seq<E>)
    requires Trace(next, ss1, evs1) && next(ss1[|evs1|], ev, s')
    ensures Trace(next, ss, evs) && ss == ss1 + [s'] && evs == evs1 + [ev]
    ensures ss[0] == ss1[0] && ss[|evs|] == s'
  {
    Joined(next, ss1, evs1, [ss1[|evs1|], s'], [ev]);
    assert [ss1[|evs1|], s'][1..] == [s'];
    ss, evs := ss1 + [s'], evs1 + [ev];
  }

  // ----- the shape of a run -----

  /** The events of one kind, in their order. */
  function Only<E>(keep: E -> bool, evs: seq<E>): seq<E> {
    if evs == [] then [] else Only(keep, evs[..|evs| - 1]) + (if keep(evs[|evs| - 1]) then [evs[|evs| - 1]] else [])
  }

  function Times<E>(ev: E, n: nat): seq<E> { seq(n, _ => ev) }

  lemma {:induction false} OnlyConcat<E>(keep: E -> bool, a: seq<E>, b: seq<E>)
    ensures Only(keep, a + b) == Only(keep, a) + Only(keep, b)
  {
    if b == [] {
      assert a + b == a;
    } else {
      assert (a + b)[..|a + b| - 1] == a + b[..|b| - 1];
      OnlyConcat(keep, a, b[..|b| - 1]);
    }
  }

  lemma {:induction false} OnlyNone<E>(keep: E -> bool, evs: seq<E>)
    requires forall ev <- evs :: !keep(ev)
    ensures Only(keep, evs) == []
  {
    if evs != [] { OnlyNone(keep, evs[..|evs| - 1]); }
  }

  lemma {:induction false} OnlyAll<E>(keep: E -> bool, evs: seq<E>)
    requires forall ev <- evs :: keep(ev)
    ensures Only(keep, evs) == evs
  {
    if evs != [] { OnlyAll(keep, evs[..|evs| - 1]); assert evs == evs[..|evs| - 1] + [evs[|evs| - 1]]; }
  }

  lemma OnlyOne<E>(keep: E -> bool, ev: E)
    ensures Only(keep, [ev]) == if keep(ev) then [ev] else []
  {
    assert [ev][..0] == [];
  }

  lemma OneMoreTime<E>(ev: E, n: nat)
    ensures [ev] + Times(ev, n) == Times(ev, n + 1) == Times(ev, n) + [ev]
    ensures Times(ev, 0) == []
  {
  }

  /** One event, others that do not count, and `n` more of it that do. */
  lemma OneThen<E>(keep: E -> bool, ev: E, others: seq<E>, rest: seq<E>, n: nat)
    requires keep(ev) && Only(keep, others) == [] && Only(keep, rest) == Times(ev, n)
    ensures Only(keep, [ev] + others + rest) == Times(ev, n + 1)
  {
    OnlyOne(keep, ev);
    OneMoreTime(ev, n);
    hide Only, Times;
    OnlyConcat(keep, [ev] + others, rest);
    OnlyConcat(keep, [ev], others);
  }

  /** The event from its `k`-th to before its `n`-th occurrence, each with what comes after it. */
  function Interleaved<E>(ev: E, during: nat -> seq<E>, k: nat, n: nat): seq<E>
    requires k <= n
    decreases n - k
  {
    if k == n then [] else [ev] + during(k) + Interleaved(ev, during, k + 1, n)
  }

  lemma {:induction false} KeptIsIn<E>(keep: E -> bool, evs: seq<E>, i: nat)
    requires i < |evs| && keep(evs[i])
    ensures evs[i] in Only(keep, evs)
  {
    if i < |evs| - 1 { KeptIsIn(keep, evs[..|evs| - 1], i); }
  }
}
