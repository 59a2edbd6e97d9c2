/** Condition variables: which threads wait on one, and what a notification or a spurious wakeup does to them. */
module Conditions {
  import opened Prelude

  /** A thread that was notified, or that stirred without a notification, has still to take the lock again. */
  datatype Cond = Cond(asleep: set<nat>, notified: set<nat>, stirred: set<nat>)

  const NOBODY: Cond := Cond({}, {}, {})

  function Threads(c: Cond): set<nat> { c.asleep + c.notified + c.stirred }

  predicate Awake(c: Cond, t: nat) { t in c.notified || t in c.stirred }

  predicate Apart(c: Cond) { c.asleep !! c.notified && c.asleep !! c.stirred && c.notified !! c.stirred }

  function Sleep(c: Cond, t: nat): Cond { c.(asleep := c.asleep + {t}) }

  /** `notify_one` wakes one of the waiting threads, any of them, when there is one. */
  predicate MayNotify(c: Cond, who: Option<nat>) {
    if who.None? then c.asleep == {} else who.value in c.asleep
  }

  function NotifyOne(c: Cond, who: Option<nat>): Cond {
    if who.None? then c else c.(asleep := c.asleep - {who.value}, notified := c.notified + {who.value})
  }

  function NotifyAll(c: Cond): Cond { c.(asleep := {}, notified := c.notified + c.asleep) }

  function Stir(c: Cond, t: nat): Cond { c.(asleep := c.asleep - {t}, stirred := c.stirred + {t}) }

  /** The thread has the lock again, and is back at the test of its wait loop. */
  function Resume(c: Cond, t: nat): Cond { c.(notified := c.notified - {t}, stirred := c.stirred - {t}) }

  /** While some thread sleeps, as many threads are on their way as there are things to be had. */
  predicate Served(c: Cond, things: int) { c.asleep != {} ==> things <= |c.notified| }

  lemma NotifyLeaves(c: Cond, who: Option<nat>)
    requires Apart(c) && MayNotify(c, who)
    ensures Apart(NotifyOne(c, who)) && Threads(NotifyOne(c, who)) == Threads(c)
  {
    forall u: nat | true ensures u in Threads(NotifyOne(c, who)) <==> u in Threads(c) {}
  }

  lemma NotifyServes(c: Cond, things: int, who: Option<nat>)
    requires Apart(c) && Served(c, things) && MayNotify(c, who)
    ensures Apart(NotifyOne(c, who)) && Threads(NotifyOne(c, who)) == Threads(c)
    ensures Served(NotifyOne(c, who), things + 1)
  {
    NotifyLeaves(c, who);
    if who.Some? { assert |c.notified + {who.value}| == |c.notified| + 1; }
  }

  lemma ResumeLeaves(c: Cond, t: nat)
    requires Apart(c) && Awake(c, t)
    ensures Apart(Resume(c, t)) && t in Threads(c) && Threads(Resume(c, t)) == Threads(c) - {t}
  {
    forall u: nat | true ensures u in Threads(Resume(c, t)) <==> u in Threads(c) - {t} {}
  }

  lemma ResumeServes(c: Cond, things: int, t: nat)
    requires Apart(c) && Served(c, things) && Awake(c, t)
    ensures Apart(Resume(c, t)) && t in Threads(c) && Threads(Resume(c, t)) == Threads(c) - {t}
    ensures Served(Resume(c, t), things - 1)
  {
    ResumeLeaves(c, t);
    hide Apart, Threads;
    if t in c.notified {
      assert c.notified == (c.notified - {t}) + {t};
    } else {
      assert c.notified == c.notified - {t};
    }
  }

  lemma SleepServes(c: Cond, t: nat)
    requires Apart(c) && t !in Threads(c)
    ensures Apart(Sleep(c, t)) && Threads(Sleep(c, t)) == Threads(c) + {t}
    ensures Served(Sleep(c, t), 0) && t in Sleep(c, t).asleep && !Awake(Sleep(c, t), t)
  {
  }

  lemma StirServes(c: Cond, things: int, t: nat)
    requires Apart(c) && Served(c, things) && t in c.asleep
    ensures Apart(Stir(c, t)) && Threads(Stir(c, t)) == Threads(c) && Served(Stir(c, t), things) && Awake(Stir(c, t), t)
  {
    forall u: nat | true ensures u in Threads(Stir(c, t)) <==> u in Threads(c) {}
  }

  lemma NotifyAllKeeps(c: Cond)
    requires Apart(c)
    ensures Apart(NotifyAll(c)) && Threads(NotifyAll(c)) == Threads(c)
  {
    forall u: nat | true ensures u in Threads(NotifyAll(c)) <==> u in Threads(c) {}
  }

  /** To sleep, stir and resume is to have done nothing. */
  lemma SleepStirResume(c: Cond, t: nat)
    requires t !in Threads(c)
    ensures Awake(Stir(Sleep(c, t), t), t) && Resume(Stir(Sleep(c, t), t), t) == c
  {
    assert c.asleep + {t} - {t} == c.asleep && c.stirred + {t} - {t} == c.stirred && c.notified - {t} == c.notified;
  }

  /** So it is to sleep, be notified and resume. */
  lemma SleepNotifyResume(c: Cond, t: nat)
    requires t !in Threads(c)
    ensures MayNotify(Sleep(c, t), Some(t))
    ensures Awake(NotifyOne(Sleep(c, t), Some(t)), t) && Resume(NotifyOne(Sleep(c, t), Some(t)), t) == c
  {
    assert c.asleep + {t} - {t} == c.asleep && c.notified + {t} - {t} == c.notified && c.stirred - {t} == c.stirred;
  }

  /** Which of the sleeping threads `notify_one` wakes. */
  ghost predicate Chooses(pick: set<nat> -> nat) { forall a: set<nat> :: a != {} ==> pick(a) in a }

  function Chosen(c: Cond, pick: set<nat> -> nat): Option<nat> {
    if c.asleep == {} then None else Some(pick(c.asleep))
  }
}
