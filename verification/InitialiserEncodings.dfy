/**
 The guard as shipped, whose shared unlock does nothing, against a guard with three separate
 states: step for step, the former does nothing the latter could not do.
 */
module InitialiserEncodings {
  import opened Prelude
  import opened FileLock
  import opened Initialiser
  import opened InitialiserSafety

  /** The kernel lock that a guard with separate states would no longer hold at this point. */
  predicate Leftover(pc: Pc) {
    pc == Convert || pc == Close
  }

  function IdealGuard(e: Encoding, pc: Pc, held: Option<Mode>): int {
    if HoldsShared(pc) then e.rlock
    else if HoldsExclusive(pc) then e.rwlock
    else if pc == Unguard && held.Some? then ToState(e, held.value)
    else e.unlocked
  }

  function IdealThread(e: Encoding, th: Thread, held: Option<Mode>): Thread {
    th.(guard := IdealGuard(e, th.pc, held))
  }

  function IdealHeld(pc: Pc, held: Option<Mode>): Option<Mode> {
    if Leftover(pc) then None else held
  }

  /** The thread and its lock as a guard with encoding `e` would have them: no leftover lock, its own state values. */
  predicate MatchesAt(e: Encoding, s: Sys, i: Sys, t: Tid) {
    && t in s.threads && t in i.threads
    && i.threads[t] == IdealThread(e, s.threads[t], Held(s.locks, t))
    && Held(i.locks, t) == IdealHeld(s.threads[t].pc, Held(s.locks, t))
  }

  /** `i` is the same state with the guard that has encoding `e`. */
  ghost predicate Matches(e: Encoding, s: Sys, i: Sys) {
    && i.threads.Keys == s.threads.Keys
    && i.locks.Keys <= i.threads.Keys
    && i.mutexes == s.mutexes && i.invoked == s.invoked && i.dir == s.dir
    && forall t :: t in s.threads ==> MatchesAt(e, s, i, t)
  }

  /** Leftover locks only keep others waiting: what the kernel grants with them it also grants without. */
  lemma FewerLocks(e: Encoding, s: Sys, i: Sys, t: Tid, mode: Mode)
    requires Matches(e, s, i) && CanLock(s.locks, t, mode)
    ensures CanLock(i.locks, t, mode)
  {
    hide IdealThread;
    forall u | u in i.locks
      ensures u in s.locks && s.locks[u] == i.locks[u]
    {
      assert MatchesAt(e, s, i, u);
    }
  }

  lemma MatchesGives(e: Encoding, s: Sys, i: Sys, t: Tid)
    requires Matches(e, s, i) && t in s.threads
    ensures t in i.threads && i.threads[t].pc == s.threads[t].pc && i.mutexes == s.mutexes
  {
    assert MatchesAt(e, s, i, t);
    hide IdealGuard, IdealHeld, Held;
  }

  lemma MatchingIsEnabled(c: Config, e: Encoding, s: Sys, i: Sys, ev: Event)
    requires Matches(e, s, i) && Enabled(s, ev)
    ensures Enabled(i, ev)
  {
    hide Matches, CanLock;
    if !ev.Die? {
      MatchesGives(e, s, i, ev.t);
      if CanLock(s.locks, ev.t, Shared) {
        FewerLocks(e, s, i, ev.t, Shared);
      }
      if CanLock(s.locks, ev.t, Exclusive) {
        FewerLocks(e, s, i, ev.t, Exclusive);
      }
    }
  }

  lemma InvGives(c: Config, s: Sys, t: Tid)
    requires Inv(c, s) && t in s.threads
    ensures LockOk(c, s, t) && s.locks.Keys <= s.threads.Keys
  {
    hide LockOk, StageOk, MutexOk, LocksExclude, DirectoryOk;
  }

  /** The thread that moves, and its lock, on both sides. */
  lemma MoverAgrees(c: Config, e: Encoding, th: Thread, held: Option<Mode>, invoked: bool, present: bool, ok: bool)
    requires Coherent(c, th, held) && Distinct(e)
    ensures var c' := c.(enc := e);
      var th' := NextThread(c, th, invoked, present, ok);
      var held' := NextHeld(c, th, held);
      var ideal := IdealThread(e, th, held);
      && (!AtRest(th.pc) ==> NextThread(c', ideal, invoked, present, ok) == IdealThread(e, th', held'))
      && (!AtRest(th.pc) ==> NextHeld(c', ideal, IdealHeld(th.pc, held)) == IdealHeld(th'.pc, held'))
  {
  }

  lemma MoverMatches(c: Config, e: Encoding, s: Sys, i: Sys, t: Tid, answer: Answer)
    requires Inv(c, s) && Distinct(e) && MatchesAt(e, s, i, t) && i.invoked == s.invoked && i.dir == s.dir
    requires Enabled(s, Advance(t, answer)) && Enabled(i, Advance(t, answer))
    ensures MatchesAt(e, Step(c, s, Advance(t, answer)), Step(c.(enc := e), i, Advance(t, answer)), t)
  {
    hide Inv, NextThread, NextLocks, NextDirectory, NextHeld, Coherent, IdealThread, Held, IdealHeld, Distinct, Step, Enabled;
    AdvanceIs(c, s, t, answer);
    AdvanceIs(c.(enc := e), i, t, answer);
    InvGives(c, s, t);
    MoverAgrees(c, e, s.threads[t], Held(s.locks, t), t.process in s.invoked, s.dir.present, answer != Failed);
    NextLocksHolds(c, s.locks, t, s.threads[t]);
    NextLocksHolds(c.(enc := e), i.locks, t, i.threads[t]);
  }

  /** Threads that a step leaves alone still match. */
  lemma UntouchedMatch(e: Encoding, s: Sys, i: Sys, s': Sys, i': Sys, u: Tid)
    requires MatchesAt(e, s, i, u) && u in s'.threads && u in i'.threads
    requires s'.threads[u] == s.threads[u] && Held(s'.locks, u) == Held(s.locks, u)
    requires i'.threads[u] == i.threads[u] && Held(i'.locks, u) == Held(i.locks, u)
    ensures MatchesAt(e, s', i', u)
  {
  }

  lemma NextLocksKeys(c: Config, locks: Locks<Tid>, t: Tid, th: Thread)
    ensures NextLocks(c, locks, t, th).Keys <= locks.Keys + {t}
  {
  }

  /** What is not about threads and locks goes the same way on both sides. */
  lemma RestMatches(c: Config, e: Encoding, s: Sys, i: Sys, t: Tid, answer: Answer)
    requires i.threads.Keys == s.threads.Keys && i.locks.Keys <= i.threads.Keys
    requires i.mutexes == s.mutexes && i.invoked == s.invoked && i.dir == s.dir
    requires Enabled(s, Advance(t, answer)) && Enabled(i, Advance(t, answer)) && i.threads[t].pc == s.threads[t].pc
    ensures var s', i' := Step(c, s, Advance(t, answer)), Step(c.(enc := e), i, Advance(t, answer));
      && i'.threads.Keys == s'.threads.Keys == s.threads.Keys && i'.locks.Keys <= i'.threads.Keys
      && i'.mutexes == s'.mutexes && i'.invoked == s'.invoked && i'.dir == s'.dir
  {
    hide NextThread, NextLocks, NextDirectory, CanLock;
    NextLocksKeys(c.(enc := e), i.locks, t, i.threads[t]);
  }

  lemma AdvanceSimulates(c: Config, e: Encoding, s: Sys, i: Sys, t: Tid, answer: Answer)
    requires Inv(c, s) && Distinct(e) && Matches(e, s, i)
    requires Enabled(s, Advance(t, answer)) && Enabled(i, Advance(t, answer))
    ensures Matches(e, Step(c, s, Advance(t, answer)), Step(c.(enc := e), i, Advance(t, answer)))
  {
    var ev := Advance(t, answer);
    var s', i' := Step(c, s, ev), Step(c.(enc := e), i, ev);
    AdvanceIs(c, s, t, answer);
    assert MatchesAt(e, s, i, t) && i.threads[t].pc == s.threads[t].pc;
    hide Inv, Held, Enabled, Step, MatchesAt, NextThread, NextLocks;
    RestMatches(c, e, s, i, t, answer);
    MoverMatches(c, e, s, i, t, answer);
    forall u | u in s.threads && u != t
      ensures MatchesAt(e, s', i', u)
    {
      OthersAreUntouched(c, s, ev, u);
      OthersAreUntouched(c.(enc := e), i, ev, u);
      UntouchedMatch(e, s, i, s', i', u);
    }
  }

  lemma AtRestHoldsNothing(c: Config, s: Sys, t: Tid)
    requires t in s.threads && LockOk(c, s, t) && AtRest(s.threads[t].pc)
    ensures Held(s.locks, t) == None
  {
  }

  lemma CallerMatches(c: Config, e: Encoding, s: Sys, i: Sys, t: Tid)
    requires Inv(c, s) && MatchesAt(e, s, i, t) && Enabled(s, Call(t)) && Enabled(i, Call(t))
    ensures MatchesAt(e, Step(c, s, Call(t)), Step(c.(enc := e), i, Call(t)), t)
  {
    hide Inv, Enabled, LockOk, Step;
    CallIs(c, s, t);
    CallIs(c.(enc := e), i, t);
    InvGives(c, s, t);
    AtRestHoldsNothing(c, s, t);
  }

  lemma CallKeepsMatches(e: Encoding, s: Sys, i: Sys, t: Tid, th: Thread, ith: Thread)
    requires Matches(e, s, i) && t in s.threads
    requires MatchesAt(e, s.(threads := s.threads[t := th]), i.(threads := i.threads[t := ith]), t)
    ensures Matches(e, s.(threads := s.threads[t := th]), i.(threads := i.threads[t := ith]))
  {
    hide MatchesAt, Held;
    forall u | u in s.threads && u != t
      ensures MatchesAt(e, s.(threads := s.threads[t := th]), i.(threads := i.threads[t := ith]), u)
    {
      UntouchedMatch(e, s, i, s.(threads := s.threads[t := th]), i.(threads := i.threads[t := ith]), u);
    }
  }

  lemma CallSimulates(c: Config, e: Encoding, s: Sys, i: Sys, t: Tid)
    requires Inv(c, s) && Matches(e, s, i) && Enabled(s, Call(t)) && Enabled(i, Call(t))
    ensures Matches(e, Step(c, s, Call(t)), Step(c.(enc := e), i, Call(t)))
  {
    CallIs(c, s, t);
    CallIs(c.(enc := e), i, t);
    assert MatchesAt(e, s, i, t);
    hide Inv, Enabled, Step, MatchesAt, Matches;
    CallerMatches(c, e, s, i, t);
    CallKeepsMatches(e, s, i, t, Thread(FastLoad, c.enc.unlocked, false), Thread(FastLoad, e.unlocked, false));
  }

  lemma MatchingHalfDone(e: Encoding, s: Sys, i: Sys, p: nat)
    requires Matches(e, s, i)
    ensures LeavesHalfDone(i, p) <==> LeavesHalfDone(s, p)
  {
    assert forall t :: t in s.threads ==> MatchesAt(e, s, i, t);
  }

  lemma KillingSimulates(e: Encoding, s: Sys, i: Sys, p: nat)
    requires Matches(e, s, i)
    ensures Matches(e, Killed(s, p), Killed(i, p))
  {
    var s', i' := Killed(s, p), Killed(i, p);
    MatchingHalfDone(e, s, i, p);
    assert i'.threads.Keys == s'.threads.Keys && i'.locks.Keys <= i'.threads.Keys;
    assert i'.mutexes == s'.mutexes && i'.invoked == s'.invoked && i'.dir == s'.dir;
    hide Killed, MatchesAt, Held;
    forall u | u in s'.threads
      ensures MatchesAt(e, s', i', u)
    {
      SurvivorsAreUntouched(s, p, u);
      SurvivorsAreUntouched(i, p, u);
      UntouchedMatch(e, s, i, s', i', u);
    }
  }

  /** Every step of the guard with encoding `c.enc` is the same step of the guard with three states. */
  lemma StepSimulates(c: Config, e: Encoding, s: Sys, i: Sys, ev: Event)
    requires Inv(c, s) && Enabled(s, ev) && Distinct(e) && Matches(e, s, i)
    ensures Enabled(i, ev)
    ensures Matches(e, Step(c, s, ev), Step(c.(enc := e), i, ev))
  {
    MatchingIsEnabled(c, e, s, i, ev);
    match ev
    case Advance(t, answer) => AdvanceSimulates(c, e, s, i, t, answer);
    case Call(t) => CallSimulates(c, e, s, i, t);
    case Die(p) => KillingSimulates(e, s, i, p);
  }

  /**
   Every run under any encoding, the shipped one included, is a run under three separate states:
   the same threads are at the same points and the directory, the flags and the mutexes are the
   same, at the end and hence all along.
   */
  lemma {:induction false} RunSimulates(c: Config, e: Encoding, s: Sys, i: Sys, es: seq<Event>)
    requires Inv(c, s) && IsRun(c, s, es) && Distinct(e) && Matches(e, s, i)
    ensures IsRun(c.(enc := e), i, es)
    ensures Matches(e, Run(c, s, es), Run(c.(enc := e), i, es))
    decreases |es|
  {
    hide Inv, Step, Matches;
    if es != [] {
      StepSimulates(c, e, s, i, es[0]);
      StepKeepsInv(c, s, es[0]);
      RunSimulates(c, e, Step(c, s, es[0]), Step(c.(enc := e), i, es[0]), es[1..]);
    }
  }

  /** From the start: the shipped guard's runs are runs of the intended guard, observably the same. */
  lemma ShippedGuardIsCorrect(c: Config, e: Encoding, s: Sys, i: Sys, es: seq<Event>)
    requires c.enc == SHIPPED && Distinct(e)
    requires Init(c, s) && Init(c.(enc := e), i) && i.threads.Keys == s.threads.Keys && i.dir == s.dir
    requires IsRun(c, s, es)
    ensures var c' := c.(enc := e);
      && IsRun(c', i, es)
      && Run(c', i, es).dir == Run(c, s, es).dir
      && Run(c', i, es).invoked == Run(c, s, es).invoked
      && Run(c', i, es).threads.Keys == Run(c, s, es).threads.Keys
      && forall t :: t in Run(c, s, es).threads ==>
           Run(c', i, es).threads[t].pc == Run(c, s, es).threads[t].pc
  {
    InitInv(c, s);
    assert Matches(e, s, i);
    RunSimulates(c, e, s, i, es);
    hide Init, Inv, IsRun, Run, Held, IdealHeld, IdealGuard;
    forall t | t in Run(c, s, es).threads
      ensures Run(c.(enc := e), i, es).threads[t].pc == Run(c, s, es).threads[t].pc
    {
      assert MatchesAt(e, Run(c, s, es), Run(c.(enc := e), i, es), t);
    }
  }
}
