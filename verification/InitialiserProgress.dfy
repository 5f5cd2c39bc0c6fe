/** The initialiser neither deadlocks nor runs forever. */
module InitialiserProgress {
  import opened FileLock
  import opened Initialiser
  import opened InitialiserSafety

  /** Steps a call may still take from a program point. */
  function Rank(pc: Pc): nat {
    match pc
    case FastLoad => 17
    case WantMutex => 16
    case SlowLoad => 15
    case OpenFile => 14
    case WantShared => 13
    case Check1 => 12
    case Unlock => 11
    case Convert => 10
    case WantExclusive => 9
    case Check2 => 8
    case Write1 => 7
    case Mkdir => 6
    case Write2 => 5
    case Unguard => 4
    case Close => 3
    case Store => 2
    case UnlockMutex => 1
    case _ => 0
  }

  ghost function TotalRank(threads: map<Tid, Thread>): nat {
    if threads == map[] then 0
    else
      var t :| t in threads;
      Rank(threads[t].pc) + TotalRank(threads - {t})
  }

  /** The total does not depend on the order of summation. */
  lemma {:induction false} TotalRankSplits(threads: map<Tid, Thread>, t: Tid)
    requires t in threads
    ensures TotalRank(threads) == Rank(threads[t].pc) + TotalRank(threads - {t})
    decreases |threads|
  {
    var u :| u in threads && TotalRank(threads) == Rank(threads[u].pc) + TotalRank(threads - {u});
    if u != t {
      TotalRankSplits(threads - {u}, t);
      TotalRankSplits(threads - {t}, u);
      assert threads - {u} - {t} == threads - {t} - {u};
    }
  }

  lemma AdvanceDecreases(c: Config, s: Sys, t: Tid, answer: Answer)
    requires Enabled(s, Advance(t, answer))
    ensures TotalRank(Step(c, s, Advance(t, answer)).threads) < TotalRank(s.threads)
  {
    var s' := Step(c, s, Advance(t, answer));
    assert Rank(s'.threads[t].pc) < Rank(s.threads[t].pc);
    hide NextThread, NextLocks, NextDirectory, Rank;
    TotalRankSplits(s.threads, t);
    TotalRankSplits(s'.threads, t);
    assert s'.threads - {t} == s.threads - {t};
  }

  /** Without new calls, a run is no longer than the steps its threads have left. */
  lemma {:induction false} RunsAreBounded(c: Config, s: Sys, es: seq<Event>)
    requires IsRun(c, s, es) && forall i :: 0 <= i < |es| ==> es[i].Advance?
    ensures |es| + TotalRank(Run(c, s, es).threads) <= TotalRank(s.threads)
    decreases |es|
  {
    if es != [] {
      AdvanceDecreases(c, s, es[0].t, es[0].answer);
      RunsAreBounded(c, Step(c, s, es[0]), es[1..]);
    }
  }

  /** Whoever holds a file lock is at a point where it never waits. */
  lemma LockHoldersCanMove(c: Config, s: Sys, u: Tid)
    requires Inv(c, s) && u in s.locks
    ensures Enabled(s, Advance(u, Accepted))
  {
    assert LockOk(c, s, u);
  }

  /**
   As long as any call is unfinished, some thread can take a step: waiting for a mutex leads to
   its owner, waiting for a file lock to somebody who holds one and waits for nothing.
   */
  lemma NoDeadlock(c: Config, s: Sys, t: Tid)
    requires Inv(c, s) && t in s.threads && !AtRest(s.threads[t].pc)
    ensures exists u :: Enabled(s, Advance(u, Accepted))
  {
    if Enabled(s, Advance(t, Accepted)) {
    } else if s.threads[t].pc == WantMutex {
      var u := s.mutexes[t.process];
      assert MutexOk(s, u);
      if !Enabled(s, Advance(u, Accepted)) {
        FileLockWaitersCanBeServed(c, s, u);
      }
    } else {
      FileLockWaitersCanBeServed(c, s, t);
    }
  }

  lemma FileLockWaitersCanBeServed(c: Config, s: Sys, t: Tid)
    requires Inv(c, s) && t in s.threads && !Enabled(s, Advance(t, Accepted))
    requires s.threads[t].pc == WantShared || s.threads[t].pc == WantExclusive
    ensures exists u :: Enabled(s, Advance(u, Accepted))
  {
    var u :| u in s.locks && u != t;
    LockHoldersCanMove(c, s, u);
  }

  /** So every run from the start that is not continued by new calls ends with all calls finished. */
  lemma StuckMeansFinished(c: Config, s: Sys, es: seq<Event>)
    requires Init(c, s) && IsRun(c, s, es)
    requires forall u :: !Enabled(Run(c, s, es), Advance(u, Accepted))
    ensures forall t :: t in Run(c, s, es).threads ==> AtRest(Run(c, s, es).threads[t].pc)
  {
    InitInv(c, s);
    RunKeepsInv(c, s, es);
    forall t | t in Run(c, s, es).threads
      ensures AtRest(Run(c, s, es).threads[t].pc)
    {
      if !AtRest(Run(c, s, es).threads[t].pc) {
        NoDeadlock(c, Run(c, s, es), t);
      }
    }
  }
}
