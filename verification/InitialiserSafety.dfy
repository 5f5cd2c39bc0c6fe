/** What every reachable state of the initialiser satisfies, whatever the encoding of the guard's states. */
module InitialiserSafety {
  import opened Prelude
  import opened FileLock
  import opened Initialiser

  predicate HoldsMutex(pc: Pc) {
    !AtRest(pc) && pc != FastLoad && pc != WantMutex
  }

  /** Between taking and storing: the action is under way, or has just ended. */
  predicate InAction(pc: Pc) {
    HoldsMutex(pc) && pc != SlowLoad && pc != UnlockMutex
  }

  predicate HoldsShared(pc: Pc) {
    pc == Check1 || pc == Unlock
  }

  predicate HoldsExclusive(pc: Pc) {
    pc == Check2 || pc == Write1 || pc == Mkdir || pc == Write2
  }

  /** Where a call ends up once it found or made the directory. */
  predicate PastChecks(pc: Pc) {
    pc == Unguard || pc == Close || pc == Store || pc == UnlockMutex || pc == Returned
  }

  /** Nobody is going to write into the directory any more. */
  predicate Settled(c: Config, d: Directory) {
    d.present && (c.controls ==> d.write2 || d.missed)
  }

  predicate MutexOk(s: Sys, t: Tid)
    requires t in s.threads
  {
    HoldsMutex(s.threads[t].pc) <==> t.process in s.mutexes && s.mutexes[t.process] == t
  }

  /** The kernel lock of a thread's open file description. */
  function Held(locks: Locks<Tid>, t: Tid): Option<Mode> {
    if t in locks then Some(locks[t]) else None
  }

  /** The lock of the thread that moves, afterwards. */
  function NextHeld(c: Config, th: Thread, held: Option<Mode>): Option<Mode> {
    match th.pc
    case WantShared => Some(Shared)
    case WantExclusive => Some(Exclusive)
    case Unlock => if th.guard == c.enc.unlocked then held else None
    case Unguard => if th.guard == c.enc.unlocked then held else None
    case Convert => None
    case Close => None
    case _ => held
  }

  lemma NextLocksHolds(c: Config, locks: Locks<Tid>, t: Tid, th: Thread)
    ensures Held(NextLocks(c, locks, t, th), t) == NextHeld(c, th, Held(locks, t))
    ensures forall u :: u != t ==> Held(NextLocks(c, locks, t, th), u) == Held(locks, u)
  {
  }

  /** How a thread's program point, its guard and the kernel lock it holds belong together. */
  predicate Coherent(c: Config, th: Thread, held: Option<Mode>) {
    match th.pc
    case Check1 => held == Some(Shared) && th.guard == c.enc.rlock
    case Unlock => held == Some(Shared) && th.guard == c.enc.rlock
    case Check2 => held == Some(Exclusive) && th.guard == c.enc.rwlock
    case Write1 => held == Some(Exclusive) && th.guard == c.enc.rwlock
    case Mkdir => held == Some(Exclusive) && th.guard == c.enc.rwlock
    case Write2 => held == Some(Exclusive) && th.guard == c.enc.rwlock
    case Unguard => held.Some? && th.guard == ToState(c.enc, held.value)
    case Convert => th.guard == c.enc.unlocked && (held.Some? ==> held == Some(Shared) && c.enc.rlock == c.enc.unlocked)
    case Close => th.guard == c.enc.unlocked && (held.Some? ==> ToState(c.enc, held.value) == c.enc.unlocked)
    case _ => held == None && th.guard == c.enc.unlocked
  }

  predicate LockOk(c: Config, s: Sys, t: Tid)
    requires t in s.threads
  {
    Coherent(c, s.threads[t], Held(s.locks, t))
  }

  /** How far the directory is, seen from a thread's program point; `invoked` is its process's flag. */
  predicate Stage(c: Config, th: Thread, d: Directory, invoked: bool) {
    && (th.pc == Write1 ==> c.controls && !d.present)
    && (th.pc == Mkdir ==> !d.present)
    && (th.pc == Write2 ==> c.controls && d.present && !d.write2 && !d.missed)
    && (th.failing ==> th.pc == Unguard || th.pc == Close || th.pc == UnlockMutex || th.pc == Threw)
    && (th.pc == Threw ==> th.failing)
    && (!th.failing && PastChecks(th.pc) ==> Settled(c, d))
    && (InAction(th.pc) ==> !invoked)
    && (th.pc == Returned || (th.pc == UnlockMutex && !th.failing) ==> invoked)
  }

  predicate StageOk(c: Config, s: Sys, t: Tid)
    requires t in s.threads
  {
    Stage(c, s.threads[t], s.dir, t.process in s.invoked)
  }

  predicate LocksExclude(s: Sys) {
    forall t, u :: t in s.locks && u in s.locks && s.locks[t] == Exclusive ==> u == t
  }

  ghost predicate DirectoryOk(c: Config, s: Sys) {
    && s.dir.mkdirs <= 1
    && (!s.dir.present ==> s.dir.mkdirs == 0 && !s.dir.write2 && !s.dir.missed && s.invoked == {})
    && (s.dir.missed ==> s.dir.present && !s.dir.write2 && c.controls)
    && (s.invoked != {} ==> Settled(c, s.dir))
    // The key: a directory that is there but not settled is one that a thread is just setting up.
    && (s.dir.present && !Settled(c, s.dir) ==> exists t :: t in s.threads && s.threads[t].pc == Write2)
  }

  ghost predicate Inv(c: Config, s: Sys) {
    && s.locks.Keys <= s.threads.Keys
    && (forall p :: p in s.mutexes ==> s.mutexes[p] in s.threads && s.mutexes[p].process == p)
    && (forall t :: t in s.threads ==> MutexOk(s, t))
    && (forall t :: t in s.threads ==> LockOk(c, s, t))
    && (forall t :: t in s.threads ==> StageOk(c, s, t))
    && LocksExclude(s)
    && DirectoryOk(c, s)
  }

  lemma InitInv(c: Config, s: Sys)
    requires Init(c, s)
    ensures Inv(c, s)
  {
  }

  // One step: the thread that moves, and the others

  /** A step changes one thread, and nobody else's lock or mutex. */
  lemma OthersAreUntouched(c: Config, s: Sys, e: Event, u: Tid)
    requires !e.Die? && Enabled(s, e) && u in s.threads && u != e.t
    ensures var s' := Step(c, s, e);
      && s'.threads.Keys == s.threads.Keys
      && s'.threads[u] == s.threads[u]
      && Held(s'.locks, u) == Held(s.locks, u)
  {
  }

  lemma AdvanceIs(c: Config, s: Sys, t: Tid, answer: Answer)
    requires Enabled(s, Advance(t, answer))
    ensures t in s.threads && !AtRest(s.threads[t].pc)
    ensures var s' := Step(c, s, Advance(t, answer));
      && s'.threads == s.threads[t := NextThread(c, s.threads[t], t.process in s.invoked, s.dir.present, answer != Failed)]
      && s'.locks == NextLocks(c, s.locks, t, s.threads[t])
  {
    hide NextThread, NextLocks, NextDirectory, CanLock;
  }

  lemma CallIs(c: Config, s: Sys, t: Tid)
    requires Enabled(s, Call(t))
    ensures t in s.threads && AtRest(s.threads[t].pc)
    ensures Step(c, s, Call(t)) == s.(threads := s.threads[t := Thread(FastLoad, c.enc.unlocked, false)])
  {
  }

  /** Only the thread that holds a process's mutex can give it back, and only to take it when it is free. */
  lemma MutexesAreHandedOver(c: Config, s: Sys, e: Event)
    requires !e.Die? && Enabled(s, e) && MutexOk(s, e.t)
    requires forall p :: p in s.mutexes ==> s.mutexes[p] in s.threads && s.mutexes[p].process == p
    ensures var s' := Step(c, s, e);
      && (forall p :: p in s'.mutexes ==> s'.mutexes[p] in s'.threads && s'.mutexes[p].process == p)
      && (forall p :: p in s.mutexes && s.mutexes[p] != e.t ==> p in s'.mutexes && s'.mutexes[p] == s.mutexes[p])
      && (forall p :: p in s'.mutexes && s'.mutexes[p] != e.t ==> p in s.mutexes && s'.mutexes[p] == s.mutexes[p])
      && e.t in s'.threads && MutexOk(s', e.t)
  {
  }

  lemma StepKeepsMutexes(c: Config, s: Sys, e: Event)
    requires Inv(c, s) && !e.Die? && Enabled(s, e)
    ensures var s' := Step(c, s, e);
      && s'.threads.Keys == s.threads.Keys
      && (forall p :: p in s'.mutexes ==> s'.mutexes[p] in s'.threads && s'.mutexes[p].process == p)
      && (forall t :: t in s'.threads ==> MutexOk(s', t))
  {
    hide LockOk, StageOk, LocksExclude, DirectoryOk, Step;
    MutexesAreHandedOver(c, s, e);
    forall u | u in s.threads && u != e.t
      ensures u in Step(c, s, e).threads && MutexOk(Step(c, s, e), u)
    {
      OthersAreUntouched(c, s, e, u);
    }
    KeysAreKept(c, s, e);
  }

  lemma KeysAreKept(c: Config, s: Sys, e: Event)
    requires !e.Die? && Enabled(s, e)
    ensures Step(c, s, e).threads.Keys == s.threads.Keys
  {
  }

  lemma NextCoherent(c: Config, th: Thread, held: Option<Mode>, invoked: bool, present: bool, ok: bool)
    requires Coherent(c, th, held) && !AtRest(th.pc)
    ensures Coherent(c, NextThread(c, th, invoked, present, ok), NextHeld(c, th, held))
  {
  }

  lemma MoverCoherent(c: Config, s: Sys, e: Event)
    requires !e.Die? && Enabled(s, e) && LockOk(c, s, e.t)
    ensures e.t in Step(c, s, e).threads && LockOk(c, Step(c, s, e), e.t)
  {
    if e.Advance? {
      hide NextThread, NextLocks, NextDirectory, NextHeld, Coherent, Held, CanLock;
      NextCoherent(c, s.threads[e.t], Held(s.locks, e.t), e.t.process in s.invoked, s.dir.present, e.answer != Failed);
      NextLocksHolds(c, s.locks, e.t, s.threads[e.t]);
    }
  }

  /** A step takes a lock only if the kernel can grant it. */
  lemma MoverLockOk(c: Config, s: Sys, e: Event)
    requires !e.Die? && Enabled(s, e) && LockOk(c, s, e.t)
    ensures var s' := Step(c, s, e);
      && e.t in s'.threads && LockOk(c, s', e.t)
      && s'.locks.Keys <= s.locks.Keys + {e.t}
      && (e.t in s'.locks && s'.locks[e.t] == Exclusive ==>
            (e.t in s.locks && s.locks[e.t] == Exclusive) || CanLock(s.locks, e.t, Exclusive))
      && (e.t in s'.locks && e.t !in s.locks ==> CanLock(s.locks, e.t, s'.locks[e.t]))
  {
    MoverCoherent(c, s, e);
    hide LockOk, NextThread, NextDirectory, CanLock;
  }

  lemma StepKeepsLocks(c: Config, s: Sys, e: Event)
    requires Inv(c, s) && !e.Die? && Enabled(s, e)
    ensures var s' := Step(c, s, e);
      && s'.locks.Keys <= s'.threads.Keys
      && (forall t :: t in s'.threads ==> LockOk(c, s', t))
      && LocksExclude(s')
  {
    hide MutexOk, StageOk, DirectoryOk, Step, Coherent, Held, LocksExclude;
    var s' := Step(c, s, e);
    KeysAreKept(c, s, e);
    MoverLockOk(c, s, e);
    forall u | u in s.threads && u != e.t
      ensures LockOk(c, s', u) && Held(s'.locks, u) == Held(s.locks, u)
    {
      OthersAreUntouched(c, s, e, u);
      assert LockOk(c, s, u);
    }
    ExclusionIsKept(s, s', e.t);
  }

  lemma ExclusionIsKept(s: Sys, s': Sys, t: Tid)
    requires LocksExclude(s) && s.locks.Keys <= s.threads.Keys && s'.locks.Keys <= s.threads.Keys
    requires forall u :: u in s.threads && u != t ==> Held(s'.locks, u) == Held(s.locks, u)
    requires t in s'.locks && s'.locks[t] == Exclusive ==>
               (t in s.locks && s.locks[t] == Exclusive) || CanLock(s.locks, t, Exclusive)
    requires t in s'.locks && t !in s.locks ==> CanLock(s.locks, t, s'.locks[t])
    ensures LocksExclude(s')
  {
    forall u, v | u in s'.locks && v in s'.locks && s'.locks[u] == Exclusive
      ensures v == u
    {
      assert u != t ==> Held(s'.locks, u) == Held(s.locks, u);
      assert v != t ==> Held(s'.locks, v) == Held(s.locks, v);
    }
  }

  /** Only a thread with the exclusive lock changes the directory, and it moves on one stage. */
  lemma DirectoryChanges(c: Config, s: Sys, e: Event)
    requires !e.Die? && Enabled(s, e) && DirectoryOk(c, s) && StageOk(c, s, e.t)
    ensures var s' := Step(c, s, e);
      && (s.dir.present ==> s'.dir.present) && (Settled(c, s.dir) ==> Settled(c, s'.dir))
      && s.invoked <= s'.invoked <= s.invoked + {e.t.process}
      && (s'.invoked != s.invoked ==> e.Advance? && s.threads[e.t].pc == Store)
      && (!HoldsExclusive(s.threads[e.t].pc) ==>
            s'.dir == s.dir)
  {
  }

  /** `check()` under any lock cannot see a directory that another thread is still setting up. */
  lemma CheckedIsSettled(c: Config, s: Sys, t: Tid)
    requires Inv(c, s) && t in s.threads && s.dir.present
    requires HoldsShared(s.threads[t].pc) || s.threads[t].pc == Check2
    ensures Settled(c, s.dir)
  {
    forall u | u in s.threads
      ensures s.threads[u].pc != Write2
    {
      LockersAgree(c, s, t, u);
    }
    hide MutexOk, StageOk, LockOk, LocksExclude;
  }

  /** While one thread looks at the directory under a lock no other one has the exclusive lock. */
  lemma LockersAgree(c: Config, s: Sys, t: Tid, u: Tid)
    requires Inv(c, s) && t in s.threads && u in s.threads
    requires HoldsShared(s.threads[t].pc) || s.threads[t].pc == Check2
    ensures HoldsExclusive(s.threads[u].pc) ==> u == t
  {
    hide MutexOk, StageOk, DirectoryOk;
    HeldBy(c, s, t);
    HeldBy(c, s, u);
    hide LockOk;
  }

  lemma HeldBy(c: Config, s: Sys, t: Tid)
    requires Inv(c, s) && t in s.threads
    ensures HoldsShared(s.threads[t].pc) ==> Held(s.locks, t) == Some(Shared)
    ensures HoldsExclusive(s.threads[t].pc) ==> Held(s.locks, t) == Some(Exclusive)
  {
    hide MutexOk, StageOk, DirectoryOk, LocksExclude;
    assert LockOk(c, s, t);
  }

  lemma NextStage(c: Config, th: Thread, d: Directory, invoked: bool, answer: Answer)
    requires Stage(c, th, d, invoked) && !AtRest(th.pc)
    requires d.present && (HoldsShared(th.pc) || th.pc == Check2) ==> Settled(c, d)
    requires invoked ==> Settled(c, d)
    requires !d.present ==> !d.write2 && !d.missed
    ensures Stage(c, NextThread(c, th, invoked, d.present, answer != Failed), NextDirectory(d, th.pc, answer), invoked || th.pc == Store)
  {
  }

  lemma MoverStageOk(c: Config, s: Sys, e: Event)
    requires !e.Die? && Enabled(s, e) && StageOk(c, s, e.t) && DirectoryOk(c, s)
    requires s.dir.present && (HoldsShared(s.threads[e.t].pc) || s.threads[e.t].pc == Check2) ==> Settled(c, s.dir)
    ensures e.t in Step(c, s, e).threads && StageOk(c, Step(c, s, e), e.t)
  {
    if e.Advance? {
      hide NextThread, NextDirectory, NextLocks, Stage;
      NextStage(c, s.threads[e.t], s.dir, e.t.process in s.invoked, e.answer);
    }
  }

  lemma StepKeepsDirectory(c: Config, s: Sys, e: Event)
    requires Inv(c, s) && !e.Die? && Enabled(s, e)
    ensures DirectoryOk(c, Step(c, s, e))
  {
    hide MutexOk, LocksExclude;
    var s' := Step(c, s, e);
    if s'.dir.present && !Settled(c, s'.dir) {
      DirectoryChanges(c, s, e);
      if s.dir.present {
        var u :| u in s.threads && s.threads[u].pc == Write2;
        if u != e.t {
          OthersAreUntouched(c, s, e, u);
        }
      } else {
        assert s'.threads[e.t].pc == Write2;
      }
    }
  }

  /** A thread that holds the exclusive lock is the only one. */
  lemma ExclusiveIsAlone(c: Config, s: Sys, t: Tid, u: Tid)
    requires Inv(c, s) && t in s.threads && u in s.threads
    requires HoldsExclusive(s.threads[t].pc) && HoldsExclusive(s.threads[u].pc)
    ensures u == t
  {
    hide MutexOk, StageOk, DirectoryOk, LockOk;
    HeldBy(c, s, t);
    HeldBy(c, s, u);
  }

  lemma OtherStageOk(c: Config, s: Sys, e: Event, u: Tid)
    requires Inv(c, s) && !e.Die? && Enabled(s, e) && u in s.threads && u != e.t
    ensures u in Step(c, s, e).threads && StageOk(c, Step(c, s, e), u)
  {
    OthersAreUntouched(c, s, e, u);
    DirectoryChanges(c, s, e);
    if HoldsExclusive(s.threads[e.t].pc) && HoldsExclusive(s.threads[u].pc) {
      ExclusiveIsAlone(c, s, e.t, u);
    }
    assert MutexOk(s, u) && MutexOk(s, e.t);
    hide Inv, Step, LockOk, LocksExclude, DirectoryOk;
  }

  lemma StepKeepsStages(c: Config, s: Sys, e: Event)
    requires Inv(c, s) && !e.Die? && Enabled(s, e)
    ensures var s' := Step(c, s, e);
      s'.threads.Keys == s.threads.Keys && forall t :: t in s'.threads ==> StageOk(c, s', t)
  {
    hide MutexOk, LockOk, LocksExclude, DirectoryOk, Step, StageOk;
    KeysAreKept(c, s, e);
    if s.dir.present && (HoldsShared(s.threads[e.t].pc) || s.threads[e.t].pc == Check2) {
      CheckedIsSettled(c, s, e.t);
    }
    MoverStageOk(c, s, e);
    forall u | u in s.threads && u != e.t
      ensures StageOk(c, Step(c, s, e), u)
    {
      OtherStageOk(c, s, e, u);
    }
  }

  // A process is killed

  lemma SurvivorsAreUntouched(s: Sys, p: nat, u: Tid)
    requires u in Killed(s, p).threads
    ensures u in s.threads && u.process != p
    ensures Killed(s, p).threads[u] == s.threads[u]
    ensures Held(Killed(s, p).locks, u) == Held(s.locks, u)
    ensures (u.process in Killed(s, p).invoked <==> u.process in s.invoked)
    ensures (u.process in Killed(s, p).mutexes <==> u.process in s.mutexes)
    ensures u.process in s.mutexes ==> Killed(s, p).mutexes[u.process] == s.mutexes[u.process]
  {
  }

  lemma KilledStages(c: Config, s: Sys, p: nat, u: Tid)
    requires Inv(c, s) && u in Killed(s, p).threads
    ensures StageOk(c, Killed(s, p), u)
  {
    SurvivorsAreUntouched(s, p, u);
    assert StageOk(c, s, u);
    assert LeavesHalfDone(s, p) ==> s.threads[u].pc != Write2 && Settled(c, s.dir.(missed := true)) by {
      if LeavesHalfDone(s, p) {
        var t :| t in s.threads && t.process == p && s.threads[t].pc == Write2;
        assert StageOk(c, s, t);
        if s.threads[u].pc == Write2 {
          ExclusiveIsAlone(c, s, t, u);
        }
      }
    }
    hide Inv;
  }

  lemma KilledDirectory(c: Config, s: Sys, p: nat)
    requires Inv(c, s)
    ensures DirectoryOk(c, Killed(s, p))
  {
    var s' := Killed(s, p);
    if LeavesHalfDone(s, p) {
      var t :| t in s.threads && t.process == p && s.threads[t].pc == Write2;
      assert StageOk(c, s, t);
    } else if s.dir.present && !Settled(c, s.dir) {
      var t :| t in s.threads && s.threads[t].pc == Write2;
      assert t in s'.threads;
    }
  }

  /** Killing a process keeps the invariant: what it was about to write is recorded as missed. */
  lemma KilledKeepsInv(c: Config, s: Sys, p: nat)
    requires Inv(c, s)
    ensures Inv(c, Killed(s, p))
  {
    var s' := Killed(s, p);
    KilledDirectory(c, s, p);
    KilledShape(s, p);
    hide Killed, DirectoryOk, StageOk, Held, Coherent, LeavesHalfDone;
    forall u | u in s'.threads
      ensures MutexOk(s', u) && LockOk(c, s', u) && StageOk(c, s', u)
    {
      SurvivorsAreUntouched(s, p, u);
      assert MutexOk(s, u) && LockOk(c, s, u);
      KilledStages(c, s, p, u);
    }
  }

  lemma KilledShape(s: Sys, p: nat)
    ensures var s' := Killed(s, p);
      && (forall u :: u in s'.threads <==> u in s.threads && u.process != p)
      && (forall u :: u in s'.locks <==> u in s.locks && u.process != p)
      && (forall u :: u in s'.locks ==> s'.locks[u] == s.locks[u])
      && (forall q :: q in s'.mutexes <==> q in s.mutexes && q != p)
      && (forall q :: q in s'.mutexes ==> s'.mutexes[q] == s.mutexes[q])
  {
    hide LeavesHalfDone;
  }

  /** Every step keeps the invariant, however file operations end and whoever is killed. */
  lemma StepKeepsInv(c: Config, s: Sys, e: Event)
    requires Inv(c, s) && Enabled(s, e)
    ensures Inv(c, Step(c, s, e))
  {
    if e.Die? {
      KilledKeepsInv(c, s, e.process);
    } else {
      MoveKeepsInv(c, s, e);
    }
  }

  lemma MoveKeepsInv(c: Config, s: Sys, e: Event)
    requires Inv(c, s) && !e.Die? && Enabled(s, e)
    ensures Inv(c, Step(c, s, e))
  {
    hide MutexOk, LockOk, StageOk, LocksExclude, DirectoryOk, Step;
    StepKeepsMutexes(c, s, e);
    StepKeepsLocks(c, s, e);
    StepKeepsDirectory(c, s, e);
    StepKeepsStages(c, s, e);
  }

  lemma {:induction false} RunKeepsInv(c: Config, s: Sys, es: seq<Event>)
    requires Inv(c, s) && IsRun(c, s, es)
    ensures Inv(c, Run(c, s, es))
    decreases |es|
  {
    hide Inv, Step;
    if es != [] {
      StepKeepsInv(c, s, es[0]);
      RunKeepsInv(c, Step(c, s, es[0]), es[1..]);
    }
  }
}
