/** What callers of the initialiser can rely on, over all runs of all threads of all processes. */
module InitialiserTheorems {
  import opened Prelude
  import opened FileLock
  import opened Initialiser
  import opened InitialiserSafety
  import opened InitialiserProgress

  /** The kernel takes what some thread writes to the control file of the given step. */
  predicate SomeWriteTaken(c: Config, s: Sys, es: seq<Event>, pc: Pc)
    requires IsRun(c, s, es)
    decreases |es|
  {
    es != [] &&
    ((es[0].Advance? && es[0].answer == Accepted && s.threads[es[0].t].pc == pc)
     || SomeWriteTaken(c, Step(c, s, es[0]), es[1..], pc))
  }

  /** The maker of the directory misses its write there: it fails, is refused, or the maker is killed before. */
  predicate LastWriteMissed(c: Config, s: Sys, es: seq<Event>)
    requires IsRun(c, s, es)
    decreases |es|
  {
    es != [] &&
    ((es[0].Advance? && es[0].answer != Accepted && s.threads[es[0].t].pc == Write2)
     || (es[0].Die? && LeavesHalfDone(s, es[0].process))
     || LastWriteMissed(c, Step(c, s, es[0]), es[1..]))
  }

  lemma {:induction false} WritesAreRemembered(c: Config, s: Sys, es: seq<Event>)
    requires IsRun(c, s, es)
    ensures var d := Run(c, s, es).dir;
      && (d.write1 <==> s.dir.write1 || SomeWriteTaken(c, s, es, Write1))
      && (d.write2 <==> s.dir.write2 || SomeWriteTaken(c, s, es, Write2))
      && (d.missed <==> s.dir.missed || LastWriteMissed(c, s, es))
    decreases |es|
  {
    hide LeavesHalfDone;
    if es != [] {
      WritesAreRemembered(c, Step(c, s, es[0]), es[1..]);
    }
  }

  /**
   For every encoding of the guard's states, every number of processes and threads, and every
   interleaving, whatever the kernel refuses and whoever is killed: the directory is made at most
   once, no `lock()` runs into its assertion, and a call that returned normally finds the
   directory present. It is completely set up exactly when some first write was taken and the
   maker's last one was; and that one was taken exactly when it was not missed.
   */
  lemma ReturnedMeansSetUp(c: Config, s: Sys, es: seq<Event>)
    requires Init(c, s) && IsRun(c, s, es)
    ensures var s' := Run(c, s, es);
      var first := s.dir.write1 || SomeWriteTaken(c, s, es, Write1);
      var last := s.dir.write2 || SomeWriteTaken(c, s, es, Write2);
      && s'.dir.mkdirs <= 1
      && (forall t :: t in s'.threads && s'.threads[t].pc == Returned ==>
            && s'.dir.present
            && (Complete(c, s'.dir) <==> !c.controls || (first && last))
            && (c.controls ==> (last <==> !(s.dir.missed || LastWriteMissed(c, s, es)))))
      && (forall t :: t in s'.threads && s'.threads[t].pc in {WantShared, Convert, WantExclusive} ==>
            s'.threads[t].guard == c.enc.unlocked)
  {
    InitInv(c, s);
    RunKeepsInv(c, s, es);
    WritesAreRemembered(c, s, es);
    var s' := Run(c, s, es);
    forall t | t in s'.threads
      ensures LockOk(c, s', t) && StageOk(c, s', t)
    {
    }
    assert s'.dir.missed ==> !s'.dir.write2;
    assert s'.dir.mkdirs <= 1;
    hide Inv, IsRun, Run, Init, SomeWriteTaken, LastWriteMissed;
  }

  /** What a step loses: a write that the code takes for done, or one that its maker never gets to. */
  predicate LosesAWrite(s: Sys, e: Event)
    requires Enabled(s, e)
  {
    match e
    case Call(_) => false
    case Advance(t, answer) =>
      var pc := s.threads[t].pc;
      (pc == Write1 && answer == Refused) || (pc == Write2 && answer != Accepted)
    case Die(p) => LeavesHalfDone(s, p)
  }

  predicate SomeWriteLost(c: Config, s: Sys, es: seq<Event>)
    requires IsRun(c, s, es)
    decreases |es|
  {
    es != [] && (LosesAWrite(s, es[0]) || SomeWriteLost(c, Step(c, s, es[0]), es[1..]))
  }

  /** Up to here nothing was lost. */
  ghost predicate NothingLost(c: Config, s: Sys) {
    c.controls ==>
      && (s.dir.present ==> s.dir.write1 && !s.dir.missed)
      && (forall t :: t in s.threads && s.threads[t].pc == Mkdir ==> s.dir.write1)
  }

  lemma StepKeepsNothingLost(c: Config, s: Sys, e: Event)
    requires Inv(c, s) && Enabled(s, e) && !LosesAWrite(s, e) && NothingLost(c, s)
    ensures NothingLost(c, Step(c, s, e))
  {
    hide MutexOk, LockOk, LocksExclude, LeavesHalfDone;
    if e.Advance? {
      assert StageOk(c, s, e.t);
    }
  }

  lemma {:induction false} RunKeepsNothingLost(c: Config, s: Sys, es: seq<Event>)
    requires Inv(c, s) && IsRun(c, s, es) && NothingLost(c, s) && !SomeWriteLost(c, s, es)
    ensures Inv(c, Run(c, s, es)) && NothingLost(c, Run(c, s, es))
    decreases |es|
  {
    hide Inv, Step, LosesAWrite, NothingLost;
    if es != [] {
      StepKeepsInv(c, s, es[0]);
      StepKeepsNothingLost(c, s, es[0]);
      RunKeepsNothingLost(c, Step(c, s, es[0]), es[1..]);
    }
  }

  /**
   In particular all is well when whatever is opened for writing is taken, the maker can open its
   last file, and is not killed before; other operations may fail and other threads be killed.
   */
  lemma SuccessfulRunsSetUp(c: Config, s: Sys, es: seq<Event>)
    requires Init(c, s) && IsRun(c, s, es)
    requires !c.controls || (!SomeWriteLost(c, s, es) && (s.dir.present ==> Complete(c, s.dir)))
    ensures var s' := Run(c, s, es);
      forall t :: t in s'.threads && s'.threads[t].pc == Returned ==> Complete(c, s'.dir)
  {
    InitInv(c, s);
    if c.controls {
      RunKeepsNothingLost(c, s, es);
    } else {
      RunKeepsInv(c, s, es);
    }
    var s' := Run(c, s, es);
    forall t | t in s'.threads && s'.threads[t].pc == Returned
      ensures Complete(c, s'.dir)
    {
      assert StageOk(c, s', t);
    }
  }

  /** The two looks at the directory never find one that somebody else is still setting up. */
  lemma ChecksSeeSettledDirectories(c: Config, s: Sys, es: seq<Event>, t: Tid)
    requires Init(c, s) && IsRun(c, s, es)
    requires t in Run(c, s, es).threads && Run(c, s, es).threads[t].pc in {Check1, Check2}
    ensures var d := Run(c, s, es).dir; d.present ==> Settled(c, d)
  {
    InitInv(c, s);
    RunKeepsInv(c, s, es);
    if Run(c, s, es).dir.present {
      CheckedIsSettled(c, Run(c, s, es), t);
    }
  }

  /** While a thread sets the directory up, nobody else holds any lock on the file. */
  lemma SetUpIsExclusive(c: Config, s: Sys, es: seq<Event>, t: Tid)
    requires Init(c, s) && IsRun(c, s, es)
    requires t in Run(c, s, es).threads && HoldsExclusive(Run(c, s, es).threads[t].pc)
    ensures Run(c, s, es).locks == map[t := Exclusive]
  {
    InitInv(c, s);
    RunKeepsInv(c, s, es);
    var s' := Run(c, s, es);
    HeldBy(c, s', t);
    hide IsRun, Run, Init, MutexOk, LockOk, StageOk, DirectoryOk;
    assert forall u :: u in s'.locks ==> u == t;
  }

  /** A process's flag is set by one action only: whoever is in the action finds it clear. */
  lemma ActionsRunUntilOneSucceeds(c: Config, s: Sys, es: seq<Event>, t: Tid)
    requires Init(c, s) && IsRun(c, s, es)
    requires t in Run(c, s, es).threads && InAction(Run(c, s, es).threads[t].pc)
    ensures t.process !in Run(c, s, es).invoked
    ensures forall u :: u in Run(c, s, es).threads && u.process == t.process && u != t ==>
              !HoldsMutex(Run(c, s, es).threads[u].pc)
  {
    InitInv(c, s);
    RunKeepsInv(c, s, es);
    var s' := Run(c, s, es);
    assert MutexOk(s', t) && StageOk(c, s', t);
    forall u | u in s'.threads && u.process == t.process && u != t
      ensures !HoldsMutex(s'.threads[u].pc)
    {
      assert MutexOk(s', u);
    }
  }

  /** A call that threw has left the mutex free and, unless another call succeeded, the flag clear: the next call retries. */
  lemma ThrowingLeavesNothingBehind(c: Config, s: Sys, t: Tid, answer: Answer)
    requires Inv(c, s) && t in s.threads && s.threads[t].pc == UnlockMutex && s.threads[t].failing
    ensures var s' := Step(c, s, Advance(t, answer));
      && s'.threads[t].pc == Threw
      && t.process !in s'.mutexes && s'.invoked == s.invoked
      && t !in s'.locks
      && Enabled(s', Call(t))
  {
    assert MutexOk(s, t) && LockOk(c, s, t);
  }

  // Directories that stay half set up

  lemma {:induction false} Extend(c: Config, s: Sys, es: seq<Event>, e: Event)
    requires IsRun(c, s, es) && Enabled(Run(c, s, es), e)
    ensures IsRun(c, s, es + [e]) && Run(c, s, es + [e]) == Step(c, Run(c, s, es), e)
    decreases |es|
  {
    if es == [] {
      assert IsRun(c, Step(c, s, e), []);
    } else {
      Extend(c, Step(c, s, es[0]), es[1..], e);
      assert (es + [e])[1..] == es[1..] + [e];
    }
  }

  const SHIPPED_CGROUP := Config(SHIPPED, true)

  /** A thread inside a call, the only one there is. */
  datatype Alone = Alone(th: Thread, held: Option<Mode>, owned: bool, invoked: bool, dir: Directory)

  /** The system with that thread under the name `t` and others that do nothing. */
  function Whole(x: Alone, t: Tid, others: map<Tid, Thread>): Sys {
    Sys(others[t := x.th],
        if x.held.Some? then map[t := x.held.value] else map[],
        if x.owned then map[t.process := t] else map[],
        if x.invoked then {t.process} else {},
        x.dir)
  }

  function Next(x: Alone, answer: Answer): Alone {
    Alone(NextThread(SHIPPED_CGROUP, x.th, x.invoked, x.dir.present, answer != Failed),
          NextHeld(SHIPPED_CGROUP, x.th, x.held),
          (x.owned || x.th.pc == WantMutex) && x.th.pc != UnlockMutex,
          x.invoked || x.th.pc == Store,
          NextDirectory(x.dir, x.th.pc, answer))
  }

  predicate CanGo(x: Alone) {
    !AtRest(x.th.pc) && (x.th.pc == WantMutex ==> !x.owned)
  }

  lemma AloneIsEnabled(x: Alone, t: Tid, others: map<Tid, Thread>, answer: Answer)
    requires CanGo(x)
    ensures Enabled(Whole(x, t, others), Advance(t, answer))
  {
  }

  lemma AloneLocksStep(x: Alone, t: Tid, others: map<Tid, Thread>, answer: Answer)
    requires CanGo(x)
    ensures NextLocks(SHIPPED_CGROUP, Whole(x, t, others).locks, t, x.th) == Whole(Next(x, answer), t, others).locks
  {
    hide NextThread, NextDirectory, NextHeld, NextLocks;
    NextLocksHolds(SHIPPED_CGROUP, Whole(x, t, others).locks, t, x.th);
    AloneLocks(NextLocks(SHIPPED_CGROUP, Whole(x, t, others).locks, t, x.th), Whole(Next(x, answer), t, others).locks, t);
  }

  lemma AloneSteps(x: Alone, t: Tid, others: map<Tid, Thread>, answer: Answer)
    requires CanGo(x)
    ensures Enabled(Whole(x, t, others), Advance(t, answer))
    ensures Step(SHIPPED_CGROUP, Whole(x, t, others), Advance(t, answer)) == Whole(Next(x, answer), t, others)
  {
    AloneIsEnabled(x, t, others, answer);
    hide NextThread, NextDirectory, NextHeld, NextLocks, Enabled;
    AloneLocksStep(x, t, others, answer);
    var s', n := Step(SHIPPED_CGROUP, Whole(x, t, others), Advance(t, answer)), Whole(Next(x, answer), t, others);
    assert s'.threads == n.threads && s'.dir == n.dir;
    assert s'.mutexes == n.mutexes;
    assert s'.invoked == n.invoked;
  }

  lemma AloneLocks(a: Locks<Tid>, b: Locks<Tid>, t: Tid)
    requires forall u :: u != t ==> Held(a, u) == None && Held(b, u) == None
    requires Held(a, t) == Held(b, t)
    ensures a == b
  {
    assert forall u: Tid :: (u in a <==> u in b) && (u in a ==> a[u] == b[u]) by {
      forall u: Tid
        ensures (u in a <==> u in b) && (u in a ==> a[u] == b[u])
      {
        assert Held(a, u) == Held(b, u);
      }
    }
  }

  ghost predicate Reaches(s: Sys, s': Sys) {
    exists es :: IsRun(SHIPPED_CGROUP, s, es) && Run(SHIPPED_CGROUP, s, es) == s'
  }

  lemma ReachesItself(s: Sys)
    ensures Reaches(s, s)
  {
    assert IsRun(SHIPPED_CGROUP, s, []) && Run(SHIPPED_CGROUP, s, []) == s;
  }

  lemma ReachesOneMore(s: Sys, s': Sys, e: Event)
    requires Reaches(s, s') && Enabled(s', e)
    ensures Reaches(s, Step(SHIPPED_CGROUP, s', e))
  {
    var es :| IsRun(SHIPPED_CGROUP, s, es) && Run(SHIPPED_CGROUP, s, es) == s';
    Extend(SHIPPED_CGROUP, s, es, e);
  }

  lemma Goes(s: Sys, x: Alone, t: Tid, others: map<Tid, Thread>, answer: Answer) returns (y: Alone)
    requires Reaches(s, Whole(x, t, others)) && CanGo(x)
    ensures y == Next(x, answer) && Reaches(s, Whole(y, t, others))
  {
    hide Reaches, Whole;
    AloneSteps(x, t, others, answer);
    ReachesOneMore(s, Whole(x, t, others), Advance(t, answer));
    y := Next(x, answer);
  }

  const ABSENT := Directory(false, false, false, 0, false)

  /** As made by one thread whose writes were answered like this. */
  function Made(first: bool, last: bool): Directory {
    Directory(true, first, last, 1, !last)
  }

  /** What the shipped guard makes the thread hold, and its state say, on the way through a call. */
  function OnTheWay(pc: Pc, dir: Directory, invoked: bool): Alone {
    match pc
    case FastLoad => Alone(Thread(pc, 0, false), None, false, invoked, dir)
    case WantMutex => Alone(Thread(pc, 0, false), None, false, invoked, dir)
    case Returned => Alone(Thread(pc, 0, false), None, false, invoked, dir)
    case Check1 => Alone(Thread(pc, 0, false), Some(Shared), true, invoked, dir)
    case Unlock => Alone(Thread(pc, 0, false), Some(Shared), true, invoked, dir)
    case Convert => Alone(Thread(pc, 0, false), Some(Shared), true, invoked, dir)
    case Unguard => Alone(Thread(pc, 0, false), Some(Shared), true, invoked, dir)
    case Close => Alone(Thread(pc, 0, false), Some(Shared), true, invoked, dir)
    case Check2 => Alone(Thread(pc, 1, false), Some(Exclusive), true, invoked, dir)
    case Write1 => Alone(Thread(pc, 1, false), Some(Exclusive), true, invoked, dir)
    case Mkdir => Alone(Thread(pc, 1, false), Some(Exclusive), true, invoked, dir)
    case Write2 => Alone(Thread(pc, 1, false), Some(Exclusive), true, invoked, dir)
    case _ => Alone(Thread(pc, 0, false), None, true, invoked, dir)
  }

  /** The directory on the way to the last write. */
  function SoFar(pc: Pc, first: bool): Directory {
    if pc == Write2 then Directory(true, first, false, 1, false)
    else if pc == Mkdir then ABSENT.(write1 := first) else ABSENT
  }

  /** The answer to the first write, and success for everything else. */
  function Answering(pc: Pc, first: bool): Answer {
    if pc == Write1 && !first then Refused else Accepted
  }

  lemma DirectoryOnTheWay(pc: Pc, first: bool)
    requires Rank(pc) > Rank(Write2)
    ensures var next := NextThread(SHIPPED_CGROUP, Thread(pc, 0, false), false, false, true).pc;
      && Rank(Write2) <= Rank(next) < Rank(pc)
      && !SoFar(pc, first).present
      && NextDirectory(SoFar(pc, first), pc, Answering(pc, first)) == SoFar(next, first)
  {
  }

  lemma ThreadOnTheWay(pc: Pc, d: Directory, answer: Answer)
    requires Rank(pc) > Rank(Write2) && !d.present && answer != Failed
    ensures var x := OnTheWay(pc, d, false);
      var y := Next(x, answer);
      && CanGo(x)
      && y.th.pc == NextThread(SHIPPED_CGROUP, Thread(pc, 0, false), false, false, true).pc
      && y == OnTheWay(y.th.pc, y.dir, false)
      && y.dir == NextDirectory(d, pc, answer)
  {
    hide NextDirectory;
  }

  lemma OneStepOnTheWay(pc: Pc, first: bool)
    requires Rank(pc) > Rank(Write2)
    ensures CanGo(OnTheWay(pc, SoFar(pc, first), false))
    ensures var y := Next(OnTheWay(pc, SoFar(pc, first), false), Answering(pc, first));
      && Rank(Write2) <= Rank(y.th.pc) < Rank(pc)
      && y == OnTheWay(y.th.pc, SoFar(y.th.pc, first), false)
  {
    hide Next, OnTheWay, NextThread, NextDirectory, SoFar, CanGo, Rank;
    DirectoryOnTheWay(pc, first);
    ThreadOnTheWay(pc, SoFar(pc, first), Answering(pc, first));
  }

  /** A thread that finds no directory gets to its last write, whether or not the kernel takes the first. */
  lemma ReachesItsLastWrite(s: Sys, t: Tid, others: map<Tid, Thread>, first: bool)
    requires Reaches(s, Whole(OnTheWay(FastLoad, ABSENT, false), t, others))
    ensures Reaches(s, Whole(OnTheWay(Write2, SoFar(Write2, first), false), t, others))
  {
    hide Reaches, Whole, OnTheWay, Next, CanGo;
    var x := OnTheWay(FastLoad, ABSENT, false);
    ghost var pc := FastLoad;
    while pc != Write2
      invariant Reaches(s, Whole(x, t, others))
      invariant x == OnTheWay(pc, SoFar(pc, first), false) && Rank(pc) >= Rank(Write2)
      decreases Rank(pc)
    {
      OneStepOnTheWay(pc, first);
      x := Goes(s, x, t, others, Answering(pc, first));
      pc := x.th.pc;
    }
  }

  lemma Leaves(s: Sys, x: Alone, t: Tid, others: map<Tid, Thread>) returns (y: Alone)
    requires Reaches(s, Whole(x, t, others)) && x.th == Thread(Unguard, 1, false) && x.owned
    ensures Reaches(s, Whole(y, t, others)) && y.th.pc == Returned && y.dir == x.dir
  {
    hide Reaches, Whole;
    y := Goes(s, x, t, others, Accepted);
    y := Goes(s, y, t, others, Accepted);
    y := Goes(s, y, t, others, Accepted);
    y := Goes(s, y, t, others, Accepted);
  }

  const ONLY := Tid(0, 0)
  const OTHER := Tid(1, 0)
  const IDLE := Alone(Thread(Idle, 0, false), None, false, false, ABSENT)

  lemma BeginsACall(s: Sys, x: Alone, t: Tid, others: map<Tid, Thread>)
    requires Reaches(s, Whole(x, t, others)) && AtRest(x.th.pc) && x.held == None && !x.owned && !x.invoked
    ensures Reaches(s, Whole(OnTheWay(FastLoad, x.dir, false), t, others))
  {
    ReachesOneMore(s, Whole(x, t, others), Call(t));
    assert Step(SHIPPED_CGROUP, Whole(x, t, others), Call(t)) == Whole(OnTheWay(FastLoad, x.dir, false), t, others);
  }

  /**
   What the kernel does not take goes unnoticed: whichever of the two writes it refuses, the call
   returns normally all the same, and the directory is set up only if it refused neither.
   */
  lemma RefusedWritesGoUnnoticed(first: bool, last: bool) returns (y: Alone)
    ensures Init(SHIPPED_CGROUP, Whole(IDLE, ONLY, map[]))
    ensures Reaches(Whole(IDLE, ONLY, map[]), Whole(y, ONLY, map[]))
    ensures y.th.pc == Returned && y.dir == Made(first, last)
    ensures Complete(SHIPPED_CGROUP, y.dir) <==> first && last
  {
    var s := Whole(IDLE, ONLY, map[]);
    ReachesItself(s);
    BeginsACall(s, IDLE, ONLY, map[]);
    hide Reaches, Whole;
    ReachesItsLastWrite(s, ONLY, map[], first);
    y := Goes(s, OnTheWay(Write2, SoFar(Write2, first), false), ONLY, map[], if last then Accepted else Refused);
    y := Leaves(s, y, ONLY, map[]);
  }

  lemma FailedCallUnwinds(s: Sys) returns (y: Alone)
    requires Reaches(s, Whole(OnTheWay(Write2, SoFar(Write2, true), false), ONLY, map[]))
    ensures Reaches(s, Whole(y, ONLY, map[]))
    ensures y == Alone(Thread(Threw, 0, true), None, false, false, Made(true, false))
  {
    hide Reaches, Whole;
    y := Goes(s, OnTheWay(Write2, SoFar(Write2, true), false), ONLY, map[], Failed);
    y := Goes(s, y, ONLY, map[], Accepted);
    y := Goes(s, y, ONLY, map[], Accepted);
    y := Goes(s, y, ONLY, map[], Accepted);
  }

  /** Points of a call that finds the directory at its first look. */
  predicate Short(pc: Pc) {
    Rank(pc) >= Rank(Check1) || 1 <= Rank(pc) <= Rank(Unguard) || pc == Returned
  }

  lemma ShortPoints(pc: Pc)
    requires Short(pc) && pc != Returned
    ensures var next := NextThread(SHIPPED_CGROUP, Thread(pc, 0, false), pc == UnlockMutex, true, true).pc;
      && Short(next) && Rank(next) < Rank(pc)
      && ((pc == Store || pc == UnlockMutex) <==> (next == UnlockMutex || next == Returned))
  {
  }

  lemma ShortDirectory(pc: Pc, d: Directory)
    requires Short(pc)
    ensures NextDirectory(d, pc, Accepted) == d
  {
  }

  lemma ShortThreads(pc: Pc, d: Directory)
    requires Short(pc) && pc != Returned && d.present
    ensures var x := OnTheWay(pc, d, pc == UnlockMutex);
      var y := Next(x, Accepted);
      && CanGo(x)
      && y.th.pc == NextThread(SHIPPED_CGROUP, Thread(pc, 0, false), pc == UnlockMutex, true, true).pc
      && y == OnTheWay(y.th.pc, NextDirectory(d, pc, Accepted), pc == Store || pc == UnlockMutex)
  {
    hide NextDirectory;
  }

  lemma OneShortStep(pc: Pc, d: Directory)
    requires Short(pc) && pc != Returned && d.present
    ensures var x := OnTheWay(pc, d, pc == UnlockMutex);
      CanGo(x) && var y := Next(x, Accepted);
      Short(y.th.pc) && Rank(y.th.pc) < Rank(pc) && y == OnTheWay(y.th.pc, d, y.th.pc == UnlockMutex || y.th.pc == Returned)
  {
    hide Next, OnTheWay, NextThread, NextDirectory, CanGo, Rank, Short;
    ShortPoints(pc);
    ShortDirectory(pc, d);
    ShortThreads(pc, d);
  }

  /** A call that finds a directory returns normally, whatever is in it. */
  lemma ReturnsOver(s: Sys, t: Tid, others: map<Tid, Thread>, d: Directory)
    requires Reaches(s, Whole(OnTheWay(FastLoad, d, false), t, others)) && d.present
    ensures Reaches(s, Whole(OnTheWay(Returned, d, true), t, others))
  {
    hide Reaches, Whole, OnTheWay, Next;
    var x := OnTheWay(FastLoad, d, false);
    ghost var pc := FastLoad;
    while pc != Returned
      invariant Reaches(s, Whole(x, t, others))
      invariant x == OnTheWay(pc, d, pc == UnlockMutex || pc == Returned) && Short(pc)
      decreases Rank(pc)
    {
      OneShortStep(pc, d);
      x := Goes(s, x, t, others, Accepted);
      pc := x.th.pc;
    }
  }

  /** A maker that cannot open its last file gets an exception, and its next call returns normally. */
  lemma AFailedWriteGoesUnnoticed()
    ensures Init(SHIPPED_CGROUP, Whole(IDLE, ONLY, map[]))
    ensures Reaches(Whole(IDLE, ONLY, map[]), Whole(OnTheWay(Returned, Made(true, false), true), ONLY, map[]))
  {
    var s := Whole(IDLE, ONLY, map[]);
    ReachesItself(s);
    BeginsACall(s, IDLE, ONLY, map[]);
    hide Reaches, Whole, OnTheWay;
    ReachesItsLastWrite(s, ONLY, map[], true);
    var y := FailedCallUnwinds(s);
    BeginsACall(s, y, ONLY, map[]);
    ReturnsOver(s, ONLY, map[], Made(true, false));
  }

  /** The maker is killed before its last write: no write failed, and another process returns normally. */
  lemma AKilledMakerGoesUnnoticed()
    ensures var s := Whole(IDLE, ONLY, map[OTHER := IDLE.th]);
      && Init(SHIPPED_CGROUP, s)
      && Reaches(s, Whole(OnTheWay(Returned, Made(true, false), true), OTHER, map[]))
  {
    var others := map[OTHER := IDLE.th];
    var s := Whole(IDLE, ONLY, others);
    ReachesItself(s);
    BeginsACall(s, IDLE, ONLY, others);
    ReachesItsLastWrite(s, ONLY, others, true);
    KillingTheMaker();
    hide Reaches, Whole, OnTheWay;
    ReachesOneMore(s, Whole(OnTheWay(Write2, SoFar(Write2, true), false), ONLY, others), Die(0));
    BeginsACall(s, IDLE.(dir := Made(true, false)), OTHER, map[]);
    ReturnsOver(s, OTHER, map[], Made(true, false));
  }

  lemma KillingTheMaker()
    ensures Step(SHIPPED_CGROUP, Whole(OnTheWay(Write2, SoFar(Write2, true), false), ONLY, map[OTHER := IDLE.th]), Die(0)) ==
              Whole(IDLE.(dir := Made(true, false)), OTHER, map[])
  {
    var s := Whole(OnTheWay(Write2, SoFar(Write2, true), false), ONLY, map[OTHER := IDLE.th]);
    assert s.threads[ONLY].pc == Write2;
    assert Killed(s, 0).threads == map[OTHER := IDLE.th];
  }
}
