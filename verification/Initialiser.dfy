/**
 The lazy creation of the sandbox directory, as steps of any number of threads in any number of
 processes: `Once` around an action that takes a file lock, checks, and creates.
 */
module Initialiser {
  import opened FileLock

  datatype Tid = Tid(process: nat, thread: nat)

  /**
   `controls` is true for the cgroup directory, which is created between two writes to control
   files, and false for the container directory, which is only created.
   */
  datatype Config = Config(enc: Encoding, controls: bool)

  datatype Pc =
    | Idle            // not inside a call
    | FastLoad        // the first look at the flag
    | WantMutex       // waiting for the mutex
    | SlowLoad        // the second look at the flag
    | OpenFile        // open the parent directory
    | WantShared      // waiting for the shared lock
    | Check1          // looking for the directory
    | Unlock          // giving the shared lock back
    | Convert         // asking for the exclusive lock: what is still held is dropped first
    | WantExclusive   // then the exclusive lock is waited for
    | Check2          // looking for the directory
    | Write1          // the parent's control file
    | Mkdir           // making the directory
    | Write2          // the new directory's control file
    | Unguard         // the guard's destructor unlocks
    | Close           // and closes the file
    | Store           // setting the flag
    | UnlockMutex     // giving the mutex back
    | Returned        // the call returned normally
    | Threw           // the call ended with an exception

  /** `guard` is the value of the guard's `current_state_`. */
  datatype Thread = Thread(pc: Pc, guard: int, failing: bool)

  /**
   The directory, what the two control files have taken, how often the directory was made, and
   whether its maker missed the last write: could not open the file, was refused by the kernel, or
   was killed before it got there.
   */
  datatype Directory = Directory(present: bool, write1: bool, write2: bool, mkdirs: nat, missed: bool)

  /** `mutexes` has the owner of each process's `Once` mutex, `invoked` the processes whose flag is set. */
  datatype Sys = Sys(
    threads: map<Tid, Thread>,
    locks: Locks<Tid>,
    mutexes: map<nat, Tid>,
    invoked: set<nat>,
    dir: Directory)

  predicate AtRest(pc: Pc) {
    pc == Idle || pc == Returned || pc == Threw
  }

  /**
   How a file operation ends. A control file is written through a buffered stream whose state is
   looked at before the buffer is flushed: only a file that cannot be opened has `Failed`, and what
   the kernel then does not take, `Refused`, goes unnoticed. Elsewhere only `Failed` matters.
   */
  datatype Answer = Failed | Refused | Accepted

  /** Some thread calls the `Once`, a thread inside one goes on, or a process is killed. */
  datatype Event = Call(t: Tid) | Advance(t: Tid, answer: Answer) | Die(process: nat)

  predicate Enabled(s: Sys, e: Event) {
    match e
    case Die(_) => true
    case Call(t) => t in s.threads && AtRest(s.threads[t].pc)
    case Advance(t, _) =>
      t in s.threads &&
      match s.threads[t].pc
      case WantMutex => t.process !in s.mutexes
      case WantShared => CanLock(s.locks, t, Shared)
      case WantExclusive => CanLock(s.locks, t, Exclusive)
      case _ => !AtRest(s.threads[t].pc)
  }

  function Step(c: Config, s: Sys, e: Event): Sys
    requires Enabled(s, e)
  {
    match e
    case Call(t) => s.(threads := s.threads[t := Thread(FastLoad, c.enc.unlocked, false)])
    case Die(p) => Killed(s, p)
    case Advance(t, answer) =>
      var pc := s.threads[t].pc;
      Sys(
        s.threads[t := NextThread(c, s.threads[t], t.process in s.invoked, s.dir.present, answer != Failed)],
        NextLocks(c, s.locks, t, s.threads[t]),
        if pc == WantMutex then s.mutexes[t.process := t]
        else if pc == UnlockMutex then s.mutexes - {t.process}
        else s.mutexes,
        if pc == Store then s.invoked + {t.process} else s.invoked,
        NextDirectory(s.dir, pc, answer))
  }

  /** The kernel closes the files of a killed process, and so its locks go; its memory is gone as well. */
  function Killed(s: Sys, p: nat): Sys {
    Sys(
      s.threads - Of(s.threads.Keys, p),
      s.locks - Of(s.locks.Keys, p),
      s.mutexes - {p},
      s.invoked - {p},
      if LeavesHalfDone(s, p) then s.dir.(missed := true) else s.dir)
  }

  /** The threads of a process among `ts`. */
  function Of(ts: set<Tid>, p: nat): set<Tid> {
    set t | t in ts && t.process == p
  }

  /** The process is just between making the directory and writing into it. */
  predicate LeavesHalfDone(s: Sys, p: nat) {
    exists t :: t in s.threads && t.process == p && s.threads[t].pc == Write2
  }

  /** Where the thread goes on. A failed file operation unwinds through the guard, if there is one, and the mutex. */
  function NextThread(c: Config, th: Thread, invoked: bool, present: bool, ok: bool): Thread {
    match th.pc
    case FastLoad => th.(pc := if invoked then Returned else WantMutex)
    case WantMutex => th.(pc := SlowLoad)
    case SlowLoad => th.(pc := if invoked then UnlockMutex else OpenFile)
    case OpenFile => if ok then Thread(WantShared, c.enc.unlocked, false) else th.(pc := UnlockMutex, failing := true)
    case WantShared => th.(pc := Check1, guard := ToState(c.enc, Shared))
    case Check1 => th.(pc := if present then Unguard else Unlock)
    case Unlock => th.(pc := Convert, guard := UnlockedState(c.enc, th.guard))
    case Convert => th.(pc := WantExclusive)
    case WantExclusive => th.(pc := Check2, guard := ToState(c.enc, Exclusive))
    case Check2 => th.(pc := if present then Unguard else if c.controls then Write1 else Mkdir)
    case Write1 => if ok then th.(pc := Mkdir) else th.(pc := Unguard, failing := true)
    case Mkdir =>
      if ok then th.(pc := if c.controls then Write2 else Unguard) else th.(pc := Unguard, failing := true)
    case Write2 => if ok then th.(pc := Unguard) else th.(pc := Unguard, failing := true)
    case Unguard => th.(pc := Close, guard := UnlockedState(c.enc, th.guard))
    case Close => th.(pc := if th.failing then UnlockMutex else Store)
    case Store => th.(pc := UnlockMutex)
    case UnlockMutex => th.(pc := if th.failing then Threw else Returned)
    case _ => th
  }

  function NextLocks(c: Config, locks: Locks<Tid>, t: Tid, th: Thread): Locks<Tid> {
    match th.pc
    case WantShared => Grant(locks, t, Shared)
    case Unlock => UnlockedLocks(c.enc, th.guard, locks, t)
    case Convert => BeginConversion(locks, t)
    case WantExclusive => Grant(locks, t, Exclusive)
    case Unguard => UnlockedLocks(c.enc, th.guard, locks, t)
    case Close => Release(locks, t)
    case _ => locks
  }

  function NextDirectory(d: Directory, pc: Pc, answer: Answer): Directory {
    match pc
    case Write1 => if answer == Accepted then d.(write1 := true) else d
    case Mkdir => if answer != Failed then d.(present := true, mkdirs := d.mkdirs + 1) else d
    case Write2 => if answer == Accepted then d.(write2 := true) else d.(missed := true)
    case _ => d
  }

  /** Any threads, none inside a call. The directory is absent, or nobody is at work on it any more. */
  predicate Init(c: Config, s: Sys) {
    && (forall t :: t in s.threads ==> s.threads[t] == Thread(Idle, c.enc.unlocked, false))
    && s.locks == map[] && s.mutexes == map[] && s.invoked == {}
    && s.dir.mkdirs == 0
    && !(s.dir.write2 && s.dir.missed)
    && ((s.dir.write2 || s.dir.missed) <==> s.dir.present && c.controls)
  }

  predicate Complete(c: Config, d: Directory) {
    d.present && (c.controls ==> d.write1 && d.write2)
  }

  predicate IsRun(c: Config, s: Sys, es: seq<Event>)
    decreases |es|
  {
    es == [] || (Enabled(s, es[0]) && IsRun(c, Step(c, s, es[0]), es[1..]))
  }

  function Run(c: Config, s: Sys, es: seq<Event>): Sys
    requires IsRun(c, s, es)
    decreases |es|
  {
    if es == [] then s else Run(c, Step(c, s, es[0]), es[1..])
  }
}
