/** How calls of the initialiser end, and what they leave alone. */
module InitialiserCalls {
  import opened Prelude
  import opened FileLock
  import opened Initialiser
  import opened InitialiserSafety
  import opened InitialiserProgress

  // Ends of calls

  /** The step is one of the thread's own file operations, and it fails. */
  predicate FailsFor(s: Sys, e: Event, t: Tid)
    requires t in s.threads
  {
    e == Advance(t, Failed) && s.threads[t].pc in {OpenFile, Write1, Mkdir, Write2}
  }

  /** Since its last call one of the thread's own file operations has failed; `was` is so before the run. */
  predicate Spoiled(c: Config, s: Sys, es: seq<Event>, t: Tid, was: bool)
    requires IsRun(c, s, es)
    decreases |es|
  {
    if es == [] then was
    else
      Spoiled(c, Step(c, s, es[0]), es[1..], t,
              es[0] != Call(t) && (was || (t in s.threads && FailsFor(s, es[0], t))))
  }

  /** The thread makes a call during the run. */
  predicate Calls(es: seq<Event>, t: Tid) {
    Call(t) in es
  }

  lemma NextSpoils(c: Config, th: Thread, invoked: bool, present: bool, ok: bool)
    requires !AtRest(th.pc) && (th.failing ==> th.pc != OpenFile)
    ensures var th' := NextThread(c, th, invoked, present, ok);
      && (th'.failing <==> th.failing || (!ok && th.pc in {OpenFile, Write1, Mkdir, Write2}))
      && th'.pc != Idle
  {
  }

  lemma StepSpoils(c: Config, s: Sys, e: Event, t: Tid)
    requires Inv(c, s) && Enabled(s, e) && t in s.threads && t in Step(c, s, e).threads
    ensures Step(c, s, e).threads[t].failing <==> e != Call(t) && (s.threads[t].failing || FailsFor(s, e, t))
    ensures Step(c, s, e).threads[t].pc == Idle <==> s.threads[t].pc == Idle && e != Call(t)
  {
    assert StageOk(c, s, t);
    hide Inv, NextThread, Step, Enabled;
    match e
    case Die(p) =>
      KilledIs(c, s, p);
      SurvivorsAreUntouched(s, p, t);
    case Call(u) =>
      CallIs(c, s, u);
    case Advance(u, answer) =>
      AdvanceIs(c, s, u, answer);
      if u == t {
        NextSpoils(c, s.threads[t], t.process in s.invoked, s.dir.present, answer != Failed);
      }
  }

  lemma KilledIs(c: Config, s: Sys, p: nat)
    ensures Enabled(s, Die(p)) && Step(c, s, Die(p)) == Killed(s, p)
  {
  }

  lemma ThreadsOnlyGo(c: Config, s: Sys, e: Event)
    requires Enabled(s, e)
    ensures Step(c, s, e).threads.Keys <= s.threads.Keys
  {
    hide NextThread, NextLocks, NextDirectory, LeavesHalfDone;
  }

  lemma {:induction false} RunsOnlyLose(c: Config, s: Sys, es: seq<Event>)
    requires IsRun(c, s, es)
    ensures Run(c, s, es).threads.Keys <= s.threads.Keys
    decreases |es|
  {
    hide Step;
    if es != [] {
      ThreadsOnlyGo(c, s, es[0]);
      RunsOnlyLose(c, Step(c, s, es[0]), es[1..]);
    }
  }

  lemma {:induction false} SpoiledIsKnown(c: Config, s: Sys, es: seq<Event>, t: Tid)
    requires Inv(c, s) && IsRun(c, s, es) && t in Run(c, s, es).threads
    ensures t in s.threads
    ensures Run(c, s, es).threads[t].failing <==> Spoiled(c, s, es, t, s.threads[t].failing)
    ensures Run(c, s, es).threads[t].pc == Idle <==> s.threads[t].pc == Idle && !Calls(es, t)
    decreases |es|
  {
    RunsOnlyLose(c, s, es);
    hide Inv, Step, Enabled, FailsFor;
    if es != [] {
      RunsOnlyLose(c, Step(c, s, es[0]), es[1..]);
      StepKeepsInv(c, s, es[0]);
      StepSpoils(c, s, es[0], t);
      SpoiledIsKnown(c, Step(c, s, es[0]), es[1..], t);
    }
  }

  /**
   For both configurations, every encoding and every run: a call that is over ended with an
   exception exactly if one of its own file operations (opening, either write, making the
   directory) failed, and normally otherwise.
   */
  lemma CallsEndAsTheirOperations(c: Config, s: Sys, es: seq<Event>, t: Tid)
    requires Init(c, s) && IsRun(c, s, es) && t in Run(c, s, es).threads
    ensures var pc := Run(c, s, es).threads[t].pc;
      AtRest(pc) ==>
        (if !Calls(es, t) then pc == Idle else pc == if Spoiled(c, s, es, t, false) then Threw else Returned)
  {
    InitInv(c, s);
    RunKeepsInv(c, s, es);
    SpoiledIsKnown(c, s, es, t);
    assert StageOk(c, Run(c, s, es), t);
    hide Inv, Run, IsRun, Spoiled;
  }

  /** Once no step is left, every surviving thread's last call has ended like that. */
  lemma FinishedCallsReturned(c: Config, s: Sys, es: seq<Event>, t: Tid)
    requires Init(c, s) && IsRun(c, s, es) && t in Run(c, s, es).threads && Calls(es, t)
    requires forall u :: !Enabled(Run(c, s, es), Advance(u, Accepted))
    ensures Run(c, s, es).threads[t].pc == if Spoiled(c, s, es, t, false) then Threw else Returned
  {
    StuckMeansFinished(c, s, es);
    CallsEndAsTheirOperations(c, s, es, t);
    hide Init, Run, IsRun, Spoiled, Enabled;
  }

  // What calls leave alone

  /** With the flag set a call is over after a single look at it, and nothing but the thread changes. */
  lemma FastCall(c: Config, s: Sys, u: Tid, answer: Answer)
    requires u in s.threads && AtRest(s.threads[u].pc) && u.process in s.invoked
    ensures Enabled(s, Call(u))
    ensures var s1 := Step(c, s, Call(u));
      && Enabled(s1, Advance(u, answer))
      && var s2 := Step(c, s1, Advance(u, answer));
      && s2.threads[u].pc == Returned
      && s2 == s.(threads := s.threads[u := s2.threads[u]])
  {
    var s1 := Step(c, s, Call(u));
    assert s1.threads[u].pc == FastLoad && s1.invoked == s.invoked;
  }

  /**
   Once a call has returned normally in a process, every further call there returns after a single
   look at the flag: it takes neither the mutex nor a file lock and does not look at the directory.
   */
  lemma LaterCallsAreFast(c: Config, s: Sys, es: seq<Event>, t: Tid, u: Tid, answer: Answer)
    requires Init(c, s) && IsRun(c, s, es)
    requires t in Run(c, s, es).threads && Run(c, s, es).threads[t].pc == Returned
    requires u in Run(c, s, es).threads && AtRest(Run(c, s, es).threads[u].pc) && u.process == t.process
    ensures var s' := Run(c, s, es);
      && Enabled(s', Call(u))
      && var s1 := Step(c, s', Call(u));
      && Enabled(s1, Advance(u, answer))
      && var s2 := Step(c, s1, Advance(u, answer));
      && s2.threads[u].pc == Returned
      && s2 == s'.(threads := s'.threads[u := s2.threads[u]])
  {
    InitInv(c, s);
    RunKeepsInv(c, s, es);
    assert StageOk(c, Run(c, s, es), t);
    hide Inv, Init, Run, IsRun, Step, Enabled;
    FastCall(c, Run(c, s, es), u, answer);
  }

  /** No thread is on its way to change a directory that was there to begin with. */
  ghost predicate OnlyLooking(s: Sys, d: Directory) {
    && s.dir == d && d.present
    && (forall t :: t in s.threads ==> s.threads[t].pc !in {Unlock, Convert, WantExclusive, Check2, Write1, Mkdir, Write2})
    && (forall t :: t in s.locks ==> s.locks[t] == Shared)
  }

  lemma StepOnlyLooks(c: Config, s: Sys, e: Event, d: Directory)
    requires OnlyLooking(s, d) && Enabled(s, e)
    ensures OnlyLooking(Step(c, s, e), d)
  {
  }

  lemma {:induction false} RunOnlyLooks(c: Config, s: Sys, es: seq<Event>, d: Directory)
    requires OnlyLooking(s, d) && IsRun(c, s, es)
    ensures OnlyLooking(Run(c, s, es), d)
    decreases |es|
  {
    hide Step, Enabled, OnlyLooking;
    if es != [] {
      StepOnlyLooks(c, s, es[0], d);
      RunOnlyLooks(c, Step(c, s, es[0]), es[1..], d);
    }
  }

  /** If the directory is there to begin with, nobody ever takes the exclusive lock and nothing is written. */
  lemma PresentDirectoriesAreOnlyLookedAt(c: Config, s: Sys, es: seq<Event>)
    requires Init(c, s) && IsRun(c, s, es) && s.dir.present
    ensures var s' := Run(c, s, es);
      s'.dir == s.dir && forall t :: t in s'.locks ==> s'.locks[t] == Shared
  {
    RunOnlyLooks(c, s, es, s.dir);
  }
}
