/**
 `Once` under a memory model with views: what a thread may read, and what it is guaranteed to
 see, follows from the release, acquire and relaxed orders the code names ([atomics.order] of
 ISO C++20). Timestamps are positions in modification orders; a view is how much of each a
 thread is known to have seen.
 */
module OnceMemory {
  import opened Prelude

  /** Progress along the modification order of the flag and among the action's writes. */
  datatype View = View(flag: nat, data: nat)

  function Max(a: nat, b: nat): nat {
    if a < b then b else a
  }

  function Join(v: View, w: View): View {
    View(Max(v.flag, w.flag), Max(v.data, w.data))
  }

  /** A store to the flag; a release store publishes the view of its thread. */
  datatype Message = Message(value: bool, view: View)

  datatype Pc = Outside | FastLoad | WantMutex | SlowLoad | Acting | Store | Leave | LeaveThrowing | Returned | Threw

  datatype Thread = Thread(pc: Pc, view: View)

  /**
   `flag` is the modification order of `invoked_`, `data` counts the writes actions have made,
   `mutexView` is what the last owner of the mutex had seen. `completions` counts the actions
   that ended normally, and `goal` is how many writes there were when one did.
   */
  datatype State = State(
    threads: map<nat, Thread>,
    flag: seq<Message>,
    data: nat,
    owner: Option<nat>,
    mutexView: View,
    completions: nat,
    goal: nat)

  /** Reads choose the store they read from; `Sync` is any synchronisation outside the `Once`. */
  datatype Event =
    | Call(t: nat)
    | Sync(t: nat, u: nat)
    | FastRead(t: nat, at: nat)
    | Lock(t: nat)
    | SlowRead(t: nat, at: nat)
    | WriteData(t: nat)
    | Finish(t: nat)
    | Throw(t: nat)
    | StoreFlag(t: nat)
    | Unlock(t: nat)

  predicate MayRead(s: State, v: View, at: nat) {
    v.flag <= at < |s.flag|
  }

  predicate Enabled(s: State, e: Event) {
    e.t in s.threads &&
    var th := s.threads[e.t];
    match e
    case Call(_) => th.pc == Outside || th.pc == Returned || th.pc == Threw
    case Sync(_, u) => u in s.threads
    case FastRead(_, at) => th.pc == FastLoad && MayRead(s, th.view, at)
    case Lock(_) => th.pc == WantMutex && s.owner == None
    case SlowRead(_, at) => th.pc == SlowLoad && MayRead(s, th.view, at)
    case WriteData(_) => th.pc == Acting
    case Finish(_) => th.pc == Acting
    case Throw(_) => th.pc == Acting
    case StoreFlag(_) => th.pc == Store
    case Unlock(_) => th.pc == Leave || th.pc == LeaveThrowing
  }

  function Put(s: State, t: nat, th: Thread): State {
    s.(threads := s.threads[t := th])
  }

  function Step(s: State, e: Event): State
    requires Enabled(s, e)
  {
    var th := s.threads[e.t];
    match e
    case Call(t) => Put(s, t, th.(pc := FastLoad))
    case Sync(t, u) => Put(s, t, th.(view := Join(th.view, s.threads[u].view)))
    case FastRead(t, at) =>
      // memory_order_acquire: the view of the store comes along
      var v := Join(th.view.(flag := at), s.flag[at].view);
      Put(s, t, Thread(if s.flag[at].value then Returned else WantMutex, v))
    case Lock(t) => Put(s, t, Thread(SlowLoad, Join(th.view, s.mutexView))).(owner := Some(t))
    case SlowRead(t, at) =>
      // memory_order_relaxed: only the flag itself
      Put(s, t, Thread(if s.flag[at].value then Leave else Acting, th.view.(flag := at)))
    case WriteData(t) => Put(s, t, th.(view := th.view.(data := s.data + 1))).(data := s.data + 1)
    case Finish(t) => Put(s, t, th.(pc := Store)).(completions := s.completions + 1, goal := s.data)
    case Throw(t) => Put(s, t, th.(pc := LeaveThrowing))
    case StoreFlag(t) =>
      // memory_order_release: the store carries the thread's view
      var v := th.view.(flag := |s.flag|);
      Put(s, t, Thread(Leave, v)).(flag := s.flag + [Message(true, v)])
    case Unlock(t) =>
      Put(s, t, th.(pc := if th.pc == Leave then Returned else Threw))
        .(owner := None, mutexView := Join(s.mutexView, th.view))
  }

  predicate Init(s: State) {
    && (forall t :: t in s.threads ==> s.threads[t] == Thread(Outside, View(0, 0)))
    && s.flag == [Message(false, View(0, 0))]
    && s.data == 0 && s.owner == None && s.mutexView == View(0, 0)
    && s.completions == 0 && s.goal == 0
  }

  predicate InMutex(pc: Pc) {
    pc == SlowLoad || pc == Acting || pc == Store || pc == Leave || pc == LeaveThrowing
  }

  /** Whoever knows of the store to the flag knows of all the action's writes. */
  predicate Informed(s: State, v: View) {
    && v.flag < |s.flag| && v.data <= s.data
    && (v.flag >= 1 ==> v.data >= s.goal)
  }

  predicate ThreadOk(s: State, t: nat)
    requires t in s.threads
  {
    var th := s.threads[t];
    && Informed(s, th.view)
    && (InMutex(th.pc) <==> s.owner == Some(t))
    // Under the mutex nothing of the flag's history is hidden.
    && (InMutex(th.pc) ==> th.view.flag == |s.flag| - 1)
    && (th.pc == Acting ==> s.completions == 0)
    && (th.pc == Acting || th.pc == LeaveThrowing ==> |s.flag| == 1 && th.view.data == s.data)
    && (th.pc == SlowLoad && |s.flag| == 1 ==> th.view.data == s.data)
    && (th.pc == Store ==> s.completions == 1 && |s.flag| == 1 && th.view.data == s.data)
    && (th.pc == Leave || th.pc == Returned ==> |s.flag| == 2 && th.view.data >= s.goal)
  }

  predicate FlagOk(s: State) {
    && 1 <= |s.flag| <= 2
    && s.flag[0] == Message(false, View(0, 0))
    && (|s.flag| == 2 ==> s.flag[1].value && s.flag[1].view.flag == 1 && Informed(s, s.flag[1].view))
    && s.completions <= 1
    && (s.completions == 0 ==> |s.flag| == 1 && s.goal == 0)
    && (s.completions == 1 ==> s.goal == s.data)
    && (s.completions == 1 && |s.flag| == 1 ==>
          s.owner.Some? && s.owner.value in s.threads && s.threads[s.owner.value].pc == Store)
  }

  predicate MutexOk(s: State) {
    && Informed(s, s.mutexView)
    && (s.owner.Some? ==> s.owner.value in s.threads)
    && (s.owner == None ==> s.mutexView.flag == |s.flag| - 1 && (|s.flag| == 1 ==> s.mutexView.data == s.data))
  }

  predicate Inv(s: State) {
    FlagOk(s) && MutexOk(s) && forall t :: t in s.threads ==> ThreadOk(s, t)
  }

  lemma StepKeepsMemory(s: State, e: Event)
    requires Inv(s) && Enabled(s, e)
    ensures FlagOk(Step(s, e)) && MutexOk(Step(s, e))
  {
    assert ThreadOk(s, e.t);
  }

  lemma ReaderOk(s: State, e: Event)
    requires Inv(s) && Enabled(s, e) && (e.FastRead? || e.SlowRead? || e.Sync?)
    ensures e.t in Step(s, e).threads && ThreadOk(Step(s, e), e.t)
  {
    assert ThreadOk(s, e.t);
    if e.Sync? {
      assert ThreadOk(s, e.u);
    }
  }

  lemma MoverOk(s: State, e: Event)
    requires Inv(s) && Enabled(s, e)
    ensures e.t in Step(s, e).threads && ThreadOk(Step(s, e), e.t)
  {
    if e.FastRead? || e.SlowRead? || e.Sync? {
      ReaderOk(s, e);
    } else {
      assert ThreadOk(s, e.t);
    }
  }

  lemma OthersOk(s: State, e: Event, u: nat)
    requires Inv(s) && Enabled(s, e) && u in s.threads && u != e.t
    ensures u in Step(s, e).threads && ThreadOk(Step(s, e), u)
  {
    assert ThreadOk(s, e.t) && ThreadOk(s, u);
  }

  lemma StepKeepsInv(s: State, e: Event)
    requires Inv(s) && Enabled(s, e)
    ensures Inv(Step(s, e))
  {
    hide FlagOk, MutexOk, ThreadOk;
    StepKeepsMemory(s, e);
    MoverOk(s, e);
    forall u | u in s.threads && u != e.t
      ensures u in Step(s, e).threads && ThreadOk(Step(s, e), u)
    {
      OthersOk(s, e, u);
    }
  }

  predicate IsRun(s: State, es: seq<Event>)
    decreases |es|
  {
    es == [] || (Enabled(s, es[0]) && IsRun(Step(s, es[0]), es[1..]))
  }

  function Run(s: State, es: seq<Event>): State
    requires IsRun(s, es)
    decreases |es|
  {
    if es == [] then s else Run(Step(s, es[0]), es[1..])
  }

  lemma {:induction false} RunKeepsInv(s: State, es: seq<Event>)
    requires Inv(s) && IsRun(s, es)
    ensures Inv(Run(s, es))
    decreases |es|
  {
    hide Inv, Step;
    if es != [] {
      StepKeepsInv(s, es[0]);
      RunKeepsInv(Step(s, es[0]), es[1..]);
    }
  }

  /**
   In every execution the memory model allows: the action completes at most once, and a call
   that returns normally, whether by the acquire load or by the relaxed one under the mutex,
   returns to a thread that sees every write any action has made.
   */
  lemma ReturnSeesTheAction(s: State, es: seq<Event>, t: nat)
    requires Init(s) && IsRun(s, es)
    ensures var s' := Run(s, es);
      && s'.completions <= 1
      && (t in s'.threads && s'.threads[t].pc == Returned ==>
            s'.completions == 1 && s'.threads[t].view.data == s'.goal == s'.data)
  {
    RunKeepsInv(s, es);
    if t in Run(s, es).threads {
      assert ThreadOk(Run(s, es), t);
    }
  }

  /**
   As long as no action completed the flag can only be read as false and so every call that
   gets the mutex acts again; once one has, nobody can act any more.
   */
  lemma ActsUntilOneCompletes(s: State, es: seq<Event>, t: nat, at: nat)
    requires Init(s) && IsRun(s, es) && Enabled(Run(s, es), SlowRead(t, at))
    ensures var s' := Run(s, es);
      Step(s', SlowRead(t, at)).threads[t].pc == Acting <==> s'.completions == 0
  {
    RunKeepsInv(s, es);
    assert ThreadOk(Run(s, es), t);
  }

  /** An action that throws leaves the flag as it was, and the mutex to the next caller. */
  lemma ThrowLeavesTheFlag(s: State, t: nat)
    requires Inv(s) && Enabled(s, Throw(t))
    ensures var s1 := Step(s, Throw(t));
      && Enabled(s1, Unlock(t))
      && var s2 := Step(s1, Unlock(t));
      && s2.threads[t].pc == Threw && s2.owner == None
      && s2.flag == s.flag && s2.completions == s.completions == 0
      && forall i :: 0 <= i < |s2.flag| ==> !s2.flag[i].value
  {
    assert ThreadOk(s, t);
  }

  /** The fast path: a call returns there exactly if it reads a store of true, stale or not. */
  lemma FastReadReturnsOnTrue(s: State, t: nat, at: nat)
    requires Enabled(s, FastRead(t, at))
    ensures Step(s, FastRead(t, at)).threads[t].pc == if s.flag[at].value then Returned else WantMutex
    ensures Step(s, FastRead(t, at)).owner == s.owner && Step(s, FastRead(t, at)).flag == s.flag
  {
  }

  /**
   A thread may miss the store as long as it has not heard of it. One that has, because it
   returned before or synchronised with one that did, can only return by the fast path.
   */
  lemma InformedCallsAreFast(s: State, es: seq<Event>, t: nat)
    requires Init(s) && IsRun(s, es)
    requires var s' := Run(s, es); t in s'.threads && s'.threads[t].pc == FastLoad && |s'.flag| == 2
    ensures var s' := Run(s, es);
      var heard := s'.threads[t].view.flag >= 1;
      && Enabled(s', FastRead(t, 1))
      && (Enabled(s', FastRead(t, 0)) <==> !heard)
      && (heard ==> forall at :: Enabled(s', FastRead(t, at)) ==> Step(s', FastRead(t, at)).threads[t].pc == Returned)
  {
    RunKeepsInv(s, es);
    assert ThreadOk(Run(s, es), t);
    hide IsRun, Run, Init;
  }

  /** In the thread's last call the action threw; `was` is so before these events. */
  predicate Thrown(es: seq<Event>, t: nat, was: bool)
    decreases |es|
  {
    if es == [] then was else Thrown(es[1..], t, es[0] != Call(t) && (was || es[0] == Throw(t)))
  }

  lemma StepThrows(s: State, e: Event, t: nat)
    requires Enabled(s, e) && t in s.threads
    ensures t in Step(s, e).threads
    ensures var pc, pc' := s.threads[t].pc, Step(s, e).threads[t].pc;
      && (pc' == LeaveThrowing || pc' == Threw <==> e != Call(t) && (pc == LeaveThrowing || pc == Threw || e == Throw(t)))
      && (pc' == Outside <==> pc == Outside && e != Call(t))
  {
  }

  lemma {:induction false} ThrowsAreKnown(s: State, es: seq<Event>, t: nat)
    requires IsRun(s, es) && t in s.threads
    ensures t in Run(s, es).threads
    ensures var pc, pc' := s.threads[t].pc, Run(s, es).threads[t].pc;
      && (pc' == LeaveThrowing || pc' == Threw <==> Thrown(es, t, pc == LeaveThrowing || pc == Threw))
      && (pc' == Outside <==> pc == Outside && Call(t) !in es)
    decreases |es|
  {
    hide Step, Enabled;
    if es != [] {
      StepThrows(s, es[0], t);
      ThrowsAreKnown(Step(s, es[0]), es[1..], t);
    }
  }

  /** A call that is over ended with an exception exactly if its own action threw, and normally otherwise. */
  lemma CallsEndAsTheirActions(s: State, es: seq<Event>, t: nat)
    requires Init(s) && IsRun(s, es) && t in s.threads
    ensures t in Run(s, es).threads
    ensures var pc := Run(s, es).threads[t].pc;
      pc == Outside || pc == Returned || pc == Threw ==>
        pc == if Call(t) !in es then Outside else if Thrown(es, t, false) then Threw else Returned
  {
    ThrowsAreKnown(s, es, t);
  }
}
