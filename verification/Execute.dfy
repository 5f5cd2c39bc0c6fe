/** `Execute` with the default hooks: who ends up with the process descriptor. */
module Execute {
  import opened Prelude
  import opened FdHolder
  import C = CloneArgs
  import opened FdOwnership

  /**
   What comes from outside: whether clone3(2) succeeds, on which side of it the call returns, the
   process number and the descriptor number that the kernel picks, what the child meets when it sets
   up its user mappings, and whether the routine throws.
   */
  datatype World = World(permitted: bool, child: bool, pid: nat, fd: int, mappings: Mappings, throws: bool)

  /**
   All that the child observes of its user mappings: whether prctl(2) succeeds and which of the
   three files open. The streams are looked at before they are flushed, so it does not observe
   what the kernel then refuses.
   */
  datatype Mappings = Mappings(dumpable: bool, uidMapOpens: bool, setgroupsOpens: bool, gidMapOpens: bool)

  predicate NoticesNothing(m: Mappings) {
    m.dumpable && m.uidMapOpens && m.setgroupsOpens && m.gidMapOpens
  }

  /** `Threw`: in the caller's process; `ChildThrew`: an exception leaves `Execute` in the child. */
  datatype Ending = Threw | ChildThrew | Exited(code: int) | Returned(pid: nat, fd: int)

  /** The kernel hands out an unused number. */
  predicate Possible(t: Table, w: World) {
    0 <= w.fd && w.fd !in t.open
  }

  function Outcome(flags: bv64, t: Table, w: World): (Ending, Table) {
    if !w.permitted then (Threw, t)
    else if w.child then
      if C.Has(flags, C.CLONE_NEWUSER) && !NoticesNothing(w.mappings) then (ChildThrew, t)
      else (Exited(if w.throws then 127 else 0), t)
    else if C.Has(flags, C.CLONE_PIDFD) then (Returned(w.pid, w.fd), Opened(t, w.fd))
    else (Returned(w.pid, NONE), t)
  }

  class ProcessKnob {
    const pid: nat
    const pidFd: Holder

    /** The holder passed by value is emptied and stays with the caller. */
    constructor (pid: nat, from: Holder)
      modifies from
      ensures this.pid == pid && fresh(pidFd)
      ensures pidFd.fd == old(from.fd) && from.fd == NONE
    {
      this.pid := pid;
      pidFd := new Holder.MoveFrom(from);
    }
  }

  /** `CreateUidGidMappings`: one thing after the other, up to the first that fails visibly. */
  method CreateMappings(m: Mappings) returns (ok: bool)
    ensures ok == NoticesNothing(m)
  {
    if !m.dumpable {
      return false;
    }
    if !m.uidMapOpens {
      return false;
    }
    if !m.setgroupsOpens {
      return false;
    }
    ok := m.gidMapOpens;
  }

  /** clone3(2) as seen by the parent. */
  method Clone(flags: bv64, t: DescriptorTable, w: World) returns (pidfd: int)
    modifies t
    ensures pidfd == if C.Has(flags, C.CLONE_PIDFD) then w.fd else NONE
    ensures t.Value() == if C.Has(flags, C.CLONE_PIDFD) then Opened(old(t.Value()), w.fd) else old(t.Value())
  {
    pidfd := NONE;
    if C.Has(flags, C.CLONE_PIDFD) {
      t.Open(w.fd);
      pidfd := w.fd;
    }
  }

  method Run(args: C.ExecuteArgs, t: DescriptorTable, w: World) returns (end: Ending, r: Option<ProcessKnob>)
    modifies t
    ensures (end, t.Value()) == Outcome(args.flags, old(t.Value()), w)
    ensures r.Some? == end.Returned?
    ensures r.Some? ==> fresh(r.value) && fresh(r.value.pidFd) && r.value.pid == end.pid && r.value.pidFd.fd == end.fd
  {
    var flags := args.flags;
    r := Option.None;
    if !w.permitted {
      return Threw, Option.None;
    }
    if w.child {
      if C.Has(flags, C.CLONE_NEWUSER) {
        var mapped := CreateMappings(w.mappings);
        if !mapped {
          return ChildThrew, Option.None;
        }
      }
      return Exited(if w.throws then 127 else 0), Option.None;
    }
    var pidfd := Clone(flags, t, w);
    var pfd := new Holder.Empty();
    var ok := true;
    if C.Has(flags, C.CLONE_PIDFD) {
      ok := pfd.ResetTo(pidfd, t);
      assert ok;
    }
    var parameter := new Holder.MoveFrom(pfd);
    var knob := new ProcessKnob(w.pid, parameter);
    ok := parameter.Destroy(t);
    assert ok;
    ok := pfd.Destroy(t);
    assert ok;
    end, r := Returned(w.pid, knob.pidFd.fd), Some(knob);
  }

  /** The caller gets the process, and a descriptor exactly when the last call about it in the builder asked for one. */
  lemma DescriptorExactlyOnRequest(calls: seq<C.Call>, t: Table, w: World)
    requires Possible(t, w)
    ensures var (end, t') := Outcome(C.Built(calls).flags, t, w);
      && (end.Returned? <==> w.permitted && !w.child)
      && (end == Threw <==> !w.permitted)
      && (end.Returned? ==> end.pid == w.pid)
      && (end.Returned? ==>
            if C.LastOn(calls, C.PidFd) then end.fd == w.fd != NONE && t' == Opened(t, end.fd) && end.fd !in t.open
            else end.fd == NONE && t' == t)
      && (!end.Returned? ==> t' == t)
  {
    C.LastCallDecides(calls);
    hide C.Has, C.Built, C.LastOn, C.OnlyKnown;
    assert C.Flag(C.PidFd) == C.CLONE_PIDFD;
  }

  /**
   The child never returns; an exception leaves it exactly if it asked for a user namespace, and
   prctl(2) fails or one of the three mapping files cannot be opened.
   */
  lemma ChildNeverReturns(calls: seq<C.Call>, t: Table, w: World)
    requires w.permitted && w.child
    ensures var end := Outcome(C.Built(calls).flags, t, w).0;
      && !end.Returned? && end != Threw
      && (end == ChildThrew <==> C.LastOn(calls, C.NewNS(C.User)) && !NoticesNothing(w.mappings))
      && (end.Exited? ==> end.code == if w.throws then 127 else 0)
  {
    C.LastCallDecides(calls);
    hide C.Has, C.Built, C.LastOn, C.OnlyKnown;
    assert C.Flag(C.NewNS(C.User)) == C.CLONE_NEWUSER;
  }

  // Among all other holders

  /** A run of proper calls. */
  predicate Leads(s: Sys, es: seq<Event>, s': Sys) {
    IsRun(s, es) && AlwaysProper(s, es) && FdOwnership.Run(s, es) == s'
  }

  lemma LeadsFrom(s: Sys, e: Event, es: seq<Event>, s': Sys)
    requires Legal(s, e) && Proper(s, e) && Leads(Step(s, e), es, s')
    ensures Leads(s, [e] + es, s')
  {
    assert ([e] + es)[1..] == es;
  }

  function HandOver(pfd: nat, parameter: nat, knob: nat): seq<Event> {
    [MoveConstruct(parameter, pfd)] + ([MoveConstruct(knob, parameter)] + ([Destroy(parameter)] + ([Destroy(pfd)] + [])))
  }

  /** Two moves and the destruction of what was moved from: nothing is closed. */
  lemma HandingOver(s: Sys, pfd: nat, parameter: nat, knob: nat)
    requires pfd in s.holders && parameter !in s.holders && knob !in s.holders && parameter != knob
    ensures Leads(s, HandOver(pfd, parameter, knob), s.(holders := s.holders[knob := s.holders[pfd]] - {pfd}))
  {
    var s1 := Step(s, MoveConstruct(parameter, pfd));
    var s2 := Step(s1, MoveConstruct(knob, parameter));
    var s3 := Step(s2, Destroy(parameter));
    var s4 := Step(s3, Destroy(pfd));
    assert s4.holders == s.holders[knob := s.holders[pfd]] - {pfd};
    assert s4.table == s.table;
    assert Leads(s4, [], s4);
    hide Step, IsRun, AlwaysProper;
    LeadsFrom(s3, Destroy(pfd), [], s4);
    LeadsFrom(s2, Destroy(parameter), [Destroy(pfd)] + [], s4);
    LeadsFrom(s1, MoveConstruct(knob, parameter), [Destroy(parameter)] + ([Destroy(pfd)] + []), s4);
    LeadsFrom(s, MoveConstruct(parameter, pfd), [MoveConstruct(knob, parameter)] + ([Destroy(parameter)] + ([Destroy(pfd)] + [])), s4);
  }

  /** What `Execute` does with its three holders when it returns in the parent. */
  function HolderCalls(wanted: bool, fd: int, pfd: nat, parameter: nat, knob: nat): seq<Event> {
    if wanted then [KernelOpens(fd)] + ([CreateEmpty(pfd)] + ([CallReset(pfd, fd)] + HandOver(pfd, parameter, knob)))
    else [CreateEmpty(pfd)] + HandOver(pfd, parameter, knob)
  }

  predicate Unused(s: Sys, pfd: nat, parameter: nat, knob: nat) {
    pfd !in s.holders && parameter !in s.holders && knob !in s.holders && pfd != parameter && parameter != knob && knob != pfd
  }

  /**
   Among any other holders, these calls follow the rule for giving descriptors to holders, and
   leave nothing new but the knob's holder, with what the kernel opened or nothing.
   */
  lemma ExecuteFollowsTheRule(s: Sys, wanted: bool, w: World, pfd: nat, parameter: nat, knob: nat)
    requires Inv(s) && Possible(s.table, w) && Unused(s, pfd, parameter, knob)
    ensures var s' := if wanted
      then s.(holders := s.holders[knob := w.fd], table := Opened(s.table, w.fd), acquired := s.acquired + multiset{s.table.next})
      else s.(holders := s.holders[knob := NONE]);
      Leads(s, HolderCalls(wanted, w.fd, pfd, parameter, knob), s') && Inv(s')
  {
    if wanted {
      Opening(s, w.fd, pfd, parameter, knob);
    } else {
      var s1 := Step(s, CreateEmpty(pfd));
      HandingOver(s1, pfd, parameter, knob);
      assert s1.holders[knob := NONE] - {pfd} == s.holders[knob := NONE];
      LeadsFrom(s, CreateEmpty(pfd), HandOver(pfd, parameter, knob), s.(holders := s.holders[knob := NONE]));
    }
    RunKeepsInv(s, HolderCalls(wanted, w.fd, pfd, parameter, knob));
  }

  /** The new number is nobody's, and the empty holder takes it without closing anything. */
  lemma TakesWhatWasOpened(s: Sys, fd: int, pfd: nat)
    requires Inv(s) && 0 <= fd && fd !in s.table.open && pfd !in s.holders
    ensures var s2 := Step(Step(s, KernelOpens(fd)), CreateEmpty(pfd));
      && Proper(s2, CallReset(pfd, fd))
      && Step(s2, CallReset(pfd, fd)) ==
         s.(holders := s.holders[pfd := fd], table := Opened(s.table, fd), acquired := s.acquired + multiset{s.table.next})
  {
    var s2 := Step(Step(s, KernelOpens(fd)), CreateEmpty(pfd));
    HeldAreOpen(s);
    hide Inv;
    assert forall h :: h in s2.holders && h != pfd ==> s2.holders[h] == s.holders[h];
    assert s2.holders[pfd := fd] == s.holders[pfd := fd];
  }

  lemma Opening(s: Sys, fd: int, pfd: nat, parameter: nat, knob: nat)
    requires Inv(s) && 0 <= fd && fd !in s.table.open && Unused(s, pfd, parameter, knob)
    ensures Leads(s, HolderCalls(true, fd, pfd, parameter, knob),
              s.(holders := s.holders[knob := fd], table := Opened(s.table, fd), acquired := s.acquired + multiset{s.table.next}))
  {
    hide Inv, Numbers;
    TakesWhatWasOpened(s, fd, pfd);
    var s1 := Step(s, KernelOpens(fd));
    var s2 := Step(s1, CreateEmpty(pfd));
    var s3 := Step(s2, CallReset(pfd, fd));
    HandingOver(s3, pfd, parameter, knob);
    var s' := s.(holders := s.holders[knob := fd], table := Opened(s.table, fd), acquired := s.acquired + multiset{s.table.next});
    assert s3.holders[knob := fd] - {pfd} == s'.holders;
    hide Step, IsRun, AlwaysProper, Leads;
    LeadsFrom(s2, CallReset(pfd, fd), HandOver(pfd, parameter, knob), s');
    LeadsFrom(s1, CreateEmpty(pfd), [CallReset(pfd, fd)] + HandOver(pfd, parameter, knob), s');
    LeadsFrom(s, KernelOpens(fd), [CreateEmpty(pfd)] + ([CallReset(pfd, fd)] + HandOver(pfd, parameter, knob)), s');
  }
}
