/** `ExecuteArgs`: the builder of the arguments for clone3(2). */
module CloneArgs {
  import opened MachineInts

  datatype Namespace = User | Mount | Network | IPC | Cgroup | Pid | UTS | Time

  /** What can be switched on and off. */
  datatype Knob = NewNS(ns: Namespace) | SharedFiles | InCgroup | PidFd

  const CLONE_NEWTIME: bv64 := 0x80
  const CLONE_FILES: bv64 := 0x400
  const CLONE_PIDFD: bv64 := 0x1000
  const CLONE_NEWNS: bv64 := 0x20000
  const CLONE_NEWCGROUP: bv64 := 0x200_0000
  const CLONE_NEWUTS: bv64 := 0x400_0000
  const CLONE_NEWIPC: bv64 := 0x800_0000
  const CLONE_NEWUSER: bv64 := 0x1000_0000
  const CLONE_NEWPID: bv64 := 0x2000_0000
  const CLONE_NEWNET: bv64 := 0x4000_0000
  const CLONE_INTO_CGROUP: bv64 := 0x2_0000_0000

  const SIGCHLD := 17

  function NamespaceFlag(ns: Namespace): bv64 {
    match ns
    case User => CLONE_NEWUSER
    case Mount => CLONE_NEWNS
    case Network => CLONE_NEWNET
    case IPC => CLONE_NEWIPC
    case Cgroup => CLONE_NEWCGROUP
    case Pid => CLONE_NEWPID
    case UTS => CLONE_NEWUTS
    case Time => CLONE_NEWTIME
  }

  function Flag(k: Knob): bv64 {
    match k
    case NewNS(ns) => NamespaceFlag(ns)
    case SharedFiles => CLONE_FILES
    case InCgroup => CLONE_INTO_CGROUP
    case PidFd => CLONE_PIDFD
  }

  /** The fields of `clone_args` that the builder changes. */
  datatype Args = Args(flags: bv64, cgroup: nat, exitSignal: nat)

  const INITIAL := Args(0, 0, SIGCHLD)

  datatype Call =
    | New(ns: Namespace)
    | Same(ns: Namespace)
    | SameFiles
    | NewFiles
    | IntoCgroup(fd: int)
    | DiscardIntoCgroup
    | CreatePidFd
    | DiscardPidFdCreation
    | SetChildExitSignal(signal: int)

  function Set(flags: bv64, flag: bv64): bv64 {
    flags | flag
  }

  function Clear(flags: bv64, flag: bv64): bv64 {
    flags & !flag
  }

  function WithFlag(a: Args, flag: bv64): Args {
    a.(flags := Set(a.flags, flag))
  }

  function WithoutFlag(a: Args, flag: bv64): Args {
    a.(flags := Clear(a.flags, flag))
  }

  function Apply(a: Args, c: Call): Args {
    match c
    case New(ns) => WithFlag(a, NamespaceFlag(ns))
    case Same(ns) => WithoutFlag(a, NamespaceFlag(ns))
    case SameFiles => WithFlag(a, CLONE_FILES)
    case NewFiles => WithoutFlag(a, CLONE_FILES)
    case IntoCgroup(fd) => WithFlag(a.(cgroup := AsUnsigned(fd)), CLONE_INTO_CGROUP)
    case DiscardIntoCgroup => WithoutFlag(a.(cgroup := AsUnsigned(-1)), CLONE_INTO_CGROUP)
    case CreatePidFd => WithFlag(a, CLONE_PIDFD)
    case DiscardPidFdCreation => WithoutFlag(a, CLONE_PIDFD)
    case SetChildExitSignal(signal) => a.(exitSignal := AsUnsigned(signal))
  }

  /** The arguments after a history of calls. */
  function Built(calls: seq<Call>): Args {
    if calls == [] then INITIAL else Apply(Built(calls[..|calls| - 1]), calls[|calls| - 1])
  }

  class ExecuteArgs {
    var flags: bv64
    var cgroup: nat
    var exitSignal: nat

    function Value(): Args
      reads this
    {
      Args(flags, cgroup, exitSignal)
    }

    constructor ()
      ensures Value() == INITIAL
    {
      flags, cgroup, exitSignal := 0, 0, SIGCHLD;
    }

    method SetFlag(flag: bv64)
      modifies this
      ensures Value() == WithFlag(old(Value()), flag)
    {
      flags := Set(flags, flag);
    }

    method UnsetFlag(flag: bv64)
      modifies this
      ensures Value() == WithoutFlag(old(Value()), flag)
    {
      flags := Clear(flags, flag);
    }

    /** The sixteen methods that one macro defines. */
    method NewNamespace(ns: Namespace)
      modifies this
      ensures Value() == Apply(old(Value()), New(ns))
    {
      SetFlag(NamespaceFlag(ns));
    }

    method SameNamespace(ns: Namespace)
      modifies this
      ensures Value() == Apply(old(Value()), Same(ns))
    {
      UnsetFlag(NamespaceFlag(ns));
    }

    method ShareFiles()
      modifies this
      ensures Value() == Apply(old(Value()), SameFiles)
    {
      SetFlag(CLONE_FILES);
    }

    method CopyFiles()
      modifies this
      ensures Value() == Apply(old(Value()), NewFiles)
    {
      UnsetFlag(CLONE_FILES);
    }

    method EnterCgroup(fd: int)
      modifies this
      ensures Value() == Apply(old(Value()), IntoCgroup(fd))
    {
      cgroup := AsUnsigned(fd);
      SetFlag(CLONE_INTO_CGROUP);
    }

    method KeepCgroup()
      modifies this
      ensures Value() == Apply(old(Value()), DiscardIntoCgroup)
    {
      cgroup := AsUnsigned(-1);
      UnsetFlag(CLONE_INTO_CGROUP);
    }

    method RequestPidFd()
      modifies this
      ensures Value() == Apply(old(Value()), CreatePidFd)
    {
      SetFlag(CLONE_PIDFD);
    }

    method DiscardPidFd()
      modifies this
      ensures Value() == Apply(old(Value()), DiscardPidFdCreation)
    {
      UnsetFlag(CLONE_PIDFD);
    }

    method SetExitSignal(signal: int)
      modifies this
      ensures Value() == Apply(old(Value()), SetChildExitSignal(signal))
    {
      exitSignal := AsUnsigned(signal);
    }
  }

  // The last call decides

  /** Which way a call turns a knob, if at all. */
  datatype Turn = On | Off | NotAtAll

  function TurnOf(c: Call, k: Knob): Turn {
    match (c, k)
    case (New(ns), NewNS(ns')) => if ns == ns' then On else NotAtAll
    case (Same(ns), NewNS(ns')) => if ns == ns' then Off else NotAtAll
    case (SameFiles, SharedFiles) => On
    case (NewFiles, SharedFiles) => Off
    case (IntoCgroup(_), InCgroup) => On
    case (DiscardIntoCgroup, InCgroup) => Off
    case (CreatePidFd, PidFd) => On
    case (DiscardPidFdCreation, PidFd) => Off
    case _ => NotAtAll
  }

  /** What the last call that turns the knob asks for; initially everything is off. */
  predicate LastOn(calls: seq<Call>, k: Knob) {
    if calls == [] then false
    else
      match TurnOf(calls[|calls| - 1], k)
      case On => true
      case Off => false
      case NotAtAll => LastOn(calls[..|calls| - 1], k)
  }

  function LastCgroup(calls: seq<Call>): nat {
    if calls == [] then 0
    else
      match calls[|calls| - 1]
      case IntoCgroup(fd) => AsUnsigned(fd)
      case DiscardIntoCgroup => AsUnsigned(-1)
      case _ => LastCgroup(calls[..|calls| - 1])
  }

  function LastSignal(calls: seq<Call>): nat {
    if calls == [] then SIGCHLD
    else
      match calls[|calls| - 1]
      case SetChildExitSignal(signal) => AsUnsigned(signal)
      case _ => LastSignal(calls[..|calls| - 1])
  }

  function Common(flags: bv64, flag: bv64): bv64 {
    flags & flag
  }

  predicate Has(flags: bv64, flag: bv64) {
    Common(flags, flag) != 0
  }

  const ALL_FLAGS: bv64 :=
    CLONE_NEWTIME | CLONE_FILES | CLONE_PIDFD | CLONE_NEWNS | CLONE_NEWCGROUP | CLONE_NEWUTS |
    CLONE_NEWIPC | CLONE_NEWUSER | CLONE_NEWPID | CLONE_NEWNET | CLONE_INTO_CGROUP

  /** No bit but those of the knobs. */
  predicate OnlyKnown(flags: bv64) {
    flags & !ALL_FLAGS == 0
  }

  /** Each flag is a bit of its own. */
  lemma FlagsApart(j: Knob, k: Knob)
    ensures Has(Flag(j), Flag(k)) <==> j == k
    ensures OnlyKnown(Flag(j))
  {
  }

  lemma SetLeavesOthers(flags: bv64, a: bv64, b: bv64)
    requires Common(a, b) == 0
    ensures Common(Set(flags, a), b) == Common(flags, b)
  {
  }

  lemma ClearLeavesOthers(flags: bv64, a: bv64, b: bv64)
    requires Common(a, b) == 0
    ensures Common(Clear(flags, a), b) == Common(flags, b)
  {
  }

  lemma OthersStay(flags: bv64, a: bv64, b: bv64)
    requires !Has(a, b)
    ensures Has(Set(flags, a), b) <==> Has(flags, b)
    ensures Has(Clear(flags, a), b) <==> Has(flags, b)
  {
    hide Set, Clear, Common;
    SetLeavesOthers(flags, a, b);
    ClearLeavesOthers(flags, a, b);
  }

  lemma SetHas(flags: bv64, a: bv64)
    requires Has(a, a)
    ensures Has(Set(flags, a), a)
  {
    assert (flags | a) & a == a by { SetOwn(flags, a); }
  }

  lemma SetOwn(flags: bv64, a: bv64)
    ensures (flags | a) & a == a == a & a
  {
  }

  lemma ClearHasNot(flags: bv64, a: bv64)
    ensures !Has(Clear(flags, a), a)
  {
  }

  lemma SettingTouchesOne(flags: bv64, j: Knob, k: Knob)
    ensures Has(Set(flags, Flag(j)), Flag(k)) <==> j == k || Has(flags, Flag(k))
    ensures Has(Clear(flags, Flag(j)), Flag(k)) <==> j != k && Has(flags, Flag(k))
  {
    hide Set, Clear, Has, Flag, OnlyKnown;
    FlagsApart(j, k);
    if j == k {
      SetHas(flags, Flag(j));
      ClearHasNot(flags, Flag(j));
    } else {
      OthersStay(flags, Flag(j), Flag(k));
    }
  }

  lemma OutsideStays(flags: bv64, a: bv64)
    requires OnlyKnown(flags) && OnlyKnown(a)
    ensures OnlyKnown(Set(flags, a)) && OnlyKnown(Clear(flags, a))
  {
  }

  /** The knob that a call is about. */
  function KnobOf(c: Call): Knob
    requires !c.SetChildExitSignal?
  {
    match c
    case New(ns) => NewNS(ns)
    case Same(ns) => NewNS(ns)
    case SameFiles => SharedFiles
    case NewFiles => SharedFiles
    case IntoCgroup(_) => InCgroup
    case DiscardIntoCgroup => InCgroup
    case CreatePidFd => PidFd
    case DiscardPidFdCreation => PidFd
  }

  /** Which way a call turns its knob. */
  lemma TurnIs(c: Call)
    requires !c.SetChildExitSignal?
    ensures TurnOf(c, KnobOf(c)) ==
              if c.New? || c.SameFiles? || c.IntoCgroup? || c.CreatePidFd? then On else Off
  {
  }

  lemma FlagIs(a: Args, c: Call)
    requires !c.SetChildExitSignal?
    ensures Apply(a, c).flags ==
              if c.New? || c.SameFiles? || c.IntoCgroup? || c.CreatePidFd? then Set(a.flags, Flag(KnobOf(c)))
              else Clear(a.flags, Flag(KnobOf(c)))
  {
    hide Set, Clear, AsUnsigned, NamespaceFlag, CLONE_FILES, CLONE_PIDFD, CLONE_INTO_CGROUP;
  }

  lemma ApplyIs(a: Args, c: Call)
    ensures !c.SetChildExitSignal? ==>
              Apply(a, c).flags == if TurnOf(c, KnobOf(c)) == On then Set(a.flags, Flag(KnobOf(c))) else Clear(a.flags, Flag(KnobOf(c)))
    ensures c.SetChildExitSignal? ==> Apply(a, c).flags == a.flags
    ensures Apply(a, c).cgroup ==
              if c.IntoCgroup? then AsUnsigned(c.fd) else if c.DiscardIntoCgroup? then AsUnsigned(-1) else a.cgroup
    ensures Apply(a, c).exitSignal == if c.SetChildExitSignal? then AsUnsigned(c.signal) else a.exitSignal
  {
    hide Set, Clear, AsUnsigned, NamespaceFlag, Flag, TurnOf, KnobOf, CLONE_FILES, CLONE_PIDFD, CLONE_INTO_CGROUP;
    if !c.SetChildExitSignal? {
      TurnIs(c);
      FlagIs(a, c);
    }
  }

  /** What one call does to the flag word. */
  lemma ApplyTurns(a: Args, c: Call, k: Knob)
    ensures Has(Apply(a, c).flags, Flag(k)) <==> if TurnOf(c, k) == NotAtAll then Has(a.flags, Flag(k)) else TurnOf(c, k) == On
    ensures OnlyKnown(a.flags) ==> OnlyKnown(Apply(a, c).flags)
  {
    hide Set, Clear, Has, Flag, OnlyKnown, Apply;
    ApplyIs(a, c);
    if !c.SetChildExitSignal? {
      var j := KnobOf(c);
      FlagsApart(j, j);
      SettingTouchesOne(a.flags, j, k);
      if OnlyKnown(a.flags) {
        OutsideStays(a.flags, Flag(j));
      }
    }
  }

  /** Whatever the history: each flag, the cgroup and the signal are as the last call on it says. */
  lemma {:induction false} LastCallDecides(calls: seq<Call>)
    ensures forall k :: Has(Built(calls).flags, Flag(k)) <==> LastOn(calls, k)
    ensures OnlyKnown(Built(calls).flags)
    ensures Built(calls).cgroup == LastCgroup(calls)
    ensures Built(calls).exitSignal == LastSignal(calls)
  {
    hide Set, Clear, Has, Flag, OnlyKnown, Apply, AsUnsigned, TurnOf;
    if calls == [] {
      StartsOff();
    } else {
      var front, last := calls[..|calls| - 1], calls[|calls| - 1];
      LastCallDecides(front);
      forall k
        ensures Has(Built(calls).flags, Flag(k)) <==> LastOn(calls, k)
      {
        ApplyTurns(Built(front), last, k);
      }
      ApplyTurns(Built(front), last, PidFd);
      ApplyIs(Built(front), last);
    }
  }

  lemma StartsOff()
    ensures forall k :: !Has(0, Flag(k))
    ensures OnlyKnown(0)
  {
  }

  predicate NamesCgroup(c: Call) {
    c.IntoCgroup? || c.DiscardIntoCgroup?
  }

  /** The cgroup field goes with its flag: if the child is to enter a cgroup, it is the one last named. */
  lemma {:induction false} CgroupGoesWithItsFlag(calls: seq<Call>)
    ensures LastOn(calls, InCgroup) ==>
              exists i :: 0 <= i < |calls| && calls[i].IntoCgroup? && LastCgroup(calls) == AsUnsigned(calls[i].fd)
                          && forall j :: i < j < |calls| ==> !NamesCgroup(calls[j])
    ensures !LastOn(calls, InCgroup) ==> LastCgroup(calls) in {0, AsUnsigned(-1)}
  {
    hide AsUnsigned;
    if calls != [] {
      var front, last := calls[..|calls| - 1], calls[|calls| - 1];
      CgroupGoesWithItsFlag(front);
      if last.IntoCgroup? {
        assert calls[|calls| - 1] == last;
      } else if LastOn(calls, InCgroup) {
        var i :| 0 <= i < |front| && front[i].IntoCgroup? && LastCgroup(front) == AsUnsigned(front[i].fd)
                 && forall j :: i < j < |front| ==> !NamesCgroup(front[j]);
        assert calls[i] == front[i];
      }
    }
  }

  lemma OneBit(f: bv64, g: bv64, k: Knob)
    requires Has(f, Flag(k)) <==> Has(g, Flag(k))
    ensures f & Flag(k) == g & Flag(k)
  {
  }

  lemma KnownBits(f: bv64)
    requires OnlyKnown(f)
    ensures f ==
              (f & CLONE_NEWTIME) | (f & CLONE_FILES) | (f & CLONE_PIDFD) | (f & CLONE_NEWNS) | (f & CLONE_NEWCGROUP) | (f & CLONE_NEWUTS) |
              (f & CLONE_NEWIPC) | (f & CLONE_NEWUSER) | (f & CLONE_NEWPID) | (f & CLONE_NEWNET) | (f & CLONE_INTO_CGROUP)
  {
  }

  /** A flag word with nothing but known flags is determined by which of them it has. */
  lemma WordIsDetermined(f: bv64, g: bv64)
    requires OnlyKnown(f) && OnlyKnown(g)
    requires forall k :: Has(f, Flag(k)) <==> Has(g, Flag(k))
    ensures f == g
  {
    hide Has, OnlyKnown;
    OneBit(f, g, NewNS(User));
    OneBit(f, g, NewNS(Mount));
    OneBit(f, g, NewNS(Network));
    OneBit(f, g, NewNS(IPC));
    OneBit(f, g, NewNS(Cgroup));
    OneBit(f, g, NewNS(Pid));
    OneBit(f, g, NewNS(UTS));
    OneBit(f, g, NewNS(Time));
    OneBit(f, g, SharedFiles);
    OneBit(f, g, InCgroup);
    OneBit(f, g, PidFd);
    KnownBits(f);
    KnownBits(g);
  }

  /** Two histories that end the same way for every knob, the cgroup and the signal build the same arguments. */
  lemma OnlyLastCallsMatter(c: seq<Call>, d: seq<Call>)
    requires forall k :: LastOn(c, k) <==> LastOn(d, k)
    requires LastCgroup(c) == LastCgroup(d) && LastSignal(c) == LastSignal(d)
    ensures Built(c) == Built(d)
  {
    hide Flag, Has, OnlyKnown, Built, LastOn;
    LastCallDecides(c);
    LastCallDecides(d);
    WordIsDetermined(Built(c).flags, Built(d).flags);
  }

  lemma KernelNumbers(flags: bv64)
    ensures Has(flags, Flag(NewNS(Time))) <==> flags & 0x80 != 0
    ensures Has(flags, Flag(SharedFiles)) <==> flags & 0x400 != 0
    ensures Has(flags, Flag(PidFd)) <==> flags & 0x1000 != 0
    ensures Has(flags, Flag(NewNS(Mount))) <==> flags & 0x2_0000 != 0
    ensures Has(flags, Flag(NewNS(Cgroup))) <==> flags & 0x200_0000 != 0
    ensures Has(flags, Flag(NewNS(UTS))) <==> flags & 0x400_0000 != 0
    ensures Has(flags, Flag(NewNS(IPC))) <==> flags & 0x800_0000 != 0
    ensures Has(flags, Flag(NewNS(User))) <==> flags & 0x1000_0000 != 0
    ensures Has(flags, Flag(NewNS(Pid))) <==> flags & 0x2000_0000 != 0
    ensures Has(flags, Flag(NewNS(Network))) <==> flags & 0x4000_0000 != 0
    ensures Has(flags, Flag(InCgroup)) <==> flags & 0x2_0000_0000 != 0
  {
  }

  /** After any history, bit by bit in the kernel's numbers, what the last call on each asks for. */
  lemma BitsAreTheKernels(calls: seq<Call>)
    ensures var flags := Built(calls).flags;
      && (flags & 0x80 != 0 <==> LastOn(calls, NewNS(Time)))
      && (flags & 0x400 != 0 <==> LastOn(calls, SharedFiles))
      && (flags & 0x1000 != 0 <==> LastOn(calls, PidFd))
      && (flags & 0x2_0000 != 0 <==> LastOn(calls, NewNS(Mount)))
      && (flags & 0x200_0000 != 0 <==> LastOn(calls, NewNS(Cgroup)))
      && (flags & 0x400_0000 != 0 <==> LastOn(calls, NewNS(UTS)))
      && (flags & 0x800_0000 != 0 <==> LastOn(calls, NewNS(IPC)))
      && (flags & 0x1000_0000 != 0 <==> LastOn(calls, NewNS(User)))
      && (flags & 0x2000_0000 != 0 <==> LastOn(calls, NewNS(Pid)))
      && (flags & 0x4000_0000 != 0 <==> LastOn(calls, NewNS(Network)))
      && (flags & 0x2_0000_0000 != 0 <==> LastOn(calls, InCgroup))
      && flags & !0x2_7E02_1480 == 0
  {
    hide Flag, Has, Built, LastOn;
    LastCallDecides(calls);
    KernelNumbers(Built(calls).flags);
  }

  /** Unless it is set, the exit signal is 17; and what is set, signal or cgroup, is stored as given unless negative. */
  lemma {:induction false} SignalAndCgroup(calls: seq<Call>)
    ensures (forall i :: 0 <= i < |calls| ==> !calls[i].SetChildExitSignal?) ==> Built(calls).exitSignal == 17
    ensures calls != [] && calls[|calls| - 1].SetChildExitSignal? && 0 <= calls[|calls| - 1].signal < 0x8000_0000 ==>
              Built(calls).exitSignal == calls[|calls| - 1].signal
    ensures calls != [] && calls[|calls| - 1].IntoCgroup? && 0 <= calls[|calls| - 1].fd < 0x8000_0000 ==>
              Built(calls).cgroup == calls[|calls| - 1].fd
    ensures calls != [] && calls[|calls| - 1].DiscardIntoCgroup? ==> Built(calls).cgroup == 0xffff_ffff_ffff_ffff
  {
    hide Set, Clear;
    if calls != [] {
      SignalAndCgroup(calls[..|calls| - 1]);
    }
  }
}
