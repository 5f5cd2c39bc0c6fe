/** What every operation on owning erasures keeps. */
module ErasureSafety {
  import opened Prelude
  import opened ErasureLayout
  import opened ErasureMachine

  /** The place of the box a slot's vtable claims, Null if it claims none. */
  function Home(s: Slot, a: Addr): Ptr {
    match s.cmd
    case ProcessCmd(ty, inPlace) => Retrieve(s, a, ty, inPlace)
    case _ => Null
  }

  ghost predicate SlotOk(st: State, a: Addr)
    requires a in st.slots
  {
    var s := st.slots[a];
    && s.thunk == s.cmd
    && (s.cmd == EmptyCmd || s.cmd.ProcessCmd?)
    && (s.cmd.ProcessCmd? ==>
          && Readable(st.mem, Home(s, a), s.cmd.ty)
          && Home(s, a).OnHeap? == !s.cmd.inPlace
          && (s.copyable ==> s.cmd.ty.copyable))
  }

  /** The bookkeeping of boxes and blocks agrees with what is alive. */
  ghost predicate MemoryOk(m: Memory) {
    && !m.fault
    && Null !in m.live
    && (forall p :: p in m.live ==>
          m.live[p] < |m.boxes| && m.boxes[m.live[p]].at == p && m.boxes[m.live[p]].deaths == 0)
    && (forall id :: 0 <= id < |m.boxes| ==>
          m.boxes[id].deaths <= 1 &&
          (m.boxes[id].deaths == 0 ==> m.boxes[id].at in m.live && m.live[m.boxes[id].at] == id))
    && (forall p :: p in m.live && p.OnHeap? ==> p.block < |m.frees|)
    && (forall b :: 0 <= b < |m.frees| ==> m.frees[b] <= 1 && (m.frees[b] == 0 <==> OnHeap(b) in m.live))
  }

  ghost predicate SlotsOk(st: State, own: set<Addr>) {
    own <= st.slots.Keys && forall a :: a in own ==> SlotOk(st, a)
  }

  /** Every live box has an owner at `own`. */
  ghost predicate Covered(slots: map<Addr, Slot>, live: set<Ptr>, own: set<Addr>)
    requires own <= slots.Keys
  {
    forall p :: p in live ==> exists a :: a in own && Home(slots[a], a) == p
  }

  /** No box has two owners. */
  ghost predicate Unshared(slots: map<Addr, Slot>, own: set<Addr>)
    requires own <= slots.Keys
  {
    forall a, b :: a in own && b in own && Home(slots[a], a) == Home(slots[b], b) != Null ==> a == b
  }

  /**
   The erasures at `own` are in order and between them own every live box, each its own one.
   Slots outside `own` (not yet constructed, or whose box was weakly destroyed) may hold anything.
   */
  ghost predicate OwnedBy(st: State, own: set<Addr>) {
    && MemoryOk(st.mem)
    && SlotsOk(st, own)
    && Covered(st.slots, st.mem.live.Keys, own)
    && Unshared(st.slots, own)
  }

  ghost predicate Inv(st: State) {
    OwnedBy(st, st.slots.Keys)
  }

  /** What an erasure holds, as its user sees it. */
  datatype Target = Target(ty: BoxType, code: int)

  ghost function Content(st: State, a: Addr): Option<Target>
    requires a in st.slots && SlotOk(st, a)
  {
    var s := st.slots[a];
    if s.cmd.ProcessCmd? then
      Some(Target(s.cmd.ty, st.mem.boxes[st.mem.live[Home(s, a)]].code.value))
    else None
  }

  /** The erasures at `own` hold the same in both states. */
  ghost predicate Same(st: State, st': State, own: set<Addr>) {
    forall a :: a in own ==>
      a in st.slots && a in st'.slots && SlotOk(st, a) && SlotOk(st', a)
      && Content(st', a) == Content(st, a)
  }

  lemma SameThenSame(st: State, st1: State, st2: State, own: set<Addr>, own': set<Addr>)
    requires Same(st, st1, own) && Same(st1, st2, own') && own <= own'
    ensures Same(st, st2, own)
  {
  }

  // Memory steps

  /** The box at `p` is there in both memories, and is the same. */
  ghost predicate BoxKept(m: Memory, m': Memory, p: Ptr) {
    && p in m.live && p in m'.live
    && m.live[p] == m'.live[p] < |m.boxes| <= |m'.boxes|
    && m.boxes[m.live[p]] == m'.boxes[m.live[p]]
  }

  lemma NewBoxInBuffer(m: Memory, p: Ptr, ty: BoxType, code: int)
    requires MemoryOk(m) && p.InBuffer? && p !in m.live
    ensures var m' := NewBox(m, p, ty, code);
      && MemoryOk(m')
      && m'.live.Keys == m.live.Keys + {p}
      && Readable(m', p, ty) && m'.boxes[m'.live[p]].code == Some(code)
      && forall q :: q in m.live ==> BoxKept(m, m', q)
  {
  }

  lemma NewBoxOnHeap(m: Memory, ty: BoxType, code: int)
    requires MemoryOk(m)
    ensures var p := OnHeap(|m.frees|);
      var m' := NewBox(Allocate(m), p, ty, code);
      && p !in m.live
      && MemoryOk(m')
      && m'.live.Keys == m.live.Keys + {p}
      && Readable(m', p, ty) && m'.boxes[m'.live[p]].code == Some(code)
      && forall q :: q in m.live ==> BoxKept(m, m', q)
  {
    var p := OnHeap(|m.frees|);
    var m' := NewBox(Allocate(m), p, ty, code);
    assert m'.frees == m.frees + [0];
    assert p !in m.live;
  }

  lemma EndBoxInBuffer(m: Memory, p: Ptr, ty: BoxType)
    requires MemoryOk(m) && p.InBuffer? && p in m.live && m.boxes[m.live[p]].ty == ty
    ensures var m' := EndBox(m, p, ty);
      && MemoryOk(m')
      && m'.live.Keys == m.live.Keys - {p}
      && forall q :: q in m.live && q != p ==> BoxKept(m, m', q)
  {
  }

  lemma EndBoxOnHeap(m: Memory, p: Ptr, ty: BoxType)
    requires MemoryOk(m) && p.OnHeap? && p in m.live && m.boxes[m.live[p]].ty == ty
    ensures var m' := Free(EndBox(m, p, ty), p);
      && MemoryOk(m')
      && m'.live.Keys == m.live.Keys - {p}
      && forall q :: q in m.live && q != p ==> BoxKept(m, m', q)
  {
  }

  lemma MoveFromKeepsOrder(m: Memory, p: Ptr, ty: BoxType)
    requires MemoryOk(m) && Readable(m, p, ty)
    ensures var m' := MoveFrom(m, p, ty);
      && MemoryOk(m')
      && m'.live == m.live && m'.boxes[m'.live[p]].ty == ty
      && forall q :: q in m.live && q != p ==> BoxKept(m, m', q)
  {
  }

  // Erasures over a memory step

  /** Untouched slots whose boxes are kept stay in order and keep their contents. */
  lemma KeptBoxesKeepContents(st: State, st': State, own: set<Addr>)
    requires own <= st.slots.Keys && own <= st'.slots.Keys
    requires forall a :: a in own ==> SlotOk(st, a) && st'.slots[a] == st.slots[a]
    requires forall a :: a in own && st.slots[a].cmd.ProcessCmd? ==>
               BoxKept(st.mem, st'.mem, Home(st.slots[a], a))
    ensures Same(st, st', own)
  {
    forall a | a in own
      ensures SlotOk(st', a) && Content(st', a) == Content(st, a)
    {
    }
  }

  /** Owners whose slots are untouched still own what they owned. */
  lemma OwnersStay(slots: map<Addr, Slot>, live: set<Ptr>, own: set<Addr>, slots': map<Addr, Slot>)
    requires own <= slots.Keys && own <= slots'.Keys
    requires forall a :: a in own ==> slots'[a] == slots[a]
    requires Covered(slots, live, own) && Unshared(slots, own)
    ensures Covered(slots', live, own) && Unshared(slots', own)
  {
    forall p | p in live
      ensures exists a :: a in own && Home(slots'[a], a) == p
    {
      var a :| a in own && Home(slots[a], a) == p;
      assert Home(slots'[a], a) == p;
    }
  }

  /** A slot that gains a fresh home joins the owners. */
  lemma OwnersGain(slots: map<Addr, Slot>, live: set<Ptr>, own: set<Addr>, slots': map<Addr, Slot>, to: Addr)
    requires own <= slots.Keys && to in slots' && to !in own
    requires forall a :: a in own ==> a in slots' && slots'[a] == slots[a]
    requires Covered(slots, live, own) && Unshared(slots, own)
    requires forall a :: a in own && Home(slots[a], a) != Null ==> Home(slots[a], a) in live
    requires Home(slots'[to], to) !in live
    ensures Covered(slots', live + {Home(slots'[to], to)}, own + {to})
    ensures Unshared(slots', own + {to})
  {
    var p := Home(slots'[to], to);
    forall q | q in live + {p}
      ensures exists a :: a in own + {to} && Home(slots'[a], a) == q
    {
      if q == p {
        assert to in own + {to};
      } else {
        var a :| a in own && Home(slots[a], a) == q;
        assert a in own + {to} && Home(slots'[a], a) == q;
      }
    }
  }

  /** A slot whose box is gone leaves the owners. */
  lemma OwnersLose(slots: map<Addr, Slot>, live: set<Ptr>, own: set<Addr>, a: Addr)
    requires own <= slots.Keys && a in own
    requires Covered(slots, live, own) && Unshared(slots, own)
    ensures Covered(slots, live - {Home(slots[a], a)}, own - {a})
    ensures Unshared(slots, own - {a})
  {
    forall q | q in live - {Home(slots[a], a)}
      ensures exists b :: b in own - {a} && Home(slots[b], b) == q
    {
      var b :| b in own && Home(slots[b], b) == q;
      assert b in own - {a};
    }
  }

  /** What `construct` does to the memory. */
  lemma ConstructInMemory(st: State, own: set<Addr>, to: Addr, ty: BoxType, code: int)
    requires OwnedBy(st, own) && to in st.slots && to !in own
    ensures var st' := Construct(st, to, ty, code);
      var p := Home(st'.slots[to], to);
      && MemoryOk(st'.mem)
      && p !in st.mem.live && Null !in st.mem.live
      && st'.mem.live.Keys == st.mem.live.Keys + {p}
      && Readable(st'.mem, p, ty)
      && st'.mem.boxes[st'.mem.live[p]].code == Some(code)
      && forall q :: q in st.mem.live ==> BoxKept(st.mem, st'.mem, q)
  {
    var st' := Construct(st, to, ty, code);
    hide Covered, Unshared, ConfigKept;
    var p := Home(st'.slots[to], to);
    if p.InBuffer? {
      BufferIsFree(st, own, to, p);
      NewBoxInBuffer(st.mem, p, ty, code);
    } else {
      NewBoxOnHeap(st.mem, ty, code);
    }
  }

  /** What `construct` does to the slots. */
  lemma ConstructInSlots(st: State, to: Addr, ty: BoxType, code: int)
    requires to in st.slots
    ensures var st' := Construct(st, to, ty, code);
      && st'.slots == st.slots[to := st'.slots[to]]
      && st'.slots[to].copyable == st.slots[to].copyable
      && st'.slots[to].cmd == st'.slots[to].thunk
      && st'.slots[to].cmd.ProcessCmd? && st'.slots[to].cmd.ty == ty
      && Home(st'.slots[to], to).OnHeap? == !st'.slots[to].cmd.inPlace
  {
  }

  lemma OwnersHaveBoxes(st: State, own: set<Addr>)
    requires OwnedBy(st, own)
    ensures Null !in st.mem.live
    ensures forall a :: a in own && (st.slots[a].cmd.ProcessCmd? || Home(st.slots[a], a) != Null) ==>
              Home(st.slots[a], a) in st.mem.live
  {
    hide Covered, Unshared;
  }

  lemma ConstructedSlot(st: State, own: set<Addr>, to: Addr, ty: BoxType, code: int)
    requires OwnedBy(st, own) && to in st.slots && to !in own
    requires st.slots[to].copyable ==> ty.copyable
    ensures var st' := Construct(st, to, ty, code);
      SlotOk(st', to) && Content(st', to) == Some(Target(ty, code))
  {
    hide Construct, OwnedBy, MemoryOk, ConfigKept, Home, Readable;
    ConstructInSlots(st, to, ty, code);
    ConstructInMemory(st, own, to, ty, code);
  }

  lemma ConstructKeepsOthers(st: State, own: set<Addr>, to: Addr, ty: BoxType, code: int)
    requires OwnedBy(st, own) && to in st.slots && to !in own
    ensures Same(st, Construct(st, to, ty, code), own)
  {
    hide Construct, MemoryOk, Covered, Unshared, ConfigKept, Home, Readable, SlotOk, Content, BoxKept;
    ConstructInSlots(st, to, ty, code);
    ConstructInMemory(st, own, to, ty, code);
    OwnersHaveBoxes(st, own);
    KeptBoxesKeepContents(st, Construct(st, to, ty, code), own);
  }

  lemma ConstructGainsOwner(st: State, own: set<Addr>, to: Addr, ty: BoxType, code: int)
    requires OwnedBy(st, own) && to in st.slots && to !in own
    ensures var st' := Construct(st, to, ty, code);
      && MemoryOk(st'.mem)
      && own + {to} <= st'.slots.Keys
      && Covered(st'.slots, st'.mem.live.Keys, own + {to})
      && Unshared(st'.slots, own + {to})
  {
    hide Construct, MemoryOk, Covered, Unshared, ConfigKept, Home, Readable, SlotOk, Content, BoxKept;
    ConstructInSlots(st, to, ty, code);
    ConstructInMemory(st, own, to, ty, code);
    OwnersHaveBoxes(st, own);
    OwnersGain(st.slots, st.mem.live.Keys, own, Construct(st, to, ty, code).slots, to);
  }

  lemma ConstructOwns(st: State, own: set<Addr>, to: Addr, ty: BoxType, code: int)
    requires OwnedBy(st, own) && to in st.slots && to !in own
    requires st.slots[to].copyable ==> ty.copyable
    ensures var st' := Construct(st, to, ty, code);
      && OwnedBy(st', own + {to})
      && Same(st, st', own)
      && Content(st', to) == Some(Target(ty, code))
  {
    hide Construct, MemoryOk, Covered, Unshared, ConfigKept, Home, Readable, SlotOk, Content;
    ConstructedSlot(st, own, to, ty, code);
    ConstructKeepsOthers(st, own, to, ty, code);
    ConstructGainsOwner(st, own, to, ty, code);
  }

  /** No live box is in the buffer of an erasure that owns nothing. */
  lemma BufferIsFree(st: State, own: set<Addr>, to: Addr, p: Ptr)
    requires OwnedBy(st, own) && to !in own
    requires p.InBuffer? && p.owner == to
    ensures p !in st.mem.live
  {
    forall a | a in own
      ensures Home(st.slots[a], a) != p
    {
    }
  }

  lemma WeakDestroyReleases(st: State, own: set<Addr>, a: Addr)
    requires OwnedBy(st, own) && a in own
    ensures var st' := WeakDestroy(st, a);
      && OwnedBy(st', own - {a})
      && Same(st, st', own - {a})
      && st'.slots == st.slots
      && st'.mem.live.Keys == st.mem.live.Keys - {Home(st.slots[a], a)}
  {
    var st' := WeakDestroy(st, a);
    var p := Home(st.slots[a], a);
    if st.slots[a].cmd.ProcessCmd? {
      if st.slots[a].cmd.inPlace {
        EndBoxInBuffer(st.mem, p, st.slots[a].cmd.ty);
      } else {
        EndBoxOnHeap(st.mem, p, st.slots[a].cmd.ty);
      }
    }
    KeptBoxesKeepContents(st, st', own - {a});
    OwnersLose(st.slots, st.mem.live.Keys, own, a);
  }

  /** An empty slot can always join the owners. */
  lemma OwnersGainEmpty(slots: map<Addr, Slot>, live: set<Ptr>, own: set<Addr>, a: Addr)
    requires own <= slots.Keys && a in slots && Home(slots[a], a) == Null
    requires Covered(slots, live, own) && Unshared(slots, own)
    ensures Covered(slots, live, own + {a}) && Unshared(slots, own + {a})
  {
    forall q | q in live
      ensures exists b :: b in own + {a} && Home(slots[b], b) == q
    {
      var b :| b in own && Home(slots[b], b) == q;
      assert b in own + {a};
    }
  }

  /** Ownership when the box of `from` is replaced by one for `to`, and `from` is left empty. */
  lemma OwnersPassOn(slots: map<Addr, Slot>, live: set<Ptr>, own: set<Addr>, slots': map<Addr, Slot>, from: Addr, to: Addr)
    requires own <= slots.Keys && from in own && to in slots' && to !in own
    requires forall a :: a in own ==> a in slots'
    requires forall a :: a in own && a != from ==> slots'[a] == slots[a]
    requires Covered(slots, live, own) && Unshared(slots, own)
    requires forall a :: a in own && Home(slots[a], a) != Null ==> Home(slots[a], a) in live
    requires Home(slots'[from], from) == Null
    requires Home(slots'[to], to) !in live - {Home(slots[from], from)}
    ensures Covered(slots', live - {Home(slots[from], from)} + {Home(slots'[to], to)}, own + {to})
    ensures Unshared(slots', own + {to})
  {
    var rest := live - {Home(slots[from], from)};
    OwnersLose(slots, live, own, from);
    OwnersGain(slots, rest, own - {from}, slots', to);
    OwnersGainEmpty(slots', rest + {Home(slots'[to], to)}, own - {from} + {to}, from);
    assert own - {from} + {to} + {from} == own + {to};
  }

  /** Building one more box, in a buffer that is free or in a new block. */
  lemma BuildInMemory(m: Memory, to: Ptr, ty: BoxType, code: int)
    requires MemoryOk(m)
    requires to.InBuffer? ==> to !in m.live
    requires to != Null && (to.OnHeap? ==> to == OnHeap(|m.frees|))
    ensures var m' := NewBox(if to.OnHeap? then Allocate(m) else m, to, ty, code);
      && MemoryOk(m') && to !in m.live
      && m'.live.Keys == m.live.Keys + {to}
      && Readable(m', to, ty) && m'.boxes[m'.live[to]].code == Some(code)
      && forall q :: q in m.live ==> BoxKept(m, m', q)
  {
    if to.OnHeap? {
      NewBoxOnHeap(m, ty, code);
    } else {
      NewBoxInBuffer(m, to, ty, code);
    }
  }

  /** `op_move` of an object in the buffer: the memory afterwards. */
  function Relocated(m: Memory, p: Ptr, ty: BoxType, to: Ptr): Memory
    requires Readable(m, p, ty)
  {
    var moved := MoveFrom(m, p, ty);
    EndBox(NewBox(if to.OnHeap? then Allocate(moved) else moved, to, ty, m.boxes[m.live[p]].code.value), p, ty)
  }

  lemma RelocateInMemory(m: Memory, p: Ptr, ty: BoxType, to: Ptr)
    requires MemoryOk(m) && Readable(m, p, ty) && p.InBuffer?
    requires to.InBuffer? ==> to !in m.live
    requires to != Null && (to.OnHeap? ==> to == OnHeap(|m.frees|))
    ensures var m' := Relocated(m, p, ty, to);
      && MemoryOk(m')
      && to !in m.live
      && m'.live.Keys == m.live.Keys - {p} + {to}
      && Readable(m', to, ty) && m'.boxes[m'.live[to]].code == m.boxes[m.live[p]].code
      && forall q :: q in m.live && q != p ==> BoxKept(m, m', q)
  {
    var code, moved := m.boxes[m.live[p]].code.value, MoveFrom(m, p, ty);
    assert moved.frees == m.frees;
    MoveFromKeepsOrder(m, p, ty);
    hide MemoryOk, NewBox, EndBox, MoveFrom, Allocate;
    BuildInMemory(moved, to, ty, code);
    var built := NewBox(if to.OnHeap? then Allocate(moved) else moved, to, ty, code);
    assert BoxKept(moved, built, p);
    EndBoxInBuffer(built, p, ty);
    KeptBoxIsReadable(built, EndBox(built, p, ty), to, ty);
    hide BoxKept, Readable;
    forall q | q in m.live && q != p
      ensures BoxKept(m, EndBox(built, p, ty), q)
    {
      BoxKeptOn(m, moved, built, q);
      BoxKeptOn(m, built, EndBox(built, p, ty), q);
    }
  }

  lemma BoxKeptOn(m: Memory, m1: Memory, m2: Memory, q: Ptr)
    requires BoxKept(m, m1, q) && BoxKept(m1, m2, q)
    ensures BoxKept(m, m2, q)
  {
  }

  lemma KeptBoxIsReadable(m: Memory, m': Memory, q: Ptr, ty: BoxType)
    requires Readable(m, q, ty) && BoxKept(m, m', q)
    ensures Readable(m', q, ty) && m'.boxes[m'.live[q]].code == m.boxes[m.live[q]].code
  {
  }

  /** What moving a non-empty erasure does to the memory, wherever source and target keep their box. */
  lemma MoveInMemory(st: State, own: set<Addr>, from: Addr, to: Addr)
    requires OwnedBy(st, own) && from in own && to in st.slots && to !in own
    requires st.slots[from].cmd.ProcessCmd?
    ensures var st' := Move(st, from, to);
      var (p, p', ty) := (Home(st.slots[from], from), Home(st'.slots[to], to), st.slots[from].cmd.ty);
      && MemoryOk(st'.mem)
      && p' !in st.mem.live.Keys - {p}
      && st'.mem.live.Keys == st.mem.live.Keys - {p} + {p'}
      && Readable(st'.mem, p', ty)
      && st'.mem.boxes[st'.mem.live[p']].code == st.mem.boxes[st.mem.live[p]].code
      && forall q :: q in st.mem.live && q != p ==> BoxKept(st.mem, st'.mem, q)
  {
    hide Covered, Unshared, ConfigKept;
    var f := st.slots[from];
    if f.cmd.inPlace {
      var p' := Home(Move(st, from, to).slots[to], to);
      if p'.InBuffer? {
        BufferIsFree(st, own, to, p');
      }
      RelocateInMemory(st.mem, Home(f, from), f.cmd.ty, p');
    }
  }

  /** What becomes of the target's slot when something is moved into it. */
  ghost predicate Took(st: State, st': State, from: Addr, to: Addr) {
    && from in st.slots && to in st.slots && to in st'.slots
    && st'.slots.Keys == st.slots.Keys
    && st'.slots[to].cmd == st'.slots[to].thunk
    && st'.slots[to].copyable == st.slots[to].copyable
    && (st.slots[from].cmd == EmptyCmd ==> st'.slots[to].cmd == EmptyCmd && st'.mem == st.mem)
    && (st.slots[from].cmd.ProcessCmd? ==>
          && st'.slots[to].cmd.ProcessCmd?
          && st'.slots[to].cmd.ty == st.slots[from].cmd.ty
          && Home(st'.slots[to], to).OnHeap? == !st'.slots[to].cmd.inPlace)
  }

  lemma RebuiltSlot(st: State, own: set<Addr>, from: Addr, to: Addr)
    requires OwnedBy(st, own) && from in own && to in st.slots && to !in own
    requires st.slots[from].cmd.ProcessCmd? && st.slots[from].cmd.inPlace
    ensures Took(st, CmdMove(st, from, to), from, to)
    ensures forall a :: a in st.slots && a != to ==> CmdMove(st, from, to).slots[a] == st.slots[a]
  {
    var cmd, p := st.slots[from].cmd, Home(st.slots[from], from);
    assert SlotOk(st, from);
    hide OwnedBy, MemoryOk, Construct, NewBox, EndBox, Home, Retrieve, ConfigKept;
    ConstructInSlots(st.(mem := ErasureMachine.MoveFrom(st.mem, p, cmd.ty)), to, cmd.ty, st.mem.boxes[st.mem.live[p]].code.value);
  }

  lemma HandedSlot(st: State, own: set<Addr>, from: Addr, to: Addr)
    requires OwnedBy(st, own) && from in own && to in st.slots && to !in own
    requires st.slots[from].cmd.ProcessCmd? ==> !st.slots[from].cmd.inPlace
    ensures Took(st, CmdMove(st, from, to), from, to)
    ensures forall a :: a in own && a != from ==> CmdMove(st, from, to).slots[a] == st.slots[a]
  {
    assert SlotOk(st, from);
    hide OwnedBy, MemoryOk, Construct, NewBox, EndBox, ConfigKept;
  }

  /** What moving does to the two slots. */
  lemma MoveInSlots(st: State, own: set<Addr>, from: Addr, to: Addr)
    requires OwnedBy(st, own) && from in own && to in st.slots && to !in own
    ensures var st' := Move(st, from, to);
      && Took(st, st', from, to)
      && (forall a :: a in own && a != from ==> st'.slots[a] == st.slots[a])
      && st'.slots[from].cmd == st'.slots[from].thunk == EmptyCmd
  {
    hide MemoryOk, Covered, Unshared, CmdMove, SlotOk, Home;
    if st.slots[from].cmd.ProcessCmd? && st.slots[from].cmd.inPlace {
      RebuiltSlot(st, own, from, to);
    } else {
      HandedSlot(st, own, from, to);
    }
  }

  /** What moving does to slots and memory together, as far as ownership is concerned. */
  lemma MoveRehomes(st: State, own: set<Addr>, from: Addr, to: Addr)
    requires OwnedBy(st, own) && from in own && to in st.slots && to !in own
    ensures var st' := Move(st, from, to);
      var (p, p') := (Home(st.slots[from], from), Home(st'.slots[to], to));
      && MemoryOk(st'.mem)
      && Home(st'.slots[from], from) == Null
      && p' !in st.mem.live.Keys - {p}
      && st'.mem.live.Keys == st.mem.live.Keys - {p} + ({p'} - {Null})
      && (p == Null <==> p' == Null)
      && forall q :: q in st.mem.live && q != p ==> BoxKept(st.mem, st'.mem, q)
  {
    hide Move, OwnedBy, MemoryOk, ConfigKept, Retrieve, Readable, BoxKept;
    OwnersHaveBoxes(st, own);
    OwnersAreEmptyOrNot(st, own, from);
    MoveInSlots(st, own, from, to);
    if st.slots[from].cmd.ProcessCmd? {
      MoveInMemory(st, own, from, to);
      StillOrdered(Move(st, from, to).mem);
    } else {
      NothingChanges(st, own);
    }
  }

  lemma OwnersAreEmptyOrNot(st: State, own: set<Addr>, a: Addr)
    requires OwnedBy(st, own) && a in own
    ensures a in st.slots && (st.slots[a].cmd == EmptyCmd || st.slots[a].cmd.ProcessCmd?)
    ensures MemoryOk(st.mem)
  {
    hide MemoryOk, Covered, Unshared, Home, Readable;
    assert SlotOk(st, a);
  }

  lemma NothingChanges(st: State, own: set<Addr>)
    requires OwnedBy(st, own)
    ensures forall q :: q in st.mem.live ==> BoxKept(st.mem, st.mem, q)
  {
    hide Covered, Unshared, SlotsOk;
  }

  lemma StillOrdered(m: Memory)
    requires MemoryOk(m)
    ensures Null !in m.live
  {
  }

  /**
   Moving hands the callable over and leaves the source empty, for every combination of empty,
   in-place and heap storage on either side. A box in the source's buffer is rebuilt at the
   target and ended; a heap block changes hands.
   */
  lemma MoveHandsOver(st: State, own: set<Addr>, from: Addr, to: Addr)
    requires OwnedBy(st, own) && from in own && to in st.slots && to !in own
    requires st.slots[to].copyable ==> st.slots[from].copyable
    ensures var st' := Move(st, from, to);
      && OwnedBy(st', own + {to})
      && Same(st, st', own - {from})
      && Content(st', to) == Content(st, from)
      && Content(st', from) == None
  {
    hide Move, MemoryOk, Covered, Unshared, ConfigKept, SlotOk, Content, Home;
    MovedSlots(st, own, from, to);
    MoveKeepsOthers(st, own, from, to);
    MovePassesOn(st, own, from, to);
  }

  lemma MovedSlots(st: State, own: set<Addr>, from: Addr, to: Addr)
    requires OwnedBy(st, own) && from in own && to in st.slots && to !in own
    requires st.slots[to].copyable ==> st.slots[from].copyable
    ensures var st' := Move(st, from, to);
      && SlotOk(st', to) && SlotOk(st', from)
      && Content(st', to) == Content(st, from) && Content(st', from) == None
  {
    MoveInSlots(st, own, from, to);
    assert SlotOk(st, from);
    hide OwnedBy, Move, ConfigKept;
    if st.slots[from].cmd.ProcessCmd? {
      MoveInMemory(st, own, from, to);
    }
    hide MemoryOk;
  }

  lemma MoveKeepsOthers(st: State, own: set<Addr>, from: Addr, to: Addr)
    requires OwnedBy(st, own) && from in own && to in st.slots && to !in own
    ensures Same(st, Move(st, from, to), own - {from})
  {
    hide Move, MemoryOk, Covered, ConfigKept, Home, SlotOk, Content, BoxKept;
    MoveInSlots(st, own, from, to);
    MoveRehomes(st, own, from, to);
    OwnersHaveBoxes(st, own);
    KeptBoxesKeepContents(st, Move(st, from, to), own - {from});
  }

  lemma MovePassesOn(st: State, own: set<Addr>, from: Addr, to: Addr)
    requires OwnedBy(st, own) && from in own && to in st.slots && to !in own
    ensures var st' := Move(st, from, to);
      && MemoryOk(st'.mem)
      && own + {to} <= st'.slots.Keys
      && Covered(st'.slots, st'.mem.live.Keys, own + {to})
      && Unshared(st'.slots, own + {to})
  {
    var st' := Move(st, from, to);
    hide Move, MemoryOk, Covered, Unshared, ConfigKept, Home, SlotOk, Content, BoxKept;
    MoveInSlots(st, own, from, to);
    MoveRehomes(st, own, from, to);
    OwnersHaveBoxes(st, own);
    OwnersPassOn(st.slots, st.mem.live.Keys, own, st'.slots, from, to);
    CoveredButNull(st'.slots, st'.mem.live.Keys, st.mem.live.Keys - {Home(st.slots[from], from)} + {Home(st'.slots[to], to)}, own + {to});
  }

  lemma CoveredButNull(slots: map<Addr, Slot>, live: set<Ptr>, more: set<Ptr>, own: set<Addr>)
    requires own <= slots.Keys && live <= more && Covered(slots, more, own)
    ensures Covered(slots, live, own)
  {
  }

  /** Copying makes a second box with the same callable and leaves the source as it was. */
  lemma CopyDuplicates(st: State, own: set<Addr>, from: Addr, to: Addr)
    requires OwnedBy(st, own) && from in own && to in st.slots && to !in own
    requires st.slots[from].copyable
    ensures var st' := Copy(st, from, to);
      && OwnedBy(st', own + {to})
      && Same(st, st', own)
      && Content(st', to) == Content(st, from)
  {
    var f := st.slots[from];
    if f.cmd.ProcessCmd? {
      ConstructOwns(st, own, to, f.cmd.ty, Content(st, from).value.code);
    } else {
      var st' := Copy(st, from, to);
      KeptBoxesKeepContents(st, st', own);
      OwnersGainEmpty(st'.slots, st.mem.live.Keys, own, to);
    }
  }
}
