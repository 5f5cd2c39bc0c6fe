/**
 The owning erasure as the object it is: fields that its members overwrite step by step, over
 a memory that all erasures share. Each member is proved against the machine of
 ErasureMachine, for any population `es` the object lives among, the object passed as
 argument included when it is the same one.
 */
module ErasureObject {
  import opened Prelude
  import opened ErasureLayout
  import opened ErasureMachine

  /** Boxes and heap blocks. */
  class Arena {
    const release: bool
    var boxes: seq<BoxRecord>
    var live: map<Ptr, nat>
    var frees: seq<nat>
    var fault: bool

    function Value(): Memory
      reads this
    {
      Memory(boxes, live, frees, fault)
    }

    constructor (release: bool)
      ensures Value() == Memory([], map[], [], false) && this.release == release
    {
      this.release := release;
      boxes, live, frees, fault := [], map[], [], false;
    }

    method New(p: Ptr, ty: BoxType, code: int)
      modifies this
      ensures Value() == NewBox(old(Value()), p, ty, code)
    {
      if p == Null || p in live {
        fault := true;
      } else {
        live := live[p := |boxes|];
        boxes := boxes + [BoxRecord(ty, Some(code), p, 0)];
      }
    }

    /** Reads the box out for a move; None if there is nothing to read. */
    method Extract(p: Ptr, ty: BoxType) returns (code: Option<int>)
      modifies this
      ensures code.Some? == Readable(old(Value()), p, ty)
      ensures code.Some? ==> code == old(boxes[live[p]].code) && Value() == MoveFrom(old(Value()), p, ty)
      ensures code == None ==> Value() == old(Value())
    {
      if p in live && live[p] < |boxes| && boxes[live[p]].ty == ty && boxes[live[p]].code.Some? {
        code := boxes[live[p]].code;
        boxes := boxes[live[p] := boxes[live[p]].(code := None)];
      } else {
        code := None;
      }
    }

    method End(p: Ptr, ty: BoxType)
      modifies this
      ensures Value() == EndBox(old(Value()), p, ty)
    {
      if p in live && live[p] < |boxes| && boxes[live[p]].ty == ty {
        boxes := boxes[live[p] := boxes[live[p]].(deaths := boxes[live[p]].deaths + 1)];
        live := live - {p};
      } else {
        fault := true;
      }
    }

    method AllocateBlock() returns (p: Ptr)
      modifies this
      ensures p == OnHeap(|old(frees)|) && Value() == Allocate(old(Value()))
    {
      p := OnHeap(|frees|);
      frees := frees + [0];
    }

    method FreeBlock(p: Ptr)
      modifies this
      ensures Value() == Free(old(Value()), p)
    {
      if p.OnHeap? && p.block < |frees| && p !in live {
        if frees[p.block] > 0 {
          fault := true;
        }
        frees := frees[p.block := frees[p.block] + 1];
      } else {
        fault := true;
      }
    }

    method Crash()
      modifies this
      ensures Value() == Fault(old(Value()))
    {
      fault := true;
    }
  }

  /** Different objects are at different addresses. */
  ghost predicate Apart(es: set<Erasure>) {
    forall e, f :: e in es && f in es && e.base == f.base ==> e == f
  }

  ghost function Bases(es: set<Erasure>): set<Addr> {
    set e | e in es :: e.base
  }

  /** The slots of the objects, by address. */
  ghost function Slots(es: set<Erasure>): (m: map<Addr, Slot>)
    requires Apart(es)
    reads es
    ensures forall e :: e in es ==> e.base in m && m[e.base] == e.Value()
    ensures m.Keys == Bases(es)
  {
    if es == {} then map[]
    else
      var e :| e in es;
      Slots(es - {e})[e.base := e.Value()]
  }

  /** The whole population as a state of the machine. */
  ghost function Snapshot(es: set<Erasure>, arena: Arena): State
    requires Apart(es)
    reads es, arena
  {
    State(Slots(es), arena.Value(), arena.release)
  }

  lemma OneMore(es: set<Erasure>, e: Erasure)
    requires Apart(es) && e !in es && forall f :: f in es ==> f.base != e.base
    ensures Apart(es + {e}) && Slots(es + {e}) == Slots(es)[e.base := e.Value()]
  {
    hide Slots;
  }

  lemma Overwrites(m: map<Addr, Slot>, a: Addr, s: Slot, s': Slot)
    ensures m[a := s][a := s'] == m[a := s']
  {
  }

  lemma ConstructIs(st: State, to: Addr, ty: BoxType, code: int)
    requires to in st.slots
    ensures var t, p := st.slots[to], OnHeap(|st.mem.frees|);
      Construct(st, to, ty, code) ==
      match InPlaceAddress(ty, to, t.capacity)
      case Some(at) =>
        State(st.slots[to := SetCmd(t, ProcessCmd(ty, true)).(word := Overwritten)],
              NewBox(st.mem, InBuffer(to, at), ty, code), st.release)
      case None =>
        State(st.slots[to := SetCmd(t, ProcessCmd(ty, false)).(word := Holds(p))],
              NewBox(Allocate(st.mem), p, ty, code), st.release)
  {
  }

  lemma ConvertMakeIs(st: State, a: Addr, capacity: nat, copyable: bool, from: Addr, tmp: Addr, copy: bool)
    requires from in st.slots
    ensures ConvertMake(st, a, capacity, copyable, from, tmp, copy) ==
              Unmake(Move(Begin(Argument(st, from, tmp, copy), a, capacity, copyable), tmp, a), tmp)
  {
    hide Argument, Move, Unmake;
  }

  class Erasure {
    const base: Addr
    const capacity: nat
    const copyable: bool

    // vtable
    var cmd: Cmd
    var thunk: Cmd
    // data_accessor
    var word: Word

    function Value(): Slot
      reads this
    {
      Slot(capacity, copyable, cmd, thunk, word)
    }

    method SetInPlace(ty: BoxType, ghost es: set<Erasure>)
      requires this in es && Apart(es)
      modifies this`cmd, this`thunk
      ensures Value() == SetCmd(old(Value()), ProcessCmd(ty, true))
      ensures Slots(es) == old(Slots(es))[base := Value()]
    {
      hide Slots;
      thunk := ProcessCmd(ty, true);
      cmd := ProcessCmd(ty, true);
    }

    method SetAllocated(ty: BoxType, ghost es: set<Erasure>)
      requires this in es && Apart(es)
      modifies this`cmd, this`thunk
      ensures Value() == SetCmd(old(Value()), ProcessCmd(ty, false))
      ensures Slots(es) == old(Slots(es))[base := Value()]
    {
      hide Slots;
      thunk := ProcessCmd(ty, false);
      cmd := ProcessCmd(ty, false);
    }

    method SetEmpty(ghost es: set<Erasure>)
      requires this in es && Apart(es)
      modifies this`cmd, this`thunk
      ensures Value() == SetCmd(old(Value()), EmptyCmd)
      ensures Slots(es) == old(Slots(es))[base := Value()]
    {
      hide Slots;
      thunk := EmptyCmd;
      cmd := EmptyCmd;
    }

    method SetWord(w: Word, ghost es: set<Erasure>)
      requires this in es && Apart(es)
      modifies this`word
      ensures Value() == old(Value()).(word := w)
      ensures Slots(es) == old(Slots(es))[base := Value()]
    {
      hide Slots;
      word := w;
    }

    function Pointer(ty: BoxType, inPlace: bool): Ptr
      reads this
    {
      Retrieve(Value(), base, ty, inPlace)
    }

    /** `trait::construct` with this erasure as the target. */
    method ConstructBox(ty: BoxType, code: int, arena: Arena, ghost es: set<Erasure>)
      requires this in es && Apart(es)
      modifies this, arena
      ensures Snapshot(es, arena) == Construct(old(Snapshot(es, arena)), base, ty, code)
    {
      hide Slots, Bases, InPlaceAddress, NewBox, Allocate, ConfigKept, Construct;
      var storage: Ptr;
      ghost var before := Slots(es);
      ConstructIs(Snapshot(es, arena), base, ty, code);
      var at := InPlaceAddress(ty, base, capacity);
      if at.Some? {
        storage := InBuffer(base, at.value);
        SetInPlace(ty, es);
        Overwrites(before, base, Value(), Value().(word := Overwritten));
        SetWord(Overwritten, es);
      } else {
        storage := arena.AllocateBlock();
        SetWord(Holds(storage), es);
        Overwrites(before, base, Value(), SetCmd(Value(), ProcessCmd(ty, false)));
        SetAllocated(ty, es);
      }
      assert Slots(es) == before[base := Value()];
      arena.New(storage, ty, code);
    }

    /** `op_move` of a boxed heap object: the pointer changes hands. */
    method HandOver(to: Erasure, ty: BoxType, arena: Arena, ghost es: set<Erasure>)
      requires this in es && to in es && Apart(es)
      modifies this, to
      ensures Snapshot(es, arena) == HandPointer(old(Snapshot(es, arena)), base, to.base, ty)
    {
      hide Slots, Bases;
      to.SetWord(word, es);
      if !arena.release {
        SetWord(Holds(Null), es);
      }
      to.SetAllocated(ty, es);
    }

    /** `op_move` of an object in the buffer: built anew at the target, then ended here. */
    method Rebuild(to: Erasure, ty: BoxType, code: int, arena: Arena, ghost es: set<Erasure>)
      requires this in es && to in es && Apart(es)
      modifies to, arena
      ensures var st := old(Snapshot(es, arena));
        var p := old(Pointer(ty, true));
        var built := Construct(st, to.base, ty, code);
        Snapshot(es, arena) == built.(mem := EndBox(built.mem, p, ty))
    {
      hide Slots, Bases, ConfigKept;
      var p := Pointer(ty, true);
      to.ConstructBox(ty, code, arena, es);
      arena.End(p, ty);
    }

    /** `op_move` of this erasure's command table, towards `to`. */
    method RunMove(to: Erasure, arena: Arena, ghost es: set<Erasure>)
      requires this in es && to in es && Apart(es)
      modifies this, to, arena
      ensures Snapshot(es, arena) == CmdMove(old(Snapshot(es, arena)), base, to.base)
    {
      hide Retrieve, HandPointer, EndBox, ConfigKept, Readable, Slots, Bases;
      match cmd
      case Indeterminate =>
        arena.Crash();
      case EmptyCmd =>
        to.SetEmpty(es);
      case ProcessCmd(ty, inPlace) =>
        var p := Pointer(ty, inPlace);
        if inPlace {
          var code := arena.Extract(p, ty);
          if code == None {
            arena.Crash();
          } else {
            Rebuild(to, ty, code.value, arena, es);
          }
        } else if p == Null {
          arena.Crash();
        } else {
          HandOver(to, ty, arena, es);
        }
    }

    /** `vtable::move`: runs the command, then leaves this erasure empty. */
    method MoveInto(to: Erasure, arena: Arena, ghost es: set<Erasure>)
      requires this in es && to in es && Apart(es)
      modifies this, to, arena
      ensures Snapshot(es, arena) == Move(old(Snapshot(es, arena)), base, to.base)
    {
      hide Slots, Bases, ConfigKept;
      RunMove(to, arena, es);
      SetEmpty(es);
    }

    /** `vtable::copy`. */
    method CopyInto(to: Erasure, arena: Arena, ghost es: set<Erasure>)
      requires this in es && to in es && Apart(es)
      modifies to, arena
      ensures Snapshot(es, arena) == Copy(old(Snapshot(es, arena)), base, to.base)
    {
      hide Slots, Bases, ConfigKept, Retrieve, Construct;
      match cmd
      case Indeterminate =>
        arena.Crash();
      case EmptyCmd =>
        to.SetEmpty(es);
      case ProcessCmd(ty, inPlace) =>
        var p := Pointer(ty, inPlace);
        if Readable(arena.Value(), p, ty) && ty.copyable {
          to.ConstructBox(ty, arena.boxes[arena.live[p]].code.value, arena, es);
        } else {
          arena.Crash();
        }
    }

    /** `op_weak_destroy` leaves the vtable as it is: whoever runs it must overwrite or drop it. */
    method WeakDestroyBox(arena: Arena, ghost es: set<Erasure>)
      requires this in es && Apart(es)
      modifies arena
      ensures Snapshot(es, arena) == WeakDestroy(old(Snapshot(es, arena)), base)
      ensures Slots(es) == old(Slots(es))
    {
      hide Slots, Bases, ConfigKept, Retrieve;
      match cmd
      case Indeterminate =>
        arena.Crash();
      case EmptyCmd =>
      case ProcessCmd(ty, inPlace) =>
        var p := Pointer(ty, inPlace);
        arena.End(p, ty);
        if !inPlace {
          arena.FreeBlock(p);
        }
    }

    constructor Empty(base: Addr, capacity: nat, copyable: bool, ghost es: set<Erasure>, arena: Arena)
      requires Apart(es) && forall e :: e in es ==> e.base != base
      ensures this !in es && Apart(es + {this}) && this.base == base
      ensures Snapshot(es + {this}, arena) == MakeEmpty(old(Snapshot(es, arena)), base, capacity, copyable)
    {
      this.base, this.capacity, this.copyable := base, capacity, copyable;
      cmd, thunk, word := EmptyCmd, EmptyCmd, Overwritten;
      new;
      hide Slots, Bases;
      OneMore(es, this);
    }

    /** Construction from a callable that may be null, as far as its own test can tell. */
    constructor Of(base: Addr, capacity: nat, copyable: bool, ty: BoxType, code: int, present: bool,
                   ghost es: set<Erasure>, arena: Arena)
      requires Apart(es) && forall e :: e in es ==> e.base != base
      modifies arena
      ensures this !in es && Apart(es + {this}) && this.base == base
      ensures present ==>
                Snapshot(es + {this}, arena) == Make(old(Snapshot(es, arena)), base, capacity, copyable, ty, code)
      ensures !present ==>
                Snapshot(es + {this}, arena) == MakeEmpty(old(Snapshot(es, arena)), base, capacity, copyable)
    {
      this.base, this.capacity, this.copyable := base, capacity, copyable;
      cmd, thunk, word := Indeterminate, Indeterminate, Overwritten;
      new;
      hide Slots, Bases;
      OneMore(es, this);
      assert Snapshot(es + {this}, arena) == Begin(old(Snapshot(es, arena)), base, capacity, copyable);
      Fill(ty, code, present, arena, es + {this});
    }

    /** The constructor's body, on storage that has just begun. */
    method Fill(ty: BoxType, code: int, present: bool, arena: Arena, ghost es: set<Erasure>)
      requires this in es && Apart(es)
      modifies this, arena
      ensures present ==> Snapshot(es, arena) == Construct(old(Snapshot(es, arena)), base, ty, code)
      ensures !present ==>
                Snapshot(es, arena) == WithSlot(old(Snapshot(es, arena)), base, SetCmd(old(Value()), EmptyCmd))
    {
      hide Slots, Bases, Construct;
      if present {
        ConstructBox(ty, code, arena, es);
      } else {
        SetEmpty(es);
      }
    }

    /** Move construction, from an erasure of this or of another capacity. */
    constructor MoveFrom(base: Addr, capacity: nat, copyable: bool, right: Erasure, ghost es: set<Erasure>, arena: Arena)
      requires Apart(es) && right in es && forall e :: e in es ==> e.base != base
      modifies right, arena
      ensures this !in es && Apart(es + {this}) && this.base == base
      ensures this.capacity == capacity && this.copyable == copyable
      ensures Snapshot(es + {this}, arena) ==
        MoveMake(old(Snapshot(es, arena)), base, capacity, copyable, right.base)
    {
      this.base, this.capacity, this.copyable := base, capacity, copyable;
      cmd, thunk, word := Indeterminate, Indeterminate, Overwritten;
      new;
      hide Slots, Bases;
      OneMore(es, this);
      right.MoveInto(this, arena, es + {this});
    }

    constructor CopyFrom(base: Addr, capacity: nat, copyable: bool, right: Erasure, ghost es: set<Erasure>, arena: Arena)
      requires Apart(es) && right in es && forall e :: e in es ==> e.base != base
      modifies arena
      ensures this !in es && Apart(es + {this}) && this.base == base
      ensures Snapshot(es + {this}, arena) ==
        CopyMake(old(Snapshot(es, arena)), base, capacity, copyable, right.base)
    {
      this.base, this.capacity, this.copyable := base, capacity, copyable;
      cmd, thunk, word := Indeterminate, Indeterminate, Overwritten;
      new;
      hide Slots, Bases;
      OneMore(es, this);
      right.CopyInto(this, arena, es + {this});
    }

    /** The by-value argument of the converting members. */
    static method MakeArgument(right: Erasure, tmp: Addr, copy: bool, arena: Arena, ghost es: set<Erasure>)
      returns (argument: Erasure)
      requires right in es && Apart(es) && forall e :: e in es ==> e.base != tmp
      modifies right, arena
      ensures fresh(argument) && argument !in es && Apart(es + {argument}) && argument.base == tmp
      ensures Snapshot(es + {argument}, arena) == Argument(old(Snapshot(es, arena)), right.base, tmp, copy)
    {
      if copy {
        argument := new Erasure.CopyFrom(tmp, right.capacity, right.copyable, right, es, arena);
      } else {
        argument := new Erasure.MoveFrom(tmp, right.capacity, right.copyable, right, es, arena);
      }
    }

    /** A temporary gives its callable to `to` and is destroyed. */
    method PassOn(to: Erasure, arena: Arena, ghost es: set<Erasure>)
      requires this in es && to in es && Apart(es)
      modifies this, to, arena
      ensures Snapshot(es - {this}, arena) == Unmake(Move(old(Snapshot(es, arena)), base, to.base), base)
    {
      MoveInto(to, arena, es);
      Destroy(arena, es);
    }

    /** Construction from an erasure of another capacity, whose argument is taken by value. */
    constructor ConvertFrom(base: Addr, capacity: nat, copyable: bool, right: Erasure, tmp: Addr, copy: bool,
                            ghost es: set<Erasure>, arena: Arena)
      requires Apart(es) && right in es && base != tmp && forall e :: e in es ==> e.base != base && e.base != tmp
      modifies right, arena
      ensures this !in es && Apart(es + {this}) && this.base == base
      ensures Snapshot(es + {this}, arena) ==
        ConvertMake(old(Snapshot(es, arena)), base, capacity, copyable, right.base, tmp, copy)
    {
      this.base, this.capacity, this.copyable := base, capacity, copyable;
      cmd, thunk, word := Indeterminate, Indeterminate, Overwritten;
      new;
      hide Argument, Move, Unmake, ConfigKept, Slots, Bases, ConvertMake;
      ConvertMakeIs(Snapshot(es, arena), base, capacity, copyable, right.base, tmp, copy);
      var argument := MakeArgument(right, tmp, copy, arena, es);
      ghost var es', st := es + {argument}, Snapshot(es + {argument}, arena);
      OneMore(es', this);
      assert Snapshot(es' + {this}, arena) == Begin(st, base, capacity, copyable);
      hide Begin;
      assert es' + {this} - {argument} == es + {this};
      argument.PassOn(this, arena, es' + {this});
    }

    /** The destructor: afterwards the object is no longer part of the population. */
    method Destroy(arena: Arena, ghost es: set<Erasure>)
      requires this in es && Apart(es)
      modifies arena
      ensures Snapshot(es - {this}, arena) == Unmake(old(Snapshot(es, arena)), base)
    {
      hide Slots, ConfigKept, WeakDestroy;
      WeakDestroyBox(arena, es);
      assert Slots(es - {this}) == Slots(es) - {base};
    }

    /** `operator=(nullptr)`. */
    method Clear(arena: Arena, ghost es: set<Erasure>)
      requires this in es && Apart(es)
      modifies this, arena
      ensures Snapshot(es, arena) == StrongDestroy(old(Snapshot(es, arena)), base)
    {
      hide Slots, Bases, ConfigKept, Retrieve;
      WeakDestroyBox(arena, es);
      if cmd.ProcessCmd? {
        SetEmpty(es);
      }
    }

    /** `operator=(erasure&&)`, which does not check whether `right` is this object. */
    method AssignMoved(right: Erasure, arena: Arena, ghost es: set<Erasure>)
      requires this in es && right in es && Apart(es)
      modifies this, right, arena
      ensures Snapshot(es, arena) == MoveAssign(old(Snapshot(es, arena)), base, right.base)
    {
      hide Slots, Bases, ConfigKept;
      WeakDestroyBox(arena, es);
      right.MoveInto(this, arena, es);
    }

    method AssignCopied(right: Erasure, arena: Arena, ghost es: set<Erasure>)
      requires this in es && right in es && Apart(es)
      modifies this, arena
      ensures Snapshot(es, arena) == CopyAssign(old(Snapshot(es, arena)), base, right.base)
    {
      hide Slots, Bases, ConfigKept;
      WeakDestroyBox(arena, es);
      right.CopyInto(this, arena, es);
    }

    /** `assign`: a null callable clears, any other one replaces what was there. */
    method AssignCallable(ty: BoxType, code: int, present: bool, arena: Arena, ghost es: set<Erasure>)
      requires this in es && Apart(es)
      modifies this, arena
      ensures var st := old(Snapshot(es, arena));
        Snapshot(es, arena) == if present then Assign(st, base, ty, code) else StrongDestroy(st, base)
    {
      hide Slots, Bases, ConfigKept;
      if present {
        WeakDestroyBox(arena, es);
        ConstructBox(ty, code, arena, es);
      } else {
        Clear(arena, es);
      }
    }

    /** `operator=` from an erasure of another capacity, whose argument is taken by value. */
    method AssignConverted(right: Erasure, tmp: Addr, copy: bool, arena: Arena, ghost es: set<Erasure>)
      requires this in es && right in es && Apart(es) && forall e :: e in es ==> e.base != tmp
      modifies this, right, arena
      ensures Snapshot(es, arena) == ConvertAssign(old(Snapshot(es, arena)), base, right.base, tmp, copy)
    {
      hide Argument, MoveAssign, Unmake, ConfigKept, Slots, Bases;
      var argument := MakeArgument(right, tmp, copy, arena, es);
      ghost var es' := es + {argument};
      AssignMoved(argument, arena, es');
      argument.Destroy(arena, es');
      assert es' - {argument} == es;
    }

    /** `function::swap`. */
    method SwapWith(other: Erasure, cacheAt: Addr, arena: Arena, ghost es: set<Erasure>)
      requires this in es && other in es && Apart(es) && forall e :: e in es ==> e.base != cacheAt
      modifies this, other, arena
      ensures Snapshot(es, arena) == Swap(old(Snapshot(es, arena)), base, other.base, cacheAt)
    {
      hide MoveAssign, MoveMake, Unmake, ConfigKept, Slots, Bases;
      if other == this {
        return;
      }
      var cache := new Erasure.MoveFrom(cacheAt, other.capacity, other.copyable, other, es, arena);
      ghost var es' := es + {cache};
      other.AssignMoved(this, arena, es');
      AssignMoved(cache, arena, es');
      cache.Destroy(arena, es');
      assert es' - {cache} == es;
    }

    /** `empty()`, by way of the command table. */
    method IsEmpty(arena: Arena, ghost es: set<Erasure>) returns (empty: Option<bool>)
      requires this in es && Apart(es)
      ensures empty == FetchEmpty(Snapshot(es, arena), base)
    {
      match cmd
      case Indeterminate => empty := None;
      case EmptyCmd => empty := Some(true);
      case ProcessCmd(_, _) => empty := Some(false);
    }

    /** The call operator, by way of the thunk. */
    method Call(isThrowing: bool, arena: Arena, ghost es: set<Erasure>) returns (r: Outcome)
      requires this in es && Apart(es)
      ensures r == Invoke(Snapshot(es, arena), base, isThrowing)
    {
      match thunk
      case Indeterminate => r := Undefined;
      case EmptyCmd => r := if isThrowing then BadFunctionCall else Aborted;
      case ProcessCmd(ty, inPlace) =>
        var p := Pointer(ty, inPlace);
        if Readable(arena.Value(), p, ty) {
          r := Called(ty, arena.boxes[arena.live[p]].code.value);
        } else {
          r := Undefined;
        }
    }
  }
}
