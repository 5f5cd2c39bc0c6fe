/**
 Whole runs of operations on a population of owning erasures: each operation keeps the
 ownership invariant, and what users see is a map from erasures to optional callables.
 */
module ErasureRuns {
  import opened Prelude
  import opened ErasureLayout
  import opened ErasureMachine
  import opened ErasureSafety

  // Single operations

  lemma BeginKeeps(st: State, own: set<Addr>, a: Addr, capacity: nat, copyable: bool)
    requires OwnedBy(st, own) && a !in st.slots
    ensures var st' := Begin(st, a, capacity, copyable);
      && OwnedBy(st', own) && Same(st, st', own)
  {
    var st' := Begin(st, a, capacity, copyable);
    KeptBoxesKeepContents(st, st', own);
    OwnersStay(st.slots, st.mem.live.Keys, own, st'.slots);
  }

  /** `set_empty` on a slot that owns nothing. */
  lemma SetEmptyOwns(st: State, own: set<Addr>, a: Addr)
    requires OwnedBy(st, own) && a in st.slots && a !in own
    ensures var st' := WithSlot(st, a, SetCmd(st.slots[a], EmptyCmd));
      && OwnedBy(st', own + {a}) && Same(st, st', own) && SlotOk(st', a)
  {
    hide MemoryOk, Covered, Unshared;
    var st' := WithSlot(st, a, SetCmd(st.slots[a], EmptyCmd));
    KeptBoxesKeepContents(st, st', own);
    OwnersStay(st.slots, st.mem.live.Keys, own, st'.slots);
    OwnersGainEmpty(st'.slots, st.mem.live.Keys, own, a);
  }

  lemma MakeEmptyKeeps(st: State, a: Addr, capacity: nat, copyable: bool)
    requires Inv(st) && a !in st.slots
    ensures var st' := MakeEmpty(st, a, capacity, copyable);
      && Inv(st') && st'.slots.Keys == st.slots.Keys + {a}
      && Same(st, st', st.slots.Keys) && Content(st', a) == None
  {
    hide MemoryOk, Covered, Unshared;
    BeginKeeps(st, st.slots.Keys, a, capacity, copyable);
    SetEmptyOwns(Begin(st, a, capacity, copyable), st.slots.Keys, a);
    assert MakeEmpty(st, a, capacity, copyable).slots.Keys == st.slots.Keys + {a};
  }

  lemma MakeKeeps(st: State, a: Addr, capacity: nat, copyable: bool, ty: BoxType, code: int)
    requires Inv(st) && a !in st.slots && (copyable ==> ty.copyable)
    ensures var st' := Make(st, a, capacity, copyable, ty, code);
      && Inv(st') && st'.slots.Keys == st.slots.Keys + {a}
      && Same(st, st', st.slots.Keys) && Content(st', a) == Some(Target(ty, code))
  {
    BeginKeeps(st, st.slots.Keys, a, capacity, copyable);
    ConstructOwns(Begin(st, a, capacity, copyable), st.slots.Keys, a, ty, code);
  }

  lemma MoveMakeKeeps(st: State, a: Addr, capacity: nat, copyable: bool, from: Addr)
    requires Inv(st) && a !in st.slots && from in st.slots
    requires copyable ==> st.slots[from].copyable
    ensures var st' := MoveMake(st, a, capacity, copyable, from);
      && Inv(st') && st'.slots.Keys == st.slots.Keys + {a}
      && Same(st, st', st.slots.Keys - {from})
      && Content(st', a) == Content(st, from) && Content(st', from) == None
      && st'.slots[a].copyable == copyable && ConfigKept(Begin(st, a, capacity, copyable), st')
  {
    BeginKeeps(st, st.slots.Keys, a, capacity, copyable);
    MoveHandsOver(Begin(st, a, capacity, copyable), st.slots.Keys, from, a);
  }

  lemma CopyMakeKeeps(st: State, a: Addr, capacity: nat, copyable: bool, from: Addr)
    requires Inv(st) && a !in st.slots && from in st.slots && st.slots[from].copyable
    ensures var st' := CopyMake(st, a, capacity, copyable, from);
      && Inv(st') && st'.slots.Keys == st.slots.Keys + {a}
      && Same(st, st', st.slots.Keys)
      && Content(st', a) == Content(st, from)
      && ConfigKept(Begin(st, a, capacity, copyable), st')
  {
    BeginKeeps(st, st.slots.Keys, a, capacity, copyable);
    CopyDuplicates(Begin(st, a, capacity, copyable), st.slots.Keys, from, a);
  }

  lemma UnmakeKeeps(st: State, a: Addr)
    requires Inv(st) && a in st.slots
    ensures var st' := Unmake(st, a);
      && Inv(st') && st'.slots.Keys == st.slots.Keys - {a}
      && Same(st, st', st.slots.Keys - {a})
      && forall b :: b in st'.slots ==> st'.slots[b] == st.slots[b]
  {
    WeakDestroyReleases(st, st.slots.Keys, a);
    var gone := WeakDestroy(st, a);
    var st' := Unmake(st, a);
    KeptBoxesKeepContents(gone, st', st'.slots.Keys);
    OwnersStay(gone.slots, gone.mem.live.Keys, st'.slots.Keys, st'.slots);
  }

  lemma ClearKeeps(st: State, a: Addr)
    requires Inv(st) && a in st.slots
    ensures var st' := StrongDestroy(st, a);
      && Inv(st') && ConfigKept(st, st')
      && Same(st, st', st.slots.Keys - {a}) && Content(st', a) == None
  {
    hide MemoryOk, Covered, Unshared;
    var gone, own := WeakDestroy(st, a), st.slots.Keys - {a};
    WeakDestroyReleases(st, st.slots.Keys, a);
    SetEmptyOwns(gone, own, a);
    assert StrongDestroy(st, a) == WithSlot(gone, a, SetCmd(gone.slots[a], EmptyCmd));
    assert own + {a} == st.slots.Keys == StrongDestroy(st, a).slots.Keys;
  }

  lemma MoveAssignKeeps(st: State, a: Addr, from: Addr)
    requires Inv(st) && a in st.slots && from in st.slots && a != from
    requires st.slots[a].copyable ==> st.slots[from].copyable
    ensures var st' := MoveAssign(st, a, from);
      && Inv(st') && ConfigKept(st, st')
      && Same(st, st', st.slots.Keys - {a, from})
      && Content(st', a) == Content(st, from) && Content(st', from) == None
  {
    var own := st.slots.Keys - {a};
    WeakDestroyReleases(st, st.slots.Keys, a);
    MoveHandsOver(WeakDestroy(st, a), own, from, a);
    assert own + {a} == st.slots.Keys;
  }

  lemma CopyAssignKeeps(st: State, a: Addr, from: Addr)
    requires Inv(st) && a in st.slots && from in st.slots && a != from && st.slots[from].copyable
    ensures var st' := CopyAssign(st, a, from);
      && Inv(st') && ConfigKept(st, st')
      && Same(st, st', st.slots.Keys - {a})
      && Content(st', a) == Content(st, from)
  {
    var own := st.slots.Keys - {a};
    WeakDestroyReleases(st, st.slots.Keys, a);
    CopyDuplicates(WeakDestroy(st, a), own, from, a);
    assert own + {a} == st.slots.Keys;
  }

  lemma AssignKeeps(st: State, a: Addr, ty: BoxType, code: int)
    requires Inv(st) && a in st.slots && (st.slots[a].copyable ==> ty.copyable)
    ensures var st' := Assign(st, a, ty, code);
      && Inv(st') && ConfigKept(st, st')
      && Same(st, st', st.slots.Keys - {a})
      && Content(st', a) == Some(Target(ty, code))
  {
    var own := st.slots.Keys - {a};
    WeakDestroyReleases(st, st.slots.Keys, a);
    ConstructOwns(WeakDestroy(st, a), own, a, ty, code);
    assert own + {a} == st.slots.Keys;
  }

  lemma ArgumentKeeps(st: State, from: Addr, tmp: Addr, copy: bool)
    requires Inv(st) && from in st.slots && tmp !in st.slots
    requires copy ==> st.slots[from].copyable
    ensures var st' := Argument(st, from, tmp, copy);
      && Inv(st') && st'.slots.Keys == st.slots.Keys + {tmp}
      && Same(st, st', st.slots.Keys - {from})
      && Content(st', tmp) == Content(st, from)
      && Content(st', from) == (if copy then Content(st, from) else None)
      && st'.slots[tmp].copyable == st.slots[from].copyable
      && (forall b :: b in st.slots ==> st'.slots[b].copyable == st.slots[b].copyable)
  {
    var f := st.slots[from];
    if copy {
      CopyMakeKeeps(st, tmp, f.capacity, f.copyable, from);
    } else {
      MoveMakeKeeps(st, tmp, f.capacity, f.copyable, from);
    }
  }

  lemma ConvertMakeKeeps(st: State, a: Addr, capacity: nat, copyable: bool, from: Addr, tmp: Addr, copy: bool)
    requires Inv(st) && from in st.slots && a !in st.slots && tmp !in st.slots && a != tmp
    requires copyable || copy ==> st.slots[from].copyable
    ensures var st' := ConvertMake(st, a, capacity, copyable, from, tmp, copy);
      && Inv(st') && st'.slots.Keys == st.slots.Keys + {a}
      && Same(st, st', st.slots.Keys - {from})
      && Content(st', a) == Content(st, from)
      && Content(st', from) == (if copy then Content(st, from) else None)
  {
    hide OwnedBy, SlotOk, Content, Argument, MoveMake, Unmake, ConfigKept, Begin;
    ArgumentKeeps(st, from, tmp, copy);
    var made := Argument(st, from, tmp, copy);
    MoveMakeKeeps(made, a, capacity, copyable, tmp);
    UnmakeKeeps(MoveMake(made, a, capacity, copyable, tmp), tmp);
  }

  lemma ConvertAssignKeeps(st: State, a: Addr, from: Addr, tmp: Addr, copy: bool)
    requires Inv(st) && a in st.slots && from in st.slots && tmp !in st.slots && a != from
    requires st.slots[a].copyable || copy ==> st.slots[from].copyable
    ensures var st' := ConvertAssign(st, a, from, tmp, copy);
      && Inv(st') && st'.slots.Keys == st.slots.Keys
      && Same(st, st', st.slots.Keys - {a, from})
      && Content(st', a) == Content(st, from)
      && Content(st', from) == (if copy then Content(st, from) else None)
  {
    hide OwnedBy, SlotOk, Content, Argument, MoveAssign, Unmake, ConfigKept, Begin;
    ArgumentKeeps(st, from, tmp, copy);
    var made := Argument(st, from, tmp, copy);
    MoveAssignKeeps(made, a, tmp);
    UnmakeKeeps(MoveAssign(made, a, tmp), tmp);
  }

  /** The three moves inside `swap`. */
  lemma SwapMoves(st: State, a: Addr, b: Addr, cache: Addr)
    requires Inv(st) && a in st.slots && b in st.slots && cache !in st.slots && a != b
    requires st.slots[a].copyable == st.slots[b].copyable
    ensures var s1 := MoveMake(st, cache, st.slots[b].capacity, st.slots[b].copyable, b);
      var s3 := MoveAssign(MoveAssign(s1, b, a), a, cache);
      && Inv(s3) && s3.slots.Keys == st.slots.Keys + {cache}
      && Same(st, s3, st.slots.Keys - {a, b})
      && Content(s3, a) == Content(st, b) && Content(s3, b) == Content(st, a)
  {
    hide MemoryOk, Covered, Unshared, SlotOk, Content, MoveMake, MoveAssign;
    MoveMakeKeeps(st, cache, st.slots[b].capacity, st.slots[b].copyable, b);
    var s1 := MoveMake(st, cache, st.slots[b].capacity, st.slots[b].copyable, b);
    MoveAssignKeeps(s1, b, a);
    MoveAssignKeeps(MoveAssign(s1, b, a), a, cache);
  }

  lemma SwapKeeps(st: State, a: Addr, b: Addr, cache: Addr)
    requires Inv(st) && a in st.slots && b in st.slots && cache !in st.slots
    requires st.slots[a].copyable == st.slots[b].copyable
    ensures var st' := Swap(st, a, b, cache);
      && Inv(st') && st'.slots.Keys == st.slots.Keys
      && Same(st, st', st.slots.Keys - {a, b})
      && Content(st', a) == Content(st, b) && Content(st', b) == Content(st, a)
  {
    hide MemoryOk, Covered, Unshared, SlotOk, Content, MoveMake, MoveAssign, Unmake;
    if a != b {
      SwapMoves(st, a, b, cache);
      var s1 := MoveMake(st, cache, st.slots[b].capacity, st.slots[b].copyable, b);
      var s3 := MoveAssign(MoveAssign(s1, b, a), a, cache);
      UnmakeKeeps(s3, cache);
      SameThenSame(st, s3, Unmake(s3, cache), st.slots.Keys - {a, b}, s3.slots.Keys - {cache});
    }
  }

  // Runs

  /**
   A member call of the owning `function`, with the addresses its temporaries get. `present`
   is what the callable's own test against null says (true for callables without one).
   */
  datatype Op =
    | OpMakeEmpty(a: Addr, capacity: nat, copyable: bool)
    | OpMake(a: Addr, capacity: nat, copyable: bool, ty: BoxType, code: int, present: bool)
    | OpMoveMake(a: Addr, from: Addr)
    | OpCopyMake(a: Addr, from: Addr)
    | OpConvertMake(a: Addr, capacity: nat, copyable: bool, from: Addr, tmp: Addr, copy: bool)
    | OpMoveTo(a: Addr, from: Addr)
    | OpCopyTo(a: Addr, from: Addr)
    | OpConvertTo(a: Addr, from: Addr, tmp: Addr, copy: bool)
    | OpAssign(a: Addr, ty: BoxType, code: int, present: bool)
    | OpClear(a: Addr)
    | OpSwap(a: Addr, b: Addr, cache: Addr)
    | OpDestroy(a: Addr)

  predicate SameType(st: State, a: Addr, b: Addr)
    requires a in st.slots && b in st.slots
  {
    st.slots[a].capacity == st.slots[b].capacity && st.slots[a].copyable == st.slots[b].copyable
  }

  /**
   What the C++ type system and object lifetimes ask of a caller, and that an assignment is
   not from the object itself: `erasure` does not guard against that.
   */
  predicate Legal(st: State, op: Op) {
    match op
    case OpMakeEmpty(a, _, _) => a !in st.slots
    case OpMake(a, _, copyable, ty, _, _) => a !in st.slots && (copyable ==> ty.copyable)
    case OpMoveMake(a, from) => a !in st.slots && from in st.slots
    case OpCopyMake(a, from) => a !in st.slots && from in st.slots && st.slots[from].copyable
    case OpConvertMake(a, _, copyable, from, tmp, copy) =>
      && a !in st.slots && tmp !in st.slots && a != tmp && from in st.slots
      && (copyable || copy ==> st.slots[from].copyable)
    case OpMoveTo(a, from) => a in st.slots && from in st.slots && a != from && SameType(st, a, from)
    case OpCopyTo(a, from) =>
      a in st.slots && from in st.slots && a != from && SameType(st, a, from) && st.slots[from].copyable
    case OpConvertTo(a, from, tmp, copy) =>
      && a in st.slots && tmp !in st.slots && from in st.slots && a != from
      && (st.slots[a].copyable || copy ==> st.slots[from].copyable)
    case OpAssign(a, ty, _, _) => a in st.slots && (st.slots[a].copyable ==> ty.copyable)
    case OpClear(a) => a in st.slots
    case OpSwap(a, b, cache) => a in st.slots && b in st.slots && cache !in st.slots && SameType(st, a, b)
    case OpDestroy(a) => a in st.slots
  }

  function Step(st: State, op: Op): State
    requires Legal(st, op)
  {
    match op
    case OpMakeEmpty(a, capacity, copyable) => MakeEmpty(st, a, capacity, copyable)
    case OpMake(a, capacity, copyable, ty, code, present) =>
      if present then Make(st, a, capacity, copyable, ty, code) else MakeEmpty(st, a, capacity, copyable)
    case OpMoveMake(a, from) => MoveMake(st, a, st.slots[from].capacity, st.slots[from].copyable, from)
    case OpCopyMake(a, from) => CopyMake(st, a, st.slots[from].capacity, st.slots[from].copyable, from)
    case OpConvertMake(a, capacity, copyable, from, tmp, copy) => ConvertMake(st, a, capacity, copyable, from, tmp, copy)
    case OpMoveTo(a, from) => MoveAssign(st, a, from)
    case OpCopyTo(a, from) => CopyAssign(st, a, from)
    case OpConvertTo(a, from, tmp, copy) => ConvertAssign(st, a, from, tmp, copy)
    case OpAssign(a, ty, code, present) => if present then Assign(st, a, ty, code) else StrongDestroy(st, a)
    case OpClear(a) => StrongDestroy(st, a)
    case OpSwap(a, b, cache) => Swap(st, a, b, cache)
    case OpDestroy(a) => Unmake(st, a)
  }

  /** The population as its users see it: an optional callable per erasure. */
  type View = map<Addr, Option<Target>>

  ghost function ViewOn(st: State, own: set<Addr>): (v: View)
    requires own <= st.slots.Keys && forall a :: a in own ==> SlotOk(st, a)
    ensures v.Keys == own
    ensures forall a :: a in own ==> v[a] == Content(st, a)
  {
    if own == {} then map[]
    else
      var a :| a in own;
      ViewOn(st, own - {a})[a := Content(st, a)]
  }

  ghost function ViewOf(st: State): (v: View)
    requires Inv(st)
    ensures v.Keys == st.slots.Keys
    ensures forall a :: a in st.slots ==> v[a] == Content(st, a)
  {
    ViewOn(st, st.slots.Keys)
  }

  /** `a` gets what `from` holds; unless it is a copy, `from` is left with nothing. */
  function Take(v: View, a: Addr, from: Addr, copy: bool): View {
    if from !in v then v
    else if copy then v[a := v[from]]
    else v[from := None][a := v[from]]
  }

  function Put(v: View, a: Addr, ty: BoxType, code: int, present: bool): View {
    v[a := if present then Some(Target(ty, code)) else None]
  }

  function Exchange(v: View, a: Addr, b: Addr): View {
    if a in v && b in v then v[a := v[b]][b := v[a]] else v
  }

  /** The same operations on optional callables, with no storage at all. */
  function ViewStep(v: View, op: Op): View {
    match op
    case OpMakeEmpty(a, _, _) => v[a := None]
    case OpMake(a, _, _, ty, code, present) => Put(v, a, ty, code, present)
    case OpMoveMake(a, from) => Take(v, a, from, false)
    case OpCopyMake(a, from) => Take(v, a, from, true)
    case OpConvertMake(a, _, _, from, _, copy) => Take(v, a, from, copy)
    case OpMoveTo(a, from) => Take(v, a, from, false)
    case OpCopyTo(a, from) => Take(v, a, from, true)
    case OpConvertTo(a, from, _, copy) => Take(v, a, from, copy)
    case OpAssign(a, ty, code, present) => Put(v, a, ty, code, present)
    case OpClear(a) => v[a := None]
    case OpSwap(a, b, _) => Exchange(v, a, b)
    case OpDestroy(a) => v - {a}
  }

  lemma PutShows(st: State, st': State, a: Addr, ty: BoxType, code: int, present: bool)
    requires Inv(st) && Inv(st') && st'.slots.Keys == st.slots.Keys + {a}
    requires Same(st, st', st.slots.Keys - {a})
    requires Content(st', a) == if present then Some(Target(ty, code)) else None
    ensures ViewOf(st') == Put(ViewOf(st), a, ty, code, present)
  {
    hide MemoryOk, Covered, Unshared, SlotOk, Content;
  }

  lemma TakeShows(st: State, st': State, a: Addr, from: Addr, copy: bool)
    requires Inv(st) && Inv(st') && from in st.slots && st'.slots.Keys == st.slots.Keys + {a} && a != from
    requires Same(st, st', st.slots.Keys - {a, from})
    requires Content(st', a) == Content(st, from)
    requires Content(st', from) == if copy then Content(st, from) else None
    ensures ViewOf(st') == Take(ViewOf(st), a, from, copy)
  {
    hide MemoryOk, Covered, Unshared, SlotOk, Content;
  }

  lemma ExchangeShows(st: State, st': State, a: Addr, b: Addr)
    requires Inv(st) && Inv(st') && a in st.slots && b in st.slots && st'.slots.Keys == st.slots.Keys
    requires Same(st, st', st.slots.Keys - {a, b})
    requires Content(st', a) == Content(st, b) && Content(st', b) == Content(st, a)
    ensures ViewOf(st') == Exchange(ViewOf(st), a, b)
  {
    hide MemoryOk, Covered, Unshared, SlotOk, Content;
  }

  lemma RemovalShows(st: State, st': State, a: Addr)
    requires Inv(st) && Inv(st') && st'.slots.Keys == st.slots.Keys - {a}
    requires Same(st, st', st.slots.Keys - {a})
    ensures ViewOf(st') == ViewOf(st) - {a}
  {
    hide MemoryOk, Covered, Unshared, SlotOk, Content;
  }

  lemma ClearShows(st: State, st': State, a: Addr)
    requires Inv(st) && Inv(st') && st'.slots.Keys == st.slots.Keys + {a}
    requires Same(st, st', st.slots.Keys - {a}) && Content(st', a) == None
    ensures ViewOf(st') == ViewOf(st)[a := None]
  {
    hide MemoryOk, Covered, Unshared, SlotOk, Content;
  }

  /** Every constructor keeps the ownership invariant and shows the right contents. */
  lemma ConstructorRefines(st: State, op: Op)
    requires Inv(st) && Legal(st, op)
    requires op.OpMakeEmpty? || op.OpMake? || op.OpMoveMake? || op.OpCopyMake? || op.OpConvertMake?
    ensures Inv(Step(st, op)) && ViewOf(Step(st, op)) == ViewStep(ViewOf(st), op)
  {
    hide OwnedBy, SlotOk, Content, ViewOf, ConfigKept, Begin, MakeEmpty, Make, MoveMake, CopyMake, ConvertMake, Put, Take;
    var st', v := Step(st, op), ViewOf(st);
    match op
    case OpMakeEmpty(a, capacity, copyable) =>
      MakeEmptyKeeps(st, a, capacity, copyable);
      ClearShows(st, st', a);
    case OpMake(a, capacity, copyable, ty, code, present) =>
      if present {
        MakeKeeps(st, a, capacity, copyable, ty, code);
      } else {
        MakeEmptyKeeps(st, a, capacity, copyable);
      }
      PutShows(st, st', a, ty, code, present);
    case OpMoveMake(a, from) =>
      MoveMakeKeeps(st, a, st.slots[from].capacity, st.slots[from].copyable, from);
      TakeShows(st, st', a, from, false);
    case OpCopyMake(a, from) =>
      CopyMakeKeeps(st, a, st.slots[from].capacity, st.slots[from].copyable, from);
      TakeShows(st, st', a, from, true);
    case OpConvertMake(a, capacity, copyable, from, tmp, copy) =>
      ConvertMakeKeeps(st, a, capacity, copyable, from, tmp, copy);
      TakeShows(st, st', a, from, copy);
  }

  /** So does every assignment, `swap` and the destructor. */
  lemma AssignmentRefines(st: State, op: Op)
    requires Inv(st) && Legal(st, op)
    requires op.OpMoveTo? || op.OpCopyTo? || op.OpConvertTo? || op.OpAssign? || op.OpClear? || op.OpSwap? || op.OpDestroy?
    ensures Inv(Step(st, op)) && ViewOf(Step(st, op)) == ViewStep(ViewOf(st), op)
  {
    hide OwnedBy, SlotOk, Content, ViewOf, MoveAssign, CopyAssign, ConvertAssign, Assign, StrongDestroy, Swap, Unmake, Put, Take, Exchange;
    var st', v := Step(st, op), ViewOf(st);
    match op
    case OpMoveTo(a, from) =>
      MoveAssignKeeps(st, a, from);
      TakeShows(st, st', a, from, false);
    case OpCopyTo(a, from) =>
      CopyAssignKeeps(st, a, from);
      TakeShows(st, st', a, from, true);
    case OpConvertTo(a, from, tmp, copy) =>
      ConvertAssignKeeps(st, a, from, tmp, copy);
      TakeShows(st, st', a, from, copy);
    case OpAssign(a, ty, code, present) =>
      if present {
        AssignKeeps(st, a, ty, code);
      } else {
        ClearKeeps(st, a);
      }
      PutShows(st, st', a, ty, code, present);
    case OpClear(a) =>
      ClearKeeps(st, a);
      ClearShows(st, st', a);
    case OpSwap(a, b, cache) =>
      SwapKeeps(st, a, b, cache);
      ExchangeShows(st, st', a, b);
    case OpDestroy(a) =>
      UnmakeKeeps(st, a);
      RemovalShows(st, st', a);
  }

  /**
   Every operation keeps the ownership invariant, and does to the optional callables exactly
   what its name says.
   */
  lemma StepRefines(st: State, op: Op)
    requires Inv(st) && Legal(st, op)
    ensures Inv(Step(st, op)) && ViewOf(Step(st, op)) == ViewStep(ViewOf(st), op)
  {
    hide Inv, Legal, Step, ViewStep;
    if op.OpMakeEmpty? || op.OpMake? || op.OpMoveMake? || op.OpCopyMake? || op.OpConvertMake? {
      ConstructorRefines(st, op);
    } else {
      AssignmentRefines(st, op);
    }
  }

  predicate LegalRun(st: State, ops: seq<Op>)
    decreases |ops|
  {
    ops == [] || (Legal(st, ops[0]) && LegalRun(Step(st, ops[0]), ops[1..]))
  }

  function Run(st: State, ops: seq<Op>): State
    requires LegalRun(st, ops)
    decreases |ops|
  {
    if ops == [] then st else Run(Step(st, ops[0]), ops[1..])
  }

  function ViewRun(v: View, ops: seq<Op>): View
    decreases |ops|
  {
    if ops == [] then v else ViewRun(ViewStep(v, ops[0]), ops[1..])
  }

  /** No run of legal operations ever faults, and users only ever see optional callables. */
  lemma {:induction false} RunRefines(st: State, ops: seq<Op>)
    requires Inv(st) && LegalRun(st, ops)
    ensures Inv(Run(st, ops)) && ViewOf(Run(st, ops)) == ViewRun(ViewOf(st), ops)
    decreases |ops|
  {
    hide Inv, Legal, Step, ViewStep;
    if ops != [] {
      StepRefines(st, ops[0]);
      RunRefines(Step(st, ops[0]), ops[1..]);
    }
  }
}
