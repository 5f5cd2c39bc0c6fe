/** Where callables are kept and what keeping them costs: blocks allocated and boxes built. */
module ErasureStorage {
  import opened Prelude
  import opened ErasureLayout
  import opened ErasureMachine
  import opened ErasureSafety
  import opened ErasureRuns
  import opened ErasureTheorems

  /** What an erasure has: nothing, a box in its buffer, or a box in a heap block. */
  datatype Holding = Vacant | Buffered(ty: BoxType) | Boxed(ty: BoxType, block: nat)

  datatype Place = Place(capacity: nat, copyable: bool, holding: Holding)

  /** All erasures, and how many blocks were ever allocated and boxes ever built. */
  datatype Ledger = Ledger(places: map<Addr, Place>, blocks: nat, built: nat)

  // The account of an operation, in terms of nothing but room in buffers

  /** Some aligned address leaves enough room in the buffer. */
  ghost predicate HasRoom(ty: BoxType, base: Addr, capacity: nat) {
    exists at :: Fits(ty, base, capacity, at)
  }

  function Put(l: Ledger, a: Addr, h: Holding): (l': Ledger)
    requires a in l.places
    ensures l'.places.Keys == l.places.Keys
  {
    l.(places := l.places[a := l.places[a].(holding := h)])
  }

  function Fresh(l: Ledger, a: Addr, capacity: nat, copyable: bool): Ledger {
    l.(places := l.places[a := Place(capacity, copyable, Vacant)])
  }

  function Gone(l: Ledger, a: Addr): Ledger {
    l.(places := l.places - {a})
  }

  /** A box is built: in the buffer if there is room, and only otherwise in a new block. */
  ghost function Built(l: Ledger, a: Addr, ty: BoxType): (l': Ledger)
    requires a in l.places
    ensures l'.places.Keys == l.places.Keys
  {
    var l' := l.(built := l.built + 1);
    if HasRoom(ty, a, l.places[a].capacity) then Put(l', a, Buffered(ty))
    else Put(l'.(blocks := l.blocks + 1), a, Boxed(ty, l.blocks))
  }

  /** A buffered box is built anew at the target; a heap block changes hands as it is. */
  ghost function Taken(l: Ledger, from: Addr, a: Addr): (l': Ledger)
    requires from in l.places && a in l.places
    ensures l'.places.Keys == l.places.Keys
  {
    match l.places[from].holding
    case Vacant => Put(Put(l, a, Vacant), from, Vacant)
    case Buffered(ty) => Put(Built(l, a, ty), from, Vacant)
    case Boxed(ty, block) => Put(Put(l, a, Boxed(ty, block)), from, Vacant)
  }

  ghost function Copied(l: Ledger, from: Addr, a: Addr): (l': Ledger)
    requires from in l.places && a in l.places
    ensures l'.places.Keys == l.places.Keys
  {
    match l.places[from].holding
    case Vacant => Put(l, a, Vacant)
    case Buffered(ty) => Built(l, a, ty)
    case Boxed(ty, _) => Built(l, a, ty)
  }

  /** A new erasure of the source's own type, moved or copied from it. */
  ghost function Duplicate(l: Ledger, from: Addr, a: Addr, copy: bool): (l': Ledger)
    requires from in l.places
    ensures l'.places.Keys == l.places.Keys + {a}
  {
    var l' := Fresh(l, a, l.places[from].capacity, l.places[from].copyable);
    if copy then Copied(l', from, a) else Taken(l', from, a)
  }

  ghost function LedgerStep(l: Ledger, op: Op): Ledger {
    match op
    case OpMakeEmpty(a, capacity, copyable) => Fresh(l, a, capacity, copyable)
    case OpMake(a, capacity, copyable, ty, _, present) =>
      var l' := Fresh(l, a, capacity, copyable);
      if present then Built(l', a, ty) else l'
    case OpMoveMake(a, from) => if from !in l.places then l else Duplicate(l, from, a, false)
    case OpCopyMake(a, from) => if from !in l.places then l else Duplicate(l, from, a, true)
    case OpConvertMake(a, capacity, copyable, from, tmp, copy) =>
      if from !in l.places then l
      else Gone(Taken(Fresh(Duplicate(l, from, tmp, copy), a, capacity, copyable), tmp, a), tmp)
    case OpMoveTo(a, from) => if from !in l.places || a !in l.places then l else Taken(l, from, a)
    case OpCopyTo(a, from) => if from !in l.places || a !in l.places then l else Copied(l, from, a)
    case OpConvertTo(a, from, tmp, copy) =>
      if from !in l.places || a !in l.places then l
      else Gone(Taken(Duplicate(l, from, tmp, copy), tmp, a), tmp)
    case OpAssign(a, ty, _, present) =>
      if a !in l.places then l else if present then Built(l, a, ty) else Put(l, a, Vacant)
    case OpClear(a) => if a !in l.places then l else Put(l, a, Vacant)
    case OpSwap(a, b, cache) =>
      if a == b || a !in l.places || b !in l.places then l
      else Gone(Taken(Taken(Duplicate(l, b, cache, false), a, b), cache, a), cache)
    case OpDestroy(a) => Gone(l, a)
  }

  ghost function LedgerRun(l: Ledger, ops: seq<Op>): Ledger
    decreases |ops|
  {
    if ops == [] then l else LedgerRun(LedgerStep(l, ops[0]), ops[1..])
  }

  // The account is right

  function HoldingOf(s: Slot): Holding {
    match s.cmd
    case ProcessCmd(ty, true) => Buffered(ty)
    case ProcessCmd(ty, false) => Boxed(ty, if s.word.Holds? && s.word.p.OnHeap? then s.word.p.block else 0)
    case _ => Vacant
  }

  function PlaceOf(s: Slot): Place {
    Place(s.capacity, s.copyable, HoldingOf(s))
  }

  ghost predicate Shows(st: State, l: Ledger) {
    && l.places.Keys == st.slots.Keys
    && (forall a :: a in st.slots ==> l.places[a] == PlaceOf(st.slots[a]))
    && l.blocks == |st.mem.frees|
    && l.built == |st.mem.boxes|
  }

  lemma BeginShows(st: State, l: Ledger, a: Addr, capacity: nat, copyable: bool)
    requires Shows(st, l)
    ensures Shows(Begin(st, a, capacity, copyable), Fresh(l, a, capacity, copyable))
  {
  }

  lemma WeakDestroyShows(st: State, l: Ledger, a: Addr)
    requires Shows(st, l) && a in st.slots
    ensures Shows(WeakDestroy(st, a), l)
  {
  }

  lemma EmptiedShows(st: State, l: Ledger, a: Addr)
    requires Shows(st, l) && a in st.slots
    ensures Shows(WithSlot(st, a, SetCmd(st.slots[a], EmptyCmd)), Put(l, a, Vacant))
  {
  }

  lemma UnmakeShows(st: State, l: Ledger, a: Addr)
    requires Shows(st, l) && a in st.slots
    ensures Shows(Unmake(st, a), Gone(l, a))
  {
    WeakDestroyShows(st, l, a);
    hide WeakDestroy;
  }

  /** No box is where the next one of the erasure at `to` would go. */
  ghost predicate Unoccupied(m: Memory, to: Addr) {
    (forall p :: p in m.live && p.InBuffer? ==> p.owner != to) && OnHeap(|m.frees|) !in m.live
  }

  lemma OthersDoNotOccupy(st: State, own: set<Addr>, to: Addr)
    requires OwnedBy(st, own) && to !in own
    ensures Unoccupied(st.mem, to)
  {
    forall p | p in st.mem.live && p.InBuffer?
      ensures p.owner != to
    {
      if p.owner == to {
        BufferIsFree(st, own, to, p);
      }
    }
    hide Covered, Unshared, SlotsOk;
  }

  /** `construct` on the slot and the counts, with the buffer used exactly when there is room. */
  lemma ConstructCounts(st: State, to: Addr, ty: BoxType, code: int)
    requires to in st.slots && Unoccupied(st.mem, to)
    ensures var st' := Construct(st, to, ty, code);
      var room := HasRoom(ty, to, st.slots[to].capacity);
      && st'.slots.Keys == st.slots.Keys
      && PlaceOf(st'.slots[to]) ==
         PlaceOf(st.slots[to]).(holding := if room then Buffered(ty) else Boxed(ty, |st.mem.frees|))
      && |st'.mem.boxes| == |st.mem.boxes| + 1
      && |st'.mem.frees| == |st.mem.frees| + (if room then 0 else 1)
  {
    InPlaceExactlyWhenItFits(ty, to, st.slots[to].capacity);
    hide InPlaceAddress, Fits;
  }

  lemma ConstructShows(st: State, l: Ledger, to: Addr, ty: BoxType, code: int)
    requires to in st.slots && Unoccupied(st.mem, to) && Shows(st, l)
    ensures Shows(Construct(st, to, ty, code), Built(l, to, ty))
  {
    hide Construct, HasRoom, Unoccupied;
    ConstructCounts(st, to, ty, code);
    ConstructInSlots(st, to, ty, code);
  }

  lemma CopyShows(st: State, l: Ledger, own: set<Addr>, from: Addr, to: Addr)
    requires OwnedBy(st, own) && from in own && to in st.slots && to !in own && Shows(st, l)
    requires st.slots[from].copyable
    ensures Shows(Copy(st, from, to), Copied(l, from, to))
  {
    assert SlotOk(st, from);
    OthersDoNotOccupy(st, own, to);
    hide OwnedBy, Construct, Built, Unoccupied;
    if st.slots[from].cmd.ProcessCmd? {
      ConstructShows(st, l, to, st.slots[from].cmd.ty, st.mem.boxes[st.mem.live[Home(st.slots[from], from)]].code.value);
    } else {
      EmptiedShows(st, l, to);
    }
  }

  lemma EndedShows(st: State, l: Ledger, p: Ptr, ty: BoxType)
    requires Shows(st, l)
    ensures Shows(st.(mem := EndBox(st.mem, p, ty)), l)
  {
  }

  lemma MovedFromShows(st: State, l: Ledger, to: Addr, p: Ptr, ty: BoxType)
    requires Shows(st, l) && Unoccupied(st.mem, to) && Readable(st.mem, p, ty)
    ensures var moved := st.(mem := ErasureMachine.MoveFrom(st.mem, p, ty));
      Shows(moved, l) && Unoccupied(moved.mem, to)
  {
  }

  lemma SourceIsSound(st: State, own: set<Addr>, from: Addr)
    requires OwnedBy(st, own) && from in own
    ensures from in st.slots && (st.slots[from].cmd == EmptyCmd || st.slots[from].cmd.ProcessCmd?)
    ensures st.slots[from].cmd.ProcessCmd? ==>
              var p, cmd := Home(st.slots[from], from), st.slots[from].cmd;
              p != Null && Readable(st.mem, p, cmd.ty) && (p.OnHeap? <==> !cmd.inPlace)
  {
    assert SlotOk(st, from) && Null !in st.mem.live;
    hide MemoryOk, Covered, Unshared, Home;
  }

  /** The move command on its own, for a box in the buffer. */
  lemma RebuildShows(st: State, l: Ledger, own: set<Addr>, from: Addr, to: Addr)
    requires OwnedBy(st, own) && from in own && to in st.slots && to !in own && Shows(st, l)
    requires st.slots[from].cmd.ProcessCmd? && st.slots[from].cmd.inPlace
    ensures Shows(CmdMove(st, from, to), Built(l, to, st.slots[from].cmd.ty))
  {
    hide OwnedBy, Construct, ErasureMachine.MoveFrom, Built, Unoccupied, Shows, EndBox, Retrieve;
    SourceIsSound(st, own, from);
    OthersDoNotOccupy(st, own, to);
    var p, ty := Home(st.slots[from], from), st.slots[from].cmd.ty;
    MovedFromShows(st, l, to, p, ty);
    var moved, code := st.(mem := ErasureMachine.MoveFrom(st.mem, p, ty)), st.mem.boxes[st.mem.live[p]].code.value;
    ConstructShows(moved, l, to, ty, code);
    EndedShows(Construct(moved, to, ty, code), Built(l, to, ty), p, ty);
  }

  /** And for a box in a heap block, which debug builds forget at the source. */
  lemma HandingShows(st: State, l: Ledger, from: Addr, to: Addr, ty: BoxType)
    requires from in st.slots && to in st.slots && from != to && Shows(st, l)
    requires st.slots[from].cmd == ProcessCmd(ty, false) && Home(st.slots[from], from).OnHeap?
    ensures Shows(Move(st, from, to), Taken(l, from, to))
    ensures Move(st, from, to).slots[to].word == st.slots[from].word
    ensures Move(st, from, to).slots[from].word == if st.release then st.slots[from].word else Holds(Null)
  {
  }

  lemma NothingMovedShows(st: State, l: Ledger, from: Addr, to: Addr)
    requires from in st.slots && to in st.slots && st.slots[from].cmd == EmptyCmd && Shows(st, l)
    ensures Shows(Move(st, from, to), Taken(l, from, to))
  {
    SameKeys(st, l);
    hide Shows, Put;
    EmptiedShows(st, l, to);
    EmptiedShows(CmdMove(st, from, to), Put(l, to, Vacant), from);
    HoldingShown(st, l, from);
  }

  lemma RebuiltShows(st: State, l: Ledger, from: Addr, to: Addr, ty: BoxType)
    requires from in st.slots && to in st.slots && st.slots[from].cmd == ProcessCmd(ty, true) && Shows(st, l)
    requires Shows(CmdMove(st, from, to), Built(l, to, ty))
    ensures Shows(Move(st, from, to), Taken(l, from, to))
  {
    SameKeys(st, l);
    hide Shows, Built, CmdMove, Put;
    EmptiedShows(CmdMove(st, from, to), Built(l, to, ty), from);
    HoldingShown(st, l, from);
  }

  lemma MoveShows(st: State, l: Ledger, own: set<Addr>, from: Addr, to: Addr)
    requires OwnedBy(st, own) && from in own && to in st.slots && to !in own && Shows(st, l)
    ensures Shows(Move(st, from, to), Taken(l, from, to))
  {
    hide OwnedBy, Readable, Shows, Move, Taken;
    SourceIsSound(st, own, from);
    if st.slots[from].cmd == EmptyCmd {
      NothingMovedShows(st, l, from, to);
    } else if st.slots[from].cmd.inPlace {
      RebuildShows(st, l, own, from, to);
      RebuiltShows(st, l, from, to, st.slots[from].cmd.ty);
    } else {
      HandingShows(st, l, from, to, st.slots[from].cmd.ty);
    }
  }

  lemma HoldingShown(st: State, l: Ledger, a: Addr)
    requires Shows(st, l) && a in st.slots
    ensures a in l.places && l.places[a].holding == HoldingOf(st.slots[a])
    ensures l.places[a].capacity == st.slots[a].capacity && l.places[a].copyable == st.slots[a].copyable
  {
  }

  lemma SameKeys(st: State, l: Ledger)
    requires Shows(st, l)
    ensures l.places.Keys == st.slots.Keys
  {
  }

  // Operations

  lemma MoveMakeShows(st: State, l: Ledger, a: Addr, capacity: nat, copyable: bool, from: Addr)
    requires Inv(st) && a !in st.slots && from in st.slots && Shows(st, l)
    ensures from in l.places && Shows(MoveMake(st, a, capacity, copyable, from), Taken(Fresh(l, a, capacity, copyable), from, a))
  {
    SameKeys(st, l);
    BeginKeeps(st, st.slots.Keys, a, capacity, copyable);
    BeginShows(st, l, a, capacity, copyable);
    hide OwnedBy, Shows, Move, Taken;
    MoveShows(Begin(st, a, capacity, copyable), Fresh(l, a, capacity, copyable), st.slots.Keys, from, a);
  }

  lemma CopyMakeShows(st: State, l: Ledger, a: Addr, capacity: nat, copyable: bool, from: Addr)
    requires Inv(st) && a !in st.slots && from in st.slots && st.slots[from].copyable && Shows(st, l)
    ensures from in l.places && Shows(CopyMake(st, a, capacity, copyable, from), Copied(Fresh(l, a, capacity, copyable), from, a))
  {
    SameKeys(st, l);
    BeginKeeps(st, st.slots.Keys, a, capacity, copyable);
    BeginShows(st, l, a, capacity, copyable);
    hide OwnedBy, Shows, Copy, Copied;
    CopyShows(Begin(st, a, capacity, copyable), Fresh(l, a, capacity, copyable), st.slots.Keys, from, a);
  }

  lemma ArgumentShows(st: State, l: Ledger, from: Addr, tmp: Addr, copy: bool)
    requires Inv(st) && from in st.slots && tmp !in st.slots && (copy ==> st.slots[from].copyable) && Shows(st, l)
    ensures from in l.places && Shows(Argument(st, from, tmp, copy), Duplicate(l, from, tmp, copy))
  {
    HoldingShown(st, l, from);
    hide OwnedBy, Shows, MoveMake, CopyMake, Taken, Copied;
    if copy {
      CopyMakeShows(st, l, tmp, st.slots[from].capacity, st.slots[from].copyable, from);
    } else {
      MoveMakeShows(st, l, tmp, st.slots[from].capacity, st.slots[from].copyable, from);
    }
  }

  lemma MakeShows(st: State, l: Ledger, a: Addr, capacity: nat, copyable: bool, ty: BoxType, code: int)
    requires Inv(st) && a !in st.slots && Shows(st, l)
    ensures Shows(Make(st, a, capacity, copyable, ty, code), Built(Fresh(l, a, capacity, copyable), a, ty))
  {
    BeginKeeps(st, st.slots.Keys, a, capacity, copyable);
    BeginShows(st, l, a, capacity, copyable);
    OthersDoNotOccupy(Begin(st, a, capacity, copyable), st.slots.Keys, a);
    hide OwnedBy, Shows, Construct, Built, Unoccupied;
    ConstructShows(Begin(st, a, capacity, copyable), Fresh(l, a, capacity, copyable), a, ty, code);
  }

  lemma MoveAssignShows(st: State, l: Ledger, a: Addr, from: Addr)
    requires Inv(st) && a in st.slots && from in st.slots && a != from && Shows(st, l)
    ensures from in l.places && a in l.places && Shows(MoveAssign(st, a, from), Taken(l, from, a))
  {
    SameKeys(st, l);
    WeakDestroyReleases(st, st.slots.Keys, a);
    WeakDestroyShows(st, l, a);
    hide OwnedBy, Shows, Move, Taken, WeakDestroy;
    MoveShows(WeakDestroy(st, a), l, st.slots.Keys - {a}, from, a);
  }

  lemma CopyAssignShows(st: State, l: Ledger, a: Addr, from: Addr)
    requires Inv(st) && a in st.slots && from in st.slots && a != from && st.slots[from].copyable && Shows(st, l)
    ensures from in l.places && a in l.places && Shows(CopyAssign(st, a, from), Copied(l, from, a))
  {
    SameKeys(st, l);
    WeakDestroyReleases(st, st.slots.Keys, a);
    WeakDestroyShows(st, l, a);
    hide OwnedBy, Shows, Copy, Copied, WeakDestroy;
    CopyShows(WeakDestroy(st, a), l, st.slots.Keys - {a}, from, a);
  }

  lemma AssignShows(st: State, l: Ledger, a: Addr, ty: BoxType, code: int)
    requires Inv(st) && a in st.slots && Shows(st, l)
    ensures a in l.places && Shows(Assign(st, a, ty, code), Built(l, a, ty))
  {
    SameKeys(st, l);
    WeakDestroyReleases(st, st.slots.Keys, a);
    WeakDestroyShows(st, l, a);
    OthersDoNotOccupy(WeakDestroy(st, a), st.slots.Keys - {a}, a);
    hide OwnedBy, Shows, Construct, Built, WeakDestroy, Unoccupied;
    ConstructShows(WeakDestroy(st, a), l, a, ty, code);
  }

  lemma ClearShows(st: State, l: Ledger, a: Addr)
    requires Inv(st) && a in st.slots && Shows(st, l)
    ensures a in l.places && Shows(StrongDestroy(st, a), Put(l, a, Vacant))
  {
    SourceIsSound(st, st.slots.Keys, a);
    HoldingShown(st, l, a);
    WeakDestroyShows(st, l, a);
    hide OwnedBy, WeakDestroy;
    if st.slots[a].cmd.ProcessCmd? {
      EmptiedShows(WeakDestroy(st, a), l, a);
    }
  }

  lemma ConvertMakeShows(st: State, l: Ledger, op: Op)
    requires Inv(st) && Legal(st, op) && op.OpConvertMake? && Shows(st, l)
    ensures Shows(Step(st, op), LedgerStep(l, op))
  {
    SameKeys(st, l);
    hide OwnedBy, Shows, Argument, MoveMake, Unmake, Duplicate, Taken, Content, ConfigKept, Same, SlotOk, Gone;
    var made, l1 := Argument(st, op.from, op.tmp, op.copy), Duplicate(l, op.from, op.tmp, op.copy);
    ArgumentKeeps(st, op.from, op.tmp, op.copy);
    ArgumentShows(st, l, op.from, op.tmp, op.copy);
    MoveMakeKeeps(made, op.a, op.capacity, op.copyable, op.tmp);
    MoveMakeShows(made, l1, op.a, op.capacity, op.copyable, op.tmp);
    UnmakeShows(MoveMake(made, op.a, op.capacity, op.copyable, op.tmp), Taken(Fresh(l1, op.a, op.capacity, op.copyable), op.tmp, op.a), op.tmp);
  }

  lemma ConvertToShows(st: State, l: Ledger, op: Op)
    requires Inv(st) && Legal(st, op) && op.OpConvertTo? && Shows(st, l)
    ensures Shows(Step(st, op), LedgerStep(l, op))
  {
    SameKeys(st, l);
    hide OwnedBy, Shows, Argument, MoveAssign, Unmake, Duplicate, Taken, Content, Same, SlotOk, Gone;
    var made, l1 := Argument(st, op.from, op.tmp, op.copy), Duplicate(l, op.from, op.tmp, op.copy);
    ArgumentKeeps(st, op.from, op.tmp, op.copy);
    ArgumentShows(st, l, op.from, op.tmp, op.copy);
    MoveAssignKeeps(made, op.a, op.tmp);
    MoveAssignShows(made, l1, op.a, op.tmp);
    UnmakeShows(MoveAssign(made, op.a, op.tmp), Taken(l1, op.tmp, op.a), op.tmp);
  }

  /** The second and third move of `swap`, and the end of its local. */
  lemma SwapEnds(st: State, l: Ledger, a: Addr, b: Addr, cache: Addr)
    requires Inv(st) && a in st.slots && b in st.slots && cache in st.slots && a != b && b != cache && cache != a && Shows(st, l)
    requires st.slots[a].copyable == st.slots[b].copyable == st.slots[cache].copyable
    ensures a in l.places && b in l.places && cache in l.places
    ensures Shows(Unmake(MoveAssign(MoveAssign(st, b, a), a, cache), cache), Gone(Taken(Taken(l, a, b), cache, a), cache))
  {
    SameKeys(st, l);
    hide OwnedBy, Shows, MoveAssign, Unmake, Taken, Content, SlotOk;
    MoveAssignKeeps(st, b, a);
    MoveAssignShows(st, l, b, a);
    MoveAssignShows(MoveAssign(st, b, a), Taken(l, a, b), a, cache);
    UnmakeShows(MoveAssign(MoveAssign(st, b, a), a, cache), Taken(Taken(l, a, b), cache, a), cache);
  }

  lemma SwapShows(st: State, l: Ledger, op: Op)
    requires Inv(st) && Legal(st, op) && op.OpSwap? && op.a != op.b && Shows(st, l)
    ensures Shows(Step(st, op), LedgerStep(l, op))
  {
    var a, b, cache, s := op.a, op.b, op.cache, st.slots[op.b];
    SameKeys(st, l);
    HoldingShown(st, l, b);
    hide OwnedBy, Shows, MoveMake, MoveAssign, Unmake, Taken, Content, SlotOk, Same, Gone;
    MoveMakeKeeps(st, cache, s.capacity, s.copyable, b);
    MoveMakeShows(st, l, cache, s.capacity, s.copyable, b);
    SwapEnds(MoveMake(st, cache, s.capacity, s.copyable, b), Duplicate(l, b, cache, false), a, b, cache);
  }

  lemma MakingShows(st: State, l: Ledger, op: Op)
    requires Inv(st) && Legal(st, op) && Shows(st, l)
    requires op.OpMakeEmpty? || op.OpMake? || op.OpMoveMake? || op.OpCopyMake?
    ensures Shows(Step(st, op), LedgerStep(l, op))
  {
    SameKeys(st, l);
    hide OwnedBy, Shows, Make, MoveMake, CopyMake, Built, Taken, Copied;
    match op
    case OpMakeEmpty(a, capacity, copyable) => MakeEmptyShows(st, l, a, capacity, copyable);
    case OpMake(a, capacity, copyable, ty, code, present) =>
      if present {
        MakeShows(st, l, a, capacity, copyable, ty, code);
      } else {
        MakeEmptyShows(st, l, a, capacity, copyable);
      }
    case OpMoveMake(a, from) =>
      HoldingShown(st, l, from);
      MoveMakeShows(st, l, a, st.slots[from].capacity, st.slots[from].copyable, from);
    case OpCopyMake(a, from) =>
      HoldingShown(st, l, from);
      CopyMakeShows(st, l, a, st.slots[from].capacity, st.slots[from].copyable, from);
  }

  lemma MakeEmptyShows(st: State, l: Ledger, a: Addr, capacity: nat, copyable: bool)
    requires Shows(st, l)
    ensures Shows(MakeEmpty(st, a, capacity, copyable), Fresh(l, a, capacity, copyable))
  {
  }

  lemma AssigningShows(st: State, l: Ledger, op: Op)
    requires Inv(st) && Legal(st, op) && Shows(st, l)
    requires op.OpMoveTo? || op.OpCopyTo? || op.OpAssign? || op.OpClear? || op.OpDestroy?
    ensures Shows(Step(st, op), LedgerStep(l, op))
  {
    SameKeys(st, l);
    hide OwnedBy, Shows, MoveAssign, CopyAssign, Assign, StrongDestroy, Unmake, Built, Taken, Copied;
    match op
    case OpMoveTo(a, from) => MoveAssignShows(st, l, a, from);
    case OpCopyTo(a, from) => CopyAssignShows(st, l, a, from);
    case OpAssign(a, ty, code, present) =>
      if present {
        AssignShows(st, l, a, ty, code);
      } else {
        ClearShows(st, l, a);
      }
    case OpClear(a) => ClearShows(st, l, a);
    case OpDestroy(a) => UnmakeShows(st, l, a);
  }

  /** Every operation keeps callables where the account says, and allocates and builds just as much. */
  lemma StepShows(st: State, l: Ledger, op: Op)
    requires Inv(st) && Legal(st, op) && Shows(st, l)
    ensures Shows(Step(st, op), LedgerStep(l, op))
  {
    hide Inv, Legal, Step, LedgerStep, Shows;
    if op.OpMakeEmpty? || op.OpMake? || op.OpMoveMake? || op.OpCopyMake? {
      MakingShows(st, l, op);
    } else if op.OpConvertMake? {
      ConvertMakeShows(st, l, op);
    } else if op.OpConvertTo? {
      ConvertToShows(st, l, op);
    } else if op.OpSwap? {
      SwappingShows(st, l, op);
    } else {
      AssigningShows(st, l, op);
    }
  }

  lemma SwappingShows(st: State, l: Ledger, op: Op)
    requires Inv(st) && Legal(st, op) && op.OpSwap? && Shows(st, l)
    ensures Shows(Step(st, op), LedgerStep(l, op))
  {
    hide Inv, Shows;
    if op.a != op.b {
      SwapShows(st, l, op);
    }
  }

  /** And so does every run. */
  lemma {:induction false} RunShows(st: State, l: Ledger, ops: seq<Op>)
    requires Inv(st) && LegalRun(st, ops) && Shows(st, l)
    ensures Shows(Run(st, ops), LedgerRun(l, ops))
    decreases |ops|
  {
    hide Inv, Legal, Step, LedgerStep, Shows;
    if ops != [] {
      StepRefines(st, ops[0]);
      StepShows(st, l, ops[0]);
      RunShows(Step(st, ops[0]), LedgerStep(l, ops[0]), ops[1..]);
    }
  }

  // What it comes to

  ghost function LedgerOn(st: State, own: set<Addr>): (places: map<Addr, Place>)
    requires own <= st.slots.Keys
    ensures places.Keys == own && forall a :: a in own ==> places[a] == PlaceOf(st.slots[a])
  {
    if own == {} then map[]
    else
      var a :| a in own;
      LedgerOn(st, own - {a})[a := PlaceOf(st.slots[a])]
  }

  ghost function LedgerOf(st: State): (l: Ledger)
    ensures Shows(st, l)
  {
    Ledger(LedgerOn(st, st.slots.Keys), |st.mem.frees|, |st.mem.boxes|)
  }

  /** The box of the erasure at `a` is in its buffer, at the lowest address where it fits. */
  ghost predicate LowestInBuffer(st: State, a: Addr, ty: BoxType)
    requires a in st.slots
  {
    var p := Home(st.slots[a], a);
    && st.slots[a].cmd == ProcessCmd(ty, true)
    && p in st.mem.live && p.InBuffer? && p.owner == a
    && Fits(ty, a, st.slots[a].capacity, p.at)
    && forall at :: Fits(ty, a, st.slots[a].capacity, at) ==> p.at <= at
  }

  lemma BufferedIsLowest(st: State, a: Addr, ty: BoxType)
    requires Inv(st) && a in st.slots && st.slots[a].cmd == ProcessCmd(ty, true)
    ensures LowestInBuffer(st, a, ty)
  {
    SourceIsSound(st, st.slots.Keys, a);
    InPlaceExactlyWhenItFits(ty, a, st.slots[a].capacity);
    hide OwnedBy, InPlaceAddress, Fits;
  }

  /** What type of callable an operation builds anew at its target, straight from a callable or from a copy. */
  ghost function BuiltType(st: State, op: Op): Option<BoxType>
    requires Inv(st) && Legal(st, op)
  {
    match op
    case OpMake(_, _, _, ty, _, present) => if present then Some(ty) else None
    case OpAssign(_, ty, _, present) => if present then Some(ty) else None
    case OpCopyMake(_, from) => if ViewOf(st)[from].Some? then Some(ViewOf(st)[from].value.ty) else None
    case OpCopyTo(_, from) => if ViewOf(st)[from].Some? then Some(ViewOf(st)[from].value.ty) else None
    case _ => None
  }

  /**
   A callable that is wrapped or copied goes into the target's buffer, at the lowest fitting
   address and with no new block, if it fits there at all, and otherwise into exactly one new block.
   */
  lemma NewCallablesPreferTheBuffer(st: State, op: Op)
    requires Inv(st) && Legal(st, op) && BuiltType(st, op).Some?
    ensures var st', ty := Step(st, op), BuiltType(st, op).value;
      && op.a in st'.slots
      && (if HasRoom(ty, op.a, st'.slots[op.a].capacity) then
            LowestInBuffer(st', op.a, ty) && |st'.mem.frees| == |st.mem.frees|
          else
            && st'.slots[op.a].cmd == ProcessCmd(ty, false)
            && Home(st'.slots[op.a], op.a) == OnHeap(|st.mem.frees|)
            && |st'.mem.frees| == |st.mem.frees| + 1)
      && |st'.mem.boxes| == |st.mem.boxes| + 1
  {
    var st', l, ty := Step(st, op), LedgerOf(st), BuiltType(st, op).value;
    StepRefines(st, op);
    StepShows(st, l, op);
    BuiltTypeIsHeld(st, op);
    var l' := LedgerStep(l, op);
    hide Inv, Step, HasRoom, ViewOf, BuiltType, LedgerOf;
    NewHolding(l, op, ty);
    FromLedger(st', l', op.a);
  }

  lemma BuiltTypeIsHeld(st: State, op: Op)
    requires Inv(st) && Legal(st, op) && BuiltType(st, op).Some?
    ensures Builds(LedgerOf(st), op, BuiltType(st, op).value)
  {
    if op.OpCopyMake? || op.OpCopyTo? {
      SourceIsSound(st, st.slots.Keys, op.from);
    }
    hide OwnedBy, Readable, Home;
  }

  /** The same as seen in a ledger. */
  ghost predicate Builds(l: Ledger, op: Op, ty: BoxType) {
    match op
    case OpMake(_, _, _, t, _, present) => present && t == ty
    case OpAssign(a, t, _, present) => a in l.places && present && t == ty
    case OpCopyMake(_, from) => from in l.places && l.places[from].holding != Vacant && l.places[from].holding.ty == ty
    case OpCopyTo(a, from) => a in l.places && from in l.places && l.places[from].holding != Vacant && l.places[from].holding.ty == ty
    case _ => false
  }

  lemma NewHolding(l: Ledger, op: Op, ty: BoxType)
    requires Builds(l, op, ty)
    requires op.OpCopyMake? ==> op.a != op.from
    ensures var l' := LedgerStep(l, op);
      && op.a in l'.places
      && l'.built == l.built + 1
      && (if HasRoom(ty, op.a, l'.places[op.a].capacity) then
            l'.places[op.a].holding == Buffered(ty) && l'.blocks == l.blocks
          else l'.places[op.a].holding == Boxed(ty, l.blocks) && l'.blocks == l.blocks + 1)
  {
    hide HasRoom;
  }

  /** From the ledger back to the slot. */
  lemma FromLedger(st: State, l: Ledger, a: Addr)
    requires Inv(st) && Shows(st, l) && a in l.places
    ensures a in st.slots && st.slots[a].capacity == l.places[a].capacity
    ensures l.blocks == |st.mem.frees| && l.built == |st.mem.boxes|
    ensures match l.places[a].holding
      case Vacant => st.slots[a].cmd == EmptyCmd
      case Buffered(ty) => LowestInBuffer(st, a, ty)
      case Boxed(ty, block) => st.slots[a].cmd == ProcessCmd(ty, false) && Home(st.slots[a], a) == OnHeap(block)
  {
    SourceIsSound(st, st.slots.Keys, a);
    if st.slots[a].cmd.ProcessCmd? && st.slots[a].cmd.inPlace {
      BufferedIsLowest(st, a, st.slots[a].cmd.ty);
    }
    hide OwnedBy, Readable, LowestInBuffer;
  }

  /**
   A callable from an erasure of another capacity passes through the by-value argument, at `tmp`
   and of the source's capacity. What is copied, or lies in the source's buffer, is built anew
   there; only what is then in the argument's buffer is built anew at the target as well, each
   time in the buffer if there is room and otherwise in one new block. A block, new or the
   source's own, changes hands, even if its box had room in the target's buffer.
   */
  lemma ConvertedCallables(st: State, op: Op)
    requires Inv(st) && Legal(st, op) && (op.OpConvertMake? || op.OpConvertTo?)
    requires st.slots[op.from].cmd.ProcessCmd?
    ensures var st', s := Step(st, op), st.slots[op.from];
      var ty, n := s.cmd.ty, |st.mem.frees|;
      op.a in st'.slots &&
      if !op.copy && !s.cmd.inPlace then
        && Home(st'.slots[op.a], op.a) == Home(s, op.from)
        && |st'.mem.frees| == n && |st'.mem.boxes| == |st.mem.boxes|
      else if !HasRoom(ty, op.tmp, s.capacity) then
        && Home(st'.slots[op.a], op.a) == OnHeap(n)
        && |st'.mem.frees| == n + 1 && |st'.mem.boxes| == |st.mem.boxes| + 1
      else if !HasRoom(ty, op.a, st'.slots[op.a].capacity) then
        && Home(st'.slots[op.a], op.a) == OnHeap(n)
        && |st'.mem.frees| == n + 1 && |st'.mem.boxes| == |st.mem.boxes| + 2
      else
        && LowestInBuffer(st', op.a, ty)
        && |st'.mem.frees| == n && |st'.mem.boxes| == |st.mem.boxes| + 2
  {
    hide Inv, OwnedBy, Step, HasRoom, LedgerOf, LedgerStep, LowestInBuffer, Readable, Shows, ViewOf, ViewStep;
    var l := LedgerOf(st);
    SourceHolds(st, l, op.from);
    SameKeys(st, l);
    StepRefines(st, op);
    StepShows(st, l, op);
    ConvertedHolding(l, op);
    FromLedger(Step(st, op), LedgerStep(l, op), op.a);
  }

  lemma SourceHolds(st: State, l: Ledger, a: Addr)
    requires Inv(st) && a in st.slots && st.slots[a].cmd.ProcessCmd? && Shows(st, l)
    ensures a in l.places && l.places[a].capacity == st.slots[a].capacity
    ensures l.blocks == |st.mem.frees| && l.built == |st.mem.boxes|
    ensures l.places[a].holding != Vacant && l.places[a].holding.ty == st.slots[a].cmd.ty
    ensures l.places[a].holding.Buffered? <==> st.slots[a].cmd.inPlace
    ensures l.places[a].holding.Boxed? ==> Home(st.slots[a], a) == OnHeap(l.places[a].holding.block)
  {
    SourceIsSound(st, st.slots.Keys, a);
    hide OwnedBy, Readable;
  }

  /** What is built at a place, and what it costs. */
  ghost predicate BuiltAt(l: Ledger, l': Ledger, a: Addr, ty: BoxType, built: nat)
    requires a in l'.places
  {
    && l'.built == built
    && if HasRoom(ty, a, l'.places[a].capacity) then l'.places[a].holding == Buffered(ty) && l'.blocks == l.blocks
       else l'.places[a].holding == Boxed(ty, l.blocks) && l'.blocks == l.blocks + 1
  }

  lemma DuplicateIs(l: Ledger, from: Addr, tmp: Addr, copy: bool)
    requires from in l.places && tmp !in l.places && l.places[from].holding != Vacant
    ensures var l', h := Duplicate(l, from, tmp, copy), l.places[from].holding;
      && l'.places[tmp].capacity == l.places[from].capacity
      && (!copy && h.Boxed? ==> l'.places[tmp].holding == h && l'.blocks == l.blocks && l'.built == l.built)
      && (copy || h.Buffered? ==> BuiltAt(l, l', tmp, h.ty, l.built + 1))
      && (forall a :: a in l.places && a != from ==> l'.places[a] == l.places[a])
  {
    hide HasRoom;
  }

  lemma TakenIs(l: Ledger, from: Addr, a: Addr)
    requires from in l.places && a in l.places && from != a && l.places[from].holding != Vacant
    ensures var l', h := Taken(l, from, a), l.places[from].holding;
      && l'.places[a].capacity == l.places[a].capacity
      && (h.Boxed? ==> l'.places[a].holding == h && l'.blocks == l.blocks && l'.built == l.built)
      && (h.Buffered? ==> BuiltAt(l, l', a, h.ty, l.built + 1))
  {
    hide HasRoom;
  }

  lemma ConvertedHolding(l: Ledger, op: Op)
    requires op.OpConvertMake? || op.OpConvertTo?
    requires op.from in l.places && op.tmp !in l.places && op.a != op.tmp && op.a != op.from
    requires op.OpConvertTo? ==> op.a in l.places
    requires op.OpConvertMake? ==> op.a !in l.places
    requires l.places[op.from].holding != Vacant
    ensures var l', h := LedgerStep(l, op), l.places[op.from].holding;
      op.a in l'.places &&
      if !op.copy && h.Boxed? then
        l'.places[op.a].holding == h && l'.blocks == l.blocks && l'.built == l.built
      else if !HasRoom(h.ty, op.tmp, l.places[op.from].capacity) then
        l'.places[op.a].holding == Boxed(h.ty, l.blocks) && l'.blocks == l.blocks + 1 && l'.built == l.built + 1
      else if !HasRoom(h.ty, op.a, l'.places[op.a].capacity) then
        l'.places[op.a].holding == Boxed(h.ty, l.blocks) && l'.blocks == l.blocks + 1 && l'.built == l.built + 2
      else l'.places[op.a].holding == Buffered(h.ty) && l'.blocks == l.blocks && l'.built == l.built + 2
  {
    hide HasRoom, Duplicate, Taken;
    DuplicateIs(l, op.from, op.tmp, op.copy);
    var l1 := Duplicate(l, op.from, op.tmp, op.copy);
    TakenIs(if op.OpConvertMake? then Fresh(l1, op.a, op.capacity, op.copyable) else l1, op.tmp, op.a);
  }

  // Runs that never allocate

  /** Alignment of the box divides that of the storage, and its size fits. */
  predicate SuitsType(c: Capacity, ty: BoxType) {
    StorageAlign(c) % ty.align == 0 && ty.size <= StorageSize(c)
  }

  predicate SuitsAddress(c: Capacity, a: Addr) {
    a % StorageAlign(c) == 0
  }

  /** All erasures that the operation makes, temporaries included, are storage of that capacity, and so is their address. */
  predicate Suits(c: Capacity, op: Op) {
    match op
    case OpMakeEmpty(a, capacity, _) => SuitsAddress(c, a) && capacity == StorageSize(c)
    case OpMake(a, capacity, _, ty, _, present) =>
      SuitsAddress(c, a) && capacity == StorageSize(c) && (present ==> SuitsType(c, ty))
    case OpMoveMake(a, _) => SuitsAddress(c, a)
    case OpCopyMake(a, _) => SuitsAddress(c, a)
    case OpConvertMake(a, capacity, _, _, tmp, _) => SuitsAddress(c, a) && SuitsAddress(c, tmp) && capacity == StorageSize(c)
    case OpConvertTo(_, _, tmp, _) => SuitsAddress(c, tmp)
    case OpAssign(_, ty, _, present) => present ==> SuitsType(c, ty)
    case OpSwap(_, _, cache) => SuitsAddress(c, cache)
    case _ => true
  }

  predicate Thrifty(c: Capacity, l: Ledger) {
    && l.blocks == 0
    && forall a :: a in l.places ==> ThriftyPlace(c, a, l.places[a])
  }

  predicate ThriftyPlace(c: Capacity, a: Addr, p: Place) {
    && SuitsAddress(c, a) && p.capacity == StorageSize(c)
    && (p.holding == Vacant || (p.holding.Buffered? && SuitsType(c, p.holding.ty)))
  }

  lemma SuitableHasRoom(c: Capacity, ty: BoxType, a: Addr)
    requires SuitsAddress(c, a) && SuitsType(c, ty)
    ensures HasRoom(ty, a, StorageSize(c))
  {
    SuitableBoxesStayInPlace(c, ty, a);
    InPlaceExactlyWhenItFits(ty, a, StorageSize(c));
  }

  lemma BuiltThriftily(c: Capacity, l: Ledger, a: Addr, ty: BoxType)
    requires Thrifty(c, l) && a in l.places && SuitsType(c, ty)
    ensures Thrifty(c, Built(l, a, ty))
  {
    assert ThriftyPlace(c, a, l.places[a]);
    SuitableHasRoom(c, ty, a);
  }

  lemma PutThriftily(c: Capacity, l: Ledger, a: Addr)
    requires Thrifty(c, l) && a in l.places
    ensures Thrifty(c, Put(l, a, Vacant))
  {
    assert ThriftyPlace(c, a, l.places[a]);
  }

  lemma FreshThriftily(c: Capacity, l: Ledger, a: Addr, copyable: bool)
    requires Thrifty(c, l) && SuitsAddress(c, a)
    ensures Thrifty(c, Fresh(l, a, StorageSize(c), copyable))
  {
  }

  lemma TakenThriftily(c: Capacity, l: Ledger, from: Addr, a: Addr)
    requires Thrifty(c, l) && from in l.places && a in l.places
    ensures Thrifty(c, Taken(l, from, a)) && Thrifty(c, Copied(l, from, a))
  {
    assert ThriftyPlace(c, from, l.places[from]);
    hide Thrifty, Built, Put, ThriftyPlace;
    PutThriftily(c, l, a);
    PutThriftily(c, Put(l, a, Vacant), from);
    if l.places[from].holding.Buffered? {
      SuitsHolding(c, l, from);
      BuiltThriftily(c, l, a, l.places[from].holding.ty);
      PutThriftily(c, Built(l, a, l.places[from].holding.ty), from);
    }
  }

  lemma SuitsHolding(c: Capacity, l: Ledger, a: Addr)
    requires Thrifty(c, l) && a in l.places
    ensures l.places[a].capacity == StorageSize(c) && !l.places[a].holding.Boxed?
    ensures l.places[a].holding.Buffered? ==> SuitsType(c, l.places[a].holding.ty)
  {
    assert ThriftyPlace(c, a, l.places[a]);
  }

  lemma DuplicateThriftily(c: Capacity, l: Ledger, from: Addr, a: Addr, copy: bool)
    requires Thrifty(c, l) && from in l.places && SuitsAddress(c, a)
    ensures Thrifty(c, Duplicate(l, from, a, copy))
  {
    SuitsHolding(c, l, from);
    hide Thrifty, Taken, Copied;
    FreshThriftily(c, l, a, l.places[from].copyable);
    TakenThriftily(c, Fresh(l, a, StorageSize(c), l.places[from].copyable), from, a);
  }

  lemma GoneThriftily(c: Capacity, l: Ledger, a: Addr)
    requires Thrifty(c, l)
    ensures Thrifty(c, Gone(l, a))
  {
  }

  lemma ConversionIsThrifty(c: Capacity, l: Ledger, op: Op)
    requires Thrifty(c, l) && Suits(c, op) && (op.OpConvertMake? || op.OpConvertTo? || op.OpSwap?)
    ensures Thrifty(c, LedgerStep(l, op))
  {
    hide Thrifty, Duplicate, Taken, StorageSize, StorageAlign, SuitsAddress, Gone;
    match op
    case OpConvertMake(a, capacity, copyable, from, tmp, copy) =>
      if from in l.places {
        var l1 := Duplicate(l, from, tmp, copy);
        DuplicateThriftily(c, l, from, tmp, copy);
        FreshThriftily(c, l1, a, copyable);
        TakenThriftily(c, Fresh(l1, a, capacity, copyable), tmp, a);
        GoneThriftily(c, Taken(Fresh(l1, a, capacity, copyable), tmp, a), tmp);
      }
    case OpConvertTo(a, from, tmp, copy) =>
      if from in l.places && a in l.places {
        var l1 := Duplicate(l, from, tmp, copy);
        DuplicateThriftily(c, l, from, tmp, copy);
        TakenThriftily(c, l1, tmp, a);
        GoneThriftily(c, Taken(l1, tmp, a), tmp);
      }
    case OpSwap(a, b, cache) =>
      if a != b && a in l.places && b in l.places {
        var l1 := Duplicate(l, b, cache, false);
        DuplicateThriftily(c, l, b, cache, false);
        TakenThriftily(c, l1, a, b);
        TakenThriftily(c, Taken(l1, a, b), cache, a);
        GoneThriftily(c, Taken(Taken(l1, a, b), cache, a), cache);
      }
  }

  lemma StepIsThrifty(c: Capacity, l: Ledger, op: Op)
    requires Thrifty(c, l) && Suits(c, op)
    ensures Thrifty(c, LedgerStep(l, op))
  {
    hide Thrifty, Built, Taken, Copied, Duplicate, StorageSize, StorageAlign, SuitsAddress, SuitsType, Put, Fresh, Gone;
    match op
    case OpMakeEmpty(a, capacity, copyable) => FreshThriftily(c, l, a, copyable);
    case OpMake(a, capacity, copyable, ty, _, present) =>
      FreshThriftily(c, l, a, copyable);
      if present {
        FreshHas(l, a, capacity, copyable);
        BuiltThriftily(c, Fresh(l, a, capacity, copyable), a, ty);
      }
    case OpMoveMake(a, from) => if from in l.places { DuplicateThriftily(c, l, from, a, false); }
    case OpCopyMake(a, from) => if from in l.places { DuplicateThriftily(c, l, from, a, true); }
    case OpConvertMake(_, _, _, _, _, _) => ConversionIsThrifty(c, l, op);
    case OpConvertTo(_, _, _, _) => ConversionIsThrifty(c, l, op);
    case OpSwap(_, _, _) => ConversionIsThrifty(c, l, op);
    case OpMoveTo(a, from) => if from in l.places && a in l.places { TakenThriftily(c, l, from, a); }
    case OpCopyTo(a, from) => if from in l.places && a in l.places { TakenThriftily(c, l, from, a); }
    case OpAssign(a, ty, _, present) =>
      if a in l.places {
        PutThriftily(c, l, a);
        if present {
          BuiltThriftily(c, l, a, ty);
        }
      }
    case OpClear(a) => if a in l.places { PutThriftily(c, l, a); }
    case OpDestroy(a) => GoneThriftily(c, l, a);
  }

  lemma FreshHas(l: Ledger, a: Addr, capacity: nat, copyable: bool)
    ensures a in Fresh(l, a, capacity, copyable).places
  {
  }

  lemma {:induction false} RunIsThrifty(c: Capacity, l: Ledger, ops: seq<Op>)
    requires Thrifty(c, l) && forall i :: 0 <= i < |ops| ==> Suits(c, ops[i])
    ensures Thrifty(c, LedgerRun(l, ops))
    decreases |ops|
  {
    hide Thrifty, Suits, LedgerStep;
    if ops != [] {
      StepIsThrifty(c, l, ops[0]);
      RunIsThrifty(c, LedgerStep(l, ops[0]), ops[1..]);
    }
  }

  /**
   In a run whose erasures all have the same capacity, with the alignment that it asks for, and
   whose callables all suit it, no block is ever allocated, not even for the local of `swap` and
   the by-value arguments, and every callable lies in its erasure's buffer.
   */
  lemma SuitableRunsNeverAllocate(c: Capacity, release: bool, ops: seq<Op>)
    requires LegalRun(Start(release), ops) && forall i :: 0 <= i < |ops| ==> Suits(c, ops[i])
    ensures var st := Run(Start(release), ops);
      && Inv(st) && st.mem.frees == []
      && forall a :: a in st.slots && st.slots[a].cmd.ProcessCmd? ==> LowestInBuffer(st, a, st.slots[a].cmd.ty)
  {
    var l := Ledger(map[], 0, 0);
    var l' := LedgerRun(l, ops);
    RunRefines(Start(release), ops);
    RunShows(Start(release), l, ops);
    RunIsThrifty(c, l, ops);
    var st := Run(Start(release), ops);
    hide Inv, Run, LegalRun, LedgerRun, Suits;
    assert l'.blocks == 0;
    forall a | a in st.slots && st.slots[a].cmd.ProcessCmd?
      ensures LowestInBuffer(st, a, st.slots[a].cmd.ty)
    {
      SameKeys(st, l');
      SuitsHolding(c, l', a);
      HoldingShown(st, l', a);
      BufferedIsLowest(st, a, st.slots[a].cmd.ty);
    }
  }

  /** The storage is no larger than its alignment requires. */
  lemma StorageIsTight(c: Capacity)
    ensures var needed, align := if c.size < 8 then 8 else c.size, StorageAlign(c);
      && align == (if c.size < 8 || c.align < 8 then 8 else c.align)
      && needed <= StorageSize(c) < needed + align
      && StorageSize(c) % align == 0
  {
  }
}
