/**
 The owning erasure as a machine over values: a population of erasures, keyed by the address
 of their storage, over one memory of boxes and heap blocks.

 Every operation is total. Whatever C++ leaves undefined here (destroying or reading a box
 that is not there, constructing over a live one, freeing a block twice, dispatching through
 a command table that was never written) raises `fault`, which no operation ever lowers.
 */
module ErasureMachine {
  import opened Prelude
  import opened ErasureLayout

  /** Where a box can live. Distinct buffers and distinct heap blocks never overlap. */
  datatype Ptr = Null | InBuffer(owner: Addr, at: Addr) | OnHeap(block: nat)

  /** The buffer's first word, read as `ptr_`; an object constructed in the buffer overwrites it. */
  datatype Word = Overwritten | Holds(p: Ptr)

  /** The command table, and likewise the invocation thunk, that a vtable points to. */
  datatype Cmd = Indeterminate | EmptyCmd | ProcessCmd(ty: BoxType, inPlace: bool)

  datatype Slot = Slot(capacity: nat, copyable: bool, cmd: Cmd, thunk: Cmd, word: Word)

  /** The history of one box: `code` is the callable's behaviour, None once it was moved from. */
  datatype BoxRecord = BoxRecord(ty: BoxType, code: Option<int>, at: Ptr, deaths: nat)

  /** `frees[b]` counts how often block `b` was given back. */
  datatype Memory = Memory(boxes: seq<BoxRecord>, live: map<Ptr, nat>, frees: seq<nat>, fault: bool)

  /** `release` is whether NDEBUG is defined: debug builds null a pointer they handed over. */
  datatype State = State(slots: map<Addr, Slot>, mem: Memory, release: bool)

  // Memory

  predicate Readable(m: Memory, p: Ptr, ty: BoxType) {
    && p in m.live
    && m.live[p] < |m.boxes|
    && m.boxes[m.live[p]].ty == ty
    && m.boxes[m.live[p]].code.Some?
  }

  function Fault(m: Memory): Memory {
    m.(fault := true)
  }

  function NewBox(m: Memory, p: Ptr, ty: BoxType, code: int): Memory {
    if p == Null || p in m.live then Fault(m)
    else m.(boxes := m.boxes + [BoxRecord(ty, Some(code), p, 0)], live := m.live[p := |m.boxes|])
  }

  function MoveFrom(m: Memory, p: Ptr, ty: BoxType): Memory
    requires Readable(m, p, ty)
  {
    m.(boxes := m.boxes[m.live[p] := m.boxes[m.live[p]].(code := None)])
  }

  function EndBox(m: Memory, p: Ptr, ty: BoxType): Memory {
    if p in m.live && m.live[p] < |m.boxes| && m.boxes[m.live[p]].ty == ty then
      var box := m.boxes[m.live[p]];
      m.(boxes := m.boxes[m.live[p] := box.(deaths := box.deaths + 1)], live := m.live - {p})
    else Fault(m)
  }

  function Allocate(m: Memory): Memory {
    m.(frees := m.frees + [0])
  }

  function Free(m: Memory, p: Ptr): Memory {
    if p.OnHeap? && p.block < |m.frees| && p !in m.live then
      m.(frees := m.frees[p.block := m.frees[p.block] + 1], fault := m.fault || m.frees[p.block] > 0)
    else Fault(m)
  }

  // Vtables and storage

  function WithSlot(st: State, a: Addr, s: Slot): State {
    st.(slots := st.slots[a := s])
  }

  function SetCmd(s: Slot, c: Cmd): Slot {
    s.(cmd := c, thunk := c)
  }

  function Retrieve(s: Slot, a: Addr, ty: BoxType, inPlace: bool): Ptr {
    if inPlace then
      match InPlaceAddress(ty, a, s.capacity)
      case Some(at) => InBuffer(a, at)
      case None => Null
    else
      match s.word
      case Holds(p) => p
      case Overwritten => Null
  }

  /** No erasure moved or changed its type. */
  ghost predicate ConfigKept(st: State, st': State) {
    && st'.slots.Keys == st.slots.Keys
    && (forall a :: a in st.slots ==>
          st'.slots[a].capacity == st.slots[a].capacity && st'.slots[a].copyable == st.slots[a].copyable)
  }

  /** `trait::construct`: in the buffer if it fits, else in a fresh heap block. */
  function Construct(st: State, to: Addr, ty: BoxType, code: int): (st': State)
    requires to in st.slots
    ensures ConfigKept(st, st')
  {
    var t := st.slots[to];
    match InPlaceAddress(ty, to, t.capacity)
    case Some(at) =>
      WithSlot(st, to, SetCmd(t, ProcessCmd(ty, true)).(word := Overwritten))
        .(mem := NewBox(st.mem, InBuffer(to, at), ty, code))
    case None =>
      var p := OnHeap(|st.mem.frees|);
      WithSlot(st, to, SetCmd(t, ProcessCmd(ty, false)).(word := Holds(p)))
        .(mem := NewBox(Allocate(st.mem), p, ty, code))
  }

  function Crash(st: State): State {
    st.(mem := Fault(st.mem))
  }

  /** `op_move` of a heap object: the target takes the pointer, which debug builds also clear at the source. */
  function HandPointer(st: State, from: Addr, to: Addr, ty: BoxType): (st': State)
    requires from in st.slots && to in st.slots
    ensures ConfigKept(st, st')
  {
    var handed := WithSlot(st, to, st.slots[to].(word := st.slots[from].word));
    var nulled := if st.release then handed
                  else WithSlot(handed, from, handed.slots[from].(word := Holds(Null)));
    WithSlot(nulled, to, SetCmd(nulled.slots[to], ProcessCmd(ty, false)))
  }

  /** `op_move` dispatched on the source's command table. */
  function CmdMove(st: State, from: Addr, to: Addr): (st': State)
    requires from in st.slots && to in st.slots
    ensures ConfigKept(st, st')
  {
    var f := st.slots[from];
    match f.cmd
    case Indeterminate => Crash(st)
    case EmptyCmd => WithSlot(st, to, SetCmd(st.slots[to], EmptyCmd))
    case ProcessCmd(ty, inPlace) =>
      var p := Retrieve(f, from, ty, inPlace);
      if inPlace then
        if !Readable(st.mem, p, ty) then Crash(st)
        else
          var moved := st.(mem := MoveFrom(st.mem, p, ty));
          var built := Construct(moved, to, ty, st.mem.boxes[st.mem.live[p]].code.value);
          built.(mem := EndBox(built.mem, p, ty))
      else if p == Null then Crash(st)
      else HandPointer(st, from, to, ty)
  }

  /** `vtable::move`. */
  function Move(st: State, from: Addr, to: Addr): (st': State)
    requires from in st.slots && to in st.slots
    ensures ConfigKept(st, st')
  {
    var moved := CmdMove(st, from, to);
    WithSlot(moved, from, SetCmd(moved.slots[from], EmptyCmd))
  }

  /** `vtable::copy`. */
  function Copy(st: State, from: Addr, to: Addr): (st': State)
    requires from in st.slots && to in st.slots
    ensures ConfigKept(st, st')
  {
    match st.slots[from].cmd
    case Indeterminate => Crash(st)
    case EmptyCmd => WithSlot(st, to, SetCmd(st.slots[to], EmptyCmd))
    case ProcessCmd(ty, inPlace) =>
      var p := Retrieve(st.slots[from], from, ty, inPlace);
      if Readable(st.mem, p, ty) && ty.copyable then
        Construct(st, to, ty, st.mem.boxes[st.mem.live[p]].code.value)
      else Crash(st)
  }

  /** `op_weak_destroy`: the box goes, the command table stays as it was. */
  function WeakDestroy(st: State, a: Addr): State
    requires a in st.slots
  {
    match st.slots[a].cmd
    case Indeterminate => Crash(st)
    case EmptyCmd => st
    case ProcessCmd(ty, inPlace) =>
      var p := Retrieve(st.slots[a], a, ty, inPlace);
      var ended := EndBox(st.mem, p, ty);
      st.(mem := if inPlace then ended else Free(ended, p))
  }

  /** `op_destroy`, which also resets the vtable of a non-empty erasure. */
  function StrongDestroy(st: State, a: Addr): State
    requires a in st.slots
  {
    var gone := WeakDestroy(st, a);
    if st.slots[a].cmd.ProcessCmd? then WithSlot(gone, a, SetCmd(gone.slots[a], EmptyCmd)) else gone
  }

  // Erasure members

  /** Storage of a new erasure, before its constructor body runs. */
  function Begin(st: State, a: Addr, capacity: nat, copyable: bool): State {
    WithSlot(st, a, Slot(capacity, copyable, Indeterminate, Indeterminate, Overwritten))
  }

  function MakeEmpty(st: State, a: Addr, capacity: nat, copyable: bool): State {
    var begun := Begin(st, a, capacity, copyable);
    WithSlot(begun, a, SetCmd(begun.slots[a], EmptyCmd))
  }

  function Make(st: State, a: Addr, capacity: nat, copyable: bool, ty: BoxType, code: int): State {
    Construct(Begin(st, a, capacity, copyable), a, ty, code)
  }

  function MoveMake(st: State, a: Addr, capacity: nat, copyable: bool, from: Addr): (st': State)
    requires from in st.slots
    ensures st'.slots.Keys == st.slots.Keys + {a}
  {
    Move(Begin(st, a, capacity, copyable), from, a)
  }

  function CopyMake(st: State, a: Addr, capacity: nat, copyable: bool, from: Addr): (st': State)
    requires from in st.slots
    ensures st'.slots.Keys == st.slots.Keys + {a}
  {
    Copy(Begin(st, a, capacity, copyable), from, a)
  }

  function Unmake(st: State, a: Addr): State
    requires a in st.slots
  {
    var gone := WeakDestroy(st, a);
    gone.(slots := gone.slots - {a})
  }

  function MoveAssign(st: State, a: Addr, from: Addr): (st': State)
    requires a in st.slots && from in st.slots
    ensures ConfigKept(st, st')
  {
    Move(WeakDestroy(st, a), from, a)
  }

  function CopyAssign(st: State, a: Addr, from: Addr): (st': State)
    requires a in st.slots && from in st.slots
    ensures ConfigKept(st, st')
  {
    Copy(WeakDestroy(st, a), from, a)
  }

  function Assign(st: State, a: Addr, ty: BoxType, code: int): State
    requires a in st.slots
  {
    Construct(WeakDestroy(st, a), a, ty, code)
  }

  /** The by-value argument of a converting operation: built from `from`, at `tmp`. */
  function Argument(st: State, from: Addr, tmp: Addr, copy: bool): (st': State)
    requires from in st.slots
    ensures st'.slots.Keys == st.slots.Keys + {tmp}
  {
    var f := st.slots[from];
    if copy then CopyMake(st, tmp, f.capacity, f.copyable, from) else MoveMake(st, tmp, f.capacity, f.copyable, from)
  }

  /** The converting constructor takes its argument by value: a temporary sits in between. */
  function ConvertMake(st: State, a: Addr, capacity: nat, copyable: bool, from: Addr, tmp: Addr, copy: bool): State
    requires from in st.slots
  {
    Unmake(MoveMake(Argument(st, from, tmp, copy), a, capacity, copyable, tmp), tmp)
  }

  function ConvertAssign(st: State, a: Addr, from: Addr, tmp: Addr, copy: bool): State
    requires a in st.slots && from in st.slots
  {
    Unmake(MoveAssign(Argument(st, from, tmp, copy), a, tmp), tmp)
  }

  /** `function::swap`: guarded against itself, then three moves through a local. */
  function Swap(st: State, a: Addr, b: Addr, cache: Addr): State
    requires a in st.slots && b in st.slots
  {
    if a == b then st
    else
      var s := st.slots[b];
      var s1 := MoveMake(st, cache, s.capacity, s.copyable, b);
      var s2 := MoveAssign(s1, b, a);
      var s3 := MoveAssign(s2, a, cache);
      Unmake(s3, cache)
  }

  // Queries

  /** `op_fetch_empty` through the command table; None if the table was never written. */
  function FetchEmpty(st: State, a: Addr): Option<bool>
    requires a in st.slots
  {
    match st.slots[a].cmd
    case Indeterminate => None
    case EmptyCmd => Some(true)
    case ProcessCmd(_, _) => Some(false)
  }

  datatype Outcome = Called(ty: BoxType, code: int) | BadFunctionCall | Aborted | Undefined

  /** The call operator, which dispatches on the thunk and not on the command table. */
  function Invoke(st: State, a: Addr, isThrowing: bool): Outcome
    requires a in st.slots
  {
    var s := st.slots[a];
    match s.thunk
    case Indeterminate => Undefined
    case EmptyCmd => if isThrowing then BadFunctionCall else Aborted
    case ProcessCmd(ty, inPlace) =>
      var p := Retrieve(s, a, ty, inPlace);
      if Readable(st.mem, p, ty) then Called(ty, st.mem.boxes[st.mem.live[p]].code.value) else Undefined
  }
}
