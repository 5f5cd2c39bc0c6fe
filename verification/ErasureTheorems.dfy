/** The promises of the owning function wrapper, read off the invariant and the refinement. */
module ErasureTheorems {
  import opened Prelude
  import opened ErasureLayout
  import opened ErasureMachine
  import opened ErasureSafety
  import opened ErasureRuns

  const NO_MEMORY := Memory([], map[], [], false)

  function Start(release: bool): State {
    State(map[], NO_MEMORY, release)
  }

  /** Over every legal run the wrapper never does anything undefined, and refines optional callables. */
  lemma RunsAreSafe(release: bool, ops: seq<Op>)
    requires LegalRun(Start(release), ops)
    ensures var st := Run(Start(release), ops);
      !st.mem.fault && Inv(st) && ViewOf(st) == ViewRun(map[], ops)
  {
    assert ViewOf(Start(release)) == map[];
    RunRefines(Start(release), ops);
  }

  ghost predicate Owns(st: State, a: Addr, id: nat) {
    && a in st.slots
    && Home(st.slots[a], a) in st.mem.live
    && st.mem.live[Home(st.slots[a], a)] == id
  }

  /**
   At any moment of any run a box that was ever built is either alive with exactly one owner, or
   was destroyed exactly once and has none; an empty erasure owns no box.
   */
  lemma EachBoxHasOneOwnerOrIsDeadOnce(st: State, id: nat)
    requires Inv(st) && id < |st.mem.boxes|
    ensures st.mem.boxes[id].deaths == 0 ==>
              exists a :: Owns(st, a, id) && forall b :: Owns(st, b, id) ==> b == a
    ensures st.mem.boxes[id].deaths != 0 ==>
              st.mem.boxes[id].deaths == 1 && forall a :: !Owns(st, a, id)
  {
    if st.mem.boxes[id].deaths == 0 {
      var a :| a in st.slots && Home(st.slots[a], a) == st.mem.boxes[id].at;
      assert Owns(st, a, id);
      forall b | Owns(st, b, id)
        ensures b == a
      {
        assert Home(st.slots[b], b) == st.mem.boxes[id].at != Null;
      }
    }
  }

  /** Once every erasure of a run is gone, each box was destroyed and each block freed exactly once. */
  lemma NothingLeaks(release: bool, ops: seq<Op>)
    requires LegalRun(Start(release), ops) && Run(Start(release), ops).slots == map[]
    ensures var m := Run(Start(release), ops).mem;
      && m.live == map[]
      && (forall id :: 0 <= id < |m.boxes| ==> m.boxes[id].deaths == 1)
      && (forall b :: 0 <= b < |m.frees| ==> m.frees[b] == 1)
  {
    RunsAreSafe(release, ops);
    var st := Run(Start(release), ops);
    NoOwnersNoBoxes(st.slots, st.mem.live.Keys);
  }

  lemma NoOwnersNoBoxes(slots: map<Addr, Slot>, live: set<Ptr>)
    requires Covered(slots, live, {})
    ensures live == {}
  {
    if p :| p in live {
      assert false;
    }
  }

  /**
   Wherever a box was constructed, `retrieve` finds it again at that very address whenever the
   erasure is moved, invoked or destroyed.
   */
  lemma RetrieveFindsTheBox(st: State, a: Addr)
    requires Inv(st) && a in st.slots && st.slots[a].cmd.ProcessCmd?
    ensures var c := st.slots[a].cmd;
      var p := Retrieve(st.slots[a], a, c.ty, c.inPlace);
      && p != Null && p in st.mem.live
      && st.mem.boxes[st.mem.live[p]].at == p
      && st.mem.boxes[st.mem.live[p]].ty == c.ty
      && (c.inPlace <==> p.InBuffer?)
      && (c.inPlace ==> p.owner == a && Fits(c.ty, a, st.slots[a].capacity, p.at))
      && st.slots[a].thunk == c
  {
    var c := st.slots[a].cmd;
    assert SlotOk(st, a);
    if c.inPlace {
      InPlaceExactlyWhenItFits(c.ty, a, st.slots[a].capacity);
    }
  }

  /** `empty()` and the call operator agree with the optional callable. */
  lemma QueriesAgree(st: State, a: Addr, isThrowing: bool)
    requires Inv(st) && a in st.slots
    ensures FetchEmpty(st, a) == Some(ViewOf(st)[a] == None)
    ensures Invoke(st, a, isThrowing) ==
      match ViewOf(st)[a]
      case Some(target) => Called(target.ty, target.code)
      case None => if isThrowing then BadFunctionCall else Aborted
  {
    assert SlotOk(st, a);
  }

  ghost function Holders(st: State, own: set<Addr>): set<Addr>
    requires own <= st.slots.Keys
  {
    set a | a in own && st.slots[a].cmd.ProcessCmd?
  }

  lemma HoldersWithout(st: State, st': State, own: set<Addr>, a: Addr)
    requires own <= st.slots.Keys && a in own && st'.slots == st.slots
    ensures |Holders(st, own)| == |Holders(st', own - {a})| + (if st.slots[a].cmd.ProcessCmd? then 1 else 0)
  {
    if st.slots[a].cmd.ProcessCmd? {
      assert Holders(st, own) == Holders(st', own - {a}) + {a};
    } else {
      assert Holders(st, own) == Holders(st', own - {a});
    }
  }

  lemma OneKeyLess<T>(live: set<T>, live': set<T>, p: T)
    requires live' == live - {p}
    ensures |live'| == |live| - (if p in live then 1 else 0)
  {
    if p in live {
      assert live == live' + {p};
    } else {
      assert live == live';
    }
  }

  /** Weakly destroying one owner takes away its box and nothing else. */
  lemma OneOwnerLess(st: State, own: set<Addr>, a: Addr)
    requires OwnedBy(st, own) && a in own
    ensures var st' := WeakDestroy(st, a);
      && OwnedBy(st', own - {a})
      && |st.mem.live.Keys| - |st'.mem.live.Keys| == |Holders(st, own)| - |Holders(st', own - {a})|
  {
    var st', p := WeakDestroy(st, a), Home(st.slots[a], a);
    assert st.slots[a].cmd.ProcessCmd? <==> p in st.mem.live by {
      assert Null !in st.mem.live && SlotOk(st, a);
    }
    WeakDestroyReleases(st, own, a);
    hide OwnedBy, WeakDestroy, Home, Holders;
    HoldersWithout(st, st', own, a);
    OneKeyLess(st.mem.live.Keys, st'.mem.live.Keys, p);
  }

  /** There are exactly as many live boxes as non-empty owners. */
  lemma {:induction false} LiveBoxesAreCounted(st: State, own: set<Addr>)
    requires OwnedBy(st, own)
    ensures |st.mem.live.Keys| == |Holders(st, own)|
    decreases own
  {
    hide MemoryOk, Covered, Unshared, SlotOk;
    if own == {} {
      NoOwnersNoBoxes(st.slots, st.mem.live.Keys);
    } else {
      var a :| a in own;
      OneOwnerLess(st, own, a);
      LiveBoxesAreCounted(WeakDestroy(st, a), own - {a});
    }
  }

  /** There are exactly as many live boxes as erasures that hold something. */
  lemma LiveBoxesArePresentCallables(st: State)
    requires Inv(st)
    ensures |st.mem.live| == |Present(ViewOf(st))|
  {
    LiveBoxesAreCounted(st, st.slots.Keys);
    hide MemoryOk, Covered, Unshared, SlotOk;
    assert Holders(st, st.slots.Keys) == Present(ViewOf(st));
  }

  lemma SwapIsOp(st: State, a: Addr, b: Addr, cache: Addr)
    requires a in st.slots && b in st.slots && cache !in st.slots && SameType(st, a, b)
    ensures Legal(st, OpSwap(a, b, cache)) && Step(st, OpSwap(a, b, cache)) == Swap(st, a, b, cache)
    ensures forall v: View :: ViewStep(v, OpSwap(a, b, cache)) == Exchange(v, a, b)
  {
    hide Swap, Exchange;
  }

  lemma SwapOnItself(st: State, a: Addr, cache: Addr)
    requires a in st.slots
    ensures Swap(st, a, a, cache) == st
  {
  }

  lemma SwapIsAStep(st: State, a: Addr, b: Addr, cache: Addr)
    requires Inv(st) && a in st.slots && b in st.slots && cache !in st.slots && SameType(st, a, b)
    ensures var st' := Swap(st, a, b, cache);
      && Inv(st') && ViewOf(st') == Exchange(ViewOf(st), a, b)
      && ViewOf(st).Keys == st.slots.Keys
      && (a == b ==> st' == st)
  {
    SwapIsOp(st, a, b, cache);
    hide Inv, ViewOf, Exchange, Swap, Step, ViewStep, Legal, SameType;
    StepRefines(st, OpSwap(a, b, cache));
    SwapOnItself(st, a, cache);
  }

  /**
   `swap` exchanges the two callables, whatever storage each side uses, leaves every other
   erasure alone, and neither loses nor duplicates a box. On one and the same object it is
   the identity.
   */
  lemma SwapExchanges(st: State, a: Addr, b: Addr, cache: Addr)
    requires Inv(st) && a in st.slots && b in st.slots && cache !in st.slots && SameType(st, a, b)
    ensures var st' := Swap(st, a, b, cache);
      && Inv(st')
      && ViewOf(st') == Exchange(ViewOf(st), a, b)
      && |st'.mem.live| == |st.mem.live|
      && (a == b ==> st' == st)
  {
    hide OwnedBy, Content, Exchange, Present, Swap, ViewOf;
    var st' := Swap(st, a, b, cache);
    SwapIsAStep(st, a, b, cache);
    LiveBoxesArePresentCallables(st);
    LiveBoxesArePresentCallables(st');
    ExchangeKeepsCount(ViewOf(st), a, b);
  }

  ghost function Present(v: View): set<Addr> {
    set a | a in v && v[a].Some?
  }

  lemma ExchangeKeepsCount(v: View, a: Addr, b: Addr)
    requires a in v && b in v
    ensures |Present(Exchange(v, a, b))| == |Present(v)|
  {
    var v', present := Exchange(v, a, b), Present(v);
    PresentAfterExchange(v, a, b);
    hide Present, Exchange;
    if v[a].Some? == v[b].Some? {
      assert Present(v') == present;
    } else if v[a].Some? {
      assert Present(v') == present - {a} + {b};
    } else {
      assert Present(v') == present - {b} + {a};
    }
  }

  lemma PresentAfterExchange(v: View, a: Addr, b: Addr)
    requires a in v && b in v
    ensures forall c :: c in Present(v) <==> c in v && v[c].Some?
    ensures forall c :: c in Present(Exchange(v, a, b)) <==>
              c in v && (if c == a then v[b].Some? else if c == b then v[a].Some? else v[c].Some?)
  {
  }

  /** The erasures an operation names; it changes what no other one holds. */
  function Touched(op: Op): set<Addr> {
    match op
    case OpMoveMake(a, from) => {a, from}
    case OpConvertMake(a, _, _, from, _, copy) => if copy then {a} else {a, from}
    case OpMoveTo(a, from) => {a, from}
    case OpConvertTo(a, from, _, copy) => if copy then {a} else {a, from}
    case OpSwap(a, b, _) => {a, b}
    case _ => {op.a}
  }

  lemma {:induction false} UntouchedStays(v: View, ops: seq<Op>, a: Addr)
    requires forall i :: 0 <= i < |ops| ==> a !in Touched(ops[i])
    ensures (a in ViewRun(v, ops)) == (a in v)
    ensures a in v ==> ViewRun(v, ops)[a] == v[a]
    decreases |ops|
  {
    if ops != [] {
      UntouchedStays(ViewStep(v, ops[0]), ops[1..], a);
    }
  }

  /** A copy holds an equal callable, in storage of its own, and the source keeps its own. */
  lemma CopiesShareNothing(st: State, a: Addr, from: Addr)
    requires Inv(st) && Legal(st, OpCopyTo(a, from))
    ensures var st' := CopyAssign(st, a, from);
      && Inv(st')
      && ViewOf(st') == ViewOf(st)[a := ViewOf(st)[from]]
      && (ViewOf(st)[from].Some? ==> Home(st'.slots[a], a) != Home(st'.slots[from], from))
  {
    StepRefines(st, OpCopyTo(a, from));
    hide MemoryOk, Covered, CopyAssign;
    var st' := CopyAssign(st, a, from);
    assert SlotOk(st', a) && SlotOk(st', from) && ViewOf(st')[from] == ViewOf(st)[from];
  }

  /** Whatever legal operations later happen to other erasures, one that they do not name stays as it is. */
  lemma OthersAreUnaffected(st: State, ops: seq<Op>, a: Addr)
    requires Inv(st) && a in st.slots && LegalRun(st, ops)
    requires forall i :: 0 <= i < |ops| ==> a !in Touched(ops[i])
    ensures var st' := Run(st, ops);
      Inv(st') && a in st'.slots && ViewOf(st')[a] == ViewOf(st)[a]
  {
    hide MemoryOk, Covered, Unshared, SlotOk, Content, Touched, Legal, Step, ViewStep;
    RunRefines(st, ops);
    UntouchedStays(ViewOf(st), ops, a);
    assert a in ViewOf(Run(st, ops));
  }

  /**
   Assigning an erasure to itself is not guarded. A move is harmless to memory exactly when the
   callable is not in the buffer, and then the callable is lost; a copy exactly when there is
   no callable.
   */
  lemma SelfMoveAssignment(st: State, a: Addr)
    requires Inv(st) && a in st.slots
    ensures MoveAssign(st, a, a).mem.fault <==> st.slots[a].cmd.ProcessCmd? && st.slots[a].cmd.inPlace
    ensures !MoveAssign(st, a, a).mem.fault ==>
              Inv(MoveAssign(st, a, a)) && ViewOf(MoveAssign(st, a, a)) == ViewOf(st)[a := None]
  {
    if st.slots[a].cmd.ProcessCmd? && st.slots[a].cmd.inPlace {
      SelfMoveOfBufferFaults(st, a);
    } else {
      SelfMoveElsewhereClears(st, a);
    }
  }

  lemma SelfMoveElsewhereClears(st: State, a: Addr)
    requires Inv(st) && a in st.slots
    requires !(st.slots[a].cmd.ProcessCmd? && st.slots[a].cmd.inPlace)
    ensures var st' := MoveAssign(st, a, a);
      Inv(st') && ViewOf(st') == ViewOf(st)[a := None]
  {
    var gone, own := WeakDestroy(st, a), st.slots.Keys - {a};
    assert st.slots[a].cmd == EmptyCmd || (st.slots[a].cmd.ProcessCmd? && Home(st.slots[a], a) != Null) by {
      assert SlotOk(st, a);
    }
    WeakDestroyReleases(st, st.slots.Keys, a);
    assert WeakDestroy(st, a).slots == st.slots && MemoryOk(WeakDestroy(st, a).mem);
    hide MemoryOk, Readable, Home, Covered, Unshared, SlotOk, Content, WeakDestroy, Move, ViewOf, Same;
    SelfMoveLeavesEmpty(gone, own, a);
    SameThenSame(st, gone, Move(gone, a, a), own, own);
    PutShows(st, Move(gone, a, a), a, BoxType(1, 1, false), 0, false);
  }

  lemma SelfMoveOfBufferFaults(st: State, a: Addr)
    requires Inv(st) && a in st.slots
    requires st.slots[a].cmd.ProcessCmd? && st.slots[a].cmd.inPlace
    ensures MoveAssign(st, a, a).mem.fault
  {
    WeakDestroyReleases(st, st.slots.Keys, a);
    assert Home(st.slots[a], a) !in WeakDestroy(st, a).mem.live;
  }

  lemma SelfMoveLeavesEmpty(st: State, own: set<Addr>, a: Addr)
    requires OwnedBy(st, own) && st.slots.Keys == own + {a} && a !in own
    requires st.slots[a].cmd == EmptyCmd || (st.slots[a].cmd.ProcessCmd? && !st.slots[a].cmd.inPlace)
    requires st.slots[a].cmd.ProcessCmd? ==> Home(st.slots[a], a) != Null
    ensures var st' := Move(st, a, a);
      Inv(st') && Same(st, st', own) && Content(st', a) == None
  {
    var st' := Move(st, a, a);
    assert st'.mem == st.mem && st'.slots == st.slots[a := st'.slots[a]];
    assert st'.slots[a].cmd == st'.slots[a].thunk == EmptyCmd && Home(st'.slots[a], a) == Null;
    hide MemoryOk, Covered, Unshared, Move, Home, Readable;
    KeptBoxesKeepContents(st, st', own);
    OwnersStay(st.slots, st.mem.live.Keys, own, st'.slots);
    OwnersGainEmpty(st'.slots, st.mem.live.Keys, own, a);
    assert own + {a} == st'.slots.Keys && SlotOk(st', a);
  }

  lemma SelfCopyAssignment(st: State, a: Addr)
    requires Inv(st) && a in st.slots
    ensures CopyAssign(st, a, a).mem.fault <==> ViewOf(st)[a].Some?
    ensures ViewOf(st)[a] == None ==> CopyAssign(st, a, a) == st
  {
    WeakDestroyReleases(st, st.slots.Keys, a);
    assert SlotOk(st, a);
    assert Home(st.slots[a], a) !in WeakDestroy(st, a).mem.live;
  }

  /**
   What a move costs: a heap block is handed over as it is; an object in the buffer is rebuilt,
   and needs a new block exactly when it does not fit into the target's buffer.
   */
  lemma MoveAllocatesOnlyWhenItMust(st: State, from: Addr, to: Addr)
    requires Inv(st) && from in st.slots && to in st.slots && from != to && SameType(st, from, to)
    ensures var gone := WeakDestroy(st, to);
      var st' := MoveAssign(st, to, from);
      var rebuilt := st.slots[from].cmd.ProcessCmd? && st.slots[from].cmd.inPlace;
      && |st'.mem.boxes| == |st.mem.boxes| + (if rebuilt then 1 else 0)
      && |st'.mem.frees| == |st.mem.frees|
           + (if rebuilt && InPlaceAddress(st.slots[from].cmd.ty, to, st.slots[to].capacity) == None then 1 else 0)
      && (st.slots[from].cmd.ProcessCmd? && !rebuilt ==>
            Home(st'.slots[to], to) == Home(st.slots[from], from))
  {
    WeakDestroyReleases(st, st.slots.Keys, to);
    var gone := WeakDestroy(st, to);
    assert SlotOk(gone, from);
    if st.slots[from].cmd.ProcessCmd? && st.slots[from].cmd.inPlace {
      MoveInMemory(gone, st.slots.Keys - {to}, from, to);
      BoxCountsOfMove(gone, from, to);
    }
    WeakDestroyKeepsCounts(st, to);
  }

  lemma WeakDestroyKeepsCounts(st: State, a: Addr)
    requires a in st.slots
    ensures |WeakDestroy(st, a).mem.boxes| == |st.mem.boxes|
    ensures |WeakDestroy(st, a).mem.frees| == |st.mem.frees|
  {
  }

  lemma BoxCountsOfMove(st: State, from: Addr, to: Addr)
    requires from in st.slots && to in st.slots
    requires st.slots[from].cmd.ProcessCmd? && st.slots[from].cmd.inPlace
    requires !Move(st, from, to).mem.fault
    ensures |Move(st, from, to).mem.boxes| == |st.mem.boxes| + 1
    ensures |Move(st, from, to).mem.frees| ==
      |st.mem.frees| + (if InPlaceAddress(st.slots[from].cmd.ty, to, st.slots[to].capacity) == None then 1 else 0)
  {
  }
}
