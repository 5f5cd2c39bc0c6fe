/** Any number of descriptor holders, over whole runs. */
module FdOwnership {
  import opened Prelude
  import opened FdHolder

  /**
   `holders` maps each live holder to its number. `acquired` and `released` record what was
   handed to holders and what they gave up; `thrown` that some `reset` or destructor failed.
   */
  datatype Sys = Sys(
    holders: map<nat, int>, table: Table,
    acquired: multiset<nat>, released: multiset<nat>, thrown: bool)

  datatype Event =
    | KernelOpens(fd: int)
    | ClosedElsewhere(fd: int)
    | CreateEmpty(h: nat)
    | CreateWith(h: nat, fd: int)
    | MoveConstruct(h: nat, from: nat)
    | MoveAssign(h: nat, from: nat)
    | Swap(h: nat, from: nat)
    | CallReset(h: nat, fd: int)
    | Release(h: nat)
    | Destroy(h: nat)

  /** Objects exist while used, and the kernel gives out numbers that are not in use. */
  predicate Legal(s: Sys, e: Event) {
    match e
    case KernelOpens(fd) => 0 <= fd && fd !in s.table.open
    case ClosedElsewhere(fd) => fd in s.table.open
    case CreateEmpty(h) => h !in s.holders
    case CreateWith(h, _) => h !in s.holders
    case MoveConstruct(h, from) => h !in s.holders && from in s.holders
    case MoveAssign(h, from) => h in s.holders && from in s.holders
    case Swap(h, from) => h in s.holders && from in s.holders
    case _ => e.h in s.holders
  }

  /** What the number stands for, as a multiset of at most one. */
  function Standing(t: Table, fd: int): multiset<nat> {
    if fd in t.open then multiset{t.open[fd]} else multiset{}
  }

  function Step(s: Sys, e: Event): Sys
    requires Legal(s, e)
  {
    match e
    case KernelOpens(fd) => s.(table := Opened(s.table, fd))
    case ClosedElsewhere(fd) => s.(table := s.table.(open := s.table.open - {fd}))
    case CreateEmpty(h) => s.(holders := s.holders[h := NONE])
    case CreateWith(h, fd) => s.(holders := s.holders[h := fd], acquired := s.acquired + Standing(s.table, fd))
    case MoveConstruct(h, from) => s.(holders := s.holders[h := s.holders[from]][from := NONE])
    case MoveAssign(h, from) => s.(holders := s.holders[h := s.holders[from]][from := s.holders[h]])
    case Swap(h, from) => s.(holders := s.holders[h := s.holders[from]][from := s.holders[h]])
    case CallReset(h, fd) =>
      var (ok, fd', t') := Reset(s.table, s.holders[h], fd);
      if !ok then s.(thrown := true)
      else s.(holders := s.holders[h := fd'], table := t', acquired := s.acquired + Standing(t', fd))
    case Release(h) => s.(holders := s.holders[h := NONE], released := s.released + Standing(s.table, s.holders[h]))
    case Destroy(h) =>
      var (ok, fd', t') := Reset(s.table, s.holders[h], NONE);
      if !ok then s.(thrown := true) else s.(holders := s.holders - {h}, table := t')
  }

  function Numbers(holders: map<nat, int>): set<int> {
    set h | h in holders && holders[h] != NONE :: holders[h]
  }

  /** What must be respected: a holder is given an open descriptor that no holder has, or none. */
  predicate Proper(s: Sys, e: Event) {
    match e
    case CreateWith(_, fd) => fd == NONE || (fd in s.table.open && fd !in Numbers(s.holders))
    case CallReset(_, fd) => fd == NONE || (fd in s.table.open && fd !in Numbers(s.holders))
    case ClosedElsewhere(fd) => fd !in Numbers(s.holders)
    case _ => true
  }

  function Start(): Sys {
    Sys(map[], Table(map[], 0, multiset{}), multiset{}, multiset{}, false)
  }

  // The invariant

  /** No two holders have the same number. */
  predicate Exclusive(holders: map<nat, int>) {
    forall g, h :: g in holders && h in holders && holders[g] == holders[h] != NONE ==> g == h
  }

  predicate TableOk(t: Table) {
    && NONE !in t.open
    && (forall fd :: fd in t.open ==> t.open[fd] < t.next && t.closed[t.open[fd]] == 0)
    && (forall fd, fe :: fd in t.open && fe in t.open && t.open[fd] == t.open[fe] ==> fd == fe)
    && (forall i :: i in t.closed ==> i < t.next && t.closed[i] == 1)
  }

  function Instances(numbers: set<int>, t: Table): set<nat> {
    set fd | fd in numbers && fd in t.open :: t.open[fd]
  }

  /** Everything acquired is owned, closed or released. */
  predicate Books(numbers: set<int>, t: Table, acquired: multiset<nat>, released: multiset<nat>) {
    && TableOk(t)
    && (forall fd :: fd in numbers ==> fd in t.open)
    && acquired == t.closed + released + multiset(Instances(numbers, t))
  }

  predicate Inv(s: Sys) {
    !s.thrown && Exclusive(s.holders) && Books(Numbers(s.holders), s.table, s.acquired, s.released)
  }

  lemma BooksAcquire(numbers: set<int>, t: Table, acquired: multiset<nat>, released: multiset<nat>, fd: int)
    requires Books(numbers, t, acquired, released) && fd in t.open && fd !in numbers
    ensures Books(numbers + {fd}, t, acquired + multiset{t.open[fd]}, released)
  {
    assert Instances(numbers + {fd}, t) == Instances(numbers, t) + {t.open[fd]};
    assert t.open[fd] !in Instances(numbers, t);
  }

  lemma InstancesLess(numbers: set<int>, t: Table, fd: int)
    requires TableOk(t) && fd in t.open && fd in numbers
    ensures Instances(numbers - {fd}, t) == Instances(numbers, t) - {t.open[fd]}
    ensures t.open[fd] in Instances(numbers, t)
    ensures Instances(numbers - {fd}, t.(open := t.open - {fd})) == Instances(numbers - {fd}, t)
  {
  }

  lemma BooksRelease(numbers: set<int>, t: Table, acquired: multiset<nat>, released: multiset<nat>, fd: int)
    requires Books(numbers, t, acquired, released) && fd in numbers
    ensures Books(numbers - {fd}, t, acquired, released + multiset{t.open[fd]})
  {
    InstancesLess(numbers, t, fd);
  }

  lemma BooksClose(numbers: set<int>, t: Table, acquired: multiset<nat>, released: multiset<nat>, fd: int)
    requires Books(numbers, t, acquired, released) && fd in numbers
    ensures Close(t, fd).0 && Books(numbers - {fd}, Close(t, fd).1, acquired, released)
  {
    var t' := Close(t, fd).1;
    InstancesLess(numbers, t, fd);
    assert Instances(numbers - {fd}, t') == Instances(numbers - {fd}, t.(open := t.open - {fd}));
  }

  lemma BooksElsewhere(numbers: set<int>, t: Table, acquired: multiset<nat>, released: multiset<nat>, fd: int)
    requires Books(numbers, t, acquired, released) && fd !in numbers
    ensures Books(numbers, t.(open := t.open - {fd}), acquired, released)
    ensures 0 <= fd && fd !in t.open ==> Books(numbers, Opened(t, fd), acquired, released)
  {
    assert Instances(numbers, t.(open := t.open - {fd})) == Instances(numbers, t);
    if 0 <= fd && fd !in t.open {
      assert Instances(numbers, Opened(t, fd)) == Instances(numbers, t);
    }
  }

  lemma NumbersAfter(holders: map<nat, int>, h: nat, fd: int)
    requires Exclusive(holders)
    ensures var was := if h in holders then {holders[h]} else {};
      && Numbers(holders[h := fd]) == Numbers(holders) - was + ({fd} - {NONE})
      && Numbers(holders - {h}) == Numbers(holders) - was
    ensures fd !in Numbers(holders) ==> Exclusive(holders[h := fd])
    ensures Exclusive(holders - {h})
  {
    var was := if h in holders then {holders[h]} else {};
    forall n | n in Numbers(holders) - was
      ensures n in Numbers(holders[h := fd]) && n in Numbers(holders - {h})
    {
      var g :| g in holders && holders[g] == n;
      assert holders[h := fd][g] == n && (holders - {h})[g] == n;
    }
    if fd != NONE {
      assert holders[h := fd][h] == fd;
    }
  }

  lemma NumbersExchanged(holders: map<nat, int>, g: nat, h: nat)
    requires Exclusive(holders) && g in holders && h in holders
    ensures var holders' := holders[g := holders[h]][h := holders[g]];
      Numbers(holders') == Numbers(holders) && Exclusive(holders')
  {
    var holders' := holders[g := holders[h]][h := holders[g]];
    forall k | k in holders
      ensures holders'[k] == holders[if k == g then h else if k == h then g else k]
      ensures holders[k] == holders'[if k == g then h else if k == h then g else k]
    {
    }
  }

  lemma MovingKeepsInv(s: Sys, e: Event)
    requires Inv(s) && Legal(s, e) && (e.MoveConstruct? || e.MoveAssign? || e.Swap? || e.CreateEmpty?)
    ensures Inv(Step(s, e))
  {
    hide Books;
    var n := Numbers(s.holders);
    if e.CreateEmpty? {
      NumbersAfter(s.holders, e.h, NONE);
      assert n - {} + ({NONE} - {NONE}) == n;
    } else if e.MoveConstruct? {
      NumbersAfter(s.holders, e.h, NONE);
      assert n - {} + ({NONE} - {NONE}) == n;
      var holders: map<nat, int> := s.holders[e.h := NONE];
      assert Step(s, e).holders == holders[e.h := holders[e.from]][e.from := holders[e.h]];
      NumbersExchanged(holders, e.h, e.from);
    } else {
      NumbersExchanged(s.holders, e.h, e.from);
    }
  }

  /** A holder with nothing in it is given the number `fd`. */
  function Given(s: Sys, h: nat, fd: int): Sys {
    s.(holders := s.holders[h := fd], acquired := s.acquired + Standing(s.table, fd))
  }

  /** A holder closes what it has, if anything, and is left empty. */
  function Emptied(s: Sys, h: nat): Sys
    requires h in s.holders
  {
    var (ok, fd', t') := Reset(s.table, s.holders[h], NONE);
    if ok then s.(holders := s.holders[h := NONE], table := t') else s.(thrown := true)
  }

  lemma GivenKeepsInv(s: Sys, h: nat, fd: int)
    requires Inv(s) && (h in s.holders ==> s.holders[h] == NONE)
    requires fd == NONE || (fd in s.table.open && fd !in Numbers(s.holders))
    ensures Inv(Given(s, h, fd))
  {
    NumbersAfter(s.holders, h, fd);
    NoneIsNoNumber(s.holders);
    var n := Numbers(s.holders);
    if fd != NONE {
      BooksAcquire(n, s.table, s.acquired, s.released, fd);
      assert n - {NONE} + ({fd} - {NONE}) == n + {fd} == n - {} + ({fd} - {NONE});
    } else {
      assert n - {NONE} + ({fd} - {NONE}) == n == n - {} + ({fd} - {NONE});
    }
    hide Exclusive, Numbers, Instances;
  }

  lemma EmptiedKeepsInv(s: Sys, h: nat)
    requires Inv(s) && h in s.holders
    ensures Inv(Emptied(s, h)) && !Emptied(s, h).thrown
    ensures Numbers(Emptied(s, h).holders) == Numbers(s.holders) - {s.holders[h]}
  {
    NumbersAfter(s.holders, h, NONE);
    NoneIsNoNumber(s.holders);
    var n := Numbers(s.holders);
    assert n - {s.holders[h]} + ({NONE} - {NONE}) == n - {s.holders[h]};
    if s.holders[h] != NONE {
      NumberIn(s.holders, h);
      hide Exclusive, Numbers, Instances;
      BooksClose(n, s.table, s.acquired, s.released, s.holders[h]);
    } else {
      assert s.holders[h := NONE] == s.holders;
      assert n - {NONE} == n;
    }
  }

  lemma ReleaseKeepsInv(s: Sys, h: nat)
    requires Inv(s) && h in s.holders
    ensures Inv(Step(s, Release(h)))
  {
    NumbersAfter(s.holders, h, NONE);
    NoneIsNoNumber(s.holders);
    var n := Numbers(s.holders);
    assert n - {s.holders[h]} + ({NONE} - {NONE}) == n - {s.holders[h]};
    if s.holders[h] != NONE {
      NumberIn(s.holders, h);
      hide Exclusive, Numbers, Instances;
      BooksRelease(n, s.table, s.acquired, s.released, s.holders[h]);
    } else {
      assert s.holders[h := NONE] == s.holders;
      assert s.released + multiset{} == s.released;
    }
  }

  lemma NumberIn(holders: map<nat, int>, h: nat)
    requires h in holders && holders[h] != NONE
    ensures holders[h] in Numbers(holders)
  {
  }

  lemma NoneIsNoNumber(holders: map<nat, int>)
    ensures NONE !in Numbers(holders)
  {
  }

  lemma OwnedCloses(s: Sys, h: nat, fd: int)
    requires Inv(s) && h in s.holders
    ensures var (ok, fd', t') := Reset(s.table, s.holders[h], fd);
      ok && fd' == fd && t' == Reset(s.table, s.holders[h], NONE).2 == Emptied(s, h).table
  {
    EmptiedKeepsInv(s, h);
  }

  /** A `reset` closes first, and takes the new descriptor only then. */
  lemma ResetIsEmptyThenGive(s: Sys, h: nat, fd: int)
    requires Inv(s) && h in s.holders
    ensures Step(s, CallReset(h, fd)) == Given(Emptied(s, h), h, fd)
    ensures Step(s, Destroy(h)) == var s' := Emptied(s, h); s'.(holders := s'.holders - {h})
  {
    OwnedCloses(s, h, fd);
    OwnedCloses(s, h, NONE);
    hide Inv, Reset, Standing;
    assert s.holders[h := NONE][h := fd] == s.holders[h := fd];
    assert s.holders[h := NONE] - {h} == s.holders - {h};
  }

  lemma ResetKeepsInv(s: Sys, h: nat, fd: int)
    requires Inv(s) && h in s.holders && Proper(s, CallReset(h, fd))
    ensures Inv(Step(s, CallReset(h, fd)))
  {
    ResetIsEmptyThenGive(s, h, fd);
    EmptiedKeepsInv(s, h);
    NumberIsHeld(s, h);
    hide Inv, Step, Numbers;
    GivenKeepsInv(Emptied(s, h), h, fd);
  }

  lemma NumberIsHeld(s: Sys, h: nat)
    requires h in s.holders
    ensures s.holders[h] == NONE || s.holders[h] in Numbers(s.holders)
  {
  }

  lemma DestroyKeepsInv(s: Sys, h: nat)
    requires Inv(s) && h in s.holders
    ensures Inv(Step(s, Destroy(h)))
  {
    var s' := Emptied(s, h);
    ResetIsEmptyThenGive(s, h, NONE);
    EmptiedKeepsInv(s, h);
    NumbersAfter(s'.holders, h, NONE);
    NoneIsNoNumber(s'.holders);
    var n := Numbers(s'.holders);
    assert n - {NONE} == n;
    hide Exclusive, Numbers, Books;
  }

  lemma StepKeepsInv(s: Sys, e: Event)
    requires Inv(s) && Legal(s, e) && Proper(s, e)
    ensures Inv(Step(s, e))
  {
    match e
    case KernelOpens(fd) => BooksElsewhere(Numbers(s.holders), s.table, s.acquired, s.released, fd);
    case ClosedElsewhere(fd) => BooksElsewhere(Numbers(s.holders), s.table, s.acquired, s.released, fd);
    case CreateWith(h, fd) => GivenKeepsInv(s, h, fd);
    case CallReset(h, fd) => ResetKeepsInv(s, h, fd);
    case Release(h) => ReleaseKeepsInv(s, h);
    case Destroy(h) => DestroyKeepsInv(s, h);
    case _ => MovingKeepsInv(s, e);
  }

  /**
   The rule for giving descriptors to holders is exact: a call that follows it keeps everything
   in order, and one that does not leaves a holder with a descriptor that is not its own. Giving
   a holder the number that it already has is among the latter.
   */
  lemma InOrderExactlyWhenProper(s: Sys, e: Event)
    requires Inv(s) && Legal(s, e)
    ensures Inv(Step(s, e)) <==> Proper(s, e)
  {
    if Proper(s, e) {
      StepKeepsInv(s, e);
    } else if e.ClosedElsewhere? {
      assert e.fd in Numbers(s.holders);
    } else {
      ImproperGiftShows(s, e.h, e.fd, e.CallReset?);
    }
  }

  lemma ImproperGiftShows(s: Sys, h: nat, fd: int, reset: bool)
    requires Inv(s) && (reset <==> h in s.holders)
    requires fd != NONE && (fd !in s.table.open || fd in Numbers(s.holders))
    ensures !Inv(Step(s, if reset then CallReset(h, fd) else CreateWith(h, fd)))
  {
    var s' := Step(s, if reset then CallReset(h, fd) else CreateWith(h, fd));
    if reset {
      ResetIsEmptyThenGive(s, h, fd);
      EmptiedKeepsInv(s, h);
    }
    assert s'.holders[h] == fd;
    NumberIn(s'.holders, h);
    if fd in Numbers(s.holders) {
      var g :| g in s.holders && s.holders[g] == fd;
      assert g != h ==> s'.holders[g] == fd;
    }
  }

  // Runs

  predicate IsRun(s: Sys, es: seq<Event>)
    decreases |es|
  {
    es == [] || (Legal(s, es[0]) && IsRun(Step(s, es[0]), es[1..]))
  }

  function Run(s: Sys, es: seq<Event>): Sys
    requires IsRun(s, es)
    decreases |es|
  {
    if es == [] then s else Run(Step(s, es[0]), es[1..])
  }

  predicate AlwaysProper(s: Sys, es: seq<Event>)
    requires IsRun(s, es)
    decreases |es|
  {
    es == [] || (Proper(s, es[0]) && AlwaysProper(Step(s, es[0]), es[1..]))
  }

  lemma {:induction false} RunKeepsInv(s: Sys, es: seq<Event>)
    requires Inv(s) && IsRun(s, es) && AlwaysProper(s, es)
    ensures Inv(Run(s, es))
    decreases |es|
  {
    hide Inv, Step, Legal, Proper;
    if es != [] {
      StepKeepsInv(s, es[0]);
      RunKeepsInv(Step(s, es[0]), es[1..]);
    }
  }

  /** At any time: no call has failed, and non-empty holders have open descriptors, each its own. */
  lemma HoldersOwnDescriptors(es: seq<Event>)
    requires IsRun(Start(), es) && AlwaysProper(Start(), es)
    ensures var s := Run(Start(), es);
      && !s.thrown
      && (forall h :: h in s.holders && s.holders[h] != NONE ==> s.holders[h] in s.table.open)
      && (forall g, h :: g in s.holders && h in s.holders && s.holders[g] != NONE && s.holders[h] != NONE && g != h ==>
            s.table.open[s.holders[g]] != s.table.open[s.holders[h]])
      && (forall i :: s.table.closed[i] <= 1)
  {
    StartInv();
    RunKeepsInv(Start(), es);
    var s := Run(Start(), es);
    forall h | h in s.holders && s.holders[h] != NONE
      ensures s.holders[h] in s.table.open
    {
      NumberIn(s.holders, h);
    }
  }

  /** Once all holders are gone: closed is what was acquired and not released, each once. */
  lemma NothingIsLeaked(es: seq<Event>)
    requires IsRun(Start(), es) && AlwaysProper(Start(), es)
    requires Run(Start(), es).holders == map[]
    ensures var s := Run(Start(), es);
      && s.table.closed == s.acquired - s.released
      && s.released <= s.acquired
      && (forall i :: s.table.closed[i] <= 1)
      && (forall fd :: fd in s.table.open ==> s.acquired[s.table.open[fd]] == s.released[s.table.open[fd]])
  {
    HoldersOwnDescriptors(es);
    StartInv();
    RunKeepsInv(Start(), es);
    var s := Run(Start(), es);
    assert Numbers(s.holders) == {};
    assert Instances({}, s.table) == {};
    assert s.acquired == s.table.closed + s.released;
  }

  lemma StartInv()
    ensures Inv(Start())
  {
    assert Numbers(map[]) == {};
  }

  /** A holder that is reset to its own number goes on to close whatever gets that number next. */
  lemma ResetToItsOwnNumber(s: Sys, h: nat)
    requires Inv(s) && h in s.holders && 0 <= s.holders[h]
    ensures var fd := s.holders[h];
      && fd in s.table.open
      && Legal(s, CallReset(h, fd))
      && var s1 := Step(s, CallReset(h, fd));
      && Legal(s1, KernelOpens(fd))
      && var s2 := Step(s1, KernelOpens(fd));
      && Legal(s2, Destroy(h))
      && var s3 := Step(s2, Destroy(h));
      && s3.table.closed == s.table.closed + multiset{s.table.open[fd], s.table.next}
      && s3.acquired == s.acquired && s3.released == s.released
  {
    NumberIn(s.holders, h);
    hide Numbers, Instances;
  }

  // What is behind the numbers

  ghost function ViewOn(s: Sys, hs: set<nat>): (v: map<nat, Option<nat>>)
    requires hs <= s.holders.Keys
    ensures v.Keys == hs
    ensures forall h :: h in hs ==> v[h] == Behind(s, s.holders[h])
  {
    if hs == {} then map[]
    else
      var h :| h in hs;
      ViewOn(s, hs - {h})[h := Behind(s, s.holders[h])]
  }

  /** What each holder owns, whatever the number it goes by. */
  ghost function View(s: Sys): (v: map<nat, Option<nat>>)
    ensures v.Keys == s.holders.Keys
    ensures forall h :: h in v ==> v[h] == Behind(s, s.holders[h])
  {
    ViewOn(s, s.holders.Keys)
  }

  function Behind(s: Sys, fd: int): Option<nat> {
    if fd in s.table.open then Some(s.table.open[fd]) else Option.None
  }

  /** The same calls on holders of opened things: a `reset` or destructor drops, a move exchanges. */
  function ViewStep(v: map<nat, Option<nat>>, s: Sys, e: Event): map<nat, Option<nat>>
    requires Legal(s, e) && v.Keys == s.holders.Keys
  {
    match e
    case KernelOpens(_) => v
    case ClosedElsewhere(_) => v
    case CreateEmpty(h) => v[h := Option.None]
    case CreateWith(h, fd) => v[h := Behind(s, fd)]
    case MoveConstruct(h, from) => v[h := v[from]][from := Option.None]
    case MoveAssign(h, from) => v[h := v[from]][from := v[h]]
    case Swap(h, from) => v[h := v[from]][from := v[h]]
    case CallReset(h, fd) => v[h := Behind(s, fd)]
    case Release(h) => v[h := Option.None]
    case Destroy(h) => v - {h}
  }

  lemma ViewIs(s: Sys, v: map<nat, Option<nat>>)
    requires v.Keys == s.holders.Keys
    requires forall h :: h in v ==> v[h] == Behind(s, s.holders[h])
    ensures View(s) == v
  {
  }

  /** Numbers being closed and given out again never changes what some other holder owns. */
  lemma StepRefines(s: Sys, e: Event)
    requires Inv(s) && Legal(s, e) && Proper(s, e)
    ensures View(Step(s, e)) == ViewStep(View(s), s, e)
  {
    HeldAreOpen(s);
    if e.CallReset? || e.Destroy? {
      ClosingRefines(s, e);
    } else if e.KernelOpens? || e.ClosedElsewhere? {
      ElsewhereRefines(s, e);
    } else {
      MovingRefines(s, e);
    }
  }

  lemma MovingAt(s: Sys, e: Event, h: nat)
    requires Legal(s, e) && NONE !in s.table.open
    requires !e.CallReset? && !e.Destroy? && !e.KernelOpens? && !e.ClosedElsewhere?
    requires h in Step(s, e).holders
    ensures h in ViewStep(View(s), s, e) && ViewStep(View(s), s, e)[h] == Behind(Step(s, e), Step(s, e).holders[h])
  {
    assert Behind(s, NONE) == Option.None;
    assert forall fd :: Behind(Step(s, e), fd) == Behind(s, fd);
    hide Behind, Standing;
  }

  lemma MovingRefines(s: Sys, e: Event)
    requires Inv(s) && Legal(s, e)
    requires !e.CallReset? && !e.Destroy? && !e.KernelOpens? && !e.ClosedElsewhere?
    ensures View(Step(s, e)) == ViewStep(View(s), s, e)
  {
    HeldAreOpen(s);
    var s', v' := Step(s, e), ViewStep(View(s), s, e);
    assert v'.Keys == s'.holders.Keys;
    hide Inv, Behind, Step, ViewStep;
    forall h | h in v'
      ensures v'[h] == Behind(s', s'.holders[h])
    {
      MovingAt(s, e, h);
    }
    ViewIs(s', v');
  }

  lemma HeldAreOpen(s: Sys)
    requires Inv(s)
    ensures forall h :: h in s.holders && s.holders[h] != NONE ==> s.holders[h] in s.table.open
    ensures NONE !in s.table.open
  {
    forall h | h in s.holders && s.holders[h] != NONE
      ensures s.holders[h] in s.table.open
    {
      NumberIn(s.holders, h);
    }
  }

  lemma ElsewhereRefines(s: Sys, e: Event)
    requires Inv(s) && Legal(s, e) && Proper(s, e) && (e.KernelOpens? || e.ClosedElsewhere?)
    ensures View(Step(s, e)) == View(s)
  {
    HeldAreOpen(s);
    hide Books, Exclusive;
  }

  /** Closing what one holder has leaves all other numbers as they were. */
  lemma ClosingIsLocal(s: Sys, e: Event)
    requires Inv(s) && Legal(s, e) && Proper(s, e) && (e.CallReset? || e.Destroy?)
    ensures var s' := Step(s, e);
      && s'.holders == (if e.CallReset? then s.holders[e.h := e.fd] else s.holders - {e.h})
      && (forall g :: g in s.holders && g != e.h ==> Behind(s', s.holders[g]) == Behind(s, s.holders[g]))
      && (e.CallReset? ==> Behind(s', e.fd) == Behind(s, e.fd))
  {
    HeldAreOpen(s);
    OwnedCloses(s, e.h, if e.CallReset? then e.fd else NONE);
    NumberIsHeld(s, e.h);
  }

  lemma ClosingAt(s: Sys, e: Event, h: nat)
    requires Inv(s) && Legal(s, e) && Proper(s, e) && (e.CallReset? || e.Destroy?) && h in Step(s, e).holders
    ensures h in ViewStep(View(s), s, e) && ViewStep(View(s), s, e)[h] == Behind(Step(s, e), Step(s, e).holders[h])
  {
    ClosingIsLocal(s, e);
    hide Inv, Behind, Step, Proper;
  }

  lemma ClosingViewKeys(s: Sys, e: Event)
    requires Inv(s) && Legal(s, e) && Proper(s, e) && (e.CallReset? || e.Destroy?)
    ensures ViewStep(View(s), s, e).Keys == Step(s, e).holders.Keys
  {
    ClosingIsLocal(s, e);
    hide Inv, Behind, Step, Proper;
  }

  lemma ClosingRefines(s: Sys, e: Event)
    requires Inv(s) && Legal(s, e) && Proper(s, e) && (e.CallReset? || e.Destroy?)
    ensures View(Step(s, e)) == ViewStep(View(s), s, e)
  {
    ClosingIsLocal(s, e);
    hide Inv, Behind, Step, Proper, ViewStep, View;
    var s', v' := Step(s, e), ViewStep(View(s), s, e);
    forall h | h in s'.holders
      ensures h in v' && v'[h] == Behind(s', s'.holders[h])
    {
      ClosingAt(s, e, h);
    }
    ClosingViewKeys(s, e);
    ViewIs(s', v');
  }
}
