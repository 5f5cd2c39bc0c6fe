/** Arbitrary interleavings of calls on any population of mount objects. */
module MountRuns {
  import opened Prelude
  import opened MountKernel
  import opened MountObjects

  /**
   `made` remembers the mount that each id was given out for, `own` the last one of each object,
   `kept` the mounts whose object was detached while mounted, `strays` those that a refused
   remount left behind, and `left` where these two kinds were made.
   */
  datatype Sys = Sys(
    objs: map<nat, Obj>, kernel: Kernel,
    made: map<nat, Layer>, own: map<nat, nat>, kept: set<nat>, strays: set<nat>, left: multiset<Path>)

  datatype Event =
    | Create(o: nat, spec: Spec)
    | CallMount(o: nat, w: World)
    | CallUnmount(o: nat, w: World)
    | CallDetach(o: nat)
    | Delete(o: nat, w: World)

  predicate Active(x: Obj) {
    x.mounted && !x.detached
  }

  /** Objects exist while used; a destructor that cannot unmount ends the program, so no run goes on after it. */
  predicate Legal(s: Sys, e: Event) {
    match e
    case Create(o, spec) => o !in s.objs && WellFormed(spec)
    case Delete(o, w) => o in s.objs && Destroy(s.objs[o], s.kernel, w).0 == Ok
    case _ => e.o in s.objs
  }

  function Step(s: Sys, e: Event): Sys
    requires Legal(s, e)
  {
    match e
    case Create(o, spec) => s.(objs := s.objs[o := Obj(spec, false, false)])
    case CallMount(o, w) =>
      var x, id := s.objs[o], s.kernel.next;
      var (r, x', k') := Mount(x, s.kernel, w);
      var s' := s.(objs := s.objs[o := x'], kernel := k');
      if r == Ok then s'.(made := s.made[id := Wanted(x.spec, id)], own := s.own[o := id])
      else if r == Err(RemountFailed) then
        s'.(made := s.made[id := Wanted(x.spec, id).(readOnly := false)], strays := s.strays + {id},
            left := s.left + multiset{x.spec.destination})
      else s'
    case CallUnmount(o, w) =>
      var (r, x', k') := Unmount(s.objs[o], s.kernel, w);
      s.(objs := s.objs[o := x'], kernel := k')
    case CallDetach(o) =>
      var x := s.objs[o];
      var (r, x') := Detach(x);
      var s' := s.(objs := s.objs[o := x']);
      if Active(x) && o in s.own then s'.(kept := s.kept + {s.own[o]}, left := s.left + multiset{x.spec.destination}) else s'
    case Delete(o, w) =>
      var (r, k') := Destroy(s.objs[o], s.kernel, w);
      s.(objs := s.objs - {o}, kernel := k')
  }

  /** Whichever call is about to unmount on behalf of an object finds that object's own mount visible. */
  predicate FindsOwn(s: Sys, e: Event)
    requires Legal(s, e)
  {
    (e.CallUnmount? || e.Delete?) && Active(s.objs[e.o]) ==>
      var i := TopAt(s.kernel.table, s.objs[e.o].spec.destination);
      i >= 0 && e.o in s.own && s.kernel.table[i].id == s.own[e.o]
  }

  function Start(k: Kernel): Sys {
    Sys(map[], k, map[], map[], {}, {}, multiset{})
  }

  predicate IdsIncrease(table: seq<Layer>) {
    forall i, j :: 0 <= i < j < |table| ==> table[i].id < table[j].id
  }

  predicate FreshKernel(k: Kernel) {
    IdsIncrease(k.table) && forall i :: 0 <= i < |k.table| ==> k.table[i].id < k.next
  }

  function Ids(table: seq<Layer>): set<nat> {
    set i | 0 <= i < |table| :: table[i].id
  }

  function OwnedIds(s: Sys): set<nat> {
    set o | o in s.objs && o in s.own && Active(s.objs[o]) :: s.own[o]
  }

  /** What is above the initial mounts, and whose it is. */
  predicate TableOk(s: Sys, base: Kernel) {
    var t := s.kernel.table;
    && FreshKernel(s.kernel) && FreshKernel(base) && base.next <= s.kernel.next
    && |base.table| <= |t| && t[..|base.table|] == base.table
    && (forall i :: |base.table| <= i < |t| ==>
          && base.next <= t[i].id
          && t[i].id in s.made && s.made[t[i].id] == t[i])
  }

  ghost predicate ClaimsOk(s: Sys, base: Kernel) {
    && (forall o :: o in s.objs ==> WellFormed(s.objs[o].spec))
    && (forall o :: o in s.objs && s.objs[o].mounted ==> o in s.own && base.next <= s.own[o] < s.kernel.next)
    && (forall o, p :: o in s.objs && p in s.objs && Active(s.objs[o]) && Active(s.objs[p]) && s.own[o] == s.own[p] ==> o == p)
    && (forall o :: o in s.objs && Active(s.objs[o]) ==> s.own[o] !in s.kept && s.own[o] !in s.strays)
    && (forall id :: id in s.kept || id in s.strays ==> base.next <= id < s.kernel.next)
  }

  /** The mounts above the initial ones are those of active objects, those kept and those astray. */
  predicate AboveOk(s: Sys, base: Kernel) {
    |base.table| <= |s.kernel.table| &&
    Ids(s.kernel.table[|base.table|..]) == OwnedIds(s) + s.kept + s.strays
  }

  ghost predicate Inv(s: Sys, base: Kernel) {
    TableOk(s, base) && ClaimsOk(s, base) && AboveOk(s, base)
  }

  lemma PushIds(table: seq<Layer>, layer: Layer)
    ensures Ids(table + [layer]) == Ids(table) + {layer.id}
  {
    var t := table + [layer];
    assert t[|table|] == layer;
    forall id | id in Ids(table)
      ensures id in Ids(t)
    {
      var i :| 0 <= i < |table| && table[i].id == id;
      assert t[i].id == id;
    }
  }

  lemma WithoutIds(table: seq<Layer>, i: nat)
    requires i < |table| && IdsIncrease(table)
    ensures Ids(Without(table, i)) == Ids(table) - {table[i].id}
    ensures IdsIncrease(Without(table, i))
  {
    var t := Without(table, i);
    forall id | id in Ids(table) && id != table[i].id
      ensures id in Ids(t)
    {
      var j :| 0 <= j < |table| && table[j].id == id;
      assert t[if j < i then j else j - 1].id == id;
    }
  }

  lemma PushKeepsTable(s: Sys, s': Sys, base: Kernel, layer: Layer)
    requires TableOk(s, base) && layer.id == s.kernel.next
    requires s'.kernel == Kernel(s.kernel.table + [layer], s.kernel.next + 1)
    requires s'.made == s.made[layer.id := layer]
    ensures TableOk(s', base)
  {
  }

  lemma PushKeeps(s: Sys, s': Sys, base: Kernel, layer: Layer)
    requires Inv(s, base) && layer.id == s.kernel.next
    requires s'.kernel == Kernel(s.kernel.table + [layer], s.kernel.next + 1)
    requires s'.made == s.made[layer.id := layer]
    requires OwnedIds(s') + s'.kept + s'.strays == OwnedIds(s) + s.kept + s.strays + {layer.id}
    ensures TableOk(s', base) && AboveOk(s', base)
  {
    hide ClaimsOk, TableOk, OwnedIds, Ids;
    var n := |base.table|;
    PushKeepsTable(s, s', base, layer);
    PushIds(s.kernel.table[n..], layer);
    assert s'.kernel.table[n..] == s.kernel.table[n..] + [layer];
  }

  /** An object's own mount is never one of the initial ones. */
  lemma OwnMountsAreAbove(s: Sys, base: Kernel, i: int)
    requires TableOk(s, base) && 0 <= i < |s.kernel.table| && base.next <= s.kernel.table[i].id
    ensures i >= |base.table|
  {
    forall j | 0 <= j < |base.table|
      ensures s.kernel.table[j].id < base.next
    {
      assert s.kernel.table[..|base.table|][j] == base.table[j];
    }
  }

  lemma WithoutSplits(t: seq<Layer>, n: nat, i: nat)
    requires n <= i < |t|
    ensures Without(t, i)[..n] == t[..n] && Without(t, i)[n..] == Without(t[n..], i - n)
  {
  }

  lemma RemovalKeepsTable(s: Sys, s': Sys, base: Kernel, i: nat)
    requires TableOk(s, base) && |base.table| <= i < |s.kernel.table|
    requires s'.kernel == s.kernel.(table := Without(s.kernel.table, i)) && s'.made == s.made
    ensures TableOk(s', base)
  {
    var n, t := |base.table|, s.kernel.table;
    WithoutSplits(t, n, i);
    WithoutIds(t, i);
    forall j | n <= j < |t| - 1
      ensures base.next <= Without(t, i)[j].id && Without(t, i)[j].id in s.made && s.made[Without(t, i)[j].id] == Without(t, i)[j]
    {
      assert Without(t, i)[j] == t[if j < i then j else j + 1];
    }
    hide Ids;
  }

  lemma SliceIncreases(t: seq<Layer>, n: nat)
    requires IdsIncrease(t) && n <= |t|
    ensures IdsIncrease(t[n..])
  {
  }

  lemma RemovalKeepsAbove(s: Sys, s': Sys, base: Kernel, i: nat)
    requires TableOk(s, base) && AboveOk(s, base) && |base.table| <= i < |s.kernel.table|
    requires s'.kernel == s.kernel.(table := Without(s.kernel.table, i))
    requires OwnedIds(s') + s'.kept + s'.strays == OwnedIds(s) + s.kept + s.strays - {s.kernel.table[i].id}
    ensures AboveOk(s', base)
  {
    var n, t := |base.table|, s.kernel.table;
    assert IdsIncrease(t);
    hide OwnedIds, Ids, TableOk, IdsIncrease, Without;
    WithoutSplits(t, n, i);
    SliceIncreases(t, n);
    WithoutIds(t[n..], i - n);
  }

  lemma PopKeeps(s: Sys, s': Sys, base: Kernel, p: Path, id: nat)
    requires TableOk(s, base) && AboveOk(s, base) && base.next <= id
    requires var i := TopAt(s.kernel.table, p);
      i >= 0 && s.kernel.table[i].id == id && s'.kernel == s.kernel.(table := Without(s.kernel.table, i))
    requires s'.made == s.made
    requires OwnedIds(s') + s'.kept + s'.strays == OwnedIds(s) + s.kept + s.strays - {id}
    ensures TableOk(s', base) && AboveOk(s', base)
  {
    hide OwnedIds, TopAt, TableOk, AboveOk, Without;
    var i := TopAt(s.kernel.table, p);
    OwnMountsAreAbove(s, base, i);
    RemovalKeepsTable(s, s', base, i);
    RemovalKeepsAbove(s, s', base, i);
  }

  /** The mounts of all active objects but one. */
  function OthersIds(s: Sys, o: nat): set<nat> {
    set p | p in s.objs && p != o && p in s.own && Active(s.objs[p]) :: s.own[p]
  }

  lemma OwnedSplits(s: Sys, base: Kernel, o: nat)
    requires ClaimsOk(s, base)
    ensures var active := o in s.objs && Active(s.objs[o]);
      && OwnedIds(s) == OthersIds(s, o) + (if active then {s.own[o]} else {})
      && (active ==> s.own[o] !in OthersIds(s, o))
  {
  }

  lemma OthersStay(s: Sys, s': Sys, o: nat)
    requires s'.objs - {o} == s.objs - {o} && s'.own - {o} == s.own - {o}
    ensures OthersIds(s', o) == OthersIds(s, o)
  {
    assert forall p :: p != o ==> (p in s.objs <==> p in s.objs - {o}) && (p in s'.objs <==> p in s'.objs - {o});
    assert forall p :: p != o ==> (p in s.own <==> p in s.own - {o}) && (p in s'.own <==> p in s'.own - {o});
    assert forall p :: p in s.objs && p != o ==> s.objs[p] == (s.objs - {o})[p];
    assert forall p :: p in s'.objs && p != o ==> s'.objs[p] == (s'.objs - {o})[p];
    assert forall p :: p in s.own && p != o ==> s.own[p] == (s.own - {o})[p];
    assert forall p :: p in s'.own && p != o ==> s'.own[p] == (s'.own - {o})[p];
  }

  /** What a call of `mount()` comes to: a mount that is owned, one that is astray, or nothing. */
  lemma MountShape(s: Sys, e: Event)
    requires Legal(s, e) && e.CallMount? && WellFormed(s.objs[e.o].spec)
    ensures var s', x, id, r := Step(s, e), s.objs[e.o], s.kernel.next, Mount(s.objs[e.o], s.kernel, e.w).0;
      var good, bad := Wanted(x.spec, id), Wanted(x.spec, id).(readOnly := false);
      && (r == Ok ==>
            !x.mounted && !x.detached
            && s' == s.(objs := s.objs[e.o := x.(mounted := true)], kernel := Kernel(s.kernel.table + [good], id + 1),
                        made := s.made[id := good], own := s.own[e.o := id]))
      && (r == Err(RemountFailed) ==>
            s' == s.(kernel := Kernel(s.kernel.table + [bad], id + 1), made := s.made[id := bad],
                     strays := s.strays + {id}, left := s.left + multiset{x.spec.destination}))
      && (r != Ok && r != Err(RemountFailed) ==> s' == s)
  {
    var x := s.objs[e.o];
    MountIsAllOrNothingButOnce(x, s.kernel, e.w);
    assert s.objs[e.o := x] == s.objs;
    hide Mount, Wanted, WellFormed;
  }

  lemma MountKeepsClaims(s: Sys, e: Event, base: Kernel)
    requires Inv(s, base) && Legal(s, e) && e.CallMount?
    ensures ClaimsOk(Step(s, e), base)
  {
    MountShape(s, e);
    assert base.next <= s.kernel.next;
    hide TableOk, AboveOk, Step, Mount, Wanted, WellFormed;
    if Mount(s.objs[e.o], s.kernel, e.w).0 == Ok {
      OneMoreClaim(s, Step(s, e), e.o, base);
    }
  }

  /** A mount just made is claimed by nobody else. */
  lemma OneMoreClaim(s: Sys, s': Sys, o: nat, base: Kernel)
    requires ClaimsOk(s, base) && base.next <= s.kernel.next && o in s.objs
    requires s'.objs == s.objs[o := s.objs[o].(mounted := true)] && s'.own == s.own[o := s.kernel.next]
    requires s'.kernel.next == s.kernel.next + 1 && s'.kept == s.kept && s'.strays == s.strays
    ensures ClaimsOk(s', base)
  {
    hide WellFormed;
  }

  /** An unmounting call that does take the visible mount away. */
  predicate Takes(s: Sys, e: Event)
    requires Legal(s, e) && (e.CallUnmount? || e.Delete?)
  {
    var i := TopAt(s.kernel.table, s.objs[e.o].spec.destination);
    Active(s.objs[e.o]) && e.w.umountPermitted && i >= 0 && !Busy(s.kernel.table, i)
  }

  lemma UnmountShape(s: Sys, e: Event)
    requires Legal(s, e) && (e.CallUnmount? || e.Delete?)
    ensures var s', x := Step(s, e), s.objs[e.o];
      && s'.made == s.made && s'.own == s.own && s'.kept == s.kept && s'.strays == s.strays && s'.left == s.left
      && s'.objs == (if e.Delete? then s.objs - {e.o} else s.objs[e.o := x.(mounted := x.mounted && !Takes(s, e))])
      && s'.kernel == if Takes(s, e) then s.kernel.(table := Without(s.kernel.table, TopAt(s.kernel.table, x.spec.destination))) else s.kernel
  {
    hide TopAt, Without;
  }

  /** Objects that go, or stop being mounted or active, take no claim from others. */
  lemma FewerClaims(s: Sys, s': Sys, base: Kernel)
    requires ClaimsOk(s, base)
    requires s'.own == s.own && s'.kernel.next == s.kernel.next && s'.strays == s.strays
    requires forall o :: o in s'.objs ==>
               o in s.objs && s'.objs[o].spec == s.objs[o].spec
               && (s'.objs[o].mounted ==> s.objs[o].mounted) && (Active(s'.objs[o]) ==> Active(s.objs[o]))
    requires forall id :: id in s'.kept && id !in s.kept ==>
               base.next <= id < s.kernel.next && forall o :: o in s'.objs && Active(s'.objs[o]) ==> s.own[o] != id
    ensures ClaimsOk(s', base)
  {
  }

  lemma UnmountKeepsClaims(s: Sys, e: Event, base: Kernel)
    requires Inv(s, base) && Legal(s, e) && (e.CallUnmount? || e.Delete?)
    ensures ClaimsOk(Step(s, e), base)
  {
    UnmountShape(s, e);
    hide TableOk, AboveOk, Step, Takes, ClaimsOk;
    FewerClaims(s, Step(s, e), base);
  }

  lemma CreateKeepsClaims(s: Sys, e: Event, base: Kernel)
    requires Inv(s, base) && Legal(s, e) && e.Create?
    ensures ClaimsOk(Step(s, e), base)
  {
    hide TableOk, AboveOk, WellFormed;
  }

  lemma DetachKeepsClaims(s: Sys, e: Event, base: Kernel)
    requires Inv(s, base) && Legal(s, e) && e.CallDetach?
    ensures ClaimsOk(Step(s, e), base)
  {
    hide TableOk, AboveOk, WellFormed;
    FewerClaims(s, Step(s, e), base);
  }

  lemma StepKeepsClaims(s: Sys, e: Event, base: Kernel)
    requires Inv(s, base) && Legal(s, e)
    ensures ClaimsOk(Step(s, e), base)
  {
    hide Inv, ClaimsOk, Step;
    if e.CallMount? {
      MountKeepsClaims(s, e, base);
    } else if e.CallUnmount? || e.Delete? {
      UnmountKeepsClaims(s, e, base);
    } else if e.Create? {
      CreateKeepsClaims(s, e, base);
    } else {
      DetachKeepsClaims(s, e, base);
    }
  }

  /** Objects other than `e.o` are not involved. */
  lemma StepIsLocal(s: Sys, e: Event)
    requires Legal(s, e)
    ensures Step(s, e).objs - {e.o} == s.objs - {e.o} && Step(s, e).own - {e.o} == s.own - {e.o}
  {
    hide Mount, Unmount, Destroy, Detach;
  }

  /** A successful `mount()` adds its mount to those that are owned, and no other call of it does. */
  lemma MountAddsOneClaim(s: Sys, e: Event, base: Kernel)
    requires Inv(s, base) && Legal(s, e) && e.CallMount?
    ensures OwnedIds(Step(s, e)) == OwnedIds(s) + (if Mount(s.objs[e.o], s.kernel, e.w).0 == Ok then {s.kernel.next} else {})
  {
    hide Inv, OwnedIds, Mount, Step, Wanted, WellFormed;
    ObjectsAreWellFormed(s, base, e.o);
    MountShape(s, e);
    if Mount(s.objs[e.o], s.kernel, e.w).0 == Ok {
      OneMoreOwned(s, Step(s, e), e.o, s.kernel.next);
    } else {
      SameOwned(s, Step(s, e));
    }
  }

  lemma ObjectsAreWellFormed(s: Sys, base: Kernel, o: nat)
    requires Inv(s, base) && o in s.objs
    ensures WellFormed(s.objs[o].spec)
  {
    hide TableOk, AboveOk, WellFormed;
  }

  lemma OneMoreOwned(s: Sys, s': Sys, o: nat, id: nat)
    requires o in s.objs && !s.objs[o].mounted && !s.objs[o].detached
    requires s'.objs == s.objs[o := s.objs[o].(mounted := true)] && s'.own == s.own[o := id]
    ensures OwnedIds(s') == OwnedIds(s) + {id}
  {
    assert o in s'.objs && o in s'.own && Active(s'.objs[o]);
    forall p | p in s.objs && p in s.own && Active(s.objs[p])
      ensures p in s'.objs && p in s'.own && Active(s'.objs[p]) && s'.own[p] == s.own[p]
    {
    }
  }

  lemma SameOwned(s: Sys, s': Sys)
    requires s'.objs == s.objs && s'.own == s.own
    ensures OwnedIds(s') == OwnedIds(s)
  {
  }

  lemma MountKeeps(s: Sys, e: Event, base: Kernel)
    requires Inv(s, base) && Legal(s, e) && e.CallMount?
    ensures TableOk(Step(s, e), base) && AboveOk(Step(s, e), base)
  {
    var s', x := Step(s, e), s.objs[e.o];
    MountShape(s, e);
    MountAddsOneClaim(s, e, base);
    hide ClaimsOk, TableOk, AboveOk, OwnedIds, Mount, Step, Wanted;
    if Mount(x, s.kernel, e.w).0 == Ok {
      PushKeeps(s, s', base, Wanted(x.spec, s.kernel.next));
    } else if Mount(x, s.kernel, e.w).0 == Err(RemountFailed) {
      PushKeeps(s, s', base, Wanted(x.spec, s.kernel.next).(readOnly := false));
    }
  }

  lemma OwnedOf(s: Sys, o: nat)
    ensures OwnedIds(s) == OthersIds(s, o) + (if o in s.objs && o in s.own && Active(s.objs[o]) then {s.own[o]} else {})
  {
  }

  /** The mounts that are owned before and after an unmounting call. */
  lemma OwnedAroundUnmount(s: Sys, e: Event)
    requires Legal(s, e) && (e.CallUnmount? || e.Delete?)
    requires e.o in s.objs && (Active(s.objs[e.o]) ==> e.o in s.own)
    ensures var own := if Active(s.objs[e.o]) then {s.own[e.o]} else {};
      && OwnedIds(s) == OthersIds(s, e.o) + own
      && OwnedIds(Step(s, e)) == OthersIds(s, e.o) + (if Takes(s, e) then {} else own)
  {
    UnmountShape(s, e);
    hide Step, Takes, Legal, OwnedIds, OthersIds, Active;
    ActiveAfterUnmount(s, e);
    StepIsLocal(s, e);
    OwnedOf(s, e.o);
    OwnedOf(Step(s, e), e.o);
    OthersStay(s, Step(s, e), e.o);
  }

  lemma OwnersAreKnown(s: Sys, e: Event, base: Kernel)
    requires Inv(s, base) && Legal(s, e) && !e.Create?
    ensures e.o in s.objs && (Active(s.objs[e.o]) ==> e.o in s.own && base.next <= s.own[e.o])
    ensures Active(s.objs[e.o]) ==>
              s.own[e.o] !in OthersIds(s, e.o) && s.own[e.o] !in s.kept && s.own[e.o] !in s.strays
  {
    OwnedSplits(s, base, e.o);
    hide TableOk, AboveOk, OwnedIds, OthersIds;
  }

  lemma UnmountDropsOneClaim(s: Sys, e: Event, base: Kernel)
    requires Inv(s, base) && Legal(s, e) && FindsOwn(s, e) && (e.CallUnmount? || e.Delete?)
    ensures e.o in s.objs && (Active(s.objs[e.o]) ==> e.o in s.own)
    ensures OwnedIds(s) == OthersIds(s, e.o) + (if Active(s.objs[e.o]) then {s.own[e.o]} else {})
    ensures OwnedIds(Step(s, e)) == OthersIds(s, e.o) + (if Active(s.objs[e.o]) && !Takes(s, e) then {s.own[e.o]} else {})
    ensures Active(s.objs[e.o]) ==> s.own[e.o] !in OthersIds(s, e.o)
  {
    hide Inv, Legal, FindsOwn, OwnedIds, OthersIds, Step, Takes, Active;
    OwnersAreKnown(s, e, base);
    OwnedAroundUnmount(s, e);
  }

  /** The books after an unmounting call. */
  lemma UnmountChangesOwned(s: Sys, e: Event, base: Kernel)
    requires Inv(s, base) && Legal(s, e) && FindsOwn(s, e) && (e.CallUnmount? || e.Delete?)
    ensures var s' := Step(s, e);
      OwnedIds(s') + s'.kept + s'.strays ==
        OwnedIds(s) + s.kept + s.strays - (if Takes(s, e) then {s.own[e.o]} else {})
    ensures Takes(s, e) ==> e.o in s.own && base.next <= s.own[e.o]
  {
    var s', x := Step(s, e), s.objs[e.o];
    UnmountShape(s, e);
    UnmountDropsOneClaim(s, e, base);
    assert Active(x) ==> base.next <= s.own[e.o] && s.own[e.o] !in s.kept && s.own[e.o] !in s.strays;
    hide TableOk, ClaimsOk, AboveOk, OwnedIds, OthersIds, Step, TopAt, Without, Ids, FindsOwn;
  }

  lemma UnmountKeeps(s: Sys, e: Event, base: Kernel)
    requires Inv(s, base) && Legal(s, e) && FindsOwn(s, e) && (e.CallUnmount? || e.Delete?)
    ensures TableOk(Step(s, e), base) && AboveOk(Step(s, e), base)
  {
    var s' := Step(s, e);
    UnmountShape(s, e);
    UnmountChangesOwned(s, e, base);
    hide ClaimsOk, OwnedIds, Step, TopAt, Without, Ids;
    if Takes(s, e) {
      PopKeeps(s, s', base, s.objs[e.o].spec.destination, s.own[e.o]);
    }
  }

  lemma OtherKeeps(s: Sys, e: Event, base: Kernel)
    requires Inv(s, base) && Legal(s, e) && (e.Create? || e.CallDetach?)
    ensures TableOk(Step(s, e), base) && AboveOk(Step(s, e), base)
  {
    var s' := Step(s, e);
    StepKeepsClaims(s, e, base);
    OwnedSplits(s, base, e.o);
    OwnedSplits(s', base, e.o);
    StepIsLocal(s, e);
    OthersStay(s, s', e.o);
  }

  /** Every call keeps the account of whose mounts there are, as long as objects find their own mount. */
  lemma StepKeepsInv(s: Sys, e: Event, base: Kernel)
    requires Inv(s, base) && Legal(s, e) && FindsOwn(s, e)
    ensures Inv(Step(s, e), base)
  {
    hide TableOk, ClaimsOk, AboveOk, Step, FindsOwn;
    StepKeepsClaims(s, e, base);
    if e.CallMount? {
      MountKeeps(s, e, base);
    } else if e.CallUnmount? || e.Delete? {
      UnmountKeeps(s, e, base);
    } else {
      OtherKeeps(s, e, base);
    }
  }

  predicate IsRun(s: Sys, es: seq<Event>)
    decreases |es|
  {
    es == [] || (Legal(s, es[0]) && IsRun(Step(s, es[0]), es[1..]))
  }

  function Run(s: Sys, es: seq<Event>): Sys
    requires IsRun(s, es)
    decreases |es|
  {
    if es == [] then s else Run(Step(s, es[0]), es[1..])
  }

  predicate AlwaysFindsOwn(s: Sys, es: seq<Event>)
    requires IsRun(s, es)
    decreases |es|
  {
    es == [] || (FindsOwn(s, es[0]) && AlwaysFindsOwn(Step(s, es[0]), es[1..]))
  }

  lemma {:induction false} RunKeepsInv(s: Sys, es: seq<Event>, base: Kernel)
    requires Inv(s, base) && IsRun(s, es) && AlwaysFindsOwn(s, es)
    ensures Inv(Run(s, es), base)
    decreases |es|
  {
    hide Inv, Step, FindsOwn, Legal;
    if es != [] {
      StepKeepsInv(s, es[0], base);
      RunKeepsInv(Step(s, es[0]), es[1..], base);
    }
  }

  /**
   When all objects of a run are gone and each found its own mount visible whenever it unmounted:
   the initial mounts are as they were, and above them are, in the order they were made and just
   as they were made, exactly those whose object was detached while mounted and those whose
   remount was refused.
   */
  lemma OnlyDetachedMountsRemain(k: Kernel, es: seq<Event>)
    requires FreshKernel(k) && IsRun(Start(k), es) && AlwaysFindsOwn(Start(k), es)
    requires Run(Start(k), es).objs == map[]
    ensures var s := Run(Start(k), es);
      var n, t := |k.table|, s.kernel.table;
      && n <= |t| && t[..n] == k.table
      && IdsIncrease(t)
      && Ids(t[n..]) == s.kept + s.strays
      && forall i :: n <= i < |t| ==> t[i].id in s.made && t[i] == s.made[t[i].id]
  {
    StartInv(k);
    RunKeepsInv(Start(k), es, k);
    assert OwnedIds(Run(Start(k), es)) == {};
  }

  lemma StartInv(k: Kernel)
    requires FreshKernel(k)
    ensures Inv(Start(k), k)
  {
    assert Ids(k.table[|k.table|..]) == {} == OwnedIds(Start(k));
  }

  /**
   The condition is exact: from any state in order, a call that takes a mount away leaves the
   account in order if and only if what it takes is the object's own mount.
   */
  lemma AccountIsKeptExactlyForOwnMounts(s: Sys, e: Event, base: Kernel)
    requires Inv(s, base) && Legal(s, e) && (e.CallUnmount? || e.Delete?) && Takes(s, e)
    ensures Inv(Step(s, e), base) <==> FindsOwn(s, e)
  {
    if FindsOwn(s, e) {
      StepKeepsInv(s, e, base);
    } else {
      UnmountShape(s, e);
      TakingAnotherMountShows(s, e, base);
    }
  }

  /** After the call nobody accounts for the mount that the object had claimed. */
  lemma ClaimIsGone(s: Sys, e: Event, base: Kernel)
    requires Inv(s, base) && Legal(s, e) && (e.CallUnmount? || e.Delete?) && Takes(s, e)
    ensures e.o in s.own && s.own[e.o] in OwnedIds(s)
    ensures var s' := Step(s, e); s.own[e.o] !in OwnedIds(s') + s'.kept + s'.strays
  {
    UnmountShape(s, e);
    ActiveAfterUnmount(s, e);
    hide Inv, Legal, OwnedIds, OthersIds, Step, Takes, Active;
    OwnersAreKnown(s, e, base);
    OwnedAroundUnmount(s, e);
  }

  /** A mount above the initial ones stays above them when another one is removed there. */
  lemma OthersRemainAbove(t: seq<Layer>, n: nat, i: nat, id: nat)
    requires IdsIncrease(t) && n <= i < |t| && id in Ids(t[n..]) && t[i].id != id
    ensures id in Ids(Without(t, i)[n..])
  {
    WithoutSplits(t, n, i);
    WithoutIds(t[n..], i - n);
  }

  lemma TakingAnotherMountShows(s: Sys, e: Event, base: Kernel)
    requires Inv(s, base) && Legal(s, e) && (e.CallUnmount? || e.Delete?) && Takes(s, e) && !FindsOwn(s, e)
    ensures !Inv(Step(s, e), base)
  {
    var s', n, t := Step(s, e), |base.table|, s.kernel.table;
    var i := TopAt(t, s.objs[e.o].spec.destination);
    UnmountShape(s, e);
    ClaimIsGone(s, e, base);
    hide ClaimsOk, OwnedIds, Step, Ids, TopAt, Without, IdsIncrease;
    if TableOk(s', base) {
      if i < n < |t| {
        TakenFromBelow(t, n, i);
      }
      OthersRemainAbove(t, n, i, s.own[e.o]);
    }
  }

  /** Taking away an initial mount shows in the initial part of the table. */
  lemma TakenFromBelow(t: seq<Layer>, n: nat, i: nat)
    requires IdsIncrease(t) && i < n < |t|
    ensures Without(t, i)[..n] != t[..n]
  {
    assert Without(t, i)[..n][i] == t[i + 1];
    assert t[..n][i] == t[i];
  }

  /** Two objects with mounts on one path, where there were none of objects before. */
  function TwoMounted(k: Kernel, spec: Spec): Sys {
    var a, b := Wanted(spec, k.next), Wanted(spec, k.next + 1);
    Sys(map[0 := Obj(spec, true, false), 1 := Obj(spec, true, false)],
        Kernel(k.table + [a] + [b], k.next + 2),
        map[k.next := a, k.next + 1 := b], map[0 := k.next, 1 := k.next + 1], {}, {}, multiset{})
  }

  predicate Willing(w: World) {
    w.mountPermitted && w.umountPermitted && !w.createFails
  }

  lemma MountsTwice(k: Kernel, spec: Spec, w: World)
    requires FreshKernel(k) && spec.TmpFsSpec? && Willing(w)
    ensures var es := [Create(0, spec), CallMount(0, w), Create(1, spec), CallMount(1, w)];
      IsRun(Start(k), es) && Run(Start(k), es) == TwoMounted(k, spec)
  {
    var s1 := Step(Start(k), Create(0, spec));
    MountShape(s1, CallMount(0, w));
    var s2 := Step(s1, CallMount(0, w));
    var s3 := Step(s2, Create(1, spec));
    MountShape(s3, CallMount(1, w));
    var s4 := Step(s3, CallMount(1, w));
    assert s4 == TwoMounted(k, spec);
    hide Step, Mount, TwoMounted;
    RunIs(s3, CallMount(1, w), []);
    RunIs(s2, Create(1, spec), [CallMount(1, w)]);
    RunIs(s1, CallMount(0, w), [Create(1, spec), CallMount(1, w)]);
    RunIs(Start(k), Create(0, spec), [CallMount(0, w), Create(1, spec), CallMount(1, w)]);
  }

  lemma UpperIsTaken(k: Kernel, spec: Spec, w: World)
    requires FreshKernel(k) && spec.TmpFsSpec? && Willing(w)
    ensures var s, es := TwoMounted(k, spec), [CallDetach(1), Delete(0, w), Delete(1, w)];
      && IsRun(s, es) && Run(s, es).kept == {k.next + 1}
      && Run(s, es).kernel.table == k.table + [Wanted(spec, k.next)]
  {
    var s4 := TwoMounted(k, spec);
    LastIsOnTop(k.table + [Wanted(spec, k.next)], Wanted(spec, k.next + 1));
    var s5 := Step(s4, CallDetach(1));
    assert s5.kept == {k.next + 1} && s5.kernel == s4.kernel;
    hide TopAt, Busy, Hidden, Without, TwoMounted;
    UnmountShape(s5, Delete(0, w));
    var s6 := Step(s5, Delete(0, w));
    UnmountShape(s6, Delete(1, w));
    var s7 := Step(s6, Delete(1, w));
    hide Step;
    RunIs(s6, Delete(1, w), []);
    RunIs(s5, Delete(0, w), [Delete(1, w)]);
    RunIs(s4, CallDetach(1), [Delete(0, w), Delete(1, w)]);
  }

  /** Two objects on one path, the upper one detached: the lower one's destructor takes the upper mount. */
  lemma ADetachedMountCanBeTaken(k: Kernel, spec: Spec, w: World)
    requires FreshKernel(k) && spec.TmpFsSpec? && Willing(w)
    ensures var es := [Create(0, spec), CallMount(0, w), Create(1, spec), CallMount(1, w)] + [CallDetach(1), Delete(0, w), Delete(1, w)];
      && IsRun(Start(k), es)
      && Run(Start(k), es).kept == {k.next + 1}
      && Run(Start(k), es).kernel.table == k.table + [Wanted(spec, k.next)]
  {
    MountsTwice(k, spec, w);
    UpperIsTaken(k, spec, w);
    hide Step, Legal, TwoMounted;
    RunsJoin(Start(k), [Create(0, spec), CallMount(0, w), Create(1, spec), CallMount(1, w)],
      [CallDetach(1), Delete(0, w), Delete(1, w)]);
  }

  lemma {:induction false} RunsJoin(s: Sys, es: seq<Event>, fs: seq<Event>)
    requires IsRun(s, es) && IsRun(Run(s, es), fs)
    ensures IsRun(s, es + fs) && Run(s, es + fs) == Run(Run(s, es), fs)
    decreases |es|
  {
    hide Step, Legal;
    if es == [] {
      assert es + fs == fs;
    } else {
      assert (es + fs)[1..] == es[1..] + fs;
      RunsJoin(Step(s, es[0]), es[1..], fs);
    }
  }

  lemma RunIs(s: Sys, e: Event, es: seq<Event>)
    requires Legal(s, e) && IsRun(Step(s, e), es)
    ensures IsRun(s, [e] + es) && Run(s, [e] + es) == Run(Step(s, e), es)
  {
    assert ([e] + es)[1..] == es;
  }

  // Without the condition

  function Count(table: seq<Layer>, p: Path): nat {
    if table == [] then 0
    else (if table[|table| - 1].at == p then 1 else 0) + Count(table[..|table| - 1], p)
  }

  lemma {:induction false} CountWithout(table: seq<Layer>, i: nat, p: Path)
    requires i < |table|
    ensures Count(Without(table, i), p) == Count(table, p) - (if table[i].at == p then 1 else 0)
  {
    var front, last := table[..|table| - 1], table[|table| - 1];
    assert table == front + [last];
    CountPush(front, last, p);
    if i == |table| - 1 {
      assert Without(table, i) == front;
    } else {
      assert Without(table, i) == Without(front, i) + [last];
      CountPush(Without(front, i), last, p);
      CountWithout(front, i, p);
    }
  }

  lemma CountPush(table: seq<Layer>, layer: Layer, p: Path)
    ensures Count(table + [layer], p) == Count(table, p) + (if layer.at == p then 1 else 0)
  {
    assert (table + [layer])[..|table|] == table;
  }

  lemma {:induction false} CountedMountsAreThere(table: seq<Layer>, p: Path)
    ensures Count(table, p) > 0 <==> LastAt(table, p) >= 0
  {
    if table != [] {
      CountedMountsAreThere(table[..|table| - 1], p);
    }
  }

  function ActiveAt(objs: map<nat, Obj>, p: Path): set<nat> {
    set o | o in objs && Active(objs[o]) && objs[o].spec.destination == p
  }

  /** At every path: the initial mounts, one for each active object, and those left behind. */
  predicate HeightOk(s: Sys, base: Kernel, p: Path) {
    Count(s.kernel.table, p) == Count(base.table, p) + |ActiveAt(s.objs, p)| + s.left[p]
  }

  ghost predicate HeightsOk(s: Sys, base: Kernel) {
    && (forall o :: o in s.objs ==> WellFormed(s.objs[o].spec))
    && (forall o :: o in s.objs && s.objs[o].mounted ==> o in s.own)
    && (forall p :: HeightOk(s, base, p))
  }

  lemma ActivitySplits(objs: map<nat, Obj>, o: nat, p: Path)
    ensures |ActiveAt(objs, p)| == |ActiveAt(objs - {o}, p)| +
              (if o in objs && Active(objs[o]) && objs[o].spec.destination == p then 1 else 0)
  {
    var rest := objs - {o};
    if o in objs && Active(objs[o]) && objs[o].spec.destination == p {
      assert ActiveAt(objs, p) == ActiveAt(rest, p) + {o};
    } else {
      assert ActiveAt(objs, p) == ActiveAt(rest, p);
    }
  }

  lemma MountKeepsHeight(s: Sys, e: Event, base: Kernel, p: Path)
    requires HeightsOk(s, base) && Legal(s, e) && e.CallMount?
    ensures HeightOk(Step(s, e), base, p)
  {
    var s', x := Step(s, e), s.objs[e.o];
    assert HeightOk(s, base, p);
    MountShape(s, e);
    ActivitySplits(s.objs, e.o, p);
    ActivitySplits(s'.objs, e.o, p);
    assert s'.objs - {e.o} == s.objs - {e.o};
    var good := Wanted(x.spec, s.kernel.next);
    assert good.at == x.spec.destination;
    hide HeightsOk, ActiveAt, Count, Mount, Step, Wanted;
    CountPush(s.kernel.table, good, p);
    CountPush(s.kernel.table, good.(readOnly := false), p);
  }

  /** An unmounting call makes its object inactive exactly if it takes a mount. */
  lemma ActiveAfterUnmount(s: Sys, e: Event)
    requires Legal(s, e) && (e.CallUnmount? || e.Delete?)
    ensures e.o in s.objs
    ensures var s', x := Step(s, e), s.objs[e.o];
      && (e.o in s'.objs && Active(s'.objs[e.o]) <==> Active(x) && !Takes(s, e))
      && (Takes(s, e) ==> Active(x))
      && (e.o in s'.objs ==> s'.objs[e.o].spec == x.spec)
  {
    hide TopAt, Without, Busy;
  }

  lemma UnmountDropsActivity(s: Sys, e: Event, p: Path)
    requires Legal(s, e) && (e.CallUnmount? || e.Delete?)
    ensures |ActiveAt(s.objs, p)| ==
              |ActiveAt(Step(s, e).objs, p)| + (if Takes(s, e) && s.objs[e.o].spec.destination == p then 1 else 0)
  {
    hide Step, Without, ActiveAt, Takes, Legal, Active;
    var s' := Step(s, e);
    ActiveAfterUnmount(s, e);
    StepIsLocal(s, e);
    ActivitySplits(s.objs, e.o, p);
    ActivitySplits(s'.objs, e.o, p);
  }

  lemma UnmountKeepsHeight(s: Sys, e: Event, base: Kernel, p: Path)
    requires HeightsOk(s, base) && Legal(s, e) && (e.CallUnmount? || e.Delete?)
    ensures HeightOk(Step(s, e), base, p)
  {
    assert HeightOk(s, base, p);
    UnmountShape(s, e);
    assert Takes(s, e) ==> TopAt(s.kernel.table, s.objs[e.o].spec.destination) >= 0;
    hide HeightsOk, ActiveAt, Count, Step, TopAt, Without, Takes, Legal;
    UnmountDropsActivity(s, e, p);
    if Takes(s, e) {
      CountWithout(s.kernel.table, TopAt(s.kernel.table, s.objs[e.o].spec.destination), p);
    }
  }

  lemma QuietCallsKeepHeight(s: Sys, e: Event, base: Kernel, p: Path)
    requires HeightsOk(s, base) && Legal(s, e) && (e.Create? || e.CallDetach?)
    ensures HeightOk(Step(s, e), base, p)
  {
    var s' := Step(s, e);
    assert HeightOk(s, base, p);
    ActivitySplits(s.objs, e.o, p);
    ActivitySplits(s'.objs, e.o, p);
    assert s'.objs - {e.o} == s.objs - {e.o};
    hide ActiveAt, Count;
  }

  lemma StepKeepsHeights(s: Sys, e: Event, base: Kernel)
    requires HeightsOk(s, base) && Legal(s, e)
    ensures HeightsOk(Step(s, e), base)
  {
    forall p: Path
      ensures HeightOk(Step(s, e), base, p)
    {
      hide HeightsOk, HeightOk, Step;
      if e.CallMount? {
        MountKeepsHeight(s, e, base, p);
      } else if e.CallUnmount? || e.Delete? {
        UnmountKeepsHeight(s, e, base, p);
      } else {
        QuietCallsKeepHeight(s, e, base, p);
      }
    }
    if e.CallMount? {
      MountIsAllOrNothingButOnce(s.objs[e.o], s.kernel, e.w);
    }
    hide HeightOk, Wanted, WellFormed;
  }

  /**
   In any interleaving at all, with objects free to take each other's mounts: there are at every
   path as many mounts as were there initially, plus one per active object, plus the ones left
   behind. So no object that is to unmount ever finds its destination without a mount, and the
   system's consent is all that its destructor depends on.
   */
  lemma {:induction false} HeightsAlwaysAddUp(s: Sys, es: seq<Event>, base: Kernel)
    requires HeightsOk(s, base) && IsRun(s, es)
    ensures HeightsOk(Run(s, es), base)
    decreases |es|
  {
    hide HeightsOk, Step, Legal;
    if es != [] {
      StepKeepsHeights(s, es[0], base);
      HeightsAlwaysAddUp(Step(s, es[0]), es[1..], base);
    }
  }

  lemma StartHeights(k: Kernel)
    ensures HeightsOk(Start(k), k)
  {
    assert forall p: Path :: ActiveAt(map[], p) == {};
  }

  /**
   So a mounted object that is not detached always has a mount at its destination, in any run at
   all, and exactly two things besides the system's consent can keep its destructor from
   unmounting: a later mount on a directory above, which hides it, and one below, which uses it.
   */
  lemma DestructorsSucceedExactlyWhen(k: Kernel, es: seq<Event>, o: nat, w: World)
    requires IsRun(Start(k), es) && o in Run(Start(k), es).objs
    ensures var s := Run(Start(k), es);
      var x, t := s.objs[o], s.kernel.table;
      var i := LastAt(t, x.spec.destination);
      && (Active(x) ==> i >= 0)
      && (Destroy(x, s.kernel, w).0 == Ok <==> Active(x) ==> w.umountPermitted && !Hidden(t, i) && !Busy(t, i))
  {
    var s := Run(Start(k), es);
    StartHeights(k);
    HeightsAlwaysAddUp(Start(k), es, k);
    var p := s.objs[o].spec.destination;
    assert HeightOk(s, k, p);
    ActivitySplits(s.objs, o, p);
    CountedMountsAreThere(s.kernel.table, p);
    hide HeightsOk, Count, IsRun, Run, Hidden, Busy;
  }

  // The initial mounts

  predicate Extends(table: seq<Layer>, base: seq<Layer>) {
    |base| <= |table| && table[..|base|] == base
  }

  lemma {:induction false} CountOfPrefix(table: seq<Layer>, n: nat, p: Path)
    requires n <= |table| && forall j :: n <= j < |table| ==> table[j].at != p
    ensures Count(table, p) == Count(table[..n], p)
    decreases |table|
  {
    if n < |table| {
      CountOfPrefix(table[..|table| - 1], n, p);
      assert table[..|table| - 1][..n] == table[..n];
    } else {
      assert table[..n] == table;
    }
  }

  /** Whosever mount it is that an object takes, it is not one of the initial ones. */
  lemma OnlyLaterMountsAreTaken(s: Sys, e: Event, base: Kernel)
    requires HeightsOk(s, base) && Extends(s.kernel.table, base.table)
    requires Legal(s, e) && (e.CallUnmount? || e.Delete?) && Takes(s, e)
    ensures TopAt(s.kernel.table, s.objs[e.o].spec.destination) >= |base.table|
  {
    var p, n := s.objs[e.o].spec.destination, |base.table|;
    assert HeightOk(s, base, p);
    ActivitySplits(s.objs, e.o, p);
    hide HeightsOk, Count, Hidden, Busy;
    if TopAt(s.kernel.table, p) < n {
      CountOfPrefix(s.kernel.table, n, p);
    }
  }

  lemma WithoutKeepsPrefix(table: seq<Layer>, base: seq<Layer>, i: nat)
    requires Extends(table, base) && |base| <= i < |table|
    ensures Extends(Without(table, i), base)
  {
    WithoutSplits(table, |base|, i);
  }

  lemma StepKeepsInitialMounts(s: Sys, e: Event, base: Kernel)
    requires HeightsOk(s, base) && Extends(s.kernel.table, base.table) && Legal(s, e)
    ensures Extends(Step(s, e).kernel.table, base.table)
  {
    if e.CallMount? {
      MountShape(s, e);
      hide Step, Mount, Wanted;
    } else if e.CallUnmount? || e.Delete? {
      UnmountShape(s, e);
      hide Step, HeightsOk, Extends;
      if Takes(s, e) {
        OnlyLaterMountsAreTaken(s, e, base);
        WithoutKeepsPrefix(s.kernel.table, base.table, TopAt(s.kernel.table, s.objs[e.o].spec.destination));
      }
    }
  }

  lemma {:induction false} RunKeepsInitialMounts(s: Sys, es: seq<Event>, base: Kernel)
    requires HeightsOk(s, base) && Extends(s.kernel.table, base.table) && IsRun(s, es)
    ensures Extends(Run(s, es).kernel.table, base.table)
    decreases |es|
  {
    hide HeightsOk, Extends, Step, Legal;
    if es != [] {
      StepKeepsHeights(s, es[0], base);
      StepKeepsInitialMounts(s, es[0], base);
      RunKeepsInitialMounts(Step(s, es[0]), es[1..], base);
    }
  }

  /**
   In any interleaving at all, even when objects take each other's mounts, the initial mounts stay
   exactly as they were; and once all objects are gone and none of them left a mount behind, there
   are no others.
   */
  lemma InitialMountsStay(k: Kernel, es: seq<Event>)
    requires IsRun(Start(k), es)
    ensures var s := Run(Start(k), es);
      && Extends(s.kernel.table, k.table)
      && (s.objs == map[] && s.left == multiset{} ==> s.kernel.table == k.table)
  {
    var s := Run(Start(k), es);
    StartHeights(k);
    RunKeepsInitialMounts(Start(k), es, k);
    HeightsAlwaysAddUp(Start(k), es, k);
    if s.objs == map[] && s.left == multiset{} {
      forall p
        ensures Count(s.kernel.table, p) == Count(k.table, p)
      {
        assert HeightOk(s, k, p);
        assert ActiveAt(s.objs, p) == {};
      }
      NothingAbove(s.kernel.table, k.table);
    }
  }

  lemma NothingAbove(table: seq<Layer>, base: seq<Layer>)
    requires Extends(table, base) && forall p :: Count(table, p) == Count(base, p)
    ensures table == base
  {
    if |table| > |base| {
      SomethingAbove(table, |base|);
    }
  }

  lemma {:induction false} SomethingAbove(table: seq<Layer>, n: nat)
    requires n < |table|
    ensures Count(table, table[n].at) > Count(table[..n], table[n].at)
    decreases |table|
  {
    var front, p := table[..|table| - 1], table[n].at;
    assert front[..n] == table[..n];
    if n < |front| {
      SomethingAbove(front, n);
    } else {
      assert front == table[..n];
    }
  }
}
