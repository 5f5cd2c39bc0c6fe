/** `BindImpl` and `TmpFsMount`: objects that own at most one mount. */
module MountObjects {
  import opened Prelude
  import opened MountKernel

  // `BindImpl::Flags`
  const NONE: bv32 := 0
  const NO_REC: bv32 := MS_REC
  const ALLOW_WRITE: bv32 := MS_RDONLY
  const DEFAULT_FLAGS: bv32 := MS_BIND | MS_REC | MS_RDONLY

  /** A remount names no source. */
  const NO_SOURCE := Bound("none")

  /** Any combination of the enumerators. */
  predicate IsBindFlags(flags: bv32) {
    flags & !(NO_REC | ALLOW_WRITE) == 0
  }

  /** What a mount object is constructed from; `file` tells FileBindMount from DirectoryBindMount. */
  datatype Spec =
    | BindSpec(file: bool, source: Path, destination: Path, flags: bv32)
    | TmpFsSpec(destination: Path, sizeBytes: nat)

  datatype FileType = NotFound | Directory | Other

  /** How the outside world answers during one call. */
  datatype World = World(
    statusFails: bool, sourceType: FileType, createFails: bool, opens: bool,
    mountPermitted: bool, remountPermitted: bool, umountPermitted: bool)

  datatype Error =
    | ErrorCode | SourceNotFound | SourceIsADirectory | SourceIsNotADirectory
    | UnableToCreateOrOpenDestination
    | MountFailed | RemountFailed | UnmountFailed

  /** `Panic` is a violated SEX_ASSERT, which throws. */
  datatype Result = Ok | Err(error: Error) | Panic

  /** An object's state. */
  datatype Obj = Obj(spec: Spec, mounted: bool, detached: bool)

  function FileCheck(w: World): Result {
    if w.statusFails then Err(ErrorCode)
    else if w.sourceType == NotFound then Err(SourceNotFound)
    else if w.sourceType == Directory then Err(SourceIsADirectory)
    else if w.createFails then Err(ErrorCode)
    else if !w.opens then Err(UnableToCreateOrOpenDestination)
    else Ok
  }

  function DirectoryCheck(w: World): Result {
    if w.statusFails then Err(ErrorCode)
    else if w.sourceType == NotFound then Err(SourceNotFound)
    else if w.sourceType != Directory then Err(SourceIsNotADirectory)
    else if w.createFails then Err(ErrorCode)
    else Ok
  }

  function Check(spec: Spec, w: World): Result {
    match spec
    case BindSpec(file, _, _, _) => if file then FileCheck(w) else DirectoryCheck(w)
    case TmpFsSpec(_, _) => if w.createFails then Err(ErrorCode) else Ok
  }

  function MountFlags(spec: Spec): bv32 {
    if spec.BindSpec? then spec.flags ^ DEFAULT_FLAGS else 0
  }

  function ForRemount(flags: bv32): bv32 {
    flags | MS_REMOUNT
  }

  function MountSource(spec: Spec): Source {
    if spec.BindSpec? then Bound(spec.source) else TmpFs(spec.sizeBytes)
  }

  /** `mount()`: the outcome, the object and the kernel afterwards. */
  function Mount(o: Obj, k: Kernel, w: World): (Result, Obj, Kernel) {
    var flags := MountFlags(o.spec);
    if o.mounted || o.detached then (Panic, o, k)
    else if Check(o.spec, w) != Ok then (Check(o.spec, w), o, k)
    else
      match SysMount(k, MountSource(o.spec), o.spec.destination, flags, w.mountPermitted)
      case None => (Err(MountFailed), o, k)
      case Some(k1) =>
        if o.spec.BindSpec? && Has(flags, MS_RDONLY) then
          match SysMount(k1, NO_SOURCE, o.spec.destination, ForRemount(flags), w.remountPermitted)
          case None => (Err(RemountFailed), o, k1)
          case Some(k2) => (Ok, o.(mounted := true), k2)
        else (Ok, o.(mounted := true), k1)
  }

  function Unmount(o: Obj, k: Kernel, w: World): (Result, Obj, Kernel) {
    if !o.mounted || o.detached then (Panic, o, k)
    else
      match SysUmount(k, o.spec.destination, w.umountPermitted)
      case None => (Err(UnmountFailed), o, k)
      case Some(k1) => (Ok, o.(mounted := false), k1)
  }

  function Detach(o: Obj): (Result, Obj) {
    if o.detached then (Panic, o) else (Ok, o.(detached := true))
  }

  /** The destructor; anything but Ok leaves it with an exception and ends the program. */
  function Destroy(o: Obj, k: Kernel, w: World): (Result, Kernel) {
    if !o.detached && o.mounted then
      var (r, _, k1) := Unmount(o, k, w);
      (r, k1)
    else (Ok, k)
  }

  // The objects themselves

  class KernelState {
    var table: seq<Layer>
    var next: nat

    function Value(): Kernel
      reads this
    {
      Kernel(table, next)
    }

    constructor (k: Kernel)
      ensures Value() == k
    {
      table, next := k.table, k.next;
    }

    method MountCall(source: Source, at: Path, flags: bv32, permitted: bool) returns (ok: bool)
      modifies this
      ensures var r := SysMount(old(Value()), source, at, flags, permitted);
        ok == r.Some? && Value() == if r.Some? then r.value else old(Value())
    {
      var r := SysMount(Value(), source, at, flags, permitted);
      ok := r.Some?;
      if r.Some? {
        table, next := r.value.table, r.value.next;
      }
    }

    method UmountCall(at: Path, permitted: bool) returns (ok: bool)
      modifies this
      ensures var r := SysUmount(old(Value()), at, permitted);
        ok == r.Some? && Value() == if r.Some? then r.value else old(Value())
    {
      var r := SysUmount(Value(), at, permitted);
      ok := r.Some?;
      if r.Some? {
        table := r.value.table;
      }
    }
  }

  class BindMount {
    const file: bool
    const source: Path
    const destination: Path
    const flags: bv32
    const mountFlags: bv32
    var mounted: bool
    var detached: bool

    predicate Valid() {
      mountFlags == MountFlags(BindSpec(file, source, destination, flags))
    }

    function Value(): Obj
      reads this
    {
      Obj(BindSpec(file, source, destination, flags), mounted, detached)
    }

    constructor (file: bool, source: Path, destination: Path, flags: bv32)
      ensures Valid() && Value() == Obj(BindSpec(file, source, destination, flags), false, false)
    {
      this.file, this.source, this.destination, this.flags := file, source, destination, flags;
      mountFlags := flags ^ DEFAULT_FLAGS;
      mounted, detached := false, false;
    }

    method MountIt(k: KernelState, w: World) returns (r: Result)
      requires Valid()
      modifies this, k
      ensures (r, Value(), k.Value()) == Mount(old(Value()), old(k.Value()), w)
    {
      hide SysMount, Has, MountFlags, ForRemount;
      ghost var o, k0 := Value(), k.Value();
      if !(!mounted && !detached) {
        return Panic;
      }
      r := if file then FileCheck(w) else DirectoryCheck(w);
      if r != Ok {
        return;
      }
      var ok := k.MountCall(Bound(source), destination, mountFlags, w.mountPermitted);
      ghost var r1 := SysMount(k0, MountSource(o.spec), o.spec.destination, MountFlags(o.spec), w.mountPermitted);
      if !ok {
        return Err(MountFailed);
      }
      assert r1 == Some(k.Value());
      if Has(mountFlags, MS_RDONLY) {
        ok := k.MountCall(NO_SOURCE, destination, ForRemount(mountFlags), w.remountPermitted);
        if !ok {
          return Err(RemountFailed);
        }
      }
      mounted := true;
    }

    method UnmountIt(k: KernelState, w: World) returns (r: Result)
      requires Valid()
      modifies this, k
      ensures (r, Value(), k.Value()) == Unmount(old(Value()), old(k.Value()), w)
    {
      if !(mounted && !detached) {
        return Panic;
      }
      var ok := k.UmountCall(destination, w.umountPermitted);
      if !ok {
        return Err(UnmountFailed);
      }
      mounted := false;
      r := Ok;
    }

    method DetachIt() returns (r: Result)
      modifies this
      ensures (r, Value()) == Detach(old(Value()))
    {
      if detached {
        return Panic;
      }
      detached := true;
      r := Ok;
    }

    method DestroyIt(k: KernelState, w: World) returns (r: Result)
      requires Valid()
      modifies this, k
      ensures (r, k.Value()) == Destroy(old(Value()), old(k.Value()), w)
    {
      r := Ok;
      if !detached && mounted {
        r := UnmountIt(k, w);
      }
    }
  }

  class TmpFsMount {
    const destination: Path
    const sizeBytes: nat
    var mounted: bool
    var detached: bool

    function Value(): Obj
      reads this
    {
      Obj(TmpFsSpec(destination, sizeBytes), mounted, detached)
    }

    constructor (destination: Path, sizeBytes: nat)
      ensures Value() == Obj(TmpFsSpec(destination, sizeBytes), false, false)
    {
      this.destination, this.sizeBytes := destination, sizeBytes;
      mounted, detached := false, false;
    }

    method MountIt(k: KernelState, w: World) returns (r: Result)
      modifies this, k
      ensures (r, Value(), k.Value()) == Mount(old(Value()), old(k.Value()), w)
    {
      if !(!detached && !mounted) {
        return Panic;
      }
      if w.createFails {
        return Err(ErrorCode);
      }
      var ok := k.MountCall(TmpFs(sizeBytes), destination, 0, w.mountPermitted);
      if !ok {
        return Err(MountFailed);
      }
      mounted := true;
      r := Ok;
    }

    method UnmountIt(k: KernelState, w: World) returns (r: Result)
      modifies this, k
      ensures (r, Value(), k.Value()) == Unmount(old(Value()), old(k.Value()), w)
    {
      if !(!detached && mounted) {
        return Panic;
      }
      var ok := k.UmountCall(destination, w.umountPermitted);
      if !ok {
        return Err(UnmountFailed);
      }
      mounted := false;
      r := Ok;
    }

    method DetachIt() returns (r: Result)
      modifies this
      ensures (r, Value()) == Detach(old(Value()))
    {
      if detached {
        return Panic;
      }
      detached := true;
      r := Ok;
    }

    method DestroyIt(k: KernelState, w: World) returns (r: Result)
      modifies this, k
      ensures (r, k.Value()) == Destroy(old(Value()), old(k.Value()), w)
    {
      r := Ok;
      if !detached && mounted {
        r := UnmountIt(k, w);
      }
    }
  }

  // What a single call does

  /** XOR with the defaults: a flag that is given takes its default away. */
  lemma FlagsInvertDefaults(flags: bv32)
    requires IsBindFlags(flags)
    ensures var m := flags ^ DEFAULT_FLAGS;
      && Has(m, MS_BIND) && !Has(m, MS_REMOUNT)
      && (Has(m, MS_RDONLY) <==> !Has(flags, ALLOW_WRITE))
      && (Has(m, MS_REC) <==> !Has(flags, NO_REC))
      && Has(m | MS_REMOUNT, MS_REMOUNT)
      && (Has(m | MS_REMOUNT, MS_RDONLY) <==> Has(m, MS_RDONLY))
  {
  }

  predicate WellFormed(spec: Spec) {
    spec.BindSpec? ==> IsBindFlags(spec.flags)
  }

  /** The mount that an object asks for. */
  function Wanted(spec: Spec, id: nat): Layer {
    match spec
    case BindSpec(_, source, destination, flags) =>
      Layer(id, destination, Bound(source), !Has(flags, ALLOW_WRITE), !Has(flags, NO_REC))
    case TmpFsSpec(destination, sizeBytes) => Layer(id, destination, TmpFs(sizeBytes), false, false)
  }

  /**
   A call of `mount()` either succeeds, and then exactly the wanted mount is on top, or fails.
   A failure changes nothing, except that a bind whose read-only remount was refused leaves its
   mount behind, writable, with nobody to unmount it.
   */
  lemma MountIsAllOrNothingButOnce(o: Obj, k: Kernel, w: World)
    requires WellFormed(o.spec)
    ensures var (r, o', k') := Mount(o, k, w);
      && (r == Ok ==> k' == Kernel(k.table + [Wanted(o.spec, k.next)], k.next + 1) && o' == o.(mounted := true))
      && (r != Ok && r != Err(RemountFailed) ==> k' == k && o' == o)
      && (r == Err(RemountFailed) ==>
            && o.spec.BindSpec? && !Has(o.spec.flags, ALLOW_WRITE) && !w.remountPermitted
            && o' == o && !o'.mounted
            && k' == Kernel(k.table + [Wanted(o.spec, k.next).(readOnly := false)], k.next + 1))
      && (r == Panic <==> o.mounted || o.detached)
  {
    if o.spec.BindSpec? {
      FlagsInvertDefaults(o.spec.flags);
      var layer := Wanted(o.spec, k.next).(readOnly := false);
      LastIsOnTop(k.table, layer);
    }
  }

  /** When it does succeed. */
  lemma MountSucceedsExactlyWhen(o: Obj, k: Kernel, w: World)
    requires WellFormed(o.spec)
    ensures Mount(o, k, w).0 == Ok <==>
            && !o.mounted && !o.detached
            && Check(o.spec, w) == Ok && w.mountPermitted
            && (o.spec.BindSpec? && !Has(o.spec.flags, ALLOW_WRITE) ==> w.remountPermitted)
  {
    MountIsAllOrNothingButOnce(o, k, w);
    if o.spec.BindSpec? {
      FlagsInvertDefaults(o.spec.flags);
      LastIsOnTop(k.table, Wanted(o.spec, k.next).(readOnly := false));
    } else {
      assert Mount(o, k, w).0 != Err(RemountFailed);
    }
  }

  predicate IsFileBind(spec: Spec) {
    spec.BindSpec? && spec.file
  }

  predicate IsDirectoryBind(spec: Spec) {
    spec.BindSpec? && !spec.file
  }

  /** What a call needs to get as far as mount(2). */
  predicate Prepared(spec: Spec, w: World) {
    && !w.createFails
    && (IsFileBind(spec) ==> !w.statusFails && w.sourceType == Other && w.opens)
    && (IsDirectoryBind(spec) ==> !w.statusFails && w.sourceType == Directory)
  }

  /** Every result of `mount()`, and exactly when it is that one. */
  lemma MountAnswers(o: Obj, k: Kernel, w: World)
    requires WellFormed(o.spec)
    ensures var r := Mount(o, k, w).0;
      var free, spec := !o.mounted && !o.detached, o.spec;
      var bind := spec.BindSpec?;
      var found := bind && !w.statusFails && w.sourceType != NotFound;
      var readOnly := bind && !Has(spec.flags, ALLOW_WRITE);
      && (r == Panic <==> !free)
      && (r == Err(SourceNotFound) <==> free && bind && !w.statusFails && w.sourceType == NotFound)
      && (r == Err(SourceIsADirectory) <==> free && found && IsFileBind(spec) && w.sourceType == Directory)
      && (r == Err(SourceIsNotADirectory) <==> free && found && IsDirectoryBind(spec) && w.sourceType == Other)
      && (r == Err(ErrorCode) <==>
            free && ((bind && w.statusFails)
                     || (w.createFails && (bind ==> found && (IsFileBind(spec) <==> w.sourceType == Other)))))
      && (r == Err(UnableToCreateOrOpenDestination) <==>
            free && found && IsFileBind(spec) && w.sourceType == Other && !w.createFails && !w.opens)
      && (r == Err(MountFailed) <==> free && Prepared(spec, w) && !w.mountPermitted)
      && (r == Err(RemountFailed) <==> free && Prepared(spec, w) && w.mountPermitted && readOnly && !w.remountPermitted)
      && (r == Ok <==> free && Prepared(spec, w) && w.mountPermitted && (readOnly ==> w.remountPermitted))
      && r != Err(UnmountFailed)
  {
    MountIsAllOrNothingButOnce(o, k, w);
    MountSucceedsExactlyWhen(o, k, w);
    hide TopAt;
  }

  /** The same for `unmount()`, with the mount that goes. */
  lemma UnmountAnswers(o: Obj, k: Kernel, w: World)
    ensures var (r, o', k') := Unmount(o, k, w);
      var i := TopAt(k.table, o.spec.destination);
      && (r == Panic <==> !o.mounted || o.detached)
      && (r == Ok <==> o.mounted && !o.detached && w.umountPermitted && i >= 0 && !Busy(k.table, i))
      && (r != Ok && r != Panic ==> r == Err(UnmountFailed))
      && (r == Ok ==> o' == o.(mounted := false) && k'.table == k.table[..i] + k.table[i + 1..] && k'.next == k.next)
      && (r != Ok ==> o' == o && k' == k)
  {
  }

  /** The flag words that reach mount(2), in the kernel's numbers. */
  lemma MountWords(file: bool, source: Path, destination: Path, flags: bv32)
    requires flags == 0 || flags == 0x1 || flags == 0x4000 || flags == 0x4001
    ensures IsBindFlags(flags)
    ensures var m := MountFlags(BindSpec(file, source, destination, flags));
      && m == (match flags
               case 0 => 0x5001
               case 0x1 => 0x5000
               case 0x4000 => 0x1001
               case _ => 0x1000)
      && ForRemount(m) == m | 0x20
    ensures Has(flags, ALLOW_WRITE) <==> flags & 0x1 != 0
    ensures Has(flags, NO_REC) <==> flags & 0x4000 != 0
  {
  }
}
