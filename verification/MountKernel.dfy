/** The kernel's mount list, as far as the mount objects can see and change it. */
module MountKernel {
  import opened Prelude

  type Path = string

  datatype Source = Bound(path: Path) | TmpFs(sizeBytes: nat)

  /** One mount: `id` tells apart what was mounted when. */
  datatype Layer = Layer(id: nat, at: Path, source: Source, readOnly: bool, recursive: bool)

  /** Mounts in the order they were made; a later one at the same path covers an earlier one. */
  datatype Kernel = Kernel(table: seq<Layer>, next: nat)

  const MS_RDONLY: bv32 := 1
  const MS_REMOUNT: bv32 := 32
  const MS_BIND: bv32 := 4096
  const MS_REC: bv32 := 16384

  predicate Has(flags: bv32, flag: bv32) {
    flags & flag != 0
  }

  /** The last mount made at `p`, or -1. */
  function LastAt(table: seq<Layer>, p: Path): (i: int)
    ensures -1 <= i < |table|
    ensures i >= 0 ==> table[i].at == p
    ensures forall j :: i < j < |table| ==> table[j].at != p
  {
    if table == [] then -1
    else if table[|table| - 1].at == p then |table| - 1
    else LastAt(table[..|table| - 1], p)
  }

  /** `p` lies properly below `ancestor`. */
  predicate Below(p: Path, ancestor: Path) {
    && |ancestor| < |p| && p[..|ancestor|] == ancestor
    && ((ancestor != "" && ancestor[|ancestor| - 1] == '/') || p[|ancestor|] == '/')
  }

  lemma BelowMeans(p: Path, ancestor: Path)
    ensures Below(p, ancestor) <==>
              exists rest :: p == ancestor + rest && rest != ""
                             && (rest[0] == '/' || (ancestor != "" && ancestor[|ancestor| - 1] == '/'))
  {
    if Below(p, ancestor) {
      assert p == ancestor + p[|ancestor|..];
    }
  }

  /** A later mount above covers the path and all that is mounted there. */
  predicate Hidden(table: seq<Layer>, i: nat)
    requires i < |table|
  {
    exists j :: i < j < |table| && Below(table[i].at, table[j].at)
  }

  /** Something that was mounted on top of it and below its path keeps it in use. */
  predicate Busy(table: seq<Layer>, i: nat)
    requires i < |table|
  {
    exists j :: i < j < |table| && Below(table[j].at, table[i].at)
  }

  /** The mount that is visible at `p`, or -1. */
  function TopAt(table: seq<Layer>, p: Path): (i: int)
    ensures -1 <= i < |table|
    ensures i >= 0 ==> table[i].at == p
    ensures i >= 0 ==> forall j :: i < j < |table| ==> table[j].at != p
  {
    var i := LastAt(table, p);
    if i >= 0 && Hidden(table, i) then -1 else i
  }

  function Without(table: seq<Layer>, i: nat): seq<Layer>
    requires i < |table|
  {
    table[..i] + table[i + 1..]
  }

  /**
   mount(2). A remount changes the visible mount. The first call for a bind mount takes no
   notice of any other flag than MS_REC. `permitted` is whatever else the kernel requires.
   */
  function SysMount(k: Kernel, source: Source, at: Path, flags: bv32, permitted: bool): Option<Kernel> {
    if !permitted then None
    else if Has(flags, MS_REMOUNT) then
      var i := TopAt(k.table, at);
      if i < 0 then None
      else Some(k.(table := k.table[i := k.table[i].(readOnly := Has(flags, MS_RDONLY))]))
    else
      var bind := Has(flags, MS_BIND);
      var layer := Layer(k.next, at, source, !bind && Has(flags, MS_RDONLY), bind && Has(flags, MS_REC));
      Some(Kernel(k.table + [layer], k.next + 1))
  }

  /** umount(2) removes the visible mount unless it is in use. */
  function SysUmount(k: Kernel, at: Path, permitted: bool): Option<Kernel> {
    var i := TopAt(k.table, at);
    if !permitted || i < 0 || Busy(k.table, i) then None else Some(k.(table := Without(k.table, i)))
  }

  lemma LastIsOnTop(table: seq<Layer>, layer: Layer)
    ensures TopAt(table + [layer], layer.at) == |table| && !Busy(table + [layer], |table|)
    ensures Without(table + [layer], |table|) == table
  {
  }
}
