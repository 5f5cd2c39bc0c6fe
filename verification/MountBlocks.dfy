/**
 Properly nested use of mount objects: scopes inside scopes, each object mounted, unmounted and
 mounted again as often as one likes, and taken down by its destructor.
 */
module MountBlocks {
  import opened Prelude
  import opened MountKernel
  import opened MountObjects

  /** A piece of a program: the objects it creates are gone at its end. */
  datatype Block = Skip | Then(first: Block, second: Block) | Scope(spec: Spec, life: Down)

  /** The life of an object that is not mounted: it is destroyed, or mounted around a block. */
  datatype Down = Dropped | MountedFor(body: Block, up: Up)

  /** The life of an object that is mounted: it is destroyed, or unmounted around a block. */
  datatype Up = DroppedMounted | UnmountedFor(body: Block, down: Down)

  predicate WellFormedBlock(b: Block) {
    match b
    case Skip => true
    case Then(first, second) => WellFormedBlock(first) && WellFormedBlock(second)
    case Scope(spec, life) => WellFormed(spec) && WellFormedDown(life)
  }

  predicate WellFormedDown(d: Down) {
    match d
    case Dropped => true
    case MountedFor(body, up) => WellFormedBlock(body) && WellFormedUp(up)
  }

  predicate WellFormedUp(u: Up) {
    match u
    case DroppedMounted => true
    case UnmountedFor(body, down) => WellFormedBlock(body) && WellFormedDown(down)
  }

  /** A world in which the file system and the kernel have no objections. */
  function Agreeable(spec: Spec): World {
    World(false, if spec.BindSpec? && spec.file then Other else Directory, false, true, true, true, true)
  }

  /** The kernel after the block, or None if any call on the way did not succeed. */
  function RunBlock(b: Block, k: Kernel): Option<Kernel>
    decreases b
  {
    match b
    case Skip => Some(k)
    case Then(first, second) =>
      (match RunBlock(first, k)
       case None => None
       case Some(k1) => RunBlock(second, k1))
    case Scope(spec, life) => RunDown(Obj(spec, false, false), life, k)
  }

  function RunDown(o: Obj, d: Down, k: Kernel): Option<Kernel>
    decreases d
  {
    match d
    case Dropped =>
      var (r, k1) := Destroy(o, k, Agreeable(o.spec));
      if r == Ok then Some(k1) else None
    case MountedFor(body, up) =>
      var (r, o1, k1) := Mount(o, k, Agreeable(o.spec));
      if r != Ok then None
      else
        match RunBlock(body, k1)
        case None => None
        case Some(k2) => RunUp(o1, up, k2)
  }

  function RunUp(o: Obj, u: Up, k: Kernel): Option<Kernel>
    decreases u
  {
    match u
    case DroppedMounted =>
      var (r, k1) := Destroy(o, k, Agreeable(o.spec));
      if r == Ok then Some(k1) else None
    case UnmountedFor(body, down) =>
      var (r, o1, k1) := Unmount(o, k, Agreeable(o.spec));
      if r != Ok then None
      else
        match RunBlock(body, k1)
        case None => None
        case Some(k2) => RunDown(o1, down, k2)
  }

  /**
   Every nested block runs through without any call failing, and leaves the kernel's mounts
   exactly as they were, however many objects share a destination.
   */
  lemma {:induction false} BlocksRestoreTheTable(b: Block, k: Kernel)
    requires WellFormedBlock(b)
    ensures RunBlock(b, k).Some? && RunBlock(b, k).value.table == k.table
    decreases b
  {
    match b
    case Skip =>
    case Then(first, second) =>
      BlocksRestoreTheTable(first, k);
      BlocksRestoreTheTable(second, RunBlock(first, k).value);
    case Scope(spec, life) =>
      DownRestoresTheTable(Obj(spec, false, false), life, k);
  }

  lemma {:induction false} DownRestoresTheTable(o: Obj, d: Down, k: Kernel)
    requires WellFormedDown(d) && WellFormed(o.spec) && !o.mounted && !o.detached
    ensures RunDown(o, d, k).Some? && RunDown(o, d, k).value.table == k.table
    decreases d
  {
    match d
    case Dropped =>
    case MountedFor(body, up) =>
      var w := Agreeable(o.spec);
      MountSucceedsExactlyWhen(o, k, w);
      MountIsAllOrNothingButOnce(o, k, w);
      var (_, o1, k1) := Mount(o, k, w);
      hide Mount;
      BlocksRestoreTheTable(body, k1);
      UpRestoresTheTable(o1, up, RunBlock(body, k1).value, k.table, Wanted(o.spec, k.next));
  }

  lemma {:induction false} UpRestoresTheTable(o: Obj, u: Up, k: Kernel, base: seq<Layer>, own: Layer)
    requires WellFormedUp(u) && WellFormed(o.spec) && o.mounted && !o.detached
    requires k.table == base + [own] && own.at == o.spec.destination
    ensures RunUp(o, u, k).Some? && RunUp(o, u, k).value.table == base
    decreases u
  {
    LastIsOnTop(base, own);
    match u
    case DroppedMounted =>
    case UnmountedFor(body, down) =>
      var (_, o1, k1) := Unmount(o, k, Agreeable(o.spec));
      BlocksRestoreTheTable(body, k1);
      DownRestoresTheTable(o1, down, RunBlock(body, k1).value);
  }
}
