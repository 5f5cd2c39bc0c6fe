/** `FdHolder`: owners of file descriptors, and the kernel's table of open descriptors. */
module FdHolder {
  /** `FileDescriptor::None` */
  const NONE := -1

  /**
   What each open descriptor number stands for. Numbers are used again after a close; `next`
   numbers whatever is opened, so that what a number stood for at different times can be told
   apart. `closed` is what has been closed through holders.
   */
  datatype Table = Table(open: map<int, nat>, next: nat, closed: multiset<nat>)

  /** close(2), which fails for a number that is not open. */
  function Close(t: Table, fd: int): (bool, Table) {
    if fd in t.open then (true, t.(open := t.open - {fd}, closed := t.closed + multiset{t.open[fd]})) else (false, t)
  }

  /** The kernel opens something under the unused number `fd`. */
  function Opened(t: Table, fd: int): Table {
    t.(open := t.open[fd := t.next], next := t.next + 1)
  }

  /** `reset`: whether it returned, the descriptor held and the table afterwards. */
  function Reset(t: Table, fd: int, newFd: int): (bool, int, Table) {
    if fd == NONE then (true, newFd, t)
    else
      var (ok, t') := Close(t, fd);
      if ok then (true, newFd, t') else (false, fd, t')
  }

  /**
   A `reset` returns exactly if there was nothing to close or the close succeeded. Then the new
   number is held, and the old descriptor and no other was closed. Otherwise nothing has changed.
   */
  lemma ResetExactly(t: Table, fd: int, newFd: int)
    ensures var (ok, fd', t') := Reset(t, fd, newFd);
      && (ok <==> fd == -1 || fd in t.open)
      && (ok ==> fd' == newFd)
      && (!ok ==> fd' == fd && t' == t)
      && (ok && fd == -1 ==> t' == t)
      && (ok && fd != -1 ==>
            t'.open == t.open - {fd} && t'.closed == t.closed + multiset{t.open[fd]} && t'.next == t.next)
  {
  }

  class DescriptorTable {
    var open: map<int, nat>
    var next: nat
    var closed: multiset<nat>

    function Value(): Table
      reads this
    {
      Table(open, next, closed)
    }

    constructor ()
      ensures Value() == Table(map[], 0, multiset{})
    {
      open, next, closed := map[], 0, multiset{};
    }

    method Open(fd: int)
      modifies this
      ensures Value() == Opened(old(Value()), fd)
    {
      open, next := open[fd := next], next + 1;
    }

    method CloseCall(fd: int) returns (ok: bool)
      modifies this
      ensures (ok, Value()) == Close(old(Value()), fd)
    {
      ok := fd in open;
      if ok {
        closed := closed + multiset{open[fd]};
        open := open - {fd};
      }
    }
  }

  class Holder {
    var fd: int

    constructor (fd: int)
      ensures this.fd == fd
    {
      this.fd := fd;
    }

    constructor Empty()
      ensures fd == NONE
    {
      fd := NONE;
    }

    /** The move constructor. */
    constructor MoveFrom(other: Holder)
      modifies other
      ensures fd == old(other.fd) && other.fd == NONE
    {
      fd := NONE;
      new;
      Swap(other);
    }

    method Swap(other: Holder)
      modifies this, other
      ensures fd == old(other.fd) && other.fd == old(fd)
    {
      fd, other.fd := other.fd, fd;
    }

    /** Move assignment. */
    method MoveAssign(other: Holder)
      modifies this, other
      ensures fd == old(other.fd) && other.fd == old(fd)
    {
      Swap(other);
    }

    /** The result tells whether the call returned normally. */
    method ResetTo(newFd: int, t: DescriptorTable) returns (ok: bool)
      modifies this, t
      ensures (ok, fd, t.Value()) == Reset(old(t.Value()), old(fd), newFd)
    {
      ok := true;
      if fd != NONE {
        ok := t.CloseCall(fd);
        if !ok {
          return;
        }
      }
      fd := newFd;
    }

    method Release() returns (f: int)
      modifies this
      ensures f == old(fd) && fd == NONE
    {
      f := fd;
      fd := NONE;
    }

    /** The destructor. */
    method Destroy(t: DescriptorTable) returns (ok: bool)
      modifies this, t
      ensures (ok, fd, t.Value()) == Reset(old(t.Value()), old(fd), NONE)
    {
      ok := ResetTo(NONE, t);
    }
  }
}
