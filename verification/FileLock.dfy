/**
 `FileLockGuard` over the kernel's table of advisory locks. Each guard opens the file for
 itself, so locks belong to open file descriptions, one per guard.
 */
module FileLock {
  datatype Mode = Shared | Exclusive

  /** The locks on one file, by open file description. */
  type Locks<!O(==)> = map<O, Mode>

  predicate CanLock<O>(locks: Locks<O>, o: O, mode: Mode) {
    forall p :: p in locks && p != o ==> mode == Shared && locks[p] == Shared
  }

  /** Any number of shared locks, or a single exclusive one. */
  lemma CanLockExactly<O>(locks: Locks<O>, o: O)
    ensures CanLock(locks, o, Shared) <==> forall p :: p in locks && p != o ==> locks[p] != Exclusive
    ensures CanLock(locks, o, Exclusive) <==> locks.Keys <= {o}
  {
  }

  /** A conversion first removes the lock that is held: flock(2) does not make it atomic. */
  function BeginConversion<O>(locks: Locks<O>, o: O): Locks<O> {
    locks - {o}
  }

  lemma ConversionKeepsOthers<O>(locks: Locks<O>, o: O, mode: Mode)
    ensures CanLock(BeginConversion(locks, o), o, mode) == CanLock(locks, o, mode)
  {
    var locks' := BeginConversion(locks, o);
    assert forall p :: p in locks && p != o ==> p in locks' && locks'[p] == locks[p];
  }

  function Grant<O>(locks: Locks<O>, o: O, mode: Mode): Locks<O> {
    locks[o := mode]
  }

  function Release<O>(locks: Locks<O>, o: O): Locks<O> {
    locks - {o}
  }

  /** The numeric values of `State`: it borrows those of two unrelated enumerations. */
  datatype Encoding = Encoding(rlock: int, rwlock: int, unlocked: int)

  /** As shipped, `RLock` and `Unlocked` are both the first enumerator of their enumeration. */
  const SHIPPED := Encoding(0, 1, 0)

  predicate Distinct(e: Encoding) {
    e.rlock != e.rwlock && e.rwlock != e.unlocked && e.unlocked != e.rlock
  }

  function ToState(e: Encoding, mode: Mode): int {
    if mode == Shared then e.rlock else e.rwlock
  }

  /** What `unlock()` leaves of the guard's state and of the kernel's locks. */
  function UnlockedState(e: Encoding, state: int): int {
    if state == e.unlocked then state else e.unlocked
  }

  function UnlockedLocks<O>(e: Encoding, state: int, locks: Locks<O>, o: O): Locks<O> {
    if state == e.unlocked then locks else Release(locks, o)
  }

  class LockTable {
    var locks: Locks<nat>

    constructor ()
      ensures locks == map[]
    {
      locks := map[];
    }
  }

  /** `Waiting`: the call has not returned, it blocks with nothing held. */
  datatype LockOutcome = Granted | Waiting | AssertionFailed

  /** `checked` is false for builds with NDEBUG, whose `assert` does nothing. */
  class FileLockGuard {
    const encoding: Encoding
    const fd: nat
    const checked: bool
    var state: int

    constructor Open(e: Encoding, fd: nat, checked: bool, table: LockTable)
      requires fd !in table.locks
      ensures encoding == e && this.fd == fd && this.checked == checked && state == e.unlocked
    {
      encoding, this.fd, this.checked := e, fd, checked;
      state := e.unlocked;
    }

    /** `lock()`, up to the point where it returns or has to wait for others. */
    method Lock(mode: Mode, table: LockTable) returns (r: LockOutcome)
      modifies this, table
      ensures r == AssertionFailed <==> checked && old(state) != encoding.unlocked
      ensures r == AssertionFailed ==> state == old(state) && table.locks == old(table.locks)
      ensures r == Granted <==> (checked ==> old(state) == encoding.unlocked) && CanLock(old(table.locks), fd, mode)
      ensures r == Granted ==> state == ToState(encoding, mode) && table.locks == Grant(old(table.locks), fd, mode)
      ensures r == Waiting ==> state == old(state) && table.locks == BeginConversion(old(table.locks), fd)
    {
      if checked && state != encoding.unlocked {
        return AssertionFailed;
      }
      ConversionKeepsOthers(table.locks, fd, mode);
      table.locks := BeginConversion(table.locks, fd);
      if CanLock(table.locks, fd, mode) {
        table.locks := Grant(table.locks, fd, mode);
        state := ToState(encoding, mode);
        r := Granted;
      } else {
        r := Waiting;
      }
    }

    method Unlock(table: LockTable)
      modifies this, table
      ensures state == UnlockedState(encoding, old(state)) == encoding.unlocked
      ensures table.locks == UnlockedLocks(encoding, old(state), old(table.locks), fd)
    {
      if state == encoding.unlocked {
        return;
      }
      table.locks := Release(table.locks, fd);
      state := encoding.unlocked;
    }

    /** The destructor: unlocks, then closes the file, and with it the open file description. */
    method Destroy(table: LockTable)
      modifies this, table
      ensures table.locks == Release(old(table.locks), fd)
    {
      Unlock(table);
      table.locks := Release(table.locks, fd);
    }
  }

  /** Unlocking a shared guard gives the kernel lock back exactly when the encoding tells the two states apart. */
  lemma SharedUnlockReleases<O>(e: Encoding, locks: Locks<O>, o: O)
    requires o in locks && locks[o] == Shared
    ensures o !in UnlockedLocks(e, ToState(e, Shared), locks, o) <==> e.rlock != e.unlocked
    ensures UnlockedLocks(SHIPPED, ToState(SHIPPED, Shared), locks, o) == locks
  {
  }
}
