/**
 Address arithmetic of the erasure's storage: where a box of a given size and
 alignment goes inside the buffer of an erasure at a given address.
 */
module ErasureLayout {
  import opened Prelude

  type Addr = nat

  /** Size and alignment of the `data_accessor` union on a 64-bit target. */
  const POINTER_SIZE: nat := 8

  /** What the command table knows statically about the box type it was made for. */
  datatype RawBoxType = BoxType(size: nat, align: nat, copyable: bool)

  type BoxType = t: RawBoxType | 0 < t.size && 0 < t.align
    witness BoxType(1, 1, false)

  /** The `Capacity` policy of an erasure. */
  datatype RawCapacity = Capacity(size: nat, align: nat)

  type Capacity = c: RawCapacity | 0 < c.align
    witness Capacity(0, 1)

  function AlignUp(p: Addr, align: nat): (a: Addr)
    requires 0 < align
    ensures p <= a < p + align && a % align == 0
  {
    AlignUpIsAligned(p, align);
    (p + align - 1) / align * align
  }

  lemma AlignUpIsAligned(p: Addr, align: nat)
    requires 0 < align
    ensures var a := (p + align - 1) / align * align; p <= a < p + align && a % align == 0
  {
    var n := p + align - 1;
    assert n == n / align * align + n % align;
    MultipleIsAligned(n / align, align);
  }

  lemma MultipleIsAligned(q: nat, align: nat)
    requires 0 < align
    ensures q * align % align == 0
  {
    if q > 0 {
      MultipleIsAligned(q - 1, align);
      assert q * align == (q - 1) * align + align;
      assert (q * align) % align == ((q - 1) * align) % align by {
        ShiftKeepsRemainder((q - 1) * align, align);
      }
    }
  }

  lemma ShiftKeepsRemainder(n: nat, align: nat)
    requires 0 < align
    ensures (n + align) % align == n % align
  {
    var q := n / align;
    assert n == q * align + n % align;
    assert n + align == (q + 1) * align + n % align;
    QuotientIsUnique(n + align, align, q + 1, n % align);
  }

  /** A multiple of `d` strictly between `-d` and `d` is zero. */
  lemma OnlySmallMultipleIsZero(q: int, d: int)
    requires -d < q * d < d
    ensures q == 0
  {
    if q != 0 {
      NonzeroMultipleIsLarge(q, d);
    }
  }

  lemma NonzeroMultipleIsLarge(q: int, d: int)
    requires q != 0 && 0 < d
    ensures q * d >= d || q * d <= -d
  {
    if q > 0 {
      assert (q - 1) * d >= 0;
    } else {
      assert (-q - 1) * d >= 0;
    }
  }

  lemma QuotientIsUnique(n: nat, d: nat, q: int, r: int)
    requires 0 < d && 0 <= r < d && n == q * d + r
    ensures n / d == q && n % d == r
  {
    assert n == n / d * d + n % d;
    assert (q - n / d) * d == n % d - r;
    OnlySmallMultipleIsZero(q - n / d, d);
  }

  /** Two aligned addresses that differ by less than the alignment are the same. */
  lemma AlignedAddressesAreFarApart(a: Addr, b: Addr, align: nat)
    requires 0 < align && a % align == 0 && b % align == 0 && a <= b < a + align
    ensures a == b
  {
    var k, m := a / align, b / align;
    assert a == k * align && b == m * align;
    assert (m - k) * align == b - a;
    OnlySmallMultipleIsZero(m - k, align);
  }

  /** `std::align`: the first suitably aligned address, provided the object then still fits. */
  function Align(align: nat, size: nat, ptr: Addr, space: nat): Option<Addr>
    requires 0 < align
  {
    var a := AlignUp(ptr, align);
    if size + (a - ptr) <= space then Some(a) else None
  }

  /** `retrieve` for the in-place case: where `ty` lives in the buffer at `base`, if it fits there. */
  function InPlaceAddress(ty: BoxType, base: Addr, capacity: nat): Option<Addr> {
    Align(ty.align, ty.size, base, capacity)
  }

  ghost predicate Fits(ty: BoxType, base: Addr, capacity: nat, a: Addr) {
    base <= a && a % ty.align == 0 && a + ty.size <= base + capacity
  }

  /**
   The buffer is used exactly when it has room for an aligned object at all, and then the
   chosen address is the first such one.
   */
  lemma InPlaceExactlyWhenItFits(ty: BoxType, base: Addr, capacity: nat)
    ensures InPlaceAddress(ty, base, capacity).Some? <==> exists a :: Fits(ty, base, capacity, a)
    ensures InPlaceAddress(ty, base, capacity).Some? ==>
              var at := InPlaceAddress(ty, base, capacity).value;
              Fits(ty, base, capacity, at) && forall a :: Fits(ty, base, capacity, a) ==> at <= a
  {
    var up := AlignUp(base, ty.align);
    forall a | Fits(ty, base, capacity, a)
      ensures up <= a
    {
      if a < up {
        AlignedAddressesAreFarApart(a, up, ty.align);
      }
    }
    if InPlaceAddress(ty, base, capacity).Some? {
      assert Fits(ty, base, capacity, up);
    }
  }

  /** Alignment and size of `internal_capacity<Capacity>::type`, the storage that erasures embed. */
  function StorageAlign(c: Capacity): (r: nat)
    ensures 0 < r
  {
    if c.size < POINTER_SIZE || c.align < POINTER_SIZE then POINTER_SIZE else c.align
  }

  function StorageSize(c: Capacity): nat {
    if c.size < POINTER_SIZE then POINTER_SIZE else AlignUp(c.size, StorageAlign(c))
  }

  lemma DividesTransitively(a: nat, b: nat, n: nat)
    requires 0 < a && 0 < b && b % a == 0 && n % b == 0
    ensures n % a == 0
  {
    var k, m := b / a, n / b;
    assert b == k * a && n == m * b;
    assert n == m * k * a;
    MultipleIsAligned(m * k, a);
  }

  /**
   For every correctly aligned erasure, whatever its address: a box whose alignment divides
   that of the storage and whose size fits is kept in place, at the very start of the buffer.
   */
  lemma SuitableBoxesStayInPlace(c: Capacity, ty: BoxType, base: Addr)
    requires base % StorageAlign(c) == 0
    requires StorageAlign(c) % ty.align == 0
    ensures ty.size <= StorageSize(c) <==> InPlaceAddress(ty, base, StorageSize(c)).Some?
    ensures ty.size <= StorageSize(c) ==> InPlaceAddress(ty, base, StorageSize(c)) == Some(base)
  {
    DividesTransitively(ty.align, StorageAlign(c), base);
    AlignedAddressesAreFarApart(base, AlignUp(base, ty.align), ty.align);
  }

  /**
   `capacity_none` is documented to make the wrapper allocate for every object. The storage
   union still holds one pointer, so pointer-sized boxes are kept in place all the same.
   */
  lemma NoCapacityStillHoldsAPointer(c: Capacity, ty: BoxType, base: Addr)
    requires c.size == 0 && base % POINTER_SIZE == 0
    requires POINTER_SIZE % ty.align == 0
    ensures InPlaceAddress(ty, base, StorageSize(c)) == if ty.size <= POINTER_SIZE then Some(base) else None
  {
    SuitableBoxesStayInPlace(c, ty, base);
  }
}
