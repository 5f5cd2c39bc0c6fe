/** The range of 64-bit integers, and conversion between signed and unsigned ones. */
module MachineInts {
  const TWO63 := 0x8000_0000_0000_0000
  const TWO64 := 0x1_0000_0000_0000_0000

  predicate IsInt64(x: int) {
    -TWO63 <= x < TWO63
  }

  function AsUnsigned(x: int): nat {
    x % TWO64
  }

  function AsSigned(x: nat): int {
    if x % TWO64 < TWO63 then x % TWO64 else x % TWO64 - TWO64
  }

  lemma SignedComesBack(x: int)
    requires IsInt64(x)
    ensures AsSigned(AsUnsigned(x)) == x
  {
  }

  lemma UnsignedComesBack(x: nat)
    requires x < TWO64
    ensures IsInt64(AsSigned(x)) && AsUnsigned(AsSigned(x)) == x
  {
  }

  /** The numbers written out. */
  lemma Widths(x: int)
    ensures IsInt64(x) <==> -9_223_372_036_854_775_808 <= x <= 9_223_372_036_854_775_807
    ensures 0 <= x <= 18_446_744_073_709_551_615 ==> AsUnsigned(x) == x
    ensures -9_223_372_036_854_775_808 <= x < 0 ==> AsUnsigned(x) == x + 18_446_744_073_709_551_616
    ensures x >= 0 ==> (x < TWO64 <==> x <= 18_446_744_073_709_551_615)
  {
  }
}
