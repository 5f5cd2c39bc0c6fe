/** `TimerFd`'s conversions between nanosecond counts and the kernel's time structures. */
module Timer {
  import opened Prelude
  import opened MachineInts

  const NANO := 1_000_000_000

  /** Signed arithmetic that leaves the 64-bit range has no defined result. */
  function Defined(x: int): Option<int> {
    if IsInt64(x) then Some(x) else None
  }

  /** C++ division and remainder, which truncate toward zero. */
  function TruncatedQuotient(a: int, b: int): int
    requires b > 0
  {
    if a >= 0 then a / b else -((-a) / b)
  }

  function TruncatedRemainder(a: int, b: int): int
    requires b > 0
  {
    if a >= 0 then a % b else -((-a) % b)
  }

  datatype TimeSpec = TimeSpec(sec: int, nsec: int)
  datatype ITimerSpec = ITimerSpec(interval: TimeSpec, value: TimeSpec)
  datatype TimerSpec = TimerSpec(firstExpiration: int, interval: int)

  function ToTimeSpec(d: int): TimeSpec {
    TimeSpec(TruncatedQuotient(d, NANO), TruncatedRemainder(d, NANO))
  }

  /** The product is formed first, and each of the two operations may overflow. */
  function FromTimeSpec(t: TimeSpec): Option<int> {
    match Defined(t.sec * NANO)
    case None => None
    case Some(product) => Defined(t.nsec + product)
  }

  function FromITimerSpec(s: ITimerSpec): Option<TimerSpec> {
    match (FromTimeSpec(s.value), FromTimeSpec(s.interval))
    case (Some(first), Some(interval)) => Some(TimerSpec(first, interval))
    case _ => None
  }

  function ToITimerSpec(s: TimerSpec): ITimerSpec {
    ITimerSpec(ToTimeSpec(s.interval), ToTimeSpec(s.firstExpiration))
  }

  /** The time that is meant, with no bounds. */
  function Nanoseconds(t: TimeSpec): int {
    t.sec * 1_000_000_000 + t.nsec
  }

  predicate Representable(t: TimeSpec) {
    IsInt64(t.sec) && IsInt64(t.nsec)
  }

  /** Less than a second beside the seconds, and on the same side of zero. */
  predicate Normal(t: TimeSpec) {
    -1_000_000_000 < t.nsec < 1_000_000_000 && (t.sec > 0 ==> t.nsec >= 0) && (t.sec < 0 ==> t.nsec <= 0)
  }

  lemma SplitIsNormal(d: int)
    ensures Normal(ToTimeSpec(d)) && Nanoseconds(ToTimeSpec(d)) == d
    ensures IsInt64(d) ==> Representable(ToTimeSpec(d))
  {
    if d < 0 {
      assert -d == (-d) / NANO * NANO + (-d) % NANO;
    }
  }

  lemma NormalIsUnique(t: TimeSpec, u: TimeSpec)
    requires Normal(t) && Normal(u) && Nanoseconds(t) == Nanoseconds(u)
    ensures t == u
  {
    assert (t.sec - u.sec) * NANO == u.nsec - t.nsec;
  }

  /** Every 64-bit count comes back, and nothing overflows on the way. */
  lemma DurationSurvives(d: int)
    requires -9_223_372_036_854_775_808 <= d <= 9_223_372_036_854_775_807
    ensures Representable(ToTimeSpec(d))
    ensures FromTimeSpec(ToTimeSpec(d)) == Some(d)
  {
    SplitIsNormal(d);
  }

  /** Exactly the normal times within range come back. */
  lemma TimeSpecSurvivesExactlyWhenNormal(t: TimeSpec)
    ensures (FromTimeSpec(t).Some? && ToTimeSpec(FromTimeSpec(t).value) == t) <==> (Normal(t) && IsInt64(Nanoseconds(t)))
  {
    if FromTimeSpec(t).Some? {
      SplitIsNormal(FromTimeSpec(t).value);
    }
    if Normal(t) && IsInt64(Nanoseconds(t)) {
      assert FromTimeSpec(t) == Some(Nanoseconds(t));
      SplitIsNormal(Nanoseconds(t));
      NormalIsUnique(t, ToTimeSpec(Nanoseconds(t)));
    }
  }

  /** What the kernel reports is normal and not negative. */
  lemma KernelTimesSurvive(t: TimeSpec)
    requires 0 <= t.sec && 0 <= t.nsec < 1_000_000_000 && Nanoseconds(t) <= 9_223_372_036_854_775_807
    ensures FromTimeSpec(t) == Some(Nanoseconds(t)) && ToTimeSpec(Nanoseconds(t)) == t
  {
    TimeSpecSurvivesExactlyWhenNormal(t);
  }

  /** Later stays later. */
  lemma OrderIsKept(d: int, e: int)
    ensures var t, u := ToTimeSpec(d), ToTimeSpec(e);
      d < e <==> t.sec < u.sec || (t.sec == u.sec && t.nsec < u.nsec)
  {
    SplitIsNormal(d);
    SplitIsNormal(e);
    var t, u := ToTimeSpec(d), ToTimeSpec(e);
    assert (u.sec - t.sec) * NANO + u.nsec - t.nsec == e - d;
  }

  /** A timer setting comes back, and its first expiration is what the kernel takes as the value. */
  lemma TimerSpecSurvives(s: TimerSpec)
    requires IsInt64(s.firstExpiration) && IsInt64(s.interval)
    ensures FromITimerSpec(ToITimerSpec(s)) == Some(s)
    ensures Nanoseconds(ToITimerSpec(s).value) == s.firstExpiration
    ensures Nanoseconds(ToITimerSpec(s).interval) == s.interval
  {
    DurationSurvives(s.firstExpiration);
    DurationSurvives(s.interval);
    SplitIsNormal(s.firstExpiration);
    SplitIsNormal(s.interval);
  }

  /** A setting reported by the kernel is read without being altered, or the sides swapped. */
  lemma KernelSettingSurvives(s: ITimerSpec)
    ensures (FromITimerSpec(s).Some? && ToITimerSpec(FromITimerSpec(s).value) == s) <==>
              && Normal(s.value) && IsInt64(Nanoseconds(s.value))
              && Normal(s.interval) && IsInt64(Nanoseconds(s.interval))
    ensures FromITimerSpec(s).Some? ==>
              FromITimerSpec(s).value == TimerSpec(Nanoseconds(s.value), Nanoseconds(s.interval))
  {
    TimeSpecSurvivesExactlyWhenNormal(s.value);
    TimeSpecSurvivesExactlyWhenNormal(s.interval);
  }
}
