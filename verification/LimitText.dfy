/** Limits as text: how they are written, and how the value of a flat-keyed entry is read. */
module LimitText {
  import opened MachineInts

  /** `CgroupController::Builder::NoLimit` */
  const NO_LIMIT := 0xffff_ffff_ffff_ffff

  /** What `std::stoull` throws. */
  datatype Error = InvalidArgument | OutOfRange

  datatype Result<+T> = Ok(value: T) | Err(error: Error)

  predicate IsDigit(c: char) {
    '0' <= c <= '9'
  }

  function DigitOf(d: nat): (c: char)
    requires d < 10
    ensures IsDigit(c)
  {
    '0' + d as char
  }

  function ValueOf(c: char): nat
    requires IsDigit(c)
  {
    (c - '0') as nat
  }

  predicate AllDigits(s: string) {
    forall i :: 0 <= i < |s| ==> IsDigit(s[i])
  }

  /** `out << n` */
  function Decimal(n: nat): (s: string)
    ensures s != "" && AllDigits(s)
  {
    if n < 10 then [DigitOf(n)] else Decimal(n / 10) + [DigitOf(n % 10)]
  }

  function Number(s: string): nat
    requires AllDigits(s)
  {
    if s == "" then 0 else 10 * Number(s[..|s| - 1]) + ValueOf(s[|s| - 1])
  }

  function DigitsAtStart(s: string): (n: nat)
    ensures n <= |s| && AllDigits(s[..n])
    ensures n < |s| ==> !IsDigit(s[n])
  {
    if s == "" || !IsDigit(s[0]) then 0
    else
      var n := DigitsAtStart(s[1..]);
      assert forall i :: 0 < i <= n ==> s[i] == s[1..][..n][i - 1];
      1 + n
  }

  /**
   `std::stoull` of a word: an optional sign, then as many digits as there are; what follows is
   ignored, and a minus sign negates modulo 2^64.
   */
  function Stoull(s: string): Result<nat> {
    var signed := s != "" && s[0] in {'+', '-'};
    var body := if signed then s[1..] else s;
    var digits := body[..DigitsAtStart(body)];
    if digits == "" then Err(InvalidArgument)
    else if Number(digits) >= TWO64 then Err(OutOfRange)
    else if signed && s[0] == '-' then Ok((TWO64 - Number(digits)) % TWO64)
    else Ok(Number(digits))
  }

  /** The value of an entry. */
  function DecodeValue(s: string): Result<nat> {
    if s == "max" then Ok(NO_LIMIT) else Stoull(s)
  }

  /** What a setter writes. */
  function PrintLimit(v: nat): string {
    if v == NO_LIMIT then "max" else Decimal(v)
  }

  lemma {:induction false} NumberOfDecimal(n: nat)
    ensures Number(Decimal(n)) == n
  {
    if n >= 10 {
      NumberOfDecimal(n / 10);
      assert Decimal(n)[..|Decimal(n)| - 1] == Decimal(n / 10);
    } else {
      assert Decimal(n)[..0] == "";
    }
  }

  lemma DigitsAllTheWay(s: string)
    requires AllDigits(s)
    ensures DigitsAtStart(s) == |s|
  {
  }

  lemma DecodesDigits(s: string)
    requires AllDigits(s) && s != ""
    ensures Stoull(s) == if Number(s) < TWO64 then Ok(Number(s)) else Err(OutOfRange)
    ensures DecodeValue(s) == Stoull(s)
  {
    DigitsAllTheWay(s);
    assert s[..|s|] == s;
  }

  /** Every limit comes back as it was set; the largest number, for no limit, is written as "max". */
  lemma LimitSurvives(v: nat)
    requires v <= 18_446_744_073_709_551_615
    ensures DecodeValue(PrintLimit(v)) == Ok(v)
    ensures PrintLimit(v) == "max" <==> v == 18_446_744_073_709_551_615
    ensures PrintLimit(v) != "max" ==> Canonical(PrintLimit(v)) && Number(PrintLimit(v)) == v
  {
    DecimalIsCanonical(v);
    NumberOfDecimal(v);
    if v != NO_LIMIT {
      DecodesDigits(Decimal(v));
      NumberOfDecimal(v);
    }
  }

  // The other way round

  /** Decimal notation with no needless zero in front. */
  predicate Canonical(s: string) {
    s != "" && AllDigits(s) && (s[0] == '0' ==> s == "0")
  }

  lemma {:induction false} DecimalOfNumber(s: string)
    requires Canonical(s)
    ensures Decimal(Number(s)) == s
  {
    var front, last := s[..|s| - 1], s[|s| - 1];
    if front == "" {
      assert Number(front) == 0;
      assert s == [DigitOf(ValueOf(last))];
    } else {
      DecimalOfNumber(front);
      NumberPositive(front);
      assert Number(s) / 10 == Number(front) && Number(s) % 10 == ValueOf(last);
      assert s == front + [DigitOf(ValueOf(last))];
    }
  }

  lemma {:induction false} NumberPositive(s: string)
    requires s != "" && AllDigits(s) && s[0] != '0'
    ensures Number(s) > 0
  {
    if |s| > 1 {
      NumberPositive(s[..|s| - 1]);
    }
  }

  lemma {:induction false} DecimalIsCanonical(n: nat)
    ensures Canonical(Decimal(n))
    ensures n > 0 ==> Decimal(n)[0] != '0'
  {
    if n >= 10 {
      DecimalIsCanonical(n / 10);
    }
  }

  /** Exactly the canonical texts are written again as they were read. */
  lemma TextSurvivesExactlyWhenCanonical(s: string)
    ensures (DecodeValue(s).Ok? && PrintLimit(DecodeValue(s).value) == s) <==>
              s == "max" || (Canonical(s) && Number(s) < NO_LIMIT)
  {
    if Canonical(s) && Number(s) < NO_LIMIT {
      DecodesDigits(s);
      DecimalOfNumber(s);
    }
    if DecodeValue(s).Ok? && PrintLimit(DecodeValue(s).value) == s && s != "max" {
      var v := DecodeValue(s).value;
      DecimalIsCanonical(v);
      DecodesDigits(s);
    }
  }

  // What is read in general

  predicate IsSign(s: string) {
    s == "" || s == "+" || s == "-"
  }

  lemma {:induction false} DigitsThen(digits: string, rest: string)
    requires AllDigits(digits) && (rest == "" || !IsDigit(rest[0]))
    ensures DigitsAtStart(digits + rest) == |digits|
  {
    if digits == "" {
      assert digits + rest == rest;
    } else {
      assert (digits + rest)[1..] == digits[1..] + rest;
      DigitsThen(digits[1..], rest);
    }
  }

  /** The sign that a text begins with. */
  function SignOf(s: string): string {
    if s != "" && (s[0] == '+' || s[0] == '-') then s[..1] else ""
  }

  lemma SignComesOff(sign: string, digits: string, rest: string)
    requires IsSign(sign) && AllDigits(digits)
    requires digits == "" && sign == "" ==> SignOf(rest) == ""
    ensures var s := sign + digits + rest;
      SignOf(s) == sign && s[|sign|..] == digits + rest
  {
    var s := sign + digits + rest;
    assert s == sign + (digits + rest);
    if sign == "" && digits != "" {
      assert s[0] == digits[0] && IsDigit(digits[0]);
    }
    if sign == "" && digits == "" {
      assert s == rest;
    }
  }

  lemma StoullBySign(s: string)
    ensures var sign := SignOf(s);
      var body := s[|sign|..];
      var digits := body[..DigitsAtStart(body)];
      Stoull(s) ==
        if digits == "" then Err(InvalidArgument)
        else if Number(digits) >= TWO64 then Err(OutOfRange)
        else if sign == "-" then Ok((TWO64 - Number(digits)) % TWO64)
        else Ok(Number(digits))
  {
    assert SignOf(s) == "" ==> s[0..] == s;
    assert s != "" && s[0] == '-' ==> s[..1] == "-";
    assert s != "" && s[0] == '+' ==> s[..1] == "+";
    hide Number, DigitsAtStart;
  }

  /**
   An optional sign, digits, and whatever follows: a minus sign negates modulo 2^64, what follows
   is ignored, and it takes at least one digit. Every text can be read as such parts.
   */
  lemma StoullOfDigits(sign: string, digits: string, rest: string)
    requires IsSign(sign) && AllDigits(digits) && (rest == "" || !IsDigit(rest[0]))
    requires digits == "" && sign == "" ==> SignOf(rest) == ""
    ensures Stoull(sign + digits + rest) ==
              if digits == "" then Err(InvalidArgument)
              else if Number(digits) > 18_446_744_073_709_551_615 then Err(OutOfRange)
              else if sign == "-" && Number(digits) > 0 then Ok(18_446_744_073_709_551_616 - Number(digits))
              else Ok(Number(digits))
  {
    hide Stoull, DigitsAtStart, Number, SignOf;
    var s := sign + digits + rest;
    SignComesOff(sign, digits, rest);
    DigitsThen(digits, rest);
    assert (digits + rest)[..|digits|] == digits;
    StoullOfParts(s, sign, digits + rest, digits);
  }

  lemma StoullOfParts(s: string, sign: string, body: string, digits: string)
    requires IsSign(sign) && SignOf(s) == sign && s[|sign|..] == body && body[..DigitsAtStart(body)] == digits
    ensures Stoull(s) ==
              if digits == "" then Err(InvalidArgument)
              else if Number(digits) > 18_446_744_073_709_551_615 then Err(OutOfRange)
              else if sign == "-" && Number(digits) > 0 then Ok(18_446_744_073_709_551_616 - Number(digits))
              else Ok(Number(digits))
  {
    hide Stoull, DigitsAtStart, Number, SignOf;
    StoullBySign(s);
  }

  lemma EveryTextHasSuchParts(s: string)
    ensures exists sign, digits, rest :: PartsOf(s, sign, digits, rest)
  {
    var sign := SignOf(s);
    var body := s[|sign|..];
    var n := DigitsAtStart(body);
    assert s == sign + body[..n] + body[n..];
    assert n < |body| ==> body[n..][0] == body[n];
    assert PartsOf(s, sign, body[..n], body[n..]);
  }

  predicate PartsOf(s: string, sign: string, digits: string, rest: string) {
    && s == sign + digits + rest
    && IsSign(sign) && AllDigits(digits) && (rest == "" || !IsDigit(rest[0]))
    && (digits == "" && sign == "" ==> SignOf(rest) == "")
  }
}
