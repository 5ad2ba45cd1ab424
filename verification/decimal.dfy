/** Decimal numbers as Go prints and parses them, and the resume position read from `Last-Event-ID`. */
module Decimal {
  import opened ExecTypes

  const TWO_TO_64: nat := 0x1_0000_0000_0000_0000

  function Digit(d: nat): char
    requires d < 10
  {
    '0' + d as char
  }

  predicate IsDigit(c: char) {
    '0' <= c <= '9'
  }

  /** `%d` of a non-negative integer. */
  function Unsigned(n: nat): string {
    if n < 10 then [Digit(n)] else Unsigned(n / 10) + [Digit(n % 10)]
  }

  function Signed(n: int): string {
    if n < 0 then "-" + Unsigned(-n) else Unsigned(n)
  }

  predicate AllDigits(s: string) {
    forall i :: 0 <= i < |s| ==> IsDigit(s[i])
  }

  function Value(s: string): nat
    requires AllDigits(s)
  {
    if s == [] then 0 else 10 * Value(s[..|s| - 1]) + (s[|s| - 1] - '0') as nat
  }

  /** `strconv.ParseUint(s, 10, 64)`: digits only, and the value must fit 64 bits. */
  function ParseUint(s: string): Option<nat> {
    if s != "" && AllDigits(s) && Value(s) < TWO_TO_64 then Some(Value(s)) else None
  }

  function ParseSigned(s: string): Option<int>
  {
    if s != "" && s[0] == '-' then
      (if s[1..] != "" && AllDigits(s[1..]) then Some(-(Value(s[1..]) as int)) else None)
    else if s != "" && AllDigits(s) then Some(Value(s) as int)
    else None
  }

  lemma {:induction false} UnsignedDigits(n: nat)
    ensures Unsigned(n) != "" && AllDigits(Unsigned(n)) && Value(Unsigned(n)) == n
  {
    if n >= 10 {
      UnsignedDigits(n / 10);
      assert Unsigned(n)[..|Unsigned(n)| - 1] == Unsigned(n / 10);
    } else {
      assert Unsigned(n)[..0] == "";
    }
  }

  /** Printing then parsing an unsigned number gives it back exactly when it fits 64 bits. */
  lemma {:induction false} UnsignedRoundTrip(n: nat)
    ensures ParseUint(Unsigned(n)) == if n < TWO_TO_64 then Some(n) else None
  {
    UnsignedDigits(n);
  }

  lemma {:induction false} SignedRoundTrip(n: int)
    ensures ParseSigned(Signed(n)) == Some(n)
  {
    UnsignedDigits(if n < 0 then -n else n);
    if n < 0 {
      assert Signed(n)[1..] == Unsigned(-n);
    }
  }

  /** Where a stream resumes: one past the last id, in 64-bit arithmetic; 0 without a usable header. */
  function ResumeFrom(lastEventID: string): nat {
    match ParseUint(lastEventID)
    case Some(n) => (n + 1) % TWO_TO_64
    case None => 0
  }

  /** Feeding an issued id back resumes right after it, except for the largest 64-bit number, which wraps to 0. */
  lemma {:induction false} ResumeAfter(n: nat)
    requires n < TWO_TO_64
    ensures ResumeFrom(Unsigned(n)) == n + 1 <==> n != TWO_TO_64 - 1
    ensures n == TWO_TO_64 - 1 ==> ResumeFrom(Unsigned(n)) == 0
  {
    UnsignedRoundTrip(n);
  }

  /** Every header: a decimal number below 2^64 resumes after it, whatever its leading zeros; all else means 0. */
  lemma {:induction false} ResumeFromAny(header: string)
    ensures header != "" && AllDigits(header) && Value(header) < 0xFFFF_FFFF_FFFF_FFFF ==>
              ResumeFrom(header) == Value(header) + 1 && ResumeFrom("0" + header) == ResumeFrom(header)
    ensures header == "" || !AllDigits(header) || Value(header) >= 0xFFFF_FFFF_FFFF_FFFF ==> ResumeFrom(header) == 0
  {
    if header != "" && AllDigits(header) {
      LeadingZero(header);
    }
  }

  lemma {:induction false} LeadingZero(digits: string)
    requires AllDigits(digits)
    ensures AllDigits("0" + digits) && Value("0" + digits) == Value(digits)
    decreases |digits|
  {
    if digits != "" {
      var s, front := "0" + digits, digits[..|digits| - 1];
      assert s[..|s| - 1] == "0" + front;
      LeadingZero(front);
    } else {
      assert "0" + digits == "0";
      assert "0"[..0] == "";
    }
  }
}
