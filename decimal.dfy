/** Decimal text for unsigned counters: `std::to_string` on a `size_t` and the
    `FromString` helper of the training runner, which reads a `size_t` from an
    `std::istringstream` and then demands that the stream is at its end. */
module Decimal {
  import opened Common

  /** One more than the largest `size_t` (64-bit). */
  const SizeLimit: nat := 0x1_0000_0000_0000_0000

  predicate IsDigit(c: char) { '0' <= c <= '9' }

  /** The characters `isspace` accepts in the "C" locale; the stream skips
      them before a number. */
  predicate IsSpace(c: char) {
    c == ' ' || c == '\t' || c == '\n' || c == '\r' || c == '\U{000B}' || c == '\U{000C}'
  }

  function DigitChar(d: nat): (c: char)
    requires d < 10
    ensures IsDigit(c)
  {
    ['0', '1', '2', '3', '4', '5', '6', '7', '8', '9'][d]
  }

  function DigitValue(c: char): (d: nat)
    requires IsDigit(c)
    ensures d < 10
  {
    (c as int - '0' as int) as nat
  }

  lemma DigitRoundTrip(d: nat)
    requires d < 10
    ensures DigitValue(DigitChar(d)) == d
  {
  }

  predicate AllDigits(s: string) {
    forall i :: 0 <= i < |s| ==> IsDigit(s[i])
  }

  /** The value of a string of decimal digits, most significant first. */
  function DigitsValue(s: string): nat
    requires AllDigits(s)
  {
    if s == [] then 0 else DigitsValue(s[..|s| - 1]) * 10 + DigitValue(s[|s| - 1])
  }

  /** `std::to_string` of an unsigned value. */
  function ToDecimal(n: nat): (s: string)
    ensures s != [] && AllDigits(s)
    decreases n
  {
    if n < 10 then [DigitChar(n)] else ToDecimal(n / 10) + [DigitChar(n % 10)]
  }

  function SkipSpace(s: string): (r: string)
    ensures |r| <= |s| && r == s[|s| - |r|..]
    ensures r != [] ==> !IsSpace(r[0])
  {
    if s != [] && IsSpace(s[0]) then SkipSpace(s[1..]) else s
  }

  /** The longest run of digits at the start of `s`. */
  function LeadingDigits(s: string): (d: string)
    ensures AllDigits(d) && |d| <= |s| && d == s[..|d|]
    ensures |d| < |s| ==> !IsDigit(s[|d|])
  {
    if s != [] && IsDigit(s[0]) then [s[0]] + LeadingDigits(s[1..]) else []
  }

  /** What `FromString` leaves behind: the value stored into its target and
      whether it reported success. */
  datatype Read = Read(stored: nat, ok: bool)

  /** `FromString` into a `size_t` target holding `current`. The stream's
      sentry skips leading white space; when nothing else is left it fails
      before any conversion and the target keeps `current`. Otherwise `i >> t`
      reads an optional sign and the longest run of digits, converting as
      `strtoull` does: without digits it stores 0 and fails; a magnitude that
      does not fit stores the largest `size_t` and fails; a `-` sign stores
      the magnitude negated modulo 2^64, so "-1" gives the largest `size_t`.
      Success also needs `i.eof()`: nothing may follow the digits. */
  function FromString(s: string, current: nat): (r: Read)
    ensures SkipSpace(s) == [] ==> r == Read(current, false)
    ensures SkipSpace(s) != [] ==> r.stored < SizeLimit
  {
    var t := SkipSpace(s);
    if t == [] then Read(current, false)
    else
      var u := if t[0] == '+' || t[0] == '-' then t[1..] else t;
      var d := LeadingDigits(u);
      if d == [] then Read(0, false)
      else if DigitsValue(d) >= SizeLimit then Read(SizeLimit - 1, false)
      else if t[0] == '-' then Read((SizeLimit - DigitsValue(d)) % SizeLimit, |d| == |u|)
      else Read(DigitsValue(d), |d| == |u|)
  }

  lemma {:induction false} ToDecimalValue(n: nat)
    ensures DigitsValue(ToDecimal(n)) == n
    decreases n
  {
    var s := ToDecimal(n);
    if n < 10 {
      DigitRoundTrip(n);
      assert s[..|s| - 1] == [];
    } else {
      ToDecimalValue(n / 10);
      assert s[..|s| - 1] == ToDecimal(n / 10);
      DigitRoundTrip(n % 10);
    }
  }

  lemma {:induction false} LeadingDigitsOfDigits(s: string, rest: string)
    requires AllDigits(s)
    requires rest == [] || !IsDigit(rest[0])
    ensures LeadingDigits(s + rest) == s
  {
    if s != [] {
      assert (s + rest)[1..] == s[1..] + rest;
      LeadingDigitsOfDigits(s[1..], rest);
    } else {
      assert s + rest == rest;
    }
  }

  /** The text `to_string` writes starts with no white space, is one run
      of digits, and those digits give the value back. */
  lemma DecimalDigitsRead(n: nat)
    ensures SkipSpace(ToDecimal(n)) == ToDecimal(n)
    ensures LeadingDigits(ToDecimal(n)) == ToDecimal(n)
    ensures DigitsValue(ToDecimal(n)) == n
  {
    var s := ToDecimal(n);
    assert IsDigit(s[0]);
    LeadingDigitsOfDigits(s, []);
    assert s + [] == s;
    ToDecimalValue(n);
  }

  /** The text `to_string` writes is read back by `FromString`, which then
      succeeds, whenever the value fits in a `size_t`. */
  lemma DecimalRoundTrip(n: nat)
    requires n < SizeLimit
    ensures forall current: nat :: FromString(ToDecimal(n), current) == Read(n, true)
  {
    var s := ToDecimal(n);
    DecimalDigitsRead(n);
    assert IsDigit(s[0]);
  }

  /** Anything but a digit after the digits, even white space, makes the
      call fail, because the stream is then not at its end; the value read
      has nevertheless been stored. */
  lemma TrailingTextRejected(n: nat, rest: string, current: nat)
    requires n < SizeLimit
    requires rest != [] && !IsDigit(rest[0])
    ensures FromString(ToDecimal(n) + rest, current) == Read(n, false)
  {
    var s := ToDecimal(n) + rest;
    assert !IsSpace(s[0]) && s[0] != '+' && s[0] != '-';
    assert SkipSpace(s) == s;
    LeadingDigitsOfDigits(ToDecimal(n), rest);
    ToDecimalValue(n);
  }

  /** An empty or blank text fails and leaves the target as it was. */
  lemma BlankKeepsTarget(s: string, current: nat)
    requires forall i :: 0 <= i < |s| ==> IsSpace(s[i])
    ensures FromString(s, current) == Read(current, false)
  {
  }

  /** A text with something besides white space but without any digit
      stores 0 and fails. */
  lemma NoDigitsStoresZero(s: string, current: nat)
    requires exists i :: 0 <= i < |s| && !IsSpace(s[i])
    requires forall i :: 0 <= i < |s| ==> !IsDigit(s[i])
    ensures FromString(s, current) == Read(0, false)
  {
    var t := SkipSpace(s);
    var j :| 0 <= j < |s| && !IsSpace(s[j]);
    SkipSpaceKeepsNonSpace(s, j);
    var u := if t[0] == '+' || t[0] == '-' then t[1..] else t;
    assert u == s[|s| - |u|..];
    assert LeadingDigits(u) == [] by {
      if u != [] {
        assert u[0] == s[|s| - |u|];
      }
    }
  }

  /** White-space skipping stops at or before the first other character. */
  lemma {:induction false} SkipSpaceKeepsNonSpace(s: string, j: nat)
    requires j < |s| && !IsSpace(s[j])
    ensures SkipSpace(s) != []
    decreases |s|
  {
    if IsSpace(s[0]) {
      SkipSpaceKeepsNonSpace(s[1..], j - 1);
    }
  }

  /** A negative number wraps around as `strtoull` makes it: minus `n`
      reads as 2^64 - `n`, and the call succeeds. */
  lemma NegativeWraps(n: nat, current: nat)
    requires 0 < n < SizeLimit
    ensures FromString("-" + ToDecimal(n), current) == Read(SizeLimit - n, true)
  {
    var s := "-" + ToDecimal(n);
    assert s[0] == '-' && !IsSpace(s[0]);
    assert SkipSpace(s) == s;
    assert s[1..] == ToDecimal(n);
    DecimalDigitsRead(n);
    var d := LeadingDigits(s[1..]);
    assert d == ToDecimal(n) && DigitsValue(d) == n;
    assert (SizeLimit - n) % SizeLimit == SizeLimit - n;
  }

  /** "-1" stores the largest `size_t`. */
  lemma MinusOneIsLargest(current: nat)
    ensures FromString("-1", current) == Read(SizeLimit - 1, true)
  {
    assert ToDecimal(1) == "1";
    NegativeWraps(1, current);
    assert "-" + "1" == "-1";
  }
}
