/** The enrollment progress string `f"{random.randint(0, 100)}%"`: a decimal
    rendering of a non-negative int followed by a percent sign, and the parser
    that reads it back. */
module Progress {
  import opened Entities

  function DigitChar(d: nat): (c: char)
    requires d < 10
    ensures '0' <= c <= '9'
  {
    (48 + d) as char
  }

  function DigitValue(c: char): (r: Option<nat>)
    ensures r.Some? <==> '0' <= c <= '9'
    ensures r.Some? ==> r.value < 10 && DigitChar(r.value) == c
  {
    if '0' <= c <= '9' then Some(c as int - 48) else None
  }

  /** Python's `str(n)` for a non-negative int: most significant digit first, no leading zero. */
  function Decimal(n: nat): (s: string)
    ensures |s| >= 1
    ensures forall i :: 0 <= i < |s| ==> '0' <= s[i] <= '9'
    ensures |s| > 1 ==> s[0] != '0'
    decreases n
  {
    if n < 10 then [DigitChar(n)] else Decimal(n / 10) + [DigitChar(n % 10)]
  }

  /** Reads a non-empty string of decimal digits; anything else is rejected. */
  function ParseDecimal(s: string): Option<nat>
    decreases |s|
  {
    if |s| == 0 then None
    else match DigitValue(s[|s| - 1])
      case None => None
      case Some(d) =>
        if |s| == 1 then Some(d)
        else match ParseDecimal(s[..|s| - 1])
          case None => None
          case Some(v) => Some(10 * v + d)
  }

  lemma {:induction false} DecimalRoundTrip(n: nat)
    ensures ParseDecimal(Decimal(n)) == Some(n)
    decreases n
  {
    var s := Decimal(n);
    if n >= 10 {
      DecimalRoundTrip(n / 10);
      assert s[..|s| - 1] == Decimal(n / 10);
      assert DigitValue(s[|s| - 1]) == Some(n % 10);
    } else {
      assert DigitValue(s[0]) == Some(n);
    }
  }

  /** The progress string written for the draw `p`. */
  function Percent(p: nat): string {
    Decimal(p) + "%"
  }

  /** Reads a progress string back into its percentage, if it has the `"<digits>%"` shape. */
  function ParsePercent(s: string): (r: Option<nat>)
    ensures r.Some? ==> |s| >= 2 && s[|s| - 1] == '%'
  {
    if |s| >= 2 && s[|s| - 1] == '%' then ParseDecimal(s[..|s| - 1]) else None
  }

  /** Every progress string the generator writes parses back to the drawn percentage. */
  lemma PercentRoundTrip(p: nat)
    ensures ParsePercent(Percent(p)) == Some(p)
  {
    var s := Percent(p);
    assert s[..|s| - 1] == Decimal(p);
    DecimalRoundTrip(p);
  }
}
