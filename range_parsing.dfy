/** Parsing of range descriptors such as "3m", "ytd" or "max" into a unit and
    a magnitude, and the unit table that turns them into a day count. */
module RangeParsing {
  import opened Seqs
  import opened Chars
  import opened Wrappers

  const MinInt: int := -0x8000_0000
  const MaxInt: int := 0x7fff_ffff

  /** A Java `int`. */
  type Int32 = x: int | MinInt <= x <= MaxInt

  /** Two's-complement wrap-around of a Java `int` expression. */
  function Wrap(x: int): (r: Int32)
    ensures MinInt <= x <= MaxInt ==> r == x
    ensures (r - x) % 0x1_0000_0000 == 0
  {
    (x - MinInt) % 0x1_0000_0000 + MinInt
  }

  // ---------------------------------------------------------------------------
  // getAlphabeticChars

  /** The letters of `s`, in order; every other character is dropped. */
  function AlphabeticChars(s: string): string {
    Filter(s, IsLetter)
  }

  /** The scanning loop of getAlphabeticChars. */
  method GetAlphabeticChars(s: string) returns (alphaChars: string)
    ensures alphaChars == AlphabeticChars(s)
  {
    var sb := [];
    for i := 0 to |s|
      invariant sb == AlphabeticChars(s[..i])
    {
      assert s[..i + 1][..i] == s[..i];
      if IsLetter(s[i]) {
        sb := sb + [s[i]];
      }
    }
    assert s[..|s|] == s;
    alphaChars := sb;
  }

  /** Exactly the letters of the input survive, so the unit is never longer
      than the descriptor. */
  lemma AlphabeticCharsAreTheLetters(s: string)
    ensures |AlphabeticChars(s)| <= |s|
    ensures forall c :: c in AlphabeticChars(s) <==> c in s && IsLetter(c)
    ensures forall t :: AlphabeticChars(s + t) == AlphabeticChars(s) + AlphabeticChars(t)
  {
    FilterMembers(s, IsLetter);
    forall t ensures AlphabeticChars(s + t) == AlphabeticChars(s) + AlphabeticChars(t) {
      FilterAppend(s, t, IsLetter);
    }
  }

  // ---------------------------------------------------------------------------
  // getIntFromString

  /** The digits of `s`, in order. */
  function Digits(s: string): (ds: string)
    ensures forall i :: 0 <= i < |ds| ==> IsDigit(ds[i])
  {
    FilterMembers(s, IsDigit);
    Filter(s, IsDigit)
  }

  /** The value of a decimal numeral, most significant digit first; leading
      zeros add nothing. */
  function DecimalValue(ds: string): (v: nat)
    requires forall i :: 0 <= i < |ds| ==> IsDigit(ds[i])
  {
    if ds == [] then 0
    else DecimalValue(ds[..|ds| - 1]) * 10 + DigitValue(ds[|ds| - 1])
  }

  /** Integer.parseInt on a non-empty run of decimal digits: the value, or a
      NumberFormatException when it exceeds the largest `int`. */
  function ParseInt(ds: string): (r: Result<Int32>)
    requires ds != [] && forall i :: 0 <= i < |ds| ==> IsDigit(ds[i])
    ensures r.Ok? <==> DecimalValue(ds) <= MaxInt
    ensures r.Ok? ==> r.value == DecimalValue(ds)
  {
    var v := DecimalValue(ds);
    if v <= MaxInt then Ok(v) else Err(NumberFormatException)
  }

  /** getIntFromString: 0 when `s` has no digit, otherwise the value of all
      its digits read as one numeral. */
  function IntFromString(s: string): (r: Result<Int32>)
    ensures r.Ok? ==> r.value >= 0
    ensures Digits(s) == [] ==> r == Ok(0)
    ensures Digits(s) != [] ==> (r.Ok? <==> DecimalValue(Digits(s)) <= MaxInt)
    ensures Digits(s) != [] && r.Ok? ==> r.value == DecimalValue(Digits(s))
  {
    var ds := Digits(s);
    if ds == [] then Ok(0) else ParseInt(ds)
  }

  /** The scanning loop of getIntFromString. */
  method GetIntFromString(s: string) returns (num: Result<Int32>)
    ensures num == IntFromString(s)
  {
    var sb := [];
    var hasNum := false;
    for i := 0 to |s|
      invariant sb == Digits(s[..i])
      invariant hasNum <==> sb != []
    {
      assert s[..i + 1][..i] == s[..i];
      if IsDigit(s[i]) {
        sb := sb + [s[i]];
        hasNum := true;
      }
    }
    assert s[..|s|] == s;
    num := Ok(0);
    if hasNum {
      num := ParseInt(sb);
    }
  }

  /** The decimal numeral of `n`, without leading zeros. */
  function DecimalString(n: nat): (s: string)
    ensures s != [] && forall i :: 0 <= i < |s| ==> IsDigit(s[i])
  {
    if n < 10 then [DigitChar(n)] else DecimalString(n / 10) + [DigitChar(n % 10)]
  }

  lemma {:induction false} DecimalRoundTrip(n: nat)
    ensures DecimalValue(DecimalString(n)) == n
    decreases n
  {
    if n >= 10 {
      var s := DecimalString(n);
      assert s[..|s| - 1] == DecimalString(n / 10);
      DecimalRoundTrip(n / 10);
    }
  }

  /** A descriptor written as a numeral followed by a unit parses back into
      that magnitude and that unit. */
  lemma RangeDescriptorRoundTrip(n: nat, unit: string)
    requires n <= MaxInt
    requires forall i :: 0 <= i < |unit| ==> IsLetter(unit[i])
    ensures IntFromString(DecimalString(n) + unit) == Ok(n)
    ensures AlphabeticChars(DecimalString(n) + unit) == unit
  {
    var num := DecimalString(n);
    assert Digits(num + unit) == num by {
      FilterAppend(num, unit, IsDigit);
      FilterAllKept(num, IsDigit);
      FilterNoneKept(unit, IsDigit);
    }
    DecimalRoundTrip(n);
    assert AlphabeticChars(num + unit) == unit by {
      FilterAppend(num, unit, IsLetter);
      FilterNoneKept(num, IsLetter);
      FilterAllKept(unit, IsLetter);
    }
  }

  /** A descriptor made of letters only ("max", "ytd", "date") has magnitude 0. */
  lemma UnitOnlyDescriptor(unit: string)
    requires forall i :: 0 <= i < |unit| ==> IsLetter(unit[i])
    ensures IntFromString(unit) == Ok(0)
    ensures AlphabeticChars(unit) == unit
  {
    FilterNoneKept(unit, IsDigit);
    FilterAllKept(unit, IsLetter);
  }

  /** A digit run whose value exceeds the largest `int` raises. */
  lemma MagnitudeOverflow(s: string)
    requires Digits(s) != [] && DecimalValue(Digits(s)) > MaxInt
    ensures IntFromString(s) == Err(NumberFormatException)
  {
  }

  // ---------------------------------------------------------------------------
  // getTotalNumberOfDays

  /** The number of days a range covers, with `int` arithmetic. `0` asks for a
      full refetch ("max", and every unit not in the table) and `-1` for a
      single date ("date"). */
  function TotalNumberOfDays(rangeType: string, rangeLength: Int32, dayOfYear: int): (amtDays: Int32)
    requires 1 <= dayOfYear <= 366
    ensures rangeType == "ytd" ==> 1 <= amtDays <= 366
    ensures amtDays < 0 ==> rangeType in ["d", "w", "m", "y", "date"]
    ensures rangeType == "max" || !KnownUnit(rangeType) ==> amtDays == 0
  {
    if rangeType == "d" then rangeLength
    else if rangeType == "w" then Wrap(rangeLength * 7)
    else if rangeType == "m" then Wrap(Wrap(rangeLength * 30) + 1)
    else if rangeType == "y" then Wrap(rangeLength * 365)
    else if rangeType == "ytd" then dayOfYear
    else if rangeType == "max" then 0
    else if rangeType == "date" then -1
    else 0
  }

  predicate KnownUnit(rangeType: string) {
    rangeType in ["d", "w", "m", "y", "ytd", "max", "date"]
  }

  /** The unit table, for magnitudes whose day count fits an `int`. */
  lemma DayCountTable(rangeType: string, n: Int32, dayOfYear: int)
    requires 1 <= dayOfYear <= 366
    requires 0 <= n && n * 365 <= MaxInt
    ensures rangeType == "d" ==> TotalNumberOfDays(rangeType, n, dayOfYear) == n
    ensures rangeType == "w" ==> TotalNumberOfDays(rangeType, n, dayOfYear) == 7 * n
    ensures rangeType == "m" ==> TotalNumberOfDays(rangeType, n, dayOfYear) == 30 * n + 1
    ensures rangeType == "y" ==> TotalNumberOfDays(rangeType, n, dayOfYear) == 365 * n
    ensures rangeType == "ytd" ==> TotalNumberOfDays(rangeType, n, dayOfYear) == dayOfYear
    ensures rangeType == "max" ==> TotalNumberOfDays(rangeType, n, dayOfYear) == 0
    ensures rangeType == "date" ==> TotalNumberOfDays(rangeType, n, dayOfYear) == -1
    ensures !KnownUnit(rangeType) ==> TotalNumberOfDays(rangeType, n, dayOfYear) == 0
  {
  }

  /** Without overflow only "date" yields a negative count, and "max" or an
      unknown unit are the only ways to get 0 besides a zero magnitude. */
  lemma DayCountSign(rangeType: string, n: Int32, dayOfYear: int)
    requires 1 <= dayOfYear <= 366
    requires 0 <= n && n * 365 <= MaxInt
    ensures TotalNumberOfDays(rangeType, n, dayOfYear) < 0 <==> rangeType == "date"
    ensures TotalNumberOfDays(rangeType, n, dayOfYear) == 0 <==>
              (rangeType == "max" || !KnownUnit(rangeType) || (n == 0 && rangeType in ["d", "w", "y"]))
  {
    DayCountTable(rangeType, n, dayOfYear);
  }

  /** The multiplications wrap: a large month count lands exactly on the
      single-date sentinel, and a large week count turns negative. */
  lemma DayCountWraps(dayOfYear: int)
    requires 1 <= dayOfYear <= 366
    ensures TotalNumberOfDays("m", 286331153, dayOfYear) == -1
    ensures TotalNumberOfDays("w", 306783379, dayOfYear) == -2147483643
  {
  }
}
