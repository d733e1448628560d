/** Printing and parsing dollar figures undo each other, exactly where they do. */
module DollarTheorems {
  import opened Results
  import opened Money
  import opened Text
  import opened Calendar
  import opened Dollars

  // ---- Digit strings and numbers ----

  lemma {:induction false} NatOfDecimal(n: nat)
    ensures NatOf(Decimal(n)) == n
    ensures Decimal(n)[0] == '0' ==> n == 0 && Decimal(n) == "0"
  {
    if n >= 10 {
      NatOfDecimal(n / 10);
      var s := Decimal(n);
      assert s[..|s| - 1] == Decimal(n / 10);
      assert s[0] == Decimal(n / 10)[0];
    } else {
      assert Decimal(n)[..0] == "";
    }
  }

  /** The `n`-digit rendering of a number. */
  function Fixed(v: nat, n: nat): (s: string)
    ensures |s| == n && AllDigits(s)
  {
    if n == 0 then "" else Fixed(v / 10, n - 1) + [DigitChar(v % 10)]
  }

  lemma {:induction false} NatOfFixed(v: nat, n: nat)
    requires v < Pow10(n)
    ensures NatOf(Fixed(v, n)) == v
  {
    if n > 0 {
      NatOfFixed(v / 10, n - 1);
      assert Fixed(v, n)[..n - 1] == Fixed(v / 10, n - 1);
    }
  }

  lemma {:induction false} FixedOfNat(s: string)
    requires AllDigits(s)
    ensures NatOf(s) < Pow10(|s|) && Fixed(NatOf(s), |s|) == s
  {
    if s != "" {
      var n := |s| - 1;
      FixedOfNat(s[..n]);
      assert NatOf(s) / 10 == NatOf(s[..n]) && NatOf(s) % 10 == DigitValue(s[n]);
      DigitRoundTrip(s[n]);
      assert s == s[..n] + [s[n]];
    }
  }

  lemma {:induction false} FixedZero(n: nat)
    ensures Fixed(0, n) == Zeros(n)
  {
    if n > 0 {
      FixedZero(n - 1);
      assert DigitValue('0') == 0;
      DigitRoundTrip('0');
    }
  }

  lemma {:induction false} PadOfDecimal(v: nat, n: nat)
    requires 0 < n && v < Pow10(n)
    ensures PadStart(Decimal(v), n) == Fixed(v, n) && |Decimal(v)| <= n
  {
    if v < 10 {
      FixedZero(n - 1);
      assert v / 10 == 0 && v % 10 == v;
    } else {
      assert n > 1;
      PadOfDecimal(v / 10, n - 1);
      var d := Decimal(v / 10);
      assert PadStart(d + [DigitChar(v % 10)], n) == PadStart(d, n - 1) + [DigitChar(v % 10)];
    }
  }

  lemma {:induction false} DecimalOfNat(s: string)
    requires AllDigits(s) && s != "" && (s[0] == '0' ==> s == "0")
    ensures Decimal(NatOf(s)) == s
  {
    var n := |s| - 1;
    DigitRoundTrip(s[n]);
    assert s == s[..n] + [s[n]];
    if n > 0 {
      assert s[..n][0] == s[0];
      DecimalOfNat(s[..n]);
      Positive(s[..n]);
      assert NatOf(s) / 10 == NatOf(s[..n]) && NatOf(s) % 10 == DigitValue(s[n]);
    } else {
      assert s[..0] == "" && NatOf(s) == DigitValue(s[0]);
    }
  }

  lemma {:induction false} Positive(s: string)
    requires AllDigits(s) && s != "" && s[0] != '0'
    ensures NatOf(s) > 0
  {
    var n := |s| - 1;
    if n > 0 {
      assert s[..n][0] == s[0];
      Positive(s[..n]);
    } else {
      assert DigitValue(s[0]) > 0;
    }
  }

  // ---- Trailing zeros ----

  lemma {:induction false} StripSplits(s: string)
    ensures |StripZeros(s)| <= |s| && s == StripZeros(s) + Zeros(|s| - |StripZeros(s)|)
    ensures StripZeros(s) != "" ==> StripZeros(s)[|StripZeros(s)| - 1] != '0'
    ensures AllDigits(s) ==> AllDigits(StripZeros(s))
  {
    if s != "" && s[|s| - 1] == '0' {
      var n := |s| - 1;
      StripSplits(s[..n]);
      var t := StripZeros(s[..n]);
      assert s == s[..n] + [s[n]];
      assert Zeros(n - |t|) + ['0'] == Zeros(|s| - |t|);
    } else {
      assert s == s + Zeros(0);
    }
  }

  lemma {:induction false} StripOfPadded(f: string, k: nat)
    requires f != "" ==> f[|f| - 1] != '0'
    ensures StripZeros(f + Zeros(k)) == f
  {
    if k == 0 {
      assert f + Zeros(0) == f;
    } else {
      var s := f + Zeros(k);
      assert s[..|s| - 1] == f + Zeros(k - 1);
      StripOfPadded(f, k - 1);
    }
  }

  lemma {:induction false} PadOfStrip(s: string)
    ensures PadEnd(StripZeros(s), |s|) == s
  {
    StripSplits(s);
    if |StripZeros(s)| == |s| {
      assert Zeros(0) == "" && s == StripZeros(s) + "";
    }
  }

  // ---- Cleaning and splitting ----

  lemma {:induction false} NoCommas(s: string)
    requires forall i :: 0 <= i < |s| ==> s[i] != ','
    ensures RemoveCommas(s) == s
  {
    if s != "" {
      NoCommas(s[1..]);
    }
  }

  lemma {:induction false} AlreadyClean(s: string)
    requires s != "" && forall i :: 0 <= i < |s| ==> !IsSpace(s[i]) && s[i] != ',' && s[i] != '$'
    ensures Cleaned(s) == s
  {
    assert TrimStart(s) == s && TrimEnd(s) == s;
    NoCommas(s);
  }

  lemma {:induction false} NoDot(s: string)
    requires AllDigits(s)
    ensures FirstDot(s).None?
  {
  }

  lemma {:induction false} DotAfter(whole: string, fraction: string)
    requires AllDigits(whole)
    ensures var s := whole + "." + fraction;
      FirstDot(s) == Some(|whole|) && Whole(s) == whole && Fraction(s) == fraction
  {
    var s := whole + "." + fraction;
    assert s[|whole|] == '.';
    assert forall i :: 0 <= i < |whole| ==> s[i] == whole[i] != '.';
    assert FirstDot(s).Some? && FirstDot(s).value == |whole|;
    assert s[..|whole|] == whole && s[|whole| + 1..] == fraction;
  }

  lemma {:induction false} DigitIsPlain(s: string)
    requires AllDigits(s)
    ensures forall i :: 0 <= i < |s| ==> !IsSpace(s[i]) && s[i] != ',' && s[i] != '$' && s[i] != '.'
  {
  }

  /** Whole and fraction of a figure determine it, up to the point itself. */
  lemma {:induction false} FigureIs(s: string)
    requires IsFigure(s)
    ensures s == if Fraction(s) != "" then Whole(s) + "." + Fraction(s) else Whole(s)
  {
    var dot := FirstDot(s);
    if dot.Some? {
      assert s == s[..dot.value] + [s[dot.value]] + s[dot.value + 1..];
    }
  }

  /** A figure with no comma, sign or space is read as it stands. */
  lemma {:induction false} BuiltFigure(whole: string, fraction: string)
    requires whole != "" && AllDigits(whole) && AllDigits(fraction) && |fraction| <= DECIMALS
    ensures var s := if fraction != "" then whole + "." + fraction else whole;
      IsFigure(s) && Cleaned(s) == s && Whole(s) == whole && Fraction(s) == fraction
  {
    var s := if fraction != "" then whole + "." + fraction else whole;
    DigitIsPlain(whole);
    DigitIsPlain(fraction);
    if fraction != "" {
      DotAfter(whole, fraction);
      forall i | 0 <= i < |s| ensures !IsSpace(s[i]) && s[i] != ',' && s[i] != '$' {
        assert s[i] == if i < |whole| then whole[i] else if i == |whole| then '.' else fraction[i - |whole| - 1];
      }
    } else {
      NoDot(whole);
    }
    AlreadyClean(s);
  }

  // ---- The round trip ----

  lemma {:induction false} SixPlaces()
    ensures Pow10(DECIMALS) == MICRO_PER_USD
  {
    assert Pow10(6) == 10 * Pow10(5) && Pow10(5) == 10 * Pow10(4) && Pow10(4) == 10 * Pow10(3);
    assert Pow10(3) == 10 * Pow10(2) && Pow10(2) == 10 * Pow10(1) && Pow10(1) == 10;
  }

  /** The two halves of a printed amount. */
  function PrintedWhole(micro: nat): string {
    Decimal(micro / MICRO_PER_USD)
  }

  function PrintedFraction(micro: nat): string {
    StripZeros(PadStart(Decimal(micro % MICRO_PER_USD), DECIMALS))
  }

  lemma {:induction false} PrintedHalves(micro: nat)
    ensures AllDigits(PrintedWhole(micro)) && PrintedWhole(micro) != ""
      && NatOf(PrintedWhole(micro)) == micro / MICRO_PER_USD
    ensures AllDigits(PrintedFraction(micro)) && |PrintedFraction(micro)| <= DECIMALS
    ensures PadEnd(PrintedFraction(micro), DECIMALS) == Fixed(micro % MICRO_PER_USD, DECIMALS)
    ensures NatOf(Fixed(micro % MICRO_PER_USD, DECIMALS)) == micro % MICRO_PER_USD
  {
    SixPlaces();
    var rest := micro % MICRO_PER_USD;
    NatOfDecimal(micro / MICRO_PER_USD);
    PadOfDecimal(rest, DECIMALS);
    NatOfFixed(rest, DECIMALS);
    StripSplits(Fixed(rest, DECIMALS));
    PadOfStrip(Fixed(rest, DECIMALS));
  }

  lemma {:induction false} BuiltParses(whole: string, fraction: string)
    requires whole != "" && AllDigits(whole) && AllDigits(fraction) && |fraction| <= DECIMALS
    ensures AllDigits(PadEnd(fraction, DECIMALS))
    ensures var s := if fraction != "" then whole + "." + fraction else whole;
      var micro := NatOf(whole) * MICRO_PER_USD + NatOf(PadEnd(fraction, DECIMALS));
      DollarsToMicro(s) == if IsSafeInteger(micro) then Ok(micro) else Err(TooLarge)
  {
    hide NatOf, IsFigure, Cleaned, Whole, Fraction, FirstDot, AllDigits, PadEnd, IsSafeInteger;
    BuiltFigure(whole, fraction);
    PadIsDigits(fraction);
  }

  lemma {:induction false} PadIsDigits(f: string)
    requires AllDigits(f)
    ensures AllDigits(PadEnd(f, DECIMALS))
    ensures |f| <= DECIMALS ==> PadEnd(f, DECIMALS) == f + Zeros(DECIMALS - |f|)
  {
    assert f + Zeros(0) == f;
  }

  lemma {:induction false} PrintedParses(micro: nat)
    ensures DollarsToMicro(MicroToDollarInput(micro)) == if IsSafeInteger(micro) then Ok(micro) else Err(TooLarge)
  {
    PrintedHalves(micro);
    BuiltParses(PrintedWhole(micro), PrintedFraction(micro));
    DivMod(micro);
    hide Decimal, PadStart, PadEnd, StripZeros, NatOf, DollarsToMicro, Fixed, AllDigits, IsSafeInteger;
    assert Abs(micro) == micro;
  }

  lemma {:induction false} DivMod(micro: nat)
    ensures (micro / MICRO_PER_USD) * MICRO_PER_USD + micro % MICRO_PER_USD == micro
  {
  }

  lemma {:induction false} NegativeRefused(micro: int)
    requires micro < 0
    ensures DollarsToMicro(MicroToDollarInput(micro)) == Err(NotADollarFigure)
  {
    hide Decimal, PadStart, PadEnd, StripZeros, NatOf, Fixed, Cleaned, IsFigure;
    var abs := Abs(micro);
    PrintedHalves(abs);
    var whole, fraction := PrintedWhole(abs), PrintedFraction(abs);
    var body := if fraction != "" then whole + "." + fraction else whole;
    DigitIsPlain(whole);
    DigitIsPlain(fraction);
    var s := "-" + body;
    forall i | 0 <= i < |s| ensures !IsSpace(s[i]) && s[i] != ',' && s[i] != '$' {
      assert s[i] == if i == 0 then '-' else body[i - 1];
      assert i > 0 ==> body[i - 1] == if i - 1 < |whole| then whole[i - 1] else if i - 1 == |whole| then '.'
        else fraction[i - |whole| - 2];
    }
    AlreadyClean(s);
    assert s[0] == '-' && MicroToDollarInput(micro) == s;
    NotDigitFirst(s);
  }

  lemma {:induction false} NotDigitFirst(s: string)
    requires s != "" && s[0] == '-'
    ensures !IsFigure(s)
  {
    if Whole(s) != "" {
      assert Whole(s)[0] == '-';
    }
  }

  /** Editing and saving changes nothing: the printed amount parses back to itself exactly for the
      whole range the form can hold, zero to 2^53 - 1 micro-dollars. */
  lemma {:induction false} RoundTripsExactly(micro: int)
    ensures DollarsToMicro(MicroToDollarInput(micro)) == Ok(micro) <==> 0 <= micro < 0x20_0000_0000_0000
  {
    if micro < 0 {
      NegativeRefused(micro);
    } else {
      PrintedParses(micro);
    }
  }

  // ---- What is accepted, and what it means ----

  lemma {:induction false} LastDigit(f: string)
    requires AllDigits(f) && f != ""
    ensures var n := |f| - 1;
      && AllDigits(f[..n]) && IsDigit(f[n]) && NatOf(f) == 10 * NatOf(f[..n]) + DigitValue(f[n])
      && Pow10(|f|) as real == 10.0 * Pow10(n) as real && Pow10(n) > 0
      && FractionValue(f) == FractionValue(f[..n]) + DigitValue(f[n]) as real / Pow10(|f|) as real
  {
    PowPositive(|f| - 1);
  }

  lemma {:induction false} FractionIsNat(f: string)
    requires AllDigits(f)
    ensures Shifts(FractionValue(f), Pow10(|f|) as real, NatOf(f))
  {
    if f != "" {
      var n := |f| - 1;
      LastDigit(f);
      FractionIsNat(f[..n]);
      hide NatOf, FractionValue, Pow10, DigitValue, AllDigits, Shifts;
      LastPlace(FractionValue(f[..n]), DigitValue(f[n]), Pow10(n) as real, NatOf(f[..n]), FractionValue(f),
                Pow10(|f|) as real);
    }
  }

  /** `value`, moved left by the power `pow`, is the whole number `n`. */
  ghost predicate Shifts(value: real, pow: real, n: int) {
    value * pow == n as real
  }

  lemma {:induction false} LastPlace(value: real, digit: int, pow: real, before: int, now: real, whole: real)
    requires Shifts(value, pow, before) && pow > 0.0
    requires whole == 10.0 * pow && now == value + digit as real / whole
    ensures Shifts(now, whole, 10 * before + digit)
  {
    var d := digit as real;
    assert (d / whole) * whole == d;
    assert (value + d / whole) * whole == value * whole + (d / whole) * whole;
    assert value * whole == 10.0 * (value * pow);
  }

  lemma {:induction false} PadScales(f: string, k: nat)
    requires AllDigits(f)
    ensures AllDigits(f + Zeros(k)) && NatOf(f + Zeros(k)) == NatOf(f) * Pow10(k)
  {
    if k == 0 {
      assert f + Zeros(0) == f;
    } else {
      var s := f + Zeros(k);
      PadScales(f, k - 1);
      assert s[..|s| - 1] == f + Zeros(k - 1);
      assert DigitValue(s[|s| - 1]) == 0;
      TenTimes(NatOf(f), Pow10(k - 1));
    }
  }

  lemma {:induction false} TenTimes(a: int, b: int)
    ensures 10 * (a * b) == a * (10 * b)
  {
  }

  lemma {:induction false} PowersMultiply(a: nat, b: nat)
    ensures Pow10(a) * Pow10(b) == Pow10(a + b)
  {
    if a > 0 {
      PowersMultiply(a - 1, b);
      assert Pow10(a) * Pow10(b) == 10 * (Pow10(a - 1) * Pow10(b));
    }
  }

  /** The padded fraction counts the micro-dollars of the fraction. */
  lemma {:induction false} PaddedFraction(f: string)
    requires AllDigits(f) && |f| <= DECIMALS
    ensures AllDigits(PadEnd(f, DECIMALS))
    ensures NatOf(PadEnd(f, DECIMALS)) as real == FractionValue(f) * MICRO_PER_USD as real
  {
    hide AllDigits, NatOf, FractionValue, PadEnd, Pow10;
    var k := DECIMALS - |f|;
    SixPlaces();
    FractionIsNat(f);
    PadScales(f, k);
    PowersMultiply(|f|, k);
    PadIsDigits(f);
    Rescale(FractionValue(f), Pow10(|f|), Pow10(k), NatOf(f));
  }

  lemma {:induction false} Rescale(value: real, pow: nat, more: nat, n: nat)
    requires value * pow as real == n as real
    ensures (n * more) as real == value * (pow * more) as real
  {
    assert (n * more) as real == n as real * more as real;
    assert (pow * more) as real == pow as real * more as real;
    assert value * (pow as real * more as real) == (value * pow as real) * more as real;
  }

  /** A string is accepted exactly when, once trimmed and freed of one leading dollar sign and of its
      commas, it is a figure with at most six decimals worth at most 2^53 - 1 micro-dollars; and then
      the answer is its exact value, to the micro-dollar. */
  lemma {:induction false} AcceptsExactly(input: string)
    ensures DollarsToMicro(input).Ok? <==>
      IsFigure(Cleaned(input)) && DollarValue(Cleaned(input)) * MICRO_PER_USD as real < 0x20_0000_0000_0000 as real
    ensures DollarsToMicro(input).Ok? ==>
      && 0 <= DollarsToMicro(input).value <= MAX_SAFE_INTEGER
      && DollarsToMicro(input).value as real == DollarValue(Cleaned(input)) * MICRO_PER_USD as real
  {
    var s := Cleaned(input);
    hide Cleaned, FirstDot;
    if IsFigure(s) {
      PaddedFraction(Fraction(s));
      var whole, rest := NatOf(Whole(s)), NatOf(PadEnd(Fraction(s), DECIMALS));
      Worth(whole, FractionValue(Fraction(s)), rest);
      hide NatOf, FractionValue, Whole, Fraction, PadEnd;
      assert s != "";
    }
  }

  lemma {:induction false} Worth(whole: nat, fraction: real, rest: nat)
    requires rest as real == fraction * MICRO_PER_USD as real
    ensures (whole * MICRO_PER_USD + rest) as real == (whole as real + fraction) * MICRO_PER_USD as real
  {
  }

  /** The form `microToDollarInput` prints: no leading zero but a lone one, no trailing zero after the
      point. */
  predicate IsCanonical(s: string) {
    && IsFigure(s)
    && (Whole(s)[0] == '0' ==> Whole(s) == "0")
    && (Fraction(s) != "" ==> Fraction(s)[|Fraction(s)| - 1] != '0')
  }

  lemma {:induction false} PrintsCanonically(micro: nat)
    ensures IsCanonical(MicroToDollarInput(micro))
  {
    hide Decimal, PadStart, PadEnd, StripZeros, NatOf, IsFigure, Whole, Fraction, Fixed, AllDigits, Cleaned;
    PrintedHalves(micro);
    BuiltFigure(PrintedWhole(micro), PrintedFraction(micro));
    NatOfDecimal(micro / MICRO_PER_USD);
    StripSplits(PadStart(Decimal(micro % MICRO_PER_USD), DECIMALS));
    assert Abs(micro) == micro;
  }

  /** What is printed for a whole number of dollars and six more digits. */
  lemma {:induction false} PrintedFrom(whole: string, padded: string)
    requires AllDigits(whole) && whole != "" && (whole[0] == '0' ==> whole == "0")
    requires AllDigits(padded) && |padded| == DECIMALS
    ensures MicroToDollarInput(NatOf(whole) * MICRO_PER_USD + NatOf(padded))
         == if StripZeros(padded) != "" then whole + "." + StripZeros(padded) else whole
  {
    hide Decimal, PadStart, StripZeros, NatOf, Fixed, AllDigits, Pow10;
    SixPlaces();
    DecimalOfNat(whole);
    FixedOfNat(padded);
    PadOfDecimal(NatOf(padded), DECIMALS);
    Halves(NatOf(whole), NatOf(padded));
    var micro := NatOf(whole) * MICRO_PER_USD + NatOf(padded);
    assert Abs(micro) == micro;
  }

  lemma {:induction false} CanonicalPrints(s: string)
    requires IsCanonical(s)
    ensures AllDigits(PadEnd(Fraction(s), DECIMALS))
    ensures MicroToDollarInput(NatOf(Whole(s)) * MICRO_PER_USD + NatOf(PadEnd(Fraction(s), DECIMALS))) == s
  {
    hide Decimal, PadStart, PadEnd, StripZeros, NatOf, Whole, Fraction, FirstDot, MicroToDollarInput;
    FigureIs(s);
    NoFraction(s);
    PadIsDigits(Fraction(s));
    StripOfPadded(Fraction(s), DECIMALS - |Fraction(s)|);
    PrintedFrom(Whole(s), PadEnd(Fraction(s), DECIMALS));
  }

  lemma {:induction false} NoFraction(s: string)
    requires IsFigure(s)
    ensures |Fraction(s)| <= DECIMALS && AllDigits(Fraction(s))
  {
  }

  lemma {:induction false} Halves(whole: nat, rest: nat)
    requires rest < MICRO_PER_USD
    ensures (whole * MICRO_PER_USD + rest) / MICRO_PER_USD == whole
      && (whole * MICRO_PER_USD + rest) % MICRO_PER_USD == rest
  {
  }

  lemma {:induction false} ParsedValue(input: string)
    requires DollarsToMicro(input).Ok? && IsFigure(Cleaned(input))
    ensures AllDigits(PadEnd(Fraction(Cleaned(input)), DECIMALS))
    ensures DollarsToMicro(input).value == NatOf(Whole(Cleaned(input))) * MICRO_PER_USD
      + NatOf(PadEnd(Fraction(Cleaned(input)), DECIMALS))
  {
    hide NatOf, Cleaned, FirstDot;
  }

  /** Every accepted string reprints in a canonical form that parses to the same amount; it reprints as
      itself exactly when it was canonical already. */
  lemma {:induction false} ReprintsCanonically(input: string)
    requires DollarsToMicro(input).Ok?
    ensures var micro := DollarsToMicro(input).value;
      && IsCanonical(MicroToDollarInput(micro))
      && DollarsToMicro(MicroToDollarInput(micro)) == Ok(micro)
      && (MicroToDollarInput(micro) == Cleaned(input) <==> IsCanonical(Cleaned(input)))
  {
    hide DollarsToMicro, MicroToDollarInput, IsCanonical, IsFigure, Cleaned, NatOf, PadEnd, Whole, Fraction, AllDigits,
         DollarValue;
    AcceptsExactly(input);
    var micro := DollarsToMicro(input).value;
    PrintsCanonically(micro);
    RoundTripsExactly(micro);
    if IsCanonical(Cleaned(input)) {
      CanonicalPrints(Cleaned(input));
      ParsedValue(input);
    }
  }

  /** White space around a figure and one dollar sign in front of it change nothing. */
  lemma {:induction false} DecorationIsIgnored(before: string, figure: string, after: string)
    requires AllSpace(before) && AllSpace(after) && SolidEnds(figure) && figure[0] != '$'
    ensures DollarsToMicro(before + figure + after) == DollarsToMicro(figure)
    ensures DollarsToMicro(before + "$" + figure + after) == DollarsToMicro(figure)
  {
    TrimBetween(before, figure, after);
    TrimSolid(figure);
    SignIsTrimmed(before, figure, after);
    hide Trim, DollarsToMicro, RemoveCommas;
    SameWhenCleaned(before + figure + after, figure);
    SameWhenCleaned(before + "$" + figure + after, figure);
  }

  lemma {:induction false} SignIsTrimmed(before: string, figure: string, after: string)
    requires AllSpace(before) && AllSpace(after) && SolidEnds(figure)
    ensures StripDollar(Trim(before + "$" + figure + after)) == figure
  {
    var marked := "$" + figure;
    TrimBetween(before, marked, after);
    hide Trim;
    assert before + "$" + figure == before + marked;
    assert marked[1..] == figure;
  }

  lemma {:induction false} TrimSolid(s: string)
    requires SolidEnds(s)
    ensures Trim(s) == s
  {
    TrimBetween("", s, "");
    hide Trim;
    assert "" + s == s;
    assert s + "" == s;
  }

  lemma {:induction false} SameWhenCleaned(a: string, b: string)
    requires Cleaned(a) == Cleaned(b)
    ensures DollarsToMicro(a) == DollarsToMicro(b)
  {
    hide Cleaned, IsFigure, NatOf, Whole, Fraction, PadEnd;
  }

  /** Nor does a comma anywhere inside it. */
  lemma {:induction false} CommaIsIgnored(before: string, after: string)
    requires before != "" && !IsSpace(before[0]) && after != "" && !IsSpace(after[|after| - 1])
    ensures DollarsToMicro(before + "," + after) == DollarsToMicro(before + after)
  {
    TrimSolid(before + "," + after);
    TrimSolid(before + after);
    hide Trim, DollarsToMicro, RemoveCommas, StripDollar;
    StripFirst(before, "," + after);
    StripFirst(before, after);
    assert before + "," + after == before + ("," + after);
    assert StripDollar(before) + "," + after == StripDollar(before) + ("," + after);
    CommaDrops(StripDollar(before), after);
    SameWhenCleaned(before + "," + after, before + after);
  }

  lemma {:induction false} StripFirst(before: string, after: string)
    requires before != ""
    ensures StripDollar(before + after) == StripDollar(before) + after
  {
    assert (before + after)[1..] == before[1..] + after;
  }

  lemma {:induction false} CommaDrops(before: string, after: string)
    ensures RemoveCommas(before + "," + after) == RemoveCommas(before + after)
  {
    var split, joined := before + "," + after, before + after;
    if before == "" {
      assert split[1..] == after && joined == after;
    } else {
      CommaDrops(before[1..], after);
      assert split[1..] == before[1..] + "," + after && joined[1..] == before[1..] + after;
    }
  }

  /** Two accepted strings parse to the same amount exactly when they denote the same number. */
  lemma {:induction false} SameAmountExactly(a: string, b: string)
    requires DollarsToMicro(a).Ok? && DollarsToMicro(b).Ok?
    ensures IsFigure(Cleaned(a)) && IsFigure(Cleaned(b))
    ensures DollarsToMicro(a) == DollarsToMicro(b) <==> DollarValue(Cleaned(a)) == DollarValue(Cleaned(b))
  {
    AcceptsExactly(a);
    AcceptsExactly(b);
    hide DollarsToMicro, DollarValue, IsFigure, Cleaned;
  }
}
