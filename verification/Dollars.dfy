/** Dollar strings and integer micro-USD (dollarsToMicro and microToDollarInput in
    web/lib/budgetsShared.ts), by string surgery, with no float in between. */
module Dollars {
  import opened Results
  import opened Money
  import opened Text
  import opened Calendar

  const MICRO_PER_USD := 1_000_000
  const DECIMALS := 6

  datatype DollarError = AmountRequired | NotADollarFigure | TooLarge

  // ---- Digits ----

  predicate AllDigits(s: string) {
    forall i :: 0 <= i < |s| ==> IsDigit(s[i])
  }

  /** `Number` of a string of digits. */
  function NatOf(s: string): nat
    requires AllDigits(s)
  {
    if s == "" then 0 else 10 * NatOf(s[..|s| - 1]) + DigitValue(s[|s| - 1])
  }

  /** `String` of a whole number. */
  function Decimal(n: nat): (s: string)
    ensures s != "" && AllDigits(s)
  {
    if n < 10 then [DigitChar(n)] else Decimal(n / 10) + [DigitChar(n % 10)]
  }

  function Zeros(n: nat): (s: string)
    ensures |s| == n && AllDigits(s) && forall i :: 0 <= i < n ==> s[i] == '0'
  {
    seq(n, _ => '0')
  }

  function PadStart(s: string, n: nat): string {
    if |s| >= n then s else Zeros(n - |s|) + s
  }

  function PadEnd(s: string, n: nat): string {
    if |s| >= n then s else s + Zeros(n - |s|)
  }

  /** `replace(/0+$/, "")` */
  function StripZeros(s: string): string {
    if s != "" && s[|s| - 1] == '0' then StripZeros(s[..|s| - 1]) else s
  }

  // ---- Parsing ----

  function StripDollar(s: string): string {
    if s != "" && s[0] == '$' then s[1..] else s
  }

  function RemoveCommas(s: string): string {
    if s == "" then "" else (if s[0] == ',' then "" else [s[0]]) + RemoveCommas(s[1..])
  }

  function Cleaned(input: string): string {
    RemoveCommas(StripDollar(Trim(input)))
  }

  function FirstDot(s: string): (r: Option<nat>)
    ensures r.Some? ==> r.value < |s| && s[r.value] == '.' && forall j :: 0 <= j < r.value ==> s[j] != '.'
    ensures r.None? ==> forall j :: 0 <= j < |s| ==> s[j] != '.'
  {
    if s == "" then None
    else if s[0] == '.' then Some(0)
    else
      var later := FirstDot(s[1..]);
      if later.Some? then Some(later.value + 1) else None
  }

  function Whole(s: string): string {
    var dot := FirstDot(s);
    if dot.None? then s else s[..dot.value]
  }

  function Fraction(s: string): string {
    var dot := FirstDot(s);
    if dot.None? then "" else s[dot.value + 1..]
  }

  /** `/^\d+(\.\d{1,6})?$/` */
  predicate IsFigure(s: string) {
    && Whole(s) != "" && AllDigits(Whole(s))
    && (FirstDot(s).Some? ==> 1 <= |Fraction(s)| <= DECIMALS && AllDigits(Fraction(s)))
  }

  function DollarsToMicro(input: string): Result<int, DollarError> {
    var cleaned := Cleaned(input);
    if cleaned == "" then Err(AmountRequired)
    else if !IsFigure(cleaned) then Err(NotADollarFigure)
    else
      var micro := NatOf(Whole(cleaned)) * MICRO_PER_USD + NatOf(PadEnd(Fraction(cleaned), DECIMALS));
      if IsSafeInteger(micro) then Ok(micro) else Err(TooLarge)
  }

  // ---- Printing ----

  function MicroToDollarInput(micro: int): string {
    var abs := Abs(micro);
    var whole, fraction := Decimal(abs / MICRO_PER_USD), StripZeros(PadStart(Decimal(abs % MICRO_PER_USD), DECIMALS));
    var body := if fraction != "" then whole + "." + fraction else whole;
    if micro < 0 then "-" + body else body
  }

  // ---- What a figure is worth ----

  function Pow10(n: nat): nat {
    if n == 0 then 1 else 10 * Pow10(n - 1)
  }

  /** The value of the digits after the point, place by place. */
  ghost function FractionValue(f: string): real
    requires AllDigits(f)
  {
    if f == "" then 0.0 else
      PowPositive(|f|);
      FractionValue(f[..|f| - 1]) + DigitValue(f[|f| - 1]) as real / Pow10(|f|) as real
  }

  /** The dollars a figure denotes, as a real number. */
  ghost function DollarValue(s: string): real
    requires IsFigure(s)
  {
    NatOf(Whole(s)) as real + FractionValue(Fraction(s))
  }

  lemma {:induction false} PowPositive(n: nat)
    ensures Pow10(n) > 0
  {
    if n > 0 {
      PowPositive(n - 1);
    }
  }
}
