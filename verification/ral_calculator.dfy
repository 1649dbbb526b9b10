/** The pure logic of the calculator form, `components/RalCalculator.tsx`:
    reading the salary field, the guard before calculating, the arithmetic
    of a breakdown row (its share of the gross, its bar and its sign), and
    the choice of the marginal rates shown in two row labels. */
module RalCalculator {
  import opened Numeric
  import opened ProgressiveTax
  import opened Calcola

  // ---------------------------------------------------------------------
  // Reading the salary field (`parseInputValue`)

  predicate IsDigit(c: char)
  {
    '0' <= c <= '9'
  }

  predicate AllDigits(s: string)
  {
    forall i :: 0 <= i < |s| ==> IsDigit(s[i])
  }

  /** `formatted.replace(/\D/g, "")`: the decimal digits of `s`, in order. */
  function Digits(s: string): (d: string)
    ensures AllDigits(d)
    ensures |d| <= |s|
  {
    if |s| == 0 then ""
    else if IsDigit(s[0]) then [s[0]] + Digits(s[1..])
    else Digits(s[1..])
  }

  function DigitValue(c: char): nat
    requires IsDigit(c)
  {
    (c as int) - ('0' as int)
  }

  function Pow10(k: nat): (p: nat)
    ensures 1 <= p
  {
    if k == 0 then 1 else 10 * Pow10(k - 1)
  }

  /** `parseInt(digits, 10)` on a string of digits: its base-10 value, most
      significant digit first. A string of k digits is worth less than 10^k,
      and is worth 0 exactly when every digit is '0'. */
  function DecimalValue(d: string): (v: nat)
    requires AllDigits(d)
    ensures v < Pow10(|d|)
    ensures v == 0 <==> forall i :: 0 <= i < |d| ==> d[i] == '0'
  {
    if |d| == 0 then 0
    else
      var init := d[..|d| - 1];
      assert forall i :: 0 <= i < |init| ==> init[i] == d[i];
      DecimalValue(init) * 10 + DigitValue(d[|d| - 1])
  }

  /** `parseInputValue`: the value of the field's digits, ignoring every
      other character, or 0 when it has none. It reads 0 exactly when the
      field holds no digit other than '0', and a field with k digits reads
      below 10^k. */
  function ParseInputValue(formatted: string): (n: nat)
    ensures n == 0 <==> forall i :: 0 <= i < |Digits(formatted)| ==> Digits(formatted)[i] == '0'
    ensures n < Pow10(|Digits(formatted)|)
  {
    if |Digits(formatted)| == 0 then 0 else DecimalValue(Digits(formatted))
  }

  lemma {:induction false} DigitsAppend(s: string, t: string)
    ensures Digits(s + t) == Digits(s) + Digits(t)
    decreases |s|
  {
    if |s| > 0 {
      assert (s + t)[0] == s[0];
      assert (s + t)[1..] == s[1..] + t;
      DigitsAppend(s[1..], t);
      if IsDigit(s[0]) {
        assert Digits(s + t) == [s[0]] + Digits(s[1..] + t);
        assert Digits(s) + Digits(t) == [s[0]] + (Digits(s[1..]) + Digits(t));
      } else {
        assert Digits(s + t) == Digits(s[1..] + t);
      }
    } else {
      assert s + t == t;
    }
  }

  lemma {:induction false} DigitsOfDigits(d: string)
    requires AllDigits(d)
    ensures Digits(d) == d
    decreases |d|
  {
    if |d| > 0 {
      DigitsOfDigits(d[1..]);
    }
  }

  lemma {:induction false} NoDigits(s: string)
    requires forall i :: 0 <= i < |s| ==> !IsDigit(s[i])
    ensures Digits(s) == []
    decreases |s|
  {
    if |s| > 0 {
      NoDigits(s[1..]);
    }
  }

  /** A field with no decimal digit reads as 0. */
  lemma ParseWithoutDigits(s: string)
    requires forall i :: 0 <= i < |s| ==> !IsDigit(s[i])
    ensures ParseInputValue(s) == 0
  {
    NoDigits(s);
  }

  /** Separators and other non-digits are ignored wherever they stand:
      inserting them anywhere in the field does not change its value. */
  lemma ParseIgnoresNonDigits(a: string, sep: string, b: string)
    requires forall i :: 0 <= i < |sep| ==> !IsDigit(sep[i])
    ensures ParseInputValue(a + sep + b) == ParseInputValue(a + b)
  {
    NoDigits(sep);
    DigitsAppend(a, sep);
    DigitsAppend(a + sep, b);
    DigitsAppend(a, b);
    assert Digits(a + sep) == Digits(a);
    assert Digits(a + sep + b) == Digits(a + b);
  }

  // ---------------------------------------------------------------------
  // Writing a number back, with Italian thousands separators

  function DigitChar(d: nat): (c: char)
    requires d < 10
    ensures IsDigit(c) && DigitValue(c) == d
  {
    ('0' as int + d) as char
  }

  /** The plain decimal notation of `n`. */
  function ToDecimal(n: nat): (s: string)
    ensures |s| > 0 && AllDigits(s)
  {
    if n < 10 then [DigitChar(n)] else ToDecimal(n / 10) + [DigitChar(n % 10)]
  }

  /** Exactly three digits, with leading zeros: one thousands group. */
  function Group(n: nat): (s: string)
    requires n < 1000
    ensures |s| == 3 && AllDigits(s)
  {
    [DigitChar(n / 100), DigitChar(n / 10 % 10), DigitChar(n % 10)]
  }

  /** The notation the field shows after typing (`it-IT` grouping): thousands
      groups separated by '.'. */
  function Grouped(n: nat): (s: string)
    ensures |s| > 0
  {
    if n < 1000 then ToDecimal(n) else Grouped(n / 1000) + "." + Group(n % 1000)
  }

  lemma {:induction false} ToDecimalValue(n: nat)
    ensures DecimalValue(ToDecimal(n)) == n
  {
    if n >= 10 {
      var s := ToDecimal(n);
      ToDecimalValue(n / 10);
      assert s[..|s| - 1] == ToDecimal(n / 10);
    }
  }

  lemma GroupValue(n: nat)
    requires n < 1000
    ensures DecimalValue(Group(n)) == n
  {
    var g := Group(n);
    assert g[..2][..1] == [g[0]];
    assert g[..2] == [g[0], g[1]];
    assert DecimalValue([g[0]]) == n / 100;
    assert DecimalValue([g[0], g[1]]) == n / 100 * 10 + n / 10 % 10 == n / 10;
  }

  /** Appending a thousands group multiplies by 1000 and adds the group. */
  lemma AppendGroupValue(a: string, g: string)
    requires AllDigits(a) && AllDigits(g) && |g| == 3
    ensures AllDigits(a + g)
    ensures DecimalValue(a + g) == DecimalValue(a) * 1000 + DecimalValue(g)
  {
    var s := a + g;
    var s2 := s[..|s| - 1];
    var s1 := s2[..|s2| - 1];
    assert s2 == a + g[..2];
    assert s1 == a + g[..1];
    assert s1[..|s1| - 1] == a;
    assert g[..2][..1] == g[..1];
    assert g[..1][..0] == [];
    var v := DecimalValue(a);
    assert DecimalValue(s1) == v * 10 + DigitValue(g[0]);
    assert DecimalValue(s2) == v * 100 + DigitValue(g[0]) * 10 + DigitValue(g[1]);
    assert DecimalValue(g[..1]) == DigitValue(g[0]);
    assert DecimalValue(g[..2]) == DigitValue(g[0]) * 10 + DigitValue(g[1]);
  }

  lemma {:induction false} GroupedDigits(n: nat)
    ensures |Digits(Grouped(n))| > 0
    ensures DecimalValue(Digits(Grouped(n))) == n
  {
    if n < 1000 {
      DigitsOfDigits(ToDecimal(n));
      ToDecimalValue(n);
    } else {
      var head := Grouped(n / 1000);
      var g := Group(n % 1000);
      GroupedDigits(n / 1000);
      DigitsAppend(head + ".", g);
      DigitsAppend(head, ".");
      DigitsOfDigits(g);
      assert Digits(".") == [];
      assert Digits(Grouped(n)) == Digits(head) + g;
      AppendGroupValue(Digits(head), g);
      GroupValue(n % 1000);
    }
  }

  /** Reading the field back gives the number it displays, grouped or not. */
  lemma ParseGrouped(n: nat)
    ensures ParseInputValue(Grouped(n)) == n
    ensures ParseInputValue(ToDecimal(n)) == n
  {
    GroupedDigits(n);
    DigitsOfDigits(ToDecimal(n));
    ToDecimalValue(n);
  }

  // ---------------------------------------------------------------------
  // The guard in `handleCalcola`

  /** What pressing the button does: nothing, or a calculation. */
  datatype Action = Ignored | Calculate(ral: nat, result: CalcolaResult)

  /** `handleCalcola`: a non-positive reading is ignored; otherwise the
      salary is calculated for the value read and the chosen instalments. */
  function HandleCalcola(ralInput: string, mensilita: Mensilita): (a: Action)
    ensures a.Calculate? <==> ParseInputValue(ralInput) > 0
    ensures a.Calculate? ==> a.ral == ParseInputValue(ralInput) && a.result.ral == a.ral as real
    ensures a.Calculate? ==> a.result.mensilita == mensilita
  {
    var num := ParseInputValue(ralInput);
    if num <= 0 then Ignored else Calculate(num, CalcolaStipendio(num as real, mensilita))
  }

  /** Whatever the form calculates has a positive net pay below the gross
      and an effective rate strictly between 0 and 100. */
  lemma HandleCalcolaNetBetween(ralInput: string, mensilita: Mensilita)
    ensures var a := HandleCalcola(ralInput, mensilita);
            a.Calculate? ==>
              && 0.0 < a.result.nettoAnnuale < a.ral as real
              && 0.0 < a.result.aliquotaEffettiva < 100.0
  {
    var num := ParseInputValue(ralInput);
    if num > 0 {
      CalcolaStipendioNetBetween(num as real, mensilita);
    }
  }

  /** A salary typed as the field displays it is calculated for exactly
      that salary; an empty or zero field is ignored. */
  lemma HandleCalcolaGrouped(n: nat, mensilita: Mensilita)
    ensures n > 0 ==> HandleCalcola(Grouped(n), mensilita) == Calculate(n, CalcolaStipendio(n as real, mensilita))
    ensures n == 0 ==> HandleCalcola(Grouped(n), mensilita) == Ignored
    ensures HandleCalcola("", mensilita) == Ignored
  {
    ParseGrouped(n);
  }

  // ---------------------------------------------------------------------
  // `BreakdownRow`

  datatype RowType = Negative | Positive | Neutral | Result

  /** The row's amount as a percentage of the gross; 0 without a positive
      gross. */
  function Pct(amount: real, ral: real): (p: real)
    ensures 0.0 <= p
    ensures ral > 0.0 ==> p * ral == Abs(amount) * 100.0
    ensures ral <= 0.0 ==> p == 0.0
  {
    if ral > 0.0 then Percent(Abs(amount), ral) else 0.0
  }

  /** Width of the row's bar, in percent: its share of the gross, capped at
      the full width. */
  function BarWidth(amount: real, ral: real): (w: real)
    ensures 0.0 <= w <= 100.0
    ensures w <= Pct(amount, ral)
    ensures w == Pct(amount, ral) || w == 100.0
  {
    Min(Pct(amount, ral), 100.0)
  }

  /** An amount no larger than the gross is drawn to scale; a larger one
      fills the bar. */
  lemma BarWidthScale(amount: real, ral: real)
    requires 0.0 < ral
    ensures Abs(amount) <= ral ==> BarWidth(amount, ral) == Pct(amount, ral)
    ensures Abs(amount) >= ral ==> BarWidth(amount, ral) == 100.0
  {
    // The solver sometimes finds these products unaided; the calls make
    // the comparison with 100 explicit so that it always does.
    var p := Pct(amount, ral);
    if Abs(amount) <= ral {
      if p > 100.0 {
        MulStrict(ral, 100.0, p);
      }
    } else if p < 100.0 {
      MulStrict(ral, p, 100.0);
    }
  }

  /** The prefix of the formatted amount: a minus sign for a negative
      amount, a plus for a positive one on a "positive" row, and nothing
      otherwise. */
  function Sign(amount: real, rowType: RowType): (s: string)
    ensures s == "\U{2212}" <==> amount < 0.0
    ensures s == "+" <==> amount > 0.0 && rowType == Positive
    ensures s == "" <==> amount == 0.0 || (amount > 0.0 && rowType != Positive)
  {
    if amount < 0.0 then "\U{2212}" else if amount > 0.0 && rowType == Positive then "+" else ""
  }

  /** The contributions row: shown as a deduction of 9.19% of the gross. */
  lemma InpsRow(ral: real, mensilita: Mensilita)
    requires 0.0 < ral
    ensures var r := CalcolaStipendio(ral, mensilita);
            && Pct(-r.contributiInps, r.ral) == 9.19
            && Sign(-r.contributiInps, Negative) == "\U{2212}"
  {
    var r := CalcolaStipendio(ral, mensilita);
    ShareRow(r.contributiInps, r.ral, InpsRate);
  }

  /** A deduction that is a fixed share of a positive gross is shown as that
      share in percent, with a minus sign. */
  lemma ShareRow(deduction: real, ral: real, rate: real)
    requires 0.0 < ral && 0.0 < rate && deduction == rate * ral
    ensures Pct(-deduction, ral) == rate * 100.0
    ensures Sign(-deduction, Negative) == "\U{2212}"
  {
  }

  // ---------------------------------------------------------------------
  // Marginal-rate labels

  /** The IRPEF label's rate: that of the last band in the breakdown, or 23%
      when there is none. */
  function IrpefMarginale(scaglioni: seq<Detail>): real
  {
    if |scaglioni| == 0 then 0.23 else scaglioni[|scaglioni| - 1].aliquota
  }

  /** The regional label's rate, chosen by thresholds written out in the
      component; they are the Lombardy table's, so the label names the rate
      of the bracket that holds the taxable income. */
  function AddRegMarginale(imp: real): (rate: real)
    ensures rate == RateAt(imp, AddizionaleRegionaleLombardia)
  {
    if imp <= 15000.0 then 0.0123
    else if imp <= 28000.0 then 0.0158
    else if imp <= 50000.0 then 0.0172
    else 0.0173
  }

  /** The IRPEF label always names the rate of the bracket that holds the
      taxable income, including the empty breakdown of a zero income. */
  lemma IrpefMarginaleIsBracketRate(ral: real, mensilita: Mensilita)
    ensures var r := CalcolaStipendio(ral, mensilita);
            IrpefMarginale(r.irpefScaglioni) == RateAt(r.imponibileIrpef, IrpefBrackets)
  {
  }

  /** For a positive income, the regional label names the rate of the last
      band the surtax touches. */
  lemma AddRegMarginaleIsBracketRate(imp: real)
    ensures imp > 0.0 ==>
              var ds := CalcProgressiveTax(imp, AddizionaleRegionaleLombardia).details;
              |ds| > 0 && ds[|ds| - 1].aliquota == AddRegMarginale(imp)
  {
  }
}
