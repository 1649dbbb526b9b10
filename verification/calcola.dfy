/** The salary pipeline of `lib/calcola.ts` (`calcolaStipendio`): from the
    gross annual salary (RAL) and the number of monthly payments to social
    contributions, income tax, credits, surtaxes and net pay, with the 2026
    constants for Lombardy and Milan. */
module Calcola {
  import opened Numeric
  import opened ProgressiveTax
  import opened Deductions

  /** Employee's INPS social-contribution rate. */
  const InpsRate: real := 0.0919

  /** National income tax (IRPEF) brackets. */
  const IrpefBrackets: seq<Bracket> := [
    Bracket(Finite(28000.0), 0.23),
    Bracket(Finite(50000.0), 0.33),
    Bracket(Infinity, 0.43)
  ]

  /** Lombardy regional surtax brackets. */
  const AddizionaleRegionaleLombardia: seq<Bracket> := [
    Bracket(Finite(15000.0), 0.0123),
    Bracket(Finite(28000.0), 0.0158),
    Bracket(Finite(50000.0), 0.0172),
    Bracket(Infinity, 0.0173)
  ]

  /** Number of monthly payments a year. */
  type Mensilita = m: int | m == 12 || m == 13 || m == 14 witness 13

  /** Every intermediate amount of the calculation. */
  datatype CalcolaResult = CalcolaResult(
    ral: real,
    mensilita: Mensilita,
    contributiInps: real,
    imponibileIrpef: real,
    irpefLorda: real,
    irpefScaglioni: seq<Detail>,
    detrazioniLavoro: real,
    bonus: real,
    ulterioreDetrazione: real,
    irpefNetta: real,
    addizionaleRegionale: real,
    addizionaleComunale: real,
    nettoAnnuale: real,
    nettoMensile: real,
    aliquotaEffettiva: real)

  /** `calcolaStipendio(ral, mensilita)`: contributions, the taxable
      income they leave, and every tax, credit and surtax on that income,
      put together by `Settle`. The instalments default to 13. */
  function CalcolaStipendio(ral: real, mensilita: Mensilita := 13): (r: CalcolaResult)
    ensures r.ral == ral && r.mensilita == mensilita
    ensures r.contributiInps + r.imponibileIrpef == ral
    ensures r.imponibileIrpef == ral - InpsRate * ral
    ensures r.irpefScaglioni == CalcProgressiveTax(r.imponibileIrpef, IrpefBrackets).details
    ensures 0.0 <= r.irpefNetta
  {
    var contributiInps := ral * InpsRate;
    var imponibileIrpef := ral - contributiInps;
    Settle(
      ral, mensilita, contributiInps, imponibileIrpef,
      CalcProgressiveTax(imponibileIrpef, IrpefBrackets),
      DetrazioniLavoro(imponibileIrpef),
      Bonus(imponibileIrpef),
      UlterioreDetrazione(imponibileIrpef),
      CalcProgressiveTax(imponibileIrpef, AddizionaleRegionaleLombardia).total,
      AddizionaleComunale(imponibileIrpef))
  }

  /** Steps 7 and 10 of `calcolaStipendio`: the credits only reduce the
      income tax, never below 0; net pay is the gross less every withholding
      plus the bonus, paid in `mensilita` equal instalments; the effective
      rate is the share of the gross withheld, in percent, and 0 for a
      non-positive gross. */
  function Settle(
    ral: real, mensilita: Mensilita, contributiInps: real, imponibileIrpef: real,
    irpef: Outcome, detrazioniLavoro: real, bonus: real, ulterioreDetrazione: real,
    addizionaleRegionale: real, addizionaleComunale: real): (r: CalcolaResult)
    ensures r.ral == ral && r.mensilita == mensilita
    ensures r.contributiInps == contributiInps && r.imponibileIrpef == imponibileIrpef
    ensures r.irpefLorda == irpef.total && r.irpefScaglioni == irpef.details
    ensures r.detrazioniLavoro == detrazioniLavoro && r.bonus == bonus
    ensures r.ulterioreDetrazione == ulterioreDetrazione
    ensures r.addizionaleRegionale == addizionaleRegionale && r.addizionaleComunale == addizionaleComunale
    ensures 0.0 <= r.irpefNetta
    ensures irpef.total >= detrazioniLavoro + ulterioreDetrazione ==>
              r.irpefNetta == irpef.total - detrazioniLavoro - ulterioreDetrazione
    ensures irpef.total < detrazioniLavoro + ulterioreDetrazione ==> r.irpefNetta == 0.0
    ensures r.nettoAnnuale + contributiInps + r.irpefNetta + addizionaleRegionale + addizionaleComunale
            == ral + bonus
    ensures r.nettoMensile * (mensilita as real) == r.nettoAnnuale
    ensures ral <= 0.0 ==> r.aliquotaEffettiva == 0.0
    ensures ral > 0.0 ==> r.aliquotaEffettiva * ral == (ral - r.nettoAnnuale) * 100.0
  {
    var irpefNetta := Max(0.0, irpef.total - detrazioniLavoro - ulterioreDetrazione);
    var nettoAnnuale :=
      ral - contributiInps - irpefNetta - addizionaleRegionale - addizionaleComunale + bonus;
    var nettoMensile := Ratio(nettoAnnuale, mensilita as real);
    var aliquotaEffettiva := if ral > 0.0 then Percent(ral - nettoAnnuale, ral) else 0.0;
    CalcolaResult(
      ral, mensilita, contributiInps, imponibileIrpef, irpef.total, irpef.details,
      detrazioniLavoro, bonus, ulterioreDetrazione, irpefNetta,
      addizionaleRegionale, addizionaleComunale, nettoAnnuale, nettoMensile, aliquotaEffettiva)
  }

  // ---------------------------------------------------------------------
  // The constant tables

  lemma IrpefBracketsWellFormed()
    ensures Ascending(0.0, IrpefBrackets) && EndsUnbounded(IrpefBrackets)
    ensures RatesBetween(IrpefBrackets, 0.0, 0.43)
  {
  }

  lemma RegionalBracketsWellFormed()
    ensures Ascending(0.0, AddizionaleRegionaleLombardia) && EndsUnbounded(AddizionaleRegionaleLombardia)
    ensures RatesBetween(AddizionaleRegionaleLombardia, 0.0, 0.0173)
  {
  }

  // ---------------------------------------------------------------------
  // Properties of calcolaStipendio

  /** IRPEF on a non-negative taxable income: the breakdown accounts for
      the whole income and the whole tax, which is at most 43% of it. */
  lemma IrpefOn(imponibile: real)
    requires 0.0 <= imponibile
    ensures var o := CalcProgressiveTax(imponibile, IrpefBrackets);
            && SumImponibile(o.details) == imponibile
            && SumImposta(o.details) == o.total
            && 0.0 <= o.total <= 0.43 * imponibile
  {
    IrpefBracketsWellFormed();
    CalcProgressiveTaxConservesIncome(imponibile, IrpefBrackets);
    CalcProgressiveTaxBreakdown(imponibile, IrpefBrackets);
    CalcProgressiveTaxBounded(imponibile, IrpefBrackets, 0.43);
  }

  /** The regional surtax on a non-negative taxable income is at most
      1.73% of it. */
  lemma RegionaleOn(imponibile: real)
    requires 0.0 <= imponibile
    ensures 0.0 <= CalcProgressiveTax(imponibile, AddizionaleRegionaleLombardia).total <= 0.0173 * imponibile
  {
    RegionalBracketsWellFormed();
    CalcProgressiveTaxBounded(imponibile, AddizionaleRegionaleLombardia, 0.0173);
  }

  /** Up to 28000 the whole taxable income is in the 23% band. */
  lemma IrpefFirstBand(x: real)
    requires 0.0 <= x <= 28000.0
    ensures CalcProgressiveTax(x, IrpefBrackets).total == 0.23 * x
  {
    IrpefBracketsWellFormed();
    CalcProgressiveTaxMatchesReference(x, IrpefBrackets);
    assert IrpefBrackets[1..] == [Bracket(Finite(50000.0), 0.33), Bracket(Infinity, 0.43)];
    assert IrpefBrackets[1..][1..] == [Bracket(Infinity, 0.43)];
  }

  /** Up to 15000 the whole taxable income is in the 1.23% regional band. */
  lemma RegionaleFirstBand(x: real)
    requires 0.0 <= x <= 15000.0
    ensures CalcProgressiveTax(x, AddizionaleRegionaleLombardia).total == 0.0123 * x
  {
    RegionalBracketsWellFormed();
    CalcProgressiveTaxMatchesReference(x, AddizionaleRegionaleLombardia);
  }

  /** Between 15000 and 28000 the regional surtax is 1.23% of the first
      15000 and 1.58% of the rest. */
  lemma RegionaleSecondBand(x: real)
    requires 15000.0 < x <= 28000.0
    ensures CalcProgressiveTax(x, AddizionaleRegionaleLombardia).total == 0.0123 * 15000.0 + 0.0158 * (x - 15000.0)
  {
    var t := AddizionaleRegionaleLombardia;
    RegionalBracketsWellFormed();
    CalcProgressiveTaxMatchesReference(x, t);
    assert t[1..] == [Bracket(Finite(28000.0), 0.0158), Bracket(Finite(50000.0), 0.0172), Bracket(Infinity, 0.0173)];
    assert t[1..][1..] == [Bracket(Finite(50000.0), 0.0172), Bracket(Infinity, 0.0173)];
    assert t[1..][1..][1..] == [Bracket(Infinity, 0.0173)];
  }

  /** For a non-negative salary: the IRPEF breakdown accounts for the whole
      taxable income and the whole gross tax; the gross tax is at most the
      top rate on the taxable income; the credits only lower it, never below
      0; and the regional surtax is at most its top rate. */
  lemma CalcolaStipendioTaxes(ral: real, mensilita: Mensilita)
    requires 0.0 <= ral
    ensures var r := CalcolaStipendio(ral, mensilita);
            && SumImponibile(r.irpefScaglioni) == r.imponibileIrpef
            && SumImposta(r.irpefScaglioni) == r.irpefLorda
            && 0.0 <= r.irpefNetta <= r.irpefLorda <= 0.43 * r.imponibileIrpef
            && 0.0 <= r.addizionaleRegionale <= 0.0173 * r.imponibileIrpef
  {
    var r := CalcolaStipendio(ral, mensilita);
    IrpefOn(r.imponibileIrpef);
    RegionaleOn(r.imponibileIrpef);
  }

  /** For a positive salary the net pay is positive and below the gross,
      so the effective rate lies strictly between 0 and 100 percent: the
      bonus (at most 7.1% of the taxable income) never outweighs the
      contributions (9.19% of the gross). */
  lemma CalcolaStipendioNetBetween(ral: real, mensilita: Mensilita)
    requires 0.0 < ral
    ensures var r := CalcolaStipendio(ral, mensilita);
            && 0.0 < r.nettoAnnuale < ral
            && 0.0 < r.aliquotaEffettiva < 100.0
  {
    var r := CalcolaStipendio(ral, mensilita);
    CalcolaStipendioTaxes(ral, mensilita);
    NetBetween(r);
    PercentBetween(ral, r.nettoAnnuale, r.aliquotaEffettiva);
  }

  /** The arithmetic behind `CalcolaStipendioNetBetween`, on the result's
      fields alone. */
  lemma NetBetween(r: CalcolaResult)
    requires 0.0 < r.ral
    requires r.imponibileIrpef == r.ral - InpsRate * r.ral
    requires r.contributiInps + r.imponibileIrpef == r.ral
    requires 0.0 <= r.irpefNetta <= 0.43 * r.imponibileIrpef
    requires 0.0 <= r.addizionaleRegionale <= 0.0173 * r.imponibileIrpef
    requires 0.0 <= r.addizionaleComunale <= 0.008 * r.imponibileIrpef
    requires 0.0 <= r.bonus <= 0.071 * r.imponibileIrpef
    requires r.nettoAnnuale + r.contributiInps + r.irpefNetta + r.addizionaleRegionale + r.addizionaleComunale
             == r.ral + r.bonus
    ensures 0.0 < r.nettoAnnuale < r.ral
  {
  }

  lemma PercentBetween(ral: real, netto: real, pct: real)
    requires 0.0 < netto < ral
    requires pct == Percent(ral - netto, ral)
    ensures 0.0 < pct < 100.0
  {
    RatioBetween(ral - netto, ral);
  }

  /** A zero salary owes and earns nothing, and its effective rate is 0;
      only the employment credit, which does not depend on there being any
      tax to reduce, stays at its flat amount of 1955. */
  lemma CalcolaStipendioZero(mensilita: Mensilita)
    ensures var r := CalcolaStipendio(0.0, mensilita);
            && r.contributiInps == 0.0 && r.imponibileIrpef == 0.0
            && r.irpefLorda == 0.0 && r.irpefScaglioni == []
            && r.detrazioniLavoro == 1955.0
            && r.bonus == 0.0 && r.ulterioreDetrazione == 0.0 && r.irpefNetta == 0.0
            && r.addizionaleRegionale == 0.0 && r.addizionaleComunale == 0.0
            && r.nettoAnnuale == 0.0 && r.nettoMensile == 0.0 && r.aliquotaEffettiva == 0.0
  {
  }

  // ---------------------------------------------------------------------
  // Worked cases

  /** A gross of 30000 paid in 12 instalments: taxable income 27243, in the
      second band of the employment credit and the 23% IRPEF band; the full
      further credit; no bonus; the regional surtax across its first two
      bands; the municipal surtax on the whole income; and the net pay,
      monthly pay and effective rate that follow. */
  lemma CalcolaStipendioAt30000()
    ensures var r := CalcolaStipendio(30000.0, 12);
            && r.contributiInps == 2757.0
            && r.imponibileIrpef == 27243.0
            && r.irpefScaglioni == [Detail(0.0, Finite(28000.0), 0.23, 27243.0, 27243.0 * 0.23)]
            && r.irpefLorda == 0.23 * 27243.0
            && r.detrazioniLavoro == 1910.0 + 1190.0 * 757.0 / 13000.0
            && r.bonus == 0.0
            && r.ulterioreDetrazione == 1000.0
            && r.irpefNetta == 0.23 * 27243.0 - (1910.0 + 1190.0 * 757.0 / 13000.0) - 1000.0
            && r.addizionaleRegionale == 0.0123 * 15000.0 + 0.0158 * 12243.0
            && r.addizionaleComunale == 0.008 * 27243.0
            && r.nettoAnnuale == 27243.0 - r.irpefNetta - r.addizionaleRegionale - r.addizionaleComunale
            && r.nettoMensile * 12.0 == r.nettoAnnuale
            && r.aliquotaEffettiva * 30000.0 == (30000.0 - r.nettoAnnuale) * 100.0
  {
  }

  /** A gross of 15000: taxable income 13621.5, in the 5.3% bonus tier, the
      flat band of the employment credit and the first regional band, below
      the municipal exemption; with the net pay, monthly pay and effective
      rate that follow, for any number of instalments. */
  lemma CalcolaStipendioAt15000(mensilita: Mensilita)
    ensures var r := CalcolaStipendio(15000.0, mensilita);
            && r.contributiInps == 1378.5
            && r.imponibileIrpef == 13621.5
            && r.irpefScaglioni == [Detail(0.0, Finite(28000.0), 0.23, 13621.5, 13621.5 * 0.23)]
            && r.irpefLorda == 0.23 * 13621.5
            && r.bonus == 0.053 * 13621.5
            && r.detrazioniLavoro == 1955.0
            && r.ulterioreDetrazione == 0.0
            && r.irpefNetta == 0.23 * 13621.5 - 1955.0
            && r.addizionaleRegionale == 0.0123 * 13621.5
            && r.addizionaleComunale == 0.0
            && r.nettoAnnuale == 13621.5 - r.irpefNetta - r.addizionaleRegionale + r.bonus
            && r.nettoMensile * (mensilita as real) == r.nettoAnnuale
            && r.aliquotaEffettiva * 15000.0 == (15000.0 - r.nettoAnnuale) * 100.0
  {
  }

  /** A gross of 100000: taxable income 90810, taxed in all three IRPEF
      bands, the top one unbounded at 43%; no credit and no bonus. */
  lemma CalcolaStipendioAt100000(mensilita: Mensilita)
    ensures var r := CalcolaStipendio(100000.0, mensilita);
            && r.imponibileIrpef == 90810.0
            && |r.irpefScaglioni| == 3
            && r.irpefScaglioni[2].max == Infinity && r.irpefScaglioni[2].aliquota == 0.43
            && r.irpefLorda == 28000.0 * 0.23 + 22000.0 * 0.33 + 40810.0 * 0.43
            && r.detrazioniLavoro == 0.0 && r.ulterioreDetrazione == 0.0 && r.bonus == 0.0
  {
  }

  /** Net pay is not monotone in the gross: a raise that lifts the taxable
      income from 23000 to 23010 crosses the municipal exemption, and the
      surtax on the whole income takes more than the raise brings. */
  lemma NetPayDropsAtComunaleThreshold(mensilita: Mensilita)
    ensures var lo, hi := 23000.0 / 0.9081, 23010.0 / 0.9081;
            && lo < hi
            && CalcolaStipendio(hi, mensilita).nettoAnnuale < CalcolaStipendio(lo, mensilita).nettoAnnuale - 170.0
  {
    var lo, hi := 23000.0 / 0.9081, 23010.0 / 0.9081;
    var a, b := CalcolaStipendio(lo, mensilita), CalcolaStipendio(hi, mensilita);
    assert a.imponibileIrpef == 23000.0;
    assert b.imponibileIrpef == 23010.0;
    IrpefFirstBand(23000.0);
    IrpefFirstBand(23010.0);
    RegionaleSecondBand(23000.0);
    RegionaleSecondBand(23010.0);
  }

  /** The same happens where the bonus changes tier: from a taxable income
      of 8500 to 8510 the bonus rate falls from 7.1% to 5.3% of the whole
      income. */
  lemma NetPayDropsAtBonusTier(mensilita: Mensilita)
    ensures var lo, hi := 8500.0 / 0.9081, 8510.0 / 0.9081;
            && lo < hi
            && CalcolaStipendio(hi, mensilita).nettoAnnuale < CalcolaStipendio(lo, mensilita).nettoAnnuale - 100.0
  {
    var lo, hi := 8500.0 / 0.9081, 8510.0 / 0.9081;
    var a, b := CalcolaStipendio(lo, mensilita), CalcolaStipendio(hi, mensilita);
    assert a.imponibileIrpef == 8500.0;
    assert b.imponibileIrpef == 8510.0;
    BonusTiersApply(8500.0);
    BonusTiersApply(8510.0);
  }
}
