/** The piecewise credits, bonus and municipal surtax of `lib/calcola.ts`:
    `calcDetrazioniLavoro`, `calcBonus`, `calcUlterioreDetrazione` and
    `calcAddizionaleComunale`. Each is a function of the taxable income
    (`reddito`, income after social contributions). */
module Deductions {
  import opened Numeric
  import opened ProgressiveTax

  // ---------------------------------------------------------------------
  // Employment tax credit (DETRAZIONI_LAVORO)

  const Soglia1: real := 15000.0
  const Soglia2: real := 28000.0
  const Soglia3: real := 50000.0
  const ImportoBase1: real := 1955.0
  const ImportoMinimo1: real := 690.0
  const ImportoBase2: real := 1910.0
  const Incremento2: real := 1190.0
  const Divisore2: real := 13000.0
  const Divisore3: real := 22000.0

  /** `calcDetrazioniLavoro`: a flat credit up to the first threshold (the
      larger of the base amount and the configured minimum), then a
      decreasing line to the second threshold, then a line falling to 0 at
      the third, and nothing above it. */
  function DetrazioniLavoro(reddito: real): (r: real)
    ensures 0.0 <= r <= ImportoBase2 + Incremento2
    ensures reddito <= Soglia1 ==> r == ImportoBase1
    ensures r == ImportoBase2 <==> reddito == Soglia2
    ensures r == 0.0 <==> reddito >= Soglia3
  {
    if reddito <= Soglia1 then Max(ImportoBase1, ImportoMinimo1)
    else if reddito <= Soglia2 then ImportoBase2 + Incremento2 * ((Soglia2 - reddito) / Divisore2)
    else if reddito <= Soglia3 then ImportoBase2 * ((Soglia3 - reddito) / Divisore3)
    else 0.0
  }

  /** Above the first threshold the credit never grows with income and
      shrinks by at most 1190/13000 per euro: it is non-increasing and
      continuous there, in particular at 28000 (where both lines give 1910)
      and at 50000 (where it reaches 0). */
  lemma DetrazioniLavoroTapers(x: real, y: real)
    requires Soglia1 < x <= y
    ensures 0.0 <= DetrazioniLavoro(x) - DetrazioniLavoro(y) <= (Incremento2 / Divisore2) * (y - x)
  {
  }

  /** At the first threshold the credit is not continuous: just above it the
      credit is more than 1000 higher than at it. */
  lemma DetrazioniLavoroJumpsAtSoglia1(x: real)
    requires Soglia1 < x <= Soglia1 + 1000.0
    ensures DetrazioniLavoro(x) > DetrazioniLavoro(Soglia1) + 1000.0
  {
  }

  // ---------------------------------------------------------------------
  // Low-income bonus (BONUS_BRACKETS)

  /** The bonus tiers: income up to each limit earns the rate on the whole
      income. There is no unbounded tier. */
  const BonusTiers: seq<Bracket> := [
    Bracket(Finite(8500.0), 0.071),
    Bracket(Finite(15000.0), 0.053),
    Bracket(Finite(20000.0), 0.048)
  ]

  const BonusSoglia: real := 20000.0

  /** `calcBonus`: 0 above 20000; otherwise the income times the rate of the
      first tier whose limit is at least the income. */
  function Bonus(reddito: real): (r: real)
    ensures reddito > BonusSoglia ==> r == 0.0
    ensures 0.0 <= reddito ==> 0.0 <= r <= 0.071 * reddito
  {
    if reddito > BonusSoglia then 0.0
    else
      BonusRate(reddito);
      reddito * RateAt(reddito, BonusTiers)
  }

  /** The rate `calcBonus` applies, tier by tier. */
  lemma BonusRate(x: real)
    ensures x <= 8500.0 ==> RateAt(x, BonusTiers) == 0.071
    ensures 8500.0 < x <= 15000.0 ==> RateAt(x, BonusTiers) == 0.053
    ensures 15000.0 < x <= 20000.0 ==> RateAt(x, BonusTiers) == 0.048
    ensures 20000.0 < x ==> RateAt(x, BonusTiers) == 0.0
  {
  }

  /** The bonus tier by tier, on the whole income (a negative income falls
      in the first tier). */
  lemma BonusTiersApply(x: real)
    ensures x <= 8500.0 ==> Bonus(x) == 0.071 * x
    ensures 8500.0 < x <= 15000.0 ==> Bonus(x) == 0.053 * x
    ensures 15000.0 < x <= 20000.0 ==> Bonus(x) == 0.048 * x
  {
    BonusRate(x);
  }

  /** Since each tier's rate applies to the whole income, crossing a tier
      limit lowers the bonus: just above 8500 it is more than 140 lower
      than at 8500. */
  lemma BonusDropsAtTier(x: real)
    requires 8500.0 < x <= 8600.0
    ensures Bonus(x) < Bonus(8500.0) - 140.0
  {
    BonusRate(x);
    BonusRate(8500.0);
  }

  // ---------------------------------------------------------------------
  // Further tax credit (ULTERIORE_DETRAZIONE)

  const UlterioreMin: real := 20000.0
  const UlterioreMid: real := 32000.0
  const UlterioreMax: real := 40000.0
  const UlterioreImporto: real := 1000.0
  const UlterioreDivisore: real := 8000.0

  /** `calcUlterioreDetrazione`: nothing up to 20000 or above 40000; the
      full amount up to 32000; then a line falling to 0 at 40000. */
  function UlterioreDetrazione(reddito: real): (r: real)
    ensures 0.0 <= r <= UlterioreImporto
    ensures r == 0.0 <==> reddito <= UlterioreMin || reddito >= UlterioreMax
    ensures r == UlterioreImporto <==> UlterioreMin < reddito <= UlterioreMid
  {
    if reddito <= UlterioreMin || reddito > UlterioreMax then 0.0
    else if reddito <= UlterioreMid then UlterioreImporto
    else UlterioreImporto * ((UlterioreMax - reddito) / UlterioreDivisore)
  }

  /** Above 20000 the credit never grows with income and shrinks by at most
      1000/8000 per euro: it tapers continuously to 0 at 40000. */
  lemma UlterioreDetrazioneTapers(x: real, y: real)
    requires UlterioreMin < x <= y
    ensures 0.0 <= UlterioreDetrazione(x) - UlterioreDetrazione(y) <= (UlterioreImporto / UlterioreDivisore) * (y - x)
  {
  }

  // ---------------------------------------------------------------------
  // Municipal surtax (ADDIZIONALE_COMUNALE_MILANO)

  const ComunaleAliquota: real := 0.008
  const ComunaleEsenzione: real := 23000.0

  /** `calcAddizionaleComunale`: nothing up to the exemption threshold, the
      flat rate on the whole income above it. */
  function AddizionaleComunale(imponibile: real): (r: real)
    ensures r == 0.0 <==> imponibile <= ComunaleEsenzione
    ensures 0.0 <= r
    ensures imponibile > ComunaleEsenzione ==> r / imponibile == ComunaleAliquota
    ensures 0.0 <= imponibile ==> r <= ComunaleAliquota * imponibile
  {
    if imponibile <= ComunaleEsenzione then 0.0
    else imponibile * ComunaleAliquota
  }

  /** The surtax is a cliff, not a band: once the threshold is crossed it is
      184 more than a marginal band above the threshold would levy, and so
      more than 184 in all. */
  lemma AddizionaleComunaleCliff(x: real)
    requires x > ComunaleEsenzione
    ensures AddizionaleComunale(x) - ComunaleAliquota * (x - ComunaleEsenzione) == ComunaleAliquota * ComunaleEsenzione
    ensures AddizionaleComunale(x) > 184.0
  {
  }

  /** A higher income never pays less surtax. */
  lemma AddizionaleComunaleMonotone(x: real, y: real)
    requires x <= y
    ensures AddizionaleComunale(x) <= AddizionaleComunale(y)
  {
  }
}
