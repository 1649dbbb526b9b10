# Italian net-salary calculator (2026, Milan) — a Dafny model

This project models the calculation core of a salary calculator for an
employee in Milan (Lombardy) under the 2026 Italian rules. From a gross
annual salary (RAL) and a number of yearly instalments (12, 13 or 14), the
core computes these items in order:

1. the INPS social contributions, a flat 9.19%;
2. the IRPEF taxable income;
3. the gross IRPEF from a progressive bracket table;
4. the employment tax credit (art. 13 TUIR), the further credit
   (L. 207/2024) and the low-income bonus;
5. the Lombardy regional surtax, using the same progressive engine;
6. the Milan municipal surtax, a flat rate with an exemption cliff;
7. the net annual pay, the net monthly pay and the effective rate.

The model also covers the pure logic of the calculator form:

- how the salary field is read;
- the guard that ignores a non-positive salary;
- the arithmetic of a breakdown row: its percentage of the gross, its bar width and its sign;
- the choice of the marginal rates named in two row labels.

Amounts are exact rationals (`real`). A bracket limit is `Finite(x)` or
`Infinity`.

Two behaviours of the code are worth knowing:

- A zero gross does not give all-zero outputs. `calcDetrazioniLavoro(0)` is
  1955, so `detrazioniLavoro` is 1955 while `irpefNetta` is still 0
  (`CalcolaStipendioZero`).
- Net pay is not monotone in the gross. It drops when the taxable income
  crosses the municipal exemption at 23000, where the 0.8% applies to the
  whole income (`NetPayDropsAtComunaleThreshold`). It also drops at the
  bonus tier limit 8500, where the lower rate applies to the whole income
  (`NetPayDropsAtBonusTier`).

Files:

- `numeric.dfy` (module `Numeric`): min, max, absolute value, exact division and percentage, and two monotonicity facts about products.
- `progressive_tax.dfy` (module `ProgressiveTax`): the table-driven progressive tax and its breakdown rows. The engine works in three steps:
  - `Bands` follows the loop's control, deciding which bracket gets how much income;
  - `Rows` taxes each band;
  - the total is the sum of the rows.
  
  `Reference` is an independent closed-form definition (the sum over brackets of rate × the part of the income inside the bracket). The lemmas prove that the engine agrees with it, conserves income, is monotone and is bounded by its top rate.
- `deductions.dfy` (module `Deductions`): the employment credit, the bonus, the further credit and the municipal surtax.
- `calcola.dfy` (module `Calcola`): the constant tables, the result record and `CalcolaStipendio`, with its accounting identities, bounds and worked cases.
- `ral_calculator.dfy` (module `RalCalculator`): the form logic. It includes an Italian thousands-grouping rendering of a number, which is the partner the field parser is proved to invert.

## Model

| member | source | states |
|---|---|---|
| ProgressiveTax.CalcProgressiveTax | lib/calcola.ts:81-108 | An income ≤ 0 yields total 0 and no rows; there are never more rows than brackets |
| ProgressiveTax.Levy | lib/calcola.ts:94-102 | A pushed row keeps its band's `min`, `max`, rate and amount, and its `imposta` is that amount times that rate |
| ProgressiveTax.Rows | lib/calcola.ts:94-102 | One row per band, in order: dropping the taxes gives back the bands, and every row's `imposta` is `imponibile × aliquota` |
| ProgressiveTax.Bands | lib/calcola.ts:90-105 | The loop stops as soon as the remaining income reaches 0: a non-positive remainder emits no band, and there is at most one band per bracket |
| ProgressiveTax.BandsContiguous | lib/calcola.ts:86-104 | Each band starts where the previous one ended (`prevLimit`), and nothing follows an unbounded band |
| ProgressiveTax.BandsFollowTable | lib/calcola.ts:90-102 | Band i has bracket i's limit as its `max` and bracket i's rate as its `aliquota` |
| ProgressiveTax.BandsFilled | lib/calcola.ts:91-93 | With ascending limits every emitted band holds a positive amount no larger than `max − min` |
| ProgressiveTax.BandsConserveIncome | lib/calcola.ts:85-103 | When the table ends unbounded, the amounts taken from the remaining income add up to all of it |
| ProgressiveTax.BandsLastContains | lib/calcola.ts:90-105 | For a positive income the last band is the bracket that contains the income |
| ProgressiveTax.RowsSumImponibile | lib/calcola.ts:96-102 | The rows' `imponibile` values add up to the bands' taxable amounts |
| ProgressiveTax.CalcProgressiveTaxBreakdown | lib/calcola.ts:86-107 | The rows start at 0 and are contiguous; they follow the table; each row's `imposta` is `imponibile × aliquota`. That their `imposta` values add up to `total` holds by construction, because the running sum is modelled as the sum of the rows |
| ProgressiveTax.CalcProgressiveTaxConservesIncome | lib/calcola.ts:81-108 | For a non-negative income and a table ending unbounded, the rows' `imponibile` values add up to the income |
| ProgressiveTax.CalcProgressiveTaxBandsFilled | lib/calcola.ts:91-93 | With ascending limits no row is empty and no row exceeds its band |
| ProgressiveTax.CalcProgressiveTaxLastBand | lib/calcola.ts:90-105 | For a positive income the last row's rate is the rate of the bracket containing the income |
| ProgressiveTax.BandsPeel | lib/calcola.ts:90-105 | The tax from a bracket onward is that bracket's share plus the tax from the next bracket onward |
| ProgressiveTax.BandsMatchReference | lib/calcola.ts:90-105 | The loop's tax equals the closed-form sum of rate × the income inside each bracket |
| ProgressiveTax.CalcProgressiveTaxMatchesReference | lib/calcola.ts:81-108 | `total` equals the closed-form bracket sum for every income |
| ProgressiveTax.ReferenceMonotone | lib/calcola.ts:90-105 | With ascending limits and non-negative rates, more income never gives less tax in the closed form |
| ProgressiveTax.CalcProgressiveTaxMonotone | lib/calcola.ts:81-108 | With ascending limits and non-negative rates, `total` is non-decreasing in the income |
| ProgressiveTax.RowsBounded | lib/calcola.ts:94-95 | The sum of the rows' taxes lies between 0 and the top rate times the taxed amount |
| ProgressiveTax.CalcProgressiveTaxBounded | lib/calcola.ts:81-108 | `total` is non-negative and, for a non-negative income, at most the highest rate times the income |
| Deductions.DetrazioniLavoro | lib/calcola.ts:112-124 | The credit is 1955 up to 15000; it lies in [0, 3100]; it equals 1910 exactly at 28000; it is 0 exactly from 50000 upward |
| Deductions.DetrazioniLavoroTapers | lib/calcola.ts:117-123 | Above 15000 the credit never increases and falls by at most 1190/13000 per euro, so it is continuous at 28000 and 50000 |
| Deductions.DetrazioniLavoroJumpsAtSoglia1 | lib/calcola.ts:114-118 | The credit is not continuous at 15000: just above it the credit is more than 1000 higher |
| Deductions.Bonus | lib/calcola.ts:128-136 | The bonus is 0 above 20000; for a non-negative income it lies in [0, 0.071 × income] |
| Deductions.BonusRate | lib/calcola.ts:128-136 | The rate is that of the first tier whose limit is at least the income: 7.1%, 5.3% or 4.8%, and 0 above 20000 |
| Deductions.BonusTiersApply | lib/calcola.ts:128-136 | Within each tier the bonus is the tier's rate times the whole income; a negative income falls in the first tier |
| Deductions.BonusDropsAtTier | lib/calcola.ts:128-136 | Crossing the 8500 tier limit lowers the bonus by more than 140 |
| Deductions.UlterioreDetrazione | lib/calcola.ts:140-145 | The credit lies in [0, 1000]; it is 0 exactly when income ≤ 20000 or ≥ 40000; it is 1000 exactly on (20000, 32000] |
| Deductions.UlterioreDetrazioneTapers | lib/calcola.ts:142-144 | Above 20000 the credit never increases and falls by at most 1/8 per euro, reaching 0 continuously at 40000 |
| Deductions.AddizionaleComunale | lib/calcola.ts:149-152 | The surtax is 0 exactly up to 23000; above that it is 0.8% of the whole income |
| Deductions.AddizionaleComunaleCliff | lib/calcola.ts:149-152 | Above 23000 the surtax exceeds a marginal 0.8% band by 184, so it is always more than 184 |
| Deductions.AddizionaleComunaleMonotone | lib/calcola.ts:149-152 | More income never pays less municipal surtax |
| Calcola.CalcolaStipendio | lib/calcola.ts:156-213 | The instalments default to 13; `ral` and `mensilita` pass through; contributions plus taxable income equal the gross; the taxable income is `ral − 0.0919·ral`; the IRPEF rows are the progressive breakdown of the taxable income; `irpefNetta ≥ 0` |
| Calcola.Settle | lib/calcola.ts:178-213 | Net IRPEF is gross IRPEF minus both credits, floored at 0. Net pay plus contributions, net IRPEF and both surtaxes equals the gross plus the bonus. The monthly pay times the instalments equals the annual pay. The effective rate is 0 for a non-positive gross; otherwise it times the gross equals 100 × (gross − net) |
| Calcola.IrpefBracketsWellFormed | lib/calcola.ts:5-9 | The IRPEF table ascends from 0, ends unbounded and has rates in [0, 0.43] |
| Calcola.RegionalBracketsWellFormed | lib/calcola.ts:37-42 | The Lombardy table ascends from 0, ends unbounded and has rates in [0, 0.0173] |
| Calcola.IrpefFirstBand | lib/calcola.ts:5-9 | Up to 28000 of taxable income, IRPEF is 23% of it |
| Calcola.RegionaleFirstBand | lib/calcola.ts:37-42 | Up to 15000 of taxable income, the regional surtax is 1.23% of it |
| Calcola.RegionaleSecondBand | lib/calcola.ts:37-42 | Between 15000 and 28000 the regional surtax is 1.23% of the first 15000 plus 1.58% of the rest |
| Calcola.CalcolaStipendioTaxes | lib/calcola.ts:161-185 | For a gross ≥ 0: the IRPEF rows account for all the taxable income and all the gross IRPEF; `0 ≤ irpefNetta ≤ irpefLorda ≤ 43%` of the taxable income; the regional surtax is at most 1.73% of it |
| Calcola.CalcolaStipendioNetBetween | lib/calcola.ts:156-195 | For a positive gross, the net pay is positive and below the gross, and the effective rate is strictly between 0 and 100 |
| Calcola.CalcolaStipendioZero | lib/calcola.ts:156-213 | A zero gross gives zero for every amount except the employment credit, which stays at 1955 |
| Calcola.CalcolaStipendioAt30000 | lib/calcola.ts:156-213 | A 30000 gross in 12 instalments, every field: contributions 2757; taxable 27243; one IRPEF breakdown row, the 23% band from 0 to 28000 holding all 27243; IRPEF 23% of it; the credit on its taper; the full further credit; no bonus; the regional surtax over two bands; the municipal 0.8%; net pay as the taxable income less net IRPEF and both surtaxes; monthly pay × 12 = net pay; the effective rate from net pay |
| Calcola.CalcolaStipendioAt15000 | lib/calcola.ts:156-213 | A 15000 gross, every field, for any instalments: contributions 1378.5; taxable 13621.5; one IRPEF breakdown row, the 23% band from 0 to 28000 holding all 13621.5; IRPEF 23% of it less the flat 1955 credit; no further credit; the bonus at 5.3%; the regional surtax at 1.23%; no municipal surtax; net pay with the bonus added; monthly pay × instalments = net pay; the effective rate from net pay |
| Calcola.CalcolaStipendioAt100000 | lib/calcola.ts:156-213 | The breakdown of a 100000 gross: taxable 90810, three IRPEF rows ending in the unbounded 43% band, and no credits or bonus |
| Calcola.NetPayDropsAtComunaleThreshold | lib/calcola.ts:188-192 | Raising the taxable income from 23000 to 23010 lowers the net pay by more than 170 |
| Calcola.NetPayDropsAtBonusTier | lib/calcola.ts:173-192 | Raising the taxable income from 8500 to 8510 lowers the net pay by more than 100 |
| RalCalculator.Digits | components/RalCalculator.tsx:24 | What is kept is made only of decimal digits and is no longer than the field |
| RalCalculator.DecimalValue | components/RalCalculator.tsx:25 | A string of k digits is worth less than 10^k, and is worth 0 exactly when all its digits are '0' |
| RalCalculator.ParseInputValue | components/RalCalculator.tsx:23-26 | The field reads 0 exactly when it holds no digit other than '0' (so an empty field reads 0); a field with k digits reads below 10^k |
| RalCalculator.DigitsAppend | components/RalCalculator.tsx:24 | Stripping non-digits distributes over concatenation |
| RalCalculator.ParseWithoutDigits | components/RalCalculator.tsx:23-26 | A field with no decimal digit reads as 0 |
| RalCalculator.ParseIgnoresNonDigits | components/RalCalculator.tsx:24-25 | Inserting non-digit characters anywhere, including at the end, does not change the value read |
| RalCalculator.ToDecimalValue | components/RalCalculator.tsx:25 | The digit string's base-10 value inverts writing a number in decimal |
| RalCalculator.GroupedDigits | components/RalCalculator.tsx:24-25 | The digits of a '.'-grouped rendering of n are non-empty and have value n |
| RalCalculator.ParseGrouped | components/RalCalculator.tsx:23-26 | Reading back a number written plainly or with '.' thousands separators gives the number (for example "30.000" reads as 30000) |
| RalCalculator.HandleCalcola | components/RalCalculator.tsx:73-86 | A calculation happens exactly when the value read is > 0, on that value and the chosen instalments |
| RalCalculator.HandleCalcolaNetBetween | components/RalCalculator.tsx:73-86 | Every calculation the form starts has net pay in (0, gross) and an effective rate in (0, 100) |
| RalCalculator.HandleCalcolaGrouped | components/RalCalculator.tsx:73-86 | A salary typed with thousands separators is calculated for exactly that salary; a zero field and an empty field are ignored |
| RalCalculator.Pct | components/RalCalculator.tsx:448-449 | The percentage is ≥ 0; for a positive gross, it times the gross equals 100 × |amount|; otherwise it is 0 |
| RalCalculator.BarWidth | components/RalCalculator.tsx:450 | The bar width is in [0, 100], never above the percentage, and either equals it or is full |
| RalCalculator.BarWidthScale | components/RalCalculator.tsx:448-450 | An amount up to the gross is drawn to scale; one at or above the gross fills the bar |
| RalCalculator.Sign | components/RalCalculator.tsx:452 | The prefix is "−" exactly when amount < 0; it is "+" exactly when amount > 0 on a positive row; otherwise it is empty |
| RalCalculator.ShareRow | components/RalCalculator.tsx:448-452 | A deduction that is a fixed rate of a positive gross is shown as that rate in percent, with "−" |
| RalCalculator.InpsRow | components/RalCalculator.tsx:305-311 | The INPS row of any positive gross shows 9.19% with a minus sign |
| RalCalculator.IrpefMarginale | components/RalCalculator.tsx:280-283 | The IRPEF label's rate is the last row's `aliquota`, or 23% with no rows; `IrpefMarginaleIsBracketRate` states what that means |
| RalCalculator.AddRegMarginale | components/RalCalculator.tsx:286-290 | The regional label's rate, chosen by the 15000/28000/50000 thresholds, equals the Lombardy table's rate for the bracket holding the taxable income |
| RalCalculator.IrpefMarginaleIsBracketRate | components/RalCalculator.tsx:280-283 | The IRPEF label's rate (last row, or 23% with no rows) is the rate of the bracket holding the taxable income, for every gross |
| RalCalculator.AddRegMarginaleIsBracketRate | components/RalCalculator.tsx:286-290 | For a positive income, the regional label names the rate of the last band of the regional breakdown |

## Left out

- IEEE-754 doubles: amounts are exact rationals, so no rounding and no `Infinity` arithmetic are modelled. The unbounded bracket is the `Infinity` constructor of `Limit`.
- `formatEur`, `formatPercent` and `formatInputValue`: they are locale formatting through `toLocaleString("it-IT")` and `Math.round`. `Grouped` stands in for the thousands grouping the input field displays. It is used only as the rendering that the parser reads back.
- The label texts (`"23%"`, `"1,58%"`, `toFixed(0)`): the labels are modelled as the rates they name.
- `useCountUp`, the React state, the 600 ms `setTimeout`, JSX and CSS: these are animation, timing and layout. `HandleCalcola` returns the calculation the timer would store.
- `app/page.tsx`: static page layout.
- RalCalculator.ParseInputValue: does not model `parseInt` losing precision on digit strings beyond 2^53. The value read is the exact natural number.
- Other regions, years, dependents and contract types: the constants are the fixed 2026 Milan ones.
