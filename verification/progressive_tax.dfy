/** The table-driven progressive tax engine of `lib/calcola.ts`
    (`calcProgressiveTax`), used for both national IRPEF and the Lombardy
    regional surtax.

    A table is an ordered sequence of brackets `(limit, rate)`; the last
    limit of the IRPEF and regional tables is `Infinity`, modelled here by
    the `Infinity` constructor of `Limit` rather than a floating-point value.

    `calcProgressiveTax`'s loop does two things per bracket: it measures how much of
    the remaining income falls in the band (`taxable = min(remaining,
    limit - prevLimit)`), and it taxes that amount, adding the tax to the
    running total and pushing a detail row. The model keeps the two apart:
    `Bands` is the loop's control (which bands, how much in each), `Rows`
    taxes each band, and the total is the sum of the rows' taxes, which is
    what the running total holds when the loop ends. */
module ProgressiveTax {
  import opened Numeric

  /** Upper end of a bracket: a finite amount or the unbounded top band. */
  datatype Limit = Finite(value: real) | Infinity

  datatype Bracket = Bracket(limit: Limit, rate: real)

  /** A band as the loop measures it: where it starts and ends, its rate,
      and how much of the income falls in it. */
  datatype Band = Band(min: real, max: Limit, rate: real, taxable: real)

  /** One row of the breakdown (`IrpefScaglione`): a band together with the
      tax levied in it. */
  datatype Detail = Detail(min: real, max: Limit, aliquota: real, imponibile: real, imposta: real)

  /** What `calcProgressiveTax` returns: the tax and the bands it touched. */
  datatype Outcome = Outcome(total: real, details: seq<Detail>)

  /** The last bracket is unbounded, so no income is left untaxed. */
  predicate EndsUnbounded(table: seq<Bracket>)
  {
    |table| > 0 && table[|table| - 1].limit == Infinity
  }

  /** Limits strictly increase above `prev`, and only the last one may be
      unbounded: the brackets partition the line above `prev`. */
  predicate Ascending(prev: real, table: seq<Bracket>)
    decreases |table|
  {
    |table| == 0 ||
    match table[0].limit
    case Infinity => |table| == 1
    case Finite(l) => prev < l && Ascending(l, table[1..])
  }

  predicate RatesBetween(table: seq<Bracket>, lo: real, hi: real)
  {
    forall i :: 0 <= i < |table| ==> lo <= table[i].rate <= hi
  }

  predicate RatesNonNegative(table: seq<Bracket>)
  {
    forall i :: 0 <= i < |table| ==> 0.0 <= table[i].rate
  }

  /** The loop's control from the current bracket on: `remaining` income is
      still to be placed, and the current band starts at `prevLimit`. The
      loop stops as soon as nothing remains. An unbounded bracket absorbs
      all that remains, after which the loop would stop on
      `remaining <= 0`, so the recursion stops there. */
  function Bands(remaining: real, prevLimit: real, table: seq<Bracket>): (bs: seq<Band>)
    ensures |bs| <= |table|
    ensures remaining <= 0.0 ==> bs == []
    decreases |table|
  {
    if |table| == 0 || remaining <= 0.0 then []
    else match table[0].limit
      case Infinity => [Band(prevLimit, Infinity, table[0].rate, remaining)]
      case Finite(l) =>
        var taxable := Min(remaining, l - prevLimit);
        [Band(prevLimit, table[0].limit, table[0].rate, taxable)] + Bands(remaining - taxable, l, table[1..])
  }

  function SumImposta(ds: seq<Detail>): real
  {
    if |ds| == 0 then 0.0 else ds[0].imposta + SumImposta(ds[1..])
  }

  function SumImponibile(ds: seq<Detail>): real
  {
    if |ds| == 0 then 0.0 else ds[0].imponibile + SumImponibile(ds[1..])
  }

  /** The bands the detail rows describe, without their tax. */
  function Untaxed(ds: seq<Detail>): (bs: seq<Band>)
  {
    seq(|ds|, i requires 0 <= i < |ds| => Band(ds[i].min, ds[i].max, ds[i].aliquota, ds[i].imponibile))
  }

  /** One band taxed at its own rate: the row the loop pushes. It keeps the
      band's bounds, rate and amount, and its tax is that amount at that
      rate. */
  function Levy(b: Band): (d: Detail)
    ensures Band(d.min, d.max, d.aliquota, d.imponibile) == b
    ensures d.imposta == d.imponibile * d.aliquota
  {
    Detail(b.min, b.max, b.rate, b.taxable, b.taxable * b.rate)
  }

  /** The rows the loop pushes, one per band, in order: forgetting their
      taxes gives back the bands, and each row taxes its own amount at its
      own rate. */
  function Rows(bs: seq<Band>): (ds: seq<Detail>)
    ensures |ds| == |bs|
    ensures Untaxed(ds) == bs
    ensures RowsTaxed(ds)
  {
    var ds := seq(|bs|, i requires 0 <= i < |bs| => Levy(bs[i]));
    assert forall i :: 0 <= i < |bs| ==> Untaxed(ds)[i] == bs[i];
    ds
  }

  /** `calcProgressiveTax(imponibile, brackets)`: the loop starts with all
      of the income remaining and the first band starting at 0; the total
      it returns is what the running sum of the rows' taxes reaches. */
  function CalcProgressiveTax(imponibile: real, table: seq<Bracket>): (r: Outcome)
    ensures imponibile <= 0.0 ==> r.details == [] && r.total == 0.0
    ensures |r.details| <= |table|
  {
    var ds := Rows(Bands(imponibile, 0.0, table));
    Outcome(SumImposta(ds), ds)
  }

  /** Rate of the bracket that contains `x`: the first one whose limit is
      at least `x`; 0 when the table runs out. */
  function RateAt(x: real, table: seq<Bracket>): real
    decreases |table|
  {
    if |table| == 0 then 0.0
    else match table[0].limit
      case Infinity => table[0].rate
      case Finite(l) => if x <= l then table[0].rate else RateAt(x, table[1..])
  }

  /** The part of the income `x` that falls in the band from `lo` to `hi`. */
  function Slice(x: real, lo: real, hi: Limit): real
  {
    if x <= lo then 0.0
    else match hi
      case Infinity => x - lo
      case Finite(h) => if x <= h then x - lo else h - lo
  }

  /** The tax bracket `b`, starting at `lo`, levies on its slice of `x`. */
  function Share(x: real, lo: real, b: Bracket): real
  {
    b.rate * Slice(x, lo, b.limit)
  }

  /** Independent closed form of a progressive tax on `x`: every band taxes
      exactly its slice of `x`, with no running remainder. */
  function Reference(x: real, lo: real, table: seq<Bracket>): real
    decreases |table|
  {
    if |table| == 0 then 0.0
    else match table[0].limit
      case Infinity => Share(x, lo, table[0])
      case Finite(hi) => Share(x, lo, table[0]) + Reference(x, hi, table[1..])
  }

  // ---------------------------------------------------------------------
  // Shape of the bands

  /** The bands are contiguous: the first starts at `start`, each next one
      starts where the previous one ended, and nothing follows an unbounded
      band. */
  predicate Contiguous(bs: seq<Band>, start: real)
    decreases |bs|
  {
    |bs| == 0 ||
    (bs[0].min == start &&
     match bs[0].max
     case Infinity => |bs| == 1
     case Finite(hi) => Contiguous(bs[1..], hi))
  }

  /** Band `i` is bracket `i` of the table: same limit, same rate. */
  predicate FollowsTable(bs: seq<Band>, table: seq<Bracket>)
  {
    && |bs| <= |table|
    && forall i :: 0 <= i < |bs| ==> bs[i].max == table[i].limit && bs[i].rate == table[i].rate
  }

  /** Every band holds a positive amount that fits within the band. */
  predicate Filled(bs: seq<Band>)
  {
    forall i :: 0 <= i < |bs| ==>
      0.0 < bs[i].taxable && (bs[i].max.Finite? ==> bs[i].taxable <= bs[i].max.value - bs[i].min)
  }

  function SumTaxable(bs: seq<Band>): real
  {
    if |bs| == 0 then 0.0 else bs[0].taxable + SumTaxable(bs[1..])
  }

  lemma {:induction false} BandsContiguous(remaining: real, prevLimit: real, table: seq<Bracket>)
    ensures Contiguous(Bands(remaining, prevLimit, table), prevLimit)
    decreases |table|
  {
    if |table| > 0 && remaining > 0.0 && table[0].limit.Finite? {
      var l := table[0].limit.value;
      var bs := Bands(remaining, prevLimit, table);
      var rest := Bands(remaining - Min(remaining, l - prevLimit), l, table[1..]);
      BandsContiguous(remaining - Min(remaining, l - prevLimit), l, table[1..]);
      assert bs[1..] == rest;
    }
  }

  lemma {:induction false} BandsFollowTable(remaining: real, prevLimit: real, table: seq<Bracket>)
    ensures FollowsTable(Bands(remaining, prevLimit, table), table)
    decreases |table|
  {
    if |table| > 0 && remaining > 0.0 && table[0].limit.Finite? {
      var l := table[0].limit.value;
      var bs := Bands(remaining, prevLimit, table);
      var rest := Bands(remaining - Min(remaining, l - prevLimit), l, table[1..]);
      BandsFollowTable(remaining - Min(remaining, l - prevLimit), l, table[1..]);
      forall i | 1 <= i < |bs| ensures bs[i] == rest[i - 1] && table[i] == table[1..][i - 1] {}
    }
  }

  /** With ascending limits every emitted band carries a positive amount no
      wider than the band: no empty band is emitted after exhaustion. */
  lemma {:induction false} BandsFilled(remaining: real, prevLimit: real, table: seq<Bracket>)
    requires Ascending(prevLimit, table)
    ensures Filled(Bands(remaining, prevLimit, table))
    decreases |table|
  {
    if |table| > 0 && remaining > 0.0 && table[0].limit.Finite? {
      var l := table[0].limit.value;
      var bs := Bands(remaining, prevLimit, table);
      var rest := Bands(remaining - Min(remaining, l - prevLimit), l, table[1..]);
      var taxable := Min(remaining, l - prevLimit);
      assert bs == [Band(prevLimit, table[0].limit, table[0].rate, taxable)] + rest;
      assert 0.0 < taxable <= l - prevLimit;
      BandsFilled(remaining - taxable, l, table[1..]);
      forall i | 1 <= i < |bs| ensures bs[i] == rest[i - 1] {}
    }
  }

  /** Nothing is lost: when the table ends unbounded, the band amounts add
      up to the whole income. */
  lemma {:induction false} BandsConserveIncome(remaining: real, prevLimit: real, table: seq<Bracket>)
    requires 0.0 <= remaining
    requires EndsUnbounded(table)
    ensures SumTaxable(Bands(remaining, prevLimit, table)) == remaining
    decreases |table|
  {
    if remaining > 0.0 && table[0].limit.Finite? {
      var l := table[0].limit.value;
      var bs := Bands(remaining, prevLimit, table);
      assert table[1..][|table[1..]| - 1] == table[|table| - 1];
      BandsConserveIncome(remaining - Min(remaining, l - prevLimit), l, table[1..]);
      assert bs[1..] == Bands(remaining - Min(remaining, l - prevLimit), l, table[1..]);
    }
  }

  /** The last emitted band is the one that contains the income. */
  lemma {:induction false} BandsLastContains(x: real, prevLimit: real, table: seq<Bracket>)
    requires prevLimit < x
    requires EndsUnbounded(table)
    ensures |Bands(x - prevLimit, prevLimit, table)| > 0
    ensures var bs := Bands(x - prevLimit, prevLimit, table);
            bs[|bs| - 1].rate == RateAt(x, table)
    decreases |table|
  {
    if table[0].limit.Finite? {
      var l := table[0].limit.value;
      var taxable := Min(x - prevLimit, l - prevLimit);
      var bs := Bands(x - prevLimit, prevLimit, table);
      var rest := Bands(x - prevLimit - taxable, l, table[1..]);
      assert bs == [bs[0]] + rest;
      if l < x {
        assert taxable == l - prevLimit;
        assert table[1..][|table[1..]| - 1] == table[|table| - 1];
        assert x - prevLimit - taxable == x - l;
        BandsLastContains(x, l, table[1..]);
        assert bs[|bs| - 1] == rest[|rest| - 1];
      } else {
        assert taxable == x - prevLimit;
        assert rest == [];
      }
    }
  }

  // ---------------------------------------------------------------------
  // Bookkeeping

  /** Each row taxes its own amount at its own rate. */
  predicate RowsTaxed(ds: seq<Detail>)
  {
    forall i :: 0 <= i < |ds| ==> ds[i].imposta == ds[i].imponibile * ds[i].aliquota
  }

  lemma RowsTail(bs: seq<Band>)
    requires |bs| > 0
    ensures Rows(bs)[0] == Levy(bs[0])
    ensures Rows(bs)[1..] == Rows(bs[1..])
  {
    assert forall i :: 0 <= i < |bs| - 1 ==> Rows(bs)[1..][i] == Rows(bs[1..])[i];
  }

  lemma {:induction false} RowsSumImponibile(bs: seq<Band>)
    ensures SumImponibile(Rows(bs)) == SumTaxable(bs)
    decreases |bs|
  {
    if |bs| > 0 {
      RowsTail(bs);
      RowsSumImponibile(bs[1..]);
    }
  }

  // ---------------------------------------------------------------------
  // Properties of calcProgressiveTax

  /** The breakdown starts at 0, its bands are contiguous and follow the
      table, and each row taxes its own amount at its bracket's rate. The
      last conjunct, that the total is the sum of the rows' taxes, holds by
      the definition of `CalcProgressiveTax`: it records the modelling
      choice of replacing the running sum by the sum of the rows. That the
      sum is the right tax is `BandsMatchReference`. */
  lemma CalcProgressiveTaxBreakdown(imponibile: real, table: seq<Bracket>)
    ensures var r := CalcProgressiveTax(imponibile, table);
            && Contiguous(Untaxed(r.details), 0.0)
            && (|r.details| > 0 ==> r.details[0].min == 0.0)
            && FollowsTable(Untaxed(r.details), table)
            && RowsTaxed(r.details)
            && SumImposta(r.details) == r.total
  {
    var bs := Bands(imponibile, 0.0, table);
    BandsContiguous(imponibile, 0.0, table);
    BandsFollowTable(imponibile, 0.0, table);
    if |bs| > 0 {
      assert Untaxed(Rows(bs))[0] == bs[0];
    }
  }

  /** Nothing is lost: when the table ends unbounded, the rows' amounts add
      up to the whole income. */
  lemma CalcProgressiveTaxConservesIncome(imponibile: real, table: seq<Bracket>)
    requires 0.0 <= imponibile
    requires EndsUnbounded(table)
    ensures SumImponibile(CalcProgressiveTax(imponibile, table).details) == imponibile
  {
    BandsConserveIncome(imponibile, 0.0, table);
    RowsSumImponibile(Bands(imponibile, 0.0, table));
  }

  /** With ascending limits no row is empty and none exceeds its band. */
  lemma CalcProgressiveTaxBandsFilled(imponibile: real, table: seq<Bracket>)
    requires Ascending(0.0, table)
    ensures Filled(Untaxed(CalcProgressiveTax(imponibile, table).details))
  {
    BandsFilled(imponibile, 0.0, table);
  }

  /** The last row is the band that contains the income. */
  lemma CalcProgressiveTaxLastBand(x: real, table: seq<Bracket>)
    requires 0.0 < x
    requires EndsUnbounded(table)
    ensures |CalcProgressiveTax(x, table).details| > 0
    ensures var ds := CalcProgressiveTax(x, table).details;
            ds[|ds| - 1].aliquota == RateAt(x, table)
  {
    BandsLastContains(x, 0.0, table);
  }

  // ---------------------------------------------------------------------
  // Agreement with the closed form, monotonicity and bounds

  /** The tax the loop levies on `x` from the band starting at `lo` on. */
  function BandsTax(x: real, lo: real, table: seq<Bracket>): real
  {
    SumImposta(Rows(Bands(x - lo, lo, table)))
  }

  /** Peeling off the first bounded band: its share of `x`, plus the tax of
      the bands above it. */
  lemma BandsPeel(x: real, lo: real, table: seq<Bracket>)
    requires Ascending(lo, table)
    requires |table| > 0 && table[0].limit.Finite?
    ensures BandsTax(x, lo, table) == Share(x, lo, table[0]) + BandsTax(x, table[0].limit.value, table[1..])
  {
    var hi := table[0].limit.value;
    var bs := Bands(x - lo, lo, table);
    var rest := Bands(x - hi, hi, table[1..]);
    if x <= lo {
      assert Slice(x, lo, table[0].limit) == 0.0;
    } else {
      var taxable := Min(x - lo, hi - lo);
      assert taxable == Slice(x, lo, table[0].limit);
      assert x - lo - taxable == 0.0 || x - lo - taxable == x - hi;
      assert bs[0] == Band(lo, table[0].limit, table[0].rate, taxable);
      assert bs[1..] == rest;
      RowsTail(bs);
    }
  }

  /** The running-remainder loop computes the closed-form band tax. */
  lemma {:induction false} BandsMatchReference(x: real, lo: real, table: seq<Bracket>)
    requires Ascending(lo, table)
    ensures BandsTax(x, lo, table) == Reference(x, lo, table)
    decreases |table|
  {
    if |table| > 0 {
      if table[0].limit.Finite? {
        BandsPeel(x, lo, table);
        BandsMatchReference(x, table[0].limit.value, table[1..]);
      } else if x > lo {
        var bs := Bands(x - lo, lo, table);
        assert bs == [Band(lo, Infinity, table[0].rate, x - lo)];
        RowsTail(bs);
        assert SumImposta(Rows(bs)[1..]) == 0.0;
      } else {
        assert Slice(x, lo, Infinity) == 0.0;
      }
    }
  }

  lemma CalcProgressiveTaxMatchesReference(x: real, table: seq<Bracket>)
    requires Ascending(0.0, table)
    ensures CalcProgressiveTax(x, table).total == Reference(x, 0.0, table)
  {
    BandsMatchReference(x, 0.0, table);
  }

  lemma SliceMonotone(x: real, y: real, lo: real, hi: Limit)
    requires x <= y
    requires hi.Finite? ==> lo < hi.value
    ensures 0.0 <= Slice(x, lo, hi) <= Slice(y, lo, hi)
  {
  }

  lemma ShareMonotone(x: real, y: real, lo: real, b: Bracket)
    requires x <= y
    requires b.limit.Finite? ==> lo < b.limit.value
    requires 0.0 <= b.rate
    ensures Share(x, lo, b) <= Share(y, lo, b)
  {
    SliceMonotone(x, y, lo, b.limit);
    MulMonotone(b.rate, Slice(x, lo, b.limit), Slice(y, lo, b.limit));
  }

  lemma {:induction false} ReferenceMonotone(x: real, y: real, lo: real, table: seq<Bracket>)
    requires x <= y
    requires Ascending(lo, table)
    requires RatesNonNegative(table)
    ensures Reference(x, lo, table) <= Reference(y, lo, table)
    decreases |table|
  {
    if |table| > 0 {
      assert forall i :: 0 <= i < |table[1..]| ==> table[1..][i] == table[i + 1];
      ShareMonotone(x, y, lo, table[0]);
      if table[0].limit.Finite? {
        ReferenceMonotone(x, y, table[0].limit.value, table[1..]);
      }
    }
  }

  /** A higher income never pays less tax. */
  lemma CalcProgressiveTaxMonotone(x: real, y: real, table: seq<Bracket>)
    requires x <= y
    requires Ascending(0.0, table)
    requires RatesNonNegative(table)
    ensures CalcProgressiveTax(x, table).total <= CalcProgressiveTax(y, table).total
  {
    BandsMatchReference(x, 0.0, table);
    BandsMatchReference(y, 0.0, table);
    ReferenceMonotone(x, y, 0.0, table);
  }

  /** One row's step of the bound: a row taxed at a rate in `[0, hi]` on top
      of rows already within the bound. */
  lemma StepBounded(a: real, rate: real, hi: real, s: real, t: real)
    requires 0.0 <= a && 0.0 <= rate <= hi
    requires 0.0 <= s <= hi * t
    ensures 0.0 <= a * rate + s <= hi * (a + t)
  {
    MulMonotone(a, 0.0, rate);
    MulMonotone(a, rate, hi);
  }

  /** Bands taxed at rates in `[0, hi]` owe between 0 and `hi` times
      their total amount. */
  lemma {:induction false} RowsBounded(bs: seq<Band>, hi: real)
    requires forall i :: 0 <= i < |bs| ==> 0.0 <= bs[i].taxable && 0.0 <= bs[i].rate <= hi
    ensures 0.0 <= SumImposta(Rows(bs)) <= hi * SumTaxable(bs)
    decreases |bs|
  {
    if |bs| > 0 {
      assert forall i :: 0 <= i < |bs[1..]| ==> bs[1..][i] == bs[i + 1];
      RowsBounded(bs[1..], hi);
      RowsTail(bs);
      var rest := SumImposta(Rows(bs[1..]));
      assert SumImposta(Rows(bs)) == Levy(bs[0]).imposta + rest;
      StepBounded(bs[0].taxable, bs[0].rate, hi, rest, SumTaxable(bs[1..]));
    }
  }

  /** Bands that follow a table with rates in `[0, hi]`, each filled, are
      within the bound's hypotheses. */
  lemma BandsWithin(bs: seq<Band>, table: seq<Bracket>, hi: real)
    requires Filled(bs) && FollowsTable(bs, table) && RatesBetween(table, 0.0, hi)
    ensures forall i :: 0 <= i < |bs| ==> 0.0 <= bs[i].taxable && 0.0 <= bs[i].rate <= hi
  {
  }

  /** With ascending limits and rates in `[0, hi]` the tax lies between 0
      and `hi` times the income. */
  lemma CalcProgressiveTaxBounded(imponibile: real, table: seq<Bracket>, hi: real)
    requires Ascending(0.0, table)
    requires EndsUnbounded(table)
    requires RatesBetween(table, 0.0, hi)
    ensures 0.0 <= CalcProgressiveTax(imponibile, table).total
    ensures 0.0 <= imponibile ==> CalcProgressiveTax(imponibile, table).total <= hi * imponibile
  {
    var bs := Bands(imponibile, 0.0, table);
    BandsFilled(imponibile, 0.0, table);
    BandsFollowTable(imponibile, 0.0, table);
    BandsWithin(bs, table, hi);
    RowsBounded(bs, hi);
    if 0.0 <= imponibile {
      BandsConserveIncome(imponibile, 0.0, table);
      assert hi * SumTaxable(bs) == hi * imponibile;
    }
  }
}
