/** An optional value, used where the page's arithmetic
    produces a non-finite number (a division by zero) and for the record id. */
module Options {
  datatype Option<+T> = None | Some(value: T)
}

/**
  The funnel metrics calculator of the revenue-audit page: pure formulas
  from the visitor's business numbers to the loss, sunk-cost and recovery
  figures the page shows and stores. Numbers are mathematical reals; the
  page's IEEE-754 rounding is not modelled. Where the page divides by a
  value that can be zero, JavaScript yields NaN or an infinity; the model
  returns None there.
*/
module Metrics {
  import opened Options

  /** The numeric inputs of the step-1 form; each starts at 0. Rates are percentages. */
  datatype Inputs = Inputs(
    monthlyVisits: real,
    checkoutRate: real,
    conversionRate: real,
    productPrice: real,
    cac: real)

  /** The derived figures the page computes on every render. */
  datatype Calculations = Calculations(
    upsellPotential: real,
    trueValuePerLead: real,
    estimatedAbandonment: real,
    monthlyLoss: real,
    annualLoss: real,
    sunkCost: real)

  /** One stacked bar of the step-3 chart: acquisition cost under profit. */
  datatype ChartBar = ChartBar(name: string, cost: real, profit: real)

  /** Share of the product price that stands in for a missing acquisition cost. */
  const CacFallbackShare: real := 0.3

  /** The bounds of the recovery-rate slider, in percent. */
  const MinRecoveryRate: real := 5.0
  const MaxRecoveryRate: real := 30.0

  const MonthsPerYear: real := 12.0

  /** All-zero inputs, the form's initial state. */
  const InitialInputs: Inputs := Inputs(0.0, 0.0, 0.0, 0.0, 0.0)

  /** `cac || productPrice * 0.3`: the acquisition cost the page uses, which
      falls back to 30% of the price when the visitor left CAC at 0. */
  function EffectiveCac(i: Inputs): (c: real)
    ensures i.cac != 0.0 ==> c == i.cac
    ensures i.cac == 0.0 ==> c == CacFallbackShare * i.productPrice
    ensures c == 0.0 <==> i.cac == 0.0 && i.productPrice == 0.0
    ensures i.cac >= 0.0 && i.productPrice >= 0.0 ==> c >= 0.0
  {
    if i.cac != 0.0 then i.cac else i.productPrice * CacFallbackShare
  }

  /** Visitors per month who do not get through checkout. */
  function Abandonment(i: Inputs): (a: real)
  {
    i.monthlyVisits * (1.0 - i.checkoutRate / 100.0)
  }

  /** The `calculations` record of the page. */
  function Calculate(i: Inputs): (c: Calculations)
    ensures c.estimatedAbandonment + i.monthlyVisits * i.checkoutRate / 100.0 == i.monthlyVisits
    ensures c.monthlyLoss == c.estimatedAbandonment * i.productPrice
    ensures c.annualLoss == MonthsPerYear * c.monthlyLoss
    ensures c.upsellPotential == 0.0 && c.trueValuePerLead == i.productPrice
    ensures c.sunkCost == c.estimatedAbandonment * EffectiveCac(i)
  {
    Calculations(
      upsellPotential := 0.0,
      trueValuePerLead := i.productPrice,
      estimatedAbandonment := Abandonment(i),
      monthlyLoss := Abandonment(i) * i.productPrice,
      annualLoss := Abandonment(i) * i.productPrice * 12.0,
      sunkCost := Abandonment(i) * EffectiveCac(i))
  }

  /** Monthly revenue that a recovery rate (in percent) wins back from a
      monthly loss. */
  function RecoveredRevenue(monthlyLoss: real, recoveryRate: real): (r: real)
    ensures 0.0 <= recoveryRate <= 100.0 && monthlyLoss >= 0.0 ==> 0.0 <= r <= monthlyLoss
    ensures 0.0 < recoveryRate < 100.0 && monthlyLoss > 0.0 ==> 0.0 < r < monthlyLoss
  {
    var share := recoveryRate / 100.0;
    if 0.0 < share < 1.0 && monthlyLoss > 0.0 then
      ScaleStrictlyInside(monthlyLoss, share);
      monthlyLoss * share
    else if 0.0 <= share <= 1.0 && monthlyLoss >= 0.0 then
      ScaleBelowOne(monthlyLoss, share);
      monthlyLoss * share
    else
      monthlyLoss * share
  }

  /** The yearly figure shown beside the recovered revenue. */
  function AnnualRecoveredRevenue(monthlyLoss: real, recoveryRate: real): (r: real)
    ensures 0.0 <= recoveryRate <= 100.0 && monthlyLoss >= 0.0 ==> 0.0 <= r <= MonthsPerYear * monthlyLoss
  {
    RecoveredRevenue(monthlyLoss, recoveryRate) * 12.0
  }

  /** `Math.floor(recoveredRevenue / effectiveCac)`: how many newly bought
      leads the recovered revenue would pay for; None where JavaScript
      divides by zero. */
  function NewLeadsEquivalent(i: Inputs, recoveryRate: real): (n: Option<int>)
    ensures n.Some? <==> EffectiveCac(i) != 0.0
    ensures n.Some? ==>
              n.value as real <= RecoveredRevenue(Calculate(i).monthlyLoss, recoveryRate) / EffectiveCac(i)
                              < n.value as real + 1.0
  {
    var cost := EffectiveCac(i);
    if cost == 0.0 then None else Some((RecoveredRevenue(Calculate(i).monthlyLoss, recoveryRate) / cost).Floor)
  }

  /** `Math.floor(monthlyLoss / productPrice)`: the count of lost sales shown
      on step 2; None where JavaScript divides by a zero price. */
  function LostSalesCount(i: Inputs): (n: Option<int>)
    ensures n.Some? <==> i.productPrice != 0.0
  {
    if i.productPrice == 0.0 then None else Some((Calculate(i).monthlyLoss / i.productPrice).Floor)
  }

  /** The two bars of the step-3 chart: a newly bought sale pays the
      acquisition cost, a recovered sale costs nothing. */
  function ChartData(i: Inputs): (bars: seq<ChartBar>)
    ensures |bars| == 2
    ensures bars[0].cost == EffectiveCac(i)
    ensures bars[0].cost + bars[0].profit == Calculate(i).trueValuePerLead
    ensures bars[1].cost == 0.0 && bars[1].profit == Calculate(i).trueValuePerLead
  {
    var cost := EffectiveCac(i);
    [ ChartBar("Venda Nova", cost, Calculate(i).trueValuePerLead - cost),
      ChartBar("Venda Recuperada", 0.0, Calculate(i).trueValuePerLead) ]
  }

  /** The step-1 continue button is enabled only when these three fields are non-zero. */
  predicate InputsComplete(i: Inputs)
    ensures InputsComplete(i) ==> i.productPrice != 0.0 && EffectiveCac(i) != 0.0
  {
    i.productPrice != 0.0 && i.monthlyVisits != 0.0 && i.checkoutRate != 0.0
  }

  // ---------------------------------------------------------------------
  // Properties

  /** Scaling a non-negative amount by a fraction in [0, 1] keeps it in [0, amount]. */
  lemma ScaleBelowOne(x: real, f: real)
    requires x >= 0.0 && 0.0 <= f <= 1.0
    ensures 0.0 <= x * f <= x
  {
    assert x * f <= x * 1.0 by {
      assert x * (1.0 - f) >= 0.0;
    }
  }

  /** With a plausible checkout rate, the abandonment lies between 0 and the visits. */
  lemma AbandonmentBounded(i: Inputs)
    requires i.monthlyVisits >= 0.0 && 0.0 <= i.checkoutRate <= 100.0
    ensures 0.0 <= Calculate(i).estimatedAbandonment <= i.monthlyVisits
  {
    ScaleBelowOne(i.monthlyVisits, 1.0 - i.checkoutRate / 100.0);
  }

  /** The lost-sales count of step 2 is the abandonment rounded down: the
      price divides back out of the monthly loss. */
  lemma LostSalesIsFlooredAbandonment(i: Inputs)
    requires i.productPrice != 0.0
    ensures LostSalesCount(i) == Some(Calculate(i).estimatedAbandonment.Floor)
  {
    var a := Calculate(i).estimatedAbandonment;
    assert Calculate(i).monthlyLoss / i.productPrice == a by {
      assert Calculate(i).monthlyLoss == a * i.productPrice;
    }
  }

  /** Scaling a positive amount by a fraction strictly between 0 and 1 lands strictly inside. */
  lemma ScaleStrictlyInside(x: real, f: real)
    requires x > 0.0 && 0.0 < f < 1.0
    ensures 0.0 < x * f
    ensures x * f < x
  {
    assert x - x * f == x * (1.0 - f);
    assert x * (1.0 - f) > 0.0;
    assert x * f > 0.0;
  }

  /** For a positive loss, all of it is recovered exactly when the rate is 100%. */
  lemma FullRecoveryOnlyAtHundredPercent(monthlyLoss: real, recoveryRate: real)
    requires monthlyLoss > 0.0
    ensures RecoveredRevenue(monthlyLoss, recoveryRate) == monthlyLoss <==> recoveryRate == 100.0
  {
    ScaleIsIdentityOnlyAtOne(monthlyLoss, recoveryRate / 100.0);
  }

  /** A positive amount is unchanged by a factor exactly when the factor is 1. */
  lemma ScaleIsIdentityOnlyAtOne(x: real, f: real)
    requires x > 0.0
    ensures x * f == x <==> f == 1.0
  {
    if x * f == x {
      assert (x * f) / x == f;
    }
  }

  /** With a positive acquisition cost, the equivalent-leads count is the
      largest number of leads whose cost fits in the recovered revenue. */
  lemma NewLeadsIsLargestAffordable(i: Inputs, recoveryRate: real, m: int)
    requires EffectiveCac(i) > 0.0
    ensures NewLeadsEquivalent(i, recoveryRate).Some?
    ensures var n := NewLeadsEquivalent(i, recoveryRate).value;
            var r := RecoveredRevenue(Calculate(i).monthlyLoss, recoveryRate);
            n as real * EffectiveCac(i) <= r < (n + 1) as real * EffectiveCac(i) &&
            (m as real * EffectiveCac(i) <= r ==> m <= n)
  {
    FloorQuotientIsLargestFit(RecoveredRevenue(Calculate(i).monthlyLoss, recoveryRate), EffectiveCac(i), m);
  }

  /** The floor of r / c is the largest whole number of c's that fit in r. */
  lemma FloorQuotientIsLargestFit(r: real, c: real, m: int)
    requires c > 0.0
    ensures (r / c).Floor as real * c <= r
    ensures r < ((r / c).Floor + 1) as real * c
    ensures m as real * c <= r ==> m <= (r / c).Floor
  {
    var n := (r / c).Floor;
    var q := r / c;
    assert q * c == r;
    MulMonotone(n as real, q, c);
    MulStrictlyMonotone(q, (n + 1) as real, c);
    assert r < (n + 1) as real * c;
    if m as real * c <= r && m > n {
      MulStrictlyMonotone(q, m as real, c);
      assert false;
    }
  }

  /** Multiplying by a positive factor preserves a strict order. */
  lemma MulStrictlyMonotone(a: real, b: real, c: real)
    requires a < b && c > 0.0
    ensures a * c < b * c
  {
    assert (b - a) * c == b * c - a * c;
    assert (b - a) * c > 0.0;
  }

  /** Multiplying by a positive factor preserves a non-strict order. */
  lemma MulMonotone(a: real, b: real, c: real)
    requires a <= b && c > 0.0
    ensures a * c <= b * c
  {
    if a < b {
      MulStrictlyMonotone(a, b, c);
    }
  }

  /** A non-negative recovered revenue never gives a negative lead count. */
  lemma NewLeadsNonNegative(i: Inputs, recoveryRate: real)
    requires EffectiveCac(i) > 0.0
    requires RecoveredRevenue(Calculate(i).monthlyLoss, recoveryRate) >= 0.0
    ensures NewLeadsEquivalent(i, recoveryRate).Some? && NewLeadsEquivalent(i, recoveryRate).value >= 0
  {
    NewLeadsIsLargestAffordable(i, recoveryRate, 0);
  }

  /** Entering the fallback acquisition cost explicitly changes no displayed figure. */
  lemma ExplicitFallbackCacChangesNothing(i: Inputs, recoveryRate: real)
    requires i.cac == 0.0
    ensures var j := i.(cac := i.productPrice * CacFallbackShare);
            && EffectiveCac(j) == EffectiveCac(i)
            && Calculate(j) == Calculate(i)
            && NewLeadsEquivalent(j, recoveryRate) == NewLeadsEquivalent(i, recoveryRate)
            && LostSalesCount(j) == LostSalesCount(i)
            && ChartData(j) == ChartData(i)
  {
  }

  /** The sample figures the step-1 form shows as placeholders: 1000 visits,
      20% checkout, 10% conversion, price 297 and CAC 45, at the slider's
      starting rate of 10%; and the same figures with CAC left at 0. */
  lemma PlaceholderExample()
    ensures var i := Inputs(1000.0, 20.0, 10.0, 297.0, 45.0);
            var c := Calculate(i);
            && c.estimatedAbandonment == 800.0 && c.monthlyLoss == 237600.0
            && c.annualLoss == 2851200.0 && c.sunkCost == 36000.0
            && RecoveredRevenue(c.monthlyLoss, 10.0) == 23760.0
            && NewLeadsEquivalent(i, 10.0) == Some(528)
            && LostSalesCount(i) == Some(800)
    ensures Calculate(Inputs(1000.0, 20.0, 10.0, 297.0, 0.0)).sunkCost == 71280.0
  {
  }
}
