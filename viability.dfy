/**
 The viability calculator of the land-development ROI page: from the price of a
 plot, its purchase tax, the construction model (cost per m², built m², soft-cost
 rate, duration in months) and three comparable sale prices, it derives the total
 investment, the expected sale price, the net profit, the operation ROI, the
 annualised ROI and a three-tier verdict that decides whether the investment
 dossier is offered.

 Amounts are `real`: the page computes in Python floats, the model in exact
 arithmetic.
 */
module Viability {

  /** What the page's widgets hand to the calculation, rates already divided by 100. */
  datatype Inputs = Inputs(
    months: int,          // project duration in months
    costPerM2: real,      // construction cost per built m²
    overheadRate: real,   // soft costs as a fraction of land plus construction
    taxRate: real,        // purchase tax on the land, as a fraction
    builtM2: real,        // built area of the dwelling
    landPrice: real,      // price of the plot before tax
    comp1: real,          // three comparable sale prices
    comp2: real,
    comp3: real)

  /** The ranges the sliders enforce: 1..12 months and a 5..25 % soft-cost rate. */
  predicate WidgetRanges(i: Inputs)
  {
    1 <= i.months <= 12 && 0.05 <= i.overheadRate <= 0.25
  }

  // ---------------------------------------------------------------------------
  // Market price

  function Min3(a: real, b: real, c: real): real
  {
    if a <= b && a <= c then a else if b <= c then b else c
  }

  function Max3(a: real, b: real, c: real): real
  {
    if a >= b && a >= c then a else if b >= c then b else c
  }

  /** The market estimate: the plain mean of the three comparables, around which their deviations cancel out. */
  function MarketMean(t1: real, t2: real, t3: real): (m: real)
    ensures (t1 - m) + (t2 - m) + (t3 - m) == 0.0
  {
    (t1 + t2 + t3) / 3.0
  }

  /** The estimate lies between the cheapest and the dearest comparable, and agrees with them when they agree. */
  lemma MarketMeanBounds(t1: real, t2: real, t3: real)
    ensures Min3(t1, t2, t3) <= MarketMean(t1, t2, t3) <= Max3(t1, t2, t3)
    ensures t1 == t2 == t3 ==> MarketMean(t1, t2, t3) == t1
  {
  }

  /** The order in which the comparables are entered does not matter. */
  lemma MarketMeanSymmetric(t1: real, t2: real, t3: real)
    ensures MarketMean(t2, t1, t3) == MarketMean(t1, t2, t3)
    ensures MarketMean(t1, t3, t2) == MarketMean(t1, t2, t3)
  {
  }

  /** Prices in another unit give the same estimate in that unit. */
  lemma MarketMeanScales(k: real, t1: real, t2: real, t3: real)
    ensures MarketMean(k * t1, k * t2, k * t3) == k * MarketMean(t1, t2, t3)
  {
    assert k * t1 + k * t2 + k * t3 == k * (t1 + t2 + t3);
  }

  /** The sale price the page assumes is the market mean of its three comparables. */
  function SalePrice(i: Inputs): real
  {
    MarketMean(i.comp1, i.comp2, i.comp3)
  }

  // ---------------------------------------------------------------------------
  // Cost build-up, in the order the page computes it

  /** Construction cost: cost per m² times built m², never negative for non-negative factors. */
  function BuildCost(i: Inputs): (cost: real)
    ensures i.costPerM2 >= 0.0 && i.builtM2 >= 0.0 ==> cost >= 0.0
  {
    ProductNonNegative(i.costPerM2, i.builtM2);
    i.costPerM2 * i.builtM2
  }

  /** Land cost with purchase tax: a non-negative tax never makes it cheaper than the price. */
  function LandCost(i: Inputs): (cost: real)
    ensures i.landPrice >= 0.0 && i.taxRate >= 0.0 ==> cost >= i.landPrice
  {
    ProductNonNegative(i.landPrice, i.taxRate);
    i.landPrice * (1.0 + i.taxRate)
  }

  /**
   Soft costs: a share of land plus construction. Within the slider's range they
   are between 5 % and 25 % of a non-negative base.
   */
  function SoftCosts(i: Inputs): (soft: real)
    ensures WidgetRanges(i) && LandCost(i) + BuildCost(i) >= 0.0 ==>
      0.05 * (LandCost(i) + BuildCost(i)) <= soft <= 0.25 * (LandCost(i) + BuildCost(i))
  {
    var base := BuildCost(i) + LandCost(i);
    RateBand(base, i.overheadRate);
    base * i.overheadRate
  }

  /** Total investment: taxed land, construction and soft costs; it covers land plus construction when the soft costs are not negative. */
  function Investment(i: Inputs): (inv: real)
    ensures SoftCosts(i) >= 0.0 ==> inv >= LandCost(i) + BuildCost(i)
  {
    LandCost(i) + BuildCost(i) + SoftCosts(i)
  }

  /** The three-part total equals the taxed land plus construction marked up by the soft-cost rate. */
  lemma InvestmentClosedForm(i: Inputs)
    ensures Investment(i) == (i.landPrice * (1.0 + i.taxRate) + i.costPerM2 * i.builtM2) * (1.0 + i.overheadRate)
  {
  }

  /**
   With non-negative prices, areas and rates, every cost is non-negative and the
   total covers the direct costs; a positive rate on a positive base adds a
   strictly positive overhead.
   */
  lemma InvestmentCoversDirectCosts(i: Inputs)
    requires i.landPrice >= 0.0 && i.taxRate >= 0.0
    requires i.costPerM2 >= 0.0 && i.builtM2 >= 0.0
    requires i.overheadRate >= 0.0
    ensures LandCost(i) >= 0.0 && BuildCost(i) >= 0.0 && SoftCosts(i) >= 0.0
    ensures Investment(i) >= LandCost(i) + BuildCost(i)
    ensures i.overheadRate > 0.0 && LandCost(i) + BuildCost(i) > 0.0 ==> SoftCosts(i) > 0.0
  {
    ProductNonNegative(i.landPrice, 1.0 + i.taxRate);
    ProductNonNegative(i.costPerM2, i.builtM2);
    var base := BuildCost(i) + LandCost(i);
    assert SoftCosts(i) == base * i.overheadRate;
    ProductNonNegative(base, i.overheadRate);
    if i.overheadRate > 0.0 && base > 0.0 {
      ProductPositive(base, i.overheadRate);
    }
  }

  // ---------------------------------------------------------------------------
  // Arithmetic facts, each proved on its own so that the solver sees only reals

  lemma ProductPositive(a: real, b: real)
    requires a > 0.0 && b > 0.0
    ensures a * b > 0.0
  {
  }

  lemma RatioShrinks(s: real, a: real, b: real)
    requires s > 0.0 && 0.0 < a < b
    ensures s / b < s / a
  {
    assert s / b * b == s && s / a * a == s;
  }

  lemma ProductNonZero(a: real, b: real)
    requires a != 0.0 && b != 0.0
    ensures a * b != 0.0
  {
  }

  lemma ScaledProduct(k: real, x: real, y: real)
    ensures (k * x) * y == k * (x * y)
  {
  }

  lemma ScaledMarkup(k: real, x: real, y: real, r: real)
    ensures (k * x + k * y) * r == k * ((x + y) * r)
  {
  }

  lemma ScaledSum(k: real, x: real, y: real, z: real)
    ensures k * x + k * y + k * z == k * (x + y + z)
  {
  }

  lemma ScaledDifference(k: real, x: real, y: real)
    ensures k * x - k * y == k * (x - y)
  {
  }

  lemma QuotientUnique(q: real, p: real, a: real)
    requires a != 0.0 && q * a == p
    ensures q == p / a
  {
  }

  /** The profit-to-cost ratio falls as the cost rises over a fixed positive revenue. */
  lemma ProfitRatioShrinks(s: real, a: real, b: real)
    requires s > 0.0 && 0.0 < a < b
    ensures (s - b) / b < (s - a) / a
  {
    QuotientUnique(s / a - 1.0, s - a, a);
    QuotientUnique(s / b - 1.0, s - b, b);
    RatioShrinks(s, a, b);
  }

  lemma ProductMonotone(c: real, x: real, y: real)
    requires c >= 0.0 && x >= y
    ensures c * x >= c * y
  {
    assert c * x - c * y == c * (x - y);
  }

  lemma ProductNonNegative(a: real, b: real)
    ensures a >= 0.0 && b >= 0.0 ==> a * b >= 0.0
  {
  }

  /** A non-negative base times a rate of 5 % to 25 % lies between 5 % and 25 % of the base. */
  lemma RateBand(base: real, rate: real)
    ensures base >= 0.0 && 0.05 <= rate <= 0.25 ==> 0.05 * base <= base * rate <= 0.25 * base
  {
    if base >= 0.0 && 0.05 <= rate <= 0.25 {
      ProductMonotone(base, rate, 0.05);
      ProductMonotone(base, 0.25, rate);
    }
  }

  /** One induction step of Bernoulli's inequality, on plain reals. */
  lemma BernoulliStep(x: real, p: real, m: real)
    requires x >= -1.0 && m >= 0.0 && p >= 1.0 + m * x
    ensures (1.0 + x) * p >= 1.0 + (m + 1.0) * x
  {
    ProductMonotone(1.0 + x, p, 1.0 + m * x);
    assert (1.0 + x) * (1.0 + m * x) == 1.0 + (m + 1.0) * x + m * (x * x);
    ProductNonNegative(m, x * x);
  }

  lemma RatioCancels(k: real, p: real, a: real)
    requires k != 0.0 && a != 0.0
    ensures (k * p) / (k * a) == p / a
  {
    assert (p / a) * (k * a) == k * p;
  }

  // ---------------------------------------------------------------------------
  // Profitability

  /** Net profit: what the sale brings above the investment. */
  function NetProfit(i: Inputs): (profit: real)
    ensures profit > 0.0 <==> SalePrice(i) > Investment(i)
    ensures profit == 0.0 <==> SalePrice(i) == Investment(i)
  {
    SalePrice(i) - Investment(i)
  }

  /**
   The page's ROI formula: profit over investment, in percent. The page divides
   without a guard, so a zero investment is excluded here; Analyze reports it
   as DivisionByZero.
   */
  function RoiOf(profit: real, investment: real): (roi: real)
    requires investment != 0.0
    ensures roi * investment == 100.0 * profit
    ensures roi == 0.0 <==> profit == 0.0
    ensures investment > 0.0 ==> (roi > 0.0 <==> profit > 0.0) && (roi < 0.0 <==> profit < 0.0)
    ensures investment < 0.0 ==> (roi > 0.0 <==> profit < 0.0)
  {
    profit / investment * 100.0
  }

  /** ROI is a ratio: the same profit and investment in another unit give the same ROI. */
  lemma RoiOfScaleFree(k: real, profit: real, investment: real)
    requires k > 0.0 && investment != 0.0
    ensures k * investment != 0.0
    ensures RoiOf(k * profit, k * investment) == RoiOf(profit, investment)
  {
    ProductNonZero(k, investment);
    RatioCancels(k, profit, investment);
  }

  /** The operation ROI of the project, whose sign compares the sale price with the investment. */
  function Roi(i: Inputs): (roi: real)
    requires Investment(i) != 0.0
    ensures roi == 0.0 <==> SalePrice(i) == Investment(i)
    ensures Investment(i) > 0.0 ==> (roi > 0.0 <==> SalePrice(i) > Investment(i))
    ensures Investment(i) > 0.0 ==> (roi < 0.0 <==> SalePrice(i) < Investment(i))
    ensures Investment(i) < 0.0 ==> (roi > 0.0 <==> SalePrice(i) < Investment(i))
  {
    RoiOf(NetProfit(i), Investment(i))
  }

  /** A dearer plot, everything else held, costs (1 + tax)(1 + rate) per unit more in total. */
  lemma DearerLandRaisesInvestment(i: Inputs, d: real)
    requires d > 0.0 && i.taxRate > -1.0 && i.overheadRate > -1.0
    ensures Investment(i.(landPrice := i.landPrice + d)) == Investment(i) + d * (1.0 + i.taxRate) * (1.0 + i.overheadRate)
    ensures Investment(i.(landPrice := i.landPrice + d)) > Investment(i)
  {
    var j := i.(landPrice := i.landPrice + d);
    var t, r := 1.0 + i.taxRate, 1.0 + i.overheadRate;
    ProductPositive(t, r);
    var u := t * r;
    ProductPositive(d, u);
    assert LandCost(j) == LandCost(i) + d * (1.0 + i.taxRate);
    assert BuildCost(j) == BuildCost(i);
    assert Investment(j) == Investment(i) + d * u;
  }

  /** Raising the land price with everything else held strictly lowers the net profit. */
  lemma DearerLandLowersProfit(i: Inputs, d: real)
    requires i.taxRate > -1.0 && i.overheadRate > -1.0 && d > 0.0
    ensures NetProfit(i.(landPrice := i.landPrice + d)) < NetProfit(i)
  {
    DearerLandRaisesInvestment(i, d);
  }

  /** For a positive investment and a positive sale price, a dearer plot strictly lowers the ROI. */
  lemma DearerLandLowersRoi(i: Inputs, d: real)
    requires i.taxRate > -1.0 && i.overheadRate > -1.0 && d > 0.0
    requires Investment(i) > 0.0 && SalePrice(i) > 0.0
    ensures Investment(i.(landPrice := i.landPrice + d)) > 0.0
    ensures Roi(i.(landPrice := i.landPrice + d)) < Roi(i)
  {
    var j := i.(landPrice := i.landPrice + d);
    DearerLandRaisesInvestment(i, d);
    var s, a, b := SalePrice(i), Investment(i), Investment(j);
    assert SalePrice(j) == s;
    assert NetProfit(i) == s - a && NetProfit(j) == s - b;
    ProfitRatioShrinks(s, a, b);
  }

  /** Multiplies every money amount of the inputs (land, construction cost, comparables) by k. */
  function Scale(i: Inputs, k: real): Inputs
  {
    i.(landPrice := k * i.landPrice, costPerM2 := k * i.costPerM2,
       comp1 := k * i.comp1, comp2 := k * i.comp2, comp3 := k * i.comp3)
  }

  /** Scaling every money amount scales the total investment by the same factor. */
  lemma ScaleScalesInvestment(i: Inputs, k: real)
    ensures Investment(Scale(i, k)) == k * Investment(i)
  {
    var j := Scale(i, k);
    var l, b, o := LandCost(i), BuildCost(i), SoftCosts(i);
    assert LandCost(j) == k * l by {
      ScaledProduct(k, i.landPrice, 1.0 + i.taxRate);
    }
    assert BuildCost(j) == k * b by {
      ScaledProduct(k, i.costPerM2, i.builtM2);
    }
    assert SoftCosts(j) == k * o by {
      ScaledMarkup(k, b, l, i.overheadRate);
    }
    ScaledSum(k, l, b, o);
  }

  /** Scaling every money amount scales the net profit by the same factor. */
  lemma ScaleScalesProfit(i: Inputs, k: real)
    ensures NetProfit(Scale(i, k)) == k * NetProfit(i)
  {
    var j := Scale(i, k);
    var sale, inv := SalePrice(i), Investment(i);
    assert Investment(j) == k * inv by {
      ScaleScalesInvestment(i, k);
    }
    assert SalePrice(j) == k * sale by {
      MarketMeanScales(k, i.comp1, i.comp2, i.comp3);
    }
    ScaledDifference(k, sale, inv);
  }

  /** ROI is a ratio: scaling every money amount by the same positive factor leaves it unchanged. */
  lemma ScaleKeepsRoi(i: Inputs, k: real)
    requires k > 0.0 && Investment(i) != 0.0
    ensures Investment(Scale(i, k)) != 0.0
    ensures Roi(Scale(i, k)) == Roi(i)
  {
    ScaleScalesInvestment(i, k);
    ScaleScalesProfit(i, k);
    RoiOfScaleFree(k, NetProfit(i), Investment(i));
  }

  // ---------------------------------------------------------------------------
  // Annualisation

  /** b raised to a natural power. */
  function Pow(b: real, n: nat): real
  {
    if n == 0 then 1.0 else b * Pow(b, n - 1)
  }

  lemma {:induction false} PowOfOne(n: nat)
    ensures Pow(1.0, n) == 1.0
  {
    if n > 0 {
      PowOfOne(n - 1);
    }
  }

  lemma {:induction false} PowPositive(b: real, n: nat)
    ensures b > 0.0 ==> Pow(b, n) > 0.0
  {
    if n > 0 && b > 0.0 {
      PowPositive(b, n - 1);
      ProductPositive(b, Pow(b, n - 1));
    }
  }

  /** A base in [0, 1] shrinks under any positive power. */
  lemma {:induction false} PowUnitInterval(b: real, n: nat)
    requires 0.0 <= b <= 1.0 && n >= 1
    ensures 0.0 <= Pow(b, n) <= b
  {
    if n == 1 {
      assert Pow(b, 0) == 1.0;
    } else {
      PowUnitInterval(b, n - 1);
      var p := Pow(b, n - 1);
      assert Pow(b, n) == b * p;
      ProductNonNegative(b, p);
      ProductMonotone(b, 1.0, p);
      assert b * 1.0 == b;
      assert 0.0 <= b * p;
      assert b * p <= b;
    }
  }

  /** Bernoulli's inequality: (1 + x)^n >= 1 + n x for x >= -1. */
  lemma {:induction false} PowBernoulli(x: real, n: nat)
    requires x >= -1.0
    ensures Pow(1.0 + x, n) >= 1.0 + n as real * x
  {
    if n > 0 {
      PowBernoulli(x, n - 1);
      BernoulliStep(x, Pow(1.0 + x, n - 1), (n - 1) as real);
    }
  }

  /** Durations for which 12 / months is a whole exponent. */
  predicate DividesYear(months: int)
  {
    1 <= months <= 12 && 12 % months == 0
  }

  /** The operation ROI compounded to twelve months, for durations that divide the year. */
  function Annualized(roi: real, months: int): (annual: real)
    requires DividesYear(months)
    ensures months == 12 ==> annual == roi
    ensures roi > -100.0 ==> annual > -100.0
  {
    var b := 1.0 + roi / 100.0;
    PowPositive(b, 12 / months);
    assert Pow(b, 1) == b * Pow(b, 0) == b;
    (Pow(b, 12 / months) - 1.0) * 100.0
  }

  /** Over a twelve-month project the annualised ROI is the operation ROI. */
  lemma AnnualizedOverYear(roi: real)
    ensures Annualized(roi, 12) == roi
  {
    assert Pow(1.0 + roi / 100.0, 1) == 1.0 + roi / 100.0;
  }

  /** A zero ROI annualises to zero whatever the duration. */
  lemma AnnualizedOfZero(months: int)
    requires DividesYear(months)
    ensures Annualized(0.0, months) == 0.0
  {
    PowOfOne(12 / months);
  }

  /** Compounding is at least simple scaling: the annualised ROI is at least (12 / months) times the operation ROI. */
  lemma AnnualizedAtLeastSimple(roi: real, months: int)
    requires DividesYear(months) && roi >= -100.0
    ensures Annualized(roi, months) >= (12 / months) as real * roi
  {
    PowBernoulli(roi / 100.0, 12 / months);
  }

  /**
   While the loss stays below the invested capital, annualising keeps the sign of
   the ROI and amplifies it: a gain grows, a loss deepens but stays above -100 %.
   */
  lemma AnnualizedAmplifies(roi: real, months: int)
    requires DividesYear(months) && roi > -100.0
    ensures roi >= 0.0 ==> Annualized(roi, months) >= roi
    ensures roi <= 0.0 ==> -100.0 < Annualized(roi, months) <= roi
  {
    var n := 12 / months;
    var b := 1.0 + roi / 100.0;
    assert n >= 1;
    if roi >= 0.0 {
      AnnualizedAtLeastSimple(roi, months);
      assert n as real * roi >= roi;
    }
    if roi <= 0.0 {
      PowUnitInterval(b, n);
      PowPositive(b, n);
    }
  }

  // ---------------------------------------------------------------------------
  // Verdict

  datatype Verdict = LowRoi | GreenLight | UniqueOpportunity

  /** The three tiers partition the ROI line: below 20, 20 to 40 inclusive, above 40. */
  function Classify(roi: real): (v: Verdict)
    ensures v == LowRoi <==> roi < 20.0
    ensures v == GreenLight <==> 20.0 <= roi <= 40.0
    ensures v == UniqueOpportunity <==> roi > 40.0
  {
    if 20.0 <= roi <= 40.0 then GreenLight
    else if roi > 40.0 then UniqueOpportunity
    else LowRoi
  }

  function Rank(v: Verdict): nat
  {
    match v
    case LowRoi => 0
    case GreenLight => 1
    case UniqueOpportunity => 2
  }

  /** A higher ROI never earns a worse verdict. */
  lemma ClassifyMonotone(roi: real, roi': real)
    requires roi <= roi'
    ensures Rank(Classify(roi)) <= Rank(Classify(roi'))
  {
  }

  /** The dossier is offered in the two upper tiers, that is exactly when the ROI reaches 20 %. */
  function OffersDossier(roi: real): (offered: bool)
    ensures offered <==> roi >= 20.0
  {
    match Classify(roi)
    case GreenLight => true
    case UniqueOpportunity => true
    case LowRoi => false
  }

  // ---------------------------------------------------------------------------
  // The button handler

  /** What the page shows after the analysis button is pressed. */
  datatype Analysis = Analysis(
    investment: real,
    salePrice: real,
    profit: real,
    roi: real,
    verdict: Verdict,
    dossier: bool)

  /** A zero investment makes the page's division raise; otherwise the analysis. */
  datatype Outcome = Analysed(analysis: Analysis) | DivisionByZero

  function Analyze(i: Inputs): (r: Outcome)
    ensures r.DivisionByZero? <==> Investment(i) == 0.0
    ensures r.Analysed? ==>
      var a := r.analysis;
      && 3.0 * a.salePrice == i.comp1 + i.comp2 + i.comp3
      && a.investment == (i.landPrice * (1.0 + i.taxRate) + i.costPerM2 * i.builtM2) * (1.0 + i.overheadRate)
      && a.profit == a.salePrice - a.investment
      && a.roi * a.investment == 100.0 * a.profit
      && (a.verdict == GreenLight <==> 20.0 <= a.roi <= 40.0)
      && (a.verdict == UniqueOpportunity <==> a.roi > 40.0)
      && (a.dossier <==> a.roi >= 20.0)
  {
    if Investment(i) == 0.0 then DivisionByZero
    else
      var roi := Roi(i);
      Analysed(Analysis(Investment(i), SalePrice(i), NetProfit(i), roi, Classify(roi), OffersDossier(roi)))
  }
}
