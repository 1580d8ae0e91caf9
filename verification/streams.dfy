/**
 * The revenue and cost stream simulators and the market adjustment of the
 * Monte Carlo engine. Each works on sampled trial populations (one value per
 * trial, all of the same length) and combines them element-wise.
 */
module Streams {
  import opened Common
  import opened Sampling

  /** Bounds of a product of two non-negative quantities that each lie in a range. */
  lemma ProductBounds(x: real, y: real, xlo: real, xhi: real, ylo: real, yhi: real)
    requires 0.0 <= xlo <= x <= xhi && 0.0 <= ylo <= y <= yhi
    ensures xlo * ylo <= x * y <= xhi * yhi
  {
    NonNegativeProduct(x - xlo, ylo);
    NonNegativeProduct(x, y - ylo);
    NonNegativeProduct(xhi - x, y);
    NonNegativeProduct(xhi, yhi - y);
    assert (x - xlo) * ylo == x * ylo - xlo * ylo;
    assert x * (y - ylo) == x * y - x * ylo;
    assert (xhi - x) * y == xhi * y - x * y;
    assert xhi * (yhi - y) == xhi * yhi - xhi * y;
  }

  /** Scaling a non-negative amount by a factor in [0, 1] keeps it in [0, amount]. */
  lemma ScaleDown(x: real, f: real)
    requires x >= 0.0 && 0.0 <= f <= 1.0
    ensures 0.0 <= x * f <= x
  {
    NonNegativeProduct(x, f);
    NonNegativeProduct(x, 1.0 - f);
  }

  // ---------------------------------------------------------------- subscription

  datatype SubscriptionRevenue = SubscriptionRevenue(
    basic: seq<real>, pro: seq<real>, enterprise: seq<real>,
    totalSubscription: seq<real>, totalSubscribers: seq<real>)
  {
    ghost predicate HasLength(n: nat) {
      |basic| == n && |pro| == n && |enterprise| == n &&
      |totalSubscription| == n && |totalSubscribers| == n
    }
  }

  /**
   * `simulate_subscription_revenue`: each tier is subscribers x price x
   * retention, with one churn draw per trial shared by the three tiers.
   */
  function SimulateSubscriptionRevenue(
    basicSubs: seq<int>, proSubs: seq<int>, enterpriseSubs: seq<int>,
    basicPrice: seq<real>, proPrice: seq<real>, enterprisePrice: seq<real>,
    churn: seq<real>): (s: SubscriptionRevenue)
    requires |proSubs| == |enterpriseSubs| == |basicPrice| == |proPrice| == |enterprisePrice| == |churn| == |basicSubs|
    ensures s.HasLength(|churn|)
    ensures forall i :: 0 <= i < |churn| ==>
      && s.basic[i] == basicSubs[i] as real * basicPrice[i] * (1.0 - churn[i])
      && s.pro[i] == proSubs[i] as real * proPrice[i] * (1.0 - churn[i])
      && s.enterprise[i] == enterpriseSubs[i] as real * enterprisePrice[i] * (1.0 - churn[i])
    ensures forall i :: 0 <= i < |churn| ==>
      s.totalSubscription[i] == s.basic[i] + s.pro[i] + s.enterprise[i]
    ensures forall i :: 0 <= i < |churn| ==>
      s.totalSubscribers[i] == (basicSubs[i] + proSubs[i] + enterpriseSubs[i]) as real * (1.0 - churn[i])
  {
    var n := |churn|;
    var basic := seq(n, i requires 0 <= i < n => basicSubs[i] as real * basicPrice[i] * (1.0 - churn[i]));
    var pro := seq(n, i requires 0 <= i < n => proSubs[i] as real * proPrice[i] * (1.0 - churn[i]));
    var enterprise := seq(n, i requires 0 <= i < n => enterpriseSubs[i] as real * enterprisePrice[i] * (1.0 - churn[i]));
    SubscriptionRevenue(
      basic, pro, enterprise,
      seq(n, i requires 0 <= i < n => basic[i] + pro[i] + enterprise[i]),
      seq(n, i requires 0 <= i < n => (basicSubs[i] + proSubs[i] + enterpriseSubs[i]) as real * (1.0 - churn[i])))
  }

  /**
   * Churn is applied once per trial: the subscription total is the retention
   * factor times the unscaled revenue of the three tiers.
   */
  lemma SubscriptionTotalIsRetainedRevenue(
    basicSubs: seq<int>, proSubs: seq<int>, enterpriseSubs: seq<int>,
    basicPrice: seq<real>, proPrice: seq<real>, enterprisePrice: seq<real>,
    churn: seq<real>, i: nat)
    requires |proSubs| == |enterpriseSubs| == |basicPrice| == |proPrice| == |enterprisePrice| == |churn| == |basicSubs|
    requires i < |churn|
    ensures SimulateSubscriptionRevenue(basicSubs, proSubs, enterpriseSubs, basicPrice, proPrice, enterprisePrice, churn).totalSubscription[i]
      == (1.0 - churn[i]) * (basicSubs[i] as real * basicPrice[i] + proSubs[i] as real * proPrice[i] + enterpriseSubs[i] as real * enterprisePrice[i])
  {
  }

  /**
   * With churn in [0, 1] and non-negative subscriber counts, the churn-scaled
   * subscriber total lies between 0 and the unscaled subscriber sum.
   */
  lemma ChurnBoundsSubscribers(
    basicSubs: seq<int>, proSubs: seq<int>, enterpriseSubs: seq<int>,
    basicPrice: seq<real>, proPrice: seq<real>, enterprisePrice: seq<real>,
    churn: seq<real>)
    requires |proSubs| == |enterpriseSubs| == |basicPrice| == |proPrice| == |enterprisePrice| == |churn| == |basicSubs|
    requires Within(churn, 0.0, 1.0)
    requires forall i :: 0 <= i < |churn| ==> basicSubs[i] >= 0 && proSubs[i] >= 0 && enterpriseSubs[i] >= 0
    ensures forall i :: 0 <= i < |churn| ==>
      0.0 <= SimulateSubscriptionRevenue(basicSubs, proSubs, enterpriseSubs, basicPrice, proPrice, enterprisePrice, churn).totalSubscribers[i]
          <= (basicSubs[i] + proSubs[i] + enterpriseSubs[i]) as real
  {
    var s := SimulateSubscriptionRevenue(basicSubs, proSubs, enterpriseSubs, basicPrice, proPrice, enterprisePrice, churn);
    forall i | 0 <= i < |churn|
      ensures 0.0 <= s.totalSubscribers[i] <= (basicSubs[i] + proSubs[i] + enterpriseSubs[i]) as real
    {
      ScaleDown((basicSubs[i] + proSubs[i] + enterpriseSubs[i]) as real, 1.0 - churn[i]);
    }
  }

  /** Zero subscribers in every tier give zero subscription revenue and zero subscribers. */
  lemma ZeroSubscribersZeroRevenue(
    basicSubs: seq<int>, proSubs: seq<int>, enterpriseSubs: seq<int>,
    basicPrice: seq<real>, proPrice: seq<real>, enterprisePrice: seq<real>,
    churn: seq<real>)
    requires |proSubs| == |enterpriseSubs| == |basicPrice| == |proPrice| == |enterprisePrice| == |churn| == |basicSubs|
    requires forall i :: 0 <= i < |churn| ==> basicSubs[i] == 0 && proSubs[i] == 0 && enterpriseSubs[i] == 0
    ensures forall i :: 0 <= i < |churn| ==>
      SimulateSubscriptionRevenue(basicSubs, proSubs, enterpriseSubs, basicPrice, proPrice, enterprisePrice, churn).totalSubscription[i] == 0.0 &&
      SimulateSubscriptionRevenue(basicSubs, proSubs, enterpriseSubs, basicPrice, proPrice, enterprisePrice, churn).totalSubscribers[i] == 0.0
  {
  }

  // ---------------------------------------------------------------- API

  datatype ApiRevenue = ApiRevenue(apiBase: seq<real>, apiUsage: seq<real>, totalApi: seq<real>, apiCalls: seq<int>)

  /** `simulate_api_revenue`: a base fee plus calls x per-call rate. */
  function SimulateApiRevenue(base: seq<real>, perCall: seq<real>, calls: seq<int>): (a: ApiRevenue)
    requires |perCall| == |calls| == |base|
    ensures |a.apiBase| == |a.apiUsage| == |a.totalApi| == |a.apiCalls| == |base|
    ensures a.apiBase == base && a.apiCalls == calls
    ensures forall i :: 0 <= i < |base| ==> a.apiUsage[i] == calls[i] as real * perCall[i]
    ensures forall i :: 0 <= i < |base| ==> a.totalApi[i] == a.apiBase[i] + a.apiUsage[i]
  {
    var n := |base|;
    var usage := seq(n, i requires 0 <= i < n => calls[i] as real * perCall[i]);
    ApiRevenue(base, usage, seq(n, i requires 0 <= i < n => base[i] + usage[i]), calls)
  }

  /** Per trial, the API total is base + calls x rate, and stays within the bounds its ranges imply. */
  lemma ApiRevenueBounds(base: seq<real>, perCall: seq<real>, calls: seq<int>,
                         baseLo: real, baseHi: real, rateLo: real, rateHi: real, callsLo: int, callsHi: int)
    requires |perCall| == |calls| == |base|
    requires Within(base, baseLo, baseHi) && Within(perCall, rateLo, rateHi) && IntWithin(calls, callsLo, callsHi)
    requires 0.0 <= rateLo && 0 <= callsLo
    ensures forall i :: 0 <= i < |base| ==>
      SimulateApiRevenue(base, perCall, calls).totalApi[i] == base[i] + calls[i] as real * perCall[i]
    ensures forall i :: 0 <= i < |base| ==>
      baseLo + callsLo as real * rateLo <= SimulateApiRevenue(base, perCall, calls).totalApi[i] <= baseHi + callsHi as real * rateHi
  {
    forall i | 0 <= i < |base|
      ensures callsLo as real * rateLo <= calls[i] as real * perCall[i] <= callsHi as real * rateHi
    {
      ProductBounds(calls[i] as real, perCall[i], callsLo as real, callsHi as real, rateLo, rateHi);
    }
  }

  // ---------------------------------------------------------------- projects

  datatype ProjectRevenue = ProjectRevenue(projectCount: seq<int>, avgProjectValue: seq<real>, totalProjects: seq<real>)

  /** `simulate_project_revenue`: project count x (skewed) project value. */
  function SimulateProjectRevenue(count: seq<int>, value: seq<real>): (p: ProjectRevenue)
    requires |value| == |count|
    ensures |p.projectCount| == |p.avgProjectValue| == |p.totalProjects| == |count|
    ensures p.projectCount == count && p.avgProjectValue == value
    ensures forall i :: 0 <= i < |count| ==> p.totalProjects[i] == count[i] as real * value[i]
  {
    ProjectRevenue(count, value, seq(|count|, i requires 0 <= i < |count| => count[i] as real * value[i]))
  }

  /** Per trial, project revenue is count x value and lies within the product of the two ranges. */
  lemma ProjectRevenueBounds(count: seq<int>, value: seq<real>, countLo: int, countHi: int, valueLo: real, valueHi: real)
    requires |value| == |count|
    requires IntWithin(count, countLo, countHi) && Within(value, valueLo, valueHi)
    requires 0 <= countLo && 0.0 <= valueLo
    ensures forall i :: 0 <= i < |count| ==>
      SimulateProjectRevenue(count, value).totalProjects[i] == count[i] as real * value[i]
    ensures forall i :: 0 <= i < |count| ==>
      countLo as real * valueLo <= SimulateProjectRevenue(count, value).totalProjects[i] <= countHi as real * valueHi
  {
    forall i | 0 <= i < |count|
      ensures countLo as real * valueLo <= count[i] as real * value[i] <= countHi as real * valueHi
    {
      ProductBounds(count[i] as real, value[i], countLo as real, countHi as real, valueLo, valueHi);
    }
  }

  // ---------------------------------------------------------------- licensing

  datatype LicensingRevenue = LicensingRevenue(annualDeals: seq<int>, dealValue: seq<real>, monthlyLicensing: seq<real>)

  /** `simulate_licensing_revenue`: annual deals x deal value, amortised over 12 months. */
  function SimulateLicensingRevenue(deals: seq<int>, value: seq<real>): (l: LicensingRevenue)
    requires |value| == |deals|
    ensures |l.annualDeals| == |l.dealValue| == |l.monthlyLicensing| == |deals|
    ensures l.annualDeals == deals && l.dealValue == value
    ensures forall i :: 0 <= i < |deals| ==> 12.0 * l.monthlyLicensing[i] == deals[i] as real * value[i]
  {
    LicensingRevenue(deals, value, seq(|deals|, i requires 0 <= i < |deals| => (deals[i] as real * value[i]) / 12.0))
  }

  /** Monthly licensing revenue is a twelfth of the annual deal total, within the twelfth of the ranges' product. */
  lemma LicensingRevenueBounds(deals: seq<int>, value: seq<real>, dealsLo: int, dealsHi: int, valueLo: real, valueHi: real)
    requires |value| == |deals|
    requires IntWithin(deals, dealsLo, dealsHi) && Within(value, valueLo, valueHi)
    requires 0 <= dealsLo && 0.0 <= valueLo
    ensures forall i :: 0 <= i < |deals| ==>
      dealsLo as real * valueLo / 12.0 <= SimulateLicensingRevenue(deals, value).monthlyLicensing[i] <= dealsHi as real * valueHi / 12.0
  {
    forall i | 0 <= i < |deals|
      ensures dealsLo as real * valueLo <= deals[i] as real * value[i] <= dealsHi as real * valueHi
    {
      ProductBounds(deals[i] as real, value[i], dealsLo as real, dealsHi as real, valueLo, valueHi);
    }
  }

  // ---------------------------------------------------------------- costs

  /** Shares of the automation saving applied to each cost category. */
  const INFRASTRUCTURE_SHARE: real := 0.5
  const DATA_SHARE: real := 0.3
  const PERSONNEL_SHARE: real := 0.2

  datatype Costs = Costs(
    infrastructure: seq<real>, dataAcquisition: seq<real>, personnel: seq<real>,
    marketing: seq<real>, totalCosts: seq<real>, automationSavings: seq<real>)

  /** `x *= (1 - automation * share)`, element-wise. */
  function Scaled(a: seq<real>, automation: seq<real>, share: real): (r: seq<real>)
    requires |automation| == |a|
    ensures |r| == |a|
    ensures forall i :: 0 <= i < |a| ==> r[i] == a[i] * (1.0 - automation[i] * share)
  {
    seq(|a|, i requires 0 <= i < |a| => a[i] * (1.0 - automation[i] * share))
  }

  /** Every automation share is a fraction, so a saving in [0, 1] never raises a non-negative cost. */
  lemma ScaledNotAbove(a: seq<real>, automation: seq<real>, share: real)
    requires |automation| == |a|
    requires 0.0 <= share <= 1.0 && Within(automation, 0.0, 1.0)
    requires forall i :: 0 <= i < |a| ==> a[i] >= 0.0
    ensures forall i :: 0 <= i < |a| ==> 0.0 <= Scaled(a, automation, share)[i] <= a[i]
  {
    forall i | 0 <= i < |a|
      ensures 0.0 <= Scaled(a, automation, share)[i] <= a[i]
    {
      ScaledDraw(Scaled(a, automation, share)[i], a[i], automation[i], share);
    }
  }

  /** One scaled draw `y = x * (1 - saving * share)` lies in [0, x]. */
  lemma ScaledDraw(y: real, x: real, saving: real, share: real)
    requires y == x * (1.0 - saving * share)
    requires x >= 0.0 && 0.0 <= saving <= 1.0 && 0.0 <= share <= 1.0
    ensures 0.0 <= y <= x
  {
    ScaleDown(saving, share);
    ScaleDown(x, 1.0 - saving * share);
  }

  /**
   * What `simulate_costs` computes: infrastructure, data and personnel are
   * scaled down by their automation shares, marketing is left alone, and the
   * total is the sum of the four scaled categories.
   */
  function CostsOf(infrastructure: seq<real>, dataAcquisition: seq<real>, personnel: seq<real>,
                   marketing: seq<real>, automation: seq<real>): (c: Costs)
    requires |dataAcquisition| == |personnel| == |marketing| == |automation| == |infrastructure|
    ensures |c.infrastructure| == |c.dataAcquisition| == |c.personnel| == |c.marketing| ==
            |c.totalCosts| == |c.automationSavings| == |infrastructure|
    ensures c.infrastructure == Scaled(infrastructure, automation, INFRASTRUCTURE_SHARE)
    ensures c.dataAcquisition == Scaled(dataAcquisition, automation, DATA_SHARE)
    ensures c.personnel == Scaled(personnel, automation, PERSONNEL_SHARE)
    ensures c.marketing == marketing && c.automationSavings == automation
    ensures forall i :: 0 <= i < |infrastructure| ==>
      c.totalCosts[i] == c.infrastructure[i] + c.dataAcquisition[i] + c.personnel[i] + c.marketing[i]
  {
    var infra := Scaled(infrastructure, automation, INFRASTRUCTURE_SHARE);
    var data := Scaled(dataAcquisition, automation, DATA_SHARE);
    var staff := Scaled(personnel, automation, PERSONNEL_SHARE);
    Costs(infra, data, staff, marketing,
          seq(|infra|, i requires 0 <= i < |infra| => infra[i] + data[i] + staff[i] + marketing[i]),
          automation)
  }

  /**
   * For an automation saving in [0, 1] and non-negative draws, the scaled
   * infrastructure, data and personnel costs are each at most their unscaled
   * draw, marketing is unchanged, and the total is at most the unscaled sum.
   */
  lemma AutomationNeverRaisesCosts(infrastructure: seq<real>, dataAcquisition: seq<real>, personnel: seq<real>,
                                   marketing: seq<real>, automation: seq<real>)
    requires |dataAcquisition| == |personnel| == |marketing| == |automation| == |infrastructure|
    requires Within(automation, 0.0, 1.0)
    requires forall i :: 0 <= i < |infrastructure| ==>
      infrastructure[i] >= 0.0 && dataAcquisition[i] >= 0.0 && personnel[i] >= 0.0
    ensures var c := CostsOf(infrastructure, dataAcquisition, personnel, marketing, automation);
      forall i :: 0 <= i < |infrastructure| ==>
        0.0 <= c.infrastructure[i] <= infrastructure[i] &&
        0.0 <= c.dataAcquisition[i] <= dataAcquisition[i] &&
        0.0 <= c.personnel[i] <= personnel[i] &&
        c.marketing[i] == marketing[i] &&
        c.totalCosts[i] <= infrastructure[i] + dataAcquisition[i] + personnel[i] + marketing[i]
  {
    ScaledNotAbove(infrastructure, automation, INFRASTRUCTURE_SHARE);
    ScaledNotAbove(dataAcquisition, automation, DATA_SHARE);
    ScaledNotAbove(personnel, automation, PERSONNEL_SHARE);
  }

  /** Zero cost draws give zero total cost in every trial, whatever the automation saving. */
  lemma ZeroCostsZeroTotal(infrastructure: seq<real>, dataAcquisition: seq<real>, personnel: seq<real>,
                           marketing: seq<real>, automation: seq<real>)
    requires |dataAcquisition| == |personnel| == |marketing| == |automation| == |infrastructure|
    requires forall i :: 0 <= i < |infrastructure| ==>
      infrastructure[i] == 0.0 && dataAcquisition[i] == 0.0 && personnel[i] == 0.0 && marketing[i] == 0.0
    ensures forall i :: 0 <= i < |infrastructure| ==>
      CostsOf(infrastructure, dataAcquisition, personnel, marketing, automation).totalCosts[i] == 0.0
  {
  }

  /** The in-place `*=` of `simulate_costs`. */
  method ScaleInPlace(a: array<real>, automation: seq<real>, share: real)
    requires |automation| == a.Length
    modifies a
    ensures a[..] == Scaled(old(a[..]), automation, share)
  {
    var i := 0;
    while i < a.Length
      invariant 0 <= i <= a.Length
      invariant forall k :: 0 <= k < i ==> a[k] == old(a[k]) * (1.0 - automation[k] * share)
      invariant forall k :: i <= k < a.Length ==> a[k] == old(a[k])
    {
      a[i] := a[i] * (1.0 - automation[i] * share);
      i := i + 1;
    }
    assert forall k :: 0 <= k < a.Length ==> a[..][k] == Scaled(old(a[..]), automation, share)[k];
  }

  /**
   * `simulate_costs`: copies the sampled categories into arrays, rescales three
   * of them in place and sums the four.
   */
  method SimulateCosts(infrastructure: seq<real>, dataAcquisition: seq<real>, personnel: seq<real>,
                       marketing: seq<real>, automation: seq<real>) returns (c: Costs)
    requires |dataAcquisition| == |personnel| == |marketing| == |automation| == |infrastructure|
    ensures c == CostsOf(infrastructure, dataAcquisition, personnel, marketing, automation)
  {
    var n := |infrastructure|;
    var infra := new real[n](i requires 0 <= i < n => infrastructure[i]);
    var data := new real[n](i requires 0 <= i < n => dataAcquisition[i]);
    var staff := new real[n](i requires 0 <= i < n => personnel[i]);
    assert infra[..] == infrastructure && data[..] == dataAcquisition && staff[..] == personnel;
    ScaleInPlace(infra, automation, INFRASTRUCTURE_SHARE);
    ScaleInPlace(data, automation, DATA_SHARE);
    ScaleInPlace(staff, automation, PERSONNEL_SHARE);
    var infraCost, dataCost, staffCost := infra[..], data[..], staff[..];
    var total := seq(n, i requires 0 <= i < n => infraCost[i] + dataCost[i] + staffCost[i] + marketing[i]);
    c := Costs(infraCost, dataCost, staffCost, marketing, total, automation);
  }

  // ---------------------------------------------------------------- market adjustment

  /** Weights of the sport-specific impact composite. */
  const BASEBALL_WEIGHT: real := 0.35
  const FOOTBALL_WEIGHT: real := 0.30
  const BASKETBALL_WEIGHT: real := 0.25
  const TRACK_WEIGHT: real := 0.10

  function Min4(a: real, b: real, c: real, d: real): real { Min(Min(a, b), Min(c, d)) }
  function Max4(a: real, b: real, c: real, d: real): real { Max(Max(a, b), Max(c, d)) }

  /** The weighted sum of one trial's four sport impacts. */
  function SportsWeighted(baseball: real, football: real, basketball: real, track: real): real {
    baseball * BASEBALL_WEIGHT + football * FOOTBALL_WEIGHT + basketball * BASKETBALL_WEIGHT + track * TRACK_WEIGHT
  }

  /**
   * The weighted sport composite. The weights sum to 1, so every composite
   * lies between the smallest and the largest of its four sampled impacts.
   */
  function SportsFactor(baseball: seq<real>, football: seq<real>, basketball: seq<real>, track: seq<real>): (f: seq<real>)
    requires |football| == |basketball| == |track| == |baseball|
    ensures |f| == |baseball|
    ensures BASEBALL_WEIGHT + FOOTBALL_WEIGHT + BASKETBALL_WEIGHT + TRACK_WEIGHT == 1.0
    ensures forall i :: 0 <= i < |f| ==>
      f[i] == 0.35 * baseball[i] + 0.30 * football[i] + 0.25 * basketball[i] + 0.10 * track[i]
    ensures forall i :: 0 <= i < |f| ==>
      Min4(baseball[i], football[i], basketball[i], track[i]) <= f[i] <= Max4(baseball[i], football[i], basketball[i], track[i])
  {
    seq(|baseball|, i requires 0 <= i < |baseball| => SportsWeighted(baseball[i], football[i], basketball[i], track[i]))
  }

  /**
   * One trial's market multiplier: seasonality × growth × efficiency × the
   * weighted sport composite.
   */
  function MultiplierAt(seasonality: real, growth: real, efficiency: real,
                        baseball: real, football: real, basketball: real, track: real): real {
    seasonality * growth * efficiency * SportsWeighted(baseball, football, basketball, track)
  }

  /**
   * `apply_market_factors`: per trial, the base revenue times seasonality,
   * growth, platform efficiency and the sport composite.
   */
  function ApplyMarketFactors(base: seq<real>, seasonality: seq<real>, growth: seq<real>, efficiency: seq<real>,
                              baseball: seq<real>, football: seq<real>, basketball: seq<real>, track: seq<real>): (r: seq<real>)
    requires |seasonality| == |growth| == |efficiency| == |baseball| == |football| == |basketball| == |track| == |base|
    ensures |r| == |base|
    ensures forall i :: 0 <= i < |base| ==>
      r[i] == base[i] * MultiplierAt(seasonality[i], growth[i], efficiency[i], baseball[i], football[i], basketball[i], track[i])
  {
    seq(|base|, i requires 0 <= i < |base| =>
      base[i] * MultiplierAt(seasonality[i], growth[i], efficiency[i], baseball[i], football[i], basketball[i], track[i]))
  }

  /** The adjusted revenue of every trial is its base times seasonality, growth, efficiency and the sport composite. */
  lemma MarketAdjustmentUsesComposite(base: seq<real>, seasonality: seq<real>, growth: seq<real>, efficiency: seq<real>,
                                      baseball: seq<real>, football: seq<real>, basketball: seq<real>, track: seq<real>)
    requires |seasonality| == |growth| == |efficiency| == |baseball| == |football| == |basketball| == |track| == |base|
    ensures forall i :: 0 <= i < |base| ==>
      ApplyMarketFactors(base, seasonality, growth, efficiency, baseball, football, basketball, track)[i]
        == base[i] * seasonality[i] * growth[i] * efficiency[i] * SportsFactor(baseball, football, basketball, track)[i]
  {
    var adjusted := ApplyMarketFactors(base, seasonality, growth, efficiency, baseball, football, basketball, track);
    var sports := SportsFactor(baseball, football, basketball, track);
    forall i | 0 <= i < |base|
      ensures adjusted[i] == base[i] * seasonality[i] * growth[i] * efficiency[i] * sports[i]
    {
      assert sports[i] == SportsWeighted(baseball[i], football[i], basketball[i], track[i]);
    }
  }

  /** Scaling by a non-negative base keeps the order of a multiplier and its bounds. */
  lemma ScaleBetween(base: real, m: real, lo: real, hi: real)
    requires base >= 0.0 && lo <= m <= hi
    ensures base * lo <= base * m <= base * hi
  {
    NonNegativeProduct(base, m - lo);
    NonNegativeProduct(base, hi - m);
    assert base * (m - lo) == base * m - base * lo;
    assert base * (hi - m) == base * hi - base * m;
  }

  /** One trial's market multiplier lies between its values at the ends of the ranges. */
  lemma MultiplierBounds(s: real, g: real, e: real, b: real, f: real, k: real, t: real,
                         sr: Range, gr: Range, er: Range, br: Range, fr: Range, kr: Range, tr: Range)
    requires 0.0 <= sr.lo <= s <= sr.hi && 0.0 <= gr.lo <= g <= gr.hi && 0.0 <= er.lo <= e <= er.hi
    requires 0.0 <= br.lo <= b <= br.hi && 0.0 <= fr.lo <= f <= fr.hi
    requires 0.0 <= kr.lo <= k <= kr.hi && 0.0 <= tr.lo <= t <= tr.hi
    ensures MultiplierAt(sr.lo, gr.lo, er.lo, br.lo, fr.lo, kr.lo, tr.lo)
         <= MultiplierAt(s, g, e, b, f, k, t)
         <= MultiplierAt(sr.hi, gr.hi, er.hi, br.hi, fr.hi, kr.hi, tr.hi)
  {
    var sw, swLo, swHi := SportsWeighted(b, f, k, t), SportsWeighted(br.lo, fr.lo, kr.lo, tr.lo), SportsWeighted(br.hi, fr.hi, kr.hi, tr.hi);
    assert 0.0 <= swLo <= sw <= swHi;
    ProductBounds(s, g, sr.lo, sr.hi, gr.lo, gr.hi);
    NonNegativeProduct(sr.lo, gr.lo);
    ProductBounds(s * g, e, sr.lo * gr.lo, sr.hi * gr.hi, er.lo, er.hi);
    NonNegativeProduct(sr.lo * gr.lo, er.lo);
    ProductBounds(s * g * e, sw, sr.lo * gr.lo * er.lo, sr.hi * gr.hi * er.hi, swLo, swHi);
  }

  /** The market adjustment of trial `i` lies between the base times the multiplier at the ends of the ranges. */
  lemma MarketAdjustmentAt(base: seq<real>, seasonality: seq<real>, growth: seq<real>, efficiency: seq<real>,
                           baseball: seq<real>, football: seq<real>, basketball: seq<real>, track: seq<real>,
                           sr: Range, gr: Range, er: Range, br: Range, fr: Range, kr: Range, tr: Range, i: nat)
    requires |seasonality| == |growth| == |efficiency| == |baseball| == |football| == |basketball| == |track| == |base|
    requires i < |base| && base[i] >= 0.0
    requires 0.0 <= sr.lo <= seasonality[i] <= sr.hi && 0.0 <= gr.lo <= growth[i] <= gr.hi
    requires 0.0 <= er.lo <= efficiency[i] <= er.hi && 0.0 <= br.lo <= baseball[i] <= br.hi
    requires 0.0 <= fr.lo <= football[i] <= fr.hi && 0.0 <= kr.lo <= basketball[i] <= kr.hi
    requires 0.0 <= tr.lo <= track[i] <= tr.hi
    ensures base[i] * MultiplierAt(sr.lo, gr.lo, er.lo, br.lo, fr.lo, kr.lo, tr.lo)
        <= ApplyMarketFactors(base, seasonality, growth, efficiency, baseball, football, basketball, track)[i]
        <= base[i] * MultiplierAt(sr.hi, gr.hi, er.hi, br.hi, fr.hi, kr.hi, tr.hi)
  {
    MultiplierBounds(seasonality[i], growth[i], efficiency[i], baseball[i], football[i], basketball[i], track[i],
                     sr, gr, er, br, fr, kr, tr);
    ScaleBetween(base[i], MultiplierAt(seasonality[i], growth[i], efficiency[i], baseball[i], football[i], basketball[i], track[i]),
                 MultiplierAt(sr.lo, gr.lo, er.lo, br.lo, fr.lo, kr.lo, tr.lo),
                 MultiplierAt(sr.hi, gr.hi, er.hi, br.hi, fr.hi, kr.hi, tr.hi));
  }

  /**
   * For a non-negative base revenue and market and sport factors drawn from
   * non-negative ranges, every adjusted revenue lies between the base times
   * the product of the lower ends and the base times the product of the
   * upper ends (the sport composite taken at the weighted ends).
   */
  lemma MarketAdjustmentBounds(base: seq<real>, seasonality: seq<real>, growth: seq<real>, efficiency: seq<real>,
                               baseball: seq<real>, football: seq<real>, basketball: seq<real>, track: seq<real>,
                               sr: Range, gr: Range, er: Range, br: Range, fr: Range, kr: Range, tr: Range)
    requires |seasonality| == |growth| == |efficiency| == |baseball| == |football| == |basketball| == |track| == |base|
    requires forall i :: 0 <= i < |base| ==> base[i] >= 0.0
    requires 0.0 <= sr.lo && 0.0 <= gr.lo && 0.0 <= er.lo && 0.0 <= br.lo && 0.0 <= fr.lo && 0.0 <= kr.lo && 0.0 <= tr.lo
    requires Within(seasonality, sr.lo, sr.hi) && Within(growth, gr.lo, gr.hi) && Within(efficiency, er.lo, er.hi)
    requires Within(baseball, br.lo, br.hi) && Within(football, fr.lo, fr.hi)
    requires Within(basketball, kr.lo, kr.hi) && Within(track, tr.lo, tr.hi)
    ensures forall i :: 0 <= i < |base| ==>
      base[i] * MultiplierAt(sr.lo, gr.lo, er.lo, br.lo, fr.lo, kr.lo, tr.lo)
        <= ApplyMarketFactors(base, seasonality, growth, efficiency, baseball, football, basketball, track)[i]
        <= base[i] * MultiplierAt(sr.hi, gr.hi, er.hi, br.hi, fr.hi, kr.hi, tr.hi)
  {
    forall i | 0 <= i < |base|
      ensures base[i] * MultiplierAt(sr.lo, gr.lo, er.lo, br.lo, fr.lo, kr.lo, tr.lo)
        <= ApplyMarketFactors(base, seasonality, growth, efficiency, baseball, football, basketball, track)[i]
        <= base[i] * MultiplierAt(sr.hi, gr.hi, er.hi, br.hi, fr.hi, kr.hi, tr.hi)
    {
      MarketAdjustmentAt(base, seasonality, growth, efficiency, baseball, football, basketball, track,
                         sr, gr, er, br, fr, kr, tr, i);
    }
  }
}
