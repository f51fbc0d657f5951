/** The pricing engine: conversion of a price into BDT, the derived monthly and
    per-bandwidth costs, and the x-factor of a server relative to a base server.
    Money and bandwidth are exact `real`s. */
module Calculations {
  import opened Wrappers

  /** The currencies an offer can be priced in; BDT is the reference currency. */
  datatype Currency = USD | RMB | BDT

  /** The currency's code as requests and forms carry it. */
  function CurrencyCode(c: Currency): string {
    match c
    case USD => "USD"
    case RMB => "RMB"
    case BDT => "BDT"
  }

  /** A rates object: how many BDT one USD and one RMB are worth. */
  datatype Rates = Rates(usd: real, rmb: real)

  /** The four raw fields of a server that the engine reads. `duration` is in
      months and `bandwidth` in TB. */
  datatype BaseServer = BaseServer(originalPrice: real, originalCurrency: Currency, duration: real, bandwidth: real)

  /** The derived cost fields of one server. */
  datatype Costs = Costs(priceInBDT: real, monthlyCostBDT: real, costPerTB: real, costPerGB: real)

  /** The derived cost fields together with the x-factor. */
  datatype ServerCalculation = ServerCalculation(
    priceInBDT: real, monthlyCostBDT: real, costPerTB: real, costPerGB: real, xFactor: real)

  /** Fallback rates, used when no rates object is passed at all. */
  const DEFAULT_EXCHANGE_RATES := Rates(110.0, 15.0)

  /** Stand-in base server when none is designated: 1000 BDT for one month of 1 TB. */
  const DEFAULT_BASE_SERVER := BaseServer(1000.0, BDT, 1.0, 1.0)

  /** GB in one TB. */
  const GB_PER_TB := 1024.0

  /** The rate-table view of a rates argument: the BDT value of one unit of `c`.
      It is 1 for BDT itself; otherwise it is the supplied rate, or the fallback
      rate when no rates object is given. */
  function FactorToBDT(rates: Option<Rates>, c: Currency): real {
    var table := rates.GetOr(DEFAULT_EXCHANGE_RATES);
    match c
    case BDT => 1.0
    case USD => table.usd
    case RMB => table.rmb
  }

  /** The current rate of a foreign currency, read from a rates object. */
  function RateOf(table: Rates, c: Currency): real
    requires c != BDT
  {
    if c == USD then table.usd else table.rmb
  }

  /** convertToBDT: a BDT amount is returned as it is; any other amount is
      multiplied by its currency's rate. */
  function ConvertToBDT(amount: real, currency: Currency, rates: Option<Rates>): (r: real)
    ensures r == amount * FactorToBDT(rates, currency)
  {
    if currency == BDT then amount
    else amount * RateOf(rates.GetOr(DEFAULT_EXCHANGE_RATES), currency)
  }

  /** The two denominators of calculateServerCosts are non-zero. */
  predicate Measurable(server: BaseServer) {
    server.duration != 0.0 && server.bandwidth != 0.0
  }

  /** calculateServerCosts: price in BDT, per month, per TB and per GB. Each
      derived figure times its divisor gives back the previous one. */
  function CalculateServerCosts(server: BaseServer, rates: Option<Rates>): (c: Costs)
    requires Measurable(server)
    ensures c.priceInBDT == server.originalPrice * FactorToBDT(rates, server.originalCurrency)
    ensures c.monthlyCostBDT * server.duration == c.priceInBDT
    ensures c.costPerTB * server.bandwidth == c.monthlyCostBDT
    ensures c.costPerGB * GB_PER_TB == c.costPerTB
  {
    var priceInBDT := ConvertToBDT(server.originalPrice, server.originalCurrency, rates);
    var monthlyCostBDT := priceInBDT / server.duration;
    var costPerTB := monthlyCostBDT / server.bandwidth;
    var costPerGB := costPerTB / GB_PER_TB;
    Costs(priceInBDT, monthlyCostBDT, costPerTB, costPerGB)
  }

  /** The short-circuit of calculateXFactor: a base is given and all four raw
      fields are equal to the base's. */
  predicate IsSameRaw(server: BaseServer, baseServer: Option<BaseServer>) {
    baseServer.Some? && server == baseServer.value
  }

  /** The base that calculateXFactor divides by. */
  function EffectiveBase(baseServer: Option<BaseServer>): BaseServer {
    baseServer.GetOr(DEFAULT_BASE_SERVER)
  }

  /** calculateXFactor performs no division by zero: the server is measurable
      and, unless the short-circuit answers, so is the base, whose BDT price is
      non-zero. */
  predicate XFactorDefined(server: BaseServer, baseServer: Option<BaseServer>, rates: Option<Rates>) {
    && Measurable(server)
    && (!IsSameRaw(server, baseServer) ==>
          var base := EffectiveBase(baseServer);
          Measurable(base) && ConvertToBDT(base.originalPrice, base.originalCurrency, rates) != 0.0)
  }

  /** calculateXFactor: 1 when the server is the base field for field; otherwise
      the factor by which the server's cost per GB exceeds the base's. */
  function CalculateXFactor(server: BaseServer, baseServer: Option<BaseServer>, rates: Option<Rates>): (r: real)
    requires XFactorDefined(server, baseServer, rates)
    ensures IsSameRaw(server, baseServer) ==> r == 1.0
    ensures !IsSameRaw(server, baseServer) ==>
              r * CalculateServerCosts(EffectiveBase(baseServer), rates).costPerGB
              == CalculateServerCosts(server, rates).costPerGB
  {
    if IsSameRaw(server, baseServer) then 1.0
    else
      var base := EffectiveBase(baseServer);
      var serverCosts := CalculateServerCosts(server, rates);
      var baseCosts := CalculateServerCosts(base, rates);
      assert baseCosts.costPerGB != 0.0;
      serverCosts.costPerGB / baseCosts.costPerGB
  }

  /** calculateServerWithXFactor: the four cost fields followed by the x-factor,
      all for the same server, base and rates. */
  function CalculateServerWithXFactor(server: BaseServer, baseServer: Option<BaseServer>, rates: Option<Rates>)
    : (r: ServerCalculation)
    requires XFactorDefined(server, baseServer, rates)
    ensures CostsOf(r) == CalculateServerCosts(server, rates)
    ensures r.xFactor == CalculateXFactor(server, baseServer, rates)
    ensures baseServer == Some(server) ==> r.xFactor == 1.0
  {
    var costs := CalculateServerCosts(server, rates);
    var xFactor := CalculateXFactor(server, baseServer, rates);
    ServerCalculation(costs.priceInBDT, costs.monthlyCostBDT, costs.costPerTB, costs.costPerGB, xFactor)
  }

  /** The cost fields of a calculation, without its x-factor. */
  function CostsOf(c: ServerCalculation): Costs {
    Costs(c.priceInBDT, c.monthlyCostBDT, c.costPerTB, c.costPerGB)
  }

  /** The same server with its price multiplied by `k`. */
  function WithPriceScaled(server: BaseServer, k: real): BaseServer {
    server.(originalPrice := k * server.originalPrice)
  }

  /** A BDT amount converts to itself, whatever rates are supplied. */
  lemma ConvertBDTIsIdentity(amount: real, rates: Option<Rates>)
    ensures ConvertToBDT(amount, BDT, rates) == amount
  {
  }

  /** With no rates object, USD is worth 110 BDT and RMB 15 BDT; with one, its rates apply. */
  lemma ConvertForeign(amount: real, rates: Option<Rates>)
    ensures ConvertToBDT(amount, USD, None) == amount * 110.0
    ensures ConvertToBDT(amount, RMB, None) == amount * 15.0
    ensures rates.Some? ==> ConvertToBDT(amount, USD, rates) == amount * rates.value.usd
    ensures rates.Some? ==> ConvertToBDT(amount, RMB, rates) == amount * rates.value.rmb
  {
  }

  /** Positive rates, price, duration and bandwidth give positive costs. */
  lemma CostsArePositive(server: BaseServer, rates: Option<Rates>)
    requires server.originalPrice > 0.0 && server.duration > 0.0 && server.bandwidth > 0.0
    requires FactorToBDT(rates, server.originalCurrency) > 0.0
    ensures var c := CalculateServerCosts(server, rates);
      c.priceInBDT > 0.0 && c.monthlyCostBDT > 0.0 && c.costPerTB > 0.0 && c.costPerGB > 0.0
  {
    var c := CalculateServerCosts(server, rates);
    PositiveProduct(server.originalPrice, FactorToBDT(rates, server.originalCurrency));
    PositiveQuotient(c.priceInBDT, server.duration);
    PositiveQuotient(c.monthlyCostBDT, server.bandwidth);
  }

  lemma PositiveProduct(a: real, b: real)
    requires a > 0.0 && b > 0.0
    ensures a * b > 0.0
  {
  }

  lemma PositiveQuotient(a: real, b: real)
    requires a > 0.0 && b > 0.0
    ensures a / b > 0.0
  {
  }

  /** Any server compared with itself as base has x-factor exactly 1. */
  lemma XFactorOfBaseIsOne(server: BaseServer, rates: Option<Rates>)
    requires Measurable(server)
    ensures XFactorDefined(server, Some(server), rates)
    ensures CalculateXFactor(server, Some(server), rates) == 1.0
  {
  }

  /** Without a base, the default base applies: x-factor = cost per TB / 1000. */
  lemma XFactorAgainstDefaultBase(server: BaseServer, rates: Option<Rates>)
    requires Measurable(server)
    ensures XFactorDefined(server, None, rates)
    ensures CalculateXFactor(server, None, rates) == CalculateServerCosts(server, rates).costPerTB / 1000.0
  {
    var base := CalculateServerCosts(DEFAULT_BASE_SERVER, rates);
    assert base.costPerTB == 1000.0;
    CostPerGBRatio(CalculateServerCosts(server, rates), base);
  }

  /** Off the short-circuit, the 1024 cancels: the x-factor is the ratio of
      the costs per TB. */
  lemma XFactorIsCostPerTBRatio(server: BaseServer, baseServer: Option<BaseServer>, rates: Option<Rates>)
    requires XFactorDefined(server, baseServer, rates)
    requires !IsSameRaw(server, baseServer)
    ensures CalculateServerCosts(EffectiveBase(baseServer), rates).costPerTB != 0.0
    ensures CalculateXFactor(server, baseServer, rates)
            == CalculateServerCosts(server, rates).costPerTB / CalculateServerCosts(EffectiveBase(baseServer), rates).costPerTB
  {
    CostPerGBRatio(CalculateServerCosts(server, rates), CalculateServerCosts(EffectiveBase(baseServer), rates));
  }

  lemma CostPerGBRatio(s: Costs, b: Costs)
    requires s.costPerGB * GB_PER_TB == s.costPerTB
    requires b.costPerGB * GB_PER_TB == b.costPerTB
    requires b.costPerTB != 0.0
    ensures b.costPerGB != 0.0
    ensures s.costPerGB / b.costPerGB == s.costPerTB / b.costPerTB
  {
  }

  /** Against a base with positive costs, an x-factor above 1 means a higher
      cost per TB than the base's, and below 1 a lower one. */
  lemma XFactorRanksByCostPerTB(server: BaseServer, baseServer: Option<BaseServer>, rates: Option<Rates>)
    requires XFactorDefined(server, baseServer, rates)
    requires !IsSameRaw(server, baseServer)
    requires CalculateServerCosts(EffectiveBase(baseServer), rates).costPerTB > 0.0
    ensures var x := CalculateXFactor(server, baseServer, rates);
            var tb := CalculateServerCosts(server, rates).costPerTB;
            var baseTb := CalculateServerCosts(EffectiveBase(baseServer), rates).costPerTB;
            && (x > 1.0 <==> tb > baseTb)
            && (x < 1.0 <==> tb < baseTb)
  {
    XFactorIsCostPerTBRatio(server, baseServer, rates);
    var tb := CalculateServerCosts(server, rates).costPerTB;
    var baseTb := CalculateServerCosts(EffectiveBase(baseServer), rates).costPerTB;
    var x := tb / baseTb;
    assert x * baseTb == tb;
  }

  /** Scaling the price by `k` scales every cost field by `k`. */
  lemma CostsScaleWithPrice(server: BaseServer, rates: Option<Rates>, k: real)
    requires Measurable(server)
    ensures var c := CalculateServerCosts(server, rates);
            var s := CalculateServerCosts(WithPriceScaled(server, k), rates);
            && s.priceInBDT == k * c.priceInBDT
            && s.monthlyCostBDT == k * c.monthlyCostBDT
            && s.costPerTB == k * c.costPerTB
            && s.costPerGB == k * c.costPerGB
  {
    var c := CalculateServerCosts(server, rates);
    var s := CalculateServerCosts(WithPriceScaled(server, k), rates);
    ScaledProduct(server.originalPrice, FactorToBDT(rates, server.originalCurrency), k);
    ScaledStep(c.priceInBDT, c.monthlyCostBDT, s.priceInBDT, s.monthlyCostBDT, server.duration, k);
    ScaledStep(c.monthlyCostBDT, c.costPerTB, s.monthlyCostBDT, s.costPerTB, server.bandwidth, k);
    ScaledStep(c.costPerTB, c.costPerGB, s.costPerTB, s.costPerGB, GB_PER_TB, k);
  }

  /** One step of the chain: if the scaled dividend is `k` times the original,
      so is the scaled quotient. */
  lemma ScaledStep(a: real, q: real, sa: real, sq: real, d: real, k: real)
    requires d != 0.0 && q * d == a && sq * d == sa && sa == k * a
    ensures sq == k * q
  {
    assert sq * d == (k * q) * d;
  }

  lemma ScaledProduct(a: real, f: real, k: real)
    ensures (k * a) * f == k * (a * f)
  {
  }

  lemma ScaledQuotient(a: real, d: real, k: real)
    requires d != 0.0
    ensures (k * a) / d == k * (a / d)
  {
  }

  /** Off the short-circuit (for both prices), scaling the price by `k` scales
      the x-factor by `k`. */
  lemma XFactorScalesWithPrice(server: BaseServer, baseServer: Option<BaseServer>, rates: Option<Rates>, k: real)
    requires XFactorDefined(server, baseServer, rates)
    requires !IsSameRaw(server, baseServer) && !IsSameRaw(WithPriceScaled(server, k), baseServer)
    ensures XFactorDefined(WithPriceScaled(server, k), baseServer, rates)
    ensures CalculateXFactor(WithPriceScaled(server, k), baseServer, rates)
            == k * CalculateXFactor(server, baseServer, rates)
  {
    CostsScaleWithPrice(server, rates, k);
    var b := CalculateServerCosts(EffectiveBase(baseServer), rates).costPerGB;
    var g := CalculateServerCosts(server, rates).costPerGB;
    assert b != 0.0;
    ScaledQuotient(g, b, k);
  }

  /** 50 USD at 124 BDT per USD, for 1 month of 2 TB: 6200 BDT, 6200 BDT per
      month, 3100 BDT per TB, x-factor 3.1 against the default base and against
      an explicit base equal to it. */
  lemma ExampleFiftyDollarsTwoTB()
    ensures var server := BaseServer(50.0, USD, 1.0, 2.0);
            var rates := Some(Rates(124.0, 17.5));
            && XFactorDefined(server, None, rates)
            && CalculateServerWithXFactor(server, None, rates)
               == ServerCalculation(6200.0, 6200.0, 3100.0, 3100.0 / 1024.0, 3.1)
            && XFactorDefined(server, Some(DEFAULT_BASE_SERVER), rates)
            && CalculateXFactor(server, Some(DEFAULT_BASE_SERVER), rates) == 3.1
  {
  }
}
