/** The /api/servers handlers: GET recomputes every server's derived fields
    from the current rates and base; POST validates and creates one server. */
module ServersRoute {
  import opened Wrappers
  import opened Calculations
  import opened CurrencyRateModel
  import opened ServerModel

  /** The dictionary both handlers start from, before the stored rates are applied. */
  const DEFAULT_ROUTE_RATES: map<string, real> := map["USD" := 110.0, "RMB" := 15.0]

  /** The rates dictionary after `rates[rate.currency] = rate.rateToBDT` for
      each document, in order. */
  function RateMapOf(entries: seq<RateEntry>): map<string, real> {
    if entries == [] then DEFAULT_ROUTE_RATES
    else
      var last := entries[|entries| - 1];
      RateMapOf(entries[..|entries| - 1])[last.currency := last.rateToBDT]
  }

  /** The dictionary holds USD, RMB and every stored code; a stored code maps
      to its last document's rate, and USD or RMB without a document to its
      default. */
  lemma {:induction false} RateMapLookup(entries: seq<RateEntry>, code: string)
    ensures code in RateMapOf(entries) <==> code in DEFAULT_ROUTE_RATES || LastRateFor(entries, code).Some?
    ensures LastRateFor(entries, code).Some? ==> RateMapOf(entries)[code] == LastRateFor(entries, code).value
    ensures LastRateFor(entries, code).None? && code in DEFAULT_ROUTE_RATES ==>
              RateMapOf(entries)[code] == DEFAULT_ROUTE_RATES[code]
  {
    if entries != [] {
      RateMapLookup(entries[..|entries| - 1], code);
    }
  }

  /** The rates object the engine sees: the dictionary's USD and RMB entries. */
  function RouteRates(entries: seq<RateEntry>): (r: Rates)
    ensures r.usd == LastRateFor(entries, "USD").GetOr(110.0)
    ensures r.rmb == LastRateFor(entries, "RMB").GetOr(15.0)
  {
    RateMapLookup(entries, "USD");
    RateMapLookup(entries, "RMB");
    var m := RateMapOf(entries);
    Rates(m["USD"], m["RMB"])
  }

  /** The `forEach` that builds the rates dictionary. */
  method BuildRateMap(entries: seq<RateEntry>) returns (rates: map<string, real>)
    ensures rates == RateMapOf(entries)
  {
    rates := map["USD" := 110.0, "RMB" := 15.0];
    var i := 0;
    while i < |entries|
      invariant 0 <= i <= |entries|
      invariant rates == RateMapOf(entries[..i])
    {
      assert entries[..i + 1][..i] == entries[..i];
      rates := rates[entries[i].currency := entries[i].rateToBDT];
      i := i + 1;
    }
    assert entries[..i] == entries;
  }

  /** The engine input built from one record, against the list's base. */
  function CalculationFor(s: ServerRecord, servers: seq<ServerRecord>, rates: Rates): ServerCalculation
    requires XFactorDefined(Raw(s), BaseDataOf(servers), Some(rates))
  {
    CalculateServerWithXFactor(Raw(s), BaseDataOf(servers), Some(rates))
  }

  /** Every server of the list can be priced against the list's base. */
  predicate RecomputeDefined(servers: seq<ServerRecord>, rates: Rates) {
    forall i :: 0 <= i < |servers| ==> XFactorDefined(Raw(servers[i]), BaseDataOf(servers), Some(rates))
  }

  /** Schema-valid records can all be priced once the base, if any, has a
      non-zero BDT price. */
  lemma RecomputeDefinedForValidRecords(servers: seq<ServerRecord>, rates: Rates)
    requires forall i :: 0 <= i < |servers| ==> SchemaValid(servers[i])
    requires BaseDataOf(servers).Some? ==>
               var b := BaseDataOf(servers).value;
               ConvertToBDT(b.originalPrice, b.originalCurrency, Some(rates)) != 0.0
    ensures RecomputeDefined(servers, rates)
  {
  }

  /** GET's `servers.map`: each record with its derived fields recomputed. */
  function Recomputed(servers: seq<ServerRecord>, rates: Rates): (r: seq<ServerRecord>)
    requires RecomputeDefined(servers, rates)
    ensures |r| == |servers|
  {
    seq(|servers|, i requires 0 <= i < |servers| => WithCalculation(servers[i], CalculationFor(servers[i], servers, rates)))
  }

  /** GET: the stored servers (in the query's createdAt-descending order) with
      freshly computed derived fields. */
  method Get(servers: seq<ServerRecord>, currencyRates: seq<RateEntry>) returns (resp: Response<seq<ServerRecord>>)
    requires RecomputeDefined(servers, RouteRates(currencyRates))
    ensures resp == Success(Recomputed(servers, RouteRates(currencyRates)))
  {
    var rateMap := BuildRateMap(currencyRates);
    RateMapLookup(currencyRates, "USD");
    RateMapLookup(currencyRates, "RMB");
    var rates := Rates(rateMap["USD"], rateMap["RMB"]);
    assert rates == RouteRates(currencyRates);
    var baseServerData := BaseDataOf(servers);
    var updatedServers := seq(|servers|, i requires 0 <= i < |servers| =>
      WithCalculation(servers[i], CalculateServerWithXFactor(Raw(servers[i]), baseServerData, Some(rates))));
    assert updatedServers == Recomputed(servers, rates);
    resp := Success(updatedServers);
  }

  /** GET keeps the list's length and order and every stored field but the
      five derived ones, which are those the engine computes now. */
  lemma RecomputeKeepsRecords(servers: seq<ServerRecord>, rates: Rates, i: nat)
    requires RecomputeDefined(servers, rates) && i < |servers|
    ensures var r := Recomputed(servers, rates)[i];
            && r.(priceInBDT := servers[i].priceInBDT, monthlyCostBDT := servers[i].monthlyCostBDT,
                  costPerTB := servers[i].costPerTB, costPerGB := servers[i].costPerGB,
                  xFactor := servers[i].xFactor) == servers[i]
            && CostsOf(Derived(r)) == CalculateServerCosts(Raw(servers[i]), Some(rates))
            && r.xFactor == CalculateXFactor(Raw(servers[i]), BaseDataOf(servers), Some(rates))
            && r.isBaseServer == servers[i].isBaseServer
  {
  }

  /** In GET's answer the base server's entry has x-factor 1. */
  lemma RecomputedBaseIsOne(servers: seq<ServerRecord>, rates: Rates)
    requires RecomputeDefined(servers, rates)
    requires FirstBaseIndex(servers).Some?
    ensures Recomputed(servers, rates)[FirstBaseIndex(servers).value].xFactor == 1.0
  {
    var b := FirstBaseIndex(servers).value;
    assert BaseDataOf(servers) == Some(Raw(servers[b]));
  }

  /** Two records that differ at most in their derived fields. */
  predicate SameRawData(a: ServerRecord, b: ServerRecord) {
    a.(priceInBDT := b.priceInBDT, monthlyCostBDT := b.monthlyCostBDT, costPerTB := b.costPerTB,
       costPerGB := b.costPerGB, xFactor := b.xFactor) == b
  }

  /** The stored derived fields play no part: two lists that differ only in
      them get the same answer. */
  lemma RecomputeIgnoresStoredDerived(servers: seq<ServerRecord>, stale: seq<ServerRecord>, rates: Rates)
    requires |servers| == |stale| && forall i :: 0 <= i < |servers| ==> SameRawData(stale[i], servers[i])
    requires RecomputeDefined(servers, rates)
    ensures RecomputeDefined(stale, rates)
    ensures Recomputed(stale, rates) == Recomputed(servers, rates)
  {
    SameBaseData(servers, stale);
    assert RecomputeDefined(stale, rates) by {
      forall i | 0 <= i < |stale| ensures XFactorDefined(Raw(stale[i]), BaseDataOf(stale), Some(rates)) {
        assert Raw(stale[i]) == Raw(servers[i]);
      }
    }
    var a := Recomputed(stale, rates);
    var b := Recomputed(servers, rates);
    forall i | 0 <= i < |a| ensures a[i] == b[i] {
      assert Raw(stale[i]) == Raw(servers[i]);
    }
  }

  /** Such lists have the same base server and base data. */
  lemma {:induction false} SameBaseData(servers: seq<ServerRecord>, stale: seq<ServerRecord>)
    requires |servers| == |stale| && forall i :: 0 <= i < |servers| ==> SameRawData(stale[i], servers[i])
    ensures FirstBaseIndex(stale) == FirstBaseIndex(servers)
    ensures BaseDataOf(stale) == BaseDataOf(servers)
  {
    if servers != [] {
      assert stale[0].isBaseServer == servers[0].isBaseServer;
      SameBaseData(servers[1..], stale[1..]);
      match FirstBaseIndex(servers)
      case None =>
      case Some(k) =>
        assert Raw(stale[k]) == Raw(servers[k]);
    }
  }

  /** POST's request body; every property may be missing. */
  datatype PostBody = PostBody(
    name: Option<string>,
    websiteLink: Option<string>,
    originalPrice: Option<real>,
    originalCurrency: Option<string>,
    duration: Option<real>,
    bandwidth: Option<real>)

  predicate TruthyString(x: Option<string>) { x.Some? && x.value != "" }
  predicate TruthyNumber(x: Option<real>) { x.Some? && x.value != 0.0 }

  /** POST's two guards: the error message of the first that fails, or None
      when the body passes both. */
  function PostError(body: PostBody): (r: Option<string>)
    ensures r.None? <==>
              && TruthyString(body.name) && TruthyString(body.originalCurrency)
              && body.originalPrice.Some? && body.originalPrice.value > 0.0
              && body.duration.Some? && body.duration.value > 0.0
              && body.bandwidth.Some? && body.bandwidth.value > 0.0
    ensures r == Some("All fields are required") <==>
              !(TruthyString(body.name) && TruthyNumber(body.originalPrice) && TruthyString(body.originalCurrency)
                && TruthyNumber(body.duration) && TruthyNumber(body.bandwidth))
  {
    if !TruthyString(body.name) || !TruthyNumber(body.originalPrice) || !TruthyString(body.originalCurrency)
       || !TruthyNumber(body.duration) || !TruthyNumber(body.bandwidth) then
      Some("All fields are required")
    else if body.originalPrice.value <= 0.0 || body.duration.value <= 0.0 || body.bandwidth.value <= 0.0 then
      Some("Price, duration, and bandwidth must be positive numbers")
    else None
  }

  /** The schema's currency enum as the record stores it. */
  function ParseCurrency(code: string): (r: Option<Currency>)
    ensures r == Some(USD) <==> code == "USD"
    ensures r == Some(RMB) <==> code == "RMB"
    ensures r == Some(BDT) <==> code == "BDT"
  {
    if code == "USD" then Some(USD)
    else if code == "RMB" then Some(RMB)
    else if code == "BDT" then Some(BDT)
    else None
  }

  /** Every currency's own code parses back to it. */
  lemma ParseCurrencyCode(c: Currency)
    ensures ParseCurrency(CurrencyCode(c)) == Some(c)
  {
  }

  /** The body's raw offer, once it has passed the guards with a known currency. */
  function RawOfBody(body: PostBody): BaseServer
    requires PostError(body).None? && ParseCurrency(body.originalCurrency.value).Some?
  {
    BaseServer(body.originalPrice.value, ParseCurrency(body.originalCurrency.value).value,
               body.duration.value, body.bandwidth.value)
  }

  /** The new server can be priced against the collection's base. */
  predicate PostDefined(body: PostBody, records: seq<ServerRecord>, currencyRates: seq<RateEntry>) {
    PostError(body).None? && ParseCurrency(body.originalCurrency.value).Some? ==>
      XFactorDefined(RawOfBody(body), BaseDataOf(records), Some(RouteRates(currencyRates)))
  }

  /** The document POST builds: the body's fields and the engine's output
      against the current rates and base; not a base server. */
  function CreatedServer(body: PostBody, records: seq<ServerRecord>, currencyRates: seq<RateEntry>,
                         id: nat, now: int): (r: ServerRecord)
    requires PostError(body).None? && ParseCurrency(body.originalCurrency.value).Some?
    requires PostDefined(body, records, currencyRates)
    ensures !r.isBaseServer
    ensures Raw(r) == RawOfBody(body)
    ensures Derived(r) == CalculateServerWithXFactor(RawOfBody(body), BaseDataOf(records), Some(RouteRates(currencyRates)))
    ensures r.id == id && r.name == body.name.value && r.websiteLink == body.websiteLink && r.createdAt == now
  {
    var raw := RawOfBody(body);
    NewServer(id, body.name.value, body.websiteLink, raw,
              CalculateServerWithXFactor(raw, BaseDataOf(records), Some(RouteRates(currencyRates))), now)
  }

  /** POST: a body failing a guard answers 400 and saves nothing; otherwise
      the server is built and saved, and a record the schema rejects (an
      unknown currency, a duration under 1, a bandwidth under 0.1) answers 500
      and saves nothing. `newId` and `now` stand for the database's id and clock. */
  method Post(store: ServerStore, body: PostBody, currencyRates: seq<RateEntry>, newId: nat, now: int)
    returns (resp: Response<ServerRecord>)
    requires store.Valid()
    requires forall i :: 0 <= i < |store.records| ==> store.records[i].id != newId
    requires PostDefined(body, store.records, currencyRates)
    modifies store
    ensures store.Valid()
    ensures PostError(body).Some? ==>
              resp == Failure(400, PostError(body).value) && store.records == old(store.records)
    ensures PostError(body).None? && ParseCurrency(body.originalCurrency.value).None? ==>
              resp == Failure(500, "Failed to create server") && store.records == old(store.records)
    ensures PostError(body).None? && ParseCurrency(body.originalCurrency.value).Some? ==>
              var created := CreatedServer(body, old(store.records), currencyRates, newId, now);
              if SchemaValid(created) then
                resp == Success(created) && store.records == old(store.records) + [created]
              else
                resp == Failure(500, "Failed to create server") && store.records == old(store.records)
  {
    var error := PostError(body);
    if error.Some? {
      return Failure(400, error.value);
    }
    var currency := ParseCurrency(body.originalCurrency.value);
    if currency.None? {
      return Failure(500, "Failed to create server");
    }
    var rateMap := BuildRateMap(currencyRates);
    RateMapLookup(currencyRates, "USD");
    RateMapLookup(currencyRates, "RMB");
    var rates := Rates(rateMap["USD"], rateMap["RMB"]);
    assert rates == RouteRates(currencyRates);
    var baseServerData := BaseDataOf(store.records);
    var serverData := BaseServer(body.originalPrice.value, currency.value, body.duration.value, body.bandwidth.value);
    var calculations := CalculateServerWithXFactor(serverData, baseServerData, Some(rates));
    var server := NewServer(newId, body.name.value, body.websiteLink, serverData, calculations, now);
    assert server == CreatedServer(body, old(store.records), currencyRates, newId, now);
    var saved := store.Save(server);
    if !saved {
      return Failure(500, "Failed to create server");
    }
    assert IndexOfId(old(store.records), newId).None?;
    resp := Success(server);
  }

  /** The guards accept offers the schema rejects: 10 USD for half a month
      passes both guards, yet the record fails the duration bound, so POST
      answers 500. */
  lemma GuardsWeakerThanSchema(records: seq<ServerRecord>, currencyRates: seq<RateEntry>)
    requires BaseDataOf(records).None?
    ensures var body := PostBody(Some("vps"), None, Some(10.0), Some("USD"), Some(0.5), Some(1.0));
            && PostError(body).None?
            && PostDefined(body, records, currencyRates)
            && !SchemaValid(CreatedServer(body, records, currencyRates, 0, 0))
  {
  }
}
