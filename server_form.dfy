/** The add-server form: the rates object built from the rate documents, the
    live preview, and the submission to POST /api/servers. */
module ServerForm {
  import opened Wrappers
  import opened Calculations
  import opened CurrencyRateModel
  import opened ServerModel
  import opened ServersRoute

  /** The rates object after `if USD then rates.USD = …; if RMB then rates.RMB = …`
      for each document, in order, from USD 110 and RMB 15. */
  function RatesObjectOf(entries: seq<RateEntry>): Rates {
    if entries == [] then Rates(110.0, 15.0)
    else
      var r := RatesObjectOf(entries[..|entries| - 1]);
      var last := entries[|entries| - 1];
      if last.currency == "USD" then r.(usd := last.rateToBDT)
      else if last.currency == "RMB" then r.(rmb := last.rateToBDT)
      else r
  }

  /** The last USD and the last RMB document win; a currency without one keeps
      its default, and other codes are ignored. */
  lemma {:induction false} RatesObjectIsLastRate(entries: seq<RateEntry>)
    ensures RatesObjectOf(entries).usd == LastRateFor(entries, "USD").GetOr(110.0)
    ensures RatesObjectOf(entries).rmb == LastRateFor(entries, "RMB").GetOr(15.0)
  {
    if entries != [] {
      RatesObjectIsLastRate(entries[..|entries| - 1]);
    }
  }

  /** The form and the servers route turn the same documents into the same rates. */
  lemma FormAndRouteRatesAgree(entries: seq<RateEntry>)
    ensures RatesObjectOf(entries) == RouteRates(entries)
  {
    RatesObjectIsLastRate(entries);
  }

  /** getRatesObject. */
  method GetRatesObject(currencyRates: seq<RateEntry>) returns (rates: Rates)
    ensures rates == RatesObjectOf(currencyRates)
    ensures rates == RouteRates(currencyRates)
    ensures currencyRates == [] ==> rates == DEFAULT_EXCHANGE_RATES
  {
    rates := Rates(110.0, 15.0);
    var i := 0;
    while i < |currencyRates|
      invariant 0 <= i <= |currencyRates|
      invariant rates == RatesObjectOf(currencyRates[..i])
    {
      assert currencyRates[..i + 1][..i] == currencyRates[..i];
      var rate := currencyRates[i];
      if rate.currency == "USD" {
        rates := rates.(usd := rate.rateToBDT);
      }
      if rate.currency == "RMB" {
        rates := rates.(rmb := rate.rateToBDT);
      }
      i := i + 1;
    }
    assert currencyRates[..i] == currencyRates;
    FormAndRouteRatesAgree(currencyRates);
  }

  /** The form's fields as parsed: a price, duration or bandwidth is None when
      its input is empty or not a number. */
  datatype FormData = FormData(
    name: string,
    company: string,
    originalPrice: Option<real>,
    originalCurrency: Currency,
    duration: Option<int>,
    bandwidth: Option<real>)

  /** The empty form, with currency USD. */
  const EMPTY_FORM := FormData("", "", None, USD, None, None)

  /** The preview's gate: price, duration and bandwidth all present and positive. */
  predicate PreviewReady(f: FormData) {
    && f.originalPrice.Some? && f.originalPrice.value > 0.0
    && f.duration.Some? && f.duration.value > 0
    && f.bandwidth.Some? && f.bandwidth.value > 0.0
  }

  /** The `serverData` the preview prices. */
  function FormRaw(f: FormData): (b: BaseServer)
    requires PreviewReady(f)
    ensures Measurable(b)
    ensures b.originalPrice == f.originalPrice.value && b.originalCurrency == f.originalCurrency
    ensures b.duration == f.duration.value as real && b.bandwidth == f.bandwidth.value
  {
    BaseServer(f.originalPrice.value, f.originalCurrency, f.duration.value as real, f.bandwidth.value)
  }

  /** The preview can be computed without dividing by zero. */
  predicate PreviewDefined(f: FormData, servers: seq<ServerRecord>, currencyRates: seq<RateEntry>) {
    PreviewReady(f) ==> XFactorDefined(FormRaw(f), BaseDataOf(servers), Some(RatesObjectOf(currencyRates)))
  }

  /** The preview: null unless the gate passes; otherwise the engine's output
      for the form's offer against the list's first base server and the rates object. */
  function Preview(f: FormData, servers: seq<ServerRecord>, currencyRates: seq<RateEntry>): (r: Option<ServerCalculation>)
    requires PreviewDefined(f, servers, currencyRates)
    ensures r.None? <==> !PreviewReady(f)
    ensures r.Some? ==>
              r.value == CalculateServerWithXFactor(FormRaw(f), BaseDataOf(servers), Some(RatesObjectOf(currencyRates)))
  {
    if PreviewReady(f) then
      Some(CalculateServerWithXFactor(FormRaw(f), BaseDataOf(servers), Some(RatesObjectOf(currencyRates))))
    else None
  }

  /** The JSON body handleSubmit sends; the company is sent, and no link. */
  function SubmitBody(f: FormData): PostBody {
    PostBody(Some(f.name), None, f.originalPrice, Some(CurrencyCode(f.originalCurrency)),
             if f.duration.Some? then Some(f.duration.value as real) else None, f.bandwidth)
  }

  /** A submission passes POST's guards exactly when the preview's gate passes
      and the name is filled in. */
  lemma SubmitPassesGuardsIffReady(f: FormData)
    ensures PostError(SubmitBody(f)).None? <==> PreviewReady(f) && f.name != ""
  {
  }

  /** A submission that passes the guards is stored with exactly the figures
      the preview showed, when the form sees the same base and rate documents
      as the route. */
  lemma PreviewIsWhatPostStores(f: FormData, servers: seq<ServerRecord>, records: seq<ServerRecord>,
                                currencyRates: seq<RateEntry>, id: nat, now: int)
    requires PreviewReady(f) && f.name != ""
    requires BaseDataOf(servers) == BaseDataOf(records)
    requires PreviewDefined(f, servers, currencyRates)
    ensures ParseCurrency(SubmitBody(f).originalCurrency.value).Some?
    ensures PostDefined(SubmitBody(f), records, currencyRates)
    ensures Preview(f, servers, currencyRates)
            == Some(Derived(CreatedServer(SubmitBody(f), records, currencyRates, id, now)))
  {
    ParseCurrencyCode(f.originalCurrency);
    FormAndRouteRatesAgree(currencyRates);
    assert RawOfBody(SubmitBody(f)) == FormRaw(f);
  }

  /** The form component's state. */
  class ServerFormComponent {
    var formData: FormData
    var preview: Option<ServerCalculation>

    constructor ()
      ensures formData == EMPTY_FORM && preview == None
    {
      formData := EMPTY_FORM;
      preview := None;
    }

    /** An input's change handler: the form takes the new values. */
    method SetFormData(f: FormData)
      modifies this`formData
      ensures formData == f
    {
      formData := f;
    }

    /** The effect that runs when the form or the rates change. */
    method RefreshPreview(servers: seq<ServerRecord>, currencyRates: seq<RateEntry>)
      requires PreviewDefined(formData, servers, currencyRates)
      modifies this`preview
      ensures preview == Preview(formData, servers, currencyRates)
      ensures preview.None? <==> !PreviewReady(formData)
    {
      if PreviewReady(formData) {
        var baseServerData := BaseDataOf(servers);
        var serverData := BaseServer(formData.originalPrice.value, formData.originalCurrency,
                                     formData.duration.value as real, formData.bandwidth.value);
        var rates := GetRatesObject(currencyRates);
        preview := Some(CalculateServerWithXFactor(serverData, baseServerData, Some(rates)));
      } else {
        preview := None;
      }
    }

    /** handleSubmit against the store: the body is posted, and on success the
        form is reset and the preview cleared; on failure both are kept.
        `newId` and `now` stand for the database's id and clock. */
    method HandleSubmit(store: ServerStore, currencyRates: seq<RateEntry>, newId: nat, now: int)
      returns (resp: Response<ServerRecord>)
      requires store.Valid()
      requires forall i :: 0 <= i < |store.records| ==> store.records[i].id != newId
      requires PostDefined(SubmitBody(formData), store.records, currencyRates)
      modifies this, store
      ensures store.Valid()
      ensures resp.Success? <==>
                PreviewReady(old(formData)) && old(formData).name != ""
                && SchemaValid(CreatedServer(SubmitBody(old(formData)), old(store.records), currencyRates, newId, now))
      ensures resp.Success? ==>
                resp.data == CreatedServer(SubmitBody(old(formData)), old(store.records), currencyRates, newId, now)
                && store.records == old(store.records) + [resp.data]
                && formData == EMPTY_FORM && preview == None
      ensures resp.Failure? ==>
                store.records == old(store.records) && formData == old(formData) && preview == old(preview)
    {
      var body := SubmitBody(formData);
      SubmitPassesGuardsIffReady(formData);
      ParseCurrencyCode(formData.originalCurrency);
      resp := Post(store, body, currencyRates, newId, now);
      if resp.Success? {
        formData := EMPTY_FORM;
        preview := None;
      }
    }
  }
}
