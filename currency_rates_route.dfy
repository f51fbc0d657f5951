/** The /api/currency-rates handlers over an in-memory CurrencyRate
    collection: GET seeds an empty collection, PUT upserts rate by rate. */
module CurrencyRatesRoute {
  import opened Wrappers
  import opened CurrencyRateModel

  /** The documents GET inserts into an empty collection. */
  const SEED_RATES := [RateEntry("USD", 124.0), RateEntry("RMB", 17.5)]

  /** One element of PUT's `rates` array; either property may be missing. */
  datatype RateInput = RateInput(currency: Option<string>, rateToBDT: Option<real>)

  /** The element passes PUT's check: a truthy currency and a truthy,
      positive rate. */
  predicate ValidInput(x: RateInput) {
    && x.currency.Some? && x.currency.value != ""
    && x.rateToBDT.Some? && x.rateToBDT.value != 0.0
    && !(x.rateToBDT.value <= 0.0)
  }

  /** The document a valid element is written as. */
  function EntryOf(x: RateInput): RateEntry
    requires ValidInput(x)
  {
    RateEntry(x.currency.value, x.rateToBDT.value)
  }

  /** A `findOneAndUpdate` by code with `upsert`: the first document holding the
      code gets the new rate, and when there is none a document is appended. */
  function Upsert(entries: seq<RateEntry>, e: RateEntry): (r: seq<RateEntry>)
    ensures Lookup(entries, e.currency).Some? ==> |r| == |entries|
    ensures Lookup(entries, e.currency).None? ==> r == entries + [e]
    ensures forall i :: 0 <= i < |entries| ==> r[i].currency == entries[i].currency
  {
    if entries == [] then [e]
    else if entries[0].currency == e.currency then [e] + entries[1..]
    else
      var rest := Upsert(entries[1..], e);
      assert forall i :: 1 <= i < |entries| ==> ([entries[0]] + rest)[i] == rest[i - 1];
      [entries[0]] + rest
  }

  /** Index of the first element PUT rejects, or the length if there is none. */
  function FirstInvalid(items: seq<RateInput>): (k: nat)
    ensures k <= |items|
    ensures forall i :: 0 <= i < k ==> ValidInput(items[i])
    ensures k < |items| ==> !ValidInput(items[k])
  {
    if items == [] || !ValidInput(items[0]) then 0
    else 1 + FirstInvalid(items[1..])
  }

  predicate AllValid(items: seq<RateInput>) {
    forall i :: 0 <= i < |items| ==> ValidInput(items[i])
  }

  /** The collection after upserting every element, in order. */
  function ApplyAll(entries: seq<RateEntry>, items: seq<RateInput>): seq<RateEntry>
    requires AllValid(items)
  {
    if items == [] then entries
    else Upsert(ApplyAll(entries, items[..|items| - 1]), EntryOf(items[|items| - 1]))
  }

  /** The `data` of a successful PUT: one updated document per element. */
  function UpdatedEntries(items: seq<RateInput>): (r: seq<RateEntry>)
    requires AllValid(items)
    ensures |r| == |items|
    ensures forall i :: 0 <= i < |items| ==> r[i] == RateEntry(items[i].currency.value, items[i].rateToBDT.value)
  {
    seq(|items|, i requires 0 <= i < |items| => EntryOf(items[i]))
  }

  /** The rate the last element for a code carries, if any element has it. */
  function LastInputRate(items: seq<RateInput>, code: string): Option<real>
    requires AllValid(items)
  {
    if items == [] then None
    else if items[|items| - 1].currency.value == code then Some(items[|items| - 1].rateToBDT.value)
    else LastInputRate(items[..|items| - 1], code)
  }

  /** After an upsert the code holds the new rate and every other code keeps
      its old one. */
  lemma {:induction false} UpsertSetsRate(entries: seq<RateEntry>, e: RateEntry, code: string)
    ensures Lookup(Upsert(entries, e), e.currency) == Some(e.rateToBDT)
    ensures code != e.currency ==> Lookup(Upsert(entries, e), code) == Lookup(entries, code)
  {
    if entries != [] && entries[0].currency != e.currency {
      UpsertSetsRate(entries[1..], e, code);
      assert Upsert(entries, e)[1..] == Upsert(entries[1..], e);
    }
  }

  /** An upsert keeps the codes unique. */
  lemma UpsertKeepsUnique(entries: seq<RateEntry>, e: RateEntry)
    requires UniqueCurrencies(entries)
    ensures UniqueCurrencies(Upsert(entries, e))
  {
    var r := Upsert(entries, e);
    forall i, j | 0 <= i < j < |r| ensures r[i].currency != r[j].currency {
      if j < |entries| {
        assert r[i].currency == entries[i].currency && r[j].currency == entries[j].currency;
      } else {
        assert Lookup(entries, e.currency).None? && r[j] == e;
        assert r[i].currency == entries[i].currency;
      }
    }
  }

  /** An upsert of a schema-valid document into a schema-valid collection
      leaves it schema-valid. */
  lemma {:induction false} UpsertKeepsSchema(entries: seq<RateEntry>, e: RateEntry)
    requires CollectionValid(entries) && EntrySchemaValid(e)
    ensures CollectionValid(Upsert(entries, e))
  {
    UpsertKeepsUnique(entries, e);
    UpsertEntries(entries, e);
  }

  /** Every document after an upsert is the upserted one or an old one. */
  lemma {:induction false} UpsertEntries(entries: seq<RateEntry>, e: RateEntry)
    ensures forall j :: 0 <= j < |Upsert(entries, e)| ==> Upsert(entries, e)[j] == e || Upsert(entries, e)[j] in entries
  {
    if entries != [] && entries[0].currency != e.currency {
      UpsertEntries(entries[1..], e);
      var r := Upsert(entries, e);
      forall j | 0 < j < |r| ensures r[j] == e || r[j] in entries {
        assert r[j] == Upsert(entries[1..], e)[j - 1];
      }
    }
  }

  /** Elements are applied in order, so the last element for a code decides
      its rate; codes no element names keep their rate. */
  lemma {:induction false} LastInputWins(entries: seq<RateEntry>, items: seq<RateInput>, code: string)
    requires AllValid(items)
    ensures Lookup(ApplyAll(entries, items), code)
            == if LastInputRate(items, code).Some? then LastInputRate(items, code) else Lookup(entries, code)
  {
    if items != [] {
      var init := items[..|items| - 1];
      assert AllValid(init);
      LastInputWins(entries, init, code);
      UpsertSetsRate(ApplyAll(entries, init), EntryOf(items[|items| - 1]), code);
    }
  }

  /** The unique index holds and no rate is negative: what the collection
      keeps under GET and PUT. */
  predicate IndexedAndBounded(entries: seq<RateEntry>) {
    UniqueCurrencies(entries) && forall i :: 0 <= i < |entries| ==> entries[i].rateToBDT >= 0.0
  }

  /** An upsert with a non-negative rate keeps the unique index and the bound. */
  lemma UpsertKeepsIndexedAndBounded(entries: seq<RateEntry>, e: RateEntry)
    requires IndexedAndBounded(entries) && e.rateToBDT >= 0.0
    ensures IndexedAndBounded(Upsert(entries, e))
  {
    UpsertKeepsUnique(entries, e);
    UpsertEntries(entries, e);
    var r := Upsert(entries, e);
    forall i | 0 <= i < |r| ensures r[i].rateToBDT >= 0.0 {
      if r[i] != e {
        var k :| 0 <= k < |entries| && entries[k] == r[i];
      }
    }
  }

  /** When every applied element names USD or RMB, the whole collection stays
      schema-valid. */
  lemma {:induction false} ApplyAllKeepsSchema(entries: seq<RateEntry>, items: seq<RateInput>)
    requires AllValid(items) && CollectionValid(entries)
    requires forall i :: 0 <= i < |items| ==> IsRateCurrency(items[i].currency.value)
    ensures CollectionValid(ApplyAll(entries, items))
  {
    if items != [] {
      var init := items[..|items| - 1];
      assert AllValid(init);
      ApplyAllKeepsSchema(entries, init);
      UpsertKeepsSchema(ApplyAll(entries, init), EntryOf(items[|items| - 1]));
    }
  }

  /** The seed documents pass the schema. */
  lemma SeedIsSchemaValid()
    ensures CollectionValid(SEED_RATES)
  {
  }

  /** The CurrencyRate collection. */
  class RateStore {
    var entries: seq<RateEntry>

    /** The unique index and the schema bound on the rate. */
    ghost predicate Valid()
      reads this
    {
      IndexedAndBounded(entries)
    }

    constructor ()
      ensures Valid() && entries == []
    {
      entries := [];
    }

    /** GET: an empty collection is seeded with USD 124 and RMB 17.5; the
        documents are returned. */
    method Get() returns (resp: Response<seq<RateEntry>>)
      requires Valid()
      modifies this
      ensures Valid()
      ensures old(entries) == [] ==> entries == SEED_RATES
      ensures old(entries) != [] ==> entries == old(entries)
      ensures resp == Success(entries)
    {
      if |entries| == 0 {
        entries := SEED_RATES;
      }
      resp := Success(entries);
    }

    /** PUT: a missing or non-array `rates` (None) is rejected with nothing
        changed; otherwise the elements are upserted in order until the first
        invalid one, which answers 400 and leaves the earlier upserts in place. */
    method Put(rates: Option<seq<RateInput>>) returns (resp: Response<seq<RateEntry>>)
      requires Valid()
      modifies this
      ensures Valid()
      ensures rates.None? ==> resp == Failure(400, "Invalid rates data") && entries == old(entries)
      ensures rates.Some? ==>
                var items := rates.value;
                var k := FirstInvalid(items);
                && entries == ApplyAll(old(entries), items[..k])
                && resp == if k < |items| then Failure(400, "Invalid rate data")
                           else Success(UpdatedEntries(items))
    {
      if rates.None? {
        return Failure(400, "Invalid rates data");
      }
      var items := rates.value;
      var updatedRates := [];
      var i := 0;
      while i < |items|
        invariant 0 <= i <= |items|
        invariant AllValid(items[..i])
        invariant entries == ApplyAll(old(entries), items[..i])
        invariant updatedRates == UpdatedEntries(items[..i])
        invariant Valid()
      {
        var rate := items[i];
        if !ValidInput(rate) {
          FirstInvalidAt(items, i);
          return Failure(400, "Invalid rate data");
        }
        var updatedRate := EntryOf(rate);
        UpsertKeepsIndexedAndBounded(entries, updatedRate);
        ApplyStep(old(entries), items, i);
        entries := Upsert(entries, updatedRate);
        updatedRates := updatedRates + [updatedRate];
        i := i + 1;
      }
      assert items[..i] == items;
      FirstInvalidAt(items, i);
      resp := Success(updatedRates);
    }
  }

  /** One more valid element extends the applied prefix by one upsert and the
      answer by one document. */
  lemma ApplyStep(entries: seq<RateEntry>, items: seq<RateInput>, i: nat)
    requires i < |items| && AllValid(items[..i]) && ValidInput(items[i])
    ensures AllValid(items[..i + 1])
    ensures ApplyAll(entries, items[..i + 1]) == Upsert(ApplyAll(entries, items[..i]), EntryOf(items[i]))
    ensures UpdatedEntries(items[..i + 1]) == UpdatedEntries(items[..i]) + [EntryOf(items[i])]
  {
    assert items[..i + 1][..i] == items[..i];
    assert items[..i + 1][i] == items[i];
  }

  /** When the elements before `k` are valid and `k` is the end or invalid,
      `k` is the first invalid index. */
  lemma {:induction false} FirstInvalidAt(items: seq<RateInput>, k: nat)
    requires k <= |items| && AllValid(items[..k])
    requires k < |items| ==> !ValidInput(items[k])
    ensures FirstInvalid(items) == k
  {
    if k > 0 {
      assert items[..k][0] == items[0];
      assert items[1..][..k - 1] == items[..k][1..];
      FirstInvalidAt(items[1..], k - 1);
    }
  }
}
