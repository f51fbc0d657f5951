/** The CurrencyRate collection: one document per foreign currency holding its
    rate to BDT, and the lookups the rest of the model makes on it. */
module CurrencyRateModel {
  import opened Wrappers

  /** One stored rate document. The code is kept as the string the database
      holds, since updates that bypass the schema can store any code. */
  datatype RateEntry = RateEntry(currency: string, rateToBDT: real)

  /** The schema's currency enum: only USD and RMB, never BDT. */
  predicate IsRateCurrency(code: string) {
    code == "USD" || code == "RMB"
  }

  /** A document the schema accepts: a required currency from the enum and a
      required rate of at least 0 (zero is allowed here). */
  predicate EntrySchemaValid(e: RateEntry) {
    IsRateCurrency(e.currency) && e.rateToBDT >= 0.0
  }

  /** The unique index on `currency`. */
  predicate UniqueCurrencies(entries: seq<RateEntry>) {
    forall i, j :: 0 <= i < j < |entries| ==> entries[i].currency != entries[j].currency
  }

  /** A collection every document of which the schema and the index accept. */
  predicate CollectionValid(entries: seq<RateEntry>) {
    UniqueCurrencies(entries) && forall i :: 0 <= i < |entries| ==> EntrySchemaValid(entries[i])
  }

  /** The rate of the first document with the given code (a `findOne`). */
  function Lookup(entries: seq<RateEntry>, code: string): (r: Option<real>)
    ensures r.None? <==> forall i :: 0 <= i < |entries| ==> entries[i].currency != code
    ensures r.Some? ==> exists i :: 0 <= i < |entries| && entries[i] == RateEntry(code, r.value)
  {
    if entries == [] then None
    else if entries[0].currency == code then Some(entries[0].rateToBDT)
    else
      var r := Lookup(entries[1..], code);
      assert r.Some? ==> entries[1..][0] in entries[1..];
      r
  }

  /** The document Lookup reads is the first one with the code. */
  lemma {:induction false} LookupIsFirst(entries: seq<RateEntry>, code: string, i: nat)
    requires i < |entries| && entries[i].currency == code
    requires forall k :: 0 <= k < i ==> entries[k].currency != code
    ensures Lookup(entries, code) == Some(entries[i].rateToBDT)
  {
    if i > 0 {
      assert entries[0].currency != code;
      assert entries[1..][i - 1] == entries[i];
      forall k | 0 <= k < i - 1 ensures entries[1..][k].currency != code {
        assert entries[1..][k] == entries[k + 1];
      }
      LookupIsFirst(entries[1..], code, i - 1);
    }
  }

  /** The rate of the last document with the given code: the one that wins
      when documents are applied to a rates object in order. */
  function LastRateFor(entries: seq<RateEntry>, code: string): (r: Option<real>)
    ensures r.None? <==> forall i :: 0 <= i < |entries| ==> entries[i].currency != code
  {
    if entries == [] then None
    else if entries[|entries| - 1].currency == code then Some(entries[|entries| - 1].rateToBDT)
    else LastRateFor(entries[..|entries| - 1], code)
  }

  /** With unique codes, the first and the last document for a code coincide. */
  lemma {:induction false} LookupIsLastRate(entries: seq<RateEntry>, code: string)
    requires UniqueCurrencies(entries)
    ensures Lookup(entries, code) == LastRateFor(entries, code)
  {
    if entries != [] {
      var n := |entries|;
      if entries[n - 1].currency == code {
        LookupFindsSole(entries, code, n - 1);
      } else {
        var init := entries[..n - 1];
        assert UniqueCurrencies(init);
        LookupIsLastRate(init, code);
        LookupIgnoresLast(entries, code);
      }
    }
  }

  /** In a collection with unique codes, `Lookup` returns the one match. */
  lemma {:induction false} LookupFindsSole(entries: seq<RateEntry>, code: string, k: nat)
    requires UniqueCurrencies(entries)
    requires k < |entries| && entries[k].currency == code
    ensures Lookup(entries, code) == Some(entries[k].rateToBDT)
  {
    if k > 0 {
      assert entries[0].currency != code;
      assert UniqueCurrencies(entries[1..]);
      LookupFindsSole(entries[1..], code, k - 1);
    }
  }

  /** A trailing document with another code does not change `Lookup`. */
  lemma {:induction false} LookupIgnoresLast(entries: seq<RateEntry>, code: string)
    requires entries != [] && entries[|entries| - 1].currency != code
    ensures Lookup(entries, code) == Lookup(entries[..|entries| - 1], code)
  {
    if |entries| > 1 && entries[0].currency != code {
      assert entries[1..][..|entries[1..]| - 1] == entries[..|entries| - 1][1..];
      LookupIgnoresLast(entries[1..], code);
    }
  }

  /** The enum and the unique index allow at most two documents. */
  lemma AtMostTwoEntries(entries: seq<RateEntry>)
    requires CollectionValid(entries)
    ensures |entries| <= 2
  {
    if |entries| > 2 {
      ThreeCodesClash(entries[0].currency, entries[1].currency, entries[2].currency);
    }
  }

  /** Three codes from a two-element enum cannot be pairwise distinct. */
  lemma ThreeCodesClash(a: string, b: string, c: string)
    ensures IsRateCurrency(a) && IsRateCurrency(b) && IsRateCurrency(c) ==> a == b || a == c || b == c
  {
  }

  /** No valid collection holds a BDT rate. */
  lemma NoBDTEntry(entries: seq<RateEntry>)
    requires CollectionValid(entries)
    ensures Lookup(entries, "BDT").None?
  {
    forall i | 0 <= i < |entries|
      ensures entries[i].currency != "BDT"
    {
      assert EntrySchemaValid(entries[i]);
    }
  }
}
