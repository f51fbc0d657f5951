/** The Server collection: the stored record, its schema bounds, and `save`
    with the pre-save hook that keeps at most one base server. */
module ServerModel {
  import opened Wrappers
  import opened Calculations

  /** One stored server: identity, name, the raw offer, the derived fields as
      last stored, the base flag and the creation time. */
  datatype ServerRecord = ServerRecord(
    id: nat,
    name: string,
    websiteLink: Option<string>,
    originalPrice: real,
    originalCurrency: Currency,
    duration: real,
    bandwidth: real,
    priceInBDT: real,
    monthlyCostBDT: real,
    costPerTB: real,
    costPerGB: real,
    xFactor: real,
    isBaseServer: bool,
    createdAt: int)

  /** The four raw fields the pricing engine reads. */
  function Raw(s: ServerRecord): (b: BaseServer)
    ensures b.originalPrice == s.originalPrice && b.originalCurrency == s.originalCurrency
    ensures b.duration == s.duration && b.bandwidth == s.bandwidth
  {
    BaseServer(s.originalPrice, s.originalCurrency, s.duration, s.bandwidth)
  }

  /** The five derived fields of a record. */
  function Derived(s: ServerRecord): ServerCalculation {
    ServerCalculation(s.priceInBDT, s.monthlyCostBDT, s.costPerTB, s.costPerGB, s.xFactor)
  }

  /** The record with its derived fields replaced by a calculation (the
      `{ ...server, ...calculations }` spread); nothing else changes. */
  function WithCalculation(s: ServerRecord, c: ServerCalculation): (r: ServerRecord)
    ensures r.(priceInBDT := s.priceInBDT, monthlyCostBDT := s.monthlyCostBDT, costPerTB := s.costPerTB,
               costPerGB := s.costPerGB, xFactor := s.xFactor) == s
    ensures Raw(r) == Raw(s) && Derived(r) == c
  {
    s.(priceInBDT := c.priceInBDT, monthlyCostBDT := c.monthlyCostBDT, costPerTB := c.costPerTB,
       costPerGB := c.costPerGB, xFactor := c.xFactor)
  }

  /** A new document: the given fields and derived values, and the schema's
      default `isBaseServer: false`. */
  function NewServer(id: nat, name: string, websiteLink: Option<string>, raw: BaseServer,
                     c: ServerCalculation, createdAt: int): (r: ServerRecord)
    ensures !r.isBaseServer
    ensures r.id == id && r.name == name && r.websiteLink == websiteLink && r.createdAt == createdAt
    ensures Raw(r) == raw && Derived(r) == c
  {
    ServerRecord(id, name, websiteLink, raw.originalPrice, raw.originalCurrency, raw.duration, raw.bandwidth,
                 c.priceInBDT, c.monthlyCostBDT, c.costPerTB, c.costPerGB, c.xFactor, false, createdAt)
  }

  /** The schema's validators: a required name, price at least 0, duration at
      least 1 month, bandwidth at least 0.1 TB (the currency enum is the type). */
  predicate SchemaValid(s: ServerRecord) {
    s.name != "" && s.originalPrice >= 0.0 && s.duration >= 1.0 && s.bandwidth >= 0.1
  }

  /** A schema-valid record never divides by zero in the engine. */
  lemma SchemaValidIsMeasurable(s: ServerRecord)
    requires SchemaValid(s)
    ensures Measurable(Raw(s))
  {
  }

  /** Ids are unique, as `_id` is. */
  predicate UniqueIds(records: seq<ServerRecord>) {
    forall i, j :: 0 <= i < j < |records| ==> records[i].id != records[j].id
  }

  /** At most one record carries the base flag. */
  predicate AtMostOneBase(records: seq<ServerRecord>) {
    forall i, j :: 0 <= i < j < |records| ==> !(records[i].isBaseServer && records[j].isBaseServer)
  }

  /** `servers.find(s => s.isBaseServer)`, as an index: the first record
      flagged as base, or none. */
  function FirstBaseIndex(servers: seq<ServerRecord>): (r: Option<nat>)
    ensures r.Some? ==> r.value < |servers| && servers[r.value].isBaseServer
    ensures r.Some? ==> forall j :: 0 <= j < r.value ==> !servers[j].isBaseServer
    ensures r.None? ==> forall j :: 0 <= j < |servers| ==> !servers[j].isBaseServer
  {
    if servers == [] then None
    else if servers[0].isBaseServer then Some(0)
    else
      match FirstBaseIndex(servers[1..])
      case None => None
      case Some(k) => Some(k + 1)
  }

  /** The base data the routes and the form pass to the engine: only the four
      raw fields of the first base record, or `undefined`. */
  function BaseDataOf(servers: seq<ServerRecord>): (r: Option<BaseServer>)
    ensures r.None? <==> forall j :: 0 <= j < |servers| ==> !servers[j].isBaseServer
    ensures r.Some? ==> exists j :: 0 <= j < |servers| && servers[j].isBaseServer && Raw(servers[j]) == r.value
                                    && forall k :: 0 <= k < j ==> !servers[k].isBaseServer
  {
    match FirstBaseIndex(servers)
    case None => None
    case Some(i) => Some(Raw(servers[i]))
  }

  /** The hook's `updateMany({ _id: { $ne: id } }, { $set: { isBaseServer: false } })`. */
  function ClearOtherBases(records: seq<ServerRecord>, id: nat): (r: seq<ServerRecord>)
    ensures |r| == |records|
    ensures forall i :: 0 <= i < |r| ==> r[i].(isBaseServer := records[i].isBaseServer) == records[i]
    ensures forall i :: 0 <= i < |r| ==> r[i].isBaseServer == (records[i].isBaseServer && records[i].id == id)
  {
    seq(|records|, i requires 0 <= i < |records| =>
      if records[i].id != id then records[i].(isBaseServer := false) else records[i])
  }

  /** Position of the record with the given id. */
  function IndexOfId(records: seq<ServerRecord>, id: nat): (r: Option<nat>)
    ensures r.Some? ==> r.value < |records| && records[r.value].id == id
    ensures r.None? ==> forall j :: 0 <= j < |records| ==> records[j].id != id
  {
    if records == [] then None
    else if records[0].id == id then Some(0)
    else
      match IndexOfId(records[1..], id)
      case None => None
      case Some(k) => Some(k + 1)
  }

  /** The write of `save`: the record replaces its stored version, or is
      inserted at the end. */
  function Written(records: seq<ServerRecord>, rec: ServerRecord): seq<ServerRecord> {
    match IndexOfId(records, rec.id)
    case Some(i) => records[i := rec]
    case None => records + [rec]
  }

  /** The collection after a successful `save`: the hook first (only for a base
      record), then the write. */
  function Saved(records: seq<ServerRecord>, rec: ServerRecord): seq<ServerRecord> {
    Written(if rec.isBaseServer then ClearOtherBases(records, rec.id) else records, rec)
  }

  /** In a collection with unique ids, `IndexOfId` finds every record's own
      position. */
  lemma {:induction false} IndexOfIdAt(records: seq<ServerRecord>, k: nat)
    requires UniqueIds(records) && k < |records|
    ensures IndexOfId(records, records[k].id) == Some(k)
  {
    if k > 0 {
      assert records[0].id != records[k].id;
      assert UniqueIds(records[1..]);
      assert records[1..][k - 1] == records[k];
      IndexOfIdAt(records[1..], k - 1);
    }
  }

  /** After the write, the saved record is in the collection, every other
      record is where it was, and ids stay unique. */
  lemma WrittenShape(records: seq<ServerRecord>, rec: ServerRecord)
    requires UniqueIds(records)
    ensures var r := Written(records, rec);
            && UniqueIds(r)
            && rec in r
            && |records| <= |r| <= |records| + 1
            && (forall i :: 0 <= i < |records| && records[i].id != rec.id ==> r[i] == records[i])
            && (forall i :: 0 <= i < |r| && r[i].id == rec.id ==> r[i] == rec)
            && (forall i :: |records| <= i < |r| ==> r[i] == rec)
  {
    var r := Written(records, rec);
    match IndexOfId(records, rec.id)
    case None =>
      assert r[|records|] == rec;
    case Some(k) =>
      forall i, j | 0 <= i < j < |r| ensures r[i].id != r[j].id {
        assert r[i].id == records[i].id && r[j].id == records[j].id;
      }
      assert r[k] == rec;
  }

  /** Saving a base record leaves exactly one base: the saved record. */
  lemma SaveBaseLeavesOnlyIt(records: seq<ServerRecord>, rec: ServerRecord)
    requires UniqueIds(records) && rec.isBaseServer
    ensures var r := Saved(records, rec);
            && rec in r
            && UniqueIds(r)
            && (forall i :: 0 <= i < |r| ==> (r[i].isBaseServer <==> r[i] == rec))
            && AtMostOneBase(r)
  {
    var cleared := ClearOtherBases(records, rec.id);
    assert UniqueIds(cleared) by {
      forall i, j | 0 <= i < j < |cleared| ensures cleared[i].id != cleared[j].id {
        assert cleared[i].id == records[i].id && cleared[j].id == records[j].id;
      }
    }
    WrittenShape(cleared, rec);
    var r := Saved(records, rec);
    forall i | 0 <= i < |r| ensures r[i].isBaseServer <==> r[i] == rec {
      if i < |cleared| && cleared[i].id != rec.id {
        assert r[i] == cleared[i];
      }
    }
  }

  /** Saving a non-base record runs no hook: every other record is untouched. */
  lemma SaveNonBaseKeepsOthers(records: seq<ServerRecord>, rec: ServerRecord)
    requires UniqueIds(records) && !rec.isBaseServer
    ensures var r := Saved(records, rec);
            forall i :: 0 <= i < |records| && records[i].id != rec.id ==> r[i] == records[i]
  {
    WrittenShape(records, rec);
  }

  /** Saving the same record twice gives the same collection as saving it once. */
  lemma SaveIsIdempotent(records: seq<ServerRecord>, rec: ServerRecord)
    requires UniqueIds(records)
    ensures Saved(Saved(records, rec), rec) == Saved(records, rec)
  {
    var once := Saved(records, rec);
    var before := if rec.isBaseServer then ClearOtherBases(records, rec.id) else records;
    assert UniqueIds(before) by {
      forall i, j | 0 <= i < j < |before| ensures before[i].id != before[j].id {
        assert before[i].id == records[i].id && before[j].id == records[j].id;
      }
    }
    WrittenShape(before, rec);
    var k :| 0 <= k < |once| && once[k] == rec;
    IndexOfIdAt(once, k);
    if rec.isBaseServer {
      SaveBaseLeavesOnlyIt(records, rec);
      var again := ClearOtherBases(once, rec.id);
      assert again == once by {
        forall i | 0 <= i < |once| ensures again[i] == once[i] {
          if once[i].id != rec.id {
            assert once[i] != rec;
            assert !once[i].isBaseServer;
          }
        }
      }
    }
    assert Written(once, rec) == once[k := rec];
  }

  /** A successful save keeps ids unique and at most one base. */
  lemma SaveKeepsAtMostOneBase(records: seq<ServerRecord>, rec: ServerRecord)
    requires UniqueIds(records) && AtMostOneBase(records)
    ensures UniqueIds(Saved(records, rec)) && AtMostOneBase(Saved(records, rec))
  {
    if rec.isBaseServer {
      SaveBaseLeavesOnlyIt(records, rec);
    } else {
      WrittenShape(records, rec);
    }
  }

  /** The Server collection, in insertion order. */
  class ServerStore {
    var records: seq<ServerRecord>

    /** Unique ids, schema-valid documents, at most one base. */
    ghost predicate Valid()
      reads this
    {
      UniqueIds(records) && AtMostOneBase(records) && forall i :: 0 <= i < |records| ==> SchemaValid(records[i])
    }

    constructor ()
      ensures Valid() && records == []
    {
      records := [];
    }

    /** `save`: validation runs first and a record the schema rejects changes
        nothing; then the pre-save hook clears the flag on every other record
        when the saved record is base; then the record is written. */
    method Save(rec: ServerRecord) returns (ok: bool)
      requires Valid()
      modifies this
      ensures Valid()
      ensures ok == SchemaValid(rec)
      ensures records == if ok then Saved(old(records), rec) else old(records)
    {
      if !SchemaValid(rec) {
        return false;
      }
      if rec.isBaseServer {
        ghost var cleared := ClearOtherBases(records, rec.id);
        var i := 0;
        while i < |records|
          invariant 0 <= i <= |records| && |records| == |old(records)| == |cleared|
          invariant forall j :: 0 <= j < i ==> records[j] == cleared[j]
          invariant forall j :: i <= j < |records| ==> records[j] == old(records)[j]
        {
          if records[i].id != rec.id {
            records := records[i := records[i].(isBaseServer := false)];
          }
          i := i + 1;
        }
        assert records == cleared;
      }
      var at := IndexOfId(records, rec.id);
      if at.Some? {
        records := records[at.value := rec];
      } else {
        records := records + [rec];
      }
      SaveKeepsAtMostOneBase(old(records), rec);
      WrittenShape(if rec.isBaseServer then ClearOtherBases(old(records), rec.id) else old(records), rec);
      ok := true;
    }
  }
}
