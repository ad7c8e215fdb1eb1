/** Run-scoped, write-once integration records (integration/repository.py). */
module Repository {
  import opened Wrappers
  import opened Text
  import opened Sorting

  datatype Decision = Approve | Reject

  /** The payloads that the proposal commands read or write. */
  datatype Payload =
    | ProposalRef(proposalId: Uuid)
    | VersionEntry(proposalId: Uuid, version: nat, digest: string)
    | DecisionEntry(proposalId: Uuid, version: nat, decision: Decision, approverId: Uuid, permitId: Option<Uuid>,
                    digest: string)
    | ExecutionEntry(proposalId: Uuid, version: nat, usedPermitId: Uuid, outcome: string)

  datatype IntegrationRecord = IntegrationRecord(runId: Uuid, recordRef: Uuid, payload: Payload, createdAt: int,
                                                 updatedAt: int)

  /** Records by run and reference. */
  datatype Key = Key(runId: Uuid, recordRef: Uuid)

  type Records = map<Key, IntegrationRecord>

  datatype RepositoryError = ReusedWithDifferentContent

  function KeyOf(record: IntegrationRecord): Key {
    Key(record.runId, record.recordRef)
  }

  /** `put`: the first record under a reference stays; the same content again is accepted. */
  function Put(records: Records, record: IntegrationRecord): (Result<IntegrationRecord, RepositoryError>, Records) {
    var key := KeyOf(record);
    if key in records then
      if records[key].(createdAt := record.createdAt, updatedAt := record.updatedAt) != record then
        (Err(ReusedWithDifferentContent), records)
      else (Ok(records[key]), records)
    else (Ok(record), records[key := record])
  }

  ghost predicate Keyed(records: Records) {
    forall key :: key in records ==> KeyOf(records[key]) == key
  }

  // ----- Listing -----

  /** The sort key of `list`. */
  predicate Before(a: IntegrationRecord, b: IntegrationRecord) {
    a.createdAt < b.createdAt || (a.createdAt == b.createdAt && Below(a.recordRef, b.recordRef))
  }

  /** The records of one run, in order. */
  ghost predicate IsListing(records: Records, runId: Uuid, listing: seq<IntegrationRecord>) {
    && Ascending(Before, listing)
    && forall record ::
         record in listing
         <==> Key(runId, record.recordRef) in records && records[Key(runId, record.recordRef)] == record
  }

  lemma {:induction false} BeforeIsStrict()
    ensures StrictOrder(Before)
  {
    forall x ensures !Before(x, x) { BelowIrreflexive(x.recordRef); }
    forall x, y, z | Before(x, y) && Before(y, z) ensures Before(x, z) {
      if x.createdAt == y.createdAt == z.createdAt { BelowTransitive(x.recordRef, y.recordRef, z.recordRef); }
    }
  }

  /** A run has one listing: the order leaves no choice. */
  lemma {:induction false} ListingUnique(records: Records, runId: Uuid, a: seq<IntegrationRecord>,
                                         b: seq<IntegrationRecord>)
    requires IsListing(records, runId, a) && IsListing(records, runId, b)
    ensures a == b
  {
    BeforeIsStrict();
    AscendingUnique(Before, a, b);
  }

  lemma {:induction false} InsertListed(listing: seq<IntegrationRecord>, record: IntegrationRecord)
    requires Ascending(Before, listing) && forall r :: r in listing ==> r.recordRef != record.recordRef
    ensures Ascending(Before, Insert(Before, listing, record))
    ensures forall r :: r in Insert(Before, listing, record) <==> r == record || r in listing
  {
    BeforeIsStrict();
    forall k | 0 <= k < |listing| ensures Before(record, listing[k]) || Before(listing[k], record) {
      assert listing[k] in listing;
      BelowTotal(record.recordRef, listing[k].recordRef);
    }
    InsertAscending(Before, listing, record);
    SameMembers(Insert(Before, listing, record), listing + [record]);
  }

  // ----- The in-memory repository -----

  class InMemoryIntegrationRepository {
    var records: Records

    ghost predicate Valid()
      reads this
    {
      Keyed(records)
    }

    constructor ()
      ensures Valid() && records == map[]
    {
      records := map[];
    }

    /** Nothing that was stored ever changes. */
    method PutRecord(record: IntegrationRecord) returns (result: Result<IntegrationRecord, RepositoryError>)
      requires Valid()
      modifies this
      ensures Valid() && (result, records) == Put(old(records), record)
      ensures forall key :: key in old(records) ==> key in records && records[key] == old(records)[key]
    {
      var key := Key(record.runId, record.recordRef);
      if key in records {
        var existing := records[key];
        var comparable := existing.(createdAt := record.createdAt, updatedAt := record.updatedAt);
        if comparable != record { return Err(ReusedWithDifferentContent); }
        return Ok(existing);
      }
      records := records[key := record];
      result := Ok(record);
    }

    method Get(runId: Uuid, recordRef: Uuid) returns (record: Option<IntegrationRecord>)
      requires Valid()
      ensures record.Some? <==> Key(runId, recordRef) in records
      ensures record.Some? ==> record.value == records[Key(runId, recordRef)]
    {
      record := if Key(runId, recordRef) in records then Some(records[Key(runId, recordRef)]) else None;
    }

    /** `list`: the sorted records of one run. */
    method List(runId: Uuid) returns (listing: seq<IntegrationRecord>)
      requires Valid()
      ensures IsListing(records, runId, listing)
    {
      listing := [];
      var keys := records.Keys;
      while keys != {}
        invariant keys <= records.Keys
        invariant Ascending(Before, listing)
        invariant forall record :: record in listing <==>
                    (var key := Key(runId, record.recordRef); key in records && key !in keys && records[key] == record)
        decreases |keys|
      {
        var key :| key in keys;
        keys := keys - {key};
        if key.runId == runId {
          InsertListed(listing, records[key]);
          listing := Insert(Before, listing, records[key]);
        }
      }
    }
  }
}
