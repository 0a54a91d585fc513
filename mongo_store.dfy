/**
 * The one collection the enrichment passes write to (`metadata_from_api`),
 * with the two store operations they issue against it: `find_one` and
 * `find_one_and_update` WITHOUT `upsert=True`, which only ever modifies an
 * existing document and never inserts one.
 */
module MongoStore {
  import opened Wrappers
  import opened Documents

  /** The store's own guarantee: every document has an `_id`, and no two share one. */
  ghost predicate IdsUnique(recs: seq<Record>)
  {
    && (forall i :: 0 <= i < |recs| ==> Has(recs[i], "_id"))
    && (forall i, j :: 0 <= i < |recs| && 0 <= j < |recs| && i != j ==> Get(recs[i], "_id") != Get(recs[j], "_id"))
  }

  /** Record `j` is the first, in natural order, whose `key` equals `val`. */
  ghost predicate IsFirstMatch(recs: seq<Record>, key: string, val: Value, j: int)
  {
    && 0 <= j < |recs|
    && Get(recs[j], key) == Some(val)
    && forall i :: 0 <= i < j ==> Get(recs[i], key) != Some(val)
  }

  /** Index of the document `find_one({key: val})` returns, if any. */
  function FirstMatch(recs: seq<Record>, key: string, val: Value): (r: Option<nat>)
    ensures r.Some? ==> IsFirstMatch(recs, key, val, r.value)
    ensures r.None? ==> forall i :: 0 <= i < |recs| ==> Get(recs[i], key) != Some(val)
  {
    FirstIndex(recs, (d: Record) => Get(d, key) == Some(val))
  }

  /**
   * The collection after `find_one_and_update({key: val}, {'$set': sets})`:
   * the first matching document gets the fields and nothing is inserted;
   * `UpdateFirstAt` says what happens to each document.
   */
  function UpdateFirst(recs: seq<Record>, key: string, val: Value, sets: seq<Field>): (r: seq<Record>)
    ensures |r| == |recs|
  {
    match FirstMatch(recs, key, val)
    case None => recs
    case Some(i) => recs[i := SetAll(recs[i], sets)]
  }

  /** The first matching document gets the fields, every other document is left alone. */
  lemma UpdateFirstAt(recs: seq<Record>, key: string, val: Value, sets: seq<Field>, j: int)
    requires 0 <= j < |recs|
    ensures UpdateFirst(recs, key, val, sets)[j] == if IsFirstMatch(recs, key, val, j) then SetAll(recs[j], sets) else recs[j]
  {
    match FirstMatch(recs, key, val)
    case None =>
    case Some(i) =>
      if IsFirstMatch(recs, key, val, j) {
        assert i == j;
      }
  }

  /** When nothing matches, the collection is unchanged. */
  lemma UpdateFirstNoMatch(recs: seq<Record>, key: string, val: Value, sets: seq<Field>)
    requires forall i :: 0 <= i < |recs| ==> Get(recs[i], key) != Some(val)
    ensures UpdateFirst(recs, key, val, sets) == recs
  {
  }

  /** With unique ids, updating by `_id` touches exactly the document carrying that id. */
  lemma UpdateById(recs: seq<Record>, id: Value, sets: seq<Field>, j: int)
    requires IdsUnique(recs)
    requires 0 <= j < |recs|
    ensures UpdateFirst(recs, "_id", id, sets)[j] == if Get(recs[j], "_id") == Some(id) then SetAll(recs[j], sets) else recs[j]
  {
    UpdateFirstAt(recs, "_id", id, sets, j);
    if Get(recs[j], "_id") == Some(id) {
      assert IsFirstMatch(recs, "_id", id, j);
    }
  }

  /** An update that assigns no `_id` keeps every document's id, so ids stay unique. */
  lemma UpdateKeepsIds(recs: seq<Record>, key: string, val: Value, sets: seq<Field>)
    requires Assigned(sets, "_id").None?
    ensures forall j :: 0 <= j < |recs| ==> Get(UpdateFirst(recs, key, val, sets)[j], "_id") == Get(recs[j], "_id")
    ensures IdsUnique(recs) ==> IdsUnique(UpdateFirst(recs, key, val, sets))
  {
    forall j | 0 <= j < |recs|
      ensures Get(UpdateFirst(recs, key, val, sets)[j], "_id") == Get(recs[j], "_id")
    {
      UpdateFirstAt(recs, key, val, sets, j);
    }
  }

  class Collection {
    /** The documents, in the store's natural order. */
    var records: seq<Record>

    ghost predicate Valid()
      reads this
    {
      IdsUnique(records)
    }

    constructor (init: seq<Record>)
      requires IdsUnique(init)
      ensures Valid() && records == init
    {
      records := init;
    }

    /** `find_one({key: val, present: {'$exists': True}})`: the first match in natural order, if any. */
    method FindOne(key: string, val: Value, present: string) returns (doc: Option<Record>)
      ensures doc.Some? <==> exists i :: 0 <= i < |records| && Get(records[i], key) == Some(val) && Has(records[i], present)
      ensures doc.Some? ==>
        exists i :: && 0 <= i < |records| && doc.value == records[i]
                    && Get(records[i], key) == Some(val) && Has(records[i], present)
                    && forall j :: 0 <= j < i ==> !(Get(records[j], key) == Some(val) && Has(records[j], present))
    {
      var i := 0;
      while i < |records|
        invariant 0 <= i <= |records|
        invariant forall j :: 0 <= j < i ==> !(Get(records[j], key) == Some(val) && Has(records[j], present))
      {
        if Get(records[i], key) == Some(val) && Has(records[i], present) {
          return Some(records[i]);
        }
        i := i + 1;
      }
      return None;
    }

    /** `find_one_and_update({key: val}, {'$set': sets})` with the default `upsert=False`. */
    method FindOneAndUpdate(key: string, val: Value, sets: seq<Field>)
      requires Valid()
      requires Assigned(sets, "_id").None?
      modifies this
      ensures Valid()
      ensures records == UpdateFirst(old(records), key, val, sets)
    {
      UpdateKeepsIds(records, key, val, sets);
      var i := 0;
      while i < |records|
        invariant 0 <= i <= |records|
        invariant forall j :: 0 <= j < i ==> Get(records[j], key) != Some(val)
      {
        if Get(records[i], key) == Some(val) {
          assert IsFirstMatch(records, key, val, i);
          records := records[i := SetAll(records[i], sets)];
          return;
        }
        i := i + 1;
      }
    }
  }
}
