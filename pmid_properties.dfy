/**
 * Properties of the pmid pass: what it does to each enrichment record,
 * when it runs to the end, which fields it can touch, and that running it
 * again after a complete run changes nothing.
 */
module PmidProperties {
  import opened Wrappers
  import opened Documents
  import opened MongoStore
  import opened ScrapeMetadataByApi

  /** A record after a successful lookup of its DOI: the truthy identifiers set. */
  function PmidEnriched(r: Record, resolver: Value -> Option<Record>): Record
  {
    if Has(r, "doi") && resolver(Get(r, "doi").value).Some?
    then SetAll(r, SetParams(resolver(Get(r, "doi").value).value))
    else r
  }

  /** Each field of `set_params` is one of the two identifiers, with the value it was given. */
  lemma SetParamsShape(ids: Record, i: int)
    requires 0 <= i < |SetParams(ids)|
    ensures var f := SetParams(ids)[i];
      (f.key == "pmcid" || f.key == "pubmed_id") && TruthyAt(ids, f.key) && Some(f.value) == Get(ids, f.key)
  {
  }

  /** Applying the same `set_params` twice is applying it once. */
  lemma SetParamsIdempotent(r: Record, ids: Record)
    ensures SetAll(SetAll(r, SetParams(ids)), SetParams(ids)) == SetAll(r, SetParams(ids))
  {
    var sets := SetParams(ids);
    var r1 := SetAll(r, sets);
    forall i | 0 <= i < |sets|
      ensures Get(r1, sets[i].key) == Some(sets[i].value)
    {
      SetParamsShape(ids, i);
      SetParamsAssigned(ids, sets[i].key);
    }
    SetAllExisting(r1, sets);
  }

  /** `set_params` only reaches `pmcid` and `pubmed_id`. */
  lemma SetParamsFrame(r: Record, ids: Record, k: string)
    requires k != "pmcid" && k != "pubmed_id"
    ensures Get(SetAll(r, SetParams(ids)), k) == Get(r, k)
  {
    SetParamsAssigned(ids, k);
  }

  /** The pass keeps every `_id` and the number of records. */
  lemma {:induction false} PmidStepsKeepIds(a: seq<Record>, es: seq<Entry>, resolver: Value -> Option<Record>)
    ensures var b := PmidSteps(a, es, resolver).records;
      |b| == |a| && forall j :: 0 <= j < |a| ==> Get(b[j], "_id") == Get(a[j], "_id")
    decreases |es|
  {
    if es != [] {
      var st := PmidSteps(a, es[..|es| - 1], resolver);
      PmidStepsKeepIds(a, es[..|es| - 1], resolver);
      var e := es[|es| - 1];
      if st.completed && resolver(e.doi).Some? {
        SetParamsKeepId(resolver(e.doi).value);
        UpdateKeepsIds(st.records, "_id", e.id, SetParams(resolver(e.doi).value));
      }
    }
  }

  /** A snapshot entry belongs to exactly the record that carries its id. */
  lemma EntryOwner(a: seq<Record>, e: Entry, j: int)
    requires IdsUnique(a) && 0 <= j < |a|
    requires e in Snapshot(a)
    requires Get(a[j], "_id") == Some(e.id)
    ensures Has(a[j], "doi") && e == EntryOf(a[j])
  {
    var i :| 0 <= i < |a| && Has(a[i], "doi") && e == EntryOf(a[i]);
    assert Get(a[i], "_id") == Get(a[j], "_id");
  }

  /** One update of record `j` by a snapshot entry: it gets the identifiers for its own DOI. */
  lemma PmidUpdateAt(a: seq<Record>, recs: seq<Record>, e: Entry, sets: seq<Field>, j: int)
    requires IdsUnique(a) && |recs| == |a| && 0 <= j < |a|
    requires forall i :: 0 <= i < |a| ==> Get(recs[i], "_id") == Get(a[i], "_id")
    requires e in Snapshot(a)
    ensures var r := UpdateFirst(recs, "_id", e.id, sets)[j];
      r == if Get(a[j], "_id") == Some(e.id) then SetAll(recs[j], sets) else recs[j]
    ensures Get(a[j], "_id") == Some(e.id) ==> Has(a[j], "doi") && e == EntryOf(a[j])
  {
    assert IdsUnique(recs) by {
      forall i, k | 0 <= i < |recs| && 0 <= k < |recs| && i != k
        ensures Get(recs[i], "_id") != Get(recs[k], "_id")
      {
        assert Get(a[i], "_id") != Get(a[k], "_id");
      }
    }
    UpdateById(recs, e.id, sets, j);
    if Get(a[j], "_id") == Some(e.id) {
      EntryOwner(a, e, j);
    }
  }

  /**
   * Each record ends unchanged or with the identifiers of its own DOI,
   * whether or not the loop was cut short.
   */
  lemma {:induction false} PmidStepsAt(a: seq<Record>, es: seq<Entry>, resolver: Value -> Option<Record>, j: int)
    requires IdsUnique(a) && 0 <= j < |a|
    requires forall e :: e in es ==> e in Snapshot(a)
    ensures |PmidSteps(a, es, resolver).records| == |a|
    ensures var b := PmidSteps(a, es, resolver).records;
      b[j] == a[j] || b[j] == PmidEnriched(a[j], resolver)
    decreases |es|
  {
    PmidStepsKeepIds(a, es, resolver);
    if es != [] {
      var prev := es[..|es| - 1];
      var e := es[|es| - 1];
      var st := PmidSteps(a, prev, resolver);
      assert forall x :: x in prev ==> x in es;
      PmidStepsAt(a, prev, resolver, j);
      PmidStepsKeepIds(a, prev, resolver);
      if st.completed && resolver(e.doi).Some? && |SetParams(resolver(e.doi).value)| > 0 {
        var ids := resolver(e.doi).value;
        PmidUpdateAt(a, st.records, e, SetParams(ids), j);
        if Get(a[j], "_id") == Some(e.id) && st.records[j] != a[j] {
          SetParamsIdempotent(a[j], ids);
        }
      }
    }
  }

  /** The loop runs to the end exactly when `find_remaining_ids` returns for every entry. */
  lemma {:induction false} PmidCompletedIff(a: seq<Record>, es: seq<Entry>, resolver: Value -> Option<Record>)
    ensures PmidSteps(a, es, resolver).completed <==> forall i :: 0 <= i < |es| ==> resolver(es[i].doi).Some?
    decreases |es|
  {
    if es != [] {
      var prev := es[..|es| - 1];
      var e := es[|es| - 1];
      PmidCompletedIff(a, prev, resolver);
      AllResolvedSnoc(prev, e, resolver);
      SnocSplit([], es);
    }
  }

  lemma AllResolvedSnoc(es: seq<Entry>, e: Entry, resolver: Value -> Option<Record>)
    ensures (forall i :: 0 <= i < |es + [e]| ==> resolver((es + [e])[i].doi).Some?) <==>
      (forall i :: 0 <= i < |es| ==> resolver(es[i].doi).Some?) && resolver(e.doi).Some?
  {
    assert forall i :: 0 <= i < |es| ==> (es + [e])[i] == es[i];
    assert (es + [e])[|es|] == e;
  }

  /** One completed iteration of the pmid loop, seen from record `j`. */
  lemma PmidDoneStep(a: seq<Record>, prev: seq<Entry>, e: Entry, st: PmidState, next: PmidState,
                     resolver: Value -> Option<Record>, j: int)
    requires IdsUnique(a) && 0 <= j < |a| && |st.records| == |a|
    requires forall i :: 0 <= i < |a| ==> Get(st.records[i], "_id") == Get(a[i], "_id")
    requires e in Snapshot(a)
    requires next == PmidStep(st, e, resolver) && next.completed
    requires st.records[j] == if Has(a[j], "doi") && EntryOf(a[j]) in prev then PmidEnriched(a[j], resolver) else a[j]
    ensures next.records[j] == if Has(a[j], "doi") && EntryOf(a[j]) in prev + [e] then PmidEnriched(a[j], resolver) else a[j]
  {
    var ids := resolver(e.doi).value;
    var sets := SetParams(ids);
    PmidUpdateAt(a, st.records, e, sets, j);
    if Get(a[j], "_id") == Some(e.id) {
      if |sets| == 0 {
        assert sets == [];
      } else if st.records[j] != a[j] {
        SetParamsIdempotent(a[j], ids);
      }
    } else if Has(a[j], "doi") {
      assert EntryOf(a[j]) != e;
    }
  }

  /**
   * While no call has raised, the records whose entries were visited carry
   * their identifiers and all others are untouched.
   */
  lemma {:induction false} PmidStepsDone(a: seq<Record>, es: seq<Entry>, resolver: Value -> Option<Record>, j: int)
    requires IdsUnique(a) && 0 <= j < |a|
    requires forall e :: e in es ==> e in Snapshot(a)
    requires PmidSteps(a, es, resolver).completed
    ensures |PmidSteps(a, es, resolver).records| == |a|
    ensures PmidSteps(a, es, resolver).records[j] ==
      if Has(a[j], "doi") && EntryOf(a[j]) in es then PmidEnriched(a[j], resolver) else a[j]
    decreases |es|
  {
    PmidStepsKeepIds(a, es, resolver);
    if es != [] {
      var prev := es[..|es| - 1];
      var e := es[|es| - 1];
      SnocSplit([], es);
      var st := PmidSteps(a, prev, resolver);
      assert forall x :: x in prev ==> x in es;
      PmidStepsDone(a, prev, resolver, j);
      PmidStepsKeepIds(a, prev, resolver);
      PmidDoneStep(a, prev, e, st, PmidSteps(a, es, resolver), resolver, j);
    }
  }

  /**
   * `collect_pmid_data` as a whole, with unique ids: nothing is inserted,
   * ids stay unique, every record ends unchanged or with the identifiers of
   * its DOI, and the pass completes exactly when no lookup raises, in which
   * case every record with a DOI carries its identifiers.
   */
  lemma PmidPassResult(a: seq<Record>, resolver: Value -> Option<Record>)
    requires IdsUnique(a)
    ensures var r := PmidPass(a, resolver);
      && |r.records| == |a|
      && IdsUnique(r.records)
      && (forall j :: 0 <= j < |a| ==> r.records[j] == a[j] || r.records[j] == PmidEnriched(a[j], resolver))
      && (r.completed <==> forall j :: 0 <= j < |a| && Has(a[j], "doi") ==> resolver(Get(a[j], "doi").value).Some?)
      && (r.completed ==> forall j :: 0 <= j < |a| ==> r.records[j] == PmidEnriched(a[j], resolver))
  {
    var snap := Snapshot(a);
    var r := PmidPass(a, resolver);
    PmidStepsKeepIds(a, snap, resolver);
    forall j | 0 <= j < |a|
      ensures r.records[j] == a[j] || r.records[j] == PmidEnriched(a[j], resolver)
      ensures r.completed ==> r.records[j] == PmidEnriched(a[j], resolver)
    {
      PmidStepsAt(a, snap, resolver, j);
      if r.completed {
        PmidStepsDone(a, snap, resolver, j);
        if Has(a[j], "doi") {
          assert EntryOf(a[j]) in snap;
        }
      }
    }
    PmidCompletedIff(a, snap, resolver);
    if forall j :: 0 <= j < |a| && Has(a[j], "doi") ==> resolver(Get(a[j], "doi").value).Some? {
      forall i | 0 <= i < |snap| ensures resolver(snap[i].doi).Some? {
        assert snap[i] in snap;
      }
    }
    if r.completed {
      forall j | 0 <= j < |a| && Has(a[j], "doi") ensures resolver(Get(a[j], "doi").value).Some? {
        assert EntryOf(a[j]) in snap;
        var i :| 0 <= i < |snap| && snap[i] == EntryOf(a[j]);
      }
    }
  }

  /** The pmid pass changes no field other than `pmcid` and `pubmed_id`. */
  lemma PmidFrame(a: seq<Record>, resolver: Value -> Option<Record>, j: int, k: string)
    requires IdsUnique(a) && 0 <= j < |a|
    requires k != "pmcid" && k != "pubmed_id"
    ensures |PmidPass(a, resolver).records| == |a|
    ensures Get(PmidPass(a, resolver).records[j], k) == Get(a[j], k)
  {
    PmidPassResult(a, resolver);
    if Has(a[j], "doi") && resolver(Get(a[j], "doi").value).Some? {
      SetParamsFrame(a[j], resolver(Get(a[j], "doi").value).value, k);
    }
  }

  /** The identifiers of a record stay its identifiers: enriching twice is enriching once. */
  lemma PmidEnrichedIdempotent(r: Record, resolver: Value -> Option<Record>)
    ensures PmidEnriched(PmidEnriched(r, resolver), resolver) == PmidEnriched(r, resolver)
  {
    if Has(r, "doi") && resolver(Get(r, "doi").value).Some? {
      var ids := resolver(Get(r, "doi").value).value;
      SetParamsFrame(r, ids, "doi");
      SetParamsIdempotent(r, ids);
    }
  }

  /** After a complete pmid pass, a second one completes too and changes nothing. */
  lemma PmidPassIdempotent(a: seq<Record>, resolver: Value -> Option<Record>)
    requires IdsUnique(a) && PmidPass(a, resolver).completed
    ensures var b := PmidPass(a, resolver).records;
      IdsUnique(b) && PmidPass(b, resolver).completed && PmidPass(b, resolver).records == b
  {
    var b := PmidPass(a, resolver).records;
    PmidPassResult(a, resolver);
    PmidPassResult(b, resolver);
    forall j | 0 <= j < |a|
      ensures Get(b[j], "doi") == Get(a[j], "doi")
      ensures PmidEnriched(b[j], resolver) == b[j]
    {
      PmidFrame(a, resolver, j, "doi");
      PmidEnrichedIdempotent(a[j], resolver);
    }
    var c := PmidPass(b, resolver).records;
    assert forall j :: 0 <= j < |b| ==> c[j] == b[j];
  }
}
