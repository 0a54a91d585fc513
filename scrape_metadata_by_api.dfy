/**
 * The enrichment passes of the metadata scraper.
 *
 * A crossref or scopus pass walks the whitelisted source collections, finds
 * each collection's DOI column from a sample, normalises every usable DOI
 * value and, unless the enrichment collection already holds a result of that
 * provider for the DOI, asks the provider and writes a hit into the FIRST
 * existing enrichment record with that DOI (no insert). The pmid pass adds
 * `pmcid`/`pubmed_id` to enrichment records that carry a `doi`.
 *
 * The pass is specified as a fold: `Candidates` lists, in visiting order,
 * the normalised DOIs the pass reaches (this depends on the source
 * collections only), and `Steps` threads the enrichment collection and the
 * log of provider calls through them.
 */
module ScrapeMetadataByApi {
  import opened Wrappers
  import opened Documents
  import opened MongoStore
  import opened DoiNormalizer

  /** Name of the collection the passes write to. */
  const EnrichmentCollectionName := "metadata_from_api"

  /** `PAPER_COLLECTIONS`: the only source collections a pass reads. */
  const PaperCollections: set<string> := {
    "CORD_biorxiv_medrxiv", "CORD_comm_use_subset", "CORD_custom_license",
    "CORD_noncomm_use_subset", "Scraper_connect_biorxiv_org", "Dimensions_publications",
    "Dimensions_datasets", "google_form_submissions", "Elsevier_parsed_vespa",
    "Vespa_LitCovid_parsed"
  }

  /** `col.find({}).limit(100)`: how many records the DOI-column detection looks at. */
  const SampleSize: nat := 100

  /** A source collection, as `mongo_db.collection_names()` lists it, with its records in natural order. */
  datatype SourceCollection = SourceCollection(name: string, records: seq<Record>)

  /** The two external services; each has its own completion-marker field. */
  datatype Provider = Crossref | Scopus

  function Marker(p: Provider): string
  {
    match p
    case Crossref => "crossref_raw_result"
    case Scopus => "scopus_raw_result"
  }

  function Lower(c: char): char
  {
    if 'A' <= c <= 'Z' then (c as int + 32) as char else c
  }

  /**
   * `key.lower() == 'doi'`. Lower-casing ASCII only is exact here: in
   * Python's Unicode tables only `D`, `O` and `I` lower to the single
   * characters `d`, `o` and `i` (`İ` lowers to two characters).
   */
  predicate IsDoiKey(k: string)
  {
    |k| == 3 && Lower(k[0]) == 'd' && Lower(k[1]) == 'o' && Lower(k[2]) == 'i'
  }

  /** Position of the first DOI-like key of a record, in key order. */
  function DoiKeyIndex(rec: Record): Option<nat>
  {
    FirstIndex(rec, (f: Field) => IsDoiKey(f.key))
  }

  /** Record `i` is the earliest sampled record that has a DOI-like key. */
  ghost predicate EarliestDoiRecord(records: seq<Record>, i: int)
  {
    && 0 <= i < |records| && i < SampleSize
    && DoiKeyIndex(records[i]).Some?
    && forall j :: 0 <= j < i ==> DoiKeyIndex(records[j]).None?
  }

  /**
   * The DOI column of a collection: the first DOI-like key of the earliest of
   * the first 100 records that has one; None when none of them has one.
   */
  function DoiColumn(records: seq<Record>): (column: Option<string>)
    ensures column.None? <==> forall i :: 0 <= i < |records| && i < SampleSize ==> DoiKeyIndex(records[i]).None?
    ensures column.Some? ==> IsDoiKey(column.value)
    ensures column.Some? ==>
      exists i :: EarliestDoiRecord(records, i) && column.value == records[i][DoiKeyIndex(records[i]).value].key
  {
    var sample := records[..if |records| < SampleSize then |records| else SampleSize];
    match FirstIndex(sample, (r: Record) => DoiKeyIndex(r).Some?)
    case None => None
    case Some(i) =>
      assert EarliestDoiRecord(records, i);
      Some(records[i][DoiKeyIndex(records[i]).value].key)
  }

  /** The two nested sampling loops of a pass, with their `break`s. */
  method DetectDoiColumn(records: seq<Record>) returns (column: Option<string>)
    ensures column == DoiColumn(records)
  {
    column := None;
    var limit := if |records| < SampleSize then |records| else SampleSize;
    var i := 0;
    while i < limit
      invariant 0 <= i <= limit
      invariant column.None?
      invariant forall j :: 0 <= j < i ==> DoiKeyIndex(records[j]).None?
    {
      var doc := records[i];
      var t := 0;
      while t < |doc|
        invariant 0 <= t <= |doc|
        invariant column.None?
        invariant forall u :: 0 <= u < t ==> !IsDoiKey(doc[u].key)
      {
        if IsDoiKey(doc[t].key) {
          column := Some(doc[t].key);
          break;
        }
        t := t + 1;
      }
      if column.Some? {
        assert DoiKeyIndex(doc) == Some(t);
        assert EarliestDoiRecord(records, i);
        return;
      }
      i := i + 1;
    }
  }

  /** The DOI a source record contributes: its column value, if a non-empty string, normalised. */
  function RecordDoi(rec: Record, column: string): Option<string>
  {
    match Get(rec, column)
    case Some(Str(s)) => if |s| > 0 then Some(NormalizeDoi(s)) else None
    case _ => None
  }

  /** The DOIs of a collection's records, in record order. */
  function ColumnDois(records: seq<Record>, column: string): (dois: seq<string>)
    ensures forall d :: d in dois <==> exists i :: 0 <= i < |records| && RecordDoi(records[i], column) == Some(d)
  {
    if records == [] then []
    else
      var prev := ColumnDois(records[..|records| - 1], column);
      assert forall i :: 0 <= i < |records| - 1 ==> records[..|records| - 1][i] == records[i];
      match RecordDoi(records[|records| - 1], column)
      case Some(d) => prev + [d]
      case None => prev
  }

  /** The DOIs a pass takes from one collection: none unless whitelisted and a DOI column was found. */
  function CollectionDois(c: SourceCollection): seq<string>
  {
    if c.name !in PaperCollections then []
    else match DoiColumn(c.records)
      case None => []
      case Some(column) => ColumnDois(c.records, column)
  }

  /** Every DOI a pass reaches, in visiting order. */
  function Candidates(sources: seq<SourceCollection>): (dois: seq<string>)
    ensures forall d :: d in dois <==> exists i :: 0 <= i < |sources| && d in CollectionDois(sources[i])
  {
    if sources == [] then []
    else
      assert forall i :: 0 <= i < |sources| - 1 ==> sources[..|sources| - 1][i] == sources[i];
      Candidates(sources[..|sources| - 1]) + CollectionDois(sources[|sources| - 1])
  }

  /** The `try/except`: a provider call that raised (None) reads as Python's `None`. */
  function Caught(reply: Option<Value>): Value
  {
    match reply
    case Some(v) => v
    case None => Null
  }

  /** `aug_col.find_one({'doi': doi, marker: {'$exists': True}})` finds something. */
  predicate Marked(recs: seq<Record>, doi: string, marker: string)
    decreases |recs|
  {
    && recs != []
    && ((Get(recs[0], "doi") == Some(Str(doi)) && Has(recs[0], marker)) || Marked(recs[1..], doi, marker))
  }

  /** `Marked` holds exactly when some record has the DOI and the marker. */
  lemma {:induction false} MarkedIff(recs: seq<Record>, doi: string, marker: string)
    ensures Marked(recs, doi, marker) <==>
      exists i :: 0 <= i < |recs| && Get(recs[i], "doi") == Some(Str(doi)) && Has(recs[i], marker)
    decreases |recs|
  {
    if recs != [] {
      MarkedIff(recs[1..], doi, marker);
      assert forall i :: 0 < i < |recs| ==> recs[1..][i - 1] == recs[i];
      if exists i :: 0 <= i < |recs| && Get(recs[i], "doi") == Some(Str(doi)) && Has(recs[i], marker) {
        var i :| 0 <= i < |recs| && Get(recs[i], "doi") == Some(Str(doi)) && Has(recs[i], marker);
        if i > 0 {
          assert Get(recs[1..][i - 1], "doi") == Some(Str(doi)) && Has(recs[1..][i - 1], marker);
        }
      }
    }
  }

  /** The `$set` document of a hit: the DOI, the provider's payload and the clock. */
  function WriteFields(doi: string, marker: string, payload: Value, now: int): seq<Field>
  {
    [Field("doi", Str(doi)), Field(marker, payload), Field("last_updated", Date(now))]
  }

  /** A hit's `$set` never assigns `_id`, so the store's ids survive it. */
  lemma WriteFieldsKeepId(doi: string, p: Provider, payload: Value, now: int)
    ensures Assigned(WriteFields(doi, Marker(p), payload, now), "_id").None?
  {
    var w := WriteFields(doi, Marker(p), payload, now);
    assert w[1..][1..][1..] == [];
    assert Assigned(w[1..][1..], "_id").None?;
  }

  /** The enrichment collection and the provider calls made so far (the calls are a ghost log). */
  datatype PassState = PassState(records: seq<Record>, calls: seq<string>)

  /** One loop iteration of a crossref/scopus pass for an already-normalised DOI. */
  function Step(st: PassState, doi: string, p: Provider, lookup: string -> Option<Value>, now: int): (r: PassState)
    ensures Marked(st.records, doi, Marker(p)) ==> r == st
    ensures !Marked(st.records, doi, Marker(p)) ==> r.calls == st.calls + [doi]
    ensures Caught(lookup(doi)) == Null ==> r.records == st.records
    ensures |r.records| == |st.records|
  {
    if Marked(st.records, doi, Marker(p)) then st
    else
      var result := Caught(lookup(doi));
      var recs := if result != Null then UpdateFirst(st.records, "doi", Str(doi), WriteFields(doi, Marker(p), result, now))
                  else st.records;
      PassState(recs, st.calls + [doi])
  }

  /** The iterations for `dois`, in order, starting from enrichment records `recs` and no calls. */
  function Steps(recs: seq<Record>, dois: seq<string>, p: Provider, lookup: string -> Option<Value>, now: int): PassState
    decreases |dois|
  {
    if dois == [] then PassState(recs, [])
    else Step(Steps(recs, dois[..|dois| - 1], p, lookup, now), dois[|dois| - 1], p, lookup, now)
  }

  /** A whole crossref/scopus pass over the source collections. */
  function Pass(recs: seq<Record>, sources: seq<SourceCollection>, p: Provider, lookup: string -> Option<Value>, now: int): PassState
  {
    Steps(recs, Candidates(sources), p, lookup, now)
  }

  /** A non-empty sequence is its prefix and its last element; so is `xs + ys`. */
  lemma SnocSplit<T>(xs: seq<T>, ys: seq<T>)
    requires ys != []
    ensures xs + ys == (xs + ys[..|ys| - 1]) + [ys[|ys| - 1]]
    ensures ys == ys[..|ys| - 1] + [ys[|ys| - 1]]
  {
  }

  /** `Steps` over a list extended by one DOI is one more `Step`. */
  lemma StepsSnoc(recs: seq<Record>, dois: seq<string>, d: string, p: Provider, lookup: string -> Option<Value>, now: int)
    ensures Steps(recs, dois + [d], p, lookup, now) == Step(Steps(recs, dois, p, lookup, now), d, p, lookup, now)
  {
    assert (dois + [d])[..|dois|] == dois;
  }

  /**
   * The body of the inner loop for one normalised DOI: skip it when marked,
   * otherwise ask the provider and write a hit with `find_one_and_update`.
   */
  method EnrichDoi(aug: Collection, doi: string, p: Provider, lookup: string -> Option<Value>, now: int,
                   ghost callsBefore: seq<string>)
    returns (ghost calls: seq<string>)
    requires aug.Valid()
    modifies aug
    ensures aug.Valid()
    ensures PassState(aug.records, calls) == Step(PassState(old(aug.records), callsBefore), doi, p, lookup, now)
  {
    calls := callsBefore;
    var marker := Marker(p);
    var queryAug := aug.FindOne("doi", Str(doi), marker);
    MarkedIff(aug.records, doi, marker);
    if queryAug.Some? {
      return;
    }
    var queryResult := Caught(lookup(doi));
    calls := calls + [doi];
    if queryResult != Null {
      WriteFieldsKeepId(doi, p, queryResult, now);
      aug.FindOneAndUpdate("doi", Str(doi), WriteFields(doi, marker, queryResult, now));
    }
  }

  /** The DOIs an optional DOI contributes: itself, or nothing. */
  function Listed(d: Option<string>): seq<string>
  {
    match d
    case Some(x) => [x]
    case None => []
  }

  /** `ColumnDois` over a prefix extended by one record. */
  lemma ColumnDoisSnoc(records: seq<Record>, j: nat, key: string)
    requires j < |records|
    ensures ColumnDois(records[..j + 1], key) == ColumnDois(records[..j], key) + Listed(RecordDoi(records[j], key))
  {
    assert records[..j + 1][..j] == records[..j];
  }

  /** One cursor iteration: skip a missing, non-string or empty value, otherwise normalise and enrich. */
  method ScanRecord(doc: Record, key: string, aug: Collection, p: Provider,
                    lookup: string -> Option<Value>, now: int,
                    ghost start: seq<Record>, ghost done: seq<string>, ghost callsBefore: seq<string>)
    returns (ghost calls: seq<string>)
    requires aug.Valid()
    requires PassState(aug.records, callsBefore) == Steps(start, done, p, lookup, now)
    modifies aug
    ensures aug.Valid()
    ensures PassState(aug.records, calls) == Steps(start, done + Listed(RecordDoi(doc, key)), p, lookup, now)
  {
    calls := callsBefore;
    var value := Get(doc, key);
    if !(value.Some? && value.value.Str? && |value.value.s| > 0) {
      assert RecordDoi(doc, key).None?;
      assert done + [] == done;
      return;
    }
    var doi := NormalizeDoi(value.value.s);
    assert RecordDoi(doc, key) == Some(doi);
    StepsSnoc(start, done, doi, p, lookup, now);
    calls := EnrichDoi(aug, doi, p, lookup, now, calls);
  }

  /** The cursor loop over one collection whose DOI column is `key`. */
  method ScanCollection(records: seq<Record>, key: string, aug: Collection, p: Provider,
                        lookup: string -> Option<Value>, now: int,
                        ghost start: seq<Record>, ghost done: seq<string>, ghost callsBefore: seq<string>)
    returns (ghost calls: seq<string>)
    requires aug.Valid()
    requires PassState(aug.records, callsBefore) == Steps(start, done, p, lookup, now)
    modifies aug
    ensures aug.Valid()
    ensures PassState(aug.records, calls) == Steps(start, done + ColumnDois(records, key), p, lookup, now)
  {
    calls := callsBefore;
    assert records[..0] == [];
    assert done + ColumnDois(records[..0], key) == done;
    for j := 0 to |records|
      invariant aug.Valid()
      invariant PassState(aug.records, calls) == Steps(start, done + ColumnDois(records[..j], key), p, lookup, now)
    {
      ghost var prefix := done + ColumnDois(records[..j], key);
      calls := ScanRecord(records[j], key, aug, p, lookup, now, start, prefix, calls);
      ColumnDoisSnoc(records, j, key);
      assert done + ColumnDois(records[..j + 1], key) == prefix + Listed(RecordDoi(records[j], key));
    }
    assert records[..|records|] == records;
  }

  /** `Candidates` over a prefix extended by one collection. */
  lemma CandidatesSnoc(sources: seq<SourceCollection>, c: nat)
    requires c < |sources|
    ensures Candidates(sources[..c + 1]) == Candidates(sources[..c]) + CollectionDois(sources[c])
  {
    assert sources[..c + 1][..c] == sources[..c];
  }

  /** One iteration of the loop over `PAPER_COLLECTIONS`: detect the DOI column, then scan. */
  method ScanSource(col: SourceCollection, aug: Collection, p: Provider,
                    lookup: string -> Option<Value>, now: int,
                    ghost start: seq<Record>, ghost done: seq<string>, ghost callsBefore: seq<string>)
    returns (ghost calls: seq<string>)
    requires aug.Valid()
    requires PassState(aug.records, callsBefore) == Steps(start, done, p, lookup, now)
    modifies aug
    ensures aug.Valid()
    ensures PassState(aug.records, calls) == Steps(start, done + CollectionDois(col), p, lookup, now)
  {
    calls := callsBefore;
    if col.name !in PaperCollections {
      assert done + CollectionDois(col) == done;
      return;
    }
    var column := DetectDoiColumn(col.records);
    if column.None? {
      assert done + CollectionDois(col) == done;
      return;
    }
    calls := ScanCollection(col.records, column.value, aug, p, lookup, now, start, done, calls);
  }

  /**
   * `collect_crossref_data` / `collect_scopus_data`, parameterised by the
   * provider: the enrichment collection ends as `Pass` says, and `calls` is
   * the sequence of DOIs the provider was asked for.
   */
  method CollectProviderData(sources: seq<SourceCollection>, aug: Collection, p: Provider,
                             lookup: string -> Option<Value>, now: int)
    returns (ghost calls: seq<string>)
    requires aug.Valid()
    modifies aug
    ensures aug.Valid()
    ensures PassState(aug.records, calls) == Pass(old(aug.records), sources, p, lookup, now)
  {
    ghost var start := aug.records;
    calls := [];
    assert sources[..0] == [];
    for c := 0 to |sources|
      invariant aug.Valid()
      invariant PassState(aug.records, calls) == Steps(start, Candidates(sources[..c]), p, lookup, now)
    {
      calls := ScanSource(sources[c], aug, p, lookup, now, start, Candidates(sources[..c]), calls);
      CandidatesSnoc(sources, c);
    }
    assert sources[..|sources|] == sources;
  }

  /** `collect_crossref_data`. */
  method CollectCrossrefData(sources: seq<SourceCollection>, aug: Collection,
                             queryCrossrefByDoi: string -> Option<Value>, now: int)
    returns (ghost calls: seq<string>)
    requires aug.Valid()
    modifies aug
    ensures aug.Valid()
    ensures PassState(aug.records, calls) == Pass(old(aug.records), sources, Crossref, queryCrossrefByDoi, now)
  {
    calls := CollectProviderData(sources, aug, Crossref, queryCrossrefByDoi, now);
  }

  /** `collect_scopus_data`. */
  method CollectScopusData(sources: seq<SourceCollection>, aug: Collection,
                           queryScopusByDoi: string -> Option<Value>, now: int)
    returns (ghost calls: seq<string>)
    requires aug.Valid()
    modifies aug
    ensures aug.Valid()
    ensures PassState(aug.records, calls) == Pass(old(aug.records), sources, Scopus, queryScopusByDoi, now)
  {
    calls := CollectProviderData(sources, aug, Scopus, queryScopusByDoi, now);
  }

  /** A result of the projected `find` of the pmid pass: a record's `_id` and `doi`. */
  datatype Entry = Entry(id: Value, doi: Value)

  /** The projection of one enrichment record; every stored record has an `_id`. */
  function EntryOf(r: Record): Entry
    requires Has(r, "_id") && Has(r, "doi")
  {
    Entry(Get(r, "_id").value, Get(r, "doi").value)
  }

  /**
   * `list(aug_col.find({'doi': {'$exists': True}}, {'_id': True, 'doi': True}))`:
   * the records that have a `doi`, projected, in natural order, taken once
   * before the loop starts.
   */
  function Snapshot(recs: seq<Record>): (snap: seq<Entry>)
    requires forall i :: 0 <= i < |recs| ==> Has(recs[i], "_id")
    ensures |snap| <= |recs|
    ensures forall e :: e in snap <==> exists i :: 0 <= i < |recs| && Has(recs[i], "doi") && e == EntryOf(recs[i])
  {
    if recs == [] then []
    else
      var last := recs[|recs| - 1];
      var prev := Snapshot(recs[..|recs| - 1]);
      assert forall i :: 0 <= i < |recs| - 1 ==> recs[..|recs| - 1][i] == recs[i];
      if Has(last, "doi") then prev + [EntryOf(last)] else prev
  }

  /**
   * The snapshot keeps natural order, one entry per record that has a `doi`:
   * a record added at the end adds its entry at the end, or nothing.
   */
  lemma SnapshotSnoc(recs: seq<Record>, r: Record)
    requires forall i :: 0 <= i < |recs| ==> Has(recs[i], "_id")
    requires Has(r, "_id")
    ensures Snapshot(recs + [r]) == Snapshot(recs) + (if Has(r, "doi") then [EntryOf(r)] else [])
  {
    assert (recs + [r])[..|recs|] == recs;
  }

  /** `ids.get(k)` is truthy: the key is there and its value is not falsy. */
  predicate TruthyAt(ids: Record, k: string)
  {
    Get(ids, k).Some? && Truthy(Get(ids, k).value)
  }

  /** The `set_params` built from the identifiers returned for one DOI. */
  function SetParams(ids: Record): (sets: seq<Field>)
    ensures |sets| == 0 <==> !TruthyAt(ids, "pmcid") && !TruthyAt(ids, "pubmed_id")
  {
    (if TruthyAt(ids, "pmcid") then [Field("pmcid", Get(ids, "pmcid").value)] else [])
    + (if TruthyAt(ids, "pubmed_id") then [Field("pubmed_id", Get(ids, "pubmed_id").value)] else [])
  }

  /** What `set_params` assigns: a truthy `pmcid` and a truthy `pubmed_id`, nothing else. */
  lemma SetParamsAssigned(ids: Record, k: string)
    ensures Assigned(SetParams(ids), k) ==
      (if (k == "pmcid" || k == "pubmed_id") && TruthyAt(ids, k) then Get(ids, k) else None)
  {
    var sets := SetParams(ids);
    assert "pmcid" != "pubmed_id" by {
      assert "pmcid"[1] != "pubmed_id"[1];
    }
    if TruthyAt(ids, "pmcid") && TruthyAt(ids, "pubmed_id") {
      assert sets[1..] == [Field("pubmed_id", Get(ids, "pubmed_id").value)];
      assert sets[1..][1..] == [];
      assert Assigned(sets[1..], k) == if k == "pubmed_id" then Get(ids, k) else None;
    } else if TruthyAt(ids, "pmcid") || TruthyAt(ids, "pubmed_id") {
      assert sets[1..] == [];
    } else {
      assert sets == [];
    }
  }

  /**
   * The enrichment records and whether the pmid loop ran to the end
   * (`completed` is false once `find_remaining_ids` raised: the exception
   * leaves the function and the remaining entries are not visited).
   */
  datatype PmidState = PmidState(records: seq<Record>, completed: bool)

  /**
   * One iteration of the pmid loop; `resolver` is `find_remaining_ids`,
   * whose `None` stands for a raised exception.
   */
  function PmidStep(st: PmidState, e: Entry, resolver: Value -> Option<Record>): (r: PmidState)
    ensures !st.completed ==> r == st
    ensures r.completed <==> st.completed && resolver(e.doi).Some?
    ensures |r.records| == |st.records|
  {
    if !st.completed then st
    else match resolver(e.doi)
      case None => PmidState(st.records, false)
      case Some(ids) =>
        var sets := SetParams(ids);
        if |sets| > 0 then PmidState(UpdateFirst(st.records, "_id", e.id, sets), true) else st
  }

  function PmidSteps(recs: seq<Record>, entries: seq<Entry>, resolver: Value -> Option<Record>): PmidState
    decreases |entries|
  {
    if entries == [] then PmidState(recs, true)
    else PmidStep(PmidSteps(recs, entries[..|entries| - 1], resolver), entries[|entries| - 1], resolver)
  }

  /** The whole pmid pass over the snapshot of `recs`. */
  function PmidPass(recs: seq<Record>, resolver: Value -> Option<Record>): PmidState
    requires forall i :: 0 <= i < |recs| ==> Has(recs[i], "_id")
  {
    PmidSteps(recs, Snapshot(recs), resolver)
  }

  lemma PmidStepsSnoc(recs: seq<Record>, entries: seq<Entry>, k: nat, resolver: Value -> Option<Record>)
    requires k < |entries|
    ensures PmidSteps(recs, entries[..k + 1], resolver) == PmidStep(PmidSteps(recs, entries[..k], resolver), entries[k], resolver)
  {
    assert entries[..k + 1][..k] == entries[..k];
  }

  /** Once the loop was left by an exception, later entries change nothing. */
  lemma {:induction false} AbortSticks(recs: seq<Record>, entries: seq<Entry>, k: nat, resolver: Value -> Option<Record>)
    requires k <= |entries|
    requires !PmidSteps(recs, entries[..k], resolver).completed
    ensures PmidSteps(recs, entries, resolver) == PmidSteps(recs, entries[..k], resolver)
    decreases |entries| - k
  {
    if k == |entries| {
      assert entries[..k] == entries;
    } else {
      PmidStepsSnoc(recs, entries, k, resolver);
      AbortSticks(recs, entries, k + 1, resolver);
    }
  }

  /** The pmid pass promises no `_id` change: `set_params` only assigns `pmcid` and `pubmed_id`. */
  lemma SetParamsKeepId(ids: Record)
    ensures Assigned(SetParams(ids), "_id").None?
  {
    SetParamsAssigned(ids, "_id");
  }

  /** Build `set_params` as the loop body does, one truthy identifier at a time. */
  method BuildSetParams(ids: Record) returns (setParams: seq<Field>)
    ensures setParams == SetParams(ids)
  {
    setParams := [];
    var pmcid := Get(ids, "pmcid");
    if pmcid.Some? && Truthy(pmcid.value) {
      setParams := setParams + [Field("pmcid", pmcid.value)];
    }
    var pubmedId := Get(ids, "pubmed_id");
    if pubmedId.Some? && Truthy(pubmedId.value) {
      setParams := setParams + [Field("pubmed_id", pubmedId.value)];
    }
  }

  /**
   * `collect_pmid_data`: `completed` says whether every entry was visited
   * (false when `find_remaining_ids` raised), and the enrichment
   * collection ends as `PmidPass` says in both cases.
   */
  method CollectPmidData(aug: Collection, resolver: Value -> Option<Record>) returns (completed: bool)
    requires aug.Valid()
    modifies aug
    ensures aug.Valid()
    ensures PmidState(aug.records, completed) == PmidPass(old(aug.records), resolver)
  {
    ghost var start := aug.records;
    var queryAug := Snapshot(aug.records);
    assert queryAug[..0] == [];
    for k := 0 to |queryAug|
      invariant aug.Valid()
      invariant PmidState(aug.records, true) == PmidSteps(start, queryAug[..k], resolver)
    {
      var doc := queryAug[k];
      PmidStepsSnoc(start, queryAug, k, resolver);
      var ids := resolver(doc.doi);
      if ids.None? {
        AbortSticks(start, queryAug, k + 1, resolver);
        return false;
      }
      var setParams := BuildSetParams(ids.value);
      if |setParams| > 0 {
        SetParamsKeepId(ids.value);
        aug.FindOneAndUpdate("_id", doc.id, setParams);
      }
    }
    assert queryAug[..|queryAug|] == queryAug;
    completed := true;
  }
}
