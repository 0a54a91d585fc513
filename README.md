# COVIDScholar metadata enrichment and Lens patent parsing, in Dafny

This project models two parts of the COVIDScholar database tooling:

- **The metadata scraper** (`covidscholar_database/metadata/scrape_metadata_by_api.py`).
  - `doi_url_rm_prefix` normalises a DOI value by cutting a `…doi.org/` URL prefix.
  - *Crossref and scopus passes.* These walk the whitelisted source collections (`PAPER_COLLECTIONS`). On each collection a pass:
    - detects its DOI column from the first 100 records;
    - normalises every non-empty string DOI;
    - skips DOIs that already carry this provider's completion marker (`crossref_raw_result` / `scopus_raw_result`) in the `metadata_from_api` collection;
    - asks the provider about the rest;
    - writes a non-`None` answer into the first existing enrichment record with that DOI.
  - *The pmid pass.* It takes a snapshot of the enrichment records that have a `doi`. It adds the truthy `pmcid` / `pubmed_id` returned by `find_remaining_ids`, matching records by `_id`.
- **The Lens patent parser** (`covidscholar_database/parse/lens_patents.py`). It maps a raw `Scraper_lens_patents` record to the canonical document fields.

Modules, one per file:

| file | module | contents |
|---|---|---|
| `wrappers.dfy` | `Wrappers` | `Option` |
| `documents.dfy` | `Documents` | dynamic values, ordered records, `doc.get`, Mongo `$set` |
| `mongo_store.dfy` | `MongoStore` | The `metadata_from_api` collection as a class whose `records` field the store operations update in place. It has `find_one` and `find_one_and_update` without upsert, and keeps the store guarantee of unique `_id`s. |
| `doi_normalizer.dfy` | `DoiNormalizer` | `doi_url_rm_prefix`, written as the pattern's backtracking semantics, with Python's `str.strip` |
| `scrape_metadata_by_api.dfy` | `ScrapeMetadataByApi` | The whitelist and DOI-column detection. The pass loops as methods over the `Collection` class. Their specification is a fold, `Steps`, over the candidate DOIs, threading the enrichment records and a ghost log of provider calls. The pmid loop is specified by `PmidSteps`. |
| `enrichment_properties.dfy` | `EnrichmentProperties` | Lemmas about the crossref/scopus passes. |
| `pmid_properties.dfy` | `PmidProperties` | Lemmas about the pmid pass. |
| `lens_patents.dfy` | `LensPatents` | Every `_parse_*`, `_preprocess`, `_postprocess` and an explicit composition `Parse`. |

Modelling choices:

- *Records are ordered sequences of fields.* The DOI-column detection takes the first DOI-like key in key order.
- *The enrichment collection is a sequence.* Its `doi` index is not unique, so `find_one` and `find_one_and_update` act on the first match in natural order.
- *External calls are function parameters.*
  - A crossref/scopus lookup returns `Option<Value>`, where `None` is a raised exception. The source catches that exception and turns it into Python's `None`.
  - `find_remaining_ids` returns `Option<Record>`, where `None` is a raised exception. The source does not catch it, so the pmid loop stops there. Earlier writes stay, and `CollectPmidData` reports `completed == false`.
- *The clock is a parameter.* `datetime.now()` becomes `now`, one value per pass.

Behaviour of the code that a reader might not expect, and that the model keeps:

- *No insert.* `find_one_and_update` is called without `upsert=True` (`scrape_metadata_by_api.py:99`, `:159`), so a DOI with no enrichment record is never written. The provider is asked about it again on every pass (`EnrichmentProperties.OrphanAlwaysQueried`).
- *No stripping without a match.* `doi_url_rm_prefix` strips only the matched group (`:47`). An input without a match is returned untouched, surrounding whitespace included (`DoiNormalizer.NormalizeWithoutMarker`).
- *The pmid pass can abort.* The crossref and scopus passes catch a provider exception (`:93-97`, `:153-157`). The pmid pass does not catch an exception from `find_remaining_ids` (`:186`), so it ends the pass, and earlier writes stay (`PmidProperties.PmidPassResult`).
- *The parser can raise.* The Lens parser reads `Title`, `Abstract`, `Link` and `Published_Date` by indexing (`lens_patents.py:31`, `:55`, `:71`, `:116`), which raises when a key is missing. `LensPatents.Parse` therefore requires the four keys.

## Model

| member | source | states |
|---|---|---|
| `Documents.SetAll` | covidscholar_database/metadata/scrape_metadata_by_api.py:99-108 | After a `$set`, each key holds the value the `$set` document assigns it (last occurrence), and every other key keeps its value. |
| `Documents.Truthy` | covidscholar_database/metadata/scrape_metadata_by_api.py:187-190 | Python truthiness of a stored value, as `if ids.get(...)` tests it: `None`, `False`, `0`, the empty string and empty containers are falsy. `SetParams` and `PmidProperties.SetParamsShape` use it. |
| `Documents.Get` | covidscholar_database/metadata/scrape_metadata_by_api.py:186-190 | `ids.get(k)` at :187 and :189: the value under the first occurrence of `k`, or nothing. The subscripts `doc[doi_column_name]` (:84) and `doc['doi']` (:186) read a key the `$exists` filter guarantees, so they are `Get` of a present key. `Set` and `SetAll` state their results through it. |
| `Documents.Has` | covidscholar_database/metadata/scrape_metadata_by_api.py:72-79 | `{k: {'$exists': True}}`: the record has key `k` (used at :74, :89 and :177). `FindOne`, `MarkedIff` and `Snapshot` are stated through it. |
| `Documents.Set` | covidscholar_database/metadata/scrape_metadata_by_api.py:102-106 | `$set` of one field: afterwards the key holds the new value and every other key keeps its value. |
| `Documents.Assigned` | covidscholar_database/metadata/scrape_metadata_by_api.py:102-106 | The value a `$set` document gives a key: its last occurrence. `SetAll` is stated through it. |
| `Documents.SetAllExisting` | covidscholar_database/metadata/scrape_metadata_by_api.py:192-198 | A `$set` whose fields all already hold their values leaves the document equal to itself. |
| `MongoStore.FirstMatch` | covidscholar_database/metadata/scrape_metadata_by_api.py:99-100 | Finds the first record in natural order whose key equals the value, or reports that none does. |
| `MongoStore.UpdateFirst` | covidscholar_database/metadata/scrape_metadata_by_api.py:99-108 | `find_one_and_update` without upsert never inserts or removes a record: the collection keeps its size. |
| `MongoStore.UpdateFirstAt` | covidscholar_database/metadata/scrape_metadata_by_api.py:99-108 | `find_one_and_update` applies the `$set` to the first matching record only. Every other record is unchanged. |
| `MongoStore.UpdateFirstNoMatch` | covidscholar_database/metadata/scrape_metadata_by_api.py:99-108 | No upsert: with no matching record, the collection is unchanged. |
| `MongoStore.UpdateById` | covidscholar_database/metadata/scrape_metadata_by_api.py:193-198 | With unique ids, an update by `_id` changes exactly the record with that id. |
| `MongoStore.UpdateKeepsIds` | covidscholar_database/metadata/scrape_metadata_by_api.py:99-108 | An update that assigns no `_id` keeps every record's id, so the ids stay unique. |
| `MongoStore.Collection.constructor` | covidscholar_database/metadata/scrape_metadata_by_api.py:51 | The enrichment collection starts with the given records, which have unique ids. |
| `MongoStore.Collection.FindOne` | covidscholar_database/metadata/scrape_metadata_by_api.py:87-90 | Returns a record exactly when some record has the key value and the marker field. The record returned is the first one, in natural order, that has both. |
| `MongoStore.Collection.FindOneAndUpdate` | covidscholar_database/metadata/scrape_metadata_by_api.py:99-108 | The new records are `UpdateFirst` of the old ones, so nothing is inserted, and the unique-id invariant is kept. |
| `DoiNormalizer.LeadingSpaces` | covidscholar_database/metadata/scrape_metadata_by_api.py:47 | Counts the leading whitespace. The next character is not whitespace. |
| `DoiNormalizer.PythonWhitespace` | covidscholar_database/metadata/scrape_metadata_by_api.py:47 | The code points for which Python's `str.isspace()` is true, which are the characters `strip()` removes. |
| `DoiNormalizer.IsSpace` | covidscholar_database/metadata/scrape_metadata_by_api.py:47 | One character is whitespace for `strip()`. `LeadingSpaces`, `TrailingStart` and `StripBounds` are stated through it. |
| `DoiNormalizer.TrailingStart` | covidscholar_database/metadata/scrape_metadata_by_api.py:47 | Gives the start of the trailing whitespace. The character before it is not whitespace. |
| `DoiNormalizer.StripBounds` | covidscholar_database/metadata/scrape_metadata_by_api.py:47 | `str.strip()` cuts only whitespace, and the kept part neither starts nor ends with whitespace. |
| `DoiNormalizer.LineEnd` | covidscholar_database/metadata/scrape_metadata_by_api.py:45 | `.` does not cross a newline: this is the end of the first line. |
| `DoiNormalizer.MarkerAt` | covidscholar_database/metadata/scrape_metadata_by_api.py:45 | `doi.org/` matches at a position: `doi`, then any character except a newline (the unescaped `.`), then `org/`. `LastMarker` is stated through it. |
| `DoiNormalizer.Parses` | covidscholar_database/metadata/scrape_metadata_by_api.py:45 | One way the pattern `.*doi.org/(.*)` can match a prefix of the input. The leading `.*` covers the text before a marker, and group 1 covers the text after it. No part crosses a newline. `RegexMatchSemantics` is stated through it. |
| `DoiNormalizer.Preferred` | covidscholar_database/metadata/scrape_metadata_by_api.py:45 | The parse a backtracking engine reports: the longest leading `.*`, then the longest group. `RegexMatchSemantics` proves that `RegexMatch` returns the group of this parse. |
| `DoiNormalizer.LastMarker` | covidscholar_database/metadata/scrape_metadata_by_api.py:45 | Gives the last position where `doi?org/` fits (where `?` is any non-newline character), or proves there is none. |
| `DoiNormalizer.Strip` | covidscholar_database/metadata/scrape_metadata_by_api.py:47 | `str.strip()`: the slice between the bounds of `StripBounds`, which says only whitespace is cut and the kept part is not padded. |
| `DoiNormalizer.RegexMatch` | covidscholar_database/metadata/scrape_metadata_by_api.py:45 | Group 1 of `regex.match(r'.*doi.org/(.*)', s)`. `RegexMatchSemantics` proves it is the group of the pattern's preferred parse, and `None` exactly when no parse exists. |
| `DoiNormalizer.NormalizeDoi` | covidscholar_database/metadata/scrape_metadata_by_api.py:43-48 | `doi_url_rm_prefix`. `NormalizeAtLastMarker` and `NormalizeWithoutMarker` give its two cases, `NormalizeDoiIdempotent` proves it idempotent, and `NormalizeExample` checks the documented example. |
| `DoiNormalizer.RegexMatchSemantics` | covidscholar_database/metadata/scrape_metadata_by_api.py:45 | The match succeeds exactly when some parse of `.*doi.org/(.*)` exists. Group 1 is the one from the greedy (preferred) parse. |
| `DoiNormalizer.NormalizeAtLastMarker` | covidscholar_database/metadata/scrape_metadata_by_api.py:43-48 | When `p` is the last marker on the first line, the result is the rest of that line after `p`, stripped. |
| `DoiNormalizer.NormalizeWithoutMarker` | covidscholar_database/metadata/scrape_metadata_by_api.py:43-48 | With no marker on the first line, the input is returned unchanged (not stripped). |
| `DoiNormalizer.MatchedRestIsNormal` | covidscholar_database/metadata/scrape_metadata_by_api.py:45-47 | The stripped group holds no newline and no marker, so normalising it changes nothing. |
| `DoiNormalizer.NormalizeDoiIdempotent` | covidscholar_database/metadata/scrape_metadata_by_api.py:43-48 | Normalising twice equals normalising once, for every input. |
| `DoiNormalizer.StripUnpadded` | covidscholar_database/metadata/scrape_metadata_by_api.py:47 | Stripping a string that has no surrounding whitespace returns it unchanged. |
| `DoiNormalizer.NormalizeBare` | covidscholar_database/metadata/scrape_metadata_by_api.py:43-48 | A bare DOI (one line, no marker, not padded) is returned unchanged. |
| `DoiNormalizer.NormalizeResolverUrl` | covidscholar_database/metadata/scrape_metadata_by_api.py:43-48 | `https://doi.org/` followed by a bare DOI normalises to that DOI. |
| `DoiNormalizer.NormalizeExample` | covidscholar_database/metadata/scrape_metadata_by_api.py:43-48 | `https://doi.org/10.1/abc` and `10.1/abc` both normalise to `10.1/abc`. |
| `ScrapeMetadataByApi.DoiColumn` | covidscholar_database/metadata/scrape_metadata_by_api.py:60-69 | The column is absent exactly when none of the first 100 records has a key whose lower case is `doi`. Otherwise it is the first such key of the earliest such record. |
| `ScrapeMetadataByApi.EnrichmentCollectionName` | covidscholar_database/metadata/scrape_metadata_by_api.py:51 | `metadata_from_api`, the collection the passes write to. `UnlistedCollectionIgnored` proves it is outside the whitelist. |
| `ScrapeMetadataByApi.PaperCollections` | covidscholar_database/metadata/scrape_metadata_by_api.py:13-41 | `PAPER_COLLECTIONS`, the ten source collections a pass reads. `CollectionDois` and `UnlistedCollectionIgnored` are stated through it. |
| `ScrapeMetadataByApi.SampleSize` | covidscholar_database/metadata/scrape_metadata_by_api.py:61 | `limit(100)`: the number of records DOI-column detection looks at. `DoiColumnSampleOnly` proves that no later record matters. |
| `ScrapeMetadataByApi.Lower` | covidscholar_database/metadata/scrape_metadata_by_api.py:63 | `.lower()` on one character, for the ASCII letters that `key.lower() == 'doi'` can depend on. |
| `ScrapeMetadataByApi.DoiKeyIndex` | covidscholar_database/metadata/scrape_metadata_by_api.py:62-65 | The inner key scan: the position of the first DOI-like key of a record, in key order. `DoiColumn` and `DetectDoiColumn` are stated through it. |
| `ScrapeMetadataByApi.Marker` | covidscholar_database/metadata/scrape_metadata_by_api.py:89 | The completion-marker field of each provider: `crossref_raw_result` for crossref (`:89`) and `scopus_raw_result` for scopus (`:149`). |
| `ScrapeMetadataByApi.IsDoiKey` | covidscholar_database/metadata/scrape_metadata_by_api.py:63 | `key.lower() == 'doi'`. `DoiColumn` and `DetectDoiColumn` use it to find the DOI column. |
| `ScrapeMetadataByApi.DetectDoiColumn` | covidscholar_database/metadata/scrape_metadata_by_api.py:60-69 | The two nested sampling loops with their `break`s compute `DoiColumn`. |
| `ScrapeMetadataByApi.ColumnDois` | covidscholar_database/metadata/scrape_metadata_by_api.py:80-86 | A DOI is listed exactly when some record's column value is a non-empty string that normalises to it. |
| `ScrapeMetadataByApi.RecordDoi` | covidscholar_database/metadata/scrape_metadata_by_api.py:84-86 | The DOI one cursor record contributes: a non-empty string column value, normalised, and nothing otherwise. `ColumnDois` and `ScanRecord` are stated through it. |
| `ScrapeMetadataByApi.Candidates` | covidscholar_database/metadata/scrape_metadata_by_api.py:54-86 | A DOI is a candidate exactly when some collection contributes it. |
| `ScrapeMetadataByApi.CollectionDois` | covidscholar_database/metadata/scrape_metadata_by_api.py:54-86 | The DOIs one collection contributes. A collection that is outside the whitelist or has no detected DOI column contributes none (`UnlistedCollectionIgnored`, `NoDoiKeyInSampleIgnored`). |
| `ScrapeMetadataByApi.Caught` | covidscholar_database/metadata/scrape_metadata_by_api.py:93-97 | The `try/except` around a provider call: a raised exception reads as `None`. `Step` and `StepSettles` use it. |
| `ScrapeMetadataByApi.Marked` | covidscholar_database/metadata/scrape_metadata_by_api.py:87-92 | The skip test `find_one({'doi': doi, marker: {'$exists': True}})`. `MarkedIff` proves it holds exactly when a record has the DOI and the marker. |
| `ScrapeMetadataByApi.MarkedIff` | covidscholar_database/metadata/scrape_metadata_by_api.py:87-92 | The skip test holds exactly when some enrichment record has the DOI and the provider's marker. |
| `ScrapeMetadataByApi.WriteFieldsKeepId` | covidscholar_database/metadata/scrape_metadata_by_api.py:102-106 | A hit's `$set` never assigns `_id`. |
| `ScrapeMetadataByApi.WriteFields` | covidscholar_database/metadata/scrape_metadata_by_api.py:102-106 | The `$set` document of a hit. `EnrichmentProperties.WriteFieldsAssigned` proves it assigns exactly `doi`, the marker (the payload) and `last_updated` (the clock). |
| `ScrapeMetadataByApi.Step` | covidscholar_database/metadata/scrape_metadata_by_api.py:87-108 | One iteration for a normalised DOI. A DOI that is already marked is skipped: no call and no write. Otherwise the provider is asked exactly once. A `None` answer (or a raised exception) writes nothing, and no iteration inserts a record. |
| `ScrapeMetadataByApi.Steps` | covidscholar_database/metadata/scrape_metadata_by_api.py:80-108 | The loop iterations over a list of normalised DOIs, in order. The pass methods are proved equal to it. `StepsAt`, `StepsCalls`, `PassSettles` and `StepsAppend` state what it does. |
| `ScrapeMetadataByApi.Pass` | covidscholar_database/metadata/scrape_metadata_by_api.py:50-108 | A whole crossref/scopus pass: `Steps` over `Candidates`. `CollectProviderData` is proved equal to it. `PassIdempotent`, `SecondPassCalls` and `AskedAtMostOnce` are about it. |
| `ScrapeMetadataByApi.EnrichDoi` | covidscholar_database/metadata/scrape_metadata_by_api.py:86-108 | One DOI: skip it if marked, else call the provider (logged), and write a non-`None` answer to the first record with the DOI. This is `Step`. |
| `ScrapeMetadataByApi.ScanRecord` | covidscholar_database/metadata/scrape_metadata_by_api.py:84-108 | One cursor record: a missing, non-string or empty value does nothing; otherwise the normalised DOI is one more `Step`. |
| `ScrapeMetadataByApi.ScanCollection` | covidscholar_database/metadata/scrape_metadata_by_api.py:72-108 | The cursor loop adds the `Steps` of the collection's column DOIs, in record order. |
| `ScrapeMetadataByApi.ScanSource` | covidscholar_database/metadata/scrape_metadata_by_api.py:54-108 | A collection outside the whitelist, or without a detected DOI column, changes nothing. Otherwise it is scanned. |
| `ScrapeMetadataByApi.CollectProviderData` | covidscholar_database/metadata/scrape_metadata_by_api.py:50-108 | The whole pass leaves the enrichment records and the call log exactly as `Pass` says, and keeps unique ids. |
| `ScrapeMetadataByApi.CollectCrossrefData` | covidscholar_database/metadata/scrape_metadata_by_api.py:50-108 | The crossref pass is `Pass` with marker `crossref_raw_result`. |
| `ScrapeMetadataByApi.CollectScopusData` | covidscholar_database/metadata/scrape_metadata_by_api.py:110-168 | The scopus pass is `Pass` with marker `scopus_raw_result`. |
| `ScrapeMetadataByApi.Snapshot` | covidscholar_database/metadata/scrape_metadata_by_api.py:175-183 | The snapshot holds exactly the `_id`/`doi` projections of the records that have a `doi`. |
| `ScrapeMetadataByApi.SnapshotSnoc` | covidscholar_database/metadata/scrape_metadata_by_api.py:175-183 | The snapshot keeps natural order, one entry per record that has a `doi`. A record added at the end adds its entry at the end, or nothing. |
| `ScrapeMetadataByApi.EntryOf` | covidscholar_database/metadata/scrape_metadata_by_api.py:179-182 | The `{'_id': True, 'doi': True}` projection of one enrichment record. `Snapshot` and `PmidProperties.EntryOwner` are stated through it. |
| `ScrapeMetadataByApi.TruthyAt` | covidscholar_database/metadata/scrape_metadata_by_api.py:187-190 | `ids.get(k)` is truthy. `SetParams` and `SetParamsAssigned` are stated through it. |
| `ScrapeMetadataByApi.SetParams` | covidscholar_database/metadata/scrape_metadata_by_api.py:185-192 | `set_params` is empty exactly when neither `pmcid` nor `pubmed_id` is truthy. |
| `ScrapeMetadataByApi.SetParamsAssigned` | covidscholar_database/metadata/scrape_metadata_by_api.py:185-190 | `set_params` assigns a key exactly when it is `pmcid` or `pubmed_id` and truthy, with the resolver's value. |
| `ScrapeMetadataByApi.SetParamsKeepId` | covidscholar_database/metadata/scrape_metadata_by_api.py:185-198 | `set_params` never assigns `_id`. |
| `ScrapeMetadataByApi.BuildSetParams` | covidscholar_database/metadata/scrape_metadata_by_api.py:185-190 | The loop body builds exactly `SetParams`. |
| `ScrapeMetadataByApi.AbortSticks` | covidscholar_database/metadata/scrape_metadata_by_api.py:184-186 | After a resolver exception, the later entries change nothing. |
| `ScrapeMetadataByApi.PmidStep` | covidscholar_database/metadata/scrape_metadata_by_api.py:184-198 | One iteration of the pmid loop. It changes nothing once an earlier lookup has raised. The loop stays alive exactly when `find_remaining_ids` returns for this entry. No record is inserted. |
| `ScrapeMetadataByApi.PmidSteps` | covidscholar_database/metadata/scrape_metadata_by_api.py:184-198 | The pmid loop over a list of snapshot entries, in order. `PmidStepsAt`, `PmidCompletedIff` and `PmidStepsDone` state what it does. |
| `ScrapeMetadataByApi.PmidPass` | covidscholar_database/metadata/scrape_metadata_by_api.py:170-198 | The whole pmid pass over the snapshot. `CollectPmidData` is proved equal to it, and `PmidProperties.PmidPassResult` states its result. |
| `ScrapeMetadataByApi.CollectPmidData` | covidscholar_database/metadata/scrape_metadata_by_api.py:170-198 | The records and the completion flag end as `PmidPass` says, including when the resolver raises. Unique ids are kept. |
| `EnrichmentProperties.WriteFieldsAssigned` | covidscholar_database/metadata/scrape_metadata_by_api.py:102-106 | A hit assigns `doi`, the marker (with the payload) and `last_updated` (with the clock), and nothing else. |
| `EnrichmentProperties.WrittenRecord` | covidscholar_database/metadata/scrape_metadata_by_api.py:99-108 | A record after a hit has the DOI, the payload and the clock set. Every other field is as before. |
| `EnrichmentProperties.StepsLength` | covidscholar_database/metadata/scrape_metadata_by_api.py:99-108 | A pass never inserts: the enrichment collection keeps its size. |
| `EnrichmentProperties.StepAt` | covidscholar_database/metadata/scrape_metadata_by_api.py:87-108 | One iteration leaves record `j` alone, or writes one hit into it when it is the first record with the DOI and the DOI was unmarked. |
| `EnrichmentProperties.StepsAt` | covidscholar_database/metadata/scrape_metadata_by_api.py:80-108 | After a pass, every record is unchanged or is its old self with one hit of this provider written. |
| `EnrichmentProperties.StepsFrame` | covidscholar_database/metadata/scrape_metadata_by_api.py:99-108 | Only `doi`, the marker and `last_updated` can change. `doi` keeps its value and no field disappears. |
| `EnrichmentProperties.MarkedRecordUnchanged` | covidscholar_database/metadata/scrape_metadata_by_api.py:87-92 | A stored provider result is never overwritten: a record that holds the marker ends exactly as it was. |
| `EnrichmentProperties.StepsKeepIds` | covidscholar_database/metadata/scrape_metadata_by_api.py:99-108 | A pass keeps every record's `_id`. |
| `EnrichmentProperties.StepsEvolves` | covidscholar_database/metadata/scrape_metadata_by_api.py:80-108 | A pass keeps the collection's size and each record's DOI, and only adds fields. |
| `EnrichmentProperties.MarkedPersists` | covidscholar_database/metadata/scrape_metadata_by_api.py:87-108 | A DOI that was marked before the pass is still marked after it. |
| `EnrichmentProperties.StepsCalls` | covidscholar_database/metadata/scrape_metadata_by_api.py:87-97 | The calls follow the candidates' order, with some candidates left out. A DOI is asked about exactly when it is a candidate that was not marked before the pass. |
| `EnrichmentProperties.StepKeepsUnmarked` | covidscholar_database/metadata/scrape_metadata_by_api.py:93-107 | One iteration does not mark a DOI unless it visits that DOI and the provider answers it: a write for another DOI goes to a record with that other DOI. |
| `EnrichmentProperties.StaysUnmarked` | covidscholar_database/metadata/scrape_metadata_by_api.py:87-108 | A DOI that the pass never visits, or that the provider answers with `None`, is still unmarked after the pass if it was unmarked before it. |
| `EnrichmentProperties.AskedIfUnmarked` | covidscholar_database/metadata/scrape_metadata_by_api.py:87-97 | Every candidate that is unmarked before the pass is asked about at least once. |
| `EnrichmentProperties.StepSettles` | covidscholar_database/metadata/scrape_metadata_by_api.py:87-108 | After its iteration, a DOI is marked, or the provider answers `None` for it, or it has no enrichment record. |
| `EnrichmentProperties.PassSettles` | covidscholar_database/metadata/scrape_metadata_by_api.py:80-108 | After a pass, every visited DOI is settled in that sense. |
| `EnrichmentProperties.SettledNoWrites` | covidscholar_database/metadata/scrape_metadata_by_api.py:87-108 | Over settled DOIs, a pass writes nothing. |
| `EnrichmentProperties.StepsAppend` | covidscholar_database/metadata/scrape_metadata_by_api.py:80-108 | A pass over `xs + ys` is a pass over `xs` followed by one over `ys`: the records chain and the call logs concatenate. |
| `EnrichmentProperties.Resume` | covidscholar_database/metadata/scrape_metadata_by_api.py:87-108 | After an interruption once `k` DOIs are handled, re-running the whole list ends like running only the rest. |
| `EnrichmentProperties.PassIdempotent` | covidscholar_database/metadata/scrape_metadata_by_api.py:50-108 | Running a pass twice over the same sources ends as running it once, whatever the second clock. |
| `EnrichmentProperties.SecondPassCalls` | covidscholar_database/metadata/scrape_metadata_by_api.py:87-108 | A second pass asks about a DOI exactly when it is a candidate, was unmarked before the first pass, and either the first answer was `None` or it has no enrichment record. Those DOIs are asked again on every run. |
| `EnrichmentProperties.NoMatchUnmarked` | covidscholar_database/metadata/scrape_metadata_by_api.py:87-91 | A DOI with no enrichment record is never marked. |
| `EnrichmentProperties.AskedAtMostOnce` | covidscholar_database/metadata/scrape_metadata_by_api.py:87-108 | Within one pass, the provider is asked at most once about a DOI that it answers and that has an enrichment record, even when several source records or collections carry that DOI. |
| `EnrichmentProperties.OrphanAlwaysQueried` | covidscholar_database/metadata/scrape_metadata_by_api.py:93-108 | No upsert: a candidate with no enrichment record is asked about on every pass and still has no record afterwards. |
| `EnrichmentProperties.CandidateOrigin` | covidscholar_database/metadata/scrape_metadata_by_api.py:54-86 | A DOI is visited exactly when it is the normalised, non-empty column value of a record in a whitelisted collection with a detected DOI column. |
| `EnrichmentProperties.UnlistedCollectionIgnored` | covidscholar_database/metadata/scrape_metadata_by_api.py:13-56 | A collection outside `PAPER_COLLECTIONS` adds nothing, and `metadata_from_api` is outside it. |
| `EnrichmentProperties.NoDoiKeyInSampleIgnored` | covidscholar_database/metadata/scrape_metadata_by_api.py:60-69 | A collection none of whose first 100 records has a DOI-like key adds nothing. |
| `EnrichmentProperties.DoiColumnSampleOnly` | covidscholar_database/metadata/scrape_metadata_by_api.py:61 | Only the sample decides the DOI column. Two collections whose first 100 records agree have the same column. For a collection with fewer than 100 records, all of its records must agree. |
| `PmidProperties.SetParamsShape` | covidscholar_database/metadata/scrape_metadata_by_api.py:185-190 | Each field of `set_params` is `pmcid` or `pubmed_id`, with its truthy resolver value. |
| `PmidProperties.SetParamsIdempotent` | covidscholar_database/metadata/scrape_metadata_by_api.py:185-198 | Applying the same `set_params` twice equals applying it once. |
| `PmidProperties.SetParamsFrame` | covidscholar_database/metadata/scrape_metadata_by_api.py:185-198 | `set_params` leaves every key other than `pmcid` and `pubmed_id` as it was. |
| `PmidProperties.PmidStepsKeepIds` | covidscholar_database/metadata/scrape_metadata_by_api.py:192-198 | The pmid loop keeps the collection's size and every `_id`. |
| `PmidProperties.EntryOwner` | covidscholar_database/metadata/scrape_metadata_by_api.py:175-183 | With unique ids, a snapshot entry is the projection of the one record that carries its id. |
| `PmidProperties.PmidStepsAt` | covidscholar_database/metadata/scrape_metadata_by_api.py:184-198 | Each record ends unchanged or with the identifiers of its own DOI, even when the loop was cut short. |
| `PmidProperties.PmidCompletedIff` | covidscholar_database/metadata/scrape_metadata_by_api.py:184-186 | The loop runs to the end exactly when `find_remaining_ids` returns for every entry. |
| `PmidProperties.PmidStepsDone` | covidscholar_database/metadata/scrape_metadata_by_api.py:184-198 | While nothing has raised, the visited records carry their identifiers and all others are untouched. |
| `PmidProperties.PmidPassResult` | covidscholar_database/metadata/scrape_metadata_by_api.py:170-198 | The whole pmid pass: no insert and unique ids kept. Each record ends unchanged or enriched from its own DOI. The pass completes exactly when no lookup raises, and then every record with a DOI is enriched. |
| `PmidProperties.PmidFrame` | covidscholar_database/metadata/scrape_metadata_by_api.py:192-198 | The pmid pass changes no field other than `pmcid` and `pubmed_id`. |
| `PmidProperties.PmidEnrichedIdempotent` | covidscholar_database/metadata/scrape_metadata_by_api.py:185-198 | Enriching a record twice equals enriching it once. |
| `PmidProperties.PmidPassIdempotent` | covidscholar_database/metadata/scrape_metadata_by_api.py:170-198 | After a complete pass, each record keeps its DOI and is already enriched, so a second pass writes the same values again. |
| `LensPatents.Parse` | covidscholar_database/parse/lens_patents.py:25-184 | The four copied fields are the record's `Title`, `Abstract`, `Link` and `Published_Date`. The three trust flags agree and hold exactly when the date is not `None`. The unknown fields are `None`, `has_full_text` is false, the constants are `Scraper_lens_patents`, `Lens Patents`, `patent` and version 1, and `last_updated` is the clock. |
| `LensPatents.ParseReadsOnlySourceKeys` | covidscholar_database/parse/lens_patents.py:169-184 | Since `_preprocess` and `_postprocess` are identities, records that agree on the four source keys parse identically. |
| `LensPatents.ParseClockOnlyLastUpdated` | covidscholar_database/parse/lens_patents.py:84-87 | The clock reaches only `last_updated`. |
| `LensPatents.OriginIsRawCollection` | covidscholar_database/parse/lens_patents.py:186-188 | `origin` names the raw collection of `UnparsedLensDocument`, which differs from the parsed collection. |
| `LensPatents.NullDatePatent` | covidscholar_database/parse/lens_patents.py:53-67 | A patent with a null `Published_Date` and an extra field: the copied fields hold, all three trust flags are false, `is_preprint` is unknown. |
| `LensPatents.HasSourceKeys` | covidscholar_database/parse/lens_patents.py:29-116 | The four keys the parser reads by indexing: `Title`, `Abstract`, `Link`, `Published_Date` (`:31`, `:55`, `:71`, `:116`). `Parse` requires them. |
| `LensPatents.LatestVersion` | covidscholar_database/parse/lens_patents.py:9 | `latest_version`, which is 1. `Parse` states that every parsed patent carries it. |
| `LensPatents.ParsedCollection` | covidscholar_database/parse/lens_patents.py:13 | `Lens_Patents_parsed_vespa`, where parsed patents are stored. `OriginIsRawCollection` proves it differs from the raw collection. |
| `LensPatents.RawCollection` | covidscholar_database/parse/lens_patents.py:187 | `Scraper_lens_patents`, the collection raw records come from. `OriginIsRawCollection` proves that `origin` names it. |
| `LensPatents.Preprocess` | covidscholar_database/parse/lens_patents.py:169-177 | `_preprocess` returns the record as it is. `ParseReadsOnlySourceKeys` relies on this. |
| `LensPatents.ParseDoi` | covidscholar_database/parse/lens_patents.py:25-27 | Always `None`. `Parse` states it. |
| `LensPatents.ParseTitle` | covidscholar_database/parse/lens_patents.py:29-31 | `doc['Title']`, unchanged. `Parse` states it. |
| `LensPatents.ParseAuthors` | covidscholar_database/parse/lens_patents.py:33-38 | Always `None`. `Parse` states it. |
| `LensPatents.ParseJournal` | covidscholar_database/parse/lens_patents.py:40-42 | Always `None`. `Parse` states it. |
| `LensPatents.ParseIssn` | covidscholar_database/parse/lens_patents.py:44-46 | Always `None`. `Parse` states it. |
| `LensPatents.ParseJournalShort` | covidscholar_database/parse/lens_patents.py:48-51 | Always `None`. `Parse` states it. |
| `LensPatents.ParsePublicationDate` | covidscholar_database/parse/lens_patents.py:53-55 | `doc['Published_Date']`, unchanged. `Parse` states it. |
| `LensPatents.ParseHasYear` | covidscholar_database/parse/lens_patents.py:57-59 | The publication date is not `None`. `Parse` states that the three trust flags agree and hold exactly then. |
| `LensPatents.ParseHasMonth` | covidscholar_database/parse/lens_patents.py:61-63 | The same test as `ParseHasYear`. `Parse` states it. |
| `LensPatents.ParseHasDay` | covidscholar_database/parse/lens_patents.py:65-67 | The same test as `ParseHasYear`. `Parse` states it. |
| `LensPatents.ParseAbstract` | covidscholar_database/parse/lens_patents.py:69-71 | `doc['Abstract']`, unchanged. `Parse` states it. |
| `LensPatents.ParseOrigin` | covidscholar_database/parse/lens_patents.py:73-76 | The constant `Scraper_lens_patents`. `OriginIsRawCollection` states that it names the raw collection. |
| `LensPatents.ParseSourceDisplay` | covidscholar_database/parse/lens_patents.py:78-82 | The constant `Lens Patents`. `Parse` states it. |
| `LensPatents.ParseLastUpdated` | covidscholar_database/parse/lens_patents.py:84-87 | The clock `now`. `ParseClockOnlyLastUpdated` states that the clock reaches no other field. |
| `LensPatents.ParseHasFullText` | covidscholar_database/parse/lens_patents.py:89-91 | Always false. `Parse` states it. |
| `LensPatents.ParseBodyText` | covidscholar_database/parse/lens_patents.py:93-100 | Always `None`. `Parse` states it. |
| `LensPatents.ParseReferences` | covidscholar_database/parse/lens_patents.py:102-106 | Always `None`. `Parse` states it. |
| `LensPatents.ParseCitedBy` | covidscholar_database/parse/lens_patents.py:108-112 | Always `None`. `Parse` states it. |
| `LensPatents.ParseLink` | covidscholar_database/parse/lens_patents.py:114-116 | `doc['Link']`, unchanged. `Parse` states it. |
| `LensPatents.ParseCategoryHuman` | covidscholar_database/parse/lens_patents.py:118-120 | Always `None`. `Parse` states it. |
| `LensPatents.ParseKeywords` | covidscholar_database/parse/lens_patents.py:122-124 | Always `None`. `Parse` states it. |
| `LensPatents.ParseSummaryHuman` | covidscholar_database/parse/lens_patents.py:126-128 | Always `None`. `Parse` states it. |
| `LensPatents.ParseIsPreprint` | covidscholar_database/parse/lens_patents.py:130-133 | Always `None` (unknown), never false. `Parse` states it. |
| `LensPatents.ParseIsCovid19` | covidscholar_database/parse/lens_patents.py:135-138 | Always `None` (unknown), never false. `Parse` states it. |
| `LensPatents.ParseLicense` | covidscholar_database/parse/lens_patents.py:140-142 | Always `None`. `Parse` states it. |
| `LensPatents.ParsePmcid` | covidscholar_database/parse/lens_patents.py:144-146 | Always `None`. `Parse` states it. |
| `LensPatents.ParsePubmedId` | covidscholar_database/parse/lens_patents.py:148-150 | Always `None`. `Parse` states it. |
| `LensPatents.ParseWhoCovidence` | covidscholar_database/parse/lens_patents.py:152-154 | Always `None`. `Parse` states it. |
| `LensPatents.ParseVersion` | covidscholar_database/parse/lens_patents.py:156-158 | `latest_version`, which is 1 (`:9`). `Parse` states it. |
| `LensPatents.ParseCopyright` | covidscholar_database/parse/lens_patents.py:160-162 | Always `None`. `Parse` states it. |
| `LensPatents.ParseDocumentType` | covidscholar_database/parse/lens_patents.py:164-167 | The constant `patent`. `Parse` states it. |
| `LensPatents.Assemble` | covidscholar_database/parse/lens_patents.py:25-167 | Every `_parse_*` applied to the same record, one per canonical field. `Parse` states each field of the result. |
| `LensPatents.Postprocess` | covidscholar_database/parse/lens_patents.py:179-184 | `_postprocess` returns the parsed document unchanged. `ParseReadsOnlySourceKeys` relies on this. |

## Left out

- MongoDB plumbing is not modelled: `get_mongo_db`, client connections, cursors and projections. `collection_names()` is a sequence of named collections.
- `create_index` (`:52`, `:112`, `:172-173`) is left out. An index changes no result.
- `query_crossref_by_doi`, `query_scopus_by_doi` and `find_remaining_ids` are not part of this model. They are network calls, and each is a function parameter returning `Option`.
- The providers and `find_remaining_ids` are modelled as fixed functions, so the same DOI always gets the same answer, on every pass. A service whose answer changes over time (a transient failure followed by a success, for example) is not modelled. The lemmas that compare two passes (`PassIdempotent`, `SecondPassCalls`, `Resume`) rely on this.
- `change_default_scopus_config` (global credential setup) and the `__main__` block are left out.
- `print` and the `i % 1000` progress output are left out. They have no effect on the data.
- `datetime.now()` is a parameter. The model does not capture that time passes within one pass: every hit of a pass gets the same `now`.
- Mongo's array-element equality matching (`{'doi': d}` also matching an array that contains `d`) is not modelled. Matching is plain value equality.
- Exceptions of the crossref/scopus passes other than the caught provider call are not modelled. Examples are a store failure or a source value that is missing after the `$exists` filter. A record without the column is skipped, as the `$exists` filter does.
- The pmid pass's `ids['pmcid']` after a truthy `ids.get('pmcid')` always succeeds and is modelled as such.
- The mongoengine classes are left out: `LensPatentDocument`, `VespaDocument`, `ReferenceField` lineage and `UnparsedLensDocument.parse`/`to_mongo` (`lens_patents.py:198-202`). They depend on the ORM and on the base parser, which is not part of this model.
- `LensPatents.Parse` composes the field functions in the order `_preprocess`, every `_parse_*`, then `_postprocess`. This is a composition defined here, not a claim about the base `Parser.parse`.
- `DoiNormalizer.RegexMatch` is not a general regular-expression engine. It states the semantics of the one pattern `.*doi.org/(.*)` under `regex.match`. `RegexMatchSemantics` ties it to the pattern's parses and the greedy preference.
- `DoiNormalizer.IsSpace` is a fixed list of the code points that Python 3's `str.isspace()` accepts, not a Unicode database. It is exact for the Unicode version that list was taken from.
- Values are a small dynamic type (strings, integers, booleans, dates, `None`, nested records and lists). Floating-point numbers and other Python objects are not modelled.
