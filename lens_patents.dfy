/**
 * The field extractor for patents from The Lens Human Coronaviruses Data
 * Initiative.
 *
 * A raw record of the `Scraper_lens_patents` collection is mapped to the
 * canonical document fields. Four fields are copied from the record by
 * direct key lookup; the three date-trust flags are derived from the
 * publication date; everything else is a constant or "unknown" (`None`).
 * The parser's driver belongs to a base class that is not part of this
 * model, so `Parse` composes `_preprocess`, every `_parse_*` and
 * `_postprocess` explicitly, in that order.
 */
module LensPatents {
  import opened Wrappers
  import opened Documents

  /** `latest_version`, the parser version stamped on every parsed patent. */
  const LatestVersion: int := 1

  /** `LensPatentDocument.meta["collection"]`: where parsed patents are stored. */
  const ParsedCollection := "Lens_Patents_parsed_vespa"

  /** `UnparsedLensDocument.meta["collection"]`: where the raw records come from. */
  const RawCollection := "Scraper_lens_patents"

  /**
   * The canonical fields of a parsed document. Fields the source copies
   * from the record keep the record's dynamic `Value`; fields it never
   * knows are `Option`s of the type its documentation announces, so that
   * "unknown" (`None`) is distinct from `False` or an empty string.
   * `lastUpdated` is a timestamp.
   */
  datatype ParsedDocument = ParsedDocument(
    doi: Option<string>,
    title: Value,
    authors: Option<seq<Value>>,
    journal: Option<string>,
    issn: Option<seq<string>>,
    journalShort: Option<string>,
    publicationDate: Value,
    hasYear: bool,
    hasMonth: bool,
    hasDay: bool,
    abstractText: Value,
    origin: string,
    sourceDisplay: string,
    lastUpdated: int,
    hasFullText: bool,
    bodyText: Option<seq<Value>>,
    references: Option<seq<Value>>,
    citedBy: Option<seq<string>>,
    link: Value,
    categoryHuman: Option<seq<string>>,
    keywords: Option<seq<string>>,
    summaryHuman: Option<seq<string>>,
    isPreprint: Option<bool>,
    isCovid19: Option<bool>,
    license: Option<string>,
    pmcid: Option<string>,
    pubmedId: Option<string>,
    whoCovidence: Option<string>,
    version: int,
    copyright: Option<string>,
    documentType: string)

  /** The keys the parser reads with `doc[...]`, which raises when one is missing. */
  predicate HasSourceKeys(doc: Record)
  {
    Has(doc, "Title") && Has(doc, "Abstract") && Has(doc, "Link") && Has(doc, "Published_Date")
  }

  /** `_preprocess`: the record is used as it is. */
  function Preprocess(doc: Record): Record
  {
    doc
  }

  function ParseDoi(doc: Record): Option<string> { None }

  function ParseTitle(doc: Record): Value
    requires Has(doc, "Title")
  {
    Get(doc, "Title").value
  }

  function ParseAuthors(doc: Record): Option<seq<Value>> { None }

  function ParseJournal(doc: Record): Option<string> { None }

  function ParseIssn(doc: Record): Option<seq<string>> { None }

  function ParseJournalShort(doc: Record): Option<string> { None }

  function ParsePublicationDate(doc: Record): Value
    requires Has(doc, "Published_Date")
  {
    Get(doc, "Published_Date").value
  }

  /** `_parse_has_year`, `_parse_has_month` and `_parse_has_day` are the same test. */
  predicate ParseHasYear(doc: Record)
    requires Has(doc, "Published_Date")
  {
    ParsePublicationDate(doc) != Null
  }

  predicate ParseHasMonth(doc: Record)
    requires Has(doc, "Published_Date")
  {
    ParsePublicationDate(doc) != Null
  }

  predicate ParseHasDay(doc: Record)
    requires Has(doc, "Published_Date")
  {
    ParsePublicationDate(doc) != Null
  }

  function ParseAbstract(doc: Record): Value
    requires Has(doc, "Abstract")
  {
    Get(doc, "Abstract").value
  }

  function ParseOrigin(doc: Record): string { "Scraper_lens_patents" }

  function ParseSourceDisplay(doc: Record): string { "Lens Patents" }

  /** `_parse_last_updated` reads the clock; the clock is the parameter `now`. */
  function ParseLastUpdated(doc: Record, now: int): int { now }

  predicate ParseHasFullText(doc: Record) { false }

  function ParseBodyText(doc: Record): Option<seq<Value>> { None }

  function ParseReferences(doc: Record): Option<seq<Value>> { None }

  function ParseCitedBy(doc: Record): Option<seq<string>> { None }

  function ParseLink(doc: Record): Value
    requires Has(doc, "Link")
  {
    Get(doc, "Link").value
  }

  function ParseCategoryHuman(doc: Record): Option<seq<string>> { None }

  function ParseKeywords(doc: Record): Option<seq<string>> { None }

  function ParseSummaryHuman(doc: Record): Option<seq<string>> { None }

  function ParseIsPreprint(doc: Record): Option<bool> { None }

  function ParseIsCovid19(doc: Record): Option<bool> { None }

  function ParseLicense(doc: Record): Option<string> { None }

  function ParsePmcid(doc: Record): Option<string> { None }

  function ParsePubmedId(doc: Record): Option<string> { None }

  function ParseWhoCovidence(doc: Record): Option<string> { None }

  function ParseVersion(doc: Record): int { LatestVersion }

  function ParseCopyright(doc: Record): Option<string> { None }

  function ParseDocumentType(doc: Record): string { "patent" }

  /** Every `_parse_*` applied to the same (preprocessed) record. */
  function Assemble(doc: Record, now: int): ParsedDocument
    requires HasSourceKeys(doc)
  {
    ParsedDocument(
      ParseDoi(doc), ParseTitle(doc), ParseAuthors(doc), ParseJournal(doc), ParseIssn(doc),
      ParseJournalShort(doc), ParsePublicationDate(doc), ParseHasYear(doc), ParseHasMonth(doc),
      ParseHasDay(doc), ParseAbstract(doc), ParseOrigin(doc), ParseSourceDisplay(doc),
      ParseLastUpdated(doc, now), ParseHasFullText(doc), ParseBodyText(doc), ParseReferences(doc),
      ParseCitedBy(doc), ParseLink(doc), ParseCategoryHuman(doc), ParseKeywords(doc),
      ParseSummaryHuman(doc), ParseIsPreprint(doc), ParseIsCovid19(doc), ParseLicense(doc),
      ParsePmcid(doc), ParsePubmedId(doc), ParseWhoCovidence(doc), ParseVersion(doc),
      ParseCopyright(doc), ParseDocumentType(doc))
  }

  /** `_postprocess`: the parsed document is returned unchanged. */
  function Postprocess(doc: Record, parsed: ParsedDocument): ParsedDocument
  {
    parsed
  }

  /**
   * The parser applied to one raw record at clock `now`: the four copied
   * fields are the record's values unchanged, the three trust flags agree
   * and say whether a publication date is present, the remaining fields
   * are the parser's constants or unknown.
   */
  function Parse(raw: Record, now: int): (d: ParsedDocument)
    requires HasSourceKeys(raw)
    ensures Some(d.title) == Get(raw, "Title")
    ensures Some(d.abstractText) == Get(raw, "Abstract")
    ensures Some(d.link) == Get(raw, "Link")
    ensures Some(d.publicationDate) == Get(raw, "Published_Date")
    ensures d.hasYear == d.hasMonth == d.hasDay
    ensures d.hasYear <==> Get(raw, "Published_Date") != Some(Null)
    ensures d.doi.None? && d.authors.None? && d.journal.None? && d.issn.None? && d.journalShort.None?
    ensures d.bodyText.None? && d.references.None? && d.citedBy.None? && d.categoryHuman.None?
    ensures d.keywords.None? && d.summaryHuman.None? && d.license.None? && d.pmcid.None?
    ensures d.pubmedId.None? && d.whoCovidence.None? && d.copyright.None?
    ensures d.isPreprint.None? && d.isCovid19.None? && !d.hasFullText
    ensures d.origin == RawCollection && d.sourceDisplay == "Lens Patents"
    ensures d.documentType == "patent" && d.version == LatestVersion
    ensures d.lastUpdated == now
  {
    var doc := Preprocess(raw);
    Postprocess(doc, Assemble(doc, now))
  }

  /** Records that agree on the four source keys parse alike: nothing else of the record is read. */
  lemma ParseReadsOnlySourceKeys(raw1: Record, raw2: Record, now: int)
    requires HasSourceKeys(raw1) && HasSourceKeys(raw2)
    requires Get(raw1, "Title") == Get(raw2, "Title") && Get(raw1, "Abstract") == Get(raw2, "Abstract")
    requires Get(raw1, "Link") == Get(raw2, "Link") && Get(raw1, "Published_Date") == Get(raw2, "Published_Date")
    ensures Parse(raw1, now) == Parse(raw2, now)
  {
  }

  /** The clock only reaches `lastUpdated`. */
  lemma ParseClockOnlyLastUpdated(raw: Record, now1: int, now2: int)
    requires HasSourceKeys(raw)
    ensures Parse(raw, now1).(lastUpdated := now2) == Parse(raw, now2)
  {
  }

  /** A document's origin names the collection its raw record is read from. */
  lemma OriginIsRawCollection(raw: Record, now: int)
    requires HasSourceKeys(raw)
    ensures Parse(raw, now).origin == RawCollection
    ensures ParsedCollection != RawCollection
  {
    assert ParsedCollection[0] != RawCollection[0];
  }

  /** A patent with a title, an abstract, a link, a null publication date and an extra field. */
  lemma NullDatePatent(title: string, abs: string, url: string, extra: Value, now: int)
    ensures var raw := [Field("Title", Str(title)), Field("Abstract", Str(abs)), Field("Link", Str(url)),
                        Field("Published_Date", Null), Field("Lens_ID", extra)];
      HasSourceKeys(raw) &&
      var d := Parse(raw, now);
      d.title == Str(title) && d.abstractText == Str(abs) && d.link == Str(url) &&
      !d.hasYear && !d.hasMonth && !d.hasDay && d.isPreprint.None? && d.documentType == "patent"
  {
    var raw := [Field("Title", Str(title)), Field("Abstract", Str(abs)), Field("Link", Str(url)),
                Field("Published_Date", Null), Field("Lens_ID", extra)];
    var r1, r2, r3 := raw[1..], raw[1..][1..], raw[1..][1..][1..];
    assert r1[0].key == "Abstract" && r2[0].key == "Link" && r3[0].key == "Published_Date";
    assert Get(raw, "Title") == Some(Str(title));
    assert Get(raw, "Abstract") == Get(r1, "Abstract") == Some(Str(abs));
    assert Get(raw, "Link") == Get(r1, "Link") == Get(r2, "Link") == Some(Str(url));
    assert Get(raw, "Published_Date") == Get(r1, "Published_Date") == Get(r2, "Published_Date")
        == Get(r3, "Published_Date") == Some(Null);
  }
}
