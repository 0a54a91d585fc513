/**
 * Properties of the crossref/scopus enrichment passes.
 *
 * Everything here is about the specification functions `Step`, `Steps`
 * and `Pass`; the methods of the scraper are proved equal to them.
 */
module EnrichmentProperties {
  import opened Wrappers
  import opened Documents
  import opened MongoStore
  import opened ScrapeMetadataByApi

  /** The DOI string a stored record is filed under, when its `doi` is a string. */
  function DoiOf(r: Record): Option<string>
  {
    match Get(r, "doi")
    case Some(Str(s)) => Some(s)
    case _ => None
  }

  /**
   * `r` is `o` after one hit of provider `p` was written to it: `o` had no
   * result of that provider yet, its DOI was among `dois`, and the provider
   * answered something other than `None`.
   */
  ghost predicate Enriched(o: Record, r: Record, dois: seq<string>, p: Provider,
                           lookup: string -> Option<Value>, now: int)
  {
    && DoiOf(o).Some? && DoiOf(o).value in dois
    && !Has(o, Marker(p))
    && Caught(lookup(DoiOf(o).value)) != Null
    && r == SetAll(o, WriteFields(DoiOf(o).value, Marker(p), Caught(lookup(DoiOf(o).value)), now))
  }

  /** What a hit's `$set` assigns: the DOI, the payload under the marker, and the clock. */
  lemma WriteFieldsAssigned(d: string, p: Provider, payload: Value, now: int, k: string)
    ensures Assigned(WriteFields(d, Marker(p), payload, now), k) ==
      if k == "last_updated" then Some(Date(now))
      else if k == Marker(p) then Some(payload)
      else if k == "doi" then Some(Str(d))
      else None
  {
    var w := WriteFields(d, Marker(p), payload, now);
    assert Marker(p) != "last_updated" && Marker(p) != "doi" && "doi" != "last_updated" by {
      assert |Marker(p)| != |"last_updated"| && |Marker(p)| != |"doi"|;
    }
    assert w[1..][1..][1..] == [];
    assert Assigned(w[1..][1..], k) == if k == "last_updated" then Some(Date(now)) else None;
    assert Assigned(w[1..], k) == if k == "last_updated" then Some(Date(now))
      else if k == Marker(p) then Some(payload) else None;
  }

  /** A record after a hit: the DOI, the marker and the clock set, every other field as before. */
  lemma WrittenRecord(o: Record, d: string, p: Provider, payload: Value, now: int)
    ensures var r := SetAll(o, WriteFields(d, Marker(p), payload, now));
      && Get(r, "doi") == Some(Str(d))
      && Get(r, Marker(p)) == Some(payload)
      && Get(r, "last_updated") == Some(Date(now))
      && forall k :: k != "doi" && k != Marker(p) && k != "last_updated" ==> Get(r, k) == Get(o, k)
  {
    var r := SetAll(o, WriteFields(d, Marker(p), payload, now));
    WriteFieldsAssigned(d, p, payload, now, "doi");
    WriteFieldsAssigned(d, p, payload, now, Marker(p));
    WriteFieldsAssigned(d, p, payload, now, "last_updated");
    forall k | k != "doi" && k != Marker(p) && k != "last_updated"
      ensures Get(r, k) == Get(o, k)
    {
      WriteFieldsAssigned(d, p, payload, now, k);
    }
  }

  /** A pass never inserts: the enrichment collection keeps its size. */
  lemma {:induction false} StepsLength(a: seq<Record>, ds: seq<string>, p: Provider,
                                       lookup: string -> Option<Value>, now: int)
    ensures |Steps(a, ds, p, lookup, now).records| == |a|
    decreases |ds|
  {
    if ds != [] {
      StepsLength(a, ds[..|ds| - 1], p, lookup, now);
    }
  }

  /** What one iteration does to record `j`: nothing, or a hit written to the first record with that DOI. */
  lemma StepAt(st: PassState, d: string, p: Provider, lookup: string -> Option<Value>, now: int, j: int)
    requires 0 <= j < |st.records|
    ensures var r := Step(st, d, p, lookup, now).records;
      |r| == |st.records| &&
      (r[j] == st.records[j] ||
       (&& IsFirstMatch(st.records, "doi", Str(d), j)
        && !Marked(st.records, d, Marker(p))
        && Caught(lookup(d)) != Null
        && r[j] == SetAll(st.records[j], WriteFields(d, Marker(p), Caught(lookup(d)), now))))
  {
    UpdateFirstAt(st.records, "doi", Str(d), WriteFields(d, Marker(p), Caught(lookup(d)), now), j);
  }

  /**
   * Each enrichment record ends either as it was or with exactly one hit
   * of this provider written to it.
   */
  lemma {:induction false} StepsAt(a: seq<Record>, ds: seq<string>, p: Provider,
                                   lookup: string -> Option<Value>, now: int, j: int)
    requires 0 <= j < |a|
    ensures |Steps(a, ds, p, lookup, now).records| == |a|
    ensures var b := Steps(a, ds, p, lookup, now).records;
      b[j] == a[j] || Enriched(a[j], b[j], ds, p, lookup, now)
    decreases |ds|
  {
    StepsLength(a, ds, p, lookup, now);
    if ds != [] {
      var prev := ds[..|ds| - 1];
      var d := ds[|ds| - 1];
      var st := Steps(a, prev, p, lookup, now);
      StepsAt(a, prev, p, lookup, now, j);
      StepAt(st, d, p, lookup, now, j);
      var b := Steps(a, ds, p, lookup, now).records;
      assert forall x :: x in prev ==> x in ds;
      if b[j] != st.records[j] {
        assert IsFirstMatch(st.records, "doi", Str(d), j) && !Marked(st.records, d, Marker(p));
        MarkedIff(st.records, d, Marker(p));
        if st.records[j] != a[j] {
          var o := DoiOf(a[j]).value;
          WrittenRecord(a[j], o, p, Caught(lookup(o)), now);
          assert false;
        } else {
          assert !Has(a[j], Marker(p));
          assert DoiOf(a[j]) == Some(d);
        }
      }
    }
  }

  /**
   * Field frame of a pass: only `doi`, the provider's marker and
   * `last_updated` can change, `doi` keeps its value, and no field
   * disappears (in particular a result already stored stays).
   */
  lemma StepsFrame(a: seq<Record>, ds: seq<string>, p: Provider,
                   lookup: string -> Option<Value>, now: int, j: int)
    requires 0 <= j < |a|
    ensures |Steps(a, ds, p, lookup, now).records| == |a|
    ensures var b := Steps(a, ds, p, lookup, now).records;
      && Get(b[j], "doi") == Get(a[j], "doi")
      && (forall k :: k != Marker(p) && k != "last_updated" ==> Get(b[j], k) == Get(a[j], k))
      && (forall k :: Has(a[j], k) ==> Has(b[j], k))
  {
    StepsAt(a, ds, p, lookup, now, j);
    var b := Steps(a, ds, p, lookup, now).records;
    if b[j] != a[j] {
      var o := DoiOf(a[j]).value;
      WrittenRecord(a[j], o, p, Caught(lookup(o)), now);
    }
  }

  /** A record that already held this provider's result is left exactly as it was. */
  lemma MarkedRecordUnchanged(a: seq<Record>, ds: seq<string>, p: Provider,
                              lookup: string -> Option<Value>, now: int, j: int)
    requires 0 <= j < |a| && Has(a[j], Marker(p))
    ensures |Steps(a, ds, p, lookup, now).records| == |a|
    ensures Steps(a, ds, p, lookup, now).records[j] == a[j]
  {
    StepsAt(a, ds, p, lookup, now, j);
  }

  /** A pass keeps every record's `_id`, so the store's ids stay unique. */
  lemma StepsKeepIds(a: seq<Record>, ds: seq<string>, p: Provider,
                     lookup: string -> Option<Value>, now: int)
    ensures |Steps(a, ds, p, lookup, now).records| == |a|
    ensures forall j :: 0 <= j < |a| ==> Get(Steps(a, ds, p, lookup, now).records[j], "_id") == Get(a[j], "_id")
  {
    StepsLength(a, ds, p, lookup, now);
    forall j | 0 <= j < |a|
      ensures Get(Steps(a, ds, p, lookup, now).records[j], "_id") == Get(a[j], "_id")
    {
      StepsFrame(a, ds, p, lookup, now, j);
    }
  }

  /** `b` grew from `a` by a pass: same size, same DOIs, no field lost. */
  ghost predicate Evolves(a: seq<Record>, b: seq<Record>)
  {
    && |b| == |a|
    && (forall j :: 0 <= j < |a| ==> Get(b[j], "doi") == Get(a[j], "doi"))
    && (forall j, k :: 0 <= j < |a| && Has(a[j], k) ==> Has(b[j], k))
  }

  lemma StepsEvolves(a: seq<Record>, ds: seq<string>, p: Provider,
                     lookup: string -> Option<Value>, now: int)
    ensures Evolves(a, Steps(a, ds, p, lookup, now).records)
  {
    StepsLength(a, ds, p, lookup, now);
    forall j | 0 <= j < |a|
      ensures Get(Steps(a, ds, p, lookup, now).records[j], "doi") == Get(a[j], "doi")
      ensures forall k :: Has(a[j], k) ==> Has(Steps(a, ds, p, lookup, now).records[j], k)
    {
      StepsFrame(a, ds, p, lookup, now, j);
    }
  }

  lemma EvolvesMarked(a: seq<Record>, b: seq<Record>, d: string, m: string)
    requires Evolves(a, b) && Marked(a, d, m)
    ensures Marked(b, d, m)
  {
    MarkedIff(a, d, m);
    MarkedIff(b, d, m);
    var i :| 0 <= i < |a| && Get(a[i], "doi") == Some(Str(d)) && Has(a[i], m);
    assert Get(b[i], "doi") == Some(Str(d)) && Has(b[i], m);
  }

  lemma EvolvesNoMatch(a: seq<Record>, b: seq<Record>, d: string)
    requires Evolves(a, b)
    ensures FirstMatch(b, "doi", Str(d)).None? <==> FirstMatch(a, "doi", Str(d)).None?
  {
    if FirstMatch(a, "doi", Str(d)).Some? {
      assert Get(b[FirstMatch(a, "doi", Str(d)).value], "doi") == Some(Str(d));
    }
    if FirstMatch(b, "doi", Str(d)).Some? {
      assert Get(a[FirstMatch(b, "doi", Str(d)).value], "doi") == Some(Str(d));
    }
  }

  /** A DOI already carrying this provider's result before the pass stays so after it. */
  lemma MarkedPersists(a: seq<Record>, ds: seq<string>, p: Provider,
                       lookup: string -> Option<Value>, now: int, d: string, m: string)
    requires Marked(a, d, m)
    ensures Marked(Steps(a, ds, p, lookup, now).records, d, m)
  {
    StepsEvolves(a, ds, p, lookup, now);
    EvolvesMarked(a, Steps(a, ds, p, lookup, now).records, d, m);
  }

  /** `xs` is `ys` with some elements left out, order kept. */
  ghost predicate IsSubsequence<T>(xs: seq<T>, ys: seq<T>)
    decreases |ys|
  {
    if xs == [] then true
    else if ys == [] then false
    else if xs[|xs| - 1] == ys[|ys| - 1] && IsSubsequence(xs[..|xs| - 1], ys[..|ys| - 1]) then true
    else IsSubsequence(xs, ys[..|ys| - 1])
  }

  /**
   * The provider calls of a pass: the candidates in visiting order, minus
   * some, and never a DOI whose result was already in the collection.
   */
  lemma {:induction false} StepsCalls(a: seq<Record>, ds: seq<string>, p: Provider,
                                      lookup: string -> Option<Value>, now: int)
    ensures IsSubsequence(Steps(a, ds, p, lookup, now).calls, ds)
    ensures forall d :: d in Steps(a, ds, p, lookup, now).calls <==> d in ds && !Marked(a, d, Marker(p))
    decreases |ds|
  {
    forall d | d in ds && !Marked(a, d, Marker(p))
      ensures d in Steps(a, ds, p, lookup, now).calls
    {
      AskedIfUnmarked(a, ds, p, lookup, now, d);
    }
    if ds != [] {
      var prev := ds[..|ds| - 1];
      var d := ds[|ds| - 1];
      StepsCalls(a, prev, p, lookup, now);
      var st := Steps(a, prev, p, lookup, now);
      var calls := Steps(a, ds, p, lookup, now).calls;
      assert forall x :: x in prev ==> x in ds;
      if !Marked(st.records, d, Marker(p)) {
        assert calls == st.calls + [d];
        assert calls[..|calls| - 1] == st.calls;
        if Marked(a, d, Marker(p)) {
          MarkedPersists(a, prev, p, lookup, now, d, Marker(p));
        }
      } else {
        SubsequenceExtend(st.calls, prev, d);
      }
    }
  }

  /**
   * One step leaves a DOI unmarked unless it visits that DOI and the
   * provider answers: a write for another DOI lands on a record whose
   * "doi" is that other DOI.
   */
  lemma StepKeepsUnmarked(st: PassState, x: string, p: Provider,
                          lookup: string -> Option<Value>, now: int, d: string)
    requires x != d || Caught(lookup(d)) == Null
    requires !Marked(st.records, d, Marker(p))
    ensures !Marked(Step(st, x, p, lookup, now).records, d, Marker(p))
  {
    var r := Step(st, x, p, lookup, now).records;
    MarkedIff(st.records, d, Marker(p));
    MarkedIff(r, d, Marker(p));
    if x != d {
      forall i | 0 <= i < |r|
        ensures !(Get(r[i], "doi") == Some(Str(d)) && Has(r[i], Marker(p)))
      {
        StepAt(st, x, p, lookup, now, i);
        if r[i] != st.records[i] {
          WrittenRecord(st.records[i], x, p, Caught(lookup(x)), now);
        }
      }
    }
  }

  /**
   * A DOI that a pass never visits, or that the provider answers with
   * `None`, is still unmarked after the pass if it was unmarked before.
   */
  lemma {:induction false} StaysUnmarked(a: seq<Record>, ds: seq<string>, p: Provider,
                                         lookup: string -> Option<Value>, now: int, d: string)
    requires d !in ds || Caught(lookup(d)) == Null
    requires !Marked(a, d, Marker(p))
    ensures !Marked(Steps(a, ds, p, lookup, now).records, d, Marker(p))
    decreases |ds|
  {
    if ds != [] {
      var prev := ds[..|ds| - 1];
      var x := ds[|ds| - 1];
      assert forall y :: y in prev ==> y in ds;
      StaysUnmarked(a, prev, p, lookup, now, d);
      StepKeepsUnmarked(Steps(a, prev, p, lookup, now), x, p, lookup, now, d);
    }
  }

  /** Every candidate unmarked before the pass is asked about. */
  lemma {:induction false} AskedIfUnmarked(a: seq<Record>, ds: seq<string>, p: Provider,
                                           lookup: string -> Option<Value>, now: int, d: string)
    requires d in ds && !Marked(a, d, Marker(p))
    ensures d in Steps(a, ds, p, lookup, now).calls
    decreases |ds|
  {
    var prev := ds[..|ds| - 1];
    var x := ds[|ds| - 1];
    SnocSplit([], ds);
    if d in prev {
      AskedIfUnmarked(a, prev, p, lookup, now, d);
    } else {
      StaysUnmarked(a, prev, p, lookup, now, d);
    }
  }

  lemma {:induction false} SubsequenceExtend<T>(xs: seq<T>, ys: seq<T>, y: T)
    requires IsSubsequence(xs, ys)
    ensures IsSubsequence(xs, ys + [y])
  {
    assert (ys + [y])[..|ys|] == ys;
    if xs != [] && xs[|xs| - 1] == y && IsSubsequence(xs[..|xs| - 1], ys) {
    }
  }

  /**
   * A DOI is settled in a collection when its result is stored, or the
   * provider answers `None` for it, or no enrichment record has it.
   */
  ghost predicate SettledOne(recs: seq<Record>, d: string, p: Provider, lookup: string -> Option<Value>)
  {
    Marked(recs, d, Marker(p)) || Caught(lookup(d)) == Null || FirstMatch(recs, "doi", Str(d)).None?
  }

  /** Every DOI of `ds` is settled in `recs`. */
  ghost predicate Settled(recs: seq<Record>, ds: seq<string>, p: Provider, lookup: string -> Option<Value>)
    decreases |ds|
  {
    ds == [] || (Settled(recs, ds[..|ds| - 1], p, lookup) && SettledOne(recs, ds[|ds| - 1], p, lookup))
  }

  lemma {:induction false} SettledAt(recs: seq<Record>, ds: seq<string>, p: Provider,
                                     lookup: string -> Option<Value>, i: int)
    requires Settled(recs, ds, p, lookup) && 0 <= i < |ds|
    ensures SettledOne(recs, ds[i], p, lookup)
    decreases |ds|
  {
    if i < |ds| - 1 {
      SettledAt(recs, ds[..|ds| - 1], p, lookup, i);
    }
  }

  lemma EvolvesSettledOne(a: seq<Record>, b: seq<Record>, d: string, p: Provider, lookup: string -> Option<Value>)
    requires Evolves(a, b) && SettledOne(a, d, p, lookup)
    ensures SettledOne(b, d, p, lookup)
  {
    if Marked(a, d, Marker(p)) {
      EvolvesMarked(a, b, d, Marker(p));
    } else {
      EvolvesNoMatch(a, b, d);
    }
  }

  lemma {:induction false} EvolvesSettled(a: seq<Record>, b: seq<Record>, ds: seq<string>, p: Provider,
                                          lookup: string -> Option<Value>)
    requires Evolves(a, b) && Settled(a, ds, p, lookup)
    ensures Settled(b, ds, p, lookup)
    decreases |ds|
  {
    if ds != [] {
      EvolvesSettled(a, b, ds[..|ds| - 1], p, lookup);
      EvolvesSettledOne(a, b, ds[|ds| - 1], p, lookup);
    }
  }

  /** One iteration settles its own DOI. */
  lemma StepSettles(st: PassState, d: string, p: Provider, lookup: string -> Option<Value>, now: int)
    ensures SettledOne(Step(st, d, p, lookup, now).records, d, p, lookup)
  {
    var r := Step(st, d, p, lookup, now).records;
    if !Marked(st.records, d, Marker(p)) && Caught(lookup(d)) != Null {
      match FirstMatch(st.records, "doi", Str(d))
      case None =>
        assert r == st.records;
      case Some(i) =>
        UpdateFirstAt(st.records, "doi", Str(d), WriteFields(d, Marker(p), Caught(lookup(d)), now), i);
        WrittenRecord(st.records[i], d, p, Caught(lookup(d)), now);
        assert Get(r[i], "doi") == Some(Str(d)) && Has(r[i], Marker(p));
        MarkedIff(r, d, Marker(p));
    }
  }

  /** One iteration only adds fields and never touches a DOI. */
  lemma StepEvolves(st: PassState, d: string, p: Provider, lookup: string -> Option<Value>, now: int)
    ensures Evolves(st.records, Step(st, d, p, lookup, now).records)
  {
    var r := Step(st, d, p, lookup, now).records;
    forall j | 0 <= j < |st.records|
      ensures Get(r[j], "doi") == Get(st.records[j], "doi")
      ensures forall k :: Has(st.records[j], k) ==> Has(r[j], k)
    {
      StepAt(st, d, p, lookup, now, j);
      if r[j] != st.records[j] {
        WrittenRecord(st.records[j], d, p, Caught(lookup(d)), now);
      }
    }
  }

  /** One more iteration keeps the earlier DOIs settled and settles its own. */
  lemma SettleStep(st: PassState, prev: seq<string>, d: string, p: Provider,
                   lookup: string -> Option<Value>, now: int)
    requires Settled(st.records, prev, p, lookup)
    ensures Settled(Step(st, d, p, lookup, now).records, prev + [d], p, lookup)
  {
    var b := Step(st, d, p, lookup, now).records;
    StepEvolves(st, d, p, lookup, now);
    EvolvesSettled(st.records, b, prev, p, lookup);
    StepSettles(st, d, p, lookup, now);
    assert (prev + [d])[..|prev|] == prev;
  }

  /** A pass leaves every DOI it visited settled. */
  lemma {:induction false} PassSettles(a: seq<Record>, ds: seq<string>, p: Provider,
                                       lookup: string -> Option<Value>, now: int)
    ensures Settled(Steps(a, ds, p, lookup, now).records, ds, p, lookup)
    decreases |ds|
  {
    if ds != [] {
      var prev := ds[..|ds| - 1];
      PassSettles(a, prev, p, lookup, now);
      SettleStep(Steps(a, prev, p, lookup, now), prev, ds[|ds| - 1], p, lookup, now);
      SnocSplit([], ds);
    }
  }

  /** In a settled collection a pass over the same DOIs writes nothing. */
  lemma {:induction false} SettledNoWrites(a: seq<Record>, ds: seq<string>, p: Provider,
                                           lookup: string -> Option<Value>, now: int)
    requires Settled(a, ds, p, lookup)
    ensures Steps(a, ds, p, lookup, now).records == a
    decreases |ds|
  {
    if ds != [] {
      var prev := ds[..|ds| - 1];
      assert forall i :: 0 <= i < |prev| ==> prev[i] == ds[i];
      SettledNoWrites(a, prev, p, lookup, now);
      var d := ds[|ds| - 1];
      assert SettledOne(a, d, p, lookup);
    }
  }

  /** The provider's call log does not influence the state: a step only appends to it. */
  lemma StepLog(st: PassState, x: PassState, c: seq<string>, d: string, p: Provider,
                lookup: string -> Option<Value>, now: int)
    requires x == PassState(st.records, c + st.calls)
    ensures Step(x, d, p, lookup, now) ==
      PassState(Step(st, d, p, lookup, now).records, c + Step(st, d, p, lookup, now).calls)
  {
    if !Marked(st.records, d, Marker(p)) {
      assert c + st.calls + [d] == c + (st.calls + [d]);
    }
  }

  /** A pass over `xs + ys` is a pass over `xs` followed by a pass over `ys`. */
  lemma {:induction false} StepsAppend(a: seq<Record>, xs: seq<string>, ys: seq<string>, p: Provider,
                                       lookup: string -> Option<Value>, now: int)
    ensures var first := Steps(a, xs, p, lookup, now);
      var second := Steps(first.records, ys, p, lookup, now);
      Steps(a, xs + ys, p, lookup, now) == PassState(second.records, first.calls + second.calls)
    decreases |ys|
  {
    var first := Steps(a, xs, p, lookup, now);
    if ys == [] {
      assert xs + ys == xs;
    } else {
      var prev := ys[..|ys| - 1];
      var y := ys[|ys| - 1];
      StepsAppend(a, xs, prev, p, lookup, now);
      SnocSplit(xs, ys);
      StepsSnoc(a, xs + prev, y, p, lookup, now);
      StepsSnoc(first.records, prev, y, p, lookup, now);
      StepLog(Steps(first.records, prev, p, lookup, now), Steps(a, xs + prev, p, lookup, now), first.calls, y, p, lookup, now);
    }
  }

  /**
   * Resuming after an interruption: once the first `k` DOIs have been
   * handled, running the whole list again ends in the same collection as
   * running only the rest.
   */
  lemma Resume(a: seq<Record>, ds: seq<string>, k: nat, p: Provider,
               lookup: string -> Option<Value>, now1: int, now2: int)
    requires k <= |ds|
    ensures var s := Steps(a, ds[..k], p, lookup, now1).records;
      Steps(s, ds, p, lookup, now2).records == Steps(s, ds[k..], p, lookup, now2).records
  {
    var pre, post := ds[..k], ds[k..];
    assert pre + post == ds;
    var s := Steps(a, pre, p, lookup, now1).records;
    PassSettles(a, pre, p, lookup, now1);
    SettledNoWrites(s, pre, p, lookup, now2);
    StepsAppend(s, pre, post, p, lookup, now2);
  }

  /** Running a pass twice ends as running it once, whatever the clock says the second time. */
  lemma PassIdempotent(a: seq<Record>, sources: seq<SourceCollection>, p: Provider,
                       lookup: string -> Option<Value>, now1: int, now2: int)
    ensures var b := Pass(a, sources, p, lookup, now1).records;
      Pass(b, sources, p, lookup, now2).records == b
  {
    PassSettles(a, Candidates(sources), p, lookup, now1);
    SettledNoWrites(Pass(a, sources, p, lookup, now1).records, Candidates(sources), p, lookup, now2);
  }

  /**
   * A second pass asks the provider about a DOI exactly when it is a
   * candidate, was unmarked before the first pass, and either the first
   * answer was `None` or it has no enrichment record: those are retried
   * on every run, everything else is settled.
   */
  lemma SecondPassCalls(a: seq<Record>, sources: seq<SourceCollection>, p: Provider,
                        lookup: string -> Option<Value>, now1: int, now2: int)
    ensures var b := Pass(a, sources, p, lookup, now1).records;
      forall d :: d in Pass(b, sources, p, lookup, now2).calls <==>
        && d in Candidates(sources)
        && !Marked(a, d, Marker(p))
        && (Caught(lookup(d)) == Null || FirstMatch(a, "doi", Str(d)).None?)
  {
    var ds := Candidates(sources);
    var b := Pass(a, sources, p, lookup, now1).records;
    PassSettles(a, ds, p, lookup, now1);
    StepsCalls(b, ds, p, lookup, now2);
    StepsEvolves(a, ds, p, lookup, now1);
    forall d | d in Pass(b, sources, p, lookup, now2).calls
      ensures !Marked(a, d, Marker(p))
      ensures Caught(lookup(d)) == Null || FirstMatch(a, "doi", Str(d)).None?
    {
      var i :| 0 <= i < |ds| && ds[i] == d;
      SettledAt(b, ds, p, lookup, i);
      EvolvesNoMatch(a, b, d);
      if Marked(a, d, Marker(p)) {
        EvolvesMarked(a, b, d, Marker(p));
      }
    }
    forall d | d in ds && !Marked(a, d, Marker(p)) && (Caught(lookup(d)) == Null || FirstMatch(a, "doi", Str(d)).None?)
      ensures !Marked(b, d, Marker(p))
    {
      if Caught(lookup(d)) == Null {
        StaysUnmarked(a, ds, p, lookup, now1, d);
      } else {
        EvolvesNoMatch(a, b, d);
        NoMatchUnmarked(b, d, Marker(p));
      }
    }
  }

  /** A DOI without an enrichment record cannot be marked. */
  lemma NoMatchUnmarked(recs: seq<Record>, d: string, m: string)
    requires FirstMatch(recs, "doi", Str(d)).None?
    ensures !Marked(recs, d, m)
  {
    MarkedIff(recs, d, m);
  }

  /**
   * Within one pass, a DOI the provider answers and that has an enrichment
   * record is asked about at most once, however many source records or
   * collections carry it: the first hit writes the marker, and the marker
   * makes every later occurrence a skip.
   */
  lemma {:induction false} AskedAtMostOnce(a: seq<Record>, ds: seq<string>, p: Provider,
                                           lookup: string -> Option<Value>, now: int, d: string)
    requires Caught(lookup(d)) != Null && FirstMatch(a, "doi", Str(d)).Some?
    ensures multiset(Steps(a, ds, p, lookup, now).calls)[d] <= 1
    decreases |ds|
  {
    if ds != [] {
      var prev := ds[..|ds| - 1];
      var x := ds[|ds| - 1];
      var st := Steps(a, prev, p, lookup, now);
      AskedAtMostOnce(a, prev, p, lookup, now, d);
      if x == d && !Marked(st.records, d, Marker(p)) && d in st.calls {
        StepsCalls(a, prev, p, lookup, now);
        PassSettles(a, prev, p, lookup, now);
        var i :| 0 <= i < |prev| && prev[i] == d;
        SettledAt(st.records, prev, p, lookup, i);
        StepsEvolves(a, prev, p, lookup, now);
        EvolvesNoMatch(a, st.records, d);
        assert false;
      }
    }
  }

  /**
   * No upsert: a candidate DOI without an enrichment record is asked for on
   * every pass, and still has no record afterwards.
   */
  lemma {:induction false} OrphanAlwaysQueried(a: seq<Record>, ds: seq<string>, p: Provider,
                                               lookup: string -> Option<Value>, now: int, d: string)
    requires FirstMatch(a, "doi", Str(d)).None?
    requires d in ds
    ensures d in Steps(a, ds, p, lookup, now).calls
    ensures FirstMatch(Steps(a, ds, p, lookup, now).records, "doi", Str(d)).None?
    decreases |ds|
  {
    StepsEvolves(a, ds, p, lookup, now);
    EvolvesNoMatch(a, Steps(a, ds, p, lookup, now).records, d);
    var prev := ds[..|ds| - 1];
    var st := Steps(a, prev, p, lookup, now);
    if d in prev {
      OrphanAlwaysQueried(a, prev, p, lookup, now, d);
    } else {
      SnocSplit([], ds);
      StepsEvolves(a, prev, p, lookup, now);
      EvolvesNoMatch(a, st.records, d);
      MarkedIff(st.records, d, Marker(p));
    }
  }

  /**
   * The DOIs a pass visits are exactly the normalised non-empty DOI values
   * of whitelisted collections for which a DOI column was found.
   */
  lemma CandidateOrigin(sources: seq<SourceCollection>, d: string)
    ensures d in Candidates(sources) <==>
      exists i, j :: 0 <= i < |sources| && sources[i].name in PaperCollections
        && DoiColumn(sources[i].records).Some?
        && 0 <= j < |sources[i].records|
        && RecordDoi(sources[i].records[j], DoiColumn(sources[i].records).value) == Some(d)
  {
  }

  /** A collection outside the whitelist, the enrichment collection among them, adds nothing. */
  lemma UnlistedCollectionIgnored(sources: seq<SourceCollection>, c: SourceCollection)
    requires c.name !in PaperCollections
    ensures Candidates(sources + [c]) == Candidates(sources)
    ensures EnrichmentCollectionName !in PaperCollections
  {
    assert (sources + [c])[..|sources|] == sources;
  }

  /** A collection none of whose first 100 records has a DOI-like key adds nothing. */
  lemma NoDoiKeyInSampleIgnored(c: SourceCollection)
    requires forall i :: 0 <= i < |c.records| && i < SampleSize ==> DoiKeyIndex(c.records[i]).None?
    ensures CollectionDois(c) == []
  {
  }

  /**
   * Only the sample decides the DOI column: two collections whose first
   * 100 records (all of them, when there are fewer) agree have the same
   * DOI column.
   */
  lemma DoiColumnSampleOnly(r1: seq<Record>, r2: seq<Record>)
    requires r1[..if |r1| < SampleSize then |r1| else SampleSize] ==
             r2[..if |r2| < SampleSize then |r2| else SampleSize]
    ensures DoiColumn(r1) == DoiColumn(r2)
  {
    var m := if |r1| < SampleSize then |r1| else SampleSize;
    assert m == if |r2| < SampleSize then |r2| else SampleSize;
    assert forall i :: 0 <= i < m ==> r1[i] == r2[i] by {
      forall i | 0 <= i < m ensures r1[i] == r2[i] {
        assert r1[..m][i] == r2[..m][i];
      }
    }
  }
}
