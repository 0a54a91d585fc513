/**
 * `doi_url_rm_prefix`: strip a `...doi.org/` URL prefix from a DOI string.
 *
 * The source applies `regex.match(r'.*doi.org/(.*)', s)` and, on a match,
 * returns group 1 with surrounding whitespace removed (`str.strip()`);
 * without a match it returns the input untouched. `.` matches any character
 * except a newline, so the literal dot of "doi.org" is a wildcard and the
 * whole match lives on the first line; the greedy leading `.*` makes the
 * engine settle on the LAST `doi?org/` of that line.
 */
module DoiNormalizer {
  import opened Wrappers

  /** Python's `str.isspace()` for one character (what `strip()` removes). */
  const PythonWhitespace: set<int> := {0x09, 0x0A, 0x0B, 0x0C, 0x0D, 0x1C, 0x1D, 0x1E, 0x1F, 0x20, 0x85, 0xA0, 0x1680,
    0x2000, 0x2001, 0x2002, 0x2003, 0x2004, 0x2005, 0x2006, 0x2007, 0x2008, 0x2009, 0x200A,
    0x2028, 0x2029, 0x202F, 0x205F, 0x3000}
  predicate IsSpace(c: char)
  {
    c as int in PythonWhitespace
  }

  predicate AllSpace(s: string)
  {
    forall i :: 0 <= i < |s| ==> IsSpace(s[i])
  }

  predicate NoNewline(s: string)
  {
    forall i :: 0 <= i < |s| ==> s[i] != '\n'
  }

  /** Number of leading whitespace characters. */
  function LeadingSpaces(s: string): (n: nat)
    ensures n <= |s| && AllSpace(s[..n]) && (n < |s| ==> !IsSpace(s[n]))
  {
    if s == [] || !IsSpace(s[0]) then 0
    else
      var n := 1 + LeadingSpaces(s[1..]);
      assert forall i :: 1 <= i < n ==> s[i] == s[1..][i - 1];
      n
  }

  /** Length of `s` without its trailing whitespace. */
  function TrailingStart(s: string): (n: nat)
    ensures n <= |s| && AllSpace(s[n..]) && (n > 0 ==> !IsSpace(s[n - 1]))
  {
    if s == [] || !IsSpace(s[|s| - 1]) then |s|
    else
      var n := TrailingStart(s[..|s| - 1]);
      assert forall i :: n <= i < |s| - 1 ==> s[i] == s[..|s| - 1][i];
      n
  }

  /** Where `str.strip()` cuts: `s[..lo]` and `s[hi..]` are whitespace, `s[lo..hi]` is not padded. */
  function StripBounds(s: string): (b: (nat, nat))
    ensures b.0 <= b.1 <= |s| && AllSpace(s[..b.0]) && AllSpace(s[b.1..])
    ensures b.0 < b.1 ==> !IsSpace(s[b.0]) && !IsSpace(s[b.1 - 1])
  {
    var i := LeadingSpaces(s);
    var t := s[i..];
    var n := TrailingStart(t);
    assert forall k :: i + n <= k < |s| ==> s[k] == t[n..][k - i - n];
    (i, i + n)
  }

  /** `str.strip()`: `s` less its leading and trailing whitespace. */
  function Strip(s: string): string
  {
    s[StripBounds(s).0..StripBounds(s).1]
  }

  /** Length of the first line (index of the first newline, or |s|). */
  function LineEnd(s: string): (e: nat)
    ensures e <= |s| && (e < |s| ==> s[e] == '\n') && NoNewline(s[..e])
  {
    if s == [] || s[0] == '\n' then 0
    else
      var e := 1 + LineEnd(s[1..]);
      assert forall i :: 1 <= i < e ==> s[..e][i] == s[1..][..e - 1][i - 1];
      e
  }

  /** `s[p..p+8]` is matched by `doi.org/`: "doi", any non-newline character, "org/". */
  predicate MarkerAt(s: string, p: int)
  {
    && 0 <= p && p + 8 <= |s|
    && s[p] == 'd' && s[p + 1] == 'o' && s[p + 2] == 'i' && s[p + 3] != '\n'
    && s[p + 4] == 'o' && s[p + 5] == 'r' && s[p + 6] == 'g' && s[p + 7] == '/'
  }

  /** The largest `p` with `p + 8 <= n` at which a marker starts. */
  function LastMarker(s: string, n: nat): (r: Option<nat>)
    requires n <= |s|
    ensures r.Some? ==> r.value + 8 <= n && MarkerAt(s, r.value)
    ensures r.Some? ==> forall q :: r.value < q && q + 8 <= n ==> !MarkerAt(s, q)
    ensures r.None? ==> forall q :: q + 8 <= n ==> !MarkerAt(s, q)
  {
    if n < 8 then None
    else if MarkerAt(s, n - 8) then Some(n - 8)
    else LastMarker(s, n - 1)
  }

  /**
   * One way the pattern can match a prefix of `s`: the leading `.*` covers
   * `s[..p]`, `doi.org/` covers `s[p..p+8]` and group 1 covers `s[p+8..e]`.
   */
  ghost predicate Parses(s: string, p: int, e: int)
  {
    0 <= p && p + 8 <= e <= |s| && MarkerAt(s, p) && NoNewline(s[..e])
  }

  /** The parse a backtracking engine reports: longest leading `.*` first, then longest group. */
  ghost predicate Preferred(s: string, p: int, e: int)
  {
    Parses(s, p, e) && forall p', e' :: Parses(s, p', e') ==> p' < p || (p' == p && e' <= e)
  }

  /** Group 1 of `regex.match(r'.*doi.org/(.*)', s)`, or None when there is no match. */
  function RegexMatch(s: string): Option<string>
  {
    var e := LineEnd(s);
    match LastMarker(s, e)
    case None => None
    case Some(p) => Some(s[p + 8..e])
  }

  /** `doi_url_rm_prefix`: the stripped group on a match, else the input untouched. */
  function NormalizeDoi(s: string): string
  {
    match RegexMatch(s)
    case Some(g) => Strip(g)
    case None => s
  }

  /**
   * RegexMatch is the pattern's backtracking semantics: it succeeds exactly
   * when some parse exists, and then returns the group of the preferred parse.
   */
  lemma RegexMatchSemantics(s: string)
    ensures RegexMatch(s).Some? <==> exists p, e :: Parses(s, p, e)
    ensures RegexMatch(s).Some? ==> exists p, e :: Preferred(s, p, e) && RegexMatch(s).value == s[p + 8..e]
  {
    var e := LineEnd(s);
    assert forall p, e' :: Parses(s, p, e') ==> e' <= e;
    match LastMarker(s, e)
    case None =>
    case Some(p) =>
      assert Parses(s, p, e);
      assert Preferred(s, p, e);
  }

  /**
   * When `p` is the last marker of the first line, the result is the text
   * after it up to the end of the line, stripped.
   */
  lemma NormalizeAtLastMarker(s: string, p: nat)
    requires p + 8 <= LineEnd(s) && MarkerAt(s, p)
    requires forall q :: p < q && q + 8 <= LineEnd(s) ==> !MarkerAt(s, q)
    ensures NormalizeDoi(s) == Strip(s[p + 8..LineEnd(s)])
  {
    var m := LastMarker(s, LineEnd(s));
    assert m.Some? && m.value == p;
    assert RegexMatch(s) == Some(s[p + 8..LineEnd(s)]);
  }

  /** When the first line holds no marker, the input comes back untouched (not even stripped). */
  lemma NormalizeWithoutMarker(s: string)
    requires forall p :: p + 8 <= LineEnd(s) ==> !MarkerAt(s, p)
    ensures NormalizeDoi(s) == s
  {
    assert LastMarker(s, LineEnd(s)).None?;
    assert RegexMatch(s) == None;
  }

  /** A marker inside a slice of `s` is a marker of `s`, shifted by the slice's start. */
  lemma MarkerShift(s: string, o: nat, r: string, q: int)
    requires o + |r| <= |s| && forall t :: 0 <= t < |r| ==> r[t] == s[o + t]
    requires MarkerAt(r, q)
    ensures MarkerAt(s, o + q)
  {
  }

  /** A slice lying after the last marker before `n` holds no marker either. */
  lemma NoMarkerAfterLast(s: string, p: int, n: nat, o: nat, r: string)
    requires n <= |s| && p < o && o + |r| <= n
    requires forall q :: p < q && q + 8 <= n ==> !MarkerAt(s, q)
    requires forall t :: 0 <= t < |r| ==> r[t] == s[o + t]
    ensures forall q :: q + 8 <= |r| ==> !MarkerAt(r, q)
  {
    forall q | q + 8 <= |r| ensures !MarkerAt(r, q) {
      if MarkerAt(r, q) {
        MarkerShift(s, o, r, q);
      }
    }
  }

  /** The stripped rest of the line is the slice of `s` starting at `o`, on one line. */
  lemma StrippedRest(s: string, p: nat, e: nat)
    requires p + 8 <= e <= |s| && NoNewline(s[..e])
    ensures var r := Strip(s[p + 8..e]);
      var o := p + 8 + StripBounds(s[p + 8..e]).0;
      && o + |r| <= e
      && (forall t :: 0 <= t < |r| ==> r[t] == s[o + t])
      && NoNewline(r)
  {
    var g := s[p + 8..e];
    var b := StripBounds(g);
    assert g == s[..e][p + 8..];
    NoNewlineSlice(s[..e], p + 8, e);
    NoNewlineSlice(g, b.0, b.1);
    assert forall t :: 0 <= t < b.1 - b.0 ==> g[b.0..b.1][t] == s[p + 8 + b.0 + t];
  }

  /** A slice of a line holds no newline either. */
  lemma NoNewlineSlice(u: string, i: nat, j: nat)
    requires i <= j <= |u| && NoNewline(u)
    ensures NoNewline(u[i..j])
  {
    assert forall t :: 0 <= t < j - i ==> u[i..j][t] == u[i + t];
  }

  /** That stripped rest holds neither a newline nor a marker, so it is normal already. */
  lemma {:induction false} MatchedRestIsNormal(s: string, p: nat)
    requires LastMarker(s, LineEnd(s)) == Some(p)
    ensures NormalizeDoi(Strip(s[p + 8..LineEnd(s)])) == Strip(s[p + 8..LineEnd(s)])
  {
    var e := LineEnd(s);
    StrippedRest(s, p, e);
    LaterSliceUnchanged(s, p, e, p + 8 + StripBounds(s[p + 8..e]).0, Strip(s[p + 8..e]));
  }

  /** A one-line slice after the last marker before `n` is returned unchanged. */
  lemma LaterSliceUnchanged(s: string, p: int, n: nat, o: nat, r: string)
    requires n <= |s| && p < o && o + |r| <= n
    requires forall q :: p < q && q + 8 <= n ==> !MarkerAt(s, q)
    requires forall t :: 0 <= t < |r| ==> r[t] == s[o + t]
    requires NoNewline(r)
    ensures NormalizeDoi(r) == r
  {
    NoMarkerAfterLast(s, p, n, o, r);
    UnmatchedUnchanged(r);
  }

  /** A one-line string without a marker is returned unchanged. */
  lemma UnmatchedUnchanged(r: string)
    requires NoNewline(r)
    requires forall q :: q + 8 <= |r| ==> !MarkerAt(r, q)
    ensures NormalizeDoi(r) == r
  {
    assert LineEnd(r) == |r|;
    assert LastMarker(r, |r|).None?;
    assert RegexMatch(r) == None;
  }

  /** On a match, normalising the result changes nothing. */
  lemma IdempotentMatched(s: string, p: nat)
    requires LastMarker(s, LineEnd(s)) == Some(p)
    ensures NormalizeDoi(NormalizeDoi(s)) == NormalizeDoi(s)
  {
    NormalizeAtLastMarker(s, p);
    MatchedRestIsNormal(s, p);
  }

  /** Normalising is idempotent: the stripped remainder holds no marker of its own. */
  lemma NormalizeDoiIdempotent(s: string)
    ensures NormalizeDoi(NormalizeDoi(s)) == NormalizeDoi(s)
  {
    var m := LastMarker(s, LineEnd(s));
    if m.Some? {
      IdempotentMatched(s, m.value);
    } else {
      NormalizeWithoutMarker(s);
    }
  }

  /** A bare DOI: one line, no marker, no surrounding whitespace. */
  predicate BareDoi(d: string)
  {
    && NoNewline(d)
    && (forall q :: 0 <= q < |d| ==> !MarkerAt(d, q))
    && (d == [] || (!IsSpace(d[0]) && !IsSpace(d[|d| - 1])))
  }

  /** A bare DOI is already normal. */
  lemma NormalizeBare(d: string)
    requires BareDoi(d)
    ensures NormalizeDoi(d) == d
  {
    UnmatchedUnchanged(d);
  }

  /** Stripping a string that is not padded returns it unchanged. */
  lemma StripUnpadded(d: string)
    requires d == [] || (!IsSpace(d[0]) && !IsSpace(d[|d| - 1]))
    ensures Strip(d) == d
  {
    var (i, j) := StripBounds(d);
    if d != [] {
      assert d[..i] == [] ==> i == 0;
      assert d[j..] == [] ==> j == |d|;
    }
  }

  /** The resolver URL form: `https://doi.org/` followed by a bare DOI normalises to the DOI. */
  lemma {:induction false} NormalizeResolverUrl(d: string)
    requires BareDoi(d)
    ensures NormalizeDoi("https://doi.org/" + d) == d
  {
    var pre := "https://doi.org/";
    var s := pre + d;
    assert |pre| == 16;
    assert forall t :: 0 <= t < 16 ==> s[t] == pre[t];
    assert forall t :: 0 <= t < |d| ==> s[16 + t] == d[t];
    assert NoNewline(s);
    assert LineEnd(s) == |s|;
    assert MarkerAt(s, 8);
    forall q | 8 < q && q + 8 <= |s| ensures !MarkerAt(s, q) {
      if q >= 16 {
        if MarkerAt(s, q) {
          assert MarkerAt(d, q - 16);
        }
      } else {
        assert s[q] == pre[q] != 'd';
      }
    }
    var m := LastMarker(s, |s|);
    assert m == Some(8);
    assert s[16..|s|] == d;
    assert RegexMatch(s) == Some(d);
    StripUnpadded(d);
  }

  /** The documented example: the resolver URL of `10.1/abc` and the bare DOI both give `10.1/abc`. */
  lemma NormalizeExample(d: string)
    requires d == "10.1/abc"
    ensures NormalizeDoi("https://doi.org/" + d) == d
    ensures NormalizeDoi(d) == d
  {
    assert d[0] == '1';
    assert forall q :: 0 <= q < |d| && MarkerAt(d, q) ==> q == 0;
    assert BareDoi(d);
    NormalizeResolverUrl(d);
    NormalizeBare(d);
  }
}
