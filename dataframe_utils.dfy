/** The table utilities of `utils/dataframe_utils.py`: its own shape
    dispatch, and the domain overview that finds a domain among the stored
    company bundles and gathers its score and findings.  Its
    `CATEGORY_NAMES` and `extract_number` are the same code as in
    `helpers.py` and are modelled once, in `Helpers`. */
module DataframeUtils {
  import opened Text
  import opened JsonValue
  import opened Helpers

  // --------------------------------------------------------------------- to_df

  /** `to_df(data)` of this module: a dict is one row, a scalar or `None`
      no table at all. */
  function ToDfRows(data: Json): (f: Frame)
    ensures data.JObj? ==> f == RecordRows([data])
    ensures !data.JObj? && !data.JArr? ==> f == EmptyFrame
  {
    match data
    case JObj(_) => RecordRows([data])
    case JArr(items) =>
      if items == [] then EmptyFrame
      else if items[0].JObj? then RecordRows(items)
      else ValueColumn("value", items)
    case _ => EmptyFrame
  }

  /** The two `to_df`s agree on lists of dicts and on empty input, name the
      value column differently, and part ways on dicts and scalars. */
  lemma ToDfVariants(data: Json)
    ensures data.JArr? && data.items != [] && data.items[0].JObj? ==> ToDfRows(data) == ToDf(data)
    ensures data.JArr? && data.items != [] && !data.items[0].JObj? ==>
      ToDfRows(data) == ValueColumn("value", data.items) && ToDf(data) == ValueColumn("Value", data.items)
    ensures data.JObj? && data.fields != [] ==> Height(ToDfRows(data)) == 1 && ToDf(data) == Flattened(data.fields)
    ensures !data.JObj? && !data.JArr? && !data.JNull? ==>
      Height(ToDfRows(data)) == 0 && Height(ToDf(data)) == 1
  {
  }

  // ------------------------------------------------------------------- numbers

  function Sum(xs: seq<real>): real
  {
    if xs == [] then 0.0 else Sum(xs[..|xs| - 1]) + xs[|xs| - 1]
  }

  /** `sum(xs) / len(xs)`. */
  function Mean(xs: seq<real>): real
    requires xs != []
  {
    Sum(xs) / (|xs| as real)
  }

  lemma {:induction false} SumBounds(xs: seq<real>, lo: real, hi: real)
    requires forall i :: 0 <= i < |xs| ==> lo <= xs[i] <= hi
    ensures (|xs| as real) * lo <= Sum(xs) <= (|xs| as real) * hi
  {
    if xs != [] {
      var init := xs[..|xs| - 1];
      assert forall i :: 0 <= i < |init| ==> init[i] == xs[i];
      SumBounds(init, lo, hi);
      var m := |init| as real;
      var x := xs[|xs| - 1];
      assert Sum(xs) == Sum(init) + x;
      assert lo <= x <= hi;
      assert (|xs| as real) == m + 1.0;
      assert (|xs| as real) * lo == m * lo + lo by {
        assert (m + 1.0) * lo == m * lo + lo;
      }
      assert (|xs| as real) * hi == m * hi + hi by {
        assert (m + 1.0) * hi == m * hi + hi;
      }
    }
  }

  /** A mean lies between any lower and upper bound of its values. */
  lemma MeanBounds(xs: seq<real>, lo: real, hi: real)
    requires xs != []
    requires forall i :: 0 <= i < |xs| ==> lo <= xs[i] <= hi
    ensures lo <= Mean(xs) <= hi
  {
    SumBounds(xs, lo, hi);
    var n := |xs| as real;
    assert Mean(xs) * n == Sum(xs);
  }

  // ----------------------------------------------------------- domain_overview

  /** The keys tried for one finding's score, in order. */
  const FindingScoreKeys: seq<string> := ["Finding Score", "finding_score", "score"]

  /** The outcome of a search that can raise on a malformed shape. */
  datatype Search = Raised | NotFound | Found(d: Json)

  /** `str(did) == str(domain_id)` for a domain dict. */
  predicate DomainMatches(d: Json, domainId: Json)
  {
    Str(OrKeys(d, DomainIdKeys)) == Str(domainId)
  }

  /** The inner loop: the first matching domain of one bundle; a non-dict
      entry reached before a match makes `d.get` raise. */
  function FindInDomains(ds: seq<Json>, domainId: Json): (r: Search)
    ensures r.Found? ==> r.d in ds && r.d.JObj? && DomainMatches(r.d, domainId)
    ensures r.NotFound? ==> forall i :: 0 <= i < |ds| ==> ds[i].JObj? && !DomainMatches(ds[i], domainId)
  {
    if ds == [] then NotFound
    else if !ds[0].JObj? then Raised
    else if DomainMatches(ds[0], domainId) then Found(ds[0])
    else
      var r := FindInDomains(ds[1..], domainId);
      assert forall i :: 1 <= i < |ds| ==> ds[i] == ds[1..][i - 1];
      r
  }

  /** The search of one bundle: a bundle that is not a dict, or whose
      domains cannot be iterated, raises. */
  function BundleSearch(b: Json, domainId: Json): Search
  {
    if !b.JObj? then Raised
    else match Iterate(At(b, "domains"))
      case None => Raised
      case Some(ds) => FindInDomains(ds, domainId)
  }

  /** The outer loop over the bundles, in order. */
  function FindDomain(bundles: seq<Json>, domainId: Json): Search
  {
    if bundles == [] then NotFound
    else match BundleSearch(bundles[0], domainId)
      case NotFound => FindDomain(bundles[1..], domainId)
      case r => r
  }

  /** The copies of the dict rows of one category, without `"Category"`;
      `None` when the rows cannot be iterated. */
  function RowCopies(rows: seq<Json>): (r: seq<Json>)
    ensures |r| <= |rows|
    ensures forall i :: 0 <= i < |r| ==> r[i].JObj? && "Category" !in Keys(r[i].fields)
  {
    if rows == [] then []
    else
      var init := RowCopies(rows[..|rows| - 1]);
      var last := rows[|rows| - 1];
      if last.JObj? then init + [JObj(Remove(last.fields, "Category"))] else init
  }

  /** The findings of all categories of `findings_by_category`, in order. */
  function FindingsOf(fbc: seq<(string, Json)>): (r: Option<seq<Json>>)
    ensures r.Some? ==> forall i :: 0 <= i < |r.value| ==> r.value[i].JObj? && "Category" !in Keys(r.value[i].fields)
  {
    if fbc == [] then Some([])
    else match FindingsOf(fbc[..|fbc| - 1])
      case None => None
      case Some(init) =>
        match Iterate(fbc[|fbc| - 1].1)
        case None => None
        case Some(rows) => Some(init + RowCopies(rows))
  }

  /** Copying keeps the order of the rows: it distributes over
      concatenation. */
  lemma {:induction false} RowCopiesAppend(a: seq<Json>, b: seq<Json>)
    ensures RowCopies(a + b) == RowCopies(a) + RowCopies(b)
    decreases |b|
  {
    if b != [] {
      var n := |b| - 1;
      assert (a + b)[..|a + b| - 1] == a + b[..n];
      assert (a + b)[|a + b| - 1] == b[n];
      RowCopiesAppend(a, b[..n]);
      if b[n].JObj? {
        AppendAssoc(RowCopies(a), RowCopies(b[..n]), [JObj(Remove(b[n].fields, "Category"))]);
      }
    } else {
      assert a + b == a;
    }
  }

  /** One row: a dict is copied without `"Category"`; any other value is
      skipped. */
  lemma RowCopiesOne(x: Json)
    ensures RowCopies([x]) == if x.JObj? then [JObj(Remove(x.fields, "Category"))] else []
  {
    assert [x][..0] == [];
  }

  /** A value is among the copies exactly when it is the copy of some dict
      row. */
  lemma {:induction false} RowCopiesMembers(rows: seq<Json>, y: Json)
    ensures y in RowCopies(rows) <==>
      exists i :: 0 <= i < |rows| && rows[i].JObj? && y == JObj(Remove(rows[i].fields, "Category"))
  {
    if rows != [] {
      var n := |rows| - 1;
      RowCopiesMembers(rows[..n], y);
      assert forall i :: 0 <= i < n ==> rows[..n][i] == rows[i];
    }
  }

  /** The findings are collected exactly when every category value can be
      iterated. */
  lemma {:induction false} FindingsOfSome(fbc: seq<(string, Json)>)
    ensures FindingsOf(fbc).Some? <==> forall i :: 0 <= i < |fbc| ==> Iterate(fbc[i].1).Some?
  {
    if fbc != [] {
      var n := |fbc| - 1;
      FindingsOfSome(fbc[..n]);
      assert forall i :: 0 <= i < n ==> fbc[..n][i] == fbc[i];
    }
  }

  /** The findings of two runs of categories are those of the first, then
      those of the second. */
  lemma {:induction false} FindingsOfAppend(a: seq<(string, Json)>, b: seq<(string, Json)>)
    ensures FindingsOf(a + b) ==
      if FindingsOf(a).Some? && FindingsOf(b).Some? then Some(FindingsOf(a).value + FindingsOf(b).value) else None
    decreases |b|
  {
    if b == [] {
      assert a + b == a;
      if FindingsOf(a).Some? {
        assert FindingsOf(a).value + [] == FindingsOf(a).value;
      }
    } else {
      var n := |b| - 1;
      assert (a + b)[..|a + b| - 1] == a + b[..n];
      assert (a + b)[|a + b| - 1] == b[n];
      FindingsOfAppend(a, b[..n]);
      if FindingsOf(a).Some? && FindingsOf(b[..n]).Some? && Iterate(b[n].1).Some? {
        AppendAssoc(FindingsOf(a).value, FindingsOf(b[..n]).value, RowCopies(Iterate(b[n].1).value));
      }
    }
  }

  /** One category: the copies of its rows, or nothing collected when its
      value cannot be iterated. */
  lemma FindingsOfOne(p: (string, Json))
    ensures FindingsOf([p]) == match Iterate(p.1) case None => None case Some(rows) => Some(RowCopies(rows))
  {
    assert [p][..0] == [];
    if Iterate(p.1).Some? {
      assert [] + RowCopies(Iterate(p.1).value) == RowCopies(Iterate(p.1).value);
    }
  }

  /** The first score of each finding that has one. */
  function FindingScores(findings: seq<Json>): seq<real>
  {
    if findings == [] then []
    else
      var init := FindingScores(findings[..|findings| - 1]);
      match FirstFloat(findings[|findings| - 1], FindingScoreKeys)
      case Some(x) => init + [x]
      case None => init
  }

  datatype Overview = Overview(score: Option<real>, findings: seq<Json>)

  /** The overview of a found domain, or `None` when a shape makes the code
      raise. */
  function OverviewOf(d: Json): Option<Overview>
  {
    var fbc := Or(At(d, "findings_by_category"), JObj([]));
    if !fbc.JObj? then None
    else match FindingsOf(fbc.fields)
      case None => None
      case Some(findings) =>
        var stored := ToFloat(At(d, "domain_score"));
        var vals := FindingScores(findings);
        var score := if stored.None? && findings != [] && vals != [] then Some(Mean(vals)) else stored;
        Some(Overview(score, findings))
  }

  /** `domain_overview(domain_id)` over the loaded bundles. */
  function DomainOverviewOf(bundles: seq<Json>, domainId: Json): Option<Overview>
  {
    match FindDomain(bundles, domainId)
    case Raised => None
    case NotFound => Some(Overview(None, []))
    case Found(d) => OverviewOf(d)
  }

  // The loops of `domain_overview`, each proved against the definitions
  // above.

  method SearchDomains(ds: seq<Json>, domainId: Json) returns (r: Search)
    ensures r == FindInDomains(ds, domainId)
  {
    var i := 0;
    while i < |ds|
      invariant i <= |ds|
      invariant FindInDomains(ds, domainId) == FindInDomains(ds[i..], domainId)
    {
      FindInDomainsStep(ds, domainId, i);
      var d := ds[i];
      if !d.JObj? {
        return Raised;
      }
      if DomainMatches(d, domainId) {
        return Found(d);
      }
      i := i + 1;
    }
    return NotFound;
  }

  /** The inner search from domain `i` on, one domain at a time. */
  lemma FindInDomainsStep(ds: seq<Json>, domainId: Json, i: nat)
    requires i < |ds|
    ensures FindInDomains(ds[i..], domainId) ==
      if !ds[i].JObj? then Raised
      else if DomainMatches(ds[i], domainId) then Found(ds[i])
      else FindInDomains(ds[i + 1..], domainId)
  {
    assert ds[i..][0] == ds[i];
    assert ds[i..][1..] == ds[i + 1..];
  }

  /** One bundle of `domain_overview`'s outer loop. */
  method SearchBundle(b: Json, domainId: Json) returns (r: Search)
    ensures r == BundleSearch(b, domainId)
  {
    if !b.JObj? {
      return Raised;
    }
    var ds := Iterate(At(b, "domains"));
    if ds.None? {
      return Raised;
    }
    r := SearchDomains(ds.value, domainId);
  }

  /** The outer search from bundle `i` on, one bundle at a time. */
  lemma FindDomainStep(bundles: seq<Json>, domainId: Json, i: nat)
    requires i < |bundles|
    ensures FindDomain(bundles[i..], domainId) ==
      match BundleSearch(bundles[i], domainId)
      case NotFound => FindDomain(bundles[i + 1..], domainId)
      case r => r
  {
    assert bundles[i..][0] == bundles[i];
    assert bundles[i..][1..] == bundles[i + 1..];
  }

  method CollectFindings(fbc: seq<(string, Json)>) returns (r: Option<seq<Json>>)
    ensures r == FindingsOf(fbc)
  {
    var findings: seq<Json> := [];
    var j := 0;
    while j < |fbc|
      invariant j <= |fbc|
      invariant FindingsOf(fbc[..j]) == Some(findings)
    {
      assert fbc[..j + 1][..j] == fbc[..j];
      var rows := Iterate(fbc[j].1);
      if rows.None? {
        FindingsOfRaised(fbc, j + 1);
        return None;
      }
      var copies := CopyRows(rows.value);
      findings := findings + copies;
      j := j + 1;
    }
    assert fbc[..j] == fbc;
    r := Some(findings);
  }

  /** Once a prefix raises, the whole pass raises. */
  lemma {:induction false} FindingsOfRaised(fbc: seq<(string, Json)>, n: nat)
    requires n <= |fbc| && FindingsOf(fbc[..n]).None?
    ensures FindingsOf(fbc).None?
    decreases |fbc| - n
  {
    if n < |fbc| {
      assert fbc[..n + 1][..n] == fbc[..n];
      FindingsOfRaised(fbc, n + 1);
    } else {
      assert fbc[..n] == fbc;
    }
  }

  /** The loop copying the dict rows of one category. */
  method CopyRows(rows: seq<Json>) returns (copies: seq<Json>)
    ensures copies == RowCopies(rows)
  {
    copies := [];
    var k := 0;
    while k < |rows|
      invariant k <= |rows|
      invariant copies == RowCopies(rows[..k])
    {
      assert rows[..k + 1][..k] == rows[..k];
      if rows[k].JObj? {
        copies := copies + [JObj(Remove(rows[k].fields, "Category"))];
      }
      k := k + 1;
    }
    assert rows[..k] == rows;
  }

  method CollectScores(findings: seq<Json>) returns (vals: seq<real>)
    ensures vals == FindingScores(findings)
  {
    vals := [];
    var i := 0;
    while i < |findings|
      invariant i <= |findings|
      invariant vals == FindingScores(findings[..i])
    {
      assert findings[..i + 1][..i] == findings[..i];
      var x := FirstScore(findings[i]);
      if x.Some? {
        vals := vals + [x.value];
      }
      i := i + 1;
    }
    assert findings[..i] == findings;
  }

  /** The key loop with `break` for one finding. */
  method FirstScore(r: Json) returns (x: Option<real>)
    ensures x == FirstFloat(r, FindingScoreKeys)
  {
    var k := 0;
    while k < |FindingScoreKeys|
      invariant k <= |FindingScoreKeys|
      invariant FirstFloat(r, FindingScoreKeys) == FirstFloat(r, FindingScoreKeys[k..])
    {
      var v := At(r, FindingScoreKeys[k]);
      if !v.JNull? {
        var f := ToFloat(v);
        if f.Some? {
          return f;
        }
      }
      assert FindingScoreKeys[k..][1..] == FindingScoreKeys[k + 1..];
      k := k + 1;
    }
    return None;
  }

  method DomainOverview(bundles: seq<Json>, domainId: Json) returns (r: Option<Overview>)
    ensures r == DomainOverviewOf(bundles, domainId)
  {
    var i := 0;
    while i < |bundles|
      invariant i <= |bundles|
      invariant FindDomain(bundles, domainId) == FindDomain(bundles[i..], domainId)
    {
      FindDomainStep(bundles, domainId, i);
      var found := SearchBundle(bundles[i], domainId);
      if found.Raised? {
        return None;
      }
      if found.Found? {
        r := OverviewOfDomain(found.d);
        return;
      }
      i := i + 1;
    }
    assert bundles[i..] == [];
    return Some(Overview(None, []));
  }

  /** The body run on the matching domain. */
  method OverviewOfDomain(d: Json) returns (r: Option<Overview>)
    ensures r == OverviewOf(d)
  {
    var fbc := Or(At(d, "findings_by_category"), JObj([]));
    if !fbc.JObj? {
      return None;
    }
    var score := ToFloat(At(d, "domain_score"));
    var findings := CollectFindings(fbc.fields);
    if findings.None? {
      return None;
    }
    if score.None? && findings.value != [] {
      var vals := CollectScores(findings.value);
      if vals != [] {
        score := Some(Mean(vals));
      }
    }
    r := Some(Overview(score, findings.value));
  }

  // ---------------------------------------------------------------- properties

  /** No matching domain in well-formed bundles gives `(None, [])`. */
  lemma OverviewNotFound(bundles: seq<Json>, domainId: Json)
    requires FindDomain(bundles, domainId).NotFound?
    ensures DomainOverviewOf(bundles, domainId) == Some(Overview(None, []))
  {
  }

  /** Bundle `b` is a dict whose domains hold no match. */
  predicate Misses(b: Json, domainId: Json)
  {
    b.JObj? && Iterate(At(b, "domains")).Some? && FindInDomains(Iterate(At(b, "domains")).value, domainId).NotFound?
  }

  /** The first domain, bundle by bundle, whose id text matches is used:
      bundles before it must miss, and within its bundle it is the first
      match (`FindInDomainsFirst`). */
  lemma {:induction false} FindDomainFirst(bundles: seq<Json>, domainId: Json, i: nat, d: Json)
    requires i < |bundles| && forall k :: 0 <= k < i ==> Misses(bundles[k], domainId)
    requires bundles[i].JObj? && Iterate(At(bundles[i], "domains")).Some?
    requires FindInDomains(Iterate(At(bundles[i], "domains")).value, domainId) == Found(d)
    ensures FindDomain(bundles, domainId) == Found(d)
    decreases i
  {
    if i > 0 {
      var rest := bundles[1..];
      FindDomainSkip(bundles, domainId);
      forall k | 0 <= k < i - 1 ensures Misses(rest[k], domainId) {
        assert rest[k] == bundles[k + 1];
      }
      assert rest[i - 1] == bundles[i];
      FindDomainFirst(rest, domainId, i - 1, d);
    } else {
      FindDomainHit(bundles, domainId, d);
    }
  }

  lemma FindDomainSkip(bundles: seq<Json>, domainId: Json)
    requires bundles != [] && Misses(bundles[0], domainId)
    ensures FindDomain(bundles, domainId) == FindDomain(bundles[1..], domainId)
  {
  }

  lemma FindDomainHit(bundles: seq<Json>, domainId: Json, d: Json)
    requires bundles != [] && bundles[0].JObj? && Iterate(At(bundles[0], "domains")).Some?
    requires FindInDomains(Iterate(At(bundles[0], "domains")).value, domainId) == Found(d)
    ensures FindDomain(bundles, domainId) == Found(d)
  {
  }

  /** The first match of a bundle's domains is the one used. */
  lemma FindInDomainsFirst(ds: seq<Json>, domainId: Json, j: nat)
    requires j < |ds| && MissesUpTo(ds, domainId, j)
    requires ds[j].JObj? && DomainMatches(ds[j], domainId)
    ensures FindInDomains(ds, domainId) == Found(ds[j])
  {
    FindInDomainsFrom(ds, domainId, 0, j);
    assert ds[0..] == ds;
  }

  /** The search started at domain `i`, at or before the first match `j`,
      finds `j`. */
  lemma {:induction false} FindInDomainsFrom(ds: seq<Json>, domainId: Json, i: nat, j: nat)
    requires i <= j < |ds| && MissesUpTo(ds, domainId, j)
    requires ds[j].JObj? && DomainMatches(ds[j], domainId)
    ensures FindInDomains(ds[i..], domainId) == Found(ds[j])
    decreases j - i
  {
    FindInDomainsStep(ds, domainId, i);
    if i < j {
      assert ds[i].JObj? && !DomainMatches(ds[i], domainId);
      FindInDomainsFrom(ds, domainId, i + 1, j);
    }
  }

  /** The first `j` domains are dicts that do not match. */
  predicate MissesUpTo(ds: seq<Json>, domainId: Json, j: nat)
    requires j <= |ds|
  {
    forall k :: 0 <= k < j ==> ds[k].JObj? && !DomainMatches(ds[k], domainId)
  }

  /** A stored score that converts is returned as is; otherwise a domain
      with scored findings gets a score between their lowest and highest. */
  lemma OverviewScore(d: Json, lo: real, hi: real)
    requires OverviewOf(d).Some?
    ensures ToFloat(At(d, "domain_score")).Some? ==> OverviewOf(d).value.score == ToFloat(At(d, "domain_score"))
    ensures var o := OverviewOf(d).value;
      var vals := FindingScores(o.findings);
      ToFloat(At(d, "domain_score")).None? && vals != [] && (forall i :: 0 <= i < |vals| ==> lo <= vals[i] <= hi) ==>
        o.score.Some? && lo <= o.score.value <= hi
  {
    var o := OverviewOf(d).value;
    var vals := FindingScores(o.findings);
    if ToFloat(At(d, "domain_score")).None? && vals != [] && (forall i :: 0 <= i < |vals| ==> lo <= vals[i] <= hi) {
      assert |vals| > 0 ==> o.findings != [] by { FindingScoresShorter(o.findings); }
      MeanBounds(vals, lo, hi);
    }
  }

  lemma {:induction false} FindingScoresShorter(findings: seq<Json>)
    ensures |FindingScores(findings)| <= |findings|
  {
    if findings != [] {
      FindingScoresShorter(findings[..|findings| - 1]);
    }
  }
}
