/** The internal CSF chart layer: the normalised external finding mapping,
    the canonical order of findings, and the table of rated controls per
    external finding that `build_csf_controls_table_df` returns. */
module InternalCsfCharts {
  import opened Text
  import opened JsonValue
  import opened Normalization
  import opened ChartsHelpers
  import opened Helpers
  import opened NistMappings
  import opened CsfScan
  import Services

  /** `EXTERNAL_FINDINGS_TO_CONTROLS_NORM`. */
  function ExternalFindingsToControlsNorm(): seq<(string, seq<string>)>
  {
    NormMapping(ExternalFindingsToControls)
  }

  /** Looking a finding up in the normalised mapping finds the same key with
      its controls normalised. */
  lemma {:induction false} NormMappingGet(m: seq<(string, seq<string>)>, f: string)
    ensures Get(NormMapping(m), f) == (match Get(m, f) case None => None case Some(cs) => Some(NormAll(cs)))
  {
    if m != [] {
      var nm := NormMapping(m);
      assert nm[0] == (m[0].0, NormAll(m[0].1));
      assert nm[1..] == NormMapping(m[1..]);
      NormMappingGet(m[1..], f);
      if m[0].0 != f {
        assert Get(nm, f) == Get(nm[1..], f);
        assert Get(m, f) == Get(m[1..], f);
      }
    }
  }

  /** The external mapping lists its controls in normal form already, so
      normalising it changes nothing. */
  lemma ExternalNormUnchanged()
    ensures ExternalFindingsToControlsNorm() == ExternalFindingsToControls
  {
    ExternalPairFacts();
    forall i, j | 0 <= i < |ExternalControlPairs| && 0 <= j < |ExternalControlPairs[i].1|
      ensures NormRef(ExternalFindingsToControls[i].1[j]) == ExternalFindingsToControls[i].1[j]
    {
      ControlCanonical(ExternalControlPairs[i].1[j].0, ExternalControlPairs[i].1[j].1);
    }
    forall i | 0 <= i < |ExternalFindingsToControls|
      ensures NormAll(ExternalFindingsToControls[i].1) == ExternalFindingsToControls[i].1
    {
    }
  }

  // ----------------------------------------------------- _ordered_findings

  /** `[c for c in canon if c in set(api)]`. */
  function Wanted(canon: seq<string>, api: seq<string>): (r: seq<string>)
    ensures forall x :: x in r <==> x in canon && x in api
  {
    if canon == [] then []
    else
      assert forall x :: x in canon <==> x == canon[0] || x in canon[1..];
      (if canon[0] in api then [canon[0]] else []) + Wanted(canon[1..], api)
  }

  /** Position of the first occurrence of `x` in `s`, `|s|` when absent. */
  function IndexOf(s: seq<string>, x: string): (i: nat)
    ensures i <= |s|
    ensures i < |s| <==> x in s
    ensures i < |s| ==> s[i] == x
  {
    if s == [] then 0 else if s[0] == x then 0 else 1 + IndexOf(s[1..], x)
  }

  /** `r` lists names of `canon` in the order of their first positions
      there, without repeating one. */
  predicate FollowsOrder(canon: seq<string>, r: seq<string>)
  {
    forall i, j :: 0 <= i < j < |r| ==> IndexOf(canon, r[i]) < IndexOf(canon, r[j])
  }

  /** Past a distinct head, positions in `canon` are one more than in its
      tail. */
  lemma TailShift(canon: seq<string>, xs: seq<string>)
    requires canon != [] && forall i, j :: 0 <= i < j < |canon| ==> canon[i] != canon[j]
    requires forall x :: x in xs ==> x in canon[1..]
    ensures forall x :: x in xs ==> IndexOf(canon, x) == 1 + IndexOf(canon[1..], x)
  {
    forall x | x in xs ensures IndexOf(canon, x) == 1 + IndexOf(canon[1..], x) {
      var p :| 0 <= p < |canon| - 1 && canon[1..][p] == x;
      assert canon[p + 1] == x;
    }
  }

  /** A list in the tail's order stays in order, in `canon`, with or
      without the head in front. */
  lemma ConsOrdered(canon: seq<string>, rest: seq<string>)
    requires canon != [] && FollowsOrder(canon[1..], rest)
    requires forall x :: x in rest ==> IndexOf(canon, x) == 1 + IndexOf(canon[1..], x)
    ensures FollowsOrder(canon, rest) && FollowsOrder(canon, [canon[0]] + rest)
  {
    ShiftOrdered(canon, rest);
    ConsHead(canon, rest);
  }

  /** The head of `canon` goes before names found after it. */
  lemma ConsHead(canon: seq<string>, rest: seq<string>)
    requires canon != [] && FollowsOrder(canon, rest)
    requires forall x :: x in rest ==> IndexOf(canon, x) >= 1
    ensures FollowsOrder(canon, [canon[0]] + rest)
  {
    var r := [canon[0]] + rest;
    assert IndexOf(canon, canon[0]) == 0;
    forall i, j | 0 <= i < j < |r| ensures IndexOf(canon, r[i]) < IndexOf(canon, r[j]) {
      assert r[j] == rest[j - 1];
      assert rest[j - 1] in rest;
      if 0 < i {
        assert r[i] == rest[i - 1];
        assert IndexOf(canon, rest[i - 1]) < IndexOf(canon, rest[j - 1]);
      }
    }
  }

  /** Positions shifted by one keep their order. */
  lemma ShiftOrdered(canon: seq<string>, rest: seq<string>)
    requires canon != [] && FollowsOrder(canon[1..], rest)
    requires forall x :: x in rest ==> IndexOf(canon, x) == 1 + IndexOf(canon[1..], x)
    ensures FollowsOrder(canon, rest)
  {
    forall i, j | 0 <= i < j < |rest| ensures IndexOf(canon, rest[i]) < IndexOf(canon, rest[j]) {
      assert rest[i] in rest && rest[j] in rest;
    }
  }

  /** The wanted findings keep the order of `canon` and repeat none. */
  lemma {:induction false} WantedOrdered(canon: seq<string>, api: seq<string>)
    requires forall i, j :: 0 <= i < j < |canon| ==> canon[i] != canon[j]
    ensures FollowsOrder(canon, Wanted(canon, api))
  {
    if canon != [] {
      var tail := canon[1..];
      var rest := Wanted(tail, api);
      var r := Wanted(canon, api);
      assert forall i, j :: 0 <= i < j < |tail| ==> tail[i] == canon[i + 1] && tail[j] == canon[j + 1];
      WantedOrdered(tail, api);
      TailShift(canon, rest);
      ConsOrdered(canon, rest);
      if canon[0] in api {
        assert r == [canon[0]] + rest;
      } else {
        assert r == rest;
      }
    }
  }

  /** `_ordered_findings` over the preferred order `canon`: the names of
      `canon` present in `api`, in canonical order, when there are any;
      otherwise `api` unchanged. */
  function Ordered(canon: seq<string>, api: seq<string>): (r: seq<string>)
    ensures (exists x :: x in canon && x in api) ==> forall x :: x in r <==> x in canon && x in api
    ensures (forall x :: x in canon ==> x !in api) ==> r == api
  {
    var wanted := Wanted(canon, api);
    if canon != [] && wanted != [] then
      assert wanted[0] in wanted;
      wanted
    else api
  }

  /** When some canonical name is present, the result follows the canonical
      order without repetition. */
  lemma OrderedCanonical(canon: seq<string>, api: seq<string>)
    requires forall i, j :: 0 <= i < j < |canon| ==> canon[i] != canon[j]
    requires exists x :: x in canon && x in api
    ensures FollowsOrder(canon, Ordered(canon, api))
  {
    var x :| x in canon && x in api;
    assert x in Wanted(canon, api);
    WantedOrdered(canon, api);
  }

  /** `_ordered_findings(api)`, whose preferred order is the category names. */
  function OrderedFindings(api: seq<string>): seq<string>
  {
    Ordered(CategoryNames, api)
  }

  /** The findings come out in the order of the category names whenever one
      of them is present. */
  lemma OrderedFindingsCanonical(api: seq<string>)
    requires exists x :: x in CategoryNames && x in api
    ensures FollowsOrder(CategoryNames, OrderedFindings(api))
  {
    CategoryNamesDistinct();
    OrderedCanonical(CategoryNames, api);
  }

  /** The findings of the external mapping are exactly the six category
      names, in their order. */
  lemma ExternalKeysAreCategoryNames()
    ensures Keys(ExternalFindingsToControls) == CategoryNames
  {
    assert |ExternalControlPairs| == 6;
  }

  // ----------------------------------------------------- findings to show

  /** `[f for f in xs if f in normMap]`. */
  function MappedOnly(xs: seq<string>, normMap: seq<(string, seq<string>)>): (r: seq<string>)
    ensures forall x :: x in r <==> x in xs && x in Keys(normMap)
  {
    if xs == [] then []
    else
      assert forall x :: x in xs <==> x == xs[0] || x in xs[1..];
      (if xs[0] in Keys(normMap) then [xs[0]] else []) + MappedOnly(xs[1..], normMap)
  }

  /** Filtering names that all have a mapping keeps them all. */
  lemma {:induction false} MappedOnlyAll(xs: seq<string>, normMap: seq<(string, seq<string>)>)
    requires forall x :: x in xs ==> x in Keys(normMap)
    ensures MappedOnly(xs, normMap) == xs
  {
    if xs != [] {
      assert forall x :: x in xs[1..] ==> x in xs;
      MappedOnlyAll(xs[1..], normMap);
      assert [xs[0]] + xs[1..] == xs;
    }
  }

  /** With no mapped API category the fallback shows all six categories, in
      order: the normalised mapping has every one of them. */
  lemma FallbackIsCategoryNames()
    ensures MappedOnly(CategoryNames, ExternalFindingsToControlsNorm()) == CategoryNames
  {
    ExternalKeysAreCategoryNames();
    var nm := ExternalFindingsToControlsNorm();
    assert forall i :: 0 <= i < |nm| ==> Keys(nm)[i] == Keys(ExternalFindingsToControls)[i];
    assert Keys(nm) == CategoryNames;
    MappedOnlyAll(CategoryNames, nm);
  }

  /** The API categories that have a mapping, or else every mapped canonical
      category name. */
  function UsedFindings(api: seq<string>, normMap: seq<(string, seq<string>)>): (r: seq<string>)
    ensures forall f :: f in r ==> f in Keys(normMap)
    ensures (exists f :: f in api && f in Keys(normMap)) ==> r == MappedOnly(api, normMap)
  {
    var findings := MappedOnly(api, normMap);
    if findings != [] then findings else MappedOnly(CategoryNames, normMap)
  }

  /** `normMap.get(f, [])`. */
  function Mapped(normMap: seq<(string, seq<string>)>, f: string): seq<string>
  {
    match Get(normMap, f) case Some(cs) => cs case None => []
  }

  // ----------------------------------------------------- the controls table

  datatype ControlRow = ControlRow(companyId: Json, category: string, control: string, cmmScore: real)

  /** The table, or the `TypeError` that `float(ctrl_index[c])` raises when
      the scan rates a control more than once. */
  datatype TableOut = TableRaised | TableRows(rows: seq<ControlRow>)

  /** `ctrl_index[c]`: the ratings the scan indexes under `c`, in row order. */
  function RatingsOf(rated: seq<Rated>, c: string): (r: seq<real>)
    ensures r == [] <==> forall k :: 0 <= k < |rated| ==> rated[k].control != c
  {
    if rated == [] then []
    else
      var n := |rated| - 1;
      RatingsOf(rated[..n], c) + (if rated[n].control == c then [rated[n].rating] else [])
  }

  /** The inner loop over one finding's sorted controls. */
  function FindingRows(companyId: Json, finding: string, controls: seq<string>, rated: seq<Rated>): TableOut
  {
    if controls == [] then TableRows([])
    else
      var n := |controls| - 1;
      match FindingRows(companyId, finding, controls[..n], rated)
      case TableRaised => TableRaised
      case TableRows(rows) =>
        var rs := RatingsOf(rated, controls[n]);
        if rs == [] then TableRows(rows)
        else if |rs| == 1 then TableRows(rows + [ControlRow(companyId, finding, controls[n], rs[0])])
        else TableRaised
  }

  /** The outer loop: the tables `rowsOf` gives the findings, one after the
      other, until one of them raises. */
  function Chain(findings: seq<string>, rowsOf: string -> TableOut): TableOut
  {
    if findings == [] then TableRows([])
    else
      var n := |findings| - 1;
      match Chain(findings[..n], rowsOf)
      case TableRaised => TableRaised
      case TableRows(rows) =>
        match rowsOf(findings[n])
        case TableRaised => TableRaised
        case TableRows(more) => TableRows(rows + more)
  }

  /** The rows of one finding: its mapped controls in sorted order. */
  function FindingTable(companyId: Json, normMap: seq<(string, seq<string>)>, rated: seq<Rated>, f: string): TableOut
  {
    FindingRows(companyId, f, Sort(Mapped(normMap, f)), rated)
  }

  function TableOf(companyId: Json, normMap: seq<(string, seq<string>)>, rated: seq<Rated>): string -> TableOut
  {
    f => FindingTable(companyId, normMap, rated, f)
  }

  /** The table over the findings. */
  function AllRows(companyId: Json, findings: seq<string>, normMap: seq<(string, seq<string>)>, rated: seq<Rated>): TableOut
  {
    Chain(findings, TableOf(companyId, normMap, rated))
  }

  /** `build_csf_controls_table_df(scores_df, internal_rows, company_id)`. */
  function CsfControlsTable(scores: seq<ScoreRow>, internal: seq<Json>, companyId: Json): TableOut
  {
    if scores == [] || FrameEmpty(internal) then TableRows([])
    else
      match DetectControlRefCol(Services.Columns(internal))
      case None => TableRows([])
      case Some(col) =>
        var findings := OrderedFindings(UsedFindings(ApiFindings(scores), ExternalFindingsToControlsNorm()));
        AllRows(companyId, findings, ExternalFindingsToControlsNorm(), RatedControls(internal, col))
  }

  /** Every row carries the company id and the finding, names one of the
      finding's controls, and holds the one rating the scan has for it. */
  lemma {:induction false} FindingRowsMeaning(companyId: Json, finding: string, controls: seq<string>, rated: seq<Rated>)
    requires FindingRows(companyId, finding, controls, rated).TableRows?
    ensures var rows := FindingRows(companyId, finding, controls, rated).rows;
      forall k :: 0 <= k < |rows| ==>
        rows[k].companyId == companyId && rows[k].category == finding
        && rows[k].control in controls && RatingsOf(rated, rows[k].control) == [rows[k].cmmScore]
  {
    if controls != [] {
      var n := |controls| - 1;
      FindingRowsMeaning(companyId, finding, controls[..n], rated);
    }
  }

  /** A control gets a row exactly when the scan rates it. */
  lemma FindingRowsComplete(companyId: Json, finding: string, controls: seq<string>, rated: seq<Rated>, c: string)
    requires FindingRows(companyId, finding, controls, rated).TableRows?
    ensures var rows := FindingRows(companyId, finding, controls, rated).rows;
      (exists k :: 0 <= k < |rows| && rows[k].control == c) <==> c in controls && RatingsOf(rated, c) != []
  {
    FindingRowsMeaning(companyId, finding, controls, rated);
    if c in controls && RatingsOf(rated, c) != [] {
      RatedHasRow(companyId, finding, controls, rated, c);
    }
  }

  /** A control of the finding that the scan rates gets a row. */
  lemma {:induction false} RatedHasRow(companyId: Json, finding: string, controls: seq<string>, rated: seq<Rated>, c: string)
    requires FindingRows(companyId, finding, controls, rated).TableRows?
    requires c in controls && RatingsOf(rated, c) != []
    ensures var rows := FindingRows(companyId, finding, controls, rated).rows;
      exists k :: 0 <= k < |rows| && rows[k].control == c
    decreases |controls|
  {
    var n := |controls| - 1;
    var rows := FindingRows(companyId, finding, controls, rated).rows;
    var init := FindingRows(companyId, finding, controls[..n], rated).rows;
    assert controls == controls[..n] + [controls[n]];
    if c == controls[n] {
      assert rows == init + [ControlRow(companyId, finding, c, RatingsOf(rated, c)[0])];
      assert rows[|rows| - 1].control == c;
    } else {
      assert c in controls[..n];
      RatedHasRow(companyId, finding, controls[..n], rated, c);
      var k :| 0 <= k < |init| && init[k].control == c;
      assert rows[k] == init[k];
    }
  }

  /** Within a finding the controls ascend when the controls are sorted. */
  lemma {:induction false} FindingRowsSorted(companyId: Json, finding: string, controls: seq<string>, rated: seq<Rated>)
    requires Sorted(controls)
    requires FindingRows(companyId, finding, controls, rated).TableRows?
    ensures var rows := FindingRows(companyId, finding, controls, rated).rows;
      forall i, j :: 0 <= i < j < |rows| ==> StrLe(rows[i].control, rows[j].control)
  {
    if controls != [] {
      var n := |controls| - 1;
      assert Sorted(controls[..n]);
      FindingRowsSorted(companyId, finding, controls[..n], rated);
      FindingRowsMeaning(companyId, finding, controls[..n], rated);
      var init := FindingRows(companyId, finding, controls[..n], rated).rows;
      forall k | 0 <= k < |init| ensures StrLe(init[k].control, controls[n]) {
        var p :| 0 <= p < n && controls[p] == init[k].control;
      }
    }
  }

  /** The inner loop raises exactly when the scan rates one of the controls
      more than once. */
  lemma FindingRowsRaised(companyId: Json, finding: string, controls: seq<string>, rated: seq<Rated>)
    ensures FindingRows(companyId, finding, controls, rated).TableRaised? <==>
      exists c :: c in controls && |RatingsOf(rated, c)| > 1
  {
    if FindingRows(companyId, finding, controls, rated).TableRaised? {
      RaisedHasTwice(companyId, finding, controls, rated);
    }
    if exists c :: c in controls && |RatingsOf(rated, c)| > 1 {
      var c :| c in controls && |RatingsOf(rated, c)| > 1;
      TwiceRaises(companyId, finding, controls, rated, c);
    }
  }

  /** A finding's loop that raised met a control rated more than once. */
  lemma {:induction false} RaisedHasTwice(companyId: Json, finding: string, controls: seq<string>, rated: seq<Rated>)
    requires FindingRows(companyId, finding, controls, rated).TableRaised?
    ensures exists c :: c in controls && |RatingsOf(rated, c)| > 1
    decreases |controls|
  {
    var n := |controls| - 1;
    assert controls == controls[..n] + [controls[n]];
    if FindingRows(companyId, finding, controls[..n], rated).TableRaised? {
      RaisedHasTwice(companyId, finding, controls[..n], rated);
      var c :| c in controls[..n] && |RatingsOf(rated, c)| > 1;
      assert c in controls;
    } else {
      assert controls[n] in controls;
    }
  }

  /** A control rated more than once makes the finding's loop raise. */
  lemma {:induction false} TwiceRaises(companyId: Json, finding: string, controls: seq<string>, rated: seq<Rated>, c: string)
    requires c in controls && |RatingsOf(rated, c)| > 1
    ensures FindingRows(companyId, finding, controls, rated).TableRaised?
    decreases |controls|
  {
    var n := |controls| - 1;
    assert controls == controls[..n] + [controls[n]];
    if c != controls[n] {
      assert c in controls[..n];
      TwiceRaises(companyId, finding, controls[..n], rated, c);
    }
  }

  /** Once the outer loop has raised, the whole call has. */
  lemma {:induction false} ChainStops(findings: seq<string>, rowsOf: string -> TableOut, k: nat)
    requires k <= |findings| && Chain(findings[..k], rowsOf).TableRaised?
    ensures Chain(findings, rowsOf).TableRaised?
    decreases |findings| - k
  {
    if k < |findings| {
      assert findings[..k + 1][..k] == findings[..k];
      ChainStops(findings, rowsOf, k + 1);
    } else {
      assert findings[..k] == findings;
    }
  }

  /** One more finding either raises or appends its rows. */
  lemma ChainStep(findings: seq<string>, rowsOf: string -> TableOut, i: nat, rows: seq<ControlRow>)
    requires i < |findings| && Chain(findings[..i], rowsOf) == TableRows(rows)
    ensures Chain(findings[..i + 1], rowsOf) ==
      match rowsOf(findings[i])
      case TableRaised => TableRaised
      case TableRows(more) => TableRows(rows + more)
  {
    assert findings[..i + 1][..i] == findings[..i];
  }

  /** The outer loop raises exactly when one finding's rows do. */
  lemma {:induction false} ChainRaised(findings: seq<string>, rowsOf: string -> TableOut)
    ensures Chain(findings, rowsOf).TableRaised? <==> exists f :: f in findings && rowsOf(f).TableRaised?
  {
    if findings != [] {
      var n := |findings| - 1;
      ChainRaised(findings[..n], rowsOf);
      assert findings == findings[..n] + [findings[n]];
      if Chain(findings[..n], rowsOf).TableRaised? {
        var f :| f in findings[..n] && rowsOf(f).TableRaised?;
        assert f in findings;
      }
      if exists f :: f in findings && rowsOf(f).TableRaised? {
        var f :| f in findings && rowsOf(f).TableRaised?;
        if f !in findings[..n] {
          assert f == findings[n];
        }
      }
    }
  }

  /** The table holds exactly the rows of its findings, in the order of the
      findings. */
  lemma {:induction false} ChainAppend(a: seq<string>, b: seq<string>, rowsOf: string -> TableOut)
    requires Chain(a + b, rowsOf).TableRows?
    ensures Chain(a, rowsOf).TableRows? && Chain(b, rowsOf).TableRows?
    ensures Chain(a + b, rowsOf).rows == Chain(a, rowsOf).rows + Chain(b, rowsOf).rows
    decreases |b|
  {
    if b == [] {
      assert a + b == a;
    } else {
      var n := |b| - 1;
      assert (a + b)[..|a + b| - 1] == a + b[..n];
      assert (a + b)[|a + b| - 1] == b[n];
      ChainAppend(a, b[..n], rowsOf);
    }
  }

  /** A row is in the table exactly when it is among the rows of one of the
      findings. */
  lemma {:induction false} ChainRows(findings: seq<string>, rowsOf: string -> TableOut, row: ControlRow)
    requires Chain(findings, rowsOf).TableRows?
    ensures row in Chain(findings, rowsOf).rows <==>
      exists f :: f in findings && rowsOf(f).TableRows? && row in rowsOf(f).rows
  {
    if findings != [] {
      var n := |findings| - 1;
      ChainRows(findings[..n], rowsOf, row);
      assert findings == findings[..n] + [findings[n]];
      if exists f :: f in findings[..n] && rowsOf(f).TableRows? && row in rowsOf(f).rows {
        var f :| f in findings[..n] && rowsOf(f).TableRows? && row in rowsOf(f).rows;
        assert f in findings;
      }
      if exists f :: f in findings && rowsOf(f).TableRows? && row in rowsOf(f).rows {
        var f :| f in findings && rowsOf(f).TableRows? && row in rowsOf(f).rows;
        if f !in findings[..n] {
          assert f == findings[n];
        }
      }
    }
  }

  /** Every row of the table carries the company id, one of the findings, one
      of that finding's mapped controls and the scan's one rating of it. */
  lemma AllRowsMeaning(companyId: Json, findings: seq<string>, normMap: seq<(string, seq<string>)>, rated: seq<Rated>)
    requires AllRows(companyId, findings, normMap, rated).TableRows?
    ensures var rows := AllRows(companyId, findings, normMap, rated).rows;
      forall k :: 0 <= k < |rows| ==>
        rows[k].companyId == companyId && rows[k].category in findings
        && rows[k].control in Mapped(normMap, rows[k].category)
        && RatingsOf(rated, rows[k].control) == [rows[k].cmmScore]
  {
    var t := TableOf(companyId, normMap, rated);
    var rows := Chain(findings, t).rows;
    forall k | 0 <= k < |rows|
      ensures rows[k].companyId == companyId && rows[k].category in findings
        && rows[k].control in Mapped(normMap, rows[k].category)
        && RatingsOf(rated, rows[k].control) == [rows[k].cmmScore]
    {
      ChainRows(findings, t, rows[k]);
      var f :| f in findings && t(f).TableRows? && rows[k] in t(f).rows;
      var controls := Sort(Mapped(normMap, f));
      FindingRowsMeaning(companyId, f, controls, rated);
      var j :| 0 <= j < |t(f).rows| && t(f).rows[j] == rows[k];
      assert rows[k].control in multiset(controls);
    }
  }

  /** Where no finding raises, each rated control of each finding has its
      row. */
  lemma AllRowsComplete(companyId: Json, findings: seq<string>, normMap: seq<(string, seq<string>)>, rated: seq<Rated>, f: string, c: string)
    requires AllRows(companyId, findings, normMap, rated).TableRows?
    requires f in findings && c in Mapped(normMap, f) && RatingsOf(rated, c) != []
    ensures exists k :: (0 <= k < |AllRows(companyId, findings, normMap, rated).rows|
      && AllRows(companyId, findings, normMap, rated).rows[k].category == f
      && AllRows(companyId, findings, normMap, rated).rows[k].control == c)
  {
    var t := TableOf(companyId, normMap, rated);
    var controls := Sort(Mapped(normMap, f));
    ChainRaised(findings, t);
    assert t(f) == FindingRows(companyId, f, controls, rated);
    assert c in multiset(controls);
    FindingRowsComplete(companyId, f, controls, rated, c);
    FindingRowsMeaning(companyId, f, controls, rated);
    var j :| 0 <= j < |t(f).rows| && t(f).rows[j].control == c;
    ChainRows(findings, t, t(f).rows[j]);
    var rows := Chain(findings, t).rows;
    var k :| 0 <= k < |rows| && rows[k] == t(f).rows[j];
  }

  /** One finding's rows raise exactly when it maps a control the scan rates
      more than once. */
  lemma FindingTableRaised(companyId: Json, normMap: seq<(string, seq<string>)>, rated: seq<Rated>, f: string)
    ensures FindingTable(companyId, normMap, rated, f).TableRaised? <==>
      exists c :: c in Mapped(normMap, f) && |RatingsOf(rated, c)| > 1
  {
    var controls := Sort(Mapped(normMap, f));
    FindingRowsRaised(companyId, f, controls, rated);
    assert forall c :: c in controls <==> c in multiset(controls);
  }

  /** The table raises exactly when some finding maps a control that the scan
      rates more than once. */
  lemma AllRowsRaised(companyId: Json, findings: seq<string>, normMap: seq<(string, seq<string>)>, rated: seq<Rated>)
    ensures AllRows(companyId, findings, normMap, rated).TableRaised? <==>
      exists f, c :: f in findings && c in Mapped(normMap, f) && |RatingsOf(rated, c)| > 1
  {
    var t := TableOf(companyId, normMap, rated);
    ChainRaised(findings, t);
    if AllRows(companyId, findings, normMap, rated).TableRaised? {
      var f :| f in findings && t(f).TableRaised?;
      assert t(f) == FindingTable(companyId, normMap, rated, f);
      FindingTableRaised(companyId, normMap, rated, f);
      var c :| c in Mapped(normMap, f) && |RatingsOf(rated, c)| > 1;
    }
    if exists f, c :: f in findings && c in Mapped(normMap, f) && |RatingsOf(rated, c)| > 1 {
      var f, c :| f in findings && c in Mapped(normMap, f) && |RatingsOf(rated, c)| > 1;
      assert t(f) == FindingTable(companyId, normMap, rated, f);
      FindingTableRaised(companyId, normMap, rated, f);
    }
  }

  // ------------------------------------------------------------ the loops

  /** `for c in sorted(mapped_controls)`: skip unrated controls, append the
      rated ones. */
  method AppendFindingRows(companyId: Json, finding: string, controls: seq<string>, rated: seq<Rated>) returns (out: TableOut)
    ensures out == FindingRows(companyId, finding, controls, rated)
  {
    var rows: seq<ControlRow> := [];
    var j := 0;
    while j < |controls|
      invariant 0 <= j <= |controls|
      invariant FindingRows(companyId, finding, controls[..j], rated) == TableRows(rows)
    {
      var rs := RatingsOf(rated, controls[j]);
      FindingRowsSnoc(companyId, finding, controls, rated, j, rows, rs);
      if |rs| > 1 {
        return TableRaised;
      }
      if rs != [] {
        rows := rows + [ControlRow(companyId, finding, controls[j], rs[0])];
      }
      j := j + 1;
    }
    assert controls[..j] == controls;
    return TableRows(rows);
  }

  /** One iteration of the loop over a finding's controls: no rating adds
      nothing, one rating adds its row, more raise for the whole finding. */
  lemma FindingRowsSnoc(companyId: Json, finding: string, controls: seq<string>, rated: seq<Rated>, j: nat,
                        rows: seq<ControlRow>, rs: seq<real>)
    requires j < |controls| && FindingRows(companyId, finding, controls[..j], rated) == TableRows(rows)
    requires rs == RatingsOf(rated, controls[j])
    ensures rs == [] ==> FindingRows(companyId, finding, controls[..j + 1], rated) == TableRows(rows)
    ensures |rs| == 1 ==>
      FindingRows(companyId, finding, controls[..j + 1], rated) == TableRows(rows + [ControlRow(companyId, finding, controls[j], rs[0])])
    ensures |rs| > 1 ==> FindingRows(companyId, finding, controls, rated) == TableRaised
  {
    assert controls[..j + 1][..j] == controls[..j];
    if |rs| > 1 {
      FindingRowsStops(companyId, finding, controls, rated, j + 1);
    }
  }

  lemma {:induction false} FindingRowsStops(companyId: Json, finding: string, controls: seq<string>, rated: seq<Rated>, k: nat)
    requires k <= |controls| && FindingRows(companyId, finding, controls[..k], rated).TableRaised?
    ensures FindingRows(companyId, finding, controls, rated).TableRaised?
    decreases |controls| - k
  {
    if k < |controls| {
      assert controls[..k + 1][..k] == controls[..k];
      FindingRowsStops(companyId, finding, controls, rated, k + 1);
    } else {
      assert controls[..k] == controls;
    }
  }

  /** One iteration of the loop over the findings, on the table: it raises
      or appends the finding's rows. */
  lemma AllRowsStep(companyId: Json, findings: seq<string>, normMap: seq<(string, seq<string>)>, rated: seq<Rated>,
                    i: nat, rows: seq<ControlRow>, more: TableOut)
    requires i < |findings| && AllRows(companyId, findings[..i], normMap, rated) == TableRows(rows)
    requires more == TableOf(companyId, normMap, rated)(findings[i])
    ensures more.TableRaised? ==> AllRows(companyId, findings, normMap, rated) == TableRaised
    ensures more.TableRows? ==> AllRows(companyId, findings[..i + 1], normMap, rated) == TableRows(rows + more.rows)
  {
    ChainStep(findings, TableOf(companyId, normMap, rated), i, rows);
    if more.TableRaised? {
      ChainStops(findings, TableOf(companyId, normMap, rated), i + 1);
    }
  }

  method FindingStep(companyId: Json, normMap: seq<(string, seq<string>)>, rated: seq<Rated>, f: string) returns (more: TableOut)
    ensures more == TableOf(companyId, normMap, rated)(f)
  {
    more := AppendFindingRows(companyId, f, Sort(Mapped(normMap, f)), rated);
  }

  /** The loop over the ordered findings. */
  method CollectRows(companyId: Json, findings: seq<string>, normMap: seq<(string, seq<string>)>, rated: seq<Rated>) returns (out: TableOut)
    ensures out == AllRows(companyId, findings, normMap, rated)
  {
    var rows: seq<ControlRow> := [];
    var i := 0;
    while i < |findings|
      invariant 0 <= i <= |findings|
      invariant AllRows(companyId, findings[..i], normMap, rated) == TableRows(rows)
    {
      var more := FindingStep(companyId, normMap, rated, findings[i]);
      AllRowsStep(companyId, findings, normMap, rated, i, rows, more);
      if more.TableRaised? {
        return TableRaised;
      }
      rows := rows + more.rows;
      i := i + 1;
    }
    assert findings[..i] == findings;
    return TableRows(rows);
  }

  method BuildCsfControlsTableDf(scores: seq<ScoreRow>, internal: seq<Json>, companyId: Json) returns (out: TableOut)
    ensures out == CsfControlsTable(scores, internal, companyId)
  {
    if scores == [] || FrameEmpty(internal) {
      return TableRows([]);
    }
    var ctrlCol := DetectControlRefCol(Services.Columns(internal));
    if ctrlCol.None? {
      return TableRows([]);
    }
    var rated := RatedControls(internal, ctrlCol.value);
    var findings := OrderedFindings(UsedFindings(ApiFindings(scores), ExternalFindingsToControlsNorm()));
    out := CollectRows(companyId, findings, ExternalFindingsToControlsNorm(), rated);
  }
}
