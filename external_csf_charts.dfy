/** The data behind `internal_controls_cmm_bar_chart`: the company's internal
    scan rows whose normalised control is mapped from an external finding
    category the company has, each with its rating and mapped categories,
    ordered by the first position of those categories in the score table and
    then by control. */
module ExternalCsfCharts {
  import opened Text
  import opened JsonValue
  import opened ChartsHelpers
  import opened Helpers
  import opened NistMappings
  import opened CsfScan
  import Services

  /** One bar: the control, its rating and its mapped categories as text. */
  datatype BarRow = BarRow(control: string, cmmScore: real, mappedCategoryDisp: string)

  /** `None` (no chart), the bars, or an exception the function lets through. */
  datatype BarsOut = BarsRaised | NoBars | Bars(rows: seq<BarRow>)

  /** `10**6`, the order of a category the score table does not list. */
  const DefaultOrder: int := 1000000

  // ------------------------------------------------------- the bundle pass

  /** `for x in v` without a fallback: a list's items, a dict's keys, a text's
      characters; `None` for the `TypeError` any other value raises. */
  function Loop(v: Json): (r: Option<seq<Json>>)
    ensures v.JArr? ==> r == Some(v.items)
    ensures r.None? <==> !(v.JArr? || v.JObj? || v.JStr?)
  {
    match v
    case JArr(items) => Some(items)
    case JObj(fields) => Some(KeyTexts(fields))
    case JStr(s) => Some(CharTexts(s))
    case _ => None
  }

  /** `d.get(k, default)` on a dict. */
  function GetOr(d: Json, k: string, default: Json): Json
    requires d.JObj?
  {
    match Get(d.fields, k) case Some(v) => v case None => default
  }

  /** `domain.get("findings_by_category", {}).keys()` succeeds. */
  predicate DomainPassOk(domain: Json)
  {
    domain.JObj? && GetOr(domain, "findings_by_category", JObj([])).JObj?
  }

  /** The loops over the loaded bundle's categories and domains finish
      without raising: every category is a dict whose truthy `Category` can
      be added to a set, and every domain's `findings_by_category` is a
      dict.  What they collect is overwritten before any use. */
  predicate BundlePassOk(bundle: Json)
  {
    var b := Or(bundle, JObj([]));
    b.JObj?
    && (match Loop(GetOr(b, "categories", JArr([])))
        case None => false
        case Some(cats) =>
          forall i :: 0 <= i < |cats| ==>
            cats[i].JObj? && (Truthy(At(cats[i], "Category")) ==> Hashable(At(cats[i], "Category"))))
    && (match Loop(GetOr(b, "domains", JArr([])))
        case None => false
        case Some(ds) => forall i :: 0 <= i < |ds| ==> DomainPassOk(ds[i]))
  }

  // --------------------------------------------- control -> findings, filter

  /** `present_categories`: the stripped texts of the score table's
      non-null categories. */
  function Present(scores: seq<ScoreRow>): set<string>
  {
    set x | x in ApiFindings(scores)
  }

  /** `df[df["control_ref_norm"].isin(allowed_controls)]`. */
  function Allowed(rated: seq<Rated>, d: map<string, seq<string>>): (r: seq<Rated>)
    ensures |r| <= |rated|
    ensures forall k :: 0 <= k < |r| ==> r[k].control in d
  {
    if rated == [] then []
    else
      var n := |rated| - 1;
      Allowed(rated[..n], d) + (if rated[n].control in d then [rated[n]] else [])
  }

  /** The kept entries are the scan's entries whose control is in the index,
      in scan order. */
  lemma {:induction false} AllowedMembers(rated: seq<Rated>, d: map<string, seq<string>>, e: Rated)
    ensures e in Allowed(rated, d) <==> e in rated && e.control in d
  {
    if rated != [] {
      var n := |rated| - 1;
      AllowedMembers(rated[..n], d, e);
      assert rated == rated[..n] + [rated[n]];
    }
  }

  /** `mapped_category_disp`: the categories mapped to `c`, as text. */
  function MappedDisp(d: map<string, seq<string>>, c: string): string
  {
    var mapped := if c in d then d[c] else [];
    if mapped != [] then CsvPlain(mapped) else "-"
  }

  /** The loop body's row for each kept entry (lines 74-87). */
  function BarRows(kept: seq<Rated>, d: map<string, seq<string>>): (r: seq<BarRow>)
    ensures |r| == |kept|
    ensures forall k :: 0 <= k < |kept| ==> r[k] == BarRow(kept[k].control, kept[k].rating, MappedDisp(d, kept[k].control))
  {
    if kept == [] then []
    else
      var n := |kept| - 1;
      BarRows(kept[..n], d) + [BarRow(kept[n].control, kept[n].rating, MappedDisp(d, kept[n].control))]
  }

  // ------------------------------------------------------------- ordering

  /** `cat_index.get(f, 10**6)`: the last position of the text `f` among the
      non-null category cells (a later key overwrites an earlier one). */
  function CatIndex(cells: seq<Json>, f: string): (r: int)
    ensures (exists i :: 0 <= i < |cells| && cells[i] == JStr(f)) ==>
      0 <= r < |cells| && cells[r] == JStr(f) && forall j :: r < j < |cells| ==> cells[j] != JStr(f)
    ensures (forall i :: 0 <= i < |cells| ==> cells[i] != JStr(f)) ==> r == DefaultOrder
  {
    if cells == [] then DefaultOrder
    else
      var n := |cells| - 1;
      if cells[n] == JStr(f) then n
      else
        assert forall i :: 0 <= i < n ==> cells[..n][i] == cells[i];
        CatIndex(cells[..n], f)
  }

  /** `min([cat_index.get(f, 10**6) for f in fs] or [10**6])`. */
  function CatOrder(fs: seq<string>, cells: seq<Json>): (r: int)
    ensures fs == [] ==> r == DefaultOrder
    ensures fs != [] ==> exists k :: 0 <= k < |fs| && r == CatIndex(cells, fs[k])
    ensures forall k :: 0 <= k < |fs| ==> r <= CatIndex(cells, fs[k])
  {
    if fs == [] then DefaultOrder
    else if |fs| == 1 then CatIndex(cells, fs[0])
    else
      var rest := CatOrder(fs[1..], cells);
      var here := CatIndex(cells, fs[0]);
      if here <= rest then here else rest
  }

  /** The `cat_order` of a control: that of its mapped categories. */
  function OrderOf(d: map<string, seq<string>>, cells: seq<Json>, c: string): int
  {
    CatOrder(if c in d then d[c] else [], cells)
  }

  /** `sort_values(["cat_order", "control"])` compares by order, then control. */
  predicate BarLe(d: map<string, seq<string>>, cells: seq<Json>, a: BarRow, b: BarRow)
  {
    OrderOf(d, cells, a.control) < OrderOf(d, cells, b.control)
    || (OrderOf(d, cells, a.control) == OrderOf(d, cells, b.control) && StrLe(a.control, b.control))
  }

  predicate BarsSorted(d: map<string, seq<string>>, cells: seq<Json>, s: seq<BarRow>)
  {
    forall i, j :: 0 <= i < j < |s| ==> BarLe(d, cells, s[i], s[j])
  }

  lemma BarLeTotal(d: map<string, seq<string>>, cells: seq<Json>, a: BarRow, b: BarRow)
    ensures BarLe(d, cells, a, b) || BarLe(d, cells, b, a)
  {
    StrLeTotal(a.control, b.control);
  }

  lemma BarLeTrans(d: map<string, seq<string>>, cells: seq<Json>, a: BarRow, b: BarRow, c: BarRow)
    requires BarLe(d, cells, a, b) && BarLe(d, cells, b, c)
    ensures BarLe(d, cells, a, c)
  {
    if OrderOf(d, cells, a.control) == OrderOf(d, cells, b.control) == OrderOf(d, cells, c.control) {
      StrLeTrans(a.control, b.control, c.control);
    }
  }

  function InsertBar(d: map<string, seq<string>>, cells: seq<Json>, x: BarRow, s: seq<BarRow>): (r: seq<BarRow>)
    ensures multiset(r) == multiset(s) + multiset{x}
  {
    if s == [] then [x]
    else if BarLe(d, cells, x, s[0]) then [x] + s
    else
      assert s == [s[0]] + s[1..];
      [s[0]] + InsertBar(d, cells, x, s[1..])
  }

  lemma {:induction false} InsertBarSorted(d: map<string, seq<string>>, cells: seq<Json>, x: BarRow, s: seq<BarRow>)
    requires BarsSorted(d, cells, s)
    ensures BarsSorted(d, cells, InsertBar(d, cells, x, s))
    decreases |s|
  {
    if s != [] {
      if BarLe(d, cells, x, s[0]) {
        var r := [x] + s;
        forall i, j | 0 <= i < j < |r| ensures BarLe(d, cells, r[i], r[j]) {
          if i == 0 && j > 1 {
            BarLeTrans(d, cells, x, s[0], s[j - 1]);
          }
        }
      } else {
        BarLeTotal(d, cells, x, s[0]);
        InsertBarSorted(d, cells, x, s[1..]);
        var t := InsertBar(d, cells, x, s[1..]);
        var r := [s[0]] + t;
        forall i, j | 0 <= i < j < |r| ensures BarLe(d, cells, r[i], r[j]) {
          if i == 0 {
            assert r[j] in multiset(t);
            assert r[j] in multiset(s[1..]) + multiset{x};
            if r[j] != x {
              assert r[j] in s[1..];
              var k :| 0 <= k < |s[1..]| && s[1..][k] == r[j];
              assert s[k + 1] == r[j];
            }
          }
        }
      }
    }
  }

  /** The rows in `(cat_order, control)` order. */
  function SortBars(d: map<string, seq<string>>, cells: seq<Json>, s: seq<BarRow>): (r: seq<BarRow>)
    ensures multiset(r) == multiset(s)
    ensures |r| == |s|
  {
    if s == [] then []
    else
      assert s == [s[0]] + s[1..];
      var r := InsertBar(d, cells, s[0], SortBars(d, cells, s[1..]));
      assert |r| == |multiset(r)| == |multiset(s)| == |s|;
      r
  }

  /** The sort orders the rows by category position, then control. */
  lemma {:induction false} SortBarsSorted(d: map<string, seq<string>>, cells: seq<Json>, s: seq<BarRow>)
    ensures BarsSorted(d, cells, SortBars(d, cells, s))
  {
    if s != [] {
      SortBarsSorted(d, cells, s[1..]);
      InsertBarSorted(d, cells, s[0], SortBars(d, cells, s[1..]));
    }
  }

  // ------------------------------------------------------------ the chart

  /** The rows of the chart over the loaded inputs: `scan` is what
      `get_internal_scan` returned (`None` when it raised), `bundle` what
      `load_company_bundle` returned.  The score table is read from that
      same bundle, as `get_company_category_scores_df` loads it again. */
  function BarChart(scan: Option<seq<Json>>, bundle: Json): BarsOut
  {
    match scan
    case None => NoBars
    case Some(rows) =>
      if rows == [] || FrameEmpty(rows) then NoBars
      else match DetectControlRefCol(Services.Columns(rows))
      case None => NoBars
      case Some(col) =>
        if !BundlePassOk(bundle) then BarsRaised
        else match CategoryScores(bundle)
        case None => BarsRaised
        case Some(sc) =>
          var d := ControlToFindings(ExternalFindingsToControls, Present(sc));
          var kept := Allowed(RatedControls(rows, col), d);
          if kept == [] then NoBars
          else
            var cells := CategoryCells(sc);
            if exists i :: 0 <= i < |cells| && !Hashable(cells[i]) then BarsRaised
            else Bars(SortBars(d, cells, BarRows(kept, d)))
  }

  /** There is no chart when the scan raised or is empty, when its rows have
      no key, or when no control column is found. */
  lemma NoChartCases(scan: Option<seq<Json>>, bundle: Json)
    requires scan.None? || scan.value == [] || FrameEmpty(scan.value)
      || DetectControlRefCol(Services.Columns(scan.value)).None?
    ensures BarChart(scan, bundle) == NoBars
  {
  }

  /** Beyond the raises of its first pass, the bundle decides the rows only
      through its category score table. */
  lemma BundleIrrelevant(scan: Option<seq<Json>>, b1: Json, b2: Json)
    requires BundlePassOk(b1) && BundlePassOk(b2) && CategoryScores(b1) == CategoryScores(b2)
    ensures BarChart(scan, b1) == BarChart(scan, b2)
  {
  }

  /** A bundle with one category whose `Category` is the list `["x"]`. */
  const ListCategoryBundle: Json := JObj([("categories", JArr([JObj([("Category", JArr([JStr("x")]))])]))])

  /** Adding that list to `present_categories` raises `TypeError`. */
  lemma ListCategoryFails()
    ensures !BundlePassOk(ListCategoryBundle)
  {
    var cat := JObj([("Category", JArr([JStr("x")]))]);
    var b := ListCategoryBundle;
    assert Or(b, JObj([])) == b;
    assert GetOr(b, "categories", JArr([])) == JArr([cat]);
    assert Loop(JArr([cat])) == Some([cat]);
    assert At(cat, "Category") == JArr([JStr("x")]);
    assert Truthy(JArr([JStr("x")])) && !Hashable(JArr([JStr("x")]));
    assert [cat][0] == cat;
  }

  /** So with a scan that has a control column, the chart raises. */
  lemma ListCategoryRaises(rows: seq<Json>, col: string)
    requires rows != [] && !FrameEmpty(rows) && DetectControlRefCol(Services.Columns(rows)) == Some(col)
    ensures BarChart(Some(rows), ListCategoryBundle) == BarsRaised
  {
    ListCategoryFails();
  }

  /** The kept rows are the scan rows with a rating whose normalised control
      some present category maps to. */
  lemma KeptMeaning(rows: seq<Json>, col: string, present: set<string>, e: Rated)
    ensures var d := ControlToFindings(ExternalFindingsToControls, present);
      e in Allowed(RatedControls(rows, col), d) <==>
        (exists i :: 0 <= i < |rows| && Entry(rows, rows[i], col) == Some(e))
        && exists j :: 0 <= j < |ExternalFindingsToControls| && ExternalFindingsToControls[j].0 in present
             && e.control in NormAll(ExternalFindingsToControls[j].1)
  {
    var d := ControlToFindings(ExternalFindingsToControls, present);
    AllowedMembers(RatedControls(rows, col), d, e);
    RatedControlsMembers(rows, col, e);
    ControlToFindingsMeaning(ExternalFindingsToControls, present, e.control, "");
  }

  /** The chart's rows are exactly the kept entries' rows, each naming the
      categories mapped to its control, sorted by category position and then
      control. */
  lemma ChartRows(scan: Option<seq<Json>>, bundle: Json)
    requires BarChart(scan, bundle).Bars?
    ensures var rows, col, sc := scan.value, DetectControlRefCol(Services.Columns(scan.value)).value, CategoryScores(bundle).value;
      var d := ControlToFindings(ExternalFindingsToControls, Present(sc));
      var kept := Allowed(RatedControls(rows, col), d);
      var out := BarChart(scan, bundle).rows;
      out != []
      && multiset(out) == multiset(BarRows(kept, d))
      && BarsSorted(d, CategoryCells(sc), out)
  {
    var rows, col, sc := scan.value, DetectControlRefCol(Services.Columns(scan.value)).value, CategoryScores(bundle).value;
    var d := ControlToFindings(ExternalFindingsToControls, Present(sc));
    var kept := Allowed(RatedControls(rows, col), d);
    SortBarsSorted(d, CategoryCells(sc), BarRows(kept, d));
  }

  // ------------------------------------------------------------ the loops

  /** The loop over the kept rows that builds the chart rows. */
  method CollectBarRows(kept: seq<Rated>, d: map<string, seq<string>>) returns (rows: seq<BarRow>)
    ensures rows == BarRows(kept, d)
  {
    rows := [];
    var i := 0;
    while i < |kept|
      invariant 0 <= i <= |kept|
      invariant rows == BarRows(kept[..i], d)
    {
      assert kept[..i + 1][..i] == kept[..i];
      var c := kept[i].control;
      rows := rows + [BarRow(c, kept[i].rating, MappedDisp(d, c))];
      i := i + 1;
    }
    assert kept[..i] == kept;
  }

  /** `internal_controls_cmm_bar_chart` up to the chart's rows. */
  method InternalControlsCmmBarChart(scan: Option<seq<Json>>, bundle: Json) returns (out: BarsOut)
    ensures out == BarChart(scan, bundle)
  {
    if scan.None? {
      return NoBars;
    }
    var rows := scan.value;
    if rows == [] || FrameEmpty(rows) {
      return NoBars;
    }
    var ctrlCol := DetectControlRefCol(Services.Columns(rows));
    if ctrlCol.None? {
      return NoBars;
    }
    var rated := RatedControls(rows, ctrlCol.value);
    if !BundlePassOk(bundle) {
      return BarsRaised;
    }
    var scores := GetCompanyCategoryScoresDf(bundle);
    if scores.None? {
      return BarsRaised;
    }
    var d := BuildControlToFindings(ExternalFindingsToControls, Present(scores.value));
    var kept := Allowed(rated, d);
    if kept == [] {
      return NoBars;
    }
    var barRows := CollectBarRows(kept, d);
    var cells := CategoryCells(scores.value);
    if exists i :: 0 <= i < |cells| && !Hashable(cells[i]) {
      return BarsRaised;
    }
    out := Bars(SortBars(d, cells, barRows));
  }
}
