/** The data behind the two charts of `charts.py`: the CSF function counts of
    `csf_function_distribution_chart` and the column choice and height of
    `company_category_scores_chart`.  The category table `CATEGORY_TO_CSF`
    is a parameter; it is what `NistHelpers.BuildCategoryToControls`
    builds. */
module Charts {
  import opened Text
  import opened JsonValue
  import opened NistHelpers
  import Services
  import ChartsHelpers

  // ------------------------------------------------------- the type column

  /** `findings_df[type_col].dropna().astype(str)`: the non-missing cells
      of the column, as text, in row order. */
  function TypeValues(rows: seq<Json>, col: string): (r: seq<string>)
    ensures |r| <= |rows|
    ensures forall v :: v in r ==> exists i :: 0 <= i < |rows| && Has(rows[i], col) && !At(rows[i], col).JNull? && Str(At(rows[i], col)) == v
  {
    if rows == [] then []
    else
      var n := |rows| - 1;
      var init := TypeValues(rows[..n], col);
      assert forall i :: 0 <= i < n ==> rows[..n][i] == rows[i];
      var cell := At(rows[n], col);
      if Has(rows[n], col) && !cell.JNull? then init + [Str(cell)] else init
  }

  /** How often `v` occurs in `values`. */
  function Occ(values: seq<string>, v: string): (r: nat)
    ensures r <= |values|
    ensures r > 0 <==> v in values
  {
    if values == [] then 0
    else
      var n := |values| - 1;
      assert values == values[..n] + [values[n]];
      Occ(values[..n], v) + (if values[n] == v then 1 else 0)
  }

  /** Each of `us` with its number of occurrences in `values`. */
  function Grouped(us: seq<string>, values: seq<string>): (r: seq<(string, nat)>)
    ensures |r| == |us|
    ensures forall k :: 0 <= k < |us| ==> r[k] == (us[k], Occ(values, us[k]))
  {
    seq(|us|, k requires 0 <= k < |us| => (us[k], Occ(values, us[k])))
  }

  /** `value_counts()`: each distinct value once, with how often it occurs. */
  function ValueCounts(values: seq<string>): seq<(string, nat)>
  {
    Grouped(Unique(values), values)
  }

  /** The frequency table lists every value once, each with a positive
      count, and nothing else. */
  lemma ValueCountsMeaning(values: seq<string>)
    ensures var freq := ValueCounts(values);
      (forall k :: 0 <= k < |freq| ==> freq[k].0 in values && freq[k].1 == Occ(values, freq[k].0) && freq[k].1 > 0)
      && (forall v :: v in values ==> exists k :: 0 <= k < |freq| && freq[k].0 == v)
      && (forall k, l :: 0 <= k < l < |freq| ==> freq[k].0 != freq[l].0)
  {
    var freq := ValueCounts(values);
    forall v | v in values
      ensures exists k :: 0 <= k < |freq| && freq[k].0 == v
    {
      var k :| 0 <= k < |Unique(values)| && Unique(values)[k] == v;
      assert freq[k].0 == v;
    }
  }

  // ------------------------------------------------------------ the counts

  /** How many of `codes` have the function `fname`; codes whose function is
      `""` are skipped. */
  function CodeCount(codes: seq<string>, fnOf: string -> string, fname: string): (r: nat)
    ensures r <= |codes|
    ensures fname == "" ==> r == 0
  {
    if codes == [] then 0
    else
      var n := |codes| - 1;
      CodeCount(codes[..n], fnOf, fname) + (if fname != "" && fnOf(codes[n]) == fname then 1 else 0)
  }

  /** `CATEGORY_TO_CSF.get(company_cat, [])`. */
  function CodesOf(table: Table<seq<string>>, cat: string): seq<string>
  {
    match Get(table, cat)
    case None => []
    case Some(codes) => codes
  }

  /** What one finding of type `cat` adds to the count of `fname`. */
  function PerValue(table: Table<seq<string>>, fnOf: string -> string, fname: string): string -> nat
  {
    cat => CodeCount(CodesOf(table, cat), fnOf, fname)
  }

  /** The contributions `g` of the findings, row by row. */
  function RowSum(values: seq<string>, g: string -> nat): nat
  {
    if values == [] then 0
    else
      var n := |values| - 1;
      RowSum(values[..n], g) + g(values[n])
  }

  /** The contributions of a frequency table: each value's `g` times its
      count. */
  function GroupSum(freq: seq<(string, nat)>, g: string -> nat): nat
  {
    if freq == [] then 0
    else
      var n := |freq| - 1;
      GroupSum(freq[..n], g) + freq[n].1 * g(freq[n].0)
  }

  lemma {:induction false} GroupSumEmpty(us: seq<string>, g: string -> nat)
    ensures GroupSum(Grouped(us, []), g) == 0
  {
    if us != [] {
      var n := |us| - 1;
      assert Grouped(us, [])[..n] == Grouped(us[..n], []);
      GroupSumEmpty(us[..n], g);
    }
  }

  /** One more row of value `x` adds `g(x)` when `x` is one of the distinct
      values `us`. */
  lemma {:induction false} GroupSumSnoc(us: seq<string>, values: seq<string>, x: string, g: string -> nat)
    requires forall i, j :: 0 <= i < j < |us| ==> us[i] != us[j]
    ensures GroupSum(Grouped(us, values + [x]), g) == GroupSum(Grouped(us, values), g) + (if x in us then g(x) else 0)
  {
    if us != [] {
      var n := |us| - 1;
      var init := us[..n];
      var u := us[n];
      GroupSumSnoc(init, values, x, g);
      GroupSumLast(us, values + [x], g);
      GroupSumLast(us, values, g);
      OccSnoc(values, x, u);
      var o := Occ(values, u);
      assert x in us <==> x in init || x == u;
      if x == u {
        assert x !in init;
        MulSuccLeft(o, g(u));
      }
    }
  }

  /** The last distinct value's share of a weighted total. */
  lemma GroupSumLast(us: seq<string>, values: seq<string>, g: string -> nat)
    requires us != []
    ensures GroupSum(Grouped(us, values), g)
      == GroupSum(Grouped(us[..|us| - 1], values), g) + Occ(values, us[|us| - 1]) * g(us[|us| - 1])
  {
    assert Grouped(us, values)[..|us| - 1] == Grouped(us[..|us| - 1], values);
  }

  /** One more row adds one occurrence of its own value. */
  lemma OccSnoc(values: seq<string>, x: string, v: string)
    ensures Occ(values + [x], v) == Occ(values, v) + (if x == v then 1 else 0)
  {
    assert (values + [x])[..|values|] == values;
  }

  lemma MulSuccLeft(a: nat, b: nat)
    ensures (a + 1) * b == a * b + b
  {
  }

  /** Counting each distinct value once, weighted by how often it occurs,
      gives the same total as counting row by row. */
  lemma {:induction false} GroupedEqualsRows(us: seq<string>, values: seq<string>, g: string -> nat)
    requires forall i, j :: 0 <= i < j < |us| ==> us[i] != us[j]
    requires forall v :: v in values ==> v in us
    ensures GroupSum(Grouped(us, values), g) == RowSum(values, g)
  {
    if values == [] {
      GroupSumEmpty(us, g);
    } else {
      var n := |values| - 1;
      assert values == values[..n] + [values[n]];
      GroupedEqualsRows(us, values[..n], g);
      GroupSumSnoc(us, values[..n], values[n], g);
    }
  }

  /** The frequency table gives the row-by-row totals. */
  lemma ValueCountsTotal(values: seq<string>, g: string -> nat)
    ensures GroupSum(ValueCounts(values), g) == RowSum(values, g)
  {
    GroupedEqualsRows(Unique(values), values, g);
  }

  // -------------------------------------------------------------- GV rows

  /** The number of rows whose `control_ref`, as uppercased text, starts
      with `GV.`. */
  function GvCount(rows: seq<Json>): (r: nat)
    ensures r <= |rows|
    ensures r > 0 <==> exists i :: 0 <= i < |rows| && StartsWith(Upper(Services.CellText(rows[i], "control_ref")), "GV.")
  {
    if rows == [] then 0
    else
      var n := |rows| - 1;
      var init := GvCount(rows[..n]);
      assert forall i :: 0 <= i < n ==> rows[..n][i] == rows[i];
      init + (if StartsWith(Upper(Services.CellText(rows[n], "control_ref")), "GV.") then 1 else 0)
  }

  /** The GV rows counted from the internal frame, when it is present, not
      empty and has a `control_ref` column. */
  function GvPart(internalGv: Option<seq<Json>>): nat
  {
    match internalGv
    case None => 0
    case Some(rows) =>
      var cols := Services.Columns(rows);
      if rows != [] && cols != [] && "control_ref" in cols then GvCount(rows) else 0
  }

  // ------------------------------------------------------- the reference

  /** The findings' type values counted, when the frame has a type column
      and rows. */
  function TypeSource(findings: Option<seq<Json>>): Option<seq<string>>
  {
    var rows := if findings.None? then [] else findings.value;
    match Services.Pick(Services.Columns(rows), Services.TypeColumns)
    case None => None
    case Some(col) => if rows != [] then Some(TypeValues(rows, col)) else None
  }

  /** What the findings add to the count of `fname`: one for each control
      of each finding's type whose function is `fname`. */
  function TypePart(table: Table<seq<string>>, findings: Option<seq<Json>>, fname: string): nat
  {
    match TypeSource(findings)
    case None => 0
    case Some(values) => RowSum(values, PerValue(table, GetFunctionFromCodeOrRef, fname))
  }

  /** The count `func_counts` should hold for `fname`, stated row by row:
      every finding adds one for each control of its type whose function is
      `fname`, and `GV` gains the internal GV rows. */
  function Expected(table: Table<seq<string>>, findings: Option<seq<Json>>, internalGv: Option<seq<Json>>, fname: string): nat
  {
    TypePart(table, findings, fname) + (if fname == "GV" then GvPart(internalGv) else 0)
  }

  /** No function without a name is ever counted. */
  lemma ExpectedNamed(table: Table<seq<string>>, findings: Option<seq<Json>>, internalGv: Option<seq<Json>>)
    ensures Expected(table, findings, internalGv, "") == 0
  {
    match TypeSource(findings)
    case None =>
    case Some(values) => RowSumZero(values, PerValue(table, GetFunctionFromCodeOrRef, ""));
  }

  lemma {:induction false} RowSumZero(values: seq<string>, g: string -> nat)
    requires forall v :: g(v) == 0
    ensures RowSum(values, g) == 0
  {
    if values != [] {
      RowSumZero(values[..|values| - 1], g);
    }
  }

  // ------------------------------------------------------------ the loops

  /** `func_counts.get(fn, 0)`. */
  function Lookup(counts: map<string, nat>, fname: string): nat
  {
    if fname in counts then counts[fname] else 0
  }

  /** A dict whose every key has a positive count and none is `""`. */
  predicate Positive(counts: map<string, nat>)
  {
    "" !in counts && forall fname :: fname in counts ==> counts[fname] > 0
  }

  /** The inner loop: `n` added to the function of each code, skipping codes
      without one. */
  method AddCodes(counts0: map<string, nat>, codes: seq<string>, n: nat, fnOf: string -> string) returns (counts: map<string, nat>)
    requires n > 0 && Positive(counts0)
    ensures Positive(counts)
    ensures forall fname :: Lookup(counts, fname) == Lookup(counts0, fname) + n * CodeCount(codes, fnOf, fname)
  {
    counts := counts0;
    var j := 0;
    while j < |codes|
      invariant 0 <= j <= |codes|
      invariant Positive(counts)
      invariant AddedUpTo(counts, counts0, codes, fnOf, n, j)
    {
      AddCodeStep(counts, counts0, codes, fnOf, n, j);
      var fname := fnOf(codes[j]);
      if fname != "" {
        counts := counts[fname := Lookup(counts, fname) + n];
      }
      j := j + 1;
    }
    assert codes[..j] == codes;
  }

  /** `counts` is `counts0` with `n` added for each of the first `j` codes. */
  ghost predicate AddedUpTo(counts: map<string, nat>, counts0: map<string, nat>, codes: seq<string>, fnOf: string -> string, n: nat, j: nat)
    requires j <= |codes|
  {
    forall fname :: Lookup(counts, fname) == Lookup(counts0, fname) + n * CodeCount(codes[..j], fnOf, fname)
  }

  /** One code of `AddCodes`: the counts stay positive and take in code `j`. */
  lemma AddCodeStep(counts: map<string, nat>, counts0: map<string, nat>, codes: seq<string>, fnOf: string -> string, n: nat, j: nat)
    requires j < |codes| && n > 0 && Positive(counts) && AddedUpTo(counts, counts0, codes, fnOf, n, j)
    ensures var fname := fnOf(codes[j]);
      var next := if fname != "" then counts[fname := Lookup(counts, fname) + n] else counts;
      Positive(next) && AddedUpTo(next, counts0, codes, fnOf, n, j + 1)
  {
    var fname := fnOf(codes[j]);
    var next := if fname != "" then counts[fname := Lookup(counts, fname) + n] else counts;
    forall g
      ensures Lookup(next, g) == Lookup(counts0, g) + n * CodeCount(codes[..j + 1], fnOf, g)
    {
      AddCodeAt(counts, counts0, codes, fnOf, n, j, g);
    }
    assert AddedUpTo(next, counts0, codes, fnOf, n, j + 1);
  }

  /** `AddCodeStep` for the count of one function `g`. */
  lemma AddCodeAt(counts: map<string, nat>, counts0: map<string, nat>, codes: seq<string>, fnOf: string -> string, n: nat, j: nat, g: string)
    requires j < |codes| && AddedUpTo(counts, counts0, codes, fnOf, n, j)
    ensures var fname := fnOf(codes[j]);
      var next := if fname != "" then counts[fname := Lookup(counts, fname) + n] else counts;
      Lookup(next, g) == Lookup(counts0, g) + n * CodeCount(codes[..j + 1], fnOf, g)
  {
    var fname := fnOf(codes[j]);
    var c := CodeCount(codes[..j], fnOf, g);
    assert Lookup(counts, g) == Lookup(counts0, g) + n * c;
    assert codes[..j + 1][..j] == codes[..j];
    assert CodeCount(codes[..j + 1], fnOf, g) == c + (if g != "" && fname == g then 1 else 0);
    if g != "" && fname == g {
      MulSucc(n, c);
    }
  }

  lemma MulSucc(a: nat, b: nat)
    ensures a * (b + 1) == a * b + a
  {
  }

  /** The outer loop over the frequency table. */
  method CountFunctions(freq: seq<(string, nat)>, table: Table<seq<string>>, fnOf: string -> string) returns (counts: map<string, nat>)
    requires forall k :: 0 <= k < |freq| ==> freq[k].1 > 0
    ensures Positive(counts)
    ensures forall fname :: Lookup(counts, fname) == GroupSum(freq, PerValue(table, fnOf, fname))
  {
    counts := map[];
    var i := 0;
    while i < |freq|
      invariant 0 <= i <= |freq|
      invariant Positive(counts)
      invariant forall fname :: Lookup(counts, fname) == GroupSum(freq[..i], PerValue(table, fnOf, fname))
    {
      assert freq[..i + 1][..i] == freq[..i];
      var codes := CodesOf(table, freq[i].0);
      counts := AddCodes(counts, codes, freq[i].1, fnOf);
      i := i + 1;
    }
    assert freq[..i] == freq;
  }

  /** `csf_function_distribution_chart` as a count per function, or the
      placeholder for no data. */
  datatype FunctionCountsOut = NoFunctionData | FunctionCounts(counts: map<string, nat>)

  /** Steps 1 to 3: the type values counted, grouped by value, into the
      functions of their controls. */
  method TypeCounts(table: Table<seq<string>>, findings: Option<seq<Json>>) returns (counts: map<string, nat>)
    ensures Positive(counts)
    ensures forall fname :: Lookup(counts, fname) == TypePart(table, findings, fname)
  {
    var rows := if findings.None? then [] else findings.value;
    var typeCol := Services.Pick(Services.Columns(rows), Services.TypeColumns);
    counts := map[];
    if typeCol.Some? && rows != [] {
      var values := TypeValues(rows, typeCol.value);
      ValueCountsMeaning(values);
      counts := CountFunctions(ValueCounts(values), table, GetFunctionFromCodeOrRef);
      forall fname
        ensures Lookup(counts, fname) == RowSum(values, PerValue(table, GetFunctionFromCodeOrRef, fname))
      {
        ValueCountsTotal(values, PerValue(table, GetFunctionFromCodeOrRef, fname));
      }
    }
  }

  /** Step 4: the internal GV rows added to `GV`, only when there are some. */
  method AddGvRows(counts0: map<string, nat>, internalGv: Option<seq<Json>>) returns (counts: map<string, nat>)
    requires Positive(counts0)
    ensures Positive(counts)
    ensures forall fname :: Lookup(counts, fname) == Lookup(counts0, fname) + (if fname == "GV" then GvPart(internalGv) else 0)
  {
    counts := counts0;
    if internalGv.Some? && internalGv.value != [] && Services.Columns(internalGv.value) != [] {
      if "control_ref" in Services.Columns(internalGv.value) {
        var gvN := GvCount(internalGv.value);
        if gvN > 0 {
          counts := counts["GV" := Lookup(counts, "GV") + gvN];
        }
      }
    }
  }

  /** `csf_function_distribution_chart` up to the counts: each function has
      the count `Expected` states, only functions with a positive count are
      listed, and the placeholder comes exactly when no function has one. */
  method CsfFunctionDistributionChart(table: Table<seq<string>>, findings: Option<seq<Json>>, internalGv: Option<seq<Json>>)
    returns (out: FunctionCountsOut)
    ensures out.NoFunctionData? <==> forall fname :: Expected(table, findings, internalGv, fname) == 0
    ensures out.FunctionCounts? ==> forall fname ::
      Lookup(out.counts, fname) == Expected(table, findings, internalGv, fname)
      && (fname in out.counts <==> Expected(table, findings, internalGv, fname) > 0)
  {
    var counts := TypeCounts(table, findings);
    counts := AddGvRows(counts, internalGv);
    assert forall fname :: Lookup(counts, fname) == Expected(table, findings, internalGv, fname);
    if counts == map[] {
      return NoFunctionData;
    }
    var some :| some in counts;
    assert Expected(table, findings, internalGv, some) > 0;
    out := FunctionCounts(counts);
  }

  // ----------------------------------------------- the category score chart

  /** `col_map.get(k1) or col_map.get(k2) or ...`: the first key that some
      column lowercases to. */
  function FirstLower(columns: seq<string>, keys: seq<string>): (r: Option<string>)
    ensures r.Some? ==> r.value in columns && Lower(r.value) in keys
    ensures r.None? <==> forall c :: c in columns ==> Lower(c) !in keys
  {
    if keys == [] then None
    else match ChartsHelpers.LowerLookup(columns, keys[0])
      case Some(c) => Some(c)
      case None =>
        var r := FirstLower(columns, keys[1..]);
        assert forall c :: Lower(c) in keys <==> Lower(c) == keys[0] || Lower(c) in keys[1..];
        r
  }

  const ScoreKeys: seq<string> := ["category_score", "score", "value"]
  const GpaKeys: seq<string> := ["category_gpa", "gpa"]

  /** The category and score columns, or `None` when the chart is not
      drawn. */
  function ScoreChartColumns(columns: seq<string>): Option<(string, string)>
  {
    var categoryCol := match ChartsHelpers.LowerLookup(columns, "category") case Some(c) => c case None => "Category";
    var scoreCol := match FirstLower(columns, ScoreKeys) case Some(c) => c case None => "Score";
    if categoryCol !in columns then None
    else if scoreCol in columns then Some((categoryCol, scoreCol))
    else match FirstLower(columns, GpaKeys)
      case Some(alt) => if alt in columns then Some((categoryCol, alt)) else None
      case None => None
  }

  /** The columns are found case-insensitively; the score column is a
      `category_score`/`score`/`value` column, a `category_gpa`/`gpa` column
      only when there is none of those; the chart is dropped exactly when
      either kind of column is missing. */
  lemma ScoreChartColumnsMeaning(columns: seq<string>)
    ensures ScoreChartColumns(columns).Some? ==>
      var (cat, score) := ScoreChartColumns(columns).value;
      cat in columns && Lower(cat) == "category" && score in columns && (Lower(score) in ScoreKeys || Lower(score) in GpaKeys)
    ensures ScoreChartColumns(columns).Some? && Lower(ScoreChartColumns(columns).value.1) !in ScoreKeys ==>
      forall c :: c in columns ==> Lower(c) !in ScoreKeys
    ensures ScoreChartColumns(columns).None? <==>
      (forall c :: c in columns ==> Lower(c) != "category") || (forall c :: c in columns ==> Lower(c) !in ScoreKeys && Lower(c) !in GpaKeys)
  {
    assert Lower("Category") == "category";
    assert Lower("Score") == "score";
  }

  /** What `company_category_scores_chart` draws: the two columns and the
      chart's height. */
  datatype ScoreChart = ScoreChart(categoryCol: string, scoreCol: string, height: int)

  /** `max(height_per_bar * len(work), 200)`. */
  function BarHeight(heightPerBar: int, n: nat): (h: int)
    ensures h >= 200 && h >= heightPerBar * n
    ensures h == 200 || h == heightPerBar * n
  {
    if heightPerBar * n > 200 then heightPerBar * n else 200
  }

  /** `company_category_scores_chart` up to its columns and height; `None`
      for an empty frame or a missing column. */
  function CompanyCategoryScoresChart(rows: seq<Json>, heightPerBar: int): (r: Option<ScoreChart>)
    ensures rows == [] ==> r.None?
    ensures r.Some? ==> ScoreChartColumns(Services.Columns(rows)) == Some((r.value.categoryCol, r.value.scoreCol))
    ensures r.Some? ==> r.value.height >= 200 && r.value.height >= heightPerBar * |rows|
  {
    var cols := Services.Columns(rows);
    if rows == [] || cols == [] then None
    else match ScoreChartColumns(cols)
      case None => None
      case Some(pair) => Some(ScoreChart(pair.0, pair.1, BarHeight(heightPerBar, |rows|)))
  }
}
