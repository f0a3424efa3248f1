/** The data behind `render_l2_domains_table`: the internal scan's CMM
    ratings averaged per L2 domain, labelled by maturity band, ordered by
    CSF function and domain, with the four band counts and the function
    cell blanked where it repeats. */
module L2MappingTable {
  import opened Text
  import opened JsonValue
  import opened Helpers
  import opened NistMappings
  import opened NistHelpers
  import DataframeUtils
  import InternalCsfCharts
  import Services

  // ------------------------------------------------------- maturity bands

  const Weak: string := "Weak"
  const Marginal: string := "Marginal"
  const MarginalStrong: string := "Marginal/Strong"
  const Strong: string := "Strong"
  const RedCircle: string := "\U{1F534}"
  const YellowCircle: string := "\U{1F7E1}"
  const GreenCircle: string := "\U{1F7E2}"

  /** The bands from weakest to strongest. */
  const Bands: seq<string> := [Weak, Marginal, MarginalStrong, Strong]

  /** `get_maturity_label(rating)`: the band and its indicator. */
  function MaturityLabel(rating: real): (m: (string, string))
    ensures m.0 in Bands
    ensures m.0 == Weak <==> rating < 2.0
    ensures m.0 == Marginal <==> 2.0 <= rating < 3.0
    ensures m.0 == MarginalStrong <==> 3.0 <= rating < 3.5
    ensures m.0 == Strong <==> 3.5 <= rating
    ensures m.1 == (if m.0 == Weak then RedCircle else if m.0 == Marginal then YellowCircle else GreenCircle)
  {
    if rating < 2.0 then (Weak, RedCircle)
    else if rating < 3.0 then (Marginal, YellowCircle)
    else if rating < 3.5 then (MarginalStrong, GreenCircle)
    else (Strong, GreenCircle)
  }

  /** A higher rating never gets a weaker band. */
  lemma MaturityMonotone(a: real, b: real)
    requires a <= b
    ensures InternalCsfCharts.IndexOf(Bands, MaturityLabel(a).0) <= InternalCsfCharts.IndexOf(Bands, MaturityLabel(b).0)
  {
  }

  // ------------------------------------------------------------- the frame

  /** The records and column names of `to_df(raw_data)`, or `None` for a
      frame that `.empty` reports empty. */
  function CmmFrame(raw: Json): (r: Option<(seq<Json>, seq<string>)>)
    ensures r.Some? ==> r.value.0 != [] && r.value.1 != []
  {
    match DataframeUtils.ToDfRows(raw)
    case RecordRows(recs) =>
      var cols := Services.Columns(recs);
      if recs == [] || cols == [] then None else Some((recs, cols))
    case ValueColumn(c, vs) =>
      if vs == [] then None else Some((seq(|vs|, i requires 0 <= i < |vs| => JObj([(c, vs[i])])), [c]))
    case _ => None
  }

  /** The company filter: `company_id` compared as text, when an id is
      selected and the column exists. */
  function FilterCompany(recs: seq<Json>, cols: seq<string>, selected: Option<Json>): (r: seq<Json>)
    ensures selected.Some? && "company_id" in cols ==>
      forall x :: x in r <==> x in recs && Services.CellText(x, "company_id") == Str(selected.value)
    ensures selected.None? || "company_id" !in cols ==> r == recs
  {
    if selected.Some? && "company_id" in cols then Services.KeepEqual(recs, "company_id", Str(selected.value))
    else recs
  }

  const RequiredCols: seq<string> := ["control_ref", "cmm_rating"]

  /** `missing_cols`: the required columns absent, in order. */
  function MissingCols(cols: seq<string>): (r: seq<string>)
    ensures forall c :: c in r <==> c in RequiredCols && c !in cols
  {
    (if "control_ref" in cols then [] else ["control_ref"]) + (if "cmm_rating" in cols then [] else ["cmm_rating"])
  }

  // ---------------------------------------------------------- the domains

  /** `.unique()`: each value once, in the order of first appearance. */
  function FirstSeen<T(==, !new)>(s: seq<T>): (r: seq<T>)
    ensures forall x :: x in r <==> x in s
    ensures forall i, j :: 0 <= i < j < |r| ==> r[i] != r[j]
  {
    if s == [] then []
    else
      var n := |s| - 1;
      var init := FirstSeen(s[..n]);
      assert s == s[..n] + [s[n]];
      if s[n] in init then init else init + [s[n]]
  }

  /** `df_cmm["domain"].dropna()`: the present, non-null domain cells. */
  function DomainCells(recs: seq<Json>): (r: seq<Json>)
    ensures forall v :: v in r ==> !v.JNull?
  {
    if recs == [] then []
    else
      var n := |recs| - 1;
      var cell := At(recs[n], "domain");
      DomainCells(recs[..n]) + (if Has(recs[n], "domain") && !cell.JNull? then [cell] else [])
  }

  /** `df_cmm[df_cmm["domain"] == d]`: the records of one domain. */
  function DomainData(recs: seq<Json>, d: Json): (r: seq<Json>)
    ensures |r| <= |recs|
    ensures forall x :: x in r <==> x in recs && Has(x, "domain") && At(x, "domain") == d
  {
    if recs == [] then []
    else
      var n := |recs| - 1;
      assert recs == recs[..n] + [recs[n]];
      var hit := Has(recs[n], "domain") && At(recs[n], "domain") == d;
      DomainData(recs[..n], d) + (if hit then [recs[n]] else [])
  }

  /** The numeric `cmm_rating`s of some records, in order; the others are
      skipped. */
  function RatingsOf(data: seq<Json>): (r: seq<real>)
    ensures |r| <= |data|
  {
    if data == [] then []
    else
      var n := |data| - 1;
      RatingsOf(data[..n]) + (match ToFloat(At(data[n], "cmm_rating")) case Some(x) => [x] case None => [])
  }

  /** The function name for a domain's first control: the full name of its
      function code, the code itself when it has none. */
  function FunctionOfCell(v: Json): string
  {
    var code := if !Truthy(v) then "" else GetFunctionFromCodeOrRef(Str(v));
    match Get(CsfL1FunctionFull, code)
    case Some(name) => name
    case None => code
  }

  /** One aggregated domain: its function, the mean rating and how many
      ratings it has. */
  datatype DomainRating = DomainRating(func: string, domain: Json, rating: real, controlCount: nat)

  /** The domain's row, when it has a numeric rating. */
  function DomainRow(recs: seq<Json>, d: Json): (r: Option<DomainRating>)
    ensures r.None? <==> RatingsOf(DomainData(recs, d)) == []
    ensures r.Some? ==> r.value.domain == d && r.value.controlCount == |RatingsOf(DomainData(recs, d))|
    ensures r.Some? ==> r.value.rating == DataframeUtils.Mean(RatingsOf(DomainData(recs, d)))
  {
    var data := DomainData(recs, d);
    var ratings := RatingsOf(data);
    if ratings == [] then None
    else Some(DomainRating(FunctionOfCell(At(data[0], "control_ref")), d, DataframeUtils.Mean(ratings), |ratings|))
  }

  /** `domain_ratings` after the loop over the unique domains. */
  function Aggregate(recs: seq<Json>, domains: seq<Json>): (r: seq<DomainRating>)
    ensures |r| <= |domains|
  {
    if domains == [] then []
    else
      var n := |domains| - 1;
      Aggregate(recs, domains[..n]) + (match DomainRow(recs, domains[n]) case Some(row) => [row] case None => [])
  }

  /** Every row is a listed domain's row, and every listed domain with a
      numeric rating has one. */
  lemma {:induction false} AggregateMeaning(recs: seq<Json>, domains: seq<Json>)
    ensures forall k :: 0 <= k < |Aggregate(recs, domains)| ==>
      Aggregate(recs, domains)[k].domain in domains && DomainRow(recs, Aggregate(recs, domains)[k].domain) == Some(Aggregate(recs, domains)[k])
    ensures forall d :: d in domains && RatingsOf(DomainData(recs, d)) != [] ==> DomainRow(recs, d).value in Aggregate(recs, domains)
  {
    if domains != [] {
      var n := |domains| - 1;
      AggregateMeaning(recs, domains[..n]);
      assert domains == domains[..n] + [domains[n]];
    }
  }

  lemma {:induction false} RatingsBounded(data: seq<Json>, lo: real, hi: real)
    requires forall x :: x in data && ToFloat(At(x, "cmm_rating")).Some? ==> lo <= ToFloat(At(x, "cmm_rating")).value <= hi
    ensures forall i :: 0 <= i < |RatingsOf(data)| ==> lo <= RatingsOf(data)[i] <= hi
  {
    if data != [] {
      var n := |data| - 1;
      assert forall x :: x in data[..n] ==> x in data;
      RatingsBounded(data[..n], lo, hi);
    }
  }

  /** Averaging keeps the ratings' range: when every numeric rating lies in
      `[lo, hi]`, so does every domain's rating. */
  lemma AggregateBounded(recs: seq<Json>, domains: seq<Json>, lo: real, hi: real)
    requires forall x :: x in recs && ToFloat(At(x, "cmm_rating")).Some? ==> lo <= ToFloat(At(x, "cmm_rating")).value <= hi
    ensures forall k :: 0 <= k < |Aggregate(recs, domains)| ==> lo <= Aggregate(recs, domains)[k].rating <= hi
  {
    AggregateMeaning(recs, domains);
    forall k | 0 <= k < |Aggregate(recs, domains)|
      ensures lo <= Aggregate(recs, domains)[k].rating <= hi
    {
      var data := DomainData(recs, Aggregate(recs, domains)[k].domain);
      RatingsBounded(data, lo, hi);
      DataframeUtils.MeanBounds(RatingsOf(data), lo, hi);
    }
  }

  // ------------------------------------------------------------ ordering

  const FunctionOrder: seq<string> := ["Govern", "Identify", "Protect", "Detect", "Respond", "Recover"]

  /** `other_functions`: the functions outside the fixed order, in order of
      first appearance. */
  function Others(rows: seq<DomainRating>): seq<string>
  {
    FirstSeen(OtherNames(rows))
  }

  function OtherNames(rows: seq<DomainRating>): (r: seq<string>)
    ensures forall f :: f in r <==> f !in FunctionOrder && exists k :: 0 <= k < |rows| && rows[k].func == f
  {
    if rows == [] then []
    else
      var n := |rows| - 1;
      var init := OtherNames(rows[..n]);
      assert forall k :: 0 <= k < n ==> rows[..n][k] == rows[k];
      init + (if rows[n].func !in FunctionOrder then [rows[n].func] else [])
  }

  /** A function's position among the categories: the fixed order first,
      then the others. */
  function Rank(others: seq<string>, f: string): nat
  {
    if f in FunctionOrder then InternalCsfCharts.IndexOf(FunctionOrder, f)
    else |FunctionOrder| + InternalCsfCharts.IndexOf(others, f)
  }

  /** `sort_values(["function", "domain"])`'s order on rows. */
  predicate RowLe(others: seq<string>, a: DomainRating, b: DomainRating)
  {
    Rank(others, a.func) < Rank(others, b.func)
    || (Rank(others, a.func) == Rank(others, b.func) && StrLe(Str(a.domain), Str(b.domain)))
  }

  predicate RowsSorted(others: seq<string>, s: seq<DomainRating>)
  {
    forall i, j :: 0 <= i < j < |s| ==> RowLe(others, s[i], s[j])
  }

  lemma RowLeTotal(others: seq<string>, a: DomainRating, b: DomainRating)
    ensures RowLe(others, a, b) || RowLe(others, b, a)
  {
    StrLeTotal(Str(a.domain), Str(b.domain));
  }

  lemma RowLeTrans(others: seq<string>, a: DomainRating, b: DomainRating, c: DomainRating)
    requires RowLe(others, a, b) && RowLe(others, b, c)
    ensures RowLe(others, a, c)
  {
    if Rank(others, a.func) == Rank(others, b.func) == Rank(others, c.func) {
      StrLeTrans(Str(a.domain), Str(b.domain), Str(c.domain));
    }
  }

  function InsertRow(others: seq<string>, x: DomainRating, s: seq<DomainRating>): (r: seq<DomainRating>)
    ensures multiset(r) == multiset(s) + multiset{x}
  {
    if s == [] then [x]
    else if RowLe(others, x, s[0]) then [x] + s
    else
      assert s == [s[0]] + s[1..];
      [s[0]] + InsertRow(others, x, s[1..])
  }

  lemma {:induction false} InsertRowSorted(others: seq<string>, x: DomainRating, s: seq<DomainRating>)
    requires RowsSorted(others, s)
    ensures RowsSorted(others, InsertRow(others, x, s))
    decreases |s|
  {
    if s != [] {
      if RowLe(others, x, s[0]) {
        var r := [x] + s;
        forall i, j | 0 <= i < j < |r| ensures RowLe(others, r[i], r[j]) {
          if i == 0 && j > 1 {
            RowLeTrans(others, x, s[0], s[j - 1]);
          }
        }
      } else {
        RowLeTotal(others, x, s[0]);
        InsertRowSorted(others, x, s[1..]);
        var t := InsertRow(others, x, s[1..]);
        var r := [s[0]] + t;
        forall i, j | 0 <= i < j < |r| ensures RowLe(others, r[i], r[j]) {
          if i == 0 {
            assert r[j] in multiset(t);
            assert r[j] in multiset(s[1..]) + multiset{x};
            if r[j] != x {
              assert r[j] in s[1..];
              var k :| 0 <= k < |s[1..]| && s[1..][k] == r[j];
              assert s[k + 1] == r[j];
            }
          }
        }
      }
    }
  }

  /** The rows in `(function, domain)` order. */
  function SortRows(others: seq<string>, s: seq<DomainRating>): (r: seq<DomainRating>)
    ensures multiset(r) == multiset(s)
    ensures |r| == |s|
  {
    if s == [] then []
    else
      assert s == [s[0]] + s[1..];
      var r := InsertRow(others, s[0], SortRows(others, s[1..]));
      assert |r| == |multiset(r)| == |multiset(s)| == |s|;
      r
  }

  lemma {:induction false} SortRowsSorted(others: seq<string>, s: seq<DomainRating>)
    ensures RowsSorted(others, SortRows(others, s))
  {
    if s != [] {
      SortRowsSorted(others, s[1..]);
      InsertRowSorted(others, s[0], SortRows(others, s[1..]));
    }
  }

  /** The ordered rows are the aggregated rows, sorted; the six functions
      come first, in their fixed order, then the others. */
  lemma OrderedRows(rows: seq<DomainRating>)
    ensures multiset(SortRows(Others(rows), rows)) == multiset(rows)
    ensures RowsSorted(Others(rows), SortRows(Others(rows), rows))
    ensures var s := SortRows(Others(rows), rows);
      forall i, j :: 0 <= i < j < |s| && s[j].func in FunctionOrder ==>
        s[i].func in FunctionOrder && InternalCsfCharts.IndexOf(FunctionOrder, s[i].func) <= InternalCsfCharts.IndexOf(FunctionOrder, s[j].func)
  {
    SortRowsSorted(Others(rows), rows);
  }

  // ------------------------------------------------------------ summary

  datatype Summary = Summary(weak: nat, marginal: nat, marginalStrong: nat, strong: nat)

  /** The four metrics, counted with the thresholds as written. */
  function SummaryOf(rows: seq<DomainRating>): Summary
  {
    if rows == [] then Summary(0, 0, 0, 0)
    else
      var n := |rows| - 1;
      var s := SummaryOf(rows[..n]);
      var x := rows[n].rating;
      Summary(s.weak + (if x < 2.0 then 1 else 0),
              s.marginal + (if 2.0 <= x && x < 3.0 then 1 else 0),
              s.marginalStrong + (if 3.0 <= x && x < 3.5 then 1 else 0),
              s.strong + (if x >= 3.5 then 1 else 0))
  }

  /** How many rows get the band `band`. */
  function LabelCount(rows: seq<DomainRating>, band: string): nat
  {
    if rows == [] then 0
    else
      var n := |rows| - 1;
      LabelCount(rows[..n], band) + (if MaturityLabel(rows[n].rating).0 == band then 1 else 0)
  }

  /** Each metric counts the rows shown with that band, and the four
      together count every row once. */
  lemma {:induction false} SummaryPartition(rows: seq<DomainRating>)
    ensures SummaryOf(rows).weak == LabelCount(rows, Weak)
    ensures SummaryOf(rows).marginal == LabelCount(rows, Marginal)
    ensures SummaryOf(rows).marginalStrong == LabelCount(rows, MarginalStrong)
    ensures SummaryOf(rows).strong == LabelCount(rows, Strong)
    ensures SummaryOf(rows).weak + SummaryOf(rows).marginal + SummaryOf(rows).marginalStrong + SummaryOf(rows).strong == |rows|
  {
    if rows != [] {
      SummaryPartition(rows[..|rows| - 1]);
    }
  }

  // ------------------------------------------------------------ blanking

  /** The function column after the loop: a cell equal to the one above it
      is blanked. */
  function Blanked(funcs: seq<string>): (r: seq<string>)
    ensures |r| == |funcs|
  {
    seq(|funcs|, i requires 0 <= i < |funcs| => if i > 0 && funcs[i] == funcs[i - 1] then "" else funcs[i])
  }

  /** Reading the column down, a blank repeats the function above it. */
  function Filled(cells: seq<string>): (r: seq<string>)
    ensures |r| == |cells|
  {
    if cells == [] then []
    else
      var n := |cells| - 1;
      var init := Filled(cells[..n]);
      init + [if cells[n] == "" && n > 0 then init[n - 1] else cells[n]]
  }

  /** Blanking loses nothing: when no function is empty, filling the blanks
      back in gives the functions again. */
  lemma {:induction false} FilledBlanked(funcs: seq<string>)
    requires forall i :: 0 <= i < |funcs| ==> funcs[i] != ""
    ensures Filled(Blanked(funcs)) == funcs
  {
    if funcs != [] {
      var n := |funcs| - 1;
      assert Blanked(funcs)[..n] == Blanked(funcs[..n]);
      FilledBlanked(funcs[..n]);
    }
  }

  /** The loop over the rows with `prev_function`. */
  method MergeFunctions(funcs: seq<string>) returns (cells: seq<string>)
    ensures cells == Blanked(funcs)
  {
    cells := [];
    var prev: Option<string> := None;
    var i := 0;
    while i < |funcs|
      invariant 0 <= i <= |funcs|
      invariant cells == Blanked(funcs)[..i]
      invariant prev == if i == 0 then None else Some(funcs[i - 1])
    {
      if prev == Some(funcs[i]) {
        cells := cells + [""];
      } else {
        cells := cells + [funcs[i]];
        prev := Some(funcs[i]);
      }
      i := i + 1;
    }
  }

  // ------------------------------------------------------------ the table

  /** A displayed row. */
  datatype DisplayRow = DisplayRow(func: string, domain: Json, rating: real, band: string, indicator: string)

  /** What the table shows, or why it does not. */
  datatype L2Out = NoCmmData | MissingColumns(missing: seq<string>) | L2Raised | NoValidData | L2Table(rows: seq<DisplayRow>, summary: Summary)

  function Functions(rows: seq<DomainRating>): (r: seq<string>)
    ensures |r| == |rows|
    ensures forall i :: 0 <= i < |rows| ==> r[i] == rows[i].func
  {
    seq(|rows|, i requires 0 <= i < |rows| => rows[i].func)
  }

  function Display(rows: seq<DomainRating>, cells: seq<string>): (r: seq<DisplayRow>)
    requires |cells| == |rows|
    ensures |r| == |rows|
  {
    seq(|rows|, i requires 0 <= i < |rows| =>
      DisplayRow(cells[i], rows[i].domain, rows[i].rating, MaturityLabel(rows[i].rating).0, MaturityLabel(rows[i].rating).1))
  }

  /** `render_l2_domains_table(selected_company_id)` over `raw`, what
      `get_internal_scan` returned. */
  function L2DomainsTable(raw: Json, selected: Option<Json>): L2Out
  {
    match CmmFrame(raw)
    case None => NoCmmData
    case Some((recs0, cols)) =>
      var recs := FilterCompany(recs0, cols, selected);
      if MissingCols(cols) != [] then MissingColumns(MissingCols(cols))
      else if "domain" !in cols then L2Raised
      else RatedTable(recs)
  }

  /** The aggregation over the company's records, once the columns are
      known to be there: `unique()` raises on a list or dict domain. */
  function RatedTable(recs: seq<Json>): L2Out
  {
    var cells := DomainCells(recs);
    if exists v :: v in cells && !Hashable(v) then L2Raised
    else
      var agg := Aggregate(recs, FirstSeen(cells));
      if agg == [] then NoValidData else TableOf(agg)
  }

  /** The table shown for the aggregated rows: sorted, labelled, counted,
      and with repeated functions blanked. */
  function TableOf(agg: seq<DomainRating>): L2Out
  {
    var sorted := SortRows(Others(agg), agg);
    L2Table(Display(sorted, Blanked(Functions(sorted))), SummaryOf(sorted))
  }

  /** The table is withheld for an empty scan, for missing required
      columns (listed in order), and when no domain has a numeric rating;
      a scan without a `domain` column raises. */
  lemma L2Cases(raw: Json, selected: Option<Json>)
    ensures CmmFrame(raw).None? ==> L2DomainsTable(raw, selected) == NoCmmData
    ensures CmmFrame(raw).Some? && MissingCols(CmmFrame(raw).value.1) != [] ==>
      L2DomainsTable(raw, selected) == MissingColumns(MissingCols(CmmFrame(raw).value.1))
    ensures CmmFrame(raw).Some? && MissingCols(CmmFrame(raw).value.1) == [] && "domain" !in CmmFrame(raw).value.1 ==>
      L2DomainsTable(raw, selected) == L2Raised
  {
  }

  /** A shown table has a row per aggregated domain, each labelled with the
      band of its rating, and the four metrics add up to the rows shown. */
  lemma TableOfMeaning(agg: seq<DomainRating>)
    ensures |TableOf(agg).rows| == |agg|
    ensures TableOf(agg).summary.weak + TableOf(agg).summary.marginal + TableOf(agg).summary.marginalStrong
      + TableOf(agg).summary.strong == |TableOf(agg).rows|
    ensures forall i :: 0 <= i < |TableOf(agg).rows| ==> TableOf(agg).rows[i].band == MaturityLabel(TableOf(agg).rows[i].rating).0
  {
    SummaryPartition(SortRows(Others(agg), agg));
  }

  /** A shown table is `TableOf` the rows of the domains with a numeric
      rating. */
  lemma L2TableRows(raw: Json, selected: Option<Json>)
    requires L2DomainsTable(raw, selected).L2Table?
    ensures var (recs0, cols) := CmmFrame(raw).value;
      var recs := FilterCompany(recs0, cols, selected);
      var agg := Aggregate(recs, FirstSeen(DomainCells(recs)));
      agg != [] && L2DomainsTable(raw, selected) == TableOf(agg)
  {
    var (recs0, cols) := CmmFrame(raw).value;
    var recs := FilterCompany(recs0, cols, selected);
    assert L2DomainsTable(raw, selected) == RatedTable(recs);
  }

  // ------------------------------------------------------------ the loops

  /** The inner loop over a domain's records collecting numeric ratings. */
  method CollectRatings(data: seq<Json>) returns (ratings: seq<real>)
    ensures ratings == RatingsOf(data)
  {
    ratings := [];
    var i := 0;
    while i < |data|
      invariant 0 <= i <= |data|
      invariant ratings == RatingsOf(data[..i])
    {
      assert data[..i + 1][..i] == data[..i];
      var rating := ToFloat(At(data[i], "cmm_rating"));
      if rating.Some? {
        ratings := ratings + [rating.value];
      }
      i := i + 1;
    }
    assert data[..i] == data;
  }

  /** The loop over the unique domains appending a row for each domain
      with a numeric rating. */
  method AggregateDomains(recs: seq<Json>, domains: seq<Json>) returns (rows: seq<DomainRating>)
    ensures rows == Aggregate(recs, domains)
  {
    rows := [];
    var i := 0;
    while i < |domains|
      invariant 0 <= i <= |domains|
      invariant rows == Aggregate(recs, domains[..i])
    {
      assert domains[..i + 1][..i] == domains[..i];
      var data := DomainData(recs, domains[i]);
      var ratings := CollectRatings(data);
      if ratings != [] {
        var avg := DataframeUtils.Mean(ratings);
        var functionName := FunctionOfCell(At(data[0], "control_ref"));
        rows := rows + [DomainRating(functionName, domains[i], avg, |ratings|)];
      }
      i := i + 1;
    }
    assert domains[..i] == domains;
  }

  /** `render_l2_domains_table` up to what it displays. */
  method RenderL2DomainsTable(raw: Json, selected: Option<Json>) returns (out: L2Out)
    ensures out == L2DomainsTable(raw, selected)
  {
    var frame := CmmFrame(raw);
    if frame.None? {
      return NoCmmData;
    }
    var (recs0, cols) := frame.value;
    var recs := FilterCompany(recs0, cols, selected);
    var missing := MissingCols(cols);
    if missing != [] {
      return MissingColumns(missing);
    }
    if "domain" !in cols {
      return L2Raised;
    }
    out := BuildRatedTable(recs);
  }

  /** From the unique domains to the table. */
  method BuildRatedTable(recs: seq<Json>) returns (out: L2Out)
    ensures out == RatedTable(recs)
  {
    var cells := DomainCells(recs);
    if exists v :: v in cells && !Hashable(v) {
      return L2Raised;
    }
    var agg := AggregateDomains(recs, FirstSeen(cells));
    if agg == [] {
      return NoValidData;
    }
    out := BuildTable(agg);
  }

  /** Ordering, labelling, the metrics and the blanking loop over the
      aggregated rows. */
  method BuildTable(agg: seq<DomainRating>) returns (out: L2Out)
    ensures out == TableOf(agg)
  {
    var sorted := SortRows(Others(agg), agg);
    var merged := MergeFunctions(Functions(sorted));
    out := L2Table(Display(sorted, merged), SummaryOf(sorted));
  }
}
