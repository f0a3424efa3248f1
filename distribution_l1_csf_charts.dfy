/** The data behind `distribution_l1_function_bar_chart`: how many distinct
    allowed controls of the internal scan fall under each CSF function. */
module DistributionL1CsfCharts {
  import opened Text
  import opened JsonValue
  import opened Normalization
  import opened ChartsHelpers
  import opened Helpers
  import opened NistMappings
  import opened NistHelpers
  import opened CsfScan
  import ExternalCsfCharts
  import Services

  /** The six function names in chart order. */
  const L1Order: seq<string> := ["Govern", "Identify", "Protect", "Detect", "Respond", "Recover"]

  /** The chart's names: the six functions, then `"Other"`. */
  const L1Names: seq<string> := L1Order + ["Other"]

  /** One bar: a function name and its count. */
  datatype L1Row = L1Row(l1Func: string, count: nat)

  /** `None` (no chart), the bars, or an exception the function lets through. */
  datatype DistOut = DistRaised | NoDist | Dist(rows: seq<L1Row>)

  lemma L1NamesDistinct()
    ensures forall i, j :: 0 <= i < j < |L1Names| ==> L1Names[i] != L1Names[j]
  {
  }

  /** `to_l1(control)`: the function named by the uppercased first two
      characters before the first `.`, or `"Other"`. */
  function ToL1(control: string): (r: string)
    ensures r in L1Names
  {
    var p := Upper(if control != [] then Split(control, '.')[0] else "");
    match Get(CsfL1FunctionFull, Head2(p))
    case Some(name) =>
      assert (Head2(p), name) in CsfL1FunctionFull;
      name
    case None => "Other"
  }

  /** A control falls under a named function exactly when its two-letter
      head is one of the six function codes. */
  lemma ToL1Known(control: string)
    ensures var p := Upper(if control != [] then Split(control, '.')[0] else "");
      ToL1(control) != "Other" <==> Head2(p) in FunctionCodes
  {
    assert Keys(CsfL1FunctionFull) == FunctionCodes;
  }

  // ---------------------------------------------------------- the controls

  /** `df_ctrl[ctrl_col].apply(norm_ref)`. */
  function NormControls(rows: seq<Json>, col: string): (r: seq<string>)
    ensures |r| == |rows|
    ensures forall i :: 0 <= i < |rows| ==> r[i] == ControlNorm(rows, rows[i], col)
  {
    seq(|rows|, i requires 0 <= i < |rows| => ControlNorm(rows, rows[i], col))
  }

  /** `isin(allowed_controls)`: the controls that are keys of the index. */
  function InAllowed(cs: seq<string>, d: map<string, seq<string>>): (r: seq<string>)
    ensures forall c :: c in r <==> c in cs && c in d
  {
    if cs == [] then []
    else
      var n := |cs| - 1;
      assert cs == cs[..n] + [cs[n]];
      InAllowed(cs[..n], d) + (if cs[n] in d then [cs[n]] else [])
  }

  // -------------------------------------------------------------- counting

  /** How many of `us` the classifier `f` puts under `name`. */
  function CountBy(us: seq<string>, f: string -> string, name: string): (r: nat)
    ensures r <= |us|
  {
    if us == [] then 0
    else
      var n := |us| - 1;
      CountBy(us[..n], f, name) + (if f(us[n]) == name then 1 else 0)
  }

  /** `l1_counts[name]` after the counting loop over `us`. */
  function CountOf(us: seq<string>, name: string): nat
  {
    CountBy(us, ToL1, name)
  }

  /** The counts of all `names` added up. */
  function SumCounts(us: seq<string>, f: string -> string, names: seq<string>): nat
  {
    if names == [] then 0 else CountBy(us, f, names[0]) + SumCounts(us, f, names[1..])
  }

  /** Adding one element adds one to the count of its own name only. */
  lemma {:induction false} SumCountsSnoc(us: seq<string>, u: string, f: string -> string, names: seq<string>)
    requires forall i, j :: 0 <= i < j < |names| ==> names[i] != names[j]
    ensures SumCounts(us + [u], f, names) == SumCounts(us, f, names) + (if f(u) in names then 1 else 0)
  {
    if names != [] {
      assert (us + [u])[..|us|] == us;
      var tail := names[1..];
      assert forall i, j :: 0 <= i < j < |tail| ==> tail[i] == names[i + 1] && tail[j] == names[j + 1];
      SumCountsSnoc(us, u, f, tail);
      assert f(u) in names <==> f(u) == names[0] || f(u) in tail;
      if f(u) == names[0] {
        assert f(u) !in tail;
      }
    }
  }

  /** When every element has one of the distinct names, the counts of the
      names add up to the number of elements. */
  lemma {:induction false} SumCountsAll(us: seq<string>, f: string -> string, names: seq<string>)
    requires forall i, j :: 0 <= i < j < |names| ==> names[i] != names[j]
    requires forall k :: 0 <= k < |us| ==> f(us[k]) in names
    ensures SumCounts(us, f, names) == |us|
  {
    if us == [] {
      SumCountsEmpty(f, names);
    } else {
      var n := |us| - 1;
      assert us == us[..n] + [us[n]];
      SumCountsAll(us[..n], f, names);
      SumCountsSnoc(us[..n], us[n], f, names);
    }
  }

  lemma {:induction false} SumCountsEmpty(f: string -> string, names: seq<string>)
    ensures SumCounts([], f, names) == 0
  {
    if names != [] {
      SumCountsEmpty(f, names[1..]);
    }
  }

  // ------------------------------------------------------------------ rows

  /** The counts of `us` under `f`, as a function of the name. */
  function CountFn(us: seq<string>, f: string -> string): string -> nat
  {
    name => CountBy(us, f, name)
  }

  /** A row for each of `names` whose count is positive, in the order of
      `names`. */
  function RowsFrom(names: seq<string>, cnt: string -> nat): (r: seq<L1Row>)
    ensures |r| <= |names|
  {
    if names == [] then []
    else
      (if cnt(names[0]) > 0 then [L1Row(names[0], cnt(names[0]))] else []) + RowsFrom(names[1..], cnt)
  }

  /** The chart's rows: the six functions in order, then `"Other"`, each
      only when its count is positive. */
  function L1Rows(us: seq<string>): seq<L1Row>
  {
    RowsFrom(L1Names, CountFn(us, ToL1))
  }

  function SumRows(rows: seq<L1Row>): nat
  {
    if rows == [] then 0 else rows[0].count + SumRows(rows[1..])
  }

  lemma {:induction false} SumRowsAppend(a: seq<L1Row>, b: seq<L1Row>)
    ensures SumRows(a + b) == SumRows(a) + SumRows(b)
  {
    if a == [] {
      assert a + b == b;
    } else {
      assert (a + b)[1..] == a[1..] + b;
      SumRowsAppend(a[1..], b);
    }
  }

  /** Dropping the zero counts does not change the total. */
  lemma {:induction false} RowsFromSum(us: seq<string>, f: string -> string, names: seq<string>)
    ensures SumRows(RowsFrom(names, CountFn(us, f))) == SumCounts(us, f, names)
  {
    if names != [] {
      var cnt := CountFn(us, f);
      RowsFromSum(us, f, names[1..]);
      SumRowsAppend(if cnt(names[0]) > 0 then [L1Row(names[0], cnt(names[0]))] else [], RowsFrom(names[1..], cnt));
    }
  }

  /** Every row carries one of `names` and that name's count, which is
      positive. */
  predicate RowsSound(rows: seq<L1Row>, names: seq<string>, cnt: string -> nat)
  {
    forall k :: 0 <= k < |rows| ==> rows[k].l1Func in names && rows[k].count == cnt(rows[k].l1Func) && rows[k].count > 0
  }

  /** Each row's name comes strictly before any later row's name in
      `names`. */
  predicate RowsInOrder(rows: seq<L1Row>, names: seq<string>)
  {
    forall k, l :: 0 <= k < l < |rows| ==> Before(names, rows[k].l1Func, rows[l].l1Func)
  }

  /** `x` occurs in `names` at a position before one holding `y`. */
  predicate Before(names: seq<string>, x: string, y: string)
  {
    exists i, j :: 0 <= i < j < |names| && names[i] == x && names[j] == y
  }

  lemma {:induction false} RowsFromSound(names: seq<string>, cnt: string -> nat)
    ensures RowsSound(RowsFrom(names, cnt), names, cnt)
  {
    if names != [] {
      RowsFromSound(names[1..], cnt);
      var head: seq<L1Row> := if cnt(names[0]) > 0 then [L1Row(names[0], cnt(names[0]))] else [];
      var rest := RowsFrom(names[1..], cnt);
      var r := head + rest;
      assert RowsFrom(names, cnt) == r;
      forall k | 0 <= k < |r|
        ensures r[k].l1Func in names && r[k].count == cnt(r[k].l1Func) && r[k].count > 0
      {
        if k >= |head| {
          assert r[k] == rest[k - |head|];
          assert rest[k - |head|].l1Func in names[1..];
        }
      }
    }
  }

  /** Every name of `names` with a positive count has a row. */
  lemma {:induction false} RowsFromComplete(names: seq<string>, cnt: string -> nat, x: string)
    requires x in names && cnt(x) > 0
    ensures L1Row(x, cnt(x)) in RowsFrom(names, cnt)
  {
    var head: seq<L1Row> := if cnt(names[0]) > 0 then [L1Row(names[0], cnt(names[0]))] else [];
    var rest := RowsFrom(names[1..], cnt);
    assert RowsFrom(names, cnt) == head + rest;
    if x == names[0] {
      assert (head + rest)[0] == L1Row(x, cnt(x));
    } else {
      assert x in names[1..];
      RowsFromComplete(names[1..], cnt, x);
    }
  }

  /** The rows keep the order of `names`. */
  lemma {:induction false} RowsFromOrdered(names: seq<string>, cnt: string -> nat)
    ensures RowsInOrder(RowsFrom(names, cnt), names)
  {
    if names != [] {
      var tail := names[1..];
      RowsFromOrdered(tail, cnt);
      RowsFromSound(tail, cnt);
      var head: seq<L1Row> := if cnt(names[0]) > 0 then [L1Row(names[0], cnt(names[0]))] else [];
      var rest := RowsFrom(tail, cnt);
      assert RowsFrom(names, cnt) == head + rest;
      ConsInOrder(names, head, rest);
    }
  }

  /** A row for the first name, if any, followed by rows in the order of
      the tail, are in the order of the whole list. */
  lemma ConsInOrder(names: seq<string>, head: seq<L1Row>, rest: seq<L1Row>)
    requires names != [] && |head| <= 1 && (|head| == 1 ==> head[0].l1Func == names[0])
    requires RowsInOrder(rest, names[1..])
    requires forall k :: 0 <= k < |rest| ==> rest[k].l1Func in names[1..]
    ensures RowsInOrder(head + rest, names)
  {
    forall k, l | 0 <= k < l < |head + rest|
      ensures Before(names, (head + rest)[k].l1Func, (head + rest)[l].l1Func)
    {
      ConsPair(names, head, rest, k, l);
    }
  }

  /** One pair of rows of `ConsInOrder`. */
  lemma ConsPair(names: seq<string>, head: seq<L1Row>, rest: seq<L1Row>, k: nat, l: nat)
    requires names != [] && |head| <= 1 && (|head| == 1 ==> head[0].l1Func == names[0])
    requires RowsInOrder(rest, names[1..])
    requires forall k :: 0 <= k < |rest| ==> rest[k].l1Func in names[1..]
    requires k < l < |head + rest|
    ensures Before(names, (head + rest)[k].l1Func, (head + rest)[l].l1Func)
  {
    var r := head + rest;
    assert r[l] == rest[l - |head|];
    if k < |head| {
      assert r[k] == head[0] && rest[l - |head|].l1Func in names[1..];
      HeadBefore(names, r[l].l1Func);
    } else {
      assert r[k] == rest[k - |head|];
      OrderInTail(names, r[k].l1Func, r[l].l1Func);
    }
  }

  /** The first name comes before any name of the tail. */
  lemma HeadBefore(names: seq<string>, y: string)
    requires names != [] && y in names[1..]
    ensures Before(names, names[0], y)
  {
    var j' :| 0 <= j' < |names[1..]| && names[1..][j'] == y;
    assert names[j' + 1] == y;
  }

  /** An order between two names of the tail holds in the whole list. */
  lemma OrderInTail(names: seq<string>, x: string, y: string)
    requires names != []
    requires Before(names[1..], x, y)
    ensures Before(names, x, y)
  {
    var i, j :| 0 <= i < j < |names[1..]| && names[1..][i] == x && names[1..][j] == y;
    assert names[i + 1] == x && names[j + 1] == y;
  }

  /** The counts in the rows add up to the number of distinct controls. */
  lemma RowsCountAll(us: seq<string>)
    ensures SumRows(L1Rows(us)) == |us|
  {
    RowsFromSum(us, ToL1, L1Names);
    L1NamesDistinct();
    SumCountsAll(us, ToL1, L1Names);
  }

  /** A row for exactly the functions (and `"Other"`) some control falls
      under, each with its count, in chart order. */
  lemma L1RowsMeaning(us: seq<string>)
    ensures RowsSound(L1Rows(us), L1Names, CountFn(us, ToL1))
    ensures forall x :: x in L1Names && CountOf(us, x) > 0 ==> L1Row(x, CountOf(us, x)) in L1Rows(us)
    ensures RowsInOrder(L1Rows(us), L1Names)
  {
    var cnt := CountFn(us, ToL1);
    RowsFromSound(L1Names, cnt);
    forall x | x in L1Names && CountOf(us, x) > 0
      ensures L1Row(x, CountOf(us, x)) in L1Rows(us)
    {
      assert cnt(x) == CountOf(us, x);
      RowsFromComplete(L1Names, cnt, x);
    }
    RowsFromOrdered(L1Names, cnt);
  }

  // ------------------------------------------------------------ the chart

  /** The chart's rows over the loaded inputs: `scores` is the company's
      score table (`None` when reading it raised), `scan` what
      `get_internal_scan` returned (`None` when it raised). */
  function Distribution(scores: Option<seq<ScoreRow>>, scan: Option<seq<Json>>): DistOut
  {
    match scores
    case None => DistRaised
    case Some(sc) => ChartOf(ControlToFindings(ExternalFindingsToControls, ExternalCsfCharts.Present(sc)), scan)
  }

  /** The chart once `control_to_findings` is built as `d`. */
  function ChartOf(d: map<string, seq<string>>, scan: Option<seq<Json>>): DistOut
  {
    match scan
    case None => NoDist
    case Some(rows) =>
      if rows == [] || FrameEmpty(rows) then NoDist
      else match DetectControlRefCol(Services.Columns(rows))
      case None => NoDist
      case Some(col) =>
        var kept := InAllowed(NormControls(rows, col), d);
        if kept == [] then NoDist
        else
          var rs := L1Rows(Unique(kept));
          if rs == [] then NoDist else Dist(rs)
  }

  /** There is no chart when the scan raised or is empty, when its rows have
      no key, when no control column is found, or when no control is
      allowed. */
  lemma NoChartCases(sc: seq<ScoreRow>, scan: Option<seq<Json>>)
    requires scan.None? || scan.value == [] || FrameEmpty(scan.value)
      || DetectControlRefCol(Services.Columns(scan.value)).None?
      || InAllowed(NormControls(scan.value, DetectControlRefCol(Services.Columns(scan.value)).value),
           ControlToFindings(ExternalFindingsToControls, ExternalCsfCharts.Present(sc))) == []
    ensures Distribution(Some(sc), scan) == NoDist
  {
  }

  /** Whenever an allowed control is found, the chart has a row, and the
      counts add up to the number of distinct allowed controls found. */
  lemma ChartCounts(sc: seq<ScoreRow>, rows: seq<Json>, col: string)
    requires rows != [] && !FrameEmpty(rows) && DetectControlRefCol(Services.Columns(rows)) == Some(col)
    requires InAllowed(NormControls(rows, col), ControlToFindings(ExternalFindingsToControls, ExternalCsfCharts.Present(sc))) != []
    ensures var kept := InAllowed(NormControls(rows, col), ControlToFindings(ExternalFindingsToControls, ExternalCsfCharts.Present(sc)));
      Distribution(Some(sc), Some(rows)) == Dist(L1Rows(Unique(kept)))
      && SumRows(L1Rows(Unique(kept))) == |Unique(kept)|
  {
    ChartOfCounts(ControlToFindings(ExternalFindingsToControls, ExternalCsfCharts.Present(sc)), rows, col);
  }

  /** `ChartCounts` for any built `control_to_findings`. */
  lemma ChartOfCounts(d: map<string, seq<string>>, rows: seq<Json>, col: string)
    requires rows != [] && !FrameEmpty(rows) && DetectControlRefCol(Services.Columns(rows)) == Some(col)
    requires InAllowed(NormControls(rows, col), d) != []
    ensures var kept := InAllowed(NormControls(rows, col), d);
      ChartOf(d, Some(rows)) == Dist(L1Rows(Unique(kept))) && SumRows(L1Rows(Unique(kept))) == |Unique(kept)|
  {
    var kept := InAllowed(NormControls(rows, col), d);
    var us := Unique(kept);
    RowsCountAll(us);
    assert kept[0] in us;
    assert L1Rows(us) != [];
  }

  // ------------------------------------------------------------ the loops

  /** `l1_counts` as a `defaultdict(int)`: a missing name reads as 0. */
  function Lookup(counts: map<string, nat>, name: string): nat
  {
    if name in counts then counts[name] else 0
  }

  /** One more element counts once more under its own name only. */
  lemma CountBySnoc(us: seq<string>, u: string, f: string -> string, name: string)
    ensures CountBy(us + [u], f, name) == CountBy(us, f, name) + (if f(u) == name then 1 else 0)
  {
    assert (us + [u])[..|us|] == us;
  }

  /** The loop counting each element under the name `f` gives it. */
  method CountUnder(us: seq<string>, f: string -> string) returns (counts: map<string, nat>)
    ensures forall name :: Lookup(counts, name) == CountBy(us, f, name)
  {
    counts := map[];
    var i := 0;
    while i < |us|
      invariant 0 <= i <= |us|
      invariant forall name :: Lookup(counts, name) == CountBy(us[..i], f, name)
    {
      var l1 := f(us[i]);
      counts := counts[l1 := Lookup(counts, l1) + 1];
      assert us[..i + 1] == us[..i] + [us[i]];
      forall name
        ensures Lookup(counts, name) == CountBy(us[..i + 1], f, name)
      {
        CountBySnoc(us[..i], us[i], f, name);
      }
      i := i + 1;
    }
    assert us[..i] == us;
  }

  /** `l1_counts`: each unique control counted under its function. */
  method CountL1(us: seq<string>) returns (counts: map<string, nat>)
    ensures forall name :: Lookup(counts, name) == CountOf(us, name)
  {
    counts := CountUnder(us, ToL1);
  }

  /** `l1_counts` read as a function of the name. */
  function LookupFn(counts: map<string, nat>): string -> nat
  {
    name => Lookup(counts, name)
  }

  /** Rows depend only on the counts of the names listed. */
  lemma {:induction false} RowsFromSameCounts(names: seq<string>, a: string -> nat, b: string -> nat)
    requires forall k :: 0 <= k < |names| ==> a(names[k]) == b(names[k])
    ensures RowsFrom(names, a) == RowsFrom(names, b)
  {
    if names != [] {
      assert a(names[0]) == b(names[0]);
      RowsFromSameCounts(names[1..], a, b);
    }
  }

  /** Rows for a list of names are the rows of its parts. */
  lemma {:induction false} RowsFromAppend(a: seq<string>, b: seq<string>, cnt: string -> nat)
    ensures RowsFrom(a + b, cnt) == RowsFrom(a, cnt) + RowsFrom(b, cnt)
  {
    if a == [] {
      assert a + b == b;
    } else {
      assert (a + b)[1..] == a[1..] + b;
      RowsFromAppend(a[1..], b, cnt);
    }
  }

  /** The loop over `order` appending a row per function with a positive
      count. */
  method OrderRows(names: seq<string>, counts: map<string, nat>) returns (rows: seq<L1Row>)
    ensures rows == RowsFrom(names, LookupFn(counts))
  {
    var cnt := LookupFn(counts);
    rows := [];
    var i := 0;
    while i < |names|
      invariant 0 <= i <= |names|
      invariant rows + RowsFrom(names[i..], cnt) == RowsFrom(names, cnt)
    {
      OrderRowsStep(names, counts, i, rows);
      var n := Lookup(counts, names[i]);
      if n > 0 {
        rows := rows + [L1Row(names[i], n)];
      }
      i := i + 1;
    }
    assert names[i..] == [];
  }

  /** The invariant of `OrderRows` carried past name `i`. */
  lemma OrderRowsStep(names: seq<string>, counts: map<string, nat>, i: nat, rows: seq<L1Row>)
    requires i < |names|
    requires rows + RowsFrom(names[i..], LookupFn(counts)) == RowsFrom(names, LookupFn(counts))
    ensures var n := Lookup(counts, names[i]);
      (rows + (if n > 0 then [L1Row(names[i], n)] else [])) + RowsFrom(names[i + 1..], LookupFn(counts))
        == RowsFrom(names, LookupFn(counts))
  {
    var cnt := LookupFn(counts);
    var n := Lookup(counts, names[i]);
    var head: seq<L1Row> := if n > 0 then [L1Row(names[i], n)] else [];
    assert names[i..][1..] == names[i + 1..];
    assert cnt(names[i]) == n;
    assert RowsFrom(names[i..], cnt) == head + RowsFrom(names[i + 1..], cnt);
    AppendAssoc(rows, head, RowsFrom(names[i + 1..], cnt));
  }

  /** The rows in chart order, then `"Other"` when it has a count. */
  method BuildRows(counts: map<string, nat>) returns (rows: seq<L1Row>)
    ensures rows == RowsFrom(L1Names, LookupFn(counts))
  {
    rows := OrderRows(L1Order, counts);
    RowsFromAppend(L1Order, ["Other"], LookupFn(counts));
    var other := Lookup(counts, "Other");
    if other > 0 {
      rows := rows + [L1Row("Other", other)];
    }
  }

  /** `distribution_l1_function_bar_chart` up to the chart's rows. */
  method DistributionL1FunctionBarChart(scores: Option<seq<ScoreRow>>, scan: Option<seq<Json>>) returns (out: DistOut)
    ensures out == Distribution(scores, scan)
  {
    if scores.None? {
      return DistRaised;
    }
    var d := BuildControlToFindings(ExternalFindingsToControls, ExternalCsfCharts.Present(scores.value));
    if scan.None? {
      return NoDist;
    }
    var rows := scan.value;
    if rows == [] || FrameEmpty(rows) {
      return NoDist;
    }
    var ctrlCol := DetectControlRefCol(Services.Columns(rows));
    if ctrlCol.None? {
      return NoDist;
    }
    var kept := InAllowed(NormControls(rows, ctrlCol.value), d);
    if kept == [] {
      return NoDist;
    }
    var us := Unique(kept);
    var counts := CountL1(us);
    var rs := BuildRows(counts);
    RowsFromSameCounts(L1Names, LookupFn(counts), CountFn(us, ToL1));
    if rs == [] {
      return NoDist;
    }
    out := Dist(rs);
  }
}
