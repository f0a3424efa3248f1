/** The API-agnostic helpers shared by the views: the six risk categories,
    the tolerant number extractor, the shape dispatch that turns a payload
    into a table, and the per-company category score rows read from a
    bundle. */
module Helpers {
  import opened Text
  import opened JsonValue

  /** The six external risk categories, in display order. */
  const CategoryNames: seq<string> := [
    "Attack Surface",
    "Vulnerability Exposure",
    "IP Reputation & Threats",
    "Web Security Posture",
    "Leakage & Breach History",
    "Email Security"
  ]

  /** The keys `extract_number` tries on a dict, in order. */
  const ScoreKeys: seq<string> := [
    "domain_score", "score", "overall_score", "value", "avg", "overall",
    "category_gpa", "gpa", "total_gpa"
  ]

  /** The keys a domain record's id is read from, in `or` order. */
  const DomainIdKeys: seq<string> := ["domain_id", "id", "domainId"]

  lemma CategoryNamesDistinct()
    ensures forall i, j :: 0 <= i < j < |CategoryNames| ==> CategoryNames[i] != CategoryNames[j]
  {
  }

  // ---------------------------------------------------------- extract_number

  /** `float(v.get(k))` for the first key of `keys` where it does not raise. */
  function FirstFloat(v: Json, keys: seq<string>): (r: Option<real>)
    ensures r.None? <==> forall i :: 0 <= i < |keys| ==> ToFloat(At(v, keys[i])).None?
  {
    if keys == [] then None
    else if ToFloat(At(v, keys[0])).Some? then ToFloat(At(v, keys[0]))
    else FirstFloat(v, keys[1..])
  }

  /** The first key that converts gives the answer. */
  lemma {:induction false} FirstFloatIsFirst(v: Json, keys: seq<string>, i: nat)
    requires i < |keys| && ToFloat(At(v, keys[i])).Some?
    requires forall j :: 0 <= j < i ==> ToFloat(At(v, keys[j])).None?
    ensures FirstFloat(v, keys) == ToFloat(At(v, keys[i]))
    decreases i
  {
    if i > 0 {
      forall j | 0 <= j < i - 1 ensures ToFloat(At(v, keys[1..][j])).None? {
        assert keys[1..][j] == keys[j + 1];
      }
      FirstFloatIsFirst(v, keys[1..], i - 1);
    }
  }

  /** `extract_number(x)`: `None` stands for Python's `None` result. */
  function ExtractNumber(x: Json): (r: Option<real>)
    ensures !x.JArr? && !x.JObj? ==> r == ToFloat(x)
    ensures x.JArr? ==> r.None?
    ensures x.JObj? ==> (r.None? <==> forall i :: 0 <= i < |ScoreKeys| ==> ToFloat(At(x, ScoreKeys[i])).None?)
  {
    match x
    case JNull => None
    case JBool(_) => ToFloat(x)
    case JInt(_) => ToFloat(x)
    case JNum(_) => ToFloat(x)
    case JStr(s) => ParseFloat(s)
    case JObj(_) => FirstFloat(x, ScoreKeys)
    case JArr(_) => None
  }

  /** On a dict, the first score key whose value converts wins; keys that
      are absent, `None` or unconvertible are passed over. */
  lemma ExtractNumberDict(x: Json, i: nat)
    requires x.JObj? && i < |ScoreKeys| && ToFloat(At(x, ScoreKeys[i])).Some?
    requires forall j :: 0 <= j < i ==> ToFloat(At(x, ScoreKeys[j])).None?
    ensures ExtractNumber(x) == ToFloat(At(x, ScoreKeys[i]))
  {
    FirstFloatIsFirst(x, ScoreKeys, i);
  }

  // --------------------------------------------------------------------- to_df

  /** The shape of the table a payload becomes: no rows, one row per dict,
      a single named column of values, or (for a dict) the flattened record
      with a `Key` table for the empty dict. */
  datatype Frame =
    | EmptyFrame
    | RecordRows(records: seq<Json>)
    | ValueColumn(column: string, values: seq<Json>)
    | Flattened(record: seq<(string, Json)>)
    | KeyTable(record: seq<(string, Json)>)

  function Height(f: Frame): nat
  {
    match f
    case EmptyFrame => 0
    case RecordRows(rs) => |rs|
    case ValueColumn(_, vs) => |vs|
    case Flattened(_) => 1
    case KeyTable(fields) => |fields|
  }

  /** `helpers.to_df(obj)`: a list is classified by its first element. */
  function ToDf(obj: Json): (f: Frame)
    ensures obj.JNull? || obj == JArr([]) ==> f == EmptyFrame
    ensures obj.JArr? && obj.items != [] ==> Height(f) == |obj.items|
    ensures !obj.JNull? && !obj.JArr? && !obj.JObj? ==> f == ValueColumn("Value", [obj])
  {
    match obj
    case JNull => EmptyFrame
    case JArr(items) =>
      if items == [] then EmptyFrame
      else if items[0].JObj? then RecordRows(items)
      else ValueColumn("Value", items)
    case JObj(fields) => if fields == [] then KeyTable(fields) else Flattened(fields)
    case _ => ValueColumn("Value", [obj])
  }

  /** Only the first element decides how a list is read. */
  lemma ToDfFirstDecides(x: Json, rest: seq<Json>, rest': seq<Json>)
    ensures ToDf(JArr([x] + rest)).RecordRows? <==> x.JObj?
    ensures ToDf(JArr([x] + rest)).RecordRows? == ToDf(JArr([x] + rest')).RecordRows?
  {
  }

  // ------------------------------------------------ get_company_category_scores_df

  /** One row of the category score table. */
  datatype ScoreRow = ScoreRow(category: Json, score: Option<real>, gpa: Option<real>)

  /** The row read from one bundle category. */
  function ScoreRowOf(cat: Json): ScoreRow
  {
    ScoreRow(At(cat, "Category"), ToFloat(At(cat, "category_score")), ToFloat(At(cat, "category_gpa")))
  }

  /** The rows of a list of bundle categories, or `None` when an entry is
      not a dict (its `.get` raises). */
  function ScoreRows(cats: seq<Json>): (r: Option<seq<ScoreRow>>)
    ensures r.Some? <==> forall i :: 0 <= i < |cats| ==> cats[i].JObj?
    ensures r.Some? ==> |r.value| == |cats| && forall i :: 0 <= i < |cats| ==> r.value[i] == ScoreRowOf(cats[i])
  {
    if forall i :: 0 <= i < |cats| ==> cats[i].JObj? then
      Some(seq(|cats|, i requires 0 <= i < |cats| => ScoreRowOf(cats[i])))
    else None
  }

  /** The `fillna(0)` pass over the score column. */
  function ZeroFilled(rows: seq<ScoreRow>): (r: seq<ScoreRow>)
    ensures |r| == |rows|
    ensures forall i :: 0 <= i < |rows| ==>
      r[i].category == rows[i].category && r[i].gpa == rows[i].gpa
      && r[i].score == Some(if rows[i].score.Some? then rows[i].score.value else 0.0)
  {
    seq(|rows|, i requires 0 <= i < |rows| =>
      rows[i].(score := Some(if rows[i].score.Some? then rows[i].score.value else 0.0)))
  }

  /** The table read from a bundle (`{}` when none was loaded), or `None`
      when a shape makes the code raise. */
  function CategoryScores(bundle: Json): Option<seq<ScoreRow>>
  {
    var b := Or(bundle, JObj([]));
    if !b.JObj? then None
    else match Iterate(At(b, "categories"))
      case None => None
      case Some(cats) =>
        match ScoreRows(cats)
        case None => None
        case Some(rows) => Some(ZeroFilled(rows))
  }

  /** `get_company_category_scores_df(company_id)` on the loaded bundle:
      one pass appending rows, then the score column is filled with 0. */
  method GetCompanyCategoryScoresDf(bundle: Json) returns (out: Option<seq<ScoreRow>>)
    ensures out == CategoryScores(bundle)
  {
    var b := Or(bundle, JObj([]));
    if !b.JObj? {
      return None;
    }
    var cats := Iterate(At(b, "categories"));
    if cats.None? {
      return None;
    }
    var rows := AppendScoreRows(cats.value);
    if rows.None? {
      return None;
    }
    var filled := FillScores(rows.value);
    out := Some(filled);
  }

  /** The loop appending one row per category. */
  method AppendScoreRows(cats: seq<Json>) returns (r: Option<seq<ScoreRow>>)
    ensures r == ScoreRows(cats)
  {
    var rows: seq<ScoreRow> := [];
    var i := 0;
    while i < |cats|
      invariant i <= |cats|
      invariant DictsUpTo(cats, i)
      invariant MapsPrefix(ScoreRowOf, cats, rows, i)
    {
      if !cats[i].JObj? {
        assert !(forall k :: 0 <= k < |cats| ==> cats[k].JObj?);
        return None;
      }
      DictsUpToSnoc(cats, i);
      MapsPrefixSnoc(ScoreRowOf, cats, rows, i);
      rows := rows + [ScoreRowOf(cats[i])];
      i := i + 1;
    }
    ScoreRowsAll(cats, rows);
    r := Some(rows);
  }

  /** With every category a dict, the appended rows are the table. */
  lemma ScoreRowsAll(cats: seq<Json>, rows: seq<ScoreRow>)
    requires DictsUpTo(cats, |cats|) && MapsPrefix(ScoreRowOf, cats, rows, |cats|)
    ensures ScoreRows(cats) == Some(rows)
  {
    assert ScoreRows(cats).Some?;
    assert ScoreRows(cats).value == rows;
  }

  /** The column overwrite `pd.to_numeric(...).fillna(0)`. */
  method FillScores(rows: seq<ScoreRow>) returns (filled: seq<ScoreRow>)
    ensures filled == ZeroFilled(rows)
  {
    filled := rows;
    var j := 0;
    while j < |filled|
      invariant j <= |filled| == |rows|
      invariant forall k :: 0 <= k < j ==> filled[k] == ZeroFilled(rows)[k]
      invariant forall k :: j <= k < |filled| ==> filled[k] == rows[k]
    {
      if filled[j].score.None? {
        filled := filled[j := filled[j].(score := Some(0.0))];
      }
      j := j + 1;
    }
  }

  /** One row per category, in order, with unconvertible numbers as `None`
      and a missing score shown as 0; no bundle gives no rows. */
  lemma CategoryScoresMeaning(bundle: Json, cats: seq<Json>)
    requires bundle.JObj? && At(bundle, "categories") == JArr(cats)
    requires forall i :: 0 <= i < |cats| ==> cats[i].JObj?
    ensures var out := CategoryScores(bundle);
      out.Some? && |out.value| == |cats|
      && forall i :: 0 <= i < |cats| ==>
        out.value[i].category == At(cats[i], "Category")
        && out.value[i].gpa == ToFloat(At(cats[i], "category_gpa"))
        && out.value[i].score == Some(
          if ToFloat(At(cats[i], "category_score")).Some? then ToFloat(At(cats[i], "category_score")).value else 0.0)
    ensures CategoryScores(JNull) == Some([])
  {
    assert Or(bundle, JObj([])) == bundle;
  }
}
