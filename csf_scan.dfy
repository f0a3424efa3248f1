/** What the three internal-scan charts share: the category texts of a
    company's score table, the table a list of scan rows becomes, the
    normalised control and rating of each scan row, and the index from a
    normalised control to the external findings that map to it. */
module CsfScan {
  import opened Text
  import opened JsonValue
  import opened Normalization
  import opened ChartsHelpers
  import opened Helpers
  import Services

  /** The stripped text of a row's category, nothing for a null one. */
  function CategoryTextOf(row: ScoreRow): Option<string>
  {
    if row.category.JNull? then None else Some(Strip(Str(row.category)))
  }

  /** `[str(x).strip() for x in scores_df["Category"].dropna()]`; a score
      table without rows has no `Category` column and gives `[]`. */
  function ApiFindings(scores: seq<ScoreRow>): (r: seq<string>)
    ensures |r| <= |scores|
  {
    Collect(scores, CategoryTextOf)
  }

  /** The texts are those of the non-null categories. */
  lemma ApiFindingsMembers(scores: seq<ScoreRow>, x: string)
    ensures x in ApiFindings(scores) <==> exists i :: 0 <= i < |scores| && CategoryTextOf(scores[i]) == Some(x)
  {
    CollectMembers(scores, CategoryTextOf, x);
  }

  /** The non-null `Category` cells, in order. */
  function CategoryCells(scores: seq<ScoreRow>): (r: seq<Json>)
    ensures |r| <= |scores|
    ensures forall k :: 0 <= k < |r| ==> !r[k].JNull?
  {
    if scores == [] then []
    else
      var n := |scores| - 1;
      var c := scores[n].category;
      CategoryCells(scores[..n]) + (if c.JNull? then [] else [c])
  }

  /** `pd.DataFrame(rows).empty`: no rows, or rows without any key. */
  predicate FrameEmpty(rows: seq<Json>)
  {
    Services.Columns(rows) == []
  }

  /** The bindings a scan row carries. */
  function Fields(row: Json): seq<(string, Json)>
  {
    if row.JObj? then row.fields else []
  }

  /** `norm_ref` over a list of controls. */
  function NormAll(cs: seq<string>): (r: seq<string>)
    ensures |r| == |cs|
    ensures forall i :: 0 <= i < |cs| ==> r[i] == NormRef(cs[i])
  {
    seq(|cs|, i requires 0 <= i < |cs| => NormRef(cs[i]))
  }

  // ------------------------------------------------------------ the frame

  /** A column of numbers and nulls, which pandas stores as floats. */
  predicate NumericColumn(rows: seq<Json>, k: string)
  {
    (exists i :: 0 <= i < |rows| && Has(rows[i], k) && (At(rows[i], k).JInt? || At(rows[i], k).JNum?))
    && forall i :: 0 <= i < |rows| && Has(rows[i], k) ==> At(rows[i], k).JInt? || At(rows[i], k).JNum? || At(rows[i], k).JNull?
  }

  /** The cell of `pd.DataFrame(rows)` at `row` under the column `k` is
      NaN: the row lacks a key another row has, or holds a null in a column
      of numbers. */
  predicate IsNaN(rows: seq<Json>, row: Json, k: string)
  {
    k in Services.Columns(rows) && (!Has(row, k) || (At(row, k).JNull? && NumericColumn(rows, k)))
  }

  /** `_rating` applied to a row of the frame: the keys are probed in order,
      as on the dict, except that a NaN cell is returned as it is (`float`
      of NaN is NaN), so the probe ends there with no number. */
  function FrameRating(rows: seq<Json>, row: Json, keys: seq<string>): Option<real>
  {
    if keys == [] then None
    else if IsNaN(rows, row, keys[0]) then None
    else if Probe(Fields(row), keys[0]).Some? then Probe(Fields(row), keys[0])
    else FrameRating(rows, row, keys[1..])
  }

  /** A number the frame probe finds is the one the dict probe finds, and
      where no probed cell is NaN the two agree. */
  lemma {:induction false} FrameRatingAgrees(rows: seq<Json>, row: Json, keys: seq<string>)
    ensures FrameRating(rows, row, keys).Some? ==> FrameRating(rows, row, keys) == FirstRating(Fields(row), keys)
    ensures (forall i :: 0 <= i < |keys| ==> !IsNaN(rows, row, keys[i])) ==>
      FrameRating(rows, row, keys) == FirstRating(Fields(row), keys)
  {
    if keys != [] && !IsNaN(rows, row, keys[0]) && Probe(Fields(row), keys[0]).None? {
      FrameRatingAgrees(rows, row, keys[1..]);
      assert forall i :: 1 <= i < |keys| ==> keys[1..][i - 1] == keys[i];
    }
  }

  /** A NaN cell met before any number ends the probe with no number. */
  lemma {:induction false} FrameRatingStops(rows: seq<Json>, row: Json, keys: seq<string>, i: nat)
    requires i < |keys| && IsNaN(rows, row, keys[i])
    requires forall j :: 0 <= j < i ==> Probe(Fields(row), keys[j]).None?
    ensures FrameRating(rows, row, keys).None?
  {
    if i == 0 || IsNaN(rows, row, keys[0]) {
      assert IsNaN(rows, row, keys[0]);
    } else {
      var rest := keys[1..];
      assert rest[i - 1] == keys[i];
      assert forall j :: 0 <= j < i - 1 ==> rest[j] == keys[j + 1];
      FrameRatingStops(rows, row, rest, i - 1);
      FrameRatingSkip(rows, row, keys);
    }
  }

  /** A cell that is neither NaN nor a number passes the probe on. */
  lemma FrameRatingSkip(rows: seq<Json>, row: Json, keys: seq<string>)
    requires keys != [] && !IsNaN(rows, row, keys[0]) && Probe(Fields(row), keys[0]).None?
    ensures FrameRating(rows, row, keys) == FrameRating(rows, row, keys[1..])
  {
  }

  /** `df[ctrl_col].apply(_norm_ref)` at one row: a NaN cell is truthy and
      reads as the text `nan`. */
  function ControlNorm(rows: seq<Json>, row: Json, col: string): (r: string)
    ensures !IsNaN(rows, row, col) ==> r == NormRefValue(At(row, col))
  {
    if IsNaN(rows, row, col) then NormRef("nan") else NormRefValue(At(row, col))
  }

  /** A scan row's normalised control and its rating. */
  datatype Rated = Rated(control: string, rating: real)

  /** What one row of the frame contributes: its normalised control and
      rating, nothing when `_rating` finds no number in it (`None` and NaN
      are both dropped). */
  function Entry(rows: seq<Json>, row: Json, col: string): Option<Rated>
  {
    match FrameRating(rows, row, RatingKeys)
    case None => None
    case Some(x) => Some(Rated(ControlNorm(rows, row, col), x))
  }

  /** Two scan rows with different rating keys: the second lacks
      `cmm_rating`, which the first has, so its frame cell there is NaN and
      the row gets no entry, although the dict alone would give it the
      rating 2. */
  lemma ScanNaNExample()
    ensures var rows := [JObj([("control_ref", JStr("PR.PS-01")), ("cmm_rating", JInt(3))]),
                         JObj([("control_ref", JStr("DE.CM-01")), ("rating", JInt(2))])];
      Entry(rows, rows[1], "control_ref").None? && Rating(Fields(rows[1])) == Some(2.0)
  {
    var rows := [JObj([("control_ref", JStr("PR.PS-01")), ("cmm_rating", JInt(3))]),
                 JObj([("control_ref", JStr("DE.CM-01")), ("rating", JInt(2))])];
    var row := rows[1];
    assert Keys(rows[0].fields)[1] == "cmm_rating";
    assert Has(rows[0], "cmm_rating");
    assert !Has(row, "cmm_rating");
    RatingKeysFacts();
    FrameRatingStops(rows, row, RatingKeys, 0);
    assert Probe(Fields(row), "cmm_rating").None?;
    assert Get(Fields(row), "rating") == Some(JInt(2));
    assert ToFloat(JInt(2)) == Some(2.0);
    RatingAtSecond(Fields(row), 2.0);
  }

  /** The values `f` yields for the elements, in order. */
  function Collect<A, T>(xs: seq<A>, f: A -> Option<T>): (r: seq<T>)
    ensures |r| <= |xs|
  {
    if xs == [] then []
    else
      var n := |xs| - 1;
      Collect(xs[..n], f) + (match f(xs[n]) case Some(x) => [x] case None => [])
  }

  /** Every collected value comes from some element. */
  lemma {:induction false} CollectSound<A, T>(xs: seq<A>, f: A -> Option<T>, e: T)
    requires e in Collect(xs, f)
    ensures exists i :: 0 <= i < |xs| && f(xs[i]) == Some(e)
  {
    var n := |xs| - 1;
    var init := xs[..n];
    if e in Collect(init, f) {
      CollectSound(init, f, e);
      var i :| 0 <= i < |init| && f(init[i]) == Some(e);
      assert xs[i] == init[i];
    } else {
      assert f(xs[n]) == Some(e);
    }
  }

  /** Every value an element yields is collected. */
  lemma {:induction false} CollectHas<A, T>(xs: seq<A>, f: A -> Option<T>, i: nat)
    requires i < |xs| && f(xs[i]).Some?
    ensures f(xs[i]).value in Collect(xs, f)
  {
    var n := |xs| - 1;
    var init := xs[..n];
    if i < n {
      assert init[i] == xs[i];
      CollectHas(init, f, i);
    }
  }

  lemma CollectMembers<A, T>(xs: seq<A>, f: A -> Option<T>, e: T)
    ensures e in Collect(xs, f) <==> exists i :: 0 <= i < |xs| && f(xs[i]) == Some(e)
  {
    if e in Collect(xs, f) {
      CollectSound(xs, f, e);
    }
    if exists i :: 0 <= i < |xs| && f(xs[i]) == Some(e) {
      var i :| 0 <= i < |xs| && f(xs[i]) == Some(e);
      CollectHas(xs, f, i);
    }
  }

  /** The `control_ref_norm` and `rating_val` columns after `dropna`: one
      entry per frame row `_rating` finds a number in, in row order. */
  function RatedControls(rows: seq<Json>, col: string): (r: seq<Rated>)
    ensures |r| <= |rows|
  {
    Collect(rows, row => Entry(rows, row, col))
  }

  /** Every entry comes from a row with that control and rating, and every
      row with a rating gives an entry. */
  lemma RatedControlsMembers(rows: seq<Json>, col: string, e: Rated)
    ensures e in RatedControls(rows, col) <==> exists i :: 0 <= i < |rows| && Entry(rows, rows[i], col) == Some(e)
  {
    CollectMembers(rows, row => Entry(rows, row, col), e);
  }

  // ------------------------------------------------- control -> findings

  /** `control_to_findings[k].append(finding)` for each normalised control
      `k` of one finding, on a `defaultdict(list)`. */
  function AddFinding(d: map<string, seq<string>>, finding: string, ks: seq<string>): map<string, seq<string>>
  {
    if ks == [] then d
    else
      var n := |ks| - 1;
      var e := AddFinding(d, finding, ks[..n]);
      e[ks[n] := (if ks[n] in e then e[ks[n]] else []) + [finding]]
  }

  /** A finding mapping with every control normalised element-wise; the
      shape of `EXTERNAL_FINDINGS_TO_CONTROLS_NORM`. */
  function NormMapping(m: seq<(string, seq<string>)>): (r: seq<(string, seq<string>)>)
    ensures |r| == |m|
    ensures forall i :: 0 <= i < |m| ==> r[i].0 == m[i].0 && r[i].1 == NormAll(m[i].1)
  {
    seq(|m|, i requires 0 <= i < |m| => (m[i].0, NormAll(m[i].1)))
  }

  /** The index over a mapping of normalised controls: each control to the
      present findings listing it, in mapping order. */
  function Index(normMap: seq<(string, seq<string>)>, present: set<string>): map<string, seq<string>>
  {
    if normMap == [] then map[]
    else
      var n := |normMap| - 1;
      var d := Index(normMap[..n], present);
      if normMap[n].0 in present then AddFinding(d, normMap[n].0, normMap[n].1) else d
  }

  /** `control_to_findings`: the index over the mapping's findings that are
      present, each control passed through `norm_ref`. */
  function ControlToFindings(mapping: seq<(string, seq<string>)>, present: set<string>): map<string, seq<string>>
  {
    Index(NormMapping(mapping), present)
  }

  /** One finding adds itself under each of its controls and changes nothing
      else. */
  lemma {:induction false} AddFindingMeaning(d: map<string, seq<string>>, finding: string, ks: seq<string>, k: string, f: string)
    requires forall k' :: k' in d ==> d[k'] != []
    ensures var e := AddFinding(d, finding, ks);
      (k in e <==> k in d || k in ks)
      && (k in e ==> e[k] != [])
      && (k in e && f in e[k] <==> (k in d && f in d[k]) || (f == finding && k in ks))
  {
    if ks != [] {
      var n := |ks| - 1;
      AddFindingMeaning(d, finding, ks[..n], k, f);
      assert ks == ks[..n] + [ks[n]];
    }
  }

  /** A control is indexed exactly under the present findings that list it,
      and every indexed control has a finding. */
  lemma {:induction false} IndexMeaning(normMap: seq<(string, seq<string>)>, present: set<string>, k: string, f: string)
    ensures var d := Index(normMap, present);
      (k in d ==> d[k] != [])
      && (k in d <==> exists i :: 0 <= i < |normMap| && normMap[i].0 in present && k in normMap[i].1)
      && (k in d && f in d[k] <==> exists i :: 0 <= i < |normMap| && normMap[i].0 == f && f in present && k in normMap[i].1)
  {
    if normMap != [] {
      var n := |normMap| - 1;
      var d := Index(normMap[..n], present);
      IndexMeaning(normMap[..n], present, k, f);
      forall k' | k' in d ensures d[k'] != [] {
        IndexMeaning(normMap[..n], present, k', f);
      }
      if normMap[n].0 in present {
        AddFindingMeaning(d, normMap[n].0, normMap[n].1, k, f);
      }
      assert forall i :: 0 <= i < n ==> normMap[..n][i] == normMap[i];
    }
  }

  /** `control_to_findings` holds a control exactly under the present findings
      whose mapped controls normalise to it. */
  lemma ControlToFindingsMeaning(mapping: seq<(string, seq<string>)>, present: set<string>, k: string, f: string)
    ensures var d := ControlToFindings(mapping, present);
      (k in d ==> d[k] != [])
      && (k in d <==> exists i :: 0 <= i < |mapping| && mapping[i].0 in present && k in NormAll(mapping[i].1))
      && (k in d && f in d[k] <==> exists i :: 0 <= i < |mapping| && mapping[i].0 == f && f in present && k in NormAll(mapping[i].1))
  {
    var nm := NormMapping(mapping);
    IndexMeaning(nm, present, k, f);
    assert forall i :: 0 <= i < |mapping| ==> nm[i].0 == mapping[i].0 && nm[i].1 == NormAll(mapping[i].1);
  }

  /** The loop over one finding's controls. */
  method AppendFinding(d0: map<string, seq<string>>, finding: string, ctrls: seq<string>) returns (d: map<string, seq<string>>)
    ensures d == AddFinding(d0, finding, NormAll(ctrls))
  {
    d := d0;
    var j := 0;
    while j < |ctrls|
      invariant 0 <= j <= |ctrls|
      invariant d == AddFinding(d0, finding, NormAll(ctrls)[..j])
    {
      var k := NormRef(ctrls[j]);
      AddFindingSnoc(d0, finding, NormAll(ctrls), j, d);
      d := d[k := (if k in d then d[k] else []) + [finding]];
      j := j + 1;
    }
    assert NormAll(ctrls)[..j] == NormAll(ctrls);
  }

  /** One control more of the loop over a finding's controls. */
  lemma AddFindingSnoc(d0: map<string, seq<string>>, finding: string, ks: seq<string>, j: nat, d: map<string, seq<string>>)
    requires j < |ks| && d == AddFinding(d0, finding, ks[..j])
    ensures d[ks[j] := (if ks[j] in d then d[ks[j]] else []) + [finding]] == AddFinding(d0, finding, ks[..j + 1])
  {
    assert ks[..j + 1][..j] == ks[..j];
  }

  /** The loop over the mapping's items that fills `control_to_findings`. */
  method BuildControlToFindings(mapping: seq<(string, seq<string>)>, present: set<string>) returns (d: map<string, seq<string>>)
    ensures d == ControlToFindings(mapping, present)
  {
    d := map[];
    var i := 0;
    while i < |mapping|
      invariant 0 <= i <= |mapping|
      invariant d == Index(NormMapping(mapping)[..i], present)
    {
      assert NormMapping(mapping)[..i + 1][..i] == NormMapping(mapping)[..i];
      if mapping[i].0 in present {
        d := AppendFinding(d, mapping[i].0, mapping[i].1);
      }
      i := i + 1;
    }
    assert NormMapping(mapping)[..i] == NormMapping(mapping);
  }
}
