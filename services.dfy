/** The service layer of `services.py` between the API client and the UI:
    the sidebar's company options, the per-company domain filter, the domain
    overview built from the live endpoints, and the column resolution and
    equality filters of the raw findings table. */
module Services {
  import opened Text
  import opened JsonValue
  import opened Helpers
  import opened DataframeUtils
  import opened ApiClient
  import JsonHandler

  // ------------------------------------------------------ company options

  const CompanyNameKeys: seq<string> := ["company_name", "name"]

  /** The displayed name: the first truthy name key, else `Company {cid}`. */
  function OptionName(c: Json): Json
  {
    Or(OrKeys(c, CompanyNameKeys), JStr("Company " + Str(JsonHandler.CompanyId(c))))
  }

  /** `f"{cid} — {name}"`, or the name value itself when the id is `None`. */
  function Label(c: Json): Json
  {
    var cid := JsonHandler.CompanyId(c);
    if cid != JNull then JStr(Str(cid) + " — " + Str(OptionName(c))) else OptionName(c)
  }

  /** The options in order and the dict from option to id. */
  datatype Choices = Choices(options: seq<Json>, mapping: map<Json, Json>)

  /** The loop body gets through company `c`: `c.get` needs a dict, and
      `map_[label]` a hashable label. */
  predicate Listable(c: Json, name: Json -> Json)
  {
    c.JObj? && Hashable(name(c))
  }

  /** The options loop of `list_company_options` for any way of naming a
      company and reading its id: the names in order and the dict from name to
      id; `None` stands for the `AttributeError` of a company that is not a
      dict and the `TypeError` of a name that cannot be a key. */
  function Options(cs: seq<Json>, name: Json -> Json, id: Json -> Json): (r: Option<Choices>)
    ensures r.Some? ==> |r.value.options| == |cs|
  {
    if cs == [] then Some(Choices([], map[]))
    else
      match Options(cs[..|cs| - 1], name, id)
      case None => None
      case Some(ch) =>
        var c := cs[|cs| - 1];
        if !Listable(c, name) then None
        else Some(Choices(ch.options + [name(c)], ch.mapping[name(c) := id(c)]))
  }

  /** `list_company_options(cs)`. */
  function CompanyOptions(cs: seq<Json>): (r: Option<Choices>)
    ensures r.Some? ==> |r.value.options| == |cs|
  {
    Options(cs, Label, JsonHandler.CompanyId)
  }

  method ListCompanyOptions(cs: seq<Json>) returns (r: Option<Choices>)
    ensures r == CompanyOptions(cs)
  {
    var opts: seq<Json> := [];
    var mapping: map<Json, Json> := map[];
    var i := 0;
    while i < |cs|
      invariant 0 <= i <= |cs|
      invariant CompanyOptions(cs[..i]) == Some(Choices(opts, mapping))
    {
      if !cs[i].JObj? {
        OptionsRaiseAt(cs, Label, JsonHandler.CompanyId, i);
        return None;
      }
      var cid := JsonHandler.CompanyId(cs[i]);
      var shown := Label(cs[i]);
      if !Hashable(shown) {
        OptionsRaiseAt(cs, Label, JsonHandler.CompanyId, i);
        return None;
      }
      OptionsSnoc(cs, Label, JsonHandler.CompanyId, i, Choices(opts, mapping));
      opts := opts + [shown];
      mapping := mapping[shown := cid];
      i := i + 1;
    }
    assert cs[..i] == cs;
    return Some(Choices(opts, mapping));
  }

  /** One more listable company adds its option and its mapping entry. */
  lemma OptionsSnoc(cs: seq<Json>, name: Json -> Json, id: Json -> Json, i: nat, ch: Choices)
    requires i < |cs| && Listable(cs[i], name) && Options(cs[..i], name, id) == Some(ch)
    ensures Options(cs[..i + 1], name, id)
      == Some(Choices(ch.options + [name(cs[i])], ch.mapping[name(cs[i]) := id(cs[i])]))
  {
    assert cs[..i + 1][..i] == cs[..i];
  }

  /** Company `i` that the loop body cannot get through, once reached,
      raises. */
  lemma OptionsRaiseAt(cs: seq<Json>, name: Json -> Json, id: Json -> Json, i: nat)
    requires i < |cs| && !Listable(cs[i], name)
    ensures Options(cs, name, id).None?
  {
    assert cs[..i + 1][..i] == cs[..i];
    OptionsStop(cs, name, id, i + 1);
  }

  /** Once the loop has raised, the whole call raises. */
  lemma {:induction false} OptionsStop(cs: seq<Json>, name: Json -> Json, id: Json -> Json, k: nat)
    requires k <= |cs| && Options(cs[..k], name, id).None?
    ensures Options(cs, name, id).None?
    decreases |cs| - k
  {
    if k < |cs| {
      assert cs[..k + 1][..k] == cs[..k];
      OptionsStop(cs, name, id, k + 1);
    } else {
      assert cs[..k] == cs;
    }
  }

  /** The call raises iff some company is not a dict or has a name that
      cannot be a key. */
  lemma {:induction false} OptionsRaise(cs: seq<Json>, name: Json -> Json, id: Json -> Json)
    ensures Options(cs, name, id).None? <==> exists i :: 0 <= i < |cs| && !Listable(cs[i], name)
  {
    if cs != [] {
      var n := |cs| - 1;
      OptionsRaise(cs[..n], name, id);
      if exists i :: 0 <= i < n && !Listable(cs[..n][i], name) {
        var i :| 0 <= i < n && !Listable(cs[..n][i], name);
        assert !Listable(cs[i], name);
      }
      if exists i :: 0 <= i < |cs| && !Listable(cs[i], name) {
        var i :| 0 <= i < |cs| && !Listable(cs[i], name);
        if i < n {
          assert !Listable(cs[..n][i], name);
        }
      }
    }
  }

  /** One option per company, in order, and every option is a key of the
      mapping. */
  lemma {:induction false} OptionsListed(cs: seq<Json>, name: Json -> Json, id: Json -> Json, i: nat)
    requires Options(cs, name, id).Some? && i < |cs|
    ensures var ch := Options(cs, name, id).value;
      ch.options[i] == name(cs[i]) && ch.options[i] in ch.mapping
  {
    var n := |cs| - 1;
    if i < n {
      OptionsListed(cs[..n], name, id, i);
      assert cs[..n][i] == cs[i];
    }
  }

  /** A name maps to the id of the last company carrying it. */
  lemma {:induction false} MappingLastWins(cs: seq<Json>, name: Json -> Json, id: Json -> Json, i: nat)
    requires Options(cs, name, id).Some? && i < |cs|
    requires forall j :: i < j < |cs| ==> name(cs[j]) != name(cs[i])
    ensures name(cs[i]) in Options(cs, name, id).value.mapping
    ensures Options(cs, name, id).value.mapping[name(cs[i])] == id(cs[i])
  {
    var n := |cs| - 1;
    if i < n {
      assert cs[..n][i] == cs[i];
      assert forall j :: i < j < n ==> cs[..n][j] == cs[j];
      MappingLastWins(cs[..n], name, id, i);
    }
  }

  /** Every key of the mapping is one of the options. */
  lemma {:induction false} MappingKeysAreOptions(cs: seq<Json>, name: Json -> Json, id: Json -> Json, k: Json)
    requires Options(cs, name, id).Some?
    ensures k in Options(cs, name, id).value.mapping <==> k in Options(cs, name, id).value.options
  {
    if cs != [] {
      MappingKeysAreOptions(cs[..|cs| - 1], name, id, k);
    }
  }

  /** A company with an id is shown as the text `cid — name`; one with
      neither id nor name as `Company None`; one without an id but with a
      name as that name's value, whatever its type. */
  lemma LabelShape(c: Json)
    requires c.JObj?
    ensures JsonHandler.CompanyId(c) != JNull ==>
      Label(c).JStr? && StartsWith(Label(c).s, Str(JsonHandler.CompanyId(c)) + " — ")
    ensures c == JObj([]) ==> Label(c) == JStr("Company None")
    ensures JsonHandler.CompanyId(c) == JNull && Truthy(OrKeys(c, CompanyNameKeys)) ==> Label(c) == OrKeys(c, CompanyNameKeys)
  {
    var cid := JsonHandler.CompanyId(c);
    if cid != JNull {
      var head := Str(cid) + " — ";
      assert (head + Str(OptionName(c)))[..|head|] == head;
    }
  }

  /** A company without an id whose name is a list: `map_[label]` raises
      `TypeError`. */
  lemma ListNameRaises()
    ensures CompanyOptions([JObj([("name", JArr([JStr("a")]))])]).None?
  {
    var c := JObj([("name", JArr([JStr("a")]))]);
    assert JsonHandler.CompanyId(c) == JNull;
    assert OrKeys(c, CompanyNameKeys) == JArr([JStr("a")]);
    assert !Hashable(Label(c));
    OptionsRaiseAt([c], Label, JsonHandler.CompanyId, 0);
  }

  /** A company without an id whose name is a number keeps that number as
      its option and its key. */
  lemma IntNameKept()
    ensures CompanyOptions([JObj([("name", JInt(7))])]) == Some(Choices([JInt(7)], map[JInt(7) := JNull]))
  {
    var c := JObj([("name", JInt(7))]);
    assert JsonHandler.CompanyId(c) == JNull;
    assert OrKeys(c, CompanyNameKeys) == JInt(7);
    assert Label(c) == JInt(7);
    assert [c][..0] == [] && [c][..1] == [c];
    OptionsSnoc([c], Label, JsonHandler.CompanyId, 0, Choices([], map[]));
    var empty: seq<Json> := [];
    assert empty + [JInt(7)] == [JInt(7)];
    assert map[][JInt(7) := JNull] == map[JInt(7) := JNull];
  }

  // --------------------------------------------------- domains of a company

  /** `None if _cid(d) is None else str(_cid(d))`. */
  function OwnerText(d: Json): Option<string>
  {
    StrOrNone(OrKeys(d, JsonHandler.OwnerKeys))
  }

  /** The domains whose owner text is `t`, in order. */
  function Select(ds: seq<Json>, t: Option<string>): (r: seq<Json>)
    ensures |r| <= |ds|
    ensures forall d :: d in r <==> d in ds && OwnerText(d) == t
  {
    if ds == [] then []
    else
      var rest := Select(ds[1..], t);
      assert forall d :: d in ds <==> d == ds[0] || d in ds[1..];
      if OwnerText(ds[0]) == t then [ds[0]] + rest else rest
  }

  /** `filter_domains_for_company(ds, company_id)`; `None` stands for the
      `AttributeError` of a domain that is not a dict. */
  function DomainsFor(ds: seq<Json>, companyId: Json): Option<seq<Json>>
  {
    if exists i :: 0 <= i < |ds| && !ds[i].JObj? then None else Some(Select(ds, StrOrNone(companyId)))
  }

  /** The selection keeps the input's order: it distributes over concatenation. */
  lemma {:induction false} SelectAppend(a: seq<Json>, b: seq<Json>, t: Option<string>)
    ensures Select(a + b, t) == Select(a, t) + Select(b, t)
  {
    if a != [] {
      var ab := a + b;
      assert ab[0] == a[0];
      assert ab[1..] == a[1..] + b;
      SelectAppend(a[1..], b, t);
      SelectFirst(ab, t);
      SelectFirst(a, t);
      var head: seq<Json> := if OwnerText(a[0]) == t then [a[0]] else [];
      AppendAssoc(head, Select(a[1..], t), Select(b, t));
    } else {
      assert a + b == b;
    }
  }

  /** The first domain is kept or dropped, then the rest is selected. */
  lemma SelectFirst(ds: seq<Json>, t: Option<string>)
    requires ds != []
    ensures Select(ds, t) == (if OwnerText(ds[0]) == t then [ds[0]] else []) + Select(ds[1..], t)
  {
    if OwnerText(ds[0]) != t {
      assert [] + Select(ds[1..], t) == Select(ds[1..], t);
    }
  }

  /** Filtering twice changes nothing. */
  lemma {:induction false} SelectIdempotent(ds: seq<Json>, t: Option<string>)
    ensures Select(Select(ds, t), t) == Select(ds, t)
  {
    if ds != [] {
      SelectIdempotent(ds[1..], t);
      if OwnerText(ds[0]) == t {
        var r := [ds[0]] + Select(ds[1..], t);
        assert r[0] == ds[0] && r[1..] == Select(ds[1..], t);
      }
    }
  }

  lemma DomainsForIdempotent(ds: seq<Json>, companyId: Json)
    requires DomainsFor(ds, companyId).Some?
    ensures DomainsFor(DomainsFor(ds, companyId).value, companyId) == DomainsFor(ds, companyId)
  {
    var t := StrOrNone(companyId);
    var r := Select(ds, t);
    SelectIdempotent(ds, t);
    assert forall i :: 0 <= i < |r| ==> r[i] in ds;
  }

  /** A `None` target selects exactly the domains without an owner id. */
  lemma NoneTargetSelectsUnowned(ds: seq<Json>, d: Json)
    requires DomainsFor(ds, JNull).Some?
    ensures d in DomainsFor(ds, JNull).value <==> d in ds && OrKeys(d, JsonHandler.OwnerKeys) == JNull
  {
  }

  // ------------------------------------------------------- domain overview

  /** The many shapes of a findings response as a list of rows. */
  function ShapeRows(data: Json): (rows: seq<Json>)
    ensures data.JArr? ==> rows == data.items
    ensures data.JObj? && At(data, "findings").JArr? ==> rows == At(data, "findings").items
    ensures data.JObj? && !At(data, "findings").JArr? ==> rows == (if Truthy(data) then [data] else [])
    ensures !data.JArr? && !data.JObj? ==> rows == []
  {
    if data.JArr? then data.items
    else if data.JObj? && At(data, "findings").JArr? then At(data, "findings").items
    else if data.JObj? && Truthy(data) then [data]
    else []
  }

  /** One category's contribution: its dict rows without `"Category"`; nothing
      when the fetch failed. */
  function CategoryRows(resp: Fetched): seq<Json>
  {
    match resp
    case Err(_) => []
    case Ok(data) => RowCopies(ShapeRows(data))
  }

  /** The findings of all categories, in order. */
  function AllFindings(perCat: seq<Fetched>): (r: seq<Json>)
    ensures forall i :: 0 <= i < |r| ==> r[i].JObj? && "Category" !in Keys(r[i].fields)
  {
    if perCat == [] then []
    else AllFindings(perCat[..|perCat| - 1]) + CategoryRows(perCat[|perCat| - 1])
  }

  /** A finding is listed exactly when it is one of a category's rows: the
      copy of a dict row of a category whose fetch succeeded. */
  lemma {:induction false} AllFindingsMembers(perCat: seq<Fetched>, y: Json)
    ensures y in AllFindings(perCat) <==> exists i :: 0 <= i < |perCat| && y in CategoryRows(perCat[i])
  {
    if perCat != [] {
      var n := |perCat| - 1;
      AllFindingsMembers(perCat[..n], y);
      MembersSnoc(perCat, perCat[..n], CategoryRows, AllFindings(perCat[..n]), AllFindings(perCat), y);
    }
  }




  /** The score: the direct endpoint's number, else the mean of the rows'
      first convertible scores. */
  function ServiceScore(direct: Fetched, findings: seq<Json>): Option<real>
  {
    var s := match direct case Ok(v) => ExtractNumber(v) case Err(_) => None;
    if s.None? && findings != [] then
      var vals := FindingScores(findings);
      if vals != [] then Some(Mean(vals)) else None
    else s
  }

  /** The fetch of each category's findings, in `CATEGORY_NAMES` order. */
  function CategoryFetches(base: string, net: Net, domainId: Json): (r: seq<Fetched>)
    ensures |r| == |CategoryNames|
  {
    seq(|CategoryNames|, i requires 0 <= i < |CategoryNames| => Fetch(base, net, FindingsByCategory(domainId, CategoryNames[i])))
  }

  /** `domain_overview(domain_id)` of `services.py`. */
  function ServiceOverview(base: string, net: Net, domainId: Json): Overview
  {
    var findings := AllFindings(CategoryFetches(base, net, domainId));
    Overview(ServiceScore(Fetch(base, net, DomainScore(domainId)), findings), findings)
  }

  method DomainOverviewLive(base: string, net: Net, domainId: Json) returns (o: Overview)
    ensures o == ServiceOverview(base, net, domainId)
  {
    var direct := Fetch(base, net, DomainScore(domainId));
    var findings := CategoryFindings(base, net, domainId);
    var score := LiveScore(direct, findings);
    return Overview(score, findings);
  }

  /** The score step of `domain_overview`: the direct number, else the mean
      of the collected finding scores. */
  method LiveScore(direct: Fetched, findings: seq<Json>) returns (score: Option<real>)
    ensures score == ServiceScore(direct, findings)
  {
    score := match direct case Ok(v) => ExtractNumber(v) case Err(_) => None;
    if score.None? && findings != [] {
      var vals := CollectScores(findings);
      if vals != [] {
        score := Some(Mean(vals));
      }
    }
  }

  /** The loop of `domain_overview` over `CATEGORY_NAMES`. */
  method CategoryFindings(base: string, net: Net, domainId: Json) returns (findings: seq<Json>)
    ensures findings == AllFindings(CategoryFetches(base, net, domainId))
  {
    ghost var perCat := CategoryFetches(base, net, domainId);
    findings := [];
    var i := 0;
    while i < |CategoryNames|
      invariant 0 <= i <= |CategoryNames|
      invariant findings == AllFindings(perCat[..i])
    {
      var data := Fetch(base, net, FindingsByCategory(domainId, CategoryNames[i]));
      assert data == perCat[i];
      AllFindingsSnoc(perCat, i);
      findings := AddCategory(findings, data);
      i := i + 1;
    }
    assert perCat[..i] == perCat;
  }

  /** One iteration: a failed fetch adds nothing, a successful one its rows. */
  method AddCategory(findings: seq<Json>, data: Fetched) returns (r: seq<Json>)
    ensures r == findings + CategoryRows(data)
  {
    r := findings;
    if data.Ok? {
      var rows := RowCopiesOf(ShapeRows(data.value));
      r := r + rows;
    }
  }

  /** The pop-and-keep loop over one category's rows. */
  method RowCopiesOf(rows: seq<Json>) returns (kept: seq<Json>)
    ensures kept == RowCopies(rows)
  {
    kept := [];
    var k := 0;
    while k < |rows|
      invariant 0 <= k <= |rows|
      invariant kept == RowCopies(rows[..k])
    {
      assert rows[..k + 1][..k] == rows[..k];
      if rows[k].JObj? {
        kept := kept + [JObj(Remove(rows[k].fields, "Category"))];
      }
      k := k + 1;
    }
    assert rows[..k] == rows;
  }

  lemma AllFindingsSnoc(perCat: seq<Fetched>, i: nat)
    requires i < |perCat|
    ensures AllFindings(perCat[..i + 1]) == AllFindings(perCat[..i]) + CategoryRows(perCat[i])
  {
    assert perCat[..i + 1][..i] == perCat[..i];
  }

  lemma {:induction false} AllFindingsAppend(a: seq<Fetched>, b: seq<Fetched>)
    ensures AllFindings(a + b) == AllFindings(a) + AllFindings(b)
    decreases |b|
  {
    if b == [] {
      assert a + b == a;
    } else {
      var n := |b| - 1;
      AllFindingsAppend(a, b[..n]);
      AllFindingsLast(a, b);
      AppendAssoc(AllFindings(a), AllFindings(b[..n]), CategoryRows(b[n]));
    }
  }

  /** The last category of `a + b` is the last of `b`. */
  lemma AllFindingsLast(a: seq<Fetched>, b: seq<Fetched>)
    requires b != []
    ensures AllFindings(a + b) == AllFindings(a + b[..|b| - 1]) + CategoryRows(b[|b| - 1])
  {
    var ab := a + b;
    assert ab[|ab| - 1] == b[|b| - 1];
    assert ab[..|ab| - 1] == a + b[..|b| - 1];
  }

  lemma UpdateSplit<T>(s: seq<T>, i: nat, x: T)
    requires i < |s|
    ensures s[i := x] == s[..i] + [x] + s[i + 1..]
  {
  }

  lemma FailedFetchAddsNothing(e: Error)
    ensures AllFindings([Err(e)]) == []
  {
    assert [Err(e)][..0] == [];
  }

  /** A failing category fetch removes that category's rows and no others. */
  lemma FailureSkipped(perCat: seq<Fetched>, i: nat, e: Error)
    requires i < |perCat|
    ensures AllFindings(perCat[i := Err(e)]) == AllFindings(perCat[..i]) + AllFindings(perCat[i + 1..])
  {
    UpdateSplit(perCat, i, Err(e));
    AllFindingsAppend(perCat[..i] + [Err(e)], perCat[i + 1..]);
    AllFindingsAppend(perCat[..i], [Err(e)]);
    FailedFetchAddsNothing(e);
  }

  /** A number from the score endpoint is the score, whatever the findings. */
  lemma DirectScoreWins(v: Json, findings: seq<Json>)
    requires ExtractNumber(v).Some?
    ensures ServiceScore(Ok(v), findings) == ExtractNumber(v)
  {
  }

  /** The fallback score lies between the smallest and largest row score. */
  lemma FallbackBounds(direct: Fetched, findings: seq<Json>, lo: real, hi: real)
    requires direct.Err? || ExtractNumber(direct.value).None?
    requires FindingScores(findings) != []
    requires forall i :: 0 <= i < |FindingScores(findings)| ==> lo <= FindingScores(findings)[i] <= hi
    ensures ServiceScore(direct, findings).Some?
    ensures lo <= ServiceScore(direct, findings).value <= hi
  {
    assert findings != [];
    MeanBounds(FindingScores(findings), lo, hi);
  }

  // ------------------------------------------- the raw findings table filters

  const IpColumns: seq<string> := ["IP address", "ip_address", "address", "ip", "IP"]
  const TypeColumns: seq<string> := ["Type", "finding_type", "Category", "category"]
  const LevelColumns: seq<string> := ["Severity level", "severity_level", "severity", "level"]
  const DateColumns: seq<string> := ["Found date", "found_date", "date_found", "found", "Date"]

  /** `pick(cands)`: the first candidate that is a column. */
  function Pick(columns: seq<string>, cands: seq<string>): (r: Option<string>)
    ensures r.Some? ==> r.value in columns && r.value in cands
    ensures r.None? <==> forall i :: 0 <= i < |cands| ==> cands[i] !in columns
  {
    if cands == [] then None
    else if cands[0] in columns then Some(cands[0])
    else
      var r := Pick(columns, cands[1..]);
      assert forall i :: 1 <= i < |cands| ==> cands[i] == cands[1..][i - 1];
      r
  }

  /** The first candidate present wins over every later one. */
  lemma {:induction false} PickFirst(columns: seq<string>, cands: seq<string>, i: nat)
    requires i < |cands| && cands[i] in columns
    requires forall j :: 0 <= j < i ==> cands[j] !in columns
    ensures Pick(columns, cands) == Some(cands[i])
    decreases i
  {
    if i > 0 {
      PickFirst(columns, cands[1..], i - 1);
    }
  }

  datatype DomainCols = DomainCols(ip: Option<string>, findingType: Option<string>, level: Option<string>, foundDate: Option<string>)

  /** `_resolve_domain_cols(df)` over the table's column names. */
  function ResolveDomainCols(columns: seq<string>): DomainCols
  {
    DomainCols(Pick(columns, IpColumns), Pick(columns, TypeColumns), Pick(columns, LevelColumns), Pick(columns, DateColumns))
  }

  /** The columns of `pd.DataFrame(rows)`: the keys of the dict rows, each
      once, in order of first appearance. */
  function Columns(rows: seq<Json>): (cols: seq<string>)
    ensures forall k :: k in cols <==> exists i :: 0 <= i < |rows| && Has(rows[i], k)
    ensures forall i, j :: 0 <= i < j < |cols| ==> cols[i] != cols[j]
  {
    if rows == [] then []
    else
      var n := |rows| - 1;
      var last := rows[n];
      var r := AddColumns(Columns(rows[..n]), if last.JObj? then Keys(last.fields) else []);
      ColumnsSnoc(rows, r);
      r
  }

  /** The membership step of `Columns`: the last row adds its own keys. */
  lemma ColumnsSnoc(rows: seq<Json>, r: seq<string>)
    requires rows != []
    requires var n := |rows| - 1;
      forall k :: k in r <==> (k in Columns(rows[..n]) || Has(rows[n], k))
    ensures forall k :: k in r <==> exists i :: 0 <= i < |rows| && Has(rows[i], k)
  {
    var n := |rows| - 1;
    assert forall i :: 0 <= i < n ==> rows[..n][i] == rows[i];
  }

  /** The keys `ks` not yet among `cols` appended to them, in order, each
      once. */
  function AddColumns(cols: seq<string>, ks: seq<string>): (r: seq<string>)
    ensures forall k :: k in r <==> k in cols || k in ks
    ensures |cols| <= |r| && r[..|cols|] == cols
    ensures (forall i, j :: 0 <= i < j < |cols| ==> cols[i] != cols[j]) ==> forall i, j :: 0 <= i < j < |r| ==> r[i] != r[j]
  {
    if ks == [] then cols
    else
      var n := |ks| - 1;
      var c := AddColumns(cols, ks[..n]);
      assert forall k :: k in ks <==> k in ks[..n] || k == ks[n];
      if ks[n] in c then c else c + [ks[n]]
  }

  /** `df[col].astype(str)` at one row; a row without the column holds NaN. */
  function CellText(row: Json, col: string): string
  {
    if Has(row, col) then Str(At(row, col)) else "nan"
  }

  /** The rows whose cell in `col` reads `value`, in order. */
  function KeepEqual(rows: seq<Json>, col: string, value: string): (r: seq<Json>)
    ensures |r| <= |rows|
    ensures forall x :: x in r <==> x in rows && CellText(x, col) == value
  {
    if rows == [] then []
    else
      var rest := KeepEqual(rows[1..], col, value);
      assert forall x :: x in rows <==> x == rows[0] || x in rows[1..];
      if CellText(rows[0], col) == value then [rows[0]] + rest else rest
  }

  /** A filter is on when its value is given, is not `"All"`, and its column
      was resolved. */
  predicate Active(value: Option<string>, col: Option<string>)
  {
    value.Some? && value.value != "" && value.value != "All" && col.Some?
  }

  function Narrow(rows: seq<Json>, value: Option<string>, col: Option<string>): seq<Json>
  {
    if Active(value, col) then KeepEqual(rows, col.value, value.value) else rows
  }

  /** The ip, type and level filters of `filter_domain_findings_original`. */
  function FilterOriginal(rows: seq<Json>, ip: Option<string>, findingType: Option<string>, level: Option<string>): seq<Json>
  {
    if rows == [] then rows
    else
      var cols := ResolveDomainCols(Columns(rows));
      Narrow(Narrow(Narrow(rows, ip, cols.ip), findingType, cols.findingType), level, cols.level)
  }

  /** The table reassigned filter by filter. */
  method FilterDomainFindingsOriginal(rows: seq<Json>, ip: Option<string>, findingType: Option<string>, level: Option<string>)
    returns (df: seq<Json>)
    ensures df == FilterOriginal(rows, ip, findingType, level)
  {
    df := rows;
    if df == [] {
      return;
    }
    var cols := ResolveDomainCols(Columns(df));
    if Active(ip, cols.ip) {
      df := KeepEqual(df, cols.ip.value, ip.value);
    }
    if Active(findingType, cols.findingType) {
      df := KeepEqual(df, cols.findingType.value, findingType.value);
    }
    if Active(level, cols.level) {
      df := KeepEqual(df, cols.level.value, level.value);
    }
  }

  /** The row passes every active filter. */
  predicate Passes(row: Json, ip: Option<string>, findingType: Option<string>, level: Option<string>, cols: DomainCols)
  {
    (Active(ip, cols.ip) ==> CellText(row, cols.ip.value) == ip.value) &&
    (Active(findingType, cols.findingType) ==> CellText(row, cols.findingType.value) == findingType.value) &&
    (Active(level, cols.level) ==> CellText(row, cols.level.value) == level.value)
  }

  /** The output is the input rows that pass every active filter: a subset of
      the input, and with no filter active the input itself. */
  lemma FilterOriginalMeaning(rows: seq<Json>, ip: Option<string>, findingType: Option<string>, level: Option<string>, x: Json)
    requires rows != []
    ensures var cols := ResolveDomainCols(Columns(rows));
      x in FilterOriginal(rows, ip, findingType, level) <==> x in rows && Passes(x, ip, findingType, level, cols)
    ensures |FilterOriginal(rows, ip, findingType, level)| <= |rows|
  {
  }

  /** Filters whose value is absent, empty or `"All"` are inactive. */
  lemma AllMeansNoFilter(rows: seq<Json>)
    ensures FilterOriginal(rows, Some("All"), Some(""), None) == rows
  {
  }

  /** Each equality filter keeps the order of the rows it keeps. */
  lemma {:induction false} KeepEqualAppend(a: seq<Json>, b: seq<Json>, col: string, value: string)
    ensures KeepEqual(a + b, col, value) == KeepEqual(a, col, value) + KeepEqual(b, col, value)
  {
    if a != [] {
      var ab := a + b;
      assert ab[0] == a[0];
      assert ab[1..] == a[1..] + b;
      KeepEqualAppend(a[1..], b, col, value);
      KeepEqualFirst(ab, col, value);
      KeepEqualFirst(a, col, value);
      var head: seq<Json> := if CellText(a[0], col) == value then [a[0]] else [];
      AppendAssoc(head, KeepEqual(a[1..], col, value), KeepEqual(b, col, value));
    } else {
      assert a + b == b;
    }
  }

  /** The first row is kept or dropped, then the rest is filtered. */
  lemma KeepEqualFirst(rows: seq<Json>, col: string, value: string)
    requires rows != []
    ensures KeepEqual(rows, col, value) ==
      (if CellText(rows[0], col) == value then [rows[0]] else []) + KeepEqual(rows[1..], col, value)
  {
    if CellText(rows[0], col) != value {
      assert [] + KeepEqual(rows[1..], col, value) == KeepEqual(rows[1..], col, value);
    }
  }
}
