/** The per-company bundle layer of `json_handler.py`: the recursive
    removal of hypermedia keys, the builder that assembles one canonical
    record per company from the API's answers, and the store of bundle files
    with its build, refresh and rebuild passes.  The API is a parameter (its
    answers are given as functions), the directory is an in-memory map and
    the clock is a parameter. */
module JsonHandler {
  import opened Text
  import opened JsonValue
  import opened Helpers

  // ---------------------------------------------------------- _strip_transport

  /** Keys whose lowercased text marks a hypermedia link. */
  const TransportKeys: seq<string> := ["href", "links", "link", "rel"]

  predicate IsTransport(k: string)
  {
    Lower(k) in TransportKeys
  }

  /** The bindings whose key is not a transport key, in order. */
  function DropTransport(fields: seq<(string, Json)>): (r: seq<(string, Json)>)
    ensures |r| <= |fields|
    ensures forall i :: 0 <= i < |r| ==> !IsTransport(r[i].0)
    ensures forall p :: p in r <==> p in fields && !IsTransport(p.0)
  {
    if fields == [] then []
    else
      var rest := DropTransport(fields[1..]);
      assert forall p :: p in fields <==> p == fields[0] || p in fields[1..];
      if IsTransport(fields[0].0) then rest else [fields[0]] + rest
  }

  /** The keys that survive, in order. */
  function KeptKeys(ks: seq<string>): seq<string>
  {
    if ks == [] then []
    else if IsTransport(ks[0]) then KeptKeys(ks[1..])
    else [ks[0]] + KeptKeys(ks[1..])
  }

  /** `_strip_transport(obj)`: transport keys are dropped from every dict at
      every depth; lists keep their length and scalars are returned as is. */
  function StripTransport(v: Json): (r: Json)
    ensures v.JObj? <==> r.JObj?
    ensures v.JArr? ==> r.JArr? && |r.items| == |v.items|
    ensures !v.JObj? && !v.JArr? ==> r == v
    decreases v
  {
    match v
    case JObj(fields) =>
      JObj(DropTransport(seq(|fields|, i requires 0 <= i < |fields| => (fields[i].0, StripTransport(fields[i].1)))))
    case JArr(items) =>
      JArr(seq(|items|, i requires 0 <= i < |items| => StripTransport(items[i])))
    case _ => v
  }

  /** No dict anywhere inside `v` has a transport key. */
  predicate NoTransport(v: Json)
    decreases v
  {
    match v
    case JObj(fields) => forall i :: 0 <= i < |fields| ==> !IsTransport(fields[i].0) && NoTransport(fields[i].1)
    case JArr(items) => forall i :: 0 <= i < |items| ==> NoTransport(items[i])
    case _ => true
  }

  lemma {:induction false} DropTransportKeys(fields: seq<(string, Json)>)
    ensures Keys(DropTransport(fields)) == KeptKeys(Keys(fields))
  {
    if fields != [] {
      DropTransportKeys(fields[1..]);
      assert Keys(fields)[1..] == Keys(fields[1..]);
      var rest := DropTransport(fields[1..]);
      if !IsTransport(fields[0].0) {
        assert Keys([fields[0]] + rest) == [fields[0].0] + Keys(rest);
      }
    }
  }

  /** A dict keeps its other keys, in their order. */
  lemma StripKeepsKeys(fields: seq<(string, Json)>)
    ensures Keys(StripTransport(JObj(fields)).fields) == KeptKeys(Keys(fields))
  {
    var stripped := seq(|fields|, i requires 0 <= i < |fields| => (fields[i].0, StripTransport(fields[i].1)));
    DropTransportKeys(stripped);
    assert Keys(stripped) == Keys(fields);
  }

  /** Nothing transport-shaped is left at any depth. */
  lemma {:induction false} StripClean(v: Json)
    ensures NoTransport(StripTransport(v))
    decreases v
  {
    match v
    case JObj(fields) =>
      var stripped := seq(|fields|, i requires 0 <= i < |fields| => (fields[i].0, StripTransport(fields[i].1)));
      var r := DropTransport(stripped);
      forall i | 0 <= i < |r| ensures NoTransport(r[i].1) {
        assert r[i] in stripped;
        var j :| 0 <= j < |stripped| && stripped[j] == r[i];
        StripClean(fields[j].1);
      }
    case JArr(items) =>
      forall i | 0 <= i < |items| ensures NoTransport(StripTransport(items[i])) {
        StripClean(items[i]);
      }
    case _ =>
  }

  lemma {:induction false} DropTransportNone(fields: seq<(string, Json)>)
    requires forall i :: 0 <= i < |fields| ==> !IsTransport(fields[i].0)
    ensures DropTransport(fields) == fields
  {
    if fields != [] {
      DropTransportNone(fields[1..]);
    }
  }

  /** A value with nothing to strip is returned unchanged. */
  lemma {:induction false} StripFixed(v: Json)
    requires NoTransport(v)
    ensures StripTransport(v) == v
    decreases v
  {
    match v
    case JObj(fields) =>
      var stripped := seq(|fields|, i requires 0 <= i < |fields| => (fields[i].0, StripTransport(fields[i].1)));
      forall i | 0 <= i < |fields| ensures stripped[i] == fields[i] {
        StripFixed(fields[i].1);
      }
      assert stripped == fields;
      DropTransportNone(fields);
    case JArr(items) =>
      var stripped := seq(|items|, i requires 0 <= i < |items| => StripTransport(items[i]));
      forall i | 0 <= i < |items| ensures stripped[i] == items[i] {
        StripFixed(items[i]);
      }
      assert stripped == items;
    case _ =>
  }

  /** Stripping twice is stripping once. */
  lemma StripIdempotent(v: Json)
    ensures StripTransport(StripTransport(v)) == StripTransport(v)
  {
    StripClean(v);
    StripFixed(StripTransport(v));
  }

  // ------------------------------------------------------ build_company_bundle

  /** What an API call does: returns a decoded body or raises. */
  datatype Outcome = Ok(value: Json) | Failed(error: string)

  /** The API endpoints the builder calls, as functions of their arguments. */
  datatype Api = Api(
    riskGrade: Json -> Outcome,
    categoryGpa: (Json, string) -> Outcome,
    domainScore: Json -> Outcome,
    findings: (Json, string) -> Outcome)

  /** A computation that returns a value or lets an exception through. */
  datatype Built<T> = Done(value: T) | Raises(error: string)

  /** The error of the first outcome that raises. */
  function FirstError<U>(outs: seq<Built<U>>): string
  {
    if outs == [] then ""
    else if outs[0].Raises? then outs[0].error
    else FirstError(outs[1..])
  }

  /** The outcome of a loop that performs the steps in order and stops at
      the first exception: every value when no step raises, else the first
      step's exception. */
  function Collect<U>(outs: seq<Built<U>>): (r: Built<seq<U>>)
    ensures r.Done? <==> forall i :: 0 <= i < |outs| ==> outs[i].Done?
    ensures r.Done? ==> |r.value| == |outs| && forall i :: 0 <= i < |outs| ==> r.value[i] == outs[i].value
  {
    if forall i :: 0 <= i < |outs| ==> outs[i].Done? then
      Done(seq(|outs|, i requires 0 <= i < |outs| => outs[i].value))
    else Raises(FirstError(outs))
  }

  /** The exception is the one of the first step that raises. */
  lemma {:induction false} FirstErrorAt<U>(outs: seq<Built<U>>, i: nat)
    requires i < |outs| && outs[i].Raises?
    requires forall k :: 0 <= k < i ==> outs[k].Done?
    ensures FirstError(outs) == outs[i].error
    decreases i
  {
    if i > 0 {
      assert outs[1..][i - 1] == outs[i];
      FirstErrorAt(outs[1..], i - 1);
    }
  }

  const CompanyIdKeys: seq<string> := ["company_id", "id"]
  const OwnerKeys: seq<string> := ["company_id", "companyId", "cid"]
  const DomainNameKeys: seq<string> := ["domain_name", "domain", "name"]

  /** `company.get("company_id") or company.get("id")`. */
  function CompanyId(c: Json): Json
  {
    OrKeys(c, CompanyIdKeys)
  }

  /** The row read from a category payload: the first element of a
      non-empty list, the payload itself otherwise, and a null row carrying
      the category's name when that is not a dict. */
  function CategoryRow(cat: string, payload: Json): (row: Json)
    ensures row.JObj?
  {
    var row := if payload.JArr? && payload.items != [] then payload.items[0] else payload;
    if row.JObj? then row
    else NullRow(cat)
  }

  /** The row used when a payload holds no dict. */
  function NullRow(cat: string): Json
  {
    JObj([("Category", JStr(cat)), ("category_gpa", JNull), ("category_score", JNull)])
  }

  const RecordKeys: seq<string> := ["Category", "category_gpa", "category_score", "aggregated_at"]
  const GpaKeys: seq<string> := ["category_gpa", "gpa", "value"]
  const CategoryScoreKeys: seq<string> := ["category_score", "score"]

  /** A category record with its four fields in order. */
  function Record(name: Json, gpa: Json, score: Json, aggregated: Json): (r: Json)
    ensures r.JObj? && Keys(r.fields) == RecordKeys
  {
    JObj([("Category", name), ("category_gpa", gpa), ("category_score", score), ("aggregated_at", aggregated)])
  }

  /** The bundle's record for one category. */
  function CategoryRecord(cat: string, payload: Json): Json
  {
    var row := CategoryRow(cat, payload);
    Record(Or(OrKeys(row, ["Category", "category"]), JStr(cat)),
           FromOptReal(ToFloat(OrKeys(row, GpaKeys))),
           FromOptReal(ToFloat(OrKeys(row, CategoryScoreKeys))),
           Or(OrKeys(row, ["aggregated_at", "date"]), JNull))
  }

  /** One iteration of the category loop. */
  function CategoryOutcome(api: Api, cid: Json, cat: string): Built<Json>
  {
    match api.categoryGpa(cid, cat)
    case Ok(payload) => Done(CategoryRecord(cat, payload))
    case Failed(e) => Raises(e)
  }

  function CategoryOutcomes(api: Api, cid: Json): (r: seq<Built<Json>>)
    ensures |r| == |CategoryNames| && forall k :: 0 <= k < |r| ==> r[k] == CategoryOutcome(api, cid, CategoryNames[k])
  {
    seq(|CategoryNames|, k requires 0 <= k < |CategoryNames| => CategoryOutcome(api, cid, CategoryNames[k]))
  }

  /** The domains of the company, in order; `None` when an entry is not a
      dict (`d.get` raises). */
  function CompanyDomains(all: seq<Json>, cid: Json): (r: Option<seq<Json>>)
    ensures r.Some? <==> forall i :: 0 <= i < |all| ==> all[i].JObj?
    ensures r.Some? ==> r.value == Owned(all, cid)
  {
    if forall i :: 0 <= i < |all| ==> all[i].JObj? then Some(Owned(all, cid)) else None
  }

  /** `[d for d in all if str(_dcid(d)) == str(cid)]`. */
  function Owned(all: seq<Json>, cid: Json): (r: seq<Json>)
    ensures forall d :: d in r <==> d in all && Str(OrKeys(d, OwnerKeys)) == Str(cid)
    ensures |r| <= |all|
  {
    if all == [] then []
    else
      assert forall d :: d in all <==> d == all[0] || d in all[1..];
      var rest := Owned(all[1..], cid);
      if Str(OrKeys(all[0], OwnerKeys)) == Str(cid) then [all[0]] + rest else rest
  }

  /** The rows of a findings payload: a dict's `findings` list, a list
      itself, a non-empty dict as its only row, or none. */
  function FindingsRows(raw: Json): seq<Json>
  {
    if raw.JObj? && At(raw, "findings").JArr? then At(raw, "findings").items
    else if raw.JArr? then raw.items
    else if raw.JObj? && raw.fields != [] then [raw]
    else []
  }

  /** The dict rows, without `"Category"` and with transport keys stripped. */
  function CleanRows(rows: seq<Json>): (r: seq<Json>)
    ensures |r| <= |rows|
    ensures forall i :: 0 <= i < |r| ==> r[i].JObj? && "Category" !in Keys(r[i].fields) && NoTransport(r[i])
  {
    if rows == [] then []
    else
      var rest := CleanRows(rows[1..]);
      if rows[0].JObj? then
        var row := StripTransport(JObj(Remove(rows[0].fields, "Category")));
        StripClean(JObj(Remove(rows[0].fields, "Category")));
        StripKeepsKeys(Remove(rows[0].fields, "Category"));
        KeptKeysSub(Keys(Remove(rows[0].fields, "Category")), "Category");
        [row] + rest
      else rest
  }

  /** Filtering keys only removes some. */
  lemma {:induction false} KeptKeysSub(ks: seq<string>, k: string)
    requires k !in ks
    ensures k !in KeptKeys(ks)
  {
    if ks != [] {
      KeptKeysSub(ks[1..], k);
    }
  }

  /** One iteration of the per-category findings loop. */
  function FindingsOutcome(api: Api, did: Json, cat: string): Built<Json>
  {
    match api.findings(did, cat)
    case Ok(raw) => Done(JArr(CleanRows(FindingsRows(raw))))
    case Failed(e) => Raises(e)
  }

  function FindingsOutcomes(api: Api, did: Json): (r: seq<Built<Json>>)
    ensures |r| == |CategoryNames| && forall k :: 0 <= k < |r| ==> r[k] == FindingsOutcome(api, did, CategoryNames[k])
  {
    seq(|CategoryNames|, k requires 0 <= k < |CategoryNames| => FindingsOutcome(api, did, CategoryNames[k]))
  }

  /** A domain score fetch that fails is absorbed as `None`. */
  function DomainScoreOf(api: Api, did: Json): Json
  {
    match api.domainScore(did)
    case Ok(v) => FromOptReal(ToFloat(v))
    case Failed(_) => JNull
  }

  function Zip(ks: seq<string>, vs: seq<Json>): (r: seq<(string, Json)>)
    requires |ks| == |vs|
    ensures |r| == |ks| && forall i :: 0 <= i < |ks| ==> r[i] == (ks[i], vs[i])
  {
    seq(|ks|, i requires 0 <= i < |ks| => (ks[i], vs[i]))
  }

  const DomainKeys: seq<string> := ["domain_id", "domain_name", "domain_score", "findings_by_category"]

  /** A domain record with its four fields in order. */
  function DomainRec(did: Json, name: Json, score: Json, perCat: Json): (r: Json)
    ensures r.JObj? && Keys(r.fields) == DomainKeys
  {
    JObj([("domain_id", did), ("domain_name", name), ("domain_score", score), ("findings_by_category", perCat)])
  }

  /** The bundle's record for one domain, from its findings lists. */
  function DomainRecord(api: Api, d: Json, lists: seq<Json>): Json
    requires |lists| == |CategoryNames|
  {
    var did := OrKeys(d, DomainIdKeys);
    DomainRec(did, OrKeys(d, DomainNameKeys), DomainScoreOf(api, did), JObj(Zip(CategoryNames, lists)))
  }

  /** One iteration of the domain loop (over stripped domains). */
  function DomainOutcome(api: Api, d: Json): Built<Json>
  {
    match Collect(FindingsOutcomes(api, OrKeys(d, DomainIdKeys)))
    case Raises(e) => Raises(e)
    case Done(lists) => Done(DomainRecord(api, d, lists))
  }

  function DomainOutcomes(api: Api, ds: seq<Json>): (r: seq<Built<Json>>)
    ensures |r| == |ds| && forall j :: 0 <= j < |ds| ==> r[j] == DomainOutcome(api, ds[j])
  {
    seq(|ds|, j requires 0 <= j < |ds| => DomainOutcome(api, ds[j]))
  }

  const BundleKeys: seq<string> := ["schema_version", "generated_at", "company_id", "company", "risk_grade", "categories", "domains"]

  /** The bundle document assembled from its (already stripped) parts. */
  function Bundle(cid: Json, company: Json, grade: Json, categories: seq<Json>, details: seq<Json>, now: string): (b: Json)
    ensures b.JObj? && Keys(b.fields) == BundleKeys
  {
    JObj([
      ("schema_version", JInt(1)),
      ("generated_at", JStr(now)),
      ("company_id", cid),
      ("company", company),
      ("risk_grade", grade),
      ("categories", JArr(categories)),
      ("domains", JArr(details))
    ])
  }

  function StripAll(vs: seq<Json>): (r: seq<Json>)
    ensures |r| == |vs| && forall i :: 0 <= i < |vs| ==> r[i] == StripTransport(vs[i])
  {
    seq(|vs|, i requires 0 <= i < |vs| => StripTransport(vs[i]))
  }

  /** The domain part of the build. */
  function BuildDomains(all: seq<Json>, cid: Json, api: Api): Built<seq<Json>>
  {
    match CompanyDomains(all, cid)
    case None => Raises("AttributeError")
    case Some(owned) => Collect(DomainOutcomes(api, StripAll(owned)))
  }

  /** `build_company_bundle(company, all_domains)` at time `now`. */
  function BuildBundle(company: Json, all: seq<Json>, api: Api, now: string): Built<Json>
  {
    if !company.JObj? then Raises("AttributeError")
    else if CompanyId(company).JNull? then Raises("Company has no ID")
    else
      var cid := CompanyId(company);
      match api.riskGrade(cid)
      case Failed(e) => Raises(e)
      case Ok(grade) =>
        match Collect(CategoryOutcomes(api, cid))
        case Raises(e) => Raises(e)
        case Done(categories) =>
          match BuildDomains(all, cid, api)
          case Raises(e) => Raises(e)
          case Done(details) =>
            Done(Bundle(cid, StripTransport(company), StripTransport(Or(grade, JObj([]))), categories, details, now))
  }

  // ------------------------------------------------- properties of the build

  /** A domain's record is built iff every findings fetch for it succeeds;
      the domain score never matters. */
  lemma DomainOutcomeDone(api: Api, d: Json)
    ensures DomainOutcome(api, d).Done? <==>
      forall k :: 0 <= k < |CategoryNames| ==> api.findings(OrKeys(d, DomainIdKeys), CategoryNames[k]).Ok?
  {
  }

  /** Some findings fetch for one of the domains `ds` fails. */
  predicate SomeFindingsFail(api: Api, ds: seq<Json>)
  {
    exists j, k :: 0 <= j < |ds| && 0 <= k < |CategoryNames| &&
      api.findings(OrKeys(ds[j], DomainIdKeys), CategoryNames[k]).Failed?
  }

  /** The domain loop raises iff a findings fetch for one of the domains
      fails. */
  lemma DomainLoopRaises(api: Api, ds: seq<Json>)
    ensures Collect(DomainOutcomes(api, ds)).Raises? <==> SomeFindingsFail(api, ds)
  {
    forall j | 0 <= j < |ds| {
      DomainOutcomeDone(api, ds[j]);
    }
  }

  /** With every entry a dict, the domain part raises iff a findings fetch
      for a kept domain, with its transport fields stripped, fails. */
  lemma BuildDomainsOfDicts(all: seq<Json>, cid: Json, api: Api)
    requires forall i :: 0 <= i < |all| ==> all[i].JObj?
    ensures BuildDomains(all, cid, api).Raises? <==> SomeFindingsFail(api, StripAll(Owned(all, cid)))
  {
    var ds := StripAll(Owned(all, cid));
    assert BuildDomains(all, cid, api) == Collect(DomainOutcomes(api, ds));
    DomainLoopRaises(api, ds);
  }

  /** The domain part raises iff a domain entry is not a dict or a findings
      fetch for a kept domain fails. */
  lemma BuildDomainsRaises(all: seq<Json>, cid: Json, api: Api)
    ensures BuildDomains(all, cid, api).Raises? <==>
      (exists i :: 0 <= i < |all| && !all[i].JObj?) || SomeFindingsFail(api, StripAll(Owned(all, cid)))
  {
    if forall i :: 0 <= i < |all| ==> all[i].JObj? {
      BuildDomainsOfDicts(all, cid, api);
    }
  }

  /** The build raises iff the company is not a dict, has no id, or one of
      the risk-grade, category, domain or findings steps raises. */
  lemma BuildRaises(company: Json, all: seq<Json>, api: Api, now: string)
    ensures BuildBundle(company, all, api, now).Raises? <==>
      !company.JObj? || CompanyId(company).JNull? ||
      api.riskGrade(CompanyId(company)).Failed? ||
      (exists k :: 0 <= k < |CategoryNames| && api.categoryGpa(CompanyId(company), CategoryNames[k]).Failed?) ||
      BuildDomains(all, CompanyId(company), api).Raises?
  {
  }

  /** `{"company_id": 0}` has no id: `0 or None` is `None`. */
  lemma ZeroIdIsMissing(all: seq<Json>, api: Api, now: string)
    ensures BuildBundle(JObj([("company_id", JInt(0))]), all, api, now) == Raises("Company has no ID")
  {
    assert CompanyId(JObj([("company_id", JInt(0))])) == JNull;
  }

  /** No two bundle keys are equal. */
  lemma BundleKeysDistinct()
    ensures forall i, j :: 0 <= i < j < |BundleKeys| ==> BundleKeys[i] != BundleKeys[j]
  {
  }

  /** Each field of an assembled bundle is found under its key. */
  lemma BundleAt(cid: Json, company: Json, grade: Json, categories: seq<Json>, details: seq<Json>, now: string, k: nat)
    requires k < |BundleKeys|
    ensures var b := Bundle(cid, company, grade, categories, details, now);
      At(b, BundleKeys[k]) == b.fields[k].1
  {
    var b := Bundle(cid, company, grade, categories, details, now);
    BundleKeysDistinct();
    GetAt(b.fields, k);
  }

  /** A bundle that is built is assembled from the successful steps. */
  lemma BuiltFrom(company: Json, all: seq<Json>, api: Api, now: string)
    requires BuildBundle(company, all, api, now).Done?
    ensures company.JObj? && CompanyId(company) != JNull
    ensures api.riskGrade(CompanyId(company)).Ok?
    ensures Collect(CategoryOutcomes(api, CompanyId(company))).Done?
    ensures BuildDomains(all, CompanyId(company), api).Done?
    ensures BuildBundle(company, all, api, now).value ==
      Bundle(CompanyId(company), StripTransport(company),
             StripTransport(Or(api.riskGrade(CompanyId(company)).value, JObj([]))),
             Collect(CategoryOutcomes(api, CompanyId(company))).value,
             BuildDomains(all, CompanyId(company), api).value, now)
  {
  }

  /** A built bundle carries the company's (stripped) record and its id,
      which is never null. */
  lemma BundleIdentity(company: Json, all: seq<Json>, api: Api, now: string)
    requires BuildBundle(company, all, api, now).Done?
    ensures var b := BuildBundle(company, all, api, now).value;
      && b.JObj? && Keys(b.fields) == BundleKeys
      && At(b, "schema_version") == JInt(1)
      && At(b, "company_id") == CompanyId(company) != JNull
      && At(b, "company") == StripTransport(company) && NoTransport(At(b, "company"))
  {
    BuiltFrom(company, all, api, now);
    var cid := CompanyId(company);
    var company' := StripTransport(company);
    var grade := StripTransport(Or(api.riskGrade(cid).value, JObj([])));
    var cats := Collect(CategoryOutcomes(api, cid)).value;
    var details := BuildDomains(all, cid, api).value;
    BundleAt(cid, company', grade, cats, details, now, 0);
    BundleAt(cid, company', grade, cats, details, now, 2);
    BundleAt(cid, company', grade, cats, details, now, 3);
    StripClean(company);
  }

  /** A built bundle has one category record per canonical category, in
      order, each read from that category's payload. */
  lemma BundleCategories(company: Json, all: seq<Json>, api: Api, now: string)
    requires BuildBundle(company, all, api, now).Done?
    ensures var b := BuildBundle(company, all, api, now).value;
      var cid := CompanyId(company);
      && At(b, "categories").JArr? && |At(b, "categories").items| == |CategoryNames|
      && forall k :: 0 <= k < |CategoryNames| ==>
           api.categoryGpa(cid, CategoryNames[k]).Ok? &&
           At(b, "categories").items[k] == CategoryRecord(CategoryNames[k], api.categoryGpa(cid, CategoryNames[k]).value)
  {
    BuiltFrom(company, all, api, now);
    var cid := CompanyId(company);
    var company' := StripTransport(company);
    var grade := StripTransport(Or(api.riskGrade(cid).value, JObj([])));
    var cats := Collect(CategoryOutcomes(api, cid)).value;
    var details := BuildDomains(all, cid, api).value;
    BundleAt(cid, company', grade, cats, details, now, 5);
    CategoriesBuilt(api, cid);
  }

  /** A category loop that does not raise holds each canonical category's
      record, in order, read from a fetch that succeeded. */
  lemma CategoriesBuilt(api: Api, cid: Json)
    requires Collect(CategoryOutcomes(api, cid)).Done?
    ensures var cats := Collect(CategoryOutcomes(api, cid)).value;
      |cats| == |CategoryNames|
      && forall k :: 0 <= k < |CategoryNames| ==>
           api.categoryGpa(cid, CategoryNames[k]).Ok? && cats[k] == CategoryRecord(CategoryNames[k], api.categoryGpa(cid, CategoryNames[k]).value)
  {
    assert forall k :: 0 <= k < |CategoryNames| ==> CategoryOutcome(api, cid, CategoryNames[k]).Done?;
  }

  /** A built bundle has one record per domain of the company, in order. */
  lemma BundleDomains(company: Json, all: seq<Json>, api: Api, now: string)
    requires BuildBundle(company, all, api, now).Done?
    ensures var b := BuildBundle(company, all, api, now).value;
      var owned := Owned(all, CompanyId(company));
      && At(b, "domains").JArr? && |At(b, "domains").items| == |owned|
      && forall j :: 0 <= j < |owned| ==>
           DomainOutcome(api, StripTransport(owned[j])).Done? &&
           At(b, "domains").items[j] == DomainOutcome(api, StripTransport(owned[j])).value
  {
    BuiltFrom(company, all, api, now);
    var cid := CompanyId(company);
    var company' := StripTransport(company);
    var grade := StripTransport(Or(api.riskGrade(cid).value, JObj([])));
    var cats := Collect(CategoryOutcomes(api, cid)).value;
    var details := BuildDomains(all, cid, api).value;
    BundleAt(cid, company', grade, cats, details, now, 6);
  }

  // ------------------------------------------------ category and domain records

  /** Each field of a category record is found under its key. */
  lemma RecordAt(name: Json, gpa: Json, score: Json, aggregated: Json, k: nat)
    requires k < |RecordKeys|
    ensures var r := Record(name, gpa, score, aggregated);
      At(r, RecordKeys[k]) == r.fields[k].1
  {
    var r := Record(name, gpa, score, aggregated);
    assert forall i, j :: 0 <= i < j < |RecordKeys| ==> RecordKeys[i] != RecordKeys[j];
    GetAt(r.fields, k);
  }

  /** The null row binds only its three keys. */
  lemma NullRowLookups(cat: string)
    ensures At(NullRow(cat), "Category") == JStr(cat) && At(NullRow(cat), "category") == JNull
    ensures forall k :: k in GpaKeys + CategoryScoreKeys ==> At(NullRow(cat), k) == JNull
    ensures At(NullRow(cat), "aggregated_at") == JNull && At(NullRow(cat), "date") == JNull
  {
    var row := NullRow(cat);
    assert Keys(row.fields) == ["Category", "category_gpa", "category_score"];
  }

  /** A payload whose row is not a dict gives a null record carrying the
      canonical name. */
  lemma CategoryFallback(cat: string, payload: Json)
    requires !payload.JObj?
    requires payload.JArr? && payload.items != [] ==> !payload.items[0].JObj?
    ensures CategoryRecord(cat, payload) == Record(JStr(cat), JNull, JNull, JNull)
  {
    NullRowLookups(cat);
    assert CategoryRow(cat, payload) == NullRow(cat);
  }

  /** A non-empty list payload is read through its first element. */
  lemma CategoryListFirst(cat: string, payload: Json)
    requires payload.JArr? && payload.items != [] && payload.items[0].JObj?
    ensures CategoryRecord(cat, payload) == CategoryRecord(cat, payload.items[0])
  {
  }

  /** The GPA is the first truthy of the three GPA keys, converted. */
  lemma CategoryGpaFirst(cat: string, payload: Json, i: nat)
    requires i < |GpaKeys|
    requires Truthy(At(CategoryRow(cat, payload), GpaKeys[i]))
    requires forall j :: 0 <= j < i ==> !Truthy(At(CategoryRow(cat, payload), GpaKeys[j]))
    ensures At(CategoryRecord(cat, payload), "category_gpa") == FromOptReal(ToFloat(At(CategoryRow(cat, payload), GpaKeys[i])))
  {
    var row := CategoryRow(cat, payload);
    OrKeysFirstTruthy(row, GpaKeys, i);
    RecordAt(Or(OrKeys(row, ["Category", "category"]), JStr(cat)),
             FromOptReal(ToFloat(OrKeys(row, GpaKeys))),
             FromOptReal(ToFloat(OrKeys(row, CategoryScoreKeys))),
             Or(OrKeys(row, ["aggregated_at", "date"]), JNull), 1);
  }

  /** A GPA of 0 with no alternative key is not a GPA: it becomes null. */
  lemma CategoryZeroGpa(cat: string)
    ensures At(CategoryRecord(cat, JObj([("category_gpa", JInt(0))])), "category_gpa") == JNull
  {
    var row := JObj([("category_gpa", JInt(0))]);
    assert CategoryRow(cat, row) == row;
    assert At(row, "value") == JNull;
    OrKeysNoneTruthy(row, GpaKeys);
    RecordAt(Or(OrKeys(row, ["Category", "category"]), JStr(cat)),
             FromOptReal(ToFloat(OrKeys(row, GpaKeys))),
             FromOptReal(ToFloat(OrKeys(row, CategoryScoreKeys))),
             Or(OrKeys(row, ["aggregated_at", "date"]), JNull), 1);
  }

  /** A built domain record carries the absorbed domain score and one list
      per canonical category, each holding only dict rows with no
      `"Category"` key and no transport key. */
  lemma DomainFindings(api: Api, d: Json, k: nat)
    requires DomainOutcome(api, d).Done? && k < |CategoryNames|
    ensures var r := DomainOutcome(api, d).value;
      var perCat := At(r, "findings_by_category");
      && r.JObj? && At(r, "domain_id") == OrKeys(d, DomainIdKeys)
      && perCat.JObj? && Keys(perCat.fields) == CategoryNames
      && At(perCat, CategoryNames[k]).JArr?
      && forall x :: x in At(perCat, CategoryNames[k]).items ==>
           x.JObj? && "Category" !in Keys(x.fields) && NoTransport(x)
  {
    var did := OrKeys(d, DomainIdKeys);
    var lists := Collect(FindingsOutcomes(api, did)).value;
    var r := DomainRecord(api, d, lists);
    DomainRecordAt(api, d, lists);
    var perCat := JObj(Zip(CategoryNames, lists));
    CategoryNamesDistinct();
    GetAt(perCat.fields, k);
    assert FindingsOutcome(api, did, CategoryNames[k]).Done?;
  }

  /** Each field of a domain record is found under its key. */
  lemma DomainRecAt(did: Json, name: Json, score: Json, perCat: Json, k: nat)
    requires k < |DomainKeys|
    ensures var r := DomainRec(did, name, score, perCat);
      At(r, DomainKeys[k]) == r.fields[k].1
  {
    var r := DomainRec(did, name, score, perCat);
    assert forall i, j :: 0 <= i < j < |DomainKeys| ==> DomainKeys[i] != DomainKeys[j];
    GetAt(r.fields, k);
  }

  /** The id, score and findings fields of a domain's record. */
  lemma DomainRecordAt(api: Api, d: Json, lists: seq<Json>)
    requires |lists| == |CategoryNames|
    ensures var r := DomainRecord(api, d, lists);
      && At(r, "domain_id") == OrKeys(d, DomainIdKeys)
      && At(r, "domain_score") == DomainScoreOf(api, OrKeys(d, DomainIdKeys))
      && At(r, "findings_by_category") == JObj(Zip(CategoryNames, lists))
  {
    var did := OrKeys(d, DomainIdKeys);
    var name := OrKeys(d, DomainNameKeys);
    var score := DomainScoreOf(api, did);
    var perCat := JObj(Zip(CategoryNames, lists));
    DomainRecAt(did, name, score, perCat, 0);
    DomainRecAt(did, name, score, perCat, 2);
    DomainRecAt(did, name, score, perCat, 3);
  }

  /** A failing domain-score fetch leaves the domain with a null score. */
  lemma DomainScoreAbsorbed(api: Api, d: Json)
    requires api.domainScore(OrKeys(d, DomainIdKeys)).Failed?
    requires DomainOutcome(api, d).Done?
    ensures At(DomainOutcome(api, d).value, "domain_score") == JNull
  {
    DomainRecordAt(api, d, Collect(FindingsOutcomes(api, OrKeys(d, DomainIdKeys))).value);
  }

  // -------------------------------------------------------- the build's loops

  /** One more step that does not raise extends the collected values. */
  lemma CollectSnoc<U>(outs: seq<Built<U>>, i: nat, acc: seq<U>)
    requires i < |outs| && outs[i].Done?
    requires Collect(outs[..i]) == Done(acc)
    ensures Collect(outs[..i + 1]) == Done(acc + [outs[i].value])
  {
    assert forall k :: 0 <= k < i ==> outs[..i + 1][k] == outs[..i][k];
    assert Collect(outs[..i + 1]).value == acc + [outs[i].value];
  }

  /** A loop stopped by step `i` raises that step's exception. */
  lemma CollectRaises<U>(outs: seq<Built<U>>, i: nat)
    requires i < |outs| && outs[i].Raises?
    requires Collect(outs[..i]).Done?
    ensures Collect(outs) == Raises(outs[i].error)
  {
    assert forall k :: 0 <= k < i ==> outs[k] == outs[..i][k];
    FirstErrorAt(outs, i);
  }

  /** One iteration of the category loop: the category's record, or the
      failing fetch's exception. */
  method CategoryStep(api: Api, cid: Json, cat: string) returns (r: Built<Json>)
    ensures r == CategoryOutcome(api, cid, cat)
  {
    var payload := api.categoryGpa(cid, cat);
    if payload.Failed? {
      return Raises(payload.error);
    }
    return Done(CategoryRecord(cat, payload.value));
  }

  /** One iteration of a domain's findings loop: the category's cleaned
      rows, or the failing fetch's exception. */
  method FindingsStep(api: Api, did: Json, cat: string) returns (r: Built<Json>)
    ensures r == FindingsOutcome(api, did, cat)
  {
    var raw := api.findings(did, cat);
    if raw.Failed? {
      return Raises(raw.error);
    }
    return Done(JArr(CleanRows(FindingsRows(raw.value))));
  }

  /** The category loop: one record per canonical category, appended in
      order; a failing fetch aborts it. */
  method CategoryLoop(api: Api, cid: Json) returns (r: Built<seq<Json>>)
    ensures r == Collect(CategoryOutcomes(api, cid))
  {
    ghost var outs := CategoryOutcomes(api, cid);
    var categories: seq<Json> := [];
    var i := 0;
    assert outs[..0] == [];
    while i < |CategoryNames|
      invariant 0 <= i <= |CategoryNames| && |categories| == i
      invariant Collect(outs[..i]) == Done(categories)
    {
      var out := CategoryStep(api, cid, CategoryNames[i]);
      assert outs[i] == out;
      if out.Raises? {
        CollectRaises(outs, i);
        return Raises(out.error);
      }
      CollectSnoc(outs, i, categories);
      categories := categories + [out.value];
      i := i + 1;
    }
    assert outs[..i] == outs;
    return Done(categories);
  }

  /** The per-category findings loop of one domain. */
  method FindingsLoop(api: Api, did: Json) returns (r: Built<seq<Json>>)
    ensures r == Collect(FindingsOutcomes(api, did))
  {
    ghost var outs := FindingsOutcomes(api, did);
    var lists: seq<Json> := [];
    var i := 0;
    assert outs[..0] == [];
    while i < |CategoryNames|
      invariant 0 <= i <= |CategoryNames| && |lists| == i
      invariant Collect(outs[..i]) == Done(lists)
    {
      var out := FindingsStep(api, did, CategoryNames[i]);
      assert outs[i] == out;
      if out.Raises? {
        CollectRaises(outs, i);
        return Raises(out.error);
      }
      CollectSnoc(outs, i, lists);
      lists := lists + [out.value];
      i := i + 1;
    }
    assert outs[..i] == outs;
    return Done(lists);
  }

  /** One iteration of the domain loop: the domain's findings lists, then
      its record. */
  method DomainEntry(api: Api, d: Json) returns (r: Built<Json>)
    ensures r == DomainOutcome(api, d)
  {
    var did := OrKeys(d, DomainIdKeys);
    var lists := FindingsLoop(api, did);
    if lists.Raises? {
      return Raises(lists.error);
    }
    return Done(DomainRecord(api, d, lists.value));
  }

  /** The domain loop over the company's stripped domains. */
  method DomainLoop(api: Api, ds: seq<Json>) returns (r: Built<seq<Json>>)
    ensures r == Collect(DomainOutcomes(api, ds))
  {
    ghost var outs := DomainOutcomes(api, ds);
    var details: seq<Json> := [];
    var i := 0;
    assert outs[..0] == [];
    while i < |ds|
      invariant 0 <= i <= |ds| && |details| == i
      invariant Collect(outs[..i]) == Done(details)
    {
      var entry := DomainEntry(api, ds[i]);
      assert outs[i] == entry;
      if entry.Raises? {
        CollectRaises(outs, i);
        return Raises(entry.error);
      }
      CollectSnoc(outs, i, details);
      details := details + [entry.value];
      i := i + 1;
    }
    assert outs[..i] == outs;
    return Done(details);
  }

  /** `build_company_bundle`, step by step. */
  method BuildCompanyBundle(company: Json, all: seq<Json>, api: Api, now: string) returns (r: Built<Json>)
    ensures r == BuildBundle(company, all, api, now)
  {
    if !company.JObj? {
      return Raises("AttributeError");
    }
    var cid := CompanyId(company);
    if cid.JNull? {
      return Raises("Company has no ID");
    }
    var companyClean := StripTransport(company);
    var grade := api.riskGrade(cid);
    if grade.Failed? {
      return Raises(grade.error);
    }
    var riskGrade := StripTransport(Or(grade.value, JObj([])));
    var categories := CategoryLoop(api, cid);
    if categories.Raises? {
      return Raises(categories.error);
    }
    var owned := CompanyDomains(all, cid);
    if owned.None? {
      return Raises("AttributeError");
    }
    var details := DomainLoop(api, StripAll(owned.value));
    if details.Raises? {
      return Raises(details.error);
    }
    return Done(Bundle(cid, companyClean, riskGrade, categories.value, details.value, now));
  }
}
