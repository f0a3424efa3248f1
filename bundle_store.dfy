// The on-disk bundle store of json_handler.py: one file per company named
// `{company_id}_data.json`, and the passes that write, skip or refresh
// those files.  The directory is a value (`Disk`) for the specification and
// the fields of a `BundleStore` object for the methods.

module Store {
  import opened Text
  import opened JsonValue
  import opened JsonHandler

  const Suffix: string := "_data.json"

  /** `company_bundle_path(company_id)`, as a name inside the data directory. */
  function FileName(cid: Json): (n: string)
    ensures EndsWith(n, Suffix) && n[..|n| - |Suffix|] == Str(cid)
  {
    Str(cid) + Suffix
  }

  /** `name.split("_data.json")[0]`: the text before the first occurrence of
      the suffix. */
  function Stem(name: string): (s: string)
    ensures StartsWith(name, s)
    ensures !Contains(s, Suffix) || s == name
  {
    var i := FindSub(name, Suffix);
    if i < |name| then
      NoEarlierOccurrence(name, Suffix, i);
      name[..i]
    else name
  }

  /** An occurrence at position `j` makes the text contain `sub`. */
  lemma {:induction false} ContainsAt(s: string, sub: string, j: nat)
    requires j <= |s| && StartsWith(s[j..], sub)
    ensures Contains(s, sub)
    decreases j
  {
    if j > 0 {
      assert s[1..][j - 1..] == s[j..];
      ContainsAt(s[1..], sub, j - 1);
    }
  }

  /** The prefix before the first occurrence holds no occurrence. */
  lemma {:induction false} NoEarlierOccurrence(s: string, sub: string, i: nat)
    requires sub != [] && i <= |s|
    requires forall j :: 0 <= j < i ==> !StartsWith(s[j..], sub)
    ensures !Contains(s[..i], sub)
    decreases i
  {
    if i > 0 && |s[..i]| >= |sub| {
      assert s[..i][..|sub|] == s[..|sub|];
      assert s[0..] == s;
      assert s[..i][1..] == s[1..][..i - 1];
      forall j | 0 <= j < i - 1
        ensures !StartsWith(s[1..][j..], sub)
      {
        assert s[1..][j..] == s[j + 1..];
      }
      NoEarlierOccurrence(s[1..], sub, i - 1);
    } else if i > 0 {
      NotContainsShort(s[..i], sub);
    }
  }

  /** Only the first character of the suffix is an underscore. */
  lemma SuffixUnderscores()
    ensures Suffix[0] == '_'
    ensures forall m :: 1 <= m < |Suffix| ==> Suffix[m] != '_'
  {
  }

  /** No occurrence of the suffix straddles the end of a text and the
      suffix appended to it. */
  lemma CrossingFails(s: string, i: nat)
    requires i < |s| < i + |Suffix|
    ensures (s + Suffix)[i..i + |Suffix|] != Suffix
  {
    SuffixUnderscores();
    assert (s + Suffix)[i..i + |Suffix|][|s| - i] == (s + Suffix)[|s|] == '_';
  }

  lemma CollisionConcat()
    ensures "x_data.json" + Suffix == "x_data.json_data.json"
  {
  }

  /** The stem of a company's file name is its id text, unless that text
      itself contains the suffix. */
  lemma StemOfFileName(cid: Json)
    requires !Contains(Str(cid), Suffix)
    ensures Stem(FileName(cid)) == Str(cid)
  {
    StemOfName(Str(cid));
  }

  lemma StemOfName(s: string)
    requires !Contains(s, Suffix)
    ensures Stem(s + Suffix) == s
  {
    var n := s + Suffix;
    var i := FindSub(n, Suffix);
    SuffixAtEnd(s);
    if i < |s| {
      NoEarlySuffix(s, i);
      assert false;
    }
  }

  /** The appended suffix is an occurrence, right after the text. */
  lemma SuffixAtEnd(s: string)
    ensures StartsWith((s + Suffix)[|s|..], Suffix)
    ensures (s + Suffix)[..|s|] == s
  {
    assert (s + Suffix)[|s|..] == Suffix;
  }

  /** In a text without the suffix, followed by the suffix, no occurrence
      starts before the appended one. */
  lemma NoEarlySuffix(s: string, i: nat)
    requires !Contains(s, Suffix) && i < |s|
    ensures (s + Suffix)[i..i + |Suffix|] != Suffix
  {
    if i + |Suffix| <= |s| {
      NoOccurrenceInside(s, Suffix, i);
    } else {
      CrossingFails(s, i);
    }
  }

  /** A text without `sub` has no occurrence of it that ends within the
      text, whatever follows. */
  lemma NoOccurrenceInside(s: string, sub: string, i: nat)
    requires !Contains(s, sub) && i + |sub| <= |s|
    ensures forall t :: (s + t)[i..i + |sub|] != sub
  {
    if s[i..][..|sub|] == sub {
      ContainsAt(s, sub, i);
      assert false;
    }
    forall t ensures (s + t)[i..i + |sub|] != sub {
      assert (s + t)[i..i + |sub|] == s[i..][..|sub|];
    }
  }

  /** An id whose text contains the suffix names a file whose stem is not
      that id. */
  lemma StemCollision()
    ensures FileName(JStr("x_data.json")) == "x_data.json_data.json"
    ensures Stem("x_data.json_data.json") == "x"
  {
    var n := "x_data.json_data.json";
    assert Str(JStr("x_data.json")) == "x_data.json";
    CollisionConcat();
    var t := Suffix + Suffix;
    assert "x_data.json" == "x" + Suffix;
    AppendAssoc("x", Suffix, Suffix);
    assert n == "x" + t;
    assert n[1..] == t && t[..|Suffix|] == Suffix;
    assert n[0] != Suffix[0];
    FindSubSkip(n, Suffix);
    FindSubAt0(n[1..], Suffix);
  }

  // ------------------------------------------------------------- the directory

  /** The data directory: its entries in listing order, each file's content
      (`None` when it does not parse), and each file's modification time
      (absent when it cannot be read). */
  datatype Disk = Disk(names: seq<string>, files: map<string, Option<Json>>, mtimes: map<string, real>)

  ghost predicate DiskValid(d: Disk)
  {
    && (forall i, j :: 0 <= i < j < |d.names| ==> d.names[i] != d.names[j])
    && (forall n :: n in d.files <==> n in d.names)
  }

  /** `_atomic_write_json`: the file holds the bundle and was modified at
      `clock`; a new file is listed after the existing ones. */
  function Saved(d: Disk, name: string, bundle: Json, clock: real): (r: Disk)
    ensures name in r.files && r.files[name] == Some(bundle)
    ensures r.files.Keys == d.files.Keys + {name}
    ensures forall n :: n in d.files && n != name ==> n in r.files && r.files[n] == d.files[n]
  {
    Disk(if name in d.files then d.names else d.names + [name],
         d.files[name := Some(bundle)], d.mtimes[name := clock])
  }

  /** Saving keeps the directory well formed. */
  lemma SavedValid(d: Disk, name: string, bundle: Json, clock: real)
    requires DiskValid(d)
    ensures DiskValid(Saved(d, name, bundle, clock))
  {
  }

  /** `load_company_bundle`: the stored bundle, or `{}` when the file is
      missing or unreadable. */
  function Loaded(d: Disk, cid: Json): (r: Json)
    ensures FileName(cid) !in d.files ==> r == JObj([])
  {
    var n := FileName(cid);
    if n in d.files && d.files[n].Some? then d.files[n].value else JObj([])
  }

  /** Loading what was just written returns it. */
  lemma LoadAfterSave(d: Disk, cid: Json, bundle: Json, clock: real)
    ensures Loaded(Saved(d, FileName(cid), bundle, clock), cid) == bundle
  {
  }

  /** The modification time `refresh_stale_bundles` reads: 0 when unreadable. */
  function MTime(d: Disk, name: string): real
  {
    if name in d.mtimes then d.mtimes[name] else 0.0
  }

  /** `list_company_bundles` over the given (sorted) entries: the readable
      `_data.json` files, in order. */
  function ListedOf(ns: seq<string>, files: map<string, Option<Json>>): (r: seq<Json>)
    ensures |r| <= |ns|
  {
    if ns == [] then []
    else
      var n := ns[|ns| - 1];
      ListedOf(ns[..|ns| - 1], files) +
        (if EndsWith(n, Suffix) && n in files && files[n].Some? then [files[n].value] else [])
  }

  /** `list_company_bundles`: the readable bundles in file-name order. */
  function Listed(d: Disk): seq<Json>
  {
    ListedOf(Sort(d.names), d.files)
  }

  /** Every listed bundle is the content of a `_data.json` file, and every
      readable `_data.json` file among the entries is listed. */
  lemma {:induction false} ListedOfMembers(ns: seq<string>, files: map<string, Option<Json>>, b: Json)
    ensures b in ListedOf(ns, files) <==>
      exists n :: n in ns && EndsWith(n, Suffix) && n in files && files[n] == Some(b)
    decreases |ns|
  {
    if ns != [] {
      var init := ns[..|ns| - 1];
      var n := ns[|ns| - 1];
      ListedOfMembers(init, files, b);
      assert forall m :: m in ns <==> m in init || m == n;
    }
  }

  /** A saved bundle is listed. */
  lemma SavedIsListed(d: Disk, cid: Json, bundle: Json, clock: real)
    requires DiskValid(d)
    ensures bundle in Listed(Saved(d, FileName(cid), bundle, clock))
  {
    var d' := Saved(d, FileName(cid), bundle, clock);
    assert FileName(cid) in d'.names;
    assert FileName(cid) in multiset(d'.names);
    assert FileName(cid) in Sort(d'.names);
    ListedOfMembers(Sort(d'.names), d'.files, bundle);
  }

  // ------------------------------------------------------------ writing passes

  /** What a pass reads besides the directory: the domain list, the API, the
      bundles' timestamp and the time the files are written at. */
  datatype Live = Live(domains: seq<Json>, api: Api, now: string, clock: real)

  /** The state of a pass: the directory, the files written so far, and the
      exception that stopped the pass, if any. */
  datatype Run = Run(disk: Disk, written: seq<string>, error: Option<string>)

  /** A company the pass builds: a dict with an id whose text is not skipped. */
  predicate Wanted(c: Json, skip: set<string>)
  {
    c.JObj? && CompanyId(c) != JNull && Str(CompanyId(c)) !in skip
  }

  /** The build of each company, in order. */
  function Builds(cs: seq<Json>, live: Live): (r: seq<Built<Json>>)
    ensures |r| == |cs| && forall i :: 0 <= i < |cs| ==> r[i] == BuildBundle(cs[i], live.domains, live.api, live.now)
  {
    seq(|cs|, i requires 0 <= i < |cs| => BuildBundle(cs[i], live.domains, live.api, live.now))
  }

  /** One company of `build_all_company_bundles` (nothing skipped) or
      `ensure_missing_bundles` (existing ids skipped), given the company's
      build. */
  function WriteStep(r: Run, skip: set<string>, c: Json, build: Built<Json>, clock: real): Run
  {
    if r.error.Some? then r
    else if !c.JObj? then Run(r.disk, r.written, Some("AttributeError"))
    else if !Wanted(c, skip) then r
    else
      match build
      case Raises(e) => Run(r.disk, r.written, Some(e))
      case Done(b) => Run(Saved(r.disk, FileName(CompanyId(c)), b, clock), r.written + [FileName(CompanyId(c))], None)
  }

  /** The pass over the companies, in order. */
  function WritePass(d: Disk, skip: set<string>, cs: seq<Json>, builds: seq<Built<Json>>, clock: real): Run
    requires |builds| == |cs|
  {
    if cs == [] then Run(d, [], None)
    else WriteStep(WritePass(d, skip, cs[..|cs| - 1], builds[..|cs| - 1], clock), skip, cs[|cs| - 1], builds[|cs| - 1], clock)
  }

  /** The file names of the wanted companies, in order: what a pass that
      meets no exception writes. */
  function WantedNames(cs: seq<Json>, skip: set<string>): seq<string>
  {
    if cs == [] then []
    else
      var c := cs[|cs| - 1];
      WantedNames(cs[..|cs| - 1], skip) + (if Wanted(c, skip) then [FileName(CompanyId(c))] else [])
  }

  /** A pass fails iff some company is not a dict or the build of a wanted
      company raises. */
  lemma {:induction false} WritePassFails(d: Disk, skip: set<string>, cs: seq<Json>, builds: seq<Built<Json>>, clock: real)
    requires |builds| == |cs|
    ensures WritePass(d, skip, cs, builds, clock).error.None? <==>
      forall i :: 0 <= i < |cs| ==> cs[i].JObj? && (Wanted(cs[i], skip) ==> builds[i].Done?)
    decreases |cs|
  {
    if cs != [] {
      var k := |cs| - 1;
      WritePassFails(d, skip, cs[..k], builds[..k], clock);
      StepFails(WritePass(d, skip, cs[..k], builds[..k], clock), skip, cs[k], builds[k], clock);
      PassOkSnoc(skip, cs, builds);
    }
  }

  /** No company of `cs` makes a pass raise. */
  predicate PassOk(skip: set<string>, cs: seq<Json>, builds: seq<Built<Json>>)
    requires |builds| == |cs|
  {
    forall i :: 0 <= i < |cs| ==> cs[i].JObj? && (Wanted(cs[i], skip) ==> builds[i].Done?)
  }

  lemma PassOkSnoc(skip: set<string>, cs: seq<Json>, builds: seq<Built<Json>>)
    requires |builds| == |cs| && cs != []
    ensures var k := |cs| - 1;
      PassOk(skip, cs, builds) <==>
        PassOk(skip, cs[..k], builds[..k]) && cs[k].JObj? && (Wanted(cs[k], skip) ==> builds[k].Done?)
  {
    var k := |cs| - 1;
    assert forall i :: 0 <= i < k ==> cs[..k][i] == cs[i] && builds[..k][i] == builds[i];
  }

  /** One step keeps a pass clear exactly when the company does not raise. */
  lemma StepFails(r: Run, skip: set<string>, c: Json, build: Built<Json>, clock: real)
    ensures WriteStep(r, skip, c, build, clock).error.None? <==>
      r.error.None? && c.JObj? && (Wanted(c, skip) ==> build.Done?)
  {
  }

  /** A pass that meets no exception writes exactly the wanted companies'
      files, in order. */
  lemma {:induction false} WritePassWrites(d: Disk, skip: set<string>, cs: seq<Json>, builds: seq<Built<Json>>, clock: real)
    requires |builds| == |cs|
    ensures var r := WritePass(d, skip, cs, builds, clock);
      r.error.None? ==> r.written == WantedNames(cs, skip)
    decreases |cs|
  {
    if cs != [] {
      var k := |cs| - 1;
      WritePassWrites(d, skip, cs[..k], builds[..k], clock);
    }
  }

  /** Every file a pass writes belongs to a wanted company it was given. */
  lemma {:induction false} WritePassSources(d: Disk, skip: set<string>, cs: seq<Json>, builds: seq<Built<Json>>, clock: real)
    requires |builds| == |cs|
    ensures forall n :: n in WritePass(d, skip, cs, builds, clock).written ==>
      exists i :: 0 <= i < |cs| && Wanted(cs[i], skip) && n == FileName(CompanyId(cs[i]))
    decreases |cs|
  {
    if cs != [] {
      var k := |cs| - 1;
      WritePassSources(d, skip, cs[..k], builds[..k], clock);
      assert forall i :: 0 <= i < k ==> cs[..k][i] == cs[i];
    }
  }

  /** A pass changes only the files it writes, and adds no other entry. */
  lemma {:induction false} WritePassFrame(d: Disk, skip: set<string>, cs: seq<Json>, builds: seq<Built<Json>>, clock: real)
    requires |builds| == |cs|
    ensures var r := WritePass(d, skip, cs, builds, clock);
      && r.disk.files.Keys == d.files.Keys + (set n | n in r.written)
      && forall n :: n in d.files && n !in r.written ==> n in r.disk.files && r.disk.files[n] == d.files[n]
    decreases |cs|
  {
    if cs != [] {
      var k := |cs| - 1;
      WritePassFrame(d, skip, cs[..k], builds[..k], clock);
    }
  }

  /** After a pass that meets no exception, the file of a wanted company
      that no later wanted company shares holds that company's bundle. */
  lemma {:induction false} WritePassContents(d: Disk, skip: set<string>, cs: seq<Json>, builds: seq<Built<Json>>, clock: real, i: nat)
    requires |builds| == |cs| && i < |cs| && Wanted(cs[i], skip)
    requires WritePass(d, skip, cs, builds, clock).error.None?
    requires forall j :: i < j < |cs| && Wanted(cs[j], skip) ==> FileName(CompanyId(cs[j])) != FileName(CompanyId(cs[i]))
    ensures builds[i].Done?
    ensures var r := WritePass(d, skip, cs, builds, clock);
      FileName(CompanyId(cs[i])) in r.disk.files && r.disk.files[FileName(CompanyId(cs[i]))] == Some(builds[i].value)
    decreases |cs|
  {
    var k := |cs| - 1;
    var prev := WritePass(d, skip, cs[..k], builds[..k], clock);
    assert prev.error.None?;
    if i < k {
      assert cs[..k][i] == cs[i] && builds[..k][i] == builds[i];
      assert forall j :: i < j < k ==> cs[..k][j] == cs[j];
      WritePassContents(d, skip, cs[..k], builds[..k], clock, i);
    }
  }

  /** A pass keeps the directory well formed. */
  lemma {:induction false} WritePassValid(d: Disk, skip: set<string>, cs: seq<Json>, builds: seq<Built<Json>>, clock: real)
    requires |builds| == |cs| && DiskValid(d)
    ensures DiskValid(WritePass(d, skip, cs, builds, clock).disk)
    decreases |cs|
  {
    if cs != [] {
      var k := |cs| - 1;
      var prev := WritePass(d, skip, cs[..k], builds[..k], clock);
      WritePassValid(d, skip, cs[..k], builds[..k], clock);
      if prev.error.None? && Wanted(cs[k], skip) && builds[k].Done? {
        SavedValid(prev.disk, FileName(CompanyId(cs[k])), builds[k].value, clock);
      }
    }
  }

  // ---------------------------------------------------- ensure_missing_bundles

  /** The ids that already have a file: the stems of the `_data.json` entries. */
  function ExistingIds(d: Disk): set<string>
  {
    set n | n in d.names && EndsWith(n, Suffix) :: Stem(n)
  }

  /** `ensure_missing_bundles`: build and write the companies whose id text
      has no file yet. */
  function EnsureMissingPass(d: Disk, cs: seq<Json>, live: Live): Run
  {
    WritePass(d, ExistingIds(d), cs, Builds(cs, live), live.clock)
  }

  /** `build_all_company_bundles`: build and write every company with an id. */
  function BuildAllPass(d: Disk, cs: seq<Json>, live: Live): Run
  {
    WritePass(d, {}, cs, Builds(cs, live), live.clock)
  }

  /** An existing bundle file is left as it was, provided no company's id
      text contains the suffix itself. */
  lemma MissingKeepsExisting(d: Disk, cs: seq<Json>, live: Live, n: string)
    requires n in d.names && n in d.files && EndsWith(n, Suffix)
    requires forall i :: 0 <= i < |cs| ==> !Contains(Str(CompanyId(cs[i])), Suffix)
    ensures var r := EnsureMissingPass(d, cs, live);
      n in r.disk.files && r.disk.files[n] == d.files[n]
  {
    var skip := ExistingIds(d);
    var builds := Builds(cs, live);
    var r := EnsureMissingPass(d, cs, live);
    WritePassFrame(d, skip, cs, builds, live.clock);
    WritePassSources(d, skip, cs, builds, live.clock);
    if n in r.written {
      var i :| 0 <= i < |cs| && Wanted(cs[i], skip) && n == FileName(CompanyId(cs[i]));
      StemOfFileName(CompanyId(cs[i]));
      assert false;
    }
  }

  /** The skip set is read once, before the loop: two companies with the
      same new id are both written. */
  lemma MissingWritesRepeatedIds(d: Disk, skip: set<string>, c: Json, b: Json, clock: real)
    requires Wanted(c, skip)
    ensures WritePass(d, skip, [c, c], [Done(b), Done(b)], clock).written == [FileName(CompanyId(c)), FileName(CompanyId(c))]
  {
    SingleWrite(d, skip, c, b, clock);
    var r1 := WritePass(d, skip, [c], [Done(b)], clock);
    assert [c, c][..1] == [c] && [Done(b), Done(b)][..1] == [Done(b)];
    assert WritePass(d, skip, [c, c], [Done(b), Done(b)], clock) == WriteStep(r1, skip, c, Done(b), clock);
  }

  const CollisionName: string := "x_data.json_data.json"

  /** A directory holding only `x_data.json_data.json`. */
  function CollisionDisk(content: Json): Disk
  {
    Disk([CollisionName], map[CollisionName := Some(content)], map[])
  }

  /** Its only existing id is `x`. */
  lemma CollisionIds(content: Json)
    ensures ExistingIds(CollisionDisk(content)) == {"x"}
  {
    StemCollision();
  }

  /** A pass over one wanted company writes its file. */
  lemma SingleWrite(d: Disk, skip: set<string>, c: Json, b: Json, clock: real)
    requires Wanted(c, skip)
    ensures WritePass(d, skip, [c], [Done(b)], clock).disk == Saved(d, FileName(CompanyId(c)), b, clock)
    ensures WritePass(d, skip, [c], [Done(b)], clock).written == [FileName(CompanyId(c))]
    ensures WritePass(d, skip, [c], [Done(b)], clock).error.None?
  {
    assert [c][..0] == [] && [Done(b)][..0] == [];
  }

  /** The company whose id is `x_data.json` is wanted when only `x` exists. */
  lemma CollisionCompany(c: Json)
    requires c == JObj([("company_id", JStr("x_data.json"))])
    ensures CompanyId(c) == JStr("x_data.json") && Wanted(c, {"x"})
  {
    assert At(c, "company_id") == JStr("x_data.json");
  }

  /** With an id that contains the suffix, an existing file is overwritten:
      the id `x_data.json` is not among the existing ids, yet its file is
      `x_data.json_data.json`. */
  lemma MissingOverwritesCollision(content: Json, bundle: Json, clock: real)
    requires content != bundle
    ensures var d := CollisionDisk(content);
      var c := JObj([("company_id", JStr("x_data.json"))]);
      var r := WritePass(d, ExistingIds(d), [c], [Done(bundle)], clock);
      CollisionName in r.disk.files && r.disk.files[CollisionName] == Some(bundle) != d.files[CollisionName]
  {
    var c := JObj([("company_id", JStr("x_data.json"))]);
    var d := CollisionDisk(content);
    CollisionIds(content);
    StemCollision();
    CollisionCompany(c);
    SingleWrite(d, {"x"}, c, bundle, clock);
  }

  // ----------------------------------------------------- refresh_stale_bundles

  /** `by_id`: each company under its id text; a later company with the same
      text replaces an earlier one. */
  function ById(cs: seq<Json>): map<string, Json>
  {
    DictOf(IdPairs(cs))
  }

  /** The `(id text, company)` pairs the comprehension binds, in order. */
  function IdPairs(cs: seq<Json>): (r: seq<(string, Json)>)
    ensures |r| == |cs| && forall i :: 0 <= i < |cs| ==> r[i] == (Str(CompanyId(cs[i])), cs[i])
  {
    seq(|cs|, i requires 0 <= i < |cs| => (Str(CompanyId(cs[i])), cs[i]))
  }

  /** Indexing one more company binds its id text to it. */
  lemma ByIdSnoc(cs: seq<Json>, k: nat, byId: map<string, Json>)
    requires k < |cs| && byId == DictOf(IdPairs(cs)[..k])
    ensures byId[Str(CompanyId(cs[k])) := cs[k]] == DictOf(IdPairs(cs)[..k + 1])
  {
    DictOfSnoc(IdPairs(cs), k);
  }

  /** Indexing every company gives `by_id`. */
  lemma ByIdAll(cs: seq<Json>)
    ensures DictOf(IdPairs(cs)[..|cs|]) == ById(cs)
  {
    assert IdPairs(cs)[..|cs|] == IdPairs(cs);
  }

  /** An id text is indexed iff some company has it, and then it maps to the
      last company with that text. */
  lemma ByIdLast(cs: seq<Json>, i: nat)
    requires i < |cs|
    requires forall j :: i < j < |cs| ==> Str(CompanyId(cs[j])) != Str(CompanyId(cs[i]))
    ensures Str(CompanyId(cs[i])) in ById(cs) && ById(cs)[Str(CompanyId(cs[i]))] == cs[i]
  {
    DictOfValue(IdPairs(cs), i);
  }

  /** Only the companies' id texts are indexed. */
  lemma ByIdKeys(cs: seq<Json>, key: string)
    ensures key in ById(cs) <==> exists i :: 0 <= i < |cs| && Str(CompanyId(cs[i])) == key
  {
    var pairs := IdPairs(cs);
    DictOfKeys(pairs, key);
    assert forall i :: 0 <= i < |cs| ==> Keys(pairs)[i] == Str(CompanyId(cs[i]));
  }

  /** The build of each indexed company. */
  function BuildsById(byId: map<string, Json>, live: Live): (r: map<string, Built<Json>>)
    ensures r.Keys == byId.Keys
  {
    map k | k in byId :: BuildBundle(byId[k], live.domains, live.api, live.now)
  }

  /** A `_data.json` entry older than the cutoff (an unreadable time counts
      as 0) whose stem names a current company. */
  predicate Stale(d: Disk, byId: map<string, Json>, cutoff: real, name: string)
  {
    EndsWith(name, Suffix) && MTime(d, name) < cutoff && Stem(name) in byId && Truthy(byId[Stem(name)])
  }

  /** One directory entry of `refresh_stale_bundles`, given each company's
      build. */
  function RefreshStep(r: Run, byId: map<string, Json>, builds: map<string, Built<Json>>, cutoff: real, name: string, clock: real): Run
    requires builds.Keys == byId.Keys
  {
    if r.error.Some? || !Stale(r.disk, byId, cutoff, name) then r
    else
      var target := FileName(JStr(Stem(name)));
      match builds[Stem(name)]
      case Raises(e) => Run(r.disk, r.written, Some(e))
      case Done(b) => Run(Saved(r.disk, target, b, clock), r.written + [target], None)
  }

  /** The pass over the listing `ns`, taken before the pass starts. */
  function RefreshPass(d: Disk, byId: map<string, Json>, builds: map<string, Built<Json>>, cutoff: real, ns: seq<string>, clock: real): Run
    requires builds.Keys == byId.Keys
  {
    if ns == [] then Run(d, [], None)
    else RefreshStep(RefreshPass(d, byId, builds, cutoff, ns[..|ns| - 1], clock), byId, builds, cutoff, ns[|ns| - 1], clock)
  }

  /** `refresh_stale_bundles` with `cutoff = time.time() - ttl_hours * 3600`:
      indexing a company that is not a dict raises before any write. */
  function RefreshStalePass(d: Disk, cs: seq<Json>, cutoff: real, live: Live): Run
  {
    if exists i :: 0 <= i < |cs| && !cs[i].JObj? then Run(d, [], Some("AttributeError"))
    else RefreshPass(d, ById(cs), BuildsById(ById(cs), live), cutoff, d.names, live.clock)
  }

  /** The stale entries of `ns`, judged on the directory before the pass. */
  function StaleNames(d: Disk, byId: map<string, Json>, cutoff: real, ns: seq<string>): seq<string>
  {
    if ns == [] then []
    else StaleNames(d, byId, cutoff, ns[..|ns| - 1]) + (if Stale(d, byId, cutoff, ns[|ns| - 1]) then [ns[|ns| - 1]] else [])
  }

  /** Entries named `{stem}_data.json` for their own stem. */
  predicate Canonical(ns: seq<string>)
  {
    forall n :: n in ns && EndsWith(n, Suffix) ==> FileName(JStr(Stem(n))) == n
  }

  /** Over distinct, canonical entries, a pass that meets no exception
      rewrites exactly the entries that were stale when it started, each in
      place; entries it does not write keep their time. */
  lemma {:induction false} RefreshWritesStale(d: Disk, byId: map<string, Json>, builds: map<string, Built<Json>>,
                                               cutoff: real, ns: seq<string>, clock: real)
    requires builds.Keys == byId.Keys
    requires forall i, j :: 0 <= i < j < |ns| ==> ns[i] != ns[j]
    requires Canonical(ns)
    ensures var r := RefreshPass(d, byId, builds, cutoff, ns, clock);
      && (r.error.None? ==> r.written == StaleNames(d, byId, cutoff, ns))
      && (forall n :: n in r.written ==> n in ns)
      && (forall n :: n !in r.written ==> MTime(r.disk, n) == MTime(d, n))
    decreases |ns|
  {
    if ns != [] {
      var k := |ns| - 1;
      var init := ns[..k];
      assert forall n :: n in init ==> n in ns;
      RefreshWritesStale(d, byId, builds, cutoff, init, clock);
      var prev := RefreshPass(d, byId, builds, cutoff, init, clock);
      assert ns[k] !in init;
      assert ns[k] !in prev.written;
    }
  }

  /** The stem of a `_data.json` entry holds no occurrence of the suffix. */
  lemma StemClean(name: string)
    requires EndsWith(name, Suffix)
    ensures !Contains(Stem(name), Suffix)
  {
    assert name[|name| - |Suffix|..] == Suffix;
    ContainsAt(name, Suffix, |name| - |Suffix|);
    NoEarlierOccurrence(name, Suffix, FindSub(name, Suffix));
  }

  /** The file a stale entry is rewritten to has the entry's stem. */
  lemma TargetStem(name: string)
    requires EndsWith(name, Suffix)
    ensures Stem(FileName(JStr(Stem(name)))) == Stem(name)
  {
    StemClean(name);
    StemOfFileName(JStr(Stem(name)));
  }

  /** Every file a refresh pass writes holds the build of the company its
      stem names. */
  lemma {:induction false} RefreshPassContents(d: Disk, byId: map<string, Json>, builds: map<string, Built<Json>>,
                                                cutoff: real, ns: seq<string>, clock: real)
    requires builds.Keys == byId.Keys
    ensures var r := RefreshPass(d, byId, builds, cutoff, ns, clock);
      forall n :: n in r.written ==>
        n in r.disk.files && Stem(n) in builds && builds[Stem(n)].Done? && r.disk.files[n] == Some(builds[Stem(n)].value)
    decreases |ns|
  {
    if ns != [] {
      var k := |ns| - 1;
      RefreshPassContents(d, byId, builds, cutoff, ns[..k], clock);
      var prev := RefreshPass(d, byId, builds, cutoff, ns[..k], clock);
      if prev.error.None? && Stale(prev.disk, byId, cutoff, ns[k]) {
        TargetStem(ns[k]);
      }
    }
  }

  /** A refresh pass changes only the files it writes, and adds no other
      entry. */
  lemma {:induction false} RefreshPassFrame(d: Disk, byId: map<string, Json>, builds: map<string, Built<Json>>,
                                             cutoff: real, ns: seq<string>, clock: real)
    requires builds.Keys == byId.Keys
    ensures var r := RefreshPass(d, byId, builds, cutoff, ns, clock);
      && r.disk.files.Keys == d.files.Keys + (set n | n in r.written)
      && forall n :: n in d.files && n !in r.written ==> n in r.disk.files && r.disk.files[n] == d.files[n]
    decreases |ns|
  {
    if ns != [] {
      RefreshPassFrame(d, byId, builds, cutoff, ns[..|ns| - 1], clock);
    }
  }

  // ------------------------------------------- rebuild_company_bundle_for_id

  /** Where the scan for a company id stops. */
  datatype Match = Raised | NoMatch | MatchAt(i: nat)

  /** Each company's id text; `None` for a company that is not a dict, whose
      `.get` raises. */
  function IdTexts(cs: seq<Json>): (r: seq<Option<string>>)
    ensures |r| == |cs|
    ensures forall i :: 0 <= i < |cs| ==> r[i] == if cs[i].JObj? then Some(Str(CompanyId(cs[i]))) else None
  {
    seq(|cs|, i requires 0 <= i < |cs| => if cs[i].JObj? then Some(Str(CompanyId(cs[i]))) else None)
  }

  /** The first position from `i` on whose id text is `target`, scanning
      until an id cannot be read. */
  function FirstWithId(ids: seq<Option<string>>, target: string, i: nat): (r: Match)
    requires i <= |ids|
    ensures r.MatchAt? ==> i <= r.i < |ids|
    decreases |ids| - i
  {
    if i == |ids| then NoMatch
    else if ids[i].None? then Raised
    else if ids[i].value == target then MatchAt(i)
    else FirstWithId(ids, target, i + 1)
  }

  /** A match is the first position with the id text, every id before it
      being readable and different; no match means no company has it. */
  lemma {:induction false} FirstWithIdMeaning(ids: seq<Option<string>>, target: string, i: nat)
    requires i <= |ids|
    ensures var r := FirstWithId(ids, target, i);
      && (r.MatchAt? ==> ids[r.i] == Some(target) && forall j :: i <= j < r.i ==> ids[j].Some? && ids[j].value != target)
      && (r.NoMatch? <==> forall j :: i <= j < |ids| ==> ids[j].Some? && ids[j].value != target)
    decreases |ids| - i
  {
    if i < |ids| && ids[i].Some? && ids[i].value != target {
      FirstWithIdMeaning(ids, target, i + 1);
    }
  }

  /** The directory after the call and what the call returns: the written
      path, `None` when no company matches, or the exception. */
  datatype Rebuilt = Rebuilt(disk: Disk, result: Built<Option<string>>)

  /** `rebuild_company_bundle_for_id(company_id)`, given each company's build. */
  function Rebuild(d: Disk, cs: seq<Json>, companyId: Json, builds: seq<Built<Json>>, clock: real): Rebuilt
    requires |builds| == |cs|
  {
    match FirstWithId(IdTexts(cs), Str(companyId), 0)
    case Raised => Rebuilt(d, Raises("AttributeError"))
    case NoMatch => Rebuilt(d, Done(None))
    case MatchAt(i) =>
      match builds[i]
      case Raises(e) => Rebuilt(d, Raises(e))
      case Done(b) => Rebuilt(Saved(d, FileName(CompanyId(cs[i])), b, clock), Done(Some(FileName(CompanyId(cs[i])))))
  }

  /** A rebuild that returns a path has written there the build of the
      first company with the requested id text, and loading that company
      gives it back; `None` means no company has that id text, and then
      nothing changed. */
  lemma RebuildWrites(d: Disk, cs: seq<Json>, companyId: Json, builds: seq<Built<Json>>, clock: real)
    requires |builds| == |cs|
    ensures var r := Rebuild(d, cs, companyId, builds, clock);
      && (r.result == Done(None) <==> forall j :: 0 <= j < |cs| ==> cs[j].JObj? && Str(CompanyId(cs[j])) != Str(companyId))
      && (r.result == Done(None) ==> r.disk == d)
      && (r.result.Done? && r.result.value.Some? ==>
            exists i :: 0 <= i < |cs| && Str(CompanyId(cs[i])) == Str(companyId) && builds[i].Done? &&
              r.result.value.value == FileName(CompanyId(cs[i])) &&
              Loaded(r.disk, CompanyId(cs[i])) == builds[i].value)
  {
    var ids := IdTexts(cs);
    FirstWithIdMeaning(ids, Str(companyId), 0);
    match FirstWithId(ids, Str(companyId), 0)
    case Raised =>
    case NoMatch =>
    case MatchAt(i) =>
      if builds[i].Done? {
        LoadAfterSave(d, CompanyId(cs[i]), builds[i].value, clock);
      }
  }

  // ------------------------------------------------------ the passes stepwise

  /** One more company extends a pass by one step. */
  lemma WritePassSnoc(d: Disk, skip: set<string>, cs: seq<Json>, builds: seq<Built<Json>>, clock: real, i: nat)
    requires |builds| == |cs| && i < |cs|
    ensures WritePass(d, skip, cs[..i + 1], builds[..i + 1], clock)
         == WriteStep(WritePass(d, skip, cs[..i], builds[..i], clock), skip, cs[i], builds[i], clock)
  {
    assert cs[..i + 1][..i] == cs[..i] && builds[..i + 1][..i] == builds[..i];
  }

  /** A pass stopped by an exception stays stopped. */
  lemma {:induction false} WritePassStops(d: Disk, skip: set<string>, cs: seq<Json>, builds: seq<Built<Json>>, clock: real, k: nat)
    requires |builds| == |cs| && k <= |cs|
    requires WritePass(d, skip, cs[..k], builds[..k], clock).error.Some?
    ensures WritePass(d, skip, cs, builds, clock) == WritePass(d, skip, cs[..k], builds[..k], clock)
    decreases |cs| - k
  {
    if k < |cs| {
      WritePassSnoc(d, skip, cs, builds, clock, k);
      WritePassStops(d, skip, cs, builds, clock, k + 1);
    } else {
      assert cs[..k] == cs && builds[..k] == builds;
    }
  }

  /** One more entry extends a refresh pass by one step. */
  lemma RefreshPassSnoc(d: Disk, byId: map<string, Json>, builds: map<string, Built<Json>>, cutoff: real, ns: seq<string>, clock: real, i: nat)
    requires builds.Keys == byId.Keys && i < |ns|
    ensures RefreshPass(d, byId, builds, cutoff, ns[..i + 1], clock)
         == RefreshStep(RefreshPass(d, byId, builds, cutoff, ns[..i], clock), byId, builds, cutoff, ns[i], clock)
  {
    assert ns[..i + 1][..i] == ns[..i];
  }

  /** A refresh pass stopped by an exception stays stopped. */
  lemma {:induction false} RefreshPassStops(d: Disk, byId: map<string, Json>, builds: map<string, Built<Json>>, cutoff: real, ns: seq<string>, clock: real, k: nat)
    requires builds.Keys == byId.Keys && k <= |ns|
    requires RefreshPass(d, byId, builds, cutoff, ns[..k], clock).error.Some?
    ensures RefreshPass(d, byId, builds, cutoff, ns, clock) == RefreshPass(d, byId, builds, cutoff, ns[..k], clock)
    decreases |ns| - k
  {
    if k < |ns| {
      RefreshPassSnoc(d, byId, builds, cutoff, ns, clock, k);
      RefreshPassStops(d, byId, builds, cutoff, ns, clock, k + 1);
    } else {
      assert ns[..k] == ns;
    }
  }

  /** What a pass returns: the count of files written, or its exception. */
  function Count(r: Run): Built<nat>
  {
    if r.error.Some? then Raises(r.error.value) else Done(|r.written|)
  }

  // ---------------------------------------------------------------- the store

  /** The data directory, whose files the passes write in place. */
  class BundleStore {
    var names: seq<string>
    var files: map<string, Option<Json>>
    var mtimes: map<string, real>

    function State(): Disk
      reads this
    {
      Disk(names, files, mtimes)
    }

    ghost predicate Valid()
      reads this
    {
      DiskValid(State())
    }

    constructor(d: Disk)
      requires DiskValid(d)
      ensures State() == d && Valid()
    {
      names, files, mtimes := d.names, d.files, d.mtimes;
    }

    /** `write_company_bundle(cid, bundle)` at time `clock`. */
    method Write(cid: Json, bundle: Json, clock: real)
      requires Valid()
      modifies this
      ensures State() == Saved(old(State()), FileName(cid), bundle, clock) && Valid()
    {
      SavedValid(State(), FileName(cid), bundle, clock);
      var name := FileName(cid);
      if name !in files {
        names := names + [name];
      }
      files := files[name := Some(bundle)];
      mtimes := mtimes[name := clock];
    }

    /** `load_company_bundle(cid)`. */
    method Load(cid: Json) returns (r: Json)
      ensures r == Loaded(State(), cid)
    {
      var name := FileName(cid);
      if name in files && files[name].Some? {
        r := files[name].value;
      } else {
        r := JObj([]);
      }
    }

    /** `list_company_bundles()`. */
    method ListCompanyBundles() returns (out: seq<Json>)
      ensures out == Listed(State())
    {
      var sorted := Sort(names);
      out := [];
      var i := 0;
      while i < |sorted|
        invariant 0 <= i <= |sorted|
        invariant out == ListedOf(sorted[..i], files)
      {
        var name := sorted[i];
        assert sorted[..i + 1][..i] == sorted[..i];
        if EndsWith(name, Suffix) && name in files && files[name].Some? {
          out := out + [files[name].value];
        }
        i := i + 1;
      }
      assert sorted[..i] == sorted;
    }

    /** One company of the writing loop: build and write its bundle when it
        is wanted. */
    method WriteOne(skip: set<string>, c: Json, live: Live, ghost build: Built<Json>, written: seq<string>)
      returns (written': seq<string>, error: Option<string>)
      requires Valid() && build == BuildBundle(c, live.domains, live.api, live.now)
      modifies this
      ensures Run(State(), written', error) == WriteStep(Run(old(State()), written, None), skip, c, build, live.clock)
      ensures Valid()
    {
      written', error := written, None;
      if !c.JObj? {
        error := Some("AttributeError");
        return;
      }
      var cid := CompanyId(c);
      if cid != JNull && Str(cid) !in skip {
        var b := BuildCompanyBundle(c, live.domains, live.api, live.now);
        if b.Raises? {
          error := Some(b.error);
          return;
        }
        Write(cid, b.value, live.clock);
        written' := written + [FileName(cid)];
      }
    }

    /** The loop shared by `build_all_company_bundles` (nothing skipped) and
        `ensure_missing_bundles` (existing ids skipped). */
    method WriteCompanies(skip: set<string>, cs: seq<Json>, live: Live) returns (written: seq<string>, error: Option<string>)
      requires Valid()
      modifies this
      ensures Run(State(), written, error) == WritePass(old(State()), skip, cs, Builds(cs, live), live.clock)
      ensures Valid()
    {
      ghost var d0 := State();
      ghost var builds := Builds(cs, live);
      written, error := [], None;
      var i := 0;
      while i < |cs|
        invariant 0 <= i <= |cs| && Valid()
        invariant WritePass(d0, skip, cs[..i], builds[..i], live.clock) == Run(State(), written, None)
        invariant error == None
      {
        WritePassSnoc(d0, skip, cs, builds, live.clock, i);
        written, error := WriteOne(skip, cs[i], live, builds[i], written);
        if error.Some? {
          WritePassStops(d0, skip, cs, builds, live.clock, i + 1);
          return;
        }
        i := i + 1;
      }
      assert cs[..i] == cs && builds[..i] == builds;
    }

    /** `build_all_company_bundles()`: the paths written, in order. */
    method BuildAll(cs: seq<Json>, live: Live) returns (r: Built<seq<string>>)
      requires Valid()
      modifies this
      ensures var run := BuildAllPass(old(State()), cs, live);
        State() == run.disk && Valid() &&
        r == if run.error.Some? then Raises(run.error.value) else Done(run.written)
    {
      var written, error := WriteCompanies({}, cs, live);
      if error.Some? {
        return Raises(error.value);
      }
      return Done(written);
    }

    /** The existing ids: the stems of the `_data.json` entries. */
    method ExistingIdsOf() returns (ids: set<string>)
      ensures ids == ExistingIds(State())
    {
      ids := {};
      var i := 0;
      while i < |names|
        invariant 0 <= i <= |names|
        invariant ids == set n | n in names[..i] && EndsWith(n, Suffix) :: Stem(n)
      {
        assert forall n :: n in names[..i + 1] <==> n in names[..i] || n == names[i];
        if EndsWith(names[i], Suffix) {
          ids := ids + {Stem(names[i])};
        }
        i := i + 1;
      }
      assert names[..i] == names;
    }

    /** `ensure_missing_bundles()`: the number of files written. */
    method EnsureMissing(cs: seq<Json>, live: Live) returns (r: Built<nat>)
      requires Valid()
      modifies this
      ensures var run := EnsureMissingPass(old(State()), cs, live);
        State() == run.disk && Valid() && r == Count(run)
    {
      var existing := ExistingIdsOf();
      var written, error := WriteCompanies(existing, cs, live);
      if error.Some? {
        return Raises(error.value);
      }
      return Done(|written|);
    }

    /** `ensure_initial_bundles()`: the number of listed bundles when there
        are any, otherwise the number `build_all_company_bundles` writes. */
    method EnsureInitial(cs: seq<Json>, live: Live) returns (r: Built<nat>)
      requires Valid()
      modifies this
      ensures |Listed(old(State()))| > 0 ==> State() == old(State()) && r == Done(|Listed(old(State()))|)
      ensures |Listed(old(State()))| == 0 ==>
        var run := BuildAllPass(old(State()), cs, live);
        State() == run.disk && r == Count(run)
      ensures Valid()
    {
      var existing := ListCompanyBundles();
      if |existing| > 0 {
        return Done(|existing|);
      }
      var written := BuildAll(cs, live);
      if written.Raises? {
        return Raises(written.error);
      }
      return Done(|written.value|);
    }

    /** `rebuild_company_bundle_for_id(company_id)`. */
    method RebuildForId(cs: seq<Json>, companyId: Json, live: Live) returns (r: Built<Option<string>>)
      requires Valid()
      modifies this
      ensures var rb := Rebuild(old(State()), cs, companyId, Builds(cs, live), live.clock);
        State() == rb.disk && r == rb.result && Valid()
    {
      ghost var ids := IdTexts(cs);
      var target := Str(companyId);
      var i := 0;
      while i < |cs|
        invariant 0 <= i <= |cs|
        invariant FirstWithId(ids, target, 0) == FirstWithId(ids, target, i)
      {
        var c := cs[i];
        if !c.JObj? {
          return Raises("AttributeError");
        }
        var cid := CompanyId(c);
        if Str(cid) == target {
          var b := BuildCompanyBundle(c, live.domains, live.api, live.now);
          if b.Raises? {
            return Raises(b.error);
          }
          Write(cid, b.value, live.clock);
          return Done(Some(FileName(cid)));
        }
        i := i + 1;
      }
      return Done(None);
    }

    /** The index `{str(company_id(c)): c}` of `refresh_stale_bundles`;
        `None` when a company is not a dict. */
    static method IndexById(cs: seq<Json>) returns (r: Option<map<string, Json>>)
      ensures r.None? <==> exists i :: 0 <= i < |cs| && !cs[i].JObj?
      ensures r.Some? ==> r.value == ById(cs)
    {
      var byId: map<string, Json> := map[];
      var k := 0;
      while k < |cs|
        invariant 0 <= k <= |cs|
        invariant DictsUpTo(cs, k)
        invariant byId == DictOf(IdPairs(cs)[..k])
      {
        if !cs[k].JObj? {
          return None;
        }
        DictsUpToSnoc(cs, k);
        byId := IndexOne(cs, k, byId);
        k := k + 1;
      }
      ByIdAll(cs);
      return Some(byId);
    }

    /** One step of the index: company `k` under its id text. */
    static method IndexOne(cs: seq<Json>, k: nat, byId: map<string, Json>) returns (r: map<string, Json>)
      requires k < |cs| && byId == DictOf(IdPairs(cs)[..k])
      ensures r == DictOf(IdPairs(cs)[..k + 1])
    {
      ByIdSnoc(cs, k, byId);
      r := byId[Str(CompanyId(cs[k])) := cs[k]];
    }

    /** One entry of the refresh loop: rebuild it when it is stale. */
    method RefreshOne(byId: map<string, Json>, cutoff: real, name: string, live: Live,
                      ghost builds: map<string, Built<Json>>, written: seq<string>)
      returns (written': seq<string>, error: Option<string>)
      requires Valid() && builds == BuildsById(byId, live)
      modifies this
      ensures Run(State(), written', error) == RefreshStep(Run(old(State()), written, None), byId, builds, cutoff, name, live.clock)
      ensures Valid()
    {
      written', error := written, None;
      if EndsWith(name, Suffix) {
        var cid := Stem(name);
        var mtime := if name in mtimes then mtimes[name] else 0.0;
        if mtime < cutoff && cid in byId && Truthy(byId[cid]) {
          var b := BuildCompanyBundle(byId[cid], live.domains, live.api, live.now);
          if b.Raises? {
            error := Some(b.error);
            return;
          }
          Write(JStr(cid), b.value, live.clock);
          written' := written + [FileName(JStr(cid))];
        }
      }
    }

    /** `refresh_stale_bundles(ttl_hours)` with its cutoff time. */
    method RefreshStale(cs: seq<Json>, cutoff: real, live: Live) returns (r: Built<nat>)
      requires Valid()
      modifies this
      ensures var run := RefreshStalePass(old(State()), cs, cutoff, live);
        State() == run.disk && Valid() && r == Count(run)
    {
      var index := IndexById(cs);
      if index.None? {
        return Raises("AttributeError");
      }
      var byId := index.value;
      ghost var d0 := State();
      ghost var builds := BuildsById(byId, live);
      var listing := names;
      var written: seq<string> := [];
      var i := 0;
      while i < |listing|
        invariant 0 <= i <= |listing| && Valid()
        invariant RefreshPass(d0, byId, builds, cutoff, listing[..i], live.clock) == Run(State(), written, None)
      {
        RefreshPassSnoc(d0, byId, builds, cutoff, listing, live.clock, i);
        var error;
        written, error := RefreshOne(byId, cutoff, listing[i], live, builds, written);
        if error.Some? {
          RefreshPassStops(d0, byId, builds, cutoff, listing, live.clock, i + 1);
          return Raises(error.value);
        }
        i := i + 1;
      }
      assert listing[..i] == listing;
      return Done(|written|);
    }
  }
}
