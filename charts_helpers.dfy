/** Shape-tolerant helpers of the chart layer: the per-control rating probe,
    the control-reference column detector and the sorted comma-joined
    renderings of category lists. */
module ChartsHelpers {
  import opened Text
  import opened JsonValue

  // ------------------------------------------------------------------ _rating

  /** The keys probed for a per-control maturity rating, in probe order. */
  const RatingKeys: seq<string> := [
    "cmm_rating", "rating", "level", "score", "value", "current_maturity",
    "current_rating", "cmm", "maturity", "risk_level", "risk_rating"
  ]

  predicate IsNumericChar(c: char)
  {
    IsDigitChar(c) || c == '.' || c == '-'
  }

  /** `"".join(ch for ch in s if ch.isdigit() or ch in ".-")`. */
  function KeepNumeric(s: string): (r: string)
    ensures |r| <= |s|
    ensures forall c :: c in r ==> IsNumericChar(c) && c in s
    ensures forall c :: c in s && IsNumericChar(c) ==> c in r
  {
    if s == [] then ""
    else
      var rest := KeepNumeric(s[1..]);
      assert forall c :: c in s ==> c == s[0] || c in s[1..];
      if IsNumericChar(s[0]) then [s[0]] + rest else rest
  }

  /** One probed value that is not `None`: `float(v)`, or else `float` of its
      numeric characters when there are any. */
  function RatingOf(v: Json): (r: Option<real>)
    ensures ToFloat(v).Some? ==> r == ToFloat(v)
    ensures ToFloat(v).None? && KeepNumeric(Str(v)) == [] ==> r.None?
  {
    match ToFloat(v)
    case Some(x) => Some(x)
    case None =>
      var s2 := KeepNumeric(Str(v));
      if s2 != [] then ParseFloat(s2) else None
  }

  /** What probing one key yields: nothing for an absent or `None` value. */
  function Probe(row: seq<(string, Json)>, k: string): Option<real>
  {
    match Get(row, k)
    case None => None
    case Some(v) => if v.JNull? then None else RatingOf(v)
  }

  /** The first key of `keys` whose probe yields a number. */
  function FirstRating(row: seq<(string, Json)>, keys: seq<string>): (r: Option<real>)
    ensures r.None? <==> forall i :: 0 <= i < |keys| ==> Probe(row, keys[i]).None?
  {
    if keys == [] then None
    else if Probe(row, keys[0]).Some? then Probe(row, keys[0])
    else FirstRating(row, keys[1..])
  }

  /** The probe of the first key that yields a number is the answer. */
  lemma {:induction false} FirstRatingIsFirst(row: seq<(string, Json)>, keys: seq<string>, i: nat)
    requires i < |keys| && Probe(row, keys[i]).Some?
    requires forall j :: 0 <= j < i ==> Probe(row, keys[j]).None?
    ensures FirstRating(row, keys) == Probe(row, keys[i])
    decreases i
  {
    if i > 0 {
      FirstRatingIsFirst(row, keys[1..], i - 1);
    }
  }

  /** `_rating(row)`. */
  function Rating(row: seq<(string, Json)>): Option<real>
  {
    FirstRating(row, RatingKeys)
  }

  /** Filtering distributes over concatenation. */
  lemma {:induction false} KeepNumericAppend(a: string, b: string)
    ensures KeepNumeric(a + b) == KeepNumeric(a) + KeepNumeric(b)
    decreases |a|
  {
    if a != [] {
      assert (a + b)[0] == a[0] && (a + b)[1..] == a[1..] + b;
      KeepNumericAppend(a[1..], b);
      var h := if IsNumericChar(a[0]) then [a[0]] else [];
      assert KeepNumeric(a + b) == h + KeepNumeric(a[1..] + b);
      assert KeepNumeric(a) == h + KeepNumeric(a[1..]);
    } else {
      assert a + b == b;
    }
  }

  lemma KeepNumericOnly(a: string)
    requires forall c :: c in a ==> IsNumericChar(c)
    ensures KeepNumeric(a) == a
  {
    if a != [] {
      assert forall c :: c in a[1..] ==> c in a;
      KeepNumericOnly(a[1..]);
      assert a == [a[0]] + a[1..];
    }
  }

  lemma KeepNumericNone(a: string)
    requires forall c :: c in a ==> !IsNumericChar(c)
    ensures KeepNumeric(a) == []
  {
  }

  // The worked examples below establish one literal fact per lemma: each is
  // cheap alone, while in one context the solver starts evaluating every
  // function of the example on the literal.

  lemma SlashStrip(s: string)
    requires s == "3/4"
    ensures Strip(s) == s
  {
    StripFixed(s);
  }

  lemma SlashText(s: string)
    requires s == "3/4"
    ensures s != [] && s[0] == '3' && '.' !in s && !AllDigits(s)
  {
    assert s[1] == '/';
  }

  lemma SlashParseFails(s: string)
    requires s == "3/4"
    ensures ParseFloat(s) == None
  {
    SlashStrip(s);
    SlashText(s);
    ParseFloatWhole(s);
  }

  lemma DigitsStrip(n: string)
    requires n == "34"
    ensures Strip(n) == n
  {
    StripFixed(n);
  }

  lemma DigitsText(n: string)
    requires n == "34"
    ensures n != [] && n[0] == '3' && '.' !in n && AllDigits(n)
  {
  }

  lemma DigitsValue34(n: string)
    requires n == "34"
    ensures DecimalValue(n, "") == 34.0
  {
    assert n[..1] == "3" && n[..1][..0] == [];
    assert DigitsValue(n[..1]) == 3;
    assert DigitsValue(n) == 34;
    assert FracValue("") == 0.0;
  }

  lemma SlashParseDigits(n: string)
    requires n == "34"
    ensures ParseFloat(n) == Some(34.0)
  {
    DigitsStrip(n);
    DigitsText(n);
    DigitsValue34(n);
    ParseFloatWhole(n);
  }

  lemma SlashFacts()
    ensures "3/4" == "3" + "/" + "4" && "3" + "4" == "34"
  {
  }

  lemma SlashKeep()
    ensures KeepNumeric("3/4") == "34"
  {
    SlashFacts();
    KeepNumericAppend("3" + "/", "4");
    KeepNumericAppend("3", "/");
    KeepNumericOnly("3");
    KeepNumericOnly("4");
    KeepNumericNone("/");
  }

  lemma RatingKeysFacts()
    ensures RatingKeys[0] == "cmm_rating" && RatingKeys[1] == "rating" && RatingKeys[2] == "level"
  {
  }

  /** The first three probes of `_rating`, by key name. */
  lemma FirstProbes(row: seq<(string, Json)>)
    ensures Probe(row, RatingKeys[0]) == Probe(row, "cmm_rating")
    ensures Probe(row, RatingKeys[1]) == Probe(row, "rating")
    ensures Probe(row, RatingKeys[2]) == Probe(row, "level")
  {
    RatingKeysFacts();
  }

  lemma SlashRatingOf()
    ensures RatingOf(JStr("3/4")) == Some(34.0)
  {
    SlashParseFails("3/4");
    SlashParseDigits("34");
    SlashKeep();
  }

  /** The second key is read when the first yields nothing. */
  lemma RatingAtSecond(row: seq<(string, Json)>, x: real)
    requires Probe(row, "cmm_rating").None? && Probe(row, "rating") == Some(x)
    ensures Rating(row) == Some(x)
  {
    FirstProbes(row);
    assert Probe(row, RatingKeys[0]).None? && Probe(row, RatingKeys[1]).Some?;
    assert forall j :: 0 <= j < 1 ==> Probe(row, RatingKeys[j]).None?;
    FirstRatingIsFirst(row, RatingKeys, 1);
  }

  lemma SlashProbe(row: seq<(string, Json)>)
    requires Get(row, "rating") == Some(JStr("3/4"))
    ensures Probe(row, "rating") == Some(34.0)
  {
    SlashRatingOf();
  }

  /** A rating written as a fraction loses its slash: `"3/4"` reads as 34. */
  lemma RatingSlashExample(row: seq<(string, Json)>)
    requires Probe(row, "cmm_rating").None? && Get(row, "rating") == Some(JStr("3/4"))
    ensures Rating(row) == Some(34.0)
  {
    SlashProbe(row);
    RatingAtSecond(row, 34.0);
  }

  lemma NoteStrip(s: string)
    requires s == "3" + "." + "0 (ok)"
    ensures Strip(s) == s
  {
    assert s[0] == '3' && s[|s| - 1] == ')';
    StripFixed(s);
  }

  lemma NoteText(w: string, f: string)
    requires w == "3" && f == "0 (ok)"
    ensures '.' !in w && w[0] != '-' && w[0] != '+' && !AllDigits(f)
  {
    assert f[1] == ' ';
  }

  lemma NoteParseFails(s: string, w: string, f: string)
    requires w == "3" && f == "0 (ok)" && s == w + "." + f
    ensures ParseFloat(s) == None
  {
    NoteStrip(s);
    NoteText(w, f);
    ParseFloatPoint(s, w, f);
  }

  lemma NumberStrip(s: string)
    requires s == "3" + "." + "0"
    ensures Strip(s) == s
  {
    assert s[0] == '3' && s[|s| - 1] == '0';
    StripFixed(s);
  }

  lemma NumberText(w: string, f: string)
    requires w == "3" && f == "0"
    ensures '.' !in w && w[0] != '-' && w[0] != '+' && AllDigits(w) && AllDigits(f)
  {
  }

  lemma NumberValue(w: string, f: string)
    requires w == "3" && f == "0"
    ensures DecimalValue(w, f) == 3.0
  {
    assert w[..0] == [] && f[1..] == [];
    assert DigitsValue(w) == 3;
    assert FracValue(f) == 0.0;
  }

  lemma NoteParseNumber(s: string, w: string, f: string)
    requires w == "3" && f == "0" && s == w + "." + f
    ensures ParseFloat(s) == Some(3.0)
  {
    NumberStrip(s);
    NumberText(w, f);
    NumberValue(w, f);
    ParseFloatPoint(s, w, f);
  }

  lemma NoteFacts()
    ensures "3.0 (ok)" == "3" + "." + "0 (ok)" && "3.0" == "3" + "." + "0"
    ensures "3.0 (ok)" == "3.0" + " (ok)"
    ensures forall c :: c in "3.0" ==> IsNumericChar(c)
    ensures forall c :: c in " (ok)" ==> !IsNumericChar(c)
  {
  }

  lemma NoteKeep()
    ensures KeepNumeric("3.0 (ok)") == "3.0"
  {
    NoteFacts();
    KeepNumericAppend("3.0", " (ok)");
    KeepNumericOnly("3.0");
    KeepNumericNone(" (ok)");
  }

  lemma NoteRatingOf()
    ensures RatingOf(JStr("3.0 (ok)")) == Some(3.0)
  {
    NoteFacts();
    NoteParseFails("3.0 (ok)", "3", "0 (ok)");
    NoteParseNumber("3.0", "3", "0");
    NoteKeep();
  }

  /** Text after a number is dropped: `"3.0 (ok)"` reads as 3.0. */
  lemma RatingNoteExample(row: seq<(string, Json)>)
    requires Get(row, "cmm_rating") == Some(JStr("3.0 (ok)"))
    ensures Rating(row) == Some(3.0)
  {
    NoteRatingOf();
    assert Probe(row, "cmm_rating") == Some(3.0);
    FirstProbes(row);
    FirstRatingIsFirst(row, RatingKeys, 0);
  }

  /** A value nothing can be read from passes on to the next key. */
  lemma RatingFallsThrough(row: seq<(string, Json)>, x: real)
    requires Probe(row, "cmm_rating").None? && Probe(row, "rating").None?
    requires Probe(row, "level") == Some(x)
    ensures Rating(row) == Some(x)
  {
    FirstProbes(row);
    assert Probe(row, RatingKeys[0]).None? && Probe(row, RatingKeys[1]).None?;
    assert forall j :: 0 <= j < 2 ==> Probe(row, RatingKeys[j]).None?;
    FirstRatingIsFirst(row, RatingKeys, 2);
  }

  // --------------------------------------------------- detect_control_ref_col

  /** The column names tried first, compared with the lowercased columns. */
  const ExactCandidates: seq<string> := [
    "control_ref", "control_reference", "control", "ref", "nist_control",
    "csf_control", "controlid", "control_id", "control_code", "controlcode",
    "controlkey", "control_key", "nist_ref", "nist_reference"
  ]

  /** `{c.lower(): c for c in cols}[k]`: the last column whose lowercase is
      `k`, since later columns overwrite earlier ones. */
  function LowerLookup(cols: seq<string>, k: string): (r: Option<string>)
    ensures r.None? <==> forall i :: 0 <= i < |cols| ==> Lower(cols[i]) != k
    ensures r.Some? ==> r.value in cols && Lower(r.value) == k
  {
    if cols == [] then None
    else if Lower(cols[|cols| - 1]) == k then Some(cols[|cols| - 1])
    else LowerLookup(cols[..|cols| - 1], k)
  }

  /** Of several columns with the same lowercase, the last one is kept. */
  lemma {:induction false} LowerLookupIsLast(cols: seq<string>, k: string, i: nat)
    requires i < |cols| && Lower(cols[i]) == k
    requires forall j :: i < j < |cols| ==> Lower(cols[j]) != k
    ensures LowerLookup(cols, k) == Some(cols[i])
    decreases |cols|
  {
    if i < |cols| - 1 {
      LowerLookupIsLast(cols[..|cols| - 1], k, i);
    }
  }

  /** The first candidate present among the lowercased columns. */
  function FirstExact(cols: seq<string>, cands: seq<string>): (r: Option<string>)
    ensures r.None? <==> forall i :: 0 <= i < |cands| ==> LowerLookup(cols, cands[i]).None?
    ensures r.Some? ==> r.value in cols
  {
    if cands == [] then None
    else if LowerLookup(cols, cands[0]).Some? then LowerLookup(cols, cands[0])
    else FirstExact(cols, cands[1..])
  }

  /** Candidates are tried in list order. */
  lemma {:induction false} FirstExactIsFirst(cols: seq<string>, cands: seq<string>, i: nat)
    requires i < |cands| && LowerLookup(cols, cands[i]).Some?
    requires forall j :: 0 <= j < i ==> LowerLookup(cols, cands[j]).None?
    ensures FirstExact(cols, cands) == LowerLookup(cols, cands[i])
    decreases i
  {
    if i > 0 {
      FirstExactIsFirst(cols, cands[1..], i - 1);
    }
  }

  /** The fuzzy rule on a lowercased column name. */
  predicate FuzzyName(cl: string)
  {
    Contains(cl, "control")
    && (Contains(cl, "ref") || Contains(cl, "id") || Contains(cl, "code") || Contains(cl, "key"))
  }

  /** The first column the fuzzy rule accepts. */
  function FirstFuzzy(cols: seq<string>): (r: Option<string>)
    ensures r.None? <==> forall i :: 0 <= i < |cols| ==> !FuzzyName(Lower(cols[i]))
    ensures r.Some? ==> r.value in cols && FuzzyName(Lower(r.value))
  {
    if cols == [] then None
    else if FuzzyName(Lower(cols[0])) then Some(cols[0])
    else FirstFuzzy(cols[1..])
  }

  /** Columns are tried in order. */
  lemma {:induction false} FirstFuzzyIsFirst(cols: seq<string>, i: nat)
    requires i < |cols| && FuzzyName(Lower(cols[i]))
    requires forall j :: 0 <= j < i ==> !FuzzyName(Lower(cols[j]))
    ensures FirstFuzzy(cols) == Some(cols[i])
    decreases i
  {
    if i > 0 {
      FirstFuzzyIsFirst(cols[1..], i - 1);
    }
  }

  /** `detect_control_ref_col`: an exact candidate wins over the fuzzy rule,
      and the answer is always one of the columns as written. */
  function DetectControlRefCol(cols: seq<string>): (r: Option<string>)
    ensures r.Some? ==> r.value in cols
    ensures FirstExact(cols, ExactCandidates).Some? ==> r == FirstExact(cols, ExactCandidates)
    ensures FirstExact(cols, ExactCandidates).None? ==> r == FirstFuzzy(cols)
  {
    var e := FirstExact(cols, ExactCandidates);
    if e.Some? then e else FirstFuzzy(cols)
  }

  lemma DetectFacts()
    ensures Lower("Control_Ref") == "control_ref" && ExactCandidates[0] == "control_ref"
  {
  }

  /** An exact name in another case is found as written. */
  lemma DetectExactExample()
    ensures DetectControlRefCol(["Name", "Control_Ref"]) == Some("Control_Ref")
  {
    DetectFacts();
    var cols := ["Name", "Control_Ref"];
    LowerLookupIsLast(cols, "control_ref", 1);
    FirstExactIsFirst(cols, ExactCandidates, 0);
  }

  // ---------------------------------------------------- csv_upper / csv_plain

  /** The items that are not blank after stripping, in order. */
  function NonBlank(items: seq<string>): (r: seq<string>)
    ensures forall x :: x in r <==> x in items && Strip(x) != []
  {
    if items == [] then []
    else
      var rest := NonBlank(items[1..]);
      assert forall x :: x in items <==> x == items[0] || x in items[1..];
      if Strip(items[0]) != [] then [items[0]] + rest else rest
  }

  function UpperAll(xs: seq<string>): (r: seq<string>)
    ensures |r| == |xs| && forall i :: 0 <= i < |xs| ==> r[i] == Upper(xs[i])
  {
    seq(|xs|, i requires 0 <= i < |xs| => Upper(xs[i]))
  }

  function StripAll(xs: seq<string>): (r: seq<string>)
    ensures |r| == |xs| && forall i :: 0 <= i < |xs| ==> r[i] == Strip(xs[i])
  {
    seq(|xs|, i requires 0 <= i < |xs| => Strip(xs[i]))
  }

  /** `", ".join(sorted(vals)) if vals else "-"`. */
  function SortedJoin(vals: seq<string>): (r: string)
    ensures vals == [] ==> r == "-"
    ensures vals != [] ==>
      (exists vs :: Sorted(vs) && multiset(vs) == multiset(vals) && r == Join(vs, ", "))
  {
    if vals == [] then "-"
    else
      SortSorted(vals);
      Join(Sort(vals), ", ")
  }

  /** `csv_upper(items)`: the non-blank items uppercased, sorted and joined. */
  function CsvUpper(items: seq<string>): (r: string)
    ensures NonBlank(items) == [] ==> r == "-"
    ensures NonBlank(items) != [] ==>
      (exists vs :: Sorted(vs) && multiset(vs) == multiset(UpperAll(NonBlank(items))) && r == Join(vs, ", "))
  {
    SortedJoin(UpperAll(NonBlank(items)))
  }

  /** `csv_plain(items)`: the non-blank items stripped, sorted and joined. */
  function CsvPlain(items: seq<string>): (r: string)
    ensures NonBlank(items) == [] ==> r == "-"
    ensures NonBlank(items) != [] ==>
      (exists vs :: Sorted(vs) && multiset(vs) == multiset(StripAll(NonBlank(items))) && r == Join(vs, ", "))
  {
    SortedJoin(StripAll(NonBlank(items)))
  }
}
