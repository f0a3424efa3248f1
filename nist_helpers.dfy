/** Lookups over the CSF tables: the controls of a finding category (through
    its function identifiers and their names), the identifiers or names of a
    category, the function code of a control reference, and the one-line
    identifier summary.  The three tables the lookups read are parameters:
    `idents` maps a function identifier to its name, `controls` a name to its
    controls, and `categories` a finding category to its identifiers. */
module NistHelpers {
  import opened Text
  import opened JsonValue
  import opened Normalization
  import opened NistMappings

  type Table<V> = seq<(string, V)>

  /** `_function_name_from_identifier`: the name of the stripped, uppercased
      identifier. */
  function FunctionNameFromIdentifier(idents: Table<string>, fid: string): (r: Option<string>)
    ensures r.Some? ==> (Upper(Strip(fid)), r.value) in idents
    ensures r.None? <==> Upper(Strip(fid)) !in Keys(idents)
  {
    Get(idents, Upper(Strip(fid)))
  }

  /** `_controls_from_function_name`: the controls of the stripped name, or
      none for an unknown name. */
  function ControlsFromFunctionName(controls: Table<seq<string>>, fname: string): (r: seq<string>)
    ensures Strip(fname) !in Keys(controls) ==> r == []
    ensures r != [] ==> (Strip(fname), r) in controls
  {
    match Get(controls, Strip(fname))
    case Some(cs) => cs
    case None => []
  }

  /** What one identifier adds to its category's list: nothing when it has no
      name or an empty one. */
  function IdentifierControls(idents: Table<string>, controls: Table<seq<string>>, fid: string): seq<string>
  {
    match FunctionNameFromIdentifier(idents, fid)
    case None => []
    case Some(fname) => if fname == "" then [] else ControlsFromFunctionName(controls, fname)
  }

  /** What each identifier of a list adds, in order. */
  function Contributions(idents: Table<string>, controls: Table<seq<string>>, fids: seq<string>): (r: seq<seq<string>>)
    ensures |r| == |fids| && forall j :: 0 <= j < |fids| ==> r[j] == IdentifierControls(idents, controls, fids[j])
  {
    seq(|fids|, j requires 0 <= j < |fids| => IdentifierControls(idents, controls, fids[j]))
  }

  /** The controls of a list of identifiers, in order, repeats kept. */
  function CollectedControls(idents: Table<string>, controls: Table<seq<string>>, fids: seq<string>): seq<string>
  {
    Flatten(Contributions(idents, controls, fids))
  }

  lemma CollectStep(idents: Table<string>, controls: Table<seq<string>>, fids: seq<string>, j: nat)
    requires j < |fids|
    ensures CollectedControls(idents, controls, fids[..j + 1])
      == CollectedControls(idents, controls, fids[..j]) + IdentifierControls(idents, controls, fids[j])
  {
    var before := Contributions(idents, controls, fids[..j]);
    assert Contributions(idents, controls, fids[..j + 1])
      == before + [IdentifierControls(idents, controls, fids[j])];
    FlattenSnoc(before, IdentifierControls(idents, controls, fids[j]));
  }

  /** The loop that extends `controls` for the identifiers of one category. */
  method CollectControls(idents: Table<string>, controls: Table<seq<string>>, fids: seq<string>)
    returns (collected: seq<string>)
    ensures collected == CollectedControls(idents, controls, fids)
  {
    collected := [];
    var j := 0;
    while j < |fids|
      invariant j <= |fids|
      invariant collected == CollectedControls(idents, controls, fids[..j])
    {
      var fname := FunctionNameFromIdentifier(idents, fids[j]);
      var added: seq<string> := [];
      if fname.Some? && fname.value != "" {
        added := ControlsFromFunctionName(controls, fname.value);
      }
      assert added == IdentifierControls(idents, controls, fids[j]);
      CollectStep(idents, controls, fids, j);
      collected := collected + added;
      j := j + 1;
    }
    assert fids[..j] == fids;
  }

  /** The pairs `build_category_to_controls` assigns, in order: each
      category with the sorted, repeat-free controls of its identifiers. */
  function CategoryPairs(categories: Table<seq<string>>, idents: Table<string>, controls: Table<seq<string>>): (r: Table<seq<string>>)
    ensures |r| == |categories|
    ensures forall k :: 0 <= k < |r| ==> r[k].0 == categories[k].0
  {
    seq(|categories|, k requires 0 <= k < |categories| =>
      (categories[k].0, SortedSet(CollectedControls(idents, controls, categories[k].1))))
  }

  /** `build_category_to_controls`: one pass over the categories. */
  method BuildCategoryToControls(categories: Table<seq<string>>, idents: Table<string>, controls: Table<seq<string>>)
    returns (out: map<string, seq<string>>)
    ensures out == DictOf(CategoryPairs(categories, idents, controls))
  {
    ghost var pairs := CategoryPairs(categories, idents, controls);
    out := map[];
    var i := 0;
    while i < |categories|
      invariant i <= |categories|
      invariant out == DictOf(pairs[..i])
    {
      var entry := CategoryEntry(categories, idents, controls, i);
      DictOfSnoc(pairs, i);
      out := out[entry.0 := entry.1];
      i := i + 1;
    }
    assert pairs[..i] == pairs;
  }

  /** One category of the pass: its name and its sorted, repeat-free
      controls. */
  method CategoryEntry(categories: Table<seq<string>>, idents: Table<string>, controls: Table<seq<string>>, i: nat)
    returns (entry: (string, seq<string>))
    requires i < |categories|
    ensures entry == CategoryPairs(categories, idents, controls)[i]
  {
    var collected := CollectControls(idents, controls, categories[i].1);
    entry := (categories[i].0, SortedSet(collected));
  }

  /** The keys of the built dict are the category names, and each holds the
      list built from the identifiers of the category's last entry. */
  lemma BuiltMapMeaning(categories: Table<seq<string>>, idents: Table<string>, controls: Table<seq<string>>, cat: string, k: nat)
    requires k < |categories| && LastBinding(categories, k)
    ensures cat in DictOf(CategoryPairs(categories, idents, controls)) <==> cat in Keys(categories)
    ensures categories[k].0 in DictOf(CategoryPairs(categories, idents, controls))
    ensures DictOf(CategoryPairs(categories, idents, controls))[categories[k].0]
      == SortedSet(CollectedControls(idents, controls, categories[k].1))
  {
    var pairs := CategoryPairs(categories, idents, controls);
    DictOfKeys(pairs, cat);
    assert Keys(pairs) == Keys(categories);
    assert LastBinding(pairs, k);
    DictOfValue(pairs, k);
  }

  /** Each built list ascends strictly and is exactly the union of the
      controls of the category's identifiers; an identifier without a name
      contributes nothing. */
  lemma BuiltListMeaning(idents: Table<string>, controls: Table<seq<string>>, fids: seq<string>, c: string)
    ensures StrictlyIncreasing(SortedSet(CollectedControls(idents, controls, fids)))
    ensures c in SortedSet(CollectedControls(idents, controls, fids)) <==>
      exists j :: 0 <= j < |fids| && c in IdentifierControls(idents, controls, fids[j])
  {
    FlattenMembers(Contributions(idents, controls, fids), c);
  }

  /** An identifier with no name, or an empty one, adds nothing. */
  lemma UnnamedAddsNothing(idents: Table<string>, controls: Table<seq<string>>, fid: string)
    requires Upper(Strip(fid)) !in Keys(idents) || FunctionNameFromIdentifier(idents, fid) == Some("")
    ensures IdentifierControls(idents, controls, fid) == []
  {
  }

  /** The identifiers of a category, `[]` when it is unknown. */
  function CategoryIdentifiers(categories: Table<seq<string>>, category: string): (r: seq<string>)
    ensures Strip(category) !in Keys(categories) ==> r == []
    ensures r != [] ==> (Strip(category), r) in categories
  {
    match Get(categories, Strip(category))
    case Some(ids) => ids
    case None => []
  }

  /** `get_functions_for_category`: the category's identifiers, or in
      `"names"` mode each identifier's name (the identifier itself when it has
      none). */
  function GetFunctionsForCategory(categories: Table<seq<string>>, idents: Table<string>, category: string, returnKind: string): (r: seq<string>)
    ensures var ids := CategoryIdentifiers(categories, category);
      |r| == |ids|
      && (returnKind != "names" ==> r == ids)
      && (returnKind == "names" ==> forall i :: 0 <= i < |ids| ==>
            (ids[i] !in Keys(idents) ==> r[i] == ids[i])
            && (ids[i] in Keys(idents) ==> (ids[i], r[i]) in idents))
  {
    var ids := CategoryIdentifiers(categories, category);
    if returnKind == "names" then
      seq(|ids|, i requires 0 <= i < |ids| => match Get(idents, ids[i]) case Some(name) => name case None => ids[i])
    else ids
  }

  /** `summarize_csf_for_category`: the value of its one key
      `nist_csf_identifiers`, the identifiers joined with `", "`. */
  function SummarizeCsfForCategory(categories: Table<seq<string>>, category: string): (r: string)
    ensures Strip(category) !in Keys(categories) ==> r == ""
  {
    Join(CategoryIdentifiers(categories, category), ", ")
  }

  /** The summary splits back into the category's identifiers when none of
      them holds a comma. */
  lemma SummaryRoundTrip(categories: Table<seq<string>>, category: string)
    requires CategoryIdentifiers(categories, category) != []
    requires NoCommaIn(CategoryIdentifiers(categories, category))
    ensures var ids := CategoryIdentifiers(categories, category);
      Split(SummarizeCsfForCategory(categories, category), ',') == [ids[0]] + Spaced(ids[1..])
  {
    JoinSplit(CategoryIdentifiers(categories, category));
  }

  // ------------------------------------------------------- function codes

  /** The first two characters of a text, or all of a shorter one. */
  function Head2(t: string): (r: string)
    ensures |r| == if |t| < 2 then |t| else 2
  {
    if |t| < 2 then t else t[..2]
  }

  /** `get_function_from_code_or_ref`: the uppercased two letters before the
      first `.` of the stripped text when there are exactly two; else the
      uppercased first two characters when they are a function code; else
      `""`. */
  function GetFunctionFromCodeOrRef(s: string): (r: string)
    ensures s == "" ==> r == ""
  {
    if s == "" then ""
    else
      var t := Strip(s);
      if '.' in t && FirstIndex(t, '.') == 2 then Upper(t[..2])
      else if StartsWith(Upper(t), "GV.") then "GV"
      else
        var p := Upper(Head2(t));
        if p in FunctionCodes then p else ""
  }

  /** Two letters before the first `.` are returned uppercased, known code
      or not. */
  lemma CodeOrRefDotted(s: string)
    requires s != "" && '.' in Strip(s) && FirstIndex(Strip(s), '.') == 2
    ensures GetFunctionFromCodeOrRef(s) == Upper(Strip(s)[..2])
  {
  }

  /** The `GV.` branch is never taken: a text whose uppercase starts with
      `GV.` already has exactly two characters before its first `.`. */
  lemma GvBranchUnreachable(t: string)
    ensures StartsWith(Upper(t), "GV.") ==> '.' in t && FirstIndex(t, '.') == 2
  {
    if StartsWith(Upper(t), "GV.") {
      assert Upper(t)[..3] == "GV.";
      assert UpperChar(t[0]) == 'G' && UpperChar(t[1]) == 'V' && UpperChar(t[2]) == '.';
      assert t[0] != '.' && t[1] != '.' && t[2] == '.';
    }
  }

  lemma CodesNonEmpty()
    ensures "" !in FunctionCodes
  {
  }

  lemma CodesUpper(p: string)
    requires p in FunctionCodes
    ensures |p| == 2 && NoLower(p)
  {
  }

  /** Otherwise the result is the uppercased first two characters when they
      are one of the six codes, and `""` when they are not. */
  lemma CodeOrRefUndotted(s: string)
    requires !('.' in Strip(s) && FirstIndex(Strip(s), '.') == 2)
    ensures var r := GetFunctionFromCodeOrRef(s);
      (r != "" <==> Upper(Head2(Strip(s))) in FunctionCodes)
      && (r != "" ==> r == Upper(Head2(Strip(s))))
  {
    GvBranchUnreachable(Strip(s));
    CodesNonEmpty();
  }

  /** The result is empty or two characters with no lowercase letter. */
  lemma CodeOrRefShape(s: string)
    ensures var r := GetFunctionFromCodeOrRef(s);
      r == "" || (|r| == 2 && NoLower(r))
  {
    var t := Strip(s);
    if s != "" && '.' in t && FirstIndex(t, '.') == 2 {
      CodeOrRefDotted(s);
      UpperNoLower(t[..2]);
    } else {
      CodeOrRefUndotted(s);
      var r := GetFunctionFromCodeOrRef(s);
      if r != "" {
        CodesUpper(r);
      }
    }
  }

  lemma ControlStripped(id: string, n: nat)
    requires IdentShape(id) && n < 100
    ensures Strip(Control(id, n)) == Control(id, n)
  {
    var c := Control(id, n);
    assert c[0] == id[0] && c[|c| - 1] == TwoDigits(n)[1];
    StripFixed(c);
  }

  lemma ControlDot(id: string, n: nat)
    requires IdentShape(id) && n < 100
    ensures '.' in Control(id, n) && FirstIndex(Control(id, n), '.') == 2
    ensures Control(id, n)[..2] == id[..2]
  {
    var c := Control(id, n);
    assert c[0] == id[0] && c[1] == id[1] && c[2] == '.';
  }

  /** A control `XX.YY-NN` has function code `XX`. */
  lemma CodeOfControl(id: string, n: nat)
    requires IdentShape(id) && n < 100
    ensures GetFunctionFromCodeOrRef(Control(id, n)) == id[..2]
  {
    ControlStripped(id, n);
    ControlDot(id, n);
    CodeOrRefDotted(Control(id, n));
    UpperFixed(id[..2]);
  }

  /** Every control of the CSF control table has, as its function code, the
      code of the identifier it is listed under, and that code is one of the
      six. */
  lemma TableControlCodes()
    ensures forall k, c :: 0 <= k < |FunctionL2ToControls| && c in FunctionL2ToControls[k].1 ==>
      GetFunctionFromCodeOrRef(c) == FunctionL1IdentifierToFunctionL2[k].0[..2]
      && GetFunctionFromCodeOrRef(c) in FunctionCodes
  {
    IdentifiersShape();
    forall k, c | 0 <= k < |FunctionL2ToControls| && c in FunctionL2ToControls[k].1
      ensures GetFunctionFromCodeOrRef(c) == FunctionL1IdentifierToFunctionL2[k].0[..2]
    {
      ControlRow(k);
      var id := FunctionL1IdentifierToFunctionL2[k].0;
      var j :| 0 <= j < |ControlNumbers[k]| && Controls(id, ControlNumbers[k])[j] == c;
      CodeOfControl(id, ControlNumbers[k][j]);
    }
  }
}
