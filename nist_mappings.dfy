/** The static NIST CSF 2.0 tables of the dashboard: function codes and
    names, function identifiers (categories in CSF terms), their controls, and
    the mapping from external finding categories to controls.  Each control
    list is written as its identifier and control numbers; `Control` renders
    them as the texts of the tables (`GV.OC` and 2 give `GV.OC-02`). */
module NistMappings {
  import opened Text
  import opened JsonValue
  import opened Normalization

  /** The six CSF function codes, in table order. */
  const FunctionCodes: seq<string> := ["GV", "ID", "PR", "DE", "RS", "RC"]

  /** Two uppercase letters. */
  predicate Code2(s: string)
  {
    |s| == 2 && IsUpperChar(s[0]) && IsUpperChar(s[1])
  }

  /** A function identifier `XX.YY`. */
  predicate IdentShape(id: string)
  {
    |id| == 5 && Code2(id[..2]) && id[2] == '.' && Code2(id[3..])
  }

  /** A control number as two decimal digits. */
  function TwoDigits(n: nat): (r: string)
    requires n < 100
    ensures |r| == 2 && IsDigits(r)
  {
    [DigitChar(n / 10), DigitChar(n % 10)]
  }

  /** The control text `id-NN`. */
  function Control(id: string, n: nat): (r: string)
    requires n < 100
  {
    id + "-" + TwoDigits(n)
  }

  predicate SmallNums(ns: seq<nat>)
  {
    forall i :: 0 <= i < |ns| ==> ns[i] < 100
  }

  function Controls(id: string, ns: seq<nat>): (r: seq<string>)
    requires SmallNums(ns)
    ensures |r| == |ns| && forall i :: 0 <= i < |ns| ==> r[i] == Control(id, ns[i])
  {
    seq(|ns|, i requires 0 <= i < |ns| => Control(id, ns[i]))
  }

  /** `CSF_L1_FUNCTION_FULL`: function code to function name. */
  const CsfL1FunctionFull: seq<(string, string)> := [
    ("GV", "Govern"),
    ("ID", "Identify"),
    ("PR", "Protect"),
    ("DE", "Detect"),
    ("RS", "Respond"),
    ("RC", "Recover")
  ]

  /** `FUNCTION_L1_IDENTIFIER_TO_FUNCTION_L2`: identifier to its name. */
  const FunctionL1IdentifierToFunctionL2: seq<(string, string)> := [
    ("GV.OC", "Organizational Context"),
    ("GV.OV", "Oversight"),
    ("GV.PO", "Policy"),
    ("GV.RM", "Risk Management Strategy"),
    ("GV.RR", "Roles, Responsibilities and Authorities"),
    ("GV.SC", "Supply Chain Risk Management"),
    ("ID.AM", "Asset Management"),
    ("ID.RA", "Risk Assessment"),
    ("ID.IM", "Improvement"),
    ("PR.AA", "Identity & Access Control"),
    ("PR.AT", "Awareness & Training"),
    ("PR.DS", "Data Security"),
    ("PR.PS", "Platform Security"),
    ("PR.IR", "Technology Infrastructure Resilience"),
    ("DE.CM", "Continuous Monitoring"),
    ("DE.AE", "Adverse Event Analysis"),
    ("RS.MA", "Incident Management"),
    ("RS.AN", "Incident Analysis"),
    ("RS.CO", "Incident Response & Reporting"),
    ("RS.MI", "Incident Mitigation"),
    ("RC.RP", "Incident Recovery Plan Execution"),
    ("RC.CO", "Incident Recovery Communication")
  ]

  /** The control numbers of each identifier, in the order of
      `FunctionL1IdentifierToFunctionL2`. */
  const ControlNumbers: seq<seq<nat>> := [
    [2, 3, 4, 5],
    [1, 2, 3],
    [1, 2],
    [1, 2, 3, 4, 5, 6, 7],
    [1, 2, 3, 4],
    [1, 2, 3, 4, 5, 6, 7, 8, 9, 10],
    [1, 2, 3, 4, 5, 7, 8],
    [1, 2, 3, 4, 5, 6, 7, 8, 9, 10],
    [1, 2, 3, 4],
    [1, 2, 3, 4, 5, 6],
    [1, 2],
    [1, 2, 10, 11],
    [1, 2, 3, 4, 5, 6],
    [1, 2, 3, 4],
    [1, 2, 3, 6, 9],
    [2, 3, 4, 6, 7, 8],
    [1, 2, 3, 4, 5],
    [3, 6, 7, 8],
    [2, 3],
    [1, 2],
    [1, 2, 3, 4, 5, 6],
    [3, 4]
  ]

  /** `FUNCTION_L2_TO_CONTROLS`: identifier name to its controls; row `k`
      pairs the name of identifier `k` with that identifier's controls. */
  const FunctionL2ToControls: seq<(string, seq<string>)> := ControlTable(FunctionL1IdentifierToFunctionL2, ControlNumbers)

  /** Row `k` pairs the name of identifier `k` with the controls numbered by
      `nums[k]`. */
  function ControlTable(idents: seq<(string, string)>, nums: seq<seq<nat>>): seq<(string, seq<string>)>
  {
    seq(|idents|, k requires 0 <= k < |idents| =>
      (idents[k].1,
       if k < |nums| && SmallNums(nums[k]) then Controls(idents[k].0, nums[k]) else []))
  }

  /** `EXTERNAL_FINDINGS_TO_CONTROLS`: external finding category to the
      controls it evidences. */
  const ExternalControlPairs: seq<(string, seq<(string, nat)>)> := [
    ("Attack Surface", [("ID.AM", 1), ("ID.RA", 1)]),
    ("Vulnerability Exposure", [("PR.PS", 1), ("DE.CM", 1)]),
    ("IP Reputation & Threats", [("DE.CM", 2), ("DE.AE", 2)]),
    ("Web Security Posture", [("PR.PS", 2), ("PR.DS", 1)]),
    ("Leakage & Breach History", [("RS.AN", 3), ("RC.RP", 1)]),
    ("Email Security", [("PR.AA", 2), ("PR.AT", 1)])
  ]

  function Render(ps: seq<(string, nat)>): (r: seq<string>)
    ensures |r| == |ps|
    ensures forall j :: 0 <= j < |ps| && ps[j].1 < 100 ==> r[j] == Control(ps[j].0, ps[j].1)
  {
    seq(|ps|, j requires 0 <= j < |ps| => if ps[j].1 < 100 then Control(ps[j].0, ps[j].1) else "")
  }

  const ExternalFindingsToControls: seq<(string, seq<string>)> := RenderAll(ExternalControlPairs)

  /** Each finding with its controls rendered. */
  function RenderAll(m: seq<(string, seq<(string, nat)>)>): seq<(string, seq<string>)>
  {
    seq(|m|, i requires 0 <= i < |m| => (m[i].0, Render(m[i].1)))
  }

  // ------------------------------------------------------- rendered controls

  lemma IdentHead(id: string)
    requires IdentShape(id)
    ensures NormalHead(id) && Parts(id, '.') == [id[..2], id[3..]] && id == id[..2] + "." + id[3..]
  {
    var a, b := id[..2], id[3..];
    assert id == a + "." + b;
    assert Segment(a) && Segment(b);
    JoinTwoFacts(a, b);
    assert !IsSpace(id[0]);
  }

  /** Every rendered control is already in normal form, and its prefix is
      its identifier. */
  lemma ControlCanonical(id: string, n: nat)
    requires IdentShape(id) && n < 100
    ensures NormRef(Control(id, n)) == Control(id, n)
    ensures Prefix(Control(id, n)) == id
  {
    var z := TwoDigits(n);
    IdentHead(id);
    assert Trimmed(z);
    CanonicalAgain(id, z);
    PrefixPartsOfCanonical(id, z);
  }

  lemma {:induction false} StrLtCommonPrefix(p: string, a: string, b: string)
    requires StrLt(a, b)
    ensures StrLt(p + a, p + b)
    decreases |p|
  {
    if p != [] {
      StrLtCommonPrefix(p[1..], a, b);
      assert (p + a)[0] == p[0] && (p + b)[0] == p[0];
      assert (p + a)[1..] == p[1..] + a && (p + b)[1..] == p[1..] + b;
      assert StrLe(p + a, p + b);
      assert (p + a)[|p|..] == a && (p + b)[|p|..] == b;
    } else {
      assert p + a == a && p + b == b;
    }
  }

  /** Two-digit rendering keeps numeric order. */
  lemma TwoDigitsOrder(m: nat, n: nat)
    requires m < n < 100
    ensures StrLt(TwoDigits(m), TwoDigits(n))
  {
    var x, y := TwoDigits(m), TwoDigits(n);
    assert x[1..][1..] == [] && y[1..][1..] == [];
    if m / 10 == n / 10 {
      assert m % 10 < n % 10;
    }
  }

  lemma ControlOrder(id: string, m: nat, n: nat)
    requires m < n < 100
    ensures StrLt(Control(id, m), Control(id, n))
  {
    TwoDigitsOrder(m, n);
    StrLtCommonPrefix(id + "-", TwoDigits(m), TwoDigits(n));
  }

  /** Numbers that rise from each one to the next rise overall. */
  lemma {:induction false} AdjacentOrdered(ns: seq<nat>, i: nat, j: nat)
    requires forall m :: 0 <= m < |ns| - 1 ==> ns[m] < ns[m + 1]
    requires i < j < |ns|
    ensures ns[i] < ns[j]
    decreases j - i
  {
    if j > i + 1 {
      AdjacentOrdered(ns, i, j - 1);
    }
  }

  /** A control list is strictly ascending when its numbers are. */
  lemma ControlsIncreasing(id: string, ns: seq<nat>)
    requires SmallNums(ns)
    requires forall i :: 0 <= i < |ns| - 1 ==> ns[i] < ns[i + 1]
    ensures StrictlyIncreasing(Controls(id, ns))
  {
    var cs := Controls(id, ns);
    forall i, j | 0 <= i < j < |cs| ensures StrLt(cs[i], cs[j]) {
      AdjacentOrdered(ns, i, j);
      ControlOrder(id, ns[i], ns[j]);
    }
  }

  /** Every control of a list is in normal form and has the list's
      identifier as prefix. */
  lemma ControlsCanonical(id: string, ns: seq<nat>)
    requires IdentShape(id) && SmallNums(ns)
    ensures forall c :: c in Controls(id, ns) ==> NormRef(c) == c && Prefix(c) == id
  {
    forall c | c in Controls(id, ns) ensures NormRef(c) == c && Prefix(c) == id {
      var i :| 0 <= i < |ns| && Controls(id, ns)[i] == c;
      ControlCanonical(id, ns[i]);
    }
  }

  // ------------------------------------------------------------- table facts

  /** The function table has exactly the six codes, in order. */
  lemma FunctionCodesOfL1()
    ensures Keys(CsfL1FunctionFull) == FunctionCodes
  {
  }

  lemma IdentifierCodes()
    ensures forall k :: 0 <= k < |FunctionL1IdentifierToFunctionL2| ==>
      var id := FunctionL1IdentifierToFunctionL2[k].0;
      id[..2] == [id[0], id[1]] && [id[0], id[1]] in FunctionCodes
  {
  }

  /** Every identifier is `XX.YY` with `XX` one of the function codes. */
  lemma IdentifiersShape()
    ensures forall k :: 0 <= k < |FunctionL1IdentifierToFunctionL2| ==>
      IdentShape(FunctionL1IdentifierToFunctionL2[k].0)
      && FunctionL1IdentifierToFunctionL2[k].0[..2] in FunctionCodes
  {
    IdentifierCodes();
  }

  lemma NumbersSmall()
    ensures |ControlNumbers| == |FunctionL1IdentifierToFunctionL2|
    ensures forall k :: 0 <= k < |ControlNumbers| ==> SmallNums(ControlNumbers[k])
  {
  }

  lemma NumbersAscend()
    ensures forall k, i :: 0 <= k < |ControlNumbers| && 0 <= i < |ControlNumbers[k]| - 1 ==>
      ControlNumbers[k][i] < ControlNumbers[k][i + 1]
  {
  }

  lemma NamesDistinct()
    ensures forall i, j :: 0 <= i < j < |FunctionL1IdentifierToFunctionL2| ==>
      FunctionL1IdentifierToFunctionL2[i].1 != FunctionL1IdentifierToFunctionL2[j].1
  {
  }

  /** Row `k` of the control table, spelled out. */
  lemma ControlRow(k: nat)
    requires k < |FunctionL1IdentifierToFunctionL2|
    ensures k < |ControlNumbers| && SmallNums(ControlNumbers[k])
    ensures FunctionL2ToControls[k]
      == (FunctionL1IdentifierToFunctionL2[k].1,
          Controls(FunctionL1IdentifierToFunctionL2[k].0, ControlNumbers[k]))
  {
    NumbersSmall();
  }

  /** Every identifier is `XX.YY` with `XX` a function code, and its name is
      a key of the control table; each control listed under that name is in
      normal form, has the identifier as its prefix, and the list ascends
      strictly. */
  lemma IdentifierControls()
    ensures forall k :: 0 <= k < |FunctionL1IdentifierToFunctionL2| ==>
      var id := FunctionL1IdentifierToFunctionL2[k].0;
      var cs := Get(FunctionL2ToControls, FunctionL1IdentifierToFunctionL2[k].1);
      IdentShape(id) && id[..2] in FunctionCodes && cs.Some? && StrictlyIncreasing(cs.value)
      && forall c :: c in cs.value ==> NormRef(c) == c && Prefix(c) == id
  {
    IdentifiersShape();
    forall k | 0 <= k < |FunctionL1IdentifierToFunctionL2|
      ensures var id := FunctionL1IdentifierToFunctionL2[k].0;
        var cs := Get(FunctionL2ToControls, FunctionL1IdentifierToFunctionL2[k].1);
        cs.Some? && StrictlyIncreasing(cs.value)
        && forall c :: c in cs.value ==> NormRef(c) == c && Prefix(c) == id
    {
      RowControls(k);
    }
  }

  /** The name of identifier `k` looks up row `k` of the control table. */
  lemma RowLookup(k: nat)
    requires k < |FunctionL1IdentifierToFunctionL2|
    ensures k < |ControlNumbers| && SmallNums(ControlNumbers[k])
    ensures Get(FunctionL2ToControls, FunctionL1IdentifierToFunctionL2[k].1)
      == Some(Controls(FunctionL1IdentifierToFunctionL2[k].0, ControlNumbers[k]))
  {
    NamesDistinct();
    ControlRow(k);
    forall j | 0 <= j < k ensures FunctionL2ToControls[j].0 != FunctionL2ToControls[k].0 {
      ControlRow(j);
    }
    GetAt(FunctionL2ToControls, k);
  }

  lemma RowControls(k: nat)
    requires k < |FunctionL1IdentifierToFunctionL2|
    ensures var id := FunctionL1IdentifierToFunctionL2[k].0;
      var cs := Get(FunctionL2ToControls, FunctionL1IdentifierToFunctionL2[k].1);
      cs.Some? && StrictlyIncreasing(cs.value)
      && forall c :: c in cs.value ==> NormRef(c) == c && Prefix(c) == id
  {
    var id := FunctionL1IdentifierToFunctionL2[k].0;
    IdentifiersShape();
    RowLookup(k);
    NumbersAscend();
    ControlsIncreasing(id, ControlNumbers[k]);
    ControlsCanonical(id, ControlNumbers[k]);
  }

  /** Controls of well-formed identifiers are equal only when identifier and
      number are. */
  lemma ControlInjective(id: string, m: nat, id': string, n: nat)
    requires IdentShape(id) && IdentShape(id') && m < 100 && n < 100
    requires Control(id, m) == Control(id', n)
    ensures id == id' && m == n
  {
    var c := Control(id, m);
    assert id == c[..5] == id';
    assert TwoDigits(m) == c[6..] == TwoDigits(n);
    assert DigitChar(m / 10) == DigitChar(n / 10) && DigitChar(m % 10) == DigitChar(n % 10);
  }

  lemma ExternalPairFacts()
    ensures forall i, j :: 0 <= i < |ExternalControlPairs| && 0 <= j < |ExternalControlPairs[i].1| ==>
      IdentShape(ExternalControlPairs[i].1[j].0) && ExternalControlPairs[i].1[j].1 < 100
    ensures forall i, j, i', j' ::
      0 <= i < |ExternalControlPairs| && 0 <= j < |ExternalControlPairs[i].1| &&
      0 <= i' < |ExternalControlPairs| && 0 <= j' < |ExternalControlPairs[i'].1| && i != i' ==>
      ExternalControlPairs[i].1[j] != ExternalControlPairs[i'].1[j']
  {
  }

  /** No control is mapped from two external finding categories. */
  lemma ExternalControlsDisjoint()
    ensures forall i, i', c :: 0 <= i < i' < |ExternalFindingsToControls| && c in ExternalFindingsToControls[i].1 ==>
      c !in ExternalFindingsToControls[i'].1
  {
    ExternalPairFacts();
    forall i, i', c | 0 <= i < i' < |ExternalFindingsToControls| && c in ExternalFindingsToControls[i].1
      ensures c !in ExternalFindingsToControls[i'].1
    {
      var ps, qs := ExternalControlPairs[i].1, ExternalControlPairs[i'].1;
      var j :| 0 <= j < |ps| && ExternalFindingsToControls[i].1[j] == c;
      if c in ExternalFindingsToControls[i'].1 {
        var j' :| 0 <= j' < |qs| && ExternalFindingsToControls[i'].1[j'] == c;
        ControlInjective(ps[j].0, ps[j].1, qs[j'].0, qs[j'].1);
        assert false;
      }
    }
  }

  lemma Listed(id: string, n: nat, k: nat, pos: nat)
    requires k < |FunctionL1IdentifierToFunctionL2| && FunctionL1IdentifierToFunctionL2[k].0 == id
    requires k < |ControlNumbers| && pos < |ControlNumbers[k]| && ControlNumbers[k][pos] == n && n < 100
    ensures Control(id, n) in FunctionL2ToControls[k].1
  {
    ControlRow(k);
    assert FunctionL2ToControls[k].1[pos] == Control(id, n);
  }

  /** Where each external pair sits in the control table: its row and its
      position in that row. */
  const ExternalPairRows: seq<seq<(nat, nat)>> :=
    [[(6, 0), (7, 0)], [(12, 0), (14, 0)], [(14, 1), (15, 0)],
     [(12, 1), (11, 0)], [(17, 0), (20, 0)], [(9, 1), (10, 0)]]

  lemma ExternalPairRowsMatch(i: nat, j: nat)
    requires i < |ExternalControlPairs| && j < |ExternalControlPairs[i].1|
    ensures i < |ExternalPairRows| && j < |ExternalPairRows[i]|
    ensures var (k, pos) := ExternalPairRows[i][j];
      k < |FunctionL1IdentifierToFunctionL2| && k < |ControlNumbers| && pos < |ControlNumbers[k]|
      && FunctionL1IdentifierToFunctionL2[k].0 == ExternalControlPairs[i].1[j].0
      && ControlNumbers[k][pos] == ExternalControlPairs[i].1[j].1
      && ExternalControlPairs[i].1[j].1 < 100
  {
  }

  lemma ExternalPairListed(i: nat, j: nat)
    requires i < |ExternalControlPairs| && j < |ExternalControlPairs[i].1|
    ensures var c := Control(ExternalControlPairs[i].1[j].0, ExternalControlPairs[i].1[j].1);
      exists k :: 0 <= k < |FunctionL2ToControls| && c in FunctionL2ToControls[k].1
  {
    ExternalPairRowsMatch(i, j);
    var (k, pos) := ExternalPairRows[i][j];
    Listed(ExternalControlPairs[i].1[j].0, ExternalControlPairs[i].1[j].1, k, pos);
  }

  /** Every control of an external finding category is listed under some
      identifier of the control table. */
  lemma ExternalControlsListed()
    ensures forall i, c :: 0 <= i < |ExternalFindingsToControls| && c in ExternalFindingsToControls[i].1 ==>
      exists k :: 0 <= k < |FunctionL2ToControls| && c in FunctionL2ToControls[k].1
  {
    ExternalPairFacts();
    forall i, c | 0 <= i < |ExternalFindingsToControls| && c in ExternalFindingsToControls[i].1
      ensures exists k :: 0 <= k < |FunctionL2ToControls| && c in FunctionL2ToControls[k].1
    {
      var j :| 0 <= j < |ExternalControlPairs[i].1| && ExternalFindingsToControls[i].1[j] == c;
      ExternalPairListed(i, j);
    }
  }
}
